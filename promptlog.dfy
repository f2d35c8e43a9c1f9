/** tools/log-updater.cjs: the command-line editor of PROMPTS_LOG.md. It
    numbers a new prompt after the highest `### Prompt #ddd` heading, inserts
    a table row under the table's separator line and a detail block under the
    `## … Log Entries` heading, and rewrites the status cell of a row. The
    regular expressions of the source are written out as scanning functions
    with the same matches. The file is a class whose content is absent when
    the file does not exist; console output is not modelled and every
    `process.exit(1)` is an `Err` carrying the message printed before it. */
module PromptLog {
  import opened Common

  const HeadingPrefix := "### Prompt #"
  const TableMarker := "|---|------|------|"
  const LogEntriesTitle := " Log Entries"
  const ApprovalLabel := "- **Approval Status:** "
  const Newline := "\n"

  const LogNotFound := "? PROMPTS_LOG.md not found!"
  const DescriptionRequired := "? Description required!"
  const TableHeaderMissing := "? Could not find table header in log!"
  const DetailSectionMissing := "? Could not find detail section in log!"
  const ArgumentsRequired := "? Both prompt number and status required!"

  function RowNotFound(padded: string): string {
    "? Prompt #" + padded + " not found in table!"
  }

  // ---------------------------------------------------------------------
  // Decimal numerals: `\d`, `parseInt`, `String(n)` and `padStart`.

  predicate IsDigit(c: char) {
    '0' <= c <= '9'
  }

  predicate AllDigits(s: string) {
    forall i :: 0 <= i < |s| ==> IsDigit(s[i])
  }

  function Pow10(k: nat): nat {
    if k == 0 then 1 else 10 * Pow10(k - 1)
  }

  /** `parseInt(s, 10)` on a string of decimal digits. */
  function ParseDecimal(s: string): nat
    requires AllDigits(s)
  {
    if |s| == 0 then 0
    else ParseDecimal(s[..|s| - 1]) * 10 + (s[|s| - 1] as int - '0' as int)
  }

  function DigitChar(d: nat): (c: char)
    requires d < 10
    ensures IsDigit(c) && c as int - '0' as int == d
  {
    (d + '0' as int) as char
  }

  /** `String(n)`: the shortest decimal numeral of `n`. */
  function NatToString(n: nat): (s: string)
    ensures 1 <= |s| && AllDigits(s)
    ensures s[0] == '0' ==> n == 0
    ensures n >= 10 ==> |s| >= 2
    ensures n >= 100 ==> |s| >= 3
  {
    if n < 10 then [DigitChar(n)]
    else
      var s := NatToString(n / 10) + [DigitChar(n % 10)];
      assert s[0] == NatToString(n / 10)[0];
      s
  }

  /** `parseInt` undoes `String`. */
  lemma {:induction false} ParseNatToString(n: nat)
    ensures ParseDecimal(NatToString(n)) == n
  {
    var s := NatToString(n);
    if n < 10 {
      assert s[..0] == [];
    } else {
      ParseNatToString(n / 10);
      assert s[..|s| - 1] == NatToString(n / 10);
    }
  }

  /** `s.padStart(width, fill)` for a one-character `fill`. */
  function PadStart(s: string, width: nat, fill: char): (r: string)
    ensures |r| == if |s| < width then width else |s|
    ensures r[|r| - |s|..] == s
    ensures forall i :: 0 <= i < |r| - |s| ==> r[i] == fill
  {
    if |s| < width then seq(width - |s|, _ => fill) + s else s
  }

  lemma {:induction false} ParseAppend(a: string, b: string)
    requires AllDigits(a) && AllDigits(b)
    ensures AllDigits(a + b)
    ensures ParseDecimal(a + b) == ParseDecimal(a) * Pow10(|b|) + ParseDecimal(b)
  {
    if |b| == 0 {
      assert a + b == a;
    } else {
      var b' := b[..|b| - 1];
      assert (a + b)[..|a + b| - 1] == a + b';
      assert (a + b)[|a + b| - 1] == b[|b| - 1];
      ParseAppend(a, b');
      Shift(ParseDecimal(a), Pow10(|b'|), ParseDecimal(b'));
    }
  }

  lemma Shift(x: nat, y: nat, z: nat)
    ensures (x * y + z) * 10 == x * (10 * y) + z * 10
  {
  }

  lemma {:induction false} ZerosParseToZero(z: string)
    requires forall i :: 0 <= i < |z| ==> z[i] == '0'
    ensures AllDigits(z) && ParseDecimal(z) == 0
  {
    if |z| > 0 {
      ZerosParseToZero(z[..|z| - 1]);
    }
  }

  /** Padding a numeral with zeros keeps it a numeral of the same value. */
  lemma PadKeepsValue(s: string, width: nat)
    requires AllDigits(s)
    ensures AllDigits(PadStart(s, width, '0'))
    ensures ParseDecimal(PadStart(s, width, '0')) == ParseDecimal(s)
  {
    var r := PadStart(s, width, '0');
    if |s| < width {
      var z := r[..|r| - |s|];
      assert r == z + s;
      ZerosParseToZero(z);
      ParseAppend(z, s);
    }
  }

  // ---------------------------------------------------------------------
  // The next prompt number.

  function Max(xs: seq<nat>): (m: nat)
    requires |xs| > 0
    ensures m in xs && forall i :: 0 <= i < |xs| ==> xs[i] <= m
  {
    if |xs| == 1 then xs[0]
    else
      var rest := Max(xs[1..]);
      assert forall i :: 1 <= i < |xs| ==> xs[i] == xs[1..][i - 1];
      if xs[0] >= rest then xs[0] else rest
  }

  /** The length of the run of digits at position `a` of `s`. */
  function DigitsAt(s: string, a: nat): (n: nat)
    ensures a + n <= |s| || n == 0
    ensures forall k :: a <= k < a + n ==> IsDigit(s[k])
    ensures a + n < |s| ==> !IsDigit(s[a + n])
    decreases |s| - a
  {
    if a >= |s| || !IsDigit(s[a]) then 0 else 1 + DigitsAt(s, a + 1)
  }

  /** `p` occurs in `s` at position `k`. */
  predicate OccursAt(s: string, p: string, k: int) {
    0 <= k && k + |p| <= |s| && s[k..k + |p|] == p
  }

  /** A heading at position `i`: the prefix followed by at least three digits. */
  predicate HeadingAt(s: string, i: nat) {
    OccursAt(s, HeadingPrefix, i) && DigitsAt(s, i + 12) >= 3
  }

  /** The number of the heading at `i`, with all its digits. */
  function HeadingNumber(s: string, i: nat): nat
    requires HeadingAt(s, i)
  {
    ParseDecimal(s[i + 12..i + 12 + DigitsAt(s, i + 12)])
  }

  /** The numbers `getNextPromptNumber` reads as written, from position `from`:
      every match of `/### Prompt #(\d{3})/g`, left to right, read back by
      `/\d{3}/`, that is only the first three digits of the heading number. */
  function WrittenNumbers(s: string, from: nat): seq<nat>
    decreases |s| - from
  {
    if from + 15 > |s| then []
    else if HeadingAt(s, from) then [ParseDecimal(s[from + 12..from + 15])] + WrittenNumbers(s, from + 15)
    else WrittenNumbers(s, from + 1)
  }

  /** The heading numbers with all their digits: the matches of
      `/### Prompt #(\d{3,})/g` from position `from`. */
  function HeadingNumbers(s: string, from: nat): seq<nat>
    decreases |s| - from
  {
    if from + 15 > |s| then []
    else if HeadingAt(s, from) then [HeadingNumber(s, from)] + HeadingNumbers(s, from + 12 + DigitsAt(s, from + 12))
    else HeadingNumbers(s, from + 1)
  }

  /** The characters of the heading prefix that the proof below needs. */
  lemma PrefixChars(s: string, a: nat)
    requires OccursAt(s, HeadingPrefix, a)
    ensures s[a] == '#' && s[a + 1] == '#' && s[a + 2] == '#' && s[a + 3] == ' ' && s[a + 11] == '#'
    ensures forall k :: a + 3 <= k < a + 11 ==> s[k] != '#'
  {
    var w := s[a..a + 12];
    assert w == HeadingPrefix;
    forall t | 0 <= t < 12 ensures s[a + t] == HeadingPrefix[t] {
      assert s[a + t] == w[t];
    }
  }

  /** A heading cannot start inside another heading. */
  lemma NoHeadingInside(s: string, from: nat, i: nat)
    requires from < i && HeadingAt(s, from) && HeadingAt(s, i)
    ensures from + 12 + DigitsAt(s, from + 12) <= i
  {
    PrefixChars(s, from);
    PrefixChars(s, i);
    var n := DigitsAt(s, from + 12);
    if i < from + 12 + n {
      assert false;
    }
  }

  /** The global match sees every heading from `from` on. */
  lemma {:induction false} HeadingFound(s: string, from: nat, i: nat)
    requires from <= i && HeadingAt(s, i)
    ensures HeadingNumber(s, i) in HeadingNumbers(s, from)
    decreases i - from, 1
  {
    if i == from {
      FoundHere(s, i);
    } else if HeadingAt(s, from) {
      FoundPastHeading(s, from, i);
    } else {
      FoundPastOther(s, from, i);
    }
  }

  /** A heading before `i` is skipped whole, and `i` is found after it. */
  lemma {:induction false} FoundPastHeading(s: string, from: nat, i: nat)
    requires from < i && HeadingAt(s, from) && HeadingAt(s, i)
    ensures HeadingNumber(s, i) in HeadingNumbers(s, from)
    decreases i - from, 0
  {
    var next := from + 12 + DigitsAt(s, from + 12);
    NoHeadingInside(s, from, i);
    HeadingFound(s, next, i);
    FoundAfterHeading(s, from, next, i);
  }

  /** A position that starts no heading is skipped one character at a time. */
  lemma {:induction false} FoundPastOther(s: string, from: nat, i: nat)
    requires from < i && !HeadingAt(s, from) && HeadingAt(s, i)
    ensures HeadingNumber(s, i) in HeadingNumbers(s, from)
    decreases i - from, 0
  {
    HeadingFits(s, i);
    HeadingFound(s, from + 1, i);
    FoundAfterOther(s, from, i);
  }

  lemma HeadingFits(s: string, i: nat)
    requires HeadingAt(s, i)
    ensures i + 15 <= |s|
  {
  }

  lemma FoundHere(s: string, i: nat)
    requires HeadingAt(s, i)
    ensures HeadingNumber(s, i) in HeadingNumbers(s, i)
  {
    HeadingFits(s, i);
  }

  lemma FoundAfterHeading(s: string, from: nat, next: nat, i: nat)
    requires HeadingAt(s, from) && HeadingAt(s, i) && next == from + 12 + DigitsAt(s, from + 12)
    requires HeadingNumber(s, i) in HeadingNumbers(s, next)
    ensures HeadingNumber(s, i) in HeadingNumbers(s, from)
  {
    HeadingFits(s, from);
  }

  lemma FoundAfterOther(s: string, from: nat, i: nat)
    requires from + 15 <= |s| && !HeadingAt(s, from) && HeadingAt(s, i)
    requires HeadingNumber(s, i) in HeadingNumbers(s, from + 1)
    ensures HeadingNumber(s, i) in HeadingNumbers(s, from)
  {
  }

  /** `max + 1` padded to three digits, or '001' when there is no number. */
  function NextFrom(numbers: seq<nat>): string {
    if |numbers| == 0 then "001" else PadStart(NatToString(Max(numbers) + 1), 3, '0')
  }

  /** The next number is a numeral of at least three digits, above every
      number it was computed from; '001' when there is none, and otherwise
      `String(max + 1)` itself once that has three digits (no truncation). */
  lemma NextFromAbove(numbers: seq<nat>)
    ensures AllDigits(NextFrom(numbers)) && |NextFrom(numbers)| >= 3
    ensures |numbers| == 0 ==> NextFrom(numbers) == "001"
    ensures |numbers| > 0 ==> ParseDecimal(NextFrom(numbers)) == Max(numbers) + 1
    ensures |numbers| > 0 && Max(numbers) + 1 >= 100 ==> NextFrom(numbers) == NatToString(Max(numbers) + 1)
    ensures forall i :: 0 <= i < |numbers| ==> numbers[i] < ParseDecimal(NextFrom(numbers))
  {
    if |numbers| > 0 {
      var m := Max(numbers);
      PadNumeral(m + 1);
      forall i | 0 <= i < |numbers| ensures numbers[i] < m + 1 {
        assert numbers[i] <= m;
      }
    } else {
      ParseOne();
    }
  }

  /** `String(n).padStart(3, '0')` is a numeral of at least three digits
      whose value is `n`, and it is `String(n)` once that has three digits. */
  lemma PadNumeral(n: nat)
    ensures AllDigits(PadStart(NatToString(n), 3, '0')) && |PadStart(NatToString(n), 3, '0')| >= 3
    ensures ParseDecimal(PadStart(NatToString(n), 3, '0')) == n
    ensures n >= 100 ==> PadStart(NatToString(n), 3, '0') == NatToString(n)
  {
    var t := NatToString(n);
    PadKeepsValue(t, 3);
    ParseNatToString(n);
  }

  lemma ParseOne()
    ensures AllDigits("001") && ParseDecimal("001") == 1
  {
    assert "001"[..2] == "00" && "00"[..1] == "0" && "0"[..0] == "";
  }

  /** `getNextPromptNumber()` as written, on the log's content. */
  function WrittenNextPromptNumber(content: string): string {
    NextFrom(WrittenNumbers(content, 0))
  }

  /** `getNextPromptNumber()` reading whole heading numbers. */
  function NextPromptNumber(content: string): string {
    NextFrom(HeadingNumbers(content, 0))
  }

  /** The corrected number is above the number of every heading in the log. */
  lemma NextPromptNumberIsFresh(content: string, i: nat)
    requires HeadingAt(content, i)
    ensures HeadingNumber(content, i) < ParseDecimal(NextPromptNumber(content))
  {
    HeadingFound(content, 0, i);
    NextFromAbove(HeadingNumbers(content, 0));
  }

  /** As written, a log whose only heading is `### Prompt #1000` yields '101',
      which lies below that heading's number; the corrected reading gives '1001'. */
  lemma WrittenNumberRepeats()
    ensures HeadingAt("### Prompt #1000", 0) && HeadingNumber("### Prompt #1000", 0) == 1000
    ensures WrittenNextPromptNumber("### Prompt #1000") == "101"
    ensures NextPromptNumber("### Prompt #1000") == "1001"
  {
    Heading1000();
    var s := "### Prompt #1000";
    Written1000();
    Numbers1000();
    assert Max([100]) == 100 && Max([1000]) == 1000;
    assert NatToString(101) == "101" by {
      assert NatToString(10) == NatToString(1) + [DigitChar(0)];
    }
    assert NatToString(1001) == "1001" by {
      assert NatToString(100) == NatToString(10) + [DigitChar(0)];
      assert NatToString(10) == NatToString(1) + [DigitChar(0)];
    }
    assert NextFrom([100]) == "101";
    assert NextFrom([1000]) == "1001";
  }

  lemma Heading1000()
    ensures HeadingAt("### Prompt #1000", 0) && DigitsAt("### Prompt #1000", 12) == 4
    ensures "### Prompt #1000"[12..15] == "100" && "### Prompt #1000"[12..16] == "1000"
  {
    var s := "### Prompt #1000";
    assert s[0..12] == HeadingPrefix;
    assert DigitsAt(s, 16) == 0;
    assert IsDigit(s[15]) && IsDigit(s[14]) && IsDigit(s[13]) && IsDigit(s[12]);
    assert s[12..15] == "100";
    assert s[12..16] == "1000";
  }

  lemma Written1000()
    ensures WrittenNumbers("### Prompt #1000", 0) == [100]
  {
    var s := "### Prompt #1000";
    Heading1000();
    assert ParseDecimal("100") == 100 by {
      assert "100"[..2] == "10" && "10"[..1] == "1" && "1"[..0] == "";
    }
    assert WrittenNumbers(s, 15) == [];
    assert WrittenNumbers(s, 0) == [ParseDecimal(s[12..15])] + WrittenNumbers(s, 15);
  }

  lemma Numbers1000()
    ensures HeadingAt("### Prompt #1000", 0) && HeadingNumber("### Prompt #1000", 0) == 1000
    ensures HeadingNumbers("### Prompt #1000", 0) == [1000]
  {
    var s := "### Prompt #1000";
    Heading1000();
    assert ParseDecimal("1000") == 1000 by {
      assert "1000"[..3] == "100" && "100"[..2] == "10" && "10"[..1] == "1" && "1"[..0] == "";
    }
    assert HeadingNumber(s, 0) == 1000;
    assert HeadingNumbers(s, 16) == [];
    assert HeadingNumbers(s, 0) == [HeadingNumber(s, 0)] + HeadingNumbers(s, 16);
  }

  /** The tool's own example: after `### Prompt #999` comes '1000'. */
  lemma After999()
    ensures NextFrom([999]) == "1000"
  {
    assert NatToString(1000) == NatToString(100) + [DigitChar(0)];
    assert NatToString(100) == NatToString(10) + [DigitChar(0)];
    assert NatToString(10) == NatToString(1) + [DigitChar(0)];
  }

  // ---------------------------------------------------------------------
  // Searching and splicing text.

  /** `s.indexOf(p, from)`: the first occurrence at or after `from`, or -1. */
  function IndexOf(s: string, p: string, from: nat): (r: int)
    ensures r == -1 || (from <= r && OccursAt(s, p, r))
    ensures r == -1 ==> forall k :: from <= k ==> !OccursAt(s, p, k)
    ensures r != -1 ==> forall k :: from <= k < r ==> !OccursAt(s, p, k)
    decreases |s| - from
  {
    if from + |p| > |s| then -1
    else if s[from..from + |p|] == p then from
    else IndexOf(s, p, from + 1)
  }

  /** A one-character pattern occurs exactly where that character is. */
  lemma OccursChar(s: string, c: char)
    ensures forall k :: OccursAt(s, [c], k) <==> 0 <= k < |s| && s[k] == c
  {
    forall k | 0 <= k < |s|
      ensures OccursAt(s, [c], k) <==> s[k] == c
    {
      assert s[k..k + 1] == [s[k]];
    }
  }

  /** `s.slice(0, p) + t + s.slice(p)`. */
  function Insert(s: string, p: nat, t: string): (r: string)
    requires p <= |s|
    ensures |r| == |s| + |t|
    ensures r[..p] == s[..p] && r[p..p + |t|] == t && r[p + |t|..] == s[p..]
  {
    var r := s[..p] + t + s[p..];
    assert r[..p] == s[..p];
    assert r[p..p + |t|] == t;
    assert r[p + |t|..] == s[p..];
    r
  }

  /** Taking the inserted text out again gives back the original, in order. */
  lemma InsertPreserves(s: string, p: nat, t: string)
    requires p <= |s|
    ensures Insert(s, p, t)[..p] + Insert(s, p, t)[p + |t|..] == s
  {
    assert s[..p] + s[p..] == s;
  }

  /** Where `addEntry` puts the row: just past the newline that ends the line
      holding the first separator, or 0 when no newline follows it; -1 when
      there is no separator. */
  function RowPosition(content: string): (p: int)
    ensures p == -1 <==> IndexOf(content, TableMarker, 0) == -1
    ensures p != -1 ==> 0 <= p <= |content|
    ensures p > 0 ==>
      (IndexOf(content, TableMarker, 0) < p && content[p - 1] == '\n'
       && forall k :: IndexOf(content, TableMarker, 0) <= k < p - 1 ==> content[k] != '\n')
    ensures p == 0 ==> forall k :: IndexOf(content, TableMarker, 0) <= k < |content| ==> content[k] != '\n'
  {
    var h := IndexOf(content, TableMarker, 0);
    if h == -1 then -1
    else
      OccursChar(content, '\n');
      IndexOf(content, Newline, h) + 1
  }

  /** The line terminators that `.` does not match. */
  predicate LineTerminator(c: char) {
    c == '\n' || c == '\r' || c == '\U{2028}' || c == '\U{2029}'
  }

  /** The rest of `/## .+ Log Entries[^\n]*\n/` from `j`, where `.+` has already
      matched at least one character. */
  predicate TitleRest(s: string, j: nat)
    decreases |s| - j
  {
    j <= |s| &&
    ((j + 12 <= |s| && s[j..j + 12] == LogEntriesTitle && '\n' in s[j + 12..])
     || (j < |s| && !LineTerminator(s[j]) && TitleRest(s, j + 1)))
  }

  /** `/## .+ Log Entries[^\n]*\n/` matches at `i`. */
  predicate DetailHeadingAt(s: string, i: nat) {
    i + 3 < |s| && s[i..i + 3] == "## " && !LineTerminator(s[i + 3]) && TitleRest(s, i + 4)
  }

  /** The leftmost detail heading at or after `from`. */
  function FindDetailHeading(s: string, from: nat): (r: Option<nat>)
    ensures r.Some? ==> from <= r.value < |s| && DetailHeadingAt(s, r.value)
    ensures r.Some? ==> forall k :: from <= k < r.value ==> !DetailHeadingAt(s, k)
    ensures r.None? ==> forall k :: from <= k ==> !DetailHeadingAt(s, k)
    decreases |s| - from
  {
    if from >= |s| then None
    else if DetailHeadingAt(s, from) then Some(from)
    else FindDetailHeading(s, from + 1)
  }

  /** Where `addEntry` puts the detail block: just past the newline that ends
      the first detail heading's line, or -1 when there is no such heading. */
  function DetailPosition(content: string): (q: int)
    ensures q == -1 <==> FindDetailHeading(content, 0).None?
    ensures q != -1 ==>
      (0 < q <= |content| && content[q - 1] == '\n'
       && FindDetailHeading(content, 0).value < q
       && forall k :: FindDetailHeading(content, 0).value <= k < q - 1 ==> content[k] != '\n')
  {
    match FindDetailHeading(content, 0)
    case None => -1
    case Some(i) =>
      OccursChar(content, '\n');
      HeadingHasNewline(content, i + 4);
      IndexOf(content, Newline, i) + 1
  }

  lemma {:induction false} HeadingHasNewline(s: string, j: nat)
    requires TitleRest(s, j)
    ensures exists k :: j <= k < |s| && s[k] == '\n'
    decreases |s| - j
  {
    if j + 12 <= |s| && s[j..j + 12] == LogEntriesTitle && '\n' in s[j + 12..] {
      var k :| j + 12 <= k < |s| && s[k] == '\n' by {
        var m :| 0 <= m < |s[j + 12..]| && s[j + 12..][m] == '\n';
        assert s[j + 12 + m] == '\n';
      }
    } else {
      HeadingHasNewline(s, j + 1);
    }
  }

  // ---------------------------------------------------------------------
  // The status rewrite.

  /** A match of `/\| NNN \| [^|]+ \| [^|]+ \| [^|]+ \| [^|]+ \| )[^|]+(\| [^\n]+)/`:
      where the replaced status cell starts and ends, and where the match ends. */
  datatype RowMatch = RowMatch(statusStart: nat, statusEnd: nat, end: nat)

  /** One ` [^|]+ \| ` cell starting at `a`: its text runs up to the space
      before the next `|`, which must be followed by a space. */
  function CellEnd(s: string, a: nat): (r: Option<nat>)
    ensures r.Some? ==> a < r.value <= |s|
  {
    var b := IndexOf(s, "|", a);
    if b >= a + 2 && s[b - 1] == ' ' && b + 1 < |s| && s[b + 1] == ' ' then Some(b + 2) else None
  }

  /** The four cells between the number and the status. */
  function CellsEnd(s: string, a: nat, cells: nat): (r: Option<nat>)
    ensures r.Some? ==> a <= r.value <= |s|
    decreases cells
  {
    if cells == 0 then (if a <= |s| then Some(a) else None)
    else match CellEnd(s, a)
      case None => None
      case Some(b) => CellsEnd(s, b, cells - 1)
  }

  function RowMatchAt(s: string, i: nat, padded: string): (r: Option<RowMatch>)
    ensures r.Some? ==> i < r.value.statusStart <= r.value.statusEnd <= r.value.end <= |s|
  {
    var head := "| " + padded + " | ";
    if i + |head| <= |s| && s[i..i + |head|] == head then CellsMatch(s, i + |head|) else None
  }

  /** The pattern after the number's cell, from `a`: four cells, then the
      status part. */
  function CellsMatch(s: string, a: nat): (r: Option<RowMatch>)
    ensures r.Some? ==> a <= r.value.statusStart <= r.value.statusEnd <= r.value.end <= |s|
  {
    match CellsEnd(s, a, 4)
    case None => None
    case Some(b) => StatusMatch(s, b)
  }

  /** The rest of the pattern from the status cell at `a`: `[^|]+`, then
      `\| ` and at least one character other than a newline, up to the end of
      the line. */
  function StatusMatch(s: string, a: nat): (r: Option<RowMatch>)
    ensures r.Some? ==> a == r.value.statusStart < r.value.statusEnd <= r.value.end <= |s|
  {
    var b := IndexOf(s, "|", a);
    if b > a && b + 2 < |s| && s[b + 1] == ' ' && s[b + 2] != '\n' then
      var e := IndexOf(s, Newline, b + 2);
      Some(RowMatch(a, b, if e == -1 then |s| else e))
    else None
  }

  /** `s.slice(i).replace(tableRowRegex, '$1' + status + '$2')` with the `g` flag. */
  function ReplaceRows(s: string, padded: string, status: string, i: nat): string
    decreases |s| - i
  {
    if i >= |s| then ""
    else match RowMatchAt(s, i, padded)
      case Some(m) => s[i..m.statusStart] + status + s[m.statusEnd..m.end] + ReplaceRows(s, padded, status, m.end)
      case None => [s[i]] + ReplaceRows(s, padded, status, i + 1)
  }

  /** Without a row for the number, the table rewrite gives the text back. */
  lemma {:induction false} NoRowNoChange(s: string, padded: string, status: string, i: nat)
    requires i <= |s|
    requires forall k :: i <= k < |s| ==> RowMatchAt(s, k, padded).None?
    ensures ReplaceRows(s, padded, status, i) == s[i..]
    decreases |s| - i
  {
    if i < |s| {
      NoRowNoChange(s, padded, status, i + 1);
      assert s[i..] == [s[i]] + s[i + 1..];
    }
  }

  /** The `(### Prompt #NNN[^]*?- \*\*Approval Status:\*\* )[^\n]+` match at
      `i`: where the replaced text starts and where the match ends. The lazy
      `[^]*?` stops at the first label that is followed by a non-newline. */
  function DetailMatchAt(s: string, i: nat, padded: string): (r: Option<(nat, nat)>)
    ensures r.Some? ==> i < r.value.0 < r.value.1 <= |s|
  {
    var head := HeadingPrefix + padded;
    if i + |head| <= |s| && s[i..i + |head|] == head then
      match ApprovalFrom(s, i + |head|)
      case None => None
      case Some(k) =>
        var e := IndexOf(s, Newline, k);
        Some((k, if e == -1 then |s| else e))
    else None
  }

  /** The first label at or after `j` followed by a character other than a
      newline; the position just after the label. */
  function ApprovalFrom(s: string, j: nat): (r: Option<nat>)
    ensures r.Some? ==> j < r.value < |s| && s[r.value] != '\n'
    decreases |s| - j
  {
    var k := IndexOf(s, ApprovalLabel, j);
    if k == -1 then None
    else if k + 23 < |s| && s[k + 23] != '\n' then Some(k + 23)
    else ApprovalFrom(s, k + 1)
  }

  /** `s.slice(i).replace(detailRegex, '$1' + status)` with the `g` flag. */
  function ReplaceDetails(s: string, padded: string, status: string, i: nat): string
    decreases |s| - i
  {
    if i >= |s| then ""
    else match DetailMatchAt(s, i, padded)
      case Some(m) => s[i..m.0] + status + ReplaceDetails(s, padded, status, m.1)
      case None => [s[i]] + ReplaceDetails(s, padded, status, i + 1)
  }

  /** Without a detail block for the number, the detail rewrite gives the text back. */
  lemma {:induction false} NoDetailNoChange(s: string, padded: string, status: string, i: nat)
    requires i <= |s|
    requires forall k :: i <= k < |s| ==> DetailMatchAt(s, k, padded).None?
    ensures ReplaceDetails(s, padded, status, i) == s[i..]
    decreases |s| - i
  {
    if i < |s| {
      NoDetailNoChange(s, padded, status, i + 1);
      assert s[i..] == [s[i]] + s[i + 1..];
    }
  }

  // ---------------------------------------------------------------------
  // The generated text.

  /** `description.trim() === ''`: only JavaScript white space. */
  predicate Blank(s: string) {
    forall i :: 0 <= i < |s| ==> IsWhiteSpace(s[i])
  }

  predicate IsWhiteSpace(c: char) {
    c == '\t' || c == '\U{000B}' || c == '\U{000C}' || c == ' ' || c == '\U{00A0}' || c == '\U{FEFF}'
    || c == '\U{1680}' || ('\U{2000}' <= c <= '\U{200A}') || c == '\U{202F}' || c == '\U{205F}' || c == '\U{3000}'
    || LineTerminator(c)
  }

  /** The separator between two table cells. */
  const Sep := " | "

  /** Cells, each followed by the separator, then `r`: a Markdown table row
      after its opening "| ". */
  function Join(cells: seq<string>, r: string): string {
    if cells == [] then r else cells[0] + (Sep + Join(cells[1..], r))
  }

  /** The row of line 68: number, date, source 'Grok', description, status
      'Pending', approval '?? Pending' and three '-' cells. */
  function TableRow(number: string, date: string, description: string): string {
    "| " + Join([number, date, "Grok", description, "Pending", "?? Pending"], "- | - | - |")
  }

  lemma {:induction false} JoinAppend(cells: seq<string>, r: string, z: string)
    ensures Join(cells, r) + z == Join(cells, r + z)
    decreases cells
  {
    if cells != [] {
      JoinAppend(cells[1..], r, z);
    }
  }

  lemma {:induction false} JoinSplit(xs: seq<string>, ys: seq<string>, r: string)
    ensures Join(xs + ys, r) == Join(xs, Join(ys, r))
    decreases xs
  {
    if xs == [] {
      assert xs + ys == ys;
    } else {
      assert (xs + ys)[0] == xs[0] && (xs + ys)[1..] == xs[1..] + ys;
      JoinSplit(xs[1..], ys, r);
    }
  }

  /** `IndexOf` finds the first occurrence of a one-character pattern. */
  lemma FirstChar(s: string, c: char, a: nat, k: nat)
    requires a <= k < |s| && s[k] == c && forall j :: a <= j < k ==> s[j] != c
    ensures IndexOf(s, [c], a) == k
  {
    OccursChar(s, c);
  }

  /** A suffix of `s` that is `u + v` is followed, after `u`, by `v`. */
  lemma SuffixSplit(s: string, a: nat, u: string, v: string)
    requires a <= |s| && s[a..] == u + v
    ensures a + |u| <= |s| && s[a + |u|..] == v
    ensures forall j :: 0 <= j < |u| ==> s[a + j] == u[j]
  {
    forall j | 0 <= j < |u| ensures s[a + j] == u[j] {
      assert s[a + j] == s[a..][j];
    }
  }

  /** Text without '|' followed by the separator: the first bar from `a` is
      the separator's, at `b`. */
  lemma BarAt(s: string, a: nat, c: string, r: string, b: nat)
    requires a <= |s| && s[a..] == c + (Sep + r) && '|' !in c && b == a + |c| + 1
    ensures b + 2 <= |s| && s[b - 1] == ' ' && s[b] == '|' && s[b + 1] == ' '
    ensures IndexOf(s, "|", a) == b && s[b + 2..] == r
  {
    SuffixSplit(s, a, c, Sep + r);
    SuffixSplit(s, a + |c|, Sep, r);
    assert s[b - 1] == Sep[0] && s[b] == Sep[1] && s[b + 1] == Sep[2];
    forall j | a <= j < b ensures s[j] != '|' {
      if j < b - 1 {
        assert s[a + (j - a)] == c[j - a];
      }
    }
    FirstChar(s, '|', a, b);
  }

  /** A line without newline, then the newline that ends `s`. */
  lemma LineRest(s: string, k: nat, y: string)
    requires k <= |s| && s[k..] == y + Newline && '\n' !in y
    ensures k + |y| + 1 == |s| && IndexOf(s, Newline, k) == |s| - 1 && s[k..|s| - 1] == y
    ensures y != [] ==> s[k] == y[0]
  {
    LineChars(s, k, y);
    FirstChar(s, '\n', k, |s| - 1);
    assert Newline == ['\n'];
    LineText(s, k, y);
  }

  lemma LineChars(s: string, k: nat, y: string)
    requires k <= |s| && s[k..] == y + Newline && '\n' !in y
    ensures k + |y| + 1 == |s| && s[|s| - 1] == '\n'
    ensures forall j :: k <= j < |s| - 1 ==> s[j] != '\n'
    ensures y != [] ==> s[k] == y[0]
  {
    SuffixSplit(s, k, y, Newline);
    assert s[|s| - 1] == Newline[0];
    forall j | k <= j < |s| - 1 ensures s[j] != '\n' {
      var i := j - k;
      assert s[k + i] == y[i] && y[i] in y;
    }
  }

  lemma LineText(s: string, k: nat, y: string)
    requires k <= |s| && s[k..] == y + Newline
    ensures k + |y| + 1 == |s| && s[k..|s| - 1] == y
  {
    assert s[k..|s| - 1] == s[k..][..|y|];
  }

  /** A non-empty cell without '|', followed by the separator, ends where the
      separator does. */
  lemma CellAt(s: string, a: nat, cell: string, r: string)
    requires a <= |s| && s[a..] == cell + (Sep + r) && cell != [] && '|' !in cell
    ensures a + |cell| + 3 <= |s| && CellEnd(s, a) == Some(a + |cell| + 3) && s[a + |cell| + 3..] == r
  {
    var b := a + |cell| + 1;
    BarAt(s, a, cell, r, b);
    assert CellEnd(s, a) == Some(b + 2);
  }

  /** Every cell is non-empty and holds no '|', as `[^|]+` demands. */
  predicate PlainCells(cells: seq<string>) {
    cells == [] || (cells[0] != [] && '|' !in cells[0] && PlainCells(cells[1..]))
  }

  /** Cells without '|' are consumed up to the end of the last separator. */
  lemma {:induction false} CellsAt(s: string, a: nat, cells: seq<string>, r: string)
    requires PlainCells(cells)
    requires a <= |s| && s[a..] == Join(cells, r)
    ensures |r| <= |s| && CellsEnd(s, a, |cells|) == Some(|s| - |r|) && s[|s| - |r|..] == r
    decreases cells
  {
    if cells == [] {
      assert s[a..] == r;
    } else {
      var tl := cells[1..];
      var rest := Join(tl, r);
      assert s[a..] == cells[0] + (Sep + rest);
      CellAt(s, a, cells[0], rest);
      var b := a + |cells[0]| + 3;
      CellsAt(s, b, tl, r);
      CellsStep(s, a, b, |tl|);
      assert |tl| + 1 == |cells|;
    }
  }

  /** `CellsEnd` moves on one cell at a time. */
  lemma CellsStep(s: string, a: nat, b: nat, n: nat)
    requires CellEnd(s, a) == Some(b)
    ensures CellsEnd(s, a, n + 1) == CellsEnd(s, b, n)
  {
  }

  /** The status cell `c` runs up to the bar after it, at `b`, and the rest
      of the row, `| y`, up to the closing newline. */
  lemma StatusAt(s: string, a: nat, c: string, y: string, b: nat)
    requires a <= |s| && s[a..] == c + (Sep + (y + Newline)) && b == a + |c| + 1
    requires '|' !in c && y != [] && y[0] != '\n' && '\n' !in y
    ensures b < |s| && StatusMatch(s, a) == Some(RowMatch(a, b, |s| - 1))
    ensures s[b..|s| - 1] == "| " + y
  {
    BarAt(s, a, c, y + Newline, b);
    LineRest(s, b + 2, y);
    BarCell(s, b, |s| - 1, y);
    StatusIntro(s, a, b);
  }

  /** A bar and a space, then `y`. */
  lemma BarCell(s: string, b: nat, e: nat, y: string)
    requires b + 2 <= e <= |s| && s[b] == '|' && s[b + 1] == ' ' && s[b + 2..e] == y
    ensures s[b..e] == "| " + y
  {
    assert s[b..e] == [s[b], s[b + 1]] + s[b + 2..e];
  }

  /** The status part matches at `a` when its pieces are where they belong. */
  lemma StatusIntro(s: string, a: nat, b: nat)
    requires IndexOf(s, "|", a) == b && a < b && b + 2 < |s| && s[b + 1] == ' ' && s[b + 2] != '\n'
    requires IndexOf(s, Newline, b + 2) == |s| - 1
    ensures StatusMatch(s, a) == Some(RowMatch(a, b, |s| - 1))
  {
  }

  lemma CellsMatchIntro(s: string, a: nat, b: nat, m: RowMatch)
    requires CellsEnd(s, a, 4) == Some(b) && StatusMatch(s, b) == Some(m)
    ensures CellsMatch(s, a) == Some(m)
  {
  }

  /** The table pattern matches at `i` when its pieces are where they belong. */
  lemma RowMatchIntro(s: string, i: nat, padded: string, m: RowMatch)
    requires i + |"| " + padded + " | "| <= |s| && s[i..i + |"| " + padded + " | "|] == "| " + padded + " | "
    requires CellsMatch(s, i + |"| " + padded + " | "|) == Some(m)
    ensures RowMatchAt(s, i, padded) == Some(m)
  {
  }

  /** A match is replaced and the scan goes on after it. */
  lemma ReplaceAt(s: string, padded: string, status: string, i: nat, a: nat, b: nat, e: nat)
    requires i < |s| && RowMatchAt(s, i, padded) == Some(RowMatch(a, b, e))
    ensures i <= a <= b <= e <= |s|
    ensures ReplaceRows(s, padded, status, i) == s[i..a] + status + s[b..e] + ReplaceRows(s, padded, status, e)
  {
  }

  /** The closing newline is kept as it is. */
  lemma ReplaceLast(s: string, padded: string, status: string)
    requires |s| > 0 && s[|s| - 1] == '\n'
    ensures ReplaceRows(s, padded, status, |s| - 1) == Newline
  {
    assert RowMatchAt(s, |s| - 1, padded) == None;
  }

  /** A row split three ways: the number's cell, the cells after it, and the
      status cell with the rest of the line. */
  lemma RowLayout(s: string, number: string, cells: seq<string>, c: string, y: string)
    requires s == "| " + Join([number] + cells + [c], y) + Newline
    ensures |"| " + number + " | "| <= |s| && s[0..|"| " + number + " | "|] == "| " + number + " | "
    ensures s[|"| " + number + " | "|..] == Join(cells, c + (Sep + (y + Newline)))
    ensures s == ("| " + Join([number] + cells, "")) + (c + (Sep + (y + Newline)))
  {
    var five := [number] + cells;
    var tail := c + (Sep + (y + Newline));
    var head := "| " + number + " | ";
    JoinLast(five, c, y);
    Assoc("| ", Join(five + [c], y), Newline);
    JoinHead(number, cells, tail);
    PrefixSplit(s, head, Join(cells, tail));
    JoinAppend(five, "", tail);
    assert "" + tail == tail;
    Assoc("| ", Join(five, ""), tail);
  }

  lemma Assoc(x: string, y: string, z: string)
    ensures (x + y) + z == x + (y + z)
  {
  }

  lemma PrefixSplit(s: string, u: string, v: string)
    requires s == u + v
    ensures |u| <= |s| && s[0..|u|] == u && s[|u|..] == v
  {
  }

  lemma JoinLast(cells: seq<string>, c: string, y: string)
    ensures Join(cells + [c], y) + Newline == Join(cells, c + (Sep + (y + Newline)))
  {
    JoinAppend(cells + [c], y, Newline);
    JoinSplit(cells, [c], y + Newline);
    assert [c][1..] == [];
  }

  lemma JoinHead(number: string, cells: seq<string>, t: string)
    ensures "| " + Join([number] + cells, t) == ("| " + number + " | ") + Join(cells, t)
  {
    assert ([number] + cells)[0] == number && ([number] + cells)[1..] == cells;
  }

  lemma Regroup(cells: seq<string>, status: string, y: string)
    ensures ("| " + Join(cells, "")) + status + ("| " + y) + Newline == "| " + Join(cells, status + ("| " + y)) + Newline
  {
    var j := Join(cells, "");
    var x := status + ("| " + y);
    JoinAppend(cells, "", x);
    assert "" + x == x;
    assert ("| " + j) + status + ("| " + y) == "| " + (j + x);
  }

  /** Where the table pattern matches a row with four cells between the
      number and the status cell `c`. */
  lemma RowMatchFound(s: string, number: string, cells: seq<string>, c: string, y: string)
      returns (a: nat, b: nat)
    requires s == "| " + Join([number] + cells + [c], y) + Newline
    requires |cells| == 4 && PlainCells(cells)
    requires '|' !in c && y != [] && y[0] != '\n' && '\n' !in y
    ensures 0 < |s| && s[|s| - 1] == '\n' && a <= b <= |s| - 1
    ensures RowMatchAt(s, 0, number) == Some(RowMatch(a, b, |s| - 1))
    ensures s[0..a] == "| " + Join([number] + cells, "") && s[b..|s| - 1] == "| " + y
  {
    var tail := c + (Sep + (y + Newline));
    var head := "| " + number + " | ";
    RowLayout(s, number, cells, c, y);
    CellsAt(s, |head|, cells, tail);
    a := |s| - |tail|;
    b := a + |c| + 1;
    StatusAt(s, a, c, y, b);
    CellsMatchIntro(s, |head|, a, RowMatch(a, b, |s| - 1));
    RowMatchIntro(s, 0, number, RowMatch(a, b, |s| - 1));
  }

  /** The status rewrite of a row with four cells between the number and the
      status cell `c` replaces `c` and the space after it, and keeps the rest. */
  lemma RowRewrite(number: string, cells: seq<string>, c: string, y: string, status: string)
    requires |cells| == 4 && PlainCells(cells)
    requires '|' !in c && y != [] && y[0] != '\n' && '\n' !in y
    ensures ReplaceRows("| " + Join([number] + cells + [c], y) + Newline, number, status, 0)
      == "| " + Join([number] + cells, status + ("| " + y)) + Newline
  {
    var s := "| " + Join([number] + cells + [c], y) + Newline;
    var a, b := RowMatchFound(s, number, cells, c, y);
    ReplaceAt(s, number, status, 0, a, b, |s| - 1);
    ReplaceLast(s, number, status);
    assert ReplaceRows(s, number, status, 0) == ("| " + Join([number] + cells, "")) + status + ("| " + y) + Newline;
    Regroup([number] + cells, status, y);
  }

  /** Updating the status of a row written by `addEntry` rewrites its
      approval cell '?? Pending ' and keeps everything else; the space before
      the next bar is consumed by the match, so it is lost. */
  lemma NewRowStatusRewrite(number: string, date: string, description: string, status: string)
    requires date != [] && '|' !in date && description != [] && '|' !in description
    ensures ReplaceRows(TableRow(number, date, description) + Newline, number, status, 0)
      == "| " + Join([number, date, "Grok", description, "Pending"], status + "| - | - | - |") + Newline
  {
    var cells := [date, "Grok", description, "Pending"];
    var approval := "?? Pending";
    var rest := "- | - | - |";
    assert [number] + cells + [approval] == [number, date, "Grok", description, "Pending", approval];
    assert TableRow(number, date, description) == "| " + Join([number] + cells + [approval], rest);
    assert [number] + cells == [number, date, "Grok", description, "Pending"];
    assert '|' !in "Grok" && '|' !in "Pending" && '|' !in approval;
    assert cells[1..][1..][1..][1..] == [];
    assert PlainCells(cells[1..][1..][1..]);
    assert PlainCells(cells[1..][1..]);
    assert rest[0] == '-' && '\n' !in rest;
    assert "| " + rest == "| - | - | - |";
    RowRewrite(number, cells, approval, rest, status);
  }

  /** The template literal of lines 71-85; it opens with the prompt's heading. */
  function DetailEntry(number: string, description: string, date: string): string {
    "\n" + HeadingPrefix + number + DetailBody(number, description, date)
  }

  function DetailBody(number: string, description: string, date: string): string {
    " - " + description
    + "\n- **Date:** " + date
    + "\n- **Source:** [Grok/Chris/Claude - To be specified]"
    + "\n- **Description:** " + description
    + "\n- **Claude Recommendation:** \n  - [To be filled during review]"
    + "\n- **Approval Status:** ?? Pending"
    + "\n- **Execution:**\n  - [To be filled after execution]"
    + "\n- **Test Results:** [To be filled after testing]"
    + "\n- **Related Commit:** [To be filled after push]\n\n---\n"
  }

  /** The detail block opens with the prompt's own heading, so the entry it
      creates is seen by the next numbering. */
  lemma DetailEntryHeading(number: string, description: string, date: string)
    ensures DetailEntry(number, description, date)[1..13 + |number|] == HeadingPrefix + number
  {
    var d := DetailEntry(number, description, date);
    assert d == "\n" + (HeadingPrefix + number) + DetailBody(number, description, date);
  }

  /** The text `addEntry` writes: `row` inserted at the row position, then
      `block` at the detail position of the text with the row in it; or the
      message it exits with. */
  function EntryText(text: string, row: string, block: string): (r: Outcome<string>)
    ensures IndexOf(text, TableMarker, 0) == -1 ==> r == Err(TableHeaderMissing)
  {
    var p := RowPosition(text);
    if p == -1 then Err(TableHeaderMissing)
    else
      var withRow := Insert(text, p, row);
      var q := DetailPosition(withRow);
      if q == -1 then Err(DetailSectionMissing)
      else Ok(Insert(withRow, q, block))
  }

  /** A new prompt's number and the log text with its entry. */
  datatype Entry = Entry(number: string, text: string)

  /** What `addEntry` makes of the log text: the new prompt's number and
      the text it writes, or the message it exits with. */
  function AddedEntry(text: string, description: string, date: string): Outcome<Entry> {
    var number := NextPromptNumber(text);
    match EntryText(text, TableRow(number, date, description) + Newline, Newline + DetailEntry(number, description, date))
    case Err(e) => Err(e)
    case Ok(out) => Ok(Entry(number, out))
  }

  /** `s` without the `n` characters at `p`. */
  function Remove(s: string, p: nat, n: nat): (r: string)
    requires p + n <= |s|
    ensures |r| == |s| - n
  {
    s[..p] + s[p + n..]
  }

  /** When `addEntry` succeeds the row sits just past the separator's line,
      the block just past the detail heading's line, and taking both out
      again gives back the log unchanged. */
  lemma EntryPlacement(text: string, row: string, block: string, out: string)
    requires EntryText(text, row, block) == Ok(out)
    ensures IndexOf(text, TableMarker, 0) != -1
    ensures
      var p := RowPosition(text);
      var q := DetailPosition(Insert(text, p, row));
      && 0 <= p && Insert(text, p, row)[p..p + |row|] == row
      && 0 < q && out[q..q + |block|] == block
      && Remove(Remove(out, q, |block|), p, |row|) == text
  {
    var p := RowPosition(text);
    var withRow := Insert(text, p, row);
    var q := DetailPosition(withRow);
    InsertPreserves(withRow, q, block);
    InsertPreserves(text, p, row);
  }

  /** Lines 88-108 of `addEntry`: the two insertions into the log text. */
  method InsertEntry(content: string, row: string, block: string) returns (r: Outcome<string>)
    ensures r == EntryText(content, row, block)
  {
    var text := content;
    var tableHeaderEnd := IndexOf(text, TableMarker, 0);
    if tableHeaderEnd == -1 {
      return Err(TableHeaderMissing);
    }
    var tableInsertPos := IndexOf(text, Newline, tableHeaderEnd) + 1;
    assert tableInsertPos == RowPosition(content);
    text := Insert(text, tableInsertPos, row);
    var detailSection := FindDetailHeading(text, 0);
    if detailSection.None? {
      return Err(DetailSectionMissing);
    }
    var detailInsertPos := IndexOf(text, Newline, detailSection.value) + 1;
    assert detailInsertPos == DetailPosition(text);
    text := Insert(text, detailInsertPos, block);
    r := Ok(text);
  }

  // ---------------------------------------------------------------------
  // The log file and the two commands.

  /** PROMPTS_LOG.md: its text, or `None` when the file does not exist. */
  class LogFile {
    var content: Option<string>

    constructor (content: Option<string>)
      ensures this.content == content
    {
      this.content := content;
    }

    /** `readLog()`. */
    method Read() returns (r: Outcome<string>)
      ensures content.None? ==> r == Err(LogNotFound)
      ensures content.Some? ==> r == Ok(content.value)
    {
      if content.None? {
        return Err(LogNotFound);
      }
      r := Ok(content.value);
    }

    /** `writeLog(text)`. */
    method Write(text: string)
      modifies this
      ensures content == Some(text)
    {
      content := Some(text);
    }

    /** `addEntry(description)` on the date `date`; the number of the new
        prompt on success. The log is read once: the source reads it twice,
        with nothing written in between. */
    method AddEntry(description: Option<string>, date: string) returns (r: Outcome<string>)
      modifies this
      ensures !Truthy(description) || Blank(description.value) ==>
        r == Err(DescriptionRequired) && content == old(content)
      ensures Truthy(description) && !Blank(description.value) && old(content).None? ==>
        r == Err(LogNotFound) && content == old(content)
      ensures Truthy(description) && !Blank(description.value) && old(content).Some? ==>
        match AddedEntry(old(content).value, description.value, date)
        case Err(e) => r == Err(e) && content == old(content)
        case Ok(entry) => r == Ok(entry.number) && content == Some(entry.text)
    {
      if !Truthy(description) || Blank(description.value) {
        return Err(DescriptionRequired);
      }
      var log := Read();
      if log.Err? {
        return Err(log.error);
      }
      var number := NextPromptNumber(log.value);
      var tableRow := TableRow(number, date, description.value);
      var detailEntry := DetailEntry(number, description.value, date);
      var entry := InsertEntry(log.value, tableRow + Newline, Newline + detailEntry);
      if entry.Err? {
        return Err(entry.error);
      }
      var text := entry.value;
      Write(text);
      r := Ok(number);
    }

    /** `updateStatus(promptNumber, newStatus)`. */
    method UpdateStatus(promptNumber: Option<string>, newStatus: Option<string>) returns (r: Outcome<()>)
      modifies this
      ensures !Truthy(promptNumber) || !Truthy(newStatus) ==>
        r == Err(ArgumentsRequired) && content == old(content)
      ensures Truthy(promptNumber) && Truthy(newStatus) && old(content).None? ==>
        r == Err(LogNotFound) && content == old(content)
      ensures Truthy(promptNumber) && Truthy(newStatus) && old(content).Some? ==>
        match StatusUpdate(old(content).value, PadStart(promptNumber.value, 3, '0'), newStatus.value)
        case Err(e) => r == Err(e) && content == old(content)
        case Ok(text) => r == Ok(()) && content == Some(text)
    {
      if !Truthy(promptNumber) || !Truthy(newStatus) {
        return Err(ArgumentsRequired);
      }
      var paddedNumber := PadStart(promptNumber.value, 3, '0');
      var log := Read();
      if log.Err? {
        return Err(log.error);
      }
      var text := log.value;
      var tableUpdated := ReplaceRows(text, paddedNumber, newStatus.value, 0);
      if tableUpdated == text {
        return Err(RowNotFound(paddedNumber));
      }
      text := tableUpdated;
      text := ReplaceDetails(text, paddedNumber, newStatus.value, 0);
      Write(text);
      r := Ok(());
    }
  }

  /** The text `updateStatus` writes, once the arguments are checked and the
      log is read: the table rewrite then the detail rewrite, or the
      'not found in table' error when the table rewrite changes nothing. */
  function StatusUpdate(text: string, padded: string, status: string): Outcome<string> {
    var table := ReplaceRows(text, padded, status, 0);
    if table == text then Err(RowNotFound(padded)) else Ok(ReplaceDetails(table, padded, status, 0))
  }

  /** A status update for a number no row carries is reported as
      'Prompt #NNN not found in table!', and nothing is written. */
  lemma MissingRowIsReported(text: string, padded: string, status: string)
    requires forall k :: 0 <= k < |text| ==> RowMatchAt(text, k, padded).None?
    ensures StatusUpdate(text, padded, status) == Err(RowNotFound(padded))
  {
    NoRowNoChange(text, padded, status, 0);
  }
}
