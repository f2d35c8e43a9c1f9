/** The browser built-ins `btoa` and `atob`. Both work on "binary strings",
    strings whose characters stand for bytes (code points 0 to 255). `btoa`
    produces the base64 encoding of section 4 of RFC 4648 (alphabet of table 1,
    '=' padding); `atob` is the forgiving-base64 decoder of the HTML standard. */
module Base64 {
  import opened Common

  /** The message of the DOMException both built-ins throw. */
  const InvalidCharacter := "InvalidCharacterError: The string contains invalid characters."

  /** A 6-bit value. */
  type Sextet = v: int | 0 <= v < 64

  /** Table 1 of RFC 4648: the character that stands for a 6-bit value. */
  function Digit(v: Sextet): char {
    if v < 26 then (65 + v) as char
    else if v < 52 then (97 + (v - 26)) as char
    else if v < 62 then (48 + (v - 52)) as char
    else if v == 62 then '+'
    else '/'
  }

  /** The value a character stands for, or None outside the alphabet. */
  function DigitValue(c: char): (r: Option<Sextet>)
    ensures r.Some? ==> Digit(r.value) == c
  {
    if 'A' <= c <= 'Z' then Some(c as int - 65)
    else if 'a' <= c <= 'z' then Some(c as int - 97 + 26)
    else if '0' <= c <= '9' then Some(c as int - 48 + 52)
    else if c == '+' then Some(62)
    else if c == '/' then Some(63)
    else None
  }

  lemma DigitRoundTrip(v: Sextet)
    ensures DigitValue(Digit(v)) == Some(v)
  {
  }

  predicate IsDigit(c: char) {
    DigitValue(c).Some?
  }

  predicate AllDigits(s: string) {
    forall i :: 0 <= i < |s| ==> IsDigit(s[i])
  }

  /** The characters of a sequence of 6-bit values. */
  function DigitsOf(v: seq<Sextet>): string {
    seq(|v|, i requires 0 <= i < |v| => Digit(v[i]))
  }

  /** The values of a string of alphabet characters. */
  function ValuesOf(u: string): seq<Sextet>
    requires AllDigits(u)
  {
    seq(|u|, i requires 0 <= i < |u| => DigitValue(u[i]).value)
  }

  lemma ValuesOfDigits(v: seq<Sextet>)
    ensures AllDigits(DigitsOf(v)) && ValuesOf(DigitsOf(v)) == v
  {
    var u := DigitsOf(v);
    forall i | 0 <= i < |v|
      ensures DigitValue(u[i]) == Some(v[i])
    {
      DigitRoundTrip(v[i]);
    }
  }

  /** A binary string: every character is the code of one byte. */
  predicate IsBinary(s: string) {
    forall i :: 0 <= i < |s| ==> s[i] as int < 256
  }

  /** `String.fromCharCode(...bytes)`: the binary string of a byte sequence. */
  function Chars(b: seq<byte>): (s: string)
    ensures |s| == |b| && forall i :: 0 <= i < |b| ==> s[i] as int == b[i]
  {
    seq(|b|, i requires 0 <= i < |b| => b[i] as char)
  }

  /** `s.charCodeAt(i)` for every index of a binary string. */
  function Codes(s: string): (b: seq<byte>)
    requires IsBinary(s)
    ensures |b| == |s| && forall i :: 0 <= i < |s| ==> b[i] == s[i] as int
  {
    seq(|s|, i requires 0 <= i < |s| => s[i] as int)
  }

  lemma CodesOfChars(b: seq<byte>)
    ensures IsBinary(Chars(b)) && Codes(Chars(b)) == b
  {
  }

  lemma CharsOfCodes(s: string)
    requires IsBinary(s)
    ensures Chars(Codes(s)) == s
  {
  }

  /** The 6-bit values of the encoding: 4 per full group of 3 bytes, and 2
      or 3 for a final group of 1 or 2 bytes, whose missing bits are zero
      (section 4 of RFC 4648). */
  function Sextets(b: seq<byte>): seq<Sextet>
    decreases |b|
  {
    if |b| == 0 then []
    else if |b| == 1 then [b[0] / 4, b[0] % 4 * 16]
    else if |b| == 2 then [b[0] / 4, b[0] % 4 * 16 + b[1] / 16, b[1] % 16 * 4]
    else [b[0] / 4, b[0] % 4 * 16 + b[1] / 16, b[1] % 16 * 4 + b[2] / 64, b[2] % 64] + Sextets(b[3..])
  }

  /** The encoded quanta without padding. */
  function Unpadded(b: seq<byte>): string {
    DigitsOf(Sextets(b))
  }

  /** The '=' characters that complete the final quantum. */
  function Padding(n: nat): string {
    if n % 3 == 1 then "==" else if n % 3 == 2 then "=" else ""
  }

  /** The base64 encoding of a byte sequence. */
  function Encode(b: seq<byte>): string {
    Unpadded(b) + Padding(|b|)
  }

  /** An encoding has 4 characters per started group of 3 bytes, each a
      digit of the alphabet or '='. */
  lemma EncodeShape(b: seq<byte>)
    ensures |Encode(b)| == (|b| + 2) / 3 * 4
    ensures forall i :: 0 <= i < |Encode(b)| ==> IsDigit(Encode(b)[i]) || Encode(b)[i] == '='
  {
    UnpaddedShape(b);
  }

  lemma {:induction false} SextetsLength(b: seq<byte>)
    ensures |Sextets(b)| == |b| / 3 * 4 + (if |b| % 3 == 0 then 0 else |b| % 3 + 1)
    ensures |Sextets(b)| % 4 == (if |b| % 3 == 0 then 0 else |b| % 3 + 1)
    decreases |b|
  {
    var n := |b|;
    if n >= 3 {
      SextetsLength(b[3..]);
      assert (n - 3) / 3 == n / 3 - 1 && (n - 3) % 3 == n % 3;
    }
    Mod4(n / 3, if n % 3 == 0 then 0 else n % 3 + 1);
  }

  lemma Mod4(q: nat, k: nat)
    requires k < 4
    ensures (q * 4 + k) % 4 == k
  {
  }

  /** The unpadded text is 4 characters per full group and 2 or 3 for the
      rest, all of them in the alphabet. */
  lemma UnpaddedShape(b: seq<byte>)
    ensures |Unpadded(b)| == |b| / 3 * 4 + (if |b| % 3 == 0 then 0 else |b| % 3 + 1)
    ensures |Unpadded(b)| % 4 == (if |b| % 3 == 0 then 0 else |b| % 3 + 1)
    ensures |Unpadded(b)| == 0 <==> |b| == 0
    ensures AllDigits(Unpadded(b)) && ValuesOf(Unpadded(b)) == Sextets(b)
  {
    SextetsLength(b);
    ValuesOfDigits(Sextets(b));
  }

  /** ASCII whitespace as the HTML standard defines it: TAB, LF, FF, CR, SPACE. */
  predicate IsAsciiWhitespace(c: char) {
    c == '\t' || c == '\n' || c as int == 12 || c == '\r' || c == ' '
  }

  function StripWhitespace(s: string): (t: string)
    ensures |t| <= |s|
    ensures forall i :: 0 <= i < |t| ==> !IsAsciiWhitespace(t[i])
  {
    if s == [] then []
    else (if IsAsciiWhitespace(s[0]) then [] else [s[0]]) + StripWhitespace(s[1..])
  }

  /** When the length is a multiple of 4, one or two trailing '=' are removed. */
  function DropPadding(t: string): string {
    if |t| % 4 == 0 && EndsWith(t, "==") then t[..|t| - 2]
    else if |t| % 4 == 0 && EndsWith(t, "=") then t[..|t| - 1]
    else t
  }

  /** Reassemble bytes from 6-bit values, 4 values to 3 bytes; a final group
      of 2 or 3 values yields 1 or 2 bytes and its leftover bits are discarded. */
  function DecodeValues(v: seq<Sextet>): seq<byte>
    requires |v| % 4 != 1
    decreases |v|
  {
    if |v| < 2 then []
    else
      var v0, v1 := v[0] as int, v[1] as int;
      if |v| == 2 then [v0 * 4 + v1 / 16]
      else
        var v2 := v[2] as int;
        if |v| == 3 then [v0 * 4 + v1 / 16, v1 % 16 * 16 + v2 / 4]
        else [v0 * 4 + v1 / 16, v1 % 16 * 16 + v2 / 4, v2 % 4 * 64 + v[3] as int] + DecodeValues(v[4..])
  }

  function DecodeDigits(u: string): seq<byte>
    requires AllDigits(u) && |u| % 4 != 1
  {
    DecodeValues(ValuesOf(u))
  }

  /** `btoa(s)`: fails on a character above U+00FF, else encodes the codes. */
  function Btoa(s: string): (r: Outcome<string>)
    ensures r.Ok? <==> IsBinary(s)
    ensures r.Err? ==> r.error == InvalidCharacter
  {
    if IsBinary(s) then Ok(Encode(Codes(s))) else Err(InvalidCharacter)
  }

  /** `atob(s)`: forgiving-base64 decode. ASCII whitespace is ignored, padding
      is optional, a length of 1 modulo 4 or a character outside the alphabet fails. */
  function Atob(s: string): (r: Outcome<string>)
    ensures r.Ok? ==> IsBinary(r.value)
    ensures r.Err? ==> r.error == InvalidCharacter
  {
    var u := DropPadding(StripWhitespace(s));
    if |u| % 4 == 1 || !AllDigits(u) then Err(InvalidCharacter)
    else Ok(Chars(DecodeDigits(u)))
  }

  /** The bit arithmetic of one quantum is undone by the decoder. */
  lemma QuantumRoundTrip(b0: byte, b1: byte, b2: byte)
    ensures (b0 / 4) * 4 + (b0 % 4 * 16 + b1 / 16) / 16 == b0
    ensures (b0 % 4 * 16 + b1 / 16) % 16 * 16 + (b1 % 16 * 4 + b2 / 64) / 4 == b1
    ensures (b1 % 16 * 4 + b2 / 64) % 4 * 64 + b2 % 64 == b2
  {
  }

  /** Decoding the values of a whole byte sequence gives the bytes back. */
  lemma {:induction false} DecodeSextets(b: seq<byte>)
    ensures |Sextets(b)| % 4 != 1 && DecodeValues(Sextets(b)) == b
    decreases |b|
  {
    SextetsLength(b);
    if |b| == 1 {
      assert b == [b[0]];
    } else if |b| == 2 {
      QuantumRoundTrip(b[0], b[1], 0);
      assert b == [b[0], b[1]];
    } else if |b| >= 3 {
      var v := Sextets(b);
      DecodeSextets(b[3..]);
      assert v[4..] == Sextets(b[3..]);
      DecodeStep(v, b);
    }
  }

  /** One quantum of values decodes to the first three bytes. */
  lemma DecodeStep(v: seq<Sextet>, b: seq<byte>)
    requires |v| >= 4 && |v| % 4 != 1 && |b| >= 3
    requires v[0] == b[0] / 4 && v[1] == b[0] % 4 * 16 + b[1] / 16
    requires v[2] == b[1] % 16 * 4 + b[2] / 64 && v[3] == b[2] % 64
    requires DecodeValues(v[4..]) == b[3..]
    ensures DecodeValues(v) == b
  {
    QuantumRoundTrip(b[0], b[1], b[2]);
    assert DecodeValues(v) == [b[0], b[1], b[2]] + b[3..];
    assert [b[0], b[1], b[2]] == b[..3];
    assert b[..3] + b[3..] == b;
  }

  lemma DecodeUnpadded(b: seq<byte>)
    ensures AllDigits(Unpadded(b)) && |Unpadded(b)| % 4 != 1
    ensures DecodeDigits(Unpadded(b)) == b
  {
    UnpaddedShape(b);
    DecodeSextets(b);
  }

  lemma {:induction false} StripClean(s: string)
    requires forall i :: 0 <= i < |s| ==> !IsAsciiWhitespace(s[i])
    ensures StripWhitespace(s) == s
  {
    if s != [] {
      StripClean(s[1..]);
    }
  }

  lemma DropTwo(u: string)
    requires |u| % 4 == 2
    ensures DropPadding(u + "==") == u
  {
    var t := u + "==";
    assert t[|t| - 2..] == "==";
    assert t[..|t| - 2] == u;
  }

  lemma DropOne(u: string)
    requires |u| % 4 == 3 && IsDigit(u[|u| - 1])
    ensures DropPadding(u + "=") == u
  {
    var t := u + "=";
    assert t[|t| - 2] == u[|u| - 1];
    assert t[|t| - 1..] == "=";
    assert t[..|t| - 1] == u;
  }

  lemma DropNone(u: string)
    requires |u| % 4 == 0 && (|u| > 0 ==> IsDigit(u[|u| - 1]))
    ensures DropPadding(u) == u
  {
  }

  lemma DropPaddingOfEncode(b: seq<byte>)
    ensures DropPadding(Encode(b)) == Unpadded(b)
  {
    UnpaddedShape(b);
    var u := Unpadded(b);
    if |b| % 3 == 1 {
      DropTwo(u);
    } else if |b| % 3 == 2 {
      DropOne(u);
    } else {
      assert Encode(b) == u;
      DropNone(u);
    }
  }

  /** `atob(btoa(s)) == s` for every binary string: decoding undoes encoding
      for byte sequences of every length. */
  lemma EncodeThenDecode(b: seq<byte>)
    ensures Atob(Encode(b)) == Ok(Chars(b))
  {
    var t := Encode(b);
    EncodeShape(b);
    forall i | 0 <= i < |t| ensures !IsAsciiWhitespace(t[i]) {
    }
    StripClean(t);
    DropPaddingOfEncode(b);
    DecodeUnpadded(b);
  }

  lemma BtoaThenAtob(s: string)
    requires IsBinary(s)
    ensures Btoa(s) == Ok(Encode(Codes(s))) && Atob(Btoa(s).value) == Ok(s)
  {
    EncodeThenDecode(Codes(s));
    CharsOfCodes(s);
  }
}
