/** The foreign facilities the core calls into: the Web Crypto API
    (`crypto.subtle` and `crypto.getRandomValues`), `TextEncoder`/`TextDecoder`
    and `JSON`. Their behaviour is not modelled; each one is a function value
    handed to the model, and the one law the core relies on is a ghost
    predicate that the theorems require. */
module Platform {
  import opened Common

  /** An opaque `CryptoKey`. */
  datatype CryptoKey = CryptoKey(handle: nat)

  /** `importKey('raw', keyData, algorithm, extractable, usages)`. */
  datatype KeyImport = KeyImport(format: string, keyData: seq<byte>, algorithm: string, extractable: bool, usages: seq<string>)

  /** The arguments of `deriveKey`: PBKDF2 parameters (section 5.2 of RFC 8018),
      the base key, and the kind of key to produce. */
  datatype KeyDerivation = KeyDerivation(
    name: string, salt: seq<byte>, iterations: nat, hash: string,
    baseKey: CryptoKey,
    derivedName: string, derivedLength: nat, extractable: bool, usages: seq<string>)

  /** `{ name: 'AES-GCM', iv }`, the parameters of `encrypt` and `decrypt`. */
  datatype AesGcmParams = AesGcmParams(name: string, iv: seq<byte>)

  /** `crypto.subtle`; each operation either resolves or rejects with a message. */
  datatype SubtleCrypto = SubtleCrypto(
    importKey: KeyImport -> Outcome<CryptoKey>,
    deriveKey: KeyDerivation -> Outcome<CryptoKey>,
    encrypt: (AesGcmParams, CryptoKey, seq<byte>) -> Outcome<seq<byte>>,
    decrypt: (AesGcmParams, CryptoKey, seq<byte>) -> Outcome<seq<byte>>)

  /** Authenticated decryption undoes encryption under the same key and IV
      (NIST SP 800-38D). Key derivation is deterministic because `deriveKey`
      is a function. */
  ghost predicate LawfulCipher(subtle: SubtleCrypto) {
    forall params, key, plain ::
      subtle.encrypt(params, key, plain).Ok? ==>
        subtle.decrypt(params, key, subtle.encrypt(params, key, plain).value) == Ok(plain)
  }

  /** `TextEncoder.encode` and `TextDecoder.decode` (UTF-8). */
  datatype TextCodec = TextCodec(encode: string -> seq<byte>, decode: seq<byte> -> string)

  /** Every Dafny string is a sequence of Unicode scalar values, so UTF-8
      decoding undoes encoding for all of them. */
  ghost predicate LawfulText(text: TextCodec) {
    forall s :: text.decode(text.encode(s)) == s
  }

  /** `JSON.stringify` (which may throw, e.g. on a cycle) and `JSON.parse`
      for the values of one shape. */
  datatype JsonCodec<!T> = JsonCodec(stringify: T -> Outcome<string>, parse: string -> Outcome<T>)

  ghost predicate LawfulJson<T(!new)>(json: JsonCodec<T>) {
    forall x :: json.stringify(x).Ok? ==> json.parse(json.stringify(x).value) == Ok(x)
  }

  /** What `encryptData` and `decryptData` reach: `crypto.subtle` (absent in an
      insecure context), the UTF-8 codec and JSON for the payload type. */
  datatype Runtime<!T> = Runtime(subtle: Option<SubtleCrypto>, text: TextCodec, json: JsonCodec<T>)

  ghost predicate Lawful<T(!new)>(rt: Runtime<T>) {
    (rt.subtle.Some? ==> LawfulCipher(rt.subtle.value)) && LawfulText(rt.text) && LawfulJson(rt.json)
  }

  /** `crypto.getRandomValues`: the entropy the browser hands out, in order.
      `tape` is the whole stream; `drawn` counts the bytes already handed out,
      so no two calls ever see the same bytes. */
  class RandomSource {
    const tape: nat -> byte
    var drawn: nat

    constructor (tape: nat -> byte)
      ensures this.tape == tape && drawn == 0
    {
      this.tape := tape;
      drawn := 0;
    }

    /** The `n` bytes of the stream that start at position `from`. */
    function Bytes(from: nat, n: nat): (b: seq<byte>)
      ensures |b| == n && forall k :: 0 <= k < n ==> b[k] == tape(from + k)
    {
      seq(n, k requires 0 <= k < n => tape(from + k))
    }

    /** `crypto.getRandomValues(new Uint8Array(n))`. */
    method GetRandomValues(n: nat) returns (a: array<byte>)
      modifies this
      ensures fresh(a) && a[..] == Bytes(old(drawn), n)
      ensures drawn == old(drawn) + n
    {
      a := new byte[n](k requires 0 <= k < n reads this => tape(drawn + k));
      drawn := drawn + n;
    }
  }
}
