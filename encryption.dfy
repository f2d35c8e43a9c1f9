/** services/encryptionService.ts: the envelope `{iv, data, salt}`, the chunked
    byte/base64 helpers, PBKDF2 key derivation, AES-GCM encryption and
    decryption, and the random password generator. */
module Encryption {
  import opened Common
  import Base64
  import opened Platform

  /** `uint8ArrayToBase64` converts at most this many bytes per step. */
  const ChunkSize := 8192
  const SaltLength := 16
  const IvLength := 12
  /** PBKDF2 work factor (section 5.2 of RFC 8018) with SHA-256. */
  const Iterations := 100000
  /** An AES-GCM key of 256 bits. */
  const KeyLength := 256
  const DefaultPasswordLength := 32
  const Charset := "ABCDEFGHIJKLMNOPQRSTUVWXYZabcdefghijklmnopqrstuvwxyz0123456789!@#$%^&*"

  const CryptoUnavailable := "Web Crypto API not available. Please use HTTPS or modern browser."
  const EncryptFailedPrefix := "Failed to encrypt data: "
  const DecryptFailed := "Failed to decrypt data. Wrong password?"

  /** The persisted envelope: three base64 strings. */
  datatype EncryptedData = EncryptedData(iv: string, data: string, salt: string)

  /** `JSON.stringify` / `response.json()` for envelopes. */
  type EnvelopeJson = JsonCodec<EncryptedData>

  function Min(a: int, b: int): int {
    if a < b then a else b
  }

  /** The chunked loop of `uint8ArrayToBase64`: the binary string handed to
      `btoa`. Chunking is invisible: character i has code `bytes[i]`. */
  method BinaryString(bytes: array<byte>) returns (binary: string)
    ensures |binary| == bytes.Length
    ensures forall i :: 0 <= i < bytes.Length ==> binary[i] as int == bytes[i]
  {
    binary := "";
    var len := bytes.Length;
    var i := 0;
    while i < len
      invariant 0 <= i && i % ChunkSize == 0
      invariant |binary| == Min(i, len)
      invariant forall k :: 0 <= k < |binary| ==> binary[k] as int == bytes[k]
    {
      var chunk := bytes[i..Min(i + ChunkSize, len)];
      binary := binary + Base64.Chars(chunk);
      i := i + ChunkSize;
    }
  }

  /** `uint8ArrayToBase64`: the base64 text of the array's bytes. */
  method BytesToBase64(bytes: array<byte>) returns (s: string)
    ensures s == Base64.Encode(bytes[..])
  {
    var binary := BinaryString(bytes);
    assert Base64.Codes(binary) == bytes[..];
    s := Base64.Btoa(binary).value;
  }

  /** What `base64ToUint8Array` yields: the codes of `atob`'s binary string,
      or `atob`'s exception. */
  function FromBase64(text: string): (r: Outcome<seq<byte>>)
    ensures r.Err? ==> r.error == Base64.InvalidCharacter
  {
    match Base64.Atob(text)
    case Ok(binary) => Ok(Base64.Codes(binary))
    case Err(e) => Err(e)
  }

  /** `base64ToUint8Array`: fills a fresh array from `atob`'s result. */
  method Base64ToBytes(text: string) returns (r: Outcome<array<byte>>)
    ensures FromBase64(text).Err? ==> r == Err(FromBase64(text).error)
    ensures FromBase64(text).Ok? ==> r.Ok? && r.value[..] == FromBase64(text).value
  {
    var decoded := Base64.Atob(text);
    if decoded.Err? {
      return Err(decoded.error);
    }
    var binary := decoded.value;
    var bytes := new byte[|binary|];
    var i := 0;
    while i < |binary|
      invariant 0 <= i <= |binary|
      invariant forall k :: 0 <= k < i ==> bytes[k] == binary[k] as int
    {
      bytes[i] := binary[i] as int;
      i := i + 1;
    }
    r := Ok(bytes);
  }

  /** For byte arrays of every length, more than one chunk included,
      `base64ToUint8Array(uint8ArrayToBase64(b))` gives back `b`. */
  lemma Base64RoundTrip(b: seq<byte>)
    ensures FromBase64(Base64.Encode(b)) == Ok(b)
  {
    Base64.EncodeThenDecode(b);
    Base64.CodesOfChars(b);
  }

  /** The PBKDF2 parameters of `deriveKey`: the given salt, 100000 iterations of
      SHA-256, producing a non-extractable 256-bit AES-GCM key for encrypt and decrypt. */
  function Pbkdf2(salt: seq<byte>, baseKey: CryptoKey): KeyDerivation {
    KeyDerivation("PBKDF2", salt, Iterations, "SHA-256", baseKey, "AES-GCM", KeyLength, false, ["encrypt", "decrypt"])
  }

  /** `deriveKey(password, salt)`: import the UTF-8 password as raw PBKDF2
      material, then derive the AES-GCM key from it and the salt. */
  function DeriveKey(subtle: SubtleCrypto, text: TextCodec, password: string, salt: seq<byte>): Outcome<CryptoKey> {
    match subtle.importKey(KeyImport("raw", text.encode(password), "PBKDF2", false, ["deriveKey"]))
    case Err(e) => Err(e)
    case Ok(material) => subtle.deriveKey(Pbkdf2(salt, material))
  }

  /** What `encryptData` yields for a given salt and IV. Every failure is
      rethrown with the prefix 'Failed to encrypt data: '. */
  function Encrypt<T>(rt: Runtime<T>, data: T, password: string, salt: seq<byte>, iv: seq<byte>): Outcome<EncryptedData> {
    if rt.subtle.None? then Err(EncryptFailedPrefix + CryptoUnavailable)
    else
      var subtle := rt.subtle.value;
      match DeriveKey(subtle, rt.text, password, salt)
      case Err(e) => Err(EncryptFailedPrefix + e)
      case Ok(key) =>
        match rt.json.stringify(data)
        case Err(e) => Err(EncryptFailedPrefix + e)
        case Ok(dataString) =>
          match subtle.encrypt(AesGcmParams("AES-GCM", iv), key, rt.text.encode(dataString))
          case Err(e) => Err(EncryptFailedPrefix + e)
          case Ok(sealed) => Ok(EncryptedData(Base64.Encode(iv), Base64.Encode(sealed), Base64.Encode(salt)))
  }

  /** Every encryption failure carries the prefix, and without the crypto API
      nothing else is tried. */
  lemma EncryptErrors<T>(rt: Runtime<T>, data: T, password: string, salt: seq<byte>, iv: seq<byte>)
    ensures Encrypt(rt, data, password, salt, iv).Err? ==> StartsWith(Encrypt(rt, data, password, salt, iv).error, EncryptFailedPrefix)
    ensures rt.subtle.None? ==> Encrypt(rt, data, password, salt, iv) == Err(EncryptFailedPrefix + CryptoUnavailable)
  {
    var r := Encrypt(rt, data, password, salt, iv);
    if r.Err? {
      var e :| r.error == EncryptFailedPrefix + e;
      assert r.error[..|EncryptFailedPrefix|] == EncryptFailedPrefix;
    }
  }

  /** `encryptData`: check for the crypto API, draw a 16-byte salt and a 12-byte
      IV, derive the key, encrypt the JSON text, and encode the three buffers. */
  method EncryptData<T>(rng: RandomSource, rt: Runtime<T>, data: T, password: string) returns (r: Outcome<EncryptedData>)
    modifies rng
    ensures r == Encrypt(rt, data, password, rng.Bytes(old(rng.drawn), SaltLength), rng.Bytes(old(rng.drawn) + SaltLength, IvLength))
    ensures rng.drawn == old(rng.drawn) + if rt.subtle.Some? then SaltLength + IvLength else 0
  {
    if rt.subtle.None? {
      return Err(EncryptFailedPrefix + CryptoUnavailable);
    }
    var subtle := rt.subtle.value;
    var salt := rng.GetRandomValues(SaltLength);
    var iv := rng.GetRandomValues(IvLength);
    var key := DeriveKey(subtle, rt.text, password, salt[..]);
    if key.Err? {
      return Err(EncryptFailedPrefix + key.error);
    }
    var dataString := rt.json.stringify(data);
    if dataString.Err? {
      return Err(EncryptFailedPrefix + dataString.error);
    }
    var dataBuffer := rt.text.encode(dataString.value);
    var encrypted := subtle.encrypt(AesGcmParams("AES-GCM", iv[..]), key.value, dataBuffer);
    if encrypted.Err? {
      return Err(EncryptFailedPrefix + encrypted.error);
    }
    var sealed := encrypted.value;
    var sealedBytes := new byte[|sealed|](k requires 0 <= k < |sealed| => sealed[k]);
    assert sealedBytes[..] == sealed;
    var ivText := BytesToBase64(iv);
    var dataText := BytesToBase64(sealedBytes);
    var saltText := BytesToBase64(salt);
    r := Ok(EncryptedData(ivText, dataText, saltText));
  }

  /** What `decryptData` yields. The key comes from the envelope's own salt and
      the password, the IV from the envelope; every failure (bad base64, missing
      crypto API, a rejected key or tag, bad JSON) is the same message. */
  function Decrypt<T>(rt: Runtime<T>, envelope: EncryptedData, password: string): (r: Outcome<T>)
    ensures r.Err? ==> r.error == DecryptFailed
  {
    var iv, salt, data := FromBase64(envelope.iv), FromBase64(envelope.salt), FromBase64(envelope.data);
    if iv.Err? || salt.Err? || data.Err? || rt.subtle.None? then Err(DecryptFailed)
    else
      var subtle := rt.subtle.value;
      match DeriveKey(subtle, rt.text, password, salt.value)
      case Err(_) => Err(DecryptFailed)
      case Ok(key) =>
        match subtle.decrypt(AesGcmParams("AES-GCM", iv.value), key, data.value)
        case Err(_) => Err(DecryptFailed)
        case Ok(plain) =>
          match rt.json.parse(rt.text.decode(plain))
          case Err(_) => Err(DecryptFailed)
          case Ok(value) => Ok(value)
  }

  /** `decryptData`. */
  method DecryptData<T>(rt: Runtime<T>, envelope: EncryptedData, password: string) returns (r: Outcome<T>)
    ensures r == Decrypt(rt, envelope, password)
  {
    var iv := Base64ToBytes(envelope.iv);
    var salt := Base64ToBytes(envelope.salt);
    var data := Base64ToBytes(envelope.data);
    if iv.Err? || salt.Err? || data.Err? || rt.subtle.None? {
      return Err(DecryptFailed);
    }
    var subtle := rt.subtle.value;
    var key := DeriveKey(subtle, rt.text, password, salt.value[..]);
    if key.Err? {
      return Err(DecryptFailed);
    }
    var decrypted := subtle.decrypt(AesGcmParams("AES-GCM", iv.value[..]), key.value, data.value[..]);
    if decrypted.Err? {
      return Err(DecryptFailed);
    }
    var parsed := rt.json.parse(rt.text.decode(decrypted.value));
    if parsed.Err? {
      return Err(DecryptFailed);
    }
    r := Ok(parsed.value);
  }

  /** A successful encryption yields an envelope whose `iv` and `salt` decode to
      exactly the IV and salt drawn, and whose `data` is valid base64. */
  lemma EnvelopeCarriesSaltAndIv<T>(rt: Runtime<T>, data: T, password: string, salt: seq<byte>, iv: seq<byte>)
    requires Encrypt(rt, data, password, salt, iv).Ok?
    ensures var e := Encrypt(rt, data, password, salt, iv).value;
      FromBase64(e.iv) == Ok(iv) && FromBase64(e.salt) == Ok(salt) && FromBase64(e.data).Ok?
  {
    var e := Encrypt(rt, data, password, salt, iv).value;
    var key := DeriveKey(rt.subtle.value, rt.text, password, salt).value;
    var sealed := rt.subtle.value.encrypt(AesGcmParams("AES-GCM", iv), key, rt.text.encode(rt.json.stringify(data).value)).value;
    assert e == EncryptedData(Base64.Encode(iv), Base64.Encode(sealed), Base64.Encode(salt));
    Base64RoundTrip(iv);
    Base64RoundTrip(salt);
    Base64RoundTrip(sealed);
  }

  /** Given that the cipher, the UTF-8 codec and JSON are lawful, decrypting
      an envelope with the password it was made with gives back the data. */
  lemma DecryptUndoesEncrypt<T(!new)>(rt: Runtime<T>, data: T, password: string, salt: seq<byte>, iv: seq<byte>)
    requires Lawful(rt)
    requires Encrypt(rt, data, password, salt, iv).Ok?
    ensures Decrypt(rt, Encrypt(rt, data, password, salt, iv).value, password) == Ok(data)
  {
    var subtle := rt.subtle.value;
    var key := DeriveKey(subtle, rt.text, password, salt).value;
    var dataString := rt.json.stringify(data).value;
    var params := AesGcmParams("AES-GCM", iv);
    var sealed := subtle.encrypt(params, key, rt.text.encode(dataString)).value;
    EnvelopeCarriesSaltAndIv(rt, data, password, salt, iv);
    assert FromBase64(Base64.Encode(sealed)) == Ok(sealed) by {
      Base64RoundTrip(sealed);
    }
    assert subtle.decrypt(params, key, sealed) == Ok(rt.text.encode(dataString));
    assert rt.text.decode(rt.text.encode(dataString)) == dataString;
  }

  /** The pure part of `generateSecurePassword`: character i is
      `charset[r[i] % 70]` for the i-th random byte. */
  function PasswordOf(random: seq<byte>): (pw: string)
    ensures |pw| == |random|
    ensures forall i :: 0 <= i < |pw| ==> pw[i] in Charset
  {
    seq(|random|, i requires 0 <= i < |random| => Charset[random[i] % |Charset|])
  }

  /** `generateSecurePassword(length = 32)`: draws `length` random bytes and maps
      each onto the 70-character alphabet by modulo. */
  method GenerateSecurePassword(rng: RandomSource, length: nat := DefaultPasswordLength) returns (pw: string)
    modifies rng
    ensures rng.drawn == old(rng.drawn) + length
    ensures pw == PasswordOf(rng.Bytes(old(rng.drawn), length))
    ensures |pw| == length && forall i :: 0 <= i < length ==> pw[i] == Charset[rng.tape(old(rng.drawn) + i) % 70]
  {
    var randomValues := rng.GetRandomValues(length);
    pw := PasswordOf(randomValues[..]);
  }

  /** The alphabet has 70 characters, so the modulo map is not uniform: the
      first 256 % 70 = 46 characters are hit by four byte values, the other 24
      by three. */
  lemma ModuloBias(k: nat)
    requires k < |Charset|
    ensures |Charset| == 70
    ensures (set b: int | 0 <= b < 256 && b % 70 == k) == if k < 46 then {k, k + 70, k + 140, k + 210} else {k, k + 70, k + 140}
    ensures |set b: int | 0 <= b < 256 && b % 70 == k| == if k < 46 then 4 else 3
  {
    var hits := set b: int | 0 <= b < 256 && b % 70 == k;
    forall b | 0 <= b < 256 && b % 70 == k
      ensures b == k || b == k + 70 || b == k + 140 || b == k + 210
    {
      assert b == 70 * (b / 70) + k;
    }
    if k < 46 {
      assert hits == {k, k + 70, k + 140, k + 210};
    } else {
      assert hits == {k, k + 70, k + 140};
    }
  }
}
