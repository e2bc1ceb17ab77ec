/** `CryptoUtils`: stateless helpers for MD5 digests, the AES-CBC envelope
    (base64 of IV followed by ciphertext), RSA-OAEP and RSA signatures. The random
    IV is a parameter; keys not given explicitly are read from the environment. The
    cryptographic primitives are library code and come in as `Primitives`. */
module CryptoUtils {
  import opened Common
  import opened Json
  import Utf8
  import Base64
  import Pkcs7
  import Cbc

  type Md5Digest = s: seq<byte> | |s| == 16 witness seq(16, _ => 0)

  /** The library primitives. Keys are the PEM text the RSA functions import;
      `keyPair(pub, priv)` says which public key belongs to which private key. */
  datatype Primitives = Primitives(
    aes: Cbc.BlockCipher,
    md5: seq<byte> -> Md5Digest,
    sha256: seq<byte> -> seq<byte>,
    rsaImport: string -> bool,
    oaepEncrypt: (string, seq<byte>) -> Option<seq<byte>>,
    oaepDecrypt: (string, seq<byte>) -> Option<seq<byte>>,
    pkcs1Sign: (string, seq<byte>) -> Option<seq<byte>>,
    pkcs1Verify: (string, seq<byte>, seq<byte>) -> bool,
    keyPair: (string, string) -> bool)

  /** What the round-trip properties rely on: AES decryption inverts encryption, the
      keys of a pair import, OAEP decryption with the private key inverts encryption
      with the public key, and a signature made with the private key verifies with
      the public key (a signature is never empty: it is as long as the modulus). */
  ghost predicate Lawful(p: Primitives)
  {
    && Cbc.Lawful(p.aes)
    && (forall pub, priv :: p.keyPair(pub, priv) ==> p.rsaImport(pub) && p.rsaImport(priv))
    && (forall pub, priv, m :: p.keyPair(pub, priv) && p.oaepEncrypt(pub, m).Some? ==>
          p.oaepDecrypt(priv, p.oaepEncrypt(pub, m).value) == Some(m))
    && (forall pub, priv, d :: p.keyPair(pub, priv) && p.pkcs1Sign(priv, d).Some? ==>
          |p.pkcs1Sign(priv, d).value| > 0 && p.pkcs1Verify(pub, d, p.pkcs1Sign(priv, d).value))
  }

  const AesKeyName := "AES_SECRET_KEY"
  const RsaPublicKeyName := "RSA_PUBLIC_KEY"
  const RsaPrivateKeyName := "RSA_PRIVATE_KEY"

  /** `key or os.getenv(name)`, then `if not key: raise`: a non-empty explicit key
      wins, else a non-empty environment value, else nothing. */
  function ResolveKey(explicit: Option<string>, name: string, env: Env): (r: Option<string>)
    ensures r.Some? ==> r.value != ""
    ensures explicit.Some? && explicit.value != "" ==> r == explicit
    ensures (explicit.None? || explicit.value == "") ==>
              (r.Some? <==> name in env && env[name] != "") && (r.Some? ==> r.value == env[name])
  {
    if explicit.Some? && explicit.value != "" then explicit
    else match GetEnv(env, name)
      case Some(v) => if v != "" then Some(v) else None
      case None => None
  }

  /** The text a non-string argument is first converted to, as UTF-8. */
  function TextBytes(text: Value, codec: Codec): (r: seq<byte>)
    ensures text.Str? ==> r == Utf8.Encode(text.s)
    ensures Utf8.Decode(r) == Some(Text(codec, text))
  {
    Utf8.DecodeEncode(Text(codec, text));
    Utf8.Encode(Text(codec, text))
  }

  function HexChar(n: int): (c: char)
    requires 0 <= n < 16
  {
    if n < 10 then ('0' as int + n) as char else ('a' as int + (n - 10)) as char
  }

  predicate IsLowerHex(c: char)
  {
    '0' <= c <= '9' || 'a' <= c <= 'f'
  }

  /** The value of a lower-case hex digit. */
  function HexValue(c: char): (n: int)
    requires IsLowerHex(c)
    ensures 0 <= n < 16 && HexChar(n) == c
  {
    if c <= '9' then c as int - '0' as int else c as int - 'a' as int + 10
  }

  /** `hexdigest()`: two lower-case hex digits per byte, high nibble first. */
  function HexDigest(b: seq<byte>): (r: string)
    ensures |r| == 2 * |b|
    ensures forall k :: 0 <= k < |r| ==> IsLowerHex(r[k])
  {
    if b == [] then "" else [HexChar(b[0] / 16), HexChar(b[0] % 16)] + HexDigest(b[1..])
  }

  /** Byte `i` of the digest is spelled by characters `2i` and `2i+1`. */
  lemma {:induction false} HexDigestDigits(b: seq<byte>, i: int)
    requires 0 <= i < |b|
    ensures HexDigest(b)[2 * i] == HexChar(b[i] / 16) && HexDigest(b)[2 * i + 1] == HexChar(b[i] % 16)
    decreases i
  {
    if i > 0 {
      HexDigestDigits(b[1..], i - 1);
      var t := HexDigest(b[1..]);
      assert HexDigest(b)[2..] == t;
      assert b[1..][i - 1] == b[i];
    }
  }

  /** Reading a hex digest back: two digits per byte; None for an odd length or a
      character that is not a lower-case hex digit. */
  function UnHex(s: string): (r: Option<seq<byte>>)
    ensures r.Some? ==> 2 * |r.value| == |s|
    decreases |s|
  {
    if s == [] then Some([])
    else if |s| < 2 || !IsLowerHex(s[0]) || !IsLowerHex(s[1]) then None
    else match UnHex(s[2..])
      case None => None
      case Some(t) => Some([(HexValue(s[0]) * 16 + HexValue(s[1])) as byte] + t)
  }

  /** The digest text determines the digest: reading it back gives the bytes. */
  lemma {:induction false} UnHexHexDigest(b: seq<byte>)
    ensures UnHex(HexDigest(b)) == Some(b)
  {
    if b != [] {
      var r := HexDigest(b);
      UnHexHexDigest(b[1..]);
      assert r[2..] == HexDigest(b[1..]);
      assert HexValue(r[0]) == b[0] / 16 && HexValue(r[1]) == b[0] % 16;
      assert [b[0]] + b[1..] == b;
    }
  }

  /** `md5_encrypt`: the MD5 hex digest of the UTF-8 text of `text` (RFC 1321 fixes
      the digest at 16 bytes, so 32 hex characters). */
  function Md5Encrypt(text: Value, codec: Codec, p: Primitives): (r: string)
    ensures |r| == 32
    ensures forall k :: 0 <= k < |r| ==> IsLowerHex(r[k])
  {
    HexDigest(p.md5(TextBytes(text, codec)))
  }

  /** `md5_encrypt` on a string hashes its UTF-8 bytes, and any other value is first
      turned into its `str()`: the result is that of the string. */
  lemma Md5Input(text: Value, s: string, codec: Codec, p: Primitives)
    ensures Md5Encrypt(Str(s), codec, p) == HexDigest(p.md5(Utf8.Encode(s)))
    ensures Md5Encrypt(text, codec, p) == Md5Encrypt(Str(Text(codec, text)), codec, p)
  {
  }

  /** Two texts give the same `md5_encrypt` exactly when MD5 gives them the same
      digest: the hex text loses nothing. */
  lemma Md5SameIff(a: Value, b: Value, codec: Codec, p: Primitives)
    ensures Md5Encrypt(a, codec, p) == Md5Encrypt(b, codec, p) <==> p.md5(TextBytes(a, codec)) == p.md5(TextBytes(b, codec))
  {
    UnHexHexDigest(p.md5(TextBytes(a, codec)));
    UnHexHexDigest(p.md5(TextBytes(b, codec)));
  }

  /** `aes_encrypt`: resolve and check the key, then base64(IV + CBC(pad(text))). */
  function AesEncrypt(text: Value, key: Option<string>, iv: Cbc.Block, codec: Codec, p: Primitives, env: Env): (r: Result<string>)
    ensures ResolveKey(key, AesKeyName, env).None? ==> r == Err(KeyMissing(AesKeyName))
    ensures ResolveKey(key, AesKeyName, env).Some? ==>
              (r.Err? <==> !Cbc.ValidKeyLength(|Utf8.Encode(ResolveKey(key, AesKeyName, env).value)|))
    ensures r.Err? ==> r.error == KeyMissing(AesKeyName) || r.error == KeyLengthInvalid
  {
    match ResolveKey(key, AesKeyName, env)
    case None => Err(KeyMissing(AesKeyName))
    case Some(k) =>
      var kb := Utf8.Encode(k);
      if !Cbc.ValidKeyLength(|kb|) then Err(KeyLengthInvalid)
      else Ok(Base64.Encode(iv + Cbc.Encrypt(p.aes, kb, iv, Pkcs7.Pad(TextBytes(text, codec)))))
  }

  /** The body of `aes_decrypt`'s `try`: base64, split off the IV, decrypt, unpad,
      decode. Every failure here is logged and re-raised. */
  function AesDecryptBytes(token: Value, kb: seq<byte>, p: Primitives): (r: Result<string>)
    ensures !token.Str? ==> r == Err(TypeError)
  {
    if !token.Str? then Err(TypeError)
    else match Base64.Decode(token.s)
      case None => Err(Base64Invalid)
      case Some(data) =>
        var split := if |data| < 16 then |data| else 16;
        var iv, ct := data[..split], data[split..];
        if !Cbc.ValidKeyLength(|kb|) then Err(CipherKeyInvalid)
        else if |iv| != 16 then Err(IvLengthInvalid)
        else match Cbc.Decrypt(p.aes, kb, iv, ct)
          case None => Err(CiphertextLengthInvalid)
          case Some(padded) =>
            match Pkcs7.Unpad(padded)
            case None => Err(PaddingInvalid)
            case Some(plain) =>
              match Utf8.Decode(plain)
              case None => Err(Utf8Invalid)
              case Some(s) => Ok(s)
  }

  /** What a token `aes_decrypt` accepts looks like: base64 of an IV followed by at
      least one whole block, under a key of a valid length. */
  lemma AesDecryptAccepts(token: Value, kb: seq<byte>, p: Primitives)
    requires AesDecryptBytes(token, kb, p).Ok?
    ensures token.Str? && Base64.Decode(token.s).Some? && Cbc.ValidKeyLength(|kb|)
    ensures |Base64.Decode(token.s).value| >= 32 && |Base64.Decode(token.s).value| % 16 == 0
  {
    var data := Base64.Decode(token.s).value;
    var ct := data[16..];
    assert Cbc.Decrypt(p.aes, kb, data[..16], ct).Some?;
    assert Pkcs7.Unpad(Cbc.Decrypt(p.aes, kb, data[..16], ct).value).Some?;
    assert |data| == 16 + |ct|;
  }

  /** `aes_decrypt`: a missing key is raised as is; any other failure is logged
      and re-raised. There is no key-length check of its own: a key of the wrong
      length fails inside the cipher. */
  function AesDecrypt(token: Value, key: Option<string>, p: Primitives, env: Env): (r: Result<string>)
    ensures ResolveKey(key, AesKeyName, env).None? <==> r == Err(KeyMissing(AesKeyName))
    ensures r.Err? && r.error != KeyMissing(AesKeyName) ==> r.error.LoggedError?
  {
    match ResolveKey(key, AesKeyName, env)
    case None => Err(KeyMissing(AesKeyName))
    case Some(k) =>
      match AesDecryptBytes(token, Utf8.Encode(k), p)
      case Err(e) => Err(LoggedError(e))
      case Ok(s) => Ok(s)
  }

  /** The token `aes_encrypt` returns decodes to the 16-byte IV followed by the
      CBC encryption of the padded text: a positive multiple of 16 bytes, namely
      16 * (n / 16 + 1) for n bytes of text. */
  lemma AesEncryptFraming(text: Value, key: Option<string>, iv: Cbc.Block, codec: Codec, p: Primitives, env: Env)
    requires AesEncrypt(text, key, iv, codec, p, env).Ok?
    ensures var kb := Utf8.Encode(ResolveKey(key, AesKeyName, env).value);
            var ct := Cbc.Encrypt(p.aes, kb, iv, Pkcs7.Pad(TextBytes(text, codec)));
            && Base64.Decode(AesEncrypt(text, key, iv, codec, p, env).value) == Some(iv + ct)
            && |ct| == 16 * (|TextBytes(text, codec)| / 16 + 1)
  {
    var kb := Utf8.Encode(ResolveKey(key, AesKeyName, env).value);
    var ct := Cbc.Encrypt(p.aes, kb, iv, Pkcs7.Pad(TextBytes(text, codec)));
    Base64.DecodeEncode(iv + ct);
  }

  /** Decrypting the token with the same key gives back the text (a string's own
      text, anything else's `str()`). */
  lemma AesRoundTrip(text: Value, key: Option<string>, iv: Cbc.Block, codec: Codec, p: Primitives, env: Env)
    requires Lawful(p)
    requires AesEncrypt(text, key, iv, codec, p, env).Ok?
    ensures AesDecrypt(Str(AesEncrypt(text, key, iv, codec, p, env).value), key, p, env) == Ok(Text(codec, text))
  {
    var kb := Utf8.Encode(ResolveKey(key, AesKeyName, env).value);
    var padded := Pkcs7.Pad(TextBytes(text, codec));
    var ct := Cbc.Encrypt(p.aes, kb, iv, padded);
    AesEncryptFraming(text, key, iv, codec, p, env);
    var data := iv + ct;
    assert data[..16] == iv && data[16..] == ct;
    Cbc.DecryptEncrypt(p.aes, kb, iv, padded);
    Pkcs7.UnpadPad(TextBytes(text, codec));
    Utf8.DecodeEncode(Text(codec, text));
  }

  /** Two encryptions of the same text under the same key with different IVs give
      different tokens, and both decrypt to the same text. */
  lemma FreshIvChangesToken(text: Value, key: Option<string>, iv1: Cbc.Block, iv2: Cbc.Block, codec: Codec, p: Primitives, env: Env)
    requires Lawful(p)
    requires AesEncrypt(text, key, iv1, codec, p, env).Ok? && iv1 != iv2
    ensures AesEncrypt(text, key, iv2, codec, p, env).Ok?
    ensures AesEncrypt(text, key, iv1, codec, p, env) != AesEncrypt(text, key, iv2, codec, p, env)
    ensures AesDecrypt(Str(AesEncrypt(text, key, iv1, codec, p, env).value), key, p, env)
         == AesDecrypt(Str(AesEncrypt(text, key, iv2, codec, p, env).value), key, p, env)
  {
    AesEncryptFraming(text, key, iv1, codec, p, env);
    AesEncryptFraming(text, key, iv2, codec, p, env);
    var kb := Utf8.Encode(ResolveKey(key, AesKeyName, env).value);
    var ct1 := Cbc.Encrypt(p.aes, kb, iv1, Pkcs7.Pad(TextBytes(text, codec)));
    var ct2 := Cbc.Encrypt(p.aes, kb, iv2, Pkcs7.Pad(TextBytes(text, codec)));
    assert (iv1 + ct1)[..16] == iv1 && (iv2 + ct2)[..16] == iv2;
    AesRoundTrip(text, key, iv1, codec, p, env);
    AesRoundTrip(text, key, iv2, codec, p, env);
  }

  /** A token whose payload is shorter than an IV fails inside the cipher, as a
      logged error, never as something else. */
  lemma TruncatedTokenFails(token: string, key: Option<string>, p: Primitives, env: Env)
    requires ResolveKey(key, AesKeyName, env).Some?
    requires Cbc.ValidKeyLength(|Utf8.Encode(ResolveKey(key, AesKeyName, env).value)|)
    requires Base64.Decode(token).Some? && |Base64.Decode(token).value| < 16
    ensures AesDecrypt(Str(token), key, p, env) == Err(LoggedError(IvLengthInvalid))
  {
  }

  /** With a key of the wrong length, `aes_encrypt` refuses before any cipher call
      (not logged), while `aes_decrypt` fails inside the cipher (logged). */
  lemma KeyLengthChecks(text: Value, token: string, key: string, iv: Cbc.Block, codec: Codec, p: Primitives, env: Env)
    requires key != "" && !Cbc.ValidKeyLength(|Utf8.Encode(key)|)
    requires Base64.Decode(token).Some?
    ensures AesEncrypt(text, Some(key), iv, codec, p, env) == Err(KeyLengthInvalid)
    ensures AesDecrypt(Str(token), Some(key), p, env) == Err(LoggedError(CipherKeyInvalid))
  {
  }

  /** `rsa_encrypt`: a missing public key raises before any library call; import
      and OAEP failures propagate unlogged. */
  function RsaEncrypt(text: Value, publicKey: Option<string>, codec: Codec, p: Primitives, env: Env): (r: Result<string>)
    ensures ResolveKey(publicKey, RsaPublicKeyName, env).None? <==> r == Err(KeyMissing(RsaPublicKeyName))
    ensures r.Err? ==> r.error == KeyMissing(RsaPublicKeyName) || r.error == RsaFailure
  {
    match ResolveKey(publicKey, RsaPublicKeyName, env)
    case None => Err(KeyMissing(RsaPublicKeyName))
    case Some(k) =>
      if !p.rsaImport(k) then Err(RsaFailure)
      else match p.oaepEncrypt(k, TextBytes(text, codec))
        case None => Err(RsaFailure)
        case Some(c) => Ok(Base64.Encode(c))
  }

  /** `rsa_decrypt`: a missing private key raises as is; the rest runs in `try`,
      so every other failure is logged and re-raised. */
  function RsaDecrypt(token: Value, privateKey: Option<string>, p: Primitives, env: Env): (r: Result<string>)
    ensures ResolveKey(privateKey, RsaPrivateKeyName, env).None? <==> r == Err(KeyMissing(RsaPrivateKeyName))
    ensures r.Err? && r.error != KeyMissing(RsaPrivateKeyName) ==> r.error.LoggedError?
  {
    match ResolveKey(privateKey, RsaPrivateKeyName, env)
    case None => Err(KeyMissing(RsaPrivateKeyName))
    case Some(k) =>
      if !token.Str? then Err(LoggedError(TypeError))
      else match Base64.Decode(token.s)
        case None => Err(LoggedError(Base64Invalid))
        case Some(c) =>
          if !p.rsaImport(k) then Err(LoggedError(RsaFailure))
          else match p.oaepDecrypt(k, c)
            case None => Err(LoggedError(RsaFailure))
            case Some(m) =>
              match Utf8.Decode(m)
              case None => Err(LoggedError(Utf8Invalid))
              case Some(s) => Ok(s)
  }

  /** `sign`: SHA-256 of the UTF-8 text, signed with PKCS#1 v1.5, base64. */
  function Sign(text: Value, privateKey: Option<string>, codec: Codec, p: Primitives, env: Env): (r: Result<string>)
    ensures ResolveKey(privateKey, RsaPrivateKeyName, env).None? <==> r == Err(KeyMissing(RsaPrivateKeyName))
    ensures r.Err? ==> r.error == KeyMissing(RsaPrivateKeyName) || r.error == RsaFailure
  {
    match ResolveKey(privateKey, RsaPrivateKeyName, env)
    case None => Err(KeyMissing(RsaPrivateKeyName))
    case Some(k) =>
      if !p.rsaImport(k) then Err(RsaFailure)
      else match p.pkcs1Sign(k, p.sha256(TextBytes(text, codec)))
        case None => Err(RsaFailure)
        case Some(s) => Ok(Base64.Encode(s))
  }

  /** `verify_sign`: never raises. False when the key or the signature is missing
      or when anything in the check fails; true only when the verifier accepts the
      decoded signature for the SHA-256 of the text. */
  function VerifySign(text: Value, signature: Value, publicKey: Option<string>, codec: Codec, p: Primitives, env: Env): (r: bool)
    ensures ResolveKey(publicKey, RsaPublicKeyName, env).None? || !Truthy(signature) ==> !r
    ensures r ==> p.rsaImport(ResolveKey(publicKey, RsaPublicKeyName, env).value)
    ensures r ==> signature.Str? && Base64.Decode(signature.s).Some? &&
                  p.pkcs1Verify(ResolveKey(publicKey, RsaPublicKeyName, env).value,
                                p.sha256(TextBytes(text, codec)), Base64.Decode(signature.s).value)
  {
    match ResolveKey(publicKey, RsaPublicKeyName, env)
    case None => false
    case Some(k) =>
      if !Truthy(signature) then false
      else if !p.rsaImport(k) then false
      else if !signature.Str? then false
      else match Base64.Decode(signature.s)
        case None => false
        case Some(sig) => p.pkcs1Verify(k, p.sha256(TextBytes(text, codec)), sig)
  }

  /** RSA-OAEP round trip with a key pair. */
  lemma RsaRoundTrip(text: Value, pub: string, priv: string, codec: Codec, p: Primitives, env: Env)
    requires Lawful(p) && p.keyPair(pub, priv) && pub != "" && priv != ""
    requires RsaEncrypt(text, Some(pub), codec, p, env).Ok?
    ensures RsaDecrypt(Str(RsaEncrypt(text, Some(pub), codec, p, env).value), Some(priv), p, env) == Ok(Text(codec, text))
  {
    var m := TextBytes(text, codec);
    var c := p.oaepEncrypt(pub, m).value;
    assert RsaEncrypt(text, Some(pub), codec, p, env) == Ok(Base64.Encode(c));
    Base64.DecodeEncode(c);
    assert p.rsaImport(priv) && p.oaepDecrypt(priv, c) == Some(m);
    Utf8.DecodeEncode(Text(codec, text));
  }

  /** A signature made with the private key verifies with the matching public key. */
  lemma SignThenVerify(text: Value, pub: string, priv: string, codec: Codec, p: Primitives, env: Env)
    requires Lawful(p) && p.keyPair(pub, priv) && pub != "" && priv != ""
    requires Sign(text, Some(priv), codec, p, env).Ok?
    ensures VerifySign(text, Str(Sign(text, Some(priv), codec, p, env).value), Some(pub), codec, p, env)
  {
    var d := p.sha256(TextBytes(text, codec));
    var s := p.pkcs1Sign(priv, d).value;
    Base64.DecodeEncode(s);
    Base64.EncodeLength(s);
  }
}
