/**
 * The boundary to the foreign cryptographic libraries that src/encryption.rs calls.
 *
 * Each primitive is a field of `Primitives`, an uninterpreted total function; the
 * round-trip facts the libraries guarantee are collected in `Sound`, which the lemmas of
 * the model take as a hypothesis instead of an axiom. `ToySound` exhibits one instance
 * that satisfies `Sound`, so the hypothesis is consistent.
 */
module CryptoPrimitives {
  import opened Errors
  import Base64

  const AesKeySize: nat := 32
  const NonceSize: nat := 12
  const DigestSize: nat := 32

  /** A 256-bit AES key, as `Key::<Aes256Gcm>::from_slice` accepts it. */
  type AesKey = s: Bytes | |s| == AesKeySize witness seq(32, i => 0)

  /** A 96-bit GCM nonce, as `Nonce::from_slice` accepts it. */
  type Nonce = s: Bytes | |s| == NonceSize witness seq(12, i => 0)

  /** A SHA-256 output. */
  type Digest = s: Bytes | |s| == DigestSize witness seq(32, i => 0)

  /** Key values of the `rsa` crate, identified by their PKCS#8 / SPKI DER bytes. */
  datatype RsaPrivateKey = RsaPrivateKey(der: Bytes)
  datatype RsaPublicKey = RsaPublicKey(der: Bytes)

  datatype Primitives = Primitives(
    /** `Aes256Gcm::encrypt(nonce, plaintext)`: ciphertext with tag, or an error. */
    aesSeal: (AesKey, Nonce, Bytes) -> Option<Bytes>,
    /** `Aes256Gcm::decrypt(nonce, ciphertext)`: fails when the tag does not verify. */
    aesOpen: (AesKey, Nonce, Bytes) -> Option<Bytes>,
    /** `RsaPrivateKey::new(rng, bits)`, given the random bytes the generator draws. */
    rsaGenerate: (nat, Bytes) -> Option<RsaPrivateKey>,
    /** `RsaPublicKey::from(&private_key)`. */
    rsaPublicOf: RsaPrivateKey -> RsaPublicKey,
    /** `public_key.encrypt(rng, Pkcs1v15Encrypt, plaintext)`, given the padding randomness. */
    rsaEncrypt: (RsaPublicKey, Bytes, Bytes) -> Option<Bytes>,
    /** `private_key.decrypt(Pkcs1v15Encrypt, ciphertext)`. */
    rsaDecrypt: (RsaPrivateKey, Bytes) -> Option<Bytes>,
    /** `to_pkcs8_pem(LineEnding::LF)`. */
    pkcs8Encode: RsaPrivateKey -> Option<string>,
    /** `RsaPrivateKey::from_pkcs8_pem`. */
    pkcs8Decode: string -> Option<RsaPrivateKey>,
    /** `to_public_key_pem(LineEnding::LF)`. */
    spkiEncode: RsaPublicKey -> Option<string>,
    /** `pbkdf2_hmac::<Sha256>(password, salt, iterations, &mut key)` with a 32-byte key buffer. */
    pbkdf2: (Bytes, Bytes, nat) -> AesKey,
    /** `Sha256::digest`. */
    sha256: Bytes -> Digest,
    /** `str::as_bytes`. */
    utf8Encode: string -> Bytes,
    /** `String::from_utf8`: fails on bytes that are not UTF-8. */
    utf8Decode: Bytes -> Option<string>
  )

  /** What the libraries promise: each decryption or decoding inverts its encryption or encoding. */
  ghost predicate Sound(p: Primitives) {
    && (forall k, n, m :: p.aesSeal(k, n, m).Some? ==> p.aesOpen(k, n, p.aesSeal(k, n, m).value) == Some(m))
    && (forall sk, r, m ::
          p.rsaEncrypt(p.rsaPublicOf(sk), r, m).Some? ==>
            p.rsaDecrypt(sk, p.rsaEncrypt(p.rsaPublicOf(sk), r, m).value) == Some(m))
    && (forall sk :: p.pkcs8Encode(sk).Some? ==> p.pkcs8Decode(p.pkcs8Encode(sk).value) == Some(sk))
    && (forall s :: p.utf8Decode(p.utf8Encode(s)) == Some(s))
  }

  // ----- a consistent instance -----

  /** Toy text encoding: three big-endian bytes per character. */
  function ToyEncodeText(s: string): Bytes {
    if s == [] then []
    else
      var v := s[0] as int;
      var b0: Byte := v / 65536;
      var b1: Byte := (v / 256) % 256;
      var b2: Byte := v % 256;
      [b0, b1, b2] + ToyEncodeText(s[1..])
  }

  predicate IsScalar(v: int) {
    0 <= v < 0xD800 || 0xE000 <= v < 0x11_0000
  }

  function ToyDecodeText(b: Bytes): Option<string>
    decreases |b|
  {
    if |b| == 0 then Some([])
    else if |b| < 3 then None
    else
      var v := b[0] as int * 65536 + b[1] as int * 256 + b[2] as int;
      if !IsScalar(v) then None
      else
        match ToyDecodeText(b[3..])
        case None => None
        case Some(rest) => Some([v as char] + rest)
  }

  lemma {:induction false} ToyTextRoundTrip(s: string)
    ensures ToyDecodeText(ToyEncodeText(s)) == Some(s)
  {
    if s != [] {
      var v := s[0] as int;
      var e := ToyEncodeText(s);
      assert e[3..] == ToyEncodeText(s[1..]);
      assert e[0] as int * 65536 + e[1] as int * 256 + e[2] as int == v;
      ToyTextRoundTrip(s[1..]);
      assert s == [s[0]] + s[1..];
    }
  }

  function ToyOpen(k: AesKey, n: Nonce, c: Bytes): Option<Bytes> {
    if |c| >= 44 && c[..32] == k && c[32..44] == n then Some(c[44..]) else None
  }

  function ToyRsaDecrypt(sk: RsaPrivateKey, c: Bytes): Option<Bytes> {
    if |c| >= |sk.der| && c[..|sk.der|] == sk.der then Some(c[|sk.der|..]) else None
  }

  function ToyPemDecode(s: string): Option<RsaPrivateKey> {
    match Base64.Decode(s)
    case Some(b) => Some(RsaPrivateKey(b))
    case None => None
  }

  function ToyPrimitives(): Primitives {
    Primitives(
      (k: AesKey, n: Nonce, m: Bytes) => Some(k + n + m),
      ToyOpen,
      (bits: nat, r: Bytes) => Some(RsaPrivateKey(r)),
      (sk: RsaPrivateKey) => RsaPublicKey(sk.der),
      (pk: RsaPublicKey, r: Bytes, m: Bytes) => Some(pk.der + m),
      ToyRsaDecrypt,
      (sk: RsaPrivateKey) => Some(Base64.Encode(sk.der)),
      ToyPemDecode,
      (pk: RsaPublicKey) => Some(Base64.Encode(pk.der)),
      (pw: Bytes, salt: Bytes, n: nat) => seq(32, i => 0),
      (b: Bytes) => seq(32, i => 0),
      ToyEncodeText,
      ToyDecodeText)
  }

  /** `Sound` can be met: the hypotheses of the model's lemmas are not contradictory. */
  lemma ToySound()
    ensures Sound(ToyPrimitives())
  {
    var p := ToyPrimitives();
    forall k, n, m ensures p.aesSeal(k, n, m).Some? ==> p.aesOpen(k, n, p.aesSeal(k, n, m).value) == Some(m) {
      var c := k + n + m;
      assert c[..32] == k && c[32..44] == n && c[44..] == m;
    }
    forall sk, r, m
      ensures p.rsaEncrypt(p.rsaPublicOf(sk), r, m).Some? ==>
                p.rsaDecrypt(sk, p.rsaEncrypt(p.rsaPublicOf(sk), r, m).value) == Some(m)
    {
      var c := sk.der + m;
      assert c[..|sk.der|] == sk.der && c[|sk.der|..] == m;
    }
    forall sk ensures p.pkcs8Encode(sk).Some? ==> p.pkcs8Decode(p.pkcs8Encode(sk).value) == Some(sk) {
      Base64.DecodeEncode(sk.der);
    }
    forall s ensures p.utf8Decode(p.utf8Encode(s)) == Some(s) {
      ToyTextRoundTrip(s);
    }
  }
}
