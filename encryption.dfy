/**
 * The envelope-encryption layer of src/encryption.rs: AES-256-GCM under a 32-byte key,
 * RSA with PKCS#1 v1.5 padding for wrapping that key, PKCS#8 PEM import and export, and
 * the hybrid composition of the two.
 *
 * What the source takes from `OsRng` or `thread_rng` (a fresh AES key, a GCM nonce, RSA
 * padding, the bytes RSA key generation consumes, a salt) is a parameter here.
 */
module Encryption {
  import opened Errors
  import opened CryptoPrimitives
  import Base64
  import LowerHex

  const RsaKeyBits: nat := 2048
  const Pbkdf2Iterations: nat := 100_000
  const SaltSize: nat := 16
  const Algorithm: string := "AES-256-GCM"

  type Salt = s: Bytes | |s| == SaltSize witness seq(16, i => 0)

  /** `EncryptedData`: Base64 ciphertext, Base64 nonce and the algorithm tag. */
  datatype EncryptedData = EncryptedData(ciphertext: string, nonce: string, algorithm: string)

  // ----- AES-256-GCM under a raw key: AesEncryptor::encrypt / decrypt -----

  /** Encrypts under `key` with the nonce the OS random source supplied. */
  function Seal(p: Primitives, key: AesKey, nonce: Nonce, plaintext: Bytes): (r: Result<EncryptedData>)
    ensures r.Ok? <==> p.aesSeal(key, nonce, plaintext).Some?
    ensures r.Err? ==> r.error == DeviceFingerprint(AesEncrypt)
    ensures r.Ok? ==> r.value.algorithm == Algorithm
    ensures r.Ok? ==> Base64.Decode(r.value.nonce) == Some(nonce)
    ensures r.Ok? ==> Base64.Decode(r.value.ciphertext) == p.aesSeal(key, nonce, plaintext)
  {
    match p.aesSeal(key, nonce, plaintext)
    case None => Err(DeviceFingerprint(AesEncrypt))
    case Some(c) =>
      Base64.DecodeEncode(c);
      Base64.DecodeEncode(nonce);
      Ok(EncryptedData(Base64.Encode(c), Base64.Encode(nonce), Algorithm))
  }

  /**
   * Decrypts under `key`. The algorithm tag is checked before anything is decoded; a
   * nonce that does not decode to 12 bytes makes `Nonce::from_slice` panic.
   */
  function Open(p: Primitives, key: AesKey, data: EncryptedData): (r: Result<Bytes>)
    ensures data.algorithm != Algorithm ==> r == Err(DeviceFingerprint(UnsupportedAlgorithm(data.algorithm)))
    ensures data.algorithm == Algorithm && Base64.Decode(data.nonce).None? ==> r == Err(DeviceFingerprint(NonceDecode))
    ensures data.algorithm == Algorithm && Base64.Decode(data.nonce).Some? && Base64.Decode(data.ciphertext).None? ==>
              r == Err(DeviceFingerprint(CiphertextDecode))
    ensures data.algorithm == Algorithm && Base64.Decode(data.nonce).Some? && Base64.Decode(data.ciphertext).Some? &&
            |Base64.Decode(data.nonce).value| != NonceSize ==>
              r == Err(Panic(NonceLength(|Base64.Decode(data.nonce).value|)))
    ensures r.Ok? ==>
              && data.algorithm == Algorithm
              && Base64.Decode(data.nonce).Some? && |Base64.Decode(data.nonce).value| == NonceSize
              && Base64.Decode(data.ciphertext).Some?
              && p.aesOpen(key, Base64.Decode(data.nonce).value, Base64.Decode(data.ciphertext).value) == Some(r.value)
  {
    if data.algorithm != Algorithm then
      Err(DeviceFingerprint(UnsupportedAlgorithm(data.algorithm)))
    else
      var nonce :- Base64.Decode(data.nonce).ToResult(DeviceFingerprint(NonceDecode));
      var ciphertext :- Base64.Decode(data.ciphertext).ToResult(DeviceFingerprint(CiphertextDecode));
      if |nonce| != NonceSize then
        Err(Panic(NonceLength(|nonce|)))
      else
        p.aesOpen(key, nonce, ciphertext).ToResult(DeviceFingerprint(AesDecrypt))
  }

  /** `decrypt_string`: decryption followed by UTF-8 decoding. */
  function OpenString(p: Primitives, key: AesKey, data: EncryptedData): (r: Result<string>)
    ensures r.Ok? ==> Open(p, key, data).Ok? && p.utf8Decode(Open(p, key, data).value) == Some(r.value)
    ensures Open(p, key, data).Err? ==> r == Err(Open(p, key, data).error)
  {
    var plaintext :- Open(p, key, data);
    p.utf8Decode(plaintext).ToResult(DeviceFingerprint(Utf8Decode))
  }

  /** The key `from_password` derives: PBKDF2-HMAC-SHA256 with 100 000 iterations into 32 bytes. */
  function DeriveKey(p: Primitives, password: string, salt: Bytes): AesKey {
    p.pbkdf2(p.utf8Encode(password), salt, Pbkdf2Iterations)
  }

  /** What `encrypt` produces, `decrypt` under the same key gives back. */
  lemma SealOpen(p: Primitives, key: AesKey, nonce: Nonce, plaintext: Bytes)
    requires Sound(p)
    requires Seal(p, key, nonce, plaintext).Ok?
    ensures Open(p, key, Seal(p, key, nonce, plaintext).value) == Ok(plaintext)
  {
    var c := p.aesSeal(key, nonce, plaintext).value;
    assert p.aesOpen(key, nonce, c) == Some(plaintext);
  }

  /** `decrypt_string(encrypt_string(s)) == s` under one key. */
  lemma SealOpenString(p: Primitives, key: AesKey, nonce: Nonce, s: string)
    requires Sound(p)
    requires Seal(p, key, nonce, p.utf8Encode(s)).Ok?
    ensures OpenString(p, key, Seal(p, key, nonce, p.utf8Encode(s)).value) == Ok(s)
  {
    SealOpen(p, key, nonce, p.utf8Encode(s));
  }

  /** A tag other than "AES-256-GCM" is refused whatever the nonce and ciphertext hold. */
  lemma OpenChecksTagFirst(p: Primitives, key: AesKey, data: EncryptedData, nonce: string, ciphertext: string)
    requires data.algorithm != Algorithm
    ensures Open(p, key, data) == Open(p, key, data.(nonce := nonce, ciphertext := ciphertext))
    ensures Open(p, key, data).Err?
  {
  }

  // ----- AesEncryptor -----

  /** An AES-256-GCM encryptor owning one key; valid while the key has 32 bytes. */
  class AesEncryptor {
    var key: Bytes

    ghost predicate Valid()
      reads this
    {
      |key| == AesKeySize
    }

    constructor (k: AesKey)
      ensures Valid() && key == k
    {
      key := k;
    }

    /** `AesEncryptor::new`: a 32-byte buffer filled from the OS random source. */
    static method New(random: AesKey) returns (r: Result<AesEncryptor>)
      ensures r.Ok?
      ensures fresh(r.value) && r.value.Valid() && r.value.key == random
    {
      var e := new AesEncryptor(random);
      return Ok(e);
    }

    /** `from_key`: only a key of exactly 32 bytes builds an encryptor. */
    static method FromKey(k: Bytes) returns (r: Result<AesEncryptor>)
      ensures r.Ok? <==> |k| == AesKeySize
      ensures r.Ok? ==> fresh(r.value) && r.value.Valid() && r.value.key == k
      ensures r.Ok? ==> r.value.GetKey() == k
      ensures r.Err? ==> r.error == DeviceFingerprint(InvalidKeyLength(|k|))
    {
      if |k| != AesKeySize {
        return Err(DeviceFingerprint(InvalidKeyLength(|k|)));
      }
      var e := new AesEncryptor(k);
      return Ok(e);
    }

    /** `from_password`: the key PBKDF2 fills into a 32-byte buffer. */
    static method FromPassword(p: Primitives, password: string, salt: Bytes) returns (r: Result<AesEncryptor>)
      ensures r.Ok?
      ensures fresh(r.value) && r.value.Valid() && r.value.key == DeriveKey(p, password, salt)
    {
      var e := new AesEncryptor(DeriveKey(p, password, salt));
      return Ok(e);
    }

    /** `get_key`: a copy of the key. */
    function GetKey(): AesKey
      reads this
      requires Valid()
    {
      key
    }

    /** `encrypt`: what it returns, `decrypt` on the same encryptor gives back. */
    function Encrypt(p: Primitives, nonce: Nonce, plaintext: Bytes): (r: Result<EncryptedData>)
      reads this
      requires Valid()
      ensures Sound(p) && r.Ok? ==> Decrypt(p, r.value) == Ok(plaintext)
    {
      assert Sound(p) && Seal(p, key, nonce, plaintext).Ok? ==> Open(p, key, Seal(p, key, nonce, plaintext).value) == Ok(plaintext) by {
        if Sound(p) && Seal(p, key, nonce, plaintext).Ok? {
          SealOpen(p, key, nonce, plaintext);
        }
      }
      Seal(p, key, nonce, plaintext)
    }

    function Decrypt(p: Primitives, data: EncryptedData): Result<Bytes>
      reads this
      requires Valid()
    {
      Open(p, key, data)
    }

    /** `encrypt_string`: what it returns, `decrypt_string` on the same encryptor gives back. */
    function EncryptString(p: Primitives, nonce: Nonce, plaintext: string): (r: Result<EncryptedData>)
      reads this
      requires Valid()
      ensures Sound(p) && r.Ok? ==> DecryptString(p, r.value) == Ok(plaintext)
    {
      assert Sound(p) && Seal(p, key, nonce, p.utf8Encode(plaintext)).Ok? ==>
               OpenString(p, key, Seal(p, key, nonce, p.utf8Encode(plaintext)).value) == Ok(plaintext) by {
        if Sound(p) && Seal(p, key, nonce, p.utf8Encode(plaintext)).Ok? {
          SealOpenString(p, key, nonce, plaintext);
        }
      }
      Encrypt(p, nonce, p.utf8Encode(plaintext))
    }

    function DecryptString(p: Primitives, data: EncryptedData): Result<string>
      reads this
      requires Valid()
    {
      OpenString(p, key, data)
    }

    /** `Drop`: `zeroize` leaves the key empty; the overwrite of the freed bytes is not modelled. */
    method Drop()
      modifies this
      ensures key == [] && !Valid()
    {
      key := [];
    }
  }

  /**
   * test_password_based_encryption: two encryptors derived from the same password and salt
   * hold the same key, so each decrypts what the other encrypted.
   */
  lemma PasswordEncryptorsAgree(p: Primitives, e1: AesEncryptor, e2: AesEncryptor, password: string, salt: Bytes,
                                nonce: Nonce, s: string)
    requires Sound(p)
    requires e1.Valid() && e2.Valid()
    requires e1.key == DeriveKey(p, password, salt) && e2.key == DeriveKey(p, password, salt)
    requires e1.EncryptString(p, nonce, s).Ok?
    ensures e2.DecryptString(p, e1.EncryptString(p, nonce, s).value) == Ok(s)
  {
    SealOpenString(p, e1.key, nonce, s);
  }

  // ----- RsaKeyPair -----

  /** `RsaKeyPair`: the private key; the public half is derived from it. */
  datatype RsaKeyPair = RsaKeyPair(privateKey: RsaPrivateKey) {
    function PublicKey(p: Primitives): RsaPublicKey {
      p.rsaPublicOf(privateKey)
    }
  }

  /** `RsaKeyPair::generate`: a 2048-bit key from the random source `seed`. */
  function GenerateKeyPair(p: Primitives, seed: Bytes): (r: Result<RsaKeyPair>)
    ensures r.Ok? <==> p.rsaGenerate(RsaKeyBits, seed).Some?
    ensures r.Ok? ==> Some(r.value.privateKey) == p.rsaGenerate(RsaKeyBits, seed)
    ensures r.Err? ==> r.error == DeviceFingerprint(RsaKeyGeneration)
  {
    var sk :- p.rsaGenerate(RsaKeyBits, seed).ToResult(DeviceFingerprint(RsaKeyGeneration));
    Ok(RsaKeyPair(sk))
  }

  /** `RsaKeyPair::from_pem`: PKCS#8 PEM import. */
  function KeyPairFromPem(p: Primitives, pem: string): (r: Result<RsaKeyPair>)
    ensures r.Ok? <==> p.pkcs8Decode(pem).Some?
    ensures r.Ok? ==> Some(r.value.privateKey) == p.pkcs8Decode(pem)
    ensures r.Err? ==> r.error == DeviceFingerprint(PemImport)
  {
    var sk :- p.pkcs8Decode(pem).ToResult(DeviceFingerprint(PemImport));
    Ok(RsaKeyPair(sk))
  }

  /** `RsaKeyPair::to_pem`: PKCS#8 PEM export of the private key. */
  function KeyPairToPem(p: Primitives, kp: RsaKeyPair): (r: Result<string>)
    ensures r.Ok? <==> p.pkcs8Encode(kp.privateKey).Some?
    ensures r.Err? ==> r.error == DeviceFingerprint(PemExport)
  {
    p.pkcs8Encode(kp.privateKey).ToResult(DeviceFingerprint(PemExport))
  }

  /** `RsaKeyPair::public_key_to_pem`: SPKI PEM export of the public key. */
  function PublicKeyToPem(p: Primitives, kp: RsaKeyPair): (r: Result<string>)
    ensures r.Ok? <==> p.spkiEncode(kp.PublicKey(p)).Some?
    ensures r.Err? ==> r.error == DeviceFingerprint(PublicPemExport)
  {
    p.spkiEncode(kp.PublicKey(p)).ToResult(DeviceFingerprint(PublicPemExport))
  }

  /** Exporting a pair to PEM and importing it again gives back the same pair. */
  lemma PemRoundTrip(p: Primitives, kp: RsaKeyPair)
    requires Sound(p)
    requires KeyPairToPem(p, kp).Ok?
    ensures KeyPairFromPem(p, KeyPairToPem(p, kp).value) == Ok(kp)
  {
    assert p.pkcs8Decode(p.pkcs8Encode(kp.privateKey).value) == Some(kp.privateKey);
  }

  // ----- RsaEncryptor -----

  /** `RsaEncryptor`: RSA with PKCS#1 v1.5 padding under one key pair. */
  datatype RsaEncryptor = RsaEncryptor(keyPair: RsaKeyPair) {

    /** `encrypt`, with the padding randomness the thread generator supplies. */
    function Encrypt(p: Primitives, padding: Bytes, plaintext: Bytes): (r: Result<Bytes>)
      ensures r.Ok? <==> p.rsaEncrypt(keyPair.PublicKey(p), padding, plaintext).Some?
      ensures r.Err? ==> r.error == DeviceFingerprint(RsaEncrypt)
    {
      p.rsaEncrypt(keyPair.PublicKey(p), padding, plaintext).ToResult(DeviceFingerprint(RsaEncrypt))
    }

    function Decrypt(p: Primitives, ciphertext: Bytes): (r: Result<Bytes>)
      ensures r.Ok? <==> p.rsaDecrypt(keyPair.privateKey, ciphertext).Some?
      ensures r.Err? ==> r.error == DeviceFingerprint(RsaDecrypt)
    {
      p.rsaDecrypt(keyPair.privateKey, ciphertext).ToResult(DeviceFingerprint(RsaDecrypt))
    }

    /** `encrypt_string`: the Base64 text of the RSA ciphertext of the UTF-8 bytes. */
    function EncryptString(p: Primitives, padding: Bytes, plaintext: string): (r: Result<string>)
      ensures r.Ok? <==> Encrypt(p, padding, p.utf8Encode(plaintext)).Ok?
      ensures r.Ok? ==> Base64.Decode(r.value) == Some(Encrypt(p, padding, p.utf8Encode(plaintext)).value)
      ensures r.Err? ==> r.error == DeviceFingerprint(RsaEncrypt)
    {
      var ciphertext :- Encrypt(p, padding, p.utf8Encode(plaintext));
      Base64.DecodeEncode(ciphertext);
      Ok(Base64.Encode(ciphertext))
    }

    function DecryptString(p: Primitives, ciphertextB64: string): (r: Result<string>)
      ensures Base64.Decode(ciphertextB64).None? ==> r == Err(DeviceFingerprint(Base64Decode))
      ensures r.Ok? ==> Base64.Decode(ciphertextB64).Some? &&
                        Decrypt(p, Base64.Decode(ciphertextB64).value).Ok? &&
                        p.utf8Decode(Decrypt(p, Base64.Decode(ciphertextB64).value).value) == Some(r.value)
    {
      var ciphertext :- Base64.Decode(ciphertextB64).ToResult(DeviceFingerprint(Base64Decode));
      var plaintext :- Decrypt(p, ciphertext);
      p.utf8Decode(plaintext).ToResult(DeviceFingerprint(Utf8Decode))
    }

    /** `public_key_pem`: the SPKI export of the public half, which fails only when encoding does. */
    function PublicKeyPem(p: Primitives): (r: Result<string>)
      ensures r.Ok? <==> p.spkiEncode(keyPair.PublicKey(p)).Some?
      ensures r.Ok? ==> Some(r.value) == p.spkiEncode(keyPair.PublicKey(p))
      ensures r.Err? ==> r.error == DeviceFingerprint(PublicPemExport)
    {
      PublicKeyToPem(p, keyPair)
    }

    /** `private_key_pem`: a PKCS#8 export that imports back to this encryptor's own pair. */
    function PrivateKeyPem(p: Primitives): (r: Result<string>)
      ensures r.Ok? <==> p.pkcs8Encode(keyPair.privateKey).Some?
      ensures r.Err? ==> r.error == DeviceFingerprint(PemExport)
      ensures Sound(p) && r.Ok? ==> KeyPairFromPem(p, r.value) == Ok(keyPair)
    {
      assert Sound(p) && KeyPairToPem(p, keyPair).Ok? ==> KeyPairFromPem(p, KeyPairToPem(p, keyPair).value) == Ok(keyPair) by {
        if Sound(p) && KeyPairToPem(p, keyPair).Ok? {
          PemRoundTrip(p, keyPair);
        }
      }
      KeyPairToPem(p, keyPair)
    }

    /** `encrypt_aes_key`: wraps key bytes under the public key, as Base64 text. */
    function EncryptAesKey(p: Primitives, padding: Bytes, aesKey: Bytes): (r: Result<string>)
      ensures r.Ok? <==> Encrypt(p, padding, aesKey).Ok?
      ensures r.Ok? ==> Base64.Decode(r.value) == Some(Encrypt(p, padding, aesKey).value)
      ensures r.Err? ==> r.error == DeviceFingerprint(RsaEncrypt)
    {
      var encrypted :- Encrypt(p, padding, aesKey);
      Base64.DecodeEncode(encrypted);
      Ok(Base64.Encode(encrypted))
    }

    /** `decrypt_aes_key`: unwraps Base64 text with the private key. */
    function DecryptAesKey(p: Primitives, encryptedKeyB64: string): (r: Result<Bytes>)
      ensures Base64.Decode(encryptedKeyB64).None? ==> r == Err(DeviceFingerprint(Base64Decode))
      ensures r.Ok? ==> Base64.Decode(encryptedKeyB64).Some? &&
                        p.rsaDecrypt(keyPair.privateKey, Base64.Decode(encryptedKeyB64).value) == Some(r.value)
    {
      var encrypted :- Base64.Decode(encryptedKeyB64).ToResult(DeviceFingerprint(Base64Decode));
      Decrypt(p, encrypted)
    }
  }

  /** `RsaEncryptor::new`: an encryptor over a freshly generated pair. */
  function NewRsaEncryptor(p: Primitives, seed: Bytes): (r: Result<RsaEncryptor>)
    ensures r.Ok? <==> GenerateKeyPair(p, seed).Ok?
    ensures r.Ok? ==> r.value.keyPair == GenerateKeyPair(p, seed).value
  {
    var kp :- GenerateKeyPair(p, seed);
    Ok(RsaEncryptor(kp))
  }

  /** RSA decryption inverts RSA encryption under one pair. */
  lemma RsaRoundTrip(p: Primitives, rsa: RsaEncryptor, padding: Bytes, plaintext: Bytes)
    requires Sound(p)
    requires rsa.Encrypt(p, padding, plaintext).Ok?
    ensures rsa.Decrypt(p, rsa.Encrypt(p, padding, plaintext).value) == Ok(plaintext)
  {
    var sk := rsa.keyPair.privateKey;
    assert p.rsaDecrypt(sk, p.rsaEncrypt(p.rsaPublicOf(sk), padding, plaintext).value) == Some(plaintext);
  }

  /** `decrypt_aes_key(encrypt_aes_key(k)) == k` for one key pair. */
  lemma WrapUnwrap(p: Primitives, rsa: RsaEncryptor, padding: Bytes, aesKey: Bytes)
    requires Sound(p)
    requires rsa.EncryptAesKey(p, padding, aesKey).Ok?
    ensures rsa.DecryptAesKey(p, rsa.EncryptAesKey(p, padding, aesKey).value) == Ok(aesKey)
  {
    RsaRoundTrip(p, rsa, padding, aesKey);
  }

  /** test_rsa_encryption: `decrypt_string(encrypt_string(s)) == s`. */
  lemma RsaStringRoundTrip(p: Primitives, rsa: RsaEncryptor, padding: Bytes, s: string)
    requires Sound(p)
    requires rsa.EncryptString(p, padding, s).Ok?
    ensures rsa.DecryptString(p, rsa.EncryptString(p, padding, s).value) == Ok(s)
  {
    RsaRoundTrip(p, rsa, padding, p.utf8Encode(s));
  }

  /**
   * test_key_pem_export_import: a pair re-imported from the original's own PEM decrypts
   * what the original encrypted.
   */
  lemma PemReimportDecrypts(p: Primitives, original: RsaEncryptor, padding: Bytes, s: string)
    requires Sound(p)
    requires original.PrivateKeyPem(p).Ok?
    requires original.EncryptString(p, padding, s).Ok?
    ensures KeyPairFromPem(p, original.PrivateKeyPem(p).value).Ok?
    ensures RsaEncryptor(KeyPairFromPem(p, original.PrivateKeyPem(p).value).value)
              .DecryptString(p, original.EncryptString(p, padding, s).value) == Ok(s)
  {
    PemRoundTrip(p, original.keyPair);
    RsaStringRoundTrip(p, original, padding, s);
  }

  // ----- hybrid composition: HybridEncryptor -----

  /**
   * What `HybridEncryptor::encrypt` produces: the data sealed under the instance's AES
   * key, and that key wrapped under the RSA public key.
   */
  function HybridSeal(p: Primitives, aesKey: AesKey, rsa: RsaEncryptor, nonce: Nonce, padding: Bytes,
                      plaintext: Bytes): (r: Result<(EncryptedData, string)>)
    ensures r.Ok? <==> Seal(p, aesKey, nonce, plaintext).Ok? && rsa.EncryptAesKey(p, padding, aesKey).Ok?
    ensures r.Ok? ==> r.value.0 == Seal(p, aesKey, nonce, plaintext).value
    ensures r.Ok? ==> r.value.1 == rsa.EncryptAesKey(p, padding, aesKey).value
  {
    var data :- Seal(p, aesKey, nonce, plaintext);
    var wrapped :- rsa.EncryptAesKey(p, padding, aesKey);
    Ok((data, wrapped))
  }

  /** What `HybridEncryptor::decrypt` computes: it needs only the RSA pair. */
  function HybridOpen(p: Primitives, rsa: RsaEncryptor, data: EncryptedData, wrapped: string): (r: Result<Bytes>)
    ensures rsa.DecryptAesKey(p, wrapped).Err? ==> r == Err(rsa.DecryptAesKey(p, wrapped).error)
    ensures rsa.DecryptAesKey(p, wrapped).Ok? && |rsa.DecryptAesKey(p, wrapped).value| != AesKeySize ==>
              r == Err(DeviceFingerprint(InvalidKeyLength(|rsa.DecryptAesKey(p, wrapped).value|)))
    ensures r.Ok? ==> rsa.DecryptAesKey(p, wrapped).Ok? && |rsa.DecryptAesKey(p, wrapped).value| == AesKeySize &&
                      Open(p, rsa.DecryptAesKey(p, wrapped).value, data) == r
  {
    var k :- rsa.DecryptAesKey(p, wrapped);
    if |k| != AesKeySize then Err(DeviceFingerprint(InvalidKeyLength(|k|))) else Open(p, k, data)
  }

  /** What `HybridEncryptor::decrypt_string` computes. */
  function HybridOpenString(p: Primitives, rsa: RsaEncryptor, data: EncryptedData, wrapped: string): (r: Result<string>)
    ensures r.Ok? ==> HybridOpen(p, rsa, data, wrapped).Ok? &&
                      p.utf8Decode(HybridOpen(p, rsa, data, wrapped).value) == Some(r.value)
    ensures HybridOpen(p, rsa, data, wrapped).Err? ==> r == Err(HybridOpen(p, rsa, data, wrapped).error)
  {
    var plaintext :- HybridOpen(p, rsa, data, wrapped);
    p.utf8Decode(plaintext).ToResult(DeviceFingerprint(Utf8Decode))
  }

  /** The wrapped key that `encrypt` returns unwraps to the instance's AES key. */
  lemma HybridKeyUnwraps(p: Primitives, aesKey: AesKey, rsa: RsaEncryptor, nonce: Nonce, padding: Bytes, plaintext: Bytes)
    requires Sound(p)
    requires HybridSeal(p, aesKey, rsa, nonce, padding, plaintext).Ok?
    ensures rsa.DecryptAesKey(p, HybridSeal(p, aesKey, rsa, nonce, padding, plaintext).value.1) == Ok(aesKey)
  {
    WrapUnwrap(p, rsa, padding, aesKey);
  }

  /**
   * One instance seals every message under the same AES key, so the wrapped key from one
   * call opens the data of any other call of that instance.
   */
  lemma SharedKeyOpens(p: Primitives, aesKey: AesKey, rsa: RsaEncryptor, nonce1: Nonce, padding1: Bytes, plaintext1: Bytes,
                       nonce2: Nonce, padding2: Bytes, plaintext2: Bytes)
    requires Sound(p)
    requires HybridSeal(p, aesKey, rsa, nonce1, padding1, plaintext1).Ok?
    requires HybridSeal(p, aesKey, rsa, nonce2, padding2, plaintext2).Ok?
    ensures HybridOpen(p, rsa, HybridSeal(p, aesKey, rsa, nonce2, padding2, plaintext2).value.0,
                       HybridSeal(p, aesKey, rsa, nonce1, padding1, plaintext1).value.1) == Ok(plaintext2)
  {
    HybridKeyUnwraps(p, aesKey, rsa, nonce1, padding1, plaintext1);
    SealOpen(p, aesKey, nonce2, plaintext2);
  }

  /**
   * test_hybrid_encryption: `decrypt_string(encrypt_string(s)) == s`, for every AES key,
   * hence also across two instances that share the RSA pair.
   */
  lemma HybridRoundTrip(p: Primitives, aesKey: AesKey, rsa: RsaEncryptor, nonce: Nonce, padding: Bytes, s: string)
    requires Sound(p)
    requires HybridSeal(p, aesKey, rsa, nonce, padding, p.utf8Encode(s)).Ok?
    ensures HybridOpenString(p, rsa, HybridSeal(p, aesKey, rsa, nonce, padding, p.utf8Encode(s)).value.0,
                             HybridSeal(p, aesKey, rsa, nonce, padding, p.utf8Encode(s)).value.1) == Ok(s)
  {
    SharedKeyOpens(p, aesKey, rsa, nonce, padding, p.utf8Encode(s), nonce, padding, p.utf8Encode(s));
  }

  /** `HybridEncryptor`: one AES encryptor per instance plus an RSA pair wrapping its key. */
  class HybridEncryptor {
    const aes: AesEncryptor
    const rsa: RsaEncryptor

    ghost predicate Valid()
      reads aes
    {
      aes.Valid()
    }

    constructor (aes: AesEncryptor, rsa: RsaEncryptor)
      ensures this.aes == aes && this.rsa == rsa
    {
      this.aes := aes;
      this.rsa := rsa;
    }

    /** `HybridEncryptor::new`: a random AES key, then a freshly generated RSA pair. */
    static method New(p: Primitives, random: AesKey, seed: Bytes) returns (r: Result<HybridEncryptor>)
      ensures r.Ok? <==> GenerateKeyPair(p, seed).Ok?
      ensures r.Err? ==> r.error == DeviceFingerprint(RsaKeyGeneration)
      ensures r.Ok? ==> fresh(r.value) && fresh(r.value.aes) && r.value.Valid() && r.value.aes.key == random
      ensures r.Ok? ==> r.value.rsa == RsaEncryptor(GenerateKeyPair(p, seed).value)
    {
      // `AesEncryptor::new()?` never propagates: it always returns `Ok`.
      var made := AesEncryptor.New(random);
      var aes := made.value;
      var rsa :- NewRsaEncryptor(p, seed);
      var h := new HybridEncryptor(aes, rsa);
      return Ok(h);
    }

    /** `with_rsa_keypair`: a random AES key and the given pair. */
    static method WithRsaKeyPair(random: AesKey, keyPair: RsaKeyPair) returns (r: Result<HybridEncryptor>)
      ensures r.Ok?
      ensures fresh(r.value) && fresh(r.value.aes) && r.value.Valid() && r.value.aes.key == random
      ensures r.value.rsa == RsaEncryptor(keyPair)
    {
      // `AesEncryptor::new()?` never propagates: it always returns `Ok`.
      var made := AesEncryptor.New(random);
      var aes := made.value;
      var h := new HybridEncryptor(aes, RsaEncryptor(keyPair));
      return Ok(h);
    }

    /** `encrypt`: the AES ciphertext and the wrapped AES key of this instance. */
    function Encrypt(p: Primitives, nonce: Nonce, padding: Bytes, plaintext: Bytes): (r: Result<(EncryptedData, string)>)
      reads aes
      requires Valid()
      ensures r == HybridSeal(p, aes.key, rsa, nonce, padding, plaintext)
    {
      HybridSeal(p, aes.GetKey(), rsa, nonce, padding, plaintext)
    }

    /** `encrypt_string`: the blob and wrapped key it returns open back to the text. */
    function EncryptString(p: Primitives, nonce: Nonce, padding: Bytes, plaintext: string): (r: Result<(EncryptedData, string)>)
      reads aes
      requires Valid()
      ensures Sound(p) && r.Ok? ==> HybridOpenString(p, rsa, r.value.0, r.value.1) == Ok(plaintext)
    {
      assert Sound(p) && HybridSeal(p, aes.key, rsa, nonce, padding, p.utf8Encode(plaintext)).Ok? ==>
               HybridOpenString(p, rsa, HybridSeal(p, aes.key, rsa, nonce, padding, p.utf8Encode(plaintext)).value.0,
                                HybridSeal(p, aes.key, rsa, nonce, padding, p.utf8Encode(plaintext)).value.1) == Ok(plaintext) by {
        if Sound(p) && HybridSeal(p, aes.key, rsa, nonce, padding, p.utf8Encode(plaintext)).Ok? {
          HybridRoundTrip(p, aes.key, rsa, nonce, padding, plaintext);
        }
      }
      Encrypt(p, nonce, padding, p.utf8Encode(plaintext))
    }

    /**
     * `decrypt`: unwraps the key, builds a temporary encryptor from it (which checks its
     * length), decrypts, and drops the temporary. The instance's own AES key is not used.
     */
    method Decrypt(p: Primitives, data: EncryptedData, wrapped: string) returns (r: Result<Bytes>)
      ensures r == HybridOpen(p, rsa, data, wrapped)
    {
      var k :- rsa.DecryptAesKey(p, wrapped);
      var temp :- AesEncryptor.FromKey(k);
      r := temp.Decrypt(p, data);
      temp.Drop();
    }

    method DecryptString(p: Primitives, data: EncryptedData, wrapped: string) returns (r: Result<string>)
      ensures r == HybridOpenString(p, rsa, data, wrapped)
    {
      var plaintext :- Decrypt(p, data, wrapped);
      r := p.utf8Decode(plaintext).ToResult(DeviceFingerprint(Utf8Decode));
    }

    /** `public_key_pem`: the SPKI export of the RSA pair's public half. */
    function PublicKeyPem(p: Primitives): (r: Result<string>)
      ensures r.Ok? <==> p.spkiEncode(rsa.keyPair.PublicKey(p)).Some?
      ensures r.Ok? ==> Some(r.value) == p.spkiEncode(rsa.keyPair.PublicKey(p))
      ensures r.Err? ==> r.error == DeviceFingerprint(PublicPemExport)
    {
      rsa.PublicKeyPem(p)
    }

    /** `private_key_pem`: a PKCS#8 export that imports back to this instance's RSA pair. */
    function PrivateKeyPem(p: Primitives): (r: Result<string>)
      ensures r.Ok? <==> p.pkcs8Encode(rsa.keyPair.privateKey).Some?
      ensures r.Err? ==> r.error == DeviceFingerprint(PemExport)
      ensures Sound(p) && r.Ok? ==> KeyPairFromPem(p, r.value) == Ok(rsa.keyPair)
    {
      rsa.PrivateKeyPem(p)
    }
  }

  // ----- free functions -----

  /** `generate_salt`: 16 bytes from the OS random source. */
  function GenerateSalt(random: Salt): Salt {
    random
  }

  /** `hash_sha256`: the digest as 64 lowercase hex digits, which read back to the digest. */
  function HashSha256(p: Primitives, data: Bytes): (h: string)
    ensures |h| == 2 * DigestSize
    ensures forall i | 0 <= i < |h| :: LowerHex.IsLowerHexDigit(h[i])
    ensures LowerHex.Parse(h) == Some(p.sha256(data))
  {
    LowerHex.ParseFormat(p.sha256(data));
    LowerHex.Format(p.sha256(data))
  }
}
