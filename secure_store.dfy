/**
 * src/device/secure.rs: `SecureDeviceManager` over the `secure_devices` table.
 *
 * The table is an object shared by reference, as the source shares one `Arc<Database>`;
 * its rows are a map from `id` (the primary key) to the stored record. Whether the
 * `encrypted_hardware_info` column is declared NOT NULL is a property of the table: the
 * schema that `migrate()` installs declares it so (src/db/schema.rs:31), the table of the
 * test fixture does not (src/device/secure.rs:261).
 */
module SecureStore {
  import opened Errors
  import opened CryptoPrimitives
  import opened Encryption
  import Ordering
  import Table

  /** `SecureDevice`: one row of `secure_devices`. */
  datatype SecureDevice = SecureDevice(
    id: string,
    encryptedFingerprint: EncryptedData,
    encryptedHardwareInfo: Option<EncryptedData>,
    encryptedAesKey: string,
    publicKeyPem: string,
    createdAt: Int64,
    lastSeen: Int64)

  /** The random draws one `create_secure_device` consumes: one hybrid encryption each. */
  datatype Entropy = Entropy(fpNonce: Nonce, fpPadding: Bytes, hwNonce: Nonce, hwPadding: Bytes)

  type Rows = map<string, SecureDevice>

  /** The primary key: every row is stored under its own id. */
  ghost predicate KeyedById(rows: Rows) {
    forall id | id in rows :: rows[id].id == id
  }

  const HardwareInfoColumn: string := "encrypted_hardware_info"

  /** The part of `create_secure_device` before the row is saved. */
  function NewSecureDevice(p: Primitives, aesKey: AesKey, rsa: RsaEncryptor, id: string, fingerprint: string,
                           hardwareInfo: Option<string>, e: Entropy, createdAt: Int64, lastSeen: Int64): (r: Result<SecureDevice>)
    ensures r.Ok? ==> r.value.id == id && r.value.createdAt == createdAt && r.value.lastSeen == lastSeen
    ensures r.Ok? ==> (r.value.encryptedHardwareInfo.None? <==> hardwareInfo.None?)
    ensures r.Ok? ==> Some(r.value.publicKeyPem) == (var pem := rsa.PublicKeyPem(p); if pem.Ok? then Some(pem.value) else None)
  {
    var fp :- HybridSeal(p, aesKey, rsa, e.fpNonce, e.fpPadding, p.utf8Encode(fingerprint));
    var hw :- SealHardwareInfo(p, aesKey, rsa, hardwareInfo, e.hwNonce, e.hwPadding);
    var pem :- rsa.PublicKeyPem(p);
    Ok(SecureDevice(id, fp.0, hw, fp.1, pem, createdAt, lastSeen))
  }

  /** The hardware-info blob: its own hybrid encryption, of which the wrapped key is discarded. */
  function SealHardwareInfo(p: Primitives, aesKey: AesKey, rsa: RsaEncryptor, hardwareInfo: Option<string>,
                            nonce: Nonce, padding: Bytes): (r: Result<Option<EncryptedData>>)
    ensures hardwareInfo.None? ==> r == Ok(None)
    ensures hardwareInfo.Some? ==>
              (r.Ok? <==> HybridSeal(p, aesKey, rsa, nonce, padding, p.utf8Encode(hardwareInfo.value)).Ok?)
    ensures hardwareInfo.Some? && r.Ok? ==>
              HybridSeal(p, aesKey, rsa, nonce, padding, p.utf8Encode(hardwareInfo.value)).Ok? &&
              r.value == Some(HybridSeal(p, aesKey, rsa, nonce, padding, p.utf8Encode(hardwareInfo.value)).value.0)
  {
    match hardwareInfo
    case None => Ok(None)
    case Some(h) =>
      var sealed :- HybridSeal(p, aesKey, rsa, nonce, padding, p.utf8Encode(h));
      Ok(Some(sealed.0))
  }

  /** `save_to_db`: INSERT OR REPLACE keyed by id, subject to the column constraint. */
  function SaveRow(hardwareInfoNotNull: bool, rows: Rows, device: SecureDevice): (r: Result<Rows>)
    ensures r.Ok? <==> !hardwareInfoNotNull || device.encryptedHardwareInfo.Some?
    ensures r.Ok? ==> r.value == rows[device.id := device]
    ensures r.Err? ==> r.error == Database(NotNullConstraint(HardwareInfoColumn))
  {
    if hardwareInfoNotNull && device.encryptedHardwareInfo.None? then
      Err(Database(NotNullConstraint(HardwareInfoColumn)))
    else
      Ok(rows[device.id := device])
  }

  /** `create_secure_device` as a whole: the new record and the table after saving it. */
  function Create(p: Primitives, hardwareInfoNotNull: bool, rows: Rows, aesKey: AesKey, rsa: RsaEncryptor, id: string,
                  fingerprint: string, hardwareInfo: Option<string>, e: Entropy, createdAt: Int64, lastSeen: Int64)
    : (r: Result<(SecureDevice, Rows)>)
    ensures r.Ok? ==> r.value.0.id == id && r.value.1 == rows[id := r.value.0]
    ensures KeyedById(rows) && r.Ok? ==> KeyedById(r.value.1)
  {
    var device :- NewSecureDevice(p, aesKey, rsa, id, fingerprint, hardwareInfo, e, createdAt, lastSeen);
    var saved :- SaveRow(hardwareInfoNotNull, rows, device);
    Ok((device, saved))
  }

  /** What `decrypt_hardware_info` computes: the blob opened with the fingerprint's wrapped key. */
  function OpenHardwareInfo(p: Primitives, rsa: RsaEncryptor, device: SecureDevice): (r: Result<Option<string>>)
    ensures device.encryptedHardwareInfo.None? ==> r == Ok(None)
    ensures device.encryptedHardwareInfo.Some? ==>
              var decrypted := HybridOpenString(p, rsa, device.encryptedHardwareInfo.value, device.encryptedAesKey);
              r == if decrypted.Ok? then Ok(Some(decrypted.value)) else Err(decrypted.error)
  {
    match device.encryptedHardwareInfo
    case None => Ok(None)
    case Some(encrypted) =>
      var decrypted :- HybridOpenString(p, rsa, encrypted, device.encryptedAesKey);
      Ok(Some(decrypted))
  }

  /** test_encrypt_decrypt_fingerprint: a new record's fingerprint decrypts to the original. */
  lemma CreatedFingerprintDecrypts(p: Primitives, aesKey: AesKey, rsa: RsaEncryptor, id: string, fingerprint: string,
                                   hardwareInfo: Option<string>, e: Entropy, createdAt: Int64, lastSeen: Int64)
    requires Sound(p)
    requires NewSecureDevice(p, aesKey, rsa, id, fingerprint, hardwareInfo, e, createdAt, lastSeen).Ok?
    ensures var d := NewSecureDevice(p, aesKey, rsa, id, fingerprint, hardwareInfo, e, createdAt, lastSeen).value;
            HybridOpenString(p, rsa, d.encryptedFingerprint, d.encryptedAesKey) == Ok(fingerprint)
  {
    HybridRoundTrip(p, aesKey, rsa, e.fpNonce, e.fpPadding, fingerprint);
  }

  /**
   * The hardware-info blob opens with the FINGERPRINT's wrapped key, because both were
   * sealed under the one AES key of the manager's encryptor.
   */
  lemma CreatedHardwareInfoDecrypts(p: Primitives, aesKey: AesKey, rsa: RsaEncryptor, id: string, fingerprint: string,
                                    hardwareInfo: Option<string>, e: Entropy, createdAt: Int64, lastSeen: Int64)
    requires Sound(p)
    requires NewSecureDevice(p, aesKey, rsa, id, fingerprint, hardwareInfo, e, createdAt, lastSeen).Ok?
    ensures var d := NewSecureDevice(p, aesKey, rsa, id, fingerprint, hardwareInfo, e, createdAt, lastSeen).value;
            OpenHardwareInfo(p, rsa, d) == Ok(hardwareInfo)
  {
    if hardwareInfo.Some? {
      var h := hardwareInfo.value;
      SharedKeyOpens(p, aesKey, rsa, e.fpNonce, e.fpPadding, p.utf8Encode(fingerprint),
                     e.hwNonce, e.hwPadding, p.utf8Encode(h));
    }
  }

  /** On the schema `migrate()` installs, a device without hardware info cannot be created. */
  lemma MigratedSchemaRejectsNoHardwareInfo(p: Primitives, rows: Rows, aesKey: AesKey, rsa: RsaEncryptor, id: string,
                                            fingerprint: string, e: Entropy, createdAt: Int64, lastSeen: Int64)
    requires NewSecureDevice(p, aesKey, rsa, id, fingerprint, None, e, createdAt, lastSeen).Ok?
    ensures Create(p, true, rows, aesKey, rsa, id, fingerprint, None, e, createdAt, lastSeen)
              == Err(Database(NotNullConstraint(HardwareInfoColumn)))
  {
  }

  /**
   * With a nullable column, creating a device without hardware info succeeds, stores
   * `None`, and both decryptions give back what was passed in.
   */
  lemma NullableSchemaStoresNoHardwareInfo(p: Primitives, rows: Rows, aesKey: AesKey, rsa: RsaEncryptor, id: string,
                                           fingerprint: string, e: Entropy, createdAt: Int64, lastSeen: Int64)
    requires Sound(p)
    requires NewSecureDevice(p, aesKey, rsa, id, fingerprint, None, e, createdAt, lastSeen).Ok?
    ensures Create(p, false, rows, aesKey, rsa, id, fingerprint, None, e, createdAt, lastSeen).Ok?
    ensures var d := Create(p, false, rows, aesKey, rsa, id, fingerprint, None, e, createdAt, lastSeen).value.0;
            && d.encryptedHardwareInfo == None
            && OpenHardwareInfo(p, rsa, d) == Ok(None)
            && HybridOpenString(p, rsa, d.encryptedFingerprint, d.encryptedAesKey) == Ok(fingerprint)
  {
    CreatedFingerprintDecrypts(p, aesKey, rsa, id, fingerprint, None, e, createdAt, lastSeen);
  }

  /** The `secure_devices` table. */
  class SecureDevicesTable {
    const hardwareInfoNotNull: bool
    var rows: Rows

    constructor (hardwareInfoNotNull: bool, rows: Rows)
      ensures this.hardwareInfoNotNull == hardwareInfoNotNull && this.rows == rows
    {
      this.hardwareInfoNotNull := hardwareInfoNotNull;
      this.rows := rows;
    }
  }

  class SecureDeviceManager {
    const db: SecureDevicesTable
    const encryptor: HybridEncryptor

    ghost predicate Valid()
      reads db, encryptor.aes
    {
      encryptor.Valid() && KeyedById(db.rows)
    }

    constructor (db: SecureDevicesTable, encryptor: HybridEncryptor)
      ensures this.db == db && this.encryptor == encryptor
    {
      this.db := db;
      this.encryptor := encryptor;
    }

    /** `SecureDeviceManager::new`: a fresh hybrid encryptor over the shared table. */
    static method New(p: Primitives, db: SecureDevicesTable, random: AesKey, seed: Bytes)
      returns (r: Result<SecureDeviceManager>)
      requires KeyedById(db.rows)
      ensures r.Ok? ==> r.value.Valid()
      ensures r.Ok? <==> GenerateKeyPair(p, seed).Ok?
      ensures r.Err? ==> r.error == DeviceFingerprint(RsaKeyGeneration)
      ensures r.Ok? ==> fresh(r.value) && fresh(r.value.encryptor) && fresh(r.value.encryptor.aes)
      ensures r.Ok? ==> r.value.db == db && r.value.encryptor.Valid() && r.value.encryptor.aes.key == random
      ensures r.Ok? ==> r.value.encryptor.rsa == RsaEncryptor(GenerateKeyPair(p, seed).value)
    {
      var encryptor :- HybridEncryptor.New(p, random, seed);
      var m := new SecureDeviceManager(db, encryptor);
      return Ok(m);
    }

    /** `with_keypair`: the given RSA pair and a fresh AES key. */
    static method WithKeyPair(db: SecureDevicesTable, random: AesKey, keyPair: RsaKeyPair)
      returns (r: Result<SecureDeviceManager>)
      requires KeyedById(db.rows)
      ensures r.Ok? && r.value.Valid()
      ensures fresh(r.value) && fresh(r.value.encryptor) && fresh(r.value.encryptor.aes)
      ensures r.value.db == db && r.value.encryptor.Valid() && r.value.encryptor.aes.key == random
      ensures r.value.encryptor.rsa == RsaEncryptor(keyPair)
    {
      // `with_rsa_keypair(..)?` never propagates: it always returns `Ok`.
      var made := HybridEncryptor.WithRsaKeyPair(random, keyPair);
      var m := new SecureDeviceManager(db, made.value);
      return Ok(m);
    }

    /** `create_secure_device`: encrypt, then insert or replace the row with this id. */
    method CreateSecureDevice(p: Primitives, id: string, fingerprint: string, hardwareInfo: Option<string>,
                              e: Entropy, createdAt: Int64, lastSeen: Int64) returns (r: Result<SecureDevice>)
      requires Valid()
      modifies db
      ensures Valid()
      ensures var c := Create(p, db.hardwareInfoNotNull, old(db.rows), encryptor.aes.key, encryptor.rsa,
                              id, fingerprint, hardwareInfo, e, createdAt, lastSeen);
              && (r.Ok? <==> c.Ok?)
              && (r.Ok? ==> r.value == c.value.0 && db.rows == c.value.1)
              && (r.Err? ==> r.error == c.error)
      ensures r.Ok? ==> db.rows == old(db.rows)[id := r.value]
      ensures r.Err? ==> db.rows == old(db.rows)
    {
      var fp :- encryptor.EncryptString(p, e.fpNonce, e.fpPadding, fingerprint);
      var hw: Option<EncryptedData> := None;
      if hardwareInfo.Some? {
        var sealed :- encryptor.EncryptString(p, e.hwNonce, e.hwPadding, hardwareInfo.value);
        hw := Some(sealed.0);
      }
      var pem :- encryptor.PublicKeyPem(p);
      var device := SecureDevice(id, fp.0, hw, fp.1, pem, createdAt, lastSeen);
      var saved :- SaveRow(db.hardwareInfoNotNull, db.rows, device);
      db.rows := saved;
      return Ok(device);
    }

    /** `decrypt_fingerprint`. */
    method DecryptFingerprint(p: Primitives, device: SecureDevice) returns (r: Result<string>)
      ensures r == HybridOpenString(p, encryptor.rsa, device.encryptedFingerprint, device.encryptedAesKey)
    {
      r := encryptor.DecryptString(p, device.encryptedFingerprint, device.encryptedAesKey);
    }

    /** `decrypt_hardware_info`: `Ok(None)` when no blob is stored. */
    method DecryptHardwareInfo(p: Primitives, device: SecureDevice) returns (r: Result<Option<string>>)
      ensures device.encryptedHardwareInfo.None? ==> r == Ok(None)
      ensures r == OpenHardwareInfo(p, encryptor.rsa, device)
    {
      match device.encryptedHardwareInfo {
        case None =>
          return Ok(None);
        case Some(encrypted) =>
          var decrypted :- encryptor.DecryptString(p, encrypted, device.encryptedAesKey);
          return Ok(Some(decrypted));
      }
    }

    /** `load_from_db`: the stored record, or `None` when no row has this id. */
    function LoadFromDb(id: string): (r: Result<Option<SecureDevice>>)
      reads db, encryptor.aes
      requires Valid()
      ensures r.Ok?
      ensures r.value.Some? <==> id in db.rows
      ensures r.value.Some? ==> r.value.value == db.rows[id] && r.value.value.id == id
    {
      Ok(Table.Lookup(db.rows, id))
    }

    /** `update_last_seen`: UPDATE of one column; no row with this id is not an error. */
    method UpdateLastSeen(id: string, now: Int64) returns (r: Result<()>)
      requires Valid()
      modifies db
      ensures Valid()
      ensures r == Ok(())
      ensures id in old(db.rows) ==> db.rows == old(db.rows)[id := old(db.rows)[id].(lastSeen := now)]
      ensures id !in old(db.rows) ==> db.rows == old(db.rows)
    {
      if id in db.rows {
        db.rows := db.rows[id := db.rows[id].(lastSeen := now)];
      }
      return Ok(());
    }

    /** `list_secure_devices`: every row once, latest `last_seen` first. */
    method ListSecureDevices() returns (r: Result<seq<SecureDevice>>)
      requires Valid()
      ensures r.Ok?
      ensures |r.value| == |db.rows|
      ensures forall i | 0 <= i < |r.value| :: r.value[i].id in db.rows && db.rows[r.value[i].id] == r.value[i]
      ensures forall id | id in db.rows :: db.rows[id] in r.value
      ensures forall i, j | 0 <= i < j < |r.value| :: r.value[i].id != r.value[j].id
      ensures forall i, j | 0 <= i < j < |r.value| :: r.value[i].lastSeen >= r.value[j].lastSeen
    {
      var ids, devices := Ordering.RowsByRankDesc(db.rows, (d: SecureDevice) => d.lastSeen);
      return Ok(devices);
    }

    /** `delete_device`: removes the row if there is one. */
    method DeleteDevice(id: string) returns (r: Result<()>)
      requires Valid()
      modifies db
      ensures Valid()
      ensures r == Ok(())
      ensures db.rows == old(db.rows) - {id}
    {
      db.rows := db.rows - {id};
      return Ok(());
    }

    /** `export_private_key`: PKCS#8 text that imports back to the manager's RSA pair. */
    function ExportPrivateKey(p: Primitives): (r: Result<string>)
      ensures r.Ok? <==> p.pkcs8Encode(encryptor.rsa.keyPair.privateKey).Some?
      ensures r.Err? ==> r.error == DeviceFingerprint(PemExport)
      ensures Sound(p) && r.Ok? ==> KeyPairFromPem(p, r.value) == Ok(encryptor.rsa.keyPair)
    {
      encryptor.PrivateKeyPem(p)
    }

    /** `export_public_key`: the SPKI text of the manager's public key. */
    function ExportPublicKey(p: Primitives): (r: Result<string>)
      ensures r.Ok? <==> p.spkiEncode(encryptor.rsa.keyPair.PublicKey(p)).Some?
      ensures r.Ok? ==> Some(r.value) == p.spkiEncode(encryptor.rsa.keyPair.PublicKey(p))
      ensures r.Err? ==> r.error == DeviceFingerprint(PublicPemExport)
    {
      encryptor.PublicKeyPem(p)
    }
  }
}
