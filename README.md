# Airway Device Base Service — a verified model of its core

This project models, in Dafny, the core of the Airway Device Base Service, a Rust library
for aviation devices. It covers the following parts:

- **Envelope encryption** (`src/encryption.rs`):
  - `AesEncryptor`, whose key must stay exactly 32 bytes and which zeroizes the key on drop;
  - `RsaEncryptor` and `RsaKeyPair`, with PKCS#8 PEM import and export;
  - `HybridEncryptor`: one AES-256-GCM key per instance, which every message is sealed
    under, wrapped under an RSA public key with PKCS#1 v1.5 padding;
  - `generate_salt` and `hash_sha256`.

  The Base64 codec of RFC 4648 section 4 (standard alphabet, with padding) and the
  lowercase-hex digest format are written out in full and proved to round-trip both ways.

- **The secure device store** (`src/device/secure.rs`):
  - `SecureDeviceManager` is a class over a `secure_devices` table object.
  - The table is a map from id to the encrypted record.
  - Operations: insert-or-replace, select, update of `last_seen`, ordered listing, delete.

- **The plain device table** (`src/device/mod.rs`): get-or-create by machine fingerprint,
  keeping fingerprints unique.

- **Flight plans** (`src/flight/mod.rs`, `src/flight/validator.rs`,
  `src/flight/calculator.rs`):
  - the `FlightPlanBuilder` state machine;
  - `validate_plan`, the ordered chain of checks, over given sets of known airport codes
    and waypoint ids;
  - the integer arrival-time computation;
  - the speed guard of the segment time.

- **Tag enums and small predicates**:
  - airspace, airway, navaid and waypoint types with `as_str`/`from_str`;
  - the inclusive altitude bands;
  - `Identity::is_valid`;
  - `SyncStrategy::as_str`.

The external parts are handled as follows.

- **Cryptographic library.** AES-256-GCM (NIST SP 800-38D), RSA with PKCS#1 v1.5 padding
  (section 7.2 of RFC 8017), PBKDF2-HMAC-SHA256 (section 5.2 of RFC 8018), PKCS#8 and SPKI
  PEM, SHA-256 and UTF-8 decoding are fields of a `Primitives` value passed to every
  operation.
- **Their guarantees.** The guarantees those libraries give are the predicate `Sound`:
  the AES, RSA, PKCS#8 and UTF-8 round trips. Every lemma that needs them requires
  `Sound(p)`. A concrete toy instance (`ToySound`) shows that the predicate can be met.
- **Inputs from the environment.** Each of these is a parameter of the operation that
  consumes it:
  - randomness (`OsRng`, `thread_rng`);
  - the clock (`Utc::now`);
  - fresh UUIDs;
  - the machine fingerprint and hardware description.

The modules, one file each except `Text` and `AltitudeBand`, which share text.dfy. Each
module's header comment names the source file, format or query it stands for:

| Module | Models |
|---|---|
| `Errors` | the shared error and result types |
| `Base64`, `LowerHex` | the codecs |
| `CryptoPrimitives` | the primitive interface |
| `Encryption` | the encryption layer |
| `Ordering`, `Table` | the `ORDER BY last_seen DESC` listing and the lookup by primary key |
| `SecureStore`, `Devices` | the two device tables |
| `Flight`, `Validator`, `Calculator` | the flight-plan code |
| `Text`, `AltitudeBand` | ASCII upper-casing and altitude bands |
| `Airspace`, `Airway`, `Navaid`, `Waypoint`, `Geo` | the models |
| `Identity`, `SyncStrategy` | device identity and sync strategies |

## Model

| member | source | states |
|---|---|---|
| Base64.DecodeEncode | src/encryption.rs:142-143 | decoding the standard Base64 text of any byte string gives back those bytes |
| Base64.EncodeDecode | src/encryption.rs:155-160 | text that decodes is exactly the canonical encoding of what it decodes to |
| Base64.DecodeIffEncode | src/encryption.rs:155-160 | `Decode(s) == Some(b)` holds exactly when `s == Encode(b)` |
| Base64.Encode | src/encryption.rs:142-143 | the standard padded encoding of n bytes has 4·⌈n/3⌉ characters |
| Base64.Decode | src/encryption.rs:155-160 | only text whose length is a multiple of 4 decodes; what it accepts is characterised by `DecodeIffEncode` |
| LowerHex.Format | src/encryption.rs:334 | `{:x}` of a digest has two lowercase hex digits per byte |
| LowerHex.ParseFormat | src/encryption.rs:334 | the hex text reads back to the bytes it was formatted from |
| CryptoPrimitives.ToySound | src/encryption.rs:129-181 | the round-trip guarantees assumed of the crypto library are satisfiable together |
| Encryption.Seal | src/encryption.rs:129-146 | `encrypt` fails only when the cipher does, and then with the AES error; on success the tag is "AES-256-GCM", the nonce text decodes to the 12 nonce bytes and the ciphertext text to the cipher's output |
| Encryption.Open | src/encryption.rs:148-171 | `decrypt` (`AesEncryptor.Decrypt` applies this to its own key) checks, in this order: the tag, the nonce's Base64, the ciphertext's Base64, the 12-byte nonce length (a panic otherwise), and authenticated decryption; a success passed every check |
| Encryption.OpenChecksTagFirst | src/encryption.rs:149-154 | with a wrong tag the result is an error and does not depend on the nonce or ciphertext text |
| Encryption.SealOpen | src/encryption.rs:129-171 | `decrypt(encrypt(m)) == m` under one key |
| Encryption.SealOpenString | src/encryption.rs:173-181 | `decrypt_string(encrypt_string(s)) == s` under one key |
| Encryption.OpenString | src/encryption.rs:177-181 | `decrypt_string` (`AesEncryptor.DecryptString` under its own key): success means decryption succeeded and its bytes are valid UTF-8 of the result; a decryption error is passed on unchanged |
| Encryption.AesEncryptor.New | src/encryption.rs:94-98 | always succeeds with a fresh encryptor holding the 32 random bytes |
| Encryption.AesEncryptor.FromKey | src/encryption.rs:100-109 | succeeds exactly when the key has 32 bytes, and `get_key` (encryption.rs:125-127) then returns that key; otherwise the error names the actual length and no encryptor is built |
| Encryption.AesEncryptor.FromPassword | src/encryption.rs:111-123 | always succeeds; the key is the PBKDF2 derivation of the password and salt |
| Encryption.AesEncryptor.Encrypt | src/encryption.rs:129-146 | what `encrypt` returns, `decrypt` on the same encryptor gives back |
| Encryption.AesEncryptor.EncryptString | src/encryption.rs:173-175 | what `encrypt_string` returns, `decrypt_string` on the same encryptor gives back |
| Encryption.AesEncryptor.Drop | src/encryption.rs:184-188 | zeroizing leaves the key empty, so the encryptor is no longer usable |
| Encryption.PasswordEncryptorsAgree | src/encryption.rs:111-123 | two encryptors from the same password and salt decrypt each other's strings |
| Encryption.GenerateKeyPair | src/encryption.rs:34-44 | fails only when key generation does, with the generation error; otherwise holds the generated 2048-bit key |
| Encryption.KeyPairFromPem | src/encryption.rs:46-56 | succeeds exactly when the PKCS#8 text parses, and holds the parsed key |
| Encryption.KeyPairToPem | src/encryption.rs:58-64 | fails only when PKCS#8 encoding fails, with the export error |
| Encryption.PublicKeyToPem | src/encryption.rs:66-71 | fails only when SPKI encoding of the derived public key fails |
| Encryption.PemRoundTrip | src/encryption.rs:46-64 | importing an exported pair gives back the same pair |
| Encryption.RsaEncryptor.Encrypt | src/encryption.rs:210-216 | fails exactly when RSA encryption under the public key fails, with the RSA error |
| Encryption.RsaEncryptor.Decrypt | src/encryption.rs:218-223 | fails exactly when RSA decryption under the private key fails, with the RSA error |
| Encryption.RsaEncryptor.EncryptString | src/encryption.rs:225-228 | the result is Base64 text that decodes to the RSA ciphertext of the UTF-8 bytes |
| Encryption.RsaEncryptor.DecryptString | src/encryption.rs:230-237 | text that is not Base64 is rejected; a success is the UTF-8 reading of the RSA decryption |
| Encryption.RsaEncryptor.PublicKeyPem | src/encryption.rs:239-241 | the SPKI export of the public half; fails only when encoding does, with the public-key export error |
| Encryption.RsaEncryptor.PrivateKeyPem | src/encryption.rs:243-245 | the PKCS#8 export fails only when encoding does, and the text imports back to this encryptor's own pair |
| Encryption.RsaEncryptor.EncryptAesKey | src/encryption.rs:247-250 | the wrapped key is Base64 text that decodes to the RSA ciphertext of the key |
| Encryption.RsaEncryptor.DecryptAesKey | src/encryption.rs:252-257 | text that is not Base64 is rejected; a success is the RSA decryption of the decoded bytes |
| Encryption.NewRsaEncryptor | src/encryption.rs:201-204 | succeeds exactly when key generation does, over the generated pair |
| Encryption.RsaRoundTrip | src/encryption.rs:210-223 | RSA decryption inverts RSA encryption for one pair |
| Encryption.WrapUnwrap | src/encryption.rs:247-257 | `decrypt_aes_key(encrypt_aes_key(k)) == k` |
| Encryption.RsaStringRoundTrip | src/encryption.rs:225-237 | `decrypt_string(encrypt_string(s)) == s` for RSA |
| Encryption.PemReimportDecrypts | src/encryption.rs:392-404 | a pair re-imported from the original's PEM decrypts what the original encrypted |
| Encryption.HybridSeal | src/encryption.rs:287-291 | the hybrid result is the AES encryption under the instance key paired with that key wrapped under RSA, and fails exactly when one of them does |
| Encryption.HybridOpen | src/encryption.rs:293-297 | decryption unwraps the key with the RSA pair, and rejects a key that is not 32 bytes with the length error; a success is AES decryption under the unwrapped key |
| Encryption.HybridOpenString | src/encryption.rs:303-307 | success means hybrid decryption succeeded and its bytes are the UTF-8 of the result |
| Encryption.HybridKeyUnwraps | src/encryption.rs:287-291 | the wrapped key returned by `encrypt` unwraps to the instance's AES key |
| Encryption.SharedKeyOpens | src/encryption.rs:287-297 | the wrapped key of one `encrypt` call opens the data of any other call on the same instance |
| Encryption.HybridRoundTrip | src/encryption.rs:299-307 | `decrypt_string(encrypt_string(s)) == s` under any AES key and one RSA pair |
| Encryption.HybridEncryptor.New | src/encryption.rs:273-278 | succeeds exactly when RSA key generation does; holds a valid fresh AES encryptor with the random key |
| Encryption.HybridEncryptor.WithRsaKeyPair | src/encryption.rs:280-285 | always succeeds, with the given pair and a valid fresh AES encryptor |
| Encryption.HybridEncryptor.Encrypt | src/encryption.rs:287-291 | the result is the hybrid seal under this instance's own AES key |
| Encryption.HybridEncryptor.EncryptString | src/encryption.rs:299-301 | the blob and wrapped key it returns open back to the text |
| Encryption.HybridEncryptor.Decrypt | src/encryption.rs:293-297 | the result is the hybrid opening, which depends only on the RSA pair |
| Encryption.HybridEncryptor.DecryptString | src/encryption.rs:303-307 | the result is the hybrid string opening |
| Encryption.HybridEncryptor.PublicKeyPem | src/encryption.rs:309-311 | the SPKI text of the RSA pair's public half, or the public-key export error |
| Encryption.HybridEncryptor.PrivateKeyPem | src/encryption.rs:313-315 | fails only when PKCS#8 encoding fails, with the export error; the text imports back to the RSA pair |
| Encryption.HashSha256 | src/encryption.rs:331-335 | the text has 64 characters, all lowercase hex digits, and reads back to the SHA-256 digest |
| Ordering.SortByRankDesc | src/device/secure.rs:177-221 | every key exactly once, in non-increasing rank |
| Ordering.RowsByRankDesc | src/device/mod.rs:119-140 | every row of a table exactly once, each under its key, in non-increasing rank |
| SecureStore.NewSecureDevice | src/device/secure.rs:35-62 | the new record keeps id and times, stores a hardware blob exactly when hardware info was given, and carries the public key PEM |
| SecureStore.SealHardwareInfo | src/device/secure.rs:44-49 | no hardware info stores `None`; otherwise the blob is the data part of a second hybrid seal, whose wrapped key is discarded |
| SecureStore.SaveRow | src/device/secure.rs:88-115 | insert-or-replace under the id; refused exactly when the column is NOT NULL and there is no blob |
| SecureStore.Create | src/device/secure.rs:35-66 | on success the id maps to the returned record and every other row is unchanged |
| SecureStore.OpenHardwareInfo | src/device/secure.rs:75-86 | `Ok(None)` without a blob; otherwise the blob opened with the fingerprint's wrapped key |
| SecureStore.CreatedFingerprintDecrypts | src/device/secure.rs:293-308 | a new record's fingerprint decrypts to the original fingerprint |
| SecureStore.CreatedHardwareInfoDecrypts | src/device/secure.rs:44-49 | a new record's hardware info decrypts to what was given, with the fingerprint's wrapped key, and `None` gives `Ok(None)` |
| SecureStore.MigratedSchemaRejectsNoHardwareInfo | src/db/schema.rs:31 | with the migrated schema, creating a device without hardware info fails with the NOT NULL error |
| SecureStore.NullableSchemaStoresNoHardwareInfo | src/device/secure.rs:44-49 | with a nullable column, creation without hardware info succeeds, stores `None`, and both decryptions give back the inputs |
| SecureStore.SecureDeviceManager.New | src/device/secure.rs:24-28 | succeeds exactly when key generation does; the manager is valid, over the given table with a fresh valid encryptor holding the random AES key and the generated pair |
| SecureStore.SecureDeviceManager.WithKeyPair | src/device/secure.rs:30-33 | always succeeds with a valid manager over the given table, with the given pair and a fresh AES key |
| SecureStore.SecureDeviceManager.CreateSecureDevice | src/device/secure.rs:35-66 | does what `Create` computes; on success only the row under the id changes, and on failure nothing does |
| SecureStore.SecureDeviceManager.DecryptFingerprint | src/device/secure.rs:68-73 | the result is the hybrid string opening of the stored fingerprint |
| SecureStore.SecureDeviceManager.DecryptHardwareInfo | src/device/secure.rs:75-86 | `Ok(None)` without a blob; otherwise the hardware-info opening |
| SecureStore.SecureDeviceManager.LoadFromDb | src/device/secure.rs:117-163 | `None` for an absent id, otherwise the stored record |
| SecureStore.SecureDeviceManager.UpdateLastSeen | src/device/secure.rs:165-175 | always `Ok`; only the `last_seen` of the matching row changes, and an absent id changes nothing |
| SecureStore.SecureDeviceManager.ListSecureDevices | src/device/secure.rs:177-221 | every stored record exactly once, ordered by `last_seen` non-increasing |
| SecureStore.SecureDeviceManager.DeleteDevice | src/device/secure.rs:223-227 | always `Ok`; the row with the id is removed if there is one, and nothing else changes |
| SecureStore.SecureDeviceManager.ExportPrivateKey | src/device/secure.rs:229-231 | fails only when PKCS#8 encoding fails, with the export error; the text imports back to the manager's RSA pair |
| SecureStore.SecureDeviceManager.ExportPublicKey | src/device/secure.rs:233-235 | the SPKI text of the manager's public key, or the public-key export error |
| Devices.FindByFingerprint | src/device/mod.rs:40-56 | the row with the fingerprint, or `None` exactly when no row has it |
| Devices.Insert | src/device/mod.rs:77-87 | succeeds exactly when neither id nor fingerprint is already present, adding just that row |
| Devices.GetOrCreate | src/device/mod.rs:33-93 | a fingerprint error is passed on; on success the returned device carries the fingerprint asked for and is the row stored under its id |
| Devices.GetOrCreateExisting | src/device/mod.rs:58-66 | a stored fingerprint returns that row with only `last_seen` changed, and the table changes only there |
| Devices.GetOrCreateNew | src/device/mod.rs:67-91 | a new fingerprint adds exactly one row, with that fingerprint and `Some` hardware info |
| Devices.GetOrCreatePreserves | src/device/mod.rs:33-93 | no two rows ever share a fingerprint, and no row is lost |
| Devices.TwoCallsOneRow | src/device/mod.rs:150-173 | two calls with one fingerprint return the same id and leave one row |
| Devices.DeviceManager.constructor | src/device/mod.rs:28-31 | a manager over a table that meets the schema's constraints is valid |
| Devices.DeviceManager.GetOrCreateFingerprint | src/device/mod.rs:33-93 | does what `GetOrCreate` computes and keeps the table well-formed; a failure changes nothing |
| Devices.DeviceManager.GetDevice | src/device/mod.rs:95-117 | `None` for an absent id, otherwise the stored row |
| Devices.DeviceManager.ListDevices | src/device/mod.rs:119-140 | every row exactly once, ordered by `last_seen` descending |
| Flight.FlightPlanBuilder.constructor | src/flight/mod.rs:80-89 | every field starts `None`, the route empty |
| Flight.FlightPlanBuilder.SetDeparture | src/flight/mod.rs:91-94 | sets the departure and nothing else |
| Flight.FlightPlanBuilder.SetDestination | src/flight/mod.rs:96-99 | sets the destination and nothing else |
| Flight.FlightPlanBuilder.SetAlternate | src/flight/mod.rs:101-104 | sets the alternate and nothing else |
| Flight.FlightPlanBuilder.SetCruiseAltitude | src/flight/mod.rs:106-109 | sets the altitude and nothing else |
| Flight.FlightPlanBuilder.SetCruiseSpeed | src/flight/mod.rs:111-114 | sets the speed and nothing else |
| Flight.FlightPlanBuilder.AddWaypoint | src/flight/mod.rs:116-119 | appends to the route and changes nothing else |
| Flight.FlightPlanBuilder.Build | src/flight/mod.rs:121-146 | succeeds exactly when departure, destination, altitude and speed are all set; reports the first missing one in that order; the plan carries the set values, the alternate as set, and the route |
| Flight.BuildComplete | src/flight/mod.rs:159-172 | the four required fields give the expected plan |
| Flight.BuildMissingFields | src/flight/mod.rs:174-181 | a builder with only a departure reports the missing destination |
| Flight.BuildInCallOrder | src/flight/mod.rs:91-119 | the route lists waypoints in call order, and a repeated setter keeps its last value |
| Validator.FirstMissing | src/flight/validator.rs:78-92 | the first position of the route whose waypoint is unknown, or `None` exactly when all are known |
| Validator.CheckRoute | src/flight/validator.rs:77-92 | `Ok(true)` exactly when every waypoint is known; an error names a waypoint of the route that is unknown |
| Validator.ValidatePlan | src/flight/validator.rs:6-95 | `Ok` exactly when every condition holds, and then `Ok(true)`; an unknown departure is reported first, then an unknown destination, then equal departure and destination |
| Validator.LaterChecksInOrder | src/flight/validator.rs:46-75 | after the airport checks: an unknown alternate, then the altitude bounds, then the speed bounds |
| Validator.FirstUnknownWaypointReported | src/flight/validator.rs:77-92 | a plan that passes the other checks fails on its first unknown waypoint |
| Validator.NeverOkFalse | src/flight/validator.rs:94 | `Ok(false)` is never returned |
| Validator.BoundsInclusive | src/flight/validator.rs:63-75 | 1000 and 60000 ft, and 50 and 1000 kt, are accepted |
| Validator.ValidatorExamples | src/flight/validator.rs:132-198 | the four test plans get the expected verdicts |
| Calculator.Wrap64 | src/flight/calculator.rs:38 | the value is in the `i64` range, is unchanged when already there, and is congruent to its input modulo 2^64 |
| Calculator.Eta | src/flight/calculator.rs:37-39 | the arrival time is congruent to departure plus 60 s per minute, modulo 2^64 |
| Calculator.EtaExact | src/flight/calculator.rs:37-39 | without overflow, `calculate_eta(d, m) == d + 60*m` |
| Calculator.EtaZero | src/flight/calculator.rs:38 | `calculate_eta(d, 0) == d` |
| Calculator.EtaCompose | src/flight/calculator.rs:38 | `calculate_eta(calculate_eta(d, a), b) == calculate_eta(d, a + b)` |
| Calculator.EtaExample | src/flight/calculator.rs:105-110 | 1000 plus 120 minutes is 8200 |
| Calculator.RoundToI32 | src/flight/calculator.rs:33 | `round() as i32`: rounds half away from zero — a non-negative input within range is in (x − 0.5, x + 0.5], a non-positive one in [x − 0.5, x + 0.5); above 2^31 − 1 it saturates at 2^31 − 1, below −2^31 at −2^31; the sign is kept |
| Calculator.SegmentTime | src/flight/calculator.rs:27-34 | a speed of 0 or less gives 0; otherwise the minutes m = distance / speed × 60 are rounded half away from zero (r in (m − 0.5, m + 0.5] for m ≥ 0, in [m − 0.5, m + 0.5) for m ≤ 0) and saturate at the `i32` bounds beyond them; non-negative for a non-negative distance |
| Calculator.SegmentTimeExample | src/flight/calculator.rs:99-102 | 100 nm at 200 kt take 30 minutes |
| Text.AsciiUpper | src/models/airspace.rs:30 | upper-casing keeps the length, maps each character, and leaves no lowercase letter |
| Text.UpperIdempotent | src/models/airspace.rs:30 | upper-casing twice is upper-casing once |
| Airspace.AirspaceClass.ParseUpper | src/models/airspace.rs:29-39 | a recognised class was spelt as its letter or "CLASS " and its letter |
| Airspace.ClassOtherIffUnrecognised | src/models/airspace.rs:29-39 | `from_str` gives `Other` exactly when the upper-cased text is none of the twelve spellings |
| Airspace.ClassRoundTrip | src/models/airspace.rs:17-39 | `from_str(c.as_str()) == c` for every class |
| Airspace.AirspaceType.ParseUpper | src/models/airspace.rs:67-77 | a recognised type was spelt as its code, its long name or its one-letter alias |
| Airspace.TypeOtherIffUnrecognised | src/models/airspace.rs:67-77 | `from_str` gives `Other` exactly when the upper-cased text is none of the twelve spellings |
| Airspace.TypeRoundTrip | src/models/airspace.rs:55-77 | `from_str(t.as_str()) == t` for every type |
| Airspace.FromStrIgnoresCase | src/models/airspace.rs:29-77 | both parsers give the same result for a text and its upper-case form |
| Airspace.ClassConversionExamples | src/models/airspace.rs:176-180 | "B" and "class c" parse as classes B and C; D is written "D" |
| Airspace.TypeAliasExamples | src/models/airspace.rs:72-74 | "R", "D" and "P" parse as Restricted, Danger and Prohibited |
| Airspace.Airspace.New | src/models/airspace.rs:94-104 | keeps the given fields and sets no class and no limits |
| Airspace.Airspace.IsAltitudeInAirspace | src/models/airspace.rs:107-114 | inside exactly when at or above a present lower limit and at or below a present upper limit |
| Airspace.NewContainsEveryAltitude | src/models/airspace.rs:94-114 | a new airspace contains every altitude |
| Airspace.BandExample | src/models/airspace.rs:160-173 | the band from 5000 to 15000 ft contains 5000, 10000 and 15000, and not 3000 or 20000 |
| Airway.AirwayType.ParseUpper | src/models/airway.rs:22-29 | a recognised type was spelt as its code; `Other` exactly for every other text |
| Airway.TypeRoundTrip | src/models/airway.rs:13-29 | `from_str(t.as_str()) == t` for every type |
| Airway.FromStrIgnoresCase | src/models/airway.rs:23 | the parser gives the same result for a text and its upper-case form |
| Airway.Airway.New | src/models/airway.rs:45-54 | keeps the given fields and sets no limits |
| Airway.Airway.IsAltitudeValid | src/models/airway.rs:57-64 | valid exactly when within the present limits, inclusive |
| Airway.NewAcceptsEveryAltitude | src/models/airway.rs:45-64 | a new airway accepts every altitude |
| Airway.AltitudeValidationExample | src/models/airway.rs:117-130 | limits 10000 and 30000 accept 20000 and both limits, and reject 5000 and 35000 |
| Airway.AirwaySegment.New | src/models/airway.rs:81-97 | keeps the given fields and has no distance |
| Navaid.NavaidType.ParseUpper | src/models/navaid.rs:27-36 | VOR/DME exactly for its three spellings, otherwise a recognised type was spelt as its code, and `Other` exactly for the rest |
| Navaid.TypeRoundTrip | src/models/navaid.rs:16-36 | `from_str(t.as_str()) == t` for every type |
| Navaid.AsStrInjective | src/models/navaid.rs:17-24 | distinct types have distinct codes |
| Navaid.FromStrIgnoresCase | src/models/navaid.rs:28 | the parser gives the same result for a text and its upper-case form |
| Navaid.ConversionExamples | src/models/navaid.rs:126-130 | "VOR-DME" is VOR/DME, "vor" is VOR, NDB is written "NDB" |
| Navaid.Navaid.New | src/models/navaid.rs:55-72 | keeps the given fields and sets none of the optional ones |
| Navaid.Navaid.IsInRange | src/models/navaid.rs:80-87 | only a navaid with a known range has anything in range |
| Navaid.VorDmeSpellings | src/models/navaid.rs:30 | every text whose upper-case form is "VORDME", "VOR-DME" or "VOR/DME" parses as VOR/DME |
| Navaid.NoRangeNeverInRange | src/models/navaid.rs:80-87 | without a known range nothing is in range, whatever the distance |
| Navaid.RangeLimitInRange | src/models/navaid.rs:83 | the comparison is inclusive: a point exactly at the range limit is in range |
| Navaid.InRangeDownwardClosed | src/models/navaid.rs:80-87 | what is in range stays in range when it is nearer |
| Navaid.BeyondRangeOutOfRange | src/models/navaid.rs:80-87 | nothing farther than a known range is in range |
| Navaid.NewNeverInRange | src/models/navaid.rs:55-87 | a new navaid has nothing in range |
| Waypoint.WaypointType.ParseUpper | src/models/waypoint.rs:27-36 | a recognised type was spelt as its code; `Other` exactly for every other text |
| Waypoint.TypeRoundTrip | src/models/waypoint.rs:16-36 | `from_str(t.as_str()) == t` for every type |
| Waypoint.AsStrInjective | src/models/waypoint.rs:17-24 | distinct types have distinct codes |
| Waypoint.FromStrIgnoresCase | src/models/waypoint.rs:28 | the parser gives the same result for a text and its upper-case form |
| Waypoint.ConversionExamples | src/models/waypoint.rs:98-102 | "VOR" and "vor" are VOR; GPS is written "GPS" |
| Waypoint.Waypoint.New | src/models/waypoint.rs:51-66 | keeps the given id, name, coordinate and type, with no region |
| Identity.NewValidIff | src/device/identity.rs:13-24 | `is_valid` of a new identity holds exactly when both names are non-empty |
| Identity.Identity.New | src/device/identity.rs:13-19 | keeps both names and starts authorised |
| Identity.Identity.Revoke | src/device/identity.rs:49 | clearing `is_authorized` keeps both names and leaves the identity unauthorised |
| Identity.RevokedInvalid | src/device/identity.rs:43-51 | withdrawing authorisation makes an identity invalid and keeps its names |
| Identity.IdentityExamples | src/device/identity.rs:31-51 | the test identity is valid, and invalid once revoked |
| SyncStrategy.Names | src/sync/strategy.rs:14-20 | the names are "full", "incremental" and "on-demand" |
| SyncStrategy.AsStrInjective | src/sync/strategy.rs:15-19 | two strategies share a name exactly when they are equal |
| SyncStrategy.NamesNonEmptyLowercase | src/sync/strategy.rs:16-18 | every name is non-empty and has no upper-case letter |

Members without a row of their own are covered by the rows above:
- the `AsStr` and `FromStr` of the tag enums are covered by the round-trip, `ParseUpper` and
  example rows of their module;
- `SyncStrategy.SyncStrategy.AsStr` by `SyncStrategy.Names`;
- `Identity.Identity.IsValid` by `NewValidIff`, `RevokedInvalid` and `IdentityExamples`;
- `AesEncryptor.GetKey` by `FromKey`;
- `AesEncryptor.Decrypt` and `AesEncryptor.DecryptString` by `Open` and `OpenString`,
  which they apply to the encryptor's own key;
- `Encryption.GenerateSalt` (src/encryption.rs:324-328) returns the 16 random bytes it is
  given, whose length is fixed by their type `Salt`;
- `Table.Lookup`, the primary-key lookup, by `Devices.DeviceManager.GetDevice` and
  `SecureStore.SecureDeviceManager.LoadFromDb`;
- `Ordering.Top`, one selection step, by `Ordering.SortByRankDesc`;
- the constructors of `Devices.DevicesTable` and `SecureStore.SecureDevicesTable` by
  `Devices.DeviceManager.constructor`, `SecureStore.SecureDeviceManager.New` and
  `SecureStore.SecureDeviceManager.WithKeyPair`.

## Left out

- `create_secure_device`, `get_or_create_fingerprint`, `validate_plan` and the other database
  operations: connection-pool and SQL errors (`get_conn`, failed statements). Only the
  constraint violations the schema defines are modelled.
- `save_to_db` / `load_from_db`: the serde_json encoding of `EncryptedData` is taken to
  round-trip, so a row is stored as the record itself.
- Nonce freshness and the quality of randomness: the random bytes are parameters.
- Zeroizing on drop is modelled as the key becoming empty. Memory effects beyond that are
  not captured.
- `RsaKeyPair`'s own `Drop` and `Debug` (src/encryption.rs:74-87), the `Default` impls, and
  `RsaEncryptor::from_keypair` are not modelled separately. `RsaEncryptor(keyPair)` is the
  last of these.
- Concurrency on the shared `Arc<Database>`: the table is a single object that the managers
  reach by reference, and no interleaving of calls from several threads is modelled.
- `src/device/fingerprint.rs` (hardware probing, SHA-256 of machine data): the fingerprint
  and hardware info are inputs.
- Text.AsciiUpper: `str::to_uppercase` is Unicode-aware; this model upper-cases only a-z,
  so non-ASCII spellings are not covered.
- Calculator.Eta: models release-build wrap-around of the `i64` addition. A debug build
  panics on overflow instead.
- Calculator.SegmentTime: the division, multiplication and `round` are exact on `real`,
  not IEEE-754 `f64`. The saturating `as i32` cast is modelled, NaN is not.
- `calculate_fuel`, `calculate_wind_correction`, `calculate_ground_speed`, and the
  haversine `distance_to`/`bearing_to` of `Coordinate`: floating-point geodesy. For the
  same reason `Navaid::distance_from`, `Waypoint::distance_from` and `bearing_from` are
  left out.
- Navaid.Navaid.IsInRange takes the great-circle distance as an argument instead of
  computing it from a coordinate.
- `AirspaceBoundary::new` (src/models/airspace.rs:126-141): a polygon of float coordinates
  with no logic.
- src/models/airport.rs, src/spatial/, src/flight/planner.rs, src/db/ (apart from the
  NOT NULL column), src/ffi.rs, src/sync/client.rs and src/lib.rs are not part of this
  model.
- Error messages: the source's formatted strings are replaced by tags that carry the
  same data (the ICAO code, the waypoint id, the key length).
- An existing device's `last_seen` is the clock reading passed in. Its UPDATE is modelled
  as always succeeding.
- `update_last_seen` on an absent id returns `Ok(())`, as the code does. A `NotFound`
  error is not modelled, because the code never raises one.

## Findings

| source | as written | input that shows it | evidently intended | confidence | as-written member | corrected member |
|---|---|---|---|---|---|---|
| src/db/schema.rs:31 | `secure_devices.encrypted_hardware_info` is declared `TEXT NOT NULL` in the migrated schema | `create_secure_device(id, fp, None)` on a migrated database: the INSERT violates the NOT NULL constraint, although the record type and `decrypt_hardware_info` treat the blob as optional | the column is nullable, as in the test fixture's table (src/device/secure.rs:261) | not executed | SecureStore.MigratedSchemaRejectsNoHardwareInfo | SecureStore.NullableSchemaStoresNoHardwareInfo |
