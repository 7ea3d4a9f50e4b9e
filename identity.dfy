/** src/device/identity.rs: the identity a device presents. */
module Identity {

  datatype Identity = Identity(deviceId: string, fingerprint: string, isAuthorized: bool) {

    /** `new`: an identity starts out authorised. */
    static function New(deviceId: string, fingerprint: string): (i: Identity)
      ensures i.deviceId == deviceId && i.fingerprint == fingerprint && i.isAuthorized
    {
      Identity(deviceId, fingerprint, true)
    }

    /** `is_valid`: both names present, and authorised. */
    predicate IsValid() {
      deviceId != [] && fingerprint != [] && isAuthorized
    }

    /** Withdrawing authorisation, as test_invalid_identity does by assigning the field. */
    function Revoke(): (i: Identity)
      ensures i.deviceId == deviceId && i.fingerprint == fingerprint && !i.isAuthorized
    {
      this.(isAuthorized := false)
    }
  }

  /** A new identity is valid exactly when both of its names are non-empty. */
  lemma NewValidIff(deviceId: string, fingerprint: string)
    ensures Identity.New(deviceId, fingerprint).IsValid() <==> deviceId != [] && fingerprint != []
  {
  }

  /** A revoked identity is never valid, and revoking keeps both names. */
  lemma RevokedInvalid(i: Identity)
    ensures !i.Revoke().IsValid()
    ensures i.Revoke().deviceId == i.deviceId && i.Revoke().fingerprint == i.fingerprint
  {
  }

  /** test_identity_creation and test_invalid_identity. */
  lemma IdentityExamples()
    ensures Identity.New("device-123", "fingerprint-456").IsValid()
    ensures Identity.New("device-123", "fingerprint-456").deviceId == "device-123"
    ensures !Identity.New("device-123", "fingerprint-456").Revoke().IsValid()
  {
  }
}
