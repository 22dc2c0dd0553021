/** The hybrid-decrypt catalogue: given a key type URL, a primitive name and a
    minimum version, hand out the key manager that decrypts that key type, or a
    NOT_FOUND status saying which of its three gates refused the request. */
module HybridDecryptCatalogue {
  import opened Results
  import opened Ascii

  /** C++ `uint32_t`. */
  type u32 = x: int | 0 <= x < 0x1_0000_0000

  /** The canonical status codes of the C++ status type. */
  datatype ErrorCode =
    | Cancelled | Unknown | InvalidArgument | DeadlineExceeded | NotFound
    | AlreadyExists | PermissionDenied | ResourceExhausted | FailedPrecondition
    | Aborted | OutOfRange | Unimplemented | Internal | Unavailable | DataLoss
    | Unauthenticated

  /** What the status message reports, in place of the formatted text. */
  datatype Reason =
    | UnsupportedPrimitive(primitiveName: string)
    | NoManagerForTypeUrl(typeUrl: string)
    | NoManagerWithMinVersion(typeUrl: string, minVersion: u32)

  datatype Status = Status(code: ErrorCode, reason: Reason)

  /** Type URL handled by the ECIES-AEAD-HKDF private-key manager. */
  const EciesAeadHkdfPrivateKeyType: string :=
    "type.googleapis.com/google.crypto.tink.EciesAeadHkdfPrivateKey"

  /** Version reported by the ECIES-AEAD-HKDF private-key manager. */
  const EciesAeadHkdfPrivateKeyVersion: u32 := 0

  /** The only primitive this catalogue serves, in lower case. */
  const HybridDecryptName: string := "hybriddecrypt"

  /** The hybrid-decrypt key managers the catalogue can create. */
  datatype HybridDecryptKeyManager = EciesAeadHkdfPrivateKeyManager {

    function KeyType(): string {
      EciesAeadHkdfPrivateKeyType
    }

    function Version(): u32 {
      EciesAeadHkdfPrivateKeyVersion
    }
  }

  /** The request is one the catalogue can serve: the name is "HybridDecrypt" in
      any casing, some manager handles the type URL, and that manager is recent
      enough. */
  predicate Serves(typeUrl: string, primitiveName: string, minVersion: u32) {
    && IsCasingOf(primitiveName, HybridDecryptName)
    && exists m: HybridDecryptKeyManager :: m.KeyType() == typeUrl && m.Version() >= minVersion
  }

  /** The manager for `typeUrl`, or NOT_FOUND when no manager handles it. */
  function CreateKeyManager(typeUrl: string): (r: Result<HybridDecryptKeyManager, Status>)
    ensures r.Ok? <==> exists m: HybridDecryptKeyManager :: m.KeyType() == typeUrl
    ensures r.Ok? ==> r.value.KeyType() == typeUrl
    ensures r.Err? ==> r.error == Status(NotFound, NoManagerForTypeUrl(typeUrl))
  {
    if typeUrl == EciesAeadHkdfPrivateKeyType then
      assert EciesAeadHkdfPrivateKeyManager.KeyType() == typeUrl;
      Ok(EciesAeadHkdfPrivateKeyManager)
    else
      assert forall m: HybridDecryptKeyManager :: m.KeyType() != typeUrl;
      Err(Status(NotFound, NoManagerForTypeUrl(typeUrl)))
  }

  /** The catalogue's lookup. The gates are tried in order: primitive name, then
      type URL, then version; the first that fails decides the reason. */
  function GetKeyManager(typeUrl: string, primitiveName: string, minVersion: u32)
    : (r: Result<HybridDecryptKeyManager, Status>)
    ensures r.Ok? <==> Serves(typeUrl, primitiveName, minVersion)
    ensures r.Ok? ==> r.value.KeyType() == typeUrl && r.value.Version() >= minVersion
    ensures r.Err? ==> r.error.code == NotFound
    ensures !IsCasingOf(primitiveName, HybridDecryptName) ==>
              r == Err(Status(NotFound, UnsupportedPrimitive(primitiveName)))
    ensures IsCasingOf(primitiveName, HybridDecryptName) && CreateKeyManager(typeUrl).Err? ==>
              r == Err(Status(NotFound, NoManagerForTypeUrl(typeUrl)))
    ensures IsCasingOf(primitiveName, HybridDecryptName) && CreateKeyManager(typeUrl).Ok?
            && CreateKeyManager(typeUrl).value.Version() < minVersion ==>
              r == Err(Status(NotFound, NoManagerWithMinVersion(typeUrl, minVersion)))
  {
    ToLowerEqualsIff(primitiveName, HybridDecryptName);
    if ToLower(primitiveName) != HybridDecryptName then
      Err(Status(NotFound, UnsupportedPrimitive(primitiveName)))
    else
      var manager :- CreateKeyManager(typeUrl);
      if manager.Version() < minVersion then
        Err(Status(NotFound, NoManagerWithMinVersion(typeUrl, minVersion)))
      else
        Ok(manager)
  }

  /** The name gate comes first: a wrong name is reported as such even when the
      type URL is unknown too. */
  lemma NameGateBeforeTypeUrl(typeUrl: string, primitiveName: string, minVersion: u32)
    requires !IsCasingOf(primitiveName, HybridDecryptName)
    requires typeUrl != EciesAeadHkdfPrivateKeyType
    ensures GetKeyManager(typeUrl, primitiveName, minVersion).Err?
    ensures GetKeyManager(typeUrl, primitiveName, minVersion).error.reason
            == UnsupportedPrimitive(primitiveName)
    ensures GetKeyManager(typeUrl, primitiveName, minVersion).error.reason
            != CreateKeyManager(typeUrl).error.reason
  {
  }

  /** Every casing of "HybridDecrypt" passes the name gate: with the ECIES type
      URL and minimum version 0 the lookup succeeds. */
  lemma AnyCasingWithMinVersionZero(primitiveName: string)
    requires IsCasingOf(primitiveName, HybridDecryptName)
    ensures GetKeyManager(EciesAeadHkdfPrivateKeyType, primitiveName, 0)
            == Ok(EciesAeadHkdfPrivateKeyManager)
  {
  }

  /** Lowering the minimum version never turns a success into a failure, and the
      same manager is returned. */
  lemma MinVersionMonotone(typeUrl: string, primitiveName: string, lower: u32, higher: u32)
    requires lower <= higher
    requires GetKeyManager(typeUrl, primitiveName, higher).Ok?
    ensures GetKeyManager(typeUrl, primitiveName, lower) == GetKeyManager(typeUrl, primitiveName, higher)
  {
  }

  /** The manager version sits below every minimum version above it: asking for a
      newer manager than the one there is fails on the version gate. */
  lemma VersionTooLow(primitiveName: string, minVersion: u32)
    requires IsCasingOf(primitiveName, HybridDecryptName)
    requires minVersion > EciesAeadHkdfPrivateKeyVersion
    ensures GetKeyManager(EciesAeadHkdfPrivateKeyType, primitiveName, minVersion)
            == Err(Status(NotFound, NoManagerWithMinVersion(EciesAeadHkdfPrivateKeyType, minVersion)))
  {
  }

  /** "HybridDecrypt" as the source spells it passes the name gate. */
  lemma MixedCasePasses()
    ensures GetKeyManager(EciesAeadHkdfPrivateKeyType, "HybridDecrypt", 0).Ok?
  {
    var name := "HybridDecrypt";
    assert name[0] == ToUpperChar(HybridDecryptName[0]);
    assert name[6] == ToUpperChar(HybridDecryptName[6]);
    assert forall i :: 0 <= i < |name| && i != 0 && i != 6 ==> name[i] == HybridDecryptName[i];
    assert IsCasingOf(name, HybridDecryptName);
    AnyCasingWithMinVersionZero(name);
  }

  /** The all-capitals spelling passes the name gate too. */
  lemma UpperCasePasses()
    ensures GetKeyManager(EciesAeadHkdfPrivateKeyType, "HYBRIDDECRYPT", 0).Ok?
  {
    assert ToUpperChar('h') == 'H' && ToUpperChar('y') == 'Y' && ToUpperChar('b') == 'B';
    assert ToUpperChar('r') == 'R' && ToUpperChar('i') == 'I' && ToUpperChar('d') == 'D';
    assert ToUpperChar('e') == 'E' && ToUpperChar('c') == 'C' && ToUpperChar('p') == 'P';
    assert ToUpperChar('t') == 'T';
    assert IsCasingOf("HYBRIDDECRYPT", HybridDecryptName);
    AnyCasingWithMinVersionZero("HYBRIDDECRYPT");
  }

  /** Another primitive's name is refused whatever the type URL. */
  lemma OtherPrimitiveRefused(typeUrl: string, minVersion: u32)
    ensures GetKeyManager(typeUrl, "HybridEncrypt", minVersion)
            == Err(Status(NotFound, UnsupportedPrimitive("HybridEncrypt")))
  {
    assert "HybridEncrypt"[6] != HybridDecryptName[6];
    assert "HybridEncrypt"[6] != ToUpperChar(HybridDecryptName[6]);
  }
}
