/** Key managers: an internal key manager describes one key type (how to check
    a key, which primitives it can build, optionally how to make new keys), and
    a KeyManagerImpl binds it to the one primitive class a caller asked for.
    Exceptions become `Err` values that carry the exception's kind and a tag for
    its message. */
module KeyManagers {
  import opened Results

  type byte = x: int | 0 <= x < 256

  /** The primitive classes a key manager can be asked for, as a closed set of
      tags in place of Java class tokens. */
  datatype Capability = Aead | FakeAead | Void | Integer

  datatype KeyMaterialType =
    UnknownKeymaterial | Symmetric | AsymmetricPrivate | AsymmetricPublic | Remote

  /** The protocol-buffer message types in play. */
  datatype ProtoType = AesGcmKeyType | AesGcmKeyFormatType

  datatype AesGcmKey = AesGcmKey(version: nat, keyValue: seq<byte>)

  datatype AesGcmKeyFormat = AesGcmKeyFormat(keySize: nat)

  /** A message handed to a manager: a key or a key format. */
  datatype Message = KeyProto(key: AesGcmKey) | FormatProto(format: AesGcmKeyFormat)

  /** Default instances (every field at its zero value). */
  const DefaultKey: AesGcmKey := AesGcmKey(0, [])
  const DefaultKeyFormat: AesGcmKeyFormat := AesGcmKeyFormat(0)

  /** A serialised message, or bytes that parse as no message. */
  datatype ByteString = Serialized(message: Message) | Malformed(bytes: seq<byte>)

  function ToByteString(m: Message): ByteString {
    Serialized(m)
  }

  datatype ErrorKind = GeneralSecurity | IllegalArgument | UnsupportedOperation

  /** What the exception message says. */
  datatype Reason =
    | ValidateKeyFailed                       // "validateKey(AesGcmKey) failed"
    | ValidateKeyFormatFailed                 // "validateKeyFormat(AesGcmKeyFormat) failed"
    | ExpectedProtoOfType(expected: ProtoType)
    | FailedParsing(expected: ProtoType)
    | NoPrimitiveFor(capability: Capability)  // a message naming the capability
    | PrimitiveNotSupported(capability: Capability)
    | KeyCreationNotSupported

  datatype Error = Error(kind: ErrorKind, reason: Reason)

  /** An opaque primitive: the capability it implements and the key it was built
      from. */
  datatype Primitive = Primitive(capability: Capability, key: AesGcmKey)

  /** The manager's `validateKey`: accept every key, or only keys whose value has
      a fixed length. */
  datatype KeyValidation = AcceptAll | RequireKeyLength(length: nat)

  /** The manager's key factory: `validateKeyFormat` accepts exactly the formats
      of one key size; `createKey` draws that many random bytes. */
  datatype KeyFactory = KeyFactory(requiredKeySize: nat)

  /** Fixed construction-time description of one key type. */
  datatype InternalKeyManager = InternalKeyManager(
    keyType: string,
    version: nat,
    materialType: KeyMaterialType,
    primitiveFactories: set<Capability>,
    keyValidation: KeyValidation,
    keyFactory: Option<KeyFactory>)

  /** A manager bound to the primitive class it serves. */
  datatype KeyManagerImpl = KeyManagerImpl(manager: InternalKeyManager, primitiveClass: Capability)

  /** A newly created key, serialised, with its type URL and material type. */
  datatype KeyData = KeyData(typeUrl: string, value: ByteString, keyMaterialType: KeyMaterialType)

  /** `Random.randBytes`: `rand(n)` is some sequence of `n` bytes. */
  ghost predicate IsRandomSource(rand: nat -> seq<byte>) {
    forall n: nat :: |rand(n)| == n
  }

  // ---------------------------------------------------------------- parsing

  function ParseKey(b: ByteString): (r: Result<AesGcmKey, Error>)
    ensures r.Ok? <==> b.Serialized? && b.message.KeyProto?
    ensures r.Ok? ==> ToByteString(KeyProto(r.value)) == b
    ensures r.Err? ==> r.error == Error(GeneralSecurity, FailedParsing(AesGcmKeyType))
  {
    match b
    case Serialized(KeyProto(key)) => Ok(key)
    case _ => Err(Error(GeneralSecurity, FailedParsing(AesGcmKeyType)))
  }

  function ParseKeyFormat(b: ByteString): (r: Result<AesGcmKeyFormat, Error>)
    ensures r.Ok? <==> b.Serialized? && b.message.FormatProto?
    ensures r.Ok? ==> ToByteString(FormatProto(r.value)) == b
    ensures r.Err? ==> r.error == Error(GeneralSecurity, FailedParsing(AesGcmKeyFormatType))
  {
    match b
    case Serialized(FormatProto(format)) => Ok(format)
    case _ => Err(Error(GeneralSecurity, FailedParsing(AesGcmKeyFormatType)))
  }

  // ------------------------------------------------------ internal manager

  /** The key is one `validateKey` lets through. */
  predicate KeyAccepted(m: InternalKeyManager, key: AesGcmKey) {
    m.keyValidation.RequireKeyLength? ==> |key.keyValue| == m.keyValidation.length
  }

  function ValidateKey(m: InternalKeyManager, key: AesGcmKey): (r: Result<AesGcmKey, Error>)
    ensures r.Ok? <==> KeyAccepted(m, key)
    ensures r.Ok? ==> r.value == key
    ensures r.Err? ==> r.error == Error(GeneralSecurity, ValidateKeyFailed)
  {
    match m.keyValidation
    case AcceptAll => Ok(key)
    case RequireKeyLength(length) =>
      if |key.keyValue| != length then Err(Error(GeneralSecurity, ValidateKeyFailed)) else Ok(key)
  }

  /** The internal manager's `getPrimitive(key, class)`: use the factory
      registered for `c`, if there is one. */
  function ConstructPrimitive(m: InternalKeyManager, key: AesGcmKey, c: Capability)
    : (r: Result<Primitive, Error>)
    ensures r.Ok? <==> c in m.primitiveFactories
    ensures r.Ok? ==> r.value.capability == c && r.value.key == key
    ensures r.Err? ==> r.error == Error(IllegalArgument, PrimitiveNotSupported(c))
  {
    if c in m.primitiveFactories then Ok(Primitive(c, key))
    else Err(Error(IllegalArgument, PrimitiveNotSupported(c)))
  }

  /** `keyFactory()`: managers without one refuse to create keys. */
  function KeyFactoryOf(m: InternalKeyManager): (r: Result<KeyFactory, Error>)
    ensures r.Ok? <==> m.keyFactory.Some?
    ensures r.Ok? ==> r.value == m.keyFactory.value
    ensures r.Err? ==> r.error == Error(UnsupportedOperation, KeyCreationNotSupported)
  {
    match m.keyFactory
    case Some(factory) => Ok(factory)
    case None => Err(Error(UnsupportedOperation, KeyCreationNotSupported))
  }

  function ValidateKeyFormat(factory: KeyFactory, format: AesGcmKeyFormat)
    : (r: Result<AesGcmKeyFormat, Error>)
    ensures r.Ok? <==> format.keySize == factory.requiredKeySize
    ensures r.Ok? ==> r.value == format
    ensures r.Err? ==> r.error == Error(GeneralSecurity, ValidateKeyFormatFailed)
  {
    if format.keySize != factory.requiredKeySize then
      Err(Error(GeneralSecurity, ValidateKeyFormatFailed))
    else
      Ok(format)
  }

  /** `createKey`: a key of the requested size, filled with random bytes and
      stamped with the manager's version. */
  function CreateKey(m: InternalKeyManager, format: AesGcmKeyFormat, rand: nat -> seq<byte>)
    : (k: AesGcmKey)
    requires IsRandomSource(rand)
    ensures |k.keyValue| == format.keySize
    ensures k.version == m.version
  {
    AesGcmKey(m.version, rand(format.keySize))
  }

  // -------------------------------------------------------- KeyManagerImpl

  /** The constructor: the requested class must be one the manager has a factory
      for, or Void (a manager that only makes keys). */
  function NewKeyManagerImpl(m: InternalKeyManager, c: Capability): (r: Result<KeyManagerImpl, Error>)
    ensures r.Ok? <==> c in m.primitiveFactories || c == Void
    ensures r.Ok? ==> GetPrimitiveClass(r.value) == c && r.value.manager == m
    ensures r.Err? ==> r.error == Error(IllegalArgument, PrimitiveNotSupported(c))
  {
    if c in m.primitiveFactories || c == Void then Ok(KeyManagerImpl(m, c))
    else Err(Error(IllegalArgument, PrimitiveNotSupported(c)))
  }

  /** The class the manager was built for. */
  function GetPrimitiveClass(km: KeyManagerImpl): (c: Capability)
    ensures c == km.primitiveClass
  {
    km.primitiveClass
  }

  /** The type URL of the internal manager's keys. */
  function GetKeyType(km: KeyManagerImpl): (typeUrl: string)
    ensures typeUrl == km.manager.keyType
  {
    km.manager.keyType
  }

  /** The internal manager's version, which new keys are stamped with. */
  function GetVersion(km: KeyManagerImpl): (v: nat)
    ensures v == km.manager.version
  {
    km.manager.version
  }

  function DoesSupport(km: KeyManagerImpl, typeUrl: string): (b: bool)
    ensures b <==> typeUrl == GetKeyType(km)
  {
    typeUrl == km.manager.keyType
  }

  /** Refuse Void, then validate the key, then build the primitive of the bound
      class. */
  function ValidateKeyAndGetPrimitive(km: KeyManagerImpl, key: AesGcmKey): (r: Result<Primitive, Error>)
    ensures r.Ok? <==>
              && km.primitiveClass != Void
              && KeyAccepted(km.manager, key)
              && km.primitiveClass in km.manager.primitiveFactories
    ensures r.Ok? ==> r.value == Primitive(km.primitiveClass, key)
    ensures km.primitiveClass == Void ==> r == Err(Error(GeneralSecurity, NoPrimitiveFor(Void)))
    ensures km.primitiveClass != Void && !KeyAccepted(km.manager, key) ==>
              r == Err(Error(GeneralSecurity, ValidateKeyFailed))
  {
    if km.primitiveClass == Void then
      Err(Error(GeneralSecurity, NoPrimitiveFor(Void)))
    else
      var valid :- ValidateKey(km.manager, key);
      ConstructPrimitive(km.manager, valid, km.primitiveClass)
  }

  /** `getPrimitive(MessageLite)`: the message must be a key. */
  function GetPrimitiveFromProto(km: KeyManagerImpl, m: Message): (r: Result<Primitive, Error>)
    ensures !m.KeyProto? ==> r == Err(Error(GeneralSecurity, ExpectedProtoOfType(AesGcmKeyType)))
    ensures m.KeyProto? ==> r == ValidateKeyAndGetPrimitive(km, m.key)
  {
    if !m.KeyProto? then Err(Error(GeneralSecurity, ExpectedProtoOfType(AesGcmKeyType)))
    else ValidateKeyAndGetPrimitive(km, m.key)
  }

  /** `getPrimitive(ByteString)`: parse, then as for a key object. On a
      serialised key the two overloads agree. */
  function GetPrimitive(km: KeyManagerImpl, serializedKey: ByteString): (r: Result<Primitive, Error>)
    ensures serializedKey.Serialized? && serializedKey.message.KeyProto? ==>
              r == GetPrimitiveFromProto(km, serializedKey.message)
    ensures !(serializedKey.Serialized? && serializedKey.message.KeyProto?) ==>
              r == Err(Error(GeneralSecurity, FailedParsing(AesGcmKeyType)))
  {
    var key :- ParseKey(serializedKey);
    ValidateKeyAndGetPrimitive(km, key)
  }

  /** Validate a parsed format against the factory and create the key. */
  function ValidateCreate(km: KeyManagerImpl, factory: KeyFactory, format: AesGcmKeyFormat,
                          rand: nat -> seq<byte>): (r: Result<AesGcmKey, Error>)
    requires IsRandomSource(rand)
    ensures r.Ok? <==> format.keySize == factory.requiredKeySize
    ensures r.Ok? ==> |r.value.keyValue| == format.keySize && r.value.version == GetVersion(km)
    ensures r.Err? ==> r.error == Error(GeneralSecurity, ValidateKeyFormatFailed)
  {
    var valid :- ValidateKeyFormat(factory, format);
    Ok(CreateKey(km.manager, valid, rand))
  }

  /** `newKey(MessageLite)`: a manager without a key factory refuses before it
      looks at the message; otherwise the message must be a key format. */
  function NewKeyFromProto(km: KeyManagerImpl, m: Message, rand: nat -> seq<byte>)
    : (r: Result<AesGcmKey, Error>)
    requires IsRandomSource(rand)
    ensures km.manager.keyFactory.None? ==> r == Err(Error(UnsupportedOperation, KeyCreationNotSupported))
    ensures km.manager.keyFactory.Some? && !m.FormatProto? ==>
              r == Err(Error(GeneralSecurity, ExpectedProtoOfType(AesGcmKeyFormatType)))
    ensures km.manager.keyFactory.Some? && m.FormatProto? ==>
              r == ValidateCreate(km, km.manager.keyFactory.value, m.format, rand)
  {
    var factory :- KeyFactoryOf(km.manager);
    if !m.FormatProto? then Err(Error(GeneralSecurity, ExpectedProtoOfType(AesGcmKeyFormatType)))
    else ValidateCreate(km, factory, m.format, rand)
  }

  /** `newKey(ByteString)`: key factory first, then parse, then as for a format
      object. */
  function NewKey(km: KeyManagerImpl, serializedFormat: ByteString, rand: nat -> seq<byte>)
    : (r: Result<AesGcmKey, Error>)
    requires IsRandomSource(rand)
    ensures km.manager.keyFactory.None? ==> r == Err(Error(UnsupportedOperation, KeyCreationNotSupported))
    ensures km.manager.keyFactory.Some? && serializedFormat.Serialized? && serializedFormat.message.FormatProto? ==>
              r == NewKeyFromProto(km, serializedFormat.message, rand)
    ensures km.manager.keyFactory.Some? && !(serializedFormat.Serialized? && serializedFormat.message.FormatProto?) ==>
              r == Err(Error(GeneralSecurity, FailedParsing(AesGcmKeyFormatType)))
  {
    var factory :- KeyFactoryOf(km.manager);
    var format :- ParseKeyFormat(serializedFormat);
    ValidateCreate(km, factory, format, rand)
  }

  /** `newKeyData(ByteString)`: the new key, serialised, labelled with the
      manager's type URL and material type. */
  function NewKeyData(km: KeyManagerImpl, serializedFormat: ByteString, rand: nat -> seq<byte>)
    : (r: Result<KeyData, Error>)
    requires IsRandomSource(rand)
    ensures r.Ok? <==> NewKey(km, serializedFormat, rand).Ok?
    ensures r.Ok? ==>
              && r.value.typeUrl == GetKeyType(km)
              && r.value.keyMaterialType == km.manager.materialType
              && ParseKey(r.value.value) == NewKey(km, serializedFormat, rand)
    ensures r.Err? ==> r.error == NewKey(km, serializedFormat, rand).error
  {
    var key :- NewKey(km, serializedFormat, rand);
    Ok(KeyData(km.manager.keyType, ToByteString(KeyProto(key)), km.manager.materialType))
  }

  // ----------------------------------------------------------------- lemmas

  /** The key factory makes keys that the manager's own `validateKey` accepts. */
  predicate FactoryAgreesWithValidation(m: InternalKeyManager) {
    m.keyFactory.Some? &&
    (m.keyValidation.RequireKeyLength? ==> m.keyValidation.length == m.keyFactory.value.requiredKeySize)
  }

  /** Round trip: a key made from an accepted format gives a primitive of the
      bound class, whether it is passed as an object or serialised. */
  lemma NewKeyThenGetPrimitive(km: KeyManagerImpl, format: AesGcmKeyFormat, rand: nat -> seq<byte>)
    requires IsRandomSource(rand)
    requires FactoryAgreesWithValidation(km.manager)
    requires km.primitiveClass in km.manager.primitiveFactories && km.primitiveClass != Void
    requires format.keySize == km.manager.keyFactory.value.requiredKeySize
    ensures NewKeyFromProto(km, FormatProto(format), rand).Ok?
    ensures var key := NewKeyFromProto(km, FormatProto(format), rand).value;
            && GetPrimitiveFromProto(km, KeyProto(key)) == Ok(Primitive(km.primitiveClass, key))
            && GetPrimitive(km, ToByteString(KeyProto(key))) == Ok(Primitive(km.primitiveClass, key))
  {
  }

  /** The key data that `newKeyData` returns can be handed straight back to
      `getPrimitive`. */
  lemma NewKeyDataThenGetPrimitive(km: KeyManagerImpl, format: AesGcmKeyFormat, rand: nat -> seq<byte>)
    requires IsRandomSource(rand)
    requires FactoryAgreesWithValidation(km.manager)
    requires km.primitiveClass in km.manager.primitiveFactories && km.primitiveClass != Void
    requires format.keySize == km.manager.keyFactory.value.requiredKeySize
    ensures NewKeyData(km, ToByteString(FormatProto(format)), rand).Ok?
    ensures GetPrimitive(km, NewKeyData(km, ToByteString(FormatProto(format)), rand).value.value).Ok?
  {
    NewKeyThenGetPrimitive(km, format, rand);
  }

  /** Every error carries the kind that matches its reason: IllegalArgument
      only for a missing primitive factory, UnsupportedOperation only for a
      missing key factory, GeneralSecurity otherwise. */
  predicate WellKinded(e: Error) {
    match e.reason
    case PrimitiveNotSupported(_) => e.kind == IllegalArgument
    case KeyCreationNotSupported => e.kind == UnsupportedOperation
    case _ => e.kind == GeneralSecurity
  }

  lemma ErrorsWellKinded(km: KeyManagerImpl, m: Message, b: ByteString, rand: nat -> seq<byte>)
    requires IsRandomSource(rand)
    ensures GetPrimitiveFromProto(km, m).Err? ==> WellKinded(GetPrimitiveFromProto(km, m).error)
    ensures GetPrimitive(km, b).Err? ==> WellKinded(GetPrimitive(km, b).error)
    ensures NewKeyFromProto(km, m, rand).Err? ==> WellKinded(NewKeyFromProto(km, m, rand).error)
    ensures NewKey(km, b, rand).Err? ==> WellKinded(NewKey(km, b, rand).error)
    ensures NewKeyData(km, b, rand).Err? ==> WellKinded(NewKeyData(km, b, rand).error)
  {
  }

  /** A manager built for a class it has a factory for never reports a missing
      factory from `getPrimitive`: the constructor's check rules that out. */
  lemma ConstructedManagerHasFactory(m: InternalKeyManager, c: Capability, key: AesGcmKey)
    requires NewKeyManagerImpl(m, c).Ok?
    ensures ValidateKeyAndGetPrimitive(NewKeyManagerImpl(m, c).value, key).Err? ==>
              ValidateKeyAndGetPrimitive(NewKeyManagerImpl(m, c).value, key).error.kind == GeneralSecurity
  {
  }
}
