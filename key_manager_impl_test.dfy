/** The two internal key managers of the KeyManagerImpl tests and what the
    tests assert of a KeyManagerImpl built over them, stated for every input
    the tests sample from rather than for the one value each test uses. */
module KeyManagerImplTest {
  import opened Results
  import opened KeyManagers

  const AesGcmKeyTypeUrl: string := "type.googleapis.com/google.crypto.tink.AesGcmKey"

  /** Accepts keys of 16 bytes and formats of key size 16, builds Aead and
      FakeAead primitives, version 1, symmetric material. */
  const TestInternalKeyManager: InternalKeyManager :=
    InternalKeyManager(AesGcmKeyTypeUrl, 1, Symmetric, {Aead, FakeAead},
                       RequireKeyLength(16), Some(KeyFactory(16)))

  /** Accepts every key, builds no primitive, cannot create keys. */
  const TestInternalKeyManagerWithoutKeyFactory: InternalKeyManager :=
    InternalKeyManager(AesGcmKeyTypeUrl, 1, Symmetric, {}, AcceptAll, None)

  /** What the test manager says of itself and which keys, formats and classes
      it accepts: the AES-GCM URL, version 1, symmetric material, exactly the
      16-byte keys, exactly the size-16 formats, every class but Integer. */
  lemma TestInternalKeyManagerDescribed(key: AesGcmKey, format: AesGcmKeyFormat, c: Capability)
    ensures var km := KeyManagerImpl(TestInternalKeyManager, c);
            && GetKeyType(km) == AesGcmKeyTypeUrl
            && GetVersion(km) == 1
            && TestInternalKeyManager.materialType == Symmetric
    ensures ValidateKey(TestInternalKeyManager, key).Ok? <==> |key.keyValue| == 16
    ensures KeyFactoryOf(TestInternalKeyManager).Ok?
    ensures ValidateKeyFormat(KeyFactoryOf(TestInternalKeyManager).value, format).Ok? <==> format.keySize == 16
    ensures NewKeyManagerImpl(TestInternalKeyManager, c).Ok? <==> c in {Aead, FakeAead, Void}
  {
  }

  /** The manager without a key factory: same URL, version and material type,
      accepts every key, builds no primitive and cannot create keys. */
  lemma TestInternalKeyManagerWithoutKeyFactoryDescribed(key: AesGcmKey, c: Capability)
    ensures var km := KeyManagerImpl(TestInternalKeyManagerWithoutKeyFactory, c);
            && GetKeyType(km) == AesGcmKeyTypeUrl
            && GetVersion(km) == 1
            && TestInternalKeyManagerWithoutKeyFactory.materialType == Symmetric
    ensures ValidateKey(TestInternalKeyManagerWithoutKeyFactory, key) == Ok(key)
    ensures KeyFactoryOf(TestInternalKeyManagerWithoutKeyFactory)
            == Err(Error(UnsupportedOperation, KeyCreationNotSupported))
    ensures ConstructPrimitive(TestInternalKeyManagerWithoutKeyFactory, key, c).Err?
  {
  }

  /** `new KeyManagerImpl<>(new TestInternalKeyManager(), c)` for a class it
      accepts. */
  function TestKeyManager(c: Capability): (km: KeyManagerImpl)
    requires c != Integer
    ensures NewKeyManagerImpl(TestInternalKeyManager, c) == Ok(km)
  {
    KeyManagerImpl(TestInternalKeyManager, c)
  }

  /** Aead and FakeAead have factories, Void is let through without one, and
      Integer is refused with an illegal-argument error. */
  lemma ConstructionOutcomes(c: Capability)
    ensures NewKeyManagerImpl(TestInternalKeyManager, c).Ok? <==> c != Integer
    ensures NewKeyManagerImpl(TestInternalKeyManager, Integer)
            == Err(Error(IllegalArgument, PrimitiveNotSupported(Integer)))
    ensures NewKeyManagerImpl(TestInternalKeyManagerWithoutKeyFactory, c).Ok? <==> c == Void
  {
  }

  /** `getPrimitiveClass` gives back the class the manager was built for. */
  lemma PrimitiveClassIsRequested(c: Capability)
    requires c != Integer
    ensures GetPrimitiveClass(TestKeyManager(c)) == c
  {
  }

  /** `getPrimitive` on a key object and on its serialisation accepts exactly
      the keys whose value has 16 bytes, for both primitive classes; any other
      key fails with the `validateKey` error. */
  lemma GetPrimitiveAcceptsExactly16ByteKeys(c: Capability, key: AesGcmKey)
    requires c == Aead || c == FakeAead
    ensures GetPrimitiveFromProto(TestKeyManager(c), KeyProto(key)).Ok? <==> |key.keyValue| == 16
    ensures GetPrimitive(TestKeyManager(c), ToByteString(KeyProto(key))).Ok? <==> |key.keyValue| == 16
    ensures |key.keyValue| == 16 ==>
              GetPrimitiveFromProto(TestKeyManager(c), KeyProto(key)) == Ok(Primitive(c, key))
    ensures |key.keyValue| != 16 ==>
              && GetPrimitiveFromProto(TestKeyManager(c), KeyProto(key))
                 == Err(Error(GeneralSecurity, ValidateKeyFailed))
              && GetPrimitive(TestKeyManager(c), ToByteString(KeyProto(key)))
                 == Err(Error(GeneralSecurity, ValidateKeyFailed))
  {
  }

  /** The default key has an empty value and is refused. */
  lemma DefaultKeyRejected()
    ensures GetPrimitive(TestKeyManager(Aead), ToByteString(KeyProto(DefaultKey)))
            == Err(Error(GeneralSecurity, ValidateKeyFailed))
    ensures GetPrimitiveFromProto(TestKeyManager(Aead), KeyProto(DefaultKey))
            == Err(Error(GeneralSecurity, ValidateKeyFailed))
  {
    GetPrimitiveAcceptsExactly16ByteKeys(Aead, DefaultKey);
  }

  /** A format of size 16 yields a key, and that key, as an object or
      serialised, yields a primitive, for Aead and for FakeAead. */
  lemma NewKeyRoundTrip(c: Capability, rand: nat -> seq<byte>)
    requires IsRandomSource(rand)
    requires c == Aead || c == FakeAead
    ensures NewKeyFromProto(TestKeyManager(c), FormatProto(AesGcmKeyFormat(16)), rand).Ok?
    ensures NewKey(TestKeyManager(c), ToByteString(FormatProto(AesGcmKeyFormat(16))), rand).Ok?
    ensures var key := NewKeyFromProto(TestKeyManager(c), FormatProto(AesGcmKeyFormat(16)), rand).value;
            && GetPrimitiveFromProto(TestKeyManager(c), KeyProto(key)).Ok?
            && GetPrimitive(TestKeyManager(c), ToByteString(KeyProto(key))).Ok?
  {
    NewKeyThenGetPrimitive(TestKeyManager(c), AesGcmKeyFormat(16), rand);
  }

  /** `createKey`: the key has as many bytes as the format asks for and carries
      the manager's version. */
  lemma CreatedKeyShape(c: Capability, format: AesGcmKeyFormat, rand: nat -> seq<byte>)
    requires IsRandomSource(rand)
    requires c != Integer
    requires format.keySize == 16
    ensures NewKeyFromProto(TestKeyManager(c), FormatProto(format), rand).Ok?
    ensures |NewKeyFromProto(TestKeyManager(c), FormatProto(format), rand).value.keyValue| == format.keySize
    ensures NewKeyFromProto(TestKeyManager(c), FormatProto(format), rand).value.version
            == GetVersion(TestKeyManager(c))
  {
  }

  /** A Void manager still makes keys, but asking it for a primitive fails with
      an error that names Void, even for a valid key. */
  lemma VoidManagerHasNoPrimitive(key: AesGcmKey, rand: nat -> seq<byte>)
    requires IsRandomSource(rand)
    ensures NewKeyFromProto(TestKeyManager(Void), FormatProto(AesGcmKeyFormat(16)), rand).Ok?
    ensures GetPrimitiveFromProto(TestKeyManager(Void), KeyProto(key))
            == Err(Error(GeneralSecurity, NoPrimitiveFor(Void)))
    ensures GetPrimitive(TestKeyManager(Void), ToByteString(KeyProto(key)))
            == Err(Error(GeneralSecurity, NoPrimitiveFor(Void)))
  {
  }

  /** A message of the wrong type is refused by name: a format where a key is
      expected, a key where a format is expected. */
  lemma WrongProtoRejected(c: Capability, format: AesGcmKeyFormat, key: AesGcmKey, rand: nat -> seq<byte>)
    requires IsRandomSource(rand)
    requires c != Integer
    ensures GetPrimitiveFromProto(TestKeyManager(c), FormatProto(format))
            == Err(Error(GeneralSecurity, ExpectedProtoOfType(AesGcmKeyType)))
    ensures NewKeyFromProto(TestKeyManager(c), KeyProto(key), rand)
            == Err(Error(GeneralSecurity, ExpectedProtoOfType(AesGcmKeyFormatType)))
  {
  }

  /** `newKey` (both forms) and `newKeyData` accept exactly the formats of size
      16; any other size, 17 or the default 0 among them, fails with the
      `validateKeyFormat` error. */
  lemma NewKeyAcceptsExactlySize16(c: Capability, format: AesGcmKeyFormat, rand: nat -> seq<byte>)
    requires IsRandomSource(rand)
    requires c != Integer
    ensures NewKeyFromProto(TestKeyManager(c), FormatProto(format), rand).Ok? <==> format.keySize == 16
    ensures NewKey(TestKeyManager(c), ToByteString(FormatProto(format)), rand).Ok? <==> format.keySize == 16
    ensures NewKeyData(TestKeyManager(c), ToByteString(FormatProto(format)), rand).Ok? <==> format.keySize == 16
    ensures format.keySize != 16 ==>
              && NewKeyFromProto(TestKeyManager(c), FormatProto(format), rand)
                 == Err(Error(GeneralSecurity, ValidateKeyFormatFailed))
              && NewKey(TestKeyManager(c), ToByteString(FormatProto(format)), rand)
                 == Err(Error(GeneralSecurity, ValidateKeyFormatFailed))
              && NewKeyData(TestKeyManager(c), ToByteString(FormatProto(format)), rand)
                 == Err(Error(GeneralSecurity, ValidateKeyFormatFailed))
  {
  }

  /** The default format (size 0) and size 17 are refused. */
  lemma RejectedFormatSizes(rand: nat -> seq<byte>)
    requires IsRandomSource(rand)
    ensures NewKeyFromProto(TestKeyManager(Aead), FormatProto(DefaultKeyFormat), rand)
            == Err(Error(GeneralSecurity, ValidateKeyFormatFailed))
    ensures NewKey(TestKeyManager(Aead), ToByteString(FormatProto(AesGcmKeyFormat(17))), rand)
            == Err(Error(GeneralSecurity, ValidateKeyFormatFailed))
    ensures NewKeyData(TestKeyManager(Aead), ToByteString(FormatProto(AesGcmKeyFormat(17))), rand)
            == Err(Error(GeneralSecurity, ValidateKeyFormatFailed))
  {
    NewKeyAcceptsExactlySize16(Aead, DefaultKeyFormat, rand);
    NewKeyAcceptsExactlySize16(Aead, AesGcmKeyFormat(17), rand);
  }

  /** `doesSupport` holds of the AES-GCM type URL and of no other, and
      `getKeyType` is that URL. */
  lemma SupportsOnlyAesGcm(c: Capability, typeUrl: string)
    requires c != Integer
    ensures GetKeyType(TestKeyManager(c)) == AesGcmKeyTypeUrl
    ensures DoesSupport(TestKeyManager(c), typeUrl) <==> typeUrl == AesGcmKeyTypeUrl
    ensures !DoesSupport(TestKeyManager(c), "type.googleapis.com/SomeOtherKey")
  {
    assert |"type.googleapis.com/SomeOtherKey"| != |AesGcmKeyTypeUrl|;
  }

  /** `newKeyData` on a size-16 format: the type URL is the manager's, the
      material is symmetric, and the value holds a key of at least 16 bytes. */
  lemma NewKeyDataContents(c: Capability, rand: nat -> seq<byte>)
    requires IsRandomSource(rand)
    requires c != Integer
    ensures var data := NewKeyData(TestKeyManager(c), ToByteString(FormatProto(AesGcmKeyFormat(16))), rand);
            && data.Ok?
            && data.value.typeUrl == AesGcmKeyTypeUrl
            && data.value.keyMaterialType == Symmetric
            && ParseKey(data.value.value).Ok?
            && |ParseKey(data.value.value).value.keyValue| >= 16
  {
  }

  /** Without a key factory, `newKey` (both forms) and `newKeyData` fail with
      UnsupportedOperation whatever they are given, even a well-formed key. */
  lemma WithoutKeyFactoryUnsupported(m: Message, b: ByteString, rand: nat -> seq<byte>)
    requires IsRandomSource(rand)
    ensures NewKeyManagerImpl(TestInternalKeyManagerWithoutKeyFactory, Void).Ok?
    ensures var km := NewKeyManagerImpl(TestInternalKeyManagerWithoutKeyFactory, Void).value;
            && NewKey(km, b, rand) == Err(Error(UnsupportedOperation, KeyCreationNotSupported))
            && NewKeyFromProto(km, m, rand) == Err(Error(UnsupportedOperation, KeyCreationNotSupported))
            && NewKeyData(km, b, rand) == Err(Error(UnsupportedOperation, KeyCreationNotSupported))
  {
  }
}
