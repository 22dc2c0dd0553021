# Key-manager decision logic of Tink, modelled in Dafny

This project models two small parts of Tink's key-manager layer. Both are pure
decision logic over strings, numbers and error values.

- **The hybrid-decrypt catalogue** (`hybrid_decrypt_catalogue.dfy`, which uses
  `ascii.dfy`). `GetKeyManager(type_url, primitive_name, min_version)` hands
  out the ECIES-AEAD-HKDF private-key manager. It checks three gates in order:
  1. the primitive name, lower-cased, is `"hybriddecrypt"`;
  2. the type URL is the one key type the catalogue knows (`CreateKeyManager`);
  3. the manager's version is at least `min_version`.

  If any gate fails, the result is a NOT_FOUND status whose reason tag names
  that gate. The model proves that success is exactly the declarative
  condition `Serves`, and that the first failing gate decides the reason. It
  also proves that comparing the lower-cased name with `"hybriddecrypt"` is a
  case-insensitive match (`Ascii.ToLowerEqualsIff`).
- **The `KeyManagerImpl` contract**, as the Java test `KeyManagerImplTest`
  pins it down (`key_managers.dfy`, `key_manager_impl_test.dfy`).
  - An internal key manager is an immutable record: key type, version,
    material type, the capabilities it has primitive factories for, its
    `validateKey` rule and an optional key factory.
  - A `KeyManagerImpl` is such a record bound to one requested capability.
  - Java class tokens become the closed enum `Capability`:
    `Aead | FakeAead | Void | Integer`.
  - Thrown exceptions become `Err(Error(kind, reason))`.
  - The model covers `getPrimitive` (key object and serialised form),
    `newKey` (format object and serialised form), `newKeyData`,
    `doesSupport`, `getKeyType` and `getPrimitiveClass`:
    - each states its accept condition and its error precedence;
    - round-trip lemmas show that a newly created key gives a primitive.
  - `KeyManagerImplTest` holds the test's two concrete managers. Each JUnit
    test is covered by a lemma; most are stated for every key, format and
    random source, not only the one value the test uses.

`KeyManagerImpl` refuses a primitive class with no factory when it is
constructed, with an illegal-argument error (KeyManagerImplTest.java:128-135).
Void passes construction and is refused only by `getPrimitive` (156-166).

`results.dfy` holds the `Result`/`Option` wrappers that both parts share.

## Model

| member | source | states |
|---|---|---|
| `Ascii.ToLower` | cc/hybrid/hybrid_decrypt_catalogue.cc:51 | `to_lowercase` keeps the length and folds each character on its own (ASCII only) |
| `Ascii.ToLowerEqualsIff` | cc/hybrid/hybrid_decrypt_catalogue.cc:51 | lower-casing a name and comparing it with an all-lower-case word is the same as matching that word letter by letter in either case, in both directions |
| `HybridDecryptCatalogue.CreateKeyManager` | cc/hybrid/hybrid_decrypt_catalogue.cc:33-43 | succeeds exactly when some manager handles the type URL, and the manager it returns handles that URL; otherwise NOT_FOUND with the "no key manager for type_url" reason |
| `HybridDecryptCatalogue.GetKeyManager` | cc/hybrid/hybrid_decrypt_catalogue.cc:47-64 | succeeds iff the name is a casing of "hybriddecrypt", the URL is handled and the manager's version is at least `min_version`; the manager returned handles the URL and is recent enough; every failure is NOT_FOUND; the reason is the first gate that fails (name, then URL, then version) |
| `HybridDecryptCatalogue.NameGateBeforeTypeUrl` | cc/hybrid/hybrid_decrypt_catalogue.cc:51-57 | a wrong name with an unknown URL is reported as an unsupported primitive, not as an unknown URL |
| `HybridDecryptCatalogue.AnyCasingWithMinVersionZero` | cc/hybrid/hybrid_decrypt_catalogue.cc:51-63 | any casing of "HybridDecrypt" with the ECIES key type and `min_version` 0 returns the ECIES-AEAD-HKDF private-key manager |
| `HybridDecryptCatalogue.MinVersionMonotone` | cc/hybrid/hybrid_decrypt_catalogue.cc:58-63 | a lookup that succeeds for some `min_version` succeeds with the same manager for every smaller one |
| `HybridDecryptCatalogue.VersionTooLow` | cc/hybrid/hybrid_decrypt_catalogue.cc:58-62 | a known URL with `min_version` above the manager's version gives NOT_FOUND with the min-version reason |
| `HybridDecryptCatalogue.MixedCasePasses` | cc/hybrid/hybrid_decrypt_catalogue.cc:51 | "HybridDecrypt" passes the name gate |
| `HybridDecryptCatalogue.UpperCasePasses` | cc/hybrid/hybrid_decrypt_catalogue.cc:51 | "HYBRIDDECRYPT" passes the name gate |
| `HybridDecryptCatalogue.OtherPrimitiveRefused` | cc/hybrid/hybrid_decrypt_catalogue.cc:51-55 | "HybridEncrypt" is refused as an unsupported primitive, whatever the URL and version |
| `KeyManagers.ParseKey` | java/src/test/java/com/google/crypto/tink/KeyManagerImplTest.java:78-81 | parses exactly serialised keys, and parsing undoes serialisation; anything else is a parse failure |
| `KeyManagers.ParseKeyFormat` | java/src/test/java/com/google/crypto/tink/KeyManagerImplTest.java:94-98 | parses exactly serialised key formats, undoing serialisation; anything else is a parse failure |
| `KeyManagers.ValidateKey` | java/src/test/java/com/google/crypto/tink/KeyManagerImplTest.java:70-76 | passes the key through iff the manager's rule accepts it, otherwise the `validateKey` error |
| `KeyManagers.ConstructPrimitive` | java/src/test/java/com/google/crypto/tink/KeyManagerImplTest.java:39-52 | builds a primitive of the requested capability over the key iff a factory for that capability was registered, otherwise an illegal-argument error |
| `KeyManagers.KeyFactoryOf` | java/src/test/java/com/google/crypto/tink/KeyManagerImplTest.java:83-85 | gives the manager's key factory, or UnsupportedOperation when the manager has none |
| `KeyManagers.ValidateKeyFormat` | java/src/test/java/com/google/crypto/tink/KeyManagerImplTest.java:86-92 | accepts a format iff its key size is the factory's, otherwise the `validateKeyFormat` error |
| `KeyManagers.CreateKey` | java/src/test/java/com/google/crypto/tink/KeyManagerImplTest.java:100-105 | the new key has exactly `keySize` bytes and carries the manager's version |
| `KeyManagers.NewKeyManagerImpl` | java/src/test/java/com/google/crypto/tink/KeyManagerImplTest.java:127-135 | construction succeeds iff the class has a factory or is Void; the result reports that class; otherwise an illegal-argument error |
| `KeyManagers.GetPrimitiveClass` | java/src/test/java/com/google/crypto/tink/KeyManagerImplTest.java:308-312 | `getPrimitiveClass` is the class the manager was bound to |
| `KeyManagers.GetKeyType` | java/src/test/java/com/google/crypto/tink/KeyManagerImplTest.java:251-256 | `getKeyType` is the internal manager's key type URL |
| `KeyManagers.GetVersion` | java/src/test/java/com/google/crypto/tink/KeyManagerImplTest.java:60-63 | `getVersion` is the internal manager's version |
| `KeyManagerImplTest.TestInternalKeyManagerDescribed` | java/src/test/java/com/google/crypto/tink/KeyManagerImplTest.java:37-109 | the test manager: AES-GCM URL, version 1, SYMMETRIC; `validateKey` accepts exactly the 16-byte keys; its key factory accepts exactly size 16; Aead, FakeAead and Void construct, Integer does not |
| `KeyManagerImplTest.TestInternalKeyManagerWithoutKeyFactoryDescribed` | java/src/test/java/com/google/crypto/tink/KeyManagerImplTest.java:314-343 | the manager without a key factory: same URL, version and material type; accepts every key; has no primitive factory; key creation is unsupported |
| `KeyManagers.DoesSupport` | java/src/test/java/com/google/crypto/tink/KeyManagerImplTest.java:239-249 | true exactly for the manager's key type |
| `KeyManagers.ValidateKeyAndGetPrimitive` | java/src/test/java/com/google/crypto/tink/KeyManagerImplTest.java:156-166 | yields the primitive of the bound class over the key iff the class is not Void, the key passes `validateKey` and the class has a factory; Void is refused with an error naming Void, and otherwise an invalid key with the `validateKey` error (checking Void first is the model's choice) |
| `KeyManagers.GetPrimitiveFromProto` | java/src/test/java/com/google/crypto/tink/KeyManagerImplTest.java:168-190 | a message that is not a key fails with "expected proto of type"; a key goes through validation and construction |
| `KeyManagers.GetPrimitive` | java/src/test/java/com/google/crypto/tink/KeyManagerImplTest.java:137-147 | agrees with the object form on every serialised key; bytes that do not parse as a key fail with a parse error |
| `KeyManagers.ValidateCreate` | java/src/test/java/com/google/crypto/tink/KeyManagerImplTest.java:86-105 | makes a key iff the format has the factory's size, with the format's size and the manager's version; otherwise the `validateKeyFormat` error |
| `KeyManagers.NewKeyFromProto` | java/src/test/java/com/google/crypto/tink/KeyManagerImplTest.java:209-237 | no key factory means UnsupportedOperation before the message is looked at; a non-format message fails with "expected proto of type"; a format is validated, then the key is created |
| `KeyManagers.NewKey` | java/src/test/java/com/google/crypto/tink/KeyManagerImplTest.java:192-207 | no key factory means UnsupportedOperation before parsing; agrees with the object form on every serialised format; other bytes fail with a parse error |
| `KeyManagers.NewKeyData` | java/src/test/java/com/google/crypto/tink/KeyManagerImplTest.java:258-306 | succeeds iff `newKey` does, with the manager's type URL and material type, and a value that parses back to the new key; otherwise `newKey`'s error |
| `KeyManagers.NewKeyThenGetPrimitive` | java/src/test/java/com/google/crypto/tink/KeyManagerImplTest.java:111-125 | take a manager whose factory makes keys its `validateKey` accepts: a key made from an accepted format gives the bound class's primitive, passed as an object or serialised |
| `KeyManagers.NewKeyDataThenGetPrimitive` | java/src/test/java/com/google/crypto/tink/KeyManagerImplTest.java:258-284 | the value `newKeyData` returns is accepted by `getPrimitive` |
| `KeyManagers.ErrorsWellKinded` | java/src/test/java/com/google/crypto/tink/KeyManagerImplTest.java:127-391 | every failure of the five operations has the exception kind its reason implies: illegal-argument only for a missing primitive factory, UnsupportedOperation only for a missing key factory, GeneralSecurity otherwise |
| `KeyManagers.ConstructedManagerHasFactory` | java/src/test/java/com/google/crypto/tink/KeyManagerImplTest.java:127-135 | after a successful construction, `getPrimitive` never fails for lack of a factory |
| `KeyManagerImplTest.TestKeyManager` | java/src/test/java/com/google/crypto/tink/KeyManagerImplTest.java:113 | constructing over the test manager with Aead, FakeAead or Void succeeds and gives this manager |
| `KeyManagerImplTest.ConstructionOutcomes` | java/src/test/java/com/google/crypto/tink/KeyManagerImplTest.java:127-135 | the test manager accepts every class but Integer; Integer fails with an illegal-argument error; the manager without a key factory accepts only Void |
| `KeyManagerImplTest.PrimitiveClassIsRequested` | java/src/test/java/com/google/crypto/tink/KeyManagerImplTest.java:308-312 | `getPrimitiveClass` returns the class the manager was built for |
| `KeyManagerImplTest.GetPrimitiveAcceptsExactly16ByteKeys` | java/src/test/java/com/google/crypto/tink/KeyManagerImplTest.java:137-190 | for Aead and FakeAead, `getPrimitive` (object or serialised) succeeds iff the key value has 16 bytes; it then gives that class's primitive over the key; otherwise it gives the `validateKey` error |
| `KeyManagerImplTest.DefaultKeyRejected` | java/src/test/java/com/google/crypto/tink/KeyManagerImplTest.java:137-147 | the default (empty) key is refused with the `validateKey` error in both forms |
| `KeyManagerImplTest.NewKeyRoundTrip` | java/src/test/java/com/google/crypto/tink/KeyManagerImplTest.java:111-154 | for Aead and FakeAead, a size-16 format gives a key, and that key gives a primitive as an object and serialised |
| `KeyManagerImplTest.CreatedKeyShape` | java/src/test/java/com/google/crypto/tink/KeyManagerImplTest.java:100-105 | the key made from a size-16 format has `keySize` bytes and the manager's version |
| `KeyManagerImplTest.VoidManagerHasNoPrimitive` | java/src/test/java/com/google/crypto/tink/KeyManagerImplTest.java:156-166 | a Void manager makes keys from a size-16 format, but `getPrimitive` refuses them with an error naming Void; that it refuses invalid keys the same way rests on the model checking Void first |
| `KeyManagerImplTest.WrongProtoRejected` | java/src/test/java/com/google/crypto/tink/KeyManagerImplTest.java:168-225 | a format given to `getPrimitive` and a key given to `newKey` fail with "expected proto of type", naming the expected type |
| `KeyManagerImplTest.NewKeyAcceptsExactlySize16` | java/src/test/java/com/google/crypto/tink/KeyManagerImplTest.java:192-237 | `newKey` (both forms) and `newKeyData` succeed iff the format's size is 16; every other size gives the `validateKeyFormat` error |
| `KeyManagerImplTest.RejectedFormatSizes` | java/src/test/java/com/google/crypto/tink/KeyManagerImplTest.java:286-296 | a size-17 format and the default format (size 0) are refused with the `validateKeyFormat` error |
| `KeyManagerImplTest.SupportsOnlyAesGcm` | java/src/test/java/com/google/crypto/tink/KeyManagerImplTest.java:239-256 | `getKeyType` is the AES-GCM URL, and `doesSupport` holds of that URL and of no other |
| `KeyManagerImplTest.NewKeyDataContents` | java/src/test/java/com/google/crypto/tink/KeyManagerImplTest.java:264-306 | `newKeyData` on a size-16 format has the AES-GCM type URL and SYMMETRIC material, and its value holds a key of at least 16 bytes |
| `KeyManagerImplTest.WithoutKeyFactoryUnsupported` | java/src/test/java/com/google/crypto/tink/KeyManagerImplTest.java:345-391 | without a key factory, `newKey` (both forms) and `newKeyData` fail with UnsupportedOperation for every input |

## Left out

- Cryptography is not modelled. `AesGcmJce`, `FakeAead` and the ECIES-AEAD-HKDF internals are opaque. A primitive is a token holding its capability and the key it was built from.
- The files `KeyManagerImpl.java`, `InternalKeyManager.java` and `KeyFactory` are not part of this model. The accept conditions and the error kinds the test checks come from the test. One order of checks also comes from the tests:
  - a missing key factory is reported before the message type or the bytes are looked at (`KeyManagerImplTest.java:374` passes a key to `newKey` and expects UnsupportedOperation).
- No test pins the following outcomes, so they are this model's own choices:
  - Void is refused before `validateKey`. The Void test uses a key made from a size-16 format, which `validateKey` accepts, so either order gives the Void error there. KeyManagerImplTest.VoidManagerHasNoPrimitive's claim for invalid keys rests on this choice.
  - `GetPrimitiveFromProto` checks that the message is a key before the Void check, and `GetPrimitive` parses before it. No test gives a Void manager a wrong message or unparseable bytes.
  - `ConstructPrimitive` reports a class without a factory as an illegal-argument error (`PrimitiveNotSupported`). After a successful construction this happens only to Void, and Void is refused earlier.
  - Bytes that do not parse give a GeneralSecurity error with the `FailedParsing` reason, for keys and for formats.
  - `NewKeyData` passes `NewKey`'s errors through unchanged, a parse error included.
  - The Void refusal is the tag `NoPrimitiveFor(Void)`. The test checks only that the message contains "Void".
  - KeyManagers.ErrorsWellKinded rests on the first two of these choices.
- KeyManagers.ConstructPrimitive: primitive factories are assumed never to throw. The Aead factory is declared `throws GeneralSecurityException` (it runs `new AesGcmJce(...)`, KeyManagerImplTest.java:43-44), but the AES-GCM key-size check inside it is not part of this model. For the test's manager this changes nothing, because `validateKey` lets through only 16-byte keys. A manager with a weaker `validateKey` is given a primitive here where `AesGcmJce` might refuse.
- The protobuf wire format is not modelled. A `ByteString` is either the serialisation of one message or bytes that parse as nothing. Parsing the serialisation of the other message type is treated as a parse failure. Real protobuf parsing would reinterpret the fields instead, but no test depends on that. The same bytes produced from different messages are told apart: the default key, the default format and `ByteString.copyFromUtf8("")` are all the empty byte string in protobuf, but here they are three different values. `Malformed([])` counts as unparseable, although protobuf parses empty bytes as the default instance.
- KeyManagerImplTest.NewKeyDataContents: states that the value holds a key value of at least 16 bytes. It does not state that the serialised byte length is at least 16, because the encoding and its overhead are not modelled.
- `Random.randBytes` is a parameter `rand` that returns some sequence of the requested length (`IsRandomSource`). The quality of the randomness is not modelled.
- Exception and status messages are reduced to reason tags. No `printf`-style text is produced.
- `to_lowercase` folds ASCII letters only; its source is not part of this model. Non-ASCII characters are left unchanged.
- The header declaring the ECIES-AEAD-HKDF private-key manager is not part of this model. Its key type is taken as `type.googleapis.com/google.crypto.tink.EciesAeadHkdfPrivateKey` and its version as 0. Every general lemma holds whatever these two values are.
- `std::unique_ptr` ownership and the `HybridDecryptCatalogue` class wrapper are not modelled. The manager is a value.
- Manager and key versions and key sizes are unbounded naturals. Java `int` and proto `uint32` widths never matter in these tests. `min_version` and the C++ manager version are `uint32` (`u32`).
- Each Java overload gets its own name: `GetPrimitive` takes a byte string and `GetPrimitiveFromProto` a message; `NewKey` and `NewKeyFromProto` are split the same way.
- The registry, primitive sets, wrappers, key-id prefixes and locking are not modelled. None of their sources is part of this model.
