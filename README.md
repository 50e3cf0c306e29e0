# did:btc1 identifier creation and signing-method selection, in Dafny

This project models the core of the `DidBtc1` DID method. It covers:

- `create`: a validation gate of four ordered checks; the defaults it writes into the caller's
  options object; the choice of network parameters and HD derivation path; the JWK; the
  intermediate DID document with its three `SingletonBeacon` services; and the branch between
  two identifier encoders.
- The deterministic encoder. Its method-specific id is the public key, bech32-encoded with
  prefix `k`.
- The sidecar encoder. Its method-specific id is the CID of the JSON-encoded intermediate
  document, bech32-encoded with prefix `x`.
- `getSigningMethod`, which picks the verification method a signer uses.

How the model is built:

- The options object is a class, `Creation.CreateOptions`. Its fields are overwritten in place
  by the method `Creation.Create`.
- That method is proved against the pure function `Creation.CreateOutcome`. Lemmas about
  `CreateOutcome` state what `create` promises.
- The encoders, the validation checks, document assembly and signing-method selection are
  functions.
- Every cryptographic and encoding primitive is a field of the datatype `Library.Lib`. A field
  is a total function the model knows nothing about beyond its type. This covers HD key
  derivation, point decompression, base64url, the three address encoders, the bech32 data part,
  JSON encoding, SHA-256, CID construction, DID parsing and fragment extraction.
- The mnemonic that entropy produces is a parameter of `Create`.
- A bech32 string is modelled as its human-readable part, the separator `1`, and an
  uninterpreted data part drawn from the bech32 character set (section "Bech32" of BIP 173).
  So the model knows that a method-specific id starts with `k1` or `x1` and holds no colon.

Behaviour of the code as written, which the model keeps:

- All four enum values are non-empty strings, so `isMainnet` is truthy for every accepted
  network name. Testnet, signet and regtest therefore all get the bitcoin mainnet parameters
  and coin type 0. The empty name passes the network check and becomes regtest with coin type
  1. The testnet parameters are never chosen (`Networks.AcceptedNetworkChoice`).
- Caller-supplied services and verification methods are validated, then ignored
  (`Creation.SuppliedListsIgnored`).
- The JWK always carries the private scalar `d`, in sidecar mode too.
- `methodId` defaults to `#initialKey`. So the first assertion method is consulted only when
  the fragment extractor finds no fragment in the method id
  (`Signing.AssertionMethodIsFallbackOnly`, `Signing.DefaultFallsBackToAssertionMethod`).
- An id that `Did.parse` cannot read passes the method check.
- A version of 1 gives `did:btc1:<id>`. Any other version, absent included, gives
  `did:btc1:<version>:k1:<id>` or `did:btc1:<version>:x1:<id>`. An absent version renders as
  `undefined`, but `create` always sets one first.

## Model

| member | source | states |
|---|---|---|
| `Creation.CreateOutcome` | src/did-btc1.ts:52-159 | The definition of what `create` returns or throws and what the options object holds afterwards, step by step; the `Creation` lemmas below state its properties. |
| `Creation.WithDefaults` | src/did-btc1.ts:79-80 | `network` and `version` become present, keep any value the caller gave, default to `mainnet` and 1, and no other field changes. |
| `Creation.DeriveKeyPair` | src/did-btc1.ts:95-99 | The key pair derived from the mnemonic's seed along the network's derivation path; either half may be missing. `Creation.CreateErrors` and `Creation.CreatedDocument` state its use. |
| `Creation.MakeJwk` | src/did-btc1.ts:107-116 | The JWK of a key pair: kty EC, crv secp256k1, base64url of the affine x and y of the public key, and `d` from the private key. `Creation.OptionsAfterCreate` ties it to the derived key. |
| `Creation.IsSidecar` | src/did-btc1.ts:149 | Sidecar mode: a non-empty type whose lower-case form is not `deterministic`. |
| `Creation.CreationTypeSpellings` | src/did-btc1.ts:149-158 | For every string, sidecar mode is selected iff it is non-empty and is not `deterministic` in some mix of letter cases. A missing or empty type selects deterministic mode, and `sidecar` in either case selects sidecar mode. |
| `Creation.Create` | src/did-btc1.ts:52-159 | The result and the new options object are exactly those of `CreateOutcome` for the old options. A validation error leaves the options object unchanged. |
| `Creation.CreateOptions.constructor` | src/types.ts:26-85 | An options object holds the given values; `options = {}` is the all-absent value. |
| `Creation.RejectedBeforeKeyGeneration` | src/did-btc1.ts:55-76 | When a check fails, `create` throws that check's error and leaves the options unchanged. The outcome does not depend on the mnemonic or on any library primitive, so no key material is involved. |
| `Creation.CreateErrors` | src/did-btc1.ts:57-104 | `create` throws a validation error exactly when a check fails. Its only other error is the key-derivation failure. That failure is raised exactly when the checks pass and the derived HD key lacks its public or its private key. |
| `Creation.OptionsAfterCreate` | src/did-btc1.ts:78-155 | After validation, `network` becomes `mainnet` and `version` becomes 1 only where they were absent. The lists and `type` are unchanged. On success `jwk` is written: the JWK of the derived key pair (kty EC, crv secp256k1, `x` and `y` from the public key, `d` from the private key). `publicKey` is written only in deterministic mode. |
| `Creation.CreatedIdentifier` | src/did-btc1.ts:148-203 | The mnemonic is returned exactly in deterministic mode. Sidecar mode is chosen iff `type` is non-empty and its lower-case form is not `deterministic`. `Identifier.ParseIdentifier` reads the DID back as the version written to the options (no version segment for 1), the mode's tag `k1`/`x1`, and the method-specific id. That id is the bech32 encoding of the derived public key in deterministic mode, or of the CID of the document's intermediate part in sidecar mode. |
| `Creation.CreatedDocument` | src/did-btc1.ts:82-143 | The finished document is the intermediate document for the derived public key, plus `id` = DID and the single initial key whose JWK is the one written to the options. Its addresses are on bitcoin mainnet, and the key is derived at `m/44'/0'/0'/0/0`, unless the network name is empty. |
| `Creation.SuppliedListsIgnored` | src/did-btc1.ts:119-143 | Replacing the supplied services and verification methods by any others that also pass the checks leaves the result unchanged. |
| `Creation.CreatedDocumentSignsWithInitialKey` | src/did-btc1.ts:233-252 | On a freshly created document, signing-method selection with no method id or with `#initialKey` returns the initial key with its JWK. The only exception is a `Did.parse` that reads a method other than btc1, which gives MethodNotSupported. |
| `Validation.SomeUnsupported` | src/did-btc1.ts:57-60 | Check 1 fails iff some supplied method's algorithm is outside {secp256k1}. |
| `Validation.IdsNotUnique` | src/did-btc1.ts:62-66 | Check 2, comparing the number of collected ids with the size of their set, fails iff two different methods that both carry an id share it. |
| `Validation.SizeMismatchIffRepeat` | src/did-btc1.ts:64 | A sequence is longer than the set of its elements iff some element occurs twice. |
| `Validation.MethodIdsRepeat` | src/did-btc1.ts:63 | The ids collected from methods that carry an id repeat iff two such methods share an id. |
| `Validation.SomeIncomplete` | src/did-btc1.ts:68-71 | Check 3 fails iff some service has a missing or empty id, type or endpoint. |
| `Validation.Validate` | src/did-btc1.ts:57-76 | The gate's error is that of the first failing check, in the order algorithm, duplicate id, incomplete service, unknown network. It is None iff no check fails. An absent list passes its checks. An empty or absent network passes. |
| `Networks.LookupNetwork` | src/types.ts:12-17 | Looking a name up in the network enum finds the member whose value is that name, and nothing for any other name. |
| `Networks.IsMainnet` | src/did-btc1.ts:84 | `isMainnet` holds exactly for the four names of the network enum. |
| `Networks.SelectBitcoinNetwork` | src/did-btc1.ts:85-89 | The testnet parameters are never selected, for any name. Mainnet parameters are selected exactly for the enum's names, regtest parameters for every other name. |
| `Networks.DerivationPath` | src/did-btc1.ts:92 | The path is `m/44'/0'/0'/0/0` for the enum's names and `m/44'/1'/0'/0/0` for every other name. |
| `Networks.EnumNamesSelectMainnet` | src/did-btc1.ts:82-92 | Each of the four network names, testnet, signet and regtest included, selects the bitcoin mainnet parameters and the path `m/44'/0'/0'/0/0`. |
| `Networks.AcceptedNetworkChoice` | src/did-btc1.ts:73-92 | For any network that passes the check, after the mainnet default: testnet parameters are never chosen. Regtest parameters and coin type 1 are chosen iff the name is empty. |
| `Document.IntermediateDoc` | src/did-btc1.ts:118-143 | The intermediate document has the two fixed contexts. Its four relationships each list exactly `#initialKey`. It has exactly three services with distinct ids, in order `#initial_p2pkh`, `#initial_p2wpkh`, `#initial_p2tr`. Each has type SingletonBeacon and a `bitcoin:` endpoint naming that encoder's address for the key and network. |
| `Document.EndpointAddressOf` | src/did-btc1.ts:131-141 | The address can be read back from a `bitcoin:` endpoint. |
| `Document.XOnlyKey` | src/did-btc1.ts:141 | For a key of at least 33 bytes, the taproot input is bytes 1 to 32. |
| `Document.Address` | src/did-btc1.ts:128-142 | The address of a beacon: p2pkh and p2wpkh of the public key, p2tr of its x-only key, on the selected network. |
| `Document.BeaconService` | src/did-btc1.ts:128-142 | A beacon service has its type's id, type SingletonBeacon, and a `bitcoin:` endpoint from which the address of that type can be read back. |
| `Library.Bech32Encode` | src/did-btc1.ts:173 | A bech32 string starts with its human-readable part and `1`, and holds no colon. |
| `Library.Bech32LowerAlphanumeric` | src/did-btc1.ts:173 | Bech32 output under a lower-case alphanumeric human-readable part is lower-case alphanumeric. |
| `Encoders.SidecarCid` | src/did-btc1.ts:201 | The bytes of the version-1 JSON-codec CID of the SHA-256 digest of the document's JSON encoding; `Encoders.SidecarDidDependsOnDocument` states that only those JSON bytes matter. |
| `Encoders.DeterministicId` | src/did-btc1.ts:172-173 | The deterministic method-specific id starts with `k1` and holds no colon. |
| `Encoders.SidecarId` | src/did-btc1.ts:200-203 | The sidecar method-specific id starts with `x1` and holds no colon. |
| `Encoders.CreateDeterministic` | src/did-btc1.ts:161-190 | The result has no mnemonic. Its document is the intermediate document plus `id` = DID and the single method `#initialKey` of type JsonWebKey, controlled by the DID, carrying the JWK. `Identifier.ParseIdentifier` reads the DID back to the version (absent for 1), the tag `k1` and the bech32 encoding of the public key. |
| `Encoders.CreateSidecar` | src/did-btc1.ts:192-220 | The same as the deterministic encoder, but with tag `x1` and the bech32 encoding of the CID of the intermediate document. |
| `Encoders.DeterministicDidDependsOnKey` | src/did-btc1.ts:169-175 | The deterministic DID is a function of the version and the public key alone, so repeated calls give the same string. |
| `Encoders.SidecarDidDependsOnDocument` | src/did-btc1.ts:197-205 | The sidecar DID is a function of the version and the JSON bytes of the intermediate document alone: two documents with the same encoding give the same DID, whatever the JWK. |
| `Encoders.DeterministicDidDeterminesInputs` | src/did-btc1.ts:169-175 | Equal deterministic DIDs have equal versions and equal bech32-encoded keys. |
| `Encoders.SidecarDidDeterminesInputs` | src/did-btc1.ts:197-205 | Equal sidecar DIDs have equal versions and equal bech32-encoded CIDs. |
| `Encoders.ModesNeverCollide` | src/did-btc1.ts:169-205 | No deterministic DID equals a sidecar DID, whatever the versions. |
| `Encoders.Version1Identifiers` | src/did-btc1.ts:169-175 | With version 1, the DID of either mode is `did:btc1:` followed only by lower-case letters and digits. |
| `Identifier.MethodPrefix` | src/did-btc1.ts:169-171 | The prefix always starts with `did:btc1`, and it is exactly `did:btc1` iff the version is 1. |
| `Identifier.ParseIdentifier` | src/did-btc1.ts:175 | The model's own reader of the identifier format, distinct from `Did.parse`: three colon-separated pieces give the id alone, five give version text, tag and id. `Identifier.ParseMakeDid` states that it inverts `MakeDid`. |
| `Identifier.ParseMakeDid` | src/did-btc1.ts:169-175 | Parsing `prefix:id` recovers the version text and tag (both absent for version 1) and the method-specific id, when tag and id hold no colon. |
| `Identifier.VersionText` | src/did-btc1.ts:170 | The version as a template string renders it is non-empty and holds no colon. |
| `Identifier.VersionTextInjective` | src/did-btc1.ts:169-171 | Different versions render differently. |
| `Identifier.MakeDid` | src/did-btc1.ts:175 | Every DID the encoders build starts with `did:btc1:`. |
| `Text.IntToDecimal` | src/did-btc1.ts:170 | An integer renders as digits, with a leading minus sign iff it is negative, and with no colon. |
| `Text.DecimalRoundTrip` | src/did-btc1.ts:170 | Reading back the decimal rendering of a natural number gives the number. |
| `Text.IntToDecimalInjective` | src/did-btc1.ts:170 | Different integers render differently. |
| `Types.Error.MessageIdentifiesError` | src/did-btc1.ts:59-249 | The messages `create` and `getSigningMethod` throw are pairwise different, and the network or method name inside a message is the one reported, so the message identifies the error. |
| `Signing.GetSigningMethod` | src/did-btc1.ts:233-253 | It fails with MethodNotSupported, naming the parsed method, iff `Did.parse` reads a method other than btc1. It succeeds iff the first method whose fragment equals the wanted one carries a JWK, and then returns that method. The wanted fragment is that of the method id (default `#initialKey`), falling back to that of the first assertion method. Every other failure is InternalError. |
| `Signing.WantedFragment` | src/did-btc1.ts:246 | The wanted fragment is that of the method id, `#initialKey` by default, and only when that has none, that of the first assertion method. `Signing.AssertionMethodIsFallbackOnly` and `Signing.DefaultFallsBackToAssertionMethod` state both sides. |
| `Signing.FindMethod` | src/did-btc1.ts:245-247 | The search returns the first index whose method has the wanted fragment, or nothing when no method has it. |
| `Signing.FirstMatchUnique` | src/did-btc1.ts:245-247 | At most one entry is the first match. |
| `Signing.AssertionMethodIsFallbackOnly` | src/did-btc1.ts:246 | When the method id has a fragment, the assertion methods do not affect the choice. |
| `Signing.DefaultFallsBackToAssertionMethod` | src/did-btc1.ts:233-246 | With no method id, and no fragment in `#initialKey`, the choice is the one made for the first assertion method. |

Selection is a function, so it never changes the document.

## Left out

- Entropy: mnemonic generation is outside the model. The mnemonic is a parameter of
  `Creation.Create`, so the 12-word property of a generated mnemonic is not stated.
- Seed derivation, HD key derivation, point decompression, the big-integer-to-bytes helper
  and base64url are uninterpreted `Lib` fields. They are foreign cryptographic code, and the
  helper's module is not part of this model. A public key that does not decompress to a
  curve point, where decompression throws, is not modelled.
- The p2pkh, p2wpkh and p2tr address encoders are uninterpreted `Lib` fields. An encoder that
  returns no address is not modelled.
- JSON encoding, SHA-256 and CID construction are uninterpreted `Lib` fields. The bech32 data
  part is an uninterpreted `Lib` field drawn from the bech32 character set; its checksum and
  5-bit regrouping are not modelled.
- `Library.Bech32Encode` never fails. The library's encoder refuses output over 90 characters
  and throws. A 33-byte public key or a 37-byte CID stays well below that, but the model's
  key derivation and CID fields may return bytes of any length, so that throw is not modelled.
- `Did.parse` and the fragment extractor are uninterpreted `Lib` fields returning optional
  values. The utilities module that defines the extractor is not part of this model.
- `resolve` is not modelled. It is a stub that always throws a plain error and never returns a
  resolution result.
- The JavaScript `in` operator also accepts inherited keys. The checks test membership in the
  explicit sets of algorithm and network names instead.
- `Networks.LookupNetwork`, `Networks.IsMainnet`, `Networks.SelectBitcoinNetwork` and
  `Networks.DerivationPath` see only the four own keys of the network enum. An inherited key
  such as `constructor` passes the network check and, once the enum is indexed with it
  (src/did-btc1.ts:84), is truthy, so the code selects bitcoin mainnet and coin type 0 for it.
  These members give regtest and coin type 1 for such a name instead. The model never reaches
  that case, because its network check rejects the name.
- `async`/`await` are not modelled; the calls are sequential.
- `Creation.IsSidecar`: lower-casing handles ASCII letters only. No non-ASCII character
  lower-cases to a letter of `deterministic`, so the mode choice is unaffected.
- `Text.IntToDecimal`: versions are integers. Fractional numbers, and numbers rendered in
  exponent form, are not modelled.
- `Validation.MethodOption`: a method whose `id` key is present with an undefined value is
  not modelled. An id is either absent or a string.
- `Encoders.CreateDeterministic` takes the public key as bytes. The path where it is undefined
  and the encoder throws is not modelled; `create` always supplies it.
- In DID documents, an absent array is represented by an empty one, which selection treats
  the same way. Assertion-method entries are string references; embedded methods are not
  modelled. Service endpoints are strings.
- `Creation.CreateOptions` holds only the option fields the core reads or writes. The key
  manager and the verification methods' other fields are not modelled.
