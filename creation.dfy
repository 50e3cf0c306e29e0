/** `DidBtc1.create` (src/did-btc1.ts:52-159): the validation gate, the defaults it writes
    into the caller's options object, the key derivation, the JWK, the intermediate document,
    and the branch between the deterministic and the sidecar encoder. */
module Creation {
  import opened Types
  import opened Library
  import opened Text
  import opened Networks
  import opened Validation
  import opened Document
  import opened Identifier
  import opened Encoders
  import opened Signing

  /** The contents of a DidBtc1CreateOptions object (src/types.ts:26-85) that the core reads or writes. */
  datatype OptionsValue = OptionsValue(
    verificationMethods: Option<seq<MethodOption>>,
    services: Option<seq<ServiceOption>>,
    network: Option<string>,
    version: Option<int>,
    creationType: Option<string>,
    publicKey: Option<Bytes>,
    jwk: Option<Jwk>)

  /** The caller's options object, whose fields `create` overwrites in place. */
  class CreateOptions {
    var verificationMethods: Option<seq<MethodOption>>
    var services: Option<seq<ServiceOption>>
    var network: Option<string>
    var version: Option<int>
    var creationType: Option<string>
    var publicKey: Option<Bytes>
    var jwk: Option<Jwk>

    constructor (init: OptionsValue)
      ensures Value() == init
    {
      verificationMethods := init.verificationMethods;
      services := init.services;
      network := init.network;
      version := init.version;
      creationType := init.creationType;
      publicKey := init.publicKey;
      jwk := init.jwk;
    }

    function Value(): OptionsValue
      reads this
    {
      OptionsValue(verificationMethods, services, network, version, creationType, publicKey, jwk)
    }
  }

  const DeterministicType := "deterministic"

  /** Sidecar mode is chosen when a non-empty type is given whose lower-case form is not
      `deterministic`. */
  predicate IsSidecar(creationType: Option<string>) {
    Truthy(creationType) && ToLower(creationType.value) != DeterministicType
  }

  /** `s` is `deterministic` written in any mix of letter cases. */
  predicate SpellsDeterministic(s: string) {
    |s| == |DeterministicType| && forall i | 0 <= i < |s| :: LowerChar(s[i]) == DeterministicType[i]
  }

  /** The mode is deterministic exactly for a missing or empty type and for `deterministic`
      in any letter case; every other type, such as `sidecar`, selects sidecar mode. */
  lemma CreationTypeSpellings(s: string)
    ensures !IsSidecar(None) && !IsSidecar(Some(""))
    ensures IsSidecar(Some(s)) <==> s != "" && !SpellsDeterministic(s)
    ensures IsSidecar(Some("sidecar")) && IsSidecar(Some("Sidecar"))
  {
    if SpellsDeterministic(s) {
      assert ToLower(s) == DeterministicType;
    }
    assert ToLower("sidecar")[0] == 's';
    assert ToLower("Sidecar")[0] == 's';
  }

  /** The JWK built from the derived key pair; it always carries the private scalar `d`. */
  function MakeJwk(lib: Lib, publicKey: Bytes, privateKey: Bytes): Jwk {
    Jwk("EC", "secp256k1",
        lib.base64url(lib.affineX(publicKey)),
        lib.base64url(lib.affineY(publicKey)),
        Some(lib.base64url(privateKey)))
  }

  /** The options after the `network` and `version` defaults are written. */
  function WithDefaults(o: OptionsValue): (r: OptionsValue)
    ensures r.network.Some? && r.version.Some?
    ensures o.network.Some? ==> r.network == o.network
    ensures o.version.Some? ==> r.version == o.version
    ensures o.network.None? ==> r.network == Some("mainnet")
    ensures o.version.None? ==> r.version == Some(1)
    ensures r.(network := o.network, version := o.version) == o
  {
    o.(network := Some(o.network.GetOr(Mainnet.Value())), version := Some(o.version.GetOr(1)))
  }

  /** The key pair the HD key derivation yields from the mnemonic for the network name. */
  function DeriveKeyPair(lib: Lib, mnemonic: string, networkName: string): HdKey {
    lib.deriveKey(lib.mnemonicToSeed(mnemonic), DerivationPath(networkName))
  }

  function ValidateOptions(o: OptionsValue): Option<Error> {
    Validate(o.verificationMethods, o.services, o.network)
  }

  /** What `create` returns or throws, and what the options object holds afterwards,
      for the options it was given and the mnemonic the entropy source produced. */
  function CreateOutcome(o: OptionsValue, lib: Lib, mnemonic: string): (Result<CreateResponse, Error>, OptionsValue) {
    match ValidateOptions(o)
    case Some(e) => (Err(e), o)
    case None =>
      var o1 := WithDefaults(o);
      var networkName := o1.network.value;
      var key := DeriveKeyPair(lib, mnemonic, networkName);
      if key.publicKey.None? || key.privateKey.None? then (Err(KeyDerivationFailure), o1)
      else
        var publicKey := key.publicKey.value;
        var interDoc := IntermediateDoc(lib, publicKey, SelectBitcoinNetwork(networkName));
        var o2 := o1.(jwk := Some(MakeJwk(lib, publicKey, key.privateKey.value)));
        if IsSidecar(o2.creationType) then
          (Ok(CreateSidecar(lib, interDoc, o2.version, o2.jwk)), o2)
        else
          var o3 := o2.(publicKey := Some(publicKey));
          var response := CreateDeterministic(lib, interDoc, o3.version, o3.publicKey.value, o3.jwk);
          (Ok(response.(mnemonic := Some(mnemonic))), o3)
  }

  /** `create`: `mnemonic` is what `generateMnemonic` returned for this call. */
  method Create(options: CreateOptions, lib: Lib, mnemonic: string) returns (r: Result<CreateResponse, Error>)
    modifies options
    ensures (r, options.Value()) == CreateOutcome(old(options.Value()), lib, mnemonic)
    ensures r.Err? && r.error.IsValidation() ==> options.Value() == old(options.Value())
  {
    var failure := Validate(options.verificationMethods, options.services, options.network);
    if failure.Some? {
      return Err(failure.value);
    }

    options.network := Some(options.network.GetOr(Mainnet.Value()));
    options.version := Some(options.version.GetOr(1));

    var networkName := options.network.value;
    var network := SelectBitcoinNetwork(networkName);
    var derivationPath := DerivationPath(networkName);

    var seed := lib.mnemonicToSeed(mnemonic);
    var key := lib.deriveKey(seed, derivationPath);
    if key.publicKey.None? || key.privateKey.None? {
      return Err(KeyDerivationFailure);
    }
    var publicKey := key.publicKey.value;

    var jwk := MakeJwk(lib, publicKey, key.privateKey.value);
    var interDoc := IntermediateDoc(lib, publicKey, network);
    options.jwk := Some(jwk);

    if IsSidecar(options.creationType) {
      return Ok(CreateSidecar(lib, interDoc, options.version, options.jwk));
    }

    options.publicKey := Some(publicKey);
    var response := CreateDeterministic(lib, interDoc, options.version, options.publicKey.value, options.jwk);
    r := Ok(response.(mnemonic := Some(mnemonic)));
  }

  // ---- What `create` promises ----

  /** A failing check throws its own error, leaves the options untouched, and happens before
      any key material exists: the outcome depends neither on the entropy nor on the library. */
  lemma RejectedBeforeKeyGeneration(o: OptionsValue, lib1: Lib, m1: string, lib2: Lib, m2: string)
    requires ValidateOptions(o).Some?
    ensures CreateOutcome(o, lib1, m1) == (Err(ValidateOptions(o).value), o)
    ensures CreateOutcome(o, lib1, m1) == CreateOutcome(o, lib2, m2)
  {
  }

  /** `create` throws a validation error exactly when a check fails, and otherwise throws
      exactly when the key derivation yields no public or no private key. */
  lemma CreateErrors(o: OptionsValue, lib: Lib, mnemonic: string)
    ensures var (r, _) := CreateOutcome(o, lib, mnemonic);
      && (r.Err? && r.error.IsValidation() <==> ValidateOptions(o).Some?)
      && (r.Err? && !r.error.IsValidation() ==>
            var key := DeriveKeyPair(lib, mnemonic, o.network.GetOr(Mainnet.Value()));
            r.error == KeyDerivationFailure && (key.publicKey.None? || key.privateKey.None?))
      && (var key := DeriveKeyPair(lib, mnemonic, o.network.GetOr(Mainnet.Value()));
          ValidateOptions(o).None? && (key.publicKey.None? || key.privateKey.None?) ==>
            r == Err(KeyDerivationFailure))
  {
  }

  /** Once the checks pass, `network` and `version` get their defaults only where they were
      absent, the caller's lists and type stay as they were, `jwk` is written on success
      from the derived key pair (always with `d`), and `publicKey` is written only in deterministic mode. */
  lemma OptionsAfterCreate(o: OptionsValue, lib: Lib, mnemonic: string)
    requires ValidateOptions(o).None?
    ensures var (r, o') := CreateOutcome(o, lib, mnemonic);
      && o'.network == Some(if o.network.Some? then o.network.value else "mainnet")
      && o'.version == Some(if o.version.Some? then o.version.value else 1)
      && o'.verificationMethods == o.verificationMethods
      && o'.services == o.services
      && o'.creationType == o.creationType
      && (r.Err? ==> o'.jwk == o.jwk && o'.publicKey == o.publicKey)
      && (r.Ok? ==> o'.jwk.Some? && o'.jwk.value.d.Some? && o'.jwk.value.kty == "EC"
                    && o'.jwk.value.crv == "secp256k1")
      && (r.Ok? ==>
            var key := DeriveKeyPair(lib, mnemonic, o'.network.value);
            key.publicKey.Some? && key.privateKey.Some? &&
            o'.jwk == Some(MakeJwk(lib, key.publicKey.value, key.privateKey.value)))
      && (r.Ok? && IsSidecar(o.creationType) ==> o'.publicKey == o.publicKey)
      && (r.Ok? && !IsSidecar(o.creationType) ==>
            o'.publicKey == DeriveKeyPair(lib, mnemonic, o'.network.value).publicKey)
  {
  }

  /** Only a deterministic creation returns the mnemonic, and the DID reads back as the
      version written to the options, the mode's tag, and the bech32 encoding of the derived
      public key (deterministic) or of the CID of the returned document's intermediate part
      (sidecar). */
  lemma CreatedIdentifier(o: OptionsValue, lib: Lib, mnemonic: string)
    requires CreateOutcome(o, lib, mnemonic).0.Ok?
    ensures var (r, o') := CreateOutcome(o, lib, mnemonic);
      var parts := ParseIdentifier(r.value.did);
      && (r.value.mnemonic == Some(mnemonic) <==> !IsSidecar(o.creationType))
      && (r.value.mnemonic.None? <==> IsSidecar(o.creationType))
      && parts.Some?
      && (parts.value.version.None? <==> o'.version == Some(1))
      && (o'.version != Some(1) ==>
            parts.value.tag == Some(if IsSidecar(o.creationType) then SidecarTag else DeterministicTag))
      && parts.value.methodSpecificId[..2] == (if IsSidecar(o.creationType) then "x1" else "k1")
      && parts == Some(ExpectedParts(
           o'.version,
           if IsSidecar(o.creationType) then SidecarTag else DeterministicTag,
           if IsSidecar(o.creationType) then SidecarId(lib, r.value.didDocument.Intermediate())
           else DeterministicId(lib, DeriveKeyPair(lib, mnemonic, o'.network.value).publicKey.value)))
  {
  }

  /** The document holds the intermediate document for the derived key, whatever services or
      verification methods the caller supplied, plus its id and the single initial key whose
      JWK is the one written into the options. The addresses are mainnet ones unless the
      network name was empty. */
  lemma CreatedDocument(o: OptionsValue, lib: Lib, mnemonic: string)
    requires CreateOutcome(o, lib, mnemonic).0.Ok?
    ensures var (r, o') := CreateOutcome(o, lib, mnemonic);
      var name := o.network.GetOr(Mainnet.Value());
      var key := DeriveKeyPair(lib, mnemonic, name);
      var doc := r.value.didDocument;
      && key.publicKey.Some?
      && doc.Intermediate()
         == IntermediateDoc(lib, key.publicKey.value, if name == "" then BitcoinRegtest else Bitcoin)
      && DerivationPath(name) == (if name == "" then TestPath else MainnetPath)
      && doc.id == r.value.did
      && doc.verificationMethod == [InitialKeyMethod(r.value.did, o'.jwk)]
  {
    AcceptedNetworkChoice(o.network);
  }

  /** Supplied services and verification methods are checked but otherwise ignored: any
      other lists that also pass the checks give the same result. */
  lemma SuppliedListsIgnored(o: OptionsValue, lib: Lib, mnemonic: string,
                             methods: Option<seq<MethodOption>>, services: Option<seq<ServiceOption>>)
    requires ValidateOptions(o).None?
    requires ValidateOptions(o.(verificationMethods := methods, services := services)).None?
    ensures CreateOutcome(o, lib, mnemonic).0
         == CreateOutcome(o.(verificationMethods := methods, services := services), lib, mnemonic).0
  {
  }

  /** Signing-method selection on a freshly created document, with no method id or with
      `#initialKey`, returns the initial key, unless `Did.parse` reads a method other than btc1. */
  lemma CreatedDocumentSignsWithInitialKey(o: OptionsValue, lib: Lib, mnemonic: string, methodId: Option<string>)
    requires CreateOutcome(o, lib, mnemonic).0.Ok?
    requires methodId == None || methodId == Some(InitialKeyId)
    ensures var (r, o') := CreateOutcome(o, lib, mnemonic);
      var doc := r.value.didDocument;
      GetSigningMethod(lib, doc, methodId)
      == if MethodMismatch(lib, doc) then Err(MethodNotSupported(lib.parseDidMethod(doc.id).value))
         else Ok(InitialKeyMethod(r.value.did, o'.jwk))
  {
  }
}
