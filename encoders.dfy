/** The two identifier encoders (src/did-btc1.ts:161-220). Deterministic mode derives the
    method-specific id from the public key (bech32, prefix `k`); sidecar mode from the CID
    of the JSON-encoded intermediate document (bech32, prefix `x`). Both finish the
    document with its id and the single initial key. */
module Encoders {
  import opened Types
  import opened Library
  import opened Identifier
  import opened Document

  const DeterministicTag := "k1"
  const SidecarTag := "x1"
  const JsonWebKeyType := "JsonWebKey"

  /** The one verification method of a created document. */
  function InitialKeyMethod(did: string, jwk: Option<Jwk>): VerificationMethod {
    VerificationMethod(InitialKeyId, JsonWebKeyType, did, jwk)
  }

  /** A response made of the intermediate document, the id `did` and the single initial key
      controlled by `did`, without a mnemonic. */
  predicate Completes(r: CreateResponse, interDoc: IntermediateDocument, jwk: Option<Jwk>) {
    && r.mnemonic == None
    && r.didDocument.id == r.did
    && r.didDocument.Intermediate() == interDoc
    && r.didDocument.verificationMethod == [InitialKeyMethod(r.did, jwk)]
  }

  /** The deterministic method-specific id: the public key, bech32-encoded with prefix `k`. */
  function DeterministicId(lib: Lib, publicKey: Bytes): (s: string)
    ensures ':' !in s && |s| >= 2 && s[..2] == "k1"
  {
    Bech32Encode(lib, "k", publicKey)
  }

  /** The bytes of the version-1 JSON-codec CID of the SHA-256 digest of the document's JSON encoding. */
  function SidecarCid(lib: Lib, interDoc: IntermediateDocument): Bytes {
    lib.cidV1Json(lib.sha256(lib.jsonEncode(interDoc)))
  }

  /** The sidecar method-specific id: the CID bytes, bech32-encoded with prefix `x`. */
  function SidecarId(lib: Lib, interDoc: IntermediateDocument): (s: string)
    ensures ':' !in s && |s| >= 2 && s[..2] == "x1"
  {
    Bech32Encode(lib, "x", SidecarCid(lib, interDoc))
  }

  function CreateDeterministic(lib: Lib, interDoc: IntermediateDocument, version: Option<int>,
                               publicKey: Bytes, jwk: Option<Jwk>): (r: CreateResponse)
    ensures Completes(r, interDoc, jwk)
    ensures ParseIdentifier(r.did)
         == Some(ExpectedParts(version, DeterministicTag, DeterministicId(lib, publicKey)))
  {
    var methodSpecificId := DeterministicId(lib, publicKey);
    var did := MakeDid(version, DeterministicTag, methodSpecificId);
    ParseMakeDid(version, DeterministicTag, methodSpecificId);
    CreateResponse(did, Complete(interDoc, did, [InitialKeyMethod(did, jwk)]), None)
  }

  function CreateSidecar(lib: Lib, interDoc: IntermediateDocument, version: Option<int>,
                         jwk: Option<Jwk>): (r: CreateResponse)
    ensures Completes(r, interDoc, jwk)
    ensures ParseIdentifier(r.did)
         == Some(ExpectedParts(version, SidecarTag, SidecarId(lib, interDoc)))
  {
    var methodSpecificId := SidecarId(lib, interDoc);
    var did := MakeDid(version, SidecarTag, methodSpecificId);
    ParseMakeDid(version, SidecarTag, methodSpecificId);
    CreateResponse(did, Complete(interDoc, did, [InitialKeyMethod(did, jwk)]), None)
  }

  /** The deterministic DID depends on the version and the public key alone. */
  lemma DeterministicDidDependsOnKey(lib: Lib, d1: IntermediateDocument, d2: IntermediateDocument,
                                     version: Option<int>, publicKey: Bytes, j1: Option<Jwk>, j2: Option<Jwk>)
    ensures CreateDeterministic(lib, d1, version, publicKey, j1).did
         == CreateDeterministic(lib, d2, version, publicKey, j2).did
  {
  }

  /** The sidecar DID depends on the version and the JSON bytes of the intermediate document
      alone: documents with the same encoding give the same DID, whatever the JWK. */
  lemma SidecarDidDependsOnDocument(lib: Lib, d1: IntermediateDocument, d2: IntermediateDocument,
                                    version: Option<int>, j1: Option<Jwk>, j2: Option<Jwk>)
    requires lib.jsonEncode(d1) == lib.jsonEncode(d2)
    ensures CreateSidecar(lib, d1, version, j1).did == CreateSidecar(lib, d2, version, j2).did
  {
  }

  /** The DID determines the version and the method-specific id it was made from. */
  lemma PartsDetermineInputs(v1: Option<int>, v2: Option<int>, tag: string, id1: string, id2: string)
    requires ExpectedParts(v1, tag, id1) == ExpectedParts(v2, tag, id2)
    ensures v1 == v2 && id1 == id2
  {
    if v1 != Some(1) && v2 != Some(1) {
      VersionTextInjective(v1, v2);
    }
  }

  /** Two deterministic DIDs are equal only when their versions are equal and their
      public keys have the same bech32 encoding. */
  lemma DeterministicDidDeterminesInputs(lib: Lib, d1: IntermediateDocument, d2: IntermediateDocument,
                                         v1: Option<int>, v2: Option<int>, k1: Bytes, k2: Bytes,
                                         j1: Option<Jwk>, j2: Option<Jwk>)
    requires CreateDeterministic(lib, d1, v1, k1, j1).did == CreateDeterministic(lib, d2, v2, k2, j2).did
    ensures v1 == v2 && DeterministicId(lib, k1) == DeterministicId(lib, k2)
  {
    PartsDetermineInputs(v1, v2, DeterministicTag, DeterministicId(lib, k1), DeterministicId(lib, k2));
  }

  /** Two sidecar DIDs are equal only when their versions are equal and their intermediate
      documents have the same bech32-encoded CID. */
  lemma SidecarDidDeterminesInputs(lib: Lib, d1: IntermediateDocument, d2: IntermediateDocument,
                                   v1: Option<int>, v2: Option<int>, j1: Option<Jwk>, j2: Option<Jwk>)
    requires CreateSidecar(lib, d1, v1, j1).did == CreateSidecar(lib, d2, v2, j2).did
    ensures v1 == v2 && SidecarId(lib, d1) == SidecarId(lib, d2)
  {
    PartsDetermineInputs(v1, v2, SidecarTag, SidecarId(lib, d1), SidecarId(lib, d2));
  }

  /** No deterministic DID is ever equal to a sidecar DID, whatever the versions: their
      method-specific ids start with `k1` and `x1`. */
  lemma ModesNeverCollide(lib: Lib, d1: IntermediateDocument, d2: IntermediateDocument,
                          v1: Option<int>, v2: Option<int>, publicKey: Bytes,
                          j1: Option<Jwk>, j2: Option<Jwk>)
    ensures CreateDeterministic(lib, d1, v1, publicKey, j1).did != CreateSidecar(lib, d2, v2, j2).did
  {
  }

  /** With version 1, a DID is `did:btc1:` followed by lower-case letters and digits only,
      in either mode. */
  lemma Version1Identifiers(lib: Lib, d: IntermediateDocument, publicKey: Bytes, jwk: Option<Jwk>)
    ensures var did := CreateDeterministic(lib, d, Some(1), publicKey, jwk).did;
      |did| > 9 && did[..9] == "did:btc1:" && LowerAlphanumeric(did[9..])
    ensures var did := CreateSidecar(lib, d, Some(1), jwk).did;
      |did| > 9 && did[..9] == "did:btc1:" && LowerAlphanumeric(did[9..])
  {
    Bech32LowerAlphanumeric(lib, "k", publicKey);
    Bech32LowerAlphanumeric(lib, "x", SidecarCid(lib, d));
    var k := DeterministicId(lib, publicKey);
    var x := SidecarId(lib, d);
    assert CreateDeterministic(lib, d, Some(1), publicKey, jwk).did == "did:btc1:" + k;
    assert ("did:btc1:" + k)[9..] == k;
    assert CreateSidecar(lib, d, Some(1), jwk).did == "did:btc1:" + x;
    assert ("did:btc1:" + x)[9..] == x;
  }
}
