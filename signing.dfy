/** Signing-method selection (`getSigningMethod`, src/did-btc1.ts:233-253): check the
    document's DID method, then take the first verification method whose fragment is the
    wanted one. */
module Signing {
  import opened Types
  import opened Library
  import opened Identifier
  import opened Document

  /** The DID parser reads a method name from the document id, and it is not `btc1`. */
  predicate MethodMismatch(lib: Lib, doc: DidDocument) {
    var parsed := lib.parseDidMethod(doc.id);
    parsed.Some? && parsed.value != MethodName
  }

  /** The first assertion method reference, or undefined. */
  function FirstAssertionMethod(doc: DidDocument): Option<string> {
    if |doc.assertionMethod| > 0 then Some(doc.assertionMethod[0]) else None
  }

  /** The fragment to look for: that of the method id (`#initialKey` when none is given),
      or, when that has none, that of the first assertion method. */
  function WantedFragment(lib: Lib, doc: DidDocument, methodId: Option<string>): Option<string> {
    var own := lib.extractFragment(Some(methodId.GetOr(InitialKeyId)));
    if own.Some? then own else lib.extractFragment(FirstAssertionMethod(doc))
  }

  /** The method's id has the wanted fragment; two missing fragments count as equal. */
  predicate Matches(lib: Lib, vm: VerificationMethod, wanted: Option<string>) {
    lib.extractFragment(Some(vm.id)) == wanted
  }

  /** Entry `i` is the one `find` returns: it matches and no earlier entry does. */
  predicate IsFirstMatch(lib: Lib, methods: seq<VerificationMethod>, wanted: Option<string>, i: int) {
    && 0 <= i < |methods|
    && Matches(lib, methods[i], wanted)
    && forall j | 0 <= j < i :: !Matches(lib, methods[j], wanted)
  }

  /** The index of the first entry with the wanted fragment, as an ordered search finds it. */
  function FindMethod(lib: Lib, methods: seq<VerificationMethod>, wanted: Option<string>): (r: Option<nat>)
    ensures r.Some? ==> IsFirstMatch(lib, methods, wanted, r.value)
    ensures r.None? ==> forall j | 0 <= j < |methods| :: !Matches(lib, methods[j], wanted)
  {
    if methods == [] then None
    else if Matches(lib, methods[0], wanted) then Some(0)
    else match FindMethod(lib, methods[1..], wanted)
      case None => None
      case Some(k) => Some(k + 1)
  }

  function GetSigningMethod(lib: Lib, doc: DidDocument, methodId: Option<string>): (r: Result<VerificationMethod, Error>)
    ensures (r.Err? && r.error.MethodNotSupported?) <==> MethodMismatch(lib, doc)
    ensures r.Err? && r.error.MethodNotSupported? ==> Some(r.error.methodName) == lib.parseDidMethod(doc.id)
    ensures r.Err? ==> r.error.MethodNotSupported? || r.error == InternalError
    ensures r.Ok? <==> (
      && !MethodMismatch(lib, doc)
      && exists i :: IsFirstMatch(lib, doc.verificationMethod, WantedFragment(lib, doc, methodId), i)
                  && doc.verificationMethod[i].publicKeyJwk.Some?)
    ensures r.Ok? ==> (
      && r.value.publicKeyJwk.Some?
      && exists i :: IsFirstMatch(lib, doc.verificationMethod, WantedFragment(lib, doc, methodId), i)
                  && r.value == doc.verificationMethod[i])
  {
    var parsed := lib.parseDidMethod(doc.id);
    if parsed.Some? && parsed.value != MethodName then Err(MethodNotSupported(parsed.value))
    else
      var wanted := WantedFragment(lib, doc, methodId);
      match FindMethod(lib, doc.verificationMethod, wanted)
      case None => Err(InternalError)
      case Some(i) =>
        var vm := doc.verificationMethod[i];
        if vm.publicKeyJwk.None? then Err(InternalError) else Ok(vm)
  }

  /** Only one entry can be the first match. */
  lemma FirstMatchUnique(lib: Lib, methods: seq<VerificationMethod>, wanted: Option<string>, i: int, j: int)
    requires IsFirstMatch(lib, methods, wanted, i) && IsFirstMatch(lib, methods, wanted, j)
    ensures i == j
  {
  }

  /** When the method id has a fragment, the assertion methods play no part in the choice. */
  lemma AssertionMethodIsFallbackOnly(lib: Lib, doc: DidDocument, methodId: Option<string>,
                                      assertions: seq<string>)
    requires lib.extractFragment(Some(methodId.GetOr(InitialKeyId))).Some?
    ensures GetSigningMethod(lib, doc, methodId)
         == GetSigningMethod(lib, doc.(assertionMethod := assertions), methodId)
  {
  }

  /** Without a method id, and when `#initialKey` yields no fragment, the choice is the one
      made for the document's first assertion method. */
  lemma DefaultFallsBackToAssertionMethod(lib: Lib, doc: DidDocument)
    requires |doc.assertionMethod| > 0
    requires lib.extractFragment(Some(InitialKeyId)).None?
    ensures GetSigningMethod(lib, doc, None) == GetSigningMethod(lib, doc, Some(doc.assertionMethod[0]))
  {
  }
}
