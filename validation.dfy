/** The validation gate at the start of `create` (src/did-btc1.ts:57-76): four checks,
    run in order, the first one that fails deciding the error. */
module Validation {
  import opened Types
  import opened Networks

  /** A caller-supplied verification method: its algorithm, and its id when the key is present. */
  datatype MethodOption = MethodOption(algorithm: string, id: Option<string>)

  /** A caller-supplied service; each field may be absent. */
  datatype ServiceOption =
    ServiceOption(id: Option<string>, serviceType: Option<string>, serviceEndpoint: Option<string>)

  /** The algorithm names of the algorithm-to-key-type map. */
  const SupportedAlgorithms: set<string> := {"secp256k1"}

  /** JavaScript truthiness of an optional string: present and non-empty. */
  predicate Truthy(s: Option<string>) {
    s.Some? && s.value != ""
  }

  // ---- The four conditions, stated over the whole input ----

  predicate UnsupportedAlgorithmIn(methods: Option<seq<MethodOption>>) {
    methods.Some? &&
    exists i | 0 <= i < |methods.value| :: methods.value[i].algorithm !in SupportedAlgorithms
  }

  /** Two different entries that both carry an id, and the same one. */
  predicate RepeatedMethodId(methods: seq<MethodOption>) {
    exists i, j | 0 <= i < j < |methods| :: methods[i].id.Some? && methods[i].id == methods[j].id
  }

  predicate DuplicateIdIn(methods: Option<seq<MethodOption>>) {
    methods.Some? && RepeatedMethodId(methods.value)
  }

  predicate Incomplete(s: ServiceOption) {
    !Truthy(s.id) || !Truthy(s.serviceType) || !Truthy(s.serviceEndpoint)
  }

  predicate IncompleteServiceIn(services: Option<seq<ServiceOption>>) {
    services.Some? && exists i | 0 <= i < |services.value| :: Incomplete(services.value[i])
  }

  predicate UnknownNetwork(network: Option<string>) {
    !AcceptedNetwork(network)
  }

  // ---- The checks as the source computes them ----

  /** Check 1: some method names an algorithm outside the supported set. */
  function SomeUnsupported(methods: seq<MethodOption>): (b: bool)
    ensures b <==> exists i | 0 <= i < |methods| :: methods[i].algorithm !in SupportedAlgorithms
  {
    if methods == [] then false
    else methods[0].algorithm !in SupportedAlgorithms || SomeUnsupported(methods[1..])
  }

  /** The ids of the methods that carry one, in order. */
  function MethodIds(methods: seq<MethodOption>): seq<string> {
    if methods == [] then []
    else (if methods[0].id.Some? then [methods[0].id.value] else []) + MethodIds(methods[1..])
  }

  /** The set of the ids. */
  function SetOf(ids: seq<string>): set<string> {
    set x | x in ids
  }

  predicate HasRepeat(s: seq<string>) {
    exists i, j | 0 <= i < j < |s| :: s[i] == s[j]
  }

  /** Check 2: the collected ids outnumber the set of them. */
  function IdsNotUnique(methods: seq<MethodOption>): (b: bool)
    ensures b <==> RepeatedMethodId(methods)
  {
    var ids := MethodIds(methods);
    SizeMismatchIffRepeat(ids);
    MethodIdsRepeat(methods);
    |ids| != |SetOf(ids)|
  }

  /** Check 3: some service lacks a truthy id, type or endpoint. */
  function SomeIncomplete(services: seq<ServiceOption>): (b: bool)
    ensures b <==> exists i | 0 <= i < |services| :: Incomplete(services[i])
  {
    if services == [] then false
    else Incomplete(services[0]) || SomeIncomplete(services[1..])
  }

  /** The validation gate: the error of the first failing check, or None when all pass. */
  function Validate(methods: Option<seq<MethodOption>>, services: Option<seq<ServiceOption>>,
                    network: Option<string>): (r: Option<Error>)
    ensures r == Some(UnsupportedAlgorithm) <==> UnsupportedAlgorithmIn(methods)
    ensures r == Some(DuplicateMethodId) <==>
      !UnsupportedAlgorithmIn(methods) && DuplicateIdIn(methods)
    ensures r == Some(IncompleteService) <==>
      !UnsupportedAlgorithmIn(methods) && !DuplicateIdIn(methods) && IncompleteServiceIn(services)
    ensures (r.Some? && r.value.InvalidNetwork?) <==>
      !UnsupportedAlgorithmIn(methods) && !DuplicateIdIn(methods) && !IncompleteServiceIn(services)
      && UnknownNetwork(network)
    ensures r.Some? && r.value.InvalidNetwork? ==> r.value.network == network.value
    ensures r.Some? ==> r.value.IsValidation()
  {
    if methods.Some? && SomeUnsupported(methods.value) then Some(UnsupportedAlgorithm)
    else if methods.Some? && IdsNotUnique(methods.value) then Some(DuplicateMethodId)
    else if services.Some? && SomeIncomplete(services.value) then Some(IncompleteService)
    else if network.Some? && network.value != "" && LookupNetwork(network.value).None? then
      Some(InvalidNetwork(network.value))
    else None
  }

  // ---- Check 2: a size mismatch is a repeat ----

  lemma {:induction false} SetOfSize(s: seq<string>)
    ensures |SetOf(s)| <= |s|
  {
    if s != [] {
      SetOfSize(s[1..]);
      assert SetOf(s) == {s[0]} + SetOf(s[1..]);
    }
  }

  lemma HasRepeatCons(x: string, s: seq<string>)
    ensures HasRepeat([x] + s) <==> x in s || HasRepeat(s)
  {
    var t := [x] + s;
    if x in s {
      var k :| 0 <= k < |s| && s[k] == x;
      assert t[0] == t[k + 1];
    }
    if HasRepeat(s) {
      var i, j :| 0 <= i < j < |s| && s[i] == s[j];
      assert t[i + 1] == t[j + 1];
    }
    if HasRepeat(t) {
      var i, j :| 0 <= i < j < |t| && t[i] == t[j];
      if i == 0 {
        assert s[j - 1] == x;
      } else {
        assert s[i - 1] == s[j - 1];
      }
    }
  }

  /** A sequence is longer than the set of its elements exactly when it repeats one. */
  lemma {:induction false} SizeMismatchIffRepeat(s: seq<string>)
    ensures |s| != |SetOf(s)| <==> HasRepeat(s)
  {
    if s != [] {
      var x, rest := s[0], s[1..];
      assert s == [x] + rest;
      assert SetOf(s) == {x} + SetOf(rest);
      HasRepeatCons(x, rest);
      SizeMismatchIffRepeat(rest);
      if x in rest {
        assert x in SetOf(rest);
        SetOfSize(rest);
      } else {
        assert x !in SetOf(rest);
      }
    }
  }

  lemma {:induction false} MethodIdsMembership(methods: seq<MethodOption>, x: string)
    ensures x in MethodIds(methods) <==> exists j | 0 <= j < |methods| :: methods[j].id == Some(x)
  {
    if methods != [] {
      MethodIdsMembership(methods[1..], x);
      var head := if methods[0].id.Some? then [methods[0].id.value] else [];
      assert MethodIds(methods) == head + MethodIds(methods[1..]);
      if exists j | 0 <= j < |methods| :: methods[j].id == Some(x) {
        var j :| 0 <= j < |methods| && methods[j].id == Some(x);
        if j > 0 {
          assert methods[1..][j - 1].id == Some(x);
        }
      }
      if exists j | 0 <= j < |methods| - 1 :: methods[1..][j].id == Some(x) {
        var j :| 0 <= j < |methods| - 1 && methods[1..][j].id == Some(x);
        assert methods[j + 1].id == Some(x);
      }
    }
  }

  lemma RepeatedMethodIdCons(m: MethodOption, rest: seq<MethodOption>)
    ensures RepeatedMethodId([m] + rest) <==>
      (m.id.Some? && exists j | 0 <= j < |rest| :: rest[j].id == m.id) || RepeatedMethodId(rest)
  {
    var t := [m] + rest;
    if m.id.Some? && exists j | 0 <= j < |rest| :: rest[j].id == m.id {
      var j :| 0 <= j < |rest| && rest[j].id == m.id;
      assert t[0].id == t[j + 1].id;
    }
    if RepeatedMethodId(rest) {
      var i, j :| 0 <= i < j < |rest| && rest[i].id.Some? && rest[i].id == rest[j].id;
      assert t[i + 1].id == t[j + 1].id;
    }
    if RepeatedMethodId(t) {
      var i, j :| 0 <= i < j < |t| && t[i].id.Some? && t[i].id == t[j].id;
      if i == 0 {
        assert rest[j - 1].id == m.id;
      } else {
        assert rest[i - 1].id == rest[j - 1].id;
      }
    }
  }

  /** The ids check 2 collects repeat exactly when two id-carrying methods share an id. */
  lemma {:induction false} MethodIdsRepeat(methods: seq<MethodOption>)
    ensures HasRepeat(MethodIds(methods)) <==> RepeatedMethodId(methods)
  {
    if methods != [] {
      var m, rest := methods[0], methods[1..];
      assert methods == [m] + rest;
      RepeatedMethodIdCons(m, rest);
      MethodIdsRepeat(rest);
      if m.id.Some? {
        assert MethodIds(methods) == [m.id.value] + MethodIds(rest);
        HasRepeatCons(m.id.value, MethodIds(rest));
        MethodIdsMembership(rest, m.id.value);
      } else {
        assert MethodIds(methods) == MethodIds(rest);
      }
    }
  }
}
