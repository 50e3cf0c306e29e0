/** The did:btc1 identifier format `did:btc1[:<version>:<tag>]:<method-specific id>`
    that both encoders write, and the parser that reads it back. */
module Identifier {
  import opened Types
  import opened Text

  /** The DID method name of this method. */
  const MethodName := "btc1"

  /** The version as a template string renders it: `undefined` when absent. */
  function VersionText(version: Option<int>): (s: string)
    ensures s != [] && ':' !in s
  {
    match version
    case None => "undefined"
    case Some(v) => IntToDecimal(v)
  }

  /** Different versions render differently, so a DID determines its version. */
  lemma VersionTextInjective(a: Option<int>, b: Option<int>)
    requires VersionText(a) == VersionText(b)
    ensures a == b
  {
    if a.Some? && b.Some? {
      IntToDecimalInjective(a.value, b.value);
    }
  }

  /** The method prefix: `did:btc1` for version 1, otherwise `did:btc1:<version>:<tag>`. */
  function MethodPrefix(version: Option<int>, tag: string): (p: string)
    ensures |p| >= 8 && p[..8] == "did:btc1"
    ensures p == "did:btc1" <==> version == Some(1)
  {
    if version != Some(1) then "did:" + MethodName + ":" + VersionText(version) + ":" + tag
    else "did:" + MethodName
  }

  /** `${didMethodPrefix}:${methodSpecificId}`. */
  function MakeDid(version: Option<int>, tag: string, methodSpecificId: string): (did: string)
    ensures |did| >= 9 && did[..9] == "did:btc1:"
  {
    MethodPrefix(version, tag) + ":" + methodSpecificId
  }

  /** The pieces of a did:btc1 identifier; the version and the tag are absent together. */
  datatype DidParts = DidParts(version: Option<string>, tag: Option<string>, methodSpecificId: string)

  /** The parts a DID is made of, when `MakeDid` could have produced it. */
  function ExpectedParts(version: Option<int>, tag: string, methodSpecificId: string): DidParts {
    if version == Some(1) then DidParts(None, None, methodSpecificId)
    else DidParts(Some(VersionText(version)), Some(tag), methodSpecificId)
  }

  /** Reads an identifier of the form `did:btc1:<id>` or `did:btc1:<version>:<tag>:<id>`. */
  function ParseIdentifier(did: string): Option<DidParts> {
    var pieces := Split(did);
    if |pieces| == 3 && pieces[0] == "did" && pieces[1] == MethodName then
      Some(DidParts(None, None, pieces[2]))
    else if |pieces| == 5 && pieces[0] == "did" && pieces[1] == MethodName then
      Some(DidParts(Some(pieces[2]), Some(pieces[3]), pieces[4]))
    else None
  }

  /** Parsing recovers the version, the mode tag and the method-specific id that
      went into an identifier, as long as neither the tag nor the id contains a colon. */
  lemma ParseMakeDid(version: Option<int>, tag: string, methodSpecificId: string)
    requires ':' !in tag && ':' !in methodSpecificId
    ensures ParseIdentifier(MakeDid(version, tag, methodSpecificId))
         == Some(ExpectedParts(version, tag, methodSpecificId))
  {
    if version == Some(1) {
      SplitShort(methodSpecificId);
    } else {
      SplitLong(VersionText(version), tag, methodSpecificId);
    }
  }

  lemma SplitShort(msid: string)
    requires ':' !in msid
    ensures Split("did:" + MethodName + ":" + msid) == ["did", MethodName, msid]
  {
    var rest := MethodName + ":" + msid;
    assert "did:" + MethodName + ":" + msid == "did" + ":" + rest;
    SplitPiece(msid);
    SplitCons(MethodName, msid);
    SplitCons("did", rest);
  }

  lemma SplitLong(v: string, tag: string, msid: string)
    requires ':' !in v && ':' !in tag && ':' !in msid
    ensures Split("did:" + MethodName + ":" + v + ":" + tag + ":" + msid)
         == ["did", MethodName, v, tag, msid]
  {
    var r3 := tag + ":" + msid;
    var r2 := v + ":" + r3;
    var r1 := MethodName + ":" + r2;
    assert "did:" + MethodName + ":" + v + ":" + tag + ":" + msid == "did" + ":" + r1;
    SplitPiece(msid);
    SplitCons(tag, msid);
    SplitCons(v, r3);
    SplitCons(MethodName, r2);
    SplitCons("did", r1);
  }
}
