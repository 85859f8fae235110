/** Claim grounding: which claims are supported by which evidence records of the run and task. */
module ClaimGrounding {
  import opened Prelude

  datatype Freshness = Current | StaleEvidence | UnknownFreshness | NotTimeSensitive

  datatype ToolStatus = Success | Failed | TimedOut | NotApplicable | UnknownStatus

  datatype EvidenceItem = EvidenceItem(
    id: string,
    runId: string,
    taskId: string,
    uri: string,
    contentHash: string,
    eligible: bool,
    toolStatus: ToolStatus,
    freshness: Freshness)

  datatype Claim = Claim(claimId: Option<string>, evidenceIds: seq<string>, requiresCurrent: bool)

  datatype GroundingStatus = Supported | PartiallySupported | Stale | Unsupported

  datatype Grounding = Grounding(claimId: string, status: GroundingStatus, supporting: seq<string>)

  /** `{item.evidence_id: item for item in evidence}.get(id)`: the last record with that id. */
  function Lookup(evidence: seq<EvidenceItem>, id: string): (r: Option<EvidenceItem>)
    ensures r.Some? ==> r.value in evidence && r.value.id == id
    ensures r.None? ==> forall e :: e in evidence ==> e.id != id
  {
    if evidence == [] then None
    else if evidence[|evidence| - 1].id == id then Some(evidence[|evidence| - 1])
    else Lookup(evidence[..|evidence| - 1], id)
  }

  /** Valid support: same run, same task, eligible and successfully retrieved. */
  predicate ValidSupport(e: EvidenceItem, runId: string, taskId: string) {
    e.runId == runId && e.taskId == taskId && e.eligible && e.toolStatus.Success?
  }

  predicate FreshEnough(e: EvidenceItem, claim: Claim) {
    if claim.requiresCurrent then e.freshness.Current? else !e.freshness.StaleEvidence?
  }

  predicate IsAcceptable(evidence: seq<EvidenceItem>, claim: Claim, runId: string, taskId: string, id: string) {
    var e := Lookup(evidence, id);
    e.Some? && ValidSupport(e.value, runId, taskId) && FreshEnough(e.value, claim)
  }

  predicate IsStale(evidence: seq<EvidenceItem>, runId: string, taskId: string, id: string) {
    var e := Lookup(evidence, id);
    e.Some? && ValidSupport(e.value, runId, taskId) && e.value.freshness.StaleEvidence?
  }

  /** The ids of a claim whose records are acceptable, in order. */
  function Acceptable(evidence: seq<EvidenceItem>, claim: Claim, runId: string, taskId: string, ids: seq<string>): seq<string> {
    if ids == [] then []
    else
      var rest := Acceptable(evidence, claim, runId, taskId, ids[1..]);
      if IsAcceptable(evidence, claim, runId, taskId, ids[0]) then [ids[0]] + rest else rest
  }

  lemma {:induction false} AcceptableCount(evidence: seq<EvidenceItem>, claim: Claim, runId: string, taskId: string, ids: seq<string>)
    ensures var r := Acceptable(evidence, claim, runId, taskId, ids);
      && |r| <= |ids|
      && (|r| == |ids| <==> forall id :: id in ids ==> IsAcceptable(evidence, claim, runId, taskId, id))
      && (r != [] <==> exists id :: id in ids && IsAcceptable(evidence, claim, runId, taskId, id))
  {
    if ids != [] {
      AcceptableCount(evidence, claim, runId, taskId, ids[1..]);
      assert ids == [ids[0]] + ids[1..];
    }
  }

  function ClaimName(claim: Claim, index: nat): string {
    if claim.claimId.Some? && claim.claimId.value != "" then claim.claimId.value else "claim-" + Decimal(index)
  }

  ghost function GroundOne(claim: Claim, index: nat, evidence: seq<EvidenceItem>, runId: string, taskId: string): Grounding {
    var ok := Acceptable(evidence, claim, runId, taskId, claim.evidenceIds);
    var stale := exists id :: id in claim.evidenceIds && IsStale(evidence, runId, taskId, id);
    Grounding(ClaimName(claim, index),
              if claim.requiresCurrent && stale && ok == [] then Stale
              else if ok != [] && |ok| == |claim.evidenceIds| then Supported
              else if ok != [] then PartiallySupported
              else Unsupported,
              ok)
  }

  ghost function GroundAll(claims: seq<Claim>, evidence: seq<EvidenceItem>, runId: string, taskId: string): (r: seq<Grounding>)
    ensures |r| == |claims|
    ensures forall i :: 0 <= i < |r| ==> r[i] == GroundOne(claims[i], i + 1, evidence, runId, taskId)
  {
    seq(|claims|, i requires 0 <= i < |claims| => GroundOne(claims[i], i + 1, evidence, runId, taskId))
  }

  /** A claim backed in every reference, with at least one, by fresh eligible evidence of this run and task. */
  ghost predicate FullyBacked(claim: Claim, evidence: seq<EvidenceItem>, runId: string, taskId: string) {
    && claim.evidenceIds != []
    && forall id :: id in claim.evidenceIds ==>
         exists e :: e in evidence && e.id == id && ValidSupport(e, runId, taskId) && FreshEnough(e, claim)
                     && Lookup(evidence, id) == Some(e)
  }

  /** What each status means, exactly. */
  lemma {:induction false} StatusMeaning(claim: Claim, index: nat, evidence: seq<EvidenceItem>, runId: string, taskId: string)
    ensures var g := GroundOne(claim, index, evidence, runId, taskId);
      && (g.status == Supported <==> FullyBacked(claim, evidence, runId, taskId))
      && (g.status == PartiallySupported <==>
            (exists id :: id in claim.evidenceIds && IsAcceptable(evidence, claim, runId, taskId, id))
            && (exists id :: id in claim.evidenceIds && !IsAcceptable(evidence, claim, runId, taskId, id)))
      && (g.status == Stale <==>
            claim.requiresCurrent
            && (exists id :: id in claim.evidenceIds && IsStale(evidence, runId, taskId, id))
            && (forall id :: id in claim.evidenceIds ==> !IsAcceptable(evidence, claim, runId, taskId, id)))
  {
    var g := GroundOne(claim, index, evidence, runId, taskId);
    AcceptableCount(evidence, claim, runId, taskId, claim.evidenceIds);
    assert claim.evidenceIds != [] ==> claim.evidenceIds[0] in claim.evidenceIds;
    if g.status == Supported {
      forall id | id in claim.evidenceIds
        ensures exists e :: e in evidence && e.id == id && ValidSupport(e, runId, taskId) && FreshEnough(e, claim)
                            && Lookup(evidence, id) == Some(e)
      {
        assert IsAcceptable(evidence, claim, runId, taskId, id);
        assert Lookup(evidence, id).value in evidence;
      }
    }
    if FullyBacked(claim, evidence, runId, taskId) {
      forall id | id in claim.evidenceIds ensures IsAcceptable(evidence, claim, runId, taskId, id) {
      }
      assert IsAcceptable(evidence, claim, runId, taskId, claim.evidenceIds[0]);
      assert g.status == Supported;
    }
  }

  /** The dictionary answers every id as the evidence list does. */
  ghost predicate Indexes(byId: map<string, EvidenceItem>, evidence: seq<EvidenceItem>) {
    forall id :: Lookup(evidence, id) == if id in byId then Some(byId[id]) else None
  }

  method IndexById(evidence: seq<EvidenceItem>) returns (byId: map<string, EvidenceItem>)
    ensures Indexes(byId, evidence)
  {
    byId := map[];
    for k := 0 to |evidence|
      invariant Indexes(byId, evidence[..k])
    {
      assert evidence[..k + 1][..k] == evidence[..k];
      byId := byId[evidence[k].id := evidence[k]];
    }
    assert evidence[..|evidence|] == evidence;
  }

  /** The `stale` and `acceptable` lists of one claim. */
  method Sift(claim: Claim, byId: map<string, EvidenceItem>, ghost evidence: seq<EvidenceItem>, runId: string, taskId: string)
    returns (anyStale: bool, acceptable: seq<string>)
    requires Indexes(byId, evidence)
    ensures anyStale <==> exists id :: id in claim.evidenceIds && IsStale(evidence, runId, taskId, id)
    ensures acceptable == Acceptable(evidence, claim, runId, taskId, claim.evidenceIds)
  {
    var ids := claim.evidenceIds;
    anyStale, acceptable := false, [];
    for j := 0 to |ids|
      invariant anyStale <==> exists k :: 0 <= k < j && IsStale(evidence, runId, taskId, ids[k])
      invariant acceptable + Acceptable(evidence, claim, runId, taskId, ids[j..])
                == Acceptable(evidence, claim, runId, taskId, ids)
    {
      assert ids[j..][0] == ids[j] && ids[j..][1..] == ids[j + 1..];
      assert Lookup(evidence, ids[j]) == if ids[j] in byId then Some(byId[ids[j]]) else None;
      if ids[j] in byId && ValidSupport(byId[ids[j]], runId, taskId) {
        var item := byId[ids[j]];
        if item.freshness.StaleEvidence? {
          anyStale := true;
        }
        if FreshEnough(item, claim) {
          acceptable := acceptable + [ids[j]];
        }
      }
    }
  }

  /** `ground_claims`. */
  method GroundClaims(claims: seq<Claim>, evidence: seq<EvidenceItem>, runId: string, taskId: string)
    returns (results: seq<Grounding>)
    ensures results == GroundAll(claims, evidence, runId, taskId)
  {
    var byId := IndexById(evidence);
    results := [];
    for i := 0 to |claims|
      invariant |results| == i
      invariant forall k :: 0 <= k < i ==> results[k] == GroundOne(claims[k], k + 1, evidence, runId, taskId)
    {
      var claim := claims[i];
      var anyStale, acceptable := Sift(claim, byId, evidence, runId, taskId);
      var status;
      if claim.requiresCurrent && anyStale && acceptable == [] {
        status := Stale;
      } else if acceptable != [] && |acceptable| == |claim.evidenceIds| {
        status := Supported;
      } else if acceptable != [] {
        status := PartiallySupported;
      } else {
        status := Unsupported;
      }
      results := results + [Grounding(ClaimName(claim, i + 1), status, acceptable)];
    }
  }
}
