/** Stored consultation runs: their schema, creation and versioned updates. */
module RunTable {
  import opened Envelopes
  import opened Tables
  import opened Evidence

  ghost predicate ValidRun(r: ConsultationRun) {
    && 1 <= |r.project| <= 120
    && r.roundCount <= 16
    && r.depth <= 4
    && 1 <= r.maxRounds <= 16
    && 1 <= r.maxDepth <= 4
    && 1 <= |r.ancestry| <= 8
    && ValidBundle(r.evidence)
    && |r.requestedEvidence| <= 16
    && (r.finalAnswer.Some? ==> 1 <= |r.finalAnswer.value| <= 48_000)
    && |r.finalPaths| <= 16
    && r.depth <= r.maxDepth
    && r.roundCount <= r.maxRounds
    && r.evidence.project == r.project
    && (r.state.NeedsInformation? ==> r.requestedEvidence != [] || r.peerRequest.Some?)
    && (r.state.WaitingPeer? ==> r.peerRequest.Some?)
    && (r.state.RunCompleted? ==> r.finalAnswer.Some?)
    && (r.state.RunFailed? ==> r.errorCode.Some?)
    && (forall p :: p in r.finalPaths ==>
          exists x :: x in r.evidence.items && ContractKey(x.path) == ContractKey(p))
  }

  method CheckRun(r: ConsultationRun) returns (valid: bool)
    ensures valid <==> ValidRun(r)
  {
    var bundle := CheckBundle(r.evidence);
    valid := && 1 <= |r.project| <= 120
             && r.roundCount <= 16
             && r.depth <= 4
             && 1 <= r.maxRounds <= 16
             && 1 <= r.maxDepth <= 4
             && 1 <= |r.ancestry| <= 8
             && bundle
             && |r.requestedEvidence| <= 16
             && (r.finalAnswer.Some? ==> 1 <= |r.finalAnswer.value| <= 48_000)
             && |r.finalPaths| <= 16
             && r.depth <= r.maxDepth
             && r.roundCount <= r.maxRounds
             && r.evidence.project == r.project
             && (r.state.NeedsInformation? ==> r.requestedEvidence != [] || r.peerRequest.Some?)
             && (r.state.WaitingPeer? ==> r.peerRequest.Some?)
             && (r.state.RunCompleted? ==> r.finalAnswer.Some?)
             && (r.state.RunFailed? ==> r.errorCode.Some?)
             && (forall p :: p in r.finalPaths ==>
                   exists x :: x in r.evidence.items && ContractKey(x.path) == ContractKey(p));
  }

  predicate SameIdentity(a: ConsultationRun, b: ConsultationRun) {
    && a.requestId == b.requestId
    && a.conversation == b.conversation
    && a.rootId == b.rootId
    && a.project == b.project
    && a.depth == b.depth
  }

  ghost function EnsureRunSpec(runs: Runs, r: ConsultationRun): (Runs, Result<ConsultationRun>) {
    if !ValidRun(r) then (runs, Err(Invalid))
    else if r.version != 0 then (runs, Err(Transition))
    else if r.requestId !in runs then (runs[r.requestId := r], Ok(r))
    else if SameIdentity(runs[r.requestId], r) then (runs, Ok(runs[r.requestId]))
    else (runs, Err(Transition))
  }

  /** An update succeeds only on the version it was computed from. */
  ghost function SaveRunSpec(runs: Runs, r: ConsultationRun, expected: nat): (Runs, Result<ConsultationRun>) {
    if !ValidRun(r) then (runs, Err(Invalid))
    else if r.version != expected then (runs, Err(Transition))
    else if r.requestId !in runs || runs[r.requestId].version != expected then (runs, Err(Transition))
    else
      var saved := r.(version := expected + 1);
      (runs[r.requestId := saved], Ok(saved))
  }

  ghost predicate RunsOk(runs: Runs) {
    forall id :: id in runs ==> runs[id].requestId == id && ValidRun(runs[id])
  }
}
