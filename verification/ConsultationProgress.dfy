/** Every consultation ends: each saved turn lowers a number that starts finite,
    whatever children answer, peers reply and processes crash. */
module ConsultationProgress {
  import opened Envelopes
  import opened Tables
  import opened RunTable
  import opened InboxTable
  import opened Consultations

  /** How many polls, `step` apart, fit before a gap closes. */
  function Polls(gap: int, step: nat): (n: nat)
    requires step > 0
    ensures gap > 0 ==> n > 0
    decreases if gap > 0 then gap else 0
  {
    if gap <= 0 then 0 else 1 + Polls(gap - step, step)
  }

  lemma {:induction false} PollsMonotone(a: int, b: int, step: nat)
    requires step > 0 && a <= b
    ensures Polls(a, step) <= Polls(b, step)
    decreases if b > 0 then b else 0
  {
    if a > 0 {
      PollsMonotone(a - step, b - step, step);
    }
  }

  function Interval(policy: Policy): nat { 1000 * policy.pollSeconds }

  /** All the polls that fit in the life of a run. */
  function Horizon(policy: Policy, r: ConsultationRun): nat
    requires ValidPolicy(policy)
  {
    Polls(r.deadline - r.createdAt, Interval(policy))
  }

  function PollsLeft(policy: Policy, r: ConsultationRun): nat
    requires ValidPolicy(policy)
  {
    if r.nextAttemptAt.Some? then Polls(r.deadline - r.nextAttemptAt.value, Interval(policy)) else Horizon(policy, r)
  }

  /** The longest a round can be. */
  function Width(policy: Policy, r: ConsultationRun): nat
    requires ValidPolicy(policy)
  {
    Horizon(policy, r) + 3
  }

  /** How much of its round is left to a run. */
  function Rank(policy: Policy, r: ConsultationRun): nat
    requires ValidPolicy(policy)
  {
    match r.state
    case NeedsInformation => 1
    case WaitingPeer => if r.nestedTaskId.Some? then 1 + PollsLeft(policy, r) else 2 + Horizon(policy, r)
    case _ => 0
  }

  function Potential(policy: Policy, r: ConsultationRun): nat
    requires ValidPolicy(policy) && r.roundCount <= r.maxRounds
  {
    match r.state
    case RunFailed => 0
    case RunCompleted => 1
    case _ => 2 + Rounds(r.maxRounds - r.roundCount, Width(policy, r)) + Rank(policy, r)
  }

  function Rounds(left: nat, width: nat): nat { left * width }

  /** The next attempt of a run is due. */
  predicate AttemptDue(r: ConsultationRun, now: int) {
    r.createdAt <= now && (r.nextAttemptAt.Some? ==> r.nextAttemptAt.value <= now)
  }

  /** The claim filter for consultations sees to it: a message is handed out only when the
      next attempt of its run, if there is one, is due. */
  lemma ConsultationClaimsAreDue(i: Inbox, runs: Runs, limit: nat, now: int, id: Id)
    requires InboxOk(i) && id in ClaimIds(i, AutonomousConsultation, runs, limit, now)
    ensures id in i && (id in runs && runs[id].nextAttemptAt.Some? ==> runs[id].nextAttemptAt.value <= now)
    ensures id in runs && runs[id].createdAt <= now ==> AttemptDue(runs[id], now)
  {
    ClaimPicksClaimableRows(i, AutonomousConsultation, runs, limit, now);
    var ids := ClaimIds(i, AutonomousConsultation, runs, limit, now);
    var k :| 0 <= k < |ids| && ids[k] == id;
    assert Claimable(LapsedClaims(i, now)[ids[k]], AutonomousConsultation, runs, now);
  }

  lemma PollLowers(policy: Policy, r: ConsultationRun, now: int)
    requires ValidPolicy(policy) && AttemptDue(r, now) && now < r.deadline
    ensures Polls(r.deadline - NextPoll(policy, now), Interval(policy)) < PollsLeft(policy, r)
    ensures Polls(r.deadline - NextPoll(policy, now), Interval(policy)) < Horizon(policy, r)
  {
    PollsMonotone(r.deadline - now, r.deadline - r.createdAt, Interval(policy));
    if r.nextAttemptAt.Some? {
      PollsMonotone(r.deadline - now, r.deadline - r.nextAttemptAt.value, Interval(policy));
    }
  }

  lemma OneRoundLess(left: nat, width: nat, rank: nat, rank': nat)
    requires left > 0 && rank' < width
    ensures Rounds(left - 1, width) + rank' < Rounds(left, width) + rank
  {
    assert left * width == (left - 1) * width + width;
  }

  lemma NextRoundLowers(policy: Policy, a: ConsultationRun, b: ConsultationRun)
    requires ValidPolicy(policy) && SameTerms(a, b) && a.state.PendingChild? && !IsFinal(b.state)
    requires a.roundCount < a.maxRounds && b.roundCount == a.roundCount + 1 && Rank(policy, b) < Width(policy, b)
    ensures Potential(policy, b) < Potential(policy, a)
  {
    OneRoundLess(a.maxRounds - a.roundCount, Width(policy, a), 0, Rank(policy, b));
  }

  lemma WithinRoundLowers(policy: Policy, a: ConsultationRun, b: ConsultationRun)
    requires ValidPolicy(policy) && SameTerms(a, b) && !IsFinal(a.state) && !IsFinal(b.state)
    requires a.roundCount == b.roundCount <= a.maxRounds && Rank(policy, b) < Rank(policy, a)
    ensures Potential(policy, b) < Potential(policy, a)
  {
  }

  /** Every move of a due run lowers its potential. */
  lemma MoveLowersPotential(policy: Policy, a: ConsultationRun, now: int, b: ConsultationRun)
    requires ValidPolicy(policy) && Moves(policy, a, now, b) && AttemptDue(a, now)
    requires a.roundCount <= a.maxRounds && b.roundCount <= b.maxRounds
    ensures Potential(policy, b) < Potential(policy, a)
  {
    if IsFinal(b.state) {
      assert !a.state.RunFailed?;
    } else if a.state.PendingChild? {
      NextRoundLowers(policy, a, b);
    } else {
      if b.state.WaitingPeer? { PollLowers(policy, a, now); }
      WithinRoundLowers(policy, a, b);
    }
  }

  /** A move made too early, before the next attempt was due, can only ask the peer again:
      it raises the potential by less than the polls of a whole life. */
  lemma EarlyMoveRaisesLittle(policy: Policy, a: ConsultationRun, now: int, b: ConsultationRun)
    requires ValidPolicy(policy) && Moves(policy, a, now, b) && a.createdAt <= now
    requires a.roundCount <= a.maxRounds && b.roundCount <= b.maxRounds
    ensures 1 + Potential(policy, b) <= Potential(policy, a) + if AttemptDue(a, now) then 0 else Horizon(policy, a)
  {
    if AttemptDue(a, now) || IsFinal(b.state) || !b.state.WaitingPeer? || a.state.PendingChild? {
      MoveIsDueUnlessPoll(policy, a, now, b);
    } else {
      PollsMonotone(b.deadline - b.nextAttemptAt.value, a.deadline - a.createdAt - Interval(policy), Interval(policy));
    }
  }

  lemma MoveIsDueUnlessPoll(policy: Policy, a: ConsultationRun, now: int, b: ConsultationRun)
    requires ValidPolicy(policy) && Moves(policy, a, now, b)
    requires AttemptDue(a, now) || IsFinal(b.state) || !b.state.WaitingPeer? || a.state.PendingChild?
    requires a.roundCount <= a.maxRounds && b.roundCount <= b.maxRounds
    ensures Potential(policy, b) < Potential(policy, a)
  {
    if AttemptDue(a, now) {
      MoveLowersPotential(policy, a, now, b);
    } else if IsFinal(b.state) {
      assert !a.state.RunFailed?;
    } else if a.state.PendingChild? {
      NextRoundLowers(policy, a, b);
    } else {
      WithinRoundLowers(policy, a, b);
    }
  }

  // ---- The life of a stored run ---------------------------------------------------

  /** What an attempt to process a claim, complete or cut short by a crash or an
      error, does to the stored run: nothing, or one versioned save. */
  predicate LifeStep(policy: Policy, a: ConsultationRun, now: int, b: ConsultationRun) {
    b == a || (b.version == a.version + 1 && AttemptDue(a, now) && Moves(policy, a, now, b.(version := a.version)))
  }

  predicate IsLife(policy: Policy, runs: seq<ConsultationRun>, times: seq<int>) {
    && |runs| == |times| + 1
    && forall k :: 0 <= k < |times| ==> LifeStep(policy, runs[k], times[k], runs[k + 1])
  }

  /** A turn taken on a claim, saved by the versioned update, is a life step. */
  lemma SavedTurnIsLifeStep(policy: Policy, runs: Runs, r: ConsultationRun, s: Surroundings, now: int)
    requires r.requestId in runs && runs[r.requestId] == r && AttemptDue(r, now)
    requires Saves(TakeTurn(policy, r, s, now), r)
    ensures var runs' := SaveRunSpec(runs, TakeTurn(policy, r, s, now).run, r.version).0;
      r.requestId in runs' && LifeStep(policy, r, now, runs'[r.requestId])
  {
    TurnMoves(policy, r, s, now);
  }

  /** Each save raises the version by one and uses up some potential; rounds never
      exceed their limit. */
  lemma {:induction false} LifeUsesPotential(policy: Policy, runs: seq<ConsultationRun>, times: seq<int>)
    requires ValidPolicy(policy) && IsLife(policy, runs, times) && runs[0].roundCount <= runs[0].maxRounds
    ensures runs[|times|].roundCount <= runs[|times|].maxRounds
    ensures runs[|times|].version - runs[0].version + Potential(policy, runs[|times|]) <= Potential(policy, runs[0])
    ensures SameTerms(runs[0], runs[|times|])
  {
    if times != [] {
      var k := |times| - 1;
      LifeUsesPotential(policy, runs[..k + 1], times[..k]);
      if runs[k + 1] != runs[k] {
        MoveLowersPotential(policy, runs[k], times[k], runs[k + 1].(version := runs[k].version));
      }
    }
  }

  /** Termination: over its whole life, however often it is claimed, crashed and
      claimed again, an admitted run is saved at most this many times. */
  lemma EveryConsultationEnds(policy: Policy, e: Envelope, created: int, runs: seq<ConsultationRun>, times: seq<int>)
    requires ValidPolicy(policy) && IsLife(policy, runs, times)
    requires Admit(policy, e, true, created) == Admitted(runs[0])
    ensures var last := runs[|times|];
      && last.version <= 2 + policy.maxRounds * (Horizon(policy, runs[0]) + 3)
      && last.roundCount <= policy.maxRounds
  {
    LifeUsesPotential(policy, runs, times);
  }

  /** A handled claim makes progress: it settles the message, or releases it with
      less potential left than before. Past the deadline it settles. */
  lemma HandledClaimProgresses(policy: Policy, r: ConsultationRun, s: Surroundings, now: int)
    requires ValidPolicy(policy) && AttemptDue(r, now) && r.roundCount <= r.maxRounds
    ensures match TakeTurn(policy, r, s, now)
            case Rethrow => now < r.deadline
            case Finish(b, _) => IsFinal(b.state)
            case Release(b, _) =>
              && now < r.deadline && b.roundCount <= b.maxRounds
              && Potential(policy, b) < Potential(policy, r)
  {
    TurnMoves(policy, r, s, now);
    var t := TakeTurn(policy, r, s, now);
    if t.Release? {
      MoveLowersPotential(policy, r, now, t.run);
    }
  }
}
