/** The life of a consultation over whole runs of the database: how often its run is
    saved and its message parked, whoever claims it and whatever else happens. */
module Lifetimes {
  import opened Envelopes
  import opened Tables
  import opened InboxTable
  import opened Settlement
  import opened Approvals
  import opened RunTable
  import opened Operations
  import opened Fencing
  import opened Decisions
  import opened Consultations
  import opened ConsultationProgress
  import opened Coordinators

  ghost function At(ops: seq<Op>, k: nat): Database
    requires k <= |ops|
  {
    Run(EmptyDatabase(), ops[..k])
  }

  /** The save takes place: the run is valid and computed from the stored version. */
  ghost predicate Effective(d: Database, op: Op, id: Id) {
    op.SaveRun? && op.run.requestId == id && SaveRunSpec(d.runs, op.run, op.expected).1.Ok?
  }

  /** What stands behind a save: the state the run was read in, the turn, and the
      operation that handed out the claim. */
  datatype Backing = Backing(claim: nat, consumer: string, token: string, read: nat, s: Surroundings, turnAt: int,
                             savedAt: int)

  /** The k-th operation saves what the turn made of the run that was read. */
  ghost predicate Turned(policy: Policy, ops: seq<Op>, k: nat, id: Id, b: Backing)
    requires k < |ops|
  {
    && b.read <= k && id in At(ops, b.read).runs
    && var r := At(ops, b.read).runs[id];
       && r.createdAt <= b.turnAt && Saves(TakeTurn(policy, r, b.s, b.turnAt), r)
       && ops[k] == SaveRun(TakeTurn(policy, r, b.s, b.turnAt).run, r.version)
  }

  /** The operation handed the message out under this token as a consultation. */
  ghost predicate HandedOut(ops: seq<Op>, j: nat, id: Id, token: string) {
    && j < |ops| && ops[j].Claim? && ops[j].filter.AutonomousConsultation? && ops[j].limit > 0 && token in ops[j].tokens
    && id in ClaimIds(At(ops, j).inbox, AutonomousConsultation, At(ops, j).runs, ops[j].limit, ops[j].now)
  }

  /** The run was read and saved under a claim that had not lapsed by then. */
  ghost predicate InTime(start: int, ops: seq<Op>, k: nat, id: Id, b: Backing)
    requires k < |ops|
  {
    && b.claim < b.read <= k && HandedOut(ops, b.claim, id, b.token) && ops[b.claim].now <= b.turnAt
    && HoldsClaim(At(ops, k).inbox, id, b.consumer, b.token, b.savedAt) && Clock(start, ops[..k]) <= b.savedAt
  }

  /** Tokens are random: none is drawn twice. */
  ghost predicate TokensFresh(ops: seq<Op>) {
    forall i, j, t ::
      0 <= i < |ops| && 0 <= j < |ops| && ops[i].Claim? && ops[j].Claim? && t in ops[i].tokens && t in ops[j].tokens
      ==> i == j
  }

  ghost predicate Created(policy: Policy, r: ConsultationRun) {
    exists e, at :: Admit(policy, e, true, at) == Admitted(r)
  }

  ghost predicate CreatedByAdmission(policy: Policy, ops: seq<Op>, id: Id) {
    forall k :: 0 <= k < |ops| && ops[k].EnsureRun? && ops[k].run.requestId == id ==> Created(policy, ops[k].run)
  }

  /** How coordinators of one policy treat a consultation: they create its run by admission
      and save it by turns, at most once for each claim. Nothing is assumed of claims that
      lapse before the save. */
  ghost predicate Disciplined(policy: Policy, start: int, ops: seq<Op>, id: Id, backing: map<nat, Backing>) {
    && ValidPolicy(policy) && WellTimed(start, ops) && TokensFresh(ops) && CreatedByAdmission(policy, ops, id)
    && (forall k :: 0 <= k < |ops| && Effective(At(ops, k), ops[k], id) ==>
          k in backing && Turned(policy, ops, k, id, backing[k]))
    && (forall k, l ::
          0 <= k < |ops| && 0 <= l < |ops| && k in backing && l in backing && InTime(start, ops, k, id, backing[k])
          && InTime(start, ops, l, id, backing[l]) && backing[k].claim == backing[l].claim
          ==> k == l)
  }

  // ---- Splitting a run ------------------------------------------------------------------

  lemma AtNext(ops: seq<Op>, k: nat)
    requires k < |ops|
    ensures At(ops, k + 1) == Step(At(ops, k), ops[k])
  {
    hide Step;
    assert ops[..k + 1][..k] == ops[..k];
  }

  lemma ClockNext(start: int, ops: seq<Op>, k: nat)
    requires k < |ops|
    ensures Clock(start, ops[..k + 1]) == ClockAfter(Clock(start, ops[..k]), ops[k])
  {
    assert ops[..k + 1][..k] == ops[..k];
  }

  lemma {:induction false} WellTimedPrefix(start: int, ops: seq<Op>, k: nat)
    requires k <= |ops| && WellTimed(start, ops)
    ensures WellTimed(start, ops[..k])
    decreases |ops|
  {
    if k == |ops| {
      assert ops[..k] == ops;
    } else {
      WellTimedPrefix(start, ops[..|ops| - 1], k);
      assert ops[..|ops| - 1][..k] == ops[..k];
    }
  }

  /** A run from the middle on is the rest of the run. */
  lemma {:induction false} SplitRun(start: int, ops: seq<Op>, m: nat, k: nat)
    requires m <= k <= |ops| && WellTimed(start, ops)
    ensures Run(At(ops, m), ops[m..k]) == At(ops, k)
    ensures Clock(Clock(start, ops[..m]), ops[m..k]) == Clock(start, ops[..k])
    ensures WellTimed(Clock(start, ops[..m]), ops[m..k])
    decreases k - m
  {
    hide Step;
    if m == k {
      assert ops[m..k] == [];
    } else {
      SplitRun(start, ops, m, k - 1);
      var rest := ops[m..k];
      assert rest[..|rest| - 1] == ops[m..k - 1] && rest[|rest| - 1] == ops[k - 1];
      AtNext(ops, k - 1);
      SplitStep(At(ops, m), rest, At(ops, k - 1), At(ops, k));
      ClockNext(start, ops, k - 1);
      WellTimedPrefix(start, ops, k);
      assert ops[..k][..k - 1] == ops[..k - 1];
    }
  }

  lemma SplitStep(d: Database, rest: seq<Op>, before: Database, after: Database)
    requires rest != [] && Run(d, rest[..|rest| - 1]) == before && after == Step(before, rest[|rest| - 1])
    ensures Run(d, rest) == after
  {
    hide Step;
  }

  // ---- Nobody else saves while a claim lasts -----------------------------------------------

  lemma LiveBefore(start: int, ops: seq<Op>, j: nat, m: nat, k: nat, id: Id, consumer: string, token: string, at: int)
    requires j < m <= k < |ops| && WellTimed(start, ops) && TokensFresh(ops) && HandedOut(ops, j, id, token)
    requires HoldsClaim(At(ops, k).inbox, id, consumer, token, at) && Clock(start, ops[..k]) <= at
    ensures HoldsClaim(At(ops, m).inbox, id, consumer, token, Clock(start, ops[..m]))
  {
    hide Step;
    SplitRun(start, ops, m, k);
    if !HoldsClaim(At(ops, m).inbox, id, consumer, token, Clock(start, ops[..m])) {
      forall i | 0 <= i < |ops[m..k]| && ops[m..k][i].Claim? ensures token !in ops[m..k][i].tokens {
        assert ops[m..k][i] == ops[m + i];
      }
      EndedStaysEnded(At(ops, m), ops[m..k], id, consumer, token, Clock(start, ops[..m]));
      assert false;
    }
  }

  lemma NoTimelySaveBetween(policy: Policy, start: int, ops: seq<Op>, id: Id, backing: map<nat, Backing>, k: nat, m: nat)
    requires Disciplined(policy, start, ops, id, backing) && m < k < |ops| && k in backing && m in backing
    requires InTime(start, ops, k, id, backing[k]) && backing[k].claim < m
    ensures !InTime(start, ops, m, id, backing[m])
  {
    hide Step;
    if InTime(start, ops, m, id, backing[m]) {
      var b := backing[k];
      LiveBefore(start, ops, b.claim, m, k, id, b.consumer, b.token, b.savedAt);
      assert false;
    }
  }

  lemma RunsAfter(d: Database, d': Database, op: Op, id: Id)
    requires d' == Step(d, op) && !Effective(d, op, id)
    ensures id in d.runs ==> id in d'.runs && d'.runs[id] == d.runs[id]
    ensures id in d'.runs && id !in d.runs ==> op.EnsureRun? && op.run.requestId == id && d'.runs[id] == op.run
  {
    match GroupOf(op)
    case OnApprovals => ApprovalStepMoves(d, op);
    case OnBoth => SettleKeepsParked(d, op.id, op.consumer, op.token, op.outcome, op.reply, op.now);
    case _ =>
  }

  /** Without a save in between the run stays as it was, or is created. */
  lemma {:induction false} UnsavedSince(policy: Policy, ops: seq<Op>, id: Id, p: nat, q: nat)
    requires ValidPolicy(policy) && CreatedByAdmission(policy, ops, id) && p <= q <= |ops|
    requires forall m :: p <= m < q ==> !Effective(At(ops, m), ops[m], id)
    ensures id in At(ops, p).runs ==> id in At(ops, q).runs && At(ops, q).runs[id] == At(ops, p).runs[id]
    ensures id in At(ops, q).runs && id !in At(ops, p).runs ==> At(ops, q).runs[id].nextAttemptAt.None?
    decreases q
  {
    hide Step, Effective, At;
    if p < q {
      var m := q - 1;
      UnsavedSince(policy, ops, id, p, m);
      AtNext(ops, m);
      RunsAfter(At(ops, m), At(ops, q), ops[m], id);
      if id in At(ops, q).runs && id !in At(ops, m).runs {
        CreatedWithin(policy, At(ops, q).runs[id]);
      }
    }
  }

  lemma SaveIsAStep(d: Database, op: Op)
    requires op.SaveRun?
    ensures Step(d, op).runs == SaveRunSpec(d.runs, op.run, op.expected).0
  {
  }

  /** A stored run's version never falls, and with its version it keeps its content. */
  lemma {:induction false} VersionTells(ops: seq<Op>, id: Id, p: nat, q: nat)
    requires p <= q <= |ops| && id in At(ops, p).runs
    ensures id in At(ops, q).runs && At(ops, p).runs[id].version <= At(ops, q).runs[id].version
    ensures At(ops, p).runs[id].version == At(ops, q).runs[id].version ==> At(ops, p).runs[id] == At(ops, q).runs[id]
    decreases q
  {
    hide Step, At;
    if p < q {
      var m := q - 1;
      VersionTells(ops, id, p, m);
      AtNext(ops, m);
      if Effective(At(ops, m), ops[m], id) {
        SaveIsAStep(At(ops, m), ops[m]);
      } else {
        RunsAfter(At(ops, m), At(ops, q), ops[m], id);
      }
    }
  }

  /** The run a save was computed from is the run it replaces, whoever saves and however
      late: the version sees to it. */
  lemma SavedTurnIsCurrent(policy: Policy, start: int, ops: seq<Op>, id: Id, backing: map<nat, Backing>, k: nat)
    requires Disciplined(policy, start, ops, id, backing) && k < |ops| && Effective(At(ops, k), ops[k], id)
    ensures id in At(ops, k).runs && At(ops, k).runs[id] == At(ops, backing[k].read).runs[id]
  {
    hide Step, At;
    var b := backing[k];
    assert Turned(policy, ops, k, id, b);
    VersionTells(ops, id, b.read, k);
  }

  /** The last save among the first k operations came too late for its claim. */
  ghost predicate LastWasLate(start: int, ops: seq<Op>, k: nat, id: Id, backing: map<nat, Backing>)
    requires k <= |ops|
  {
    k > 0 &&
    if Effective(At(ops, k - 1), ops[k - 1], id) then k - 1 in backing ==> !InTime(start, ops, k - 1, id, backing[k - 1])
    else LastWasLate(start, ops, k - 1, id, backing)
  }

  /** Unless the last save was late, nobody saves between a claim and the timely save made
      under it. */
  lemma {:induction false} NoSaveSince(policy: Policy, start: int, ops: seq<Op>, id: Id, backing: map<nat, Backing>,
                                       k: nat, q: nat)
    requires Disciplined(policy, start, ops, id, backing) && k < |ops| && k in backing
    requires InTime(start, ops, k, id, backing[k]) && backing[k].claim <= q <= k
    requires !LastWasLate(start, ops, q, id, backing)
    ensures forall m :: backing[k].claim <= m < q ==> !Effective(At(ops, m), ops[m], id)
    decreases q
  {
    hide Step, At, Turned;
    if backing[k].claim < q {
      var m := q - 1;
      assert ops[backing[k].claim].Claim?;
      if Effective(At(ops, m), ops[m], id) {
        assert Turned(policy, ops, m, id, backing[m]);
        NoTimelySaveBetween(policy, start, ops, id, backing, k, m);
        assert false;
      }
      NoSaveSince(policy, start, ops, id, backing, k, m);
    }
  }

  /** The filter's promise reaches the turn: unless the save before it was late, the attempt
      of a turn that is saved in time was due. */
  lemma SavedTurnWasDue(policy: Policy, start: int, ops: seq<Op>, id: Id, backing: map<nat, Backing>, k: nat)
    requires Disciplined(policy, start, ops, id, backing) && k < |ops| && Effective(At(ops, k), ops[k], id)
    requires InTime(start, ops, k, id, backing[k]) && !LastWasLate(start, ops, k, id, backing)
    ensures id in At(ops, k).runs && AttemptDue(At(ops, k).runs[id], backing[k].turnAt)
  {
    hide Step, At, LastWasLate, Effective;
    var b := backing[k];
    assert Turned(policy, ops, k, id, b) && HandedOut(ops, b.claim, id, b.token);
    SavedTurnIsCurrent(policy, start, ops, id, backing, k);
    NoSaveSince(policy, start, ops, id, backing, k, k);
    UnsavedSince(policy, ops, id, b.claim, k);
    AtIsOk(ops, b.claim);
    var d := At(ops, b.claim);
    ConsultationClaimsAreDue(d.inbox, d.runs, ops[b.claim].limit, ops[b.claim].now, id);
  }

  lemma AtIsOk(ops: seq<Op>, k: nat)
    requires k <= |ops|
    ensures InboxOk(At(ops, k).inbox) && RunsOk(At(ops, k).runs)
  {
    hide Step;
    EveryRunIsOk(ops[..k]);
  }

  // ---- The bound --------------------------------------------------------------------------------

  function MostSaves(policy: Policy, r: ConsultationRun): nat
    requires ValidPolicy(policy)
  {
    2 + Rounds(r.maxRounds, Horizon(policy, r) + 3)
  }

  /** `late` saves came too late for their claims; a late save may spoil the next one, so
      while the last save was late some of the allowance is left. */
  function Allowance(policy: Policy, r: ConsultationRun, late: nat, last: bool): int
    requires ValidPolicy(policy)
  {
    MostSaves(policy, r) + 2 * Rounds(late, Horizon(policy, r)) - if last then Horizon(policy, r) else 0
  }

  ghost predicate WithinBound(policy: Policy, r: ConsultationRun, late: nat, last: bool)
    requires ValidPolicy(policy)
  {
    && r.maxRounds == policy.maxRounds && r.roundCount <= r.maxRounds
    && r.version + Potential(policy, r) <= Allowance(policy, r, late, last)
  }

  lemma CreatedWithin(policy: Policy, r: ConsultationRun)
    requires ValidPolicy(policy) && Created(policy, r)
    ensures WithinBound(policy, r, 0, false) && r.version == 0 && r.nextAttemptAt.None?
  {
  }

  /** A save that was due, or that follows a late one, or is late itself, stays within the
      allowance. */
  lemma SavedWithin(policy: Policy, r: ConsultationRun, s: Surroundings, now: int, late: nat, last: bool, inTime: bool)
    requires ValidPolicy(policy) && WithinBound(policy, r, late, last) && r.createdAt <= now
    requires inTime && !last ==> AttemptDue(r, now)
    requires Saves(TakeTurn(policy, r, s, now), r) && ValidRun(TakeTurn(policy, r, s, now).run)
    ensures var b := TakeTurn(policy, r, s, now).run.(version := r.version + 1);
      WithinBound(policy, b, if inTime then late else late + 1, !inTime)
  {
    hide TakeTurn, ValidRun, Moves;
    var b := TakeTurn(policy, r, s, now).run;
    TurnMoves(policy, r, s, now);
    ValidRounds(b);
    SameTermsOfMove(policy, r, now, b);
    EarlyMoveRaisesLittle(policy, r, now, b);
    OneMore(late, Horizon(policy, r));
  }

  lemma ValidRounds(b: ConsultationRun)
    requires ValidRun(b)
    ensures b.roundCount <= b.maxRounds
  {
  }

  lemma SameTermsOfMove(policy: Policy, a: ConsultationRun, now: int, b: ConsultationRun)
    requires Moves(policy, a, now, b)
    ensures SameTerms(a, b) && b.version == a.version
  {
  }

  lemma OneMore(n: nat, width: nat)
    ensures Rounds(n + 1, width) == Rounds(n, width) + width
  {
  }

  /** How many saves took place among the first k operations, and how many of them came too
      late for their claims. */
  ghost function SavesUpTo(ops: seq<Op>, k: nat, id: Id): nat
    requires k <= |ops|
  {
    if k == 0 then 0
    else SavesUpTo(ops, k - 1, id) + if Effective(At(ops, k - 1), ops[k - 1], id) then 1 else 0
  }

  ghost predicate LateSave(start: int, ops: seq<Op>, k: nat, id: Id, backing: map<nat, Backing>)
    requires k < |ops|
  {
    Effective(At(ops, k), ops[k], id) && (k in backing ==> !InTime(start, ops, k, id, backing[k]))
  }

  ghost function LateUpTo(start: int, ops: seq<Op>, k: nat, id: Id, backing: map<nat, Backing>): nat
    requires k <= |ops|
  {
    if k == 0 then 0
    else LateUpTo(start, ops, k - 1, id, backing) + if LateSave(start, ops, k - 1, id, backing) then 1 else 0
  }

  lemma {:induction false} LifeIsBounded(policy: Policy, start: int, ops: seq<Op>, id: Id, backing: map<nat, Backing>,
                                         k: nat)
    requires Disciplined(policy, start, ops, id, backing) && k <= |ops|
    ensures id !in At(ops, k).runs ==>
              SavesUpTo(ops, k, id) == LateUpTo(start, ops, k, id, backing) == 0 && !LastWasLate(start, ops, k, id, backing)
    ensures id in At(ops, k).runs ==>
              && SavesUpTo(ops, k, id) == At(ops, k).runs[id].version
              && WithinBound(policy, At(ops, k).runs[id], LateUpTo(start, ops, k, id, backing),
                             LastWasLate(start, ops, k, id, backing))
  {
    hide Step, Effective, WithinBound, InTime, At, Turned;
    if k > 0 {
      LifeIsBounded(policy, start, ops, id, backing, k - 1);
      AtNext(ops, k - 1);
      var d, d' := At(ops, k - 1), At(ops, k);
      if Effective(d, ops[k - 1], id) {
        SaveNext(policy, start, ops, id, backing, k - 1, d, d');
      } else {
        OtherNext(policy, ops, id, k - 1, d, d');
      }
    } else {
      NothingYet(ops);
    }
  }

  lemma OtherNext(policy: Policy, ops: seq<Op>, id: Id, k: nat, d: Database, d': Database)
    requires ValidPolicy(policy) && CreatedByAdmission(policy, ops, id) && k < |ops|
    requires d' == Step(d, ops[k]) && !Effective(d, ops[k], id)
    ensures id in d.runs ==> id in d'.runs && d'.runs[id] == d.runs[id]
    ensures id in d'.runs && id !in d.runs ==> WithinBound(policy, d'.runs[id], 0, false) && d'.runs[id].version == 0
  {
    hide Step, Effective, WithinBound;
    RunsAfter(d, d', ops[k], id);
    if id in d'.runs && id !in d.runs {
      CreatedWithin(policy, d'.runs[id]);
    }
  }

  lemma NothingYet(ops: seq<Op>)
    ensures At(ops, 0).runs == map[]
  {
    hide Step;
    assert ops[..0] == [];
  }

  lemma SaveNext(policy: Policy, start: int, ops: seq<Op>, id: Id, backing: map<nat, Backing>, k: nat,
                 d: Database, d': Database)
    requires Disciplined(policy, start, ops, id, backing) && k < |ops| && d == At(ops, k) && d' == Step(d, ops[k])
    requires Effective(d, ops[k], id)
    requires id in d.runs ==>
               WithinBound(policy, d.runs[id], LateUpTo(start, ops, k, id, backing),
                           LastWasLate(start, ops, k, id, backing))
    ensures id in d.runs && id in d'.runs && d'.runs[id].version == d.runs[id].version + 1
    ensures k in backing
    ensures var late, inTime := LateUpTo(start, ops, k, id, backing), InTime(start, ops, k, id, backing[k]);
      WithinBound(policy, d'.runs[id], if inTime then late else late + 1, !inTime)
  {
    hide Step, WithinBound, At, InTime, LastWasLate, LateUpTo, TakeTurn, ValidRun;
    var b := backing[k];
    assert Turned(policy, ops, k, id, b);
    SavedTurnIsCurrent(policy, start, ops, id, backing, k);
    var inTime, last := InTime(start, ops, k, id, b), LastWasLate(start, ops, k, id, backing);
    if inTime && !last {
      SavedTurnWasDue(policy, start, ops, id, backing, k);
    }
    SaveIsAStep(d, ops[k]);
    AtIsOk(ops, k);
    SavedWithin(policy, d.runs[id], b.s, b.turnAt, LateUpTo(start, ops, k, id, backing), last, inTime);
  }

  ghost predicate Parks(d: Database, op: Op, id: Id) {
    && op.Authorize? && op.id == id
    && var r := AuthorizeSpec(d, id, op.consumer, op.token, op.resource, op.actor, op.now).1;
       r.Ok? && r.value.ApprovalPending?
  }

  lemma ParksOnce(start: int, ops: seq<Op>, id: Id, a: nat, b: nat)
    requires WellTimed(start, ops) && a < b < |ops| && Parks(At(ops, a), ops[a], id)
    ensures !Parks(At(ops, b), ops[b], id)
  {
    hide Step, AuthorizeSpec;
    if Parks(At(ops, b), ops[b], id) {
      EveryRunIsOk(ops[..a]);
      AtNext(ops, a);
      SplitRun(start, ops, a + 1, b);
      ParkedAtMostOnce(At(ops, a), ops[a], ops[a + 1..b], ops[b]);
      assert false;
    }
  }

  /** Every consultation ends, over whole runs: however often its message is claimed, by
      however many processes, its run is saved at most this often, rounds stay within
      their limit, and the message waits for an approval at most once. Each save that comes
      too late for its claim can cost two lives' worth of polls, and no more. */
  lemma ConsultationIsBounded(policy: Policy, start: int, ops: seq<Op>, id: Id, backing: map<nat, Backing>)
    requires Disciplined(policy, start, ops, id, backing) && id in Run(EmptyDatabase(), ops).runs
    ensures var r := Run(EmptyDatabase(), ops).runs[id];
      && SavesUpTo(ops, |ops|, id) == r.version
      && r.version <= 2 + policy.maxRounds * (Horizon(policy, r) + 3)
                      + 2 * (LateUpTo(start, ops, |ops|, id, backing) * Horizon(policy, r))
      && r.roundCount <= policy.maxRounds
    ensures forall a, b :: 0 <= a < b < |ops| && Parks(At(ops, a), ops[a], id) ==> !Parks(At(ops, b), ops[b], id)
  {
    hide Step, Parks, LateUpTo, SavesUpTo, Disciplined;
    LifeIsBounded(policy, start, ops, id, backing, |ops|);
    assert ops[..|ops|] == ops;
    DisciplinedIsTimed(policy, start, ops, id, backing);
    forall a, b | 0 <= a < b < |ops| && Parks(At(ops, a), ops[a], id) ensures !Parks(At(ops, b), ops[b], id) {
      ParksOnce(start, ops, id, a, b);
    }
  }

  lemma DisciplinedIsTimed(policy: Policy, start: int, ops: seq<Op>, id: Id, backing: map<nat, Backing>)
    requires Disciplined(policy, start, ops, id, backing)
    ensures WellTimed(start, ops) && ValidPolicy(policy)
  {
  }

  // ---- What coordinators do to the runs ------------------------------------------------------------

  /** The coordinator's turn changes the runs by one operation if at all: it saves what the
      turn made of the run, on the version it was read in. */
  lemma CoordinatorSavesTurns(policy: Policy, r: ConsultationRun, s: Surroundings, now: int, runs: Runs, runs': Runs,
                              i': Inbox, h: Handling)
    requires Performed(r, TakeTurn(policy, r, s, now), runs, runs', i', h)
    requires r.requestId in runs && runs[r.requestId] == r && RunsOk(runs') && runs' != runs
    ensures var t := TakeTurn(policy, r, s, now);
      !t.Rethrow? && Saves(t, r) && SaveRunSpec(runs, t.run, r.version) == (runs', Ok(runs'[r.requestId]))
  {
    hide TakeTurn;
    TurnMoves(policy, r, s, now);
    var b := TakeTurn(policy, r, s, now).run;
    assert ValidRun(runs'[r.requestId]);
    VersionIsNoMatter(b, r.version + 1);
  }

  lemma VersionIsNoMatter(b: ConsultationRun, version: nat)
    requires ValidRun(b.(version := version))
    ensures ValidRun(b)
  {
  }
}
