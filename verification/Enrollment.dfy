/** Importing the public enrollments of peers, in any order and across crashes,
    and the membership policy built from them. */
module Enrollments {
  import opened Envelopes
  import opened MessageAuthentication

  datatype Enrollment = Enrollment(node: NodeId, network: string, id: KeyId, key: PublicKey, status: KeyStatus)

  /** The file of an enrollment: the exact canonical export, or anything else.
      Hashes are ideal, so a recorded hash is the content it was taken from. */
  datatype Artifact = Exported(enrollment: Enrollment) | OtherBytes(bytes: string)

  /** The manifest's part that imports read and write, and the enrollment files. */
  datatype Onboarding = Onboarding(
    node: NodeId,
    network: string,
    authorized: seq<NodeId>,
    local: Option<Enrollment>,
    enrollments: map<NodeId, Enrollment>,
    hashes: map<NodeId, Artifact>,
    files: map<NodeId, Artifact>,
    policyFile: Option<PolicyArtifact>,
    policyHash: Option<PolicyArtifact>)

  /** The membership file: the canonical text of a policy, or anything else. */
  datatype PolicyArtifact = PolicyText(policy: Membership) | OtherPolicy(bytes: string)

  /** The key id is the one derived from an Ed25519 key. */
  predicate ParseOk(e: Enrollment) {
    e.key.PublicOf? && e.id == KeyIdOf(e.key)
  }

  predicate KeysDiffer(a: Enrollment, b: Enrollment) {
    a.id != b.id && a.key != b.key
  }

  // ---- One import --------------------------------------------------------------------

  /** The enrollment may stand for this peer next to all others. */
  predicate Admissible(s: Onboarding, p: NodeId, e: Enrollment) {
    && p in s.authorized && p != s.node
    && ParseOk(e) && e.node == p && e.network == s.network
    && (forall q :: q in s.enrollments && q != p ==> KeysDiffer(s.enrollments[q], e))
    && (s.local.Some? ==> KeysDiffer(s.local.value, e))
  }

  /** Manifest and file of the peer agree on this enrollment, or an import of it
      was never started, or was cut short after its file was written. */
  predicate PeerReady(s: Onboarding, p: NodeId, e: Enrollment) {
    && (p in s.files ==> s.files[p] == Exported(e))
    && if p in s.enrollments
       then s.enrollments[p] == e && p in s.files && p in s.hashes && s.hashes[p] == Exported(e)
       else p !in s.hashes
  }

  predicate Importable(s: Onboarding, p: NodeId, e: Enrollment) {
    Admissible(s, p, e) && PeerReady(s, p, e)
  }

  function WithFile(s: Onboarding, p: NodeId, e: Enrollment): Onboarding {
    s.(files := s.files[p := Exported(e)])
  }

  function Imported(s: Onboarding, p: NodeId, e: Enrollment): Onboarding {
    s.(files := s.files[p := Exported(e)], enrollments := s.enrollments[p := e], hashes := s.hashes[p := Exported(e)])
  }

  function PolicyPeer(e: Enrollment): Peer {
    Peer(e.node, [MembershipKey(e.id, e.key, e.status, None, None)])
  }

  /** The policy is read off the terms and the enrollments. `authorized` is kept
      sorted. */
  function PolicyPeers(authorized: seq<NodeId>, enrollments: map<NodeId, Enrollment>): seq<Peer>
    requires forall p :: p in authorized ==> p in enrollments
  {
    seq(|authorized|, i requires 0 <= i < |authorized| => PolicyPeer(enrollments[authorized[i]]))
  }

  predicate Enrolled(s: Onboarding) {
    forall p :: p in s.authorized ==> p in s.enrollments
  }

  function PolicyOf(s: Onboarding): Membership
    requires Enrolled(s)
  {
    Membership(s.network, PolicyPeers(s.authorized, s.enrollments))
  }

  /** The membership file can be written: it is not there and not recorded, or it
      is there as it would be written. */
  predicate PolicyWritable(s: Onboarding) {
    && Enrolled(s)
    && var text := PolicyText(PolicyOf(s));
       if s.policyFile.Some? then s.policyFile.value == text && (s.policyHash.Some? ==> s.policyHash.value == text)
       else s.policyHash.None?
  }

  function WithPolicyFile(s: Onboarding): Onboarding
    requires Enrolled(s)
  {
    s.(policyFile := Some(PolicyText(PolicyOf(s))))
  }

  function PolicyWritten(s: Onboarding): Onboarding
    requires Enrolled(s)
  {
    WithPolicyFile(s).(policyHash := Some(PolicyText(PolicyOf(s))))
  }

  /** A write of the policy cut short after its file is finished by the next. */
  lemma PolicyWriteResumes(s: Onboarding)
    requires PolicyWritable(s)
    ensures PolicyWritable(WithPolicyFile(s)) && PolicyWritten(WithPolicyFile(s)) == PolicyWritten(s)
    ensures PolicyWritable(PolicyWritten(s)) && PolicyWritten(PolicyWritten(s)) == PolicyWritten(s)
  {
    assert PolicyOf(WithPolicyFile(s)) == PolicyOf(s) && PolicyOf(PolicyWritten(s)) == PolicyOf(s);
  }

  class OnboardingStore {
    var state: Onboarding

    constructor (s: Onboarding)
      ensures state == s
    {
      state := s;
    }

    /** `crash` cuts the call short between writing the file and the manifest. */
    method ImportPublicEnrollment(p: NodeId, e: Enrollment, crash: bool) returns (ok: bool)
      modifies this
      ensures ok ==> Importable(old(state), p, e) && state == Imported(old(state), p, e)
      ensures !ok && !crash ==> !Importable(old(state), p, e) && state == old(state)
      ensures !ok && crash ==>
        state == if Importable(old(state), p, e) then WithFile(old(state), p, e) else old(state)
    {
      if p !in state.authorized || p == state.node {
        return false;
      }
      if !ParseOk(e) || e.node != p || e.network != state.network {
        return false;
      }
      if p in state.enrollments && state.enrollments[p] != e {
        return false;
      }
      if exists q :: q in state.enrollments && q != p
                     && (state.enrollments[q].id == e.id || state.enrollments[q].key == e.key)
      {
        return false;
      }
      if state.local.Some? && (state.local.value.id == e.id || state.local.value.key == e.key) {
        return false;
      }
      if p in state.files {
        if state.files[p] != Exported(e) {
          return false;
        }
        if p in state.enrollments {
          if p !in state.hashes || state.hashes[p] != Exported(e) {
            return false;
          }
          assert state.files == state.files[p := Exported(e)] && state.enrollments == state.enrollments[p := e];
          assert state.hashes == state.hashes[p := Exported(e)];
          return true;
        }
        if p in state.hashes {
          return false;
        }
        assert state.files == state.files[p := Exported(e)];
      } else {
        if p in state.enrollments || p in state.hashes {
          return false;
        }
        state := state.(files := state.files[p := Exported(e)]);
      }
      if crash {
        return false;
      }
      state := state.(enrollments := state.enrollments[p := e], hashes := state.hashes[p := state.files[p]]);
      ok := true;
    }

    /** `crash` cuts the call short between writing the file and the manifest. */
    method WriteMembershipPolicy(crash: bool) returns (ok: bool)
      requires ManifestOk(state)
      modifies this
      ensures ok ==> PolicyWritable(old(state)) && state == PolicyWritten(old(state))
      ensures !ok && !crash ==> !PolicyWritable(old(state)) && state == old(state)
      ensures !ok && crash ==> state == if PolicyWritable(old(state)) then WithPolicyFile(old(state)) else old(state)
    {
      var policy := BuildMembershipPolicy(state);
      if policy.Err? {
        return false;
      }
      var text := PolicyText(policy.value);
      if state.policyFile.Some? {
        if state.policyFile.value != text || (state.policyHash.Some? && state.policyHash.value != text) {
          return false;
        }
        if state.policyHash == Some(text) {
          return true;
        }
      } else {
        if state.policyHash.Some? {
          return false;
        }
        state := state.(policyFile := Some(text));
      }
      if crash {
        return false;
      }
      state := state.(policyHash := state.policyFile);
      ok := true;
    }
  }

  // ---- Any order, any crashes -----------------------------------------------------------

  /** One call of the import for a peer, completed or cut short after the file. */
  datatype Attempt = Attempt(peer: NodeId, completed: bool)

  type Plan = map<NodeId, Enrollment>

  /** After the attempts, or nothing if one of them was refused. */
  function After(s: Onboarding, plan: Plan, attempts: seq<Attempt>): Option<Onboarding>
    requires forall a :: a in attempts ==> a.peer in plan
  {
    if attempts == [] then Some(s)
    else
      var last := attempts[|attempts| - 1];
      match After(s, plan, attempts[..|attempts| - 1])
      case None => None
      case Some(t) =>
        if !Importable(t, last.peer, plan[last.peer]) then None
        else if last.completed then Some(Imported(t, last.peer, plan[last.peer]))
        else Some(WithFile(t, last.peer, plan[last.peer]))
  }

  /** The whole plan fits: each enrollment on its own, and no two share a key. */
  ghost predicate Compatible(s: Onboarding, plan: Plan) {
    && (forall p :: p in plan ==> Importable(s, p, plan[p]))
    && (forall p, q :: p in plan && q in plan && p != q ==> KeysDiffer(plan[p], plan[q]))
  }

  predicate Completed(attempts: seq<Attempt>, p: NodeId) {
    Attempt(p, true) in attempts
  }

  predicate SameTerms(s: Onboarding, t: Onboarding) {
    s.node == t.node && s.network == t.network && s.authorized == t.authorized && s.local == t.local
  }

  /** What is stored about one peer. */
  datatype Slot = Slot(enrollment: Option<Enrollment>, hash: Option<Artifact>, file: Option<Artifact>)

  function SlotOf(s: Onboarding, p: NodeId): Slot {
    Slot(if p in s.enrollments then Some(s.enrollments[p]) else None,
         if p in s.hashes then Some(s.hashes[p]) else None,
         if p in s.files then Some(s.files[p]) else None)
  }

  predicate SlotReady(x: Slot, e: Enrollment) {
    && (x.file.Some? ==> x.file.value == Exported(e))
    && if x.enrollment.Some?
       then x == Slot(Some(e), Some(Exported(e)), Some(Exported(e)))
       else x.hash.None?
  }

  /** No other stored enrollment shares a key. */
  ghost predicate Unshared(s: Onboarding, p: NodeId, e: Enrollment) {
    forall q :: q != p && SlotOf(s, q).enrollment.Some? ==> KeysDiffer(SlotOf(s, q).enrollment.value, e)
  }

  predicate FitsTerms(s: Onboarding, p: NodeId, e: Enrollment) {
    && p in s.authorized && p != s.node
    && ParseOk(e) && e.node == p && e.network == s.network
    && (s.local.Some? ==> KeysDiffer(s.local.value, e))
  }

  lemma ImportableBySlots(s: Onboarding, p: NodeId, e: Enrollment)
    ensures Importable(s, p, e) <==> FitsTerms(s, p, e) && Unshared(s, p, e) && SlotReady(SlotOf(s, p), e)
  {
    if Unshared(s, p, e) {
      forall q | q in s.enrollments && q != p ensures KeysDiffer(s.enrollments[q], e) {
        assert SlotOf(s, q).enrollment.Some?;
      }
    }
  }

  /** An attempt touches one peer only. */
  lemma AttemptTouches(t: Onboarding, p: NodeId, e: Enrollment, q: NodeId)
    ensures SlotOf(Imported(t, p, e), q) ==
              if q == p then Slot(Some(e), Some(Exported(e)), Some(Exported(e))) else SlotOf(t, q)
    ensures SlotOf(WithFile(t, p, e), q) == if q == p then SlotOf(t, q).(file := Some(Exported(e))) else SlotOf(t, q)
  {
  }

  /** Where attempts over a plan can lead, peer by peer. */
  predicate SlotReached(plan: Plan, attempts: seq<Attempt>, p: NodeId, before: Slot, after: Slot) {
    if p !in plan then after == before
    else SlotReady(after, plan[p]) && after.enrollment == if Completed(attempts, p) then Some(plan[p]) else before.enrollment
  }

  ghost predicate Reached(s: Onboarding, plan: Plan, attempts: seq<Attempt>, t: Onboarding) {
    SameTerms(s, t) && forall p :: SlotReached(plan, attempts, p, SlotOf(s, p), SlotOf(t, p))
  }

  lemma StaysImportable(s: Onboarding, plan: Plan, attempts: seq<Attempt>, t: Onboarding, p: NodeId)
    requires Compatible(s, plan) && Reached(s, plan, attempts, t) && p in plan
    ensures Importable(t, p, plan[p])
  {
    ImportableBySlots(s, p, plan[p]);
    ImportableBySlots(t, p, plan[p]);
    assert SlotReached(plan, attempts, p, SlotOf(s, p), SlotOf(t, p));
    forall q | q != p && SlotOf(t, q).enrollment.Some? ensures KeysDiffer(SlotOf(t, q).enrollment.value, plan[p]) {
      assert SlotReached(plan, attempts, q, SlotOf(s, q), SlotOf(t, q));
    }
  }

  lemma AttemptReaches(s: Onboarding, plan: Plan, before: seq<Attempt>, t: Onboarding, last: Attempt)
    requires Compatible(s, plan) && Reached(s, plan, before, t) && last.peer in plan
    ensures var e := plan[last.peer];
      Reached(s, plan, before + [last], if last.completed then Imported(t, last.peer, e) else WithFile(t, last.peer, e))
  {
    var e := plan[last.peer];
    var u := if last.completed then Imported(t, last.peer, e) else WithFile(t, last.peer, e);
    forall q ensures SlotReached(plan, before + [last], q, SlotOf(s, q), SlotOf(u, q)) {
      assert SlotReached(plan, before, q, SlotOf(s, q), SlotOf(t, q));
      AttemptTouches(t, last.peer, e, q);
      assert Completed(before + [last], q) <==> Completed(before, q) || last == Attempt(q, true);
    }
  }

  lemma NothingReached(s: Onboarding, plan: Plan)
    requires Compatible(s, plan)
    ensures Reached(s, plan, [], s)
  {
    forall p ensures SlotReached(plan, [], p, SlotOf(s, p), SlotOf(s, p)) {
      if p in plan { ImportableBySlots(s, p, plan[p]); }
    }
  }

  /** Resumable: if the plan fits, then every sequence of attempts over it, in any
      order, repeated and cut short at will, is accepted. */
  lemma {:induction false} AttemptsReach(s: Onboarding, plan: Plan, attempts: seq<Attempt>)
    requires Compatible(s, plan) && forall a :: a in attempts ==> a.peer in plan
    ensures After(s, plan, attempts).Some?
    ensures Reached(s, plan, attempts, After(s, plan, attempts).value)
  {
    if attempts == [] {
      NothingReached(s, plan);
    } else {
      var before, last := attempts[..|attempts| - 1], attempts[|attempts| - 1];
      assert attempts == before + [last];
      AttemptsReach(s, plan, before);
      var t := After(s, plan, before).value;
      StaysImportable(s, plan, before, t, last.peer);
      AttemptReaches(s, plan, before, t, last);
    }
  }

  /** ... and once each peer has a completed attempt, the enrollments are the same. */
  lemma EveryOrderSucceeds(s: Onboarding, plan: Plan, attempts: seq<Attempt>)
    requires Compatible(s, plan) && forall a :: a in attempts ==> a.peer in plan
    requires forall p :: p in plan ==> Completed(attempts, p)
    ensures After(s, plan, attempts).Some?
    ensures SameTerms(s, After(s, plan, attempts).value)
    ensures After(s, plan, attempts).value.enrollments == s.enrollments + plan
  {
    AttemptsReach(s, plan, attempts);
    var t := After(s, plan, attempts).value;
    forall p
      ensures p in t.enrollments <==> p in s.enrollments + plan
      ensures p in t.enrollments ==> t.enrollments[p] == (s.enrollments + plan)[p]
    {
      assert SlotReached(plan, attempts, p, SlotOf(s, p), SlotOf(t, p));
    }
  }

  // ---- What one successful order shows ------------------------------------------------------

  /** One import of each peer, none cut short. */
  function Straight(order: seq<NodeId>): seq<Attempt> {
    seq(|order|, i requires 0 <= i < |order| => Attempt(order[i], true))
  }

  ghost predicate OneOrder(plan: Plan, order: seq<NodeId>) {
    Distinct(order) && forall p :: p in order <==> p in plan
  }

  /** The imported peers have their enrollments, the others are untouched. */
  ghost predicate Progressed(s: Onboarding, plan: Plan, done: seq<NodeId>, t: Onboarding) {
    && SameTerms(s, t)
    && forall q :: if q in done then q in plan && SlotOf(t, q).enrollment == Some(plan[q]) else SlotOf(t, q) == SlotOf(s, q)
  }

  /** The plan fits for some peers. */
  ghost predicate FitsFor(s: Onboarding, plan: Plan, done: seq<NodeId>) {
    && (forall p :: p in done ==> p in plan && Importable(s, p, plan[p]))
    && (forall p, q :: p in done && q in done && p != q ==> KeysDiffer(plan[p], plan[q]))
  }

  lemma NextFits(s: Onboarding, plan: Plan, done: seq<NodeId>, t: Onboarding, p: NodeId)
    requires FitsFor(s, plan, done) && Progressed(s, plan, done, t)
    requires p in plan && p !in done && Importable(t, p, plan[p])
    ensures FitsFor(s, plan, done + [p]) && Progressed(s, plan, done + [p], Imported(t, p, plan[p]))
  {
    var e := plan[p];
    ImportableBySlots(t, p, e);
    ImportableBySlots(s, p, e);
    assert SlotOf(t, p) == SlotOf(s, p);
    forall q | q != p && SlotOf(s, q).enrollment.Some? ensures KeysDiffer(SlotOf(s, q).enrollment.value, e) {
      if q in done {
        ImportableBySlots(s, q, plan[q]);
      }
    }
    forall q | q in done ensures KeysDiffer(plan[q], e) && KeysDiffer(e, plan[q]) {
      assert SlotOf(t, q).enrollment == Some(plan[q]);
    }
    forall q ensures if q in done + [p] then q in plan && SlotOf(Imported(t, p, e), q).enrollment == Some(plan[q])
                     else SlotOf(Imported(t, p, e), q) == SlotOf(s, q)
    {
      AttemptTouches(t, p, e, q);
    }
  }

  lemma {:induction false} OrderShows(s: Onboarding, plan: Plan, order: seq<NodeId>)
    requires Distinct(order) && forall a :: a in Straight(order) ==> a.peer in plan
    requires After(s, plan, Straight(order)).Some?
    ensures FitsFor(s, plan, order) && Progressed(s, plan, order, After(s, plan, Straight(order)).value)
  {
    if order != [] {
      var n := |order| - 1;
      var before, p := order[..n], order[n];
      assert order == before + [p] && p !in before;
      assert Straight(order)[..n] == Straight(before) && Straight(order)[n] == Attempt(p, true);
      OrderShows(s, plan, before);
      NextFits(s, plan, before, After(s, plan, Straight(before)).value, p);
    }
  }

  /** Confluence: if the enrollments can be imported in one order, then in every
      order, crashes and retries included, and always with the same result. */
  lemma ImportIsConfluent(s: Onboarding, plan: Plan, order: seq<NodeId>, attempts: seq<Attempt>)
    requires OneOrder(plan, order) && forall a :: a in Straight(order) ==> a.peer in plan
    requires After(s, plan, Straight(order)).Some?
    requires forall a :: a in attempts ==> a.peer in plan
    requires forall p :: p in plan ==> Completed(attempts, p)
    ensures After(s, plan, attempts).Some?
    ensures var t, u := After(s, plan, attempts).value, After(s, plan, Straight(order)).value;
      && SameTerms(s, t) && t.enrollments == u.enrollments
      && (Enrolled(u) ==> Enrolled(t) && PolicyOf(t) == PolicyOf(u))
  {
    OrderShows(s, plan, order);
    assert Compatible(s, plan);
    EveryOrderSucceeds(s, plan, attempts);
    forall p | p in plan ensures Completed(Straight(order), p) {
      var i :| 0 <= i < |order| && order[i] == p;
      assert Straight(order)[i] == Attempt(p, true);
    }
    EveryOrderSucceeds(s, plan, Straight(order));
    var t, u := After(s, plan, attempts).value, After(s, plan, Straight(order)).value;
    if Enrolled(u) { SameTermsSamePolicy(t, u); }
  }

  lemma SameTermsSamePolicy(t: Onboarding, u: Onboarding)
    requires SameTerms(t, u) && t.enrollments == u.enrollments && Enrolled(u)
    ensures Enrolled(t) && PolicyOf(t) == PolicyOf(u)
  {
  }

  // ---- The membership policy -----------------------------------------------------------------

  /** The part of the manifest's validation that concerns enrollments. */
  ghost predicate ManifestOk(s: Onboarding) {
    && Distinct(s.authorized) && s.node !in s.authorized
    && (forall p :: p in s.enrollments ==>
          && p in s.authorized && ParseOk(s.enrollments[p])
          && s.enrollments[p].node == p && s.enrollments[p].network == s.network)
    && (forall p, q :: p in s.enrollments && q in s.enrollments && p != q ==> KeysDiffer(s.enrollments[p], s.enrollments[q]))
    && (s.local.Some? ==> forall p :: p in s.enrollments ==> KeysDiffer(s.local.value, s.enrollments[p]))
  }

  lemma ImportKeepsManifest(s: Onboarding, p: NodeId, e: Enrollment)
    requires ManifestOk(s) && Importable(s, p, e)
    ensures ManifestOk(Imported(s, p, e))
  {
  }

  /** Fails when a peer has no enrollment yet; the manifest is validated first. */
  method BuildMembershipPolicy(s: Onboarding) returns (r: Result<Membership>)
    requires ManifestOk(s)
    ensures r.Ok? <==> Enrolled(s)
    ensures r.Ok? ==> r.value == PolicyOf(s)
  {
    var peers: seq<Peer> := [];
    for i := 0 to |s.authorized|
      invariant forall p :: p in s.authorized[..i] ==> p in s.enrollments
      invariant peers == PolicyPeers(s.authorized[..i], s.enrollments)
    {
      var p := s.authorized[i];
      assert s.authorized[..i + 1] == s.authorized[..i] + [p];
      if p !in s.enrollments {
        return Err(Transition);
      }
      peers := peers + [PolicyPeer(s.enrollments[p])];
    }
    assert s.authorized[..|s.authorized|] == s.authorized;
    r := Ok(Membership(s.network, peers));
  }

  lemma {:induction false} PolicyKeys(authorized: seq<NodeId>, enrollments: map<NodeId, Enrollment>)
    requires forall p :: p in authorized ==> p in enrollments
    ensures var keys := AllKeys(PolicyPeers(authorized, enrollments));
      && |keys| == |authorized|
      && forall i :: 0 <= i < |keys| ==>
           var e := enrollments[authorized[i]]; keys[i] == MembershipKey(e.id, e.key, e.status, None, None)
  {
    if authorized != [] {
      var n := |authorized| - 1;
      PolicyKeys(authorized[..n], enrollments);
      var peers := PolicyPeers(authorized, enrollments);
      assert peers[..n] == PolicyPeers(authorized[..n], enrollments);
      assert peers[n].keys == [MembershipKey(enrollments[authorized[n]].id, enrollments[authorized[n]].key,
                                             enrollments[authorized[n]].status, None, None)];
    }
  }

  lemma PolicyKeysFine(s: Onboarding)
    requires ManifestOk(s) && Enrolled(s)
    ensures KeysFine(AllKeys(PolicyPeers(s.authorized, s.enrollments)))
  {
    PolicyKeys(s.authorized, s.enrollments);
    var keys := AllKeys(PolicyPeers(s.authorized, s.enrollments));
    forall i, j | 0 <= i < j < |keys| ensures keys[i].id != keys[j].id && keys[i].key != keys[j].key {
      assert KeysDiffer(s.enrollments[s.authorized[i]], s.enrollments[s.authorized[j]]);
    }
  }

  /** The policy that onboarding writes is one the message authenticator loads: it
      names exactly the authorized nodes, and every key is valid and unique. */
  lemma PolicyLoads(s: Onboarding)
    requires ManifestOk(s) && Enrolled(s)
    ensures NodesFine(PolicyOf(s).peers, s.authorized) && KeysFine(AllKeys(PolicyOf(s).peers))
  {
    PolicyKeysFine(s);
    assert NodesOf(PolicyOf(s).peers) == s.authorized;
  }
}
