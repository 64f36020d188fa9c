/** The view of a conversation between two nodes, and the number a follow-up gets. */
module Conversations {
  import opened Envelopes
  import opened Ordering
  import opened Tables
  import opened OutboxTable
  import opened InboxTable
  import opened Operations

  /** Unnumbered messages sort behind all numbered ones. */
  const MAX_SAFE_INTEGER := 9_007_199_254_740_991
  const WINDOW := 100

  datatype Item = Item(envelope: Envelope, outbound: bool)

  type Route = (NodeId, NodeId)

  predicate OnRoute(e: Envelope, r: Route) {
    || (e.origin == r.0 && e.target == r.1)
    || (e.origin == r.1 && e.target == r.0)
  }

  /** The rows a query for a conversation returns, in no particular order. */
  function ConversationRows(d: Database, c: Id): set<Item> {
    (set id | id in d.outbox && d.outbox[id].envelope.conversation == c :: Item(d.outbox[id].envelope, true))
    + (set id | id in d.inbox && d.inbox[id].envelope.conversation == c && d.inbox[id].authenticated
         :: Item(d.inbox[id].envelope, false))
  }

  ghost predicate Lists(rows: seq<Item>, s: set<Item>) {
    Distinct(rows) && forall x :: x in rows <==> x in s
  }

  // ---- The order --------------------------------------------------------------------

  function Number(x: Item): int {
    if x.envelope.sequence.Some? then x.envelope.sequence.value else MAX_SAFE_INTEGER
  }

  /** By number, then time, then id; a sent message before a received one. */
  predicate Before(a: Item, b: Item) {
    if Number(a) != Number(b) then Number(a) < Number(b)
    else if a.envelope.createdAt != b.envelope.createdAt then a.envelope.createdAt < b.envelope.createdAt
    else if a.envelope.id != b.envelope.id then StrLess(a.envelope.id, b.envelope.id)
    else a.outbound && !b.outbound
  }

  /** No two rows share id and direction: each comes from a table keyed by id. */
  ghost predicate Keyed(s: set<Item>) {
    forall a, b :: a in s && b in s && a.envelope.id == b.envelope.id && a.outbound == b.outbound ==> a == b
  }

  lemma RowsAreKeyed(d: Database, c: Id)
    requires DatabaseOk(d)
    ensures Keyed(ConversationRows(d, c))
  {
  }

  lemma BeforeTotal(a: Item, b: Item)
    ensures !(Before(a, b) && Before(b, a)) && !Before(a, a)
    ensures a.envelope.id != b.envelope.id || a.outbound != b.outbound ==> Before(a, b) || Before(b, a)
  {
    StrTotal(a.envelope.id, b.envelope.id);
    StrTotal(a.envelope.id, a.envelope.id);
  }

  lemma BeforeTransitive(a: Item, b: Item, c: Item)
    requires Before(a, b) && Before(b, c)
    ensures Before(a, c)
  {
    StrTotal(a.envelope.id, b.envelope.id);
    if StrLess(a.envelope.id, b.envelope.id) && StrLess(b.envelope.id, c.envelope.id) {
      StrTransitive(a.envelope.id, b.envelope.id, c.envelope.id);
      StrTotal(a.envelope.id, c.envelope.id);
    }
  }

  ghost predicate InOrder(s: seq<Item>) {
    forall i, j :: 0 <= i < j < |s| ==> Before(s[i], s[j])
  }

  function Insert(s: seq<Item>, x: Item): seq<Item> {
    if s == [] then [x] else if Before(s[0], x) then [s[0]] + Insert(s[1..], x) else [x] + s
  }

  function Sort(s: seq<Item>): seq<Item> {
    if s == [] then [] else Insert(Sort(s[1..]), s[0])
  }

  function Filter(s: seq<Item>, r: Route): (f: seq<Item>)
    ensures forall x :: x in f <==> x in s && OnRoute(x.envelope, r)
  {
    if s == [] then []
    else
      assert s == [s[0]] + s[1..];
      (if OnRoute(s[0].envelope, r) then [s[0]] else []) + Filter(s[1..], r)
  }

  function Newest(s: seq<Item>, n: nat): seq<Item> {
    if |s| <= n then s else s[|s| - n..]
  }

  /** Sort all rows of the conversation, keep those on the route, take the last. */
  function ListConversation(rows: seq<Item>, r: Route, limit: nat): seq<Item> {
    Newest(Filter(Sort(rows), r), limit)
  }

  lemma {:induction false} InsertHolds(s: seq<Item>, x: Item)
    ensures forall y :: y in Insert(s, x) <==> y in s || y == x
  {
    if s != [] {
      InsertHolds(s[1..], x);
      assert s == [s[0]] + s[1..];
    }
  }

  lemma {:induction false} InsertOrders(s: seq<Item>, x: Item)
    requires InOrder(s) && forall y :: y in s ==> y.envelope.id != x.envelope.id || y.outbound != x.outbound
    ensures InOrder(Insert(s, x))
  {
    if s != [] {
      BeforeTotal(s[0], x);
      InsertOrders(s[1..], x);
      InsertHolds(s[1..], x);
      if Before(s[0], x) {
        Prepend(s[0], Insert(s[1..], x));
      } else {
        forall y | y in s ensures Before(x, y) {
          if y != s[0] { BeforeTransitive(x, s[0], y); }
        }
        Prepend(x, s);
      }
    }
  }

  lemma Prepend(x: Item, s: seq<Item>)
    requires InOrder(s) && forall y :: y in s ==> Before(x, y)
    ensures InOrder([x] + s)
  {
  }

  lemma {:induction false} SortOrders(s: seq<Item>, all: set<Item>)
    requires Distinct(s) && Keyed(all) && forall x :: x in s ==> x in all
    ensures InOrder(Sort(s)) && forall x :: x in Sort(s) <==> x in s
  {
    if s != [] {
      SortOrders(s[1..], all);
      assert s == [s[0]] + s[1..];
      InsertHolds(Sort(s[1..]), s[0]);
      assert s[0] !in s[1..];
      InsertOrders(Sort(s[1..]), s[0]);
    }
  }

  lemma {:induction false} FilterOrders(s: seq<Item>, r: Route)
    requires InOrder(s)
    ensures InOrder(Filter(s, r))
  {
    if s != [] {
      FilterOrders(s[1..], r);
      if OnRoute(s[0].envelope, r) {
        Prepend(s[0], Filter(s[1..], r));
      }
    }
  }

  /** An ordered list is determined by its elements. */
  lemma {:induction false} OrderedListsAgree(s: seq<Item>, t: seq<Item>)
    requires InOrder(s) && InOrder(t) && forall x :: x in s <==> x in t
    ensures s == t
  {
    assert t != [] ==> t[0] in t;
    if s != [] {
      assert s[0] in t && t[0] in s;
      BeforeTotal(s[0], t[0]);
      forall x ensures x in s[1..] <==> x in t[1..] {
        if x in s[1..] { BeforeTotal(s[0], x); assert x in t; }
        if x in t[1..] { BeforeTotal(t[0], x); assert x in s; }
      }
      OrderedListsAgree(s[1..], t[1..]);
    }
  }

  // ---- Isolation ----------------------------------------------------------------------

  /** What belongs to the route: sent messages, and received ones whose sender was
      authenticated. */
  ghost function RouteItems(d: Database, c: Id, r: Route): set<Item> {
    set x | x in ConversationRows(d, c) && OnRoute(x.envelope, r)
  }

  lemma ViewIsOrdered(rows: seq<Item>, s: set<Item>, r: Route)
    requires Lists(rows, s) && Keyed(s)
    ensures var t := Filter(Sort(rows), r);
      InOrder(t) && forall x :: x in t <==> x in s && OnRoute(x.envelope, r)
  {
    SortOrders(rows, s);
    FilterOrders(Sort(rows), r);
  }

  lemma SameItemsSameView(d: Database, d': Database, c: Id, r: Route, rows: seq<Item>, rows': seq<Item>, limit: nat)
    requires Lists(rows, ConversationRows(d, c)) && Keyed(ConversationRows(d, c))
    requires Lists(rows', ConversationRows(d', c)) && Keyed(ConversationRows(d', c))
    requires RouteItems(d, c, r) == RouteItems(d', c, r)
    ensures ListConversation(rows, r, limit) == ListConversation(rows', r, limit)
  {
    ViewIsOrdered(rows, ConversationRows(d, c), r);
    ViewIsOrdered(rows', ConversationRows(d', c), r);
    forall x ensures x in Filter(Sort(rows), r) <==> x in Filter(Sort(rows'), r) {
      assert x in RouteItems(d, c, r) <==> x in RouteItems(d', c, r);
    }
    OrderedListsAgree(Filter(Sort(rows), r), Filter(Sort(rows'), r));
  }

  /** Isolation: the view depends on the route's own items only. Any two runs that
      agree on them show the same thread, in whatever order the rows are read and
      whatever else the databases hold: other conversations, other routes, received
      messages that were never authenticated. */
  lemma ThreadsAreIsolated(ops: seq<Op>, ops': seq<Op>, c: Id, r: Route, rows: seq<Item>, rows': seq<Item>, limit: nat)
    requires Lists(rows, ConversationRows(Run(EmptyDatabase(), ops), c))
    requires Lists(rows', ConversationRows(Run(EmptyDatabase(), ops'), c))
    requires RouteItems(Run(EmptyDatabase(), ops), c, r) == RouteItems(Run(EmptyDatabase(), ops'), c, r)
    ensures ListConversation(rows, r, limit) == ListConversation(rows', r, limit)
  {
    hide Step;
    var d, d' := Run(EmptyDatabase(), ops), Run(EmptyDatabase(), ops');
    EveryRunIsOk(ops);
    EveryRunIsOk(ops');
    RowsAreKeyed(d, c);
    RowsAreKeyed(d', c);
    SameItemsSameView(d, d', c, r, rows, rows', limit);
  }

  lemma RowOfItem(d: Database, c: Id, x: Item)
    requires DatabaseOk(d) && x in ConversationRows(d, c)
    ensures var id := x.envelope.id;
      if x.outbound then id in d.outbox && d.outbox[id].envelope == x.envelope
      else id in d.inbox && d.inbox[id].envelope == x.envelope && d.inbox[id].authenticated
  {
  }

  /** Rows whose addition cannot be seen on a route. */
  predicate Elsewhere(e: Envelope, c: Id, r: Route) {
    e.conversation != c || !OnRoute(e, r)
  }

  /** An operation that adds nothing to see on a route: it sends and receives elsewhere,
      or receives without authentication. */
  predicate Unseen(op: Op, c: Id, r: Route) {
    && (NewMessage(op).Some? ==> Elsewhere(NewMessage(op).value, c, r))
    && (op.Persist? ==> Elsewhere(op.e, c, r) || !op.authenticated)
  }

  lemma ItemsStay(d: Database, d': Database, c: Id, r: Route)
    requires Evolves(d.outbox, d'.outbox) && Retains(d.inbox, d'.inbox)
    ensures RouteItems(d, c, r) <= RouteItems(d', c, r)
  {
    forall x | x in RouteItems(d, c, r) ensures x in RouteItems(d', c, r) {
      if x.outbound {
        var id :| id in d.outbox && d.outbox[id].envelope.conversation == c && Item(d.outbox[id].envelope, true) == x;
        assert d'.outbox[id].envelope == d.outbox[id].envelope;
      } else {
        var id :| id in d.inbox && d.inbox[id].envelope.conversation == c && d.inbox[id].authenticated
                  && Item(d.inbox[id].envelope, false) == x;
        assert d'.inbox[id].envelope == d.inbox[id].envelope && d'.inbox[id].authenticated;
      }
    }
  }

  lemma UnseenSending(d: Database, d': Database, op: Op, c: Id, r: Route, x: Item)
    requires d' == Step(d, op) && DatabaseOk(d') && Evolves(d.outbox, d'.outbox) && Unseen(op, c, r)
    requires x in RouteItems(d', c, r) && x.outbound
    ensures x in RouteItems(d, c, r)
  {
    hide Step;
    var id := x.envelope.id;
    RowOfItem(d', c, x);
    if id !in d.outbox { NewRowIsNewMessage(d, op, id); }
    assert id in d.outbox && d.outbox[id].envelope == d'.outbox[id].envelope;
  }

  lemma UnseenReceiving(d: Database, d': Database, op: Op, c: Id, r: Route, x: Item)
    requires d' == Step(d, op) && DatabaseOk(d') && InboxOk(d.inbox) && Retains(d.inbox, d'.inbox) && Unseen(op, c, r)
    requires x in RouteItems(d', c, r) && !x.outbound
    ensures x in RouteItems(d, c, r)
  {
    hide Step;
    var id := x.envelope.id;
    RowOfItem(d', c, x);
    AuthenticatedFootprint(d, op, id);
    assert id in d.inbox && d.inbox[id].envelope == d'.inbox[id].envelope;
  }

  lemma UnseenOperation(d: Database, d': Database, op: Op, c: Id, r: Route)
    requires DatabaseOk(d) && d' == Step(d, op) && Unseen(op, c, r)
    ensures RouteItems(d', c, r) == RouteItems(d, c, r)
  {
    hide Step;
    StepKeeps(d, op);
    ItemsStay(d, d', c, r);
    forall x | x in RouteItems(d', c, r) ensures x in RouteItems(d, c, r) {
      if x.outbound {
        UnseenSending(d, d', op, c, r, x);
      } else {
        UnseenReceiving(d, d', op, c, r, x);
      }
    }
  }

  /** Non-interference, over every run: whatever is sent and received elsewhere, and
      whatever else is done with the tables, a thread shows what it showed. */
  lemma {:induction false} UnseenRun(d: Database, ops: seq<Op>, c: Id, r: Route)
    requires DatabaseOk(d) && forall k :: 0 <= k < |ops| ==> Unseen(ops[k], c, r)
    ensures RouteItems(Run(d, ops), c, r) == RouteItems(d, c, r)
  {
    hide Step;
    if ops != [] {
      var before := ops[..|ops| - 1];
      UnseenRun(d, before, c, r);
      RunKeeps(d, before);
      UnseenOperation(Run(d, before), Run(d, ops), ops[|ops| - 1], c, r);
    }
  }

  lemma OtherThreadsAreInvisible(ops: seq<Op>, more: seq<Op>, c: Id, r: Route, rows: seq<Item>, rows': seq<Item>,
                                 limit: nat)
    requires Lists(rows, ConversationRows(Run(EmptyDatabase(), ops), c))
    requires Lists(rows', ConversationRows(Run(Run(EmptyDatabase(), ops), more), c))
    requires forall k :: 0 <= k < |more| ==> Unseen(more[k], c, r)
    ensures ListConversation(rows, r, limit) == ListConversation(rows', r, limit)
  {
    hide Step;
    var d := Run(EmptyDatabase(), ops);
    EveryRunIsOk(ops);
    RunKeeps(d, more);
    UnseenRun(d, more, c, r);
    RowsAreKeyed(d, c);
    RowsAreKeyed(Run(d, more), c);
    SameItemsSameView(d, Run(d, more), c, r, rows, rows', limit);
  }

  // ---- What a view shows ---------------------------------------------------------------

  /** The messages of a conversation on a route: those sent, and those received from a sender
      that was authenticated. */
  predicate Belongs(d: Database, c: Id, r: Route, x: Item) {
    && x.envelope.conversation == c
    && ((x.envelope.origin == r.0 && x.envelope.target == r.1) || (x.envelope.origin == r.1 && x.envelope.target == r.0))
    && if x.outbound then exists id :: id in d.outbox && d.outbox[id].envelope == x.envelope
       else exists id :: id in d.inbox && d.inbox[id].envelope == x.envelope && d.inbox[id].authenticated
  }

  /** Numbered messages stand in the order of their numbers, before unnumbered ones; equal
      places are told apart by time and id, and a sent message stands before a received one. */
  ghost predicate Precedes(a: Item, b: Item) {
    var m, n := a.envelope.sequence, b.envelope.sequence;
    if m.Some? && n.Some? && m != n then m.value < n.value
    else if m.Some? && n.None? then true
    else if m.None? && n.Some? then false
    else if a.envelope.createdAt != b.envelope.createdAt then a.envelope.createdAt < b.envelope.createdAt
    else if a.envelope.id != b.envelope.id then InDictionaryOrder(a.envelope.id, b.envelope.id)
    else a.outbound && !b.outbound
  }

  predicate SafeNumber(x: Item) {
    x.envelope.sequence.Some? ==> x.envelope.sequence.value < MAX_SAFE_INTEGER
  }

  lemma BeforeMeans(a: Item, b: Item)
    requires SafeNumber(a) && SafeNumber(b)
    ensures Before(a, b) <==> Precedes(a, b)
  {
    StrLessIsDictionaryOrder(a.envelope.id, b.envelope.id);
  }

  lemma RouteItemsMean(d: Database, c: Id, r: Route, x: Item)
    ensures x in RouteItems(d, c, r) <==> Belongs(d, c, r, x)
  {
    if Belongs(d, c, r, x) {
      if x.outbound {
        var id :| id in d.outbox && d.outbox[id].envelope == x.envelope;
        assert x == Item(d.outbox[id].envelope, true);
      } else {
        var id :| id in d.inbox && d.inbox[id].envelope == x.envelope && d.inbox[id].authenticated;
        assert x == Item(d.inbox[id].envelope, false);
      }
    }
  }

  /** The end of an ordered thread, and what stands before it. */
  lemma NewestInOrder(thread: seq<Item>, limit: nat)
    requires InOrder(thread) && forall x :: x in thread ==> SafeNumber(x)
    ensures var view := Newest(thread, limit);
      && |view| <= limit && (forall x :: x in view ==> x in thread)
      && (forall j, k :: 0 <= j < k < |view| ==> Precedes(view[j], view[k]))
      && (forall x :: x in thread && x !in view ==> |view| == limit && forall y :: y in view ==> Precedes(x, y))
  {
    hide Precedes, Before, SafeNumber;
    var view := Newest(thread, limit);
    var n := |thread| - |view|;
    assert forall k :: 0 <= k < |view| ==> view[k] == thread[n + k];
    forall k | n <= k < |thread| ensures thread[k] in view {
      assert view[k - n] == thread[k];
    }
    forall i, k | 0 <= i < k < |thread| ensures Precedes(thread[i], thread[k]) {
      BeforeMeans(thread[i], thread[k]);
    }
  }

  /** A view holds messages of the route only, in order, and up to the limit; what it leaves
      out stands before all it shows. */
  lemma ViewIsNewest(d: Database, c: Id, r: Route, rows: seq<Item>, limit: nat)
    requires DatabaseOk(d) && Lists(rows, ConversationRows(d, c))
    requires forall x :: x in rows ==> SafeNumber(x)
    ensures var view := ListConversation(rows, r, limit);
      && |view| <= limit && (forall x :: x in view ==> Belongs(d, c, r, x))
      && (forall j, k :: 0 <= j < k < |view| ==> Precedes(view[j], view[k]))
      && (forall x :: Belongs(d, c, r, x) && x !in view ==>
            |view| == limit && forall y :: y in view ==> Precedes(x, y))
  {
    hide DatabaseOk, Belongs, Precedes, InOrder, SafeNumber, Newest;
    RowsAreKeyed(d, c);
    ViewIsOrdered(rows, ConversationRows(d, c), r);
    forall x ensures x in Filter(Sort(rows), r) <==> Belongs(d, c, r, x) {
      RouteItemsMean(d, c, r, x);
    }
    NewestInOrder(Filter(Sort(rows), r), limit);
  }

  // ---- The number of a follow-up ---------------------------------------------------------

  predicate Numbered(x: Item) { x.envelope.sequence.Some? }

  ghost predicate IsNextSequence(view: seq<Item>, n: nat) {
    && (forall x :: x in view && Numbered(x) ==> x.envelope.sequence.value < n)
    && (n > 0 ==> exists x :: x in view && Numbered(x) && x.envelope.sequence.value == n - 1)
  }

  /** One more than the highest number in view, or zero. */
  method NextSequence(view: seq<Item>) returns (n: nat)
    ensures IsNextSequence(view, n)
  {
    n := 0;
    for k := 0 to |view|
      invariant forall x :: x in view[..k] && Numbered(x) ==> x.envelope.sequence.value < n
      invariant n > 0 ==> exists x :: x in view && Numbered(x) && x.envelope.sequence.value == n - 1
    {
      var x := view[k];
      assert view[..k + 1] == view[..k] + [x] && x in view;
      if Numbered(x) && x.envelope.sequence.value >= n {
        n := x.envelope.sequence.value + 1;
      }
    }
    assert view[..|view|] == view;
  }

  /** Greater than every number on the route, in view or not. */
  ghost predicate Fresh(thread: seq<Item>, n: nat) {
    forall x :: x in thread && Numbered(x) ==> x.envelope.sequence.value < n
  }

  /** How many unnumbered messages stand at the end of a thread. */
  function Trailing(thread: seq<Item>): (n: nat)
    ensures n <= |thread|
    ensures forall i :: |thread| - n <= i < |thread| ==> !Numbered(thread[i])
    ensures n < |thread| ==> Numbered(thread[|thread| - n - 1])
  {
    if thread == [] || Numbered(thread[|thread| - 1]) then 0 else 1 + Trailing(thread[..|thread| - 1])
  }

  /** The follow-up's number is fresh exactly when the thread has no numbered
      message, or its last numbered one is still within the window. */
  lemma FollowUpIsFreshIff(thread: seq<Item>, n: nat)
    requires InOrder(thread) && IsNextSequence(Newest(thread, WINDOW), n)
    ensures Fresh(thread, n) <==> (forall x :: x in thread ==> !Numbered(x)) || Trailing(thread) < WINDOW
  {
    var view, u := Newest(thread, WINDOW), Trailing(thread);
    if u < |thread| {
      var p := |thread| - u - 1;
      var last := thread[p];
      HighestIsLast(thread, p);
      if u < WINDOW {
        assert last in view by {
          assert view[if |thread| <= WINDOW then p else p - (|thread| - WINDOW)] == last;
        }
      } else {
        forall x | x in view ensures !Numbered(x) {
          var i :| 0 <= i < |view| && view[i] == x;
          assert x == thread[|thread| - WINDOW + i];
        }
        assert n == 0 && last in thread;
      }
    }
  }

  lemma HighestIsLast(thread: seq<Item>, p: nat)
    requires InOrder(thread) && p < |thread| && Numbered(thread[p])
    requires forall i :: p < i < |thread| ==> !Numbered(thread[i])
    ensures forall x :: x in thread && Numbered(x) ==> x.envelope.sequence.value <= thread[p].envelope.sequence.value
  {
    forall x | x in thread && Numbered(x) ensures x.envelope.sequence.value <= thread[p].envelope.sequence.value {
      var i :| 0 <= i < |thread| && thread[i] == x;
      if i != p {
        assert Before(thread[i], thread[p]);
      }
    }
  }

  /** In particular: where every message on the route is numbered, a follow-up's
      number exceeds them all, even those beyond the window. */
  lemma NumberedThreadsGrow(thread: seq<Item>, n: nat)
    requires InOrder(thread) && IsNextSequence(Newest(thread, WINDOW), n)
    requires forall x :: x in thread ==> Numbered(x)
    ensures Fresh(thread, n)
  {
    FollowUpIsFreshIff(thread, n);
    assert thread != [] ==> thread[|thread| - 1] in thread;
  }

  // ---- Continuing a conversation ---------------------------------------------------------

  /** The project of the local request that this result completes, if the result may be
      continued at all. */
  function ContinuedProject(d: Database, self: NodeId, authorized: set<NodeId>, id: Id): Option<string> {
    if id !in d.inbox || d.inbox[id].envelope.payload.result.None? then None
    else
      var row, e := d.inbox[id], d.inbox[id].envelope;
      var request := e.payload.result.value.requestId;
      if !(row.state.Available? || row.state.Processed?) || !row.authenticated || !e.kind.TaskResult?
         || e.origin !in authorized || !e.payload.result.value.outcome.Completed? || request !in d.outbox then None
      else
        var prior := d.outbox[request].envelope;
        if prior.kind.TaskRequest? && prior.payload.request.Some? && prior.origin == self && prior.target == e.origin
           && prior.conversation == e.conversation && prior.payload.project != Some("")
        then prior.payload.project else None
  }

  /** A request or result in view names another project. */
  predicate MixesProjects(view: seq<Item>, project: string) {
    exists x :: x in view && (x.envelope.payload.request.Some? || x.envelope.payload.result.Some?)
                && x.envelope.payload.project.Some? && x.envelope.payload.project.value !in {"", project}
  }

  predicate IsLatest(view: seq<Item>, id: Id) {
    view != [] && view[|view| - 1].envelope.id == id
  }

  /** Whether a follow-up may be sent, and under which number. `rows` are the
      conversation's rows. A follow-up that was already made under the same key keeps its
      number. */
  method NumberFollowUp(d: Database, self: NodeId, authorized: set<NodeId>, id: Id, key: string, rows: seq<Item>)
    returns (r: Result<nat>)
    requires DatabaseOk(d)
    requires id in d.inbox ==> Lists(rows, ConversationRows(d, d.inbox[id].envelope.conversation))
    ensures r.Err? ==> r.failure == Transition
    ensures r.Ok? <==>
      && ContinuedProject(d, self, authorized, id).Some?
      && var peer := d.inbox[id].envelope.origin;
         var view := ListConversation(rows, (self, peer), WINDOW);
         && (Promise(d.outbox, (peer, key)).Some? || IsLatest(view, id))
         && !MixesProjects(view, ContinuedProject(d, self, authorized, id).value)
    ensures r.Ok? ==>
      var peer := d.inbox[id].envelope.origin;
      var made := Promise(d.outbox, (peer, key));
      if made.Some? && made.value.sequence.Some? then r.value == made.value.sequence.value
      else IsNextSequence(ListConversation(rows, (self, peer), WINDOW), r.value)
  {
    var project := ContinuedProject(d, self, authorized, id);
    if project.None? {
      return Err(Transition);
    }
    var peer := d.inbox[id].envelope.origin;
    var view := ListConversation(rows, (self, peer), WINDOW);
    var made := Made(d, peer, key);
    if made.None? && !IsLatest(view, id) {
      return Err(Transition);
    }
    if MixesProjects(view, project.value) {
      return Err(Transition);
    }
    if made.Some? && made.value.sequence.Some? {
      return Ok(made.value.sequence.value);
    }
    var n := NextSequence(view);
    r := Ok(n);
  }

  method Made(d: Database, peer: NodeId, key: string) returns (made: Option<Envelope>)
    requires DatabaseOk(d)
    ensures made == Promise(d.outbox, (peer, key))
  {
    if x :| x in d.outbox && InSlot(d.outbox, x, peer, key) {
      PromiseAt(d.outbox, x);
      made := Some(d.outbox[x].envelope);
    } else {
      made := None;
    }
  }

  lemma NewestIsLatest(thread: seq<Item>, limit: nat)
    requires limit > 0 && thread != []
    ensures Newest(thread, limit) != []
    ensures Newest(thread, limit)[|Newest(thread, limit)| - 1] == thread[|thread| - 1]
  {
  }

  /** After a numbered turn the next number exceeds every number of the thread. */
  lemma NumberedTurnIsExceeded(thread: seq<Item>, n: nat)
    requires InOrder(thread) && thread != [] && IsNextSequence(Newest(thread, WINDOW), n)
    requires Numbered(thread[|thread| - 1])
    ensures Fresh(thread, n) && n > 0
  {
    FollowUpIsFreshIff(thread, n);
    NewestIsLatest(thread, WINDOW);
    var view := Newest(thread, WINDOW);
    assert view[|view| - 1] in view;
  }

  lemma LatestIsResult(d: Database, id: Id, r: Route, rows: seq<Item>)
    requires DatabaseOk(d) && id in d.inbox && id !in d.outbox
    requires Lists(rows, ConversationRows(d, d.inbox[id].envelope.conversation))
    requires IsLatest(ListConversation(rows, r, WINDOW), id)
    ensures var thread := Filter(Sort(rows), r);
      InOrder(thread) && thread != [] && thread[|thread| - 1].envelope == d.inbox[id].envelope
  {
    var c := d.inbox[id].envelope.conversation;
    RowsAreKeyed(d, c);
    ViewIsOrdered(rows, ConversationRows(d, c), r);
    var thread := Filter(Sort(rows), r);
    NewestIsLatest(thread, WINDOW);
    assert thread[|thread| - 1] in thread;
    RowOfItem(d, c, thread[|thread| - 1]);
  }

  /** On runs: continuing a numbered result that is the latest turn gives the follow-up a
      number above all of the thread, in view or not. (Received ids are never own ids:
      `Delivering.ReceivedIsNotSent`.) */
  lemma FollowUpExtendsThread(ops: seq<Op>, id: Id, r: Route, rows: seq<Item>, n: nat)
    requires var d := Run(EmptyDatabase(), ops);
      && id in d.inbox && id !in d.outbox && d.inbox[id].envelope.sequence.Some?
      && Lists(rows, ConversationRows(d, d.inbox[id].envelope.conversation))
    requires IsLatest(ListConversation(rows, r, WINDOW), id) && IsNextSequence(ListConversation(rows, r, WINDOW), n)
    ensures Fresh(Filter(Sort(rows), r), n)
  {
    hide Step;
    EveryRunIsOk(ops);
    LatestIsResult(Run(EmptyDatabase(), ops), id, r, rows);
    NumberedTurnIsExceeded(Filter(Sort(rows), r), n);
  }
}
