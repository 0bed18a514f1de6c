/**
 The outbox relay as run by several replicas against one table and one stream. The subscription, auth and
 monitoring relays are the same loop; they differ in the producer that names their message ids.

 A pass holds the row locks of one transaction from its fetch to its commit or abort; publishes go out in between
 and are not undone by an abort.
 */
module OutboxRelay {
  import opened MessageIds
  import opened Broker

  const BatchSize := 100

  /** One replica inside a transaction: what it fetched, how far it got, what was acknowledged and what accepted. */
  datatype Pass = Pass(ids: seq<nat>, next: nat, acked: seq<nat>, accepted: set<nat>)

  /** `rows` maps an outbox id to whether it is marked published. */
  datatype Relay = Relay(
    rows: map<nat, bool>,
    passes: map<nat, Pass>,
    attempts: seq<Attempt>,     // accepted publishes in this stream, of every producer
    now: nat,
    wasted: multiset<nat>)      // row ids, once per ended pass that got them accepted without marking them

  /** A publish can be refused, acknowledged, or accepted with the acknowledgement lost. */
  datatype Outcome = Acked | AckLost | Refused

  datatype Event =
    | Insert(id: nat)
    | Tick(to: nat)
    | PublishElsewhere(producer: Producer, number: int)
    | Fetch(worker: nat, ids: seq<nat>)
    | Publish(worker: nat, outcome: Outcome)
    | Commit(worker: nat)
    | Abort(worker: nat)

  const Init := Relay(map[], map[], [], 0, multiset{})

  predicate Held(passes: map<nat, Pass>, id: nat) {
    exists w :: w in passes && id in passes[w].ids
  }

  /** Pending and not locked: what FOR UPDATE SKIP LOCKED may return. */
  predicate Available(s: Relay, id: nat) {
    id in s.rows && !s.rows[id] && !Held(s.passes, id)
  }

  predicate Ascending(ids: seq<nat>) {
    forall i, j :: 0 <= i < j < |ids| ==> ids[i] < ids[j]
  }

  /** ORDER BY id LIMIT n over the available rows. */
  predicate FirstAvailable(s: Relay, limit: nat, ids: seq<nat>) {
    && Ascending(ids) && |ids| <= limit
    && (forall id :: id in ids ==> Available(s, id))
    && (forall id :: id in s.rows && Available(s, id) && id !in ids ==>
          |ids| == limit && forall x :: x in ids ==> x < id)
  }

  function ToSet(ids: seq<nat>): set<nat> {
    set id | id in ids
  }

  predicate Enabled(p: Producer, s: Relay, e: Event) {
    match e
    case Insert(id) => id !in s.rows
    case Tick(to) => s.now <= to
    case PublishElsewhere(q, _) => q != p && StreamOf(q) == StreamOf(p)
    case Fetch(w, ids) => w !in s.passes && ids != [] && FirstAvailable(s, BatchSize, ids)
    case Publish(w, _) => w in s.passes && s.passes[w].next < |s.passes[w].ids|
    case Commit(w) => w in s.passes && s.passes[w].next == |s.passes[w].ids| && s.passes[w].acked != []
    case Abort(w) => w in s.passes
  }

  function Progress(c: Pass, outcome: Outcome): Pass
    requires c.next < |c.ids|
  {
    var id := c.ids[c.next];
    c.(next := c.next + 1,
       acked := if outcome == Acked then c.acked + [id] else c.acked,
       accepted := if outcome == Refused then c.accepted else c.accepted + {id})
  }

  function MarkPublished(rows: map<nat, bool>, ids: set<nat>): map<nat, bool> {
    map id | id in rows :: id in ids || rows[id]
  }

  /** A transaction ends having marked `marked`: its locks are released, and what else it got accepted is wasted. */
  function EndPass(s: Relay, w: nat, marked: set<nat>): Relay
    requires w in s.passes
  {
    s.(rows := MarkPublished(s.rows, marked),
       passes := s.passes - {w},
       wasted := s.wasted + multiset(s.passes[w].accepted - marked))
  }

  function Effect(p: Producer, s: Relay, e: Event): Relay
    requires Enabled(p, s, e)
  {
    match e
    case Insert(id) => s.(rows := s.rows[id := false])
    case Tick(to) => s.(now := to)
    case PublishElsewhere(q, n) => s.(attempts := s.attempts + [Attempt(q, n, s.now)])
    case Fetch(w, ids) => s.(passes := s.passes[w := Pass(ids, 0, [], {})])
    case Publish(w, outcome) =>
      var c := s.passes[w];
      s.(passes := s.passes[w := Progress(c, outcome)],
         attempts := if outcome == Refused then s.attempts else s.attempts + [Attempt(p, c.ids[c.next], s.now)])
    case Commit(w) => EndPass(s, w, ToSet(s.passes[w].acked))
    case Abort(w) => EndPass(s, w, {})
  }

  function Next(p: Producer, s: Relay, e: Event): Relay {
    if Enabled(p, s, e) then Effect(p, s, e) else s
  }

  function Run(p: Producer, s: Relay, es: seq<Event>): Relay
    decreases |es|
  {
    if es == [] then s else Run(p, Next(p, s, es[0]), es[1..])
  }

  // -- The invariant

  predicate InFlight(passes: map<nat, Pass>, id: nat) {
    exists w :: w in passes && id in passes[w].accepted
  }

  ghost predicate PassOk(c: Pass, rows: map<nat, bool>) {
    && Ascending(c.ids) && c.next <= |c.ids| && Ascending(c.acked)
    && (forall id :: id in c.ids ==> id in rows && !rows[id])
    && (forall id :: id in c.acked ==> id in c.accepted)
    && (forall id :: id in c.accepted ==> id in c.ids && (c.next < |c.ids| ==> id < c.ids[c.next]))
  }

  ghost predicate PassesOk(passes: map<nat, Pass>, rows: map<nat, bool>) {
    forall w :: w in passes ==> PassOk(passes[w], rows)
  }

  /** No two replicas hold the same row. */
  ghost predicate Exclusive(passes: map<nat, Pass>) {
    forall w, v, id :: w in passes && v in passes && w != v && id in passes[w].ids ==> id !in passes[v].ids
  }

  function One(b: bool): nat {
    if b then 1 else 0
  }

  /** Every accepted publish of a row is accounted for: its mark, a pass that ended without one, or a running pass. */
  ghost predicate Accounted(p: Producer, s: Relay) {
    forall id: nat :: Count(s.attempts, p, id) ==
      One(id in s.rows && s.rows[id]) + s.wasted[id] + One(InFlight(s.passes, id))
  }

  ghost predicate OrderOk(p: Producer, s: Relay) {
    && OneStream(s.attempts, p)
    && (forall a :: a in s.attempts ==> a.at <= s.now)
  }

  ghost predicate Inv(p: Producer, s: Relay) {
    && PassesOk(s.passes, s.rows)
    && Exclusive(s.passes)
    && Accounted(p, s)
    && OrderOk(p, s)
  }

  lemma InitInv(p: Producer)
    ensures Inv(p, Init)
  {
  }

  lemma AttemptKeepsOrder(p: Producer, s: Relay, a: Attempt)
    requires OrderOk(p, s) && StreamOf(a.producer) == StreamOf(p) && a.at == s.now
    ensures OrderOk(p, s.(attempts := s.attempts + [a]))
  {
  }

  lemma InsertKeeps(p: Producer, s: Relay, id: nat)
    requires Inv(p, s) && id !in s.rows
    ensures Inv(p, s.(rows := s.rows[id := false]))
  {
  }

  lemma ElsewhereKeeps(p: Producer, s: Relay, q: Producer, n: int)
    requires Inv(p, s) && q != p && StreamOf(q) == StreamOf(p)
    ensures Inv(p, s.(attempts := s.attempts + [Attempt(q, n, s.now)]))
  {
    var a := Attempt(q, n, s.now);
    AttemptKeepsOrder(p, s, a);
    forall id: nat ensures Count(s.attempts + [a], p, id) == Count(s.attempts, p, id) {
      CountSnoc(s.attempts, a, p, id);
    }
  }

  lemma FetchKeeps(p: Producer, s: Relay, w: nat, ids: seq<nat>)
    requires Inv(p, s) && Enabled(p, s, Fetch(w, ids))
    ensures Inv(p, Effect(p, s, Fetch(w, ids)))
  {
    hide OrderOk, InFlight, FirstAvailable;
    FetchKeepsPasses(s, w, ids);
    var s' := Effect(p, s, Fetch(w, ids));
    OrderSame(p, s, s');
    hide PassesOk, Exclusive;
    forall id: nat ensures Count(s'.attempts, p, id) ==
      One(id in s'.rows && s'.rows[id]) + s'.wasted[id] + One(InFlight(s'.passes, id))
    {
      FetchInFlight(s.passes, w, ids, id);
    }
  }

  lemma FetchKeepsPasses(s: Relay, w: nat, ids: seq<nat>)
    requires PassesOk(s.passes, s.rows) && Exclusive(s.passes)
    requires w !in s.passes && FirstAvailable(s, BatchSize, ids)
    ensures var passes' := s.passes[w := Pass(ids, 0, [], {})]; PassesOk(passes', s.rows) && Exclusive(passes')
  {
    assert forall id :: id in ids ==> Available(s, id);
    assert PassOk(Pass(ids, 0, [], {}), s.rows);
  }

  lemma FetchInFlight(passes: map<nat, Pass>, w: nat, ids: seq<nat>, id: nat)
    requires w !in passes
    ensures InFlight(passes[w := Pass(ids, 0, [], {})], id) <==> InFlight(passes, id)
  {
    if InFlight(passes, id) {
      var v :| v in passes && id in passes[v].accepted;
      assert v in passes[w := Pass(ids, 0, [], {})];
    }
  }

  lemma PublishKeepsPasses(s: Relay, w: nat, outcome: Outcome)
    requires PassesOk(s.passes, s.rows) && Exclusive(s.passes)
    requires w in s.passes && s.passes[w].next < |s.passes[w].ids|
    ensures var passes' := s.passes[w := Progress(s.passes[w], outcome)];
      PassesOk(passes', s.rows) && Exclusive(passes')
  {
    var c := s.passes[w];
    assert PassOk(c, s.rows);
    forall i | 0 <= i < |c.acked| ensures c.acked[i] < c.ids[c.next] {
      assert c.acked[i] in c.acked;
    }
    assert PassOk(Progress(c, outcome), s.rows);
  }

  /** The row being published was not accepted in this pass before, nor is it in any other pass. */
  lemma PublishInFlight(s: Relay, w: nat, outcome: Outcome, id: nat)
    requires PassesOk(s.passes, s.rows) && Exclusive(s.passes)
    requires w in s.passes && s.passes[w].next < |s.passes[w].ids|
    ensures var (c, passes') := (s.passes[w], s.passes[w := Progress(s.passes[w], outcome)]);
      && !InFlight(s.passes, c.ids[c.next])
      && (InFlight(passes', id) <==> InFlight(s.passes, id) || (outcome != Refused && id == c.ids[c.next]))
  {
    var c := s.passes[w];
    var passes' := s.passes[w := Progress(c, outcome)];
    forall v | v in s.passes ensures c.ids[c.next] !in s.passes[v].accepted {
      assert PassOk(s.passes[v], s.rows) && c.ids[c.next] in c.ids;
    }
    if InFlight(s.passes, id) {
      var v :| v in s.passes && id in s.passes[v].accepted;
      assert v in passes' && id in passes'[v].accepted;
    }
    if outcome != Refused && id == c.ids[c.next] {
      assert w in passes' && id in passes'[w].accepted;
    }
  }

  lemma PublishKeeps(p: Producer, s: Relay, w: nat, outcome: Outcome)
    requires Inv(p, s) && Enabled(p, s, Publish(w, outcome))
    ensures Inv(p, Effect(p, s, Publish(w, outcome)))
  {
    var (c, s') := (s.passes[w], Effect(p, s, Publish(w, outcome)));
    var a := Attempt(p, c.ids[c.next], s.now);
    PublishKeepsPasses(s, w, outcome);
    AttemptKeepsOrder(p, s, a);
    assert OrderOk(p, s');
    hide PassesOk, Exclusive, OrderOk, InFlight;
    forall id: nat ensures Count(s'.attempts, p, id) ==
      One(id in s'.rows && s'.rows[id]) + s'.wasted[id] + One(InFlight(s'.passes, id))
    {
      PublishInFlight(s, w, outcome, id);
      CountSnoc(s.attempts, a, p, id);
    }
  }

  /** When a pass ends, what it had accepted moves from in flight to marked or wasted. */
  lemma EndInFlight(s: Relay, w: nat, id: nat)
    requires PassesOk(s.passes, s.rows) && Exclusive(s.passes) && w in s.passes
    ensures InFlight(s.passes - {w}, id) <==> InFlight(s.passes, id) && id !in s.passes[w].accepted
    ensures id in s.passes[w].accepted ==> InFlight(s.passes, id) && id in s.rows && !s.rows[id]
  {
    var c := s.passes[w];
    forall v | v in s.passes && id in s.passes[v].accepted
      ensures id in s.passes[v].ids && id in s.rows && !s.rows[id]
    {
      assert PassOk(s.passes[v], s.rows);
    }
    if id !in c.accepted && InFlight(s.passes, id) {
      var v :| v in s.passes && id in s.passes[v].accepted;
      assert v in s.passes - {w} && id in (s.passes - {w})[v].accepted;
    }
  }

  lemma EndKeepsPasses(s: Relay, w: nat, marked: set<nat>)
    requires PassesOk(s.passes, s.rows) && Exclusive(s.passes) && w in s.passes
    requires forall id :: id in marked ==> id in s.passes[w].ids
    ensures PassesOk(s.passes - {w}, MarkPublished(s.rows, marked)) && Exclusive(s.passes - {w})
  {
    forall v | v in s.passes - {w} ensures PassOk((s.passes - {w})[v], MarkPublished(s.rows, marked)) {
      assert PassOk(s.passes[v], s.rows);
    }
  }

  lemma EndPassKeeps(p: Producer, s: Relay, w: nat, marked: set<nat>)
    requires Inv(p, s) && w in s.passes && marked <= s.passes[w].accepted
    ensures Inv(p, EndPass(s, w, marked))
  {
    hide InFlight, OrderOk;
    var s' := EndPass(s, w, marked);
    assert PassOk(s.passes[w], s.rows);
    EndKeepsPasses(s, w, marked);
    OrderSame(p, s, s');
    hide PassesOk, Exclusive;
    forall id: nat ensures Count(s'.attempts, p, id) ==
      One(id in s'.rows && s'.rows[id]) + s'.wasted[id] + One(InFlight(s'.passes, id))
    {
      EndInFlight(s, w, id);
      EndAccounts(s.rows, s.wasted, s.passes[w].accepted, marked, id);
    }
  }

  lemma OrderSame(p: Producer, s: Relay, s': Relay)
    requires OrderOk(p, s) && s'.attempts == s.attempts && s'.now == s.now
    ensures OrderOk(p, s')
  {
  }

  /** Of what the pass had accepted, the marked part counts as published and the rest as wasted. */
  lemma EndAccounts(rows: map<nat, bool>, wasted: multiset<nat>, accepted: set<nat>, marked: set<nat>, id: nat)
    requires marked <= accepted && (id in accepted ==> id in rows && !rows[id])
    ensures var (rows', wasted') := (MarkPublished(rows, marked), wasted + multiset(accepted - marked));
      One(id in rows' && rows'[id]) + wasted'[id] == One(id in rows && rows[id]) + wasted[id] + One(id in accepted)
  {
    assert multiset(accepted - marked)[id] == One(id in accepted && id !in marked);
  }

  lemma AckedAccepted(p: Producer, s: Relay, w: nat)
    requires Inv(p, s) && w in s.passes
    ensures ToSet(s.passes[w].acked) <= s.passes[w].accepted
  {
    assert PassOk(s.passes[w], s.rows);
  }

  lemma EventKeepsInv(p: Producer, s: Relay, e: Event)
    requires Inv(p, s)
    ensures Inv(p, Next(p, s, e))
  {
    hide Inv;
    if Enabled(p, s, e) {
      match e
      case Insert(id) => InsertKeeps(p, s, id);
      case Tick(to) => TickKeeps(p, s, to);
      case PublishElsewhere(q, n) => ElsewhereKeeps(p, s, q, n);
      case Fetch(w, ids) => FetchKeeps(p, s, w, ids);
      case Publish(w, outcome) => PublishKeeps(p, s, w, outcome);
      case Commit(w) =>
        AckedAccepted(p, s, w);
        EndPassKeeps(p, s, w, ToSet(s.passes[w].acked));
      case Abort(w) => EndPassKeeps(p, s, w, {});
    }
  }

  lemma TickKeeps(p: Producer, s: Relay, to: nat)
    requires Inv(p, s) && s.now <= to
    ensures Inv(p, s.(now := to))
  {
  }

  lemma {:induction false} RunKeepsInv(p: Producer, s: Relay, es: seq<Event>)
    requires Inv(p, s)
    ensures Inv(p, Run(p, s, es))
    decreases |es|
  {
    hide Inv;
    if es != [] {
      EventKeepsInv(p, s, es[0]);
      RunKeepsInv(p, Next(p, s, es[0]), es[1..]);
    }
  }

  // -- What it means for the stream

  ghost predicate Reachable(p: Producer, s: Relay) {
    exists es :: s == Run(p, Init, es)
  }

  lemma ReachableInv(p: Producer, s: Relay)
    requires Reachable(p, s)
    ensures Inv(p, s)
  {
    var es :| s == Run(p, Init, es);
    InitInv(p);
    RunKeepsInv(p, Init, es);
  }

  /**
   At-least-once, and how much more than once. In every reachable state a published row has a copy in the
   stream; a row has at most one copy plus one per pass that got it accepted and ended without marking it (while
   a pass is publishing it, that pass counts as the one); and there is exactly one copy if and only if every
   accepted publish of the row falls into the duplicate window of the first.
   */
  lemma CopiesBounded(p: Producer, s: Relay, window: nat, id: nat)
    requires Reachable(p, s) && id in s.rows
    ensures s.rows[id] ==> Copies(s.attempts, window, p, id) >= 1
    ensures Copies(s.attempts, window, p, id) <= 1 + s.wasted[id]
    ensures !s.rows[id] && !InFlight(s.passes, id) ==> Copies(s.attempts, window, p, id) <= s.wasted[id]
    ensures s.rows[id] && s.wasted[id] == 0 ==> Copies(s.attempts, window, p, id) == 1
    ensures Count(s.attempts, p, id) > 0 ==>
      (Copies(s.attempts, window, p, id) == 1 <==>
       AllWithin(s.attempts, p, id, FirstAt(s.attempts, p, id) + window))
  {
    ReachableInv(p, s);
    CopiesAtMost(p, s, window, id);
  }

  lemma CopiesAtMost(p: Producer, s: Relay, window: nat, id: nat)
    requires Inv(p, s) && id in s.rows
    ensures s.rows[id] ==> Copies(s.attempts, window, p, id) >= 1
    ensures Copies(s.attempts, window, p, id) <= 1 + s.wasted[id]
    ensures !s.rows[id] && !InFlight(s.passes, id) ==> Copies(s.attempts, window, p, id) <= s.wasted[id]
    ensures s.rows[id] && s.wasted[id] == 0 ==> Copies(s.attempts, window, p, id) == 1
    ensures Count(s.attempts, p, id) > 0 ==>
      (Copies(s.attempts, window, p, id) == 1 <==>
       AllWithin(s.attempts, p, id, FirstAt(s.attempts, p, id) + window))
  {
    hide Inv, InFlight, Stored, Count, Copies, FirstAt, AllWithin, One;
    AccountOf(p, s, id);
    ByOne();
    CopiesOf(s.attempts, window, p, id);
  }

  lemma AccountOf(p: Producer, s: Relay, id: nat)
    requires Inv(p, s) && id in s.rows
    ensures Count(s.attempts, p, id) == One(s.rows[id]) + s.wasted[id] + One(InFlight(s.passes, id))
    ensures s.rows[id] ==> !InFlight(s.passes, id)
    ensures OneStream(s.attempts, p)
  {
    hide PassesOk, Exclusive, InFlight, Count, One;
    if s.rows[id] {
      PublishedNotHeld(s, id);
    }
  }

  lemma ByOne()
    ensures One(true) == 1 && One(false) == 0
  {
  }

  lemma CopiesOf(attempts: seq<Attempt>, window: nat, p: Producer, n: int)
    requires OneStream(attempts, p)
    ensures Copies(attempts, window, p, n) <= Count(attempts, p, n)
    ensures Count(attempts, p, n) > 0 ==> Copies(attempts, window, p, n) >= 1
    ensures Count(attempts, p, n) > 0 ==>
      (Copies(attempts, window, p, n) == 1 <==> AllWithin(attempts, p, n, FirstAt(attempts, p, n) + window))
  {
    hide Stored, Count, Copies, FirstAt, AllWithin, Is, OneStream;
    DedupOfOne(attempts, window, p, n);
  }

  lemma PublishedNotHeld(s: Relay, id: nat)
    requires PassesOk(s.passes, s.rows) && id in s.rows && s.rows[id]
    ensures !InFlight(s.passes, id)
  {
    forall w | w in s.passes ensures id !in s.passes[w].accepted {
      assert PassOk(s.passes[w], s.rows);
    }
  }

  /** No two replicas work on the same row, and nobody works on a published one. */
  lemma LocksExclude(p: Producer, s: Relay, w: nat, v: nat, id: nat)
    requires Reachable(p, s) && w in s.passes && v in s.passes && id in s.passes[w].ids && id in s.passes[v].ids
    ensures w == v && id in s.rows && !s.rows[id]
  {
    ReachableInv(p, s);
    hide Reachable, Accounted, OrderOk;
    assert PassOk(s.passes[w], s.rows);
  }

  lemma {:induction false} RunLast(p: Producer, s: Relay, es: seq<Event>, e: Event)
    ensures Run(p, s, es + [e]) == Next(p, Run(p, s, es), e)
    decreases |es|
  {
    hide Next;
    if es == [] {
      assert [e][1..] == [] && es + [e] == [e];
      assert Run(p, Next(p, s, e), []) == Next(p, s, e);
    } else {
      assert (es + [e])[1..] == es[1..] + [e];
      RunLast(p, Next(p, s, es[0]), es[1..], e);
    }
  }

  lemma ReachableStep(p: Producer, s: Relay, e: Event)
    requires Reachable(p, s)
    ensures Reachable(p, Next(p, s, e))
  {
    var es :| s == Run(p, Init, es);
    RunLast(p, Init, es, e);
  }

  /** One replica fetches and publishes the only row, and gets no further. */
  lemma PublishedOnce(p: Producer, s: Relay) returns (s': Relay)
    requires Reachable(p, s) && s.rows == map[1 := false] && s.passes == map[]
    ensures Reachable(p, s')
    ensures s' == s.(passes := map[0 := Pass([1], 1, [1], {1})], attempts := s.attempts + [Attempt(p, 1, s.now)])
  {
    hide Reachable;
    assert !Held(s.passes, 1);
    ReachableStep(p, s, Fetch(0, [1]));
    var s1 := Next(p, s, Fetch(0, [1]));
    assert s1 == s.(passes := map[0 := Pass([1], 0, [], {})]);
    ReachableStep(p, s1, Publish(0, Acked));
    s' := Next(p, s1, Publish(0, Acked));
    var c := s1.passes[0];
    assert [] + [1] == [1] && {} + {1} == {1};
    assert Progress(c, Acked) == Pass([1], 1, [1], {1});
    assert s'.passes == map[0 := Pass([1], 1, [1], {1})];
  }

  /** It publishes the row, dies before its commit, and time passes. */
  lemma DiedOnce(p: Producer, later: nat) returns (s: Relay)
    ensures Reachable(p, s) && s.rows == map[1 := false] && s.passes == map[]
    ensures s.attempts == [Attempt(p, 1, 0)] && s.now == later
  {
    assert Run(p, Init, []) == Init;
    hide Reachable, Run;
    ReachableStep(p, Init, Insert(1));
    var s0 := Next(p, Init, Insert(1));
    assert s0 == Init.(rows := map[1 := false]);
    var s1 := PublishedOnce(p, s0);
    ReachableStep(p, s1, Abort(0));
    var s2 := Next(p, s1, Abort(0));
    assert s2.rows == map[1 := false] && s2.passes == map[];
    ReachableStep(p, s2, Tick(later));
    s := Next(p, s2, Tick(later));
    assert [] + [Attempt(p, 1, 0)] == [Attempt(p, 1, 0)];
  }

  /**
   The stream can hold a row twice, whatever the window: a replica publishes it and dies before its commit, and
   another publishes it again when the window is over.
   */
  lemma SomeRowHasTwoCopies(p: Producer, window: nat)
    ensures exists s :: Reachable(p, s) && s.rows == map[1 := true] && Copies(s.attempts, window, p, 1) == 2
  {
    var s2 := DiedOnce(p, window + 1);
    hide Reachable, Copies;
    var s3 := PublishedOnce(p, s2);
    ReachableStep(p, s3, Commit(0));
    var s := Next(p, s3, Commit(0));
    assert s.rows == map[1 := true] by {
      assert 1 in s3.passes[0].acked;
    }
    assert s.attempts == [Attempt(p, 1, 0)] + [Attempt(p, 1, window + 1)];
    hide Next;
    TwoAttempts(p, window, s);
  }

  lemma TwoAttempts(p: Producer, window: nat, s: Relay)
    requires Reachable(p, s) && s.rows == map[1 := true]
    requires s.attempts == [Attempt(p, 1, 0)] + [Attempt(p, 1, window + 1)]
    ensures Copies(s.attempts, window, p, 1) == 2
  {
    ReachableInv(p, s);
    hide Reachable, Inv, Stored, Count, Copies, FirstAt, OneStream, InFlight;
    var (a, b) := (Attempt(p, 1, 0), Attempt(p, 1, window + 1));
    OneAttempt(p, a);
    CountSnoc([a], b, p, 1);
    FirstAtSnoc([a], b, p, 1);
    assert b in s.attempts && Is(b, p, 1);
    AccountOf(p, s, 1);
    CopiesOf(s.attempts, window, p, 1);
  }

  lemma OneAttempt(p: Producer, a: Attempt)
    requires Is(a, p, 1)
    ensures Count([a], p, 1) == 1 && FirstAt([a], p, 1) == a.at
  {
    assert [a][..0] == [];
  }
}
