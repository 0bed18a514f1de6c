/** One pass of one relay replica, statement by statement, with the other replicas running in between. */
module RelayReplica {
  import opened MessageIds
  import opened Broker
  import opened OutboxRelay
  import opened RelayDrain

  predicate Touches(e: Event, w: nat) {
    match e
    case Fetch(v, _) => v == w
    case Publish(v, _) => v == w
    case Commit(v) => v == w
    case Abort(v) => v == w
    case _ => false
  }

  predicate Foreign(es: seq<Event>, w: nat) {
    forall e :: e in es ==> !Touches(e, w)
  }

  function Own(es: seq<Event>, w: nat): seq<Event>
    decreases |es|
  {
    if es == [] then []
    else (if Touches(es[0], w) then [es[0]] else []) + Own(es[1..], w)
  }

  lemma {:induction false} Extend(p: Producer, s: Relay, es: seq<Event>, fs: seq<Event>, w: nat)
    ensures Run(p, s, es + fs) == Run(p, Run(p, s, es), fs)
    ensures Own(es + fs, w) == Own(es, w) + Own(fs, w)
    decreases |es|
  {
    hide Next, Touches;
    if es == [] {
      assert es + fs == fs;
    } else {
      assert (es + fs)[1..] == es[1..] + fs;
      Extend(p, Next(p, s, es[0]), es[1..], fs, w);
    }
  }

  lemma {:induction false} OwnForeign(es: seq<Event>, w: nat)
    requires Foreign(es, w)
    ensures Own(es, w) == []
    decreases |es|
  {
    if es != [] {
      assert es[0] in es;
      OwnForeign(es[1..], w);
    }
  }

  /** A pass is left alone by everybody else. */
  lemma {:induction false} ForeignKeepsPass(p: Producer, s: Relay, es: seq<Event>, w: nat)
    requires Foreign(es, w)
    ensures var s' := Run(p, s, es);
      && (w in s'.passes <==> w in s.passes)
      && (w in s.passes ==> s'.passes[w] == s.passes[w])
    decreases |es|
  {
    if es != [] {
      assert es[0] in es;
      ForeignStepKeepsPass(p, s, es[0], w);
      hide Next;
      ForeignKeepsPass(p, Next(p, s, es[0]), es[1..], w);
    }
  }

  lemma ForeignStepKeepsPass(p: Producer, s: Relay, e: Event, w: nat)
    requires !Touches(e, w)
    ensures var s' := Next(p, s, e);
      && (w in s'.passes <==> w in s.passes)
      && (w in s.passes ==> s'.passes[w] == s.passes[w])
  {
  }

  lemma Single(p: Producer, s: Relay, e: Event, w: nat)
    ensures Run(p, s, [e]) == Next(p, s, e)
    ensures Own([e], w) == if Touches(e, w) then [e] else []
  {
    assert [e][1..] == [];
  }

  /** The acknowledged ones of the published rows, in order. */
  function AckedOf(ids: seq<nat>, outcomes: seq<Outcome>): seq<nat>
    requires |outcomes| <= |ids|
    decreases |outcomes|
  {
    if outcomes == [] then []
    else
      var n := |outcomes| - 1;
      AckedOf(ids, outcomes[..n]) + (if outcomes[n] == Acked then [ids[n]] else [])
  }

  function PublishEvents(w: nat, outcomes: seq<Outcome>): seq<Event> {
    seq(|outcomes|, i requires 0 <= i < |outcomes| => Publish(w, outcomes[i]))
  }

  lemma {:induction false} AckedIn(ids: seq<nat>, outcomes: seq<Outcome>, i: nat)
    requires |outcomes| <= |ids| && Ascending(ids) && i < |ids|
    ensures ids[i] in AckedOf(ids, outcomes) <==> i < |outcomes| && outcomes[i] == Acked
    decreases |outcomes|
  {
    if outcomes != [] {
      AckedIn(ids, outcomes[..|outcomes| - 1], i);
    }
  }

  class Outbox {
    const producer: Producer
    const calm: bool
    var rows: map<nat, bool>
    var locks: set<nat>
    ghost var passes: map<nat, Pass>
    ghost var attempts: seq<Attempt>
    ghost var now: nat
    ghost var wasted: multiset<nat>

    ghost function S(): Relay
      reads this
    {
      Relay(rows, passes, attempts, now, wasted)
    }

    ghost predicate Valid()
      reads this
    {
      Inv(producer, S()) && (forall id :: id in locks <==> Held(passes, id))
    }

    constructor (producer: Producer, calm: bool)
      ensures Valid() && S() == Init && this.producer == producer && this.calm == calm
    {
      this.producer, this.calm := producer, calm;
      rows, locks := map[], {};
      passes, attempts, now, wasted := map[], [], 0, multiset{};
      new;
      InitInv(producer);
    }

    /** Other replicas, inserts and the clock; none of them continues the pass of `w`. */
    method Yield(ghost w: nat) returns (ghost env: seq<Event>)
      requires Valid()
      modifies this
      ensures Valid() && S() == Run(producer, old(S()), env) && Foreign(env, w)
      ensures (w in passes <==> w in old(passes)) && (w in passes ==> passes[w] == old(passes)[w])
      ensures calm ==> env == [] && S() == old(S())
    {
      env := [];
      ForeignKeepsPass(producer, S(), env, w);
    }

    method Fails() returns (fails: bool)
      ensures calm ==> !fails
    {
      var b := *;
      fails := b && !calm;
    }

    /** SELECT ... ORDER BY id LIMIT n FOR UPDATE SKIP LOCKED. */
    method FetchForUpdate(limit: nat) returns (ids: seq<nat>)
      requires Valid()
      ensures FirstAvailable(S(), limit, ids)
      ensures (forall i, j :: 0 <= i < j < |ids| ==> ids[i] < ids[j]) && |ids| <= limit
      ensures forall id :: id in ids ==> id in rows && !rows[id] && id !in locks
      ensures forall id :: id in rows && !rows[id] && id !in locks && id !in ids ==>
        |ids| == limit && forall x :: x in ids ==> x < id
    {
      var left := set id | id in rows && !rows[id] && id !in locks;
      ghost var all := left;
      ids := [];
      while left != {} && |ids| < limit
        invariant Ascending(ids) && |ids| <= limit && left <= all
        invariant forall id :: id in ids ==> id in all
        invariant forall id :: id in all <==> id in ids || id in left
        invariant forall id, x :: id in left && x in ids ==> x < id
        decreases left
      {
        var m := Least(left);
        assert forall i :: 0 <= i < |ids| ==> ids[i] in ids;
        left := left - {m};
        ids := ids + [m];
      }
      assert forall id :: Available(S(), id) <==> id in all;
    }

    /** The smallest id of a non-empty set. */
    method Least(s: set<nat>) returns (m: nat)
      requires s != {}
      ensures m in s && forall x :: x in s ==> m <= x
    {
      m :| m in s;
      var rest := s - {m};
      while rest != {}
        invariant rest <= s && m in s
        invariant forall x :: x in s && x !in rest ==> m <= x
        decreases rest
      {
        var x :| x in rest;
        rest := rest - {x};
        if x < m {
          m := x;
        }
      }
    }

    /** The ghost side of a step whose real effect is none or is on the locks and rows given. */
    ghost method Step(e: Event)
      requires Valid() && (e.Publish? || !Enabled(producer, S(), e))
      modifies this`passes, this`attempts
      ensures Valid() && S() == Next(producer, old(S()), e)
    {
      EventKeepsInv(producer, S(), e);
      HeldSame(producer, S(), e);
      var s' := Next(producer, S(), e);
      passes, attempts := s'.passes, s'.attempts;
    }

    /** js.Publish of the next row of the pass. */
    method Publish(ghost w: nat) returns (outcome: Outcome)
      requires Valid() && w in passes && passes[w].next < |passes[w].ids|
      modifies this`passes, this`attempts
      ensures Valid() && S() == Next(producer, old(S()), Event.Publish(w, outcome))
      ensures passes == old(passes)[w := Progress(old(passes)[w], outcome)]
      ensures calm ==> outcome == Acked
    {
      hide Inv;
      var refused := Fails();
      var ackLost := Fails();
      outcome := if refused then Refused else if ackLost then AckLost else Acked;
      Step(Event.Publish(w, outcome));
    }

    /** The row locks of a fetch. */
    method Lock(ghost w: nat, ids: seq<nat>)
      requires Valid() && Enabled(producer, S(), Fetch(w, ids))
      modifies this`locks, this`passes
      ensures Valid() && S() == Next(producer, old(S()), Fetch(w, ids))
      ensures passes == old(passes)[w := Pass(ids, 0, [], {})]
    {
      EventKeepsInv(producer, S(), Fetch(w, ids));
      hide Inv;
      locks := locks + ToSet(ids);
      passes := passes[w := Pass(ids, 0, [], {})];
      HeldMore(old(passes), w, ids);
    }

    /** The transaction ends with the given rows marked, and releases its locks. */
    method End(ghost w: nat, ids: seq<nat>, marked: set<nat>, ghost e: Event)
      requires Valid() && w in passes && passes[w].ids == ids && Enabled(producer, S(), e)
      requires (e == Commit(w) && marked == ToSet(passes[w].acked)) || (e == Abort(w) && marked == {})
      modifies this
      ensures Valid() && S() == Next(producer, old(S()), e) && passes == old(passes) - {w}
      ensures rows == MarkPublished(old(rows), marked)
    {
      EventKeepsInv(producer, S(), e);
      AfterEnd(producer, S(), w);
      hide Inv;
      ghost var s' := Next(producer, S(), e);
      rows := MarkPublished(rows, marked);
      locks := locks - ToSet(ids);
      passes, wasted := s'.passes, s'.wasted;
    }

    /** Mark and commit what was acknowledged; the deferred rollback when there is nothing or marking fails. */
    method Finish(ghost w: nat, ids: seq<nat>, published: seq<nat>)
      returns (ok: bool, committed: bool, ghost env: seq<Event>, ghost last: Event)
      requires Valid() && w in passes && passes[w].ids == ids && passes[w].next == |ids| && passes[w].acked == published
      modifies this
      ensures Valid() && w !in passes && Foreign(env, w) && last == (if committed then Commit(w) else Abort(w))
      ensures S() == Next(producer, Run(producer, old(S()), env), last) && Ascending(ids)
      ensures (committed ==> published != []) && (ok ==> (committed <==> published != []))
      ensures forall id :: id in ids ==> id in rows && (rows[id] <==> committed && id in published)
      ensures calm ==> ok && rows == MarkPublished(old(rows), ToSet(published))
    {
      hide Inv, Run, Next, Foreign, Effect, Ascending;
      env := Yield(w);
      ok := true;
      if |published| > 0 {
        var markFails := Fails();
        ok := !markFails;
      }
      committed := |published| > 0 && ok;
      FreshRows(producer, S(), w);
      last := if committed then Commit(w) else Abort(w);
      NothingMarked(rows);
      End(w, ids, if committed then ToSet(published) else {}, last);
      if committed {
        var ackLost := Fails();
        ok := !ackLost;
      }
    }

    /**
     One pass: fetch and lock a batch in id order, publish each row, mark the acknowledged ones, commit. A publish
     that is not acknowledged is skipped; if none was acknowledged the transaction is rolled back. `outcomes[i]`
     is what happened to the publish of `ids[i]`.
     */
    method PublishPending(ghost w: nat)
      returns (ok: bool, ids: seq<nat>, ghost outcomes: seq<Outcome>, committed: bool, ghost trace: seq<Event>)
      requires Valid() && w !in passes
      modifies this
      ensures Valid() && S() == Run(producer, old(S()), trace) && w !in passes
      ensures trace == [] ==> S() == old(S()) && !committed
      ensures trace != [] ==>
        && FirstAvailable(old(S()), 100, ids) && |outcomes| == |ids|
        && Own(trace, w) ==
             [Fetch(w, ids)] + PublishEvents(w, outcomes) + [if committed then Commit(w) else Abort(w)]
        && (forall id :: id in ids ==> id in rows)
        && (forall i :: 0 <= i < |ids| ==> (rows[ids[i]] <==> committed && outcomes[i] == Acked))
      ensures ok && trace != [] ==> (committed <==> Acked in outcomes)
      ensures calm && old(passes) == map[] ==>
        ok && Picks(old(rows), ids) && rows == MarkPublished(old(rows), ToSet(ids))
    {
      hide Inv, Run, Next, Own, Foreign, PublishEvents, AckedOf, FirstAvailable, Effect, Picks, Ascending;
      ghost var s0 := S();
      ids, outcomes, committed, trace := [], [], false, [];
      Start(producer, s0, w, ids);
      var fails := Fails();
      if fails {
        return false, ids, outcomes, committed, trace;
      }
      ids := FetchForUpdate(BatchSize);
      if |ids| == 0 {
        NothingFetched(s0);
        return true, ids, outcomes, committed, trace;
      }
      Start(producer, s0, w, ids);
      if s0.passes == map[] {
        FetchedPicks(s0, ids);
      }
      Lock(w, ids);
      Single(producer, s0, Fetch(w, ids), w);
      var published;
      ghost var publishes;
      published, outcomes, publishes := PublishEach(w, ids);
      Extend(producer, s0, [Fetch(w, ids)], publishes, w);
      trace := [Fetch(w, ids)] + publishes;
      ghost var env, last;
      ok, committed, env, last := Finish(w, ids, published);
      ForeignThenOwn(producer, s0, trace, env, last, w);
      trace := trace + env + [last];
      AckedAre(ids, outcomes);
      SomeAcked(ids, outcomes);
    }

    /** The loop of a pass: publish the fetched rows in order, and remember the acknowledged ones. */
    method PublishEach(ghost w: nat, ids: seq<nat>)
      returns (published: seq<nat>, ghost outcomes: seq<Outcome>, ghost trace: seq<Event>)
      requires Valid() && w in passes && passes[w] == Pass(ids, 0, [], {})
      modifies this
      ensures Valid() && S() == Run(producer, old(S()), trace)
      ensures |outcomes| == |ids| && Own(trace, w) == PublishEvents(w, outcomes) && published == AckedOf(ids, outcomes)
      ensures w in passes && passes[w].ids == ids && passes[w].next == |ids| && passes[w].acked == published
      ensures calm ==> rows == old(rows) && published == ids
    {
      hide Inv, Run, Next, Own, Foreign, PublishEvents, AckedOf, FirstAvailable, Effect, Picks, Ascending;
      ghost var s0 := S();
      Start(producer, s0, w, ids);
      published, outcomes, trace := [], [], [];
      var i := 0;
      while i < |ids|
        invariant i <= |ids| && |outcomes| == i && published == AckedOf(ids, outcomes)
        invariant Valid() && S() == Run(producer, s0, trace) && Own(trace, w) == PublishEvents(w, outcomes)
        invariant w in passes && passes[w].ids == ids && passes[w].next == i && passes[w].acked == published
        invariant calm ==> rows == old(rows) && published == ids[..i]
      {
        ghost var env := Yield(w);
        var outcome := Publish(w);
        ForeignThenOwn(producer, s0, trace, env, Event.Publish(w, outcome), w);
        EventsSnoc(w, outcomes, outcome);
        AckedSnoc(ids, outcomes, outcome);
        trace := trace + env + [Event.Publish(w, outcome)];
        outcomes := outcomes + [outcome];
        if outcome == Acked {
          published := published + [ids[i]];
        }
        i := i + 1;
      }
    }
  }

  lemma HeldSame(p: Producer, s: Relay, e: Event)
    requires e.Publish? || !Enabled(p, s, e)
    ensures forall id :: Held(Next(p, s, e).passes, id) == Held(s.passes, id)
    ensures var s' := Next(p, s, e); s' == s.(passes := s'.passes, attempts := s'.attempts)
  {
    var s' := Next(p, s, e);
    forall id ensures Held(s'.passes, id) == Held(s.passes, id) {
      if Held(s.passes, id) {
        var w :| w in s.passes && id in s.passes[w].ids;
        assert w in s'.passes && id in s'.passes[w].ids;
      }
      if Held(s'.passes, id) {
        var w :| w in s'.passes && id in s'.passes[w].ids;
        assert w in s.passes && id in s.passes[w].ids;
      }
    }
  }

  lemma HeldMore(passes: map<nat, Pass>, w: nat, ids: seq<nat>)
    requires w !in passes
    ensures forall id :: Held(passes[w := Pass(ids, 0, [], {})], id) <==> Held(passes, id) || id in ids
  {
    var passes' := passes[w := Pass(ids, 0, [], {})];
    forall id ensures Held(passes', id) <==> Held(passes, id) || id in ids {
      if id in ids {
        assert id in passes'[w].ids;
      } else if Held(passes, id) {
        var v :| v in passes && id in passes[v].ids;
        assert v in passes' && id in passes'[v].ids;
      }
    }
  }

  lemma AfterEnd(p: Producer, s: Relay, w: nat)
    requires Inv(p, s) && w in s.passes
    ensures forall id :: Held(s.passes - {w}, id) <==> Held(s.passes, id) && id !in s.passes[w].ids
  {
    forall id ensures Held(s.passes - {w}, id) <==> Held(s.passes, id) && id !in s.passes[w].ids {
      if Held(s.passes, id) && id !in s.passes[w].ids {
        var v :| v in s.passes && id in s.passes[v].ids;
        assert v in s.passes - {w} && id in (s.passes - {w})[v].ids;
      }
    }
  }

  /** Steps of others followed by one of the replica's own. */
  lemma ForeignThenOwn(p: Producer, s0: Relay, trace: seq<Event>, env: seq<Event>, e: Event, w: nat)
    requires Foreign(env, w) && Touches(e, w)
    ensures Run(p, s0, trace + env + [e]) == Next(p, Run(p, Run(p, s0, trace), env), e)
    ensures Own(trace + env + [e], w) == Own(trace, w) + [e]
  {
    hide Next;
    Extend(p, s0, trace, env, w);
    OwnForeign(env, w);
    Extend(p, s0, trace + env, [e], w);
    Single(p, Run(p, s0, trace + env), e, w);
  }

  lemma AckedSnoc(ids: seq<nat>, outcomes: seq<Outcome>, outcome: Outcome)
    requires |outcomes| < |ids|
    ensures AckedOf(ids, outcomes + [outcome])
      == AckedOf(ids, outcomes) + (if outcome == Acked then [ids[|outcomes|]] else [])
  {
    assert (outcomes + [outcome])[..|outcomes|] == outcomes;
  }

  lemma EventsSnoc(w: nat, outcomes: seq<Outcome>, outcome: Outcome)
    ensures PublishEvents(w, outcomes + [outcome]) == PublishEvents(w, outcomes) + [Event.Publish(w, outcome)]
  {
  }

  lemma Start(p: Producer, s: Relay, w: nat, ids: seq<nat>)
    ensures Run(p, s, []) == s && Own([], w) == [] && PublishEvents(w, []) == [] && AckedOf(ids, []) == []
  {
  }

  lemma NothingMarked(rows: map<nat, bool>)
    ensures MarkPublished(rows, {}) == rows
  {
  }

  /** Nothing fetched means nothing was available. */
  lemma NothingFetched(s: Relay)
    requires FirstAvailable(s, BatchSize, [])
    ensures s.passes == map[] ==> Picks(s.rows, []) && MarkPublished(s.rows, ToSet([])) == s.rows
  {
    if s.passes == map[] {
      forall id | id in PendingSet(s.rows) ensures Available(s, id) {
      }
    }
  }

  lemma FetchedPicks(s: Relay, ids: seq<nat>)
    requires FirstAvailable(s, BatchSize, ids) && s.passes == map[]
    ensures Picks(s.rows, ids)
  {
    forall id | id in PendingSet(s.rows) ensures Available(s, id) {
    }
  }

  /** The rows of a running pass are still pending. */
  lemma FreshRows(p: Producer, s: Relay, w: nat)
    requires Inv(p, s) && w in s.passes
    ensures forall id :: id in s.passes[w].ids ==> id in s.rows && !s.rows[id]
    ensures Ascending(s.passes[w].ids)
  {
    assert PassOk(s.passes[w], s.rows);
  }

  lemma AckedAre(ids: seq<nat>, outcomes: seq<Outcome>)
    requires |outcomes| == |ids| && Ascending(ids)
    ensures forall i :: 0 <= i < |ids| ==> ids[i] in ids && (ids[i] in AckedOf(ids, outcomes) <==> outcomes[i] == Acked)
  {
    hide Ascending;
    forall i | 0 <= i < |ids| ensures ids[i] in AckedOf(ids, outcomes) <==> outcomes[i] == Acked {
      AckedIn(ids, outcomes, i);
    }
  }

  lemma {:induction false} SomeAcked(ids: seq<nat>, outcomes: seq<Outcome>)
    requires |outcomes| <= |ids|
    ensures AckedOf(ids, outcomes) != [] <==> Acked in outcomes
    decreases |outcomes|
  {
    if outcomes != [] {
      var n := |outcomes| - 1;
      SomeAcked(ids, outcomes[..n]);
      assert outcomes == outcomes[..n] + [outcomes[n]];
    }
  }
}
