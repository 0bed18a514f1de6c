/** No pending row is out of reach: whatever the replicas hold, some of their steps bring it to its publish. */
module RelayProgress {
  import opened MessageIds
  import opened OutboxRelay

  /** Steps of replicas that neither reach the stream nor mark a row. */
  predicate Still(e: Event) {
    e.Abort? || e.Fetch? || (e.Publish? && e.outcome == Refused)
  }

  lemma StillKeeps(p: Producer, s: Relay, e: Event)
    requires Still(e)
    ensures var s' := Next(p, s, e); s'.rows == s.rows && s'.attempts == s.attempts && s'.now == s.now
  {
  }

  /** Some replica publishes this row next. */
  predicate Due(s: Relay, w: nat, id: nat) {
    w in s.passes && s.passes[w].next < |s.passes[w].ids| && s.passes[w].ids[s.passes[w].next] == id
  }

  ghost predicate Comes(p: Producer, s: Relay, id: nat) {
    exists es, w :: (forall e :: e in es ==> Still(e)) && Due(Run(p, s, es), w, id)
  }

  lemma ComesNow(p: Producer, s: Relay, w: nat, id: nat)
    requires Due(s, w, id)
    ensures Comes(p, s, id)
  {
    assert Run(p, s, []) == s;
  }

  lemma ComesAfter(p: Producer, s: Relay, e: Event, id: nat)
    requires Still(e) && Comes(p, Next(p, s, e), id)
    ensures Comes(p, s, id)
  {
    hide Next;
    var es, w :| (forall x :: x in es ==> Still(x)) && Due(Run(p, Next(p, s, e), es), w, id);
    assert ([e] + es)[1..] == es;
    assert forall x :: x in [e] + es ==> Still(x);
    assert Due(Run(p, s, [e] + es), w, id);
  }

  /** A pass that has fetched the row gets to it, if the broker refuses the rows before it. */
  lemma {:induction false} PassComes(p: Producer, s: Relay, w: nat, i: nat)
    requires w in s.passes && s.passes[w].next <= i < |s.passes[w].ids|
    ensures Comes(p, s, s.passes[w].ids[i])
    decreases i - s.passes[w].next
  {
    hide Comes;
    if s.passes[w].next == i {
      ComesNow(p, s, w, s.passes[w].ids[i]);
    } else {
      PassComes(p, Next(p, s, Publish(w, Refused)), w, i);
      ComesAfter(p, s, Publish(w, Refused), s.passes[w].ids[i]);
    }
  }

  lemma {:induction false} Least(ids: set<nat>) returns (m: nat)
    requires ids != {}
    ensures m in ids && forall x :: x in ids ==> m <= x
    decreases |ids|
  {
    var x :| x in ids;
    m := x;
    if ids != {x} {
      var n := Least(ids - {x});
      m := if x <= n then x else n;
    }
    assert forall y :: y in ids ==> y == x || y in ids - {x};
  }

  /** ORDER BY id LIMIT n of a set. */
  lemma {:induction false} Smallest(ids: set<nat>, n: nat) returns (first: seq<nat>)
    ensures Ascending(first) && |first| <= n && (forall x :: x in first ==> x in ids)
    ensures forall x :: x in ids && x !in first ==> |first| == n && forall y :: y in first ==> y < x
    ensures ids != {} && n > 0 ==> first != []
    decreases n
  {
    first := [];
    if n > 0 && ids != {} {
      var m := Least(ids);
      var rest := Smallest(ids - {m}, n - 1);
      first := [m] + rest;
      assert forall i :: 0 <= i < |rest| ==> rest[i] in ids - {m};
    }
  }

  lemma FreshWorker(passes: map<nat, Pass>) returns (w: nat)
    ensures w !in passes
  {
    w := FreshIn(passes.Keys);
  }

  lemma {:induction false} FreshIn(s: set<nat>) returns (w: nat)
    ensures forall x :: x in s ==> x < w
    decreases |s|
  {
    w := 0;
    if s != {} {
      var x :| x in s;
      var v := FreshIn(s - {x});
      w := if v <= x then x + 1 else v;
      assert forall y :: y in s ==> y == x || y in s - {x};
    }
  }

  function Ahead(s: Relay, id: nat): set<nat> {
    set x | x in s.rows && Available(s, x) && x < id
  }

  /** Fetching by more and more replicas reaches every available row. */
  lemma {:induction false} AvailableComes(p: Producer, s: Relay, id: nat)
    requires Available(s, id)
    ensures Comes(p, s, id)
    decreases |Ahead(s, id)|
  {
    hide Comes;
    var available := set x | x in s.rows && Available(s, x);
    var w := FreshWorker(s.passes);
    var ids := Smallest(available, BatchSize);
    var s' := Next(p, s, Fetch(w, ids));
    assert Enabled(p, s, Fetch(w, ids)) by {
      assert id in available;
    }
    assert s'.passes == s.passes[w := Pass(ids, 0, [], {})] && s'.rows == s.rows;
    if id in ids {
      var i :| 0 <= i < |ids| && ids[i] == id;
      PassComes(p, s', w, i);
    } else {
      FetchShrinks(s, s', w, ids, id);
      AvailableComes(p, s', id);
    }
    ComesAfter(p, s, Fetch(w, ids), id);
  }

  lemma FetchShrinks(s: Relay, s': Relay, w: nat, ids: seq<nat>, id: nat)
    requires Available(s, id) && w !in s.passes && FirstAvailable(s, BatchSize, ids) && id !in ids
    requires s'.passes == s.passes[w := Pass(ids, 0, [], {})] && s'.rows == s.rows
    ensures Available(s', id) && |Ahead(s', id)| < |Ahead(s, id)|
  {
    forall x | Held(s.passes, x) ensures Held(s'.passes, x) {
      var v :| v in s.passes && x in s.passes[v].ids;
      assert x in s'.passes[v].ids;
    }
    assert forall x :: Held(s'.passes, x) ==> Held(s.passes, x) || x in ids;
    assert Held(s'.passes, ids[0]) by {
      assert ids[0] in s'.passes[w].ids;
    }
    assert ids[0] in ids && ids[0] in Ahead(s, id) && ids[0] !in Ahead(s', id);
    ProperSubset(Ahead(s', id), Ahead(s, id), ids[0]);
  }

  lemma ProperSubset(a: set<nat>, b: set<nat>, x: nat)
    requires a <= b && x in b && x !in a
    ensures |a| < |b|
  {
    assert a <= b - {x};
    SubsetSize(a, b - {x});
  }

  lemma {:induction false} SubsetSize(a: set<nat>, b: set<nat>)
    requires a <= b
    ensures |a| <= |b|
    decreases |b|
  {
    if a != {} {
      var x :| x in a;
      SubsetSize(a - {x}, b - {x});
    }
  }

  /** Every pending row can still be published next, without anything else reaching the stream before it. */
  lemma PendingComes(p: Producer, s: Relay, id: nat)
    requires Inv(p, s) && id in s.rows && !s.rows[id]
    ensures Comes(p, s, id)
  {
    hide Comes, Accounted, OrderOk, PassesOk;
    if Held(s.passes, id) {
      var w :| w in s.passes && id in s.passes[w].ids;
      AbortFrees(p, s, w, id);
      AvailableComes(p, Next(p, s, Abort(w)), id);
      ComesAfter(p, s, Abort(w), id);
    } else {
      AvailableComes(p, s, id);
    }
  }

  lemma AbortFrees(p: Producer, s: Relay, w: nat, id: nat)
    requires Exclusive(s.passes) && w in s.passes && id in s.passes[w].ids && id in s.rows && !s.rows[id]
    ensures Available(Next(p, s, Abort(w)), id)
  {
  }
}
