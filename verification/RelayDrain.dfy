/** The relay undisturbed: how many passes empty the outbox, and in which order the rows go out. */
module RelayDrain {
  import opened OutboxRelay

  function PendingSet(rows: map<nat, bool>): set<nat> {
    set id | id in rows && !rows[id]
  }

  /** What one pass fetches when no other replica holds a lock. */
  predicate Picks(rows: map<nat, bool>, ids: seq<nat>) {
    && Ascending(ids) && |ids| <= 100
    && (forall id :: id in ids ==> id in PendingSet(rows))
    && (forall id :: id in PendingSet(rows) && id !in ids ==> |ids| == 100 && forall x :: x in ids ==> x < id)
  }

  /** Passes in a row, every publish acknowledged and no row added. */
  predicate Passes(rows: map<nat, bool>, picks: seq<seq<nat>>, rows': map<nat, bool>)
    decreases |picks|
  {
    if picks == [] then rows' == rows
    else Picks(rows, picks[0]) && Passes(MarkPublished(rows, ToSet(picks[0])), picks[1..], rows')
  }

  function Flatten(picks: seq<seq<nat>>): seq<nat>
    decreases |picks|
  {
    if picks == [] then [] else picks[0] + Flatten(picks[1..])
  }

  lemma {:induction false} AscendingSize(ids: seq<nat>)
    requires Ascending(ids)
    ensures |ToSet(ids)| == |ids|
    decreases |ids|
  {
    if ids != [] {
      AscendingSize(ids[1..]);
      assert ToSet(ids) == {ids[0]} + ToSet(ids[1..]);
      assert ids[0] !in ToSet(ids[1..]);
    }
  }

  /** One pass publishes the smallest hundred pending rows, or all of them. */
  lemma OnePass(rows: map<nat, bool>, ids: seq<nat>)
    requires Picks(rows, ids)
    ensures PendingSet(MarkPublished(rows, ToSet(ids))) == PendingSet(rows) - ToSet(ids)
    ensures ToSet(ids) <= PendingSet(rows)
    ensures |PendingSet(MarkPublished(rows, ToSet(ids)))|
      == if |PendingSet(rows)| <= 100 then 0 else |PendingSet(rows)| - 100
  {
    var rest := PendingSet(rows) - ToSet(ids);
    assert PendingSet(MarkPublished(rows, ToSet(ids))) == rest;
    AscendingSize(ids);
    assert ToSet(ids) <= PendingSet(rows);
    assert |rest| == |PendingSet(rows)| - |ids|;
    if |ids| < 100 {
      assert rest == {};
    }
  }

  lemma {:induction false} PassesPublish(rows: map<nat, bool>, picks: seq<seq<nat>>, rows': map<nat, bool>)
    requires Passes(rows, picks, rows')
    ensures Ascending(Flatten(picks)) && ToSet(Flatten(picks)) <= PendingSet(rows)
    ensures rows' == MarkPublished(rows, ToSet(Flatten(picks)))
    ensures |PendingSet(rows')| == if |PendingSet(rows)| <= 100 * |picks| then 0 else |PendingSet(rows)| - 100 * |picks|
    decreases |picks|
  {
    hide Picks, Ascending, MarkPublished, PendingSet, ToSet;
    if picks == [] {
      NothingPublished(rows);
    } else {
      var rows1 := MarkPublished(rows, ToSet(picks[0]));
      var rest := Flatten(picks[1..]);
      OnePass(rows, picks[0]);
      PassesPublish(rows1, picks[1..], rows');
      AscendingJoin(rows, picks[0], rest);
      JoinedSets(rows, picks[0], rest);
    }
  }

  lemma NothingPublished(rows: map<nat, bool>)
    ensures MarkPublished(rows, ToSet([])) == rows && Ascending([]) && ToSet([]) <= PendingSet(rows)
  {
  }

  lemma JoinedSets(rows: map<nat, bool>, a: seq<nat>, b: seq<nat>)
    ensures ToSet(a + b) == ToSet(a) + ToSet(b)
    ensures MarkPublished(MarkPublished(rows, ToSet(a)), ToSet(b)) == MarkPublished(rows, ToSet(a + b))
  {
  }

  lemma AscendingJoin(rows: map<nat, bool>, ids: seq<nat>, rest: seq<nat>)
    requires Picks(rows, ids) && Ascending(rest) && ToSet(rest) <= PendingSet(rows) - ToSet(ids)
    ensures Ascending(ids + rest)
  {
    forall i, j | 0 <= i < j < |ids + rest| ensures (ids + rest)[i] < (ids + rest)[j] {
      if i < |ids| <= j {
        assert rest[j - |ids|] in ToSet(rest) && rest[j - |ids|] !in ids && ids[i] in ids;
      }
    }
  }

  /**
   With n pending rows, every publish acknowledged and none added, ceil(n / 100) passes publish all of them,
   each once and in id order across the passes, and change no other row.
   */
  lemma RelayDrains(rows: map<nat, bool>, picks: seq<seq<nat>>, rows': map<nat, bool>)
    requires Passes(rows, picks, rows')
    requires |picks| >= (|PendingSet(rows)| + 100 - 1) / 100
    ensures PendingSet(rows') == {} && rows'.Keys == rows.Keys
    ensures Ascending(Flatten(picks)) && ToSet(Flatten(picks)) == PendingSet(rows)
  {
    PassesPublish(rows, picks, rows');
    hide Passes;
    var all := ToSet(Flatten(picks));
    assert |PendingSet(rows')| == 0;
    assert PendingSet(rows') == PendingSet(rows) - all;
  }
}
