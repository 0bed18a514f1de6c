/** One pass of the reaper: a batch mark in one transaction, then one compensation per marked row. */
module SagaReaper {
  import opened Prelude
  import opened SubscriptionTables
  import opened SagaProtocol
  import opened SagaFrames
  import opened Interleaving
  import opened ReaperDrain
  import opened SubscriptionService
  import opened SagaOrchestrator

  lemma {:induction false} MarkAllSnoc(w: World, rows: seq<nat>, i: nat)
    requires i < |rows| && forall r :: r in rows ==> r in w.t.sagas
    ensures rows[i] in MarkAll(w, rows[..i]).t.sagas
    ensures MarkAll(w, rows[..i + 1]) == MarkCompensating(MarkAll(w, rows[..i]), rows[i], None, DeadlineReason)
    decreases i
  {
    if i == 0 {
      assert rows[..0] == [] && rows[..1][1..] == [];
      assert MarkAll(MarkCompensating(w, rows[0], None, DeadlineReason), []) ==
        MarkCompensating(w, rows[0], None, DeadlineReason);
    } else {
      var w1 := MarkCompensating(w, rows[0], None, DeadlineReason);
      MarkAllSnoc(w1, rows[1..], i - 1);
      assert rows[..i + 1][1..] == rows[1..][..i];
      assert rows[..i][1..] == rows[1..][..i - 1];
    }
  }

  /** The tasks one pass still has to run. */
  function Batch(k: nat, n: nat): (s: set<nat>)
    ensures forall j: nat :: j in s <==> k <= j < k + n
    decreases n
  {
    if n == 0 then {} else {k} + Batch(k + 1, n - 1)
  }

  /** The rows as they were read, before they are marked. */
  function Snapshots(t: Tables, rows: seq<nat>): (snaps: seq<Saga>)
    requires forall r :: r in rows ==> r in t.sagas
    ensures |snaps| == |rows|
  {
    seq(|rows|, i requires 0 <= i < |rows| => assert rows[i] in rows; t.sagas[rows[i]])
  }

  lemma {:induction false} MarkAllSnapshots(w: World, rows: seq<nat>)
    requires Distinct(rows) && (forall r :: r in rows ==> r in w.t.sagas)
    ensures forall j :: w.nextTask <= j < w.nextTask + |rows| ==>
      && j in MarkAll(w, rows).tasks
      && MarkAll(w, rows).tasks[j] ==
           Compensation(rows[j - w.nextTask], Snapshots(w.t, rows)[j - w.nextTask], DeadlineReason)
    decreases |rows|
  {
    if rows != [] {
      var w1 := MarkCompensating(w, rows[0], None, DeadlineReason);
      assert forall r :: r in rows[1..] ==> r in rows && r != rows[0];
      MarkAllSnapshots(w1, rows[1..]);
      MarkAllQueues(w1, rows[1..]);
      forall j | w.nextTask <= j < w.nextTask + |rows|
        ensures j in MarkAll(w, rows).tasks
        ensures MarkAll(w, rows).tasks[j] ==
          Compensation(rows[j - w.nextTask], Snapshots(w.t, rows)[j - w.nextTask], DeadlineReason)
      {
        if j == w.nextTask {
          assert w1.tasks[j] == Compensation(rows[0], w.t.sagas[rows[0]], DeadlineReason);
        } else {
          var i := j - w1.nextTask;
          assert rows[1..][i] == rows[i + 1] && rows[i + 1] in rows[1..];
          assert Snapshots(w1.t, rows[1..])[i] == Snapshots(w.t, rows)[i + 1];
        }
      }
    }
  }

  /** What the pass commits is the event of the protocol. */
  lemma MarkedTables(w: World, rows: seq<nat>, ids: Sequences)
    requires Enabled(w, Reap(rows)) && Above(ids, w.t, w.h)
    ensures Next(w, Reap(rows)).t == MarkAll(w, rows).t && Next(w, Reap(rows)).now == w.now
    ensures Above(ids, Next(w, Reap(rows)).t, Next(w, Reap(rows)).h)
    ensures rows != [] ==> Next(w, Reap(rows)) != w
  {
    MarkAllFrame(w, rows);
  }

  /** What a pass did for the row of one task: its compensation, or an attempt the database failed. */
  predicate Handled(own: seq<Event>, k: nat, failed: bool) {
    if failed then NotCompensated(own, k) else Compensated(own, k)
  }

  class Reaper {
    const orchestrator: Orchestrator

    constructor (orchestrator: Orchestrator)
      ensures this.orchestrator == orchestrator
    {
      this.orchestrator := orchestrator;
    }

    /**
     Select and mark. A statement that fails inside the loop is only logged, but it aborts the transaction, so
     the commit fails and no row is marked.
     */
    method MarkExpired() returns (ok: bool, expired: seq<nat>, rows: seq<Saga>, ghost marked: bool)
      requires orchestrator.db.Valid()
      modifies orchestrator.db
      ensures orchestrator.db.Valid() && Enabled(old(orchestrator.db.W()), SagaProtocol.Reap(expired))
      ensures marked ==> orchestrator.db.W() == Next(old(orchestrator.db.W()), SagaProtocol.Reap(expired))
      ensures !marked ==> orchestrator.db.W() == old(orchestrator.db.W())
      ensures ok && expired != [] ==> marked
      ensures orchestrator.db.faults >= old(orchestrator.db.faults)
      ensures (forall r :: r in expired ==> r in old(orchestrator.db.tables).sagas)
      ensures rows == Snapshots(old(orchestrator.db.tables), expired)
      ensures orchestrator.db.calm ==> ok && Picks(old(orchestrator.db.W()), expired)
    {
      hide Inv, Next;
      var db := orchestrator.db;
      ExpiredRows(db.W());
      expired, rows, marked := [], [], false;
      var tx := db.Begin();
      if tx == null {
        return false, expired, rows, marked;
      }
      var found, result := tx.FindExpiredForUpdate(db.now, ReaperBatch);
      if !found {
        db.Rollback(tx);
        return false, expired, rows, marked;
      }
      expired := result;
      rows := Snapshots(tx.t, expired);
      if |expired| == 0 {
        db.Rollback(tx);
        return true, expired, rows, marked;
      }
      ghost var w := db.W();
      for i := 0 to |expired|
        invariant fresh(tx) && tx.calm == db.calm && db.W() == w && db.ids == old(db.ids) && db.faults >= old(db.faults)
        invariant forall r :: r in expired[..i] ==> r in w.t.sagas
        invariant !tx.aborted ==> tx.t == MarkAll(w, expired[..i]).t
        invariant db.calm ==> !tx.aborted
      {
        MarkAllSnoc(w, expired, i);
        var _ := tx.UpdateState(expired[i], Compensating, None);
      }
      assert expired[..|expired|] == expired;
      MarkedTables(w, expired, db.ids);
      ok := db.Commit(tx, SagaProtocol.Reap(expired));
      marked := db.W() != w;
    }

    /**
     One pass. Every marked row gets its own compensation, whose error is only logged, so one failure does not
     stop the others: the rows left uncompensated are no more than the transactions the database failed. If the
     marks are reported as failed no compensation is run. Undisturbed, a pass is `ReapPass` on the rows it picked.
     */
    method Reap() returns (ok: bool, ghost rows: seq<nat>, ghost failed: set<nat>, ghost trace: seq<Event>)
      requires orchestrator.db.Valid()
      modifies orchestrator.db
      ensures orchestrator.db.Valid() && orchestrator.db.W() == Run(old(orchestrator.db.W()), trace)
      ensures trace == [] || (trace[0] == SagaProtocol.Reap(rows) && Enabled(old(orchestrator.db.W()), trace[0]))
      ensures var k := old(orchestrator.db.nextTask);
        ok && trace != [] ==> forall j :: k <= j < k + |rows| ==> Handled(Own(trace[1..], j), j, j in failed)
      ensures ok ==> |failed| + old(orchestrator.db.faults) <= orchestrator.db.faults
      ensures var k := old(orchestrator.db.nextTask);
        !ok && trace != [] ==> forall j :: k <= j < k + |rows| ==> Own(trace[1..], j) == [Drop(j)]
      ensures orchestrator.db.calm ==>
        ok && Picks(old(orchestrator.db.W()), rows) && orchestrator.db.W() == ReapPass(old(orchestrator.db.W()), rows)
      ensures orchestrator.db.calm ==> Reaped(old(orchestrator.db.W()), orchestrator.db.W(), rows)
    {
      hide Inv, Next, Enabled, Reaped;
      var db := orchestrator.db;
      ghost var (w, k) := (db.W(), db.nextTask);
      var marked, expired, snapshots, applied := MarkExpired();
      if db.calm {
        ReapPassReaps(w, expired);
      }
      rows, trace, failed := expired, [], {};
      ghost var n := |expired|;
      if applied {
        trace := [SagaProtocol.Reap(expired)];
        OneEvent(w, trace[0]);
        MarkedTasks(w, expired);
      }
      if !marked {
        if applied {
          ghost var drops := AbandonAll(k, n);
          RunAppend(w, trace, drops);
          trace := trace + drops;
          assert trace[1..] == drops;
        }
        return false, rows, failed, trace;
      }
      if |expired| == 0 {
        NothingToReap(w);
        trace := [];
        return true, rows, failed, trace;
      }
      ghost var tail;
      failed, tail := RunBatch(k, expired, snapshots);
      RunAppend(w, trace, tail);
      trace := trace + tail;
      assert trace[1..] == tail;
      return true, rows, failed, trace;
    }

    /** The second loop of the pass. */
    method RunBatch(ghost k: nat, expired: seq<nat>, snapshots: seq<Saga>)
      returns (ghost failed: set<nat>, ghost trace: seq<Event>)
      requires orchestrator.db.Valid() && |snapshots| == |expired|
      requires forall j :: k <= j < k + |expired| ==>
        && j in orchestrator.db.tasks
        && orchestrator.db.tasks[j] == Compensation(expired[j - k], snapshots[j - k], DeadlineReason)
      modifies orchestrator.db
      ensures orchestrator.db.Valid() && orchestrator.db.W() == Run(old(orchestrator.db.W()), trace)
      ensures forall j: nat :: k <= j < k + |expired| ==> Handled(Own(trace, j), j, j in failed)
      ensures |failed| + old(orchestrator.db.faults) <= orchestrator.db.faults
      ensures orchestrator.db.calm ==> orchestrator.db.W() == CompensateAll(old(orchestrator.db.W()), k, |expired|)
    {
      hide Inv, Next, Enabled, Handled, CompensateFully, Own, Run;
      var db := orchestrator.db;
      ghost var (w, n) := (db.W(), |expired|);
      trace, failed := [], {};
      EmptyTrace(w);
      for i := 0 to |expired|
        invariant db.Valid() && db.W() == Run(w, trace)
        invariant forall j :: k + i <= j < k + n ==> j in db.tasks
        invariant forall j :: k + i <= j < k + n ==>
          db.tasks[j] == Compensation(expired[j - k], snapshots[j - k], DeadlineReason)
        invariant forall j: nat :: k + i <= j < k + n ==> Own(trace, j) == []
        invariant forall j: nat :: k <= j < k + i ==> Handled(Own(trace, j), j, j in failed)
        invariant |failed| + old(orchestrator.db.faults) <= db.faults && forall j :: j in failed ==> j < k + i
        invariant db.calm ==> CompensateAll(db.W(), k + i, n - i) == CompensateAll(w, k, n)
      {
        ghost var before := trace;
        ghost var fault, more := RunNext(k, n, k + i, expired[i], snapshots[i], before);
        failed := if fault then failed + {k + i} else failed;
        RunAppend(w, before, more);
        trace := before + more;
      }
    }

    /** One round of that loop, after whatever others did since the last. */
    method RunNext(ghost k: nat, ghost n: nat, ghost j: nat, row: nat, saga: Saga, ghost before: seq<Event>)
      returns (ghost fault: bool, ghost more: seq<Event>)
      requires orchestrator.db.Valid() && k <= j < k + n && j in orchestrator.db.tasks
      requires orchestrator.db.tasks[j] == Compensation(row, saga, DeadlineReason) && Own(before, j) == []
      modifies orchestrator.db
      ensures orchestrator.db.Valid() && orchestrator.db.W() == Run(old(orchestrator.db.W()), more)
      ensures Handled(Own(before + more, j), j, fault)
      ensures orchestrator.db.faults == old(orchestrator.db.faults) + (if fault then 1 else 0)
      ensures forall i: nat :: k <= i < k + n && i != j ==> Own(before + more, i) == Own(before, i)
      ensures forall i: nat :: k <= i < k + n && i != j && i in old(orchestrator.db.tasks) ==>
        i in orchestrator.db.tasks && orchestrator.db.tasks[i] == old(orchestrator.db.tasks)[i]
      ensures orchestrator.db.calm ==> orchestrator.db.W() == CompensateFully(old(orchestrator.db.W()), j)
    {
      hide Inv, Next, Enabled, Handled, CompensateFully, Run;
      ghost var (w, batch) := (orchestrator.db.W(), Batch(k, n));
      ghost var env := orchestrator.db.Yield(batch);
      var err, rest := orchestrator.RunCompensation(j, row, saga, DeadlineReason, batch - {j});
      RunAppend(w, env, rest);
      more := env + rest;
      fault := err == Failure;
      ResultHandled(err, rest, j);
      assert before + more == before + env + rest;
      forall i: nat | k <= i < k + n
        ensures Own(before + more, i) == if i == j then Own(rest, i) else Own(before, i)
      {
        OwnAfter(before, env, rest, k, n, j, i);
      }
    }

    /** After a mark whose commit was not acknowledged nobody runs the compensations. */
    ghost method AbandonAll(k: nat, n: nat) returns (drops: seq<Event>)
      requires orchestrator.db.Valid()
      modifies orchestrator.db`tasks
      ensures orchestrator.db.Valid() && orchestrator.db.W() == Run(old(orchestrator.db.W()), drops)
      ensures forall j: nat :: Own(drops, j) == if k <= j < k + n then [Drop(j)] else []
      decreases n
    {
      hide Inv, Next;
      drops := [];
      if n > 0 {
        ghost var w := orchestrator.db.W();
        orchestrator.db.Abandon(k + n - 1);
        drops := AbandonAll(k, n - 1);
        assert ([Drop(k + n - 1)] + drops)[1..] == drops;
        drops := [Drop(k + n - 1)] + drops;
      }
    }
  }

  lemma MarkedTasks(w: World, rows: seq<nat>)
    requires Enabled(w, SagaProtocol.Reap(rows))
    ensures forall r :: r in rows ==> r in w.t.sagas
    ensures forall j :: w.nextTask <= j < w.nextTask + |rows| ==>
      && j in Next(w, SagaProtocol.Reap(rows)).tasks
      && Next(w, SagaProtocol.Reap(rows)).tasks[j] ==
           Compensation(rows[j - w.nextTask], Snapshots(w.t, rows)[j - w.nextTask], DeadlineReason)
  {
    MarkAllSnapshots(w, rows);
  }

  lemma ResultHandled(err: Err, own: seq<Event>, k: nat)
    requires err == Ok ==> Compensated(Own(own, k), k)
    requires err == Failure ==> NotCompensated(Own(own, k), k)
    requires err == Ok || err == Failure
    ensures Handled(Own(own, k), k, err == Failure)
  {
  }

  lemma NothingToReap(w: World)
    ensures ReapPass(w, []) == w
  {
    assert MarkAll(w, []) == w;
  }

  lemma OwnAfter(tail: seq<Event>, env: seq<Event>, more: seq<Event>, k: nat, n: nat, i: nat, j: nat)
    requires k <= j < k + n && k <= i < k + n
    requires Foreign(env, Batch(k, n)) && Foreign(more, Batch(k, n) - {i})
    requires Own(tail, i) == []
    ensures Own(tail + env + more, j) == if j == i then Own(more, j) else Own(tail, j)
  {
    OwnAppend(tail + env, more, j);
    OwnAppend(tail, env, j);
    OwnForeign(env, Batch(k, n), j);
    if j != i {
      OwnForeign(more, Batch(k, n) - {i}, j);
    }
  }
}
