/**
 The saga orchestrator and the reaper. The contracts say which protocol events each handler performs, in which
 order, with the events of everybody else in between.
 */
module SagaOrchestrator {
  import opened Prelude
  import opened SubscriptionTables
  import opened SagaProtocol
  import opened SagaSafety
  import opened Interleaving
  import opened ReaperDrain
  import opened SubscriptionService
  import Outcomes

  /** What a compensation that returns no error did: it ran, and its cleanup went as far as it had to. */
  predicate Compensated(own: seq<Event>, k: nat) {
    || own == [Compensate(k)]
    || own == [Compensate(k), CleanupHasAny(k)]
    || own == [Compensate(k), CleanupHasAny(k), CleanupDeleteRepo(k)]
    || own == [Compensate(k), CleanupHasAny(k), Drop(k)]
    || own == [Compensate(k), Drop(k)]
  }

  /** What a compensation that returns an error did: nothing, or its one transaction with the answer lost. */
  predicate NotCompensated(own: seq<Event>, k: nat) {
    own == [Drop(k)] || own == [Compensate(k), Drop(k)]
  }

  lemma TablesUnderEvent(w: World, e: Event, ids: Sequences)
    requires Above(ids, w.t, w.h) && (e.Compensate? || e.EmailSent? || e.EmailFailed? || e.HandleConfirmed?
      || e.CleanupHasAny? || e.CleanupDeleteRepo? || e.Drop? || e.Confirm? || e.UnsubscribeFind? || e.UnsubscribeDelete?)
    requires Inv(w)
    ensures Above(ids, Next(w, e).t, Next(w, e).h) && Next(w, e).now == w.now
  {
    hide Inv;
    if Enabled(w, e) && e.Compensate? {
      CompensateState(w, e.task);
    }
  }

  class Orchestrator {
    const db: Database

    constructor (db: Database)
      ensures this.db == db
    {
      this.db := db;
    }

    /** EmailSent moves STARTED to AWAITING_CONFIRMATION and is a no-op in every other state. */
    method HandleEmailSent(sagaId: string) returns (err: Err, ghost row: nat)
      requires db.Valid()
      modifies db
      ensures db.Valid()
      ensures err == Ok || err == NotFound || err == Failure
      ensures err == Ok ==>
        && row in old(db.tables).sagas && old(db.tables).sagas[row].sagaId == sagaId
        && db.W() == Next(old(db.W()), EmailSent(row))
      ensures err == NotFound ==> db.W() == old(db.W()) && !DuplicateSagaId(db.tables, sagaId)
      ensures err == Failure ==> db.W() == old(db.W()) || db.W() == Next(old(db.W()), EmailSent(row))
      ensures db.calm ==> err != Failure
      ensures db.calm ==> (err == Ok <==> Outcomes.HasSaga(old(db.tables), sagaId))
      ensures db.calm && err == Ok ==> Outcomes.Sent(old(db.tables), db.tables, row)
    {
      hide Inv;
      row := 0;
      var tx := db.Begin();
      if tx == null {
        return Failure, row;
      }
      var e, r := tx.FindBySagaIDForUpdate(sagaId);
      row := r;
      if e != Ok {
        db.Rollback(tx);
        return e, row;
      }
      if tx.t.sagas[r].state != Started {
        db.Rollback(tx);
        return Ok, row;
      }
      var ok := tx.UpdateState(r, AwaitingConfirmation, None);
      if !ok {
        db.Rollback(tx);
        return Failure, row;
      }
      TablesUnderEvent(db.W(), EmailSent(r), db.ids);
      ok := db.Commit(tx, EmailSent(r));
      return if ok then Ok else Failure, row;
    }

    /** The has-any statement of the cleanup. */
    method HasSubscribers(ghost k: nat, repoId: nat) returns (ok: bool, has: bool)
      requires db.Valid() && k in db.tasks && db.tasks[k] == CleanupCheck(repoId)
      modifies db
      ensures db.Valid() && (db.calm ==> ok) && db.faults == old(db.faults)
      ensures ok ==> has == HasAny(old(db.tables), repoId) && db.W() == Next(old(db.W()), CleanupHasAny(k))
      ensures ok ==> db.tasks == if has then old(db.tasks) - {k} else old(db.tasks)[k := CleanupDelete(repoId)]
      ensures ok ==> db.tables == old(db.tables)
      ensures !ok ==> db.W() == Next(old(db.W()), Drop(k)) && db.tasks == old(db.tasks) - {k}
    {
      hide Inv;
      ok := db.Statement();
      has := false;
      if !ok {
        db.Abandon(k);
        return;
      }
      has := HasAny(db.tables, repoId);
      TablesUnderEvent(db.W(), CleanupHasAny(k), db.ids);
      db.Apply(db.tables, CleanupHasAny(k));
    }

    /** The DELETE of the cleanup; it reports whether the repository was still there, or its answer is lost. */
    method DeleteByID(ghost k: nat, repoId: nat) returns (ok: bool, found: bool)
      requires db.Valid() && k in db.tasks && db.tasks[k] == CleanupDelete(repoId)
      modifies db
      ensures db.Valid() && (db.calm ==> ok) && db.tasks == old(db.tasks) - {k} && db.faults == old(db.faults)
      ensures ok ==> db.W() == Next(old(db.W()), CleanupDeleteRepo(k)) && found == (repoId in old(db.tables).repos)
      ensures ok ==> db.tables == DeleteRepo(old(db.tables), repoId)
      ensures !ok ==> db.W() == Next(old(db.W()), Drop(k)) || db.W() == Next(old(db.W()), CleanupDeleteRepo(k))
    {
      hide Inv;
      ok := db.Statement();
      found := false;
      if !ok {
        db.Abandon(k);
        return;
      }
      found := repoId in db.tables.repos;
      TablesUnderEvent(db.W(), CleanupDeleteRepo(k), db.ids);
      db.Apply(DeleteRepo(db.tables, repoId), CleanupDeleteRepo(k));
      ok := db.Statement();
    }

    /**
     Check-then-delete of a repository without subscribers, in two statements. `keep` are tasks of the caller
     that must survive.
     */
    method DeleteIfOrphaned(ghost k: nat, repoId: nat, ghost keep: set<nat>) returns (err: Err, ghost trace: seq<Event>)
      requires db.Valid() && k in db.tasks && db.tasks[k] == CleanupCheck(repoId)
      requires k !in keep
      modifies db
      ensures db.Valid() && db.W() == Run(old(db.W()), trace) && Foreign(trace, keep) && db.faults == old(db.faults)
      ensures Own(trace, k) == [CleanupHasAny(k)] || Own(trace, k) == [CleanupHasAny(k), CleanupDeleteRepo(k)]
        || Own(trace, k) == [CleanupHasAny(k), Drop(k)] || Own(trace, k) == [Drop(k)]
      ensures forall j :: j in keep && j in old(db.tasks) ==> j in db.tasks && db.tasks[j] == old(db.tasks)[j]
      ensures err == Ok ==> Own(trace, k) == [CleanupHasAny(k)] || Own(trace, k) == [CleanupHasAny(k), CleanupDeleteRepo(k)]
      ensures err == Ok || err == NotFound || err == Failure
      ensures err != Ok ==> Own(trace, k) != [CleanupHasAny(k)]
      ensures db.calm ==> trace == if HasAny(old(db.tables), repoId) then [CleanupHasAny(k)]
                                   else [CleanupHasAny(k), CleanupDeleteRepo(k)]
      ensures db.calm ==> db.tables == old(db.tables).(repos := db.tables.repos)
      ensures db.calm ==> Outcomes.Tidied(old(db.tables), db.tables, repoId)
      ensures db.calm && repoId in old(db.tables).repos ==> err == Ok
    {
      hide Inv, Next, Enabled, HasAny, Above, Run, DeleteRepo, Outcomes.Tidied;
      EmptyTrace(db.W());
      var ok, has := HasSubscribers(k, repoId);
      trace := [if ok then CleanupHasAny(k) else Drop(k)];
      Extend(old(db.W()), [], trace[0], k, keep);
      assert [] + [trace[0]] == trace;
      ghost var t := db.tables;
      OrphanDeleted(t, repoId);
      if !ok || has {
        return if ok then Ok else Failure, trace;
      }
      ghost var env := db.Yield(keep + {k});
      ExtendForeign(old(db.W()), trace, env, k, keep);
      trace := trace + env;
      ghost var w1 := db.W();
      var deleted, found := DeleteByID(k, repoId);
      ghost var e := if db.W() == Next(w1, CleanupDeleteRepo(k)) then CleanupDeleteRepo(k) else Drop(k);
      Extend(old(db.W()), trace, e, k, keep);
      trace := trace + [e];
      return if !deleted then Failure else if found then Ok else NotFound, trace;
    }
  
    /** The transaction of `compensate`: delete the subscription if it is unconfirmed, and settle the saga. */
    method CompensateTx(ghost k: nat, row: nat, saga: Saga, reason: string) returns (ok: bool, deleted: bool)
      requires db.Valid() && k in db.tasks && db.tasks[k] == Compensation(row, saga, reason)
      modifies db
      ensures db.Valid() && (db.calm ==> ok) && db.faults == old(db.faults) + (if ok then 0 else 1)
      ensures ok ==> deleted == Unconfirmed(old(db.tables), saga.subId) && db.W() == Next(old(db.W()), Compensate(k))
      ensures ok ==> db.tasks == if deleted then old(db.tasks)[k := CleanupCheck(saga.repoId)] else old(db.tasks) - {k}
      ensures !ok ==> db.tasks == old(db.tasks) - {k}
      ensures !ok ==> db.W() == Next(old(db.W()), Drop(k)) || db.W() == Next(Next(old(db.W()), Compensate(k)), Drop(k))
    {
      hide Inv, Next;
      CompensateTables(db.W(), k);
      deleted := false;
      var tx := db.Begin();
      if tx == null {
        db.Abandon(k);
        return false, false;
      }
      ok, deleted := tx.DeleteUnconfirmedSubscription(saga.subId);
      if !ok {
        db.Rollback(tx);
        db.Abandon(k);
        return false, false;
      }
      if !deleted {
        ok := tx.UpdateState(row, Completed, None);
      } else {
        ok := tx.UpdateState(row, Failed, Some(reason));
      }
      if !ok {
        db.Rollback(tx);
        db.Abandon(k);
        return false, false;
      }
      TablesUnderEvent(db.W(), Compensate(k), db.ids);
      ok := db.Commit(tx, Compensate(k));
      if !ok {
        db.Abandon(k);
      }
    }

    /** The cleanup after a committed compensation, whose error is only logged. */
    method Cleanup(ghost k: nat, repoId: nat, ghost keep: set<nat>) returns (ghost trace: seq<Event>)
      requires db.Valid() && k in db.tasks && db.tasks[k] == CleanupCheck(repoId) && k !in keep
      modifies db
      ensures db.Valid() && db.W() == Run(old(db.W()), trace) && Foreign(trace, keep) && db.faults == old(db.faults)
      ensures forall j :: j in keep && j in old(db.tasks) ==> j in db.tasks && db.tasks[j] == old(db.tasks)[j]
      ensures Compensated([Compensate(k)] + Own(trace, k), k)
      ensures db.calm ==> db.W() == CleanupFully(old(db.W()), k)
    {
      hide Inv, Next, Enabled, HasAny, Run, Own, CleanupFully;
      ghost var w := db.W();
      EmptyTrace(w);
      ghost var env := db.Yield(keep + {k});
      ExtendForeign(w, [], env, k, keep);
      assert [] + env == env;
      ghost var w1 := db.W();
      var err, more := DeleteIfOrphaned(k, repoId, keep);
      RunAppend(w, env, more);
      OwnAppend(env, more, k);
      trace := env + more;
      assert [] + Own(more, k) == Own(more, k);
      if db.calm {
        CalmCleanup(w1, db.W(), k, more, repoId);
      }
    }

    /**
     `compensate`: the transaction above, then the orphan cleanup. The first transaction decides the result, and it
     fails only if the database fails it; everybody else may run before the cleanup and between its statements.
     */
    method RunCompensation(ghost k: nat, row: nat, saga: Saga, reason: string, ghost keep: set<nat>)
      returns (err: Err, ghost trace: seq<Event>)
      requires db.Valid() && k in db.tasks && db.tasks[k] == Compensation(row, saga, reason)
      requires k !in keep
      modifies db
      ensures db.Valid() && db.W() == Run(old(db.W()), trace) && Foreign(trace, keep)
      ensures forall j :: j in keep && j in old(db.tasks) ==> j in db.tasks && db.tasks[j] == old(db.tasks)[j]
      ensures err == Ok || err == Failure
      ensures err == Ok ==> |trace| > 0 && trace[0] == Compensate(k) && Compensated(Own(trace, k), k)
      ensures err == Failure ==> NotCompensated(Own(trace, k), k)
      ensures db.faults == old(db.faults) + (if err == Failure then 1 else 0)
      ensures db.calm ==> err == Ok && db.W() == CompensateFully(old(db.W()), k)
    {
      hide Inv, Next, Enabled, Unconfirmed, Run, Own, Compensated, CleanupFully;
      ghost var w := db.W();
      var ok, deleted := CompensateTx(k, row, saga, reason);
      ShortTraces(w, k, keep);
      if !ok {
        trace := if db.W() == Next(w, Drop(k)) then [Drop(k)] else [Compensate(k), Drop(k)];
        return Failure, trace;
      }
      trace := [Compensate(k)];
      if !deleted {
        NoCleanup(db.W(), k);
        return Ok, trace;
      }
      ghost var more := Cleanup(k, saga.repoId, keep);
      RunAppend(w, trace, more);
      OwnAppend(trace, more, k);
      trace := trace + more;
      return Ok, trace;
    }

    /** The transaction of `HandleEmailFailed` that marks the saga COMPENSATING. */
    method MarkFailed(sagaId: string, reason: string) returns (err: Err, active: bool, row: nat, saga: Saga, ghost marked: bool)
      requires db.Valid()
      modifies db
      ensures db.Valid()
      ensures err == Ok || err == NotFound || err == Failure
      ensures err == NotFound ==> !DuplicateSagaId(old(db.tables), sagaId)
      ensures marked || err == Ok ==> row in old(db.tables).sagas && old(db.tables).sagas[row] == saga && saga.sagaId == sagaId
      ensures err == Ok ==> active == Active(saga.state) == marked
      ensures marked ==> Active(saga.state) && db.W() == Next(old(db.W()), EmailFailed(row, reason))
      ensures marked ==> db.tasks == old(db.tasks)[old(db.nextTask) := Compensation(row, saga, reason)]
      ensures !marked ==> db.W() == old(db.W())
      ensures db.calm ==> err != Failure
      ensures db.calm ==> (err == Ok <==> Outcomes.HasSaga(old(db.tables), sagaId))
      ensures marked ==> db.tables == old(db.tables).(
        sagas := old(db.tables).sagas[row := saga.(state := Compensating, lastError := Some(reason))])
    {
      hide Inv;
      row, active, marked, saga := 0, false, false, Saga("", 0, 0, "", Started, 0, None);
      var tx := db.Begin();
      if tx == null {
        return Failure, active, row, saga, marked;
      }
      var e, r := tx.FindBySagaIDForUpdate(sagaId);
      row := r;
      if e != Ok {
        db.Rollback(tx);
        return e, active, row, saga, marked;
      }
      saga := tx.t.sagas[row];
      if saga.state != Started && saga.state != AwaitingConfirmation {
        db.Rollback(tx);
        return Ok, active, row, saga, marked;
      }
      active := true;
      var ok := tx.UpdateState(row, Compensating, Some(reason));
      if !ok {
        db.Rollback(tx);
        return Failure, active, row, saga, marked;
      }
      TablesUnderEvent(db.W(), EmailFailed(row, reason), db.ids);
      ghost var w := db.W();
      ok := db.Commit(tx, EmailFailed(row, reason));
      // a commit whose answer was lost may have marked the saga although an error is returned
      marked := db.W() != w;
      return if ok then Ok else Failure, active, row, saga, marked;
    }

    /**
     EmailFailed: mark an active saga COMPENSATING, then compensate it in a second transaction. If the first
     commit reports an error the compensation is not run, even if the mark was in fact written.
     */
    method HandleEmailFailed(sagaId: string, reason: string) returns (err: Err, row: nat, ghost trace: seq<Event>)
      requires db.Valid()
      modifies db
      ensures db.Valid() && db.W() == Run(old(db.W()), trace)
      ensures err == Ok || err == NotFound || err == Failure
      ensures err == NotFound ==> trace == [] && !DuplicateSagaId(old(db.tables), sagaId)
      ensures err == Ok || trace != [] ==> row in old(db.tables).sagas && old(db.tables).sagas[row].sagaId == sagaId
      ensures err == Ok ==> (trace == [] <==> !Active(old(db.tables).sagas[row].state))
      ensures trace != [] ==> Active(old(db.tables).sagas[row].state) && trace[0] == EmailFailed(row, reason)
      ensures err == Ok && trace != [] ==> Compensated(Own(trace[1..], old(db.nextTask)), old(db.nextTask))
      ensures err == Failure && trace != [] ==> NotCompensated(Own(trace[1..], old(db.nextTask)), old(db.nextTask))
      ensures db.calm ==> err != Failure
      ensures db.calm ==> (err == Ok <==> Outcomes.HasSaga(old(db.tables), sagaId))
      ensures db.calm && err == Ok ==> Outcomes.NotSent(old(db.tables), db.tables, row, reason)
    {
      hide Inv, Next, Enabled, Run, Own;
      ghost var (w, k) := (db.W(), db.nextTask);
      EmptyTrace(w);
      trace := [];
      var e, active, r, saga, marked := MarkFailed(sagaId, reason);
      row := r;
      if marked {
        OneEvent(w, EmailFailed(row, reason));
        trace := [EmailFailed(row, reason)];
      }
      if e != Ok {
        if marked {
          trace := LoseMark(w, trace, k);
        }
        return e, row, trace;
      }
      if !active {
        return Ok, row, trace;
      }
      ghost var rest;
      err, rest := CompensateMarked(k, row, saga, reason);
      RunAppend(w, trace, rest);
      trace := trace + rest;
      assert trace[1..] == rest;
    }

    /** The commit of the mark was not heard: its compensation is not started. */
    ghost method LoseMark(w: World, trace: seq<Event>, k: nat) returns (lost: seq<Event>)
      requires db.Valid() && db.W() == Run(w, trace) && |trace| == 1 && Foreign(trace, {})
      modifies db`tasks
      ensures db.Valid() && db.W() == Run(w, lost)
      ensures lost == trace + [Drop(k)] && NotCompensated(Own(lost[1..], k), k)
    {
      hide Inv, Next, Run, Own;
      db.Abandon(k);
      Extend(w, trace, Drop(k), k, {});
      ShortTraces(w, k, {});
      lost := trace + [Drop(k)];
      assert lost[1..] == [Drop(k)];
    }

    method CompensateMarked(ghost k: nat, row: nat, saga: Saga, reason: string)
      returns (err: Err, ghost trace: seq<Event>)
      requires db.Valid() && k in db.tasks && db.tasks[k] == Compensation(row, saga, reason)
      modifies db
      ensures db.Valid() && db.W() == Run(old(db.W()), trace)
      ensures err == Ok || err == Failure
      ensures err == Ok ==> Compensated(Own(trace, k), k)
      ensures err == Failure ==> NotCompensated(Own(trace, k), k)
      ensures db.calm ==> err == Ok && Outcomes.Undone(old(db.tables), db.tables, row, reason)
    {
      hide Inv, Next, Enabled, Run, Own, Compensated, NotCompensated;
      ghost var w := db.W();
      CompensatedTables(w, k);
      hide CompensateFully;
      ghost var env := db.Yield({k});
      ghost var more;
      err, more := RunCompensation(k, row, saga, reason, {});
      RunAppend(w, env, more);
      OwnAppend(env, more, k);
      OwnForeign(env, {k}, k);
      assert [] + Own(more, k) == Own(more, k);
      trace := env + more;
    }

    /** Completes the saga of a confirmed subscription unless it is already terminal. */
    method HandleConfirmed(ghost k: nat, subId: nat) returns (err: Err, ghost row: nat)
      requires db.Valid() && k in db.tasks && db.tasks[k] == ConfirmCommitted(subId)
      modifies db
      ensures db.Valid() && k !in db.tasks
      ensures err == Ok || err == Failure
      ensures err == Ok ==>
        || (row in old(db.tables).sagas && old(db.tables).sagas[row].subId == subId
            && db.W() == Next(old(db.W()), SagaProtocol.HandleConfirmed(k, row)))
        || ((forall r :: r in old(db.tables).sagas ==> old(db.tables).sagas[r].subId != subId)
            && db.W() == Next(old(db.W()), Drop(k)))
      ensures err == Failure ==>
        db.W() == Next(old(db.W()), Drop(k)) || db.W() == Next(old(db.W()), SagaProtocol.HandleConfirmed(k, row))
      ensures db.calm ==> err == Ok
      ensures db.calm ==> if exists r :: r in old(db.tables).sagas && old(db.tables).sagas[r].subId == subId
        then Outcomes.Concluded(old(db.tables), db.tables, subId, row) else db.tables == old(db.tables)
    {
      hide Inv, Next, Above;
      row := 0;
      var tx := db.Begin();
      if tx == null {
        db.Abandon(k);
        return Failure, row;
      }
      var e, r := tx.FindBySubscriptionIDForUpdate(subId);
      row := r;
      if e != Ok {
        db.Rollback(tx);
        db.Abandon(k);
        return if e == NotFound then Ok else Failure, row;
      }
      TablesUnderEvent(db.W(), SagaProtocol.HandleConfirmed(k, r), db.ids);
      ConfirmedTables(db.W(), k, r);
      if tx.t.sagas[r].state == Completed || tx.t.sagas[r].state == Failed {
        db.Rollback(tx);
        db.Apply(db.tables, SagaProtocol.HandleConfirmed(k, r));
        return Ok, row;
      }
      var ok := tx.UpdateState(r, Completed, None);
      if !ok {
        db.Rollback(tx);
        db.Abandon(k);
        return Failure, row;
      }
      ghost var w := db.W();
      ok := db.Commit(tx, SagaProtocol.HandleConfirmed(k, r));
      if !ok {
        if db.W() == w {
          db.Abandon(k);
        }
        return Failure, row;
      }
      return Ok, row;
    }
  }

  lemma ConfirmedTables(w: World, k: nat, r: nat)
    requires k in w.tasks && w.tasks[k].ConfirmCommitted? && r in w.t.sagas && w.t.sagas[r].subId == w.tasks[k].subId
    ensures var w' := Next(w, SagaProtocol.HandleConfirmed(k, r));
      && w' != w && w'.tasks == w.tasks - {k}
      && w'.t == (if Terminal(w.t.sagas[r].state) then w.t else SetState(w.t, r, Completed, None))
  {
  }

  lemma OrphanDeleted(t: Tables, repoId: nat)
    ensures HasAny(t, repoId) ==> Outcomes.Tidied(t, t, repoId)
    ensures !HasAny(t, repoId) ==>
      var t' := DeleteRepo(t, repoId); t' == t.(repos := t'.repos) && Outcomes.Tidied(t, t', repoId)
  {
    if !HasAny(t, repoId) {
      assert DeleteRepo(t, repoId).subs == t.subs;
    }
  }

  lemma ShortTraces(w: World, k: nat, keep: set<nat>)
    requires k !in keep
    ensures Compensated([Compensate(k)], k) && NotCompensated([Drop(k)], k) && NotCompensated([Compensate(k), Drop(k)], k)
    ensures Run(w, [Drop(k)]) == Next(w, Drop(k)) && Run(w, [Compensate(k)]) == Next(w, Compensate(k))
    ensures Run(w, [Compensate(k), Drop(k)]) == Next(Next(w, Compensate(k)), Drop(k))
    ensures Own([Drop(k)], k) == [Drop(k)] && Own([Compensate(k)], k) == [Compensate(k)]
    ensures Own([Compensate(k), Drop(k)], k) == [Compensate(k), Drop(k)]
    ensures Foreign([Drop(k)], keep) && Foreign([Compensate(k)], keep) && Foreign([Compensate(k), Drop(k)], keep)
  {
    hide Next;
    Extend(w, [], Drop(k), k, keep);
    Extend(w, [], Compensate(k), k, keep);
    Extend(w, [Compensate(k)], Drop(k), k, keep);
    assert [] + [Drop(k)] == [Drop(k)] && [] + [Compensate(k)] == [Compensate(k)];
    assert [Compensate(k)] + [Drop(k)] == [Compensate(k), Drop(k)];
  }

  lemma NoCleanup(w: World, k: nat)
    requires k !in w.tasks
    ensures CleanupFully(w, k) == w
  {
  }

  /** Undisturbed, the two statements of the cleanup are what `CleanupFully` says. */
  lemma CalmCleanup(w: World, w': World, k: nat, more: seq<Event>, repoId: nat)
    requires k in w.tasks && w.tasks[k] == CleanupCheck(repoId) && w' == Run(w, more)
    requires more == if HasAny(w.t, repoId) then [CleanupHasAny(k)] else [CleanupHasAny(k), CleanupDeleteRepo(k)]
    ensures w' == CleanupFully(w, k)
  {
    hide HasAny;
    OneEvent(w, CleanupHasAny(k));
    RunTwo(w, CleanupHasAny(k), CleanupDeleteRepo(k));
  }
}
