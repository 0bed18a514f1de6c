/**
 The subscription service as code: transactions on a private copy of the tables that are published on commit,
 statements that may fail, and other replicas and requests running between two transactions of one operation.
 Every method is proved to perform exactly the protocol events it names, whatever fails or interferes.
 */
module SubscriptionService {
  import opened Prelude
  import opened SubscriptionTables
  import opened SagaProtocol
  import opened Interleaving

  /** An open transaction. A failed statement aborts it; nothing it did is visible before the commit. */
  class Tx {
    var t: Tables
    var aborted: bool
    const calm: bool   // nothing fails and nothing interferes

    constructor (t: Tables, calm: bool)
      ensures this.t == t && !aborted && this.calm == calm
    {
      this.t, this.aborted, this.calm := t, false, calm;
    }

    /** Whether the next statement fails: always in an aborted transaction, otherwise arbitrarily. */
    method Flaky() returns (ok: bool)
      modifies this
      ensures t == old(t) && aborted == !ok
      ensures old(aborted) ==> !ok
      ensures calm && !old(aborted) ==> ok
    {
      var fails := *;
      aborted := aborted || (fails && !calm);
      ok := !aborted;
    }

    method UpdateState(row: nat, state: State, lastError: Option<string>) returns (ok: bool)
      modifies this
      ensures aborted == !ok && (old(aborted) ==> !ok) && (calm && !old(aborted) ==> ok)
      ensures t == if ok then SetState(old(t), row, state, lastError) else old(t)
    {
      ok := Flaky();
      if ok {
        t := SetState(t, row, state, lastError);
      }
    }

    method DeleteUnconfirmedSubscription(subId: nat) returns (ok: bool, deleted: bool)
      modifies this
      ensures aborted == !ok && (old(aborted) ==> !ok) && (calm && !old(aborted) ==> ok)
      ensures t == if ok then DeleteUnconfirmed(old(t), subId) else old(t)
      ensures ok ==> deleted == Unconfirmed(old(t), subId)
    {
      deleted := false;
      ok := Flaky();
      if ok {
        deleted := Unconfirmed(t, subId);
        t := DeleteUnconfirmed(t, subId);
      }
    }

    method FindBySagaIDForUpdate(sagaId: string) returns (err: Err, row: nat)
      modifies this
      ensures t == old(t)
      ensures err == Ok || err == NotFound || err == Failure
      ensures aborted == (err == Failure)
      ensures err == Ok ==> row in t.sagas && t.sagas[row].sagaId == sagaId
      ensures err == NotFound ==> !DuplicateSagaId(t, sagaId)
      ensures calm && !old(aborted) ==> err != Failure
    {
      row := 0;
      var ok := Flaky();
      if !ok {
        return Failure, 0;
      }
      if r :| r in t.sagas && t.sagas[r].sagaId == sagaId {
        return Ok, r;
      }
      return NotFound, 0;
    }

    method FindBySubscriptionIDForUpdate(subId: nat) returns (err: Err, row: nat)
      modifies this
      ensures t == old(t)
      ensures err == Ok || err == NotFound || err == Failure
      ensures aborted == (err == Failure)
      ensures err == Ok ==> row in t.sagas && t.sagas[row].subId == subId
      ensures err == NotFound ==> forall r :: r in t.sagas ==> t.sagas[r].subId != subId
      ensures calm && !old(aborted) ==> err != Failure
    {
      row := 0;
      var ok := Flaky();
      if !ok {
        return Failure, 0;
      }
      if r :| r in t.sagas && t.sagas[r].subId == subId {
        return Ok, r;
      }
      return NotFound, 0;
    }

    /** Up to `limit` expired rows; SKIP LOCKED passes over the ones another transaction holds. */
    method FindExpiredForUpdate(now: nat, limit: nat) returns (ok: bool, result: seq<nat>)
      modifies this
      ensures t == old(t) && aborted == !ok && (calm && !old(aborted) ==> ok)
      ensures ok ==> |result| <= limit && Distinct(result) && forall r :: r in result ==> Expired(t, now, r)
      ensures ok && calm ==>
        var n := |set r | r in t.sagas && Expired(t, now, r)|;
        |result| == if n < limit then n else limit
    {
      result := [];
      ok := Flaky();
      if !ok {
        return;
      }
      var all := set r | r in t.sagas && Expired(t, now, r);
      var left := all;
      while left != {} && |result| < limit
        invariant left <= all && Distinct(result) && |result| <= limit
        invariant forall r :: r in result ==> r in all && r !in left
        invariant calm ==> |result| + |left| == |all|
        decreases left
      {
        var r :| r in left;
        left := left - {r};
        var locked := *;
        if calm || !locked {
          result := result + [r];
        }
      }
    }

    /** INSERT INTO subscriptions, with its unique and foreign keys. */
    method CreateSubscription(sub: Sub, id: nat) returns (err: Err)
      requires id !in t.subs
      modifies this
      ensures aborted == (err != Ok) && (old(aborted) ==> err == Failure)
      ensures t == if err == Ok then old(t).(subs := old(t).subs[id := sub]) else old(t)
      ensures err == Ok ==>
        sub.repoId in old(t).repos && !DuplicateSubscription(old(t), sub) && !DuplicateToken(old(t), sub)
      ensures err == AlreadyExists ==> DuplicateSubscription(old(t), sub)
      ensures err == TokenConflict ==> DuplicateToken(old(t), sub)
      ensures err == Ok || err == AlreadyExists || err == TokenConflict || err == Failure
      ensures calm && !old(aborted) && sub.repoId in old(t).repos ==>
        && err != Failure
        && (DuplicateSubscription(old(t), sub) && !DuplicateToken(old(t), sub) ==> err == AlreadyExists)
        && (DuplicateToken(old(t), sub) && !DuplicateSubscription(old(t), sub) ==> err == TokenConflict)
    {
      var ok := Flaky();
      if !ok || sub.repoId !in t.repos {
        aborted := true;
        return Failure;
      }
      // which violated key the database reports first is up to the database
      var tokenFirst := *;
      if DuplicateToken(t, sub) && (tokenFirst || !DuplicateSubscription(t, sub)) {
        aborted := true;
        return TokenConflict;
      }
      if DuplicateSubscription(t, sub) {
        aborted := true;
        return AlreadyExists;
      }
      t := t.(subs := t.subs[id := sub]);
      return Ok;
    }

    method InsertSaga(row: nat, g: Saga) returns (ok: bool)
      modifies this
      ensures aborted == !ok && (old(aborted) ==> !ok)
      ensures ok ==> !DuplicateSagaId(old(t), g.sagaId)
      ensures calm && !old(aborted) && !DuplicateSagaId(old(t), g.sagaId) ==> ok
      ensures t == if ok then old(t).(sagas := old(t).sagas[row := g]) else old(t)
    {
      ok := Flaky();
      if ok {
        if DuplicateSagaId(t, g.sagaId) {
          aborted, ok := true, false;
        } else {
          t := t.(sagas := t.sagas[row := g]);
        }
      }
    }

    method EnqueueOutbox(id: nat, payload: Payload) returns (ok: bool)
      modifies this
      ensures aborted == !ok && (old(aborted) ==> !ok) && (calm && !old(aborted) ==> ok)
      ensures t == if ok then InsertOutbox(old(t), id, payload) else old(t)
    {
      ok := Flaky();
      if ok {
        t := InsertOutbox(t, id, payload);
      }
    }

    method UpdateLastSeenTag(repoId: nat, tag: string) returns (ok: bool)
      modifies this
      ensures aborted == !ok && (old(aborted) ==> !ok) && (calm && !old(aborted) ==> ok)
      ensures t == if ok then SetLastSeenTag(old(t), repoId, tag) else old(t)
    {
      ok := Flaky();
      if ok {
        t := SetLastSeenTag(t, repoId, tag);
      }
    }
  }

  /** The id sequences of the four tables. They are not transactional: an id once drawn is never drawn again. */
  datatype Sequences = Sequences(repo: nat, sub: nat, saga: nat, outbox: nat)

  ghost predicate Above(ids: Sequences, t: Tables, h: History) {
    && (forall r :: r in h.named ==> r < ids.repo)
    && (forall s :: s in h.created ==> s < ids.sub)
    && (forall r :: r in t.sagas ==> r < ids.saga)
    && (forall o :: o in t.outbox ==> o < ids.outbox)
  }

  class Database {
    var tables: Tables
    var ids: Sequences
    var now: nat
    ghost var tasks: map<nat, Task>
    ghost var nextTask: nat
    ghost var h: History
    ghost var faults: nat      // transactions of this process that the database did not carry through
    const calm: bool

    ghost function W(): World
      reads this
    {
      World(tables, now, tasks, nextTask, h)
    }

    ghost predicate Valid()
      reads this
    {
      Inv(W()) && Above(ids, tables, h)
    }

    constructor (calm: bool)
      ensures Valid() && W() == Init && this.calm == calm
    {
      tables, now, tasks, nextTask, h := EmptyTables, 0, map[], 0, EmptyHistory;
      ids := Sequences(1, 1, 1, 1);
      faults := 0;
      this.calm := calm;
      new;
      InitInv();
    }

    /** Between two transactions any other events may happen; they cannot continue the tasks `mine`. */
    method Yield(ghost mine: set<nat>) returns (ghost env: seq<Event>)
      requires Valid()
      modifies this
      ensures Valid() && W() == Run(old(W()), env) && Foreign(env, mine)
      ensures forall k :: k in mine && k in old(tasks) ==> k in tasks && tasks[k] == old(tasks)[k]
      ensures nextTask >= old(nextTask) && faults == old(faults)
      ensures calm ==> env == [] && W() == old(W())
    {
      env := [];
      forall k | k in mine && k in tasks ensures k in Run(W(), env).tasks && Run(W(), env).tasks[k] == tasks[k] {
        ForeignRunKeepsTask(W(), env, mine, k);
      }
    }

    method Begin() returns (tx: Tx?)
      modifies this`faults
      ensures faults == old(faults) + (if tx == null then 1 else 0)
      ensures tx != null ==> fresh(tx) && tx.t == tables && !tx.aborted && tx.calm == calm
      ensures calm ==> tx != null
    {
      var fails := *;
      if fails && !calm {
        faults := faults + 1;
        return null;
      }
      tx := new Tx(tables, calm);
    }

    /** The deferred rollback of a transaction that was not committed; it is a fault if a statement of it failed. */
    method Rollback(tx: Tx)
      modifies this`faults
      ensures faults == old(faults) + (if tx.aborted then 1 else 0)
    {
      faults := faults + (if tx.aborted then 1 else 0);
    }

    /**
     COMMIT of the transaction whose effect is the event `e`. An aborted transaction rolls back. A failed commit
     may have been applied or not: the connection can be lost before the answer arrives.
     */
    method Commit(tx: Tx, ghost e: Event) returns (ok: bool)
      requires Valid() && !tx.aborted ==> tx.t == Next(W(), e).t
      requires Valid() && tx.calm == calm
      requires Above(ids, Next(W(), e).t, Next(W(), e).h) && Next(W(), e).now == now
      modifies this
      ensures Valid() && ids == old(ids) && faults == old(faults) + (if ok then 0 else 1)
      ensures ok ==> !tx.aborted && W() == Next(old(W()), e)
      ensures !ok ==> W() == old(W()) || W() == Next(old(W()), e)
      ensures tx.aborted ==> !ok && W() == old(W())
      ensures calm && !tx.aborted ==> ok
    {
      hide Inv, Next, Above;
      var applied, answered := *, *;
      ok := false;
      if !tx.aborted && (calm || applied) {
        Apply(tx.t, e);
        ok := calm || answered;
      }
      if !ok {
        faults := faults + 1;
      }
    }

    /** The effect of one committed event: its tables, and in ghost state the tasks and the history. */
    method Apply(t: Tables, ghost e: Event)
      requires Valid() && t == Next(W(), e).t && Next(W(), e).now == now
      requires Above(ids, t, Next(W(), e).h)
      modifies this
      ensures Valid() && ids == old(ids) && faults == old(faults) && W() == Next(old(W()), e)
    {
      ghost var w' := Next(W(), e);
      EventKeepsInv(W(), e);
      tables := t;
      tasks, nextTask, h := w'.tasks, w'.nextTask, w'.h;
    }

    /** nextval: drawn ids are never drawn again, whether or not the row is ever committed. */
    method NextRepoId() returns (id: nat)
      requires Valid()
      modifies this`ids
      ensures Valid() && id !in h.named && ids == old(ids).(repo := id + 1) && id >= old(ids).repo
    {
      id := ids.repo;
      ids := ids.(repo := id + 1);
    }

    method NextSubscriptionIds() returns (sub: nat, row: nat, out: nat)
      requires Valid()
      modifies this`ids
      ensures Valid() && sub !in h.created && row !in tables.sagas && out !in tables.outbox
      ensures ids == old(ids).(sub := sub + 1, saga := row + 1, outbox := out + 1)
    {
      sub, row, out := ids.sub, ids.saga, ids.outbox;
      ids := ids.(sub := sub + 1, saga := row + 1, outbox := out + 1);
    }

    method NextOutboxId() returns (id: nat)
      requires Valid()
      modifies this`ids
      ensures Valid() && id !in tables.outbox && id == old(ids).outbox && ids == old(ids).(outbox := id + 1)
    {
      id := ids.outbox;
      ids := ids.(outbox := id + 1);
    }

    /** Whether an autocommit statement fails before it has any effect, or the answer to one that had its effect is lost. */
    method Statement() returns (ok: bool)
      ensures calm ==> ok
    {
      var fails := *;
      ok := calm || !fails;
    }

    /** The operation that owned the task is over. */
    ghost method Abandon(k: nat)
      requires Valid()
      modifies this`tasks
      ensures Valid() && W() == Next(old(W()), Drop(k)) && tasks == old(tasks) - {k}
    {
      EventKeepsInv(W(), Drop(k));
      tasks := Next(W(), Drop(k)).tasks;
    }
  }
}
