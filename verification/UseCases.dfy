/** The subscribe, confirm, unsubscribe and fan-out use cases, statement by statement. */
module SubscriptionUseCases {
  import opened Prelude
  import opened SubscriptionTables
  import opened SagaProtocol
  import opened SagaFrames
  import opened SagaSafety
  import opened SubscriptionFlows
  import opened Interleaving
  import opened SubscriptionService
  import opened SagaOrchestrator
  import Outcomes

  const MaxTokenAttempts := 5

  lemma ConfirmedSaga(w: World, s: nat, r: nat)
    requires Inv(w) && s in w.h.confirmed
    ensures exists q :: q in w.t.sagas && w.t.sagas[q].subId == s
    ensures r in w.t.sagas && w.t.sagas[r].subId == s ==> w.t.sagas[r].state != Failed
  {
    SagaExists(w.t.sagas, s, w.h);
    if r in w.t.sagas {
      FailedMatches(w.t.sagas, r, w.t.subs, w.h);
    }
  }

  lemma SagaExists(sagas: Sagas, s: nat, h: History)
    requires SagasOk(sagas, h.created, h.sagaOf) && CreatedOk(h.created, h.named, h.confirmed) && s in h.confirmed
    ensures exists q :: q in sagas && sagas[q].subId == s
  {
    assert h.sagaOf[s] in sagas;
  }

  lemma {:induction false} ConfirmedAfter(w: World, es: seq<Event>, s: nat)
    requires s in w.h.confirmed
    ensures s in Run(w, es).h.confirmed
  {
    ConfirmedForever(w, es);
  }

  lemma HandledState(w: World, k: nat, r: nat)
    requires Enabled(w, HandleConfirmed(k, r)) && w.t.sagas[r].state != Failed
    ensures var w' := Next(w, HandleConfirmed(k, r));
      && r in w'.t.sagas && w'.t.sagas[r].state == Completed && w'.t.sagas[r].subId == w.t.sagas[r].subId
      && w'.h == w.h
  {
  }

  class Confirm {
    const db: Database
    const orchestrator: Orchestrator

    constructor (orchestrator: Orchestrator)
      ensures this.orchestrator == orchestrator && db == orchestrator.db
    {
      this.orchestrator, db := orchestrator, orchestrator.db;
    }

    /** UPDATE ... WHERE confirmation_token: the first of the two transactions of a confirmation. */
    method ConfirmRow(token: string) returns (err: Err, subId: nat, ghost applied: bool)
      requires db.Valid()
      modifies db
      ensures db.Valid()
      ensures err == Ok || err == NotFound || err == Failure
      ensures err == Ok ==> applied
      ensures applied ==>
        && subId in old(db.tables).subs && old(db.tables).subs[subId].confirmToken == token
        && db.W() == Next(old(db.W()), SagaProtocol.Confirm(subId))
        && db.tasks == old(db.tasks)[old(db.nextTask) := ConfirmCommitted(subId)]
        && subId in db.h.confirmed
      ensures !applied ==> db.W() == old(db.W())
      ensures err == NotFound ==> !applied
      ensures err == NotFound ==> forall s :: s in old(db.tables).subs ==> old(db.tables).subs[s].confirmToken != token
      ensures db.calm ==> err == if Outcomes.HasConfirmToken(old(db.tables), token) then Ok else NotFound
      ensures applied ==> db.tables == old(db.tables).(
        subs := old(db.tables).subs[subId := old(db.tables).subs[subId].(confirmed := true)])
    {
      hide Inv;
      subId, applied := 0, false;
      var ok := db.Statement();
      if !ok {
        return Failure, subId, applied;
      }
      if s :| s in db.tables.subs && db.tables.subs[s].confirmToken == token {
        subId, applied := s, true;
        TablesUnderEvent(db.W(), SagaProtocol.Confirm(s), db.ids);
        db.Apply(ConfirmSub(db.tables, s), SagaProtocol.Confirm(s));
        var answered := db.Statement();
        return if answered then Ok else Failure, subId, applied;
      }
      return NotFound, subId, applied;
    }

    /**
     Confirm commits the subscription and then, in a second transaction, completes its saga. Whatever runs in
     between, a confirmation that returns no error leaves the saga COMPLETED, never FAILED.
     */
    method Execute(token: string) returns (err: Err, subId: nat, ghost row: nat, ghost trace: seq<Event>)
      requires db.Valid() && orchestrator.db == db
      modifies db
      ensures db.Valid() && db.W() == Run(old(db.W()), trace)
      ensures err == Ok || err == NotFound || err == Failure
      ensures err == NotFound ==> trace == []
      ensures err == NotFound ==> forall s :: s in old(db.tables).subs ==> old(db.tables).subs[s].confirmToken != token
      ensures trace != [] ==>
        && subId in old(db.tables).subs && old(db.tables).subs[subId].confirmToken == token
        && trace[0] == SagaProtocol.Confirm(subId)
      ensures err == Ok ==>
        && trace != [] && subId in db.h.confirmed
        && row in db.tables.sagas && db.tables.sagas[row].subId == subId && db.tables.sagas[row].state == Completed
        && Own(trace[1..], old(db.nextTask)) == [HandleConfirmed(old(db.nextTask), row)]
      ensures db.calm ==> err == if Outcomes.HasConfirmToken(old(db.tables), token) then Ok else NotFound
      ensures db.calm && err == Ok ==> Outcomes.Confirmed(old(db.tables), db.tables, subId, row)
      ensures err == NotFound ==> db.tables == old(db.tables)
    {
      hide Inv, Next, Enabled, Run, Own, Above, Touches;
      ghost var (w, k) := (db.W(), db.nextTask);
      EmptyTrace(w);
      row, trace := 0, [];
      var e, s, applied := ConfirmRow(token);
      subId := s;
      ghost var first := SagaProtocol.Confirm(subId);
      OneEvent(w, first);
      if e != Ok {
        if applied {
          RunTwo(w, first, Drop(k));
          db.Abandon(k);
          trace := [first, Drop(k)];
        }
        return e, subId, row, trace;
      }
      ghost var tail;
      err, row, tail := CompleteSaga(k, subId);
      RunAppend(w, [first], tail);
      trace := [first] + tail;
      assert trace[1..] == tail;
    }

    /** The second transaction of a confirmation, after whatever others did since the first. */
    method CompleteSaga(ghost k: nat, subId: nat) returns (err: Err, ghost row: nat, ghost trace: seq<Event>)
      requires db.Valid() && orchestrator.db == db
      requires k in db.tasks && db.tasks[k] == ConfirmCommitted(subId) && subId in db.h.confirmed
      modifies db
      ensures db.Valid() && db.W() == Run(old(db.W()), trace)
      ensures err == Ok || err == Failure
      ensures err == Ok ==>
        && subId in db.h.confirmed
        && row in db.tables.sagas && db.tables.sagas[row].subId == subId && db.tables.sagas[row].state == Completed
        && Own(trace, k) == [HandleConfirmed(k, row)]
      ensures db.calm ==> err == Ok && Outcomes.Concluded(old(db.tables), db.tables, subId, row)
    {
      hide Inv, Next, Enabled, Run, Own, Above, Touches;
      ghost var w := db.W();
      ghost var env := db.Yield({k});
      ConfirmedAfter(w, env, subId);
      ghost var w1 := db.W();
      err, row := orchestrator.HandleConfirmed(k, subId);
      if err == Ok {
        ConfirmedSaga(w1, subId, row);
        FinishOk(w1, k, subId, row, db.W());
      }
      ghost var last := if err == Failure && db.W() == Next(w1, Drop(k)) then Drop(k) else HandleConfirmed(k, row);
      RunLast(w, env, last);
      OwnConfirmed(env, k, row);
      trace := env + [last];
    }
  }

  lemma OwnConfirmed(env: seq<Event>, k: nat, row: nat)
    requires Foreign(env, {k})
    ensures Own(env + [HandleConfirmed(k, row)], k) == [HandleConfirmed(k, row)]
  {
    OwnSnoc(env, HandleConfirmed(k, row), k);
    OwnForeign(env, {k}, k);
  }

  class Unsubscribe {
    const db: Database
    const orchestrator: Orchestrator

    constructor (orchestrator: Orchestrator)
      ensures this.orchestrator == orchestrator && db == orchestrator.db
    {
      this.orchestrator, db := orchestrator, orchestrator.db;
    }

    method FindByToken(token: string) returns (err: Err, subId: nat, repoId: nat)
      requires db.Valid()
      modifies db
      ensures db.Valid()
      ensures err == Ok || err == NotFound || err == Failure
      ensures err == Ok ==>
        && subId in old(db.tables).subs && old(db.tables).subs[subId].unsubscribeToken == token
        && old(db.tables).subs[subId].repoId == repoId
        && db.W() == Next(old(db.W()), UnsubscribeFind(subId))
        && db.tasks == old(db.tasks)[old(db.nextTask) := UnsubscribeFound(token, repoId)]
      ensures err != Ok ==> db.W() == old(db.W())
      ensures err == NotFound ==> forall s :: s in old(db.tables).subs ==> old(db.tables).subs[s].unsubscribeToken != token
      ensures db.calm ==> err != Failure
      ensures db.tables == old(db.tables)
    {
      hide Inv;
      subId, repoId := 0, 0;
      var ok := db.Statement();
      if !ok {
        return Failure, subId, repoId;
      }
      if s :| s in db.tables.subs && db.tables.subs[s].unsubscribeToken == token {
        subId, repoId := s, db.tables.subs[s].repoId;
        TablesUnderEvent(db.W(), UnsubscribeFind(s), db.ids);
        db.Apply(db.tables, UnsubscribeFind(s));
        return Ok, subId, repoId;
      }
      return NotFound, subId, repoId;
    }

    method DeleteByToken(ghost k: nat, token: string, repoId: nat, ghost s: nat) returns (err: Err)
      requires db.Valid() && k in db.tasks && db.tasks[k] == UnsubscribeFound(token, repoId)
      modifies db
      ensures db.Valid()
      ensures err == Ok || err == NotFound || err == Failure
      ensures err != Failure ==> db.W() == Next(old(db.W()), UnsubscribeDelete(k))
      ensures err == Ok ==> db.tasks == old(db.tasks)[k := CleanupCheck(repoId)]
      ensures err == Ok ==> Outcomes.HasUnsubscribeToken(old(db.tables), token) && !Outcomes.HasUnsubscribeToken(db.tables, token)
      ensures err == Ok && s in old(db.tables).subs && old(db.tables).subs[s].unsubscribeToken == token ==>
        db.tables == old(db.tables).(subs := old(db.tables).subs - {s})
      ensures db.calm ==> err != Failure
      ensures err == NotFound ==> !Outcomes.HasUnsubscribeToken(old(db.tables), token)
      ensures err == Failure ==>
        db.W() == Next(old(db.W()), Drop(k)) || db.W() == Next(Next(old(db.W()), UnsubscribeDelete(k)), Drop(k))
    {
      OneTokenEach(db.W(), token, s);
      DeleteTables(db.W(), k, token, repoId);
      hide Inv, Next, Above;
      var ok := db.Statement();
      if !ok {
        db.Abandon(k);
        return Failure;
      }
      var found := Outcomes.HasUnsubscribeToken(db.tables, token);
      TablesUnderEvent(db.W(), UnsubscribeDelete(k), db.ids);
      db.Apply(if found then DeleteByUnsubscribeToken(db.tables, token) else db.tables, UnsubscribeDelete(k));
      var answered := db.Statement();
      if !answered {
        db.Abandon(k);
        return Failure;
      }
      return if found then Ok else NotFound;
    }

    /**
     Four statements, each its own transaction: find, delete, has-any, delete repository. Success means that this
     call found and deleted the subscription of the token; the second NotFound is another request that deleted it
     in between.
     */
    method Execute(token: string) returns (err: Err, subId: nat, ghost at: nat, ghost trace: seq<Event>)
      requires db.Valid() && orchestrator.db == db
      modifies db
      ensures db.Valid() && db.W() == Run(old(db.W()), trace)
      ensures trace != [] ==>
        && subId in old(db.tables).subs && old(db.tables).subs[subId].unsubscribeToken == token
        && trace[0] == UnsubscribeFind(subId)
      ensures err == Ok ==> 0 < at < |trace| && DeletesToken(old(db.W()), trace, at, old(db.nextTask), token)
      ensures var k := old(db.nextTask);
        err == Ok ==>
          || Own(trace[1..], k) == [UnsubscribeDelete(k), CleanupHasAny(k)]
          || Own(trace[1..], k) == [UnsubscribeDelete(k), CleanupHasAny(k), CleanupDeleteRepo(k)]
      ensures var k := old(db.nextTask); err != Ok && trace != [] ==> StoppedShort(Own(trace[1..], k), k)
      ensures err != Ok && trace == [] ==> err == Failure || (err == NotFound && !Outcomes.HasUnsubscribeToken(old(db.tables), token))
      ensures db.calm ==> err == if Outcomes.HasUnsubscribeToken(old(db.tables), token) then Ok else NotFound
      ensures db.calm && err == Ok ==> Outcomes.Unsubscribed(old(db.tables), db.tables, subId)
      ensures trace == [] ==> db.tables == old(db.tables)
    {
      hide Inv, Next, Enabled, Run, Own, DeletesToken, StoppedShort;
      ghost var (w, k) := (db.W(), db.nextTask);
      EmptyTrace(w);
      trace, at := [], 0;
      var e, s, repoId := FindByToken(token);
      subId := s;
      if e != Ok {
        return e, subId, at, trace;
      }
      OneEvent(w, UnsubscribeFind(s));
      ghost var w1 := db.W();
      ghost var tail;
      err, at, tail := DeleteFound(k, token, repoId, s);
      RunAppend(w, [UnsubscribeFind(s)], tail);
      if err == Ok {
        DeletesLater(w, UnsubscribeFind(s), tail, at, k, token);
      }
      at := at + 1;
      trace := [UnsubscribeFind(s)] + tail;
      assert trace[1..] == tail;
    }

    method DeleteFound(ghost k: nat, token: string, repoId: nat, ghost s: nat)
      returns (err: Err, ghost at: nat, ghost trace: seq<Event>)
      requires db.Valid() && k in db.tasks && db.tasks[k] == UnsubscribeFound(token, repoId) && orchestrator.db == db
      modifies db
      ensures db.Valid() && db.W() == Run(old(db.W()), trace)
      ensures err == Ok ==> at < |trace| && DeletesToken(old(db.W()), trace, at, k, token)
      ensures err == Ok || err == NotFound || err == Failure
      ensures err == Ok ==>
        || Own(trace, k) == [UnsubscribeDelete(k), CleanupHasAny(k)]
        || Own(trace, k) == [UnsubscribeDelete(k), CleanupHasAny(k), CleanupDeleteRepo(k)]
      ensures err != Ok ==> StoppedShort(Own(trace, k), k)
      ensures db.calm && Owns(old(db.tables), s, token, repoId) ==>
        err == Ok && Outcomes.Unsubscribed(old(db.tables), db.tables, s)
    {
      hide Inv, Next, Enabled, Run, Own, Above, Foreign, DeletesToken;
      ghost var w := db.W();
      ghost var env := db.Yield({k});
      EmptyTrace(w);
      ExtendForeign(w, [], env, k, {});
      assert [] + env == env;
      ghost var w1 := db.W();
      OneTokenEach(w, token, s);
      var e := DeleteByToken(k, token, repoId, s);
      if e != Ok {
        StatementEnds(w, env, UnsubscribeDelete(k), k, w1);
        ghost var tail := if e == NotFound then [UnsubscribeDelete(k)]
          else if db.W() == Next(w1, Drop(k)) then [Drop(k)] else [UnsubscribeDelete(k), Drop(k)];
        return e, 0, env + tail;
      }
      at := |env|;
      ghost var own := env + [UnsubscribeDelete(k)];
      OwnDelete(env, k);
      RunLast(w, env, UnsubscribeDelete(k));
      DeletesHere(w, env, k, token, w1, db.W());
      ghost var rest;
      err, rest := CleanUp(k, repoId);
      RunAppend(w, own, rest);
      OwnAppend(own, rest, k);
      DeletesStill(w, own, rest, at, k, token);
      trace := own + rest;
    }

    /** The cleanup, after whatever others did since the delete. */
    method CleanUp(ghost k: nat, repoId: nat) returns (err: Err, ghost trace: seq<Event>)
      requires db.Valid() && k in db.tasks && db.tasks[k] == CleanupCheck(repoId) && orchestrator.db == db
      modifies db
      ensures db.Valid() && db.W() == Run(old(db.W()), trace)
      ensures err == Ok || err == NotFound || err == Failure
      ensures Own(trace, k) == [CleanupHasAny(k)] || Own(trace, k) == [CleanupHasAny(k), CleanupDeleteRepo(k)]
        || Own(trace, k) == [CleanupHasAny(k), Drop(k)] || Own(trace, k) == [Drop(k)]
      ensures err == Ok ==> Own(trace, k) == [CleanupHasAny(k)] || Own(trace, k) == [CleanupHasAny(k), CleanupDeleteRepo(k)]
      ensures err != Ok ==> Own(trace, k) != [CleanupHasAny(k)]
      ensures db.calm ==>
        db.tables == old(db.tables).(repos := db.tables.repos) && Outcomes.Tidied(old(db.tables), db.tables, repoId)
      ensures db.calm && repoId in old(db.tables).repos ==> err == Ok
    {
      hide Inv, Next, Enabled, Run, Own, Above, Touches;
      ghost var w := db.W();
      ghost var env := db.Yield({k});
      ghost var more;
      err, more := orchestrator.DeleteIfOrphaned(k, repoId, {});
      RunAppend(w, env, more);
      OwnAppend(env, more, k);
      OwnForeign(env, {k}, k);
      trace := env + more;
      assert [] + Own(more, k) == Own(more, k);
    }
  }

  /** The event at `at` is the delete of the operation `k`; a row with the token is there before it, and none after. */
  ghost predicate DeletesToken(w: World, es: seq<Event>, at: nat, k: nat, token: string) {
    && at < |es| && es[at] == UnsubscribeDelete(k)
    && Outcomes.HasUnsubscribeToken(Run(w, es[..at]).t, token) && !Outcomes.HasUnsubscribeToken(Run(w, es[..at + 1]).t, token)
  }

  /** The own events of an unsubscribe that found the token and returned an error. */
  predicate StoppedShort(own: seq<Event>, k: nat) {
    || own == [Drop(k)]
    || own == [UnsubscribeDelete(k)]
    || own == [UnsubscribeDelete(k), Drop(k)]
    || own == [UnsubscribeDelete(k), CleanupHasAny(k), Drop(k)]
    || own == [UnsubscribeDelete(k), CleanupHasAny(k), CleanupDeleteRepo(k)]
  }

  /** A statement of the operation `k` that fails, takes effect, or takes effect with its answer lost. */
  lemma StatementEnds(w: World, env: seq<Event>, e: Event, k: nat, w1: World)
    requires w1 == Run(w, env) && Foreign(env, {k}) && Touches(e, k)
    ensures Run(w, env + [Drop(k)]) == Next(w1, Drop(k)) && Own(env + [Drop(k)], k) == [Drop(k)]
    ensures Run(w, env + [e]) == Next(w1, e) && Own(env + [e], k) == [e]
    ensures Run(w, env + [e, Drop(k)]) == Next(Next(w1, e), Drop(k)) && Own(env + [e, Drop(k)], k) == [e, Drop(k)]
  {
    hide Next, Run, Own, Foreign;
    OwnForeign(env, {k}, k);
    OwnSnoc(env, Drop(k), k);
    RunLast(w, env, Drop(k));
    OwnSnoc(env, e, k);
    RunLast(w, env, e);
    assert (env + [e]) + [Drop(k)] == env + [e, Drop(k)];
    OwnSnoc(env + [e], Drop(k), k);
    RunLast(w, env + [e], Drop(k));
  }

  predicate Owns(t: Tables, s: nat, token: string, repoId: nat) {
    s in t.subs && t.subs[s].unsubscribeToken == token && t.subs[s].repoId == repoId
  }

  /** A token is one subscription's, so deleting by it deletes one row, whose repository is there. */
  lemma OneTokenEach(w: World, token: string, s: nat)
    requires Inv(w)
    ensures s in w.t.subs && w.t.subs[s].unsubscribeToken == token ==>
      DeleteByUnsubscribeToken(w.t, token) == w.t.(subs := w.t.subs - {s}) && w.t.subs[s].repoId in w.t.repos
  {
    TokensUnique(w);
    hide Inv;
    OnlyRow(w.t, token, s);
    hide SubsUnique, DeleteByUnsubscribeToken;
  }

  lemma OnlyRow(t: Tables, token: string, s: nat)
    requires SubsUnique(t.subs)
    ensures s in t.subs && t.subs[s].unsubscribeToken == token ==>
      DeleteByUnsubscribeToken(t, token) == t.(subs := t.subs - {s})
  {
    if s in t.subs && t.subs[s].unsubscribeToken == token {
      assert DeleteByUnsubscribeToken(t, token).subs == t.subs - {s};
    }
  }

  lemma DeleteTables(w: World, k: nat, token: string, repoId: nat)
    requires k in w.tasks && w.tasks[k] == UnsubscribeFound(token, repoId)
    ensures var (w', found) := (Next(w, UnsubscribeDelete(k)), Outcomes.HasUnsubscribeToken(w.t, token));
      && w'.t == (if found then DeleteByUnsubscribeToken(w.t, token) else w.t)
      && w'.tasks == (if found then w.tasks[k := CleanupCheck(repoId)] else w.tasks - {k})
      && !Outcomes.HasUnsubscribeToken(w'.t, token)
  {
  }

  lemma TokensUnique(w: World)
    requires Inv(w)
    ensures SubsUnique(w.t.subs) && SubsRefer(w.t.subs, w.t.repos)
  {
  }

  lemma OwnDelete(env: seq<Event>, k: nat)
    requires Foreign(env, {k})
    ensures Own(env + [UnsubscribeDelete(k)], k) == [UnsubscribeDelete(k)]
  {
    OwnSnoc(env, UnsubscribeDelete(k), k);
    OwnForeign(env, {k}, k);
  }

  lemma DeletesHere(w: World, env: seq<Event>, k: nat, token: string, w1: World, w2: World)
    requires w1 == Run(w, env) && w2 == Run(w, env + [UnsubscribeDelete(k)])
    requires Outcomes.HasUnsubscribeToken(w1.t, token) && !Outcomes.HasUnsubscribeToken(w2.t, token)
    ensures DeletesToken(w, env + [UnsubscribeDelete(k)], |env|, k, token)
  {
    var es := env + [UnsubscribeDelete(k)];
    assert es[..|env|] == env && es[..|env| + 1] == es;
  }

  lemma DeletesStill(w: World, es: seq<Event>, rest: seq<Event>, at: nat, k: nat, token: string)
    requires DeletesToken(w, es, at, k, token)
    ensures DeletesToken(w, es + rest, at, k, token)
  {
    assert (es + rest)[..at] == es[..at] && (es + rest)[..at + 1] == es[..at + 1];
  }

  lemma DeletesLater(w: World, e: Event, es: seq<Event>, at: nat, k: nat, token: string)
    requires DeletesToken(Next(w, e), es, at, k, token)
    ensures DeletesToken(w, [e] + es, at + 1, k, token)
  {
    hide Next;
    assert ([e] + es)[..at + 1] == [e] + es[..at] && ([e] + es)[..at + 2] == [e] + es[..at + 1];
    RunAppend(w, [e], es[..at]);
    RunAppend(w, [e], es[..at + 1]);
    OneEvent(w, e);
  }

  lemma AboveAfterEnsure(w: World, e: Event, ids: Sequences)
    requires Above(ids, w.t, w.h) && (e.EnsureFind? || e.EnsureMiss? || e.EnsureFindAgain? || (e.EnsureCreate? && e.repoId < ids.repo))
    ensures Above(ids, Next(w, e).t, Next(w, e).h) && Next(w, e).now == w.now
  {
  }

  lemma AboveAfterSubscribe(w: World, e: Event, ids: Sequences)
    requires Above(ids, w.t, w.h) && e.Subscribe? && e.subId < ids.sub && e.row < ids.saga && e.out < ids.outbox
    ensures Above(ids, Next(w, e).t, Next(w, e).h) && Next(w, e).now == w.now
  {
  }

  /** The catalog's find-or-create. */
  class Ensure {
    const db: Database

    constructor (db: Database)
      ensures this.db == db
    {
      this.db := db;
    }

    method FindByFullName(name: string) returns (err: Err, repoId: nat)
      requires db.Valid()
      ensures err == Ok || err == NotFound || err == Failure
      ensures err == Ok ==> repoId in db.tables.repos && db.tables.repos[repoId].name == name
      ensures err == NotFound ==> !HasName(db.tables, name)
      ensures db.calm ==> err != Failure
    {
      var ok := db.Statement();
      if !ok {
        return Failure, 0;
      }
      if r :| r in db.tables.repos && db.tables.repos[r].name == name {
        return Ok, r;
      }
      return NotFound, 0;
    }

    method Create(ghost k: nat, name: string) returns (err: Err, repoId: nat)
      requires db.Valid() && k in db.tasks && db.tasks[k] == EnsureMissed(name)
      modifies db
      ensures db.Valid()
      ensures err == Ok || err == AlreadyExists || err == Failure
      ensures err != Failure ==> db.W() == Next(old(db.W()), EnsureCreate(k, repoId))
      ensures err == Ok ==>
        && db.tasks == old(db.tasks)[k := Ensured(name, repoId)]
        && repoId in db.tables.repos && db.tables.repos[repoId].name == name
      ensures err == AlreadyExists ==> HasName(old(db.tables), name) && db.tasks == old(db.tasks)[k := EnsureConflicted(name)]
      ensures err == Failure ==>
        db.W() == Next(old(db.W()), Drop(k)) || db.W() == Next(Next(old(db.W()), EnsureCreate(k, repoId)), Drop(k))
      ensures err == Ok ==> repoId !in old(db.tables).repos && Outcomes.Cataloged(old(db.tables), db.tables, name, repoId)
      ensures err == AlreadyExists ==> db.tables == old(db.tables)
      ensures db.calm ==> err != Failure
    {
      NamedRepos(db.W());
      hide Inv;
      var ok := db.Statement();
      repoId := db.NextRepoId();
      if !ok {
        db.Abandon(k);
        return Failure, repoId;
      }
      var conflict := HasName(db.tables, name);
      AboveAfterEnsure(db.W(), EnsureCreate(k, repoId), db.ids);
      CreateTables(db.W(), k, name, repoId);
      hide Next, Above;
      var t' := if conflict then db.tables else db.tables.(repos := db.tables.repos[repoId := Repo(name, "")]);
      db.Apply(t', EnsureCreate(k, repoId));
      var answered := db.Statement();
      if !answered {
        db.Abandon(k);
        return Failure, repoId;
      }
      return if conflict then AlreadyExists else Ok, repoId;
    }

    /** The ghost step of a read: the operation now remembers what it read. */
    ghost method Remember(e: Event)
      requires db.Valid() && (e.EnsureFind? || e.EnsureMiss? || e.EnsureFindAgain?)
      modifies db`tasks, db`nextTask
      ensures db.Valid() && db.W() == Next(old(db.W()), e)
    {
      EventKeepsInv(db.W(), e);
      AboveAfterEnsure(db.W(), e, db.ids);
      ghost var w' := Next(db.W(), e);
      db.tasks, db.nextTask := w'.tasks, w'.nextTask;
    }

    /**
     Find, else create, else find again. On success the id is the live repository of that name at the moment of
     the last statement, whoever created it; the name is never given to two repositories.
     */
    method Execute(name: string) returns (err: Err, repoId: nat, ghost created: nat, ghost trace: seq<Event>)
      requires db.Valid()
      modifies db
      ensures db.Valid() && db.W() == Run(old(db.W()), trace)
      ensures err == Ok ==> repoId in db.tables.repos && db.tables.repos[repoId].name == name
      ensures var k := old(db.nextTask);
        err == Ok ==> k in db.tasks && db.tasks[k] == Ensured(name, repoId)
      ensures var k := old(db.nextTask);
        || (err == Ok && trace == [EnsureFind(name, repoId)])
        || (err == Failure && trace == [])
        || (!HasName(old(db.tables), name) && trace != [] && trace[0] == EnsureMiss(name)
            && EndsCreate(Own(trace[1..], k), k, err, repoId, created))
      ensures db.calm ==> err == Ok && Outcomes.Cataloged(old(db.tables), db.tables, name, repoId)
    {
      hide Inv, Next, Enabled, Run, Own, EndsCreate;
      ghost var (w, k) := (db.W(), db.nextTask);
      EmptyTrace(w);
      created, trace := 0, [];
      var e, r := FindByFullName(name);
      if e == Ok {
        Remember(EnsureFind(name, r));
        OneEvent(w, EnsureFind(name, r));
        SpawnedBy(w, EnsureFind(name, r));
        return Ok, r, 0, [EnsureFind(name, r)];
      }
      if e != NotFound {
        return Failure, 0, 0, trace;
      }
      Remember(EnsureMiss(name));
      OneEvent(w, EnsureMiss(name));
      SpawnedBy(w, EnsureMiss(name));
      ghost var rest;
      err, repoId, created, rest := CreateOrFind(k, name);
      RunAppend(w, [EnsureMiss(name)], rest);
      trace := [EnsureMiss(name)] + rest;
      assert trace[1..] == rest;
    }

    /** The insert after a miss, and the second find if somebody else inserted the name meanwhile. */
    method CreateOrFind(ghost k: nat, name: string)
      returns (err: Err, repoId: nat, ghost created: nat, ghost trace: seq<Event>)
      requires db.Valid() && k in db.tasks && db.tasks[k] == EnsureMissed(name)
      modifies db
      ensures db.Valid() && db.W() == Run(old(db.W()), trace)
      ensures err == Ok ==>
        && repoId in db.tables.repos && db.tables.repos[repoId].name == name
        && k in db.tasks && db.tasks[k] == Ensured(name, repoId)
      ensures EndsCreate(Own(trace, k), k, err, repoId, created)
      ensures db.calm ==> err == Ok && Outcomes.Cataloged(old(db.tables), db.tables, name, repoId)
    {
      hide Inv, Next, Enabled, Run, Own, Above;
      ghost var w := db.W();
      EmptyTrace(w);
      ghost var env := db.Yield({k});
      ghost var w1 := db.W();
      var e, r := Create(k, name);
      created := r;
      StatementEnds(w, env, EnsureCreate(k, r), k, w1);
      trace := env + (if e != Failure then [EnsureCreate(k, r)]
                      else if db.W() == Next(w1, Drop(k)) then [Drop(k)] else [EnsureCreate(k, r), Drop(k)]);
      if e != AlreadyExists {
        return e, r, created, trace;
      }
      ghost var env2 := db.Yield({k});
      RunAppend(w, trace, env2);
      OwnAppend(trace, env2, k);
      OwnForeign(env2, {k}, k);
      trace := trace + env2;
      ghost var again;
      err, repoId, again := FindAgain(k, name);
      RunLast(w, trace, again);
      OwnSnoc(trace, again, k);
      trace := trace + [again];
    }

    method FindAgain(ghost k: nat, name: string) returns (err: Err, repoId: nat, ghost e: Event)
      requires db.Valid() && k in db.tasks && db.tasks[k] == EnsureConflicted(name)
      modifies db
      ensures db.Valid() && db.W() == Next(old(db.W()), e)
      ensures err == Ok || err == NotFound || err == Failure
      ensures e == if err == Ok then EnsureFindAgain(k, repoId) else Drop(k)
      ensures err == Ok ==>
        && repoId in db.tables.repos && db.tables.repos[repoId].name == name
        && k in db.tasks && db.tasks[k] == Ensured(name, repoId)
      ensures db.tables == old(db.tables) && (db.calm && HasName(db.tables, name) ==> err == Ok)
    {
      hide Inv, Next, Enabled;
      ghost var w := db.W();
      err, repoId := FindByFullName(name);
      if err != Ok {
        db.Abandon(k);
        return err, repoId, Drop(k);
      }
      e := EnsureFindAgain(k, repoId);
      Remember(e);
      FoundAgain(w, k, name, repoId);
    }
  }

  /** The own events of an Ensure after its miss, and what it then returns. */
  predicate EndsCreate(own: seq<Event>, k: nat, err: Err, repoId: nat, created: nat) {
    match err
    case Ok => own == [EnsureCreate(k, repoId)] || own == [EnsureCreate(k, created), EnsureFindAgain(k, repoId)]
    case NotFound => own == [EnsureCreate(k, created), Drop(k)]
    case Failure => own == [Drop(k)] || own == [EnsureCreate(k, created), Drop(k)]
    case _ => false
  }

  lemma CreateTables(w: World, k: nat, name: string, r: nat)
    requires k in w.tasks && w.tasks[k] == EnsureMissed(name) && r !in w.h.named
    ensures var w' := Next(w, EnsureCreate(k, r));
      && w'.t == (if HasName(w.t, name) then w.t else w.t.(repos := w.t.repos[r := Repo(name, "")]))
      && w'.tasks == w.tasks[k := if HasName(w.t, name) then EnsureConflicted(name) else Ensured(name, r)]
  {
  }

  lemma NamedRepos(w: World)
    requires Inv(w)
    ensures w.t.repos.Keys <= w.h.named.Keys
  {
  }

  lemma SpawnedBy(w: World, e: Event)
    requires e.EnsureFind? || e.EnsureMiss?
    ensures e.EnsureFind? && Enabled(w, e) ==>
      Next(w, e).tasks == w.tasks[w.nextTask := Ensured(e.name, e.repoId)] && Next(w, e).t == w.t
    ensures e.EnsureMiss? && Enabled(w, e) ==>
      Next(w, e).tasks == w.tasks[w.nextTask := EnsureMissed(e.name)] && Next(w, e).t == w.t
    ensures e.EnsureMiss? ==> (Enabled(w, e) <==> !HasName(w.t, e.name))
    ensures e.EnsureFind? ==> (Enabled(w, e) <==> e.repoId in w.t.repos && w.t.repos[e.repoId].name == e.name)
  {
  }

  lemma FoundAgain(w: World, k: nat, name: string, r: nat)
    requires k in w.tasks && w.tasks[k] == EnsureConflicted(name) && r in w.t.repos && w.t.repos[r].name == name
    ensures Next(w, EnsureFindAgain(k, r)).tasks == w.tasks[k := Ensured(name, r)]
    ensures Next(w, EnsureFindAgain(k, r)).t == w.t
  {
  }

  /** The last step of a subscribe: the pending subscription with its saga and its confirmation mail. */
  class Subscribe {
    const db: Database
    const sagaTTL: nat

    constructor (db: Database, sagaTTL: nat)
      ensures this.db == db && this.sagaTTL == sagaTTL
    {
      this.db, this.sagaTTL := db, sagaTTL;
    }

    /** One attempt: all three inserts commit together, or none of them. */
    method CreateAndEnqueue(ghost k: nat, sagaId: string, sub: Sub, repoName: string)
      returns (err: Err, ghost e: Event, ghost applied: bool)
      requires db.Valid() && k in db.tasks && db.tasks[k] == Ensured(repoName, sub.repoId) && !sub.confirmed
      modifies db
      ensures db.Valid()
      ensures err == Ok ==> applied
      ensures e.Subscribe? && e.task == k && e.sagaId == sagaId && e.sub == sub && e.deadline == old(db.now) + sagaTTL
      ensures applied ==> Enabled(old(db.W()), e) && db.W() == Next(old(db.W()), e) && db.tasks == old(db.tasks) - {k}
      ensures !applied ==> db.W() == old(db.W())
      ensures applied ==>
        Outcomes.Subscribed(old(db.tables), db.tables, sub, repoName, sagaId, e.deadline, e.subId, e.row, e.out)
      ensures db.now == old(db.now) && (db.calm ==> applied == (err == Ok))
      ensures err == AlreadyExists ==>
        !applied && exists s :: s in db.tables.subs && db.tables.subs[s].email == sub.email && db.tables.subs[s].repoId == sub.repoId
      ensures err == TokenConflict ==>
        !applied && !Outcomes.TokensFree(db.tables, sub.confirmToken, sub.unsubscribeToken)
      ensures err != NotFound
      ensures var (t, free) := (old(db.tables), Outcomes.TokensFree(old(db.tables), sub.confirmToken, sub.unsubscribeToken));
        db.calm ==>
          && (err == Ok <==> Outcomes.Subscribable(t, sub.email, sub.repoId, sagaId) && free)
          && (Outcomes.Subscribable(t, sub.email, sub.repoId, sagaId) && !free ==> err == TokenConflict)
          && (Outcomes.HoldsOne(t, sub.email, sub.repoId) && free ==> err == AlreadyExists)
    {
      hide Inv, Next, Above, Outcomes.Subscribed, Outcomes.Subscribable, Outcomes.HoldsOne, Outcomes.TokensFree;
      ghost var w := db.W();
      var s, row, out := db.NextSubscriptionIds();
      e := SagaProtocol.Subscribe(k, sagaId, sub, db.now + sagaTTL, s, row, out);
      applied := false;
      var tx := db.Begin();
      if tx == null {
        return Failure, e, applied;
      }
      FreshId(db.W(), s);
      err := InsertAll(tx, sagaId, sub, repoName, db.now + sagaTTL, s, row, out);
      if err != Ok {
        db.Rollback(tx);
        return err, e, applied;
      }
      MaySubscribe(w, e);
      SubscribeTables(w, k, repoName, e);
      AboveAfterSubscribe(w, e, db.ids);
      SubscribeChanges(w, e);
      SubscribedTables(w.t, tx.t, sub, repoName, sagaId, e);
      hide Enabled;
      var ok := db.Commit(tx, e);
      applied := db.W() != w;
      return if ok then Ok else Failure, e, applied;
    }

    /** The three inserts of the transaction. */
    method InsertAll(tx: Tx, sagaId: string, sub: Sub, repoName: string, deadline: nat, s: nat, row: nat, out: nat)
      returns (err: Err)
      requires !tx.aborted && s !in tx.t.subs && row !in tx.t.sagas && out !in tx.t.outbox
      modifies tx
      ensures err != NotFound && tx.aborted == (err != Ok)
      ensures err == Ok ==>
        && Outcomes.Subscribed(old(tx.t), tx.t, sub, repoName, sagaId, deadline, s, row, out)
        && Outcomes.Subscribable(old(tx.t), sub.email, sub.repoId, sagaId)
        && Outcomes.TokensFree(old(tx.t), sub.confirmToken, sub.unsubscribeToken)
      ensures err == AlreadyExists ==>
        exists x :: x in old(tx.t).subs && old(tx.t).subs[x].email == sub.email && old(tx.t).subs[x].repoId == sub.repoId
      ensures err == TokenConflict ==> !Outcomes.TokensFree(old(tx.t), sub.confirmToken, sub.unsubscribeToken)
      ensures tx.calm && Outcomes.Subscribable(old(tx.t), sub.email, sub.repoId, sagaId) ==>
        err == if Outcomes.TokensFree(old(tx.t), sub.confirmToken, sub.unsubscribeToken) then Ok else TokenConflict
      ensures tx.calm && Outcomes.HoldsOne(old(tx.t), sub.email, sub.repoId) ==>
        (Outcomes.TokensFree(old(tx.t), sub.confirmToken, sub.unsubscribeToken) ==> err == AlreadyExists)
    {
      Conflicts(tx.t, sub, sagaId);
      hide DuplicateSubscription, DuplicateToken, Outcomes.Subscribable, Outcomes.TokensFree;
      ghost var t := tx.t;
      err := tx.CreateSubscription(sub, s);
      if err != Ok {
        return err;
      }
      var ok := tx.InsertSaga(row, Saga(sagaId, s, sub.repoId, sub.email, Started, deadline, None));
      if !ok {
        return Failure;
      }
      ok := tx.EnqueueOutbox(out, ConfirmationRequested(sagaId, sub.email, repoName, sub.confirmToken));
      return if ok then Ok else Failure;
    }

    /**
     The retry loop: every attempt draws new tokens, `draws(i)` is what the random source gives the i-th. It adds one
     linked triple or nothing, and gives up with TokenConflict only after five attempts that each met a token already
     in use. Other events may come between two attempts.
     */
    method CreatePending(ghost k: nat, sagaId: string, email: string, repoName: string, repoId: nat,
                         draws: nat -> Option<(string, string)>)
      returns (err: Err, ghost trace: seq<Event>, ghost e: Event, ghost attempts: nat)
      requires db.Valid() && k in db.tasks && db.tasks[k] == Ensured(repoName, repoId)
      modifies db
      ensures db.Valid() && db.W() == Run(old(db.W()), trace)
      ensures err == Ok ==>
        && Own(trace, k) == [e] && e.Subscribe? && e.sagaId == sagaId
        && e.sub.email == email && e.sub.repoId == repoId && !e.sub.confirmed
        && attempts > 0 && draws(attempts - 1) == Some((e.sub.confirmToken, e.sub.unsubscribeToken))
      ensures err == Ok ==>
        && |trace| > 0 && trace[|trace| - 1] == e
        && Enabled(Run(old(db.W()), trace[..|trace| - 1]), e)
      ensures err != Ok ==> Own(trace, k) == [Drop(k)] || (err == Failure && Own(trace, k) == [e, Drop(k)])
      ensures attempts <= 5 && (err == TokenConflict ==> attempts == 5)
      ensures db.calm && err == Ok ==>
        Outcomes.Subscribed(old(db.tables), db.tables, e.sub, repoName, sagaId, old(db.now) + sagaTTL, e.subId, e.row, e.out)
      ensures db.calm && err != Ok ==> db.tables == old(db.tables)
      ensures var t := old(db.tables);
        db.calm && Outcomes.Subscribable(t, email, repoId, sagaId) && AnyFree(t, draws, 5) ==> err == Ok
      ensures var t := old(db.tables);
        db.calm && Outcomes.HoldsOne(t, email, repoId) && AnyFree(t, draws, 1) ==> err == AlreadyExists
    {
      hide Inv, Next, Enabled, Run, Own, Outcomes.Subscribed, Outcomes.Subscribable, Outcomes.HoldsOne, Outcomes.TokensFree;
      ghost var (w, t) := (db.W(), db.tables);
      EmptyTrace(w);
      trace, attempts, e := [], 0, Drop(k);
      var i := 0;
      while i < MaxTokenAttempts
        invariant db.Valid() && db.W() == Run(w, trace) && Own(trace, k) == []
        invariant k in db.tasks && db.tasks[k] == Ensured(repoName, repoId)
        invariant i <= MaxTokenAttempts && attempts == i
        invariant db.calm ==> db.tables == t && db.now == old(db.now)
        invariant db.calm && Outcomes.HoldsOne(t, email, repoId) && AnyFree(t, draws, 1) ==> i == 0
        invariant db.calm && Outcomes.Subscribable(t, email, repoId, sagaId) ==>
          forall j :: 0 <= j < i ==> draws(j).Some? && !Outcomes.TokensFree(t, draws(j).value.0, draws(j).value.1)
      {
        ghost var part;
        err, e, part := Attempt(k, sagaId, email, repoName, repoId, draws(i));
        RunAppend(w, trace, part);
        OwnAppend(trace, part, k);
        if err == Ok {
          assert (trace + part)[..|trace + part| - 1] == trace + part[..|part| - 1];
          RunAppend(w, trace, part[..|part| - 1]);
        }
        trace, i, attempts := trace + part, i + 1, attempts + 1;
        if err != TokenConflict {
          return err, trace, e, attempts;
        }
      }
      trace := GiveUp(w, trace, k);
      return TokenConflict, trace, e, attempts;
    }

    /** One round of the loop, after whatever others did. */
    method Attempt(ghost k: nat, sagaId: string, email: string, repoName: string, repoId: nat, drawn: Option<(string, string)>)
      returns (err: Err, ghost e: Event, ghost part: seq<Event>)
      requires db.Valid() && k in db.tasks && db.tasks[k] == Ensured(repoName, repoId)
      modifies db
      ensures db.Valid() && db.W() == Run(old(db.W()), part)
      ensures err == TokenConflict ==> Own(part, k) == [] && k in db.tasks && db.tasks[k] == Ensured(repoName, repoId)
      ensures err == Ok ==>
        && drawn.Some? && e.Subscribe? && e.sagaId == sagaId && e.sub == Sub(email, repoId, false, drawn.value.0, drawn.value.1)
        && Own(part, k) == [e] && part != [] && part[|part| - 1] == e
        && Enabled(Run(old(db.W()), part[..|part| - 1]), e)
      ensures err != Ok && err != TokenConflict ==>
        Own(part, k) == [Drop(k)] || (err == Failure && Own(part, k) == [e, Drop(k)])
      ensures db.calm ==> db.now == old(db.now) && (err != Ok ==> db.tables == old(db.tables))
      ensures db.calm && err == Ok ==>
        Outcomes.Subscribed(old(db.tables), db.tables, e.sub, repoName, sagaId, db.now + sagaTTL, e.subId, e.row, e.out)
      ensures db.calm && Outcomes.Subscribable(old(db.tables), email, repoId, sagaId) ==>
        err == if drawn.None? then Failure
               else if Outcomes.TokensFree(old(db.tables), drawn.value.0, drawn.value.1) then Ok else TokenConflict
      ensures db.calm && Outcomes.HoldsOne(old(db.tables), email, repoId) && drawn.Some? ==>
        (Outcomes.TokensFree(old(db.tables), drawn.value.0, drawn.value.1) ==> err == AlreadyExists)
    {
      hide Inv, Next, Enabled, Run, Own, Outcomes.Subscribed, Outcomes.Subscribable, Outcomes.HoldsOne, Outcomes.TokensFree;
      ghost var w := db.W();
      EmptyTrace(w);
      ghost var env := db.Yield({k});
      ExtendForeign(w, [], env, k, {});
      assert [] + env == env;
      part, e := env, Drop(k);
      if drawn == None {
        part := GiveUp(w, env, k);
        assert [] + [Drop(k)] == [Drop(k)];
        return Failure, e, part;
      }
      var sub := Sub(email, repoId, false, drawn.value.0, drawn.value.1);
      ghost var applied;
      err, e, applied := CreateAndEnqueue(k, sagaId, sub, repoName);
      if applied {
        Extend(w, env, e, k, {});
        part := env + [e];
        assert part[..|part| - 1] == env;
      }
      if err != Ok && err != TokenConflict {
        part := GiveUp(w, part, k);
        assert [] + [Drop(k)] == [Drop(k)];
      }
    }

    ghost method GiveUp(w: World, trace: seq<Event>, k: nat) returns (dropped: seq<Event>)
      requires db.Valid() && db.W() == Run(w, trace) && Foreign(trace, {})
      modifies db`tasks
      ensures db.Valid() && db.W() == Run(w, dropped)
      ensures dropped == trace + [Drop(k)] && Own(dropped, k) == Own(trace, k) + [Drop(k)]
    {
      hide Inv, Next, Run, Own;
      Extend(w, trace, Drop(k), k, {});
      db.Abandon(k);
      dropped := trace + [Drop(k)];
    }
  }

  /** One of the first `n` draws is free, and the random source did not fail before it. */
  ghost predicate AnyFree(t: Tables, draws: nat -> Option<(string, string)>, n: nat) {
    exists i :: 0 <= i < n && draws(i).Some? && Outcomes.TokensFree(t, draws(i).value.0, draws(i).value.1)
      && forall j :: 0 <= j < i ==> draws(j).Some?
  }

  /** The keys an insert can violate, spelled out. */
  lemma Conflicts(t: Tables, sub: Sub, sagaId: string)
    ensures DuplicateSubscription(t, sub) <==>
      exists s :: s in t.subs && t.subs[s].email == sub.email && t.subs[s].repoId == sub.repoId
    ensures DuplicateToken(t, sub) <==> !Outcomes.TokensFree(t, sub.confirmToken, sub.unsubscribeToken)
    ensures sub.repoId in t.repos && !DuplicateSubscription(t, sub) && !DuplicateSagaId(t, sagaId) <==>
      Outcomes.Subscribable(t, sub.email, sub.repoId, sagaId)
  {
  }

  lemma MaySubscribe(w: World, e: Event)
    requires e.Subscribe? && e.task in w.tasks && w.tasks[e.task].Ensured? && w.tasks[e.task].repoId == e.sub.repoId
    requires !e.sub.confirmed && e.subId !in w.h.created && e.row !in w.t.sagas && e.out !in w.t.outbox
    requires Outcomes.Subscribable(w.t, e.sub.email, e.sub.repoId, e.sagaId)
    requires Outcomes.TokensFree(w.t, e.sub.confirmToken, e.sub.unsubscribeToken)
    ensures Enabled(w, e)
  {
    Conflicts(w.t, e.sub, e.sagaId);
    hide DuplicateSubscription, DuplicateToken, Outcomes.Subscribable, Outcomes.TokensFree;
  }

  lemma SubscribedTables(t: Tables, t': Tables, sub: Sub, repoName: string, sagaId: string, e: Event)
    requires e.Subscribe? && Outcomes.Subscribed(t, t', sub, repoName, sagaId, e.deadline, e.subId, e.row, e.out)
    ensures t' == t.(
      subs := t.subs[e.subId := sub],
      sagas := t.sagas[e.row := Saga(sagaId, e.subId, sub.repoId, sub.email, Started, e.deadline, None)],
      outbox := t.outbox[e.out := OutboxRow(ConfirmationRequested(sagaId, sub.email, repoName, sub.confirmToken), false)])
  {
  }

  lemma FreshId(w: World, s: nat)
    requires Inv(w) && s !in w.h.created
    ensures s !in w.t.subs
  {
    FreshSub(w.t.subs, s, w.h);
  }

  lemma SubscribeTables(w: World, k: nat, repoName: string, e: Event)
    requires e.Subscribe? && Enabled(w, e) && e.task == k && w.tasks[k].name == repoName
    ensures Next(w, e).t == w.t.(
      subs := w.t.subs[e.subId := e.sub],
      sagas := w.t.sagas[e.row := Saga(e.sagaId, e.subId, e.sub.repoId, e.sub.email, Started, e.deadline, None)],
      outbox := w.t.outbox[e.out := OutboxRow(
        ConfirmationRequested(e.sagaId, e.sub.email, repoName, e.sub.confirmToken), false)])
  {
  }

  lemma SubscribeChanges(w: World, e: Event)
    requires e.Subscribe? && Enabled(w, e)
    ensures Next(w, e) != w && Next(w, e).tasks == w.tasks - {e.task}
  {
    assert e.row in Next(w, e).t.sagas;
  }

  lemma FinishOk(w: World, k: nat, s: nat, r: nat, w': World)
    requires k in w.tasks && w.tasks[k] == ConfirmCommitted(s)
    requires exists q :: q in w.t.sagas && w.t.sagas[q].subId == s
    requires r in w.t.sagas && w.t.sagas[r].subId == s ==> w.t.sagas[r].state != Failed
    requires
      || (r in w.t.sagas && w.t.sagas[r].subId == s && w' == Next(w, HandleConfirmed(k, r)))
      || ((forall q :: q in w.t.sagas ==> w.t.sagas[q].subId != s) && w' == Next(w, Drop(k)))
    ensures w' == Next(w, HandleConfirmed(k, r)) && w'.h == w.h
    ensures r in w'.t.sagas && w'.t.sagas[r].state == Completed && w'.t.sagas[r].subId == s
  {
    HandledState(w, k, r);
  }

  lemma AboveAfterFanout(w: World, k: nat, outs: seq<nat>, ids: Sequences)
    requires Above(ids, w.t, w.h) && Enabled(w, FanoutCommit(k, outs)) && forall o :: o in outs ==> o < ids.outbox
    ensures var w' := Next(w, FanoutCommit(k, outs)); Above(ids, w'.t, w'.h) && w'.now == w.now
  {
    FanoutFrame(w, k, outs);
    FanoutRepos(w, k, outs);
    hide Effect;
  }

  lemma FanoutRepos(w: World, k: nat, outs: seq<nat>)
    requires Enabled(w, FanoutCommit(k, outs))
    ensures Effect(w, FanoutCommit(k, outs)).t.repos.Keys == w.t.repos.Keys
  {
    var c := w.tasks[k];
    QueueReleasesFrame(
      Finish(w, k).(t := SetLastSeenTag(w.t, c.repoId, c.release.tag)), outs, c.release, c.recipients);
  }

  lemma {:induction false} QueueReleasesSnoc(w: World, outs: seq<nat>, release: Release, recs: seq<Recipient>, i: nat)
    requires |outs| == |recs| && i < |recs|
    ensures QueueReleases(w, outs[..i + 1], release, recs[..i + 1])
      == QueueRelease(QueueReleases(w, outs[..i], release, recs[..i]), outs[i], release, recs[i])
    decreases i
  {
    var w1 := QueueRelease(w, outs[0], release, recs[0]);
    if i == 0 {
      assert outs[..1][1..] == [] && recs[..1][1..] == [] && recs[..0] == [] && outs[..0] == [];
      assert QueueReleases(w1, [], release, []) == w1;
    } else {
      QueueReleasesSnoc(w1, outs[1..], release, recs[1..], i - 1);
      assert outs[..i + 1][1..] == outs[1..][..i] && recs[..i + 1][1..] == recs[1..][..i];
      assert outs[..i][1..] == outs[1..][..i - 1] && recs[..i][1..] == recs[1..][..i - 1];
    }
  }

  /** The release fan-out: list the confirmed recipients, then queue one mail each in one transaction. */
  class Fanout {
    const db: Database

    constructor (db: Database)
      ensures this.db == db
    {
      this.db := db;
    }

    method ListConfirmed(repoId: nat) returns (ok: bool, subIds: seq<nat>)
      requires db.Valid()
      ensures ok ==> ListsConfirmed(db.tables, repoId, subIds)
      ensures db.calm ==> ok
    {
      hide Inv;
      subIds := [];
      ok := db.Statement();
      if !ok {
        return;
      }
      var left := set s | s in db.tables.subs && db.tables.subs[s].repoId == repoId && db.tables.subs[s].confirmed;
      ghost var all := left;
      while left != {}
        invariant left <= all && Distinct(subIds)
        invariant forall s :: s in all <==> s in left || s in subIds
        invariant forall s :: s in subIds ==> s !in left
        decreases left
      {
        var s :| s in left;
        left := left - {s};
        subIds := subIds + [s];
      }
    }

    /** The transaction: remember the tag, then insert one row per recipient. */
    method Queue(ghost k: nat, repoId: nat, release: Release, recipients: seq<Recipient>)
      returns (ok: bool, ghost outs: seq<nat>, ghost applied: bool)
      requires db.Valid() && k in db.tasks && db.tasks[k] == FanoutListed(repoId, release, recipients)
      modifies db
      ensures db.Valid() && (ok ==> applied)
      ensures applied ==>
        && Enabled(old(db.W()), FanoutCommit(k, outs))
        && db.W() == Next(old(db.W()), FanoutCommit(k, outs))
      ensures !applied ==> db.W() == old(db.W())
      ensures db.calm ==> ok
    {
      hide Inv, Next, Above, ListsConfirmed, QueueReleases;
      ghost var w := db.W();
      ghost var w0 := Finish(w, k).(t := SetLastSeenTag(w.t, repoId, release.tag));
      outs, applied := [], false;
      var tx := db.Begin();
      if tx == null {
        return false, outs, applied;
      }
      ok := tx.UpdateLastSeenTag(repoId, release.tag);
      if !ok {
        db.Rollback(tx);
        return false, outs, applied;
      }
      NothingQueued(w0, release);
      for i := 0 to |recipients|
        invariant fresh(tx) && !tx.aborted && tx.calm == db.calm && db.Valid() && db.W() == w
        invariant |outs| == i && Distinct(outs)
        invariant forall o :: o in outs ==> o !in db.tables.outbox && o < db.ids.outbox
        invariant tx.t == QueueReleases(w0, outs, release, recipients[..i]).t
      {
        var rec := recipients[i];
        var id := db.NextOutboxId();
        ok := tx.EnqueueOutbox(id, ReleaseDetected(rec.email, rec.unsubscribeToken, release));
        if !ok {
          db.Rollback(tx);
          return false, outs, applied;
        }
        QueueOneMore(w0, outs, id, release, recipients, i);
        outs := outs + [id];
      }
      assert recipients[..|recipients|] == recipients;
      FanoutTables(w, k, outs);
      AboveAfterFanout(w, k, outs, db.ids);
      FanoutChanges(w, k, outs);
      ok := db.Commit(tx, FanoutCommit(k, outs));
      applied := db.W() != w;
    }

    /** What a delivery does once it has listed its recipients. */
    method QueueListed(ghost k: nat, repoId: nat, release: Release, recipients: seq<Recipient>)
      returns (ok: bool, ghost outs: seq<nat>, ghost trace: seq<Event>)
      requires db.Valid() && k in db.tasks && db.tasks[k] == FanoutListed(repoId, release, recipients)
      modifies db
      ensures db.Valid() && db.W() == Run(old(db.W()), trace)
      ensures ok ==>
        && trace != [] && trace[|trace| - 1] == FanoutCommit(k, outs) && |outs| == |recipients|
        && Own(trace, k) == [FanoutCommit(k, outs)]
        && Enabled(Run(old(db.W()), trace[..|trace| - 1]), FanoutCommit(k, outs))
      ensures !ok ==> Own(trace, k) == [Drop(k)] || Own(trace, k) == [FanoutCommit(k, outs), Drop(k)]
      ensures db.calm ==>
        ok && Enabled(old(db.W()), FanoutCommit(k, outs)) && db.W() == Next(old(db.W()), FanoutCommit(k, outs))
    {
      hide Inv, Next, Enabled, Run, Own, Above, Foreign, Touches;
      ghost var w := db.W();
      EmptyTrace(w);
      ghost var env := db.Yield({k});
      ExtendForeign(w, [], env, k, {});
      assert [] + env == env;
      ghost var w1 := db.W();
      trace := env;
      ghost var applied;
      ok, outs, applied := Queue(k, repoId, release, recipients);
      ghost var e := FanoutCommit(k, outs);
      if applied {
        OwnEvent(w, trace, e, k);
        trace := trace + [e];
      }
      if ok {
        OutsMatch(w1, k, outs, repoId, release, recipients);
        assert trace[..|trace| - 1] == env;
      } else {
        OwnEvent(w, trace, Drop(k), k);
        trace := trace + [Drop(k)];
        db.Abandon(k);
      }
    }

    /**
     One delivery of ReleaseFound. The recipients are read outside the transaction that queues their mails, so
     other events can come in between; the delivery queues either one row for each of them or nothing.
     */
    method HandleReleaseFound(repoId: nat, release: Release)
      returns (ok: bool, ghost trace: seq<Event>, ghost subIds: seq<nat>, ghost outs: seq<nat>)
      requires db.Valid()
      modifies db
      ensures db.Valid() && db.W() == Run(old(db.W()), trace)
      ensures trace != [] ==>
        && ListsConfirmed(old(db.tables), repoId, subIds)
        && trace[0] == FanoutList(repoId, release, subIds)
      ensures var k := old(db.nextTask);
        ok ==>
          && |trace| > 1 && trace[|trace| - 1] == FanoutCommit(k, outs) && |outs| == |subIds|
          && Own(trace, k) == [FanoutCommit(k, outs)]
          && Enabled(Run(old(db.W()), trace[..|trace| - 1]), FanoutCommit(k, outs))
      ensures var k := old(db.nextTask);
        !ok && trace != [] ==> Own(trace, k) == [Drop(k)] || Own(trace, k) == [FanoutCommit(k, outs), Drop(k)]
      ensures db.calm ==> ok && Outcomes.FannedOut(old(db.tables), db.tables, repoId, release, subIds, outs)
    {
      hide Inv, Next, Enabled, Run, Own, Above, Foreign, ListsConfirmed;
      ghost var (w, k) := (db.W(), db.nextTask);
      EmptyTrace(w);
      trace, outs := [], [];
      var listed, ids := ListConfirmed(repoId);
      subIds := ids;
      if !listed {
        return false, trace, subIds, outs;
      }
      ListedLive(db.tables, repoId, ids);
      var recipients := Recipients(db.tables, ids);
      RememberList(repoId, release, ids);
      ghost var first := FanoutList(repoId, release, ids);
      ghost var (w1, tail) := (db.W(), []);
      ok, outs, tail := QueueListed(k, repoId, release, recipients);
      if db.calm {
        FannedOutBy(w1, k, repoId, release, ids, outs);
      }
      Prepended(w, first, tail, k);
      trace := [first] + tail;
    }

    ghost method RememberList(repoId: nat, release: Release, subIds: seq<nat>)
      requires db.Valid() && ListsConfirmed(db.tables, repoId, subIds)
      modifies db`tasks, db`nextTask
      ensures db.Valid() && db.W() == Next(old(db.W()), FanoutList(repoId, release, subIds))
      ensures db.tasks ==
        old(db.tasks)[old(db.nextTask) := FanoutListed(repoId, release, Recipients(db.tables, subIds))]
    {
      var e := FanoutList(repoId, release, subIds);
      EventKeepsInv(db.W(), e);
      FanoutListTasks(db.W(), repoId, release, subIds);
      hide Inv, Next, ListsConfirmed;
      ghost var w' := Next(db.W(), e);
      db.tasks, db.nextTask := w'.tasks, w'.nextTask;
    }
  }

  lemma FannedOutBy(w: World, k: nat, repoId: nat, release: Release, subIds: seq<nat>, outs: seq<nat>)
    requires ListsConfirmed(w.t, repoId, subIds)
    requires k in w.tasks && forall s :: s in subIds ==> s in w.t.subs
    requires w.tasks[k] == FanoutListed(repoId, release, Recipients(w.t, subIds)) && Enabled(w, FanoutCommit(k, outs))
    ensures Outcomes.FannedOut(w.t, Next(w, FanoutCommit(k, outs)).t, repoId, release, subIds, outs)
  {
    var t' := Next(w, FanoutCommit(k, outs)).t;
    FanoutFrame(w, k, outs);
    FanoutTag(w, k, outs);
    hide Next, Effect;
    forall i | 0 <= i < |outs|
      ensures subIds[i] in w.t.subs && outs[i] in t'.outbox
      ensures t'.outbox[outs[i]] ==
        OutboxRow(ReleaseDetected(w.t.subs[subIds[i]].email, w.t.subs[subIds[i]].unsubscribeToken, release), false)
    {
      assert subIds[i] in subIds;
      FanoutQueuesOneRowEach(w, k, outs, i);
    }
  }

  lemma FanoutTag(w: World, k: nat, outs: seq<nat>)
    requires Enabled(w, FanoutCommit(k, outs))
    ensures var (t', c) := (Next(w, FanoutCommit(k, outs)).t, w.tasks[k]);
      && t'.repos == (if c.repoId in w.t.repos then w.t.repos[c.repoId := w.t.repos[c.repoId].(lastSeenTag := c.release.tag)]
                      else w.t.repos)
      && t'.subs == w.t.subs && t'.sagas == w.t.sagas
  {
    FanoutTables(w, k, outs);
    QueueReleasesFrame(
      Finish(w, k).(t := SetLastSeenTag(w.t, w.tasks[k].repoId, w.tasks[k].release.tag)), outs, w.tasks[k].release, w.tasks[k].recipients);
    hide Next, QueueReleases;
  }

  lemma FanoutListTasks(w: World, repoId: nat, release: Release, subIds: seq<nat>)
    requires ListsConfirmed(w.t, repoId, subIds)
    ensures Next(w, FanoutList(repoId, release, subIds)) == w.(
      tasks := w.tasks[w.nextTask := FanoutListed(repoId, release, Recipients(w.t, subIds))], nextTask := w.nextTask + 1)
  {
  }

  function Recipients(t: Tables, subIds: seq<nat>): (recs: seq<Recipient>)
    requires forall s :: s in subIds ==> s in t.subs
    ensures |recs| == |subIds|
  {
    seq(|subIds|, i requires 0 <= i < |subIds| => assert subIds[i] in subIds; RecipientOf(t, subIds[i]))
  }

  lemma ListedLive(t: Tables, repoId: nat, subIds: seq<nat>)
    requires ListsConfirmed(t, repoId, subIds)
    ensures forall s :: s in subIds ==> s in t.subs
  {
  }

  lemma OwnEvent(w: World, es: seq<Event>, e: Event, k: nat)
    requires Touches(e, k)
    ensures Run(w, es + [e]) == Next(Run(w, es), e) && Own(es + [e], k) == Own(es, k) + [e]
  {
    RunLast(w, es, e);
    OwnSnoc(es, e, k);
  }

  /** An event that is not the operation's own, before a run. */
  lemma Prepended(w: World, e: Event, es: seq<Event>, k: nat)
    requires !Touches(e, k)
    ensures Run(w, [e] + es) == Run(Next(w, e), es) && Own([e] + es, k) == Own(es, k)
    ensures es != [] ==> Run(w, ([e] + es)[..|es|]) == Run(Next(w, e), es[..|es| - 1])
  {
    OneEvent(w, e);
    RunAppend(w, [e], es);
    OwnAppend([e], es, k);
    assert [e][1..] == [] && Own([e], k) == [] && [] + Own(es, k) == Own(es, k);
    if es != [] {
      assert ([e] + es)[..|es|] == [e] + es[..|es| - 1];
      RunAppend(w, [e], es[..|es| - 1]);
    }
  }

  lemma NothingQueued(w: World, release: Release)
    ensures QueueReleases(w, [], release, []) == w
  {
  }

  lemma FanoutTables(w: World, k: nat, outs: seq<nat>)
    requires Enabled(w, FanoutCommit(k, outs))
    ensures var c := w.tasks[k];
      Next(w, FanoutCommit(k, outs)).t ==
        QueueReleases(Finish(w, k).(t := SetLastSeenTag(w.t, c.repoId, c.release.tag)), outs, c.release, c.recipients).t
  {
  }

  lemma QueueOneMore(w: World, outs: seq<nat>, id: nat, release: Release, recs: seq<Recipient>, i: nat)
    requires |outs| == i < |recs|
    ensures QueueReleases(w, outs + [id], release, recs[..i + 1])
      == QueueRelease(QueueReleases(w, outs, release, recs[..i]), id, release, recs[i])
  {
    QueueReleasesSnoc(w, outs + [id], release, recs[..i + 1], i);
    assert (outs + [id])[..i + 1] == outs + [id] && (outs + [id])[..i] == outs;
    assert recs[..i + 1][..i + 1] == recs[..i + 1] && recs[..i + 1][..i] == recs[..i];
  }

  lemma FanoutChanges(w: World, k: nat, outs: seq<nat>)
    requires Enabled(w, FanoutCommit(k, outs))
    ensures Next(w, FanoutCommit(k, outs)) != w
  {
    FanoutFrame(w, k, outs);
    assert k !in Next(w, FanoutCommit(k, outs)).tasks;
  }

  lemma OutsMatch(w: World, k: nat, outs: seq<nat>, repoId: nat, release: Release, recs: seq<Recipient>)
    requires k in w.tasks && w.tasks[k] == FanoutListed(repoId, release, recs) && Enabled(w, FanoutCommit(k, outs))
    ensures |outs| == |recs|
  {
  }
}
