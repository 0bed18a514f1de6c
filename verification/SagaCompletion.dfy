/**
 Which sagas can still finish. The service does not promise that every saga ends: a compensation that is lost
 after COMPENSATING was committed is never started again. This module says exactly when that strands a saga.
 */
module SagaCompletion {
  import opened Prelude
  import opened SubscriptionTables
  import opened SagaProtocol
  import opened SagaFrames
  import opened SagaSafety

  predicate CompensationPending(w: World, r: nat) {
    exists k :: k in w.tasks && w.tasks[k].Compensation? && w.tasks[k].row == r
  }

  predicate ConfirmationPending(w: World, s: nat) {
    exists k :: k in w.tasks && w.tasks[k].ConfirmCommitted? && w.tasks[k].subId == s
  }

  /** What an operator can check: a worker still holds the saga, or its subscription can still be confirmed. */
  predicate CanStillMove(w: World, r: nat)
    requires r in w.t.sagas
  {
    || CompensationPending(w, r)
    || ConfirmationPending(w, w.t.sagas[r].subId)
    || w.t.sagas[r].subId in w.t.subs
  }

  /** A COMPENSATING saga with nothing left that could move it. */
  ghost predicate Stranded(w: World, r: nat) {
    r in w.t.sagas && w.t.sagas[r].state == Compensating && !CanStillMove(w, r)
  }

  /** A COMPENSATING saga that no worker holds. */
  ghost predicate Unheld(w: World, r: nat) {
    && r in w.t.sagas && w.t.sagas[r].state == Compensating
    && !CompensationPending(w, r) && !ConfirmationPending(w, w.t.sagas[r].subId)
  }

  lemma StrandedStep(w: World, e: Event, r: nat)
    requires Inv(w) && Stranded(w, r)
    ensures Stranded(Next(w, e), r)
  {
    hide Inv, Next;
    UnheldStep(w, e, r);
    StrandedSub(w, e, r);
  }

  /** Only a confirmation of its subscription can put an unheld saga into somebody's hands again. */
  lemma UnheldStep(w: World, e: Event, r: nat)
    requires Inv(w) && Unheld(w, r)
    requires e == Confirm(w.t.sagas[r].subId) ==> w.t.sagas[r].subId !in w.t.subs
    ensures Unheld(Next(w, e), r) && Next(w, e).t.sagas[r].subId == w.t.sagas[r].subId
  {
    hide Inv, Next;
    UnheldState(w, e, r);
    UnheldTasks(w, e, r);
  }

  lemma UnheldState(w: World, e: Event, r: nat)
    requires Inv(w) && Unheld(w, r)
    ensures r in Next(w, e).t.sagas && Next(w, e).t.sagas[r].state == Compensating
    ensures Next(w, e).t.sagas[r].subId == w.t.sagas[r].subId
  {
    hide Inv, Next, Unconfirmed;
    SagaUnder(w, e, r);
    if Enabled(w, e) && e.HandleConfirmed? {
      HandleConfirmedOther(w, e.task, e.row, r);
    }
    if Enabled(w, e) && e.Compensate? {
      UnheldNotCompensated(w, e, r);
    }
    hide CompensationPending, ConfirmationPending;
  }

  lemma UnheldNotCompensated(w: World, e: Event, r: nat)
    requires Unheld(w, r) && Enabled(w, e) && e.Compensate?
    ensures w.tasks[e.task].row != r
  {
  }

  lemma HandleConfirmedOther(w: World, k: nat, row: nat, r: nat)
    requires Unheld(w, r) && Enabled(w, HandleConfirmed(k, row))
    ensures row != r
  {
  }

  lemma UnheldTasks(w: World, e: Event, r: nat)
    requires Inv(w) && Unheld(w, r)
    requires e == Confirm(w.t.sagas[r].subId) ==> w.t.sagas[r].subId !in w.t.subs
    ensures !CompensationPending(Next(w, e), r) && !ConfirmationPending(Next(w, e), w.t.sagas[r].subId)
  {
    hide Inv, Next;
    forall k | k in Next(w, e).tasks
      ensures Next(w, e).tasks[k].Compensation? ==> Next(w, e).tasks[k].row != r
      ensures Next(w, e).tasks[k].ConfirmCommitted? ==> Next(w, e).tasks[k].subId != w.t.sagas[r].subId
    {
      TaskOrigin(w, e, k);
      if Enabled(w, e) {
        UnheldBySource(w, e, r);
      }
    }
  }

  /** None of the other events that start a compensation or a confirmation applies to it. */
  lemma UnheldBySource(w: World, e: Event, r: nat)
    requires Unheld(w, r) && Enabled(w, e)
    ensures e.EmailFailed? ==> e.row != r
    ensures e.Reap? ==> r !in e.rows
  {
  }

  lemma StrandedSub(w: World, e: Event, r: nat)
    requires Inv(w) && Stranded(w, r)
    ensures w.t.sagas[r].subId !in Next(w, e).t.subs
  {
    var s := w.t.sagas[r].subId;
    SagaSubCreated(w, r);
    hide Inv, Next;
    if s in Next(w, e).t.subs {
      SubUnder(w, e, s);
    }
  }

  lemma SagaSubCreated(w: World, r: nat)
    requires Inv(w) && r in w.t.sagas
    ensures w.t.sagas[r].subId in w.h.created
  {
  }

  /** Nothing that can happen later revives a stranded saga. */
  lemma {:induction false} StrandedForever(w: World, es: seq<Event>, r: nat)
    requires Reachable(w) && Stranded(w, r)
    ensures Stranded(Run(w, es), r)
    decreases |es|
  {
    hide Inv, Stranded, Reachable;
    if es != [] {
      ReachableInv(w);
      StrandedStep(w, es[0], r);
      ReachableStep(w, es[0]);
      StrandedForever(Next(w, es[0]), es[1..], r);
    }
  }

  /** Some continuation takes the saga to a terminal state. */
  ghost predicate CanFinish(w: World, r: nat) {
    exists es :: r in Run(w, es).t.sagas && Terminal(Run(w, es).t.sagas[r].state)
  }

  lemma FinishesBy(w: World, es: seq<Event>, r: nat)
    requires r in Run(w, es).t.sagas && Terminal(Run(w, es).t.sagas[r].state)
    ensures CanFinish(w, r)
  {
  }

  /**
   A COMPENSATING saga can still finish if and only if its compensation or the second half of its confirmation
   is still pending, or its subscription still exists. Otherwise no delivery, tick or reaper pass revives it.
   */
  lemma CompensatingFinishesIff(w: World, r: nat)
    requires Reachable(w) && r in w.t.sagas && w.t.sagas[r].state == Compensating
    ensures CanFinish(w, r) <==> CanStillMove(w, r)
  {
    ReachableInv(w);
    hide Inv, Reachable;
    if CanStillMove(w, r) {
      MovingFinishes(w, r);
    } else if CanFinish(w, r) {
      var es :| r in Run(w, es).t.sagas && Terminal(Run(w, es).t.sagas[r].state);
      StrandedForever(w, es, r);
      assert false;
    }
  }

  lemma MovingFinishes(w: World, r: nat)
    requires Inv(w) && r in w.t.sagas && CanStillMove(w, r)
    ensures CanFinish(w, r)
  {
    hide Inv, CanFinish;
    if CompensationPending(w, r) {
      var k :| k in w.tasks && w.tasks[k].Compensation? && w.tasks[k].row == r;
      PendingFinishes(w, k);
    } else if ConfirmationPending(w, w.t.sagas[r].subId) {
      var k :| k in w.tasks && w.tasks[k].ConfirmCommitted? && w.tasks[k].subId == w.t.sagas[r].subId;
      ConfirmationFinishes(w, k, r);
    } else {
      LiveFinishes(w, r);
    }
  }

  lemma LiveFinishes(w: World, r: nat)
    requires r in w.t.sagas && w.t.sagas[r].subId in w.t.subs
    ensures CanFinish(w, r)
  {
    var s := w.t.sagas[r].subId;
    ConfirmationFinishes(Next(w, Confirm(s)), w.nextTask, r);
    assert [Confirm(s), HandleConfirmed(w.nextTask, r)][1..] == [HandleConfirmed(w.nextTask, r)];
    FinishesBy(w, [Confirm(s), HandleConfirmed(w.nextTask, r)], r);
  }

  lemma PendingFinishes(w: World, k: nat)
    requires Inv(w) && k in w.tasks && w.tasks[k].Compensation?
    ensures CanFinish(w, w.tasks[k].row)
  {
    CompensationEnds(w, k);
    hide Next;
    OneEvent(w, Compensate(k));
    FinishesBy(w, [Compensate(k)], w.tasks[k].row);
  }

  lemma CompensationEnds(w: World, k: nat)
    requires Inv(w) && k in w.tasks && w.tasks[k].Compensation?
    ensures var w' := Next(w, Compensate(k));
      w.tasks[k].row in w'.t.sagas && Terminal(w'.t.sagas[w.tasks[k].row].state)
  {
    CompensateState(w, k);
    hide Inv;
  }

  lemma ConfirmationEnds(w: World, k: nat, r: nat)
    requires k in w.tasks && w.tasks[k].ConfirmCommitted? && r in w.t.sagas && w.t.sagas[r].subId == w.tasks[k].subId
    ensures var w' := Next(w, HandleConfirmed(k, r));
      r in w'.t.sagas && Terminal(w'.t.sagas[r].state)
  {
  }

  lemma ConfirmationFinishes(w: World, k: nat, r: nat)
    requires k in w.tasks && w.tasks[k].ConfirmCommitted? && r in w.t.sagas && w.t.sagas[r].subId == w.tasks[k].subId
    ensures r in Run(w, [HandleConfirmed(k, r)]).t.sagas
    ensures Terminal(Run(w, [HandleConfirmed(k, r)]).t.sagas[r].state)
    ensures CanFinish(w, r)
  {
    ConfirmationEnds(w, k, r);
    hide Next;
    OneEvent(w, HandleConfirmed(k, r));
    FinishesBy(w, [HandleConfirmed(k, r)], r);
  }

  /** An active saga can always finish: its deadline passes, the reaper marks it, its compensation runs. */
  lemma ActiveCanFinish(w: World, r: nat)
    requires Reachable(w) && r in w.t.sagas && Active(w.t.sagas[r].state)
    ensures CanFinish(w, r)
  {
    ReachableInv(w);
    hide Inv, Reachable;
    var w1 := Next(w, Tick(w.now + w.t.sagas[r].deadline + 1));
    EventKeepsInv(w, Tick(w.now + w.t.sagas[r].deadline + 1));
    ActiveReaped(w1, r);
    var es :| r in Run(w1, es).t.sagas && Terminal(Run(w1, es).t.sagas[r].state);
    assert ([Tick(w.now + w.t.sagas[r].deadline + 1)] + es)[1..] == es;
    FinishesBy(w, [Tick(w.now + w.t.sagas[r].deadline + 1)] + es, r);
  }

  lemma ActiveReaped(w: World, r: nat)
    requires Inv(w) && Expired(w.t, w.now, r)
    ensures CanFinish(w, r)
  {
    var w1 := Next(w, Reap([r]));
    EventKeepsInv(w, Reap([r]));
    ReapOne(w, r);
    PendingFinishes(w1, w.nextTask);
    var es :| r in Run(w1, es).t.sagas && Terminal(Run(w1, es).t.sagas[r].state);
    assert ([Reap([r])] + es)[1..] == es;
    FinishesBy(w, [Reap([r])] + es, r);
  }

  lemma ReapOne(w: World, r: nat)
    requires Expired(w.t, w.now, r)
    ensures Next(w, Reap([r])) == MarkCompensating(w, r, None, DeadlineReason)
  {
    var w1 := MarkCompensating(w, r, None, DeadlineReason);
    assert [r][1..] == [];
    assert MarkAll(w1, []) == w1;
    assert Enabled(w, Reap([r]));
  }

  /**
   The reverse side. A compensation lost between the two transactions of an expiry strands exactly the sagas whose
   subscription is gone and for which no confirmation is pending.
   */
  lemma LostCompensationStrandsIff(w: World, r: nat)
    requires Reachable(w) && Expired(w.t, w.now, r)
    ensures var s := w.t.sagas[r].subId;
      Stranded(Run(w, [Reap([r]), Drop(w.nextTask)]), r) <==> s !in w.t.subs && !ConfirmationPending(w, s)
  {
    RunTwo(w, Reap([r]), Drop(w.nextTask));
    ReachableInv(w);
    hide Reachable, Next;
    CrashNow(w, r);
  }

  /**
   So does the loss of a compensation while the subscription still exists, once the subscriber unsubscribes: from
   any world with an expired saga for which no confirmation is pending, in every continuation.
   */
  lemma CrashStrands(w: World, r: nat, es: seq<Event>)
    requires Reachable(w) && Expired(w.t, w.now, r)
    requires w.t.sagas[r].subId in w.t.subs && !ConfirmationPending(w, w.t.sagas[r].subId)
    ensures var s := w.t.sagas[r].subId;
      var crash := [Reap([r]), Drop(w.nextTask), UnsubscribeFind(s), UnsubscribeDelete(w.nextTask + 1)];
      Stranded(Run(w, crash + es), r)
  {
    var s := w.t.sagas[r].subId;
    var (e1, e2, e3, e4) := (Reap([r]), Drop(w.nextTask), UnsubscribeFind(s), UnsubscribeDelete(w.nextTask + 1));
    RunFour(w, e1, e2, e3, e4);
    RunAppend(w, [e1, e2, e3, e4], es);
    ReachableInv(w);
    ReachableFour(w, e1, e2, e3, e4);
    hide Inv, Reachable, Next, Stranded;
    CrashStrandsNow(w, r);
    StrandedForever(Run(w, [e1, e2, e3, e4]), es, r);
  }

  lemma ReachableFour(w: World, e1: Event, e2: Event, e3: Event, e4: Event)
    requires Reachable(w)
    ensures Reachable(Next(Next(Next(Next(w, e1), e2), e3), e4))
  {
    hide Reachable, Next;
    ReachableStep(w, e1);
    ReachableStep(Next(w, e1), e2);
    ReachableStep(Next(Next(w, e1), e2), e3);
    ReachableStep(Next(Next(Next(w, e1), e2), e3), e4);
  }

  lemma CrashStrandsNow(w: World, r: nat)
    requires Inv(w) && Expired(w.t, w.now, r)
    requires w.t.sagas[r].subId in w.t.subs && !ConfirmationPending(w, w.t.sagas[r].subId)
    ensures var s := w.t.sagas[r].subId;
      Stranded(Next(Next(Next(Next(w, Reap([r])), Drop(w.nextTask)), UnsubscribeFind(s)), UnsubscribeDelete(w.nextTask + 1)), r)
  {
    hide Inv, Next;
    CrashNow(w, r);
    UnsubscribeRemoves(Next(Next(w, Reap([r])), Drop(w.nextTask)), w.t.sagas[r].subId);
  }

  /** After the crash the saga is COMPENSATING, nobody compensates it, and everything else is as it was. */
  lemma CrashNow(w: World, r: nat)
    requires Inv(w) && Expired(w.t, w.now, r)
    ensures var w' := Next(Next(w, Reap([r])), Drop(w.nextTask));
      && w'.tasks == w.tasks && w'.nextTask == w.nextTask + 1
      && w'.t == SetState(w.t, r, Compensating, None)
      && !CompensationPending(w', r)
  {
    hide SubsUnique, SubsRefer, SubsOk, CreatedOk, SagaIdsUnique, SagasOk, FailedOk, DeletedOk, CompletedOk, AwaitedOk,
      StartedOk, OtherTasksOk, QueuedOk, RequestOk, ReposOk, CompensationsOk, Next;
    NobodyCompensates(w.tasks, r, w.t, w.h);
    CrashState(w, r);
  }

  lemma CrashState(w: World, r: nat)
    requires Expired(w.t, w.now, r) && w.nextTask !in w.tasks
    ensures var w' := Next(Next(w, Reap([r])), Drop(w.nextTask));
      && w'.tasks == w.tasks && w'.nextTask == w.nextTask + 1
      && w'.t == SetState(w.t, r, Compensating, None)
  {
    ReapOne(w, r);
    var w1 := MarkCompensating(w, r, None, DeadlineReason);
    assert (w1.tasks - {w.nextTask}) == w.tasks;
  }

  lemma UnsubscribeRemoves(w: World, s: nat)
    requires s in w.t.subs
    ensures var w' := Next(Next(w, UnsubscribeFind(s)), UnsubscribeDelete(w.nextTask));
      && w'.tasks == w.tasks[w.nextTask := CleanupCheck(w.t.subs[s].repoId)]
      && w'.t.sagas == w.t.sagas && s !in w'.t.subs
  {
    var w1 := Next(w, UnsubscribeFind(s));
    assert w1.t.subs[s].unsubscribeToken == w1.tasks[w.nextTask].token;
  }

  lemma NobodyCompensates(tasks: Tasks, r: nat, t: Tables, h: History)
    requires r in t.sagas && Active(t.sagas[r].state)
    requires CompensationsOk(tasks, t.sagas, h.started, h.confirmed)
    ensures forall k :: k in tasks && tasks[k].Compensation? ==> tasks[k].row != r
  {
  }

  lemma RunFour(w: World, e1: Event, e2: Event, e3: Event, e4: Event)
    ensures Run(w, [e1, e2, e3, e4]) == Next(Next(Next(Next(w, e1), e2), e3), e4)
  {
    RunAppend(w, [e1, e2], [e3, e4]);
    assert [e1, e2] + [e3, e4] == [e1, e2, e3, e4];
    RunTwo(w, e1, e2);
    RunTwo(Next(Next(w, e1), e2), e3, e4);
  }
}
