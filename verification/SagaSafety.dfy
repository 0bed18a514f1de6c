/**
 What holds over every run of the saga protocol: who wins the race between a confirmation and a compensation,
 that terminal states are final, how often a saga can change state, and which sagas can still finish.
 */
module SagaSafety {
  import opened Prelude
  import opened SubscriptionTables
  import opened SagaProtocol
  import opened SagaFrames

  ghost predicate Reachable(w: World) {
    exists es :: w == Run(Init, es)
  }

  lemma ReachableInv(w: World)
    requires Reachable(w)
    ensures Inv(w)
  {
    var es :| w == Run(Init, es);
    InitInv();
    RunKeepsInv(Init, es);
  }

  lemma ReachableStep(w: World, e: Event)
    requires Reachable(w)
    ensures Reachable(Next(w, e))
  {
    var es :| w == Run(Init, es);
    RunLast(Init, es, e);
  }

  lemma ReachableRun(w: World, es: seq<Event>)
    requires Reachable(w)
    ensures Reachable(Run(w, es))
  {
    var before :| w == Run(Init, before);
    RunAppend(Init, before, es);
  }

  // -- The state diagram the code implements

  predicate Edge(from: State, to: State) {
    match from
    case Started => to == AwaitingConfirmation || to == Compensating || to == Completed
    case AwaitingConfirmation => to == Compensating || to == Completed
    case Compensating => to == Failed || to == Completed
    case Completed => false
    case Failed => false
  }

  /** The state diagram: every committed step moves a saga along an edge or leaves its state, and never its identity. */
  lemma MovesAlongEdges(w: World, e: Event, r: nat)
    requires Reachable(w) && r in w.t.sagas
    ensures var g := w.t.sagas[r];
      && r in Next(w, e).t.sagas
      && var g' := Next(w, e).t.sagas[r];
      && g'.(state := g.state, lastError := g.lastError) == g
      && (g'.state == g.state || Edge(g.state, g'.state))
  {
    ReachableInv(w);
    hide Inv, Reachable;
    EventMovesAlongEdge(w, e, r);
    hide Next;
  }

  lemma EventMovesAlongEdge(w: World, e: Event, r: nat)
    requires Inv(w) && r in w.t.sagas
    ensures var g := w.t.sagas[r];
      && r in Next(w, e).t.sagas
      && var g' := Next(w, e).t.sagas[r];
      && g'.(state := g.state, lastError := g.lastError) == g
      && (g'.state == g.state || Edge(g.state, g'.state))
  {
    hide Inv, Next;
    SagaUnder(w, e, r);
    StateMoves(w, e, r);
    hide StateAfter;
  }

  lemma StateMoves(w: World, e: Event, r: nat)
    requires Inv(w) && r in w.t.sagas
    ensures StateAfter(w, e, r) == w.t.sagas[r].state || Edge(w.t.sagas[r].state, StateAfter(w, e, r))
  {
    hide Inv, Unconfirmed;
    if Enabled(w, e) && e.Compensate? {
      CompensateState(w, e.task);
    }
  }

  /** `compensate` writes its state without reading the row; the invariant is what makes that write an edge. */
  lemma CompensateState(w: World, k: nat)
    requires Inv(w) && Enabled(w, Compensate(k))
    ensures var c := w.tasks[k];
      && c.row in w.t.sagas && c.saga.subId == w.t.sagas[c.row].subId
      && (w.t.sagas[c.row].state == Compensating || w.t.sagas[c.row].state == Completed)
      && (Unconfirmed(w.t, c.saga.subId) ==> w.t.sagas[c.row].state == Compensating)
  {
    PendingFacts(w.tasks, k, w.nextTask, w.t.sagas, w.h);
    if Unconfirmed(w.t, w.tasks[k].saga.subId) {
      PendingUnconfirmed(w.t, w.tasks[k], w.h);
    }
  }

  /** COMPLETED and FAILED are absorbing over every continuation of a reachable world. */
  lemma {:induction false} TerminalForever(w: World, es: seq<Event>, r: nat)
    requires Reachable(w) && r in w.t.sagas && Terminal(w.t.sagas[r].state)
    ensures r in Run(w, es).t.sagas && Run(w, es).t.sagas[r].state == w.t.sagas[r].state
    decreases |es|
  {
    hide Inv, Reachable;
    if es != [] {
      ReachableInv(w);
      EventMovesAlongEdge(w, es[0], r);
      ReachableStep(w, es[0]);
      TerminalForever(Next(w, es[0]), es[1..], r);
    }
  }

  // -- The race between confirmation and compensation

  /**
   A saga becomes FAILED in exactly one way: its own pending compensation runs, finds its subscription
   present and unconfirmed, and deletes it.
   */
  lemma FailsOnlyByOwnCompensation(w: World, e: Event, r: nat)
    requires Reachable(w) && r in w.t.sagas && w.t.sagas[r].state != Failed
    ensures Next(w, e).t.sagas.Keys >= w.t.sagas.Keys
    ensures Next(w, e).t.sagas[r].state == Failed <==>
      && e.Compensate? && e.task in w.tasks && w.tasks[e.task].Compensation? && w.tasks[e.task].row == r
      && Unconfirmed(w.t, w.t.sagas[r].subId)
    ensures Next(w, e).t.sagas[r].state == Failed ==> w.t.sagas[r].subId !in Next(w, e).t.subs
  {
    ReachableInv(w);
    hide Inv, Reachable;
    FailsByItself(w, e, r);
    hide Next;
  }

  lemma FailsByItself(w: World, e: Event, r: nat)
    requires Inv(w) && r in w.t.sagas && w.t.sagas[r].state != Failed
    ensures Next(w, e).t.sagas.Keys >= w.t.sagas.Keys
    ensures Next(w, e).t.sagas[r].state == Failed <==>
      && e.Compensate? && e.task in w.tasks && w.tasks[e.task].Compensation? && w.tasks[e.task].row == r
      && Unconfirmed(w.t, w.t.sagas[r].subId)
    ensures Next(w, e).t.sagas[r].state == Failed ==> w.t.sagas[r].subId !in Next(w, e).t.subs
  {
    hide Inv, Next, Unconfirmed;
    EventKeepsSagas(w, e);
    SagaUnder(w, e, r);
    if e.Compensate? && Enabled(w, e) {
      CompensateState(w, e.task);
      if Unconfirmed(w.t, w.tasks[e.task].saga.subId) {
        CompensateDeletes(w, e.task);
      }
    }
  }

  lemma CompensateDeletes(w: World, k: nat)
    requires Enabled(w, Compensate(k)) && Unconfirmed(w.t, w.tasks[k].saga.subId)
    ensures w.tasks[k].saga.subId !in Next(w, Compensate(k)).t.subs
  {
  }

  lemma EventKeepsSagas(w: World, e: Event)
    ensures Next(w, e).t.sagas.Keys >= w.t.sagas.Keys
  {
    hide Next;
    forall r | r in w.t.sagas ensures r in Next(w, e).t.sagas {
      SagaUnder(w, e, r);
    }
  }

  /**
   Exactly one side wins. In every reachable world: a saga is FAILED if and only if its subscription is one a
   compensation deleted; such a subscription was never confirmed and is gone; and a COMPLETED saga's
   subscription was confirmed or is gone, and no compensation deleted it.
   */
  lemma OneSideWins(w: World, r: nat)
    requires Reachable(w) && r in w.t.sagas
    ensures var (s, state) := (w.t.sagas[r].subId, w.t.sagas[r].state);
      && (state == Failed <==> s in w.h.failedBy)
      && (s in w.h.failedBy ==> w.h.failedBy[s] == r && s !in w.h.confirmed && s !in w.t.subs)
      && (s in w.h.confirmed ==> state != Failed)
      && (state == Completed ==> s !in w.h.failedBy && (s in w.h.confirmed || s !in w.t.subs))
  {
    ReachableInv(w);
    FailedMatches(w.t.sagas, r, w.t.subs, w.h);
  }

  lemma FailedMatches(sagas: Sagas, r: nat, subs: Subs, h: History)
    requires r in sagas && SagasOk(sagas, h.created, h.sagaOf) && FailedOk(sagas, h.failedBy)
    requires DeletedOk(subs, h.created, h.confirmed, h.failedBy) && CompletedOk(sagas, subs, h.confirmed)
    ensures sagas[r].state == Failed <==> sagas[r].subId in h.failedBy
    ensures sagas[r].subId in h.failedBy ==>
      h.failedBy[sagas[r].subId] == r && sagas[r].subId !in h.confirmed && sagas[r].subId !in subs
    ensures sagas[r].state == Completed ==> sagas[r].subId in h.confirmed || sagas[r].subId !in subs
  {
  }

  lemma {:induction false} ConfirmedForever(w: World, es: seq<Event>)
    ensures w.h.confirmed <= Run(w, es).h.confirmed
    decreases |es|
  {
    if es != [] {
      EventKeepsConfirmed(w, es[0]);
      ConfirmedForever(Next(w, es[0]), es[1..]);
    }
  }

  lemma EventKeepsConfirmed(w: World, e: Event)
    ensures w.h.confirmed <= Next(w, e).h.confirmed
  {
    hide Next, Enabled;
    OutcomesUnder(w, e);
  }

  /** Once a subscription is confirmed no later event fails its saga, whatever is delivered or crashes. */
  lemma ConfirmedNeverFails(w: World, es: seq<Event>, r: nat)
    requires Reachable(w) && r in w.t.sagas && w.t.sagas[r].subId in w.h.confirmed
    ensures r in Run(w, es).t.sagas && Run(w, es).t.sagas[r].state != Failed
    ensures w.t.sagas[r].subId !in Run(w, es).h.failedBy
  {
    ReachableInv(w);
    RunKeepsIdentity(w, es, r);
    ConfirmedForever(w, es);
    RunKeepsInv(w, es);
    var w' := Run(w, es);
    FailedMatches(w'.t.sagas, r, w'.t.subs, w'.h);
  }

  lemma {:induction false} RunKeepsIdentity(w: World, es: seq<Event>, r: nat)
    requires Inv(w) && r in w.t.sagas
    ensures r in Run(w, es).t.sagas && Run(w, es).t.sagas[r].subId == w.t.sagas[r].subId
    ensures Run(w, es).t.sagas[r].deadline == w.t.sagas[r].deadline
    ensures Run(w, es).t.sagas[r].sagaId == w.t.sagas[r].sagaId
    decreases |es|
  {
    hide Inv;
    if es != [] {
      EventMovesAlongEdge(w, es[0], r);
      EventKeepsInv(w, es[0]);
      RunKeepsIdentity(Next(w, es[0]), es[1..], r);
    }
  }

  /** The event starts a compensation of the saga in row `r`. */
  predicate StartsFor(w: World, e: Event, r: nat) {
    Enabled(w, e) && ((e.EmailFailed? && e.row == r) || (e.Reap? && r in e.rows))
  }

  /** The number of compensations a run starts for the saga in row `r`. */
  ghost function Starts(w: World, es: seq<Event>, r: nat): nat
    decreases |es|
  {
    if es == [] then 0
    else (if StartsFor(w, es[0], r) then 1 else 0) + Starts(Next(w, es[0]), es[1..], r)
  }

  lemma {:induction false} StartsRecorded(w: World, es: seq<Event>, r: nat)
    ensures Run(w, es).h.started[r] == w.h.started[r] + Starts(w, es, r)
    decreases |es|
  {
    if es != [] {
      StartRecorded(w, es[0], r);
      StartsRecorded(Next(w, es[0]), es[1..], r);
    }
  }

  lemma StartRecorded(w: World, e: Event, r: nat)
    ensures Next(w, e).h.started[r] == w.h.started[r] + (if StartsFor(w, e, r) then 1 else 0)
  {
    hide Next;
    OutcomesUnder(w, e);
    if Enabled(w, e) && e.Reap? {
      CountDistinct(e.rows, r);
    }
  }

  lemma {:induction false} CountDistinct(s: seq<nat>, x: nat)
    requires Distinct(s)
    ensures multiset(s)[x] == if x in s then 1 else 0
    decreases |s|
  {
    if s != [] {
      CountDistinct(s[1..], x);
      assert s == [s[0]] + s[1..];
    }
  }

  /**
   Whatever is redelivered, reaped or lost, a run starts at most one compensation for a saga: none while it is
   active, and exactly one for a saga that is COMPENSATING or FAILED.
   */
  lemma OneCompensation(es: seq<Event>, r: nat)
    ensures Starts(Init, es, r) <= 1
    ensures var sagas := Run(Init, es).t.sagas;
      && (r in sagas && Active(sagas[r].state) ==> Starts(Init, es, r) == 0)
      && (r in sagas && (sagas[r].state == Compensating || sagas[r].state == Failed) ==> Starts(Init, es, r) == 1)
  {
    var w := Run(Init, es);
    StartsRecorded(Init, es, r);
    assert Reachable(w);
    ReachableInv(w);
    StartedFacts(w.t.sagas, w.h, r);
    hide Inv;
  }

  lemma StartedFacts(sagas: Sagas, h: History, r: nat)
    requires StartedOk(sagas, h.started)
    ensures h.started[r] <= 1
    ensures r in sagas && Active(sagas[r].state) ==> h.started[r] == 0
    ensures r in sagas && (sagas[r].state == Compensating || sagas[r].state == Failed) ==> h.started[r] == 1
  {
  }

  /**
   A pending compensation is the only one of its saga, works on a saga that is no longer active, and for a
   COMPLETED saga will find the subscription confirmed or gone.
   */
  lemma PendingCompensation(w: World, k: nat, j: nat)
    requires Reachable(w)
    requires k in w.tasks && w.tasks[k].Compensation? && j in w.tasks && w.tasks[j].Compensation?
    ensures var c := w.tasks[k];
      && c.row in w.t.sagas && w.h.started[c.row] == 1
      && (w.tasks[j].row == c.row ==> j == k)
      && !Active(w.t.sagas[c.row].state) && w.t.sagas[c.row].state != Failed
      && (w.t.sagas[c.row].state == Completed ==> !Unconfirmed(w.t, c.saga.subId))
  {
    ReachableInv(w);
    CompensateState(w, k);
    var (c, h) := (w.tasks[k], w.h);
    StartedOnce(c, w.t.sagas, w.tasks, k, h);
    if j != k {
      PendingDistinct(w.tasks, k, j, w.t.sagas, h);
    }
  }

  lemma StartedOnce(c: Task, sagas: Sagas, tasks: Tasks, k: nat, h: History)
    requires k in tasks && tasks[k] == c && c.Compensation?
    requires CompensationsOk(tasks, sagas, h.started, h.confirmed) && StartedOk(sagas, h.started)
    ensures h.started[c.row] == 1
  {
    assert PendingOk(tasks[k], sagas, h.started, h.confirmed);
  }

  lemma PendingDistinct(tasks: Tasks, k: nat, j: nat, sagas: Sagas, h: History)
    requires k in tasks && j in tasks && k != j && tasks[k].Compensation? && tasks[j].Compensation?
    requires CompensationsOk(tasks, sagas, h.started, h.confirmed)
    ensures tasks[k].row != tasks[j].row
  {
  }

  // -- How often a saga can change state

  function Rank(s: State): nat {
    match s
    case Started => 3
    case AwaitingConfirmation => 2
    case Compensating => 1
    case Completed => 0
    case Failed => 0
  }

  /** The number of events of a run that changed the state of the saga in row `r`. */
  ghost function StateChanges(w: World, es: seq<Event>, r: nat): nat
    decreases |es|
  {
    if es == [] then 0
    else
      var w' := Next(w, es[0]);
      var here := if r in w.t.sagas && r in w'.t.sagas && w.t.sagas[r].state != w'.t.sagas[r].state then 1 else 0;
      here + StateChanges(w', es[1..], r)
  }

  /** Every change of state lowers the rank, so what a saga can still do is bounded by its rank. */
  lemma {:induction false} ChangesLowerRank(w: World, es: seq<Event>, r: nat)
    requires Inv(w)
    ensures r in w.t.sagas ==>
      && r in Run(w, es).t.sagas
      && StateChanges(w, es, r) + Rank(Run(w, es).t.sagas[r].state) <= Rank(w.t.sagas[r].state)
    ensures StateChanges(w, es, r) <= 3
    decreases |es|
  {
    hide Inv;
    if es != [] {
      if r in w.t.sagas {
        EventMovesAlongEdge(w, es[0], r);
      }
      EventKeepsInv(w, es[0]);
      ChangesLowerRank(Next(w, es[0]), es[1..], r);
    }
  }

  /** A run that ends with n sagas changed saga states at most 3n times, whatever was redelivered. */
  lemma AtMostThreeChangesEach(es: seq<Event>)
    ensures var sagas := Run(Init, es).t.sagas;
      SumOver(sagas.Keys, r => StateChanges(Init, es, r)) <= 3 * |sagas|
  {
    InitInv();
    var sagas := Run(Init, es).t.sagas;
    forall r | r in sagas.Keys ensures StateChanges(Init, es, r) <= 3 {
      ChangesLowerRank(Init, es, r);
    }
    SumOverAtMost(sagas.Keys, r => StateChanges(Init, es, r), 3);
    assert |sagas.Keys| == |sagas|;
  }
}
