/**
 What a committed subscribe, the repository catalog and the release fan-out guarantee in every reachable world.
 */
module SubscriptionFlows {
  import opened Prelude
  import opened SubscriptionTables
  import opened SagaProtocol
  import opened SagaFrames
  import opened SagaSafety

  // -- Subscribe

  /** One new row in each of three tables, each pointing at the others. */
  ghost predicate AddsTriple(t: Tables, t': Tables, sub: Sub, sagaId: string, deadline: nat) {
    && !sub.confirmed && sub.repoId in t.repos
    && exists s: nat, r: nat, o: nat ::
      && s !in t.subs && r !in t.sagas && o !in t.outbox
      && t' == WithTriple(t, sub, sagaId, deadline, s, r, o)
  }

  function WithTriple(t: Tables, sub: Sub, sagaId: string, deadline: nat, s: nat, r: nat, o: nat): Tables
    requires sub.repoId in t.repos
  {
    t.(subs := t.subs[s := sub],
       sagas := t.sagas[r := Saga(sagaId, s, sub.repoId, sub.email, Started, deadline, None)],
       outbox := t.outbox[o := OutboxRow(
         ConfirmationRequested(sagaId, sub.email, t.repos[sub.repoId].name, sub.confirmToken), false)])
  }

  /** A subscribe event adds one linked triple or changes no table at all. */
  lemma SubscribeAddsTripleOrNothing(w: World, e: Event)
    requires Reachable(w) && e.Subscribe?
    ensures var t' := Next(w, e).t;
      && (Enabled(w, e) ==> AddsTriple(w.t, t', e.sub, e.sagaId, e.deadline))
      && (!Enabled(w, e) ==> t' == w.t)
  {
    ReachableInv(w);
    hide Reachable;
    if Enabled(w, e) {
      EnsuredName(w.tasks, e.task, w.t.repos, w.h);
      FreshSub(w.t.subs, e.subId, w.h);
      assert Next(w, e).t == WithTriple(w.t, e.sub, e.sagaId, e.deadline, e.subId, e.row, e.out);
    }
  }

  lemma FreshSub(subs: Subs, s: nat, h: History)
    requires SubsOk(subs, h.created, h.confirmed) && s !in h.created
    ensures s !in subs
  {
  }

  lemma EnsuredName(tasks: Tasks, k: nat, repos: map<nat, Repo>, h: History)
    requires k in tasks && tasks[k].Ensured? && tasks[k].repoId in repos
    requires ReposOk(repos, h.named) && OtherTasksOk(tasks, h.named, h.created, h.confirmed)
    ensures repos[tasks[k].repoId].name == tasks[k].name
  {
  }

  /** In every reachable world sagas have pairwise distinct subscriptions and pairwise distinct requests. */
  lemma SagasAreDistinct(w: World, r: nat, q: nat)
    requires Reachable(w) && r in w.t.sagas && q in w.t.sagas && r != q
    ensures w.t.sagas[r].subId != w.t.sagas[q].subId
    ensures r in w.h.request && q in w.h.request && w.h.request[r] != w.h.request[q]
    ensures w.t.sagas[r].sagaId != w.t.sagas[q].sagaId
  {
    ReachableInv(w);
    DistinctBySub(w.t.sagas, r, q, w.h);
    DistinctByRequest(w.t.sagas, r, q, w.t.outbox, w.h);
  }

  lemma DistinctBySub(sagas: Sagas, r: nat, q: nat, h: History)
    requires SagasOk(sagas, h.created, h.sagaOf) && SagaIdsUnique(sagas)
    requires r in sagas && q in sagas && r != q
    ensures sagas[r].subId != sagas[q].subId && sagas[r].sagaId != sagas[q].sagaId
  {
  }

  lemma DistinctByRequest(sagas: Sagas, r: nat, q: nat, outbox: Outbox, h: History)
    requires RequestOk(sagas, outbox, h.created, h.named, h.request, h.requestOf)
    requires r in sagas && q in sagas && r != q
    ensures h.request[r] != h.request[q]
  {
    assert h.requestOf[h.request[r]] == r && h.requestOf[h.request[q]] == q;
  }

  // -- Catalog

  /** In every reachable world repository names are unique and every subscription's repository exists. */
  lemma CatalogKeys(w: World, r: nat, q: nat, s: nat)
    requires Reachable(w)
    ensures r in w.t.repos && q in w.t.repos && w.t.repos[r].name == w.t.repos[q].name ==> r == q
    ensures s in w.t.subs ==> w.t.subs[s].repoId in w.t.repos
  {
    ReachableInv(w);
    ReposDistinct(w.t, r, q, s, w.h);
  }

  lemma ReposDistinct(t: Tables, r: nat, q: nat, s: nat, h: History)
    requires ReposOk(t.repos, h.named) && SubsRefer(t.subs, t.repos)
    ensures r in t.repos && q in t.repos && t.repos[r].name == t.repos[q].name ==> r == q
    ensures s in t.subs ==> t.subs[s].repoId in t.repos
  {
  }

  /** The event at which Ensure obtains its id: at that very step the id is the live repository of that name. */
  lemma EnsureReturnsLiveId(w: World, e: Event, k: nat)
    requires k in Next(w, e).tasks && Next(w, e).tasks[k].Ensured?
    requires k !in w.tasks || !w.tasks[k].Ensured?
    ensures var c := Next(w, e).tasks[k];
      && c.repoId in Next(w, e).t.repos && Next(w, e).t.repos[c.repoId].name == c.name
      && (e.EnsureFind? || e.EnsureCreate? || e.EnsureFindAgain?)
  {
    hide Next;
    TaskOrigin(w, e, k);
  }

  /** The cleanup removes a subscription if and only if one refers to the repository when the DELETE runs. */
  lemma CleanupCascadesIff(w: World, k: nat)
    requires Enabled(w, CleanupDeleteRepo(k))
    ensures Next(w, CleanupDeleteRepo(k)).t.subs != w.t.subs <==> HasAny(w.t, w.tasks[k].repoId)
  {
    var t' := Next(w, CleanupDeleteRepo(k)).t;
    if HasAny(w.t, w.tasks[k].repoId) {
      var s :| s in w.t.subs && w.t.subs[s].repoId == w.tasks[k].repoId;
      assert s !in t'.subs;
    } else {
      assert t'.subs == w.t.subs;
    }
  }

  predicate SubscribesTo(e: Event, repoId: nat) {
    e.Subscribe? && e.sub.repoId == repoId
  }

  /** The i-th event of the run is a subscribe to the repository that commits, and `s` is the row it inserts. */
  ghost predicate SubscribedAt(w: World, es: seq<Event>, i: nat, repoId: nat, s: nat) {
    i < |es| && SubscribesTo(es[i], repoId) && es[i].subId == s && Enabled(Run(w, es[..i]), es[i])
  }

  lemma {:induction false} NewSubscriber(w: World, es: seq<Event>, repoId: nat, s: nat)
    requires !HasAny(w.t, repoId) && s in Run(w, es).t.subs && Run(w, es).t.subs[s].repoId == repoId
    ensures exists i :: SubscribedAt(w, es, i, repoId, s)
    decreases |es|
  {
    if es != [] {
      hide Next, Enabled;
      var (before, e) := (es[..|es| - 1], es[|es| - 1]);
      var w1 := Run(w, before);
      RunLast(w, before, e);
      assert es == before + [e];
      SubUnder(w1, e, s);
      if s in w1.t.subs && w1.t.subs[s].repoId == repoId {
        NewSubscriber(w, before, repoId, s);
        var i: nat :| SubscribedAt(w, before, i, repoId, s);
        assert es[..i] == before[..i];
        assert SubscribedAt(w, es, i, repoId, s);
      } else {
        assert SubscribedAt(w, es, |es| - 1, repoId, s);
      }
    }
  }

  lemma {:induction false} CreatedForever(w: World, es: seq<Event>, s: nat)
    requires s in w.h.created
    ensures s in Run(w, es).h.created && Run(w, es).h.created[s] == w.h.created[s]
    decreases |es|
  {
    if es != [] {
      hide Next;
      RecordsUnder(w, es[0]);
      CreatedForever(Next(w, es[0]), es[1..], s);
    }
  }

  /** What a subscribe inserted belongs to its repository as long as it lives. */
  lemma SubscriberStays(w: World, es: seq<Event>, i: nat, repoId: nat, s: nat)
    requires Reachable(w) && SubscribedAt(w, es, i, repoId, s) && s in Run(w, es).t.subs
    ensures Run(w, es).t.subs[s].repoId == repoId
  {
    hide Reachable, Inv;
    var w1 := Run(w, es[..i]);
    SubscribeRecords(w1, es[i]);
    assert es[..i] + [es[i]] == es[..i + 1] && es[..i + 1] + es[i + 1..] == es;
    RunLast(w, es[..i], es[i]);
    RunAppend(w, es[..i + 1], es[i + 1..]);
    CreatedForever(Next(w1, es[i]), es[i + 1..], s);
    ReachableRun(w, es);
    LiveIsCreated(Run(w, es), s);
  }

  lemma SubscribeRecords(w: World, e: Event)
    requires e.Subscribe? && Enabled(w, e)
    ensures e.subId in Next(w, e).h.created && Next(w, e).h.created[e.subId] == e.sub
  {
  }

  lemma LiveIsCreated(w: World, s: nat)
    requires Reachable(w) && s in w.t.subs
    ensures s in w.h.created && w.t.subs[s].repoId == w.h.created[s].repoId
  {
    ReachableInv(w);
    SubAsCreated(w.t.subs, s, w.h);
  }

  lemma SubAsCreated(subs: Subs, s: nat, h: History)
    requires SubsOk(subs, h.created, h.confirmed) && s in subs
    ensures s in h.created && subs[s].repoId == h.created[s].repoId
  {
  }

  /** After an empty check a repository has subscriptions exactly if a subscribe to it committed and its row is there. */
  lemma OrphanUntilSubscribed(w: World, es: seq<Event>, repoId: nat)
    requires Reachable(w) && !HasAny(w.t, repoId)
    ensures HasAny(Run(w, es).t, repoId) <==>
      exists i, s :: SubscribedAt(w, es, i, repoId, s) && s in Run(w, es).t.subs
  {
    hide Reachable, Run, Next, Enabled, SubscribedAt;
    if HasAny(Run(w, es).t, repoId) {
      var s :| s in Run(w, es).t.subs && Run(w, es).t.subs[s].repoId == repoId;
      NewSubscriber(w, es, repoId, s);
    }
    if i: nat, s: nat :| SubscribedAt(w, es, i, repoId, s) && s in Run(w, es).t.subs {
      SubscriberStays(w, es, i, repoId, s);
    }
  }

  /**
   When the cleanup is unsafe. With any events between its empty check and its delete, the delete removes
   subscriptions if and only if a subscribe to the repository committed in between and its row is still there.
   */
  lemma CleanupCascadesIffSubscribed(w: World, k: nat, es: seq<Event>)
    requires Reachable(w) && Enabled(w, CleanupHasAny(k)) && !HasAny(w.t, w.tasks[k].repoId)
    ensures var (w0, repoId) := (Next(w, CleanupHasAny(k)), w.tasks[k].repoId);
      var w1 := Run(w0, es);
      k in w1.tasks && w1.tasks[k] == CleanupDelete(repoId) ==>
        (Next(w1, CleanupDeleteRepo(k)).t.subs != w1.t.subs <==>
         exists i, s :: SubscribedAt(w0, es, i, repoId, s) && s in w1.t.subs)
  {
    var w0 := Next(w, CleanupHasAny(k));
    ReachableStep(w, CleanupHasAny(k));
    CheckChangesNothing(w, k);
    hide Reachable, Next, Enabled, SubscribedAt, HasAny;
    OrphanUntilSubscribed(w0, es, w.tasks[k].repoId);
    var w1 := Run(w0, es);
    if k in w1.tasks && w1.tasks[k] == CleanupDelete(w.tasks[k].repoId) {
      CleanupCascades(w1, k);
    }
  }

  lemma CheckChangesNothing(w: World, k: nat)
    requires Enabled(w, CleanupHasAny(k))
    ensures Next(w, CleanupHasAny(k)).t == w.t
  {
  }

  lemma CleanupCascades(w: World, k: nat)
    requires k in w.tasks && w.tasks[k].CleanupDelete?
    ensures Next(w, CleanupDeleteRepo(k)).t.subs != w.t.subs <==> HasAny(w.t, w.tasks[k].repoId)
  {
    CleanupCascadesIff(w, k);
  }

  /**
   It can even remove a confirmed subscription: from every reachable state with an empty check and a subscribe to
   the repository both due, the check, the subscribe, a confirmation and the delete are a run that does.
   */
  lemma CleanupCanRemoveConfirmed(w: World, k: nat, j: nat, sagaId: string, sub: Sub, deadline: nat,
                                  s: nat, row: nat, out: nat)
    requires Reachable(w)
    requires Enabled(w, CleanupHasAny(k)) && !HasAny(w.t, w.tasks[k].repoId) && k != j && k != w.nextTask
    requires Enabled(w, Subscribe(j, sagaId, sub, deadline, s, row, out)) && sub.repoId == w.tasks[k].repoId
    ensures var w1 := Run(w, [CleanupHasAny(k), Subscribe(j, sagaId, sub, deadline, s, row, out), Confirm(s)]);
      && Reachable(w1) && Reachable(Next(w1, CleanupDeleteRepo(k)))
      && s in w1.t.subs && w1.t.subs[s].confirmed
      && s !in Next(w1, CleanupDeleteRepo(k)).t.subs
  {
    var (e1, e2) := (CleanupHasAny(k), Subscribe(j, sagaId, sub, deadline, s, row, out));
    hide Next, Enabled, Reachable;
    var w2 := Next(Next(w, e1), e2);
    SubscribeBetween(w, k, j, sagaId, sub, deadline, s, row, out);
    ConfirmThenDelete(w2, k, s);
    RunThree(w, e1, e2, Confirm(s));
    ReachableRun(w, [e1, e2, Confirm(s)]);
    ReachableStep(Next(w2, Confirm(s)), CleanupDeleteRepo(k));
  }

  lemma ConfirmThenDelete(w: World, k: nat, s: nat)
    requires s in w.t.subs && k in w.tasks && k != w.nextTask && w.tasks[k] == CleanupDelete(w.t.subs[s].repoId)
    ensures var w' := Next(w, Confirm(s));
      && s in w'.t.subs && w'.t.subs[s].confirmed
      && s !in Next(w', CleanupDeleteRepo(k)).t.subs
  {
    assert Next(w, Confirm(s)).tasks[k] == w.tasks[k];
  }

  lemma SubscribeBetween(w: World, k: nat, j: nat, sagaId: string, sub: Sub, deadline: nat,
                         s: nat, row: nat, out: nat)
    requires Enabled(w, CleanupHasAny(k)) && !HasAny(w.t, w.tasks[k].repoId) && k != j
    requires Enabled(w, Subscribe(j, sagaId, sub, deadline, s, row, out))
    ensures var w2 := Next(Next(w, CleanupHasAny(k)), Subscribe(j, sagaId, sub, deadline, s, row, out));
      && s in w2.t.subs && w2.t.subs[s] == sub
      && k in w2.tasks && w2.tasks[k] == CleanupDelete(w.tasks[k].repoId) && w2.nextTask == w.nextTask
  {
    var w1 := Next(w, CleanupHasAny(k));
    assert w1.t == w.t && w1.h == w.h && w1.tasks[j] == w.tasks[j];
    assert Enabled(w1, Subscribe(j, sagaId, sub, deadline, s, row, out));
  }

  lemma RunThree(w: World, e1: Event, e2: Event, e3: Event)
    ensures Run(w, [e1, e2, e3]) == Next(Next(Next(w, e1), e2), e3)
  {
    assert [e1, e2, e3][1..] == [e2, e3] && [e2, e3][1..] == [e3] && [e3][1..] == [];
    assert Run(Next(Next(Next(w, e1), e2), e3), []) == Next(Next(Next(w, e1), e2), e3);
    assert Run(Next(Next(w, e1), e2), [e3]) == Next(Next(Next(w, e1), e2), e3);
  }

  // -- Release fan-out

  /** Committing a listed fan-out adds exactly one row per listed recipient, in order, and touches no other row. */
  lemma FanoutQueuesOneRowEach(w: World, k: nat, outs: seq<nat>, i: nat)
    requires Enabled(w, FanoutCommit(k, outs))
    ensures var (w', c) := (Next(w, FanoutCommit(k, outs)), w.tasks[k]);
      && w'.t.outbox.Keys == w.t.outbox.Keys + (set o | o in outs)
      && (forall o :: o in w.t.outbox ==> w'.t.outbox[o] == w.t.outbox[o])
      && (i < |outs| ==>
            && outs[i] in w'.t.outbox
            && w'.t.outbox[outs[i]] ==
                 OutboxRow(ReleaseDetected(c.recipients[i].email, c.recipients[i].unsubscribeToken, c.release), false)
            && outs[i] in w'.h.queuedFor && w'.h.queuedFor[outs[i]] == c.recipients[i].subId)
  {
    var c := w.tasks[k];
    var w0 := Finish(w, k).(t := SetLastSeenTag(w.t, c.repoId, c.release.tag));
    QueueReleasesFrame(w0, outs, c.release, c.recipients);
    if i < |outs| {
      QueuesRow(w0, outs, c.release, c.recipients, i);
    }
  }

  lemma {:induction false} QueuesRow(w: World, outs: seq<nat>, release: Release, recs: seq<Recipient>, i: nat)
    requires |outs| == |recs| && Distinct(outs) && i < |outs|
    ensures var w' := QueueReleases(w, outs, release, recs);
      && outs[i] in w'.t.outbox
      && w'.t.outbox[outs[i]] ==
           OutboxRow(ReleaseDetected(recs[i].email, recs[i].unsubscribeToken, release), false)
      && outs[i] in w'.h.queuedFor && w'.h.queuedFor[outs[i]] == recs[i].subId
    decreases |recs|
  {
    var w1 := QueueRelease(w, outs[0], release, recs[0]);
    if i == 0 {
      QueueReleasesFrame(w1, outs[1..], release, recs[1..]);
      assert outs[0] !in outs[1..];
    } else {
      QueuesRow(w1, outs[1..], release, recs[1..], i - 1);
    }
  }

  /**
   Every queued release row names a subscription that had been confirmed, with that one's address and token;
   so no subscription a compensation removed ever had a release mail queued.
   */
  lemma ReleasesGoToConfirmed(w: World, o: nat)
    requires Reachable(w) && o in w.t.outbox && w.t.outbox[o].payload.ReleaseDetected?
    ensures o in w.h.queuedFor
    ensures var (s, p) := (w.h.queuedFor[o], w.t.outbox[o].payload);
      && s in w.h.confirmed && s !in w.h.failedBy && s in w.h.created
      && p.email == w.h.created[s].email && p.unsubscribeToken == w.h.created[s].unsubscribeToken
  {
    ReachableInv(w);
    QueuedFacts(w.t.outbox, o, w.t.subs, w.h);
  }

  lemma QueuedFacts(outbox: Outbox, o: nat, subs: Subs, h: History)
    requires o in outbox && outbox[o].payload.ReleaseDetected?
    requires QueuedOk(outbox, h.queuedFor, h.created, h.confirmed)
    requires DeletedOk(subs, h.created, h.confirmed, h.failedBy)
    ensures o in h.queuedFor && h.queuedFor[o] !in h.failedBy
    ensures RecipientOk(Recipient(h.queuedFor[o], outbox[o].payload.email, outbox[o].payload.unsubscribeToken),
                        h.created, h.confirmed)
  {
  }
}
