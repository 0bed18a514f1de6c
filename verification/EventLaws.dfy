/** Which rows each event adds, removes and changes, table by table. */
module EventLaws {
  import opened SubscriptionTables
  import opened SagaProtocol
  import opened SagaFrames
  import opened SagaSafety

  /** An unsubscribe removes the row of its token, a compensation its pending row, a cleanup the rows of its repository. */
  predicate Removes(w: World, e: Event, s: nat)
    requires s in w.t.subs
  {
    Enabled(w, e) &&
    match e
    case UnsubscribeDelete(k) => w.t.subs[s].unsubscribeToken == w.tasks[k].token
    case Compensate(k) => w.tasks[k].saga.subId == s && !w.t.subs[s].confirmed
    case CleanupDeleteRepo(k) => w.t.subs[s].repoId == w.tasks[k].repoId
    case _ => false
  }

  /** Exactly which subscriptions an event leaves, and what it makes of them. */
  lemma SubscriptionsAfter(w: World, e: Event, s: nat)
    ensures s in Next(w, e).t.subs <==>
      (s in w.t.subs && !Removes(w, e, s)) || (e.Subscribe? && Enabled(w, e) && e.subId == s)
    ensures s in Next(w, e).t.subs && s in w.t.subs && !e.Subscribe? ==>
      Next(w, e).t.subs[s] == if e == Confirm(s) then w.t.subs[s].(confirmed := true) else w.t.subs[s]
    ensures e.Subscribe? && Enabled(w, e) && e.subId == s ==> Next(w, e).t.subs[s] == e.sub
  {
    Unwritten(w, e);
    if Enabled(w, e) {
      match e
      case UnsubscribeDelete(k) => hide HasAny;
      case Compensate(k) => hide HasAny;
      case CleanupDeleteRepo(k) => hide HasAny;
      case Subscribe(_, _, _, _, _, _, _) => hide DuplicateSubscription, DuplicateToken, DuplicateSagaId;
      case Confirm(_) =>
      case _ => hide Effect;
    }
  }

  /** An unsubscribe and a compensation remove at most one subscription each. */
  lemma OneRemoved(w: World, e: Event, s: nat, u: nat)
    requires Reachable(w) && !e.CleanupDeleteRepo?
    requires s in w.t.subs && u in w.t.subs && Removes(w, e, s) && Removes(w, e, u)
    ensures s == u
  {
    ReachableInv(w);
    hide Reachable;
    UniqueTokens(w);
    hide Inv;
  }

  lemma UniqueTokens(w: World)
    requires Inv(w)
    ensures SubsUnique(w.t.subs)
  {
  }

  /** Exactly which repositories an event leaves, under which name and with which tag. */
  lemma RepositoriesAfter(w: World, e: Event, r: nat)
    ensures var (added, removed) :=
        (e.EnsureCreate? && Enabled(w, e) && e.repoId == r && !HasName(w.t, w.tasks[e.task].name),
         e.CleanupDeleteRepo? && Enabled(w, e) && w.tasks[e.task].repoId == r);
      && (r in Next(w, e).t.repos <==> (r in w.t.repos && !removed) || added)
      && (added ==> Next(w, e).t.repos[r] == Repo(w.tasks[e.task].name, ""))
    ensures r in Next(w, e).t.repos && r in w.t.repos && !e.EnsureCreate? ==>
      Next(w, e).t.repos[r] ==
        if e.FanoutCommit? && Enabled(w, e) && w.tasks[e.task].repoId == r
        then w.t.repos[r].(lastSeenTag := w.tasks[e.task].release.tag) else w.t.repos[r]
  {
    if Quiet(e) {
      QuietFrame(w, e);
      hide Next;
    } else if WritesStates(e) {
      StatesFrame(w, e);
      hide Next;
    } else if Enabled(w, e) {
      RepositoriesWritten(w, e, r);
      hide Effect;
    }
  }

  lemma RepositoriesWritten(w: World, e: Event, r: nat)
    requires Enabled(w, e) && !Quiet(e) && !WritesStates(e)
    ensures var repos' := Effect(w, e).t.repos;
      && (r in repos' <==>
            (r in w.t.repos && !(e.CleanupDeleteRepo? && w.tasks[e.task].repoId == r))
            || (e.EnsureCreate? && e.repoId == r && !HasName(w.t, w.tasks[e.task].name)))
      && (e.EnsureCreate? && e.repoId == r && !HasName(w.t, w.tasks[e.task].name) ==>
            repos'[r] == Repo(w.tasks[e.task].name, ""))
      && (r in repos' && r in w.t.repos && !e.EnsureCreate? ==>
            repos'[r] == if e.FanoutCommit? && w.tasks[e.task].repoId == r
                         then w.t.repos[r].(lastSeenTag := w.tasks[e.task].release.tag) else w.t.repos[r])
  {
    hide HasName, HasAny, DuplicateSubscription, DuplicateToken, DuplicateSagaId, Unconfirmed;
    if e.FanoutCommit? {
      var c := w.tasks[e.task];
      QueueReleasesFrame(
        Finish(w, e.task).(t := SetLastSeenTag(w.t, c.repoId, c.release.tag)), e.outs, c.release, c.recipients);
    }
  }

  /** A row of the outbox is marked exactly by the publish that names it. */
  lemma MarksAfter(w: World, e: Event, o: nat)
    requires o in w.t.outbox
    ensures o in Next(w, e).t.outbox
    ensures Next(w, e).t.outbox[o] == w.t.outbox[o].(published := w.t.outbox[o].published || (e.Publish? && o in e.ids))
  {
    OutboxUnder(w, e);
    if !e.Publish? {
      hide Next;
    }
  }
}
