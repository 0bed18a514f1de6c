/**
 What one event of the saga protocol changes and what it leaves alone, table by table and history by history. Proofs
 about runs use these instead of unfolding the events.
 */
module SagaFrames {
  import opened Prelude
  import opened SubscriptionTables
  import opened SagaProtocol

  // -- The two events that change many rows at once

  lemma MarkOneFrame(w: World, row: nat)
    requires row in w.t.sagas
    ensures var w' := MarkCompensating(w, row, None, DeadlineReason);
      && w' == w.(t := w.t.(sagas := w'.t.sagas), tasks := w'.tasks, nextTask := w.nextTask + 1,
                  h := w.h.(started := w.h.started + multiset{row}))
      && w'.t.sagas.Keys == w.t.sagas.Keys
  {
  }

  /** Marking a batch of sagas writes only sagas, tasks and the compensations started. */
  lemma {:induction false} MarkAllFrame(w: World, rows: seq<nat>)
    requires forall q :: q in rows ==> q in w.t.sagas
    ensures var w' := MarkAll(w, rows);
      && w' == w.(t := w.t.(sagas := w'.t.sagas), tasks := w'.tasks, nextTask := w.nextTask + |rows|,
                  h := w.h.(started := w.h.started + multiset(rows)))
      && w'.t.sagas.Keys == w.t.sagas.Keys
    decreases |rows|
  {
    if rows != [] {
      MarkOneFrame(w, rows[0]);
      hide MarkCompensating;
      MarkAllFrame(MarkCompensating(w, rows[0], None, DeadlineReason), rows[1..]);
      assert rows == [rows[0]] + rows[1..];
      assert multiset(rows) == multiset{rows[0]} + multiset(rows[1..]);
    }
  }

  lemma {:induction false} MarkAllStates(w: World, rows: seq<nat>, r: nat)
    requires forall q :: q in rows ==> q in w.t.sagas
    requires r in w.t.sagas
    ensures var w' := MarkAll(w, rows);
      && r in w'.t.sagas
      && w'.t.sagas[r] == (if r in rows then w.t.sagas[r].(state := Compensating, lastError := None) else w.t.sagas[r])
    decreases |rows|
  {
    if rows != [] {
      MarkAllStates(MarkCompensating(w, rows[0], None, DeadlineReason), rows[1..], r);
    }
  }

  /** It adds one compensation per row and takes no task away. */
  lemma {:induction false} MarkAllTasks(w: World, rows: seq<nat>, k: nat)
    requires forall q :: q in rows ==> q in w.t.sagas
    ensures var w' := MarkAll(w, rows);
      && (k in w.tasks && k < w.nextTask ==> k in w'.tasks && w'.tasks[k] == w.tasks[k])
      && (k in w'.tasks ==>
            (k in w.tasks && w'.tasks[k] == w.tasks[k]) || (w'.tasks[k].Compensation? && w'.tasks[k].row in rows))
    decreases |rows|
  {
    if rows != [] {
      MarkAllTasks(MarkCompensating(w, rows[0], None, DeadlineReason), rows[1..], k);
    }
  }

  /** A reaper pass writes sagas, adds tasks and records what it started. */
  lemma ReapFrame(w: World, rows: seq<nat>)
    requires Enabled(w, Reap(rows))
    ensures var w' := Effect(w, Reap(rows));
      && w' == w.(t := w.t.(sagas := w'.t.sagas), tasks := w'.tasks, nextTask := w.nextTask + |rows|,
                  h := w.h.(started := w.h.started + multiset(rows)))
      && w'.t.sagas.Keys == w.t.sagas.Keys
  {
    MarkAllFrame(w, rows);
  }

  lemma ReapTasks(w: World, rows: seq<nat>, k: nat)
    requires Enabled(w, Reap(rows))
    ensures var w' := Effect(w, Reap(rows));
      && (k in w.tasks && k < w.nextTask ==> k in w'.tasks && w'.tasks[k] == w.tasks[k])
      && (k in w'.tasks ==>
            (k in w.tasks && w'.tasks[k] == w.tasks[k]) || (w'.tasks[k].Compensation? && w'.tasks[k].row in rows))
  {
    MarkAllTasks(w, rows, k);
  }

  /** Queueing release rows changes the outbox and its provenance, and adds no row but the ones named. */
  lemma {:induction false} QueueReleasesFrame(w: World, outs: seq<nat>, release: Release, recs: seq<Recipient>)
    requires |outs| == |recs|
    ensures var w' := QueueReleases(w, outs, release, recs);
      && w' == w.(t := w.t.(outbox := w'.t.outbox), h := w.h.(queuedFor := w'.h.queuedFor))
      && w'.t.outbox.Keys == w.t.outbox.Keys + (set o | o in outs)
      && (forall o :: o in w.t.outbox && o !in outs ==> w'.t.outbox[o] == w.t.outbox[o])
      && (forall o :: o in outs ==> !w'.t.outbox[o].published)
      && (forall o :: o in w.h.queuedFor && o !in outs ==>
            o in w'.h.queuedFor && w'.h.queuedFor[o] == w.h.queuedFor[o])
    decreases |recs|
  {
    if recs != [] {
      QueueReleasesFrame(QueueRelease(w, outs[0], release, recs[0]), outs[1..], release, recs[1..]);
      assert outs == [outs[0]] + outs[1..];
    }
  }

  /** A committed fan-out writes a tag, the outbox and its provenance, and ends its task. */
  lemma FanoutFrame(w: World, k: nat, outs: seq<nat>)
    requires Enabled(w, FanoutCommit(k, outs))
    ensures var w' := Effect(w, FanoutCommit(k, outs));
      && w' == w.(t := w.t.(repos := w'.t.repos, outbox := w'.t.outbox), tasks := w.tasks - {k},
                  h := w.h.(queuedFor := w'.h.queuedFor))
      && w'.t.outbox.Keys == w.t.outbox.Keys + (set o | o in outs)
      && (forall o :: o in w.t.outbox ==> w'.t.outbox[o] == w.t.outbox[o])
      && (forall o :: o in outs ==> !w'.t.outbox[o].published)
      && (forall o :: o in w.h.queuedFor && o !in outs ==> o in w'.h.queuedFor && w'.h.queuedFor[o] == w.h.queuedFor[o])
  {
    var c := w.tasks[k];
    QueueReleasesFrame(
      Finish(w, k).(t := SetLastSeenTag(w.t, c.repoId, c.release.tag)), outs, c.release, c.recipients);
  }

  // -- Groups of events

  lemma QuietFrame(w: World, e: Event)
    requires Quiet(e)
    ensures Next(w, e) == w.(tasks := Next(w, e).tasks, nextTask := Next(w, e).nextTask)
  {
    hide HasName, HasAny, ListsConfirmed;
  }

  lemma StatesFrame(w: World, e: Event)
    requires WritesStates(e)
    ensures var w' := Next(w, e);
      && w' == w.(t := w.t.(sagas := w'.t.sagas), tasks := w'.tasks, nextTask := w'.nextTask,
                  h := w.h.(awaited := w'.h.awaited, started := w'.h.started))
      && (!e.EmailSent? ==> w'.h.awaited == w.h.awaited)
      && (!e.EmailFailed? && !e.Reap? ==> w'.h.started == w.h.started)
  {
    hide Active, Expired, Distinct, Terminal;
    if Enabled(w, e) && e.Reap? {
      ReapFrame(w, e.rows);
    }
  }

  // -- Sagas

  /** The state an event leaves a saga in. */
  function StateAfter(w: World, e: Event, r: nat): State
    requires r in w.t.sagas
  {
    var state := w.t.sagas[r].state;
    if !Enabled(w, e) then state
    else
      match e
      case EmailSent(row) => if row == r then AwaitingConfirmation else state
      case EmailFailed(row, _) => if row == r then Compensating else state
      case Reap(rows) => if r in rows then Compensating else state
      case Compensate(k) =>
        var c := w.tasks[k];
        if c.row != r then state else if Unconfirmed(w.t, c.saga.subId) then Failed else Completed
      case HandleConfirmed(_, row) => if row == r && !Terminal(state) then Completed else state
      case _ => state
  }

  /** No event removes a saga or changes more of it than its state and last error. */
  lemma SagaUnder(w: World, e: Event, r: nat)
    requires r in w.t.sagas
    ensures var w' := Next(w, e);
      && r in w'.t.sagas
      && w'.t.sagas[r] == w.t.sagas[r].(state := StateAfter(w, e, r), lastError := w'.t.sagas[r].lastError)
  {
    if Quiet(e) {
      QuietFrame(w, e);
      hide Next;
    } else if Enabled(w, e) {
      match e
      case Reap(rows) =>
        MarkAllRow(w, rows, r);
        hide Effect;
      case Compensate(k) =>
        CompensateRow(w, k, r);
        hide Effect;
      case _ =>
        OtherRow(w, e, r);
        hide Effect;
    }
  }

  lemma OtherRow(w: World, e: Event, r: nat)
    requires Enabled(w, e) && !Quiet(e) && !e.Reap? && !e.Compensate? && r in w.t.sagas
    ensures var w' := Effect(w, e);
      && r in w'.t.sagas
      && w'.t.sagas[r] == w.t.sagas[r].(state := StateAfter(w, e, r), lastError := w'.t.sagas[r].lastError)
  {
    hide DuplicateSubscription, DuplicateToken, DuplicateSagaId, HasName, Distinct, Insertable, Terminal, Active;
    if e.FanoutCommit? {
      FanoutFrame(w, e.task, e.outs);
    }
  }

  lemma MarkAllRow(w: World, rows: seq<nat>, r: nat)
    requires Enabled(w, Reap(rows)) && r in w.t.sagas
    ensures var w' := Effect(w, Reap(rows));
      && r in w'.t.sagas
      && w'.t.sagas[r] == w.t.sagas[r].(state := if r in rows then Compensating else w.t.sagas[r].state,
                                        lastError := w'.t.sagas[r].lastError)
  {
    MarkAllStates(w, rows, r);
  }

  lemma CompensateRow(w: World, k: nat, r: nat)
    requires Enabled(w, Compensate(k)) && r in w.t.sagas
    ensures var w' := Effect(w, Compensate(k));
      && r in w'.t.sagas
      && w'.t.sagas[r] == w.t.sagas[r].(state := StateAfter(w, Compensate(k), r), lastError := w'.t.sagas[r].lastError)
  {
    hide Unconfirmed;
    var sagas := DeleteUnconfirmed(w.t, w.tasks[k].saga.subId).sagas;
    assert sagas == w.t.sagas;
  }

  // -- Subscriptions, outbox and histories

  /** Which events write which table or history; the rest of them leave it exactly as it is. */
  lemma Unwritten(w: World, e: Event)
    ensures var w' := Next(w, e);
      && (!e.Subscribe? && !e.Confirm? && !e.Compensate? && !e.CleanupDeleteRepo? && !e.UnsubscribeDelete? ==>
            w'.t.subs == w.t.subs)
      && (!e.Subscribe? && !e.FanoutCommit? && !e.Publish? ==> w'.t.outbox == w.t.outbox)
      && (!e.Subscribe? ==> w'.h.created == w.h.created)
      && (!e.EnsureCreate? ==> w'.h.named == w.h.named)
      && (!e.Confirm? ==> w'.h.confirmed == w.h.confirmed)
      && (!e.FanoutCommit? ==> w'.h.queuedFor == w.h.queuedFor)
      && (!e.EmailSent? ==> w'.h.awaited == w.h.awaited)
      && (!e.EmailFailed? && !e.Reap? ==> w'.h.started == w.h.started)
      && (!e.Tick? ==> w'.now == w.now)
  {
    if Quiet(e) {
      QuietFrame(w, e);
      hide Next;
    } else if WritesStates(e) {
      StatesFrame(w, e);
      hide Next;
    } else if Enabled(w, e) {
      RowsFrame(w, e);
      hide Effect, Enabled;
    } else {
      hide Effect, Enabled;
    }
  }

  lemma RowsFrame(w: World, e: Event)
    requires Enabled(w, e) && !Quiet(e) && !WritesStates(e)
    ensures var w' := Effect(w, e);
      && (e.Tick? || e.EnsureCreate? || e.FanoutCommit? || e.Publish? ==> w'.t.subs == w.t.subs)
      && (!e.Subscribe? && !e.FanoutCommit? && !e.Publish? ==> w'.t.outbox == w.t.outbox)
      && (!e.Subscribe? ==> w'.h.created == w.h.created)
      && (!e.EnsureCreate? ==> w'.h.named == w.h.named)
      && (!e.Confirm? ==> w'.h.confirmed == w.h.confirmed)
      && (!e.FanoutCommit? ==> w'.h.queuedFor == w.h.queuedFor)
      && w'.h.awaited == w.h.awaited && w'.h.started == w.h.started
      && (!e.Tick? ==> w'.now == w.now)
  {
    hide DuplicateSubscription, DuplicateToken, DuplicateSagaId, HasName, Distinct, Insertable, Unconfirmed;
    if e.FanoutCommit? {
      FanoutFrame(w, e.task, e.outs);
    }
  }

  /** Subscriptions come from subscribes only; otherwise they change only by being confirmed or by going away. */
  lemma SubUnder(w: World, e: Event, s: nat)
    requires s in Next(w, e).t.subs
    ensures var sub := Next(w, e).t.subs[s];
      || (s in w.t.subs && sub == w.t.subs[s].(confirmed := sub.confirmed))
      || (e.Subscribe? && Enabled(w, e) && e.subId == s && sub == e.sub)
  {
    Unwritten(w, e);
    if Enabled(w, e) && (e.Subscribe? || e.Confirm?) {
      SubWritten(w, e, s);
    } else if Enabled(w, e) && (e.Compensate? || e.CleanupDeleteRepo? || e.UnsubscribeDelete?) {
      SubRemoved(w, e, s);
    } else {
      hide Effect;
    }
  }

  lemma SubWritten(w: World, e: Event, s: nat)
    requires Enabled(w, e) && (e.Subscribe? || e.Confirm?) && s in Effect(w, e).t.subs
    ensures var sub := Effect(w, e).t.subs[s];
      || (s in w.t.subs && sub == w.t.subs[s].(confirmed := sub.confirmed))
      || (e.Subscribe? && e.subId == s && sub == e.sub)
  {
  }

  lemma SubRemoved(w: World, e: Event, s: nat)
    requires Enabled(w, e) && (e.Compensate? || e.CleanupDeleteRepo? || e.UnsubscribeDelete?) && s in Effect(w, e).t.subs
    ensures s in w.t.subs && Effect(w, e).t.subs[s] == w.t.subs[s]
  {
    hide HasAny;
  }

  /** A row of the outbox keeps its payload, a new one is pending, and only `Publish` marks one. */
  lemma OutboxUnder(w: World, e: Event)
    ensures forall o :: o in w.t.outbox ==>
      o in Next(w, e).t.outbox && Next(w, e).t.outbox[o].payload == w.t.outbox[o].payload
    ensures forall o :: o in w.t.outbox && !e.Publish? ==> Next(w, e).t.outbox[o] == w.t.outbox[o]
    ensures forall o :: o in Next(w, e).t.outbox && o !in w.t.outbox ==> !Next(w, e).t.outbox[o].published
  {
    Unwritten(w, e);
    if Enabled(w, e) {
      match e
      case Publish(ids) =>
      case Subscribe(_, _, _, _, _, _, _) =>
      case FanoutCommit(k, outs) =>
        FanoutFrame(w, k, outs);
        hide Effect;
      case _ => hide Effect;
    }
  }

  /** A new confirmation row comes from a subscribe and carries its token. */
  lemma NewRow(w: World, e: Event, o: nat)
    requires o in Next(w, e).t.outbox && o !in w.t.outbox && Next(w, e).t.outbox[o].payload.ConfirmationRequested?
    ensures e.Subscribe? && Enabled(w, e) && Next(w, e).t.outbox[o].payload.confirmToken == e.sub.confirmToken
  {
    Unwritten(w, e);
    if Enabled(w, e) {
      match e
      case Publish(ids) =>
      case Subscribe(_, _, _, _, _, _, _) =>
      case FanoutCommit(k, outs) => FanoutQueuesReleases(w, k, outs);
      case _ => hide Effect;
    }
  }

  lemma FanoutQueuesReleases(w: World, k: nat, outs: seq<nat>)
    requires Enabled(w, FanoutCommit(k, outs))
    ensures var outbox' := Effect(w, FanoutCommit(k, outs)).t.outbox;
      forall o :: o in outbox' && o !in w.t.outbox ==> outbox'[o].payload.ReleaseDetected?
  {
    var c := w.tasks[k];
    QueueReleasesKind(
      Finish(w, k).(t := SetLastSeenTag(w.t, c.repoId, c.release.tag)), outs, c.release, c.recipients);
  }

  lemma {:induction false} QueueReleasesKind(w: World, outs: seq<nat>, release: Release, recs: seq<Recipient>)
    requires |outs| == |recs|
    ensures var outbox' := QueueReleases(w, outs, release, recs).t.outbox;
      forall o :: o in outbox' && o !in w.t.outbox ==> outbox'[o].payload.ReleaseDetected?
    ensures forall o :: o in w.t.outbox && w.t.outbox[o].payload.ReleaseDetected? ==>
      o in QueueReleases(w, outs, release, recs).t.outbox && QueueReleases(w, outs, release, recs).t.outbox[o].payload.ReleaseDetected?
    decreases |recs|
  {
    if recs != [] {
      QueueReleasesKind(QueueRelease(w, outs[0], release, recs[0]), outs[1..], release, recs[1..]);
    }
  }

  /** Records of creation only grow, each by its own event, and the clock moves by ticks only. */
  lemma RecordsUnder(w: World, e: Event)
    ensures forall s :: s in w.h.created ==> s in Next(w, e).h.created && Next(w, e).h.created[s] == w.h.created[s]
    ensures forall r :: r in w.h.named ==> r in Next(w, e).h.named && Next(w, e).h.named[r] == w.h.named[r]
    ensures w.now <= Next(w, e).now
  {
    hide HasName, DuplicateSubscription, DuplicateToken, DuplicateSagaId;
    Unwritten(w, e);
    if Enabled(w, e) {
      match e
      case Tick(to) =>
      case EnsureCreate(_, _) =>
      case Subscribe(_, _, _, _, _, _, _) =>
      case _ => hide Effect;
    }
  }

  /** Who was confirmed, mailed for and compensated changes by its own event only. */
  lemma OutcomesUnder(w: World, e: Event)
    ensures var (h, h') := (w.h, Next(w, e).h);
      && h'.confirmed == (if e.Confirm? && Enabled(w, e) then h.confirmed + {e.subId} else h.confirmed)
      && h'.awaited == (if e.EmailSent? && Enabled(w, e) then h.awaited + {e.row} else h.awaited)
      && h'.started == (if !Enabled(w, e) then h.started
                        else if e.EmailFailed? then h.started + multiset{e.row}
                        else if e.Reap? then h.started + multiset(e.rows)
                        else h.started)
  {
    Unwritten(w, e);
    if Enabled(w, e) {
      match e
      case EmailSent(_) =>
      case EmailFailed(_, _) =>
      case Reap(rows) =>
        ReapFrame(w, rows);
        hide Effect;
      case Confirm(_) =>
      case _ => hide Effect;
    }
  }

  // -- Tasks

  /** The event continues the task `k`. */
  predicate Touches(e: Event, k: nat) {
    match e
    case Drop(j) => j == k
    case EnsureCreate(j, _) => j == k
    case EnsureFindAgain(j, _) => j == k
    case Subscribe(j, _, _, _, _, _, _) => j == k
    case Compensate(j) => j == k
    case CleanupHasAny(j) => j == k
    case CleanupDeleteRepo(j) => j == k
    case HandleConfirmed(j, _) => j == k
    case UnsubscribeDelete(j) => j == k
    case FanoutCommit(j, _) => j == k
    case _ => false
  }

  /** A task is left alone by every event that does not continue it. */
  lemma TaskUnder(w: World, e: Event, k: nat)
    requires k in w.tasks && k < w.nextTask && !Touches(e, k)
    ensures var w' := Next(w, e);
      k in w'.tasks && w'.tasks[k] == w.tasks[k] && w'.nextTask >= w.nextTask
  {
    hide ListsConfirmed, DuplicateSubscription, DuplicateToken, DuplicateSagaId, HasName, HasAny, Distinct,
      Terminal, Active, Expired, Insertable, Unconfirmed;
    if Enabled(w, e) {
      match e
      case Reap(rows) =>
        ReapFrame(w, rows);
        ReapTasks(w, rows, k);
      case FanoutCommit(j, outs) => FanoutFrame(w, j, outs);
      case _ =>
    }
  }

  /** Where a task that was not there before comes from. */
  predicate Origin(w: World, e: Event, task: Task) {
    match task
    case Compensation(row, _, _) => (e.EmailFailed? && e.row == row) || (e.Reap? && row in e.rows)
    case ConfirmCommitted(s) => e == Confirm(s)
    case Ensured(name, r) =>
      && (e.EnsureFind? || e.EnsureCreate? || e.EnsureFindAgain?)
      && r in Next(w, e).t.repos && Next(w, e).t.repos[r].name == name
    case FanoutListed(r, release, recs) =>
      && e.FanoutList? && e.repoId == r && e.release == release
      && forall rec :: rec in recs ==> rec.subId in w.t.subs && w.t.subs[rec.subId].repoId == r
    case _ => true
  }

  lemma TaskOrigin(w: World, e: Event, k: nat)
    requires k in Next(w, e).tasks
    ensures (k in w.tasks && Next(w, e).tasks[k] == w.tasks[k]) || (Enabled(w, e) && Origin(w, e, Next(w, e).tasks[k]))
  {
    hide ListsConfirmed, DuplicateSubscription, DuplicateToken, DuplicateSagaId, HasName, HasAny, Distinct,
      Terminal, Active, Expired, Insertable, Unconfirmed;
    if Enabled(w, e) {
      match e
      case Reap(rows) => ReapTasks(w, rows, k);
      case FanoutCommit(j, outs) => FanoutFrame(w, j, outs);
      case FanoutList(r, release, subIds) =>
        ListedFrom(w, r, subIds);
      case _ =>
    }
  }

  lemma ListedFrom(w: World, r: nat, subIds: seq<nat>)
    requires ListsConfirmed(w.t, r, subIds)
    ensures forall i :: 0 <= i < |subIds| ==> subIds[i] in w.t.subs && w.t.subs[subIds[i]].repoId == r
  {
  }
}
