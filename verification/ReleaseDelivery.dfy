/**
 The way of a release: the scanner sees it and announces it, the monitoring relay publishes the announcement, the
 fan-out queues a mail for every confirmed subscription, and the pipeline mails it. The scanner and the pipeline are
 joined here: a fan-out starts only from a published announcement.
 */
module ReleaseDelivery {
  import opened Prelude
  import opened SubscriptionTables
  import opened SagaProtocol
  import SF = SagaFrames
  import SubscriptionFlows
  import N = NotificationConsumer
  import P = Pipeline
  import H = ReleaseHistory
  import S = ScanSchedule

  datatype Joined = Joined(scanner: S.Scanner, found: seq<S.Detected>, sys: P.System)

  const Start := Joined(S.Init, [], P.Start)

  datatype Step =
    | Scan(e: S.Event)              // the scanner takes a step
    | Announce(i: nat)              // the monitoring relay publishes a row of its outbox, perhaps again
    | Deliver(step: P.Step)         // the subscription and notification services take one

  predicate Enabled(j: Joined, step: Step) {
    match step
    case Scan(_) => true
    case Announce(i) => i < |j.scanner.outbox|
    case Deliver(Service(e)) => P.Enabled(j.sys, step.step) && (e.FanoutList? ==> Found(j.found, e.repoId, e.release))
    case Deliver(_) => P.Enabled(j.sys, step.step)
  }

  function Effect(j: Joined, step: Step): Joined
    requires Enabled(j, step)
  {
    match step
    case Scan(e) => j.(scanner := S.Next(j.scanner, e))
    case Announce(i) => j.(found := j.found + [j.scanner.outbox[i]])
    case Deliver(p) => j.(sys := P.After(j.sys, p))
  }

  function After(j: Joined, step: Step): Joined {
    if Enabled(j, step) then Effect(j, step) else j
  }

  function Steps(j: Joined, steps: seq<Step>): Joined
    decreases |steps|
  {
    if steps == [] then j else Steps(After(j, steps[0]), steps[1..])
  }

  // -- The invariant: whatever is on its way was announced for the repository it is mailed for

  predicate Found(rows: seq<S.Detected>, repoId: nat, release: Release) {
    exists d :: d in rows && d.repoId == repoId && d.release == release
  }

  ghost predicate FoundOk(rows: seq<S.Detected>, found: seq<S.Detected>) {
    forall d :: d in found ==> d in rows
  }

  /** A fan-out under way works for confirmed subscriptions of the repository the release was announced for. */
  ghost predicate TaskOk(rows: seq<S.Detected>, task: Task, created: Subs) {
    task.FanoutListed? ==>
      && Found(rows, task.repoId, task.release)
      && forall rec :: rec in task.recipients ==> rec.subId in created && created[rec.subId].repoId == task.repoId
  }

  ghost predicate TasksOk(rows: seq<S.Detected>, tasks: Tasks, created: Subs) {
    forall k :: k in tasks ==> TaskOk(rows, tasks[k], created)
  }

  ghost predicate RowOk(rows: seq<S.Detected>, payload: Payload, sub: nat, created: Subs) {
    payload.ReleaseDetected? ==> sub in created && Found(rows, created[sub].repoId, payload.release)
  }

  ghost predicate RowsOk(rows: seq<S.Detected>, outbox: Outbox, h: History) {
    forall o :: o in outbox && outbox[o].payload.ReleaseDetected? ==>
      o in h.queuedFor && RowOk(rows, outbox[o].payload, h.queuedFor[o], h.created)
  }

  /** The mail goes to a subscription of the repository the release was announced for. */
  ghost predicate Owned(rows: seq<S.Detected>, w: World, email: string, token: string, release: Release, sub: nat) {
    && RecipientOk(Recipient(sub, email, token), w.h.created, w.h.confirmed)
    && Found(rows, w.h.created[sub].repoId, release)
  }

  ghost predicate MessageOk(rows: seq<S.Detected>, w: World, m: N.Message) {
    m.ReleaseMessage? ==> exists sub :: Owned(rows, w, m.email, m.unsubscribeToken, m.release, sub)
  }

  ghost predicate MessagesOk(rows: seq<S.Detected>, w: World, messages: seq<N.Message>) {
    forall q :: 0 <= q < |messages| ==> MessageOk(rows, w, messages[q])
  }

  ghost predicate OnItsWay(rows: seq<S.Detected>, found: seq<S.Detected>, sys: P.System) {
    && FoundOk(rows, found)
    && TasksOk(rows, sys.w.tasks, sys.w.h.created)
    && RowsOk(rows, sys.w.t.outbox, sys.w.h)
    && MessagesOk(rows, sys.w, sys.inbox.messages)
  }

  ghost predicate Inv(j: Joined) {
    S.Inv(j.scanner) && P.SystemInv(j.sys) && OnItsWay(j.scanner.outbox, j.found, j.sys)
  }

  // -- The scanner only adds announcements

  lemma ScanAdds(s: S.Scanner, e: S.Event)
    ensures forall d :: d in s.outbox ==> d in S.Next(s, e).outbox
  {
  }

  lemma FoundLater(rows: seq<S.Detected>, rows': seq<S.Detected>, repoId: nat, release: Release)
    requires (forall d :: d in rows ==> d in rows') && Found(rows, repoId, release)
    ensures Found(rows', repoId, release)
  {
  }

  lemma ScanKeeps(j: Joined, e: S.Event)
    requires Inv(j)
    ensures Inv(After(j, Scan(e)))
  {
    hide S.Inv, P.SystemInv, S.Next, OnItsWay;
    S.EventKeepsInv(j.scanner, e);
    ScanAdds(j.scanner, e);
    StillOnItsWay(j.scanner.outbox, S.Next(j.scanner, e).outbox, j.found, j.sys);
  }

  lemma StillOnItsWay(rows: seq<S.Detected>, rows': seq<S.Detected>, found: seq<S.Detected>, sys: P.System)
    requires OnItsWay(rows, found, sys) && forall d :: d in rows ==> d in rows'
    ensures OnItsWay(rows', found, sys)
  {
    hide Found;
    forall repoId, release | Found(rows, repoId, release) ensures Found(rows', repoId, release) {
      FoundLater(rows, rows', repoId, release);
    }
    MessagesAnnounced(rows, rows', sys.w, sys.inbox.messages);
    hide MessagesOk;
  }

  lemma MessagesAnnounced(rows: seq<S.Detected>, rows': seq<S.Detected>, w: World, messages: seq<N.Message>)
    requires forall repoId, release :: Found(rows, repoId, release) ==> Found(rows', repoId, release)
    requires MessagesOk(rows, w, messages)
    ensures MessagesOk(rows', w, messages)
  {
    hide Found;
    forall q | 0 <= q < |messages| ensures MessageOk(rows', w, messages[q]) {
      var m := messages[q];
      assert MessageOk(rows, w, m);
      if m.ReleaseMessage? {
        var sub :| Owned(rows, w, m.email, m.unsubscribeToken, m.release, sub);
        assert Owned(rows', w, m.email, m.unsubscribeToken, m.release, sub);
      }
    }
  }

  // -- One event of the subscription service

  lemma TasksUnder(rows: seq<S.Detected>, w: World, e: Event)
    requires SagaProtocol.Inv(w) && TasksOk(rows, w.tasks, w.h.created)
    requires e.FanoutList? ==> Found(rows, e.repoId, e.release)
    ensures TasksOk(rows, Next(w, e).tasks, Next(w, e).h.created)
  {
    hide Found, Next, SagaProtocol.Inv;
    var w' := Next(w, e);
    SF.RecordsUnder(w, e);
    forall k | k in w'.tasks ensures TaskOk(rows, w'.tasks[k], w'.h.created) {
      SF.TaskOrigin(w, e, k);
      if k in w.tasks && w'.tasks[k] == w.tasks[k] {
        assert TaskOk(rows, w.tasks[k], w.h.created);
      } else {
        SubsCreated(w);
      }
    }
  }

  lemma SubsCreated(w: World)
    requires SagaProtocol.Inv(w)
    ensures forall s :: s in w.t.subs ==> s in w.h.created && w.h.created[s].repoId == w.t.subs[s].repoId
  {
    hide SubsUnique, SubsRefer, CreatedOk, SagaIdsUnique, SagasOk, FailedOk, DeletedOk, CompletedOk, AwaitedOk,
      StartedOk, OtherTasksOk, QueuedOk, RequestOk, ReposOk, CompensationsOk, TaskKeys;
  }

  lemma RowsUnder(rows: seq<S.Detected>, w: World, e: Event)
    requires TasksOk(rows, w.tasks, w.h.created) && RowsOk(rows, w.t.outbox, w.h)
    ensures RowsOk(rows, Next(w, e).t.outbox, Next(w, e).h)
  {
    hide Found, Next;
    var w' := Next(w, e);
    SF.RecordsUnder(w, e);
    SF.OutboxUnder(w, e);
    forall o | o in w'.t.outbox && w'.t.outbox[o].payload.ReleaseDetected?
      ensures o in w'.h.queuedFor && RowOk(rows, w'.t.outbox[o].payload, w'.h.queuedFor[o], w'.h.created)
    {
      if o in w.t.outbox {
        QueuedForUnder(w, e, o);
        assert RowOk(rows, w.t.outbox[o].payload, w.h.queuedFor[o], w.h.created);
      } else {
        NewReleaseRow(rows, w, e, o);
      }
    }
  }

  lemma QueuedForUnder(w: World, e: Event, o: nat)
    requires o in w.t.outbox && o in w.h.queuedFor
    ensures o in Next(w, e).h.queuedFor && Next(w, e).h.queuedFor[o] == w.h.queuedFor[o]
  {
    hide Next;
    SF.Unwritten(w, e);
    if e.FanoutCommit? {
      FanoutKeepsQueuedFor(w, e.task, e.outs, o);
    }
  }

  lemma FanoutKeepsQueuedFor(w: World, k: nat, outs: seq<nat>, o: nat)
    requires o in w.t.outbox && o in w.h.queuedFor
    ensures var h' := Next(w, FanoutCommit(k, outs)).h; o in h'.queuedFor && h'.queuedFor[o] == w.h.queuedFor[o]
  {
    if SagaProtocol.Enabled(w, FanoutCommit(k, outs)) {
      SF.FanoutFrame(w, k, outs);
      hide SagaProtocol.Effect;
    }
  }

  lemma NewReleaseRow(rows: seq<S.Detected>, w: World, e: Event, o: nat)
    requires TasksOk(rows, w.tasks, w.h.created)
    requires o in Next(w, e).t.outbox && o !in w.t.outbox && Next(w, e).t.outbox[o].payload.ReleaseDetected?
    ensures var w' := Next(w, e);
      o in w'.h.queuedFor && RowOk(rows, w'.t.outbox[o].payload, w'.h.queuedFor[o], w'.h.created)
  {
    SF.Unwritten(w, e);
    if e.FanoutCommit? {
      hide Next, Found;
      FanoutEnabled(w, e, o);
      var (k, outs) := (e.task, e.outs);
      SubscriptionFlows.FanoutQueuesOneRowEach(w, k, outs, 0);
      var i :| 0 <= i < |outs| && outs[i] == o;
      SubscriptionFlows.FanoutQueuesOneRowEach(w, k, outs, i);
      assert TaskOk(rows, w.tasks[k], w.h.created) && w.tasks[k].recipients[i] in w.tasks[k].recipients;
    }
  }

  lemma FanoutEnabled(w: World, e: Event, o: nat)
    requires e.FanoutCommit? && o in Next(w, e).t.outbox && o !in w.t.outbox
    ensures SagaProtocol.Enabled(w, e)
  {
  }

  lemma MessagesLater(rows: seq<S.Detected>, w: World, w': World, messages: seq<N.Message>)
    requires MessagesOk(rows, w, messages) && P.Later(w, w')
    ensures MessagesOk(rows, w', messages)
  {
    hide Found;
    forall q | 0 <= q < |messages| ensures MessageOk(rows, w', messages[q]) {
      var m := messages[q];
      assert MessageOk(rows, w, m);
      if m.ReleaseMessage? {
        var sub :| Owned(rows, w, m.email, m.unsubscribeToken, m.release, sub);
        assert Owned(rows, w', m.email, m.unsubscribeToken, m.release, sub);
      }
    }
  }

  /** A release row becomes a release message of the same subscription. */
  lemma RowMessage(rows: seq<S.Detected>, w: World, out: nat)
    requires SagaProtocol.Inv(w) && RowsOk(rows, w.t.outbox, w.h) && out in w.t.outbox
    ensures MessageOk(rows, w, P.MessageOf(w.t.outbox[out].payload))
  {
    var p := w.t.outbox[out].payload;
    if p.ReleaseDetected? {
      P.ReleaseRow(w.t.outbox, w.h, out);
      assert RowOk(rows, p, w.h.queuedFor[out], w.h.created);
      hide SagaProtocol.Inv, Found;
      assert Owned(rows, w, p.email, p.unsubscribeToken, p.release, w.h.queuedFor[out]);
    }
  }

  lemma EventKeeps(j: Joined, e: Event)
    requires Inv(j) && (e.FanoutList? ==> Found(j.found, e.repoId, e.release))
    ensures OnItsWay(j.scanner.outbox, j.found, j.sys.(w := Next(j.sys.w, e)))
  {
    var (rows, w) := (j.scanner.outbox, j.sys.w);
    hide S.Inv, TasksOk, RowsOk, MessagesOk, Next;
    P.InvOfSystem(j.sys);
    P.EventIsLater(w, e);
    if e.FanoutList? {
      FoundLater(j.found, rows, e.repoId, e.release);
    }
    hide P.SystemInv, P.Later, SagaProtocol.Inv, FoundOk;
    TasksUnder(rows, w, e);
    RowsUnder(rows, w, e);
    MessagesLater(rows, w, Next(w, e), j.sys.inbox.messages);
  }

  lemma InboxKeeps(j: Joined, c: N.Event)
    requires Inv(j) && (c.Append? ==> MessageOk(j.scanner.outbox, j.sys.w, c.m))
    ensures OnItsWay(j.scanner.outbox, j.found, j.sys.(inbox := N.Next(j.sys.inbox, c)))
  {
    hide P.SystemInv, S.Inv, TasksOk, RowsOk, MessageOk, FoundOk;
    P.InboxGrows(j.sys.inbox, c);
    hide N.Next;
  }

  lemma DeliverKeeps(j: Joined, p: P.Step)
    requires Inv(j) && Enabled(j, Deliver(p))
    ensures Inv(After(j, Deliver(p)))
  {
    hide P.SystemInv, S.Inv, OnItsWay, SagaProtocol.Inv, RowsOk, N.Next, Next;
    P.StepKeeps(j.sys, p);
    match p
    case Service(e) => EventKeeps(j, e);
    case HandleReply(i, row) => EventKeeps(j, P.ReplyEvent(j.sys.inbox.replies[i], row));
    case Relay(out) =>
      P.InvOfSystem(j.sys);
      OnItsWayRows(j);
      RowMessage(j.scanner.outbox, j.sys.w, out);
      InboxKeeps(j, N.Append(P.MessageOf(j.sys.w.t.outbox[out].payload)));
    case Elsewhere(m) => InboxKeeps(j, N.Append(m));
    case Consume(c) => InboxKeeps(j, c);
  }

  lemma OnItsWayRows(j: Joined)
    requires OnItsWay(j.scanner.outbox, j.found, j.sys)
    ensures RowsOk(j.scanner.outbox, j.sys.w.t.outbox, j.sys.w.h)
  {
  }

  lemma StepKeeps(j: Joined, step: Step)
    requires Inv(j)
    ensures Inv(After(j, step))
  {
    if Enabled(j, step) {
      match step
      case Scan(e) => ScanKeeps(j, e);
      case Announce(i) =>
        hide S.Inv, P.SystemInv, TasksOk, RowsOk, MessagesOk;
      case Deliver(p) => hide Inv; DeliverKeeps(j, p);
    }
  }

  lemma {:induction false} StepsKeep(j: Joined, steps: seq<Step>)
    requires Inv(j)
    ensures Inv(Steps(j, steps))
    decreases |steps|
  {
    hide Inv, After;
    if steps != [] {
      StepKeeps(j, steps[0]);
      StepsKeep(After(j, steps[0]), steps[1..]);
    }
  }

  // -- Main result

  ghost predicate Happens(j: Joined) {
    exists steps :: j == Steps(Start, steps)
  }

  lemma HappensInv(j: Joined)
    requires Happens(j)
    ensures Inv(j)
  {
    hide S.Inv, P.SystemInv;
    StartInv();
    var steps :| j == Steps(Start, steps);
    hide Inv;
    StepsKeep(Start, steps);
  }

  lemma StartInv()
    ensures Inv(Start)
  {
    S.InitInv();
    InitInv();
    N.EmptyInv();
    hide S.Inv, SagaProtocol.Inv, N.Inv;
  }

  /** An announced release was seen at some look after the first one of its repository. */
  lemma {:induction false} AnnouncedWasSeen(history: seq<H.Observation>, r: Release)
    requires r in H.Fold(history).1
    ensures exists i :: 0 < i < |history| && history[i] == Some(r)
    decreases |history|
  {
    var n := |history| - 1;
    if r in H.Fold(history[..n]).1 {
      AnnouncedWasSeen(history[..n], r);
      var i :| 0 < i < n && history[..n][i] == Some(r);
      assert history[i] == Some(r);
    } else {
      assert history[n] == Some(r);
    }
  }

  lemma {:induction false} InReleases(rows: seq<S.Detected>, d: S.Detected)
    requires d in rows
    ensures d.release in S.Releases(rows, d.repoId)
    decreases |rows|
  {
    var n := |rows| - 1;
    if rows[n] != d {
      assert d in rows[..n];
      InReleases(rows[..n], d);
    }
  }

  /**
   Every release mail is for a subscription that had been confirmed and that no compensation removed, and the release
   is one the scanner announced for the repository of that subscription: it was seen there by a look that took effect,
   and not by the first one. This holds for every schedule of the scanner and every interleaving of the services.
   */
  lemma ReleaseMailsWereSeen(j: Joined, c: N.Call)
    requires Happens(j) && c in j.sys.inbox.calls && c.mail.ReleaseMail?
    ensures exists sub, i ::
      && sub in j.sys.w.h.confirmed && sub !in j.sys.w.h.failedBy && sub in j.sys.w.h.created
      && j.sys.w.h.created[sub].email == c.mail.email && j.sys.w.h.created[sub].unsubscribeToken == c.mail.unsubscribeToken
      && var history := S.HistoryOf(j.scanner.history, j.sys.w.h.created[sub].repoId);
      && 0 < i < |history| && history[i] == Some(c.mail.release)
  {
    HappensInv(j);
    hide Happens, Found;
    var sub := MailOwner(j, c);
    var id := j.sys.w.h.created[sub].repoId;
    SeenFor(j.scanner, id, c.mail.release);
    var i :| 0 < i < |S.HistoryOf(j.scanner.history, id)| && S.HistoryOf(j.scanner.history, id)[i] == Some(c.mail.release);
  }

  lemma SeenFor(s: S.Scanner, id: nat, release: Release)
    requires S.Inv(s) && Found(s.outbox, id, release)
    ensures exists i :: 0 < i < |S.HistoryOf(s.history, id)| && S.HistoryOf(s.history, id)[i] == Some(release)
  {
    var d :| d in s.outbox && d.repoId == id && d.release == release;
    InReleases(s.outbox, d);
    hide H.Fold, S.Releases;
    AnnouncedWasSeen(S.HistoryOf(s.history, id), release);
  }

  lemma MailOwner(j: Joined, c: N.Call) returns (sub: nat)
    requires Inv(j) && c in j.sys.inbox.calls && c.mail.ReleaseMail?
    ensures Owned(j.scanner.outbox, j.sys.w, c.mail.email, c.mail.unsubscribeToken, c.mail.release, sub)
    ensures sub !in j.sys.w.h.failedBy
  {
    hide S.Inv, TasksOk, RowsOk, FoundOk, Found, SagaProtocol.Inv, P.MessagesOk, P.CausesOk;
    CallMessage(j.sys.inbox, c);
    hide N.Inv;
    var m := j.sys.inbox.messages[c.d.seqNo];
    assert MessageOk(j.scanner.outbox, j.sys.w, m);
    sub :| Owned(j.scanner.outbox, j.sys.w, m.email, m.unsubscribeToken, m.release, sub);
    P.InvDeleted(j.sys.w);
  }

  lemma CallMessage(inbox: N.Inbox, c: N.Call)
    requires N.Inv(inbox) && c in inbox.calls
    ensures c.d.seqNo < |inbox.messages| && N.MailOf(inbox.messages[c.d.seqNo]) == Some(c.mail)
  {
    hide N.StagesOk, N.AckedOk, N.LettersOk, N.RepliesOk, N.LastsOk, N.NumbersOk;
  }
}
