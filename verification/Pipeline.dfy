/**
 The whole way of a mail: saga and outbox, relay, stream, notification consumer, mailer, saga reply. The saga
 service and the consumer are the machines of SagaProtocol and NotificationConsumer, joined here: the stream gets
 copies of outbox rows, and the saga hears of a mail only through a reply the consumer published.
 */
module Pipeline {
  import opened Prelude
  import opened SubscriptionTables
  import opened SagaProtocol
  import opened SagaFrames
  import opened SagaSafety
  import N = NotificationConsumer

  datatype System = System(w: World, inbox: N.Inbox)

  const Start := System(Init, N.Empty)

  datatype Step =
    | Service(e: Event)                 // the subscription service does anything but handle a reply
    | Relay(out: nat)                   // a copy of an outbox row reaches the stream
    | Elsewhere(m: N.Message)           // a message of the auth service, or one nobody can read
    | Consume(ev: N.Event)              // the consumer or the broker does anything but receive a new message
    | HandleReply(i: nat, row: nat)     // the saga consumer handles a published reply, perhaps again

  function MessageOf(p: Payload): N.Message {
    match p
    case ConfirmationRequested(sagaId, email, repoName, token) => N.ConfirmationMessage(sagaId, email, repoName, token)
    case ReleaseDetected(email, token, release) => N.ReleaseMessage(email, token, release)
  }

  predicate Enabled(s: System, step: Step) {
    match step
    case Service(e) => !e.EmailSent? && !e.EmailFailed?
    case Relay(out) => out in s.w.t.outbox
    case Elsewhere(m) => m.VerificationMessage? || m.Unparsable? || m.UnknownSubject?
    case Consume(ev) => !ev.Append?
    case HandleReply(i, row) =>
      i < |s.inbox.replies| && row in s.w.t.sagas && s.w.t.sagas[row].sagaId == s.inbox.replies[i].sagaId
  }

  function ReplyEvent(r: N.Reply, row: nat): Event {
    match r.failure
    case None => EmailSent(row)
    case Some(reason) => EmailFailed(row, reason)
  }

  function Effect(s: System, step: Step): System
    requires Enabled(s, step)
  {
    match step
    case Service(e) => s.(w := Next(s.w, e))
    case Relay(out) => s.(inbox := N.Next(s.inbox, N.Append(MessageOf(s.w.t.outbox[out].payload))))
    case Elsewhere(m) => s.(inbox := N.Next(s.inbox, N.Append(m)))
    case Consume(ev) => s.(inbox := N.Next(s.inbox, ev))
    case HandleReply(i, row) => s.(w := Next(s.w, ReplyEvent(s.inbox.replies[i], row)))
  }

  function After(s: System, step: Step): System {
    if Enabled(s, step) then Effect(s, step) else s
  }

  function Steps(s: System, steps: seq<Step>): System
    decreases |steps|
  {
    if steps == [] then s else Steps(After(s, steps[0]), steps[1..])
  }

  lemma {:induction false} StepsAppend(s: System, steps: seq<Step>, more: seq<Step>)
    ensures Steps(s, steps + more) == Steps(Steps(s, steps), more)
    decreases |steps|
  {
    if steps == [] {
      assert steps + more == more;
    } else {
      assert (steps + more)[1..] == steps[1..] + more;
      StepsAppend(After(s, steps[0]), steps[1..], more);
    }
  }

  // -- The invariant across the two machines

  /** The mail the saga in `row` asked for: its subscription's own address and stored token. */
  ghost predicate OwnMail(w: World, row: nat, mail: N.Mail) {
    && row in w.t.sagas && w.t.sagas[row].subId in w.h.created && w.t.sagas[row].repoId in w.h.named
    && var g := w.t.sagas[row];
      mail == N.ConfirmationMail(w.h.created[g.subId].email, w.h.named[g.repoId], w.h.created[g.subId].confirmToken)
  }

  ghost predicate OwnMessage(w: World, row: nat, m: N.Message) {
    && m.ConfirmationMessage? && row in w.t.sagas && m.sagaId == w.t.sagas[row].sagaId
    && OwnMail(w, row, N.ConfirmationMail(m.email, m.repoName, m.confirmToken))
  }

  /** A release message is for a subscription that had been confirmed. */
  ghost predicate ForConfirmed(w: World, m: N.Message) {
    && m.ReleaseMessage?
    && exists s :: s in w.h.confirmed && RecipientOk(Recipient(s, m.email, m.unsubscribeToken), w.h.created, w.h.confirmed)
  }

  ghost predicate MessageOk(w: World, m: N.Message) {
    match m
    case ConfirmationMessage(_, _, _, _) => exists row :: OwnMessage(w, row, m)
    case ReleaseMessage(_, _, _) => ForConfirmed(w, m)
    case _ => true
  }

  ghost predicate MessagesOk(w: World, messages: seq<N.Message>) {
    forall q :: 0 <= q < |messages| ==> MessageOk(w, messages[q])
  }

  /** The mail of the saga in `row` was accepted at some delivery. */
  ghost predicate MailedFor(w: World, inbox: N.Inbox, row: nat) {
    exists d :: N.Mailed(inbox, d) && OwnMessage(w, row, inbox.messages[d.seqNo])
  }

  ghost predicate RefusedFor(w: World, inbox: N.Inbox, row: nat) {
    exists d, reason :: N.RefusedLast(inbox, d, reason) && OwnMessage(w, row, inbox.messages[d.seqNo])
  }

  ghost predicate Late(w: World, row: nat) {
    row in w.t.sagas && w.t.sagas[row].deadline < w.now
  }

  ghost predicate CausesOk(w: World, inbox: N.Inbox) {
    && (forall row :: row in w.h.awaited ==> MailedFor(w, inbox, row))
    && (forall row :: row in w.h.started ==> Late(w, row) || RefusedFor(w, inbox, row))
  }

  ghost predicate SystemInv(s: System) {
    Inv(s.w) && N.Inv(s.inbox) && MessagesOk(s.w, s.inbox.messages) && CausesOk(s.w, s.inbox)
  }

  // -- What one event of the service leaves alone

  /** Sagas keep who they are, subscriptions and names what they were, and the clock does not run back. */
  ghost predicate Later(w: World, w': World) {
    && (forall r :: r in w.t.sagas ==>
          r in w'.t.sagas && w'.t.sagas[r] == w.t.sagas[r].(state := w'.t.sagas[r].state, lastError := w'.t.sagas[r].lastError))
    && (forall s :: s in w.h.created ==> s in w'.h.created && w'.h.created[s] == w.h.created[s])
    && (forall r :: r in w.h.named ==> r in w'.h.named && w'.h.named[r] == w.h.named[r])
    && w.h.confirmed <= w'.h.confirmed && w.now <= w'.now
  }

  lemma EventIsLater(w: World, e: Event)
    requires Inv(w)
    ensures Later(w, Next(w, e))
  {
    hide Inv;
    var w' := Next(w, e);
    forall r | r in w.t.sagas
      ensures r in w'.t.sagas && w'.t.sagas[r] == w.t.sagas[r].(state := w'.t.sagas[r].state, lastError := w'.t.sagas[r].lastError)
    {
      EventMovesAlongEdge(w, e, r);
    }
    EventKeepsConfirmed(w, e);
    RecordsUnder(w, e);
    hide Next;
  }

  /** Only an EmailSent makes a saga await, and only an EmailFailed or the reaper starts a compensation. */
  lemma WhatAnEventStarts(w: World, e: Event)
    ensures var w' := Next(w, e);
      && (forall r :: r in w'.h.awaited ==> r in w.h.awaited || e == EmailSent(r))
      && (forall r :: r in w'.h.started ==>
            r in w.h.started || (e.EmailFailed? && e.row == r) || Expired(w.t, w.now, r))
  {
    hide Next;
    OutcomesUnder(w, e);
  }

  lemma OwnMessageLater(w: World, w': World, row: nat, m: N.Message)
    requires Later(w, w') && OwnMessage(w, row, m)
    ensures OwnMessage(w', row, m)
  {
  }

  lemma MessageOkLater(w: World, w': World, m: N.Message)
    requires Later(w, w') && MessageOk(w, m)
    ensures MessageOk(w', m)
  {
    if m.ConfirmationMessage? {
      var row :| OwnMessage(w, row, m);
      OwnMessageLater(w, w', row, m);
    } else if m.ReleaseMessage? {
      var s :| s in w.h.confirmed && RecipientOk(Recipient(s, m.email, m.unsubscribeToken), w.h.created, w.h.confirmed);
      assert RecipientOk(Recipient(s, m.email, m.unsubscribeToken), w'.h.created, w'.h.confirmed);
    }
  }

  /** What caused something in the past still did. */
  lemma CausesLater(w: World, w': World, inbox: N.Inbox, inbox': N.Inbox, row: nat)
    requires Later(w, w') && N.Grows(inbox, inbox')
    ensures MailedFor(w, inbox, row) ==> MailedFor(w', inbox', row)
    ensures RefusedFor(w, inbox, row) ==> RefusedFor(w', inbox', row)
    ensures Late(w, row) ==> Late(w', row)
  {
    if MailedFor(w, inbox, row) {
      var d :| N.Mailed(inbox, d) && OwnMessage(w, row, inbox.messages[d.seqNo]);
      N.GrowsKeeps(inbox, inbox', d);
      OwnMessageLater(w, w', row, inbox.messages[d.seqNo]);
      assert N.Mailed(inbox', d) && OwnMessage(w', row, inbox'.messages[d.seqNo]);
    }
    if RefusedFor(w, inbox, row) {
      var d, reason :| N.RefusedLast(inbox, d, reason) && OwnMessage(w, row, inbox.messages[d.seqNo]);
      N.GrowsKeeps(inbox, inbox', d);
      OwnMessageLater(w, w', row, inbox.messages[d.seqNo]);
      assert N.RefusedLast(inbox', d, reason) && OwnMessage(w', row, inbox'.messages[d.seqNo]);
    }
  }

  lemma AllLater(w: World, w': World, inbox: N.Inbox, inbox': N.Inbox)
    requires Later(w, w') && N.Grows(inbox, inbox') && MessagesOk(w, inbox.messages) && CausesOk(w, inbox)
    ensures MessagesOk(w', inbox.messages)
    ensures w'.h.awaited == w.h.awaited && w'.h.started == w.h.started ==> CausesOk(w', inbox')
  {
    hide Later, MessageOk, MailedFor, RefusedFor, Late;
    forall q | 0 <= q < |inbox.messages| ensures MessageOk(w', inbox.messages[q]) {
      MessageOkLater(w, w', inbox.messages[q]);
    }
    forall row ensures MailedFor(w, inbox, row) ==> MailedFor(w', inbox', row) {
      CausesLater(w, w', inbox, inbox', row);
    }
    forall row | Late(w, row) || RefusedFor(w, inbox, row) ensures Late(w', row) || RefusedFor(w', inbox', row) {
      CausesLater(w, w', inbox, inbox', row);
    }
  }

  lemma SameIsLater(w: World)
    ensures Later(w, w)
  {
  }

  lemma ServiceKeeps(s: System, e: Event)
    requires SystemInv(s) && !e.EmailSent? && !e.EmailFailed?
    ensures SystemInv(s.(w := Next(s.w, e)))
  {
    hide Inv, N.Inv, Later, MessagesOk, MailedFor, RefusedFor, Next;
    var w' := Next(s.w, e);
    EventKeepsInv(s.w, e);
    EventIsLater(s.w, e);
    AllLater(s.w, w', s.inbox, s.inbox);
    WhatAnEventStarts(s.w, e);
    forall row | row in w'.h.awaited ensures MailedFor(w', s.inbox, row) {
      CausesLater(s.w, w', s.inbox, s.inbox, row);
    }
    forall row | row in w'.h.started ensures Late(w', row) || RefusedFor(w', s.inbox, row) {
      CausesLater(s.w, w', s.inbox, s.inbox, row);
    }
  }

  /** The saga a reply names is the one whose message the mailer was called for. */
  lemma ReplyMatches(s: System, i: nat, row: nat)
    requires SystemInv(s) && Enabled(s, HandleReply(i, row))
    ensures i < |s.inbox.replies|
    ensures s.inbox.replies[i].failure == None ==> MailedFor(s.w, s.inbox, row)
    ensures s.inbox.replies[i].failure.Some? ==> RefusedFor(s.w, s.inbox, row)
  {
    var r := s.inbox.replies[i];
    assert N.MayReply(s.inbox, r.d, r.sagaId, r.failure);
    var m := s.inbox.messages[r.d.seqNo];
    assert MessageOk(s.w, m);
    var own :| OwnMessage(s.w, own, m);
    assert own == row by {
      IdNamesRow(s.w, own, row);
    }
  }

  lemma IdNamesRow(w: World, r: nat, q: nat)
    requires Inv(w) && r in w.t.sagas && q in w.t.sagas && w.t.sagas[r].sagaId == w.t.sagas[q].sagaId
    ensures r == q
  {
  }

  lemma HandleReplyKeeps(s: System, i: nat, row: nat)
    requires SystemInv(s) && Enabled(s, HandleReply(i, row))
    ensures SystemInv(After(s, HandleReply(i, row)))
  {
    hide Inv, N.Inv, Later, MessagesOk, MailedFor, RefusedFor, Next;
    var e := ReplyEvent(s.inbox.replies[i], row);
    var w' := Next(s.w, e);
    ReplyMatches(s, i, row);
    EventKeepsInv(s.w, e);
    EventIsLater(s.w, e);
    AllLater(s.w, w', s.inbox, s.inbox);
    WhatAnEventStarts(s.w, e);
    forall r | r in w'.h.awaited ensures MailedFor(w', s.inbox, r) {
      CausesLater(s.w, w', s.inbox, s.inbox, r);
    }
    forall r | r in w'.h.started ensures Late(w', r) || RefusedFor(w', s.inbox, r) {
      CausesLater(s.w, w', s.inbox, s.inbox, r);
    }
  }

  lemma InboxKeeps(s: System, e: N.Event)
    requires SystemInv(s) && (e.Append? ==> MessageOk(s.w, e.m))
    ensures SystemInv(s.(inbox := N.Next(s.inbox, e)))
  {
    var inbox' := N.Next(s.inbox, e);
    N.EventKeepsInv(s.inbox, e);
    InboxGrows(s.inbox, e);
    SameIsLater(s.w);
    hide Inv, N.Inv, Later, MessageOk, MailedFor, RefusedFor, N.Next;
    AllLater(s.w, s.w, s.inbox, inbox');
  }

  lemma InboxGrows(inbox: N.Inbox, e: N.Event)
    ensures var inbox' := N.Next(inbox, e);
      && N.Grows(inbox, inbox')
      && inbox'.messages == (if e.Append? then inbox.messages + [e.m] else inbox.messages)
  {
  }

  /** A row the relay publishes asks for a saga's own mail, or was queued for a confirmed subscription. */
  lemma RowsAreOk(w: World, out: nat)
    requires Inv(w) && out in w.t.outbox
    ensures MessageOk(w, MessageOf(w.t.outbox[out].payload))
  {
    var (p, h) := (w.t.outbox[out].payload, w.h);
    if p.ConfirmationRequested? {
      RequestRow(w.t.sagas, w.t.outbox, h, out);
      var row := h.requestOf[out];
      assert OwnMessage(w, row, MessageOf(p));
    } else {
      ReleaseRow(w.t.outbox, h, out);
      assert h.queuedFor[out] in h.confirmed;
    }
  }

  lemma RequestRow(sagas: Sagas, outbox: Outbox, h: History, out: nat)
    requires RequestOk(sagas, outbox, h.created, h.named, h.request, h.requestOf)
    requires out in outbox && outbox[out].payload.ConfirmationRequested?
    ensures out in h.requestOf && h.requestOf[out] in sagas
    ensures IsRequestOf(outbox[out].payload, sagas[h.requestOf[out]], h.created, h.named)
  {
    assert out in h.requestOf && h.request[h.requestOf[out]] == out;
  }

  lemma ReleaseRow(outbox: Outbox, h: History, out: nat)
    requires QueuedOk(outbox, h.queuedFor, h.created, h.confirmed)
    requires out in outbox && outbox[out].payload.ReleaseDetected?
    ensures out in h.queuedFor
    ensures RecipientOk(Recipient(h.queuedFor[out], outbox[out].payload.email, outbox[out].payload.unsubscribeToken),
                        h.created, h.confirmed)
  {
  }

  lemma StepKeeps(s: System, step: Step)
    requires SystemInv(s)
    ensures SystemInv(After(s, step))
  {
    hide SystemInv, Next, N.Next;
    if Enabled(s, step) {
      match step
      case Service(e) => ServiceKeeps(s, e);
      case Relay(out) =>
        RowsAreOk(s.w, out) by {
          InvOfSystem(s);
        }
        InboxKeeps(s, N.Append(MessageOf(s.w.t.outbox[out].payload)));
      case Elsewhere(m) => InboxKeeps(s, N.Append(m));
      case Consume(ev) => InboxKeeps(s, ev);
      case HandleReply(i, row) => HandleReplyKeeps(s, i, row);
    }
  }

  lemma InvOfSystem(s: System)
    requires SystemInv(s)
    ensures Inv(s.w)
  {
  }

  lemma {:induction false} StepsKeep(s: System, steps: seq<Step>)
    requires SystemInv(s)
    ensures SystemInv(Steps(s, steps))
    decreases |steps|
  {
    hide SystemInv;
    if steps != [] {
      StepKeeps(s, steps[0]);
      StepsKeep(After(s, steps[0]), steps[1..]);
    }
  }

  // -- Main results

  ghost predicate Happens(s: System) {
    exists steps :: s == Steps(Start, steps)
  }

  lemma {:induction false} StepsReach(s: System, steps: seq<Step>)
    requires Reachable(s.w)
    ensures Reachable(Steps(s, steps).w)
    decreases |steps|
  {
    hide Reachable, Next, N.Next;
    if steps != [] {
      if Enabled(s, steps[0]) && steps[0].Service? {
        ReachableStep(s.w, steps[0].e);
      } else if Enabled(s, steps[0]) && steps[0].HandleReply? {
        ReachableStep(s.w, ReplyEvent(s.inbox.replies[steps[0].i], steps[0].row));
      }
      StepsReach(After(s, steps[0]), steps[1..]);
    }
  }

  /** The service's part of a run of the pipeline is a run of the service, so what holds of those holds here. */
  lemma HappensReachable(s: System)
    requires Happens(s)
    ensures Reachable(s.w)
  {
    var steps :| s == Steps(Start, steps);
    assert Run(Init, []) == Init;
    StepsReach(Start, steps);
  }

  lemma HappensInv(s: System)
    requires Happens(s)
    ensures SystemInv(s)
  {
    hide Inv, N.Inv;
    var steps :| s == Steps(Start, steps);
    InitInv();
    N.EmptyInv();
    StepsKeep(Start, steps);
  }

  /**
   Cause of AWAITING_CONFIRMATION: whatever was lost, redelivered or reordered, a saga that ever awaited its
   confirmation had a mail accepted by the mailer that carried its own subscription's address and stored token.
   */
  lemma AwaitingMeansMailed(s: System, row: nat)
    requires Happens(s)
    requires row in s.w.h.awaited || (row in s.w.t.sagas && s.w.t.sagas[row].state == AwaitingConfirmation)
    ensures exists c :: c in s.inbox.calls && c.refusal == None && OwnMail(s.w, row, c.mail)
  {
    CauseOfAwaiting(s, row);
    hide Happens, Inv, N.Inv, SystemInv;
    var d :| N.Mailed(s.inbox, d) && OwnMessage(s.w, row, s.inbox.messages[d.seqNo]);
    assert N.Call(d, N.MailOf(s.inbox.messages[d.seqNo]).value, None) in s.inbox.calls;
  }

  lemma CauseOfAwaiting(s: System, row: nat)
    requires Happens(s)
    requires row in s.w.h.awaited || (row in s.w.t.sagas && s.w.t.sagas[row].state == AwaitingConfirmation)
    ensures MailedFor(s.w, s.inbox, row)
  {
    HappensInv(s);
    hide Happens, N.Inv, MailedFor, Late, RefusedFor, MessagesOk;
    InvAwaited(s.w);
    hide Inv;
  }

  lemma InvAwaited(w: World)
    requires Inv(w)
    ensures AwaitedOk(w.t.sagas, w.h.awaited) && StartedOk(w.t.sagas, w.h.started)
  {
  }

  /**
   Cause of COMPENSATING: a compensation is only ever started after the saga's deadline, or after the mailer
   refused that saga's own mail at the fifth and last delivery of its message.
   */
  lemma CompensationHasCause(s: System, row: nat)
    requires Happens(s)
    requires row in s.w.h.started
      || (row in s.w.t.sagas && (s.w.t.sagas[row].state == Compensating || s.w.t.sagas[row].state == Failed))
    ensures row in s.w.t.sagas
    ensures s.w.t.sagas[row].deadline < s.w.now
      || exists c :: c in s.inbox.calls && c.refusal.Some? && c.d.num == 5 && OwnMail(s.w, row, c.mail)
  {
    CauseOfStarting(s, row);
    if !Late(s.w, row) {
      RefusedCall(s, row);
    }
  }

  lemma CauseOfStarting(s: System, row: nat)
    requires Happens(s)
    requires row in s.w.h.started
      || (row in s.w.t.sagas && (s.w.t.sagas[row].state == Compensating || s.w.t.sagas[row].state == Failed))
    ensures row in s.w.t.sagas && (Late(s.w, row) || RefusedFor(s.w, s.inbox, row))
  {
    HappensInv(s);
    hide Happens, N.Inv, MailedFor, Late, RefusedFor, MessagesOk;
    InvAwaited(s.w);
    hide Inv;
  }

  lemma RefusedCall(s: System, row: nat)
    requires Happens(s) && RefusedFor(s.w, s.inbox, row)
    ensures exists c :: c in s.inbox.calls && c.refusal.Some? && c.d.num == 5 && OwnMail(s.w, row, c.mail)
  {
    hide Happens;
    var d, reason :| N.RefusedLast(s.inbox, d, reason) && OwnMessage(s.w, row, s.inbox.messages[d.seqNo]);
    var c := N.Call(d, N.MailOf(s.inbox.messages[d.seqNo]).value, Some(reason));
    CallNumber(s, c);
  }

  lemma CallNumber(s: System, c: N.Call)
    requires Happens(s) && c in s.inbox.calls
    ensures c.d.num <= 5
  {
    HappensInv(s);
    hide Happens, Inv, MessagesOk, CausesOk, N.CallsOk, N.StagesOk, N.AckedOk, N.LettersOk, N.RepliesOk;
    assert N.Numbered(s.inbox, c.d);
  }

  /**
   Nobody is mailed by mistake: a confirmation mail carries some saga's own address and token, and a release mail
   goes to a subscription that had been confirmed, so never to one that a compensation removed.
   */
  lemma MailsAreForTheirOwners(s: System, c: N.Call)
    requires Happens(s) && c in s.inbox.calls
    ensures c.mail.ConfirmationMail? ==> exists row :: OwnMail(s.w, row, c.mail)
    ensures c.mail.ReleaseMail? ==>
      exists sub :: sub in s.w.h.confirmed && sub !in s.w.h.failedBy && sub in s.w.h.created
        && s.w.h.created[sub].email == c.mail.email && s.w.h.created[sub].unsubscribeToken == c.mail.unsubscribeToken
  {
    CallsMessage(s, c);
    var m := s.inbox.messages[c.d.seqNo];
    if c.mail.ConfirmationMail? {
      hide Happens;
      var row :| OwnMessage(s.w, row, m);
    } else if c.mail.ReleaseMail? {
      var sub :| sub in s.w.h.confirmed
        && RecipientOk(Recipient(sub, m.email, m.unsubscribeToken), s.w.h.created, s.w.h.confirmed);
      NeverDeleted(s, sub);
    }
  }

  lemma CallsMessage(s: System, c: N.Call)
    requires Happens(s) && c in s.inbox.calls
    ensures c.d.seqNo < |s.inbox.messages| && N.MailOf(s.inbox.messages[c.d.seqNo]) == Some(c.mail)
    ensures MessageOk(s.w, s.inbox.messages[c.d.seqNo])
  {
    HappensInv(s);
    hide Happens, Inv, CausesOk, MessageOk, N.StagesOk, N.AckedOk, N.LettersOk, N.RepliesOk;
  }

  lemma NeverDeleted(s: System, sub: nat)
    requires Happens(s) && sub in s.w.h.confirmed
    ensures sub !in s.w.h.failedBy
  {
    HappensInv(s);
    hide Happens, N.Inv, MessagesOk, CausesOk;
    InvDeleted(s.w);
    hide Inv;
  }

  lemma InvDeleted(w: World)
    requires Inv(w)
    ensures DeletedOk(w.t.subs, w.h.created, w.h.confirmed, w.h.failedBy)
  {
  }
}
