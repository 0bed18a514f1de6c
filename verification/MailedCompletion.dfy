/**
 Which sagas can still finish when subscribers act on their mails only: not only must the subscription still exist,
 its confirm token must still be within reach of a mail.
 */
module MailedCompletion {
  import opened Prelude
  import opened SubscriptionTables
  import opened EndToEnd
  import opened Subscribers
  import SP = SagaProtocol
  import SF = SagaFrames
  import SS = SagaSafety
  import SC = SagaCompletion
  import N = NotificationConsumer
  import O = OutboxRelay
  import P = Pipeline

  predicate Carries(m: N.Message, token: string) {
    m.ConfirmationMessage? && m.confirmToken == token
  }

  predicate RowInReach(outbox: SP.Outbox, token: string) {
    exists o :: o in outbox && !outbox[o].published && Carries(P.MessageOf(outbox[o].payload), token)
  }

  predicate MessageInReach(inbox: N.Inbox, token: string) {
    exists q :: 0 <= q < |inbox.messages| && Carries(inbox.messages[q], token) && CanCall(inbox, q)
  }

  /** A mail with the token went out, or can go out from a message of the stream or from a pending row. */
  predicate TokenInReach(s: Whole, token: string) {
    || ConfirmMailed(s.sys.inbox.calls, token)
    || MessageInReach(s.sys.inbox, token)
    || RowInReach(s.sys.w.t.outbox, token)
  }

  /** The token a confirmation of the saga's subscription needs can still be had. */
  predicate CanStillConfirm(s: Whole, sub: nat) {
    sub in s.sys.w.t.subs && TokenInReach(s, s.sys.w.t.subs[sub].confirmToken)
  }

  ghost predicate Finished(s: Whole, r: nat) {
    r in s.sys.w.t.sagas && Terminal(s.sys.w.t.sagas[r].state)
  }

  ghost predicate CanFinish(s: Whole, window: nat, r: nat) {
    exists s' :: Leads(s, window, s') && Finished(s', r)
  }

  // -- What can still move it does finish it

  lemma FinishesLater(s: Whole, window: nat, s': Whole, r: nat)
    requires Leads(s, window, s') && CanFinish(s', window, r)
    ensures CanFinish(s, window, r)
  {
    hide Leads, Finished;
    var last :| Leads(s', window, last) && Finished(last, r);
    LeadsOn(s, window, s', last);
  }

  lemma FinishesNow(s: Whole, window: nat, e: SP.Event, r: nat)
    requires e.Compensate? || e.HandleConfirmed?
    requires r in SP.Next(s.sys.w, e).t.sagas && Terminal(SP.Next(s.sys.w, e).t.sagas[r].state)
    ensures CanFinish(s, window, r)
  {
    hide SP.Next, Leads;
    LeadsOne(s, window, Service(e));
    assert Finished(Move(s, window, Service(e)), r);
  }

  lemma CompensationFinishes(s: Whole, window: nat, k: nat, r: nat)
    requires SP.Inv(s.sys.w) && k in s.sys.w.tasks && s.sys.w.tasks[k].Compensation? && s.sys.w.tasks[k].row == r
    ensures CanFinish(s, window, r)
  {
    hide SP.Inv, CanFinish;
    SC.CompensationEnds(s.sys.w, k);
    hide SP.Next;
    FinishesNow(s, window, SP.Compensate(k), r);
  }

  lemma ConfirmationFinishes(s: Whole, window: nat, k: nat, r: nat)
    requires r in s.sys.w.t.sagas && k in s.sys.w.tasks && s.sys.w.tasks[k] == SP.ConfirmCommitted(s.sys.w.t.sagas[r].subId)
    ensures CanFinish(s, window, r)
  {
    hide CanFinish;
    SC.ConfirmationEnds(s.sys.w, k, r);
    hide SP.Next;
    FinishesNow(s, window, SP.HandleConfirmed(k, r), r);
  }

  lemma MailedFinishes(s: Whole, window: nat, r: nat)
    requires r in s.sys.w.t.sagas && s.sys.w.t.sagas[r].subId in s.sys.w.t.subs
    requires ConfirmMailed(s.sys.inbox.calls, s.sys.w.t.subs[s.sys.w.t.sagas[r].subId].confirmToken)
    ensures CanFinish(s, window, r)
  {
    hide CanFinish, Leads, ConfirmMailed;
    var e := SP.Confirm(s.sys.w.t.sagas[r].subId);
    LeadsOne(s, window, Service(e));
    ConfirmationFinishes(Move(s, window, Service(e)), window, s.sys.w.nextTask, r);
    FinishesLater(s, window, Move(s, window, Service(e)), r);
  }

  lemma InReachFinishes(s: Whole, window: nat, r: nat)
    requires Inv(s, window) && r in s.sys.w.t.sagas && CanStillConfirm(s, s.sys.w.t.sagas[r].subId)
    ensures CanFinish(s, window, r)
  {
    hide Inv, CanFinish, Leads, CanCall;
    var token := s.sys.w.t.subs[s.sys.w.t.sagas[r].subId].confirmToken;
    if ConfirmMailed(s.sys.inbox.calls, token) {
      MailedFinishes(s, window, r);
    } else if MessageInReach(s.sys.inbox, token) {
      var q :| 0 <= q < |s.sys.inbox.messages| && Carries(s.sys.inbox.messages[q], token) && CanCall(s.sys.inbox, q);
      var s' := MessageCalls(s, window, q);
      MailedFinishes(s', window, r);
      FinishesLater(s, window, s', r);
    } else {
      var (outbox, calls) := (s.sys.w.t.outbox, s.sys.inbox.calls);
      var o :| o in outbox && !outbox[o].published && Carries(P.MessageOf(outbox[o].payload), token);
      var s' := RowCalls(s, window, o);
      MailedFinishes(s', window, r);
      FinishesLater(s, window, s', r);
    }
  }

  /** An active saga can always finish: its deadline passes, the reaper marks it, its compensation runs. */
  lemma ActiveFinishes(s: Whole, window: nat, r: nat)
    requires Possible(s, window) && r in s.sys.w.t.sagas && Active(s.sys.w.t.sagas[r].state)
    ensures CanFinish(s, window, r)
  {
    PossibleHappens(s, window);
    hide Possible, Happens, SS.Reachable, CanFinish, Leads, Inv, Effect;
    ActiveExpires(s, window, r);
  }

  lemma ActiveExpires(s: Whole, window: nat, r: nat)
    requires Inv(s, window) && r in s.sys.w.t.sagas && Active(s.sys.w.t.sagas[r].state)
    ensures CanFinish(s, window, r)
  {
    hide CanFinish, Leads, Inv, Effect, SP.Next;
    var to := s.sys.w.now + s.sys.w.t.sagas[r].deadline + 1;
    TickWorld(s.sys.w, to);
    var s1 := Serves(s, window, SP.Tick(to));
    LeadsKeep(s, window, s1);
    ExpiredFinishes(s1, window, r);
    FinishesLater(s, window, s1, r);
  }

  lemma TickWorld(w: SP.World, to: nat)
    requires w.now <= to
    ensures SP.Next(w, SP.Tick(to)) == w.(now := to)
  {
  }

  lemma ExpiredFinishes(s: Whole, window: nat, r: nat)
    requires Inv(s, window) && Expired(s.sys.w.t, s.sys.w.now, r)
    ensures CanFinish(s, window, r)
  {
    hide CanFinish, Leads, Inv;
    SC.ReapOne(s.sys.w, r);
    assert [r][0] == r;
    var s1 := Serves(s, window, SP.Reap([r]));
    LeadsKeep(s, window, s1);
    JoinedFacts(s1, window);
    CompensationFinishes(s1, window, s.sys.w.nextTask, r);
    FinishesLater(s, window, s1, r);
  }

  // -- What cannot stays as it is

  /** No worker holds the saga, and its subscription is gone or its token out of reach. */
  ghost predicate Stuck(s: Whole, r: nat) {
    SC.Unheld(s.sys.w, r) && !CanStillConfirm(s, s.sys.w.t.sagas[r].subId)
  }

  /** The event of the subscription service that a step is, if it is one. */
  function EventOf(s: Whole, step: Step): Option<SP.Event>
    requires Enabled(s, step)
  {
    match step
    case Service(e) => Some(e)
    case Replica(Commit(w)) => Some(SP.Publish(O.ToSet(s.relay.passes[w].acked)))
    case HandleReply(i, row) => Some(P.ReplyEvent(s.sys.inbox.replies[i], row))
    case _ => None
  }

  lemma WorldUnder(s: Whole, window: nat, step: Step)
    requires Enabled(s, step)
    ensures Effect(s, window, step).sys.w == match EventOf(s, step) case Some(e) => SP.Next(s.sys.w, e) case None => s.sys.w
  {
    hide SP.Next;
  }

  lemma UnheldUnder(s: Whole, window: nat, step: Step, r: nat)
    requires SP.Inv(s.sys.w) && Allowed(s, step) && Stuck(s, r)
    ensures var s' := Effect(s, window, step);
      SC.Unheld(s'.sys.w, r) && s'.sys.w.t.sagas[r].subId == s.sys.w.t.sagas[r].subId
  {
    hide SP.Inv, SC.Unheld, SP.Next;
    WorldUnder(s, window, step);
    if EventOf(s, step).Some? {
      var e := EventOf(s, step).value;
      UnheldFacts(s.sys.w, r);
      hide Effect;
      SC.UnheldStep(s.sys.w, e, r);
    }
  }

  lemma UnheldFacts(w: SP.World, r: nat)
    requires SC.Unheld(w, r)
    ensures r in w.t.sagas && w.t.sagas[r].state == Compensating
  {
  }

  /** A live subscription was live before, with the same token. */
  lemma TokenUnder(w: SP.World, e: SP.Event, r: nat)
    requires SP.Inv(w) && r in w.t.sagas && w.t.sagas[r].subId in SP.Next(w, e).t.subs
    ensures var sub := w.t.sagas[r].subId;
      sub in w.t.subs && SP.Next(w, e).t.subs[sub].confirmToken == w.t.subs[sub].confirmToken
  {
    SC.SagaSubCreated(w, r);
    hide SP.Inv, SP.Next;
    SF.SubUnder(w, e, w.t.sagas[r].subId);
  }

  lemma InboxShrinks(inbox: N.Inbox, e: N.Event, token: string)
    requires |inbox.delivered| == |inbox.messages| && (e.Append? ==> !Carries(e.m, token))
    requires !ConfirmMailed(inbox.calls, token) && !MessageInReach(inbox, token)
    ensures !ConfirmMailed(N.Next(inbox, e).calls, token) && !MessageInReach(N.Next(inbox, e), token)
  {
    var inbox' := N.Next(inbox, e);
    P.InboxGrows(inbox, e);
    forall q | 0 <= q < |inbox'.messages| && Carries(inbox'.messages[q], token) ensures !CanCall(inbox', q) {
      assert q < |inbox.messages| && !CanCall(inbox, q);
      CannotCallLater(inbox, e, q);
    }
    forall c | c in inbox'.calls ensures !(c.mail.ConfirmationMail? && c.mail.confirmToken == token) {
      if c !in inbox.calls {
        NewCall(inbox, e, c);
      }
    }
  }

  lemma CannotCallLater(inbox: N.Inbox, e: N.Event, q: nat)
    requires |inbox.delivered| == |inbox.messages| && q < |inbox.messages| && !CanCall(inbox, q)
    ensures !CanCall(N.Next(inbox, e), q)
  {
  }

  lemma NewCall(inbox: N.Inbox, e: N.Event, c: N.Call)
    requires c in N.Next(inbox, e).calls && c !in inbox.calls
    ensures c.d.seqNo < |inbox.messages| && CanCall(inbox, c.d.seqNo) && N.MailOf(inbox.messages[c.d.seqNo]) == Some(c.mail)
  {
    assert e.Handle? && N.Enabled(inbox, e);
  }

  /** No event brings a token of a live subscription within reach of a row. */
  lemma RowsShrink(w: SP.World, e: SP.Event, sub: nat)
    requires SP.Inv(w) && sub in w.t.subs && !RowInReach(w.t.outbox, w.t.subs[sub].confirmToken)
    ensures !RowInReach(SP.Next(w, e).t.outbox, w.t.subs[sub].confirmToken)
  {
    hide SP.Inv, SP.Next;
    var (outbox, outbox') := (w.t.outbox, SP.Next(w, e).t.outbox);
    SF.OutboxUnder(w, e);
    forall o | o in outbox' && !outbox'[o].published ensures !Carries(P.MessageOf(outbox'[o].payload), w.t.subs[sub].confirmToken) {
      if o in outbox {
        PendingBefore(w, e, o);
      } else if outbox'[o].payload.ConfirmationRequested? {
        SF.NewRow(w, e, o);
      }
    }
  }

  lemma PendingBefore(w: SP.World, e: SP.Event, o: nat)
    requires o in w.t.outbox && o in SP.Next(w, e).t.outbox && !SP.Next(w, e).t.outbox[o].published
    ensures !w.t.outbox[o].published
  {
    if e.Publish? {
      assert SP.Next(w, e).t == MarkPublished(w.t, e.ids);
    } else {
      SF.OutboxUnder(w, e);
      hide SP.Next;
    }
  }

  lemma StuckStep(s: Whole, window: nat, step: Step, r: nat)
    requires Inv(s, window) && Stuck(s, r)
    ensures Stuck(Move(s, window, step), r)
  {
    if Allowed(s, step) {
      hide Inv, SC.Unheld, TokenInReach, SP.Next, Effect;
      JoinedFacts(s, window);
      UnheldFacts(s.sys.w, r);
      UnheldUnder(s, window, step, r);
      WorldUnder(s, window, step);
      var (s', sub) := (Effect(s, window, step), s.sys.w.t.sagas[r].subId);
      if sub in s'.sys.w.t.subs {
        if EventOf(s, step).Some? {
          TokenUnder(s.sys.w, EventOf(s, step).value, r);
        }
        ReachShrinks(s, window, step, sub);
      }
    }
  }

  lemma ReachShrinks(s: Whole, window: nat, step: Step, sub: nat)
    requires Inv(s, window) && Allowed(s, step) && sub in s.sys.w.t.subs
    requires !TokenInReach(s, s.sys.w.t.subs[sub].confirmToken)
    ensures !TokenInReach(Effect(s, window, step), s.sys.w.t.subs[sub].confirmToken)
  {
    hide Inv, SP.Next, RowInReach, MessageInReach, ConfirmMailed, Effect;
    JoinedFacts(s, window);
    WorldUnder(s, window, step);
    if EventOf(s, step).Some? {
      RowsShrink(s.sys.w, EventOf(s, step).value, sub);
    }
    InboxUnder(s, window, step, s.sys.w.t.subs[sub].confirmToken);
  }

  lemma InboxUnder(s: Whole, window: nat, step: Step, token: string)
    requires Inv(s, window) && Enabled(s, step) && !TokenInReach(s, token)
    ensures var inbox' := Effect(s, window, step).sys.inbox;
      !ConfirmMailed(inbox'.calls, token) && !MessageInReach(inbox', token)
  {
    hide Inv, SP.Next, ConfirmMailed, MessageInReach, N.Next;
    FreshMessage(s, window);
    match step
    case Consume(c) => InboxShrinks(s.sys.inbox, c, token);
    case Auth(_, m) => InboxShrinks(s.sys.inbox, N.Append(m), token);
    case Replica(Publish(w, outcome)) =>
      var id := s.relay.passes[w].ids[s.relay.passes[w].next];
      PublishedIsPending(s, window, w);
      InboxShrinks(s.sys.inbox, N.Append(P.MessageOf(s.sys.w.t.outbox[id].payload)), token);
    case _ =>
  }

  lemma PublishedIsPending(s: Whole, window: nat, w: nat)
    requires Inv(s, window) && w in s.relay.passes && s.relay.passes[w].next < |s.relay.passes[w].ids|
    ensures var id := s.relay.passes[w].ids[s.relay.passes[w].next];
      id in s.sys.w.t.outbox && !s.sys.w.t.outbox[id].published
  {
    hide P.SystemInv, StreamOk, O.Exclusive, O.Accounted, O.OrderOk;
    assert O.PassOk(s.relay.passes[w], s.relay.rows);
  }

  lemma {:induction false} StuckForever(s: Whole, window: nat, steps: seq<Step>, r: nat)
    requires Inv(s, window) && Stuck(s, r)
    ensures Stuck(Moves(s, window, steps), r)
    decreases |steps|
  {
    hide Inv, Stuck, Effect;
    if steps != [] {
      StuckStep(s, window, steps[0], r);
      StepKeeps(s, window, steps[0]);
      StuckForever(Move(s, window, steps[0]), window, steps[1..], r);
    }
  }

  /**
   With subscribers who act on their mails only, a COMPENSATING saga can still finish if and only if its compensation
   or the second half of its confirmation is pending, or its subscription still exists and a mail with its confirm
   token was sent or can still be sent. Otherwise nothing that can happen ends it.
   */
  lemma FinishesIff(s: Whole, window: nat, r: nat)
    requires Possible(s, window) && r in s.sys.w.t.sagas && s.sys.w.t.sagas[r].state == Compensating
    ensures CanFinish(s, window, r) <==>
      || SC.CompensationPending(s.sys.w, r)
      || SC.ConfirmationPending(s.sys.w, s.sys.w.t.sagas[r].subId)
      || CanStillConfirm(s, s.sys.w.t.sagas[r].subId)
  {
    PossibleHappens(s, window);
    hide Possible, Inv, CanStillConfirm, Leads;
    JoinedFacts(s, window);
    if SC.CompensationPending(s.sys.w, r) {
      var k :| k in s.sys.w.tasks && s.sys.w.tasks[k].Compensation? && s.sys.w.tasks[k].row == r;
      CompensationFinishes(s, window, k, r);
    } else if SC.ConfirmationPending(s.sys.w, s.sys.w.t.sagas[r].subId) {
      var k :| k in s.sys.w.tasks && s.sys.w.tasks[k].ConfirmCommitted? && s.sys.w.tasks[k].subId == s.sys.w.t.sagas[r].subId;
      ConfirmationFinishes(s, window, k, r);
    } else if CanStillConfirm(s, s.sys.w.t.sagas[r].subId) {
      InReachFinishes(s, window, r);
    } else {
      NeverFinishes(s, window, r);
    }
  }

  lemma NeverFinishes(s: Whole, window: nat, r: nat)
    requires Inv(s, window) && Stuck(s, r)
    ensures !CanFinish(s, window, r)
  {
    hide Inv, CanStillConfirm;
    forall s' | Leads(s, window, s') ensures !Finished(s', r) {
      var steps :| s' == Moves(s, window, steps);
      StuckForever(s, window, steps, r);
    }
  }
}
