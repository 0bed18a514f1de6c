/**
 The whole machine with subscribers who act on their mails only: a confirmation needs a mail with the confirm token,
 an unsubscribe one with the unsubscribe token. This module says exactly which sagas can then still finish.
 */
module Subscribers {
  import opened Prelude
  import opened Broker
  import opened EndToEnd
  import SP = SagaProtocol
  import SS = SagaSafety
  import N = NotificationConsumer
  import O = OutboxRelay
  import P = Pipeline
  import RP = RelayProgress

  predicate ConfirmMailed(calls: seq<N.Call>, token: string) {
    exists c :: c in calls && c.mail.ConfirmationMail? && c.mail.confirmToken == token
  }

  predicate UnsubscribeMailed(calls: seq<N.Call>, token: string) {
    exists c :: c in calls && c.mail.ReleaseMail? && c.mail.unsubscribeToken == token
  }

  predicate OnMail(s: Whole, e: SP.Event) {
    var (subs, calls) := (s.sys.w.t.subs, s.sys.inbox.calls);
    match e
    case Confirm(sub) => sub in subs && ConfirmMailed(calls, subs[sub].confirmToken)
    case UnsubscribeFind(sub) => sub in subs && UnsubscribeMailed(calls, subs[sub].unsubscribeToken)
    case _ => true
  }

  predicate Allowed(s: Whole, step: Step) {
    Enabled(s, step) && (step.Service? ==> OnMail(s, step.e))
  }

  function Move(s: Whole, window: nat, step: Step): Whole {
    if Allowed(s, step) then Effect(s, window, step) else s
  }

  function Moves(s: Whole, window: nat, steps: seq<Step>): Whole
    decreases |steps|
  {
    if steps == [] then s else Moves(Move(s, window, steps[0]), window, steps[1..])
  }

  ghost predicate Leads(s: Whole, window: nat, s': Whole) {
    exists steps :: s' == Moves(s, window, steps)
  }

  /** What can happen when everybody acts on mails only. */
  ghost predicate Possible(s: Whole, window: nat) {
    Leads(Start, window, s)
  }

  lemma LeadsNowhere(s: Whole, window: nat)
    ensures Leads(s, window, s)
  {
    assert Moves(s, window, []) == s;
  }

  lemma LeadsBy(s: Whole, window: nat, step: Step, s': Whole)
    requires Leads(Move(s, window, step), window, s')
    ensures Leads(s, window, s')
  {
    hide Move;
    var steps :| s' == Moves(Move(s, window, step), window, steps);
    assert ([step] + steps)[1..] == steps;
    assert s' == Moves(s, window, [step] + steps);
  }

  lemma LeadsOne(s: Whole, window: nat, step: Step)
    ensures Leads(s, window, Move(s, window, step))
  {
    hide Move;
    LeadsNowhere(Move(s, window, step), window);
    LeadsBy(s, window, step, Move(s, window, step));
  }

  lemma {:induction false} MovesAppend(s: Whole, window: nat, steps: seq<Step>, more: seq<Step>)
    ensures Moves(s, window, steps + more) == Moves(Moves(s, window, steps), window, more)
    decreases |steps|
  {
    hide Move;
    if steps == [] {
      assert steps + more == more;
    } else {
      assert (steps + more)[1..] == steps[1..] + more;
      MovesAppend(Move(s, window, steps[0]), window, steps[1..], more);
    }
  }

  lemma LeadsOn(s: Whole, window: nat, s1: Whole, s2: Whole)
    requires Leads(s, window, s1) && Leads(s1, window, s2)
    ensures Leads(s, window, s2)
  {
    var steps :| s1 == Moves(s, window, steps);
    var more :| s2 == Moves(s1, window, more);
    MovesAppend(s, window, steps, more);
  }

  lemma {:induction false} MovesKeep(s: Whole, window: nat, steps: seq<Step>)
    requires Inv(s, window)
    ensures Inv(Moves(s, window, steps), window)
    decreases |steps|
  {
    hide Inv, Effect;
    if steps != [] {
      StepKeeps(s, window, steps[0]);
      MovesKeep(Move(s, window, steps[0]), window, steps[1..]);
    }
  }

  lemma LeadsKeep(s: Whole, window: nat, s': Whole)
    requires Inv(s, window) && Leads(s, window, s')
    ensures Inv(s', window)
  {
    hide Inv;
    var steps :| s' == Moves(s, window, steps);
    MovesKeep(s, window, steps);
  }

  /** It is a run of the whole machine, from which some confirmations and unsubscribes are left out. */
  lemma {:induction false} MovesAreSteps(s: Whole, window: nat, steps: seq<Step>) returns (taken: seq<Step>)
    ensures Moves(s, window, steps) == Steps(s, window, taken)
    decreases |steps|
  {
    hide Effect, OnMail;
    taken := [];
    if steps != [] {
      var rest := MovesAreSteps(Move(s, window, steps[0]), window, steps[1..]);
      if Allowed(s, steps[0]) {
        taken := [steps[0]] + rest;
        assert taken[1..] == rest;
      } else {
        taken := rest;
      }
    }
  }

  lemma PossibleHappens(s: Whole, window: nat)
    requires Possible(s, window)
    ensures Happens(s, window) && Inv(s, window) && SS.Reachable(s.sys.w)
  {
    hide Inv;
    var steps :| s == Moves(Start, window, steps);
    var taken := MovesAreSteps(Start, window, steps);
    assert s == Steps(Start, window, taken);
    HappensInv(s, window);
    RefinesPipeline(s, window);
  }

  /** The service takes a step of its own. */
  lemma Serves(s: Whole, window: nat, e: SP.Event) returns (s': Whole)
    requires Allowed(s, Service(e))
    ensures Leads(s, window, s') && s'.sys == s.sys.(w := SP.Next(s.sys.w, e))
    ensures s'.relay == s.relay.(rows := RowsOf(s'.sys.w.t.outbox))
  {
    hide Leads, SP.Next, SP.Enabled, OnMail;
    LeadsOne(s, window, Service(e));
    s' := Move(s, window, Service(e));
  }

  // -- How a mail can still go out

  /** Another delivery of the message can come, or one has come and has not called the mailer yet. */
  predicate CanCall(inbox: N.Inbox, q: nat) {
    || N.Enabled(inbox, N.Deliver(q))
    || exists d :: d in inbox.callbacks && inbox.callbacks[d].Arrived? && d.seqNo == q
  }

  predicate Called(calls: seq<N.Call>, mail: N.Mail) {
    exists c :: c in calls && c.mail == mail
  }

  lemma CallNow(s: Whole, window: nat, d: N.Delivery) returns (s': Whole)
    requires d in s.sys.inbox.callbacks && s.sys.inbox.callbacks[d].Arrived? && d.seqNo < |s.sys.inbox.messages|
    requires N.MailOf(s.sys.inbox.messages[d.seqNo]).Some?
    ensures Leads(s, window, s') && s'.sys.w == s.sys.w && s'.relay == s.relay
    ensures Called(s'.sys.inbox.calls, N.MailOf(s.sys.inbox.messages[d.seqNo]).value)
    ensures forall c :: c in s.sys.inbox.calls ==> c in s'.sys.inbox.calls
  {
    var step := Consume(N.Handle(d, None));
    LeadsOne(s, window, step);
    s' := Move(s, window, step);
    assert s'.sys.inbox.calls == s.sys.inbox.calls + [N.Call(d, N.MailOf(s.sys.inbox.messages[d.seqNo]).value, None)];
    assert N.Call(d, N.MailOf(s.sys.inbox.messages[d.seqNo]).value, None) in s'.sys.inbox.calls;
  }

  lemma MessageCalls(s: Whole, window: nat, q: nat) returns (s': Whole)
    requires q < |s.sys.inbox.messages| && CanCall(s.sys.inbox, q) && N.MailOf(s.sys.inbox.messages[q]).Some?
    ensures Leads(s, window, s') && s'.sys.w == s.sys.w && s'.relay == s.relay
    ensures Called(s'.sys.inbox.calls, N.MailOf(s.sys.inbox.messages[q]).value)
    ensures forall c :: c in s.sys.inbox.calls ==> c in s'.sys.inbox.calls
  {
    hide Leads, Called;
    if d :| d in s.sys.inbox.callbacks && s.sys.inbox.callbacks[d].Arrived? && d.seqNo == q {
      s' := CallNow(s, window, d);
    } else {
      var step := Consume(N.Deliver(q));
      var s1 := Move(s, window, step);
      assert s1.sys.inbox.messages == s.sys.inbox.messages && s1.sys.inbox.calls == s.sys.inbox.calls;
      s' := CallNow(s1, window, N.Delivery(q, s.sys.inbox.delivered[q] + 1));
      LeadsBy(s, window, step, s');
    }
  }

  /** Replicas taking steps that do not reach the stream. */
  lemma {:induction false} StillMoves(s: Whole, window: nat, es: seq<O.Event>)
    requires forall e :: e in es ==> RP.Still(e)
    ensures Leads(s, window, Whole(s.sys, O.Run(Ours, s.relay, es)))
    ensures var relay' := O.Run(Ours, s.relay, es);
      relay'.rows == s.relay.rows && relay'.attempts == s.relay.attempts && relay'.now == s.relay.now
    decreases |es|
  {
    hide Leads;
    if es == [] {
      LeadsNowhere(s, window);
    } else {
      assert es[0] in es;
      StillMove(s, window, es[0]);
      RP.StillKeeps(Ours, s.relay, es[0]);
      hide O.Next, Move;
      StillMoves(Whole(s.sys, O.Next(Ours, s.relay, es[0])), window, es[1..]);
      LeadsBy(s, window, Replica(es[0]), Whole(s.sys, O.Run(Ours, s.relay, es)));
    }
  }

  lemma StillMove(s: Whole, window: nat, e: O.Event)
    requires RP.Still(e)
    ensures Move(s, window, Replica(e)) == Whole(s.sys, O.Next(Ours, s.relay, e))
  {
  }

  /** A pending row can still reach the stream, as a new message. */
  lemma RowArrives(s: Whole, window: nat, out: nat) returns (s': Whole)
    requires Inv(s, window) && out in s.sys.w.t.outbox && !s.sys.w.t.outbox[out].published
    ensures Leads(s, window, s') && s'.sys.w == s.sys.w
    ensures s'.sys.inbox.calls == s.sys.inbox.calls
    ensures s'.sys.inbox.messages == s.sys.inbox.messages + [P.MessageOf(s.sys.w.t.outbox[out].payload)]
    ensures CanCall(s'.sys.inbox, |s.sys.inbox.messages|)
  {
    hide Leads, Inv, O.Inv, CanCall, O.Run, O.Next, O.Enabled;
    var tick := O.Tick(s.relay.now + window + 1);
    var s1 := Move(s, window, Replica(tick));
    StepKeeps(s, window, Replica(tick));
    Ticked(s, window, s.relay.now + window + 1);
    PendingRow(s1, window, out);
    RP.PendingComes(Ours, s1.relay, out);
    var es, w :| (forall e :: e in es ==> RP.Still(e)) && RP.Due(O.Run(Ours, s1.relay, es), w, out);
    var s2 := Whole(s.sys, O.Run(Ours, s1.relay, es));
    StillMoves(s1, window, es);
    NotRecent(s, window, out, s2.relay.attempts, s2.relay.now);
    FreshMessage(s, window);
    s' := PublishNow(s2, window, w, out);
    LeadsOn(s1, window, s2, s');
    LeadsBy(s, window, Replica(tick), s');
  }

  lemma Ticked(s: Whole, window: nat, to: nat)
    requires s.relay.now <= to
    ensures Move(s, window, Replica(O.Tick(to))) == Whole(s.sys, s.relay.(now := to))
    ensures After(s, window, Replica(O.Tick(to))) == Whole(s.sys, s.relay.(now := to))
  {
  }

  lemma PendingRow(s: Whole, window: nat, out: nat)
    requires Inv(s, window) && out in s.sys.w.t.outbox && !s.sys.w.t.outbox[out].published
    ensures O.Inv(Ours, s.relay) && out in s.relay.rows && !s.relay.rows[out]
  {
    hide P.SystemInv, O.Inv, StreamOk;
  }

  /** After the duplicate window no publish is a duplicate. */
  lemma NotRecent(s: Whole, window: nat, out: nat, attempts: seq<Attempt>, now: nat)
    requires Inv(s, window) && attempts == s.relay.attempts && now == s.relay.now + window + 1
    ensures !Duplicate(Stored(attempts, window), Attempt(Ours, out, now), window)
  {
    hide P.SystemInv, StreamOk, O.PassesOk, O.Exclusive, O.Accounted;
    StoredFrom(attempts, window);
    hide Stored;
  }

  lemma FreshMessage(s: Whole, window: nat)
    requires Inv(s, window)
    ensures |s.sys.inbox.delivered| == |s.sys.inbox.messages| && |s.sys.inbox.messages| !in s.sys.inbox.acked
  {
    hide SP.Inv, O.Inv, StreamOk, P.MessagesOk, P.CausesOk, N.CallsOk, N.StagesOk, N.LettersOk, N.RepliesOk, N.LastsOk;
  }

  lemma PublishNow(s: Whole, window: nat, w: nat, out: nat) returns (s': Whole)
    requires RP.Due(s.relay, w, out) && out in s.sys.w.t.outbox
    requires !Duplicate(Stored(s.relay.attempts, window), Attempt(Ours, out, s.relay.now), window)
    requires |s.sys.inbox.delivered| == |s.sys.inbox.messages| && |s.sys.inbox.messages| !in s.sys.inbox.acked
    ensures Leads(s, window, s') && s'.sys.w == s.sys.w
    ensures s'.sys.inbox.calls == s.sys.inbox.calls
    ensures s'.sys.inbox.messages == s.sys.inbox.messages + [P.MessageOf(s.sys.w.t.outbox[out].payload)]
    ensures CanCall(s'.sys.inbox, |s.sys.inbox.messages|)
  {
    hide Duplicate, Stored, Leads;
    var step := Replica(O.Publish(w, O.Acked));
    LeadsOne(s, window, step);
    s' := Move(s, window, step);
    assert s'.sys == P.After(s.sys, P.Relay(out));
  }

  /** So the mail of a pending row can still go out. */
  lemma RowCalls(s: Whole, window: nat, out: nat) returns (s': Whole)
    requires Inv(s, window) && out in s.sys.w.t.outbox && !s.sys.w.t.outbox[out].published
    ensures Leads(s, window, s') && s'.sys.w == s.sys.w
    ensures N.MailOf(P.MessageOf(s.sys.w.t.outbox[out].payload)).Some?
    ensures Called(s'.sys.inbox.calls, N.MailOf(P.MessageOf(s.sys.w.t.outbox[out].payload)).value)
    ensures forall c :: c in s.sys.inbox.calls ==> c in s'.sys.inbox.calls
  {
    hide Inv, Leads, Called, CanCall;
    var s1 := RowArrives(s, window, out);
    s' := MessageCalls(s1, window, |s.sys.inbox.messages|);
    LeadsOn(s, window, s1, s');
  }
}
