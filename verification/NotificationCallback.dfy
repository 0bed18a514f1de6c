/** The delivery callback of the notification consumer, effect by effect, with everything else running in between. */
module NotificationCallback {
  import opened Prelude
  import opened NotificationConsumer

  predicate Touches(e: Event, d: Delivery) {
    match e
    case Append(_) => false
    case Deliver(_) => false
    case Handle(x, _) => x == d
    case AckMessage(x, _) => x == d
    case Bury(x, _) => x == d
    case SendReply(x, _) => x == d
    case Crash(x) => x == d
  }

  /** Everything but this delivery; the broker does not number two deliveries of a message alike. */
  predicate Foreign(es: seq<Event>, d: Delivery) {
    forall e :: e in es ==> !Touches(e, d)
  }

  function Own(es: seq<Event>, d: Delivery): seq<Event>
    decreases |es|
  {
    if es == [] then []
    else (if Touches(es[0], d) then [es[0]] else []) + Own(es[1..], d)
  }

  lemma {:induction false} Extend(s: Inbox, es: seq<Event>, fs: seq<Event>, d: Delivery)
    ensures Run(s, es + fs) == Run(Run(s, es), fs)
    ensures Own(es + fs, d) == Own(es, d) + Own(fs, d)
    decreases |es|
  {
    if es == [] {
      assert es + fs == fs;
    } else {
      assert (es + fs)[1..] == es[1..] + fs;
      Extend(Next(s, es[0]), es[1..], fs, d);
    }
  }

  lemma {:induction false} OwnForeign(es: seq<Event>, d: Delivery)
    requires Foreign(es, d)
    ensures Own(es, d) == []
    decreases |es|
  {
    if es != [] {
      assert es[0] in es;
      OwnForeign(es[1..], d);
    }
  }

  /** Steps of others followed by one of the callback's own. */
  lemma ForeignThenOwn(s0: Inbox, trace: seq<Event>, env: seq<Event>, e: Event, d: Delivery)
    requires Foreign(env, d) && Touches(e, d)
    ensures Run(s0, trace + env + [e]) == Next(Run(Run(s0, trace), env), e)
    ensures Own(trace + env + [e], d) == Own(trace, d) + [e]
  {
    hide Next;
    Extend(s0, trace, env, d);
    OwnForeign(env, d);
    Extend(s0, trace + env, [e], d);
    assert [e][1..] == [];
    assert Run(Run(s0, trace + env), [e]) == Next(Run(s0, trace + env), e);
  }

  /** A delivery in progress is left alone by everybody else. */
  lemma {:induction false} ForeignKeeps(s: Inbox, env: seq<Event>, d: Delivery)
    requires Inv(s) && Foreign(env, d) && d in s.callbacks
    ensures var s' := Run(s, env);
      Inv(s') && s.messages <= s'.messages && d in s'.callbacks && s'.callbacks[d] == s.callbacks[d]
    decreases |env|
  {
    hide Inv;
    if env != [] {
      assert env[0] in env;
      ForeignStepKeeps(s, env[0], d);
      EventKeepsInv(s, env[0]);
      ForeignKeeps(Next(s, env[0]), env[1..], d);
    }
  }

  lemma ForeignStepKeeps(s: Inbox, e: Event, d: Delivery)
    requires Inv(s) && !Touches(e, d) && d in s.callbacks
    ensures var s' := Next(s, e);
      s.messages <= s'.messages && d in s'.callbacks && s'.callbacks[d] == s.callbacks[d]
  {
    hide StagesOk, CallsOk, AckedOk, LettersOk, RepliesOk;
    assert Numbered(s, d);
  }

  /** The events of a callback that was not cut short, from what it learned on the way. */
  predicate Complete(own: seq<Event>, d: Delivery, m: Message) {
    && own != [] && own[0].Handle? && own[0].d == d
    && var (outcome, reason, sagaId) := Process(m, own[0].refusal);
      var replies := if sagaId != "" then 1 else 0;
      match DecideAction(outcome, d.num)
      case DoNak => |own| == 1
      case DoAck =>
        && |own| == 2 + replies && own[1].AckMessage? && own[1].d == d
        && (sagaId != "" ==> own[2].SendReply? && own[2].d == d)
      case DoDeadLetter =>
        && |own| >= 2 && own[1].Bury? && own[1].d == d
        && var acks := if own[1].result == Published then 1 else 0;
          && |own| == 2 + acks + replies
          && (own[1].result == Published ==> own[2].AckMessage? && own[2].d == d)
          && (sagaId != "" ==> own[2 + acks].SendReply? && own[2 + acks].d == d)
  }

  /** The consumer with the stream, the mailer and the streams it publishes to. */
  class Consumer {
    const calm: bool
    var messages: seq<Message>
    var acked: set<nat>
    var calls: seq<Call>
    var letters: seq<Letter>
    var replies: seq<Reply>
    ghost var delivered: seq<nat>
    ghost var callbacks: map<Delivery, Stage>
    ghost var lost: set<Delivery>

    ghost function S(): Inbox
      reads this
    {
      Inbox(messages, delivered, acked, callbacks, calls, letters, replies, lost)
    }

    ghost predicate Valid()
      reads this
    {
      Inv(S())
    }

    constructor (calm: bool)
      ensures Valid() && S() == Empty && this.calm == calm
    {
      this.calm := calm;
      messages, acked, calls, letters, replies := [], {}, [], [], [];
      delivered, callbacks, lost := [], map[], {};
      new;
      EmptyInv();
    }

    /** What is left of the callback once the message is dealt with: its reply, if the message names a saga. */
    ghost predicate AfterAction(d: Delivery, sagaId: string, failure: Option<string>)
      reads this
    {
      if sagaId != "" then d in callbacks && callbacks[d] == Replying(sagaId, failure) else d !in callbacks
    }

    /** Other deliveries, new messages and crashes of other callbacks. */
    method Yield(ghost d: Delivery) returns (ghost env: seq<Event>)
      requires Valid() && d in callbacks
      modifies this
      ensures Valid() && S() == Run(old(S()), env) && Foreign(env, d)
      ensures old(messages) <= messages && d in callbacks && callbacks[d] == old(callbacks)[d]
      ensures calm ==> env == [] && S() == old(S())
    {
      env := [];
      ForeignKeeps(S(), env, d);
    }

    method Fails() returns (fails: bool)
      ensures calm ==> !fails
    {
      var b := *;
      fails := b && !calm;
    }

    /** A call of the mailer, which records it whatever it answers. */
    method Send(d: Delivery, mail: Mail, answer: Option<string>) returns (refusal: Option<string>)
      modifies this`calls
      ensures calls == old(calls) + [Call(d, mail, answer)] && refusal == answer
    {
      calls := calls + [Call(d, mail, answer)];
      refusal := answer;
    }

    /** Sends the mail the message asks for and says how that went; `answer` is what the mailer says if it is called. */
    method ProcessMessage(d: Delivery, m: Message, answer: Option<string>)
      returns (outcome: Outcome, reason: string, sagaId: string)
      modifies this`calls
      ensures (outcome, reason, sagaId) == Process(m, answer)
      ensures calls == old(calls) + (if MailOf(m).Some? then [Call(d, MailOf(m).value, answer)] else [])
    {
      outcome, reason, sagaId := Ack, "", "";
      match m {
        case ConfirmationMessage(id, email, repoName, token) =>
          var err := Send(d, ConfirmationMail(email, repoName, token), answer);
          sagaId := id;
          if err.Some? {
            outcome, reason := Retry, err.value;
          }
        case VerificationMessage(email, token) =>
          var err := Send(d, VerificationMail(email, token), answer);
          if err.Some? {
            outcome, reason := Retry, err.value;
          }
        case ReleaseMessage(email, token, release) =>
          var err := Send(d, ReleaseMail(email, token, release), answer);
          if err.Some? {
            outcome, reason := Retry, err.value;
          }
        case Unparsable =>
          outcome, reason := Poison, "unmarshalable";
        case UnknownSubject =>
      }
    }

    /** msg.Ack; its error is only logged. */
    method AckNow(ghost d: Delivery, seqNo: nat) returns (ghost arrives: bool)
      requires Valid() && d in callbacks && (callbacks[d].Acking? || callbacks[d].AckingBuried?) && d.seqNo == seqNo
      modifies this`acked, this`callbacks
      ensures Valid() && S() == Next(old(S()), AckMessage(d, arrives))
      ensures AfterAction(d, old(callbacks)[d].sagaId,
        if old(callbacks)[d].Acking? then None else Some(old(callbacks)[d].reason))
      ensures calm ==> acked == old(acked) + {seqNo}
    {
      hide Inv;
      var lost := Fails();
      arrives := !lost;
      EventKeepsInv(S(), AckMessage(d, arrives));
      callbacks := AckEffect(S(), d, arrives).callbacks;
      if !lost {
        acked := acked + {seqNo};
      }
    }

    /** Publishes the dead letter; only an acknowledged one lets the message be acknowledged. */
    method PublishLetter(d: Delivery, m: Message, reason: string) returns (ok: bool, ghost result: PublishResult)
      requires Valid() && d in callbacks && callbacks[d].Burying? && callbacks[d].reason == reason
      requires d.seqNo < |messages| && messages[d.seqNo] == m
      modifies this`letters, this`callbacks, this`lost
      ensures Valid() && S() == Next(old(S()), Bury(d, result)) && (ok <==> result == Published)
      ensures ok ==> d in callbacks && callbacks[d] == AckingBuried(reason, old(callbacks)[d].sagaId)
      ensures !ok ==> AfterAction(d, old(callbacks)[d].sagaId, Some(reason))
      ensures calm ==> ok && letters == old(letters) + [Letter(d, m, reason)]
    {
      hide Inv;
      var refused := Fails();
      var ackLost := Fails();
      ok := !refused && !ackLost;
      result := if refused then Refused else if ackLost then AckLost else Published;
      EventKeepsInv(S(), Bury(d, result));
      ghost var s' := BuryEffect(S(), d, result);
      callbacks, lost := s'.callbacks, s'.lost;
      if !refused {
        letters := letters + [Letter(d, m, reason)];
      }
    }

    /** publishEmailSent and publishEmailFailed; an error is only logged. */
    method PublishReply(d: Delivery, sagaId: string, failure: Option<string>) returns (ghost accepted: bool)
      requires Valid() && d in callbacks && callbacks[d] == Replying(sagaId, failure)
      modifies this`replies, this`callbacks
      ensures Valid() && S() == Next(old(S()), SendReply(d, accepted)) && d !in callbacks
      ensures calm ==> replies == old(replies) + [Reply(d, sagaId, failure)]
    {
      hide Inv;
      var refused := Fails();
      accepted := !refused;
      EventKeepsInv(S(), SendReply(d, accepted));
      callbacks := callbacks - {d};
      if !refused {
        replies := replies + [Reply(d, sagaId, failure)];
      }
    }

    /** The callback up to its decision. */
    method Handle(d: Delivery, answer: Option<string>) returns (action: Action, reason: string, sagaId: string, ghost e: Event)
      requires Valid() && d in callbacks && callbacks[d].Arrived? && d.seqNo < |messages|
      modifies this`calls, this`callbacks
      ensures Valid() && e == Event.Handle(d, answer) && Enabled(old(S()), e) && S() == Next(old(S()), e)
      ensures var (o, r, g) := Process(messages[d.seqNo], answer);
        action == DecideAction(o, d.num) && reason == r && sagaId == g
      ensures match action
        case DoAck => d in callbacks && callbacks[d] == Acking(sagaId)
        case DoDeadLetter => d in callbacks && callbacks[d] == Burying(reason, sagaId)
        case DoNak => d !in callbacks
      ensures calls == old(calls) + (
        var m := messages[d.seqNo]; if MailOf(m).Some? then [Call(d, MailOf(m).value, answer)] else [])
    {
      hide Inv;
      ghost var s0 := S();
      var outcome;
      outcome, reason, sagaId := ProcessMessage(d, messages[d.seqNo], answer);
      action := DecideAction(outcome, d.num);
      e := Event.Handle(d, answer);
      EventKeepsInv(s0, e);
      HandleStep(s0, d, answer);
      callbacks := HandleEffect(s0, d, answer).callbacks;
    }

    /** toDLQ: the message is acknowledged only once its dead letter is. */
    method ToDLQ(d: Delivery, m: Message, reason: string) returns (ghost trace: seq<Event>)
      requires Valid() && d in callbacks && callbacks[d].Burying? && callbacks[d].reason == reason
      requires d.seqNo < |messages| && messages[d.seqNo] == m
      modifies this
      ensures Valid() && S() == Run(old(S()), trace) && old(messages) <= messages
      ensures AfterAction(d, old(callbacks)[d].sagaId, Some(reason))
      ensures var own := Own(trace, d);
        && own != [] && own[0].Bury? && own[0].d == d
        && (if own[0].result == Published then |own| == 2 && own[1].AckMessage? && own[1].d == d else |own| == 1)
      ensures calm ==>
        && letters == old(letters) + [Letter(d, m, reason)] && acked == old(acked) + {d.seqNo}
        && calls == old(calls) && replies == old(replies) && messages == old(messages)
    {
      hide Inv, Run, Next, Own, Foreign;
      ghost var s0 := S();
      RunNothing(s0, d);
      ghost var env := Yield(d);
      var ok;
      ghost var result;
      ok, result := PublishLetter(d, m, reason);
      ForeignThenOwn(s0, [], env, Bury(d, result), d);
      trace := [] + env + [Bury(d, result)];
      if ok {
        env := Yield(d);
        ghost var arrives := AckNow(d, d.seqNo);
        ForeignThenOwn(s0, trace, env, AckMessage(d, arrives), d);
        trace := trace + env + [AckMessage(d, arrives)];
      }
    }

    /** The acknowledgement of a handled message. */
    method Settle(d: Delivery) returns (ghost trace: seq<Event>)
      requires Valid() && d in callbacks && callbacks[d].Acking?
      modifies this
      ensures Valid() && S() == Run(old(S()), trace) && old(messages) <= messages
      ensures AfterAction(d, old(callbacks)[d].sagaId, None)
      ensures var own := Own(trace, d); |own| == 1 && own[0].AckMessage? && own[0].d == d
      ensures calm ==>
        && acked == old(acked) + {d.seqNo} && letters == old(letters)
        && calls == old(calls) && replies == old(replies) && messages == old(messages)
    {
      hide Inv, Run, Next, Own, Foreign;
      ghost var s0 := S();
      RunNothing(s0, d);
      ghost var env := Yield(d);
      ghost var arrives := AckNow(d, d.seqNo);
      ForeignThenOwn(s0, [], env, AckMessage(d, arrives), d);
      trace := [] + env + [AckMessage(d, arrives)];
    }

    /** The reply, if the message names a saga. */
    method ReplyToSaga(d: Delivery, sagaId: string, failure: Option<string>) returns (ghost trace: seq<Event>)
      requires Valid() && AfterAction(d, sagaId, failure)
      modifies this
      ensures Valid() && S() == Run(old(S()), trace) && d !in callbacks && old(messages) <= messages
      ensures var own := Own(trace, d);
        if sagaId != "" then |own| == 1 && own[0].SendReply? && own[0].d == d else own == []
      ensures calm ==>
        && replies == old(replies) + (if sagaId != "" then [Reply(d, sagaId, failure)] else [])
        && calls == old(calls) && acked == old(acked) && letters == old(letters) && messages == old(messages)
    {
      hide Inv, Run, Next, Own, Foreign;
      ghost var s0 := S();
      RunNothing(s0, d);
      trace := [];
      if sagaId != "" {
        ghost var env := Yield(d);
        ghost var accepted := PublishReply(d, sagaId, failure);
        ForeignThenOwn(s0, [], env, SendReply(d, accepted), d);
        trace := [] + env + [SendReply(d, accepted)];
      }
    }

    /**
     The whole callback of one delivery: what it did is one complete sequence of events, whatever the others did
     meanwhile, and nothing is left of it. Metadata that cannot be read ends it before anything happens. `answer` is
     what the mailer says if it is called. Undisturbed, a delivery leaves what `Dealt` says.
     */
    method OnMessage(d: Delivery, answer: Option<string>) returns (ghost trace: seq<Event>)
      requires Valid() && d in callbacks && callbacks[d].Arrived? && d.seqNo < |messages|
      modifies this
      ensures Valid() && S() == Run(old(S()), trace) && d !in callbacks && old(messages) <= messages
      ensures Own(trace, d) == [Crash(d)] || Complete(Own(trace, d), d, messages[d.seqNo])
      ensures calm ==> Dealt(old(S()), S(), d, answer)
    {
      hide Inv, Run, Next, Own, Foreign, Complete, MailOf, Dealt;
      ghost var s0 := S();
      var unreadable := Fails();
      if unreadable {
        EventKeepsInv(s0, Crash(d));
        OneStep(s0, Crash(d), d);
        CrashStep(s0, d);
        callbacks, lost := callbacks - {d}, lost + {d};
        return [Crash(d)];
      }
      var m := messages[d.seqNo];
      var action, reason, sagaId;
      ghost var e;
      action, reason, sagaId, e := Handle(d, answer);
      OneStep(s0, e, d);
      ghost var s1, acting, replying := S(), [], [];
      match action {
        case DoDeadLetter =>
          acting := ToDLQ(d, m, reason);
          replying := ReplyToSaga(d, sagaId, Some(reason));
        case DoAck =>
          acting := Settle(d);
          replying := ReplyToSaga(d, sagaId, None);
        case DoNak =>
          RunNothing(s1, d);
      }
      trace := [e] + acting + replying;
      Extend(s0, [e], acting, d);
      Extend(s0, [e] + acting, replying, d);
      Joined(d, m, e, Own(acting, d), Own(replying, d));
      if calm {
        DealtWith(s0, S(), d, answer);
      }
    }
  }

  /** Whom a message is to be mailed to, and what. */
  predicate Asks(m: Message, mail: Mail) {
    match m
    case ConfirmationMessage(_, email, repoName, token) => mail == ConfirmationMail(email, repoName, token)
    case VerificationMessage(email, token) => mail == VerificationMail(email, token)
    case ReleaseMessage(email, token, release) => mail == ReleaseMail(email, token, release)
    case _ => false
  }

  /**
   What an undisturbed delivery leaves. A message nobody can read is buried and acknowledged at once, and one with an
   unknown subject just acknowledged; the others are mailed once. A mail that was accepted is acknowledged, one that
   was refused is buried and acknowledged if this was the fifth delivery, and otherwise left for the next. The saga of
   a confirmation hears of an accepted mail and of a buried one.
   */
  ghost predicate Dealt(s: Inbox, s': Inbox, d: Delivery, answer: Option<string>)
    requires d.seqNo < |s.messages|
  {
    var m := s.messages[d.seqNo];
    var reply := (failure: Option<string>) =>
      if m.ConfirmationMessage? && m.sagaId != "" then [Reply(d, m.sagaId, failure)] else [];
    && s'.messages == s.messages
    && match m
      case Unparsable =>
        && s'.calls == s.calls && s'.replies == s.replies && s'.acked == s.acked + {d.seqNo}
        && s'.letters == s.letters + [Letter(d, m, "unmarshalable")]
      case UnknownSubject =>
        && s'.calls == s.calls && s'.replies == s.replies && s'.letters == s.letters && s'.acked == s.acked + {d.seqNo}
      case _ =>
        && (exists mail :: Asks(m, mail) && s'.calls == s.calls + [Call(d, mail, answer)])
        && match answer
          case None =>
            && s'.acked == s.acked + {d.seqNo} && s'.letters == s.letters && s'.replies == s.replies + reply(None)
          case Some(refusal) =>
            if d.num >= 5 then
              && s'.acked == s.acked + {d.seqNo} && s'.letters == s.letters + [Letter(d, m, refusal)]
              && s'.replies == s.replies + reply(answer)
            else
              s'.acked == s.acked && s'.letters == s.letters && s'.replies == s.replies
  }

  lemma DealtWith(s: Inbox, s': Inbox, d: Delivery, answer: Option<string>)
    requires d.seqNo < |s.messages| && s'.messages == s.messages
    requires var m := s.messages[d.seqNo];
      var (outcome, reason, sagaId) := Process(m, answer);
      var reply := (failure: Option<string>) => if sagaId != "" then [Reply(d, sagaId, failure)] else [];
      && s'.calls == s.calls + (if MailOf(m).Some? then [Call(d, MailOf(m).value, answer)] else [])
      && match DecideAction(outcome, d.num)
        case DoNak => s'.acked == s.acked && s'.letters == s.letters && s'.replies == s.replies
        case DoAck => s'.acked == s.acked + {d.seqNo} && s'.letters == s.letters && s'.replies == s.replies + reply(None)
        case DoDeadLetter =>
          && s'.acked == s.acked + {d.seqNo} && s'.letters == s.letters + [Letter(d, m, reason)]
          && s'.replies == s.replies + reply(Some(reason))
    ensures Dealt(s, s', d, answer)
  {
    var m := s.messages[d.seqNo];
    if MailOf(m).Some? {
      assert Asks(m, MailOf(m).value);
    }
  }

  lemma RunNothing(s: Inbox, d: Delivery)
    ensures Run(s, []) == s && Own([], d) == []
  {
  }

  lemma OneStep(s: Inbox, e: Event, d: Delivery)
    requires Touches(e, d)
    ensures Run(s, [e]) == Next(s, e) && Own([e], d) == [e]
  {
    assert [e][1..] == [];
  }

  lemma HandleStep(s: Inbox, d: Delivery, refusal: Option<string>)
    requires Enabled(s, Handle(d, refusal))
    ensures var s' := Next(s, Handle(d, refusal));
      && s' == HandleEffect(s, d, refusal) && s' == s.(calls := s'.calls, callbacks := s'.callbacks)
      && s'.calls == s.calls + (
           var m := s.messages[d.seqNo]; if MailOf(m).Some? then [Call(d, MailOf(m).value, refusal)] else [])
  {
  }

  lemma CrashStep(s: Inbox, d: Delivery)
    requires d in s.callbacks
    ensures Next(s, Crash(d)) == Done(s, d).(lost := s.lost + {d})
  {
  }

  lemma Joined(d: Delivery, m: Message, e: Event, acting: seq<Event>, replying: seq<Event>)
    requires e.Handle? && e.d == d
    requires var (outcome, _, sagaId) := Process(m, e.refusal);
      match DecideAction(outcome, d.num)
      case DoNak => acting == [] && replying == []
      case DoAck =>
        && |acting| == 1 && acting[0].AckMessage? && acting[0].d == d
        && (if sagaId != "" then |replying| == 1 && replying[0].SendReply? && replying[0].d == d else replying == [])
      case DoDeadLetter =>
        && acting != [] && acting[0].Bury? && acting[0].d == d
        && (if acting[0].result == Published then |acting| == 2 && acting[1].AckMessage? && acting[1].d == d else |acting| == 1)
        && (if sagaId != "" then |replying| == 1 && replying[0].SendReply? && replying[0].d == d else replying == [])
    ensures Complete([e] + acting + replying, d, m)
  {
  }
}
