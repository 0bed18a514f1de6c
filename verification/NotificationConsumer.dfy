/**
 The notification consumer against a stream that redelivers. Deliveries of one message can overlap, a callback can
 die between any two of its effects, and acknowledgements and publishes can be lost. One effect is one event.
 */
module NotificationConsumer {
  import opened Prelude
  import opened SubscriptionTables

  const MaxDeliver := 5

  /** A message as `processMessage` sees it: subject and payload, or why there is no payload. */
  datatype Message =
    | ConfirmationMessage(sagaId: string, email: string, repoName: string, confirmToken: string)
    | VerificationMessage(email: string, verifyToken: string)
    | ReleaseMessage(email: string, unsubscribeToken: string, release: Release)
    | Unparsable
    | UnknownSubject

  /** What the mailer is asked to send. */
  datatype Mail =
    | ConfirmationMail(email: string, repoName: string, confirmToken: string)
    | VerificationMail(email: string, verifyToken: string)
    | ReleaseMail(email: string, unsubscribeToken: string, release: Release)

  datatype Outcome = Ack | Poison | Retry

  datatype Action = DoAck | DoNak | DoDeadLetter

  /** The n-th delivery of the message with stream sequence `seqNo`. */
  datatype Delivery = Delivery(seqNo: nat, num: nat)

  /** A call of the mailer; `refusal` is its error. */
  datatype Call = Call(d: Delivery, mail: Mail, refusal: Option<string>)

  datatype Letter = Letter(d: Delivery, message: Message, reason: string)

  /** A saga reply; `failure` is the reason an EmailFailed carries, and None makes it an EmailSent. */
  datatype Reply = Reply(d: Delivery, sagaId: string, failure: Option<string>)

  /** Where a delivery callback stands. */
  datatype Stage =
    | Arrived
    | Acking(sagaId: string)
    | Burying(reason: string, sagaId: string)
    | AckingBuried(reason: string, sagaId: string)
    | Replying(sagaId: string, failure: Option<string>)

  datatype Inbox = Inbox(
    messages: seq<Message>,
    delivered: seq<nat>,            // deliveries of each message so far
    acked: set<nat>,
    callbacks: map<Delivery, Stage>,
    calls: seq<Call>,
    letters: seq<Letter>,
    replies: seq<Reply>,
    lost: set<Delivery>)            // deliveries cut short, or whose dead letter was refused; nothing reads it

  const Empty := Inbox([], [], {}, map[], [], [], [], {})

  datatype PublishResult = Published | AckLost | Refused

  datatype Event =
    | Append(m: Message)
    | Deliver(seqNo: nat)
    | Handle(d: Delivery, refusal: Option<string>)
    | AckMessage(d: Delivery, arrives: bool)
    | Bury(d: Delivery, result: PublishResult)
    | SendReply(d: Delivery, accepted: bool)
    | Crash(d: Delivery)

  function MailOf(m: Message): Option<Mail> {
    match m
    case ConfirmationMessage(_, email, repoName, token) => Some(ConfirmationMail(email, repoName, token))
    case VerificationMessage(email, token) => Some(VerificationMail(email, token))
    case ReleaseMessage(email, token, release) => Some(ReleaseMail(email, token, release))
    case _ => None
  }

  function SagaOf(m: Message): string {
    if m.ConfirmationMessage? then m.sagaId else ""
  }

  /** What `processMessage` returns, given what the mailer says when it is called. */
  function Process(m: Message, refusal: Option<string>): (Outcome, string, string) {
    match m
    case Unparsable => (Poison, "unmarshalable", "")
    case UnknownSubject => (Ack, "", "")
    case _ =>
      match refusal
      case None => (Ack, "", SagaOf(m))
      case Some(error) => (Retry, error, SagaOf(m))
  }

  function DecideAction(outcome: Outcome, numDelivered: nat): Action {
    match outcome
    case Ack => DoAck
    case Poison => DoDeadLetter
    case Retry => if numDelivered >= MaxDeliver then DoDeadLetter else DoNak
  }

  function Done(s: Inbox, d: Delivery): Inbox {
    s.(callbacks := s.callbacks - {d})
  }

  function At(s: Inbox, d: Delivery, stage: Stage): Inbox {
    s.(callbacks := s.callbacks[d := stage])
  }

  /** A reply is sent only for a message that names a saga. */
  function ThenReply(s: Inbox, d: Delivery, sagaId: string, failure: Option<string>): Inbox {
    if sagaId != "" then At(s, d, Replying(sagaId, failure)) else Done(s, d)
  }

  predicate Enabled(s: Inbox, e: Event) {
    match e
    case Append(_) => true
    case Deliver(q) => q < |s.messages| && q < |s.delivered| && q !in s.acked && s.delivered[q] < MaxDeliver
    case Handle(d, _) => d in s.callbacks && s.callbacks[d].Arrived? && d.seqNo < |s.messages|
    case AckMessage(d, _) => d in s.callbacks && (s.callbacks[d].Acking? || s.callbacks[d].AckingBuried?)
    case Bury(d, _) => d in s.callbacks && s.callbacks[d].Burying? && d.seqNo < |s.messages|
    case SendReply(d, _) => d in s.callbacks && s.callbacks[d].Replying?
    case Crash(d) => d in s.callbacks
  }

  /** After `processMessage`: the mailer's record, and the branch the callback takes. */
  function HandleEffect(s: Inbox, d: Delivery, refusal: Option<string>): Inbox
    requires Enabled(s, Handle(d, refusal))
  {
    var m := s.messages[d.seqNo];
    var (outcome, reason, sagaId) := Process(m, refusal);
    var s1 := if MailOf(m).Some? then s.(calls := s.calls + [Call(d, MailOf(m).value, refusal)]) else s;
    match DecideAction(outcome, d.num)
    case DoAck => At(s1, d, Acking(sagaId))
    case DoDeadLetter => At(s1, d, Burying(reason, sagaId))
    case DoNak => Done(s1, d)
  }

  function AckEffect(s: Inbox, d: Delivery, arrives: bool): Inbox
    requires Enabled(s, AckMessage(d, arrives))
  {
    var s1 := if arrives then s.(acked := s.acked + {d.seqNo}) else s;
    match s.callbacks[d]
    case Acking(sagaId) => ThenReply(s1, d, sagaId, None)
    case AckingBuried(reason, sagaId) => ThenReply(s1, d, sagaId, Some(reason))
  }

  /** `toDLQ` acknowledges only after the dead letter was acknowledged; the EmailFailed goes out either way. */
  function BuryEffect(s: Inbox, d: Delivery, result: PublishResult): Inbox
    requires Enabled(s, Bury(d, result))
  {
    var stage := s.callbacks[d];
    var s1 := if result == Refused then s.(lost := s.lost + {d})
              else s.(letters := s.letters + [Letter(d, s.messages[d.seqNo], stage.reason)]);
    if result == Published then At(s1, d, AckingBuried(stage.reason, stage.sagaId))
    else ThenReply(s1, d, stage.sagaId, Some(stage.reason))
  }

  function Effect(s: Inbox, e: Event): Inbox
    requires Enabled(s, e)
  {
    match e
    case Append(m) => s.(messages := s.messages + [m], delivered := s.delivered + [0])
    case Deliver(q) =>
      At(s.(delivered := s.delivered[q := s.delivered[q] + 1]), Delivery(q, s.delivered[q] + 1), Arrived)
    case Handle(d, refusal) => HandleEffect(s, d, refusal)
    case AckMessage(d, arrives) => AckEffect(s, d, arrives)
    case Bury(d, result) => BuryEffect(s, d, result)
    case SendReply(d, accepted) =>
      var stage := s.callbacks[d];
      var s1 := if accepted then s.(replies := s.replies + [Reply(d, stage.sagaId, stage.failure)]) else s;
      Done(s1, d)
    case Crash(d) => Done(s.(lost := s.lost + {d}), d)
  }

  function Next(s: Inbox, e: Event): Inbox {
    if Enabled(s, e) then Effect(s, e) else s
  }

  function Run(s: Inbox, es: seq<Event>): Inbox
    decreases |es|
  {
    if es == [] then s else Run(Next(s, es[0]), es[1..])
  }

  // -- The invariant

  /** This delivery's mail went out. */
  ghost predicate Mailed(s: Inbox, d: Delivery) {
    && d.seqNo < |s.messages| && MailOf(s.messages[d.seqNo]).Some?
    && Call(d, MailOf(s.messages[d.seqNo]).value, None) in s.calls
  }

  /** This delivery's mail was refused, and it was the last delivery the broker makes. */
  ghost predicate RefusedLast(s: Inbox, d: Delivery, reason: string) {
    && d.seqNo < |s.messages| && d.num >= MaxDeliver && MailOf(s.messages[d.seqNo]).Some?
    && Call(d, MailOf(s.messages[d.seqNo]).value, Some(reason)) in s.calls
  }

  ghost predicate MayAck(s: Inbox, d: Delivery) {
    d.seqNo < |s.messages| && (Mailed(s, d) || s.messages[d.seqNo].UnknownSubject?)
  }

  ghost predicate MayBury(s: Inbox, d: Delivery, reason: string) {
    d.seqNo < |s.messages| && (RefusedLast(s, d, reason) || s.messages[d.seqNo].Unparsable?)
  }

  ghost predicate Buried(s: Inbox, q: nat) {
    exists l :: l in s.letters && l.d.seqNo == q
  }

  /** A reply tells the truth about the delivery it is sent for. */
  ghost predicate MayReply(s: Inbox, d: Delivery, sagaId: string, failure: Option<string>) {
    && d.seqNo < |s.messages| && sagaId != "" && SagaOf(s.messages[d.seqNo]) == sagaId
    && (match failure case None => Mailed(s, d) case Some(reason) => RefusedLast(s, d, reason))
  }

  ghost predicate StageOk(s: Inbox, d: Delivery, stage: Stage) {
    d.seqNo < |s.messages| &&
    match stage
    case Arrived => forall c :: c in s.calls ==> c.d != d
    case Acking(sagaId) => MayAck(s, d) && sagaId == SagaOf(s.messages[d.seqNo])
    case Burying(reason, sagaId) => MayBury(s, d, reason) && sagaId == SagaOf(s.messages[d.seqNo])
    case AckingBuried(reason, sagaId) =>
      MayBury(s, d, reason) && sagaId == SagaOf(s.messages[d.seqNo]) && Buried(s, d.seqNo)
    case Replying(sagaId, failure) => MayReply(s, d, sagaId, failure)
  }

  ghost predicate StagesOk(s: Inbox) {
    forall d :: d in s.callbacks ==> StageOk(s, d, s.callbacks[d])
  }

  /** A delivery has a number from 1 to the number of deliveries made, which is at most five. */
  ghost predicate Numbered(s: Inbox, d: Delivery) {
    d.seqNo < |s.delivered| && 1 <= d.num <= s.delivered[d.seqNo]
  }

  ghost predicate NumbersOk(s: Inbox) {
    && |s.delivered| == |s.messages|
    && (forall q :: 0 <= q < |s.delivered| ==> s.delivered[q] <= MaxDeliver)
    && (forall d :: d in s.callbacks ==> Numbered(s, d))
    && (forall c :: c in s.calls ==> Numbered(s, c.d))
  }

  /** The mailer is called once per delivery, with what the message says. */
  ghost predicate CallsOk(s: Inbox) {
    && (forall c :: c in s.calls ==> c.d.seqNo < |s.messages| && MailOf(s.messages[c.d.seqNo]) == Some(c.mail))
    && (forall i, j :: 0 <= i < j < |s.calls| ==> s.calls[i].d != s.calls[j].d)
  }

  /** Somebody was told: the mail went out, nobody knows the subject, or the dead letter was accepted. */
  ghost predicate Settled(s: Inbox, q: nat) {
    q < |s.messages| && (s.messages[q].UnknownSubject? || Buried(s, q) || exists d: Delivery :: d.seqNo == q && Mailed(s, d))
  }

  ghost predicate AckedOk(s: Inbox) {
    forall q :: q in s.acked ==> Settled(s, q)
  }

  ghost predicate LettersOk(s: Inbox) {
    forall l :: l in s.letters ==> MayBury(s, l.d, l.reason) && l.message == s.messages[l.d.seqNo]
  }

  ghost predicate RepliesOk(s: Inbox) {
    forall r :: r in s.replies ==> MayReply(s, r.d, r.sagaId, r.failure)
  }

  /** Before its reply: the message is still to be dealt with. */
  predicate Working(stage: Stage) {
    !stage.Replying?
  }

  /** The last delivery of a message is still at work, was lost, or settled it. */
  ghost predicate LastOk(s: Inbox, q: nat) {
    var d := Delivery(q, MaxDeliver);
    (d in s.callbacks && Working(s.callbacks[d])) || d in s.lost || Settled(s, q)
  }

  ghost predicate LastsOk(s: Inbox) {
    forall q :: 0 <= q < |s.delivered| && s.delivered[q] == MaxDeliver ==> LastOk(s, q)
  }

  ghost predicate PartsOk(s: Inbox) {
    NumbersOk(s) && CallsOk(s) && StagesOk(s) && AckedOk(s) && LettersOk(s) && RepliesOk(s)
  }

  ghost predicate Inv(s: Inbox) {
    PartsOk(s) && LastsOk(s)
  }

  lemma EmptyInv()
    ensures Inv(Empty)
  {
  }

  /** Nothing that was sent or said is ever taken back. */
  ghost predicate Grows(s: Inbox, s': Inbox) {
    && s.messages <= s'.messages
    && (forall c :: c in s.calls ==> c in s'.calls)
    && (forall l :: l in s.letters ==> l in s'.letters)
  }

  /** So what justified an acknowledgement, a letter or a reply justifies it later. */
  lemma GrowsKeeps(s: Inbox, s': Inbox, d: Delivery)
    requires Grows(s, s')
    ensures Mailed(s, d) ==> Mailed(s', d)
    ensures MayAck(s, d) ==> MayAck(s', d)
    ensures Buried(s, d.seqNo) ==> Buried(s', d.seqNo)
    ensures forall reason :: RefusedLast(s, d, reason) ==> RefusedLast(s', d, reason)
    ensures forall reason :: MayBury(s, d, reason) ==> MayBury(s', d, reason)
    ensures forall sagaId, failure :: MayReply(s, d, sagaId, failure) ==> MayReply(s', d, sagaId, failure)
  {
  }

  lemma GrowsKeepsStage(s: Inbox, s': Inbox, d: Delivery, stage: Stage)
    requires Grows(s, s') && StageOk(s, d, stage)
    requires forall c :: c in s'.calls && c !in s.calls ==> c.d != d
    ensures StageOk(s', d, stage)
  {
    GrowsKeeps(s, s', d);
    hide Mailed, RefusedLast, MayAck, MayBury, MayReply, Buried;
  }

  /** An event of one callback leaves what the others stand for; its own new facts are for the caller to show. */
  lemma OthersKeep(s: Inbox, s': Inbox, d: Delivery)
    requires StagesOk(s) && AckedOk(s) && LettersOk(s) && RepliesOk(s) && Grows(s, s')
    requires forall x :: x in s'.callbacks && x != d ==> x in s.callbacks && s'.callbacks[x] == s.callbacks[x]
    requires forall c :: c in s'.calls && c !in s.calls ==> c.d == d
    requires d in s'.callbacks ==> StageOk(s', d, s'.callbacks[d])
    requires forall q :: q in s'.acked && q !in s.acked ==> Settled(s', q)
    requires forall l :: l in s'.letters && l !in s.letters ==>
      MayBury(s', l.d, l.reason) && l.message == s'.messages[l.d.seqNo]
    requires forall r :: r in s'.replies && r !in s.replies ==> MayReply(s', r.d, r.sagaId, r.failure)
    ensures StagesOk(s') && AckedOk(s') && LettersOk(s') && RepliesOk(s')
  {
    hide StageOk, Mailed, RefusedLast, MayAck, MayReply, Buried, Settled;
    forall x | x in s'.callbacks ensures StageOk(s', x, s'.callbacks[x]) {
      if x != d {
        GrowsKeepsStage(s, s', x, s.callbacks[x]);
      }
    }
    forall q | q in s'.acked ensures Settled(s', q) {
      if q in s.acked {
        GrowsKeepsSettled(s, s', q);
      }
    }
    forall l | l in s'.letters ensures MayBury(s', l.d, l.reason) && l.message == s'.messages[l.d.seqNo] {
      if l in s.letters {
        GrowsKeeps(s, s', l.d);
      }
    }
    forall r | r in s'.replies ensures MayReply(s', r.d, r.sagaId, r.failure) {
      if r in s.replies {
        GrowsKeeps(s, s', r.d);
      }
    }
  }

  lemma GrowsKeepsSettled(s: Inbox, s': Inbox, q: nat)
    requires Grows(s, s') && Settled(s, q)
    ensures Settled(s', q)
  {
    GrowsKeeps(s, s', Delivery(q, 1));
    if d: Delivery :| d.seqNo == q && Mailed(s, d) {
      GrowsKeeps(s, s', d);
    }
  }

  /** An event of the callback `d` leaves the other last deliveries as they are. */
  lemma LastsFrame(s: Inbox, s': Inbox, d: Delivery)
    requires LastsOk(s) && Grows(s, s') && s.lost <= s'.lost && s'.delivered == s.delivered
    requires forall x :: x in s.callbacks && x != d ==> x in s'.callbacks && s'.callbacks[x] == s.callbacks[x]
    requires d.num == MaxDeliver && LastOk(s, d.seqNo) ==> LastOk(s', d.seqNo)
    ensures LastsOk(s')
  {
    hide Settled, Grows;
    forall q | 0 <= q < |s.delivered| && s.delivered[q] == MaxDeliver ensures LastOk(s', q) {
      assert LastOk(s, q);
      if Settled(s, q) {
        GrowsKeepsSettled(s, s', q);
      }
    }
  }

  /** The last delivery never ends without the message settled, unless it is lost on the way. */
  lemma LastsKeep(s: Inbox, e: Event)
    requires Inv(s) && Enabled(s, e)
    ensures LastsOk(Effect(s, e))
  {
    var s' := Effect(s, e);
    hide NumbersOk, CallsOk, AckedOk, LettersOk, RepliesOk;
    match e {
      case Append(m) => LastsAppend(s, m);
      case Deliver(q) => LastsDeliver(s, q);
      case Handle(d, refusal) =>
        HandleStage(s, d, refusal);
        hide Settled;
        LastsFrame(s, s', d);
      case AckMessage(d, arrives) => LastsAck(s, d, arrives);
      case Bury(d, result) => LastsBury(s, d, result);
      case SendReply(d, accepted) =>
        LastsFrame(s, s', d);
      case Crash(d) =>
        LastsFrame(s, s', d);
    }
  }

  lemma LastsAppend(s: Inbox, m: Message)
    requires LastsOk(s)
    ensures LastsOk(Effect(s, Append(m)))
  {
    var s' := Effect(s, Append(m));
    hide Settled;
    forall q | 0 <= q < |s'.delivered| && s'.delivered[q] == MaxDeliver ensures LastOk(s', q) {
      assert LastOk(s, q);
      if Settled(s, q) {
        GrowsKeepsSettled(s, s', q);
      }
    }
  }

  lemma LastsDeliver(s: Inbox, q: nat)
    requires LastsOk(s) && Enabled(s, Deliver(q))
    ensures LastsOk(Effect(s, Deliver(q)))
  {
    var s' := Effect(s, Deliver(q));
    hide Settled;
    forall p | 0 <= p < |s'.delivered| && s'.delivered[p] == MaxDeliver ensures LastOk(s', p) {
      if p != q {
        assert LastOk(s, p);
        if Settled(s, p) {
          GrowsKeepsSettled(s, s', p);
        }
      }
    }
  }

  lemma LastsAck(s: Inbox, d: Delivery, arrives: bool)
    requires LastsOk(s) && StagesOk(s) && Enabled(s, AckMessage(d, arrives))
    ensures LastsOk(Effect(s, AckMessage(d, arrives)))
  {
    var s' := Effect(s, AckMessage(d, arrives));
    assert StageOk(s, d, s.callbacks[d]);
    assert Settled(s, d.seqNo);
    hide Settled, StageOk;
    GrowsKeepsSettled(s, s', d.seqNo);
    LastsFrame(s, s', d);
  }

  lemma LastsBury(s: Inbox, d: Delivery, result: PublishResult)
    requires LastsOk(s) && StagesOk(s) && Enabled(s, Bury(d, result))
    ensures LastsOk(Effect(s, Bury(d, result)))
  {
    var s' := Effect(s, Bury(d, result));
    assert StageOk(s, d, s.callbacks[d]);
    if result != Refused {
      assert Letter(d, s.messages[d.seqNo], s.callbacks[d].reason) in s'.letters;
      assert Buried(s', d.seqNo) && Settled(s', d.seqNo);
    }
    hide Settled, StageOk, Buried;
    LastsFrame(s, s', d);
  }

  lemma AppendKeeps(s: Inbox, m: Message)
    requires PartsOk(s)
    ensures PartsOk(Effect(s, Append(m)))
  {
    var (s', any) := (Effect(s, Append(m)), Delivery(0, 0));
    hide StageOk, Settled, MayBury, MayReply;
    OthersKeep(s, s', any);
  }

  lemma DeliverKeeps(s: Inbox, q: nat)
    requires PartsOk(s) && Enabled(s, Deliver(q))
    ensures PartsOk(Effect(s, Deliver(q)))
  {
    var (s', d) := (Effect(s, Deliver(q)), Delivery(q, s.delivered[q] + 1));
    hide Settled, MayBury, MayReply, Mailed;
    assert forall c :: c in s.calls ==> Numbered(s, c.d);
    assert StageOk(s', d, Arrived);
    DeliverNumbers(s, q);
    hide StageOk, NumbersOk;
    OthersKeep(s, s', d);
  }

  lemma DeliverNumbers(s: Inbox, q: nat)
    requires NumbersOk(s) && CallsOk(s) && Enabled(s, Deliver(q))
    ensures NumbersOk(Effect(s, Deliver(q))) && CallsOk(Effect(s, Deliver(q)))
  {
  }

  lemma HandleKeeps(s: Inbox, d: Delivery, refusal: Option<string>)
    requires PartsOk(s) && Enabled(s, Handle(d, refusal))
    ensures PartsOk(Effect(s, Handle(d, refusal)))
  {
    var s' := Effect(s, Handle(d, refusal));
    hide Settled, MayReply;
    assert StageOk(s, d, Arrived) && Numbered(s, d);
    HandleStage(s, d, refusal);
    HandleCalls(s, d, refusal);
    hide StageOk, MayBury, MayAck, Mailed, RefusedLast;
    OthersKeep(s, s', d);
  }

  lemma HandleStage(s: Inbox, d: Delivery, refusal: Option<string>)
    requires Enabled(s, Handle(d, refusal))
    ensures var s' := Effect(s, Handle(d, refusal));
      && Grows(s, s') && (d in s'.callbacks ==> StageOk(s', d, s'.callbacks[d]))
      && s' == s.(calls := s'.calls, callbacks := s'.callbacks)
      && (forall x :: x in s'.callbacks && x != d ==> x in s.callbacks && s'.callbacks[x] == s.callbacks[x])
  {
    var (s', m) := (Effect(s, Handle(d, refusal)), s.messages[d.seqNo]);
    if MailOf(m).Some? {
      assert s'.calls == s.calls + [Call(d, MailOf(m).value, refusal)];
      assert Call(d, MailOf(m).value, refusal) in s'.calls;
    }
  }

  lemma HandleCalls(s: Inbox, d: Delivery, refusal: Option<string>)
    requires Enabled(s, Handle(d, refusal)) && NumbersOk(s) && CallsOk(s) && Numbered(s, d)
    requires forall c :: c in s.calls ==> c.d != d
    ensures var s' := Effect(s, Handle(d, refusal));
      && NumbersOk(s') && CallsOk(s') && (forall c :: c in s'.calls && c !in s.calls ==> c.d == d)
  {
    var (s', m) := (Effect(s, Handle(d, refusal)), s.messages[d.seqNo]);
    hide DecideAction, Process;
    if MailOf(m).Some? {
      var c := Call(d, MailOf(m).value, refusal);
      assert s'.calls == s.calls + [c];
      forall i, j | 0 <= i < j < |s'.calls| ensures s'.calls[i].d != s'.calls[j].d {
        assert i < |s.calls| && s.calls[i] in s.calls;
      }
    } else {
      assert s'.calls == s.calls;
    }
  }

  lemma AckKeeps(s: Inbox, d: Delivery, arrives: bool)
    requires PartsOk(s) && Enabled(s, AckMessage(d, arrives))
    ensures PartsOk(Effect(s, AckMessage(d, arrives)))
  {
    var s' := Effect(s, AckMessage(d, arrives));
    hide AckedOk, LettersOk, RepliesOk;
    AckStage(s, d, arrives);
    hide StageOk, Settled, MayReply, AckEffect;
    OthersKeep(s, s', d);
  }

  lemma AckStage(s: Inbox, d: Delivery, arrives: bool)
    requires Enabled(s, AckMessage(d, arrives)) && StageOk(s, d, s.callbacks[d])
    ensures var s' := Effect(s, AckMessage(d, arrives));
      && s' == s.(acked := s'.acked, callbacks := s'.callbacks)
      && (forall x :: x in s'.callbacks ==> x in s.callbacks && (x != d ==> s'.callbacks[x] == s.callbacks[x]))
      && (forall q :: q in s'.acked && q !in s.acked ==> Settled(s', q))
      && (d in s'.callbacks ==> StageOk(s', d, s'.callbacks[d]))
  {
    var s' := Effect(s, AckMessage(d, arrives));
    GrowsKeeps(s, s', d);
    hide Mailed, RefusedLast, Buried;
    assert Mailed(s', d) ==> Settled(s', d.seqNo);
  }

  lemma BuryKeeps(s: Inbox, d: Delivery, result: PublishResult)
    requires PartsOk(s) && Enabled(s, Bury(d, result))
    ensures PartsOk(Effect(s, Bury(d, result)))
  {
    var s' := Effect(s, Bury(d, result));
    hide AckedOk, LettersOk, RepliesOk;
    BuryStage(s, d, result);
    hide StageOk, Settled, MayReply, MayBury, BuryEffect;
    OthersKeep(s, s', d);
  }

  lemma BuryStage(s: Inbox, d: Delivery, result: PublishResult)
    requires Enabled(s, Bury(d, result)) && StageOk(s, d, s.callbacks[d])
    ensures var s' := Effect(s, Bury(d, result));
      && s' == s.(letters := s'.letters, callbacks := s'.callbacks, lost := s'.lost) && Grows(s, s')
      && (forall x :: x in s'.callbacks ==> x in s.callbacks && (x != d ==> s'.callbacks[x] == s.callbacks[x]))
      && (forall l :: l in s'.letters && l !in s.letters ==>
            MayBury(s', l.d, l.reason) && l.message == s'.messages[l.d.seqNo])
      && (d in s'.callbacks ==> StageOk(s', d, s'.callbacks[d]))
  {
    var (s', stage) := (Effect(s, Bury(d, result)), s.callbacks[d]);
    var l := Letter(d, s.messages[d.seqNo], stage.reason);
    GrowsKeeps(s, s', d);
    if result != Refused {
      assert l in s'.letters;
    }
  }

  lemma SendReplyKeeps(s: Inbox, d: Delivery, accepted: bool)
    requires PartsOk(s) && Enabled(s, SendReply(d, accepted))
    ensures PartsOk(Effect(s, SendReply(d, accepted)))
  {
    var s' := Effect(s, SendReply(d, accepted));
    assert StageOk(s, d, s.callbacks[d]);
    GrowsKeeps(s, s', d);
    hide StageOk, Settled, MayReply, MayBury;
    OthersKeep(s, s', d);
  }

  lemma CrashKeeps(s: Inbox, d: Delivery)
    requires PartsOk(s)
    ensures PartsOk(Done(s.(lost := s.lost + {d}), d))
  {
    hide StageOk, Settled, MayReply, MayBury;
    OthersKeep(s, Done(s.(lost := s.lost + {d}), d), d);
  }

  lemma EventKeepsInv(s: Inbox, e: Event)
    requires Inv(s)
    ensures Inv(Next(s, e))
  {
    hide PartsOk, LastsOk;
    if Enabled(s, e) {
      LastsKeep(s, e);
      EventKeepsParts(s, e);
    }
  }

  lemma EventKeepsParts(s: Inbox, e: Event)
    requires PartsOk(s) && Enabled(s, e)
    ensures PartsOk(Effect(s, e))
  {
    hide PartsOk;
    match e
    case Append(m) => AppendKeeps(s, m);
    case Deliver(q) => DeliverKeeps(s, q);
    case Handle(d, refusal) => HandleKeeps(s, d, refusal);
    case AckMessage(d, arrives) => AckKeeps(s, d, arrives);
    case Bury(d, result) => BuryKeeps(s, d, result);
    case SendReply(d, accepted) => SendReplyKeeps(s, d, accepted);
    case Crash(d) => CrashKeeps(s, d);
  }

  lemma {:induction false} RunKeepsInv(s: Inbox, es: seq<Event>)
    requires Inv(s)
    ensures Inv(Run(s, es))
    decreases |es|
  {
    hide Inv;
    if es != [] {
      EventKeepsInv(s, es[0]);
      RunKeepsInv(Next(s, es[0]), es[1..]);
    }
  }

  ghost predicate Reachable(s: Inbox) {
    exists es :: s == Run(Empty, es)
  }

  lemma ReachableInv(s: Inbox)
    requires Reachable(s)
    ensures Inv(s)
  {
    var es :| s == Run(Empty, es);
    EmptyInv();
    RunKeepsInv(Empty, es);
  }

  // -- What the consumer promises

  /** How often the mailer was called for a message. */
  function CallsFor(calls: seq<Call>, q: nat): nat
    decreases |calls|
  {
    if calls == [] then 0
    else CallsFor(calls[..|calls| - 1], q) + (if calls[|calls| - 1].d.seqNo == q then 1 else 0)
  }

  /** The delivery numbers of those calls. */
  function NumsFor(calls: seq<Call>, q: nat): set<nat> {
    set c | c in calls && c.d.seqNo == q :: c.d.num
  }

  lemma {:induction false} CallsAreNums(calls: seq<Call>, q: nat)
    requires forall i, j :: 0 <= i < j < |calls| ==> calls[i].d != calls[j].d
    ensures CallsFor(calls, q) == |NumsFor(calls, q)|
    decreases |calls|
  {
    if calls != [] {
      var (before, c) := (calls[..|calls| - 1], calls[|calls| - 1]);
      CallsAreNums(before, q);
      assert calls == before + [c];
      if c.d.seqNo == q {
        assert NumsFor(calls, q) == NumsFor(before, q) + {c.d.num};
        assert c.d.num !in NumsFor(before, q);
      } else {
        assert NumsFor(calls, q) == NumsFor(before, q);
      }
    }
  }

  function UpTo(n: nat): (r: set<nat>)
    ensures |r| == n && forall i :: i in r <==> 1 <= i <= n
  {
    if n == 0 then {} else UpTo(n - 1) + {n}
  }

  lemma SubsetSize(a: set<nat>, b: set<nat>)
    requires a <= b
    ensures |a| <= |b|
  {
    assert b == a + (b - a);
  }

  /** The mailer is called at most five times for a message, once per delivery, always with what the message says. */
  lemma MailerBound(s: Inbox, q: nat)
    requires Reachable(s) && q < |s.messages|
    ensures q < |s.delivered| && CallsFor(s.calls, q) <= s.delivered[q] <= 5
    ensures forall c :: c in s.calls && c.d.seqNo == q ==> MailOf(s.messages[q]) == Some(c.mail)
  {
    ReachableInv(s);
    CallsBounded(s, q);
  }

  lemma CallsBounded(s: Inbox, q: nat)
    requires Inv(s) && q < |s.messages|
    ensures q < |s.delivered| && CallsFor(s.calls, q) <= s.delivered[q] <= 5
    ensures forall c :: c in s.calls && c.d.seqNo == q ==> MailOf(s.messages[q]) == Some(c.mail)
  {
    hide StagesOk, AckedOk, LettersOk, RepliesOk;
    var upTo := UpTo(s.delivered[q]);
    CallsAreNums(s.calls, q);
    assert forall c :: c in s.calls && c.d.seqNo == q ==> Numbered(s, c.d);
    assert NumsFor(s.calls, q) <= upTo;
    SubsetSize(NumsFor(s.calls, q), upTo);
  }

  /**
   A message leaves the stream only when its mail was accepted, its subject is unknown, or its dead letter was
   accepted.
   */
  lemma AckedMeansSettled(s: Inbox, q: nat)
    requires Reachable(s) && q in s.acked
    ensures q < |s.messages|
    ensures || s.messages[q].UnknownSubject?
            || (exists c :: c in s.calls && c.d.seqNo == q && c.refusal == None && MailOf(s.messages[q]) == Some(c.mail))
            || (exists l :: l in s.letters && l.d.seqNo == q && l.message == s.messages[q])
  {
    ReachableInv(s);
    hide Reachable, Settled;
    SettledMeans(s, q);
  }

  /**
   A message that can be mailed is dead-lettered only at the fifth delivery, after the mailer refused it there;
   one that cannot be parsed is dead-lettered without a call. The letter carries the message and the refusal.
   */
  lemma DeadLettersAreEarned(s: Inbox, l: Letter)
    requires Reachable(s) && l in s.letters
    ensures l.d.seqNo < |s.messages| && l.message == s.messages[l.d.seqNo]
    ensures l.message.Unparsable? || l.d.num == 5
    ensures !l.message.Unparsable? ==>
      MailOf(l.message).Some? && Call(l.d, MailOf(l.message).value, Some(l.reason)) in s.calls
    ensures l.message.Unparsable? ==> CallsFor(s.calls, l.d.seqNo) == 0
  {
    ReachableInv(s);
    hide StagesOk, AckedOk, RepliesOk;
    assert MayBury(s, l.d, l.reason);
    if l.message.Unparsable? {
      NoMailNoCalls(s.calls, s.messages, l.d.seqNo);
    } else {
      assert Numbered(s, l.d) by {
        assert Call(l.d, MailOf(l.message).value, Some(l.reason)) in s.calls;
      }
    }
  }

  lemma {:induction false} NoMailNoCalls(calls: seq<Call>, messages: seq<Message>, q: nat)
    requires forall c :: c in calls ==> c.d.seqNo < |messages| && MailOf(messages[c.d.seqNo]) == Some(c.mail)
    requires q < |messages| && MailOf(messages[q]) == None
    ensures CallsFor(calls, q) == 0
    decreases |calls|
  {
    if calls != [] {
      assert calls[|calls| - 1] in calls;
      NoMailNoCalls(calls[..|calls| - 1], messages, q);
    }
  }

  /**
   The replies the saga acts on are true: EmailSent follows a mail the mailer accepted, EmailFailed a refusal of
   the fifth delivery, each of a message that carries that saga's id.
   */
  lemma RepliesAreTrue(s: Inbox, r: Reply)
    requires Reachable(s) && r in s.replies
    ensures r.d.seqNo < |s.messages| && s.messages[r.d.seqNo].ConfirmationMessage?
    ensures var m := s.messages[r.d.seqNo];
      && m.sagaId == r.sagaId
      && Call(r.d, ConfirmationMail(m.email, m.repoName, m.confirmToken), r.failure) in s.calls
      && (r.failure.Some? ==> r.d.num == 5)
  {
    ReachableInv(s);
    hide StagesOk, AckedOk, LettersOk, CallsOk;
    assert MayReply(s, r.d, r.sagaId, r.failure);
    if r.failure.Some? {
      assert Numbered(s, r.d) by {
        assert Call(r.d, MailOf(s.messages[r.d.seqNo]).value, r.failure) in s.calls;
      }
    }
  }

  /**
   No message is dropped silently: once the broker has made the last delivery of a message and nothing is working on
   that delivery any more, the message is settled, unless the delivery was cut short or its dead letter was refused.
   */
  lemma NothingLostSilently(s: Inbox, q: nat)
    requires Reachable(s) && q < |s.delivered| && s.delivered[q] == 5
    requires Delivery(q, 5) !in s.callbacks && Delivery(q, 5) !in s.lost
    ensures q < |s.messages|
    ensures || s.messages[q].UnknownSubject?
            || (exists c :: c in s.calls && c.d.seqNo == q && c.refusal == None && MailOf(s.messages[q]) == Some(c.mail))
            || (exists l :: l in s.letters && l.d.seqNo == q && l.message == s.messages[q])
  {
    ReachableInv(s);
    assert LastOk(s, q);
    SettledMeans(s, q);
  }

  lemma SettledMeans(s: Inbox, q: nat)
    requires Settled(s, q) && LettersOk(s)
    ensures q < |s.messages|
    ensures || s.messages[q].UnknownSubject?
            || (exists c :: c in s.calls && c.d.seqNo == q && c.refusal == None && MailOf(s.messages[q]) == Some(c.mail))
            || (exists l :: l in s.letters && l.d.seqNo == q && l.message == s.messages[q])
  {
  }
}
