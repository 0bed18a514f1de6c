/**
 The pipeline with the relay and the broker as they are: a row of the outbox reaches the stream through a replica's
 publish, and only if the broker does not drop it as a duplicate. This bounds the mails of one row, and of one saga.
 */
module EndToEnd {
  import opened MessageIds
  import opened Broker
  import SP = SagaProtocol
  import SF = SagaFrames
  import SS = SagaSafety
  import N = NotificationConsumer
  import O = OutboxRelay
  import P = Pipeline

  const Ours := SubscriptionRelay

  datatype Whole = Whole(sys: P.System, relay: O.Relay)

  const Start := Whole(P.Start, O.Init)

  datatype Step =
    | Service(e: SP.Event)                    // the subscription service does anything but relay
    | Replica(r: O.Event)                     // a relay replica takes a step, or the broker's clock moves
    | Auth(number: int, m: N.Message)         // the auth relay publishes to the same stream
    | Consume(c: N.Event)
    | HandleReply(i: nat, row: nat)

  predicate Enabled(s: Whole, step: Step) {
    match step
    case Service(e) => !e.Publish? && P.Enabled(s.sys, P.Service(e))
    case Replica(r) => !r.Insert? && !r.PublishElsewhere? && O.Enabled(Ours, s.relay, r)
    case Auth(_, m) => P.Enabled(s.sys, P.Elsewhere(m))
    case Consume(c) => P.Enabled(s.sys, P.Consume(c))
    case HandleReply(i, row) => P.Enabled(s.sys, P.HandleReply(i, row))
  }

  /** The outbox as the relay sees it: every row, and whether it is marked. */
  function RowsOf(outbox: SP.Outbox): map<nat, bool> {
    map id | id in outbox :: outbox[id].published
  }

  /** The stream takes in a publish unless it is a duplicate. */
  function Store(sys: P.System, attempts: seq<Attempt>, a: Attempt, window: nat, arrival: P.Step): P.System {
    if Duplicate(Stored(attempts, window), a, window) then sys else P.After(sys, arrival)
  }

  function PublishEffect(s: Whole, window: nat, w: nat, outcome: O.Outcome): P.System
    requires O.Enabled(Ours, s.relay, O.Publish(w, outcome))
  {
    var id := s.relay.passes[w].ids[s.relay.passes[w].next];
    if outcome == O.Refused then s.sys
    else Store(s.sys, s.relay.attempts, Attempt(Ours, id, s.relay.now), window, P.Relay(id))
  }

  function Effect(s: Whole, window: nat, step: Step): Whole
    requires Enabled(s, step)
  {
    match step
    case Service(e) =>
      var sys' := P.After(s.sys, P.Service(e));
      Whole(sys', s.relay.(rows := RowsOf(sys'.w.t.outbox)))
    case Replica(r) =>
      var sys' := match r
        case Publish(w, outcome) => PublishEffect(s, window, w, outcome)
        case Commit(w) => P.After(s.sys, P.Service(SP.Publish(O.ToSet(s.relay.passes[w].acked))))
        case _ => s.sys;
      Whole(sys', O.Next(Ours, s.relay, r))
    case Auth(number, m) =>
      Whole(Store(s.sys, s.relay.attempts, Attempt(AuthRelay, number, s.relay.now), window, P.Elsewhere(m)),
            O.Next(Ours, s.relay, O.PublishElsewhere(AuthRelay, number)))
    case Consume(c) => s.(sys := P.After(s.sys, P.Consume(c)))
    case HandleReply(i, row) => s.(sys := P.After(s.sys, P.HandleReply(i, row)))
  }

  function After(s: Whole, window: nat, step: Step): Whole {
    if Enabled(s, step) then Effect(s, window, step) else s
  }

  function Steps(s: Whole, window: nat, steps: seq<Step>): Whole
    decreases |steps|
  {
    if steps == [] then s else Steps(After(s, window, steps[0]), window, steps[1..])
  }

  // -- The invariant that joins relay, stream and inbox

  /** A message of the stream is the row it was published from, or one of the auth service. */
  ghost predicate From(a: Attempt, m: N.Message, outbox: SP.Outbox) {
    if a.producer == Ours
    then a.number >= 0 && a.number as nat in outbox && m == P.MessageOf(outbox[a.number as nat].payload)
    else !m.ConfirmationMessage? && !m.ReleaseMessage?
  }

  ghost predicate StreamOk(messages: seq<N.Message>, attempts: seq<Attempt>, window: nat, outbox: SP.Outbox) {
    var stored := Stored(attempts, window);
    && |messages| == |stored|
    && forall q :: 0 <= q < |stored| ==> From(stored[q], messages[q], outbox)
  }

  ghost predicate Inv(s: Whole, window: nat) {
    && P.SystemInv(s.sys) && O.Inv(Ours, s.relay)
    && s.relay.rows == RowsOf(s.sys.w.t.outbox)
    && StreamOk(s.sys.inbox.messages, s.relay.attempts, window, s.sys.w.t.outbox)
  }

  /** Rows keep their payload. */
  ghost predicate Kept(outbox: SP.Outbox, outbox': SP.Outbox) {
    forall o :: o in outbox ==> o in outbox' && outbox'[o].payload == outbox[o].payload
  }

  lemma KeptStream(messages: seq<N.Message>, attempts: seq<Attempt>, window: nat, outbox: SP.Outbox, outbox': SP.Outbox)
    requires StreamOk(messages, attempts, window, outbox) && Kept(outbox, outbox')
    ensures StreamOk(messages, attempts, window, outbox')
  {
    hide Stored;
  }

  /** One more accepted publish: the inbox gets the message exactly if the broker keeps the publish. */
  lemma ArrivalKeeps(messages: seq<N.Message>, attempts: seq<Attempt>, window: nat, outbox: SP.Outbox, a: Attempt, m: N.Message)
    requires StreamOk(messages, attempts, window, outbox) && From(a, m, outbox)
    ensures var messages' := if Duplicate(Stored(attempts, window), a, window) then messages else messages + [m];
      StreamOk(messages', attempts + [a], window, outbox)
  {
    StoredSnoc(attempts, a, window);
    hide Stored, Duplicate, From;
  }

  /** New rows in the outbox, all pending. */
  lemma RowsGrow(s: O.Relay, rows': map<nat, bool>)
    requires O.Inv(Ours, s) && s.rows.Keys <= rows'.Keys
    requires forall id :: id in rows' ==> rows'[id] == (id in s.rows && s.rows[id])
    ensures O.Inv(Ours, s.(rows := rows'))
  {
    hide O.InFlight;
  }

  lemma ServiceKeeps(s: Whole, window: nat, e: SP.Event)
    requires Inv(s, window) && Enabled(s, Service(e))
    ensures Inv(Effect(s, window, Service(e)), window)
  {
    var sys' := P.After(s.sys, P.Service(e));
    hide P.SystemInv, O.Inv, StreamOk, SP.Next;
    P.StepKeeps(s.sys, P.Service(e));
    SF.OutboxUnder(s.sys.w, e);
    RowsGrow(s.relay, RowsOf(sys'.w.t.outbox));
    KeptStream(s.sys.inbox.messages, s.relay.attempts, window, s.sys.w.t.outbox, sys'.w.t.outbox);
  }

  lemma RowOfPass(relay: O.Relay, w: nat)
    requires O.Inv(Ours, relay) && w in relay.passes && relay.passes[w].next < |relay.passes[w].ids|
    ensures relay.passes[w].ids[relay.passes[w].next] in relay.rows
  {
    assert O.PassOk(relay.passes[w], relay.rows);
  }

  lemma Arrives(sys: P.System, arrival: P.Step, m: N.Message)
    requires P.Enabled(sys, arrival)
    requires arrival.Elsewhere? || arrival.Relay?
    requires m == if arrival.Elsewhere? then arrival.m else P.MessageOf(sys.w.t.outbox[arrival.out].payload)
    ensures P.After(sys, arrival).w == sys.w && P.After(sys, arrival).inbox.messages == sys.inbox.messages + [m]
  {
  }

  /** A publish the broker accepted, of whichever relay. */
  lemma StoreKeeps(s: Whole, window: nat, a: Attempt, arrival: P.Step, m: N.Message, relay': O.Relay)
    requires Inv(s, window) && P.Enabled(s.sys, arrival) && (arrival.Elsewhere? || arrival.Relay?)
    requires m == if arrival.Elsewhere? then arrival.m else P.MessageOf(s.sys.w.t.outbox[arrival.out].payload)
    requires From(a, m, s.sys.w.t.outbox)
    requires O.Inv(Ours, relay') && relay'.rows == s.relay.rows && relay'.attempts == s.relay.attempts + [a]
    ensures Inv(Whole(Store(s.sys, s.relay.attempts, a, window, arrival), relay'), window)
  {
    hide P.SystemInv, O.Inv, From, Stored, Duplicate;
    P.StepKeeps(s.sys, arrival);
    Arrives(s.sys, arrival, m);
    ArrivalKeeps(s.sys.inbox.messages, s.relay.attempts, window, s.sys.w.t.outbox, a, m);
    hide P.After, P.Enabled, StreamOk;
  }

  lemma PublishKeeps(s: Whole, window: nat, w: nat, outcome: O.Outcome)
    requires Inv(s, window) && O.Enabled(Ours, s.relay, O.Publish(w, outcome))
    ensures Inv(Effect(s, window, Replica(O.Publish(w, outcome))), window)
  {
    hide P.SystemInv, From, StreamOk, O.Inv, Store;
    var relay' := O.Next(Ours, s.relay, O.Publish(w, outcome));
    O.EventKeepsInv(Ours, s.relay, O.Publish(w, outcome));
    RowOfPass(s.relay, w);
    if outcome != O.Refused {
      var id := s.relay.passes[w].ids[s.relay.passes[w].next];
      FromRow(s.sys.w.t.outbox, id, s.relay.now);
      StoreKeeps(s, window, Attempt(Ours, id, s.relay.now), P.Relay(id), P.MessageOf(s.sys.w.t.outbox[id].payload), relay');
    }
  }

  lemma FromRow(outbox: SP.Outbox, id: nat, now: nat)
    requires id in outbox
    ensures From(Attempt(Ours, id, now), P.MessageOf(outbox[id].payload), outbox)
  {
  }

  lemma CommitKeeps(s: Whole, window: nat, w: nat)
    requires Inv(s, window) && O.Enabled(Ours, s.relay, O.Commit(w))
    ensures Inv(Effect(s, window, Replica(O.Commit(w))), window)
  {
    hide P.SystemInv, O.Inv, From, StreamOk;
    var ids := O.ToSet(s.relay.passes[w].acked);
    var arrival := P.Service(SP.Publish(ids));
    O.EventKeepsInv(Ours, s.relay, O.Commit(w));
    P.StepKeeps(s.sys, arrival);
    Marks(s.sys, ids);
    SF.OutboxUnder(s.sys.w, SP.Publish(ids));
    hide SP.Next;
    KeptStream(s.sys.inbox.messages, s.relay.attempts, window, s.sys.w.t.outbox, P.After(s.sys, arrival).w.t.outbox);
  }

  lemma Marks(sys: P.System, ids: set<nat>)
    ensures var sys' := P.After(sys, P.Service(SP.Publish(ids)));
      && sys'.inbox == sys.inbox
      && RowsOf(sys'.w.t.outbox) == O.MarkPublished(RowsOf(sys.w.t.outbox), ids)
  {
  }

  /** The steps of a replica that publish and mark nothing. */
  lemma IdleKeeps(s: Whole, window: nat, r: O.Event)
    requires Inv(s, window) && Enabled(s, Replica(r)) && (r.Fetch? || r.Abort? || r.Tick?)
    ensures Inv(Effect(s, window, Replica(r)), window)
  {
    hide P.SystemInv, O.Inv, StreamOk, RowsOf;
    O.EventKeepsInv(Ours, s.relay, r);
    var relay' := O.Next(Ours, s.relay, r);
    assert relay'.rows == s.relay.rows && relay'.attempts == s.relay.attempts;
    hide O.Next;
  }

  lemma AuthKeeps(s: Whole, window: nat, number: int, m: N.Message)
    requires Inv(s, window) && Enabled(s, Auth(number, m))
    ensures Inv(Effect(s, window, Auth(number, m)), window)
  {
    hide P.SystemInv, O.Inv, StreamOk;
    var e := O.PublishElsewhere(AuthRelay, number);
    O.EventKeepsInv(Ours, s.relay, e);
    StoreKeeps(s, window, Attempt(AuthRelay, number, s.relay.now), P.Elsewhere(m), m, O.Next(Ours, s.relay, e));
    hide Store;
  }

  lemma ConsumeKeeps(s: Whole, window: nat, c: N.Event)
    requires Inv(s, window) && Enabled(s, Consume(c))
    ensures Inv(Effect(s, window, Consume(c)), window)
  {
    hide P.SystemInv, O.Inv, StreamOk, N.Next;
    P.StepKeeps(s.sys, P.Consume(c));
    P.InboxGrows(s.sys.inbox, c);
  }

  lemma HandleReplyKeeps(s: Whole, window: nat, i: nat, row: nat)
    requires Inv(s, window) && Enabled(s, HandleReply(i, row))
    ensures Inv(Effect(s, window, HandleReply(i, row)), window)
  {
    hide P.SystemInv, O.Inv, StreamOk, SP.Next;
    P.StepKeeps(s.sys, P.HandleReply(i, row));
    SF.Unwritten(s.sys.w, P.ReplyEvent(s.sys.inbox.replies[i], row));
  }

  lemma StepKeeps(s: Whole, window: nat, step: Step)
    requires Inv(s, window)
    ensures Inv(After(s, window, step), window)
  {
    if Enabled(s, step) {
      hide Inv, Effect;
      match step
      case Service(e) => ServiceKeeps(s, window, e);
      case Replica(r) => ReplicaKeeps(s, window, r);
      case Auth(number, m) => AuthKeeps(s, window, number, m);
      case Consume(c) => ConsumeKeeps(s, window, c);
      case HandleReply(i, row) => HandleReplyKeeps(s, window, i, row);
    }
  }

  lemma ReplicaKeeps(s: Whole, window: nat, r: O.Event)
    requires Inv(s, window) && Enabled(s, Replica(r))
    ensures Inv(Effect(s, window, Replica(r)), window)
  {
    hide Inv, Effect;
    match r
    case Publish(w, outcome) => PublishKeeps(s, window, w, outcome);
    case Commit(w) => CommitKeeps(s, window, w);
    case _ => IdleKeeps(s, window, r);
  }

  lemma StartInv(window: nat)
    ensures Inv(Start, window)
  {
    SP.InitInv();
    N.EmptyInv();
    O.InitInv(Ours);
    hide SP.Inv, N.Inv, O.Inv;
    assert RowsOf(P.Start.w.t.outbox) == map[];
  }

  lemma {:induction false} StepsKeep(s: Whole, window: nat, steps: seq<Step>)
    requires Inv(s, window)
    ensures Inv(Steps(s, window, steps), window)
    decreases |steps|
  {
    hide Inv;
    if steps != [] {
      StepKeeps(s, window, steps[0]);
      StepsKeep(After(s, window, steps[0]), window, steps[1..]);
    }
  }

  ghost predicate Happens(s: Whole, window: nat) {
    exists steps :: s == Steps(Start, window, steps)
  }

  lemma HappensInv(s: Whole, window: nat)
    requires Happens(s, window)
    ensures Inv(s, window)
  {
    hide Inv;
    var steps :| s == Steps(Start, window, steps);
    StartInv(window);
    StepsKeep(Start, window, steps);
  }

  // -- This machine is a refinement of the pipeline

  /** What a step does to the services and the stream is one step of the pipeline, or none. */
  lemma StepIsPipelineStep(s: Whole, window: nat, step: Step) returns (steps: seq<P.Step>)
    ensures After(s, window, step).sys == P.Steps(s.sys, steps) && |steps| <= 1
  {
    hide P.Enabled, P.Effect;
    steps := [];
    if Enabled(s, step) {
      match step {
        case Service(e) => steps := [P.Service(e)];
        case Replica(Publish(w, outcome)) => steps := PublishStep(s, window, w, outcome);
        case Replica(Commit(w)) => steps := [P.Service(SP.Publish(O.ToSet(s.relay.passes[w].acked)))];
        case Replica(_) =>
        case Auth(number, m) =>
          steps := StoreStep(s.sys, s.relay.attempts, Attempt(AuthRelay, number, s.relay.now), window, P.Elsewhere(m));
        case Consume(c) => steps := [P.Consume(c)];
        case HandleReply(i, row) => steps := [P.HandleReply(i, row)];
      }
      if |steps| == 1 {
        OneStep(s.sys, steps[0]);
      }
    }
  }

  lemma OneStep(sys: P.System, step: P.Step)
    ensures P.Steps(sys, [step]) == P.After(sys, step)
  {
    assert [step][1..] == [];
  }

  lemma StoreStep(sys: P.System, attempts: seq<Attempt>, a: Attempt, window: nat, arrival: P.Step) returns (steps: seq<P.Step>)
    ensures Store(sys, attempts, a, window, arrival) == P.Steps(sys, steps)
    ensures steps == [] || steps == [arrival]
  {
    OneStep(sys, arrival);
    steps := if Duplicate(Stored(attempts, window), a, window) then [] else [arrival];
  }

  lemma PublishStep(s: Whole, window: nat, w: nat, outcome: O.Outcome) returns (steps: seq<P.Step>)
    requires O.Enabled(Ours, s.relay, O.Publish(w, outcome))
    ensures PublishEffect(s, window, w, outcome) == P.Steps(s.sys, steps) && |steps| <= 1
  {
    steps := [];
    if outcome != O.Refused {
      var id := s.relay.passes[w].ids[s.relay.passes[w].next];
      steps := StoreStep(s.sys, s.relay.attempts, Attempt(Ours, id, s.relay.now), window, P.Relay(id));
    }
  }

  lemma {:induction false} StepsArePipelineSteps(s: Whole, window: nat, steps: seq<Step>) returns (piped: seq<P.Step>)
    ensures Steps(s, window, steps).sys == P.Steps(s.sys, piped)
    decreases |steps|
  {
    hide After;
    piped := [];
    if steps != [] {
      var first := StepIsPipelineStep(s, window, steps[0]);
      var rest := StepsArePipelineSteps(After(s, window, steps[0]), window, steps[1..]);
      P.StepsAppend(s.sys, first, rest);
      piped := first + rest;
    }
  }

  /**
   So whatever the pipeline promises is promised here: sagas await only if their own mail was accepted, compensations
   start only late or after the fifth refusal, and every mail is for its owner. So is what the saga protocol promises.
   */
  lemma RefinesPipeline(s: Whole, window: nat)
    requires Happens(s, window)
    ensures P.Happens(s.sys) && SS.Reachable(s.sys.w)
  {
    var steps :| s == Steps(Start, window, steps);
    var piped := StepsArePipelineSteps(Start, window, steps);
    assert s.sys == P.Steps(P.Start, piped);
    P.HappensReachable(s.sys);
  }

  // -- How often the mailer is called for one row

  /** The calls of the mailer for messages stored from the outbox row `out`. */
  function CallsForRow(calls: seq<N.Call>, stored: seq<Attempt>, out: nat): nat
    decreases |calls|
  {
    if calls == [] then 0
    else
      var q := calls[|calls| - 1].d.seqNo;
      CallsForRow(calls[..|calls| - 1], stored, out) + (if q < |stored| && Is(stored[q], Ours, out) then 1 else 0)
  }

  /** The same calls, message by message. */
  function CallsByMessage(calls: seq<N.Call>, stored: seq<Attempt>, out: nat, n: nat): nat
    requires n <= |stored|
  {
    if n == 0 then 0
    else
      CallsByMessage(calls, stored, out, n - 1)
      + (if Is(stored[n - 1], Ours, out) then N.CallsFor(calls, n - 1) else 0)
  }

  lemma {:induction false} OneMoreCall(calls: seq<N.Call>, c: N.Call, stored: seq<Attempt>, out: nat, n: nat)
    requires n <= |stored|
    ensures CallsByMessage(calls + [c], stored, out, n) ==
      CallsByMessage(calls, stored, out, n) + (if c.d.seqNo < n && Is(stored[c.d.seqNo], Ours, out) then 1 else 0)
  {
    if n > 0 {
      OneMoreCall(calls, c, stored, out, n - 1);
      assert (calls + [c])[..|calls|] == calls;
    }
  }

  lemma {:induction false} NoCalls(stored: seq<Attempt>, out: nat, n: nat)
    requires n <= |stored|
    ensures CallsByMessage([], stored, out, n) == 0
  {
    if n > 0 {
      NoCalls(stored, out, n - 1);
    }
  }

  lemma {:induction false} CallsRegrouped(calls: seq<N.Call>, stored: seq<Attempt>, out: nat)
    ensures CallsForRow(calls, stored, out) == CallsByMessage(calls, stored, out, |stored|)
    decreases |calls|
  {
    if calls == [] {
      NoCalls(stored, out, |stored|);
    } else {
      var before := calls[..|calls| - 1];
      CallsRegrouped(before, stored, out);
      OneMoreCall(before, calls[|calls| - 1], stored, out, |stored|);
      assert calls == before + [calls[|calls| - 1]];
    }
  }

  lemma {:induction false} FiveEach(inbox: N.Inbox, stored: seq<Attempt>, out: nat, n: nat)
    requires N.Inv(inbox) && |stored| == |inbox.messages| && n <= |stored|
    ensures CallsByMessage(inbox.calls, stored, out, n) <= 5 * Count(stored[..n], Ours, out)
  {
    hide N.Inv, N.CallsFor;
    if n > 0 {
      FiveEach(inbox, stored, out, n - 1);
      N.CallsBounded(inbox, n - 1);
      CountSnoc(stored[..n - 1], stored[n - 1], Ours, out);
      assert stored[..n - 1] + [stored[n - 1]] == stored[..n];
    }
  }

  /** All publishes of the row fall into the duplicate window of the first. */
  ghost predicate OneWindow(attempts: seq<Attempt>, window: nat, out: nat) {
    Count(attempts, Ours, out) > 0 ==> AllWithin(attempts, Ours, out, FirstAt(attempts, Ours, out) + window)
  }

  /**
   From the outbox to the mailbox: whatever is lost, repeated or crashes, for one row of the outbox the mailer is
   called at most five times per copy in the stream, so at most 5 (1 + n) times with n the relay passes that got the
   row accepted and ended without marking it; and at most five times if all its publishes fall into one window.
   */
  lemma CallsPerRow(s: Whole, window: nat, out: nat)
    requires Happens(s, window) && out in s.sys.w.t.outbox
    ensures CallsForRow(s.sys.inbox.calls, Stored(s.relay.attempts, window), out)
      <= 5 * Copies(s.relay.attempts, window, Ours, out)
    ensures Copies(s.relay.attempts, window, Ours, out) <= 1 + s.relay.wasted[out]
    ensures CallsForRow(s.sys.inbox.calls, Stored(s.relay.attempts, window), out) <= 5 * (1 + s.relay.wasted[out])
    ensures Count(s.relay.attempts, Ours, out) > 0 ==>
      (Copies(s.relay.attempts, window, Ours, out) == 1 <==> OneWindow(s.relay.attempts, window, out))
    ensures OneWindow(s.relay.attempts, window, out) ==>
      CallsForRow(s.sys.inbox.calls, Stored(s.relay.attempts, window), out) <= 5
  {
    hide Inv, O.Inv, N.Inv, SP.Inv, Stored, Count, Copies, FirstAt, AllWithin, CallsForRow;
    HappensInv(s, window);
    hide Happens;
    JoinedFacts(s, window);
    FivePerCopy(s.sys.inbox, s.relay.attempts, window, out);
    O.CopiesAtMost(Ours, s.relay, window, out);
    if Count(s.relay.attempts, Ours, out) == 0 {
      NeverPublished(s.relay.attempts, window, out);
    }
  }

  lemma NeverPublished(attempts: seq<Attempt>, window: nat, out: nat)
    requires Count(attempts, Ours, out) == 0
    ensures Copies(attempts, window, Ours, out) == 0
  {
    CountZero(attempts, Ours, out);
    StoredFrom(attempts, window);
    CountZero(Stored(attempts, window), Ours, out);
  }

  lemma JoinedFacts(s: Whole, window: nat)
    requires Inv(s, window)
    ensures SP.Inv(s.sys.w) && N.Inv(s.sys.inbox) && O.Inv(Ours, s.relay)
    ensures |Stored(s.relay.attempts, window)| == |s.sys.inbox.messages|
    ensures s.relay.rows.Keys == s.sys.w.t.outbox.Keys
  {
    hide O.Inv, N.Inv, SP.Inv, Stored, From;
  }

  lemma FivePerCopy(inbox: N.Inbox, attempts: seq<Attempt>, window: nat, out: nat)
    requires N.Inv(inbox) && |Stored(attempts, window)| == |inbox.messages|
    ensures CallsForRow(inbox.calls, Stored(attempts, window), out) <= 5 * Copies(attempts, window, Ours, out)
  {
    hide N.Inv, Stored, Count;
    var stored := Stored(attempts, window);
    CallsRegrouped(inbox.calls, stored, out);
    FiveEach(inbox, stored, out, |stored|);
    assert stored[..|stored|] == stored;
  }

  // -- And for one saga

  /** The calls of the mailer for confirmation messages of the saga with this id. */
  function CallsForSaga(calls: seq<N.Call>, messages: seq<N.Message>, sagaId: string): nat
    decreases |calls|
  {
    if calls == [] then 0
    else
      var q := calls[|calls| - 1].d.seqNo;
      CallsForSaga(calls[..|calls| - 1], messages, sagaId)
      + (if q < |messages| && messages[q].ConfirmationMessage? && messages[q].sagaId == sagaId then 1 else 0)
  }

  /** A confirmation message of a saga was stored from that saga's own outbox row. */
  lemma SagaFromRequest(w: SP.World, a: Attempt, m: N.Message, r: nat)
    requires SP.Inv(w) && r in w.t.sagas && From(a, m, w.t.outbox)
    requires m.ConfirmationMessage? && m.sagaId == w.t.sagas[r].sagaId
    ensures r in w.h.request && w.h.request[r] in w.t.outbox && Is(a, Ours, w.h.request[r])
  {
    var out := a.number as nat;
    RequestOf(w, out, r);
  }

  lemma RequestOf(w: SP.World, out: nat, r: nat)
    requires SP.Inv(w) && r in w.t.sagas && out in w.t.outbox && w.t.outbox[out].payload.ConfirmationRequested?
    requires w.t.outbox[out].payload.sagaId == w.t.sagas[r].sagaId
    ensures r in w.h.request && w.h.request[r] == out
  {
    P.RequestRow(w.t.sagas, w.t.outbox, w.h, out);
    P.IdNamesRow(w, w.h.requestOf[out], r);
    RequestBack(w.t.sagas, w.t.outbox, w.h, out);
  }

  lemma RequestBack(sagas: SP.Sagas, outbox: SP.Outbox, h: SP.History, out: nat)
    requires SP.RequestOk(sagas, outbox, h.created, h.named, h.request, h.requestOf)
    requires out in outbox && outbox[out].payload.ConfirmationRequested?
    ensures out in h.requestOf && h.requestOf[out] in h.request && h.request[h.requestOf[out]] == out
  {
  }

  lemma {:induction false} SagaCallsAreRowCalls(calls: seq<N.Call>, messages: seq<N.Message>, stored: seq<Attempt>, sagaId: string, out: nat)
    requires |stored| == |messages|
    requires forall q :: 0 <= q < |messages| && messages[q].ConfirmationMessage? && messages[q].sagaId == sagaId ==>
      Is(stored[q], Ours, out)
    ensures CallsForSaga(calls, messages, sagaId) <= CallsForRow(calls, stored, out)
    decreases |calls|
  {
    hide Is;
    if calls != [] {
      SagaCallsAreRowCalls(calls[..|calls| - 1], messages, stored, sagaId, out);
    }
  }

  /**
   A saga's confirmation is mailed at most 5 (1 + n) times, with n the relay passes that got its outbox row accepted
   and ended without marking it; and at most five times if all publishes of that row fall into one window.
   */
  lemma CallsPerSaga(s: Whole, window: nat, r: nat)
    requires Happens(s, window) && r in s.sys.w.t.sagas
    ensures r in s.sys.w.h.request
    ensures CallsForSaga(s.sys.inbox.calls, s.sys.inbox.messages, s.sys.w.t.sagas[r].sagaId)
      <= 5 * (1 + s.relay.wasted[s.sys.w.h.request[r]])
    ensures OneWindow(s.relay.attempts, window, s.sys.w.h.request[r]) ==>
      CallsForSaga(s.sys.inbox.calls, s.sys.inbox.messages, s.sys.w.t.sagas[r].sagaId) <= 5
  {
    HappensInv(s, window);
    hide Happens, P.SystemInv, O.Inv, Stored, Count, Copies, OneWindow, From, CallsForRow, CallsForSaga, N.Inv, SP.Inv;
    JoinedFacts(s, window);
    RequestIn(s.sys.w, r);
    var (stored, out) := (Stored(s.relay.attempts, window), s.sys.w.h.request[r]);
    var (messages, sagaId) := (s.sys.inbox.messages, s.sys.w.t.sagas[r].sagaId);
    forall q | 0 <= q < |messages| && messages[q].ConfirmationMessage? && messages[q].sagaId == sagaId
      ensures Is(stored[q], Ours, out)
    {
      SagaFromRequest(s.sys.w, stored[q], messages[q], r);
    }
    SagaCallsAreRowCalls(s.sys.inbox.calls, messages, stored, sagaId, out);
    CallsPerRow(s, window, out);
  }

  lemma RequestIn(w: SP.World, r: nat)
    requires SP.Inv(w) && r in w.t.sagas
    ensures r in w.h.request && w.h.request[r] in w.t.outbox
  {
    RequestThere(w.t.sagas, w.t.outbox, w.h, r);
  }

  lemma RequestThere(sagas: SP.Sagas, outbox: SP.Outbox, h: SP.History, r: nat)
    requires SP.RequestOk(sagas, outbox, h.created, h.named, h.request, h.requestOf) && r in sagas
    ensures r in h.request && h.request[r] in outbox
  {
  }
}
