/**
 Runs from the initial state, with subscribers who act on their mails only, that reach the situations the service
 does not promise to avoid.
 */
module SagaWitnesses {
  import opened Prelude
  import opened SubscriptionTables
  import opened Broker
  import opened EndToEnd
  import opened Subscribers
  import opened MailedCompletion
  import SP = SagaProtocol
  import SF = SagaFrames
  import SC = SagaCompletion
  import SS = SagaSafety
  import SubscriptionFlows
  import N = NotificationConsumer
  import O = OutboxRelay
  import P = Pipeline

  const Alice := Sub("alice@example.org", 1, false, "c1", "u1")
  const Bob := Sub("bob@example.org", 1, false, "c2", "u2")
  const V1 := Release("v1", "First", "https://example.org/v1")

  const AliceRequest := ConfirmationRequested("s1", Alice.email, "owner/repo", "c1")
  const BobTask := SP.Ensured("owner/repo", 1)

  function Repository(tag: string): map<nat, Repo> {
    map[1 := Repo("owner/repo", tag)]
  }

  /** The service takes a step. */
  lemma Serve(s: Whole, window: nat, e: SP.Event) returns (s': Whole)
    requires Possible(s, window) && Allowed(s, Service(e))
    ensures Possible(s', window) && s'.sys == s.sys.(w := SP.Next(s.sys.w, e))
    ensures s'.relay == s.relay.(rows := RowsOf(s'.sys.w.t.outbox))
  {
    hide Leads, SP.Next, Allowed;
    s' := Serves(s, window, e);
    LeadsOn(Start, window, s, s');
  }

  /** Everything but handling replies, publishing, confirming and unsubscribing happens freely. */
  lemma FreelyAllowed(s: Whole, e: SP.Event)
    requires !e.EmailSent? && !e.EmailFailed? && !e.Publish? && !e.Confirm? && !e.UnsubscribeFind?
    ensures Allowed(s, Service(e))
  {
  }

  lemma UnsubscribeAllowed(s: Whole, sub: nat)
    requires sub in s.sys.w.t.subs && UnsubscribeMailed(s.sys.inbox.calls, s.sys.w.t.subs[sub].unsubscribeToken)
    ensures Allowed(s, Service(SP.UnsubscribeFind(sub)))
  {
  }

  /** Two subscribe requests for one repository, the first of which has created it. */
  lemma TwoRequests(window: nat) returns (s: Whole)
    ensures Possible(s, window) && s.relay == O.Init && s.sys.inbox == N.Empty
    ensures s.sys.w == SP.Init.(t := SP.EmptyTables.(repos := Repository("")), tasks := map[0 := BobTask, 1 := BobTask],
                                nextTask := 2, h := SP.EmptyHistory.(named := map[1 := "owner/repo"]))
  {
    LeadsNowhere(Start, window);
    hide Leads;
    var s1 := Serve(Start, window, SP.EnsureMiss("owner/repo"));
    assert s1.sys.w == SP.Init.(tasks := map[0 := SP.EnsureMissed("owner/repo")], nextTask := 1);
    var s2 := Serve(s1, window, SP.EnsureCreate(0, 1));
    assert s2.sys.w.t.repos == Repository("") && s2.sys.w.tasks == map[0 := BobTask];
    s := Serve(s2, window, SP.EnsureFind("owner/repo", 1));
    assert s.sys.w.tasks == map[0 := BobTask, 1 := BobTask];
    assert RowsOf(map[]) == map[];
  }

  lemma AliceSubscribed(window: nat) returns (s: Whole)
    ensures Possible(s, window) && s.relay == O.Init.(rows := map[1 := false]) && s.sys.inbox == N.Empty
    ensures var w := s.sys.w;
      && w.t == Tables(Repository(""), map[1 := Alice], map[1 := Saga("s1", 1, 1, Alice.email, Started, 0, None)],
                       map[1 := OutboxRow(AliceRequest, false)])
      && w.now == 0 && w.tasks == map[1 := BobTask] && w.nextTask == 2
      && w.h.created.Keys == {1} && w.h.named == map[1 := "owner/repo"] && w.h.confirmed == {}
  {
    var s0 := TwoRequests(window);
    var e := SP.Subscribe(0, "s1", Alice, 0, 1, 1, 1);
    assert SP.Enabled(s0.sys.w, e);
    hide Possible;
    s := Serve(s0, window, e);
    assert s.sys.w.tasks == map[1 := BobTask];
    assert RowsOf(s.sys.w.t.outbox) == map[1 := false];
  }

  /** A mail that was called carries its token. */
  lemma ConfirmTokenMailed(calls: seq<N.Call>, email: string, repoName: string, token: string)
    requires Called(calls, N.ConfirmationMail(email, repoName, token))
    ensures ConfirmMailed(calls, token)
  {
  }

  lemma UnsubscribeTokenMailed(calls: seq<N.Call>, email: string, token: string, release: Release)
    requires Called(calls, N.ReleaseMail(email, token, release))
    ensures UnsubscribeMailed(calls, token)
  {
  }

  /** The relay, the broker and the consumer bring a row's mail out. */
  lemma Mail(s: Whole, window: nat, out: nat) returns (s': Whole)
    requires Possible(s, window) && out in s.sys.w.t.outbox && !s.sys.w.t.outbox[out].published
    ensures Possible(s', window) && s'.sys.w == s.sys.w
    ensures N.MailOf(P.MessageOf(s.sys.w.t.outbox[out].payload)).Some?
    ensures Called(s'.sys.inbox.calls, N.MailOf(P.MessageOf(s.sys.w.t.outbox[out].payload)).value)
  {
    PossibleHappens(s, window);
    hide Leads, Inv, Happens;
    s' := RowCalls(s, window, out);
    LeadsOn(Start, window, s, s');
  }

  /** Alice confirms from her mail, and the second half of her confirmation is lost. */
  lemma AliceConfirmed(window: nat) returns (s: Whole)
    ensures Possible(s, window)
    ensures var w := s.sys.w;
      && w.t == Tables(Repository(""), map[1 := Alice.(confirmed := true)],
                       map[1 := Saga("s1", 1, 1, Alice.email, Started, 0, None)], map[1 := OutboxRow(AliceRequest, false)])
      && w.now == 0 && w.tasks == map[1 := BobTask] && w.nextTask == 3 && w.h.created.Keys == {1}
  {
    var s0 := AliceSubscribed(window);
    hide Possible, Called;
    var s1 := Mail(s0, window, 1);
    ConfirmTokenMailed(s1.sys.inbox.calls, Alice.email, "owner/repo", "c1");
    hide ConfirmMailed;
    var s2 := Serve(s1, window, SP.Confirm(1));
    assert s2.sys.w.t.subs == map[1 := Alice.(confirmed := true)];
    assert s2.sys.w.tasks == map[1 := BobTask, 2 := SP.ConfirmCommitted(1)];
    s := Serve(s2, window, SP.Drop(2));
    assert s.sys.w.tasks == map[1 := BobTask];
  }

  /** A release goes out to Alice, and with it her unsubscribe token. */
  lemma AliceHasRelease(window: nat) returns (s: Whole)
    ensures Possible(s, window) && UnsubscribeMailed(s.sys.inbox.calls, "u1")
    ensures var w := s.sys.w;
      && w.t.repos == Repository("v1") && w.t.subs == map[1 := Alice.(confirmed := true)]
      && w.t.sagas == map[1 := Saga("s1", 1, 1, Alice.email, Started, 0, None)] && w.t.outbox.Keys == {1, 2}
      && w.now == 0 && w.tasks == map[1 := BobTask] && w.nextTask == 4 && w.h.created.Keys == {1}
  {
    var s0 := AliceConfirmed(window);
    hide Possible, Called, UnsubscribeMailed, Allowed, SP.Next;
    FreelyAllowed(s0, SP.FanoutList(1, V1, [1]));
    var s1 := Serve(s0, window, SP.FanoutList(1, V1, [1]));
    Listed(s0.sys.w);
    FreelyAllowed(s1, SP.FanoutCommit(3, [2]));
    var s2 := Serve(s1, window, SP.FanoutCommit(3, [2]));
    Queued(s1.sys.w);
    QueuedRow(s1.sys.w);
    s := Mail(s2, window, 2);
    UnsubscribeTokenMailed(s.sys.inbox.calls, Alice.email, "u1", V1);
  }

  lemma Listed(w: SP.World)
    requires w.t.subs == map[1 := Alice.(confirmed := true)] && w.tasks == map[1 := BobTask] && w.nextTask == 3
    ensures SP.Enabled(w, SP.FanoutList(1, V1, [1]))
    ensures SP.Next(w, SP.FanoutList(1, V1, [1])) == w.(
      tasks := map[1 := BobTask, 3 := SP.FanoutListed(1, V1, [SP.Recipient(1, Alice.email, "u1")])], nextTask := 4)
  {
    assert [1][0] == 1;
    assert SP.ListsConfirmed(w.t, 1, [1]);
    var recs := seq(1, i requires 0 <= i < 1 => SP.RecipientOf(w.t, [1][i]));
    assert recs == [SP.Recipient(1, Alice.email, "u1")];
  }

  lemma Queued(w: SP.World)
    requires w.tasks == map[1 := BobTask, 3 := SP.FanoutListed(1, V1, [SP.Recipient(1, Alice.email, "u1")])]
    requires w.t.repos == Repository("") && w.t.outbox.Keys == {1}
    ensures var w' := SP.Next(w, SP.FanoutCommit(3, [2]));
      && w' == w.(t := w.t.(repos := Repository("v1"), outbox := w'.t.outbox), tasks := map[1 := BobTask], h := w'.h)
      && w'.h.created == w.h.created
  {
    CommitQueues(w);
    hide SP.Next;
    var w0 := SP.Finish(w, 3).(t := SetLastSeenTag(w.t, 1, "v1"));
    SF.QueueReleasesFrame(w0, [2], V1, w.tasks[3].recipients);
    hide SP.QueueReleases;
    assert w0.tasks == map[1 := BobTask] && w0.t.repos == Repository("v1");
  }

  lemma CommitQueues(w: SP.World)
    requires 3 in w.tasks && w.tasks[3] == SP.FanoutListed(1, V1, [SP.Recipient(1, Alice.email, "u1")])
    requires w.t.outbox.Keys == {1}
    ensures SP.Next(w, SP.FanoutCommit(3, [2])) ==
      SP.QueueReleases(SP.Finish(w, 3).(t := SetLastSeenTag(w.t, 1, "v1")), [2], V1, w.tasks[3].recipients)
  {
    hide SP.QueueReleases;
  }

  lemma QueuedRow(w: SP.World)
    requires w.tasks == map[1 := BobTask, 3 := SP.FanoutListed(1, V1, [SP.Recipient(1, Alice.email, "u1")])]
    requires w.t.outbox.Keys == {1}
    ensures var outbox' := SP.Next(w, SP.FanoutCommit(3, [2])).t.outbox;
      outbox'.Keys == {1, 2} && outbox'[2] == OutboxRow(ReleaseDetected(Alice.email, "u1", V1), false)
  {
    assert SP.Enabled(w, SP.FanoutCommit(3, [2]));
    SubscriptionFlows.FanoutQueuesOneRowEach(w, 3, [2], 0);
    hide SP.Next;
  }

  /**
   Stranded sagas exist: Alice's confirmation lost its second half, her deadline passes, the reaper crashes after its
   mark, and Alice unsubscribes by the link in her release mail.
   */
  lemma SomeSagaIsStranded(window: nat)
    ensures exists s, r :: Possible(s, window) && SC.Stranded(s.sys.w, r)
  {
    var s0 := AliceHasRelease(window);
    hide Possible, UnsubscribeMailed, SC.Stranded;
    TickWorld(s0.sys.w, 1);
    var s1 := Serve(s0, window, SP.Tick(1));
    hide SP.Next;
    var s5 := CrashesAndLeaves(s1, window);
    assert SC.Stranded(s5.sys.w, 1);
  }

  lemma CrashesAndLeaves(s: Whole, window: nat) returns (s': Whole)
    requires Possible(s, window) && UnsubscribeMailed(s.sys.inbox.calls, "u1")
    requires var w := s.sys.w;
      && w.t.subs == map[1 := Alice.(confirmed := true)]
      && w.t.sagas == map[1 := Saga("s1", 1, 1, Alice.email, Started, 0, None)]
      && w.now == 1 && w.tasks == map[1 := BobTask] && w.nextTask == 4
    ensures Possible(s', window) && SC.Stranded(s'.sys.w, 1)
  {
    hide Possible, UnsubscribeMailed, SC.Stranded, SS.Reachable;
    var (w, e1, e2) := (s.sys.w, SP.Reap([1]), SP.Drop(4));
    var (e3, e4) := (SP.UnsubscribeFind(1), SP.UnsubscribeDelete(5));
    WorldOf(s, window);
    InCrash(w);
    AfterCrash(w);
    hide SP.Run, SP.Next, Allowed;
    FreelyAllowed(s, e1);
    var s1 := Serve(s, window, e1);
    FreelyAllowed(s1, e2);
    var s2 := Serve(s1, window, e2);
    UnsubscribeAllowed(s2, 1);
    var s3 := Serve(s2, window, e3);
    FreelyAllowed(s3, e4);
    s' := Serve(s3, window, e4);
  }

  lemma AfterCrash(w: SP.World)
    requires Expired(w.t, w.now, 1) && w.tasks == map[1 := BobTask] && w.nextTask == 4
    ensures var (e1, e2, e3, e4) := (SP.Reap([1]), SP.Drop(4), SP.UnsubscribeFind(1), SP.UnsubscribeDelete(5));
      var w2 := SP.Next(SP.Next(w, e1), e2);
      w2.t.subs == w.t.subs && SP.Run(w, [e1, e2, e3, e4]) == SP.Next(SP.Next(w2, e3), e4)
  {
    SC.CrashState(w, 1);
    SC.RunFour(w, SP.Reap([1]), SP.Drop(4), SP.UnsubscribeFind(1), SP.UnsubscribeDelete(5));
    hide SP.Next, SP.Run;
  }

  lemma WorldOf(s: Whole, window: nat)
    requires Possible(s, window)
    ensures SS.Reachable(s.sys.w)
  {
    hide Inv, Happens, SS.Reachable;
    PossibleHappens(s, window);
  }

  lemma InCrash(w: SP.World)
    requires SS.Reachable(w) && Expired(w.t, w.now, 1) && w.nextTask == 4
    requires w.t.sagas[1].subId == 1 && 1 in w.t.subs && w.tasks == map[1 := BobTask]
    ensures SC.Stranded(SP.Run(w, [SP.Reap([1]), SP.Drop(4), SP.UnsubscribeFind(1), SP.UnsubscribeDelete(5)]), 1)
  {
    hide SS.Reachable, SP.Run, SC.Stranded;
    SC.CrashStrands(w, 1, []);
    var crash := [SP.Reap([1]), SP.Drop(4), SP.UnsubscribeFind(1), SP.UnsubscribeDelete(5)];
    assert crash + [] == crash;
  }

  /** Alice unsubscribes and the check of the cleanup is due, as is Bob's subscribe to the same repository. */
  lemma CleanupMeetsSubscribe(window: nat) returns (s: Whole)
    ensures Possible(s, window)
    ensures var w := s.sys.w;
      && w.t.repos == Repository("v1") && w.t.subs == map[] && w.t.outbox.Keys == {1, 2}
      && w.t.sagas == map[1 := Saga("s1", 1, 1, Alice.email, Started, 0, None)] && w.h.created.Keys == {1}
      && w.tasks == map[1 := BobTask, 4 := SP.CleanupCheck(1)] && w.nextTask == 5
  {
    var s0 := AliceHasRelease(window);
    hide Possible, Allowed, UnsubscribeMailed;
    UnsubscribeAllowed(s0, 1);
    var s1 := Serve(s0, window, SP.UnsubscribeFind(1));
    FreelyAllowed(s1, SP.UnsubscribeDelete(4));
    s := Serve(s1, window, SP.UnsubscribeDelete(4));
    Unsubscribed(s0.sys.w);
  }

  lemma Unsubscribed(w: SP.World)
    requires w.t.subs == map[1 := Alice.(confirmed := true)] && w.tasks == map[1 := BobTask] && w.nextTask == 4
    ensures var w' := SP.Next(SP.Next(w, SP.UnsubscribeFind(1)), SP.UnsubscribeDelete(4));
      w' == w.(t := w.t.(subs := map[]), tasks := map[1 := BobTask, 4 := SP.CleanupCheck(1)], nextTask := 5)
  {
    var w1 := SP.Next(w, SP.UnsubscribeFind(1));
    assert w1.t.subs[1].unsubscribeToken == w1.tasks[4].token;
  }

  const BobSubscribes := SP.Subscribe(1, "s2", Bob, 0, 2, 2, 3)

  /** Between check and delete Bob subscribes and gets his mail. */
  lemma BobHasMail(window: nat) returns (s: Whole)
    ensures Possible(s, window) && ConfirmMailed(s.sys.inbox.calls, "c2")
    ensures s.sys.w.t.subs == map[2 := Bob] && s.sys.w.tasks == map[4 := SP.CleanupDelete(1)] && s.sys.w.nextTask == 5
  {
    var s0 := CleanupMeetsSubscribe(window);
    hide Possible, Allowed, Called, ConfirmMailed;
    BobInBetween(s0.sys.w);
    hide SP.Next;
    FreelyAllowed(s0, SP.CleanupHasAny(4));
    var s1 := Serve(s0, window, SP.CleanupHasAny(4));
    FreelyAllowed(s1, BobSubscribes);
    var s2 := Serve(s1, window, BobSubscribes);
    s := Mail(s2, window, 3);
    ConfirmTokenMailed(s.sys.inbox.calls, Bob.email, "owner/repo", "c2");
  }

  lemma BobConfirmed(window: nat) returns (s: Whole)
    ensures Possible(s, window)
    ensures s.sys.w.t.subs == map[2 := Bob.(confirmed := true)] && 4 in s.sys.w.tasks && s.sys.w.tasks[4] == SP.CleanupDelete(1)
  {
    var s0 := BobHasMail(window);
    hide Possible, Allowed;
    ConfirmAllowed(s0, 2);
    hide ConfirmMailed;
    s := Serve(s0, window, SP.Confirm(2));
    ConfirmsSub(s0.sys.w, 2);
  }

  lemma ConfirmAllowed(s: Whole, sub: nat)
    requires sub in s.sys.w.t.subs && ConfirmMailed(s.sys.inbox.calls, s.sys.w.t.subs[sub].confirmToken)
    ensures Allowed(s, Service(SP.Confirm(sub)))
  {
  }

  lemma ConfirmsSub(w: SP.World, sub: nat)
    requires sub in w.t.subs && SP.TaskKeys(w.tasks, w.nextTask)
    ensures var w' := SP.Next(w, SP.Confirm(sub));
      && w'.t.subs == w.t.subs[sub := w.t.subs[sub].(confirmed := true)]
      && forall k :: k in w.tasks ==> k in w'.tasks && w'.tasks[k] == w.tasks[k]
  {
  }

  lemma BobInBetween(w: SP.World)
    requires w.t.repos == Repository("v1") && w.t.subs == map[] && w.t.outbox.Keys == {1, 2}
    requires w.t.sagas == map[1 := Saga("s1", 1, 1, Alice.email, Started, 0, None)] && w.h.created.Keys == {1}
    requires w.tasks == map[1 := BobTask, 4 := SP.CleanupCheck(1)] && w.nextTask == 5
    ensures var w' := SP.Next(SP.Next(w, SP.CleanupHasAny(4)), BobSubscribes);
      && w'.t.subs == map[2 := Bob] && w'.tasks == map[4 := SP.CleanupDelete(1)] && w'.nextTask == 5
      && 3 in w'.t.outbox && w'.t.outbox[3] == OutboxRow(ConfirmationRequested("s2", Bob.email, "owner/repo", "c2"), false)
  {
    var w1 := SP.Next(w, SP.CleanupHasAny(4));
    assert w1 == w.(tasks := map[1 := BobTask, 4 := SP.CleanupDelete(1)]);
    assert "s1"[1] == '1' && "s2"[1] == '2';
    assert SP.Enabled(w1, BobSubscribes);
    assert w1.tasks - {1} == map[4 := SP.CleanupDelete(1)];
  }

  /** The cleanup does remove a confirmed subscription. */
  lemma SomeConfirmedIsRemoved(window: nat)
    ensures exists s, s', k, sub ::
      && Possible(s, window) && sub in s.sys.w.t.subs && s.sys.w.t.subs[sub].confirmed
      && Possible(s', window) && s'.sys == s.sys.(w := SP.Next(s.sys.w, SP.CleanupDeleteRepo(k)))
      && sub !in s'.sys.w.t.subs
  {
    var s := BobConfirmed(window);
    hide Possible, Allowed;
    FreelyAllowed(s, SP.CleanupDeleteRepo(4));
    var s' := Serve(s, window, SP.CleanupDeleteRepo(4));
    assert 2 in s.sys.w.t.subs && 2 !in s'.sys.w.t.subs && 4 in s.sys.w.tasks;
  }

  // -- A live subscription whose token is out of reach

  /** Alice's row is published and marked; her message is in the stream. */
  lemma AlicePublished(window: nat) returns (s: Whole)
    ensures Possible(s, window)
    ensures var (w, inbox) := (s.sys.w, s.sys.inbox);
      && w.t.subs == map[1 := Alice] && w.t.sagas == map[1 := Saga("s1", 1, 1, Alice.email, Started, 0, None)]
      && w.t.outbox == map[1 := OutboxRow(AliceRequest, true)]
      && w.now == 0 && w.tasks == map[1 := BobTask] && w.nextTask == 2
      && inbox == N.Empty.(messages := [P.MessageOf(AliceRequest)], delivered := [0])
  {
    var s0 := AliceSubscribed(window);
    hide Leads;
    assert O.FirstAvailable(s0.relay, O.BatchSize, [1]) by {
      assert [1][0] == 1;
    }
    LeadsOne(s0, window, Replica(O.Fetch(0, [1])));
    var s1 := Move(s0, window, Replica(O.Fetch(0, [1])));
    LeadsOn(Start, window, s0, s1);
    assert s1 == s0.(relay := s0.relay.(passes := map[0 := O.Pass([1], 0, [], {})]));
    var s2 := PublishedRow(s1, window);
    s := CommittedRow(s2, window);
  }

  lemma PublishedRow(s: Whole, window: nat) returns (s': Whole)
    requires Possible(s, window) && s.relay == O.Init.(rows := map[1 := false], passes := map[0 := O.Pass([1], 0, [], {})])
    requires s.sys.inbox == N.Empty && s.sys.w.t.outbox == map[1 := OutboxRow(AliceRequest, false)]
    ensures Possible(s', window) && s'.sys.w == s.sys.w
    ensures s'.relay.passes == map[0 := O.Pass([1], 1, [1], {1})]
    ensures s'.sys.inbox == N.Empty.(messages := [P.MessageOf(AliceRequest)], delivered := [0])
  {
    hide Leads;
    LeadsOne(s, window, Replica(O.Publish(0, O.Acked)));
    s' := Move(s, window, Replica(O.Publish(0, O.Acked)));
    LeadsOn(Start, window, s, s');
    assert Stored([], window) == [] && [] + [1] == [1] && {} + {1} == {1};
    assert O.Progress(s.relay.passes[0], O.Acked) == O.Pass([1], 1, [1], {1});
    assert s'.sys == P.After(s.sys, P.Relay(1));
  }

  lemma CommittedRow(s: Whole, window: nat) returns (s': Whole)
    requires Possible(s, window) && s.relay.passes == map[0 := O.Pass([1], 1, [1], {1})]
    requires s.sys.w.t.outbox == map[1 := OutboxRow(AliceRequest, false)]
    ensures Possible(s', window) && s'.sys.inbox == s.sys.inbox
    ensures s'.sys.w == s.sys.w.(t := s.sys.w.t.(outbox := map[1 := OutboxRow(AliceRequest, true)]))
  {
    hide Leads;
    LeadsOne(s, window, Replica(O.Commit(0)));
    s' := Move(s, window, Replica(O.Commit(0)));
    LeadsOn(Start, window, s, s');
    assert O.ToSet([1]) == {1} by {
      assert [1][0] == 1;
    }
  }

  /** Every delivery crashes before it calls the mailer. */
  lemma {:induction false} AllCrash(s: Whole, window: nat, n: nat) returns (s': Whole)
    requires Possible(s, window) && n <= N.MaxDeliver && |s.sys.inbox.messages| == 1
    requires s.sys.inbox == N.Empty.(messages := s.sys.inbox.messages, delivered := [n], lost := s.sys.inbox.lost)
    ensures Possible(s', window) && s'.sys.w == s.sys.w
    ensures s'.sys.inbox == N.Empty.(messages := s.sys.inbox.messages, delivered := [N.MaxDeliver], lost := s'.sys.inbox.lost)
    decreases N.MaxDeliver - n
  {
    hide Leads;
    if n == N.MaxDeliver {
      s' := s;
    } else {
      var d := N.Delivery(0, n + 1);
      LeadsOne(s, window, Consume(N.Deliver(0)));
      var s1 := Move(s, window, Consume(N.Deliver(0)));
      LeadsOn(Start, window, s, s1);
      LeadsOne(s1, window, Consume(N.Crash(d)));
      var s2 := Move(s1, window, Consume(N.Crash(d)));
      LeadsOn(Start, window, s1, s2);
      assert s1.sys.inbox.callbacks == map[d := N.Arrived];
      assert s2.sys.inbox.callbacks == map[] && s2.sys.inbox.delivered == [n + 1];
      s' := AllCrash(s2, window, n + 1);
    }
  }

  /**
   A saga can be out of reach although its subscription exists: all five deliveries of Alice's mail crash, her
   deadline passes, and the reaper crashes after its mark.
   */
  lemma SomeLiveSagaIsStuck(window: nat)
    ensures exists s, r :: Possible(s, window) && Stuck(s, r) && s.sys.w.t.sagas[r].subId in s.sys.w.t.subs
  {
    var s0 := AlicePublished(window);
    hide Possible, Allowed;
    var s1 := AllCrash(s0, window, 0);
    FreelyAllowed(s1, SP.Tick(1));
    var s2 := Serve(s1, window, SP.Tick(1));
    TickWorld(s1.sys.w, 1);
    FreelyAllowed(s2, SP.Reap([1]));
    var s3 := Serve(s2, window, SP.Reap([1]));
    FreelyAllowed(s3, SP.Drop(2));
    var s := Serve(s3, window, SP.Drop(2));
    SC.CrashState(s2.sys.w, 1);
    hide SP.Next;
    assert Stuck(s, 1);
  }
}
