/**
 The reaper undisturbed: when nothing fails and nothing else runs, how many passes clear the expired sagas and
 what each of them ends as.
 */
module ReaperDrain {
  import opened Prelude
  import opened SubscriptionTables
  import opened SagaProtocol
  import opened SagaFrames
  import opened SagaSafety
  import opened SubscriptionFlows
  import Outcomes

  /** The orphan cleanup that is left of a compensation, if any, nothing in between. */
  function CleanupFully(w: World, k: nat): World {
    if k !in w.tasks then w
    else
      var w1 := Next(w, CleanupHasAny(k));
      if k !in w1.tasks then w1 else Next(w1, CleanupDeleteRepo(k))
  }

  /** One compensation with its orphan cleanup, nothing in between. */
  function CompensateFully(w: World, k: nat): World {
    CleanupFully(Next(w, Compensate(k)), k)
  }

  /** The second loop of a pass: the compensations `k`, `k + 1`, ... */
  function CompensateAll(w: World, k: nat, n: nat): World
    decreases n
  {
    if n == 0 then w else CompensateAll(CompensateFully(w, k), k + 1, n - 1)
  }

  function ReapPass(w: World, rows: seq<nat>): World {
    CompensateAll(Next(w, Reap(rows)), w.nextTask, |rows|)
  }

  /** What clearing `rows` means, row by row and subscription by subscription. */
  ghost predicate Reaped(w: World, w': World, rows: seq<nat>) {
    && w'.now == w.now && w'.t.sagas.Keys == w.t.sagas.Keys
    && (forall r :: r in w.t.sagas && r !in rows ==> w'.t.sagas[r] == w.t.sagas[r])
    && (forall r :: r in w.t.sagas && r in rows ==>
          w'.t.sagas[r] == w.t.sagas[r].(
            state := if Unconfirmed(w.t, w.t.sagas[r].subId) then Failed else Completed,
            lastError := if Unconfirmed(w.t, w.t.sagas[r].subId) then Some(DeadlineReason) else None))
    && (forall s :: s in w'.t.subs <==> s in w.t.subs && !DeletedFor(w, rows, s))
    && (forall s :: s in w'.t.subs ==> w'.t.subs[s] == w.t.subs[s])
    && w'.t.outbox == w.t.outbox && ReposLeft(w.t, w'.t)
  }

  /** The subscriptions of the repository went, the last of them too. */
  predicate Emptied(t: Tables, t': Tables, q: nat) {
    (exists s :: s in t.subs && s !in t'.subs && t.subs[s].repoId == q) && !exists s :: s in t'.subs && t'.subs[s].repoId == q
  }

  /** Exactly the repositories whose last subscription went are gone. */
  ghost predicate ReposLeft(t: Tables, t': Tables) {
    && (forall q :: q in t'.repos <==> q in t.repos && !Emptied(t, t', q))
    && (forall q :: q in t'.repos ==> t'.repos[q] == t.repos[q])
  }

  ghost predicate DeletedFor(w: World, rows: seq<nat>, s: nat) {
    Unconfirmed(w.t, s) && exists r :: r in rows && r in w.t.sagas && w.t.sagas[r].subId == s
  }

  /** Undisturbed, a compensation undoes the subscribe of its saga, and is done. */
  lemma CompensateFullySettles(w: World, k: nat)
    requires Inv(w) && k in w.tasks && w.tasks[k].Compensation?
    ensures var (w', c) := (CompensateFully(w, k), w.tasks[k]);
      Inv(w') && w'.now == w.now && w'.tasks == w.tasks - {k} && Outcomes.Undone(w.t, w'.t, c.row, c.reason)
  {
    var w1 := Next(w, Compensate(k));
    hide Inv, Outcomes.Undone;
    CompensatedTables(w, k);
    CompensateFullyKeepsInv(w, k);
    CompensateTables(w, k);
    hide Next;
    if k in w1.tasks {
      assert w1.tasks - {k} == w.tasks - {k};
      CleanupSettles(w1, k);
    }
  }

  lemma CompensateTables(w: World, k: nat)
    requires k in w.tasks && w.tasks[k].Compensation?
    ensures var (w', c) := (Next(w, Compensate(k)), w.tasks[k]);
      && w'.t == (if Unconfirmed(w.t, c.saga.subId)
                  then SetState(DeleteUnconfirmed(w.t, c.saga.subId), c.row, Failed, Some(c.reason))
                  else SetState(w.t, c.row, Completed, None))
      && w'.tasks == (if Unconfirmed(w.t, c.saga.subId) then w.tasks[k := CleanupCheck(c.saga.repoId)] else w.tasks - {k})
      && w'.now == w.now
  {
  }

  /** Undisturbed, a compensation undoes the subscribe of its saga. */
  lemma CompensatedTables(w: World, k: nat)
    requires Inv(w) && k in w.tasks && w.tasks[k].Compensation?
    ensures Outcomes.Undone(w.t, CompensateFully(w, k).t, w.tasks[k].row, w.tasks[k].reason)
  {
    var c := w.tasks[k];
    CompensateState(w, k);
    CompensationRepo(w, k);
    hide Inv;
    CompensateTables(w, k);
    var w1 := Next(w, Compensate(k));
    hide Next;
    if Unconfirmed(w.t, c.saga.subId) {
      CleanupTables(w1, k);
    }
  }

  lemma CompensationRepo(w: World, k: nat)
    requires Inv(w) && k in w.tasks && w.tasks[k].Compensation?
    ensures w.tasks[k].row in w.t.sagas && w.tasks[k].saga.repoId == w.t.sagas[w.tasks[k].row].repoId
  {
    hide SubsUnique, SubsRefer, SubsOk, CreatedOk, SagaIdsUnique, SagasOk, FailedOk, DeletedOk, CompletedOk, AwaitedOk,
      StartedOk, OtherTasksOk, QueuedOk, RequestOk, ReposOk;
    assert PendingOk(w.tasks[k], w.t.sagas, w.h.started, w.h.confirmed);
  }

  /** Undisturbed, a cleanup removes the repository exactly if no subscription refers to it, and nothing else. */
  lemma CleanupTables(w: World, k: nat)
    requires k in w.tasks && w.tasks[k].CleanupCheck?
    ensures var t' := CleanupFully(w, k).t; t' == w.t.(repos := t'.repos) && Outcomes.Tidied(w.t, t', w.tasks[k].repoId)
  {
    var w1 := Next(w, CleanupHasAny(k));
    if k in w1.tasks {
      assert DeleteRepo(w.t, w.tasks[k].repoId).subs == w.t.subs;
    }
  }

  lemma CompensateFullyKeepsInv(w: World, k: nat)
    requires Inv(w)
    ensures Inv(CompensateFully(w, k))
  {
    hide Inv, Next;
    EventKeepsInv(w, Compensate(k));
    EventKeepsInv(Next(w, Compensate(k)), CleanupHasAny(k));
    EventKeepsInv(Next(Next(w, Compensate(k)), CleanupHasAny(k)), CleanupDeleteRepo(k));
  }

  lemma CleanupSettles(w: World, k: nat)
    requires k in w.tasks && w.tasks[k].CleanupCheck?
    ensures var w2 := Next(w, CleanupHasAny(k));
      && (k !in w2.tasks ==> w2 == Finish(w, k))
      && (k in w2.tasks ==>
            var w3 := Next(w2, CleanupDeleteRepo(k));
            && w3.t.subs == w.t.subs && w3.t.sagas == w.t.sagas && w3.now == w.now && w3.tasks == w.tasks - {k})
  {
    var w2 := Next(w, CleanupHasAny(k));
    if k in w2.tasks {
      assert w2.tasks - {k} == w.tasks - {k};
      CleanupCascadesIff(w2, k);
    }
  }

  ghost predicate Queued(w: World, k: nat, rows: seq<nat>) {
    && (forall j :: k <= j < k + |rows| ==>
          j in w.tasks && w.tasks[j].Compensation? && w.tasks[j].row == rows[j - k] && w.tasks[j].reason == DeadlineReason)
    && (forall r :: r in rows ==> r in w.t.sagas)
  }

  lemma {:induction false} CompensateAllReaps(w: World, k: nat, rows: seq<nat>)
    requires Inv(w) && Distinct(rows) && Queued(w, k, rows)
    ensures Inv(CompensateAll(w, k, |rows|))
    ensures Reaped(w, CompensateAll(w, k, |rows|), rows)
    decreases |rows|
  {
    hide Inv, CompensateFully, Reaped;
    if rows == [] {
      NothingReaped(w);
    } else {
      var w1 := CompensateFully(w, k);
      assert rows[0] in rows && w.tasks[k].row == rows[0];
      CompensateFullySettles(w, k);
      SagaRepo(w, rows[0]);
      QueuedRest(w, w1, k, rows);
      CompensateAllReaps(w1, k + 1, rows[1..]);
      FirstReaped(w, w1, rows[0]);
      hide Outcomes.Undone;
      OtherSubscriptions(w);
      ReapedCompose(w, w1, CompensateAll(w1, k + 1, |rows| - 1), [rows[0]], rows[1..]);
      assert [rows[0]] + rows[1..] == rows;
    }
  }

  lemma QueuedRest(w: World, w1: World, k: nat, rows: seq<nat>)
    requires rows != [] && Queued(w, k, rows)
    requires w1.tasks == w.tasks - {k} && w1.t.sagas.Keys == w.t.sagas.Keys
    ensures Queued(w1, k + 1, rows[1..])
  {
    forall j | k + 1 <= j < k + 1 + |rows[1..]|
      ensures j in w1.tasks && w1.tasks[j].Compensation? && w1.tasks[j].row == rows[1..][j - (k + 1)] && w1.tasks[j].reason == DeadlineReason
    {
      assert j in w.tasks && w.tasks[j].row == rows[j - k];
    }
  }

  lemma FirstReaped(w: World, w': World, r: nat)
    requires w'.now == w.now && Outcomes.Undone(w.t, w'.t, r, DeadlineReason)
    requires forall s :: s in w.t.subs && s == w.t.sagas[r].subId ==> w.t.subs[s].repoId == w.t.sagas[r].repoId
    ensures Reaped(w, w', [r])
  {
    assert r in [r];
    var s := w.t.sagas[r].subId;
    assert DeletedFor(w, [r], s) <==> Unconfirmed(w.t, s);
    UndoneRepos(w.t, w'.t, r);
    hide ReposLeft;
  }

  lemma UndoneRepos(t: Tables, t': Tables, r: nat)
    requires Outcomes.Undone(t, t', r, DeadlineReason)
    requires forall s :: s in t.subs && s == t.sagas[r].subId ==> t.subs[s].repoId == t.sagas[r].repoId
    ensures ReposLeft(t, t')
  {
    if Unconfirmed(t, t.sagas[r].subId) {
      assert t.sagas[r].subId in t.subs && t.sagas[r].subId !in t'.subs;
    }
  }

  lemma SagaRepo(w: World, r: nat)
    requires Inv(w) && r in w.t.sagas
    ensures var s := w.t.sagas[r].subId; s in w.t.subs ==> w.t.subs[s].repoId == w.t.sagas[r].repoId
  {
    hide SubsUnique, SubsRefer, CreatedOk, SagaIdsUnique, FailedOk, DeletedOk, CompletedOk, AwaitedOk,
      StartedOk, OtherTasksOk, QueuedOk, RequestOk, ReposOk, CompensationsOk;
  }

  lemma OtherSubscriptions(w: World)
    requires Inv(w)
    ensures forall r, q :: r in w.t.sagas && q in w.t.sagas && r != q ==> w.t.sagas[r].subId != w.t.sagas[q].subId
  {
    hide Inv;
    forall r, q | r in w.t.sagas && q in w.t.sagas && r != q ensures w.t.sagas[r].subId != w.t.sagas[q].subId {
      InvDistinct(w, r, q);
    }
  }

  lemma InvDistinct(w: World, r: nat, q: nat)
    requires Inv(w) && r in w.t.sagas && q in w.t.sagas && r != q
    ensures w.t.sagas[r].subId != w.t.sagas[q].subId
  {
    DistinctBySub(w.t.sagas, r, q, w.h);
  }

  lemma ReposCompose(t: Tables, t1: Tables, t2: Tables)
    requires ReposLeft(t, t1) && ReposLeft(t1, t2)
    requires forall s :: s in t1.subs ==> s in t.subs && t1.subs[s] == t.subs[s]
    requires forall s :: s in t2.subs ==> s in t1.subs && t2.subs[s] == t1.subs[s]
    ensures ReposLeft(t, t2)
  {
    forall q ensures Emptied(t, t2, q) <==> Emptied(t, t1, q) || (Emptied(t1, t2, q)) {
      EmptiedCompose(t, t1, t2, q);
    }
  }

  lemma EmptiedCompose(t: Tables, t1: Tables, t2: Tables, q: nat)
    requires forall s :: s in t1.subs ==> s in t.subs && t1.subs[s] == t.subs[s]
    requires forall s :: s in t2.subs ==> s in t1.subs && t2.subs[s] == t1.subs[s]
    ensures Emptied(t, t2, q) <==> Emptied(t, t1, q) || Emptied(t1, t2, q)
  {
    if s :| s in t.subs && s !in t2.subs && t.subs[s].repoId == q {
      assert s in t1.subs || s !in t1.subs;
    }
    if s :| s in t1.subs && s !in t2.subs && t1.subs[s].repoId == q {
      assert s in t.subs && s !in t2.subs && t.subs[s].repoId == q;
    }
  }

  /** Clearing some rows and then others clears them all. */
  lemma ReapedCompose(w: World, w1: World, w2: World, a: seq<nat>, b: seq<nat>)
    requires Reaped(w, w1, a) && Reaped(w1, w2, b)
    requires forall r :: r in a ==> r !in b && r in w.t.sagas
    requires forall r, q :: r in w.t.sagas && q in w.t.sagas && r != q ==> w.t.sagas[r].subId != w.t.sagas[q].subId
    ensures Reaped(w, w2, a + b)
  {
    forall r | r in w.t.sagas && r in b ensures Unconfirmed(w1.t, w.t.sagas[r].subId) == Unconfirmed(w.t, w.t.sagas[r].subId) {
      assert !DeletedFor(w, a, w.t.sagas[r].subId);
    }
    ReposCompose(w.t, w1.t, w2.t);
    hide ReposLeft;
    forall s ensures s in w2.t.subs <==> s in w.t.subs && !DeletedFor(w, a + b, s) {
      if DeletedFor(w, a + b, s) {
        var r :| r in a + b && r in w.t.sagas && w.t.sagas[r].subId == s;
        if r in a {
          assert DeletedFor(w, a, s);
        } else {
          assert DeletedFor(w1, b, s);
        }
      } else {
        assert forall r :: r in a || r in b ==> r in a + b;
      }
    }
  }

  lemma {:induction false} MarkAllQueues(w: World, rows: seq<nat>)
    requires forall r :: r in rows ==> r in w.t.sagas
    ensures var w' := MarkAll(w, rows);
      && Queued(w', w.nextTask, rows) && w'.nextTask == w.nextTask + |rows|
      && (forall k :: k in w.tasks && k < w.nextTask ==> k in w'.tasks && w'.tasks[k] == w.tasks[k])
    decreases |rows|
  {
    if rows != [] {
      hide MarkCompensating, Queued;
      var w1 := MarkCompensating(w, rows[0], None, DeadlineReason);
      MarkQueues(w, rows[0]);
      MarkAllQueues(w1, rows[1..]);
      MarkAllFrame(w1, rows[1..]);
      QueuedCons(w1, MarkAll(w1, rows[1..]), w.nextTask, rows);
      hide MarkAll;
    }
  }

  lemma MarkQueues(w: World, r: nat)
    requires r in w.t.sagas
    ensures var w1 := MarkCompensating(w, r, None, DeadlineReason);
      && w1.t.sagas.Keys == w.t.sagas.Keys && w1.nextTask == w.nextTask + 1 && w.nextTask in w1.tasks
      && w1.tasks == w.tasks[w.nextTask := w1.tasks[w.nextTask]]
      && w1.tasks[w.nextTask].Compensation? && w1.tasks[w.nextTask].row == r && w1.tasks[w.nextTask].reason == DeadlineReason
  {
  }

  lemma QueuedCons(w1: World, w': World, base: nat, rows: seq<nat>)
    requires rows != [] && Queued(w', base + 1, rows[1..]) && rows[0] in w'.t.sagas
    requires base in w1.tasks && w1.tasks[base].Compensation? && w1.tasks[base].row == rows[0] && w1.tasks[base].reason == DeadlineReason
    requires base in w'.tasks && w'.tasks[base] == w1.tasks[base]
    ensures Queued(w', base, rows)
  {
    forall j | base <= j < base + |rows|
      ensures j in w'.tasks && w'.tasks[j].Compensation? && w'.tasks[j].row == rows[j - base] && w'.tasks[j].reason == DeadlineReason
    {
      if j > base {
        assert w'.tasks[j].row == rows[1..][j - (base + 1)];
      }
    }
  }

  /** One undisturbed pass clears exactly the rows it selected. */
  lemma ReapPassReaps(w: World, rows: seq<nat>)
    requires Inv(w) && Enabled(w, Reap(rows))
    ensures Inv(ReapPass(w, rows)) && Reaped(w, ReapPass(w, rows), rows)
  {
    var w1 := Next(w, Reap(rows));
    EventKeepsInv(w, Reap(rows));
    hide Inv;
    MarkAllQueues(w, rows);
    MarkAllFrame(w, rows);
    CompensateAllReaps(w1, w.nextTask, rows);
    forall r | r in w.t.sagas
      ensures w1.t.sagas[r] == w.t.sagas[r].(state := w1.t.sagas[r].state, lastError := w1.t.sagas[r].lastError)
      ensures r !in rows ==> w1.t.sagas[r] == w.t.sagas[r]
    {
      MarkAllStates(w, rows, r);
    }
    MarkedReaped(w, w1, ReapPass(w, rows), rows);
  }

  lemma MarkedReaped(w: World, w1: World, w': World, rows: seq<nat>)
    requires w1.t.subs == w.t.subs && w1.now == w.now && w1.t.sagas.Keys == w.t.sagas.Keys
    requires forall r :: r in w.t.sagas ==>
      && w1.t.sagas[r] == w.t.sagas[r].(state := w1.t.sagas[r].state, lastError := w1.t.sagas[r].lastError)
      && (r !in rows ==> w1.t.sagas[r] == w.t.sagas[r])
    requires w1.t.outbox == w.t.outbox && w1.t.repos == w.t.repos
    requires Reaped(w1, w', rows)
    ensures Reaped(w, w', rows)
  {
    assert forall s :: DeletedFor(w1, rows, s) == DeletedFor(w, rows, s);
    assert forall q :: Emptied(w1.t, w'.t, q) == Emptied(w.t, w'.t, q);
  }

  /** The sagas that wait for a confirmation past their deadline. */
  function ExpiredSet(w: World): set<nat> {
    set r | r in w.t.sagas && (w.t.sagas[r].state == Started || w.t.sagas[r].state == AwaitingConfirmation)
      && w.t.sagas[r].deadline < w.now
  }

  lemma ExpiredRows(w: World)
    ensures ExpiredSet(w) == set r | r in w.t.sagas && Expired(w.t, w.now, r)
  {
  }

  /** What FindExpiredForUpdate returns when no row is locked: any 50 expired rows, or all of them. */
  ghost predicate Picks(w: World, rows: seq<nat>) {
    && Enabled(w, Reap(rows))
    && |rows| == (if |ExpiredSet(w)| < 50 then |ExpiredSet(w)| else 50)
  }

  /** A number of undisturbed passes in a row; `picks` is what each of them selected. */
  ghost predicate Passes(w: World, picks: seq<seq<nat>>, w': World)
    decreases |picks|
  {
    if picks == [] then w' == w
    else Picks(w, picks[0]) && Passes(ReapPass(w, picks[0]), picks[1..], w')
  }

  lemma ExpiredAfter(w: World, w': World, rows: seq<nat>)
    requires Reaped(w, w', rows) && forall r :: r in rows ==> r in w.t.sagas
    ensures ExpiredSet(w') == ExpiredSet(w) - ToSet(rows)
  {
  }

  function ToSet(s: seq<nat>): set<nat> {
    set x | x in s
  }

  lemma {:induction false} DistinctSize(s: seq<nat>)
    requires Distinct(s)
    ensures |ToSet(s)| == |s|
    decreases |s|
  {
    if s != [] {
      DistinctSize(s[1..]);
      assert ToSet(s) == {s[0]} + ToSet(s[1..]);
      assert s[0] !in ToSet(s[1..]);
    }
  }

  function Flatten(picks: seq<seq<nat>>): seq<nat>
    decreases |picks|
  {
    if picks == [] then [] else picks[0] + Flatten(picks[1..])
  }

  lemma {:induction false} PassesReap(w: World, picks: seq<seq<nat>>, w': World)
    requires Inv(w) && Passes(w, picks, w')
    ensures Reaped(w, w', Flatten(picks))
    ensures forall r :: r in Flatten(picks) ==> r in ExpiredSet(w)
    ensures |ExpiredSet(w')| == (if |ExpiredSet(w)| < 50 * |picks| then 0 else |ExpiredSet(w)| - 50 * |picks|)
    decreases |picks|
  {
    hide Inv, Reaped, ReapPass, Enabled, Next;
    if picks != [] {
      var w1 := ReapPass(w, picks[0]);
      var rest := Flatten(picks[1..]);
      PickedExpired(w, picks[0]);
      ReapPassReaps(w, picks[0]);
      ExpiredAfter(w, w1, picks[0]);
      DistinctSize(picks[0]);
      PassesReap(w1, picks[1..], w');
      OtherSubscriptions(w);
      assert forall r :: r in rest ==> r in ExpiredSet(w1);
      ReapedCompose(w, w1, w', picks[0], rest);
    } else {
      NothingReaped(w);
    }
  }

  lemma PickedExpired(w: World, rows: seq<nat>)
    requires Picks(w, rows)
    ensures Enabled(w, Reap(rows)) && Distinct(rows) && ToSet(rows) <= ExpiredSet(w)
    ensures forall r :: r in rows ==> r in ExpiredSet(w) && r in w.t.sagas
  {
  }

  lemma NothingReaped(w: World)
    ensures Reaped(w, w, [])
  {
  }

  /** The subscription of the saga in row `r`, if it is still pending. */
  predicate StillPending(t: Tables, r: nat)
    requires r in t.sagas
  {
    t.sagas[r].subId in t.subs && !t.subs[t.sagas[r].subId].confirmed
  }

  /**
   With n expired sagas, ceil(n / 50) undisturbed passes leave none. Each of them ends FAILED with its pending
   subscription deleted, or COMPLETED if there was none pending; a repository goes exactly if its last subscription
   did; every other saga, every other subscription and the outbox are untouched.
   */
  lemma ReaperDrains(w: World, picks: seq<seq<nat>>, w': World)
    requires Reachable(w) && Passes(w, picks, w')
    requires |picks| >= (|ExpiredSet(w)| + 49) / 50
    ensures ExpiredSet(w') == {} && w'.t.sagas.Keys == w.t.sagas.Keys
    ensures forall r :: r in w.t.sagas ==>
      w'.t.sagas[r] == if r !in ExpiredSet(w) then w.t.sagas[r]
                       else if StillPending(w.t, r)
                       then w.t.sagas[r].(state := Failed, lastError := Some("confirmation deadline exceeded"))
                       else w.t.sagas[r].(state := Completed, lastError := None)
    ensures forall s :: s in w'.t.subs <==>
      s in w.t.subs && !exists r :: r in ExpiredSet(w) && w.t.sagas[r].subId == s && StillPending(w.t, r)
    ensures forall s :: s in w'.t.subs ==> w'.t.subs[s] == w.t.subs[s]
    ensures w'.t.outbox == w.t.outbox && ReposLeft(w.t, w'.t)
  {
    hide Inv, Passes, Reachable, Reaped, Flatten, ReposLeft, ExpiredSet;
    DrainedBy(w, picks, w');
    ReapedMeans(w, w', Flatten(picks));
    ExpiredSagas(w);
    forall s ensures DeletedFor(w, Flatten(picks), s) <==>
      s in w.t.subs && exists r :: r in ExpiredSet(w) && w.t.sagas[r].subId == s && StillPending(w.t, r)
    {
    }
  }

  lemma ExpiredSagas(w: World)
    ensures forall r :: r in ExpiredSet(w) ==> r in w.t.sagas
  {
  }

  lemma ReapedMeans(w: World, w': World, rows: seq<nat>)
    requires Reaped(w, w', rows)
    ensures w'.t.sagas.Keys == w.t.sagas.Keys
    ensures forall r :: r in w.t.sagas ==>
      w'.t.sagas[r] == if r !in rows then w.t.sagas[r]
                       else if StillPending(w.t, r) then w.t.sagas[r].(state := Failed, lastError := Some(DeadlineReason))
                       else w.t.sagas[r].(state := Completed, lastError := None)
    ensures forall s :: s in w'.t.subs <==> s in w.t.subs && !DeletedFor(w, rows, s)
    ensures forall s :: s in w'.t.subs ==> w'.t.subs[s] == w.t.subs[s]
    ensures w'.t.outbox == w.t.outbox && ReposLeft(w.t, w'.t)
  {
    hide ReposLeft;
  }

  lemma DrainedBy(w: World, picks: seq<seq<nat>>, w': World)
    requires Reachable(w) && Passes(w, picks, w')
    requires |picks| >= (|ExpiredSet(w)| + 50 - 1) / 50
    ensures ExpiredSet(w') == {} && Reaped(w, w', Flatten(picks))
    ensures forall r :: r in ExpiredSet(w) <==> r in Flatten(picks)
  {
    ReachableInv(w);
    hide Inv, Passes, Reachable, Reaped;
    PassesReap(w, picks, w');
    assert |ExpiredSet(w')| == 0;
    AllPicked(w, w', Flatten(picks));
  }

  lemma AllPicked(w: World, w': World, all: seq<nat>)
    requires Reaped(w, w', all) && ExpiredSet(w') == {} && forall r :: r in all ==> r in ExpiredSet(w)
    ensures forall r :: r in ExpiredSet(w) <==> r in all
  {
    ExpiredAfter(w, w', all);
    forall r | r in ExpiredSet(w) ensures r in all {
      assert r in ExpiredSet(w) - ToSet(all) || r in ToSet(all);
    }
  }
}
