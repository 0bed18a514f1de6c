/** What every schedule of the scanner has in common. */
module ScanResults {
  import opened Prelude
  import opened ReleaseHistory
  import opened ScanSchedule

  ghost predicate Reachable(s: Scanner) {
    exists es :: s == Run(Init, es)
  }

  lemma ReachableInv(s: Scanner)
    requires Reachable(s)
    ensures Inv(s)
  {
    var es :| s == Run(Init, es);
    InitInv();
    RunKeepsInv(Init, es);
  }

  /**
   The scanner refines the history of each repository: over any number of scans, failures, cancellations and
   schedules, what was announced for it and where its cursor stands depend on its successful observations only.
   */
  lemma ScannerRefinesHistory(s: Scanner, id: nat)
    requires Reachable(s) && UsableTags(HistoryOf(s.history, id))
    ensures Releases(s.outbox, id) == Expected(HistoryOf(s.history, id))
    ensures Cursor(s.cursors, id) == ExpectedCursor(HistoryOf(s.history, id))
  {
    ReachableInv(s);
    FoldIsExpected(HistoryOf(s.history, id));
    hide Reachable, ScanOk, PlacesOk, CountsOk, FlagsOk, SnapshotsOk, Fold, Releases, Expected, ExpectedCursor, Cursor;
  }

  /**
   During a scan: at most ten repositories are being processed and the semaphore counts them; goroutines are started
   in the order of the listing and never twice for a repository; and the tag a repository is compared with is its
   stored cursor until its own observation takes effect, which happens at most once.
   */
  lemma ScanSafety(s: Scanner)
    requires Reachable(s) && s.scan.Some?
    ensures var c := s.scan.value;
      && |Holding(c.workers)| == c.sem <= 10
      && |c.spawned| == c.next <= |c.listed| && (forall i :: 0 <= i < c.next ==> c.spawned[i] == c.listed[i].id)
      && (forall i, j :: 0 <= i < j < |c.spawned| ==> c.spawned[i] != c.spawned[j])
      && (forall i :: 0 <= i < |c.listed| && i !in c.settled ==> c.listed[i].lastSeenTag == Cursor(s.cursors, c.listed[i].id))
      && (forall i :: i in c.settled && i in c.workers ==> !c.workers[i].Looking? && !c.workers[i].Writing?)
  {
    ReachableInv(s);
    hide Reachable, Refines, Cursor, Holding;
  }

  datatype ScanResult = ScanSucceeded | ErrRateLimited

  /** What runOneScan returns after processRepositories. */
  function ResultOf(c: Scan): ScanResult {
    if c.rateLimited then ErrRateLimited else ScanSucceeded
  }

  /**
   When the wait returns: no goroutine is left and the semaphore is empty; every goroutine that was started has
   finished, and unless the scan was cancelled that is every listed repository; and the scan reports the rate
   limit exactly when some repository was told of it, and then it was cancelled.
   */
  lemma WaitReturns(s: Scanner)
    requires Reachable(s) && Enabled(s, Return)
    ensures var c := s.scan.value;
      && c.workers == map[] && c.sem == 0
      && (forall i :: 0 <= i < c.next <==> i in c.finished)
      && (!c.cancelled ==> c.next == |c.listed|)
      && (ResultOf(c) == ErrRateLimited <==> c.reported != {})
      && (c.reported != {} ==> c.cancelled)
  {
    ReachableInv(s);
    LimitReached(s);
    hide Reachable, Refines, Cursor;
    var c := s.scan.value;
    assert c.workers == map[];
    assert Holding(c.workers) == {};
    if i :| i in c.reported {
      assert c.rateLimited;
    }
  }

  // -- Every scan ends

  function StageRank(stage: Stage): nat {
    match stage
    case Looking => 5
    case Writing(_) => 4
    case Flagging => 4
    case Cancelling => 3
    case Releasing => 2
    case Finishing => 1
  }

  function RankAt(workers: map<nat, Stage>, i: nat): nat {
    if i in workers then StageRank(workers[i]) else 0
  }

  function Ranks(workers: map<nat, Stage>, n: nat): nat {
    if n == 0 then 0 else Ranks(workers, n - 1) + RankAt(workers, n - 1)
  }

  lemma {:induction false} RanksChange(workers: map<nat, Stage>, workers': map<nat, Stage>, n: nat, i: nat)
    requires forall j :: j != i ==> RankAt(workers', j) == RankAt(workers, j)
    ensures Ranks(workers', n) - Ranks(workers, n) == if i < n then RankAt(workers', i) - RankAt(workers, i) else 0
  {
    if n > 0 {
      RanksChange(workers, workers', n - 1, i);
    }
  }

  /** A bound on the steps a scan still takes. */
  function StepsLeft(s: Scanner): nat
    requires s.scan.Some? ==> s.scan.value.next <= |s.scan.value.listed|
  {
    match s.scan
    case None => 0
    case Some(c) =>
      1 + (match c.loop case Checking => 2 case Acquiring => 1 case Waiting => 0)
        + 7 * (|c.listed| - c.next) + Ranks(c.workers, c.next)
  }

  predicate OwnStep(e: Event) {
    !e.List? && !e.Interrupt?
  }

  lemma StepLowers(s: Scanner, e: Event)
    requires Inv(s) && Inv(Next(s, e)) && !e.List?
    ensures StepsLeft(Next(s, e)) <= StepsLeft(s)
    ensures OwnStep(e) && Enabled(s, e) ==> StepsLeft(Next(s, e)) < StepsLeft(s)
  {
    if Enabled(s, e) {
      match e
      case Acquire => AcquireLowers(s);
      case Check => hide Inv, Ranks;
      case Interrupt => hide Inv, Ranks;
      case Return => hide Inv, Ranks;
      case _ => WorkerLowers(s, e);
    }
  }

  lemma AcquireLowers(s: Scanner)
    requires Inv(s) && Enabled(s, Acquire)
    ensures StepsLeft(Next(s, Acquire)) < StepsLeft(s)
  {
    var (c, c') := (s.scan.value, Next(s, Acquire).scan.value);
    FreshPlace(c);
    hide Inv, PlacesOk, CountsOk, FlagsOk, SnapshotsOk;
    RanksChange(c.workers, c'.workers, c.next, c.next);
    assert Ranks(c'.workers, c'.next) == Ranks(c'.workers, c.next) + RankAt(c'.workers, c.next);
  }

  lemma WorkerLowers(s: Scanner, e: Event)
    requires Inv(s) && Enabled(s, e) && !e.List? && !e.Check? && !e.Acquire? && !e.Interrupt? && !e.Return?
    ensures Next(s, e).scan.Some? && Next(s, e).scan.value.next <= |Next(s, e).scan.value.listed|
    ensures StepsLeft(Next(s, e)) < StepsLeft(s)
  {
    var c := s.scan.value;
    assert PlacesOk(c);
    hide Inv, CountsOk, FlagsOk, SnapshotsOk;
    WorkerEffect(s, e);
    hide Next, Enabled, RankAt;
    var c' := Next(s, e).scan.value;
    RanksChange(c.workers, c'.workers, c.next, e.i);
  }

  lemma WorkerEffect(s: Scanner, e: Event)
    requires Enabled(s, e) && !e.List? && !e.Check? && !e.Acquire? && !e.Interrupt? && !e.Return?
    ensures Next(s, e).scan.Some?
    ensures var (c, c') := (s.scan.value, Next(s, e).scan.value);
      && c'.listed == c.listed && c'.next == c.next && c'.loop == c.loop && e.i in c.workers
      && (forall j :: j != e.i ==> RankAt(c'.workers, j) == RankAt(c.workers, j))
      && RankAt(c'.workers, e.i) < RankAt(c.workers, e.i)
  {
    var (c, i) := (s.scan.value, e.i);
    StageChange(s, e);
    hide Next, StageRank;
    var c' := Next(s, e).scan.value;
    if e.Done? {
      OneGone(c.workers, i);
    } else {
      OneMoved(c.workers, i, c'.workers[i]);
    }
  }

  lemma StageChange(s: Scanner, e: Event)
    requires Enabled(s, e) && !e.List? && !e.Check? && !e.Acquire? && !e.Interrupt? && !e.Return?
    ensures Next(s, e).scan.Some?
    ensures var (c, c') := (s.scan.value, Next(s, e).scan.value);
      && c'.listed == c.listed && c'.next == c.next && c'.loop == c.loop && e.i in c.workers
      && (if e.Done? then c'.workers == c.workers - {e.i}
          else e.i in c'.workers && c'.workers == c.workers[e.i := c'.workers[e.i]]
               && StageRank(c'.workers[e.i]) < StageRank(c.workers[e.i]))
  {
    hide TakeEffect, NeedsWrite, LookEffect;
    match e
    case Look(i, result) => LookChange(s, i, result);
    case Write(i, outcome) => WriteChange(s, i, outcome);
    case _ =>
  }

  lemma LookChange(s: Scanner, i: nat, result: LookResult)
    requires Enabled(s, Look(i, result))
    ensures var (c, s') := (s.scan.value, LookEffect(s, i, result));
      && s'.scan.Some? && s'.scan.value.(workers := c.workers, reported := c.reported, settled := c.settled) == c
      && i in s'.scan.value.workers && s'.scan.value.workers == c.workers[i := s'.scan.value.workers[i]]
      && StageRank(s'.scan.value.workers[i]) < 5
  {
    hide TakeEffect, NeedsWrite, Observe;
  }

  lemma WriteChange(s: Scanner, i: nat, outcome: WriteResult)
    requires Enabled(s, Write(i, outcome))
    ensures var (c, s') := (s.scan.value, Next(s, Write(i, outcome)));
      && s'.scan.Some? && s'.scan.value.(workers := c.workers, settled := c.settled) == c
      && s'.scan.value.workers == c.workers[i := Releasing]
  {
    hide TakeEffect;
  }

  lemma OneGone(workers: map<nat, Stage>, i: nat)
    requires i in workers
    ensures forall j :: j != i ==> RankAt(workers - {i}, j) == RankAt(workers, j)
    ensures RankAt(workers - {i}, i) < RankAt(workers, i)
  {
  }

  lemma OneMoved(workers: map<nat, Stage>, i: nat, stage: Stage)
    requires i in workers && StageRank(stage) < StageRank(workers[i])
    ensures forall j :: j != i ==> RankAt(workers[i := stage], j) == RankAt(workers, j)
    ensures RankAt(workers[i := stage], i) < RankAt(workers, i)
  {
  }

  /** The steps the scan's own goroutines and loop take in a run. */
  function OwnSteps(s: Scanner, es: seq<Event>): nat
    decreases |es|
  {
    if es == [] then 0
    else (if OwnStep(es[0]) && Enabled(s, es[0]) then 1 else 0) + OwnSteps(Next(s, es[0]), es[1..])
  }

  lemma {:induction false} StepsBounded(s: Scanner, es: seq<Event>)
    requires Inv(s) && forall e :: e in es ==> !e.List?
    ensures Inv(Run(s, es)) && OwnSteps(s, es) + StepsLeft(Run(s, es)) <= StepsLeft(s)
    decreases |es|
  {
    hide Inv, StepsLeft;
    if es != [] {
      EventKeepsInv(s, es[0]);
      StepLowers(s, es[0]);
      StepsBounded(Next(s, es[0]), es[1..]);
    }
  }

  /** The semaphore and the wait group never block each other: a scan can always take a step of its own. */
  lemma NeverStuck(s: Scanner)
    requires Reachable(s) && s.scan.Some?
    ensures exists e :: OwnStep(e) && Enabled(s, e)
  {
    ReachableInv(s);
    hide Reachable, Refines, FlagsOk, SnapshotsOk;
    var c := s.scan.value;
    if c.loop == Checking {
      assert Enabled(s, Check);
    } else if c.loop == Acquiring && c.sem < MaxConcurrent {
      assert Enabled(s, Acquire);
    } else if c.loop == Waiting && c.wg == 0 {
      assert Enabled(s, Return);
    } else {
      SomeWorker(c);
      var i :| i in c.workers && (c.workers[i].Finishing? ==> c.wg > 0);
      WorkerSteps(s, i);
    }
  }

  lemma SomeWorker(c: Scan)
    requires CountsOk(c) && (c.loop == Acquiring ==> c.sem == MaxConcurrent) && (c.loop != Acquiring ==> c.wg > 0)
    ensures c.workers != map[] && c.wg > 0
  {
    if c.loop == Acquiring {
      assert c.workers == map[] ==> Holding(c.workers) == {};
    }
  }

  lemma WorkerSteps(s: Scanner, i: nat)
    requires s.scan.Some? && PlacesOk(s.scan.value) && CountsOk(s.scan.value)
    requires i in s.scan.value.workers && s.scan.value.wg > 0
    ensures exists e :: OwnStep(e) && Enabled(s, e)
  {
    var c := s.scan.value;
    if !c.workers[i].Finishing? {
      assert i in Holding(c.workers);
    }
    var e := match c.workers[i]
      case Looking => Look(i, LookFailed)
      case Writing(_) => Write(i, RolledBack)
      case Flagging => Flag(i)
      case Cancelling => Cancel(i)
      case Releasing => Event.Release(i)
      case Finishing => Done(i);
    assert OwnStep(e) && Enabled(s, e);
  }

  /** Every scan ends: whatever the schedule, a scan of n repositories takes at most 7n + 3 steps of its own. */
  lemma ScanEnds(s: Scanner, listed: seq<Tracked>, es: seq<Event>)
    requires Reachable(s) && Enabled(s, List(listed)) && forall e :: e in es ==> !e.List?
    ensures OwnSteps(Next(s, List(listed)), es) <= 7 * |listed| + 3
  {
    ReachableInv(s);
    EventKeepsInv(s, List(listed));
    StepsBounded(Next(s, List(listed)), es);
    assert Ranks(map[], 0) == 0;
  }

  // -- Cancellation and the rate limit

  /** Events of one scan: it neither starts nor returns meanwhile. */
  predicate Within(es: seq<Event>) {
    forall e :: e in es ==> !e.List? && !e.Return?
  }

  /** The repository for which a slot is being waited for. */
  function Pending(c: Scan): nat {
    if c.loop == Acquiring then 1 else 0
  }

  /**
   A cancelled scan stops: whatever the goroutines do, it starts at most the one repository the loop already waits a
   slot for, and none if the loop is at its check or at the wait.
   */
  lemma {:induction false} CancelledStops(s: Scanner, es: seq<Event>)
    requires s.scan.Some? && s.scan.value.cancelled && Within(es)
    ensures Run(s, es).scan.Some? && Run(s, es).scan.value.cancelled
    ensures var (c, c') := (s.scan.value, Run(s, es).scan.value);
      && c'.listed == c.listed && c.spawned <= c'.spawned
      && |c'.spawned| + Pending(c') <= |c.spawned| + Pending(c)
    decreases |es|
  {
    if es != [] {
      assert es[0] in es;
      CancelledStep(s, es[0]);
      hide Next;
      CancelledStops(Next(s, es[0]), es[1..]);
    }
  }

  lemma CancelledStep(s: Scanner, e: Event)
    requires s.scan.Some? && s.scan.value.cancelled && !e.List? && !e.Return?
    ensures Next(s, e).scan.Some? && Next(s, e).scan.value.cancelled
    ensures var (c, c') := (s.scan.value, Next(s, e).scan.value);
      && c'.listed == c.listed && c.spawned <= c'.spawned
      && |c'.spawned| + Pending(c') <= |c.spawned| + Pending(c)
  {
    hide TakeEffect;
  }

  /** Whoever was told of the rate limit still has to raise the flag or to cancel, or the scan is cancelled. */
  ghost predicate LimitPasses(s: Scanner) {
    s.scan.Some? ==>
      var c := s.scan.value;
      forall i :: i in c.reported ==> c.cancelled || (i in c.workers && (c.workers[i].Flagging? || c.workers[i].Cancelling?))
  }

  lemma LimitStep(s: Scanner, e: Event)
    requires Inv(s) && LimitPasses(s)
    ensures LimitPasses(Next(s, e))
  {
    hide TakeEffect, Refines, CountsOk, FlagsOk, SnapshotsOk;
    if Enabled(s, e) {
      match e
      case Acquire => LimitAcquire(s);
      case Look(i, result) => hide PlacesOk; LimitLook(s, i, result);
      case _ => hide PlacesOk;
    }
  }

  lemma LimitAcquire(s: Scanner)
    requires Inv(s) && LimitPasses(s) && Enabled(s, Acquire)
    ensures LimitPasses(Effect(s, Acquire))
  {
    hide Refines, CountsOk, FlagsOk, SnapshotsOk;
    assert s.scan.value.next !in s.scan.value.workers;
  }

  lemma LimitLook(s: Scanner, i: nat, result: LookResult)
    requires LimitPasses(s) && Enabled(s, Look(i, result))
    ensures LimitPasses(Effect(s, Look(i, result)))
  {
    hide TakeEffect, NeedsWrite;
  }

  lemma {:induction false} LimitRun(s: Scanner, es: seq<Event>)
    requires Inv(s) && LimitPasses(s)
    ensures LimitPasses(Run(s, es))
    decreases |es|
  {
    hide Inv, LimitPasses;
    if es != [] {
      LimitStep(s, es[0]);
      EventKeepsInv(s, es[0]);
      hide Next;
      LimitRun(Next(s, es[0]), es[1..]);
    }
  }

  lemma LimitReached(s: Scanner)
    requires Reachable(s)
    ensures LimitPasses(s)
  {
    var es :| s == Run(Init, es);
    InitInv();
    LimitRun(Init, es);
  }

  /** Once the goroutine of a repository that was told of the rate limit is at its end, the scan is cancelled. */
  lemma RateLimitCancels(s: Scanner, i: nat)
    requires Reachable(s) && s.scan.Some? && i in s.scan.value.reported
    requires i in s.scan.value.workers ==> s.scan.value.workers[i].Releasing? || s.scan.value.workers[i].Finishing?
    ensures s.scan.value.cancelled
  {
    LimitReached(s);
    hide Reachable;
  }

  /** A scan is cancelled by its owner, or by a goroutine that was told of the rate limit. */
  lemma WhoCancels(s: Scanner, e: Event)
    requires Reachable(s) && s.scan.Some? && !s.scan.value.cancelled
    requires Next(s, e).scan.Some? && Next(s, e).scan.value.cancelled
    ensures e.Interrupt? || (e.Cancel? && s.scan.value.rateLimited)
  {
    ReachableInv(s);
    hide Refines, PlacesOk, CountsOk, SnapshotsOk, Reachable, Next;
    WhoCancelsNow(s, e);
  }

  lemma WhoCancelsNow(s: Scanner, e: Event)
    requires s.scan.Some? && !s.scan.value.cancelled
    requires forall i :: i in s.scan.value.workers && s.scan.value.workers[i] == Cancelling ==> s.scan.value.rateLimited
    requires Next(s, e).scan.Some? && Next(s, e).scan.value.cancelled
    ensures e.Interrupt? || (e.Cancel? && s.scan.value.rateLimited)
  {
    hide TakeEffect, NeedsWrite;
  }

  // -- What a look does

  /** The observation that takes effect at an event, if one does, and whose it is. */
  function TakesEffect(s: Scanner, e: Event): Option<(nat, Observation)> {
    match e
    case Look(i, Seen(seen)) =>
      if Enabled(s, e) && !(s.scan.value.listed[i].lastSeenTag == "" || (seen.Some? && seen.value.tag != s.scan.value.listed[i].lastSeenTag))
      then Some((i, seen)) else None
    case Write(i, outcome) => if Enabled(s, e) && outcome != RolledBack then Some((i, s.scan.value.workers[i].seen)) else None
    case _ => None
  }

  /**
   A look that succeeds takes effect at once if it shows nothing new; otherwise it is written, and takes effect unless
   its transaction is rolled back. Nothing else changes the history of a repository, and a look whose answer is the
   rate limit is recorded as such.
   */
  lemma LooksTakeEffect(s: Scanner, e: Event)
    ensures match TakesEffect(s, e)
      case None => Next(s, e).history == s.history && Next(s, e).outbox == s.outbox && Next(s, e).cursors == s.cursors
      case Some((i, seen)) =>
        var id := s.scan.value.listed[i].id;
        && Next(s, e).history == s.history[id := HistoryOf(s.history, id) + [seen]]
        && Next(s, e).scan.Some? && Next(s, e).scan.value.settled == s.scan.value.settled + {i}
        && (Next(s, e).outbox == s.outbox ||
            (seen.Some? && Next(s, e).outbox == s.outbox + [Detected(id, s.scan.value.listed[i].fullName, seen.value)]))
    ensures e.Look? && Enabled(s, e) && e.result.Seen? && TakesEffect(s, e) == None ==>
      At(Next(s, e).scan, e.i, Writing(e.result.seen))
    ensures e.Look? && Enabled(s, e) && e.result.RateLimited? ==>
      At(Next(s, e).scan, e.i, Flagging) && Next(s, e).scan.value.reported == s.scan.value.reported + {e.i}
  {
  }
}
