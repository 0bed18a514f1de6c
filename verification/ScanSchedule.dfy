/**
 The release scanner with its goroutines: the loop that spawns them, the semaphore that bounds them, the wait group,
 cancellation, and the transactions that move a cursor and queue an announcement together. Any goroutine may take
 the next step, so a run is any sequence of events.
 */
module ScanSchedule {
  import opened Prelude
  import opened SubscriptionTables
  import opened ReleaseHistory

  const MaxConcurrent := 10

  datatype Tracked = Tracked(id: nat, fullName: string, lastSeenTag: string)

  datatype Detected = Detected(repoId: nat, repoName: string, release: Release)

  /** The loop of processRepositories: before its check, after wg.Add, or at wg.Wait. */
  datatype Loop = Checking | Acquiring | Waiting

  /** Where the goroutine of one repository stands. */
  datatype Stage =
    | Looking
    | Writing(seen: Observation)
    | Flagging
    | Cancelling
    | Releasing
    | Finishing

  datatype Scan = Scan(
    listed: seq<Tracked>,
    next: nat,
    loop: Loop,
    sem: nat,
    wg: nat,
    workers: map<nat, Stage>,     // by position in the listing
    finished: set<nat>,
    spawned: seq<nat>,            // ids in the order their goroutines were started
    cancelled: bool,
    rateLimited: bool,
    reported: set<nat>,           // positions that were told of the rate limit
    settled: set<nat>)            // positions whose observation took effect

  /** `history` records every observation that took effect; nothing reads it. */
  datatype Scanner = Scanner(
    cursors: map<nat, string>,
    outbox: seq<Detected>,
    history: map<nat, seq<Observation>>,
    scan: Option<Scan>)

  const Init := Scanner(map[], [], map[], None)

  datatype LookResult = Seen(seen: Observation) | RateLimited | LookFailed

  datatype WriteResult = Committed | AnswerLost | RolledBack

  datatype Event =
    | List(listed: seq<Tracked>)
    | Check
    | Acquire
    | Look(i: nat, result: LookResult)
    | Write(i: nat, outcome: WriteResult)
    | Flag(i: nat)
    | Cancel(i: nat)
    | Release(i: nat)
    | Done(i: nat)
    | Interrupt
    | Return

  function Cursor(cursors: map<nat, string>, id: nat): string {
    if id in cursors then cursors[id] else ""
  }

  function HistoryOf(history: map<nat, seq<Observation>>, id: nat): seq<Observation> {
    if id in history then history[id] else []
  }

  /** The releases announced for a repository, in order. */
  function Releases(outbox: seq<Detected>, id: nat): seq<SubscriptionTables.Release>
    decreases |outbox|
  {
    if outbox == [] then []
    else
      var d := outbox[|outbox| - 1];
      Releases(outbox[..|outbox| - 1], id) + (if d.repoId == id then [d.release] else [])
  }

  predicate DistinctIds(listed: seq<Tracked>) {
    forall i, j :: 0 <= i < j < |listed| ==> listed[i].id != listed[j].id
  }

  predicate At(c: Option<Scan>, i: nat, stage: Stage) {
    c.Some? && i in c.value.workers && c.value.workers[i] == stage
  }

  /** What a look decides: a look that changes nothing takes effect at once, a change has to be written. */
  predicate NeedsWrite(lastSeenTag: string, seen: Observation) {
    lastSeenTag == "" || (seen.Some? && HasNewRelease(lastSeenTag, seen.value.tag))
  }

  predicate Enabled(s: Scanner, e: Event) {
    match e
    case List(listed) =>
      s.scan.None? && DistinctIds(listed) && forall t :: t in listed ==> t.lastSeenTag == Cursor(s.cursors, t.id)
    case Check => s.scan.Some? && s.scan.value.loop == Checking
    case Acquire =>
      && s.scan.Some? && s.scan.value.loop == Acquiring && s.scan.value.sem < MaxConcurrent
      && s.scan.value.next < |s.scan.value.listed|
    case Look(i, _) => At(s.scan, i, Looking) && i < |s.scan.value.listed|
    case Write(i, _) => s.scan.Some? && i in s.scan.value.workers && s.scan.value.workers[i].Writing? && i < |s.scan.value.listed|
    case Flag(i) => At(s.scan, i, Flagging)
    case Cancel(i) => At(s.scan, i, Cancelling)
    case Release(i) => At(s.scan, i, Releasing) && s.scan.value.sem > 0
    case Done(i) => At(s.scan, i, Finishing) && s.scan.value.wg > 0
    case Interrupt => s.scan.Some?
    case Return => s.scan.Some? && s.scan.value.loop == Waiting && s.scan.value.wg == 0
  }

  function Put(s: Scanner, c: Scan): Scanner {
    s.(scan := Some(c))
  }

  function Stay(c: Scan, i: nat, stage: Stage): Scan {
    c.(workers := c.workers[i := stage])
  }

  /** An observation takes effect: the cursor and the announcement in one transaction. */
  function TakeEffect(s: Scanner, t: Tracked, seen: Observation): Scanner {
    var (tag, announce) := Observe(t.lastSeenTag, seen);
    s.(cursors := if NeedsWrite(t.lastSeenTag, seen) then s.cursors[t.id := tag] else s.cursors,
       outbox := s.outbox + (match announce case Some(r) => [Detected(t.id, t.fullName, r)] case None => []),
       history := s.history[t.id := HistoryOf(s.history, t.id) + [seen]])
  }

  function Settle(c: Scan, i: nat): Scan {
    Stay(c, i, Releasing).(settled := c.settled + {i})
  }

  function LookEffect(s: Scanner, i: nat, result: LookResult): Scanner
    requires Enabled(s, Look(i, result))
  {
    var c := s.scan.value;
    match result
    case Seen(seen) =>
      if NeedsWrite(c.listed[i].lastSeenTag, seen) then Put(s, Stay(c, i, Writing(seen)))
      else Put(TakeEffect(s, c.listed[i], seen), Settle(c, i))
    case RateLimited => Put(s, Stay(c, i, Flagging).(reported := c.reported + {i}))
    case LookFailed => Put(s, Stay(c, i, Releasing))
  }

  function Effect(s: Scanner, e: Event): Scanner
    requires Enabled(s, e)
  {
    match e
    case List(listed) => Put(s, Scan(listed, 0, Checking, 0, 0, map[], {}, [], false, false, {}, {}))
    case Check =>
      var c := s.scan.value;
      if c.next >= |c.listed| || c.cancelled then Put(s, c.(loop := Waiting))
      else Put(s, c.(loop := Acquiring, wg := c.wg + 1))
    case Acquire =>
      var c := s.scan.value;
      Put(s, Stay(c, c.next, Looking).(
        loop := Checking, sem := c.sem + 1, next := c.next + 1, spawned := c.spawned + [c.listed[c.next].id]))
    case Look(i, result) => LookEffect(s, i, result)
    case Write(i, outcome) =>
      var c := s.scan.value;
      if outcome == RolledBack then Put(s, Stay(c, i, Releasing))
      else Put(TakeEffect(s, c.listed[i], c.workers[i].seen), Settle(c, i))
    case Flag(i) => Put(s, Stay(s.scan.value, i, Cancelling).(rateLimited := true))
    case Cancel(i) => Put(s, Stay(s.scan.value, i, Releasing).(cancelled := true))
    case Release(i) => Put(s, Stay(s.scan.value, i, Finishing).(sem := s.scan.value.sem - 1))
    case Done(i) =>
      var c := s.scan.value;
      Put(s, c.(workers := c.workers - {i}, finished := c.finished + {i}, wg := c.wg - 1))
    case Interrupt => Put(s, s.scan.value.(cancelled := true))
    case Return => s.(scan := None)
  }

  function Next(s: Scanner, e: Event): Scanner {
    if Enabled(s, e) then Effect(s, e) else s
  }

  function Run(s: Scanner, es: seq<Event>): Scanner
    decreases |es|
  {
    if es == [] then s else Run(Next(s, es[0]), es[1..])
  }

  // -- The invariant

  /** The goroutines that hold a slot of the semaphore. */
  function Holding(workers: map<nat, Stage>): set<nat> {
    set i | i in workers && !workers[i].Finishing?
  }

  ghost predicate PlacesOk(c: Scan) {
    && c.next <= |c.listed| && DistinctIds(c.listed)
    && |c.spawned| == c.next && (forall i :: 0 <= i < c.next ==> c.spawned[i] == c.listed[i].id)
    && (forall i :: 0 <= i < c.next <==> i in c.workers || i in c.finished)
    && (forall i :: i in c.workers ==> i !in c.finished)
    && (c.loop == Acquiring ==> c.next < |c.listed|)
    && (c.loop == Waiting ==> c.next == |c.listed| || c.cancelled)
  }

  ghost predicate CountsOk(c: Scan) {
    && c.sem == |Holding(c.workers)| && c.sem <= MaxConcurrent
    && c.wg == |c.workers| + (if c.loop == Acquiring then 1 else 0)
  }

  ghost predicate FlagsOk(c: Scan) {
    && (c.rateLimited ==> c.reported != {})
    && (forall i :: i in c.reported ==> c.rateLimited || (i in c.workers && c.workers[i] == Flagging))
    && (forall i :: i in c.workers && c.workers[i] == Flagging ==> i in c.reported)
    && (forall i :: i in c.workers && c.workers[i] == Cancelling ==> c.rateLimited)
  }

  /** The tag a goroutine works from is the stored cursor until its own observation takes effect. */
  ghost predicate SnapshotsOk(c: Scan, cursors: map<nat, string>) {
    && (forall i :: 0 <= i < |c.listed| && i !in c.settled ==> c.listed[i].lastSeenTag == Cursor(cursors, c.listed[i].id))
    && (forall i :: i in c.settled ==> i < c.next)
    && (forall i :: i in c.settled && i in c.workers ==> !c.workers[i].Looking? && !c.workers[i].Writing?)
  }

  ghost predicate Refines(s: Scanner) {
    forall id: nat :: Fold(HistoryOf(s.history, id)) == (Cursor(s.cursors, id), Releases(s.outbox, id))
  }

  ghost predicate Inv(s: Scanner) {
    && Refines(s)
    && (s.scan.Some? ==>
          var c := s.scan.value;
          PlacesOk(c) && CountsOk(c) && FlagsOk(c) && SnapshotsOk(c, s.cursors))
  }

  lemma InitInv()
    ensures Inv(Init)
  {
  }

  lemma ListKeeps(s: Scanner, listed: seq<Tracked>)
    requires Inv(s) && Enabled(s, List(listed))
    ensures Inv(Effect(s, List(listed)))
  {
  }

  ghost predicate ScanOk(c: Scan, cursors: map<nat, string>) {
    PlacesOk(c) && CountsOk(c) && FlagsOk(c) && SnapshotsOk(c, cursors)
  }

  lemma InvIs(s: Scanner)
    ensures Inv(s) <==> Refines(s) && (s.scan.Some? ==> ScanOk(s.scan.value, s.cursors))
  {
  }

  /** Steps that only change the scan. */
  lemma SameStore(s: Scanner, c: Scan)
    requires Inv(s) && ScanOk(c, s.cursors)
    ensures Inv(Put(s, c))
  {
    hide ScanOk;
    InvIs(s);
    InvIs(Put(s, c));
    hide Inv;
  }

  lemma CheckKeeps(c: Scan, cursors: map<nat, string>)
    requires ScanOk(c, cursors) && c.loop == Checking
    ensures c.next >= |c.listed| || c.cancelled ==> ScanOk(c.(loop := Waiting), cursors)
    ensures c.next < |c.listed| && !c.cancelled ==> ScanOk(c.(loop := Acquiring, wg := c.wg + 1), cursors)
  {
    hide Holding;
  }

  lemma AcquirePlaces(c: Scan)
    requires PlacesOk(c) && c.loop == Acquiring && c.next < |c.listed|
    ensures PlacesOk(Stay(c, c.next, Looking).(
      loop := Checking, sem := c.sem + 1, next := c.next + 1, spawned := c.spawned + [c.listed[c.next].id]))
  {
  }

  lemma AcquireCounts(c: Scan)
    requires CountsOk(c) && c.loop == Acquiring && c.next !in c.workers && c.sem < MaxConcurrent
    ensures var c' := Stay(c, c.next, Looking);
      && |Holding(c'.workers)| == c.sem + 1 && |c'.workers| == c.wg
  {
    var c' := Stay(c, c.next, Looking);
    assert Holding(c'.workers) == Holding(c.workers) + {c.next};
    assert c'.workers.Keys == c.workers.Keys + {c.next};
    assert |c'.workers| == |c'.workers.Keys| && |c.workers| == |c.workers.Keys|;
  }

  lemma AcquireKeeps(c: Scan, cursors: map<nat, string>)
    requires ScanOk(c, cursors) && c.loop == Acquiring && c.sem < MaxConcurrent && c.next < |c.listed|
    ensures ScanOk(Stay(c, c.next, Looking).(
      loop := Checking, sem := c.sem + 1, next := c.next + 1, spawned := c.spawned + [c.listed[c.next].id]), cursors)
  {
    AcquirePlaces(c);
    FreshPlace(c);
    AcquireCounts(c);
    AcquireFlags(c, cursors);
    hide PlacesOk, Holding, FlagsOk, SnapshotsOk;
  }

  lemma AcquireFlags(c: Scan, cursors: map<nat, string>)
    requires FlagsOk(c) && SnapshotsOk(c, cursors) && c.next !in c.workers && c.next < |c.listed|
    ensures var c' := Stay(c, c.next, Looking).(
      loop := Checking, sem := c.sem + 1, next := c.next + 1, spawned := c.spawned + [c.listed[c.next].id]);
      FlagsOk(c') && SnapshotsOk(c', cursors)
  {
    hide Cursor;
  }

  lemma FreshPlace(c: Scan)
    requires PlacesOk(c)
    ensures c.next !in c.workers && c.next !in c.finished
  {
  }

  /** A goroutine moving on, holding its slot, changes no count and no place. */
  lemma StayKeeps(c: Scan, i: nat, stage: Stage)
    requires PlacesOk(c) && CountsOk(c) && i in c.workers && !c.workers[i].Finishing? && !stage.Finishing?
    ensures PlacesOk(Stay(c, i, stage)) && CountsOk(Stay(c, i, stage))
  {
    var c' := Stay(c, i, stage);
    assert Holding(c'.workers) == Holding(c.workers);
    assert c'.workers.Keys == c.workers.Keys;
    assert |c'.workers| == |c'.workers.Keys| && |c.workers| == |c.workers.Keys|;
  }

  lemma MoveKeeps(c: Scan, i: nat, stage: Stage, cursors: map<nat, string>)
    requires ScanOk(c, cursors) && i in c.workers && !c.workers[i].Finishing?
    requires stage.Writing? ==> c.workers[i].Looking?
    requires stage.Writing? || stage.Releasing? || stage.Cancelling? || stage.Flagging?
    requires c.workers[i] == Flagging <==> stage == Cancelling
    ensures ScanOk(if stage.Flagging? then Stay(c, i, stage).(reported := c.reported + {i})
                   else if stage.Cancelling? then Stay(c, i, stage).(rateLimited := true)
                   else Stay(c, i, stage), cursors)
  {
    StayKeeps(c, i, stage);
    hide Holding, Cursor;
    MoveFlags(c, i, stage);
    MoveSnapshots(c, i, stage, cursors);
    ShapeSame(Stay(c, i, stage), Stay(c, i, stage).(reported := c.reported + {i}), cursors);
    ShapeSame(Stay(c, i, stage), Stay(c, i, stage).(rateLimited := true), cursors);
    hide PlacesOk, CountsOk, FlagsOk, SnapshotsOk;
  }

  lemma ShapeSame(c: Scan, c': Scan, cursors: map<nat, string>)
    requires c' == c.(reported := c'.reported, rateLimited := c'.rateLimited)
    ensures PlacesOk(c) ==> PlacesOk(c')
    ensures CountsOk(c) ==> CountsOk(c')
    ensures SnapshotsOk(c, cursors) ==> SnapshotsOk(c', cursors)
  {
  }

  lemma MoveFlags(c: Scan, i: nat, stage: Stage)
    requires FlagsOk(c) && i in c.workers && (c.workers[i] == Flagging <==> stage == Cancelling)
    ensures var c' := Stay(c, i, stage);
      FlagsOk(if stage.Flagging? then c'.(reported := c.reported + {i})
              else if stage.Cancelling? then c'.(rateLimited := true)
              else c')
  {
  }

  lemma MoveSnapshots(c: Scan, i: nat, stage: Stage, cursors: map<nat, string>)
    requires SnapshotsOk(c, cursors) && i in c.workers && !stage.Looking? && (stage.Writing? ==> c.workers[i].Looking?)
    ensures SnapshotsOk(Stay(c, i, stage), cursors)
  {
    hide Cursor;
  }

  lemma CancelKeeps(c: Scan, cursors: map<nat, string>)
    requires ScanOk(c, cursors)
    ensures ScanOk(c.(cancelled := true), cursors)
  {
    hide Cursor, Holding;
  }

  lemma ReleaseCounts(c: Scan, i: nat)
    requires CountsOk(c) && i in c.workers && !c.workers[i].Finishing? && c.sem > 0
    ensures CountsOk(Stay(c, i, Finishing).(sem := c.sem - 1))
  {
    var c' := Stay(c, i, Finishing);
    assert Holding(c'.workers) == Holding(c.workers) - {i};
    assert c'.workers.Keys == c.workers.Keys;
    assert |c'.workers| == |c'.workers.Keys| && |c.workers| == |c.workers.Keys|;
  }

  lemma ReleaseKeeps(c: Scan, i: nat, cursors: map<nat, string>)
    requires ScanOk(c, cursors) && i in c.workers && c.workers[i] == Releasing && c.sem > 0
    ensures ScanOk(Stay(c, i, Finishing).(sem := c.sem - 1), cursors)
  {
    ReleaseCounts(c, i);
    hide Holding, Cursor, PlacesOk, CountsOk;
    MoveFlags(c, i, Finishing);
    MoveSnapshots(c, i, Finishing, cursors);
    StayPlaces(c, i, Finishing, c.sem - 1);
    SlotSame(Stay(c, i, Finishing), c.sem - 1, cursors);
  }

  lemma SlotSame(c: Scan, sem: nat, cursors: map<nat, string>)
    ensures FlagsOk(c) ==> FlagsOk(c.(sem := sem))
    ensures SnapshotsOk(c, cursors) ==> SnapshotsOk(c.(sem := sem), cursors)
  {
  }

  lemma StayPlaces(c: Scan, i: nat, stage: Stage, sem: nat)
    requires PlacesOk(c) && i in c.workers
    ensures PlacesOk(Stay(c, i, stage).(sem := sem))
  {
  }

  lemma DoneCounts(c: Scan, i: nat)
    requires CountsOk(c) && i in c.workers && c.workers[i].Finishing? && c.wg > 0
    ensures CountsOk(c.(workers := c.workers - {i}, finished := c.finished + {i}, wg := c.wg - 1))
  {
    var workers' := c.workers - {i};
    assert Holding(workers') == Holding(c.workers);
    assert workers'.Keys == c.workers.Keys - {i};
    assert |workers'| == |workers'.Keys| && |c.workers| == |c.workers.Keys|;
  }

  lemma DonePlaces(c: Scan, i: nat)
    requires PlacesOk(c) && i in c.workers && c.wg > 0
    ensures PlacesOk(c.(workers := c.workers - {i}, finished := c.finished + {i}, wg := c.wg - 1))
  {
  }

  lemma DoneKeeps(c: Scan, i: nat, cursors: map<nat, string>)
    requires ScanOk(c, cursors) && i in c.workers && c.workers[i] == Finishing && c.wg > 0
    ensures ScanOk(c.(workers := c.workers - {i}, finished := c.finished + {i}, wg := c.wg - 1), cursors)
  {
    hide Holding, Cursor, PlacesOk, CountsOk;
    DoneCounts(c, i);
    DonePlaces(c, i);
    DoneFlags(c, i, cursors);
    hide FlagsOk, SnapshotsOk;
  }

  lemma DoneFlags(c: Scan, i: nat, cursors: map<nat, string>)
    requires FlagsOk(c) && SnapshotsOk(c, cursors) && i in c.workers && c.workers[i] == Finishing && c.wg > 0
    ensures var c' := c.(workers := c.workers - {i}, finished := c.finished + {i}, wg := c.wg - 1);
      FlagsOk(c') && SnapshotsOk(c', cursors)
  {
    hide Cursor;
  }

  // -- An observation taking effect

  lemma ReleasesSnoc(outbox: seq<Detected>, d: Detected, id: nat)
    ensures Releases(outbox + [d], id) == Releases(outbox, id) + (if d.repoId == id then [d.release] else [])
  {
    assert (outbox + [d])[..|outbox|] == outbox;
  }

  lemma ReleasesMore(outbox: seq<Detected>, t: Tracked, announce: Option<SubscriptionTables.Release>, id: nat)
    ensures Releases(outbox + (match announce case Some(r) => [Detected(t.id, t.fullName, r)] case None => []), id)
      == Releases(outbox, id) + (if t.id == id then Announced(announce) else [])
  {
    match announce
    case Some(r) => ReleasesSnoc(outbox, Detected(t.id, t.fullName, r), id);
    case None => assert outbox + [] == outbox;
  }

  /** With a snapshot that is the stored cursor, taking effect is one step of the fold, for this repository only. */
  lemma TakeEffectRefines(s: Scanner, t: Tracked, seen: Observation)
    requires Refines(s) && t.lastSeenTag == Cursor(s.cursors, t.id)
    ensures Refines(TakeEffect(s, t, seen))
  {
    var s' := TakeEffect(s, t, seen);
    hide TakeEffect, Fold, Releases, HistoryOf, Cursor;
    forall id: nat ensures Fold(HistoryOf(s'.history, id)) == (Cursor(s'.cursors, id), Releases(s'.outbox, id)) {
      TakeEffectOn(s, t, seen, id);
    }
  }

  lemma TakeEffectOn(s: Scanner, t: Tracked, seen: Observation, id: nat)
    requires t.lastSeenTag == Cursor(s.cursors, t.id)
    requires Fold(HistoryOf(s.history, id)) == (Cursor(s.cursors, id), Releases(s.outbox, id))
    ensures var s' := TakeEffect(s, t, seen);
      Fold(HistoryOf(s'.history, id)) == (Cursor(s'.cursors, id), Releases(s'.outbox, id))
  {
    hide Fold, Releases, Cursor;
    EffectOnCursor(s, t, seen);
    Snoc(HistoryOf(s.history, id), seen);
    ReleasesMore(s.outbox, t, Observe(t.lastSeenTag, seen).1, id);
    assert Releases(s.outbox, id) + [] == Releases(s.outbox, id);
  }

  lemma EffectOnCursor(s: Scanner, t: Tracked, seen: Observation)
    requires t.lastSeenTag == Cursor(s.cursors, t.id)
    ensures var cursors' := TakeEffect(s, t, seen).cursors;
      && Cursor(cursors', t.id) == Observe(t.lastSeenTag, seen).0
      && (forall id :: id != t.id ==> Cursor(cursors', id) == Cursor(s.cursors, id))
  {
  }

  lemma SettleSnapshots(c: Scan, i: nat, cursors: map<nat, string>, cursors': map<nat, string>)
    requires SnapshotsOk(c, cursors) && i in c.workers && i < |c.listed| && i < c.next && DistinctIds(c.listed)
    requires forall id :: id != c.listed[i].id ==> Cursor(cursors', id) == Cursor(cursors, id)
    ensures SnapshotsOk(Settle(c, i), cursors')
  {
    hide Cursor;
    forall j | 0 <= j < |c.listed| && j !in Settle(c, i).settled
      ensures c.listed[j].lastSeenTag == Cursor(cursors', c.listed[j].id)
    {
      assert c.listed[j].id != c.listed[i].id;
    }
  }

  lemma SettleKeeps(s: Scanner, i: nat, seen: Observation)
    requires Inv(s) && s.scan.Some? && i in s.scan.value.workers && i < |s.scan.value.listed|
    requires s.scan.value.workers[i].Looking? || s.scan.value.workers[i].Writing?
    ensures var c := s.scan.value; Inv(Put(TakeEffect(s, c.listed[i], seen), Settle(c, i)))
  {
    hide ScanOk, Refines, PlacesOk, CountsOk, FlagsOk, SnapshotsOk, Cursor, TakeEffect;
    InvIs(s);
    var c := s.scan.value;
    var s1 := TakeEffect(s, c.listed[i], seen);
    SnapshotOf(c, i, s.cursors);
    TakeEffectRefines(s, c.listed[i], seen);
    EffectOnCursor(s, c.listed[i], seen);
    SettleScan(c, i, s.cursors, s1.cursors);
    RefinesSame(s1, Put(s1, Settle(c, i)));
    InvIs(Put(s1, Settle(c, i)));
    hide Inv;
  }

  lemma SnapshotOf(c: Scan, i: nat, cursors: map<nat, string>)
    requires ScanOk(c, cursors) && i in c.workers && i < |c.listed| && (c.workers[i].Looking? || c.workers[i].Writing?)
    ensures c.listed[i].lastSeenTag == Cursor(cursors, c.listed[i].id)
  {
  }

  lemma SettleScan(c: Scan, i: nat, cursors: map<nat, string>, cursors': map<nat, string>)
    requires ScanOk(c, cursors) && i in c.workers && i < |c.listed| && (c.workers[i].Looking? || c.workers[i].Writing?)
    requires forall id :: id != c.listed[i].id ==> Cursor(cursors', id) == Cursor(cursors, id)
    ensures ScanOk(Settle(c, i), cursors')
  {
    StayKeeps(c, i, Releasing);
    MoveFlags(c, i, Releasing);
    SettleSnapshots(c, i, cursors, cursors');
    SettledSame(Stay(c, i, Releasing), c.settled + {i});
    hide PlacesOk, CountsOk, FlagsOk, SnapshotsOk;
  }

  lemma SettledSame(c: Scan, settled: set<nat>)
    ensures PlacesOk(c) ==> PlacesOk(c.(settled := settled))
    ensures CountsOk(c) ==> CountsOk(c.(settled := settled))
    ensures FlagsOk(c) ==> FlagsOk(c.(settled := settled))
  {
  }

  lemma RefinesSame(s: Scanner, s': Scanner)
    requires Refines(s) && s' == s.(scan := s'.scan)
    ensures Refines(s')
  {
  }

  lemma EventKeepsInv(s: Scanner, e: Event)
    requires Inv(s)
    ensures Inv(Next(s, e))
  {
    if Enabled(s, e) {
      hide Inv, ScanOk, Refines, TakeEffect, DistinctIds, NeedsWrite, LookEffect, Cursor;
      InvIs(s);
      match e
      case List(listed) => ListKeeps(s, listed);
      case Check => LoopKeeps(s, e);
      case Acquire => LoopKeeps(s, e);
      case Look(i, result) => LookKeeps(s, i, result);
      case Write(i, outcome) => WriteKeeps(s, i, outcome);
      case Flag(_) => LeaveKeeps(s, e);
      case Cancel(_) => LeaveKeeps(s, e);
      case Release(_) => LeaveKeeps(s, e);
      case Done(_) => LeaveKeeps(s, e);
      case Interrupt => LoopKeeps(s, e);
      case Return =>
        RefinesSame(s, Next(s, e));
        InvIs(Next(s, e));
    }
  }

  /** The steps of the loop, and a cancellation from outside. */
  lemma LoopKeeps(s: Scanner, e: Event)
    requires Inv(s) && Enabled(s, e) && (e.Check? || e.Acquire? || e.Interrupt?)
    ensures Inv(Effect(s, e))
  {
    hide ScanOk, Refines, Inv;
    InvIs(s);
    var c := s.scan.value;
    match e {
      case Check => CheckKeeps(c, s.cursors);
      case Acquire => AcquireKeeps(c, s.cursors);
      case Interrupt => CancelKeeps(c, s.cursors);
    }
    SameStore(s, Effect(s, e).scan.value);
  }

  /** The steps of a goroutine after its work. */
  lemma LeaveKeeps(s: Scanner, e: Event)
    requires Inv(s) && Enabled(s, e) && (e.Flag? || e.Cancel? || e.Release? || e.Done?)
    ensures Inv(Effect(s, e))
  {
    hide ScanOk, Refines, Inv;
    InvIs(s);
    var (c, c') := (s.scan.value, Effect(s, e).scan.value);
    match e {
      case Flag(i) => MoveKeeps(c, i, Cancelling, s.cursors);
      case Cancel(i) =>
        MoveKeeps(c, i, Releasing, s.cursors);
        CancelKeeps(Stay(c, i, Releasing), s.cursors);
      case Release(i) => ReleaseKeeps(c, i, s.cursors);
      case Done(i) => DoneKeeps(c, i, s.cursors);
    }
    SameStore(s, c');
  }

  lemma LookKeeps(s: Scanner, i: nat, result: LookResult)
    requires Inv(s) && Enabled(s, Look(i, result))
    ensures Inv(Effect(s, Look(i, result)))
  {
    hide ScanOk, Refines, PlacesOk, CountsOk, FlagsOk, SnapshotsOk, TakeEffect, DistinctIds, NeedsWrite;
    InvIs(s);
    var c := s.scan.value;
    match result
    case Seen(seen) =>
      if NeedsWrite(c.listed[i].lastSeenTag, seen) {
        MoveKeeps(c, i, Writing(seen), s.cursors);
        SameStore(s, Stay(c, i, Writing(seen)));
      } else {
        SettleKeeps(s, i, seen);
      }
    case RateLimited =>
      MoveKeeps(c, i, Flagging, s.cursors);
      SameStore(s, Stay(c, i, Flagging).(reported := c.reported + {i}));
    case LookFailed =>
      MoveKeeps(c, i, Releasing, s.cursors);
      SameStore(s, Stay(c, i, Releasing));
  }

  lemma WriteKeeps(s: Scanner, i: nat, outcome: WriteResult)
    requires Inv(s) && Enabled(s, Write(i, outcome))
    ensures Inv(Effect(s, Write(i, outcome)))
  {
    hide ScanOk, Refines, PlacesOk, CountsOk, FlagsOk, SnapshotsOk, TakeEffect, DistinctIds, NeedsWrite;
    InvIs(s);
    var c := s.scan.value;
    if outcome == RolledBack {
      MoveKeeps(c, i, Releasing, s.cursors);
      SameStore(s, Stay(c, i, Releasing));
    } else {
      SettleKeeps(s, i, c.workers[i].seen);
    }
  }

  lemma {:induction false} RunKeepsInv(s: Scanner, es: seq<Event>)
    requires Inv(s)
    ensures Inv(Run(s, es))
    decreases |es|
  {
    hide Inv;
    if es != [] {
      EventKeepsInv(s, es[0]);
      RunKeepsInv(Next(s, es[0]), es[1..]);
    }
  }
}
