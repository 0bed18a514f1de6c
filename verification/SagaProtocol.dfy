/**
 The subscription service as an interleaved protocol.

 One committed transaction (or one autocommit statement) is one `Event`. An operation that spans several
 transactions leaves a `Task` in the world between them, so that any other event can come in between;
 `Drop` loses a task, as a crash or an error return does. Which event happens next is arbitrary, so a run is
 any sequence of events, and an event that is not enabled changes nothing.
 */
module SagaProtocol {
  import opened Prelude
  import opened SubscriptionTables

  datatype Recipient = Recipient(subId: nat, email: string, unsubscribeToken: string)

  /** Where an operation stands between two of its transactions. */
  datatype Task =
    | EnsureMissed(name: string)
    | EnsureConflicted(name: string)
    | Ensured(name: string, repoId: nat)
    | Compensation(row: nat, saga: Saga, reason: string)
    | CleanupCheck(repoId: nat)
    | CleanupDelete(repoId: nat)
    | ConfirmCommitted(subId: nat)
    | UnsubscribeFound(token: string, repoId: nat)
    | FanoutListed(repoId: nat, release: Release, recipients: seq<Recipient>)

  /** What happened so far; no event reads it to decide anything. */
  datatype History = History(
    created: map<nat, Sub>,      // every subscription ever inserted, as inserted
    sagaOf: map<nat, nat>,       // the saga row inserted with each of them
    named: map<nat, string>,     // every repository ever inserted, with its name
    confirmed: set<nat>,         // subscriptions ever confirmed
    failedBy: map<nat, nat>,     // subscriptions a compensation deleted, with the saga row it ran for
    started: multiset<nat>,      // one element per compensation started, the saga row
    awaited: set<nat>,           // saga rows that ever reached AWAITING_CONFIRMATION
    request: map<nat, nat>,      // saga row to its confirmation row in the outbox
    requestOf: map<nat, nat>,    // and back
    queuedFor: map<nat, nat>)    // release row in the outbox to the subscription it was queued for

  datatype World = World(t: Tables, now: nat, tasks: map<nat, Task>, nextTask: nat, h: History)

  const EmptyTables := Tables(map[], map[], map[], map[])
  const EmptyHistory := History(map[], map[], map[], {}, map[], multiset{}, {}, map[], map[], map[])
  const Init := World(EmptyTables, 0, map[], 0, EmptyHistory)

  /** The ids an event allocates are labels of the event: any id that table never used before. */
  datatype Event =
    | Tick(to: nat)
    | Drop(task: nat)
    | EnsureFind(name: string, repoId: nat)
    | EnsureMiss(name: string)
    | EnsureCreate(task: nat, repoId: nat)
    | EnsureFindAgain(task: nat, repoId: nat)
    | Subscribe(task: nat, sagaId: string, sub: Sub, deadline: nat, subId: nat, row: nat, out: nat)
    | EmailSent(row: nat)
    | EmailFailed(row: nat, reason: string)
    | Reap(rows: seq<nat>)
    | Compensate(task: nat)
    | CleanupHasAny(task: nat)
    | CleanupDeleteRepo(task: nat)
    | Confirm(subId: nat)
    | HandleConfirmed(task: nat, row: nat)
    | UnsubscribeFind(subId: nat)
    | UnsubscribeDelete(task: nat)
    | FanoutList(repoId: nat, release: Release, subIds: seq<nat>)
    | FanoutCommit(task: nat, outs: seq<nat>)
    | Publish(ids: set<nat>)

  const ReaperBatch := 50
  const DeadlineReason := "confirmation deadline exceeded"

  function Spawn(w: World, task: Task): World {
    w.(tasks := w.tasks[w.nextTask := task], nextTask := w.nextTask + 1)
  }

  function Become(w: World, k: nat, task: Task): World {
    w.(tasks := w.tasks[k := task])
  }

  function Finish(w: World, k: nat): World {
    w.(tasks := w.tasks - {k})
  }

  predicate Distinct(s: seq<nat>) {
    forall i, j :: 0 <= i < j < |s| ==> s[i] != s[j]
  }

  /** The subscriptions ListConfirmed returns, in some order. */
  predicate ListsConfirmed(t: Tables, repoId: nat, subIds: seq<nat>) {
    && Distinct(subIds)
    && (forall s :: s in subIds ==> s in t.subs && t.subs[s].repoId == repoId && t.subs[s].confirmed)
    && (forall s :: s in t.subs && t.subs[s].repoId == repoId && t.subs[s].confirmed ==> s in subIds)
  }

  predicate Insertable(w: World, sub: Sub) {
    && sub.repoId in w.t.repos
    && !sub.confirmed
    && !DuplicateSubscription(w.t, sub)
    && !DuplicateToken(w.t, sub)
  }

  predicate Enabled(w: World, e: Event) {
    match e
    case Tick(to) => w.now <= to
    case Drop(k) => k in w.tasks
    case EnsureFind(name, r) => r in w.t.repos && w.t.repos[r].name == name
    case EnsureMiss(name) => !HasName(w.t, name)
    case EnsureCreate(k, r) => k in w.tasks && w.tasks[k].EnsureMissed? && r !in w.h.named
    case EnsureFindAgain(k, r) =>
      && k in w.tasks && w.tasks[k].EnsureConflicted?
      && r in w.t.repos && w.t.repos[r].name == w.tasks[k].name
    case Subscribe(k, sagaId, sub, deadline, subId, row, out) =>
      && k in w.tasks && w.tasks[k].Ensured? && w.tasks[k].repoId == sub.repoId
      && Insertable(w, sub)
      && !DuplicateSagaId(w.t, sagaId)
      && subId !in w.h.created && row !in w.t.sagas && out !in w.t.outbox
    case EmailSent(row) => row in w.t.sagas && w.t.sagas[row].state == Started
    case EmailFailed(row, reason) => row in w.t.sagas && Active(w.t.sagas[row].state)
    case Reap(rows) =>
      && |rows| <= ReaperBatch && Distinct(rows)
      && (forall r :: r in rows ==> Expired(w.t, w.now, r))
    case Compensate(k) => k in w.tasks && w.tasks[k].Compensation?
    case CleanupHasAny(k) => k in w.tasks && w.tasks[k].CleanupCheck?
    case CleanupDeleteRepo(k) => k in w.tasks && w.tasks[k].CleanupDelete?
    case Confirm(s) => s in w.t.subs
    case HandleConfirmed(k, row) =>
      && k in w.tasks && w.tasks[k].ConfirmCommitted?
      && row in w.t.sagas && w.t.sagas[row].subId == w.tasks[k].subId
    case UnsubscribeFind(s) => s in w.t.subs
    case UnsubscribeDelete(k) => k in w.tasks && w.tasks[k].UnsubscribeFound?
    case FanoutList(r, release, subIds) => ListsConfirmed(w.t, r, subIds)
    case FanoutCommit(k, outs) =>
      && k in w.tasks && w.tasks[k].FanoutListed? && |outs| == |w.tasks[k].recipients|
      && Distinct(outs) && (forall o :: o in outs ==> o !in w.t.outbox)
    case Publish(ids) => true
  }

  /** Steps that only move an operation on: they read tables and change nothing but tasks. */
  predicate Quiet(e: Event) {
    e.Drop? || e.EnsureFind? || e.EnsureMiss? || e.EnsureFindAgain? || e.CleanupHasAny? || e.UnsubscribeFind? || e.FanoutList?
  }

  /** Steps that write the state of sagas, and no other table. */
  predicate WritesStates(e: Event) {
    e.EmailSent? || e.EmailFailed? || e.Reap? || e.HandleConfirmed?
  }

  function SubscribeEffect(w: World, k: nat, sagaId: string, sub: Sub, deadline: nat, subId: nat, row: nat, out: nat): World
    requires Enabled(w, Subscribe(k, sagaId, sub, deadline, subId, row, out))
  {
    var t := w.t.(
      subs := w.t.subs[subId := sub],
      sagas := w.t.sagas[row := Saga(sagaId, subId, sub.repoId, sub.email, Started, deadline, None)]);
    var payload := ConfirmationRequested(sagaId, sub.email, w.tasks[k].name, sub.confirmToken);
    Finish(w, k).(
      t := InsertOutbox(t, out, payload),
      h := w.h.(created := w.h.created[subId := sub],
                sagaOf := w.h.sagaOf[subId := row],
                request := w.h.request[row := out],
                requestOf := w.h.requestOf[out := row]))
  }

  /** Marks one saga COMPENSATING and leaves its compensation to be run. */
  function MarkCompensating(w: World, row: nat, lastError: Option<string>, reason: string): World
    requires row in w.t.sagas
  {
    Spawn(w, Compensation(row, w.t.sagas[row], reason)).(
      t := SetState(w.t, row, Compensating, lastError),
      h := w.h.(started := w.h.started + multiset{row}))
  }

  /** The loop of one reaper pass, all inside one transaction. */
  function MarkAll(w: World, rows: seq<nat>): World
    requires forall r :: r in rows ==> r in w.t.sagas
    decreases |rows|
  {
    if rows == [] then w
    else MarkAll(MarkCompensating(w, rows[0], None, DeadlineReason), rows[1..])
  }

  function CompensateEffect(w: World, k: nat): World
    requires Enabled(w, Compensate(k))
  {
    var c := w.tasks[k];
    if Unconfirmed(w.t, c.saga.subId) then
      Become(w, k, CleanupCheck(c.saga.repoId)).(
        t := SetState(DeleteUnconfirmed(w.t, c.saga.subId), c.row, Failed, Some(c.reason)),
        h := w.h.(failedBy := w.h.failedBy[c.saga.subId := c.row]))
    else
      Finish(w, k).(t := SetState(w.t, c.row, Completed, None))
  }

  function RecipientOf(t: Tables, s: nat): Recipient
    requires s in t.subs
  {
    Recipient(s, t.subs[s].email, t.subs[s].unsubscribeToken)
  }

  function QueueRelease(w: World, out: nat, release: Release, rec: Recipient): World {
    w.(t := InsertOutbox(w.t, out, ReleaseDetected(rec.email, rec.unsubscribeToken, release)),
       h := w.h.(queuedFor := w.h.queuedFor[out := rec.subId]))
  }

  function QueueReleases(w: World, outs: seq<nat>, release: Release, recs: seq<Recipient>): World
    requires |outs| == |recs|
    decreases |recs|
  {
    if recs == [] then w
    else QueueReleases(QueueRelease(w, outs[0], release, recs[0]), outs[1..], release, recs[1..])
  }

  function Effect(w: World, e: Event): World
    requires Enabled(w, e)
  {
    match e
    case Tick(to) => w.(now := to)
    case Drop(k) => Finish(w, k)
    case EnsureFind(name, r) => Spawn(w, Ensured(name, r))
    case EnsureMiss(name) => Spawn(w, EnsureMissed(name))
    case EnsureCreate(k, r) =>
      var name := w.tasks[k].name;
      if HasName(w.t, name) then Become(w, k, EnsureConflicted(name))
      else Become(w, k, Ensured(name, r)).(
        t := w.t.(repos := w.t.repos[r := Repo(name, "")]),
        h := w.h.(named := w.h.named[r := name]))
    case EnsureFindAgain(k, r) => Become(w, k, Ensured(w.tasks[k].name, r))
    case Subscribe(k, sagaId, sub, deadline, subId, row, out) =>
      SubscribeEffect(w, k, sagaId, sub, deadline, subId, row, out)
    case EmailSent(row) =>
      w.(t := SetState(w.t, row, AwaitingConfirmation, None),
         h := w.h.(awaited := w.h.awaited + {row}))
    case EmailFailed(row, reason) =>
      MarkCompensating(w, row, Some(reason), reason)
    case Reap(rows) => MarkAll(w, rows)
    case Compensate(k) => CompensateEffect(w, k)
    case CleanupHasAny(k) =>
      if HasAny(w.t, w.tasks[k].repoId) then Finish(w, k)
      else Become(w, k, CleanupDelete(w.tasks[k].repoId))
    case CleanupDeleteRepo(k) => Finish(w, k).(t := DeleteRepo(w.t, w.tasks[k].repoId))
    case Confirm(s) =>
      Spawn(w, ConfirmCommitted(s)).(
        t := ConfirmSub(w.t, s),
        h := w.h.(confirmed := w.h.confirmed + {s}))
    case HandleConfirmed(k, row) =>
      if Terminal(w.t.sagas[row].state) then Finish(w, k)
      else Finish(w, k).(t := SetState(w.t, row, Completed, None))
    case UnsubscribeFind(s) => Spawn(w, UnsubscribeFound(w.t.subs[s].unsubscribeToken, w.t.subs[s].repoId))
    case UnsubscribeDelete(k) =>
      var c := w.tasks[k];
      if exists s :: s in w.t.subs && w.t.subs[s].unsubscribeToken == c.token
      then Become(w, k, CleanupCheck(c.repoId)).(t := DeleteByUnsubscribeToken(w.t, c.token))
      else Finish(w, k)
    case FanoutList(r, release, subIds) =>
      Spawn(w, FanoutListed(r, release,
        seq(|subIds|, i requires 0 <= i < |subIds| => RecipientOf(w.t, subIds[i]))))
    case FanoutCommit(k, outs) =>
      var c := w.tasks[k];
      QueueReleases(Finish(w, k).(t := SetLastSeenTag(w.t, c.repoId, c.release.tag)), outs, c.release, c.recipients)
    case Publish(ids) => w.(t := MarkPublished(w.t, ids))
  }

  function Next(w: World, e: Event): World {
    if Enabled(w, e) then Effect(w, e) else w
  }

  function Run(w: World, es: seq<Event>): World
    decreases |es|
  {
    if es == [] then w else Run(Next(w, es[0]), es[1..])
  }

  lemma {:induction false} RunAppend(w: World, es: seq<Event>, fs: seq<Event>)
    ensures Run(w, es + fs) == Run(Run(w, es), fs)
    decreases |es|
  {
    if es == [] {
      assert es + fs == fs;
    } else {
      assert (es + fs)[1..] == es[1..] + fs;
      RunAppend(Next(w, es[0]), es[1..], fs);
    }
  }

  lemma OneEvent(w: World, e: Event)
    ensures Run(w, [e]) == Next(w, e)
  {
    assert [e][1..] == [];
  }

  lemma RunTwo(w: World, e1: Event, e2: Event)
    ensures Run(w, [e1, e2]) == Next(Next(w, e1), e2)
  {
    assert [e1, e2][1..] == [e2];
    OneEvent(Next(w, e1), e2);
  }

  /** A run one event longer. */
  lemma RunLast(w: World, es: seq<Event>, e: Event)
    ensures Run(w, es + [e]) == Next(Run(w, es), e)
  {
    RunAppend(w, es, [e]);
    OneEvent(Run(w, es), e);
  }

  // ---------------------------------------------------------------------------------------------------
  // The invariant of every reachable world. Each part names the tables and histories it is about.

  type Subs = map<nat, Sub>
  type Sagas = map<nat, Saga>
  type Tasks = map<nat, Task>
  type Outbox = map<nat, OutboxRow>

  /** A repository keeps the name it was inserted with, and names are unique. */
  ghost predicate ReposOk(repos: map<nat, Repo>, named: map<nat, string>) {
    && (forall r :: r in repos ==> r in named && named[r] == repos[r].name)
    && (forall r, q :: r in repos && q in repos && r != q ==> repos[r].name != repos[q].name)
  }

  ghost predicate SubsUnique(subs: Subs) {
    forall s, u :: s in subs && u in subs && s != u ==>
      && (subs[s].email != subs[u].email || subs[s].repoId != subs[u].repoId)
      && subs[s].confirmToken != subs[u].confirmToken
      && subs[s].unsubscribeToken != subs[u].unsubscribeToken
  }

  ghost predicate SubsRefer(subs: Subs, repos: map<nat, Repo>) {
    forall s :: s in subs ==> subs[s].repoId in repos
  }

  /** A live subscription is the one that was created, and its flag says whether it was ever confirmed. */
  ghost predicate SubsOk(subs: Subs, created: Subs, confirmed: set<nat>) {
    forall s :: s in subs ==> s in created && subs[s] == created[s].(confirmed := s in confirmed)
  }

  ghost predicate CreatedOk(created: Subs, named: map<nat, string>, confirmed: set<nat>) {
    && (forall s :: s in created ==> created[s].repoId in named && !created[s].confirmed)
    && (forall s :: s in confirmed ==> s in created)
  }

  ghost predicate SagaIdsUnique(sagas: Sagas) {
    forall r, q :: r in sagas && q in sagas && r != q ==> sagas[r].sagaId != sagas[q].sagaId
  }

  /** Every created subscription has exactly one saga, which carries its address and repository. */
  ghost predicate SagasOk(sagas: Sagas, created: Subs, sagaOf: map<nat, nat>) {
    && (forall r :: r in sagas ==>
          && sagas[r].subId in created
          && sagas[r].email == created[sagas[r].subId].email
          && sagas[r].repoId == created[sagas[r].subId].repoId
          && sagas[r].subId in sagaOf && sagaOf[sagas[r].subId] == r)
    && (forall s :: s in created ==>
          s in sagaOf && sagaOf[s] in sagas && sagas[sagaOf[s]].subId == s)
  }

  /** A saga is FAILED exactly when its own compensation deleted its subscription. */
  ghost predicate FailedOk(sagas: Sagas, failedBy: map<nat, nat>) {
    && (forall r :: r in sagas && sagas[r].state == Failed ==>
          sagas[r].subId in failedBy && failedBy[sagas[r].subId] == r)
    && (forall s :: s in failedBy ==>
          failedBy[s] in sagas && sagas[failedBy[s]].subId == s && sagas[failedBy[s]].state == Failed)
  }

  /** What a compensation deleted was never confirmed and stays away. */
  ghost predicate DeletedOk(subs: Subs, created: Subs, confirmed: set<nat>, failedBy: map<nat, nat>) {
    forall s :: s in failedBy ==> s in created && s !in confirmed && s !in subs
  }

  ghost predicate CompletedOk(sagas: Sagas, subs: Subs, confirmed: set<nat>) {
    forall r :: r in sagas && sagas[r].state == Completed ==>
      sagas[r].subId in confirmed || sagas[r].subId !in subs
  }

  ghost predicate AwaitedOk(sagas: Sagas, awaited: set<nat>) {
    forall r :: r in sagas && sagas[r].state == AwaitingConfirmation ==> r in awaited
  }

  /** A compensation is started at most once, and never for a saga that is still active. */
  ghost predicate StartedOk(sagas: Sagas, started: multiset<nat>) {
    && (forall r :: r in started ==> r in sagas && started[r] == 1)
    && (forall r :: r in sagas && Active(sagas[r].state) ==> r !in started)
    && (forall r :: r in sagas && (sagas[r].state == Compensating || sagas[r].state == Failed) ==> r in started)
  }

  ghost predicate TaskKeys(tasks: Tasks, nextTask: nat) {
    forall k :: k in tasks ==> k < nextTask
  }

  /** A pending compensation works on a row that is still COMPENSATING, or that a confirmation completed. */
  ghost predicate PendingOk(c: Task, sagas: Sagas, started: multiset<nat>, confirmed: set<nat>)
    requires c.Compensation?
  {
    && c.row in sagas && c.row in started
    && c.saga.subId == sagas[c.row].subId
    && c.saga.repoId == sagas[c.row].repoId
    && (sagas[c.row].state == Compensating || (sagas[c.row].state == Completed && c.saga.subId in confirmed))
  }

  ghost predicate CompensationsOk(tasks: Tasks, sagas: Sagas, started: multiset<nat>, confirmed: set<nat>) {
    && (forall k :: k in tasks && tasks[k].Compensation? ==> PendingOk(tasks[k], sagas, started, confirmed))
    && (forall k, j :: k in tasks && j in tasks && tasks[k].Compensation? && tasks[j].Compensation? && k != j ==>
          tasks[k].row != tasks[j].row)
  }

  ghost predicate RecipientOk(rec: Recipient, created: Subs, confirmed: set<nat>) {
    && rec.subId in confirmed && rec.subId in created
    && rec.email == created[rec.subId].email
    && rec.unsubscribeToken == created[rec.subId].unsubscribeToken
  }

  ghost predicate OtherTasksOk(tasks: Tasks, named: map<nat, string>, created: Subs, confirmed: set<nat>) {
    forall k :: k in tasks ==>
      match tasks[k]
      case ConfirmCommitted(s) => s in confirmed
      case Ensured(name, r) => r in named && named[r] == name
      case FanoutListed(_, _, recs) => forall rec :: rec in recs ==> RecipientOk(rec, created, confirmed)
      case _ => true
  }

  /** Every release row was queued for a subscription that had been confirmed, with its address and token. */
  ghost predicate QueuedOk(outbox: Outbox, queuedFor: map<nat, nat>, created: Subs, confirmed: set<nat>) {
    forall o :: o in outbox && outbox[o].payload.ReleaseDetected? ==>
      && o in queuedFor
      && RecipientOk(Recipient(queuedFor[o], outbox[o].payload.email, outbox[o].payload.unsubscribeToken),
                     created, confirmed)
  }

  /** The payload the saga asked to be mailed: its own id, its subscription's address and stored token. */
  ghost predicate IsRequestOf(p: Payload, g: Saga, created: Subs, named: map<nat, string>) {
    && g.subId in created && g.repoId in named
    && p == ConfirmationRequested(g.sagaId, created[g.subId].email, named[g.repoId], created[g.subId].confirmToken)
  }

  /** Sagas and confirmation rows of the outbox correspond one to one. */
  ghost predicate RequestOk(
    sagas: Sagas, outbox: Outbox, created: Subs, named: map<nat, string>,
    request: map<nat, nat>, requestOf: map<nat, nat>)
  {
    && (forall r :: r in sagas ==>
          && r in request && request[r] in outbox
          && IsRequestOf(outbox[request[r]].payload, sagas[r], created, named)
          && request[r] in requestOf && requestOf[request[r]] == r)
    && (forall o :: o in outbox && outbox[o].payload.ConfirmationRequested? ==>
          && o in requestOf && requestOf[o] in sagas
          && requestOf[o] in request && request[requestOf[o]] == o)
  }

  ghost predicate Inv(w: World) {
    var (t, h) := (w.t, w.h);
    && ReposOk(t.repos, h.named)
    && SubsUnique(t.subs)
    && SubsRefer(t.subs, t.repos)
    && SubsOk(t.subs, h.created, h.confirmed)
    && CreatedOk(h.created, h.named, h.confirmed)
    && SagaIdsUnique(t.sagas)
    && SagasOk(t.sagas, h.created, h.sagaOf)
    && FailedOk(t.sagas, h.failedBy)
    && DeletedOk(t.subs, h.created, h.confirmed, h.failedBy)
    && CompletedOk(t.sagas, t.subs, h.confirmed)
    && AwaitedOk(t.sagas, h.awaited)
    && StartedOk(t.sagas, h.started)
    && TaskKeys(w.tasks, w.nextTask)
    && CompensationsOk(w.tasks, t.sagas, h.started, h.confirmed)
    && OtherTasksOk(w.tasks, h.named, h.created, h.confirmed)
    && QueuedOk(t.outbox, h.queuedFor, h.created, h.confirmed)
    && RequestOk(t.sagas, t.outbox, h.created, h.named, h.request, h.requestOf)
  }

  lemma InitInv()
    ensures Inv(Init)
  {
  }

  // -- How each kind of change keeps the parts it touches

  /** No event but a subscribe changes anything of a saga row besides its state and last error. */
  function WithState(sagas: Sagas, row: nat, state: State, lastError: Option<string>): Sagas
    requires row in sagas
  {
    sagas[row := sagas[row].(state := state, lastError := lastError)]
  }

  lemma WithStateKeepsIdentity(
    sagas: Sagas, row: nat, state: State, lastError: Option<string>, outbox: Outbox, h: History)
    requires row in sagas
    requires SagaIdsUnique(sagas) && SagasOk(sagas, h.created, h.sagaOf)
    requires RequestOk(sagas, outbox, h.created, h.named, h.request, h.requestOf)
    ensures var sagas' := WithState(sagas, row, state, lastError);
      && SagaIdsUnique(sagas') && SagasOk(sagas', h.created, h.sagaOf)
      && RequestOk(sagas', outbox, h.created, h.named, h.request, h.requestOf)
  {
    hide SagaIdsUnique, SagasOk, RequestOk, WithState;
    WithStateKeepsIds(sagas, row, state, lastError, h);
    WithStateKeepsRequests(sagas, row, state, lastError, outbox, h);
  }

  lemma WithStateKeepsIds(sagas: Sagas, row: nat, state: State, lastError: Option<string>, h: History)
    requires row in sagas && SagaIdsUnique(sagas) && SagasOk(sagas, h.created, h.sagaOf)
    ensures var sagas' := WithState(sagas, row, state, lastError);
      SagaIdsUnique(sagas') && SagasOk(sagas', h.created, h.sagaOf)
  {
  }

  lemma WithStateKeepsRequests(
    sagas: Sagas, row: nat, state: State, lastError: Option<string>, outbox: Outbox, h: History)
    requires row in sagas && RequestOk(sagas, outbox, h.created, h.named, h.request, h.requestOf)
    ensures RequestOk(WithState(sagas, row, state, lastError), outbox, h.created, h.named, h.request, h.requestOf)
  {
  }

  lemma AwaitKeeps(sagas: Sagas, row: nat, subs: Subs, tasks: Tasks, h: History)
    requires row in sagas && sagas[row].state == Started
    requires FailedOk(sagas, h.failedBy) && CompletedOk(sagas, subs, h.confirmed)
    requires AwaitedOk(sagas, h.awaited) && StartedOk(sagas, h.started)
    requires CompensationsOk(tasks, sagas, h.started, h.confirmed)
    ensures var sagas' := WithState(sagas, row, AwaitingConfirmation, None);
      && FailedOk(sagas', h.failedBy) && CompletedOk(sagas', subs, h.confirmed)
      && AwaitedOk(sagas', h.awaited + {row}) && StartedOk(sagas', h.started)
      && CompensationsOk(tasks, sagas', h.started, h.confirmed)
  {
    hide FailedOk, CompletedOk, AwaitedOk, StartedOk, CompensationsOk, WithState;
    AwaitKeepsOutcomes(sagas, row, subs, h);
    AwaitKeepsStarts(sagas, row, tasks, h);
  }

  lemma AwaitKeepsOutcomes(sagas: Sagas, row: nat, subs: Subs, h: History)
    requires row in sagas && sagas[row].state == Started
    requires FailedOk(sagas, h.failedBy) && CompletedOk(sagas, subs, h.confirmed)
    ensures var sagas' := WithState(sagas, row, AwaitingConfirmation, None);
      FailedOk(sagas', h.failedBy) && CompletedOk(sagas', subs, h.confirmed)
  {
  }

  lemma AwaitKeepsStarts(sagas: Sagas, row: nat, tasks: Tasks, h: History)
    requires row in sagas && sagas[row].state == Started
    requires AwaitedOk(sagas, h.awaited) && StartedOk(sagas, h.started)
    requires CompensationsOk(tasks, sagas, h.started, h.confirmed)
    ensures var sagas' := WithState(sagas, row, AwaitingConfirmation, None);
      && AwaitedOk(sagas', h.awaited + {row}) && StartedOk(sagas', h.started)
      && CompensationsOk(tasks, sagas', h.started, h.confirmed)
  {
  }

  lemma MarkKeeps(sagas: Sagas, row: nat, lastError: Option<string>, subs: Subs, h: History)
    requires row in sagas && Active(sagas[row].state)
    requires FailedOk(sagas, h.failedBy) && CompletedOk(sagas, subs, h.confirmed)
    requires AwaitedOk(sagas, h.awaited) && StartedOk(sagas, h.started)
    ensures var sagas' := WithState(sagas, row, Compensating, lastError);
      && FailedOk(sagas', h.failedBy) && CompletedOk(sagas', subs, h.confirmed)
      && AwaitedOk(sagas', h.awaited) && StartedOk(sagas', h.started + multiset{row})
  {
  }

  lemma MarkKeepsCompensations(
    sagas: Sagas, row: nat, lastError: Option<string>, tasks: Tasks, k: nat, reason: string, h: History)
    requires row in sagas && Active(sagas[row].state) && k !in tasks
    requires StartedOk(sagas, h.started) && CompensationsOk(tasks, sagas, h.started, h.confirmed)
    ensures CompensationsOk(tasks[k := Compensation(row, sagas[row], reason)],
              WithState(sagas, row, Compensating, lastError), h.started + multiset{row}, h.confirmed)
  {
    assert forall j :: j in tasks && tasks[j].Compensation? ==> tasks[j].row != row;
  }

  lemma CompleteKeeps(sagas: Sagas, row: nat, subs: Subs, h: History)
    requires row in sagas && sagas[row].state != Failed
    requires sagas[row].subId in h.confirmed || sagas[row].subId !in subs
    requires FailedOk(sagas, h.failedBy) && CompletedOk(sagas, subs, h.confirmed)
    requires AwaitedOk(sagas, h.awaited) && StartedOk(sagas, h.started)
    ensures var sagas' := WithState(sagas, row, Completed, None);
      && FailedOk(sagas', h.failedBy) && CompletedOk(sagas', subs, h.confirmed)
      && AwaitedOk(sagas', h.awaited) && StartedOk(sagas', h.started)
  {
  }

  lemma CompleteKeepsCompensations(sagas: Sagas, row: nat, tasks: Tasks, h: History)
    requires row in sagas && CompensationsOk(tasks, sagas, h.started, h.confirmed)
    requires sagas[row].subId in h.confirmed || forall k :: k in tasks && tasks[k].Compensation? ==> tasks[k].row != row
    ensures CompensationsOk(tasks, WithState(sagas, row, Completed, None), h.started, h.confirmed)
  {
  }

  lemma FailKeeps(sagas: Sagas, row: nat, reason: Option<string>, subs: Subs, h: History)
    requires row in sagas && sagas[row].state == Compensating
    requires Unconfirmed(Tables(map[], subs, sagas, map[]), sagas[row].subId)
    requires SagasOk(sagas, h.created, h.sagaOf) && SubsOk(subs, h.created, h.confirmed)
    requires FailedOk(sagas, h.failedBy) && CompletedOk(sagas, subs, h.confirmed)
    requires DeletedOk(subs, h.created, h.confirmed, h.failedBy)
    requires AwaitedOk(sagas, h.awaited) && StartedOk(sagas, h.started)
    ensures var s := sagas[row].subId;
      var (sagas', subs', failedBy') := (WithState(sagas, row, Failed, reason), subs - {s}, h.failedBy[s := row]);
      && FailedOk(sagas', failedBy') && CompletedOk(sagas', subs', h.confirmed)
      && DeletedOk(subs', h.created, h.confirmed, failedBy')
      && AwaitedOk(sagas', h.awaited) && StartedOk(sagas', h.started)
  {
    hide FailedOk, CompletedOk, DeletedOk, AwaitedOk, StartedOk, WithState;
    FailKeepsMarks(sagas, row, reason, h);
    FailKeepsOutcomes(sagas, row, reason, subs, h);
  }

  lemma FailKeepsOutcomes(sagas: Sagas, row: nat, reason: Option<string>, subs: Subs, h: History)
    requires row in sagas && Unconfirmed(Tables(map[], subs, sagas, map[]), sagas[row].subId)
    requires SagasOk(sagas, h.created, h.sagaOf) && SubsOk(subs, h.created, h.confirmed)
    requires FailedOk(sagas, h.failedBy) && CompletedOk(sagas, subs, h.confirmed)
    requires DeletedOk(subs, h.created, h.confirmed, h.failedBy) && sagas[row].state == Compensating
    ensures var s := sagas[row].subId;
      var (sagas', subs', failedBy') := (WithState(sagas, row, Failed, reason), subs - {s}, h.failedBy[s := row]);
      && FailedOk(sagas', failedBy') && CompletedOk(sagas', subs', h.confirmed)
      && DeletedOk(subs', h.created, h.confirmed, failedBy')
  {
    assert forall r :: r in sagas && r != row ==> sagas[r].subId != sagas[row].subId;
  }

  lemma FailKeepsMarks(sagas: Sagas, row: nat, reason: Option<string>, h: History)
    requires row in sagas && sagas[row].state == Compensating
    requires AwaitedOk(sagas, h.awaited) && StartedOk(sagas, h.started)
    ensures var sagas' := WithState(sagas, row, Failed, reason);
      AwaitedOk(sagas', h.awaited) && StartedOk(sagas', h.started)
  {
  }

  lemma FailKeepsCompensations(sagas: Sagas, row: nat, reason: Option<string>, tasks: Tasks, h: History)
    requires row in sagas && CompensationsOk(tasks, sagas, h.started, h.confirmed)
    requires forall k :: k in tasks && tasks[k].Compensation? ==> tasks[k].row != row
    ensures CompensationsOk(tasks, WithState(sagas, row, Failed, reason), h.started, h.confirmed)
  {
  }

  /** Removing subscriptions, by whatever statement, keeps every part about the live ones. */
  lemma RemoveSubsKeeps(subs: Subs, subs': Subs, sagas: Sagas, repos: map<nat, Repo>, h: History)
    requires subs'.Keys <= subs.Keys && forall s :: s in subs' ==> subs'[s] == subs[s]
    requires SubsUnique(subs) && SubsRefer(subs, repos) && SubsOk(subs, h.created, h.confirmed)
    requires DeletedOk(subs, h.created, h.confirmed, h.failedBy) && CompletedOk(sagas, subs, h.confirmed)
    ensures SubsUnique(subs') && SubsRefer(subs', repos) && SubsOk(subs', h.created, h.confirmed)
    ensures DeletedOk(subs', h.created, h.confirmed, h.failedBy) && CompletedOk(sagas, subs', h.confirmed)
  {
  }

  /** Removing a task keeps the parts about tasks; `k` need not be one. */
  lemma FinishKeeps(tasks: Tasks, k: nat, nextTask: nat, sagas: Sagas, h: History)
    requires TaskKeys(tasks, nextTask) && CompensationsOk(tasks, sagas, h.started, h.confirmed)
    requires OtherTasksOk(tasks, h.named, h.created, h.confirmed)
    ensures TaskKeys(tasks - {k}, nextTask) && CompensationsOk(tasks - {k}, sagas, h.started, h.confirmed)
    ensures OtherTasksOk(tasks - {k}, h.named, h.created, h.confirmed)
  {
  }

  /** Setting a task that is no compensation keeps them too. */
  lemma PutTaskKeeps(tasks: Tasks, k: nat, task: Task, nextTask: nat, sagas: Sagas, h: History)
    requires TaskKeys(tasks, nextTask) && CompensationsOk(tasks, sagas, h.started, h.confirmed)
    requires OtherTasksOk(tasks, h.named, h.created, h.confirmed)
    requires !task.Compensation? && OtherTasksOk(map[k := task], h.named, h.created, h.confirmed)
    ensures var next' := if k < nextTask then nextTask else k + 1;
      && TaskKeys(tasks[k := task], next')
      && CompensationsOk(tasks[k := task], sagas, h.started, h.confirmed)
      && OtherTasksOk(tasks[k := task], h.named, h.created, h.confirmed)
  {
    assert map[k := task][k] == task;
  }

  // -- One event keeps the invariant

  lemma EnsureCreateKeepsInv(w: World, k: nat, r: nat)
    requires Inv(w) && Enabled(w, EnsureCreate(k, r)) && !HasName(w.t, w.tasks[k].name)
    ensures Inv(Effect(w, EnsureCreate(k, r)))
  {
    var (name, h) := (w.tasks[k].name, w.h);
    var h' := h.(named := h.named[r := name]);
    NewRepoKeeps(w.t, r, name, w.tasks, h);
    PutTaskKeeps(w.tasks, k, Ensured(name, r), w.nextTask, w.t.sagas, h');
  }

  lemma NewRepoKeeps(t: Tables, r: nat, name: string, tasks: Tasks, h: History)
    requires r !in h.named && !HasName(t, name)
    requires ReposOk(t.repos, h.named) && SubsRefer(t.subs, t.repos) && CreatedOk(h.created, h.named, h.confirmed)
    requires OtherTasksOk(tasks, h.named, h.created, h.confirmed)
    requires SagasOk(t.sagas, h.created, h.sagaOf)
    requires RequestOk(t.sagas, t.outbox, h.created, h.named, h.request, h.requestOf)
    ensures var (repos', named') := (t.repos[r := Repo(name, "")], h.named[r := name]);
      && ReposOk(repos', named') && SubsRefer(t.subs, repos') && CreatedOk(h.created, named', h.confirmed)
      && OtherTasksOk(tasks, named', h.created, h.confirmed)
      && RequestOk(t.sagas, t.outbox, h.created, named', h.request, h.requestOf)
  {
  }

  lemma EmailSentKeepsInv(w: World, row: nat)
    requires Inv(w) && Enabled(w, EmailSent(row))
    ensures Inv(Effect(w, EmailSent(row)))
  {
    WithStateKeepsIdentity(w.t.sagas, row, AwaitingConfirmation, None, w.t.outbox, w.h);
    AwaitKeeps(w.t.sagas, row, w.t.subs, w.tasks, w.h);
  }

  lemma MarkCompensatingKeepsInv(w: World, row: nat, lastError: Option<string>, reason: string)
    requires Inv(w) && row in w.t.sagas && Active(w.t.sagas[row].state)
    ensures Inv(MarkCompensating(w, row, lastError, reason))
  {
    hide ReposOk, SubsUnique, SubsRefer, SubsOk, CreatedOk, SagaIdsUnique, SagasOk, FailedOk,
      DeletedOk, CompletedOk, AwaitedOk, StartedOk, CompensationsOk, QueuedOk, RequestOk;
    WithStateKeepsIdentity(w.t.sagas, row, Compensating, lastError, w.t.outbox, w.h);
    MarkKeeps(w.t.sagas, row, lastError, w.t.subs, w.h);
    assert w.nextTask !in w.tasks;
    MarkKeepsCompensations(w.t.sagas, row, lastError, w.tasks, w.nextTask, reason, w.h);
  }

  lemma {:induction false} MarkAllKeepsInv(w: World, rows: seq<nat>)
    requires Inv(w) && Distinct(rows)
    requires forall r :: r in rows ==> r in w.t.sagas && Active(w.t.sagas[r].state)
    ensures Inv(MarkAll(w, rows))
    decreases |rows|
  {
    hide ReposOk, SubsUnique, SubsRefer, SubsOk, CreatedOk, SagaIdsUnique, SagasOk, FailedOk,
      DeletedOk, CompletedOk, AwaitedOk, StartedOk, TaskKeys, CompensationsOk, OtherTasksOk,
      QueuedOk, RequestOk;
    if rows != [] {
      MarkCompensatingKeepsInv(w, rows[0], None, DeadlineReason);
      MarkAllKeepsInv(MarkCompensating(w, rows[0], None, DeadlineReason), rows[1..]);
    }
  }

  lemma PendingFacts(tasks: Tasks, k: nat, nextTask: nat, sagas: Sagas, h: History)
    requires k in tasks && tasks[k].Compensation?
    requires TaskKeys(tasks, nextTask) && CompensationsOk(tasks, sagas, h.started, h.confirmed)
    ensures k < nextTask && PendingOk(tasks[k], sagas, h.started, h.confirmed)
    ensures forall j :: j in tasks - {k} && (tasks - {k})[j].Compensation? ==> (tasks - {k})[j].row != tasks[k].row
  {
  }

  /** If the compensating DELETE still finds the row, no confirmation has completed the saga. */
  lemma PendingUnconfirmed(t: Tables, c: Task, h: History)
    requires c.Compensation? && PendingOk(c, t.sagas, h.started, h.confirmed)
    requires SubsOk(t.subs, h.created, h.confirmed) && Unconfirmed(t, c.saga.subId)
    ensures t.sagas[c.row].state == Compensating && c.saga.subId == t.sagas[c.row].subId
  {
  }

  /** Otherwise the subscription was confirmed or is gone, and COMPLETED is the state to write. */
  lemma PendingDecided(t: Tables, c: Task, h: History)
    requires c.Compensation? && PendingOk(c, t.sagas, h.started, h.confirmed)
    requires SubsOk(t.subs, h.created, h.confirmed) && !Unconfirmed(t, c.saga.subId)
    ensures t.sagas[c.row].state != Failed
    ensures t.sagas[c.row].subId in h.confirmed || t.sagas[c.row].subId !in t.subs
  {
  }

  lemma TrivialTask(k: nat, task: Task, h: History)
    requires task.EnsureMissed? || task.EnsureConflicted? || task.CleanupCheck? || task.CleanupDelete? || task.UnsubscribeFound?
    ensures OtherTasksOk(map[k := task], h.named, h.created, h.confirmed)
  {
  }

  lemma CompensateKeepsInv(w: World, k: nat)
    requires Inv(w) && Enabled(w, Compensate(k))
    ensures Inv(Effect(w, Compensate(k)))
  {
    hide ReposOk, SubsUnique, SubsRefer, SubsOk, CreatedOk, SagaIdsUnique, SagasOk, FailedOk,
      DeletedOk, CompletedOk, AwaitedOk, StartedOk, TaskKeys, CompensationsOk, OtherTasksOk,
      QueuedOk, RequestOk;
    var (c, t, h) := (w.tasks[k], w.t, w.h);
    PendingFacts(w.tasks, k, w.nextTask, t.sagas, h);
    FinishKeeps(w.tasks, k, w.nextTask, t.sagas, h);
    if Unconfirmed(t, c.saga.subId) {
      PendingUnconfirmed(t, c, h);
      WithStateKeepsIdentity(t.sagas, c.row, Failed, Some(c.reason), t.outbox, h);
      FailKeeps(t.sagas, c.row, Some(c.reason), t.subs, h);
      RemoveSubsKeeps(t.subs, t.subs - {c.saga.subId}, t.sagas, t.repos, h);
      FailKeepsCompensations(t.sagas, c.row, Some(c.reason), w.tasks - {k}, h);
      var sagas' := WithState(t.sagas, c.row, Failed, Some(c.reason));
      TrivialTask(k, CleanupCheck(c.saga.repoId), h);
      PutTaskKeeps(w.tasks - {k}, k, CleanupCheck(c.saga.repoId), w.nextTask, sagas', h);
      assert (w.tasks - {k})[k := CleanupCheck(c.saga.repoId)] == w.tasks[k := CleanupCheck(c.saga.repoId)];
    } else {
      PendingDecided(t, c, h);
      WithStateKeepsIdentity(t.sagas, c.row, Completed, None, t.outbox, h);
      CompleteKeeps(t.sagas, c.row, t.subs, h);
      CompleteKeepsCompensations(t.sagas, c.row, w.tasks - {k}, h);
    }
  }

  lemma CleanupDeleteRepoKeepsInv(w: World, k: nat)
    requires Inv(w) && Enabled(w, CleanupDeleteRepo(k))
    ensures Inv(Effect(w, CleanupDeleteRepo(k)))
  {
    hide SubsUnique, SubsOk, CreatedOk, SagaIdsUnique, SagasOk, FailedOk, DeletedOk, CompletedOk,
      AwaitedOk, StartedOk, TaskKeys, CompensationsOk, OtherTasksOk, QueuedOk, RequestOk;
    var t' := DeleteRepo(w.t, w.tasks[k].repoId);
    RemoveSubsKeeps(w.t.subs, t'.subs, w.t.sagas, w.t.repos, w.h);
    FinishKeeps(w.tasks, k, w.nextTask, w.t.sagas, w.h);
  }

  lemma ConfirmKeepsInv(w: World, s: nat)
    requires Inv(w) && Enabled(w, Confirm(s))
    ensures Inv(Effect(w, Confirm(s)))
  {
    hide ReposOk, SubsUnique, SubsRefer, SubsOk, CreatedOk, SagaIdsUnique, SagasOk, FailedOk,
      DeletedOk, CompletedOk, AwaitedOk, StartedOk, TaskKeys, CompensationsOk, QueuedOk, RequestOk;
    var h' := w.h.(confirmed := w.h.confirmed + {s});
    ConfirmKeepsSubs(w.t, s, w.h);
    ConfirmKeepsTasks(w.t, s, w.tasks, w.h);
    PutTaskKeeps(w.tasks, w.nextTask, ConfirmCommitted(s), w.nextTask, w.t.sagas, h');
  }

  lemma ConfirmKeepsSubs(t: Tables, s: nat, h: History)
    requires s in t.subs && SubsUnique(t.subs) && SubsRefer(t.subs, t.repos) && SubsOk(t.subs, h.created, h.confirmed)
    requires CreatedOk(h.created, h.named, h.confirmed) && DeletedOk(t.subs, h.created, h.confirmed, h.failedBy)
    requires CompletedOk(t.sagas, t.subs, h.confirmed)
    ensures var (subs', confirmed') := (ConfirmSub(t, s).subs, h.confirmed + {s});
      && SubsUnique(subs') && SubsRefer(subs', t.repos) && SubsOk(subs', h.created, confirmed')
      && CreatedOk(h.created, h.named, confirmed') && DeletedOk(subs', h.created, confirmed', h.failedBy)
      && CompletedOk(t.sagas, subs', confirmed')
  {
  }

  lemma ConfirmKeepsTasks(t: Tables, s: nat, tasks: Tasks, h: History)
    requires CompensationsOk(tasks, t.sagas, h.started, h.confirmed)
    requires OtherTasksOk(tasks, h.named, h.created, h.confirmed)
    requires QueuedOk(t.outbox, h.queuedFor, h.created, h.confirmed)
    ensures var confirmed' := h.confirmed + {s};
      && CompensationsOk(tasks, t.sagas, h.started, confirmed')
      && OtherTasksOk(tasks, h.named, h.created, confirmed')
      && QueuedOk(t.outbox, h.queuedFor, h.created, confirmed')
  {
  }

  lemma HandleConfirmedKeepsInv(w: World, k: nat, row: nat)
    requires Inv(w) && Enabled(w, HandleConfirmed(k, row))
    ensures Inv(Effect(w, HandleConfirmed(k, row)))
  {
    hide ReposOk, SubsUnique, SubsRefer, SubsOk, CreatedOk, SagaIdsUnique, SagasOk, FailedOk,
      DeletedOk, CompletedOk, AwaitedOk, StartedOk, TaskKeys, CompensationsOk, QueuedOk, RequestOk;
    FinishKeeps(w.tasks, k, w.nextTask, w.t.sagas, w.h);
    if !Terminal(w.t.sagas[row].state) {
      WithStateKeepsIdentity(w.t.sagas, row, Completed, None, w.t.outbox, w.h);
      CompleteKeeps(w.t.sagas, row, w.t.subs, w.h);
      CompleteKeepsCompensations(w.t.sagas, row, w.tasks - {k}, w.h);
    }
  }

  lemma UnsubscribeDeleteKeepsInv(w: World, k: nat)
    requires Inv(w) && Enabled(w, UnsubscribeDelete(k))
    ensures Inv(Effect(w, UnsubscribeDelete(k)))
  {
    hide ReposOk, SubsUnique, SubsRefer, SubsOk, CreatedOk, SagaIdsUnique, SagasOk, FailedOk,
      DeletedOk, CompletedOk, AwaitedOk, StartedOk, CompensationsOk, QueuedOk, RequestOk;
    var c := w.tasks[k];
    UnsubscribeKeepsTasks(w.tasks, k, w.nextTask, w.t.sagas, w.h);
    hide TaskKeys, OtherTasksOk;
    RemoveSubsKeeps(w.t.subs, DeleteByUnsubscribeToken(w.t, c.token).subs, w.t.sagas, w.t.repos, w.h);
  }

  lemma UnsubscribeKeepsTasks(tasks: Tasks, k: nat, nextTask: nat, sagas: Sagas, h: History)
    requires k in tasks && tasks[k].UnsubscribeFound?
    requires TaskKeys(tasks, nextTask) && CompensationsOk(tasks, sagas, h.started, h.confirmed)
    requires OtherTasksOk(tasks, h.named, h.created, h.confirmed)
    ensures var (done, check) := (tasks - {k}, tasks[k := CleanupCheck(tasks[k].repoId)]);
      && TaskKeys(done, nextTask) && CompensationsOk(done, sagas, h.started, h.confirmed)
      && OtherTasksOk(done, h.named, h.created, h.confirmed)
      && TaskKeys(check, nextTask) && CompensationsOk(check, sagas, h.started, h.confirmed)
      && OtherTasksOk(check, h.named, h.created, h.confirmed)
  {
    hide CompensationsOk;
    FinishKeeps(tasks, k, nextTask, sagas, h);
    PutTaskKeeps(tasks, k, CleanupCheck(tasks[k].repoId), nextTask, sagas, h);
  }

  lemma PublishKeepsInv(w: World, ids: set<nat>)
    requires Inv(w)
    ensures Inv(Effect(w, Publish(ids)))
  {
    PublishKeeps(w.t, ids, w.h);
  }

  lemma PublishKeeps(t: Tables, ids: set<nat>, h: History)
    requires QueuedOk(t.outbox, h.queuedFor, h.created, h.confirmed)
    requires RequestOk(t.sagas, t.outbox, h.created, h.named, h.request, h.requestOf)
    ensures var outbox' := MarkPublished(t, ids).outbox;
      && QueuedOk(outbox', h.queuedFor, h.created, h.confirmed)
      && RequestOk(t.sagas, outbox', h.created, h.named, h.request, h.requestOf)
  {
  }

  lemma SubscribeKeepsInv(w: World, k: nat, sagaId: string, sub: Sub, deadline: nat, subId: nat, row: nat, out: nat)
    requires Inv(w) && Enabled(w, Subscribe(k, sagaId, sub, deadline, subId, row, out))
    ensures Inv(SubscribeEffect(w, k, sagaId, sub, deadline, subId, row, out))
  {
    FinishKeeps(w.tasks, k, w.nextTask, w.t.sagas, w.h);
    assert OtherTasksOk(w.tasks, w.h.named, w.h.created, w.h.confirmed);
    NewSubKeeps(w.t, sub, subId, w.tasks - {k}, w.h);
    var g := Saga(sagaId, subId, sub.repoId, sub.email, Started, deadline, None);
    NewSagaKeepsIdentity(w.t, g, sub, row, w.h);
    NewSagaKeepsOutcome(w.t, g, sub, row, w.tasks - {k}, w.h);
    NewRequestKeeps(w.t, g, sub, row, out, w.h);
  }

  lemma NewSubKeeps(t: Tables, sub: Sub, subId: nat, tasks: Tasks, h: History)
    requires subId !in h.created && !sub.confirmed && sub.repoId in t.repos
    requires !DuplicateSubscription(t, sub) && !DuplicateToken(t, sub)
    requires ReposOk(t.repos, h.named)
    requires SubsUnique(t.subs) && SubsRefer(t.subs, t.repos) && SubsOk(t.subs, h.created, h.confirmed)
    requires CreatedOk(h.created, h.named, h.confirmed) && DeletedOk(t.subs, h.created, h.confirmed, h.failedBy)
    requires OtherTasksOk(tasks, h.named, h.created, h.confirmed)
    requires QueuedOk(t.outbox, h.queuedFor, h.created, h.confirmed)
    ensures var (subs', created') := (t.subs[subId := sub], h.created[subId := sub]);
      && SubsUnique(subs') && SubsRefer(subs', t.repos) && SubsOk(subs', created', h.confirmed)
      && CreatedOk(created', h.named, h.confirmed) && DeletedOk(subs', created', h.confirmed, h.failedBy)
      && OtherTasksOk(tasks, h.named, created', h.confirmed)
      && QueuedOk(t.outbox, h.queuedFor, created', h.confirmed)
  {
  }

  lemma NewSagaKeepsIdentity(t: Tables, g: Saga, sub: Sub, row: nat, h: History)
    requires row !in t.sagas && g.subId !in h.created
    requires g.email == sub.email && g.repoId == sub.repoId && !DuplicateSagaId(t, g.sagaId)
    requires SagaIdsUnique(t.sagas) && SagasOk(t.sagas, h.created, h.sagaOf)
    ensures SagaIdsUnique(t.sagas[row := g])
    ensures SagasOk(t.sagas[row := g], h.created[g.subId := sub], h.sagaOf[g.subId := row])
  {
  }

  lemma NewSagaKeepsOutcome(t: Tables, g: Saga, sub: Sub, row: nat, tasks: Tasks, h: History)
    requires row !in t.sagas && g.subId !in h.created && g.state == Started
    requires SagasOk(t.sagas, h.created, h.sagaOf)
    requires FailedOk(t.sagas, h.failedBy) && CompletedOk(t.sagas, t.subs, h.confirmed)
    requires AwaitedOk(t.sagas, h.awaited) && StartedOk(t.sagas, h.started)
    requires CompensationsOk(tasks, t.sagas, h.started, h.confirmed)
    ensures var (sagas', subs') := (t.sagas[row := g], t.subs[g.subId := sub]);
      && FailedOk(sagas', h.failedBy) && CompletedOk(sagas', subs', h.confirmed)
      && AwaitedOk(sagas', h.awaited) && StartedOk(sagas', h.started)
      && CompensationsOk(tasks, sagas', h.started, h.confirmed)
  {
    hide CompensationsOk;
    NewSagaKeepsCompensations(t.sagas, g, row, tasks, h);
    NewSagaKeepsMarks(t.sagas, g, row, h);
    hide AwaitedOk, StartedOk;
  }

  lemma NewSagaKeepsMarks(sagas: Sagas, g: Saga, row: nat, h: History)
    requires row !in sagas && g.state == Started && AwaitedOk(sagas, h.awaited) && StartedOk(sagas, h.started)
    ensures AwaitedOk(sagas[row := g], h.awaited) && StartedOk(sagas[row := g], h.started)
  {
  }

  lemma NewSagaKeepsCompensations(sagas: Sagas, g: Saga, row: nat, tasks: Tasks, h: History)
    requires row !in sagas && CompensationsOk(tasks, sagas, h.started, h.confirmed)
    ensures CompensationsOk(tasks, sagas[row := g], h.started, h.confirmed)
  {
  }

  lemma NewRequestKeeps(t: Tables, g: Saga, sub: Sub, row: nat, out: nat, h: History)
    requires row !in t.sagas && out !in t.outbox && g.subId !in h.created
    requires g.repoId == sub.repoId && g.repoId in h.named
    requires SagasOk(t.sagas, h.created, h.sagaOf)
    requires RequestOk(t.sagas, t.outbox, h.created, h.named, h.request, h.requestOf)
    ensures RequestOk(
      t.sagas[row := g],
      t.outbox[out := OutboxRow(ConfirmationRequested(g.sagaId, sub.email, h.named[g.repoId], sub.confirmToken), false)],
      h.created[g.subId := sub], h.named, h.request[row := out], h.requestOf[out := row])
  {
  }

  lemma QueueReleaseKeepsInv(w: World, out: nat, release: Release, rec: Recipient)
    requires Inv(w) && out !in w.t.outbox && RecipientOk(rec, w.h.created, w.h.confirmed)
    ensures Inv(QueueRelease(w, out, release, rec))
  {
    NewReleaseKeeps(w.t, out, release, rec, w.h);
  }

  lemma NewReleaseKeeps(t: Tables, out: nat, release: Release, rec: Recipient, h: History)
    requires out !in t.outbox && RecipientOk(rec, h.created, h.confirmed)
    requires QueuedOk(t.outbox, h.queuedFor, h.created, h.confirmed)
    requires RequestOk(t.sagas, t.outbox, h.created, h.named, h.request, h.requestOf)
    ensures var outbox' := InsertOutbox(t, out, ReleaseDetected(rec.email, rec.unsubscribeToken, release)).outbox;
      && QueuedOk(outbox', h.queuedFor[out := rec.subId], h.created, h.confirmed)
      && RequestOk(t.sagas, outbox', h.created, h.named, h.request, h.requestOf)
  {
    assert rec == Recipient(rec.subId, rec.email, rec.unsubscribeToken);
  }

  lemma {:induction false} QueueReleasesKeepsInv(w: World, outs: seq<nat>, release: Release, recs: seq<Recipient>)
    requires Inv(w) && |outs| == |recs| && Distinct(outs)
    requires forall o :: o in outs ==> o !in w.t.outbox
    requires forall rec :: rec in recs ==> RecipientOk(rec, w.h.created, w.h.confirmed)
    ensures Inv(QueueReleases(w, outs, release, recs))
    decreases |recs|
  {
    hide ReposOk, SubsUnique, SubsRefer, SubsOk, CreatedOk, SagaIdsUnique, SagasOk, FailedOk,
      DeletedOk, CompletedOk, AwaitedOk, StartedOk, TaskKeys, CompensationsOk, OtherTasksOk,
      QueuedOk, RequestOk;
    if recs != [] {
      QueueReleaseKeepsInv(w, outs[0], release, recs[0]);
      QueueReleasesKeepsInv(QueueRelease(w, outs[0], release, recs[0]), outs[1..], release, recs[1..]);
    }
  }

  lemma FanoutCommitKeepsInv(w: World, k: nat, outs: seq<nat>)
    requires Inv(w) && Enabled(w, FanoutCommit(k, outs))
    ensures Inv(Effect(w, FanoutCommit(k, outs)))
  {
    hide ReposOk, SubsUnique, SubsRefer, SubsOk, CreatedOk, SagaIdsUnique, SagasOk, FailedOk,
      DeletedOk, CompletedOk, AwaitedOk, StartedOk, TaskKeys, CompensationsOk, QueuedOk, RequestOk;
    var c := w.tasks[k];
    var w' := Finish(w, k).(t := SetLastSeenTag(w.t, c.repoId, c.release.tag));
    FinishKeeps(w.tasks, k, w.nextTask, w.t.sagas, w.h);
    TagKeeps(w.t, c.repoId, c.release.tag, w.h);
    assert Inv(w');
    QueueReleasesKeepsInv(w', outs, c.release, c.recipients);
  }

  lemma TagKeeps(t: Tables, repoId: nat, tag: string, h: History)
    requires ReposOk(t.repos, h.named) && SubsRefer(t.subs, t.repos)
    ensures var repos' := SetLastSeenTag(t, repoId, tag).repos;
      ReposOk(repos', h.named) && SubsRefer(t.subs, repos')
  {
  }

  lemma DropKeepsInv(w: World, k: nat)
    requires Inv(w)
    ensures Inv(Finish(w, k))
  {
    FinishKeeps(w.tasks, k, w.nextTask, w.t.sagas, w.h);
  }

  /** Events that only set a task: the reads of Ensure, Unsubscribe and the fan-out, and the orphan check. */
  lemma PutTaskKeepsInv(w: World, k: nat, task: Task)
    requires Inv(w) && !task.Compensation? && OtherTasksOk(map[k := task], w.h.named, w.h.created, w.h.confirmed)
    ensures k in w.tasks ==> Inv(Become(w, k, task))
    ensures k == w.nextTask ==> Inv(Spawn(w, task))
  {
    PutTaskKeeps(w.tasks, k, task, w.nextTask, w.t.sagas, w.h);
  }

  lemma FanoutListKeepsInv(w: World, repoId: nat, release: Release, subIds: seq<nat>)
    requires Inv(w) && Enabled(w, FanoutList(repoId, release, subIds))
    ensures Inv(Effect(w, FanoutList(repoId, release, subIds)))
  {
    var recs := seq(|subIds|, i requires 0 <= i < |subIds| => RecipientOf(w.t, subIds[i]));
    forall rec | rec in recs ensures RecipientOk(rec, w.h.created, w.h.confirmed) {
      var i :| 0 <= i < |recs| && recs[i] == rec;
      assert subIds[i] in subIds;
    }
    PutTaskKeepsInv(w, w.nextTask, FanoutListed(repoId, release, recs));
  }

  lemma TickKeepsInv(w: World, to: nat)
    requires Inv(w)
    ensures Inv(w.(now := to))
  {
  }

  lemma FoundTask(w: World, k: nat, name: string, r: nat)
    requires Inv(w) && r in w.t.repos && w.t.repos[r].name == name
    ensures OtherTasksOk(map[k := Ensured(name, r)], w.h.named, w.h.created, w.h.confirmed)
  {
  }

  /** Steps that only move an operation on keep the invariant because what they remember is true when they read it. */
  lemma QuietKeepsInv(w: World, e: Event)
    requires Inv(w) && Enabled(w, e) && Quiet(e)
    ensures Inv(Effect(w, e))
  {
    hide Inv, HasName, HasAny, ListsConfirmed;
    match e
    case Drop(k) => DropKeepsInv(w, k);
    case EnsureFind(name, r) =>
      FoundTask(w, w.nextTask, name, r);
      PutTaskKeepsInv(w, w.nextTask, Ensured(name, r));
    case EnsureMiss(name) =>
      TrivialTask(w.nextTask, EnsureMissed(name), w.h);
      PutTaskKeepsInv(w, w.nextTask, EnsureMissed(name));
    case EnsureFindAgain(k, r) =>
      FoundTask(w, k, w.tasks[k].name, r);
      PutTaskKeepsInv(w, k, Ensured(w.tasks[k].name, r));
    case CleanupHasAny(k) =>
      DropKeepsInv(w, k);
      TrivialTask(k, CleanupDelete(w.tasks[k].repoId), w.h);
      PutTaskKeepsInv(w, k, CleanupDelete(w.tasks[k].repoId));
    case UnsubscribeFind(s) =>
      TrivialTask(w.nextTask, UnsubscribeFound(w.t.subs[s].unsubscribeToken, w.t.subs[s].repoId), w.h);
      PutTaskKeepsInv(w, w.nextTask, UnsubscribeFound(w.t.subs[s].unsubscribeToken, w.t.subs[s].repoId));
    case FanoutList(r, release, subIds) => FanoutListKeepsInv(w, r, release, subIds);
  }

  lemma EventKeepsInv(w: World, e: Event)
    requires Inv(w)
    ensures Inv(Next(w, e))
  {
    hide Inv;
    if Enabled(w, e) {
      if Quiet(e) {
        QuietKeepsInv(w, e);
        hide Effect;
      } else {
        match e
        case Tick(to) => TickKeepsInv(w, to);
        case EnsureCreate(k, r) =>
          if HasName(w.t, w.tasks[k].name) {
            TrivialTask(k, EnsureConflicted(w.tasks[k].name), w.h);
            PutTaskKeepsInv(w, k, EnsureConflicted(w.tasks[k].name));
          } else {
            EnsureCreateKeepsInv(w, k, r);
          }
        case Subscribe(k, sagaId, sub, deadline, subId, row, out) =>
          SubscribeKeepsInv(w, k, sagaId, sub, deadline, subId, row, out);
        case EmailSent(row) => EmailSentKeepsInv(w, row);
        case EmailFailed(row, reason) => MarkCompensatingKeepsInv(w, row, Some(reason), reason);
        case Reap(rows) => MarkAllKeepsInv(w, rows);
        case Compensate(k) => CompensateKeepsInv(w, k);
        case CleanupDeleteRepo(k) => CleanupDeleteRepoKeepsInv(w, k);
        case Confirm(s) => ConfirmKeepsInv(w, s);
        case HandleConfirmed(k, row) => HandleConfirmedKeepsInv(w, k, row);
        case UnsubscribeDelete(k) => UnsubscribeDeleteKeepsInv(w, k);
        case FanoutCommit(k, outs) => FanoutCommitKeepsInv(w, k, outs);
        case Publish(ids) => PublishKeepsInv(w, ids);
      }
    }
  }

  lemma {:induction false} RunKeepsInv(w: World, es: seq<Event>)
    requires Inv(w)
    ensures Inv(Run(w, es))
    decreases |es|
  {
    if es != [] {
      EventKeepsInv(w, es[0]);
      RunKeepsInv(Next(w, es[0]), es[1..]);
    }
  }
}
