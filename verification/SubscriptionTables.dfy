/**
 The tables of the subscription service and the effect of each SQL statement on them.
 A statement's effect is a function on `Tables`; the unique keys of the schema are the predicates at the end.
 */
module SubscriptionTables {
  import opened Prelude

  datatype Repo = Repo(name: string, lastSeenTag: string)

  datatype Sub = Sub(email: string, repoId: nat, confirmed: bool, confirmToken: string, unsubscribeToken: string)

  datatype State = Started | AwaitingConfirmation | Completed | Compensating | Failed

  datatype Saga = Saga(
    sagaId: string, subId: nat, repoId: nat, email: string,
    state: State, deadline: nat, lastError: Option<string>)

  datatype Release = Release(tag: string, name: string, url: string)

  datatype Payload =
    | ConfirmationRequested(sagaId: string, email: string, repoName: string, confirmToken: string)
    | ReleaseDetected(email: string, unsubscribeToken: string, release: Release)

  datatype OutboxRow = OutboxRow(payload: Payload, published: bool)

  /** Every table maps the BIGSERIAL id of a row to the row. */
  datatype Tables = Tables(
    repos: map<nat, Repo>,
    subs: map<nat, Sub>,
    sagas: map<nat, Saga>,
    outbox: map<nat, OutboxRow>)

  predicate Active(s: State) {
    s.Started? || s.AwaitingConfirmation?
  }

  predicate Terminal(s: State) {
    s.Completed? || s.Failed?
  }

  /** The WHERE clause of the reaper's query. */
  predicate Expired(t: Tables, now: nat, row: nat) {
    row in t.sagas && Active(t.sagas[row].state) && t.sagas[row].deadline < now
  }

  /** The subscription row the compensating DELETE matches. */
  predicate Unconfirmed(t: Tables, subId: nat) {
    subId in t.subs && !t.subs[subId].confirmed
  }

  predicate HasAny(t: Tables, repoId: nat) {
    exists s :: s in t.subs && t.subs[s].repoId == repoId
  }

  predicate HasName(t: Tables, name: string) {
    exists r :: r in t.repos && t.repos[r].name == name
  }

  function SetState(t: Tables, row: nat, state: State, lastError: Option<string>): Tables {
    if row in t.sagas
    then t.(sagas := t.sagas[row := t.sagas[row].(state := state, lastError := lastError)])
    else t
  }

  function DeleteUnconfirmed(t: Tables, subId: nat): Tables {
    if Unconfirmed(t, subId) then t.(subs := t.subs - {subId}) else t
  }

  function ConfirmSub(t: Tables, subId: nat): Tables
    requires subId in t.subs
  {
    t.(subs := t.subs[subId := t.subs[subId].(confirmed := true)])
  }

  function DeleteByUnsubscribeToken(t: Tables, token: string): Tables {
    t.(subs := map s | s in t.subs && t.subs[s].unsubscribeToken != token :: t.subs[s])
  }

  /** ON DELETE CASCADE removes every subscription that references the repository. */
  function DeleteRepo(t: Tables, repoId: nat): Tables {
    t.(repos := t.repos - {repoId},
       subs := map s | s in t.subs && t.subs[s].repoId != repoId :: t.subs[s])
  }

  function SetLastSeenTag(t: Tables, repoId: nat, tag: string): Tables {
    if repoId in t.repos
    then t.(repos := t.repos[repoId := t.repos[repoId].(lastSeenTag := tag)])
    else t
  }

  function InsertOutbox(t: Tables, id: nat, payload: Payload): Tables {
    t.(outbox := t.outbox[id := OutboxRow(payload, false)])
  }

  function MarkPublished(t: Tables, ids: set<nat>): Tables {
    t.(outbox := map o | o in t.outbox ::
         if o in ids then t.outbox[o].(published := true) else t.outbox[o])
  }

  /** What a unique or foreign key says about a new subscription. */
  predicate DuplicateSubscription(t: Tables, sub: Sub) {
    exists s :: s in t.subs && t.subs[s].email == sub.email && t.subs[s].repoId == sub.repoId
  }

  predicate DuplicateToken(t: Tables, sub: Sub) {
    exists s :: s in t.subs &&
      (t.subs[s].confirmToken == sub.confirmToken || t.subs[s].unsubscribeToken == sub.unsubscribeToken)
  }

  predicate DuplicateSagaId(t: Tables, sagaId: string) {
    exists r :: r in t.sagas && t.sagas[r].sagaId == sagaId
  }
}
