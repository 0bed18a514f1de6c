/**
 What each operation of the subscription service leaves in its tables when nothing fails and nobody interferes, row by
 row. These are the promises of the use cases; the methods are proved to keep them.
 */
module Outcomes {
  import opened Prelude
  import opened SubscriptionTables

  /** A repository stays as long as a subscription refers to it. */
  predicate Tidied(t: Tables, t': Tables, repoId: nat) {
    t'.repos == if exists s :: s in t'.subs && t'.subs[s].repoId == repoId then t.repos else t.repos - {repoId}
  }

  predicate HasSaga(t: Tables, sagaId: string) {
    exists r :: r in t.sagas && t.sagas[r].sagaId == sagaId
  }

  predicate HasConfirmToken(t: Tables, token: string) {
    exists s :: s in t.subs && t.subs[s].confirmToken == token
  }

  predicate HasUnsubscribeToken(t: Tables, token: string) {
    exists s :: s in t.subs && t.subs[s].unsubscribeToken == token
  }

  /** EmailSent for the saga in row `r`. */
  predicate Sent(t: Tables, t': Tables, r: nat) {
    && r in t.sagas
    && t' == if t.sagas[r].state == Started
             then t.(sagas := t.sagas[r := t.sagas[r].(state := AwaitingConfirmation, lastError := None)])
             else t
  }

  /** A compensation: the pending subscription and its orphaned repository are gone, or there was none to undo. */
  predicate Undone(t: Tables, t': Tables, r: nat, reason: string) {
    && r in t.sagas
    && var g := t.sagas[r];
      if g.subId in t.subs && !t.subs[g.subId].confirmed then
        && t'.sagas == t.sagas[r := g.(state := Failed, lastError := Some(reason))]
        && t'.subs == t.subs - {g.subId}
        && Tidied(t, t', g.repoId)
        && t'.outbox == t.outbox
      else
        t' == t.(sagas := t.sagas[r := g.(state := Completed, lastError := None)])
  }

  /** EmailFailed for the saga in row `r`. */
  predicate NotSent(t: Tables, t': Tables, r: nat, reason: string) {
    && r in t.sagas
    && if t.sagas[r].state == Started || t.sagas[r].state == AwaitingConfirmation then Undone(t, t', r, reason) else t' == t
  }

  /** The saga of subscription `s`, in row `r`, is completed unless it has ended. */
  predicate Concluded(t: Tables, t': Tables, s: nat, r: nat) {
    && r in t.sagas && t.sagas[r].subId == s
    && var g := t.sagas[r];
      t' == if g.state == Completed || g.state == Failed then t
            else t.(sagas := t.sagas[r := g.(state := Completed, lastError := None)])
  }

  /** A confirmation of subscription `s`, whose saga is in row `r`. */
  predicate Confirmed(t: Tables, t': Tables, s: nat, r: nat) {
    s in t.subs && Concluded(t.(subs := t.subs[s := t.subs[s].(confirmed := true)]), t', s, r)
  }

  predicate Unsubscribed(t: Tables, t': Tables, s: nat) {
    && s in t.subs
    && t'.subs == t.subs - {s}
    && Tidied(t, t', t.subs[s].repoId)
    && t'.sagas == t.sagas && t'.outbox == t.outbox
  }

  /** Row `r` is the repository of that name, old or new. */
  predicate Cataloged(t: Tables, t': Tables, name: string, r: nat) {
    if r in t.repos then t' == t && t.repos[r].name == name
    else t' == t.(repos := t.repos[r := Repo(name, "")]) && forall q :: q in t.repos ==> t.repos[q].name != name
  }

  predicate TokensFree(t: Tables, confirmToken: string, unsubscribeToken: string) {
    forall s :: s in t.subs ==>
      t.subs[s].confirmToken != confirmToken && t.subs[s].unsubscribeToken != unsubscribeToken
  }

  /** What an insert of a pending subscription and its saga needs. */
  predicate Subscribable(t: Tables, email: string, repoId: nat, sagaId: string) {
    && repoId in t.repos
    && (forall s :: s in t.subs ==> t.subs[s].email != email || t.subs[s].repoId != repoId)
    && (forall r :: r in t.sagas ==> t.sagas[r].sagaId != sagaId)
  }

  /** The address already holds a subscription to the repository. */
  predicate HoldsOne(t: Tables, email: string, repoId: nat) {
    repoId in t.repos && exists s :: s in t.subs && t.subs[s].email == email && t.subs[s].repoId == repoId
  }

  /** A new pending subscription `s`, its saga in row `r` and its confirmation mail in row `o`. */
  predicate Subscribed(t: Tables, t': Tables, sub: Sub, repoName: string, sagaId: string, deadline: nat, s: nat, r: nat, o: nat) {
    && s !in t.subs && r !in t.sagas && o !in t.outbox
    && t' == t.(
         subs := t.subs[s := sub],
         sagas := t.sagas[r := Saga(sagaId, s, sub.repoId, sub.email, Started, deadline, None)],
         outbox := t.outbox[o := OutboxRow(ConfirmationRequested(sagaId, sub.email, repoName, sub.confirmToken), false)])
  }

  /** A release reached the fan-out: one pending mail for each confirmed subscription, and the tag is remembered. */
  ghost predicate FannedOut(t: Tables, t': Tables, repoId: nat, release: Release, subIds: seq<nat>, outs: seq<nat>) {
    && (forall i, j :: 0 <= i < j < |subIds| ==> subIds[i] != subIds[j])
    && (forall s :: s in subIds <==> s in t.subs && t.subs[s].repoId == repoId && t.subs[s].confirmed)
    && |outs| == |subIds| && (forall i, j :: 0 <= i < j < |outs| ==> outs[i] != outs[j])
    && (forall o :: o in outs ==> o !in t.outbox)
    && t'.outbox.Keys == t.outbox.Keys + (set o | o in outs)
    && (forall o :: o in t.outbox ==> t'.outbox[o] == t.outbox[o])
    && (forall i :: 0 <= i < |outs| ==>
          && subIds[i] in t.subs && outs[i] in t'.outbox
          && t'.outbox[outs[i]] ==
               OutboxRow(ReleaseDetected(t.subs[subIds[i]].email, t.subs[subIds[i]].unsubscribeToken, release), false))
    && t'.repos == (if repoId in t.repos then t.repos[repoId := t.repos[repoId].(lastSeenTag := release.tag)] else t.repos)
    && t'.subs == t.subs && t'.sagas == t.sagas
  }
}
