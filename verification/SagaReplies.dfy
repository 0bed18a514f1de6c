/** The saga reply consumer: dispatch by subject, acknowledge or ask for redelivery, and why redelivery is harmless. */
module SagaReplies {
  import opened Prelude
  import opened SubscriptionTables
  import opened SagaProtocol
  import opened SagaSafety
  import opened Interleaving
  import opened SubscriptionService
  import opened SagaOrchestrator
  import Outcomes

  datatype Reply =
    | SentReply(sagaId: string)
    | FailedReply(sagaId: string, reason: string)
    | UnreadableReply
    | UnknownReply

  /** What a reply does, undisturbed: the outcome of its saga if it names one, and nothing otherwise. */
  predicate Answered(t: Tables, t': Tables, m: Reply, row: nat) {
    if (m.SentReply? || m.FailedReply?) && Outcomes.HasSaga(t, m.sagaId) then
      && row in t.sagas && t.sagas[row].sagaId == m.sagaId
      && (if m.SentReply? then Outcomes.Sent(t, t', row) else Outcomes.NotSent(t, t', row, m.reason))
    else t' == t
  }

  class ReplyConsumer {
    const db: Database
    const orchestrator: Orchestrator

    constructor (orchestrator: Orchestrator)
      ensures this.orchestrator == orchestrator && db == orchestrator.db
    {
      this.orchestrator := orchestrator;
      db := orchestrator.db;
    }

    /** A reply nobody can read is dropped as handled; the others go to the orchestrator. */
    method Handle(m: Reply) returns (err: Err, ghost row: nat, ghost trace: seq<Event>)
      requires db == orchestrator.db && db.Valid()
      modifies db
      ensures db.Valid() && db.W() == Run(old(db.W()), trace)
      ensures m.UnreadableReply? || m.UnknownReply? ==> err == Ok && trace == []
      ensures (m.SentReply? || m.FailedReply?) && err == Ok ==>
        row in old(db.tables).sagas && old(db.tables).sagas[row].sagaId == m.sagaId
      ensures m.SentReply? && err == Ok ==> trace == [EmailSent(row)]
      ensures m.FailedReply? && trace != [] ==> trace[0] == EmailFailed(row, m.reason)
      ensures m.FailedReply? && err == Ok ==> (trace == [] <==> !Active(old(db.tables).sagas[row].state))
      ensures m.FailedReply? && err == Ok && trace != [] ==> Compensated(Own(trace[1..], old(db.nextTask)), old(db.nextTask))
      ensures err == NotFound ==> trace == [] && (m.SentReply? || m.FailedReply?) && !DuplicateSagaId(db.tables, m.sagaId)
      ensures db.calm ==> (err == Ok <==> m.UnreadableReply? || m.UnknownReply? || Outcomes.HasSaga(old(db.tables), m.sagaId))
      ensures db.calm ==> Answered(old(db.tables), db.tables, m, row)
    {
      hide Inv, Next, Enabled, Own, DuplicateSagaId, Compensated, NotCompensated;
      ghost var w := db.W();
      EmptyTrace(w);
      err, row, trace := Ok, 0, [];
      match m {
        case SentReply(sagaId) =>
          err, row := orchestrator.HandleEmailSent(sagaId);
          OneEvent(w, EmailSent(row));
          if db.W() != w || err == Ok {
            trace := [EmailSent(row)];
          }
        case FailedReply(sagaId, reason) =>
          var failedRow;
          err, failedRow, trace := orchestrator.HandleEmailFailed(sagaId, reason);
          row := failedRow;
        case UnreadableReply =>
        case UnknownReply =>
      }
    }

    /** The delivery callback: acknowledged exactly when handling returned no error, else asked for again. */
    method OnMessage(m: Reply) returns (acked: bool, ghost row: nat, ghost trace: seq<Event>)
      requires db == orchestrator.db && db.Valid()
      modifies db
      ensures db.Valid() && db.W() == Run(old(db.W()), trace)
      ensures m.UnreadableReply? || m.UnknownReply? ==> acked && trace == []
      ensures m.SentReply? && acked ==>
        && row in old(db.tables).sagas && old(db.tables).sagas[row].sagaId == m.sagaId
        && trace == [EmailSent(row)]
      ensures m.FailedReply? && acked ==>
        && row in old(db.tables).sagas && old(db.tables).sagas[row].sagaId == m.sagaId
        && (trace == [] <==> !Active(old(db.tables).sagas[row].state))
      ensures m.FailedReply? && acked && trace != [] ==>
        trace[0] == EmailFailed(row, m.reason) && Compensated(Own(trace[1..], old(db.nextTask)), old(db.nextTask))
      ensures (m.SentReply? || m.FailedReply?) && !DuplicateSagaId(old(db.tables), m.sagaId) ==> !acked
      ensures db.calm ==> (acked <==> m.UnreadableReply? || m.UnknownReply? || Outcomes.HasSaga(old(db.tables), m.sagaId))
      ensures db.calm ==> Answered(old(db.tables), db.tables, m, row)
    {
      hide Inv, Next, Enabled, Run, Own, Compensated;
      var err;
      err, row, trace := Handle(m);
      acked := err == Ok;
    }
  }

  lemma {:induction false} NeverBack(w: World, es: seq<Event>, row: nat)
    requires Inv(w) && row in w.t.sagas
    ensures row in Run(w, es).t.sagas
    ensures Rank(Run(w, es).t.sagas[row].state) <= Rank(w.t.sagas[row].state)
    decreases |es|
  {
    hide Inv;
    if es != [] {
      EventMovesAlongEdge(w, es[0], row);
      EventKeepsInv(w, es[0]);
      NeverBack(Next(w, es[0]), es[1..], row);
    }
  }

  /**
   Redelivery is harmless: once a reply has been handled, handling it again changes nothing, however much happened
   in between; and an EmailSent that arrives after an EmailFailed changes nothing either.
   */
  lemma RedeliveryIsHarmless(w: World, es: seq<Event>, row: nat, reason: string, again: string)
    requires Reachable(w) && row in w.t.sagas
    ensures var sent := Run(Next(w, EmailSent(row)), es); Next(sent, EmailSent(row)) == sent
    ensures var failed := Run(Next(w, EmailFailed(row, reason)), es);
      Next(failed, EmailFailed(row, again)) == failed && Next(failed, EmailSent(row)) == failed
  {
    ReachableInv(w);
    hide Inv, Reachable;
    AfterReply(w, row, reason);
    EventKeepsInv(w, EmailSent(row));
    NeverBack(Next(w, EmailSent(row)), es, row);
    EventKeepsInv(w, EmailFailed(row, reason));
    NeverBack(Next(w, EmailFailed(row, reason)), es, row);
    hide Run, Next, Rank;
    LateReply(Run(Next(w, EmailSent(row)), es), row, again);
    LateReply(Run(Next(w, EmailFailed(row, reason)), es), row, again);
  }

  lemma LateReply(w: World, row: nat, reason: string)
    requires row in w.t.sagas
    ensures Rank(w.t.sagas[row].state) <= 2 ==> Next(w, EmailSent(row)) == w
    ensures Rank(w.t.sagas[row].state) <= 1 ==> Next(w, EmailFailed(row, reason)) == w
  {
  }

  lemma AfterReply(w: World, row: nat, reason: string)
    requires row in w.t.sagas
    ensures row in Next(w, EmailSent(row)).t.sagas && row in Next(w, EmailFailed(row, reason)).t.sagas
    ensures Rank(Next(w, EmailSent(row)).t.sagas[row].state) <= 2
    ensures Rank(Next(w, EmailFailed(row, reason)).t.sagas[row].state) <= 1
  {
  }
}
