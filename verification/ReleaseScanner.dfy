/**
 The code one goroutine of the scanner runs, and the listing before it. A goroutine touches shared state in a single
 transaction, so what the others do in between is left to ScanSchedule.
 */
module ReleaseScanner {
  import opened Prelude
  import opened ReleaseHistory
  import opened ScanSchedule

  datatype ScanError = NoError | RateLimit | OtherError

  function Queued(t: Tracked, announce: Option<SubscriptionTables.Release>): seq<Detected> {
    match announce case Some(r) => [Detected(t.id, t.fullName, r)] case None => []
  }

  /** scan_cursors and the outbox beside it. `calm` is a database that does not fail. */
  class CursorStore {
    const calm: bool
    var cursors: map<nat, string>
    var outbox: seq<Detected>
    ghost var history: map<nat, seq<Observation>>

    ghost function S(): Scanner
      reads this
    {
      Scanner(cursors, outbox, history, None)
    }

    constructor (calm: bool)
      ensures S() == Init && this.calm == calm
    {
      this.calm := calm;
      cursors, outbox, history := map[], [], map[];
    }

    method Fails() returns (fails: bool)
      ensures calm ==> !fails
    {
      var b := *;
      fails := b && !calm;
    }

    /** A repository without a row has the empty cursor. */
    method GetLastSeenTag(id: nat) returns (ok: bool, tag: string)
      ensures ok ==> tag == Cursor(cursors, id)
      ensures calm ==> ok
    {
      var fails := Fails();
      ok, tag := !fails, "";
      if ok && id in cursors {
        tag := cursors[id];
      }
    }

    /** Upsert and enqueue in one transaction; the answer to the commit can be lost. */
    method UpdateLastSeenTagAtomic(t: Tracked, tag: string, announce: Option<SubscriptionTables.Release>)
      returns (ok: bool, ghost committed: bool)
      modifies this`cursors, this`outbox
      ensures committed ==> cursors == old(cursors)[t.id := tag]
      ensures committed ==> outbox == old(outbox) + Queued(t, announce)
      ensures !committed ==> cursors == old(cursors) && outbox == old(outbox)
      ensures (ok ==> committed) && (calm ==> ok)
    {
      committed := false;
      var fails := Fails();
      if fails {
        return false, committed;
      }
      // the row and the queued event are only the transaction's until it commits
      var cursors', outbox' := cursors[t.id := tag], outbox;
      if announce.Some? {
        fails := Fails();
        if fails {
          return false, committed;
        }
        outbox' := outbox + [Detected(t.id, t.fullName, announce.value)];
      }
      fails := Fails();
      if fails {
        return false, committed;
      }
      cursors, outbox := cursors', outbox';
      committed := true;
      var answerLost := Fails();
      ok := !answerLost;
    }

    /** Records an observation that took effect. */
    ghost method Note(t: Tracked, seen: Observation)
      modifies this`history
      ensures history == old(history)[t.id := HistoryOf(old(history), t.id) + [seen]]
    {
      history := history[t.id := HistoryOf(history, t.id) + [seen]];
    }
  }

  /** The catalog adapter. */
  class Adapter {
    const store: CursorStore

    constructor (store: CursorStore)
      ensures this.store == store
    {
      this.store := store;
    }

    /** Joins the listed repositories with their cursors; one failed read fails the whole listing. */
    method ListTracked(answer: seq<(nat, string)>, ghost distinct: bool) returns (ok: bool, repos: seq<Tracked>)
      requires distinct ==> forall i, j :: 0 <= i < j < |answer| ==> answer[i].0 != answer[j].0
      ensures ok ==> |repos| == |answer|
      ensures ok ==> forall i :: 0 <= i < |answer| ==>
        repos[i] == Tracked(answer[i].0, answer[i].1, Cursor(store.cursors, answer[i].0))
      ensures ok && distinct ==> Enabled(store.S(), List(repos))
      ensures store.calm ==> ok
    {
      ok, repos := true, [];
      for i := 0 to |answer|
        invariant ok && |repos| == i
        invariant forall k :: 0 <= k < i ==>
          repos[k] == Tracked(answer[k].0, answer[k].1, Cursor(store.cursors, answer[k].0))
      {
        var read, tag := store.GetLastSeenTag(answer[i].0);
        if !read {
          return false, [];
        }
        repos := repos + [Tracked(answer[i].0, answer[i].1, tag)];
      }
    }
  }

  class Worker {
    const store: CursorStore

    constructor (store: CursorStore)
      ensures this.store == store
    {
      this.store := store;
    }

    /** A repository without a release is a successful look. */
    method GetLatestRelease(answer: LookResult) returns (err: ScanError, release: Observation)
      ensures answer.Seen? <==> err == NoError
      ensures answer.Seen? ==> release == answer.seen
      ensures answer.RateLimited? <==> err == RateLimit
    {
      match answer
      case Seen(seen) => return NoError, seen;
      case RateLimited => return RateLimit, None;
      case LookFailed => return OtherError, None;
    }

    /** First look at a repository: its cursor becomes what was seen, and nothing is announced. */
    method SeedCursor(repo: Tracked, release: Observation) returns (err: ScanError, ghost settled: bool)
      requires repo.lastSeenTag == ""
      modifies store
      ensures store.S() == if settled then TakeEffect(old(store.S()), repo, release) else old(store.S())
      ensures store.outbox == old(store.outbox)
      ensures (err == NoError ==> settled) && err != RateLimit && (store.calm ==> err == NoError)
    {
      var tag := NoReleaseYet;
      if release.Some? {
        tag := release.value.tag;
      }
      var ok;
      ok, settled := store.UpdateLastSeenTagAtomic(repo, tag, None);
      if settled {
        store.Note(repo, release);
      }
      err := if ok then NoError else OtherError;
    }

    /**
     Processing one repository, given what the look at GitHub answers: the observation takes effect, or nothing
     changes. It takes effect whenever no error is returned, and an error with effect is a lost commit answer.
     */
    method ProcessRepository(repo: Tracked, answer: LookResult) returns (err: ScanError, ghost settled: bool)
      modifies store
      ensures settled ==> answer.Seen? && store.S() == TakeEffect(old(store.S()), repo, answer.seen)
      ensures !settled ==> store.S() == old(store.S())
      ensures err == NoError ==> settled
      ensures err == RateLimit <==> answer.RateLimited?
      ensures store.calm && answer.Seen? ==> err == NoError
    {
      settled := false;
      var e, release := GetLatestRelease(answer);
      if e != NoError {
        return e, settled;
      }
      if repo.lastSeenTag == "" {
        err, settled := SeedCursor(repo, release);
        return;
      }
      if release == None || !HasNewRelease(repo.lastSeenTag, release.value.tag) {
        // looking was all there was to do
        store.Note(repo, release);
        settled := true;
        return NoError, settled;
      }
      var ok;
      ok, settled := store.UpdateLastSeenTagAtomic(repo, release.value.tag, release);
      if settled {
        store.Note(repo, release);
      }
      err := if ok then NoError else OtherError;
    }
  }
}
