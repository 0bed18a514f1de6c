/**
 The broker's duplicate window: a publish whose message id was stored in the same stream at most `window` ago is
 acknowledged but not stored again.
 */
module Broker {
  import opened MessageIds

  /** A publish the broker accepted, whether or not the acknowledgement reached the publisher. */
  datatype Attempt = Attempt(producer: Producer, number: int, at: nat)

  predicate SameId(a: Attempt, b: Attempt) {
    MsgId(a.producer, a.number) == MsgId(b.producer, b.number)
  }

  predicate Duplicate(stored: seq<Attempt>, a: Attempt, window: nat) {
    exists b :: b in stored && SameId(b, a) && a.at <= b.at + window
  }

  /** The messages a stream holds after the given accepted publishes. */
  function Stored(attempts: seq<Attempt>, window: nat): seq<Attempt>
    decreases |attempts|
  {
    if attempts == [] then []
    else
      var before := Stored(attempts[..|attempts| - 1], window);
      var a := attempts[|attempts| - 1];
      if Duplicate(before, a, window) then before else before + [a]
  }

  predicate Is(a: Attempt, p: Producer, n: int) {
    a.producer == p && a.number == n
  }

  function Count(attempts: seq<Attempt>, p: Producer, n: int): nat
    decreases |attempts|
  {
    if attempts == [] then 0
    else Count(attempts[..|attempts| - 1], p, n) + (if Is(attempts[|attempts| - 1], p, n) then 1 else 0)
  }

  function Copies(attempts: seq<Attempt>, window: nat, p: Producer, n: int): nat {
    Count(Stored(attempts, window), p, n)
  }

  /** All publishes go to the stream of `p`, in order of time. */
  ghost predicate OneStream(attempts: seq<Attempt>, p: Producer) {
    && (forall a :: a in attempts ==> StreamOf(a.producer) == StreamOf(p))
    && (forall i, j :: 0 <= i <= j < |attempts| ==> attempts[i].at <= attempts[j].at)
  }

  /** The time of the first publish of a message. */
  function FirstAt(attempts: seq<Attempt>, p: Producer, n: int): nat
    requires Count(attempts, p, n) > 0
    decreases |attempts|
  {
    var before := attempts[..|attempts| - 1];
    if Count(before, p, n) > 0 then FirstAt(before, p, n) else attempts[|attempts| - 1].at
  }

  ghost predicate AllWithin(attempts: seq<Attempt>, p: Producer, n: int, limit: nat) {
    forall a :: a in attempts && Is(a, p, n) ==> a.at <= limit
  }

  lemma {:induction false} CountZero(attempts: seq<Attempt>, p: Producer, n: int)
    ensures Count(attempts, p, n) == 0 <==> forall a :: a in attempts ==> !Is(a, p, n)
    decreases |attempts|
  {
    if attempts != [] {
      var (before, a) := (attempts[..|attempts| - 1], attempts[|attempts| - 1]);
      CountZero(before, p, n);
      assert attempts == before + [a];
    }
  }

  lemma {:induction false} StoredFrom(attempts: seq<Attempt>, window: nat)
    ensures forall a :: a in Stored(attempts, window) ==> a in attempts
    decreases |attempts|
  {
    if attempts != [] {
      var (before, a) := (attempts[..|attempts| - 1], attempts[|attempts| - 1]);
      StoredFrom(before, window);
      assert attempts == before + [a];
    }
  }

  lemma CountSnoc(attempts: seq<Attempt>, a: Attempt, p: Producer, n: int)
    ensures Count(attempts + [a], p, n) == Count(attempts, p, n) + (if Is(a, p, n) then 1 else 0)
  {
    assert (attempts + [a])[..|attempts|] == attempts;
  }

  lemma StoredSnoc(attempts: seq<Attempt>, a: Attempt, window: nat)
    ensures var before := Stored(attempts, window);
      Stored(attempts + [a], window) == if Duplicate(before, a, window) then before else before + [a]
  {
    assert (attempts + [a])[..|attempts|] == attempts;
  }

  lemma FirstAtSnoc(attempts: seq<Attempt>, a: Attempt, p: Producer, n: int)
    requires Count(attempts, p, n) > 0
    ensures Count(attempts + [a], p, n) > 0 && FirstAt(attempts + [a], p, n) == FirstAt(attempts, p, n)
  {
    assert (attempts + [a])[..|attempts|] == attempts;
  }

  lemma WithinSnoc(attempts: seq<Attempt>, a: Attempt, p: Producer, n: int, limit: nat)
    ensures AllWithin(attempts + [a], p, n, limit) <==> AllWithin(attempts, p, n, limit) && (Is(a, p, n) ==> a.at <= limit)
  {
    assert forall b :: b in attempts + [a] <==> b in attempts || b == a;
  }

  /** The first publish is what is stored, and alone exactly while every publish comes within its window. */
  ghost predicate Deduped(attempts: seq<Attempt>, window: nat, p: Producer, n: int) {
    && Copies(attempts, window, p, n) <= Count(attempts, p, n)
    && (Count(attempts, p, n) > 0 ==>
          var f := FirstAt(attempts, p, n);
          && Copies(attempts, window, p, n) > 0
          && (Copies(attempts, window, p, n) == 1 <==> AllWithin(attempts, p, n, f + window))
          && (exists b :: b in Stored(attempts, window) && Is(b, p, n) && b.at == f)
          && (Copies(attempts, window, p, n) == 1 ==>
                forall b :: b in Stored(attempts, window) && Is(b, p, n) ==> b.at == f))
  }

  /**
   What the window does to one message, for any other traffic in the same stream: it is stored at least once and
   at most once per accepted publish, its first publish is stored, and it is stored exactly once if and only if
   every publish of it comes within the window of the first.
   */
  lemma {:induction false} DedupOfOne(attempts: seq<Attempt>, window: nat, p: Producer, n: int)
    requires OneStream(attempts, p)
    ensures Deduped(attempts, window, p, n)
    decreases |attempts|
  {
    if attempts != [] {
      var (before, a) := (attempts[..|attempts| - 1], attempts[|attempts| - 1]);
      assert attempts == before + [a];
      hide SameId, Deduped, Stored, Count, FirstAt, AllWithin;
      assert OneStream(before, p);
      DedupOfOne(before, window, p, n);
      if !Is(a, p, n) {
        OtherPublish(before, a, window, p, n);
      } else {
        StoredFrom(before, window);
        SameIdIsSame(Stored(before, window), a, p, n);
        if Count(before, p, n) == 0 {
          FirstPublish(before, a, window, p, n);
        } else {
          RepeatedPublish(before, a, window, p, n);
        }
      }
    }
  }

  lemma FirstPublish(before: seq<Attempt>, a: Attempt, window: nat, p: Producer, n: int)
    requires Is(a, p, n) && Count(before, p, n) == 0 && Deduped(before, window, p, n)
    requires forall b :: b in Stored(before, window) ==> (SameId(b, a) <==> Is(b, p, n))
    ensures Deduped(before + [a], window, p, n)
  {
    hide SameId;
    var stored := Stored(before, window);
    CountZero(before, p, n);
    CountZero(stored, p, n);
    StoredSnoc(before, a, window);
    CountSnoc(before, a, p, n);
    CountSnoc(stored, a, p, n);
    assert (before + [a])[..|before|] == before;
    assert FirstAt(before + [a], p, n) == a.at;
    assert a in stored + [a];
  }

  /** Publishing a message again. */
  lemma RepeatedPublish(before: seq<Attempt>, a: Attempt, window: nat, p: Producer, n: int)
    requires Is(a, p, n) && Count(before, p, n) > 0 && Deduped(before, window, p, n)
    requires forall b :: b in Stored(before, window) ==> (SameId(b, a) <==> Is(b, p, n))
    ensures Deduped(before + [a], window, p, n)
  {
    hide SameId, Stored, Count, FirstAt, AllWithin;
    var (f, stored) := (FirstAt(before, p, n), Stored(before, window));
    StoredSnoc(before, a, window);
    CountSnoc(before, a, p, n);
    CountSnoc(stored, a, p, n);
    FirstAtSnoc(before, a, p, n);
    WithinSnoc(before, a, p, n, f + window);
    var b :| b in stored && Is(b, p, n) && b.at == f;
    assert b in Stored(before + [a], window);
    if Copies(before, window, p, n) == 1 {
      assert Duplicate(stored, a, window) <==> a.at <= f + window;
    }
  }

  /** Publishing some other message changes nothing for this one. */
  lemma OtherPublish(before: seq<Attempt>, a: Attempt, window: nat, p: Producer, n: int)
    requires !Is(a, p, n) && Deduped(before, window, p, n)
    ensures Deduped(before + [a], window, p, n)
  {
    hide SameId, Stored, Count, FirstAt, AllWithin;
    var stored := Stored(before, window);
    StoredSnoc(before, a, window);
    CountSnoc(before, a, p, n);
    CountSnoc(stored, a, p, n);
    if Count(before, p, n) > 0 {
      FirstAtSnoc(before, a, p, n);
      WithinSnoc(before, a, p, n, FirstAt(before, p, n) + window);
      var b :| b in stored && Is(b, p, n) && b.at == FirstAt(before, p, n);
      assert b in Stored(before + [a], window);
    }
  }

  /** In one stream only the message itself has its id. */
  lemma SameIdIsSame(stored: seq<Attempt>, a: Attempt, p: Producer, n: int)
    requires Is(a, p, n) && forall b :: b in stored ==> StreamOf(b.producer) == StreamOf(p)
    ensures forall b :: b in stored ==> (SameId(b, a) <==> Is(b, p, n))
  {
    forall b | b in stored ensures SameId(b, a) <==> Is(b, p, n) {
      MsgIdsDistinctInStream(b.producer, p, b.number, n);
    }
  }
}
