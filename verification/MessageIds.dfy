/**
 The message ids the publishers give the broker, which drops a message whose id it has stored recently in the
 same stream. Outbox relays number by row id, the notification consumer by stream sequence.
 */
module MessageIds {
  import opened Decimal

  datatype Producer = SubscriptionRelay | AuthRelay | MonitoringRelay | DeadLetters | SentReplies | FailedReplies

  datatype Stream = Notifications | Releases | NotificationsDlq | SagaReplies

  function StreamOf(p: Producer): Stream {
    match p
    case SubscriptionRelay => Notifications
    case AuthRelay => Notifications
    case MonitoringRelay => Releases
    case DeadLetters => NotificationsDlq
    case SentReplies => SagaReplies
    case FailedReplies => SagaReplies
  }

  function Prefix(p: Producer): string {
    match p
    case SubscriptionRelay => ""
    case AuthRelay => "auth-"
    case MonitoringRelay => "mon-"
    case DeadLetters => ""
    case SentReplies => "sent-"
    case FailedReplies => "failed-"
  }

  function MsgId(p: Producer, n: int): string {
    Prefix(p) + FormatInt(n)
  }

  /** The ids as they go over the wire. */
  lemma MsgIdTexts(n: int)
    ensures MsgId(SubscriptionRelay, n) == FormatInt(n) && MsgId(DeadLetters, n) == FormatInt(n)
    ensures MsgId(AuthRelay, n) == "auth-" + FormatInt(n) && MsgId(MonitoringRelay, n) == "mon-" + FormatInt(n)
    ensures MsgId(SentReplies, n) == "sent-" + FormatInt(n) && MsgId(FailedReplies, n) == "failed-" + FormatInt(n)
  {
    assert "" + FormatInt(n) == FormatInt(n);
  }

  lemma PrefixDecides(p: Producer, q: Producer, n: int, m: int)
    requires MsgId(p, n) == MsgId(q, m)
    ensures Prefix(p) == Prefix(q)
  {
    Sign(n);
    Sign(m);
    var (a, b) := (MsgId(p, n), MsgId(q, m));
    assert Prefix(p) == "" ==> a[0] == FormatInt(n)[0];
    assert Prefix(q) == "" ==> b[0] == FormatInt(m)[0];
    assert Prefix(p) != "" ==> a[0] == Prefix(p)[0];
    assert Prefix(q) != "" ==> b[0] == Prefix(q)[0];
  }

  /**
   Two message ids are equal exactly when the numbers are, and the producers are the same or are the two that
   use bare numbers.
   */
  lemma MsgIdsEqualIff(p: Producer, q: Producer, n: int, m: int)
    ensures MsgId(p, n) == MsgId(q, m) <==> n == m && Prefix(p) == Prefix(q)
    ensures Prefix(p) == Prefix(q) <==>
      p == q || (p == SubscriptionRelay && q == DeadLetters) || (p == DeadLetters && q == SubscriptionRelay)
  {
    if MsgId(p, n) == MsgId(q, m) {
      PrefixDecides(p, q, n, m);
      assert MsgId(p, n)[|Prefix(p)|..] == FormatInt(n);
      assert MsgId(q, m)[|Prefix(q)|..] == FormatInt(m);
      FormatIntInjective(n, m);
    }
    assert Prefix(AuthRelay)[0] == 'a' && Prefix(MonitoringRelay)[0] == 'm';
    assert Prefix(SentReplies)[0] == 's' && Prefix(FailedReplies)[0] == 'f';
  }

  /** Within one stream a message id names one message of one producer. */
  lemma MsgIdsDistinctInStream(p: Producer, q: Producer, n: int, m: int)
    requires StreamOf(p) == StreamOf(q)
    ensures MsgId(p, n) == MsgId(q, m) <==> p == q && n == m
  {
    MsgIdsEqualIff(p, q, n, m);
  }
}
