/** What QueueLens knows about one message: the part of `app/domain/models.py` the other modules share. */
module Records {

  /** A SHA-256 digest. All digests have one length, so their text order is their order as numbers. */
  type Fingerprint = nat

  datatype Option<+T> = None | Some(value: T)

  /**
   One entry of the x-death header, which a producer may have written too. Its count is what `int()`
   makes of it (0 if it is missing), or None if that raises. Times are microseconds since the first
   representable instant.
   */
  datatype DeathEntry = DeathEntry(queue: Option<string>, reason: string, count: Option<int>, time: Option<nat>)

  /**
   The value of the x-queuelens-deaths header: anyone may have written it, so it need not be a number.
   What `int()` refuses is ignored, but for an infinite double: that raises an error nobody catches.
   */
  datatype Stamp = Absent | Counted(value: int) | Unreadable | Infinite

  /** `deaths` does not raise. */
  predicate Countable(x: seq<DeathEntry>, stamp: Stamp) { (forall e | e in x :: e.count.Some?) && !stamp.Infinite? }

  datatype MessageRecord = MessageRecord(
    fingerprint: Fingerprint,
    body: string,
    xDeath: seq<DeathEntry>,
    stamp: Stamp)

  datatype ReplayTarget = ReplayTarget(
    kind: string,
    queue: Option<string>,
    exchange: Option<string>,
    routingKey: Option<string>)

  function Front<T>(s: seq<T>): seq<T>
    requires s != []
  {
    s[..|s| - 1]
  }

  function Last<T>(s: seq<T>): T
    requires s != []
  {
    s[|s| - 1]
  }

  /** A family of places, and the same with place n looked at too. */
  lemma OneMoreIn<T>(fewer: set<T>, all: set<T>, n: T, last: bool)
    requires n !in fewer && fewer <= all && (last <==> n in all) && forall i | i in all :: i in fewer || i == n
    ensures |all| == |fewer| + (if last then 1 else 0)
  {
    if last {
      assert all == fewer + {n};
    } else {
      assert all == fewer;
    }
  }

  lemma SmallerSubset<T>(a: set<T>, b: set<T>)
    requires a <= b
    ensures |a| <= |b|
  {
    assert b == a + (b - a);
  }
}
