/**
 When repeated previews are harmless: `delivery_limit` and `assert_browsable` of
 app/application/queue_service.py, against the rules its documentation states for the brokers.
 */
module DeliveryGuard {
  import opened Records

  const SCAN_BYTES_BUDGET: nat := 67_108_864

  // --------------------------------------------------------------------------- the broker

  /** The configured values: the queue's argument and its policy. */
  datatype Limits = Limits(argument: Option<int>, policy: Option<int>)
  {
    function Values(): seq<int> {
      (if argument.Some? then [argument.value] else []) + (if policy.Some? then [policy.value] else [])
    }
  }

  /**
   Whether a quorum queue keeps a message that is returned for the n-th time. From RabbitMQ 4 on
   a negative value says nothing, and 20 holds if nothing is configured at all; before, every
   configured value counts, negative ones too.
   */
  predicate Keeps(limits: Limits, major: nat, n: nat) {
    if major < 4 then forall v | v in limits.Values() :: n <= v
    else (limits.Values() == [] ==> n <= 20) && forall v | v in limits.Values() && v >= 0 :: n <= v
  }

  datatype Returned = Returned(id: nat, times: nat)

  /** A whole scan of a quorum queue: every message is read and returned, in order. */
  function Scanned(limits: Limits, major: nat, queue: seq<Returned>): seq<Returned> {
    if queue == [] then [] else
      var m := Last(queue).(times := Last(queue).times + 1);
      Scanned(limits, major, Front(queue)) + (if Keeps(limits, major, m.times) then [m] else [])
  }

  function Scans(limits: Limits, major: nat, queue: seq<Returned>, n: nat): seq<Returned> {
    if n == 0 then queue else Scanned(limits, major, Scans(limits, major, queue, n - 1))
  }

  function Ids(queue: seq<Returned>): seq<nat> { seq(|queue|, i requires 0 <= i < |queue| => queue[i].id) }

  // ---------------------------------------------------------------------------- the guard

  /** What the Management API says of a queue; the statistics bring the applied policy along. */
  datatype Raw = Raw(
    kind: Option<string>,
    kindArgument: Option<string>,
    limits: Limits,
    messages: Option<nat>,
    bytesReady: nat)
  {
    predicate Quorum() {
      (if kind.Some? && kind.value != "" then kind else kindArgument) == Some("quorum")
    }
  }

  function Min(s: seq<int>): (m: int)
    requires s != []
    ensures m in s && forall v | v in s :: m <= v
  {
    if |s| == 1 then s[0] else
      assert s == Front(s) + [Last(s)];
      var rest := Min(Front(s));
      if Last(s) < rest then Last(s) else rest
  }

  function NonNegative(s: seq<int>): (r: seq<int>)
    ensures forall v :: v in r <==> v in s && v >= 0
  {
    if s == [] then [] else
      assert s == Front(s) + [Last(s)];
      NonNegative(Front(s)) + (if Last(s) >= 0 then [Last(s)] else [])
  }

  /** A version that cannot be read counts as 0. */
  function Major(reported: Option<nat>): nat { if reported.Some? then reported.value else 0 }

  function DeliveryLimit(raw: Raw, reported: Option<nat>): Option<int> {
    var values := raw.limits.Values();
    if !raw.Quorum() then None
    else if Major(reported) < 4 then
      if values == [] then None else Some(if Min(values) > 0 then Min(values) else 0)
    else
      var limits := NonNegative(values);
      if limits != [] then Some(Min(limits)) else if values == [] then Some(20) else None
  }

  datatype Refusal = BrokerUnreachable | NoStatistics | Limited(limit: int) | TooLarge

  /** What the two calls to the Management API bring back. */
  datatype Found = Missing | Unreachable | VersionUnreachable | Found(raw: Raw, reported: Option<nat>)

  datatype Verdict = Browse(whole: bool) | Refuse(why: Refusal)

  function AssertBrowsable(found: Found): Verdict {
    match found
    case Missing => Browse(false)
    case Unreachable => Refuse(BrokerUnreachable)
    case VersionUnreachable => Refuse(BrokerUnreachable)
    case Found(raw, reported) =>
      var limit := DeliveryLimit(raw, reported);
      if raw.Quorum() && raw.messages.None? then Refuse(NoStatistics)
      else if limit.Some? then Refuse(Limited(limit.value))
      else if raw.Quorum() && raw.bytesReady > SCAN_BYTES_BUDGET then Refuse(TooLarge)
      else Browse(raw.Quorum())
  }

  // ------------------------------------------------------------------------- what is proved

  /** The limit computed is the broker's: the largest number of returns a message survives. */
  lemma LimitMeansKeeps(raw: Raw, reported: Option<nat>, n: nat)
    requires raw.Quorum() && n > 0
    ensures var limit := DeliveryLimit(raw, reported);
            Keeps(raw.limits, Major(reported), n) <==> limit.None? || n <= limit.value
  {
    var values := raw.limits.Values();
    if Major(reported) >= 4 && values != [] && NonNegative(values) == [] {
      assert forall v | v in values && v >= 0 :: v in NonNegative(values);
    }
  }

  /** A queue with limit L keeps an untouched message through L whole scans, and loses it at the next. */
  lemma {:induction false} LastsForItsLimit(raw: Raw, reported: Option<nat>, id: nat, n: nat)
    requires raw.Quorum() && DeliveryLimit(raw, reported).Some?
    ensures Scans(raw.limits, Major(reported), [Returned(id, 0)], n)
         == if n <= DeliveryLimit(raw, reported).value then [Returned(id, n)] else []
  {
    if n > 0 {
      hide DeliveryLimit, Keeps;
      LastsForItsLimit(raw, reported, id, n - 1);
      LimitMeansKeeps(raw, reported, n);
      assert Scans(raw.limits, Major(reported), [Returned(id, 0)], n)
          == Scanned(raw.limits, Major(reported), Scans(raw.limits, Major(reported), [Returned(id, 0)], n - 1));
      hide Scans;
      ScannedOne(raw.limits, Major(reported), id, n - 1);
    }
  }

  lemma ScannedOne(limits: Limits, major: nat, id: nat, times: nat)
    ensures Scanned(limits, major, []) == []
    ensures Scanned(limits, major, [Returned(id, times)])
         == if Keeps(limits, major, times + 1) then [Returned(id, times + 1)] else []
  {
    assert Front([Returned(id, times)]) == [];
  }

  lemma {:induction false} ScanKeeps(limits: Limits, major: nat, queue: seq<Returned>)
    requires forall n: nat | n > 0 :: Keeps(limits, major, n)
    ensures Ids(Scanned(limits, major, queue)) == Ids(queue)
  {
    if queue != [] {
      ScanKeeps(limits, major, Front(queue));
      var m := Last(queue).(times := Last(queue).times + 1);
      var rest := Scanned(limits, major, Front(queue));
      assert Scanned(limits, major, queue) == rest + [m];
      assert Ids(rest + [m]) == Ids(rest) + [m.id];
      assert Ids(queue) == Ids(Front(queue)) + [m.id];
    }
  }

  lemma {:induction false} ScansKeep(limits: Limits, major: nat, queue: seq<Returned>, n: nat)
    requires forall n: nat | n > 0 :: Keeps(limits, major, n)
    ensures Ids(Scans(limits, major, queue, n)) == Ids(queue)
  {
    if n > 0 {
      ScansKeep(limits, major, queue, n - 1);
      ScanKeeps(limits, major, Scans(limits, major, queue, n - 1));
    }
  }

  /** No number of whole scans loses or reorders anything. */
  ghost predicate Harmless(limits: Limits, major: nat) {
    forall queue, n :: Ids(Scans(limits, major, queue, n)) == Ids(queue)
  }

  lemma KeepsAll(limits: Limits, major: nat)
    requires forall n: nat | n > 0 :: Keeps(limits, major, n)
    ensures Harmless(limits, major)
  {
    hide Keeps, Scans, Ids;
    forall queue, n
      ensures Ids(Scans(limits, major, queue, n)) == Ids(queue)
    {
      ScansKeep(limits, major, queue, n);
    }
  }

  lemma LosesOne(limits: Limits, major: nat, n: nat)
    requires Scans(limits, major, [Returned(0, 0)], n) == []
    ensures !Harmless(limits, major)
  {
    hide Scans;
    assert Ids(Scans(limits, major, [Returned(0, 0)], n)) == [] && |Ids([Returned(0, 0)])| == 1;
  }

  /** Scans are harmless exactly on the queues for which the guard computes no limit. */
  lemma HarmlessWithoutLimit(raw: Raw, reported: Option<nat>)
    requires raw.Quorum()
    ensures Harmless(raw.limits, Major(reported)) <==> DeliveryLimit(raw, reported).None?
  {
    var limit := DeliveryLimit(raw, reported);
    hide DeliveryLimit, Keeps, Scans, Ids, Harmless;
    if limit.None? {
      forall n: nat | n > 0
        ensures Keeps(raw.limits, Major(reported), n)
      {
        LimitMeansKeeps(raw, reported, n);
      }
      KeepsAll(raw.limits, Major(reported));
    } else {
      LimitIsNat(raw, reported);
      LastsForItsLimit(raw, reported, 0, limit.value + 1);
      LosesOne(raw.limits, Major(reported), limit.value + 1);
    }
  }

  lemma LimitIsNat(raw: Raw, reported: Option<nat>)
    ensures DeliveryLimit(raw, reported).Some? ==> DeliveryLimit(raw, reported).value >= 0
  {
  }

  /**
   What the guard says, and when. It lets a quorum queue pass, to be read whole, exactly if its
   statistics are there, no number of scans harms it on the version reported, and it is not too large.
   Anything else that can be read passes as it is.
   */
  lemma GuardExactly(found: Found)
    ensures var v := AssertBrowsable(found);
            var quorum := found.Found? && found.raw.Quorum();
            var judged := quorum && found.raw.messages.Some?;
            && (v == Browse(false) <==> found.Missing? || (found.Found? && !quorum))
            && (v == Refuse(BrokerUnreachable) <==> found.Unreachable? || found.VersionUnreachable?)
            && (v == Refuse(NoStatistics) <==> quorum && !judged)
            && (v.Refuse? && v.why.Limited? <==> judged && !Harmless(found.raw.limits, Major(found.reported)))
            && (v == Refuse(TooLarge) <==>
                  judged && Harmless(found.raw.limits, Major(found.reported)) && found.raw.bytesReady > 67_108_864)
            && (v == Browse(true) <==>
                  judged && Harmless(found.raw.limits, Major(found.reported)) && found.raw.bytesReady <= 67_108_864)
  {
    if found.Found? && found.raw.Quorum() {
      HarmlessWithoutLimit(found.raw, found.reported);
    }
    hide DeliveryLimit, Harmless;
  }

  /** What the API reports of the real queue: the policy only with the statistics. */
  predicate Reports(raw: Raw, limits: Limits) {
    raw.limits.argument == limits.argument && (raw.messages.Some? ==> raw.limits.policy == limits.policy)
  }

  /**
   The guard is sound: any number of whole scans of a queue it accepts loses nothing, whether or
   not the policy was visible yet, on a broker that is of the generation it says it is.
   */
  lemma GuardIsSound(raw: Raw, reported: Option<nat>, limits: Limits, actual: nat)
    requires AssertBrowsable(Found(raw, reported)) == Browse(true) && Reports(raw, limits)
    requires Major(reported) < 4 <==> actual < 4
    ensures Harmless(limits, actual)
  {
    GuardExactly(Found(raw, reported));
    hide AssertBrowsable, DeliveryLimit;
    assert limits == raw.limits;
    SameGeneration(limits, Major(reported), actual);
  }

  lemma SameGeneration(limits: Limits, a: nat, b: nat)
    requires a < 4 <==> b < 4
    ensures Harmless(limits, a) <==> Harmless(limits, b)
  {
    forall queue, n
      ensures Scans(limits, a, queue, n) == Scans(limits, b, queue, n)
    {
      SameScans(limits, a, b, queue, n);
    }
  }

  lemma {:induction false} SameScans(limits: Limits, a: nat, b: nat, queue: seq<Returned>, n: nat)
    requires a < 4 <==> b < 4
    ensures Scans(limits, a, queue, n) == Scans(limits, b, queue, n)
  {
    if n > 0 {
      SameScans(limits, a, b, queue, n - 1);
      SameScanned(limits, a, b, Scans(limits, a, queue, n - 1));
    }
  }

  lemma {:induction false} SameScanned(limits: Limits, a: nat, b: nat, queue: seq<Returned>)
    requires a < 4 <==> b < 4
    ensures Scanned(limits, a, queue) == Scanned(limits, b, queue)
  {
    if queue != [] {
      SameScanned(limits, a, b, Front(queue));
    }
  }

  /**
   Where the guard would be fooled by a wrong version: it accepts a queue that loses messages
   exactly if a 4.x broker passes for an older one and nothing is configured, or an older one
   passes for 4.x and every configured value is negative.
   */
  lemma FooledExactly(raw: Raw, reported: Option<nat>, actual: nat)
    requires raw.Quorum()
    ensures DeliveryLimit(raw, reported).None? && !Harmless(raw.limits, actual) <==>
              || (Major(reported) < 4 <= actual && raw.limits.Values() == [])
              || (actual < 4 <= Major(reported) && raw.limits.Values() != []
                  && forall v | v in raw.limits.Values() :: v < 0)
  {
    HarmlessWithoutLimit(raw, Some(actual));
    var values := raw.limits.Values();
    assert values != [] ==> values[0] in values;
    assert NonNegative(values) == [] <==> forall v | v in values :: v < 0 by {
      if NonNegative(values) != [] {
        assert NonNegative(values)[0] in NonNegative(values);
      }
    }
  }

  /** So reading an unknown version as 3.x is not the stricter choice: a 4.x default of 20 goes unseen. */
  lemma UnknownVersionIsNotStricter()
    ensures exists raw: Raw :: AssertBrowsable(Found(raw, None)) == Browse(true) && !Harmless(raw.limits, 4)
  {
    var raw := Raw(Some("quorum"), None, Limits(None, None), Some(0), 0);
    FooledExactly(raw, None, 4);
    assert AssertBrowsable(Found(raw, None)) == Browse(true);
  }
}
