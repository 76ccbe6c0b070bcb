/** How often a message has died, on two generations of RabbitMQ: app/domain/xdeath.py. */
module XDeath {
  import opened Records

  function CountOf(e: DeathEntry): int { if e.count.Some? then e.count.value else 0 }

  /** The sum of the readable counts. */
  function DeathCount(x: seq<DeathEntry>): int {
    if x == [] then 0 else CountOf(x[0]) + DeathCount(x[1..])
  }

  function Stamped(stamp: Stamp): int {
    if stamp.Counted? then stamp.value else 0
  }

  function Max(a: int, b: int): int { if a >= b then a else b }

  /** A message that carries the stamp has died at least once more since. Without Countable, `deaths` raises. */
  function Deaths(x: seq<DeathEntry>, stamp: Stamp): (n: int)
    ensures n >= DeathCount(x) && (stamp.Counted? && stamp.value > 0 ==> n > stamp.value)
    ensures n == DeathCount(x) || (stamp.Counted? && stamp.value > 0 && n == stamp.value + 1)
  {
    if Stamped(stamp) > 0 then Max(DeathCount(x), Stamped(stamp) + 1) else DeathCount(x)
  }

  // ------------------------------------------------------------------------- the broker

  /**
   3.x keeps adding to the x-death of a message a client republishes; 4.x starts it again.
   Whether another death in the same queue and for the same reason dates its entry anew, or
   leaves it at the first, is left open.
   */
  datatype Generation = V3(redates: bool) | V4(redates: bool)

  datatype Death = Death(queue: string, reason: string, at: nat)

  /** One more death: the entry of this queue and reason, or a new one, counts it. */
  function Die(x: seq<DeathEntry>, d: Death, redates: bool): seq<DeathEntry> {
    if x == [] then [DeathEntry(Some(d.queue), d.reason, Some(1), Some(d.at))]
    else if x[0].queue == Some(d.queue) && x[0].reason == d.reason
    then [x[0].(count := Some(CountOf(x[0]) + 1), time := if redates then Some(d.at) else x[0].time)] + x[1..]
    else [x[0]] + Die(x[1..], d, redates)
  }

  function DieAll(x: seq<DeathEntry>, ds: seq<Death>, redates: bool): seq<DeathEntry> {
    if ds == [] then x else Die(DieAll(x, Front(ds), redates), Last(ds), redates)
  }

  lemma {:induction false} DieCounts(x: seq<DeathEntry>, d: Death, redates: bool)
    ensures DeathCount(Die(x, d, redates)) == DeathCount(x) + 1
  {
    if x != [] && !(x[0].queue == Some(d.queue) && x[0].reason == d.reason) {
      DieCounts(x[1..], d, redates);
    }
  }

  lemma {:induction false} DieAllCounts(x: seq<DeathEntry>, ds: seq<Death>, redates: bool)
    ensures DeathCount(DieAll(x, ds, redates)) == DeathCount(x) + |ds|
  {
    if ds != [] {
      DieAllCounts(x, Front(ds), redates);
      DieCounts(DieAll(x, Front(ds), redates), Last(ds), redates);
    }
  }

  // ----------------------------------------------------------------- a message's history

  /** The two headers that say how often a message died. */
  datatype History = History(xDeath: seq<DeathEntry>, stamp: Stamp) {
    function Count(): int { Deaths(xDeath, stamp) }
  }

  /** What a replay publishes: the stamp says how often the message had died by then. */
  function Replayed(gen: Generation, h: History): History {
    History(if gen.V3? then h.xDeath else [], Stamp.Counted(h.Count()))
  }

  /** Replay, then die again (once or more) on the way back to the dead-letter queue. */
  function RoundTrip(gen: Generation, h: History, ds: seq<Death>): History {
    var r := Replayed(gen, h);
    r.(xDeath := DieAll(r.xDeath, ds, gen.redates))
  }

  /** A message that died first in `first` and then went round once for each trip. */
  function After(gen: Generation, first: seq<Death>, trips: seq<seq<Death>>): History {
    if trips == [] then History(DieAll([], first, gen.redates), Absent)
    else RoundTrip(gen, After(gen, first, Front(trips)), Last(trips))
  }

  function Sum(trips: seq<seq<Death>>): nat {
    if trips == [] then 0 else Sum(Front(trips)) + |Last(trips)|
  }

  ghost predicate EachDies(trips: seq<seq<Death>>) {
    forall i | 0 <= i < |trips| :: trips[i] != []
  }

  /** Every round trip makes the count strictly larger, whichever the broker. */
  lemma RoundTripGrows(gen: Generation, h: History, ds: seq<Death>)
    requires h.Count() > 0
    ensures RoundTrip(gen, h, ds).Count() > h.Count()
    ensures RoundTrip(gen, h, ds).Count() == Max((if gen.V3? then DeathCount(h.xDeath) else 0) + |ds|, h.Count() + 1)
  {
    DieAllCounts(Replayed(gen, h).xDeath, ds, gen.redates);
  }

  lemma {:induction false} CountGrows(gen: Generation, first: seq<Death>, trips: seq<seq<Death>>)
    requires first != []
    ensures After(gen, first, trips).Count() >= |first| + |trips|
  {
    if trips == [] {
      DieAllCounts([], first, gen.redates);
    } else {
      CountGrows(gen, first, Front(trips));
      RoundTripGrows(gen, After(gen, first, Front(trips)), Last(trips));
    }
  }

  /** On 3.x the count is the number of deaths, through any number of replays. */
  lemma {:induction false} ExactOnV3(gen: Generation, first: seq<Death>, trips: seq<seq<Death>>)
    requires gen.V3? && first != [] && EachDies(trips)
    ensures DeathCount(After(gen, first, trips).xDeath) == |first| + Sum(trips)
    ensures After(gen, first, trips).Count() == |first| + Sum(trips)
  {
    if trips == [] {
      DieAllCounts([], first, gen.redates);
    } else {
      var h := After(gen, first, Front(trips));
      ExactOnV3(gen, first, Front(trips));
      DieAllCounts(h.xDeath, Last(trips), gen.redates);
      RoundTripGrows(gen, h, Last(trips));
    }
  }

  /** On 4.x it never exceeds that number, and equals it exactly when no trip died more than once. */
  lemma {:induction false} BoundedOnV4(gen: Generation, first: seq<Death>, trips: seq<seq<Death>>)
    requires gen.V4? && first != [] && EachDies(trips)
    ensures After(gen, first, trips).Count() <= |first| + Sum(trips)
    ensures After(gen, first, trips).Count() == |first| + Sum(trips) <==> forall i | 0 <= i < |trips| :: |trips[i]| == 1
  {
    if trips == [] {
      DieAllCounts([], first, gen.redates);
    } else {
      var h := After(gen, first, Front(trips));
      assert After(gen, first, trips) == RoundTrip(gen, h, Last(trips));
      assert Sum(trips) == Sum(Front(trips)) + |Last(trips)|;
      hide After, Sum, RoundTrip, Deaths;
      BoundedOnV4(gen, first, Front(trips));
      CountGrows(gen, first, Front(trips));
      RoundTripGrows(gen, h, Last(trips));
      assert trips == Front(trips) + [Last(trips)];
      assert Last(trips) != [];
      assert (forall i | 0 <= i < |trips| :: |trips[i]| == 1)
          <==> (forall i | 0 <= i < |Front(trips)| :: |Front(trips)[i]| == 1) && |Last(trips)| == 1;
    }
  }

  /**
   A message replayed only while it counts fewer than `maxDeaths` deaths is replayed at most
   maxDeaths - 1 times, less what it had died before the first replay.
   */
  lemma ReplaysBounded(gen: Generation, first: seq<Death>, trips: seq<seq<Death>>, maxDeaths: nat)
    requires first != []
    requires forall i | 0 <= i < |trips| :: After(gen, first, trips[..i]).Count() < maxDeaths
    ensures |trips| <= Max(0, maxDeaths - |first|) <= Max(0, maxDeaths - 1)
  {
    if trips != [] {
      var k := |trips| - 1;
      CountGrows(gen, first, trips[..k]);
    }
  }

  /** And after that many it counts enough to be parked. */
  lemma ExhaustedInTime(gen: Generation, first: seq<Death>, trips: seq<seq<Death>>, maxDeaths: nat)
    requires first != [] && |trips| >= maxDeaths - |first|
    ensures After(gen, first, trips).Count() >= maxDeaths
  {
    CountGrows(gen, first, trips);
  }
}
