/** How long a policy keeps retrying a message that keeps failing, from its first death to the parking queue. */
module Backoff {
  import opened Records
  import opened XDeath
  import opened ReplayPlan

  /** A replay by the policy, and the death that brought the message back. */
  datatype Round = Round(replayedAt: nat, death: Death)

  function AfterRounds(gen: Generation, first: History, rounds: seq<Round>): History {
    if rounds == [] then first
    else RoundTrip(gen, AfterRounds(gen, first, Front(rounds)), [Last(rounds).death])
  }

  function DiedAt(start: nat, rounds: seq<Round>): nat {
    if rounds == [] then start else Last(rounds).death.at
  }

  function Seen(r: MessageRecord, h: History): MessageRecord {
    r.(xDeath := h.xDeath, stamp := h.stamp)
  }

  /** The x-death header dates the last death. */
  ghost predicate Dated(x: seq<DeathEntry>, at: nat) {
    at > 0 && (exists e :: e in x && e.time == Some(at)) && forall e | e in x :: Key(e) <= at
  }

  /** Each replay was the policy's own decision at that time, and the message died after it. */
  ghost predicate ByPolicy(gen: Generation, p: Policy, r: MessageRecord, first: History, rounds: seq<Round>) {
    forall i | 0 <= i < |rounds| ::
      && Judge(p, rounds[i].replayedAt, Seen(r, AfterRounds(gen, first, rounds[..i]))).Replay?
      && rounds[i].replayedAt <= rounds[i].death.at
  }

  /** A new entry is always dated; an old one only if the broker dates it again. */
  lemma {:induction false} DieDates(x: seq<DeathEntry>, d: Death, redates: bool)
    requires redates || x == []
    requires d.at > 0 && forall e | e in x :: Key(e) <= d.at
    ensures Dated(Die(x, d, redates), d.at)
  {
    var y := Die(x, d, redates);
    if x == [] {
      assert y[0].time == Some(d.at);
    } else if x[0].queue == Some(d.queue) && x[0].reason == d.reason {
      assert y[0] in y && y[0].time == Some(d.at);
    } else {
      assert x == [x[0]] + x[1..];
      DieDates(x[1..], d, redates);
      var e :| e in Die(x[1..], d, redates) && e.time == Some(d.at);
      assert e in y;
    }
  }

  /** The header dates the last death of a trip: on 4.x it is new, on 3.x it must be dated again. */
  predicate DatesLastDeath(gen: Generation) { gen.V4? || gen.redates }

  /** One death a trip: each makes the count one larger, and dates itself. */
  lemma {:induction false} RoundsCount(gen: Generation, p: Policy, r: MessageRecord, first: History, start: nat,
                                       rounds: seq<Round>)
    requires DatesLastDeath(gen) && Dated(first.xDeath, start) && first.Count() > 0
    requires ByPolicy(gen, p, r, first, rounds)
    ensures AfterRounds(gen, first, rounds).Count() == first.Count() + |rounds|
    ensures Dated(AfterRounds(gen, first, rounds).xDeath, DiedAt(start, rounds))
  {
    hide Judge, Deaths, ByPolicy;
    if rounds != [] {
      var front, last := Front(rounds), rounds[|rounds| - 1];
      FrontByPolicy(gen, p, r, first, rounds);
      RoundsCount(gen, p, r, first, start, front);
      var h := AfterRounds(gen, first, front);
      OneDeathCounts(gen, h, last.death);
      RoundTakesTime(p, last.replayedAt, Seen(r, h), DiedAt(start, front));
      DieDates(Replayed(gen, h).xDeath, last.death, gen.redates);
    }
  }

  lemma OneDeathCounts(gen: Generation, h: History, d: Death)
    requires h.Count() > 0
    ensures RoundTrip(gen, h, [d]).Count() == h.Count() + 1
    ensures RoundTrip(gen, h, [d]).xDeath == Die(Replayed(gen, h).xDeath, d, gen.redates)
  {
    RoundTripGrows(gen, h, [d]);
    assert DieAll(Replayed(gen, h).xDeath, [d], gen.redates) == Die(Replayed(gen, h).xDeath, d, gen.redates);
  }

  lemma FrontByPolicy(gen: Generation, p: Policy, r: MessageRecord, first: History, rounds: seq<Round>)
    requires rounds != [] && ByPolicy(gen, p, r, first, rounds)
    ensures ByPolicy(gen, p, r, first, Front(rounds))
    ensures Judge(p, Last(rounds).replayedAt, Seen(r, AfterRounds(gen, first, Front(rounds)))).Replay?
    ensures Last(rounds).replayedAt <= Last(rounds).death.at
  {
    hide Judge;
    var front := Front(rounds);
    forall i | 0 <= i < |front|
      ensures Judge(p, front[i].replayedAt, Seen(r, AfterRounds(gen, first, front[..i]))).Replay?
    {
      assert front[..i] == rounds[..i];
    }
  }

  /** A replay comes no sooner than the doubled wait after the last death. */
  lemma RoundTakesTime(p: Policy, now: nat, r: MessageRecord, died: nat)
    requires Judge(p, now, r).Replay? && Dated(r.xDeath, died) && Deaths(r.xDeath, r.stamp) > 0
    ensures Deaths(r.xDeath, r.stamp) < p.maxDeaths
    ensures now >= died + Wait(p, Deaths(r.xDeath, r.stamp)) * TICKS_PER_MINUTE
    ensures now >= died
  {
    ReplayMeans(p, now, r);
    hide Judge, Deaths;
    var last :| last in r.xDeath && GoesBack(p, now, r, last, Judge(p, now, r).target);
    var e :| e in r.xDeath && e.time == Some(died);
    assert Key(e) <= Key(last) <= died;
  }

  /** The waits add up: backoff * (2^(d + n - 1) - 2^(d - 1)) minutes after n replays of a message with d deaths. */
  lemma {:induction false} WaitsAddUp(gen: Generation, p: Policy, r: MessageRecord, first: History, start: nat,
                                      rounds: seq<Round>)
    requires DatesLastDeath(gen) && Dated(first.xDeath, start) && first.Count() > 0
    requires ByPolicy(gen, p, r, first, rounds)
    ensures var d := first.Count();
            DiedAt(start, rounds) >= start
              + p.backoffMinutes * TICKS_PER_MINUTE * (Pow2(d + |rounds| - 1) - Pow2(d - 1))
  {
    hide Judge, Deaths, ByPolicy, AfterRounds, Dated;
    var d := first.Count();
    if rounds != [] {
      var front := Front(rounds);
      FrontByPolicy(gen, p, r, first, rounds);
      WaitsAddUp(gen, p, r, first, start, front);
      RoundsCount(gen, p, r, first, start, front);
      RoundTakesTime(p, Last(rounds).replayedAt, Seen(r, AfterRounds(gen, first, front)), DiedAt(start, front));
      NextWait(p.backoffMinutes, Pow2(d + |front| - 1), Pow2(d - 1));
    }
  }

  lemma NextWait(backoff: nat, a: nat, c: nat)
    ensures backoff * TICKS_PER_MINUTE * (2 * a - c)
         == backoff * TICKS_PER_MINUTE * (a - c) + backoff * a * TICKS_PER_MINUTE
  {
    var u := backoff * TICKS_PER_MINUTE;
    assert u * (2 * a - c) == u * (a - c) + u * a;
    assert u * a == backoff * a * TICKS_PER_MINUTE;
  }

  lemma ParkedWhen(p: Policy, now: nat, r: MessageRecord)
    ensures Judge(p, now, r).Park?
        <==> Countable(r.xDeath, r.stamp) && 0 < Deaths(r.xDeath, r.stamp) && Deaths(r.xDeath, r.stamp) >= p.maxDeaths
  {
  }

  /**
   A message that keeps failing and is left to the policy is parked after exactly
   maxDeaths - d replays, and no sooner than backoff * (2^(maxDeaths - 1) - 2^(d - 1))
   minutes after the death it was first seen with, its d-th.
   */
  lemma ParkedNoSooner(gen: Generation, p: Policy, r: MessageRecord, first: History, start: nat,
                       rounds: seq<Round>, now: nat)
    requires DatesLastDeath(gen) && Dated(first.xDeath, start) && 0 < first.Count() <= p.maxDeaths
    requires ByPolicy(gen, p, r, first, rounds)
    requires Judge(p, now, Seen(r, AfterRounds(gen, first, rounds))).Park? && now >= DiedAt(start, rounds)
    ensures |rounds| == p.maxDeaths - first.Count()
    ensures now >= start
              + p.backoffMinutes * TICKS_PER_MINUTE * (Pow2(p.maxDeaths - 1) - Pow2(first.Count() - 1))
  {
    hide Judge, Deaths, ByPolicy, AfterRounds, Dated, Pow2;
    assert AfterRounds(gen, first, rounds).Count() >= p.maxDeaths by {
      ParkedWhen(p, now, Seen(r, AfterRounds(gen, first, rounds)));
    }
    RoundsCount(gen, p, r, first, start, rounds);
    WaitsAddUp(gen, p, r, first, start, rounds);
    if rounds != [] {
      FrontByPolicy(gen, p, r, first, rounds);
      RoundsCount(gen, p, r, first, start, Front(rounds));
      RoundTakesTime(p, Last(rounds).replayedAt, Seen(r, AfterRounds(gen, first, Front(rounds))),
                     DiedAt(start, Front(rounds)));
    }
  }

  // ------------------------------- when a repeated death leaves the date of the first (3.x)

  lemma {:induction false} DieKeepsDate(x: seq<DeathEntry>, d: Death, at: nat)
    requires exists e :: e in x && e.time == Some(at)
    ensures exists e :: e in Die(x, d, false) && e.time == Some(at)
  {
    var e :| e in x && e.time == Some(at);
    var y := Die(x, d, false);
    assert x == [x[0]] + x[1..];
    if x[0].queue == Some(d.queue) && x[0].reason == d.reason {
      assert e == x[0] || e in x[1..];
      assert y[0] in y && y[0].time == x[0].time;
      assert e in x[1..] ==> e in y;
    } else if e in x[1..] {
      DieKeepsDate(x[1..], d, at);
      var f :| f in Die(x[1..], d, false) && f.time == Some(at);
      assert f in y;
    } else {
      assert e in y;
    }
  }

  lemma {:induction false} StaleRounds(p: Policy, r: MessageRecord, first: History, start: nat, rounds: seq<Round>)
    requires Dated(first.xDeath, start) && first.Count() > 0 && ByPolicy(V3(false), p, r, first, rounds)
    ensures AfterRounds(V3(false), first, rounds).Count() == first.Count() + |rounds|
    ensures exists e :: e in AfterRounds(V3(false), first, rounds).xDeath && e.time == Some(start)
  {
    hide Judge, Deaths, ByPolicy;
    if rounds != [] {
      var front, last := Front(rounds), rounds[|rounds| - 1];
      FrontByPolicy(V3(false), p, r, first, rounds);
      StaleRounds(p, r, first, start, front);
      var h := AfterRounds(V3(false), first, front);
      RoundTripGrows(V3(false), h, [last.death]);
      assert DieAll(h.xDeath, [last.death], false) == Die(h.xDeath, last.death, false);
      DieKeepsDate(h.xDeath, last.death, start);
    }
  }

  lemma StaleWait(p: Policy, now: nat, r: MessageRecord, start: nat)
    requires Judge(p, now, r).Replay? && start > 0 && exists e :: e in r.xDeath && e.time == Some(start)
    requires Deaths(r.xDeath, r.stamp) > 0
    ensures Deaths(r.xDeath, r.stamp) < p.maxDeaths
    ensures now >= start + Wait(p, Deaths(r.xDeath, r.stamp)) * TICKS_PER_MINUTE
  {
    ReplayMeans(p, now, r);
    hide Judge, Deaths;
    var last :| last in r.xDeath && GoesBack(p, now, r, last, Judge(p, now, r).target);
    var e :| e in r.xDeath && e.time == Some(start);
    assert Key(e) <= Key(last);
  }

  /** Then only the last wait is sure to pass before the message is parked, counted from the first death. */
  lemma ParkedNoSoonerStale(p: Policy, r: MessageRecord, first: History, start: nat, rounds: seq<Round>, now: nat)
    requires Dated(first.xDeath, start) && 0 < first.Count() < p.maxDeaths
    requires ByPolicy(V3(false), p, r, first, rounds)
    requires Judge(p, now, Seen(r, AfterRounds(V3(false), first, rounds))).Park? && now >= DiedAt(start, rounds)
    ensures |rounds| == p.maxDeaths - first.Count()
    ensures now >= start + p.backoffMinutes * Pow2(p.maxDeaths - 2) * TICKS_PER_MINUTE
  {
    hide Judge, Deaths, ByPolicy, AfterRounds, Dated;
    var gen := V3(false);
    assert AfterRounds(gen, first, rounds).Count() >= p.maxDeaths by {
      ParkedWhen(p, now, Seen(r, AfterRounds(gen, first, rounds)));
    }
    StaleRounds(p, r, first, start, rounds);
    FrontByPolicy(gen, p, r, first, rounds);
    StaleRounds(p, r, first, start, Front(rounds));
    DatedPositive(first.xDeath, start);
    StaleWait(p, Last(rounds).replayedAt, Seen(r, AfterRounds(gen, first, Front(rounds))), start);
  }

  lemma DatedPositive(x: seq<DeathEntry>, at: nat)
    requires Dated(x, at)
    ensures at > 0
  {
  }

  /** And the sum of the waits need not: backoff 5, two replays, parked after 10 minutes instead of 15. */
  lemma StaleDatesShortenTheBackoff()
    ensures exists p: Policy, r: MessageRecord, first: History, start: nat, rounds: seq<Round>, now: nat ::
              && Dated(first.xDeath, start) && first.Count() == 1 && p.maxDeaths == 3
              && ByPolicy(V3(false), p, r, first, rounds)
              && Judge(p, now, Seen(r, AfterRounds(V3(false), first, rounds))).Park?
              && now >= DiedAt(start, rounds)
              && now == start + 10 * TICKS_PER_MINUTE
              && now < start + p.backoffMinutes * TICKS_PER_MINUTE * (Pow2(2) - Pow2(0))
  {
    var p, r := Policy("orders.dlq", 3, 5, 100, None), MessageRecord(0, "", [], Absent);
    var first := History([DeathEntry(Some("orders"), "rejected", Some(1), Some(1))], Absent);
    var one, two := StaleRound(1), StaleRound(2);
    TwoStaleRounds(p, r, first, one, two);
    DatedOnce(first.xDeath[0]);
    hide Judge, AfterRounds, ByPolicy, Dated, Deaths;
    assert Pow2(2) == 4 && Pow2(0) == 1;
    assert DiedAt(1, [one, two]) == two.replayedAt;
  }

  /** The n-th replay, 5 n minutes after the first death, and the death right after it. */
  function StaleRound(n: nat): Round {
    var at := 1 + 5 * n * TICKS_PER_MINUTE;
    Round(at, Death("orders", "rejected", at))
  }

  lemma DatedOnce(entry: DeathEntry)
    requires entry.time == Some(1)
    ensures Dated([entry], 1)
  {
    assert entry in [entry];
  }

  lemma TwoStaleRounds(p: Policy, r: MessageRecord, first: History, one: Round, two: Round)
    requires p == Policy("orders.dlq", 3, 5, 100, None) && one == StaleRound(1) && two == StaleRound(2)
    requires first == History([DeathEntry(Some("orders"), "rejected", Some(1), Some(1))], Absent)
    ensures first.Count() == 1 && ByPolicy(V3(false), p, r, first, [one, two])
    ensures Judge(p, two.replayedAt, Seen(r, AfterRounds(V3(false), first, [one, two]))).Park?
  {
    var entry := first.xDeath[0];
    var second := History([entry.(count := Some(2))], Stamp.Counted(1));
    var third := History([entry.(count := Some(3))], Stamp.Counted(2));
    OneEntryCount(entry);
    OneEntryCount(entry.(count := Some(2)));
    OneEntryCount(entry.(count := Some(3)));
    OneEntryTrip(first, entry, one.death);
    OneEntryTrip(second, entry.(count := Some(2)), two.death);
    StaleHistories(first, second, third, one, two);
    OneEntryJudged(p, one.replayedAt, Seen(r, first), entry);
    OneEntryJudged(p, two.replayedAt, Seen(r, second), entry.(count := Some(2)));
    ParkedWhen(p, two.replayedAt, Seen(r, third));
    hide Judge, AfterRounds;
    assert [one, two][..0] == [] && [one, two][..1] == [one];
  }

  lemma StaleHistories(first: History, second: History, third: History, one: Round, two: Round)
    requires RoundTrip(V3(false), first, [one.death]) == second && RoundTrip(V3(false), second, [two.death]) == third
    ensures AfterRounds(V3(false), first, []) == first && AfterRounds(V3(false), first, [one]) == second
    ensures AfterRounds(V3(false), first, [one, two]) == third
  {
    hide RoundTrip;
    assert Front([one]) == [] && Front([one, two]) == [one];
  }

  lemma OneEntryCount(entry: DeathEntry)
    ensures DeathCount([entry]) == CountOf(entry)
  {
    assert [entry][1..] == [];
  }

  lemma OneEntryTrip(h: History, entry: DeathEntry, d: Death)
    requires h.xDeath == [entry] && entry.queue == Some(d.queue) && entry.reason == d.reason
    requires h.Count() == CountOf(entry) > 0
    ensures RoundTrip(V3(false), h, [d])
         == History([entry.(count := Some(CountOf(entry) + 1))], Stamp.Counted(CountOf(entry)))
  {
    assert DieAll([entry], [d], false) == Die([entry], d, false);
  }

  lemma OneEntryJudged(p: Policy, now: nat, r: MessageRecord, entry: DeathEntry)
    requires p == Policy("orders.dlq", 3, 5, 100, None) && r.xDeath == [entry]
    requires entry.queue == Some("orders") && entry.time == Some(1)
    requires entry.count.Some? && !r.stamp.Infinite?
    requires Deaths(r.xDeath, r.stamp) == entry.count.value && 1 <= entry.count.value <= 2
    requires now == 1 + 5 * entry.count.value * TICKS_PER_MINUTE
    ensures Judge(p, now, r).Replay?
  {
    assert Pow2(0) == 1 && Pow2(1) == 2;
    assert LastDeath(r.xDeath) == entry;
  }
}
