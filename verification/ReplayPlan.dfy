/** Sorting a dead-letter queue for a policy run: `plan` of app/application/replay_policies.py. */
module ReplayPlan {
  import opened Records
  import opened XDeath

  const TICKS_PER_MINUTE: nat := 60_000_000       // times are microseconds
  const MAX_MINUTES: nat := 1_440_000_000_000     // a timedelta holds fewer than 10^9 days

  datatype Policy = Policy(
    dlq: string,
    maxDeaths: nat,
    backoffMinutes: nat,
    cap: nat,
    fallback: Option<ReplayTarget>)

  /** What makes `plan` raise instead of sorting. */
  datatype Breakage =
    | CountUnreadable  // a producer's x-death count that is no number, or an infinite stamp
    | NoDeathEntry     // max() of an empty x-death: only the stamp says the message died
    | WaitTooLong      // the doubled wait does not fit a timedelta

  datatype Verdict =
    | NoHistory
    | Waiting
    | NoTarget
    | Replay(target: ReplayTarget)
    | Park
    | Breaks(why: Breakage)
  {
    predicate Acts() { Replay? || Park? }
  }

  function Pow2(n: nat): nat {
    if n == 0 then 1 else 2 * Pow2(n - 1)
  }

  // ------------------------------------------------------------------------ _last_death

  /** Entries without a time sort before all others. */
  function Key(e: DeathEntry): nat {
    if e.time.Some? then e.time.value else 0
  }

  /** The first of the entries with the greatest time. */
  function LastDeath(x: seq<DeathEntry>): (e: DeathEntry)
    requires x != []
    ensures e in x && forall other | other in x :: Key(other) <= Key(e)
  {
    if |x| == 1 then x[0] else
      var best := LastDeath(Front(x));
      assert x == Front(x) + [Last(x)];
      if Key(Last(x)) > Key(best) then Last(x) else best
  }

  /** No entry is later, and none before it as late; an entry without a time counts as the earliest there is. */
  ghost predicate FirstLatest(x: seq<DeathEntry>, i: int) {
    && 0 <= i < |x|
    && forall j | 0 <= j < |x| ::
         var one := if x[i].time.Some? then x[i].time.value else 0;
         var other := if x[j].time.Some? then x[j].time.value else 0;
         other < one || (other == one && i <= j)
  }

  /** Of several with that time, the first. */
  lemma {:induction false} LastDeathIsFirst(x: seq<DeathEntry>) returns (i: nat)
    requires x != []
    ensures FirstLatest(x, i) && x[i] == LastDeath(x) && forall j | FirstLatest(x, j) :: j == i
  {
    i := 0;
    if |x| > 1 {
      var front := Front(x);
      var best := LastDeath(front);
      assert LastDeath(x) == if Key(Last(x)) > Key(best) then Last(x) else best;
      hide LastDeath;
      if Key(Last(x)) > Key(best) {
        i := |x| - 1;
        assert forall j | 0 <= j < i :: x[j] == front[j] && x[j] in front;
      } else {
        i := LastDeathIsFirst(front);
        StillFirstLatest(x, i);
      }
    }
    OneFirstLatest(x, i);
  }

  lemma StillFirstLatest(x: seq<DeathEntry>, i: nat)
    requires |x| > 1 && FirstLatest(Front(x), i) && Key(Last(x)) <= Key(Front(x)[i])
    ensures FirstLatest(x, i)
  {
    assert forall j | 0 <= j < |x| - 1 :: x[j] == Front(x)[j];
  }

  lemma OneFirstLatest(x: seq<DeathEntry>, i: nat)
    requires FirstLatest(x, i)
    ensures forall j | FirstLatest(x, j) :: j == i
  {
    forall j | FirstLatest(x, j)
      ensures j == i
    {
      assert Key(x[i]) == Key(x[j]);
    }
  }

  // ------------------------------------------------------------------------- one message

  /** How long the message waits after its last death. */
  function Wait(p: Policy, died: nat): nat
    requires died > 0
  {
    p.backoffMinutes * Pow2(died - 1)
  }

  /** Counts can add up to less than nothing; the wait is then a fraction of the backoff. */
  predicate TooSoon(p: Policy, died: int, since: int)
    requires died != 0
  {
    if died > 0 then since < Wait(p, died) * TICKS_PER_MINUTE
    else since * Pow2(1 - died) < p.backoffMinutes * TICKS_PER_MINUTE
  }

  function TargetOf(p: Policy, origin: Option<string>): Option<ReplayTarget> {
    if origin.Some? && origin.value != "" && origin.value != p.dlq
    then Some(ReplayTarget("queue", origin, None, None))
    else p.fallback
  }

  function Judge(p: Policy, now: nat, r: MessageRecord): Verdict {
    var died := Deaths(r.xDeath, r.stamp);
    if !Countable(r.xDeath, r.stamp) then Breaks(CountUnreadable)
    else if died == 0 then NoHistory
    else if died >= p.maxDeaths then Park
    else if r.xDeath == [] then Breaks(NoDeathEntry)
    else if died > 0 && Wait(p, died) >= MAX_MINUTES then Breaks(WaitTooLong)
    else
      var last := LastDeath(r.xDeath);
      if last.time.Some? && TooSoon(p, died, now - last.time.value) then Waiting
      else
        var target := TargetOf(p, last.queue);
        if target.None? then NoTarget else Replay(target.value)
  }

  // ------------------------------------------- the verdicts, on the message's own fields

  /** It has died, may be tried again, and `plan` can tell how long it is to wait. */
  predicate Retries(p: Policy, r: MessageRecord) {
    var died := Deaths(r.xDeath, r.stamp);
    && (forall e | e in r.xDeath :: e.count.Some?) && !r.stamp.Infinite?
    && died != 0 && died < p.maxDeaths && r.xDeath != []
    && (died > 0 ==> p.backoffMinutes * Pow2(died - 1) < 1_440_000_000_000)
  }

  /** Less than the doubled backoff ago; with a count below nothing, than as small a part of it. */
  predicate Recent(p: Policy, now: nat, died: int, at: Option<nat>)
    requires died != 0
  {
    at.Some?
    && if died > 0 then now - at.value < p.backoffMinutes * Pow2(died - 1) * 60_000_000
       else (now - at.value) * Pow2(1 - died) < p.backoffMinutes * 60_000_000
  }

  /** It last died in some queue that is known and not the dead-letter queue itself. */
  predicate HasHome(p: Policy, e: DeathEntry) { e.queue.Some? && |e.queue.value| > 0 && e.queue.value != p.dlq }

  /** Which message gets which verdict. With `BrokenWhen`, every case. */
  lemma JudgedExactly(p: Policy, now: nat, r: MessageRecord, t: ReplayTarget)
    ensures var v, died := Judge(p, now, r), Deaths(r.xDeath, r.stamp);
            var countable := (forall e | e in r.xDeath :: e.count.Some?) && !r.stamp.Infinite?;
            && (v.NoHistory? <==> countable && died == 0)
            && (v.Park? <==> countable && died != 0 && died >= p.maxDeaths)
            && (v.Waiting? <==>
                  && Retries(p, r)
                  && exists i :: FirstLatest(r.xDeath, i) && Recent(p, now, died, r.xDeath[i].time))
            && (v.NoTarget? <==>
                  && Retries(p, r) && p.fallback.None?
                  && exists i :: FirstLatest(r.xDeath, i) && !Recent(p, now, died, r.xDeath[i].time)
                                 && !HasHome(p, r.xDeath[i]))
            && (v == Replay(t) <==>
                  && Retries(p, r)
                  && exists i :: FirstLatest(r.xDeath, i) && !Recent(p, now, died, r.xDeath[i].time)
                                 && if HasHome(p, r.xDeath[i])
                                    then t == ReplayTarget("queue", r.xDeath[i].queue, None, None)
                                    else p.fallback == Some(t))
  {
    hide Deaths, LastDeath, Pow2, FirstLatest;
    if r.xDeath != [] {
      var i := LastDeathIsFirst(r.xDeath);
      assert FirstLatest(r.xDeath, i);
    }
  }

  // --------------------------------------------------------------------- the whole queue

  datatype Plan = Plan(
    replay: map<ReplayTarget, seq<Fingerprint>>,
    park: seq<Fingerprint>,
    waiting: nat,
    noHistory: nat,
    noTarget: nat,
    capped: nat)

  datatype Planned = Sorted(plan: Plan) | Raised(why: Breakage)

  function Count(p: Policy, now: nat, rs: seq<MessageRecord>, v: Verdict): nat {
    if rs == [] then 0 else Count(p, now, Front(rs), v) + (if Judge(p, now, Last(rs)) == v then 1 else 0)
  }

  /** The messages a run could act on, in queue order. */
  function Actionable(p: Policy, now: nat, rs: seq<MessageRecord>): seq<MessageRecord> {
    if rs == [] then []
    else Actionable(p, now, Front(rs)) + (if Judge(p, now, Last(rs)).Acts() then [Last(rs)] else [])
  }

  /** The ones it does act on: the oldest. */
  function Acted(p: Policy, now: nat, rs: seq<MessageRecord>): seq<MessageRecord> {
    var a := Actionable(p, now, rs);
    if |a| <= p.cap then a else a[..p.cap]
  }

  /** Those of them with this verdict, in queue order. */
  function FpsWith(p: Policy, now: nat, rs: seq<MessageRecord>, v: Verdict): seq<Fingerprint> {
    if rs == [] then []
    else FpsWith(p, now, Front(rs), v) + (if Judge(p, now, Last(rs)) == v then [Last(rs).fingerprint] else [])
  }

  /** What a plan says: counts over the queue, and the acted-on messages by what happens to them. */
  ghost predicate Describes(p: Policy, now: nat, rs: seq<MessageRecord>, out: Plan) {
    var acted := Acted(p, now, rs);
    && out.waiting == Count(p, now, rs, Waiting)
    && out.noHistory == Count(p, now, rs, NoHistory)
    && out.noTarget == Count(p, now, rs, NoTarget)
    && out.capped == |Actionable(p, now, rs)| - |acted|
    && out.park == FpsWith(p, now, acted, Park)
    && (forall t :: (if t in out.replay then out.replay[t] else []) == FpsWith(p, now, acted, Replay(t)))
    && (forall t | t in out.replay :: out.replay[t] != [])
  }

  predicate Broken(p: Policy, now: nat, r: MessageRecord) { Judge(p, now, r).Breaks? }

  /** The loop of `plan`. */
  method MakePlan(p: Policy, now: nat, records: seq<MessageRecord>) returns (r: Planned)
    ensures r.Raised? ==>
              exists i :: 0 <= i < |records| && Judge(p, now, records[i]) == Breaks(r.why)
                          && forall j | 0 <= j < i :: !Broken(p, now, records[j])
    ensures r.Sorted? ==>
              (forall i | 0 <= i < |records| :: !Broken(p, now, records[i])) && Describes(p, now, records, r.plan)
  {
    hide Judge, Acted, Describes;
    var out := Plan(map[], [], 0, 0, 0, 0);
    var acted: nat := 0;
    NothingYet(p, now, out);
    for i := 0 to |records|
      invariant forall j | 0 <= j < i :: !Broken(p, now, records[j])
      invariant Describes(p, now, records[..i], out)
      invariant acted == |Acted(p, now, records[..i])|
    {
      var record := records[i];
      assert records[..i + 1] == records[..i] + [record];
      var verdict := Judge(p, now, record);
      ghost var before := out;
      match verdict {
        case Breaks(why) =>
          return Raised(why);
        case NoHistory =>
          out := out.(noHistory := out.noHistory + 1);
        case Waiting =>
          out := out.(waiting := out.waiting + 1);
        case NoTarget =>
          out := out.(noTarget := out.noTarget + 1);
        case Park =>
          if acted >= p.cap {
            out := out.(capped := out.capped + 1);
          } else {
            acted := acted + 1;
            out := out.(park := out.park + [record.fingerprint]);
          }
        case Replay(t) =>
          if acted >= p.cap {
            out := out.(capped := out.capped + 1);
          } else {
            acted := acted + 1;
            var sofar := if t in out.replay then out.replay[t] else [];
            out := out.(replay := out.replay[t := sofar + [record.fingerprint]]);
          }
      }
      OneMoreDescribed(p, now, records[..i], record, before, out);
    }
    assert records[..|records|] == records;
    r := Sorted(out);
  }

  lemma NothingYet(p: Policy, now: nat, out: Plan)
    requires out == Plan(map[], [], 0, 0, 0, 0)
    ensures Describes(p, now, [], out) && Acted(p, now, []) == []
  {
  }

  /** How the description changes with one more record. */
  lemma OneMore(p: Policy, now: nat, rs: seq<MessageRecord>, r: MessageRecord)
    ensures var v := Judge(p, now, r);
            var acted, acted' := Acted(p, now, rs), Acted(p, now, rs + [r]);
            && (forall w :: Count(p, now, rs + [r], w) == Count(p, now, rs, w) + (if v == w then 1 else 0))
            && |Actionable(p, now, rs + [r])| == |Actionable(p, now, rs)| + (if v.Acts() then 1 else 0)
            && acted' == (if v.Acts() && |acted| < p.cap then acted + [r] else acted)
            && (forall w :: FpsWith(p, now, acted + [r], w)
                         == FpsWith(p, now, acted, w) + (if v == w then [r.fingerprint] else []))
  {
    hide Judge;
    var acted := Acted(p, now, rs);
    assert Front(rs + [r]) == rs;
    assert Front(acted + [r]) == acted;
  }

  lemma OneMoreDescribed(p: Policy, now: nat, rs: seq<MessageRecord>, r: MessageRecord, out: Plan, next: Plan)
    requires Describes(p, now, rs, out) && !Broken(p, now, r)
    requires var v, room := Judge(p, now, r), |Acted(p, now, rs)| < p.cap;
             && next.waiting == out.waiting + (if v.Waiting? then 1 else 0)
             && next.noHistory == out.noHistory + (if v.NoHistory? then 1 else 0)
             && next.noTarget == out.noTarget + (if v.NoTarget? then 1 else 0)
             && next.capped == out.capped + (if v.Acts() && !room then 1 else 0)
             && next.park == out.park + (if v.Park? && room then [r.fingerprint] else [])
             && next.replay ==
                  (if v.Replay? && room
                   then out.replay[v.target := (if v.target in out.replay then out.replay[v.target] else [])
                                               + [r.fingerprint]]
                   else out.replay)
    ensures Describes(p, now, rs + [r], next)
    ensures |Acted(p, now, rs + [r])| ==
              |Acted(p, now, rs)| + (if Judge(p, now, r).Acts() && |Acted(p, now, rs)| < p.cap then 1 else 0)
  {
    hide Judge, Acted, Actionable, Count, FpsWith;
    OneMore(p, now, rs, r);
  }

  // ------------------------------------------------------------- every record is in one place

  lemma {:induction false} CountsCover(p: Policy, now: nat, rs: seq<MessageRecord>)
    requires forall i | 0 <= i < |rs| :: !Broken(p, now, rs[i])
    ensures |rs| == Count(p, now, rs, Waiting) + Count(p, now, rs, NoHistory) + Count(p, now, rs, NoTarget)
                  + |Actionable(p, now, rs)|
  {
    if rs != [] {
      assert !Broken(p, now, rs[|rs| - 1]);
      CountsCover(p, now, Front(rs));
    }
  }

  /** The lengths of all the lists of a plan's `replay`. */
  ghost function Total(m: map<ReplayTarget, seq<Fingerprint>>): nat {
    if m == map[] then 0 else
      var t :| t in m;
      |m[t]| + Total(m - {t})
  }

  lemma {:induction false} TotalWithout(m: map<ReplayTarget, seq<Fingerprint>>, t: ReplayTarget)
    requires t in m
    ensures Total(m) == |m[t]| + Total(m - {t})
    decreases |m|
  {
    var u :| u in m && Total(m) == |m[u]| + Total(m - {u});
    if u != t {
      TotalWithout(m - {u}, t);
      TotalWithout(m - {t}, u);
      assert m - {u} - {t} == m - {t} - {u};
    }
  }

  function Lists(p: Policy, now: nat, acted: seq<MessageRecord>, targets: set<ReplayTarget>)
    : map<ReplayTarget, seq<Fingerprint>>
  {
    map t | t in targets :: FpsWith(p, now, acted, Replay(t))
  }

  lemma TotalUpdate(m: map<ReplayTarget, seq<Fingerprint>>, t: ReplayTarget, fps: seq<Fingerprint>)
    requires t in m
    ensures Total(m[t := fps]) == Total(m) - |m[t]| + |fps|
  {
    TotalWithout(m, t);
    TotalWithout(m[t := fps], t);
    assert m[t := fps] - {t} == m - {t};
  }

  lemma ListsSnoc(p: Policy, now: nat, acted: seq<MessageRecord>, r: MessageRecord, targets: set<ReplayTarget>)
    ensures var v := Judge(p, now, r);
            var before, after := Lists(p, now, acted, targets), Lists(p, now, acted + [r], targets);
            if v.Replay? && v.target in targets then after == before[v.target := before[v.target] + [r.fingerprint]]
            else after == before
    ensures FpsWith(p, now, acted + [r], Park)
         == FpsWith(p, now, acted, Park) + (if Judge(p, now, r).Park? then [r.fingerprint] else [])
  {
    hide Judge;
    assert Front(acted + [r]) == acted;
    var v, before, after := Judge(p, now, r), Lists(p, now, acted, targets), Lists(p, now, acted + [r], targets);
    assert forall t | t in targets ::
        after[t] == if v == Replay(t) then before[t] + [r.fingerprint] else before[t];
    if v.Replay? && v.target in targets {
      assert after == before[v.target := before[v.target] + [r.fingerprint]];
    } else {
      assert after == before;
    }
  }

  /** Each acted-on message is in exactly one list. */
  lemma {:induction false} ListsCover(p: Policy, now: nat, acted: seq<MessageRecord>, targets: set<ReplayTarget>)
    requires forall i | 0 <= i < |acted| ::
               || Judge(p, now, acted[i]).Park?
               || (Judge(p, now, acted[i]).Replay? && Judge(p, now, acted[i]).target in targets)
    ensures |acted| == |FpsWith(p, now, acted, Park)| + Total(Lists(p, now, acted, targets))
  {
    if acted == [] {
      EmptyLists(Lists(p, now, acted, targets));
    } else {
      hide Judge, FpsWith, Total;
      var front, last := Front(acted), acted[|acted| - 1];
      var v := Judge(p, now, last);
      assert acted == front + [last];
      ListsCover(p, now, front, targets);
      ListsSnoc(p, now, front, last, targets);
      if v.Replay? {
        var before := Lists(p, now, front, targets);
        TotalUpdate(before, v.target, before[v.target] + [last.fingerprint]);
      }
    }
  }

  lemma {:induction false} EmptyLists(m: map<ReplayTarget, seq<Fingerprint>>)
    requires forall t | t in m :: m[t] == []
    ensures Total(m) == 0
    decreases |m|
  {
    if m != map[] {
      var t :| t in m;
      TotalWithout(m, t);
      EmptyLists(m - {t});
    }
  }

  lemma {:induction false} ActionableActs(p: Policy, now: nat, rs: seq<MessageRecord>)
    ensures forall i | 0 <= i < |Actionable(p, now, rs)| :: Judge(p, now, Actionable(p, now, rs)[i]).Acts()
  {
    if rs != [] {
      ActionableActs(p, now, Front(rs));
    }
  }

  lemma {:induction false} FpsNonEmpty(p: Policy, now: nat, rs: seq<MessageRecord>, i: nat)
    requires i < |rs|
    ensures FpsWith(p, now, rs, Judge(p, now, rs[i])) != []
  {
    if i < |rs| - 1 {
      FpsNonEmpty(p, now, Front(rs), i);
    }
  }

  /** A plan's counts and lists add up to the queue, and it acts on at most `cap` messages. */
  lemma PlanCovers(p: Policy, now: nat, rs: seq<MessageRecord>, out: Plan)
    requires Describes(p, now, rs, out) && forall i | 0 <= i < |rs| :: !Broken(p, now, rs[i])
    ensures |rs| == out.waiting + out.noHistory + out.noTarget + out.capped + |out.park| + Total(out.replay)
    ensures |out.park| + Total(out.replay) == |Acted(p, now, rs)| <= p.cap
  {
    hide Judge, Count, Actionable, FpsWith, Total;
    var acted := Acted(p, now, rs);
    CountsCover(p, now, rs);
    ActionableActs(p, now, rs);
    forall i | 0 <= i < |acted| && Judge(p, now, acted[i]).Replay?
      ensures Judge(p, now, acted[i]).target in out.replay
    {
      FpsNonEmpty(p, now, acted, i);
    }
    assert forall i | 0 <= i < |acted| :: acted[i] == Actionable(p, now, rs)[i];
    ListsCover(p, now, acted, out.replay.Keys);
    assert Lists(p, now, acted, out.replay.Keys) == out.replay;
  }

  // --------------------------------------------------------------- the plan, by place in the queue

  lemma OneMorePlace(p: Policy, now: nat, rs: seq<MessageRecord>, v: Verdict)
    requires rs != []
    ensures |set i | 0 <= i < |rs| && Judge(p, now, rs[i]) == v|
         == |set i | 0 <= i < |Front(rs)| && Judge(p, now, Front(rs)[i]) == v|
            + (if Judge(p, now, Last(rs)) == v then 1 else 0)
  {
    hide Judge;
    var front := Front(rs);
    var all := set i | 0 <= i < |rs| && Judge(p, now, rs[i]) == v;
    var fewer := set i | 0 <= i < |front| && Judge(p, now, front[i]) == v;
    OneMoreIn(fewer, all, |front|, Judge(p, now, Last(rs)) == v);
  }

  lemma OneMoreToAct(p: Policy, now: nat, rs: seq<MessageRecord>)
    requires rs != []
    ensures |set i | 0 <= i < |rs| && Judge(p, now, rs[i]).Acts()|
         == |set i | 0 <= i < |Front(rs)| && Judge(p, now, Front(rs)[i]).Acts()|
            + (if Judge(p, now, Last(rs)).Acts() then 1 else 0)
  {
    hide Judge;
    var front := Front(rs);
    var all := set i | 0 <= i < |rs| && Judge(p, now, rs[i]).Acts();
    var fewer := set i | 0 <= i < |front| && Judge(p, now, front[i]).Acts();
    OneMoreIn(fewer, all, |front|, Judge(p, now, Last(rs)).Acts());
  }

  lemma {:induction false} CountPlaces(p: Policy, now: nat, rs: seq<MessageRecord>, v: Verdict)
    ensures Count(p, now, rs, v) == |set i | 0 <= i < |rs| && Judge(p, now, rs[i]) == v|
    ensures |Actionable(p, now, rs)| == |set i | 0 <= i < |rs| && Judge(p, now, rs[i]).Acts()|
  {
    var judged := set i | 0 <= i < |rs| && Judge(p, now, rs[i]) == v;
    var acts := set i | 0 <= i < |rs| && Judge(p, now, rs[i]).Acts();
    if rs == [] {
      assert judged == {} && acts == {};
    } else {
      hide Judge;
      CountPlaces(p, now, Front(rs), v);
      OneMorePlace(p, now, rs, v);
      OneMoreToAct(p, now, rs);
    }
  }

  lemma {:induction false} FpsPlaces(p: Policy, now: nat, rs: seq<MessageRecord>, v: Verdict, fp: Fingerprint)
    ensures fp in FpsWith(p, now, rs, v)
        <==> exists i :: 0 <= i < |rs| && Judge(p, now, rs[i]) == v && rs[i].fingerprint == fp
  {
    if rs != [] {
      var rest := FpsWith(p, now, Front(rs), v);
      assert FpsWith(p, now, rs, v) == rest + (if Judge(p, now, Last(rs)) == v then [Last(rs).fingerprint] else []);
      hide Judge, FpsWith;
      FpsPlaces(p, now, Front(rs), v, fp);
      assert forall i | 0 <= i < |rs| - 1 :: rs[i] == Front(rs)[i];
    }
  }

  lemma {:induction false} FpsOfActionable(p: Policy, now: nat, rs: seq<MessageRecord>, v: Verdict)
    requires v.Acts()
    ensures FpsWith(p, now, Actionable(p, now, rs), v) == FpsWith(p, now, rs, v)
  {
    if rs != [] {
      hide Judge;
      var rest := Actionable(p, now, Front(rs));
      FpsOfActionable(p, now, Front(rs), v);
      if Judge(p, now, Last(rs)).Acts() {
        assert Front(rest + [Last(rs)]) == rest;
      } else {
        assert Actionable(p, now, rs) == rest;
      }
    }
  }

  /** What a run acts on is all it could act on up to some place of the queue. */
  lemma {:induction false} ActedUpTo(p: Policy, now: nat, rs: seq<MessageRecord>) returns (n: nat)
    ensures n <= |rs| && Acted(p, now, rs) == Actionable(p, now, rs[..n])
  {
    hide Judge;
    n := |rs|;
    assert rs[..|rs|] == rs;
    if |Actionable(p, now, rs)| > p.cap {
      n := ActedUpTo(p, now, Front(rs));
      assert Front(rs)[..n] == rs[..n];
      assert Acted(p, now, rs) == Acted(p, now, Front(rs));
    }
  }

  /** A message with this fingerprint and verdict is among the first n. */
  ghost predicate JudgedBefore(p: Policy, now: nat, rs: seq<MessageRecord>, n: nat, v: Verdict, fp: Fingerprint)
    requires n <= |rs|
  {
    exists i :: 0 <= i < n && Judge(p, now, rs[i]) == v && rs[i].fingerprint == fp
  }

  predicate ListedUnder(out: Plan, t: ReplayTarget, fp: Fingerprint) { t in out.replay && fp in out.replay[t] }

  /**
   The oldest first: up to some place n of the queue a plan lists every message to park or to replay,
   under its own target, and none behind; that is all there is, or as many as the cap allows.
   */
  lemma OldestFirst(p: Policy, now: nat, rs: seq<MessageRecord>, out: Plan) returns (n: nat)
    requires Describes(p, now, rs, out) && forall i | 0 <= i < |rs| :: !Broken(p, now, rs[i])
    ensures n <= |rs|
    ensures forall fp :: fp in out.park <==> JudgedBefore(p, now, rs, n, Park, fp)
    ensures forall t, fp :: ListedUnder(out, t, fp) <==> JudgedBefore(p, now, rs, n, Replay(t), fp)
    ensures var acted := set i | 0 <= i < n && Judge(p, now, rs[i]).Acts();
            var all := set i | 0 <= i < |rs| && Judge(p, now, rs[i]).Acts();
            && |out.park| + Total(out.replay) == |acted| == (if |all| <= p.cap then |all| else p.cap)
            && out.capped == |all| - |acted|
    ensures out.waiting == |set i | 0 <= i < |rs| && Judge(p, now, rs[i]) == Waiting|
    ensures out.noHistory == |set i | 0 <= i < |rs| && Judge(p, now, rs[i]) == NoHistory|
    ensures out.noTarget == |set i | 0 <= i < |rs| && Judge(p, now, rs[i]) == NoTarget|
  {
    hide Judge, Count, Actionable, FpsWith, Total, JudgedBefore;
    n := ActedUpTo(p, now, rs);
    var few := rs[..n];
    PlanCovers(p, now, rs, out);
    CountPlaces(p, now, rs, Waiting);
    CountPlaces(p, now, rs, NoHistory);
    CountPlaces(p, now, rs, NoTarget);
    CountPlaces(p, now, few, Park);
    assert (set i | 0 <= i < |few| && Judge(p, now, few[i]).Acts())
        == set i | 0 <= i < n && Judge(p, now, rs[i]).Acts();
    forall fp
      ensures fp in out.park <==> JudgedBefore(p, now, rs, n, Park, fp)
    {
      ListedUpTo(p, now, rs, n, Park, fp);
    }
    forall t, fp
      ensures ListedUnder(out, t, fp) <==> JudgedBefore(p, now, rs, n, Replay(t), fp)
    {
      ListedUpTo(p, now, rs, n, Replay(t), fp);
      assert (if t in out.replay then out.replay[t] else []) == FpsWith(p, now, Acted(p, now, rs), Replay(t));
    }
  }

  lemma ListedUpTo(p: Policy, now: nat, rs: seq<MessageRecord>, n: nat, v: Verdict, fp: Fingerprint)
    requires n <= |rs| && Acted(p, now, rs) == Actionable(p, now, rs[..n]) && v.Acts()
    ensures fp in FpsWith(p, now, Acted(p, now, rs), v) <==> JudgedBefore(p, now, rs, n, v, fp)
  {
    hide Judge, Acted, FpsWith, Actionable;
    FpsOfActionable(p, now, rs[..n], v);
    FpsPlaces(p, now, rs[..n], v, fp);
    assert forall i | 0 <= i < n :: rs[..n][i] == rs[i];
  }

  /**
   As time goes by fewer messages wait, and only those that did are sorted otherwise: whatever was
   actionable, without history or without a target stays so, and plan raises on the same messages.
   */
  lemma {:induction false} WaitingShrinks(p: Policy, now: nat, later: nat, rs: seq<MessageRecord>)
    requires now <= later
    ensures Count(p, later, rs, Waiting) <= Count(p, now, rs, Waiting)
    ensures forall i | 0 <= i < |rs| && !Judge(p, now, rs[i]).Waiting? :: Judge(p, later, rs[i]) == Judge(p, now, rs[i])
    ensures Count(p, later, rs, NoHistory) == Count(p, now, rs, NoHistory)
    ensures forall i | 0 <= i < |rs| :: Broken(p, later, rs[i]) <==> Broken(p, now, rs[i])
    ensures |Actionable(p, later, rs)| >= |Actionable(p, now, rs)|
  {
    if rs != [] {
      hide Judge;
      WaitingShrinks(p, now, later, Front(rs));
      StaysJudged(p, now, later, Last(rs));
      assert rs == Front(rs) + [Last(rs)];
    }
  }

  lemma StaysJudged(p: Policy, now: nat, later: nat, r: MessageRecord)
    requires now <= later
    ensures !Judge(p, now, r).Waiting? ==> Judge(p, later, r) == Judge(p, now, r)
    ensures Judge(p, now, r).Waiting? ==> !Judge(p, later, r).Breaks? && !Judge(p, later, r).NoHistory?
  {
    hide Deaths, LastDeath, TooSoon, Wait;
    if r.xDeath != [] && LastDeath(r.xDeath).time.Some? && Deaths(r.xDeath, r.stamp) != 0 {
      var at := LastDeath(r.xDeath).time.value;
      LessSoon(p, Deaths(r.xDeath, r.stamp), now - at, later - at);
    }
  }

  lemma LessSoon(p: Policy, died: int, since: int, longer: int)
    requires died != 0 && since <= longer
    ensures TooSoon(p, died, longer) ==> TooSoon(p, died, since)
  {
    if died < 0 {
      assert since * Pow2(1 - died) <= longer * Pow2(1 - died);
    }
  }

  /**
   What a replay means: the message is old enough after its last death, and goes to the queue
   where that death happened; only if that is unknown, or the dead-letter queue itself, to the
   configured target.
   */
  lemma ReplayMeans(p: Policy, now: nat, r: MessageRecord)
    requires Judge(p, now, r).Replay?
    ensures Countable(r.xDeath, r.stamp) && Deaths(r.xDeath, r.stamp) < p.maxDeaths
    ensures exists e :: e in r.xDeath && GoesBack(p, now, r, e, Judge(p, now, r).target)
  {
    assert GoesBack(p, now, r, LastDeath(r.xDeath), Judge(p, now, r).target);
  }

  predicate GoesBack(p: Policy, now: nat, r: MessageRecord, e: DeathEntry, target: ReplayTarget) {
    && Deaths(r.xDeath, r.stamp) != 0
    && (forall other | other in r.xDeath :: Key(other) <= Key(e))
    && (e.time.Some? ==> !TooSoon(p, Deaths(r.xDeath, r.stamp), now - e.time.value))
    && (if e.queue.Some? && e.queue.value !in {"", p.dlq}
        then target == ReplayTarget("queue", e.queue, None, None)
        else p.fallback == Some(target))
  }

  lemma {:induction false} ListedFrom(p: Policy, now: nat, rs: seq<MessageRecord>, v: Verdict, fp: Fingerprint)
    requires fp in FpsWith(p, now, rs, v)
    ensures exists r :: r in rs && r.fingerprint == fp && Judge(p, now, r) == v
  {
    hide Judge;
    var r := Last(rs);
    if Judge(p, now, r) == v && r.fingerprint == fp {
      assert r in rs;
    } else {
      ListedFrom(p, now, Front(rs), v, fp);
      var x :| x in Front(rs) && x.fingerprint == fp && Judge(p, now, x) == v;
      assert x in rs;
    }
  }

  lemma {:induction false} ActionableAmong(p: Policy, now: nat, rs: seq<MessageRecord>)
    ensures forall r | r in Actionable(p, now, rs) :: r in rs
  {
    if rs != [] {
      hide Judge;
      ActionableAmong(p, now, Front(rs));
      assert rs == Front(rs) + [Last(rs)];
    }
  }

  /** Every fingerprint a plan lists under a target is of a message of the queue that is due and goes back there. */
  lemma ReplaysGoBack(p: Policy, now: nat, rs: seq<MessageRecord>, out: Plan, t: ReplayTarget, fp: Fingerprint)
    requires Describes(p, now, rs, out) && t in out.replay && fp in out.replay[t]
    ensures exists r, e :: r in rs && r.fingerprint == fp && e in r.xDeath && GoesBack(p, now, r, e, t)
  {
    hide Judge, GoesBack, Actionable, FpsWith;
    ListedFrom(p, now, Acted(p, now, rs), Replay(t), fp);
    var r :| r in Acted(p, now, rs) && r.fingerprint == fp && Judge(p, now, r) == Replay(t);
    assert r in Actionable(p, now, rs);
    ActionableAmong(p, now, rs);
    ReplayMeans(p, now, r);
  }

  /**
   When `plan` raises: a message has an x-death count that is no number, or an infinite stamp; or it
   is below `maxDeaths` and either has no x-death at all, only a stamp, or would have to wait longer
   than a timedelta holds.
   */
  lemma BrokenWhen(p: Policy, now: nat, r: MessageRecord)
    ensures Broken(p, now, r) <==>
              || (exists e :: e in r.xDeath && e.count.None?) || r.stamp.Infinite?
              || (r.xDeath == [] && Stamped(r.stamp) > 0 && Stamped(r.stamp) + 1 < p.maxDeaths)
              || (r.xDeath != [] && 0 < Deaths(r.xDeath, r.stamp) < p.maxDeaths
                  && Wait(p, Deaths(r.xDeath, r.stamp)) >= MAX_MINUTES)
  {
    if r.xDeath == [] {
      assert DeathCount(r.xDeath) == 0;
    }
    hide Deaths, LastDeath, Wait, TooSoon;
    assert Countable(r.xDeath, r.stamp) <==> !(exists e :: e in r.xDeath && e.count.None?) && !r.stamp.Infinite?;
  }

  /** One header a producer wrote, whatever the policy and the rest of the message: nobody's run gets past it. */
  lemma UnreadableCountBreaks(p: Policy, now: nat, r: MessageRecord, queue: Option<string>, reason: string,
                              time: Option<nat>)
    ensures Judge(p, now, r.(xDeath := [DeathEntry(queue, reason, None, time)])) == Breaks(CountUnreadable)
  {
    assert DeathEntry(queue, reason, None, time) in [DeathEntry(queue, reason, None, time)];
  }

  /** A replay that nobody consumed and that never died: one such message stops every run of its policy. */
  lemma StampAloneBreaks(now: nat)
    ensures Judge(Policy("orders.dlq", 3, 5, 100, None), now, MessageRecord(0, "", [], Stamp.Counted(1)))
         == Breaks(NoDeathEntry)
  {
  }

  /** Another, within what the API accepts: backoff of a day, 31 deaths of 100. */
  lemma LongWaitBreaks(now: nat)
    ensures Judge(Policy("orders.dlq", 100, 1440, 100, None), now,
                  MessageRecord(0, "", [DeathEntry(Some("orders"), "rejected", Some(31), Some(0))], Absent))
         == Breaks(WaitTooLong)
  {
    var x := [DeathEntry(Some("orders"), "rejected", Some(31), Some(0))];
    assert x[1..] == [] && DeathCount(x) == 31 && Countable(x, Absent);
    hide Pow2;
    AThousandMillion();
  }

  lemma AThousandMillion()
    ensures Pow2(29) == 536_870_912 && Pow2(30) == 1_073_741_824
  {
    assert Pow2(5) == 32 && Pow2(30) == 2 * Pow2(29);
    hide Pow2;
    SumOfExponents(5, 5, 32, 32);
    SumOfExponents(10, 10, 1024, 1024);
    SumOfExponents(20, 10, 1_048_576, 1024);
  }

  lemma SumOfExponents(m: nat, n: nat, a: nat, b: nat)
    requires Pow2(m) == a && Pow2(n) == b
    ensures Pow2(m + n) == a * b
  {
    Pow2Add(m, n);
  }

  lemma {:induction false} Pow2Grows(m: nat, n: nat)
    requires m <= n
    ensures Pow2(m) <= Pow2(n)
  {
    if m < n {
      Pow2Grows(m, n - 1);
    }
  }

  /** With at most 31 deaths allowed, no backoff the API accepts (a day) is too long. */
  lemma ShortPoliciesFit(p: Policy, now: nat, r: MessageRecord)
    requires p.backoffMinutes <= 1440 && p.maxDeaths <= 31
    ensures Judge(p, now, r) != Breaks(WaitTooLong)
  {
    hide Deaths, Pow2, LastDeath, TooSoon;
    var died := Deaths(r.xDeath, r.stamp);
    if 0 < died < p.maxDeaths {
      Pow2Grows(died - 1, 29);
      AThousandMillion();
      ProductBound(p.backoffMinutes, Pow2(died - 1), 1440, 536_870_912);
    }
  }

  lemma {:induction false} Pow2Add(m: nat, n: nat)
    ensures Pow2(m + n) == Pow2(m) * Pow2(n)
  {
    if n > 0 {
      Pow2Add(m, n - 1);
      assert Pow2(m + n) == 2 * Pow2(m + (n - 1)) && Pow2(n) == 2 * Pow2(n - 1);
      hide Pow2;
      assert 2 * (Pow2(m) * Pow2(n - 1)) == Pow2(m) * (2 * Pow2(n - 1));
    }
  }

  lemma ProductBound(a: nat, b: nat, c: nat, d: nat)
    requires a <= c && b <= d
    ensures a * b <= c * d
  {
    assert a * b <= a * d;
    assert a * d <= c * d;
  }
}
