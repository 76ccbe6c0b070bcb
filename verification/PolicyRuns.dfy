/**
 Policy runs: what one run adds up to, and the pause after three failed runs in a row.
 app/application/replay_policies.py and ReplayPolicyRepository of
 app/infrastructure/persistence/store.py.
 */
module PolicyRuns {
  import opened Records
  import opened Broker
  import opened BulkOperator
  import opened BulkService
  import opened ReplayPlan

  // -------------------------------------------------------------------- one run's totals

  /** What `_bulk` gets: an exception anywhere in dry run or execute, or a result per fingerprint. */
  datatype Bulk = Threw | Executed(results: seq<BulkResult>)
  {
    function Failed(fps: seq<Fingerprint>): nat {
      if Threw? then |fps| else Summarize(results).failed
    }

    function Succeeded(): nat {
      if Threw? then 0 else Summarize(results).succeeded
    }

    predicate Fits(fps: seq<Fingerprint>) { Executed? ==> |results| <= |fps| }
  }

  datatype RunResult = RunResult(replayed: nat, parked: nat, failed: nat, held: nat)
  {
    function Total(): nat { replayed + parked + failed + held }
  }

  function SetOfSize(s: seq<Fingerprint>): (n: nat) { |SetOf(s)| }

  lemma {:induction false} FewerThanListed(s: seq<Fingerprint>)
    ensures SetOfSize(s) <= |s|
  {
    if s == [] {
      assert SetOf(s) == {};
    } else {
      FewerThanListed(Front(s));
      assert s == Front(s) + [Last(s)];
      assert SetOf(s) == SetOf(Front(s)) + {Last(s)};
    }
  }

  /** A bulk action on selected fingerprints reports on no more than were listed. */
  lemma SelectionFits(c: ChannelId, action: Action, target: Option<ReplayTarget>, read: seq<Message>, past: Past,
                      results: seq<BulkResult>, fps: seq<Fingerprint>, whole: bool, window: nat)
    requires Reported(c, action, target, read, past,
                      BulkOperator.Sorted(Fps(Picked(read, whole, window, "", Some(SetOf(fps))))), results)
    ensures Executed(results).Fits(fps)
  {
    var picked := Picked(read, whole, window, "", Some(SetOf(fps)));
    FilterMembers(Window(read, whole, window, Some(SetOf(fps))), "", Some(SetOf(fps)));
    assert Fps(picked) <= SetOf(fps);
    SmallerSubset(Fps(picked), SetOf(fps));
    FewerThanListed(fps);
  }

  function Listed(replay: map<ReplayTarget, seq<Fingerprint>>, t: ReplayTarget): nat {
    if t in replay then |replay[t]| else 0
  }

  function Lengths(replay: map<ReplayTarget, seq<Fingerprint>>, order: seq<ReplayTarget>): nat {
    if order == [] then 0 else Lengths(replay, Front(order)) + Listed(replay, Last(order))
  }

  predicate Distinct<T(==)>(s: seq<T>) { forall i, j | 0 <= i < j < |s| :: s[i] != s[j] }

  lemma {:induction false} LengthsOfAll(replay: map<ReplayTarget, seq<Fingerprint>>, order: seq<ReplayTarget>)
    requires Distinct(order) && forall t :: t in order <==> t in replay
    ensures Lengths(replay, order) == ReplayPlan.Total(replay)
  {
    if order == [] {
      assert replay == map[];
    } else {
      hide ReplayPlan.Total;
      var t, front := Last(order), Front(order);
      assert order == front + [t];
      assert t in order && t !in front;
      TotalWithout(replay, t);
      LengthsOfAll(replay - {t}, front);
      SameLengths(replay, replay - {t}, front);
    }
  }

  lemma OneMoreLength(replay: map<ReplayTarget, seq<Fingerprint>>, order: seq<ReplayTarget>, t: ReplayTarget)
    ensures Lengths(replay, order + [t]) == Lengths(replay, order) + Listed(replay, t)
  {
    assert Front(order + [t]) == order;
  }

  lemma {:induction false} SameLengths(a: map<ReplayTarget, seq<Fingerprint>>, b: map<ReplayTarget, seq<Fingerprint>>,
                                       order: seq<ReplayTarget>)
    requires forall t | t in order :: t in a && t in b && a[t] == b[t]
    ensures Lengths(a, order) == Lengths(b, order)
  {
    if order != [] {
      assert Last(order) in order && forall t | t in Front(order) :: t in order;
      SameLengths(a, b, Front(order));
    }
  }

  /** This target's share of the run failed. */
  predicate Troubled(plan: Plan, deserted: set<ReplayTarget>, bulks: map<ReplayTarget, Bulk>, t: ReplayTarget) {
    t in plan.replay && t in bulks && t !in deserted && bulks[t].Failed(plan.replay[t]) > 0
  }

  ghost predicate SomeTroubled(plan: Plan, deserted: set<ReplayTarget>, bulks: map<ReplayTarget, Bulk>,
                               order: seq<ReplayTarget>)
  {
    exists t :: t in order && Troubled(plan, deserted, bulks, t)
  }

  lemma OneMoreTroubled(plan: Plan, deserted: set<ReplayTarget>, bulks: map<ReplayTarget, Bulk>,
                        order: seq<ReplayTarget>, t: ReplayTarget)
    ensures SomeTroubled(plan, deserted, bulks, order + [t])
        <==> SomeTroubled(plan, deserted, bulks, order) || Troubled(plan, deserted, bulks, t)
  {
    assert forall u :: u in order + [t] <==> u in order || u == t;
  }

  /** `_bulk`: only the failures count here. */
  function Tallied(r: RunResult, bulk: Bulk, fps: seq<Fingerprint>): (after: RunResult)
    requires bulk.Fits(fps)
    ensures after.Total() + bulk.Succeeded() <= r.Total() + |fps|
  {
    assert bulk.Executed? ==> Summarize(bulk.results).Total() <= |fps| by {
      if bulk.Executed? {
        CountsAddUp(bulk.results);
      }
    }
    r.(failed := r.failed + bulk.Failed(fps))
  }

  /** Summed over these targets. */
  function Over(order: seq<ReplayTarget>, share: ReplayTarget -> nat): nat {
    if order == [] then 0 else Over(Front(order), share) + share(Last(order))
  }

  lemma OverSnoc(order: seq<ReplayTarget>, t: ReplayTarget, share: ReplayTarget -> nat)
    ensures Over(order + [t], share) == Over(order, share) + share(t)
  {
    assert Front(order + [t]) == order;
  }

  /** How the bulk action on this target ended, if there was one. */
  predicate Busy(plan: Plan, deserted: set<ReplayTarget>, bulks: map<ReplayTarget, Bulk>, t: ReplayTarget) {
    t in plan.replay && t in bulks && t !in deserted
  }

  /** The counts, each the sum of what its targets contribute: deserted ones are held, the others report. */
  ghost predicate Adds(plan: Plan, deserted: set<ReplayTarget>, bulks: map<ReplayTarget, Bulk>,
                       order: seq<ReplayTarget>, r: RunResult)
  {
    && r.replayed == Over(order, t => if Busy(plan, deserted, bulks, t) then bulks[t].Succeeded() else 0)
    && r.failed == Over(order, t => if Busy(plan, deserted, bulks, t) then bulks[t].Failed(plan.replay[t]) else 0)
    && r.held == Over(order, t => if t in deserted then Listed(plan.replay, t) else 0)
    && r.parked == 0
  }

  /** What the loop has counted after these targets. */
  ghost predicate Counted(plan: Plan, deserted: set<ReplayTarget>, bulks: map<ReplayTarget, Bulk>,
                          order: seq<ReplayTarget>, r: RunResult)
  {
    && Adds(plan, deserted, bulks, order, r)
    && r.Total() <= Lengths(plan.replay, order)
    && (r.failed > 0 <==> SomeTroubled(plan, deserted, bulks, order))
    && ((forall t | t in order :: t in deserted) ==> r == RunResult(0, 0, 0, Lengths(plan.replay, order)))
  }

  lemma OneMoreAdded(plan: Plan, deserted: set<ReplayTarget>, bulks: map<ReplayTarget, Bulk>,
                     order: seq<ReplayTarget>, t: ReplayTarget, r: RunResult, next: RunResult)
    requires Adds(plan, deserted, bulks, order, r) && t in plan.replay && t in bulks
    requires next == if t in deserted then r.(held := r.held + |plan.replay[t]|)
                     else r.(failed := r.failed + bulks[t].Failed(plan.replay[t]),
                             replayed := r.replayed + bulks[t].Succeeded())
    ensures Adds(plan, deserted, bulks, order + [t], next)
  {
    hide Summarize, Over;
    OverSnoc(order, t, t => if Busy(plan, deserted, bulks, t) then bulks[t].Succeeded() else 0);
    OverSnoc(order, t, t => if Busy(plan, deserted, bulks, t) then bulks[t].Failed(plan.replay[t]) else 0);
    OverSnoc(order, t, t => if t in deserted then Listed(plan.replay, t) else 0);
  }

  lemma OneMoreCounted(plan: Plan, deserted: set<ReplayTarget>, bulks: map<ReplayTarget, Bulk>,
                       order: seq<ReplayTarget>, t: ReplayTarget, r: RunResult, next: RunResult)
    requires Counted(plan, deserted, bulks, order, r)
    requires t in plan.replay && t in bulks && bulks[t].Fits(plan.replay[t])
    requires next == if t in deserted then r.(held := r.held + |plan.replay[t]|)
                     else var tallied := Tallied(r, bulks[t], plan.replay[t]);
                          tallied.(replayed := tallied.replayed + bulks[t].Succeeded())
    ensures Counted(plan, deserted, bulks, order + [t], next)
  {
    hide SomeTroubled, Summarize, Lengths, Adds;
    OneMoreAdded(plan, deserted, bulks, order, t, r, next);
    OneMoreLength(plan.replay, order, t);
    OneMoreTroubled(plan, deserted, bulks, order, t);
    assert t in order + [t] && forall u | u in order :: u in order + [t];
  }

  lemma CountedMeans(plan: Plan, deserted: set<ReplayTarget>, bulks: map<ReplayTarget, Bulk>,
                     order: seq<ReplayTarget>, r: RunResult)
    requires Counted(plan, deserted, bulks, order, r)
    ensures Adds(plan, deserted, bulks, order, r)
    ensures r.Total() <= Lengths(plan.replay, order) && r.parked == 0
    ensures r.failed > 0 <==> SomeTroubled(plan, deserted, bulks, order)
    ensures (forall t | t in order :: t in deserted) ==> r == RunResult(0, 0, 0, Lengths(plan.replay, order))
  {
  }

  /** The bulk actions on the targets, one after the other. */
  method ReplayAll(plan: Plan, order: seq<ReplayTarget>, deserted: set<ReplayTarget>, bulks: map<ReplayTarget, Bulk>)
    returns (r: RunResult)
    requires forall t | t in order :: t in plan.replay && t in bulks && bulks[t].Fits(plan.replay[t])
    ensures Counted(plan, deserted, bulks, order, r)
  {
    r := RunResult(0, 0, 0, 0);
    assert Counted(plan, deserted, bulks, order[..0], r);
    hide Counted, Summarize;
    for i := 0 to |order|
      invariant Counted(plan, deserted, bulks, order[..i], r)
    {
      var target := order[i];
      var fps := plan.replay[target];
      ghost var before := r;
      assert order[..i + 1] == order[..i] + [target];
      if target in deserted {
        r := r.(held := r.held + |fps|);
      } else {
        r := Tallied(r, bulks[target], fps);
        r := r.(replayed := r.replayed + bulks[target].Succeeded());
      }
      OneMoreCounted(plan, deserted, bulks, order[..i], target, before, r);
    }
    assert order[..|order|] == order;
  }

  /** What was done about a plan: in what order its targets came, and how each bulk action ended. */
  datatype Deeds = Deeds(plan: Plan, order: seq<ReplayTarget>, bulks: map<ReplayTarget, Bulk>, parking: Bulk)
  {
    ghost predicate Fits() {
      && Distinct(order) && (forall t :: t in order <==> t in plan.replay)
      && (forall t | t in plan.replay :: t in bulks && bulks[t].Fits(plan.replay[t])) && parking.Fits(plan.park)
    }
  }

  /** The result of a run is the sum of what its bulk actions report, and what it held back. */
  ghost predicate AddsUp(d: Deeds, deserted: set<ReplayTarget>, r: RunResult) {
    var parks := d.plan.park != [];
    && r.failed >= (if parks then d.parking.Failed(d.plan.park) else 0)
    && r.parked == (if parks then d.parking.Succeeded() else 0)
    && Adds(d.plan, deserted, d.bulks, d.order,
            r.(parked := 0, failed := r.failed - (if parks then d.parking.Failed(d.plan.park) else 0)))
  }

  /**
   The acting part of `_run`, for a plan that PlanCovers describes. `deserted` are the queues
   with no consumers, or whose consumers could not be read; the deeds say how the bulk action on
   each target ends.
   */
  method ActOnPlan(d: Deeds, deserted: set<ReplayTarget>) returns (r: RunResult)
    requires d.Fits()
    ensures AddsUp(d, deserted, r)
    ensures r.Total() <= |d.plan.park| + ReplayPlan.Total(d.plan.replay)
    ensures r.failed > 0 <==> || (d.plan.park != [] && d.parking.Failed(d.plan.park) > 0)
                              || SomeTroubled(d.plan, deserted, d.bulks, d.order)
    ensures (forall t | t in d.order :: t in deserted) && d.plan.park == [] ==>
              r == RunResult(0, 0, 0, ReplayPlan.Total(d.plan.replay))
  {
    hide SomeTroubled, Summarize, Lengths, ReplayPlan.Total, Counted, Adds;
    r := ReplayAll(d.plan, d.order, deserted, d.bulks);
    LengthsOfAll(d.plan.replay, d.order);
    CountedMeans(d.plan, deserted, d.bulks, d.order, r);
    ghost var before := r;
    if d.plan.park != [] {
      r := Tallied(r, d.parking, d.plan.park);
      r := r.(parked := r.parked + d.parking.Succeeded());
      assert r.(parked := 0, failed := r.failed - d.parking.Failed(d.plan.park)) == before;
    }
  }

  /** A run never counts more messages than its cap. */
  lemma RunWithinCap(p: Policy, now: nat, rs: seq<MessageRecord>, plan: Plan, r: RunResult)
    requires Describes(p, now, rs, plan) && forall i | 0 <= i < |rs| :: !Broken(p, now, rs[i])
    requires r.Total() <= |plan.park| + ReplayPlan.Total(plan.replay)
    ensures r.Total() <= p.cap
  {
    PlanCovers(p, now, rs, plan);
  }

  // ---------------------------------------------------------------------- the stored policy

  const PAUSE_AFTER_FAILED_RUNS: nat := 3

  datatype Row = Row(enabled: bool, failures: nat)

  /** Enabling, even a policy that is on already, starts the count over. */
  function Updated(row: Row, enabled: Option<bool>): Row {
    Row(if enabled.Some? then enabled.value else row.enabled, if enabled == Some(true) then 0 else row.failures)
  }

  function Recorded(row: Row, failed: bool): Row {
    row.(failures := if failed then row.failures + 1 else 0)
  }

  predicate Settled(row: Row) { row.enabled ==> row.failures < PAUSE_AFTER_FAILED_RUNS }

  class Policies {
    var rows: map<nat, Row>

    constructor ()
      ensures rows == map[]
    {
      rows := map[];
    }

    method Update(id: nat, enabled: Option<bool>) returns (found: bool)
      modifies this
      ensures found == (id in old(rows))
      ensures rows == if found then old(rows)[id := Updated(old(rows)[id], enabled)] else old(rows)
      ensures found ==>
                && rows[id].enabled == (if enabled.Some? then enabled.value else old(rows)[id].enabled)
                && rows[id].failures == (if enabled == Some(true) then 0 else old(rows)[id].failures)
    {
      if id !in rows {
        return false;
      }
      var row := rows[id];
      if enabled.Some? {
        row := row.(enabled := enabled.value);
      }
      if enabled == Some(true) {
        row := row.(failures := 0);
      }
      rows := rows[id := row];
      return true;
    }

    /** How many runs in a row have failed by now; 0 for a policy deleted meanwhile. */
    method RecordRun(id: nat, failed: bool) returns (inARow: nat)
      modifies this
      ensures rows == if id in old(rows) then old(rows)[id := Recorded(old(rows)[id], failed)] else old(rows)
      ensures inARow == if id in rows then rows[id].failures else 0
      ensures id in rows ==>
                && rows[id].enabled == old(rows)[id].enabled
                && rows[id].failures == (if failed then old(rows)[id].failures + 1 else 0)
    {
      if id !in rows {
        return 0;
      }
      var row := rows[id];
      rows := rows[id := row.(failures := if failed then row.failures + 1 else 0)];
      return rows[id].failures;
    }
  }

  /** Which of the writes at the end of a run work; `notify`: all of `_notify_paused`, after the pause itself. */
  datatype Writes = Writes(record: bool, audit: bool, pause: bool, notify: bool)

  /** A run that moved something, or failed, is to be audited. */
  predicate ToAudit(result: RunResult, unreachable: bool) {
    unreachable || result.failed > 0 || result.replayed > 0 || result.parked > 0
  }

  /**
   What the end of a run does to the stored policies. If its outcome cannot be stored, nothing changes.
   If it is, the policy is left on with three failures or more exactly if it was on with them as
   stored, and its audit row or the pausing write failed. A notification that fails raises too, but
   the policy is paused by then.
   */
  ghost predicate Finishes(before: map<nat, Row>, after: map<nat, Row>, id: nat, result: RunResult, unreachable: bool,
                           works: Writes, raised: bool, paused: bool)
  {
    && (!works.record ==> raised && !paused && after == before)
    && (works.record && id !in before ==>
          && !paused && after == before
          && (raised <==> ToAudit(result, unreachable) && !works.audit))
    && (works.record && id in before ==>
          var row := Recorded(before[id], unreachable || result.failed > 0);
          var unaudited := ToAudit(result, unreachable) && !works.audit;
          && (paused <==> row.failures >= PAUSE_AFTER_FAILED_RUNS && !unaudited && works.pause)
          && after == before[id := if paused then row.(enabled := false) else row]
          && (!Settled(after[id]) <==> !Settled(row) && (unaudited || !works.pause))
          && (raised <==>
                || unaudited
                || (row.failures >= PAUSE_AFTER_FAILED_RUNS && !works.pause)
                || (paused && !works.notify)))
  }

  /** `_finish` with nobody else writing meanwhile. */
  method Finish(policies: Policies, id: nat, result: RunResult, unreachable: bool, works: Writes)
    returns (raised: bool, paused: bool)
    modifies policies
    ensures Finishes(old(policies.rows), policies.rows, id, result, unreachable, works, raised, paused)
  {
    var failed := unreachable || result.failed > 0;
    if !works.record {
      return true, false;
    }
    var inARow := policies.RecordRun(id, failed);
    if failed || result.replayed > 0 || result.parked > 0 {
      if !works.audit {
        return true, false;
      }
    }
    if inARow >= PAUSE_AFTER_FAILED_RUNS {
      if !works.pause {
        return true, false;
      }
      var _ := policies.Update(id, Some(false));
      return !works.notify, true;
    }
    return false, false;
  }

  // ------------------------------------------------------------- a run from start to end

  datatype Ran =
    | ScanRaised                                 // the queue could not be read
    | PlanRaised(why: Breakage)
    | Ended(result: RunResult, raised: bool, paused: bool)

  /** The targets of a plan, one after the other. */
  method Targets(plan: Plan) returns (order: seq<ReplayTarget>)
    ensures Distinct(order) && forall t :: t in order <==> t in plan.replay
  {
    order := [];
    var left := plan.replay.Keys;
    while left != {}
      invariant Distinct(order) && left <= plan.replay.Keys
      invariant forall t :: t in order <==> t in plan.replay && t !in left
      decreases |left|
    {
      var t :| t in left;
      order := order + [t];
      left := left - {t};
    }
  }

  /** How the bulk actions of a plan end: in any way they can. */
  method Bulks(plan: Plan) returns (bulks: map<ReplayTarget, Bulk>, parking: Bulk)
    ensures forall t | t in plan.replay :: t in bulks && bulks[t].Fits(plan.replay[t])
    ensures parking.Fits(plan.park)
  {
    bulks, parking := *, *;
    if exists t | t in plan.replay :: !(t in bulks && bulks[t].Fits(plan.replay[t])) {
      bulks := map t | t in plan.replay :: Threw;
    }
    if !parking.Fits(plan.park) {
      parking := Threw;
    }
  }

  method ActOnSorted(p: Policy, now: nat, rs: seq<MessageRecord>, plan: Plan, deserted: set<ReplayTarget>)
    returns (result: RunResult, acts: nat, ghost did: Deeds)
    requires Describes(p, now, rs, plan) && forall i | 0 <= i < |rs| :: !Broken(p, now, rs[i])
    ensures result.Total() <= p.cap
    ensures did.plan == plan && did.Fits() && AddsUp(did, deserted, result)
    ensures acts == |set t | t in plan.replay && t !in deserted| + (if plan.park != [] then 1 else 0)
  {
    hide Describes, Broken, ReplayPlan.Total, Lengths, SomeTroubled, Distinct, AddsUp;
    var order := Targets(plan);
    var bulks, parking := Bulks(plan);
    var deeds := Deeds(plan, order, bulks, parking);
    did := deeds;
    result := ActOnPlan(deeds, deserted);
    RunWithinCap(p, now, rs, plan, result);
    var busy := set t | t in order && t !in deserted;
    assert busy == set t | t in plan.replay && t !in deserted;
    acts := |busy| + (if plan.park != [] then 1 else 0);
  }

  /**
   `run` and `_run`. `scan` is what the queue holds, or None if reading it raises; `acts` counts the
   bulk actions that were started: one on each target that has consumers, and one to park. When the scan
   or the sorting raises, nothing is acted on, and nothing is stored: the run does not count as a failed
   one. Otherwise it acts on the plan for what it read, and its result is what the bulk actions report.
   */
  method RunPolicy(policies: Policies, id: nat, p: Policy, now: nat, reachable: bool,
                   scan: Option<seq<MessageRecord>>, deserted: set<ReplayTarget>, works: Writes)
    returns (ran: Ran, acts: nat, ghost did: Option<Deeds>)
    modifies policies
    ensures reachable ==> (ran.ScanRaised? <==> scan.None?)
    ensures reachable && scan.Some? ==>
              (ran.PlanRaised? <==> exists i :: 0 <= i < |scan.value| && Broken(p, now, scan.value[i]))
    ensures !ran.Ended? ==> acts == 0 && policies.rows == old(policies.rows)
    ensures !reachable ==> ran.Ended? && acts == 0 && ran.result == RunResult(0, 0, 0, 0)
    ensures reachable && ran.Ended? ==>
              && did.Some? && Describes(p, now, scan.value, did.value.plan) && did.value.Fits()
              && AddsUp(did.value, deserted, ran.result)
              && acts == |set t | t in did.value.plan.replay && t !in deserted|
                         + (if did.value.plan.park != [] then 1 else 0)
    ensures ran.Ended? ==>
              && ran.result.Total() <= p.cap
              && Finishes(old(policies.rows), policies.rows, id, ran.result, !reachable, works, ran.raised, ran.paused)
    ensures ran.Ended? && works.record && works.audit && works.pause && id in old(policies.rows) ==>
              id in policies.rows && Settled(policies.rows[id])
  {
    hide Describes, Judge, AddsUp, Distinct;
    acts, did := 0, None;
    if !reachable {
      var raised, paused := Finish(policies, id, RunResult(0, 0, 0, 0), true, works);
      return Ended(RunResult(0, 0, 0, 0), raised, paused), 0, None;
    }
    if scan.None? {
      return ScanRaised, 0, None;
    }
    var planned := MakePlan(p, now, scan.value);
    if planned.Raised? {
      return PlanRaised(planned.why), 0, None;
    }
    var result;
    ghost var deeds;
    result, acts, deeds := ActOnSorted(p, now, scan.value, planned.plan, deserted);
    did := Some(deeds);
    var raised, paused := Finish(policies, id, result, false, works);
    ran := Ended(result, raised, paused);
  }

  /** What one tick of `_loop` finds. */
  datatype Tick = Tick(now: nat, scan: Option<seq<MessageRecord>>, deserted: set<ReplayTarget>, works: Writes)

  /**
   However often the loop comes round: as long as a message that `plan` raises on is in the queue,
   its policy acts on nothing, and neither its switch nor its failure count ever changes.
   */
  method KeepRunning(policies: Policies, id: nat, p: Policy, stuck: MessageRecord, ticks: seq<Tick>) returns (acts: nat)
    requires Broken(p, 0, stuck)
    requires forall i | 0 <= i < |ticks| && ticks[i].scan.Some? :: stuck in ticks[i].scan.value
    modifies policies
    ensures acts == 0 && policies.rows == old(policies.rows)
  {
    hide Judge;
    acts := 0;
    for i := 0 to |ticks|
      invariant acts == 0 && policies.rows == old(policies.rows)
    {
      BrokenForGood(p, 0, ticks[i].now, stuck);
      var _, more, _ := RunPolicy(policies, id, p, ticks[i].now, true, ticks[i].scan, ticks[i].deserted,
                                  ticks[i].works);
      acts := acts + more;
    }
  }

  /** Waiting does not mend such a message. */
  lemma BrokenForGood(p: Policy, now: nat, later: nat, r: MessageRecord)
    ensures Broken(p, now, r) <==> Broken(p, later, r)
  {
    BrokenWhen(p, now, r);
    BrokenWhen(p, later, r);
  }

  // ---------------------------------------------------- runs, edits and toggles interleaved

  type RunId = nat

  /** The writes to one policy; a run that is told of three failures pauses later, or never gets to. */
  datatype Step =
    | Create(on: bool)
    | Delete
    | Save(enabled: Option<bool>)
    | Record(run: RunId, failed: bool)
    | Pause(run: RunId)
    | Die(run: RunId)

  datatype Table = Table(row: Option<Row>, due: set<RunId>, dead: set<RunId>)

  const EMPTY := Table(None, {}, {})

  predicate Allowed(t: Table, s: Step) {
    match s
    case Create(_) => t.row.None?
    case Pause(run) => run in t.due
    case Die(run) => run in t.due
    case _ => true
  }

  function Written(t: Table, s: Step): Table {
    match s
    case Create(on) => t.(row := Some(Row(on, 0)))
    case Delete => t.(row := None)
    case Save(enabled) => if t.row.None? then t else t.(row := Some(Updated(t.row.value, enabled)))
    case Record(run, failed) =>
      if t.row.None? then t else
        var row := Recorded(t.row.value, failed);
        Table(Some(row), if row.failures >= PAUSE_AFTER_FAILED_RUNS then t.due + {run} else t.due - {run}, t.dead)
    case Pause(run) =>
      Table(if t.row.None? then None else Some(Updated(t.row.value, Some(false))), t.due - {run}, t.dead)
    case Die(run) => Table(t.row, t.due - {run}, t.dead + {run})
  }

  function After(h: seq<Step>): Table {
    if h == [] then EMPTY else Written(After(Front(h)), Last(h))
  }

  predicate Possible(h: seq<Step>) {
    h != [] ==> Possible(Front(h)) && Allowed(After(Front(h)), Last(h))
  }

  /** Failed runs since the last success, and since the policy was last switched on. */
  function Streak(h: seq<Step>): nat {
    if h == [] then 0 else
      match Last(h)
      case Record(_, failed) => if failed then Streak(Front(h)) + 1 else 0
      case Save(enabled) => if enabled == Some(true) then 0 else Streak(Front(h))
      case Create(_) => 0
      case _ => Streak(Front(h))
  }

  /** The stored count is the length of the failing streak. */
  lemma {:induction false} CountIsStreak(h: seq<Step>)
    requires Possible(h) && After(h).row.Some?
    ensures After(h).row.value.failures == Streak(h)
  {
    if h != [] && !Last(h).Create? {
      CountIsStreak(Front(h));
    }
  }

  /** An enabled policy with three failures has a run on its way to pause it, or that died on its way. */
  lemma {:induction false} PauseIsComing(h: seq<Step>)
    requires Possible(h)
    ensures var t := After(h); t.row.Some? && !Settled(t.row.value) ==> t.due != {} || t.dead != {}
  {
    if h != [] {
      PauseIsComing(Front(h));
      var before, after := After(Front(h)), After(h);
      match Last(h) {
        case Record(run, _) =>
          if after.row.Some? && !Settled(after.row.value) {
            assert run in after.due;
          }
        case Die(run) =>
          assert run in after.dead;
        case _ =>
      }
    }
  }

  /** Between runs, when none has died, an enabled policy has failed fewer than three times in a row. */
  lemma EnabledMeansHealthy(h: seq<Step>)
    requires Possible(h) && After(h).due == {} && After(h).dead == {}
    requires After(h).row.Some? && After(h).row.value.enabled
    ensures Streak(h) < PAUSE_AFTER_FAILED_RUNS
  {
    PauseIsComing(h);
    CountIsStreak(h);
  }

  /** A run that dies between its two writes leaves the policy on. */
  lemma DeadRunLeavesItOn()
    ensures exists h :: Possible(h) && After(h) == Table(Some(Row(true, 3)), {}, {2}) && Streak(h) == 3
  {
    var h0 := [Create(true)];
    var h1 := h0 + [Record(0, true)];
    var h2 := h1 + [Record(1, true)];
    var h3 := h2 + [Record(2, true)];
    var h4 := h3 + [Die(2)];
    assert Front(h0) == [] && Front(h1) == h0 && Front(h2) == h1 && Front(h3) == h2 && Front(h4) == h3;
    assert After(h0).row == Some(Row(true, 0)) && Possible(h0);
    assert After(h1).row == Some(Row(true, 1)) && Possible(h1);
    assert After(h2).row == Some(Row(true, 2)) && Possible(h2);
    assert After(h3) == Table(Some(Row(true, 3)), {2}, {}) && Possible(h3);
    assert After(h4) == Table(Some(Row(true, 3)), {}, {2}) && Possible(h4);
    assert Streak(h3) == Streak(h2) + 1 && Streak(h2) == Streak(h1) + 1 && Streak(h1) == 1;
  }

  /** The next run that gets to its end puts that right. */
  lemma NextRunSettles(h: seq<Step>, run: RunId, failed: bool)
    requires Possible(h)
    ensures var recorded := h + [Record(run, failed)];
            var ended := if run in After(recorded).due then recorded + [Pause(run)] else recorded;
            && Possible(ended)
            && (After(ended).row.Some? ==> Settled(After(ended).row.value))
  {
    var recorded := h + [Record(run, failed)];
    assert Front(recorded) == h;
    assert Possible(recorded);
    if run in After(recorded).due {
      assert Front(recorded + [Pause(run)]) == recorded;
    }
  }
}
