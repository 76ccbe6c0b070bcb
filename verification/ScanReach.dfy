/** How far an action must read: `effective_limit` and `scan_depth` of app/api/routes/messages.py. */
module ScanReach {
  import opened Records
  import opened Broker
  import opened QueueOrder
  import opened Snapshots

  const HARD_CEILING: nat := 1000        // of the refetch window
  const DEPTH_CEILING: nat := 50_000     // of the browse depth

  /** A stored limit wins over the default (a stored 0 counts as none), within the ceiling; never below one. */
  function EffectiveLimit(stored: Option<int>, standard: int, ceiling: nat): (limit: nat)
    requires ceiling >= 1
    ensures 1 <= limit <= ceiling
    ensures var asked := if stored.Some? && stored.value != 0 then stored.value else standard;
            limit == asked || (asked < 1 && limit == 1) || (asked > ceiling && limit == ceiling)
  {
    var value := if stored.Some? && stored.value != 0 then stored.value else standard;
    var capped := if value < ceiling then value else ceiling;
    if capped > 1 then capped else 1
  }

  function Deepest(positions: map<Fingerprint, nat>, fps: seq<Fingerprint>): (deepest: int)
    ensures deepest >= -1 && forall fp | fp in fps && fp in positions :: positions[fp] <= deepest
    ensures deepest == -1 || exists fp :: fp in fps && fp in positions && positions[fp] == deepest
  {
    if fps == [] then -1 else
      assert fps == Front(fps) + [Last(fps)];
      var rest := Deepest(positions, Front(fps));
      if Last(fps) in positions && positions[Last(fps)] > rest then positions[Last(fps)] else rest
  }

  function Max(a: int, b: int): int { if a >= b then a else b }

  function Min(a: int, b: int): int { if a <= b then a else b }

  /** `positions` is None when the snapshot is gone, or none was named. */
  function ScanDepth(window: nat, depth: nat, positions: Option<map<Fingerprint, nat>>, fps: seq<Fingerprint>)
    : (limit: nat)
    ensures positions.None? ==> limit == window
    ensures positions.Some? ==>
              && limit <= depth && (limit == depth || limit >= window)
              && (forall fp | fp in fps && fp in positions.value ::
                    limit == depth || limit >= positions.value[fp] + 1 + window)
              && (limit == depth || limit == window
                  || exists fp :: fp in fps && fp in positions.value && limit == positions.value[fp] + 1 + window)
              && (limit == depth ==>
                    window >= depth
                    || exists fp :: fp in fps && fp in positions.value && positions.value[fp] + 1 + window >= depth)
  {
    if positions.None? then window
    else Min(depth, Max(window, Deepest(positions.value, fps) + 1 + window))
  }

  /** With both limits within their ceilings an action may read at least one message, and no more than the depth. */
  lemma ScanDepthWithinLimits(window: Option<int>, windowStandard: int, depth: Option<int>, depthStandard: int,
                              positions: Option<map<Fingerprint, nat>>, fps: seq<Fingerprint>)
    ensures var w := EffectiveLimit(window, windowStandard, HARD_CEILING);
            var d := EffectiveLimit(depth, depthStandard, DEPTH_CEILING);
            && 1 <= ScanDepth(w, d, positions, fps) <= Max(HARD_CEILING, DEPTH_CEILING)
            && (positions.Some? ==> ScanDepth(w, d, positions, fps) <= d)
  {
  }

  // -------------------------------------------- how messages move up and down a classic queue

  /** Messages now ahead of m that were not in the queue then: taken out by others, and put back. */
  function CameBack(earlier: seq<Message>, now: seq<Message>, m: Message): set<Message> {
    set x | x in now && x !in earlier && x.id < m.id
  }

  function Members(ms: seq<Message>): set<Message> { set m | m in ms }

  lemma {:induction false} AsManyAsListed(ms: seq<Message>)
    requires InArrivalOrder(ms)
    ensures |Members(ms)| == |ms|
  {
    if ms == [] {
      assert Members(ms) == {};
    } else {
      var front := Front(ms);
      assert forall i, j | 0 <= i < j < |front| :: front[i] == ms[i] && front[j] == ms[j];
      AsManyAsListed(front);
      assert ms == front + [Last(ms)];
      assert Last(ms) !in front;
      assert Members(ms) == Members(front) + {Last(ms)};
    }
  }

  lemma WasAheadOrCameBack(earlier: seq<Message>, now: seq<Message>, i: nat, j: nat, x: Message)
    requires InArrivalOrder(earlier) && InArrivalOrder(now)
    requires i < |earlier| && j < |now| && earlier[i] == now[j] && x in now[..j]
    ensures x in earlier[..i] || x in CameBack(earlier, now, now[j])
  {
    var k :| 0 <= k < j && now[k] == x;
    assert now[k].id < now[j].id;
    if x in earlier {
      var l :| 0 <= l < |earlier| && earlier[l] == x;
      assert l < i;
      assert earlier[..i][l] == x;
    }
  }

  /** A message sinks by no more places than messages came back ahead of it. */
  lemma MovesUp(earlier: seq<Message>, now: seq<Message>, i: nat, j: nat)
    requires InArrivalOrder(earlier) && InArrivalOrder(now)
    requires i < |earlier| && j < |now| && earlier[i] == now[j]
    ensures j <= i + |CameBack(earlier, now, now[j])|
  {
    var m := now[j];
    var ahead, was := now[..j], earlier[..i];
    AsManyAsListed(ahead);
    AsManyAsListed(was);
    forall x | x in Members(ahead)
      ensures x in Members(was) + CameBack(earlier, now, m)
    {
      WasAheadOrCameBack(earlier, now, i, j, x);
    }
    hide InArrivalOrder, Members, CameBack;
    SmallerSubset(Members(ahead), Members(was) + CameBack(earlier, now, m));
  }

  /**
   An action on messages picked from a snapshot reads all their copies that the snapshot saw and
   that are still in the queue, as long as the browse depth was not lowered below what the
   snapshot read, and the messages that came back ahead of a copy fit the room left below it.
   */
  lemma ReadsAllCopies(earlier: seq<Message>, now: seq<Message>, records: seq<MessageRecord>,
                       positions: map<Fingerprint, nat>, fps: seq<Fingerprint>, window: nat, depth: nat, i: nat, j: nat)
    requires InArrivalOrder(earlier) && InArrivalOrder(now)
    requires |records| <= |earlier| && forall k | 0 <= k < |records| :: records[k].fingerprint == earlier[k].Fp()
    requires IsPositions(records, positions) && depth >= |records|
    requires i < |records| && j < |now| && earlier[i] == now[j] && now[j].Fp() in fps
    requires |CameBack(earlier, now, now[j])| <= Min(window, depth - (Deepest(positions, fps) + 1))
    ensures j < ScanDepth(window, depth, Some(positions), fps)
  {
    MovesUp(earlier, now, i, j);
    assert records[i].fingerprint in positions && i <= positions[records[i].fingerprint];
  }

  /** There is room for none at least, so for a queue nobody else holds messages of. */
  lemma RoomForNone(records: seq<MessageRecord>, positions: map<Fingerprint, nat>, fps: seq<Fingerprint>,
                    window: nat, depth: nat)
    requires IsPositions(records, positions) && depth >= |records|
    ensures Min(window, depth - (Deepest(positions, fps) + 1)) >= 0
  {
  }

  // --------------------------------------------------------------- on the broker's own terms

  /** Channels that closed with messages unacked had them put back in place. */
  predicate InPlace(w: World, es: seq<Event>)
    requires Legal(w, es)
  {
    es != [] ==> InPlace(w, Front(es)) && PutsInPlace(Run(w, Front(es)), Last(es))
  }

  /** Whatever happens to a classic queue keeps it in arrival order. */
  lemma {:induction false} ClassicKeepsArrivalOrder(w: World, es: seq<Event>)
    requires w.kind.Classic? && Accounted(w) && InArrivalOrder(w.ready) && Legal(w, es) && InPlace(w, es)
    ensures var later := Run(w, es);
            && InArrivalOrder(later.ready) && later.kind == w.kind
            && w.acked <= later.acked && w.arrived <= later.arrived
            && forall x, m | x in later.arrived && x !in w.arrived && m in w.arrived :: m.id < x.id
  {
    if es != [] {
      assert Last(es) in es;
      ClassicKeepsArrivalOrder(w, Front(es));
      RunAccounted(w, Front(es));
      OrderedStep(Run(w, Front(es)), Last(es));
    }
  }

  /** Only messages someone held when the snapshot was taken can come back ahead of it. */
  lemma CameBackWereHeld(w: World, es: seq<Event>, m: Message)
    requires w.kind.Classic? && Accounted(w) && InArrivalOrder(w.ready) && Legal(w, es) && InPlace(w, es)
    requires m in w.ready
    ensures CameBack(w.ready, Run(w, es).ready, m) <= w.unacked.Keys
  {
    var later := Run(w, es);
    ClassicKeepsArrivalOrder(w, es);
    RunAccounted(w, es);
    assert m in multiset(w.arrived);
    forall x | x in CameBack(w.ready, later.ready, m)
      ensures x in w.unacked
    {
      AtMostOnce(later, x);
      assert multiset(later.ready)[x] >= 1;
      assert x in multiset(later.arrived) && x !in later.acked;
      assert multiset(w.arrived)[x] == multiset(w.ready)[x] + multiset(w.unacked.Keys)[x] + multiset(w.acked)[x];
    }
  }

  /**
   A classic queue between a snapshot and an action, with any publishers, consumers and other
   channels at work: the action reads every copy the snapshot saw that is still ready, if no more
   messages were held elsewhere at the time than fit below the deepest copy.
   */
  lemma SnapshotReach(w: World, es: seq<Event>, records: seq<MessageRecord>, positions: map<Fingerprint, nat>,
                      fps: seq<Fingerprint>, window: nat, depth: nat, i: nat, j: nat)
    requires w.kind.Classic? && Accounted(w) && InArrivalOrder(w.ready) && Legal(w, es) && InPlace(w, es)
    requires |records| <= |w.ready| && forall k | 0 <= k < |records| :: records[k].fingerprint == w.ready[k].Fp()
    requires IsPositions(records, positions) && depth >= |records|
    requires |w.unacked| <= Min(window, depth - (Deepest(positions, fps) + 1))
    requires i < |records| && j < |Run(w, es).ready| && w.ready[i] == Run(w, es).ready[j] && w.ready[i].Fp() in fps
    ensures j < ScanDepth(window, depth, Some(positions), fps)
  {
    hide InArrivalOrder, IsPositions, Deepest, Run, Accounted;
    var later := Run(w, es).ready;
    ClassicKeepsArrivalOrder(w, es);
    CameBackWereHeld(w, es, later[j]);
    SmallerSubset(CameBack(w.ready, later, later[j]), w.unacked.Keys);
    ReadsAllCopies(w.ready, later, records, positions, fps, window, depth, i, j);
  }

  /** So with nobody else holding messages when the snapshot was taken, the action reads all of them. */
  lemma SnapshotReachAlone(w: World, es: seq<Event>, records: seq<MessageRecord>, positions: map<Fingerprint, nat>,
                           fps: seq<Fingerprint>, window: nat, depth: nat, i: nat, j: nat)
    requires w.kind.Classic? && Accounted(w) && InArrivalOrder(w.ready) && Legal(w, es) && InPlace(w, es)
    requires |records| <= |w.ready| && forall k | 0 <= k < |records| :: records[k].fingerprint == w.ready[k].Fp()
    requires IsPositions(records, positions) && depth >= |records| && w.unacked == map[]
    requires i < |records| && j < |Run(w, es).ready| && w.ready[i] == Run(w, es).ready[j] && w.ready[i].Fp() in fps
    ensures j < ScanDepth(window, depth, Some(positions), fps)
  {
    hide InArrivalOrder, IsPositions, Deepest, Run, Accounted, Legal, InPlace, ScanDepth;
    RoomForNone(records, positions, fps, window, depth);
    SnapshotReach(w, es, records, positions, fps, window, depth, i, j);
  }

  /**
   On a queue that is as the snapshot saw it, an action reads all the copies it is about exactly if
   the browse depth is still beyond the deepest of them.
   */
  lemma ReachesAllExactly(records: seq<MessageRecord>, positions: map<Fingerprint, nat>, fps: seq<Fingerprint>,
                          window: nat, depth: nat)
    requires IsPositions(records, positions)
    ensures (forall i | 0 <= i < |records| && records[i].fingerprint in fps ::
               i < ScanDepth(window, depth, Some(positions), fps))
        <==> depth > Deepest(positions, fps)
  {
    var deepest := Deepest(positions, fps);
    if deepest >= 0 {
      var fp :| fp in fps && fp in positions && positions[fp] == deepest;
      assert records[deepest].fingerprint == fp;
    }
  }
}
