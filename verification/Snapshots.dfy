/** Browse snapshots, the last few of them for a few minutes: app/application/snapshots.py. */
module Snapshots {
  import opened Records

  const TTL: nat := 300_000_000      // five minutes in microseconds
  const MAX_SNAPSHOTS: nat := 4

  datatype Snapshot = Snapshot(
    id: nat,
    scope: (string, string),
    queue: string,
    records: seq<MessageRecord>,
    createdAt: nat)
  {
    function ExpiresAt(): nat { createdAt + TTL }

    predicate Of(scope: (string, string), queue: string) { this.scope == scope && this.queue == queue }
  }

  /** Where each fingerprint was seen last: the deepest copy of its duplicates. */
  method Positions(records: seq<MessageRecord>) returns (positions: map<Fingerprint, nat>)
    ensures IsPositions(records, positions)
  {
    positions := map[];
    for position := 0 to |records|
      invariant IsPositions(records[..position], positions)
    {
      positions := positions[records[position].fingerprint := position];
    }
    assert records[..|records|] == records;
  }

  ghost predicate IsPositions(records: seq<MessageRecord>, positions: map<Fingerprint, nat>) {
    && (forall i | 0 <= i < |records| ::
          records[i].fingerprint in positions && i <= positions[records[i].fingerprint])
    && (forall fp | fp in positions :: positions[fp] < |records| && records[positions[fp]].fingerprint == fp)
  }

  // ------------------------------------------------------------ the store, oldest use first

  function Live(es: seq<Snapshot>, now: nat): seq<Snapshot> {
    if es == [] then [] else Live(Front(es), now) + (if Last(es).ExpiresAt() <= now then [] else [Last(es)])
  }

  function Newest(es: seq<Snapshot>): seq<Snapshot> {
    if |es| > MAX_SNAPSHOTS then es[|es| - MAX_SNAPSHOTS..] else es
  }

  function Without(es: seq<Snapshot>, id: nat): seq<Snapshot> {
    if es == [] then [] else Without(Front(es), id) + (if Last(es).id == id then [] else [Last(es)])
  }

  function Lookup(es: seq<Snapshot>, id: nat): (found: Option<Snapshot>)
    ensures found.Some? ==> found.value in es && found.value.id == id
    ensures found.None? ==> forall e | e in es :: e.id != id
  {
    if es == [] then None
    else if Last(es).id == id then Some(Last(es))
    else
      assert es == Front(es) + [Last(es)];
      Lookup(Front(es), id)
  }

  function Answer(es: seq<Snapshot>, id: nat, scope: (string, string), queue: string, now: nat): Option<Snapshot> {
    var found := Lookup(Live(es, now), id);
    if found.Some? && found.value.Of(scope, queue) then found else None
  }

  predicate Unique(es: seq<Snapshot>) { forall i, j | 0 <= i < j < |es| :: es[i].id != es[j].id }

  class SnapshotStore {
    var snapshots: seq<Snapshot>

    constructor ()
      ensures snapshots == []
    {
      snapshots := [];
    }

    method Add(snapshot: Snapshot, now: nat)
      modifies this
      ensures snapshots == Newest(Live(old(snapshots), now) + [snapshot])
    {
      Prune(now);
      snapshots := snapshots + [snapshot];
      ghost var all := snapshots;
      while |snapshots| > MAX_SNAPSHOTS
        invariant |snapshots| <= |all| && snapshots == all[|all| - |snapshots|..]
        invariant |all| > MAX_SNAPSHOTS ==> |snapshots| >= MAX_SNAPSHOTS
        invariant |all| <= MAX_SNAPSHOTS ==> snapshots == all
      {
        snapshots := snapshots[1..];
      }
    }

    /** Only for the scope and queue it was taken of, and not once it has expired. */
    method Get(id: nat, scope: (string, string), queue: string, now: nat) returns (found: Option<Snapshot>)
      modifies this
      ensures found == Answer(old(snapshots), id, scope, queue, now)
      ensures found.Some? ==> found.value in old(snapshots) && found.value.ExpiresAt() > now
                              && found.value.id == id && found.value.Of(scope, queue)
      ensures var live := Live(old(snapshots), now);
              snapshots == if found.Some? then Without(live, id) + [found.value] else live
    {
      LiveIs(snapshots, now);
      Prune(now);
      found := Lookup(snapshots, id);
      if found.None? || !found.value.Of(scope, queue) {
        return None;
      }
      snapshots := Without(snapshots, id) + [found.value];
    }

    method Prune(now: nat)
      modifies this
      ensures snapshots == Live(old(snapshots), now)
    {
      var kept: seq<Snapshot> := [];
      for i := 0 to |snapshots|
        invariant kept == Live(snapshots[..i], now)
        invariant snapshots == old(snapshots)
      {
        assert Front(snapshots[..i + 1]) == snapshots[..i];
        if snapshots[i].ExpiresAt() > now {
          kept := kept + [snapshots[i]];
        }
      }
      assert snapshots[..|snapshots|] == snapshots;
      snapshots := kept;
    }
  }

  lemma UniqueSnoc(es: seq<Snapshot>, e: Snapshot)
    ensures Unique(es + [e]) <==> Unique(es) && forall x | x in es :: x.id != e.id
  {
    if Unique(es + [e]) {
      assert forall i | 0 <= i < |es| :: (es + [e])[i] == es[i] && (es + [e])[|es|] == e;
    }
  }

  lemma {:induction false} LiveIs(es: seq<Snapshot>, now: nat)
    ensures forall e :: e in Live(es, now) <==> e in es && e.ExpiresAt() > now
    ensures |Live(es, now)| <= |es| && (Unique(es) ==> Unique(Live(es, now)))
  {
    if es != [] {
      var front, last := Front(es), Last(es);
      assert es == front + [last];
      assert Live(es, now) == Live(front, now) + (if last.ExpiresAt() <= now then [] else [last]);
      LiveIs(front, now);
      UniqueSnoc(front, last);
      UniqueSnoc(Live(front, now), last);
      hide Live, Unique;
    }
  }

  lemma {:induction false} WithoutIs(es: seq<Snapshot>, id: nat)
    ensures forall e :: e in Without(es, id) <==> e in es && e.id != id
    ensures |Without(es, id)| <= |es| && (Unique(es) ==> Unique(Without(es, id)))
  {
    if es != [] {
      var front, last := Front(es), Last(es);
      assert es == front + [last];
      assert Without(es, id) == Without(front, id) + (if last.id == id then [] else [last]);
      WithoutIs(front, id);
      UniqueSnoc(front, last);
      UniqueSnoc(Without(front, id), last);
      hide Without, Unique;
    }
  }

  lemma {:induction false} WithoutShorter(es: seq<Snapshot>, e: Snapshot)
    requires e in es
    ensures |Without(es, e.id)| < |es|
  {
    assert es == Front(es) + [Last(es)];
    WithoutIs(Front(es), e.id);
    if Last(es).id != e.id {
      WithoutShorter(Front(es), e);
    }
  }

  // ------------------------------------------------------------------- over a whole history

  datatype Op =
    | Add(snapshot: Snapshot, at: nat)
    | Get(id: nat, scope: (string, string), queue: string, at: nat)

  function Done(es: seq<Snapshot>, op: Op): seq<Snapshot> {
    match op
    case Add(snapshot, at) => Newest(Live(es, at) + [snapshot])
    case Get(id, scope, queue, at) =>
      var found := Answer(es, id, scope, queue, at);
      if found.Some? then Without(Live(es, at), id) + [found.value] else Live(es, at)
  }

  function Entries(h: seq<Op>): seq<Snapshot> {
    if h == [] then [] else Done(Entries(Front(h)), Last(h))
  }

  /** Ids are random tokens: none is ever given twice. */
  predicate FreshIds(h: seq<Op>) {
    forall i, j | 0 <= i < j < |h| && h[i].Add? && h[j].Add? :: h[i].snapshot.id != h[j].snapshot.id
  }

  /** The snapshot this operation adds or successfully reads. */
  function Uses(es: seq<Snapshot>, op: Op): Option<nat> {
    match op
    case Add(snapshot, _) => Some(snapshot.id)
    case Get(id, scope, queue, at) => if Answer(es, id, scope, queue, at).Some? then Some(id) else None
  }

  /** The other snapshots used since the last use of this one. */
  function Others(h: seq<Op>, id: nat): set<nat> {
    if h == [] then {} else
      var used := Uses(Entries(Front(h)), Last(h));
      if used == Some(id) then {}
      else if used.Some? then Others(Front(h), id) + {used.value}
      else Others(Front(h), id)
  }

  /** Never more than four, each added once and under its own id. */
  lemma {:induction false} FewAndUnique(h: seq<Op>)
    requires FreshIds(h)
    ensures |Entries(h)| <= MAX_SNAPSHOTS && Unique(Entries(h))
    ensures forall e | e in Entries(h) :: exists i :: 0 <= i < |h| && h[i].Add? && h[i].snapshot == e
  {
    if h != [] {
      FewAndUnique(Front(h));
      var es, at := Entries(Front(h)), Last(h).at;
      LiveIs(es, at);
      forall e | e in Entries(h)
        ensures exists i :: 0 <= i < |h| && h[i].Add? && h[i].snapshot == e
      {
        if Last(h).Get? {
          WithoutIs(Live(es, at), Last(h).id);
        }
        assert e in es || (Last(h).Add? && e == h[|h| - 1].snapshot);
        if e in es {
          var i :| 0 <= i < |h| - 1 && Front(h)[i].Add? && Front(h)[i].snapshot == e;
          assert h[i].snapshot == e;
        }
      }
      StepFew(es, Last(h));
    }
  }

  lemma StepFew(es: seq<Snapshot>, op: Op)
    requires |es| <= MAX_SNAPSHOTS && Unique(es) && (op.Add? ==> forall e | e in es :: e.id != op.snapshot.id)
    ensures |Done(es, op)| <= MAX_SNAPSHOTS && Unique(Done(es, op))
  {
    hide Live, Without;
    LiveIs(es, op.at);
    if op.Get? {
      WithoutIs(Live(es, op.at), op.id);
      var found := Answer(es, op.id, op.scope, op.queue, op.at);
      if found.Some? {
        WithoutShorter(Live(es, op.at), found.value);
      }
    } else {
      var all := Live(es, op.at) + [op.snapshot];
      assert Unique(all);
      assert Done(es, op) == Newest(all);
    }
  }

  /** The snapshot is there, and only snapshots of `others` were used after it. */
  predicate Recent(es: seq<Snapshot>, s: Snapshot, others: set<nat>) {
    es != [] && (Last(es) == s || (Last(es).id in others && Recent(Front(es), s, others)))
  }

  lemma {:induction false} RecentIsThere(es: seq<Snapshot>, s: Snapshot, others: set<nat>)
    requires Recent(es, s, others)
    ensures s in es
  {
    assert es == Front(es) + [Last(es)];
    if Last(es) != s {
      RecentIsThere(Front(es), s, others);
    }
  }

  lemma {:induction false} RecentLive(es: seq<Snapshot>, s: Snapshot, others: set<nat>, now: nat)
    requires Recent(es, s, others) && s.ExpiresAt() > now
    ensures Recent(Live(es, now), s, others)
  {
    var rest := Live(Front(es), now);
    assert Front(rest + [Last(es)]) == rest && Last(rest + [Last(es)]) == Last(es);
    if Last(es) == s {
      assert Live(es, now) == rest + [s];
    } else {
      RecentLive(Front(es), s, others, now);
      assert Live(es, now) == if Last(es).ExpiresAt() <= now then rest else rest + [Last(es)];
    }
  }

  lemma {:induction false} RecentWithout(es: seq<Snapshot>, s: Snapshot, others: set<nat>, id: nat)
    requires Recent(es, s, others) && s.id != id
    ensures Recent(Without(es, id), s, others)
  {
    var rest := Without(Front(es), id);
    assert Front(rest + [Last(es)]) == rest && Last(rest + [Last(es)]) == Last(es);
    if Last(es) == s {
      assert Without(es, id) == rest + [s];
    } else {
      RecentWithout(Front(es), s, others, id);
      assert Without(es, id) == if Last(es).id == id then rest else rest + [Last(es)];
    }
  }

  lemma {:induction false} RecentAmong(es: seq<Snapshot>, s: Snapshot, others: set<nat>, more: set<nat>)
    requires Recent(es, s, others) && forall e | e in es :: e.id in others ==> e.id in more
    ensures Recent(es, s, more)
  {
    assert es == Front(es) + [Last(es)];
    if Last(es) != s {
      RecentAmong(Front(es), s, others, more);
    }
  }

  lemma RecentAppend(es: seq<Snapshot>, s: Snapshot, others: set<nat>, e: Snapshot)
    requires Recent(es, s, others)
    ensures Recent(es + [e], s, others + {e.id})
  {
    RecentAmong(es, s, others, others + {e.id});
    assert Front(es + [e]) == es;
  }

  /** With more entries than others, the oldest can go. */
  lemma {:induction false} RecentDrop(es: seq<Snapshot>, s: Snapshot, others: set<nat>)
    requires Recent(es, s, others) && Unique(es) && |es| > |others| + 1
    ensures Recent(es[1..], s, others)
  {
    if Last(es) != s {
      var y := Last(es).id;
      assert es == Front(es) + [Last(es)];
      assert forall i | 0 <= i < |es| - 1 :: es[i].id != es[|es| - 1].id;
      RecentAmong(Front(es), s, others, others - {y});
      RecentDrop(Front(es), s, others - {y});
      RecentAmong(Front(es)[1..], s, others - {y}, others);
      assert Front(es[1..]) == Front(es)[1..];
    }
  }

  lemma StepStaysRecent(es: seq<Snapshot>, op: Op, s: Snapshot, others: set<nat>)
    requires |es| <= MAX_SNAPSHOTS && Unique(es) && (op.Add? ==> forall e | e in es :: e.id != op.snapshot.id)
    requires Recent(es, s, others) && op.at < s.ExpiresAt() && Uses(es, op) != Some(s.id)
    requires Uses(es, op).Some? ==> |others + {Uses(es, op).value}| < MAX_SNAPSHOTS
    ensures Recent(Done(es, op), s, if Uses(es, op).Some? then others + {Uses(es, op).value} else others)
  {
    var live := Live(es, op.at);
    LiveIs(es, op.at);
    RecentLive(es, s, others, op.at);
    match op {
      case Add(snapshot, at) =>
        RecentAppend(live, s, others, snapshot);
        if |live| == MAX_SNAPSHOTS {
          RecentDrop(live + [snapshot], s, others + {snapshot.id});
        }
      case Get(id, scope, queue, at) =>
        var found := Answer(es, id, scope, queue, at);
        if found.Some? {
          RecentWithout(live, s, others, id);
          RecentAppend(Without(live, id), s, others, found.value);
        }
    }
  }

  lemma {:induction false} StaysRecent(h: seq<Op>, s: Snapshot)
    requires FreshIds(h) && exists i :: 0 <= i < |h| && h[i].Add? && h[i].snapshot == s
    requires forall i | 0 <= i < |h| :: h[i].at < s.ExpiresAt()
    requires |Others(h, s.id)| < MAX_SNAPSHOTS
    ensures Recent(Entries(h), s, Others(h, s.id))
  {
    hide Done, Entries, Answer, Live, Others, Recent, Lookup;
    var front, op := Front(h), Last(h);
    var es := Entries(front);
    FewAndUnique(front);
    NewId(h);
    if Uses(es, op) == Some(s.id) {
      UsedLast(h, s);
    } else {
      var i :| 0 <= i < |h| && h[i].Add? && h[i].snapshot == s;
      assert i < |h| - 1 && front[i].Add? && front[i].snapshot == s;
      OthersStep(h, s.id);
      SmallerSubset(Others(front, s.id), Others(h, s.id));
      StaysRecent(front, s);
      StepStaysRecent(es, op, s, Others(front, s.id));
    }
  }

  lemma OthersStep(h: seq<Op>, id: nat)
    requires h != [] && Uses(Entries(Front(h)), Last(h)) != Some(id)
    ensures var used := Uses(Entries(Front(h)), Last(h));
            Others(h, id) == (if used.Some? then Others(Front(h), id) + {used.value} else Others(Front(h), id))
    ensures Others(Front(h), id) <= Others(h, id) && Entries(h) == Done(Entries(Front(h)), Last(h))
  {
  }

  lemma NewId(h: seq<Op>)
    requires h != [] && FreshIds(h)
    ensures FreshIds(Front(h)) && (Last(h).Add? ==> forall e | e in Entries(Front(h)) :: e.id != Last(h).snapshot.id)
  {
    FewAndUnique(Front(h));
    assert forall i | 0 <= i < |h| - 1 :: Front(h)[i] == h[i];
  }

  /** Two snapshots that were added under one id are the same. */
  lemma OneId(h: seq<Op>, s: Snapshot, t: Snapshot)
    requires FreshIds(h) && s.id == t.id
    requires exists i :: 0 <= i < |h| && h[i].Add? && h[i].snapshot == s
    requires exists i :: 0 <= i < |h| && h[i].Add? && h[i].snapshot == t
    ensures s == t
  {
    var i :| 0 <= i < |h| && h[i].Add? && h[i].snapshot == s;
    var k :| 0 <= k < |h| && h[k].Add? && h[k].snapshot == t;
    assert i == k;
  }

  /** What an operation uses comes last. */
  lemma LastIsUsed(es: seq<Snapshot>, op: Op)
    requires Uses(es, op).Some?
    ensures Done(es, op) != []
    ensures op.Add? ==> Last(Done(es, op)) == op.snapshot
    ensures op.Get? ==>
              var found := Answer(es, op.id, op.scope, op.queue, op.at);
              found.Some? && Last(Done(es, op)) == found.value
  {
    hide Live, Without, Lookup;
  }

  lemma AnswerIsThere(es: seq<Snapshot>, op: Op)
    requires op.Get? && Uses(es, op).Some?
    ensures var found := Answer(es, op.id, op.scope, op.queue, op.at);
            found.Some? && found.value in es && found.value.id == op.id
  {
    hide Live, Without;
    LiveIs(es, op.at);
  }

  /** Right after its use the snapshot is the newest. */
  lemma UsedLast(h: seq<Op>, s: Snapshot)
    requires h != [] && FreshIds(h) && exists i :: 0 <= i < |h| && h[i].Add? && h[i].snapshot == s
    requires Uses(Entries(Front(h)), Last(h)) == Some(s.id)
    ensures Recent(Entries(h), s, Others(h, s.id))
  {
    var es, op := Entries(Front(h)), Last(h);
    assert Entries(h) == Done(es, op);
    LastIsUsed(es, op);
    hide Entries, Done, Others;
    if op.Add? {
      assert h[|h| - 1].snapshot == op.snapshot;
      OneId(h, s, op.snapshot);
    } else {
      AnswerIsThere(es, op);
      hide Answer, Uses;
      var found := Answer(es, op.id, op.scope, op.queue, op.at).value;
      AddedBefore(h, found);
      OneId(h, s, found);
    }
  }

  lemma AddedBefore(h: seq<Op>, e: Snapshot)
    requires h != [] && FreshIds(h) && e in Entries(Front(h))
    ensures exists i :: 0 <= i < |h| && h[i].Add? && h[i].snapshot == e
  {
    hide Entries;
    FewAndUnique(Front(h));
    var k :| 0 <= k < |h| - 1 && Front(h)[k].Add? && Front(h)[k].snapshot == e;
    assert h[k].snapshot == e;
  }

  /**
   A snapshot that has not expired is found, unchanged, as long as fewer than four others were added
   or read since its last use. The clock does not go back.
   */
  lemma Remembered(h: seq<Op>, s: Snapshot, now: nat)
    requires FreshIds(h) && exists i :: 0 <= i < |h| && h[i].Add? && h[i].snapshot == s
    requires (forall i | 0 <= i < |h| :: h[i].at <= now) && now < s.ExpiresAt()
    requires |Others(h, s.id)| < MAX_SNAPSHOTS
    ensures Answer(Entries(h), s.id, s.scope, s.queue, now) == Some(s)
  {
    StaysRecent(h, s);
    RecentIsThere(Entries(h), s, Others(h, s.id));
    FewAndUnique(h);
    LiveIs(Entries(h), now);
  }
}
