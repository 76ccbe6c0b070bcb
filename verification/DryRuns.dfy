/** The dry run of app/application/bulk_service.py, and that execute does what it announced. */
module DryRuns {
  import opened Records
  import opened Broker
  import opened Session
  import opened QueueOrder
  import opened Browser
  import opened Operator
  import opened BulkOperator
  import opened BulkService
  import opened DeliveryGuard
  import opened BatchStore

  datatype Asked = Asked(
    queue: string,
    action: string,
    mode: Action,
    target: Option<ReplayTarget>,
    contains: string,
    selected: Option<set<Fingerprint>>,
    maxBulk: Option<nat>,
    scanLimit: Option<nat>,
    depth: Option<nat>)

  /** What the operator is to do for the action asked for, and where to. */
  function Resolve(asked: Asked, configured: Option<ReplayTarget>): Reply<(Action, Option<ReplayTarget>)> {
    if asked.action == "replay" then
      var target := if asked.target.Some? then asked.target else configured;
      if target.None? then Raise(BadTarget) else Ok((asked.mode, target))
    else if asked.action == "park" then
      Ok((Park, Some(ReplayTarget("queue", Some(asked.queue + ".parking"), None, None))))
    else if asked.action == "delete" then Ok((Delete, None))
    else Raise(UnsupportedAction)
  }

  function ScanLimit(asked: Asked, window: nat, whole: bool): nat {
    var limit := Or(asked.scanLimit, window);
    if whole then Or(asked.depth, limit) else limit
  }

  // --------------------------------------------------------------- the picks, on records

  function FilterRecords(rs: seq<MessageRecord>, contains: string, selected: Option<set<Fingerprint>>)
    : seq<MessageRecord>
  {
    if rs == [] then []
    else FilterRecords(Front(rs), contains, selected)
         + (if Wanted(Last(rs), contains, selected) then [Last(rs)] else [])
  }

  function PickedRecords(rs: seq<MessageRecord>, whole: bool, window: nat, contains: string,
                         selected: Option<set<Fingerprint>>): seq<MessageRecord>
  {
    FilterRecords(if whole && selected.None? && window < |rs| then rs[..window] else rs, contains, selected)
  }

  function FpsOf(rs: seq<MessageRecord>): set<Fingerprint> { set r | r in rs :: r.fingerprint }

  function Copies(rs: seq<MessageRecord>, fp: Fingerprint): nat {
    if rs == [] then 0 else Copies(Front(rs), fp) + (if Last(rs).fingerprint == fp then 1 else 0)
  }

  function Duplicates(rs: seq<MessageRecord>): set<Fingerprint> { set fp | fp in FpsOf(rs) && Copies(rs, fp) > 1 }

  lemma RecordsSnoc(ms: seq<Message>)
    requires ms != []
    ensures RecordsOf(ms) == RecordsOf(Front(ms)) + [Last(ms).record]
    ensures Front(RecordsOf(ms)) == RecordsOf(Front(ms)) && Last(RecordsOf(ms)) == Last(ms).record
  {
  }

  lemma {:induction false} FilteredAlike(ms: seq<Message>, contains: string, selected: Option<set<Fingerprint>>)
    ensures FilterRecords(RecordsOf(ms), contains, selected) == RecordsOf(Filter(ms, contains, selected))
  {
    if ms != [] {
      RecordsSnoc(ms);
      FilteredAlike(Front(ms), contains, selected);
    }
  }

  lemma PickedAlike(ms: seq<Message>, whole: bool, window: nat, contains: string, selected: Option<set<Fingerprint>>)
    ensures PickedRecords(RecordsOf(ms), whole, window, contains, selected)
         == RecordsOf(Picked(ms, whole, window, contains, selected))
  {
    FilteredAlike(Window(ms, whole, window, selected), contains, selected);
    if whole && selected.None? && window < |ms| {
      assert RecordsOf(ms)[..window] == RecordsOf(ms[..window]);
    }
  }

  lemma {:induction false} CopiesAlike(ms: seq<Message>, fp: Fingerprint)
    ensures Copies(RecordsOf(ms), fp) == |WithFp(ms, fp)|
  {
    if ms != [] {
      RecordsSnoc(ms);
      CopiesAlike(Front(ms), fp);
    }
  }

  lemma CountedAlike(ms: seq<Message>)
    ensures FpsOf(RecordsOf(ms)) == Fps(ms) && Duplicates(RecordsOf(ms)) == Duplicated(Fps(ms), ms)
  {
    hide WithFp;
    var rs := RecordsOf(ms);
    forall fp
      ensures fp in FpsOf(rs) <==> fp in Fps(ms)
    {
      if fp in FpsOf(rs) {
        var i :| 0 <= i < |rs| && rs[i].fingerprint == fp;
        assert ms[i].Fp() == fp && ms[i] in ms;
      }
      if fp in Fps(ms) {
        var m :| m in ms && m.Fp() == fp;
        var i :| 0 <= i < |ms| && ms[i] == m;
        assert rs[i].fingerprint == fp && rs[i] in rs;
      }
    }
    forall fp
      ensures Copies(rs, fp) == |WithFp(ms, fp)|
    {
      CopiesAlike(ms, fp);
    }
  }

  // -------------------------------------------------------------------------- the dry run

  datatype Report = Report(batch: BulkBatch, notSeen: nat)

  /** The picks of a dry run of these messages. */
  function PicksOf(asked: Asked, read: seq<Message>, whole: bool, maxBulk: nat): seq<Message> {
    Picked(read, whole, Or(asked.maxBulk, maxBulk), asked.contains, asked.selected)
  }

  /** A batch approves exactly the picks of this scan. */
  ghost predicate Approves(batch: BulkBatch, asked: Asked, read: seq<Message>, whole: bool, maxBulk: nat) {
    var picks := PicksOf(asked, read, whole, maxBulk);
    && batch.fingerprints == Fps(picks)
    && batch.messageCount == |picks|
    && batch.duplicates == |Duplicated(Fps(picks), picks)|
    && batch.samples == Sorted(batch.fingerprints)[..if |batch.fingerprints| > 10 then 10 else |batch.fingerprints|]
    && batch.scanLimit == ScanLimit(asked, Or(asked.maxBulk, maxBulk), whole)
  }

  /** The batch for these records of a scan. */
  function BatchOf(asked: Asked, todo: (Action, Option<ReplayTarget>), scanned: seq<MessageRecord>, whole: bool,
                   maxBulk: nat, id: BatchId, scope: Scope, expiresAt: int): BulkBatch
  {
    var window := Or(asked.maxBulk, maxBulk);
    var records := PickedRecords(scanned, whole, window, asked.contains, asked.selected);
    var unique := FpsOf(records);
    var samples := Sorted(unique);
    BulkBatch(id, asked.queue, asked.action, todo.0, todo.1, unique, |records|, |Duplicates(records)|,
              if |samples| > 10 then samples[..10] else samples, ScanLimit(asked, window, whole), scope, expiresAt)
  }

  // ------------------------------------------------------------ the same, in plain words

  predicate StandsAt(needle: string, body: string, k: nat) {
    k + |needle| <= |body| && body[k..k + |needle|] == needle
  }

  /** Python's `in`: the text stands somewhere in the body. */
  lemma {:induction false} ContainsExactly(needle: string, body: string)
    ensures Contains(needle, body) <==> exists k :: StandsAt(needle, body, k)
    decreases |body|
  {
    if |needle| <= |body| {
      assert StandsAt(needle, body, 0) <==> body[..|needle|] == needle;
      if body != "" {
        ContainsExactly(needle, body[1..]);
        forall k: nat
          ensures StandsAt(needle, body[1..], k) <==> StandsAt(needle, body, k + 1)
        {
          StandsLater(needle, body, k);
        }
        assert forall k: nat | StandsAt(needle, body, k) && k > 0 ::
            var before: nat := k - 1; StandsAt(needle, body[1..], before);
      }
    }
  }

  lemma StandsLater(needle: string, body: string, k: nat)
    requires body != ""
    ensures StandsAt(needle, body[1..], k) <==> StandsAt(needle, body, k + 1)
  {
    if k + 1 + |needle| <= |body| {
      assert body[1..][k..k + |needle|] == body[k + 1..k + 1 + |needle|];
    }
  }

  /** The text is in its body, and it is among the selected, if there is a selection. */
  ghost predicate AskedFor(asked: Asked, r: MessageRecord) {
    && (exists k :: StandsAt(asked.contains, r.body, k))
    && (asked.selected.Some? ==> r.fingerprint in asked.selected.value)
  }

  /** The places in the scan a dry run approves: a whole scan is cut to the head window, unless there is a selection. */
  ghost function Places(asked: Asked, read: seq<Message>, whole: bool, maxBulk: nat): (places: set<nat>)
    ensures forall i | i in places :: i < |read|
  {
    var window := if asked.maxBulk.Some? && asked.maxBulk.value > 0 then asked.maxBulk.value else maxBulk;
    set i: nat | i < |read| && (whole && asked.selected.None? ==> i < window) && AskedFor(asked, read[i].record)
  }

  /** What a batch approves and announces, by place in the scan. */
  ghost predicate ApprovesPlaces(batch: BulkBatch, asked: Asked, read: seq<Message>, whole: bool, maxBulk: nat) {
    var window := if asked.maxBulk.Some? && asked.maxBulk.value > 0 then asked.maxBulk.value else maxBulk;
    var limit := if asked.scanLimit.Some? && asked.scanLimit.value > 0 then asked.scanLimit.value else window;
    var places := Places(asked, read, whole, maxBulk);
    && (forall fp :: fp in batch.fingerprints <==> exists i :: i in places && read[i].Fp() == fp)
    && batch.messageCount == |places|
    && batch.duplicates
       == |set fp | fp in batch.fingerprints && |set i | i in places && read[i].Fp() == fp| >= 2|
    && batch.samples == Sorted(batch.fingerprints)[..if |batch.fingerprints| > 10 then 10 else |batch.fingerprints|]
    && batch.scanLimit == if whole && asked.depth.Some? && asked.depth.value > 0 then asked.depth.value else limit
  }

  lemma WantedExactly(asked: Asked, r: MessageRecord)
    ensures Wanted(r, asked.contains, asked.selected) <==> AskedFor(asked, r)
  {
    hide Contains;
    ContainsExactly(asked.contains, r.body);
    assert asked.contains == "" ==> StandsAt(asked.contains, r.body, 0);
  }

  /** How many the filter keeps. */
  lemma {:induction false} FilterPlaces(ms: seq<Message>, contains: string, selected: Option<set<Fingerprint>>)
    ensures |Filter(ms, contains, selected)| == |set i | 0 <= i < |ms| && Wanted(ms[i].record, contains, selected)|
  {
    var all := set i | 0 <= i < |ms| && Wanted(ms[i].record, contains, selected);
    if ms == [] {
      assert all == {};
    } else {
      var front, last := Front(ms), Last(ms);
      assert |Filter(ms, contains, selected)|
          == |Filter(front, contains, selected)| + (if Wanted(last.record, contains, selected) then 1 else 0);
      hide Wanted, Filter;
      FilterPlaces(front, contains, selected);
      var fewer := set i | 0 <= i < |front| && Wanted(front[i].record, contains, selected);
      OneMoreIn(fewer, all, |front|, Wanted(last.record, contains, selected));
    }
  }

  /** It keeps this one, and it has this fingerprint. */
  predicate KeptOf(m: Message, contains: string, selected: Option<set<Fingerprint>>, fp: Fingerprint) {
    Wanted(m.record, contains, selected) && m.Fp() == fp
  }

  /** How many it keeps of one fingerprint. */
  lemma {:induction false} FilterPlacesOf(ms: seq<Message>, contains: string, selected: Option<set<Fingerprint>>,
                                          fp: Fingerprint)
    ensures |WithFp(Filter(ms, contains, selected), fp)|
         == |set i | 0 <= i < |ms| && KeptOf(ms[i], contains, selected, fp)|
  {
    var those := set i | 0 <= i < |ms| && KeptOf(ms[i], contains, selected, fp);
    if ms == [] {
      assert those == {};
    } else {
      FilterOneMore(ms, contains, selected, fp);
      FilterPlacesOf(Front(ms), contains, selected, fp);
      OneMorePlace(ms, contains, selected, fp);
    }
  }

  lemma OneMorePlace(ms: seq<Message>, contains: string, selected: Option<set<Fingerprint>>, fp: Fingerprint)
    requires ms != []
    ensures |set i | 0 <= i < |ms| && KeptOf(ms[i], contains, selected, fp)|
         == |set i | 0 <= i < |Front(ms)| && KeptOf(Front(ms)[i], contains, selected, fp)|
            + (if KeptOf(Last(ms), contains, selected, fp) then 1 else 0)
  {
    hide KeptOf;
    var front := Front(ms);
    var those := set i | 0 <= i < |ms| && KeptOf(ms[i], contains, selected, fp);
    var fewer := set i | 0 <= i < |front| && KeptOf(front[i], contains, selected, fp);
    OneMoreIn(fewer, those, |front|, KeptOf(Last(ms), contains, selected, fp));
  }

  lemma FilterOneMore(ms: seq<Message>, contains: string, selected: Option<set<Fingerprint>>, fp: Fingerprint)
    requires ms != []
    ensures |WithFp(Filter(ms, contains, selected), fp)|
         == |WithFp(Filter(Front(ms), contains, selected), fp)|
            + (if KeptOf(Last(ms), contains, selected, fp) then 1 else 0)
  {
    hide Wanted, WithFp;
    var rest := Filter(Front(ms), contains, selected);
    WithFpSnoc(rest, Last(ms), fp);
    assert rest + [] == rest;
  }

  lemma PicksPlaces(asked: Asked, read: seq<Message>, whole: bool, maxBulk: nat, fp: Fingerprint)
    ensures var picks, places := PicksOf(asked, read, whole, maxBulk), Places(asked, read, whole, maxBulk);
            && |picks| == |places|
            && |WithFp(picks, fp)| == |set i | i in places && read[i].Fp() == fp|
            && (fp in Fps(picks) <==> exists i :: i in places && read[i].Fp() == fp)
  {
    hide Filter, WithFp, Wanted, AskedFor;
    var picks, places := PicksOf(asked, read, whole, maxBulk), Places(asked, read, whole, maxBulk);
    var seen := Window(read, whole, Or(asked.maxBulk, maxBulk), asked.selected);
    FilterPlaces(seen, asked.contains, asked.selected);
    FilterPlacesOf(seen, asked.contains, asked.selected, fp);
    forall r {
      WantedExactly(asked, r);
    }
    assert forall i | 0 <= i < |seen| :: seen[i] == read[i];
    assert places == set i | 0 <= i < |seen| && Wanted(seen[i].record, asked.contains, asked.selected);
    assert (set i | i in places && read[i].Fp() == fp)
        == set i | 0 <= i < |seen| && KeptOf(seen[i], asked.contains, asked.selected, fp);
    FilterMembers(seen, asked.contains, asked.selected);
    if fp in Fps(picks) {
      var m :| m in picks && m.Fp() == fp;
      var i :| 0 <= i < |seen| && seen[i] == m;
      assert i in places && read[i].Fp() == fp;
    }
    if i :| i in places && read[i].Fp() == fp {
      assert seen[i] in seen && seen[i] in picks;
    }
  }

  lemma ApprovedPlaces(batch: BulkBatch, asked: Asked, read: seq<Message>, whole: bool, maxBulk: nat)
    requires Approves(batch, asked, read, whole, maxBulk)
    ensures ApprovesPlaces(batch, asked, read, whole, maxBulk)
  {
    hide PicksOf, Places, WithFp, Sorted;
    var picks, places := PicksOf(asked, read, whole, maxBulk), Places(asked, read, whole, maxBulk);
    forall fp
      ensures |picks| == |places| && (fp in Fps(picks) <==> exists i :: i in places && read[i].Fp() == fp)
      ensures |WithFp(picks, fp)| == |set i | i in places && read[i].Fp() == fp|
    {
      PicksPlaces(asked, read, whole, maxBulk, fp);
    }
    assert |picks| == |places| by { PicksPlaces(asked, read, whole, maxBulk, 0); }
    assert Duplicated(Fps(picks), picks)
        == set fp | fp in batch.fingerprints && |set i | i in places && read[i].Fp() == fp| >= 2;
  }

  lemma BatchApproves(asked: Asked, todo: (Action, Option<ReplayTarget>), read: seq<Message>, whole: bool,
                      maxBulk: nat, id: BatchId, scope: Scope, expiresAt: int)
    ensures var batch := BatchOf(asked, todo, RecordsOf(read), whole, maxBulk, id, scope, expiresAt);
            && Approves(batch, asked, read, whole, maxBulk)
            && batch.id == id && batch.sourceQueue == asked.queue && batch.name == asked.action
            && batch.action == todo.0 && batch.target == todo.1
            && batch.scope == scope && batch.expiresAt == expiresAt
  {
    hide Picked, WithFp;
    var picks := PicksOf(asked, read, whole, maxBulk);
    PickedAlike(read, whole, Or(asked.maxBulk, maxBulk), asked.contains, asked.selected);
    CountedAlike(picks);
    assert |RecordsOf(picks)| == |picks|;
    assert forall s: seq<Fingerprint> :: s[..|s|] == s;
  }

  /** There is an action to do, and if it is a replay a target for it. */
  predicate Resolvable(asked: Asked, configured: Option<ReplayTarget>) {
    || (asked.action == "replay" && (asked.target.Some? || configured.Some?))
    || asked.action == "park" || asked.action == "delete"
  }

  /**
   Scan, filter, and store what is approved under a new id. Nothing is published or acked; a dry
   run that raises stores nothing. It approves the fingerprints of just those messages of the scan
   that hold the text and are selected, for the action and target asked for: a target that comes with
   the request goes before the configured one. Without a fault it raises only if there is nothing to
   do or no target, if the guard refuses, or if the queue is too deep.
   */
  method DryRun(store: Store, s: Channel, id: BatchId, asked: Asked, configured: Option<ReplayTarget>,
                guard: Verdict, maxBulk: nat, scope: Scope, now: int, ttl: int) returns (r: Reply<Report>)
    requires s.Fresh()
    modifies store, s
    ensures s.Valid() && !s.open && forall fp :: On(s.mine, fp) == []
    ensures r.Raise? ==> store.rows == old(store.rows)
    ensures r.Ok? ==>
              var batch := r.value.batch;
              && guard.Browse? && store.rows == old(store.rows)[id := batch]
              && Approves(batch, asked, Read(s.mine), guard.whole, maxBulk)
              && ApprovesPlaces(batch, asked, Read(s.mine), guard.whole, maxBulk)
              && r.value.notSeen == (if asked.selected.Some? then |asked.selected.value - batch.fingerprints| else 0)
              && (match asked.action
                  case "replay" =>
                    && batch.action == asked.mode && batch.target.Some?
                    && batch.target == if asked.target.Some? then asked.target else configured
                  case "park" =>
                    && batch.action == Park
                    && batch.target == Some(ReplayTarget("queue", Some(asked.queue + ".parking"), None, None))
                  case "delete" => batch.action == Delete && batch.target == None
                  case _ => false)
              && batch.id == id && batch.sourceQueue == asked.queue && batch.name == asked.action
              && batch.scope == scope && batch.expiresAt == now + ttl
    ensures !Resolvable(asked, configured) || guard.Refuse? ==> s.mine == [] && r.Raise?
    ensures !Resolvable(asked, configured) ==>
              r == Raise(if asked.action == "replay" then BadTarget else UnsupportedAction)
    ensures Resolvable(asked, configured) && guard.Refuse? ==>
              r == Raise(if guard.why.BrokerUnreachable? then ConnectionLost else UnsafeToBrowse)
    ensures Resolvable(asked, configured) && guard.Browse? && r.Raise? && !s.faulted ==>
              && r.error.UnsafeToBrowse?
              && TooDeep(s.counted, ScanLimit(asked, Or(asked.maxBulk, maxBulk), guard.whole), guard.whole,
                         Read(s.mine))
    ensures Resolvable(asked, configured) && guard.Browse? && s.quiet && !s.faulted ==>
              var limit := ScanLimit(asked, Or(asked.maxBulk, maxBulk), guard.whole);
              (r.Raise? <==> if guard.whole then |s.start.ready| > limit else limit == 0 && s.start.ready != [])
    ensures r.Ok? && s.quiet && !s.faulted ==>
              var limit := ScanLimit(asked, Or(asked.maxBulk, maxBulk), guard.whole);
              && Read(s.mine) == Visible(s.start.ready, limit, guard.whole)
              && ((s.start.kind.Quorum? && guard.whole)
                  || (s.start.kind.Classic? && s.start.unacked == map[] && InArrivalOrder(s.start.ready)) ==>
                    s.world.ready == s.start.ready)
  {
    NothingOn();
    hide Legal, Run, Own, Accounted, Read, On, Picked, Visible, InArrivalOrder, Approves, BatchOf, RecordsOf,
      ScanLimit, Or, ApprovesPlaces, TooDeep;
    var resolved := Resolve(asked, configured);
    if resolved.Raise? {
      return Raise(resolved.error);
    }
    if guard.Refuse? {
      return Raise(GuardError(guard.why));
    }
    var limit := ScanLimit(asked, Or(asked.maxBulk, maxBulk), guard.whole);
    var scanned := ListMessages(s, limit, guard.whole);
    if scanned.Raise? {
      return Raise(scanned.error);
    }
    var batch := BatchOf(asked, resolved.value, scanned.value, guard.whole, maxBulk, id, scope, now + ttl);
    BatchApproves(asked, resolved.value, Read(s.mine), guard.whole, maxBulk, id, scope, now + ttl);
    ApprovedPlaces(batch, asked, Read(s.mine), guard.whole, maxBulk);
    store.Save(id, batch);
    r := Ok(Report(batch, if asked.selected.Some? then |asked.selected.value - batch.fingerprints| else 0));
  }

  // ------------------------------------------------------- what execute does afterwards

  /** Only this channel was opened. */
  lemma {:induction false} OnlyMine(w: World, es: seq<Event>, c: ChannelId)
    requires Legal(w, es) && OnlyPublished(es, c)
    ensures forall d | d != c :: d in Run(w, es).jobs <==> d in w.jobs
  {
    if es != [] {
      assert Last(es) in es && forall e | e in Front(es) :: e in es;
      OnlyMine(w, Front(es), c);
    }
  }

  lemma NothingHeldAfter(s: Channel, other: ChannelId)
    requires s.Valid() && !s.open && s.quiet && s.start.unacked == map[] && other != s.me && other !in s.start.jobs
    ensures s.world.unacked == map[] && other !in s.world.jobs && Accounted(s.world) && s.world.kind == s.start.kind
  {
    hide Legal, Run, Own, Accounted;
    QuietIsAlone(s);
    AloneHolds(s.start, s.log, s.me);
    OnlyMine(s.start, s.log, s.me);
    s.Safe();
  }

  /**
   A dry run and its execute, on a queue nobody else touches. Whatever fails, execute touches only
   messages the dry run's filtered scan contained, and sends copies to its target only. If no call
   fails and the target is one to publish to, execute runs. If moreover no copy comes back and no
   count is needed that cannot be read, everything approved is found, and the counts are those the dry
   run announced: succeeded plus skipped is its unique count, and skipped its duplicates, or at least
   those if it was trimmed to the head window of a quorum queue.
   */
  method DryRunThenExecute(store: Store, world: World, first: ChannelId, second: ChannelId, id: BatchId,
                           asked: Asked, configured: Option<ReplayTarget>, guard: Verdict, maxBulk: nat, scope: Scope,
                           now: int, ttl: int, later: int)
    returns (dry: Reply<Report>, executed: Executed, looked: Channel, acted: Channel)
    requires Accounted(world) && world.unacked == map[]
    requires first != second && first !in world.jobs && second !in world.jobs
    requires || (world.kind.Quorum? && guard == Verdict.Browse(true))
             || (world.kind.Classic? && InArrivalOrder(world.ready))
    modifies store
    ensures fresh(looked) && fresh(acted) && looked.Valid() && acted.Valid()
    ensures looked.start == world && acted.start == looked.world && looked.me == first && acted.me == second
    ensures dry.Raise? ==> acted.mine == [] && acted.sent == []
    ensures dry.Ok? ==>
              && guard.Browse?
              && ApprovesPlaces(dry.value.batch, asked, Read(looked.mine), guard.whole, maxBulk)
              && ((acted.mine == [] && acted.sent == [])
                  || WithinAction(second, dry.value.batch.action, dry.value.batch.target, dry.value.batch.fingerprints,
                                  Read(acted.mine), Past(acted.mine, acted.sent)))
    ensures dry.Ok? && ttl >= 0 && now <= later <= now + ttl && !looked.faulted && !acted.faulted ==>
              var batch := dry.value.batch;
              && !batch.action.Browse?
              && (batch.action.Publishes() ==> batch.target.Some? && Usable(batch.target.value)) ==>
                executed.Done?
    ensures dry.Ok? && executed.Done? && !looked.faulted && !acted.faulted && Identifying(world.ready)
              && (forall x | x in acted.sent :: !x.fate.Bounced?)
              && !AnyHindered(dry.value.batch.action, Read(acted.mine), dry.value.batch.fingerprints) ==>
              var batch, counts := dry.value.batch, executed.summary;
              && executed.batch == batch && counts.notFound == 0
              && counts.succeeded + counts.skipped == |batch.fingerprints|
              && counts.skipped >= batch.duplicates
              && (!guard.whole || asked.selected.Some? ==> counts.skipped == batch.duplicates)
  {
    hide Legal, Run, Own, Accounted, Read, On, Picked, Visible, InArrivalOrder, WithinAction, Reported, Summarize,
      Identifying, Executes, Approves, ApprovesPlaces, AnyHindered, TooDeep, Usable;
    looked := new Channel(first, world, true);
    dry := DryRun(store, looked, id, asked, configured, guard, maxBulk, scope, now, ttl);
    NothingHeldAfter(looked, second);
    acted := new Channel(second, looked.world, true);
    executed := UnknownBatch;
    if dry.Raise? {
      return;
    }
    ghost var rows := store.rows;
    executed := Execute(store, scope, id, later, guard, maxBulk, acted);
    ExecuteMeans(rows, scope, id, later, guard, maxBulk, acted, executed);
    LimitOf(dry.value.batch, asked, Read(looked.mine), guard.whole, maxBulk);
    AsAnnounced(rows, scope, id, later, guard, maxBulk, asked, looked, acted, executed);
  }

  /** What an execute comes to, after a dry run. */
  lemma AsAnnounced(rows: Rows, scope: Scope, id: BatchId, later: int, guard: Verdict, maxBulk: nat,
                    asked: Asked, looked: Channel, acted: Channel, executed: Executed)
    requires id in rows && Executes(rows, scope, id, later, guard, maxBulk, acted, executed)
    requires guard.Browse? && Approves(rows[id], asked, Read(looked.mine), guard.whole, maxBulk)
    requires acted.quiet
    requires !looked.faulted ==>
               var limit := rows[id].scanLimit;
               && acted.start.ready == looked.start.ready
               && Read(looked.mine) == Visible(looked.start.ready, limit, guard.whole)
               && !(if guard.whole then |looked.start.ready| > limit else limit == 0 && looked.start.ready != [])
    ensures var batch := rows[id];
            && ((acted.mine == [] && acted.sent == [])
                || WithinAction(acted.me, batch.action, batch.target, batch.fingerprints, Read(acted.mine),
                                Past(acted.mine, acted.sent)))
            && (!looked.faulted && !acted.faulted && executed.Raised? ==>
                  batch.action.Browse?
                  || (batch.action.Publishes() && !(batch.target.Some? && Usable(batch.target.value))))
            && (executed.Done? && !looked.faulted && !acted.faulted && Identifying(looked.start.ready)
                && (forall x | x in acted.sent :: !x.fate.Bounced?)
                && !AnyHindered(batch.action, Read(acted.mine), batch.fingerprints) ==>
                  var counts := executed.summary;
                  && counts.notFound == 0
                  && counts.succeeded + counts.skipped == |batch.fingerprints|
                  && counts.skipped >= batch.duplicates
                  && (!guard.whole || asked.selected.Some? ==> counts.skipped == batch.duplicates))
  {
    hide Read, Picked, Visible, WithinAction, Reported, Summarize, Identifying, BulkOperated, AnyHindered, TooDeep,
      Usable, ReportsAll, Approves, ReportLost, NothingTried;
    if executed.Raised? || executed.Done? {
      var batch := rows[id];
      LimitOf(batch, asked, Read(looked.mine), guard.whole, maxBulk);
      SameLimit(asked, maxBulk, guard.whole, batch.scanLimit);
      BulkMeans(acted, batch.fingerprints, batch.action, batch.target,
                if batch.scanLimit != 0 then batch.scanLimit else maxBulk, guard.whole, Read(acted.mine),
                Replied(executed));
      if executed.Done? && !looked.faulted && !acted.faulted && Identifying(looked.start.ready)
         && (forall x | x in acted.sent :: !x.fate.Bounced?)
         && !AnyHindered(batch.action, Read(acted.mine), batch.fingerprints) {
        NothingFailed(acted.me, batch.action, batch.target, batch.fingerprints, Read(acted.mine),
                      Past(acted.mine, acted.sent), executed.results);
        Agree(looked, acted, asked, guard.whole, maxBulk, batch, executed.results);
      }
    }
  }

  lemma LimitOf(batch: BulkBatch, asked: Asked, read: seq<Message>, whole: bool, maxBulk: nat)
    requires Approves(batch, asked, read, whole, maxBulk)
    ensures batch.scanLimit == ScanLimit(asked, Or(asked.maxBulk, maxBulk), whole)
  {
    hide PicksOf, WithFp, Sorted;
  }

  lemma Agree(looked: Channel, acted: Channel, asked: Asked, whole: bool, maxBulk: nat, batch: BulkBatch,
              results: seq<BulkResult>)
    requires acted.start.ready == looked.start.ready && Identifying(looked.start.ready)
    requires Approves(batch, asked, Read(looked.mine), whole, maxBulk)
    requires Read(looked.mine) == Visible(looked.start.ready, batch.scanLimit, whole)
    requires Read(acted.mine) == Visible(acted.start.ready, Or(Some(batch.scanLimit), maxBulk), whole)
    requires Reported(acted.me, batch.action, batch.target, Read(acted.mine), Past(acted.mine, acted.sent),
                      Sorted(batch.fingerprints), results)
    requires forall r | r in results :: !r.status.Failed? && !r.status.NotAttempted?
    ensures var counts := Summarize(results);
            && counts.notFound == 0
            && counts.succeeded + counts.skipped == |batch.fingerprints|
            && counts.skipped >= batch.duplicates
            && (!whole || asked.selected.Some? ==> counts.skipped == batch.duplicates)
  {
    hide Read, Picked, Visible, Reported, Summarize, Identifying;
    SameLimit(asked, maxBulk, whole, batch.scanLimit);
    Agreement(acted.me, batch.action, batch.target, looked.start.ready, batch.scanLimit, Read(looked.mine),
              Past(acted.mine, acted.sent), results, whole, Or(asked.maxBulk, maxBulk), asked.contains, asked.selected);
  }

  /** Execute scans as far as the dry run did. */
  lemma SameLimit(asked: Asked, maxBulk: nat, whole: bool, limit: nat)
    requires limit == ScanLimit(asked, Or(asked.maxBulk, maxBulk), whole)
    ensures Or(Some(limit), maxBulk) == limit
  {
  }
}
