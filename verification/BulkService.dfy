/** Dry run, then execute what it approved: app/application/bulk_service.py. */
module BulkService {
  import opened Records
  import opened Broker
  import opened Session
  import opened Browser
  import opened Operator
  import opened BulkOperator

  // ------------------------------------------------------------------ the dry run's picks

  predicate Contains(needle: string, body: string)
    decreases |body|
  {
    |needle| <= |body| && (body[..|needle|] == needle || (body != "" && Contains(needle, body[1..])))
  }

  /** The dry run's filters, on one record. */
  predicate Wanted(r: MessageRecord, contains: string, selected: Option<set<Fingerprint>>) {
    (contains == "" || Contains(contains, r.body)) && (selected.Some? ==> r.fingerprint in selected.value)
  }

  function Filter(ms: seq<Message>, contains: string, selected: Option<set<Fingerprint>>): seq<Message> {
    if ms == [] then []
    else Filter(Front(ms), contains, selected)
         + (if Wanted(Last(ms).record, contains, selected) then [Last(ms)] else [])
  }

  /** A selection may reach anywhere in the scan; without one, only the head window counts. */
  function Window(read: seq<Message>, whole: bool, window: nat, selected: Option<set<Fingerprint>>): seq<Message> {
    if whole && selected.None? && window < |read| then read[..window] else read
  }

  function Picked(read: seq<Message>, whole: bool, window: nat, contains: string, selected: Option<set<Fingerprint>>)
    : seq<Message>
  {
    Filter(Window(read, whole, window, selected), contains, selected)
  }

  function Fps(ms: seq<Message>): set<Fingerprint> {
    set m | m in ms :: m.Fp()
  }

  function SetOf(fps: seq<Fingerprint>): set<Fingerprint> {
    set fp | fp in fps
  }

  /** Fingerprints that several of these messages carry. */
  function Duplicated(among: set<Fingerprint>, ms: seq<Message>): set<Fingerprint> {
    set fp | fp in among && |WithFp(ms, fp)| > 1
  }

  // --------------------------------------------------------------------------- the counts

  datatype Summary = Summary(succeeded: nat, failed: nat, skipped: nat, notFound: nat, notAttempted: nat) {
    function Total(): nat { succeeded + failed + skipped + notFound + notAttempted }
  }

  function CountOf(rs: seq<BulkResult>, s: Status -> bool): nat {
    if rs == [] then 0 else CountOf(Front(rs), s) + (if s(Last(rs).status) then 1 else 0)
  }

  function Summarize(rs: seq<BulkResult>): Summary {
    Summary(
      CountOf(rs, (s: Status) => s.Success?),
      CountOf(rs, (s: Status) => s.Failed?),
      CountOf(rs, (s: Status) => s.SkippedDuplicate?),
      CountOf(rs, (s: Status) => s.NotFound?),
      CountOf(rs, (s: Status) => s.NotAttempted?))
  }

  /** So many results have such a status. */
  lemma {:induction false} CountsIndices(rs: seq<BulkResult>, s: Status -> bool)
    ensures CountOf(rs, s) == |set i | 0 <= i < |rs| && s(rs[i].status)|
  {
    var at := set i | 0 <= i < |rs| && s(rs[i].status);
    if rs == [] {
      assert at == {};
    } else {
      var front := Front(rs);
      CountsIndices(front, s);
      var fewer := set i | 0 <= i < |front| && s(front[i].status);
      OneMoreIn(fewer, at, |front|, s(Last(rs).status));
    }
  }

  /** Each count of the summary is the number of results with its status. */
  lemma CountsMean(rs: seq<BulkResult>)
    ensures var counts := Summarize(rs);
            && counts.succeeded == |set i | 0 <= i < |rs| && rs[i].status.Success?|
            && counts.failed == |set i | 0 <= i < |rs| && rs[i].status.Failed?|
            && counts.skipped == |set i | 0 <= i < |rs| && rs[i].status.SkippedDuplicate?|
            && counts.notFound == |set i | 0 <= i < |rs| && rs[i].status.NotFound?|
            && counts.notAttempted == |set i | 0 <= i < |rs| && rs[i].status.NotAttempted?|
  {
    hide CountOf;
    var success, failed, skipped, missing, untried :=
      (s: Status) => s.Success?, (s: Status) => s.Failed?, (s: Status) => s.SkippedDuplicate?,
      (s: Status) => s.NotFound?, (s: Status) => s.NotAttempted?;
    CountsIndices(rs, success);
    CountsIndices(rs, failed);
    CountsIndices(rs, skipped);
    CountsIndices(rs, missing);
    CountsIndices(rs, untried);
    assert (set i | 0 <= i < |rs| && success(rs[i].status)) == (set i | 0 <= i < |rs| && rs[i].status.Success?);
    assert (set i | 0 <= i < |rs| && failed(rs[i].status)) == (set i | 0 <= i < |rs| && rs[i].status.Failed?);
    assert (set i | 0 <= i < |rs| && skipped(rs[i].status))
        == (set i | 0 <= i < |rs| && rs[i].status.SkippedDuplicate?);
    assert (set i | 0 <= i < |rs| && missing(rs[i].status)) == (set i | 0 <= i < |rs| && rs[i].status.NotFound?);
    assert (set i | 0 <= i < |rs| && untried(rs[i].status)) == (set i | 0 <= i < |rs| && rs[i].status.NotAttempted?);
  }

  /** Every requested fingerprint is counted exactly once. */
  lemma {:induction false} CountsAddUp(rs: seq<BulkResult>)
    ensures Summarize(rs).Total() == |rs|
  {
    if rs != [] {
      CountsAddUp(Front(rs));
    }
  }

  // ------------------------------------------------------- the dry run and execute agree

  lemma {:induction false} FilterMembers(ms: seq<Message>, contains: string, selected: Option<set<Fingerprint>>)
    ensures forall m :: m in Filter(ms, contains, selected) <==> m in ms && Wanted(m.record, contains, selected)
  {
    if ms != [] {
      FilterMembers(Front(ms), contains, selected);
      assert ms == Front(ms) + [Last(ms)];
    }
  }

  /** A fingerprint hashes the body among others, so equal fingerprints mean equal bodies. */
  ghost predicate Identifying(ms: seq<Message>) {
    forall a, b | a in ms && b in ms && a.Fp() == b.Fp() :: a.record.body == b.record.body
  }

  /** The filters keep all messages of a fingerprint or none. */
  lemma {:induction false} FilterKeepsGroups(ms: seq<Message>, contains: string, selected: Option<set<Fingerprint>>,
                                             m: Message)
    requires forall a | a in ms && a.Fp() == m.Fp() :: a.record.body == m.record.body
    requires Wanted(m.record, contains, selected)
    ensures WithFp(Filter(ms, contains, selected), m.Fp()) == WithFp(ms, m.Fp())
  {
    if ms != [] {
      var front, last, rest := Front(ms), Last(ms), Filter(Front(ms), contains, selected);
      assert ms == front + [last];
      FilterKeepsGroups(front, contains, selected, m);
      if Wanted(last.record, contains, selected) {
        assert Front(rest + [last]) == rest;
      } else {
        assert last.Fp() != m.Fp();
        assert Filter(ms, contains, selected) == rest;
      }
    }
  }

  lemma {:induction false} FilterShrinksGroups(ms: seq<Message>, contains: string, selected: Option<set<Fingerprint>>,
                                               fp: Fingerprint)
    ensures |WithFp(Filter(ms, contains, selected), fp)| <= |WithFp(ms, fp)|
  {
    if ms != [] {
      var rest := Filter(Front(ms), contains, selected);
      FilterShrinksGroups(Front(ms), contains, selected, fp);
      if Wanted(Last(ms).record, contains, selected) {
        assert Front(rest + [Last(ms)]) == rest;
      } else {
        assert Filter(ms, contains, selected) == rest;
      }
    }
  }

  lemma {:induction false} PrefixShrinksGroups(ms: seq<Message>, k: nat, fp: Fingerprint)
    requires k <= |ms|
    ensures |WithFp(ms[..k], fp)| <= |WithFp(ms, fp)|
  {
    if k < |ms| {
      assert Front(ms)[..k] == ms[..k];
      PrefixShrinksGroups(Front(ms), k, fp);
    } else {
      assert ms[..k] == ms;
    }
  }

  /** What the result of a fingerprint is when every publish is confirmed and nothing fails. */
  ghost predicate AsFound(read: seq<Message>, r: BulkResult) {
    match |WithFp(read, r.fingerprint)|
    case 0 => r.status.NotFound?
    case 1 => r.status.Success?
    case _ => r.status.SkippedDuplicate?
  }

  /** Without failures a true report says of each fingerprint what the scan found. */
  lemma TruthfulAsFound(c: ChannelId, action: Action, target: Option<ReplayTarget>, read: seq<Message>, r: BulkResult,
                        done: seq<Event>, tried: seq<Sending>)
    requires Truthful(c, action, target, read, r, done, tried) && !r.status.Failed? && !r.status.NotAttempted?
    ensures AsFound(read, r)
  {
  }

  lemma OneMoreDuplicated(read: seq<Message>, fps: seq<Fingerprint>, fp: Fingerprint)
    requires fp !in fps
    ensures |Duplicated(SetOf(fps + [fp]), read)|
         == |Duplicated(SetOf(fps), read)| + (if |WithFp(read, fp)| > 1 then 1 else 0)
  {
    hide WithFp;
    assert Duplicated(SetOf(fps + [fp]), read)
        == Duplicated(SetOf(fps), read) + (if |WithFp(read, fp)| > 1 then {fp} else {});
  }

  lemma {:induction false} CountsAsFound(read: seq<Message>, fps: seq<Fingerprint>, rs: seq<BulkResult>)
    requires |rs| == |fps| && Increasing(fps)
    requires forall i | 0 <= i < |rs| :: rs[i].fingerprint == fps[i] && AsFound(read, rs[i])
    requires forall fp | fp in fps :: WithFp(read, fp) != []
    ensures Summarize(rs).notFound == Summarize(rs).failed == Summarize(rs).notAttempted == 0
    ensures Summarize(rs).skipped == |Duplicated(SetOf(fps), read)|
  {
    if rs == [] {
      assert Duplicated(SetOf(fps), read) == {};
    } else {
      var front, last := Front(fps), Last(fps);
      assert fps == front + [last];
      CountsAsFound(read, front, Front(rs));
      hide WithFp;
      assert last !in front;
      assert AsFound(read, Last(rs));
      OneMoreDuplicated(read, front, last);
    }
  }

  /**
   Execute does to an unchanged queue what the dry run announced, both having read the same: if
   every publish is confirmed and nothing fails, every approved fingerprint is found, and each
   succeeds or is skipped as a duplicate. The skipped are the duplicates the dry run counted, or,
   if it was trimmed to the head window of a quorum queue, at least those. That both do read the
   same is proved of the two methods, in the module `DryRuns`.
   */
  lemma Agreement(c: ChannelId, action: Action, target: Option<ReplayTarget>, queue: seq<Message>, limit: nat,
                  read: seq<Message>, past: Past, results: seq<BulkResult>,
                  whole: bool, window: nat, contains: string, selected: Option<set<Fingerprint>>)
    requires Identifying(queue) && read == Visible(queue, limit, whole)
    requires Reported(c, action, target, read, past, Sorted(Fps(Picked(read, whole, window, contains, selected))),
                      results)
    requires forall r | r in results :: !r.status.Failed? && !r.status.NotAttempted?
    ensures var picked := Picked(read, whole, window, contains, selected);
            var counts := Summarize(results);
            && counts.notFound == 0
            && counts.succeeded + counts.skipped == |Fps(picked)|
            && counts.skipped >= |Duplicated(Fps(picked), picked)|
            && (!whole || selected.Some? ==> counts.skipped == |Duplicated(Fps(picked), picked)|)
  {
    hide Picked, Fps, WithFp, Reported, Summarize, Duplicated;
    assert Identifying(read) by {
      assert forall m | m in read :: m in queue;
    }
    var picked := Picked(read, whole, window, contains, selected);
    PickedGroups(read, whole, window, contains, selected);
    FoundCounts(c, action, target, read, past, Fps(picked), results);
    DuplicatesSeen(read, picked, Fps(picked));
  }

  /** When everything looked for is there and nothing fails, the counts are those of the scan. */
  lemma FoundCounts(c: ChannelId, action: Action, target: Option<ReplayTarget>, read: seq<Message>, past: Past,
                    fps: set<Fingerprint>, results: seq<BulkResult>)
    requires Reported(c, action, target, read, past, Sorted(fps), results)
    requires forall r | r in results :: !r.status.Failed? && !r.status.NotAttempted?
    requires forall fp | fp in fps :: WithFp(read, fp) != []
    ensures var counts := Summarize(results);
            && counts.notFound == 0 && counts.succeeded + counts.skipped == |fps|
            && counts.skipped == |Duplicated(fps, read)|
  {
    hide WithFp, Reported, Duplicated, Sorted, Summarize;
    var ordered := Sorted(fps);
    FoundResults(c, action, target, read, past, ordered, results);
    CountsAsFound(read, ordered, results);
    CountsAddUp(results);
    assert SetOf(ordered) == fps;
  }

  lemma DuplicatesSeen(read: seq<Message>, picked: seq<Message>, fps: set<Fingerprint>)
    requires forall fp | fp in fps :: |WithFp(picked, fp)| <= |WithFp(read, fp)|
    ensures |Duplicated(fps, picked)| <= |Duplicated(fps, read)|
    ensures (forall fp | fp in fps :: WithFp(picked, fp) == WithFp(read, fp)) ==>
              |Duplicated(fps, picked)| == |Duplicated(fps, read)|
  {
    hide WithFp;
    SmallerSubset(Duplicated(fps, picked), Duplicated(fps, read));
    if forall fp | fp in fps :: WithFp(picked, fp) == WithFp(read, fp) {
      assert Duplicated(fps, picked) == Duplicated(fps, read);
    }
  }

  lemma FoundResults(c: ChannelId, action: Action, target: Option<ReplayTarget>, read: seq<Message>, past: Past,
                     ordered: seq<Fingerprint>, results: seq<BulkResult>)
    requires Reported(c, action, target, read, past, ordered, results)
    requires forall r | r in results :: !r.status.Failed? && !r.status.NotAttempted?
    ensures |results| == |ordered|
    ensures forall i | 0 <= i < |results| :: results[i].fingerprint == ordered[i] && AsFound(read, results[i])
  {
    hide WithFp, On, SentOf, Truthful, AsFound;
    forall i | 0 <= i < |results|
      ensures AsFound(read, results[i])
    {
      assert results[i] in results;
      TruthfulAsFound(c, action, target, read, results[i], On(past.mine, ordered[i]), SentOf(past.sent, ordered[i]));
    }
  }

  /** What the dry run picked is there to be found, in groups at least as large. */
  lemma PickedGroups(read: seq<Message>, whole: bool, window: nat, contains: string, selected: Option<set<Fingerprint>>)
    requires Identifying(read)
    ensures var picked := Picked(read, whole, window, contains, selected);
            && (forall fp | fp in Fps(picked) :: WithFp(read, fp) != [])
            && (forall fp | fp in Fps(picked) :: |WithFp(picked, fp)| <= |WithFp(read, fp)|)
            && (!whole || selected.Some? ==> forall fp | fp in Fps(picked) :: WithFp(picked, fp) == WithFp(read, fp))
  {
    hide Filter, Contains, WithFp;
    var seen := Window(read, whole, window, selected);
    var picked := Picked(read, whole, window, contains, selected);
    FilterMembers(seen, contains, selected);
    forall fp | fp in Fps(picked)
      ensures WithFp(read, fp) != [] && |WithFp(picked, fp)| <= |WithFp(read, fp)|
      ensures !whole || selected.Some? ==> WithFp(picked, fp) == WithFp(read, fp)
    {
      var m :| m in picked && m.Fp() == fp;
      assert m in read;
      WithFpMembers(read, fp);
      FilterShrinksGroups(seen, contains, selected, fp);
      PrefixShrinksGroups(read, |seen|, fp);
      assert read[..|seen|] == seen;
      FilterKeepsGroups(seen, contains, selected, m);
    }
  }
}
