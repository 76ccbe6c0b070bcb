/** Acting on every approved fingerprint: `operate_bulk` of app/infrastructure/rabbitmq/message_operator.py. */
module BulkOperator {
  import opened Records
  import opened Broker
  import opened Session
  import opened QueueOrder
  import opened GrowingQueue
  import opened Browser
  import opened Operator

  datatype Failure =
    | Unroutable                  // came back, and the batch went on
    | NotAcknowledged             // copied to the target, but the ack raised
    | Halted(error: Error)        // the channel broke at this message

  datatype Status = Success | Failed(why: Failure) | SkippedDuplicate | NotFound | NotAttempted

  datatype BulkResult = BulkResult(fingerprint: Fingerprint, status: Status)

  // ------------------------------------------------------------------ sorted(fingerprints)

  predicate IsLeast(x: Fingerprint, s: set<Fingerprint>) { x in s && forall y | y in s :: x <= y }

  function Least(s: set<Fingerprint>): (x: Fingerprint)
    requires s != {}
    ensures IsLeast(x, s)
  {
    LeastExists(s);
    var x :| IsLeast(x, s);
    x
  }

  lemma {:induction false} LeastExists(s: set<Fingerprint>)
    requires s != {}
    ensures exists x :: IsLeast(x, s)
  {
    var a :| a in s;
    var rest := s - {a};
    if rest == {} {
      assert s == {a};
      assert IsLeast(a, s);
    } else {
      LeastExists(rest);
      var b :| IsLeast(b, rest);
      var x := if a <= b then a else b;
      forall y | y in s
        ensures x <= y
      {
        assert y == a || y in rest;
      }
      assert IsLeast(x, s);
    }
  }

  ghost predicate Increasing(s: seq<Fingerprint>) {
    forall i, j | 0 <= i < j < |s| :: s[i] < s[j]
  }

  lemma SortedCons(s: set<Fingerprint>, x: Fingerprint, rest: seq<Fingerprint>)
    requires IsLeast(x, s) && Increasing(rest) && |rest| == |s - {x}| && forall y :: y in rest <==> y in s - {x}
    ensures Increasing([x] + rest) && |[x] + rest| == |s| && forall y :: y in [x] + rest <==> y in s
  {
    assert s == (s - {x}) + {x};
    forall i | 0 <= i < |rest|
      ensures x < rest[i]
    {
      assert rest[i] in rest;
    }
  }

  function Sorted(s: set<Fingerprint>): (r: seq<Fingerprint>)
    ensures Increasing(r) && |r| == |s|
    ensures forall x :: x in r <==> x in s
  {
    if s == {} then [] else
      var x := Least(s);
      SortedCons(s, x, Sorted(s - {x}));
      [x] + Sorted(s - {x})
  }

  // -------------------------------------------------------------- what a result promises

  /** `_halted`: what is reported for the message at which the channel broke. */
  function HaltedStatus(error: Error, published: bool, action: Action): Status {
    if published && action.Copy? then Success
    else if published then Failed(NotAcknowledged)
    else Failed(Halted(error))
  }

  /** What a channel did, and which copies it handed to the broker. */
  datatype Past = Past(mine: seq<Event>, sent: seq<Sending>)

  /**
   A result is true of what was done to its messages, and of the copies that were handed to the broker.
   Success means all of the action was done to the one message found, its copy confirmed for this target;
   a failure that went on, that its copy came back; not_found, skipped and not_attempted that nothing
   was done or tried.
   */
  ghost predicate Truthful(c: ChannelId, action: Action, target: Option<ReplayTarget>, read: seq<Message>,
                           r: BulkResult, done: seq<Event>, tried: seq<Sending>)
  {
    var group := WithFp(read, r.fingerprint);
    match r.status
    case NotFound => group == [] && done == [] && tried == []
    case SkippedDuplicate => |group| > 1 && done == [] && tried == []
    case NotAttempted => done == [] && tried == []
    case Success =>
      |group| == 1 && done == Full(c, action, group[0]) && tried == Sends(action, group[0], target, Confirmed)
    case Failed(Unroutable) =>
      && |group| == 1 && action.Publishes() && done == []
      && tried == Sends(action, group[0], target, Bounced)
    case Failed(NotAcknowledged) =>
      && |group| == 1 && action.Publishes() && action.Removes()
      && (done == [Publish(c, group[0])] || done == Full(c, action, group[0]))
      && tried == Sends(action, group[0], target, Confirmed)
    case Failed(Halted(error)) =>
      && |group| == 1 && done <= Full(c, action, group[0]) && |done| <= 1
      && (error.Uncountable? <==> Unstampable(action, true, group[0])) && (error.Uncountable? || Wire(error))
      && (if error.Uncountable? then done == [] && tried == [] else tried == Sends(action, group[0], target, Lost))
  }

  /** Each approved message got a prefix of the action, and no more than one copy; the rest were left alone. */
  ghost predicate WithinAction(c: ChannelId, action: Action, target: Option<ReplayTarget>, fps: set<Fingerprint>,
                               read: seq<Message>, past: Past)
  {
    forall fp ::
      var g, done, tried := WithFp(read, fp), On(past.mine, fp), SentOf(past.sent, fp);
      if fp in fps && |g| == 1 then done <= Full(c, action, g[0]) && SentRightly(action, g[0], target, tried)
      else done == [] && tried == []
  }

  predicate Handled(s: Status) { s.Success? || s == Failed(Unroutable) }

  /** The events of one result of an unbroken run. */
  function WorkFor(c: ChannelId, action: Action, read: seq<Message>, r: BulkResult): seq<Event> {
    var g := WithFp(read, r.fingerprint);
    if g == [] || !Handled(r.status) then []
    else if r.status.Success? then Middle(c, action, g[0])
    else [Return(c, g[0])]
  }

  function Work(c: ChannelId, action: Action, read: seq<Message>, rs: seq<BulkResult>): seq<Event> {
    if rs == [] then [] else Work(c, action, read, Front(rs)) + WorkFor(c, action, read, Last(rs))
  }

  /** The messages those events settled. */
  function SettledBy(read: seq<Message>, rs: seq<BulkResult>): set<Message> {
    if rs == [] then {}
    else SettledBy(read, Front(rs))
         + (var g := WithFp(read, Last(rs).fingerprint); if g == [] || !Handled(Last(rs).status) then {} else {g[0]})
  }

  /** Every fingerprint seen has its result, in order, and the others were left alone. */
  ghost predicate Reported(c: ChannelId, action: Action, target: Option<ReplayTarget>, read: seq<Message>, past: Past,
                           seen: seq<Fingerprint>, results: seq<BulkResult>)
  {
    && |results| == |seen|
    && (forall i | 0 <= i < |seen| ::
          && results[i].fingerprint == seen[i]
          && Truthful(c, action, target, read, results[i], On(past.mine, seen[i]), SentOf(past.sent, seen[i])))
    && (forall fp | fp !in seen :: On(past.mine, fp) == [] && SentOf(past.sent, fp) == [])
  }

  /** Nothing was done or tried between these but to messages with this fingerprint. */
  ghost predicate Elsewhere(before: Past, after: Past, fp: Fingerprint) {
    forall other | other != fp ::
      On(after.mine, other) == On(before.mine, other) && SentOf(after.sent, other) == SentOf(before.sent, other)
  }

  ghost predicate SamePast(a: Past, b: Past) { SameDeeds(a.mine, b.mine) && a.sent == b.sent }

  ghost predicate NothingTried(past: Past) { past.sent == [] && forall fp :: On(past.mine, fp) == [] }

  lemma ReportOne(c: ChannelId, action: Action, target: Option<ReplayTarget>, read: seq<Message>, before: Past,
                  after: Past, seen: seq<Fingerprint>, results: seq<BulkResult>, result: BulkResult)
    requires Reported(c, action, target, read, before, seen, results) && result.fingerprint !in seen
    requires Elsewhere(before, after, result.fingerprint)
    requires Truthful(c, action, target, read, result, On(after.mine, result.fingerprint),
                      SentOf(after.sent, result.fingerprint))
    ensures Reported(c, action, target, read, after, seen + [result.fingerprint], results + [result])
  {
    hide On, SentOf, Truthful;
  }

  /** The state of the loop of `operate_bulk` after the fingerprints `seen`. */
  ghost predicate Progressed(s: Channel, action: Action, target: Option<ReplayTarget>, fps: set<Fingerprint>,
                             read: seq<Message>, seen: seq<Fingerprint>, results: seq<BulkResult>)
    reads s
  {
    && s.Valid() && s.open && !s.faulted && s.job == Some(Job(action, fps)) && Read(s.mine) == read
    && Reported(s.me, action, target, read, Past(s.mine, s.sent), seen, results)
    && s.settled == SettledBy(read, results)
    && (forall m :: Holds(s.world, s.me, m) <==> m in read && m !in s.settled)
    && s.mine == [Event.Open(s.me, Job(action, fps))] + Delivers(s.me, read) + Work(s.me, action, read, results)
  }

  lemma {:induction false} SettledFps(read: seq<Message>, rs: seq<BulkResult>, seen: seq<Fingerprint>)
    requires |rs| == |seen| && forall i | 0 <= i < |rs| :: rs[i].fingerprint == seen[i]
    ensures forall m | m in SettledBy(read, rs) :: m.Fp() in seen
  {
    if rs != [] {
      SettledFps(read, Front(rs), Front(seen));
      WithFpMembers(read, Last(rs).fingerprint);
      assert seen == Front(seen) + [Last(seen)];
      var g := WithFp(read, Last(rs).fingerprint);
      if g != [] {
        assert g[0] in g;
      }
    }
  }

  /** The loop's `groups`: messages by fingerprint, in read order. */
  method Groups(scanned: seq<Message>) returns (groups: map<Fingerprint, seq<Message>>)
    ensures forall fp :: (if fp in groups then groups[fp] else []) == WithFp(scanned, fp)
  {
    groups := map[];
    for i := 0 to |scanned|
      invariant forall fp :: (if fp in groups then groups[fp] else []) == WithFp(scanned[..i], fp)
    {
      assert scanned[..i + 1] == scanned[..i] + [scanned[i]];
      assert Front(scanned[..i + 1]) == scanned[..i];
      var fp := scanned[i].Fp();
      groups := groups[fp := (if fp in groups then groups[fp] else []) + [scanned[i]]];
    }
    assert scanned[..|scanned|] == scanned;
  }

  lemma SnocWork(c: ChannelId, action: Action, read: seq<Message>, rs: seq<BulkResult>, r: BulkResult)
    ensures Work(c, action, read, rs + [r]) == Work(c, action, read, rs) + WorkFor(c, action, read, r)
    ensures WithFp(read, r.fingerprint) == [] || !Handled(r.status) ==> SettledBy(read, rs + [r]) == SettledBy(read, rs)
    ensures WithFp(read, r.fingerprint) != [] && Handled(r.status) ==>
              SettledBy(read, rs + [r]) == SettledBy(read, rs) + {WithFp(read, r.fingerprint)[0]}
  {
    assert Front(rs + [r]) == rs;
  }

  lemma Unique(read: seq<Message>, fp: Fingerprint, m: Message)
    requires WithFp(read, fp) == [m]
    ensures m in read && m.Fp() == fp
  {
    WithFpMembers(read, fp);
    assert m in [m];
  }

  datatype Flow = Continue | Halt | Abort(error: Error)

  /** The batch did not get to this fingerprint, or broke off at it. */
  predicate Stops(status: Status) {
    match status
    case NotAttempted => true
    case Failed(why) => !why.Unroutable?
    case _ => false
  }

  /** A result at which a batch may have broken off; a copied message may be one, if its requeue raised. */
  predicate Ends(action: Action, status: Status) {
    (Stops(status) && !status.NotAttempted?) || (action.Copy? && status.Success?)
  }

  /** A batch attempts everything up to where it breaks off, and nothing behind. */
  ghost predicate InTurn(action: Action, rs: seq<BulkResult>) {
    forall i | 0 <= i < |rs| ::
      && (rs[i].status.NotAttempted? ==> i > 0 && (rs[i - 1].status.NotAttempted? || Ends(action, rs[i - 1].status)))
      && (i > 0 && Stops(rs[i - 1].status) ==> rs[i].status.NotAttempted?)
  }

  /** The one message with this fingerprint cannot be stamped; every copy a batch makes, but a parked one, is. */
  predicate Hindered(action: Action, read: seq<Message>, fp: Fingerprint) {
    var g := WithFp(read, fp);
    |g| == 1 && Unstampable(action, true, g[0])
  }

  /** The result of a fingerprint the batch gets to while no call fails. */
  function Outcome(action: Action, read: seq<Message>, fp: Fingerprint, tried: seq<Sending>): Status {
    var g := WithFp(read, fp);
    if g == [] then NotFound
    else if |g| > 1 then SkippedDuplicate
    else if Hindered(action, read, fp) then Failed(Halted(Uncountable))
    else if tried != [] && Last(tried).fate.Bounced? then Failed(Unroutable)
    else Success
  }

  /** The results of a batch none of whose calls failed: it attempts all up to the first that is hindered. */
  ghost predicate AsDue(action: Action, read: seq<Message>, sent: seq<Sending>, seen: seq<Fingerprint>,
                        results: seq<BulkResult>)
  {
    && |results| == |seen|
    && forall i | 0 <= i < |seen| ::
         results[i].status == if exists j | 0 <= j < i :: Hindered(action, read, seen[j]) then NotAttempted
                              else Outcome(action, read, seen[i], SentOf(sent, seen[i]))
  }

  /** The message of one fingerprint: act on it, and say how the batch goes on. */
  method Next(s: Channel, action: Action, target: Option<ReplayTarget>, fps: set<Fingerprint>, read: seq<Message>,
              ghost seen: seq<Fingerprint>, ghost results: seq<BulkResult>,
              fp: Fingerprint, group: seq<Message>) returns (result: BulkResult, flow: Flow)
    requires Progressed(s, action, target, fps, read, seen, results)
    requires !action.Browse? && (action.Publishes() ==> target.Some?)
    requires fp in fps && fp !in seen && group == WithFp(read, fp)
    modifies s`world, s`log, s`mine, s`open, s`faulted, s`settled, s`raised, s`sent
    ensures result.fingerprint == fp && s.Valid() && Read(s.mine) == read
    ensures flow.Continue? || !s.faulted ==>
              && Progressed(s, action, target, fps, read, seen + [fp], results + [result])
              && result.status == Outcome(action, read, fp, SentOf(s.sent, fp))
              && (flow.Continue? <==> !Hindered(action, read, fp))
    ensures Elsewhere(old(Past(s.mine, s.sent)), Past(s.mine, s.sent), fp)
    ensures flow.Halt? ==>
              && Truthful(s.me, action, target, read, result, On(s.mine, fp), SentOf(s.sent, fp))
              && Ends(action, result.status)
    ensures flow.Abort? ==>
              && s.faulted && Wire(flow.error) && On(s.mine, fp) == [] && |group| == 1
              && SentOf(s.sent, fp) == Sends(action, group[0], target, Bounced)
    ensures ReportLost(s.raised) <==> old(ReportLost(s.raised)) || flow.Abort?
  {
    hide Legal, Run, Own, Accounted, Read, On, Delivers, WithFp, SettledBy, Work, SameDeeds, Reported, SentOf, Sends;
    if |group| != 1 {
      result := BulkResult(fp, if group == [] then NotFound else SkippedDuplicate);
      assert On(s.mine, fp) == [] && SentOf(s.sent, fp) == [] by {
        Unseen(s, action, target, read, seen, results, fp);
      }
      ReportOne(s.me, action, target, read, Past(s.mine, s.sent), Past(s.mine, s.sent), seen, results, result);
      SnocWork(s.me, action, read, results, result);
      return result, Continue;
    }
    result, flow := NextUnique(s, action, target, fps, read, seen, results, fp, group[0]);
  }

  lemma Unseen(s: Channel, action: Action, target: Option<ReplayTarget>, read: seq<Message>, seen: seq<Fingerprint>,
               results: seq<BulkResult>, fp: Fingerprint)
    requires Reported(s.me, action, target, read, Past(s.mine, s.sent), seen, results) && fp !in seen
    ensures On(s.mine, fp) == [] && SentOf(s.sent, fp) == []
  {
  }

  lemma SentMore(before: seq<Sending>, sent: seq<Sending>, action: Action, m: Message, target: Option<ReplayTarget>,
                 fate: Fate, skipped: bool)
    requires sent == before + (if skipped then [] else Sends(action, m, target, fate))
    ensures SentOf(sent, m.Fp()) == SentOf(before, m.Fp()) + (if skipped then [] else Sends(action, m, target, fate))
    ensures forall fp | fp != m.Fp() :: SentOf(sent, fp) == SentOf(before, fp)
  {
    hide SentOf, Unstampable;
    if action.Publishes() && target.Some? && !skipped {
      SentSnoc(before, Sending(m, target.value, fate));
    } else {
      assert sent == before;
    }
  }

  /** What is reported for the one message found, from how acting on it went. */
  function StatusOf(action: Action, published: bool, acted: Reply<()>): Status {
    if acted.Ok? then Success
    else if acted.error.Undeliverable? then Failed(Unroutable)
    else HaltedStatus(acted.error, published, action)
  }

  lemma ActedTruly(c: ChannelId, action: Action, target: Option<ReplayTarget>, read: seq<Message>, fp: Fingerprint,
                   m: Message, published: bool, acted: Reply<()>, k: nat, done: seq<Event>, tried: seq<Sending>)
    requires WithFp(read, fp) == [m] && !action.Browse? && (action.Publishes() ==> target.Some?)
    requires k <= |Full(c, action, m)| && done == Full(c, action, m)[..k]
    requires (published ==> action.Publishes() && k >= 1) && (!published && acted.Raise? ==> k <= 1)
    requires acted.Ok? ==> k == |Full(c, action, m)| && published == action.Publishes()
    requires acted == Raise(Uncountable) <==> Unstampable(action, true, m)
    requires acted.Raise? && !Wire(acted.error) ==>
               (acted.error.Undeliverable? || acted.error.Uncountable?) && action.Publishes() && !published && k == 0
    requires tried == if Unstampable(action, true, m) then []
                      else Sends(action, m, target,
                                 if published then Confirmed
                                 else if acted == Raise(Undeliverable) then Bounced else Lost)
    ensures var status := StatusOf(action, published, acted);
            && Truthful(c, action, target, read, BulkResult(fp, status), done, tried)
            && (acted.Raise? && !acted.error.Undeliverable? ==> Ends(action, status))
            && (acted.Ok? || !Wire(acted.error) ==> status == Outcome(action, read, fp, tried))
            && (Hindered(action, read, fp) <==> acted == Raise(Uncountable))
  {
    hide WithFp, Unstampable;
  }

  method NextUnique(s: Channel, action: Action, target: Option<ReplayTarget>, fps: set<Fingerprint>, read: seq<Message>,
                    ghost seen: seq<Fingerprint>, ghost results: seq<BulkResult>,
                    fp: Fingerprint, message: Message) returns (result: BulkResult, flow: Flow)
    requires Progressed(s, action, target, fps, read, seen, results)
    requires !action.Browse? && (action.Publishes() ==> target.Some?)
    requires fp in fps && fp !in seen && WithFp(read, fp) == [message]
    modifies s`world, s`log, s`mine, s`open, s`faulted, s`settled, s`raised, s`sent
    ensures result.fingerprint == fp && s.Valid() && Read(s.mine) == read
    ensures flow.Continue? || !s.faulted ==>
              && Progressed(s, action, target, fps, read, seen + [fp], results + [result])
              && result.status == Outcome(action, read, fp, SentOf(s.sent, fp))
              && (flow.Continue? <==> !Hindered(action, read, fp))
    ensures Elsewhere(old(Past(s.mine, s.sent)), Past(s.mine, s.sent), fp)
    ensures flow.Halt? ==>
              && Truthful(s.me, action, target, read, result, On(s.mine, fp), SentOf(s.sent, fp))
              && Ends(action, result.status)
    ensures flow.Abort? ==>
              && s.faulted && Wire(flow.error) && On(s.mine, fp) == []
              && SentOf(s.sent, fp) == Sends(action, message, target, Bounced)
    ensures ReportLost(s.raised) <==> old(ReportLost(s.raised)) || flow.Abort?
  {
    hide Legal, Run, Own, Accounted, Read, On, Delivers, WithFp, SettledBy, Work, Reported, Middle, SentOf, Full, Sends,
      Unstampable, Truthful, Outcome, Hindered, Ends, SameDeeds, Progressed;
    StillUnacted(s, action, target, fps, read, seen, results, fp, message);
    ghost var before, sent := s.mine, s.sent;
    var published, acted;
    ghost var k;
    published, acted, k := ActOn(s, action, message, target, true);
    ghost var fate := if published then Confirmed else if acted == Raise(Undeliverable) then Bounced else Lost;
    result := BulkResult(fp, StatusOf(action, published, acted));
    flow := if acted.Raise? && !acted.error.Undeliverable? then Halt else Continue;
    if acted == Raise(Undeliverable) {
      ghost var acts, raised := s.mine, s.raised;
      var back := s.Nack(message, CameBack);
      StillSame(before + Full(s.me, action, message)[..k], acts, s.mine);
      if back.Raise? {
        LostSnoc(raised, RaisedNack(CameBack, back.error));
        flow := Abort(back.error);
      }
    }
    DeedsOf(before, s.mine, s.me, action, message, k);
    SentMore(sent, s.sent, action, message, target, fate, Unstampable(action, true, message));
    ActedTruly(s.me, action, target, read, fp, message, published, acted, k, On(s.mine, fp), SentOf(s.sent, fp));
    if flow.Continue? || !s.faulted {
      ProgressOne(s, action, target, fps, read, Past(before, sent), seen, results, result);
    }
  }

  /** What the loop knows of the next message, found once, before it acts on it. */
  lemma StillUnacted(s: Channel, action: Action, target: Option<ReplayTarget>, fps: set<Fingerprint>,
                     read: seq<Message>, seen: seq<Fingerprint>, results: seq<BulkResult>, fp: Fingerprint, m: Message)
    requires Progressed(s, action, target, fps, read, seen, results) && fp !in seen && WithFp(read, fp) == [m]
    ensures s.Valid() && s.open && !s.faulted && s.job == Some(Job(action, fps)) && Read(s.mine) == read
    ensures m.Fp() == fp && Holds(s.world, s.me, m) && On(s.mine, fp) == [] && SentOf(s.sent, fp) == []
    ensures s.settled == SettledBy(read, results)
    ensures forall x :: Holds(s.world, s.me, x) <==> x in read && x !in s.settled
    ensures Reported(s.me, action, target, read, Past(s.mine, s.sent), seen, results)
    ensures s.mine == [Event.Open(s.me, Job(action, fps))] + Delivers(s.me, read) + Work(s.me, action, read, results)
  {
    hide Legal, Run, Own, Accounted, Read, On, Delivers, WithFp, SettledBy, Work, SentOf, Reported;
    Unique(read, fp, m);
    ReportedFps(s, action, target, read, seen, results);
    SettledFps(read, results, seen);
    Unseen(s, action, target, read, seen, results, fp);
  }

  /** One more result, on a channel that still works. */
  lemma ProgressOne(s: Channel, action: Action, target: Option<ReplayTarget>, fps: set<Fingerprint>, read: seq<Message>,
                    before: Past, seen: seq<Fingerprint>, results: seq<BulkResult>, result: BulkResult)
    requires s.Valid() && s.open && !s.faulted && s.job == Some(Job(action, fps)) && Read(s.mine) == read
    requires Reported(s.me, action, target, read, before, seen, results) && result.fingerprint !in seen
    requires Elsewhere(before, Past(s.mine, s.sent), result.fingerprint) && WithFp(read, result.fingerprint) != []
    requires Truthful(s.me, action, target, read, result, On(s.mine, result.fingerprint),
                      SentOf(s.sent, result.fingerprint))
    requires s.settled == SettledBy(read, results)
               + (if Handled(result.status) then {WithFp(read, result.fingerprint)[0]} else {})
    requires forall m :: Holds(s.world, s.me, m) <==> m in read && m !in s.settled
    requires s.mine == [Event.Open(s.me, Job(action, fps))] + Delivers(s.me, read) + Work(s.me, action, read, results)
               + WorkFor(s.me, action, read, result)
    ensures Progressed(s, action, target, fps, read, seen + [result.fingerprint], results + [result])
  {
    hide Legal, Run, Own, Accounted, Read, On, Delivers, WithFp, SettledBy, Work, SentOf, Reported, WorkFor, Truthful,
      Elsewhere;
    ReportOne(s.me, action, target, read, before, Past(s.mine, s.sent), seen, results, result);
    SnocWork(s.me, action, read, results, result);
    var base := [Event.Open(s.me, Job(action, fps))] + Delivers(s.me, read);
    assert base + Work(s.me, action, read, results) + WorkFor(s.me, action, read, result)
        == base + Work(s.me, action, read, results + [result]);
  }

  lemma DeedsOf(before: seq<Event>, after: seq<Event>, c: ChannelId, action: Action, m: Message, k: nat)
    requires k <= |Full(c, action, m)| && SameDeeds(before + Full(c, action, m)[..k], after)
    requires On(before, m.Fp()) == []
    ensures Read(after) == Read(before) && On(after, m.Fp()) == Full(c, action, m)[..k]
    ensures forall fp | fp != m.Fp() :: On(after, fp) == On(before, fp)
  {
    hide On, Read, Full;
    StepsDeeds(before, c, action, m, k);
    assert [] + Full(c, action, m)[..k] == Full(c, action, m)[..k];
  }

  lemma ReportedFps(s: Channel, action: Action, target: Option<ReplayTarget>, read: seq<Message>,
                    seen: seq<Fingerprint>, results: seq<BulkResult>)
    requires Reported(s.me, action, target, read, Past(s.mine, s.sent), seen, results)
    ensures |results| == |seen| && forall i | 0 <= i < |results| :: results[i].fingerprint == seen[i]
  {
  }

  function NotAttemptedFrom(fps: seq<Fingerprint>): (rs: seq<BulkResult>)
    ensures |rs| == |fps| && forall i | 0 <= i < |fps| :: rs[i] == BulkResult(fps[i], NotAttempted)
  {
    seq(|fps|, i requires 0 <= i < |fps| => BulkResult(fps[i], NotAttempted))
  }

  /** A batch that breaks off still reports on every fingerprint. */
  lemma ReportRest(c: ChannelId, action: Action, target: Option<ReplayTarget>, read: seq<Message>, past: Past,
                   seen: seq<Fingerprint>, results: seq<BulkResult>, rest: seq<Fingerprint>)
    requires Reported(c, action, target, read, past, seen, results) && Increasing(seen + rest)
    ensures Reported(c, action, target, read, past, seen + rest, results + NotAttemptedFrom(rest))
  {
    hide On, SentOf;
    forall i | |seen| <= i < |seen + rest|
      ensures On(past.mine, (seen + rest)[i]) == [] && SentOf(past.sent, (seen + rest)[i]) == []
    {
      assert forall j | 0 <= j < |seen| :: seen[j] == (seen + rest)[j] < (seen + rest)[i];
    }
  }

  lemma TruthfulWithin(c: ChannelId, action: Action, target: Option<ReplayTarget>, read: seq<Message>, r: BulkResult,
                       done: seq<Event>, tried: seq<Sending>)
    requires Truthful(c, action, target, read, r, done, tried)
    ensures var g := WithFp(read, r.fingerprint);
            if |g| == 1 then done <= Full(c, action, g[0]) && SentRightly(action, g[0], target, tried)
            else done == [] && tried == []
  {
    hide WithFp;
  }

  /** True results mean that every message got a prefix of the action. */
  lemma ReportedWithin(c: ChannelId, action: Action, target: Option<ReplayTarget>, fps: set<Fingerprint>,
                       read: seq<Message>, past: Past, seen: seq<Fingerprint>, results: seq<BulkResult>)
    requires Reported(c, action, target, read, past, seen, results) && forall fp | fp in seen :: fp in fps
    ensures WithinAction(c, action, target, fps, read, past)
  {
    hide On, WithFp, SentOf, Truthful, SentRightly, Full;
    forall fp
      ensures var g, done, tried := WithFp(read, fp), On(past.mine, fp), SentOf(past.sent, fp);
              if fp in fps && |g| == 1 then done <= Full(c, action, g[0]) && SentRightly(action, g[0], target, tried)
              else done == [] && tried == []
    {
      if fp in seen {
        var i :| 0 <= i < |seen| && seen[i] == fp;
        TruthfulWithin(c, action, target, read, results[i], On(past.mine, fp), SentOf(past.sent, fp));
      } else {
        NothingWithin(c, action, target, read, fp, past);
      }
    }
  }

  lemma NothingWithin(c: ChannelId, action: Action, target: Option<ReplayTarget>, read: seq<Message>, fp: Fingerprint,
                      past: Past)
    requires On(past.mine, fp) == [] && SentOf(past.sent, fp) == []
    ensures var g, done, tried := WithFp(read, fp), On(past.mine, fp), SentOf(past.sent, fp);
            |g| == 1 ==> done <= Full(c, action, g[0]) && SentRightly(action, g[0], target, tried)
  {
    hide WithFp, On, SentOf, Full;
    var none: seq<Event> := [];
    assert On(past.mine, fp) == none;
  }

  lemma UntriedWithin(c: ChannelId, action: Action, target: Option<ReplayTarget>, fps: set<Fingerprint>,
                      read: seq<Message>, past: Past)
    requires NothingTried(past)
    ensures WithinAction(c, action, target, fps, read, past)
  {
    hide On, WithFp, SentRightly, Full;
    forall fp {
      NothingWithin(c, action, target, read, fp, past);
    }
  }

  /** Why a batch on an unbroken channel may refuse. */
  predicate BulkRefused(e: Error, action: Action, target: Option<ReplayTarget>, limit: nat, whole: bool,
                        counted: Option<nat>, read: seq<Message>)
  {
    match e
    case UnsafeToBrowse => TooDeep(counted, limit, whole, read)
    case BadTarget => action.Publishes() && !(target.Some? && Usable(target.value))
    case UnsupportedAction => action.Browse? && read == []
    case _ => false
  }

  /** A report on the whole batch. */
  ghost predicate ReportsAll(c: ChannelId, action: Action, target: Option<ReplayTarget>, fps: set<Fingerprint>,
                             read: seq<Message>, past: Past, faulted: bool, results: seq<BulkResult>)
  {
    && Reported(c, action, target, read, past, Sorted(fps), results)
    && InTurn(action, results)
    && (!faulted ==> AsDue(action, read, past.sent, Sorted(fps), results))
  }

  /**
   What `OperateBulk` did and what it says it did. It raises without having acted or tried to, or
   because a requeue raised that ends a batch; and it reports in no such case.
   */
  ghost predicate BulkOperated(s: Channel, fps: set<Fingerprint>, action: Action, target: Option<ReplayTarget>,
                               limit: nat, whole: bool, read: seq<Message>, r: Reply<seq<BulkResult>>)
    reads s
  {
    && Read(s.mine) == read
    && WithinAction(s.me, action, target, fps, read, Past(s.mine, s.sent))
    && (r.Ok? ==>
          && !ReportLost(s.raised)
          && ReportsAll(s.me, action, target, fps, read, Past(s.mine, s.sent), s.faulted, r.value))
    && (r.Raise? ==> ReportLost(s.raised) || NothingTried(Past(s.mine, s.sent)))
    && (!s.faulted && r.Raise? ==>
          NothingTried(Past(s.mine, s.sent)) && BulkRefused(r.error, action, target, limit, whole, s.counted, read))
    && (!s.faulted && !action.Browse? ==>
          s.mine == if r.Ok?
            then RunEvents(s.me, Job(action, fps), read, Work(s.me, action, read, r.value),
                           Kept(read, SettledBy(read, r.value)))
            else RunEvents(s.me, Job(action, fps), read, [], read))
  }

  lemma StillNothing(before: Past, after: Past)
    requires SamePast(before, after) && NothingTried(before)
    ensures Read(after.mine) == Read(before.mine) && NothingTried(after)
  {
    hide Read, On;
  }

  /** The except branch, before any message was acted on. */
  method RefuseBulk(s: Channel, fps: set<Fingerprint>, action: Action, target: Option<ReplayTarget>, limit: nat,
                    whole: bool, held: seq<Message>, error: Error) returns (r: Reply<seq<BulkResult>>)
    requires s.Valid() && Distinct(held) && s.settled == {} && Read(s.mine) == held && !action.Browse?
    requires NothingTried(Past(s.mine, s.sent))
    requires !s.faulted ==>
               && s.open && s.mine == [Event.Open(s.me, Job(action, fps))] + Delivers(s.me, held)
               && (forall m :: Holds(s.world, s.me, m) <==> m in held)
               && BulkRefused(error, action, target, limit, whole, s.counted, held)
    modifies s`world, s`log, s`mine, s`open, s`faulted, s`settled, s`raised
    ensures s.Valid() && !s.open && (!s.faulted ==> !old(s.faulted) && r == Raise(error)) && r.Raise?
    ensures BulkOperated(s, fps, action, target, limit, whole, held, r)
  {
    hide Legal, Run, Own, Accounted, Read, On, WithFp, Delivers, Returns, Kept, Work, SettledBy, NothingTried,
      SameDeeds, WithinAction, BulkRefused;
    ghost var before := Past(s.mine, s.sent);
    var e := Abandon(s, held, error);
    StillNothing(before, Past(s.mine, s.sent));
    UntriedWithin(s.me, action, target, fps, held, Past(s.mine, s.sent));
    KeptAll(held, {});
    assert [] + Returns(s.me, held) == Returns(s.me, held);
    r := Raise(e);
  }

  /** A batch that raises over a message whose copy came back leaves a prefix of the action everywhere. */
  lemma AbortedWithin(c: ChannelId, action: Action, target: Option<ReplayTarget>, fps: set<Fingerprint>,
                      read: seq<Message>, before: Past, after: Past, seen: seq<Fingerprint>, results: seq<BulkResult>,
                      fp: Fingerprint)
    requires Reported(c, action, target, read, before, seen, results) && (forall f | f in seen :: f in fps) && fp in fps
    requires Elsewhere(before, after, fp) && |WithFp(read, fp)| == 1 && On(after.mine, fp) == []
    requires SentOf(after.sent, fp) == Sends(action, WithFp(read, fp)[0], target, Bounced)
    ensures WithinAction(c, action, target, fps, read, after)
  {
    ReportedWithin(c, action, target, fps, read, before, seen, results);
    hide On, WithFp, Reported, SentOf;
    var none: seq<Event> := [];
    assert On(after.mine, fp) == none;
  }

  lemma SameWithin(c: ChannelId, action: Action, target: Option<ReplayTarget>, fps: set<Fingerprint>,
                   read: seq<Message>, before: Past, after: Past)
    requires WithinAction(c, action, target, fps, read, before) && SamePast(before, after)
    ensures WithinAction(c, action, target, fps, read, after) && Read(after.mine) == Read(before.mine)
  {
    hide On, WithFp, SentOf, Read;
  }

  lemma SameReports(c: ChannelId, action: Action, target: Option<ReplayTarget>, fps: set<Fingerprint>,
                    read: seq<Message>, before: Past, after: Past, faulted: bool, results: seq<BulkResult>)
    requires ReportsAll(c, action, target, fps, read, before, faulted, results) && SamePast(before, after)
    ensures ReportsAll(c, action, target, fps, read, after, faulted, results)
    ensures ReportsAll(c, action, target, fps, read, after, true, results)
  {
    hide On, WithFp, SentOf, Sorted, InTurn, AsDue;
  }

  /** After the loop: give back what is left, and report. */
  method ConcludeBulk(s: Channel, fps: set<Fingerprint>, action: Action, target: Option<ReplayTarget>, limit: nat,
                      whole: bool, held: seq<Message>, results: seq<BulkResult>) returns (r: Reply<seq<BulkResult>>)
    requires s.Valid() && Distinct(held) && !action.Browse? && Read(s.mine) == held && !ReportLost(s.raised)
    requires Worked(s, action, target, fps, held, results)
    modifies s`world, s`log, s`mine, s`open, s`faulted, s`settled, s`raised
    ensures s.Valid() && !s.open
    ensures BulkOperated(s, fps, action, target, limit, whole, held, r)
    ensures (r.Raise? <==> ReportLost(s.raised)) && (r.Raise? ==> s.faulted)
  {
    hide Legal, Run, Own, Accounted, Read, On, WithFp, Delivers, Returns, Kept, Work, SettledBy, Reported, WithinAction,
      ReportLost, Sorted, SameDeeds, SentOf, ReportsAll, BulkRefused;
    ghost var before, faulted := Past(s.mine, s.sent), s.faulted;
    ReportsWithin(s.me, action, target, fps, held, before, s.faulted, results);
    var back := RequeueUnprocessed(s, held);
    if back.Raise? {
      SameWithin(s.me, action, target, fps, held, before, Past(s.mine, s.sent));
      r := AbortBulk(s, fps, action, target, limit, whole, held, back.error);
      return;
    }
    ghost var job, work := Job(action, fps), Work(s.me, action, held, results);
    ghost var rest := Kept(held, SettledBy(held, results));
    ghost var mid := Past(s.mine, s.sent);
    SameWithin(s.me, action, target, fps, held, before, mid);
    SameReports(s.me, action, target, fps, held, before, mid, faulted, results);
    s.Close();
    SameWithin(s.me, action, target, fps, held, mid, Past(s.mine, s.sent));
    SameReports(s.me, action, target, fps, held, mid, Past(s.mine, s.sent), s.faulted, results);
    assert [Event.Open(s.me, job)] + Delivers(s.me, held) + work + Returns(s.me, rest)
        == RunEvents(s.me, job, held, work, rest);
    r := Ok(results);
  }

  lemma ReportsWithin(c: ChannelId, action: Action, target: Option<ReplayTarget>, fps: set<Fingerprint>,
                      read: seq<Message>, past: Past, faulted: bool, results: seq<BulkResult>)
    requires ReportsAll(c, action, target, fps, read, past, faulted, results)
    ensures WithinAction(c, action, target, fps, read, past)
  {
    hide On, WithFp, SentOf, Reported, InTurn, AsDue;
    ReportedWithin(c, action, target, fps, read, past, Sorted(fps), results);
  }

  /** A batch that raises because a requeue did. */
  method AbortBulk(s: Channel, fps: set<Fingerprint>, action: Action, target: Option<ReplayTarget>, limit: nat,
                   whole: bool, held: seq<Message>, error: Error) returns (r: Reply<seq<BulkResult>>)
    requires s.Valid() && Distinct(held) && s.faulted && Read(s.mine) == held && ReportLost(s.raised)
    requires WithinAction(s.me, action, target, fps, held, Past(s.mine, s.sent))
    modifies s`world, s`log, s`mine, s`open, s`faulted, s`settled, s`raised
    ensures s.Valid() && !s.open && r.Raise? && s.faulted && ReportLost(s.raised)
    ensures BulkOperated(s, fps, action, target, limit, whole, held, r)
  {
    hide Legal, Run, Own, Accounted, Read, On, WithFp, Delivers, Returns, Kept, Work, SettledBy, Reported, WithinAction,
      SameDeeds, ReportLost;
    ghost var before := Past(s.mine, s.sent);
    var e := Abandon(s, held, error);
    SameWithin(s.me, action, target, fps, held, before, Past(s.mine, s.sent));
    r := Raise(e);
  }

  /** The report of a batch that ends early: the fingerprints not reached are not attempted. */
  lemma ReportHalt(c: ChannelId, action: Action, target: Option<ReplayTarget>, read: seq<Message>, before: Past,
                   after: Past, ordered: seq<Fingerprint>, position: nat, results: seq<BulkResult>, result: BulkResult)
    requires position < |ordered| && Increasing(ordered) && result.fingerprint == ordered[position]
    requires Reported(c, action, target, read, before, ordered[..position], results)
    requires Elsewhere(before, after, result.fingerprint)
    requires Truthful(c, action, target, read, result, On(after.mine, result.fingerprint),
                      SentOf(after.sent, result.fingerprint))
    ensures Reported(c, action, target, read, after, ordered,
                     results + [result] + NotAttemptedFrom(ordered[position + 1..]))
  {
    hide On, SentOf, Truthful, Reported;
    var seen, later := ordered[..position], ordered[position + 1..];
    assert ordered[position] !in seen;
    ReportOne(c, action, target, read, before, after, seen, results, result);
    assert seen + [result.fingerprint] == ordered[..position + 1] && ordered[..position + 1] + later == ordered;
    ReportRest(c, action, target, read, after, ordered[..position + 1], results + [result], later);
  }

  lemma SnocNotAttempted(c: ChannelId, action: Action, read: seq<Message>, rs: seq<BulkResult>, fp: Fingerprint)
    ensures Work(c, action, read, rs + [BulkResult(fp, NotAttempted)]) == Work(c, action, read, rs)
    ensures SettledBy(read, rs + [BulkResult(fp, NotAttempted)]) == SettledBy(read, rs)
  {
    hide Work, SettledBy, WithFp;
    SnocWork(c, action, read, rs, BulkResult(fp, NotAttempted));
    assert Work(c, action, read, rs) + [] == Work(c, action, read, rs);
  }

  /** What is not attempted is no work and settles nothing. */
  lemma {:induction false} NotAttemptedIsNoWork(c: ChannelId, action: Action, read: seq<Message>, rs: seq<BulkResult>,
                                                rest: seq<Fingerprint>)
    ensures Work(c, action, read, rs + NotAttemptedFrom(rest)) == Work(c, action, read, rs)
    ensures SettledBy(read, rs + NotAttemptedFrom(rest)) == SettledBy(read, rs)
  {
    hide Work, SettledBy;
    if rest == [] {
      assert rs + NotAttemptedFrom(rest) == rs;
    } else {
      NotAttemptedIsNoWork(c, action, read, rs, Front(rest));
      SnocNotAttempted(c, action, read, rs + NotAttemptedFrom(Front(rest)), Last(rest));
      assert rs + NotAttemptedFrom(rest)
          == rs + NotAttemptedFrom(Front(rest)) + [BulkResult(Last(rest), NotAttempted)];
    }
  }

  /** A batch that breaks off on an unbroken channel has come as far as its report says. */
  lemma HaltedProgress(s: Channel, action: Action, target: Option<ReplayTarget>, fps: set<Fingerprint>,
                       read: seq<Message>, seen: seq<Fingerprint>, results: seq<BulkResult>, rest: seq<Fingerprint>)
    requires Progressed(s, action, target, fps, read, seen, results) && Increasing(seen + rest)
    ensures Progressed(s, action, target, fps, read, seen + rest, results + NotAttemptedFrom(rest))
  {
    hide Legal, Run, Own, Accounted, Read, On, Work, SettledBy, Reported, Delivers;
    ReportRest(s.me, action, target, read, Past(s.mine, s.sent), seen, results, rest);
    NotAttemptedIsNoWork(s.me, action, read, results, rest);
  }

  /** None of these is hindered, and each has the result it is due. */
  ghost predicate Smooth(action: Action, read: seq<Message>, sent: seq<Sending>, seen: seq<Fingerprint>,
                         results: seq<BulkResult>)
  {
    && |results| == |seen|
    && forall i | 0 <= i < |seen| ::
         !Hindered(action, read, seen[i]) && results[i].status == Outcome(action, read, seen[i], SentOf(sent, seen[i]))
  }

  lemma SmoothSnoc(action: Action, read: seq<Message>, before: seq<Sending>, sent: seq<Sending>,
                   seen: seq<Fingerprint>, results: seq<BulkResult>, fp: Fingerprint, r: BulkResult)
    requires Smooth(action, read, before, seen, results) && fp !in seen
    requires !Hindered(action, read, fp) && r.status == Outcome(action, read, fp, SentOf(sent, fp))
    requires forall other | other != fp :: SentOf(sent, other) == SentOf(before, other)
    ensures Smooth(action, read, sent, seen + [fp], results + [r])
  {
    hide Hindered, Outcome, SentOf;
    assert forall i | 0 <= i < |seen| :: seen[i] != fp;
  }

  /** As long as it goes on, the batch attempts everything. */
  lemma SmoothInTurn(action: Action, read: seq<Message>, sent: seq<Sending>, seen: seq<Fingerprint>,
                     results: seq<BulkResult>)
    requires Smooth(action, read, sent, seen, results)
    ensures forall r | r in results :: !Stops(r.status)
    ensures InTurn(action, results) && AsDue(action, read, sent, seen, results)
  {
    hide WithFp, SentOf, Unstampable;
  }

  lemma BrokenInTurn(action: Action, results: seq<BulkResult>, result: BulkResult, rest: seq<Fingerprint>)
    requires (forall r | r in results :: !Stops(r.status)) && Ends(action, result.status)
    ensures InTurn(action, results + [result] + NotAttemptedFrom(rest))
  {
    var all := results + [result] + NotAttemptedFrom(rest);
    assert forall i | 0 <= i < |results| :: all[i] == results[i] && results[i] in results;
  }

  /** A batch that breaks off on an unbroken channel does so at the first message it cannot stamp. */
  lemma BrokenAsDue(action: Action, read: seq<Message>, sent: seq<Sending>, ordered: seq<Fingerprint>, position: nat,
                    results: seq<BulkResult>, result: BulkResult)
    requires position < |ordered| && Smooth(action, read, sent, ordered[..position], results)
    requires Hindered(action, read, ordered[position])
    requires result.status == Outcome(action, read, ordered[position], SentOf(sent, ordered[position]))
    ensures AsDue(action, read, sent, ordered, results + [result] + NotAttemptedFrom(ordered[position + 1..]))
  {
    hide Hindered, Outcome, SentOf;
    assert forall i | 0 <= i < position :: ordered[..position][i] == ordered[i];
  }

  /** The batch did not attempt everything. */
  ghost predicate BrokeOff(results: seq<BulkResult>) { exists r | r in results :: Stops(r.status) }

  ghost predicate AnyHindered(action: Action, read: seq<Message>, fps: set<Fingerprint>) {
    exists fp | fp in fps :: Hindered(action, read, fp)
  }

  /** A batch none of whose calls failed broke off exactly if an approved message could not be stamped. */
  lemma BreaksOffExactly(action: Action, read: seq<Message>, sent: seq<Sending>, fps: set<Fingerprint>,
                         results: seq<BulkResult>)
    requires AsDue(action, read, sent, Sorted(fps), results)
    ensures BrokeOff(results) <==> AnyHindered(action, read, fps)
  {
    var ordered := Sorted(fps);
    assert |results| == |ordered|;
    hide Sorted, AsDue, Stops, Hindered;
    forall i | 0 <= i < |results|
      ensures Stops(results[i].status) <==> exists j | 0 <= j <= i :: Hindered(action, read, ordered[j])
    {
      DueStops(action, read, sent, ordered, results, i);
    }
    if BrokeOff(results) {
      var r :| r in results && Stops(r.status);
      var i :| 0 <= i < |results| && results[i] == r;
      var j :| 0 <= j <= i && Hindered(action, read, ordered[j]);
      assert ordered[j] in ordered;
    }
    if AnyHindered(action, read, fps) {
      var fp :| fp in fps && Hindered(action, read, fp);
      assert fp in ordered;
      var i :| 0 <= i < |ordered| && ordered[i] == fp;
      assert results[i] in results && Stops(results[i].status);
    }
  }

  lemma DueStops(action: Action, read: seq<Message>, sent: seq<Sending>, seen: seq<Fingerprint>,
                 results: seq<BulkResult>, i: nat)
    requires AsDue(action, read, sent, seen, results) && i < |seen|
    ensures Stops(results[i].status) <==> exists j | 0 <= j <= i :: Hindered(action, read, seen[j])
    ensures |results| == |seen|
  {
    hide WithFp, SentOf, Unstampable;
  }

  lemma {:induction false} SentOfMembers(sent: seq<Sending>, fp: Fingerprint)
    ensures forall x | x in SentOf(sent, fp) :: x in sent && x.m.Fp() == fp
  {
    if sent != [] {
      SentOfMembers(Front(sent), fp);
      assert sent == Front(sent) + [Last(sent)];
    }
  }

  /** A batch none of whose calls failed, copies came back or counts were unreadable: nothing failed in it. */
  lemma NothingFailed(c: ChannelId, action: Action, target: Option<ReplayTarget>, fps: set<Fingerprint>,
                      read: seq<Message>, past: Past, results: seq<BulkResult>)
    requires ReportsAll(c, action, target, fps, read, past, false, results) && !AnyHindered(action, read, fps)
    requires forall x | x in past.sent :: !x.fate.Bounced?
    ensures forall r | r in results :: !r.status.Failed? && !r.status.NotAttempted?
  {
    hide WithFp, SentOf, Sorted, InTurn, Hindered, Reported;
    forall i | 0 <= i < |results|
      ensures !results[i].status.Failed? && !results[i].status.NotAttempted?
    {
      assert forall j | 0 <= j <= i :: Sorted(fps)[j] in Sorted(fps);
      SentOfMembers(past.sent, Sorted(fps)[i]);
    }
  }

  /**
   Found once, in a batch none of whose calls failed and which need not stamp what it cannot count: it
   fails exactly if its copy came back, and succeeds otherwise.
   */
  lemma HandledOnce(c: ChannelId, action: Action, target: Option<ReplayTarget>, read: seq<Message>, past: Past,
                    fps: set<Fingerprint>, results: seq<BulkResult>, i: nat)
    requires ReportsAll(c, action, target, fps, read, past, false, results)
    requires action.Publishes() ==> !AnyHindered(action, read, fps)
    requires i < |results| && |WithFp(read, results[i].fingerprint)| == 1
    ensures var m, tried := WithFp(read, results[i].fingerprint)[0], SentOf(past.sent, results[i].fingerprint);
            if action.Publishes() && target.Some? && tried == [Sending(m, target.value, Bounced)]
            then results[i].status == Failed(Unroutable)
            else && results[i].status.Success?
                 && tried == (if action.Publishes() && target.Some? then [Sending(m, target.value, Confirmed)] else [])
                 && On(past.mine, results[i].fingerprint) == Full(c, action, m)
  {
    hide WithFp, SentOf, Sorted, On, InTurn, Full;
    var fp := Sorted(fps)[i];
    assert !action.Publishes() ==> forall f :: !Hindered(action, read, f);
    hide Hindered;
    assert forall j | 0 <= j <= i :: Sorted(fps)[j] in Sorted(fps);
    assert Truthful(c, action, target, read, results[i], On(past.mine, fp), SentOf(past.sent, fp));
  }

  /** What holds after the loop, unless it aborts. */
  ghost predicate Worked(s: Channel, action: Action, target: Option<ReplayTarget>, fps: set<Fingerprint>,
                         read: seq<Message>, results: seq<BulkResult>)
    reads s
  {
    && ReportsAll(s.me, action, target, fps, read, Past(s.mine, s.sent), s.faulted, results)
    && (!s.faulted ==> Progressed(s, action, target, fps, read, Sorted(fps), results))
  }

  lemma WorkedUntil(s: Channel, action: Action, target: Option<ReplayTarget>, fps: set<Fingerprint>,
                    read: seq<Message>, before: Past, position: nat, results: seq<BulkResult>, result: BulkResult)
    requires position < |Sorted(fps)| && result.fingerprint == Sorted(fps)[position]
    requires Reported(s.me, action, target, read, before, Sorted(fps)[..position], results)
    requires Smooth(action, read, before.sent, Sorted(fps)[..position], results)
    requires Elsewhere(before, Past(s.mine, s.sent), result.fingerprint) && Ends(action, result.status)
    requires Truthful(s.me, action, target, read, result, On(s.mine, result.fingerprint),
                      SentOf(s.sent, result.fingerprint))
    requires !s.faulted ==>
               && Progressed(s, action, target, fps, read, Sorted(fps)[..position] + [result.fingerprint],
                             results + [result])
               && result.status == Outcome(action, read, result.fingerprint, SentOf(s.sent, result.fingerprint))
               && Hindered(action, read, result.fingerprint)
    ensures Worked(s, action, target, fps, read, results + [result] + NotAttemptedFrom(Sorted(fps)[position + 1..]))
  {
    hide Legal, Run, Own, Accounted, Read, On, SentOf, Work, SettledBy, Reported, Delivers, Truthful, Stops, Hindered,
      Progressed, Increasing, Sorted, Smooth, AsDue, InTurn, Outcome, Ends;
    var ordered, past := Sorted(fps), Past(s.mine, s.sent);
    var later := ordered[position + 1..];
    ReportHalt(s.me, action, target, read, before, past, ordered, position, results, result);
    SmoothInTurn(action, read, before.sent, ordered[..position], results);
    BrokenInTurn(action, results, result, later);
    if !s.faulted {
      assert ordered[..position] + [result.fingerprint] + later == ordered;
      HaltedProgress(s, action, target, fps, read, ordered[..position] + [result.fingerprint], results + [result],
                     later);
      NewOne(ordered, position);
      StaysSmooth(action, read, before.sent, s.sent, ordered[..position], results, result.fingerprint);
      BrokenAsDue(action, read, s.sent, ordered, position, results, result);
    }
  }

  lemma StaysSmooth(action: Action, read: seq<Message>, before: seq<Sending>, sent: seq<Sending>,
                    seen: seq<Fingerprint>, results: seq<BulkResult>, fp: Fingerprint)
    requires Smooth(action, read, before, seen, results) && fp !in seen
    requires forall other | other != fp :: SentOf(sent, other) == SentOf(before, other)
    ensures Smooth(action, read, sent, seen, results)
  {
    hide Hindered, Outcome, SentOf;
    assert forall i | 0 <= i < |seen| :: seen[i] != fp;
  }

  lemma NewOne(ordered: seq<Fingerprint>, position: nat)
    requires position < |ordered| && Increasing(ordered)
    ensures ordered[position] !in ordered[..position] && forall f | f in ordered[..position] :: f in ordered
    ensures ordered[..position + 1] == ordered[..position] + [ordered[position]]
  {
  }

  lemma ProgressReported(s: Channel, action: Action, target: Option<ReplayTarget>, fps: set<Fingerprint>,
                         read: seq<Message>, seen: seq<Fingerprint>, results: seq<BulkResult>)
    requires Progressed(s, action, target, fps, read, seen, results)
    ensures s.Valid() && Read(s.mine) == read
    ensures Reported(s.me, action, target, read, Past(s.mine, s.sent), seen, results)
  {
  }

  /** The loop below has come as far as this position. */
  ghost predicate Working(s: Channel, action: Action, target: Option<ReplayTarget>, fps: set<Fingerprint>,
                          read: seq<Message>, position: nat, results: seq<BulkResult>)
    reads s
  {
    && position <= |Sorted(fps)| && !ReportLost(s.raised)
    && Progressed(s, action, target, fps, read, Sorted(fps)[..position], results)
    && Smooth(action, read, s.sent, Sorted(fps)[..position], results)
  }

  lemma WorkedToTheEnd(s: Channel, action: Action, target: Option<ReplayTarget>, fps: set<Fingerprint>,
                       read: seq<Message>, results: seq<BulkResult>)
    requires Working(s, action, target, fps, read, |Sorted(fps)|, results)
    ensures s.Valid() && Read(s.mine) == read && !ReportLost(s.raised) && Worked(s, action, target, fps, read, results)
  {
    hide Legal, Run, Own, Accounted, Read, On, Work, SettledBy, Reported, Delivers, Smooth, Sorted, ReportLost, InTurn,
      AsDue;
    assert Sorted(fps)[..|Sorted(fps)|] == Sorted(fps);
    SmoothInTurn(action, read, s.sent, Sorted(fps), results);
  }

  /** One turn of it. */
  method WorkOn(s: Channel, fps: set<Fingerprint>, action: Action, target: Option<ReplayTarget>, held: seq<Message>,
                position: nat, group: seq<Message>, ghost results: seq<BulkResult>)
    returns (result: BulkResult, flow: Flow)
    requires !action.Browse? && (action.Publishes() ==> target.Some?)
    requires Working(s, action, target, fps, held, position, results)
    requires position < |Sorted(fps)| && group == WithFp(held, Sorted(fps)[position])
    modifies s`world, s`log, s`mine, s`open, s`faulted, s`settled, s`raised, s`sent
    ensures s.Valid() && Read(s.mine) == held && (ReportLost(s.raised) <==> flow.Abort?)
    ensures flow.Continue? ==> Working(s, action, target, fps, held, position + 1, results + [result])
    ensures flow.Abort? ==> s.faulted && WithinAction(s.me, action, target, fps, held, Past(s.mine, s.sent))
    ensures flow.Halt? ==>
              Worked(s, action, target, fps, held, results + [result] + NotAttemptedFrom(Sorted(fps)[position + 1..]))
  {
    hide Legal, Run, Own, Accounted, Read, On, WithFp, Delivers, Work, SettledBy, Reported, WithinAction, Truthful,
      SameDeeds, ReportLost, Hindered, Stops, Ends, Outcome, Smooth, Worked, Progressed, Increasing, Sorted, SentOf,
      Sends;
    var ordered := Sorted(fps);
    var fp := ordered[position];
    ghost var seen, before := ordered[..position], Past(s.mine, s.sent);
    ProgressReported(s, action, target, fps, held, seen, results);
    NewOne(ordered, position);
    result, flow := Next(s, action, target, fps, held, seen, results, fp, group);
    if flow.Abort? {
      AbortedWithin(s.me, action, target, fps, held, before, Past(s.mine, s.sent), seen, results, fp);
    } else if flow.Halt? {
      WorkedUntil(s, action, target, fps, held, before, position, results, result);
    } else {
      SmoothSnoc(action, held, before.sent, s.sent, seen, results, fp, result);
    }
  }

  /** The loop over the approved fingerprints. */
  method WorkThrough(s: Channel, fps: set<Fingerprint>, action: Action, target: Option<ReplayTarget>,
                     held: seq<Message>)
    returns (results: seq<BulkResult>, aborted: Option<Error>)
    requires !action.Browse? && (action.Publishes() ==> target.Some?) && !ReportLost(s.raised)
    requires Progressed(s, action, target, fps, held, [], [])
    modifies s`world, s`log, s`mine, s`open, s`faulted, s`settled, s`raised, s`sent
    ensures s.Valid() && Read(s.mine) == held && (ReportLost(s.raised) <==> aborted.Some?)
    ensures aborted.Some? ==> s.faulted && WithinAction(s.me, action, target, fps, held, Past(s.mine, s.sent))
    ensures aborted.None? ==> Worked(s, action, target, fps, held, results)
  {
    var groups := Groups(held);
    var ordered := Sorted(fps);
    results := [];
    assert Sorted(fps)[..0] == [];
    hide Legal, Run, Own, Accounted, Read, On, WithFp, Reported, WithinAction, ReportLost, Worked, Progressed, Sorted;
    assert Working(s, action, target, fps, held, 0, results);
    hide Working;
    for position := 0 to |ordered|
      invariant Working(s, action, target, fps, held, position, results)
    {
      var fp := ordered[position];
      var group := if fp in groups then groups[fp] else [];
      var result, flow := WorkOn(s, fps, action, target, held, position, group, results);
      if flow.Abort? {
        return results, Some(flow.error);
      }
      results := results + [result];
      if flow.Halt? {
        return results + NotAttemptedFrom(ordered[position + 1..]), None;
      }
    }
    WorkedToTheEnd(s, action, target, fps, held, results);
    aborted := None;
  }

  lemma BrowseRefused(s: Channel, fps: set<Fingerprint>, action: Action, target: Option<ReplayTarget>, limit: nat,
                      whole: bool)
    requires action.Browse? && s.mine == [] && s.sent == []
    ensures BulkOperated(s, fps, action, target, limit, whole, [], Raise(UnsupportedAction))
  {
    NothingOn();
    hide On, WithFp, Full;
    UntriedWithin(s.me, action, target, fps, [], Past(s.mine, s.sent));
  }

  lemma ReadyToWork(s: Channel, action: Action, target: Option<ReplayTarget>, fps: set<Fingerprint>, read: seq<Message>)
    requires s.Valid() && s.open && !s.faulted && s.job == Some(Job(action, fps)) && s.settled == {}
    requires Read(s.mine) == read && NothingTried(Past(s.mine, s.sent))
    requires forall m :: Holds(s.world, s.me, m) <==> m in read
    requires s.mine == [Event.Open(s.me, Job(action, fps))] + Delivers(s.me, read)
    ensures Progressed(s, action, target, fps, read, [], [])
  {
    hide Legal, Run, Own, Accounted, Read, On, Delivers;
  }

  /** What follows once the messages are read and the target is there. */
  method WorkAndReport(s: Channel, fps: set<Fingerprint>, action: Action, target: Option<ReplayTarget>, limit: nat,
                       whole: bool, held: seq<Message>) returns (r: Reply<seq<BulkResult>>)
    requires !action.Browse? && (action.Publishes() ==> target.Some?) && Distinct(held) && s.raised == []
    requires s.Valid() && s.open && !s.faulted && s.job == Some(Job(action, fps)) && s.settled == {}
    requires Read(s.mine) == held && NothingTried(Past(s.mine, s.sent))
    requires forall m :: Holds(s.world, s.me, m) <==> m in held
    requires s.mine == [Event.Open(s.me, Job(action, fps))] + Delivers(s.me, held)
    modifies s`world, s`log, s`mine, s`open, s`faulted, s`settled, s`raised, s`sent
    ensures s.Valid() && !s.open
    ensures BulkOperated(s, fps, action, target, limit, whole, held, r)
    ensures !s.faulted ==> r.Ok?
  {
    assert !ReportLost([]);
    hide Legal, Run, Own, Accounted, Read, On, WithFp, Delivers, Returns, Kept, WithinAction, Distinct, BulkOperated,
      ReportLost, Progressed, Worked, SameDeeds, Sorted, NothingTried;
    ReadyToWork(s, action, target, fps, held);
    var results, aborted := WorkThrough(s, fps, action, target, held);
    if aborted.Some? {
      r := AbortBulk(s, fps, action, target, limit, whole, held, aborted.value);
    } else {
      r := ConcludeBulk(s, fps, action, target, limit, whole, held, results);
    }
  }

  /** What the batch does with what it read, or could not read. */
  method ActOnRead(s: Channel, fps: set<Fingerprint>, action: Action, target: Option<ReplayTarget>, limit: nat,
                   whole: bool, held: seq<Message>, unread: Option<Error>) returns (r: Reply<seq<BulkResult>>)
    requires !action.Browse? && s.Valid() && Distinct(held) && s.job == Some(Job(action, fps))
    requires s.settled == {} && s.raised == [] && Read(s.mine) == held && NothingTried(Past(s.mine, s.sent))
    requires s.open ==> forall m :: Holds(s.world, s.me, m) <==> m in held
    requires !s.faulted ==> s.open && s.mine == [Event.Open(s.me, Job(action, fps))] + Delivers(s.me, held)
    requires unread.None? ==> !s.faulted
    requires unread.Some? && !s.faulted ==>
               && unread.value.UnsafeToBrowse?
               && BulkRefused(UnsafeToBrowse, action, target, limit, whole, s.counted, held)
    modifies s`world, s`log, s`mine, s`open, s`faulted, s`settled, s`raised, s`sent
    ensures s.Valid() && !s.open && (!s.faulted ==> !old(s.faulted))
    ensures BulkOperated(s, fps, action, target, limit, whole, held, r)
    ensures r.Ok? ==> unread.None?
    ensures !s.faulted ==> (r == Raise(UnsafeToBrowse) <==> unread.Some?)
  {
    hide Legal, Run, Own, Accounted, Read, On, WithFp, Delivers, Returns, Kept, WithinAction, Distinct, BulkOperated,
      ReportLost, SameDeeds, NothingTried, Usable;
    if unread.Some? {
      r := RefuseBulk(s, fps, action, target, limit, whole, held, unread.value);
      return;
    }
    if action.Publishes() {
      ghost var before := Past(s.mine, s.sent);
      var ensured := EnsureTarget(s, target);
      StillNothing(before, Past(s.mine, s.sent));
      if ensured.Raise? {
        r := RefuseBulk(s, fps, action, target, limit, whole, held, ensured.error);
        return;
      }
    }
    r := WorkAndReport(s, fps, action, target, limit, whole, held);
  }

  method OperateBulkSteps(s: Channel, fps: set<Fingerprint>, action: Action, target: Option<ReplayTarget>,
                          limit: nat, whole: bool) returns (read: seq<Message>, r: Reply<seq<BulkResult>>)
    requires s.Fresh()
    modifies s
    ensures s.Valid() && !s.open
    ensures BulkOperated(s, fps, action, target, limit, whole, read, r) && (r.Ok? ==> !action.Browse?)
    ensures s.quiet && !s.faulted && r.Ok? ==> read == Visible(s.start.ready, limit, whole)
    ensures s.quiet && !s.faulted && whole ==> read == [] || read == s.start.ready
    ensures s.quiet && !s.faulted && !action.Browse? ==>
              (r == Raise(UnsafeToBrowse)
               <==> if whole then |s.start.ready| > limit else limit == 0 && s.start.ready != [])
    ensures action.Browse? ==> read == [] && s.mine == []
  {
    hide Legal, Run, Own, Accounted, Read, On, WithFp, Delivers, Returns, Kept, WithinAction, Distinct, BulkOperated,
      Visible, ReportLost, SeesAlone, StopsRightly;
    if action.Browse? {
      BrowseRefused(s, fps, action, target, limit, whole);
      return [], Raise(UnsupportedAction);
    }
    var ready, fetched;
    read, ready, fetched := ReadQueue(s, action, fps, limit, whole, None);
    BulkRefusesDeep(s, fetched, limit, whole, ready, read, action, target);
    var unread := if fetched.Raise? then Some(fetched.error) else None;
    r := ActOnRead(s, fps, action, target, limit, whole, read, unread);
  }

  lemma BulkRefusesDeep(s: Channel, fetched: Reply<Option<Stop>>, limit: nat, whole: bool, ready: nat,
                        read: seq<Message>, action: Action, target: Option<ReplayTarget>)
    requires StopsRightly(read, fetched, limit, whole, None, ready) && (!s.faulted ==> s.counted == Some(ready))
    ensures !s.faulted && fetched == Raise(UnsafeToBrowse) ==>
              BulkRefused(UnsafeToBrowse, action, target, limit, whole, s.counted, read)
    ensures SeesAlone(s.start.ready, s.counted, limit, whole, read, fetched.Raise?) ==>
              (fetched.Raise? <==> if whole then |s.start.ready| > limit else limit == 0 && s.start.ready != [])
  {
  }

  /** The messages a batch gave back itself, in fingerprint order: copied ones and unroutable ones. */
  function GivenBack(action: Action, read: seq<Message>, rs: seq<BulkResult>): seq<Message> {
    if rs == [] then []
    else GivenBack(action, read, Front(rs))
         + (var g := WithFp(read, Last(rs).fingerprint);
            if g != [] && (Last(rs).status == Failed(Unroutable) || (Last(rs).status.Success? && action.Copy?))
            then [g[0]] else [])
  }

  /** The messages a batch took off the queue. */
  function Removed(action: Action, read: seq<Message>, rs: seq<BulkResult>): set<Message> {
    if rs == [] then {}
    else Removed(action, read, Front(rs))
         + (var g := WithFp(read, Last(rs).fingerprint);
            if g != [] && Last(rs).status.Success? && action.Removes() then {g[0]} else {})
  }

  lemma WorkForOrder(c: ChannelId, action: Action, read: seq<Message>, r: BulkResult)
    requires !action.Browse?
    ensures var g, work := WithFp(read, r.fingerprint), WorkFor(c, action, read, r);
            && Settling(work)
            && ReturnedBy(work) ==
                 (if g != [] && (r.status == Failed(Unroutable) || (r.status.Success? && action.Copy?))
                  then [g[0]] else [])
            && AckedBy(work) == (if g != [] && r.status.Success? && action.Removes() then {g[0]} else {})
  {
    var g := WithFp(read, r.fingerprint);
    if g != [] && r.status.Success? {
      MiddleOrder(c, action, g[0]);
    } else if g != [] && Handled(r.status) {
      var back := [Return(c, g[0])];
      assert Front(back) == [];
      assert WorkFor(c, action, read, r) == back;
    }
  }

  lemma {:induction false} WorkOrder(c: ChannelId, action: Action, read: seq<Message>, rs: seq<BulkResult>)
    requires !action.Browse?
    ensures Settling(Work(c, action, read, rs))
    ensures ReturnedBy(Work(c, action, read, rs)) == GivenBack(action, read, rs)
    ensures AckedBy(Work(c, action, read, rs)) == Removed(action, read, rs)
  {
    if rs != [] {
      hide WorkFor, WithFp, Handled;
      var work, last := Work(c, action, read, Front(rs)), WorkFor(c, action, read, Last(rs));
      WorkOrder(c, action, read, Front(rs));
      WorkForOrder(c, action, read, Last(rs));
      ReturnedByConcat(work, last);
      AckedByConcat(work, last);
    }
  }

  /**
   Act on every approved fingerprint, whatever else happens and whatever fails.

   When it returns there is exactly one result per approved fingerprint, in sorted order,
   and each is true: success means confirmed at this target and, but for a copy, gone from
   the source; not_found, skipped_duplicate and not_attempted mean never published, never
   acked. If no call failed each fingerprint has the result it is due: one found once succeeds,
   unless its copy came back, or its x-death count cannot be read and its copy is to be stamped:
   then the batch breaks off there. It breaks off nowhere else but at a call that failed.

   It raises without having acted, or because a requeue raised: that of a message whose copy came
   back, or the last one with anything but a closed channel. Then its report is lost, though each
   approved message got a prefix of the action and no other message was touched.

   Without failures, and with only publishers beside it, a quorum queue ends up with what was not
   read, then the copied and unroutable messages in fingerprint order, then the rest in read
   order, if nothing arrived any more once messages were given back. A classic queue keeps its
   order, without what was removed.
   */
  method OperateBulk(s: Channel, fps: set<Fingerprint>, action: Action, target: Option<ReplayTarget>,
                     limit: nat, whole: bool) returns (r: Reply<seq<BulkResult>>)
    requires s.Fresh()
    modifies s
    ensures s.Valid() && !s.open
    ensures BulkOperated(s, fps, action, target, limit, whole, Read(s.mine), r)
    ensures r.Ok? ==>
              forall i | 0 <= i < |r.value| && r.value[i].status.Success? ::
                var g := WithFp(Read(s.mine), r.value[i].fingerprint);
                && |g| == 1
                && (action.Publishes() ==> (s.me, g[0]) in s.world.copies)
                && (action.Removes() ==> g[0] !in s.world.ready && g[0] !in s.world.unacked)
    ensures !s.faulted && OnlyPublished(s.log, s.me) && s.start.kind.Quorum? && ArrivalsFirst(s.log) ==>
              var read := Read(s.mine);
              if r.Raise? then IsRotated(s.world.ready, Line(s), |read|)
              else LeftWith(s.world.ready, Line(s), read,
                            GivenBack(action, read, r.value) + Kept(read, SettledBy(read, r.value)))
    ensures !s.faulted && OnlyPublished(s.log, s.me) && s.start.kind.Classic? && s.start.unacked == map[]
              && InArrivalOrder(s.start.ready) ==>
              s.world.ready == Kept(Line(s), if r.Ok? then Removed(action, Read(s.mine), r.value) else {})
    ensures s.quiet ==> Line(s) == s.start.ready && OnlyPublished(s.log, s.me) && ArrivalsFirst(s.log)
    ensures s.quiet && !s.faulted && !action.Browse? ==>
              (r == Raise(UnsafeToBrowse)
               <==> if whole then |s.start.ready| > limit else limit == 0 && s.start.ready != [])
    ensures s.quiet && !s.faulted && r.Ok? ==> Read(s.mine) == Visible(s.start.ready, limit, whole)
    ensures s.quiet && !s.faulted && whole && r.Raise? && s.start.kind.Quorum? ==> s.world.ready == s.start.ready
  {
    hide Legal, Run, Own, Accounted, On, Read, WithFp, Kept, WithinAction, ReportsAll, SettledBy, GivenBack, Removed,
      Work, ReportLost, Line, OnlyPublished, ArrivalsFirst, InArrivalOrder, NothingTried, BulkRefused;
    var read;
    read, r := OperateBulkSteps(s, fps, action, target, limit, whole);
    if r.Ok? {
      SuccessesHappened(s, fps, action, target, read, r.value);
    }
    if s.quiet {
      LineWhenQuiet(s);
    }
    if !s.faulted && OnlyPublished(s.log, s.me) {
      KeptAll(Line(s), {});
      RotatedWhole(Line(s));
      if r.Ok? {
        BulkOrder(s, fps, action, read, r.value);
      } else if action.Browse? {
        Idle(s);
      } else {
        ScanOrder(s, Job(action, fps), read);
      }
    }
  }

  /** What a run of `OperateBulk` says, part by part. */
  lemma BulkMeans(s: Channel, fps: set<Fingerprint>, action: Action, target: Option<ReplayTarget>, limit: nat,
                  whole: bool, read: seq<Message>, r: Reply<seq<BulkResult>>)
    requires BulkOperated(s, fps, action, target, limit, whole, read, r)
    ensures WithinAction(s.me, action, target, fps, read, Past(s.mine, s.sent))
    ensures r.Raise? ==> ReportLost(s.raised) || NothingTried(Past(s.mine, s.sent))
    ensures r.Raise? && !s.faulted ==> BulkRefused(r.error, action, target, limit, whole, s.counted, read)
    ensures r.Ok? ==>
              && !ReportLost(s.raised) && |r.value| == |fps|
              && ReportsAll(s.me, action, target, fps, read, Past(s.mine, s.sent), s.faulted, r.value)
              && Reported(s.me, action, target, read, Past(s.mine, s.sent), Sorted(fps), r.value)
  {
    hide Read, On, SentOf, WithFp, Truthful, InTurn, AsDue, WithinAction, ReportLost, NothingTried, BulkRefused;
  }

  /** The order lemma for a whole batch. */
  lemma BulkOrder(s: Channel, fps: set<Fingerprint>, action: Action, read: seq<Message>, results: seq<BulkResult>)
    requires s.Valid() && !s.open && OnlyPublished(s.log, s.me) && !action.Browse?
    requires s.mine == RunEvents(s.me, Job(action, fps), read, Work(s.me, action, read, results),
                                 Kept(read, SettledBy(read, results)))
    ensures s.start.kind.Quorum? && ArrivalsFirst(s.log) ==>
              LeftWith(s.world.ready, Line(s), read,
                       GivenBack(action, read, results) + Kept(read, SettledBy(read, results)))
    ensures s.start.kind.Classic? && s.start.unacked == map[] && InArrivalOrder(s.start.ready) ==>
              s.world.ready == Kept(Line(s), Removed(action, read, results))
  {
    hide Legal, Run, Own, Accounted, WithFp, Kept, SettledBy, GivenBack, Removed, Work, InArrivalOrder, Line,
      OnlyPublished, ArrivalsFirst, RunEvents;
    WorkOrder(s.me, action, read, results);
    ActionOrder(s, Job(action, fps), read, Work(s.me, action, read, results), Kept(read, SettledBy(read, results)));
  }

  lemma SuccessesHappened(s: Channel, fps: set<Fingerprint>, action: Action, target: Option<ReplayTarget>,
                          read: seq<Message>, results: seq<BulkResult>)
    requires s.Valid() && ReportsAll(s.me, action, target, fps, read, Past(s.mine, s.sent), s.faulted, results)
    ensures forall i | 0 <= i < |results| && results[i].status.Success? ::
              var g := WithFp(read, results[i].fingerprint);
              && |g| == 1
              && (action.Publishes() ==> (s.me, g[0]) in s.world.copies)
              && (action.Removes() ==> g[0] !in s.world.ready && g[0] !in s.world.unacked)
  {
    hide *;
    forall i | 0 <= i < |results| && results[i].status.Success?
      ensures var g := WithFp(read, results[i].fingerprint);
              && |g| == 1
              && (action.Publishes() ==> (s.me, g[0]) in s.world.copies)
              && (action.Removes() ==> g[0] !in s.world.ready && g[0] !in s.world.unacked)
    {
      SuccessHappened(s, fps, action, target, read, results, i);
    }
  }

  lemma SuccessHappened(s: Channel, fps: set<Fingerprint>, action: Action, target: Option<ReplayTarget>,
                        read: seq<Message>, results: seq<BulkResult>, i: nat)
    requires s.Valid() && ReportsAll(s.me, action, target, fps, read, Past(s.mine, s.sent), s.faulted, results)
    requires i < |results| && results[i].status.Success?
    ensures var g := WithFp(read, results[i].fingerprint);
            && |g| == 1
            && (action.Publishes() ==> (s.me, g[0]) in s.world.copies)
            && (action.Removes() ==> g[0] !in s.world.ready && g[0] !in s.world.unacked)
  {
    hide Legal, Run, Own, Accounted, On, WithFp, SentOf, AsDue, InTurn, Sorted;
    var fp := results[i].fingerprint;
    var full := Full(s.me, action, WithFp(read, fp)[0]);
    assert Truthful(s.me, action, target, read, results[i], On(s.mine, Sorted(fps)[i]), SentOf(s.sent, Sorted(fps)[i]));
    if action.Publishes() {
      s.Happened(fp, full[0]);
    }
    if action.Removes() {
      s.Happened(fp, full[|full| - 1]);
    }
  }

  // ------------------------------------------------------ "it is back in the queue"

  lemma {:induction false} DeliveredArrived(w: World, es: seq<Event>, m: Message)
    requires Accounted(w) && Legal(w, es) && m in Read(es)
    ensures m in Run(w, es).arrived && (m in Run(w, es).acked <==> m in AckedBy(es))
  {
    var front := Front(es);
    var v := Run(w, front);
    RunAccounted(w, front);
    RunAcked(w, es);
    RunAcked(w, front);
    if m in Read(front) {
      DeliveredArrived(w, front, m);
    } else {
      AtMostOnce(v, m);
      assert m in multiset(v.ready) && m in multiset(v.arrived);
      assert m !in w.acked;
    }
  }

  /** Beside publishers, what was acked is what this channel acked. */
  lemma {:induction false} AckedByOn(es: seq<Event>, c: ChannelId, m: Message)
    requires OnlyPublished(es, c)
    ensures m in AckedBy(es) <==> Event.Ack(c, m) in On(Own(es, c), m.Fp())
  {
    NothingDoneYet(c);
    hide Own, On, AckedBy;
    if es != [] {
      var front, e := Front(es), Last(es);
      assert es == front + [e];
      AckedByOn(front, c, m);
      SettledOne(front, e);
      Snoc(front, e);
      Snoc(Own(front, c), e);
      assert Own(front, c) + [] == Own(front, c);
    }
  }

  lemma NothingDoneYet(c: ChannelId)
    ensures Own([], c) == [] && AckedBy([]) == {} && forall fp :: On([], fp) == []
  {
  }

  lemma {:induction false} OwnReads(es: seq<Event>, c: ChannelId)
    ensures forall m | m in Read(Own(es, c)) :: m in Read(es)
  {
    if es != [] {
      var own := Own(Front(es), c);
      OwnReads(Front(es), c);
      Snoc(own, Last(es));
      assert Own(es, c) == if By(Last(es), c) then own + [Last(es)] else own;
    }
  }

  /** A message a channel read is, for good, either somewhere in the queue or acked, whoever else is at work. */
  lemma InQueueOrGone(s: Channel, m: Message)
    requires s.Valid() && m in Read(s.mine)
    ensures (m in s.world.ready || m in s.world.unacked) != (m in s.world.acked)
  {
    hide Legal, Run, Own, Read, AckedBy;
    s.Safe();
    OwnReads(s.log, s.me);
    DeliveredArrived(s.start, s.log, m);
    assert multiset(s.world.arrived)[m]
        == multiset(s.world.ready)[m] + multiset(s.world.unacked.Keys)[m] + multiset(s.world.acked)[m];
  }

  /**
   `_halted` tells the user that a message which was copied but could not be acknowledged is back
   in the queue. What is true whenever it says so, with anyone else at work: the message is confirmed
   at the target, and it is either in the queue or gone.
   */
  lemma NotAcknowledgedMeans(s: Channel, action: Action, target: Option<ReplayTarget>, fps: set<Fingerprint>,
                             results: seq<BulkResult>, i: nat)
    requires s.Valid()
    requires Reported(s.me, action, target, Read(s.mine), Past(s.mine, s.sent), Sorted(fps), results)
    requires i < |results| && results[i].status == Failed(NotAcknowledged)
    ensures var g := WithFp(Read(s.mine), results[i].fingerprint);
            && |g| == 1 && (s.me, g[0]) in s.world.copies
            && ((g[0] in s.world.ready || g[0] in s.world.unacked) != (g[0] in s.world.acked))
  {
    hide Legal, Run, Own, Accounted, On, WithFp, Read, SentOf;
    var fp := results[i].fingerprint;
    var g := WithFp(Read(s.mine), fp);
    assert Truthful(s.me, action, target, Read(s.mine), results[i], On(s.mine, Sorted(fps)[i]),
                    SentOf(s.sent, Sorted(fps)[i]));
    WithFpMembers(Read(s.mine), fp);
    assert g[0] in g;
    s.Happened(fp, Event.Publish(s.me, g[0]));
    InQueueOrGone(s, g[0]);
  }

  /** A queue with this one message, and nobody at work. */
  predicate Single(w: World, m: Message) {
    && w.arrived == {m} && w.ready == [m] && w.unacked == map[] && w.acked == {}
    && w.jobs == map[] && w.copies == multiset{}
  }

  lemma Copied(w: World, c: ChannelId, m: Message) returns (es: seq<Event>)
    requires Single(w, m)
    ensures es == [Event.Open(c, Job(Move, {m.Fp()})), Deliver(c, m), Publish(c, m)] && Legal(w, es)
    ensures var w' := Run(w, es);
            && Holds(w', c, m) && (c, m) in w'.copies && w'.ready == []
            && c in w'.jobs && w'.jobs[c] == Job(Move, {m.Fp()})
  {
    var begun := [] + [Event.Open(c, Job(Move, {m.Fp()}))];
    var read := begun + [Deliver(c, m)];
    es := read + [Event.Publish(c, m)];
    LegalSnoc(w, [], Event.Open(c, Job(Move, {m.Fp()})));
    hide Legal, Run;
    LegalSnoc(w, begun, Deliver(c, m));
    LegalSnoc(w, read, Event.Publish(c, m));
  }

  /**
   No reply tells which: two runs of a move whose ack raises, read and reported alike, both truly.
   In the first the ack was applied and the message is gone; in the second it was not, and the
   broker has put the message back. So what `_halted` says cannot be right.
   */
  lemma NobodyCanTell(w: World, c: ChannelId, m: Message, target: ReplayTarget)
    returns (gone: seq<Event>, back: seq<Event>)
    requires Single(w, m)
    ensures Legal(w, gone) && Legal(w, back) && Read(gone) == Read(back) == [m]
    ensures var r, tried := BulkResult(m.Fp(), Failed(NotAcknowledged)), [Sending(m, target, Confirmed)];
            && Truthful(c, Move, Some(target), [m], r, On(gone, m.Fp()), tried)
            && Truthful(c, Move, Some(target), [m], r, On(back, m.Fp()), tried)
    ensures m in Run(w, gone).acked && m !in Run(w, gone).ready && m !in Run(w, gone).unacked
    ensures m in Run(w, back).ready
  {
    var es := Copied(w, c, m);
    gone, back := es + [Event.Ack(c, m)], es + [Recover(c, m, 0)];
    MovedDeeds(c, m);
    hide Legal, Run, Read, On, WithFp;
    LegalSnoc(w, es, Event.Ack(c, m));
    LegalSnoc(w, es, Recover(c, m, 0));
    assert Full(c, Move, m) == [Event.Publish(c, m), Event.Ack(c, m)];
    assert Apply(Run(w, es), Recover(c, m, 0)).ready == [m];
  }

  lemma MovedDeeds(c: ChannelId, m: Message)
    ensures WithFp([m], m.Fp()) == [m]
    ensures var es := [Event.Open(c, Job(Move, {m.Fp()})), Deliver(c, m), Event.Publish(c, m)];
            && Read(es + [Event.Ack(c, m)]) == Read(es + [Recover(c, m, 0)]) == [m]
            && On(es + [Event.Ack(c, m)], m.Fp()) == [Event.Publish(c, m), Event.Ack(c, m)]
            && On(es + [Recover(c, m, 0)], m.Fp()) == [Event.Publish(c, m)]
  {
    assert Front([m]) == [];
    NothingOn();
    hide Read, On, WithFp;
    var open, get, publish := Event.Open(c, Job(Move, {m.Fp()})), Deliver(c, m), Event.Publish(c, m);
    MoreDeeds([], open, m.Fp(), [open], [], []);
    MoreDeeds([open], get, m.Fp(), [open, get], [m], []);
    MoreDeeds([open, get], publish, m.Fp(), [open, get, publish], [m], [publish]);
    var es := [open, get, publish];
    MoreDeeds(es, Event.Ack(c, m), m.Fp(), es + [Event.Ack(c, m)], [m], [publish, Event.Ack(c, m)]);
    MoreDeeds(es, Recover(c, m, 0), m.Fp(), es + [Recover(c, m, 0)], [m], [publish]);
  }

  lemma MoreDeeds(es: seq<Event>, e: Event, fp: Fingerprint, longer: seq<Event>, read: seq<Message>, done: seq<Event>)
    requires longer == es + [e] && Read(es) + (if e.Deliver? then [e.m] else []) == read
    requires On(es, fp) + (if (e.Publish? || e.Ack?) && e.m.Fp() == fp then [e] else []) == done
    ensures Read(longer) == read && On(longer, fp) == done
  {
    Snoc(es, e);
  }

  /** In a run of the code beside publishers only, it is back exactly if its ack is not among the events. */
  lemma BackUnlessAcked(s: Channel, m: Message)
    requires s.Valid() && !s.open && OnlyPublished(s.log, s.me) && s.start.unacked == map[] && m in Read(s.mine)
    ensures m in s.world.ready <==> Event.Ack(s.me, m) !in On(s.mine, m.Fp())
  {
    hide Legal, Run, Own, Read, On, AckedBy, OnlyPublished;
    AloneHolds(s.start, s.log, s.me);
    assert s.world.unacked == map[];
    s.Safe();
    OwnReads(s.log, s.me);
    DeliveredArrived(s.start, s.log, m);
    AckedByOn(s.log, s.me, m);
    OnlyReady(s.world, m);
  }

  // ------------------------------------------------------------------ a report that is lost

  /** A queue with these two messages, and nobody at work. */
  predicate Pair(w: World, a: Message, b: Message) {
    && w.arrived == {a, b} && w.ready == [a, b] && w.unacked == map[] && w.acked == {}
    && w.jobs == map[] && w.copies == multiset{}
  }

  /** A move that read both, moved the first, and whose channel then closed. */
  function MovedOne(c: ChannelId, fps: set<Fingerprint>, a: Message, b: Message): seq<Event> {
    [Event.Open(c, Job(Move, fps))] + Delivers(c, [a, b]) + Full(c, Move, a) + [Recover(c, b, 0)]
  }

  lemma OneMove(w: World, es: seq<Event>, e: Event, longer: seq<Event>)
    requires Legal(w, es) && Enabled(Run(w, es), e) && longer == es + [e]
    ensures Legal(w, longer) && Run(w, longer) == Apply(Run(w, es), e)
  {
    LegalSnoc(w, es, e);
  }

  lemma BothRead(w: World, c: ChannelId, fps: set<Fingerprint>, a: Message, b: Message)
    requires Pair(w, a, b) && a != b
    ensures var es := [Event.Open(c, Job(Move, fps)), Deliver(c, a), Deliver(c, b)];
            && Legal(w, es)
            && Run(w, es) == w.(ready := [], unacked := map[a := c, b := c], jobs := map[c := Job(Move, fps)])
  {
    var open, one, two := Event.Open(c, Job(Move, fps)), Deliver(c, a), Deliver(c, b);
    assert Legal(w, []) && Run(w, []) == w;
    hide Legal, Run;
    OneMove(w, [], open, [open]);
    OneMove(w, [open], one, [open, one]);
    OneMove(w, [open, one], two, [open, one, two]);
  }

  lemma MovedOneRuns(w: World, c: ChannelId, fps: set<Fingerprint>, a: Message, b: Message)
    requires Pair(w, a, b) && a != b && a.Fp() in fps
    ensures Legal(w, MovedOne(c, fps, a, b))
    ensures var w' := Run(w, MovedOne(c, fps, a, b));
            w'.acked == {a} && w'.ready == [b] && w'.unacked == map[] && (c, a) in w'.copies
  {
    var open, one, two := Event.Open(c, Job(Move, fps)), Deliver(c, a), Deliver(c, b);
    var publish, ack, back := Event.Publish(c, a), Event.Ack(c, a), Recover(c, b, 0);
    EventsOfMove(c, fps, a, b);
    BothRead(w, c, fps, a, b);
    hide Legal, Run, MovedOne;
    OneMove(w, [open, one, two], publish, [open, one, two, publish]);
    OneMove(w, [open, one, two, publish], ack, [open, one, two, publish, ack]);
    OneMove(w, [open, one, two, publish, ack], back, [open, one, two, publish, ack, back]);
  }

  lemma EventsOfMove(c: ChannelId, fps: set<Fingerprint>, a: Message, b: Message)
    ensures MovedOne(c, fps, a, b)
         == [Event.Open(c, Job(Move, fps)), Deliver(c, a), Deliver(c, b), Event.Publish(c, a), Event.Ack(c, a),
             Recover(c, b, 0)]
  {
    DeliversSnoc(c, [], a);
    DeliversSnoc(c, [a], b);
    assert [] + [a] == [a] && [a] + [b] == [a, b];
  }

  lemma MovedOneDeeds(c: ChannelId, fps: set<Fingerprint>, a: Message, b: Message)
    ensures var es := MovedOne(c, fps, a, b);
            && Read(es) == [a, b] && On(es, a.Fp()) == Full(c, Move, a)
            && forall fp | fp != a.Fp() :: On(es, fp) == []
  {
    NothingOn();
    hide Read, On, Full;
    var open, full := [Event.Open(c, Job(Move, fps))], Full(c, Move, a);
    Snoc([], open[0]);
    assert [] + open == open;
    DeliversDeeds(open, c, [a, b]);
    StepsDeeds(open + Delivers(c, [a, b]), c, Move, a, |full|);
    assert full[..|full|] == full;
    Snoc(open + Delivers(c, [a, b]) + full, Recover(c, b, 0));
  }

  lemma SortedFew(x: Fingerprint, y: Fingerprint)
    requires x < y
    ensures Sorted({x}) == [x] && Sorted({x, y}) == [x, y]
  {
    var one, two := Sorted({x}), Sorted({x, y});
    assert one[0] in one;
    assert two[0] in two && two[1] in two;
  }

  lemma WithFpSnoc(ms: seq<Message>, m: Message, fp: Fingerprint)
    ensures WithFp(ms + [m], fp) == WithFp(ms, fp) + (if m.Fp() == fp then [m] else [])
  {
    assert Front(ms + [m]) == ms;
  }

  lemma WithFpFew(a: Message, b: Message)
    requires a.Fp() != b.Fp()
    ensures WithFp([a, b], a.Fp()) == [a] && WithFp([a, b], b.Fp()) == [b]
  {
    assert [] + [a] == [a] && [a] + [b] == [a, b];
    forall fp
      ensures WithFp([a, b], fp) == (if a.Fp() == fp then [a] else []) + (if b.Fp() == fp then [b] else [])
    {
      WithFpSnoc([], a, fp);
      WithFpSnoc([a], b, fp);
    }
  }

  lemma SentFew(x: Sending, y: Sending)
    requires x.m.Fp() != y.m.Fp()
    ensures SentOf([x], x.m.Fp()) == [x] && SentOf([x, y], x.m.Fp()) == [x] && SentOf([x, y], y.m.Fp()) == [y]
    ensures forall fp | fp != x.m.Fp() && fp != y.m.Fp() :: SentOf([x], fp) == SentOf([x, y], fp) == []
    ensures SentOf([x], y.m.Fp()) == []
  {
    assert [] + [x] == [x] && [x] + [y] == [x, y];
    SentSnoc([], x);
    SentSnoc([x], y);
  }

  lemma TrueReports(c: ChannelId, a: Message, b: Message, target: ReplayTarget, es: seq<Event>)
    requires a.Fp() < b.Fp()
    requires On(es, a.Fp()) == Full(c, Move, a) && forall fp | fp != a.Fp() :: On(es, fp) == []
    ensures Reported(c, Move, Some(target), [a, b], Past(es, [Sending(a, target, Confirmed)]), Sorted({a.Fp()}),
                     [BulkResult(a.Fp(), Success)])
    ensures Reported(c, Move, Some(target), [a, b],
                     Past(es, [Sending(a, target, Confirmed), Sending(b, target, Bounced)]), Sorted({a.Fp(), b.Fp()}),
                     [BulkResult(a.Fp(), Success), BulkResult(b.Fp(), Failed(Unroutable))])
  {
    hide On, WithFp, Full, Sorted, SentOf;
    SortedFew(a.Fp(), b.Fp());
    WithFpFew(a, b);
    SentFew(Sending(a, target, Confirmed), Sending(b, target, Bounced));
  }

  lemma BounceLosesReport(w: World, c: ChannelId, a: Message, b: Message, target: ReplayTarget)
    requires Pair(w, a, b) && a.Fp() < b.Fp()
    ensures var both := MovedOne(c, {a.Fp(), b.Fp()}, a, b);
            && Legal(w, both) && a in Run(w, both).acked && (c, a) in Run(w, both).copies && Run(w, both).ready == [b]
            && Reported(c, Move, Some(target), [a, b],
                        Past(both, [Sending(a, target, Confirmed), Sending(b, target, Bounced)]),
                        Sorted({a.Fp(), b.Fp()}),
                        [BulkResult(a.Fp(), Success), BulkResult(b.Fp(), Failed(Unroutable))])
            && ReportLost([RaisedNack(CameBack, ConnectionLost)])
  {
    LostSnoc([], RaisedNack(CameBack, ConnectionLost));
    assert [] + [RaisedNack(CameBack, ConnectionLost)] == [RaisedNack(CameBack, ConnectionLost)];
    hide Legal, Run, On, MovedOne, Reported, ReportLost, Sorted, Full;
    MovedOneRuns(w, c, {a.Fp(), b.Fp()}, a, b);
    MovedOneDeeds(c, {a.Fp(), b.Fp()}, a, b);
    TrueReports(c, a, b, target, MovedOne(c, {a.Fp(), b.Fp()}, a, b));
  }

  lemma RequeueLosesReport(w: World, c: ChannelId, a: Message, b: Message, target: ReplayTarget)
    requires Pair(w, a, b) && a.Fp() < b.Fp()
    ensures var first := MovedOne(c, {a.Fp()}, a, b);
            && Legal(w, first) && a in Run(w, first).acked && (c, a) in Run(w, first).copies
            && Run(w, first).ready == [b]
            && Reported(c, Move, Some(target), [a, b], Past(first, [Sending(a, target, Confirmed)]), Sorted({a.Fp()}),
                        [BulkResult(a.Fp(), Success)])
            && ReportLost([RaisedNack(GivingBack, ConnectionLost)])
  {
    LostSnoc([], RaisedNack(GivingBack, ConnectionLost));
    assert [] + [RaisedNack(GivingBack, ConnectionLost)] == [RaisedNack(GivingBack, ConnectionLost)];
    hide Legal, Run, On, MovedOne, Reported, ReportLost, Sorted, Full;
    MovedOneRuns(w, c, {a.Fp()}, a, b);
    MovedOneDeeds(c, {a.Fp()}, a, b);
    TrueReports(c, a, b, target, MovedOne(c, {a.Fp()}, a, b));
  }

  /**
   Two ways to lose a true report, in one run: a move of both messages, whose second copy came back
   and whose requeue of that message raised; and a move of the first, all done, whose last requeue
   raised. In both the first message has moved, and the code raises instead of saying so.
   */
  lemma ReportsLost(w: World, c: ChannelId, a: Message, b: Message, target: ReplayTarget)
    requires Pair(w, a, b) && a.Fp() < b.Fp()
    ensures var both := MovedOne(c, {a.Fp(), b.Fp()}, a, b);
            && Legal(w, both) && a in Run(w, both).acked && (c, a) in Run(w, both).copies && Run(w, both).ready == [b]
            && Reported(c, Move, Some(target), [a, b],
                        Past(both, [Sending(a, target, Confirmed), Sending(b, target, Bounced)]),
                        Sorted({a.Fp(), b.Fp()}),
                        [BulkResult(a.Fp(), Success), BulkResult(b.Fp(), Failed(Unroutable))])
            && ReportLost([RaisedNack(CameBack, ConnectionLost)])
    ensures var first := MovedOne(c, {a.Fp()}, a, b);
            && Legal(w, first) && a in Run(w, first).acked && (c, a) in Run(w, first).copies
            && Run(w, first).ready == [b]
            && Reported(c, Move, Some(target), [a, b], Past(first, [Sending(a, target, Confirmed)]), Sorted({a.Fp()}),
                        [BulkResult(a.Fp(), Success)])
            && ReportLost([RaisedNack(GivingBack, ConnectionLost)])
  {
    hide *;
    BounceLosesReport(w, c, a, b, target);
    RequeueLosesReport(w, c, a, b, target);
  }
}
