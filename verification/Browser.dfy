/** Reading a queue and giving everything back: app/infrastructure/rabbitmq/message_browser.py. */
module Browser {
  import opened Records
  import opened Broker
  import opened Session
  import opened QueueOrder
  import opened GrowingQueue

  /** Why a scan stopped before the end of the queue. */
  datatype Stop = Depth | Memory

  datatype Scan = Scan(records: seq<MessageRecord>, ready: nat, stopped: Option<Stop>)

  function Bytes(ms: seq<Message>): nat {
    if ms == [] then 0 else Bytes(Front(ms)) + |Last(ms).record.body|
  }

  function RecordsOf(ms: seq<Message>): (rs: seq<MessageRecord>)
    ensures |rs| == |ms| && forall i | 0 <= i < |ms| :: rs[i] == ms[i].record
  {
    seq(|ms|, i requires 0 <= i < |ms| => ms[i].record)
  }

  function Only(keep: Option<Message>): set<Message> {
    if keep.Some? then {keep.value} else {}
  }

  ghost predicate Distinct(ms: seq<Message>) {
    forall i, j | 0 <= i < j < |ms| :: ms[i] != ms[j]
  }

  /** Why a fetch ends where it does, given the count it was told and what it then held. */
  ghost predicate StopsRightly(held: seq<Message>, r: Reply<Option<Stop>>,
                               limit: nat, whole: bool, maxBytes: Option<nat>, ready: nat)
  {
    && (r.Ok? ==>
          && !(whole && ready > limit)
          && |held| <= limit
          && (whole ==> r.value.None?) && (r.value.Some? ==> held != [])
          && (r.value == Some(Depth) ==> |held| == limit)
          && (r.value == Some(Memory) ==> |held| < limit && maxBytes.Some? && Bytes(held) >= maxBytes.value)
          && (r.value == None && !whole && held != [] ==>
                |held| < limit && (maxBytes.Some? ==> Bytes(held) < maxBytes.value))
          && (!whole && maxBytes.Some? && |held| > 1 ==> Bytes(Front(held)) < maxBytes.value))
    && (r == Raise(UnsafeToBrowse) ==>
          if whole && ready > limit then held == [] else (whole || limit == 0) && |held| == limit + 1)
  }

  /** Why a read is refused: the declare found too many messages, or they turned out to be too many. */
  predicate TooDeep(counted: Option<nat>, limit: nat, whole: bool, held: seq<Message>) {
    && counted.Some? && (whole || limit == 0)
    && (if whole && counted.value > limit then held == [] else |held| == limit + 1)
  }

  /** After `base` the channel read `held` and did nothing else; while open it holds just that. */
  ghost predicate Taken(s: Channel, base: seq<Event>, held: seq<Message>)
    reads s
  {
    && s.Valid() && Distinct(held)
    && SameDeeds(base + Delivers(s.me, held), s.mine)
    && (s.open ==> forall m :: Holds(s.world, s.me, m) <==> m in held)
  }

  /** One basic.get of the loop below. */
  method Take(s: Channel, held: seq<Message>, ghost base: seq<Event>) returns (got: Reply<Option<Message>>)
    requires Taken(s, base, held) && s.mine == base + Delivers(s.me, held) && s.open
    modifies s`world, s`log, s`mine, s`open, s`faulted
    ensures Taken(s, base, if got.Ok? && got.value.Some? then held + [got.value.value] else held)
    ensures got.Ok? ==>
              && s.open && s.faulted == old(s.faulted)
              && s.mine == base + Delivers(s.me, if got.value.Some? then held + [got.value.value] else held)
    ensures got == Ok(None) ==> s.world.ready == []
    ensures got.Raise? ==> Wire(got.error) && s.faulted
  {
    hide Legal, Run, Own, Accounted, Read, On;
    got := s.Get();
    if got.Ok? && got.value.Some? {
      ghost var m := got.value.value;
      DeliversSnoc(s.me, held, m);
      assert base + Delivers(s.me, held + [m]) == base + Delivers(s.me, held) + [Deliver(s.me, m)];
    }
  }

  lemma {:induction false} DeliversDeeds(base: seq<Event>, c: ChannelId, ms: seq<Message>)
    ensures Read(base + Delivers(c, ms)) == Read(base) + ms
    ensures forall fp :: On(base + Delivers(c, ms), fp) == On(base, fp)
  {
    hide Read, On;
    if ms == [] {
      assert base + Delivers(c, ms) == base;
    } else {
      var es := base + Delivers(c, Front(ms));
      DeliversDeeds(base, c, Front(ms));
      assert base + Delivers(c, ms) == es + [Deliver(c, Last(ms))];
      Snoc(es, Deliver(c, Last(ms)));
    }
  }

  /** Within the loop of `fetch`: nothing so far told it to stop. */
  predicate GoesOn(held: seq<Message>, limit: nat, whole: bool, maxBytes: Option<nat>, ready: nat) {
    && !(whole && ready > limit) && |held| <= limit
    && (!whole && held != [] ==> |held| < limit && (maxBytes.Some? ==> Bytes(held) < maxBytes.value))
  }

  lemma OneMoreByte(held: seq<Message>, m: Message)
    ensures Bytes(held + [m]) == Bytes(held) + |m.record.body|
    ensures Front(held + [m]) == held
  {
    assert Front(held + [m]) == held;
  }

  lemma StopsBefore(held: seq<Message>, error: Error, limit: nat, whole: bool, maxBytes: Option<nat>, ready: nat)
    ensures Wire(error) ==> StopsRightly(held, Raise(error), limit, whole, maxBytes, ready)
    ensures whole && ready > limit ==> StopsRightly([], Raise(UnsafeToBrowse), limit, whole, maxBytes, ready)
    ensures !(whole && ready > limit) ==> GoesOn([], limit, whole, maxBytes, ready)
  {
  }

  lemma StopsAtEnd(held: seq<Message>, limit: nat, whole: bool, maxBytes: Option<nat>, ready: nat)
    requires GoesOn(held, limit, whole, maxBytes, ready)
    ensures StopsRightly(held, Ok(None), limit, whole, maxBytes, ready)
  {
    assert held != [] ==> held == Front(held) + [Last(held)];
    if held != [] {
      OneMoreByte(Front(held), Last(held));
    }
  }

  /** With one more message the loop stops for the reason it gives, or goes on. */
  lemma StopsOrGoesOn(held: seq<Message>, m: Message, limit: nat, whole: bool, maxBytes: Option<nat>, ready: nat)
    requires GoesOn(held, limit, whole, maxBytes, ready)
    ensures var more := held + [m];
            if |more| > limit then StopsRightly(more, Raise(UnsafeToBrowse), limit, whole, maxBytes, ready)
            else if !whole && |more| == limit then StopsRightly(more, Ok(Some(Depth)), limit, whole, maxBytes, ready)
            else if !whole && maxBytes.Some? && Bytes(more) >= maxBytes.value
            then StopsRightly(more, Ok(Some(Memory)), limit, whole, maxBytes, ready)
            else GoesOn(more, limit, whole, maxBytes, ready)
  {
    OneMoreByte(held, m);
  }

  /** The channel has read `held` so far, without a fault. */
  ghost predicate Fetching(s: Channel, base: seq<Event>, held: seq<Message>, size: nat, faulted: bool)
    reads s
  {
    && Taken(s, base, held) && s.mine == base + Delivers(s.me, held) && s.faulted == faulted && s.open
    && size == Bytes(held)
  }

  /** One turn of the loop below. */
  method FetchOne(s: Channel, held: seq<Message>, size: nat, limit: nat, whole: bool, maxBytes: Option<nat>,
                  ready: nat, ghost base: seq<Event>, ghost faulted: bool)
    returns (more: seq<Message>, total: nat, stop: Option<Reply<Option<Stop>>>)
    requires Fetching(s, base, held, size, faulted) && GoesOn(held, limit, whole, maxBytes, ready) && |held| <= limit
    modifies s`world, s`log, s`mine, s`open, s`faulted
    ensures stop.None? ==>
              && Fetching(s, base, more, total, faulted) && GoesOn(more, limit, whole, maxBytes, ready)
              && |held| < |more| <= limit
    ensures stop.Some? ==>
              && Taken(s, base, more)
              && (if stop.value.Raise? && Wire(stop.value.error) then s.faulted
                  else s.faulted == faulted && s.open && s.mine == base + Delivers(s.me, more))
              && (stop.value.Raise? ==> Wire(stop.value.error) || stop.value.error.UnsafeToBrowse?)
              && (stop.value == Ok(None) ==> s.world.ready == [])
              && StopsRightly(more, stop.value, limit, whole, maxBytes, ready)
  {
    hide Legal, Run, Own, Accounted, Read, On, Delivers, Bytes, Taken, StopsRightly, GoesOn;
    more, total, stop := held, size, None;
    var got := Take(s, held, base);
    if got.Raise? {
      StopsBefore(held, got.error, limit, whole, maxBytes, ready);
      stop := Some(Raise(got.error));
      return;
    }
    if got.value.None? {
      StopsAtEnd(held, limit, whole, maxBytes, ready);
      stop := Some(Ok(None));
      return;
    }
    var message := got.value.value;
    OneMoreByte(held, message);
    StopsOrGoesOn(held, message, limit, whole, maxBytes, ready);
    more := held + [message];
    if |more| > limit {
      stop := Some(Raise(UnsafeToBrowse));
      return;
    }
    total := size + |message.record.body|;
    if !whole && |more| == limit {
      stop := Some(Ok(Some(Depth)));
    } else if !whole && maxBytes.Some? && total >= maxBytes.value {
      stop := Some(Ok(Some(Memory)));
    }
  }

  /**
   basic.get up to `limit` messages; what was taken is returned even when this raises.
   A whole scan refuses a queue deeper than `limit`: before taking anything if the declare
   said so, after limit + 1 messages if the queue grew meanwhile. No other scan refuses, unless
   it is to read up to no message at all.
   */
  method Fetch(s: Channel, limit: nat, whole: bool, maxBytes: Option<nat>, ready: nat, ghost base: seq<Event>)
    returns (held: seq<Message>, r: Reply<Option<Stop>>)
    requires Taken(s, base, []) && s.mine == base && s.open
    modifies s`world, s`log, s`mine, s`open, s`faulted
    ensures Taken(s, base, held)
    ensures if r.Raise? && Wire(r.error) then s.faulted
            else s.faulted == old(s.faulted) && s.open && s.mine == base + Delivers(s.me, held)
    ensures r.Raise? ==> Wire(r.error) || r.error.UnsafeToBrowse?
    ensures r == Ok(None) ==> s.world.ready == []
    ensures StopsRightly(held, r, limit, whole, maxBytes, ready)
  {
    held := [];
    assert base + Delivers(s.me, []) == base && Bytes([]) == 0;
    hide Legal, Run, Own, Accounted, Read, On, Delivers, Bytes, Taken, StopsRightly, GoesOn;
    StopsBefore(held, ConnectionLost, limit, whole, maxBytes, ready);
    if whole && ready > limit {
      return held, Raise(UnsafeToBrowse);
    }
    var size := 0;
    ghost var faulted := s.faulted;
    while true
      invariant Fetching(s, base, held, size, faulted) && GoesOn(held, limit, whole, maxBytes, ready) && |held| <= limit
      decreases limit - |held|
    {
      var stop;
      held, size, stop := FetchOne(s, held, size, limit, whole, maxBytes, ready, base, faulted);
      if stop.Some? {
        return held, stop.value;
      }
    }
  }

  /** What a channel holds, it held before, and it is not among these, unless it was to be left alone. */
  ghost predicate Leaves(was: World, now: World, c: ChannelId, through: seq<Message>, spared: set<Message>) {
    forall m :: Holds(now, c, m) ==> Holds(was, c, m) && (m !in through || m in spared)
  }

  /** From place i on, nothing was settled but what was before, and the channel holds the rest if it held all of it. */
  ghost predicate Untouched(messages: seq<Message>, i: nat, settled: set<Message>, before: set<Message>) {
    before <= settled && forall j | i <= j < |messages| :: messages[j] in settled ==> messages[j] in before
  }

  ghost predicate HoldsRest(w: World, c: ChannelId, messages: seq<Message>, i: nat, settled: set<Message>) {
    forall j | i <= j < |messages| :: Holds(w, c, messages[j]) || messages[j] in settled
  }

  lemma PassedBy(was: World, now: World, c: ChannelId, messages: seq<Message>, i: nat, settled: set<Message>,
                 before: set<Message>, spared: set<Message>)
    requires i < |messages| && messages[i] in spared && Untouched(messages, i, settled, before)
    ensures Untouched(messages, i + 1, settled, before)
    ensures HoldsRest(now, c, messages, i, before) ==> HoldsRest(now, c, messages, i + 1, before)
    ensures Leaves(was, now, c, messages[..i], spared) ==> Leaves(was, now, c, messages[..i + 1], spared)
  {
    assert messages[..i + 1] == messages[..i] + [messages[i]];
  }

  lemma GaveBack(was: World, w: World, now: World, c: ChannelId, messages: seq<Message>, i: nat,
                 settled: set<Message>, before: set<Message>, spared: set<Message>)
    requires Distinct(messages) && i < |messages| && Untouched(messages, i, settled, before)
    ensures Untouched(messages, i + 1, settled + {messages[i]}, before)
    ensures (forall x | x != messages[i] :: Holds(now, c, x) <==> Holds(w, c, x)) ==>
              && (HoldsRest(w, c, messages, i, before) ==> HoldsRest(now, c, messages, i + 1, before))
              && (Leaves(was, w, c, messages[..i], spared) && !Holds(now, c, messages[i]) ==>
                    Leaves(was, now, c, messages[..i + 1], spared))
  {
    assert messages[..i + 1] == messages[..i] + [messages[i]];
  }

  lemma NothingPassed(w: World, c: ChannelId, messages: seq<Message>, settled: set<Message>, spared: set<Message>)
    ensures Untouched(messages, 0, settled, settled) && Leaves(w, w, c, messages[..0], spared)
    ensures HoldsRest(w, c, messages, 0, settled)
        <==> forall m | m in messages :: Holds(w, c, m) || m in settled
  {
    assert forall j | 0 <= j < |messages| :: messages[j] in messages;
  }

  lemma AtPlace(w: World, c: ChannelId, messages: seq<Message>, i: nat, settled: set<Message>, before: set<Message>)
    requires i < |messages| && Untouched(messages, i, settled, before)
    ensures messages[i] in settled <==> messages[i] in before
    ensures HoldsRest(w, c, messages, i, before) && messages[i] !in settled ==> Holds(w, c, messages[i])
  {
  }

  lemma StillSame(a: seq<Event>, b: seq<Event>, c: seq<Event>)
    requires SameDeeds(a, b) && SameDeeds(b, c)
    ensures SameDeeds(a, c)
  {
    hide Read, On;
  }

  lemma KeptAndReturned(mine: seq<Event>, c: ChannelId, messages: seq<Message>, i: nat, gone: set<Message>)
    requires i < |messages|
    ensures var so := mine + Returns(c, Kept(messages[..i], gone));
            mine + Returns(c, Kept(messages[..i + 1], gone))
              == if messages[i] in gone then so else so + [Return(c, messages[i])]
  {
    assert messages[..i + 1] == messages[..i] + [messages[i]];
    KeptSnoc(messages[..i], messages[i], gone);
    ReturnsSnoc(c, Kept(messages[..i], gone), messages[i]);
    assert Kept(messages[..i], gone) + [] == Kept(messages[..i], gone);
  }

  /** A channel as it was. */
  datatype Earlier = Earlier(world: World, mine: seq<Event>, settled: set<Message>, open: bool, faulted: bool,
                             raised: seq<RaisedNack>)

  /** The requeue has come as far as place i. */
  ghost predicate Requeued(s: Channel, was: Earlier, messages: seq<Message>, i: nat, keep: Option<Message>)
    requires i <= |messages|
    reads s
  {
    var spared := was.settled + Only(keep);
    && s.Valid() && SameDeeds(was.mine, s.mine) && s.raised == was.raised
    && Untouched(messages, i, s.settled, was.settled)
    && (!s.faulted ==>
          && !was.faulted && (was.open ==> s.open)
          && s.mine == was.mine + Returns(s.me, Kept(messages[..i], spared)))
    && (was.open && HoldsRest(was.world, s.me, messages, 0, was.settled) ==>
          s.open && s.faulted == was.faulted && HoldsRest(s.world, s.me, messages, i, was.settled))
    && (!s.faulted && s.open ==> Leaves(was.world, s.world, s.me, messages[..i], spared))
  }

  lemma JustStarted(s: Channel, messages: seq<Message>, keep: Option<Message>)
    requires s.Valid()
    ensures Requeued(s, Earlier(s.world, s.mine, s.settled, s.open, s.faulted, s.raised), messages, 0, keep)
    ensures HoldsRest(s.world, s.me, messages, 0, s.settled)
        <==> forall m | m in messages :: Holds(s.world, s.me, m) || m in s.settled
  {
    hide Legal, Run, Own, Accounted, Read, On, Holds;
    NothingPassed(s.world, s.me, messages, s.settled, s.settled + Only(keep));
    assert s.mine + Returns(s.me, Kept(messages[..0], s.settled + Only(keep))) == s.mine;
  }

  /** One turn of the loop below. */
  method RequeueOne(s: Channel, messages: seq<Message>, i: nat, keep: Option<Message>, ghost was: Earlier)
    returns (r: Reply<()>)
    requires i < |messages| && Distinct(messages) && Requeued(s, was, messages, i, keep)
    requires !was.faulted ==> was.open && HoldsRest(was.world, s.me, messages, 0, was.settled)
    modifies s`world, s`log, s`mine, s`open, s`faulted, s`settled, s`raised
    ensures s.Valid() && SameDeeds(was.mine, s.mine)
    ensures s.raised == if r.Raise? then was.raised + [RaisedNack(GivingBack, r.error)] else was.raised
    ensures r.Raise? ==> Wire(r.error) && s.faulted
    ensures r.Ok? ==> Requeued(s, was, messages, i + 1, keep)
  {
    hide Legal, Run, Own, Accounted, Read, On, SameDeeds, Kept, Returns, Leaves, Untouched, HoldsRest, Distinct, Holds;
    var message := messages[i];
    ghost var spared, w, mid, settled := was.settled + Only(keep), s.world, s.mine, s.settled;
    AtPlace(w, s.me, messages, i, settled, was.settled);
    KeptAndReturned(was.mine, s.me, messages, i, spared);
    r := Ok(());
    if keep != Some(message) && message !in s.settled {
      r := s.Nack(message, GivingBack);
      StillSame(was.mine, mid, s.mine);
      GaveBack(was.world, w, s.world, s.me, messages, i, settled, was.settled, spared);
    } else {
      PassedBy(was.world, w, s.me, messages, i, settled, was.settled, spared);
    }
  }

  /** Return every unsettled message in the order it was read. */
  method Requeue(s: Channel, messages: seq<Message>, keep: Option<Message>) returns (r: Reply<()>)
    requires s.Valid() && Distinct(messages)
    requires !s.faulted ==> s.open && forall m | m in messages :: Holds(s.world, s.me, m) || m in s.settled
    modifies s`world, s`log, s`mine, s`open, s`faulted, s`settled, s`raised
    ensures s.Valid() && SameDeeds(old(s.mine), s.mine)
    ensures r.Raise? ==> Wire(r.error) && s.faulted
    ensures s.raised == if r.Raise? then old(s.raised) + [RaisedNack(GivingBack, r.error)] else old(s.raised)
    ensures !s.faulted ==> !old(s.faulted) && r.Ok? && (old(s.open) ==> s.open)
    ensures !s.faulted ==> s.mine == old(s.mine) + Returns(s.me, Kept(messages, old(s.settled) + Only(keep)))
    ensures r.Ok? && old(s.open)
              && (forall m | m in messages :: old(Holds(s.world, s.me, m)) || m in old(s.settled)) ==>
              s.open && s.faulted == old(s.faulted)
    ensures !s.faulted && s.open ==>
              forall m :: Holds(s.world, s.me, m) ==>
                old(Holds(s.world, s.me, m)) && (m !in messages || m in old(s.settled) || Some(m) == keep)
  {
    ghost var was := Earlier(s.world, s.mine, s.settled, s.open, s.faulted, s.raised);
    JustStarted(s, messages, keep);
    hide Legal, Run, Own, Accounted, Read, On, SameDeeds, Kept, Returns, Leaves, HoldsRest, Distinct, Requeued, Holds;
    for i := 0 to |messages|
      invariant Requeued(s, was, messages, i, keep)
    {
      r := RequeueOne(s, messages, i, keep, was);
      if r.Raise? {
        return;
      }
    }
    RequeuedMeans(s, was, messages, keep);
    r := Ok(());
  }

  lemma RequeuedMeans(s: Channel, was: Earlier, messages: seq<Message>, keep: Option<Message>)
    requires Requeued(s, was, messages, |messages|, keep)
    ensures s.Valid() && SameDeeds(was.mine, s.mine) && s.raised == was.raised
    ensures !s.faulted ==>
              && !was.faulted && (was.open ==> s.open)
              && s.mine == was.mine + Returns(s.me, Kept(messages, was.settled + Only(keep)))
    ensures was.open && HoldsRest(was.world, s.me, messages, 0, was.settled) ==> s.open && s.faulted == was.faulted
    ensures !s.faulted && s.open ==>
              forall m :: Holds(s.world, s.me, m) ==>
                Holds(was.world, s.me, m) && (m !in messages || m in was.settled || Some(m) == keep)
  {
    hide Legal, Run, Own, Accounted, Read, On, SameDeeds, Kept, Returns, HoldsRest, Holds;
    assert messages[..|messages|] == messages;
  }

  /**
   One scan: read, then give everything back, whether or not the reading raised. Nothing is
   published or acked whatever fails, and when the channel is closed nothing is unacked.

   With only publishers beside it, a scan leaves a classic queue in order, with what arrived. If they
   append to a quorum queue before the scan gives anything back, it ends up rotated by what was read,
   also when the scan is refused for it: its order is kept exactly if nothing was left unread.
   */
  method ScanQueue(s: Channel, limit: nat, whole: bool, maxBytes: Option<nat>) returns (r: Reply<Scan>)
    requires s.Fresh()
    modifies s
    ensures s.Valid() && !s.open
    ensures forall fp :: On(s.mine, fp) == []
    ensures r.Ok? ==>
              && r.value.records == RecordsOf(Read(s.mine))
              && StopsRightly(Read(s.mine), Ok(r.value.stopped), limit, whole, maxBytes, r.value.ready)
    ensures r.Ok? ==> s.counted == Some(r.value.ready)
    ensures r.Raise? && !s.faulted ==>
              r.error.UnsafeToBrowse? && TooDeep(s.counted, limit, whole, Read(s.mine))
    ensures !s.faulted ==> s.mine == RunEvents(s.me, SCAN, Read(s.mine), [], Read(s.mine))
    ensures !s.faulted && OnlyPublished(s.log, s.me) && s.start.kind.Quorum? && ArrivalsFirst(s.log) ==>
              var k := |Read(s.mine)|;
              IsRotated(s.world.ready, Line(s), k) && (s.world.ready == Line(s) <==> k == 0 || k == |Line(s)|)
    ensures !s.faulted && OnlyPublished(s.log, s.me) && s.start.kind.Classic? && s.start.unacked == map[]
              && InArrivalOrder(s.start.ready) ==>
              s.world.ready == Line(s)
    ensures s.quiet ==> Line(s) == s.start.ready && OnlyPublished(s.log, s.me) && ArrivalsFirst(s.log)
    ensures s.quiet && !s.faulted ==>
              && Read(s.mine) <= s.start.ready && s.counted == Some(|s.start.ready|)
              && (r.Raise? <==> if whole then |s.start.ready| > limit else limit == 0 && s.start.ready != [])
              && (whole && r.Raise? ==> Read(s.mine) == [])
              && (r.Ok? && r.value.stopped.None? ==> Read(s.mine) == s.start.ready)
    ensures s.quiet && !s.faulted && r.Ok? && maxBytes.None? ==>
              var depth := whole || |s.start.ready| < limit || s.start.ready == [];
              && Read(s.mine) == (if depth then s.start.ready else s.start.ready[..limit])
              && r.value.stopped == (if depth then None else Some(Depth))
  {
    hide Legal, Run, Own, Accounted, Read, On, Line;
    var held;
    held, r := ScanSteps(s, limit, whole, maxBytes);
    if s.quiet {
      LineWhenQuiet(s);
    }
    if !s.faulted && OnlyPublished(s.log, s.me) {
      ScanOrder(s, SCAN, held);
      if s.start.kind.Quorum? && ArrivalsFirst(s.log) {
        ScanAmongPublishers(s);
      }
    }
  }

  /** `list_messages`: the records of a scan, without a byte budget. */
  method ListMessages(s: Channel, limit: nat, whole: bool) returns (r: Reply<seq<MessageRecord>>)
    requires s.Fresh()
    modifies s
    ensures s.Valid() && !s.open && forall fp :: On(s.mine, fp) == []
    ensures r.Ok? ==> r.value == RecordsOf(Read(s.mine))
    ensures r.Raise? && !s.faulted ==>
              r.error.UnsafeToBrowse? && TooDeep(s.counted, limit, whole, Read(s.mine))
    ensures s.quiet && !s.faulted ==>
              (r.Raise? <==> if whole then |s.start.ready| > limit else limit == 0 && s.start.ready != [])
    ensures r.Ok? && s.quiet && !s.faulted ==> Read(s.mine) == Visible(s.start.ready, limit, whole)
    ensures r.Ok? && s.quiet && !s.faulted
              && ((s.start.kind.Quorum? && whole)
                  || (s.start.kind.Classic? && s.start.unacked == map[] && InArrivalOrder(s.start.ready))) ==>
              s.world.ready == s.start.ready
  {
    hide Legal, Run, Own, Accounted, Read, On, InArrivalOrder, RunEvents, ArrivedBy, OnlyPublished, ArrivalsFirst,
      Line, StopsRightly;
    var scan := ScanQueue(s, limit, whole, None);
    r := if scan.Ok? then Ok(scan.value.records) else Raise(scan.error);
  }

  method ScanSteps(s: Channel, limit: nat, whole: bool, maxBytes: Option<nat>)
    returns (held: seq<Message>, r: Reply<Scan>)
    requires s.Fresh()
    modifies s
    ensures s.Valid() && !s.open
    ensures Read(s.mine) == held && forall fp :: On(s.mine, fp) == []
    ensures r.Ok? ==>
              && r.value.records == RecordsOf(held)
              && StopsRightly(held, Ok(r.value.stopped), limit, whole, maxBytes, r.value.ready)
    ensures r.Ok? ==> s.counted == Some(r.value.ready)
    ensures r.Raise? && !s.faulted ==>
              r.error.UnsafeToBrowse? && TooDeep(s.counted, limit, whole, held)
    ensures !s.faulted ==> s.mine == RunEvents(s.me, SCAN, held, [], held)
    ensures s.quiet && !s.faulted ==> SeesAlone(s.start.ready, s.counted, limit, whole, held, r.Raise?)
    ensures s.quiet && !s.faulted && r.Ok? ==>
              && (maxBytes.None? ==> held == Visible(s.start.ready, limit, whole))
              && (r.value.stopped.None? ==> held == s.start.ready)
              && (maxBytes.None? && r.value.stopped.Some? ==> |held| == limit && !whole && r.value.stopped.value.Depth?)
              && (maxBytes.None? && r.value.stopped.None? && !whole ==> |held| < limit || limit == 0)
  {
    hide Legal, Run, Own, Accounted, Read, On, Delivers, Returns, Kept, Visible, Distinct, SeesAlone;
    var ready, fetched;
    ghost var job := SCAN;
    held, ready, fetched := ReadQueue(s, Browse, {}, limit, whole, maxBytes);
    var given := Requeue(s, held, None);
    assert !s.faulted ==> s.mine == RunEvents(s.me, job, held, [], held) by {
      KeptAll(held, {});
      assert {} + Only(None) == {};
    }
    s.Close();
    if given.Raise? {
      return held, Raise(given.error);
    }
    if fetched.Raise? {
      return held, Raise(fetched.error);
    }
    assert fetched.value.Some? ==> fetched.value.value.Depth? || fetched.value.value.Memory?;
    r := Ok(Scan(RecordsOf(held), ready, fetched.value));
  }

  /** Alone with its queue, a faultless read sees a prefix of it; it is refused exactly if the queue is too deep. */
  predicate SeesAlone(queue: seq<Message>, counted: Option<nat>, limit: nat, whole: bool, held: seq<Message>,
                      refused: bool)
  {
    && held <= queue && counted == Some(|queue|)
    && (refused <==> if whole then |queue| > limit else limit == 0 && queue != [])
    && (whole && refused ==> held == [])
  }

  /** The part of an undisturbed queue that a scan sees. */
  function Visible(queue: seq<Message>, limit: nat, whole: bool): seq<Message> {
    if whole || |queue| <= limit then queue else queue[..limit]
  }

  /** What every scan and action starts with: open a channel, declare the queue, fetch. */
  method ReadQueue(s: Channel, action: Action, approved: set<Fingerprint>,
                   limit: nat, whole: bool, maxBytes: Option<nat>)
    returns (held: seq<Message>, ready: nat, r: Reply<Option<Stop>>)
    requires s.Fresh()
    modifies s
    ensures s.Valid() && s.job == Some(Job(action, approved)) && s.settled == {} && s.raised == [] && Distinct(held)
    ensures Read(s.mine) == held && forall fp :: On(s.mine, fp) == []
    ensures s.open ==> forall m :: Holds(s.world, s.me, m) <==> m in held
    ensures StopsRightly(held, r, limit, whole, maxBytes, ready)
    ensures !s.faulted ==> s.counted == Some(ready)
    ensures s.sent == []
    ensures r.Raise? ==> r.error.UnsafeToBrowse? || s.faulted
    ensures r.Ok? ==> !s.faulted
    ensures !s.faulted ==> s.open && s.mine == [Event.Open(s.me, Job(action, approved))] + Delivers(s.me, held)
    ensures s.quiet && !s.faulted ==> SeesAlone(s.start.ready, s.counted, limit, whole, held, r.Raise?)
    ensures s.quiet && r.Ok? && maxBytes.None? ==> held == Visible(s.start.ready, limit, whole)
    ensures s.quiet && r == Ok(None) ==> held == s.start.ready
    ensures s.quiet && !s.faulted && whole ==> held == [] || held == s.start.ready
  {
    hide Legal, Run, Own, Accounted, Read, On, Taken, Visible;
    if s.quiet {
      s.Unused();
    }
    s.Begin(action, approved);
    ghost var base := s.mine;
    hide Delivers, StopsRightly;
    var declared := s.Declare();
    if declared.Raise? {
      NeverRead(declared.error, limit, whole, maxBytes);
      return [], 0, Raise(declared.error);
    }
    ready := declared.value;
    JustBegun(s, base);
    held, r := Fetch(s, limit, whole, maxBytes, ready, base);
    TakenMeans(s, base, held);
    DeliversDeeds(base, s.me, held);
    if s.quiet && !s.faulted {
      Undisturbed(s, Job(action, approved), held, r, limit, whole, maxBytes, ready);
    }
  }

  lemma NeverRead(e: Error, limit: nat, whole: bool, maxBytes: Option<nat>)
    requires Wire(e)
    ensures StopsRightly([], Raise(e), limit, whole, maxBytes, 0)
  {
  }

  lemma JustBegun(s: Channel, base: seq<Event>)
    requires s.Valid() && s.mine == base && forall m :: !Holds(s.world, s.me, m)
    ensures Taken(s, base, [])
  {
    hide Legal, Run, Own, Accounted, Read, On;
    assert base + Delivers(s.me, []) == base;
  }

  lemma TakenMeans(s: Channel, base: seq<Event>, held: seq<Message>)
    requires Taken(s, base, held)
    ensures s.Valid() && Distinct(held) && SameDeeds(base + Delivers(s.me, held), s.mine)
    ensures s.open ==> forall m :: Holds(s.world, s.me, m) <==> m in held
  {
  }

  /** What a faultless read of an undisturbed queue saw. */
  lemma Undisturbed(s: Channel, job: Job, held: seq<Message>, r: Reply<Option<Stop>>,
                    limit: nat, whole: bool, maxBytes: Option<nat>, ready: nat)
    requires s.Valid() && s.quiet && s.mine == [Event.Open(s.me, job)] + Delivers(s.me, held)
    requires StopsRightly(held, r, limit, whole, maxBytes, ready) && ready == |s.start.ready|
    requires (r == Ok(None) ==> s.world.ready == []) && (r.Raise? ==> r.error.UnsafeToBrowse?)
    ensures held <= s.start.ready && (whole && r.Raise? ==> held == [])
    ensures r.Raise? <==> if whole then |s.start.ready| > limit else limit == 0 && s.start.ready != []
    ensures r.Ok? && maxBytes.None? ==> held == Visible(s.start.ready, limit, whole)
    ensures r == Ok(None) ==> held == s.start.ready
    ensures whole ==> held == [] || held == s.start.ready
  {
    hide Legal, Run, Own, Accounted, Read, On, Delivers;
    ReadToEnd(s, job, held);
    assert s.start.ready[..|s.start.ready|] == s.start.ready;
    assert r.Ok? && r.value.Some? ==> r.value.value.Depth? || r.value.value.Memory?;
  }

  /** Nothing left to read means everything was read. */
  lemma ReadToEnd(s: Channel, job: Job, held: seq<Message>)
    requires s.Valid() && s.quiet && s.mine == [Event.Open(s.me, job)] + Delivers(s.me, held)
    ensures |held| <= |s.start.ready| && held == s.start.ready[..|held|]
    ensures s.world.ready == [] ==> |held| == |s.start.ready|
  {
    var first := [Event.Open(s.me, job)];
    LegalConcat(s.start, first, Delivers(s.me, held));
    LegalSnoc(s.start, [], Event.Open(s.me, job));
    assert first == [] + first;
    DeliversRun(Run(s.start, first), s.me, held);
  }

  /**
   What is left behind by a faultless read that gives everything back, beside publishers. A classic
   queue is as it was, with what arrived. A quorum queue is rotated by what was read.
   */
  lemma ScanOrder(s: Channel, job: Job, held: seq<Message>)
    requires s.Valid() && !s.open && OnlyPublished(s.log, s.me)
    requires s.mine == RunEvents(s.me, job, held, [], held)
    ensures s.start.kind.Quorum? && ArrivalsFirst(s.log) ==>
              held <= Line(s) && IsRotated(s.world.ready, Line(s), |held|)
    ensures s.start.kind.Classic? && s.start.unacked == map[] && InArrivalOrder(s.start.ready) ==>
              s.world.ready == Line(s)
  {
    hide Legal, Run, Own, Accounted, Kept, RunEvents, InArrivalOrder, ReturnedBy, AckedBy, OnlyPublished, ArrivalsFirst,
      Line;
    NothingSettled();
    ActionOrder(s, job, held, [], held);
    KeptAll(Line(s), {});
    assert [] + held == held;
  }

  /**
   A scan of depth 1 that saw one message at the declare; two more arrive, and the second get is
   one too many. The code refuses, and gives back what it read behind what it did not read.
   */
  lemma RefusedScanReorders(w: World, c: ChannelId, a: Message, b: Message, d: Message) returns (es: seq<Event>)
    requires JustOne(w, a) && a.id < b.id < d.id
    ensures Legal(w, es) && ScannedBy(es, c, [a, b])
    ensures StopsRightly([a, b], Raise(UnsafeToBrowse), 1, true, None, |w.ready|)
    ensures w.ready == [a] && Run(w, es).ready == [d, a, b]
  {
    hide Legal, Run, ScannedBy;
    es := TwoReadOneLeft(w, c, a, b, d);
  }
}
