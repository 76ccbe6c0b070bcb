/**
 Queues that publishers append to while they are scanned and acted on: what "browsing never
 reorders" means for app/infrastructure/rabbitmq/message_browser.py and when it holds, and where an
 action leaves the messages it read.
 */
module GrowingQueue {
  import opened Records
  import opened Broker
  import opened Session
  import opened QueueOrder

  const SCAN := Job(Browse, {})

  /** Every delivery came before the first return, as in every scan. */
  predicate ReadsFirst(es: seq<Event>) {
    es != [] ==> ReadsFirst(Front(es)) && (Last(es).Deliver? ==> ReturnedBy(Front(es)) == [])
  }

  /** Nothing arrived any more once messages were returned. */
  predicate ArrivalsFirst(es: seq<Event>) {
    es != [] ==> ArrivalsFirst(Front(es)) && (Last(es).Arrive? ==> ReturnedBy(Front(es)) == [])
  }

  /** This run is a scan by c that read `held` and gave it all back, with only publishers beside it. */
  ghost predicate ScannedBy(es: seq<Event>, c: ChannelId, held: seq<Message>) {
    OnlyPublished(es, c) && Own(es, c) == RunEvents(c, SCAN, held, [], held)
  }

  // ----------------------------------------------------- what a scan's own events tell of the run

  lemma {:induction false} OwnTells(es: seq<Event>, c: ChannelId)
    requires OnlyPublished(es, c)
    ensures Read(es) == Read(Own(es, c)) && ReturnedBy(es) == ReturnedBy(Own(es, c))
    ensures AckedBy(es) == AckedBy(Own(es, c))
    ensures ReadsFirst(es) <==> ReadsFirst(Own(es, c))
    ensures NoneRecovered(Own(es, c)) ==> NoneRecovered(es)
  {
    if es != [] {
      var own := Own(Front(es), c);
      assert es == Front(es) + [Last(es)];
      OwnTells(Front(es), c);
      if By(Last(es), c) {
        assert Own(es, c) == own + [Last(es)] && Front(own + [Last(es)]) == own;
        assert forall e | e in own :: e in Own(es, c);
      } else {
        assert Own(es, c) == own;
      }
    }
  }

  lemma OneMore(es: seq<Event>, e: Event)
    ensures ReadsFirst(es + [e]) <==> ReadsFirst(es) && (e.Deliver? ==> ReturnedBy(es) == [])
    ensures NoneRecovered(es + [e]) <==> NoneRecovered(es) && !e.Recover?
    ensures Read(es + [e]) == Read(es) + (if e.Deliver? then [e.m] else [])
    ensures ReturnedBy(es + [e]) == ReturnedBy(es) + (if e.Return? then [e.m] else [])
  {
    assert Front(es + [e]) == es;
    assert forall x :: x in es + [e] <==> x in es || x == e;
  }

  lemma {:induction false} ReadsThenSettles(first: seq<Event>, work: seq<Event>)
    requires ReadsFirst(first) && NoneRecovered(first) && Settling(work)
    ensures ReadsFirst(first + work) && NoneRecovered(first + work)
    ensures Read(first + work) == Read(first) && ReturnedBy(first + work) == ReturnedBy(first) + ReturnedBy(work)
    decreases |work|
  {
    NothingSettled();
    hide ReadsFirst, NoneRecovered, Read, ReturnedBy;
    if work == [] {
      assert first + work == first;
    } else {
      var e := Last(work);
      assert work == Front(work) + [e] && e in work && Settling(Front(work));
      hide Settling;
      ReadsThenSettles(first, Front(work));
      OneMore(Front(work), e);
      OneMore(first + Front(work), e);
      assert first + work == first + Front(work) + [e];
    }
  }

  lemma {:induction false} OnlyReads(first: seq<Event>, c: ChannelId, ms: seq<Message>)
    requires ReadsFirst(first) && NoneRecovered(first) && ReturnedBy(first) == []
    ensures var es := first + Delivers(c, ms);
            ReadsFirst(es) && NoneRecovered(es) && ReturnedBy(es) == [] && Read(es) == Read(first) + ms
  {
    hide ReadsFirst, NoneRecovered, Read, ReturnedBy;
    if ms == [] {
      assert first + Delivers(c, ms) == first;
    } else {
      OnlyReads(first, c, Front(ms));
      OneMore(first + Delivers(c, Front(ms)), Deliver(c, Last(ms)));
      assert first + Delivers(c, ms) == first + Delivers(c, Front(ms)) + [Deliver(c, Last(ms))];
    }
  }

  /** What the events of an action from start to end tell of a run that had only publishers beside it. */
  lemma ActionTells(es: seq<Event>, c: ChannelId, job: Job, read: seq<Message>, work: seq<Event>, rest: seq<Message>)
    requires OnlyPublished(es, c) && Own(es, c) == RunEvents(c, job, read, work, rest) && Settling(work)
    ensures Read(es) == read && ReturnedBy(es) == ReturnedBy(work) + rest && ReadsFirst(es) && NoneRecovered(es)
    ensures AckedBy(es) == AckedBy(work)
  {
    hide Own, Read, ReturnedBy, ReadsFirst, Delivers, Returns, NoneRecovered, OnlyPublished, AckedBy;
    var first, back := [Event.Open(c, job)], Returns(c, rest);
    JustOpened(c, job);
    OwnTells(es, c);
    OnlyReads(first, c, read);
    SettlingReturns(c, rest);
    ReadsThenSettles(first + Delivers(c, read), work + back);
    ReturnedByConcat(work, back);
    ReturnedByReturns(c, rest);
    AckedByConcat(first + Delivers(c, read), work + back);
    AckedByConcat(work, back);
    DeliversOnly(c, read);
    NothingAcked(first + Delivers(c, read));
    NothingAcked(back);
  }

  lemma ScanTells(es: seq<Event>, c: ChannelId, held: seq<Message>)
    requires ScannedBy(es, c, held)
    ensures Read(es) == held && ReturnedBy(es) == held && ReadsFirst(es) && NoneRecovered(es)
  {
    hide Own, Read, ReadsFirst, NoneRecovered, OnlyPublished, RunEvents;
    ActionTells(es, c, SCAN, held, [], held);
    assert [] + held == held;
  }

  lemma JustOpened(c: ChannelId, job: Job)
    ensures var first := [Event.Open(c, job)];
            ReadsFirst(first) && NoneRecovered(first) && ReturnedBy(first) == [] && Read(first) == []
  {
    var first := [Event.Open(c, job)];
    assert Front(first) == [];
  }

  // --------------------------------------------------------------------- how much can be read

  /** Before anything is returned, only arrivals are appended. */
  lemma {:induction false} ArrivalsOnly(es: seq<Event>)
    requires ReturnedBy(es) == []
    ensures Appended(es) == ArrivedBy(es)
  {
    if es != [] {
      ArrivalsOnly(Front(es));
    }
  }

  lemma NextRead(w: World, e: Event, q: seq<Message>, read: seq<Message>)
    requires Enabled(w, e) && e.Deliver? && read <= q && w.ready == q[|read|..]
    ensures read + [e.m] <= q
  {
    assert q[|read|] == w.ready[0];
  }

  lemma RunBefore(w: World, es: seq<Event>, e: Event)
    requires Legal(w, es + [e]) && NoneRecovered(es + [e]) && ReadsFirst(es + [e])
    ensures Legal(w, es) && Enabled(Run(w, es), e) && NoneRecovered(es) && ReadsFirst(es)
    ensures e.Deliver? ==> ReturnedBy(es) == []
    ensures ArrivedBy(es + [e]) == ArrivedBy(es) + (if e.Arrive? then [e.m] else [])
    ensures Read(es + [e]) == Read(es) + (if e.Deliver? then [e.m] else [])
  {
    assert Front(es + [e]) == es && forall x | x in es :: x in es + [e];
  }

  /** A scan reads a prefix of what was there and what arrived. */
  lemma {:induction false} ReadsArrived(w: World, es: seq<Event>)
    requires w.kind.Quorum? && Legal(w, es) && NoneRecovered(es) && ReadsFirst(es)
    ensures Read(es) <= w.ready + ArrivedBy(es)
  {
    if es != [] {
      hide Legal, Run, NoneRecovered, ReadsFirst, Read, ArrivedBy, ReturnedBy, Enabled, Appended;
      var front, e := Front(es), Last(es);
      assert es == front + [e];
      RunBefore(w, front, e);
      ReadsArrived(w, front);
      var q := w.ready + ArrivedBy(front);
      if e.Deliver? {
        QuorumIsFifo(w, front);
        ArrivalsOnly(front);
        NextRead(Run(w, front), e, q, Read(front));
      } else if e.Arrive? {
        assert w.ready + (ArrivedBy(front) + [e.m]) == q + [e.m];
      }
    }
  }

  lemma {:induction false} ArrivalsThenReturns(es: seq<Event>)
    requires ArrivalsFirst(es)
    ensures Appended(es) == ArrivedBy(es) + ReturnedBy(es)
  {
    if es != [] {
      ArrivalsThenReturns(Front(es));
      if Last(es).Arrive? {
        assert ArrivedBy(Front(es)) + [] == ArrivedBy(Front(es));
      }
    }
  }

  // ---------------------------------------------------------------- when the order is kept

  lemma Twice(s: seq<Message>, i: nat, j: nat)
    requires i < j < |s| && s[i] == s[j]
    ensures multiset(s)[s[i]] >= 2
  {
    assert s == s[..j] + [s[j]] + s[j + 1..];
    assert s[i] in s[..j];
  }

  /** A queue with distinct messages is changed by moving some of them, but not all, to the back. */
  lemma RotationShows(q: seq<Message>, k: nat)
    requires k <= |q| && forall m :: multiset(q)[m] <= 1
    ensures Rotated(q, k) == q <==> k == 0 || k == |q|
  {
    if 0 < k < |q| && Rotated(q, k) == q {
      assert Rotated(q, k)[0] == q[k];
      Twice(q, 0, k);
    }
  }

  /** Everything in the queue and everything that arrived is in the queue once, when nothing is removed. */
  lemma LineIsDistinct(w: World, es: seq<Event>, c: ChannelId, held: seq<Message>)
    requires w.kind.Quorum? && Accounted(w) && Legal(w, es) && ScannedBy(es, c, held)
    ensures forall m :: multiset(w.ready + ArrivedBy(es))[m] <= 1
  {
    hide Legal, Run, Accounted, Own, RunEvents, ScannedBy, Appended, ArrivedBy, ReturnedBy, Read, ReadsFirst,
      NoneRecovered;
    ScanTells(es, c, held);
    QuorumIsFifo(w, es);
    AppendedIsBoth(es);
    RunAccounted(w, es);
    SameMessages(w.ready, ArrivedBy(es), Appended(es), held);
    forall m: Message
      ensures multiset(w.ready + ArrivedBy(es))[m] <= 1
    {
      OncePartitioned(Run(w, es), m);
    }
  }

  lemma SameMessages(ready: seq<Message>, arrived: seq<Message>, appended: seq<Message>, held: seq<Message>)
    requires multiset(appended) == multiset(arrived) + multiset(held)
    requires |held| <= |ready + appended| && held == (ready + appended)[..|held|]
    ensures multiset((ready + appended)[|held|..]) == multiset(ready + arrived)
  {
    var line := ready + appended;
    assert line == held + line[|held|..];
    assert multiset(line) == multiset(ready) + multiset(appended);
    assert multiset(line) == multiset(held) + multiset(line[|held|..]);
    forall m: Message
      ensures multiset(line[|held|..])[m] == multiset(ready + arrived)[m]
    {
      assert multiset(line)[m] == multiset(ready)[m] + multiset(appended)[m];
      assert multiset(line)[m] == multiset(held)[m] + multiset(line[|held|..])[m];
    }
  }

  lemma OncePartitioned(w: World, m: Message)
    requires Accounted(w)
    ensures multiset(w.ready)[m] <= 1
  {
    AtMostOnce(w, m);
  }

  lemma {:induction false} AppendedIsBoth(es: seq<Event>)
    ensures multiset(Appended(es)) == multiset(ArrivedBy(es)) + multiset(ReturnedBy(es))
  {
    if es != [] {
      AppendedIsBoth(Front(es));
    }
  }

  /**
   What a scan leaves behind when publishers appended to the queue before it began to give back:
   the queue, arrivals included, rotated by what was read. For a whole scan refused because the
   queue grew that is one more than the depth. The order is kept exactly if nothing was left unread.
   */
  lemma GrownScan(w: World, es: seq<Event>, c: ChannelId, held: seq<Message>)
    requires w.kind.Quorum? && Accounted(w) && Legal(w, es) && ScannedBy(es, c, held) && ArrivalsFirst(es)
    ensures var q := w.ready + ArrivedBy(es);
            && |held| <= |q| && held == q[..|held|]
            && Run(w, es).ready == Rotated(q, |held|)
            && (Run(w, es).ready == q <==> held == [] || |held| == |q|)
  {
    hide Own, RunEvents, Legal, Run, Accounted, ScannedBy, Appended, ArrivedBy, ReturnedBy, Read, ArrivalsFirst,
      ReadsFirst;
    ScanTells(es, c, held);
    QuorumIsFifo(w, es);
    ReadsArrived(w, es);
    ArrivalsThenReturns(es);
    LineIsDistinct(w, es, c, held);
    var q := w.ready + ArrivedBy(es);
    assert w.ready + Appended(es) == q + held;
    assert (q + held)[|held|..] == q[|held|..] + held;
    RotationShows(q, |held|);
  }

  /**
   With publishers at work until the end, exactly: a scan that read anything keeps the order if and
   only if it left nothing unread and nothing arrived between its returns.
   */
  lemma ScanKeepsOrderExactly(w: World, es: seq<Event>, c: ChannelId, held: seq<Message>)
    requires w.kind.Quorum? && Accounted(w) && Legal(w, es) && ScannedBy(es, c, held) && held != []
    ensures var arrived, k := ArrivedBy(es), |held|;
            && k <= |w.ready + arrived|
            && (Run(w, es).ready == w.ready + arrived <==>
                  && k >= |w.ready|
                  && Appended(es) == arrived[..k - |w.ready|] + held + arrived[k - |w.ready|..])
  {
    hide Own, RunEvents, Legal, Run, Accounted, ScannedBy, Appended, ArrivedBy, ReturnedBy, Read, ReadsFirst;
    ScanTells(es, c, held);
    QuorumIsFifo(w, es);
    ReadsArrived(w, es);
    LineIsDistinct(w, es, c, held);
    OrderOfLine(w.ready, ArrivedBy(es), Appended(es), held);
  }

  lemma OrderOfLine(ready: seq<Message>, arrived: seq<Message>, appended: seq<Message>, held: seq<Message>)
    requires var q, k := ready + arrived, |held|; 0 < k <= |q| && held == q[..k] && forall m :: multiset(q)[m] <= 1
    requires var line, k := ready + appended, |held|; k <= |line| && held == line[..k]
    ensures var k := |held|;
            (ready + appended)[k..] == ready + arrived <==>
              k >= |ready| && appended == arrived[..k - |ready|] + held + arrived[k - |ready|..]
  {
    var q, line, k := ready + arrived, ready + appended, |held|;
    assert line == held + line[k..] && q == held + q[k..];
    if line[k..] == q {
      if k < |ready| {
        assert line[k] == ready[k] == q[k] && q[0] == line[k..][0] == line[k];
        Twice(q, 0, k);
      } else {
        assert q[k..] == arrived[k - |ready|..] && held == ready + arrived[..k - |ready|];
        assert line[|ready|..] == appended;
        assert line == ready + (arrived[..k - |ready|] + held + arrived[k - |ready|..]);
      }
    }
    if k >= |ready| && appended == arrived[..k - |ready|] + held + arrived[k - |ready|..] {
      assert held == ready + arrived[..k - |ready|];
      assert line == held + (held + arrived[k - |ready|..]);
      assert q == held + arrived[k - |ready|..];
    }
  }

  // ------------------------------------------------------------------ actions, on both kinds of queue

  /** What was in the queue and what arrived. */
  ghost function Line(s: Channel): seq<Message>
    reads s
  {
    s.start.ready + ArrivedBy(s.log)
  }

  /**
   What an action leaves behind that had only publishers beside it, if no channel closed on it. A
   quorum queue, with arrivals before the first return: what was not read, then what the work gave
   back, then the rest. A classic queue, with arrivals at any time: all of it without what was acked.
   */
  lemma ActionOrder(s: Channel, job: Job, read: seq<Message>, work: seq<Event>, rest: seq<Message>)
    requires s.Valid() && !s.open && OnlyPublished(s.log, s.me)
    requires s.mine == RunEvents(s.me, job, read, work, rest) && Settling(work)
    ensures s.start.kind.Quorum? && ArrivalsFirst(s.log) ==>
              read <= Line(s) && s.world.ready == Line(s)[|read|..] + (ReturnedBy(work) + rest)
    ensures s.start.kind.Classic? && s.start.unacked == map[] && InArrivalOrder(s.start.ready) ==>
              s.world.ready == Kept(Line(s), AckedBy(work))
  {
    hide Own, Legal, Run, Accounted, RunEvents, Appended, ArrivedBy, ReturnedBy, AckedBy, Read, ReadsFirst,
      ArrivalsFirst, OnlyPublished, InArrivalOrder, NoneRecovered, Kept;
    ActionTells(s.log, s.me, job, read, work, rest);
    if s.start.kind.Quorum? {
      if ArrivalsFirst(s.log) {
        QuorumIsFifo(s.start, s.log);
        ReadsArrived(s.start, s.log);
        ArrivalsThenReturns(s.log);
        BehindTheLine(s.start.ready, ArrivedBy(s.log), ReturnedBy(s.log), read);
      }
    } else if s.start.unacked == map[] && InArrivalOrder(s.start.ready) {
      AloneHolds(s.start, s.log, s.me);
      assert s.world.unacked == map[];
      ClassicOrder(s.start, s.log);
    }
  }

  lemma BehindTheLine(ready: seq<Message>, arrived: seq<Message>, returned: seq<Message>, read: seq<Message>)
    requires read <= ready + arrived
    ensures (ready + (arrived + returned))[|read|..] == (ready + arrived)[|read|..] + returned
  {
  }

  /** For a channel that was alone with its queue that is the queue it started from. */
  lemma LineWhenQuiet(s: Channel)
    requires s.Valid() && s.quiet
    ensures Line(s) == s.start.ready && OnlyPublished(s.log, s.me) && ArrivalsFirst(s.log)
  {
    hide Legal, Run, Own, Accounted;
    QuietIsAlone(s);
    NothingArrived(s.log);
    NoArrivals(s.log);
  }

  lemma {:induction false} OwnHas(es: seq<Event>, c: ChannelId)
    ensures forall e | e in es && By(e, c) :: e in Own(es, c)
  {
    if es != [] {
      assert es == Front(es) + [Last(es)];
      OwnHas(Front(es), c);
    }
  }

  lemma {:induction false} OnlyArrivals(w: World, es: seq<Event>)
    requires Legal(w, es) && forall e | e in es :: e.Arrive?
    ensures Run(w, es).ready == w.ready + ArrivedBy(es)
  {
    if es != [] {
      assert es == Front(es) + [Last(es)];
      OnlyArrivals(w, Front(es));
    }
  }

  /** A channel that did nothing left the line as it is. */
  lemma Idle(s: Channel)
    requires s.Valid() && s.mine == [] && OnlyPublished(s.log, s.me)
    ensures s.world.ready == Line(s) && IsRotated(s.world.ready, Line(s), 0)
  {
    OwnHas(s.log, s.me);
    OnlyArrivals(s.start, s.log);
  }

  lemma {:induction false} NoArrivals(es: seq<Event>)
    requires forall e | e in es :: !e.Arrive?
    ensures ArrivalsFirst(es)
  {
    if es != [] {
      assert es == Front(es) + [Last(es)];
      NoArrivals(Front(es));
    }
  }

  // ------------------------------------------------------------- a refusal that reorders

  /** One more event by the scan on channel c, or of a publisher. */
  lemma Goes(w: World, es: seq<Event>, c: ChannelId, e: Event) returns (longer: seq<Event>)
    requires Legal(w, es) && OnlyPublished(es, c) && Enabled(Run(w, es), e) && (By(e, c) || e.Arrive?)
    ensures Legal(w, longer) && Run(w, longer) == Apply(Run(w, es), e) && OnlyPublished(longer, c)
    ensures Own(longer, c) == if e.Arrive? then Own(es, c) else Own(es, c) + [e]
  {
    longer := es + [e];
    LegalSnoc(w, es, e);
    Snoc(es, e);
  }

  /** A quorum queue that holds one message and that nobody uses. */
  predicate JustOne(w: World, a: Message) {
    w.kind.Quorum? && w.arrived == {a} && w.ready == [a] && w.unacked == map[] && w.acked == {} && w.jobs == map[]
  }

  lemma Nothing(w: World, c: ChannelId)
    ensures Legal(w, []) && Run(w, []) == w && Own([], c) == [] && OnlyPublished([], c)
  {
  }

  lemma Grew(w: World, c: ChannelId, a: Message, b: Message, d: Message) returns (es: seq<Event>)
    requires JustOne(w, a) && a.id < b.id < d.id
    ensures Legal(w, es) && OnlyPublished(es, c) && Own(es, c) == [Event.Open(c, SCAN)]
    ensures var w' := Run(w, es); w'.kind.Quorum? && c in w'.jobs && w'.ready == [a, b, d] && w'.unacked == map[]
  {
    hide Legal, Run, Own, OnlyPublished;
    Nothing(w, c);
    es := Goes(w, [], c, Event.Open(c, SCAN));
    assert [] + [Event.Open(c, SCAN)] == [Event.Open(c, SCAN)];
    es := Goes(w, es, c, Arrive(b));
    es := Goes(w, es, c, Arrive(d));
  }

  lemma GrewAndRead(w: World, c: ChannelId, a: Message, b: Message, d: Message) returns (es: seq<Event>)
    requires JustOne(w, a) && a.id < b.id < d.id
    ensures Legal(w, es) && OnlyPublished(es, c) && Own(es, c) == [Event.Open(c, SCAN), Deliver(c, a), Deliver(c, b)]
    ensures var w' := Run(w, es); w'.kind.Quorum? && w'.ready == [d] && Holds(w', c, a) && Holds(w', c, b)
  {
    hide Legal, Run, Own;
    es := Grew(w, c, a, b, d);
    es := Goes(w, es, c, Deliver(c, a));
    es := Goes(w, es, c, Deliver(c, b));
  }

  /** A scan that read two of three messages and gave them back, behind the third. */
  lemma TwoReadOneLeft(w: World, c: ChannelId, a: Message, b: Message, d: Message) returns (es: seq<Event>)
    requires JustOne(w, a) && a.id < b.id < d.id
    ensures Legal(w, es) && ScannedBy(es, c, [a, b]) && Run(w, es).ready == [d, a, b]
  {
    hide Legal, Run, Own, OnlyPublished, RunEvents;
    es := GrewAndRead(w, c, a, b, d);
    es := Goes(w, es, c, Return(c, a));
    es := Goes(w, es, c, Return(c, b));
    TwoReadAndReturned(c, a, b);
  }

  lemma TwoReadAndReturned(c: ChannelId, a: Message, b: Message)
    ensures RunEvents(c, SCAN, [a, b], [], [a, b])
         == [Event.Open(c, SCAN), Deliver(c, a), Deliver(c, b), Return(c, a), Return(c, b)]
  {
    DeliversSnoc(c, [], a);
    DeliversSnoc(c, [a], b);
    ReturnsSnoc(c, [], a);
    ReturnsSnoc(c, [a], b);
    assert [] + [a] == [a] && [a] + [b] == [a, b];
  }

  /** The scans that the code makes of a quorum queue, as the runs above: only publishers beside them. */
  lemma ScanAmongPublishers(s: Channel)
    requires s.Valid() && !s.open && s.start.kind.Quorum? && OnlyPublished(s.log, s.me)
    requires s.mine == RunEvents(s.me, SCAN, Read(s.mine), [], Read(s.mine)) && ArrivalsFirst(s.log)
    ensures var k := |Read(s.mine)|;
            IsRotated(s.world.ready, Line(s), k) && (s.world.ready == Line(s) <==> k == 0 || k == |Line(s)|)
  {
    GrownScan(s.start, s.log, s.me, Read(s.mine));
  }
}
