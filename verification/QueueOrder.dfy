/** What order a queue is in after its messages were read, settled and requeued. */
module QueueOrder {
  import opened Records
  import opened Broker
  import opened Session

  function Delivers(c: ChannelId, ms: seq<Message>): seq<Event> {
    if ms == [] then [] else Delivers(c, Front(ms)) + [Deliver(c, Last(ms))]
  }

  function Returns(c: ChannelId, ms: seq<Message>): seq<Event> {
    if ms == [] then [] else Returns(c, Front(ms)) + [Return(c, Last(ms))]
  }

  lemma DeliversSnoc(c: ChannelId, ms: seq<Message>, m: Message)
    ensures Delivers(c, ms + [m]) == Delivers(c, ms) + [Deliver(c, m)]
  {
    assert Front(ms + [m]) == ms;
  }

  lemma ReturnsSnoc(c: ChannelId, ms: seq<Message>, m: Message)
    ensures Returns(c, ms + [m]) == Returns(c, ms) + [Return(c, m)]
  {
    assert Front(ms + [m]) == ms;
  }

  /** Reading takes messages from the head, in order, and nothing else. */
  lemma {:induction false} DeliversRun(w: World, c: ChannelId, ms: seq<Message>)
    requires Legal(w, Delivers(c, ms))
    ensures |ms| <= |w.ready| && ms == w.ready[..|ms|]
    ensures Run(w, Delivers(c, ms)).ready == w.ready[|ms|..]
    ensures Run(w, Delivers(c, ms)).kind == w.kind
  {
    if ms != [] {
      var es, last := Delivers(c, Front(ms)), Deliver(c, Last(ms));
      assert Delivers(c, ms) == es + [last] && Front(es + [last]) == es;
      DeliversRun(w, c, Front(ms));
      LegalSnoc(w, es, last);
      hide Legal, Run, Delivers;
      assert ms == Front(ms) + [Last(ms)];
    }
  }

  /** The messages an event sequence returned, in the order it returned them. */
  function ReturnedBy(es: seq<Event>): seq<Message> {
    if es == [] then [] else ReturnedBy(Front(es)) + (if Last(es).Return? then [Last(es).m] else [])
  }

  lemma {:induction false} ReturnedByConcat(a: seq<Event>, b: seq<Event>)
    ensures ReturnedBy(a + b) == ReturnedBy(a) + ReturnedBy(b)
    decreases |b|
  {
    if b == [] {
      assert a + b == a;
    } else {
      ReturnedByConcat(a, Front(b));
      assert Front(a + b) == a + Front(b) && Last(a + b) == Last(b);
    }
  }

  lemma {:induction false} ReturnedByReturns(c: ChannelId, ms: seq<Message>)
    ensures ReturnedBy(Returns(c, ms)) == ms
  {
    if ms != [] {
      ReturnedByReturns(c, Front(ms));
      assert Front(Returns(c, ms)) == Returns(c, Front(ms));
    }
  }

  lemma NothingSettled()
    ensures ReturnedBy([]) == [] && AckedBy([]) == {}
  {
  }

  /** No message arrives, is read or is put back by the broker: only settling. */
  predicate Settling(es: seq<Event>) {
    forall e | e in es :: e.Publish? || e.Ack? || e.Return?
  }

  lemma {:induction false} SettlingReturns(c: ChannelId, ms: seq<Message>)
    ensures Settling(Returns(c, ms)) && forall e | e in Returns(c, ms) :: e.Return?
  {
    if ms != [] {
      SettlingReturns(c, Front(ms));
    }
  }

  // ------------------------------------------- quorum queues that others publish to meanwhile

  /** What was put at the back of a quorum queue: what arrived and what was returned. */
  function Appended(es: seq<Event>): seq<Message> {
    if es == [] then []
    else Appended(Front(es)) + (if Last(es).Arrive? || Last(es).Return? then [Last(es).m] else [])
  }

  function ArrivedBy(es: seq<Event>): seq<Message> {
    if es == [] then [] else ArrivedBy(Front(es)) + (if Last(es).Arrive? then [Last(es).m] else [])
  }

  predicate NoneRecovered(es: seq<Event>) { forall e | e in es :: !e.Recover? }

  /** Nobody but this channel and publishers was at work. */
  predicate OnlyPublished(es: seq<Event>, c: ChannelId) { forall e | e in es :: By(e, c) || e.Arrive? }

  /**
   A quorum queue is first in, first out, whoever acts on it: what was delivered is a prefix of
   what was there and what was appended since, and the rest of that is what is ready.
   */
  lemma {:induction false} QuorumIsFifo(w: World, es: seq<Event>)
    requires w.kind.Quorum? && Legal(w, es) && NoneRecovered(es)
    ensures var line, k := w.ready + Appended(es), |Read(es)|;
            && k <= |line| && Read(es) == line[..k] && Run(w, es).ready == line[k..] && Run(w, es).kind == w.kind
  {
    if es != [] {
      assert Last(es) in es;
      QuorumIsFifo(w, Front(es));
      hide Enabled, Apply;
      FifoStep(Run(w, Front(es)), Last(es), w.ready + Appended(Front(es)), Read(Front(es)));
      assert w.ready + Appended(es)
          == w.ready + Appended(Front(es)) + (if Last(es).Arrive? || Last(es).Return? then [Last(es).m] else []);
    }
  }

  lemma FifoStep(w: World, e: Event, line: seq<Message>, read: seq<Message>)
    requires w.kind.Quorum? && Enabled(w, e) && !e.Recover?
    requires |read| <= |line| && read == line[..|read|] && w.ready == line[|read|..]
    ensures var line', read' := line + (if e.Arrive? || e.Return? then [e.m] else []),
                                read + (if e.Deliver? then [e.m] else []);
            && |read'| <= |line'| && read' == line'[..|read'|]
            && Apply(w, e).ready == line'[|read'|..] && Apply(w, e).kind == w.kind
  {
    assert line + [] == line && read + [] == read;
  }

  // ------------------------------------------------------------------- classic queues

  /** In arrival order: how a classic queue is kept. */
  ghost predicate InArrivalOrder(ms: seq<Message>) {
    forall i, j | 0 <= i < j < |ms| :: ms[i].id < ms[j].id
  }

  function Kept(ms: seq<Message>, gone: set<Message>): seq<Message> {
    if ms == [] then [] else Kept(Front(ms), gone) + (if Last(ms) in gone then [] else [Last(ms)])
  }

  lemma KeptSnoc(ms: seq<Message>, m: Message, gone: set<Message>)
    ensures Kept(ms + [m], gone) == Kept(ms, gone) + (if m in gone then [] else [m])
    ensures Kept([], gone) == []
  {
    assert Front(ms + [m]) == ms;
  }

  lemma {:induction false} KeptMembers(ms: seq<Message>, gone: set<Message>)
    ensures forall m :: m in Kept(ms, gone) <==> m in ms && m !in gone
    ensures InArrivalOrder(ms) ==> InArrivalOrder(Kept(ms, gone))
  {
    if ms != [] {
      var front, last := Front(ms), Last(ms);
      assert ms == front + [last];
      KeptSnoc(front, last, gone);
      hide Kept;
      KeptMembers(front, gone);
      if InArrivalOrder(ms) {
        var kept := Kept(front, gone);
        forall i | 0 <= i < |kept|
          ensures kept[i].id < last.id
        {
          assert kept[i] in front;
        }
      }
    }
  }

  lemma {:induction false} RestoreKeepsOrder(ready: seq<Message>, m: Message)
    requires InArrivalOrder(ready) && forall x | x in ready :: x.id != m.id
    ensures InArrivalOrder(Restore(ready, m))
  {
    if ready == [] || m.id < ready[0].id {
      InOrderCons(m, ready);
    } else {
      assert forall x | x in ready[1..] :: x in ready;
      RestoreKeepsOrder(ready[1..], m);
      var rest := Restore(ready[1..], m);
      forall x | x in rest
        ensures ready[0].id < x.id
      {
        assert x in multiset(rest);
        assert x in ready[1..] || x == m;
      }
      hide Restore;
      InOrderCons(ready[0], rest);
    }
  }

  lemma InOrderCons(x: Message, rest: seq<Message>)
    requires InArrivalOrder(rest) && (rest != [] ==> forall y | y in rest :: x.id < y.id)
    ensures InArrivalOrder([x] + rest)
  {
    assert forall j | 0 <= j < |rest| :: rest[j] in rest;
  }

  /** A channel that closes puts this message back where a requeue would. */
  predicate PutsInPlace(w: World, e: Event)
    requires Enabled(w, e)
  {
    e.Recover? ==> Apply(w, e).ready == Restore(w.ready, e.m)
  }

  /** Everything keeps a classic queue in arrival order, if closing channels put messages back in place. */
  lemma OrderedStep(w: World, e: Event)
    requires w.kind.Classic? && Accounted(w) && InArrivalOrder(w.ready) && Enabled(w, e) && PutsInPlace(w, e)
    ensures InArrivalOrder(Apply(w, e).ready)
  {
    if e.Return? || e.Recover? {
      RestoredInOrder(w, e.m);
    } else if e.Arrive? {
      forall i | 0 <= i < |w.ready|
        ensures w.ready[i].id < e.m.id
      {
        assert w.ready[i] in multiset(w.ready) && w.ready[i] in multiset(w.arrived);
      }
    }
  }

  lemma RestoredInOrder(w: World, m: Message)
    requires Accounted(w) && InArrivalOrder(w.ready) && m in w.unacked
    ensures InArrivalOrder(Restore(w.ready, m))
  {
    AtMostOnce(w, m);
    forall x | x in w.ready
      ensures x.id != m.id
    {
      assert x in multiset(w.arrived) && m in multiset(w.arrived);
      assert x != m;
    }
    RestoreKeepsOrder(w.ready, m);
  }

  lemma {:induction false} ClassicStaysInOrder(w: World, es: seq<Event>)
    requires w.kind.Classic? && Accounted(w) && InArrivalOrder(w.ready) && Legal(w, es) && NoneRecovered(es)
    ensures InArrivalOrder(Run(w, es).ready) && Run(w, es).kind == w.kind
  {
    if es != [] {
      assert Last(es) in es;
      ClassicStaysInOrder(w, Front(es));
      RunAccounted(w, Front(es));
      OrderedStep(Run(w, Front(es)), Last(es));
    }
  }

  /** Whatever arrives, arrives after all that was there. */
  lemma {:induction false} ArrivesInOrder(w: World, es: seq<Event>)
    requires Legal(w, es)
    ensures InArrivalOrder(ArrivedBy(es))
    ensures forall m :: m in Run(w, es).arrived <==> m in w.arrived || m in ArrivedBy(es)
    ensures forall m, x | m in ArrivedBy(es) && x in w.arrived :: x.id < m.id
  {
    if es != [] {
      ArrivesInOrder(w, Front(es));
      var sofar := ArrivedBy(Front(es));
      if Last(es).Arrive? {
        forall i | 0 <= i < |sofar|
          ensures sofar[i].id < Last(es).m.id
        {
          assert sofar[i] in sofar;
        }
      }
    }
  }

  lemma ArrivesBehind(w: World, es: seq<Event>)
    requires Accounted(w) && Legal(w, es) && InArrivalOrder(w.ready)
    ensures InArrivalOrder(w.ready + ArrivedBy(es))
  {
    var arrived := ArrivedBy(es);
    ArrivesInOrder(w, es);
    forall i, j | 0 <= i < |w.ready| && 0 <= j < |arrived|
      ensures w.ready[i].id < arrived[j].id
    {
      assert w.ready[i] in multiset(w.ready) && w.ready[i] in multiset(w.arrived);
      assert arrived[j] in arrived;
    }
  }

  /** Arrival order leaves only one way to line up a set of messages. */
  lemma {:induction false} OneOrder(a: seq<Message>, b: seq<Message>)
    requires InArrivalOrder(a) && InArrivalOrder(b) && forall m :: m in a <==> m in b
    ensures a == b
  {
    assert |a| > 0 ==> a[0] in a;
    assert |b| > 0 ==> b[0] in b;
    if a != [] && b != [] {
      forall m
        ensures m in a[1..] <==> m in b[1..]
      {
        assert m in a[1..] ==> m in a && m != a[0];
        assert m in b[1..] ==> m in b && m != b[0];
        assert m in a && m != a[0] ==> m in a[1..];
        assert m in b && m != b[0] ==> m in b[1..];
      }
      OneOrder(a[1..], b[1..]);
      assert a == [a[0]] + a[1..] && b == [b[0]] + b[1..];
    }
  }

  /** The messages an event sequence acked. */
  function AckedBy(es: seq<Event>): set<Message> {
    if es == [] then {} else AckedBy(Front(es)) + (if Last(es).Ack? then {Last(es).m} else {})
  }

  lemma {:induction false} AckedByConcat(a: seq<Event>, b: seq<Event>)
    ensures AckedBy(a + b) == AckedBy(a) + AckedBy(b)
    decreases |b|
  {
    if b == [] {
      assert a + b == a;
    } else {
      AckedByConcat(a, Front(b));
      assert Front(a + b) == a + Front(b) && Last(a + b) == Last(b);
    }
  }

  lemma {:induction false} NothingAcked(es: seq<Event>)
    requires forall e | e in es :: !e.Ack?
    ensures AckedBy(es) == {}
  {
    if es != [] {
      assert Last(es) in es;
      NothingAcked(Front(es));
    }
  }

  lemma {:induction false} RunAcked(w: World, es: seq<Event>)
    requires Legal(w, es)
    ensures Run(w, es).acked == w.acked + AckedBy(es)
  {
    if es != [] {
      RunAcked(w, Front(es));
    }
  }

  /**
   Whatever arrived, was read, published, acked and returned, in whatever order and by whomever:
   once nothing is held, a classic queue is what it was and what arrived, without the acked messages.
   */
  lemma ClassicOrder(w: World, es: seq<Event>)
    requires w.kind.Classic? && Accounted(w) && w.unacked == map[] && InArrivalOrder(w.ready)
    requires Legal(w, es) && NoneRecovered(es) && Run(w, es).unacked == map[]
    ensures Run(w, es).ready == Kept(w.ready + ArrivedBy(es), AckedBy(es))
  {
    var w', line := Run(w, es), w.ready + ArrivedBy(es);
    ClassicStaysInOrder(w, es);
    ArrivesBehind(w, es);
    ArrivesInOrder(w, es);
    RunAccounted(w, es);
    RunAcked(w, es);
    hide Legal, Run, InArrivalOrder, Kept, AckedBy, ArrivedBy;
    KeptMembers(line, AckedBy(es));
    forall m
      ensures m in w'.ready <==> m in Kept(line, AckedBy(es))
    {
      InLine(w, w', m);
    }
    OneOrder(w'.ready, Kept(line, AckedBy(es)));
  }

  /** Where a message is when nothing is held, now and before. */
  lemma InLine(w: World, w': World, m: Message)
    requires Accounted(w) && Accounted(w') && w.unacked == map[] && w'.unacked == map[]
    ensures m in w'.ready <==> m in w'.arrived && m !in w'.acked
    ensures m in w.ready <==> m in w.arrived && m !in w.acked
    ensures m in w.acked ==> m in w.arrived
  {
    OnlyReady(w, m);
    OnlyReady(w', m);
  }

  lemma OnlyReady(w: World, m: Message)
    requires Accounted(w) && w.unacked == map[]
    ensures (m in w.ready <==> m in w.arrived && m !in w.acked) && (m in w.acked ==> m in w.arrived)
  {
    AtMostOnce(w, m);
    assert multiset(w.arrived)[m] == multiset(w.ready)[m] + multiset(w.acked)[m];
    assert m in w.ready <==> multiset(w.ready)[m] > 0;
  }

  lemma {:induction false} KeptAll(ms: seq<Message>, gone: set<Message>)
    requires forall m | m in ms :: m !in gone
    ensures Kept(ms, gone) == ms
  {
    if ms != [] {
      var front, last := Front(ms), Last(ms);
      assert ms == front + [last] && last in ms && forall m | m in front :: m in ms;
      KeptSnoc(front, last, gone);
      hide Kept;
      KeptAll(front, gone);
    }
  }

  lemma {:induction false} DeliversOnly(c: ChannelId, ms: seq<Message>)
    ensures forall e | e in Delivers(c, ms) :: e.Deliver?
  {
    if ms != [] {
      DeliversOnly(c, Front(ms));
    }
  }

  /** If nobody but publishers acts beside this channel, and nobody held anything before, only it holds messages. */
  lemma {:induction false} AloneHolds(w: World, es: seq<Event>, c: ChannelId)
    requires Legal(w, es) && OnlyPublished(es, c) && w.unacked == map[]
    ensures forall m | m in Run(w, es).unacked :: Holds(Run(w, es), c, m)
  {
    if es != [] {
      assert es == Front(es) + [Last(es)];
      AloneHolds(w, Front(es), c);
    }
  }

  /** A channel that is alone with its queue has nobody beside it, not even publishers. */
  lemma QuietIsAlone(s: Channel)
    requires s.Valid() && s.quiet
    ensures OnlyPublished(s.log, s.me) && forall e | e in s.log :: !e.Arrive?
  {
    OwnMembers(s.log, s.me);
  }

  lemma {:induction false} NothingArrived(es: seq<Event>)
    requires forall e | e in es :: !e.Arrive?
    ensures ArrivedBy(es) == []
  {
    if es != [] {
      assert es == Front(es) + [Last(es)];
      NothingArrived(Front(es));
    }
  }

  /** A queue with its first k messages moved behind the others. */
  function Rotated(ready: seq<Message>, k: nat): seq<Message>
    requires k <= |ready|
  {
    ready[k..] + ready[..k]
  }

  predicate IsRotated(now: seq<Message>, ready: seq<Message>, k: nat) { k <= |ready| && now == Rotated(ready, k) }

  /** An action from start to end: open, read, settle some of it, return the rest in read order. */
  function RunEvents(c: ChannelId, job: Job, read: seq<Message>, work: seq<Event>, rest: seq<Message>): seq<Event> {
    [Event.Open(c, job)] + Delivers(c, read) + (work + Returns(c, rest))
  }
}
