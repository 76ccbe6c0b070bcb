/**
 One RabbitMQ queue, everyone who holds its messages, and the events that change it.

 An action of QueueLens is a channel with a job. The channels' events, and those of
 publishers, may interleave in any way: `Enabled` says which event may come next.
 For Publish and Ack it asks for the discipline the actions promise: only approved
 messages are published or acked, and an ack of a moved or parked message comes after
 the broker confirmed that same channel's copy. The modules `Browser` and `Operator`
 prove that the code only produces such events.
 */
module Broker {
  import opened Records

  type ChannelId = nat

  /** How a queue takes a message back: classic queues restore its position, quorum queues append it. */
  datatype QueueKind = Classic | Quorum

  datatype Action = Browse | Copy | Move | Park | Delete {
    predicate Publishes() { Copy? || Move? || Park? }
    predicate Removes() { Move? || Park? || Delete? }
  }

  /** What a channel was opened for, and the fingerprints it may act on. */
  datatype Job = Job(action: Action, approved: set<Fingerprint>)

  /** A message of the queue; `id` is the order in which the messages first arrived. */
  datatype Message = Message(id: nat, record: MessageRecord) {
    function Fp(): Fingerprint { record.fingerprint }
  }

  datatype World = World(
    kind: QueueKind,
    arrived: set<Message>,
    ready: seq<Message>,
    unacked: map<Message, ChannelId>,
    acked: set<Message>,
    copies: multiset<(ChannelId, Message)>,  // confirmed at a target: which channel copied what
    jobs: map<ChannelId, Job>)

  datatype Event =
    | Open(c: ChannelId, job: Job)
    | Arrive(m: Message)                            // a publisher's message enters the queue
    | Deliver(c: ChannelId, m: Message)             // basic.get
    | Publish(c: ChannelId, m: Message)             // the broker took a copy of m to the target
    | Ack(c: ChannelId, m: Message)
    | Return(c: ChannelId, m: Message)              // basic.nack with requeue
    | Recover(c: ChannelId, m: Message, at: nat)    // the channel closed: the broker puts m back somewhere

  predicate Holds(w: World, c: ChannelId, m: Message) {
    m in w.unacked && w.unacked[m] == c
  }

  /** Where a classic queue restores m: before the first message that arrived later. */
  function Restore(ready: seq<Message>, m: Message): (r: seq<Message>)
    ensures multiset(r) == multiset(ready) + multiset{m}
  {
    if ready == [] || m.id < ready[0].id then
      assert [m] + ready == [m] + ready[..];
      [m] + ready
    else
      assert ready == [ready[0]] + ready[1..];
      [ready[0]] + Restore(ready[1..], m)
  }

  function PutBack(kind: QueueKind, ready: seq<Message>, m: Message): (r: seq<Message>)
    ensures multiset(r) == multiset(ready) + multiset{m}
  {
    if kind.Classic? then Restore(ready, m) else ready + [m]
  }

  /** Everything before place i arrived no later than m, and what is at place i arrived later. */
  predicate Place(ready: seq<Message>, m: Message, i: int) {
    && 0 <= i <= |ready| && (forall j | 0 <= j < i :: ready[j].id <= m.id) && (i < |ready| ==> m.id < ready[i].id)
  }

  lemma {:induction false} RestorePlace(ready: seq<Message>, m: Message) returns (i: nat)
    ensures Place(ready, m, i) && Restore(ready, m) == ready[..i] + [m] + ready[i..]
  {
    i := 0;
    if ready != [] && m.id >= ready[0].id {
      var rest := ready[1..];
      var k := RestorePlace(rest, m);
      i := k + 1;
      assert forall j | 0 < j < i :: ready[j] == rest[j - 1];
      OnePlaceOn(ready, m, k);
    }
  }

  lemma OnePlaceOn(ready: seq<Message>, m: Message, k: nat)
    requires k < |ready|
    ensures [ready[0]] + (ready[1..][..k] + [m] + ready[1..][k..]) == ready[..k + 1] + [m] + ready[k + 1..]
  {
  }

  /** A returned message goes to the end of a quorum queue, and to its old place in a classic one. */
  lemma PutBackPlace(kind: QueueKind, ready: seq<Message>, m: Message)
    ensures kind.Quorum? ==> PutBack(kind, ready, m) == ready + [m]
    ensures kind.Classic? ==>
              exists i :: Place(ready, m, i) && PutBack(kind, ready, m) == ready[..i] + [m] + ready[i..]
  {
    var i := RestorePlace(ready, m);
  }

  predicate Enabled(w: World, e: Event) {
    match e
    case Open(c, _) => c !in w.jobs
    case Arrive(m) => forall a | a in w.arrived :: a.id < m.id
    case Deliver(c, m) => c in w.jobs && w.ready != [] && m == w.ready[0]
    case Publish(c, m) =>
      && c in w.jobs && Holds(w, c, m)
      && w.jobs[c].action.Publishes() && m.Fp() in w.jobs[c].approved
    case Ack(c, m) =>
      && c in w.jobs && Holds(w, c, m) && m.Fp() in w.jobs[c].approved
      && w.jobs[c].action.Removes()
      && (w.jobs[c].action.Delete? || (c, m) in w.copies)
    case Return(c, m) => Holds(w, c, m)
    case Recover(c, m, at) => Holds(w, c, m) && at <= |w.ready|
  }

  function Apply(w: World, e: Event): World
    requires Enabled(w, e)
  {
    match e
    case Open(c, job) => w.(jobs := w.jobs[c := job])
    case Arrive(m) => w.(arrived := w.arrived + {m}, ready := w.ready + [m])
    case Deliver(c, m) => w.(ready := w.ready[1..], unacked := w.unacked[m := c])
    case Publish(c, m) => w.(copies := w.copies + multiset{(c, m)})
    case Ack(c, m) => w.(unacked := w.unacked - {m}, acked := w.acked + {m})
    case Return(c, m) => w.(unacked := w.unacked - {m}, ready := PutBack(w.kind, w.ready, m))
    case Recover(c, m, at) => w.(unacked := w.unacked - {m}, ready := w.ready[..at] + [m] + w.ready[at..])
  }

  /** A run: every event was enabled when it happened. */
  predicate Legal(w: World, es: seq<Event>)
    decreases |es|, 0
  {
    es == [] || (Legal(w, Front(es)) && Enabled(Run(w, Front(es)), Last(es)))
  }

  function Run(w: World, es: seq<Event>): World
    requires Legal(w, es)
    decreases |es|, 1
  {
    if es == [] then w else Apply(Run(w, Front(es)), Last(es))
  }

  lemma LegalSnoc(w: World, es: seq<Event>, e: Event)
    requires Legal(w, es)
    ensures Legal(w, es + [e]) <==> Enabled(Run(w, es), e)
    ensures Legal(w, es + [e]) ==> Run(w, es + [e]) == Apply(Run(w, es), e)
  {
    assert Front(es + [e]) == es;
  }

  /** Runs compose. */
  lemma {:induction false} LegalConcat(w: World, a: seq<Event>, b: seq<Event>)
    ensures Legal(w, a + b) <==> Legal(w, a) && Legal(Run(w, a), b)
    ensures Legal(w, a + b) ==> Run(w, a + b) == Run(Run(w, a), b)
    decreases |b|
  {
    if b == [] {
      assert a + b == a;
    } else {
      LegalConcat(w, a, Front(b));
      assert Front(a + b) == a + Front(b);
      assert Last(a + b) == Last(b);
    }
  }

  // ---------------------------------------------------------------- no message is lost

  /** A channel's job allowed it to take m off the queue. */
  predicate Justifies(w: World, c: ChannelId, m: Message) {
    && c in w.jobs && m.Fp() in w.jobs[c].approved
    && (w.jobs[c].action.Delete? || (w.jobs[c].action.Removes() && (c, m) in w.copies))
  }

  /** Each message that ever arrived is in exactly one place. */
  ghost predicate Partitioned(w: World) {
    multiset(w.arrived) == multiset(w.ready) + multiset(w.unacked.Keys) + multiset(w.acked)
  }

  /** The invariant: nothing is lost or doubled, and no message left the queue without a reason. */
  ghost predicate Accounted(w: World) {
    && Partitioned(w)
    && (forall m | m in w.acked :: exists c :: Justifies(w, c, m))
    && (forall a, b | a in w.arrived && b in w.arrived && a.id == b.id :: a == b)
  }

  lemma StepPartitioned(w: World, e: Event)
    requires Partitioned(w) && Enabled(w, e)
    ensures Partitioned(Apply(w, e))
  {
    match e {
      case Open(_, _) =>
      case Publish(_, _) =>
      case Arrive(m) =>
        assert m !in w.arrived;
        assert multiset(w.arrived + {m}) == multiset(w.arrived) + multiset{m};
      case Deliver(c, m) =>
        DeliverPartitioned(w, c, m);
      case Ack(c, m) =>
        AckPartitioned(w, c, m);
      case Return(c, m) =>
        Released(w, m);
      case Recover(c, m, at) =>
        Released(w, m);
        assert w.ready == w.ready[..at] + w.ready[at..];
    }
  }

  lemma Released(w: World, m: Message)
    requires m in w.unacked
    ensures multiset(w.unacked.Keys) == multiset((w.unacked - {m}).Keys) + multiset{m}
  {
    assert (w.unacked - {m}).Keys == w.unacked.Keys - {m};
  }

  lemma DeliverPartitioned(w: World, c: ChannelId, m: Message)
    requires Partitioned(w) && Enabled(w, Deliver(c, m))
    ensures Partitioned(Apply(w, Deliver(c, m)))
  {
    assert w.ready == [m] + w.ready[1..];
    AtMostOnce(w, m);
    Released(w.(unacked := w.unacked[m := c]), m);
    assert w.unacked[m := c] - {m} == w.unacked;
  }

  lemma AckPartitioned(w: World, c: ChannelId, m: Message)
    requires Partitioned(w) && Enabled(w, Ack(c, m))
    ensures Partitioned(Apply(w, Ack(c, m)))
  {
    AtMostOnce(w, m);
    Released(w, m);
    assert multiset(w.acked + {m}) == multiset(w.acked) + multiset{m};
  }

  lemma AtMostOnce(w: World, m: Message)
    requires Partitioned(w)
    ensures multiset(w.ready)[m] + multiset(w.unacked.Keys)[m] + multiset(w.acked)[m] <= 1
  {
    assert multiset(w.arrived)[m] <= 1;
  }

  lemma StepAccounted(w: World, e: Event)
    requires Accounted(w) && Enabled(w, e)
    ensures Accounted(Apply(w, e))
  {
    StepPartitioned(w, e);
    var w' := Apply(w, e);
    forall m | m in w'.acked
      ensures exists c :: Justifies(w', c, m)
    {
      if m in w.acked {
        var c: ChannelId :| Justifies(w, c, m);
        assert Justifies(w', c, m);
      } else {
        assert Justifies(w', e.c, m);
      }
    }
  }

  lemma {:induction false} RunAccounted(w: World, es: seq<Event>)
    requires Accounted(w) && Legal(w, es)
    ensures Accounted(Run(w, es))
  {
    if es != [] {
      RunAccounted(w, Front(es));
      StepAccounted(Run(w, Front(es)), Last(es));
    }
  }

  lemma {:induction false} ArrivedGrows(w: World, es: seq<Event>)
    requires Legal(w, es)
    ensures w.arrived <= Run(w, es).arrived
  {
    if es != [] {
      ArrivedGrows(w, Front(es));
    }
  }

  /**
   No message is lost, in any interleaving of scans, single actions and bulk actions that
   may stop anywhere: a message once in the queue is still in it (ready or unacked), or a
   channel that was to move or park it has a confirmed copy, or a delete named it.
   */
  lemma NoLoss(w: World, es: seq<Event>, m: Message)
    requires Accounted(w) && Legal(w, es) && m in w.arrived
    ensures var w' := Run(w, es);
            || m in w'.ready
            || m in w'.unacked
            || (exists c :: c in w'.jobs && w'.jobs[c].action.Removes() && (c, m) in w'.copies)
            || (exists c :: c in w'.jobs && w'.jobs[c] .action.Delete? && m.Fp() in w'.jobs[c].approved)
  {
    var w' := Run(w, es);
    RunAccounted(w, es);
    ArrivedGrows(w, es);
    assert multiset(w'.arrived)[m] == 1;
    if m !in w'.ready && m !in w'.unacked {
      assert multiset(w'.ready)[m] == 0;
      assert m in w'.acked;
      var c :| Justifies(w', c, m);
    }
  }

  /** Nothing is duplicated in the source queue either: each message is in at most one place. */
  lemma InOnePlace(w: World, es: seq<Event>, m: Message)
    requires Accounted(w) && Legal(w, es)
    ensures var w' := Run(w, es);
            multiset(w'.ready)[m]
              + (if m in w'.unacked then 1 else 0)
              + (if m in w'.acked then 1 else 0) == (if m in w'.arrived then 1 else 0)
  {
    RunAccounted(w, es);
    var w' := Run(w, es);
    assert multiset(w'.arrived)[m]
        == multiset(w'.ready)[m] + multiset(w'.unacked.Keys)[m] + multiset(w'.acked)[m];
  }

  /** No channel opened by this run may remove anything. */
  predicate OnlyBrowses(es: seq<Event>) {
    forall e | e in es :: e.Open? ==> e.job.action.Browse?
  }

  /** Browsing never consumes: whatever scans do, and wherever they stop, nothing is published or acked. */
  lemma {:induction false} BrowsingNeverConsumes(w: World, es: seq<Event>)
    requires Accounted(w) && Legal(w, es) && OnlyBrowses(es) && w.jobs == map[]
    ensures var w' := Run(w, es);
            && w'.acked == w.acked && w'.copies == w.copies
            && (forall c | c in w'.jobs :: w'.jobs[c].action.Browse?)
            && (w'.unacked == map[] ==> multiset(w'.ready) == multiset(w'.arrived - w.acked))
  {
    RunAccounted(w, es);
    BrowsingSettlesNothing(w, es);
    var w' := Run(w, es);
    if w'.unacked == map[] {
      forall m: Message
        ensures multiset(w'.ready)[m] == multiset(w'.arrived - w.acked)[m]
      {
        assert multiset(w'.arrived)[m]
            == multiset(w'.ready)[m] + multiset(w'.unacked.Keys)[m] + multiset(w'.acked)[m];
      }
    }
  }

  lemma {:induction false} BrowsingSettlesNothing(w: World, es: seq<Event>)
    requires Legal(w, es) && OnlyBrowses(es) && w.jobs == map[]
    ensures var w' := Run(w, es);
            && w'.acked == w.acked && w'.copies == w.copies
            && (forall c | c in w'.jobs :: w'.jobs[c].action.Browse?)
  {
    if es != [] {
      BrowsingSettlesNothing(w, Front(es));
      assert Last(es) in es;
    }
  }
}
