/**
 One AMQP channel of QueueLens and the queue behind it, with every call able to fail.

 Each call first lets everyone else act (publishers and other channels, in any number of
 legal steps), then succeeds, or raises having been applied or not, with or without the
 channel closing. `log` is everything that happened, `mine` what this channel did.
 */
module Session {
  import opened Records
  import opened Broker

  datatype Error =
    | ChannelInvalid     // aiormq's ChannelInvalidStateError: the channel is closed
    | Undeliverable      // DeliveryError: the publish came back
    | Refused            // the broker refused the publish and closed the channel
    | ConnectionLost     // anything else that can go wrong on the wire
    | UnsafeToBrowse
    | NotFoundUniquely
    | BadTarget
    | UnsupportedAction
    | Uncountable        // nobody can tell how often a message died, and its copy is to be stamped

  datatype Reply<+T> = Ok(value: T) | Raise(error: Error)

  predicate Wire(e: Error) { e.ChannelInvalid? || e.Refused? || e.ConnectionLost? }

  /** What a channel gives a message back for. */
  datatype Purpose =
    | Copying      // the original of a copied message
    | CameBack     // a message whose copy was unroutable
    | GivingBack   // what was read and is not settled

  /** A requeue that raised. */
  datatype RaisedNack = RaisedNack(purpose: Purpose, error: Error) {
    /** It ends a batch with an exception instead of a report. */
    predicate EndsBatch() { purpose.CameBack? || (purpose.GivingBack? && !error.ChannelInvalid?) }
  }

  predicate ReportLost(raised: seq<RaisedNack>) { exists x | x in raised :: x.EndsBatch() }

  lemma LostSnoc(raised: seq<RaisedNack>, x: RaisedNack)
    ensures ReportLost(raised + [x]) <==> ReportLost(raised) || x.EndsBatch()
  {
    assert forall y :: y in raised + [x] <==> y in raised || y == x;
  }

  /** How handing a copy to the broker ended: it confirmed it, it came back, or the call raised otherwise. */
  datatype Fate = Confirmed | Bounced | Lost

  datatype Sending = Sending(m: Message, target: ReplayTarget, fate: Fate)

  /** The copies of messages with this fingerprint that were handed to the broker, in order. */
  function SentOf(sent: seq<Sending>, fp: Fingerprint): seq<Sending> {
    if sent == [] then []
    else SentOf(Front(sent), fp) + (if Last(sent).m.Fp() == fp then [Last(sent)] else [])
  }

  lemma SentSnoc(sent: seq<Sending>, x: Sending)
    ensures forall fp :: SentOf(sent + [x], fp) == SentOf(sent, fp) + (if x.m.Fp() == fp then [x] else [])
    ensures forall fp :: SentOf([], fp) == []
  {
    assert Front(sent + [x]) == sent;
  }

  predicate By(e: Event, c: ChannelId) { !e.Arrive? && e.c == c }

  // ------------------------------------------------------- reading a channel's history

  function Own(es: seq<Event>, c: ChannelId): seq<Event> {
    if es == [] then [] else Own(Front(es), c) + (if By(Last(es), c) then [Last(es)] else [])
  }

  /** The messages delivered, in the order they were read. */
  function Read(es: seq<Event>): seq<Message> {
    if es == [] then [] else Read(Front(es)) + (if Last(es).Deliver? then [Last(es).m] else [])
  }

  /** What was done to messages with this fingerprint: publishes and acks, in order. */
  function On(es: seq<Event>, fp: Fingerprint): seq<Event> {
    if es == [] then []
    else On(Front(es), fp)
         + (if (Last(es).Publish? || Last(es).Ack?) && Last(es).m.Fp() == fp then [Last(es)] else [])
  }

  lemma {:induction false} OwnConcat(a: seq<Event>, b: seq<Event>, c: ChannelId)
    ensures Own(a + b, c) == Own(a, c) + Own(b, c)
    decreases |b|
  {
    hide By;
    if b == [] {
      assert a + b == a;
    } else {
      OwnConcat(a, Front(b), c);
      assert Front(a + b) == a + Front(b) && Last(a + b) == Last(b);
    }
  }

  lemma {:induction false} ReadConcat(a: seq<Event>, b: seq<Event>)
    ensures Read(a + b) == Read(a) + Read(b)
    decreases |b|
  {
    if b == [] {
      assert a + b == a;
    } else {
      ReadConcat(a, Front(b));
      assert Front(a + b) == a + Front(b) && Last(a + b) == Last(b);
    }
  }

  lemma {:induction false} OnConcat(a: seq<Event>, b: seq<Event>, fp: Fingerprint)
    ensures On(a + b, fp) == On(a, fp) + On(b, fp)
    decreases |b|
  {
    if b == [] {
      assert a + b == a;
    } else {
      OnConcat(a, Front(b), fp);
      assert Front(a + b) == a + Front(b) && Last(a + b) == Last(b);
    }
  }

  /** One more event of any kind. */
  lemma Snoc(es: seq<Event>, e: Event)
    ensures forall c :: Own(es + [e], c) == Own(es, c) + (if By(e, c) then [e] else [])
    ensures Read(es + [e]) == Read(es) + (if e.Deliver? then [e.m] else [])
    ensures forall fp ::
              On(es + [e], fp) == On(es, fp) + (if (e.Publish? || e.Ack?) && e.m.Fp() == fp then [e] else [])
  {
    assert Front(es + [e]) == es;
  }

  /** Same messages read, and the same done to each: two histories that differ in requeues only. */
  ghost predicate SameDeeds(a: seq<Event>, b: seq<Event>) {
    Read(a) == Read(b) && forall fp :: On(a, fp) == On(b, fp)
  }

  lemma ReturnIsNoDeed(es: seq<Event>, c: ChannelId, m: Message)
    ensures SameDeeds(es, es + [Return(c, m)])
    ensures forall after :: SameDeeds(es + [Return(c, m)], after) ==> SameDeeds(es, after)
    ensures SameDeeds(es, es)
  {
    hide Read, On;
    Snoc(es, Return(c, m));
  }

  // ------------------------------------------------------------- what others may do

  predicate Foreign(es: seq<Event>, c: ChannelId) {
    forall e | e in es :: !By(e, c)
  }

  /** Others cannot touch what a channel holds, nor its job or its copies. */
  lemma {:induction false} ForeignKeeps(w: World, es: seq<Event>, c: ChannelId)
    requires Accounted(w) && Legal(w, es) && Foreign(es, c)
    ensures Own(es, c) == []
    ensures var w' := Run(w, es);
            && (forall m :: Holds(w', c, m) <==> Holds(w, c, m))
            && (forall m :: w'.copies[(c, m)] == w.copies[(c, m)])
            && (c in w'.jobs <==> c in w.jobs)
            && (c in w.jobs ==> w'.jobs[c] == w.jobs[c])
            && w'.kind == w.kind
            && w.acked <= w'.acked
  {
    if es != [] {
      assert Last(es) in es;
      ForeignKeeps(w, Front(es), c);
      RunAccounted(w, Front(es));
      if Last(es).Deliver? {
        AtMostOnce(Run(w, Front(es)), Last(es).m);
      }
    }
  }

  /** A channel's publishes and acks are in the world for good. */
  lemma {:induction false} DeedsLast(w: World, es: seq<Event>, e: Event)
    requires Legal(w, es) && e in es
    ensures e.Publish? ==> (e.c, e.m) in Run(w, es).copies
    ensures e.Ack? ==> e.m in Run(w, es).acked
  {
    assert es == Front(es) + [Last(es)];
    StepKeepsDeeds(Run(w, Front(es)), Last(es));
    hide Apply, Enabled;
    if e in Front(es) {
      DeedsLast(w, Front(es), e);
    }
  }

  lemma StepKeepsDeeds(w: World, e: Event)
    requires Enabled(w, e)
    ensures w.copies <= Apply(w, e).copies && w.acked <= Apply(w, e).acked
    ensures e.Publish? ==> (e.c, e.m) in Apply(w, e).copies
    ensures e.Ack? ==> e.m in Apply(w, e).acked
  {
  }

  lemma {:induction false} OwnMembers(es: seq<Event>, c: ChannelId)
    ensures forall e | e in Own(es, c) :: e in es && By(e, c)
  {
    if es != [] {
      OwnMembers(Front(es), c);
      assert es == Front(es) + [Last(es)];
    }
  }

  lemma {:induction false} OnMembers(es: seq<Event>, fp: Fingerprint)
    ensures forall e | e in On(es, fp) :: e in es && (e.Publish? || e.Ack?) && e.m.Fp() == fp
  {
    if es != [] {
      OnMembers(Front(es), fp);
      assert es == Front(es) + [Last(es)];
    }
  }

  class Channel {
    const me: ChannelId
    const quiet: bool             // nobody else touches the queue meanwhile, nor is it the target
    ghost const start: World
    var world: World
    var open: bool
    var settled: set<Message>     // the messages whose `processed` flag is set
    ghost var log: seq<Event>
    ghost var mine: seq<Event>
    ghost var job: Option<Job>    // what the channel was opened for
    ghost var faulted: bool       // some call raised or broke the channel
    ghost var raised: seq<RaisedNack>
    ghost var sent: seq<Sending>
    ghost var counted: Option<nat>   // what the last declare found ready

    ghost predicate Tracked()
      reads this
    {
      && Accounted(start) && Legal(start, log) && world == Run(start, log) && world.kind == start.kind
      && mine == Own(log, me)
      && (quiet ==> log == mine)
    }

    ghost predicate Valid()
      reads this
    {
      && Tracked()
      && (open ==> job.Some?)
      && (job.Some? ==> me in world.jobs && world.jobs[me] == job.value)
      && (!open ==> forall m :: !Holds(world, me, m))
    }

    ghost predicate Fresh()
      reads this
    {
      Valid() && !open && job.None? && me !in world.jobs && mine == [] && settled == {} && !faulted
      && raised == [] && sent == [] && counted.None?
    }

    /** Whatever the code above does with a channel, no message of the queue is lost. */
    lemma Safe()
      requires Valid()
      ensures Accounted(world)
    {
      RunAccounted(start, log);
    }

    /** A channel nobody has used yet, alone with its queue. */
    lemma Unused()
      requires Fresh() && quiet
      ensures world == start
    {
    }

    /** What a channel published is confirmed at the target; what it acked is gone from the queue. */
    lemma Happened(fp: Fingerprint, e: Event)
      requires Valid() && e in On(mine, fp)
      ensures e.Publish? ==> (me, e.m) in world.copies
      ensures e.Ack? ==> e.m in world.acked && e.m !in world.ready && e.m !in world.unacked
    {
      OnMembers(mine, fp);
      OwnMembers(log, me);
      DeedsLast(start, log, e);
      Safe();
      if e.Ack? {
        AtMostOnce(world, e.m);
      }
    }

    constructor (me: ChannelId, world: World, quiet: bool)
      requires Accounted(world) && me !in world.jobs && (forall m :: !Holds(world, me, m))
      ensures Fresh() && this.me == me && this.quiet == quiet && this.world == world && start == world
    {
      this.me, this.quiet, this.start, this.world := me, quiet, world, world;
      open, settled, log, mine, job, faulted := false, {}, [], [], None, false;
      raised, sent, counted := [], [], None;
    }

    /** The next event is ours. */
    method Emit(e: Event)
      requires Tracked() && Enabled(world, e) && By(e, me)
      modifies this`world, this`log, this`mine
      ensures Tracked()
      ensures world == Apply(old(world), e) && mine == old(mine) + [e]
    {
      LegalSnoc(start, log, e);
      Snoc(log, e);
      log, mine := log + [e], mine + [e];
      world := Apply(world, e);
    }

    /** Everyone else takes any number of legal steps. */
    method Interfere()
      requires Tracked()
      modifies this`world, this`log
      ensures Tracked()
      ensures quiet ==> world == old(world)
      ensures forall m :: Holds(world, me, m) <==> old(Holds(world, me, m))
      ensures forall m :: world.copies[(me, m)] == old(world.copies[(me, m)])
      ensures me in world.jobs <==> me in old(world.jobs)
      ensures me in world.jobs ==> world.jobs[me] == old(world.jobs)[me]
    {
      var others: seq<Event> := *;
      if !quiet && Legal(world, others) && Foreign(others, me) {
        RunAccounted(start, log);
        ForeignKeeps(world, others, me);
        LegalConcat(start, log, others);
        OwnConcat(log, others, me);
        log := log + others;
        world := Run(world, others);
      }
    }

    /** The channel closes: the broker puts back whatever it still holds, anywhere in the queue. */
    method Close()
      requires Valid()
      modifies this`world, this`log, this`mine, this`open
      ensures Valid() && !open
      ensures SameDeeds(old(mine), mine)
      ensures (forall m :: !old(Holds(world, me, m))) ==> world == old(world) && mine == old(mine)
      ensures world.copies == old(world.copies) && world.acked == old(world.acked)
    {
      var held := set m | m in world.unacked && world.unacked[m] == me;
      while held != {}
        invariant Tracked() && SameDeeds(old(mine), mine)
        invariant forall m :: m in held <==> Holds(world, me, m)
        invariant (forall m :: !old(Holds(world, me, m))) ==> held == {} && world == old(world) && mine == old(mine)
        invariant world.jobs == old(world.jobs)
        invariant world.copies == old(world.copies) && world.acked == old(world.acked)
      {
        var m :| m in held;
        var at: int := *;
        var e := Recover(me, m, if 0 <= at <= |world.ready| then at else |world.ready|);
        Snoc(mine, e);
        Emit(e);
        held := held - {m};
      }
      open := false;
    }

    /** A call raised; the channel may or may not have survived it. */
    method Fault() returns (e: Error)
      requires Valid()
      modifies this`world, this`log, this`mine, this`open, this`faulted
      ensures Valid() && faulted && Wire(e)
      ensures SameDeeds(old(mine), mine)
      ensures open ==> old(open) && forall m :: Holds(world, me, m) <==> old(Holds(world, me, m))
      ensures world.copies == old(world.copies)
    {
      hide Legal, Run, Own, Accounted, Read, On;
      faulted := true;
      var closes: bool := *;
      if closes { Close(); }
      var kind: Error := *;
      e := if Wire(kind) then kind else ConnectionLost;
    }

    /** connection.channel(): from here on the channel acts for this job. */
    method Begin(action: Action, approved: set<Fingerprint>)
      requires Fresh()
      modifies this`world, this`log, this`mine, this`open, this`job
      ensures Valid() && open && job == Some(Job(action, approved))
      ensures mine == [Event.Open(me, Job(action, approved))]
      ensures Read(mine) == [] && (forall fp :: On(mine, fp) == [])
      ensures forall m :: !Holds(world, me, m)
      ensures quiet ==> world.ready == old(world.ready)
    {
      hide Legal, Run, Own, Accounted;
      Interfere();
      ghost var before := world;
      var e := Event.Open(me, Job(action, approved));
      assert [] + [e] == [e];
      Snoc([], e);
      Emit(e);
      assert forall m :: Holds(world, me, m) <==> Holds(before, me, m);
      open := true;
      job := Some(Job(action, approved));
    }

    /** A passive declare: how many messages are ready. */
    method Declare() returns (r: Reply<nat>)
      requires Valid() && (open || faulted)
      modifies this`world, this`log, this`mine, this`open, this`faulted, this`counted
      ensures Valid() && SameDeeds(old(mine), mine)
      ensures r.Raise? ==> Wire(r.error) && faulted
      ensures r.Ok? ==> mine == old(mine) && faulted == old(faulted) && r.value == |world.ready|
      ensures counted == if r.Ok? then Some(r.value) else old(counted)
      ensures open ==> old(open) && forall m :: Holds(world, me, m) <==> old(Holds(world, me, m))
      ensures r.Ok? ==> open
      ensures quiet && r.Ok? ==> world == old(world)
    {
      hide Legal, Run, Own, Accounted, Read, On;
      Interfere();
      var fails: bool := *;
      if !open {
        faulted := true;
        return Raise(ChannelInvalid);
      }
      if fails {
        var e := Fault();
        return Raise(e);
      }
      counted := Some(|world.ready|);
      r := Ok(|world.ready|);
    }

    /** Any other broker call: it does not touch the source queue. */
    method Call() returns (r: Reply<()>)
      requires Valid() && (open || faulted)
      modifies this`world, this`log, this`mine, this`open, this`faulted
      ensures Valid() && SameDeeds(old(mine), mine)
      ensures r.Raise? ==> Wire(r.error) && faulted
      ensures r.Ok? ==> open && mine == old(mine) && faulted == old(faulted)
      ensures open ==> old(open) && forall m :: Holds(world, me, m) <==> old(Holds(world, me, m))
    {
      hide Legal, Run, Own, Accounted, Read, On;
      Interfere();
      if !open {
        faulted := true;
        return Raise(ChannelInvalid);
      }
      var fails: bool := *;
      if fails {
        var e := Fault();
        return Raise(e);
      }
      r := Ok(());
    }

    /** basic.get without auto-ack: the head of the queue, or nothing. */
    method Get() returns (r: Reply<Option<Message>>)
      requires Valid() && (open || faulted)
      modifies this`world, this`log, this`mine, this`open, this`faulted
      ensures Valid()
      ensures r.Raise? ==> Wire(r.error) && faulted && SameDeeds(old(mine), mine)
      ensures r.Raise? && open ==> forall m :: Holds(world, me, m) <==> old(Holds(world, me, m))
      ensures r.Ok? ==> open && faulted == old(faulted)
      ensures r == Ok(None) ==> mine == old(mine) && world.ready == [] && (quiet ==> world == old(world))
      ensures r == Ok(None) ==> forall m :: Holds(world, me, m) <==> old(Holds(world, me, m))
      ensures r.Ok? && r.value.Some? ==>
                var m := r.value.value;
                && mine == old(mine) + [Deliver(me, m)]
                && !old(Holds(world, me, m))
                && (forall x :: Holds(world, me, x) <==> x == m || old(Holds(world, me, x)))
      ensures open ==> old(open)
    {
      hide Legal, Run, Own, Accounted, Read, On;
      Interfere();
      if !open {
        faulted := true;
        return Raise(ChannelInvalid);
      }
      var fails: bool := *;
      if fails {
        var e := Fault();
        return Raise(e);
      }
      if world.ready == [] { return Ok(None); }
      var m := world.ready[0];
      Safe();
      AtMostOnce(world, m);
      Emit(Deliver(me, m));
      r := Ok(Some(m));
    }

    /** The broker applies e, or the call raises, having been applied or not. */
    method Attempt(e: Event) returns (r: Reply<()>)
      requires Valid() && open && Enabled(world, e) && By(e, me)
      requires e.Publish? || e.Ack? || e.Return?
      modifies this`world, this`log, this`mine, this`open, this`faulted
      ensures Valid()
      ensures r.Ok? ==> open && faulted == old(faulted) && mine == old(mine) + [e]
      ensures r.Ok? && e.Publish? ==> (me, e.m) in world.copies
      ensures r.Ok? && e.Ack? ==> e.m in world.acked
      ensures r.Ok? && !e.Publish? ==> !Holds(world, me, e.m)
      ensures r.Raise? ==> Wire(r.error) && faulted
      ensures r.Raise? ==> SameDeeds(old(mine), mine) || SameDeeds(old(mine) + [e], mine)
      ensures open ==> forall x | e.Publish? || x != e.m :: Holds(world, me, x) <==> old(Holds(world, me, x))
    {
      hide Legal, Run, Own, Accounted, Read, On;
      var applied: bool, fails: bool := *, *;
      if applied || !fails { Emit(e); }
      if fails {
        var error := Fault();
        return Raise(error);
      }
      r := Ok(());
    }

    /**
     Publish a copy of m to the target and wait for the broker's confirm. A publish that comes
     back or is refused leaves no confirmed copy; one that raises otherwise may have arrived.
     */
    method Publish(m: Message, target: ReplayTarget) returns (r: Reply<()>)
      requires Valid() && (open || faulted)
      requires open ==> Holds(world, me, m) && job.value.action.Publishes() && m.Fp() in job.value.approved
      modifies this`world, this`log, this`mine, this`open, this`faulted, this`sent
      ensures Valid()
      ensures sent == old(sent)
                + [Sending(m, target, if r.Ok? then Confirmed else if r.error.Undeliverable? then Bounced else Lost)]
      ensures r.Ok? ==> open && faulted == old(faulted) && mine == old(mine) + [Event.Publish(me, m)]
      ensures r.Ok? ==> (me, m) in world.copies
      ensures r.Raise? ==> Wire(r.error) || r.error.Undeliverable?
      ensures r == Raise(Undeliverable) ==> open && faulted == old(faulted) && mine == old(mine)
      ensures r.Raise? && Wire(r.error) ==>
                && faulted
                && (SameDeeds(old(mine), mine) || SameDeeds(old(mine) + [Event.Publish(me, m)], mine))
      ensures open ==> old(open) && forall x :: Holds(world, me, x) <==> old(Holds(world, me, x))
    {
      hide Legal, Run, Own, Accounted, Read, On;
      Interfere();
      var unroutable: bool := *;
      if !open {
        faulted := true;
        r := Raise(ChannelInvalid);
      } else if unroutable {
        r := Raise(Undeliverable);
      } else {
        r := Attempt(Event.Publish(me, m));
      }
      sent := sent
              + [Sending(m, target, if r.Ok? then Confirmed else if r.error.Undeliverable? then Bounced else Lost)];
    }

    /** What this channel was opened for, and what it copied, allow it to remove m. */
    ghost predicate Justified(m: Message)
      reads this
    {
      && job.Some? && m.Fp() in job.value.approved
      && (job.value.action.Delete? || (job.value.action.Removes() && world.copies[(me, m)] > 0))
    }

    lemma MayAck(m: Message)
      requires Valid() && Holds(world, me, m) && Justified(m)
      ensures Enabled(world, Event.Ack(me, m))
    {
    }

    /**
     basic.ack. Its precondition is the discipline: delete what was named, or remove what
     this channel has a confirmed copy of. An ack that raises may have been applied.
     */
    method Ack(m: Message) returns (r: Reply<()>)
      requires Valid() && (open || faulted)
      requires open ==> Holds(world, me, m) && Justified(m)
      modifies this`world, this`log, this`mine, this`open, this`faulted, this`settled
      ensures Valid()
      ensures r.Ok? ==> open && faulted == old(faulted) && mine == old(mine) + [Event.Ack(me, m)]
      ensures r.Ok? ==> m in world.acked && !Holds(world, me, m) && settled == old(settled) + {m}
      ensures r.Raise? ==>
                && Wire(r.error) && faulted && settled == old(settled)
                && (SameDeeds(old(mine), mine) || SameDeeds(old(mine) + [Event.Ack(me, m)], mine))
      ensures open ==> old(open) && forall x | x != m :: Holds(world, me, x) <==> old(Holds(world, me, x))
    {
      hide Legal, Run, Own, Accounted, Read, On;
      Interfere();
      if !open {
        faulted := true;
        return Raise(ChannelInvalid);
      }
      MayAck(m);
      r := Attempt(Event.Ack(me, m));
      if r.Ok? { settled := settled + {m}; }
    }

    /** basic.nack with requeue. Nacking a message the channel no longer holds makes the broker close it. */
    method Nack(m: Message, ghost purpose: Purpose) returns (r: Reply<()>)
      requires Valid() && (faulted || (open && Holds(world, me, m)))
      modifies this`world, this`log, this`mine, this`open, this`faulted, this`settled, this`raised
      ensures Valid() && SameDeeds(old(mine), mine)
      ensures settled == if r.Ok? then old(settled) + {m} else old(settled)
      ensures raised == if r.Raise? then old(raised) + [RaisedNack(purpose, r.error)] else old(raised)
      ensures r.Raise? ==> Wire(r.error) && faulted
      ensures !faulted ==> !old(faulted) && open && r.Ok? && mine == old(mine) + [Return(me, m)]
      ensures open ==> old(open) && forall x | x != m :: Holds(world, me, x) <==> old(Holds(world, me, x))
      ensures open && r.Ok? ==> !Holds(world, me, m)
      ensures r.Ok? && old(open && Holds(world, me, m)) ==> open && faulted == old(faulted)
    {
      ReturnIsNoDeed(mine, me, m);
      hide Legal, Run, Own, Accounted, Read, On, SameDeeds;
      Interfere();
      if !open {
        faulted := true;
        r := Raise(ChannelInvalid);
      } else if Holds(world, me, m) {
        r := Attempt(Return(me, m));
      } else {
        faulted := true;
        Close();
        var raises: bool := *;
        r := if raises then Raise(ChannelInvalid) else Ok(());
      }
      if r.Ok? {
        settled := settled + {m};
      } else {
        raised := raised + [RaisedNack(purpose, r.error)];
      }
    }
  }
}
