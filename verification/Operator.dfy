/** Acting on messages, one by one or in bulk: app/infrastructure/rabbitmq/message_operator.py. */
module Operator {
  import opened Records
  import opened Broker
  import opened Session
  import opened QueueOrder
  import opened GrowingQueue
  import opened Browser

  /** The scanned messages with this fingerprint, in read order. */
  function WithFp(ms: seq<Message>, fp: Fingerprint): seq<Message> {
    if ms == [] then [] else WithFp(Front(ms), fp) + (if Last(ms).Fp() == fp then [Last(ms)] else [])
  }

  lemma {:induction false} WithFpMembers(ms: seq<Message>, fp: Fingerprint)
    ensures forall m :: m in WithFp(ms, fp) <==> m in ms && m.Fp() == fp
  {
    if ms != [] {
      WithFpMembers(Front(ms), fp);
      assert ms == Front(ms) + [Last(ms)];
    }
  }

  /** So many of them carry it. */
  lemma {:induction false} WithFpCounts(ms: seq<Message>, fp: Fingerprint)
    ensures |WithFp(ms, fp)| == |set i | 0 <= i < |ms| && ms[i].Fp() == fp|
  {
    var at := set i | 0 <= i < |ms| && ms[i].Fp() == fp;
    if ms == [] {
      assert at == {};
    } else {
      var front := Front(ms);
      WithFpCounts(front, fp);
      var fewer := set i | 0 <= i < |front| && front[i].Fp() == fp;
      OneMoreIn(fewer, at, |front|, Last(ms).Fp() == fp);
    }
  }

  /** What an action does to its message, when it does all of it. */
  function Full(c: ChannelId, action: Action, m: Message): seq<Event> {
    (if action.Publishes() then [Publish(c, m)] else [])
    + (if action.Removes() then [Ack(c, m)] else [])
  }

  /** The same, with the requeue of a copied message. */
  function Middle(c: ChannelId, action: Action, m: Message): seq<Event> {
    match action
    case Browse => []
    case Copy => [Publish(c, m), Return(c, m)]
    case Delete => [Ack(c, m)]
    case _ => [Publish(c, m), Ack(c, m)]
  }

  /** The copy an action hands to the broker, if it hands over one, and what became of it. */
  function Sends(action: Action, m: Message, target: Option<ReplayTarget>, fate: Fate): seq<Sending> {
    if action.Publishes() && target.Some? then [Sending(m, target.value, fate)] else []
  }

  lemma NothingOn()
    ensures Read([]) == [] && forall fp :: On([], fp) == []
  {
  }

  lemma StepsAlone(c: ChannelId, action: Action, m: Message, k: nat)
    requires k <= |Full(c, action, m)|
    ensures var steps := Full(c, action, m)[..k];
            Read(steps) == [] && On(steps, m.Fp()) == steps && forall fp | fp != m.Fp() :: On(steps, fp) == []
  {
    var full := Full(c, action, m);
    NothingOn();
    hide Read, On;
    if k >= 1 {
      Snoc([], full[0]);
      assert full[..1] == [] + [full[0]];
    }
    if k == 2 {
      Snoc(full[..1], full[1]);
      assert full[..2] == full[..1] + [full[1]];
    }
  }

  /** The deeds of the first k steps of an action. */
  lemma StepsDeeds(base: seq<Event>, c: ChannelId, action: Action, m: Message, k: nat)
    requires k <= |Full(c, action, m)|
    ensures var after := base + Full(c, action, m)[..k];
            && Read(after) == Read(base)
            && On(after, m.Fp()) == On(base, m.Fp()) + Full(c, action, m)[..k]
            && (forall fp | fp != m.Fp() :: On(after, fp) == On(base, fp))
  {
    hide On, Read, Full;
    var steps := Full(c, action, m)[..k];
    StepsAlone(c, action, m, k);
    ReadConcat(base, steps);
    forall fp
      ensures On(base + steps, fp) == On(base, fp) + On(steps, fp)
    {
      OnConcat(base, steps, fp);
    }
  }

  /** A target the code will publish to at all. */
  predicate Usable(target: ReplayTarget) {
    if target.kind == "queue" then target.queue.Some? && target.queue.value != ""
    else target.kind == "exchange" && target.exchange.Some? && target.exchange.value != "" && target.routingKey.Some?
  }

  /** The target exists (or, for a parking queue, is created) before anything is published. */
  method EnsureTarget(s: Channel, target: Option<ReplayTarget>) returns (r: Reply<()>)
    requires s.Valid() && (s.open || s.faulted)
    modifies s`world, s`log, s`mine, s`open, s`faulted
    ensures s.Valid() && SameDeeds(old(s.mine), s.mine)
    ensures s.open ==> old(s.open) && forall m :: Holds(s.world, s.me, m) <==> old(Holds(s.world, s.me, m))
    ensures r.Ok? ==> target.Some? && Usable(target.value) && s.open
    ensures !s.faulted ==> s.mine == old(s.mine) && !old(s.faulted) && (old(s.open) ==> s.open)
    ensures r.Ok? ==> s.mine == old(s.mine) && s.faulted == old(s.faulted)
    ensures !s.faulted ==> (r.Ok? <==> target.Some? && Usable(target.value))
    ensures !s.faulted && target.Some? ==>
              (r.Ok? <==>
                 || (target.value.kind == "queue" && target.value.queue.Some? && |target.value.queue.value| > 0)
                 || (target.value.kind == "exchange" && target.value.exchange.Some?
                     && |target.value.exchange.value| > 0 && target.value.routingKey.Some?))
    ensures r.Raise? && !s.faulted ==> r.error.BadTarget?
  {
    hide Legal, Run, Own, Accounted;
    if target.None? || !Usable(target.value) {
      return Raise(BadTarget);
    }
    r := s.Call();
  }

  /** The copy is to say how often its original died, and nobody can tell. */
  predicate Unstampable(action: Action, stamp: bool, m: Message) {
    action.Publishes() && !action.Park? && stamp && !Countable(m.record.xDeath, m.record.stamp)
  }

  /**
   Publish before settling: the ack comes only after the broker confirmed the copy. A copy that
   cannot be stamped, or comes back, changes nothing; a call that raises leaves the first k steps
   of the action. `published` is all the caller knows of k. One copy is handed to the broker, for
   this target, or none.
   */
  method ActOn(s: Channel, action: Action, m: Message, target: Option<ReplayTarget>, stamp: bool)
    returns (published: bool, r: Reply<()>, ghost k: nat)
    requires s.Valid() && s.job.Some? && s.job.value.action == action && m.Fp() in s.job.value.approved
    requires !action.Browse? && (s.open || s.faulted) && (s.open ==> Holds(s.world, s.me, m))
    requires action.Publishes() ==> target.Some?
    modifies s`world, s`log, s`mine, s`open, s`faulted, s`settled, s`raised, s`sent
    ensures s.Valid()
    ensures s.sent == old(s.sent)
              + (if Unstampable(action, stamp, m) then []
                 else Sends(action, m, target,
                            if published then Confirmed else if r == Raise(Undeliverable) then Bounced else Lost))
    ensures k <= |Full(s.me, action, m)| && SameDeeds(old(s.mine) + Full(s.me, action, m)[..k], s.mine)
    ensures published ==> action.Publishes() && k >= 1
    ensures !published && r.Raise? ==> k <= 1
    ensures r.Ok? ==> k == |Full(s.me, action, m)| && published == action.Publishes()
    ensures s.settled == if r.Ok? then old(s.settled) + {m} else old(s.settled)
    ensures r.Ok? && !s.faulted ==>
              !old(s.faulted) && s.open && s.mine == old(s.mine) + Middle(s.me, action, m) && !Holds(s.world, s.me, m)
    ensures r.Ok? && action.Removes() ==> m in s.world.acked
    ensures r.Ok? && old(s.open) ==> s.faulted == old(s.faulted)
    ensures r == Raise(Uncountable) <==> Unstampable(action, stamp, m)
    ensures r.Raise? && !Wire(r.error) ==>
              && (r.error.Undeliverable? || r.error.Uncountable?) && action.Publishes() && !published && k == 0
              && s.open == old(s.open) && s.faulted == old(s.faulted) && s.mine == old(s.mine)
              && (s.open ==> Holds(s.world, s.me, m))
    ensures r.Raise? && Wire(r.error) ==> s.faulted
    ensures ReportLost(s.raised) == old(ReportLost(s.raised))
    ensures s.open ==> old(s.open) && forall x | x != m :: Holds(s.world, s.me, x) <==> old(Holds(s.world, s.me, x))
  {
    hide Legal, Run, Own, Accounted, Read, On;
    published, k := false, 0;
    ghost var base, full := s.mine, Full(s.me, action, m);
    assert base + full[..0] == base;
    if action.Publishes() {
      if stamp && !action.Park? && !Countable(m.record.xDeath, m.record.stamp) {
        return false, Raise(Uncountable), 0;
      }
      assert full[..1] == [Event.Publish(s.me, m)];
      r := s.Publish(m, target.value);
      if r.Raise? {
        k := if SameDeeds(base, s.mine) then 0 else 1;
        return;
      }
      published, k := true, 1;
    }
    ghost var mid := s.mine;
    assert mid == base + full[..k];
    r := SettleOne(s, action, m);
    if action.Removes() {
      assert mid + [Event.Ack(s.me, m)] == base + full;
      assert full[..|full|] == full;
      if r.Ok? || !SameDeeds(mid, s.mine) {
        k := |full|;
      }
    }
    assert action.Publishes() ==> base + [Event.Publish(s.me, m)] == mid;
  }

  /** The second half: give a copied message back, remove any other. */
  method SettleOne(s: Channel, action: Action, m: Message) returns (r: Reply<()>)
    requires s.Valid() && s.job.Some? && s.job.value.action == action && m.Fp() in s.job.value.approved
    requires (s.open || s.faulted) && (s.open ==> Holds(s.world, s.me, m))
    requires s.open && action.Publishes() ==> (s.me, m) in s.world.copies
    requires !action.Browse?
    modifies s`world, s`log, s`mine, s`open, s`faulted, s`settled, s`raised
    ensures s.Valid()
    ensures s.settled == if r.Ok? then old(s.settled) + {m} else old(s.settled)
    ensures r.Raise? ==> Wire(r.error) && s.faulted
    ensures ReportLost(s.raised) == old(ReportLost(s.raised))
    ensures action.Copy? || (r.Raise? && SameDeeds(old(s.mine), s.mine))
              || SameDeeds(old(s.mine) + [Event.Ack(s.me, m)], s.mine)
    ensures action.Copy? ==> SameDeeds(old(s.mine), s.mine)
    ensures r.Ok? && action.Removes() ==> m in s.world.acked
    ensures r.Ok? && old(s.open) ==> s.faulted == old(s.faulted)
    ensures r.Ok? && !s.faulted ==>
              && !old(s.faulted) && s.open && !Holds(s.world, s.me, m)
              && s.mine == old(s.mine) + [if action.Copy? then Return(s.me, m) else Event.Ack(s.me, m)]
    ensures s.open ==> old(s.open) && forall x | x != m :: Holds(s.world, s.me, x) <==> old(Holds(s.world, s.me, x))
  {
    hide Legal, Run, Own, Accounted, Read, On;
    if action.Copy? {
      ghost var raised := s.raised;
      r := s.Nack(m, Copying);
      if r.Raise? { LostSnoc(raised, RaisedNack(Copying, r.error)); }
    } else {
      r := s.Ack(m);
    }
  }

  /** Give back what is unsettled and close; a channel that is already closed has done so itself. */
  method RequeueUnprocessed(s: Channel, messages: seq<Message>) returns (r: Reply<()>)
    requires s.Valid() && Distinct(messages)
    requires !s.faulted ==> s.open && forall m | m in messages :: Holds(s.world, s.me, m) || m in s.settled
    modifies s`world, s`log, s`mine, s`open, s`faulted, s`settled, s`raised
    ensures s.Valid() && SameDeeds(old(s.mine), s.mine)
    ensures r.Raise? ==> Wire(r.error) && !r.error.ChannelInvalid? && s.faulted
    ensures ReportLost(s.raised) <==> old(ReportLost(s.raised)) || r.Raise?
    ensures !s.faulted ==>
              !old(s.faulted) && r.Ok? && s.mine == old(s.mine) + Returns(s.me, Kept(messages, old(s.settled)))
    ensures !s.faulted && s.open ==>
              forall m :: Holds(s.world, s.me, m) ==>
                old(Holds(s.world, s.me, m)) && (m !in messages || m in old(s.settled))
  {
    hide Legal, Run, Own, Accounted, Read, On, Kept, Returns;
    assert s.settled + Only(None) == s.settled;
    ghost var raised := s.raised;
    r := Requeue(s, messages, None);
    if r.Raise? { LostSnoc(raised, RaisedNack(GivingBack, r.error)); }
    if r == Raise(ChannelInvalid) {
      r := Ok(());
    }
  }

  /** The error path of an action: everything unsettled goes back, then the channel closes. */
  method Abandon(s: Channel, held: seq<Message>, error: Error) returns (e: Error)
    requires s.Valid() && Distinct(held)
    requires !s.faulted ==> s.open && forall m :: Holds(s.world, s.me, m) <==> m in held && m !in s.settled
    modifies s`world, s`log, s`mine, s`open, s`faulted, s`settled, s`raised
    ensures s.Valid() && !s.open && SameDeeds(old(s.mine), s.mine)
    ensures !s.faulted ==>
              !old(s.faulted) && e == error && s.mine == old(s.mine) + Returns(s.me, Kept(held, old(s.settled)))
    ensures e == error || (Wire(e) && s.faulted)
    ensures old(ReportLost(s.raised)) ==> ReportLost(s.raised)
  {
    hide Legal, Run, Own, Accounted, Read, On, Kept, Returns;
    var back := RequeueUnprocessed(s, held);
    s.Close();
    e := if back.Raise? then back.error else error;
  }

  /** Which of the scanned messages carry the fingerprint. */
  method Matches(scanned: seq<Message>, fp: Fingerprint) returns (matches: seq<Message>)
    ensures matches == WithFp(scanned, fp)
  {
    matches := [];
    for i := 0 to |scanned|
      invariant matches == WithFp(scanned[..i], fp)
    {
      assert scanned[..i + 1] == scanned[..i] + [scanned[i]];
      assert Front(scanned[..i + 1]) == scanned[..i];
      if scanned[i].Fp() == fp {
        matches := matches + [scanned[i]];
      }
    }
    assert scanned[..|scanned|] == scanned;
  }

  /** No more than one copy of m was handed to the broker, for the target of the action. */
  ghost predicate SentRightly(action: Action, m: Message, target: Option<ReplayTarget>, sent: seq<Sending>) {
    sent == [] || (action.Publishes() && |sent| == 1 && sent[0].m == m && target == Some(sent[0].target))
  }

  /** Why an action on an unbroken channel may still refuse. */
  ghost predicate Refused(e: Error, action: Action, target: Option<ReplayTarget>, stamp: bool, limit: nat,
                          whole: bool, counted: Option<nat>, read: seq<Message>, fp: Fingerprint)
  {
    match e
    case UnsafeToBrowse => TooDeep(counted, limit, whole, read)
    case NotFoundUniquely => |WithFp(read, fp)| != 1
    case BadTarget => action.Publishes() && !(target.Some? && Usable(target.value))
    case UnsupportedAction => action.Browse?
    case Undeliverable => action.Publishes() && |WithFp(read, fp)| == 1
    case Uncountable => |WithFp(read, fp)| == 1 && Unstampable(action, stamp, WithFp(read, fp)[0])
    case _ => false
  }

  /** The one message with this fingerprint, if there is one, got a prefix of the action, and no other got anything. */
  ghost predicate DidPrefix(c: ChannelId, fp: Fingerprint, action: Action, read: seq<Message>, mine: seq<Event>) {
    var matches := WithFp(read, fp);
    && (forall other | other != fp :: On(mine, other) == [])
    && (if |matches| == 1 then On(mine, fp) <= Full(c, action, matches[0]) else On(mine, fp) == [])
  }

  lemma SamePrefix(c: ChannelId, fp: Fingerprint, action: Action, read: seq<Message>, before: seq<Event>,
                   after: seq<Event>)
    requires DidPrefix(c, fp, action, read, before) && SameDeeds(before, after)
    ensures DidPrefix(c, fp, action, read, after) && Read(after) == Read(before) && On(after, fp) == On(before, fp)
  {
    hide On, Read, WithFp, Full;
  }

  lemma NothingDoneTo(c: ChannelId, fp: Fingerprint, action: Action, read: seq<Message>, mine: seq<Event>)
    requires forall f :: On(mine, f) == []
    ensures DidPrefix(c, fp, action, read, mine) && On(mine, fp) == []
  {
    hide On, WithFp, Full;
    var none: seq<Event> := [];
    forall m
      ensures On(mine, fp) <= Full(c, action, m)
    {
      assert On(mine, fp) == none;
    }
  }

  /** What was handed to the broker: nothing, or the one message found; without a fault just what the reply says. */
  ghost predicate SentAs(action: Action, target: Option<ReplayTarget>, matches: seq<Message>, sent: seq<Sending>,
                         faulted: bool, r: Reply<MessageRecord>)
  {
    && (if |matches| == 1 then SentRightly(action, matches[0], target, sent) else sent == [])
    && (r.Ok? ==> |matches| == 1 && sent == Sends(action, matches[0], target, Confirmed))
    && (!faulted && r.Raise? ==>
          sent == if r.error.Undeliverable? && |matches| == 1 then Sends(action, matches[0], target, Bounced) else [])
  }

  lemma SentNothing(action: Action, target: Option<ReplayTarget>, matches: seq<Message>, e: Error)
    ensures !e.Undeliverable? ==> forall faulted :: SentAs(action, target, matches, [], faulted, Raise(e))
    ensures SentAs(action, target, matches, [], true, Raise(e))
  {
  }

  lemma SentAll(action: Action, m: Message, target: Option<ReplayTarget>, fate: Fate)
    requires action.Publishes() ==> fate.Confirmed?
    ensures SentAs(action, target, [m], Sends(action, m, target, fate), false, Ok(m.record))
  {
  }

  /** A later fault changes nothing about what was sent. */
  lemma SentStill(action: Action, target: Option<ReplayTarget>, matches: seq<Message>, sent: seq<Sending>,
                  before: bool, r: Reply<MessageRecord>, after: bool, e: Error)
    requires SentAs(action, target, matches, sent, before, r) && (!after ==> !before && r == Raise(e))
    ensures SentAs(action, target, matches, sent, after, Raise(e))
  {
  }

  /** What `Operate` did, in its own words and in the channel's history. */
  ghost predicate Operated(s: Channel, fp: Fingerprint, action: Action, target: Option<ReplayTarget>, stamp: bool,
                           limit: nat, whole: bool, read: seq<Message>, r: Reply<MessageRecord>)
    reads s
  {
    var matches := WithFp(read, fp);
    && Read(s.mine) == read
    && DidPrefix(s.me, fp, action, read, s.mine)
    && SentAs(action, target, matches, s.sent, s.faulted, r)
    && (r.Ok? ==>
          && !s.faulted && |matches| == 1 && r.value == matches[0].record && !Unstampable(action, stamp, matches[0])
          && On(s.mine, fp) == Full(s.me, action, matches[0]))
    && (!s.faulted && r.Raise? ==>
          On(s.mine, fp) == [] && Refused(r.error, action, target, stamp, limit, whole, s.counted, read, fp))
    && (!s.faulted ==>
          s.mine == if r.Ok?
            then RunEvents(s.me, Job(action, {fp}), read, Middle(s.me, action, matches[0]), Kept(read, {matches[0]}))
            else RunEvents(s.me, Job(action, {fp}), read, [], read))
  }

  lemma RefusedNow(s: Channel, fp: Fingerprint, action: Action, target: Option<ReplayTarget>, stamp: bool, limit: nat,
                   whole: bool, held: seq<Message>, e: Error)
    requires Read(s.mine) == held && DidPrefix(s.me, fp, action, held, s.mine)
    requires SentAs(action, target, WithFp(held, fp), s.sent, s.faulted, Raise(e))
    requires !s.faulted ==>
               && On(s.mine, fp) == [] && Refused(e, action, target, stamp, limit, whole, s.counted, held, fp)
               && s.mine == [Event.Open(s.me, Job(action, {fp}))] + Delivers(s.me, held) + Returns(s.me, Kept(held, {}))
    ensures Operated(s, fp, action, target, stamp, limit, whole, held, Raise(e))
  {
    hide Read, On, Refused, WithFp, Delivers, Returns, DidPrefix, SentAs, Kept;
    KeptAll(held, {});
    assert [] + Returns(s.me, held) == Returns(s.me, held);
    var sofar := [Event.Open(s.me, Job(action, {fp}))] + Delivers(s.me, held);
    assert sofar + Returns(s.me, held) == sofar + [] + Returns(s.me, held);
  }

  /** The except branch of `operate`. */
  method Refuse(s: Channel, fp: Fingerprint, action: Action, target: Option<ReplayTarget>, stamp: bool, limit: nat,
                whole: bool, held: seq<Message>, error: Error) returns (r: Reply<MessageRecord>)
    requires s.Valid() && Distinct(held) && s.settled == {} && Read(s.mine) == held
    requires DidPrefix(s.me, fp, action, held, s.mine)
    requires SentAs(action, target, WithFp(held, fp), s.sent, s.faulted, Raise(error))
    requires !s.faulted ==>
               && Refused(error, action, target, stamp, limit, whole, s.counted, held, fp) && On(s.mine, fp) == []
               && s.mine == [Event.Open(s.me, Job(action, {fp}))] + Delivers(s.me, held)
               && s.open && (forall m :: Holds(s.world, s.me, m) <==> m in held)
    modifies s`world, s`log, s`mine, s`open, s`faulted, s`settled, s`raised
    ensures s.Valid() && !s.open && r.Raise? && (!s.faulted ==> !old(s.faulted) && r == Raise(error))
    ensures Operated(s, fp, action, target, stamp, limit, whole, held, r)
  {
    hide Legal, Run, Own, Accounted, Read, On, Refused, WithFp, Delivers, Returns, DidPrefix, SameDeeds, SentAs, Kept,
      Operated;
    ghost var before, faulted := s.mine, s.faulted;
    var e := Abandon(s, held, error);
    SamePrefix(s.me, fp, action, held, before, s.mine);
    SentStill(action, target, WithFp(held, fp), s.sent, faulted, Raise(error), s.faulted, e);
    RefusedNow(s, fp, action, target, stamp, limit, whole, held, e);
    r := Raise(e);
  }

  /** The success branch of `operate`, from the moment the message is settled. */
  method Finish(s: Channel, fp: Fingerprint, action: Action, target: Option<ReplayTarget>, stamp: bool, limit: nat,
                whole: bool, held: seq<Message>, message: Message, ghost before: seq<Event>)
    returns (r: Reply<MessageRecord>)
    requires s.Valid() && Distinct(held) && s.settled == {message} && Read(s.mine) == held
    requires WithFp(held, fp) == [message] && message in held && message.Fp() == fp
    requires !Unstampable(action, stamp, message)
    requires SentAs(action, target, [message], s.sent, false, Ok(message.record))
    requires DidPrefix(s.me, fp, action, held, s.mine) && On(s.mine, fp) == Full(s.me, action, message)
    requires before == [Event.Open(s.me, Job(action, {fp}))] + Delivers(s.me, held)
    requires !s.faulted && s.open && s.mine == before + Middle(s.me, action, message)
    requires forall m :: Holds(s.world, s.me, m) <==> m in held && m != message
    modifies s`world, s`log, s`mine, s`open, s`faulted, s`settled, s`raised
    ensures s.Valid() && !s.open && (!s.faulted ==> r.Ok?)
    ensures Operated(s, fp, action, target, stamp, limit, whole, held, r)
  {
    hide Legal, Run, Own, Accounted, Read, On, WithFp, Delivers, Returns, Full, Middle, Kept, DidPrefix, SameDeeds,
      SentAs, Refused;
    ghost var mid := s.mine;
    assert {message} + Only(Some(message)) == {message};
    var back := Requeue(s, held, Some(message));
    SamePrefix(s.me, fp, action, held, mid, s.mine);
    if back.Raise? {
      mid := s.mine;
      var e := Abandon(s, held, back.error);
      SamePrefix(s.me, fp, action, held, mid, s.mine);
      SentStill(action, target, [message], s.sent, false, Ok(message.record), s.faulted, e);
      return Raise(e);
    }
    mid := s.mine;
    ghost var job, work, rest := Job(action, {fp}), Middle(s.me, action, message), Kept(held, {message});
    s.Close();
    SamePrefix(s.me, fp, action, held, mid, s.mine);
    assert before + work + Returns(s.me, rest) == RunEvents(s.me, job, held, work, rest);
    r := Ok(message.record);
  }

  /**
   One action on the one message with this fingerprint: scan, match, publish, settle, give
   the others back. With zero or several matches everything goes back.
   */
  method OperateSteps(s: Channel, fp: Fingerprint, action: Action, target: Option<ReplayTarget>, stamp: bool,
                      limit: nat, whole: bool)
    returns (read: seq<Message>, r: Reply<MessageRecord>)
    requires s.Fresh()
    modifies s
    ensures s.Valid() && !s.open
    ensures Operated(s, fp, action, target, stamp, limit, whole, read, r)
    ensures s.quiet && !s.faulted && r.Ok? ==> read == Visible(s.start.ready, limit, whole)
    ensures s.quiet && !s.faulted && whole ==> read == [] || read == s.start.ready
    ensures s.quiet && !s.faulted ==>
              (r == Raise(UnsafeToBrowse)
               <==> if whole then |s.start.ready| > limit else limit == 0 && s.start.ready != [])
  {
    hide Legal, Run, Own, Accounted, Read, On, WithFp, Delivers, Returns, Full, Middle, SeesAlone, SentAs, Operated,
      Visible, StopsRightly, DidPrefix, Distinct;
    var ready, fetched;
    read, ready, fetched := ReadQueue(s, action, {fp}, limit, whole, None);
    RefusesDeep(s, fetched, limit, whole, ready, read, action, target, stamp, fp);
    NothingDoneTo(s.me, fp, action, read, s.mine);
    if fetched.Raise? {
      SentNothing(action, target, WithFp(read, fp), fetched.error);
      r := Refuse(s, fp, action, target, stamp, limit, whole, read, fetched.error);
      return;
    }
    var matches := Matches(read, fp);
    if |matches| != 1 {
      SentNothing(action, target, matches, NotFoundUniquely);
      r := Refuse(s, fp, action, target, stamp, limit, whole, read, NotFoundUniquely);
      return;
    }
    r := OperateOn(s, fp, action, target, stamp, limit, whole, read, matches[0]);
    OperatedMeans(s, fp, action, target, stamp, limit, whole, read, r);
  }

  /** Why a read is refused, and when it is if the channel is alone with its queue. */
  lemma RefusesDeep(s: Channel, fetched: Reply<Option<Stop>>, limit: nat, whole: bool, ready: nat, read: seq<Message>,
                    action: Action, target: Option<ReplayTarget>, stamp: bool, fp: Fingerprint)
    requires StopsRightly(read, fetched, limit, whole, None, ready) && (!s.faulted ==> s.counted == Some(ready))
    ensures !s.faulted && fetched == Raise(UnsafeToBrowse) ==>
              Refused(UnsafeToBrowse, action, target, stamp, limit, whole, s.counted, read, fp)
    ensures s.counted.Some? && SeesAlone(s.start.ready, s.counted, limit, whole, read, fetched.Raise?) ==>
              && (fetched.Raise? <==> if whole then |s.start.ready| > limit else limit == 0 && s.start.ready != [])
              && (fetched.Ok? ==> !TooDeep(s.counted, limit, whole, read))
  {
    hide WithFp, Unstampable;
  }

  lemma OperatedMeans(s: Channel, fp: Fingerprint, action: Action, target: Option<ReplayTarget>, stamp: bool,
                      limit: nat, whole: bool, read: seq<Message>, r: Reply<MessageRecord>)
    requires Operated(s, fp, action, target, stamp, limit, whole, read, r)
    ensures r.Ok? ==> !s.faulted
    ensures !s.faulted && r == Raise(UnsafeToBrowse) ==> TooDeep(s.counted, limit, whole, read)
  {
    hide Read, On, WithFp, Delivers, Returns, Full, Middle, SentAs, DidPrefix, Unstampable, TooDeep;
  }

  method OperateOn(s: Channel, fp: Fingerprint, action: Action, target: Option<ReplayTarget>, stamp: bool, limit: nat,
                   whole: bool, held: seq<Message>, message: Message) returns (r: Reply<MessageRecord>)
    requires s.Valid() && s.job == Some(Job(action, {fp})) && s.settled == {} && Distinct(held) && s.sent == []
    requires Read(s.mine) == held && (forall f :: On(s.mine, f) == []) && WithFp(held, fp) == [message]
    requires s.open ==> forall m :: Holds(s.world, s.me, m) <==> m in held
    requires !s.faulted && s.open && s.mine == [Event.Open(s.me, Job(action, {fp}))] + Delivers(s.me, held)
    modifies s`world, s`log, s`mine, s`open, s`faulted, s`settled, s`raised, s`sent
    ensures s.Valid() && !s.open
    ensures Operated(s, fp, action, target, stamp, limit, whole, held, r)
  {
    hide Legal, Run, Own, Accounted, Read, On, WithFp, Delivers, Returns, Full, Middle, SameDeeds, DidPrefix, SentAs,
      Operated, Distinct, Usable;
    assert message in held && message.Fp() == fp by {
      WithFpMembers(held, fp);
      assert message in [message];
    }
    NothingDoneTo(s.me, fp, action, held, s.mine);
    ghost var before := s.mine;
    if action.Publishes() {
      var ensured := EnsureTarget(s, target);
      SamePrefix(s.me, fp, action, held, before, s.mine);
      if ensured.Raise? {
        SentNothing(action, target, [message], ensured.error);
        r := Refuse(s, fp, action, target, stamp, limit, whole, held, ensured.error);
        return;
      }
    }
    if action.Browse? {
      SentNothing(action, target, [message], UnsupportedAction);
      r := Refuse(s, fp, action, target, stamp, limit, whole, held, UnsupportedAction);
      return;
    }
    before := s.mine;
    var published, acted;
    ghost var k;
    published, acted, k := ActOn(s, action, message, target, stamp);
    PrefixDone(before, s.mine, s.me, fp, action, held, message, k);
    if acted.Raise? {
      RefusedActing(s, action, message, target, stamp, published, acted.error, limit, whole, held, fp);
      r := Refuse(s, fp, action, target, stamp, limit, whole, held, acted.error);
      return;
    }
    ghost var fate := if published then Confirmed else Lost;
    SentAll(action, message, target, fate);
    assert s.sent == Sends(action, message, target, fate);
    r := Finish(s, fp, action, target, stamp, limit, whole, held, message,
                [Event.Open(s.me, Job(action, {fp}))] + Delivers(s.me, held));
  }

  /** Acting on the one message found raised. */
  lemma RefusedActing(s: Channel, action: Action, m: Message, target: Option<ReplayTarget>, stamp: bool,
                      published: bool, e: Error, limit: nat, whole: bool, held: seq<Message>, fp: Fingerprint)
    requires WithFp(held, fp) == [m] && (e == Uncountable <==> Unstampable(action, stamp, m))
    requires s.sent == if Unstampable(action, stamp, m) then []
                       else Sends(action, m, target,
                                  if published then Confirmed else if e.Undeliverable? then Bounced else Lost)
    requires Wire(e) ==> s.faulted
    requires !Wire(e) ==> (e.Undeliverable? || e.Uncountable?) && action.Publishes() && !published
    ensures SentAs(action, target, [m], s.sent, s.faulted, Raise(e))
    ensures !s.faulted ==> Refused(e, action, target, stamp, limit, whole, s.counted, held, fp)
  {
    hide WithFp, Unstampable;
  }

  lemma PrefixDone(before: seq<Event>, after: seq<Event>, c: ChannelId, fp: Fingerprint, action: Action,
                   read: seq<Message>, m: Message, k: nat)
    requires WithFp(read, fp) == [m] && m.Fp() == fp && k <= |Full(c, action, m)|
    requires DidPrefix(c, fp, action, read, before) && On(before, fp) == []
    requires SameDeeds(before + Full(c, action, m)[..k], after)
    ensures DidPrefix(c, fp, action, read, after) && Read(after) == Read(before)
    ensures On(after, fp) == Full(c, action, m)[..k]
    ensures k == |Full(c, action, m)| ==> On(after, fp) == Full(c, action, m)
    ensures k == 0 ==> On(after, fp) == []
  {
    hide On, Read, WithFp, Full;
    StepsDeeds(before, c, action, m, k);
    assert On(before, fp) + Full(c, action, m)[..k] == Full(c, action, m)[..k];
  }

  /** The message `Operate` acted on, if it did. */
  function Target(read: seq<Message>, fp: Fingerprint): set<Message> {
    var g := WithFp(read, fp);
    if |g| == 1 then {g[0]} else {}
  }

  /**
   One action on one message, whatever else happens and whatever fails.

   It succeeds only if every call did; then the message is confirmed at the target and, but
   for a copy, gone from the source. If no call failed and it raised, nothing changed. In
   any case it did a prefix of the action to that message, and nothing to any other.

   Without failures, and with only publishers beside it, the others keep their order. On a quorum
   queue, if nothing arrived any more once messages were given back, what was not read comes first,
   then a copied message, then the other ones read. Alone with its queue, a whole read that ends in
   a refusal leaves it as it was.
   */
  method Operate(s: Channel, fp: Fingerprint, action: Action, target: Option<ReplayTarget>, stamp: bool, limit: nat,
                 whole: bool)
    returns (r: Reply<MessageRecord>)
    requires s.Fresh()
    modifies s
    ensures s.Valid() && !s.open
    ensures Operated(s, fp, action, target, stamp, limit, whole, Read(s.mine), r)
    ensures r.Ok? ==>
              var m := WithFp(Read(s.mine), fp)[0];
              && (action.Publishes() ==> (s.me, m) in s.world.copies)
              && (action.Removes() ==> m !in s.world.ready && m !in s.world.unacked)
    ensures !s.faulted && OnlyPublished(s.log, s.me) && s.start.kind.Quorum? && ArrivalsFirst(s.log) ==>
              if r.Raise? then IsRotated(s.world.ready, Line(s), |Read(s.mine)|)
              else var m, read := WithFp(Read(s.mine), fp)[0], Read(s.mine);
                   LeftWith(s.world.ready, Line(s), read, (if action.Copy? then [m] else []) + Kept(read, {m}))
    ensures !s.faulted && OnlyPublished(s.log, s.me) && s.start.kind.Classic? && s.start.unacked == map[]
              && InArrivalOrder(s.start.ready) ==>
              s.world.ready == Kept(Line(s), if r.Ok? && action.Removes() then Target(Read(s.mine), fp) else {})
    ensures s.quiet ==> Line(s) == s.start.ready && OnlyPublished(s.log, s.me) && ArrivalsFirst(s.log)
    ensures s.quiet && !s.faulted ==>
              (r == Raise(UnsafeToBrowse)
               <==> if whole then |s.start.ready| > limit else limit == 0 && s.start.ready != [])
    ensures s.quiet && !s.faulted && r.Ok? ==> Read(s.mine) == Visible(s.start.ready, limit, whole)
    ensures s.quiet && !s.faulted && whole ==>
              if r.Ok? then Read(s.mine) == s.start.ready
              else s.start.kind.Quorum? ==> s.world.ready == s.start.ready
  {
    hide Legal, Run, Own, Accounted, On, WithFp, Delivers, Returns, Kept, Refused, Middle, InArrivalOrder, Line,
      OnlyPublished, ArrivalsFirst, DidPrefix, SentAs;
    var read;
    read, r := OperateSteps(s, fp, action, target, stamp, limit, whole);
    if r.Ok? {
      DoneHappened(s, fp, action, WithFp(read, fp)[0]);
    }
    if s.quiet {
      LineWhenQuiet(s);
    }
    if !s.faulted && OnlyPublished(s.log, s.me) {
      if r.Ok? {
        SettledOrder(s, action, {fp}, read, WithFp(read, fp)[0]);
      } else {
        ScanOrder(s, Job(action, {fp}), read);
        KeptAll(Line(s), {});
        RotatedWhole(Line(s));
      }
    }
  }

  lemma DoneHappened(s: Channel, fp: Fingerprint, action: Action, m: Message)
    requires s.Valid() && On(s.mine, fp) == Full(s.me, action, m)
    ensures action.Publishes() ==> (s.me, m) in s.world.copies
    ensures action.Removes() ==> m !in s.world.ready && m !in s.world.unacked
  {
    hide Legal, Run, Own, Accounted, On;
    var full := Full(s.me, action, m);
    if action.Publishes() {
      s.Happened(fp, full[0]);
    }
    if action.Removes() {
      s.Happened(fp, full[|full| - 1]);
    }
  }

  /** The line after this prefix of it was read, and these messages put behind it. */
  predicate LeftWith(now: seq<Message>, line: seq<Message>, read: seq<Message>, behind: seq<Message>) {
    read <= line && now == line[|read|..] + behind
  }

  lemma RotatedWhole(q: seq<Message>)
    ensures Rotated(q, 0) == q && Rotated(q, |q|) == q
  {
  }

  /** Where everything is after one message was settled and the others given back. */
  lemma SettledOrder(s: Channel, action: Action, fps: set<Fingerprint>, read: seq<Message>, m: Message)
    requires s.Valid() && !s.open && OnlyPublished(s.log, s.me)
    requires s.mine == RunEvents(s.me, Job(action, fps), read, Middle(s.me, action, m), Kept(read, {m}))
    ensures s.start.kind.Quorum? && ArrivalsFirst(s.log) ==>
              LeftWith(s.world.ready, Line(s), read, (if action.Copy? then [m] else []) + Kept(read, {m}))
    ensures s.start.kind.Classic? && s.start.unacked == map[] && InArrivalOrder(s.start.ready) ==>
              s.world.ready == Kept(Line(s), if action.Removes() then {m} else {})
  {
    hide Legal, Run, Own, Accounted, Delivers, Returns, Kept, Middle, InArrivalOrder, OnlyPublished, ArrivalsFirst,
      Line, RunEvents;
    MiddleOrder(s.me, action, m);
    ActionOrder(s, Job(action, fps), read, Middle(s.me, action, m), Kept(read, {m}));
  }

  lemma SettledOne(es: seq<Event>, e: Event)
    ensures ReturnedBy(es + [e]) == ReturnedBy(es) + (if e.Return? then [e.m] else [])
    ensures AckedBy(es + [e]) == AckedBy(es) + (if e.Ack? then {e.m} else {})
  {
    assert Front(es + [e]) == es;
  }

  lemma MiddleOrder(c: ChannelId, action: Action, m: Message)
    ensures Settling(Middle(c, action, m))
    ensures ReturnedBy(Middle(c, action, m)) == if action.Copy? then [m] else []
    ensures AckedBy(Middle(c, action, m)) == if action.Removes() then {m} else {}
  {
    NothingSettled();
    hide ReturnedBy, AckedBy;
    if action.Publishes() {
      var last := if action.Copy? then Return(c, m) else Ack(c, m);
      SettledOne([], Publish(c, m));
      SettledOne([] + [Publish(c, m)], last);
      assert Middle(c, action, m) == [] + [Publish(c, m)] + [last];
    } else if action.Delete? {
      SettledOne([], Ack(c, m));
      assert Middle(c, action, m) == [] + [Ack(c, m)];
    }
  }
}
