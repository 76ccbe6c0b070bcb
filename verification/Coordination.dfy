/**
 One queue's lock over any number of replicas and tasks, and the election of the replica that
 evaluates alerts: app/infrastructure/persistence/coordination.py.

 A task takes its replica's local lock, then, on a shared database, the advisory lock, which
 belongs to a transaction. Inside it opens a channel, takes messages and settles them, and
 closes the channel before it lets go of the locks. The database connection can be lost at any
 moment: PostgreSQL then frees the advisory lock, while its holder goes on with its scan.
 Publishers append to the queue all the while; nobody else consumes from it.
 */
module Coordination {
  import opened Records
  import opened Broker
  import opened Session
  import opened QueueOrder

  type Replica = nat
  type TaskId = nat

  datatype Phase = Outside | Queued | Inside | Leaving

  datatype Task = Task(replica: Replica, phase: Phase, channel: Option<ChannelId>)

  datatype Locks = Locks(
    shared: bool,                     // a PostgreSQL database; else the locks are in-process only
    tasks: map<TaskId, Task>,
    local: map<Replica, TaskId>,      // who holds the local lock of each replica
    database: Option<TaskId>,         // who holds the advisory lock
    orphans: set<TaskId>,             // still inside, but the advisory lock is gone
    world: World)                     // the queue and its messages

  datatype Step =
    | TakeLocal(t: TaskId)
    | Enter(t: TaskId)
    | GiveUp(t: TaskId)               // cancelled, or the database cannot be reached
    | OpenChannel(t: TaskId, c: ChannelId, job: Job)
    | Use(t: TaskId, e: Event)
    | CloseChannel(t: TaskId)         // after the broker took back what was unacked
    | Leave(t: TaskId)
    | FreeLocal(t: TaskId)
    | LoseDatabase(t: TaskId)
    | Publication(m: Message)

  predicate In(s: Locks, t: TaskId, phase: Phase) { t in s.tasks && s.tasks[t].phase == phase }

  predicate Possible(s: Locks, step: Step) {
    match step
    case TakeLocal(t) => In(s, t, Outside) && s.tasks[t].replica !in s.local
    case Enter(t) => In(s, t, Queued) && (s.shared ==> s.database.None?)
    case GiveUp(t) => In(s, t, Queued)
    case OpenChannel(t, c, job) =>
      In(s, t, Inside) && s.tasks[t].channel.None? && Enabled(s.world, Event.Open(c, job))
    case Use(t, e) =>
      && In(s, t, Inside) && s.tasks[t].channel.Some? && By(e, s.tasks[t].channel.value)
      && !e.Open? && Enabled(s.world, e)
    case CloseChannel(t) =>
      && In(s, t, Inside) && s.tasks[t].channel.Some?
      && forall m | m in s.world.unacked :: s.world.unacked[m] != s.tasks[t].channel.value
    case Leave(t) => In(s, t, Inside) && s.tasks[t].channel.None?
    case FreeLocal(t) => In(s, t, Leaving)
    case LoseDatabase(t) => s.database == Some(t)
    case Publication(m) => Enabled(s.world, Arrive(m))
  }

  function Moved(s: Locks, t: TaskId, phase: Phase): Locks
    requires t in s.tasks
  {
    s.(tasks := s.tasks[t := s.tasks[t].(phase := phase)])
  }

  function Using(s: Locks, t: TaskId, channel: Option<ChannelId>): Locks
    requires t in s.tasks
  {
    s.(tasks := s.tasks[t := s.tasks[t].(channel := channel)])
  }

  function Next(s: Locks, step: Step): Locks
    requires Possible(s, step)
  {
    match step
    case TakeLocal(t) => Moved(s, t, Queued).(local := s.local[s.tasks[t].replica := t])
    case Enter(t) => Moved(s, t, Inside).(database := if s.shared then Some(t) else s.database)
    case GiveUp(t) => Moved(s, t, Leaving)
    case OpenChannel(t, c, job) => Using(s, t, Some(c)).(world := Apply(s.world, Event.Open(c, job)))
    case Use(t, e) => s.(world := Apply(s.world, e))
    case CloseChannel(t) => Using(s, t, None)
    case Leave(t) =>
      Moved(s, t, Leaving).(database := if s.database == Some(t) then None else s.database, orphans := s.orphans - {t})
    case FreeLocal(t) => Moved(s, t, Outside).(local := s.local - {s.tasks[t].replica})
    case LoseDatabase(t) => s.(database := None, orphans := s.orphans + {t})
    case Publication(m) => s.(world := Apply(s.world, Arrive(m)))
  }

  predicate Start(s: Locks) {
    && s.local == map[] && s.database.None? && s.orphans == {} && s.world.unacked == map[]
    && forall t | t in s.tasks :: s.tasks[t] == Task(s.tasks[t].replica, Outside, None)
  }

  predicate Runs(s: Locks, steps: seq<Step>)
    decreases |steps|, 0
  {
    steps != [] ==> Runs(s, Front(steps)) && Possible(After(s, Front(steps)), Last(steps))
  }

  function After(s: Locks, steps: seq<Step>): Locks
    requires Runs(s, steps)
    decreases |steps|, 1
  {
    if steps == [] then s else Next(After(s, Front(steps)), Last(steps))
  }

  /** On SQLite there is one replica. */
  predicate OneReplica(s: Locks) {
    forall a, b | a in s.tasks && b in s.tasks :: s.tasks[a].replica == s.tasks[b].replica
  }

  predicate NoneLost(steps: seq<Step>) { forall step | step in steps :: !step.LoseDatabase? }

  ghost predicate Exclusive(s: Locks) { forall a: TaskId, b: TaskId | In(s, a, Inside) && In(s, b, Inside) :: a == b }

  // ------------------------------------------------------------------------- what is kept

  ghost predicate LocalInv(s: Locks) {
    && (forall t | t in s.tasks && s.tasks[t].phase != Outside ::
          s.tasks[t].replica in s.local && s.local[s.tasks[t].replica] == t)
    && (forall r | r in s.local :: s.local[r] in s.tasks && s.tasks[s.local[r]].replica == r
                                   && s.tasks[s.local[r]].phase != Outside)
  }

  ghost predicate DatabaseInv(s: Locks) {
    && (s.database.Some? ==> s.shared && In(s, s.database.value, Inside) && s.database.value !in s.orphans)
    && (s.shared ==> forall t: TaskId | In(s, t, Inside) :: s.database == Some(t) || t in s.orphans)
    && (forall t | t in s.orphans :: s.shared && In(s, t, Inside))
  }

  /** A message is unacked only on the channel of a task, and only a task inside has one. */
  ghost predicate ChannelInv(s: Locks) {
    && (forall t | t in s.tasks && s.tasks[t].channel.Some? :: In(s, t, Inside))
    && (forall m | m in s.world.unacked :: exists t: TaskId :: Uses(s, t, s.world.unacked[m]))
  }

  predicate Uses(s: Locks, t: TaskId, c: ChannelId) { t in s.tasks && s.tasks[t].channel == Some(c) }

  ghost predicate Inv(s: Locks) { LocalInv(s) && DatabaseInv(s) && ChannelInv(s) }

  lemma StepKeepsLocal(s: Locks, step: Step)
    requires LocalInv(s) && Possible(s, step)
    ensures LocalInv(Next(s, step))
  {
  }

  lemma StepKeepsDatabase(s: Locks, step: Step)
    requires DatabaseInv(s) && Possible(s, step)
    ensures DatabaseInv(Next(s, step))
    ensures !step.LoseDatabase? ==> Next(s, step).orphans <= s.orphans
  {
  }

  lemma StepKeepsChannels(s: Locks, step: Step)
    requires ChannelInv(s) && Possible(s, step)
    ensures ChannelInv(Next(s, step))
  {
    var later := Next(s, step);
    forall m | m in later.world.unacked
      ensures exists t: TaskId :: Uses(later, t, later.world.unacked[m])
    {
      if m in s.world.unacked && later.world.unacked[m] == s.world.unacked[m] {
        var t: TaskId :| Uses(s, t, s.world.unacked[m]);
        assert Uses(later, t, later.world.unacked[m]);
      } else {
        assert Uses(later, step.t, later.world.unacked[m]);
      }
    }
  }

  lemma StepKeeps(s: Locks, step: Step)
    requires Possible(s, step)
    ensures Next(s, step).shared == s.shared && Next(s, step).tasks.Keys == s.tasks.Keys
    ensures forall t | t in s.tasks :: Next(s, step).tasks[t].replica == s.tasks[t].replica
  {
  }

  lemma {:induction false} RunKeeps(s: Locks, steps: seq<Step>)
    requires Start(s) && Runs(s, steps)
    ensures var now := After(s, steps);
            && Inv(now) && now.shared == s.shared && now.tasks.Keys == s.tasks.Keys
            && (forall t | t in s.tasks :: now.tasks[t].replica == s.tasks[t].replica)
            && (NoneLost(steps) ==> now.orphans == {})
  {
    if steps != [] {
      RunKeeps(s, Front(steps));
      hide LocalInv, DatabaseInv, ChannelInv, Possible, Next;
      var before := After(s, Front(steps));
      StepKeepsLocal(before, Last(steps));
      StepKeepsDatabase(before, Last(steps));
      StepKeepsChannels(before, Last(steps));
      StepKeeps(before, Last(steps));
      assert forall step | step in Front(steps) :: step in steps;
      assert Last(steps) in steps;
    }
  }

  /**
   Two tasks are inside at once only on two replicas, and then one of them has lost its database
   connection since it entered (or there is no shared database to begin with).
   */
  lemma InsideTogether(s: Locks, steps: seq<Step>, a: TaskId, b: TaskId)
    requires Start(s) && Runs(s, steps) && a != b
    requires In(After(s, steps), a, Inside) && In(After(s, steps), b, Inside)
    ensures s.tasks.Keys == After(s, steps).tasks.Keys && s.tasks[a].replica != s.tasks[b].replica
    ensures s.shared ==> a in After(s, steps).orphans || b in After(s, steps).orphans
  {
    RunKeeps(s, steps);
  }

  lemma StaysExclusive(s: Locks, steps: seq<Step>)
    requires Start(s) && Runs(s, steps) && NoneLost(steps) && (s.shared || OneReplica(s))
    ensures Exclusive(After(s, steps))
  {
    RunKeeps(s, steps);
    hide Runs, After, Inv;
    forall a: TaskId, b: TaskId | In(After(s, steps), a, Inside) && In(After(s, steps), b, Inside)
      ensures a == b
    {
      if a != b {
        InsideTogether(s, steps, a, b);
      }
    }
  }

  /** The runs in which no connection is lost are exclusive exactly if replicas share a database. */
  lemma ExclusiveExactly(s: Locks)
    requires Start(s)
    ensures (forall steps | Runs(s, steps) && NoneLost(steps) :: Exclusive(After(s, steps)))
        <==> s.shared || OneReplica(s)
  {
    if s.shared || OneReplica(s) {
      forall steps | Runs(s, steps) && NoneLost(steps)
        ensures Exclusive(After(s, steps))
      {
        StaysExclusive(s, steps);
      }
    } else {
      var a, b :| a in s.tasks && b in s.tasks && s.tasks[a].replica != s.tasks[b].replica;
      var steps := BothGetIn(s, a, b);
    }
  }

  /** Without a shared database nothing keeps two replicas apart. */
  lemma BothGetIn(s: Locks, a: TaskId, b: TaskId) returns (steps: seq<Step>)
    requires Start(s) && !s.shared && a in s.tasks && b in s.tasks && s.tasks[a].replica != s.tasks[b].replica
    ensures Runs(s, steps) && NoneLost(steps) && !Exclusive(After(s, steps))
  {
    hide Runs, After;
    steps := [TakeLocal(a), TakeLocal(b), Enter(a), Enter(b)];
    FourSteps(s, steps);
    assert In(After(s, steps), a, Inside) && In(After(s, steps), b, Inside);
  }

  lemma FourSteps(s: Locks, p: seq<Step>)
    requires |p| == 4 && Possible(s, p[0]) && Possible(Next(s, p[0]), p[1])
    requires Possible(Next(Next(s, p[0]), p[1]), p[2])
    requires Possible(Next(Next(Next(s, p[0]), p[1]), p[2]), p[3])
    ensures Runs(s, p) && After(s, p) == Next(Next(Next(Next(s, p[0]), p[1]), p[2]), p[3])
  {
    hide Possible, Next;
    var p1, p2, p3 := [p[0]], [p[0], p[1]], [p[0], p[1], p[2]];
    assert Front(p) == p3 && Front(p3) == p2 && Front(p2) == p1 && Front(p1) == [];
    assert Runs(s, p1) && After(s, p1) == Next(s, p[0]);
    assert Runs(s, p2) && After(s, p2) == Next(Next(s, p[0]), p[1]);
    assert Runs(s, p3) && After(s, p3) == Next(Next(Next(s, p[0]), p[1]), p[2]);
  }

  lemma OneMoreStep(s: Locks, steps: seq<Step>, step: Step)
    requires Runs(s, steps) && Possible(After(s, steps), step)
    ensures Runs(s, steps + [step]) && After(s, steps + [step]) == Next(After(s, steps), step)
  {
    assert Front(steps + [step]) == steps;
  }

  const EMPTY := World(Quorum, {}, [], map[], {}, multiset{}, map[])

  const TWO_REPLICAS :=
    Locks(true, map[0 := Task(0, Outside, None), 1 := Task(1, Outside, None)], map[], None, {}, EMPTY)

  const LOST: seq<Step> := [TakeLocal(0), TakeLocal(1), Enter(0), LoseDatabase(0)]

  lemma LostByTheFirst()
    ensures Runs(TWO_REPLICAS, LOST)
    ensures var s := After(TWO_REPLICAS, LOST); s.shared && s.database.None? && In(s, 0, Inside) && In(s, 1, Queued)
  {
    FourSteps(TWO_REPLICAS, LOST);
  }

  /** A lost connection lets a second replica in while the first still holds messages. */
  lemma LostConnectionBreaksIt()
    ensures exists s, steps :: Start(s) && s.shared && Runs(s, steps) && !Exclusive(After(s, steps))
  {
    hide After, Runs, LOST;
    LostByTheFirst();
    OneMoreStep(TWO_REPLICAS, LOST, Enter(1));
    var later := After(TWO_REPLICAS, LOST + [Enter(1)]);
    assert In(later, 0, Inside) && In(later, 1, Inside);
  }

  lemma NoneInside(s: Locks)
    requires Inv(s) && forall t: TaskId :: !In(s, t, Inside)
    ensures (forall t | t in s.tasks :: s.tasks[t].channel.None?) && s.world.unacked == map[]
  {
    assert forall t: TaskId, c: ChannelId :: Uses(s, t, c) ==> In(s, t, Inside);
  }

  /** Nobody has a channel on the queue unless they are inside; with the locks free, none of its messages is held. */
  lemma NothingHeldWhenFree(s: Locks, steps: seq<Step>)
    requires Start(s) && Runs(s, steps)
    ensures var now := After(s, steps);
            now.local == map[] || (s.shared && now.database.None? && now.orphans == {}) ==>
              (forall t | t in now.tasks :: now.tasks[t].channel.None?) && now.world.unacked == map[]
  {
    RunKeeps(s, steps);
    hide After;
    var now := After(s, steps);
    if now.local == map[] || (s.shared && now.database.None? && now.orphans == {}) {
      NoneInside(now);
    }
  }

  /** As long as whoever is inside has kept its connection, whoever enters finds every message of the queue ready. */
  lemma EnteringFindsAll(s: Locks, steps: seq<Step>, t: TaskId)
    requires Start(s) && Runs(s, steps) && (s.shared || OneReplica(s))
    requires Possible(After(s, steps), Enter(t)) && After(s, steps).orphans == {}
    ensures Next(After(s, steps), Enter(t)).world.unacked == map[]
    ensures forall u | u in After(s, steps).tasks :: After(s, steps).tasks[u].channel.None?
  {
    RunKeeps(s, steps);
    hide After;
    var now := After(s, steps);
    forall u: TaskId
      ensures !In(now, u, Inside)
    {
      assert u in s.tasks ==> now.tasks[u].replica == s.tasks[u].replica;
      assert t in s.tasks && now.tasks[t].replica == s.tasks[t].replica;
    }
    NoneInside(now);
  }

  /** No path leaves a lock held: a task can always get out, and outside it holds neither lock. */
  lemma OutsideHoldsNothing(s: Locks, steps: seq<Step>, t: TaskId)
    requires Start(s) && Runs(s, steps) && t in After(s, steps).tasks
    ensures var now := After(s, steps);
            && (now.tasks[t].phase == Outside ==>
                  now.database != Some(t) && t !in now.orphans && t !in now.local.Values)
            && (now.tasks[t].phase != Outside ==> exists step :: Possible(now, step) && Exits(step, t))
  {
    RunKeeps(s, steps);
    hide After;
    if After(s, steps).tasks[t].phase != Outside {
      WayOut(After(s, steps), t);
    }
  }

  lemma WayOut(now: Locks, t: TaskId)
    requires t in now.tasks && now.tasks[t].phase != Outside
    ensures exists step :: Possible(now, step) && Exits(step, t)
  {
    if now.tasks[t].phase == Queued {
      assert Possible(now, GiveUp(t));
    } else if now.tasks[t].phase == Leaving {
      assert Possible(now, FreeLocal(t));
    } else if now.tasks[t].channel.None? {
      assert Possible(now, Leave(t));
    } else if m :| m in now.world.unacked && now.world.unacked[m] == now.tasks[t].channel.value {
      assert Possible(now, Use(t, Recover(now.tasks[t].channel.value, m, 0)));
    } else {
      assert Possible(now, CloseChannel(t));
    }
  }

  /** A step on a task's way out: what it holds goes back, its channel closes, its locks are freed. */
  predicate Exits(step: Step, t: TaskId) {
    step in {GiveUp(t), CloseChannel(t), Leave(t), FreeLocal(t)} || (step.Use? && step.t == t && step.e.Recover?)
  }

  // ------------------------------------------------------- what a scan inside can rely on

  function EventOf(step: Step): seq<Event> {
    match step
    case OpenChannel(_, c, job) => [Event.Open(c, job)]
    case Use(_, e) => [e]
    case Publication(m) => [Arrive(m)]
    case _ => []
  }

  /** What the steps did to the queue. */
  function EventsOf(steps: seq<Step>): seq<Event> {
    if steps == [] then [] else EventsOf(Front(steps)) + EventOf(Last(steps))
  }

  lemma StepRuns(s: Locks, step: Step, w: World, es: seq<Event>)
    requires Legal(w, es) && Run(w, es) == s.world && Possible(s, step)
    ensures Legal(w, es + EventOf(step)) && Run(w, es + EventOf(step)) == Next(s, step).world
  {
    hide Legal, Run;
    if EventOf(step) == [] {
      assert es + [] == es;
    } else {
      LegalSnoc(w, es, EventOf(step)[0]);
    }
  }

  lemma {:induction false} WorldRuns(s: Locks, steps: seq<Step>, more: seq<Step>)
    requires Runs(s, steps + more)
    ensures Runs(s, steps) && Legal(After(s, steps).world, EventsOf(more))
    ensures After(s, steps + more).world == Run(After(s, steps).world, EventsOf(more))
    decreases |more|
  {
    if more == [] {
      assert steps + more == steps;
    } else {
      hide Legal, Run, Possible, Next;
      assert Front(steps + more) == steps + Front(more) && Last(steps + more) == Last(more);
      WorldRuns(s, steps, Front(more));
      StepRuns(After(s, steps + Front(more)), Last(more), After(s, steps).world, EventsOf(Front(more)));
    }
  }

  /** Inside, without a channel or with this one. */
  predicate InsideOn(s: Locks, t: TaskId, c: ChannelId) {
    In(s, t, Inside) && s.tasks[t].channel in {None, Some(c)}
  }

  predicate Keeps(step: Step, t: TaskId, c: ChannelId) {
    step != Leave(t) && (step.OpenChannel? && step.t == t ==> step.c == c)
  }

  /** While a task is inside, and no connection is lost, only it acts on the queue, and publishers do. */
  lemma {:induction false} AloneInside(s: Locks, steps: seq<Step>, more: seq<Step>, t: TaskId, c: ChannelId)
    requires Start(s) && Runs(s, steps + more) && NoneLost(steps + more) && (s.shared || OneReplica(s))
    requires Runs(s, steps) && InsideOn(After(s, steps), t, c)
    requires forall step | step in more :: Keeps(step, t, c)
    ensures OnlyPublished(EventsOf(more), c) && InsideOn(After(s, steps + more), t, c)
    decreases |more|
  {
    if more == [] {
      assert steps + more == steps;
    } else {
      hide Legal, Run, Possible, Next, InsideOn, Inv, Keeps, EventOf, OneReplica;
      var front, last := steps + Front(more), Last(more);
      assert Front(steps + more) == front && Last(steps + more) == last;
      assert NoneLost(front) by {
        assert forall step | step in front :: step in steps + more;
      }
      assert more == Front(more) + [last];
      AloneInside(s, steps, Front(more), t, c);
      RunKeeps(s, front);
      StaysAlone(s, After(s, front), t, c, last);
    }
  }

  lemma StaysAlone(s: Locks, now: Locks, t: TaskId, c: ChannelId, step: Step)
    requires Inv(now) && now.orphans == {} && now.shared == s.shared && (s.shared || OneReplica(s))
    requires now.tasks.Keys == s.tasks.Keys && forall u | u in s.tasks :: now.tasks[u].replica == s.tasks[u].replica
    requires InsideOn(now, t, c) && Possible(now, step) && Keeps(step, t, c)
    ensures InsideOn(Next(now, step), t, c) && OnlyPublished(EventOf(step), c)
  {
    if step.Use? || step.OpenChannel? {
      OnlyThisOne(s, now, t, step);
    }
  }

  lemma OnlyThisOne(s: Locks, now: Locks, t: TaskId, step: Step)
    requires Inv(now) && now.orphans == {} && now.shared == s.shared && (s.shared || OneReplica(s))
    requires now.tasks.Keys == s.tasks.Keys && forall u | u in s.tasks :: now.tasks[u].replica == s.tasks[u].replica
    requires In(now, t, Inside) && Possible(now, step) && (step.Use? || step.OpenChannel?)
    ensures step.t == t
  {
    assert In(now, step.t, Inside) && t in s.tasks && step.t in s.tasks;
  }

  /**
   So a scan or an action that runs inside the lock starts with nothing unacked, and only publishers
   act beside it: what the order results ask for. Those on quorum queues also ask that nothing
   arrives any more once messages are given back, which no lock can promise.
   */
  lemma ScansAreUndisturbed(s: Locks, steps: seq<Step>, t: TaskId, more: seq<Step>, c: ChannelId)
    requires Start(s) && (s.shared || OneReplica(s))
    requires Runs(s, steps + [Enter(t)] + more) && NoneLost(steps + [Enter(t)] + more)
    requires forall step | step in more :: Keeps(step, t, c)
    ensures Runs(s, steps + [Enter(t)])
    ensures var start := After(s, steps + [Enter(t)]).world;
            && start.unacked == map[]
            && Legal(start, EventsOf(more)) && OnlyPublished(EventsOf(more), c)
            && After(s, steps + [Enter(t)] + more).world == Run(start, EventsOf(more))
  {
    hide Legal, Run, OneReplica, EventsOf, Keeps;
    var entered := steps + [Enter(t)];
    WorldRuns(s, entered, more);
    assert Front(entered) == steps && Last(entered) == Enter(t);
    assert NoneLost(steps) by {
      assert forall step | step in steps :: step in entered + more;
    }
    RunKeeps(s, steps);
    EnteringFindsAll(s, steps, t);
    hide Inv;
    assert InsideOn(After(s, entered), t, c);
    AloneInside(s, entered, more, t, c);
  }

  // ---------------------------------------------------------------------------- the leader

  type SessionId = nat

  /** The database, as far as the election is concerned: who holds the session-level lock. */
  class Database {
    var up: bool
    var next: SessionId
    var alive: set<SessionId>
    var leader: Option<SessionId>

    ghost predicate Valid()
      reads this
    {
      && (leader.Some? ==> leader.value in alive)
      && (forall session | session in alive :: session < next)
    }

    constructor ()
      ensures Valid() && leader.None?
    {
      up, next, alive, leader := true, 0, {}, None;
    }

    /** A session ends, by itself or with its network; its lock ends with it. */
    method End(session: SessionId)
      requires Valid()
      modifies this`alive, this`leader
      ensures Valid() && alive == old(alive) - {session}
      ensures leader == if old(leader) == Some(session) then None else old(leader)
    {
      alive := alive - {session};
      if leader == Some(session) {
        leader := None;
      }
    }

    /** `connect` and `pg_try_advisory_lock`. */
    method TryLead() returns (session: SessionId, won: bool)
      requires Valid() && up
      modifies this`next, this`alive, this`leader
      ensures Valid() && session == old(next) && session !in old(alive) && alive == old(alive) + {session}
      ensures next == old(next) + 1
      ensures won == old(leader).None? && leader == if won then Some(session) else old(leader)
    {
      session := next;
      next := next + 1;
      alive := alive + {session};
      won := leader.None?;
      if won {
        leader := Some(session);
      }
    }
  }

  class Coordinator {
    const shared: bool
    var leader: Option<SessionId>

    constructor (shared: bool)
      ensures this.shared == shared && leader.None?
    {
      this.shared := shared;
      this.leader := None;
    }

    /** What the replica believes is true as long as its session lives. */
    ghost predicate Believes(database: Database)
      reads this, database
    {
      leader.Some? ==> leader.value < database.next && (leader.value in database.alive ==> database.leader == leader)
    }

    /**
     True exactly while this replica's session holds the lock, which it takes when it is free;
     otherwise it keeps no session. No other replica's belief is disturbed.
     */
    method IsLeader(database: Database) returns (leads: bool)
      requires database.Valid() && Believes(database)
      modifies this, database
      ensures database.Valid() && Believes(database) && database.next >= old(database.next)
      ensures !shared ==> leads
      ensures shared ==> (leads <==> leader.Some?) && (leads ==> database.leader == leader)
      ensures shared && old(leader).None? ==> (leads <==> old(database.up) && old(database.leader).None?)
      ensures shared && old(leader).Some? ==>
                && (leads <==> old(database.up) && old(leader).value in old(database.alive))
                && (leads ==> leader == old(leader))
      ensures var mine := if old(leader).Some? then {old(leader).value} else {};
              && database.alive == (if leads && shared then old(database.alive) + {leader.value}
                                    else if shared then old(database.alive) - mine else old(database.alive))
              && database.leader == (if leads && shared then leader
                                     else if shared && old(leader).Some? && old(database.leader == leader) then None
                                     else old(database.leader))
      ensures forall other: Coordinator | old(allocated(other)) && other != this && old(other.Believes(database))
                  && (other.leader.None? || old(leader) != other.leader) ::
                other.Believes(database)
    {
      if !shared {
        return true;
      }
      if leader.Some? {
        if database.up && leader.value in database.alive {
          return true;
        }
        database.End(leader.value);
        leader := None;
        return false;
      }
      if !database.up {
        return false;
      }
      var session, won := database.TryLead();
      if !won {
        database.End(session);
        return false;
      }
      leader := Some(session);
      return true;
    }
  }
}
