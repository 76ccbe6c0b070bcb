/**
 Executes racing for batches: app/application/bulk_runs.py over the shared batch store.

 Any number of executes (on any number of replicas and environments that share the store)
 interleave step by step with dry runs saving batches, with the clock moving on, and with
 executes dying anywhere.
 */
module OneShot {
  import opened Records
  import opened Broker
  import opened BatchStore

  type RunId = nat

  /** Where one `execute_audited` is. */
  datatype Phase =
    | Called                            // before peek
    | Saw(pending: Option<BulkBatch>)   // peeked; the attempt still to be recorded
    | Ready                             // recorded, or nothing to record: about to take
    | Cleared(batch: BulkBatch)         // took a batch of its own scope
    | Ended

  datatype Exec = Exec(id: BatchId, scope: Scope, phase: Phase)

  datatype Entry =
    | Started(run: RunId, id: BatchId)              // the audit row of the attempt
    | Touched(run: RunId, id: BatchId, scope: Scope, batch: BulkBatch)

  datatype State = State(
    durable: bool,
    now: int,
    rows: Rows,
    saved: map<BatchId, BulkBatch>,     // every batch a dry run ever stored
    known: set<BatchId>,                // ids that were stored or asked for
    execs: map<RunId, Exec>,
    log: seq<Entry>)

  datatype Step =
    | Tick(now: int)
    | DryRun(id: BatchId, batch: BulkBatch)
    | Call(run: RunId, id: BatchId, scope: Scope)
    | Peek(run: RunId)
    | Record(run: RunId)
    | Take(run: RunId)
    | Touch(run: RunId)
    | Die(run: RunId)                   // the audit store is down, the guard refuses, the process stops

  function At(s: State, run: RunId): Phase {
    if run in s.execs then s.execs[run].phase else Ended
  }

  function Move(s: State, run: RunId, phase: Phase): State
    requires run in s.execs
  {
    s.(execs := s.execs[run := s.execs[run].(phase := phase)])
  }

  /** A dry run's id is a fresh 128-bit random token: nobody asked for it before. */
  predicate CanStep(s: State, step: Step) {
    match step
    case Tick(now) => s.now <= now
    case DryRun(id, _) => id !in s.known
    case Call(run, _, _) => run !in s.execs
    case Peek(run) => At(s, run).Called?
    case Record(run) => At(s, run).Saw?
    case Take(run) => At(s, run).Ready?
    case Touch(run) => At(s, run).Cleared?
    case Die(run) => run in s.execs
  }

  function Next(s: State, step: Step): State
    requires CanStep(s, step)
  {
    match step
    case Tick(now) => s.(now := now)
    case DryRun(id, batch) =>
      s.(rows := s.rows[id := batch], saved := s.saved[id := batch], known := s.known + {id})
    case Call(run, id, scope) =>
      s.(execs := s.execs[run := Exec(id, scope, Called)], known := s.known + {id})
    case Peek(run) => Move(s, run, Saw(Peeked(s.rows, s.durable, s.execs[run].id, s.now)))
    case Record(run) =>
      // an attempt is only recorded for a batch that was seen
      var logged := if At(s, run).pending.Some? then s.log + [Started(run, s.execs[run].id)] else s.log;
      Move(s, run, Ready).(log := logged)
    case Take(run) =>
      var exec := s.execs[run];
      var taken := s.(rows := AfterTake(s.rows, s.durable, exec.id, s.now));
      if Live(s.rows, exec.id, s.now) && s.rows[exec.id].scope == exec.scope
      then Move(taken, run, Cleared(s.rows[exec.id]))
      else Move(taken, run, Ended)
    case Touch(run) =>
      var exec := s.execs[run];
      Move(s, run, Ended).(log := s.log + [Touched(run, exec.id, exec.scope, At(s, run).batch)])
    case Die(run) => Move(s, run, Ended)
  }

  predicate Valid(s: State, steps: seq<Step>)
    decreases |steps|, 0
  {
    steps == [] || (Valid(s, Front(steps)) && CanStep(After(s, Front(steps)), Last(steps)))
  }

  function After(s: State, steps: seq<Step>): State
    requires Valid(s, steps)
    decreases |steps|, 1
  {
    if steps == [] then s else Next(After(s, Front(steps)), Last(steps))
  }

  /** One more step of a run. */
  lemma Goes(s: State, steps: seq<Step>, step: Step) returns (longer: seq<Step>)
    requires Valid(s, steps) && CanStep(After(s, steps), step)
    ensures longer == steps + [step] && Valid(s, longer) && After(s, longer) == Next(After(s, steps), step)
  {
    longer := steps + [step];
    assert Front(longer) == steps;
  }

  predicate Initial(s: State) {
    s.rows == map[] && s.saved == map[] && s.known == {} && s.execs == map[] && s.log == []
  }

  // ------------------------------------------------------------------------- the invariant

  /** A batch that can never be taken again. */
  predicate Spent(s: State, id: BatchId) {
    id in s.known && !Live(s.rows, id, s.now)
  }

  ghost predicate HasStarted(log: seq<Entry>, run: RunId, id: BatchId, before: nat) {
    exists j | 0 <= j < before && j < |log| :: log[j] == Started(run, id)
  }

  ghost predicate HasTouched(s: State, id: BatchId) {
    exists i | 0 <= i < |s.log| :: s.log[i].Touched? && s.log[i].id == id
  }

  /** What one execute's phase implies. */
  ghost predicate PhaseHolds(s: State, run: RunId)
    requires run in s.execs
  {
    var id := s.execs[run].id;
    && id in s.known
    && match s.execs[run].phase
       case Saw(None) => Spent(s, id)
       case Ready => HasStarted(s.log, run, id, |s.log|) || Spent(s, id)
       case Cleared(batch) =>
         && HasStarted(s.log, run, id, |s.log|) && Spent(s, id) && !HasTouched(s, id)
         && id in s.saved && s.saved[id] == batch && batch.scope == s.execs[run].scope
       case _ => true
  }

  ghost predicate StoreHolds(s: State) {
    && (forall id | id in s.rows :: id in s.known && id in s.saved && s.saved[id] == s.rows[id])
    && (forall id | id in s.saved :: id in s.known)
  }

  /** At most one execute is past taking a given batch. */
  ghost predicate OneHolder(s: State) {
    forall a, b | a in s.execs && b in s.execs && a != b
                  && s.execs[a].phase.Cleared? && s.execs[b].phase.Cleared? :: s.execs[a].id != s.execs[b].id
  }

  /** What is promised of the log. */
  ghost predicate LogHolds(s: State) {
    && (forall i | 0 <= i < |s.log| && s.log[i].Touched? ::
          && HasStarted(s.log, s.log[i].run, s.log[i].id, i) && Spent(s, s.log[i].id)
          && s.log[i].id in s.saved && s.saved[s.log[i].id] == s.log[i].batch
          && s.log[i].batch.scope == s.log[i].scope)
    && (forall i, j | 0 <= i < j < |s.log| && s.log[i].Touched? && s.log[j].Touched? :: s.log[i].id != s.log[j].id)
  }

  ghost predicate Inv(s: State) {
    && StoreHolds(s) && OneHolder(s) && LogHolds(s)
    && (forall run | run in s.execs :: PhaseHolds(s, run))
  }

  /** What is spent stays spent: ids are not saved twice and the clock does not go back. */
  lemma SpentStays(s: State, step: Step, id: BatchId)
    requires StoreHolds(s) && CanStep(s, step) && Spent(s, id)
    ensures Spent(Next(s, step), id)
  {
  }

  lemma StepStore(s: State, step: Step)
    requires StoreHolds(s) && CanStep(s, step)
    ensures StoreHolds(Next(s, step))
  {
  }

  /** The log only grows. */
  lemma StartedStays(s: State, step: Step, run: RunId, id: BatchId, before: nat)
    requires CanStep(s, step) && HasStarted(s.log, run, id, before) && before <= |s.log|
    ensures HasStarted(Next(s, step).log, run, id, before)
    ensures HasStarted(Next(s, step).log, run, id, |Next(s, step).log|)
  {
    var j :| 0 <= j < before && j < |s.log| && s.log[j] == Started(run, id);
    assert Next(s, step).log[j] == Started(run, id);
  }

  /** Ids stay known, and no batch is stored over another. */
  lemma Grows(s: State, step: Step)
    requires StoreHolds(s) && CanStep(s, step)
    ensures s.known <= Next(s, step).known
    ensures forall id | id in s.saved :: id in Next(s, step).saved && Next(s, step).saved[id] == s.saved[id]
  {
  }

  /** An execute that does not move keeps what its phase implies. */
  lemma PhaseStays(s: State, step: Step, run: RunId)
    requires Inv(s) && CanStep(s, step) && run in s.execs && run in Next(s, step).execs
    requires Next(s, step).execs[run] == s.execs[run]
    ensures PhaseHolds(Next(s, step), run)
  {
    hide LogHolds, OneHolder, HasStarted, HasTouched, Spent, Next, CanStep, StoreHolds;
    var id := s.execs[run].id;
    assert PhaseHolds(s, run);
    Grows(s, step);
    if s.execs[run].phase.Cleared? {
      ClearedUntouched(s, step, run);
    }
    if Spent(s, id) {
      SpentStays(s, step, id);
    }
    if HasStarted(s.log, run, id, |s.log|) {
      StartedStays(s, step, run, id, |s.log|);
    }
  }

  lemma PhaseMoves(s: State, step: Step, run: RunId)
    requires Inv(s) && CanStep(s, step) && run in s.execs && step in {Peek(run), Record(run), Take(run)}
    ensures PhaseHolds(Next(s, step), run)
  {
    hide LogHolds, OneHolder;
    var s', id := Next(s, step), s.execs[run].id;
    assert PhaseHolds(s, run);
    match step {
      case Peek(_) =>
      case Record(_) =>
        if At(s, run).pending.Some? {
          assert s'.log[|s.log|] == Started(run, id);
        } else {
          SpentStays(s, step, id);
        }
      case Take(_) =>
        if s'.execs[run].phase.Cleared? {
          assert HasStarted(s.log, run, id, |s.log|);
          ClearedUntouched(s, step, run);
        }
    }
  }

  lemma StepPhase(s: State, step: Step, run: RunId)
    requires Inv(s) && CanStep(s, step) && run in Next(s, step).execs
    ensures PhaseHolds(Next(s, step), run)
  {
    hide Inv, HasStarted, HasTouched, Spent;
    if run in s.execs && step in {Peek(run), Record(run), Take(run)} {
      PhaseMoves(s, step, run);
    } else if run in s.execs && Next(s, step).execs[run] == s.execs[run] {
      PhaseStays(s, step, run);
    } else {
      Known(s, step, run);
    }
  }

  lemma Known(s: State, step: Step, run: RunId)
    requires Inv(s) && CanStep(s, step) && run in Next(s, step).execs
    ensures Next(s, step).execs[run].id in Next(s, step).known
  {
    assert run in s.execs ==> PhaseHolds(s, run);
  }

  /** A batch its taker has not touched yet was touched by nobody. */
  lemma ClearedUntouched(s: State, step: Step, run: RunId)
    requires Inv(s) && CanStep(s, step) && run in s.execs && run in Next(s, step).execs
    requires Next(s, step).execs[run].phase.Cleared?
    ensures !HasTouched(Next(s, step), s.execs[run].id)
  {
    WasClearedOrLive(s, step, run);
    NotTouchedBefore(s, run, Live(s.rows, s.execs[run].id, s.now));
    if step.Touch? {
      NotThisOne(s, step, run);
    }
    OneMoreEntry(s, step, s.execs[run].id);
  }

  lemma WasClearedOrLive(s: State, step: Step, run: RunId)
    requires CanStep(s, step) && run in s.execs && run in Next(s, step).execs
    requires Next(s, step).execs[run].phase.Cleared?
    ensures Live(s.rows, s.execs[run].id, s.now) || s.execs[run].phase.Cleared?
  {
  }

  lemma OneMoreEntry(s: State, step: Step, id: BatchId)
    requires CanStep(s, step) && !HasTouched(s, id) && (step.Touch? ==> s.execs[step.run].id != id)
    ensures !HasTouched(Next(s, step), id)
  {
    var s' := Next(s, step);
    assert forall i | 0 <= i < |s.log| :: s'.log[i] == s.log[i];
  }

  /** Nobody has touched a batch that is live, or that was taken and not touched. */
  lemma NotTouchedBefore(s: State, run: RunId, live: bool)
    requires Inv(s) && run in s.execs && live == Live(s.rows, s.execs[run].id, s.now)
    requires live || s.execs[run].phase.Cleared?
    ensures !HasTouched(s, s.execs[run].id)
  {
    assert PhaseHolds(s, run);
    forall i | 0 <= i < |s.log| && s.log[i].Touched?
      ensures s.log[i].id != s.execs[run].id
    {
      assert Spent(s, s.log[i].id);
    }
  }

  lemma NotThisOne(s: State, step: Step, run: RunId)
    requires Inv(s) && CanStep(s, step) && run in s.execs && step.Touch?
    requires Next(s, step).execs[run].phase.Cleared?
    ensures s.execs[step.run].id != s.execs[run].id
  {
    assert step.run != run;
  }

  lemma StepHolder(s: State, step: Step)
    requires Inv(s) && CanStep(s, step)
    ensures OneHolder(Next(s, step))
  {
    var s' := Next(s, step);
    forall a, b | a in s'.execs && b in s'.execs && a != b && s'.execs[a].phase.Cleared? && s'.execs[b].phase.Cleared?
      ensures s'.execs[a].id != s'.execs[b].id
    {
      assert PhaseHolds(s, a) && PhaseHolds(s, b);
    }
  }

  /** What the log says of one touch stays so, and holds of a new one. */
  lemma TouchHolds(s: State, step: Step, i: nat)
    requires Inv(s) && CanStep(s, step) && i < |Next(s, step).log| && Next(s, step).log[i].Touched?
    ensures var s' := Next(s, step);
            && HasStarted(s'.log, s'.log[i].run, s'.log[i].id, i) && Spent(s', s'.log[i].id)
            && s'.log[i].id in s'.saved && s'.saved[s'.log[i].id] == s'.log[i].batch
            && s'.log[i].batch.scope == s'.log[i].scope
  {
    var s' := Next(s, step);
    if i < |s.log| {
      assert s.log[i] == s'.log[i];
      StartedStays(s, step, s.log[i].run, s.log[i].id, i);
      SpentStays(s, step, s.log[i].id);
    } else {
      assert PhaseHolds(s, step.run);
      SpentStays(s, step, s'.log[i].id);
      StartedStays(s, step, step.run, s'.log[i].id, |s.log|);
    }
    hide Inv, LogHolds, PhaseHolds, HasStarted, Spent, StoreHolds;
  }

  lemma TouchedOnce(s: State, step: Step, i: nat, j: nat)
    requires Inv(s) && CanStep(s, step) && i < j < |Next(s, step).log|
    requires Next(s, step).log[i].Touched? && Next(s, step).log[j].Touched?
    ensures Next(s, step).log[i].id != Next(s, step).log[j].id
  {
    var s' := Next(s, step);
    assert s.log[i] == s'.log[i];
    if j == |s.log| {
      assert PhaseHolds(s, step.run);
    } else {
      assert s.log[j] == s'.log[j];
    }
  }

  lemma StepLog(s: State, step: Step)
    requires Inv(s) && CanStep(s, step)
    ensures LogHolds(Next(s, step))
  {
    hide Inv, HasStarted, Spent, CanStep, Next;
    var s' := Next(s, step);
    forall i: nat | i < |s'.log| && s'.log[i].Touched?
      ensures HasStarted(s'.log, s'.log[i].run, s'.log[i].id, i) && Spent(s', s'.log[i].id)
      ensures s'.log[i].id in s'.saved && s'.saved[s'.log[i].id] == s'.log[i].batch
      ensures s'.log[i].batch.scope == s'.log[i].scope
    {
      TouchHolds(s, step, i);
    }
    forall i: nat, j: nat | i < j < |s'.log| && s'.log[i].Touched? && s'.log[j].Touched?
      ensures s'.log[i].id != s'.log[j].id
    {
      TouchedOnce(s, step, i, j);
    }
  }

  lemma {:induction false} RunInv(s: State, steps: seq<Step>)
    requires Initial(s) && Valid(s, steps)
    ensures Inv(After(s, steps))
  {
    if steps != [] {
      RunInv(s, Front(steps));
      var before, step := After(s, Front(steps)), Last(steps);
      StepStore(before, step);
      StepHolder(before, step);
      StepLog(before, step);
      forall run | run in Next(before, step).execs
        ensures PhaseHolds(Next(before, step), run)
      {
        StepPhase(before, step, run);
      }
    }
  }

  /**
   Over all interleavings of executes, dry runs, expiry and failures: a batch reaches the
   broker at most once; only from the environment and vhost its dry run looked at; as the
   dry run stored it; and only after the attempt was put on record.
   */
  lemma OneShotScopedAudited(s: State, steps: seq<Step>)
    requires Initial(s) && Valid(s, steps)
    ensures var log, saved := After(s, steps).log, After(s, steps).saved;
            && (forall i, j | 0 <= i < j < |log| && log[i].Touched? && log[j].Touched? :: log[i].id != log[j].id)
            && (forall i | 0 <= i < |log| && log[i].Touched? ::
                  && log[i].id in saved && saved[log[i].id] == log[i].batch
                  && log[i].batch.scope == log[i].scope
                  && HasStarted(log, log[i].run, log[i].id, i))
  {
    RunInv(s, steps);
  }
}
