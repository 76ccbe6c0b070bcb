/** One execute with its audit trail, from first row to last: app/application/bulk_runs.py. */
module AuditedRuns {
  import opened Records
  import opened Broker
  import opened Session
  import opened BulkOperator
  import opened BulkService
  import opened BatchStore
  import opened DeliveryGuard
  import OneShot

  datatype Row =
    | Started(id: BatchId, batch: BulkBatch)
    | Failed(id: BatchId, error: Error)
    | Outcome(id: BatchId, fingerprint: Fingerprint, status: Status)
    | Finished(id: BatchId, summary: Summary)

  class AuditTrail {
    var rows: seq<Row>
    ghost var lost: nat   // writes that failed

    constructor ()
      ensures rows == [] && lost == 0
    {
      rows, lost := [], 0;
    }

    /** Every write can fail. */
    method Record(row: Row) returns (written: bool)
      modifies this
      ensures rows == if written then old(rows) + [row] else old(rows)
      ensures lost == if written then old(lost) else old(lost) + 1
    {
      written := *;
      if written {
        rows := rows + [row];
      } else {
        lost := lost + 1;
      }
    }
  }

  /** A row for every result, in the results' order. */
  function Outcomes(id: BatchId, results: seq<BulkResult>): seq<Row> {
    if results == [] then []
    else Outcomes(id, Front(results)) + [Outcome(id, Last(results).fingerprint, Last(results).status)]
  }

  lemma {:induction false} OutcomesMatch(id: BatchId, results: seq<BulkResult>)
    ensures |Outcomes(id, results)| == |results|
    ensures forall i | 0 <= i < |results| ::
              Outcomes(id, results)[i] == Outcome(id, results[i].fingerprint, results[i].status)
  {
    if results != [] {
      OutcomesMatch(id, Front(results));
    }
  }

  /** The rows after the broker: every result, then the batch; it stops at the first that cannot be written. */
  method RecordResults(trail: AuditTrail, id: BatchId, summary: Summary, results: seq<BulkResult>)
    returns (written: bool)
    modifies trail
    ensures written <==> trail.lost == old(trail.lost)
    ensures var all := old(trail.rows) + Outcomes(id, results) + [Finished(id, summary)];
            if written then trail.rows == all
            else old(trail.rows) <= trail.rows < all && trail.lost == old(trail.lost) + 1
  {
    for i := 0 to |results|
      invariant trail.rows == old(trail.rows) + Outcomes(id, results[..i]) && trail.lost == old(trail.lost)
    {
      assert results[..i + 1] == results[..i] + [results[i]];
      assert Front(results[..i + 1]) == results[..i];
      written := trail.Record(Outcome(id, results[i].fingerprint, results[i].status));
      if !written {
        OutcomesPrefix(id, results, i);
        return;
      }
    }
    assert results[..|results|] == results;
    written := trail.Record(Finished(id, summary));
  }

  lemma {:induction false} OutcomesPrefix(id: BatchId, results: seq<BulkResult>, i: nat)
    requires i <= |results|
    ensures Outcomes(id, results[..i]) <= Outcomes(id, results)
  {
    if i < |results| {
      assert Front(results)[..i] == results[..i];
      OutcomesPrefix(id, Front(results), i);
    } else {
      assert results[..i] == results;
    }
  }

  datatype Audited =
    | Unknown                   // no such batch any more, or another scope's
    | Unaudited                 // an audit row could not be written
    | Broke(error: Error)
    | Completed(batch: BulkBatch, summary: Summary, results: seq<BulkResult>)

  // ------------------------------------------------- the same, as steps of racing executes

  /** A call that has looked at the store. */
  lemma Looks(st: OneShot.State, run: OneShot.RunId, id: BatchId, scope: Scope, now: int)
    returns (steps: seq<OneShot.Step>)
    requires run !in st.execs && st.now <= now
    ensures OneShot.Valid(st, steps)
    ensures var after := OneShot.After(st, steps);
            && after.rows == st.rows && after.durable == st.durable && after.now == now && after.log == st.log
            && run in after.execs
            && after.execs[run] == OneShot.Exec(id, scope, OneShot.Saw(Peeked(st.rows, st.durable, id, now)))
  {
    hide Peeked;
    steps := OneShot.Goes(st, [], OneShot.Tick(now));
    steps := OneShot.Goes(st, steps, OneShot.Call(run, id, scope));
    steps := OneShot.Goes(st, steps, OneShot.Peek(run));
  }

  /** It has put its attempt on record, if it saw a batch, and takes the batch. */
  lemma Takes(st: OneShot.State, steps: seq<OneShot.Step>, run: OneShot.RunId, id: BatchId, scope: Scope, now: int,
              pending: Option<BulkBatch>) returns (longer: seq<OneShot.Step>)
    requires OneShot.Valid(st, steps) && OneShot.After(st, steps).now <= now
    requires var s := OneShot.After(st, steps);
             run in s.execs && s.execs[run] == OneShot.Exec(id, scope, OneShot.Saw(pending))
    ensures OneShot.Valid(st, longer)
    ensures var before, after := OneShot.After(st, steps), OneShot.After(st, longer);
            && after.rows == AfterTake(before.rows, before.durable, id, now)
            && after.log == before.log + (if pending.Some? then [OneShot.Started(run, id)] else [])
            && run in after.execs && after.execs[run].id == id && after.execs[run].scope == scope
            && (Live(before.rows, id, now) && before.rows[id].scope == scope ==>
                  after.execs[run].phase == OneShot.Cleared(before.rows[id]))
  {
    hide AfterTake, OneShot.After, OneShot.Valid;
    var s := OneShot.After(st, steps);
    assert s.log + [] == s.log;
    longer := OneShot.Goes(st, steps, OneShot.Record(run));
    longer := OneShot.Goes(st, longer, OneShot.Tick(now));
    longer := OneShot.Goes(st, longer, OneShot.Take(run));
  }

  /** What a call adds to the log of all executes: its attempt, and that it touched the broker. */
  ghost predicate Logs(st: OneShot.State, steps: seq<OneShot.Step>, rows: Rows, run: OneShot.RunId, id: BatchId,
                       scope: Scope, started: bool, touched: Option<BulkBatch>)
  {
    && OneShot.Valid(st, steps)
    && OneShot.After(st, steps).rows == rows
    && OneShot.After(st, steps).log
       == st.log + (if started then [OneShot.Started(run, id)] else [])
          + (if touched.Some? then [OneShot.Touched(run, id, scope, touched.value)] else [])
  }

  /** Nothing more happens after the attempt is on record, or was not to be, or could not be. */
  lemma LogsAttempt(st: OneShot.State, steps: seq<OneShot.Step>, rows: Rows, run: OneShot.RunId, id: BatchId,
                    scope: Scope, started: bool)
    requires OneShot.Valid(st, steps) && OneShot.After(st, steps).rows == rows
    requires OneShot.After(st, steps).log == st.log + (if started then [OneShot.Started(run, id)] else [])
    ensures Logs(st, steps, rows, run, id, scope, started, None)
  {
    hide OneShot.Valid, OneShot.After;
    var log := OneShot.After(st, steps).log;
    assert log + [] == log;
  }

  lemma GivesUp(st: OneShot.State, steps: seq<OneShot.Step>, run: OneShot.RunId) returns (longer: seq<OneShot.Step>)
    requires OneShot.Valid(st, steps) && run in OneShot.After(st, steps).execs
    ensures OneShot.Valid(st, longer)
    ensures OneShot.After(st, longer).rows == OneShot.After(st, steps).rows
    ensures OneShot.After(st, longer).log == OneShot.After(st, steps).log
  {
    longer := OneShot.Goes(st, steps, OneShot.Die(run));
  }

  lemma Touches(st: OneShot.State, steps: seq<OneShot.Step>, rows: Rows, run: OneShot.RunId, id: BatchId, scope: Scope,
                batch: BulkBatch) returns (longer: seq<OneShot.Step>)
    requires Logs(st, steps, rows, run, id, scope, true, None) && run in OneShot.After(st, steps).execs
    requires OneShot.After(st, steps).execs[run] == OneShot.Exec(id, scope, OneShot.Cleared(batch))
    ensures Logs(st, longer, rows, run, id, scope, true, Some(batch))
  {
    var log := OneShot.After(st, steps).log;
    longer := OneShot.Goes(st, steps, OneShot.Touch(run));
    assert log == st.log + [OneShot.Started(run, id)] + [] == st.log + [OneShot.Started(run, id)];
  }

  /** The rows to be written after `execute` returned or raised. */
  function RowsOf(id: BatchId, executed: Executed): seq<Row> {
    match executed
    case Raised(error) => [Row.Failed(id, error)]
    case Done(_, summary, results) => Outcomes(id, results) + [Finished(id, summary)]
    case _ => []
  }

  /** What the caller is told, if they could all be written. */
  function ToldOf(executed: Executed): Audited {
    match executed
    case Raised(error) => Broke(error)
    case Done(batch, summary, results) => Completed(batch, summary, results)
    case _ => Unknown
  }

  /** All of these rows were written and the caller is told, or one was not and the ones before it were. */
  ghost predicate Written(before: seq<Row>, after: seq<Row>, lost: bool, rows: seq<Row>, told: Audited, r: Audited) {
    if lost then r.Unaudited? && before <= after < before + rows
    else r == told && after == before + rows
  }

  method RecordEnd(trail: AuditTrail, id: BatchId, executed: Executed) returns (r: Audited)
    modifies trail
    ensures trail.lost >= old(trail.lost)
    ensures Written(old(trail.rows), trail.rows, trail.lost > old(trail.lost), RowsOf(id, executed), ToldOf(executed),
                    r)
  {
    match executed {
      case UnknownBatch =>
        r := Unknown;
      case WrongScope =>
        r := Unknown;
      case Raised(error) =>
        var written := trail.Record(Row.Failed(id, error));
        r := if written then Broke(error) else Unaudited;
      case Done(batch, summary, results) =>
        var written := RecordResults(trail, id, summary, results);
        r := if written then Completed(batch, summary, results) else Unaudited;
        assert old(trail.rows) + Outcomes(id, results) + [Finished(id, summary)]
            == old(trail.rows) + RowsOf(id, executed);
    }
  }

  /**
   No audit, no action: the broker is touched only after the attempt is on record, and the trail
   only grows. If every write works, the trail gets the attempt, then what `Execute` came to: one row
   for every approved fingerprint in order with its true outcome and then the counts, or the error. If
   one does not, the rows stop there and the caller is told of nothing else. A batch whose report is
   lost leaves no row of what happened to its messages, though they may have moved.

   `executed` is what `Execute` came to; None if the attempt could not be put on record. The call is a
   run of the steps of `OneShot`, from any state whose store is this one: what that module proves of
   all interleavings is about this code. `touched` is the batch it got past taking.
   */
  method ExecuteAudited(store: Store, trail: AuditTrail, scope: Scope, id: BatchId, peekedAt: int, takenAt: int,
                        guard: Verdict, maxBulk: nat, s: Channel, ghost st: OneShot.State, ghost run: OneShot.RunId)
    returns (r: Audited, ghost executed: Option<Executed>, ghost steps: seq<OneShot.Step>,
             ghost touched: Option<BulkBatch>)
    requires s.Fresh() && peekedAt <= takenAt
    requires st.rows == store.rows && st.durable == store.durable && st.now <= peekedAt && run !in st.execs
    modifies store, trail, s
    ensures s.Valid() && !s.open && trail.lost >= old(trail.lost)
    ensures executed.None? ==>
              && r.Unaudited? && s.mine == [] && s.sent == [] && store.rows == old(store.rows)
              && trail.rows == old(trail.rows) && trail.lost > old(trail.lost)
              && Peeked(old(store.rows), store.durable, id, peekedAt).Some?
    ensures executed.Some? ==>
              var pending := Peeked(old(store.rows), store.durable, id, peekedAt);
              var attempt := if pending.Some? then [Started(id, pending.value)] else [];
              && Executes(old(store.rows), scope, id, takenAt, guard, maxBulk, s, executed.value)
              && Written(old(trail.rows) + attempt, trail.rows, trail.lost > old(trail.lost),
                         RowsOf(id, executed.value), ToldOf(executed.value), r)
    ensures s.mine != [] ==>
              && old(Live(store.rows, id, takenAt) && store.rows[id].scope == scope)
              && old(trail.rows) + [Started(id, old(store.rows)[id])] <= trail.rows
    ensures ReportLost(s.raised) ==>
              && (r.Broke? || r.Unaudited?)
              && (forall row | row in trail.rows[|old(trail.rows)|..] :: row.Started? || row.Failed?)
    ensures Logs(st, steps, store.rows, run, id, scope, trail.rows != old(trail.rows), touched)
    ensures touched.Some? <==>
              executed.Some? && old(Live(store.rows, id, takenAt) && store.rows[id].scope == scope)
    ensures touched.Some? ==> touched.value == old(store.rows)[id]
    ensures s.mine != [] ==> touched.Some?
  {
    hide Legal, Run, Own, Accounted, On, Session.Read, Executes, ReportLost, OneShot.Valid, OneShot.After, Logs,
      AfterTake, Outcomes;
    assert !ReportLost([]) by { NothingLost(); }
    touched, executed := None, None;
    ghost var rows, before := store.rows, trail.rows;
    steps := Looks(st, run, id, scope, peekedAt);
    var pending := store.Peek(id, peekedAt);
    if pending.Some? {
      var written := trail.Record(Started(id, pending.value));
      if !written {
        steps := GivesUp(st, steps, run);
        LogsAttempt(st, steps, store.rows, run, id, scope, false);
        return Unaudited, None, steps, None;
      }
    }
    steps := Takes(st, steps, run, id, scope, takenAt, pending);
    ghost var begun := trail.rows;
    LogsAttempt(st, steps, AfterTake(rows, store.durable, id, takenAt), run, id, scope, begun != before);
    var done := Execute(store, scope, id, takenAt, guard, maxBulk, s);
    ExecuteMeans(rows, scope, id, takenAt, guard, maxBulk, s, done);
    executed := Some(done);
    r := RecordEnd(trail, id, done);
    if done.Raised? || done.Done? {
      touched := Some(rows[id]);
      steps := Touches(st, steps, store.rows, run, id, scope, rows[id]);
    }
  }
}
