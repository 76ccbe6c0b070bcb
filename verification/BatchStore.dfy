/**
 Dry runs, where they wait to be executed, and executing one: app/application/bulk_service.py
 and the batch store of app/infrastructure/persistence/store.py.
 */
module BatchStore {
  import opened Records
  import opened Broker
  import opened Session
  import opened Browser
  import opened Operator
  import opened BulkOperator
  import opened BulkService
  import opened DeliveryGuard

  type BatchId = string
  type Scope = (string, string)  // environment and vhost

  /** `name` is the action as it was asked for, `action` what the operator does for it. */
  datatype BulkBatch = BulkBatch(
    id: BatchId,
    sourceQueue: string,
    name: string,
    action: Action,
    target: Option<ReplayTarget>,
    fingerprints: set<Fingerprint>,
    messageCount: nat,
    duplicates: nat,
    samples: seq<Fingerprint>,
    scanLimit: nat,
    scope: Scope,
    expiresAt: int)

  type Rows = map<BatchId, BulkBatch>

  predicate Live(rows: Rows, id: BatchId, now: int) {
    id in rows && rows[id].expiresAt >= now
  }

  function Unexpired(rows: Rows, now: int): Rows {
    map id | id in rows && rows[id].expiresAt >= now :: rows[id]
  }

  /** The database answers for live rows only; the in-process dictionary for any it still has. */
  function Peeked(rows: Rows, durable: bool, id: BatchId, now: int): Option<BulkBatch> {
    if if durable then Live(rows, id, now) else id in rows then Some(rows[id]) else None
  }

  /** One statement in the database; prune and pop in process. */
  function AfterTake(rows: Rows, durable: bool, id: BatchId, now: int): Rows {
    if durable then (if Live(rows, id, now) then rows - {id} else rows)
    else Unexpired(rows, now) - {id}
  }

  /** A taken batch cannot be taken again, and no other batch is affected. */
  lemma TakenOnce(rows: Rows, durable: bool, id: BatchId, now: int, other: BatchId, later: int)
    requires now <= later
    ensures !Live(AfterTake(rows, durable, id, now), id, later)
    ensures other != id ==>
              (Live(AfterTake(rows, durable, id, now), other, later) <==> Live(rows, other, later))
              && (Live(rows, other, later) ==> AfterTake(rows, durable, id, now)[other] == rows[other])
  {
  }

  class Store {
    const durable: bool
    var rows: Rows

    constructor (durable: bool)
      ensures this.durable == durable && rows == map[]
    {
      this.durable, rows := durable, map[];
    }

    method Save(id: BatchId, batch: BulkBatch)
      modifies this
      ensures rows == old(rows)[id := batch]
    {
      rows := rows[id := batch];
    }

    method Peek(id: BatchId, now: int) returns (r: Option<BulkBatch>)
      ensures r == Peeked(rows, durable, id, now)
    {
      if id !in rows || (durable && rows[id].expiresAt < now) {
        return None;
      }
      r := Some(rows[id]);
    }

    method PruneExpired(now: int)
      modifies this
      ensures rows == Unexpired(old(rows), now)
    {
      var expired := set id | id in rows && rows[id].expiresAt < now;
      rows := rows - expired;
    }

    /** One-shot: the batch if it is live, and gone afterwards either way. */
    method Take(id: BatchId, now: int) returns (r: Option<BulkBatch>)
      modifies this
      ensures r == if old(Live(rows, id, now)) then Some(old(rows)[id]) else None
      ensures rows == AfterTake(old(rows), durable, id, now)
    {
      if durable {
        if id !in rows || rows[id].expiresAt < now {
          return None;
        }
      } else {
        PruneExpired(now);
        if id !in rows {
          assert rows - {id} == rows;
          return None;
        }
      }
      r := Some(rows[id]);
      rows := rows - {id};
    }
  }

  function GuardError(why: Refusal): Error { if why.BrokerUnreachable? then ConnectionLost else UnsafeToBrowse }

  /** Python's `or`: zero counts as nothing. */
  function Or(asked: Option<nat>, standard: nat): nat {
    if asked.Some? && asked.value != 0 then asked.value else standard
  }

  datatype Executed =
    | UnknownBatch
    | WrongScope                // the token is spent either way
    | Raised(error: Error)
    | Done(batch: BulkBatch, summary: Summary, results: seq<BulkResult>)

  /** What the operator replied, of an execute that got as far as asking it. */
  function Replied(r: Executed): Reply<seq<BulkResult>>
    requires r.Raised? || r.Done?
  {
    if r.Raised? then Raise(r.error) else Ok(r.results)
  }

  /**
   What executing a dry run does, given the batches stored before. The broker is touched only for a
   live batch of this scope that the guard lets pass, and then this is one run of `OperateBulk` over
   just the fingerprints the dry run approved, with its action, to its target, as deep as its scan.
   The counts are those of the results, one for each approved fingerprint.
   */
  ghost predicate Executes(rows: Rows, scope: Scope, id: BatchId, now: int, guard: Verdict, maxBulk: nat, s: Channel,
                           r: Executed)
    reads s
  {
    && (r.UnknownBatch? <==> !Live(rows, id, now))
    && (r.WrongScope? <==> Live(rows, id, now) && rows[id].scope != scope)
    && (r.UnknownBatch? || r.WrongScope? || guard.Refuse? ==>
          s.mine == [] && s.sent == [] && s.raised == [] && !s.faulted)
    && (guard.Refuse? && (r.Raised? || r.Done?) ==>
          r == Raised(if guard.why.BrokerUnreachable? then ConnectionLost else UnsafeToBrowse))
    && (guard.Browse? && (r.Raised? || r.Done?) ==>
          var batch := rows[id];
          var limit := if batch.scanLimit != 0 then batch.scanLimit else maxBulk;
          && BulkOperated(s, batch.fingerprints, batch.action, batch.target, limit, guard.whole, Read(s.mine),
                          Replied(r))
          && (r.Done? && s.quiet && !s.faulted ==> Read(s.mine) == Visible(s.start.ready, limit, guard.whole))
          && (s.quiet && !s.faulted && !batch.action.Browse? ==>
                (r == Raised(UnsafeToBrowse)
                 <==> if guard.whole then |s.start.ready| > limit else limit == 0 && s.start.ready != [])))
    && (r.Done? ==>
          && r.batch == rows[id]
          && r.summary == Summarize(r.results) && r.summary.Total() == |r.results| == |r.batch.fingerprints|)
  }

  /** Execute a dry run. `guard` is what `assert_browsable` says meanwhile. */
  method Execute(store: Store, scope: Scope, id: BatchId, now: int, guard: Verdict, maxBulk: nat, s: Channel)
    returns (r: Executed)
    requires s.Fresh()
    modifies store, s
    ensures s.Valid() && !s.open
    ensures store.rows == AfterTake(old(store.rows), store.durable, id, now)
    ensures Executes(old(store.rows), scope, id, now, guard, maxBulk, s, r)
  {
    hide Legal, Run, Own, Accounted, On, Read, Visible, BulkOperated, ReportLost;
    var taken := store.Take(id, now);
    if taken.None? {
      return UnknownBatch;
    }
    var batch := taken.value;
    if batch.scope != scope {
      return WrongScope;
    }
    if guard.Refuse? {
      return Raised(GuardError(guard.why));
    }
    var limit := Or(Some(batch.scanLimit), maxBulk);
    var done := OperateBulk(s, batch.fingerprints, batch.action, batch.target, limit, guard.whole);
    if done.Raise? {
      return Raised(done.error);
    }
    CountsAddUp(done.value);
    BulkMeans(s, batch.fingerprints, batch.action, batch.target, limit, guard.whole, Read(s.mine), done);
    r := Done(batch, Summarize(done.value), done.value);
  }

  lemma ExecuteMeans(rows: Rows, scope: Scope, id: BatchId, now: int, guard: Verdict, maxBulk: nat, s: Channel,
                     r: Executed)
    requires Executes(rows, scope, id, now, guard, maxBulk, s, r)
    ensures r.Raised? || r.Done? <==> Live(rows, id, now) && rows[id].scope == scope
    ensures r.Done? ==> r.batch == rows[id]
    ensures s.mine != [] ==> r.Raised? || r.Done?
    ensures ReportLost(s.raised) ==> r.Raised?
  {
    NothingLost();
    hide Read, BulkOperated, ReportLost;
    if guard.Browse? && (r.Raised? || r.Done?) {
      var batch := rows[id];
      BulkMeans(s, batch.fingerprints, batch.action, batch.target,
                if batch.scanLimit != 0 then batch.scanLimit else maxBulk, guard.whole, Read(s.mine), Replied(r));
    }
  }

  lemma NothingLost()
    ensures !ReportLost([])
  {
  }

  // -------------------------------------------------------------- a batch as JSON and back

  /** The stored form: sets and tuples become lists. */
  datatype Payload = Payload(
    id: BatchId, sourceQueue: string, name: string, action: Action, target: Option<ReplayTarget>,
    fingerprints: seq<Fingerprint>, messageCount: nat, duplicates: nat, samples: seq<Fingerprint>,
    scanLimit: Option<nat>, scope: seq<string>, expiresAt: int)

  function ToPayload(b: BulkBatch): Payload {
    Payload(b.id, b.sourceQueue, b.name, b.action, b.target, Sorted(b.fingerprints),
            b.messageCount, b.duplicates, b.samples, Some(b.scanLimit), [b.scope.0, b.scope.1], b.expiresAt)
  }

  /** Rows from before scan limits and scopes have neither. */
  function FromPayload(p: Payload): BulkBatch {
    BulkBatch(p.id, p.sourceQueue, p.name, p.action, p.target, SetOf(p.fingerprints), p.messageCount, p.duplicates,
              p.samples, if p.scanLimit.Some? then p.scanLimit.value else 0,
              if |p.scope| == 2 then (p.scope[0], p.scope[1]) else ("", ""),
              p.expiresAt)
  }

  /** Storing a batch keeps what it approves. */
  lemma PayloadRoundTrip(b: BulkBatch)
    ensures FromPayload(ToPayload(b)) == b
  {
    assert SetOf(Sorted(b.fingerprints)) == b.fingerprints;
  }
}
