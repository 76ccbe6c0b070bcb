/**
 The sliding-window limit on failed logins: app/auth/basic.py, with LoginFailureRepository of
 app/infrastructure/persistence/store.py. Requests are handled one at a time.
 */
module LoginLimiter {
  import opened Records

  const MAX_FAILURES: nat := 10         // per (ip, username)
  const MAX_IP_FAILURES: nat := 50      // per ip
  const WINDOW: nat := 60_000_000       // 60 seconds in microseconds

  /** A digest in the code; equal digests mean equal parts. */
  datatype Key = OfUser(ip: string, user: string) | OfIp(ip: string)
  {
    function Limit(): nat { if OfUser? then MAX_FAILURES else MAX_IP_FAILURES }
  }

  datatype Row = Row(key: Key, at: int)

  datatype Credentials = Nothing | Given(user: string, right: bool)

  /** A request is checked, and if its password is wrong, that is recorded a little later. */
  datatype Request = Request(ip: string, credentials: Credentials, checkedAt: int, failedAt: int)
  {
    function User(): string { if credentials.Nothing? then "" else credentials.user }
  }

  datatype Outcome = LetIn | Unauthorized | TooMany

  function Count(rows: seq<Row>, key: Key, since: int): nat {
    if rows == [] then 0 else
      Count(Front(rows), key, since) + (if Last(rows).key == key && Last(rows).at > since then 1 else 0)
  }

  predicate Limited(rows: seq<Row>, ip: string, user: string, now: int) {
    || Count(rows, OfUser(ip, user), now - WINDOW) >= MAX_FAILURES
    || Count(rows, OfIp(ip), now - WINDOW) >= MAX_IP_FAILURES
  }

  function Decide(rows: seq<Row>, r: Request): Outcome {
    if Limited(rows, r.ip, r.User(), r.checkedAt) then TooMany
    else if r.credentials.Given? && r.credentials.right then LetIn
    else Unauthorized
  }

  function NewRows(rows: seq<Row>, r: Request): seq<Row> {
    if Decide(rows, r).Unauthorized? && r.credentials.Given?
    then [Row(OfUser(r.ip, r.User()), r.failedAt), Row(OfIp(r.ip), r.failedAt)]
    else []
  }

  /** Every failure ever recorded, had none been deleted. */
  function Failures(requests: seq<Request>): seq<Row> {
    if requests == [] then [] else
      var before := Failures(Front(requests));
      before + NewRows(before, Last(requests))
  }

  /** One at a time, by a clock that does not go back. */
  predicate InTime(requests: seq<Request>) {
    && (forall i | 0 <= i < |requests| :: requests[i].checkedAt <= requests[i].failedAt)
    && (forall i, j | 0 <= i < j < |requests| :: requests[i].failedAt <= requests[j].checkedAt)
  }

  // -------------------------------------------------- requests and what they were answered

  /** The answers are those of a limiter that forgets no failure. */
  ghost predicate Told(requests: seq<Request>, outcomes: seq<Outcome>) {
    && |requests| == |outcomes|
    && (requests != [] ==>
          && Told(Front(requests), Front(outcomes))
          && Last(outcomes) == Decide(Failures(Front(requests)), Last(requests)))
  }

  /** Request i had credentials, was answered Unauthorized, and counts for this key. */
  predicate FailedFor(requests: seq<Request>, outcomes: seq<Outcome>, i: nat, key: Key)
    requires i < |requests| == |outcomes|
  {
    && requests[i].credentials.Given? && outcomes[i].Unauthorized?
    && match key
       case OfUser(ip, user) => requests[i].ip == ip && requests[i].credentials.user == user
       case OfIp(ip) => requests[i].ip == ip
  }

  /** The failed requests of this key after a time. */
  ghost function FailedSince(requests: seq<Request>, outcomes: seq<Outcome>, key: Key, since: int): set<nat>
    requires |requests| == |outcomes|
  {
    set i: nat | i < |requests| && FailedFor(requests, outcomes, i, key) && requests[i].failedAt > since
  }

  /**
   Request j is refused exactly if ten earlier requests of its address and user, or fifty of its
   address, failed less than 60 seconds before; if it is not, a right password lets it in, and nothing
   else does.
   */
  ghost predicate AnsweredRightly(requests: seq<Request>, outcomes: seq<Outcome>, j: nat)
    requires j < |requests| == |outcomes|
  {
    var r, earlier, answers := requests[j], requests[..j], outcomes[..j];
    var refused := || |FailedSince(earlier, answers, OfUser(r.ip, r.User()), r.checkedAt - 60_000_000)| >= 10
                   || |FailedSince(earlier, answers, OfIp(r.ip), r.checkedAt - 60_000_000)| >= 50;
    && (outcomes[j].TooMany? <==> refused)
    && (outcomes[j].LetIn? <==> !refused && r.credentials.Given? && r.credentials.right)
  }

  lemma CountTwoMore(rows: seq<Row>, a: Row, b: Row, key: Key, since: int)
    ensures Count(rows + [a, b], key, since)
         == Count(rows, key, since) + (if a.key == key && a.at > since then 1 else 0)
                                    + (if b.key == key && b.at > since then 1 else 0)
  {
    assert Front(rows + [a, b]) == rows + [a] && Front(rows + [a]) == rows;
  }

  lemma OneMoreFailed(requests: seq<Request>, outcomes: seq<Outcome>, key: Key, since: int)
    requires |requests| == |outcomes| && requests != []
    ensures |FailedSince(requests, outcomes, key, since)|
         == |FailedSince(Front(requests), Front(outcomes), key, since)|
            + (if FailedFor(requests, outcomes, |requests| - 1, key) && Last(requests).failedAt > since then 1 else 0)
  {
    var front, answers := Front(requests), Front(outcomes);
    assert forall i: nat | i < |front| :: FailedFor(front, answers, i, key) <==> FailedFor(requests, outcomes, i, key);
    hide FailedFor;
    OneMoreIn(FailedSince(front, answers, key, since), FailedSince(requests, outcomes, key, since), |front|,
              FailedFor(requests, outcomes, |front|, key) && Last(requests).failedAt > since);
  }

  /** A failed request is on record once for its user and once for its address, at its time; no other request is. */
  lemma {:induction false} CountsFailures(requests: seq<Request>, outcomes: seq<Outcome>, key: Key, since: int)
    requires Told(requests, outcomes)
    ensures Count(Failures(requests), key, since) == |FailedSince(requests, outcomes, key, since)|
  {
    if requests == [] {
      assert FailedSince(requests, outcomes, key, since) == {};
    } else {
      hide Count, FailedSince, Decide;
      var before, r := Failures(Front(requests)), Last(requests);
      CountsFailures(Front(requests), Front(outcomes), key, since);
      OneMoreFailed(requests, outcomes, key, since);
      if Last(outcomes).Unauthorized? && r.credentials.Given? {
        CountTwoMore(before, Row(OfUser(r.ip, r.User()), r.failedAt), Row(OfIp(r.ip), r.failedAt), key, since);
      } else {
        assert before + [] == before;
      }
    }
  }

  lemma {:induction false} ToldUpTo(requests: seq<Request>, outcomes: seq<Outcome>, j: nat)
    requires Told(requests, outcomes) && j < |requests|
    ensures Told(requests[..j], outcomes[..j])
    ensures outcomes[j] == Decide(Failures(requests[..j]), requests[j])
  {
    hide Decide, Failures;
    if j < |requests| - 1 {
      ToldUpTo(Front(requests), Front(outcomes), j);
      assert Front(requests)[..j] == requests[..j] && Front(outcomes)[..j] == outcomes[..j];
      assert Front(requests)[j] == requests[j] && Front(outcomes)[j] == outcomes[j];
    } else {
      assert requests[..j] == Front(requests) && outcomes[..j] == Front(outcomes);
    }
  }

  /** Every answer is right by the earlier requests and their answers alone. */
  lemma RefusedExactly(requests: seq<Request>, outcomes: seq<Outcome>, j: nat)
    requires Told(requests, outcomes) && j < |requests|
    ensures AnsweredRightly(requests, outcomes, j)
  {
    hide Count, FailedSince, Failures, Told;
    var r := requests[j];
    assert |requests| == |outcomes| by { SameNumber(requests, outcomes); }
    ToldUpTo(requests, outcomes, j);
    CountsFailures(requests[..j], outcomes[..j], OfUser(r.ip, r.User()), r.checkedAt - WINDOW);
    CountsFailures(requests[..j], outcomes[..j], OfIp(r.ip), r.checkedAt - WINDOW);
  }

  lemma SameNumber(requests: seq<Request>, outcomes: seq<Outcome>)
    requires Told(requests, outcomes)
    ensures |requests| == |outcomes|
  {
  }

  // -------------------------------------------------------------------- the pruned table

  function Since(rows: seq<Row>, cutoff: int): seq<Row> {
    if rows == [] then [] else Since(Front(rows), cutoff) + (if Last(rows).at < cutoff then [] else [Last(rows)])
  }

  lemma {:induction false} SinceCounts(rows: seq<Row>, cutoff: int, key: Key, since: int)
    requires cutoff <= since
    ensures Count(Since(rows, cutoff), key, since) == Count(rows, key, since)
  {
    if rows != [] {
      var rest := Since(Front(rows), cutoff);
      SinceCounts(Front(rows), cutoff, key, since);
      assert Front(rest + [Last(rows)]) == rest;
      assert Since(rows, cutoff) == if Last(rows).at < cutoff then rest else rest + [Last(rows)];
    }
  }

  lemma {:induction false} SinceTwice(rows: seq<Row>, a: int, b: int)
    requires a <= b
    ensures Since(Since(rows, a), b) == Since(rows, b)
  {
    if rows != [] {
      var rest := Since(Front(rows), a);
      SinceTwice(Front(rows), a, b);
      assert Front(rest + [Last(rows)]) == rest;
      assert Since(rows, a) == if Last(rows).at < a then rest else rest + [Last(rows)];
    }
  }

  lemma {:induction false} SinceConcat(a: seq<Row>, b: seq<Row>, cutoff: int)
    ensures Since(a + b, cutoff) == Since(a, cutoff) + Since(b, cutoff)
    decreases |b|
  {
    if b == [] {
      assert a + b == a;
    } else {
      SinceConcat(a, Front(b), cutoff);
      assert Front(a + b) == a + Front(b);
    }
  }

  function RowsFor(keys: seq<Key>, at: int): seq<Row> { seq(|keys|, i requires 0 <= i < |keys| => Row(keys[i], at)) }

  class LoginFailures {
    var rows: seq<Row>

    constructor ()
      ensures rows == []
    {
      rows := [];
    }

    method Add(keys: seq<Key>, at: int, forgetBefore: int)
      modifies this
      ensures rows == Since(old(rows) + RowsFor(keys, at), forgetBefore)
    {
      rows := rows + RowsFor(keys, at);
      rows := Since(rows, forgetBefore);
    }
  }

  class Limiter {
    const table: LoginFailures
    ghost var requests: seq<Request>
    ghost var outcomes: seq<Outcome>    // what they were answered
    ghost var cutoff: int

    /** The table is what is left of the full history, and no row that can still count is gone. */
    ghost predicate Valid()
      reads this, table
    {
      && InTime(requests) && Told(requests, outcomes)
      && table.rows == Since(Failures(requests), cutoff)
      && (requests != [] ==> cutoff <= Last(requests).failedAt - WINDOW)
    }

    constructor ()
      ensures Valid() && requests == [] && outcomes == [] && fresh(table)
    {
      table := new LoginFailures();
      requests, outcomes, cutoff := [], [], 0;
    }

    /** Decides every request as if no row had ever been deleted: by the earlier requests and their answers. */
    method Authenticate(r: Request) returns (outcome: Outcome)
      requires Valid() && InTime(requests + [r])
      modifies this, table
      ensures Valid() && requests == old(requests) + [r] && outcomes == old(outcomes) + [outcome]
      ensures |requests| == |outcomes| && forall j | 0 <= j < |requests| :: AnsweredRightly(requests, outcomes, j)
    {
      hide Count, Since, Failures, InTime, Told, Decide, AnsweredRightly;
      outcome := Answer(r);
      Tells(requests, outcomes, r, outcome);
      requests, outcomes := requests + [r], outcomes + [outcome];
      SameNumber(requests, outcomes);
      forall j | 0 <= j < |requests|
        ensures AnsweredRightly(requests, outcomes, j)
      {
        RefusedExactly(requests, outcomes, j);
      }
    }

    /** The checks, and the rows of a failure. */
    method Answer(r: Request) returns (outcome: Outcome)
      requires Valid() && InTime(requests + [r])
      modifies this`cutoff, table
      ensures outcome == Decide(Failures(requests), r)
      ensures table.rows == Since(Failures(requests + [r]), cutoff) && cutoff <= r.failedAt - WINDOW
    {
      hide Count, Since, Failures, InTime, Told;
      ghost var all := Failures(requests);
      InTimeAt(requests, r);
      if requests == [] {
        NoRows(cutoff);
        cutoff := r.failedAt - WINDOW;
        NoRows(cutoff);
      }
      DecidesAlike(all, cutoff, r);
      OneMoreRequest(requests, r);
      if Count(table.rows, OfUser(r.ip, r.User()), r.checkedAt - WINDOW) >= MAX_FAILURES {
        return TooMany;
      }
      if Count(table.rows, OfIp(r.ip), r.checkedAt - WINDOW) >= MAX_IP_FAILURES {
        return TooMany;
      }
      if r.credentials.Nothing? {
        return Unauthorized;
      }
      if r.credentials.right {
        return LetIn;
      }
      table.Add([OfUser(r.ip, r.User()), OfIp(r.ip)], r.failedAt, r.failedAt - WINDOW);
      PrunedAgain(all, NewRows(all, r), cutoff, r.failedAt - WINDOW);
      assert RowsFor([OfUser(r.ip, r.User()), OfIp(r.ip)], r.failedAt) == NewRows(all, r);
      cutoff := r.failedAt - WINDOW;
      return Unauthorized;
    }
  }

  lemma Tells(requests: seq<Request>, outcomes: seq<Outcome>, r: Request, outcome: Outcome)
    requires Told(requests, outcomes) && outcome == Decide(Failures(requests), r)
    ensures Told(requests + [r], outcomes + [outcome])
  {
    assert Front(requests + [r]) == requests && Front(outcomes + [outcome]) == outcomes;
  }

  lemma OneMoreRequest(requests: seq<Request>, r: Request)
    ensures var before := Failures(requests);
            Failures(requests + [r]) == if NewRows(before, r) == [] then before else before + NewRows(before, r)
  {
    assert Front(requests + [r]) == requests && Last(requests + [r]) == r;
  }

  lemma InTimeAt(requests: seq<Request>, r: Request)
    requires InTime(requests + [r])
    ensures r.checkedAt <= r.failedAt && (requests != [] ==> Last(requests).failedAt <= r.checkedAt)
    ensures Last(requests + [r]) == r
  {
    var last := requests + [r];
    assert last[|last| - 1] == r && (requests != [] ==> last[|last| - 2] == Last(requests));
  }

  lemma NoRows(cutoff: int)
    ensures Since([], cutoff) == [] && Failures([]) == []
  {
  }

  lemma DecidesAlike(rows: seq<Row>, cutoff: int, r: Request)
    requires cutoff <= r.checkedAt - WINDOW || rows == []
    ensures Decide(Since(rows, cutoff), r) == Decide(rows, r)
    ensures Limited(Since(rows, cutoff), r.ip, r.User(), r.checkedAt) == Limited(rows, r.ip, r.User(), r.checkedAt)
  {
    if rows != [] {
      SinceCounts(rows, cutoff, OfUser(r.ip, r.User()), r.checkedAt - WINDOW);
      SinceCounts(rows, cutoff, OfIp(r.ip), r.checkedAt - WINDOW);
    }
  }

  lemma PrunedAgain(rows: seq<Row>, more: seq<Row>, a: int, b: int)
    requires a <= b
    ensures Since(Since(rows, a) + more, b) == Since(rows + more, b)
  {
    SinceConcat(Since(rows, a), more, b);
    SinceConcat(rows, more, b);
    SinceTwice(rows, a, b);
  }

  // -------------------------------------------------------------------- what is proved

  /** Recorded failures of a key in the 60 seconds after t. */
  function Within(rows: seq<Row>, key: Key, t: int): nat {
    if rows == [] then 0 else
      Within(Front(rows), key, t) + (if Last(rows).key == key && t < Last(rows).at <= t + WINDOW then 1 else 0)
  }

  lemma {:induction false} WithinCounts(rows: seq<Row>, key: Key, t: int, since: int)
    requires since <= t
    ensures Within(rows, key, t) <= Count(rows, key, since)
  {
    if rows != [] {
      WithinCounts(Front(rows), key, t, since);
    }
  }

  lemma TwoMore(rows: seq<Row>, a: Row, b: Row, key: Key, t: int)
    ensures Within(rows + [a, b], key, t)
         == Within(rows, key, t) + (if a.key == key && t < a.at <= t + WINDOW then 1 else 0)
                                 + (if b.key == key && t < b.at <= t + WINDOW then 1 else 0)
  {
    assert Front(rows + [a, b]) == rows + [a] && Front(rows + [a]) == rows;
  }

  /** A failure is only recorded while its keys are below their limits. */
  lemma RecordsBelowLimit(rows: seq<Row>, r: Request)
    ensures var more := NewRows(rows, r);
            more == [] || (more == [Row(OfUser(r.ip, r.User()), r.failedAt), Row(OfIp(r.ip), r.failedAt)]
                           && Count(rows, OfUser(r.ip, r.User()), r.checkedAt - WINDOW) < MAX_FAILURES
                           && Count(rows, OfIp(r.ip), r.checkedAt - WINDOW) < MAX_IP_FAILURES)
  {
    hide Count;
  }

  lemma WindowStep(rows: seq<Row>, r: Request, key: Key, t: int)
    requires Within(rows, key, t) <= key.Limit() && r.checkedAt <= r.failedAt
    ensures Within(rows + NewRows(rows, r), key, t) <= key.Limit()
  {
    hide Count, Within, NewRows;
    var more := NewRows(rows, r);
    RecordsBelowLimit(rows, r);
    if more == [] {
      assert rows + more == rows;
    } else {
      TwoMore(rows, more[0], more[1], key, t);
      assert more == [more[0], more[1]];
      if r.failedAt <= t + WINDOW {
        WithinCounts(rows, key, t, r.checkedAt - WINDOW);
      }
    }
  }

  lemma {:induction false} RowsHold(requests: seq<Request>, key: Key, t: int)
    requires InTime(requests)
    ensures Within(Failures(requests), key, t) <= key.Limit()
  {
    if requests != [] {
      var front, r := Front(requests), requests[|requests| - 1];
      assert InTime(front) by {
        assert forall i | 0 <= i < |front| :: front[i] == requests[i];
      }
      assert r.checkedAt <= r.failedAt;
      assert Failures(requests) == Failures(front) + NewRows(Failures(front), r);
      hide Failures, Within, InTime, NewRows;
      RowsHold(front, key, t);
      WindowStep(Failures(front), r, key, t);
    }
  }

  lemma {:induction false} WithinDifference(rows: seq<Row>, key: Key, t: int)
    ensures Within(rows, key, t) + Count(rows, key, t + WINDOW) == Count(rows, key, t)
  {
    if rows != [] {
      WithinDifference(Front(rows), key, t);
    }
  }

  /**
   Whatever is tried, no 60 seconds hold more than ten failed requests of a user from one address,
   nor more than fifty from one address. (The window is half-open: a failure exactly 60 seconds old
   no longer counts.)
   */
  lemma WindowHolds(requests: seq<Request>, outcomes: seq<Outcome>, key: Key, t: int)
    requires InTime(requests) && Told(requests, outcomes) && |requests| == |outcomes|
    ensures |set i: nat | i < |requests| && FailedFor(requests, outcomes, i, key)
                          && t < requests[i].failedAt <= t + 60_000_000|
         <= if key.OfUser? then 10 else 50
  {
    hide Failures, Within, InTime, Count, Told, FailedFor;
    var those := set i: nat | i < |requests| && FailedFor(requests, outcomes, i, key)
                              && t < requests[i].failedAt <= t + 60_000_000;
    RowsHold(requests, key, t);
    WithinDifference(Failures(requests), key, t);
    CountsFailures(requests, outcomes, key, t);
    CountsFailures(requests, outcomes, key, t + WINDOW);
    assert FailedSince(requests, outcomes, key, t) == those + FailedSince(requests, outcomes, key, t + WINDOW);
    assert those !! FailedSince(requests, outcomes, key, t + WINDOW);
  }

  /** A lock ends by itself: refused requests are not recorded, and after 60 quiet seconds nothing counts. */
  lemma LocksEnd(requests: seq<Request>, outcomes: seq<Outcome>, j: nat)
    requires Told(requests, outcomes) && j < |requests| == |outcomes|
    requires forall i | 0 <= i < j && outcomes[i] == Unauthorized ::
               requests[i].failedAt <= requests[j].checkedAt - 60_000_000
    ensures !outcomes[j].TooMany?
  {
    RefusedExactly(requests, outcomes, j);
    hide Told;
    var r, earlier, answers := requests[j], requests[..j], outcomes[..j];
    assert FailedSince(earlier, answers, OfUser(r.ip, r.User()), r.checkedAt - 60_000_000) == {};
    assert FailedSince(earlier, answers, OfIp(r.ip), r.checkedAt - 60_000_000) == {};
  }
}
