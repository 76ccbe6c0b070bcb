/**
 Alert rules that hold, fire and recover: app/application/alert_engine.py, and the
 compare-and-set of AlertRuleRepository in app/infrastructure/persistence/store.py.

 Any number of engines may evaluate one database's rules at a time. An engine reads all rules,
 then looks at one after the other, while admins and other engines change the rows.
 */
module Alerts {
  import opened Records

  type RuleId = nat
  type EngineId = nat
  type Time = nat       // microseconds since 1970

  const SECOND: nat := 1_000_000

  datatype Rule = Rule(enabled: bool, duration: nat, fired: bool, lastFired: Option<Time>)

  function Digit(n: nat): char
    requires n < 10
  {
    '0' + n as char
  }

  /** A number as Python writes it. */
  function Decimal(n: nat): (s: string)
    ensures s != "" && forall c | c in s :: '0' <= c <= '9'
  {
    if n < 10 then [Digit(n)] else Decimal(n / 10) + [Digit(n % 10)]
  }

  /** PagerDuty's dedup_key. It names the second, not the instant. */
  datatype Key = Key(rule: RuleId, second: Option<nat>)
  {
    function Text(): string {
      "queuelens-rule-" + Decimal(rule) + (if second.Some? then "-" + Decimal(second.value) else "")
    }
  }

  lemma {:induction false} DecimalOnce(a: nat, b: nat)
    requires Decimal(a) == Decimal(b)
    ensures a == b
  {
    if a >= 10 && b >= 10 {
      assert Front(Decimal(a)) == Decimal(a / 10) && Front(Decimal(b)) == Decimal(b / 10);
      assert Last(Decimal(a)) == Digit(a % 10) && Last(Decimal(b)) == Digit(b % 10);
      DecimalOnce(a / 10, b / 10);
    } else {
      assert |Decimal(a)| == 1 <==> a < 10;
      assert |Decimal(b)| == 1 <==> b < 10;
      assert Decimal(a)[0] == Decimal(b)[0];
    }
  }

  /** Digits up to the first dash, or to the end. */
  lemma {:induction false} DigitsEndAlike(a: string, x: string, b: string, y: string)
    requires a + x == b + y && (forall c | c in a :: c != '-') && (forall c | c in b :: c != '-')
    requires (x == "" || x[0] == '-') && (y == "" || y[0] == '-')
    ensures a == b && x == y
  {
    var all := a + x;
    assert a == "" ==> all == x;
    assert b == "" ==> all == y;
    assert a != "" ==> all != "" && all[0] == a[0] && a[0] in a;
    assert b != "" ==> all != "" && all[0] == b[0] && b[0] in b;
    if a != "" && b != "" {
      assert a[1..] + x == all[1..] && b[1..] + y == all[1..];
      assert a == [all[0]] + a[1..] && b == [all[0]] + b[1..];
      assert forall c | c in a[1..] :: c in a;
      assert forall c | c in b[1..] :: c in b;
      DigitsEndAlike(a[1..], x, b[1..], y);
    }
  }

  /** The text tells the rule and the second. */
  lemma KeysName(a: Key, b: Key)
    requires a.Text() == b.Text()
    ensures a == b
  {
    var prefix := "queuelens-rule-";
    var x := if a.second.Some? then "-" + Decimal(a.second.value) else "";
    var y := if b.second.Some? then "-" + Decimal(b.second.value) else "";
    assert a.Text() == prefix + (Decimal(a.rule) + x) && b.Text() == prefix + (Decimal(b.rule) + y);
    assert a.Text()[|prefix|..] == Decimal(a.rule) + x && b.Text()[|prefix|..] == Decimal(b.rule) + y;
    DigitsEndAlike(Decimal(a.rule), x, Decimal(b.rule), y);
    DecimalOnce(a.rule, b.rule);
    if a.second.Some? && b.second.Some? {
      assert x[1..] == Decimal(a.second.value) && y[1..] == Decimal(b.second.value);
      DecimalOnce(a.second.value, b.second.value);
    }
  }

  function IncidentKey(id: RuleId, at: Option<Time>): Key {
    Key(id, if at.None? then None else Some(at.value / SECOND))
  }

  /** One call of `_fire`. */
  datatype Note = Fired(rule: RuleId, at: Time, key: Key) | Recovered(rule: RuleId, key: Key)

  // ---------------------------------------------------------------------- one rule, once

  /** Since when the engine has seen the condition hold. */
  function Watched(pending: map<RuleId, Time>, id: RuleId, offends: bool, now: Time): map<RuleId, Time> {
    if !offends then pending - {id} else if id in pending then pending else pending[id := now]
  }

  predicate Changes(rows: map<RuleId, Rule>, id: RuleId, fired: bool) {
    id in rows && rows[id].fired != fired
  }

  /** What one evaluation of a rule, as the engine read it, tells the channels. */
  function Told(pending: map<RuleId, Time>, rows: map<RuleId, Rule>, id: RuleId, rule: Rule, offends: bool, now: Time)
    : Option<Note>
  {
    if offends then
      var first := Watched(pending, id, true, now)[id];
      if now - first >= rule.duration && !rule.fired && Changes(rows, id, true)
      then Some(Fired(id, now, IncidentKey(id, Some(now)))) else None
    else if rule.fired && Changes(rows, id, false)
    then Some(Recovered(id, IncidentKey(id, rule.lastFired))) else None
  }

  function Marked(rows: map<RuleId, Rule>, note: Option<Note>): map<RuleId, Rule>
    requires note.Some? ==> note.value.rule in rows
  {
    match note
    case None => rows
    case Some(Fired(id, at, _)) => rows[id := rows[id].(fired := true, lastFired := Some(at))]
    case Some(Recovered(id, _)) => rows[id := rows[id].(fired := false)]
  }

  class AlertRules {
    var rows: map<RuleId, Rule>

    constructor ()
      ensures rows == map[]
    {
      rows := map[];
    }

    /** Compare-and-set: true only for the caller that changes the row. */
    method SetFired(id: RuleId, fired: bool, at: Option<Time>) returns (changed: bool)
      modifies this
      ensures changed == Changes(old(rows), id, fired)
      ensures !changed ==> rows == old(rows)
      ensures changed ==> id in rows && rows[id].fired == fired
                          && rows[id].lastFired == (if at.Some? then at else old(rows)[id].lastFired)
                          && rows == old(rows)[id := rows[id]]
                          && rows[id].enabled == old(rows)[id].enabled && rows[id].duration == old(rows)[id].duration
    {
      if id !in rows || rows[id].fired == fired {
        return false;
      }
      rows := rows[id := rows[id].(fired := fired)];
      if at.Some? {
        rows := rows[id := rows[id].(lastFired := at)];
      }
      return true;
    }
  }

  class AlertEngine {
    var pending: map<RuleId, Time>

    constructor ()
      ensures pending == map[]
    {
      pending := map[];
    }

    /** `_evaluate`; `offends`: some queue of the rule's scope meets its condition. */
    method Evaluate(rules: AlertRules, id: RuleId, rule: Rule, offends: bool, now: Time) returns (note: Option<Note>)
      modifies this, rules
      ensures note == Told(old(pending), old(rules.rows), id, rule, offends, now)
      ensures note.Some? ==> note.value.rule == id && id in old(rules.rows)
      ensures var since := if id in old(pending) then old(pending)[id] else now;
              && (note.Some? && note.value.Fired? <==>
                    && offends && now - since >= rule.duration && !rule.fired
                    && id in old(rules.rows) && !old(rules.rows)[id].fired)
              && (offends ==> pending == old(pending)[id := since])
      ensures note.Some? && note.value.Recovered? <==>
                !offends && rule.fired && id in old(rules.rows) && old(rules.rows)[id].fired
      ensures !offends ==> pending == old(pending) - {id}
      ensures note.Some? ==>
                && id in rules.rows && rules.rows[id].fired == offends
                && rules.rows[id].lastFired == (if offends then Some(now) else old(rules.rows)[id].lastFired)
      ensures pending == Watched(old(pending), id, offends, now) && rules.rows == Marked(old(rules.rows), note)
    {
      if offends {
        if id !in pending {
          pending := pending[id := now];
        }
        var held := now - pending[id];
        if held >= rule.duration && !rule.fired {
          var won := rules.SetFired(id, true, Some(now));
          if won {
            return Some(Fired(id, now, IncidentKey(id, Some(now))));
          }
        }
      } else {
        pending := pending - {id};
        if rule.fired {
          var won := rules.SetFired(id, false, None);
          if won {
            return Some(Recovered(id, IncidentKey(id, rule.lastFired)));
          }
        }
      }
      return None;
    }

    /** The engine and its rules are where this run has them. */
    ghost predicate Follows(rules: AlertRules, s: State, h: seq<Step>, e: EngineId)
      reads this, rules
    {
      && Runs(s, h) && e in After(s, h).engines
      && rules.rows == After(s, h).rows && pending == After(s, h).engines[e].pending
    }

    /** One rule of a pass, as the step it is. */
    method EvaluateListed(rules: AlertRules, id: RuleId, rule: Rule, offends: bool, now: Time,
                          ghost s: State, ghost h: seq<Step>, ghost e: EngineId)
      returns (note: Option<Note>, ghost longer: seq<Step>)
      requires Follows(rules, s, h, e)
      requires id in After(s, h).engines[e].todo && After(s, h).engines[e].todo[id] == rule
      modifies this, rules
      ensures longer == h + [Look(e, id, offends, now)] && Follows(rules, s, longer, e)
      ensures After(s, longer).engines[e].todo == After(s, h).engines[e].todo - {id}
      ensures Notes(s, longer) == Notes(s, h) + (if note.Some? then [note.value] else [])
    {
      hide Runs, After, Notes, Told, Marked, Watched, NoteOf, Next;
      longer := LookedAt(s, h, e, id, offends, now);
      note := Evaluate(rules, id, rule, offends, now);
    }

    /** The rules of a pass, one after the other, as far as their queues can be read. */
    method EvaluateAll(rules: AlertRules, list: map<RuleId, Rule>, order: seq<RuleId>, offends: map<RuleId, bool>,
                       now: Time, ghost s: State, ghost h: seq<Step>, ghost e: EngineId)
      returns (notes: seq<Note>, ghost longer: seq<Step>)
      requires Follows(rules, s, h, e) && StillListed(After(s, h).engines[e].todo, list, order, 0)
      requires forall i, j | 0 <= i < j < |order| :: order[i] != order[j]
      modifies this, rules
      ensures longer == h + Looks(e, order, offends, now) && Follows(rules, s, longer, e)
      ensures Notes(s, longer) == Notes(s, h) + notes
    {
      assert Looks(e, order[..0], offends, now) == [];
      hide Runs, After, Notes, Looks, StillListed;
      notes, longer := [], h;
      for i := 0 to |order|
        invariant Follows(rules, s, longer, e) && StillListed(After(s, longer).engines[e].todo, list, order, i)
        invariant longer == h + Looks(e, order[..i], offends, now) && Notes(s, longer) == Notes(s, h) + notes
      {
        var id := order[i];
        LooksSnoc(e, order, i, offends, now, h);
        NextListed(After(s, longer).engines[e].todo, list, order, i);
        if id in offends {
          var note;
          note, longer := EvaluateListed(rules, id, list[id], offends[id], now, s, longer, e);
          if note.Some? {
            notes := notes + [note.value];
          }
        }
      }
      assert order[..|order|] == order;
    }

    /**
     `evaluate_once`, while nobody else writes: one pass of a run of the steps below. `order` is how
     the database lists the enabled rules; a rule that `offends` does not know has unreadable queues.
     */
    method EvaluateOnce(rules: AlertRules, order: seq<RuleId>, offends: map<RuleId, bool>, now: Time,
                        ghost s: State, ghost h: seq<Step>, ghost e: EngineId)
      returns (notes: seq<Note>, ghost longer: seq<Step>)
      requires Follows(rules, s, h, e)
      requires (forall id :: id in order <==> id in Enabled(rules.rows))
      requires forall i, j | 0 <= i < j < |order| :: order[i] != order[j]
      modifies this, rules
      ensures longer == h + [Load(e)] + Looks(e, order, offends, now) && Follows(rules, s, longer, e)
      ensures Notes(s, longer) == Notes(s, h) + notes
    {
      hide Runs, After, Notes, Enabled;
      var list := Enabled(rules.rows);
      ghost var loaded := Loaded(s, h, e);
      assert order != [] ==> order[0] in list;
      if list == map[] {
        pending := map[];
        assert loaded + [] == loaded;
        return [], loaded;
      }
      notes, longer := EvaluateAll(rules, list, order, offends, now, s, loaded, e);
    }
  }

  // ------------------------------------------------- engines and admins on one database

  /** `todo`: the rules as read for this pass that are still to be looked at. */
  datatype Engine = Engine(pending: map<RuleId, Time>, todo: map<RuleId, Rule>)

  datatype State = State(rows: map<RuleId, Rule>, engines: map<EngineId, Engine>)

  datatype Step =
    | Create(id: RuleId, enabled: bool, duration: nat)   // an id may be one that was deleted: SQLite reuses them
    | Delete(id: RuleId)
    | Edit(id: RuleId, enabled: bool, duration: nat)
    | Load(e: EngineId)
    | Look(e: EngineId, id: RuleId, offends: bool, now: Time)
    | Forget(e: EngineId)                                // not the leader any more, or restarted

  function Enabled(rows: map<RuleId, Rule>): map<RuleId, Rule> {
    map id | id in rows && rows[id].enabled :: rows[id]
  }

  predicate Possible(s: State, step: Step) {
    match step
    case Create(id, _, _) => id !in s.rows
    case Delete(id) => id in s.rows
    case Edit(id, _, _) => id in s.rows
    case Load(e) => e in s.engines
    case Look(e, id, _, _) => e in s.engines && id in s.engines[e].todo
    case Forget(e) => e in s.engines
  }

  function NoteOf(s: State, step: Step): (note: Option<Note>)
    requires Possible(s, step)
    ensures note.Some? ==> step.Look? && note.value.rule == step.id && step.id in s.rows
    ensures note.Some? ==> s.rows[step.id].fired == note.value.Recovered?
  {
    match step
    case Look(e, id, offends, now) =>
      Told(s.engines[e].pending, s.rows, id, s.engines[e].todo[id], offends, now)
    case _ => None
  }

  function Next(s: State, step: Step): State
    requires Possible(s, step)
  {
    match step
    case Create(id, enabled, duration) => s.(rows := s.rows[id := Rule(enabled, duration, false, None)])
    case Delete(id) => s.(rows := s.rows - {id})
    case Edit(id, enabled, duration) =>
      s.(rows := s.rows[id := s.rows[id].(enabled := enabled, duration := duration)])
    case Load(e) =>
      var rules := Enabled(s.rows);
      s.(engines := s.engines[e := Engine(if rules == map[] then map[] else s.engines[e].pending, rules)])
    case Look(e, id, offends, now) =>
      State(Marked(s.rows, NoteOf(s, step)),
            s.engines[e := Engine(Watched(s.engines[e].pending, id, offends, now), s.engines[e].todo - {id})])
    case Forget(e) => s.(engines := s.engines[e := Engine(map[], map[])])
  }

  predicate Start(s: State) {
    s.rows == map[] && forall e | e in s.engines :: s.engines[e] == Engine(map[], map[])
  }

  predicate Runs(s: State, h: seq<Step>)
    decreases |h|, 0
  {
    h != [] ==> Runs(s, Front(h)) && Possible(After(s, Front(h)), Last(h))
  }

  function After(s: State, h: seq<Step>): State
    requires Runs(s, h)
    decreases |h|, 1
  {
    if h == [] then s else Next(After(s, Front(h)), Last(h))
  }

  function Looks(e: EngineId, order: seq<RuleId>, offends: map<RuleId, bool>, now: Time): seq<Step> {
    if order == [] then [] else
      Looks(e, Front(order), offends, now)
      + (if Last(order) in offends then [Look(e, Last(order), offends[Last(order)], now)] else [])
  }

  /** The rest of a pass is on the engine's list, as the list was read. */
  predicate StillListed(todo: map<RuleId, Rule>, list: map<RuleId, Rule>, order: seq<RuleId>, i: nat) {
    forall k | i <= k < |order| :: order[k] in todo && order[k] in list && todo[order[k]] == list[order[k]]
  }

  lemma NextListed(todo: map<RuleId, Rule>, list: map<RuleId, Rule>, order: seq<RuleId>, i: nat)
    requires i < |order| && StillListed(todo, list, order, i)
    requires forall i, j | 0 <= i < j < |order| :: order[i] != order[j]
    ensures order[i] in todo && order[i] in list && todo[order[i]] == list[order[i]]
    ensures StillListed(todo, list, order, i + 1) && StillListed(todo - {order[i]}, list, order, i + 1)
  {
  }

  lemma LooksSnoc(e: EngineId, order: seq<RuleId>, i: nat, offends: map<RuleId, bool>, now: Time, h: seq<Step>)
    requires i < |order|
    ensures var before, after := h + Looks(e, order[..i], offends, now), h + Looks(e, order[..i + 1], offends, now);
            after == if order[i] in offends then before + [Look(e, order[i], offends[order[i]], now)] else before
  {
    assert Front(order[..i + 1]) == order[..i];
  }

  function Notes(s: State, h: seq<Step>): seq<Note>
    requires Runs(s, h)
  {
    if h == [] then [] else
      var note := NoteOf(After(s, Front(h)), Last(h));
      Notes(s, Front(h)) + (if note.Some? then [note.value] else [])
  }

  lemma Extended(s: State, h: seq<Step>, step: Step) returns (longer: seq<Step>)
    requires Runs(s, h) && Possible(After(s, h), step)
    ensures longer == h + [step] && Runs(s, longer) && After(s, longer) == Next(After(s, h), step)
    ensures var note := NoteOf(After(s, h), step);
            Notes(s, longer) == Notes(s, h) + (if note.Some? then [note.value] else [])
  {
    longer := h + [step];
    assert Front(longer) == h;
  }

  lemma Loaded(s: State, h: seq<Step>, e: EngineId) returns (longer: seq<Step>)
    requires Runs(s, h) && e in After(s, h).engines
    ensures longer == h + [Load(e)] && Runs(s, longer) && e in After(s, longer).engines
    ensures Notes(s, longer) == Notes(s, h) && After(s, longer).rows == After(s, h).rows
    ensures var engine, list := After(s, longer).engines[e], Enabled(After(s, h).rows);
            engine.todo == list && engine.pending == if list == map[] then map[] else After(s, h).engines[e].pending
  {
    longer := Extended(s, h, Load(e));
  }

  lemma LookedAt(s: State, h: seq<Step>, e: EngineId, id: RuleId, offends: bool, now: Time) returns (longer: seq<Step>)
    requires Runs(s, h) && Possible(After(s, h), Look(e, id, offends, now))
    ensures longer == h + [Look(e, id, offends, now)] && Runs(s, longer) && e in After(s, longer).engines
    ensures var before, after := After(s, h).engines[e], After(s, longer).engines[e];
            var note := Told(before.pending, After(s, h).rows, id, before.todo[id], offends, now);
            && Notes(s, longer) == Notes(s, h) + (if note.Some? then [note.value] else [])
            && (note.Some? ==> note.value.rule in After(s, h).rows)
            && After(s, longer).rows == Marked(After(s, h).rows, note)
            && after.pending == Watched(before.pending, id, offends, now)
            && after.todo == before.todo - {id}
  {
    longer := Extended(s, h, Look(e, id, offends, now));
  }

  lemma {:induction false} NotesKeyed(s: State, h: seq<Step>)
    requires Runs(s, h)
    ensures forall n | n in Notes(s, h) && n.Fired? :: n.key == IncidentKey(n.rule, Some(n.at))
  {
    if h != [] {
      NotesKeyed(s, Front(h));
    }
  }

  /** Two firings of a run, of whatever engines, share a key only if they are of one rule and in one second. */
  lemma FiringsNamed(s: State, h: seq<Step>, a: Note, b: Note)
    requires Runs(s, h) && a in Notes(s, h) && b in Notes(s, h) && a.Fired? && b.Fired?
    ensures a.key.Text() == b.key.Text() <==> a.rule == b.rule && a.at / 1_000_000 == b.at / 1_000_000
  {
    hide Runs, Notes, Decimal;
    NotesKeyed(s, h);
    if a.key.Text() == b.key.Text() {
      KeysName(a.key, b.key);
    }
  }

  // ------------------------------------------------------------------------- alternation

  /** What was told of the rule with this id since it was created. */
  function Edges(s: State, h: seq<Step>, id: RuleId): seq<Note>
    requires Runs(s, h)
  {
    if h == [] then [] else
      var before, step := Edges(s, Front(h), id), Last(h);
      var note := NoteOf(After(s, Front(h)), step);
      if step.Create? && step.id == id then []
      else if note.Some? && note.value.rule == id then before + [note.value]
      else before
  }

  predicate Alternates(edges: seq<Note>) {
    forall i | 0 <= i < |edges| :: edges[i].Fired? <==> i % 2 == 0
  }

  /** The row says fired exactly when the last note fired it, and when that was. */
  predicate Tells(edges: seq<Note>, rows: map<RuleId, Rule>, id: RuleId) {
    id in rows ==>
      && (rows[id].fired <==> |edges| % 2 == 1)
      && (rows[id].fired ==>
            && rows[id].lastFired.Some?
            && Last(edges) == Fired(id, rows[id].lastFired.value, IncidentKey(id, rows[id].lastFired)))
  }

  /** Whatever engines and admins do, a rule's firings and recoveries take turns, beginning with a firing. */
  lemma {:induction false} FiringsAlternate(s: State, h: seq<Step>, id: RuleId)
    requires Start(s) && Runs(s, h)
    ensures Alternates(Edges(s, h, id)) && Tells(Edges(s, h, id), After(s, h).rows, id)
  {
    if h != [] {
      FiringsAlternate(s, Front(h), id);
      var before, step := After(s, Front(h)), Last(h);
      NextTells(before, step, Edges(s, Front(h), id), id);
    }
  }

  lemma NextTells(s: State, step: Step, edges: seq<Note>, id: RuleId)
    requires Possible(s, step) && Alternates(edges) && Tells(edges, s.rows, id)
    ensures var note := NoteOf(s, step);
            var edges' := if step.Create? && step.id == id then []
                          else if note.Some? && note.value.rule == id then edges + [note.value] else edges;
            Alternates(edges') && Tells(edges', Next(s, step).rows, id)
  {
  }

  // ------------------------------------------------------------ fired only after holding

  /** How one step changes what is pending. */
  lemma PendingStep(s: State, step: Step, e: EngineId, id: RuleId)
    requires Possible(s, step) && e in Next(s, step).engines && id in Next(s, step).engines[e].pending
    ensures e in s.engines
    ensures var since := Next(s, step).engines[e].pending[id];
            if step.Look? && step.e == e && step.id == id && id !in s.engines[e].pending
            then step.offends && since == step.now
            else && id in s.engines[e].pending && since == s.engines[e].pending[id] && step != Forget(e)
                 && (step.Look? && step.e == e && step.id == id ==> step.offends)
  {
  }

  /** When the engine saw the condition hold without having seen it fail since. */
  lemma {:induction false} PendingMeans(s: State, h: seq<Step>, e: EngineId, id: RuleId)
    requires Start(s) && Runs(s, h) && e in After(s, h).engines && id in After(s, h).engines[e].pending
    ensures exists j :: HeldSince(h, e, id, j, After(s, h).engines[e].pending[id])
  {
    if h != [] {
      hide Next, Possible;
      var before, step := After(s, Front(h)), Last(h);
      PendingStep(before, step, e, id);
      if step.Look? && step.e == e && step.id == id && id !in before.engines[e].pending {
        assert HeldSince(h, e, id, |h| - 1, step.now);
      } else {
        PendingMeans(s, Front(h), e, id);
        HeldOn(h, e, id, before.engines[e].pending[id]);
      }
    }
  }

  lemma HeldOn(h: seq<Step>, e: EngineId, id: RuleId, t: Time)
    requires h != [] && Last(h) != Forget(e) && exists j :: HeldSince(Front(h), e, id, j, t)
    requires Last(h).Look? && Last(h).e == e && Last(h).id == id ==> Last(h).offends
    ensures exists j :: HeldSince(h, e, id, j, t)
  {
    var j :| HeldSince(Front(h), e, id, j, t);
    assert HeldSince(h, e, id, j, t);
  }

  /** From step j on, which is at time t, every evaluation of the rule by this engine found it offended. */
  predicate HeldSince(h: seq<Step>, e: EngineId, id: RuleId, j: int, t: Time) {
    && 0 <= j < |h| && h[j] == Look(e, id, true, t)
    && (forall k | j <= k < |h| && h[k].Look? && h[k].e == e && h[k].id == id :: h[k].offends)
    && (forall k | j <= k < |h| :: h[k] != Forget(e))
  }

  /** A rule fires only if the engine that fires it has seen it offended at every look for `duration`. */
  lemma FiresAfterHolding(s: State, h: seq<Step>)
    requires Start(s) && Runs(s, h) && h != []
    requires NoteOf(After(s, Front(h)), Last(h)).Some? && NoteOf(After(s, Front(h)), Last(h)).value.Fired?
    ensures var step := Last(h);
            exists j, t :: HeldSince(h, step.e, step.id, j, t)
                           && step.now - t >= After(s, Front(h)).engines[step.e].todo[step.id].duration
  {
    var step, before := Last(h), After(s, Front(h));
    assert step.id in After(s, h).engines[step.e].pending;
    PendingMeans(s, h, step.e, step.id);
  }

  /** The last step fired its rule. */
  predicate Fires(s: State, h: seq<Step>)
    requires Runs(s, h)
  {
    h != [] && NoteOf(After(s, Front(h)), Last(h)).Some? && NoteOf(After(s, Front(h)), Last(h)).value.Fired?
  }

  /** From step j on every look at the rule, by whatever engine, found it offended. */
  predicate OffendedSince(h: seq<Step>, id: RuleId, j: int, t: Time) {
    && 0 <= j < |h| && h[j].Look? && h[j].id == id && h[j].now == t
    && forall k | j <= k < |h| && h[k].Look? && h[k].id == id :: h[k].offends
  }

  /** What is promised of a firing: it comes `duration` after a look since which every look found the rule offended. */
  ghost predicate FiresRightly(s: State, h: seq<Step>)
    requires Runs(s, h)
  {
    Fires(s, h) ==>
      exists j, t :: OffendedSince(h, Last(h).id, j, t)
                     && Last(h).now - t >= After(s, Front(h)).engines[Last(h).e].todo[Last(h).id].duration
  }

  predicate OneEngine(s: State) { forall a, b | a in s.engines && b in s.engines :: a == b }

  predicate Acts(step: Step) { step.Load? || step.Look? }

  /**
   Engines take turns, as the election of a leader has them do: one that comes back after another
   one acted has seen in between that it did not lead, and has forgotten what was pending.
   */
  predicate TakesTurns(h: seq<Step>) {
    forall i, k, l | 0 <= i < k < l < |h| && Acts(h[i]) && Acts(h[k]) && Acts(h[l]) && h[i].e == h[l].e != h[k].e ::
      Forget(h[i].e) in h[i..l]
  }

  lemma {:induction false} SameEngines(s: State, h: seq<Step>)
    requires Runs(s, h)
    ensures After(s, h).engines.Keys == s.engines.Keys
    ensures forall i | 0 <= i < |h| && Acts(h[i]) :: h[i].e in s.engines
  {
    if h != [] {
      SameEngines(s, Front(h));
      assert forall i | 0 <= i < |h| - 1 :: h[i] == Front(h)[i];
    }
  }

  lemma OneTakesTurns(s: State, h: seq<Step>)
    requires Runs(s, h) && OneEngine(s)
    ensures TakesTurns(h)
  {
    SameEngines(s, h);
  }

  /** Nobody else acts between two steps of an engine that has not forgotten. */
  lemma NobodyElse(h: seq<Step>, i: int, k: int, e: EngineId)
    requires h != [] && TakesTurns(h) && 0 <= i < k < |h| - 1
    requires Acts(h[i]) && Acts(h[k]) && Acts(Last(h)) && h[i].e == Last(h).e == e
    requires forall j | i <= j < |h| - 1 :: h[j] != Forget(e)
    ensures h[k].e == e
  {
    assert Forget(e) !in h[i..|h| - 1];
  }

  /** Engines that take turns keep the promise, over restarts and edits. */
  lemma LeadersFireRightly(s: State, h: seq<Step>)
    requires Start(s) && Runs(s, h) && TakesTurns(h)
    ensures FiresRightly(s, h)
  {
    if Fires(s, h) {
      var e, id := Last(h).e, Last(h).id;
      FiresAfterHolding(s, h);
      var j, t :| HeldSince(h, e, id, j, t) && Last(h).now - t >= After(s, Front(h)).engines[e].todo[id].duration;
      HeldForAll(h, e, id, j, t);
    }
  }

  lemma HeldForAll(h: seq<Step>, e: EngineId, id: RuleId, j: int, t: Time)
    requires h != [] && TakesTurns(h) && HeldSince(h, e, id, j, t) && Acts(Last(h)) && Last(h).e == e
    ensures OffendedSince(h, id, j, t)
  {
    forall k | j <= k < |h| && h[k].Look? && h[k].id == id
      ensures h[k].offends
    {
      if j < k < |h| - 1 {
        NobodyElse(h, j, k, e);
      }
    }
  }

  // ----------------------------------------------------------------------- the dedup key

  /**
   A recovery's key is that of the firing it closes exactly if the engine that won it had read
   the row after that firing, or the two firings fell into one second.
   */
  lemma RecoveryKey(s: State, h: seq<Step>, step: Step)
    requires Start(s) && Runs(s, h) && Possible(After(s, h), step)
    requires NoteOf(After(s, h), step).Some? && NoteOf(After(s, h), step).value.Recovered?
    ensures var now, edges := After(s, h), Edges(s, h, step.id);
            var read, row := now.engines[step.e].todo[step.id].lastFired, now.rows[step.id].lastFired;
            && edges != [] && Last(edges).Fired? && row == Some(Last(edges).at)
            && (NoteOf(now, step).value.key == Last(edges).key
                <==> read.Some? && read.value / SECOND == row.value / SECOND)
  {
    FiringsAlternate(s, h, step.id);
  }

  /** The engine's list is from step i. */
  predicate ReadAt(h: seq<Step>, e: EngineId, i: int) {
    0 <= i < |h| && h[i] == Load(e) && forall k | i < k < |h| :: h[k] != Load(e) && h[k] != Forget(e)
  }

  lemma {:induction false} HasRead(s: State, h: seq<Step>, e: EngineId)
    requires Start(s) && Runs(s, h) && e in After(s, h).engines && After(s, h).engines[e].todo != map[]
    ensures exists i :: ReadAt(h, e, i)
  {
    if h != [] {
      hide Told, Marked, Watched;
      if Last(h) == Load(e) {
        assert ReadAt(h, e, |h| - 1);
      } else {
        assert e in After(s, Front(h)).engines;
        HasRead(s, Front(h), e);
        var i :| ReadAt(Front(h), e, i);
        assert ReadAt(h, e, i);
      }
    }
  }

  /** If nobody else looked since, it is up to date as far as fired rules go. */
  lemma {:induction false} ListIsCurrent(s: State, h: seq<Step>, e: EngineId, i: int)
    requires Runs(s, h) && ReadAt(h, e, i) && e in After(s, h).engines
    requires forall k | i < k < |h| && h[k].Look? :: h[k].e == e
    ensures var now := After(s, h);
            forall id | id in now.engines[e].todo && id in now.rows && now.rows[id].fired ::
              now.engines[e].todo[id].fired && now.engines[e].todo[id].lastFired == now.rows[id].lastFired
  {
    if i < |h| - 1 {
      assert e in After(s, Front(h)).engines && ReadAt(Front(h), e, i);
      ListIsCurrent(s, Front(h), e, i);
      assert Last(h).Look? ==> h[|h| - 1].e == e;
    }
  }

  /** The last step said that its rule recovered. */
  predicate Recovers(s: State, h: seq<Step>)
    requires Runs(s, h)
  {
    h != [] && NoteOf(After(s, Front(h)), Last(h)).Some? && NoteOf(After(s, Front(h)), Last(h)).value.Recovered?
  }

  /** What is promised of a recovery: it carries the key of the firing before it. */
  predicate RecoversRightly(s: State, h: seq<Step>)
    requires Runs(s, h)
  {
    Recovers(s, h) ==>
      var edges := Edges(s, Front(h), Last(h).id);
      edges != [] && Last(edges).Fired? && NoteOf(After(s, Front(h)), Last(h)).value.key == Last(edges).key
  }

  lemma OnlyItLooked(h: seq<Step>, e: EngineId, i: int)
    requires h != [] && TakesTurns(h) && ReadAt(Front(h), e, i) && Acts(Last(h)) && Last(h).e == e
    ensures forall k | i < k < |Front(h)| && Front(h)[k].Look? :: Front(h)[k].e == e
  {
    forall k | i < k < |Front(h)| && Front(h)[k].Look?
      ensures Front(h)[k].e == e
    {
      NobodyElse(h, i, k, e);
    }
  }

  /** Engines that take turns close the incidents they say they close. */
  lemma LeadersCloseTheirIncidents(s: State, h: seq<Step>)
    requires Start(s) && Runs(s, h) && TakesTurns(h)
    ensures RecoversRightly(s, h)
  {
    if Recovers(s, h) {
      hide Edges, NoteOf, After, Runs;
      var before, e := Front(h), Last(h).e;
      Unfolded(s, h);
      HasRead(s, before, e);
      var i :| ReadAt(before, e, i);
      OnlyItLooked(h, e, i);
      RecoveryKey(s, before, Last(h));
      ListIsCurrent(s, before, e, i);
    }
  }

  lemma Unfolded(s: State, h: seq<Step>)
    requires Runs(s, h) && Recovers(s, h)
    ensures var before, step := After(s, Front(h)), Last(h);
            && step.Look? && Possible(before, step) && step.id in before.rows && before.rows[step.id].fired
  {
  }

  // ------------------------------------------------------------ what does not hold, and why

  /** One more step of a run, with its state told. */
  lemma Goes(s: State, h: seq<Step>, before: State, step: Step, after: State) returns (longer: seq<Step>)
    requires Runs(s, h) && After(s, h) == before && Possible(before, step) && Next(before, step) == after
    ensures longer == h + [step] && Runs(s, longer) && After(s, longer) == after
  {
    longer := Extended(s, h, step);
  }

  /**
   A rule that gets a deleted rule's id inherits its waiting time: whatever its duration, it fires
   the first time it is looked at if the deleted one had been offended for that long.
   */
  lemma ReusedIdInherits(s: State, h: seq<Step>, e: EngineId, id: RuleId, duration: nat, now: Time)
    requires Runs(s, h) && e in After(s, h).engines && id in After(s, h).rows && id in After(s, h).engines[e].pending
    ensures var longer := h + [Delete(id), Create(id, true, duration), Load(e)];
            && Runs(s, longer) && Possible(After(s, longer), Look(e, id, true, now))
            && (NoteOf(After(s, longer), Look(e, id, true, now)).Some?
                <==> now - After(s, h).engines[e].pending[id] >= duration)
  {
    hide Runs, After, Marked;
    var start := After(s, h);
    var deleted := Next(start, Delete(id));
    var created := Next(deleted, Create(id, true, duration));
    var h1 := Goes(s, h, start, Delete(id), deleted);
    var h2 := Goes(s, h1, deleted, Create(id, true, duration), created);
    var h3 := Goes(s, h2, created, Load(e), Next(created, Load(e)));
    assert h3 == h + [Delete(id), Create(id, true, duration), Load(e)];
    assert id in Enabled(created.rows);
  }

  /** And so it happens: watched once, deleted, created anew, a rule fires at the first look at it. */
  lemma ReusedIdFiresEarly(duration: nat) returns (s: State, h: seq<Step>, step: Step, created: nat)
    ensures Start(s) && Runs(s, h) && Possible(After(s, h), step)
    ensures NoteOf(After(s, h), step).Some? && NoteOf(After(s, h), step).value.Fired?
    ensures created < |h| && h[created] == Create(step.id, true, duration)
    ensures forall k | created <= k < |h| :: !h[k].Look?
  {
    s := State(map[], map[0 := Engine(map[], map[])]);
    var earlier := WatchedOnce(s);
    hide Runs, After;
    ReusedIdInherits(s, earlier, 0, 7, duration, duration);
    created := |earlier| + 1;
    step := Look(0, 7, true, duration);
    h := earlier + [Delete(7), Create(7, true, duration), Load(0)];
  }

  const QUICK := map[7 := Rule(true, 1, false, None)]

  lemma WatchedOnce(s: State) returns (h: seq<Step>)
    requires s == State(map[], map[0 := Engine(map[], map[])])
    ensures Runs(s, h) && 0 in After(s, h).engines && 7 in After(s, h).rows
    ensures 7 in After(s, h).engines[0].pending && After(s, h).engines[0].pending[7] == 0
  {
    assert Enabled(QUICK) == QUICK && 7 in QUICK;
    var s1, s2 := State(QUICK, map[0 := Engine(map[], map[])]), State(QUICK, map[0 := Engine(map[], QUICK)]);
    hide Runs, After;
    NoSteps(s);
    h := Goes(s, [], s, Create(7, true, 1), s1);
    h := Goes(s, h, s1, Load(0), s2);
    h := Goes(s, h, s2, Look(0, 7, true, 0), Next(s2, Look(0, 7, true, 0)));
  }

  lemma NoSteps(s: State)
    ensures Runs(s, []) && After(s, []) == s
  {
  }

  /** A system whose engines a and b have these clocks and lists. */
  function With(s: State, rows: map<RuleId, Rule>, a: EngineId, x: Engine, b: EngineId, y: Engine): State {
    State(rows, s.engines[a := x][b := y])
  }

  /** The two engines are interchangeable. */
  lemma Swapped(s: State, rows: map<RuleId, Rule>, a: EngineId, x: Engine, b: EngineId, y: Engine)
    requires a != b
    ensures With(s, rows, a, x, b, y) == With(s, rows, b, y, a, x)
  {
  }

  lemma Reads(s: State, h: seq<Step>, rows: map<RuleId, Rule>, a: EngineId, x: Engine, b: EngineId, y: Engine)
    returns (longer: seq<Step>)
    requires Runs(s, h) && After(s, h) == With(s, rows, a, x, b, y) && a != b
    requires rows != map[] && Enabled(rows) == rows
    ensures longer == h + [Load(a)] && Runs(s, longer)
    ensures After(s, longer) == With(s, rows, a, x.(todo := rows), b, y)
  {
    hide Runs, After;
    longer := Extended(s, h, Load(a));
    assert s.engines[a := x][b := y][a := x.(todo := rows)] == s.engines[a := x.(todo := rows)][b := y];
  }

  lemma Sees(s: State, h: seq<Step>, rows: map<RuleId, Rule>, a: EngineId, x: Engine, b: EngineId, y: Engine,
             id: RuleId, offends: bool, now: Time, rows': map<RuleId, Rule>, x': Engine)
    returns (longer: seq<Step>)
    requires Runs(s, h) && After(s, h) == With(s, rows, a, x, b, y) && a != b
    requires id in x.todo && x' == Engine(Watched(x.pending, id, offends, now), x.todo - {id})
    requires rows' == Marked(rows, Told(x.pending, rows, id, x.todo[id], offends, now))
    ensures longer == h + [Look(a, id, offends, now)] && Runs(s, longer)
    ensures After(s, longer) == With(s, rows', a, x', b, y)
  {
    hide Runs, After, Told, Marked, Watched;
    longer := Extended(s, h, Look(a, id, offends, now));
    assert s.engines[a := x][b := y][a := x'] == s.engines[a := x'][b := y];
  }

  const IDLE := Engine(map[], map[])
  const SLOW := map[7 := Rule(true, 10 * SECOND, false, None)]
  const WAITING := map[7 := 0]

  lemma Created(s: State, a: EngineId, b: EngineId, duration: nat, rows: map<RuleId, Rule>) returns (h: seq<Step>)
    requires Start(s) && a in s.engines && b in s.engines && a != b
    requires rows == map[7 := Rule(true, duration, false, None)]
    ensures h == [Create(7, true, duration)] && Runs(s, h) && After(s, h) == With(s, rows, a, IDLE, b, IDLE)
    ensures rows != map[] && Enabled(rows) == rows
  {
    NoSteps(s);
    assert 7 in rows && s.engines[a := IDLE][b := IDLE] == s.engines;
    h := Goes(s, [], s, Create(7, true, duration), With(s, rows, a, IDLE, b, IDLE));
  }

  /** The first engine sees the rule offended at 0, the second sees it well at 5 seconds, the first reads it again. */
  lemma WellInBetween(s: State, a: EngineId, b: EngineId) returns (h: seq<Step>)
    requires Start(s) && a in s.engines && b in s.engines && a != b
    ensures h == [Create(7, true, 10 * SECOND), Load(a), Look(a, 7, true, 0),
                  Load(b), Look(b, 7, false, 5 * SECOND), Load(a)]
    ensures Runs(s, h) && After(s, h) == With(s, SLOW, a, Engine(WAITING, SLOW), b, IDLE)
  {
    hide Runs, After, With;
    var waits := Engine(WAITING, map[]);
    h := Created(s, a, b, 10 * SECOND, SLOW);
    h := Reads(s, h, SLOW, a, IDLE, b, IDLE);
    h := Sees(s, h, SLOW, a, Engine(map[], SLOW), b, IDLE, 7, true, 0, SLOW, waits);
    Swapped(s, SLOW, a, waits, b, IDLE);
    h := Reads(s, h, SLOW, b, IDLE, a, waits);
    h := Sees(s, h, SLOW, b, Engine(map[], SLOW), a, waits, 7, false, 5 * SECOND, SLOW, IDLE);
    Swapped(s, SLOW, a, waits, b, IDLE);
    h := Reads(s, h, SLOW, a, waits, b, IDLE);
  }

  /** With two engines a rule can fire although the other one found it well in between. */
  lemma OtherLooksDoNotCount(s: State, a: EngineId, b: EngineId) returns (h: seq<Step>)
    requires Start(s) && a in s.engines && b in s.engines && a != b
    ensures Runs(s, h) && Fires(s, h) && !FiresRightly(s, h)
  {
    hide Runs, After;
    var before := WellInBetween(s, a, b);
    var step := Look(a, 7, true, 10 * SECOND);
    h := Extended(s, before, step);
    assert Front(h) == before;
    assert h[4] == Look(b, 7, false, 5 * SECOND) && h[5] == Load(a) && h[6] == step;
    forall j, t | OffendedSince(h, 7, j, t)
      ensures t == 10 * SECOND
    {
      assert j > 4;
    }
  }

  /**
   The promise about `duration` holds of all runs, over restarts and edits, exactly if at most one
   engine evaluates the rules.
   */
  lemma HoldingExactly(s: State)
    requires Start(s)
    ensures (forall h | Runs(s, h) :: FiresRightly(s, h)) <==> OneEngine(s)
  {
    if OneEngine(s) {
      forall h | Runs(s, h)
        ensures FiresRightly(s, h)
      {
        OneTakesTurns(s, h);
        LeadersFireRightly(s, h);
      }
    } else {
      var a, b :| a in s.engines && b in s.engines && a != b;
      var h := OtherLooksDoNotCount(s, a, b);
    }
  }

  const CALM := map[7 := Rule(true, 0, false, None)]
  const FIRST := map[7 := Rule(true, 0, true, Some(SECOND))]
  const OVER := map[7 := Rule(true, 0, false, Some(SECOND))]
  const SECOND_TIME := map[7 := Rule(true, 0, true, Some(3 * SECOND))]
  const SEEN: map<RuleId, Time> := map[7 := SECOND]

  lemma AllEnabled()
    ensures FIRST != map[] && Enabled(FIRST) == FIRST && OVER != map[] && Enabled(OVER) == OVER
  {
    assert 7 in FIRST && 7 in OVER;
  }

  /** The rule fires for the first time, and both engines read it then. */
  lemma BothReadTheFirst(s: State, a: EngineId, b: EngineId) returns (h: seq<Step>)
    requires Start(s) && a in s.engines && b in s.engines && a != b
    ensures Runs(s, h) && After(s, h) == With(s, FIRST, a, Engine(SEEN, FIRST), b, Engine(map[], FIRST))
  {
    hide Runs, After, With;
    AllEnabled();
    var saw := Engine(SEEN, map[]);
    h := Created(s, a, b, 0, CALM);
    h := Reads(s, h, CALM, a, IDLE, b, IDLE);
    h := Sees(s, h, CALM, a, Engine(map[], CALM), b, IDLE, 7, true, SECOND, FIRST, saw);
    h := Reads(s, h, FIRST, a, saw, b, IDLE);
    Swapped(s, FIRST, a, Engine(SEEN, FIRST), b, IDLE);
    h := Reads(s, h, FIRST, b, IDLE, a, Engine(SEEN, FIRST));
    Swapped(s, FIRST, a, Engine(SEEN, FIRST), b, Engine(map[], FIRST));
  }

  /** The second engine closes that incident, and fires the rule again. */
  lemma FiredAgain(s: State, a: EngineId, b: EngineId) returns (h: seq<Step>)
    requires Start(s) && a in s.engines && b in s.engines && a != b
    ensures Runs(s, h)
    ensures After(s, h) == With(s, SECOND_TIME, a, Engine(SEEN, FIRST), b, Engine(map[7 := 3 * SECOND], map[]))
  {
    hide Runs, After, With;
    AllEnabled();
    var x := Engine(SEEN, FIRST);
    h := BothReadTheFirst(s, a, b);
    Swapped(s, FIRST, a, x, b, Engine(map[], FIRST));
    h := Sees(s, h, FIRST, b, Engine(map[], FIRST), a, x, 7, false, 2 * SECOND, OVER, IDLE);
    h := Reads(s, h, OVER, b, IDLE, a, x);
    h := Sees(s, h, OVER, b, Engine(map[], OVER), a, x, 7, true, 3 * SECOND, SECOND_TIME,
              Engine(map[7 := 3 * SECOND], map[]));
    Swapped(s, SECOND_TIME, a, x, b, Engine(map[7 := 3 * SECOND], map[]));
  }

  /**
   With a second engine the key can be stale: engine a read the rule in its first incident, and
   wins the recovery of the second with the key of the first.
   */
  lemma TwoEnginesMisname(s: State, a: EngineId, b: EngineId) returns (h: seq<Step>)
    requires Start(s) && a in s.engines && b in s.engines && a != b
    ensures Runs(s, h) && Recovers(s, h) && !RecoversRightly(s, h)
  {
    hide Runs, After, Edges;
    var before := FiredAgain(s, a, b);
    var step := Look(a, 7, false, 4 * SECOND);
    h := Extended(s, before, step);
    assert Front(h) == before;
    FiringsAlternate(s, before, 7);
    assert NoteOf(After(s, before), step) == Some(Recovered(7, Key(7, Some(1))));
  }

  /** Recoveries carry the key of the firing they close in all runs, exactly if at most one engine evaluates. */
  lemma KeysExactly(s: State)
    requires Start(s)
    ensures (forall h | Runs(s, h) :: RecoversRightly(s, h)) <==> OneEngine(s)
  {
    if OneEngine(s) {
      forall h | Runs(s, h)
        ensures RecoversRightly(s, h)
      {
        OneTakesTurns(s, h);
        LeadersCloseTheirIncidents(s, h);
      }
    } else {
      var a, b :| a in s.engines && b in s.engines && a != b;
      var h := TwoEnginesMisname(s, a, b);
    }
  }
}
