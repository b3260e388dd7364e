// Moving session rows to new keys, one at a time and in any order: what the row
// and fact tables look like after any set of moves. R is the type of a row, and g
// any amount read off it.
module SavingsMoves {
  import opened MapSums

  // Candidates are the Codex requests of a session; attributed ones have a thread.
  datatype Facts = Facts(sessionID: string, clientFamily: string, candidates: int, attributed: int, reason: string)

  type FactTable = map<string, Facts>

  function Candidates(): Facts -> int {
    (f: Facts) => f.candidates
  }

  // The tables before any move, and where each moving session goes.
  datatype Plan<R> = Plan(rows: map<string, R>, facts: FactTable, target: map<string, string>)

  // Moving sessions have a row and Codex requests, and none of them is a target.
  ghost predicate Sound<R>(p: Plan<R>) {
    p.target.Keys <= p.rows.Keys && p.target.Keys <= p.facts.Keys
    && (forall k :: k in p.target ==> p.target[k] !in p.target && p.facts[k].candidates > 0)
    && (forall k :: k in p.facts ==> p.facts[k].candidates >= 0)
  }

  // Where the row of session k is filed once the sessions in `moved` have moved.
  function Place<R>(p: Plan<R>, moved: set<string>, k: string): string {
    if k in moved && k in p.target then p.target[k] else k
  }

  // The original rows that end up in the row filed under key.
  ghost function Landing<R>(p: Plan<R>, moved: set<string>, key: string): map<string, R> {
    map k | k in p.rows && Place(p, moved, k) == key :: p.rows[k]
  }

  ghost function Landed<R>(p: Plan<R>, moved: set<string>): set<string> {
    set k | k in moved && k in p.target :: p.target[k]
  }

  predicate SameButReason(a: Facts, b: Facts) {
    a.(reason := "") == b.(reason := "")
  }

  // No two moved sessions share a target, and no target had Codex requests of its own.
  ghost predicate TargetsFresh<R>(p: Plan<R>, moved: set<string>) {
    (forall j, k :: j in moved && k in moved && j in p.target && k in p.target && j != k ==>
       p.target[j] != p.target[k])
    && (forall k :: k in moved && k in p.target && p.target[k] in p.facts ==> p.facts[p.target[k]].candidates == 0)
  }

  // The rows after the sessions in `moved` have moved, in whatever order: the keys,
  // and the rows nothing has been merged into.
  ghost predicate RowsKept<R>(p: Plan<R>, moved: set<string>, rows: map<string, R>) {
    rows.Keys == (p.rows.Keys - moved) + Landed(p, moved)
    && (forall key :: key in rows && key !in Landed(p, moved) ==> rows[key] == p.rows[key])
  }

  // Every row holds the sum of the original rows that landed in it.
  ghost predicate RowsSummed<R>(p: Plan<R>, moved: set<string>, rows: map<string, R>, g: R -> int) {
    forall key :: key in rows ==> g(rows[key]) == Total(Landing(p, moved, key), g)
  }

  ghost predicate FactsAfter<R>(p: Plan<R>, moved: set<string>, facts: FactTable) {
    FactsKept(p, moved, facts)
    && Total(facts, Candidates()) <= Total(p.facts, Candidates())
    && (Total(facts, Candidates()) == Total(p.facts, Candidates()) <==> TargetsFresh(p, moved))
  }

  ghost predicate FactsKept<R>(p: Plan<R>, moved: set<string>, facts: FactTable) {
    facts.Keys == (p.facts.Keys - moved) + Landed(p, moved)
    && (forall key :: key in facts && key !in Landed(p, moved) ==> SameButReason(facts[key], p.facts[key]))
    && (forall key :: key in facts && key in Landed(p, moved) ==> FactsOfOne(p, moved, key, facts[key]))
  }

  // All requests of one session that moved here, now attributed.
  ghost predicate FactsOfOne<R>(p: Plan<R>, moved: set<string>, key: string, f: Facts) {
    f.attributed == f.candidates > 0
    && exists k :: k in moved && k in p.target && p.target[k] == key && k in p.facts
         && f.candidates == p.facts[k].candidates
  }

  lemma LandOneMore<R>(p: Plan<R>, moved: set<string>, k: string)
    requires k in p.target
    ensures Landed(p, moved + {k}) == Landed(p, moved) + {p.target[k]}
  {
  }

  lemma Arrival<R>(p: Plan<R>, moved: set<string>, k: string)
    requires Sound(p) && k in p.target && k !in moved
    ensures Landing(p, moved + {k}, p.target[k]) == Landing(p, moved, p.target[k])[k := p.rows[k]]
    ensures Landing(p, moved, p.target[k]) - {k} == Landing(p, moved, p.target[k])
  {
  }

  lemma Elsewhere<R>(p: Plan<R>, moved: set<string>, k: string, key: string)
    requires Sound(p) && k in p.target && key != k && key != p.target[k]
    ensures Landing(p, moved + {k}, key) == Landing(p, moved, key)
  {
  }

  // Nothing has landed where no row is.
  lemma EmptyLanding<R>(p: Plan<R>, moved: set<string>, key: string)
    requires moved <= p.target.Keys
    requires key !in (p.rows.Keys - moved) + Landed(p, moved)
    ensures Landing(p, moved, key) == map[]
  {
  }

  // Moving one more session: its row is gone from its old key and merged into the
  // target's.
  lemma MoveRow<R>(p: Plan<R>, moved: set<string>, rows: map<string, R>, k: string, row: R)
    requires Sound(p) && moved <= p.target.Keys && k in p.target && k !in moved
    requires RowsKept(p, moved, rows)
    ensures RowsKept(p, moved + {k}, (rows - {k})[p.target[k] := row])
  {
    LandOneMore(p, moved, k);
  }

  lemma MoveAmount<R>(p: Plan<R>, moved: set<string>, rows: map<string, R>, k: string, row: R, g: R -> int)
    requires Sound(p) && moved <= p.target.Keys && k in p.target && k !in moved
    requires RowsKept(p, moved, rows) && RowsSummed(p, moved, rows, g)
    requires p.target[k] in rows ==> g(row) == g(rows[p.target[k]]) + g(p.rows[k])
    requires p.target[k] !in rows ==> g(row) == g(p.rows[k])
    ensures RowsSummed(p, moved + {k}, (rows - {k})[p.target[k] := row], g)
  {
    var t := p.target[k];
    var next := (rows - {k})[t := row];
    forall key | key in next
      ensures g(next[key]) == Total(Landing(p, moved + {k}, key), g)
    {
      if key == t {
        Arrival(p, moved, k);
        TotalUpdate(Landing(p, moved, t), g, k, p.rows[k]);
        if t !in rows {
          EmptyLanding(p, moved, t);
        }
      } else {
        Elsewhere(p, moved, k, key);
      }
    }
  }

  // Merging conserves every amount that the merge adds up.
  lemma MoveConserves<R>(p: Plan<R>, moved: set<string>, rows: map<string, R>, k: string, row: R, g: R -> int)
    requires k in p.target && k in rows && p.target[k] != k
    requires p.target[k] in rows ==> g(row) <= g(rows[p.target[k]]) + g(rows[k])
    requires p.target[k] !in rows ==> g(row) <= g(rows[k])
    ensures Total((rows - {k})[p.target[k] := row], g) <= Total(rows, g)
    ensures g(row) == g(rows[k]) + (if p.target[k] in rows then g(rows[p.target[k]]) else 0)
      ==> Total((rows - {k})[p.target[k] := row], g) == Total(rows, g)
  {
    TotalUpdate(rows, g, k, rows[k]);
    TotalUpdate(rows - {k}, g, p.target[k], row);
  }

  // The facts of the moved session replace whatever was filed under the target, so
  // Codex requests are lost exactly when a target is shared or was in use.
  lemma MoveFacts<R>(p: Plan<R>, moved: set<string>, facts: FactTable, k: string, next: Facts)
    requires Sound(p) && moved <= p.target.Keys && k in p.target && k !in moved
    requires FactsAfter(p, moved, facts)
    requires next.candidates == next.attributed == p.facts[k].candidates
    ensures FactsAfter(p, moved + {k}, (facts - {k})[p.target[k] := next])
  {
    KeepFacts(p, moved, facts, k, next);
    Freshness(p, moved, facts, k);
    TotalUpdate(facts, Candidates(), k, facts[k]);
    TotalUpdate(facts - {k}, Candidates(), p.target[k], next);
  }

  lemma KeepFacts<R>(p: Plan<R>, moved: set<string>, facts: FactTable, k: string, next: Facts)
    requires Sound(p) && moved <= p.target.Keys && k in p.target && k !in moved
    requires FactsKept(p, moved, facts)
    requires next.candidates == next.attributed == p.facts[k].candidates
    ensures FactsKept(p, moved + {k}, (facts - {k})[p.target[k] := next])
    ensures k in facts && facts[k].candidates == next.candidates
  {
    hide Landed, Sound;
    LandOneMore(p, moved, k);
    NotLanded(p, moved, k);
    var t, after := p.target[k], (facts - {k})[p.target[k] := next];
    assert after.Keys == facts.Keys - {k} + {t} == p.facts.Keys - (moved + {k}) + Landed(p, moved + {k});
    assert forall key :: key in after && key != t ==> after[key] == facts[key];
  }

  // A session that moves is no target.
  lemma NotLanded<R>(p: Plan<R>, moved: set<string>, k: string)
    requires Sound(p) && k in p.target
    ensures k !in Landed(p, moved) && p.target[k] != k && p.target[k] !in p.target
    ensures k in p.facts && p.facts[k].candidates > 0
  {
  }

  lemma Freshness<R>(p: Plan<R>, moved: set<string>, facts: FactTable, k: string)
    requires Sound(p) && moved <= p.target.Keys && k in p.target && k !in moved
    requires FactsKept(p, moved, facts)
    ensures TargetsFresh(p, moved + {k}) <==>
      TargetsFresh(p, moved) && (p.target[k] in facts ==> facts[p.target[k]].candidates == 0)
    ensures p.target[k] in facts ==> facts[p.target[k]].candidates >= 0
  {
    var t := p.target[k];
    assert k in moved + {k};
    if t in Landed(p, moved) {
      var j :| j in moved && j in p.target && p.target[j] == t;
      assert j in moved + {k};
    }
  }

  // Before any move the tables are the original ones.
  lemma NothingMoved<R>(p: Plan<R>, g: R -> int)
    requires Sound(p)
    ensures RowsKept(p, {}, p.rows) && RowsSummed(p, {}, p.rows, g)
    ensures FactsAfter(p, {}, p.facts)
  {
    forall key | key in p.rows
      ensures g(p.rows[key]) == Total(Landing(p, {}, key), g)
    {
      var none: map<string, R> := map[];
      assert Landing(p, {}, key) == none[key := p.rows[key]];
      TotalUpdate(none, g, key, p.rows[key]);
      assert none - {key} == none;
    }
  }
}
