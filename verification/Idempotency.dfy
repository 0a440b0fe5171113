/** Idempotency keys: the machine operations (internal/application/machineservice/service.go)
    and the same check-then-insert in Enqueue (internal/workflows/engine.go), for callers that
    race on tables whose key column is UNIQUE (migrations/0004_workflows.up.sql). */
module Idempotency {

  datatype Option<+T> = None | Some(value: T)

  datatype Status = Running | Succeeded | Failed

  datatype Record = Record(id: nat, key: string, status: Status, result: string)

  // ------------------------------------------------------------------ the table

  function Find(rows: seq<Record>, key: string): (i: Option<nat>)
    ensures i.Some? ==> i.value < |rows| && rows[i.value].key == key
    ensures i.None? ==> forall k :: 0 <= k < |rows| ==> rows[k].key != key
  {
    if |rows| == 0 then None
    else if rows[|rows| - 1].key == key then Some(|rows| - 1)
    else Find(rows[..|rows| - 1], key)
  }

  function Finished(op: Record, error: Option<string>): Record {
    match error
    case None => op.(status := Succeeded, result := "ok")
    case Some(message) => op.(status := Failed, result := message)
  }

  /** UPDATE ... WHERE id. */
  function Written(rows: seq<Record>, op: Record): (after: seq<Record>)
    ensures |after| == |rows|
  {
    seq(|rows|, i requires 0 <= i < |rows| => if rows[i].id == op.id then op else rows[i])
  }

  ghost predicate Unique(rows: seq<Record>) {
    forall i, j :: 0 <= i < j < |rows| ==> rows[i].key != rows[j].key && rows[i].id != rows[j].id
  }

  // ------------------------------------------------------------------ one caller at a time

  /** Fine: applied and answered. Lost: never applied. Unanswered: applied, but the caller sees
      an error. */
  datatype Fault = Fine | Lost | Unanswered

  class OperationService {
    var rows: seq<Record>
    var called: nat // how often some fn was called

    constructor ()
      ensures rows == [] && called == 0
    {
      rows, called := [], 0;
    }

    /** A record with err false and owner false was there before, in whatever status. */
    method BeginOperation(key: string, newId: nat, readable: bool, machineKnown: bool, insert: Fault)
      returns (op: Option<Record>, owner: bool, err: bool)
      requires forall i :: 0 <= i < |rows| ==> rows[i].id != newId
      modifies this`rows
      ensures var found, record := Find(old(rows), key), Record(newId, key, Running, "");
              if readable && found.Some? then op == Some(old(rows)[found.value]) && !owner && !err && rows == old(rows)
              else if !readable || !machineKnown then op.None? && !owner && err && rows == old(rows)
              else
                && op == (if insert.Fine? then Some(record) else None) && owner == insert.Fine? && err == !insert.Fine?
                && rows == old(rows) + (if insert.Lost? then [] else [record])
      ensures old(Unique(rows)) ==> Unique(rows)
    {
      if !readable {
        return None, false, true;
      }
      var found := Find(rows, key);
      if found.Some? {
        return Some(rows[found.value]), false, false;
      }
      if !machineKnown {
        return None, false, true;
      }
      var record := Record(newId, key, Running, "");
      if !insert.Lost? {
        rows := rows + [record];
      }
      if !insert.Fine? {
        return None, false, true;
      }
      return Some(record), true, false;
    }

    method FinishOperation(op: Record, error: Option<string>, stored: bool) returns (done: Option<Record>, err: bool)
      modifies this`rows
      ensures var record := if error.None? then Record(op.id, op.key, Succeeded, "ok")
                            else Record(op.id, op.key, Failed, error.value);
              && done == (if stored then Some(record) else None)
              && |rows| == |old(rows)|
              && forall i :: 0 <= i < |rows| ==>
                   rows[i] == if stored && old(rows)[i].id == op.id then record else old(rows)[i]
      ensures err <==> !stored || error.Some?
    {
      var finished := Finished(op, error);
      if !stored {
        return None, true;
      }
      rows := Written(rows, finished);
      return Some(finished), error.Some?;
    }

    /** fn is called at most once, and not at all for a known key, when the record cannot be looked
        up or inserted, or when what fn needs (the credentials, the provider) cannot be
        resolved. */
    method RunOperation(key: string, newId: nat, readable: bool, machineKnown: bool, insert: Fault,
                        unresolved: Option<string>, fn: Option<string>, stored: bool)
      returns (op: Option<Record>, err: bool)
      requires Unique(rows) && forall i :: 0 <= i < |rows| ==> rows[i].id != newId
      modifies this
      ensures Unique(rows)
      ensures var found, record := Find(old(rows), key), Record(newId, key, Running, "");
              var error := if unresolved.Some? then unresolved else fn;
              if readable && found.Some? then
                op == Some(old(rows)[found.value]) && !err && rows == old(rows) && called == old(called)
              else if !readable || !machineKnown then op.None? && err && rows == old(rows) && called == old(called)
              else if !insert.Fine? then
                op.None? && err && called == old(called) && rows == old(rows) + (if insert.Lost? then [] else [record])
              else
                var done := if error.None? then Record(newId, key, Succeeded, "ok") else Record(newId, key, Failed, error.value);
                && called == old(called) + (if unresolved.Some? then 0 else 1)
                && rows == old(rows) + [if stored then done else record]
                && (err <==> !stored || error.Some?)
                && op == (if stored then Some(done) else None)
    {
      var begun, owner, failed := BeginOperation(key, newId, readable, machineKnown, insert);
      if failed || !owner {
        return begun, failed;
      }
      if unresolved.Some? {
        op, err := FinishOperation(begun.value, unresolved, stored);
      } else {
        called := called + 1;
        op, err := FinishOperation(begun.value, fn, stored);
      }
    }
  }

  // ------------------------------------------------------------------ any number of callers

  /** Operations: RunOperation and runInfraOperation, whose fn is the machine call and whose
      record is updated afterwards. Workflows: Enqueue, whose fn is the first dispatch and whose
      record is left to the engine. */
  datatype Use = Operations | Workflows

  datatype PC =
    | Checking(key: string)
    | Missed(key: string)                        // the key was not found
    | Owner(op: Record)                          // inserted, fn not called yet
    | Done(op: Record, error: Option<string>)    // fn called, or given up; result not stored yet
    | Returned(key: string, id: Option<nat>)     // the record in the answer, if any
  {
    predicate Holding() {
      Owner? || Done?
    }
  }

  /** What the outside world saw of fn. */
  datatype Effect = Effect(key: string, ok: bool)

  datatype Sys = Sys(rows: seq<Record>, callers: map<nat, PC>, effects: seq<Effect>)

  datatype Action =
    | Enter(c: nat, key: string)
    | Check(c: nat, readable: bool)
    | GiveUp(c: nat)
    | Insert(c: nat, newId: nat, fault: Fault)
    | Unresolved(c: nat, message: string)
    | Run(c: nat, error: Option<string>)
    | Finish(c: nat, fault: Fault)
    | Crash(c: nat)

  predicate Enabled(use: Use, s: Sys, a: Action) {
    match a
    case Enter(c, _) => c !in s.callers
    case Check(c, _) => c in s.callers && s.callers[c].Checking?
    case GiveUp(c) => c in s.callers && s.callers[c].Missed?
    case Insert(c, newId, _) =>
      c in s.callers && s.callers[c].Missed? && forall i :: 0 <= i < |s.rows| ==> s.rows[i].id != newId
    case Unresolved(c, _) => use.Operations? && c in s.callers && s.callers[c].Owner?
    case Run(c, _) => c in s.callers && s.callers[c].Owner?
    case Finish(c, _) => c in s.callers && s.callers[c].Done?
    case Crash(c) => c in s.callers
  }

  function Apply(use: Use, s: Sys, a: Action): Sys
    requires Enabled(use, s, a)
  {
    match a
    case Enter(c, key) => s.(callers := s.callers[c := Checking(key)])
    case Check(c, readable) =>
      var key := s.callers[c].key;
      var found := Find(s.rows, key);
      s.(callers := s.callers[c := if !readable then Returned(key, None)
                                   else if found.Some? then Returned(key, Some(s.rows[found.value].id))
                                   else Missed(key)])
    case GiveUp(c) => s.(callers := s.callers[c := Returned(s.callers[c].key, None)])
    case Insert(c, newId, fault) =>
      var key := s.callers[c].key;
      var op := Record(newId, key, Running, "");
      var stored := !fault.Lost? && Find(s.rows, key).None?;
      s.(rows := if stored then s.rows + [op] else s.rows,
         callers := s.callers[c := if stored && fault.Fine? then Owner(op) else Returned(key, None)])
    case Unresolved(c, message) => s.(callers := s.callers[c := Done(s.callers[c].op, Some(message))])
    case Run(c, error) =>
      s.(callers := s.callers[c := Done(s.callers[c].op, error)],
         effects := s.effects + [Effect(s.callers[c].op.key, error.None?)])
    case Finish(c, fault) =>
      var pc := s.callers[c];
      if use.Workflows? then
        s.(callers := s.callers[c := Returned(pc.op.key, if pc.error.None? then Some(pc.op.id) else None)])
      else
        s.(rows := if fault.Lost? then s.rows else Written(s.rows, Finished(pc.op, pc.error)),
           callers := s.callers[c := Returned(pc.op.key, if fault.Fine? then Some(pc.op.id) else None)])
    case Crash(c) => s.(callers := s.callers - {c})
  }

  ghost predicate Legal(use: Use, at: seq<Sys>, run: seq<Action>) {
    && |at| == |run| + 1
    && at[0] == Sys([], map[], [])
    && forall i {:trigger run[i]} :: 0 <= i < |run| ==> Enabled(use, at[i], run[i]) && at[i + 1] == Apply(use, at[i], run[i])
  }

  // ------------------------------------------------------------------ the invariant

  predicate InTable(rows: seq<Record>, key: string, id: nat) {
    exists i :: 0 <= i < |rows| && rows[i].key == key && rows[i].id == id
  }

  /** A caller's private copy is the stored row, ... */
  ghost predicate Held(s: Sys) {
    forall c :: c in s.callers && s.callers[c].Holding() ==> s.callers[c].op in s.rows && s.callers[c].op.status.Running?
  }

  /** ... nobody shares its record, ... */
  ghost predicate Unshared(s: Sys) {
    forall c, d ::
      c in s.callers && d in s.callers && s.callers[c].Holding() && s.callers[d].Holding() ==>
        s.callers[c].op == s.callers[d].op ==> c == d
  }

  /** ... and an answer names the record of its key. */
  ghost predicate Answered(s: Sys) {
    forall c :: c in s.callers && s.callers[c].Returned? && s.callers[c].id.Some? ==>
      InTable(s.rows, s.callers[c].key, s.callers[c].id.value)
  }

  predicate Affected(s: Sys, key: string) {
    exists i :: 0 <= i < |s.effects| && s.effects[i].key == key
  }

  /** At most one effect a key, ... */
  ghost predicate Once(s: Sys) {
    forall i, j :: 0 <= i < j < |s.effects| ==> s.effects[i].key != s.effects[j].key
  }

  /** ... none before its record exists, ... */
  ghost predicate Recorded(s: Sys) {
    forall i :: 0 <= i < |s.effects| ==> Find(s.rows, s.effects[i].key).Some?
  }

  /** ... and none while its owner waits. */
  ghost predicate Waiting(s: Sys) {
    forall c :: c in s.callers && s.callers[c].Owner? ==> !Affected(s, s.callers[c].op.key)
  }

  ghost predicate Truthful(s: Sys) {
    && (forall c :: c in s.callers && s.callers[c].Done? ==>
          (s.callers[c].error.None? <==> Effect(s.callers[c].op.key, true) in s.effects))
    && (forall i :: 0 <= i < |s.rows| && !s.rows[i].status.Running? ==>
          (s.rows[i].status.Succeeded? <==> Effect(s.rows[i].key, true) in s.effects))
  }

  /** The result of a row that has none yet, and of one that went well. */
  ghost predicate Worded(s: Sys) {
    forall i :: 0 <= i < |s.rows| && !s.rows[i].status.Failed? ==>
      s.rows[i].result == if s.rows[i].status.Succeeded? then "ok" else ""
  }

  ghost predicate Inv(s: Sys) {
    Unique(s.rows) && Held(s) && Unshared(s) && Answered(s) && Once(s) && Recorded(s) && Waiting(s) && Truthful(s) && Worded(s)
  }

  /** No step removes a row or changes its id or key. */
  lemma {:induction false} RowsStay(use: Use, s: Sys, a: Action)
    requires Unique(s.rows) && Held(s) && Enabled(use, s, a)
    ensures var t := Apply(use, s, a);
            && Unique(t.rows) && |s.rows| <= |t.rows|
            && forall i :: 0 <= i < |s.rows| ==> t.rows[i].id == s.rows[i].id && t.rows[i].key == s.rows[i].key
  {
    if a.Finish? {
      assert s.callers[a.c].Holding();
      var j :| 0 <= j < |s.rows| && s.rows[j] == s.callers[a.c].op;
      assert forall i :: 0 <= i < |s.rows| && i != j ==> s.rows[i].id != s.callers[a.c].op.id;
    }
  }

  lemma {:induction false} FindStays(rows: seq<Record>, later: seq<Record>, key: string)
    requires |rows| <= |later| && forall i :: 0 <= i < |rows| ==> later[i].key == rows[i].key
    ensures Find(rows, key).Some? ==> Find(later, key).Some?
  {
  }

  lemma {:induction false} HeldStep(use: Use, s: Sys, a: Action, c: nat)
    requires Unique(s.rows) && Held(s) && Unshared(s) && Enabled(use, s, a)
    requires c in Apply(use, s, a).callers && Apply(use, s, a).callers[c].Holding()
    ensures Apply(use, s, a).callers[c].op in Apply(use, s, a).rows && Apply(use, s, a).callers[c].op.status.Running?
  {
    var t := Apply(use, s, a);
    if c in s.callers && s.callers[c].Holding() {
      var i :| 0 <= i < |s.rows| && s.rows[i] == s.callers[c].op;
      if a.Finish? {
        assert s.callers[a.c].Holding();
        var j :| 0 <= j < |s.rows| && s.rows[j] == s.callers[a.c].op;
        assert i != j;
      }
      assert t.rows[i] == s.rows[i];
    } else {
      assert t.rows[|s.rows|] == t.callers[c].op;
    }
  }

  lemma {:induction false} UnsharedStep(use: Use, s: Sys, a: Action)
    requires Unique(s.rows) && Held(s) && Unshared(s) && Enabled(use, s, a)
    ensures Unshared(Apply(use, s, a))
  {
    if a.Insert? {
      assert forall d :: d in s.callers && s.callers[d].Holding() ==> s.callers[d].op.id != a.newId;
    }
  }

  lemma {:induction false} AnsweredStep(use: Use, s: Sys, a: Action)
    requires Unique(s.rows) && Held(s) && Answered(s) && Enabled(use, s, a)
    ensures Answered(Apply(use, s, a))
  {
    var t := Apply(use, s, a);
    RowsStay(use, s, a);
    forall c | c in t.callers && t.callers[c].Returned? && t.callers[c].id.Some?
      ensures InTable(t.rows, t.callers[c].key, t.callers[c].id.value)
    {
      var i: nat;
      if c in s.callers && s.callers[c] == t.callers[c] {
        i :| i < |s.rows| && s.rows[i].key == s.callers[c].key && s.rows[i].id == s.callers[c].id.value;
      } else if a.Check? {
        i := Find(s.rows, s.callers[a.c].key).value;
      } else {
        assert s.callers[a.c].Holding();
        i :| i < |s.rows| && s.rows[i] == s.callers[a.c].op;
      }
      assert t.rows[i].key == t.callers[c].key && t.rows[i].id == t.callers[c].id.value;
    }
  }

  lemma {:induction false} OnceStep(use: Use, s: Sys, a: Action)
    requires Once(s) && Waiting(s) && Enabled(use, s, a)
    ensures Once(Apply(use, s, a))
  {
    if a.Run? {
      assert !Affected(s, s.callers[a.c].op.key);
    }
  }

  lemma {:induction false} RecordedStep(use: Use, s: Sys, a: Action)
    requires Unique(s.rows) && Held(s) && Recorded(s) && Enabled(use, s, a)
    ensures Recorded(Apply(use, s, a))
  {
    var t := Apply(use, s, a);
    RowsStay(use, s, a);
    forall i | 0 <= i < |t.effects| ensures Find(t.rows, t.effects[i].key).Some? {
      if i < |s.effects| {
        FindStays(s.rows, t.rows, s.effects[i].key);
      } else {
        assert s.callers[a.c].Holding();
      }
    }
  }

  lemma {:induction false} WaitingStep(use: Use, s: Sys, a: Action, c: nat)
    requires Unique(s.rows) && Held(s) && Unshared(s) && Recorded(s) && Waiting(s) && Enabled(use, s, a)
    requires c in Apply(use, s, a).callers && Apply(use, s, a).callers[c].Owner?
    ensures !Affected(Apply(use, s, a), Apply(use, s, a).callers[c].op.key)
  {
    var t := Apply(use, s, a);
    if c in s.callers && s.callers[c].Owner? {
      assert !Affected(s, s.callers[c].op.key);
      if a.Run? {
        assert s.callers[a.c].Holding() && s.callers[c].Holding();
        assert s.callers[a.c].op.key != s.callers[c].op.key;
      }
    } else {
      assert forall i :: 0 <= i < |s.effects| ==> Find(s.rows, s.effects[i].key).Some?;
    }
  }

  lemma {:induction false} TruthfulStep(use: Use, s: Sys, a: Action)
    requires Inv(s) && Enabled(use, s, a)
    ensures Truthful(Apply(use, s, a))
  {
  }

  lemma {:induction false} WordedStep(use: Use, s: Sys, a: Action)
    requires Worded(s) && Enabled(use, s, a)
    ensures Worded(Apply(use, s, a))
  {
  }

  lemma {:induction false} InvStep(use: Use, s: Sys, a: Action)
    requires Inv(s) && Enabled(use, s, a)
    ensures Inv(Apply(use, s, a))
  {
    RowsStay(use, s, a);
    forall c | c in Apply(use, s, a).callers && Apply(use, s, a).callers[c].Holding()
      ensures Apply(use, s, a).callers[c].op in Apply(use, s, a).rows && Apply(use, s, a).callers[c].op.status.Running?
    {
      HeldStep(use, s, a, c);
    }
    UnsharedStep(use, s, a);
    AnsweredStep(use, s, a);
    OnceStep(use, s, a);
    RecordedStep(use, s, a);
    forall c | c in Apply(use, s, a).callers && Apply(use, s, a).callers[c].Owner?
      ensures !Affected(Apply(use, s, a), Apply(use, s, a).callers[c].op.key)
    {
      WaitingStep(use, s, a, c);
    }
    TruthfulStep(use, s, a);
    WordedStep(use, s, a);
  }

  lemma {:induction false} InvRun(use: Use, at: seq<Sys>, run: seq<Action>, i: nat)
    requires Legal(use, at, run) && i <= |run|
    ensures Inv(at[i])
  {
    if i > 0 {
      InvRun(use, at, run, i - 1);
      InvStep(use, at[i - 1], run[i - 1]);
    }
  }

  lemma {:induction false} RowsStayRun(use: Use, at: seq<Sys>, run: seq<Action>, i: nat, j: nat, k: nat)
    requires Legal(use, at, run) && i <= j <= |run| && k < |at[i].rows|
    ensures k < |at[j].rows| && at[j].rows[k].id == at[i].rows[k].id && at[j].rows[k].key == at[i].rows[k].key
  {
    if i < j {
      RowsStayRun(use, at, run, i, j - 1, k);
      InvRun(use, at, run, j - 1);
      RowsStay(use, at[j - 1], run[j - 1]);
    }
  }

  // ------------------------------------------------------------------ the results

  /** For every interleaving of callers, crashes and lost or half-lost requests: one record a
      key at most, and fn called at most once a key, never before the record exists. */
  lemma {:induction false} AtMostOnce(use: Use, at: seq<Sys>, run: seq<Action>, i: nat)
    requires Legal(use, at, run) && i <= |run|
    ensures Unique(at[i].rows)
    ensures forall m, n :: 0 <= m < n < |at[i].effects| ==> at[i].effects[m].key != at[i].effects[n].key
    ensures forall m :: 0 <= m < |at[i].effects| ==> Find(at[i].rows, at[i].effects[m].key).Some?
  {
    InvRun(use, at, run, i);
  }

  /** Every answer that carries a record, at whatever time, carries the same one for the same
      key, and it is the stored one. */
  lemma {:induction false} SameRecord(use: Use, at: seq<Sys>, run: seq<Action>, i: nat, j: nat, c: nat, d: nat)
    requires Legal(use, at, run) && i <= j <= |run|
    requires c in at[i].callers && at[i].callers[c].Returned? && at[i].callers[c].id.Some?
    requires d in at[j].callers && at[j].callers[d].Returned? && at[j].callers[d].id.Some?
    requires at[i].callers[c].key == at[j].callers[d].key
    ensures at[i].callers[c].id == at[j].callers[d].id
    ensures InTable(at[j].rows, at[j].callers[d].key, at[j].callers[d].id.value)
  {
    InvRun(use, at, run, i);
    InvRun(use, at, run, j);
    var k: nat :| k < |at[i].rows| && at[i].rows[k].key == at[i].callers[c].key && at[i].rows[k].id == at[i].callers[c].id.value;
    RowsStayRun(use, at, run, i, j, k);
    var l: nat :| l < |at[j].rows| && at[j].rows[l].key == at[j].callers[d].key && at[j].rows[l].id == at[j].callers[d].id.value;
    assert k == l;
  }

  /** A finished operation is SUCCEEDED iff its fn was called and returned nil, and says "ok". */
  lemma {:induction false} FinishedTruthfully(at: seq<Sys>, run: seq<Action>, i: nat, k: nat)
    requires Legal(Operations, at, run) && i <= |run| && k < |at[i].rows| && !at[i].rows[k].status.Running?
    ensures at[i].rows[k].status.Succeeded? <==> Effect(at[i].rows[k].key, true) in at[i].effects
    ensures at[i].rows[k].status.Succeeded? ==> at[i].rows[k].result == "ok"
  {
    InvRun(Operations, at, run, i);
  }

  // ------------------------------------------------------------------ abandoned records

  ghost predicate Owned(s: Sys, id: nat) {
    exists c :: c in s.callers && s.callers[c].Holding() && s.callers[c].op.id == id
  }

  ghost predicate Orphan(s: Sys, k: nat) {
    k < |s.rows| && s.rows[k].status.Running? && !Owned(s, s.rows[k].id)
  }

  lemma {:induction false} OrphanStep(use: Use, s: Sys, a: Action, k: nat)
    requires Inv(s) && Enabled(use, s, a) && Orphan(s, k)
    ensures var t := Apply(use, s, a); Orphan(t, k) && t.rows[k] == s.rows[k]
  {
    var t := Apply(use, s, a);
    RowsStay(use, s, a);
    if a.Finish? {
      assert s.callers[a.c].Holding();
    }
    forall c | c in t.callers && t.callers[c].Holding() ensures t.callers[c].op.id != t.rows[k].id {
      assert a.Insert? || (c in s.callers && s.callers[c].Holding() && s.callers[c].op.id == t.callers[c].op.id);
    }
  }

  lemma {:induction false} OrphanUnaffected(use: Use, s: Sys, a: Action, k: nat)
    requires Inv(s) && Enabled(use, s, a) && Orphan(s, k)
    ensures Affected(Apply(use, s, a), s.rows[k].key) == Affected(s, s.rows[k].key)
  {
    var t := Apply(use, s, a);
    if a.Run? {
      assert s.callers[a.c].Holding();
      var j :| 0 <= j < |s.rows| && s.rows[j] == s.callers[a.c].op;
      assert j != k;
    }
    if Affected(s, s.rows[k].key) {
      var m :| 0 <= m < |s.effects| && s.effects[m].key == s.rows[k].key;
      assert t.effects[m] == s.effects[m];
    }
  }

  /** A record that is RUNNING with no caller behind it (its owner crashed, or could not store
      the result, or never learnt that its insert succeeded) is RUNNING forever, and its fn is
      never called again under that key ... */
  lemma {:induction false} OrphanForever(use: Use, at: seq<Sys>, run: seq<Action>, i: nat, j: nat, k: nat)
    requires Legal(use, at, run) && i <= j <= |run| && Orphan(at[i], k)
    ensures Orphan(at[j], k) && at[j].rows[k] == at[i].rows[k]
    ensures Affected(at[j], at[i].rows[k].key) == Affected(at[i], at[i].rows[k].key)
  {
    if i < j {
      OrphanForever(use, at, run, i, j - 1, k);
      InvRun(use, at, run, j - 1);
      OrphanStep(use, at[j - 1], run[j - 1], k);
      OrphanUnaffected(use, at[j - 1], run[j - 1], k);
    }
  }

  /** ... whereas while an owner is alive its next two actions can finish it. */
  lemma {:induction false} OwnedCanFinish(s: Sys, k: nat) returns (c: nat, first: Action)
    requires Inv(s) && k < |s.rows| && s.rows[k].status.Running? && Owned(s, s.rows[k].id)
    ensures Enabled(Operations, s, first) || (c in s.callers && s.callers[c].Done?)
    ensures var t := if Enabled(Operations, s, first) then Apply(Operations, s, first) else s;
            && Enabled(Operations, t, Finish(c, Fine))
            && !Apply(Operations, t, Finish(c, Fine)).rows[k].status.Running?
  {
    c :| c in s.callers && s.callers[c].Holding() && s.callers[c].op.id == s.rows[k].id;
    first := Run(c, None);
  }

  /** Such a record is four actions away: a caller dies right after its insert. */
  lemma {:induction false} OrphanArises(use: Use, key: string, newId: nat) returns (at: seq<Sys>, run: seq<Action>)
    ensures Legal(use, at, run) && |run| == 4 && run[3] == Crash(0)
    ensures Orphan(at[4], 0) && at[4].rows[0] == Record(newId, key, Running, "") && !Affected(at[4], key)
  {
    var s0 := Sys([], map[], []);
    run := [Enter(0, key), Check(0, true), Insert(0, newId, Fine), Crash(0)];
    var s1 := Apply(use, s0, run[0]);
    var s2 := Apply(use, s1, run[1]);
    var s3 := Apply(use, s2, run[2]);
    var s4 := Apply(use, s3, run[3]);
    at := [s0, s1, s2, s3, s4];
    assert s4.callers == map[];
  }
}
