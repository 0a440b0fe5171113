/** What the dispatch protocol guarantees when writes succeed and either messages are not
    duplicated (Concurrent) or handlers do not overlap (Repeating). */
module Delivery {
  import opened Workflow
  import opened Dispatch

  /** Where in-order execution stands: step k is next, or step k failed. */
  datatype Cursor = At(k: nat) | Stopped(k: nat)

  function Advance(i: nat, o: Outcome): Cursor {
    match o
    case Ok(_) => At(i + 1)
    case Err(_) => Stopped(i)
    case Await => At(i)
  }

  ghost function CursorOf(trace: seq<Action>): Cursor {
    if |trace| == 0 then At(0)
    else
      var a := trace[|trace| - 1];
      if a.Run? then Advance(a.i, a.outcome) else CursorOf(trace[..|trace| - 1])
  }

  /** Every call of a step function was the next one in order: the first call is step 0,
      step i+1 is called only after step i returned nil, a step is called again only after
      it asked to wait, and nothing is called after an error. */
  ghost predicate InOrder(trace: seq<Action>) {
    |trace| == 0 ||
    (var before, a := trace[..|trace| - 1], trace[|trace| - 1];
     InOrder(before) && (a.Run? ==> CursorOf(before) == At(a.i)))
  }

  /** The rows between two handlers. */
  ghost predicate AtRest(s: Sys, c: Cursor) {
    var k := s.row.currentStep;
    match s.row.status
    case Pending | Running | AwaitingApproval => Clean(s.steps, k) && c == At(k)
    case NeedsAttention => OneAt(s.steps, k, Status.Failed) && c == Stopped(k)
    case Succeeded => k == |s.steps| && Clean(s.steps, k) && c == At(k)
    case Failed | Cancelled => false
  }

  predicate Active(st: Status) {
    st.Running? || st.AwaitingApproval?
  }

  /** How the rows and the cursor look while an actor is at pc. */
  ghost predicate View(s: Sys, pc: PC, c: Cursor) {
    var k := s.row.currentStep;
    match pc
    case Received | Publishing | Returning => AtRest(s, c)
    case Loaded(wf) => wf == s.row && AtRest(s, c)
    case ResumeLoaded(wf) => wf == s.row && AtRest(s, c) && s.row.status.AwaitingApproval?
    case Marked(wf) => wf == s.row && AtRest(s, c) && Active(s.row.status)
    case Exhausted(wf) => wf == s.row && AtRest(s, c) && Active(s.row.status) && k == |s.steps|
    case Holding(wf, st) =>
      wf == s.row && Active(s.row.status) && OneAt(s.steps, k, Status.Running) && st == s.steps[k] && c == At(k)
    case Ran(wf, st, o) =>
      wf == s.row && Active(s.row.status) && OneAt(s.steps, k, Status.Running) && st == s.steps[k] && c == Advance(k, o)
    case Settling(wf, st, o) =>
      && wf == s.row && Active(s.row.status) && st.sequence == k < |s.steps| && c == Advance(k, o)
      && match o
         case Ok(_) => Clean(s.steps, k + 1)
         case Err(_) => OneAt(s.steps, k, Status.Failed)
         case Await => Clean(s.steps, k)
  }

  ghost predicate Registered(s: Sys) {
    Numbered(s.steps) && s.registered == |s.steps|
  }

  ghost function NextCursor(c: Cursor, a: Action): Cursor {
    if a.Run? then Advance(a.i, a.outcome) else c
  }

  /** A claim, whether it finds a step or not. */
  lemma {:induction false} ActorClaims(s: Sys, c: Cursor, id: nat, a: Action)
    requires Registered(s) && Enabled(s, a) && Orderly(s, a) && (a.Claim? || a.ClaimNone?) && a.id == id
    requires id in s.actors && View(s, s.actors[id], c)
    ensures Registered(Apply(s, a))
    ensures id in Apply(s, a).actors && View(Apply(s, a), Apply(s, a).actors[id], c)
  {
    CleanPending(s.steps, s.row.currentStep);
  }

  /** The writes that follow a claim or a call. */
  lemma {:induction false} ActorWrites(s: Sys, c: Cursor, id: nat, a: Action)
    requires Registered(s) && Enabled(s, a) && (a.WriteStep? || a.WriteRow? || a.Unregistered?) && a.id == id
    requires id in s.actors && View(s, s.actors[id], c)
    ensures Registered(Apply(s, a))
    ensures id in Apply(s, a).actors && View(Apply(s, a), Apply(s, a).actors[id], c)
  {
  }

  /** An actor's own action keeps its view; an action that removes it leaves the rows at rest. */
  lemma {:induction false} ActorStep(s: Sys, c: Cursor, id: nat, a: Action)
    requires Registered(s) && Enabled(s, a) && Orderly(s, a)
    requires id in s.actors && View(s, s.actors[id], c)
    requires !a.Duplicate? && !a.Deliver? && !a.ResumeLoad? && a.id == id
    ensures Registered(Apply(s, a))
    ensures a.Run? ==> c == At(a.i)
    ensures !a.Return? ==> id in Apply(s, a).actors && View(Apply(s, a), Apply(s, a).actors[id], NextCursor(c, a))
    ensures a.Return? ==> AtRest(Apply(s, a), c)
  {
    if a.Claim? || a.ClaimNone? {
      ActorClaims(s, c, id, a);
    } else if a.WriteStep? || a.WriteRow? || a.Unregistered? {
      ActorWrites(s, c, id, a);
    }
  }

  // ------------------------------------------------------------------ no duplicates

  ghost function Holders(s: Sys): set<nat> {
    set id | id in s.actors && s.actors[id].Token()
  }

  /** Messages in flight plus actors that may still publish one. */
  ghost function Tokens(s: Sys): nat {
    s.inFlight + |Holders(s)|
  }

  predicate Live(st: Status) {
    st.Pending? || st.Running?
  }

  /** A PENDING or RUNNING workflow has exactly one live token, any other has none. */
  ghost predicate OneToken(s: Sys) {
    Tokens(s) == if Live(s.row.status) then 1 else 0
  }

  ghost predicate ConcurrentInv(s: Sys, c: Cursor) {
    && Registered(s)
    && OneToken(s)
    && (forall id :: id in Holders(s) ==> View(s, s.actors[id], c))
    && (Holders(s) == {} ==> AtRest(s, c))
    && (forall id :: id in s.actors && s.actors[id].ResumeLoaded? ==> s.row.status.AwaitingApproval? && s.actors[id].wf == s.row)
    && (forall id, other :: id in s.actors && other in s.actors && s.actors[id].ResumeLoaded? && s.actors[other].ResumeLoaded?
          ==> id == other)
    && (s.row.status.AwaitingApproval? ==> s.row.currentStep < |s.steps|)
  }

  lemma {:induction false} HoldersUpdate(s: Sys, t: Sys, id: nat)
    requires id in t.actors && t.actors == s.actors[id := t.actors[id]]
    ensures Holders(t) == if t.actors[id].Token() then Holders(s) + {id} else Holders(s) - {id}
  {
  }

  lemma {:induction false} OnlyHolder(s: Sys, id: nat)
    requires id in Holders(s) && |Holders(s)| <= 1
    ensures Holders(s) == {id}
  {
    assert |Holders(s) - {id}| == 0;
  }

  lemma {:induction false} HolderStep(s: Sys, c: Cursor, a: Action)
    requires ConcurrentInv(s, c) && Allowed(Concurrent, s, a)
    requires !a.Deliver? && !a.ResumeLoad? && a.id in Holders(s)
    ensures ConcurrentInv(Apply(s, a), NextCursor(c, a))
    ensures a.Run? ==> c == At(a.i)
    ensures !s.row.status.Terminal()
  {
    HolderTokens(s, c, a);
    ActorStep(s, c, a.id, a);
    assert forall id :: id in s.actors ==> !s.actors[id].ResumeLoaded?;
  }

  /** The acting holder is the only one before, and afterwards still the only possible one. */
  lemma {:induction false} HolderTokens(s: Sys, c: Cursor, a: Action)
    requires ConcurrentInv(s, c) && Allowed(Concurrent, s, a)
    requires !a.Deliver? && !a.ResumeLoad? && a.id in Holders(s)
    ensures var t := Apply(s, a);
            Holders(s) == {a.id} && a.id in t.actors && Holders(t) == if t.actors[a.id].Token() then {a.id} else {}
  {
    var t := Apply(s, a);
    OnlyHolder(s, a.id);
    HoldersUpdate(s, t, a.id);
    if t.actors[a.id].Token() {
      assert Holders(t) == {a.id};
    } else {
      assert Holders(t) == {};
    }
  }

  lemma {:induction false} DeliverStep(s: Sys, c: Cursor, a: Action)
    requires ConcurrentInv(s, c) && a.Deliver? && Enabled(s, a)
    ensures ConcurrentInv(Apply(s, a), c) && !s.row.status.Terminal()
  {
    var t := Apply(s, a);
    HoldersUpdate(s, t, a.id);
    assert Holders(s) == {};
    assert Holders(t) == {a.id};
    assert View(t, t.actors[a.id], c);
  }

  lemma {:induction false} ReturnStep(s: Sys, c: Cursor, a: Action)
    requires ConcurrentInv(s, c) && a.Return? && Enabled(s, a)
    ensures ConcurrentInv(Apply(s, a), c)
  {
    var t := Apply(s, a);
    assert Holders(t) == Holders(s);
    forall id | id in Holders(t) ensures View(t, t.actors[id], c) {
      assert id in Holders(s);
      SameView(s, t, s.actors[id], c);
    }
  }

  lemma {:induction false} SameView(s: Sys, t: Sys, pc: PC, c: Cursor)
    requires View(s, pc, c) && t.row == s.row && t.steps == s.steps
    ensures View(t, pc, c)
  {
  }

  lemma {:induction false} ResumeLoadStep(s: Sys, c: Cursor, a: Action)
    requires ConcurrentInv(s, c) && a.ResumeLoad? && Allowed(Concurrent, s, a)
    ensures ConcurrentInv(Apply(s, a), c)
  {
    var t := Apply(s, a);
    HoldersUpdate(s, t, a.id);
    assert Holders(t) == Holders(s) == {};
  }

  lemma {:induction false} ResumeWriteStep(s: Sys, c: Cursor, a: Action)
    requires ConcurrentInv(s, c) && a.ResumeWrite? && Enabled(s, a)
    ensures ConcurrentInv(Apply(s, a), c) && !s.row.status.Terminal()
  {
    var t := Apply(s, a);
    HoldersUpdate(s, t, a.id);
    assert Holders(s) == {};
    assert Holders(t) == {a.id};
    assert View(t, t.actors[a.id], c);
  }

  lemma {:induction false} ConcurrentStep(s: Sys, c: Cursor, a: Action)
    requires ConcurrentInv(s, c) && Allowed(Concurrent, s, a)
    ensures ConcurrentInv(Apply(s, a), NextCursor(c, a))
    ensures a.Run? ==> c == At(a.i)
    ensures s.row.status.Terminal() ==> Apply(s, a).row == s.row && Apply(s, a).steps == s.steps
  {
    match a
    case Deliver(_) => DeliverStep(s, c, a);
    case Return(_) => ReturnStep(s, c, a);
    case ResumeLoad(_) => ResumeLoadStep(s, c, a);
    case ResumeWrite(_) => ResumeWriteStep(s, c, a);
    case _ => HolderStep(s, c, a);
  }

  lemma {:induction false} ConcurrentRun(s0: Sys, trace: seq<Action>)
    requires ConcurrentInv(s0, At(0)) && Legal(Concurrent, s0, trace)
    ensures ConcurrentInv(After(s0, trace), CursorOf(trace)) && InOrder(trace)
  {
    if |trace| > 0 {
      ConcurrentRun(s0, trace[..|trace| - 1]);
      ConcurrentStep(After(s0, trace[..|trace| - 1]), CursorOf(trace[..|trace| - 1]), trace[|trace| - 1]);
    }
  }

  // ------------------------------------------------------------------ no overlap

  ghost predicate RepeatingInv(s: Sys, c: Cursor) {
    && Registered(s)
    && (forall id, other :: id in s.actors && other in s.actors ==> id == other)
    && (forall id :: id in s.actors ==> View(s, s.actors[id], c))
    && (s.actors == map[] ==> AtRest(s, c))
  }

  lemma {:induction false} RepeatingStep(s: Sys, c: Cursor, a: Action)
    requires RepeatingInv(s, c) && Allowed(Repeating, s, a)
    ensures RepeatingInv(Apply(s, a), NextCursor(c, a))
    ensures a.Run? ==> c == At(a.i)
    ensures s.row.status.Terminal() ==> Apply(s, a).row == s.row && Apply(s, a).steps == s.steps
  {
    if a.Deliver? || a.ResumeLoad? || a.Duplicate? {
      ComesStep(s, c, a);
    } else {
      ActorStep(s, c, a.id, a);
    }
  }

  lemma {:induction false} ComesStep(s: Sys, c: Cursor, a: Action)
    requires RepeatingInv(s, c) && Allowed(Repeating, s, a) && (a.Deliver? || a.ResumeLoad? || a.Duplicate?)
    ensures RepeatingInv(Apply(s, a), c)
  {
  }

  lemma {:induction false} RepeatingRun(s0: Sys, trace: seq<Action>)
    requires RepeatingInv(s0, At(0)) && Legal(Repeating, s0, trace)
    ensures RepeatingInv(After(s0, trace), CursorOf(trace)) && InOrder(trace)
  {
    if |trace| > 0 {
      RepeatingRun(s0, trace[..|trace| - 1]);
      RepeatingStep(After(s0, trace[..|trace| - 1]), CursorOf(trace[..|trace| - 1]), trace[|trace| - 1]);
    }
  }

  // ------------------------------------------------------------------ whole runs

  /** The step rows are SUCCEEDED^k, at most one RUNNING or FAILED, PENDING*; current_step
      is k, or k - 1 while the handler that finished step k - 1 has yet to write it. */
  ghost predicate Prefixed(s: Sys) {
    exists k: nat :: PrefixShape(s.steps, k) && s.row.currentStep <= k <= s.row.currentStep + 1
  }

  ghost predicate AllSucceeded(steps: seq<Step>) {
    forall j :: 0 <= j < |steps| ==> steps[j].status.Succeeded?
  }

  /** A new workflow whose registered definition has as many steps as were persisted. */
  ghost predicate Start(s0: Sys, wf: Row, names: seq<string>) {
    wf.status.Pending? && wf.currentStep == 0 && s0 == Init(wf, names, |names|)
  }

  lemma {:induction false} StartInv(s0: Sys, wf: Row, names: seq<string>)
    requires Start(s0, wf, names)
    ensures ConcurrentInv(s0, At(0)) && RepeatingInv(s0, At(0))
  {
    assert Holders(s0) == {0};
  }

  lemma {:induction false} ViewPrefixed(s: Sys, pc: PC, c: Cursor)
    requires View(s, pc, c)
    ensures Prefixed(s)
  {
    var k := s.row.currentStep;
    assert PrefixShape(s.steps, k) || PrefixShape(s.steps, k + 1);
  }

  /** Without duplicates and crashes, for every interleaving of handlers and Resumes. */
  lemma {:induction false} TokenConservation(s0: Sys, wf: Row, names: seq<string>, trace: seq<Action>)
    requires Start(s0, wf, names) && Legal(Concurrent, s0, trace)
    ensures var s := After(s0, trace);
            && OneToken(s)
            && Prefixed(s)
            && (Holders(s) == {} ==> PrefixShape(s.steps, s.row.currentStep))
            && (s.row.status.Succeeded? ==> AllSucceeded(s.steps))
            && (s.row.status.NeedsAttention? ==> OneAt(s.steps, s.row.currentStep, Status.Failed))
            && (s.row.status.AwaitingApproval? ==> Clean(s.steps, s.row.currentStep) && s.row.currentStep < |s.steps|)
            && !s.row.status.Failed? && !s.row.status.Cancelled?
    ensures InOrder(trace)
  {
    StartInv(s0, wf, names);
    ConcurrentRun(s0, trace);
    var s := After(s0, trace);
    if Holders(s) == {} {
      ViewPrefixed(s, Returning, CursorOf(trace));
    } else {
      var id :| id in Holders(s);
      ViewPrefixed(s, s.actors[id], CursorOf(trace));
      OnlyHolder(s, id);
    }
  }

  /** With any number of duplicate messages, as long as no two actors overlap. */
  lemma {:induction false} AtLeastOnceTolerance(s0: Sys, wf: Row, names: seq<string>, trace: seq<Action>)
    requires Start(s0, wf, names) && Legal(Repeating, s0, trace)
    ensures var s := After(s0, trace);
            && Prefixed(s)
            && (s.actors == map[] ==> PrefixShape(s.steps, s.row.currentStep))
            && (s.row.status.Succeeded? ==> AllSucceeded(s.steps))
            && (s.row.status.NeedsAttention? ==> OneAt(s.steps, s.row.currentStep, Status.Failed))
            && !s.row.status.Failed? && !s.row.status.Cancelled?
    ensures InOrder(trace)
  {
    StartInv(s0, wf, names);
    RepeatingRun(s0, trace);
    var s := After(s0, trace);
    if s.actors == map[] {
      ViewPrefixed(s, Returning, CursorOf(trace));
    } else {
      var id :| id in s.actors;
      ViewPrefixed(s, s.actors[id], CursorOf(trace));
    }
  }

  /** Once a workflow is terminal neither its row nor its step rows ever change again. */
  lemma {:induction false} TerminalForever(env: Env, s0: Sys, wf: Row, names: seq<string>, trace: seq<Action>, m: nat)
    requires Start(s0, wf, names) && (env.Concurrent? || env.Repeating?) && Legal(env, s0, trace) && m <= |trace|
    requires After(s0, trace[..m]).row.status.Terminal()
    ensures After(s0, trace).row == After(s0, trace[..m]).row
    ensures After(s0, trace).steps == After(s0, trace[..m]).steps
  {
    if m == |trace| {
      assert trace[..m] == trace;
    } else {
      var before, a := trace[..|trace| - 1], trace[|trace| - 1];
      assert before[..m] == trace[..m];
      TerminalForever(env, s0, wf, names, before, m);
      StartInv(s0, wf, names);
      if env.Concurrent? {
        ConcurrentRun(s0, before);
        ConcurrentStep(After(s0, before), CursorOf(before), a);
      } else {
        RepeatingRun(s0, before);
        RepeatingStep(After(s0, before), CursorOf(before), a);
      }
    }
  }

  /** How often the function of step i returned nil. */
  ghost function Successes(trace: seq<Action>, i: nat): nat {
    if |trace| == 0 then 0
    else
      var a := trace[|trace| - 1];
      Successes(trace[..|trace| - 1], i) + if a.Run? && a.i == i && a.outcome.Ok? then 1 else 0
  }

  /** In-order execution read as counts: the steps below the cursor succeeded exactly once,
      the others never, and no step beyond the cursor was ever called. */
  lemma {:induction false} InOrderCounts(trace: seq<Action>, i: nat)
    requires InOrder(trace)
    ensures Successes(trace, i) == if i < CursorOf(trace).k then 1 else 0
    ensures i > CursorOf(trace).k ==> Calls(trace, i) == 0
    ensures CursorOf(trace) == At(i) && Calls(trace, i) > 0 ==>
              exists j :: 0 <= j < |trace| && trace[j].Run? && trace[j].i == i && trace[j].outcome.Await?
  {
    if |trace| > 0 {
      var before, a := trace[..|trace| - 1], trace[|trace| - 1];
      InOrderCounts(before, i);
      assert trace[|trace| - 1] == a;
      if CursorOf(trace) == At(i) && Calls(before, i) > 0 && CursorOf(before) == At(i) {
        var j :| 0 <= j < |before| && before[j].Run? && before[j].i == i && before[j].outcome.Await?;
        assert trace[j] == before[j];
      }
    }
  }
}
