/** Undisturbed execution of one workflow: what the engine does message by message (Drive),
    and the plain left-to-right interpreter it amounts to (Interpret). W is everything
    outside the workflow rows that step functions read and write. */
module Interpreter {
  import opened Workflow

  /** A step function sees the handler's copy of the workflow row. */
  datatype StepDefinition<!W> = StepDefinition(name: string, run: (Row, W) -> (Outcome, W))

  type Definition<!W> = seq<StepDefinition<W>>

  datatype Store<W> = Store(row: Row, steps: seq<Step>, world: W)

  /** One handled message; the second result says whether the handler publishes another. */
  function ExecuteNext<W>(def: Definition<W>, s: Store<W>): (Store<W>, bool) {
    var k := FirstPending(s.steps);
    var (o, w) :=
      if s.row.status.Terminal() || k == |s.steps| || s.steps[k].sequence >= |def| then (Await, s.world)
      else def[s.steps[k].sequence].run(Started(s.row), s.world);
    var h := Handle(s.row, s.steps, |def|, o);
    (Store(h.row, h.steps, w), h.publish)
  }

  function PendingCount(steps: seq<Step>): nat {
    if |steps| == 0 then 0 else (if steps[0].status.Pending? then 1 else 0) + PendingCount(steps[1..])
  }

  lemma {:induction false} PendingDrops(steps: seq<Step>, k: nat, st: Step)
    requires k < |steps| && steps[k].status.Pending? && !st.status.Pending?
    ensures PendingCount(steps[k := st]) == PendingCount(steps) - 1
  {
    if k == 0 {
      assert steps[0 := st][1..] == steps[1..];
    } else {
      assert steps[k := st][1..] == steps[1..][k - 1 := st];
      PendingDrops(steps[1..], k - 1, st);
    }
  }

  lemma {:induction false} Descends<W>(def: Definition<W>, s: Store<W>)
    requires ExecuteNext(def, s).1
    ensures PendingCount(ExecuteNext(def, s).0.steps) < PendingCount(s.steps)
  {
    var k := FirstPending(s.steps);
    PendingDrops(s.steps, k, ExecuteNext(def, s).0.steps[k]);
  }

  /** Handle messages until none is published. */
  function Drive<W>(def: Definition<W>, s: Store<W>): Store<W>
    decreases PendingCount(s.steps)
  {
    var (s', more) := ExecuteNext(def, s);
    if more then
      Descends(def, s);
      Drive(def, s')
    else s'
  }

  function Resume<W>(def: Definition<W>, s: Store<W>): Store<W> {
    if s.row.status.AwaitingApproval? then Drive(def, s.(row := s.row.(status := Running))) else s
  }

  function Resumes<W>(def: Definition<W>, s: Store<W>, n: nat): Store<W> {
    if n == 0 then s else Resume(def, Resumes(def, s, n - 1))
  }

  // ------------------------------------------------------------------ the reference

  datatype Verdict = Completed | FailedWith(cause: string) | Waiting

  datatype Result<W> = Result(outputs: seq<Output>, verdict: Verdict, world: W)

  /** Call the step functions from k on, in order, until one fails or asks to wait. */
  function Interpret<W>(def: Definition<W>, wf: Row, k: nat, w: W): Result<W>
    requires k <= |def|
    decreases |def| - k
  {
    if k == |def| then Result([], Completed, w)
    else
      var (o, w') := def[k].run(wf, w);
      match o
      case Ok(output) =>
        var r := Interpret(def, wf.(currentStep := k + 1), k + 1, w');
        r.(outputs := [output] + r.outputs)
      case Err(cause) => Result([], FailedWith(cause), w')
      case Await => Result([], Waiting, w')
  }

  ghost predicate Fits<W>(def: Definition<W>, wf: Row, k: nat, r: Result<W>) {
    k + |r.outputs| <= |def| && (k + |r.outputs| == |def| <==> r.verdict.Completed?)
  }

  lemma {:induction false} InterpretFits<W>(def: Definition<W>, wf: Row, k: nat, w: W)
    requires k <= |def|
    ensures Fits(def, wf, k, Interpret(def, wf, k, w))
    decreases |def| - k
  {
    if k < |def| && def[k].run(wf, w).0.Ok? {
      InterpretFits(def, wf.(currentStep := k + 1), k + 1, def[k].run(wf, w).1);
    }
  }

  /** The row of step j after interpretation from k with result r. */
  function StepAfter<W>(st: Step, j: nat, k: nat, r: Result<W>): Step {
    if k <= j < k + |r.outputs| then
      st.(status := Succeeded, output := r.outputs[j - k], attempts := st.attempts + 1, finished := true)
    else if j == k + |r.outputs| && r.verdict.FailedWith? then
      st.(status := Failed, error := r.verdict.cause, attempts := st.attempts + 1, finished := true)
    else if j == k + |r.outputs| && r.verdict.Waiting? then
      st.(status := Pending, attempts := st.attempts + 1, finished := false)
    else st
  }

  function RowAfter<W>(wf: Row, steps: seq<Step>, k: nat, r: Result<W>): Row
    requires k + |r.outputs| < |steps| || r.verdict.Completed?
  {
    var m := k + |r.outputs|;
    var wf' := wf.(currentStep := m);
    match r.verdict
    case Completed => wf'.(status := Succeeded, error := NoError, finished := true)
    case FailedWith(cause) => wf'.(status := NeedsAttention, error := StepFailed(steps[m].name, cause), finished := true)
    case Waiting => wf'.(status := AwaitingApproval)
  }

  /** The first k steps are done and a message is to be handled. */
  ghost predicate Ready<W>(def: Definition<W>, s: Store<W>, k: nat) {
    && (s.row.status.Pending? || s.row.status.Running?) && s.row.currentStep == k
    && Clean(s.steps, k) && Numbered(s.steps) && |def| == |s.steps|
  }

  /** The rows left are exactly those of the interpreter. */
  ghost predicate Shows<W>(def: Definition<W>, s: Store<W>, k: nat, r: Result<W>, t: Store<W>) {
    && Fits(def, s.row, k, r) && |def| == |s.steps| == |t.steps|
    && t.row == RowAfter(Started(s.row), s.steps, k, r)
    && t.world == r.world
    && forall j :: 0 <= j < |t.steps| ==> t.steps[j] == StepAfter(s.steps[j], j, k, r)
  }

  /** One message in a ready store. */
  lemma {:induction false} ReadyStep<W>(def: Definition<W>, s: Store<W>, k: nat, o: Outcome, w: W)
    requires Ready(def, s, k) && k < |def| && def[k].run(Started(s.row), s.world) == (o, w)
    ensures ExecuteNext(def, s) ==
            (Store(Progress(Started(s.row), Claimed(s.steps[k]), o), s.steps[k := Settled(Claimed(s.steps[k]), o)], w), o.Ok?)
    ensures o.Ok? ==> Ready(def, ExecuteNext(def, s).0, k + 1)
  {
    CleanPending(s.steps, k);
  }

  lemma {:induction false} ShowsCons<W>(def: Definition<W>, s: Store<W>, k: nat, output: Output, w: W, r: Result<W>,
                                        t: Store<W>)
    requires Ready(def, s, k) && k < |def|
    requires var s' := Store(Started(s.row).(currentStep := k + 1), s.steps[k := Settled(Claimed(s.steps[k]), Ok(output))], w);
             Shows(def, s', k + 1, r, t)
    ensures Shows(def, s, k, r.(outputs := [output] + r.outputs), t)
  {
    var r' := r.(outputs := [output] + r.outputs);
    forall j | 0 <= j < |t.steps| ensures t.steps[j] == StepAfter(s.steps[j], j, k, r') {
      assert k < j < k + 1 + |r.outputs| ==> r'.outputs[j - k] == r.outputs[j - k - 1];
    }
  }

  lemma {:induction false} DriveStep<W>(def: Definition<W>, s: Store<W>, k: nat)
    requires Ready(def, s, k) && k < |def|
    ensures var (o, w) := def[k].run(Started(s.row), s.world);
            var s' := ExecuteNext(def, s).0;
            && Drive(def, s) == (if o.Ok? then Drive(def, s') else s')
            && (o.Ok? ==> Ready(def, s', k + 1) && Started(s'.row) == Started(s.row).(currentStep := k + 1)
                          && s'.steps == s.steps[k := Settled(Claimed(s.steps[k]), o)] && s'.world == w)
  {
    var (o, w) := def[k].run(Started(s.row), s.world);
    ReadyStep(def, s, k, o, w);
  }

  /** The message after which execution stops. */
  lemma {:induction false} DriveEnds<W>(def: Definition<W>, s: Store<W>, k: nat)
    requires Ready(def, s, k) && (k == |def| || !def[k].run(Started(s.row), s.world).0.Ok?)
    ensures Shows(def, s, k, Interpret(def, Started(s.row), k, s.world), ExecuteNext(def, s).0)
    ensures Drive(def, s) == ExecuteNext(def, s).0
  {
    if k == |def| {
      CleanPending(s.steps, k);
    } else {
      var (o, w) := def[k].run(Started(s.row), s.world);
      ReadyStep(def, s, k, o, w);
    }
  }

  /** Message-by-message execution refines the interpreter. */
  lemma {:induction false} DriveInterprets<W>(def: Definition<W>, s: Store<W>, k: nat)
    requires Ready(def, s, k)
    ensures Shows(def, s, k, Interpret(def, Started(s.row), k, s.world), Drive(def, s))
    decreases |def| - k
  {
    if k == |def| || !def[k].run(Started(s.row), s.world).0.Ok? {
      DriveEnds(def, s, k);
    } else {
      var (o, w) := def[k].run(Started(s.row), s.world);
      DriveStep(def, s, k);
      var s' := ExecuteNext(def, s).0;
      DriveInterprets(def, s', k + 1);
      ShowsCons(def, s, k, o.output, w, Interpret(def, Started(s'.row), k + 1, w), Drive(def, s'));
    }
  }

  // ------------------------------------------------------------------ field by field

  /** What running a new workflow to its end or its first wait leaves: every step the interpreter
      got through is SUCCEEDED with the output its function returned, the one that failed or
      asked to wait says so, those behind it are untouched, and the workflow row follows. */
  ghost predicate Leaves<W>(def: Definition<W>, id: nat, kind: string, key: string, r: Result<W>, t: Store<W>) {
    var m := |r.outputs|;
    && m <= |def| == |t.steps| && (m == |def| <==> r.verdict.Completed?) && t.world == r.world
    && (forall j :: 0 <= j < m ==> t.steps[j] == Step(j, def[j].name, Succeeded, r.outputs[j], "", 1, true))
    && (forall j :: m < j < |def| ==> t.steps[j] == Step(j, def[j].name, Pending, map[], "", 0, false))
    && match r.verdict
       case Completed => t.row == Row(id, kind, key, Succeeded, m, NoError, true, true)
       case FailedWith(cause) =>
         && t.steps[m] == Step(m, def[m].name, Failed, map[], cause, 1, true)
         && t.row == Row(id, kind, key, NeedsAttention, m, StepFailed(def[m].name, cause), true, true)
       case Waiting =>
         && t.steps[m] == Step(m, def[m].name, Pending, map[], "", 1, false)
         && t.row == Row(id, kind, key, AwaitingApproval, m, NoError, true, false)
  }

  lemma {:induction false} NewRunLeaves<W>(def: Definition<W>, id: nat, kind: string, key: string, w: W)
    ensures var steps := seq(|def|, j requires 0 <= j < |def| => Step(j, def[j].name, Pending, map[], "", 0, false));
            var r := Interpret(def, Row(id, kind, key, Running, 0, NoError, true, false), 0, w);
            Leaves(def, id, kind, key, r, Drive(def, Store(Row(id, kind, key, Pending, 0, NoError, false, false), steps, w)))
  {
    var steps := seq(|def|, j requires 0 <= j < |def| => Step(j, def[j].name, Pending, map[], "", 0, false));
    var s := Store(Row(id, kind, key, Pending, 0, NoError, false, false), steps, w);
    DriveInterprets(def, s, 0);
    ShownLeaves(def, s, Interpret(def, Started(s.row), 0, w), Drive(def, s));
  }

  lemma {:induction false} ShownLeaves<W>(def: Definition<W>, s: Store<W>, r: Result<W>, t: Store<W>)
    requires Shows(def, s, 0, r, t) && s.row == Row(s.row.id, s.row.kind, s.row.key, Pending, 0, NoError, false, false)
    requires forall j :: 0 <= j < |s.steps| ==> s.steps[j] == Step(j, def[j].name, Pending, map[], "", 0, false)
    ensures Leaves(def, s.row.id, s.row.kind, s.row.key, r, t)
  {
    var m := |r.outputs|;
    forall j | 0 <= j < |def| ensures t.steps[j] == StepAfter(s.steps[j], j, 0, r) {
    }
  }

  /** A message for a SUCCEEDED, FAILED, CANCELLED or NEEDS_ATTENTION workflow changes nothing, and
      one for any other changes its rows. */
  lemma {:induction false} StandsStillIff<W>(def: Definition<W>, s: Store<W>)
    ensures ExecuteNext(def, s) == (s, false) <==> s.row.status in {Succeeded, Failed, Cancelled, NeedsAttention}
    ensures s.row.status !in {Succeeded, Failed, Cancelled, NeedsAttention} ==>
              ExecuteNext(def, s).0.row != s.row || ExecuteNext(def, s).0.steps != s.steps
  {
    var k := FirstPending(s.steps);
    if k < |s.steps| {
      var (t, _) := ExecuteNext(def, s);
      assert !s.row.status.Terminal() ==> t.steps[k].attempts == s.steps[k].attempts + 1;
    }
  }

  /** A step beyond the registered definition is claimed, and the workflow FAILED. */
  lemma {:induction false} MissingDefinition<W>(def: Definition<W>, s: Store<W>, k: nat)
    requires s.row.status.Pending? || s.row.status.Running? || s.row.status.AwaitingApproval?
    requires Numbered(s.steps) && |def| <= k < |s.steps| && s.steps[k].status.Pending?
    requires forall j :: 0 <= j < k ==> !s.steps[j].status.Pending?
    ensures var t := Drive(def, s);
            && t.world == s.world
            && t.steps == s.steps[k := s.steps[k].(status := Running, attempts := s.steps[k].attempts + 1)]
            && t.row == s.row.(status := Failed, error := NoDefinition(k, s.row.kind), finished := true,
                               started := s.row.started || s.row.status.Pending?)
  {
    assert FirstPending(s.steps) == k;
  }

  // ------------------------------------------------------------------ waiting

  /** Step k asked to wait and nothing else has happened since. */
  ghost predicate Paused<W>(def: Definition<W>, s: Store<W>, k: nat) {
    && s.row.status.AwaitingApproval? && s.row.currentStep == k < |s.steps|
    && Clean(s.steps, k) && Numbered(s.steps) && |def| == |s.steps| && !s.steps[k].finished
  }

  function MoreAttempts<W>(s: Store<W>, k: nat, n: nat): Store<W>
    requires k < |s.steps|
  {
    s.(steps := s.steps[k := s.steps[k].(attempts := s.steps[k].attempts + n)])
  }

  /** One Resume before a shut gate. */
  lemma {:induction false} WaitingOnce<W>(def: Definition<W>, s: Store<W>, k: nat)
    requires Paused(def, s, k)
    requires def[k].run(s.row.(status := Running), s.world) == (Await, s.world)
    ensures Resume(def, s) == MoreAttempts(s, k, 1)
  {
    var run := s.(row := s.row.(status := Running));
    ReadyStep(def, run, k, Await, s.world);
  }

  /** While the gate stays shut, n Resumes change nothing but the awaited step's attempts. */
  lemma {:induction false} WaitingStutters<W>(def: Definition<W>, s: Store<W>, k: nat, n: nat)
    requires Paused(def, s, k)
    requires def[k].run(s.row.(status := Running), s.world) == (Await, s.world)
    ensures Resumes(def, s, n) == MoreAttempts(s, k, n)
  {
    if n == 0 {
      assert s.steps[k := s.steps[k]] == s.steps;
    } else {
      WaitingStutters(def, s, k, n - 1);
      var t := MoreAttempts(s, k, n - 1);
      WaitingOnce(def, t, k);
      assert MoreAttempts(t, k, 1).steps == MoreAttempts(s, k, n).steps;
    }
  }

  /** open is an outside event (someone merges the pull request). Step functions that return
      nil or an error do the same with the gate open from the start, and a step that asks to
      wait has changed nothing. */
  ghost predicate Transparent<W(!new)>(def: Definition<W>, open: W -> W) {
    forall j: nat, wf: Row, w: W :: j < |def| ==> TransparentAt(def, open, j, wf, w)
  }

  ghost predicate TransparentAt<W>(def: Definition<W>, open: W -> W, j: nat, wf: Row, w: W)
    requires j < |def|
  {
    var (o, w') := def[j].run(wf, w);
    if o.Await? then w' == w else def[j].run(wf, open(w)) == (o, open(w'))
  }

  /** direct is r, to the gate, followed by going on from there with the gate open. */
  ghost predicate Continues<W(!new)>(def: Definition<W>, open: W -> W, wf: Row, k: nat, r: Result<W>, direct: Result<W>) {
    var m := k + |r.outputs|;
    if r.verdict.Waiting? then
      m < |def| &&
      var rest := Interpret(def, wf.(currentStep := m), m, open(r.world));
      direct == Result(r.outputs + rest.outputs, rest.verdict, rest.world)
    else direct == r.(world := open(r.world))
  }

  /** One more output in front of both. */
  lemma {:induction false} ContinuesCons<W(!new)>(def: Definition<W>, open: W -> W, wf: Row, k: nat, output: Output,
                                           r: Result<W>, direct: Result<W>)
    requires Continues(def, open, wf.(currentStep := k + 1), k + 1, r, direct)
    ensures Continues(def, open, wf, k, r.(outputs := [output] + r.outputs), direct.(outputs := [output] + direct.outputs))
  {
    if r.verdict.Waiting? {
      var m := k + 1 + |r.outputs|;
      assert wf.(currentStep := k + 1).(currentStep := m) == wf.(currentStep := m);
      var rest := Interpret(def, wf.(currentStep := m), m, open(r.world));
      assert [output] + (r.outputs + rest.outputs) == ([output] + r.outputs) + rest.outputs;
    }
  }

  /** Interpreting with the gate open is interpreting to the gate, opening it, and going on. */
  lemma {:induction false} InterpretOpen<W(!new)>(def: Definition<W>, open: W -> W, wf: Row, k: nat, w: W)
    requires Transparent(def, open) && wf.currentStep == k <= |def|
    ensures Continues(def, open, wf, k, Interpret(def, wf, k, w), Interpret(def, wf, k, open(w)))
    decreases |def| - k
  {
    if k < |def| {
      assert TransparentAt(def, open, k, wf, w);
      var (o, w') := def[k].run(wf, w);
      if o.Ok? {
        var wf' := wf.(currentStep := k + 1);
        InterpretOpen(def, open, wf', k + 1, w');
        ContinuesCons(def, open, wf, k, o.output, Interpret(def, wf', k + 1, w'), Interpret(def, wf', k + 1, open(w')));
      } else if o.Await? {
        var rest := Interpret(def, wf, k, open(w));
        assert [] + rest.outputs == rest.outputs;
      }
    }
  }

  /** Where interpretation stopped to wait, that step function asks to wait. */
  lemma {:induction false} GateShut<W(!new)>(def: Definition<W>, open: W -> W, wf: Row, k: nat, w: W)
    requires Transparent(def, open)
    requires wf.currentStep == k <= |def| && Interpret(def, wf, k, w).verdict.Waiting?
    ensures var r := Interpret(def, wf, k, w);
            var m := k + |r.outputs|;
            m < |def| && def[m].run(wf.(currentStep := m), r.world) == (Await, r.world)
    decreases |def| - k
  {
    assert TransparentAt(def, open, k, wf, w);
    if def[k].run(wf, w).0.Ok? {
      var wf' := wf.(currentStep := k + 1);
      GateShut(def, open, wf', k + 1, def[k].run(wf, w).1);
      assert forall m :: wf'.(currentStep := m) == wf.(currentStep := m);
    }
  }

  /** A run that ended waiting is paused at the step that asked to wait. */
  lemma {:induction false} PausedAtGate<W(!new)>(def: Definition<W>, open: W -> W, s: Store<W>)
    requires Transparent(def, open) && Ready(def, s, 0)
    requires Drive(def, s).row.status.AwaitingApproval?
    ensures var r := Interpret(def, Started(s.row), 0, s.world);
            var paused := Drive(def, s);
            && r.verdict.Waiting? && Paused(def, paused, |r.outputs|)
            && paused.row.(status := Running) == Started(s.row).(currentStep := |r.outputs|)
            && def[|r.outputs|].run(paused.row.(status := Running), paused.world) == (Await, paused.world)
  {
    DriveInterprets(def, s, 0);
    GateShut(def, open, Started(s.row), 0, s.world);
  }

  /** Going on from the gate and running straight through it show the same rows. */
  lemma {:induction false} Rejoin<W>(def: Definition<W>, s: Store<W>, k: nat, n: nat, r: Result<W>, rest: Result<W>,
                  again: Store<W>, direct: Store<W>, resumed: Store<W>)
    requires Ready(def, s, 0) && k == |r.outputs| < |def|
    requires Shows(def, s, 0, Result(r.outputs + rest.outputs, rest.verdict, rest.world), direct)
    requires again.row == Started(s.row).(currentStep := k) && |again.steps| == |s.steps|
    requires forall j :: 0 <= j < |s.steps| ==>
      again.steps[j] == var st := StepAfter(s.steps[j], j, 0, r.(verdict := Waiting));
                        if j == k then st.(attempts := st.attempts + n) else st
    requires Shows(def, again, k, rest, resumed)
    ensures resumed == MoreAttempts(direct, k, n + 1)
  {
    var both := r.outputs + rest.outputs;
    var target := MoreAttempts(direct, k, n + 1);
    forall j | 0 <= j < |def| ensures resumed.steps[j] == target.steps[j] {
      if j < k {
        assert both[j] == r.outputs[j];
      } else if j < k + |rest.outputs| {
        assert both[j] == rest.outputs[j - k];
      }
    }
    assert resumed.steps == target.steps;
  }

  /** The store when the opened gate is about to be tried again. */
  lemma {:induction false} GatedRows<W(!new)>(def: Definition<W>, open: W -> W, s: Store<W>, n: nat, again: Store<W>)
    requires Ready(def, s, 0)
    requires var r := Interpret(def, Started(s.row), 0, s.world);
             r.verdict.Waiting? && |r.outputs| < |Drive(def, s).steps| &&
             again == MoreAttempts(Drive(def, s), |r.outputs|, n)
                        .(row := Started(s.row).(currentStep := |r.outputs|), world := open(Drive(def, s).world))
    ensures var r := Interpret(def, Started(s.row), 0, s.world);
            var k := |r.outputs|;
            && k < |def| && Ready(def, again, k) && again.world == open(r.world) && |again.steps| == |s.steps|
            && forall j :: 0 <= j < |s.steps| ==>
                 again.steps[j] == var st := StepAfter(s.steps[j], j, 0, r);
                                   if j == k then st.(attempts := st.attempts + n) else st
  {
    DriveInterprets(def, s, 0);
  }

  /** What a run with the gate open from the start shows. */
  lemma {:induction false} DirectShows<W(!new)>(def: Definition<W>, open: W -> W, s: Store<W>)
    requires Transparent(def, open) && Ready(def, s, 0)
    requires Interpret(def, Started(s.row), 0, s.world).verdict.Waiting?
    ensures var r := Interpret(def, Started(s.row), 0, s.world);
            var k := |r.outputs|;
            && k < |def|
            && var rest := Interpret(def, Started(s.row).(currentStep := k), k, open(r.world));
               Shows(def, s.(world := open(s.world)), 0, Result(r.outputs + rest.outputs, rest.verdict, rest.world),
                     Drive(def, s.(world := open(s.world))))
  {
    InterpretOpen(def, open, Started(s.row), 0, s.world);
    DriveInterprets(def, s.(world := open(s.world)), 0);
  }

  /** A gated run, resumed any number of times in vain, then resumed once the gate is open,
      ends exactly like a run whose gate was open from the start: same workflow row, same
      world, same step rows, except that the gate's step counts n + 1 more attempts. */
  lemma {:induction false} GateEquivalence<W(!new)>(def: Definition<W>, open: W -> W, s: Store<W>, n: nat)
    requires Transparent(def, open) && Ready(def, s, 0)
    requires Drive(def, s).row.status.AwaitingApproval?
    ensures var paused := Drive(def, s);
            var k := paused.row.currentStep;
            var waited := Resumes(def, paused, n);
            var direct := Drive(def, s.(world := open(s.world)));
            && k < |direct.steps|
            && Resume(def, waited.(world := open(waited.world))) == MoreAttempts(direct, k, n + 1)
  {
    var wf := Started(s.row);
    var r := Interpret(def, wf, 0, s.world);
    var k := |r.outputs|;
    var paused, direct := Drive(def, s), Drive(def, s.(world := open(s.world)));
    PausedAtGate(def, open, s);
    WaitingStutters(def, paused, k, n);
    var waited := MoreAttempts(paused, k, n);
    var again := waited.(row := wf.(currentStep := k), world := open(waited.world));
    GatedRows(def, open, s, n, again);
    DirectShows(def, open, s);
    DriveInterprets(def, again, k);
    var rest := Interpret(def, wf.(currentStep := k), k, open(r.world));
    Rejoin(def, s, k, n, r, rest, again, direct, Drive(def, again));
  }

  // ------------------------------------------------------------------ what no step looks at

  /** Changing the world by f and running step j commute. */
  ghost predicate CommutesAt<W>(def: Definition<W>, f: W -> W, j: nat, wf: Row, w: W)
    requires j < |def|
  {
    var (o, w') := def[j].run(wf, w);
    def[j].run(wf, f(w)) == (o, f(w'))
  }

  ghost predicate CommutesFrom<W(!new)>(def: Definition<W>, f: W -> W, k: nat) {
    forall j: nat, wf: Row, w: W :: k <= j < |def| ==> CommutesAt(def, f, j, wf, w)
  }

  lemma {:induction false} InterpretCommutes<W(!new)>(def: Definition<W>, f: W -> W, wf: Row, k: nat, w: W)
    requires k <= |def| && CommutesFrom(def, f, k)
    ensures var r := Interpret(def, wf, k, w); Interpret(def, wf, k, f(w)) == r.(world := f(r.world))
    decreases |def| - k
  {
    if k < |def| {
      assert CommutesAt(def, f, k, wf, w);
      var (o, w') := def[k].run(wf, w);
      if o.Ok? {
        assert CommutesFrom(def, f, k + 1) by {
          forall j: nat, wf: Row, w: W | k + 1 <= j < |def| ensures CommutesAt(def, f, j, wf, w) {
          }
        }
        InterpretCommutes(def, f, wf.(currentStep := k + 1), k + 1, w');
      }
    }
  }

  /** The rows shown are determined by what was interpreted. */
  lemma {:induction false} ShowsDetermines<W>(def: Definition<W>, s: Store<W>, w: W, k: nat, r: Result<W>, w': W,
                                              t: Store<W>, u: Store<W>)
    requires Shows(def, s, k, r, t) && Shows(def, s.(world := w), k, r.(world := w'), u)
    ensures u == t.(world := w')
  {
    var r' := r.(world := w');
    forall j | 0 <= j < |def| ensures t.steps[j] == u.steps[j] {
      assert StepAfter(s.steps[j], j, k, r) == StepAfter(s.steps[j], j, k, r');
    }
    assert t.steps == u.steps;
  }

  /** So a run from step k leaves the same rows either way. */
  lemma {:induction false} DriveCommutes<W(!new)>(def: Definition<W>, f: W -> W, s: Store<W>, k: nat)
    requires Ready(def, s, k) && CommutesFrom(def, f, k)
    ensures var t := Drive(def, s); Drive(def, s.(world := f(s.world))) == t.(world := f(t.world))
  {
    InterpretCommutes(def, f, Started(s.row), k, s.world);
    DriveInterprets(def, s, k);
    DriveInterprets(def, s.(world := f(s.world)), k);
    var r := Interpret(def, Started(s.row), k, s.world);
    ShowsDetermines(def, s, f(s.world), k, r, f(r.world), Drive(def, s), Drive(def, s.(world := f(s.world))));
  }

  /** A paused run goes on after the event as it would in the world changed by f. */
  lemma {:induction false} ResumeCommutes<W(!new)>(def: Definition<W>, f: W -> W, waited: Store<W>, k: nat)
    requires Paused(def, waited, k) && CommutesFrom(def, f, k)
    ensures var t := Resume(def, waited); Resume(def, waited.(world := f(waited.world))) == t.(world := f(t.world))
  {
    DriveCommutes(def, f, waited.(row := waited.row.(status := Running)), k);
  }

  /** A run from s that waited at step k, was resumed n times in vain and once after the event,
      ends like an undisturbed run in the direct world, except for what f says of the world
      and the n + 1 further attempts of the gate step. */
  ghost predicate EndsLike<W>(def: Definition<W>, s: Store<W>, event: W -> W, f: W -> W, direct: W, k: nat, n: nat) {
    var waited := Resumes(def, Drive(def, s), n);
    var resumed := Resume(def, waited.(world := event(waited.world)));
    var straight := Drive(def, s.(world := direct));
    k < |straight.steps| && resumed.(world := f(resumed.world)) == MoreAttempts(straight, k, n + 1)
  }

  lemma {:induction false} StillPaused<W>(def: Definition<W>, s: Store<W>, k: nat, n: nat, w: W)
    requires Paused(def, s, k)
    ensures Paused(def, MoreAttempts(s, k, n).(world := w), k)
  {
  }

  /** Opening the gate may be an event followed by something no step from k on looks at. */
  lemma {:induction false} GateTriedAgain<W(!new)>(def: Definition<W>, event: W -> W, f: W -> W, open: W -> W,
                                            s: Store<W>, k: nat, n: nat)
    requires open(Drive(def, s).world) == f(event(Drive(def, s).world))
    requires Ready(def, s, 0) && Transparent(def, open) && CommutesFrom(def, f, k)
    requires Paused(def, Drive(def, s), k)
    requires var paused := Drive(def, s); def[k].run(paused.row.(status := Running), paused.world) == (Await, paused.world)
    ensures EndsLike(def, s, event, f, open(s.world), k, n)
  {
    WaitingStutters(def, Drive(def, s), k, n);
    GateEquivalence(def, open, s, n);
    var waited := MoreAttempts(Drive(def, s), k, n);
    var merged := waited.(world := event(waited.world));
    StillPaused(def, Drive(def, s), k, n, merged.world);
    ResumeCommutes(def, f, merged, k);
    assert merged.(world := f(merged.world)) == waited.(world := open(waited.world));
  }
}
