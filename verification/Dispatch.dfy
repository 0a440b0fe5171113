/** The dispatch protocol (internal/workflows/engine.go) as a transition system: the rows
    of one workflow, the dispatch messages in flight, and any number of actors (message
    handlers, Resume calls and the Enqueue call), each with a program counter and private
    copies of the rows it loaded. One transition is one repository or broker call. */
module Dispatch {
  import opened Workflow

  datatype PC =
    | Received                                        // handler: message taken, row not yet loaded
    | Loaded(wf: Row)                                 // handler: after Get
    | Marked(wf: Row)                                 // handler: about to ClaimNextStep
    | Exhausted(wf: Row)                              // handler: nothing to claim, about to finish
    | Holding(wf: Row, step: Step)                    // handler: claimed, about to call Run
    | Ran(wf: Row, step: Step, outcome: Outcome)      // handler: about to UpdateStep
    | Settling(wf: Row, step: Step, outcome: Outcome) // handler: about to Update the workflow
    | Publishing                                      // handler, Resume or Enqueue: about to Publish
    | Returning                                       // nothing left to do
    | ResumeLoaded(wf: Row)                           // Resume: between Get and Update
  {
    /** An actor that will, or may, still publish a message. */
    predicate Token() {
      !Returning? && !ResumeLoaded?
    }

    /** Between a claim and the matching UpdateStep. */
    predicate Owns(i: nat) {
      (Holding? || Ran?) && step.sequence == i
    }
  }

  /** registered is the length of the registered Definition (0 when there is none). */
  datatype Sys = Sys(row: Row, steps: seq<Step>, inFlight: nat, actors: map<nat, PC>, registered: nat)

  datatype Action =
    | Deliver(id: nat)
    | Load(id: nat)
    | Mark(id: nat)
    | Claim(id: nat, i: nat)
    | ClaimNone(id: nat)
    | Run(id: nat, i: nat, outcome: Outcome)
    | Unregistered(id: nat)
    | WriteStep(id: nat)
    | LoseStepWrite(id: nat)
    | WriteRow(id: nat)
    | Publish(id: nat)
    | Return(id: nat)
    | ResumeLoad(id: nat)
    | ResumeWrite(id: nat)
    | Duplicate
    | Crash(id: nat, requeue: bool)

  /** Hostile: crashes, lost writes, duplicate messages, any number of overlapping actors.
      Racing: duplicates and overlapping actors, but no crash and no lost write.
      Concurrent: actors overlap, but no duplicates, no crashes, one Resume at a time.
      Repeating: arbitrary duplicate messages, but no two actors overlap. */
  datatype Env = Hostile | Racing | Concurrent | Repeating

  predicate Enabled(s: Sys, a: Action) {
    match a
    case Deliver(id) => s.inFlight > 0 && id !in s.actors
    case Load(id) => id in s.actors && s.actors[id].Received?
    case Mark(id) => id in s.actors && s.actors[id].Loaded?
    case Claim(id, i) => id in s.actors && s.actors[id].Marked? && i < |s.steps| && s.steps[i].status.Pending?
    case ClaimNone(id) => id in s.actors && s.actors[id].Marked?
    case Run(id, i, _) =>
      id in s.actors && s.actors[id].Holding? && i == s.actors[id].step.sequence && i < s.registered
    case Unregistered(id) => id in s.actors && s.actors[id].Holding? && s.actors[id].step.sequence >= s.registered
    case WriteStep(id) => id in s.actors && s.actors[id].Ran? && s.actors[id].step.sequence < |s.steps|
    case LoseStepWrite(id) => id in s.actors && s.actors[id].Ran? && s.actors[id].outcome.Err?
    case WriteRow(id) => id in s.actors && (s.actors[id].Settling? || s.actors[id].Exhausted?)
    case Publish(id) => id in s.actors && s.actors[id].Publishing?
    case Return(id) => id in s.actors && s.actors[id].Returning?
    case ResumeLoad(id) => id !in s.actors && s.row.status.AwaitingApproval?
    case ResumeWrite(id) => id in s.actors && s.actors[id].ResumeLoaded?
    case Duplicate => true
    case Crash(id, _) => id in s.actors
  }

  function Apply(s: Sys, a: Action): (t: Sys)
    requires Enabled(s, a)
    ensures |t.steps| == |s.steps| && t.registered == s.registered
  {
    match a
    case Deliver(id) => s.(inFlight := s.inFlight - 1, actors := s.actors[id := Received])
    case Load(id) => s.(actors := s.actors[id := Loaded(s.row)])
    case Mark(id) =>
      var wf := s.actors[id].wf;
      if wf.status.Terminal() then s.(actors := s.actors[id := Returning])
      else if wf.status.Pending? then s.(row := Started(wf), actors := s.actors[id := Marked(Started(wf))])
      else s.(actors := s.actors[id := Marked(wf)])
    case Claim(id, i) =>
      var st := Claimed(s.steps[i]);
      s.(steps := s.steps[i := st], actors := s.actors[id := Holding(s.actors[id].wf, st)])
    case ClaimNone(id) => s.(actors := s.actors[id := Exhausted(s.actors[id].wf)])
    case Run(id, _, o) => s.(actors := s.actors[id := Ran(s.actors[id].wf, s.actors[id].step, o)])
    case Unregistered(id) =>
      var pc := s.actors[id];
      s.(row := Finish(pc.wf, Failed, NoDefinition(pc.step.sequence, pc.wf.kind)), actors := s.actors[id := Returning])
    case WriteStep(id) =>
      var pc := s.actors[id];
      s.(steps := s.steps[pc.step.sequence := Settled(pc.step, pc.outcome)],
         actors := s.actors[id := Settling(pc.wf, pc.step, pc.outcome)])
    case LoseStepWrite(id) =>
      var pc := s.actors[id];
      s.(actors := s.actors[id := Settling(pc.wf, pc.step, pc.outcome)])
    case WriteRow(id) =>
      var pc := s.actors[id];
      if pc.Exhausted? then s.(row := Finish(pc.wf, Succeeded, NoError), actors := s.actors[id := Returning])
      else s.(row := Progress(pc.wf, pc.step, pc.outcome),
              actors := s.actors[id := if pc.outcome.Ok? then Publishing else Returning])
    case Publish(id) => s.(inFlight := s.inFlight + 1, actors := s.actors[id := Returning])
    case Return(id) => s.(actors := s.actors - {id})
    case ResumeLoad(id) => s.(actors := s.actors[id := ResumeLoaded(s.row)])
    case ResumeWrite(id) =>
      s.(row := s.actors[id].wf.(status := Running), actors := s.actors[id := Publishing])
    case Duplicate => s.(inFlight := s.inFlight + 1)
    case Crash(id, requeue) => s.(inFlight := if requeue then s.inFlight + 1 else s.inFlight, actors := s.actors - {id})
  }

  /** No failures, and the claim query sees every PENDING row. */
  predicate Orderly(s: Sys, a: Action) {
    && !a.Crash? && !a.LoseStepWrite?
    && (a.Claim? ==> a.i == FirstPending(s.steps))
    && (a.ClaimNone? ==> FirstPending(s.steps) == |s.steps|)
  }

  predicate Allowed(env: Env, s: Sys, a: Action) {
    && Enabled(s, a)
    && match env
       case Hostile => true
       case Racing => Orderly(s, a)
       case Concurrent =>
         && Orderly(s, a) && !a.Duplicate?
         && (a.ResumeLoad? ==> forall id: nat :: id in s.actors ==> !s.actors[id].ResumeLoaded?)
       case Repeating =>
         && Orderly(s, a)
         && (a.Deliver? || a.ResumeLoad? ==> s.actors == map[])
  }

  /** Enqueue has committed the rows and is about to publish the first message. */
  function Init(wf: Row, names: seq<string>, registered: nat): Sys {
    Sys(wf, NewSteps(names), 0, map[0 := Publishing], registered)
  }

  /** The state a sequence of actions leads to. */
  ghost function After(s0: Sys, trace: seq<Action>): (s: Sys)
    ensures |s.steps| == |s0.steps| && s.registered == s0.registered
  {
    if |trace| == 0 then s0
    else
      var s := After(s0, trace[..|trace| - 1]);
      if Enabled(s, trace[|trace| - 1]) then Apply(s, trace[|trace| - 1]) else s
  }

  /** The trace is a possible run of the environment from s0. */
  ghost predicate Legal(env: Env, s0: Sys, trace: seq<Action>) {
    |trace| == 0 ||
    (var before, a := trace[..|trace| - 1], trace[|trace| - 1];
     Legal(env, s0, before) && Allowed(env, After(s0, before), a))
  }

  /** Some run of the environment leads from s0 to s. */
  ghost predicate Reaches(env: Env, s0: Sys, s: Sys) {
    exists trace :: Legal(env, s0, trace) && After(s0, trace) == s
  }

  lemma {:induction false} Here(env: Env, s: Sys)
    ensures Reaches(env, s, s)
  {
    assert Legal(env, s, []) && After(s, []) == s;
  }

  lemma {:induction false} Extend(env: Env, s0: Sys, s: Sys, a: Action, t: Sys)
    requires Reaches(env, s0, s) && Allowed(env, s, a) && Apply(s, a) == t
    ensures Reaches(env, s0, t)
  {
    var trace :| Legal(env, s0, trace) && After(s0, trace) == s;
    assert (trace + [a])[..|trace|] == trace;
    assert Legal(env, s0, trace + [a]) && After(s0, trace + [a]) == t;
  }

  /** How many times step i was claimed, and how many times its function was called. */
  ghost function Claims(trace: seq<Action>, i: nat): nat {
    if |trace| == 0 then 0
    else
      var a := trace[|trace| - 1];
      Claims(trace[..|trace| - 1], i) + if a.Claim? && a.i == i then 1 else 0
  }

  ghost function Calls(trace: seq<Action>, i: nat): nat {
    if |trace| == 0 then 0
    else
      var a := trace[|trace| - 1];
      Calls(trace[..|trace| - 1], i) + if a.Run? && a.i == i then 1 else 0
  }

  // ------------------------------------------------------------ every environment

  ghost predicate Ownership(s: Sys) {
    && (forall id: nat, i: nat {:trigger s.actors[id].Owns(i)} :: id in s.actors && s.actors[id].Owns(i) ==>
          i < |s.steps| && s.steps[i] == s.actors[id].step && s.steps[i].status.Running?)
    && (forall id: nat, other: nat, i: nat ::
          id in s.actors && other in s.actors && s.actors[id].Owns(i) && s.actors[other].Owns(i) ==> id == other)
  }

  ghost predicate Accounted(s: Sys, trace: seq<Action>) {
    forall i: nat :: i < |s.steps| ==>
      && s.steps[i].attempts == Claims(trace, i)
      && Calls(trace, i) <= Claims(trace, i)
      && (forall id: nat :: id in s.actors && s.actors[id].Holding? && s.actors[id].Owns(i) ==>
            Calls(trace, i) < Claims(trace, i))
  }

  /** A row that an actor holds after a transition is RUNNING and equals the actor's copy. */
  lemma {:induction false} HeldStep(s: Sys, a: Action, id: nat, i: nat)
    requires Numbered(s.steps) && Ownership(s) && Enabled(s, a)
    requires var t := Apply(s, a); id in t.actors && t.actors[id].Owns(i)
    ensures var t := Apply(s, a); i < |t.steps| && t.steps[i] == t.actors[id].step && t.steps[i].status.Running?
  {
    if !(a.Claim? && a.id == id) {
      assert s.actors[id].Owns(i);
      if a.WriteStep? {
        assert s.actors[a.id].Owns(s.actors[a.id].step.sequence);
      }
    }
  }

  /** No two actors hold one row after a transition. */
  lemma {:induction false} UnsharedStep(s: Sys, a: Action, id: nat, other: nat, i: nat)
    requires Numbered(s.steps) && Ownership(s) && Enabled(s, a)
    requires var t := Apply(s, a); id in t.actors && other in t.actors && t.actors[id].Owns(i) && t.actors[other].Owns(i)
    ensures id == other
  {
    if !a.Claim? {
      assert s.actors[id].Owns(i) && s.actors[other].Owns(i);
    }
  }

  lemma {:induction false} OwnershipStep(s: Sys, a: Action)
    requires Numbered(s.steps) && Ownership(s) && Enabled(s, a)
    ensures Numbered(Apply(s, a).steps) && Ownership(Apply(s, a))
  {
    var t := Apply(s, a);
    NumberedStep(s, a);
    forall id: nat, i: nat | id in t.actors && t.actors[id].Owns(i)
      ensures i < |t.steps| && t.steps[i] == t.actors[id].step && t.steps[i].status.Running?
    {
      HeldStep(s, a, id, i);
    }
    forall id: nat, other: nat, i: nat | id in t.actors && other in t.actors && t.actors[id].Owns(i) && t.actors[other].Owns(i)
      ensures id == other
    {
      UnsharedStep(s, a, id, other, i);
    }
  }

  lemma {:induction false} NumberedStep(s: Sys, a: Action)
    requires Numbered(s.steps) && Ownership(s) && Enabled(s, a)
    ensures Numbered(Apply(s, a).steps)
  {
    if a.WriteStep? {
      assert s.actors[a.id].Owns(s.actors[a.id].step.sequence);
    }
  }

  lemma {:induction false} AccountedStep(s: Sys, trace: seq<Action>, a: Action)
    requires Numbered(s.steps) && Ownership(s) && Accounted(s, trace) && Enabled(s, a)
    ensures Accounted(Apply(s, a), trace + [a])
  {
    assert (trace + [a])[..|trace|] == trace;
    if a.WriteStep? {
      assert s.actors[a.id].Owns(s.actors[a.id].step.sequence);
    } else if a.Run? {
      assert s.actors[a.id].Owns(a.i);
    }
  }

  lemma {:induction false} OwnershipRun(env: Env, s0: Sys, trace: seq<Action>)
    requires Numbered(s0.steps) && Ownership(s0) && Accounted(s0, []) && Legal(env, s0, trace)
    ensures var s := After(s0, trace); Numbered(s.steps) && Ownership(s) && Accounted(s, trace)
  {
    if |trace| > 0 {
      var before, a := trace[..|trace| - 1], trace[|trace| - 1];
      OwnershipRun(env, s0, before);
      OwnershipStep(After(s0, before), a);
      AccountedStep(After(s0, before), before, a);
      assert before + [a] == trace;
    }
  }

  /** In every environment, at every point of every run: two actors never hold the same
      step, a held row is RUNNING and still equals the holder's copy, and a row's attempts
      count its claims and bound the calls of its function. */
  lemma {:induction false} StepOwnership(env: Env, wf: Row, names: seq<string>, registered: nat, trace: seq<Action>)
    requires Legal(env, Init(wf, names, registered), trace)
    ensures var s := After(Init(wf, names, registered), trace);
            && Ownership(s)
            && |s.steps| == |names|
            && forall i: nat :: i < |names| ==> Calls(trace, i) <= Claims(trace, i) == s.steps[i].attempts
  {
    OwnershipRun(env, Init(wf, names, registered), trace);
  }

  /** SUCCEEDED and FAILED step rows are permanent: whatever a run does after the first m
      actions, such a row keeps its value. */
  lemma {:induction false} StepPermanence(env: Env, wf: Row, names: seq<string>, registered: nat,
                                          trace: seq<Action>, m: nat, i: nat)
    requires Legal(env, Init(wf, names, registered), trace) && m <= |trace| && i < |names|
    requires var st := After(Init(wf, names, registered), trace[..m]).steps[i]; st.status.Succeeded? || st.status.Failed?
    ensures After(Init(wf, names, registered), trace).steps[i] == After(Init(wf, names, registered), trace[..m]).steps[i]
  {
    if m == |trace| {
      assert trace[..m] == trace;
    } else {
      var s0, before, a := Init(wf, names, registered), trace[..|trace| - 1], trace[|trace| - 1];
      assert before[..m] == trace[..m];
      StepPermanence(env, wf, names, registered, before, m, i);
      OwnershipRun(env, s0, before);
      SettledStays(After(s0, before), a, i);
    }
  }

  /** Step i's function returned o at some point of the run. */
  ghost predicate Returned(trace: seq<Action>, i: nat, o: Outcome) {
    exists j :: 0 <= j < |trace| && trace[j].Run? && trace[j].i == i && trace[j].outcome == o
  }

  /** Every stored result, and every result about to be stored, is one that was returned. */
  ghost predicate Backed(s: Sys, trace: seq<Action>) {
    && (forall i: nat :: i < |s.steps| && s.steps[i].status.Succeeded? ==> Returned(trace, i, Ok(s.steps[i].output)))
    && (forall i: nat :: i < |s.steps| && s.steps[i].status.Failed? ==> Returned(trace, i, Err(s.steps[i].error)))
    && (forall id :: id in s.actors && s.actors[id].Ran? ==> Returned(trace, s.actors[id].step.sequence, s.actors[id].outcome))
  }

  lemma {:induction false} ReturnedBefore(trace: seq<Action>, a: Action, i: nat, o: Outcome)
    requires Returned(trace, i, o)
    ensures Returned(trace + [a], i, o)
  {
    var j :| 0 <= j < |trace| && trace[j].Run? && trace[j].i == i && trace[j].outcome == o;
    assert (trace + [a])[j] == trace[j];
  }

  lemma {:induction false} BackedStep(s: Sys, trace: seq<Action>, a: Action)
    requires Backed(s, trace) && Enabled(s, a)
    ensures Backed(Apply(s, a), trace + [a])
  {
    forall i: nat, o | Returned(trace, i, o) ensures Returned(trace + [a], i, o) {
      ReturnedBefore(trace, a, i, o);
    }
    assert (trace + [a])[|trace|] == a;
  }

  /** In every environment: a SUCCEEDED row holds the output, and a FAILED row the error, that a
      call of that step's function returned in this run. */
  lemma {:induction false} ResultsAreReturned(env: Env, wf: Row, names: seq<string>, registered: nat, trace: seq<Action>)
    requires Legal(env, Init(wf, names, registered), trace)
    ensures Backed(After(Init(wf, names, registered), trace), trace)
  {
    if |trace| > 0 {
      var before, a := trace[..|trace| - 1], trace[|trace| - 1];
      ResultsAreReturned(env, wf, names, registered, before);
      BackedStep(After(Init(wf, names, registered), before), before, a);
      assert before + [a] == trace;
    }
  }

  lemma {:induction false} SettledStays(s: Sys, a: Action, i: nat)
    requires Ownership(s) && Enabled(s, a) && i < |s.steps| && (s.steps[i].status.Succeeded? || s.steps[i].status.Failed?)
    ensures Apply(s, a).steps[i] == s.steps[i]
  {
    if a.WriteStep? {
      assert s.actors[a.id].Owns(s.actors[a.id].step.sequence);
    }
  }
}
