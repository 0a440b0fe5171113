/** What the dispatch protocol does not guarantee once a worker dies between its claim and
    its UpdateStep, or handlers and Resumes for one workflow overlap: concrete runs, and the
    exact conditions under which the guarantees of Delivery survive. */
module Interference {
  import opened Workflow
  import opened Dispatch
  import opened Delivery

  ghost predicate Owned(s: Sys, i: nat) {
    exists id: nat :: id in s.actors && s.actors[id].Owns(i)
  }

  /** Nobody will ever claim, run or write a RUNNING row that no actor owns. */
  lemma {:induction false} AbandonedStays(env: Env, s0: Sys, trace: seq<Action>, i: nat)
    requires Numbered(s0.steps) && Ownership(s0) && Legal(env, s0, trace)
    requires i < |s0.steps| && s0.steps[i].status.Running? && !Owned(s0, i)
    ensures var s := After(s0, trace);
            Numbered(s.steps) && Ownership(s) && s.steps[i] == s0.steps[i] && !Owned(s, i)
    ensures Calls(trace, i) == 0
  {
    if |trace| > 0 {
      var before, a := trace[..|trace| - 1], trace[|trace| - 1];
      AbandonedStays(env, s0, before, i);
      AbandonedStep(After(s0, before), a, i);
    }
  }

  lemma {:induction false} RunnerOwns(s: Sys, a: Action)
    requires a.Run? && Enabled(s, a)
    ensures Owned(s, a.i)
  {
    assert s.actors[a.id].Owns(a.i);
  }

  lemma {:induction false} AbandonedStep(s: Sys, a: Action, i: nat)
    requires Numbered(s.steps) && Ownership(s) && Enabled(s, a)
    requires i < |s.steps| && s.steps[i].status.Running? && !Owned(s, i)
    ensures var t := Apply(s, a);
            Numbered(t.steps) && Ownership(t) && t.steps[i] == s.steps[i] && !Owned(t, i)
    ensures !(a.Run? && a.i == i)
  {
    var t := Apply(s, a);
    OwnershipStep(s, a);
    if a.WriteStep? {
      assert s.actors[a.id].Owns(s.actors[a.id].step.sequence);
    }
    if a.Run? {
      RunnerOwns(s, a);
    }
    forall id: nat | id in t.actors ensures !t.actors[id].Owns(i) {
      assert id in s.actors ==> !s.actors[id].Owns(i);
    }
  }

  lemma {:induction false} OwnerSettles(s: Sys, id: nat, i: nat)
    requires Numbered(s.steps) && Ownership(s) && i < s.registered
    requires id in s.actors && s.actors[id].Owns(i)
    ensures exists t :: Reaches(Hostile, s, t) && t.steps[i] != s.steps[i]
  {
    var pc := s.actors[id];
    Here(Hostile, s);
    var r := s;
    if pc.Holding? {
      r := s.(actors := s.actors[id := Ran(pc.wf, pc.step, Err(""))]);
      Extend(Hostile, s, s, Run(id, i, Err("")), r);
    }
    var o := r.actors[id].outcome;
    var t := r.(steps := s.steps[i := Settled(pc.step, o)], actors := r.actors[id := Settling(pc.wf, pc.step, o)]);
    Extend(Hostile, s, r, WriteStep(id), t);
    assert t.steps[i].status != s.steps[i].status;
  }

  /** A RUNNING step is stuck, in every continuation with every failure, exactly when no live
      worker owns it; in particular a redelivered message never runs it again. */
  lemma {:induction false} StuckIffAbandoned(s: Sys, i: nat)
    requires Numbered(s.steps) && Ownership(s) && i < |s.steps| && i < s.registered && s.steps[i].status.Running?
    ensures (forall t :: Reaches(Hostile, s, t) ==> t.steps[i] == s.steps[i]) <==> !Owned(s, i)
  {
    if Owned(s, i) {
      var id: nat :| id in s.actors && s.actors[id].Owns(i);
      OwnerSettles(s, id, i);
    } else {
      forall t | Reaches(Hostile, s, t) ensures t.steps[i] == s.steps[i] {
        var trace :| Legal(Hostile, s, trace) && After(s, trace) == t;
        AbandonedStays(Hostile, s, trace, i);
      }
    }
  }

  /** The crash of the owner is what abandons a step. */
  lemma {:induction false} CrashAbandons(s: Sys, id: nat, i: nat, requeue: bool)
    requires Numbered(s.steps) && Ownership(s) && id in s.actors && s.actors[id].Owns(i)
    ensures var t := Apply(s, Crash(id, requeue));
            i < |t.steps| && t.steps[i].status.Running? && !Owned(t, i)
  {
  }

  /** A handler gets from its message to its claim attempt, whoever else is active. */
  lemma {:induction false} Opens(env: Env, s0: Sys, s: Sys, id: nat, t: Sys)
    requires (env.Hostile? || env.Racing?) && Reaches(env, s0, s)
    requires s.inFlight > 0 && id !in s.actors && !s.row.status.Terminal()
    requires t == s.(row := Started(s.row), inFlight := s.inFlight - 1, actors := s.actors[id := Marked(Started(s.row))])
    ensures Reaches(env, s0, t)
  {
    var q := s.(inFlight := s.inFlight - 1);
    Extend(env, s0, s, Deliver(id), q.(actors := s.actors[id := Received]));
    assert s.actors[id := Received][id := Loaded(s.row)] == s.actors[id := Loaded(s.row)];
    Extend(env, s0, q.(actors := s.actors[id := Received]), Load(id), q.(actors := s.actors[id := Loaded(s.row)]));
    assert s.actors[id := Loaded(s.row)][id := Marked(Started(s.row))] == t.actors;
    Extend(env, s0, q.(actors := s.actors[id := Loaded(s.row)]), Mark(id), t);
  }

  /** A handler that finds nothing to claim declares the workflow SUCCEEDED. */
  lemma {:induction false} Declares(env: Env, s0: Sys, s: Sys, id: nat, wf: Row)
    requires (env.Hostile? || env.Racing?) && Reaches(env, s0, s)
    requires id in s.actors && s.actors[id] == Marked(wf) && FirstPending(s.steps) == |s.steps|
    ensures exists t :: Reaches(env, s0, t) && t.row.status.Succeeded? && t.steps == s.steps
  {
    var u := s.(actors := s.actors[id := Exhausted(wf)]);
    var t := u.(row := Finish(wf, Status.Succeeded, NoError), actors := u.actors[id := Returning]);
    Extend(env, s0, s, ClaimNone(id), u);
    Extend(env, s0, u, WriteRow(id), t);
  }

  /** A worker holds the only step of a new workflow, with n more messages in the queue. */
  function Lone(wf: Row, n: nat): Sys {
    var w := Started(wf);
    var st := Claimed(Step(0, "only", Status.Pending, map[], "", 0, false));
    Sys(w, [st], n, map[0 := Returning, 1 := Holding(w, st)], 1)
  }

  /** Enqueue has returned, and n + 1 copies of its message are in the queue. */
  function Queued(wf: Row, n: nat): Sys {
    Init(wf, ["only"], 1).(inFlight := n + 1, actors := map[0 := Returning])
  }

  lemma {:induction false} QueuedReachable(env: Env, wf: Row, n: nat)
    requires (env.Hostile? || env.Racing?) && n <= 1
    ensures Reaches(env, Init(wf, ["only"], 1), Queued(wf, n))
  {
    var s0 := Init(wf, ["only"], 1);
    Here(env, s0);
    Extend(env, s0, s0, Publish(0), Queued(wf, 0));
    if n == 1 {
      Extend(env, s0, Queued(wf, 0), Duplicate, Queued(wf, 1));
    }
  }

  lemma {:induction false} LoneReachable(env: Env, wf: Row, n: nat)
    requires (env.Hostile? || env.Racing?) && wf.status.Pending? && n <= 1
    ensures Reaches(env, Init(wf, ["only"], 1), Lone(wf, n))
  {
    var s0, s1 := Init(wf, ["only"], 1), Queued(wf, n);
    QueuedReachable(env, wf, n);
    var s2 := s1.(row := Started(wf), inFlight := n, actors := map[0 := Returning, 1 := Marked(Started(wf))]);
    Opens(env, s0, s1, 1, s2);
    assert NewSteps(["only"])[0 := Lone(wf, n).steps[0]] == Lone(wf, n).steps;
    Extend(env, s0, s2, Claim(1, 0), Lone(wf, n));
  }

  /** Overlapping handlers of a duplicated message: the second finds nothing to claim and
      marks the workflow SUCCEEDED while the first is still running the step. */
  lemma {:induction false} DuplicateFinishesEarly(wf: Row)
    requires wf.status.Pending?
    ensures exists s :: Reaches(Racing, Init(wf, ["only"], 1), s) && s.row.status.Succeeded? && s.steps[0].status.Running?
  {
    var s0, s := Init(wf, ["only"], 1), Lone(wf, 1);
    LoneReachable(Racing, wf, 1);
    var t := s.(inFlight := 0, actors := s.actors[2 := Marked(s.row)]);
    Opens(Racing, s0, s, 2, t);
    Declares(Racing, s0, t, 2, s.row);
  }

  /** A worker dies holding the step: the redelivered message marks the workflow SUCCEEDED
      although the step was never run to its end. */
  lemma {:induction false} CrashFinishesEarly(wf: Row)
    requires wf.status.Pending?
    ensures exists s :: Reaches(Hostile, Init(wf, ["only"], 1), s) && s.row.status.Succeeded? && s.steps[0].status.Running?
  {
    var s0, s := Init(wf, ["only"], 1), Lone(wf, 0);
    LoneReachable(Hostile, wf, 0);
    var u := s.(inFlight := 1, actors := s.actors - {1});
    Extend(Hostile, s0, s, Crash(1, true), u);
    var t := u.(inFlight := 0, actors := u.actors[2 := Marked(s.row)]);
    Opens(Hostile, s0, u, 2, t);
    Declares(Hostile, s0, t, 2, s.row);
  }

  lemma {:induction false} SettledStepsStay(env: Env, s: Sys, t: Sys)
    requires Numbered(s.steps) && Ownership(s) && Reaches(env, s, t) && AllSucceeded(s.steps)
    ensures AllSucceeded(t.steps)
  {
    var trace :| Legal(env, s, trace) && After(s, trace) == t;
    SettledStepsStayRun(env, s, trace);
  }

  lemma {:induction false} SettledStepsStayRun(env: Env, s: Sys, trace: seq<Action>)
    requires Numbered(s.steps) && Ownership(s) && Legal(env, s, trace) && AllSucceeded(s.steps)
    ensures var t := After(s, trace); Numbered(t.steps) && Ownership(t) && AllSucceeded(t.steps)
  {
    if |trace| > 0 {
      var before, a := trace[..|trace| - 1], trace[|trace| - 1];
      SettledStepsStayRun(env, s, before);
      var t := After(s, before);
      OwnershipStep(t, a);
      forall j | 0 <= j < |t.steps| ensures Apply(t, a).steps[j].status.Succeeded? {
        SettledStays(t, a, j);
      }
    }
  }

  /** When the claim query has come back empty-handed, a SUCCEEDED workflow is sure to have all
      its steps SUCCEEDED if and only if they already are: the one thing the query, which looks
      for PENDING rows only, does not check. */
  lemma {:induction false} SucceededTruthfullyIff(env: Env, s: Sys, id: nat, wf: Row)
    requires (env.Hostile? || env.Racing?) && Numbered(s.steps) && Ownership(s)
    requires id in s.actors && s.actors[id] == Marked(wf) && FirstPending(s.steps) == |s.steps|
    ensures (forall t :: Reaches(env, s, t) && t.row.status.Succeeded? ==> AllSucceeded(t.steps)) <==> AllSucceeded(s.steps)
  {
    if AllSucceeded(s.steps) {
      forall t | Reaches(env, s, t) ensures AllSucceeded(t.steps) {
        SettledStepsStay(env, s, t);
      }
    } else {
      Here(env, s);
      Declares(env, s, s, id, wf);
    }
  }

  // ------------------------------------------------------------------ Resume

  /** What every row of one run looks like, stored or copied: only a final row has an error or a
      finish time, and only a PENDING one has not started. */
  ghost predicate Tidy(r: Row, of: Row) {
    && r.id == of.id && r.kind == of.kind && r.key == of.key
    && (!r.status.Terminal() ==> r.error.NoError? && !r.finished && r.started == !r.status.Pending?)
  }

  ghost predicate TidySys(s: Sys, of: Row) {
    && Tidy(s.row, of)
    && (forall id :: id in s.actors ==> TidyPC(s.actors[id], of))
  }

  ghost predicate TidyPC(pc: PC, of: Row) {
    match pc
    case Loaded(wf) => Tidy(wf, of)
    case ResumeLoaded(wf) => Tidy(wf, of) && wf.status.AwaitingApproval?
    case Marked(wf) => Tidy(wf, of) && !wf.status.Terminal() && !wf.status.Pending?
    case Exhausted(wf) => Tidy(wf, of) && !wf.status.Terminal() && !wf.status.Pending?
    case Holding(wf, _) => Tidy(wf, of) && !wf.status.Terminal() && !wf.status.Pending?
    case Ran(wf, _, _) => Tidy(wf, of) && !wf.status.Terminal() && !wf.status.Pending?
    case Settling(wf, _, _) => Tidy(wf, of) && !wf.status.Terminal() && !wf.status.Pending?
    case _ => true
  }

  lemma {:induction false} TidyStep(s: Sys, a: Action, of: Row)
    requires TidySys(s, of) && Enabled(s, a)
    ensures TidySys(Apply(s, a), of)
  {
  }

  /** In every environment, at every point of every run. */
  lemma {:induction false} TidyRun(env: Env, wf: Row, names: seq<string>, registered: nat, trace: seq<Action>)
    requires Legal(env, Init(wf, names, registered), trace) && Tidy(wf, wf)
    ensures TidySys(After(Init(wf, names, registered), trace), wf)
  {
    if |trace| > 0 {
      var before := trace[..|trace| - 1];
      TidyRun(env, wf, names, registered, before);
      TidyStep(After(Init(wf, names, registered), before), trace[|trace| - 1], wf);
    }
  }

  /** Delivery's invariant of the rows and the tokens, with any number of Resumes under way. */
  ghost predicate RowsSound(s: Sys, c: Cursor) {
    && Registered(s) && OneToken(s)
    && (forall id :: id in Holders(s) ==> View(s, s.actors[id], c))
    && (Holders(s) == {} ==> AtRest(s, c))
    && (s.row.status.AwaitingApproval? ==> s.row.currentStep < |s.steps|)
  }

  /** A write of the copy Resume still holds, taken for what it is. */
  lemma {:induction false} ResumeWriteSound(s: Sys, c: Cursor, id: nat)
    requires RowsSound(s, c) && Enabled(s, ResumeWrite(id))
    requires s.actors[id].wf == s.row && s.row.status.AwaitingApproval?
    ensures RowsSound(Apply(s, ResumeWrite(id)), c)
  {
    var t := Apply(s, ResumeWrite(id));
    HoldersUpdate(s, t, id);
    assert id !in Holders(s);
    assert Holders(s) == {};
    assert Holders(t) == {id};
  }

  /** A write that kept the invariant wrote the stored row. */
  lemma {:induction false} SoundWriteWasCurrent(s: Sys, c: Cursor, id: nat, of: Row)
    requires RowsSound(s, c) && TidySys(s, of) && Enabled(s, ResumeWrite(id)) && !s.row.status.Terminal()
    requires RowsSound(Apply(s, ResumeWrite(id)), c)
    ensures s.actors[id].wf == s.row
  {
    var t := Apply(s, ResumeWrite(id));
    HoldersUpdate(s, t, id);
    assert id !in Holders(s) && id in Holders(t);
    assert View(t, t.actors[id], c);
    assert |Holders(t)| == |Holders(s)| + 1;
    assert Holders(s) == {};
  }

  /** Resume's write is unconditional. It keeps the invariant of tokens, rows and cursor, and
      leaves a terminal row alone, exactly when the stored row is still the one that Resume
      read: a compare-and-set on the whole row. */
  lemma {:induction false} ResumeWriteIff(s: Sys, c: Cursor, id: nat, of: Row)
    requires RowsSound(s, c) && TidySys(s, of) && Enabled(s, ResumeWrite(id))
    ensures var t := Apply(s, ResumeWrite(id));
            RowsSound(t, c) && (s.row.status.Terminal() ==> t.row == s.row) <==> s.actors[id].wf == s.row
  {
    var t, wf := Apply(s, ResumeWrite(id)), s.actors[id].wf;
    HoldersUpdate(s, t, id);
    assert id !in Holders(s) && id in Holders(t);
    if wf == s.row {
      ResumeWriteSound(s, c, id);
    } else if RowsSound(t, c) && !s.row.status.Terminal() {
      SoundWriteWasCurrent(s, c, id, of);
    }
  }

  // ------------------------------------------------------------------ a stale Resume

  lemma {:induction false} Next(env: Env, s0: Sys, s: Sys, a: Action) returns (t: Sys)
    requires Reaches(env, s0, s) && Allowed(env, s, a)
    ensures t == Apply(s, a) && Reaches(env, s0, t)
  {
    t := Apply(s, a);
    Extend(env, s0, s, a, t);
  }

  /** A handler takes a message and claims step k, whoever else is active, ... */
  lemma {:induction false} ClaimBeside(s0: Sys, s: Sys, id: nat, k: nat) returns (t: Sys)
    requires Reaches(Racing, s0, s) && s.inFlight > 0 && id !in s.actors
    requires s.row.status.Running? && k == FirstPending(s.steps) < |s.steps|
    ensures Reaches(Racing, s0, t)
    ensures t == s.(steps := s.steps[k := Claimed(s.steps[k])], inFlight := s.inFlight - 1,
                    actors := s.actors[id := Holding(s.row, Claimed(s.steps[k]))])
  {
    var q := s.(inFlight := s.inFlight - 1, actors := s.actors[id := Marked(s.row)]);
    Opens(Racing, s0, s, id, q);
    t := Next(Racing, s0, q, Claim(id, k));
    assert q.actors[id := Holding(s.row, Claimed(s.steps[k]))] == s.actors[id := Holding(s.row, Claimed(s.steps[k]))];
  }

  /** ... runs it, ... */
  lemma {:induction false} RunBeside(s0: Sys, s: Sys, id: nat, wf: Row, st: Step, o: Outcome) returns (t: Sys)
    requires Reaches(Racing, s0, s) && id in s.actors && s.actors[id] == Holding(wf, st)
    requires st.sequence < |s.steps| && st.sequence < s.registered
    ensures Reaches(Racing, s0, t)
    ensures t == s.(steps := s.steps[st.sequence := Settled(st, o)], actors := s.actors[id := Settling(wf, st, o)])
  {
    t := Next(Racing, s0, s, Run(id, st.sequence, o));
    t := Next(Racing, s0, t, WriteStep(id));
    assert s.actors[id := Ran(wf, st, o)][id := Settling(wf, st, o)] == s.actors[id := Settling(wf, st, o)];
  }

  /** ... stores the row, ... */
  lemma {:induction false} StoreBeside(s0: Sys, s: Sys, id: nat, wf: Row, st: Step, o: Outcome) returns (t: Sys)
    requires Reaches(Racing, s0, s) && id in s.actors && s.actors[id] == Settling(wf, st, o)
    ensures Reaches(Racing, s0, t)
    ensures t == s.(row := Progress(wf, st, o), actors := s.actors[id := if o.Ok? then Publishing else Returning])
  {
    t := Next(Racing, s0, s, WriteRow(id));
  }

  /** ... and leaves, publishing if it has to. */
  lemma {:induction false} LeaveBeside(s0: Sys, s: Sys, id: nat) returns (t: Sys)
    requires Reaches(Racing, s0, s) && id in s.actors && (s.actors[id].Publishing? || s.actors[id].Returning?)
    ensures Reaches(Racing, s0, t)
    ensures t == s.(inFlight := if s.actors[id].Publishing? then s.inFlight + 1 else s.inFlight, actors := s.actors - {id})
  {
    t := s;
    if s.actors[id].Publishing? {
      t := Next(Racing, s0, t, Publish(id));
    }
    t := Next(Racing, s0, t, Return(id));
    assert t.actors == s.actors - {id};
  }

  /** From the claim to the end of a handler. */
  lemma {:induction false} ServeBeside(s0: Sys, s: Sys, id: nat, wf: Row, st: Step, o: Outcome) returns (t: Sys)
    requires Reaches(Racing, s0, s) && id in s.actors && s.actors[id] == Holding(wf, st)
    requires st.sequence < |s.steps| && st.sequence < s.registered
    ensures Reaches(Racing, s0, t)
    ensures t == s.(row := Progress(wf, st, o), steps := s.steps[st.sequence := Settled(st, o)],
                    inFlight := if o.Ok? then s.inFlight + 1 else s.inFlight, actors := s.actors - {id})
  {
    t := RunBeside(s0, s, id, wf, st, o);
    t := StoreBeside(s0, t, id, wf, st, o);
    t := LeaveBeside(s0, t, id);
    assert t.actors == s.actors - {id};
  }

  /** A whole handler whose step returns nil or waits. */
  lemma {:induction false} HandleBeside(s0: Sys, s: Sys, id: nat, k: nat, o: Outcome) returns (t: Sys)
    requires Reaches(Racing, s0, s) && Numbered(s.steps) && s.inFlight > 0 && id !in s.actors && !o.Err?
    requires s.row.status.Running? && k == FirstPending(s.steps) < |s.steps| && k < s.registered
    ensures Reaches(Racing, s0, t)
    ensures t == s.(row := Progress(s.row, Claimed(s.steps[k]), o), steps := s.steps[k := Settled(Claimed(s.steps[k]), o)],
                    inFlight := if o.Ok? then s.inFlight else s.inFlight - 1)
  {
    var st := Claimed(s.steps[k]);
    t := ClaimBeside(s0, s, id, k);
    t := ServeBeside(s0, t, id, s.row, st, o);
    assert s.steps[k := st][k := Settled(st, o)] == t.steps;
    assert t.actors == s.actors;
  }

  /** A whole Resume call. */
  lemma {:induction false} ResumeBeside(s0: Sys, s: Sys, id: nat) returns (t: Sys)
    requires Reaches(Racing, s0, s) && id !in s.actors && s.row.status.AwaitingApproval?
    ensures Reaches(Racing, s0, t)
    ensures t == s.(row := s.row.(status := Running), inFlight := s.inFlight + 1)
  {
    t := ResumeWrites(s0, s, id);
    t := LeaveBeside(s0, t, id);
    assert t.actors == s.actors;
  }

  lemma {:induction false} ResumeWrites(s0: Sys, s: Sys, id: nat) returns (t: Sys)
    requires Reaches(Racing, s0, s) && id !in s.actors && s.row.status.AwaitingApproval?
    ensures Reaches(Racing, s0, t)
    ensures t == s.(row := s.row.(status := Running), actors := s.actors[id := Publishing])
  {
    t := Next(Racing, s0, s, ResumeLoad(id));
    t := Next(Racing, s0, t, ResumeWrite(id));
    assert t.actors == s.actors[id := Publishing];
  }

  /** The workflow waits at its first step, and a Resume has read its row. */
  lemma {:induction false} WaitsOnce(wf: Row) returns (s: Sys)
    requires wf.status.Pending? && wf.currentStep == 0
    ensures Reaches(Racing, Init(wf, ["first", "second"], 2), s)
    ensures s.registered == 2 && s.inFlight == 0 && Numbered(s.steps) && |s.steps| == 2
    ensures s.row == Started(wf).(status := AwaitingApproval)
    ensures s.steps[0].status.Pending? && s.steps[1].status.Pending?
    ensures s.actors == map[9 := ResumeLoaded(s.row)]
  {
    var s0 := Init(wf, ["first", "second"], 2);
    Here(Racing, s0);
    s := LeaveBeside(s0, s0, 0);
    assert s.actors == map[];
    s := FirstWait(s0, s);
    s := Next(Racing, s0, s, ResumeLoad(9));
  }

  /** Another Resume sets it going, its first step is done, and it waits again at the second. */
  lemma {:induction false} TwoWaits(wf: Row) returns (s: Sys)
    requires wf.status.Pending? && wf.currentStep == 0
    ensures Reaches(Racing, Init(wf, ["first", "second"], 2), s)
    ensures s.registered == 2 && s.inFlight == 0 && Numbered(s.steps) && |s.steps| == 2
    ensures s.row == Started(wf).(status := AwaitingApproval, currentStep := 1)
    ensures s.steps[0].status.Succeeded? && s.steps[1].status.Pending?
    ensures s.actors == map[9 := ResumeLoaded(Started(wf).(status := AwaitingApproval))]
  {
    var s0 := Init(wf, ["first", "second"], 2);
    s := WaitsOnce(wf);
    s := ResumeBeside(s0, s, 2);
    s := HandleBeside(s0, s, 3, 0, Ok(map[]));
    s := HandleBeside(s0, s, 4, 1, Await);
  }

  lemma {:induction false} FirstWait(s0: Sys, s: Sys) returns (t: Sys)
    requires Reaches(Racing, s0, s) && s.actors == map[] && s.inFlight > 0 && s.row.status.Pending?
    requires Numbered(s.steps) && FirstPending(s.steps) == 0 < |s.steps| && s.registered > 0
    ensures Reaches(Racing, s0, t)
    ensures t == s.(row := Started(s.row).(status := AwaitingApproval),
                    steps := s.steps[0 := Settled(Claimed(s.steps[0]), Await)], inFlight := s.inFlight - 1)
  {
    var q := s.(row := Started(s.row), inFlight := s.inFlight - 1, actors := map[1 := Marked(Started(s.row))]);
    Opens(Racing, s0, s, 1, q);
    t := Next(Racing, s0, q, Claim(1, 0));
    t := ServeBeside(s0, t, 1, Started(s.row), Claimed(s.steps[0]), Await);
    assert t.actors == map[];
  }

  /** The status alone is not enough to compare: in this run the row is AWAITING_APPROVAL at the
      write as at the read, but it has waited twice, and the write takes current_step back. */
  lemma {:induction false} StaleResumeRollsBack(wf: Row) returns (s: Sys, t: Sys)
    requires wf.status.Pending? && wf.currentStep == 0
    ensures Reaches(Racing, Init(wf, ["first", "second"], 2), s) && RowsSound(s, At(1))
    ensures s.row.status.AwaitingApproval? && Enabled(s, ResumeWrite(9)) && t == Apply(s, ResumeWrite(9))
    ensures OneToken(t) && t.row.currentStep == 0 && !PrefixShape(t.steps, t.row.currentStep)
  {
    s := TwoWaits(wf);
    t := Apply(s, ResumeWrite(9));
    WaitingSound(s);
    assert Holders(t) == {9};
    assert t.steps[0].status.Succeeded?;
  }

  lemma {:induction false} WaitingSound(s: Sys)
    requires s.registered == |s.steps| == 2 && s.inFlight == 0 && Numbered(s.steps)
    requires s.row.status.AwaitingApproval? && s.row.currentStep == 1
    requires s.steps[0].status.Succeeded? && s.steps[1].status.Pending?
    requires forall id :: id in s.actors ==> s.actors[id].ResumeLoaded?
    ensures RowsSound(s, At(1))
  {
    assert Holders(s) == {};
  }

  // ------------------------------------------------------------------ waiting

  /** Nothing that could set a waiting workflow going again: no Resume, no further copy of a
      message. */
  predicate Undisturbing(a: Action) {
    !a.Duplicate? && !a.ResumeWrite? && !(a.Crash? && a.requeue)
  }

  ghost predicate Undisturbed(trace: seq<Action>) {
    forall j :: 0 <= j < |trace| ==> Undisturbing(trace[j])
  }

  ghost predicate CallsSome(trace: seq<Action>) {
    exists j :: 0 <= j < |trace| && trace[j].Run?
  }

  lemma {:induction false} FreshActor(ids: set<nat>) returns (id: nat)
    ensures forall i :: i in ids ==> i < id
  {
    if ids == {} {
      id := 0;
    } else {
      var i :| i in ids;
      var rest := FreshActor(ids - {i});
      id := if rest > i then rest else i + 1;
      forall j | j in ids ensures j < id {
        assert j == i || j in ids - {i};
      }
    }
  }

  lemma {:induction false} Lengthen(env: Env, s: Sys, trace: seq<Action>, a: Action) returns (longer: seq<Action>)
    requires Legal(env, s, trace) && Undisturbed(trace) && Allowed(env, After(s, trace), a) && Undisturbing(a)
    ensures longer == trace + [a] && Legal(env, s, longer) && Undisturbed(longer)
    ensures After(s, longer) == Apply(After(s, trace), a)
  {
    longer := trace + [a];
    assert longer[..|longer| - 1] == trace;
  }

  /** A message still in flight is enough to have the waiting step called again. */
  lemma {:induction false} LeftoverCalls(env: Env, s: Sys) returns (trace: seq<Action>)
    requires Numbered(s.steps) && s.row.status.AwaitingApproval? && s.inFlight > 0
    requires FirstPending(s.steps) < |s.steps| && FirstPending(s.steps) < s.registered
    requires env.Repeating? ==> s.actors == map[]
    ensures Legal(env, s, trace) && Undisturbed(trace) && CallsSome(trace)
  {
    var id := FreshActor(s.actors.Keys);
    var k := FirstPending(s.steps);
    trace := LeftoverTaken(env, s, id);
    trace := Lengthen(env, s, trace, Claim(id, k));
    trace := Lengthen(env, s, trace, Run(id, k, Await));
    assert trace[|trace| - 1].Run?;
  }

  lemma {:induction false} LeftoverTaken(env: Env, s: Sys, id: nat) returns (trace: seq<Action>)
    requires s.row.status.AwaitingApproval? && s.inFlight > 0 && id !in s.actors
    requires env.Repeating? ==> s.actors == map[]
    ensures Legal(env, s, trace) && Undisturbed(trace)
    ensures var t := After(s, trace); t.steps == s.steps && id in t.actors && t.actors[id].Marked?
  {
    trace := Lengthen(env, s, [], Deliver(id));
    trace := LeftoverMarks(env, s, trace, id);
  }

  lemma {:induction false} LeftoverMarks(env: Env, s: Sys, trace: seq<Action>, id: nat) returns (longer: seq<Action>)
    requires Legal(env, s, trace) && Undisturbed(trace)
    requires id in After(s, trace).actors && After(s, trace).actors[id].Received?
    requires !After(s, trace).row.status.Terminal()
    ensures Legal(env, s, longer) && Undisturbed(longer)
    ensures var t := After(s, longer); t.steps == After(s, trace).steps && id in t.actors && t.actors[id].Marked?
  {
    longer := Lengthen(env, s, trace, Load(id));
    longer := Lengthen(env, s, longer, Mark(id));
  }

  /** Without one nothing is called. */
  lemma {:induction false} QuietStays(env: Env, s: Sys, trace: seq<Action>)
    requires Legal(env, s, trace) && Undisturbed(trace) && Holders(s) == {} && s.inFlight == 0
    ensures Holders(After(s, trace)) == {} && After(s, trace).inFlight == 0 && !CallsSome(trace)
  {
    if |trace| > 0 {
      var before, a := trace[..|trace| - 1], trace[|trace| - 1];
      QuietStays(env, s, before);
      QuietStep(After(s, before), a);
      assert forall j :: 0 <= j < |before| ==> trace[j] == before[j];
    }
  }

  lemma {:induction false} QuietStep(s: Sys, a: Action)
    requires Enabled(s, a) && Undisturbing(a) && Holders(s) == {} && s.inFlight == 0
    ensures Holders(Apply(s, a)) == {} && Apply(s, a).inFlight == 0 && !a.Run?
  {
    assert forall id :: id in s.actors ==> id !in Holders(s);
  }

  /** "Nothing runs again until something calls Resume": when a workflow has come to wait and
      nobody is handling it, its step is called again without a Resume in some continuation if
      and only if a copy of a dispatch message is still in flight. */
  lemma {:induction false} WaitsForResumeIff(env: Env, s: Sys)
    requires Numbered(s.steps) && s.row.status.AwaitingApproval? && Holders(s) == {}
    requires FirstPending(s.steps) < |s.steps| && FirstPending(s.steps) < s.registered
    requires env.Repeating? ==> s.actors == map[]
    ensures (exists trace :: Legal(env, s, trace) && Undisturbed(trace) && CallsSome(trace)) <==> s.inFlight > 0
  {
    if s.inFlight > 0 {
      var trace := LeftoverCalls(env, s);
    } else {
      forall trace | Legal(env, s, trace) && Undisturbed(trace) ensures !CallsSome(trace) {
        QuietStays(env, s, trace);
      }
    }
  }

  /** Such a copy is left over after one duplicate of the first message. */
  lemma {:induction false} DuplicateOutlastsWait(wf: Row) returns (s: Sys)
    requires wf.status.Pending? && wf.currentStep == 0
    ensures Reaches(Racing, Init(wf, ["only"], 1), s)
    ensures Numbered(s.steps) && s.row.status.AwaitingApproval? && s.actors == map[] && s.inFlight == 1
    ensures FirstPending(s.steps) == 0 && |s.steps| == s.registered == 1
  {
    var s0 := Init(wf, ["only"], 1);
    Here(Racing, s0);
    s := LeaveBeside(s0, s0, 0);
    assert s.actors == map[];
    s := Next(Racing, s0, s, Duplicate);
    s := FirstWait(s0, s);
  }

  /** Without duplicates, crashes and racing Resumes the promise holds: from the moment a
      workflow is AWAITING_APPROVAL no step is called before a Resume has written its row. */
  lemma {:induction false} WaitingIsQuiet(s0: Sys, wf: Row, names: seq<string>, before: seq<Action>, trace: seq<Action>)
    requires Start(s0, wf, names) && Legal(Concurrent, s0, before) && Legal(Concurrent, After(s0, before), trace)
    requires After(s0, before).row.status.AwaitingApproval?
    requires forall j :: 0 <= j < |trace| ==> !trace[j].ResumeWrite?
    ensures !CallsSome(trace)
  {
    TokenConservation(s0, wf, names, before);
    ConcurrentIsUndisturbed(After(s0, before), trace);
    QuietStays(Concurrent, After(s0, before), trace);
  }

  lemma {:induction false} ConcurrentIsUndisturbed(s: Sys, trace: seq<Action>)
    requires Legal(Concurrent, s, trace) && forall j :: 0 <= j < |trace| ==> !trace[j].ResumeWrite?
    ensures Undisturbed(trace)
  {
    if |trace| > 0 {
      var before := trace[..|trace| - 1];
      assert forall j :: 0 <= j < |before| ==> trace[j] == before[j];
      ConcurrentIsUndisturbed(s, before);
    }
  }
}
