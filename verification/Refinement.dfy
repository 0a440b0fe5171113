/** When handlers do not overlap, executeNext may be read as one atomic operation. */
module Refinement {
  import opened Workflow
  import opened Dispatch

  datatype Rows = Rows(row: Row, steps: seq<Step>)

  /** A dispatch message handled from start to end by calling a step function, which returned o;
      one handled without a call; or a whole successful Resume call. */
  datatype Event = Message(o: Outcome) | Idle | Resumed

  /** The next handler calls a step function. */
  predicate WillCall(r: Rows, registered: nat) {
    var k := FirstPending(r.steps);
    !r.row.status.Terminal() && k < |r.steps| && r.steps[k].sequence < registered
  }

  predicate CanHappen(r: Rows, registered: nat, e: Event) {
    match e
    case Message(_) => WillCall(r, registered)
    case Idle => !WillCall(r, registered)
    case Resumed => r.row.status.AwaitingApproval?
  }

  function Happen(r: Rows, registered: nat, e: Event): Rows {
    match e
    case Message(o) => var h := Handle(r.row, r.steps, registered, o); Rows(h.row, h.steps)
    case Idle => var h := Handle(r.row, r.steps, registered, Await); Rows(h.row, h.steps)
    case Resumed => r.(row := r.row.(status := Running))
  }

  ghost function Fold(r: Rows, registered: nat, events: seq<Event>): Rows {
    if |events| == 0 then r
    else Happen(Fold(r, registered, events[..|events| - 1]), registered, events[|events| - 1])
  }

  /** Every event is one that can happen then. */
  ghost predicate Plausible(r: Rows, registered: nat, events: seq<Event>) {
    |events| == 0 ||
    (var before := events[..|events| - 1];
     Plausible(r, registered, before) && CanHappen(Fold(r, registered, before), registered, events[|events| - 1]))
  }

  /** What the step functions returned, in order: according to the events, and in a run. */
  ghost function Outcomes(events: seq<Event>): seq<Outcome> {
    if |events| == 0 then []
    else
      var e := events[|events| - 1];
      Outcomes(events[..|events| - 1]) + if e.Message? then [e.o] else []
  }

  ghost function Returned(trace: seq<Action>): seq<Outcome> {
    if |trace| == 0 then []
    else
      var a := trace[|trace| - 1];
      Returned(trace[..|trace| - 1]) + if a.Run? then [a.outcome] else []
  }

  lemma {:induction false} FoldSnoc(r: Rows, registered: nat, events: seq<Event>, e: Event)
    ensures Fold(r, registered, events + [e]) == Happen(Fold(r, registered, events), registered, e)
    ensures Plausible(r, registered, events + [e]) <==>
              Plausible(r, registered, events) && CanHappen(Fold(r, registered, events), registered, e)
    ensures Outcomes(events + [e]) == Outcomes(events) + if e.Message? then [e.o] else []
  {
    assert (events + [e])[..|events|] == events;
  }

  /** The rows while the only actor is at pc, given the rows r from before it started; an
      actor that has written its last row already counts as having happened. */
  ghost predicate Partway(r: Rows, s: Sys, pc: PC) {
    match pc
    case Received | Publishing | Returning => s.row == r.row && s.steps == r.steps
    case Loaded(wf) => wf == s.row == r.row && s.steps == r.steps
    case ResumeLoaded(wf) => wf == s.row == r.row && s.steps == r.steps && wf.status.AwaitingApproval?
    case Marked(wf) => wf == s.row == Started(r.row) && s.steps == r.steps && !r.row.status.Terminal()
    case Exhausted(wf) =>
      wf == s.row == Started(r.row) && s.steps == r.steps && !r.row.status.Terminal() && FirstPending(r.steps) == |r.steps|
    case Holding(wf, st) => Claiming(r, s, wf, st) && s.steps == r.steps[st.sequence := st]
    case Ran(wf, st, _) => Claiming(r, s, wf, st) && s.steps == r.steps[st.sequence := st] && st.sequence < s.registered
    case Settling(wf, st, o) =>
      Claiming(r, s, wf, st) && s.steps == r.steps[st.sequence := Settled(st, o)] && st.sequence < s.registered
  }

  ghost predicate Claiming(r: Rows, s: Sys, wf: Row, st: Step) {
    var k := FirstPending(r.steps);
    && wf == s.row == Started(r.row) && !r.row.status.Terminal()
    && k < |r.steps| && st == Claimed(r.steps[k]) && st.sequence == k
  }

  /** A call whose outcome no row shows yet. */
  function Unwritten(pc: PC): seq<Outcome> {
    match pc
    case Ran(_, _, o) => [o]
    case Settling(_, _, o) => [o]
    case _ => []
  }

  /** The rows are those of a sequence of whole handlers and Resumes, in which the calls
      returned what they returned so far. */
  ghost predicate Explains(s0: Sys, s: Sys, events: seq<Event>, returned: seq<Outcome>) {
    var r := Fold(Rows(s0.row, s0.steps), s0.registered, events);
    && s.registered == s0.registered && Numbered(r.steps) && Plausible(Rows(s0.row, s0.steps), s0.registered, events)
    && (s.actors == map[] ==> returned == Outcomes(events))
    && (forall id :: id in s.actors ==> returned == Outcomes(events) + Unwritten(s.actors[id]))
    && (forall id: nat, other: nat :: id in s.actors && other in s.actors ==> id == other)
    && (s.actors == map[] ==> s.row == r.row && s.steps == r.steps)
    && (forall id :: id in s.actors ==> Partway(r, s, s.actors[id]))
  }

  /** The actions that complete a handler's or a Resume's last row write. */
  predicate Commits(s: Sys, a: Action)
    requires Enabled(s, a)
  {
    a.WriteRow? || a.Unregistered? || a.ResumeWrite? || (a.Mark? && s.actors[a.id].wf.status.Terminal())
  }

  function Committed(s: Sys, a: Action): Event
    requires Enabled(s, a)
  {
    if a.ResumeWrite? then Resumed
    else if a.WriteRow? && s.actors[a.id].Settling? then Message(s.actors[a.id].outcome)
    else Idle
  }

  lemma {:induction false} SilentStep(r: Rows, s: Sys, a: Action)
    requires Enabled(s, a) && Orderly(s, a) && !Commits(s, a) && Numbered(r.steps)
    requires !a.Duplicate? && !a.Deliver? && !a.ResumeLoad? && !a.Return?
    requires a.id in s.actors && Partway(r, s, s.actors[a.id])
    ensures Partway(r, Apply(s, a), Apply(s, a).actors[a.id])
  {
    if a.WriteStep? {
      var pc := s.actors[a.id];
      assert Apply(s, a).steps == r.steps[pc.step.sequence := Settled(pc.step, pc.outcome)];
    }
  }

  lemma {:induction false} CommitStep(r: Rows, s: Sys, a: Action)
    requires Enabled(s, a) && Commits(s, a) && Numbered(r.steps)
    requires a.id in s.actors && Partway(r, s, s.actors[a.id])
    ensures CanHappen(r, s.registered, Committed(s, a))
    ensures var r' := Happen(r, s.registered, Committed(s, a));
            Numbered(r'.steps) && Partway(r', Apply(s, a), Apply(s, a).actors[a.id])
  {
  }

  lemma {:induction false} Come(s0: Sys, s: Sys, events: seq<Event>, returned: seq<Outcome>, a: Action)
    requires Explains(s0, s, events, returned) && Allowed(Repeating, s, a) && (a.Deliver? || a.ResumeLoad?)
    ensures Explains(s0, Apply(s, a), events, returned)
  {
  }

  lemma {:induction false} ComeAndGo(s0: Sys, s: Sys, events: seq<Event>, returned: seq<Outcome>, a: Action)
    requires Explains(s0, s, events, returned) && Allowed(Repeating, s, a)
    requires a.Duplicate? || a.Deliver? || a.ResumeLoad? || a.Return?
    ensures Explains(s0, Apply(s, a), events, returned)
  {
    if a.Deliver? || a.ResumeLoad? {
      Come(s0, s, events, returned, a);
    }
  }

  lemma {:induction false} ExplainCommit(s0: Sys, s: Sys, events: seq<Event>, returned: seq<Outcome>, a: Action)
    requires Explains(s0, s, events, returned) && Allowed(Repeating, s, a) && Commits(s, a)
    ensures Explains(s0, Apply(s, a), events + [Committed(s, a)], returned)
  {
    CommitFold(s0, s, events, returned, a);
    var t := Apply(s, a);
    assert forall id :: id in t.actors ==> id == a.id;
  }

  /** What the committed event does to the fold. */
  lemma {:induction false} CommitFold(s0: Sys, s: Sys, events: seq<Event>, returned: seq<Outcome>, a: Action)
    requires Explains(s0, s, events, returned) && Allowed(Repeating, s, a) && Commits(s, a)
    ensures var r, e, t := Rows(s0.row, s0.steps), Committed(s, a), Apply(s, a);
            var r' := Fold(r, s0.registered, events + [e]);
            && Numbered(r'.steps) && Plausible(r, s0.registered, events + [e])
            && a.id in t.actors && Partway(r', t, t.actors[a.id])
            && returned == Outcomes(events + [e]) && Unwritten(t.actors[a.id]) == []
  {
    var r := Rows(s0.row, s0.steps);
    CommitStep(Fold(r, s0.registered, events), s, a);
    FoldSnoc(r, s0.registered, events, Committed(s, a));
  }

  lemma {:induction false} ExplainSilent(s0: Sys, s: Sys, events: seq<Event>, returned: seq<Outcome>, a: Action)
    requires Explains(s0, s, events, returned) && Allowed(Repeating, s, a) && !Commits(s, a)
    requires !a.Duplicate? && !a.Deliver? && !a.ResumeLoad? && !a.Return?
    ensures Explains(s0, Apply(s, a), events, returned + if a.Run? then [a.outcome] else [])
  {
    SilentStep(Fold(Rows(s0.row, s0.steps), s0.registered, events), s, a);
  }

  lemma {:induction false} ExplainStep(s0: Sys, s: Sys, events: seq<Event>, returned: seq<Outcome>, a: Action)
    returns (events': seq<Event>)
    requires Explains(s0, s, events, returned) && Allowed(Repeating, s, a)
    ensures Explains(s0, Apply(s, a), events', returned + if a.Run? then [a.outcome] else [])
  {
    events' := events;
    assert returned + [] == returned;
    if Commits(s, a) {
      events' := events + [Committed(s, a)];
      ExplainCommit(s0, s, events, returned, a);
    } else if !a.Duplicate? && !a.Deliver? && !a.ResumeLoad? && !a.Return? {
      ExplainSilent(s0, s, events, returned, a);
    } else {
      ComeAndGo(s0, s, events, returned, a);
    }
  }

  lemma {:induction false} ExplainRun(s0: Sys, trace: seq<Action>) returns (events: seq<Event>)
    requires Explains(s0, s0, [], []) && Legal(Repeating, s0, trace)
    ensures Explains(s0, After(s0, trace), events, Returned(trace))
  {
    if |trace| == 0 {
      events := [];
    } else {
      var before := ExplainRun(s0, trace[..|trace| - 1]);
      events := ExplainStep(s0, After(s0, trace[..|trace| - 1]), before, Returned(trace[..|trace| - 1]), trace[|trace| - 1]);
    }
  }

  /** Every run without overlapping actors leaves, whenever nobody is active, exactly the rows
      that a sequence of atomic handlers and atomic Resumes leaves, in which the step functions
      are called as often, and return in the same order what they returned in the run. */
  lemma {:induction false} AtomicHandlers(wf: Row, names: seq<string>, registered: nat, trace: seq<Action>)
    requires Legal(Repeating, Init(wf, names, registered), trace)
    ensures var s, r := After(Init(wf, names, registered), trace), Rows(wf, NewSteps(names));
            s.actors == map[] ==>
              exists events :: Plausible(r, registered, events) && Rows(s.row, s.steps) == Fold(r, registered, events)
                               && Returned(trace) == Outcomes(events)
  {
    var s0 := Init(wf, names, registered);
    var events := ExplainRun(s0, trace);
  }

  // ---------------------------------------------------- and each atomic handler is a run

  lemma {:induction false} Loading(s: Sys, id: nat, q: Sys)
    requires s.actors == map[] && s.inFlight > 0 && q == s.(inFlight := s.inFlight - 1)
    ensures Reaches(Repeating, s, q.(actors := map[id := Loaded(s.row)]))
  {
    Here(Repeating, s);
    Extend(Repeating, s, s, Deliver(id), q.(actors := map[id := Received]));
    Extend(Repeating, s, q.(actors := map[id := Received]), Load(id), q.(actors := map[id := Loaded(s.row)]));
  }

  lemma {:induction false} Opening(s: Sys, id: nat, q: Sys)
    requires s.actors == map[] && s.inFlight > 0 && q == s.(inFlight := s.inFlight - 1)
    ensures s.row.status.Terminal() ==> Reaches(Repeating, s, q.(actors := map[id := Returning]))
    ensures !s.row.status.Terminal() ==>
              Reaches(Repeating, s, q.(row := Started(s.row), actors := map[id := Marked(Started(s.row))]))
  {
    Loading(s, id, q);
    if s.row.status.Terminal() {
      Extend(Repeating, s, q.(actors := map[id := Loaded(s.row)]), Mark(id), q.(actors := map[id := Returning]));
    } else {
      Extend(Repeating, s, q.(actors := map[id := Loaded(s.row)]), Mark(id),
             q.(row := Started(s.row), actors := map[id := Marked(Started(s.row))]));
    }
  }

  lemma {:induction false} Closing(s0: Sys, s: Sys, id: nat)
    requires s.actors == map[id := Returning] && Reaches(Repeating, s0, s)
    ensures Reaches(Repeating, s0, s.(actors := map[]))
  {
    assert s.actors - {id} == map[];
    Extend(Repeating, s0, s, Return(id), s.(actors := map[]));
  }

  lemma {:induction false} Taking(s0: Sys, s: Sys, id: nat, wf: Row, k: nat, st: Step)
    requires Reaches(Repeating, s0, s) && s.actors == map[id := Marked(wf)]
    requires k == FirstPending(s.steps) < |s.steps| && st == Claimed(s.steps[k])
    ensures Reaches(Repeating, s0, s.(steps := s.steps[k := st], actors := map[id := Holding(wf, st)]))
  {
    Extend(Repeating, s0, s, Claim(id, k), s.(steps := s.steps[k := st], actors := map[id := Holding(wf, st)]));
  }

  lemma {:induction false} Calling(s0: Sys, v: Sys, id: nat, wf: Row, st: Step, o: Outcome)
    requires Reaches(Repeating, s0, v) && v.actors == map[id := Holding(wf, st)] && st.sequence < v.registered
    ensures Reaches(Repeating, s0, v.(actors := map[id := Ran(wf, st, o)]))
  {
    Extend(Repeating, s0, v, Run(id, st.sequence, o), v.(actors := map[id := Ran(wf, st, o)]));
  }

  /** On to the last row write, ... */
  lemma {:induction false} Writing(s0: Sys, v: Sys, id: nat, wf: Row, st: Step, o: Outcome)
    requires Reaches(Repeating, s0, v) && v.actors == map[id := Ran(wf, st, o)] && st.sequence < |v.steps|
    ensures Reaches(Repeating, s0, v.(steps := v.steps[st.sequence := Settled(st, o)], actors := map[id := Settling(wf, st, o)]))
  {
    Extend(Repeating, s0, v, WriteStep(id),
           v.(steps := v.steps[st.sequence := Settled(st, o)], actors := map[id := Settling(wf, st, o)]));
  }

  /** ... over it, ... */
  lemma {:induction false} Progressing(s0: Sys, w: Sys, id: nat, wf: Row, st: Step, o: Outcome)
    requires Reaches(Repeating, s0, w) && w.actors == map[id := Settling(wf, st, o)]
    ensures Reaches(Repeating, s0, w.(row := Progress(wf, st, o), actors := map[id := if o.Ok? then Publishing else Returning]))
  {
    Extend(Repeating, s0, w, WriteRow(id),
           w.(row := Progress(wf, st, o), actors := map[id := if o.Ok? then Publishing else Returning]));
  }

  /** ... and past the publish. */
  lemma {:induction false} Passing(s0: Sys, w: Sys, id: nat)
    requires Reaches(Repeating, s0, w) && w.actors == map[id := Publishing]
    ensures Reaches(Repeating, s0, w.(inFlight := w.inFlight + 1, actors := map[id := Returning]))
  {
    Extend(Repeating, s0, w, Publish(id), w.(inFlight := w.inFlight + 1, actors := map[id := Returning]));
  }

  lemma {:induction false} Finishing(s0: Sys, s: Sys, id: nat, wf: Row)
    requires Reaches(Repeating, s0, s) && s.actors == map[id := Marked(wf)] && FirstPending(s.steps) == |s.steps|
    ensures Reaches(Repeating, s0, s.(row := Finish(wf, Status.Succeeded, NoError), actors := map[id := Returning]))
  {
    Extend(Repeating, s0, s, ClaimNone(id), s.(actors := map[id := Exhausted(wf)]));
    Declaring(s0, s.(actors := map[id := Exhausted(wf)]), id, wf);
  }

  lemma {:induction false} Declaring(s0: Sys, s: Sys, id: nat, wf: Row)
    requires Reaches(Repeating, s0, s) && s.actors == map[id := Exhausted(wf)]
    ensures Reaches(Repeating, s0, s.(row := Finish(wf, Status.Succeeded, NoError), actors := map[id := Returning]))
  {
    Extend(Repeating, s0, s, WriteRow(id), s.(row := Finish(wf, Status.Succeeded, NoError), actors := map[id := Returning]));
  }

  lemma {:induction false} GivingUp(s0: Sys, s: Sys, id: nat, wf: Row, k: nat)
    requires Reaches(Repeating, s0, s) && s.actors == map[id := Marked(wf)] && Numbered(s.steps)
    requires s.registered <= k == FirstPending(s.steps) < |s.steps|
    ensures Reaches(Repeating, s0, s.(row := Finish(wf, Status.Failed, NoDefinition(k, wf.kind)),
                           steps := s.steps[k := Claimed(s.steps[k])], actors := map[id := Returning]))
  {
    var v := s.(steps := s.steps[k := Claimed(s.steps[k])], actors := map[id := Holding(wf, Claimed(s.steps[k]))]);
    Taking(s0, s, id, wf, k, Claimed(s.steps[k]));
    Extend(Repeating, s0, v, Unregistered(id),
           v.(row := Finish(wf, Status.Failed, NoDefinition(k, wf.kind)), actors := map[id := Returning]));
  }

  /** A whole registered step. */
  lemma {:induction false} Serving(s0: Sys, u: Sys, id: nat, wf: Row, k: nat, st: Step, o: Outcome)
    requires Reaches(Repeating, s0, u) && u.actors == map[id := Marked(wf)] && Numbered(u.steps)
    requires k == FirstPending(u.steps) < |u.steps| && k < u.registered && st == Claimed(u.steps[k])
    ensures Reaches(Repeating, s0,
                    u.(row := Progress(wf, st, o), steps := u.steps[k := Settled(st, o)],
                       inFlight := if o.Ok? then u.inFlight + 1 else u.inFlight, actors := map[id := Returning]))
  {
    Taking(s0, u, id, wf, k, st);
    Calling(s0, u.(steps := u.steps[k := st], actors := map[id := Holding(wf, st)]), id, wf, st, o);
    Writing(s0, u.(steps := u.steps[k := st], actors := map[id := Ran(wf, st, o)]), id, wf, st, o);
    var done := u.(steps := u.steps[k := Settled(st, o)]);
    assert u.steps[k := st][k := Settled(st, o)] == done.steps;
    Progressing(s0, done.(actors := map[id := Settling(wf, st, o)]), id, wf, st, o);
    if o.Ok? {
      Passing(s0, done.(row := Progress(wf, st, o), actors := map[id := Publishing]), id);
    }
  }

  /** From the claim attempt to the end of the handler. */
  lemma {:induction false} Marching(s0: Sys, u: Sys, id: nat, wf: Row, o: Outcome) returns (h: Handled)
    requires Reaches(Repeating, s0, u) && u.actors == map[id := Marked(wf)] && Numbered(u.steps)
    requires wf == Started(wf) && !wf.status.Terminal()
    ensures h == Handle(wf, u.steps, u.registered, o)
    ensures Reaches(Repeating, s0,
                    u.(row := h.row, steps := h.steps, inFlight := if h.publish then u.inFlight + 1 else u.inFlight,
                       actors := map[id := Returning]))
  {
    var k := FirstPending(u.steps);
    h := Handle(wf, u.steps, u.registered, o);
    if k == |u.steps| {
      Finishing(s0, u, id, wf);
    } else if k >= u.registered {
      GivingUp(s0, u, id, wf, k);
    } else {
      Serving(s0, u, id, wf, k, Claimed(u.steps[k]), o);
    }
  }

  lemma {:induction false} TerminalHandlerIsRun(s: Sys, o: Outcome)
    requires s.actors == map[] && s.inFlight > 0 && s.row.status.Terminal()
    ensures Reaches(Repeating, s, s.(inFlight := s.inFlight - 1))
    ensures Handle(s.row, s.steps, s.registered, o) == Handled(s.row, s.steps, false)
  {
    var q := s.(inFlight := s.inFlight - 1);
    Opening(s, 0, q);
    Closing(s, q.(actors := map[0 := Returning]), 0);
    assert q.(actors := map[]) == q;
  }

  /** Conversely every atomic handler is some legal run, and it moves the queue as publish says. */
  lemma {:induction false} HandlerIsRun(s: Sys, o: Outcome)
    requires s.actors == map[] && s.inFlight > 0 && Numbered(s.steps)
    ensures var h := Handle(s.row, s.steps, s.registered, o);
            Reaches(Repeating, s, s.(row := h.row, steps := h.steps, inFlight := s.inFlight - 1 + if h.publish then 1 else 0))
  {
    if s.row.status.Terminal() {
      TerminalHandlerIsRun(s, o);
    } else {
      var q, wf := s.(inFlight := s.inFlight - 1), Started(s.row);
      Opening(s, 0, q);
      var h := Marching(s, q.(row := wf, actors := map[0 := Marked(wf)]), 0, wf, o);
      Closing(s, q.(row := h.row, steps := h.steps, inFlight := if h.publish then q.inFlight + 1 else q.inFlight,
                    actors := map[0 := Returning]), 0);
    }
  }

  /** A whole Resume is a run as well. */
  lemma {:induction false} ResumeIsRun(s: Sys)
    requires s.actors == map[] && s.row.status.AwaitingApproval?
    ensures Reaches(Repeating, s, s.(row := s.row.(status := Running), inFlight := s.inFlight + 1))
  {
    Here(Repeating, s);
    Extend(Repeating, s, s, ResumeLoad(0), s.(actors := map[0 := ResumeLoaded(s.row)]));
    var t := s.(row := s.row.(status := Running), actors := map[0 := Publishing]);
    Extend(Repeating, s, s.(actors := map[0 := ResumeLoaded(s.row)]), ResumeWrite(0), t);
    Passing(s, t, 0);
    Closing(s, t.(inFlight := t.inFlight + 1, actors := map[0 := Returning]), 0);
    assert t.(inFlight := t.inFlight + 1, actors := map[]) == s.(row := s.row.(status := Running), inFlight := s.inFlight + 1);
  }

  lemma {:induction false} ReachesOn(env: Env, s0: Sys, s: Sys, trace: seq<Action>)
    requires Reaches(env, s0, s) && Legal(env, s, trace)
    ensures Reaches(env, s0, After(s, trace))
  {
    if |trace| > 0 {
      var before, a := trace[..|trace| - 1], trace[|trace| - 1];
      ReachesOn(env, s0, s, before);
      Extend(env, s0, After(s, before), a, After(s, trace));
    }
  }

  lemma {:induction false} ReachesTransitive(env: Env, s0: Sys, s: Sys, t: Sys)
    requires Reaches(env, s0, s) && Reaches(env, s, t)
    ensures Reaches(env, s0, t)
  {
    var trace :| Legal(env, s, trace) && After(s, trace) == t;
    ReachesOn(env, s0, s, trace);
  }

  /** One more event from a state nobody is active in, with a message duplicated if need be. */
  lemma {:induction false} EventIsRun(s0: Sys, s: Sys, e: Event) returns (t: Sys)
    requires Reaches(Repeating, s0, s) && s.actors == map[] && Numbered(s.steps)
    requires CanHappen(Rows(s.row, s.steps), s.registered, e)
    ensures Reaches(Repeating, s0, t) && t.actors == map[] && t.registered == s.registered && Numbered(t.steps)
    ensures Rows(t.row, t.steps) == Happen(Rows(s.row, s.steps), s.registered, e)
  {
    if e.Resumed? {
      ResumeIsRun(s);
      t := s.(row := s.row.(status := Running), inFlight := s.inFlight + 1);
      ReachesTransitive(Repeating, s0, s, t);
    } else {
      var q, o := s.(inFlight := s.inFlight + 1), if e.Message? then e.o else Await;
      Extend(Repeating, s0, s, Duplicate, q);
      HandlerIsRun(q, o);
      var h := Handle(q.row, q.steps, q.registered, o);
      t := q.(row := h.row, steps := h.steps, inFlight := q.inFlight - 1 + if h.publish then 1 else 0);
      ReachesTransitive(Repeating, s0, q, t);
    }
  }

  /** And every plausible sequence of atomic handlers and Resumes is some run: together with
      AtomicHandlers, the rows that runs without overlap can leave are exactly those. */
  lemma {:induction false} EventsAreRuns(wf: Row, names: seq<string>, registered: nat, events: seq<Event>) returns (t: Sys)
    requires Plausible(Rows(wf, NewSteps(names)), registered, events)
    ensures Reaches(Repeating, Init(wf, names, registered), t) && t.actors == map[] && t.registered == registered
    ensures Rows(t.row, t.steps) == Fold(Rows(wf, NewSteps(names)), registered, events) && Numbered(t.steps)
  {
    var s0 := Init(wf, names, registered);
    if |events| == 0 {
      Here(Repeating, s0);
      Passing(s0, s0, 0);
      t := s0.(inFlight := 1, actors := map[]);
      Closing(s0, s0.(inFlight := 1, actors := map[0 := Returning]), 0);
    } else {
      var s := EventsAreRuns(wf, names, registered, events[..|events| - 1]);
      t := EventIsRun(s0, s, events[|events| - 1]);
    }
  }
}
