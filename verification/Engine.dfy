/** The engine over an in-process broker (internal/workflows/engine.go,
    internal/infrastructure/inprocess/broker.go) and the repository it updates
    (internal/infrastructure/postgres/workflow_repo.go), as objects. Publish delivers to the
    subscribed engine before it returns, so handling a message recurses through dispatch. */
module Engine {
  import opened Workflow
  import opened Interpreter

  datatype Option<+T> = None | Some(value: T)

  const DISPATCH_TOPIC := "workflow.dispatch"

  function Names<W>(def: Definition<W>): seq<string> {
    seq(|def|, i requires 0 <= i < |def| => def[i].name)
  }

  /** The two maps differ at most at id. */
  ghost predicate Agree<T>(m: map<nat, T>, n: map<nat, T>, id: nat) {
    && (forall j :: j in m && j != id ==> j in n && n[j] == m[j])
    && (forall j :: j in n && j != id ==> j in m)
  }

  lemma {:induction false} AgreeTrans<T>(m: map<nat, T>, n: map<nat, T>, o: map<nat, T>, id: nat)
    requires Agree(m, n, id) && Agree(n, o, id)
    ensures Agree(m, o, id)
  {
  }

  /** The store after the function of a claimed step has been run and settled. */
  ghost function Ran<W>(def: Definition<W>, s: Store<W>, st: Step): Store<W>
    requires st.sequence < |s.steps| && st.sequence < |def|
  {
    var (o, w) := def[st.sequence].run(s.row, s.world);
    Store(Progress(s.row, st, o), s.steps[st.sequence := Settled(st, o)], w)
  }

  /** What is left of driving a store once its next step has been claimed. */
  ghost function RunClaimed<W>(def: Definition<W>, s: Store<W>, st: Step): Store<W>
    requires st.sequence < |s.steps|
  {
    if st.sequence >= |def| then s.(row := Finish(s.row, Failed, NoDefinition(st.sequence, s.row.kind)))
    else
      var t := Ran(def, s, st);
      if def[st.sequence].run(s.row, s.world).0.Ok? then Drive(def, t) else t
  }

  lemma {:induction false} DriveStops<W>(def: Definition<W>, s: Store<W>)
    ensures s.row.status.Terminal() ==> Drive(def, s) == s
    ensures !s.row.status.Terminal() && FirstPending(s.steps) == |s.steps| ==>
              Drive(def, s) == s.(row := Finish(Started(s.row), Succeeded, NoError))
  {
  }

  lemma {:induction false} FromClaim<W>(def: Definition<W>, s: Store<W>, k: nat)
    requires k == FirstPending(s.steps) < |s.steps| && !s.row.status.Terminal() && Numbered(s.steps)
    ensures var st := Claimed(s.steps[k]);
            Drive(def, s) == RunClaimed(def, s.(row := Started(s.row), steps := s.steps[k := st]), st)
  {
    var st := Claimed(s.steps[k]);
    assert forall o :: s.steps[k := st][k := Settled(st, o)] == s.steps[k := Settled(st, o)];
  }

  /** Settling a RUNNING step as SUCCEEDED leaves the number of PENDING steps alone. */
  lemma {:induction false} SameCount(steps: seq<Step>, k: nat, st: Step)
    requires k < |steps| && !steps[k].status.Pending? && !st.status.Pending?
    ensures PendingCount(steps[k := st]) == PendingCount(steps)
  {
    if k == 0 {
      assert steps[0 := st][1..] == steps[1..];
    } else {
      assert steps[k := st][1..] == steps[1..][k - 1 := st];
      SameCount(steps[1..], k - 1, st);
    }
  }

  /** The stored row after an UPDATE with the values of a copy. */
  function Updated(stored: Row, copy: Row): Row {
    stored.(status := copy.status, currentStep := copy.currentStep, error := copy.error,
            started := copy.started, finished := copy.finished)
  }

  class WorkflowRepository {
    var rows: map<nat, Row>
    var steps: map<nat, seq<Step>>

    /** One row per id and per idempotency key, step rows numbered from 0. */
    ghost predicate Valid()
      reads this
    {
      && rows.Keys == steps.Keys
      && (forall id :: id in rows ==> rows[id].id == id && Numbered(steps[id]))
      && (forall id, other :: id in rows && other in rows && rows[id].key == rows[other].key ==> id == other)
    }

    constructor ()
      ensures Valid() && rows == map[]
    {
      rows, steps := map[], map[];
    }

    /** The transactional insert; the UNIQUE key makes it fail, leaving nothing behind. */
    method Create(wf: Row, st: seq<Step>) returns (ok: bool)
      requires Valid() && wf.id !in rows && Numbered(st)
      modifies this
      ensures Valid()
      ensures ok == (forall id :: id in old(rows) ==> old(rows)[id].key != wf.key)
      ensures ok ==> rows == old(rows)[wf.id := wf] && steps == old(steps)[wf.id := st]
      ensures !ok ==> rows == old(rows) && steps == old(steps)
    {
      ok := forall id :: id in rows ==> rows[id].key != wf.key;
      if ok {
        rows, steps := rows[wf.id := wf], steps[wf.id := st];
      }
    }

    method Get(id: nat) returns (wf: Option<Row>)
      ensures wf == if id in rows then Some(rows[id]) else None
    {
      wf := if id in rows then Some(rows[id]) else None;
    }

    method GetByIdempotencyKey(key: string) returns (wf: Option<Row>)
      ensures wf.Some? ==> wf.value.key == key && exists id :: id in rows && rows[id] == wf.value
      ensures wf.None? ==> forall id :: id in rows ==> rows[id].key != key
    {
      if id :| id in rows && rows[id].key == key {
        wf := Some(rows[id]);
      } else {
        wf := None;
      }
    }

    /** Writes the caller's whole copy, except for the type and the key, which no update
        touches; false when no row has this id. */
    method Update(wf: Row) returns (ok: bool)
      requires Valid()
      modifies this`rows
      ensures Valid()
      ensures ok == (wf.id in old(rows))
      ensures rows == if ok then old(rows)[wf.id := Updated(old(rows)[wf.id], wf)] else old(rows)
      ensures ok ==> rows[wf.id] == wf.(kind := old(rows)[wf.id].kind, key := old(rows)[wf.id].key)
    {
      ok := wf.id in rows;
      if ok {
        rows := rows[wf.id := Updated(rows[wf.id], wf)];
      }
    }

    method UpdateStep(id: nat, st: Step) returns (ok: bool)
      requires Valid()
      modifies this`steps
      ensures Valid()
      ensures ok == (id in old(steps) && st.sequence < |old(steps)[id]|)
      ensures steps == if ok then old(steps)[id := old(steps)[id][st.sequence := st]] else old(steps)
    {
      ok := id in steps && st.sequence < |steps[id]|;
      if ok {
        steps := steps[id := steps[id][st.sequence := st]];
      }
    }

    /** The lowest PENDING step becomes RUNNING with one more attempt, and is returned. */
    method ClaimNextStep(id: nat) returns (st: Option<Step>)
      requires Valid()
      modifies this`steps
      ensures Valid()
      ensures id in old(steps) && FirstPending(old(steps)[id]) < |old(steps)[id]| ==>
                && st == Some(Claimed(old(steps)[id][FirstPending(old(steps)[id])]))
                && steps == old(steps)[id := old(steps)[id][FirstPending(old(steps)[id]) := st.value]]
      ensures id !in old(steps) || FirstPending(old(steps)[id]) == |old(steps)[id]| ==>
                st.None? && steps == old(steps)
    {
      st := None;
      if id in steps {
        var k := FirstPending(steps[id]);
        if k < |steps[id]| {
          st := Some(Claimed(steps[id][k]));
          steps := steps[id := steps[id][k := st.value]];
        }
      }
    }
  }

  class Broker<W> {
    var handlers: map<string, seq<Engine?<W>>>

    constructor ()
      ensures handlers == map[]
    {
      handlers := map[];
    }

    method Subscribe(topic: string, handler: Engine<W>) returns (idx: nat)
      modifies this
      ensures var hs := if topic in old(handlers) then old(handlers)[topic] else [];
              idx == |hs| && handlers == old(handlers)[topic := hs + [handler]]
    {
      var hs := if topic in handlers then handlers[topic] else [];
      idx := |hs|;
      handlers := handlers[topic := hs + [handler]];
    }

    /** The slot is cleared, not removed. */
    method Unsubscribe(topic: string, idx: nat)
      modifies this
      ensures handlers ==
              if topic in old(handlers) && idx < |old(handlers)[topic]|
              then old(handlers)[topic := old(handlers)[topic][idx := null]] else old(handlers)
    {
      if topic in handlers && idx < |handlers[topic]| {
        handlers := handlers[topic := handlers[topic][idx := null]];
      }
    }

    /** What delivering to a topic with at most one live subscriber may change. */
    ghost function Reach(topic: string): set<object>
      reads this
    {
      if topic in handlers && |handlers[topic]| == 1 && handlers[topic][0] != null
      then {handlers[topic][0], handlers[topic][0].repo} else {}
    }

    ghost function Work(topic: string, payload: nat): nat
      reads this, Reach(topic)
    {
      if topic in handlers && |handlers[topic]| == 1 && handlers[topic][0] != null
      then handlers[topic][0].Todo(payload) else 0
    }

    /** Every subscriber handles the payload, in order, before Publish returns; the first
        error ends the delivery. With no subscriber nothing happens. */
    method Publish(topic: string, payload: nat) returns (ok: bool)
      requires topic in handlers ==> |handlers[topic]| <= 1
      requires topic in handlers && |handlers[topic]| == 1 ==>
                 handlers[topic][0] != null && handlers[topic][0].broker == this && handlers[topic][0].Consuming()
      modifies Reach(topic)
      ensures topic !in handlers || handlers[topic] == [] ==> ok
      ensures topic in handlers && |handlers[topic]| == 1 ==> handlers[topic][0].Drove(payload, ok)
      decreases Work(topic, payload), 2
    {
      var hs := if topic in handlers then handlers[topic] else [];
      ok := true;
      var i := 0;
      while i < |hs|
        invariant 0 <= i <= |hs| <= 1
        invariant i == 0 ==> ok
        invariant i == 0 && |hs| == 1 ==> unchanged(hs[0]) && unchanged(hs[0].repo)
        invariant i == 1 ==> ok && hs[0].Drove(payload, ok)
        decreases |hs| - i
      {
        ok := hs[i].HandleDispatch(payload);
        if !ok {
          return;
        }
        i := i + 1;
      }
    }
  }

  /** world stands for the clusters, change sets, Git and so on that step functions touch. */
  class Engine<W> {
    const repo: WorkflowRepository
    const broker: Broker<W>
    var registry: map<string, Definition<W>>
    var world: W

    constructor (repo: WorkflowRepository, broker: Broker<W>, world: W)
      ensures this.repo == repo && this.broker == broker && this.world == world && registry == map[]
    {
      this.repo, this.broker, this.registry, this.world := repo, broker, map[], world;
    }

    /** This engine is the one live subscriber of the dispatch topic. */
    ghost predicate Consuming()
      reads this, broker, repo
    {
      && DISPATCH_TOPIC in broker.handlers && broker.handlers[DISPATCH_TOPIC] == [this]
      && repo.Valid()
    }

    function Lookup(kind: string): Definition<W>
      reads this
    {
      if kind in registry then registry[kind] else []
    }

    ghost function View(id: nat): Store<W>
      requires id in repo.rows && id in repo.steps
      reads this, repo
    {
      Store(repo.rows[id], repo.steps[id], world)
    }

    ghost function Todo(id: nat): nat
      reads repo
    {
      if id in repo.steps then PendingCount(repo.steps[id]) else 0
    }

    /** Messages for id were handled until none was published; nothing else changed. */
    twostate predicate Drove(id: nat, ok: bool)
      reads this, repo
    {
      && repo.Valid() && registry == old(registry)
      && repo.rows.Keys == old(repo.rows.Keys)
      && ok == (id in old(repo.rows))
      && (id in old(repo.rows) && id in old(repo.steps) && id in repo.rows && id in repo.steps ==>
            View(id) == Drive(old(Lookup(repo.rows[id].kind)), old(View(id))))
      && (id !in old(repo.rows) ==> world == old(world))
      && Others(id)
    }

    twostate predicate Others(id: nat)
      reads this, repo
    {
      Agree(repo.rows, old(repo.rows), id) && Agree(repo.steps, old(repo.steps), id)
    }

    method Register(kind: string, def: Definition<W>)
      modifies this`registry
      ensures registry == old(registry)[kind := def]
    {
      registry := registry[kind := def];
    }

    method StartConsuming()
      requires repo.Valid()
      modifies broker
      ensures broker.handlers ==
              old(broker.handlers)[DISPATCH_TOPIC :=
                (if DISPATCH_TOPIC in old(broker.handlers) then old(broker.handlers)[DISPATCH_TOPIC] else []) + [this]]
      ensures DISPATCH_TOPIC !in old(broker.handlers) ==> Consuming()
    {
      var _ := broker.Subscribe(DISPATCH_TOPIC, this);
    }

    /** The caller gets the existing run of a repeated key; a new run is stored, driven by
        the messages it causes, and leaves exactly what the interpreter leaves. newID is the
        fresh identifier. */
    method Enqueue(kind: string, key: string, newID: nat) returns (r: Option<Row>)
      requires Consuming() && newID !in repo.rows
      modifies this, repo
      ensures Consuming() && registry == old(registry)
      ensures (exists id :: id in old(repo.rows) && old(repo.rows)[id].key == key) ==>
                && unchanged(this) && unchanged(repo)
                && exists id :: id in repo.rows && repo.rows[id].key == key && r == Some(repo.rows[id])
      ensures (forall id :: id in old(repo.rows) ==> old(repo.rows)[id].key != key) ==>
                if kind !in registry then r.None? && unchanged(this) && unchanged(repo)
                else
                  var def := registry[kind];
                  && r == Some(Row(newID, kind, key, Pending, 0, NoError, false, false))
                  && Others(newID) && newID in repo.rows
                  && Leaves(def, newID, kind, key,
                            Interpret(def, Row(newID, kind, key, Running, 0, NoError, true, false), 0, old(world)),
                            View(newID))
    {
      r := repo.GetByIdempotencyKey(key);
      if r.Some? {
        return;
      }
      if kind !in registry {
        return None;
      }
      var def := registry[kind];
      var wf := NewRow(newID, kind, key);
      Insert(wf, NewSteps(Names(def)));
      NewRunLeaves(def, newID, kind, key, world);
      assert View(newID).steps == seq(|def|, j requires 0 <= j < |def| => Step(j, def[j].name, Pending, map[], "", 0, false));
      DispatchOn(newID, old(repo.rows), old(repo.steps));
      r := Some(wf);
    }

    /** The insert of a run whose key is new. */
    method Insert(wf: Row, st: seq<Step>)
      requires Consuming() && wf.id !in repo.rows && Numbered(st)
      requires forall id :: id in repo.rows ==> repo.rows[id].key != wf.key
      modifies repo
      ensures Consuming() && Others(wf.id)
      ensures wf.id in repo.rows && View(wf.id) == Store(wf, st, world)
    {
      var created := repo.Create(wf, st);
      assert created;
    }

    /** Only an AWAITING_APPROVAL workflow is resumed; false stands for the two errors. */
    method Resume(id: nat) returns (ok: bool)
      requires Consuming()
      modifies this, repo
      ensures Consuming() && registry == old(registry) && repo.rows.Keys == old(repo.rows.Keys) && Others(id)
      ensures ok == (id in old(repo.rows) && old(repo.rows[id].status).AwaitingApproval?)
      ensures id in old(repo.rows) ==> View(id) == Interpreter.Resume(old(Lookup(repo.rows[id].kind)), old(View(id)))
    {
      var got := repo.Get(id);
      if got.None? || !got.value.status.AwaitingApproval? {
        return false;
      }
      var _ := repo.Update(got.value.(status := Running));
      ok := Dispatch(id);
    }

    method Dispatch(id: nat) returns (ok: bool)
      requires Consuming()
      modifies this, repo
      ensures Consuming() && Drove(id, ok)
      decreases Todo(id), 3
    {
      ok := broker.Publish(DISPATCH_TOPIC, id);
    }

    method HandleDispatch(id: nat) returns (ok: bool)
      requires Consuming()
      modifies this, repo
      ensures Consuming() && Drove(id, ok)
      decreases Todo(id), 1
    {
      ok := ExecuteNext(id);
    }

    /** Claims and runs the next pending step, then publishes; equal to driving the
        workflow's store until no message is left. */
    method ExecuteNext(id: nat) returns (ok: bool)
      requires Consuming()
      modifies this, repo
      ensures Consuming() && Drove(id, ok)
      decreases Todo(id), 0, 1
    {
      var got := repo.Get(id);
      if got.None? {
        return false;
      }
      var wf := got.value;
      if wf.status.Succeeded? || wf.status.Failed? || wf.status.Cancelled? || wf.status.NeedsAttention? {
        return true;
      }
      Proceed(id, wf);
      return true;
    }

    /** The part of executeNext behind the terminal test. */
    method Proceed(id: nat, wf: Row)
      requires Consuming() && id in repo.rows && repo.rows[id] == wf && !wf.status.Terminal()
      modifies this, repo
      ensures Consuming() && Drove(id, true)
      decreases Todo(id), 0, 0
    {
      ghost var def, s := Lookup(wf.kind), View(id);
      ghost var k := FirstPending(s.steps);
      var wf', claimed := ClaimOrFinish(id, wf);
      if claimed.None? {
        DriveStops(def, s);
      } else {
        PendingDrops(s.steps, k, claimed.value);
        FromClaim(def, s, k);
        ghost var rows, steps := repo.rows, repo.steps;
        RunStep(id, wf', claimed.value);
        AgreeTrans(repo.rows, rows, old(repo.rows), id);
        AgreeTrans(repo.steps, steps, old(repo.steps), id);
      }
    }

    /** The PENDING branch, then ClaimNextStep, then finish if there was nothing to claim. */
    method ClaimOrFinish(id: nat, wf: Row) returns (wf': Row, claimed: Option<Step>)
      requires repo.Valid() && id in repo.rows && repo.rows[id] == wf
      modifies repo
      ensures repo.Valid() && wf' == Started(wf)
      ensures var st := old(repo.steps[id]); var k := FirstPending(st);
              if k == |st| then
                && claimed.None? && repo.steps == old(repo.steps)
                && repo.rows == old(repo.rows)[id := Workflow.Finish(wf', Succeeded, NoError)]
              else
                && claimed == Some(Claimed(st[k])) && repo.steps == old(repo.steps)[id := st[k := Claimed(st[k])]]
                && repo.rows == old(repo.rows)[id := wf']
    {
      wf' := wf;
      if wf.status.Pending? {
        wf' := wf.(status := Running, started := true);
        var _ := repo.Update(wf');
      }
      claimed := repo.ClaimNextStep(id);
      if claimed.None? {
        Finish(wf', Succeeded, NoError);
      }
    }

    /** Run the claimed step, write both rows, and publish if it succeeded. */
    method RunStep(id: nat, wf: Row, step: Step)
      requires Consuming() && id in repo.rows && repo.rows[id] == wf && step.sequence < |repo.steps[id]|
      requires step == repo.steps[id][step.sequence] && step.status.Running?
      modifies this, repo
      ensures Consuming() && registry == old(registry) && Others(id) && id in repo.rows
      ensures View(id) == RunClaimed(old(Lookup(wf.kind)), old(View(id)), step)
      decreases Todo(id), 6
    {
      if wf.kind !in registry || step.sequence >= |registry[wf.kind]| {
        Finish(wf, Failed, NoDefinition(step.sequence, wf.kind));
      } else {
        RunRegistered(id, wf, step);
      }
    }

    method RunRegistered(id: nat, wf: Row, step: Step)
      requires Consuming() && id in repo.rows && repo.rows[id] == wf && step.sequence < |repo.steps[id]|
      requires step == repo.steps[id][step.sequence] && step.status.Running?
      requires wf.kind in registry && step.sequence < |registry[wf.kind]|
      modifies this, repo
      ensures Consuming() && registry == old(registry) && Others(id) && id in repo.rows
      ensures View(id) == RunClaimed(old(registry[wf.kind]), old(View(id)), step)
      decreases Todo(id), 5
    {
      ghost var def, s := registry[wf.kind], View(id);
      var o := Call(id, wf, step);
      assert View(id) == Ran(def, s, step);
      if o.Ok? {
        SameCount(old(repo.steps[id]), step.sequence, Settled(step, o));
        DispatchOn(id, old(repo.rows), old(repo.steps));
      }
    }

    /** Publishing for a workflow that alone has changed since rows and steps. */
    method DispatchOn(id: nat, ghost rows: map<nat, Row>, ghost steps: map<nat, seq<Step>>)
      requires Consuming() && id in repo.rows && Agree(repo.rows, rows, id) && Agree(repo.steps, steps, id)
      modifies this, repo
      ensures Consuming() && registry == old(registry) && id in repo.rows
      ensures Agree(repo.rows, rows, id) && Agree(repo.steps, steps, id)
      ensures View(id) == Drive(old(Lookup(repo.rows[id].kind)), old(View(id)))
      decreases Todo(id), 4
    {
      var _ := Dispatch(id);
      AgreeTrans(repo.rows, old(repo.rows), rows, id);
      AgreeTrans(repo.steps, old(repo.steps), steps, id);
    }

    /** Runs the step function and stores what it returned. */
    method Call(id: nat, wf: Row, step: Step) returns (o: Outcome)
      requires Consuming() && id in repo.rows && repo.rows[id] == wf && step.sequence < |repo.steps[id]|
      requires wf.kind in registry && step.sequence < |registry[wf.kind]|
      modifies this`world, repo
      ensures Consuming()
      ensures (o, world) == registry[wf.kind][step.sequence].run(wf, old(world))
      ensures repo.rows == old(repo.rows)[id := Progress(wf, step, o)]
      ensures repo.steps == old(repo.steps)[id := old(repo.steps[id])[step.sequence := Settled(step, o)]]
    {
      var (outcome, w) := registry[wf.kind][step.sequence].run(wf, world);
      o, world := outcome, w;
      Settle(id, wf, step, o);
    }

    /** The two row writes that follow a step function's return. */
    method Settle(id: nat, wf: Row, step: Step, o: Outcome)
      requires repo.Valid() && id in repo.rows && repo.rows[id] == wf && step.sequence < |repo.steps[id]|
      modifies repo
      ensures repo.Valid()
      ensures repo.rows == old(repo.rows)[id := Progress(wf, step, o)]
      ensures repo.steps == old(repo.steps)[id := old(repo.steps[id])[step.sequence := Settled(step, o)]]
    {
      match o
      case Await =>
        SettleWaiting(id, wf, step);
      case Err(cause) =>
        SettleFailed(id, wf, step, cause);
      case Ok(output) =>
        SettleDone(id, wf, step, output);
    }

    method SettleDone(id: nat, wf: Row, step: Step, output: Output)
      requires repo.Valid() && id in repo.rows && repo.rows[id] == wf && step.sequence < |repo.steps[id]|
      modifies repo
      ensures repo.Valid()
      ensures repo.rows == old(repo.rows)[id := Progress(wf, step, Ok(output))]
      ensures repo.steps == old(repo.steps)[id := old(repo.steps[id])[step.sequence := Settled(step, Ok(output))]]
    {
      var _ := repo.UpdateStep(id, step.(finished := true, status := Succeeded, output := output));
      var advanced := wf.(currentStep := step.sequence + 1);
      assert Updated(wf, advanced) == advanced == Progress(wf, step, Ok(output));
      var _ := repo.Update(advanced);
    }

    method SettleWaiting(id: nat, wf: Row, step: Step)
      requires repo.Valid() && id in repo.rows && repo.rows[id] == wf && step.sequence < |repo.steps[id]|
      modifies repo
      ensures repo.Valid()
      ensures repo.rows == old(repo.rows)[id := Progress(wf, step, Await)]
      ensures repo.steps == old(repo.steps)[id := old(repo.steps[id])[step.sequence := Settled(step, Await)]]
    {
      var _ := repo.UpdateStep(id, step.(status := Pending, finished := false));
      var waiting := wf.(status := AwaitingApproval);
      assert Updated(wf, waiting) == waiting == Progress(wf, step, Await);
      var _ := repo.Update(waiting);
    }

    method SettleFailed(id: nat, wf: Row, step: Step, cause: string)
      requires repo.Valid() && id in repo.rows && repo.rows[id] == wf && step.sequence < |repo.steps[id]|
      modifies repo
      ensures repo.Valid()
      ensures repo.rows == old(repo.rows)[id := Progress(wf, step, Err(cause))]
      ensures repo.steps == old(repo.steps)[id := old(repo.steps[id])[step.sequence := Settled(step, Err(cause))]]
    {
      var _ := repo.UpdateStep(id, step.(finished := true, status := Failed, error := cause));
      Finish(wf, NeedsAttention, StepFailed(step.name, cause));
    }

    method Finish(wf: Row, status: Status, note: Note)
      requires repo.Valid() && wf.id in repo.rows && Updated(repo.rows[wf.id], wf) == wf
      modifies repo`rows
      ensures repo.Valid()
      ensures repo.rows == old(repo.rows)[wf.id := Workflow.Finish(wf, status, note)]
    {
      var _ := repo.Update(wf.(status := status, error := note, finished := true));
    }
  }
}
