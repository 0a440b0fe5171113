/** The converse of GateSafety: once handlers may race (a slow worker, a duplicated message, or a
    dead worker and a redelivery), how the gate is passed without a merge, and the exact
    conditions under which it is not. */
module GateBypass {
  import opened Workflow
  import opened Dispatch
  import opened Delivery
  import opened PullRequestUrl
  import opened ClusterLifecycle
  import opened ProvisionSteps
  import opened Approval
  import opened GateSafety
  import opened Gates

  /** Some history of the environment leads from y0 to y. */
  ghost predicate Attains(kind: Kind, env: Env, y0: System, y: System) {
    exists events :: History(kind, env, y0, events, y)
  }

  lemma {:induction false} Stay(kind: Kind, env: Env, y: System)
    ensures Attains(kind, env, y, y)
  {
    assert History(kind, env, y, [], y);
  }

  lemma {:induction false} Go(kind: Kind, env: Env, y0: System, x: System, e: Event) returns (y: System)
    requires Attains(kind, env, y0, x) && Possible(kind, env, x, e)
    ensures y == Occur(kind, env, x, e) && Attains(kind, env, y0, y)
  {
    y := Occur(kind, env, x, e);
    var events :| History(kind, env, y0, events, x);
    var longer := events + [e];
    assert longer[..|longer| - 1] == events && Happens(kind, env, x, e, y);
    assert History(kind, env, y0, longer, y);
  }

  predicate Racy(env: Env) {
    env.Hostile? || env.Racing?
  }

  /** Every call succeeds: the calls of a step that goes well, and of one that fails at once. */
  const WELL := Calls(true, true, true, true, true, true, true, true, Rendered([]), true, true, true, true, Listed([]), Unwired)
  const BADLY := WELL.(load := false)

  // ------------------------------------------------------------------ driving the protocol

  /** Steps before k have been claimed (and run or not), the others are waiting, and the
      handlers so far were numbered up to k. */
  ghost predicate Spot(kind: Kind, x: System, k: nat) {
    && k <= |x.s.steps| == x.s.registered == StepCount(kind) && Numbered(x.s.steps)
    && !x.s.row.status.Terminal()
    && (forall j :: 0 <= j < k ==> !x.s.steps[j].status.Pending?)
    && (forall j :: k <= j < |x.s.steps| ==> x.s.steps[j].status.Pending?)
    && (forall id :: id in x.s.actors ==> id <= k)
  }

  /** The actors there were are still where they were. */
  ghost predicate Still(x: System, y: System) {
    forall id :: id in x.s.actors ==> id in y.s.actors && y.s.actors[id] == x.s.actors[id]
  }

  lemma {:induction false} SpotPending(kind: Kind, x: System, k: nat)
    requires Spot(kind, x, k)
    ensures FirstPending(x.s.steps) == k
  {
    assert k < |x.s.steps| ==> x.s.steps[k].status.Pending?;
  }

  lemma {:induction false} Take(kind: Kind, env: Env, y0: System, x: System, id: nat) returns (y: System)
    requires Racy(env) && Attains(kind, env, y0, x) && id !in x.s.actors
    ensures Attains(kind, env, y0, y) && y == x.(s := x.s.(actors := x.s.actors[id := Received]))
  {
    y := Go(kind, env, y0, x, Engine(Duplicate, WELL));
    y := Go(kind, env, y0, y, Engine(Deliver(id), WELL));
  }

  /** A duplicated message is taken by handler id, up to its claim attempt. */
  lemma {:induction false} Waken(kind: Kind, env: Env, y0: System, x: System, id: nat) returns (y: System)
    requires Racy(env) && Attains(kind, env, y0, x) && id !in x.s.actors && !x.s.row.status.Terminal()
    ensures Attains(kind, env, y0, y)
    ensures y == x.(s := x.s.(row := Started(x.s.row), actors := x.s.actors[id := Marked(Started(x.s.row))]))
  {
    y := Take(kind, env, y0, x, id);
    y := Go(kind, env, y0, y, Engine(Load(id), WELL));
    y := Go(kind, env, y0, y, Engine(Mark(id), WELL));
    var actors := x.s.actors[id := Marked(Started(x.s.row))];
    assert x.s.actors[id := Received][id := Loaded(x.s.row)][id := Marked(Started(x.s.row))] == actors;
  }

  /** A handler claims step k and gets no further for now. */
  lemma {:induction false} Hold(kind: Kind, env: Env, y0: System, x: System, k: nat) returns (y: System)
    requires Racy(env) && Attains(kind, env, y0, x) && Spot(kind, x, k) && k < StepCount(kind)
    ensures Attains(kind, env, y0, y) && Spot(kind, y, k + 1) && y.w == x.w
    ensures y.s.steps == x.s.steps[k := Claimed(x.s.steps[k])]
    ensures k + 1 in y.s.actors && y.s.actors[k + 1] == Holding(y.s.row, y.s.steps[k])
    ensures Still(x, y)
  {
    SpotPending(kind, x, k);
    y := Waken(kind, env, y0, x, k + 1);
    y := Go(kind, env, y0, y, Engine(Claim(k + 1, k), WELL));
  }

  /** A handler claims step k, runs it and stores its result. */
  lemma {:induction false} Serve(kind: Kind, env: Env, y0: System, x: System, k: nat, c: Calls) returns (y: System)
    requires Racy(env) && Attains(kind, env, y0, x) && Spot(kind, x, k) && k < StepCount(kind)
    requires forall row :: !RunStep(kind, k, row, x.w, c).0.Await?
    ensures Attains(kind, env, y0, y) && Spot(kind, y, k + 1)
    ensures y.w == RunStep(kind, k, y.s.row, x.w, c).1
    ensures y.s.steps == x.s.steps[k := Settled(Claimed(x.s.steps[k]), RunStep(kind, k, y.s.row, x.w, c).0)]
    ensures Still(x, y)
  {
    y := Hold(kind, env, y0, x, k);
    var o := RunStep(kind, k, y.s.row, x.w, c).0;
    y := Finish(kind, env, y0, y, k, c);
    assert y.s.steps == x.s.steps[k := Settled(Claimed(x.s.steps[k]), o)];
  }

  /** The handler that holds step k runs it and stores its result. */
  lemma {:induction false} Finish(kind: Kind, env: Env, y0: System, x: System, k: nat, c: Calls) returns (y: System)
    requires Attains(kind, env, y0, x) && Spot(kind, x, k + 1) && k < StepCount(kind)
    requires k + 1 in x.s.actors && x.s.actors[k + 1] == Holding(x.s.row, x.s.steps[k])
    requires !RunStep(kind, k, x.s.row, x.w, c).0.Await?
    ensures Attains(kind, env, y0, y) && Spot(kind, y, k + 1) && y.s.row == x.s.row
    ensures y.w == RunStep(kind, k, x.s.row, x.w, c).1
    ensures y.s.steps == x.s.steps[k := Settled(x.s.steps[k], RunStep(kind, k, x.s.row, x.w, c).0)]
    ensures forall id :: id in x.s.actors && id <= k ==> id in y.s.actors && y.s.actors[id] == x.s.actors[id]
  {
    y := Go(kind, env, y0, x, Engine(Run(k + 1, k, RunStep(kind, k, x.s.row, x.w, c).0), c));
    y := Store(kind, env, y0, y, k);
  }

  lemma {:induction false} Store(kind: Kind, env: Env, y0: System, x: System, k: nat) returns (y: System)
    requires Attains(kind, env, y0, x) && Spot(kind, x, k + 1) && k < StepCount(kind)
    requires k + 1 in x.s.actors && x.s.actors[k + 1].Ran? && x.s.actors[k + 1].step == x.s.steps[k]
    requires !x.s.actors[k + 1].outcome.Await? && !x.s.steps[k].status.Pending?
    ensures Attains(kind, env, y0, y) && Spot(kind, y, k + 1) && y.s.row == x.s.row && y.w == x.w
    ensures y.s.steps == x.s.steps[k := Settled(x.s.steps[k], x.s.actors[k + 1].outcome)]
    ensures forall id :: id in x.s.actors && id <= k ==> id in y.s.actors && y.s.actors[id] == x.s.actors[id]
  {
    y := Go(kind, env, y0, x, Engine(WriteStep(k + 1), WELL));
  }

  /** Handlers claim the steps from a up to b, and none gets any further. */
  lemma {:induction false} HoldUpTo(kind: Kind, env: Env, y0: System, x: System, a: nat, b: nat) returns (y: System)
    requires Racy(env) && Attains(kind, env, y0, x) && Spot(kind, x, a) && a <= b <= StepCount(kind)
    ensures Attains(kind, env, y0, y) && Spot(kind, y, b) && y.w == x.w
    ensures forall j :: 0 <= j < a ==> y.s.steps[j] == x.s.steps[j]
    ensures forall j :: a <= j < b ==> y.s.steps[j].status.Running?
    ensures Still(x, y)
    decreases b
  {
    if a == b {
      y := x;
    } else {
      var z := HoldUpTo(kind, env, y0, x, a, b - 1);
      y := Hold(kind, env, y0, z, b - 1);
    }
  }

  /** A handler that finds nothing left to claim declares the workflow SUCCEEDED. */
  lemma {:induction false} Declare(kind: Kind, env: Env, y0: System, x: System) returns (y: System)
    requires Racy(env) && Attains(kind, env, y0, x) && Spot(kind, x, StepCount(kind))
    ensures Attains(kind, env, y0, y) && y.w == x.w && y.s.steps == x.s.steps && y.s.row.status.Succeeded?
  {
    SpotPending(kind, x, StepCount(kind));
    y := Waken(kind, env, y0, x, StepCount(kind) + 1);
    y := NoneLeft(kind, env, y0, y, StepCount(kind) + 1);
  }

  lemma {:induction false} NoneLeft(kind: Kind, env: Env, y0: System, x: System, id: nat) returns (y: System)
    requires Attains(kind, env, y0, x) && id in x.s.actors && x.s.actors[id].Marked?
    requires FirstPending(x.s.steps) == |x.s.steps|
    ensures Attains(kind, env, y0, y) && y.w == x.w && y.s.steps == x.s.steps && y.s.row.status.Succeeded?
  {
    y := Go(kind, env, y0, x, Engine(ClaimNone(id), WELL));
    y := Go(kind, env, y0, y, Engine(WriteRow(id), WELL));
  }

  /** People merge pull request n, which they reopen or even open first if need be. */
  lemma {:induction false} PeopleMerge(kind: Kind, env: Env, y0: System, x: System, n: nat) returns (y: System)
    requires Attains(kind, env, y0, x) && (n in x.w.prs || n >= x.w.nextPR)
    ensures Attains(kind, env, y0, y) && y.s == x.s
    ensures y.w == x.w.(prs := y.w.prs, nextPR := y.w.nextPR) && n in y.w.prs && y.w.prs[n] == MergedPR
    ensures y.w.nextPR == if n in x.w.prs then x.w.nextPR else n + 1
    decreases if n in x.w.prs then 0 else n - x.w.nextPR + 1
  {
    if n !in x.w.prs {
      y := Go(kind, env, y0, x, OthersOpen);
      y := PeopleMerge(kind, env, y0, y, n);
    } else {
      y := x;
      if y.w.prs[n].Closed? {
        y := Go(kind, env, y0, y, Reopen(n));
      }
      if y.w.prs[n].Open? {
        y := Go(kind, env, y0, y, Merge(n));
      }
    }
  }

  lemma {:induction false} BeginsSpot(kind: Kind, env: Env, y0: System, wf: Row, names: seq<string>)
    requires Begins(kind, y0, wf, names)
    ensures Spot(kind, y0, 0) && Attains(kind, env, y0, y0)
  {
    Stay(kind, env, y0);
  }

  // ------------------------------------------------------------------ steps that go well

  /** A gate whose pull request is merged passes. */
  lemma {:induction false} GatePasses(kind: Kind, row: Row, w: World, n: nat)
    requires |w.changeSets| > 0 && PrNumberFromURL(Latest(w).url) == Number(n) && n in w.prs && w.prs[n] == MergedPR
    requires if kind.Provision? then w.cluster.state == Bootstrapping else w.cluster.capi
    ensures var (o, w') := RunStep(kind, GateStep(kind), row, w, WELL);
            o.Ok? && w'.mine == w.mine && w'.saved == if kind.Provision? then w.saved + [Installing] else w.saved
  {
  }

  lemma {:induction false} Bootstraps(row: Row, w: World)
    requires w.cluster.state == Provisioning
    ensures var (o, w') := RunStep(Provision, 3, row, w, WELL); o.Ok? && w' == Save(w, Bootstrapping)
  {
  }

  lemma {:induction false} UpgradeMoves(row: Row, w: World)
    ensures w.cluster.state == State.Ready ==>
              var (o, w') := RunStep(Upgrade, 0, row, w, WELL); o.Ok? && w' == Save(w, State.Upgrading)
    ensures w.cluster.state == State.Upgrading ==>
              var (o, w') := RunStep(Upgrade, 6, row, w, WELL); o.Ok? && w' == Save(w, State.Ready)
  {
  }

  lemma {:induction false} UpgradeOpens(row: Row, w: World)
    requires w.cluster.capi && !w.autoMerge && w.nextPR <= MAX_INT
    ensures var (o, w') := RunStep(Upgrade, 3, row, w, WELL);
            && o.Ok? && w'.cluster == w.cluster && w'.saved == w.saved
            && w'.mine == w.mine + [w.nextPR] && w'.prs == w.prs[w.nextPR := PRState.Open]
  {
  }

  // ------------------------------------------------------------------ an earlier run's pull request

  function OldNumber(w0: World): nat
    requires !Harmless(w0)
  {
    PrNumberFromURL(Latest(w0).url).n
  }

  /** A handler claims and runs the gate, whose pull request is merged. */
  lemma {:induction false} ServeGate(kind: Kind, env: Env, y0: System, x: System, n: nat) returns (y: System)
    requires Racy(env) && Attains(kind, env, y0, x) && Spot(kind, x, GateStep(kind))
    requires |x.w.changeSets| > 0 && PrNumberFromURL(Latest(x.w).url) == Number(n) && n in x.w.prs && x.w.prs[n] == MergedPR
    requires if kind.Provision? then x.w.cluster.state == Bootstrapping else x.w.cluster.capi
    ensures Attains(kind, env, y0, y) && Spot(kind, y, GateStep(kind) + 1)
    ensures y.s.steps[GateStep(kind)].status.Succeeded? && y.w.mine == x.w.mine
    ensures y.w.saved == if kind.Provision? then x.w.saved + [Installing] else x.w.saved
  {
    forall row ensures !RunStep(kind, GateStep(kind), row, x.w, WELL).0.Await? {
      GatePasses(kind, row, x.w, n);
    }
    y := Serve(kind, env, y0, x, GateStep(kind), WELL);
    GatePasses(kind, y.s.row, x.w, n);
  }

  /** A handler claims and runs a step that never waits. */
  lemma {:induction false} ServeWell(kind: Kind, env: Env, y0: System, x: System, k: nat) returns (y: System)
    requires Racy(env) && Attains(kind, env, y0, x) && Spot(kind, x, k) && k < StepCount(kind) && k != GateStep(kind)
    ensures Attains(kind, env, y0, y) && Spot(kind, y, k + 1)
    ensures y.w == RunStep(kind, k, y.s.row, x.w, WELL).1
    ensures forall j :: 0 <= j < |x.s.steps| && j != k ==> y.s.steps[j] == x.s.steps[j]
    ensures Still(x, y)
  {
    forall row ensures !RunStep(kind, k, row, x.w, WELL).0.Await? {
      WaitsIff(kind, k, row, x.w, WELL);
    }
    y := Serve(kind, env, y0, x, k, WELL);
  }

  /** If an earlier run left a change set that can pass, the steps that commit and open the pull
      request need only be slow: the gate reads the old one. */
  lemma {:induction false} ProvisionSlips(env: Env, y0: System, wf: Row, names: seq<string>) returns (y: System)
    requires Racy(env) && Begins(Provision, y0, wf, names) && !Harmless(y0.w)
    ensures Attains(Provision, env, y0, y) && |y.w.saved| == 2 && y.w.mine == []
  {
    BeginsSpot(Provision, env, y0, wf, names);
    y := HoldUpTo(Provision, env, y0, y0, 0, 3);
    y := ServeWell(Provision, env, y0, y, 3);
    Bootstraps(y.s.row, y0.w);
    y := HoldUpTo(Provision, env, y0, y, 4, 8);
    y := PeopleMerge(Provision, env, y0, y, OldNumber(y0.w));
    y := ServeGate(Provision, env, y0, y, OldNumber(y0.w));
  }

  /** With racing handlers or crashes, the cluster of a provisioning run gets past BOOTSTRAPPING
      only after a merge of a pull request of its own if and only if the latest change set
      that the run found was harmless. */
  lemma {:induction false} ProvisionGateIff(env: Env, y0: System, wf: Row, names: seq<string>)
    requires Racy(env) && Begins(Provision, y0, wf, names)
    ensures (forall y :: Attains(Provision, env, y0, y) && |y.w.saved| >= 2 ==> OwnMerged(y.w)) <==> Harmless(y0.w)
  {
    if Harmless(y0.w) {
      forall y | Attains(Provision, env, y0, y) && |y.w.saved| >= 2 ensures OwnMerged(y.w) {
        var events :| History(Provision, env, y0, events, y);
        ApprovalGate(Provision, env, y0, wf, names, events, y);
      }
    } else {
      var y := ProvisionSlips(env, y0, wf, names);
      assert !OwnMerged(y.w);
    }
  }

  // ------------------------------------------------------------------ the upgrade's last step

  /** The next claim takes verify-and-mark-ready. */
  ghost predicate LastStepNext(y: System) {
    FirstPending(y.s.steps) == 6
  }

  lemma {:induction false} UpgradeSlipsRunning(env: Env, y0: System, wf: Row, names: seq<string>) returns (y: System)
    requires Racy(env) && Begins(Upgrade, y0, wf, names)
    ensures Attains(Upgrade, env, y0, y) && LastStepNext(y) && y.s.steps[4].status.Running? && y.w.mine == []
  {
    BeginsSpot(Upgrade, env, y0, wf, names);
    y := HoldUpTo(Upgrade, env, y0, y0, 0, 6);
    SpotPending(Upgrade, y, 6);
  }

  lemma {:induction false} UpgradeSlipsFailed(env: Env, y0: System, wf: Row, names: seq<string>) returns (y: System)
    requires Racy(env) && Begins(Upgrade, y0, wf, names)
    ensures Attains(Upgrade, env, y0, y) && LastStepNext(y) && y.s.steps[4].status.Failed? && y.w.mine == []
  {
    BeginsSpot(Upgrade, env, y0, wf, names);
    y := HoldUpTo(Upgrade, env, y0, y0, 0, 4);
    y := Serve(Upgrade, env, y0, y, 4, BADLY);
    y := HoldUpTo(Upgrade, env, y0, y, 5, 6);
    SpotPending(Upgrade, y, 6);
  }

  lemma {:induction false} UpgradeSlipsOld(env: Env, y0: System, wf: Row, names: seq<string>) returns (y: System)
    requires Racy(env) && Begins(Upgrade, y0, wf, names) && y0.w.cluster.capi && !Harmless(y0.w)
    ensures Attains(Upgrade, env, y0, y) && LastStepNext(y) && y.s.steps[4].status.Succeeded? && y.w.mine == []
  {
    BeginsSpot(Upgrade, env, y0, wf, names);
    y := HoldUpTo(Upgrade, env, y0, y0, 0, 4);
    y := PeopleMerge(Upgrade, env, y0, y, OldNumber(y0.w));
    y := ServeGate(Upgrade, env, y0, y, OldNumber(y0.w));
    y := HoldUpTo(Upgrade, env, y0, y, 5, 6);
    SpotPending(Upgrade, y, 6);
  }

  /** What the claim of the upgrade's last step would have to look at. When that claim is next,
      the gate's row can be in three statuses; it guarantees a merge of a pull request of the
      run's own exactly when it is SUCCEEDED, given a harmless latest change set. */
  lemma {:induction false} UpgradeGateIff(env: Env, y0: System, wf: Row, names: seq<string>, gate: Status)
    requires Racy(env) && Begins(Upgrade, y0, wf, names) && y0.w.cluster.capi
    requires gate.Running? || gate.Failed? || gate.Succeeded?
    ensures (forall y :: Attains(Upgrade, env, y0, y) && LastStepNext(y) && y.s.steps[4].status == gate ==> OwnMerged(y.w))
            <==> gate.Succeeded? && Harmless(y0.w)
  {
    if gate.Succeeded? && Harmless(y0.w) {
      forall y | Attains(Upgrade, env, y0, y) && LastStepNext(y) && y.s.steps[4].status == gate ensures OwnMerged(y.w) {
        var events :| History(Upgrade, env, y0, events, y);
        ApprovalGate(Upgrade, env, y0, wf, names, events, y);
      }
    } else {
      var y;
      if gate.Running? {
        y := UpgradeSlipsRunning(env, y0, wf, names);
      } else if gate.Failed? {
        y := UpgradeSlipsFailed(env, y0, wf, names);
      } else {
        y := UpgradeSlipsOld(env, y0, wf, names);
      }
      assert !OwnMerged(y.w);
    }
  }

  /** UPGRADING is persisted and the run's own pull request is open. */
  lemma {:induction false} UpgradeOpensOwn(env: Env, y0: System, wf: Row, names: seq<string>) returns (y: System)
    requires Racy(env) && Begins(Upgrade, y0, wf, names) && y0.w.cluster.capi
    requires y0.w.cluster.state == State.Ready && !y0.w.autoMerge && y0.w.nextPR <= MAX_INT
    ensures Attains(Upgrade, env, y0, y) && Spot(Upgrade, y, 4)
    ensures y.w.saved == [State.Upgrading] && y.w.cluster.state == State.Upgrading
    ensures y.w.mine == [y0.w.nextPR] && y0.w.nextPR in y.w.prs && y.w.prs[y0.w.nextPR] == PRState.Open
  {
    BeginsSpot(Upgrade, env, y0, wf, names);
    y := ServeWell(Upgrade, env, y0, y0, 0);
    UpgradeMoves(y.s.row, y0.w);
    y := HoldUpTo(Upgrade, env, y0, y, 1, 3);
    var w := y.w;
    y := ServeWell(Upgrade, env, y0, y, 3);
    UpgradeOpens(y.s.row, w);
  }

  /** And no claim looks at it: every upgrade of a READY, CAPI-managed cluster has a history that
      persists READY again and ends SUCCEEDED while its own pull request is open and the gate
      step is still running. */
  lemma {:induction false} UpgradeBypassesGate(env: Env, y0: System, wf: Row, names: seq<string>) returns (y: System)
    requires Racy(env) && Begins(Upgrade, y0, wf, names) && y0.w.cluster.capi
    requires y0.w.cluster.state == State.Ready && !y0.w.autoMerge && y0.w.nextPR <= MAX_INT
    ensures Attains(Upgrade, env, y0, y) && |y.s.steps| == StepCount(Upgrade)
    ensures y.w.saved == [State.Upgrading, State.Ready] && y.w.cluster.state == State.Ready && y.s.row.status.Succeeded?
    ensures y.s.steps[4].status.Running?
    ensures y.w.mine == [y0.w.nextPR] && y0.w.nextPR in y.w.prs && y.w.prs[y0.w.nextPR] == PRState.Open
  {
    y := UpgradeOpensOwn(env, y0, wf, names);
    y := HoldUpTo(Upgrade, env, y0, y, 4, 6);
    var w := y.w;
    y := ServeWell(Upgrade, env, y0, y, 6);
    UpgradeMoves(y.s.row, w);
    y := Declare(Upgrade, env, y0, y);
  }
}
