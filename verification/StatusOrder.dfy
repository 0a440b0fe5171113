/** Whether change set statuses only move up COMMITTED, PR_CREATED, MERGED, SYNCED: exactly when,
    in environments with crashes and racing handlers. */
module StatusOrder {
  import opened Workflow
  import opened Dispatch
  import opened Delivery
  import opened PullRequestUrl
  import opened ClusterLifecycle
  import opened ProvisionSteps
  import opened Gates
  import opened Approval
  import opened GateSafety
  import opened GateBypass

  // ------------------------------------------------------------------ steps that are over

  /** Step i has been run: it cannot be claimed again, and nobody is about to run it. */
  ghost predicate Done(s: Sys, i: nat) {
    && i < |s.steps| && !s.steps[i].status.Pending?
    && (forall id :: id in s.actors && s.actors[id].Holding? ==> s.actors[id].step.sequence != i)
    && (forall id :: id in s.actors && s.actors[id].Ran? && s.actors[id].step.sequence == i ==> !s.actors[id].outcome.Await?)
  }

  lemma {:induction false} DoneStays(s: Sys, a: Action, i: nat)
    requires Done(s, i) && Numbered(s.steps) && Enabled(s, a)
    ensures Done(Apply(s, a), i) && (a.Run? ==> a.i != i)
  {
  }

  lemma {:induction false} RunIsDone(s: Sys, a: Action)
    requires Numbered(s.steps) && Ownership(s) && Enabled(s, a) && a.Run? && !a.outcome.Await?
    ensures Done(Apply(s, a), a.i)
  {
    assert s.actors[a.id].Owns(a.i);
    forall id | id in s.actors && s.actors[id].Holding? && s.actors[id].step.sequence == a.i ensures id == a.id {
      assert s.actors[id].Owns(a.i);
    }
    forall id | id in s.actors && s.actors[id].Ran? && s.actors[id].step.sequence == a.i ensures id == a.id {
      assert s.actors[id].Owns(a.i);
    }
  }

  // ------------------------------------------------------------------ the conditions

  /** The earlier run's pull request can be found merged while this run can still open its own. */
  predicate Slips(w0: World, url: string) {
    Mergeable(w0, url) && (PrNumberFromURL(url).n in w0.prs || PrNumberFromURL(url).n < MAX_INT)
  }

  /** What a provisioning run must find: no Argo CD, and a latest change set, if there is one, that
      is not past PR_CREATED and whose pull request cannot let the gate pass too early. What an
      upgrade must find: no SYNCED change set whose pull request lets the gate pass. */
  predicate Steady(kind: Kind, w0: World) {
    if kind.Provision? then
      !w0.cluster.argo && (|w0.changeSets| > 0 ==> Rank(Latest(w0).status) <= 1 && !Slips(w0, Latest(w0).url))
    else
      !(w0.cluster.capi && |w0.changeSets| > 0 && Latest(w0).status.Synced? && Mergeable(w0, Latest(w0).url))
  }

  // ------------------------------------------------------------------ provisioning

  ghost predicate Level(w: World) {
    |w.changeSets| > 0 ==>
      && !Latest(w).status.Synced?
      && (Rank(Latest(w).status) > 1 ==> w.mine != [] || w.nextPR > MAX_INT)
  }

  /** What the gate sees merged is the run's own, or the last number there is. */
  lemma {:induction false} SeenTooLate(w0: World, w: World, c: Calls)
    requires Traced(w0, w) && Steady(Provision, w0)
    requires ReadGate(Provision, w, c).Seen? && ReadGate(Provision, w, c).state == MergedPR
    ensures w.mine != [] || w.nextPR > MAX_INT
  {
    var url := Latest(w).url;
    if w.mine == [] {
      assert url == Latest(w0).url;
      assert PrNumberFromURL(url).n in w.prs;
    }
  }

  lemma {:induction false} CommitLevel(w0: World, w: World, wf: Row, c: Calls, branch: string)
    requires Level(w)
    ensures var w' := CommitManifests(wf, w, c, branch).1; Level(w') && Upward(w, w') && w'.mine == w.mine
  {
  }

  lemma {:induction false} OpenLevel(w: World, c: Calls)
    requires Level(w) && w.mine == []
    ensures var w' := CreatePullRequest(w, c).1; Level(w') && Upward(w, w')
  {
    var w' := CreatePullRequest(w, c).1;
    assert w' == w || w'.mine == [w.nextPR];
  }

  lemma {:induction false} StatusUp(w: World, status: ChangeSetStatus)
    requires |w.changeSets| > 0 && Rank(Latest(w).status) <= Rank(status)
    ensures var w' := SetStatus(w, status); Upward(w, w') && Latest(w').status == status && Latest(w').url == Latest(w).url
    ensures SetStatus(w, status) == w.(changeSets := SetStatus(w, status).changeSets)
  {
  }

  lemma {:induction false} GateLevel(w0: World, w: World, c: Calls)
    requires Traced(w0, w) && Level(w) && Steady(Provision, w0)
    ensures var w' := AwaitMerge(w, c).1; Level(w') && Upward(w, w') && w'.mine == w.mine
  {
    if ReadGate(Provision, w, c).Seen? && ReadGate(Provision, w, c).state == MergedPR {
      SeenTooLate(w0, w, c);
      GateWrites(w, c);
    }
  }

  lemma {:induction false} GateWrites(w: World, c: Calls)
    requires Level(w) && ReadGate(Provision, w, c).Seen? && (w.mine != [] || w.nextPR > MAX_INT)
    ensures var w' := AwaitMerge(w, c).1; Level(w') && Upward(w, w') && w'.mine == w.mine
  {
    var w' := AwaitMerge(w, c).1;
    var merged := SetStatus(w, Merged);
    StatusUp(w, Merged);
    assert w' == w || OnlyState(merged, w');
  }

  lemma {:induction false} CallLevel(w0: World, w: World, i: nat, wf: Row, c: Calls)
    requires Traced(w0, w) && Level(w) && Steady(Provision, w0) && (i == 7 ==> w.mine == [])
    ensures var w' := ProvisionStep(i, wf, w, c).1; Level(w') && Upward(w, w') && (w'.mine != w.mine ==> i == 7)
  {
    if i == 6 {
      CommitLevel(w0, w, wf, c, ProvisionBranch(w));
    } else if i == 7 {
      OpenLevel(w, c);
    } else if i == 8 {
      GateLevel(w0, w, c);
    } else if i != 9 {
      ProvisionStateOnly(w, i, wf, c);
    }
  }

  ghost predicate ProvisionInv(w0: World, y: System) {
    && Numbered(y.s.steps) && Ownership(y.s) && Traced(w0, y.w) && Level(y.w)
    && (y.w.mine != [] ==> Done(y.s, 7))
  }

  lemma {:induction false} ProvisionCall(env: Env, w0: World, x: System, e: Event)
    requires ProvisionInv(w0, x) && Steady(Provision, w0) && Possible(Provision, env, x, e) && e.Engine? && e.a.Run?
    ensures ProvisionInv(w0, Occur(Provision, env, x, e)) && Upward(x.w, Occur(Provision, env, x, e).w)
  {
    var i, wf := e.a.i, x.s.actors[e.a.id].wf;
    OwnershipStep(x.s, e.a);
    StepTraced(Provision, w0, x.w, i, wf, e.c);
    if x.w.mine != [] {
      DoneStays(x.s, e.a, 7);
    }
    CallLevel(w0, x.w, i, wf, e.c);
    if i == 7 {
      WaitsIff(Provision, 7, wf, x.w, e.c);
      RunIsDone(x.s, e.a);
    }
  }

  // ------------------------------------------------------------------ upgrades

  /** An upgrade touches only change sets of its own, except at the gate. */
  ghost predicate OldUrl(w0: World, w: World) {
    |w.changeSets| == |w0.changeSets| > 0 ==> Latest(w).url == Latest(w0).url
  }

  /** A SYNCED latest change set is one the run found, or the gate's own doing. */
  ghost predicate SyncedBy(w0: World, w: World, done: bool) {
    |w.changeSets| > 0 && Latest(w).status.Synced? ==>
      done || (|w.changeSets| == |w0.changeSets| && Latest(w0).status.Synced?)
  }

  lemma {:induction false} ChangeClimbs(w0: World, w: World, wf: Row, c: Calls, done: bool)
    requires |w0.changeSets| <= |w.changeSets| && OldUrl(w0, w) && SyncedBy(w0, w, done)
    ensures var w' := CommitChange(wf, w, c).1; Upward(w, w') && OldUrl(w0, w') && SyncedBy(w0, w', done)
  {
  }

  lemma {:induction false} GateChangeClimbs(w0: World, w: World, c: Calls)
    requires Traced(w0, w) && OldUrl(w0, w) && SyncedBy(w0, w, false) && Steady(Upgrade, w0) && w.cluster.capi
    ensures var w' := AwaitChangeMerge(w, c).1; Upward(w, w') && OldUrl(w0, w') && SyncedBy(w0, w', true)
    ensures AwaitChangeMerge(w, c).0.Await? ==> AwaitChangeMerge(w, c).1 == w
  {
    var g := ReadGate(Upgrade, w, c);
    if g.Seen? && g.state == MergedPR {
      if Latest(w).status.Synced? {
        assert Mergeable(w0, Latest(w0).url);
      }
      StatusUp(w, Merged);
      StatusUp(SetStatus(w, Merged), Synced);
    }
  }

  lemma {:induction false} CallClimbs(w0: World, w: World, i: nat, wf: Row, c: Calls, done: bool)
    requires Traced(w0, w) && OldUrl(w0, w) && SyncedBy(w0, w, done) && Steady(Upgrade, w0) && (i == 4 ==> !done)
    ensures var (o, w') := UpgradeStep(i, wf, w, c);
            Upward(w, w') && OldUrl(w0, w') && SyncedBy(w0, w', done || (i == 4 && !o.Await?))
  {
    if i == 3 {
      ChangeClimbs(w0, w, wf, c, done);
    } else if i == 4 {
      if w.cluster.capi {
        GateChangeClimbs(w0, w, c);
      }
    } else {
      UpgradeStateOnly(w, i, wf, c);
    }
  }

  ghost predicate UpgradeInv(w0: World, y: System) {
    && Numbered(y.s.steps) && Ownership(y.s) && Traced(w0, y.w)
    && OldUrl(w0, y.w) && SyncedBy(w0, y.w, Done(y.s, 4))
  }

  lemma {:induction false} UpgradeCall(env: Env, w0: World, x: System, e: Event)
    requires UpgradeInv(w0, x) && Steady(Upgrade, w0) && Possible(Upgrade, env, x, e) && e.Engine? && e.a.Run?
    ensures UpgradeInv(w0, Occur(Upgrade, env, x, e)) && Upward(x.w, Occur(Upgrade, env, x, e).w)
  {
    var i, wf := e.a.i, x.s.actors[e.a.id].wf;
    OwnershipStep(x.s, e.a);
    StepTraced(Upgrade, w0, x.w, i, wf, e.c);
    if Done(x.s, 4) {
      DoneStays(x.s, e.a, 4);
    }
    CallClimbs(w0, x.w, i, wf, e.c, Done(x.s, 4));
    if i == 4 && !e.a.outcome.Await? {
      RunIsDone(x.s, e.a);
    }
  }

  // ------------------------------------------------------------------ every environment

  ghost predicate OrderInv(kind: Kind, w0: World, y: System) {
    if kind.Provision? then ProvisionInv(w0, y) else UpgradeInv(w0, y)
  }

  lemma {:induction false} OtherEvent(kind: Kind, env: Env, w0: World, x: System, e: Event)
    requires OrderInv(kind, w0, x) && Possible(kind, env, x, e) && !(e.Engine? && e.a.Run?)
    ensures OrderInv(kind, w0, Occur(kind, env, x, e)) && Upward(x.w, Occur(kind, env, x, e).w)
  {
    if e.Engine? {
      OwnershipStep(x.s, e.a);
      var i := if kind.Provision? then 7 else 4;
      if Done(x.s, i) {
        DoneStays(x.s, e.a, i);
      }
    } else {
      PeopleTraced(kind, env, w0, x, e);
    }
  }

  lemma {:induction false} OrderStep(kind: Kind, env: Env, w0: World, x: System, e: Event)
    requires OrderInv(kind, w0, x) && Steady(kind, w0) && Possible(kind, env, x, e)
    ensures OrderInv(kind, w0, Occur(kind, env, x, e)) && Upward(x.w, Occur(kind, env, x, e).w)
  {
    if !(e.Engine? && e.a.Run?) {
      OtherEvent(kind, env, w0, x, e);
    } else if kind.Provision? {
      ProvisionCall(env, w0, x, e);
    } else {
      UpgradeCall(env, w0, x, e);
    }
  }

  lemma {:induction false} OrderRun(kind: Kind, env: Env, y0: System, events: seq<Event>, y: System)
    requires OrderInv(kind, y0.w, y0) && Steady(kind, y0.w) && History(kind, env, y0, events, y)
    ensures OrderInv(kind, y0.w, y)
  {
    if |events| > 0 {
      var before, e := events[..|events| - 1], events[|events| - 1];
      var x :| History(kind, env, y0, before, x) && Happens(kind, env, x, e, y);
      OrderRun(kind, env, y0, before, x);
      OrderStep(kind, env, y0.w, x, e);
    }
  }

  /** In every environment, of a run that finds a steady world: no transition moves a change set's
      status down. */
  lemma {:induction false} StatusesClimb(kind: Kind, env: Env, y0: System, wf: Row, names: seq<string>, x: System,
                                         e: Event, z: System)
    requires Begins(kind, y0, wf, names) && Steady(kind, y0.w)
    requires Attains(kind, env, y0, x) && Happens(kind, env, x, e, z)
    ensures Upward(x.w, z.w)
  {
    var events :| History(kind, env, y0, events, x);
    BeginsGate(kind, y0, wf, names);
    OrderRun(kind, env, y0, events, x);
    OrderStep(kind, env, y0.w, x, e);
  }

  // ------------------------------------------------------------------ the ways to fall

  /** A slow create-pull-request writes PR_CREATED over whatever the latest change set has become. */
  lemma {:induction false} OpenFalls(env: Env, y0: System, x: System) returns (e: Event, z: System)
    requires Racy(env) && Attains(Provision, env, y0, x) && x.s.registered == 15
    requires 8 in x.s.actors && x.s.actors[8].Holding? && x.s.actors[8].step.sequence == 7
    requires |x.w.changeSets| > 0 && Rank(Latest(x.w).status) > 1 && x.w.nextPR <= MAX_INT
    ensures Happens(Provision, env, x, e, z) && !Upward(x.w, z.w)
  {
    e := Engine(Run(8, 7, RunStep(Provision, 7, x.s.actors[8].wf, x.w, WELL).0), WELL);
    z := Occur(Provision, env, x, e);
    var last := |x.w.changeSets| - 1;
    assert z.w == RecordPullRequest(OpenPullRequest(x.w), x.w.nextPR);
    assert Rank(z.w.changeSets[last].status) < Rank(x.w.changeSets[last].status);
  }

  lemma {:induction false} CommitsWell(row: Row, w: World)
    ensures var w' := RunStep(Provision, 6, row, w, WELL).1;
            |w'.changeSets| > 0 && w'.nextPR == w.nextPR && w'.cluster == w.cluster
  {
  }

  lemma {:induction false} SyncsWell(row: Row, w: World)
    requires w.cluster.argo && |w.changeSets| > 0
    ensures var w' := RunStep(Provision, 9, row, w, WELL).1;
            |w'.changeSets| > 0 && w'.nextPR == w.nextPR && Latest(w').status.Synced?
  {
  }

  /** Whatever the cluster's state, a merged pull request makes the gate write MERGED. */
  lemma {:induction false} GateMarks(row: Row, w: World, n: nat)
    requires |w.changeSets| > 0 && PrNumberFromURL(Latest(w).url) == Number(n) && n in w.prs && w.prs[n] == MergedPR
    ensures var (o, w') := RunStep(Provision, 8, row, w, WELL);
            !o.Await? && |w'.changeSets| > 0 && w'.nextPR == w.nextPR && Latest(w').status.Merged?
  {
  }

  lemma {:induction false} CommitsOwn(env: Env, y0: System, wf: Row, names: seq<string>) returns (x: System)
    requires Racy(env) && Begins(Provision, y0, wf, names)
    ensures Attains(Provision, env, y0, x) && Spot(Provision, x, 7)
    ensures |x.w.changeSets| > 0 && x.w.nextPR == y0.w.nextPR && x.w.cluster == y0.w.cluster
  {
    BeginsSpot(Provision, env, y0, wf, names);
    x := HoldUpTo(Provision, env, y0, y0, 0, 6);
    x := ServeWell(Provision, env, y0, x, 6);
    CommitsWell(x.s.row, y0.w);
  }

  /** With Argo CD, wait-for-argocd-sync overtakes it. */
  lemma {:induction false} FallsBehindSync(env: Env, y0: System, wf: Row, names: seq<string>)
    returns (x: System, e: Event, z: System)
    requires Racy(env) && Begins(Provision, y0, wf, names) && y0.w.cluster.argo && y0.w.nextPR <= MAX_INT
    ensures Attains(Provision, env, y0, x) && Happens(Provision, env, x, e, z) && !Upward(x.w, z.w)
  {
    x := CommitsOwn(env, y0, wf, names);
    x := Hold(Provision, env, y0, x, 7);
    x := Hold(Provision, env, y0, x, 8);
    var w := x.w;
    x := ServeWell(Provision, env, y0, x, 9);
    SyncsWell(x.s.row, w);
    e, z := OpenFalls(env, y0, x);
  }

  /** Nothing has been run yet, and a handler holds create-pull-request. */
  lemma {:induction false} HoldsOpen(env: Env, y0: System, wf: Row, names: seq<string>) returns (x: System)
    requires Racy(env) && Begins(Provision, y0, wf, names)
    ensures Attains(Provision, env, y0, x) && Spot(Provision, x, 8) && x.w == y0.w
    ensures 8 in x.s.actors && x.s.actors[8].Holding? && x.s.actors[8].step.sequence == 7
  {
    BeginsSpot(Provision, env, y0, wf, names);
    x := HoldUpTo(Provision, env, y0, y0, 0, 7);
    x := Hold(Provision, env, y0, x, 7);
  }

  /** Without a commit of this run's own, it overwrites an earlier run's MERGED or SYNCED. */
  lemma {:induction false} FallsOnOld(env: Env, y0: System, wf: Row, names: seq<string>)
    returns (x: System, e: Event, z: System)
    requires Racy(env) && Begins(Provision, y0, wf, names) && y0.w.nextPR <= MAX_INT
    requires |y0.w.changeSets| > 0 && Rank(Latest(y0.w).status) > 1
    ensures Attains(Provision, env, y0, x) && Happens(Provision, env, x, e, z) && !Upward(x.w, z.w)
  {
    x := HoldsOpen(env, y0, wf, names);
    e, z := OpenFalls(env, y0, x);
  }

  /** Or the gate has passed on an earlier run's pull request in the meantime. */
  lemma {:induction false} FallsBehindGate(env: Env, y0: System, wf: Row, names: seq<string>)
    returns (x: System, e: Event, z: System)
    requires Racy(env) && Begins(Provision, y0, wf, names) && y0.w.nextPR <= MAX_INT
    requires |y0.w.changeSets| > 0 && Slips(y0.w, Latest(y0.w).url)
    ensures Attains(Provision, env, y0, x) && Happens(Provision, env, x, e, z) && !Upward(x.w, z.w)
  {
    var n := OldNumber(y0.w);
    x := HoldsOpen(env, y0, wf, names);
    x := PeopleMerge(Provision, env, y0, x, n);
    x := GateOvertakes(env, y0, x, n);
    e, z := OpenFalls(env, y0, x);
  }

  lemma {:induction false} GateOvertakes(env: Env, y0: System, x: System, n: nat) returns (y: System)
    requires Racy(env) && Attains(Provision, env, y0, x) && Spot(Provision, x, 8)
    requires |x.w.changeSets| > 0 && PrNumberFromURL(Latest(x.w).url) == Number(n) && n in x.w.prs && x.w.prs[n] == MergedPR
    ensures Attains(Provision, env, y0, y) && Spot(Provision, y, 9) && Still(x, y)
    ensures |y.w.changeSets| > 0 && y.w.nextPR == x.w.nextPR && Latest(y.w).status.Merged?
  {
    forall row ensures !RunStep(Provision, 8, row, x.w, WELL).0.Await? {
      GateMarks(row, x.w, n);
    }
    y := Serve(Provision, env, y0, x, 8, WELL);
    GateMarks(y.s.row, x.w, n);
  }

  /** An upgrade's gate, with no change set of its own to look at, writes MERGED over SYNCED. */
  lemma {:induction false} UpgradeFalls(env: Env, y0: System, wf: Row, names: seq<string>)
    returns (x: System, e: Event, z: System)
    requires Racy(env) && Begins(Upgrade, y0, wf, names) && !Steady(Upgrade, y0.w)
    ensures Attains(Upgrade, env, y0, x) && Happens(Upgrade, env, x, e, z) && !Upward(x.w, z.w)
  {
    BeginsSpot(Upgrade, env, y0, wf, names);
    x := HoldUpTo(Upgrade, env, y0, y0, 0, 4);
    x := Hold(Upgrade, env, y0, x, 4);
    x := PeopleMerge(Upgrade, env, y0, x, OldNumber(y0.w));
    e, z := GateFalls(env, y0, x, OldNumber(y0.w));
  }

  lemma {:induction false} GateFalls(env: Env, y0: System, x: System, n: nat) returns (e: Event, z: System)
    requires Racy(env) && Attains(Upgrade, env, y0, x) && x.s.registered == 7
    requires 5 in x.s.actors && x.s.actors[5].Holding? && x.s.actors[5].step.sequence == 4
    requires x.w.cluster.capi && |x.w.changeSets| > 0 && Latest(x.w).status.Synced?
    requires PrNumberFromURL(Latest(x.w).url) == Number(n) && n in x.w.prs && x.w.prs[n] == MergedPR
    ensures Happens(Upgrade, env, x, e, z) && !Upward(x.w, z.w)
  {
    e := Engine(Run(5, 4, RunStep(Upgrade, 4, x.s.actors[5].wf, x.w, UNSYNCED).0), UNSYNCED);
    z := Occur(Upgrade, env, x, e);
    GateOverwrites(x.s.actors[5].wf, x.w, n);
    var last := |x.w.changeSets| - 1;
    assert Rank(z.w.changeSets[last].status) < Rank(x.w.changeSets[last].status);
  }

  /** Every call succeeds but the Argo CD sync. */
  const UNSYNCED := WELL.(sync := false)

  lemma {:induction false} GateOverwrites(row: Row, w: World, n: nat)
    requires w.cluster.capi && |w.changeSets| > 0
    requires PrNumberFromURL(Latest(w).url) == Number(n) && n in w.prs && w.prs[n] == MergedPR
    ensures RunStep(Upgrade, 4, row, w, UNSYNCED).1 == SetStatus(w, Merged)
  {
  }

  lemma {:induction false} UnsteadyFalls(kind: Kind, env: Env, y0: System, wf: Row, names: seq<string>)
    returns (x: System, e: Event, z: System)
    requires Racy(env) && Begins(kind, y0, wf, names) && !Steady(kind, y0.w)
    requires kind.Provision? ==> y0.w.nextPR <= MAX_INT
    ensures Attains(kind, env, y0, x) && Happens(kind, env, x, e, z) && !Upward(x.w, z.w)
  {
    if kind.Upgrade? {
      x, e, z := UpgradeFalls(env, y0, wf, names);
    } else if y0.w.cluster.argo {
      x, e, z := FallsBehindSync(env, y0, wf, names);
    } else if Rank(Latest(y0.w).status) > 1 {
      x, e, z := FallsOnOld(env, y0, wf, names);
    } else {
      x, e, z := FallsBehindGate(env, y0, wf, names);
    }
  }

  /** With racing handlers or crashes, change set statuses only move up if and only if the run finds
      a steady world. (That a provisioning run finds the pull request numbers used up is left
      aside: then it cannot open one.) */
  lemma {:induction false} StatusesClimbIff(kind: Kind, env: Env, y0: System, wf: Row, names: seq<string>)
    requires Racy(env) && Begins(kind, y0, wf, names)
    requires kind.Provision? ==> y0.w.nextPR <= MAX_INT
    ensures (forall x, e, z :: Attains(kind, env, y0, x) && Happens(kind, env, x, e, z) ==> Upward(x.w, z.w))
            <==> Steady(kind, y0.w)
  {
    if Steady(kind, y0.w) {
      forall x, e, z | Attains(kind, env, y0, x) && Happens(kind, env, x, e, z) ensures Upward(x.w, z.w) {
        StatusesClimb(kind, env, y0, wf, names, x, e, z);
      }
    } else {
      var x, e, z := UnsteadyFalls(kind, env, y0, wf, names);
    }
  }
}
