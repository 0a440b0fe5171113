/** The approval gate in every environment, crashes, lost writes, duplicates and racing handlers
    included: what passing it still guarantees, and exactly when. */
module GateSafety {
  import opened Workflow
  import opened Dispatch
  import opened Delivery
  import opened PullRequestUrl
  import opened ClusterLifecycle
  import opened ProvisionSteps
  import opened Approval

  /** A pull request this run opened has been merged. */
  ghost predicate OwnMerged(w: World) {
    exists n :: n in w.mine && n in w.prs && w.prs[n] == MergedPR
  }

  /** Whether a change set's URL names a pull request that the gate can ever find merged: one
      that exists, or one that others may still open. */
  predicate Mergeable(w: World, url: string) {
    var p := PrNumberFromURL(url);
    p.Number? && p.n >= 0 && (p.n >= w.nextPR || p.n in w.prs)
  }

  /** The latest change set of earlier runs, if there is one, cannot let the gate pass. */
  predicate Harmless(w0: World) {
    |w0.changeSets| > 0 ==> !Mergeable(w0, Latest(w0).url)
  }

  // ------------------------------------------------------------------ worlds, whatever the order of steps

  /** Where the URL of the latest change set comes from. */
  ghost predicate Known(w0: World, w: World, url: string) {
    || url == ""
    || (exists n :: n in w.mine && url == PullURL(w.owner, w.repo, n))
    || (|w0.changeSets| > 0 && url == Latest(w0).url)
  }

  ghost predicate Traced(w0: World, w: World) {
    && w.owner == w0.owner && w.repo == w0.repo && w.cluster == w0.cluster.(state := w.cluster.state)
    && w0.nextPR <= w.nextPR && |w0.changeSets| <= |w.changeSets|
    && (forall n :: n in w.prs ==> n < w.nextPR && (n < w0.nextPR ==> n in w0.prs))
    && (forall n :: n in w.mine ==> n in w.prs && n <= MAX_INT)
    && (|w.changeSets| > 0 ==> Known(w0, w, Latest(w).url))
  }

  /** Pull requests only appear, merges are final, and the run's own stay its own. */
  ghost predicate Later(w: World, w': World) {
    && (forall n :: n in w.mine ==> n in w'.mine)
    && (forall n :: n in w.prs && w.prs[n] == MergedPR ==> n in w'.prs && w'.prs[n] == MergedPR)
  }

  lemma {:induction false} MergeIsFinal(w: World, w': World)
    requires Later(w, w') && OwnMerged(w)
    ensures OwnMerged(w')
  {
    var n :| n in w.mine && n in w.prs && w.prs[n] == MergedPR;
    assert n in w'.mine;
  }

  /** What the gate sees merged is the run's own, unless an earlier run left it a way. */
  lemma {:induction false} GateSeesOwn(kind: Kind, w0: World, w: World, c: Calls)
    requires Traced(w0, w) && Harmless(w0)
    requires ReadGate(kind, w, c).Seen? && ReadGate(kind, w, c).state == MergedPR
    ensures OwnMerged(w)
  {
    var url := Latest(w).url;
    if n :| n in w.mine && url == PullURL(w.owner, w.repo, n) {
      RoundTrip(w.owner, w.repo, n);
    }
  }

  lemma {:induction false} CommitTraced(w0: World, w: World, wf: Row, c: Calls, branch: string)
    requires Traced(w0, w)
    ensures var w' := CommitManifests(wf, w, c, branch).1; Traced(w0, w') && Later(w, w')
  {
  }

  lemma {:induction false} StatusTraced(w0: World, w: World, status: ChangeSetStatus)
    requires Traced(w0, w) && |w.changeSets| > 0
    ensures Traced(w0, SetStatus(w, status)) && Later(w, SetStatus(w, status))
  {
  }

  /** Nothing but the cluster's state is different. */
  predicate OnlyState(w: World, w': World) {
    w' == w.(cluster := w.cluster.(state := w'.cluster.state), saved := w'.saved)
  }

  lemma {:induction false} OnlyStateTraced(w0: World, w: World, w': World)
    requires Traced(w0, w) && OnlyState(w, w')
    ensures Traced(w0, w') && Later(w, w')
  {
    if |w.changeSets| > 0 {
      if n :| n in w.mine && Latest(w).url == PullURL(w.owner, w.repo, n) {
        assert n in w'.mine;
      }
    }
  }

  lemma {:induction false} OpenTraced(w0: World, w: World)
    requires Traced(w0, w) && w.nextPR <= MAX_INT
    ensures Traced(w0, OpenPullRequest(w)) && Later(w, OpenPullRequest(w))
    ensures |w.changeSets| > 0 ==>
              var w' := RecordPullRequest(OpenPullRequest(w), w.nextPR); Traced(w0, w') && Later(w, w')
  {
    var w' := OpenPullRequest(w);
    assert w'.mine[|w.mine|] == w.nextPR;
    if |w.changeSets| > 0 {
      var url := Latest(w).url;
      if n :| n in w.mine && url == PullURL(w.owner, w.repo, n) {
        assert n in w'.mine;
      }
    }
  }

  lemma {:induction false} GateTraced(kind: Kind, w0: World, w: World, c: Calls)
    requires Traced(w0, w)
    ensures var w' := (if kind.Provision? then AwaitMerge(w, c) else AwaitChangeMerge(w, c)).1;
            Traced(w0, w') && Later(w, w')
  {
    if |w.changeSets| > 0 {
      var w' := SetStatus(w, Merged);
      StatusTraced(w0, w, Merged);
      OnlyStateTraced(w0, w', Move(w', Installing));
      StatusTraced(w0, w', Synced);
    }
  }

  lemma {:induction false} ProvisionStateOnly(w: World, i: nat, wf: Row, c: Calls)
    requires i != 6 && i != 7 && i != 8 && i != 9
    ensures OnlyState(w, ProvisionStep(i, wf, w, c).1)
  {
    if i == 3 || i == 11 || i == 14 {
      MovesStateOnly(w, i, wf, c);
    }
  }

  lemma {:induction false} MovesStateOnly(w: World, i: nat, wf: Row, c: Calls)
    requires i == 3 || i == 11 || i == 14
    ensures OnlyState(w, ProvisionStep(i, wf, w, c).1)
  {
    var next := if i == 3 then Bootstrapping else if i == 11 then Configuring else State.Ready;
    assert OnlyState(w, Save(w, next));
    var w' := ProvisionStep(i, wf, w, c).1;
    assert w' == w || w' == Save(w, next);
  }

  lemma {:induction false} ProvisionTraced(w0: World, w: World, i: nat, wf: Row, c: Calls)
    requires Traced(w0, w) && 6 <= i < 10 && i != 8
    ensures var w' := ProvisionStep(i, wf, w, c).1; Traced(w0, w') && Later(w, w')
  {
    if i == 6 {
      CommitTraced(w0, w, wf, c, ProvisionBranch(w));
    } else if i == 7 && CanOpen(w, c) {
      OpenTraced(w0, w);
    } else if i == 9 && |w.changeSets| > 0 {
      StatusTraced(w0, w, Synced);
    }
  }

  lemma {:induction false} UpgradeStateOnly(w: World, i: nat, wf: Row, c: Calls)
    requires i != 3 && i != 4
    ensures OnlyState(w, UpgradeStep(i, wf, w, c).1)
  {
  }

  lemma {:induction false} ChangeTraced(w0: World, w: World, wf: Row, c: Calls)
    requires Traced(w0, w)
    ensures var w' := CommitChange(wf, w, c).1; Traced(w0, w') && Later(w, w')
  {
    var (o, w') := CommitManifests(wf, w, c, ChangeBranch(w, "upgrade"));
    CommitTraced(w0, w, wf, c, ChangeBranch(w, "upgrade"));
    if CanOpen(w', c) {
      OpenTraced(w0, w');
    }
  }

  lemma {:induction false} StepTraced(kind: Kind, w0: World, w: World, i: nat, wf: Row, c: Calls)
    requires Traced(w0, w)
    ensures var w' := RunStep(kind, i, wf, w, c).1; Traced(w0, w') && Later(w, w')
  {
    if i == GateStep(kind) {
      GateTraced(kind, w0, w, c);
    } else if kind.Provision? && 6 <= i < 10 {
      ProvisionTraced(w0, w, i, wf, c);
    } else if kind.Upgrade? && i == 3 {
      ChangeTraced(w0, w, wf, c);
    } else {
      if kind.Provision? {
        ProvisionStateOnly(w, i, wf, c);
      } else {
        UpgradeStateOnly(w, i, wf, c);
      }
      OnlyStateTraced(w0, w, RunStep(kind, i, wf, w, c).1);
    }
  }

  /** A gate step that returns nil has seen its pull request merged. */
  lemma {:induction false} GateOkSawMerge(kind: Kind, w0: World, w: World, wf: Row, c: Calls)
    requires Traced(w0, w) && Harmless(w0) && Gated(kind, w0)
    requires RunStep(kind, GateStep(kind), wf, w, c).0.Ok?
    ensures OwnMerged(w)
  {
    GateSeesOwn(kind, w0, w, c);
  }

  /** A prefix of PROVISIONING's chain is persisted: the lifecycle graph orders the states, no
      matter in which order the steps run. */
  ghost predicate Climbing(w0: World, w: World) {
    && w0.cluster.state.Provisioning? && |w.saved| <= 4
    && w.saved == Chain(Provision, w0)[..|w.saved|]
    && w.cluster.state == StateAt(Provision, w0, |w.saved|)
  }

  /** Persisting a legal next state that is one of the chain's climbs it. */
  lemma {:induction false} SaveClimbs(w0: World, w: World, next: State)
    requires Climbing(w0, w) && CanTransition(w.cluster.state, next) && next in Chain(Provision, w0)
    ensures Climbing(w0, Save(w, next))
    ensures |w.saved| == 1 ==> next == Installing
  {
    assert Chain(Provision, w0)[|w.saved|] == next;
  }

  lemma {:induction false} GateClimbs(w0: World, w: World, c: Calls)
    requires Climbing(w0, w)
    ensures Climbing(w0, AwaitMerge(w, c).1)
    ensures |w.saved| < 2 <= |AwaitMerge(w, c).1.saved| ==> AwaitMerge(w, c).0.Ok?
  {
    if ReadGate(Provision, w, c).Seen? {
      var w' := SetStatus(w, Merged);
      assert Climbing(w0, w') && w'.saved == w.saved;
      if CanTransition(w'.cluster.state, Installing) {
        SaveClimbs(w0, w', Installing);
      }
    }
  }

  lemma {:induction false} MoveClimbs(w0: World, w: World, i: nat, wf: Row, c: Calls)
    requires Climbing(w0, w) && (i == 3 || i == 11 || i == 14)
    ensures Climbing(w0, ProvisionStep(i, wf, w, c).1)
    ensures |ProvisionStep(i, wf, w, c).1.saved| >= 2 ==> |w.saved| >= 2
  {
    var next := if i == 3 then Bootstrapping else if i == 11 then Configuring else State.Ready;
    if CanTransition(w.cluster.state, next) {
      SaveClimbs(w0, w, next);
    }
    var w' := ProvisionStep(i, wf, w, c).1;
    assert w' == w || w' == Save(w, next);
  }

  lemma {:induction false} OthersKeepState(w: World, i: nat, wf: Row, c: Calls)
    requires i != 3 && i != 8 && i != 11 && i != 14
    ensures var w' := ProvisionStep(i, wf, w, c).1; w'.saved == w.saved && w'.cluster == w.cluster
  {
  }

  lemma {:induction false} StepClimbs(w0: World, w: World, i: nat, wf: Row, c: Calls)
    requires Climbing(w0, w)
    ensures Climbing(w0, ProvisionStep(i, wf, w, c).1)
    ensures |w.saved| < 2 <= |ProvisionStep(i, wf, w, c).1.saved| ==> i == 8 && ProvisionStep(i, wf, w, c).0.Ok?
  {
    if i == 8 {
      GateClimbs(w0, w, c);
    } else if i == 3 || i == 11 || i == 14 {
      MoveClimbs(w0, w, i, wf, c);
    } else {
      OthersKeepState(w, i, wf, c);
    }
  }

  // ------------------------------------------------------------------ histories

  /** The gate was passed: its row is SUCCEEDED or about to be, or a provisioned cluster is past
      BOOTSTRAPPING. */
  ghost predicate Passed(kind: Kind, y: System) {
    || (GateStep(kind) < |y.s.steps| && y.s.steps[GateStep(kind)].status.Succeeded?)
    || (exists id :: id in y.s.actors && PassedAt(kind, y.s.actors[id]))
    || (kind.Provision? && |y.w.saved| >= 2)
  }

  predicate PassedAt(kind: Kind, pc: PC) {
    pc.Ran? && pc.step.sequence == GateStep(kind) && pc.outcome.Ok?
  }

  ghost predicate GateInv(kind: Kind, w0: World, y: System) {
    && Traced(w0, y.w)
    && (kind.Provision? ==> Climbing(w0, y.w))
    && (Gated(kind, w0) && Harmless(w0) && Passed(kind, y) ==> OwnMerged(y.w))
  }

  lemma {:induction false} PullRequestsTraced(w0: World, w: World, w': World)
    requires Traced(w0, w) && w' == w.(prs := w'.prs, nextPR := w'.nextPR) && w.nextPR <= w'.nextPR
    requires forall n :: n in w.prs ==> n in w'.prs && (w.prs[n] == MergedPR ==> w'.prs[n] == MergedPR)
    requires forall n :: n in w'.prs ==> n < w'.nextPR && (n < w.nextPR ==> n in w.prs)
    ensures Traced(w0, w') && Later(w, w')
  {
    if |w.changeSets| > 0 {
      if n :| n in w.mine && Latest(w).url == PullURL(w.owner, w.repo, n) {
        assert n in w'.mine;
      }
    }
  }

  lemma {:induction false} PeopleTraced(kind: Kind, env: Env, w0: World, x: System, e: Event)
    requires Traced(w0, x.w) && Possible(kind, env, x, e) && !e.Engine?
    ensures Traced(w0, Occur(kind, env, x, e).w) && Later(x.w, Occur(kind, env, x, e).w)
  {
    PullRequestsTraced(w0, x.w, Occur(kind, env, x, e).w);
  }

  lemma {:induction false} PeopleKeepGate(kind: Kind, env: Env, w0: World, x: System, e: Event)
    requires GateInv(kind, w0, x) && Possible(kind, env, x, e) && !e.Engine?
    ensures GateInv(kind, w0, Occur(kind, env, x, e))
  {
    var y := Occur(kind, env, x, e);
    PeopleTraced(kind, env, w0, x, e);
    assert y.s == x.s && y.w.cluster == x.w.cluster && y.w.saved == x.w.saved;
    if OwnMerged(x.w) {
      MergeIsFinal(x.w, y.w);
    }
  }

  /** No engine transition but a call newly passes the gate. */
  lemma {:induction false} OnlyCallsPass(kind: Kind, x: System, a: Action)
    requires Enabled(x.s, a) && !a.Run?
    ensures Passed(kind, System(Apply(x.s, a), x.w)) ==> Passed(kind, x)
  {
    var t, g := Apply(x.s, a), GateStep(kind);
    forall id | id in t.actors && PassedAt(kind, t.actors[id]) ensures id in x.s.actors && PassedAt(kind, x.s.actors[id]) {
    }
    if a.WriteStep? && x.s.actors[a.id].step.sequence == g && x.s.actors[a.id].outcome.Ok? {
      assert PassedAt(kind, x.s.actors[a.id]);
    }
  }

  /** And of the calls only the gate's own that returns nil. */
  lemma {:induction false} OnlyGatePasses(kind: Kind, env: Env, w0: World, x: System, e: Event)
    requires Possible(kind, env, x, e) && e.Engine? && e.a.Run? && (kind.Provision? ==> Climbing(w0, x.w))
    ensures Passed(kind, Occur(kind, env, x, e)) ==> Passed(kind, x) || (e.a.i == GateStep(kind) && e.a.outcome.Ok?)
  {
    var y := Occur(kind, env, x, e);
    var wf := x.s.actors[e.a.id].wf;
    if kind.Provision? {
      StepClimbs(w0, x.w, e.a.i, wf, e.c);
    }
    forall id | id in y.s.actors && PassedAt(kind, y.s.actors[id])
      ensures (id in x.s.actors && PassedAt(kind, x.s.actors[id])) || (e.a.i == GateStep(kind) && e.a.outcome.Ok?)
    {
    }
  }

  lemma {:induction false} CallKeepsGate(kind: Kind, env: Env, w0: World, x: System, e: Event)
    requires GateInv(kind, w0, x) && Possible(kind, env, x, e) && e.Engine? && e.a.Run?
    ensures GateInv(kind, w0, Occur(kind, env, x, e))
  {
    var y, wf := Occur(kind, env, x, e), x.s.actors[e.a.id].wf;
    StepTraced(kind, w0, x.w, e.a.i, wf, e.c);
    OnlyGatePasses(kind, env, w0, x, e);
    if kind.Provision? {
      StepClimbs(w0, x.w, e.a.i, wf, e.c);
    }
    if Gated(kind, w0) && Harmless(w0) && Passed(kind, y) {
      if !Passed(kind, x) {
        GateOkSawMerge(kind, w0, x.w, wf, e.c);
      }
      MergeIsFinal(x.w, y.w);
    }
  }

  lemma {:induction false} HistoryKeepsGate(kind: Kind, env: Env, y0: System, events: seq<Event>, y: System)
    requires GateInv(kind, y0.w, y0) && History(kind, env, y0, events, y)
    ensures GateInv(kind, y0.w, y)
  {
    if |events| > 0 {
      var before, e := events[..|events| - 1], events[|events| - 1];
      var x :| History(kind, env, y0, before, x) && Happens(kind, env, x, e, y);
      HistoryKeepsGate(kind, env, y0, before, x);
      if !e.Engine? {
        PeopleKeepGate(kind, env, y0.w, x, e);
      } else if e.a.Run? {
        CallKeepsGate(kind, env, y0.w, x, e);
      } else {
        OnlyCallsPass(kind, x, e.a);
      }
    }
  }

  lemma {:induction false} BeginsGate(kind: Kind, y0: System, wf: Row, names: seq<string>)
    requires Begins(kind, y0, wf, names)
    ensures GateInv(kind, y0.w, y0) && !Passed(kind, y0)
  {
  }

  /** In every environment and for every history: a provisioning run persists a prefix of
      BOOTSTRAPPING, INSTALLING, CONFIGURING, READY; and, unless an earlier run left a change
      set whose pull request may pass for its own, the gate row of a run is SUCCEEDED, and a
      provisioned cluster INSTALLING or later, only after a pull request that this run opened
      was merged. */
  lemma {:induction false} ApprovalGate(kind: Kind, env: Env, y0: System, wf: Row, names: seq<string>,
                                        events: seq<Event>, y: System)
    requires Begins(kind, y0, wf, names) && History(kind, env, y0, events, y)
    ensures kind.Provision? ==> Climbing(y0.w, y.w)
    ensures Gated(kind, y0.w) && Harmless(y0.w) && Passed(kind, y) ==> OwnMerged(y.w)
  {
    BeginsGate(kind, y0, wf, names);
    HistoryKeepsGate(kind, env, y0, events, y);
  }
}
