/** The merge gate of CLUSTER_PROVISION and CLUSTER_UPGRADE, run message by message: waiting
    changes nothing, and a human merge ends where a Git host that merges at once would. */
module Gates {
  import opened Workflow
  import opened Interpreter
  import opened PullRequestUrl
  import opened ClusterLifecycle
  import opened ProvisionSteps

  const PROVISION_STEPS := [
    "validate-request", "validate-infrastructure", "validate-ip-allocation", "generate-talos-configuration",
    "generate-capi-manifests", "generate-argocd-configuration", "commit-to-git", "create-pull-request",
    "await-pull-request-merge", "wait-for-argocd-sync", "wait-for-cluster-api", "check-talos-health",
    "check-kubernetes-health", "check-cluster-operators", "mark-ready"]

  const UPGRADE_STEPS := [
    "begin-upgrade", "upgrade-control-plane", "upgrade-workers", "commit-capi-upgrade",
    "await-capi-upgrade-merge", "wait-for-cluster-api", "verify-and-mark-ready"]

  function StepNames(kind: Kind): (names: seq<string>)
    ensures |names| == StepCount(kind)
  {
    if kind.Provision? then PROVISION_STEPS else UPGRADE_STEPS
  }

  /** The registered definition, given which calls of each step succeed. */
  function DefinitionOf(kind: Kind, calls: seq<Calls>): (def: Definition<World>)
    requires |calls| == StepCount(kind)
    ensures |def| == StepCount(kind)
  {
    seq(StepCount(kind), i requires 0 <= i < StepCount(kind) =>
      StepDefinition(StepNames(kind)[i], (wf: Row, w: World) => RunStep(kind, i, wf, w, calls[i])))
  }

  lemma {:induction false} ProvisionWaitsIff(i: nat, wf: Row, w: World, c: Calls)
    requires i < 15
    ensures ProvisionStep(i, wf, w, c).0.Await? <==>
              i == 8 && c.load && ReadGate(Provision, w, c).Seen? && ReadGate(Provision, w, c).state != MergedPR
    ensures ProvisionStep(i, wf, w, c).0.Await? ==> ProvisionStep(i, wf, w, c).1 == w
  {
  }

  /** The gate step waits exactly when its pull request can be read and is not merged; no
      other step ever waits. */
  lemma {:induction false} WaitsIff(kind: Kind, i: nat, wf: Row, w: World, c: Calls)
    requires i < StepCount(kind)
    ensures RunStep(kind, i, wf, w, c).0.Await? <==>
            && i == GateStep(kind) && c.load && (kind.Upgrade? ==> w.cluster.capi)
            && ReadGate(kind, w, c).Seen? && ReadGate(kind, w, c).state != MergedPR
    ensures RunStep(kind, i, wf, w, c).0.Await? ==> RunStep(kind, i, wf, w, c).1 == w
  {
    if kind.Provision? {
      ProvisionWaitsIff(i, wf, w, c);
    }
  }

  /** Any number of Resumes while the pull request is unmerged leaves the cluster, the change
      sets, Git, the workflow row and every other step as they were, and adds one attempt each. */
  lemma {:induction false} WaitingChangesNothing(kind: Kind, calls: seq<Calls>, s: Store<World>, n: nat)
    requires |calls| == StepCount(kind) && Paused(DefinitionOf(kind, calls), s, GateStep(kind))
    requires var c := calls[GateStep(kind)];
             && c.load && (kind.Upgrade? ==> s.world.cluster.capi)
             && ReadGate(kind, s.world, c).Seen? && ReadGate(kind, s.world, c).state != MergedPR
    ensures Resumes(DefinitionOf(kind, calls), s, n) == MoreAttempts(s, GateStep(kind), n)
  {
    var k := GateStep(kind);
    WaitsIff(kind, k, s.row.(status := Running), s.world, calls[k]);
    WaitingStutters(DefinitionOf(kind, calls), s, k, n);
  }

  // ------------------------------------------------------------------ opening the gate

  function MergeIn(prs: map<nat, PRState>, numbers: seq<nat>): map<nat, PRState> {
    map n | n in prs :: if n in numbers && prs[n].Open? then MergedPR else prs[n]
  }

  /** Somebody merges the pull request this run opened, and no other. */
  function MergeOwn(w: World): World {
    w.(prs := MergeIn(w.prs, w.mine))
  }

  /** A Git host that merges this run's pull requests as they are opened. */
  function AutoMerging(w: World): World {
    w.(autoMerge := true)
  }

  function OpenGate(w: World): World {
    AutoMerging(MergeOwn(w))
  }

  /** Opening a pull request and then the gate, or the other way round. */
  lemma {:induction false} OpenCommutes(w: World)
    ensures OpenPullRequest(OpenGate(w)) == OpenGate(OpenPullRequest(w))
  {
    assert OpenPullRequest(OpenGate(w)).prs == OpenGate(OpenPullRequest(w)).prs;
  }

  lemma {:induction false} ReadGateOpened(kind: Kind, w: World, c: Calls)
    requires ReadGate(kind, w, c).Unreadable? || ReadGate(kind, w, c).state.MergedPR?
    ensures ReadGate(kind, OpenGate(w), c) == ReadGate(kind, w, c)
  {
  }

  lemma {:induction false} AwaitTransparent(w: World, c: Calls)
    ensures var (o, w') := AwaitMerge(w, c); !o.Await? ==> AwaitMerge(OpenGate(w), c) == (o, OpenGate(w'))
  {
    if !AwaitMerge(w, c).0.Await? {
      ReadGateOpened(Provision, w, c);
    }
  }

  lemma {:induction false} AwaitChangeTransparent(w: World, c: Calls)
    ensures var (o, w') := AwaitChangeMerge(w, c); !o.Await? ==> AwaitChangeMerge(OpenGate(w), c) == (o, OpenGate(w'))
  {
    if !AwaitChangeMerge(w, c).0.Await? {
      ReadGateOpened(Upgrade, w, c);
    }
  }

  lemma {:induction false} OpenStepTransparent(w: World, c: Calls)
    ensures var (o, w') := CreatePullRequest(w, c); CreatePullRequest(OpenGate(w), c) == (o, OpenGate(w'))
  {
    OpenCommutes(w);
  }

  lemma {:induction false} CommitTransparent(wf: Row, w: World, c: Calls)
    ensures var (o, w') := CommitChange(wf, w, c); CommitChange(wf, OpenGate(w), c) == (o, OpenGate(w'))
  {
    OpenCommutes(CommitManifests(wf, w, c, ChangeBranch(w, "upgrade")).1);
  }

  /** The same world with other pull requests on another kind of host. */
  function Elsewhere(w: World, prs: map<nat, PRState>, autoMerge: bool): World {
    w.(prs := prs, autoMerge := autoMerge)
  }

  /** The steps that change the cluster's state look at neither. */
  lemma {:induction false} MovesUnread(i: nat, wf: Row, w: World, c: Calls, prs: map<nat, PRState>, autoMerge: bool)
    requires i == 3 || i == 11 || i == 14
    ensures var (o, w') := ProvisionStep(i, wf, w, c);
            ProvisionStep(i, wf, Elsewhere(w, prs, autoMerge), c) == (o, Elsewhere(w', prs, autoMerge))
  {
  }

  /** Nor do those that change the change sets, apart from the one that opens the pull request
      and the gate. */
  lemma {:induction false} ChangesUnread(i: nat, wf: Row, w: World, c: Calls, prs: map<nat, PRState>, autoMerge: bool)
    requires i == 6 || i == 9 || i == 10
    ensures var (o, w') := ProvisionStep(i, wf, w, c);
            ProvisionStep(i, wf, Elsewhere(w, prs, autoMerge), c) == (o, Elsewhere(w', prs, autoMerge))
  {
  }

  lemma {:induction false} OthersUnread(i: nat, wf: Row, w: World, c: Calls, prs: map<nat, PRState>, autoMerge: bool)
    requires i < 15 && i != 7 && i != 8
    ensures var (o, w') := ProvisionStep(i, wf, w, c);
            ProvisionStep(i, wf, Elsewhere(w, prs, autoMerge), c) == (o, Elsewhere(w', prs, autoMerge))
  {
    if i == 3 || i == 11 || i == 14 {
      MovesUnread(i, wf, w, c, prs, autoMerge);
    } else if i == 6 || i == 9 || i == 10 {
      ChangesUnread(i, wf, w, c, prs, autoMerge);
    }
  }

  /** And they change neither. */
  lemma {:induction false} OthersLeaveGit(i: nat, wf: Row, w: World, c: Calls)
    requires i < 15 && i != 7 && i != 8
    ensures var w' := ProvisionStep(i, wf, w, c).1; w'.prs == w.prs && w'.mine == w.mine && w'.autoMerge == w.autoMerge
  {
    OthersUnread(i, wf, w, c, w.prs, w.autoMerge);
    assert Elsewhere(w, w.prs, w.autoMerge) == w;
  }

  lemma {:induction false} ProvisionTransparent(i: nat, wf: Row, w: World, c: Calls)
    requires i < 15 && !ProvisionStep(i, wf, w, c).0.Await?
    ensures var (o, w') := ProvisionStep(i, wf, w, c); ProvisionStep(i, wf, OpenGate(w), c) == (o, OpenGate(w'))
  {
    if i == 7 {
      OpenStepTransparent(w, c);
    } else if i == 8 {
      AwaitTransparent(w, c);
    } else {
      OthersUnread(i, wf, w, c, MergeIn(w.prs, w.mine), true);
      OthersLeaveGit(i, wf, w, c);
    }
  }

  lemma {:induction false} UpgradeTransparent(i: nat, wf: Row, w: World, c: Calls)
    requires i < 7 && !UpgradeStep(i, wf, w, c).0.Await?
    ensures var (o, w') := UpgradeStep(i, wf, w, c); UpgradeStep(i, wf, OpenGate(w), c) == (o, OpenGate(w'))
  {
    if i == 3 {
      CommitTransparent(wf, w, c);
    } else if i == 4 {
      AwaitChangeTransparent(w, c);
    }
  }

  lemma {:induction false} DefinitionTransparent(kind: Kind, calls: seq<Calls>)
    requires |calls| == StepCount(kind)
    ensures Transparent(DefinitionOf(kind, calls), OpenGate)
  {
    var def := DefinitionOf(kind, calls);
    forall j: nat, wf: Row, w: World | j < |def| ensures TransparentAt(def, OpenGate, j, wf, w) {
      WaitsIff(kind, j, wf, w, calls[j]);
      if !RunStep(kind, j, wf, w, calls[j]).0.Await? {
        if kind.Provision? {
          ProvisionTransparent(j, wf, w, calls[j]);
        } else {
          UpgradeTransparent(j, wf, w, calls[j]);
        }
      }
    }
  }

  /** From the gate on, no step depends on whether the host merges by itself. */
  lemma {:induction false} ProvisionHostIrrelevant(i: nat, wf: Row, w: World, c: Calls)
    requires 8 <= i < 15
    ensures var (o, w') := ProvisionStep(i, wf, w, c);
            ProvisionStep(i, wf, AutoMerging(w), c) == (o, AutoMerging(w'))
  {
    if i > 8 {
      OthersUnread(i, wf, w, c, w.prs, true);
      OthersLeaveGit(i, wf, w, c);
    }
  }

  lemma {:induction false} GateHostIrrelevant(w: World, c: Calls)
    ensures var (o, w') := AwaitChangeMerge(w, c); AwaitChangeMerge(AutoMerging(w), c) == (o, AutoMerging(w'))
  {
    assert ReadGate(Upgrade, AutoMerging(w), c) == ReadGate(Upgrade, w, c);
    if |w.changeSets| > 0 {
      var w' := SetStatus(w, Merged);
      assert SetStatus(AutoMerging(w), Merged) == AutoMerging(w');
      assert SetStatus(AutoMerging(w'), Synced) == AutoMerging(SetStatus(w', Synced));
    }
  }

  lemma {:induction false} UpgradeHostIrrelevant(i: nat, wf: Row, w: World, c: Calls)
    requires 4 <= i < 7
    ensures var (o, w') := UpgradeStep(i, wf, w, c); UpgradeStep(i, wf, AutoMerging(w), c) == (o, AutoMerging(w'))
  {
    if i == 4 {
      GateHostIrrelevant(w, c);
    }
  }

  lemma {:induction false} HostCommutes(kind: Kind, calls: seq<Calls>)
    requires |calls| == StepCount(kind)
    ensures CommutesFrom(DefinitionOf(kind, calls), AutoMerging, GateStep(kind))
  {
    var def := DefinitionOf(kind, calls);
    forall j: nat, wf: Row, w: World | GateStep(kind) <= j < |def| ensures CommutesAt(def, AutoMerging, j, wf, w) {
      if kind.Provision? {
        ProvisionHostIrrelevant(j, wf, w, calls[j]);
      } else {
        UpgradeHostIrrelevant(j, wf, w, calls[j]);
      }
    }
  }

  /** A run that ends waiting is paused at the gate. */
  lemma {:induction false} PausesAtGate(kind: Kind, calls: seq<Calls>, s: Store<World>)
    requires |calls| == StepCount(kind) && Interpreter.Ready(DefinitionOf(kind, calls), s, 0)
    requires Drive(DefinitionOf(kind, calls), s).row.status.AwaitingApproval?
    ensures var def, paused := DefinitionOf(kind, calls), Drive(DefinitionOf(kind, calls), s);
            && Paused(def, paused, GateStep(kind))
            && def[GateStep(kind)].run(paused.row.(status := Running), paused.world) == (Await, paused.world)
  {
    var def, paused := DefinitionOf(kind, calls), Drive(DefinitionOf(kind, calls), s);
    DefinitionTransparent(kind, calls);
    PausedAtGate(def, OpenGate, s);
    var k := paused.row.currentStep;
    WaitsIff(kind, k, paused.row.(status := Running), paused.world, calls[k]);
  }

  /** A new run of the definition in a world where it has opened nothing yet. */
  function NewRun(kind: Kind, id: nat, key: string, w: World): Store<World> {
    Store(NewRow(id, "", key), NewSteps(StepNames(kind)), w)
  }

  lemma {:induction false} NewRunReady(kind: Kind, calls: seq<Calls>, id: nat, key: string, w: World)
    requires |calls| == StepCount(kind)
    ensures Interpreter.Ready(DefinitionOf(kind, calls), NewRun(kind, id, key, w), 0)
  {
  }

  /** A run that waited for a merge, was resumed n times in vain and once after somebody merged
      its own pull request, leaves the same workflow row, the same world and the same step
      rows as a run against a Git host that merges the run's pull request as it is opened,
      except for that host's setting and the n + 1 further attempts of the gate step; for
      every cluster, every history and every fixed result of the external calls. */
  lemma {:induction false} HumanMergeEqualsAutoMerge(kind: Kind, calls: seq<Calls>, id: nat, key: string, w: World, n: nat)
    requires |calls| == StepCount(kind) && w.mine == []
    requires Drive(DefinitionOf(kind, calls), NewRun(kind, id, key, w)).row.status.AwaitingApproval?
    ensures EndsLike(DefinitionOf(kind, calls), NewRun(kind, id, key, w), MergeOwn, AutoMerging, AutoMerging(w),
                     GateStep(kind), n)
  {
    var def, s := DefinitionOf(kind, calls), NewRun(kind, id, key, w);
    NewRunReady(kind, calls, id, key, w);
    PausesAtGate(kind, calls, s);
    DefinitionTransparent(kind, calls);
    HostCommutes(kind, calls);
    GateTriedAgain(def, MergeOwn, AutoMerging, OpenGate, s, GateStep(kind), n);
    assert MergeIn(w.prs, []) == w.prs;
    assert OpenGate(w) == AutoMerging(w);
  }
}
