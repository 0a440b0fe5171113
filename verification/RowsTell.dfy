/** What a row found in the database tells in every environment: a change set of this run about
    its pull request, and the row of the last step about the cluster. */
module RowsTell {
  import opened Workflow
  import opened Dispatch
  import opened Delivery
  import opened PullRequestUrl
  import opened ClusterLifecycle
  import opened ProvisionSteps
  import opened Gates
  import opened Approval
  import opened GateSafety
  import opened GateBypass

  // ------------------------------------------------------------------ one identity

  /** The row and all copies of it carry the workflow's id. */
  ghost predicate SameId(s: Sys, id: nat) {
    s.row.id == id && forall a :: a in s.actors ==> PCId(s.actors[a], id)
  }

  predicate PCId(pc: PC, id: nat) {
    match pc
    case Received | Publishing | Returning => true
    case _ => pc.wf.id == id
  }

  lemma {:induction false} SameIdStep(s: Sys, a: Action, id: nat)
    requires SameId(s, id) && Enabled(s, a)
    ensures SameId(Apply(s, a), id)
  {
  }

  // ------------------------------------------------------------------ change sets of this run

  /** The statuses that only a gate writes: SYNCED too, when upgrading. */
  predicate Marked(kind: Kind, status: ChangeSetStatus) {
    status.Merged? || (kind.Upgrade? && status.Synced?)
  }

  ghost predicate OwnUrl(w: World, url: string) {
    url == "" || exists n :: n in w.mine && url == PullURL(w.owner, w.repo, n)
  }

  /** Change sets beyond the first n are this run's; the latest of them names only pull requests of
      its own, and is marked only if one of these was merged. */
  ghost predicate OwnSets(kind: Kind, w: World, n: nat, id: nat) {
    && n <= |w.changeSets|
    && (forall n :: n in w.mine ==> n in w.prs && n <= MAX_INT)
    && (forall j :: n <= j < |w.changeSets| ==> w.changeSets[j].workflow == id)
    && (|w.changeSets| > n ==> OwnUrl(w, Latest(w).url))
    && (|w.changeSets| > n && Marked(kind, Latest(w).status) ==> OwnMerged(w))
  }

  /** What earlier runs recorded keeps its origin. */
  ghost predicate SameOrigins(w: World, w': World, n: nat) {
    && n <= |w.changeSets| && n <= |w'.changeSets|
    && forall j :: 0 <= j < n ==> w'.changeSets[j].workflow == w.changeSets[j].workflow
  }

  lemma {:induction false} OriginsCompose(w: World, w': World, w'': World, n: nat)
    requires SameOrigins(w, w', n) && SameOrigins(w', w'', n)
    ensures SameOrigins(w, w'', n)
  {
    forall j | 0 <= j < n ensures w''.changeSets[j].workflow == w.changeSets[j].workflow {
      assert w''.changeSets[j].workflow == w'.changeSets[j].workflow;
    }
  }

  lemma {:induction false} UrlStays(w: World, w': World)
    requires |w.changeSets| > 0 && OwnUrl(w, Latest(w).url) && w'.owner == w.owner && w'.repo == w.repo && Later(w, w')
    ensures OwnUrl(w', Latest(w).url)
  {
    if n :| n in w.mine && Latest(w).url == PullURL(w.owner, w.repo, n) {
      assert n in w'.mine;
    }
  }

  lemma {:induction false} CommitOwn(kind: Kind, w: World, n: nat, wf: Row, c: Calls, branch: string)
    requires OwnSets(kind, w, n, wf.id)
    ensures var w' := CommitManifests(wf, w, c, branch).1; OwnSets(kind, w', n, wf.id) && SameOrigins(w, w', n)
  {
    var w' := CommitManifests(wf, w, c, branch).1;
    if w'.changeSets == w.changeSets {
      assert w' == w.(commits := w'.commits);
      if OwnMerged(w) {
        MergeIsFinal(w, w');
      }
    }
  }

  /** The latest change set's status or URL is written. */
  lemma {:induction false} WriteOwn(kind: Kind, w: World, w': World, n: nat, id: nat)
    requires OwnSets(kind, w, n, id) && |w.changeSets| > 0 && Later(w, w')
    requires w' == w.(changeSets := w'.changeSets, prs := w'.prs, mine := w'.mine, nextPR := w'.nextPR,
                      cluster := w'.cluster, saved := w'.saved)
    requires |w'.changeSets| == |w.changeSets| && Latest(w').workflow == Latest(w).workflow
    requires w'.changeSets == w.changeSets[|w.changeSets| - 1 := Latest(w')]
    requires forall m :: m in w'.mine ==> m in w'.prs && m <= MAX_INT
    requires Latest(w').url == Latest(w).url || OwnUrl(w', Latest(w').url)
    requires Marked(kind, Latest(w').status) && |w.changeSets| > n ==> Marked(kind, Latest(w).status) || OwnMerged(w)
    ensures OwnSets(kind, w', n, id) && SameOrigins(w, w', n)
  {
    if |w.changeSets| > n {
      UrlStays(w, w');
      if OwnMerged(w) {
        MergeIsFinal(w, w');
      }
    }
  }

  lemma {:induction false} OpenOwn(kind: Kind, w: World, n: nat, id: nat, recorded: bool)
    requires OwnSets(kind, w, n, id) && |w.changeSets| > 0 && w.nextPR <= MAX_INT
    requires forall m :: m in w.prs ==> m < w.nextPR
    ensures var w' := if recorded then RecordPullRequest(OpenPullRequest(w), w.nextPR) else OpenPullRequest(w);
            OwnSets(kind, w', n, id) && SameOrigins(w, w', n)
  {
    var w' := if recorded then RecordPullRequest(OpenPullRequest(w), w.nextPR) else OpenPullRequest(w);
    assert w'.mine[|w.mine|] == w.nextPR;
    WriteOwn(kind, w, w', n, id);
  }

  /** A gate that sees the pull request of an own change set merged has seen an own merge. */
  lemma {:induction false} GateSeesOwnSet(kind: Kind, w: World, n: nat, id: nat, c: Calls)
    requires OwnSets(kind, w, n, id) && |w.changeSets| > n
    requires ReadGate(kind, w, c).Seen? && ReadGate(kind, w, c).state == MergedPR
    ensures OwnMerged(w)
  {
    if m :| m in w.mine && Latest(w).url == PullURL(w.owner, w.repo, m) {
      RoundTrip(w.owner, w.repo, m);
    }
  }

  lemma {:induction false} ProvisionGateOwn(w: World, n: nat, id: nat, c: Calls)
    requires OwnSets(Provision, w, n, id)
    ensures var w' := AwaitMerge(w, c).1; OwnSets(Provision, w', n, id) && SameOrigins(w, w', n)
  {
    var w', g := AwaitMerge(w, c).1, ReadGate(Provision, w, c);
    if g.Seen? && g.state == MergedPR && c.update {
      if |w.changeSets| > n {
        GateSeesOwnSet(Provision, w, n, id, c);
      }
      assert OnlyState(SetStatus(w, Merged), w');
      WriteOwn(Provision, w, w', n, id);
    }
  }

  lemma {:induction false} UpgradeGateOwn(w: World, n: nat, id: nat, c: Calls)
    requires OwnSets(Upgrade, w, n, id)
    ensures var w' := AwaitChangeMerge(w, c).1; OwnSets(Upgrade, w', n, id) && SameOrigins(w, w', n)
  {
    var w', g := AwaitChangeMerge(w, c).1, ReadGate(Upgrade, w, c);
    if g.Seen? && g.state == MergedPR && c.update {
      if |w.changeSets| > n {
        GateSeesOwnSet(Upgrade, w, n, id, c);
      }
      assert w' == SetStatus(w, Merged) || w' == SetStatus(SetStatus(w, Merged), Synced);
      WriteOwn(Upgrade, w, w', n, id);
    }
  }

  /** A step that leaves change sets and Git alone. */
  lemma {:induction false} StateOwn(kind: Kind, w: World, w': World, n: nat, id: nat)
    requires OwnSets(kind, w, n, id) && OnlyState(w, w')
    ensures OwnSets(kind, w', n, id) && SameOrigins(w, w', n)
  {
    if |w.changeSets| > n {
      UrlStays(w, w');
    }
    if OwnMerged(w) {
      MergeIsFinal(w, w');
    }
  }

  lemma {:induction false} ProvisionOwn(w0: World, w: World, i: nat, n: nat, wf: Row, c: Calls)
    requires OwnSets(Provision, w, n, wf.id) && Traced(w0, w)
    ensures var w' := ProvisionStep(i, wf, w, c).1; OwnSets(Provision, w', n, wf.id) && SameOrigins(w, w', n)
  {
    var w' := ProvisionStep(i, wf, w, c).1;
    if i == 6 {
      CommitOwn(Provision, w, n, wf, c, ProvisionBranch(w));
    } else if i == 7 {
      ProvisionOpenOwn(w0, w, n, wf.id, c);
    } else if i == 8 {
      ProvisionGateOwn(w, n, wf.id, c);
    } else if i == 9 {
      SyncOwn(w, n, wf.id, c);
    } else {
      ProvisionStateOnly(w, i, wf, c);
      StateOwn(Provision, w, w', n, wf.id);
    }
  }

  lemma {:induction false} ProvisionOpenOwn(w0: World, w: World, n: nat, id: nat, c: Calls)
    requires OwnSets(Provision, w, n, id) && Traced(w0, w)
    ensures var w' := CreatePullRequest(w, c).1; OwnSets(Provision, w', n, id) && SameOrigins(w, w', n)
  {
    var w' := CreatePullRequest(w, c).1;
    if w' != w && |w.changeSets| > 0 {
      OpenOwn(Provision, w, n, id, c.list && c.update);
    }
  }

  lemma {:induction false} SyncOwn(w: World, n: nat, id: nat, c: Calls)
    requires OwnSets(Provision, w, n, id)
    ensures var w' := WaitForArgoCD(w, c).1; OwnSets(Provision, w', n, id) && SameOrigins(w, w', n)
  {
    var w' := WaitForArgoCD(w, c).1;
    if w' != w {
      WriteOwn(Provision, w, w', n, id);
    }
  }

  lemma {:induction false} ChangeOwn(w0: World, w: World, n: nat, wf: Row, c: Calls)
    requires OwnSets(Upgrade, w, n, wf.id) && Traced(w0, w)
    ensures var w' := CommitChange(wf, w, c).1; OwnSets(Upgrade, w', n, wf.id) && SameOrigins(w, w', n)
  {
    var (o, mid) := CommitManifests(wf, w, c, ChangeBranch(w, "upgrade"));
    CommitOwn(Upgrade, w, n, wf, c, ChangeBranch(w, "upgrade"));
    if o.Ok? && CanOpen(mid, c) {
      CommitTraced(w0, w, wf, c, ChangeBranch(w, "upgrade"));
      OpenOwn(Upgrade, mid, n, wf.id, c.update);
      OriginsCompose(w, mid, CommitChange(wf, w, c).1, n);
    }
  }

  lemma {:induction false} UpgradeOwn(w0: World, w: World, i: nat, n: nat, wf: Row, c: Calls)
    requires OwnSets(Upgrade, w, n, wf.id) && Traced(w0, w)
    ensures var w' := UpgradeStep(i, wf, w, c).1; OwnSets(Upgrade, w', n, wf.id) && SameOrigins(w, w', n)
  {
    if i == 3 {
      ChangeOwn(w0, w, n, wf, c);
    } else if i == 4 {
      UpgradeGateOwn(w, n, wf.id, c);
    } else {
      UpgradeStateOnly(w, i, wf, c);
      StateOwn(Upgrade, w, UpgradeStep(i, wf, w, c).1, n, wf.id);
    }
  }

  ghost predicate TellInv(kind: Kind, w0: World, id: nat, y: System) {
    && SameId(y.s, id) && Traced(w0, y.w)
    && OwnSets(kind, y.w, |w0.changeSets|, id) && SameOrigins(w0, y.w, |w0.changeSets|)
  }

  lemma {:induction false} TellCall(kind: Kind, env: Env, w0: World, id: nat, x: System, e: Event)
    requires TellInv(kind, w0, id, x) && Possible(kind, env, x, e) && e.Engine? && e.a.Run?
    ensures TellInv(kind, w0, id, Occur(kind, env, x, e))
  {
    var wf, n := x.s.actors[e.a.id].wf, |w0.changeSets|;
    SameIdStep(x.s, e.a, id);
    StepTraced(kind, w0, x.w, e.a.i, wf, e.c);
    if kind.Provision? {
      ProvisionOwn(w0, x.w, e.a.i, n, wf, e.c);
    } else {
      UpgradeOwn(w0, x.w, e.a.i, n, wf, e.c);
    }
    OriginsCompose(w0, x.w, Occur(kind, env, x, e).w, n);
  }

  lemma {:induction false} TellStep(kind: Kind, env: Env, w0: World, id: nat, x: System, e: Event)
    requires TellInv(kind, w0, id, x) && Possible(kind, env, x, e)
    ensures TellInv(kind, w0, id, Occur(kind, env, x, e))
  {
    var y := Occur(kind, env, x, e);
    if !e.Engine? {
      PeopleTraced(kind, env, w0, x, e);
      if |x.w.changeSets| > |w0.changeSets| {
        UrlStays(x.w, y.w);
      }
      if OwnMerged(x.w) {
        MergeIsFinal(x.w, y.w);
      }
    } else if e.a.Run? {
      TellCall(kind, env, w0, id, x, e);
    } else {
      SameIdStep(x.s, e.a, id);
    }
  }

  lemma {:induction false} TellRun(kind: Kind, env: Env, y0: System, id: nat, events: seq<Event>, y: System)
    requires TellInv(kind, y0.w, id, y0) && History(kind, env, y0, events, y)
    ensures TellInv(kind, y0.w, id, y)
  {
    if |events| > 0 {
      var before, e := events[..|events| - 1], events[|events| - 1];
      var x :| History(kind, env, y0, before, x) && Happens(kind, env, x, e, y);
      TellRun(kind, env, y0, id, before, x);
      TellStep(kind, env, y0.w, id, x, e);
    }
  }

  /** In every environment, and whatever earlier runs left behind: if the latest change set carries
      this workflow's id and is MERGED (or, when upgrading, SYNCED), a pull request that this run
      opened has been merged. */
  lemma {:induction false} OwnChangeSetTells(kind: Kind, env: Env, y0: System, wf: Row, names: seq<string>,
                                             events: seq<Event>, y: System)
    requires Begins(kind, y0, wf, names) && History(kind, env, y0, events, y)
    requires forall j :: 0 <= j < |y0.w.changeSets| ==> y0.w.changeSets[j].workflow != wf.id
    requires |y.w.changeSets| > 0 && Latest(y.w).workflow == wf.id && Marked(kind, Latest(y.w).status)
    ensures OwnMerged(y.w)
  {
    BeginsGate(kind, y0, wf, names);
    TellRun(kind, env, y0, wf.id, events, y);
  }

  // ------------------------------------------------------------------ the row of the last step

  /** Step i has returned nil: its row is SUCCEEDED or about to be. */
  ghost predicate Succeeds(s: Sys, i: nat) {
    || (i < |s.steps| && s.steps[i].status.Succeeded?)
    || (exists id :: id in s.actors && OkAt(s.actors[id], i))
  }

  predicate OkAt(pc: PC, i: nat) {
    pc.Ran? && pc.step.sequence == i && pc.outcome.Ok?
  }

  lemma {:induction false} OnlyCallsSucceed(s: Sys, a: Action, i: nat)
    requires Enabled(s, a)
    ensures Succeeds(Apply(s, a), i) ==> Succeeds(s, i) || (a.Run? && a.i == i && a.outcome.Ok?)
  {
    var t := Apply(s, a);
    forall id | id in t.actors && OkAt(t.actors[id], i)
      ensures (id in s.actors && OkAt(s.actors[id], i)) || (a.Run? && a.i == i && a.outcome.Ok?)
    {
    }
    if a.WriteStep? && s.actors[a.id].step.sequence == i && s.actors[a.id].outcome.Ok? {
      assert OkAt(s.actors[a.id], i);
    }
  }

  lemma {:induction false} ReadyCompletes(w0: World, w: World, wf: Row, c: Calls)
    requires Climbing(w0, w) && ProvisionStep(14, wf, w, c).0.Ok?
    ensures |ProvisionStep(14, wf, w, c).1.saved| == 4
  {
    SaveClimbs(w0, w, State.Ready);
  }

  /** No step takes a persisted state back. */
  lemma {:induction false} SavedGrows(w0: World, w: World, i: nat, wf: Row, c: Calls)
    requires Climbing(w0, w)
    ensures |w.saved| <= |ProvisionStep(i, wf, w, c).1.saved|
  {
    if i != 3 && i != 8 && i != 11 && i != 14 {
      OthersKeepState(w, i, wf, c);
    } else if i == 8 {
      assert |w.saved| <= |AwaitMerge(w, c).1.saved|;
    }
  }

  ghost predicate ReadyInv(w0: World, y: System) {
    Climbing(w0, y.w) && (Succeeds(y.s, 14) ==> |y.w.saved| == 4)
  }

  lemma {:induction false} ReadyStep(env: Env, w0: World, x: System, e: Event)
    requires ReadyInv(w0, x) && Possible(Provision, env, x, e)
    ensures ReadyInv(w0, Occur(Provision, env, x, e))
  {
    if e.Engine? {
      OnlyCallsSucceed(x.s, e.a, 14);
      if e.a.Run? {
        var wf := x.s.actors[e.a.id].wf;
        StepClimbs(w0, x.w, e.a.i, wf, e.c);
        SavedGrows(w0, x.w, e.a.i, wf, e.c);
        if e.a.i == 14 && e.a.outcome.Ok? {
          ReadyCompletes(w0, x.w, wf, e.c);
        }
      }
    }
  }

  lemma {:induction false} ReadyRun(env: Env, y0: System, events: seq<Event>, y: System)
    requires ReadyInv(y0.w, y0) && History(Provision, env, y0, events, y)
    ensures ReadyInv(y0.w, y)
  {
    if |events| > 0 {
      var before, e := events[..|events| - 1], events[|events| - 1];
      var x :| History(Provision, env, y0, before, x) && Happens(Provision, env, x, e, y);
      ReadyRun(env, y0, before, x);
      ReadyStep(env, y0.w, x, e);
    }
  }

  /** In every environment: the mark-ready row of a provisioning run is SUCCEEDED only if the whole
      chain has been persisted and the cluster is READY. */
  lemma {:induction false} ReadyRowTells(env: Env, y0: System, wf: Row, names: seq<string>, events: seq<Event>, y: System)
    requires Begins(Provision, y0, wf, names) && History(Provision, env, y0, events, y)
    requires |y.s.steps| == StepCount(Provision) && y.s.steps[14].status.Succeeded?
    ensures y.w.saved == Chain(Provision, y0.w) && y.w.cluster.state == State.Ready
  {
    BeginsGate(Provision, y0, wf, names);
    ReadyRun(env, y0, events, y);
  }

  // ------------------------------------------------------------------ ... of an upgrade

  /** The upgrade's last step can find the cluster READY, or take it there, at once. */
  predicate AtHand(state: State) {
    state == State.Ready || CanTransition(state, State.Ready)
  }

  /** Otherwise neither of its two moves is legal. */
  ghost predicate Stuck(w0: World, y: System) {
    y.w.cluster.state == w0.cluster.state && !Succeeds(y.s, 6)
  }

  lemma {:induction false} StuckStep(env: Env, w0: World, x: System, e: Event)
    requires !AtHand(w0.cluster.state) && Stuck(w0, x) && Possible(Upgrade, env, x, e)
    ensures Stuck(w0, Occur(Upgrade, env, x, e))
  {
    if e.Engine? {
      OnlyCallsSucceed(x.s, e.a, 6);
      if e.a.Run? {
        StuckCall(x.w, e.a.i, x.s.actors[e.a.id].wf, e.c);
      }
    }
  }

  lemma {:induction false} StuckCall(w: World, i: nat, wf: Row, c: Calls)
    requires !AtHand(w.cluster.state)
    ensures UpgradeStep(i, wf, w, c).1.cluster == w.cluster
    ensures i == 6 ==> !UpgradeStep(i, wf, w, c).0.Ok?
  {
    assert !CanTransition(w.cluster.state, State.Upgrading) && w.cluster.state != State.Upgrading;
  }

  lemma {:induction false} StuckRun(env: Env, y0: System, events: seq<Event>, y: System)
    requires !AtHand(y0.w.cluster.state) && Stuck(y0.w, y0) && History(Upgrade, env, y0, events, y)
    ensures Stuck(y0.w, y)
  {
    if |events| > 0 {
      var before, e := events[..|events| - 1], events[|events| - 1];
      var x :| History(Upgrade, env, y0, before, x) && Happens(Upgrade, env, x, e, y);
      StuckRun(env, y0, before, x);
      StuckStep(env, y0.w, x, e);
    }
  }

  /** The upgrade's last row tells the same of the cluster. */
  ghost predicate UpgradeTells(w0: World, y: System) {
    |y.s.steps| == StepCount(Upgrade) && y.s.steps[6].status.Succeeded? ==>
      y.w.saved == Chain(Upgrade, w0) && y.w.cluster.state == State.Ready
  }

  lemma {:induction false} ReadyAtHand(row: Row, w: World)
    requires AtHand(w.cluster.state)
    ensures var (o, w') := RunStep(Upgrade, 6, row, w, WELL); o.Ok? && w'.cluster.state == State.Ready
  {
  }

  /** A slow begin-upgrade moves the cluster to UPGRADING after verify-and-mark-ready. */
  lemma {:induction false} BeginsLate(env: Env, y0: System, wf: Row, names: seq<string>) returns (y: System)
    requires Racy(env) && Begins(Upgrade, y0, wf, names) && AtHand(y0.w.cluster.state)
    ensures Attains(Upgrade, env, y0, y) && !UpgradeTells(y0.w, y)
  {
    BeginsSpot(Upgrade, env, y0, wf, names);
    y := Hold(Upgrade, env, y0, y0, 0);
    y := HoldUpTo(Upgrade, env, y0, y, 1, 6);
    var w := y.w;
    y := ServeSix(env, y0, y);
    ReadyAtHand(y.s.row, w);
    y := MovesOn(env, y0, y);
  }

  lemma {:induction false} MovesOn(env: Env, y0: System, x: System) returns (y: System)
    requires Racy(env) && Attains(Upgrade, env, y0, x) && Spot(Upgrade, x, 7) && x.w.cluster.state == State.Ready
    requires 1 in x.s.actors && x.s.actors[1].Holding? && x.s.actors[1].step.sequence == 0
    ensures Attains(Upgrade, env, y0, y) && y.s.steps == x.s.steps && y.w.cluster.state == State.Upgrading
  {
    UpgradeMoves(x.s.actors[1].wf, x.w);
    y := Go(Upgrade, env, y0, x, Engine(Run(1, 0, RunStep(Upgrade, 0, x.s.actors[1].wf, x.w, WELL).0), WELL));
  }

  lemma {:induction false} ServeSix(env: Env, y0: System, x: System) returns (y: System)
    requires Racy(env) && Attains(Upgrade, env, y0, x) && Spot(Upgrade, x, 6) && AtHand(x.w.cluster.state)
    ensures Attains(Upgrade, env, y0, y) && Spot(Upgrade, y, 7) && Still(x, y)
    ensures y.w == RunStep(Upgrade, 6, y.s.row, x.w, WELL).1 && y.s.steps[6].status.Succeeded?
  {
    forall row ensures !RunStep(Upgrade, 6, row, x.w, WELL).0.Await? {
      ReadyAtHand(row, x.w);
    }
    y := Serve(Upgrade, env, y0, x, 6, WELL);
    ReadyAtHand(y.s.row, x.w);
  }

  /** For an upgrade with racing handlers or crashes the last row tells nothing of the kind, unless
      the step cannot succeed at all from the state the run found. */
  lemma {:induction false} UpgradeTellsIff(env: Env, y0: System, wf: Row, names: seq<string>)
    requires Racy(env) && Begins(Upgrade, y0, wf, names)
    ensures (forall y :: Attains(Upgrade, env, y0, y) ==> UpgradeTells(y0.w, y)) <==> !AtHand(y0.w.cluster.state)
  {
    if AtHand(y0.w.cluster.state) {
      var y := BeginsLate(env, y0, wf, names);
    } else {
      forall y | Attains(Upgrade, env, y0, y) ensures UpgradeTells(y0.w, y) {
        var events :| History(Upgrade, env, y0, events, y);
        StuckRun(env, y0, events, y);
      }
    }
  }
}
