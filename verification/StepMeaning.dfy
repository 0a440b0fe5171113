/** What each step function of CLUSTER_PROVISION and CLUSTER_UPGRADE needs to return nil and what
    it leaves, in terms of the cluster row and the answers of the calls it makes; and what a
    SUCCEEDED step row therefore tells, whatever crashes and races happened. */
module StepMeaning {
  import opened Workflow
  import opened Dispatch
  import opened Delivery
  import opened PullRequestUrl
  import opened ClusterLifecycle
  import opened ProvisionSteps
  import opened Approval
  import opened GateSafety

  /** The cluster is persisted in a new state. */
  function Persisted(w: World, next: State): World {
    w.(cluster := w.cluster.(state := next), saved := w.saved + [next])
  }

  // ------------------------------------------------------------------ steps that only look

  lemma {:induction false} NothingWithoutCluster(kind: Kind, i: nat, wf: Row, w: World, c: Calls)
    requires !c.load
    ensures RunStep(kind, i, wf, w, c).0.Err? && RunStep(kind, i, wf, w, c).1 == w
  {
  }

  /** The validations and generators fail on exactly these gaps ... */
  lemma {:induction false} ValidationIff(wf: Row, w: World, c: Calls)
    ensures ProvisionStep(0, wf, w, c).0.Ok? <==> c.load && w.cluster.kubernetes != "" && w.cluster.talos != ""
    ensures ProvisionStep(1, wf, w, c).0.Ok? <==> c.load && w.cluster.site != ""
    ensures ProvisionStep(2, wf, w, c).0.Ok? <==> c.load && w.cluster.podCIDR != "" && w.cluster.serviceCIDR != ""
    ensures ProvisionStep(4, wf, w, c).0.Ok? <==> c.load && (w.cluster.capi ==> c.rendered.Rendered?)
  {
  }

  /** ... and these steps write nothing and never wait. */
  lemma {:induction false} LookingWritesNothing(kind: Kind, i: nat, wf: Row, w: World, c: Calls)
    requires i in if kind.Provision? then {0, 1, 2, 4, 5, 10, 12, 13} else {1, 2, 5}
    ensures !RunStep(kind, i, wf, w, c).0.Await? && RunStep(kind, i, wf, w, c).1 == w
    ensures i in (if kind.Provision? then {5, 12, 13} else {1, 2}) ==> (RunStep(kind, i, wf, w, c).0.Ok? <==> c.load)
  {
  }

  /** What they report. */
  lemma {:induction false} ValidationReports(wf: Row, w: World, c: Calls)
    requires c.load
    ensures ProvisionStep(1, wf, w, c).0.Ok? ==> ProvisionStep(1, wf, w, c).0.output == map["site" := w.cluster.site]
    ensures ProvisionStep(2, wf, w, c).0.Ok? ==>
              ProvisionStep(2, wf, w, c).0.output == map["podCIDR" := w.cluster.podCIDR, "serviceCIDR" := w.cluster.serviceCIDR]
    ensures ProvisionStep(4, wf, w, c).0.Ok? ==>
              ProvisionStep(4, wf, w, c).0.output ==
              if w.cluster.capi then map["files" := Itoa(|c.rendered.files|)] else map["skipped" := "true"]
    ensures ProvisionStep(5, wf, w, c).0 ==
            Ok(if w.cluster.argo then map["project" := w.cluster.project] else map["skipped" := "true"])
  {
  }

  /** wait-for-cluster-api, in both definitions: every resource of the cluster is ready. */
  lemma {:induction false} ResourcesReadyIff(wf: Row, w: World, c: Calls)
    ensures ProvisionStep(10, wf, w, c).0.Ok? <==>
              c.load && (w.cluster.capi ==>
                           c.resources.Listed? && forall k :: 0 <= k < |c.resources.resources| ==> c.resources.resources[k].ready)
    ensures UpgradeStep(5, wf, w, c).0 == ProvisionStep(10, wf, w, c).0
    ensures ProvisionStep(10, wf, w, c).0.Ok? ==>
              ProvisionStep(10, wf, w, c).0.output == map["capiReady" := if w.cluster.capi then "true" else "false"]
  {
  }

  // ------------------------------------------------------------------ steps that move the cluster

  /** The transitions: from which states a step returns nil, and what it persists. */
  lemma {:induction false} ProvisionMovesIff(wf: Row, w: World, c: Calls)
    ensures var (o, w') := ProvisionStep(3, wf, w, c); var s := w.cluster.state;
            && (o.Ok? <==> c.load && (s == Bootstrapping || (s == Provisioning && c.save)))
            && (o.Ok? ==> o.output == map["talosVersion" := w.cluster.talos])
            && w' == if o.Ok? && s != Bootstrapping then Persisted(w, Bootstrapping) else w
    ensures var (o, w') := ProvisionStep(14, wf, w, c); var s := w.cluster.state;
            && (o.Ok? <==> c.load && c.save && s in {Configuring, Degraded, State.Upgrading})
            && w' == if o.Ok? then Persisted(w, State.Ready) else w
  {
  }

  lemma {:induction false} UpgradeMovesIff(wf: Row, w: World, c: Calls)
    ensures var (o, w') := UpgradeStep(0, wf, w, c); var s := w.cluster.state;
            && (o.Ok? <==> c.load && (s == State.Upgrading || (s == State.Ready && c.save)))
            && (o.Ok? ==> o.output == map["from" := w.cluster.kubernetes])
            && w' == if o.Ok? && s != State.Upgrading then Persisted(w, State.Upgrading) else w
    ensures var (o, w') := UpgradeStep(6, wf, w, c); var s := w.cluster.state;
            && (o.Ok? <==> c.load && (s == State.Ready || (s in {Configuring, Degraded, State.Upgrading} && c.save)))
            && w' == if o.Ok? && s != State.Ready then Persisted(w, State.Ready) else w
  {
  }

  /** Every machine was reachable and healthy, and registered if the cluster has credentials. */
  ghost predicate MachinesSound(t: Talos) {
    || t.Unwired?
    || (t.Probed? && forall k :: 0 <= k < |t.machines| ==>
          t.machines[k].reachable && t.machines[k].healthy && (t.credentials ==> t.machines[k].registered))
  }

  /** check-talos-health moves the cluster to CONFIGURING before it looks at the machines. */
  lemma {:induction false} MachinesSoundIff(wf: Row, w: World, c: Calls)
    ensures var (o, w') := ProvisionStep(11, wf, w, c); var s := w.cluster.state;
            var moves := c.load && s == Installing && c.save;
            && (o.Ok? <==> (moves || (c.load && s == Configuring)) && MachinesSound(c.talos))
            && (o.Ok? ==> o.output == map["talosHealthy" := "true",
                                          "machinesChecked" := Itoa(if c.talos.Probed? then |c.talos.machines| else 0)])
            && w' == if moves then Persisted(w, Configuring) else w
  {
  }

  // ------------------------------------------------------------------ steps that write to Git

  /** The calls up to the commit succeed. */
  predicate Commits(c: Calls) {
    c.load && c.config && c.rendered.Rendered? && c.branch && c.commit
  }

  ghost predicate CommittedAs(w: World, w': World, wf: Row, c: Calls)
    requires c.rendered.Rendered?
  {
    var n := |w.changeSets|;
    && w' == w.(commits := w.commits + 1, changeSets := w'.changeSets)
    && |w'.changeSets| == n + 1 && w'.changeSets[..n] == w.changeSets
    && var cs := w'.changeSets[n];
       && cs == ChangeSet(wf.id, cs.files, "sha-" + Itoa(w.commits), "", Committed, "")
       && |cs.files| == |c.rendered.files|
       && forall k :: 0 <= k < |cs.files| ==> cs.files[k] == c.rendered.files[k].path
  }

  /** commit-to-git: the commit may be made and the change set not recorded. */
  lemma {:induction false} CommitMeans(wf: Row, w: World, c: Calls)
    ensures var (o, w') := ProvisionStep(6, wf, w, c);
            && !o.Await? && (o.Ok? <==> Commits(c) && c.record)
            && (o.Ok? ==> CommittedAs(w, w', wf, c) &&
                          o.output == map["branch" := "platform/cluster-" + w.cluster.name, "sha" := "sha-" + Itoa(w.commits),
                                          "filesCommitted" := Itoa(|c.rendered.files|)])
            && (o.Err? ==> w' == w.(commits := if Commits(c) then w.commits + 1 else w.commits))
  {
  }

  /** The run's next pull request is open, or merged at once by such a host. */
  function Opening(w: World): World {
    w.(prs := w.prs[w.nextPR := if w.autoMerge then MergedPR else PRState.Open], nextPR := w.nextPR + 1,
       mine := w.mine + [w.nextPR])
  }

  /** w', but for the last change set, which is now at this URL and status, with this result. */
  ghost predicate LastBecomes(w: World, w': World, url: string, status: ChangeSetStatus, result: string) {
    var last := |w.changeSets| - 1;
    && last >= 0 && w' == w.(changeSets := w'.changeSets)
    && w'.changeSets == w.changeSets[last := w.changeSets[last].(url := url, status := status, result := result)]
  }

  function PullAt(w: World, n: nat): string {
    "https://github.com/" + w.owner + "/" + w.repo + "/pull/" + Itoa(n)
  }

  /** create-pull-request: the pull request may be opened and not recorded. */
  lemma {:induction false} OpenMeans(wf: Row, w: World, c: Calls)
    ensures var (o, w') := ProvisionStep(7, wf, w, c);
            var opens := c.load && c.config && c.openPR && w.nextPR <= MAX_INT;
            && !o.Await? && (o.Ok? <==> opens && c.list && |w.changeSets| > 0 && c.update)
            && (o.Ok? ==> LastBecomes(Opening(w), w', PullAt(w, w.nextPR), PRCreated, Latest(w).result) &&
                          o.output == map["pullRequestURL" := PullAt(w, w.nextPR), "pullRequestNumber" := Itoa(w.nextPR)])
            && (o.Err? ==> w' == if opens then Opening(w) else w)
  {
  }

  /** commit-capi-upgrade: each of the four writes may be the last. */
  lemma {:induction false} CommitChangeMeans(wf: Row, w: World, c: Calls)
    ensures !w.cluster.capi ==>
              (UpgradeStep(3, wf, w, c).0.Ok? <==> c.load) && UpgradeStep(3, wf, w, c).1 == w
    ensures var (o, w') := UpgradeStep(3, wf, w, c);
            var opens := Commits(c) && c.record && c.openPR && w.nextPR <= MAX_INT;
            w.cluster.capi ==>
              && !o.Await? && (o.Ok? <==> opens && c.update)
              && (!(Commits(c) && c.record) ==> w' == w.(commits := if Commits(c) then w.commits + 1 else w.commits))
              && (Commits(c) && c.record ==>
                    exists mid :: CommittedAs(w, mid, wf, c) &&
                      if o.Ok? then LastBecomes(Opening(mid), w', PullAt(w, w.nextPR), PRCreated, "")
                      else w' == if opens then Opening(mid) else mid)
  {
    if w.cluster.capi && Commits(c) && c.record {
      var mid := CommitManifests(wf, w, c, ChangeBranch(w, "upgrade")).1;
      assert CommittedAs(w, mid, wf, c);
    }
  }

  // ------------------------------------------------------------------ the gates and the sync

  /** The latest change set's URL names this pull request, and it can be read. */
  predicate Reads(w: World, c: Calls, n: nat) {
    && c.load && c.config && c.list && c.readPR && |w.changeSets| > 0
    && PrNumberFromURL(Latest(w).url) == Number(n) && n in w.prs
  }

  lemma {:induction false} GateIsRead(kind: Kind, w: World, c: Calls)
    ensures c.load && ReadGate(kind, w, c).Seen? <==> exists n: nat :: Reads(w, c, n)
    ensures forall n: nat :: Reads(w, c, n) ==> ReadGate(kind, w, c) == Seen(n, w.prs[n])
  {
    var g := ReadGate(kind, w, c);
    if c.load && g.Seen? {
      assert Reads(w, c, g.number);
    }
  }

  /** await-pull-request-merge: it waits on a readable pull request that is not merged, fails on an
      unreadable one, and behind a merged one records MERGED before it moves the cluster. */
  lemma {:induction false} GateMeans(wf: Row, w: World, c: Calls, n: nat)
    requires Reads(w, c, n)
    ensures var (o, w') := ProvisionStep(8, wf, w, c); var s := w.cluster.state;
            && (o.Await? <==> w.prs[n] != MergedPR)
            && (o.Ok? <==> w.prs[n] == MergedPR && c.update && (s == Installing || (s == Bootstrapping && c.save)))
            && (o.Ok? ==> o.output == map["merged" := "true", "pullRequestNumber" := Itoa(n)])
            && (w.prs[n] != MergedPR || !c.update ==> w' == w)
            && (w.prs[n] == MergedPR && c.update ==>
                  exists mid :: LastBecomes(w, mid, Latest(w).url, Merged, "merged") &&
                    w' == if s == Bootstrapping && c.save then Persisted(mid, Installing) else mid)
  {
    GateIsRead(Provision, w, c);
    if w.prs[n] == MergedPR && c.update {
      var mid := SetStatus(w, Merged);
      assert LastBecomes(w, mid, Latest(w).url, Merged, "merged");
    }
  }

  /** await-capi-upgrade-merge likewise; with Argo CD it goes on to the sync. */
  lemma {:induction false} UpgradeGateMeans(wf: Row, w: World, c: Calls, n: nat)
    requires Reads(w, c, n) && w.cluster.capi
    ensures var (o, w') := UpgradeStep(4, wf, w, c);
            && (o.Await? <==> w.prs[n] != MergedPR)
            && (o.Ok? <==> w.prs[n] == MergedPR && c.update && (w.cluster.argo ==> c.sync && c.updateAgain))
            && (w.prs[n] != MergedPR || !c.update ==> w' == w)
            && (w.prs[n] == MergedPR && c.update ==>
                  LastBecomes(w, w', Latest(w).url, if o.Ok? && w.cluster.argo then Synced else Merged, "merged"))
  {
    GateIsRead(Upgrade, w, c);
  }

  lemma {:induction false} UnreadableGate(wf: Row, w: World, c: Calls)
    requires forall n: nat :: !Reads(w, c, n)
    ensures ProvisionStep(8, wf, w, c).0.Err? && ProvisionStep(8, wf, w, c).1 == w
    ensures UpgradeStep(4, wf, w, c).1 == w && (UpgradeStep(4, wf, w, c).0.Ok? <==> c.load && !w.cluster.capi)
    ensures !UpgradeStep(4, wf, w, c).0.Await?
  {
    GateIsRead(Provision, w, c);
    GateIsRead(Upgrade, w, c);
  }

  /** wait-for-argocd-sync: a change set that cannot be updated is not an error. */
  lemma {:induction false} SyncMeans(wf: Row, w: World, c: Calls)
    ensures var (o, w') := ProvisionStep(9, wf, w, c);
            && !o.Await? && (o.Ok? <==> c.load && (w.cluster.argo ==> c.sync))
            && if c.load && w.cluster.argo && c.sync && c.list && |w.changeSets| > 0 && c.update then
                 LastBecomes(w, w', Latest(w).url, Synced, Latest(w).result)
               else w' == w
  {
  }

  // ------------------------------------------------------------------ what a SUCCEEDED row tells

  /** What a call of step i that returned nil vouches for, cl being the cluster's row. */
  ghost predicate Vouches(kind: Kind, i: nat, cl: ProvisionSteps.Cluster, c: Calls) {
    && c.load
    && match kind
       case Provision =>
         && (i == 0 ==> cl.kubernetes != "" && cl.talos != "")
         && (i == 1 ==> cl.site != "")
         && (i == 2 ==> cl.podCIDR != "" && cl.serviceCIDR != "")
         && (i == 4 && cl.capi ==> c.rendered.Rendered?)
         && (i == 6 ==> Commits(c) && c.record)
         && (i == 7 ==> c.openPR && c.update)
         && (i == 9 && cl.argo ==> c.sync)
         && (i == 10 && cl.capi ==> ResourcesReady(c))
         && (i == 11 ==> MachinesSound(c.talos))
       case Upgrade =>
         && (i == 3 && cl.capi ==> Commits(c) && c.record && c.openPR && c.update)
         && (i == 4 && cl.capi && cl.argo ==> c.sync)
         && (i == 5 && cl.capi ==> ResourcesReady(c))
  }

  ghost predicate ResourcesReady(c: Calls) {
    c.resources.Listed? && forall k :: 0 <= k < |c.resources.resources| ==> c.resources.resources[k].ready
  }

  lemma {:induction false} NilVouches(kind: Kind, i: nat, wf: Row, w: World, c: Calls)
    requires RunStep(kind, i, wf, w, c).0.Ok?
    ensures Vouches(kind, i, w.cluster, c)
  {
    if kind.Provision? {
      ProvisionVouches(i, wf, w, c);
    } else {
      UpgradeVouches(i, wf, w, c);
    }
  }

  lemma {:induction false} ProvisionVouches(i: nat, wf: Row, w: World, c: Calls)
    requires ProvisionStep(i, wf, w, c).0.Ok?
    ensures Vouches(Provision, i, w.cluster, c)
  {
    if i in {0, 1, 2, 4} {
      ValidationIff(wf, w, c);
    } else if i == 6 {
      CommitMeans(wf, w, c);
    } else if i == 7 {
      OpenMeans(wf, w, c);
    } else if i == 11 {
      MachinesSoundIff(wf, w, c);
    }
  }

  lemma {:induction false} UpgradeVouches(i: nat, wf: Row, w: World, c: Calls)
    requires UpgradeStep(i, wf, w, c).0.Ok?
    ensures Vouches(Upgrade, i, w.cluster, c)
  {
    if i == 3 {
      CommitChangeMeans(wf, w, c);
    }
  }

  /** The event is a call of step i that returned nil with this output, and vouches. */
  ghost predicate NilCall(kind: Kind, cl: ProvisionSteps.Cluster, e: Event, i: nat, output: Output) {
    e.Engine? && e.a.Run? && e.a.i == i && e.a.outcome == Ok(output) && Vouches(kind, i, cl, e.c)
  }

  ghost predicate Called(kind: Kind, cl: ProvisionSteps.Cluster, events: seq<Event>, i: nat, output: Output) {
    exists j :: 0 <= j < |events| && NilCall(kind, cl, events[j], i, output)
  }

  lemma {:induction false} CalledLonger(kind: Kind, cl: ProvisionSteps.Cluster, events: seq<Event>, e: Event, i: nat,
                                        output: Output)
    ensures Called(kind, cl, events + [e], i, output) <==> Called(kind, cl, events, i, output) || NilCall(kind, cl, e, i, output)
  {
    var longer := events + [e];
    assert longer[|events|] == e && forall j :: 0 <= j < |events| ==> longer[j] == events[j];
    if j :| 0 <= j < |events| && NilCall(kind, cl, events[j], i, output) {
      assert NilCall(kind, cl, longer[j], i, output);
    }
  }

  /** Step i has returned nil with this output: its row says so, or a handler is about to. */
  ghost predicate ReturnedNil(s: Sys, i: nat, output: Output) {
    || (i < |s.steps| && s.steps[i].status.Succeeded? && s.steps[i].output == output)
    || (exists id :: id in s.actors && HasReturned(s.actors[id], i, output))
  }

  predicate HasReturned(pc: PC, i: nat, output: Output) {
    pc.Ran? && pc.step.sequence == i && pc.outcome == Ok(output)
  }

  ghost predicate CalledInv(kind: Kind, w0: World, events: seq<Event>, y: System) {
    && Traced(w0, y.w)
    && forall i: nat, output :: ReturnedNil(y.s, i, output) ==> Called(kind, w0.cluster, events, i, output)
  }

  lemma {:induction false} TracedStep(kind: Kind, env: Env, w0: World, x: System, e: Event)
    requires Traced(w0, x.w) && Possible(kind, env, x, e)
    ensures Traced(w0, Occur(kind, env, x, e).w)
  {
    if !e.Engine? {
      PeopleTraced(kind, env, w0, x, e);
    } else if e.a.Run? {
      StepTraced(kind, w0, x.w, e.a.i, x.s.actors[e.a.id].wf, e.c);
    }
  }

  lemma {:induction false} RunIsNilCall(kind: Kind, env: Env, w0: World, x: System, e: Event)
    requires Traced(w0, x.w) && Possible(kind, env, x, e) && e.Engine? && e.a.Run? && e.a.outcome.Ok?
    ensures NilCall(kind, w0.cluster, e, e.a.i, e.a.outcome.output)
  {
    NilVouches(kind, e.a.i, x.s.actors[e.a.id].wf, x.w, e.c);
  }

  /** A row or an outcome that says nil does so because of a call, earlier or just now. */
  lemma {:induction false} OnlyCallsReturn(s: Sys, a: Action, i: nat, output: Output)
    requires Enabled(s, a)
    ensures ReturnedNil(Apply(s, a), i, output) ==> ReturnedNil(s, i, output) || (a.Run? && a.i == i && a.outcome == Ok(output))
  {
    var t := Apply(s, a);
    forall id | id in t.actors && HasReturned(t.actors[id], i, output)
      ensures (id in s.actors && HasReturned(s.actors[id], i, output)) || (a.Run? && a.i == i && a.outcome == Ok(output))
    {
    }
    if a.WriteStep? && s.actors[a.id].step.sequence == i && s.actors[a.id].outcome == Ok(output) {
      assert HasReturned(s.actors[a.id], i, output);
    }
  }

  lemma {:induction false} CalledStep(kind: Kind, env: Env, w0: World, events: seq<Event>, x: System, e: Event)
    requires CalledInv(kind, w0, events, x) && Possible(kind, env, x, e)
    ensures CalledInv(kind, w0, events + [e], Occur(kind, env, x, e))
  {
    var y := Occur(kind, env, x, e);
    TracedStep(kind, env, w0, x, e);
    forall i: nat, output | ReturnedNil(y.s, i, output) ensures Called(kind, w0.cluster, events + [e], i, output) {
      CalledLonger(kind, w0.cluster, events, e, i, output);
      if !ReturnedNil(x.s, i, output) {
        OnlyCallsReturn(x.s, e.a, i, output);
        RunIsNilCall(kind, env, w0, x, e);
      }
    }
  }

  lemma {:induction false} CalledRun(kind: Kind, env: Env, y0: System, events: seq<Event>, y: System)
    requires CalledInv(kind, y0.w, [], y0) && History(kind, env, y0, events, y)
    ensures CalledInv(kind, y0.w, events, y)
  {
    if |events| == 0 {
      assert events == [] && y == y0;
    } else {
      var before, e := events[..|events| - 1], events[|events| - 1];
      assert events == before + [e];
      var x :| History(kind, env, y0, before, x) && Happens(kind, env, x, e, y);
      CalledRun(kind, env, y0, before, x);
      CalledStep(kind, env, y0.w, before, x, e);
    }
  }

  /** In every environment: a SUCCEEDED step row holds the output of a call of that step that
      returned nil in this run, and that call met everything the step checks. */
  lemma {:induction false} SucceededRowVouches(kind: Kind, env: Env, y0: System, wf: Row, names: seq<string>,
                                               events: seq<Event>, y: System, i: nat)
    requires Begins(kind, y0, wf, names) && History(kind, env, y0, events, y)
    requires i < |y.s.steps| && y.s.steps[i].status.Succeeded?
    ensures exists j :: 0 <= j < |events| && NilCall(kind, y0.w.cluster, events[j], i, y.s.steps[i].output)
  {
    BeginsGate(kind, y0, wf, names);
    CalledRun(kind, env, y0, events, y);
    assert ReturnedNil(y.s, i, y.s.steps[i].output);
  }

  /** So a SUCCEEDED wait-for-cluster-api row of a CAPI-managed cluster tells that at some moment of
      this run the cluster's resources were listed and all of them were ready, ... */
  lemma {:induction false} ReadyRowSawResources(kind: Kind, env: Env, y0: System, wf: Row, names: seq<string>,
                                                events: seq<Event>, y: System)
    requires Begins(kind, y0, wf, names) && History(kind, env, y0, events, y) && y0.w.cluster.capi
    requires var i := if kind.Provision? then 10 else 5; i < |y.s.steps| && y.s.steps[i].status.Succeeded?
    ensures exists j ::
              && 0 <= j < |events| && events[j].Engine? && events[j].a.Run?
              && events[j].a.i == (if kind.Provision? then 10 else 5) && events[j].c.resources.Listed?
              && forall k :: 0 <= k < |events[j].c.resources.resources| ==> events[j].c.resources.resources[k].ready
  {
    var i := if kind.Provision? then 10 else 5;
    SucceededRowVouches(kind, env, y0, wf, names, events, y, i);
    var j :| 0 <= j < |events| && NilCall(kind, y0.w.cluster, events[j], i, y.s.steps[i].output);
    assert ResourcesReady(events[j].c);
  }

  /** ... and a SUCCEEDED check-talos-health row that every machine was reachable and healthy. */
  lemma {:induction false} HealthRowSawMachines(env: Env, y0: System, wf: Row, names: seq<string>,
                                                events: seq<Event>, y: System)
    requires Begins(Provision, y0, wf, names) && History(Provision, env, y0, events, y)
    requires 11 < |y.s.steps| && y.s.steps[11].status.Succeeded?
    ensures exists j ::
              && 0 <= j < |events| && events[j].Engine? && events[j].a.Run? && events[j].a.i == 11
              && var t := events[j].c.talos;
                 || t.Unwired?
                 || (t.Probed? && forall k :: 0 <= k < |t.machines| ==>
                       t.machines[k].reachable && t.machines[k].healthy && (t.credentials ==> t.machines[k].registered))
  {
    SucceededRowVouches(Provision, env, y0, wf, names, events, y, 11);
    var j :| 0 <= j < |events| && NilCall(Provision, y0.w.cluster, events[j], 11, y.s.steps[11].output);
    assert MachinesSound(events[j].c.talos);
  }
}
