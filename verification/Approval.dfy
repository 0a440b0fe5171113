/** CLUSTER_PROVISION and CLUSTER_UPGRADE running on the dispatch protocol, beside people who
    merge, close and reopen pull requests: the composed system, and what its orderly runs do. */
module Approval {
  import opened Workflow
  import opened Dispatch
  import opened Delivery
  import opened PullRequestUrl
  import opened ClusterLifecycle
  import opened ProvisionSteps

  /** What a workflow persists as the cluster's state, in order. */
  function Chain(kind: Kind, w0: World): seq<State> {
    if kind.Provision? then [Bootstrapping, Installing, Configuring, State.Ready]
    else if w0.cluster.state.Upgrading? then [State.Ready]
    else [State.Upgrading, State.Ready]
  }

  /** How many of the chain's states are persisted once the first k steps have succeeded. */
  function Climbed(kind: Kind, w0: World, k: nat): nat {
    match kind
    case Provision => if k <= 3 then 0 else if k <= 8 then 1 else if k <= 11 then 2 else if k <= 14 then 3 else 4
    case Upgrade => if k == 0 then 0 else if k <= 6 then |Chain(kind, w0)| - 1 else |Chain(kind, w0)|
  }

  /** Persisting this many states of the chain takes a merged pull request: INSTALLING for a
      provisioning run, READY for an upgrade. */
  function GatedFrom(kind: Kind, w0: World): nat {
    if kind.Provision? then 2 else |Chain(kind, w0)|
  }

  /** The step that records this run's change set, and the one that opens its pull request. */
  function CommitStep(kind: Kind): nat { if kind.Provision? then 6 else 3 }
  function OpenStep(kind: Kind): nat { if kind.Provision? then 7 else 3 }

  /** Upgrades of clusters that are not CAPI-managed change nothing in Git and have no gate. */
  predicate Gated(kind: Kind, w: World) {
    kind.Provision? || w.cluster.capi
  }

  function StateAt(kind: Kind, w0: World, n: nat): State
    requires n <= |Chain(kind, w0)|
  {
    if n == 0 then w0.cluster.state else Chain(kind, w0)[n - 1]
  }

  /** The pull request this run opened, as its change set's URL names it. */
  ghost predicate Opened(w: World) {
    && |w.mine| == 1 && |w.changeSets| > 0
    && w.mine[0] in w.prs && w.mine[0] <= MAX_INT
    && Latest(w).url == PullURL(w.owner, w.repo, w.mine[0])
  }

  ghost predicate Approved(w: World) {
    Opened(w) && w.prs[w.mine[0]] == MergedPR
  }

  /** Before the workflow starts: clusterservice has persisted PROVISIONING (an upgrade may
      start anywhere); other runs' change sets and pull requests may exist. */
  ghost predicate Fresh(kind: Kind, w0: World) {
    && (kind.Provision? ==> w0.cluster.state.Provisioning?) && w0.saved == [] && w0.mine == []
    && forall n :: n in w0.prs ==> n < w0.nextPR
  }

  /** At any time: a prefix of the chain is persisted, the gated part of it only after the
      run's own pull request was merged, and nothing else of the cluster or of earlier change
      sets was touched. */
  ghost predicate Safe(kind: Kind, w0: World, w: World) {
    && (kind.Provision? ==> w0.cluster.state.Provisioning?)
    && |w.saved| <= |Chain(kind, w0)| && w.saved == Chain(kind, w0)[..|w.saved|]
    && w.cluster == w0.cluster.(state := StateAt(kind, w0, |w.saved|))
    && (Gated(kind, w0) && |w.saved| >= GatedFrom(kind, w0) ==> Approved(w))
    && |w0.changeSets| <= |w.changeSets| <= |w0.changeSets| + 1
    && w.changeSets[..|w0.changeSets|] == w0.changeSets
    && (forall n :: n in w.prs ==> n < w.nextPR)
  }

  /** And with exactly the first k steps done. */
  ghost predicate WorldAt(kind: Kind, w0: World, w: World, k: nat) {
    && Safe(kind, w0, w) && |w.saved| == Climbed(kind, w0, k)
    && |w.changeSets| == |w0.changeSets| + (if k > CommitStep(kind) && Gated(kind, w0) then 1 else 0)
    && (k <= OpenStep(kind) || !Gated(kind, w0) ==> w.mine == [])
    && (Gated(kind, w0) ==>
          && (CommitStep(kind) < k <= OpenStep(kind) ==> Latest(w).status == Committed)
          && (k > OpenStep(kind) ==> Opened(w))
          && (k == OpenStep(kind) + 1 ==> Latest(w).status == PRCreated)
          && (k > GateStep(kind) ==> Approved(w) && (Latest(w).status.Merged? || Latest(w).status.Synced?))
          && (kind.Provision? && k == GateStep(kind) + 1 ==> Latest(w).status.Merged?))
  }

  function Rank(st: ChangeSetStatus): nat {
    match st
    case Committed => 0
    case PRCreated => 1
    case Merged => 2
    case Synced => 3
  }

  /** Change sets are only added, and their status only moves up. */
  ghost predicate Upward(w: World, w': World) {
    && |w.changeSets| <= |w'.changeSets|
    && forall j :: 0 <= j < |w.changeSets| ==> Rank(w.changeSets[j].status) <= Rank(w'.changeSets[j].status)
  }

  /** The gate reads the run's own pull request, whatever its owner and repository are. */
  lemma {:induction false} GateReadsOwn(kind: Kind, w: World, c: Calls)
    requires Opened(w) && c.config && c.list && c.readPR
    ensures ReadGate(kind, w, c) == Seen(w.mine[0], w.prs[w.mine[0]])
  {
    RoundTrip(w.owner, w.repo, w.mine[0]);
  }

  lemma {:induction false} SetLatestKeeps(w: World, cs: ChangeSet, n: nat)
    requires n < |w.changeSets| && Rank(Latest(w).status) <= Rank(cs.status)
    ensures SetLatest(w, cs).changeSets[..n] == w.changeSets[..n]
    ensures Latest(SetLatest(w, cs)) == cs && Upward(w, SetLatest(w, cs))
  {
  }

  /** The gate lets a merged pull request through: change set MERGED, cluster INSTALLING. */
  lemma {:induction false} PassGate(w0: World, w: World)
    requires WorldAt(Provision, w0, w, 8) && Approved(w)
    ensures CanTransition(w.cluster.state, Installing)
    ensures WorldAt(Provision, w0, Move(SetStatus(w, Merged), Installing), 9)
    ensures Upward(w, Move(SetStatus(w, Merged), Installing))
  {
    SetLatestKeeps(w, Latest(w).(status := Merged, result := "merged"), |w0.changeSets|);
  }

  /** Likewise for an upgrade, before and after the Argo CD sync. */
  lemma {:induction false} PassUpgradeGate(w0: World, w: World)
    requires WorldAt(Upgrade, w0, w, 4) && Gated(Upgrade, w0) && Approved(w)
    ensures WorldAt(Upgrade, w0, SetStatus(w, Merged), 5) && Upward(w, SetStatus(w, Merged))
    ensures WorldAt(Upgrade, w0, SetStatus(SetStatus(w, Merged), Synced), 5)
    ensures Upward(w, SetStatus(SetStatus(w, Merged), Synced))
  {
    var w' := SetStatus(w, Merged);
    SetLatestKeeps(w, Latest(w).(status := Merged, result := "merged"), |w0.changeSets|);
    SetLatestKeeps(w', Latest(w').(status := Synced), |w0.changeSets|);
  }

  /** A step run from WorldAt k: forward on nil, safe on an error, untouched when it waits. */
  ghost predicate Keeps(kind: Kind, w0: World, w: World, k: nat, o: Outcome, w': World) {
    && Upward(w, w')
    && match o
       case Ok(_) => WorldAt(kind, w0, w', k + 1)
       case Err(_) => Safe(kind, w0, w')
       case Await => w' == w
  }

  lemma {:induction false} ProvisionFirst(w0: World, w: World, k: nat, wf: Row, c: Calls)
    requires k < 3 && WorldAt(Provision, w0, w, k)
    ensures var (o, w') := ProvisionStep(k, wf, w, c); Keeps(Provision, w0, w, k, o, w')
  {
  }

  lemma {:induction false} ProvisionBootstrap(w0: World, w: World, wf: Row, c: Calls)
    requires WorldAt(Provision, w0, w, 3)
    ensures var (o, w') := ProvisionStep(3, wf, w, c); Keeps(Provision, w0, w, 3, o, w')
  {
  }

  lemma {:induction false} ProvisionEarly(w0: World, w: World, k: nat, wf: Row, c: Calls)
    requires 4 <= k < 6 && WorldAt(Provision, w0, w, k)
    ensures var (o, w') := ProvisionStep(k, wf, w, c); Keeps(Provision, w0, w, k, o, w')
  {
  }

  lemma {:induction false} ProvisionCommit(w0: World, w: World, wf: Row, c: Calls)
    requires WorldAt(Provision, w0, w, 6)
    ensures var (o, w') := ProvisionStep(6, wf, w, c); Keeps(Provision, w0, w, 6, o, w')
  {
    var w' := ProvisionStep(6, wf, w, c).1;
    assert w'.changeSets[..|w0.changeSets|] == w0.changeSets;
  }

  lemma {:induction false} ProvisionOpen(w0: World, w: World, wf: Row, c: Calls)
    requires WorldAt(Provision, w0, w, 7)
    ensures var (o, w') := ProvisionStep(7, wf, w, c); Keeps(Provision, w0, w, 7, o, w')
  {
  }

  lemma {:induction false} ProvisionGate(w0: World, w: World, c: Calls)
    requires WorldAt(Provision, w0, w, 8)
    ensures var (o, w') := AwaitMerge(w, c); Keeps(Provision, w0, w, 8, o, w')
  {
    if c.config && c.list && c.readPR {
      GateReadsOwn(Provision, w, c);
      if w.prs[w.mine[0]] == MergedPR {
        PassGate(w0, w);
      }
    }
  }

  lemma {:induction false} ProvisionSync(w0: World, w: World, k: nat, wf: Row, c: Calls)
    requires 9 <= k < 11 && WorldAt(Provision, w0, w, k)
    ensures var (o, w') := ProvisionStep(k, wf, w, c); Keeps(Provision, w0, w, k, o, w')
  {
    SetLatestKeeps(w, Latest(w).(status := Synced), |w0.changeSets|);
  }

  lemma {:induction false} ProvisionLate(w0: World, w: World, k: nat, wf: Row, c: Calls)
    requires 12 <= k < 14 && WorldAt(Provision, w0, w, k)
    ensures var (o, w') := ProvisionStep(k, wf, w, c); Keeps(Provision, w0, w, k, o, w')
  {
  }

  lemma {:induction false} ProvisionHealth(w0: World, w: World, wf: Row, c: Calls)
    requires WorldAt(Provision, w0, w, 11)
    ensures var (o, w') := ProvisionStep(11, wf, w, c); Keeps(Provision, w0, w, 11, o, w')
  {
    var moved := Move(w, Configuring);
    assert w.cluster.state == Installing && moved == Save(w, Configuring);
    assert WorldAt(Provision, w0, moved, 12);
  }

  lemma {:induction false} ProvisionLast(w0: World, w: World, wf: Row, c: Calls)
    requires WorldAt(Provision, w0, w, 14)
    ensures var (o, w') := ProvisionStep(14, wf, w, c); Keeps(Provision, w0, w, 14, o, w')
  {
  }

  lemma {:induction false} RecordChange(w0: World, w: World, wf: Row, c: Calls, branch: string)
    requires WorldAt(Upgrade, w0, w, 3) && w.cluster.capi
    ensures var (o, w') := CommitManifests(wf, w, c, branch);
            && !o.Await? && Safe(Upgrade, w0, w') && Upward(w, w') && w'.mine == [] && w'.saved == w.saved
            && (o.Ok? ==> |w'.changeSets| == |w0.changeSets| + 1 && Latest(w').status.Committed?)
  {
    var w' := CommitManifests(wf, w, c, branch).1;
    assert w'.changeSets[..|w0.changeSets|] == w0.changeSets;
  }

  lemma {:induction false} UpgradeCommit(w0: World, w: World, wf: Row, c: Calls)
    requires WorldAt(Upgrade, w0, w, 3) && w.cluster.capi
    ensures var (o, w') := CommitChange(wf, w, c); Keeps(Upgrade, w0, w, 3, o, w')
  {
    RecordChange(w0, w, wf, c, ChangeBranch(w, "upgrade"));
  }

  lemma {:induction false} UpgradeGate(w0: World, w: World, c: Calls)
    requires WorldAt(Upgrade, w0, w, 4) && w.cluster.capi
    ensures var (o, w') := AwaitChangeMerge(w, c); Keeps(Upgrade, w0, w, 4, o, w')
  {
    if c.config && c.list && c.readPR {
      GateReadsOwn(Upgrade, w, c);
      if w.prs[w.mine[0]] == MergedPR {
        PassUpgradeGate(w0, w);
      }
    }
  }

  lemma {:induction false} UpgradeBegins(w0: World, w: World, wf: Row, c: Calls)
    requires WorldAt(Upgrade, w0, w, 0)
    ensures var (o, w') := UpgradeStep(0, wf, w, c); Keeps(Upgrade, w0, w, 0, o, w')
  {
  }

  lemma {:induction false} UpgradeEnds(w0: World, w: World, wf: Row, c: Calls)
    requires WorldAt(Upgrade, w0, w, 6)
    ensures var (o, w') := UpgradeStep(6, wf, w, c); Keeps(Upgrade, w0, w, 6, o, w')
  {
  }

  lemma {:induction false} UpgradeIdles(w0: World, w: World, k: nat, wf: Row, c: Calls)
    requires 0 < k < 6 && (k == 3 || k == 4 ==> !w.cluster.capi) && WorldAt(Upgrade, w0, w, k)
    ensures var (o, w') := UpgradeStep(k, wf, w, c); Keeps(Upgrade, w0, w, k, o, w')
  {
  }

  lemma {:induction false} ProvisionKeeps(w0: World, w: World, k: nat, wf: Row, c: Calls)
    requires k < 15 && WorldAt(Provision, w0, w, k)
    ensures var (o, w') := ProvisionStep(k, wf, w, c); Keeps(Provision, w0, w, k, o, w')
  {
    if k < 3 { ProvisionFirst(w0, w, k, wf, c); }
    else if k == 3 { ProvisionBootstrap(w0, w, wf, c); }
    else if k < 6 { ProvisionEarly(w0, w, k, wf, c); }
    else if k == 6 { ProvisionCommit(w0, w, wf, c); }
    else if k == 7 { ProvisionOpen(w0, w, wf, c); }
    else if k == 8 { ProvisionGate(w0, w, c); }
    else if k < 11 { ProvisionSync(w0, w, k, wf, c); }
    else if k == 11 { ProvisionHealth(w0, w, wf, c); }
    else if k < 14 { ProvisionLate(w0, w, k, wf, c); }
    else { ProvisionLast(w0, w, wf, c); }
  }

  lemma {:induction false} UpgradeKeeps(w0: World, w: World, k: nat, wf: Row, c: Calls)
    requires k < 7 && WorldAt(Upgrade, w0, w, k)
    ensures var (o, w') := UpgradeStep(k, wf, w, c); Keeps(Upgrade, w0, w, k, o, w')
  {
    if k == 0 { UpgradeBegins(w0, w, wf, c); }
    else if k == 3 && w.cluster.capi { UpgradeCommit(w0, w, wf, c); }
    else if k == 4 && w.cluster.capi { UpgradeGate(w0, w, c); }
    else if k == 6 { UpgradeEnds(w0, w, wf, c); }
    else { UpgradeIdles(w0, w, k, wf, c); }
  }

  lemma {:induction false} StepKeeps(kind: Kind, w0: World, w: World, k: nat, wf: Row, c: Calls)
    requires k < StepCount(kind) && WorldAt(kind, w0, w, k)
    ensures var (o, w') := RunStep(kind, k, wf, w, c); Keeps(kind, w0, w, k, o, w')
  {
    if kind.Provision? {
      ProvisionKeeps(w0, w, k, wf, c);
    } else {
      UpgradeKeeps(w0, w, k, wf, c);
    }
  }

  /** Nothing here depends on pull requests beyond this run's, and a merge is final. */
  lemma {:induction false} PullRequestsOnly(kind: Kind, w0: World, w: World, w': World, k: nat)
    requires w' == w.(prs := w'.prs, nextPR := w'.nextPR)
    requires forall n :: n in w.prs ==> n in w'.prs && (w.prs[n] == MergedPR ==> w'.prs[n] == MergedPR)
    requires forall n :: n in w'.prs ==> n < w'.nextPR
    ensures Safe(kind, w0, w) ==> Safe(kind, w0, w')
    ensures WorldAt(kind, w0, w, k) ==> WorldAt(kind, w0, w', k)
    ensures Upward(w, w')
  {
  }

  // ------------------------------------------------------------------ the composed system

  /** One transition: the engine's (with the results of the external calls, if it calls a
      step function), or something people do to pull requests meanwhile. */
  datatype Event = Engine(a: Action, c: Calls) | Merge(n: nat) | Close(n: nat) | Reopen(n: nat) | OthersOpen

  datatype System = System(s: Sys, w: World)

  predicate Possible(kind: Kind, env: Env, y: System, e: Event) {
    match e
    case Engine(a, c) =>
      && Allowed(env, y.s, a)
      && (a.Run? ==> y.s.actors[a.id].Holding? && a.outcome == RunStep(kind, a.i, y.s.actors[a.id].wf, y.w, c).0)
    case Merge(n) => n in y.w.prs && y.w.prs[n].Open?
    case Close(n) => n in y.w.prs && y.w.prs[n].Open?
    case Reopen(n) => n in y.w.prs && y.w.prs[n].Closed?
    case OthersOpen => true
  }

  function Occur(kind: Kind, env: Env, y: System, e: Event): System
    requires Possible(kind, env, y, e)
  {
    match e
    case Engine(a, c) =>
      System(Apply(y.s, a), if a.Run? then RunStep(kind, a.i, y.s.actors[a.id].wf, y.w, c).1 else y.w)
    case Merge(n) => y.(w := y.w.(prs := y.w.prs[n := MergedPR]))
    case Close(n) => y.(w := y.w.(prs := y.w.prs[n := Closed]))
    case Reopen(n) => y.(w := y.w.(prs := y.w.prs[n := Open]))
    case OthersOpen => y.(w := y.w.(prs := y.w.prs[y.w.nextPR := Open], nextPR := y.w.nextPR + 1))
  }

  /** The events are a possible history from y0 to y. */
  ghost predicate History(kind: Kind, env: Env, y0: System, events: seq<Event>, y: System) {
    if |events| == 0 then y == y0
    else
      var before, e := events[..|events| - 1], events[|events| - 1];
      exists x :: History(kind, env, y0, before, x) && Happens(kind, env, x, e, y)
  }

  ghost predicate Happens(kind: Kind, env: Env, x: System, e: Event, y: System) {
    Possible(kind, env, x, e) && y == Occur(kind, env, x, e)
  }

  /** A run of the engine has just been enqueued for a fresh world. */
  ghost predicate Begins(kind: Kind, y0: System, wf: Row, names: seq<string>) {
    Start(y0.s, wf, names) && |names| == StepCount(kind) && Fresh(kind, y0.w)
  }

  ghost predicate EngineInv(env: Env, s: Sys, c: Cursor) {
    if env.Concurrent? then ConcurrentInv(s, c) else RepeatingInv(s, c)
  }

  ghost predicate SystemInv(kind: Kind, env: Env, w0: World, y: System, c: Cursor) {
    && |y.s.steps| == StepCount(kind) && EngineInv(env, y.s, c)
    && match c
       case At(k) => k <= StepCount(kind) && WorldAt(kind, w0, y.w, k)
       case Stopped(_) => Safe(kind, w0, y.w)
  }

  ghost function CursorAfter(c: Cursor, e: Event): Cursor {
    if e.Engine? then NextCursor(c, e.a) else c
  }

  lemma {:induction false} PeopleKeep(kind: Kind, env: Env, w0: World, x: System, e: Event, c: Cursor)
    requires SystemInv(kind, env, w0, x, c) && Possible(kind, env, x, e) && !e.Engine?
    ensures SystemInv(kind, env, w0, Occur(kind, env, x, e), c)
    ensures Upward(x.w, Occur(kind, env, x, e).w)
  {
    PullRequestsOnly(kind, w0, x.w, Occur(kind, env, x, e).w, c.k);
  }

  lemma {:induction false} EngineKeeps(kind: Kind, env: Env, w0: World, x: System, e: Event, c: Cursor)
    requires env.Concurrent? || env.Repeating?
    requires SystemInv(kind, env, w0, x, c) && Possible(kind, env, x, e) && e.Engine?
    ensures SystemInv(kind, env, w0, Occur(kind, env, x, e), NextCursor(c, e.a))
    ensures Upward(x.w, Occur(kind, env, x, e).w)
  {
    EngineInvKept(env, x.s, c, e.a);
    if e.a.Run? {
      assert c == At(e.a.i) && e.a.i < x.s.registered;
      assert Registered(x.s);
      StepKeeps(kind, w0, x.w, e.a.i, x.s.actors[e.a.id].wf, e.c);
    }
  }

  lemma {:induction false} EngineInvKept(env: Env, s: Sys, c: Cursor, a: Action)
    requires (env.Concurrent? || env.Repeating?) && EngineInv(env, s, c) && Allowed(env, s, a)
    ensures EngineInv(env, Apply(s, a), NextCursor(c, a))
    ensures a.Run? ==> c == At(a.i)
  {
    if env.Concurrent? {
      ConcurrentStep(s, c, a);
    } else {
      RepeatingStep(s, c, a);
    }
  }

  lemma {:induction false} HistoryKeeps(kind: Kind, env: Env, y0: System, events: seq<Event>, y: System) returns (c: Cursor)
    requires env.Concurrent? || env.Repeating?
    requires SystemInv(kind, env, y0.w, y0, At(0)) && History(kind, env, y0, events, y)
    ensures SystemInv(kind, env, y0.w, y, c)
  {
    if |events| == 0 {
      c := At(0);
    } else {
      var before, e := events[..|events| - 1], events[|events| - 1];
      var x :| History(kind, env, y0, before, x) && Happens(kind, env, x, e, y);
      c := HistoryKeeps(kind, env, y0, before, x);
      if e.Engine? {
        EngineKeeps(kind, env, y0.w, x, e, c);
      } else {
        PeopleKeep(kind, env, y0.w, x, e, c);
      }
      c := CursorAfter(c, e);
    }
  }

  lemma {:induction false} BeginsInv(kind: Kind, env: Env, y0: System, wf: Row, names: seq<string>)
    requires Begins(kind, y0, wf, names)
    ensures SystemInv(kind, env, y0.w, y0, At(0))
  {
    StartInv(y0.s, wf, names);
  }

  /** Over every history of the composed system in which messages are not duplicated or handlers
      do not overlap: the states persisted are a prefix of the workflow's chain, the gated part
      of it (INSTALLING or later when provisioning, READY when upgrading) only after the one
      pull request this run opened was merged, earlier change sets are untouched, and a
      SUCCEEDED workflow has left the cluster READY. */
  lemma {:induction false} OrderlyRun(kind: Kind, env: Env, y0: System, wf: Row, names: seq<string>,
                                      events: seq<Event>, y: System)
    requires env.Concurrent? || env.Repeating?
    requires Begins(kind, y0, wf, names) && History(kind, env, y0, events, y)
    ensures Safe(kind, y0.w, y.w)
    ensures y.s.row.status.Succeeded? ==> y.w.cluster.state == State.Ready && y.w.saved == Chain(kind, y0.w)
  {
    BeginsInv(kind, env, y0, wf, names);
    var c := HistoryKeeps(kind, env, y0, events, y);
    if y.s.row.status.Succeeded? {
      SucceededCursor(env, y.s, c);
    }
  }

  lemma {:induction false} SucceededCursor(env: Env, s: Sys, c: Cursor)
    requires env.Concurrent? || env.Repeating?
    requires EngineInv(env, s, c) && s.row.status.Succeeded?
    ensures c == At(|s.steps|)
  {
    if env.Repeating? && s.actors != map[] {
      var id :| id in s.actors;
      assert View(s, s.actors[id], c);
    }
  }

  /** No transition moves a change set's status down. */
  lemma {:induction false} ChangeSetsClimb(kind: Kind, env: Env, y0: System, wf: Row, names: seq<string>,
                                           events: seq<Event>, y: System,
                        e: Event, z: System)
    requires env.Concurrent? || env.Repeating?
    requires Begins(kind, y0, wf, names) && History(kind, env, y0, events, y) && Happens(kind, env, y, e, z)
    ensures Upward(y.w, z.w)
  {
    BeginsInv(kind, env, y0, wf, names);
    var c := HistoryKeeps(kind, env, y0, events, y);
    if e.Engine? {
      EngineKeeps(kind, env, y0.w, y, e, c);
    } else {
      PeopleKeep(kind, env, y0.w, y, e, c);
    }
  }
}
