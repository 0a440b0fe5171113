/** The step functions as the source writes them (internal/workflows/cluster_provision.go,
    cluster_upgrade.go, capi_change.go): a loaded cluster or change set is changed in place and
    then saved, and the checks are loops that stop at the first failure. Run, which stands for
    the two Definitions, is proved equal to RunStep of ProvisionSteps. */
module ProvisionObjects {
  import opened Workflow
  import opened PullRequestUrl
  import opened ProvisionSteps
  import L = ClusterLifecycle

  /** A change set loaded from, or about to be written to, the database. */
  class LoadedChangeSet {
    var value: ChangeSet

    constructor (value: ChangeSet)
      ensures this.value == value
    {
      this.value := value;
    }
  }

  /** A pull request asks to merge its head branch into its base. */
  datatype Request = Request(head: string, base: string)

  /** A name is only ever given to one commit. */
  class GitHost {
    const owner: string
    const repo: string
    const autoMerge: bool
    var branches: map<string, string>
    var parents: map<string, string>
    var commits: nat
    var prs: map<nat, PRState>
    var requests: map<nat, Request>
    var nextPR: nat
    var mine: seq<nat>

    /** Recorded commits carry names already used. */
    ghost predicate Valid()
      reads this
    {
      forall sha :: sha in parents ==> exists j: nat :: j < commits && sha == "sha-" + Itoa(j)
    }

    constructor (owner: string, repo: string, autoMerge: bool)
      ensures this.owner == owner && this.repo == repo && this.autoMerge == autoMerge
      ensures branches == map[] && parents == map[] && commits == 0 && prs == map[] && requests == map[]
      ensures nextPR == 1 && mine == []
      ensures Valid()
    {
      this.owner, this.repo, this.autoMerge := owner, repo, autoMerge;
      branches, parents, commits, prs, requests, nextPR, mine := map[], map[], 0, map[], map[], 1, [];
    }

    method CreateBranch(branch: string, from: string, ok: bool) returns (err: bool)
      modifies this`branches
      ensures err == !ok
      ensures branches == if ok then old(branches)[branch := from] else old(branches)
    {
      err := !ok;
      if ok {
        branches := branches[branch := from];
      }
    }

    /** A fresh commit on top of the branch, whose parent is remembered. */
    method Commit(branch: string, ok: bool) returns (sha: string, err: bool)
      requires Valid()
      modifies this`commits, this`branches, this`parents
      ensures Valid()
      ensures err == !ok
      ensures sha == "sha-" + Itoa(old(commits)) && sha !in old(parents)
      ensures err ==> commits == old(commits) && branches == old(branches) && parents == old(parents)
      ensures !err ==>
        && commits == old(commits) + 1
        && branches == old(branches)[branch := sha]
        && parents == (if branch in old(branches) && old(branches)[branch] != "" then old(parents)[sha := old(branches)[branch]]
                       else old(parents))
    {
      sha, err := "sha-" + Itoa(commits), !ok;
      forall j: nat | j < commits ensures "sha-" + Itoa(j) != sha {
        NamesDiffer(j, commits);
      }
      if ok {
        var parent := if branch in branches then branches[branch] else "";
        commits := commits + 1;
        if parent != "" {
          parents := parents[sha := parent];
        }
        branches := branches[branch := sha];
      }
    }

    /** The fresh number, and the URL the provider prints for it. */
    method CreatePullRequest(request: Request, ok: bool) returns (number: nat, url: string, err: bool)
      modifies this`prs, this`requests, this`nextPR, this`mine
      ensures err <==> !(ok && old(nextPR) <= MAX_INT)
      ensures !err ==> number == old(nextPR) && number in prs
      ensures !err ==> url == "https://github.com/" + owner + "/" + repo + "/pull/" + Itoa(number)
      ensures requests == if err then old(requests) else old(requests)[old(nextPR) := request]
      ensures prs == if err then old(prs) else old(prs)[old(nextPR) := if autoMerge then MergedPR else Open]
      ensures nextPR == if err then old(nextPR) else old(nextPR) + 1
      ensures mine == if err then old(mine) else old(mine) + [old(nextPR)]
    {
      number, url, err := nextPR, PullURL(owner, repo, nextPR), !(ok && nextPR <= MAX_INT);
      if !err {
        prs := prs[number := if autoMerge then MergedPR else Open];
        requests := requests[number := request];
        nextPR := nextPR + 1;
        mine := mine + [number];
      }
    }

    method GetPullRequest(number: int, ok: bool) returns (state: PRState, err: bool)
      ensures err <==> !ok || number < 0 || number !in prs
      ensures !err ==> state == prs[number]
    {
      err := !ok || number < 0 || number !in prs;
      state := if err then Open else prs[number];
    }
  }

  lemma {:induction false} NamesDiffer(j: nat, k: nat)
    requires j != k
    ensures "sha-" + Itoa(j) != "sha-" + Itoa(k)
  {
    ItoaDigits(j);
    ItoaDigits(k);
    assert ("sha-" + Itoa(j))[4..] == Itoa(j) && ("sha-" + Itoa(k))[4..] == Itoa(k);
  }

  // ------------------------------------------------------------------ the read-only loops

  /** waitForClusterAPIReady's loop: the first resource that is not ready ends it. */
  method FirstNotReady(resources: seq<Resource>) returns (i: nat)
    ensures i <= |resources| && AllReady(resources[..i])
    ensures i < |resources| ==> !resources[i].ready
  {
    i := 0;
    while i < |resources| && resources[i].ready
      invariant i <= |resources| && AllReady(resources[..i])
    {
      i := i + 1;
    }
  }

  /** filePaths. */
  method FilePaths(files: seq<File>) returns (paths: array<string>)
    ensures fresh(paths) && paths[..] == Paths(files)
  {
    paths := new string[|files|](_ => "");
    for i := 0 to |files|
      invariant forall j :: 0 <= j < i ==> paths[j] == files[j].path
    {
      paths[i] := files[i].path;
    }
  }

  /** checkTalosHealth's loop: every machine must be registered (if the cluster has credentials
      of its own), reachable and healthy. */
  method ProbeMachines(credentials: bool, machines: seq<Probe>) returns (ok: bool)
    ensures ok == AllSound(credentials, machines)
  {
    for i := 0 to |machines|
      invariant AllSound(credentials, machines[..i])
    {
      var m := machines[i];
      if credentials && !m.registered {
        return false;
      }
      if !m.reachable {
        return false;
      }
      if !m.healthy {
        return false;
      }
    }
    assert machines[..|machines|] == machines;
    return true;
  }

  // ------------------------------------------------------------------ the steps

  class Steps {
    const git: GitHost
    const trunk: string
    var cluster: Cluster
    var changeSets: seq<ChangeSet>
    var saved: seq<L.State>

    constructor (git: GitHost, trunk: string, cluster: Cluster)
      ensures this.git == git && this.trunk == trunk && this.cluster == cluster && changeSets == [] && saved == []
    {
      this.git, this.trunk, this.cluster, changeSets, saved := git, trunk, cluster, [], [];
    }

    function View(): World
      reads this, git
    {
      World(cluster, changeSets, git.owner, git.repo, git.prs, git.nextPR, git.commits, git.autoMerge, saved, git.mine)
    }

    /** The branches after an attempt to commit the rendered files to branch: it is off the trunk,
        and then at the new commit, whose parent the trunk is. Everything else of Git that the
        World does not show is as it was. */
    twostate predicate CommitsTo(branch: string, c: Calls)
      reads git
    {
      var branched := c.config && c.rendered.Rendered? && c.branch;
      var sha := "sha-" + Itoa(old(git.commits));
      && git.branches == (if !branched then old(git.branches)
                          else old(git.branches)[branch := if c.commit then sha else trunk])
      && git.parents == if branched && c.commit && trunk != "" then old(git.parents)[sha := trunk] else old(git.parents)
    }

    /** The pull request opened now, if one was, is for this branch and the trunk. */
    twostate predicate Requests(branch: string)
      reads git
    {
      git.requests == if git.nextPR == old(git.nextPR) then old(git.requests)
                      else old(git.requests)[old(git.nextPR) := Request(branch, trunk)]
    }

    twostate predicate GitUntouched()
      reads git
    {
      git.branches == old(git.branches) && git.parents == old(git.parents) && git.requests == old(git.requests)
    }

    /** c is the caller's copy of the cluster row. */
    method TransitionAndSave(c: L.Cluster, next: L.State, calls: Calls) returns (ok: bool)
      requires c.state == cluster.state
      modifies this, c
      ensures ok == CanMove(old(View()), next, calls)
      ensures View() == if ok then Move(old(View()), next) else old(View())
    {
      if c.state == next {
        return true;
      }
      ok := c.Transition(next);
      if ok {
        ok := calls.save;
      }
      if ok {
        cluster := cluster.(state := c.state);
        saved := saved + [c.state];
      }
    }

    /** null when the listing fails or is empty. */
    method LatestChangeSet(calls: Calls) returns (cs: LoadedChangeSet?)
      ensures cs == null <==> !calls.list || |changeSets| == 0
      ensures cs != null ==> fresh(cs) && cs.value == Latest(View())
    {
      if !calls.list || |changeSets| == 0 {
        return null;
      }
      cs := new LoadedChangeSet(changeSets[|changeSets| - 1]);
    }

    /** Writes back the latest change set. */
    method UpdateChangeSet(cs: LoadedChangeSet, ok: bool) returns (err: bool)
      requires |changeSets| > 0
      modifies this`changeSets
      ensures err == !ok
      ensures View() == if ok then SetLatest(old(View()), cs.value) else old(View())
    {
      err := !ok;
      if ok {
        changeSets := changeSets[|changeSets| - 1 := cs.value];
      }
    }

    /** commit-to-git, and the first half of commitClusterAPIChange. */
    method CommitToGit(wf: Row, c: Calls, branch: string) returns (o: Outcome)
      requires git.Valid()
      modifies this, git
      ensures git.Valid() && (o, View()) == CommitManifests(wf, old(View()), c, branch)
      ensures CommitsTo(branch, c) && git.requests == old(git.requests)
    {
      if !c.config {
        return Err("loading gitops configuration");
      }
      if c.rendered.Unrendered? {
        return Err("rendering manifests");
      }
      var files := c.rendered.files;
      var err := git.CreateBranch(branch, trunk, c.branch);
      if err {
        return Err("creating branch");
      }
      var sha;
      sha, err := git.Commit(branch, c.commit);
      if err {
        return Err("committing manifests");
      }
      o := RecordCommit(wf, files, sha, branch, c.record);
    }

    /** The change set of a commit just made. */
    method RecordCommit(wf: Row, files: seq<File>, sha: string, branch: string, ok: bool) returns (o: Outcome)
      modifies this`changeSets
      ensures changeSets == if ok then old(changeSets) + [ChangeSet(wf.id, Paths(files), sha, "", Committed, "")]
                            else old(changeSets)
      ensures o == if ok then Ok(map["branch" := branch, "sha" := sha, "filesCommitted" := Itoa(|files|)])
                   else Err("recording change set")
    {
      var paths := FilePaths(files);
      var cs := new LoadedChangeSet(ChangeSet(wf.id, paths[..], sha, "", Committed, ""));
      if !ok {
        return Err("recording change set");
      }
      changeSets := changeSets + [cs.value];
      o := Ok(map["branch" := branch, "sha" := sha, "filesCommitted" := Itoa(|files|)]);
    }

    /** create-pull-request. */
    method OpenRequest(c: Calls) returns (o: Outcome)
      requires git.Valid()
      modifies this, git
      ensures git.Valid() && (o, View()) == CreatePullRequest(old(View()), c)
      ensures Requests("platform/cluster-" + cluster.name)
      ensures git.branches == old(git.branches) && git.parents == old(git.parents)
    {
      if !c.config {
        return Err("loading gitops configuration");
      }
      var number, url, err := git.CreatePullRequest(Request(ProvisionBranch(View()), trunk), c.openPR);
      if err {
        return Err("creating pull request");
      }
      var cs := LatestChangeSet(c);
      if cs == null {
        return Err(if !c.list then "listing change sets" else "no change set found");
      }
      cs.value := cs.value.(url := url);
      cs.value := cs.value.(status := PRCreated);
      err := UpdateChangeSet(cs, c.update);
      if err {
        return Err("recording change set");
      }
      o := Ok(map["pullRequestURL" := url, "pullRequestNumber" := Itoa(number)]);
    }

    /** The part both gates share: the pull request of the latest change set. */
    method ReadPullRequest(kind: Kind, c: Calls) returns (cs: LoadedChangeSet?, reading: Reading)
      ensures reading == ReadGate(kind, View(), c)
      ensures reading.Seen? ==> cs != null && fresh(cs) && |changeSets| > 0 && cs.value == Latest(View())
    {
      if kind.Provision? && !c.config {
        return null, Unreadable("loading gitops configuration");
      }
      cs := LatestChangeSet(c);
      if cs == null {
        return null, Unreadable(if !c.list then "listing change sets" else "no change set found");
      }
      if !c.config {
        return null, Unreadable("loading gitops configuration");
      }
      var p := PrNumberFromURL(cs.value.url);
      if p.Malformed? {
        return cs, Unreadable("cannot parse pull request number");
      }
      var state, err := git.GetPullRequest(p.n, c.readPR);
      reading := if err then Unreadable("checking pull request") else Seen(p.n, state);
    }

    /** await-pull-request-merge. */
    method AwaitPullRequestMerge(c: Calls) returns (o: Outcome)
      modifies this
      ensures (o, View()) == AwaitMerge(old(View()), c)
    {
      var cs, reading := ReadPullRequest(Provision, c);
      if reading.Unreadable? {
        return Err(reading.cause);
      }
      if reading.state != MergedPR {
        return Await;
      }
      cs.value := cs.value.(status := Merged);
      cs.value := cs.value.(result := "merged");
      var err := UpdateChangeSet(cs, c.update);
      if err {
        return Err("recording merged change set");
      }
      var loaded := new L.Cluster(cluster.state);
      var ok := TransitionAndSave(loaded, L.State.Installing, c);
      if !ok {
        return Err("transitioning cluster");
      }
      o := Ok(map["merged" := "true", "pullRequestNumber" := Itoa(reading.number)]);
    }

    /** commitClusterAPIChange, for a cluster in CLUSTER_API mode. */
    method CommitClusterAPIChange(wf: Row, c: Calls) returns (o: Outcome)
      requires git.Valid()
      modifies this, git
      ensures git.Valid() && (o, View()) == CommitChange(wf, old(View()), c)
      ensures CommitsTo("platform/cluster-" + cluster.name + "-upgrade", c)
      ensures Requests("platform/cluster-" + cluster.name + "-upgrade")
    {
      var branch := ChangeBranch(View(), "upgrade");
      assert "-" + "upgrade" == "-upgrade";
      assert branch == "platform/cluster-" + cluster.name + ("-" + "upgrade");
      o := CommitToGit(wf, c, branch);
      if o.Ok? {
        o := RequestChange(branch, c);
      }
    }

    /** Its second half: the pull request for the change set just recorded. */
    method RequestChange(branch: string, c: Calls) returns (o: Outcome)
      requires git.Valid() && |changeSets| > 0
      modifies this, git
      ensures git.Valid()
      ensures (o, View()) == var w := old(View());
              if !CanOpen(w, c) then (Err("creating pull request"), w)
              else if !c.update then (Err("recording change set"), OpenPullRequest(w))
              else (Ok(map["committed" := "true"]), RecordPullRequest(OpenPullRequest(w), w.nextPR))
      ensures Requests(branch) && git.branches == old(git.branches) && git.parents == old(git.parents)
    {
      var _, url, err := git.CreatePullRequest(Request(branch, trunk), c.openPR);
      if err {
        return Err("creating pull request");
      }
      var cs := new LoadedChangeSet(changeSets[|changeSets| - 1]);
      cs.value := cs.value.(url := url);
      cs.value := cs.value.(status := PRCreated);
      err := UpdateChangeSet(cs, c.update);
      if err {
        return Err("recording change set");
      }
      o := Ok(map["committed" := "true"]);
    }

    /** awaitClusterAPIChangeMerge, for a cluster in CLUSTER_API mode. */
    method AwaitClusterAPIChangeMerge(c: Calls) returns (o: Outcome)
      modifies this
      ensures (o, View()) == AwaitChangeMerge(old(View()), c)
    {
      var cs, reading := ReadPullRequest(Upgrade, c);
      if reading.Unreadable? {
        return Err(reading.cause);
      }
      if reading.state != MergedPR {
        return Await;
      }
      cs.value := cs.value.(status := Merged);
      cs.value := cs.value.(result := "merged");
      var err := UpdateChangeSet(cs, c.update);
      if err {
        return Err("recording merged change set");
      }
      if cluster.argo {
        if !c.sync {
          return Err("syncing argocd application");
        }
        cs.value := cs.value.(status := Synced);
        err := UpdateChangeSet(cs, c.updateAgain);
        if err {
          return Err("recording synced change set");
        }
      }
      o := Ok(map["merged" := "true"]);
    }

    /** wait-for-argocd-sync. */
    method SyncArgoCD(c: Calls) returns (o: Outcome)
      modifies this
      ensures (o, View()) == WaitForArgoCD(old(View()), c)
    {
      if !cluster.argo {
        return Ok(SKIPPED);
      }
      if !c.sync {
        return Err("syncing argocd application");
      }
      var cs := LatestChangeSet(c);
      if cs != null {
        cs.value := cs.value.(status := Synced);
        var _ := UpdateChangeSet(cs, c.update);
      }
      o := Ok(map["synced" := "true"]);
    }

    /** wait-for-cluster-api. */
    method AwaitClusterAPI(c: Calls) returns (o: Outcome)
      ensures (o, View()) == WaitForClusterAPI(View(), c)
    {
      if !cluster.capi {
        return Ok(map["capiReady" := "false"]);
      }
      if c.resources.Unlisted? {
        return Err("checking CAPI status");
      }
      var i := FirstNotReady(c.resources.resources);
      if i < |c.resources.resources| {
        return Err("CAPI resource not ready");
      }
      assert c.resources.resources[..i] == c.resources.resources;
      o := Ok(map["capiReady" := "true"]);
    }

    /** check-talos-health. */
    method CheckHealth(c: Calls) returns (o: Outcome)
      modifies this
      ensures (o, View()) == if CanMove(old(View()), L.State.Configuring, c)
                             then CheckTalosHealth(Move(old(View()), L.State.Configuring), c.talos)
                             else (Err("transitioning cluster"), old(View()))
    {
      var loaded := new L.Cluster(cluster.state);
      var ok := TransitionAndSave(loaded, L.State.Configuring, c);
      if !ok {
        return Err("transitioning cluster");
      }
      match c.talos
      case Unwired => o := Ok(map["talosHealthy" := "true", "machinesChecked" := Itoa(0)]);
      case MachinesUnlisted => o := Err("listing machines");
      case SecretUnreadable => o := Err("loading talosconfig");
      case Probed(credentials, machines) =>
        var sound := ProbeMachines(credentials, machines);
        o := if sound then Ok(map["talosHealthy" := "true", "machinesChecked" := Itoa(|machines|)])
             else Err("checking Talos health");
    }

    /** mark-ready; unlike the other steps it fails when the cluster is READY already. */
    method MarkReady(c: Calls) returns (o: Outcome)
      modifies this
      ensures (o, View()) == if L.CanTransition(old(View()).cluster.state, L.State.Ready) && c.save
                             then (Ok(map["state" := "READY"]), Save(old(View()), L.State.Ready))
                             else (Err("transitioning cluster to READY"), old(View()))
    {
      var loaded := new L.Cluster(cluster.state);
      var ok := loaded.Transition(L.State.Ready);
      if !ok || !c.save {
        return Err("transitioning cluster to READY");
      }
      cluster := cluster.(state := loaded.state);
      saved := saved + [loaded.state];
      o := Ok(map["state" := "READY"]);
    }

    /** One transition step: its success output, or its error. */
    method Advance(next: L.State, c: Calls, done: Output, failure: string) returns (o: Outcome)
      modifies this
      ensures (o, View()) == if CanMove(old(View()), next, c) then (Ok(done), Move(old(View()), next))
                             else (Err(failure), old(View()))
    {
      var loaded := new L.Cluster(cluster.state);
      var ok := TransitionAndSave(loaded, next, c);
      o := if ok then Ok(done) else Err(failure);
    }

    method RunProvision(i: nat, wf: Row, c: Calls) returns (o: Outcome)
      requires git.Valid()
      modifies this, git
      ensures git.Valid() && (o, View()) == ProvisionStep(i, wf, old(View()), c)
      ensures if c.load && i == 6 then
                CommitsTo("platform/cluster-" + old(cluster.name), c) && git.requests == old(git.requests)
              else if c.load && i == 7 then
                && Requests("platform/cluster-" + old(cluster.name))
                && git.branches == old(git.branches) && git.parents == old(git.parents)
              else GitUntouched()
    {
      if !c.load {
        return Err("loading cluster");
      }
      if i == 3 {
        o := Advance(L.State.Bootstrapping, c, map["talosVersion" := cluster.talos], "transitioning cluster");
      } else if i == 6 {
        o := CommitToGit(wf, c, ProvisionBranch(View()));
      } else if i == 7 {
        o := OpenRequest(c);
      } else if i == 8 {
        o := AwaitPullRequestMerge(c);
      } else if i == 9 {
        o := SyncArgoCD(c);
      } else if i == 10 {
        o := AwaitClusterAPI(c);
      } else if i == 11 {
        o := CheckHealth(c);
      } else if i == 14 {
        o := MarkReady(c);
      } else {
        o := Inspect(i, cluster, c);
      }
    }

    method RunUpgrade(i: nat, wf: Row, c: Calls) returns (o: Outcome)
      requires git.Valid()
      modifies this, git
      ensures git.Valid() && (o, View()) == UpgradeStep(i, wf, old(View()), c)
      ensures if c.load && i == 3 && old(cluster.capi) then
                && CommitsTo("platform/cluster-" + old(cluster.name) + "-upgrade", c)
                && Requests("platform/cluster-" + old(cluster.name) + "-upgrade")
              else GitUntouched()
    {
      if !c.load {
        return Err("loading cluster");
      }
      if i == 0 {
        o := Advance(L.State.Upgrading, c, map["from" := cluster.kubernetes], "transitioning cluster");
      } else if i == 1 || i == 2 {
        o := Ok(if cluster.capi then map["skipped" := "true", "reason" := "CAPI-managed"] else map["upgraded" := "true"]);
      } else if i == 3 {
        if !cluster.capi {
          return Ok(SKIPPED);
        }
        o := CommitClusterAPIChange(wf, c);
      } else if i == 4 {
        if !cluster.capi {
          return Ok(SKIPPED);
        }
        o := AwaitClusterAPIChangeMerge(c);
      } else if i == 5 {
        o := AwaitClusterAPI(c);
      } else {
        o := Advance(L.State.Ready, c, map["state" := "READY"], "marking cluster ready");
      }
    }

    /** What the engine calls for step i of either definition. The commit goes to the operation's
        branch off the trunk, the pull request asks to merge that branch into the trunk, and no
        other step touches branches or opens pull requests. */
    method Run(kind: Kind, i: nat, wf: Row, c: Calls) returns (o: Outcome)
      requires git.Valid()
      modifies this, git
      ensures git.Valid() && (o, View()) == RunStep(kind, i, wf, old(View()), c)
      ensures c.load && kind.Provision? && i == 6 ==>
                CommitsTo("platform/cluster-" + old(cluster.name), c) && git.requests == old(git.requests)
      ensures c.load && kind.Provision? && i == 7 ==>
                && Requests("platform/cluster-" + old(cluster.name))
                && git.branches == old(git.branches) && git.parents == old(git.parents)
      ensures c.load && kind.Upgrade? && i == 3 && old(cluster.capi) ==>
                && CommitsTo("platform/cluster-" + old(cluster.name) + "-upgrade", c)
                && Requests("platform/cluster-" + old(cluster.name) + "-upgrade")
      ensures !c.load || (kind.Provision? && i != 6 && i != 7) || (kind.Upgrade? && (i != 3 || !old(cluster.capi))) ==>
                GitUntouched()
    {
      if kind.Provision? {
        o := RunProvision(i, wf, c);
      } else {
        o := RunUpgrade(i, wf, c);
      }
    }
  }
}
