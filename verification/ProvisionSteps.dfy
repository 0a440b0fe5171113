/** The step functions of CLUSTER_PROVISION and CLUSTER_UPGRADE
    (internal/workflows/cluster_provision.go, cluster_upgrade.go, capi_change.go) over the
    records they read and write. */
module ProvisionSteps {
  import opened Workflow
  import opened PullRequestUrl
  import opened ClusterLifecycle

  datatype ChangeSetStatus = Committed | PRCreated | Merged | Synced

  /** files are the generated paths. */
  datatype ChangeSet = ChangeSet(workflow: nat, files: seq<string>, sha: string, url: string,
                                 status: ChangeSetStatus, result: string)

  datatype PRState = Open | Closed | MergedPR

  datatype Cluster = Cluster(name: string, site: string, kubernetes: string, talos: string, podCIDR: string,
                             serviceCIDR: string, argo: bool, project: string, capi: bool, state: State)

  /** One cluster, its change sets (oldest first) and the repository's pull requests. saved
      lists the states persisted so far and mine the pull requests opened so far by the
      workflow; autoMerge is a Git host that merges every pull request as it is opened. */
  datatype World = World(cluster: Cluster, changeSets: seq<ChangeSet>, owner: string, repo: string,
                         prs: map<nat, PRState>, nextPR: nat, commits: nat, autoMerge: bool,
                         saved: seq<State>, mine: seq<nat>)

  datatype File = File(path: string, content: string)

  datatype Rendering = Unrendered | Rendered(files: seq<File>)

  datatype Resource = Resource(kind: string, name: string, ready: bool, phase: string)

  datatype Listing = Unlisted | Listed(resources: seq<Resource>)

  /** One machine: whether its credentials can be registered, and what its health call says. */
  datatype Probe = Probe(registered: bool, reachable: bool, healthy: bool)

  /** What checkTalosHealth meets: no machine repository or Talos client, a failing list, a
      failing secret read, or the machines (credentials: the cluster has its own). */
  datatype Talos = Unwired | MachinesUnlisted | SecretUnreadable | Probed(credentials: bool, machines: seq<Probe>)

  /** The answers the calls of one step get: which reads (load, config, list, readPR), writes
      (record, update, updateAgain, save) and Git and Argo CD calls succeed, and what the
      renderer, the Cluster API and the machines report. */
  datatype Calls = Calls(load: bool, config: bool, list: bool, readPR: bool,
                         record: bool, update: bool, updateAgain: bool, save: bool,
                         rendered: Rendering, branch: bool, commit: bool, openPR: bool, sync: bool,
                         resources: Listing, talos: Talos)

  datatype Kind = Provision | Upgrade

  function StepCount(kind: Kind): nat {
    if kind.Provision? then 15 else 7
  }

  /** The step that waits for the merge. */
  function GateStep(kind: Kind): nat {
    if kind.Provision? then 8 else 4
  }

  const SKIPPED: Output := map["skipped" := "true"]

  function Save(w: World, next: State): World {
    w.(cluster := w.cluster.(state := next), saved := w.saved + [next])
  }

  /** transitionAndSave: nothing when already there, an error when the transition is illegal or
      cannot be saved. */
  predicate CanMove(w: World, next: State, c: Calls) {
    w.cluster.state == next || (CanTransition(w.cluster.state, next) && c.save)
  }

  function Move(w: World, next: State): World {
    if w.cluster.state == next then w else Save(w, next)
  }

  function Latest(w: World): ChangeSet
    requires |w.changeSets| > 0
  {
    w.changeSets[|w.changeSets| - 1]
  }

  function SetLatest(w: World, cs: ChangeSet): World
    requires |w.changeSets| > 0
  {
    w.(changeSets := w.changeSets[|w.changeSets| - 1 := cs])
  }

  function SetStatus(w: World, status: ChangeSetStatus): World
    requires |w.changeSets| > 0
  {
    SetLatest(w, Latest(w).(status := status, result := if status.Merged? then "merged" else Latest(w).result))
  }

  function Paths(files: seq<File>): seq<string> {
    seq(|files|, i requires 0 <= i < |files| => files[i].path)
  }

  /** The branch of a provisioning run, and that of another operation on the cluster. */
  function ProvisionBranch(w: World): string {
    "platform/cluster-" + w.cluster.name
  }

  function ChangeBranch(w: World, operation: string): string {
    "platform/cluster-" + w.cluster.name + "-" + operation
  }

  /** Commit the rendered files and record a change set for them. */
  function CommitManifests(wf: Row, w: World, c: Calls, branch: string): (Outcome, World) {
    if !c.config then (Err("loading gitops configuration"), w)
    else if c.rendered.Unrendered? then (Err("rendering manifests"), w)
    else if !c.branch then (Err("creating branch"), w)
    else if !c.commit then (Err("committing manifests"), w)
    else
      var sha, w' := "sha-" + Itoa(w.commits), w.(commits := w.commits + 1);
      if !c.record then (Err("recording change set"), w')
      else
        (Ok(map["branch" := branch, "sha" := sha, "filesCommitted" := Itoa(|c.rendered.files|)]),
         w'.(changeSets := w'.changeSets + [ChangeSet(wf.id, Paths(c.rendered.files), sha, "", Committed, "")]))
  }

  /** The Git host numbers the new pull request; numbers are ints. */
  predicate CanOpen(w: World, c: Calls) {
    c.openPR && w.nextPR <= MAX_INT
  }

  function OpenPullRequest(w: World): World {
    w.(prs := w.prs[w.nextPR := if w.autoMerge then MergedPR else Open], nextPR := w.nextPR + 1,
       mine := w.mine + [w.nextPR])
  }

  function RecordPullRequest(w: World, n: nat): World
    requires |w.changeSets| > 0
  {
    SetLatest(w, Latest(w).(url := PullURL(w.owner, w.repo, n), status := PRCreated))
  }

  /** The body of create-pull-request. */
  function CreatePullRequest(w: World, c: Calls): (Outcome, World) {
    if !c.config then (Err("loading gitops configuration"), w)
    else if !CanOpen(w, c) then (Err("creating pull request"), w)
    else
      var n, w' := w.nextPR, OpenPullRequest(w);
      if !c.list then (Err("listing change sets"), w')
      else if |w.changeSets| == 0 then (Err("no change set found"), w')
      else if !c.update then (Err("recording change set"), w')
      else (Ok(map["pullRequestURL" := PullURL(w.owner, w.repo, n), "pullRequestNumber" := Itoa(n)]), RecordPullRequest(w', n))
  }

  datatype Reading = Unreadable(cause: string) | Seen(number: int, state: PRState)

  /** The pull request a change set's URL names. */
  function ReadPullRequest(w: World, url: string, c: Calls): Reading {
    var p := PrNumberFromURL(url);
    if p.Malformed? then Unreadable("cannot parse pull request number")
    else if !c.readPR || p.n < 0 || p.n !in w.prs then Unreadable("checking pull request")
    else Seen(p.n, w.prs[p.n])
  }

  /** What the gate sees: the pull request of the latest change set. The provisioning gate loads
      the repository first, the upgrade's gate the change set. */
  function ReadGate(kind: Kind, w: World, c: Calls): Reading {
    if kind.Provision? && !c.config then Unreadable("loading gitops configuration")
    else if !c.list then Unreadable("listing change sets")
    else if |w.changeSets| == 0 then Unreadable("no change set found")
    else if !c.config then Unreadable("loading gitops configuration")
    else ReadPullRequest(w, Latest(w).url, c)
  }

  /** The body of await-pull-request-merge. */
  function AwaitMerge(w: World, c: Calls): (Outcome, World) {
    var g := ReadGate(Provision, w, c);
    if g.Unreadable? then (Err(g.cause), w)
    else if g.state != MergedPR then (Await, w)
    else if !c.update then (Err("recording merged change set"), w)
    else
      var w' := SetStatus(w, Merged);
      if CanMove(w', Installing, c) then
        (Ok(map["merged" := "true", "pullRequestNumber" := Itoa(g.number)]), Move(w', Installing))
      else (Err("transitioning cluster"), w')
  }

  /** commitClusterAPIChange: commit, record, open the pull request, record it. */
  function CommitChange(wf: Row, w: World, c: Calls): (Outcome, World) {
    var (o, w') := CommitManifests(wf, w, c, ChangeBranch(w, "upgrade"));
    if !o.Ok? then (o, w')
    else if !CanOpen(w', c) then (Err("creating pull request"), w')
    else if !c.update then (Err("recording change set"), OpenPullRequest(w'))
    else (Ok(map["committed" := "true"]), RecordPullRequest(OpenPullRequest(w'), w'.nextPR))
  }

  /** awaitClusterAPIChangeMerge. */
  function AwaitChangeMerge(w: World, c: Calls): (Outcome, World) {
    var g := ReadGate(Upgrade, w, c);
    if g.Unreadable? then (Err(g.cause), w)
    else if g.state != MergedPR then (Await, w)
    else if !c.update then (Err("recording merged change set"), w)
    else
      var w' := SetStatus(w, Merged);
      if !w.cluster.argo then (Ok(map["merged" := "true"]), w')
      else if !c.sync then (Err("syncing argocd application"), w')
      else if !c.updateAgain then (Err("recording synced change set"), w')
      else (Ok(map["merged" := "true"]), SetStatus(w', Synced))
  }

  /** wait-for-argocd-sync; that the change set cannot be updated is not an error. */
  function WaitForArgoCD(w: World, c: Calls): (Outcome, World) {
    if !w.cluster.argo then (Ok(SKIPPED), w)
    else if !c.sync then (Err("syncing argocd application"), w)
    else (Ok(map["synced" := "true"]), if c.list && |w.changeSets| > 0 && c.update then SetStatus(w, Synced) else w)
  }

  predicate AllReady(resources: seq<Resource>) {
    forall i :: 0 <= i < |resources| ==> resources[i].ready
  }

  function WaitForClusterAPI(w: World, c: Calls): (Outcome, World) {
    if !w.cluster.capi then (Ok(map["capiReady" := "false"]), w)
    else if c.resources.Unlisted? then (Err("checking CAPI status"), w)
    else if !AllReady(c.resources.resources) then (Err("CAPI resource not ready"), w)
    else (Ok(map["capiReady" := "true"]), w)
  }

  predicate Sound(credentials: bool, m: Probe) {
    (credentials ==> m.registered) && m.reachable && m.healthy
  }

  predicate AllSound(credentials: bool, machines: seq<Probe>) {
    forall i :: 0 <= i < |machines| ==> Sound(credentials, machines[i])
  }

  /** check-talos-health: the number of machines checked, when all of them are sound. */
  function CheckTalosHealth(w: World, t: Talos): (Outcome, World) {
    match t
    case Unwired => (Ok(map["talosHealthy" := "true", "machinesChecked" := Itoa(0)]), w)
    case MachinesUnlisted => (Err("listing machines"), w)
    case SecretUnreadable => (Err("loading talosconfig"), w)
    case Probed(credentials, machines) =>
      if AllSound(credentials, machines) then
        (Ok(map["talosHealthy" := "true", "machinesChecked" := Itoa(|machines|)]), w)
      else (Err("checking Talos health"), w)
  }

  /** The steps that only look at the cluster row, and change nothing. */
  function Inspect(i: nat, cl: Cluster, c: Calls): Outcome {
    if i == 0 then  // validate-request
      if cl.kubernetes == "" || cl.talos == "" then Err("cluster spec missing required versions")
      else Ok(map["validated" := "true"])
    else if i == 1 then  // validate-infrastructure
      if cl.site == "" then Err("cluster has no site assigned") else Ok(map["site" := cl.site])
    else if i == 2 then  // validate-ip-allocation
      if cl.podCIDR == "" || cl.serviceCIDR == "" then Err("cluster network CIDRs are not set")
      else Ok(map["podCIDR" := cl.podCIDR, "serviceCIDR" := cl.serviceCIDR])
    else if i == 4 then  // generate-capi-manifests
      if !cl.capi then Ok(SKIPPED)
      else if c.rendered.Unrendered? then Err("rendering CAPI manifests")
      else Ok(map["files" := Itoa(|c.rendered.files|)])
    else if i == 5 then  // generate-argocd-configuration
      Ok(if cl.argo then map["project" := cl.project] else SKIPPED)
    else if i == 12 then Ok(map["kubernetesHealthy" := "true"])
    else Ok(map["operatorsHealthy" := "true"])
  }

  function ProvisionStep(i: nat, wf: Row, w: World, c: Calls): (Outcome, World) {
    if !c.load then (Err("loading cluster"), w)
    else if i == 3 then  // generate-talos-configuration
      if CanMove(w, Bootstrapping, c) then (Ok(map["talosVersion" := w.cluster.talos]), Move(w, Bootstrapping))
      else (Err("transitioning cluster"), w)
    else if i == 6 then CommitManifests(wf, w, c, ProvisionBranch(w))  // commit-to-git
    else if i == 7 then CreatePullRequest(w, c)
    else if i == 8 then AwaitMerge(w, c)  // await-pull-request-merge
    else if i == 9 then WaitForArgoCD(w, c)
    else if i == 10 then WaitForClusterAPI(w, c)
    else if i == 11 then  // check-talos-health
      if CanMove(w, Configuring, c) then CheckTalosHealth(Move(w, Configuring), c.talos)
      else (Err("transitioning cluster"), w)
    else if i == 14 then  // mark-ready
      if CanTransition(w.cluster.state, Ready) && c.save then (Ok(map["state" := "READY"]), Save(w, Ready))
      else (Err("transitioning cluster to READY"), w)
    else (Inspect(i, w.cluster, c), w)
  }

  function UpgradeStep(i: nat, wf: Row, w: World, c: Calls): (Outcome, World) {
    var cl := w.cluster;
    if !c.load then (Err("loading cluster"), w)
    else if i == 0 then  // begin-upgrade
      if CanMove(w, Upgrading, c) then (Ok(map["from" := cl.kubernetes]), Move(w, Upgrading))
      else (Err("transitioning cluster"), w)
    else if i == 1 || i == 2 then  // upgrade-control-plane, upgrade-workers
      (Ok(if cl.capi then map["skipped" := "true", "reason" := "CAPI-managed"] else map["upgraded" := "true"]), w)
    else if i == 3 then  // commit-capi-upgrade
      if !cl.capi then (Ok(SKIPPED), w) else CommitChange(wf, w, c)
    else if i == 4 then  // await-capi-upgrade-merge
      if !cl.capi then (Ok(SKIPPED), w) else AwaitChangeMerge(w, c)
    else if i == 5 then WaitForClusterAPI(w, c)
    else  // verify-and-mark-ready
      if CanMove(w, Ready, c) then (Ok(map["state" := "READY"]), Move(w, Ready)) else (Err("marking cluster ready"), w)
  }

  function RunStep(kind: Kind, i: nat, wf: Row, w: World, c: Calls): (Outcome, World) {
    if kind.Provision? then ProvisionStep(i, wf, w, c) else UpgradeStep(i, wf, w, c)
  }
}
