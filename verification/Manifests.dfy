/** The Cluster API manifests of a cluster (internal/integrations/clusterapi/client.go): which
    documents are rendered, under which paths, and whether their references resolve. */
module Manifests {

  datatype Option<+T> = None | Some(value: T)

  datatype Pool = Pool(name: string, replicas: int)

  datatype Cluster = Cluster(name: string, endpoint: string, podCIDR: string, serviceCIDR: string,
                             controlPlaneReplicas: int, kubernetesVersion: string, talosVersion: string,
                             workers: seq<Pool>)

  datatype Proxmox = Proxmox(endpoint: string, node: string, templateVMID: int, credentialSecretName: string)
  {
    predicate Configured() {
      endpoint != ""
    }

    function SecretName(clusterName: string): string {
      if credentialSecretName != "" then credentialSecretName else clusterName + "-proxmox-credentials"
    }
  }

  const CAPI := "cluster.x-k8s.io/v1beta1"
  const CACPPT := "controlplane.cluster.x-k8s.io/v1alpha3"
  const CABPT := "bootstrap.cluster.x-k8s.io/v1alpha3"
  const CAPMOX := "infrastructure.cluster.x-k8s.io/v1alpha1"
  const NAMESPACE := "default"
  const KUBE_API_PORT := 6443

  datatype Kind = NoKind | ClusterKind | TalosControlPlane | MachineDeployment | TalosConfigTemplate
                | ProxmoxCluster | ProxmoxMachineTemplate

  /** How one document names another, and the identity of a document itself. */
  datatype Ref = Ref(apiVersion: string, kind: Kind, name: string, namespace: string)

  /** The zero reference the control plane carries without Proxmox. */
  const EMPTY_REF := Ref("", NoKind, "", "")

  datatype Body =
    | ClusterBody(podCIDR: string, serviceCIDR: string, controlPlaneRef: Ref, infrastructureRef: Option<Ref>)
    | ControlPlaneBody(replicas: int, version: string, infrastructureTemplate: Ref)
    | DeploymentBody(clusterName: string, poolLabel: string, replicas: int, version: string, configRef: Ref,
                     infrastructureRef: Option<Ref>)
    | ConfigBody(talosVersion: string)
    | ProxmoxClusterBody(host: string, port: int, allowedNode: string, credentials: string)
    | MachineTemplateBody(node: string, templateVMID: int)

  datatype File = File(path: string, id: Ref, body: Body)

  // ------------------------------------------------------------------ the rendering

  method RenderManifests(p: Proxmox, cl: Cluster) returns (files: seq<File>)
    ensures files == Rendered(p, cl)
  {
    files := RenderCluster(p, cl);
    for i := 0 to |cl.workers|
      invariant files == FilesOf(p, cl, Slots(p, cl.workers[..i]))
    {
      files := RenderPool(p, cl, cl.workers[i], files);
      NextPool(p, cl, i);
    }
    assert cl.workers[..|cl.workers|] == cl.workers;
  }

  method RenderCluster(p: Proxmox, cl: Cluster) returns (files: seq<File>)
    ensures files == FilesOf(p, cl, FixedSlots(p))
  {
    var base := "clusters/" + cl.name;
    var controlPlaneRef := Ref(CACPPT, TalosControlPlane, cl.name + "-control-plane", NAMESPACE);
    files := [];
    var clusterInfraRef := None;
    if p.Configured() {
      var ref := Ref(CAPMOX, ProxmoxCluster, cl.name, NAMESPACE);
      clusterInfraRef := Some(ref);
      files := files + [File(base + "/capi-proxmox-cluster.yaml", ref,
                             ProxmoxClusterBody(cl.endpoint, KUBE_API_PORT, p.node, p.SecretName(cl.name)))];
    }
    files := files + [File(base + "/capi-cluster.yaml", Ref(CAPI, ClusterKind, cl.name, NAMESPACE),
                           ClusterBody(cl.podCIDR, cl.serviceCIDR, controlPlaneRef, clusterInfraRef))];
    var controlPlaneTemplate := EMPTY_REF;
    if p.Configured() {
      controlPlaneTemplate := Ref(CAPMOX, ProxmoxMachineTemplate, controlPlaneRef.name, NAMESPACE);
      files := files + [File(base + "/capi-proxmox-machinetemplate-control-plane.yaml", controlPlaneTemplate,
                             MachineTemplateBody(p.node, p.templateVMID))];
    }
    files := files + [File(base + "/capi-control-plane.yaml", controlPlaneRef,
                           ControlPlaneBody(cl.controlPlaneReplicas, cl.kubernetesVersion, controlPlaneTemplate))];
  }

  /** Appends the documents of one worker pool. */
  method RenderPool(p: Proxmox, cl: Cluster, pool: Pool, before: seq<File>) returns (files: seq<File>)
    ensures files == before + FilesOf(p, cl, PoolSlots(p, pool))
  {
    var base := "clusters/" + cl.name;
    var name := cl.name + "-" + pool.name;
    var configRef := Ref(CABPT, TalosConfigTemplate, name, NAMESPACE);
    var workerInfraRef := None;
    PoolPaths(cl, pool);
    files := before;
    if p.Configured() {
      var ref := Ref(CAPMOX, ProxmoxMachineTemplate, name, NAMESPACE);
      workerInfraRef := Some(ref);
      files := files + [File(base + "/capi-proxmox-machinetemplate-" + pool.name + ".yaml", ref,
                             MachineTemplateBody(p.node, p.templateVMID))];
    }
    files := files + [File(base + "/capi-machinedeployment-" + pool.name + ".yaml", Ref(CAPI, MachineDeployment, name, NAMESPACE),
                           DeploymentBody(cl.name, pool.name, pool.replicas, cl.kubernetesVersion, configRef, workerInfraRef))];
    files := files + [File(base + "/capi-talosconfigtemplate-" + pool.name + ".yaml", configRef, ConfigBody(cl.talosVersion))];
  }

  // ------------------------------------------------------------------ the document set

  /** Which document of the set a file is. */
  datatype Slot = InfraCluster | TheCluster | ControlPlaneTemplate | ControlPlane
                | PoolTemplate(pool: Pool) | Deployment(pool: Pool) | Config(pool: Pool)

  function FixedSlots(p: Proxmox): seq<Slot> {
    if p.Configured() then [InfraCluster, TheCluster, ControlPlaneTemplate, ControlPlane] else [TheCluster, ControlPlane]
  }

  function PoolSlots(p: Proxmox, pool: Pool): seq<Slot> {
    (if p.Configured() then [PoolTemplate(pool)] else []) + [Deployment(pool), Config(pool)]
  }

  function Slots(p: Proxmox, workers: seq<Pool>): seq<Slot> {
    if |workers| == 0 then FixedSlots(p)
    else Slots(p, workers[..|workers| - 1]) + PoolSlots(p, workers[|workers| - 1])
  }

  function Tail(s: Slot): string {
    match s
    case InfraCluster => "/capi-proxmox-cluster.yaml"
    case TheCluster => "/capi-cluster.yaml"
    case ControlPlaneTemplate => "/capi-proxmox-machinetemplate-control-plane.yaml"
    case ControlPlane => "/capi-control-plane.yaml"
    case PoolTemplate(pool) => "/capi-proxmox-machinetemplate-" + pool.name + ".yaml"
    case Deployment(pool) => "/capi-machinedeployment-" + pool.name + ".yaml"
    case Config(pool) => "/capi-talosconfigtemplate-" + pool.name + ".yaml"
  }

  function Path(cl: Cluster, s: Slot): string {
    "clusters/" + cl.name + Tail(s)
  }

  function Id(cl: Cluster, s: Slot): Ref {
    match s
    case InfraCluster => Ref(CAPMOX, ProxmoxCluster, cl.name, NAMESPACE)
    case TheCluster => Ref(CAPI, ClusterKind, cl.name, NAMESPACE)
    case ControlPlaneTemplate => Ref(CAPMOX, ProxmoxMachineTemplate, cl.name + "-control-plane", NAMESPACE)
    case ControlPlane => Ref(CACPPT, TalosControlPlane, cl.name + "-control-plane", NAMESPACE)
    case PoolTemplate(pool) => Ref(CAPMOX, ProxmoxMachineTemplate, cl.name + "-" + pool.name, NAMESPACE)
    case Deployment(pool) => Ref(CAPI, MachineDeployment, cl.name + "-" + pool.name, NAMESPACE)
    case Config(pool) => Ref(CABPT, TalosConfigTemplate, cl.name + "-" + pool.name, NAMESPACE)
  }

  function BodyOf(p: Proxmox, cl: Cluster, s: Slot): Body {
    match s
    case InfraCluster => ProxmoxClusterBody(cl.endpoint, KUBE_API_PORT, p.node, p.SecretName(cl.name))
    case TheCluster => ClusterBody(cl.podCIDR, cl.serviceCIDR, Id(cl, ControlPlane),
                                   if p.Configured() then Some(Id(cl, InfraCluster)) else None)
    case ControlPlane => ControlPlaneBody(cl.controlPlaneReplicas, cl.kubernetesVersion,
                                          if p.Configured() then Id(cl, ControlPlaneTemplate) else EMPTY_REF)
    case Deployment(pool) => DeploymentBody(cl.name, pool.name, pool.replicas, cl.kubernetesVersion, Id(cl, Config(pool)),
                                            if p.Configured() then Some(Id(cl, PoolTemplate(pool))) else None)
    case Config(_) => ConfigBody(cl.talosVersion)
    case _ => MachineTemplateBody(p.node, p.templateVMID)
  }

  function FileOf(p: Proxmox, cl: Cluster, s: Slot): File {
    File(Path(cl, s), Id(cl, s), BodyOf(p, cl, s))
  }

  function FilesOf(p: Proxmox, cl: Cluster, slots: seq<Slot>): seq<File> {
    seq(|slots|, i requires 0 <= i < |slots| => FileOf(p, cl, slots[i]))
  }

  function Rendered(p: Proxmox, cl: Cluster): seq<File> {
    FilesOf(p, cl, Slots(p, cl.workers))
  }

  lemma {:induction false} NextPool(p: Proxmox, cl: Cluster, i: nat)
    requires i < |cl.workers|
    ensures FilesOf(p, cl, Slots(p, cl.workers[..i + 1])) ==
            FilesOf(p, cl, Slots(p, cl.workers[..i])) + FilesOf(p, cl, PoolSlots(p, cl.workers[i]))
  {
    assert cl.workers[..i + 1][..i] == cl.workers[..i];
    FilesJoin(p, cl, Slots(p, cl.workers[..i]), PoolSlots(p, cl.workers[i]));
  }

  lemma {:induction false} FilesJoin(p: Proxmox, cl: Cluster, a: seq<Slot>, b: seq<Slot>)
    ensures FilesOf(p, cl, a + b) == FilesOf(p, cl, a) + FilesOf(p, cl, b)
  {
  }

  lemma {:induction false} PoolPaths(cl: Cluster, pool: Pool)
    ensures var base := "clusters/" + cl.name;
            && Path(cl, PoolTemplate(pool)) == base + "/capi-proxmox-machinetemplate-" + pool.name + ".yaml"
            && Path(cl, Deployment(pool)) == base + "/capi-machinedeployment-" + pool.name + ".yaml"
            && Path(cl, Config(pool)) == base + "/capi-talosconfigtemplate-" + pool.name + ".yaml"
  {
    var base := "clusters/" + cl.name;
    Associate(base, "/capi-proxmox-machinetemplate-", pool.name, ".yaml");
    Associate(base, "/capi-machinedeployment-", pool.name, ".yaml");
    Associate(base, "/capi-talosconfigtemplate-", pool.name, ".yaml");
  }

  lemma {:induction false} Associate(a: string, b: string, c: string, d: string)
    ensures a + (b + c + d) == a + b + c + d
  {
  }

  // ------------------------------------------------------------------ collisions

  /** Two documents of the set that would share a path and an identity. */
  predicate Same(a: Slot, b: Slot) {
    match (a, b)
    case (PoolTemplate(x), PoolTemplate(y)) => x.name == y.name
    case (Deployment(x), Deployment(y)) => x.name == y.name
    case (Config(x), Config(y)) => x.name == y.name
    case (ControlPlaneTemplate, PoolTemplate(y)) => y.name == "control-plane"
    case (PoolTemplate(x), ControlPlaneTemplate) => x.name == "control-plane"
    case _ => a == b
  }

  lemma {:induction false} Suffix(a: string, x: string, y: string)
    ensures a + x == a + y <==> x == y
  {
    assert (a + x)[|a|..] == x && (a + y)[|a|..] == y;
  }

  lemma {:induction false} Middle(a: string, x: string, y: string, b: string)
    ensures a + x + b == a + y + b <==> x == y
  {
    if a + x + b == a + y + b {
      assert |x| == |y|;
      assert (a + x + b)[|a|..|a| + |x|] == x && (a + y + b)[|a|..|a| + |y|] == y;
    }
  }

  /** The part of a file name that tells the classes of documents apart. */
  function Class(s: Slot): nat {
    match s
    case InfraCluster => 0
    case TheCluster => 1
    case ControlPlane => 2
    case Deployment(_) => 3
    case Config(_) => 4
    case _ => 5
  }

  lemma {:induction false} ClassOfTail(s: Slot)
    ensures |Tail(s)| > 15
    ensures match Class(s)
            case 0 => Tail(s)[6] == 'p' && Tail(s)[14] == 'c'
            case 1 => Tail(s)[6] == 'c' && Tail(s)[7] == 'l'
            case 2 => Tail(s)[6] == 'c' && Tail(s)[7] == 'o'
            case 3 => Tail(s)[6] == 'm'
            case 4 => Tail(s)[6] == 't'
            case _ => Tail(s)[6] == 'p' && Tail(s)[14] == 'm'
  {
    if Class(s) >= 3 && !s.ControlPlaneTemplate? {
      ClassOfPoolTail(s);
    }
  }

  lemma {:induction false} ClassOfPoolTail(s: Slot)
    requires s.PoolTemplate? || s.Deployment? || s.Config?
    ensures |Tail(s)| > 15
    ensures match s
            case Deployment(_) => Tail(s)[6] == 'm'
            case Config(_) => Tail(s)[6] == 't'
            case _ => Tail(s)[6] == 'p' && Tail(s)[14] == 'm'
  {
  }

  lemma {:induction false} TemplateTail()
    ensures Tail(ControlPlaneTemplate) == "/capi-proxmox-machinetemplate-" + "control-plane" + ".yaml"
  {
  }

  lemma {:induction false} TailSame(a: Slot, b: Slot)
    ensures Tail(a) == Tail(b) <==> Same(a, b)
  {
    ClassOfTail(a);
    ClassOfTail(b);
    if Class(a) == Class(b) {
      TemplateTail();
      var x, y := NameIn(a), NameIn(b);
      match Class(a)
      case 3 => Middle("/capi-machinedeployment-", x, y, ".yaml");
      case 4 => Middle("/capi-talosconfigtemplate-", x, y, ".yaml");
      case 5 => Middle("/capi-proxmox-machinetemplate-", x, y, ".yaml");
      case _ =>
    }
  }

  function NameIn(s: Slot): string {
    if s.PoolTemplate? || s.Deployment? || s.Config? then s.pool.name else "control-plane"
  }

  lemma {:induction false} PathSame(cl: Cluster, a: Slot, b: Slot)
    ensures Path(cl, a) == Path(cl, b) <==> Same(a, b)
  {
    Suffix("clusters/" + cl.name, Tail(a), Tail(b));
    TailSame(a, b);
  }

  lemma {:induction false} IdSame(cl: Cluster, a: Slot, b: Slot)
    ensures Id(cl, a) == Id(cl, b) <==> Same(a, b)
  {
    if Class(a) == Class(b) && Class(a) >= 3 {
      assert cl.name + "-control-plane" == cl.name + "-" + "control-plane";
      Suffix(cl.name + "-", NameIn(a), NameIn(b));
    }
  }

  /** Pool names are pairwise distinct and, with Proxmox, none is "control-plane". */
  ghost predicate Separate(p: Proxmox, workers: seq<Pool>) {
    && (forall i, j :: 0 <= i < j < |workers| ==> workers[i].name != workers[j].name)
    && (p.Configured() ==> forall i :: 0 <= i < |workers| ==> workers[i].name != "control-plane")
  }

  ghost predicate Distinct(slots: seq<Slot>) {
    forall a, b :: 0 <= a < b < |slots| ==> !Same(slots[a], slots[b])
  }

  lemma {:induction false} SlotsMember(p: Proxmox, workers: seq<Pool>, s: Slot)
    ensures s in Slots(p, workers) <==>
            s in FixedSlots(p) || exists i :: 0 <= i < |workers| && s in PoolSlots(p, workers[i])
  {
    if |workers| > 0 {
      SlotsMember(p, workers[..|workers| - 1], s);
    }
  }

  lemma {:induction false} SlotsPrefix(p: Proxmox, workers: seq<Pool>, i: nat)
    requires i <= |workers|
    ensures Slots(p, workers[..i]) <= Slots(p, workers)
  {
    if i == |workers| {
      assert workers[..i] == workers;
    } else {
      var before := workers[..|workers| - 1];
      SlotsPrefix(p, before, i);
      assert before[..i] == workers[..i];
    }
  }

  lemma {:induction false} Joined(xs: seq<Slot>, ys: seq<Slot>)
    ensures Distinct(xs + ys) <==> Distinct(xs) && Distinct(ys) && forall x, y :: x in xs && y in ys ==> !Same(x, y)
  {
    var all := xs + ys;
    if Distinct(all) {
      assert forall a :: 0 <= a < |xs| ==> all[a] == xs[a];
      assert forall b :: 0 <= b < |ys| ==> all[|xs| + b] == ys[b];
      assert Distinct(ys) by {
        forall a, b | 0 <= a < b < |ys| ensures !Same(ys[a], ys[b]) {
          assert !Same(all[|xs| + a], all[|xs| + b]);
        }
      }
      assert Distinct(xs) by {
        forall a, b | 0 <= a < b < |xs| ensures !Same(xs[a], xs[b]) {
          assert !Same(all[a], all[b]);
        }
      }
      forall x, y | x in xs && y in ys ensures !Same(x, y) {
        var a :| 0 <= a < |xs| && xs[a] == x;
        var b :| 0 <= b < |ys| && ys[b] == y;
        assert !Same(all[a], all[|xs| + b]);
      }
    }
  }

  /** A pool's documents clash with the earlier ones iff its name was used before or is the
      control plane's. */
  lemma {:induction false} PoolClashes(p: Proxmox, before: seq<Pool>, pool: Pool)
    ensures (forall x, y :: x in Slots(p, before) && y in PoolSlots(p, pool) ==> !Same(x, y)) <==>
            (forall i :: 0 <= i < |before| ==> before[i].name != pool.name) && (p.Configured() ==> pool.name != "control-plane")
  {
    if i :| 0 <= i < |before| && before[i].name == pool.name {
      SlotsMember(p, before, Config(before[i]));
      assert Same(Config(before[i]), Config(pool));
    } else if p.Configured() && pool.name == "control-plane" {
      SlotsMember(p, before, ControlPlaneTemplate);
      assert Same(ControlPlaneTemplate, PoolTemplate(pool)) && PoolTemplate(pool) in PoolSlots(p, pool);
    } else {
      forall x, y | x in Slots(p, before) && y in PoolSlots(p, pool) ensures !Same(x, y) {
        SlotsMember(p, before, x);
      }
    }
  }

  lemma {:induction false} DistinctIff(p: Proxmox, workers: seq<Pool>)
    ensures Distinct(Slots(p, workers)) <==> Separate(p, workers)
  {
    if |workers| > 0 {
      var before, pool := workers[..|workers| - 1], workers[|workers| - 1];
      DistinctIff(p, before);
      PoolClashes(p, before, pool);
      Joined(Slots(p, before), PoolSlots(p, pool));
    }
  }

  /** For every cluster: the paths of the rendered files are pairwise distinct (no file silently
      replaces another in the commit), and so are the identities of the documents, exactly
      when the pool names are separate. */
  lemma {:induction false} PathsDistinctIff(p: Proxmox, cl: Cluster)
    ensures var files := Rendered(p, cl);
            (forall a, b :: 0 <= a < b < |files| ==> files[a].path != files[b].path) <==> Separate(p, cl.workers)
    ensures var files := Rendered(p, cl);
            (forall a, b :: 0 <= a < b < |files| ==> files[a].id != files[b].id) <==> Separate(p, cl.workers)
  {
    var files, slots := Rendered(p, cl), Slots(p, cl.workers);
    DistinctIff(p, cl.workers);
    forall a, b | 0 <= a < b < |files|
      ensures files[a].path == files[b].path <==> Same(slots[a], slots[b])
      ensures files[a].id == files[b].id <==> Same(slots[a], slots[b])
    {
      PathSame(cl, slots[a], slots[b]);
      IdSame(cl, slots[a], slots[b]);
    }
  }

  // ------------------------------------------------------------------ references

  function Optional(ref: Option<Ref>): seq<Ref> {
    if ref.Some? then [ref.value] else []
  }

  function References(body: Body): seq<Ref> {
    match body
    case ClusterBody(_, _, controlPlaneRef, infrastructureRef) => [controlPlaneRef] + Optional(infrastructureRef)
    case ControlPlaneBody(_, _, infrastructureTemplate) => [infrastructureTemplate]
    case DeploymentBody(_, _, _, _, configRef, infrastructureRef) => [configRef] + Optional(infrastructureRef)
    case _ => []
  }

  ghost predicate NamesExactlyOne(files: seq<File>, ref: Ref) {
    exists i :: 0 <= i < |files| && files[i].id == ref && forall j :: 0 <= j < |files| && files[j].id == ref ==> j == i
  }

  ghost predicate Resolves(files: seq<File>) {
    forall k, ref :: 0 <= k < |files| && ref in References(files[k].body) && ref != EMPTY_REF ==> NamesExactlyOne(files, ref)
  }

  /** Every reference points at a document of the set, except the control plane's empty one. */
  lemma {:induction false} ReferenceHasSlot(p: Proxmox, cl: Cluster, s: Slot, ref: Ref) returns (target: Slot)
    requires s in Slots(p, cl.workers) && ref in References(BodyOf(p, cl, s)) && ref != EMPTY_REF
    ensures target in Slots(p, cl.workers) && Id(cl, target) == ref
  {
    match s {
      case TheCluster => target := if ref == Id(cl, ControlPlane) then ControlPlane else InfraCluster;
      case ControlPlane => target := ControlPlaneTemplate;
      case Deployment(pool) => target := if ref == Id(cl, Config(pool)) then Config(pool) else PoolTemplate(pool);
      case _ => target := s;
    }
    SlotsMember(p, cl.workers, s);
    SlotsMember(p, cl.workers, target);
  }

  lemma {:induction false} SeparateResolves(p: Proxmox, cl: Cluster)
    requires Separate(p, cl.workers)
    ensures Resolves(Rendered(p, cl))
  {
    var files, slots := Rendered(p, cl), Slots(p, cl.workers);
    DistinctIff(p, cl.workers);
    forall k, ref | 0 <= k < |files| && ref in References(files[k].body) && ref != EMPTY_REF
      ensures NamesExactlyOne(files, ref)
    {
      var target := ReferenceHasSlot(p, cl, slots[k], ref);
      var i :| 0 <= i < |slots| && slots[i] == target;
      forall j | 0 <= j < |files| && files[j].id == ref ensures j == i {
        IdSame(cl, slots[i], slots[j]);
        IdSame(cl, slots[j], slots[i]);
      }
      assert files[i].id == ref;
    }
  }

  /** Where the documents of pool i sit. */
  lemma {:induction false} PoolAt(p: Proxmox, workers: seq<Pool>, i: nat) returns (k: nat)
    requires i < |workers|
    ensures |Slots(p, workers[..i])| <= k && k + 2 <= |Slots(p, workers[..i + 1])| <= |Slots(p, workers)|
    ensures Slots(p, workers)[k] == Deployment(workers[i]) && Slots(p, workers)[k + 1] == Config(workers[i])
    ensures p.Configured() ==> k > |Slots(p, workers[..i])| && Slots(p, workers)[k - 1] == PoolTemplate(workers[i])
  {
    SlotsPrefix(p, workers, i + 1);
    assert workers[..i + 1][..i] == workers[..i];
    k := |Slots(p, workers[..i])| + if p.Configured() then 1 else 0;
  }

  /** The documents of an earlier pool come first, and the fixed ones before all. */
  lemma {:induction false} PoolsInOrder(p: Proxmox, workers: seq<Pool>, i: nat, j: nat)
    requires i <= j <= |workers|
    ensures |FixedSlots(p)| <= |Slots(p, workers[..i])| <= |Slots(p, workers[..j])|
    ensures FixedSlots(p) <= Slots(p, workers)
  {
    SlotsPrefix(p, workers[..j], i);
    assert workers[..j][..i] == workers[..i];
    SlotsPrefix(p, workers[..i], 0);
    assert workers[..i][..0] == [] && workers[..0] == [];
    SlotsPrefix(p, workers, 0);
  }

  /** Two documents of one identity that document k refers to. */
  lemma {:induction false} Ambiguous(p: Proxmox, cl: Cluster, a: nat, b: nat, k: nat)
    requires var slots := Slots(p, cl.workers); a < b < |slots| && k < |slots| && Same(slots[a], slots[b])
    requires var slots := Slots(p, cl.workers); Id(cl, slots[a]) in References(BodyOf(p, cl, slots[k]))
    ensures !Resolves(Rendered(p, cl))
  {
    var files, slots := Rendered(p, cl), Slots(p, cl.workers);
    IdSame(cl, slots[a], slots[b]);
    var ref := Id(cl, slots[a]);
    assert !NamesExactlyOne(files, ref) by {
      assert files[a].id == ref && files[b].id == ref;
    }
    assert files[k].body == BodyOf(p, cl, slots[k]);
    assert ref in References(files[k].body);
    assert ref.namespace != EMPTY_REF.namespace;
  }

  lemma {:induction false} RepeatedNameAmbiguous(p: Proxmox, cl: Cluster, i: nat, j: nat)
    requires i < j < |cl.workers| && cl.workers[i].name == cl.workers[j].name
    ensures !Resolves(Rendered(p, cl))
  {
    var a := PoolAt(p, cl.workers, i);
    var b := PoolAt(p, cl.workers, j);
    PoolsInOrder(p, cl.workers, i + 1, j);
    Ambiguous(p, cl, a + 1, b + 1, a);
  }

  lemma {:induction false} ControlPlaneNameAmbiguous(p: Proxmox, cl: Cluster, j: nat)
    requires p.Configured() && j < |cl.workers| && cl.workers[j].name == "control-plane"
    ensures !Resolves(Rendered(p, cl))
  {
    var b := PoolAt(p, cl.workers, j);
    PoolsInOrder(p, cl.workers, j, j);
    var slots := Slots(p, cl.workers);
    assert slots[2] == ControlPlaneTemplate && slots[3] == ControlPlane;
    Ambiguous(p, cl, 2, b - 1, 3);
  }

  /** Every controlPlaneRef, configRef and infrastructure reference names exactly one document of
      the set, exactly when the pool names are separate. */
  lemma {:induction false} ResolvesIff(p: Proxmox, cl: Cluster)
    ensures Resolves(Rendered(p, cl)) <==> Separate(p, cl.workers)
  {
    if Separate(p, cl.workers) {
      SeparateResolves(p, cl);
    } else if i, j :| 0 <= i < j < |cl.workers| && cl.workers[i].name == cl.workers[j].name {
      RepeatedNameAmbiguous(p, cl, i, j);
    } else {
      var j :| 0 <= j < |cl.workers| && cl.workers[j].name == "control-plane";
      ControlPlaneNameAmbiguous(p, cl, j);
    }
  }

  /** The reference that names nothing is there exactly when Proxmox is not configured. */
  lemma {:induction false} DanglingIff(p: Proxmox, cl: Cluster)
    ensures (exists k :: 0 <= k < |Rendered(p, cl)| && EMPTY_REF in References(Rendered(p, cl)[k].body)) <==> !p.Configured()
    ensures forall k :: 0 <= k < |Rendered(p, cl)| ==> Rendered(p, cl)[k].id != EMPTY_REF
  {
    var files, slots := Rendered(p, cl), Slots(p, cl.workers);
    forall k | 0 <= k < |files| ensures EMPTY_REF in References(files[k].body) <==> slots[k].ControlPlane? && !p.Configured() {
      EmptyReference(p, cl, slots[k]);
    }
    if !p.Configured() {
      PoolsInOrder(p, cl.workers, 0, 0);
      assert slots[1] == ControlPlane;
      assert EMPTY_REF in References(files[1].body);
    }
  }

  lemma {:induction false} EmptyReference(p: Proxmox, cl: Cluster, s: Slot)
    ensures EMPTY_REF in References(BodyOf(p, cl, s)) <==> s.ControlPlane? && !p.Configured()
  {
  }

  // ------------------------------------------------------------------ what the documents say

  /** The cluster-wide documents, written out: the networks, the control plane's size and version,
      and with Proxmox (an endpoint is set) where the machines come from. */
  lemma {:induction false} ClusterDocuments(p: Proxmox, cl: Cluster)
    ensures var base, proxmox := "clusters/" + cl.name, p.endpoint != "";
            var controlPlane := Ref("controlplane.cluster.x-k8s.io/v1alpha3", TalosControlPlane,
                                    cl.name + "-control-plane", "default");
            var infra := Ref("infrastructure.cluster.x-k8s.io/v1alpha1", ProxmoxCluster, cl.name, "default");
            var template := Ref("infrastructure.cluster.x-k8s.io/v1alpha1", ProxmoxMachineTemplate,
                                cl.name + "-control-plane", "default");
            && File(base + "/capi-cluster.yaml", Ref("cluster.x-k8s.io/v1beta1", ClusterKind, cl.name, "default"),
                    ClusterBody(cl.podCIDR, cl.serviceCIDR, controlPlane, if proxmox then Some(infra) else None))
               in Rendered(p, cl)
            && File(base + "/capi-control-plane.yaml", controlPlane,
                    ControlPlaneBody(cl.controlPlaneReplicas, cl.kubernetesVersion,
                                     if proxmox then template else Ref("", NoKind, "", ""))) in Rendered(p, cl)
            && (proxmox ==>
                  && File(base + "/capi-proxmox-cluster.yaml", infra,
                          ProxmoxClusterBody(cl.endpoint, 6443, p.node,
                                             if p.credentialSecretName != "" then p.credentialSecretName
                                             else cl.name + "-proxmox-credentials")) in Rendered(p, cl)
                  && File(base + "/capi-proxmox-machinetemplate-control-plane.yaml", template,
                          MachineTemplateBody(p.node, p.templateVMID)) in Rendered(p, cl))
  {
    SlotRendered(p, cl, TheCluster);
    SlotRendered(p, cl, ControlPlane);
    if p.Configured() {
      SlotRendered(p, cl, InfraCluster);
      SlotRendered(p, cl, ControlPlaneTemplate);
    }
  }

  lemma {:induction false} SlotRendered(p: Proxmox, cl: Cluster, s: Slot)
    requires s in FixedSlots(p) || exists i :: 0 <= i < |cl.workers| && s in PoolSlots(p, cl.workers[i])
    ensures FileOf(p, cl, s) in Rendered(p, cl)
  {
    SlotsMember(p, cl.workers, s);
    var k :| 0 <= k < |Slots(p, cl.workers)| && Slots(p, cl.workers)[k] == s;
    assert Rendered(p, cl)[k] == FileOf(p, cl, s);
  }

  /** The documents of worker pool i: its size and label and the Kubernetes version, ... */
  lemma {:induction false} PoolDeployment(p: Proxmox, cl: Cluster, i: nat)
    requires i < |cl.workers|
    ensures var pool := cl.workers[i];
            var config := Ref("bootstrap.cluster.x-k8s.io/v1alpha3", TalosConfigTemplate, cl.name + "-" + pool.name, "default");
            var template := Ref("infrastructure.cluster.x-k8s.io/v1alpha1", ProxmoxMachineTemplate,
                                cl.name + "-" + pool.name, "default");
            File("clusters/" + cl.name + "/capi-machinedeployment-" + pool.name + ".yaml",
                 Ref("cluster.x-k8s.io/v1beta1", MachineDeployment, cl.name + "-" + pool.name, "default"),
                 DeploymentBody(cl.name, pool.name, pool.replicas, cl.kubernetesVersion, config,
                                if p.endpoint != "" then Some(template) else None)) in Rendered(p, cl)
  {
    var pool := cl.workers[i];
    var slot := Deployment(pool);
    SlotRendered(p, cl, slot);
    assert Path(cl, slot) == "clusters/" + cl.name + "/capi-machinedeployment-" + pool.name + ".yaml" by {
      PoolPaths(cl, pool);
    }
    assert FileOf(p, cl, slot) == File(Path(cl, slot), Id(cl, slot), BodyOf(p, cl, slot));
  }

  /** ... the Talos version, and with Proxmox the machines. */
  lemma {:induction false} PoolConfig(p: Proxmox, cl: Cluster, i: nat)
    requires i < |cl.workers|
    ensures var base, pool := "clusters/" + cl.name, cl.workers[i];
            var config := Ref("bootstrap.cluster.x-k8s.io/v1alpha3", TalosConfigTemplate, cl.name + "-" + pool.name, "default");
            var template := Ref("infrastructure.cluster.x-k8s.io/v1alpha1", ProxmoxMachineTemplate,
                                cl.name + "-" + pool.name, "default");
            && File(base + "/capi-talosconfigtemplate-" + pool.name + ".yaml", config, ConfigBody(cl.talosVersion))
               in Rendered(p, cl)
            && (p.endpoint != "" ==> File(base + "/capi-proxmox-machinetemplate-" + pool.name + ".yaml", template,
                                          MachineTemplateBody(p.node, p.templateVMID)) in Rendered(p, cl))
  {
    PoolPaths(cl, cl.workers[i]);
    SlotRendered(p, cl, Config(cl.workers[i]));
    if p.Configured() {
      SlotRendered(p, cl, PoolTemplate(cl.workers[i]));
    }
  }

  // ------------------------------------------------------------------ totals

  function TotalReplicas(workers: seq<Pool>): int {
    if |workers| == 0 then 0 else TotalReplicas(workers[..|workers| - 1]) + workers[|workers| - 1].replicas
  }

  function DeploymentReplicas(files: seq<File>): int {
    if |files| == 0 then 0
    else
      var f := files[|files| - 1];
      DeploymentReplicas(files[..|files| - 1]) + if f.body.DeploymentBody? then f.body.replicas else 0
  }

  lemma {:induction false} ReplicasJoin(a: seq<File>, b: seq<File>)
    ensures DeploymentReplicas(a + b) == DeploymentReplicas(a) + DeploymentReplicas(b)
  {
    if |b| == 0 {
      assert a + b == a;
    } else {
      assert (a + b)[..|a + b| - 1] == a + b[..|b| - 1];
      ReplicasJoin(a, b[..|b| - 1]);
    }
  }

  lemma {:induction false} PoolReplicas(p: Proxmox, cl: Cluster, pool: Pool)
    ensures DeploymentReplicas(FilesOf(p, cl, PoolSlots(p, pool))) == pool.replicas
  {
    var d, c := FileOf(p, cl, Deployment(pool)), FileOf(p, cl, Config(pool));
    var t := FileOf(p, cl, PoolTemplate(pool));
    assert DeploymentReplicas([]) == 0;
    assert DeploymentReplicas([t]) == 0 && DeploymentReplicas([d]) == pool.replicas && DeploymentReplicas([c]) == 0;
    ReplicasJoin([d], [c]);
    ReplicasJoin([t], [d] + [c]);
    var files := FilesOf(p, cl, PoolSlots(p, pool));
    assert files == if p.Configured() then [t] + ([d] + [c]) else [d] + [c];
  }

  /** The number of documents, and the worker replicas they ask for. */
  lemma {:induction false} Totals(p: Proxmox, cl: Cluster, workers: seq<Pool>)
    ensures |Slots(p, workers)| == if p.Configured() then 4 + 3 * |workers| else 2 + 2 * |workers|
    ensures DeploymentReplicas(FilesOf(p, cl, Slots(p, workers))) == TotalReplicas(workers)
  {
    if |workers| > 0 {
      var before, pool := workers[..|workers| - 1], workers[|workers| - 1];
      Totals(p, cl, before);
      PoolReplicas(p, cl, pool);
      FilesJoin(p, cl, Slots(p, before), PoolSlots(p, pool));
      ReplicasJoin(FilesOf(p, cl, Slots(p, before)), FilesOf(p, cl, PoolSlots(p, pool)));
    } else {
      FixedReplicas(p, cl);
    }
  }

  lemma {:induction false} FixedReplicas(p: Proxmox, cl: Cluster)
    ensures DeploymentReplicas(FilesOf(p, cl, FixedSlots(p))) == 0
  {
    NoDeployments(FilesOf(p, cl, FixedSlots(p)));
  }

  lemma {:induction false} NoDeployments(files: seq<File>)
    requires forall f :: f in files ==> !f.body.DeploymentBody?
    ensures DeploymentReplicas(files) == 0
  {
    if |files| > 0 {
      NoDeployments(files[..|files| - 1]);
      assert files[|files| - 1] in files;
    }
  }
}
