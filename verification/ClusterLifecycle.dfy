/** The cluster lifecycle graph (internal/domain/cluster/cluster.go), its traces, and the
    Provision use case that walks it (internal/application/clusterservice/service.go). */
module ClusterLifecycle {

  datatype State =
    | Draft | Planning | Validating | Provisioning | Bootstrapping | Installing | Configuring | Ready
    | Degraded | Upgrading | Failed | Deleting | Deleted

  function ValidTransitions(s: State): seq<State> {
    match s
    case Draft => [Planning, Deleting]
    case Planning => [Validating, Failed, Deleting]
    case Validating => [Provisioning, Failed, Deleting]
    case Provisioning => [Bootstrapping, Failed, Deleting]
    case Bootstrapping => [Installing, Failed, Deleting]
    case Installing => [Configuring, Failed, Deleting]
    case Configuring => [Ready, Failed, Deleting]
    case Ready => [Degraded, Upgrading, Deleting]
    case Degraded => [Ready, Failed, Deleting]
    case Upgrading => [Ready, Degraded, Failed]
    case Failed => [Planning, Deleting]
    case Deleting => [Deleted, Failed]
    case Deleted => []
  }

  predicate CanTransition(s: State, next: State) {
    next in ValidTransitions(s)
  }

  /** The graph seen from its targets: the states of the pipeline, ... */
  lemma {:induction false} PipelineEnteredFrom(s: State)
    ensures !CanTransition(s, Draft)
    ensures CanTransition(s, Planning) <==> s in {Draft, Failed}
    ensures CanTransition(s, Validating) <==> s == Planning
    ensures CanTransition(s, Provisioning) <==> s == Validating
    ensures CanTransition(s, Bootstrapping) <==> s == Provisioning
    ensures CanTransition(s, Installing) <==> s == Bootstrapping
    ensures CanTransition(s, Configuring) <==> s == Installing
  {
  }

  /** ... and those behind it. */
  lemma {:induction false} OthersEnteredFrom(s: State)
    ensures CanTransition(s, Ready) <==> s in {Configuring, Degraded, Upgrading}
    ensures CanTransition(s, Degraded) <==> s in {Ready, Upgrading}
    ensures CanTransition(s, Upgrading) <==> s == Ready
    ensures CanTransition(s, Failed) <==> s !in {Draft, Ready, Failed, Deleted}
    ensures CanTransition(s, Deleting) <==> s !in {Upgrading, Deleting, Deleted}
    ensures CanTransition(s, Deleted) <==> s == Deleting
  {
  }

  /** Consecutive states are legal transitions. */
  ghost predicate Trace(t: seq<State>) {
    |t| > 0 && forall i :: 0 <= i < |t| - 1 ==> CanTransition(t[i], t[i + 1])
  }

  const PIPELINE := [Planning, Validating, Provisioning, Bootstrapping, Installing, Configuring, Ready]

  /** The pipeline state before s; only these two enter it on the way up. */
  lemma {:induction false} EntersPipeline(s: State, k: nat)
    requires 0 < k < |PIPELINE| && CanTransition(s, PIPELINE[k])
    ensures s == PIPELINE[k - 1] || (k == 6 && (s == Degraded || s == Upgrading))
  {
  }

  /** Before the first READY no cluster is DEGRADED or UPGRADING. */
  lemma {:induction false} NoShortcut(t: seq<State>, i: nat)
    requires Trace(t) && t[0] == Draft && i < |t|
    requires forall j :: 0 <= j < i ==> t[j] != Ready
    ensures t[i] != Degraded && t[i] != Upgrading
  {
    if i > 0 {
      NoShortcut(t, i - 1);
      assert CanTransition(t[i - 1], t[i]);
    }
  }

  lemma {:induction false} ClimbsPipeline(t: seq<State>, i: nat, k: nat)
    requires Trace(t) && t[0] == Draft && i < |t| && k < |PIPELINE| && t[i] == PIPELINE[k]
    requires forall j :: 0 <= j < i ==> t[j] != Ready
    ensures i >= k && forall m :: 0 <= m <= k ==> t[i - k + m] == PIPELINE[m]
  {
    if k > 0 {
      assert i > 0;
      assert CanTransition(t[i - 1], t[i]);
      NoShortcut(t, i - 1);
      EntersPipeline(t[i - 1], k);
      ClimbsPipeline(t, i - 1, k - 1);
    }
  }

  /** On any legal history from DRAFT, the first READY ends the contiguous chain PLANNING,
      VALIDATING, PROVISIONING, BOOTSTRAPPING, INSTALLING, CONFIGURING, READY, which was
      entered from DRAFT or FAILED. */
  lemma {:induction false} FirstReady(t: seq<State>, i: nat)
    requires Trace(t) && t[0] == Draft && i < |t| && t[i] == Ready
    requires forall j :: 0 <= j < i ==> t[j] != Ready
    ensures i >= 7 && t[i - 6..i + 1] == PIPELINE
    ensures t[i - 7] == Draft || t[i - 7] == Failed
  {
    ClimbsPipeline(t, i, 6);
    assert t[i - 6 + 0] == PIPELINE[0];
    assert CanTransition(t[i - 7], t[i - 6]);
  }

  /** DELETED is entered only from DELETING and never left. */
  lemma {:induction false} DeletedAbsorbs(t: seq<State>, i: nat, j: nat)
    requires Trace(t) && t[0] != Deleted && i <= j < |t| && t[i] == Deleted
    ensures i == j == |t| - 1 && i > 0 && t[i - 1] == Deleting
  {
    assert i > 0 && CanTransition(t[i - 1], t[i]);
    assert i < |t| - 1 ==> CanTransition(t[i], t[i + 1]);
  }

  /** From every other state some legal history deletes the cluster within three transitions. */
  lemma {:induction false} CanBeDeleted(s: State)
    requires s != Deleted
    ensures exists t :: Trace(t) && t[0] == s && |t| <= 4 && t[|t| - 1] == Deleted
  {
    var t :=
      if s == Deleting then [s, Deleted]
      else if s == Upgrading then [s, Failed, Deleting, Deleted]
      else [s, Deleting, Deleted];
    assert CanTransition(t[0], t[1]);
    assert Trace(t);
  }

  /** Three transitions are needed only from UPGRADING. */
  lemma {:induction false} DeletionNeedsThree(t: seq<State>)
    requires Trace(t) && t[|t| - 1] == Deleted && t[0] == Upgrading
    ensures |t| >= 4
  {
    if |t| >= 2 { assert CanTransition(t[0], t[1]); }
    if |t| >= 3 { assert CanTransition(t[1], t[2]); }
  }

  // ------------------------------------------------------------------ Provision

  class Cluster {
    var state: State

    constructor (state: State)
      ensures this.state == state
    {
      this.state := state;
    }

    /** False stands for ErrPreconditionFail. */
    method Transition(next: State) returns (ok: bool)
      modifies this
      ensures ok == CanTransition(old(state), next)
      ensures state == if ok then next else old(state)
    {
      ok := CanTransition(state, next);
      if ok {
        state := next;
      }
    }
  }

  /** Cluster rows by id; versions holds the ids whose spec names both versions, which is
      what Plan checks. */
  class ClusterService {
    var stored: map<nat, State>
    const versions: set<nat>

    constructor (stored: map<nat, State>, versions: set<nat>)
      ensures this.stored == stored && this.versions == versions
    {
      this.stored, this.versions := stored, versions;
    }

    /** Everything Provision does before it enqueues the workflow: three transitions on a
        private copy, then one write. */
    method Provision(id: nat, readable: bool, writable: bool) returns (ok: bool)
      modifies this
      ensures ok == (readable && writable && id in old(stored) && id in versions
                     && (old(stored)[id] == Draft || old(stored)[id] == Failed))
      ensures stored == if ok then old(stored)[id := Provisioning] else old(stored)
    {
      if !readable || id !in stored || id !in versions {
        return false;
      }
      var c := new Cluster(stored[id]);
      var steps := [Planning, Validating, Provisioning];
      var i := 0;
      while i < |steps|
        invariant 0 <= i <= 3
        invariant i == 0 ==> c.state == stored[id]
        invariant i > 0 ==> c.state == steps[i - 1] && (stored[id] == Draft || stored[id] == Failed)
        invariant stored == old(stored)
        modifies c
      {
        var moved := c.Transition(steps[i]);
        if !moved {
          return false;
        }
        i := i + 1;
      }
      if !writable {
        return false;
      }
      stored := stored[id := c.state];
      ok := true;
    }
  }
}
