/** Rolling a change set back through Git (internal/application/clusterservice/service.go), over
    a map-of-trees model of the Git provider (internal/integrations/github/client.go). */
module Rollback {

  datatype Option<+T> = None | Some(value: T)

  // ------------------------------------------------------------------ trees

  type Tree = map<string, string>

  function At(tree: Tree, path: string): Option<string> {
    if path in tree then Some(tree[path]) else None
  }

  lemma {:induction false} SameTree(a: Tree, b: Tree)
    requires forall p :: At(a, p) == At(b, p)
    ensures a == b
  {
    assert forall p :: p in a <==> p in b by {
      forall p ensures p in a <==> p in b { assert At(a, p) == At(b, p); }
    }
    assert forall p :: p in a ==> a[p] == b[p] by {
      forall p | p in a ensures a[p] == b[p] { assert At(a, p) == At(b, p); }
    }
  }

  datatype FileChange = Write(path: string, content: string) | Delete(path: string)

  function Change(tree: Tree, c: FileChange): Tree {
    match c
    case Write(path, content) => tree[path := content]
    case Delete(path) => tree - {path}
  }

  /** The tree of a commit on top of a tree. */
  function Changed(tree: Tree, files: seq<FileChange>): Tree {
    if |files| == 0 then tree else Change(Changed(tree, files[..|files| - 1]), files[|files| - 1])
  }

  /** Put a path back to what it was in the parent tree. */
  function Undo(parent: Tree, path: string): FileChange {
    if path in parent then Write(path, parent[path]) else Delete(path)
  }

  function Undoing(parent: Tree, paths: seq<string>): (files: seq<FileChange>)
    ensures |files| == |paths|
  {
    seq(|paths|, i requires 0 <= i < |paths| => Undo(parent, paths[i]))
  }

  // ------------------------------------------------------------------ merging

  ghost predicate Conflict(base: Tree, head: Tree, tip: Tree) {
    exists p :: ConflictAt(base, head, tip, p)
  }

  predicate ConflictAt(base: Tree, head: Tree, tip: Tree, p: string) {
    At(head, p) != At(base, p) && At(tip, p) != At(base, p) && At(head, p) != At(tip, p)
  }

  function Pick(base: Tree, head: Tree, tip: Tree, p: string): Option<string> {
    if At(head, p) != At(base, p) then At(head, p) else At(tip, p)
  }

  /** A three-way merge. */
  function Merged(base: Tree, head: Tree, tip: Tree): (merged: Tree)
    ensures forall p :: At(merged, p) == Pick(base, head, tip, p)
  {
    map p | p in head.Keys + tip.Keys && Pick(base, head, tip, p).Some? :: Pick(base, head, tip, p).value
  }

  // ------------------------------------------------------------------ the repository

  /** A commit: its first parent and its tree. */
  datatype Revision = Revision(parent: Option<nat>, tree: Tree)

  datatype PullRequest = PullRequest(head: string, base: string, merged: bool)

  /** Commits are named by their position. */
  datatype Repo = Repo(commits: seq<Revision>, branches: map<string, nat>, prs: seq<PullRequest>)
  {
    ghost predicate Valid() {
      && (forall b :: b in branches ==> branches[b] < |commits|)
      && (forall i :: 0 <= i < |commits| && commits[i].parent.Some? ==> commits[i].parent.value < i)
    }

    function Tip(branch: string): Tree
      requires Valid() && branch in branches
    {
      commits[branches[branch]].tree
    }
  }

  /** The nearest common ancestor along first parents. */
  function MergeBase(commits: seq<Revision>, a: nat, b: nat): (base: Option<nat>)
    requires a < |commits| && b < |commits|
    requires forall i :: 0 <= i < |commits| && commits[i].parent.Some? ==> commits[i].parent.value < i
    ensures base.Some? ==> base.value < |commits|
    decreases a + b
  {
    if a == b then Some(a)
    else if a > b then
      if commits[a].parent.None? then None else MergeBase(commits, commits[a].parent.value, b)
    else
      if commits[b].parent.None? then None else MergeBase(commits, a, commits[b].parent.value)
  }

  class GitProvider {
    var repo: Repo

    constructor ()
      ensures repo == Repo([], map[], [])
    {
      repo := Repo([], map[], []);
    }

    method CreateBranch(branch: string, from: string, fault: bool) returns (err: bool)
      modifies this
      ensures err <==> fault || from !in old(repo).branches || branch in old(repo).branches
      ensures repo == if err then old(repo)
                      else old(repo).(branches := old(repo).branches[branch := old(repo).branches[from]])
    {
      err := fault || from !in repo.branches || branch in repo.branches;
      if !err {
        repo := repo.(branches := repo.branches[branch := repo.branches[from]]);
      }
    }

    method GetCommitParent(sha: nat, fault: bool) returns (parent: Option<nat>)
      ensures parent == if fault || sha >= |repo.commits| then None else repo.commits[sha].parent
    {
      parent := if fault || sha >= |repo.commits| then None else repo.commits[sha].parent;
    }

    /** content None with err false: not found. */
    method GetFile(sha: nat, path: string, fault: bool) returns (content: Option<string>, err: bool)
      requires sha < |repo.commits|
      ensures err == fault
      ensures !err ==> content == At(repo.commits[sha].tree, path)
    {
      err := fault;
      content := At(repo.commits[sha].tree, path);
    }

    /** One commit on top of the branch, which is fast-forwarded to it. */
    method Commit(branch: string, files: seq<FileChange>, fault: bool) returns (sha: nat, err: bool)
      requires repo.Valid()
      modifies this
      ensures repo.Valid()
      ensures err <==> fault || branch !in old(repo).branches
      ensures err ==> repo == old(repo)
      ensures !err ==>
        && sha == |old(repo).commits|
        && repo == Repo(old(repo).commits + [Revision(Some(old(repo).branches[branch]), Changed(old(repo).Tip(branch), files))],
                        old(repo).branches[branch := sha], old(repo).prs)
    {
      sha := |repo.commits|;
      err := fault || branch !in repo.branches;
      if !err {
        repo := Repo(repo.commits + [Revision(Some(repo.branches[branch]), Changed(repo.Tip(branch), files))],
                     repo.branches[branch := sha], repo.prs);
      }
    }

    method CreatePullRequest(head: string, base: string, fault: bool) returns (number: nat, err: bool)
      modifies this
      ensures err == fault
      ensures !err ==> number == |old(repo).prs|
      ensures repo == if err then old(repo) else old(repo).(prs := old(repo).prs + [PullRequest(head, base, false)])
    {
      number, err := |repo.prs|, fault;
      if !err {
        repo := repo.(prs := repo.prs + [PullRequest(head, base, false)]);
      }
    }

    /** Succeeds iff the pull request is open, its branches have a common ancestor and the
        three-way merge is clean; the merge commit goes on top of the base branch. */
    method MergePullRequest(number: nat, fault: bool) returns (err: bool)
      requires repo.Valid()
      modifies this
      ensures repo.Valid()
      ensures err <==> fault || !Mergeable(old(repo), number)
      ensures repo == if err then old(repo) else AfterMerge(old(repo), number)
      ensures !err ==>
        && number < |old(repo).prs| && !old(repo).prs[number].merged
        && repo.prs == old(repo).prs[number := old(repo).prs[number].(merged := true)]
        && var base := old(repo).prs[number].base;
           && base in old(repo).branches && |repo.commits| == |old(repo).commits| + 1
           && repo.branches == old(repo).branches[base := |old(repo).commits|]
           && repo.commits[..|old(repo).commits|] == old(repo).commits
           && repo.commits[|old(repo).commits|].parent == Some(old(repo).branches[base])
    {
      err := fault || !CanMerge(repo, number);
      CanMergeIsMergeable(repo, number);
      if !err {
        repo := AfterMerge(repo, number);
      }
    }
  }

  predicate Forked(repo: Repo, number: nat)
    requires repo.Valid()
  {
    && number < |repo.prs|
    && var pr := repo.prs[number];
       && !pr.merged && pr.head in repo.branches && pr.base in repo.branches
       && MergeBase(repo.commits, repo.branches[pr.head], repo.branches[pr.base]).Some?
  }

  function BaseTree(repo: Repo, number: nat): Tree
    requires repo.Valid() && Forked(repo, number)
  {
    var pr := repo.prs[number];
    repo.commits[MergeBase(repo.commits, repo.branches[pr.head], repo.branches[pr.base]).value].tree
  }

  ghost predicate Mergeable(repo: Repo, number: nat)
    requires repo.Valid()
  {
    && Forked(repo, number)
    && var pr := repo.prs[number];
       !Conflict(BaseTree(repo, number), repo.Tip(pr.head), repo.Tip(pr.base))
  }

  /** The same, looking only at the paths that occur. */
  predicate CanMerge(repo: Repo, number: nat)
    requires repo.Valid()
  {
    && Forked(repo, number)
    && var pr := repo.prs[number];
       var base, head, tip := BaseTree(repo, number), repo.Tip(pr.head), repo.Tip(pr.base);
       forall p :: p in base.Keys + head.Keys + tip.Keys ==> !ConflictAt(base, head, tip, p)
  }

  lemma {:induction false} CanMergeIsMergeable(repo: Repo, number: nat)
    requires repo.Valid()
    ensures CanMerge(repo, number) <==> Mergeable(repo, number)
  {
    if Forked(repo, number) {
      var pr := repo.prs[number];
      var base, head, tip := BaseTree(repo, number), repo.Tip(pr.head), repo.Tip(pr.base);
      forall p | ConflictAt(base, head, tip, p) ensures p in base.Keys + head.Keys + tip.Keys {
      }
    }
  }

  function AfterMerge(repo: Repo, number: nat): (after: Repo)
    requires repo.Valid() && Forked(repo, number)
    ensures after.Valid()
  {
    var pr := repo.prs[number];
    var tree := Merged(BaseTree(repo, number), repo.Tip(pr.head), repo.Tip(pr.base));
    Repo(repo.commits + [Revision(Some(repo.branches[pr.base]), tree)],
         repo.branches[pr.base := |repo.commits|], repo.prs[number := pr.(merged := true)])
  }

  // ------------------------------------------------------------------ the use case

  datatype Status = Committed | PRCreated | MergedStatus | Synced

  datatype ChangeSet = ChangeSet(cluster: nat, files: seq<string>, commit: Option<nat>, pr: Option<nat>, status: Status)

  /** The remote and repository calls of Rollback, in order. Every error is returned at once, so
      a run is described by the first call that fails. */
  datatype Call = Load | Parent | Read(i: nat) | Branch | Committing | Record | Open | RecordOpen
                | Merging | RecordMerge | Sync | RecordSync | NoCall

  function Rank(c: Call): nat {
    match c
    case Load => 0 case Parent => 1 case Read(_) => 2 case Branch => 3 case Committing => 4 case Record => 5
    case Open => 6 case RecordOpen => 7 case Merging => 8 case RecordMerge => 9 case Sync => 10
    case RecordSync => 11 case NoCall => 12
  }

  /** Whether a run that is allowed to proceed meets the failing call at all. */
  predicate Met(failing: Call, n: nat, argo: bool) {
    match failing
    case Read(i) => i < n
    case Sync => argo
    case RecordSync => argo
    case NoCall => false
    case _ => true
  }

  /** The run gets past this call. */
  predicate Passes(failing: Call, n: nat, argo: bool, c: Call) {
    !Met(failing, n, argo) || Rank(c) < Rank(failing)
  }

  function StatusAfter(failing: Call, n: nat, argo: bool): Status {
    if argo && Passes(failing, n, argo, RecordSync) then Synced
    else if Passes(failing, n, argo, RecordMerge) then MergedStatus
    else if Passes(failing, n, argo, RecordOpen) then PRCreated
    else Committed
  }

  /** What the use case accepts: a change set of this cluster, with a commit that has a parent,
      on a repository where the rollback branch can be created. */
  predicate Revertible(store: map<nat, ChangeSet>, repo: Repo, cluster: nat, id: nat, trunk: string, branch: string) {
    && id in store && store[id].cluster == cluster && store[id].commit.Some?
    && store[id].commit.value < |repo.commits| && repo.commits[store[id].commit.value].parent.Some?
    && trunk in repo.branches && branch !in repo.branches
  }

  /** The tree a rollback commit gets. */
  function Reverted(repo: Repo, target: ChangeSet, trunk: string): Tree
    requires repo.Valid() && trunk in repo.branches && target.commit.Some? && target.commit.value < |repo.commits|
    requires repo.commits[target.commit.value].parent.Some?
  {
    var parent := repo.commits[repo.commits[target.commit.value].parent.value].tree;
    Changed(repo.Tip(trunk), Undoing(parent, target.files))
  }

  /** The repository with one more commit, on a new branch, undoing the paths on top of the
      trunk. */
  function WithUndo(repo: Repo, parent: nat, paths: seq<string>, trunk: string, branch: string): Repo
    requires repo.Valid() && parent < |repo.commits| && trunk in repo.branches
  {
    var tree := Changed(repo.Tip(trunk), Undoing(repo.commits[parent].tree, paths));
    Repo(repo.commits + [Revision(Some(repo.branches[trunk]), tree)], repo.branches[branch := |repo.commits|], repo.prs)
  }

  function WithRequest(repo: Repo, branch: string, trunk: string): Repo {
    repo.(prs := repo.prs + [PullRequest(branch, trunk, false)])
  }

  lemma {:induction false} MergeBaseOfFork(commits: seq<Revision>, tip: nat)
    requires tip < |commits| - 1 && commits[|commits| - 1].parent == Some(tip)
    requires forall i :: 0 <= i < |commits| && commits[i].parent.Some? ==> commits[i].parent.value < i
    ensures MergeBase(commits, |commits| - 1, tip) == Some(tip)
  {
    assert MergeBase(commits, tip, tip) == Some(tip);
  }

  /** Merging a branch whose only commit sits on the unmoved base is never refused and gives
      the base that commit's tree. */
  lemma {:induction false} MergeOntoFork(repo: Repo, number: nat)
    requires repo.Valid() && number < |repo.prs| && !repo.prs[number].merged
    requires repo.prs[number].head in repo.branches && repo.prs[number].base in repo.branches
    requires var pr := repo.prs[number];
             MergeBase(repo.commits, repo.branches[pr.head], repo.branches[pr.base]) == Some(repo.branches[pr.base])
    ensures Mergeable(repo, number)
    ensures var pr, after := repo.prs[number], AfterMerge(repo, number);
            && after.commits == repo.commits + [Revision(Some(repo.branches[pr.base]), repo.Tip(pr.head))]
            && after.branches == repo.branches[pr.base := |repo.commits|]
  {
    var pr := repo.prs[number];
    var merged := Merged(repo.Tip(pr.base), repo.Tip(pr.head), repo.Tip(pr.base));
    SameTree(merged, repo.Tip(pr.head));
  }

  lemma {:induction false} UndoMerges(was: Repo, parent: nat, paths: seq<string>, trunk: string, branch: string)
    requires was.Valid() && parent < |was.commits| && trunk in was.branches && branch !in was.branches
    ensures WithRequest(WithUndo(was, parent, paths, trunk, branch), branch, trunk).Valid()
    ensures Mergeable(WithRequest(WithUndo(was, parent, paths, trunk, branch), branch, trunk), |was.prs|)
    ensures var mid := WithUndo(was, parent, paths, trunk, branch);
            var after := AfterMerge(WithRequest(mid, branch, trunk), |was.prs|);
            && after.commits == mid.commits + [Revision(Some(was.branches[trunk]), mid.commits[|was.commits|].tree)]
            && after.branches == mid.branches[trunk := |mid.commits|]
  {
    var mid := WithRequest(WithUndo(was, parent, paths, trunk, branch), branch, trunk);
    MergeBaseOfFork(mid.commits, was.branches[trunk]);
    MergeOntoFork(mid, |was.prs|);
  }

  /** What a rollback leaves in Git. */
  function RepoAfter(was: Repo, target: ChangeSet, trunk: string, branch: string, failing: Call, argo: bool): (now: Repo)
    requires was.Valid() && trunk in was.branches && branch !in was.branches && target.commit.Some?
    requires target.commit.value < |was.commits| && was.commits[target.commit.value].parent.Some?
    ensures now.Valid()
  {
    var n, parent := |target.files|, was.commits[target.commit.value].parent.value;
    if !Passes(failing, n, argo, Branch) then was
    else if !Passes(failing, n, argo, Committing) then was.(branches := was.branches[branch := was.branches[trunk]])
    else
      var mid := WithUndo(was, parent, target.files, trunk, branch);
      if !Passes(failing, n, argo, Open) then mid
      else if !Passes(failing, n, argo, Merging) then WithRequest(mid, branch, trunk)
      else
        UndoMerges(was, parent, target.files, trunk, branch);
        AfterMerge(WithRequest(mid, branch, trunk), |was.prs|)
  }

  /** What it leaves in the change set table. */
  function StoreAfter(store: map<nat, ChangeSet>, was: Repo, target: ChangeSet, newId: nat,
                      failing: Call, argo: bool): map<nat, ChangeSet>
  {
    var n := |target.files|;
    if !Passes(failing, n, argo, Record) then store
    else store[newId := ChangeSet(target.cluster, target.files, Some(|was.commits|),
                                  if Passes(failing, n, argo, RecordOpen) then Some(|was.prs|) else None,
                                  StatusAfter(failing, n, argo))]
  }

  /** The status once the pull request is recorded. */
  function Reached(failing: Call, argo: bool): Status {
    if failing in {Merging, RecordMerge} then PRCreated
    else if argo && failing !in {Sync, RecordSync} then Synced
    else MergedStatus
  }

  lemma {:induction false} UpToRecord(failing: Call, n: nat, argo: bool)
    requires failing != Load && failing != Parent
    ensures Passes(failing, n, argo, Branch) <==> !(failing.Read? && failing.i < n) && failing != Branch
    ensures Passes(failing, n, argo, Committing) <==>
              !(failing.Read? && failing.i < n) && failing != Branch && failing != Committing
    ensures Passes(failing, n, argo, Record) <==> Passes(failing, n, argo, Committing) && failing != Record
    ensures !Passes(failing, n, argo, Record) ==> Met(failing, n, argo) && !Passes(failing, n, argo, Open)
  {
  }

  lemma {:induction false} AfterRecord(failing: Call, n: nat, argo: bool)
    requires Passes(failing, n, argo, Record)
    ensures Met(failing, n, argo) <==>
              failing in {Open, RecordOpen, Merging, RecordMerge} || (argo && failing in {Sync, RecordSync})
    ensures Passes(failing, n, argo, Open) <==> failing != Open
    ensures Passes(failing, n, argo, RecordOpen) <==> failing !in {Open, RecordOpen}
    ensures Passes(failing, n, argo, Merging) <==> failing !in {Open, RecordOpen, Merging}
    ensures StatusAfter(failing, n, argo) == if failing in {Open, RecordOpen} then Committed else Reached(failing, argo)
  {
  }

  class Service {
    const git: GitProvider
    var store: map<nat, ChangeSet>

    constructor (git: GitProvider)
      ensures this.git == git && store == map[]
    {
      this.git, store := git, map[];
    }

    /** Reads every generated file at the parent commit. */
    method Plan(parent: nat, paths: seq<string>, failing: Call) returns (files: seq<FileChange>, err: bool)
      requires parent < |git.repo.commits|
      ensures err <==> failing.Read? && failing.i < |paths|
      ensures !err ==> files == Undoing(git.repo.commits[parent].tree, paths)
    {
      files := [];
      for i := 0 to |paths|
        invariant |files| == i && !(failing.Read? && failing.i < i)
        invariant forall k :: 0 <= k < i ==> files[k] == Undo(git.repo.commits[parent].tree, paths[k])
      {
        var content, failed := git.GetFile(parent, paths[i], failing == Read(i));
        if failed {
          return [], true;
        }
        files := files + [if content.None? then Delete(paths[i]) else Write(paths[i], content.value)];
      }
      err := false;
    }

    /** Commits the undoing of paths on a new branch off the trunk. */
    method CommitUndo(parent: nat, paths: seq<string>, trunk: string, branch: string, failing: Call) returns (err: bool)
      requires git.repo.Valid() && parent < |git.repo.commits|
      modifies git
      ensures git.repo.Valid()
      ensures err <==> (failing.Read? && failing.i < |paths|) || failing == Branch || failing == Committing
                       || trunk !in old(git.repo).branches || branch in old(git.repo).branches
      ensures err && failing == Committing && trunk in old(git.repo).branches && branch !in old(git.repo).branches ==>
                git.repo == old(git.repo).(branches := old(git.repo).branches[branch := old(git.repo).branches[trunk]])
      ensures err && !(failing == Committing && trunk in old(git.repo).branches && branch !in old(git.repo).branches) ==>
                git.repo == old(git.repo)
      ensures !err ==> git.repo == WithUndo(old(git.repo), parent, paths, trunk, branch)
    {
      var files, failed := Plan(parent, paths, failing);
      if failed {
        return true;
      }
      failed := git.CreateBranch(branch, trunk, failing == Branch);
      if failed {
        return true;
      }
      var _, lost := git.Commit(branch, files, failing == Committing);
      err := lost;
    }

    /** Opens and merges the pull request and syncs, recording every step on the change set. */
    method Deliver(id: nat, branch: string, trunk: string, argo: bool, failing: Call) returns (err: bool)
      requires git.repo.Valid() && id in store
      requires WithRequest(git.repo, branch, trunk).Valid()
      requires Mergeable(WithRequest(git.repo, branch, trunk), |git.repo.prs|)
      modifies this, git
      ensures git.repo.Valid()
      ensures err <==> failing in {Open, RecordOpen, Merging, RecordMerge} || (argo && failing in {Sync, RecordSync})
      ensures git.repo == if failing == Open then old(git.repo)
                          else if failing in {RecordOpen, Merging} then WithRequest(old(git.repo), branch, trunk)
                          else AfterMerge(WithRequest(old(git.repo), branch, trunk), |old(git.repo).prs|)
      ensures store == if failing in {Open, RecordOpen} then old(store)
                       else old(store)[id := old(store)[id].(pr := Some(|old(git.repo).prs|), status := Reached(failing, argo))]
    {
      var number, failed := OpenRequest(id, branch, trunk, failing);
      if failed {
        return true;
      }
      err := MergeAndSync(id, number, argo, failing);
    }

    method OpenRequest(id: nat, branch: string, trunk: string, failing: Call) returns (number: nat, err: bool)
      requires id in store
      modifies this, git
      ensures err <==> failing == Open || failing == RecordOpen
      ensures failing != Open ==> number == |old(git.repo).prs|
      ensures git.repo == if failing == Open then old(git.repo)
                          else WithRequest(old(git.repo), branch, trunk)
      ensures store == if err then old(store)
                       else old(store)[id := old(store)[id].(pr := Some(number), status := PRCreated)]
    {
      number, err := git.CreatePullRequest(branch, trunk, failing == Open);
      if err || failing == RecordOpen {
        return number, true;
      }
      store := store[id := store[id].(pr := Some(number), status := PRCreated)];
    }

    method MergeAndSync(id: nat, number: nat, argo: bool, failing: Call) returns (err: bool)
      requires git.repo.Valid() && Mergeable(git.repo, number) && id in store
      modifies this, git
      ensures git.repo.Valid()
      ensures git.repo == if failing == Merging then old(git.repo) else AfterMerge(old(git.repo), number)
      ensures err <==> failing == Merging || failing == RecordMerge || (argo && (failing == Sync || failing == RecordSync))
      ensures store == if failing == Merging || failing == RecordMerge then old(store)
                       else old(store)[id := old(store)[id].(status := if argo && !err then Synced else MergedStatus)]
    {
      err := git.MergePullRequest(number, failing == Merging);
      if err || failing == RecordMerge {
        return true;
      }
      store := store[id := store[id].(status := MergedStatus)];
      if argo {
        if failing == Sync || failing == RecordSync {
          return true;
        }
        store := store[id := store[id].(status := Synced)];
      }
    }

    /** revert is the id of the change set recorded for the rollback, if it got that far. */
    method Rollback(cluster: nat, id: nat, newId: nat, trunk: string, branch: string, argo: bool, failing: Call)
      returns (revert: Option<nat>, err: bool)
      requires git.repo.Valid() && newId !in store
      modifies this, git
      ensures git.repo.Valid()
      ensures (id !in old(store) || old(store)[id].cluster != cluster || old(store)[id].commit.None?
               || old(store)[id].commit.value >= |old(git.repo).commits|
               || old(git.repo).commits[old(store)[id].commit.value].parent.None?
               || trunk !in old(git.repo).branches || branch in old(git.repo).branches) ==>
                err && revert.None? && store == old(store) && git.repo == old(git.repo)
      ensures (id in old(store) && old(store)[id].cluster == cluster && old(store)[id].commit.Some?
               && old(store)[id].commit.value < |old(git.repo).commits|
               && old(git.repo).commits[old(store)[id].commit.value].parent.Some?
               && trunk in old(git.repo).branches && branch !in old(git.repo).branches && failing == NoCall) ==>
                && !err && revert == Some(newId)
                && store == old(store)[newId := ChangeSet(cluster, old(store)[id].files, Some(|old(git.repo).commits|),
                                                          Some(|old(git.repo).prs|), if argo then Synced else MergedStatus)]
      ensures Revertible(old(store), old(git.repo), cluster, id, trunk, branch) ==>
                var target := old(store)[id];
                && err == Met(failing, |target.files|, argo)
                && revert == (if Passes(failing, |target.files|, argo, Record) then Some(newId) else None)
                && git.repo == RepoAfter(old(git.repo), target, trunk, branch, failing, argo)
                && store == StoreAfter(old(store), old(git.repo), target, newId, failing, argo)
    {
      if failing == Load || id !in store || store[id].cluster != cluster || store[id].commit.None? {
        return None, true;
      }
      var target := store[id];
      var parent := git.GetCommitParent(target.commit.value, failing == Parent);
      if parent.None? {
        return None, true;
      }
      revert, err := Revert(target, parent.value, newId, trunk, branch, argo, failing);
    }

    /** The rollback of an acceptable change set. */
    method Revert(target: ChangeSet, parent: nat, newId: nat, trunk: string, branch: string, argo: bool, failing: Call)
      returns (revert: Option<nat>, err: bool)
      requires git.repo.Valid() && newId !in store && failing != Load && failing != Parent
      requires target.commit.Some? && target.commit.value < |git.repo.commits|
      requires git.repo.commits[target.commit.value].parent == Some(parent)
      modifies this, git
      ensures git.repo.Valid()
      ensures trunk !in old(git.repo).branches || branch in old(git.repo).branches ==>
                err && revert.None? && store == old(store) && git.repo == old(git.repo)
      ensures trunk in old(git.repo).branches && branch !in old(git.repo).branches ==>
                && err == Met(failing, |target.files|, argo)
                && revert == (if Passes(failing, |target.files|, argo, Record) then Some(newId) else None)
                && git.repo == RepoAfter(old(git.repo), target, trunk, branch, failing, argo)
                && store == StoreAfter(old(store), old(git.repo), target, newId, failing, argo)
    {
      UpToRecord(failing, |target.files|, argo);
      var failed := CommitUndo(parent, target.files, trunk, branch, failing);
      if failed {
        return None, true;
      }
      UndoMerges(old(git.repo), parent, target.files, trunk, branch);
      revert, err := RecordAndDeliver(target, newId, trunk, branch, argo, failing);
    }

    /** From the change set of the rollback, for the commit just made, to its delivery. */
    method RecordAndDeliver(target: ChangeSet, newId: nat, trunk: string, branch: string, argo: bool, failing: Call)
      returns (revert: Option<nat>, err: bool)
      requires git.repo.Valid() && |git.repo.commits| > 0 && newId !in store
      requires Passes(failing, |target.files|, argo, Committing)
      requires WithRequest(git.repo, branch, trunk).Valid()
      requires Mergeable(WithRequest(git.repo, branch, trunk), |git.repo.prs|)
      modifies this, git
      ensures git.repo.Valid()
      ensures err == Met(failing, |target.files|, argo)
      ensures revert == if Passes(failing, |target.files|, argo, Record) then Some(newId) else None
      ensures git.repo == if !Passes(failing, |target.files|, argo, Open) then old(git.repo)
                          else if !Passes(failing, |target.files|, argo, Merging) then WithRequest(old(git.repo), branch, trunk)
                          else AfterMerge(WithRequest(old(git.repo), branch, trunk), |old(git.repo).prs|)
      ensures store == if revert.None? then old(store)
                       else old(store)[newId := ChangeSet(target.cluster, target.files, Some(|old(git.repo).commits| - 1),
                              if Passes(failing, |target.files|, argo, RecordOpen) then Some(|old(git.repo).prs|) else None,
                              StatusAfter(failing, |target.files|, argo))]
    {
      if failing == Record {
        return None, true;
      }
      store := store[newId := ChangeSet(target.cluster, target.files, Some(|git.repo.commits| - 1), None, Committed)];
      AfterRecord(failing, |target.files|, argo);
      err := Deliver(newId, branch, trunk, argo, failing);
      revert := Some(newId);
    }
  }

  /** How far a run got when a call failed: nothing is recorded before the commit is, and then
      the recorded status says what was done ... */
  lemma {:induction false} StatusTells(store: map<nat, ChangeSet>, was: Repo, target: ChangeSet, newId: nat,
                                       failing: Call, argo: bool)
    ensures var after, n := StoreAfter(store, was, target, newId, failing, argo), |target.files|;
            if failing in {Load, Parent, Branch, Committing, Record} || (failing.Read? && failing.i < n) then
              after == store && Met(failing, n, argo)
            else
              && after == store[newId := after[newId]]
              && after[newId].cluster == target.cluster && after[newId].files == target.files
              && after[newId].commit == Some(|was.commits|)
              && (after[newId].status == Committed <==> failing in {Open, RecordOpen})
              && (after[newId].status == PRCreated <==> failing in {Merging, RecordMerge})
              && (after[newId].status == MergedStatus <==>
                    failing !in {Open, RecordOpen, Merging, RecordMerge} && (!argo || failing in {Sync, RecordSync}))
              && after[newId].pr == (if after[newId].status == Committed then None else Some(|was.prs|))
              && (Met(failing, n, argo) <==>
                    failing in {Open, RecordOpen, Merging, RecordMerge} || (argo && failing in {Sync, RecordSync}))
  {
    var n := |target.files|;
    if failing != Load && failing != Parent {
      UpToRecord(failing, n, argo);
    }
    if Passes(failing, n, argo, Record) {
      AfterRecord(failing, n, argo);
    }
  }

  /** ... trailing Git by at most the one write that failed: the trunk has moved if and only if a
      change set is recorded that is MERGED or SYNCED, or whose MERGED could not be written. */
  lemma {:induction false} StatusTrailsGit(store: map<nat, ChangeSet>, was: Repo, target: ChangeSet, newId: nat,
                                           trunk: string, branch: string,
                        failing: Call, argo: bool)
    requires was.Valid() && trunk in was.branches && branch !in was.branches && target.commit.Some? && newId !in store
    requires target.commit.value < |was.commits| && was.commits[target.commit.value].parent.Some?
    ensures var now, after := RepoAfter(was, target, trunk, branch, failing, argo),
                              StoreAfter(store, was, target, newId, failing, argo);
            trunk in now.branches &&
            (now.branches[trunk] != was.branches[trunk] <==>
               newId in after && (after[newId].status in {MergedStatus, Synced} || failing == RecordMerge))
  {
    var parent := was.commits[target.commit.value].parent.value;
    StatusTells(store, was, target, newId, failing, argo);
    TrunkMoves(was, target, trunk, branch, failing, argo);
  }

  lemma {:induction false} TrunkMoves(was: Repo, target: ChangeSet, trunk: string, branch: string, failing: Call, argo: bool)
    requires was.Valid() && trunk in was.branches && branch !in was.branches && target.commit.Some?
    requires target.commit.value < |was.commits| && was.commits[target.commit.value].parent.Some?
    ensures var now := RepoAfter(was, target, trunk, branch, failing, argo);
            trunk in now.branches &&
            (now.branches[trunk] != was.branches[trunk] <==> Passes(failing, |target.files|, argo, Merging))
  {
    UndoMerges(was, was.commits[target.commit.value].parent.value, target.files, trunk, branch);
  }

  /** The rollback commit sits on the old tip of the trunk; if merged, the trunk has its tree. */
  ghost predicate Delivered(was: Repo, now: Repo, trunk: string, branch: string, tree: Tree, merged: bool)
    requires was.Valid() && now.Valid() && trunk in was.branches
  {
    && |now.commits| > |was.commits|
    && now.commits[..|was.commits| + 1] == was.commits + [Revision(Some(was.branches[trunk]), tree)]
    && branch in now.branches && now.branches[branch] == |was.commits|
    && trunk in now.branches
    && (merged ==> now.Tip(trunk) == tree)
  }

  /** What a rollback leaves in Git, read off: nothing unless it got as far as the commit; then
      a commit on the trunk's tip with the reverted tree, which becomes the trunk's tree if and
      only if the run got past the merge; no other branch ever moves. */
  lemma {:induction false} RollbackLeaves(was: Repo, target: ChangeSet, trunk: string, branch: string, failing: Call,
                                          argo: bool)
    requires was.Valid() && trunk in was.branches && branch !in was.branches && target.commit.Some?
    requires target.commit.value < |was.commits| && was.commits[target.commit.value].parent.Some?
    ensures var now, n := RepoAfter(was, target, trunk, branch, failing, argo), |target.files|;
            && (!Passes(failing, n, argo, Committing) ==> now.commits == was.commits)
            && (Passes(failing, n, argo, Committing) ==>
                  Delivered(was, now, trunk, branch, Reverted(was, target, trunk), Passes(failing, n, argo, Merging)))
            && forall b :: b in was.branches && !(b == trunk && Passes(failing, n, argo, Merging)) ==>
                 b in now.branches && now.branches[b] == was.branches[b]
  {
    var parent := was.commits[target.commit.value].parent.value;
    UndoMerges(was, parent, target.files, trunk, branch);
    assert WithUndo(was, parent, target.files, trunk, branch).commits[..|was.commits| + 1]
        == was.commits + [Revision(Some(was.branches[trunk]), Reverted(was, target, trunk))];
  }

  // ------------------------------------------------------------------ what a rollback means

  /** The undone tree is the parent's on the listed paths and the old one elsewhere. */
  lemma {:induction false} UndoneAt(tip: Tree, parent: Tree, paths: seq<string>, p: string)
    ensures At(Changed(tip, Undoing(parent, paths)), p) == if p in paths then At(parent, p) else At(tip, p)
  {
    if |paths| > 0 {
      var before := paths[..|paths| - 1];
      UndoneAt(tip, parent, before, p);
      assert Undoing(parent, paths)[..|paths| - 1] == Undoing(parent, before);
      assert p in paths <==> p in before || p == paths[|paths| - 1];
    }
  }

  /** A commit touches only the paths of its changes. */
  lemma {:induction false} ChangedElsewhere(tree: Tree, files: seq<FileChange>, p: string)
    requires forall c :: c in files ==> c.path != p
    ensures At(Changed(tree, files), p) == At(tree, p)
  {
    if |files| > 0 {
      ChangedElsewhere(tree, files[..|files| - 1], p);
      assert files[|files| - 1] in files;
    }
  }

  /** A rollback gives exactly the parent's tree iff the trunk agrees with the parent outside
      the generated files. */
  lemma {:induction false} RestoresParentIff(tip: Tree, parent: Tree, paths: seq<string>)
    ensures Changed(tip, Undoing(parent, paths)) == parent <==> forall p :: p !in paths ==> At(tip, p) == At(parent, p)
  {
    var undone := Changed(tip, Undoing(parent, paths));
    if undone == parent {
      forall p | p !in paths ensures At(tip, p) == At(parent, p) {
        UndoneAt(tip, parent, paths, p);
      }
    }
    if forall p :: p !in paths ==> At(tip, p) == At(parent, p) {
      forall p ensures At(undone, p) == At(parent, p) {
        UndoneAt(tip, parent, paths, p);
      }
      SameTree(undone, parent);
    }
  }

  /** Rollback inverts a change set: while the trunk still has the tree the change set's
      commit gave it, rolling back gives it the tree it had before. */
  lemma {:induction false} RollbackInverts(parent: Tree, files: seq<FileChange>, generated: seq<string>)
    requires forall c :: c in files ==> c.path in generated
    ensures Changed(Changed(parent, files), Undoing(parent, generated)) == parent
  {
    forall p | p !in generated ensures At(Changed(parent, files), p) == At(parent, p) {
      ChangedElsewhere(parent, files, p);
    }
    RestoresParentIff(Changed(parent, files), parent, generated);
  }

  /** In the repository: if the trunk still has the tree of the target's commit, and that commit
      touched only the change set's files, a rollback that gets past the merge leaves the trunk
      with exactly the tree of the commit's parent. */
  lemma {:induction false} RollbackRestores(was: Repo, target: ChangeSet, trunk: string, branch: string,
                                            failing: Call, argo: bool)
    requires was.Valid() && trunk in was.branches && branch !in was.branches && target.commit.Some?
    requires target.commit.value < |was.commits| && was.commits[target.commit.value].parent.Some?
    requires was.Tip(trunk) == was.commits[target.commit.value].tree
    requires var commit := was.commits[target.commit.value];
             forall p :: p !in target.files ==> At(commit.tree, p) == At(was.commits[commit.parent.value].tree, p)
    requires Passes(failing, |target.files|, argo, Merging)
    ensures var now := RepoAfter(was, target, trunk, branch, failing, argo);
            trunk in now.branches && now.Tip(trunk) == was.commits[was.commits[target.commit.value].parent.value].tree
  {
    var parent := was.commits[was.commits[target.commit.value].parent.value].tree;
    RestoresParentIff(was.Tip(trunk), parent, target.files);
    RollbackLeaves(was, target, trunk, branch, failing, argo);
  }

  /** The change set Rollback records. */
  function RevertOf(was: Repo, target: ChangeSet): ChangeSet {
    ChangeSet(target.cluster, target.files, Some(|was.commits|), None, Committed)
  }

  /** Rolling the rollback back restores, on the generated files, what the trunk had before the
      first rollback; if nobody else moved the trunk since, it restores the whole tree (the
      target's, if that is what the trunk had). */
  lemma {:induction false} RollbackOfRollback(was: Repo, now: Repo, later: Repo, target: ChangeSet, trunk: string,
                                              branch: string, p: string)
    requires was.Valid() && now.Valid() && later.Valid() && trunk in was.branches && trunk in later.branches
    requires target.commit.Some? && target.commit.value < |was.commits|
    requires was.commits[target.commit.value].parent.Some?
    requires Delivered(was, now, trunk, branch, Reverted(was, target, trunk), true)
    requires now.commits <= later.commits
    ensures later.commits[|was.commits|].parent == Some(was.branches[trunk])
    ensures At(Reverted(later, RevertOf(was, target), trunk), p) ==
            if p in target.files then At(was.Tip(trunk), p) else At(later.Tip(trunk), p)
    ensures later.Tip(trunk) == now.Tip(trunk) ==> Reverted(later, RevertOf(was, target), trunk) == was.Tip(trunk)
  {
    var sha := |was.commits|;
    assert now.commits[sha] == now.commits[..sha + 1][sha];
    assert later.commits[sha] == now.commits[sha];
    var b := was.branches[trunk];
    assert later.commits[b] == now.commits[b] == now.commits[..sha + 1][b] == was.commits[b];
    UndoneAt(later.Tip(trunk), was.Tip(trunk), target.files, p);
    if later.Tip(trunk) == now.Tip(trunk) {
      var parent := was.commits[was.commits[target.commit.value].parent.value].tree;
      forall q | q !in target.files ensures At(later.Tip(trunk), q) == At(was.Tip(trunk), q) {
        UndoneAt(was.Tip(trunk), parent, target.files, q);
      }
      RestoresParentIff(later.Tip(trunk), was.Tip(trunk), target.files);
    }
  }

  /** When somebody else moves the trunk between the rollback commit and its merge: the merge is
      refused iff they changed a path the rollback also changes, to something else; and if it
      goes through, exactly the paths the rollback had to change are the parent's, everything
      else is as they left it. */
  lemma {:induction false} MergeOverMovedTrunk(fork: Tree, moved: Tree, parent: Tree, paths: seq<string>)
    ensures var undone := Changed(fork, Undoing(parent, paths));
            Conflict(fork, undone, moved) <==>
              exists p :: p in paths && At(parent, p) != At(fork, p)
                          && At(moved, p) != At(fork, p) && At(moved, p) != At(parent, p)
    ensures var merged := Merged(fork, Changed(fork, Undoing(parent, paths)), moved);
            forall p :: At(merged, p) ==
              if p in paths && At(parent, p) != At(fork, p) then At(parent, p) else At(moved, p)
  {
    var undone := Changed(fork, Undoing(parent, paths));
    forall p ensures At(undone, p) == if p in paths then At(parent, p) else At(fork, p) {
      UndoneAt(fork, parent, paths, p);
    }
    if Conflict(fork, undone, moved) {
      var p :| ConflictAt(fork, undone, moved, p);
      assert p in paths;
    }
    if p :| p in paths && At(parent, p) != At(fork, p) && At(moved, p) != At(fork, p) && At(moved, p) != At(parent, p) {
      assert ConflictAt(fork, undone, moved, p);
    }
  }

  // ------------------------------------------------------------------ a trunk that has moved

  /** Commit t was built on b, parent by parent, after the first n commits. */
  ghost predicate BuiltOn(commits: seq<Revision>, t: nat, b: nat, n: nat)
    decreases t
  {
    t == b || (n <= t < |commits| && commits[t].parent.Some? && commits[t].parent.value < t
               && BuiltOn(commits, commits[t].parent.value, b, n))
  }

  /** Commits on top of the trunk leave the fork as the merge base. */
  lemma {:induction false} ForkStaysBase(commits: seq<Revision>, h: nat, t: nat, b: nat)
    requires b < h < |commits| && commits[h].parent == Some(b) && BuiltOn(commits, t, b, h + 1) && t < |commits|
    requires forall i :: 0 <= i < |commits| && commits[i].parent.Some? ==> commits[i].parent.value < i
    ensures MergeBase(commits, h, t) == Some(b)
    decreases t
  {
    if t == b {
      assert MergeBase(commits, b, b) == Some(b);
    } else {
      ForkStaysBase(commits, h, commits[t].parent.value, b);
    }
  }

  /** Since the undo commit was made, others have only added commits, some of them on top of the
      trunk; the rollback branch and its pull request are as they were. */
  ghost predicate TrunkMoved(was: Repo, undone: Repo, later: Repo, trunk: string, branch: string)
    requires trunk in was.branches
  {
    && later.Valid() && undone.commits <= later.commits && undone.prs <= later.prs
    && trunk in later.branches && branch in later.branches && later.branches[branch] == |was.commits|
    && BuiltOn(later.commits, later.branches[trunk], was.branches[trunk], |was.commits| + 1)
  }

  /** In the repository: a rollback whose trunk has moved is refused at the merge if and only if
      somebody has changed a path the rollback also changes, to something else; if it goes
      through, exactly the paths the rollback had to change are the parent's on the trunk, and
      everything else is as the others left it. */
  lemma {:induction false} RollbackOverMovedTrunk(was: Repo, parent: nat, paths: seq<string>, trunk: string,
                                                  branch: string, later: Repo)
    requires was.Valid() && parent < |was.commits| && trunk in was.branches && branch !in was.branches
    requires TrunkMoved(was, WithRequest(WithUndo(was, parent, paths, trunk, branch), branch, trunk), later, trunk, branch)
    ensures var before, now, fork := was.commits[parent].tree, later.Tip(trunk), was.Tip(trunk);
            !Mergeable(later, |was.prs|) <==>
              exists p :: p in paths && At(before, p) != At(fork, p) && At(now, p) != At(fork, p) && At(now, p) != At(before, p)
    ensures Forked(later, |was.prs|) && trunk in AfterMerge(later, |was.prs|).branches
    ensures var before, now, fork := was.commits[parent].tree, later.Tip(trunk), was.Tip(trunk);
            var merged := AfterMerge(later, |was.prs|).Tip(trunk);
            forall p ::
              At(merged, p) == if p in paths && At(before, p) != At(fork, p) then At(before, p) else At(now, p)
  {
    MovedFork(was, parent, paths, trunk, branch, later);
    MergeOverMovedTrunk(was.Tip(trunk), later.Tip(trunk), was.commits[parent].tree, paths);
  }

  /** The trees the merge works on. */
  lemma {:induction false} MovedFork(was: Repo, parent: nat, paths: seq<string>, trunk: string, branch: string, later: Repo)
    requires was.Valid() && parent < |was.commits| && trunk in was.branches && branch !in was.branches
    requires TrunkMoved(was, WithRequest(WithUndo(was, parent, paths, trunk, branch), branch, trunk), later, trunk, branch)
    ensures Forked(later, |was.prs|) && later.prs[|was.prs|] == PullRequest(branch, trunk, false)
    ensures BaseTree(later, |was.prs|) == was.Tip(trunk)
    ensures later.Tip(branch) == Changed(was.Tip(trunk), Undoing(was.commits[parent].tree, paths))
  {
    var undone := WithRequest(WithUndo(was, parent, paths, trunk, branch), branch, trunk);
    var h, b := |was.commits|, was.branches[trunk];
    assert later.prs[|was.prs|] == undone.prs[|was.prs|] == PullRequest(branch, trunk, false);
    assert later.commits[h] == undone.commits[h] && later.commits[b] == undone.commits[b] == was.commits[b];
    ForkStaysBase(later.commits, h, later.branches[trunk], b);
  }
}
