/** Bringing the owner's worktree back onto its branch. A repository is its
    branches and what each worktree has checked out; every git command may fail,
    and the process may stop between any two: whether each works is an input. */
module OwnerWorktree {
  import opened Common

  /** A commit, by number. */
  type Commit = nat

  datatype Checkout = OnBranch(name: string) | Detached(commit: Commit)

  /** Every branch tip there was is still the tip of some branch. */
  ghost predicate TipsKept(before: map<string, Commit>, after: map<string, Commit>) {
    before.Values <= after.Values
  }

  lemma AddingKeepsTips(before: map<string, Commit>, after: map<string, Commit>)
    requires forall b :: b in before ==> b in after && after[b] == before[b]
    ensures TipsKept(before, after)
  {
  }

  /** No branch is checked out in two worktrees. */
  ghost predicate CheckedOutOnce(heads: map<string, Checkout>) {
    forall p, q :: p in heads && q in heads && heads[p].OnBranch? && heads[p] == heads[q] ==> p == q
  }

  lemma StaysCheckedOutOnce(heads: map<string, Checkout>, path: string, name: string)
    requires CheckedOutOnce(heads)
    requires forall p :: p in heads && p != path ==> heads[p] != OnBranch(name)
    ensures CheckedOutOnce(heads[path := OnBranch(name)])
  {
  }

  function HeadCommit(branches: map<string, Commit>, head: Checkout): Option<Commit> {
    match head
    case Detached(c) => Some(c)
    case OnBranch(b) => if b in branches then Some(branches[b]) else None
  }

  /** A worktree that had a commit has it still. */
  predicate SameCommit(before: map<string, Commit>, head: Checkout, after: map<string, Commit>, head': Checkout) {
    HeadCommit(before, head).Some? ==> HeadCommit(after, head') == HeadCommit(before, head)
  }

  ghost predicate CommitsKept(before: map<string, Commit>, heads: map<string, Checkout>,
                              after: map<string, Commit>, heads': map<string, Checkout>)
  {
    forall p :: p in heads ==> p in heads' && SameCommit(before, heads[p], after, heads'[p])
  }

  lemma AddingKeepsCommits(before: map<string, Commit>, after: map<string, Commit>, heads: map<string, Checkout>)
    requires forall b :: b in before ==> b in after && after[b] == before[b]
    ensures CommitsKept(before, heads, after, heads)
  {
  }

  lemma CommitsKeptOn(b0: map<string, Commit>, h0: map<string, Checkout>, b1: map<string, Commit>,
                      h1: map<string, Checkout>, b2: map<string, Commit>, h2: map<string, Checkout>)
    requires CommitsKept(b0, h0, b1, h1) && CommitsKept(b1, h1, b2, h2)
    ensures CommitsKept(b0, h0, b2, h2)
  {
    forall p | p in h0
      ensures p in h2 && SameCommit(b0, h0[p], b2, h2[p])
    {
      assert SameCommit(b0, h0[p], b1, h1[p]) && SameCommit(b1, h1[p], b2, h2[p]);
    }
  }

  lemma MovingUnusedKeepsCommits(before: map<string, Commit>, heads: map<string, Checkout>, name: string,
                                 commit: Commit)
    requires forall p :: p in heads ==> heads[p] != OnBranch(name)
    ensures CommitsKept(before, heads, before[name := commit], heads)
  {
  }

  lemma AttachingKeepsCommits(branches: map<string, Commit>, heads: map<string, Checkout>, path: string, name: string)
    requires name in branches && (path in heads ==> HeadCommit(branches, heads[path]) == Some(branches[name]))
    ensures CommitsKept(branches, heads, branches, heads[path := OnBranch(name)])
  {
  }

  /** The branch is checked out in no other worktree. */
  ghost predicate Free(heads: map<string, Checkout>, path: string, name: string) {
    forall p :: p in heads && p != path ==> heads[p] != OnBranch(name)
  }

  /** Which commands meet no error of their own; git may refuse one all the same.
      `halfway`: the failing command that was to make the branch has made it. */
  datatype Git = Git(prune: bool, backup: bool, targetBackup: bool, force: bool, head: bool, switch: bool,
                     create: bool, halfway: bool)

  function Pruned(heads: map<string, Checkout>, present: set<string>, locked: set<string>): map<string, Checkout> {
    map p | p in heads && (p in present || p in locked) :: heads[p]
  }

  /** Where this repository has the branch. */
  function Tip(branches: map<string, Commit>, name: string): Option<Commit> {
    if name in branches then Some(branches[name]) else None
  }

  // When going on in a worktree succeeds. `targetCommit` and `free` are what the
  // canonical repository says of the owner branch: where it is, and that it is
  // checked out in no other worktree there.

  ghost predicate Reanchors(git: Git, branches: map<string, Commit>, heads: map<string, Checkout>, path: string,
                            target: string, targetCommit: Option<Commit>, free: bool, backups: (string, string))
  {
    && free && Free(heads, path, target) && git.backup && backups.0 !in branches && git.force && git.head
    && (targetCommit.Some? ==>
          && git.targetBackup && (target in branches || backups.0 == target)
          && backups.1 !in branches && backups.1 != backups.0)
  }

  ghost predicate Switches(git: Git, branches: map<string, Commit>, heads: map<string, Checkout>, path: string,
                           target: string, free: bool)
  {
    free && Free(heads, path, target) && git.switch && target in branches
  }

  ghost predicate GoesOn(git: Git, branches: map<string, Commit>, heads: map<string, Checkout>, path: string,
                         target: string, targetCommit: Option<Commit>, free: bool, clean: bool,
                         backups: (string, string))
    requires path in heads
  {
    match heads[path]
    case OnBranch(b) =>
      || b == target
      || (b in branches
          && if clean && targetCommit == Some(branches[b]) then Switches(git, branches, heads, path, target, free)
             else Reanchors(git, branches, heads, path, target, targetCommit, free, backups))
    case Detached(c) =>
      if targetCommit.None? then git.create && target !in branches
      else targetCommit.value == c && Switches(git, branches, heads, path, target, free)
  }

  /** When provisioning succeeds, the registrations having been repaired and the
      directory being no repository of its own. */
  ghost predicate Provisions(git: Git, branches: map<string, Commit>, heads: map<string, Checkout>,
                             present: set<string>, path: string, target: string, clean: bool,
                             backups: (string, string))
  {
    if path !in present then
      path !in heads && git.create && (target in branches ==> Free(heads, path, target))
    else
      path in heads
      && GoesOn(git, branches, heads, path, target, Tip(branches, target), Free(heads, path, target), clean, backups)
  }

  /** Where every command works and the backups' names are new, a worktree that is
      missing is made, one on a branch is always brought over if the owner branch is
      in no other worktree, and a detached one unless the owner branch is at another
      commit. */
  lemma Succeeds(git: Git, branches: map<string, Commit>, heads: map<string, Checkout>, present: set<string>,
                 path: string, target: string, clean: bool, backups: (string, string))
    requires git.backup && git.targetBackup && git.force && git.head && git.switch && git.create
    requires backups.0 !in branches && backups.1 !in branches && backups.0 != backups.1
    requires path in present <==> path in heads
    ensures Provisions(git, branches, heads, present, path, target, clean, backups) <==>
            if path !in heads then target !in branches || Free(heads, path, target)
            else match heads[path]
                 case OnBranch(b) => b == target || (b in branches && Free(heads, path, target))
                 case Detached(c) => target !in branches || (branches[target] == c && Free(heads, path, target))
  {
  }

  // What can go wrong in a repository of its own, whose owner branch need not be
  // where the canonical repository has it.

  /** The owner branch was moved without a backup, and no other branch was where it was. */
  ghost predicate Overwrites(before: map<string, Commit>, after: map<string, Commit>, target: string,
                             targetCommit: Option<Commit>)
  {
    && targetCommit.None? && target in before && target in after && after[target] != before[target]
    && forall b :: b in before && b != target ==> before[b] != before[target]
  }

  /** The worktree is switched to an owner branch that is somewhere else. */
  predicate Moves(branches: map<string, Commit>, head: Checkout, target: string, targetCommit: Option<Commit>,
                  clean: bool)
  {
    && targetCommit.Some? && HeadCommit(branches, head) == targetCommit
    && target in branches && branches[target] != targetCommit.value
    && (head.OnBranch? ==> clean && head.name != target)
  }

  lemma AgreedIsSafe(branches: map<string, Commit>, after: map<string, Commit>, head: Checkout, target: string,
                     clean: bool)
    ensures !Overwrites(branches, after, target, Tip(branches, target))
    ensures !Moves(branches, head, target, Tip(branches, target), clean)
  {
  }

  lemma NotKept(before: map<string, Commit>, heads: map<string, Checkout>, after: map<string, Commit>,
                heads': map<string, Checkout>, path: string)
    requires path in heads && path in heads' && HeadCommit(before, heads[path]).Some?
    requires HeadCommit(after, heads'[path]) != HeadCommit(before, heads[path])
    ensures !CommitsKept(before, heads, after, heads')
  {
  }

  lemma OnceOrTwice(heads: map<string, Checkout>, path: string, name: string)
    requires CheckedOutOnce(heads)
    ensures CheckedOutOnce(heads[path := OnBranch(name)]) <==> Free(heads, path, name)
  {
    var heads' := heads[path := OnBranch(name)];
    if p :| p in heads && p != path && heads[p] == OnBranch(name) {
      assert heads'[p] == heads'[path];
    }
  }

  /** No branch but the owner branch is moved, and none appears but that and backups. */
  ghost predicate OnlyAdds(before: map<string, Commit>, after: map<string, Commit>, target: string,
                           backups: (string, string))
  {
    && (forall b :: b in before && b != target ==> b in after && after[b] == before[b])
    && (forall b :: b in after ==> b in before || b in {target, backups.0, backups.1})
  }

  /** A worktree brought over from another branch has left two backups: of the work
      in it, and of what the owner branch was. */
  predicate LeavesBackups(before: map<string, Commit>, head: Checkout, after: map<string, Commit>, target: string,
                          targetCommit: Option<Commit>, clean: bool, backups: (string, string))
  {
    head.OnBranch? && head.name != target && head.name in before
    && !(clean && targetCommit == Some(before[head.name])) ==>
      && backups.0 in after && after[backups.0] == before[head.name]
      && (targetCommit.Some? && target in before ==> backups.1 in after && after[backups.1] == before[target])
  }

  class GitRepo {
    var branches: map<string, Commit>
    var heads: map<string, Checkout>   // registered worktrees
    var present: set<string>           // worktree directories that exist
    const locked: set<string>          // registrations that prune leaves alone

    constructor (branches: map<string, Commit>, heads: map<string, Checkout>, present: set<string>, locked: set<string>)
      ensures this.branches == branches && this.heads == heads && this.present == present && this.locked == locked
    {
      this.branches, this.heads, this.present, this.locked := branches, heads, present, locked;
    }

    predicate CheckedOut(branch: string)
      reads this
    {
      exists p :: p in heads && heads[p] == OnBranch(branch)
    }

    // ----- git commands; not `ok` is an error exit, with nothing done unless said -----

    /** `git worktree prune --expire now` */
    method Prune(works: bool) returns (ok: bool)
      modifies `heads
      ensures ok == works && heads == if ok then Pruned(old(heads), present, locked) else old(heads)
    {
      ok := works;
      if ok { heads := Pruned(heads, present, locked); }
    }

    /** `git branch name from` */
    method CreateBranch(name: string, from: string, works: bool) returns (ok: bool)
      modifies `branches
      ensures ok <==> works && name !in old(branches) && from in old(branches)
      ensures branches == if ok then old(branches)[name := old(branches)[from]] else old(branches)
    {
      ok := works && name !in branches && from in branches;
      if ok { branches := branches[name := branches[from]]; }
    }

    /** `git branch -f name commit`: refused while the branch is checked out. */
    method ForceBranch(name: string, commit: Commit, works: bool) returns (ok: bool)
      modifies `branches
      ensures ok <==> works && !CheckedOut(name)
      ensures branches == if ok then old(branches)[name := commit] else old(branches)
    {
      ok := works && !CheckedOut(name);
      if ok { branches := branches[name := commit]; }
    }

    /** `git symbolic-ref HEAD refs/heads/name` */
    method SetSymbolicHead(path: string, name: string, works: bool) returns (ok: bool)
      modifies `heads
      ensures ok == works && heads == if ok then old(heads)[path := OnBranch(name)] else old(heads)
    {
      ok := works;
      if ok { heads := heads[path := OnBranch(name)]; }
    }

    /** `git switch name` */
    method Switch(path: string, name: string, works: bool) returns (ok: bool)
      modifies `heads
      ensures ok <==> works && name in branches && !old(CheckedOut(name))
      ensures heads == if ok then old(heads)[path := OnBranch(name)] else old(heads)
    {
      ok := works && name in branches && !CheckedOut(name);
      if ok { heads := heads[path := OnBranch(name)]; }
    }

    /** `git switch -c name`: makes the branch, then moves HEAD. */
    method SwitchCreate(path: string, name: string, works: bool, halfway: bool) returns (ok: bool)
      requires path in heads
      modifies `heads, `branches
      ensures ok <==> works && name !in old(branches) && HeadCommit(old(branches), old(heads)[path]).Some?
      ensures branches == if name !in old(branches) && HeadCommit(old(branches), old(heads)[path]).Some?
                          && (works || halfway)
                          then old(branches)[name := HeadCommit(old(branches), old(heads)[path]).value]
                          else old(branches)
      ensures heads == if ok then old(heads)[path := OnBranch(name)] else old(heads)
    {
      var commit := HeadCommit(branches, heads[path]);
      if name in branches || commit.None? { return false; }
      if works || halfway { branches := branches[name := commit.value]; }
      if works { heads := heads[path := OnBranch(name)]; }
      return works;
    }

    /** `git worktree add path name` */
    method WorktreeAdd(path: string, name: string, works: bool) returns (ok: bool)
      modifies `heads, `present
      ensures ok <==> works && name in branches && !old(CheckedOut(name))
      ensures heads == if ok then old(heads)[path := OnBranch(name)] else old(heads)
      ensures present == if ok then old(present) + {path} else old(present)
    {
      ok := works && name in branches && !CheckedOut(name);
      if ok {
        heads := heads[path := OnBranch(name)];
        present := present + {path};
      }
    }

    /** `git worktree add -b name path commit`: makes the branch, then the worktree. */
    method WorktreeAddNew(path: string, name: string, commit: Commit, works: bool, halfway: bool) returns (ok: bool)
      modifies this
      ensures ok <==> works && name !in old(branches)
      ensures branches == if name !in old(branches) && (works || halfway)
                          then old(branches)[name := commit] else old(branches)
      ensures heads == if ok then old(heads)[path := OnBranch(name)] else old(heads)
      ensures present == if ok then old(present) + {path} else old(present)
    {
      if name in branches { return false; }
      if works || halfway { branches := branches[name := commit]; }
      if works {
        heads := heads[path := OnBranch(name)];
        present := present + {path};
      }
      return works;
    }

    // ----- the repair -----

    method EnsureBranchNotCheckedOutElsewhere(path: string, name: string) returns (ok: bool)
      ensures ok <==> Free(heads, path, name)
    {
      ok := !exists p :: p in heads && p != path && heads[p] == OnBranch(name);
    }

    method RepairRegistration(path: string, git: Git) returns (ok: bool)
      modifies `heads
      ensures heads == if git.prune then Pruned(old(heads), present, locked) else old(heads)
      ensures ok <==> git.prune && (path in present || path !in heads)
    {
      ok := Prune(git.prune);
      if !ok { return; }
      return path !in heads || path in present;
    }

    /** Both old tips are backed up under new names. */
    method BackUp(current: string, target: string, targetCommit: Option<Commit>, backups: (string, string), git: Git)
      returns (ok: bool)
      requires current in branches
      modifies `branches
      ensures forall b :: b in old(branches) ==> b in branches && branches[b] == old(branches)[b]
      ensures OnlyAdds(old(branches), branches, target, backups)
      ensures ok ==> backups.0 in branches && branches[backups.0] == old(branches)[current]
      ensures targetCommit.None? ==>
                forall b :: b in branches && b !in old(branches) ==> branches[b] == old(branches)[current]
      ensures ok && targetCommit.Some? && target in old(branches) ==>
                backups.1 in branches && backups.1 != target && branches[backups.1] == old(branches)[target]
      ensures ok <==> git.backup && backups.0 !in old(branches)
                      && (targetCommit.Some? ==>
                            && git.targetBackup && (target in old(branches) || backups.0 == target)
                            && backups.1 !in old(branches) && backups.1 != backups.0)
    {
      ok := CreateBranch(backups.0, current, git.backup);
      if !ok { return; }
      if targetCommit.Some? {
        ok := CreateBranch(backups.1, target, git.targetBackup);
      }
    }

    /** The work in the tree goes onto the owner branch, after the backups. */
    method Reanchor(canonical: GitRepo, path: string, current: string, target: string, targetCommit: Option<Commit>,
                    headCommit: Commit, backups: (string, string), git: Git) returns (ok: bool)
      requires path in heads && heads[path] == OnBranch(current) && current != target && CheckedOutOnce(heads)
      requires current in branches && branches[current] == headCommit
      modifies `heads, `branches
      ensures TipsKept(old(branches), branches) <==> !Overwrites(old(branches), branches, target, targetCommit)
      ensures CheckedOutOnce(heads) && CommitsKept(old(branches), old(heads), branches, heads)
      ensures ok <==> Reanchors(git, old(branches), old(heads), path, target, targetCommit,
                                Free(old(canonical.heads), path, target), backups)
      ensures ok ==> target in branches && branches[target] == headCommit
      ensures OnlyAdds(old(branches), branches, target, backups)
      ensures ok ==> LeavesBackups(old(branches), OnBranch(current), branches, target, targetCommit, false, backups)
      ensures heads == if ok then old(heads)[path := OnBranch(target)] else old(heads)
    {
      hide TipsKept, CheckedOutOnce, CommitsKept;
      AddingKeepsTips(branches, branches);
      AddingKeepsCommits(branches, branches, heads);
      ok := canonical.EnsureBranchNotCheckedOutElsewhere(path, target);
      if !ok { return; }
      ok := BackUp(current, target, targetCommit, backups, git);
      ghost var backedUp := branches;
      AddingKeepsTips(old(branches), backedUp);
      AddingKeepsCommits(old(branches), backedUp, heads);
      if !ok { return; }
      ok := ForceBranch(target, headCommit, git.force);
      if !ok { return; }
      MovedTips(old(branches), backedUp, branches, current, target, targetCommit, backups);
      StaysCheckedOutOnce(heads, path, target);
      MovingUnusedKeepsCommits(backedUp, heads, target, headCommit);
      CommitsKeptOn(old(branches), heads, backedUp, heads, branches, heads);
      ok := SetSymbolicHead(path, target, git.head);
      if !ok { return; }
      AttachingKeepsCommits(branches, old(heads), path, target);
      CommitsKeptOn(old(branches), old(heads), branches, old(heads), branches, heads);
    }

    /** `git switch`, the canonical repository agreeing: the commit is kept if and
        only if the branch is there. */
    method SwitchOver(canonical: GitRepo, path: string, target: string, commit: Commit, git: Git) returns (ok: bool)
      requires path in heads && heads[path] != OnBranch(target) && HeadCommit(branches, heads[path]) == Some(commit)
      requires CheckedOutOnce(heads)
      modifies `heads
      ensures CheckedOutOnce(heads)
      ensures CommitsKept(branches, old(heads), branches, heads)
              <==> !(ok && target in branches && branches[target] != commit)
      ensures ok <==> Switches(git, branches, old(heads), path, target, Free(old(canonical.heads), path, target))
      ensures heads == if ok then old(heads)[path := OnBranch(target)] else old(heads)
    {
      hide CommitsKept;
      AddingKeepsCommits(branches, branches, heads);
      ok := canonical.EnsureBranchNotCheckedOutElsewhere(path, target);
      if !ok { return; }
      ok := Switch(path, target, git.switch);
      if !ok { return; }
      if branches[target] == commit {
        AttachingKeepsCommits(branches, old(heads), path, target);
      } else {
        NotKept(branches, old(heads), branches, heads, path);
      }
    }

    /** `clean`: git status shows nothing in the worktree. */
    method MaybeRepairNamedBranch(canonical: GitRepo, path: string, current: string, target: string,
                                  targetCommit: Option<Commit>, clean: bool, backups: (string, string), git: Git)
      returns (ok: bool)
      requires path in heads && heads[path] == OnBranch(current) && current != target && CheckedOutOnce(heads)
      modifies `heads, `branches
      ensures TipsKept(old(branches), branches) <==> !Overwrites(old(branches), branches, target, targetCommit)
      ensures CheckedOutOnce(heads)
      ensures CommitsKept(old(branches), old(heads), branches, heads)
              <==> !(ok && Moves(old(branches), OnBranch(current), target, targetCommit, clean))
      ensures ok <==> GoesOn(git, old(branches), old(heads), path, target, targetCommit,
                             Free(old(canonical.heads), path, target), clean, backups)
      ensures heads == if ok then old(heads)[path := OnBranch(target)] else old(heads)
      ensures ok ==> Free(old(heads), path, target) && target in branches
      ensures OnlyAdds(old(branches), branches, target, backups)
      ensures ok ==> LeavesBackups(old(branches), OnBranch(current), branches, target, targetCommit, clean, backups)
      ensures current !in old(branches) ==> branches == old(branches)
    {
      hide TipsKept, CheckedOutOnce, CommitsKept;
      AddingKeepsTips(branches, branches);
      AddingKeepsCommits(branches, branches, heads);
      if current !in branches { return false; }
      var headCommit := branches[current];
      if !clean || targetCommit != Some(headCommit) {
        ok := Reanchor(canonical, path, current, target, targetCommit, headCommit, backups, git);
      } else {
        ok := SwitchOver(canonical, path, target, headCommit, git);
      }
    }

    /** From a detached HEAD: name it, or go onto the branch if it points there. */
    method AttachDetached(canonical: GitRepo, path: string, target: string, targetCommit: Option<Commit>, git: Git)
      returns (ok: bool)
      requires path in heads && heads[path].Detached? && CheckedOutOnce(heads)
      modifies `heads, `branches
      ensures TipsKept(old(branches), branches)
      ensures forall b :: b in old(branches) ==> b in branches && branches[b] == old(branches)[b]
      ensures CommitsKept(old(branches), old(heads), branches, heads)
              <==> !(ok && Moves(old(branches), old(heads)[path], target, targetCommit, false))
      ensures CheckedOutOnce(heads) <==> !(ok && UnbornElsewhere(old(branches), old(heads), path, target))
      ensures forall clean, backups ::
                ok <==> GoesOn(git, old(branches), old(heads), path, target, targetCommit,
                               Free(old(canonical.heads), path, target), clean, backups)
      ensures ok ==> target in branches
      ensures branches == if targetCommit.None? && target !in old(branches) && (git.create || git.halfway)
                          then old(branches)[target := old(heads)[path].commit] else old(branches)
      ensures heads == if ok then old(heads)[path := OnBranch(target)] else old(heads)
    {
      hide TipsKept, CheckedOutOnce, CommitsKept;
      AddingKeepsTips(branches, branches);
      AddingKeepsCommits(branches, branches, heads);
      OnceOrTwice(heads, path, target);
      if targetCommit.None? {
        ok := SwitchCreate(path, target, git.create, git.halfway);
        AddingKeepsTips(old(branches), branches);
        AddingKeepsCommits(old(branches), branches, old(heads));
        if ok {
          AttachingKeepsCommits(branches, old(heads), path, target);
          CommitsKeptOn(old(branches), old(heads), branches, old(heads), branches, heads);
        }
      } else if targetCommit.value == heads[path].commit {
        ok := SwitchOver(canonical, path, target, targetCommit.value, git);
      } else {
        return false;
      }
    }

    /** An existing worktree: it is on the branch, or brought there. */
    method GoOn(canonical: GitRepo, path: string, target: string, targetCommit: Option<Commit>, clean: bool,
                backups: (string, string), git: Git) returns (ok: bool)
      requires path in heads && CheckedOutOnce(heads)
      modifies `heads, `branches
      ensures TipsKept(old(branches), branches) <==> !Overwrites(old(branches), branches, target, targetCommit)
      ensures CommitsKept(old(branches), old(heads), branches, heads)
              <==> !(ok && Moves(old(branches), old(heads)[path], target, targetCommit, clean))
      ensures CheckedOutOnce(heads) <==> !(ok && UnbornElsewhere(old(branches), old(heads), path, target))
      ensures ok <==> GoesOn(git, old(branches), old(heads), path, target, targetCommit,
                             Free(old(canonical.heads), path, target), clean, backups)
      ensures heads == if ok then old(heads)[path := OnBranch(target)] else old(heads)
      ensures ok && target !in branches ==> old(heads)[path] == OnBranch(target)
      ensures OnlyAdds(old(branches), branches, target, backups)
      ensures ok ==> LeavesBackups(old(branches), old(heads)[path], branches, target, targetCommit, clean, backups)
      ensures old(heads)[path] == OnBranch(target) ==> branches == old(branches)
      ensures HeadCommit(old(branches), old(heads)[path]).None? ==> branches == old(branches) && heads == old(heads)
    {
      hide TipsKept, CheckedOutOnce, CommitsKept;
      AddingKeepsTips(branches, branches);
      AddingKeepsCommits(branches, branches, heads);
      if heads[path] == OnBranch(target) {
        OnceOrTwice(heads, path, target);
        assert heads[path := OnBranch(target)] == heads;
        return true;
      }
      if heads[path].OnBranch? {
        ok := MaybeRepairNamedBranch(canonical, path, heads[path].name, target, targetCommit, clean, backups, git);
      } else {
        ok := AttachDetached(canonical, path, target, targetCommit, git);
        TipsDiffer(old(branches), branches, target, targetCommit);
      }
    }

    method AddWorktree(path: string, target: string, targetCommit: Option<Commit>, canonicalHead: Commit, git: Git)
      returns (ok: bool)
      requires CheckedOutOnce(heads) && path !in present && path !in heads
      requires targetCommit == if target in branches then Some(branches[target]) else None
      modifies this
      ensures TipsKept(old(branches), branches)
      ensures CommitsKept(old(branches), old(heads), branches, heads)
      ensures CheckedOutOnce(heads) <==> !(ok && UnbornElsewhere(old(branches), old(heads), path, target))
      ensures ok <==> git.create && (target in old(branches) ==> Free(old(heads), path, target))
      ensures ok ==> target in branches
                     && branches[target] == if targetCommit.Some? then targetCommit.value else canonicalHead
      ensures branches == if target !in old(branches) && (git.create || git.halfway)
                          then old(branches)[target := canonicalHead] else old(branches)
      ensures heads == if ok then old(heads)[path := OnBranch(target)] else old(heads)
      ensures present == if ok then old(present) + {path} else old(present)
    {
      hide TipsKept, CheckedOutOnce, CommitsKept;
      AddingKeepsTips(branches, branches);
      AddingKeepsCommits(branches, branches, heads);
      OnceOrTwice(heads, path, target);
      if targetCommit.Some? {
        ok := EnsureBranchNotCheckedOutElsewhere(path, target);
        if !ok { return; }
        AttachingKeepsCommits(branches, heads, path, target);
        ok := WorktreeAdd(path, target, git.create);
      } else {
        ok := WorktreeAddNew(path, target, canonicalHead, git.create, git.halfway);
        AddingKeepsTips(old(branches), branches);
        AddingKeepsCommits(old(branches), branches, old(heads));
        if ok {
          AttachingKeepsCommits(branches, old(heads), path, target);
          CommitsKeptOn(old(branches), old(heads), branches, old(heads), branches, heads);
        }
      }
    }

    /** What is left to do once registrations are repaired. */
    method Continue(path: string, target: string, canonicalHead: Commit, clean: bool, backups: (string, string),
                    git: Git)
      returns (ok: bool)
      requires CheckedOutOnce(heads) && (path in present || path !in heads)
      modifies this
      ensures TipsKept(old(branches), branches)
      ensures CommitsKept(old(branches), old(heads), branches, heads)
      ensures CheckedOutOnce(heads) <==> !(ok && UnbornElsewhere(old(branches), old(heads), path, target))
      ensures ok <==> Provisions(git, old(branches), old(heads), old(present), path, target, clean, backups)
      ensures ok ==> Settled(heads, present, path, target)
      ensures heads == if ok then old(heads)[path := OnBranch(target)] else old(heads)
      ensures ok && target !in branches ==> old(Settled(heads, present, path, target))
      ensures old(Settled(heads, present, path, target)) ==> branches == old(branches) && present == old(present)
      ensures path in old(heads) ==> HeadCommit(branches, heads[path]) == HeadCommit(old(branches), old(heads)[path])
      ensures path !in old(present) ==>
                branches == if target !in old(branches) && (git.create || git.halfway)
                            then old(branches)[target := canonicalHead] else old(branches)
      ensures OnlyAdds(old(branches), branches, target, backups)
      ensures ok && path in old(heads) ==>
                LeavesBackups(old(branches), old(heads)[path], branches, target, Tip(old(branches), target), clean,
                              backups)
    {
      hide TipsKept, CheckedOutOnce, CommitsKept, GoesOn;
      AddingKeepsTips(branches, branches);
      AddingKeepsCommits(branches, branches, heads);
      var targetCommit := Tip(branches, target);
      if path !in present {
        ok := AddWorktree(path, target, targetCommit, canonicalHead, git);
        return;
      }
      if path !in heads { return false; }
      ok := GoOn(this, path, target, targetCommit, clean, backups, git);
      AgreedIsSafe(old(branches), branches, old(heads)[path], target, clean);
      CommitKept(old(branches), old(heads), branches, heads, path);
    }

    /** The directory is there, registered nowhere in this repository, and a worktree
        of another one. */
    predicate InClone(path: string, clone: GitRepo?)
      reads this
    {
      clone != null && path in present && path !in heads
    }

    /** `provisionOwnerWorkspaceForPairedTask`, up to the record of the workspace.
        Whatever fails or wherever it stops, here no tip is lost, every worktree
        keeps its commit, and no branch is checked out twice but in one case. `clone`
        is the repository the directory belongs to if it is not this one. */
    method Provision(path: string, target: string, canonicalHead: Option<Commit>, clean: bool,
                     backups: (string, string), git: Git, clone: GitRepo?) returns (ok: bool)
      requires CheckedOutOnce(heads)
      requires clone != null ==> clone != this && path in clone.heads && CheckedOutOnce(clone.heads)
      modifies this, clone
      ensures TipsKept(old(branches), branches)
      ensures CommitsKept(old(branches), Pruned(old(heads), old(present), {}), branches, heads)
      ensures path in old(heads) && path in old(present) ==>
                path in heads && HeadCommit(branches, heads[path]) == HeadCommit(old(branches), old(heads)[path])
      ensures CheckedOutOnce(heads) <==>
              !(ok && !old(InClone(path, clone))
                && UnbornElsewhere(old(branches), Pruned(old(heads), old(present), locked), path, target))
      ensures ok <==> canonicalHead.Some? && git.prune
                      && var repaired := Pruned(old(heads), old(present), locked);
                         if old(InClone(path, clone))
                         then GoesOn(git, old(clone.branches), old(clone.heads), path, target,
                                     Tip(old(branches), target), Free(repaired, path, target), clean, backups)
                         else Provisions(git, old(branches), repaired, old(present), path, target, clean, backups)
      ensures heads == var repaired := if canonicalHead.Some? && git.prune then Pruned(old(heads), old(present), locked)
                                       else old(heads);
                       if ok && !old(InClone(path, clone)) then repaired[path := OnBranch(target)] else repaired
      ensures ok && !old(InClone(path, clone)) ==> Settled(heads, present, path, target)
      ensures ok && !old(InClone(path, clone)) && target !in branches ==> old(Settled(heads, present, path, target))
      ensures old(Settled(heads, present, path, target)) ==>
                branches == old(branches) && present == old(present) &&
                (path in heads ==> heads[path] == old(heads)[path])
      ensures forall p :: p in old(heads) && p in old(present) && p != path ==> p in heads && heads[p] == old(heads)[p]
      // a missing owner branch is made at the canonical repository's HEAD for a missing worktree
      ensures path !in old(present) ==>
                branches == if canonicalHead.Some? && git.prune && !(path in old(heads) && path in locked)
                               && target !in old(branches) && (git.create || git.halfway)
                            then old(branches)[target := canonicalHead.value] else old(branches)
      ensures OnlyAdds(old(branches), branches, target, backups)
      ensures ok && path in old(heads) && path in old(present) ==>
                LeavesBackups(old(branches), old(heads)[path], branches, target, Tip(old(branches), target), clean,
                              backups)
      // in a clone
      ensures old(InClone(path, clone)) ==> branches == old(branches) && present == old(present)
      ensures clone != null && !old(InClone(path, clone)) ==>
                clone.branches == old(clone.branches) && clone.heads == old(clone.heads)
      ensures clone != null ==>
                && (TipsKept(old(clone.branches), clone.branches) <==>
                    !Overwrites(old(clone.branches), clone.branches, target, Tip(old(branches), target)))
                && (CommitsKept(old(clone.branches), old(clone.heads), clone.branches, clone.heads) <==>
                    !(ok && old(InClone(path, clone))
                      && Moves(old(clone.branches), old(clone.heads)[path], target, Tip(old(branches), target), clean)))
                && OnlyAdds(old(clone.branches), clone.branches, target, backups)
                && (ok && old(InClone(path, clone)) ==>
                      LeavesBackups(old(clone.branches), old(clone.heads)[path], clone.branches, target,
                                    Tip(old(branches), target), clean, backups))
                && clone.heads == (if ok && old(InClone(path, clone)) then old(clone.heads)[path := OnBranch(target)]
                                   else old(clone.heads))
    {
      hide TipsKept, CheckedOutOnce, CommitsKept, GoesOn;
      AddingKeepsTips(branches, branches);
      ghost var there := Pruned(heads, present, {});
      AddingKeepsCommits(branches, branches, heads);
      FewerCommitsKept(branches, there, heads, branches, heads);
      if clone != null {
        AddingKeepsTips(clone.branches, clone.branches);
        AddingKeepsCommits(clone.branches, clone.branches, clone.heads);
      }
      if canonicalHead.None? { return false; }
      ok := RepairRegistration(path, git);
      ghost var repaired := heads;
      FewerCheckedOutOnce(old(heads), repaired);
      AddingKeepsCommits(branches, branches, heads);
      FewerCommitsKept(branches, there, repaired, branches, heads);
      if !ok { return; }
      if clone != null && path in present && path !in heads {
        ok := clone.GoOn(this, path, target, Tip(branches, target), clean, backups, git);
      } else {
        ok := Continue(path, target, canonicalHead.value, clean, backups, git);
        FewerCommitsKept(old(branches), there, repaired, branches, heads);
      }
    }
  }

  /** Some other worktree sits on the owner branch before it has a commit. */
  ghost predicate UnbornElsewhere(branches: map<string, Commit>, heads: map<string, Checkout>,
                                 path: string, target: string) {
    target !in branches && !Free(heads, path, target)
  }

  /** What a successful provisioning leaves, and a second one finds. */
  predicate Settled(heads: map<string, Checkout>, present: set<string>, path: string, target: string) {
    path in heads && path in present && heads[path] == OnBranch(target)
  }

  lemma FewerCheckedOutOnce(before: map<string, Checkout>, after: map<string, Checkout>)
    requires CheckedOutOnce(before)
    requires forall p :: p in after ==> p in before && after[p] == before[p]
    ensures CheckedOutOnce(after)
  {
  }

  lemma FewerCommitsKept(before: map<string, Commit>, fewer: map<string, Checkout>, heads: map<string, Checkout>,
                         after: map<string, Commit>, heads': map<string, Checkout>)
    requires CommitsKept(before, heads, after, heads')
    requires forall p :: p in fewer ==> p in heads && fewer[p] == heads[p]
    ensures CommitsKept(before, fewer, after, heads')
  {
  }

  lemma CommitKept(before: map<string, Commit>, heads: map<string, Checkout>, after: map<string, Commit>,
                   heads': map<string, Checkout>, path: string)
    requires CommitsKept(before, heads, after, heads') && path in heads
    ensures path in heads' && SameCommit(before, heads[path], after, heads'[path])
  {
  }

  /** Nothing is overwritten where all tips are kept under their names. */
  lemma TipsDiffer(before: map<string, Commit>, after: map<string, Commit>, target: string,
                   targetCommit: Option<Commit>)
    requires forall b :: b in before ==> b in after && after[b] == before[b]
    ensures !Overwrites(before, after, target, targetCommit)
  {
  }

  /** Moving the owner branch loses its tip exactly when that was not backed up and
      no other branch is there. */
  lemma MovedTips(before: map<string, Commit>, backedUp: map<string, Commit>, after: map<string, Commit>,
                  current: string, target: string, targetCommit: Option<Commit>, backups: (string, string))
    requires forall b :: b in before ==> b in backedUp && backedUp[b] == before[b]
    requires current in before && after == backedUp[target := before[current]]
    requires targetCommit.None? ==> forall b :: b in backedUp && b !in before ==> backedUp[b] == before[current]
    requires targetCommit.Some? && target in before ==>
               backups.1 in backedUp && backups.1 != target && backedUp[backups.1] == before[target]
    ensures TipsKept(before, after) <==> !Overwrites(before, after, target, targetCommit)
  {
    if targetCommit.Some? || target !in before {
      BackedUp(before, backedUp, after, target, backups, true);
    } else if Overwrites(before, after, target, targetCommit) {
      assert before[target] in before.Values && before[target] !in after.Values;
    } else {
      forall c | c in before.Values
        ensures c in after.Values
      {
        var b :| b in before && before[b] == c;
        var other :| other in before && before[other] == c && (other != target || after[target] == c);
        assert after[other] == c;
      }
    }
  }

  /** Moving the owner branch after both backups loses no tip. */
  lemma BackedUp(before: map<string, Commit>, backedUp: map<string, Commit>, after: map<string, Commit>,
                 target: string, backups: (string, string), moved: bool)
    requires forall b :: b in before ==> b in backedUp && backedUp[b] == before[b]
    requires target in before ==> backups.1 in backedUp && backups.1 != target && backedUp[backups.1] == before[target]
    requires forall b :: b in backedUp && b != target ==> b in after && after[b] == backedUp[b]
    requires !moved ==> after == backedUp
    ensures TipsKept(before, after)
  {
    forall c | c in before.Values
      ensures c in after.Values
    {
      var b :| b in before && before[b] == c;
      if b == target && moved { assert after[backups.1] == c; } else { assert after[b] == c; }
    }
  }

  /** The one case does occur: another worktree waits on the owner branch for its
      first commit, as after `git worktree add --orphan`. */
  method CheckedOutTwice(commit: Commit, elsewhere: string, path: string, target: string)
    returns (repo: GitRepo, ok: bool)
    requires elsewhere != path
    ensures fresh(repo) && ok && repo.heads == map[elsewhere := OnBranch(target), path := OnBranch(target)]
    ensures !CheckedOutOnce(repo.heads)
  {
    assert Pruned(map[elsewhere := OnBranch(target)], {elsewhere}, {}) == map[elsewhere := OnBranch(target)];
    repo := new GitRepo(map[], map[elsewhere := OnBranch(target)], {elsewhere}, {});
    ok := repo.Provision(path, target, Some(commit), true, ("", ""),
                         Git(true, true, true, true, true, true, true, true), null);
  }

  /** A clone of its own with an owner branch the canonical repository does not
      know: its work in the tree takes the branch over, and the tip is lost. */
  method CloneOverwritten(path: string, current: string, target: string, backup: string, work: Commit, owned: Commit)
    returns (repo: GitRepo, clone: GitRepo, ok: bool)
    requires current != target && backup !in {current, target} && work != owned
    ensures fresh(repo) && fresh(clone) && ok && !TipsKept(map[current := work, target := owned], clone.branches)
  {
    repo := new GitRepo(map[], map[], {path}, {});
    clone := new GitRepo(map[current := work, target := owned], map[path := OnBranch(current)], {path}, {});
    ghost var branches, heads := clone.branches, clone.heads;
    assert Pruned(map[], {path}, {}) == map[];
    ok := repo.Provision(path, target, Some(work), true, (backup, ""),
                         Git(true, true, true, true, true, true, true, true), clone);
    CommitKept(branches, heads, clone.branches, clone.heads, path);
  }

  /** One whose owner branch is elsewhere: its worktree is switched away from its commit. */
  method CloneMoved(path: string, target: string, commit: Commit, elsewhere: Commit)
    returns (repo: GitRepo, clone: GitRepo, ok: bool)
    requires commit != elsewhere
    ensures fresh(repo) && fresh(clone) && ok
    ensures clone.heads == map[path := OnBranch(target)]
            && !CommitsKept(map[target := elsewhere], map[path := Detached(commit)], clone.branches, clone.heads)
  {
    repo := new GitRepo(map[target := commit], map[], {path}, {});
    clone := new GitRepo(map[target := elsewhere], map[path := Detached(commit)], {path}, {});
    assert Pruned(map[], {path}, {}) == map[];
    ok := repo.Provision(path, target, Some(commit), true, ("", ""),
                         Git(true, true, true, true, true, true, true, true), clone);
  }
}
