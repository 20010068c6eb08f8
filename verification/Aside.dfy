/** Setting a live directory aside and bringing it back, and what stays of it at each step. */
module Aside {
  import opened Prelude
  import opened Disk
  import opened Install
  import opened Upgrade

  // ----- live directories and where they are kept meanwhile -----------------------------------

  /** What `kept` holds once `live` was set aside, if it was a directory. */
  function StashLook(t0: Tree, live: Path, kept: Path, p: Path): Entry
    requires kept <= p
  {
    if IsDir(t0, live) then Look(t0, Rebase(p, kept, live)) else Look(t0, p)
  }

  ghost predicate Stash(t0: Tree, t: Tree, live: Path, kept: Path) {
    forall p :: kept <= p ==> Look(t, p) == StashLook(t0, live, kept, p)
  }

  /** The file an upgrade owes at `q`: the old one, or what a leftover backup held when
      there was no live directory. */
  function Owed(t0: Tree, live: Path, kept: Path, q: Path): Option<Bytes>
    requires live <= q
  {
    if IsDir(t0, live) then FileAt(t0, q) else FileAt(t0, Rebase(q, live, kept))
  }

  /** What is owed is the old live files exactly when `live` was a directory or no leftover
      backup held a file. */
  lemma OwedIsOld(t0: Tree, live: Path, kept: Path)
    requires Sound(t0, [])
    ensures (forall q :: live < q ==> Owed(t0, live, kept, q) == FileAt(t0, q))
       <==> IsDir(t0, live) || forall q :: live < q ==> FileAt(t0, Rebase(q, live, kept)) == None
  {
    if !IsDir(t0, live) {
      NotADirectory(t0, live);
      forall q | live < q ensures Owed(t0, live, kept, q) == FileAt(t0, Rebase(q, live, kept)) {}
    }
  }

  ghost predicate Restored(t0: Tree, t: Tree, live: Path, kept: Path) {
    forall q :: live < q ==> FileAt(t, q) == Owed(t0, live, kept, q)
  }

  /** Every owed file is below `live` with its bytes. */
  ghost predicate InLive(t0: Tree, t: Tree, live: Path, kept: Path) {
    forall q :: live < q && Owed(t0, live, kept, q).Some? ==> FileAt(t, q) == Owed(t0, live, kept, q)
  }

  /** Every owed file is below `kept` with its bytes. */
  ghost predicate InKept(t0: Tree, t: Tree, live: Path, kept: Path) {
    forall q :: live < q && Owed(t0, live, kept, q).Some? ==>
      FileAt(t, Rebase(q, live, kept)) == Owed(t0, live, kept, q)
  }

  /** All owed files are still there with their bytes, together in `live` or in `kept`: the
      old live ones if there was a live directory, else those of a leftover backup. */
  ghost predicate Survives(t0: Tree, t: Tree, live: Path, kept: Path) {
    InLive(t0, t, live, kept) || InKept(t0, t, live, kept)
  }

  /** The owed files are back in `live`, or all in the directory `kept`. */
  ghost predicate Held(t0: Tree, t: Tree, live: Path, kept: Path) {
    InLive(t0, t, live, kept) || (IsDir(t, kept) && InKept(t0, t, live, kept))
  }

  /** Nothing outside `a` and `b` changed. */
  ghost predicate OnlyIn(t: Tree, u: Tree, a: Path, b: Path) {
    forall p :: !(a <= p) && !(b <= p) ==> Look(u, p) == Look(t, p)
  }

  ghost predicate SameFilesBelow(t: Tree, u: Tree, d: Path) { forall p :: d <= p ==> FileAt(u, p) == FileAt(t, p) }

  lemma StashSurvives(t0: Tree, t: Tree, live: Path, kept: Path)
    requires Sound(t0, []) && Stash(t0, t, live, kept)
    ensures Survives(t0, t, live, kept) && InKept(t0, t, live, kept) && Held(t0, t, live, kept)
  {
    assert Look(t, kept) == StashLook(t0, live, kept, kept) && Rebase(kept, kept, live) == live;
    forall q | live < q && Owed(t0, live, kept, q).Some?
      ensures FileAt(t, Rebase(q, live, kept)) == Owed(t0, live, kept, q) && IsDir(t, kept)
    {
      RebaseBack(q, live, kept);
      if !IsDir(t0, live) { SoundChain(t0, [], kept, Rebase(q, live, kept)); }
    }
  }

  lemma RestoredSurvives(t0: Tree, t: Tree, live: Path, kept: Path)
    requires Restored(t0, t, live, kept)
    ensures Survives(t0, t, live, kept) && InLive(t0, t, live, kept) && Held(t0, t, live, kept)
  {
  }

  lemma SurvivesKept(t0: Tree, t: Tree, u: Tree, live: Path, kept: Path)
    requires Survives(t0, t, live, kept) && SameFilesBelow(t, u, live) && SameFilesBelow(t, u, kept)
    ensures Survives(t0, u, live, kept)
  {
    forall q | live < q
      ensures FileAt(u, q) == FileAt(t, q) && FileAt(u, Rebase(q, live, kept)) == FileAt(t, Rebase(q, live, kept))
    {
      RebaseBack(q, live, kept);
    }
  }

  /** Renaming the stash back loses nothing: it only happens onto an empty directory. */
  lemma RenameBackSurvives(t0: Tree, t: Tree, u: Tree, live: Path, kept: Path)
    requires Apart(live, kept) && Survives(t0, t, live, kept) && Empty(t, live)
    requires forall p :: Look(u, p) == MovedLook(t, kept, live, p)
    ensures InLive(t0, u, live, kept)
  {
    forall q | live < q && Owed(t0, live, kept, q).Some? ensures FileAt(u, q) == Owed(t0, live, kept, q) {
      assert Look(t, q) == Missing && Look(u, q) == MovedLook(t, kept, live, q);
      assert !InLive(t0, t, live, kept);
    }
  }

  lemma StashSound(t0: Tree, t: Tree, live: Path, kept: Path)
    requires Sound(t0, []) && Stash(t0, t, live, kept)
    ensures Sound(t, kept)
  {
    forall p | kept < p && Exists(t, p) ensures IsDir(t, p[..|p| - 1]) {
      var up := p[..|p| - 1];
      var q := Rebase(p, kept, live);
      assert if IsDir(t0, live) then Exists(t0, q) && [] < q else Exists(t0, p) && [] < p;
      assert kept <= up && q[..|q| - 1] == Rebase(up, kept, live);
      assert Look(t, up) == StashLook(t0, live, kept, up);
    }
  }

  ghost predicate NoFiles(t: Tree, d: Path) { forall q :: d < q ==> FileAt(t, q) == None }

  lemma NotADirectory(t: Tree, d: Path)
    requires Sound(t, []) && !IsDir(t, d)
    ensures NoFiles(t, d)
  {
    forall q | d < q ensures FileAt(t, q) == None {
      if Exists(t, q) { SoundChain(t, [], d, q); }
    }
  }

  /** Live state can be moved to `kept`: a leftover directory is in the way, or nothing. */
  ghost predicate CanTake(t: Tree, kept: Path)
    requires kept != []
  {
    IsDir(t, kept[..|kept| - 1]) && (IsDir(t, kept) || (!Exists(t, kept) && Empty(t, kept)))
  }

  /** Moves `live` to `kept` if it is a directory, replacing a leftover. */
  method SetAside(disk: Store, live: Path, kept: Path) returns (ok: bool)
    requires Apart(live, kept) && kept != [] && Sound(disk.fs, [])
    modifies disk
    ensures Sound(disk.fs, [])
    ensures OnlyIn(old(disk.fs), disk.fs, live, kept)
    ensures ok ==> Stash(old(disk.fs), disk.fs, live, kept) && NoFiles(disk.fs, live)
    ensures ok ==> forall p :: live <= p ==>
      Look(disk.fs, p) == if IsDir(old(disk.fs), live) then Missing else Look(old(disk.fs), p)
    ensures !ok ==> IsDir(old(disk.fs), live) && SameBelow(old(disk.fs), disk.fs, live)
    ensures Survives(old(disk.fs), disk.fs, live, kept)
    ensures disk.faults <= old(disk.faults) && (!ok && CanTake(old(disk.fs), kept) ==> disk.faults < old(disk.faults))
  {
    ghost var t0 := disk.fs;
    if IsDir(disk.fs, live) {
      if Exists(disk.fs, kept) {
        ok := disk.RemoveDirAll(kept);
        LeftoverGone(t0, disk.fs, live, kept);
        if !ok { return; }
      }
      ghost var t := disk.fs;
      assert CanTake(t0, kept) ==> Vacant(t, kept);
      ok := disk.Rename(live, kept);
      if ok { AsideStash(t0, t, disk.fs, live, kept); }
    } else {
      ok := true;
      StashSurvives(t0, disk.fs, live, kept);
      NotADirectory(t0, live);
    }
  }

  lemma LeftoverGone(t0: Tree, t: Tree, live: Path, kept: Path)
    requires Apart(live, kept) && IsDir(t0, live) && forall p :: !(kept <= p) ==> Look(t, p) == Look(t0, p)
    ensures SameBelow(t0, t, live) && Survives(t0, t, live, kept)
  {
    forall p | live <= p ensures Look(t, p) == Look(t0, p) { BelowOne(live, kept, p); }
  }

  lemma AsideStash(t0: Tree, t: Tree, u: Tree, live: Path, kept: Path)
    requires Apart(live, kept) && IsDir(t0, live) && Sound(t0, []) && SameBelow(t0, t, live)
    requires forall p :: Look(u, p) == MovedLook(t, live, kept, p)
    ensures Stash(t0, u, live, kept) && Survives(t0, u, live, kept)
    ensures forall p :: live <= p ==> Look(u, p) == Missing
  {
    forall p | live <= p ensures Look(u, p) == Missing { BelowOne(live, kept, p); }
    forall p | kept <= p ensures Look(u, p) == StashLook(t0, live, kept, p) {
      assert Look(u, p) == Look(t, Rebase(p, kept, live)) && live <= Rebase(p, kept, live);
    }
    StashSurvives(t0, u, live, kept);
  }

  /** Copies `kept` back over `live` and removes it, if it is a directory. */
  method CopyBack(disk: Store, live: Path, kept: Path, ghost t0: Tree) returns (ok: bool)
    requires Apart(live, kept) && Sound(t0, []) && Stash(t0, disk.fs, live, kept)
    requires forall q :: live <= q ==> FileAt(disk.fs, q) == None
    modifies disk
    ensures Sound(old(disk.fs), []) ==> Sound(disk.fs, [])
    ensures forall p :: !(live <= p) && !(kept <= p) ==>
      Look(disk.fs, p) == Look(old(disk.fs), p) ||
        (p <= live && Look(old(disk.fs), p) == Missing && Look(disk.fs, p) == Dir)
    ensures Survives(t0, disk.fs, live, kept)
    ensures ok ==> Restored(t0, disk.fs, live, kept) && !IsDir(disk.fs, kept)
    ensures Held(t0, disk.fs, live, kept) && (!Look(old(disk.fs), live).File? ==> !Look(disk.fs, live).File?)
    ensures disk.faults <= old(disk.faults) && (!ok && Free(old(disk.fs), live) ==> disk.faults < old(disk.faults))
  {
    ghost var t := disk.fs;
    StashSound(t0, t, live, kept);
    StashSurvives(t0, t, live, kept);
    if !IsDir(disk.fs, kept) {
      NothingKept(t0, t, live, kept);
      return true;
    }
    ok := CopyMerge(disk, kept, live);
    ghost var u := disk.fs;
    StashStays(t0, t, u, live, kept);
    if !ok { return; }
    CopiedIsRestored(t0, t, u, live, kept);
    ok := disk.RemoveDirAll(kept);
    KeptGone(t0, u, disk.fs, live, kept);
  }

  lemma NothingKept(t0: Tree, t: Tree, live: Path, kept: Path)
    requires Stash(t0, t, live, kept) && Sound(t, kept) && !IsDir(t, kept)
    requires forall q :: live <= q ==> FileAt(t, q) == None
    ensures Restored(t0, t, live, kept)
  {
    forall q | live < q ensures FileAt(t, q) == Owed(t0, live, kept, q) {
      var p := Rebase(q, live, kept);
      RebaseBack(q, live, kept);
      assert kept < p;
      if Exists(t, p) { SoundChain(t, kept, kept, p); }
      assert Look(t, p) == StashLook(t0, live, kept, p);
    }
  }

  lemma StashStays(t0: Tree, t: Tree, u: Tree, live: Path, kept: Path)
    requires Apart(live, kept) && OnlyBelow(t, u, live) && Stash(t0, t, live, kept) && Sound(t0, [])
    ensures SameBelow(t, u, kept) && Stash(t0, u, live, kept) && Survives(t0, u, live, kept) && Held(t0, u, live, kept)
  {
    SourceKept(t, u, kept, live);
    StashSurvives(t0, u, live, kept);
  }

  lemma CopiedIsRestored(t0: Tree, t: Tree, u: Tree, live: Path, kept: Path)
    requires Stash(t0, t, live, kept) && forall q :: live <= q ==> FileAt(t, q) == None
    requires forall q :: live <= q ==> FileAt(u, q) == MergedFile(t, kept, live, q)
    ensures Restored(t0, u, live, kept)
  {
    forall q | live < q ensures FileAt(u, q) == Owed(t0, live, kept, q) {
      RebaseBack(q, live, kept);
      assert Look(t, Rebase(q, live, kept)) == StashLook(t0, live, kept, Rebase(q, live, kept));
    }
  }

  lemma KeptGone(t0: Tree, t: Tree, u: Tree, live: Path, kept: Path)
    requires Apart(live, kept) && Restored(t0, t, live, kept)
    requires forall p :: !(kept <= p) ==> Look(u, p) == Look(t, p)
    ensures Restored(t0, u, live, kept) && Survives(t0, u, live, kept) && Held(t0, u, live, kept) &&
      Look(u, live) == Look(t, live)
  {
    BelowOne(live, kept, live);
    forall q | live < q ensures FileAt(u, q) == FileAt(t, q) { BelowOne(live, kept, q); }
    RestoredSurvives(t0, u, live, kept);
  }
}
