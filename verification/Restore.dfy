/** Snapshots of an app's data, and restoring one in place of the live data. */
module Restore {
  import opened Prelude
  import opened Disk
  import opened Install
  import opened Upgrade
  import opened Aside
  import opened Place

  datatype Saved = Saved(rel: Path, bytes: Bytes)

  /** What a list of files says about `rel`; a later entry replaces an earlier one. */
  function LastOf(files: seq<Saved>, n: nat, rel: Path): Option<Bytes>
    requires n <= |files|
  {
    if n == 0 then None else if files[n - 1].rel == rel then Some(files[n - 1].bytes) else LastOf(files, n - 1, rel)
  }

  /** Exactly the files below `live`, with their bytes. */
  ghost predicate Lists(files: seq<Saved>, t: Tree, live: Path) {
    forall q :: live < q ==> LastOf(files, |files|, q[|live|..]) == FileAt(t, q)
  }

  // ----- snapshots --------------------------------------------------------------------------

  ghost predicate Collected(t: Tree, root: Path, dir: Path, out: seq<Path>) {
    forall rel :: rel in out <==> dir <= root + rel && FileAt(t, root + rel).Some?
  }

  ghost predicate CollectedFrom(t: Tree, root: Path, dir: Path, done: set<string>, out: seq<Path>)
    requires root <= dir
  {
    forall rel :: rel in out <==> dir < root + rel && (root + rel)[|dir|] in done && FileAt(t, root + rel).Some?
  }

  /** The source's `collect_files`: the paths below `dir`, relative to `root`. */
  method CollectFiles(disk: Store, root: Path, dir: Path) returns (r: Option<seq<Path>>)
    requires root <= dir && Sound(disk.fs, dir)
    modifies disk`faults
    ensures r.Some? ==> IsDir(disk.fs, dir) && Collected(disk.fs, root, dir, r.value)
    ensures disk.faults <= old(disk.faults) && (r.None? && IsDir(disk.fs, dir) ==> disk.faults < old(disk.faults))
    decreases |Existing(disk.fs, dir)|
  {
    var names := disk.ReadDir(dir);
    if names.None? { return None; }
    var out: seq<Path> := [];
    var todo := names.value;
    ghost var done: set<string> := {};
    while todo != {}
      invariant todo !! done && todo + done == names.value
      invariant CollectedFrom(disk.fs, root, dir, done, out) && disk.faults <= old(disk.faults)
      decreases todo
    {
      var n :| n in todo;
      var p := dir + [n];
      if IsDir(disk.fs, p) {
        FewerBelow(disk.fs, disk.fs, dir, n);
        ChildSound(disk.fs, dir, n);
        var below := CollectFiles(disk, root, p);
        if below.None? { return None; }
        DirCollected(disk.fs, root, dir, done, out, n, below.value);
        out := out + below.value;
      } else {
        OneCollected(disk.fs, root, dir, done, out, n);
        out := out + [p[|root|..]];
      }
      todo, done := todo - {n}, done + {n};
    }
    AllCollected(disk.fs, root, dir, done, out);
    r := Some(out);
  }

  lemma ChildSound(t: Tree, dir: Path, n: string)
    requires Sound(t, dir)
    ensures Sound(t, dir + [n])
  {
    forall p | dir + [n] < p && Exists(t, p) ensures IsDir(t, p[..|p| - 1]) { assert dir < p; }
  }

  lemma Through(dir: Path, n: string, q: Path)
    ensures dir < q && q[|dir|] == n <==> dir + [n] <= q
  {
    if dir < q && q[|dir|] == n { assert q[..|dir| + 1] == dir + [n]; }
    if dir + [n] <= q { assert q[|dir|] == (dir + [n])[|dir|]; }
  }

  lemma DirCollected(t: Tree, root: Path, dir: Path, done: set<string>, out: seq<Path>, n: string, below: seq<Path>)
    requires root <= dir && CollectedFrom(t, root, dir, done, out) && Collected(t, root, dir + [n], below)
    ensures CollectedFrom(t, root, dir, done + {n}, out + below)
  {
    forall rel
      ensures rel in out + below <==>
        dir < root + rel && (root + rel)[|dir|] in done + {n} && FileAt(t, root + rel).Some?
    {
      Through(dir, n, root + rel);
    }
  }

  lemma OneCollected(t: Tree, root: Path, dir: Path, done: set<string>, out: seq<Path>, n: string)
    requires root <= dir && CollectedFrom(t, root, dir, done, out)
    requires Sound(t, dir) && Exists(t, dir + [n]) && !IsDir(t, dir + [n])
    ensures CollectedFrom(t, root, dir, done + {n}, out + [(dir + [n])[|root|..]])
  {
    var p := dir + [n];
    var one := p[|root|..];
    assert root + one == p;
    forall rel
      ensures rel in out + [one] <==>
        dir < root + rel && (root + rel)[|dir|] in done + {n} && FileAt(t, root + rel).Some?
    {
      var q := root + rel;
      Through(dir, n, q);
      if p < q && Exists(t, q) { SoundChain(t, dir, p, q); }
      assert q == p <==> rel == one;
    }
  }

  lemma AllCollected(t: Tree, root: Path, dir: Path, names: set<string>, out: seq<Path>)
    requires root <= dir && IsDir(t, dir) && Sound(t, dir) && CollectedFrom(t, root, dir, names, out)
    requires forall n :: n in names <==> Exists(t, dir + [n])
    ensures Collected(t, root, dir, out)
  {
    forall rel ensures rel in out <==> dir <= root + rel && FileAt(t, root + rel).Some? {
      var q := root + rel;
      if dir < q && FileAt(t, q).Some? {
        var n := q[|dir|];
        Through(dir, n, q);
        if dir + [n] < q { SoundChain(t, dir, dir + [n], q); } else { assert q == dir + [n]; }
        assert Exists(t, dir + [n]);
      } else if dir <= q {
        assert dir < q || dir == q;
      }
    }
  }

  /** The source's `snapshot_data`, apart from the order of its list. */
  method SnapshotData(disk: Store, id: string) returns (r: Option<seq<Saved>>)
    requires Sound(disk.fs, [])
    modifies disk`faults
    ensures r.Some? ==> Lists(r.value, disk.fs, [id, "data"]) && NonClashing(Rels(r.value))
    ensures r.Some? && Named(disk.fs) ==> AllSafe(r.value) && Targets(r.value) == r.value
    ensures disk.faults <= old(disk.faults) && (r.None? ==> disk.faults < old(disk.faults))
  {
    var live := [id, "data"];
    if !IsDir(disk.fs, live) {
      NoData(disk.fs, live);
      assert Targets([]) == [];
      return Some([]);
    }
    var rels := CollectFiles(disk, live, live);
    if rels.None? { return None; }
    var files: seq<Saved> := [];
    for i := 0 to |rels.value|
      invariant Holds(files, rels.value[..i], disk.fs, live) && Rels(files) == rels.value[..i]
      invariant disk.faults <= old(disk.faults)
    {
      var bytes := disk.Read(live + rels.value[i]);
      if bytes.None? { return None; }
      ReadNext(files, rels.value, i, bytes.value, disk.fs, live);
      RelsNext(files, rels.value, i, bytes.value);
      files := files + [Saved(rels.value[i], bytes.value)];
    }
    assert rels.value[..|rels.value|] == rels.value;
    ReadAll(files, rels.value, disk.fs, live);
    CollectedApart(disk.fs, live, rels.value);
    if Named(disk.fs) { CollectedSafe(disk.fs, live, rels.value, files); }
    r := Some(files);
  }

  predicate AllSafe(files: seq<Saved>) { forall k :: 0 <= k < |files| ==> SafePath(files[k].rel) }

  /** The path without its "." components. */
  function Undotted(p: Path): (r: Path)
    ensures "." !in r && ("." !in p ==> r == p)
  {
    if p == [] then [] else (if p[0] == "." then [] else [p[0]]) + Undotted(p[1..])
  }

  /** Where a listed path leads below `data/`. One that ends in "." can only be a directory:
      no more than `data/` itself can it be written as a file. */
  function Target(p: Path): Path { if p == [] || p[|p| - 1] == "." then [] else Undotted(p) }

  /** The path of a file: not the directory itself, and not one that ends in ".". */
  predicate NamesFile(p: Path) { p != [] && p[|p| - 1] != "." }

  /** A safe path that names a file leads to its target, which lies below `data/`. */
  lemma TargetIsThere(live: Path, p: Path)
    requires SafePath(p) && NamesFile(p)
    ensures Resolve(live, p) == live + Target(p) && live < Resolve(live, p)
  {
    UndottedIsThere(live, p);
    UndottedEnd(p);
  }

  lemma {:induction false} UndottedEnd(p: Path)
    requires p != []
    ensures Undotted(p) == Undotted(p[..|p| - 1]) + if p[|p| - 1] == "." then [] else [p[|p| - 1]]
    decreases |p|
  {
    if |p| > 1 {
      UndottedEnd(p[1..]);
      assert p[1..][..|p| - 2] == p[..|p| - 1][1..];
    }
  }

  lemma {:induction false} UndottedIsThere(live: Path, p: Path)
    requires SafePath(p)
    ensures Resolve(live, p) == live + Undotted(p)
    decreases |p|
  {
    if p == [] {
      assert live + [] == live;
    } else {
      UndottedIsThere(live, p[..|p| - 1]);
      UndottedEnd(p);
    }
  }

  predicate AllNamed(files: seq<Saved>) { forall k :: 0 <= k < |files| ==> NamesFile(files[k].rel) }

  function Targets(files: seq<Saved>): (r: seq<Saved>)
    ensures |r| == |files| && forall k :: 0 <= k < |r| ==> r[k] == Saved(Target(files[k].rel), files[k].bytes)
  {
    seq(|files|, i requires 0 <= i < |files| => Saved(Target(files[i].rel), files[i].bytes))
  }

  /** No entry of the tree is called "..", "/" or ".": a directory never holds such names. */
  ghost predicate Named(t: Tree) { forall p :: Exists(t, p) ==> SafePath(p) && "." !in p }

  /** What was collected passes the path check of a restore and leads where it says. */
  lemma CollectedSafe(t: Tree, live: Path, rels: seq<Path>, files: seq<Saved>)
    requires Named(t) && Collected(t, live, live, rels) && Rels(files) == rels
    ensures AllSafe(files) && Targets(files) == files
  {
    forall k | 0 <= k < |files| ensures SafePath(files[k].rel) && Target(files[k].rel) == files[k].rel {
      var rel := rels[k];
      assert files[k].rel == Rels(files)[k] == rel && rel in rels;
      assert Exists(t, live + rel);
      forall i | 0 <= i < |rel| ensures rel[i] != ".." && rel[i] != "/" && rel[i] != "." {
        assert (live + rel)[|live| + i] == rel[i];
      }
    }
  }

  function Rels(files: seq<Saved>): seq<Path>
    ensures |Rels(files)| == |files|
  {
    seq(|files|, i requires 0 <= i < |files| => files[i].rel)
  }

  lemma RelsNext(files: seq<Saved>, rels: seq<Path>, i: nat, bytes: Bytes)
    requires i < |rels| && Rels(files) == rels[..i]
    ensures Rels(files + [Saved(rels[i], bytes)]) == rels[..i + 1]
  {
    assert rels[..i + 1] == rels[..i] + [rels[i]];
    var more := files + [Saved(rels[i], bytes)];
    forall k | 0 <= k < |more| ensures Rels(more)[k] == rels[..i + 1][k] {
      if k < |files| { assert more[k] == files[k] && Rels(files)[k] == rels[..i][k]; }
    }
  }

  /** No collected file runs through another: what a directory tree holds never does. */
  lemma CollectedApart(t: Tree, live: Path, rels: seq<Path>)
    requires Sound(t, []) && IsDir(t, live) && Collected(t, live, live, rels)
    ensures NonClashing(rels)
  {
    assert live + [] == live;
    forall i, j | 0 <= i < |rels| && 0 <= j < |rels| ensures rels[i] != [] && !(rels[i] < rels[j]) {
      assert rels[i] in rels && rels[j] in rels;
      if rels[i] < rels[j] {
        assert live + rels[i] < live + rels[j];
        SoundChain(t, [], live + rels[i], live + rels[j]);
      }
    }
  }

  lemma NoData(t: Tree, live: Path)
    requires Sound(t, []) && !IsDir(t, live)
    ensures Lists([], t, live)
  {
    forall q | live < q ensures FileAt(t, q) == None {
      if Exists(t, q) { SoundChain(t, [], live, q); }
    }
  }

  lemma {:induction false} LastOfPrefix(files: seq<Saved>, more: seq<Saved>, n: nat, rel: Path)
    requires n <= |files|
    ensures LastOf(files + more, n, rel) == LastOf(files, n, rel)
  {
    if n > 0 { LastOfPrefix(files, more, n - 1, rel); }
  }

  lemma LastOfNext(files: seq<Saved>, x: Saved, rel: Path)
    ensures LastOf(files + [x], |files| + 1, rel) == if x.rel == rel then Some(x.bytes) else LastOf(files, |files|, rel)
  {
    LastOfPrefix(files, [x], |files|, rel);
  }

  /** `files` holds the bytes at each of `rels`, and nothing else. */
  ghost predicate Holds(files: seq<Saved>, rels: seq<Path>, t: Tree, live: Path) {
    forall rel :: LastOf(files, |files|, rel) == if rel in rels then FileAt(t, live + rel) else None
  }

  lemma ReadNext(files: seq<Saved>, rels: seq<Path>, i: nat, bytes: Bytes, t: Tree, live: Path)
    requires i < |rels| && Look(t, live + rels[i]) == File(bytes) && Holds(files, rels[..i], t, live)
    ensures Holds(files + [Saved(rels[i], bytes)], rels[..i + 1], t, live)
  {
    var x := Saved(rels[i], bytes);
    var next := files + [x];
    assert rels[..i + 1] == rels[..i] + [rels[i]];
    forall rel ensures LastOf(next, |next|, rel) == if rel in rels[..i + 1] then FileAt(t, live + rel) else None {
      LastOfNext(files, x, rel);
    }
  }

  lemma ReadAll(files: seq<Saved>, rels: seq<Path>, t: Tree, live: Path)
    requires Collected(t, live, live, rels) && Holds(files, rels, t, live)
    ensures Lists(files, t, live)
  {
    forall q | live < q ensures LastOf(files, |files|, q[|live|..]) == FileAt(t, q) {
      ReadOne(files, rels, t, live, q, q[|live|..]);
    }
  }

  lemma ReadOne(files: seq<Saved>, rels: seq<Path>, t: Tree, live: Path, q: Path, rel: Path)
    requires Collected(t, live, live, rels) && Holds(files, rels, t, live) && q == live + rel
    ensures LastOf(files, |files|, rel) == FileAt(t, q)
  {
  }

  // ----- restoring ------------------------------------------------------------------------------

  /** Where `restore_data` stopped. A failed write also says whether every step of the
      rollback went through. */
  datatype Outcome = Done | BadPath | NotInstalled | AsideFailed | WriteFailed(undone: bool) | CleanupFailed

  predicate NewDataInPlace(o: Outcome) { o.Done? || o.CleanupFailed? }

  /** What a rollback leaves below `live`. */
  function Back(t0: Tree, live: Path, rescue: Path, q: Path): Entry
    requires live <= q
  {
    if IsDir(t0, live) || !IsDir(t0, rescue) then Look(t0, q) else Look(t0, Rebase(q, live, rescue))
  }

  ghost predicate RolledBack(t0: Tree, t: Tree, live: Path, rescue: Path) {
    forall q :: live <= q ==> Look(t, q) == Back(t0, live, rescue, q)
  }

  /** A rollback leaves everything as it was exactly when there was live data or no stale
      rescue directory. */
  lemma RollbackIsExact(t0: Tree, live: Path, rescue: Path)
    ensures (forall q :: live <= q ==> Back(t0, live, rescue, q) == Look(t0, q)) <==>
      IsDir(t0, live) || !IsDir(t0, rescue)
  {
    assert Rebase(live, live, rescue) == rescue;
    if !IsDir(t0, live) && IsDir(t0, rescue) { assert Back(t0, live, rescue, live) != Look(t0, live); }
  }

  ghost predicate Written(t: Tree, u: Tree, live: Path, files: seq<Saved>, n: nat)
    requires n <= |files|
  {
    forall q :: live < q ==>
      FileAt(u, q) == var f := LastOf(files, n, q[|live|..]); if f.Some? then f else FileAt(t, q)
  }

  /** The closure in `restore_data` that writes the files. */
  method WriteAll(disk: Store, live: Path, files: seq<Saved>) returns (ok: bool)
    modifies disk
    ensures Sound(old(disk.fs), []) ==> Sound(disk.fs, [])
    ensures OnlyBelow(old(disk.fs), disk.fs, live)
    ensures ok ==> IsDir(disk.fs, live) && Written(old(disk.fs), disk.fs, live, files, |files|)
    ensures ok ==> forall k :: 0 <= k < |files| ==> files[k].rel != []
    ensures !IsDir(disk.fs, live) ==> SameBelow(old(disk.fs), disk.fs, live)
    ensures Look(old(disk.fs), live).File? ==> !IsDir(disk.fs, live)
    ensures disk.faults <= old(disk.faults)
    ensures !ok && NonClashing(Rels(files)) && Free(old(disk.fs), live) ==> disk.faults < old(disk.faults)
  {
    ghost var t := disk.fs;
    ok := disk.CreateDirAll(live);
    NotCreated(t, disk.fs, live);
    if !ok { return; }
    for i := 0 to |files|
      invariant OnlyBelow(t, disk.fs, live) && IsDir(disk.fs, live) && Written(t, disk.fs, live, files, i)
      invariant disk.faults <= old(disk.faults) && (Free(t, live) ==> Spread(disk.fs, live, Rels(files), i))
      invariant Sound(t, []) ==> Sound(disk.fs, [])
      invariant forall k :: 0 <= k < i ==> files[k].rel != []
    {
      ok := WriteOne(disk, live, files, i, t);
      if !ok { return; }
    }
    ok := true;
  }

  /** One turn of its loop. */
  method WriteOne(disk: Store, live: Path, files: seq<Saved>, i: nat, ghost t: Tree) returns (ok: bool)
    requires i < |files| && OnlyBelow(t, disk.fs, live) && IsDir(disk.fs, live) && Written(t, disk.fs, live, files, i)
    requires Free(t, live) ==> Spread(disk.fs, live, Rels(files), i)
    modifies disk
    ensures Sound(old(disk.fs), []) ==> Sound(disk.fs, [])
    ensures OnlyBelow(t, disk.fs, live) && IsDir(disk.fs, live)
    ensures ok ==> Written(t, disk.fs, live, files, i + 1) && files[i].rel != []
    ensures ok && Free(t, live) ==> Spread(disk.fs, live, Rels(files), i + 1)
    ensures disk.faults <= old(disk.faults)
    ensures !ok && NonClashing(Rels(files)) && Free(t, live) ==> disk.faults < old(disk.faults)
  {
    ghost var u := disk.fs;
    assert files[i].rel == [] ==> live + files[i].rel == live;
    if Free(t, live) && NonClashing(Rels(files)) {
      AboveKept(t, u, live);
      PutFits(u, live, Rels(files), i);
    }
    ok := PutFile(disk, live + files[i].rel, files[i].bytes);
    StillThere(t, u, disk.fs, live, files[i].rel);
    if !ok { return; }
    WrittenNext(t, u, disk.fs, live, files, i);
    if Free(t, live) { PutSpreads(u, disk.fs, live, Rels(files), i); }
  }

  lemma NotCreated(t: Tree, u: Tree, live: Path)
    requires forall p :: Look(u, p) == Look(t, p) || (p <= live && Look(t, p) == Missing && Look(u, p) == Dir)
    ensures !IsDir(u, live) ==> SameBelow(t, u, live)
  {
    forall p | live <= p && Look(u, p) != Look(t, p) ensures p == live {}
  }

  lemma StillThere(t: Tree, u: Tree, v: Tree, live: Path, rel: Path)
    requires OnlyBelow(t, u, live) && IsDir(u, live) && OnlyAt(u, v, live + rel)
    requires IsDir(u, live + rel) ==> IsDir(v, live + rel)
    ensures OnlyBelow(t, v, live) && IsDir(v, live)
  {
    assert rel == [] ==> live + rel == live;
    assert rel != [] ==> live + rel != live;
  }

  lemma WrittenNext(t: Tree, u: Tree, v: Tree, live: Path, files: seq<Saved>, i: nat)
    requires i < |files| && Written(t, u, live, files, i) && FileAt(v, live + files[i].rel) == Some(files[i].bytes)
    requires forall q :: q != live + files[i].rel ==> FileAt(v, q) == FileAt(u, q)
    ensures Written(t, v, live, files, i + 1)
  {
    forall q | live < q ensures q == live + files[i].rel <==> q[|live|..] == files[i].rel {
      assert q == live + q[|live|..];
    }
  }

  method CheckPaths(files: seq<Saved>) returns (safe: bool)
    ensures safe == AllSafe(files)
  {
    for i := 0 to |files|
      invariant forall k :: 0 <= k < i ==> SafePath(files[k].rel)
    {
      if !SafePath(files[i].rel) { return false; }
    }
    safe := true;
  }

  /** Nothing outside `live` and `rescue` changed, apart from directories made above `live`. */
  ghost predicate OnlyData(t: Tree, u: Tree, live: Path, rescue: Path) {
    forall p :: !(live <= p) && !(rescue <= p) ==>
      Look(u, p) == Look(t, p) || (p <= live && Look(t, p) == Missing && Look(u, p) == Dir)
  }

  /** Only faults can keep the files from being restored. */
  ghost predicate CanRestore(t: Tree, live: Path, rescue: Path, files: seq<Saved>)
    requires live != [] && rescue != []
  {
    && AllSafe(files) && NonClashing(Rels(Targets(files)))
    && IsDir(t, live[..|live| - 1]) && !Look(t, live).File? && CanTake(t, rescue)
  }

  /** What each outcome says about the tree `t` left from `t0`. */
  ghost predicate Restoration(t0: Tree, t: Tree, live: Path, rescue: Path, files: seq<Saved>, o: Outcome) {
    && (o.BadPath? || o.NotInstalled? ==> t == t0)
    && (o.AsideFailed? ==> IsDir(t0, live) && SameBelow(t0, t, live))
    && (!NewDataInPlace(o) ==> Survives(t0, t, live, rescue))
    && (o == WriteFailed(true) ==> RolledBack(t0, t, live, rescue))
    && (NewDataInPlace(o) ==> AllNamed(files) && IsDir(t, live) && Lists(Targets(files), t, live))
    && (o.Done? ==> !IsDir(t, rescue))
    && OnlyData(t0, t, live, rescue)
  }

  /** The source's `restore_data`. */
  method RestoreData(disk: Store, id: string, files: seq<Saved>) returns (o: Outcome)
    requires Sound(disk.fs, [])
    modifies disk
    ensures Sound(disk.fs, [])
    ensures o.BadPath? <==> !AllSafe(files)
    ensures o.NotInstalled? <==> AllSafe(files) && !IsDir(old(disk.fs), [id])
    ensures Restoration(old(disk.fs), disk.fs, [id, "data"], ["." + id + ".data.rescue"], files, o)
    ensures old(disk.faults) == 0 && CanRestore(old(disk.fs), [id, "data"], ["." + id + ".data.rescue"], files) ==>
      o.Done?
    ensures old(disk.faults) <= 1 && CanRestore(old(disk.fs), [id, "data"], ["." + id + ".data.rescue"], files) &&
      o.WriteFailed?
      ==> o.undone
  {
    var live, rescue := [id, "data"], ["." + id + ".data.rescue"];
    RescueApart(id);
    assert live[..|live| - 1] == [id] && rescue[..|rescue| - 1] == [];
    NothingLost(disk.fs, disk.fs, live, rescue);
    var safe := CheckPaths(files);
    if !safe { return BadPath; }
    if !IsDir(disk.fs, [id]) { return NotInstalled; }
    o := ReplaceData(disk, [id], live, rescue, files);
  }

  /** The part of it that changes something. */
  method ReplaceData(disk: Store, dest: Path, live: Path, rescue: Path, files: seq<Saved>) returns (o: Outcome)
    requires |live| == 2 && |rescue| == 1 && dest == live[..1] && Apart(dest, rescue) && Apart(live, rescue)
    requires Sound(disk.fs, []) && IsDir(disk.fs, dest)
    modifies disk
    ensures Sound(disk.fs, [])
    ensures !o.BadPath? && !o.NotInstalled? && Restoration(old(disk.fs), disk.fs, live, rescue, files, o)
    ensures old(disk.faults) == 0 && CanRestore(old(disk.fs), live, rescue, files) ==> o.Done?
    ensures old(disk.faults) <= 1 && CanRestore(old(disk.fs), live, rescue, files) && o.WriteFailed? ==> o.undone
  {
    ghost var t0 := disk.fs;
    assert rescue[..|rescue| - 1] == [] && live[..|live| - 1] == dest;
    var ok := SetAside(disk, live, rescue);
    if !ok { return AsideFailed; }
    ghost var t := disk.fs;
    if CanRestore(t0, live, rescue, files) { LiveFree(t0, t, dest, live, rescue); }
    var targets := Targets(files);
    ok := WriteAll(disk, live, targets);
    ghost var u := disk.fs;
    StashStays(t0, t, u, live, rescue);
    DestStands(t0, t, u, dest, live, rescue);
    if !ok {
      var undone := Undo(disk, live, rescue, t0, t);
      return WriteFailed(undone);
    }
    NewData(t0, t, u, live, rescue, targets);
    FilesNamed(files);
    if IsDir(disk.fs, rescue) {
      ok := disk.RemoveDirAll(rescue);
      NewDataKept(u, disk.fs, live, rescue, targets);
      if !ok { return CleanupFailed; }
    }
    o := Done;
  }

  lemma FilesNamed(files: seq<Saved>)
    requires forall k :: 0 <= k < |files| ==> Targets(files)[k].rel != []
    ensures AllNamed(files)
  {
    forall k | 0 <= k < |files| ensures NamesFile(files[k].rel) { assert Targets(files)[k].rel != []; }
  }

  lemma LiveFree(t0: Tree, t: Tree, dest: Path, live: Path, rescue: Path)
    requires |live| == 2 && |rescue| == 1 && dest == live[..1] && Apart(dest, rescue)
    requires Sound(t0, []) && IsDir(t0, dest) && IsDir(t0, []) && !Look(t0, live).File? && OnlyIn(t0, t, live, rescue)
    requires forall p :: live <= p ==> Look(t, p) == if IsDir(t0, live) then Missing else Look(t0, p)
    ensures Free(t, live) && Look(t, live) == Missing
  {
    forall p | live <= p ensures Look(t, p) == Missing {
      if !IsDir(t0, live) { NothingBelow(t0, live, p); }
    }
    assert live[..0] == [] && live[..2] == live;
  }

  /** The app's directory is still there after the files were written, or some of them. */
  lemma DestStands(t0: Tree, t: Tree, u: Tree, dest: Path, live: Path, rescue: Path)
    requires dest < live && Apart(dest, rescue) && IsDir(t0, dest) && OnlyIn(t0, t, live, rescue) &&
      OnlyBelow(t, u, live)
    ensures IsDir(u, dest)
  {
  }

  lemma RescueApart(id: string)
    ensures Apart([id, "data"], ["." + id + ".data.rescue"]) && Apart([id], ["." + id + ".data.rescue"])
  {
    var live, rescue := [id, "data"], ["." + id + ".data.rescue"];
    assert |rescue[0]| != |live[0]|;
  }

  lemma NewData(t0: Tree, t: Tree, u: Tree, live: Path, rescue: Path, files: seq<Saved>)
    requires Sound(t0, []) && forall p :: live <= p ==> Look(t, p) == if IsDir(t0, live) then Missing else Look(t0, p)
    requires Written(t, u, live, files, |files|)
    ensures Lists(files, u, live)
  {
    forall q | live < q ensures FileAt(t, q) == None {
      if !IsDir(t0, live) && Exists(t0, q) { SoundChain(t0, [], live, q); }
    }
    assert forall q :: live < q ==> FileAt(u, q) == LastOf(files, |files|, q[|live|..]);
  }

  lemma NewDataKept(u: Tree, v: Tree, live: Path, rescue: Path, files: seq<Saved>)
    requires Apart(live, rescue) && IsDir(u, live) && Lists(files, u, live)
    requires forall p :: !(rescue <= p) ==> Look(v, p) == Look(u, p)
    ensures IsDir(v, live) && Lists(files, v, live)
  {
    forall q | live <= q ensures Look(v, q) == Look(u, q) { BelowOne(live, rescue, q); }
  }

  /** The rollback after a failed write; `undone` says whether its steps went through. */
  method Undo(disk: Store, live: Path, rescue: Path, ghost t0: Tree, ghost t: Tree) returns (undone: bool)
    requires Apart(live, rescue) && live != [] && Sound(t0, []) && Stash(t0, disk.fs, live, rescue)
    requires forall p :: live <= p ==> Look(t, p) == if IsDir(t0, live) then Missing else Look(t0, p)
    requires !IsDir(disk.fs, live) ==> SameBelow(t, disk.fs, live)
    requires Look(t, live).File? ==> !IsDir(disk.fs, live)
    modifies disk
    ensures Sound(old(disk.fs), []) ==> Sound(disk.fs, [])
    ensures Survives(t0, disk.fs, live, rescue) && OnlyIn(old(disk.fs), disk.fs, live, rescue)
    ensures undone ==> RolledBack(t0, disk.fs, live, rescue)
    ensures old(disk.faults) == 0 && IsDir(old(disk.fs), live[..|live| - 1]) && !Look(t, live).File? ==> undone
  {
    ghost var u := disk.fs;
    var wasDir := IsDir(disk.fs, live);
    undone := disk.RemoveDirAll(live);
    undone := undone || !wasDir;
    ghost var v := disk.fs;
    Cleared(t0, u, v, live, rescue);
    if undone && !Look(t, live).File? { LiveVacant(t0, t, u, v, live, wasDir); }
    if IsDir(disk.fs, rescue) {
      var renamed := disk.Rename(rescue, live);
      if renamed {
        RenameBackSurvives(t0, v, disk.fs, live, rescue);
        RenamedBack(t0, v, disk.fs, live, rescue);
      }
      undone := undone && renamed;
    } else if undone {
      NothingToRename(t0, t, u, v, live, rescue, wasDir);
    }
  }

  lemma LiveVacant(t0: Tree, t: Tree, u: Tree, v: Tree, live: Path, wasDir: bool)
    requires live != [] && Sound(t0, []) && !Look(t, live).File?
    requires forall p :: live <= p ==> Look(t, p) == if IsDir(t0, live) then Missing else Look(t0, p)
    requires if wasDir then forall p :: Look(v, p) == if live <= p then Missing else Look(u, p)
             else v == u && SameBelow(t, u, live)
    ensures IsDir(u, live[..|live| - 1]) ==> Vacant(v, live)
  {
    forall p | live <= p ensures Look(v, p) == Missing {
      if !wasDir && !IsDir(t0, live) { NothingBelow(t0, live, p); }
    }
    assert !(live <= live[..|live| - 1]);
  }

  lemma Cleared(t0: Tree, u: Tree, v: Tree, live: Path, rescue: Path)
    requires Apart(live, rescue) && Sound(t0, []) && Stash(t0, u, live, rescue)
    requires forall p :: !(live <= p) ==> Look(v, p) == Look(u, p)
    ensures Stash(t0, v, live, rescue) && Survives(t0, v, live, rescue)
  {
    forall p | rescue <= p ensures Look(v, p) == Look(u, p) { BelowOne(rescue, live, p); }
    StashSurvives(t0, v, live, rescue);
  }

  lemma RenamedBack(t0: Tree, v: Tree, w: Tree, live: Path, rescue: Path)
    requires Stash(t0, v, live, rescue) && IsDir(v, rescue) && forall p :: Look(w, p) == MovedLook(v, rescue, live, p)
    ensures RolledBack(t0, w, live, rescue)
  {
    assert Look(v, rescue) == StashLook(t0, live, rescue, rescue);
    assert Rebase(rescue, rescue, live) == live;
    forall q | live <= q ensures Look(w, q) == Back(t0, live, rescue, q) {
      RebaseBack(q, live, rescue);
      assert Look(v, Rebase(q, live, rescue)) == StashLook(t0, live, rescue, Rebase(q, live, rescue));
    }
  }

  lemma NothingToRename(t0: Tree, t: Tree, u: Tree, v: Tree, live: Path, rescue: Path, wasDir: bool)
    requires Sound(t0, []) && Stash(t0, v, live, rescue) && !IsDir(v, rescue)
    requires forall p :: live <= p ==> Look(t, p) == if IsDir(t0, live) then Missing else Look(t0, p)
    requires wasDir ==> forall p :: live <= p ==> Look(v, p) == Missing
    requires wasDir ==> !Look(t, live).File?
    requires !wasDir ==> v == u && SameBelow(t, u, live)
    ensures RolledBack(t0, v, live, rescue)
  {
    assert Look(v, rescue) == StashLook(t0, live, rescue, rescue);
    assert Rebase(rescue, rescue, live) == live;
    forall q | live <= q ensures Look(v, q) == Look(t0, q) {
      if wasDir { NothingBelow(t0, live, q); }
    }
  }

  /** Restoring a snapshot, on this device or another, gives back exactly its files. */
  lemma RestoreInvertsSnapshot(files: seq<Saved>, t0: Tree, from: Path, t: Tree, to: Path, q: Path)
    requires Lists(files, t0, from) && Lists(files, t, to) && from < q
    ensures FileAt(t, Rebase(q, from, to)) == FileAt(t0, q)
  {
    var r := Rebase(q, from, to);
    assert r[|to|..] == q[|from|..] && to < r;
  }

  /** A device `to` can take the data of `id`: the app is installed, and neither a file in
      place of its data nor one in place of the rescue directory is in the way. */
  ghost predicate CanReceive(t: Tree, live: Path, rescue: Path)
    requires live != [] && rescue != []
  {
    IsDir(t, live[..|live| - 1]) && !Look(t, live).File? && CanTake(t, rescue)
  }

  /** A snapshot on one device restored on another, or on the same one: without faults it
      succeeds and leaves exactly the snapshot's files, and `from` is as it was unless it
      is the device restored on. */
  method SnapshotThenRestore(from: Store, to: Store, id: string) returns (files: Option<seq<Saved>>, o: Option<Outcome>)
    requires Sound(from.fs, []) && Sound(to.fs, []) && Named(from.fs)
    modifies from`faults, to
    ensures from != to ==> from.fs == old(from.fs)
    ensures o.Some? && NewDataInPlace(o.value) ==>
      forall q :: [id, "data"] < q ==> FileAt(to.fs, q) == FileAt(old(from.fs), q)
    ensures old(from.faults + to.faults) == 0 && CanReceive(old(to.fs), [id, "data"], ["." + id + ".data.rescue"]) ==>
      o == Some(Done)
  {
    ghost var t0, live := from.fs, [id, "data"];
    o := None;
    files := SnapshotData(from, id);
    if files.None? { return; }
    var r := RestoreData(to, id, files.value);
    o := Some(r);
    if NewDataInPlace(r) {
      forall q | live < q ensures FileAt(to.fs, q) == FileAt(t0, q) {
        RestoreInvertsSnapshot(files.value, t0, live, to.fs, live, q);
        RebaseBack(q, live, live);
      }
    }
  }
}
