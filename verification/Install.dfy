/** Installing and upgrading an app: moving live state aside, writing the package, copying
    the state back, and rolling back when a step fails. */
module Install {
  import opened Prelude
  import opened Disk

  // ----- copying a tree over another ------------------------------------------------------

  /** The file at `q`, below `dst`, once the files below `src` were copied over. */
  function MergedFile(t: Tree, src: Path, dst: Path, q: Path): Option<Bytes>
    requires dst <= q
  {
    var f := FileAt(t, Rebase(q, dst, src));
    if f.Some? then f else FileAt(t, q)
  }

  /** Only paths below `d` changed, apart from directories made above it. */
  ghost predicate OnlyBelow(t: Tree, u: Tree, d: Path) {
    forall p :: !(d <= p) ==> Look(u, p) == Look(t, p) || (p <= d && Look(t, p) == Missing && Look(u, p) == Dir)
  }

  function Existing(t: Tree, d: Path): set<Path> { set p | p in t && d <= p && Exists(t, p) }

  ghost predicate SameBelow(t: Tree, u: Tree, d: Path) { forall p :: d <= p ==> Look(u, p) == Look(t, p) }

  lemma FewerBelow(t: Tree, u: Tree, d: Path, n: string)
    requires SameBelow(t, u, d) && Exists(t, d)
    ensures |Existing(u, d + [n])| < |Existing(t, d)|
  {
    var small, big := Existing(u, d + [n]), Existing(t, d);
    forall p | p in small ensures p in big { assert d <= d + [n] <= p; }
    assert d in big && d !in small;
    Subset(small, big - {d});
  }

  /** Which of the names below `dst` were copied so far. */
  ghost predicate CopiedSoFar(t: Tree, u: Tree, src: Path, dst: Path, done: set<string>) {
    && (forall q :: dst < q && q[|dst|] in done ==> FileAt(u, q) == MergedFile(t, src, dst, q))
    && (forall q :: dst < q && q[|dst|] !in done ==> Look(u, q) == Look(t, q))
  }

  lemma SourceKept(t: Tree, u: Tree, src: Path, dst: Path)
    requires Apart(src, dst) && OnlyBelow(t, u, dst)
    ensures SameBelow(t, u, src)
  {
    forall p | src <= p ensures Look(u, p) == Look(t, p) {
      BelowOne(src, dst, p);
      assert p <= dst ==> src <= dst;
    }
  }

  lemma NextCopied(t: Tree, u: Tree, v: Tree, src: Path, dst: Path, done: set<string>, n: string)
    requires IsDir(u, dst) && OnlyBelow(t, u, dst) && CopiedSoFar(t, u, src, dst, done) && n !in done
    requires OnlyBelow(u, v, dst + [n])
    ensures IsDir(v, dst) && OnlyBelow(t, v, dst)
    ensures (forall q :: dst + [n] <= q ==> FileAt(v, q) == MergedFile(t, src, dst, q)) ==>
      CopiedSoFar(t, v, src, dst, done + {n})
  {
    var e := dst + [n];
    forall p | !(e <= p) ensures Look(v, p) == Look(u, p) || (p <= dst && Look(u, p) == Missing && Look(v, p) == Dir) {
      if p <= e && p != e { assert p <= dst; }
    }
    forall q | dst < q && q[|dst|] != n ensures Look(v, q) == Look(u, q) { assert e[|dst|] == n; }
    forall q | dst < q && q[|dst|] == n ensures e <= q { assert q[..|e|] == e; }
  }

  lemma AllCopied(t: Tree, u: Tree, src: Path, dst: Path, names: set<string>)
    requires IsDir(t, src) && Sound(t, src) && CopiedSoFar(t, u, src, dst, names) && IsDir(u, dst)
    requires FileAt(t, dst) == None && forall n :: Exists(t, src + [n]) ==> n in names
    ensures forall q :: dst <= q ==> FileAt(u, q) == MergedFile(t, src, dst, q)
  {
    forall q | dst <= q ensures FileAt(u, q) == MergedFile(t, src, dst, q) {
      var r := Rebase(q, dst, src);
      if q == dst {
        assert r == src;
      } else {
        var e := src + [q[|dst|]];
        assert r[|src|] == q[|dst|] && e <= r;
        if Exists(t, r) {
          if e < r { SoundChain(t, src, e, r); } else { assert e == r; }
          assert Exists(t, src + [q[|dst|]]);
        }
      }
    }
  }

  /** Nothing below `dst`, and no file where a directory is needed for it. */
  ghost predicate Free(t: Tree, dst: Path) { Empty(t, dst) && NoFileAbove(t, dst) }

  lemma ChildFree(t: Tree, u: Tree, src: Path, dst: Path, done: set<string>, n: string)
    requires Free(t, dst) && IsDir(u, dst) && OnlyBelow(t, u, dst) && CopiedSoFar(t, u, src, dst, done) && n !in done
    ensures Free(u, dst + [n]) && Look(u, dst + [n]) == Missing
  {
    var e := dst + [n];
    forall q | e <= q ensures Look(u, q) == Missing {
      assert dst < q && q[|dst|] == e[|dst|];
      assert Look(u, q) == Look(t, q);
    }
    forall i | 0 <= i <= |e| ensures !Look(u, e[..i]).File? {
      if i < |dst| {
        assert e[..i] == dst[..i];
      } else if i == |dst| {
        assert e[..i] == dst;
      } else {
        assert e[..i] == e;
      }
    }
  }

  /** The source's `copy_merge`. */
  method CopyMerge(disk: Store, src: Path, dst: Path) returns (ok: bool)
    requires Apart(src, dst) && Sound(disk.fs, src)
    modifies disk
    ensures Sound(old(disk.fs), []) ==> Sound(disk.fs, [])
    ensures OnlyBelow(old(disk.fs), disk.fs, dst)
    ensures ok ==> forall q :: dst <= q ==> FileAt(disk.fs, q) == MergedFile(old(disk.fs), src, dst, q)
    ensures !Look(old(disk.fs), dst).File? ==> !Look(disk.fs, dst).File?
    ensures disk.faults <= old(disk.faults)
    ensures !ok && IsDir(old(disk.fs), src) && Free(old(disk.fs), dst) ==> disk.faults < old(disk.faults)
    decreases |Existing(disk.fs, src)|, 1
  {
    ghost var t := disk.fs;
    ok := disk.CreateDirAll(dst);
    if !ok { return; }
    SourceKept(t, disk.fs, src, dst);
    var names := disk.ReadDir(src);
    if names.None? { return false; }
    var todo := names.value;
    ghost var done: set<string> := {};
    while todo != {}
      invariant todo !! done && todo + done == names.value
      invariant IsDir(disk.fs, dst) && OnlyBelow(t, disk.fs, dst) && CopiedSoFar(t, disk.fs, src, dst, done)
      invariant disk.faults <= old(disk.faults) && (Sound(t, []) ==> Sound(disk.fs, []))
      decreases todo
    {
      var n :| n in todo;
      ok := CopyEntry(disk, src, dst, n, t, done);
      if !ok { return; }
      todo, done := todo - {n}, done + {n};
    }
    AllCopied(t, disk.fs, src, dst, done);
  }

  /** One turn of its loop. */
  method CopyEntry(disk: Store, src: Path, dst: Path, n: string, ghost t: Tree, ghost done: set<string>)
    returns (ok: bool)
    requires Apart(src, dst) && Sound(t, src) && IsDir(t, src) && Exists(t, src + [n]) && n !in done
    requires IsDir(disk.fs, dst) && OnlyBelow(t, disk.fs, dst) && CopiedSoFar(t, disk.fs, src, dst, done)
    modifies disk
    ensures Sound(old(disk.fs), []) ==> Sound(disk.fs, [])
    ensures IsDir(disk.fs, dst) && OnlyBelow(t, disk.fs, dst)
    ensures ok ==> CopiedSoFar(t, disk.fs, src, dst, done + {n})
    ensures disk.faults <= old(disk.faults) && (!ok && Free(t, dst) ==> disk.faults < old(disk.faults))
    decreases |Existing(t, src)|, 0
  {
    ghost var u := disk.fs;
    SourceKept(t, u, src, dst);
    if Free(t, dst) { ChildFree(t, u, src, dst, done, n); }
    assert src <= src + [n] && dst <= dst + [n];
    if IsDir(disk.fs, src + [n]) {
      FewerBelow(t, disk.fs, src, n);
      ChildSource(t, u, src, dst, n);
      ok := CopyMerge(disk, src + [n], dst + [n]);
      if ok { ChildMerged(t, u, disk.fs, src, dst, n, done); }
    } else {
      var bytes := disk.Read(src + [n]);
      if bytes.None? { return false; }
      assert (dst + [n])[..|dst|] == dst;
      ok := disk.Write(dst + [n], bytes.value);
      if ok { FileCopied(t, u, disk.fs, src, dst, n, bytes.value, done); }
    }
    NextCopied(t, u, disk.fs, src, dst, done, n);
  }

  lemma ChildSource(t: Tree, u: Tree, src: Path, dst: Path, n: string)
    requires Apart(src, dst) && Sound(t, src) && SameBelow(t, u, src)
    ensures Apart(src + [n], dst + [n]) && Sound(u, src + [n])
  {
    var a, b := src + [n], dst + [n];
    if a <= b {
      Comparable(src, dst, b);
    } else if b <= a {
      Comparable(src, dst, a);
    }
    forall p | a < p && Exists(u, p) ensures IsDir(u, p[..|p| - 1]) {
      assert src < p && src <= p[..|p| - 1] && Exists(t, p);
    }
  }

  lemma ChildMerged(t: Tree, u: Tree, v: Tree, src: Path, dst: Path, n: string, done: set<string>)
    requires SameBelow(t, u, src) && CopiedSoFar(t, u, src, dst, done) && n !in done
    requires forall q :: dst + [n] <= q ==> FileAt(v, q) == MergedFile(u, src + [n], dst + [n], q)
    ensures forall q :: dst + [n] <= q ==> FileAt(v, q) == MergedFile(t, src, dst, q)
  {
    forall q | dst + [n] <= q ensures FileAt(v, q) == MergedFile(t, src, dst, q) {
      assert dst < q && q[|dst|] == n;
      assert Rebase(q, dst + [n], src + [n]) == Rebase(q, dst, src) && src <= Rebase(q, dst, src);
    }
  }

  lemma FileCopied(t: Tree, u: Tree, v: Tree, src: Path, dst: Path, n: string, bytes: Bytes, done: set<string>)
    requires SameBelow(t, u, src) && CopiedSoFar(t, u, src, dst, done) && n !in done
    requires Sound(t, src) && Look(u, src + [n]) == File(bytes) && Look(v, dst + [n]) == File(bytes)
    requires forall q :: q != dst + [n] ==> Look(v, q) == Look(u, q)
    ensures forall q :: dst + [n] <= q ==> FileAt(v, q) == MergedFile(t, src, dst, q)
  {
    forall q | dst + [n] <= q ensures FileAt(v, q) == MergedFile(t, src, dst, q) {
      var r := Rebase(q, dst, src);
      assert dst < q && q[|dst|] == n && src + [n] <= r;
      if q == dst + [n] {
        assert r == src + [n];
      } else if Exists(t, r) {
        SoundChain(t, src, src + [n], r);
      }
    }
  }
}
