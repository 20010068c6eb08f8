/** Placing a package in the registry: what an upgrade keeps at whichever step it fails,
    and what it leaves when it succeeds. */
module Upgrade {
  import opened Prelude
  import opened Disk
  import opened Install

  // ----- packages ---------------------------------------------------------------------------

  /** Top-level names that are run-time state and never package content. */
  predicate Reserved(name: string) { name == "data" || name == "logs" || name == "auth.json" }

  predicate Content(f: Path) { (f != [] ==> !Reserved(f[0])) && f != ["signature.bin"] }

  datatype Package = Package(files: seq<Path>, contents: map<Path, Bytes>, signature: Option<Bytes>)

  /** A package as `load` makes it: its files were walked and filtered. */
  predicate Loaded(pkg: Package) { forall f :: f in pkg.files ==> f in pkg.contents && Content(f) }

  /** The filter in the source's `load`; `walk` is what was found in the directory. */
  method Retain(walk: seq<Path>) returns (files: seq<Path>)
    ensures forall f :: f in files <==>
      f in walk && f != ["signature.bin"] && (f != [] ==> f[0] !in {"data", "logs", "auth.json"})
  {
    files := [];
    for i := 0 to |walk|
      invariant forall f :: f in files <==> f in walk[..i] && Content(f)
    {
      assert walk[..i + 1] == walk[..i] + [walk[i]];
      if Content(walk[i]) { files := files + [walk[i]]; }
    }
    assert walk[..|walk|] == walk;
  }

  /** What the package puts at the relative path `rel`. */
  function PackageFile(pkg: Package, rel: Path): Option<Bytes>
    requires Loaded(pkg)
  {
    if rel in pkg.files then Some(pkg.contents[rel])
    else if rel == ["signature.bin"] then pkg.signature
    else None
  }

  /** The source's `check_rel_path`, a leading "/" standing for an absolute path. */
  predicate SafePath(p: Path) { forall k :: 0 <= k < |p| ==> p[k] != ".." && p[k] != "/" }

  /** Where one component leads from the directory `at`. */
  function Step(at: Path, name: string): Path {
    if name == "/" then []
    else if name == ".." then (if at == [] then [] else at[..|at| - 1])
    else if name == "." then at
    else at + [name]
  }

  /** Where a path leads from `at`, followed component by component. */
  function Resolve(at: Path, p: Path): Path
    decreases |p|
  {
    if p == [] then at else Step(Resolve(at, p[..|p| - 1]), p[|p| - 1])
  }

  /** No component of the path leads up. */
  predicate OnlyDown(at: Path, p: Path) {
    forall k :: 0 <= k < |p| ==> Resolve(at, p[..k]) <= Resolve(at, p[..k + 1])
  }

  /** The path check accepts exactly the paths that never lead up, from whatever directory
      below the root they are followed, and so never out of it. */
  lemma SafeGoesDown(at: Path, p: Path)
    requires at != []
    ensures SafePath(p) <==> OnlyDown(at, p)
  {
    if SafePath(p) {
      forall k | 0 <= k < |p| ensures Resolve(at, p[..k]) <= Resolve(at, p[..k + 1]) {
        assert p[..k + 1][..k] == p[..k];
      }
    }
    if OnlyDown(at, p) {
      forall k | 0 <= k < |p| ensures p[k] != ".." && p[k] != "/" {
        DownInside(at, p, k);
        assert p[..k + 1][..k] == p[..k];
        StepsDown(Resolve(at, p[..k]), p[k]);
      }
    }
  }

  lemma StepsDown(at: Path, name: string)
    requires at != [] && at <= Step(at, name)
    ensures name != ".." && name != "/"
  {
    assert |at| <= |Step(at, name)|;
  }

  lemma {:induction false} DownInside(at: Path, p: Path, k: nat)
    requires k <= |p| && OnlyDown(at, p)
    ensures at <= Resolve(at, p[..k])
  {
    if k > 0 {
      DownInside(at, p, k - 1);
      assert Resolve(at, p[..k - 1]) <= Resolve(at, p[..k - 1 + 1]);
    }
  }

  // ----- writing a package --------------------------------------------------------------------

  /** Only `p` and directories above it changed. */
  ghost predicate OnlyAt(t: Tree, u: Tree, p: Path) {
    forall q :: q != p ==> Look(u, q) == Look(t, q) || (q <= p && Look(t, q) == Missing && Look(u, q) == Dir)
  }

  lemma AboveOnly(t: Tree, u: Tree, p: Path)
    requires p != []
    requires forall q :: Look(u, q) == Look(t, q) || (q <= p[..|p| - 1] && Look(t, q) == Missing && Look(u, q) == Dir)
    ensures OnlyAt(t, u, p)
  {
    forall q | Look(u, q) != Look(t, q) ensures q <= p { assert q <= p[..|p| - 1] <= p; }
  }

  /** Makes the directories a file needs and writes it. */
  method PutFile(disk: Store, p: Path, bytes: Bytes) returns (ok: bool)
    modifies disk
    ensures Sound(old(disk.fs), []) ==> Sound(disk.fs, [])
    ensures OnlyAt(old(disk.fs), disk.fs, p)
    ensures IsDir(old(disk.fs), p) ==> !ok && IsDir(disk.fs, p)
    ensures ok ==>
      FileAt(disk.fs, p) == Some(bytes) && forall q :: q != p ==> FileAt(disk.fs, q) == FileAt(old(disk.fs), q)
    ensures disk.faults <= old(disk.faults)
    ensures !ok && p != [] && NoFileAbove(old(disk.fs), p[..|p| - 1]) && !IsDir(old(disk.fs), p) ==>
      disk.faults < old(disk.faults)
  {
    if p != [] {
      ghost var t := disk.fs;
      ok := disk.CreateDirAll(p[..|p| - 1]);
      AboveOnly(t, disk.fs, p);
      if !ok { return; }
    }
    ok := disk.Write(p, bytes);
  }

  // ----- files that do not stand in each other's way ------------------------------------------

  /** No path is empty or runs through another one. */
  predicate NonClashing(rels: seq<Path>) {
    forall i, j :: 0 <= i < |rels| && 0 <= j < |rels| ==> rels[i] != [] && !(rels[i] < rels[j])
  }

  /** Below `base` there are only the first `n` files and the directories they need. */
  ghost predicate Spread(t: Tree, base: Path, rels: seq<Path>, n: nat)
    requires n <= |rels|
  {
    forall q :: base < q ==>
      && (Look(t, q).File? ==> q[|base|..] in rels[..n])
      && (IsDir(t, q) ==> exists j :: 0 <= j < n && q[|base|..] < rels[j])
  }

  lemma PutFits(t: Tree, base: Path, rels: seq<Path>, n: nat)
    requires n < |rels| && NonClashing(rels) && Spread(t, base, rels, n) && NoFileAbove(t, base)
    ensures var p := base + rels[n]; p != [] && NoFileAbove(t, p[..|p| - 1]) && !IsDir(t, p)
  {
    var p := base + rels[n];
    var up := p[..|p| - 1];
    assert p[|base|..] == rels[n] && base < p;
    forall i | 0 <= i <= |up| ensures !Look(t, up[..i]).File? {
      if i <= |base| {
        assert up[..i] == base[..i];
      } else {
        var q := up[..i];
        assert base < q && q[|base|..] == rels[n][..i - |base|];
        assert q[|base|..] < rels[n];
      }
    }
  }

  lemma PutSpreads(t: Tree, u: Tree, base: Path, rels: seq<Path>, n: nat)
    requires n < |rels| && Spread(t, base, rels, n) && OnlyAt(t, u, base + rels[n]) && Look(u, base + rels[n]).File?
    ensures Spread(u, base, rels, n + 1)
  {
    var p := base + rels[n];
    assert rels[..n + 1] == rels[..n] + [rels[n]];
    forall q | base < q
      ensures Look(u, q).File? ==> q[|base|..] in rels[..n + 1]
      ensures IsDir(u, q) ==> exists j :: 0 <= j < n + 1 && q[|base|..] < rels[j]
    {
      if q == p {
        assert q[|base|..] == rels[n];
      } else if Look(u, q) != Look(t, q) {
        assert q < p;
        assert q[|base|..] < rels[n] by { assert p[|base|..] == rels[n]; }
      }
    }
  }

  lemma AboveKept(t: Tree, u: Tree, d: Path)
    requires OnlyBelow(t, u, d) && NoFileAbove(t, d) && !Look(u, d).File?
    ensures NoFileAbove(u, d)
  {
    forall i | 0 <= i <= |d| ensures !Look(u, d[..i]).File? {
      if i == |d| { assert d[..i] == d; } else { assert !(d <= d[..i]); }
    }
  }

  ghost predicate Installed(pkg: Package, t: Tree, u: Tree, dest: Path, i: nat)
    requires Loaded(pkg) && i <= |pkg.files|
  {
    forall q :: dest <= q ==>
      FileAt(u, q) == if q[|dest|..] in pkg.files[..i] then Some(pkg.contents[q[|dest|..]]) else FileAt(t, q)
  }

  /** Nothing below `dest` that starts with a reserved name changed. */
  ghost predicate ReservedKept(t: Tree, u: Tree, dest: Path) {
    forall q :: dest < q && Reserved(q[|dest|]) ==> Look(u, q) == Look(t, q)
  }

  function SignatureFile(): Path { ["signature.bin"] }

  /** The package can be written: safe paths that do not run through each other. */
  predicate Writable(pkg: Package) {
    (forall f :: f in pkg.files ==> SafePath(f)) && NonClashing(pkg.files + [SignatureFile()])
  }

  /** One turn of the loop over the package's files. */
  method PutRel(disk: Store, dest: Path, rel: Path, bytes: Bytes, ghost t: Tree, ghost rels: seq<Path>, ghost i: nat)
    returns (ok: bool)
    requires i < |rels| && rels[i] == rel && (rel != [] ==> !Reserved(rel[0]))
    requires OnlyBelow(t, disk.fs, dest) && ReservedKept(t, disk.fs, dest) && IsDir(disk.fs, dest)
    requires Free(t, dest) ==> Spread(disk.fs, dest, rels, i)
    modifies disk
    ensures Sound(old(disk.fs), []) ==> Sound(disk.fs, [])
    ensures OnlyBelow(t, disk.fs, dest) && ReservedKept(t, disk.fs, dest) && IsDir(disk.fs, dest)
    ensures ok ==> FileAt(disk.fs, dest + rel) == Some(bytes)
    ensures ok ==> forall q :: q != dest + rel ==> FileAt(disk.fs, q) == FileAt(old(disk.fs), q)
    ensures ok && Free(t, dest) ==> Spread(disk.fs, dest, rels, i + 1)
    ensures disk.faults <= old(disk.faults)
    ensures !ok && Free(t, dest) && NonClashing(rels) ==> disk.faults < old(disk.faults)
  {
    ghost var u := disk.fs;
    if Free(t, dest) {
      AboveKept(t, u, dest);
      if NonClashing(rels) { PutFits(u, dest, rels, i); }
    }
    ok := PutFile(disk, dest + rel, bytes);
    StillBelow(t, u, disk.fs, dest, rel);
    StillDir(u, disk.fs, dest, rel);
    if ok && Free(t, dest) { PutSpreads(u, disk.fs, dest, rels, i); }
  }

  lemma StillDir(u: Tree, v: Tree, dest: Path, rel: Path)
    requires IsDir(u, dest) && OnlyAt(u, v, dest + rel) && (IsDir(u, dest + rel) ==> IsDir(v, dest + rel))
    ensures IsDir(v, dest)
  {
    assert rel == [] ==> dest + rel == dest;
    assert rel != [] ==> dest + rel != dest;
  }

  /** The copy of the signature, which makes no directories. */
  method PutSignature(disk: Store, pkg: Package, dest: Path, ghost t: Tree, ghost rels: seq<Path>) returns (ok: bool)
    requires Loaded(pkg) && pkg.signature.Some? && rels == pkg.files + [SignatureFile()]
    requires OnlyBelow(t, disk.fs, dest) && ReservedKept(t, disk.fs, dest) && IsDir(disk.fs, dest)
    requires Installed(pkg, t, disk.fs, dest, |pkg.files|)
    requires Free(t, dest) ==> Spread(disk.fs, dest, rels, |pkg.files|)
    modifies disk
    ensures Sound(old(disk.fs), []) ==> Sound(disk.fs, [])
    ensures OnlyBelow(t, disk.fs, dest) && ReservedKept(t, disk.fs, dest) && IsDir(disk.fs, dest)
    ensures ok ==> forall q :: dest <= q ==>
      FileAt(disk.fs, q) == var f := PackageFile(pkg, q[|dest|..]); if f.Some? then f else FileAt(t, q)
    ensures disk.faults <= old(disk.faults)
    ensures !ok && Free(t, dest) && NonClashing(rels) ==> disk.faults < old(disk.faults)
  {
    ghost var u := disk.fs;
    var p := dest + ["signature.bin"];
    assert p[..|p| - 1] == dest && p != dest;
    if Free(t, dest) {
      AboveKept(t, u, dest);
      if NonClashing(rels) { PutFits(u, dest, rels, |pkg.files|); }
    }
    ok := disk.Write(p, pkg.signature.value);
    StillBelow(t, u, disk.fs, dest, SignatureFile());
    if ok { SignatureWritten(pkg, t, u, disk.fs, dest); }
  }

  lemma SignatureWritten(pkg: Package, t: Tree, u: Tree, v: Tree, dest: Path)
    requires Loaded(pkg) && pkg.signature.Some? && Installed(pkg, t, u, dest, |pkg.files|)
    requires Look(v, dest + SignatureFile()) == File(pkg.signature.value)
    requires forall q :: q != dest + SignatureFile() ==> Look(v, q) == Look(u, q)
    ensures forall q :: dest <= q ==>
      FileAt(v, q) == var f := PackageFile(pkg, q[|dest|..]); if f.Some? then f else FileAt(t, q)
  {
    assert pkg.files[..|pkg.files|] == pkg.files;
    forall q | dest <= q
      ensures FileAt(v, q) == var f := PackageFile(pkg, q[|dest|..]); if f.Some? then f else FileAt(t, q)
    {
      assert q == dest + q[|dest|..];
      assert Content(SignatureFile()) == false;
    }
  }

  /** The source's `install_to`. */
  method InstallTo(disk: Store, pkg: Package, dest: Path) returns (ok: bool)
    requires Loaded(pkg)
    modifies disk
    ensures Sound(old(disk.fs), []) ==> Sound(disk.fs, [])
    ensures OnlyBelow(old(disk.fs), disk.fs, dest) && ReservedKept(old(disk.fs), disk.fs, dest)
    ensures ok ==> !Exists(old(disk.fs), dest) && IsDir(disk.fs, dest)
    ensures !Look(old(disk.fs), dest).File? ==> !Look(disk.fs, dest).File?
    ensures ok ==> forall q :: dest <= q ==>
      FileAt(disk.fs, q) == var f := PackageFile(pkg, q[|dest|..]); if f.Some? then f else FileAt(old(disk.fs), q)
    ensures ok && pkg.signature.Some? ==> FileAt(disk.fs, dest + ["signature.bin"]) == pkg.signature
    ensures disk.faults <= old(disk.faults)
    ensures !ok && Writable(pkg) && !Exists(old(disk.fs), dest) && Free(old(disk.fs), dest) ==>
      disk.faults < old(disk.faults)
  {
    ghost var t := disk.fs;
    ghost var rels := pkg.files + [SignatureFile()];
    if Exists(disk.fs, dest) { return false; }
    ok := disk.CreateDirAll(dest);
    if !ok { return; }
    for i := 0 to |pkg.files|
      invariant OnlyBelow(t, disk.fs, dest) && ReservedKept(t, disk.fs, dest) && Installed(pkg, t, disk.fs, dest, i)
      invariant IsDir(disk.fs, dest) && disk.faults <= old(disk.faults) && (Sound(t, []) ==> Sound(disk.fs, []))
      invariant Free(t, dest) ==> Spread(disk.fs, dest, rels, i)
    {
      var rel := pkg.files[i];
      ghost var u := disk.fs;
      if !SafePath(rel) { return false; }
      ok := PutRel(disk, dest, rel, pkg.contents[rel], t, rels, i);
      if !ok { return; }
      NextInstalled(pkg, t, u, disk.fs, dest, i);
    }
    assert pkg.files[..|pkg.files|] == pkg.files;
    if pkg.signature.Some? {
      ok := PutSignature(disk, pkg, dest, t, rels);
      assert (dest + ["signature.bin"])[|dest|..] == ["signature.bin"];
    } else {
      ok := true;
    }
  }

  lemma StillBelow(t: Tree, u: Tree, v: Tree, dest: Path, rel: Path)
    requires OnlyBelow(t, u, dest) && ReservedKept(t, u, dest) && OnlyAt(u, v, dest + rel)
    requires rel != [] ==> !Reserved(rel[0])
    ensures OnlyBelow(t, v, dest) && ReservedKept(t, v, dest)
  {
  }

  lemma NextInstalled(pkg: Package, t: Tree, u: Tree, v: Tree, dest: Path, i: nat)
    requires Loaded(pkg) && i < |pkg.files| && Installed(pkg, t, u, dest, i)
    requires FileAt(v, dest + pkg.files[i]) == Some(pkg.contents[pkg.files[i]])
    requires forall q :: q != dest + pkg.files[i] ==> FileAt(v, q) == FileAt(u, q)
    ensures Installed(pkg, t, v, dest, i + 1)
  {
    var rel := pkg.files[i];
    assert pkg.files[..i + 1] == pkg.files[..i] + [rel];
    forall q | dest <= q ensures q == dest + rel <==> q[|dest|..] == rel { assert q == dest + q[|dest|..]; }
  }
}
