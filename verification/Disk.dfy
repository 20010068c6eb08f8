/** A directory tree as a map from paths to entries, with operations that may fail.
    Renaming is atomic. Removing and creating trees may stop midway; a failed write may
    leave any bytes in the file it was writing. */
module Disk {
  import opened Prelude

  type Path = seq<string>

  datatype Entry = Missing | Dir | File(bytes: Bytes)

  type Tree = map<Path, Entry>

  function Look(t: Tree, p: Path): Entry { if p in t then t[p] else Missing }

  predicate IsDir(t: Tree, p: Path) { Look(t, p) == Dir }
  predicate Exists(t: Tree, p: Path) { Look(t, p) != Missing }

  /** The path below `to` where `p`, below `from`, goes. */
  function Rebase(p: Path, from: Path, to: Path): Path
    requires from <= p
  {
    to + p[|from|..]
  }

  /** Neither path lies below the other. */
  predicate Apart(a: Path, b: Path) { !(a <= b) && !(b <= a) }

  /** Nothing lies strictly below `d`. */
  ghost predicate Empty(t: Tree, d: Path) { forall p :: d < p ==> Look(t, p) == Missing }

  /** A directory can be renamed to `to`: into a directory, onto nothing but an empty one. */
  ghost predicate Vacant(t: Tree, to: Path)
    requires to != []
  {
    IsDir(t, to[..|to| - 1]) && Empty(t, to) && !Look(t, to).File?
  }

  /** Every entry below `d` sits in a directory. */
  ghost predicate Sound(t: Tree, d: Path) {
    forall p {:trigger Exists(t, p)} :: d < p && Exists(t, p) ==> IsDir(t, p[..|p| - 1])
  }

  /** What moving `from` to `to` leaves at `p`. */
  function MovedLook(t: Tree, from: Path, to: Path, p: Path): Entry {
    if to <= p then Look(t, Rebase(p, to, from)) else if from <= p then Missing else Look(t, p)
  }

  function MovedKeys(t: Tree, from: Path, to: Path): set<Path> {
    (set p | p in t && !(from <= p) && !(to <= p)) + (set p | p in t && from <= p :: Rebase(p, from, to))
  }

  function Moved(t: Tree, from: Path, to: Path): Tree {
    map p | p in MovedKeys(t, from, to) :: MovedLook(t, from, to, p)
  }

  lemma MovedAt(t: Tree, from: Path, to: Path, p: Path)
    requires Apart(from, to)
    ensures Look(Moved(t, from, to), p) == MovedLook(t, from, to, p)
  {
    if to <= p {
      var q := Rebase(p, to, from);
      assert from <= q && q[|from|..] == p[|to|..] && Rebase(q, from, to) == p;
      BelowOne(to, from, p);
      if p in MovedKeys(t, from, to) {
        var r :| r in t && from <= r && Rebase(r, from, to) == p;
        assert r == q by { RebaseBack(r, from, to); }
      }
    } else {
      forall r | r in t && from <= r ensures Rebase(r, from, to) != p { assert to <= Rebase(r, from, to); }
    }
  }

  lemma RebaseBack(p: Path, from: Path, to: Path)
    requires from <= p
    ensures to <= Rebase(p, from, to) && Rebase(Rebase(p, from, to), to, from) == p
  {
    assert Rebase(p, from, to)[|to|..] == p[|from|..];
    assert p == from + p[|from|..];
  }

  lemma Comparable(a: Path, b: Path, p: Path)
    requires a <= p && b <= p
    ensures a <= b || b <= a
  {
    if |a| <= |b| {
      assert a == p[..|a|] && b[..|a|] == p[..|a|];
    } else {
      assert b == p[..|b|] && a[..|b|] == p[..|b|];
    }
  }

  lemma BelowOne(a: Path, b: Path, p: Path)
    requires Apart(a, b) && a <= p
    ensures !(b <= p)
  {
    if b <= p { Comparable(a, b, p); }
  }

  /** The bytes of the file at `p`, if there is one. */
  function FileAt(t: Tree, p: Path): Option<Bytes> { if Look(t, p).File? then Some(Look(t, p).bytes) else None }

  /** Whatever exists below a sound directory has directories all the way up. */
  lemma {:induction false} SoundChain(t: Tree, d: Path, a: Path, p: Path)
    requires Sound(t, d) && d <= a < p && Exists(t, p)
    ensures IsDir(t, a)
    decreases |p|
  {
    var up := p[..|p| - 1];
    if |a| < |up| {
      assert a < up;
      SoundChain(t, d, a, up);
    } else {
      assert a == up;
    }
  }

  predicate NoFileAbove(t: Tree, d: Path) { forall i :: 0 <= i <= |d| ==> !Look(t, d[..i]).File? }

  lemma MovedSound(t: Tree, u: Tree, from: Path, to: Path)
    requires Sound(t, []) && Apart(from, to) && to != [] && Vacant(t, to)
    requires forall p :: Look(u, p) == MovedLook(t, from, to, p)
    ensures Sound(u, [])
  {
    forall p | [] < p && Exists(u, p) ensures IsDir(u, p[..|p| - 1]) {
      var up := p[..|p| - 1];
      assert Look(u, up) == MovedLook(t, from, to, up);
      if to < p {
        var q := Rebase(p, to, from);
        assert Exists(t, q);
        assert to <= up && from <= q && q[..|q| - 1] == Rebase(up, to, from);
      } else if to <= p {
        assert p == to;
        assert from <= up ==> from <= to;
      } else {
        assert !(to <= up) && !(from <= p) && Exists(t, p);
        assert from <= up ==> from <= p;
      }
    }
  }

  /** `p` and everything above it down from `d` is among the paths `kept`. */
  predicate KeptDown(kept: set<Path>, d: Path, p: Path) { forall i :: |d| <= i <= |p| ==> p[..i] in kept }

  lemma RemovedSound(t: Tree, u: Tree, d: Path, kept: set<Path>)
    requires Sound(t, [])
    requires forall p :: Look(u, p) == if d <= p && !KeptDown(kept, d, p) then Missing else Look(t, p)
    ensures Sound(u, [])
  {
    forall p | [] < p && Exists(u, p) ensures IsDir(u, p[..|p| - 1]) {
      var up := p[..|p| - 1];
      assert Exists(t, p) && (d <= up ==> d <= p);
      forall i | |d| <= i <= |up| ensures up[..i] == p[..i] {}
    }
  }

  lemma GrownSound(t: Tree, u: Tree, p: Path)
    requires Sound(t, []) && (p != [] ==> IsDir(t, p[..|p| - 1]))
    requires (Look(u, p) == Look(t, p) || !IsDir(t, p)) && forall q :: q != p ==> Look(u, q) == Look(t, q)
    ensures Sound(u, [])
  {
    forall q | [] < q && Exists(u, q) ensures IsDir(u, q[..|q| - 1]) {
      if q != p { assert Exists(t, q); }
    }
  }

  class Store {
    var fs: Tree
    /** How many more operations may fail for a reason of their own. */
    var faults: nat

    /** Whether the operation that asks fails. */
    method Fault() returns (fault: bool)
      modifies this`faults
      ensures faults == if fault then old(faults) - 1 else old(faults)
      ensures fault ==> old(faults) > 0
    {
      fault := *;
      fault := fault && faults > 0;
      if fault { faults := faults - 1; }
    }

    /** `fs::rename` of a directory: onto nothing, or onto an empty directory. */
    method Rename(from: Path, to: Path) returns (ok: bool)
      requires Apart(from, to) && to != []
      modifies this
      ensures !ok ==> fs == old(fs)
      ensures ok ==> IsDir(old(fs), from) && Vacant(old(fs), to)
      ensures ok ==> forall p :: Look(fs, p) == MovedLook(old(fs), from, to, p)
      ensures Sound(old(fs), []) ==> Sound(fs, [])
      ensures faults <= old(faults) && (!ok && IsDir(fs, from) && Vacant(fs, to) ==> faults < old(faults))
    {
      if !IsDir(fs, from) || !IsDir(fs, to[..|to| - 1]) || Look(fs, to).File?
        || exists p :: p in fs && to < p && Exists(fs, p)
      {
        return false;
      }
      var fault := Fault();
      if fault { return false; }
      forall p ensures Look(Moved(fs, from, to), p) == MovedLook(fs, from, to, p) { MovedAt(fs, from, to, p); }
      ghost var t := fs;
      fs := Moved(fs, from, to);
      if Sound(t, []) { MovedSound(t, fs, from, to); }
      ok := true;
    }

    method RemoveDirAll(d: Path) returns (ok: bool)
      modifies this
      ensures ok ==> IsDir(old(fs), d) && forall p :: Look(fs, p) == if d <= p then Missing else Look(old(fs), p)
      ensures !ok ==> forall p :: Look(fs, p) == Look(old(fs), p) || (d <= p && Look(fs, p) == Missing)
      ensures !IsDir(old(fs), d) ==> fs == old(fs)
      ensures Sound(old(fs), []) ==> Sound(fs, [])
      ensures faults <= old(faults) && (!ok && IsDir(old(fs), d) ==> faults < old(faults))
    {
      if !IsDir(fs, d) { return false; }
      var kept: set<Path> := *;
      var fault := Fault();
      if !fault { kept := {}; }
      ghost var t := fs;
      fs := map p | p in fs && (!(d <= p) || KeptDown(kept, d, p)) :: fs[p];
      assert !fault ==> forall p :: d <= p ==> p[..|p|] !in kept && !KeptDown(kept, d, p);
      if Sound(t, []) { RemovedSound(t, fs, d, kept); }
      ok := !fault;
    }

    /** `fs::create_dir_all`: the missing directories down to `d`, outermost first. */
    method CreateDirAll(d: Path) returns (ok: bool)
      modifies this
      ensures forall p ::
        Look(fs, p) == Look(old(fs), p) || (p <= d && Look(old(fs), p) == Missing && Look(fs, p) == Dir)
      ensures ok ==> forall p :: p <= d ==> IsDir(fs, p)
      ensures Sound(old(fs), []) ==> Sound(fs, [])
      ensures faults <= old(faults) && (!ok && NoFileAbove(old(fs), d) ==> faults < old(faults))
    {
      for i := 0 to |d| + 1
        invariant forall p ::
          Look(fs, p) == Look(old(fs), p) || (p <= d && Look(old(fs), p) == Missing && Look(fs, p) == Dir)
        invariant forall p :: p <= d && |p| < i ==> IsDir(fs, p)
        invariant faults <= old(faults) && (Sound(old(fs), []) ==> Sound(fs, []))
      {
        if i > 0 { assert d[..i][..i - 1] == d[..i - 1]; }
        ok := MakeDir(d[..i]);
        if !ok { return; }
        assert forall p :: p <= d && |p| == i ==> p == d[..i];
      }
      ok := true;
    }

    /** One of them. */
    method MakeDir(p: Path) returns (ok: bool)
      requires p != [] ==> IsDir(fs, p[..|p| - 1])
      modifies this
      ensures forall q :: q != p ==> Look(fs, q) == Look(old(fs), q)
      ensures ok ==> IsDir(fs, p) && !Look(old(fs), p).File?
      ensures !ok ==> fs == old(fs)
      ensures Sound(old(fs), []) ==> Sound(fs, [])
      ensures faults <= old(faults) && (!ok && !Look(old(fs), p).File? ==> faults < old(faults))
    {
      if Look(fs, p).File? { return false; }
      var fault := Fault();
      if fault { return false; }
      ghost var t := fs;
      fs := fs[p := Dir];
      if Sound(t, []) { GrownSound(t, fs, p); }
      ok := true;
    }

    /** `fs::write`, and `fs::copy` once its source was read. */
    method Write(p: Path, bytes: Bytes) returns (ok: bool)
      modifies this
      ensures forall q :: q != p ==> Look(fs, q) == Look(old(fs), q)
      ensures Look(fs, p) == Look(old(fs), p) || (Look(fs, p).File? && Look(old(fs), p) != Dir)
      ensures ok ==> Look(old(fs), p) != Dir && Look(fs, p) == File(bytes)
      ensures Sound(old(fs), []) ==> Sound(fs, [])
      ensures faults <= old(faults)
      ensures !ok && p != [] && IsDir(old(fs), p[..|p| - 1]) && !IsDir(old(fs), p) ==> faults < old(faults)
    {
      if Look(fs, p) == Dir || p == [] || Look(fs, p[..|p| - 1]) != Dir { return false; }
      var fault := Fault();
      if fault {
        var touched: bool := *;
        var left: Bytes := *;
        ghost var t := fs;
        if touched {
          fs := fs[p := File(left)];
          if Sound(t, []) { GrownSound(t, fs, p); }
        }
        return false;
      }
      ghost var t := fs;
      fs := fs[p := File(bytes)];
      if Sound(t, []) { GrownSound(t, fs, p); }
      ok := true;
    }

    /** `fs::read`. */
    method Read(p: Path) returns (r: Option<Bytes>)
      modifies this`faults
      ensures r.Some? ==> Look(fs, p) == File(r.value)
      ensures faults <= old(faults) && (r.None? && Look(fs, p).File? ==> faults < old(faults))
    {
      if !Look(fs, p).File? { return None; }
      var fault := Fault();
      if fault { return None; }
      r := Some(Look(fs, p).bytes);
    }

    /** `fs::read_dir`: the names directly below `d`, in no order. */
    method ReadDir(d: Path) returns (r: Option<set<string>>)
      modifies this`faults
      ensures r.Some? ==> IsDir(fs, d) && forall n :: n in r.value <==> Exists(fs, d + [n])
      ensures faults <= old(faults) && (r.None? && IsDir(fs, d) ==> faults < old(faults))
    {
      if !IsDir(fs, d) { return None; }
      var fault := Fault();
      if fault { return None; }
      var names := set p | p in fs && |p| == |d| + 1 && d <= p && Exists(fs, p) :: p[|d|];
      forall n ensures n in names <==> Exists(fs, d + [n]) {
        assert (d + [n])[|d|] == n && d <= d + [n];
        if n in names {
          var p :| p in fs && |p| == |d| + 1 && d <= p && Exists(fs, p) && p[|d|] == n;
          assert p == d + [n];
        }
      }
      r := Some(names);
    }
  }
}
