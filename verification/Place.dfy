/** The registry's `place`: set live state aside, reinstall, bring it back. */
module Place {
  import opened Prelude
  import opened Disk
  import opened Install
  import opened Upgrade
  import opened Aside

  // ----- the whole upgrade --------------------------------------------------------------------

  datatype Layout = Layout(dest: Path, live: Path, kept: Path, logs: Path, logsKept: Path, auth: Path)

  function LayoutOf(id: string): Layout {
    Layout([id], [id, "data"], ["." + id + ".data.bak"], [id, "logs"], ["." + id + ".logs.bak"], [id, "auth.json"])
  }

  /** A reserved name directly below the app's directory. */
  predicate Inside(l: Layout, p: Path) { |p| == |l.dest| + 1 && l.dest < p && Reserved(p[|l.dest|]) }

  predicate Valid(l: Layout) {
    && Inside(l, l.live) && Inside(l, l.logs) && Inside(l, l.auth)
    && Apart(l.live, l.logs) && Apart(l.live, l.auth) && Apart(l.logs, l.auth)
    && Apart(l.dest, l.kept) && Apart(l.dest, l.logsKept) && Apart(l.kept, l.logsKept)
    && Apart(l.live, l.kept) && Apart(l.logs, l.logsKept) && Apart(l.live, l.logsKept) && Apart(l.logs, l.kept)
    && Apart(l.auth, l.kept) && Apart(l.auth, l.logsKept)
    && |l.dest| == 1 && |l.kept| == 1 && |l.logsKept| == 1
  }

  lemma LayoutIsValid(id: string)
    ensures Valid(LayoutOf(id))
  {
    var l := LayoutOf(id);
    assert l.kept[0][|id| + 2] == 'd' && l.logsKept[0][|id| + 2] == 'l';
    assert |l.kept[0]| != |id| && |l.logsKept[0]| != |id|;
    assert |l.live[1]| == 4 && |l.logs[1]| == 4 && |l.auth[1]| == 9 && l.live[1][0] == 'd' && l.logs[1][0] == 'l';
  }

  ghost predicate BothSurvive(t0: Tree, t: Tree, l: Layout) {
    Survives(t0, t, l.live, l.kept) && Survives(t0, t, l.logs, l.logsKept)
  }

  ghost predicate BothStashed(t0: Tree, t: Tree, l: Layout) {
    Stash(t0, t, l.live, l.kept) && Stash(t0, t, l.logs, l.logsKept)
  }

  /** Nothing outside the app's directory and the two backups changed, apart from
      directories made above the app's. */
  ghost predicate OnlyApp(t: Tree, u: Tree, l: Layout) {
    forall p :: !(l.dest <= p) && !(l.kept <= p) && !(l.logsKept <= p) ==>
      Look(u, p) == Look(t, p) || (p <= l.dest && Look(t, p) == Missing && Look(u, p) == Dir)
  }

  /** The app's files outside `data/` and `logs/`: the package's, and the given `auth.json`. */
  ghost predicate OthersAre(pkg: Package, t: Tree, l: Layout, auth: Option<Bytes>)
    requires Loaded(pkg)
  {
    forall q :: l.dest <= q && !(l.live <= q) && !(l.logs <= q) ==>
      FileAt(t, q) == if q == l.auth && auth.Some? then auth else PackageFile(pkg, q[|l.dest|..])
  }

  /** What a successful upgrade leaves. */
  ghost predicate Upgraded(pkg: Package, t0: Tree, t: Tree, l: Layout, auth: Option<Bytes>)
    requires Loaded(pkg)
  {
    && Restored(t0, t, l.live, l.kept) && Restored(t0, t, l.logs, l.logsKept)
    && !IsDir(t, l.kept) && !IsDir(t, l.logsKept) && OthersAre(pkg, t, l, auth)
  }

  ghost predicate BothHeld(t0: Tree, t: Tree, l: Layout) {
    Held(t0, t, l.live, l.kept) && Held(t0, t, l.logs, l.logsKept)
  }

  /** No file stands where `data/` and `logs/` go. */
  predicate NoneInTheWay(t: Tree, l: Layout) { !Look(t, l.live).File? && !Look(t, l.logs).File? }

  lemma AreaFree(u: Tree, l: Layout, a: Path)
    requires Inside(l, a) && IsDir(u, l.dest) && NoFileAbove(u, l.dest) && forall q :: a <= q ==> Look(u, q) == Missing
    ensures Free(u, a)
  {
    forall i | 0 <= i <= |a| ensures !Look(u, a[..i]).File? {
      if i <= |l.dest| { assert a[..i] == l.dest[..i]; } else { assert a[..i] == a; }
    }
  }

  lemma DestStays(u: Tree, v: Tree, l: Layout, a: Path, b: Path)
    requires Inside(l, a) && Apart(l.dest, b) && IsDir(u, l.dest)
    requires forall p :: !(a <= p) && !(b <= p) ==>
      Look(v, p) == Look(u, p) || (p <= a && Look(u, p) == Missing && Look(v, p) == Dir)
    ensures IsDir(v, l.dest) && (NoFileAbove(u, l.dest) ==> NoFileAbove(v, l.dest))
  {
    forall i | 0 <= i <= |l.dest| ensures !(a <= l.dest[..i]) && !(b <= l.dest[..i]) {
      assert l.dest[..i] <= l.dest;
      assert b <= l.dest[..i] ==> b <= l.dest;
    }
    assert l.dest[..|l.dest|] == l.dest;
  }

  /** The part of `place` after the old directory was removed. */
  method Reinstall(disk: Store, pkg: Package, l: Layout, auth: Option<Bytes>, ghost t0: Tree) returns (ok: bool)
    requires Loaded(pkg) && Valid(l) && Sound(t0, []) && BothStashed(t0, disk.fs, l)
    requires forall p :: l.dest <= p ==> Look(disk.fs, p) == Missing
    modifies disk
    ensures Sound(old(disk.fs), []) ==> Sound(disk.fs, [])
    ensures BothSurvive(t0, disk.fs, l) && OnlyApp(old(disk.fs), disk.fs, l)
    ensures BothHeld(t0, disk.fs, l) && NoneInTheWay(disk.fs, l)
    ensures ok ==> Upgraded(pkg, t0, disk.fs, l, auth)
    ensures NoFileAbove(old(disk.fs), l.dest) ==> NoFileAbove(disk.fs, l.dest)
    ensures disk.faults <= old(disk.faults)
    ensures !ok && Writable(pkg) && NoFileAbove(old(disk.fs), l.dest) ==> disk.faults < old(disk.faults)
  {
    ghost var t := disk.fs;
    ok := InstallFresh(disk, pkg, l, t0);
    if !ok { return; }
    ghost var u := disk.fs;
    ok := BringBack(disk, pkg, l, t0, t);
    ghost var w := disk.fs;
    AppTwice(t, u, w, l);
    if ok && auth.Some? {
      ok := WriteAuth(disk, pkg, l, auth.value, t0);
      AppTwice(t, w, disk.fs, l);
    }
  }

  /** Its first step. */
  method InstallFresh(disk: Store, pkg: Package, l: Layout, ghost t0: Tree) returns (ok: bool)
    requires Loaded(pkg) && Valid(l) && Sound(t0, []) && BothStashed(t0, disk.fs, l)
    requires forall p :: l.dest <= p ==> Look(disk.fs, p) == Missing
    modifies disk
    ensures Sound(old(disk.fs), []) ==> Sound(disk.fs, [])
    ensures BothStashed(t0, disk.fs, l) && BothSurvive(t0, disk.fs, l) && BothHeld(t0, disk.fs, l)
    ensures OnlyApp(old(disk.fs), disk.fs, l)
    ensures forall q :: l.live <= q || l.logs <= q || l.auth <= q ==> Look(disk.fs, q) == Missing
    ensures ok ==> IsDir(disk.fs, l.dest)
    ensures NoFileAbove(old(disk.fs), l.dest) ==> NoFileAbove(disk.fs, l.dest)
    ensures NoneInTheWay(disk.fs, l)
    ensures ok ==> forall q :: l.dest <= q ==>
      FileAt(disk.fs, q) == var f := PackageFile(pkg, q[|l.dest|..]); if f.Some? then f else FileAt(old(disk.fs), q)
    ensures disk.faults <= old(disk.faults)
    ensures !ok && Writable(pkg) && NoFileAbove(old(disk.fs), l.dest) ==> disk.faults < old(disk.faults)
  {
    ghost var t := disk.fs;
    ok := InstallTo(disk, pkg, l.dest);
    AfterInstall(t0, t, disk.fs, l);
    if NoFileAbove(t, l.dest) { AboveKept(t, disk.fs, l.dest); }
  }

  /** Its last step. */
  method WriteAuth(disk: Store, pkg: Package, l: Layout, bytes: Bytes, ghost t0: Tree) returns (ok: bool)
    requires Loaded(pkg) && Valid(l) && Sound(t0, []) && Upgraded(pkg, t0, disk.fs, l, None)
    requires IsDir(disk.fs, l.dest) && Look(disk.fs, l.auth) == Missing && NoneInTheWay(disk.fs, l)
    modifies disk
    ensures Sound(old(disk.fs), []) ==> Sound(disk.fs, [])
    ensures BothSurvive(t0, disk.fs, l) && BothHeld(t0, disk.fs, l) && OnlyApp(old(disk.fs), disk.fs, l) &&
      NoneInTheWay(disk.fs, l)
    ensures ok ==> Upgraded(pkg, t0, disk.fs, l, Some(bytes))
    ensures NoFileAbove(old(disk.fs), l.dest) ==> NoFileAbove(disk.fs, l.dest)
    ensures disk.faults <= old(disk.faults) && (!ok ==> disk.faults < old(disk.faults))
  {
    ghost var w := disk.fs;
    assert l.auth[..|l.auth| - 1] == l.dest;
    ok := disk.Write(l.auth, bytes);
    AuthWritten(pkg, t0, w, disk.fs, l, Some(bytes), ok);
    assert forall i :: 0 <= i <= |l.dest| ==> |l.dest[..i]| < |l.auth|;
  }

  lemma AppTwice(t: Tree, u: Tree, v: Tree, l: Layout)
    requires OnlyApp(t, u, l) && OnlyApp(u, v, l)
    ensures OnlyApp(t, v, l)
  {
  }

  /** Both copies, data first. */
  method BringBack(disk: Store, pkg: Package, l: Layout, ghost t0: Tree, ghost t: Tree) returns (ok: bool)
    requires Loaded(pkg) && Valid(l) && Sound(t0, []) && BothStashed(t0, disk.fs, l)
    requires forall p :: l.dest <= p ==> Look(t, p) == Missing
    requires forall q :: l.dest <= q ==>
      FileAt(disk.fs, q) == var f := PackageFile(pkg, q[|l.dest|..]); if f.Some? then f else FileAt(t, q)
    requires IsDir(disk.fs, l.dest)
    requires forall q :: l.live <= q || l.logs <= q || l.auth <= q ==> Look(disk.fs, q) == Missing
    modifies disk
    ensures Sound(old(disk.fs), []) ==> Sound(disk.fs, [])
    ensures BothSurvive(t0, disk.fs, l) && OnlyApp(old(disk.fs), disk.fs, l)
    ensures BothHeld(t0, disk.fs, l) && NoneInTheWay(disk.fs, l)
    ensures ok ==> Upgraded(pkg, t0, disk.fs, l, None)
    ensures IsDir(disk.fs, l.dest) && Look(disk.fs, l.auth) == Missing
    ensures NoFileAbove(old(disk.fs), l.dest) ==> NoFileAbove(disk.fs, l.dest)
    ensures disk.faults <= old(disk.faults)
    ensures !ok && NoFileAbove(old(disk.fs), l.dest) ==> disk.faults < old(disk.faults)
  {
    ghost var u := disk.fs;
    if NoFileAbove(u, l.dest) { AreaFree(u, l, l.live); }
    ok := CopyBack(disk, l.live, l.kept, t0);
    ghost var v := disk.fs;
    OtherArea(t0, u, v, l);
    DestStays(u, v, l, l.live, l.kept);
    if !ok { return; }
    if NoFileAbove(v, l.dest) { AreaFree(v, l, l.logs); }
    ok := CopyBack(disk, l.logs, l.logsKept, t0);
    ghost var w := disk.fs;
    FirstAreaKept(t0, v, w, l);
    DestStays(v, w, l, l.logs, l.logsKept);
    AppTwice(u, v, w, l);
    if ok { OthersInstalled(pkg, t, u, v, w, l); }
  }

  lemma AfterInstall(t0: Tree, t: Tree, u: Tree, l: Layout)
    requires Valid(l) && Sound(t0, []) && BothStashed(t0, t, l) && forall p :: l.dest <= p ==> Look(t, p) == Missing
    requires OnlyBelow(t, u, l.dest) && ReservedKept(t, u, l.dest)
    ensures BothStashed(t0, u, l) && BothSurvive(t0, u, l) && OnlyApp(t, u, l) && BothHeld(t0, u, l)
    ensures forall q :: l.live <= q || l.logs <= q || l.auth <= q ==> Look(u, q) == Missing
  {
    SourceKept(t, u, l.kept, l.dest);
    SourceKept(t, u, l.logsKept, l.dest);
    StashSurvives(t0, u, l.live, l.kept);
    StashSurvives(t0, u, l.logs, l.logsKept);
    forall q | l.live <= q || l.logs <= q || l.auth <= q ensures Look(u, q) == Missing {
      assert l.dest < q && Reserved(q[|l.dest|]);
    }
  }

  /** Bringing the data back leaves the logs and their backup alone. */
  lemma OtherArea(t0: Tree, u: Tree, v: Tree, l: Layout)
    requires Valid(l) && Sound(t0, []) && Stash(t0, u, l.logs, l.logsKept)
    requires forall p :: !(l.live <= p) && !(l.kept <= p) ==>
      Look(v, p) == Look(u, p) || (p <= l.live && Look(u, p) == Missing && Look(v, p) == Dir)
    ensures SameBelow(u, v, l.logs) && SameBelow(u, v, l.logsKept) && Look(v, l.auth) == Look(u, l.auth)
    ensures Held(t0, v, l.logs, l.logsKept)
    ensures Stash(t0, v, l.logs, l.logsKept) && Survives(t0, v, l.logs, l.logsKept) && OnlyApp(u, v, l)
  {
    ApartBelow(u, v, l.live, l.kept, l.logs);
    ApartBelow(u, v, l.live, l.kept, l.logsKept);
    ApartBelow(u, v, l.live, l.kept, l.auth);
    StashSurvives(t0, v, l.logs, l.logsKept);
    InsideOnly(u, v, l, l.live, l.kept);
  }

  /** A change below `a` and `b`, and directories above `a`, leave what is apart from both. */
  lemma ApartBelow(u: Tree, v: Tree, a: Path, b: Path, d: Path)
    requires Apart(a, d) && Apart(b, d)
    requires forall p :: !(a <= p) && !(b <= p) ==>
      Look(v, p) == Look(u, p) || (p <= a && Look(u, p) == Missing && Look(v, p) == Dir)
    ensures SameBelow(u, v, d)
  {
    forall p | d <= p ensures Look(v, p) == Look(u, p) {
      BelowOne(d, a, p);
      BelowOne(d, b, p);
      assert p <= a ==> d <= a;
    }
  }

  lemma InsideOnly(u: Tree, v: Tree, l: Layout, a: Path, b: Path)
    requires Inside(l, a) && (b == l.kept || b == l.logsKept)
    requires forall p :: !(a <= p) && !(b <= p) ==>
      Look(v, p) == Look(u, p) || (p <= a && Look(u, p) == Missing && Look(v, p) == Dir)
    ensures OnlyApp(u, v, l)
  {
    forall p | !(l.dest <= p) && !(l.kept <= p) && !(l.logsKept <= p)
      ensures Look(v, p) == Look(u, p) || (p <= l.dest && Look(u, p) == Missing && Look(v, p) == Dir)
    {
      assert a <= p ==> l.dest <= p;
      if p <= a { Comparable(p, l.dest, a); }
    }
  }

  /** Bringing the logs back leaves the restored data alone. */
  lemma FirstAreaKept(t0: Tree, v: Tree, w: Tree, l: Layout)
    requires Valid(l) && Restored(t0, v, l.live, l.kept) && !IsDir(v, l.kept)
    requires forall p :: !(l.logs <= p) && !(l.logsKept <= p) ==>
      Look(w, p) == Look(v, p) || (p <= l.logs && Look(v, p) == Missing && Look(w, p) == Dir)
    ensures Restored(t0, w, l.live, l.kept) && !IsDir(w, l.kept) && Survives(t0, w, l.live, l.kept)
    ensures OnlyApp(v, w, l) && Held(t0, w, l.live, l.kept)
    ensures Look(w, l.live) == Look(v, l.live) && Look(w, l.auth) == Look(v, l.auth)
  {
    ApartBelow(v, w, l.logs, l.logsKept, l.auth);
    ApartBelow(v, w, l.logs, l.logsKept, l.live);
    ApartBelow(v, w, l.logs, l.logsKept, l.kept);
    RestoredSurvives(t0, w, l.live, l.kept);
    InsideOnly(v, w, l, l.logs, l.logsKept);
  }

  lemma OthersInstalled(pkg: Package, t: Tree, u: Tree, v: Tree, w: Tree, l: Layout)
    requires Loaded(pkg) && Valid(l) && forall p :: l.dest <= p ==> Look(t, p) == Missing
    requires forall q :: l.dest <= q ==>
      FileAt(u, q) == var f := PackageFile(pkg, q[|l.dest|..]); if f.Some? then f else FileAt(t, q)
    requires forall p :: !(l.live <= p) && !(l.kept <= p) ==>
      Look(v, p) == Look(u, p) || (p <= l.live && Look(u, p) == Missing && Look(v, p) == Dir)
    requires forall p :: !(l.logs <= p) && !(l.logsKept <= p) ==>
      Look(w, p) == Look(v, p) || (p <= l.logs && Look(v, p) == Missing && Look(w, p) == Dir)
    ensures OthersAre(pkg, w, l, None)
  {
    forall q | l.dest <= q && !(l.live <= q) && !(l.logs <= q) ensures FileAt(w, q) == PackageFile(pkg, q[|l.dest|..]) {
      BelowOne(l.dest, l.kept, q);
      BelowOne(l.dest, l.logsKept, q);
      assert FileAt(v, q) == FileAt(u, q) && FileAt(w, q) == FileAt(v, q);
    }
  }

  lemma AuthWritten(pkg: Package, t0: Tree, w: Tree, x: Tree, l: Layout, auth: Option<Bytes>, ok: bool)
    requires Loaded(pkg) && Valid(l) && Sound(t0, []) && auth.Some? && Upgraded(pkg, t0, w, l, None)
    requires forall q :: q != l.auth ==> Look(x, q) == Look(w, q)
    requires ok ==> Look(x, l.auth) == File(auth.value)
    ensures BothSurvive(t0, x, l) && OnlyApp(w, x, l) && BothHeld(t0, x, l)
    ensures Look(x, l.live) == Look(w, l.live) && Look(x, l.logs) == Look(w, l.logs)
    ensures ok ==> Upgraded(pkg, t0, x, l, auth)
  {
    assert !(l.live <= l.auth) && !(l.logs <= l.auth) && l.kept != l.auth && l.logsKept != l.auth;
    assert Restored(t0, x, l.live, l.kept) && Restored(t0, x, l.logs, l.logsKept);
    RestoredSurvives(t0, x, l.live, l.kept);
    RestoredSurvives(t0, x, l.logs, l.logsKept);
  }

  /** The old live files are back in `live`, or something else stands in their place there. */
  ghost predicate Settled(t0: Tree, t: Tree, live: Path, kept: Path) { InLive(t0, t, live, kept) || !Empty(t, live) }

  ghost predicate BothSettled(t0: Tree, t: Tree, l: Layout) {
    Settled(t0, t, l.live, l.kept) && Settled(t0, t, l.logs, l.logsKept)
  }

  lemma HeldKept(t0: Tree, t: Tree, u: Tree, live: Path, kept: Path)
    requires Held(t0, t, live, kept) && SameFilesBelow(t, u, live) && SameFilesBelow(t, u, kept)
    requires IsDir(t, kept) ==> IsDir(u, kept)
    ensures Held(t0, u, live, kept)
  {
    forall q | live < q
      ensures FileAt(u, q) == FileAt(t, q) && FileAt(u, Rebase(q, live, kept)) == FileAt(t, Rebase(q, live, kept))
    {
      RebaseBack(q, live, kept);
    }
  }

  lemma SettledKept(t0: Tree, t: Tree, u: Tree, live: Path, kept: Path)
    requires SameBelow(t, u, live)
    ensures Settled(t0, t, live, kept) ==> Settled(t0, u, live, kept)
  {
    if !Empty(t, live) {
      var p :| live < p && Look(t, p) != Missing;
      assert Look(u, p) != Missing;
    }
  }

  /** Puts back what it can; every step's failure is ignored. With no fault left it settles
      both directories. */
  method RollBack(disk: Store, l: Layout, auth: Option<Bytes>, ghost t0: Tree)
    requires Valid(l) && BothHeld(t0, disk.fs, l) && NoneInTheWay(disk.fs, l)
    modifies disk
    ensures Sound(old(disk.fs), []) ==> Sound(disk.fs, [])
    ensures BothSurvive(t0, disk.fs, l) && OnlyApp(old(disk.fs), disk.fs, l)
    ensures old(disk.faults) == 0 && NoFileAbove(old(disk.fs), l.dest) ==> BothSettled(t0, disk.fs, l)
  {
    if IsDir(disk.fs, l.kept) || IsDir(disk.fs, l.logsKept) || auth.Some? {
      ghost var t := disk.fs;
      RollBackDirs(disk, l, t0);
      if auth.Some? {
        ghost var w := disk.fs;
        var ok := disk.Write(l.auth, auth.value);
        AuthOnly(t0, w, disk.fs, l);
        AppTwice(t, w, disk.fs, l);
      }
    }
  }

  /** The directories' part of it. */
  method RollBackDirs(disk: Store, l: Layout, ghost t0: Tree)
    requires Valid(l) && BothHeld(t0, disk.fs, l) && NoneInTheWay(disk.fs, l)
    modifies disk
    ensures Sound(old(disk.fs), []) ==> Sound(disk.fs, [])
    ensures BothSurvive(t0, disk.fs, l) && OnlyApp(old(disk.fs), disk.fs, l)
    ensures old(disk.faults) == 0 && NoFileAbove(old(disk.fs), l.dest) ==> BothSettled(t0, disk.fs, l)
  {
    ghost var t := disk.fs;
    var ok := disk.CreateDirAll(l.dest);
    ghost var u := disk.fs;
    FilesSame(t0, t, u, l);
    PutBack(disk, l.live, l.kept, l.logs, l.logsKept, l, t0);
    ghost var v := disk.fs;
    HeldKept(t0, u, v, l.logs, l.logsKept);
    AppTwice(t, u, v, l);
    PutBack(disk, l.logs, l.logsKept, l.live, l.kept, l, t0);
    ghost var w := disk.fs;
    SurvivesKept(t0, v, w, l.live, l.kept);
    if old(disk.faults) == 0 && NoFileAbove(t, l.dest) {
      assert IsDir(u, l.dest);
      assert IsDir(v, l.dest);
      assert Settled(t0, v, l.live, l.kept);
      assert Settled(t0, w, l.logs, l.logsKept);
      SettledKept(t0, v, w, l.live, l.kept);
    }
    AppTwice(t, v, w, l);
  }

  lemma FilesSame(t0: Tree, t: Tree, u: Tree, l: Layout)
    requires BothHeld(t0, t, l)
    requires forall p :: Look(u, p) == Look(t, p) || (p <= l.dest && Look(t, p) == Missing && Look(u, p) == Dir)
    ensures BothHeld(t0, u, l) && OnlyApp(t, u, l) && (NoneInTheWay(t, l) ==> NoneInTheWay(u, l))
  {
    assert forall p :: FileAt(u, p) == FileAt(t, p);
    HeldKept(t0, t, u, l.live, l.kept);
    HeldKept(t0, t, u, l.logs, l.logsKept);
  }

  /** One directory of the rollback; the other is left alone. */
  method PutBack(disk: Store, live: Path, kept: Path, otherLive: Path, otherKept: Path, l: Layout, ghost t0: Tree)
    requires Apart(live, kept) && Apart(live, otherLive) && Apart(live, otherKept) && Apart(kept, otherLive) &&
      Apart(kept, otherKept)
    requires Inside(l, live) && Apart(l.dest, kept) && (kept == l.kept || kept == l.logsKept)
    requires Held(t0, disk.fs, live, kept) && !Look(disk.fs, live).File?
    modifies disk
    ensures Sound(old(disk.fs), []) ==> Sound(disk.fs, [])
    ensures Survives(t0, disk.fs, live, kept) && OnlyApp(old(disk.fs), disk.fs, l)
    ensures SameBelow(old(disk.fs), disk.fs, otherLive) && SameBelow(old(disk.fs), disk.fs, otherKept)
    ensures Look(disk.fs, l.dest) == Look(old(disk.fs), l.dest) && disk.faults <= old(disk.faults)
    ensures old(disk.faults) == 0 && IsDir(old(disk.fs), l.dest) ==> Settled(t0, disk.fs, live, kept)
  {
    ghost var t := disk.fs;
    assert live[..|live| - 1] == l.dest;
    if IsDir(disk.fs, kept) {
      var ok := disk.Rename(kept, live);
      if ok {
        RenameBackSurvives(t0, t, disk.fs, live, kept);
        MovedApart(t, disk.fs, kept, live, otherLive);
        MovedApart(t, disk.fs, kept, live, otherKept);
        DestUnmoved(t, disk.fs, l, live, kept);
      }
    }
  }

  lemma DestUnmoved(t: Tree, u: Tree, l: Layout, live: Path, kept: Path)
    requires l.dest < live && Apart(l.dest, kept) && (kept == l.kept || kept == l.logsKept)
    requires forall p :: Look(u, p) == MovedLook(t, kept, live, p)
    ensures Look(u, l.dest) == Look(t, l.dest) && OnlyApp(t, u, l)
  {
    forall p | !(l.dest <= p) && !(kept <= p) ensures Look(u, p) == Look(t, p) { assert live <= p ==> l.dest <= p; }
  }

  lemma MovedApart(t: Tree, u: Tree, from: Path, to: Path, d: Path)
    requires Apart(from, d) && Apart(to, d) && forall p :: Look(u, p) == MovedLook(t, from, to, p)
    ensures SameBelow(t, u, d)
  {
    forall p | d <= p ensures Look(u, p) == Look(t, p) {
      BelowOne(d, from, p);
      BelowOne(d, to, p);
    }
  }

  lemma AuthOnly(t0: Tree, w: Tree, x: Tree, l: Layout)
    requires Valid(l) && BothSurvive(t0, w, l) && forall q :: q != l.auth ==> Look(x, q) == Look(w, q)
    ensures BothSurvive(t0, x, l) && OnlyApp(w, x, l) && (BothSettled(t0, w, l) ==> BothSettled(t0, x, l))
  {
    assert !(l.live <= l.auth) && !(l.logs <= l.auth) && !(l.kept <= l.auth) && !(l.logsKept <= l.auth);
    SurvivesKept(t0, w, x, l.live, l.kept);
    SurvivesKept(t0, w, x, l.logs, l.logsKept);
    SettledKept(t0, w, x, l.live, l.kept);
    SettledKept(t0, w, x, l.logs, l.logsKept);
  }

  /** Setting one area aside leaves what is apart from it as it was. */
  lemma AsideApart(t: Tree, u: Tree, a: Path, b: Path, d: Path)
    requires Apart(a, d) && Apart(b, d) && OnlyIn(t, u, a, b)
    ensures SameBelow(t, u, d)
  {
    forall p | d <= p ensures Look(u, p) == Look(t, p) {
      BelowOne(d, a, p);
      BelowOne(d, b, p);
    }
  }

  lemma NothingLost(t0: Tree, t: Tree, live: Path, kept: Path)
    requires SameBelow(t0, t, live) && SameBelow(t0, t, kept)
    ensures Survives(t0, t, live, kept)
  {
    forall q | live < q
      ensures FileAt(t, q) == FileAt(t0, q) && FileAt(t, Rebase(q, live, kept)) == FileAt(t0, Rebase(q, live, kept))
    {
      RebaseBack(q, live, kept);
    }
  }

  lemma InsideApp(t: Tree, u: Tree, l: Layout, a: Path, b: Path)
    requires l.dest <= a && (b == l.kept || b == l.logsKept) && OnlyIn(t, u, a, b)
    ensures OnlyApp(t, u, l)
  {
    forall p | !(l.dest <= p) && !(l.kept <= p) && !(l.logsKept <= p) ensures Look(u, p) == Look(t, p) {
      assert a <= p ==> l.dest <= p;
    }
  }

  /** After the data was set aside, or the attempt failed. */
  lemma DataAside(t0: Tree, t: Tree, l: Layout)
    requires Valid(l) && OnlyIn(t0, t, l.live, l.kept) && Survives(t0, t, l.live, l.kept)
    ensures SameBelow(t0, t, l.logs) && SameBelow(t0, t, l.logsKept) && Look(t, l.auth) == Look(t0, l.auth)
    ensures BothSurvive(t0, t, l) && OnlyApp(t0, t, l)
  {
    AsideApart(t0, t, l.live, l.kept, l.logs);
    AsideApart(t0, t, l.live, l.kept, l.logsKept);
    AsideApart(t0, t, l.live, l.kept, l.auth);
    NothingLost(t0, t, l.logs, l.logsKept);
    InsideApp(t0, t, l, l.live, l.kept);
  }

  /** After the logs were set aside too, or that attempt failed. */
  lemma LogsAside(t0: Tree, t: Tree, u: Tree, l: Layout)
    requires Valid(l) && Sound(t0, []) && Stash(t0, t, l.live, l.kept)
    requires SameBelow(t0, t, l.logs) && SameBelow(t0, t, l.logsKept)
    requires OnlyIn(t, u, l.logs, l.logsKept) && Survives(t, u, l.logs, l.logsKept)
    ensures BothSurvive(t0, u, l) && OnlyApp(t, u, l) && Stash(t0, u, l.live, l.kept)
    ensures NoFiles(t, l.live) ==> NoFiles(u, l.live)
  {
    AsideApart(t, u, l.logs, l.logsKept, l.kept);
    AsideApart(t, u, l.logs, l.logsKept, l.live);
    StashSurvives(t0, u, l.live, l.kept);
    InsideApp(t, u, l, l.logs, l.logsKept);
    SurvivesFrom(t0, t, u, l.logs, l.logsKept);
    NoFilesStay(t, u, l.live);
  }

  lemma SurvivesFrom(t0: Tree, t: Tree, u: Tree, live: Path, kept: Path)
    requires SameBelow(t0, t, live) && SameBelow(t0, t, kept) && Survives(t, u, live, kept)
    ensures Survives(t0, u, live, kept)
  {
    forall q | live < q ensures Owed(t, live, kept, q) == Owed(t0, live, kept, q) {
      RebaseBack(q, live, kept);
      assert Look(t, live) == Look(t0, live);
    }
  }

  lemma NoFilesStay(t: Tree, u: Tree, d: Path)
    requires SameBelow(t, u, d)
    ensures NoFiles(t, d) ==> NoFiles(u, d)
  {
    forall q | d < q ensures FileAt(u, q) == FileAt(t, q) { assert Look(u, q) == Look(t, q); }
  }

  lemma SameStash(t0: Tree, t: Tree, u: Tree, live: Path, kept: Path)
    requires SameBelow(t0, t, live) && SameBelow(t0, t, kept) && Stash(t, u, live, kept)
    ensures Stash(t0, u, live, kept)
  {
    forall p | kept <= p ensures Look(u, p) == StashLook(t0, live, kept, p) {
      assert live <= Rebase(p, kept, live);
      assert Look(u, p) == StashLook(t, live, kept, p);
    }
  }

  /** After the old directory was removed, or part of it. */
  lemma OldGone(t0: Tree, t: Tree, u: Tree, l: Layout)
    requires Valid(l) && Sound(t0, []) && BothStashed(t0, t, l)
    requires forall p :: !(l.dest <= p) ==> Look(u, p) == Look(t, p)
    ensures BothStashed(t0, u, l) && BothSurvive(t0, u, l) && OnlyApp(t, u, l)
  {
    forall p | l.kept <= p || l.logsKept <= p ensures Look(u, p) == Look(t, p) {
      if l.kept <= p { BelowOne(l.kept, l.dest, p); } else { BelowOne(l.logsKept, l.dest, p); }
    }
    StashSurvives(t0, u, l.live, l.kept);
    StashSurvives(t0, u, l.logs, l.logsKept);
  }

  /** Where `place` stopped. */
  datatype Outcome =
    | Placed
    | AlreadyThere
    | FreshFailed
    | DataAsideFailed
    | LogsAsideFailed
    | RemoveFailed
    | ReinstallFailed

  /** Nothing but faults can stop an upgrade from getting to the reinstallation. */
  ghost predicate Ready(t: Tree, l: Layout)
    requires Valid(l)
  {
    IsDir(t, []) && IsDir(t, l.dest) && CanTake(t, l.kept) && CanTake(t, l.logsKept)
  }

  /** What an upgrade that stopped early left of the old data and logs. */
  ghost predicate StoppedEarly(t0: Tree, t: Tree, l: Layout, o: Outcome) {
    match o
    case DataAsideFailed => SameBelow(t0, t, l.live) && SameBelow(t0, t, l.logs)
    case LogsAsideFailed => Stash(t0, t, l.live, l.kept) && NoFiles(t, l.live) && SameBelow(t0, t, l.logs)
    case RemoveFailed => BothStashed(t0, t, l) && NoFiles(t, l.live) && NoFiles(t, l.logs)
    case _ => true
  }

  lemma ReadyForLogs(t0: Tree, t: Tree, l: Layout)
    requires Valid(l) && OnlyIn(t0, t, l.live, l.kept) && SameBelow(t0, t, l.logsKept)
    ensures Look(t, []) == Look(t0, []) && Look(t, l.dest) == Look(t0, l.dest)
    ensures CanTake(t0, l.logsKept) ==> CanTake(t, l.logsKept)
  {
    assert l.logsKept[..0] == [];
  }

  /** Setting data and logs aside, and reading `auth.json` in between; the outcome is
      Placed if both worked. */
  method SetBothAside(disk: Store, l: Layout) returns (o: Outcome, auth: Option<Bytes>)
    requires Valid(l) && Sound(disk.fs, [])
    modifies disk
    ensures Sound(disk.fs, [])
    ensures o in {Placed, DataAsideFailed, LogsAsideFailed}
    ensures BothSurvive(old(disk.fs), disk.fs, l) && OnlyApp(old(disk.fs), disk.fs, l) &&
      StoppedEarly(old(disk.fs), disk.fs, l, o)
    ensures o.Placed? ==> BothStashed(old(disk.fs), disk.fs, l) && NoFiles(disk.fs, l.live) && NoFiles(disk.fs, l.logs)
    ensures auth.Some? ==> FileAt(old(disk.fs), l.auth) == auth
    ensures Look(disk.fs, []) == Look(old(disk.fs), []) && Look(disk.fs, l.dest) == Look(old(disk.fs), l.dest)
    ensures disk.faults <= old(disk.faults) && (!o.Placed? && Ready(old(disk.fs), l) ==> disk.faults < old(disk.faults))
    ensures o.Placed? && auth != FileAt(old(disk.fs), l.auth) ==> disk.faults < old(disk.faults)
  {
    ghost var t0 := disk.fs;
    auth := None;
    var ok := SetAside(disk, l.live, l.kept);
    ghost var t := disk.fs;
    DataAside(t0, t, l);
    ReadyForLogs(t0, t, l);
    if !ok { return DataAsideFailed, None; }
    auth := disk.Read(l.auth);
    ok := SetAside(disk, l.logs, l.logsKept);
    ghost var u := disk.fs;
    LogsAside(t0, t, u, l);
    if ok { SameStash(t0, t, u, l.logs, l.logsKept); }
    RootStays(t, u, l);
    AppTwice(t0, t, u, l);
    if ok { o := Placed; } else { o := LogsAsideFailed; }
  }

  lemma RootStays(t: Tree, u: Tree, l: Layout)
    requires Valid(l) && OnlyIn(t, u, l.logs, l.logsKept)
    ensures Look(u, []) == Look(t, []) && Look(u, l.dest) == Look(t, l.dest)
  {
  }

  /** Upgrading an app that is installed; `auth` is what could be read of its `auth.json`. */
  method UpgradeApp(disk: Store, pkg: Package, l: Layout) returns (o: Outcome, auth: Option<Bytes>)
    requires Loaded(pkg) && Valid(l) && Sound(disk.fs, [])
    modifies disk
    ensures Sound(disk.fs, [])
    ensures BothSurvive(old(disk.fs), disk.fs, l) && OnlyApp(old(disk.fs), disk.fs, l) &&
      StoppedEarly(old(disk.fs), disk.fs, l, o)
    ensures auth.Some? ==> FileAt(old(disk.fs), l.auth) == auth
    ensures o !in {AlreadyThere, FreshFailed}
    ensures o.Placed? ==> Upgraded(pkg, old(disk.fs), disk.fs, l, auth)
    ensures o.Placed? && old(disk.faults) == 0 ==> auth == FileAt(old(disk.fs), l.auth)
    ensures Writable(pkg) && Ready(old(disk.fs), l) && old(disk.faults) == 0 ==> o.Placed?
    ensures Writable(pkg) && Ready(old(disk.fs), l) && old(disk.faults) <= 1 && o.ReinstallFailed? ==>
      BothSettled(old(disk.fs), disk.fs, l)
  {
    ghost var t0 := disk.fs;
    o, auth := SetBothAside(disk, l);
    if !o.Placed? { return; }
    ghost var u := disk.fs;
    var ok := disk.RemoveDirAll(l.dest);
    ghost var v := disk.fs;
    OldGone(t0, u, v, l);
    AppTwice(t0, u, v, l);
    assert forall q :: FileAt(v, q) == FileAt(u, q) || FileAt(v, q) == None;
    if !ok { return RemoveFailed, auth; }
    ClearedAbove(u, v, l);
    ok := Reinstall(disk, pkg, l, auth, t0);
    ghost var w := disk.fs;
    AppTwice(t0, v, w, l);
    if !ok {
      RollBack(disk, l, auth, t0);
      AppTwice(t0, w, disk.fs, l);
      o := ReinstallFailed;
    }
  }

  lemma ClearedAbove(u: Tree, v: Tree, l: Layout)
    requires Valid(l) && forall p :: Look(v, p) == if l.dest <= p then Missing else Look(u, p)
    ensures IsDir(u, []) ==> NoFileAbove(v, l.dest) && IsDir(v, [])
  {
    assert l.dest[..0] == [] && l.dest[..1] == l.dest;
  }

  lemma NotInstalled(t: Tree, l: Layout)
    requires Valid(l) && Sound(t, []) && !Exists(t, l.dest)
    ensures (forall q :: l.dest <= q ==> Look(t, q) == Missing) && (IsDir(t, []) ==> Free(t, l.dest))
  {
    forall q | l.dest <= q ensures Look(t, q) == Missing { NothingBelow(t, l.dest, q); }
    assert l.dest[..0] == [] && l.dest[..1] == l.dest;
  }

  lemma NothingBelow(t: Tree, d: Path, q: Path)
    requires Sound(t, []) && !Exists(t, d) && d <= q
    ensures !Exists(t, q)
  {
    if q != d && Exists(t, q) {
      assert d < q;
      SoundChain(t, [], d, q);
    }
  }

  /** A first installation. */
  method PlaceFresh(disk: Store, pkg: Package, l: Layout) returns (ok: bool)
    requires Loaded(pkg) && Valid(l) && Sound(disk.fs, []) && !Exists(disk.fs, l.dest)
    modifies disk
    ensures Sound(disk.fs, [])
    ensures BothSurvive(old(disk.fs), disk.fs, l) && OnlyApp(old(disk.fs), disk.fs, l)
    ensures ok ==> forall q :: l.dest <= q ==> FileAt(disk.fs, q) == PackageFile(pkg, q[|l.dest|..])
    ensures !ok && Writable(pkg) && IsDir(old(disk.fs), []) ==> disk.faults < old(disk.faults)
  {
    ghost var t := disk.fs;
    NotInstalled(t, l);
    ok := InstallTo(disk, pkg, l.dest);
    FreshInstalled(t, disk.fs, l);
  }

  lemma FreshInstalled(t0: Tree, t: Tree, l: Layout)
    requires Valid(l) && OnlyBelow(t0, t, l.dest) && forall q :: l.dest <= q ==> Look(t0, q) == Missing
    ensures BothSurvive(t0, t, l) && OnlyApp(t0, t, l)
  {
    SourceKept(t0, t, l.kept, l.dest);
    SourceKept(t0, t, l.logsKept, l.dest);
    assert Look(t0, l.live) == Missing && Look(t0, l.logs) == Missing;
    LeftoverStays(t0, t, l.live, l.kept);
    LeftoverStays(t0, t, l.logs, l.logsKept);
  }

  lemma LeftoverStays(t0: Tree, t: Tree, live: Path, kept: Path)
    requires !IsDir(t0, live) && SameBelow(t0, t, kept)
    ensures Survives(t0, t, live, kept)
  {
    forall q | live < q ensures FileAt(t, Rebase(q, live, kept)) == FileAt(t0, Rebase(q, live, kept)) {
      RebaseBack(q, live, kept);
    }
  }

  /** What one call leaves of the tree `t`, whatever step it stopped at. */
  ghost predicate Leaves(pkg: Package, t: Tree, u: Tree, l: Layout, o: Outcome, auth: Option<Bytes>)
    requires Loaded(pkg)
  {
    && Sound(u, []) && BothSurvive(t, u, l) && OnlyApp(t, u, l) && StoppedEarly(t, u, l, o)
    && (auth.Some? ==> FileAt(t, l.auth) == auth)
    && (o.AlreadyThere? ==> u == t)
    && (o.Placed? && Exists(t, l.dest) ==> Upgraded(pkg, t, u, l, auth))
    && (o.Placed? && !Exists(t, l.dest) ==> forall q :: l.dest <= q ==> FileAt(u, q) == PackageFile(pkg, q[|l.dest|..]))
  }

  /** The source's `place`, up to provisioning: where it stopped, and what it had read of
      the old `auth.json`. */
  method PlaceApp(disk: Store, id: string, pkg: Package, upgrade: bool) returns (o: Outcome, auth: Option<Bytes>)
    requires Loaded(pkg) && Sound(disk.fs, [])
    modifies disk
    ensures Valid(LayoutOf(id)) && Leaves(pkg, old(disk.fs), disk.fs, LayoutOf(id), o, auth)
    ensures o.AlreadyThere? <==> Exists(old(disk.fs), [id]) && !upgrade
    ensures o.Placed? && Exists(old(disk.fs), [id]) && old(disk.faults) == 0 ==>
      auth == FileAt(old(disk.fs), LayoutOf(id).auth)
    ensures Writable(pkg) && old(disk.faults) == 0 && CanPlace(old(disk.fs), LayoutOf(id), upgrade) ==> o.Placed?
    ensures Writable(pkg) && old(disk.faults) <= 1 && Ready(old(disk.fs), LayoutOf(id)) && o.ReinstallFailed?
      ==> BothSettled(old(disk.fs), disk.fs, LayoutOf(id))
  {
    LayoutIsValid(id);
    var l := LayoutOf(id);
    auth := None;
    if Exists(disk.fs, l.dest) {
      if !upgrade {
        NothingLost(disk.fs, disk.fs, l.live, l.kept);
        NothingLost(disk.fs, disk.fs, l.logs, l.logsKept);
        return AlreadyThere, None;
      }
      o, auth := UpgradeApp(disk, pkg, l);
    } else {
      var ok := PlaceFresh(disk, pkg, l);
      if ok { o := Placed; } else { o := FreshFailed; }
    }
  }

  /** Only faults can keep the app from being placed. */
  ghost predicate CanPlace(t: Tree, l: Layout, upgrade: bool)
    requires Valid(l)
  {
    IsDir(t, []) && (Exists(t, l.dest) ==> upgrade && Ready(t, l))
  }
}
