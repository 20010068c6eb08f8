/** A second upgrade after one that may have failed: when it loses nothing. */
module UpgradeTwice {
  import opened Prelude
  import opened Disk
  import opened Install
  import opened Upgrade
  import opened Aside
  import opened Place

  /** A call that starts from `t` owes every file that one from `t0` owed. */
  ghost predicate StillOwed(t0: Tree, t: Tree, live: Path, kept: Path) {
    forall q :: live < q && Owed(t0, live, kept, q).Some? ==> Owed(t, live, kept, q) == Owed(t0, live, kept, q)
  }

  /** The same as something to look at between the two calls: the live directory holds
      all owed files, or there is none and the backup does. */
  lemma StillOwedIs(t0: Tree, t: Tree, live: Path, kept: Path)
    requires Sound(t, [])
    ensures StillOwed(t0, t, live, kept) <==>
      InLive(t0, t, live, kept) || (!IsDir(t, live) && InKept(t0, t, live, kept))
  {
    if !IsDir(t, live) { NotADirectory(t, live); }
  }

  /** What was owed twice survives both calls, wherever the second one stopped. */
  lemma SurvivesBoth(t0: Tree, t: Tree, u: Tree, live: Path, kept: Path)
    requires StillOwed(t0, t, live, kept) && Survives(t, u, live, kept)
    ensures Survives(t0, u, live, kept)
  {
    if InLive(t, u, live, kept) {
      assert InLive(t0, u, live, kept);
    } else {
      assert InKept(t0, u, live, kept);
    }
  }

  /** The second call moved exactly what it owed: into the backup, or on into the new live
      directory. */
  ghost predicate Moved(t: Tree, u: Tree, live: Path, kept: Path) {
    || (Stash(t, u, live, kept) && NoFiles(u, live))
    || (Restored(t, u, live, kept) && !IsDir(u, kept))
  }

  lemma MovedKeepsOnlyOwed(t0: Tree, t: Tree, u: Tree, live: Path, kept: Path)
    requires Sound(t, []) && Sound(u, []) && Moved(t, u, live, kept) && Survives(t0, u, live, kept)
    ensures StillOwed(t0, t, live, kept)
  {
    if Stash(t, u, live, kept) && NoFiles(u, live) {
      forall q | live < q && Owed(t0, live, kept, q).Some? ensures Owed(t, live, kept, q) == Owed(t0, live, kept, q) {
        RebaseBack(q, live, kept);
        assert Look(u, Rebase(q, live, kept)) == StashLook(t, live, kept, Rebase(q, live, kept));
      }
    } else {
      NotADirectory(u, kept);
      forall q | live < q && Owed(t0, live, kept, q).Some? ensures Owed(t, live, kept, q) == Owed(t0, live, kept, q) {
        RebaseBack(q, live, kept);
        assert kept < Rebase(q, live, kept);
      }
    }
  }

  /** Which calls got as far as moving the old data. */
  predicate DataMoved(o: Outcome) { o in {Placed, LogsAsideFailed, RemoveFailed} }

  predicate LogsMoved(o: Outcome) { o in {Placed, RemoveFailed} }

  /** Two calls in a row, from any tree `t0`, the first with any outcome: what the first one
      owed survives the second, wherever that stops, if it is still owed in between, and
      only then if the second one got as far as moving it. */
  lemma SecondUpgrade(first: Package, second: Package, t0: Tree, t: Tree, u: Tree, l: Layout,
                      o1: Outcome, auth1: Option<Bytes>, o2: Outcome, auth2: Option<Bytes>)
    requires Loaded(first) && Loaded(second) && Valid(l)
    requires Leaves(first, t0, t, l, o1, auth1) && Leaves(second, t, u, l, o2, auth2)
    ensures StillOwed(t0, t, l.live, l.kept) ==> Survives(t0, u, l.live, l.kept)
    ensures StillOwed(t0, t, l.logs, l.logsKept) ==> Survives(t0, u, l.logs, l.logsKept)
    ensures DataMoved(o2) && Survives(t0, u, l.live, l.kept) ==> StillOwed(t0, t, l.live, l.kept)
    ensures LogsMoved(o2) && Survives(t0, u, l.logs, l.logsKept) ==> StillOwed(t0, t, l.logs, l.logsKept)
  {
    if StillOwed(t0, t, l.live, l.kept) { SurvivesBoth(t0, t, u, l.live, l.kept); }
    if StillOwed(t0, t, l.logs, l.logsKept) { SurvivesBoth(t0, t, u, l.logs, l.logsKept); }
    OnlyOwedStays(second, t0, t, u, l, o2, auth2);
  }

  lemma OnlyOwedStays(pkg: Package, t0: Tree, t: Tree, u: Tree, l: Layout, o: Outcome, auth: Option<Bytes>)
    requires Loaded(pkg) && Valid(l) && Sound(t, []) && BothSurvive(t0, t, l) && Leaves(pkg, t, u, l, o, auth)
    ensures DataMoved(o) && Survives(t0, u, l.live, l.kept) ==> StillOwed(t0, t, l.live, l.kept)
    ensures LogsMoved(o) && Survives(t0, u, l.logs, l.logsKept) ==> StillOwed(t0, t, l.logs, l.logsKept)
  {
    if o.Placed? && !Exists(t, l.dest) {
      NothingLive(t0, t, l.dest, l.live, l.kept);
      NothingLive(t0, t, l.dest, l.logs, l.logsKept);
    } else {
      if DataMoved(o) && Survives(t0, u, l.live, l.kept) {
        DataWasMoved(pkg, t, u, l, o, auth);
        MovedKeepsOnlyOwed(t0, t, u, l.live, l.kept);
      }
      if LogsMoved(o) && Survives(t0, u, l.logs, l.logsKept) {
        DataWasMoved(pkg, t, u, l, o, auth);
        MovedKeepsOnlyOwed(t0, t, u, l.logs, l.logsKept);
      }
    }
  }

  lemma DataWasMoved(pkg: Package, t: Tree, u: Tree, l: Layout, o: Outcome, auth: Option<Bytes>)
    requires Loaded(pkg) && Leaves(pkg, t, u, l, o, auth) && (o.Placed? ==> Exists(t, l.dest))
    ensures DataMoved(o) ==> Moved(t, u, l.live, l.kept)
    ensures LogsMoved(o) ==> Moved(t, u, l.logs, l.logsKept)
  {
  }

  lemma NothingLive(t0: Tree, t: Tree, dest: Path, live: Path, kept: Path)
    requires Sound(t, []) && !Exists(t, dest) && dest < live && Survives(t0, t, live, kept)
    ensures StillOwed(t0, t, live, kept)
  {
    NothingBelow(t, dest, live);
    StillOwedIs(t0, t, live, kept);
  }

  // ----- a partial directory beside a full backup ------------------------------------------

  function Before(l: Layout, a: string, b: string, bytes: Bytes): Tree {
    map[[] := Dir, l.dest := Dir, l.live := Dir, l.live + [a] := File(bytes), l.live + [b] := File(bytes)]
  }

  function Between(l: Layout, a: string, b: string, bytes: Bytes): Tree {
    map[[] := Dir, l.dest := Dir, l.live := Dir, l.live + [a] := File(bytes),
        l.kept := Dir, l.kept + [a] := File(bytes), l.kept + [b] := File(bytes)]
  }

  lemma BeforeLooks(l: Layout, a: string, b: string, bytes: Bytes, p: Path)
    requires Valid(l)
    ensures Look(Before(l, a, b, bytes), p) ==
      if p == [] || p == l.dest || p == l.live then Dir
      else if p == l.live + [a] || p == l.live + [b] then File(bytes) else Missing
  {
  }

  lemma BetweenLooks(l: Layout, a: string, b: string, bytes: Bytes, p: Path)
    requires Valid(l)
    ensures Look(Between(l, a, b, bytes), p) ==
      if p == [] || p == l.dest || p == l.live || p == l.kept then Dir
      else if p == l.live + [a] || p == l.kept + [a] || p == l.kept + [b] then File(bytes) else Missing
  {
    assert l.kept <= l.kept + [a] && l.kept <= l.kept + [b];
    assert l.dest <= l.live <= l.live + [a];
  }

  lemma BothSound(l: Layout, a: string, b: string, bytes: Bytes)
    requires Valid(l)
    ensures Sound(Before(l, a, b, bytes), []) && Sound(Between(l, a, b, bytes), [])
  {
    var t0, t := Before(l, a, b, bytes), Between(l, a, b, bytes);
    assert l.dest[..0] == [] && l.kept[..0] == [] && l.live[..1] == l.dest;
    assert (l.live + [a])[..2] == l.live && (l.live + [b])[..2] == l.live;
    assert (l.kept + [a])[..1] == l.kept && (l.kept + [b])[..1] == l.kept;
    forall p | [] < p && Exists(t0, p) ensures IsDir(t0, p[..|p| - 1]) {
      BeforeLooks(l, a, b, bytes, p);
      BeforeLooks(l, a, b, bytes, p[..|p| - 1]);
    }
    forall p | [] < p && Exists(t, p) ensures IsDir(t, p[..|p| - 1]) {
      BetweenLooks(l, a, b, bytes, p);
      BetweenLooks(l, a, b, bytes, p[..|p| - 1]);
    }
  }

  lemma BothSurviveFirst(l: Layout, a: string, b: string, bytes: Bytes)
    requires Valid(l)
    ensures BothSurvive(Before(l, a, b, bytes), Between(l, a, b, bytes), l)
  {
    var t0, t := Before(l, a, b, bytes), Between(l, a, b, bytes);
    BeforeLooks(l, a, b, bytes, l.live);
    forall q | l.live < q && Owed(t0, l.live, l.kept, q).Some?
      ensures FileAt(t, Rebase(q, l.live, l.kept)) == Owed(t0, l.live, l.kept, q)
    {
      BeforeLooks(l, a, b, bytes, q);
      BetweenLooks(l, a, b, bytes, Rebase(q, l.live, l.kept));
      assert q == l.live + q[|l.live|..];
      assert Rebase(q, l.live, l.kept) == l.kept + q[|l.live|..];
    }
    BeforeLooks(l, a, b, bytes, l.logs);
    assert !(l.logs <= l.live) && !(l.live <= l.logs) && |l.logs| == 2;
    forall q | l.logs < q ensures Owed(t0, l.logs, l.logsKept, q) == None {
      var r := Rebase(q, l.logs, l.logsKept);
      RebaseBack(q, l.logs, l.logsKept);
      BeforeLooks(l, a, b, bytes, r);
      assert l.logsKept <= r;
      assert l.dest <= l.live <= l.live + [a] && l.dest <= l.live + [b];
      BelowOne(l.logsKept, l.dest, r);
    }
    assert InKept(t0, t, l.live, l.kept);
    assert InLive(t0, t, l.logs, l.logsKept);
  }

  lemma BetweenIsReady(l: Layout, a: string, b: string, bytes: Bytes)
    requires Valid(l)
    ensures CanPlace(Between(l, a, b, bytes), l, true)
  {
    var t := Between(l, a, b, bytes);
    assert l.kept[..0] == [] && l.logsKept[..0] == [];
    BetweenLooks(l, a, b, bytes, []);
    BetweenLooks(l, a, b, bytes, l.dest);
    BetweenLooks(l, a, b, bytes, l.kept);
    forall p | l.logsKept <= p ensures Look(t, p) == Missing {
      BetweenLooks(l, a, b, bytes, p);
      assert l.kept <= l.kept + [a] && l.kept <= l.kept + [b] && l.dest <= l.live <= l.live + [a];
      BelowOne(l.logsKept, l.kept, p);
      BelowOne(l.logsKept, l.dest, p);
    }
  }

  /** A first upgrade may leave a partial `data/` beside its full backup: what a failed copy
      leaves when the rollback cannot rename over it. That is within what it promises, and
      without faults the next upgrade succeeds. */
  lemma PartialBesideFull(pkg: Package, l: Layout, a: string, b: string, bytes: Bytes)
    requires Loaded(pkg) && Valid(l) && a != b
    ensures Sound(Before(l, a, b, bytes), [])
    ensures Leaves(pkg, Before(l, a, b, bytes), Between(l, a, b, bytes), l, ReinstallFailed, None)
    ensures !StillOwed(Before(l, a, b, bytes), Between(l, a, b, bytes), l.live, l.kept)
    ensures CanPlace(Between(l, a, b, bytes), l, true)
  {
    var t0, t := Before(l, a, b, bytes), Between(l, a, b, bytes);
    BothSound(l, a, b, bytes);
    BothSurviveFirst(l, a, b, bytes);
    BetweenIsReady(l, a, b, bytes);
    forall p | !(l.dest <= p) && !(l.kept <= p) ensures Look(t, p) == Look(t0, p) {
      BeforeLooks(l, a, b, bytes, p);
      BetweenLooks(l, a, b, bytes, p);
    }
    var q := l.live + [b];
    BeforeLooks(l, a, b, bytes, l.live);
    BetweenLooks(l, a, b, bytes, l.live);
    BeforeLooks(l, a, b, bytes, q);
    BetweenLooks(l, a, b, bytes, q);
    assert q[2] == b && (l.live + [a])[2] == a;
    assert OnlyApp(t0, t, l);
    assert Owed(t0, l.live, l.kept, q) == Some(bytes);
    assert FileAt(t, q) == None && l.live < q;
  }

  /** From there a second upgrade that succeeds loses old data, whatever its package. */
  lemma SecondUpgradeLoses(first: Package, second: Package, l: Layout, a: string, b: string, bytes: Bytes,
                           u: Tree, auth: Option<Bytes>)
    requires Loaded(first) && Loaded(second) && Valid(l) && a != b
    requires Leaves(second, Between(l, a, b, bytes), u, l, Placed, auth)
    ensures !Survives(Before(l, a, b, bytes), u, l.live, l.kept)
  {
    PartialBesideFull(first, l, a, b, bytes);
    SecondUpgrade(first, second, Before(l, a, b, bytes), Between(l, a, b, bytes), u, l, ReinstallFailed, None, Placed,
      auth);
  }
}
