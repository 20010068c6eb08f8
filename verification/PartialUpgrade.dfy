/** One run of an upgrade, step by step: how a partial `data/` comes to lie beside a full backup. */
module PartialUpgrade {
  import opened Prelude
  import opened Disk
  import opened Upgrade
  import opened Place
  import opened UpgradeTwice

  /** The file operations of an upgrade, and what they find. */
  datatype Step =
    | TestDir(p: Path, found: bool)
    | TestExists(p: Path, found: bool)
    | ReadNothing(p: Path)
    | MoveDir(from: Path, to: Path)
    | CannotMove(from: Path, to: Path)
    | RemoveTree(d: Path)
    | MakeDirs(d: Path)
    | ListDir(d: Path, names: set<string>)
    | CopyFile(from: Path, to: Path)
    | CopyFault(from: Path, to: Path)

  /** The step leads from `t` to `u`, as the operations of `Disk.Store` do. Only `CopyFault` is
      a fault: it reads its file, and fails before it writes any of it. */
  ghost predicate Does(t: Tree, s: Step, u: Tree) {
    match s
    case TestDir(p, found) => u == t && IsDir(t, p) == found
    case TestExists(p, found) => u == t && Exists(t, p) == found
    case ReadNothing(p) => u == t && !Look(t, p).File?
    case MoveDir(from, to) =>
      to != [] && IsDir(t, from) && Vacant(t, to) && forall p :: Look(u, p) == MovedLook(t, from, to, p)
    case CannotMove(from, to) => u == t && to != [] && !Vacant(t, to)
    case RemoveTree(d) => IsDir(t, d) && forall p :: Look(u, p) == if d <= p then Missing else Look(t, p)
    case MakeDirs(d) => NoFileAbove(t, d) && forall p :: Look(u, p) == if p <= d then Dir else Look(t, p)
    case ListDir(d, names) => u == t && IsDir(t, d) && forall n :: n in names <==> Exists(t, d + [n])
    case CopyFile(from, to) =>
      && Look(t, from).File? && to != [] && IsDir(t, to[..|to| - 1]) && !IsDir(t, to)
      && forall p :: Look(u, p) == if p == to then Look(t, from) else Look(t, p)
    case CopyFault(from, to) => u == t && Look(t, from).File?
  }

  ghost predicate Performs(t: Tree, steps: seq<Step>, u: Tree)
    decreases |steps|
  {
    if steps == [] then t == u else exists v :: Does(t, steps[0], v) && Performs(v, steps[1..], u)
  }

  /** The steps lead through these trees. */
  ghost predicate Through(trees: seq<Tree>, steps: seq<Step>) {
    |trees| == |steps| + 1 && forall i :: 0 <= i < |steps| ==> Does(trees[i], steps[i], trees[i + 1])
  }

  lemma {:induction false} ThroughPerforms(trees: seq<Tree>, steps: seq<Step>, more: seq<Step>, u: Tree)
    requires Through(trees, steps) && Performs(trees[|steps|], more, u)
    ensures Performs(trees[0], steps + more, u)
    decreases |steps|
  {
    if steps == [] {
      assert steps + more == more;
    } else {
      assert Does(trees[0], steps[0], trees[1]);
      assert (steps + more)[1..] == steps[1..] + more;
      ThroughPerforms(trees[1..], steps[1..], more, u);
    }
  }

  // ----- the steps ---------------------------------------------------------------------------

  /** Data is set aside; there is no `auth.json` and there are no logs. */
  function SetsAside(l: Layout): seq<Step> {
    [TestDir(l.live, true), TestExists(l.kept, false), MoveDir(l.live, l.kept), ReadNothing(l.auth),
     TestDir(l.logs, false)]
  }

  /** The old directory is removed and an empty, unsigned package installed. */
  function Reinstalls(l: Layout): seq<Step> {
    [RemoveTree(l.dest), TestExists(l.dest, false), MakeDirs(l.dest)]
  }

  /** The backup is copied back, `a` before `b`, and copying `b` fails. */
  function CopiesBack(l: Layout, a: string, b: string): seq<Step> {
    [TestDir(l.kept, true), MakeDirs(l.live), ListDir(l.kept, {a, b}), TestDir(l.kept + [a], false),
     CopyFile(l.kept + [a], l.live + [a]), TestDir(l.kept + [b], false), CopyFault(l.kept + [b], l.live + [b])]
  }

  /** The rollback cannot rename the backup onto the partial directory. */
  function RollsBack(l: Layout): seq<Step> {
    [TestDir(l.kept, true), MakeDirs(l.dest), TestDir(l.kept, true), CannotMove(l.kept, l.live),
     TestDir(l.logsKept, false)]
  }

  // ----- the trees ---------------------------------------------------------------------------

  /** After the data was set aside, with the app's directory or without it. */
  function AfterAside(l: Layout, a: string, b: string, bytes: Bytes, installed: bool): Tree {
    (if installed then map[l.dest := Dir] else map[])
    + map[[] := Dir, l.kept := Dir, l.kept + [a] := File(bytes), l.kept + [b] := File(bytes)]
  }

  function Created(l: Layout, a: string, b: string, bytes: Bytes): Tree {
    AfterAside(l, a, b, bytes, true)[l.live := Dir]
  }

  lemma AfterAsideLooks(l: Layout, a: string, b: string, bytes: Bytes, installed: bool, p: Path)
    requires Valid(l)
    ensures Look(AfterAside(l, a, b, bytes, installed), p) ==
      if p == [] || p == l.kept || (p == l.dest && installed) then Dir
      else if p == l.kept + [a] || p == l.kept + [b] then File(bytes) else Missing
  {
    assert l.kept <= l.kept + [a] && l.kept <= l.kept + [b];
  }

  /** Where the paths of the layout lie to each other. */
  lemma Places(l: Layout, a: string, b: string)
    requires Valid(l)
    ensures l.live[..1] == l.dest && |l.live| == 2 && |l.logs| == 2 && |l.auth| == 2
    ensures l.logs[..1] == l.dest && l.auth[..1] == l.dest
    ensures l.kept + [a] != l.live && l.kept + [b] != l.live && l.kept + [a] != l.logs && l.kept + [b] != l.logs
    ensures l.kept + [a] != l.auth && l.kept + [b] != l.auth && l.kept != l.dest && l.logsKept != l.kept
    ensures l.logsKept != l.dest && l.logs != l.live && l.auth != l.live
    ensures !(l.dest <= l.kept + [a]) && !(l.dest <= l.kept + [b])
  {
    assert (l.kept + [a])[..1] == l.kept && (l.kept + [b])[..1] == l.kept;
    assert l.dest <= l.live && l.dest <= l.logs && l.dest <= l.auth;
  }

  lemma MovesAside(l: Layout, a: string, b: string, bytes: Bytes)
    requires Valid(l)
    ensures Does(Before(l, a, b, bytes), MoveDir(l.live, l.kept), AfterAside(l, a, b, bytes, true))
  {
    var t, u := Before(l, a, b, bytes), AfterAside(l, a, b, bytes, true);
    Places(l, a, b);
    BeforeLooks(l, a, b, bytes, l.live);
    BeforeLooks(l, a, b, bytes, []);
    assert l.kept[..0] == [];
    forall p | l.kept <= p ensures Look(t, p) == Missing {
      BeforeLooks(l, a, b, bytes, p);
      BelowOne(l.kept, l.dest, p);
      assert l.dest <= l.live <= l.live + [a] && l.dest <= l.live + [b];
    }
    forall p ensures Look(u, p) == MovedLook(t, l.live, l.kept, p) { MovesOne(l, a, b, bytes, p); }
  }

  lemma MovesOne(l: Layout, a: string, b: string, bytes: Bytes, p: Path)
    requires Valid(l)
    ensures Look(AfterAside(l, a, b, bytes, true), p) == MovedLook(Before(l, a, b, bytes), l.live, l.kept, p)
  {
    Places(l, a, b);
    AfterAsideLooks(l, a, b, bytes, true, p);
    if l.kept <= p {
      var q := Rebase(p, l.kept, l.live);
      BeforeLooks(l, a, b, bytes, q);
      RebaseBack(p, l.kept, l.live);
      assert Rebase(l.live + [a], l.live, l.kept) == l.kept + [a];
      assert Rebase(l.live + [b], l.live, l.kept) == l.kept + [b];
      assert Rebase(l.live, l.live, l.kept) == l.kept;
      assert Rebase(l.kept + [a], l.kept, l.live) == l.live + [a];
      assert Rebase(l.kept + [b], l.kept, l.live) == l.live + [b];
    } else {
      BeforeLooks(l, a, b, bytes, p);
      assert l.kept <= l.kept + [a] && l.kept <= l.kept + [b];
      assert l.live <= l.live + [a] && l.live <= l.live + [b];
    }
  }

  lemma SetsAsideRun(l: Layout, a: string, b: string, bytes: Bytes)
    requires Valid(l)
    ensures var t0, t := Before(l, a, b, bytes), AfterAside(l, a, b, bytes, true);
      Through([t0, t0, t0, t, t, t], SetsAside(l))
  {
    Places(l, a, b);
    BeforeLooks(l, a, b, bytes, l.live);
    BeforeLooks(l, a, b, bytes, l.kept);
    AfterAsideLooks(l, a, b, bytes, true, l.auth);
    AfterAsideLooks(l, a, b, bytes, true, l.logs);
    MovesAside(l, a, b, bytes);
  }

  lemma Removes(l: Layout, a: string, b: string, bytes: Bytes)
    requires Valid(l)
    ensures var t, v := AfterAside(l, a, b, bytes, true), AfterAside(l, a, b, bytes, false);
      Does(t, RemoveTree(l.dest), v) && Does(v, MakeDirs(l.dest), t)
  {
    var t, v := AfterAside(l, a, b, bytes, true), AfterAside(l, a, b, bytes, false);
    Places(l, a, b);
    forall p
      ensures Look(v, p) == if l.dest <= p then Missing else Look(t, p)
      ensures Look(t, p) == if p <= l.dest then Dir else Look(v, p)
    {
      AfterAsideLooks(l, a, b, bytes, true, p);
      AfterAsideLooks(l, a, b, bytes, false, p);
      if p <= l.dest { assert p == [] || p == l.dest; }
      if l.dest <= p && |p| == 1 { assert p == l.dest; }
    }
    forall i | 0 <= i <= |l.dest| ensures !Look(v, l.dest[..i]).File? {
      AfterAsideLooks(l, a, b, bytes, false, l.dest[..i]);
    }
    AfterAsideLooks(l, a, b, bytes, true, l.dest);
  }

  lemma ReinstallsRun(l: Layout, a: string, b: string, bytes: Bytes)
    requires Valid(l)
    ensures var t, v := AfterAside(l, a, b, bytes, true), AfterAside(l, a, b, bytes, false);
      Through([t, v, v, t], Reinstalls(l))
  {
    Places(l, a, b);
    AfterAsideLooks(l, a, b, bytes, false, l.dest);
    Removes(l, a, b, bytes);
  }

  /** The first copy makes the directory and one of its files. */
  lemma CopiesOne(l: Layout, a: string, b: string, bytes: Bytes)
    requires Valid(l)
    ensures Does(AfterAside(l, a, b, bytes, true), MakeDirs(l.live), Created(l, a, b, bytes))
    ensures Does(Created(l, a, b, bytes), CopyFile(l.kept + [a], l.live + [a]), Between(l, a, b, bytes))
  {
    var t, v, u := AfterAside(l, a, b, bytes, true), Created(l, a, b, bytes), Between(l, a, b, bytes);
    Places(l, a, b);
    forall p ensures Look(v, p) == if p <= l.live then Dir else Look(t, p) {
      AfterAsideLooks(l, a, b, bytes, true, p);
      if p <= l.live { assert p == [] || p == l.dest || p == l.live; }
    }
    forall i | 0 <= i <= |l.live| ensures !Look(t, l.live[..i]).File? {
      AfterAsideLooks(l, a, b, bytes, true, l.live[..i]);
      assert l.live[..0] == [] && l.live[..2] == l.live;
    }
    var to := l.live + [a];
    assert to[..2] == l.live;
    forall p ensures Look(u, p) == if p == to then File(bytes) else Look(v, p) {
      AfterAsideLooks(l, a, b, bytes, true, p);
      BetweenLooks(l, a, b, bytes, p);
      assert to != l.live && to != [] && to != l.dest && to != l.kept;
    }
    AfterAsideLooks(l, a, b, bytes, true, l.kept + [a]);
    AfterAsideLooks(l, a, b, bytes, true, to);
  }

  /** What a listing of the backup shows. */
  lemma ListsBoth(l: Layout, a: string, b: string, bytes: Bytes)
    requires Valid(l)
    ensures Does(Created(l, a, b, bytes), ListDir(l.kept, {a, b}), Created(l, a, b, bytes))
    ensures Look(Created(l, a, b, bytes), l.kept + [a]) == File(bytes)
  {
    var t := Created(l, a, b, bytes);
    Places(l, a, b);
    AfterAsideLooks(l, a, b, bytes, true, l.kept);
    AfterAsideLooks(l, a, b, bytes, true, l.kept + [a]);
    assert l.kept != l.live;
    forall n ensures n in {a, b} <==> Exists(t, l.kept + [n]) {
      Places(l, n, n);
      AfterAsideLooks(l, a, b, bytes, true, l.kept + [n]);
      assert (l.kept + [n])[1] == n && (l.kept + [a])[1] == a && (l.kept + [b])[1] == b;
    }
  }

  lemma CopiesBackRun(l: Layout, a: string, b: string, bytes: Bytes)
    requires Valid(l)
    ensures var t, v, w := AfterAside(l, a, b, bytes, true), Created(l, a, b, bytes), Between(l, a, b, bytes);
      Through([t, t, v, v, v, w, w, w], CopiesBack(l, a, b))
  {
    CopiesOne(l, a, b, bytes);
    ListsBoth(l, a, b, bytes);
    CopyTests(l, a, b, bytes);
  }

  lemma CopyTests(l: Layout, a: string, b: string, bytes: Bytes)
    requires Valid(l)
    ensures var t, v, w := AfterAside(l, a, b, bytes, true), Created(l, a, b, bytes), Between(l, a, b, bytes);
      && Does(t, TestDir(l.kept, true), t) && Does(v, TestDir(l.kept + [a], false), v)
      && Does(w, TestDir(l.kept + [b], false), w) && Does(w, CopyFault(l.kept + [b], l.live + [b]), w)
  {
    AfterAsideLooks(l, a, b, bytes, true, l.kept);
    AfterAsideLooks(l, a, b, bytes, true, l.kept + [a]);
    BetweenLooks(l, a, b, bytes, l.kept + [b]);
    Places(l, a, b);
  }

  lemma RollsBackRun(l: Layout, a: string, b: string, bytes: Bytes)
    requires Valid(l)
    ensures var t := Between(l, a, b, bytes); Through([t, t, t, t, t, t], RollsBack(l))
  {
    var t := Between(l, a, b, bytes);
    Places(l, a, b);
    BetweenLooks(l, a, b, bytes, l.kept);
    BetweenLooks(l, a, b, bytes, l.logsKept);
    StandsInTheWay(l, a, b, bytes);
    DestIsThere(l, a, b, bytes);
  }

  lemma StandsInTheWay(l: Layout, a: string, b: string, bytes: Bytes)
    requires Valid(l)
    ensures var t := Between(l, a, b, bytes); Does(t, CannotMove(l.kept, l.live), t)
  {
    BetweenLooks(l, a, b, bytes, l.live + [a]);
    Places(l, a, b);
    assert l.live < l.live + [a];
  }

  lemma DestIsThere(l: Layout, a: string, b: string, bytes: Bytes)
    requires Valid(l)
    ensures var t := Between(l, a, b, bytes); Does(t, MakeDirs(l.dest), t)
  {
    var t := Between(l, a, b, bytes);
    forall p ensures p <= l.dest ==> Look(t, p) == Dir {
      BetweenLooks(l, a, b, bytes, p);
      if p <= l.dest { assert p == [] || p == l.dest; }
    }
    forall i | 0 <= i <= |l.dest| ensures !Look(t, l.dest[..i]).File? { assert l.dest[..i] <= l.dest; }
  }

  /** From a tree with two files in `data/`, an upgrade to an empty package with a single fault,
      while copying the second file back, leaves a partial `data/` beside the full backup. */
  lemma PartialIsReached(l: Layout, a: string, b: string, bytes: Bytes)
    requires Valid(l) && a != b
    ensures Performs(Before(l, a, b, bytes),
                     SetsAside(l) + (Reinstalls(l) + (CopiesBack(l, a, b) + RollsBack(l))),
                     Between(l, a, b, bytes))
  {
    var t0, t, v := Before(l, a, b, bytes), AfterAside(l, a, b, bytes, true), AfterAside(l, a, b, bytes, false);
    var w, u := Created(l, a, b, bytes), Between(l, a, b, bytes);
    RollsBackRun(l, a, b, bytes);
    ThroughPerforms([u, u, u, u, u, u], RollsBack(l), [], u);
    assert RollsBack(l) + [] == RollsBack(l);
    CopiesBackRun(l, a, b, bytes);
    ThroughPerforms([t, t, w, w, w, u, u, u], CopiesBack(l, a, b), RollsBack(l), u);
    ReinstallsRun(l, a, b, bytes);
    ThroughPerforms([t, v, v, t], Reinstalls(l), CopiesBack(l, a, b) + RollsBack(l), u);
    SetsAsideRun(l, a, b, bytes);
    ThroughPerforms([t0, t0, t0, t, t, t], SetsAside(l), Reinstalls(l) + (CopiesBack(l, a, b) + RollsBack(l)), u);
  }
}
