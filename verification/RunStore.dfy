/** The durable rows behind resume, and what a crash leaves in them. */
module RunStore {
  import opened Prelude
  import opened Agent

  type RunId = nat

  datatype Row = Row(input: string, state: RunState, step: nat, checkpoint: Option<seq<Message>>, ended: bool)

  /** What `load` returns of a row: the step, the stored messages and the input. */
  function Loaded(r: Row): (nat, seq<Message>, string) {
    (r.step, match r.checkpoint case None => [] case Some(ms) => ms, r.input)
  }

  /** The effect of one log entry on the run's row; checkpoints and finishes update
      nothing when the row is missing. */
  function Stored(row: Option<Row>, e: Entry): Option<Row> {
    match e
    case Begin(input) => Some(Row(input, Running, 0, None, false))
    case Checkpoint(step, ms) =>
      if row.Some? then Some(row.value.(step := step, state := Running, checkpoint := Some(ms))) else None
    case Finish(state) => if row.Some? then Some(row.value.(state := state, ended := true)) else None
    case _ => row
  }

  /** The row after the entries of `log`; writes may fail silently: entry `i` took
      effect only if `works(i)`. */
  function StoredAll(row: Option<Row>, log: seq<Entry>, works: nat -> bool): (r: Option<Row>)
    ensures row.Some? ==> r.Some?
  {
    if log == [] then row
    else
      var before := StoredAll(row, log[..|log| - 1], works);
      if works(|log| - 1) then Stored(before, log[|log| - 1]) else before
  }

  /** The row after a run was killed having done exactly `log`. */
  function AfterCrash(log: seq<Entry>, works: nat -> bool): Option<Row> { StoredAll(None, log, works) }

  // ----- what a crash leaves -----------------------------------------------------------------

  predicate Took(log: seq<Entry>, works: nat -> bool, i: nat) { i < |log| && works(i) }

  predicate Begins(log: seq<Entry>, works: nat -> bool, i: nat) { Took(log, works, i) && log[i].Begin? }

  /** There is a row if and only if some `Begin` took effect. */
  lemma {:induction false} RowExists(log: seq<Entry>, works: nat -> bool)
    ensures AfterCrash(log, works).Some? <==> exists b: nat :: Begins(log, works, b)
  {
    if log != [] {
      var n := |log| - 1;
      RowExists(log[..n], works);
      assert forall b: nat :: b < n ==> (Begins(log[..n], works, b) <==> Begins(log, works, b));
      if Begins(log, works, n) {
      } else if AfterCrash(log, works).Some? {
        var b :| Begins(log[..n], works, b);
        assert Begins(log, works, b);
      } else {
        assert forall b: nat :: b < n ==> !Begins(log, works, b);
      }
    }
  }

  /** Entry `c` is a checkpoint that took effect after a `Begin`, and the last to do so. */
  ghost predicate IsLastCheckpoint(log: seq<Entry>, works: nat -> bool, c: nat) {
    && Took(log, works, c) && log[c].Checkpoint?
    && (exists b: nat :: b < c && Begins(log, works, b))
    && (forall k: nat :: c < k && Took(log, works, k) ==> !log[k].Checkpoint? && !log[k].Begin?)
  }

  lemma LastCheckpointBefore(log: seq<Entry>, works: nat -> bool, c: nat)
    requires log != [] && c < |log| - 1
    ensures var n := |log| - 1;
      IsLastCheckpoint(log, works, c)
      <==> IsLastCheckpoint(log[..n], works, c) && !(works(n) && (log[n].Checkpoint? || log[n].Begin?))
  {
    var n := |log| - 1;
    assert forall b: nat :: b < n ==> (Begins(log[..n], works, b) <==> Begins(log, works, b));
    assert forall k: nat :: k < n ==> (Took(log[..n], works, k) <==> Took(log, works, k)) && log[..n][k] == log[k];
    assert Took(log, works, n) <==> works(n);
  }

  /** The stored checkpoint is exactly the last one that took effect. */
  lemma {:induction false} LoadsLastCheckpoint(log: seq<Entry>, works: nat -> bool, step: nat, ms: seq<Message>)
    ensures var row := AfterCrash(log, works);
      row.Some? && row.value.step == step && row.value.checkpoint == Some(ms)
      <==> exists c: nat :: IsLastCheckpoint(log, works, c) && log[c] == Checkpoint(step, ms)
  {
    if log != [] {
      var n := |log| - 1;
      LoadsLastCheckpoint(log[..n], works, step, ms);
      RowExists(log[..n], works);
      forall c: nat | c < n
        ensures IsLastCheckpoint(log, works, c)
          <==> IsLastCheckpoint(log[..n], works, c) && !(works(n) && (log[n].Checkpoint? || log[n].Begin?))
      {
        LastCheckpointBefore(log, works, c);
      }
      if works(n) && log[n].Checkpoint? {
        LastIsLast(log, works);
      }
    }
  }

  lemma LastIsLast(log: seq<Entry>, works: nat -> bool)
    requires log != [] && works(|log| - 1) && log[|log| - 1].Checkpoint?
    ensures IsLastCheckpoint(log, works, |log| - 1) <==> AfterCrash(log[..|log| - 1], works).Some?
  {
    var n := |log| - 1;
    RowExists(log[..n], works);
    assert forall b: nat :: b < n ==> (Begins(log[..n], works, b) <==> Begins(log, works, b));
  }

  /** What a write leaves as the run's state. */
  function StateOf(e: Entry): Option<RunState> {
    match e
    case Begin(_) => Some(Running)
    case Checkpoint(_, _) => Some(Running)
    case Finish(state) => Some(state)
    case _ => None
  }

  /** Entry `k` is a write to an opened row that took effect, and the last to do so. */
  ghost predicate IsLastWrite(log: seq<Entry>, works: nat -> bool, k: nat) {
    && Took(log, works, k) && StateOf(log[k]).Some? && (exists b: nat :: b <= k && Begins(log, works, b))
    && (forall j: nat :: k < j && Took(log, works, j) ==> StateOf(log[j]).None?)
  }

  lemma LastWriteBefore(log: seq<Entry>, works: nat -> bool, k: nat)
    requires log != [] && k < |log| - 1
    ensures var n := |log| - 1;
      IsLastWrite(log, works, k) <==> IsLastWrite(log[..n], works, k) && !(works(n) && StateOf(log[n]).Some?)
  {
    var n := |log| - 1;
    assert forall b: nat :: b < n ==> (Begins(log[..n], works, b) <==> Begins(log, works, b));
    assert forall j: nat :: j < n ==> (Took(log[..n], works, j) <==> Took(log, works, j)) && log[..n][j] == log[j];
    assert Took(log, works, n) <==> works(n);
  }

  lemma LastWriteIs(log: seq<Entry>, works: nat -> bool)
    requires log != [] && works(|log| - 1) && StateOf(log[|log| - 1]).Some?
    ensures IsLastWrite(log, works, |log| - 1)
      <==> log[|log| - 1].Begin? || AfterCrash(log[..|log| - 1], works).Some?
  {
    var n := |log| - 1;
    RowExists(log[..n], works);
    assert Begins(log, works, n) <==> log[n].Begin?;
    assert forall b: nat :: b < n ==> (Begins(log[..n], works, b) <==> Begins(log, works, b));
  }

  /** Some last write left this state. */
  ghost predicate LeftIn(log: seq<Entry>, works: nat -> bool, state: RunState) {
    exists k: nat :: IsLastWrite(log, works, k) && StateOf(log[k]) == Some(state)
  }

  lemma StateWritten(log: seq<Entry>, works: nat -> bool, state: RunState)
    requires log != [] && works(|log| - 1) && StateOf(log[|log| - 1]).Some?
    ensures LeftIn(log, works, state) <==>
      StateOf(log[|log| - 1]) == Some(state) && IsLastWrite(log, works, |log| - 1)
  {
    var n := |log| - 1;
    assert Took(log, works, n);
    if LeftIn(log, works, state) {
      var k: nat :| IsLastWrite(log, works, k) && StateOf(log[k]) == Some(state);
      assert k == n;
    }
  }

  lemma StateKept(log: seq<Entry>, works: nat -> bool, state: RunState)
    requires log != [] && !(works(|log| - 1) && StateOf(log[|log| - 1]).Some?)
    ensures LeftIn(log, works, state) <==> LeftIn(log[..|log| - 1], works, state)
  {
    var n := |log| - 1;
    if LeftIn(log, works, state) {
      var k: nat :| IsLastWrite(log, works, k) && StateOf(log[k]) == Some(state);
      LastWriteBefore(log, works, k);
      assert log[..n][k] == log[k];
    }
    if LeftIn(log[..n], works, state) {
      var k: nat :| IsLastWrite(log[..n], works, k) && StateOf(log[..n][k]) == Some(state);
      LastWriteBefore(log, works, k);
      assert log[..n][k] == log[k];
    }
  }

  lemma WriteLeaves(row: Option<Row>, e: Entry)
    ensures StateOf(e).None? ==> Stored(row, e) == row
    ensures StateOf(e).Some? ==> Stored(row, e).Some? == (e.Begin? || row.Some?)
    ensures StateOf(e).Some? && Stored(row, e).Some? ==> StateOf(e) == Some(Stored(row, e).value.state)
  {
  }

  /** The stored state is what the last write that took effect left: running after an opening
      or a checkpoint, and otherwise the state the run finished in. */
  lemma {:induction false} StateIs(log: seq<Entry>, works: nat -> bool, state: RunState)
    ensures var row := AfterCrash(log, works); row.Some? && row.value.state == state <==> LeftIn(log, works, state)
  {
    if log != [] {
      var n := |log| - 1;
      StateIs(log[..n], works, state);
      WriteLeaves(AfterCrash(log[..n], works), log[n]);
      if works(n) && StateOf(log[n]).Some? {
        LastWriteIs(log, works);
        StateWritten(log, works, state);
      } else {
        StateKept(log, works, state);
      }
    }
  }

  /** Entry `b` opened the row and no later `Finish` took effect. */
  ghost predicate StaysOpen(log: seq<Entry>, works: nat -> bool, b: nat) {
    Begins(log, works, b) && forall k: nat :: b < k && Took(log, works, k) ==> !log[k].Finish?
  }

  predicate IsOpen(row: Option<Row>) { row.Some? && !row.value.ended }

  lemma StaysOpenBefore(log: seq<Entry>, works: nat -> bool, b: nat)
    requires log != [] && b < |log| - 1
    ensures var n := |log| - 1;
      StaysOpen(log, works, b) <==> StaysOpen(log[..n], works, b) && !(works(n) && log[n].Finish?)
  {
    var n := |log| - 1;
    assert forall k: nat :: k < n ==> (Took(log[..n], works, k) <==> Took(log, works, k)) && log[..n][k] == log[k];
    assert Took(log, works, n) <==> works(n);
  }

  /** A killed run is listed as interrupted exactly when a `Begin` took effect and no
      later `Finish` did. */
  lemma {:induction false} InterruptedIs(log: seq<Entry>, works: nat -> bool)
    ensures IsOpen(AfterCrash(log, works)) <==> exists b: nat :: StaysOpen(log, works, b)
  {
    if log != [] {
      var n := |log| - 1;
      InterruptedIs(log[..n], works);
      forall b: nat | b < n
        ensures StaysOpen(log, works, b) <==> StaysOpen(log[..n], works, b) && !(works(n) && log[n].Finish?)
      {
        StaysOpenBefore(log, works, b);
      }
      assert StaysOpen(log, works, n) <==> works(n) && log[n].Begin?;
    }
  }

  class Store {
    var rows: map<RunId, Row>

    constructor ()
      ensures rows == map[]
    {
      rows := map[];
    }

    function Get(id: RunId): Option<Row>
      reads this
    {
      if id in rows then Some(rows[id]) else None
    }

    method BeginRun(id: RunId, input: string)
      modifies this
      ensures Get(id) == Stored(old(Get(id)), Begin(input))
      ensures rows - {id} == old(rows) - {id}
    {
      rows := rows[id := Row(input, Running, 0, None, false)];
    }

    /** `UPDATE ... WHERE id`: a missing row stays missing. */
    method SaveCheckpoint(id: RunId, step: nat, messages: seq<Message>)
      modifies this
      ensures Get(id) == Stored(old(Get(id)), Checkpoint(step, messages))
      ensures rows - {id} == old(rows) - {id}
    {
      if id in rows {
        rows := rows[id := rows[id].(step := step, state := Running, checkpoint := Some(messages))];
      }
    }

    method FinishRun(id: RunId, state: RunState)
      modifies this
      ensures Get(id) == Stored(old(Get(id)), Finish(state))
      ensures rows - {id} == old(rows) - {id}
    {
      if id in rows {
        rows := rows[id := rows[id].(state := state, ended := true)];
      }
    }

    /** The row's step, messages and input, whatever its state; None when it is unknown. */
    method Load(id: RunId) returns (r: Option<(nat, seq<Message>, string)>)
      ensures r == match Get(id) case None => None case Some(row) => Some(Loaded(row))
    {
      if id in rows { r := Some(Loaded(rows[id])); } else { r := None; }
    }

    /** The runs that have not ended: those whose row was opened and not finished since, in
        whatever `log` wrote the row. */
    method Interrupted(ghost log: RunId -> seq<Entry>, ghost works: RunId -> (nat -> bool)) returns (ids: set<RunId>)
      ensures forall id :: id in ids <==> IsOpen(Get(id))
      ensures forall id | Get(id) == AfterCrash(log(id), works(id)) ::
        id in ids <==> exists b: nat :: StaysOpen(log(id), works(id), b)
    {
      ids := set id | id in rows && !rows[id].ended;
      forall id | Get(id) == AfterCrash(log(id), works(id))
        ensures id in ids <==> exists b: nat :: StaysOpen(log(id), works(id), b)
      {
        InterruptedIs(log(id), works(id));
      }
    }

    /** Only an open run is abandoned. */
    method Abandon(id: RunId)
      modifies this
      ensures rows - {id} == old(rows) - {id}
      ensures Get(id) == match old(Get(id))
                         case None => None
                         case Some(row) => Some(if row.ended then row else row.(state := Failed, ended := true))
    {
      if id in rows && !rows[id].ended {
        rows := rows[id := rows[id].(state := Failed, ended := true)];
      }
    }
  }
}
