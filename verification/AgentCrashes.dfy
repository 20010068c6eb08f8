/** Any number of crashes: a run killed and resumed again and again still ends as if it
    had never been interrupted. */
module AgentCrashes {
  import opened Prelude
  import opened Agent
  import opened AgentRuntime
  import opened RunStore
  import opened AgentResults

  // ----- what a run writes to its row --------------------------------------------------------

  lemma AddedBeginsNothing(w: World, l: Loop, i: nat)
    requires l.end.None? && l.step < w.maxSteps && i < |Added(w, l)|
    ensures !Added(w, l)[i].Begin?
  {
    if !w.cancelled(l.step) {
      var opening, rest := Opening(w, l), Rest(w, l);
      RestIsQuiet(w, l);
      assert Added(w, l)[..|opening|] == opening && Added(w, l)[|opening|..] == rest;
      assert i >= |opening| ==> Added(w, l)[i] in rest;
    }
  }

  /** Only a fresh run opens its row, before its first step. */
  lemma {:induction false} RunBeginsNothing(w: World, l: Loop, i: nat)
    requires |l.log| <= i < |RunFrom(w, l).log|
    ensures !RunFrom(w, l).log[i].Begin?
    decreases l.end.None?, if l.step <= w.maxSteps then w.maxSteps - l.step else 0
  {
    var log := RunFrom(w, l).log;
    if l.end.None? && l.step < w.maxSteps {
      IterationAdds(w, l);
      RunGrows(w, Iterate(w, l));
      if i < |Iterate(w, l).log| {
        IndexPast(l.log, Added(w, l), log, i);
        AddedBeginsNothing(w, l, i - |l.log|);
      } else {
        RunBeginsNothing(w, Iterate(w, l), i);
      }
    } else if l.end.None? {
      assert log[i] == ([] + FinishLog(w, Failed, None))[i - |l.log|];
    }
  }

  /** A checkpoint extends the messages the run started with. */
  lemma {:induction false} CheckpointExtends(w: World, l: Loop, c: nat)
    requires l.end.None?
    requires |l.log| <= c < |RunFrom(w, l).log| && RunFrom(w, l).log[c].Checkpoint?
    ensures l.messages <= RunFrom(w, l).log[c].messages
    decreases if l.step <= w.maxSteps then w.maxSteps - l.step else 0
  {
    IterationFacts(w, l, c);
    if c >= |Iterate(w, l).log| {
      IterationMessages(w, l);
      CheckpointExtends(w, Iterate(w, l), c);
    }
  }

  /** The stored checkpoint after more entries is one of theirs or the one before. */
  lemma {:induction false} StoredSource(row: Row, log: seq<Entry>, works: nat -> bool) returns (c: Option<nat>)
    requires row.checkpoint.Some? && forall i :: 0 <= i < |log| ==> !log[i].Begin?
    ensures var r := StoredAll(Some(row), log, works).value;
      r.checkpoint.Some? &&
      match c
      case None => r.step == row.step && r.checkpoint == row.checkpoint
      case Some(i) => i < |log| && log[i] == Checkpoint(r.step, r.checkpoint.value)
  {
    c := None;
    if log != [] {
      var n := |log| - 1;
      c := StoredSource(row, log[..n], works);
      if works(n) && log[n].Checkpoint? { c := Some(n); }
    }
  }

  // ----- one more crash ----------------------------------------------------------------------

  /** `b` is where `a` is, with perhaps one correction more. */
  predicate Shadows(a: Loop, b: Loop) {
    a.end.None? && b.end.None? && a.messages == b.messages && a.step == b.step && a.retries <= b.retries <= 1
  }

  /** A correction was asked for that the uninterrupted run did without. */
  predicate OffTrack(w: World, full: Loop, messages: seq<Message>) {
    EndsMalformed(w, full) && full.messages + [Correction] <= messages
  }

  lemma StepTogether(w: World, a: Loop, b: Loop)
    requires Shadows(a, b) && a.step < w.maxSteps && Iterate(w, b).end.None?
    ensures var a', b' := Iterate(w, a), Iterate(w, b);
      Shadows(a', b') || (a'.end.Some? && OffTrack(w, a', b'.messages))
  {
    if a.retries == b.retries { SameStep(w, a, b); }
  }

  /** `k` is a state of the uninterrupted run just before it writes this checkpoint. */
  predicate IsAt(w: World, full: Loop, k: Loop, step: nat, messages: seq<Message>) {
    && Fair(k) && RunFrom(w, k) == full && k.step == step && k.messages == messages
    && |k.log| + 1 < |full.log| && full.log[|k.log| + 1] == Checkpoint(step, messages)
  }

  lemma WritesCheckpoint(w: World, l: Loop)
    requires l.end.None? && l.step < w.maxSteps && !w.cancelled(l.step) && w.persistent
    ensures var log := RunFrom(w, l).log; |l.log| + 1 < |log| && log[|l.log| + 1] == Checkpoint(l.step, l.messages)
  {
    IterationAdds(w, l);
    RunGrows(w, Iterate(w, l));
    assert Added(w, l)[1] == Opening(w, l)[1];
    IndexPast(l.log, Added(w, l), RunFrom(w, l).log, |l.log| + 1);
  }

  lemma WroteCheckpoint(w: World, l: Loop, c: nat)
    requires l.end.None? && l.step < w.maxSteps
    requires |l.log| <= c < |RunFrom(w, l).log| && RunFrom(w, l).log[c].Checkpoint? && c < |Iterate(w, l).log|
    ensures !w.cancelled(l.step) && w.persistent
  {
    IterationAdds(w, l);
    RunGrows(w, Iterate(w, l));
    IndexPast(l.log, Added(w, l), RunFrom(w, l).log, c);
    AddedCheckpoint(w, l, c - |l.log|);
  }

  /** A checkpoint of the run that has more corrections left is one of the other run too,
      or that run ended on the malformed reply that this one had corrected. */
  lemma {:induction false} Chase(w: World, a: Loop, b: Loop, c: nat) returns (k: Loop)
    requires Shadows(a, b) && Fair(a)
    requires |b.log| <= c < |RunFrom(w, b).log| && RunFrom(w, b).log[c].Checkpoint?
    ensures var e := RunFrom(w, b).log[c];
      OffTrack(w, RunFrom(w, a), e.messages) || IsAt(w, RunFrom(w, a), k, e.step, e.messages)
    decreases if b.step <= w.maxSteps then w.maxSteps - b.step else 0
  {
    k := a;
    IterationFacts(w, b, c);
    var a', b' := Iterate(w, a), Iterate(w, b);
    if c < |b'.log| {
      WroteCheckpoint(w, b, c);
      WritesCheckpoint(w, a);
    } else {
      StepTogether(w, a, b);
      if Shadows(a', b') {
        KeepsFair(w, a);
        k := Chase(w, a', b', c);
      } else {
        CheckpointExtends(w, b', c);
      }
    }
  }

  /** Where a stored checkpoint stands to the uninterrupted run. */
  ghost predicate Kept(w: World, full: Loop, row: Row) {
    row.checkpoint.Some? &&
    (OffTrack(w, full, row.checkpoint.value) || exists k :: IsAt(w, full, k, row.step, row.checkpoint.value))
  }

  /** The run resumed from the row. */
  function Again(w: World, row: Row): Loop {
    var (step, messages, _) := Loaded(row);
    RunFrom(w, Resumed(step, messages))
  }

  /** The run is killed after at most `n` entries, with only some writes effective. */
  datatype Kill = Kill(n: nat, works: nat -> bool)

  function Cut(log: seq<Entry>, n: nat): seq<Entry> { if n <= |log| then log[..n] else log }

  function AfterKill(w: World, row: Row, kill: Kill): Row {
    StoredAll(Some(row), Cut(Again(w, row).log, kill.n), kill.works).value
  }

  lemma KeepsTrack(w: World, full: Loop, row: Row, kill: Kill)
    requires Kept(w, full, row)
    ensures Kept(w, full, AfterKill(w, row, kill))
  {
    var start := Resumed(row.step, row.checkpoint.value);
    var log := Again(w, row).log;
    RunGrows(w, start);
    forall i | 0 <= i < |log| ensures !log[i].Begin? {
      if i >= |STARTED| { RunBeginsNothing(w, start, i); } else { assert log[i] == STARTED[i]; }
    }
    var c := StoredSource(row, Cut(log, kill.n), kill.works);
    if c.Some? {
      NotBefore(STARTED, log, c.value);
      if OffTrack(w, full, row.checkpoint.value) {
        CheckpointExtends(w, start, c.value);
      } else {
        var k :| IsAt(w, full, k, row.step, row.checkpoint.value);
        var k' := Chase(w, k, start, c.value);
      }
    }
  }

  // ----- any number of crashes ---------------------------------------------------------------

  function AfterKills(w: World, row: Row, kills: seq<Kill>): Row
    decreases |kills|
  {
    if kills == [] then row else AfterKills(w, AfterKill(w, row, kills[0]), kills[1..])
  }

  lemma {:induction false} KeepsTrackOfAll(w: World, full: Loop, row: Row, kills: seq<Kill>)
    requires Kept(w, full, row)
    ensures Kept(w, full, AfterKills(w, row, kills))
    decreases |kills|
  {
    if kills != [] {
      KeepsTrack(w, full, row, kills[0]);
      KeepsTrackOfAll(w, full, AfterKill(w, row, kills[0]), kills[1..]);
    }
  }

  lemma EndsAlike(w: World, full: Loop, row: Row)
    requires Kept(w, full, row)
    ensures var messages, again := row.checkpoint.value, Again(w, row);
      && ((again.messages == full.messages && again.end == full.end)
          <==> !(Correction in messages && EndsMalformed(w, full)))
      && (Correction !in messages ==>
          exists c :: 0 < c < |full.log| && full.log[c] == Checkpoint(row.step, messages)
            && again.log == STARTED + full.log[c - 1..])
  {
    var messages, start := row.checkpoint.value, Resumed(row.step, row.checkpoint.value);
    RunGrows(w, start);
    if OffTrack(w, full, messages) {
      assert messages[|full.messages|] == Correction;
    } else {
      var k :| IsAt(w, full, k, row.step, messages);
      if Correction in messages {
        CorrectionMatters(w, k, start);
      } else {
        SameFuture(w, k, start);
        var again := Again(w, row);
        assert again.log == STARTED + again.log[|STARTED|..];
        assert full.log[|k.log| + 1] == Checkpoint(row.step, messages);
      }
    }
  }

  lemma FirstCheckpointKept(w: World, start: seq<Message>, input: string, log: seq<Entry>, works: nat -> bool)
    requires Correction !in start && log <= RunFrom(w, Fresh(w, start, input)).log
    requires var row := AfterCrash(log, works); row.Some? && row.value.checkpoint.Some?
    ensures Kept(w, RunFrom(w, Fresh(w, start, input)), AfterCrash(log, works).value)
  {
    var row := AfterCrash(log, works).value;
    var c := StoredAt(log, works, row);
    assert RunFrom(w, Fresh(w, start, input)).log[c] == log[c];
    CheckpointIsAt(w, start, input, c, row.step, row.checkpoint.value);
  }

  lemma StoredAt(log: seq<Entry>, works: nat -> bool, row: Row) returns (c: nat)
    requires AfterCrash(log, works) == Some(row) && row.checkpoint.Some?
    ensures c < |log| && log[c] == Checkpoint(row.step, row.checkpoint.value)
  {
    LoadsLastCheckpoint(log, works, row.step, row.checkpoint.value);
    c :| IsLastCheckpoint(log, works, c) && log[c] == Checkpoint(row.step, row.checkpoint.value);
  }

  lemma CheckpointIsAt(w: World, start: seq<Message>, input: string, c: nat, step: nat, messages: seq<Message>)
    requires Correction !in start
    requires var log := RunFrom(w, Fresh(w, start, input)).log; c < |log| && log[c] == Checkpoint(step, messages)
    ensures exists k :: IsAt(w, RunFrom(w, Fresh(w, start, input)), k, step, messages)
  {
    var k := LoopAt(w, Fresh(w, start, input), c, step, messages);
  }

  lemma LoopAt(w: World, l0: Loop, c: nat, step: nat, messages: seq<Message>) returns (k: Loop)
    requires Fair(l0) && forall e :: e in l0.log ==> !e.Checkpoint?
    requires c < |RunFrom(w, l0).log| && RunFrom(w, l0).log[c] == Checkpoint(step, messages)
    ensures IsAt(w, RunFrom(w, l0), k, step, messages)
  {
    RunGrows(w, l0);
    NotBefore(l0.log, RunFrom(w, l0).log, c);
    k := AtCheckpoint(w, l0, c);
  }

  /** Kill a run anywhere, resume it, kill that, and so on any number of times, with any
      writes lost: the last resumed run still ends with the messages, answer and state of
      the uninterrupted run, with the one exception that a single crash has already; and
      when no correction is stored, it does exactly the rest of what that run did. */
  lemma ManyCrashes(w: World, start: seq<Message>, input: string, first: Kill, kills: seq<Kill>)
    requires Correction !in start
    requires var row := AfterCrash(Cut(RunFrom(w, Fresh(w, start, input)).log, first.n), first.works);
             row.Some? && row.value.checkpoint.Some?
    ensures var full := RunFrom(w, Fresh(w, start, input));
            var row := AfterKills(w, AfterCrash(Cut(full.log, first.n), first.works).value, kills);
            var again := Again(w, row);
            && row.checkpoint.Some?
            && ((again.messages == full.messages && again.end == full.end)
                <==> !(Correction in row.checkpoint.value && EndsMalformed(w, full)))
            && (Correction !in row.checkpoint.value ==>
                exists c :: 0 < c < |full.log| && full.log[c] == Checkpoint(row.step, row.checkpoint.value)
                  && again.log == STARTED + full.log[c - 1..])
  {
    var full := RunFrom(w, Fresh(w, start, input));
    var row := AfterCrash(Cut(full.log, first.n), first.works).value;
    FirstCheckpointKept(w, start, input, Cut(full.log, first.n), first.works);
    KeepsTrackOfAll(w, full, row, kills);
    EndsAlike(w, full, AfterKills(w, row, kills));
  }

  /** Resuming a stored run as the program does it: load its row, then run on. */
  method ResumeStored(runtime: Runtime, store: Store, id: RunId) returns (r: Option<(seq<Message>, End)>)
    requires runtime.log == []
    modifies runtime
    ensures r.None? <==> store.Get(id).None?
    ensures r.None? ==> runtime.log == []
    ensures r.Some? ==>
      var again := Again(runtime.w, store.Get(id).value);
      runtime.log == again.log && r.value.0 == again.messages && Some(r.value.1) == again.end
  {
    var row := store.Load(id);
    if row.None? { return None; }
    var (step, stored, _) := row.value;
    var messages, end := runtime.RunResumed(step, stored);
    r := Some((messages, end));
  }

  // ----- a crash before the first checkpoint -------------------------------------------------

  lemma {:induction false} OpenedAtTwo(log: seq<Entry>, works: nat -> bool, input: string)
    requires forall i :: 0 <= i < |log| && log[i].Begin? ==> i == 2 && log[i] == Begin(input)
    requires forall i :: 0 <= i < |log| && log[i].Checkpoint? ==> 2 < i
    ensures var row := AfterCrash(log, works);
      row.Some? ==>
      && row.value.input == input && (row.value.checkpoint.None? ==> row.value.step == 0)
      && (row.value.checkpoint.None? <==> forall i: nat :: Took(log, works, i) ==> !log[i].Checkpoint?)
  {
    if log != [] {
      var n := |log| - 1;
      OpenedAtTwo(log[..n], works, input);
      assert forall i: nat :: i < n ==> (Took(log[..n], works, i) <==> Took(log, works, i)) && log[..n][i] == log[i];
      assert Took(log, works, n) <==> works(n);
    }
  }

  /** A run opens its row at position 2, before any checkpoint, or not at all. */
  predicate OpensAtTwo(w: World, e: Entry, i: nat, input: string) {
    (e.Begin? ==> w.persistent && i == 2 && e == Begin(input)) && (e.Checkpoint? && w.persistent ==> 2 < i)
  }

  lemma FreshOpensAtTwo(w: World, start: seq<Message>, input: string, i: nat)
    requires i < |RunFrom(w, Fresh(w, start, input)).log|
    ensures OpensAtTwo(w, RunFrom(w, Fresh(w, start, input)).log[i], i, input)
  {
    var l0 := Fresh(w, start, input);
    RunGrows(w, l0);
    if i < |l0.log| {
      assert RunFrom(w, l0).log[i] == l0.log[i];
    } else {
      RunBeginsNothing(w, l0, i);
    }
  }

  /** A killed run whose row holds no checkpoint, which is so exactly when none took effect:
      the row still has the input, but no messages, and a resumed run goes by the messages
      alone. It asks the model about an empty conversation. */
  lemma EarlyCrashForgetsInput(w: World, start: seq<Message>, input: string, n: nat, works: nat -> bool)
    requires var row := AfterCrash(Cut(RunFrom(w, Fresh(w, start, input)).log, n), works); row.Some?
    ensures var log := Cut(RunFrom(w, Fresh(w, start, input)).log, n);
      var row := AfterCrash(log, works).value;
      && (row.checkpoint.None? <==> forall i: nat :: Took(log, works, i) ==> !log[i].Checkpoint?)
      && (row.checkpoint.None? ==> Loaded(row) == (0, [], input))
      && (row.checkpoint.None? && w.maxSteps > 0 && !w.cancelled(0) ==>
          STARTED + [Emit(Step(0)), Checkpoint(0, []), CallModel([])] <= Again(w, row).log)
  {
    var log := Cut(RunFrom(w, Fresh(w, start, input)).log, n);
    forall i | 0 <= i < |log| ensures OpensAtTwo(w, log[i], i, input) {
      FreshOpensAtTwo(w, start, input, i);
    }
    RowExists(log, works);
    OpenedAtTwo(log, works, input);
    AsksAboutNothing(w);
  }

  lemma AsksAboutNothing(w: World)
    requires w.persistent
    ensures w.maxSteps > 0 && !w.cancelled(0) ==>
      STARTED + [Emit(Step(0)), Checkpoint(0, []), CallModel([])] <= RunFrom(w, Resumed(0, [])).log
  {
    var l := Resumed(0, []);
    if w.maxSteps > 0 && !w.cancelled(0) {
      IterationAdds(w, l);
      RunGrows(w, Iterate(w, l));
    }
  }
}
