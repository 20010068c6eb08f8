/** Properties of every agent run: resume after a crash, the shape of its trace,
    its bounds, and the permission gate. */
module AgentResults {
  import opened Prelude
  import opened Agent
  import opened RunStore

  // ----- what an iteration adds ---------------------------------------------------

  /** The part of an iteration's log after its opening. */
  function Rest(w: World, l: Loop): seq<Entry>
    requires l.end.None? && l.step < w.maxSteps && !w.cancelled(l.step)
  {
    match w.model(l.messages).end
    case ModelTimeout => [Audit(Executed, AuditError, None)] + FinishLog(w, TimedOut, None)
    case ModelError(e) => [Audit(Executed, AuditError, None)] + FinishLog(w, Failed, None)
    case Replied(r) =>
      (if Corrects(w, l, r) then ModelLog(w, l.messages + [Correction]) else []) +
      ActLog(w, ActsOn(w, l, r).0, ActsOn(w, l, r).1)
  }

  function Added(w: World, l: Loop): seq<Entry>
    requires l.end.None? && l.step < w.maxSteps
  {
    if w.cancelled(l.step) then FinishLog(w, Cancelled, None) else Opening(w, l) + Rest(w, l)
  }

  lemma IterationAdds(w: World, l: Loop)
    requires l.end.None? && l.step < w.maxSteps
    ensures Iterate(w, l).log == l.log + Added(w, l)
  {
    if w.cancelled(l.step) {
      assert [] + FinishLog(w, Cancelled, None) == FinishLog(w, Cancelled, None);
    } else {
      Assoc(l.log, Opening(w, l), Rest(w, l));
      if w.model(l.messages).end.Replied? {
        var r := w.model(l.messages).end.reply;
        var acts := ActLog(w, ActsOn(w, l, r).0, ActsOn(w, l, r).1);
        if Corrects(w, l, r) {
          Assoc(l.log + Opening(w, l), ModelLog(w, l.messages + [Correction]), acts);
        } else {
          assert [] + acts == acts;
        }
      }
    }
  }

  /** The messages only grow, by at least one when a correction was sent. */
  lemma IterationMessages(w: World, l: Loop)
    requires l.end.None? && l.step < w.maxSteps
    ensures l.messages <= Iterate(w, l).messages
    ensures var end := w.model(l.messages).end;
      end.Replied? && !w.cancelled(l.step) && Corrects(w, l, end.reply) ==> |l.messages| < |Iterate(w, l).messages|
  {
  }

  lemma {:induction false} RunGrows(w: World, l: Loop)
    ensures l.messages <= RunFrom(w, l).messages && l.log <= RunFrom(w, l).log
    decreases l.end.None?, if l.step <= w.maxSteps then w.maxSteps - l.step else 0
  {
    if l.end.None? && l.step < w.maxSteps {
      IterationMessages(w, l);
      IterationAdds(w, l);
      RunGrows(w, Iterate(w, l));
    }
  }

  // ----- resume -------------------------------------------------------------------

  /** The correction round is spent exactly when the correction is among the messages. */
  predicate Fair(l: Loop) { l.end.None? && l.retries == if Correction in l.messages then 0 else 1 }

  /** Neither opens the run's row nor writes a checkpoint. */
  predicate Quiet(s: seq<Entry>) { forall e :: e in s ==> !e.Checkpoint? && !e.Begin? }

  lemma ToolLogIsQuiet(w: World, name: string, args: Json)
    ensures Quiet(ToolLog(w, name, args))
  {
    ExecuteLogIsQuiet(w, name, args);
    if OnAllowlist(w, name) && w.registered(name) && w.argsError(name, args).None? && w.policy(name).AskUser? {
      AskLogIsQuiet(name, if w.approves(name, args) then ExecuteLog(w, name, args) else [Emit(ToolDenied(name))]);
    }
  }

  lemma ExecuteLogIsQuiet(w: World, name: string, args: Json)
    ensures Quiet(ExecuteLog(w, name, args))
  {
  }

  /** What asking the user adds before the log of the answer. */
  lemma AskLogIsQuiet(name: string, more: seq<Entry>)
    requires Quiet(more)
    ensures forall o :: Quiet([Audit(ApprovalRequested, AuditOk, Some(name)), Emit(ApprovalNeeded(name))]
                              + ([Audit(ApprovalResolved, o, Some(name))] + more))
  {
  }

  lemma ActLogIsQuiet(w: World, r: Reply, streamed: bool)
    ensures Quiet(ActLog(w, r, streamed))
  {
    match Dispatch(w, r)
    case Final(text) =>
    case ToolCall(name, args) => ToolLogIsQuiet(w, name, args);
  }

  lemma RestIsQuiet(w: World, l: Loop)
    requires l.end.None? && l.step < w.maxSteps && !w.cancelled(l.step)
    ensures Quiet(Rest(w, l))
  {
    if w.model(l.messages).end.Replied? {
      var (reply, streamed) := ActsOn(w, l, w.model(l.messages).end.reply);
      assert Quiet(ModelLog(w, l.messages + [Correction]));
      ActLogIsQuiet(w, reply, streamed);
    }
  }

  /** The loop state at a checkpoint in the log. */
  lemma {:induction false} AtCheckpoint(w: World, l: Loop, c: nat) returns (k: Loop)
    requires Fair(l)
    requires |l.log| <= c < |RunFrom(w, l).log| && RunFrom(w, l).log[c].Checkpoint?
    ensures Fair(k) && RunFrom(w, k) == RunFrom(w, l)
    ensures RunFrom(w, l).log[c] == Checkpoint(k.step, k.messages) && |k.log| == c - 1
    decreases if l.step <= w.maxSteps then w.maxSteps - l.step else 0
  {
    IterationFacts(w, l, c);
    var l' := Iterate(w, l);
    if c < |l'.log| {
      k := l;
    } else {
      k := AtCheckpoint(w, l', c);
    }
  }

  lemma AddedCheckpoint(w: World, l: Loop, i: nat)
    requires l.end.None? && l.step < w.maxSteps && i < |Added(w, l)| && Added(w, l)[i].Checkpoint?
    ensures i == 1 && Added(w, l)[i] == Checkpoint(l.step, l.messages)
  {
    if !w.cancelled(l.step) {
      var opening, rest := Opening(w, l), Rest(w, l);
      RestIsQuiet(w, l);
      assert Added(w, l)[..|opening|] == opening && Added(w, l)[|opening|..] == rest;
    }
  }

  lemma NotBefore(prefix: seq<Entry>, log: seq<Entry>, c: nat)
    requires prefix <= log && (forall e :: e in prefix ==> !e.Checkpoint?) && c < |log| && log[c].Checkpoint?
    ensures |prefix| <= c
  {
    assert forall i :: 0 <= i < |prefix| ==> prefix[i] in prefix && log[i] == prefix[i];
  }

  lemma NotAtTheEnd(w: World, l: Loop, c: nat)
    requires l.end.None? && l.step >= w.maxSteps && |l.log| <= c < |RunFrom(w, l).log|
    ensures !RunFrom(w, l).log[c].Checkpoint?
  {
    assert RunFrom(w, l).log[c] == ([] + FinishLog(w, Failed, None))[c - |l.log|];
  }

  lemma IterationFacts(w: World, l: Loop, c: nat)
    requires l.end.None?
    requires |l.log| <= c < |RunFrom(w, l).log| && RunFrom(w, l).log[c].Checkpoint?
    ensures l.step < w.maxSteps
    ensures c < |Iterate(w, l).log| ==> c == |l.log| + 1 && RunFrom(w, l).log[c] == Checkpoint(l.step, l.messages)
    ensures c >= |Iterate(w, l).log| ==> Iterate(w, l).end.None? && (Fair(l) ==> Fair(Iterate(w, l)))
  {
    if l.step >= w.maxSteps { NotAtTheEnd(w, l, c); }
    RunGrows(w, Iterate(w, l));
    if c < |Iterate(w, l).log| {
      WithinIteration(w, l, RunFrom(w, l).log, c);
    } else if Fair(l) {
      KeepsFair(w, l);
    }
  }

  lemma IndexPast(a: seq<Entry>, b: seq<Entry>, log: seq<Entry>, c: nat)
    requires a + b <= log && |a| <= c < |a + b|
    ensures log[c] == b[c - |a|]
  {
    assert log[c] == (a + b)[c];
  }

  lemma WithinIteration(w: World, l: Loop, log: seq<Entry>, c: nat)
    requires l.end.None? && l.step < w.maxSteps && Iterate(w, l).log <= log
    requires |l.log| <= c < |Iterate(w, l).log| && log[c].Checkpoint?
    ensures c == |l.log| + 1 && log[c] == Checkpoint(l.step, l.messages)
  {
    IterationAdds(w, l);
    IndexPast(l.log, Added(w, l), log, c);
    AddedCheckpoint(w, l, c - |l.log|);
  }

  lemma KeepsFair(w: World, l: Loop)
    requires Fair(l) && l.step < w.maxSteps && Iterate(w, l).end.None?
    ensures Fair(Iterate(w, l))
  {
  }

  /** Runs that agree on messages, step and corrections left do the same from there. */
  lemma {:induction false} SameFuture(w: World, a: Loop, b: Loop)
    requires a.end.None? && b.end.None? && a.messages == b.messages && a.step == b.step && a.retries == b.retries
    ensures var ra, rb := RunFrom(w, a), RunFrom(w, b);
            && ra.messages == rb.messages && ra.end == rb.end
            && a.log <= ra.log && b.log <= rb.log && ra.log[|a.log|..] == rb.log[|b.log|..]
    decreases if a.step <= w.maxSteps then w.maxSteps - a.step else 0
  {
    RunGrows(w, a);
    RunGrows(w, b);
    if a.step < w.maxSteps {
      var a', b' := Iterate(w, a), Iterate(w, b);
      SameStep(w, a, b);
      SameAdded(w, a, b);
      IterationAdds(w, a);
      IterationAdds(w, b);
      if a'.end.None? {
        SameFuture(w, a', b');
        DropPrefix(a.log, Added(w, a), RunFrom(w, a').log);
        DropPrefix(b.log, Added(w, b), RunFrom(w, b').log);
      }
    }
  }

  lemma SameStep(w: World, a: Loop, b: Loop)
    requires a.end.None? && b.end.None? && a.messages == b.messages && a.step == b.step && a.retries == b.retries
    requires a.step < w.maxSteps
    ensures var a', b' := Iterate(w, a), Iterate(w, b);
            a'.messages == b'.messages && a'.step == b'.step && a'.retries == b'.retries && a'.end == b'.end
  {
    if !w.cancelled(a.step) && w.model(a.messages).end.Replied? {
      var r := w.model(a.messages).end.reply;
      var (reply, streamed) := ActsOn(w, a, r);
      assert (reply, streamed) == ActsOn(w, b, r);
      var corrected := Corrects(w, a, r);
      SameAct(w, Replying(w, a, corrected), Replying(w, b, corrected), reply, streamed);
    }
  }

  /** The loop state in which the reply is acted on. */
  function Replying(w: World, l: Loop, corrected: bool): Loop
    requires corrected ==> l.retries > 0
  {
    var l1 := l.(log := l.log + Opening(w, l));
    var ms := l.messages + [Correction];
    if corrected then l1.(messages := ms, retries := l.retries - 1, log := l1.log + ModelLog(w, ms)) else l1
  }

  lemma SameAct(w: World, a: Loop, b: Loop, r: Reply, streamed: bool)
    requires a.messages == b.messages && a.step == b.step && a.retries == b.retries && a.end == b.end
    ensures var a', b' := Act(w, a, r, streamed), Act(w, b, r, streamed);
            a'.messages == b'.messages && a'.step == b'.step && a'.retries == b'.retries && a'.end == b'.end
  {
  }

  lemma SameAdded(w: World, a: Loop, b: Loop)
    requires a.end.None? && b.end.None? && a.messages == b.messages && a.step == b.step && a.retries == b.retries
    requires a.step < w.maxSteps
    ensures Added(w, a) == Added(w, b)
  {
  }

  lemma DropPrefix(a: seq<Entry>, added: seq<Entry>, r: seq<Entry>)
    requires a + added <= r
    ensures r[|a|..] == added + r[|a| + |added|..]
  {
    assert r == a + added + r[|a| + |added|..];
  }

  /** The run was completed by accepting a malformed tool call as the answer. */
  predicate EndsMalformed(w: World, r: Loop) {
    r.end.Some? && r.end.value.state.Completed? && r.last.Some? && Malformed(w, r.last.value)
  }

  /** With and without the correction round left: the same end, unless a malformed
      reply ends the run that has none. */
  lemma {:induction false} CorrectionMatters(w: World, a: Loop, b: Loop)
    requires a.end.None? && b.end.None? && a.messages == b.messages && a.step == b.step
    requires a.retries == 0 && b.retries == 1
    ensures var ra, rb := RunFrom(w, a), RunFrom(w, b);
            (ra.messages == rb.messages && ra.end == rb.end) <==> !EndsMalformed(w, ra)
    decreases if a.step <= w.maxSteps then w.maxSteps - a.step else 0
  {
    if a.step < w.maxSteps {
      var a', b' := Iterate(w, a), Iterate(w, b);
      IterationMessages(w, b);
      RunGrows(w, b');
      if a'.end.None? && b'.messages == a'.messages {
        CorrectionMatters(w, a', b');
      }
    }
  }

  /** Resuming from the checkpoint at position `c` of a run's log. */
  lemma ResumeFrom(w: World, l0: Loop, c: nat, step: nat, messages: seq<Message>)
    requires Fair(l0) && |l0.log| <= c < |RunFrom(w, l0).log| && RunFrom(w, l0).log[c] == Checkpoint(step, messages)
    ensures var full, again := RunFrom(w, l0), RunFrom(w, Resumed(step, messages));
            && ((again.messages == full.messages && again.end == full.end)
                <==> !(Correction in messages && EndsMalformed(w, full)))
            && (Correction !in messages ==> c > 0 && again.log == STARTED + full.log[c - 1..])
  {
    var k := AtCheckpoint(w, l0, c);
    var r := Resumed(step, messages);
    if Correction in k.messages {
      CorrectionMatters(w, k, r);
    } else {
      SameFuture(w, k, r);
      var again := RunFrom(w, r);
      assert again.log == STARTED + again.log[|STARTED|..];
    }
  }

  /** Kill a run anywhere, with any of its writes lost, and resume it from the stored
      checkpoint: it ends with the same messages, answer and state as the
      uninterrupted run, unless the correction round had been spent before that
      checkpoint and the uninterrupted run then ends on a malformed reply. When no
      correction was spent, it even does exactly the rest of what the run did. */
  lemma ResumeEqualsUninterrupted(w: World, start: seq<Message>, input: string, n: nat, works: nat -> bool)
    requires Correction !in start
    requires n <= |RunFrom(w, Fresh(w, start, input)).log|
    requires var row := AfterCrash(RunFrom(w, Fresh(w, start, input)).log[..n], works);
             row.Some? && row.value.checkpoint.Some?
    ensures var full := RunFrom(w, Fresh(w, start, input));
            var (step, messages, _) := Loaded(AfterCrash(full.log[..n], works).value);
            var again := RunFrom(w, Resumed(step, messages));
            && ((again.messages == full.messages && again.end == full.end)
                <==> !(Correction in messages && EndsMalformed(w, full)))
            && (Correction !in messages ==>
                exists c :: 0 < c < n && IsLastCheckpoint(full.log[..n], works, c)
                  && full.log[c] == Checkpoint(step, messages) && again.log == STARTED + full.log[c - 1..])
  {
    var l0 := Fresh(w, start, input);
    var full := RunFrom(w, l0);
    var row := AfterCrash(full.log[..n], works).value;
    LoadsLastCheckpoint(full.log[..n], works, row.step, row.checkpoint.value);
    var c: nat :| IsLastCheckpoint(full.log[..n], works, c)
      && full.log[..n][c] == Checkpoint(row.step, row.checkpoint.value);
    RunGrows(w, l0);
    NotBefore(l0.log, full.log, c);
    ResumeFrom(w, l0, c, row.step, row.checkpoint.value);
  }

  /** A model that calls a tool when corrected, and otherwise answers with a broken call. */
  function Stubborn(): World {
    var broken := Reply("{\"tool\": ", None);
    var call := Reply("", Some(ToolCall("files.list", "{}")));
    World(2, ms => ModelOutcome([], Replied(if ms != [] && ms[|ms| - 1] == Correction then call else broken)),
          _ => None, _ => true, [], _ => true, (_, _) => None, _ => Allow, (_, _) => true,
          (_, _) => ToolOk("[]", "listed"), _ => false, true, false)
  }

  const LISTED := ToolResult("files.list", "[]", false)

  lemma StubbornReplies(ms: seq<Message>)
    requires ms != [] && ms[|ms| - 1] != Correction
    ensures var w := Stubborn();
            && w.model(ms).end.Replied? && Malformed(w, w.model(ms).end.reply)
            && Dispatch(w, w.model(ms).end.reply).Final?
            && w.model(ms + [Correction]).end.Replied?
            && Dispatch(w, w.model(ms + [Correction]).end.reply) == ToolCall("files.list", "{}")
    ensures ToolMessage(Stubborn(), "files.list", "{}") == LISTED
    ensures forall i :: !Stubborn().cancelled(i)
    ensures Stubborn().maxSteps == 2
  {
  }

  lemma StubbornCorrects(w: World, l: Loop)
    requires w == Stubborn() && l.end.None? && l.step < 2 && l.retries > 0
    requires l.messages != [] && l.messages[|l.messages| - 1] != Correction
    ensures var l' := Iterate(w, l);
            && l'.messages == l.messages + [Correction] + [LISTED] && l'.step == l.step + 1
            && l'.retries == l.retries - 1 && l'.end.None?
  {
    StubbornReplies(l.messages);
  }

  lemma StubbornAnswers(w: World, l: Loop)
    requires w == Stubborn() && l.end.None? && l.step < 2 && l.retries == 0
    requires l.messages != [] && l.messages[|l.messages| - 1] != Correction
    ensures RunFrom(w, l).end.value.state == Completed
  {
    StubbornReplies(l.messages);
    assert Iterate(w, l).end.Some?;
  }

  lemma StubbornStarves(w: World, l: Loop)
    requires w == Stubborn() && l.end.None? && l.step == 1 && l.retries == 1
    requires l.messages != [] && l.messages[|l.messages| - 1] != Correction
    ensures RunFrom(w, l).end.value.state == Failed
  {
    StubbornCorrects(w, l);
    var l' := Iterate(w, l);
    assert w.maxSteps == 2 && l'.step == 2;
    assert RunFrom(w, l) == RunFrom(w, l');
    OutOfSteps(w, l');
  }

  lemma OutOfSteps(w: World, l: Loop)
    requires l.end.None? && l.step >= w.maxSteps
    ensures RunFrom(w, l).end.value.state == Failed
  {
  }

  /** The exception is real, from the start of a run: at the checkpoint after its first
      correction, the resumed run asks for a second one and fails where the uninterrupted run completed. */
  lemma SpentCorrectionDiffers(w: World, l: Loop)
    requires w == Stubborn() && l.end.None? && l.step == 0 && l.retries == 1 && l.messages == [UserText("list")]
    ensures var k := Iterate(w, l);
            && k.end.None? && Correction in k.messages
            && RunFrom(w, k).end.value.state == Completed
            && RunFrom(w, Resumed(k.step, k.messages)).end.value.state == Failed
  {
    StubbornCorrects(w, l);
    var k := Iterate(w, l);
    assert k.messages[2] == LISTED && k.messages[1] == Correction && |k.messages| == 3;
    StubbornAnswers(w, k);
    StubbornStarves(w, Resumed(k.step, k.messages));
  }
}
