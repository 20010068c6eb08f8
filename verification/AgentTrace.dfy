/** The shape of a run's trace: one terminal event, bounded calls, gated tools. */
module AgentTrace {
  import opened Prelude
  import opened Agent
  import opened AgentResults

  // ----- one Done, last -----------------------------------------------------------

  predicate NoDone(s: seq<Entry>) { forall e :: e in s ==> !(e.Emit? && e.event.Done?) }

  /** `s` ends with the Done event of `end`, and holds no other. */
  predicate EndsWith(s: seq<Entry>, end: End) {
    s != [] && s[|s| - 1] == Emit(Done(end.state, end.answer)) && NoDone(s[..|s| - 1])
  }

  lemma EndsConcat(a: seq<Entry>, b: seq<Entry>, end: End)
    requires NoDone(a) && EndsWith(b, end)
    ensures EndsWith(a + b, end)
  {
    assert (a + b)[..|a + b| - 1] == a + b[..|b| - 1];
  }

  lemma FinishEnds(w: World, end: End)
    ensures EndsWith(FinishLog(w, end.state, end.answer), end)
  {
  }

  lemma ToolEnds(w: World, name: string, args: Json)
    ensures NoDone(ToolLog(w, name, args))
  {
    assert NoDone(ExecuteLog(w, name, args));
  }

  lemma ActEnds(w: World, r: Reply, streamed: bool)
    ensures match Dispatch(w, r)
            case ToolCall(_, _) => NoDone(ActLog(w, r, streamed))
            case Final(text) => EndsWith(ActLog(w, r, streamed), End(Completed, Some(text), None))
  {
    match Dispatch(w, r)
    case ToolCall(name, args) => ToolEnds(w, name, args);
    case Final(text) =>
      var a := Keep(w, AssistantText(text)) + (if streamed then [] else [Emit(TextDelta(text))]);
      var end := End(Completed, Some(text), None);
      FinishEnds(w, end);
      EndsConcat([Audit(ModelResponded, AuditOk, None)] + a, FinishLog(w, Completed, Some(text)), end);
      assert ActLog(w, r, streamed) == [Audit(ModelResponded, AuditOk, None)] + a + FinishLog(w, Completed, Some(text));
  }

  lemma AddedEnds(w: World, l: Loop)
    requires l.end.None? && l.step < w.maxSteps
    ensures Iterate(w, l).end.None? ==> NoDone(Added(w, l))
    ensures Iterate(w, l).end.Some? ==> EndsWith(Added(w, l), Iterate(w, l).end.value)
  {
    if w.cancelled(l.step) {
      FinishEnds(w, End(Cancelled, None, None));
    } else {
      OpeningSilent(w, l);
      RestEnds(w, l);
      JoinEnds(Opening(w, l), Rest(w, l), Iterate(w, l).end);
    }
  }

  lemma OpeningSilent(w: World, l: Loop)
    ensures NoDone(Opening(w, l))
  {
  }

  lemma JoinEnds(a: seq<Entry>, b: seq<Entry>, end: Option<End>)
    requires NoDone(a) && if end.Some? then EndsWith(b, end.value) else NoDone(b)
    ensures if end.Some? then EndsWith(a + b, end.value) else NoDone(a + b)
  {
    if end.Some? { EndsConcat(a, b, end.value); }
  }

  lemma RestEnds(w: World, l: Loop)
    requires l.end.None? && l.step < w.maxSteps && !w.cancelled(l.step)
    ensures Iterate(w, l).end.None? ==> NoDone(Rest(w, l))
    ensures Iterate(w, l).end.Some? ==> EndsWith(Rest(w, l), Iterate(w, l).end.value)
  {
    match w.model(l.messages).end
    case ModelTimeout =>
      FinishEnds(w, End(TimedOut, None, Some(ErrTimeout)));
      EndsConcat([Audit(Executed, AuditError, None)], FinishLog(w, TimedOut, None),
        End(TimedOut, None, Some(ErrTimeout)));
    case ModelError(e) =>
      FinishEnds(w, End(Failed, None, Some(ErrProvider(e))));
      EndsConcat([Audit(Executed, AuditError, None)], FinishLog(w, Failed, None),
        End(Failed, None, Some(ErrProvider(e))));
    case Replied(r) =>
      var (reply, streamed) := ActsOn(w, l, r);
      var corrected := if Corrects(w, l, r) then ModelLog(w, l.messages + [Correction]) else [];
      ActEnds(w, reply, streamed);
      if Iterate(w, l).end.Some? { EndsConcat(corrected, ActLog(w, reply, streamed), Iterate(w, l).end.value); }
  }

  /** Every run emits exactly one Done, as its last act, and it announces the state
      and answer that `run` returns. */
  lemma {:induction false} OneDoneLast(w: World, l: Loop)
    requires l.end.None? && NoDone(l.log)
    ensures EndsWith(RunFrom(w, l).log, RunFrom(w, l).end.value)
    decreases if l.step <= w.maxSteps then w.maxSteps - l.step else 0
  {
    if l.step >= w.maxSteps {
      var end := End(Failed, None, Some(ErrMaxSteps));
      FinishEnds(w, end);
      EndsConcat(l.log, FinishLog(w, Failed, None), end);
      assert [] + FinishLog(w, Failed, None) == FinishLog(w, Failed, None);
    } else {
      var l' := Iterate(w, l);
      IterationAdds(w, l);
      AddedEnds(w, l);
      if l'.end.None? {
        OneDoneLast(w, l');
      } else {
        EndsConcat(l.log, Added(w, l), l'.end.value);
      }
    }
  }

  // ----- bounds -------------------------------------------------------------------

  function ModelCalls(s: seq<Entry>): nat {
    if s == [] then 0 else ModelCalls(s[..|s| - 1]) + if s[|s| - 1].CallModel? then 1 else 0
  }

  function ToolCalls(s: seq<Entry>): nat {
    if s == [] then 0 else ToolCalls(s[..|s| - 1]) + if s[|s| - 1].CallTool? then 1 else 0
  }

  lemma {:induction false} CallsConcat(a: seq<Entry>, b: seq<Entry>)
    ensures ModelCalls(a + b) == ModelCalls(a) + ModelCalls(b)
    ensures ToolCalls(a + b) == ToolCalls(a) + ToolCalls(b)
  {
    if b == [] {
      assert a + b == a;
    } else {
      assert (a + b)[..|a + b| - 1] == a + b[..|b| - 1];
      CallsConcat(a, b[..|b| - 1]);
    }
  }

  lemma {:induction false} NoCalls(s: seq<Entry>)
    requires forall e :: e in s ==> !e.CallModel? && !e.CallTool?
    ensures ModelCalls(s) == 0 && ToolCalls(s) == 0
  {
    if s != [] { NoCalls(s[..|s| - 1]); }
  }

  lemma ModelLogCalls(w: World, ms: seq<Message>)
    ensures ModelCalls(ModelLog(w, ms)) == 1 && ToolCalls(ModelLog(w, ms)) == 0
  {
    CallsConcat([CallModel(ms)], Deltas(w.model(ms).deltas));
    NoCalls(Deltas(w.model(ms).deltas));
    assert [CallModel(ms)][..0] == [];
  }

  lemma ExecuteCalls(w: World, name: string, args: Json)
    ensures ModelCalls(ExecuteLog(w, name, args)) == 0 && ToolCalls(ExecuteLog(w, name, args)) == 1
  {
    var s := ExecuteLog(w, name, args);
    assert s == s[..1] + [s[1]] + s[2..];
    NoCalls(s[..1]);
    NoCalls(s[2..]);
    CallsConcat(s[..1], [s[1]]);
    CallsConcat(s[..1] + [s[1]], s[2..]);
    assert [s[1]][..0] == [];
  }

  lemma ToolLogCalls(w: World, name: string, args: Json)
    ensures ModelCalls(ToolLog(w, name, args)) == 0 && ToolCalls(ToolLog(w, name, args)) <= 1
  {
    if Permitted(w, name, args) {
      GateThenExecution(w, name, args);
      ExecuteCalls(w, name, args);
      NoCalls(Gate(w, name));
      CallsConcat(Gate(w, name), ExecuteLog(w, name, args));
    } else {
      NoCalls(ToolLog(w, name, args));
    }
  }

  /** A call is executed if and only if it is permitted, and what the model is told of it is
      an error if and only if it was not, or failed. */
  lemma ObservationTells(w: World, name: string, args: Json)
    ensures CallTool(name, args) in ToolLog(w, name, args) <==> Permitted(w, name, args)
    ensures ToolMessage(w, name, args).tool == name
    ensures ToolMessage(w, name, args).isError <==> !Permitted(w, name, args) || w.execute(name, args).ToolErr?
  {
    if Permitted(w, name, args) {
      GateThenExecution(w, name, args);
      assert ExecuteLog(w, name, args)[1] == CallTool(name, args);
    }
  }

  /** The model is told which gate refused a call, the first one that did, and of a call that
      ran its value or its error. */
  lemma ObservationSays(w: World, name: string, args: Json)
    ensures var said := ToolMessage(w, name, args).output;
      && (|w.allowlist| > 0 && name !in w.allowlist ==> said == "tool not in this agent's allowlist")
      && ((|w.allowlist| == 0 || name in w.allowlist) && !w.registered(name) ==> said == "unknown tool")
      && (Offered(w, name) && w.argsError(name, args).Some? ==> Some(said) == w.argsError(name, args))
      && (Checked(w, name, args) && w.policy(name) == Deny ==> said == "permission denied by policy")
      && (Checked(w, name, args) && w.policy(name) == AskUser && !w.approves(name, args) ==>
            said == "user denied approval")
      && (Permitted(w, name, args) && w.execute(name, args).ToolOk? ==> said == w.execute(name, args).value)
      && (Permitted(w, name, args) && w.execute(name, args).ToolErr? ==> said == w.execute(name, args).error)
  {
  }

  /** The call got as far as the policy. */
  predicate Checked(w: World, name: string, args: Json) { Offered(w, name) && w.argsError(name, args) == None }

  predicate Succeeds(w: World, name: string, args: Json) {
    Permitted(w, name, args) && w.execute(name, args).ToolOk?
  }

  /** What the gate records of a call, and of which calls. */
  predicate GateRecords(w: World, name: string, args: Json, s: seq<Entry>) {
    && (Emit(ToolCallRequested(name)) in s <==> Offered(w, name))
    && (Audit(Requested, AuditOk, Some(name)) in s <==> Offered(w, name))
    && (Emit(ApprovalNeeded(name)) in s <==> Checked(w, name, args) && w.policy(name) == AskUser)
    && (Emit(ToolDenied(name)) in s <==> Checked(w, name, args) && !Permitted(w, name, args))
  }

  /** What is recorded of a call that ran; changes of the memory are recorded too. */
  predicate RunRecords(w: World, name: string, args: Json, s: seq<Entry>) {
    && (Audit(Allowed, AuditOk, Some(name)) in s <==> Permitted(w, name, args))
    && (Audit(Executed, AuditOk, Some(name)) in s <==> Succeeds(w, name, args))
    && (Emit(ToolExecuted(name)) in s <==> Succeeds(w, name, args))
    && (Audit(MemoryWritten, AuditOk, Some(name)) in s <==> Succeeds(w, name, args) && name == "memory.remember")
    && (Audit(MemoryDeleted, AuditOk, Some(name)) in s <==> Succeeds(w, name, args) && name == "memory.forget")
  }

  lemma RecordsTell(w: World, name: string, args: Json)
    ensures GateRecords(w, name, args, ToolLog(w, name, args)) && RunRecords(w, name, args, ToolLog(w, name, args))
  {
    if Permitted(w, name, args) {
      GateThenExecution(w, name, args);
      ExecutionRecords(w, name, args);
      NoGateRecords(w, name, args);
      Together(w, name, args, Gate(w, name), ExecuteLog(w, name, args));
    } else {
      RefusalRecords(w, name, args);
      NoRunRecords(w, name, args);
    }
  }

  lemma Together(w: World, name: string, args: Json, before: seq<Entry>, s: seq<Entry>)
    requires GateRecords(w, name, args, before) && forall e :: e in s ==> e.Audit? ==> e.kind != Requested
    requires forall e :: e in before ==> e.Audit? ==> e.kind !in {Allowed, Executed, MemoryWritten, MemoryDeleted}
    requires Emit(ToolExecuted(name)) !in before && RunRecords(w, name, args, s)
    requires forall x :: Emit(x) in s ==> x == ToolExecuted(name)
    ensures GateRecords(w, name, args, before + s) && RunRecords(w, name, args, before + s)
  {
  }

  lemma ExecutionRecords(w: World, name: string, args: Json)
    requires Permitted(w, name, args)
    ensures RunRecords(w, name, args, ExecuteLog(w, name, args))
  {
  }

  lemma NoGateRecords(w: World, name: string, args: Json)
    ensures forall e :: e in ExecuteLog(w, name, args) ==> e.Audit? ==> e.kind != Requested
    ensures forall x :: Emit(x) in ExecuteLog(w, name, args) ==> x == ToolExecuted(name)
  {
  }

  lemma RefusalRecords(w: World, name: string, args: Json)
    requires !Permitted(w, name, args)
    ensures GateRecords(w, name, args, ToolLog(w, name, args))
  {
  }

  lemma NoRunRecords(w: World, name: string, args: Json)
    requires !Permitted(w, name, args)
    ensures RunRecords(w, name, args, ToolLog(w, name, args))
  {
  }

  /** The gate's own records of a permitted call. */
  function Gate(w: World, name: string): seq<Entry> {
    [Emit(ToolCallRequested(name)), Audit(Requested, AuditOk, Some(name))] +
    if w.policy(name) == Allow then []
    else [Audit(ApprovalRequested, AuditOk, Some(name)), Emit(ApprovalNeeded(name)),
          Audit(ApprovalResolved, AuditOk, Some(name))]
  }

  /** They come before those of the execution. */
  lemma GateThenExecution(w: World, name: string, args: Json)
    requires Permitted(w, name, args)
    ensures ToolLog(w, name, args) == Gate(w, name) + ExecuteLog(w, name, args)
  {
  }

  lemma ActCalls(w: World, r: Reply, streamed: bool)
    ensures ModelCalls(ActLog(w, r, streamed)) == 0
    ensures ToolCalls(ActLog(w, r, streamed)) <= if Dispatch(w, r).ToolCall? then 1 else 0
  {
    match Dispatch(w, r)
    case Final(_) => NoCalls(ActLog(w, r, streamed));
    case ToolCall(name, args) =>
      var a, b, c := [Audit(ModelResponded, AuditOk, None)], ToolLog(w, name, args),
        Keep(w, ToolMessage(w, name, args));
      ToolLogCalls(w, name, args);
      NoCalls(a);
      NoCalls(c);
      CallsConcat(b, c);
      CallsConcat(a, b + c);
  }

  lemma OpeningCalls(w: World, l: Loop)
    ensures ModelCalls(Opening(w, l)) == 1 && ToolCalls(Opening(w, l)) == 0
  {
    var a := [Emit(Step(l.step))] + if w.persistent then [Checkpoint(l.step, l.messages)] else [];
    NoCalls(a);
    ModelLogCalls(w, l.messages);
    CallsConcat(a, ModelLog(w, l.messages));
  }

  lemma AddedCalls(w: World, l: Loop)
    requires l.end.None? && l.step < w.maxSteps
    ensures ModelCalls(Added(w, l)) + Iterate(w, l).retries <= 1 + l.retries
    ensures ToolCalls(Added(w, l)) <= Iterate(w, l).step - l.step
    ensures Iterate(w, l).end.None? ==> Iterate(w, l).step == l.step + 1
  {
    if w.cancelled(l.step) {
      NoCalls(Added(w, l));
    } else {
      OpeningCalls(w, l);
      CallsConcat(Opening(w, l), Rest(w, l));
      RestCalls(w, l);
    }
  }

  lemma RestCalls(w: World, l: Loop)
    requires l.end.None? && l.step < w.maxSteps && !w.cancelled(l.step)
    ensures ModelCalls(Rest(w, l)) + Iterate(w, l).retries <= l.retries
    ensures ToolCalls(Rest(w, l)) <= Iterate(w, l).step - l.step
    ensures Iterate(w, l).end.None? ==> Iterate(w, l).step == l.step + 1
  {
    if w.model(l.messages).end.Replied? {
      var r := w.model(l.messages).end.reply;
      var (reply, streamed) := ActsOn(w, l, r);
      var corrected := if Corrects(w, l, r) then ModelLog(w, l.messages + [Correction]) else [];
      ModelLogCalls(w, l.messages + [Correction]);
      ActCalls(w, reply, streamed);
      CallsConcat(corrected, ActLog(w, reply, streamed));
    } else {
      NoCalls(Rest(w, l));
    }
  }

  /** From step `s` with `r` corrections left, at most (max_steps - s) + r model calls
      and max_steps - s tool calls. */
  lemma {:induction false} CallsBounded(w: World, l: Loop)
    requires l.end.None? && l.step <= w.maxSteps
    ensures ModelCalls(RunFrom(w, l).log) <= ModelCalls(l.log) + (w.maxSteps - l.step) + l.retries
    ensures ToolCalls(RunFrom(w, l).log) <= ToolCalls(l.log) + (w.maxSteps - l.step)
    decreases w.maxSteps - l.step
  {
    if l.step == w.maxSteps {
      NoCalls([] + FinishLog(w, Failed, None));
      CallsConcat(l.log, [] + FinishLog(w, Failed, None));
    } else {
      var l' := Iterate(w, l);
      IterationAdds(w, l);
      AddedCalls(w, l);
      CallsConcat(l.log, Added(w, l));
      if l'.end.None? { CallsBounded(w, l'); }
    }
  }

  // ----- the gate -----------------------------------------------------------------

  /** Around position `i`: a tool is called only right after it was allowed, and only
      when it is permitted; it is allowed only to be called; an execution is audited
      only right after the call. */
  predicate GatedAt(w: World, s: seq<Entry>, i: nat)
    requires i < |s|
  {
    match s[i]
    case CallTool(name, args) =>
      && i > 0 && s[i - 1] == Audit(Allowed, AuditOk, Some(name)) && Permitted(w, name, args)
      && i + 1 < |s| && s[i + 1].Audit? && s[i + 1].kind.Executed? && s[i + 1].tool == Some(name)
    case Audit(Allowed, _, tool) => tool.Some? && i + 1 < |s| && s[i + 1].CallTool? && s[i + 1].name == tool.value
    case Audit(Executed, _, Some(name)) => i > 0 && s[i - 1].CallTool? && s[i - 1].name == name
    case _ => true
  }

  predicate Gated(w: World, s: seq<Entry>) { forall i :: 0 <= i < |s| ==> GatedAt(w, s, i) }

  lemma GatedConcat(w: World, a: seq<Entry>, b: seq<Entry>)
    requires Gated(w, a) && Gated(w, b)
    ensures Gated(w, a + b)
  {
    forall i | 0 <= i < |a + b| ensures GatedAt(w, a + b, i) {
      if i < |a| { assert GatedAt(w, a, i); } else { assert GatedAt(w, b, i - |a|); }
    }
  }

  predicate Harmless(e: Entry) {
    !e.CallTool? && (e.Audit? ==> !e.kind.Allowed? && (e.kind.Executed? ==> e.tool.None?))
  }

  lemma HarmlessGated(w: World, s: seq<Entry>)
    requires forall e :: e in s ==> Harmless(e)
    ensures Gated(w, s)
  {
    forall i | 0 <= i < |s| ensures GatedAt(w, s, i) { assert Harmless(s[i]); }
  }

  lemma ExecuteGated(w: World, name: string, args: Json)
    requires Permitted(w, name, args)
    ensures Gated(w, ExecuteLog(w, name, args))
  {
    var e := ExecuteLog(w, name, args);
    HarmlessGated(w, e[3..]);
    assert e == e[..3] + e[3..] && Gated(w, e[..3]);
    GatedConcat(w, e[..3], e[3..]);
  }

  lemma ToolLogGated(w: World, name: string, args: Json)
    ensures Gated(w, ToolLog(w, name, args))
  {
    var s := ToolLog(w, name, args);
    if Permitted(w, name, args) {
      var e := ExecuteLog(w, name, args);
      var before := s[..|s| - |e|];
      assert s == before + e;
      HarmlessGated(w, before);
      ExecuteGated(w, name, args);
      GatedConcat(w, before, e);
    } else {
      HarmlessGated(w, s);
    }
  }

  lemma ActGated(w: World, r: Reply, streamed: bool)
    ensures Gated(w, ActLog(w, r, streamed))
  {
    match Dispatch(w, r)
    case Final(_) => HarmlessGated(w, ActLog(w, r, streamed));
    case ToolCall(name, args) =>
      var a, b, c := [Audit(ModelResponded, AuditOk, None)], ToolLog(w, name, args),
        Keep(w, ToolMessage(w, name, args));
      ToolLogGated(w, name, args);
      HarmlessGated(w, a);
      HarmlessGated(w, c);
      GatedConcat(w, b, c);
      GatedConcat(w, a, b + c);
  }

  lemma AddedGated(w: World, l: Loop)
    requires l.end.None? && l.step < w.maxSteps
    ensures Gated(w, Added(w, l))
  {
    if w.cancelled(l.step) {
      HarmlessGated(w, Added(w, l));
    } else {
      HarmlessGated(w, Opening(w, l));
      if w.model(l.messages).end.Replied? {
        var r := w.model(l.messages).end.reply;
        var (reply, streamed) := ActsOn(w, l, r);
        var corrected := if Corrects(w, l, r) then ModelLog(w, l.messages + [Correction]) else [];
        HarmlessGated(w, corrected);
        ActGated(w, reply, streamed);
        GatedConcat(w, corrected, ActLog(w, reply, streamed));
      } else {
        HarmlessGated(w, Rest(w, l));
      }
      GatedConcat(w, Opening(w, l), Rest(w, l));
    }
  }

  /** In every run, a tool is executed exactly where it was allowed: on the allowlist,
      registered, with valid arguments, and by policy or by a granted approval. */
  lemma {:induction false} ToolsAreGated(w: World, l: Loop)
    requires l.end.None? && Gated(w, l.log)
    ensures Gated(w, RunFrom(w, l).log)
    decreases if l.step <= w.maxSteps then w.maxSteps - l.step else 0
  {
    if l.step >= w.maxSteps {
      HarmlessGated(w, [] + FinishLog(w, Failed, None));
      GatedConcat(w, l.log, [] + FinishLog(w, Failed, None));
    } else {
      var l' := Iterate(w, l);
      IterationAdds(w, l);
      AddedGated(w, l);
      GatedConcat(w, l.log, Added(w, l));
      if l'.end.None? { ToolsAreGated(w, l'); }
    }
  }

  /** All of it for a fresh run, and for a resumed one. */
  lemma RunTrace(w: World, l: Loop)
    requires l.end.None? && l.retries == 1 && l.step <= w.maxSteps
    requires l.log == STARTED || exists ms, input :: l == Fresh(w, ms, input)
    ensures var r := RunFrom(w, l);
            && STARTED <= r.log && EndsWith(r.log, r.end.value) && Gated(w, r.log)
            && ModelCalls(r.log) <= (w.maxSteps - l.step) + 1 && ToolCalls(r.log) <= w.maxSteps - l.step
  {
    assert forall e :: e in l.log ==> Harmless(e) && !e.CallModel? && !(e.Emit? && e.event.Done?);
    NoCalls(l.log);
    HarmlessGated(w, l.log);
    OneDoneLast(w, l);
    CallsBounded(w, l);
    ToolsAreGated(w, l);
    RunGrows(w, l);
  }
}
