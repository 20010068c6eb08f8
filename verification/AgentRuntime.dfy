/** The step loop as the program runs it, proved against the functions of `Agent`. */
module AgentRuntime {
  import opened Prelude
  import opened Agent

  class Runtime {
    const w: World
    /** What the run has done so far. */
    var log: seq<Entry>

    constructor (w: World)
      ensures this.w == w && log == []
    {
      this.w := w;
      log := [];
    }

    method FinishRun(state: RunState, answer: Option<string>)
      modifies this
      ensures log == old(log) + FinishLog(w, state, answer)
    {
      var outcome := if state.Cancelled? then AuditCancelled else if state.Completed? then AuditOk else AuditError;
      log := log + [Audit(RunFinished, outcome, None)];
      if w.persistent { log := log + [Finish(state)]; }
      log := log + [Emit(Done(state, answer))];
    }

    method GenerateStep(messages: seq<Message>) returns (end: ModelEnd, streamed: bool)
      modifies this
      ensures log == old(log) + ModelLog(w, messages)
      ensures end == w.model(messages).end && streamed == (w.model(messages).deltas != [])
    {
      log := log + [CallModel(messages)];
      var o := w.model(messages);
      streamed := false;
      for i := 0 to |o.deltas|
        invariant log == old(log) + [CallModel(messages)] + Deltas(o.deltas)[..i]
        invariant streamed == (i > 0)
      {
        log := log + [Emit(TextDelta(o.deltas[i]))];
        assert Deltas(o.deltas)[..i + 1] == Deltas(o.deltas)[..i] + [Emit(TextDelta(o.deltas[i]))];
        streamed := true;
      }
      assert Deltas(o.deltas)[..|o.deltas|] == Deltas(o.deltas);
      end := o.end;
    }

    method ExecuteTool(name: string, args: Json) returns (msg: Message)
      modifies this
      ensures log == old(log) + ToolLog(w, name, args) && msg == ToolMessage(w, name, args)
    {
      if w.allowlist != [] && name !in w.allowlist {
        log := log + [Audit(Denied, AuditDenied, Some(name))];
        return ToolResult(name, "tool not in this agent's allowlist", true);
      }
      if !w.registered(name) {
        log := log + [Audit(Denied, AuditDenied, Some(name))];
        return ToolResult(name, "unknown tool", true);
      }
      log := log + [Emit(ToolCallRequested(name)), Audit(Requested, AuditOk, Some(name))];
      var invalid := w.argsError(name, args);
      if invalid.Some? {
        log := log + [Audit(Denied, AuditError, Some(name))];
        return ToolResult(name, invalid.value, true);
      }
      match w.policy(name) {
        case Deny =>
          log := log + [Audit(Denied, AuditDenied, Some(name)), Emit(ToolDenied(name))];
          return ToolResult(name, "permission denied by policy", true);
        case AskUser =>
          log := log + [Audit(ApprovalRequested, AuditOk, Some(name)), Emit(ApprovalNeeded(name))];
          var granted := w.approves(name, args);
          log := log + [Audit(ApprovalResolved, if granted then AuditOk else AuditDenied, Some(name))];
          if !granted {
            log := log + [Emit(ToolDenied(name))];
            return ToolResult(name, "user denied approval", true);
          }
        case Allow =>
      }
      msg := Execute(name, args);
    }

    method Execute(name: string, args: Json) returns (msg: Message)
      modifies this
      ensures log == old(log) + ExecuteLog(w, name, args)
      ensures msg == match w.execute(name, args)
                     case ToolOk(value, _) => ToolResult(name, value, false)
                     case ToolErr(e) => ToolResult(name, e, true)
    {
      log := log + [Audit(Allowed, AuditOk, Some(name)), CallTool(name, args)];
      match w.execute(name, args) {
        case ToolOk(value, _) =>
          log := log + [Audit(Executed, AuditOk, Some(name))];
          if name == "memory.remember" {
            log := log + [Audit(MemoryWritten, AuditOk, Some(name))];
          } else if name == "memory.forget" {
            log := log + [Audit(MemoryDeleted, AuditOk, Some(name))];
          }
          log := log + [Emit(ToolExecuted(name))];
          msg := ToolResult(name, value, false);
        case ToolErr(e) =>
          log := log + [Audit(Executed, AuditError, Some(name))];
          msg := ToolResult(name, e, true);
      }
    }

    method ModelFailed(state: RunState)
      modifies this
      ensures log == old(log) + ([Audit(Executed, AuditError, None)] + FinishLog(w, state, None))
    {
      log := log + [Audit(Executed, AuditError, None)];
      FinishRun(state, None);
    }

    /** The start of an iteration: announce it, checkpoint, ask the model. */
    method Open(step: nat, messages: seq<Message>) returns (end: ModelEnd, streamed: bool)
      modifies this
      ensures forall l: Loop :: l.step == step && l.messages == messages ==> log == old(log) + Opening(w, l)
      ensures end == w.model(messages).end && streamed == (w.model(messages).deltas != [])
    {
      log := log + [Emit(Step(step))];
      if w.persistent { log := log + [Checkpoint(step, messages)]; }
      end, streamed := GenerateStep(messages);
    }

    /** A final answer: keep it, emit it unless it was streamed, finish. */
    method Answer(text: string, streamed: bool)
      modifies this
      ensures log == old(log) + (Keep(w, AssistantText(text)) + (if streamed then [] else [Emit(TextDelta(text))])
                                 + FinishLog(w, Completed, Some(text)))
    {
      if w.persistent && w.inConversation { log := log + [Append(AssistantText(text))]; }
      if !streamed { log := log + [Emit(TextDelta(text))]; }
      FinishRun(Completed, Some(text));
    }

    /** Act on the reply: a final answer ends the run (None), a tool call yields its observation. */
    method ActOn(reply: Reply, streamed: bool) returns (observed: Option<Message>)
      modifies this
      ensures log == old(log) + ActLog(w, reply, streamed)
      ensures observed == match Dispatch(w, reply)
                          case Final(_) => None
                          case ToolCall(name, args) => Some(ToolMessage(w, name, args))
    {
      var noted := [Audit(ModelResponded, AuditOk, None)];
      log := log + noted;
      match Dispatch(w, reply) {
        case Final(text) =>
          Answer(text, streamed);
          Assoc(old(log), noted, ActLog(w, reply, streamed)[1..]);
          observed := None;
        case ToolCall(name, args) =>
          var msg := Observe(name, args);
          Assoc(old(log), noted, ToolLog(w, name, args) + Keep(w, msg));
          observed := Some(msg);
      }
    }

    /** A tool call: gate it, maybe run it, keep the observation. */
    method Observe(name: string, args: Json) returns (msg: Message)
      modifies this
      ensures log == old(log) + (ToolLog(w, name, args) + Keep(w, msg)) && msg == ToolMessage(w, name, args)
    {
      msg := ExecuteTool(name, args);
      if w.persistent && w.inConversation { log := log + [Append(msg)]; }
    }

    /** The correction round: one more model call, if the reply is malformed and none was spent. */
    method Correct(messages: seq<Message>, retries: nat, first: Reply, streamed: bool, ghost l: Loop)
      returns (now: seq<Message>, left: nat, reply: Reply, any: bool)
      requires l.messages == messages && l.retries == retries && streamed == (w.model(messages).deltas != [])
      modifies this
      ensures if Corrects(w, l, first)
              then now == messages + [Correction] && left == retries - 1 && log == old(log) + ModelLog(w, now)
              else now == messages && left == retries && log == old(log)
      ensures (reply, any) == ActsOn(w, l, first)
    {
      now, left, reply, any := messages, retries, first, streamed;
      if retries > 0 && first.action.None? && w.parse(first.text).None? && w.toolAttempt(first.text) {
        left := retries - 1;
        now := messages + [Correction];
        var again, more := GenerateStep(now);
        if again.Replied? {
          reply := again.reply;
          any := any || more;
        }
      }
    }

    /** One turn of the step loop: the new messages and corrections left, and the end if
        the run is over. */
    method Turn(start: seq<Message>, step: nat, retries: nat, ghost before: Option<Reply>)
      returns (messages: seq<Message>, left: nat, end: Option<End>, ghost last: Option<Reply>)
      requires step < w.maxSteps
      modifies this
      ensures Loop(messages, if end.Some? then step else step + 1, left, log, last, end)
           == Iterate(w, Loop(start, step, retries, old(log), before, None))
    {
      ghost var l := Loop(start, step, retries, log, before, None);
      messages, left, last := start, retries, before;
      if w.cancelled(step) {
        FinishRun(Cancelled, None);
        end := Some(End(Cancelled, None, None));
        return;
      }
      var resp, streamed := Open(step, start);
      if !resp.Replied? {
        var state := if resp.ModelTimeout? then TimedOut else Failed;
        ModelFailed(state);
        end := Some(End(state, None, Some(if resp.ModelTimeout? then ErrTimeout else ErrProvider(resp.error))));
        return;
      }
      var reply;
      messages, left, reply, streamed := Correct(start, retries, resp.reply, streamed, l);
      ghost var mid := Loop(messages, step, left, log, before, None);
      assert Iterate(w, l) == Act(w, mid, reply, streamed);
      last := Some(reply);
      var observed := ActOn(reply, streamed);
      if observed.None? {
        end := Some(End(Completed, Some(Dispatch(w, reply).content), None));
      } else {
        messages := messages + [observed.value];
        end := None;
      }
    }

    /** The step loop from `messages` and `step`, with one correction round left. */
    method StepLoop(start: seq<Message>, first: nat) returns (messages: seq<Message>, end: End)
      modifies this
      ensures var r := RunFrom(w, Loop(start, first, 1, old(log), None, None));
              log == r.log && messages == r.messages && Some(end) == r.end
    {
      messages := start;
      var step := first;
      var parseRetries: nat := 1;
      ghost var goal := RunFrom(w, Loop(start, first, 1, log, None, None));
      ghost var last: Option<Reply> := None;
      while step < w.maxSteps
        invariant goal == RunFrom(w, Loop(messages, step, parseRetries, log, last, None))
        decreases w.maxSteps - step
      {
        var over: Option<End>;
        messages, parseRetries, over, last := Turn(messages, step, parseRetries, last);
        if over.Some? { return messages, over.value; }
        step := step + 1;
      }
      FinishRun(Failed, None);
      end := End(Failed, None, Some(ErrMaxSteps));
    }

    /** A fresh run; `built` is the request made of instructions, memories and history. */
    method RunFresh(built: seq<Message>, input: string) returns (messages: seq<Message>, end: End)
      requires log == []
      modifies this
      ensures var r := RunFrom(w, Fresh(w, built + [UserText(input)], input));
              log == r.log && messages == r.messages && Some(end) == r.end
    {
      log := [Emit(RunStarted), Audit(RunBegan, AuditOk, None)];
      if w.persistent { log := log + [Begin(input)]; }
      var user := UserText(input);
      if w.persistent && w.inConversation { log := log + [Append(user)]; }
      assert log == Fresh(w, built + [user], input).log;
      messages, end := StepLoop(built + [user], 0);
    }

    /** A run resumed from what `load` returned. */
    method RunResumed(step: nat, stored: seq<Message>) returns (messages: seq<Message>, end: End)
      requires log == []
      modifies this
      ensures var r := RunFrom(w, Resumed(step, stored));
              log == r.log && messages == r.messages && Some(end) == r.end
    {
      log := [Emit(RunStarted), Audit(RunBegan, AuditOk, None)];
      messages, end := StepLoop(stored, step);
    }
  }
}
