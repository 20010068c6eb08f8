/** The agent run: a bounded step loop with one correction round, a permission
    gate in front of every tool, and a checkpoint before every model call. The
    model, the tools, the policy and the approvals are functions of their inputs. */
module Agent {
  import opened Prelude

  type Json = string

  datatype Message =
    | UserText(text: string)
    | AssistantText(text: string)
    | SystemText(text: string)
    | Correction
    | ToolResult(tool: string, output: Json, isError: bool)

  datatype Action = ToolCall(name: string, arguments: Json) | Final(content: string)

  datatype Reply = Reply(text: string, action: Option<Action>)

  /** One model call: the text pieces streamed to the user, and how it ended. */
  datatype ModelEnd = Replied(reply: Reply) | ModelTimeout | ModelError(error: string)
  datatype ModelOutcome = ModelOutcome(deltas: seq<string>, end: ModelEnd)

  datatype Decision = Allow | Deny | AskUser
  datatype ToolOutcome = ToolOk(value: Json, summary: string) | ToolErr(error: string)

  datatype World = World(
    maxSteps: nat,
    model: seq<Message> -> ModelOutcome,
    parse: string -> Option<Action>,
    toolAttempt: string -> bool,
    allowlist: seq<string>,
    registered: string -> bool,
    argsError: (string, Json) -> Option<string>,
    policy: string -> Decision,
    approves: (string, Json) -> bool,
    execute: (string, Json) -> ToolOutcome,
    cancelled: nat -> bool,
    persistent: bool,
    inConversation: bool)

  datatype RunState = Running | Completed | Cancelled | TimedOut | Failed

  datatype Event =
    | RunStarted
    | Step(index: nat)
    | ToolCallRequested(tool: string)
    | ApprovalNeeded(tool: string)
    | ToolExecuted(tool: string)
    | ToolDenied(tool: string)
    | TextDelta(text: string)
    | Done(state: RunState, answer: Option<string>)

  datatype AuditKind = RunBegan | ModelResponded | Requested | Denied | ApprovalRequested | ApprovalResolved
    | Allowed | Executed | MemoryWritten | MemoryDeleted | RunFinished
  datatype AuditOutcome = AuditOk | AuditDenied | AuditError | AuditCancelled

  /** Everything a run does to the outside, in order. */
  datatype Entry =
    | Emit(event: Event)
    | Audit(kind: AuditKind, outcome: AuditOutcome, tool: Option<string>)
    | Begin(input: string)
    | Checkpoint(step: nat, messages: seq<Message>)
    | Append(message: Message)
    | Finish(state: RunState)
    | CallModel(messages: seq<Message>)
    | CallTool(name: string, arguments: Json)

  datatype Error = ErrTimeout | ErrProvider(error: string) | ErrMaxSteps

  /** How `run` returned: the terminal state, the answer, and the error if any. */
  datatype End = End(state: RunState, answer: Option<string>, error: Option<Error>)

  /** `last` is the reply that was last acted on. */
  datatype Loop = Loop(messages: seq<Message>, step: nat, retries: nat, log: seq<Entry>, last: Option<Reply>,
    end: Option<End>)

  // ----- the parts of one step --------------------------------------------------

  function Deltas(ds: seq<string>): seq<Entry> {
    seq(|ds|, i requires 0 <= i < |ds| => Emit(TextDelta(ds[i])))
  }

  function ModelLog(w: World, messages: seq<Message>): seq<Entry> {
    [CallModel(messages)] + Deltas(w.model(messages).deltas)
  }

  predicate Malformed(w: World, r: Reply) {
    r.action.None? && w.parse(r.text).None? && w.toolAttempt(r.text)
  }

  function Dispatch(w: World, r: Reply): Action {
    if r.action.Some? then r.action.value
    else if w.parse(r.text).Some? then w.parse(r.text).value
    else Final(r.text)
  }

  predicate OnAllowlist(w: World, name: string) { w.allowlist == [] || name in w.allowlist }

  /** The tool is offered to the agent, by the list or for lack of one, and known. */
  predicate Offered(w: World, name: string) { (|w.allowlist| == 0 || name in w.allowlist) && w.registered(name) }

  /** The gate: allowlist, registry, schema, then policy or the user's approval. */
  predicate Permitted(w: World, name: string, args: Json) {
    && Offered(w, name) && w.argsError(name, args) == None
    && (w.policy(name) == Allow || (w.policy(name) == AskUser && w.approves(name, args)))
  }

  function ToolMessage(w: World, name: string, args: Json): Message {
    if !OnAllowlist(w, name) then ToolResult(name, "tool not in this agent's allowlist", true)
    else if !w.registered(name) then ToolResult(name, "unknown tool", true)
    else if w.argsError(name, args).Some? then ToolResult(name, w.argsError(name, args).value, true)
    else if w.policy(name).Deny? then ToolResult(name, "permission denied by policy", true)
    else if w.policy(name).AskUser? && !w.approves(name, args) then ToolResult(name, "user denied approval", true)
    else match w.execute(name, args)
      case ToolOk(value, _) => ToolResult(name, value, false)
      case ToolErr(e) => ToolResult(name, e, true)
  }

  function ToolLog(w: World, name: string, args: Json): seq<Entry> {
    if !OnAllowlist(w, name) || !w.registered(name) then [Audit(Denied, AuditDenied, Some(name))]
    else
      [Emit(ToolCallRequested(name)), Audit(Requested, AuditOk, Some(name))] +
      if w.argsError(name, args).Some? then [Audit(Denied, AuditError, Some(name))]
      else match w.policy(name)
        case Deny => [Audit(Denied, AuditDenied, Some(name)), Emit(ToolDenied(name))]
        case Allow => ExecuteLog(w, name, args)
        case AskUser =>
          [Audit(ApprovalRequested, AuditOk, Some(name)), Emit(ApprovalNeeded(name))] +
          if w.approves(name, args)
          then [Audit(ApprovalResolved, AuditOk, Some(name))] + ExecuteLog(w, name, args)
          else [Audit(ApprovalResolved, AuditDenied, Some(name)), Emit(ToolDenied(name))]
  }

  function ExecuteLog(w: World, name: string, args: Json): seq<Entry> {
    [Audit(Allowed, AuditOk, Some(name)), CallTool(name, args)] +
    match w.execute(name, args)
    case ToolErr(_) => [Audit(Executed, AuditError, Some(name))]
    case ToolOk(_, _) =>
      [Audit(Executed, AuditOk, Some(name))]
      + (if name == "memory.remember" then [Audit(MemoryWritten, AuditOk, Some(name))]
         else if name == "memory.forget" then [Audit(MemoryDeleted, AuditOk, Some(name))] else [])
      + [Emit(ToolExecuted(name))]
  }

  function FinishLog(w: World, state: RunState, answer: Option<string>): seq<Entry> {
    var outcome := if state.Cancelled? then AuditCancelled else if state.Completed? then AuditOk else AuditError;
    [Audit(RunFinished, outcome, None)]
    + (if w.persistent then [Finish(state)] else [])
    + [Emit(Done(state, answer))]
  }

  function Keep(w: World, m: Message): seq<Entry> {
    if w.persistent && w.inConversation then [Append(m)] else []
  }

  // ----- the loop ---------------------------------------------------------------

  function Finished(w: World, l: Loop, extra: seq<Entry>, state: RunState, answer: Option<string>,
                    error: Option<Error>): Loop
  {
    l.(log := l.log + (extra + FinishLog(w, state, answer)), end := Some(End(state, answer, error)))
  }

  /** The log of an iteration up to its first model call. */
  function Opening(w: World, l: Loop): seq<Entry> {
    [Emit(Step(l.step))] + (if w.persistent then [Checkpoint(l.step, l.messages)] else []) + ModelLog(w, l.messages)
  }

  predicate Corrects(w: World, l: Loop, r: Reply) { l.retries > 0 && Malformed(w, r) }

  /** One iteration: opening, one correction round if due, then the reply is acted on. */
  function Iterate(w: World, l: Loop): Loop
    requires l.end.None? && l.step < w.maxSteps
  {
    if w.cancelled(l.step) then Finished(w, l, [], Cancelled, None, None)
    else
      var o := w.model(l.messages);
      var l1 := l.(log := l.log + Opening(w, l));
      match o.end
      case ModelTimeout => Finished(w, l1, [Audit(Executed, AuditError, None)], TimedOut, None, Some(ErrTimeout))
      case ModelError(e) => Finished(w, l1, [Audit(Executed, AuditError, None)], Failed, None, Some(ErrProvider(e)))
      case Replied(r) =>
        var (reply, streamed) := ActsOn(w, l, r);
        if Corrects(w, l, r) then
          var ms := l.messages + [Correction];
          Act(w, l1.(messages := ms, retries := l.retries - 1, log := l1.log + ModelLog(w, ms)), reply, streamed)
        else Act(w, l1, reply, streamed)
  }

  /** The reply acted on, and whether any of its text was streamed: the answer to the
      correction if one was sent and answered, else the first reply. */
  function ActsOn(w: World, l: Loop, r: Reply): (Reply, bool) {
    var o, o2 := w.model(l.messages), w.model(l.messages + [Correction]);
    if Corrects(w, l, r) && o2.end.Replied? then (o2.end.reply, o.deltas != [] || o2.deltas != [])
    else (r, o.deltas != [])
  }

  /** What acting on a reply adds to the log. */
  function ActLog(w: World, r: Reply, streamed: bool): seq<Entry> {
    [Audit(ModelResponded, AuditOk, None)] +
    match Dispatch(w, r)
    case Final(text) =>
      Keep(w, AssistantText(text)) + (if streamed then [] else [Emit(TextDelta(text))]) +
        FinishLog(w, Completed, Some(text))
    case ToolCall(name, args) => ToolLog(w, name, args) + Keep(w, ToolMessage(w, name, args))
  }

  function Act(w: World, l: Loop, r: Reply, streamed: bool): Loop {
    var l' := l.(log := l.log + ActLog(w, r, streamed), last := Some(r));
    match Dispatch(w, r)
    case Final(text) => l'.(end := Some(End(Completed, Some(text), None)))
    case ToolCall(name, args) => l'.(messages := l.messages + [ToolMessage(w, name, args)], step := l.step + 1)
  }

  function RunFrom(w: World, l: Loop): (r: Loop)
    ensures r.end.Some?
    decreases l.end.None?, if l.step <= w.maxSteps then w.maxSteps - l.step else 0
  {
    if l.end.Some? then l
    else if l.step >= w.maxSteps then Finished(w, l, [], Failed, None, Some(ErrMaxSteps))
    else RunFrom(w, Iterate(w, l))
  }

  const STARTED := [Emit(RunStarted), Audit(RunBegan, AuditOk, None)]

  /** A fresh run over `messages`, whose last one is the user's input. */
  function Fresh(w: World, messages: seq<Message>, input: string): Loop {
    Loop(messages, 0, 1,
         STARTED + (if w.persistent then [Begin(input)] else []) + Keep(w, UserText(input)), None, None)
  }

  /** A run resumed from a stored checkpoint. */
  function Resumed(step: nat, messages: seq<Message>): Loop {
    Loop(messages, step, 1, STARTED, None, None)
  }
}
