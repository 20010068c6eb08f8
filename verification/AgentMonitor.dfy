/** An observer of a run's log. It is told what the model, the tools, the policy and the user
    would say, but not how a run is computed, and it has to be able to explain every entry
    from those before it. */
module AgentMonitor {
  import opened Prelude
  import opened Agent
  import opened AgentResults
  import opened AgentTrace

  // ----- what replies and tools mean ------------------------------------------------

  /** A reply asks for its action; without one, for the action its text parses as; and
      without that, its text is the answer. */
  predicate Asks(w: World, rep: Reply, a: Action) {
    || rep.action == Some(a)
    || (rep.action == None && w.parse(rep.text) == Some(a))
    || (rep.action == None && w.parse(rep.text) == None && a == Final(rep.text))
  }

  /** Text that looks like a tool call and is none. */
  predicate Broken(w: World, rep: Reply) {
    rep.action == None && w.parse(rep.text) == None && w.toolAttempt(rep.text)
  }

  /** What the model is told about a call: the result of one that ran, an error otherwise. */
  predicate Observes(w: World, name: string, args: Json, m: Message) {
    && m.ToolResult? && m.tool == name
    && if Permitted(w, name, args) then
         match w.execute(name, args)
         case ToolOk(value, _) => m.output == value && !m.isError
         case ToolErr(error) => m.output == error && m.isError
       else m.isError && (Offered(w, name) ==> w.argsError(name, args) in {None, Some(m.output)})
  }

  // ----- the observer ---------------------------------------------------------------------

  /** What the observer remembers. `next` is the number of the next step, which is `open` until
      its first call; `saved` is its checkpoint. `call` and `reply` are the last model call and
      the last reply, `due` the text still to be shown of that call; `calls` to `ran` are about
      the step of that call. The rest is about the end. */
  datatype Seen = Seen(start: seq<Message>, next: nat, open: bool, saved: Option<seq<Message>>,
    call: Option<seq<Message>>, reply: Option<Reply>, due: seq<string>, corrected: bool,
    calls: nat, streamed: bool, acted: bool, kept: bool, shown: bool, ran: bool,
    audited: Option<AuditOutcome>, finished: Option<RunState>, done: Option<(RunState, Option<string>)>)

  function Start(l: Loop): Seen {
    Seen(l.messages, l.step, false, None, None, None, [], false, 0, false, false, false, false, false, None, None, None)
  }

  /** A call, which opens a step or corrects the step's first one. */
  function OnCall(w: World, c: Seen, ms: seq<Message>): Seen {
    var o := w.model(ms);
    var shown := o.end.Replied? && o.deltas != [];
    var c' := c.(call := Some(ms), due := o.deltas, reply := if o.end.Replied? then Some(o.end.reply) else c.reply);
    if c.open
    then c'.(open := false, calls := 1, streamed := shown, acted := false, kept := false, shown := false, ran := false)
    else c'.(calls := c.calls + 1, corrected := true, streamed := c.streamed || shown)
  }

  function OnEvent(c: Seen, event: Event): Seen {
    match event
    case Step(k) => c.(next := k + 1, open := true, saved := None)
    case TextDelta(_) => if c.due == [] then c.(shown := true) else c.(due := c.due[1..])
    case Done(state, answer) => c.(done := Some((state, answer)))
    case _ => c
  }

  function OnRecord(c: Seen, kind: AuditKind, o: AuditOutcome): Seen {
    match kind
    case ModelResponded => c.(acted := true)
    case RunFinished => c.(audited := Some(o))
    case _ => c
  }

  function Next(w: World, c: Seen, e: Entry): Seen {
    match e
    case Emit(event) => OnEvent(c, event)
    case Audit(kind, o, _) => OnRecord(c, kind, o)
    case Begin(_) => c
    case Checkpoint(_, ms) => c.(saved := Some(ms))
    case Append(_) => c.(kept := true)
    case Finish(state) => c.(finished := Some(state))
    case CallModel(ms) => OnCall(w, c, ms)
    case CallTool(_, _) => c.(ran := true)
  }

  /** The last reply asks for the call of `name` with `args`, and it is being acted on. */
  predicate Calling(w: World, c: Seen, name: string, args: Json) {
    c.acted && c.reply.Some? && Asks(w, c.reply.value, ToolCall(name, args))
  }

  predicate Answering(w: World, c: Seen, text: string) {
    c.acted && c.reply.Some? && Asks(w, c.reply.value, Final(text))
  }

  /** The step before has done all it had to: its reply asked for a tool, which ran exactly if
      it may, and what came of it was kept. */
  ghost predicate StepOver(w: World, c: Seen) {
    c.call.Some? ==> exists name, args ::
      Calling(w, c, name, args) && c.ran == Permitted(w, name, args) && c.kept == (w.persistent && w.inConversation)
  }

  /** The messages of a step's first call: those the run started with, or those of the last
      call and the observation of the tool it led to. */
  ghost predicate Leads(w: World, c: Seen, ms: seq<Message>) {
    if c.call == None then ms == c.start
    else exists name, args, m :: Calling(w, c, name, args) && Observes(w, name, args, m) && ms == c.call.value + [m]
  }

  /** Why a call may happen: it opens a step, or it corrects, once a run, a broken call that
      was the reply to the step's only call. */
  ghost predicate MayCall(w: World, c: Seen, ms: seq<Message>) {
    if c.open then c.saved == (if w.persistent then Some(ms) else None) && Leads(w, c, ms)
    else
      && !c.acted && c.calls == 1 && !c.corrected && c.call.Some? && c.reply.Some?
      && w.model(c.call.value).end == Replied(c.reply.value) && Broken(w, c.reply.value)
      && ms == c.call.value + [Correction]
  }

  /** What is recorded about a tool call. */
  predicate OfTool(w: World, c: Seen, name: string, args: Json, e: Entry) {
    match e
    case Emit(ToolCallRequested(_)) => Offered(w, name)
    case Emit(ApprovalNeeded(_)) => w.policy(name) == AskUser
    case Emit(ToolDenied(_)) => !Permitted(w, name, args)
    case Emit(ToolExecuted(_)) => c.ran && w.execute(name, args).ToolOk?
    case CallTool(_, args') => !c.ran && Permitted(w, name, args) && args' == args
    case Audit(Requested, o, _) => o == AuditOk && Offered(w, name)
    case Audit(Denied, o, _) =>
      && !Permitted(w, name, args)
      && o == if Offered(w, name) && w.argsError(name, args).Some? then AuditError else AuditDenied
    case Audit(ApprovalRequested, o, _) => o == AuditOk && w.policy(name) == AskUser
    case Audit(ApprovalResolved, o, _) =>
      w.policy(name) == AskUser && o == if w.approves(name, args) then AuditOk else AuditDenied
    case Audit(Allowed, o, _) => o == AuditOk && Permitted(w, name, args)
    case Audit(Executed, o, _) => c.ran && o == if w.execute(name, args).ToolOk? then AuditOk else AuditError
    case Audit(MemoryWritten, o, _) => o == AuditOk && c.ran && name == "memory.remember"
    case Audit(MemoryDeleted, o, _) => o == AuditOk && c.ran && name == "memory.forget"
    case _ => false
  }

  /** The tool an entry is about. */
  function ToolOf(e: Entry): Option<string> {
    match e
    case Emit(ToolCallRequested(n)) => Some(n)
    case Emit(ApprovalNeeded(n)) => Some(n)
    case Emit(ToolDenied(n)) => Some(n)
    case Emit(ToolExecuted(n)) => Some(n)
    case CallTool(n, _) => Some(n)
    case Audit(_, _, tool) => tool
    case _ => None
  }

  /** Why a run may end so. */
  ghost predicate EndFits(w: World, c: Seen, end: End) {
    match end.state
    case Completed =>
      && end.answer.Some? && end.error == None && Answering(w, c, end.answer.value)
      && c.kept == (w.persistent && w.inConversation) && c.shown == !c.streamed
    case Cancelled =>
      end.answer == None && end.error == None && StepOver(w, c) && c.next < w.maxSteps && w.cancelled(c.next)
    case TimedOut =>
      && end.answer == None && end.error == Some(ErrTimeout) && !c.acted
      && c.call.Some? && w.model(c.call.value).end == ModelTimeout
    case Failed =>
      && end.answer == None && end.error.Some?
      && (match end.error.value
          case ErrTimeout => false
          case ErrMaxSteps => StepOver(w, c) && c.next >= w.maxSteps
          case ErrProvider(e) => !c.acted && c.call.Some? && w.model(c.call.value).end == ModelError(e))
    case Running => false
  }

  function OutcomeOf(state: RunState): AuditOutcome {
    match state case Completed => AuditOk case Cancelled => AuditCancelled case _ => AuditError
  }

  /** The observer can explain `e`. */
  ghost predicate Explains(w: World, c: Seen, e: Entry) {
    && c.done == None && (c.due != [] ==> e == Emit(TextDelta(c.due[0])))
    && (c.open ==> e.Checkpoint? || e.CallModel?)
    && (c.audited != None ==> e.Finish? || (e.Emit? && e.event.Done?))
    && match e
       case Emit(Step(k)) => k == c.next && k < w.maxSteps && !w.cancelled(k) && StepOver(w, c)
       case Checkpoint(k, ms) => w.persistent && c.open && k + 1 == c.next && c.saved == None
       case CallModel(ms) => MayCall(w, c, ms)
       case Emit(TextDelta(x)) => c.due == [] ==> Answering(w, c, x) && !c.streamed && !c.shown
       case Audit(ModelResponded, o, tool) =>
         && o == AuditOk && tool == None && !c.acted && c.calls > 0 && c.call.Some? && c.reply.Some?
         && (Broken(w, c.reply.value) ==> c.corrected)
       case Append(AssistantText(x)) => w.persistent && w.inConversation && !c.kept && Answering(w, c, x)
       case Append(ToolResult(name, output, isError)) =>
         && w.persistent && w.inConversation && !c.kept
         && exists args :: Calling(w, c, name, args) && Observes(w, name, args, ToolResult(name, output, isError))
       case Audit(RunFinished, o, tool) =>
         tool == None && exists end :: EndFits(w, c, end) && o == OutcomeOf(end.state)
       case Finish(state) => w.persistent && c.finished == None && c.audited == Some(OutcomeOf(state))
       case Emit(Done(state, answer)) =>
         && c.audited == Some(OutcomeOf(state)) && c.finished == (if w.persistent then Some(state) else None)
         && exists error :: EndFits(w, c, End(state, answer, error))
       case Audit(Executed, o, None) =>
         o == AuditError && !c.acted && c.call.Some? && !w.model(c.call.value).end.Replied?
       case _ =>
         && ToolOf(e).Some?
         && exists args :: Calling(w, c, ToolOf(e).value, args) && OfTool(w, c, ToolOf(e).value, args, e)
  }

  /** The observer can explain every entry of `s`, one after the other. */
  ghost predicate Accepts(w: World, c: Seen, s: seq<Entry>)
    decreases |s|
  {
    s == [] || (Explains(w, c, s[0]) && Accepts(w, Next(w, c, s[0]), s[1..]))
  }

  function After(w: World, c: Seen, s: seq<Entry>): Seen
    decreases |s|
  {
    if s == [] then c else After(w, Next(w, c, s[0]), s[1..])
  }

  // ----- chunks of a log -------------------------------------------------------------------

  lemma {:induction false} AcceptsConcat(w: World, c: Seen, a: seq<Entry>, b: seq<Entry>)
    ensures Accepts(w, c, a + b) <==> Accepts(w, c, a) && Accepts(w, After(w, c, a), b)
    ensures After(w, c, a + b) == After(w, After(w, c, a), b)
    decreases |a|
  {
    if a == [] {
      assert a + b == b;
    } else {
      assert (a + b)[1..] == a[1..] + b;
      AcceptsConcat(w, Next(w, c, a[0]), a[1..], b);
    }
  }

  lemma AcceptsOne(w: World, c: Seen, e: Entry)
    requires Explains(w, c, e)
    ensures Accepts(w, c, [e]) && After(w, c, [e]) == Next(w, c, e)
  {
    assert [e][1..] == [];
  }

  ghost predicate Plain(w: World, c: Seen, e: Entry) { Explains(w, c, e) && Next(w, c, e) == c }

  /** Entries that the observer need not remember. */
  lemma {:induction false} AcceptsPlain(w: World, c: Seen, s: seq<Entry>)
    requires forall i :: 0 <= i < |s| ==> Plain(w, c, s[i])
    ensures Accepts(w, c, s) && After(w, c, s) == c
    decreases |s|
  {
    if s != [] {
      assert Plain(w, c, s[0]);
      AcceptsPlain(w, c, s[1..]);
    }
  }

  lemma {:induction false} AcceptsDeltas(w: World, c: Seen, ds: seq<string>)
    requires c.due == ds && c.done == None && !c.open && c.audited == None
    ensures Accepts(w, c, Deltas(ds)) && After(w, c, Deltas(ds)) == c.(due := [])
    decreases |ds|
  {
    if ds != [] {
      var s := Deltas(ds);
      assert s[0] == Emit(TextDelta(ds[0])) && s[1..] == Deltas(ds[1..]);
      AcceptsDeltas(w, c.(due := ds[1..]), ds[1..]);
    }
  }

  /** What is left of a model call once its text is shown. */
  function Called(w: World, c: Seen, ms: seq<Message>): Seen { Next(w, c, CallModel(ms)).(due := []) }

  predicate Idle(c: Seen) { c.due == [] && c.done == None && c.audited == None && c.finished == None }

  lemma AcceptsCall(w: World, c: Seen, ms: seq<Message>)
    requires Idle(c) && MayCall(w, c, ms)
    ensures Accepts(w, c, ModelLog(w, ms)) && After(w, c, ModelLog(w, ms)) == Called(w, c, ms)
  {
    AcceptsOne(w, c, CallModel(ms));
    AcceptsDeltas(w, Next(w, c, CallModel(ms)), w.model(ms).deltas);
    AcceptsConcat(w, c, [CallModel(ms)], Deltas(w.model(ms).deltas));
  }

  // ----- a step ------------------------------------------------------------------------------

  /** The observer at the head of the loop. */
  ghost predicate Head(w: World, c: Seen, l: Loop) {
    && Idle(c) && !c.open && c.next == l.step && StepOver(w, c) && Leads(w, c, l.messages)
    && l.retries == if c.corrected then 0 else 1
  }

  function Opened(c: Seen, ms: seq<Message>, persistent: bool): Seen {
    c.(next := c.next + 1, open := true, saved := if persistent then Some(ms) else None)
  }

  lemma AcceptsOpening(w: World, c: Seen, l: Loop)
    requires Head(w, c, l) && l.step < w.maxSteps && !w.cancelled(l.step)
    ensures Accepts(w, c, Opening(w, l))
    ensures After(w, c, Opening(w, l)) == Called(w, Opened(c, l.messages, w.persistent), l.messages)
  {
    var c2 := Opened(c, l.messages, w.persistent);
    AcceptsStep(w, c, l);
    SameLead(w, c, c2, l.messages);
    AcceptsCall(w, c2, l.messages);
    AcceptsConcat(w, c, StepLog(w, l), ModelLog(w, l.messages));
  }

  function StepLog(w: World, l: Loop): seq<Entry> {
    [Emit(Step(l.step))] + (if w.persistent then [Checkpoint(l.step, l.messages)] else [])
  }

  lemma AcceptsBegun(w: World, c: Seen, l: Loop)
    requires Head(w, c, l) && l.step < w.maxSteps && !w.cancelled(l.step)
    ensures var e := Emit(Step(l.step));
      Accepts(w, c, [e]) && After(w, c, [e]) == c.(next := c.next + 1, open := true, saved := None)
  {
    AcceptsOne(w, c, Emit(Step(l.step)));
  }

  lemma AcceptsSaved(w: World, c: Seen, k: nat, ms: seq<Message>)
    requires Idle(c) && c.open && c.next == k + 1 && c.saved == None && w.persistent
    ensures Accepts(w, c, [Checkpoint(k, ms)]) && After(w, c, [Checkpoint(k, ms)]) == c.(saved := Some(ms))
  {
    AcceptsOne(w, c, Checkpoint(k, ms));
  }

  /** A step is announced, and the run saved, before the model is called. */
  lemma AcceptsStep(w: World, c: Seen, l: Loop)
    requires Head(w, c, l) && l.step < w.maxSteps && !w.cancelled(l.step)
    ensures Accepts(w, c, StepLog(w, l)) && After(w, c, StepLog(w, l)) == Opened(c, l.messages, w.persistent)
  {
    var step, save := Emit(Step(l.step)), Checkpoint(l.step, l.messages);
    AcceptsBegun(w, c, l);
    if w.persistent {
      AcceptsSaved(w, After(w, c, [step]), l.step, l.messages);
      AcceptsConcat(w, c, [step], [save]);
    } else {
      assert [step] + [] == [step];
    }
  }

  lemma SameLead(w: World, c: Seen, d: Seen, ms: seq<Message>)
    requires Leads(w, c, ms) && d == c.(next := d.next, open := d.open, saved := d.saved)
    ensures Leads(w, d, ms)
  {
    if c.call.Some? {
      var name, args, m :| Calling(w, c, name, args) && Observes(w, name, args, m) && ms == c.call.value + [m];
      assert Calling(w, d, name, args);
    }
  }

  // ----- acting on a reply ---------------------------------------------------------------------

  /** An entry about the tool that is being called, which the observer need not remember. */
  predicate Tells(w: World, c: Seen, name: string, args: Json, e: Entry) {
    OfTool(w, c, name, args, e) && ToolOf(e) == Some(name) && !e.CallTool?
  }

  lemma TellsPlain(w: World, c: Seen, name: string, args: Json, e: Entry)
    requires Idle(c) && !c.open && Calling(w, c, name, args) && Tells(w, c, name, args, e)
    ensures Plain(w, c, e)
  {
  }

  lemma AcceptsTold(w: World, c: Seen, name: string, args: Json, s: seq<Entry>)
    requires Idle(c) && !c.open && Calling(w, c, name, args)
    requires forall i :: 0 <= i < |s| ==> Tells(w, c, name, args, s[i])
    ensures Accepts(w, c, s) && After(w, c, s) == c
  {
    forall i | 0 <= i < |s| ensures Plain(w, c, s[i]) { TellsPlain(w, c, name, args, s[i]); }
    AcceptsPlain(w, c, s);
  }

  lemma AcceptsRefusal(w: World, c: Seen, name: string, args: Json)
    requires Idle(c) && !c.open && Calling(w, c, name, args) && !Permitted(w, name, args)
    ensures Accepts(w, c, ToolLog(w, name, args)) && After(w, c, ToolLog(w, name, args)) == c
  {
    AcceptsTold(w, c, name, args, ToolLog(w, name, args));
  }

  /** What was recorded of the execution after the call. */
  lemma AcceptsExecution(w: World, c: Seen, name: string, args: Json)
    requires Idle(c) && !c.open && Calling(w, c, name, args) && Permitted(w, name, args) && !c.ran
    ensures Accepts(w, c, ExecuteLog(w, name, args)) && After(w, c, ExecuteLog(w, name, args)) == c.(ran := true)
  {
    var s := ExecuteLog(w, name, args);
    var c1 := c.(ran := true);
    AcceptsTold(w, c, name, args, [s[0]]);
    AcceptsOne(w, c, s[1]);
    assert forall i :: 2 <= i < |s| ==> Tells(w, c1, name, args, s[i]);
    AcceptsTold(w, c1, name, args, s[2..]);
    assert s == [s[0]] + ([s[1]] + s[2..]);
    AcceptsConcat(w, c, [s[0]], [s[1]] + s[2..]);
    AcceptsConcat(w, c, [s[1]], s[2..]);
  }

  lemma AcceptsTool(w: World, c: Seen, name: string, args: Json)
    requires Idle(c) && !c.open && Calling(w, c, name, args) && !c.ran
    ensures Accepts(w, c, ToolLog(w, name, args))
    ensures After(w, c, ToolLog(w, name, args)) == c.(ran := Permitted(w, name, args))
  {
    if Permitted(w, name, args) {
      GateThenExecution(w, name, args);
      assert forall i :: 0 <= i < |Gate(w, name)| ==> Tells(w, c, name, args, Gate(w, name)[i]);
      AcceptsTold(w, c, name, args, Gate(w, name));
      AcceptsExecution(w, c, name, args);
      AcceptsConcat(w, c, Gate(w, name), ExecuteLog(w, name, args));
    } else {
      AcceptsRefusal(w, c, name, args);
    }
  }

  predicate InConversation(w: World) { w.persistent && w.inConversation }

  lemma AcceptsObservation(w: World, c: Seen, name: string, args: Json, m: Message)
    requires Idle(c) && !c.open && Calling(w, c, name, args) && !c.kept && Observes(w, name, args, m)
    ensures Accepts(w, c, Keep(w, m)) && After(w, c, Keep(w, m)) == c.(kept := InConversation(w))
  {
    if InConversation(w) { AcceptsOne(w, c, Append(m)); }
  }

  lemma ToolMessageObserves(w: World, name: string, args: Json)
    ensures Observes(w, name, args, ToolMessage(w, name, args))
  {
  }

  /** The record of the end, and the row's. */
  lemma AcceptsClosing(w: World, c: Seen, end: End)
    requires Idle(c) && !c.open && EndFits(w, c, end)
    ensures var s := [Audit(RunFinished, OutcomeOf(end.state), None)] +
              if w.persistent then [Finish(end.state)] else [];
      Accepts(w, c, s) && After(w, c, s) == Closed(w, c, end)
  {
    var audit, finish := Audit(RunFinished, OutcomeOf(end.state), None), Finish(end.state);
    AcceptsOne(w, c, audit);
    if w.persistent {
      AcceptsOne(w, Next(w, c, audit), finish);
      AcceptsConcat(w, c, [audit], [finish]);
    } else {
      assert [audit] + [] == [audit];
    }
  }

  function Closed(w: World, c: Seen, end: End): Seen {
    c.(audited := Some(OutcomeOf(end.state)), finished := if w.persistent then Some(end.state) else c.finished)
  }

  lemma AcceptsDone(w: World, d: Seen, end: End)
    requires d.due == [] && d.done == None && !d.open && EndFits(w, d, end)
    requires d.audited == Some(OutcomeOf(end.state)) && d.finished == if w.persistent then Some(end.state) else None
    ensures var e := Emit(Done(end.state, end.answer));
      Accepts(w, d, [e]) && After(w, d, [e]) == d.(done := Some((end.state, end.answer)))
  {
    assert EndFits(w, d, End(end.state, end.answer, end.error));
    AcceptsOne(w, d, Emit(Done(end.state, end.answer)));
  }

  /** The end of a run, once its end fits. */
  lemma AcceptsFinish(w: World, c: Seen, end: End)
    requires Idle(c) && !c.open && EndFits(w, c, end)
    ensures var s := FinishLog(w, end.state, end.answer);
      && Accepts(w, c, s) && After(w, c, s).done == Some((end.state, end.answer)) && EndFits(w, After(w, c, s), end)
  {
    var closing := [Audit(RunFinished, OutcomeOf(end.state), None)] + if w.persistent then [Finish(end.state)] else [];
    var d := Closed(w, c, end);
    AcceptsClosing(w, c, end);
    SameEnd(w, c, d, end);
    AcceptsDone(w, d, end);
    SameEnd(w, c, d.(done := Some((end.state, end.answer))), end);
    AcceptsConcat(w, c, closing, [Emit(Done(end.state, end.answer))]);
    assert FinishLog(w, end.state, end.answer) == closing + [Emit(Done(end.state, end.answer))];
  }

  /** Why a run may end so does not depend on what was recorded about its end. */
  lemma SameEnd(w: World, c: Seen, d: Seen, end: End)
    requires EndFits(w, c, end) && d == c.(audited := d.audited, finished := d.finished, done := d.done)
    ensures EndFits(w, d, end)
  {
    SameStepOver(w, c, d);
  }

  lemma SameStepOver(w: World, c: Seen, d: Seen)
    requires d == c.(audited := d.audited, finished := d.finished, done := d.done)
    ensures StepOver(w, c) ==> StepOver(w, d)
  {
    if StepOver(w, c) && c.call.Some? {
      var name, args :| Calling(w, c, name, args) && c.ran == Permitted(w, name, args) && c.kept == InConversation(w);
      assert Calling(w, d, name, args);
    }
  }

  /** The observer at a reply that is about to be acted on. */
  ghost predicate Ready(w: World, c: Seen, rep: Reply, streamed: bool) {
    && Idle(c) && !c.open && c.call.Some? && c.calls > 0 && !c.acted && !c.kept && !c.shown && !c.ran
    && c.reply == Some(rep) && c.streamed == streamed && (Broken(w, rep) ==> c.corrected)
  }

  lemma DispatchAsks(w: World, rep: Reply)
    ensures forall a :: Asks(w, rep, a) <==> a == Dispatch(w, rep)
  {
  }

  lemma AcceptsResponded(w: World, c: Seen, rep: Reply, streamed: bool)
    requires Ready(w, c, rep, streamed)
    ensures var e := Audit(ModelResponded, AuditOk, None);
      Accepts(w, c, [e]) && After(w, c, [e]) == c.(acted := true)
  {
    AcceptsOne(w, c, Audit(ModelResponded, AuditOk, None));
  }

  /** A tool was asked for: its log and the observation. */
  lemma AcceptsToolTurn(w: World, c: Seen, name: string, args: Json)
    requires Idle(c) && !c.open && Calling(w, c, name, args) && !c.ran && !c.kept && c.call.Some?
    ensures var m := ToolMessage(w, name, args); var s := ToolLog(w, name, args) + Keep(w, m);
      var d := c.(ran := Permitted(w, name, args), kept := InConversation(w));
      Accepts(w, c, s) && After(w, c, s) == d && StepOver(w, d) && Leads(w, d, c.call.value + [m])
  {
    var m := ToolMessage(w, name, args);
    ToolMessageObserves(w, name, args);
    AcceptsTool(w, c, name, args);
    var c1 := c.(ran := Permitted(w, name, args));
    AcceptsObservation(w, c1, name, args, m);
    AcceptsConcat(w, c, ToolLog(w, name, args), Keep(w, m));
    assert Calling(w, c1.(kept := InConversation(w)), name, args);
  }

  /** The answer: kept, shown if it was not streamed, and announced. */
  lemma AcceptsAnswer(w: World, c: Seen, text: string, streamed: bool)
    requires Idle(c) && !c.open && Answering(w, c, text) && !c.kept && !c.shown && c.streamed == streamed
    ensures var s := Keep(w, AssistantText(text)) + (if streamed then [] else [Emit(TextDelta(text))]);
      var d := c.(kept := InConversation(w), shown := !streamed);
      Accepts(w, c, s) && After(w, c, s) == d && EndFits(w, d, End(Completed, Some(text), None))
  {
    var kept, shown := Keep(w, AssistantText(text)), if streamed then [] else [Emit(TextDelta(text))];
    var c1 := c.(kept := InConversation(w));
    if InConversation(w) { AcceptsOne(w, c, Append(AssistantText(text))); }
    if !streamed { AcceptsOne(w, c1, Emit(TextDelta(text))); }
    AcceptsConcat(w, c, kept, shown);
  }

  lemma AcceptsAct(w: World, c: Seen, l: Loop, rep: Reply, streamed: bool)
    requires Ready(w, c, rep, streamed) && c.call == Some(l.messages) && l.end.None? && c.next == l.step + 1
    requires l.retries == if c.corrected then 0 else 1
    ensures var (l', c') := (Act(w, l, rep, streamed), After(w, c, ActLog(w, rep, streamed)));
      && Accepts(w, c, ActLog(w, rep, streamed))
      && if l'.end.Some? then Ended(w, c', l'.end.value) else Head(w, c', l')
  {
    var a := Audit(ModelResponded, AuditOk, None);
    var c1 := c.(acted := true);
    AcceptsResponded(w, c, rep, streamed);
    DispatchAsks(w, rep);
    match Dispatch(w, rep)
    case ToolCall(name, args) =>
      AcceptsToolTurn(w, c1, name, args);
      AcceptsConcat(w, c, [a], ToolLog(w, name, args) + Keep(w, ToolMessage(w, name, args)));
    case Final(text) =>
      var s := Keep(w, AssistantText(text)) + (if streamed then [] else [Emit(TextDelta(text))]);
      AcceptsAnswer(w, c1, text, streamed);
      AcceptsFinish(w, After(w, c1, s), End(Completed, Some(text), None));
      AcceptsConcat(w, c1, s, FinishLog(w, Completed, Some(text)));
      AcceptsConcat(w, c, [a], s + FinishLog(w, Completed, Some(text)));
      assert ActLog(w, rep, streamed) == [a] + (s + FinishLog(w, Completed, Some(text)));
  }

  /** The observer has seen the run end so, and can explain why. */
  ghost predicate Ended(w: World, c: Seen, end: End) {
    c.done == Some((end.state, end.answer)) && EndFits(w, c, end)
  }

  // ----- an iteration and a run ----------------------------------------------------------------

  lemma AcceptsFailure(w: World, c: Seen, end: End)
    requires Idle(c) && !c.open && !c.acted && EndFits(w, c, end)
    requires c.call.Some? && !w.model(c.call.value).end.Replied?
    ensures var s := [Audit(Executed, AuditError, None)] + FinishLog(w, end.state, end.answer);
      Accepts(w, c, s) && Ended(w, After(w, c, s), end)
  {
    AcceptsOne(w, c, Audit(Executed, AuditError, None));
    AcceptsFinish(w, c, end);
    AcceptsConcat(w, c, [Audit(Executed, AuditError, None)], FinishLog(w, end.state, end.answer));
  }

  /** The messages and the observer after a correction, which may or may not be answered. */
  lemma AcceptsCorrection(w: World, c: Seen, ms: seq<Message>, rep: Reply)
    requires Idle(c) && !c.open && !c.acted && c.calls == 1 && !c.corrected && c.call == Some(ms)
    requires c.reply == Some(rep) && w.model(ms).end == Replied(rep) && Broken(w, rep)
    ensures var ms' := ms + [Correction]; var c' := Called(w, c, ms');
      && Accepts(w, c, ModelLog(w, ms')) && After(w, c, ModelLog(w, ms')) == c'
      && Idle(c') && c'.corrected && c'.call == Some(ms') && c'.next == c.next
  {
    AcceptsCall(w, c, ms + [Correction]);
  }

  /** The observer right after the first call of a step. */
  ghost predicate Asked(w: World, c: Seen, l: Loop) {
    && Idle(c) && !c.open && c.calls == 1 && c.call == Some(l.messages) && c.next == l.step + 1
    && !c.acted && !c.kept && !c.shown && !c.ran && l.retries == (if c.corrected then 0 else 1)
    && (w.model(l.messages).end.Replied? ==>
        c.reply == Some(w.model(l.messages).end.reply) && c.streamed == (w.model(l.messages).deltas != []))
  }

  lemma OpeningAsks(w: World, c: Seen, l: Loop)
    requires Head(w, c, l)
    ensures Asked(w, Called(w, Opened(c, l.messages, w.persistent), l.messages), l)
  {
  }

  lemma AcceptsReply(w: World, c: Seen, l: Loop)
    requires l.end.None? && l.step < w.maxSteps && !w.cancelled(l.step) && Asked(w, c, l)
    requires w.model(l.messages).end.Replied?
    ensures Accepts(w, c, Rest(w, l))
    ensures var (l', c') := (Iterate(w, l), After(w, c, Rest(w, l)));
            if l'.end.Some? then Ended(w, c', l'.end.value) else Head(w, c', l')
  {
    var r := w.model(l.messages).end.reply;
    var (rep, streamed) := ActsOn(w, l, r);
    if Corrects(w, l, r) {
      var ms := l.messages + [Correction];
      AcceptsCorrection(w, c, l.messages, r);
      AcceptsAct(w, Called(w, c, ms), Replying(w, l, true), rep, streamed);
      AcceptsConcat(w, c, ModelLog(w, ms), ActLog(w, rep, streamed));
    } else {
      AcceptsAct(w, c, Replying(w, l, false), rep, streamed);
      AcceptsConcat(w, c, [], ActLog(w, rep, streamed));
    }
  }

  /** The observer is where the loop is: at its end, or at its head again. */
  ghost predicate Reached(w: World, c: Seen, l: Loop) {
    if l.end.Some? then Ended(w, c, l.end.value) else Head(w, c, l)
  }

  lemma AcceptsRest(w: World, c: Seen, l: Loop)
    requires l.end.None? && l.step < w.maxSteps && !w.cancelled(l.step) && Asked(w, c, l)
    ensures Accepts(w, c, Rest(w, l)) && Reached(w, After(w, c, Rest(w, l)), Iterate(w, l))
  {
    match w.model(l.messages).end
    case ModelTimeout => AcceptsFailure(w, c, End(TimedOut, None, Some(ErrTimeout)));
    case ModelError(e) => AcceptsFailure(w, c, End(Failed, None, Some(ErrProvider(e))));
    case Replied(_) => AcceptsReply(w, c, l);
  }

  lemma AcceptsIteration(w: World, c: Seen, l: Loop)
    requires l.end.None? && l.step < w.maxSteps && Head(w, c, l)
    ensures Accepts(w, c, Added(w, l)) && Reached(w, After(w, c, Added(w, l)), Iterate(w, l))
  {
    if w.cancelled(l.step) {
      AcceptsFinish(w, c, End(Cancelled, None, None));
    } else {
      AcceptsOpening(w, c, l);
      OpeningAsks(w, c, l);
      AcceptsRest(w, After(w, c, Opening(w, l)), l);
      AcceptsConcat(w, c, Opening(w, l), Rest(w, l));
    }
  }

  /** From the head of the loop the observer can explain everything a run does, up to its
      one end, which is the one that `run` returns. */
  lemma {:induction false} AcceptsRun(w: World, c: Seen, l: Loop) returns (added: seq<Entry>)
    requires l.end.None? && Head(w, c, l)
    ensures RunFrom(w, l).log == l.log + added
    ensures Accepts(w, c, added) && Ended(w, After(w, c, added), RunFrom(w, l).end.value)
    decreases if l.step <= w.maxSteps then w.maxSteps - l.step else 0
  {
    if l.step >= w.maxSteps {
      var end := End(Failed, None, Some(ErrMaxSteps));
      added := FinishLog(w, Failed, None);
      assert [] + added == added;
      AcceptsFinish(w, c, end);
    } else {
      var l', first := Iterate(w, l), Added(w, l);
      AcceptsIteration(w, c, l);
      IterationAdds(w, l);
      if l'.end.Some? {
        added := first;
      } else {
        var more := AcceptsRun(w, After(w, c, first), l');
        AcceptsConcat(w, c, first, more);
        Assoc(l.log, first, more);
        added := first + more;
      }
    }
  }

  /** Every run, fresh or resumed, is one that the observer can explain entry by entry. */
  lemma RunsAreExplained(w: World, l: Loop) returns (added: seq<Entry>)
    requires l.end.None? && l.retries == 1
    ensures RunFrom(w, l).log == l.log + added
    ensures Accepts(w, Start(l), added) && Ended(w, After(w, Start(l), added), RunFrom(w, l).end.value)
  {
    added := AcceptsRun(w, Start(l), l);
  }

  /** How a run opens: it announces itself, and a fresh one stores its input in a new row and
      with the conversation, where there are such. All else is explained. */
  lemma RunsOpen(w: World, step: nat, messages: seq<Message>, input: string)
    returns (first: seq<Entry>, later: seq<Entry>)
    ensures RunFrom(w, Fresh(w, messages, input)).log ==
      [Emit(RunStarted), Audit(RunBegan, AuditOk, None)] + (if w.persistent then [Begin(input)] else []) +
      (if w.persistent && w.inConversation then [Append(UserText(input))] else []) + first
    ensures RunFrom(w, Resumed(step, messages)).log == [Emit(RunStarted), Audit(RunBegan, AuditOk, None)] + later
    ensures Accepts(w, Start(Fresh(w, messages, input)), first) && Accepts(w, Start(Resumed(step, messages)), later)
  {
    first := RunsAreExplained(w, Fresh(w, messages, input));
    later := RunsAreExplained(w, Resumed(step, messages));
  }
}
