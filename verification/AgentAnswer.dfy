/** What a run answers, as statements over its log and its end. */
module AgentAnswer {
  import opened Prelude
  import opened Agent
  import opened AgentResults
  import opened AgentMonitor

  // ----- the reply a log leaves one with ----------------------------------------------

  /** The reply to the last model call that was answered. */
  function LastReply(w: World, s: seq<Entry>): Option<Reply> {
    if s == [] then None
    else match s[|s| - 1]
      case CallModel(ms) =>
        if w.model(ms).end.Replied? then Some(w.model(ms).end.reply) else LastReply(w, s[..|s| - 1])
      case _ => LastReply(w, s[..|s| - 1])
  }

  predicate IsStep(e: Entry) { e.Emit? && e.event.Step? }

  /** A call that was answered, after some of its text had been shown. */
  predicate Streams(w: World, e: Entry) {
    e.CallModel? && w.model(e.messages).end.Replied? && w.model(e.messages).deltas != []
  }

  /** There was such a call since the last step began. */
  predicate Streamed(w: World, s: seq<Entry>) {
    s != [] && !IsStep(s[|s| - 1]) && (Streams(w, s[|s| - 1]) || Streamed(w, s[..|s| - 1]))
  }

  predicate HasStep(s: seq<Entry>) { exists i :: 0 <= i < |s| && IsStep(s[i]) }

  lemma {:induction false} LastReplyConcat(w: World, a: seq<Entry>, b: seq<Entry>)
    ensures LastReply(w, a + b) == if LastReply(w, b).Some? then LastReply(w, b) else LastReply(w, a)
    ensures Streamed(w, a + b) == (Streamed(w, b) || (!HasStep(b) && Streamed(w, a)))
  {
    if b == [] {
      assert a + b == a;
    } else {
      var n := |b| - 1;
      assert (a + b)[..|a + b| - 1] == a + b[..n] && (a + b)[|a + b| - 1] == b[n];
      LastReplyConcat(w, a, b[..n]);
      assert HasStep(b) <==> HasStep(b[..n]) || IsStep(b[n]);
    }
  }

  lemma {:induction false} NoReplies(w: World, s: seq<Entry>)
    requires forall e :: e in s ==> !e.CallModel?
    ensures LastReply(w, s) == None && !Streamed(w, s)
  {
    if s != [] { NoReplies(w, s[..|s| - 1]); }
  }

  lemma OneCall(w: World, ms: seq<Message>)
    ensures var s, o := ModelLog(w, ms), w.model(ms);
      && LastReply(w, s) == (if o.end.Replied? then Some(o.end.reply) else None)
      && Streamed(w, s) == (o.end.Replied? && o.deltas != []) && !HasStep(s)
  {
    NoReplies(w, Deltas(w.model(ms).deltas));
    LastReplyConcat(w, [CallModel(ms)], Deltas(w.model(ms).deltas));
    assert [CallModel(ms)][..0] == [];
  }

  lemma OpeningCall(w: World, l: Loop)
    ensures var s, o := Opening(w, l), w.model(l.messages);
      && LastReply(w, s) == (if o.end.Replied? then Some(o.end.reply) else None)
      && Streamed(w, s) == (o.end.Replied? && o.deltas != []) && HasStep(s)
  {
    var a := [Emit(Step(l.step))] + if w.persistent then [Checkpoint(l.step, l.messages)] else [];
    NoReplies(w, a);
    OneCall(w, l.messages);
    LastReplyConcat(w, a, ModelLog(w, l.messages));
    assert IsStep(Opening(w, l)[0]);
  }

  // ----- what a completed run did last --------------------------------------------------

  /** The last entries of a completed run: the answer is kept with the conversation, shown
      unless its text was streamed, and announced as the last thing. */
  function Closing(w: World, text: string, streamed: bool): seq<Entry> {
    [Audit(ModelResponded, AuditOk, None)]
    + (if w.persistent && w.inConversation then [Append(AssistantText(text))] else [])
    + (if streamed then [] else [Emit(TextDelta(text))])
    + [Audit(RunFinished, AuditOk, None)]
    + (if w.persistent then [Finish(Completed)] else [])
    + [Emit(Done(Completed, Some(text)))]
  }

  lemma AnswerCloses(w: World, rep: Reply, streamed: bool, text: string)
    requires Dispatch(w, rep) == Final(text)
    ensures ActLog(w, rep, streamed) == Closing(w, text, streamed)
  {
  }

  /** The last step of a completed run. */
  lemma LastStep(w: World, l: Loop) returns (before: seq<Entry>, rep: Reply, text: string)
    requires l.end.None? && l.step < w.maxSteps && Iterate(w, l).end.Some?
    requires Iterate(w, l).end.value.state.Completed?
    ensures HasStep(before) && LastReply(w, before) == Some(rep) && Asks(w, rep, Final(text))
    ensures Iterate(w, l).end == Some(End(Completed, Some(text), None))
    ensures Added(w, l) == before + Closing(w, text, Streamed(w, before))
  {
    var r := w.model(l.messages).end.reply;
    var (reply, streamed) := ActsOn(w, l, r);
    var corrected := if Corrects(w, l, r) then ModelLog(w, l.messages + [Correction]) else [];
    rep, text, before := reply, Dispatch(w, reply).content, Opening(w, l) + corrected;
    OpeningCall(w, l);
    OneCall(w, l.messages + [Correction]);
    LastReplyConcat(w, Opening(w, l), corrected);
    assert HasStep(before) by { assert IsStep(before[0]); }
    AnswerCloses(w, rep, streamed, text);
    Assoc(Opening(w, l), corrected, Closing(w, text, streamed));
  }

  /** A completed run answers with what its last reply asks for: the content of its action,
      or of the action its text parses as, or else exactly that text. */
  lemma {:induction false} RunAnswers(w: World, l: Loop) returns (before: seq<Entry>, rep: Reply, text: string)
    requires l.end.None? && RunFrom(w, l).end.value.state.Completed?
    ensures RunFrom(w, l).log == l.log + (before + Closing(w, text, Streamed(w, before)))
    ensures RunFrom(w, l).end == Some(End(Completed, Some(text), None))
    ensures HasStep(before) && LastReply(w, before) == Some(rep) && Asks(w, rep, Final(text))
    decreases if l.step <= w.maxSteps then w.maxSteps - l.step else 0
  {
    var l', first := Iterate(w, l), Added(w, l);
    IterationAdds(w, l);
    if l'.end.Some? {
      before, rep, text := LastStep(w, l);
    } else {
      var more;
      more, rep, text := RunAnswers(w, l');
      before := first + more;
      LastReplyConcat(w, first, more);
      Regrouped(l.log, first, more, Closing(w, text, Streamed(w, more)));
      assert HasStep(before) by {
        var i :| 0 <= i < |more| && IsStep(more[i]);
        assert IsStep(before[|first| + i]);
      }
    }
  }

  lemma Regrouped(a: seq<Entry>, b: seq<Entry>, c: seq<Entry>, d: seq<Entry>)
    ensures (a + b) + (c + d) == a + ((b + c) + d)
  {
  }

  // ----- a final reply ends the run -----------------------------------------------------------

  lemma AfterLast(w: World, c: Seen, s: seq<Entry>, e: Entry)
    ensures After(w, c, s + [e]) == Next(w, After(w, c, s), e)
  {
    AcceptsConcat(w, c, s, [e]);
    assert [e][1..] == [];
  }

  lemma CallReply(w: World, c: Seen, ms: seq<Message>)
    ensures OnCall(w, c, ms).reply == if w.model(ms).end.Replied? then Some(w.model(ms).end.reply) else c.reply
  {
  }

  lemma EventReply(c: Seen, event: Event)
    ensures OnEvent(c, event).reply == c.reply
  {
    match event
    case Step(_) =>
    case TextDelta(_) =>
      if c.due != [] { assert OnEvent(c, event) == c.(due := c.due[1..]); }
    case Done(_, _) =>
    case _ =>
  }

  lemma RecordReply(c: Seen, kind: AuditKind, o: AuditOutcome)
    ensures OnRecord(c, kind, o).reply == c.reply
  {
  }

  lemma NextReply(w: World, c: Seen, e: Entry)
    requires !e.CallModel?
    ensures Next(w, c, e).reply == c.reply
  {
    match e
    case Emit(event) => EventReply(c, event);
    case Audit(kind, o, _) => RecordReply(c, kind, o);
    case _ =>
  }

  /** The reply the observer remembers is the last one of the log. */
  lemma {:induction false} ReplySeen(w: World, c: Seen, s: seq<Entry>)
    ensures After(w, c, s).reply == if LastReply(w, s).Some? then LastReply(w, s) else c.reply
  {
    if s != [] {
      var n := |s| - 1;
      assert s == s[..n] + [s[n]];
      AfterLast(w, c, s[..n], s[n]);
      var d := After(w, c, s[..n]);
      if s[n].CallModel? { CallReply(w, d, s[n].messages); } else { NextReply(w, d, s[n]); }
      ReplySeen(w, c, s[..n]);
    }
  }

  lemma AskedOnce(w: World, rep: Reply, a: Action, b: Action)
    requires Asks(w, rep, a) && Asks(w, rep, b)
    ensures a == b
  {
  }

  lemma NotOver(w: World, c: Seen, text: string)
    requires Answering(w, c, text) && c.call.Some?
    ensures !StepOver(w, c)
  {
    forall name, args | Calling(w, c, name, args) ensures false {
      AskedOnce(w, c.reply.value, ToolCall(name, args), Final(text));
    }
  }

  /** While a reply is being answered no step begins and no call is made. */
  lemma StillAnswering(w: World, c: Seen, e: Entry, text: string)
    requires Explains(w, c, e) && Answering(w, c, text) && !c.open && c.call.Some?
    ensures var d := Next(w, c, e); Answering(w, d, text) && !d.open && d.call.Some?
  {
    NotOver(w, c, text);
  }

  lemma {:induction false} AnswerIsTheEnd(w: World, c: Seen, s: seq<Entry>, text: string, end: End)
    requires Accepts(w, c, s) && Answering(w, c, text) && !c.open && c.call.Some?
    requires Ended(w, After(w, c, s), end)
    ensures end == End(Completed, Some(text), None)
    decreases |s|
  {
    if s != [] {
      StillAnswering(w, c, s[0], text);
      AnswerIsTheEnd(w, Next(w, c, s[0]), s[1..], text, end);
    } else {
      NotOver(w, c, text);
      if end.state.Completed? { AskedOnce(w, c.reply.value, Final(end.answer.value), Final(text)); }
    }
  }

  /** The other way round: wherever a run acts on a reply that asks for an answer, it
      completes with that answer. */
  lemma FinalReplyEnds(w: World, l: Loop, i: nat, rep: Reply, text: string)
    requires l.end.None? && l.retries == 1
    requires l.log <= RunFrom(w, l).log && |l.log| <= i < |RunFrom(w, l).log|
    requires RunFrom(w, l).log[i] == Audit(ModelResponded, AuditOk, None)
    requires LastReply(w, RunFrom(w, l).log[|l.log|..i]) == Some(rep) && Asks(w, rep, Final(text))
    ensures RunFrom(w, l).end == Some(End(Completed, Some(text), None))
  {
    var added := RunsAreExplained(w, l);
    var k := i - |l.log|;
    assert RunFrom(w, l).log[|l.log|..i] == added[..k];
    AnsweredAt(w, Start(l), added, k, rep, text, RunFrom(w, l).end.value);
  }

  lemma AnsweredAt(w: World, c: Seen, s: seq<Entry>, k: nat, rep: Reply, text: string, end: End)
    requires Accepts(w, c, s) && Ended(w, After(w, c, s), end) && k < |s|
    requires s[k] == Audit(ModelResponded, AuditOk, None)
    requires LastReply(w, s[..k]) == Some(rep) && Asks(w, rep, Final(text))
    ensures end == End(Completed, Some(text), None)
  {
    var d := After(w, c, s[..k]);
    assert s == s[..k] + s[k..] && s[k..][0] == s[k] && s[k..][1..] == s[k + 1..];
    AcceptsConcat(w, c, s[..k], s[k..]);
    ReplySeen(w, c, s[..k]);
    assert Explains(w, d, s[k]);
    AnswerIsTheEnd(w, Next(w, d, s[k]), s[k + 1..], text, end);
  }
}
