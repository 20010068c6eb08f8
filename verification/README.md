# Verified models of the assistant's protocols, stores and encoders

This project models the parts of the repository where a mistake would be hard to see in a
single function body, and proves what they promise. `dafny verify dfyconfig.toml` checks
all of it.

| files | what they model |
|---|---|
| `Broker`, `BrokerSafety`, `BrokerResults`, `BrokerRetry`, `BrokerProgress`, `BrokerLiveness`, `BrokerPlacement` | The broker RPC protocol as a state machine: any number of clients and serving processes take steps on one shared key/value transport, listings come in any order, deletes may fail silently, pushes may fail, processes may stop after any step. The results speak of every reachable state: what is never delivered or executed, what one step must decide, and that every waiting call can still be answered. |
| `Agent`, `AgentRuntime`, `RunStore`, `AgentResults`, `AgentCrashes`, `AgentTrace`, `AgentMonitor`, `AgentAnswer` | The agent's step loop with model, tools, policy, approvals and cancellation as functions of their inputs; the durable run rows; crash and resume as a comparison of runs; the grammar of the trace; an observer that sees only the log of a run and can account for every entry of it, and what a run answers. |
| `StreamText`, `FinalStream`, `FinalStreamResults`, `JsonEscapes`, `FinalStreamEscapes` | The incremental extraction of a final answer's text from a stream of model tokens, against the escapes of section 7 of RFC 8259 written as tables. |
| `ParseAction`, `JsonReader` | The brace scanner that finds a JSON action inside prose, against a JSON printer and a reader that inverts it. |
| `Sse`, `SseResults`, `SsePayloads` | The server-sent-events decoder and the event machine of a streamed completion; which lines carry a payload, and what a whole stream tells. |
| `Checksums`, `CrcPolynomial`, `Adler`, `Png`, `PngFile`, `Icon` | The icon encoder: CRC-32, Adler-32, stored deflate blocks, chunks, the file and its scanlines, against readers written from RFC 1950, RFC 1951 and the PNG specification, which test the CRC as a remainder of polynomials over bits. |
| `Utf8`, `Decimals`, `ByteLines`, `Cgi`, `CgiResults`, `CgiCrlf` | Reading CGI output, with line feeds or CR LF, and printing it again. |
| `Disk`, `Install`, `Upgrade`, `Aside`, `Place`, `UpgradeTwice`, `PartialUpgrade`, `Restore` | Installing, upgrading, snapshotting and restoring an app on a file system whose operations may fail at any point. |
| `Smtp`, `SmtpDialog` | The SMTP payload and the reply reader. |
| `Chunker` | The document chunker. |
| `Prelude`, `Trimming` | Options, bytes, UTF-8 lengths and white space shared by the others; what trimming removes. |

Code that changes state step by step is modelled by methods over fields and proved against
functions or predicates of the old and the new state; the lemmas are about those functions.

## What the proofs found

* **Streamed calls.** Chunks reach the caller in order, each once, and all of them when the
  call returns Ok, as long as the executions of the request behave alike. Whatever the handler
  does, that is certain if and only if one process serves the target device and none of its
  pushes for the request fails (`BrokerRetry.ExactDelivery`). A push that fails makes the same
  process execute the request again (it records an id as served only after the response was
  pushed), and a second process, for instance after a restart, executes it again even without
  any failure; either way the caller can be handed the first chunk of one execution and the
  second chunk of another (`FailedPushMixesExecutions`, `SecondProcessMixesExecutions`).
* **Calls end.** Nothing but an expired deadline makes a process clean a request away without
  executing it (`BrokerProgress.FetchDecides`, `BrokerProgress.NoneDropped`), and from every
  reachable state in which a call waits for a request that an idle process has not served, there
  is a run that executes it at any time before its deadline and ends the call with what the
  handler returned (`BrokerLiveness.CallCompletes`).
* **Placement.** The comment on the load score says that battery and thermal state dominate. An
  unplugged device with 1 TiB of memory beats an idle one on wall power
  (`BrokerPlacement.BatteryDoesNotDominate`); `BatteryDominatesExactly` says when the claim holds.
* **Resume.** A run that was killed and resumed, once or any number of times, ends like the
  uninterrupted one if and only if it is not the case that the correction round was spent
  before the checkpoint and the uninterrupted run ends by accepting a malformed reply; the
  counter of correction rounds is not stored. `AgentResults.SpentCorrectionDiffers` is a run
  where the two differ. Before the first checkpoint the row holds the input but no messages,
  and a resumed run goes by the messages alone: it asks the model about an empty conversation
  (`AgentCrashes.EarlyCrashForgetsInput`).
* **Extraction.** The result is independent of the chunks if and only if the first brace, if
  there is one, comes before byte 64 and the content, if the text has any, opens within the
  first 4096 bytes. The source's comment speaks of characters; the code counts bytes.
  Surrogate pairs written as two `\u` escapes are dropped, so a content is emitted exactly if and
  only if it was escaped without them; a `\u` escape cut short is dropped with the character that
  cuts it, and a text without any brace appears only once 64 bytes of it have come.
* **CGI.** Printing and parsing again is stable if and only if the parsed body holds no
  CRLF CRLF; otherwise the body comes back shorter.
* **Upgrade.** Whatever fails, the files an upgrade owes, those of `data/` or, if there was no
  such directory, those of a leftover backup, are complete in `data/` or complete in the
  backup. After a failure while setting the logs aside or removing the old directory the
  source returns without rolling back, so the data then stays in the backup
  (`Place.StoppedEarly`, part of the contract of `Place.PlaceApp`). Over two calls in a row the
  promise holds if and only if, in between, `data/` holds every owed file, or there is no
  `data/` and the backup does (`UpgradeTwice.SecondUpgrade`, `UpgradeTwice.StillOwedIs`); a partial
  `data/` beside a full backup is lost by the next upgrade that succeeds
  (`UpgradeTwice.SecondUpgradeLoses`), and one fault while a file is copied back leaves such a
  tree (`PartialUpgrade.PartialIsReached`).
* **Restore.** A rollback restores the old state exactly when there was live data or no stale
  rescue directory (`Restore.RollbackIsExact`).
* **Server-sent events.** How the bytes are cut into reads does not matter if and only if no
  payload after the first one that finishes the stream changes anything
  (`SseResults.CutsDoNotMatter`). A finish reason followed by end markers is such a stream;
  text, another model or other token counts after the finish reason are seen or lost
  depending on the cut.
* **SMTP replies.** A reply line whose fourth byte goes on with a character, and so is no
  boundary to slice at, stops the reader with a panic; `SmtpDialog.PanicsExactly` says for which
  bytes that happens. A line of only the three digits, which the grammar in section 4.2 of
  RFC 5321 allows, is refused as a bad reply (`SmtpDialog.FirstLineTells`).
* **Documentation.** The chunker's comment calls its chunks overlapping; they do not overlap.
  The comment on `copy_merge` speaks of data shipped with a package; the loader never lets a
  package ship any. An approval that the user refuses is audited as a resolved approval, not
  as a denial.

## Model

| member | source | states |
|---|---|---|
| BrokerResults.StreamDelivery | crates/pai-broker/src/rpc.rs:374-458 | In every reachable state the chunks handed to a streaming caller are a prefix of what the handler sent, in order and each once, and all of them once the call returned Ok. |
| BrokerResults.StreamDeliveryOneServer | crates/pai-broker/src/rpc.rs:635-699 | One serving process whose pushes succeeded is enough for that, whatever the handler does, every listing order and every set of failed deletes. |
| BrokerResults.AtMostOnce | crates/pai-broker/src/rpc.rs:556-630 | A process executes a request at most once more than its pushes for it failed, exactly as it was issued to its device, never after a nonzero expiry. |
| BrokerResults.Correlation | crates/pai-broker/src/rpc.rs:292-356 | Every final response in the transport, and every result a caller got, answers a request its addressee issued under that id with the result of an execution of that request. |
| BrokerResults.OnlyOneExecution | crates/pai-broker/src/rpc.rs:556-630 | Without failed pushes, one process's executions of an id are one. |
| BrokerResults.SomeExecution | crates/pai-broker/src/rpc.rs:374-458 | Nothing is delivered and nothing finishes without an execution of that request. |
| BrokerResults.KeepsCount | crates/pai-broker/src/rpc.rs:556-630 | Every step keeps the bound on executions, served ids and failed pushes. |
| BrokerSafety.KeepsInv | crates/pai-broker/src/rpc.rs:374-458 | Every step of every client and process keeps the protocol invariant: what each transport object means, what each caller has and may still get. |
| BrokerSafety.RunKeepsInv | crates/pai-broker/src/rpc.rs:374-458 | So does every interleaving of steps. |
| BrokerSafety.DrainEnds | crates/pai-broker/src/rpc.rs:407-444 | The drain after the final response delivers every chunk that is left, in order, from a listing in any order. |
| BrokerSafety.DeliverReaches | crates/pai-broker/src/rpc.rs:433-444 | Delivering sorted pending chunks from the next number on takes all consecutive ones. |
| BrokerSafety.KeepsFetch | crates/pai-broker/src/rpc.rs:556-630 | Fetching a listed key, whatever is done with it, keeps the protocol invariant; what is done with it is `BrokerProgress.FetchDecides`. |
| BrokerSafety.KeepsPushFinal | crates/pai-broker/src/rpc.rs:701-721 | The pushed response answers the execution that is being closed. |
| BrokerProgress.FetchDecides | crates/pai-broker/src/rpc.rs:560-630 | In every reachable state, a process that comes to a request to its device that is there and that it has not served executes it, exactly once, if there is no deadline or it has not passed; cleans it away if it has; passes over any other key; and changes nothing else. |
| BrokerProgress.NoneDropped | crates/pai-broker/src/rpc.rs:556-632 | Over every run, an issued request is still in the transport, or a process at its device executed it or came to it after its deadline; and a process marks no request served that it neither executed nor found late. |
| BrokerProgress.ScanDecides | crates/pai-broker/src/rpc.rs:382-407 | A scan hands over a listed chunk if and only if it is the call's own next one and is there, and then deletes it. |
| BrokerLiveness.CallCompletes | crates/pai-broker/src/rpc.rs:324-458 | From every reachable state in which a call waits, its request is there and an idle process at its target has not served it, some run executes the request at any time before its deadline, for any behaviour of the handler, and ends the call with what the handler returned; a stream not executed before has handed over exactly what was sent; nothing of the request stays behind and nothing else is touched. |
| BrokerLiveness.FreshCallCompletes | crates/pai-broker/src/rpc.rs:292-458 | A call made in any reachable state to a device with an idle process can be issued, executed and ended so, and the transport is then as it was before. |
| BrokerLiveness.Serves | crates/pai-broker/src/rpc.rs:556-632 | An idle process can list, execute, answer and clean away any request wanted there, with the state this leaves. |
| BrokerLiveness.WaitingEnds | crates/pai-broker/src/rpc.rs:324-458 | A call in any waiting phase whose final object is there can end with it, taking its own objects along and leaving all others. |
| BrokerLiveness.HeldAnswerEnds | crates/pai-broker/src/rpc.rs:407-458 | A call that already holds an answer can end with that one. |
| BrokerRetry.ExactDelivery | crates/pai-broker/src/rpc.rs:556-630 | In every reachable state with at most p processes at the target and n failed pushes for the request the caller has the chunks of one execution, whatever the handler does, if and only if p is 1 and n is 0 (or p is 0, when nothing is delivered). |
| BrokerRetry.FailedPushMixesExecutions | crates/pai-broker/src/rpc.rs:599-627 | A concrete run with one process and one failed push in which the delivered chunks are those of no execution. |
| BrokerRetry.SecondProcessMixesExecutions | crates/pai-broker/src/rpc.rs:556-599 | The same with two processes and no failed push. |
| BrokerPlacement.DeliverPending | crates/pai-broker/src/rpc.rs:433-444 | The delivery loop hands over exactly what the specification of delivery says. |
| BrokerPlacement.FindPeer | crates/pai-broker/src/rpc.rs:251-290 | The peer is an eligible device that no eligible one beats by load score plus weight, with the lowest id on ties; none only if none is eligible. |
| BrokerPlacement.PeersAgree | crates/pai-broker/src/rpc.rs:251-290 | Any two answers for permutations of the same listing are the same. |
| BrokerPlacement.PeerServes | crates/pai-broker/src/rpc.rs:251-290 | The chosen device announced the operation itself, in version 1 of the format and at most five minutes ago, and the announcement stands; none is chosen only if no device did. |
| BrokerPlacement.WorseNeverChosen | crates/pai-broker/src/rpc.rs:100-118 | A device that differs from another of equal weight only in being busier, unplugged or throttled is never chosen. |
| BrokerPlacement.Prefers | crates/pai-broker/src/rpc.rs:100-118 | Which loads score higher: less busy, plugged in, not throttled, more cores; more memory never scores lower, and unknown states count as good. |
| BrokerPlacement.BatteryDominatesExactly | crates/pai-broker/src/rpc.rs:102-118 | An unplugged device loses to an idle one on wall power if and only if its memory and cores are not worth more than the other's by the thousand points it is fined and what its running work costs it. |
| BrokerPlacement.BatteryDoesNotDominate | crates/pai-broker/src/rpc.rs:102-118 | Two loads for which the comment that battery state dominates is false. |
| AgentResults.ResumeEqualsUninterrupted | crates/pai-agent/src/lib.rs:321-541 | Killed anywhere, with any writes lost, and resumed from the stored checkpoint, a run ends with the same messages, answer and state, if and only if not (correction spent before the checkpoint and a malformed reply accepted at the end); without a spent correction it does exactly the rest of the original trace from the last checkpoint that took effect. |
| AgentCrashes.ManyCrashes | crates/pai-agent/src/lib.rs:321-541 | The same, with the same condition, for any number of crashes and resumes, each anywhere and with any writes lost. |
| AgentCrashes.KeepsTrack | crates/pai-agent/src/lib.rs:404-541 | One more crash leaves a checkpoint of the uninterrupted run, or the uninterrupted run ended on a malformed reply that was corrected since. |
| AgentCrashes.ResumeStored | crates/pai-agent/src/lib.rs:324-342 | Loading a stored row and running on does and returns what the resumed run of these results does; an unknown run is refused and nothing happens. |
| AgentCrashes.RunBeginsNothing | crates/pai-agent/src/lib.rs:321-541 | No step opens the row anew, so a resumed run never clears its checkpoint. |
| AgentResults.ResumeFrom | crates/pai-agent/src/lib.rs:404-541 | The same for the checkpoint at any position of a run's log. |
| AgentResults.AtCheckpoint | crates/pai-agent/src/lib.rs:406-416 | Every checkpoint in a log is the loop's state at the start of an iteration, from which the rest of the run follows. |
| AgentResults.SameFuture | crates/pai-agent/src/lib.rs:404-541 | Equal messages, step and corrections left give equal ends and equal further traces. |
| AgentResults.CorrectionMatters | crates/pai-agent/src/lib.rs:438-470 | With and without the correction round left, the ends are equal if and only if the run without it does not end on a malformed reply. |
| AgentResults.SpentCorrectionDiffers | crates/pai-agent/src/lib.rs:404-541 | A model and a tool for which resuming after a spent correction ends differently. |
| AgentCrashes.EarlyCrashForgetsInput | crates/pai-agent/src/lib.rs:324-342 | A row holds no checkpoint exactly when none took effect; it then loads as step 0, no messages and the input, and the resumed run asks the model about no messages. |
| AgentTrace.RunTrace | crates/pai-agent/src/lib.rs:301-541 | A fresh or resumed run announces itself, emits one Done that is last and names its state and answer, gates every tool call, and keeps both call bounds. |
| AgentTrace.OneDoneLast | crates/pai-agent/src/lib.rs:660-690 | Every run emits exactly one Done, as its last act, with the state and answer that are returned. |
| AgentTrace.CallsBounded | crates/pai-agent/src/lib.rs:404-541 | From step s at most (max_steps - s) plus the corrections left model calls and max_steps - s tool calls. |
| AgentTrace.ToolsAreGated | crates/pai-agent/src/lib.rs:767-1005 | A tool is called only right after it was allowed, and only if it is on the allowlist, registered, has valid arguments, and policy or a granted approval permits it; an execution naming a tool is audited only right after that call. |
| AgentTrace.ObservationTells | crates/pai-agent/src/lib.rs:767-1005 | A call is executed if and only if allowlist, registry, schema and policy or approval permit it, and what the model is told of it is an error if and only if they do not or the execution failed. |
| AgentTrace.ObservationSays | crates/pai-agent/src/lib.rs:767-1005 | The model is told which gate refused, the first one that did, or the value or error of the execution. |
| AgentTrace.RecordsTell | crates/pai-agent/src/lib.rs:767-1005 | Which events and audit records a call leaves, each with the exact condition under which it does, the records of changed memory included. |
| AgentMonitor.RunsAreExplained | crates/pai-agent/src/lib.rs:404-541 | An observer of nothing but the log can account for every entry of every run and for its end: each model call has the messages of the one before and the observation of the tool its reply asked for, or is the one correction of a broken tool call; each text shown is the model's or the unstreamed answer; each tool, record, kept message and end is one that the last reply asks for. |
| AgentMonitor.RunsOpen | crates/pai-agent/src/lib.rs:319-376 | How runs open: both announce themselves; a fresh one opens its row with its input and keeps the input with the conversation, where there are such. |
| AgentAnswer.RunAnswers | crates/pai-agent/src/lib.rs:471-535 | A completed run answers with the content of its last reply's action, or else of the action the reply's text parses as, or else with exactly that text, and its last entries are that answer kept, shown unless streamed, audited, stored and announced. |
| AgentAnswer.FinalReplyEnds | crates/pai-agent/src/lib.rs:471-535 | Wherever a run acts on a reply that asks for an answer, it completes with that answer. |
| AgentRuntime.Runtime.RunFresh | crates/pai-agent/src/lib.rs:321-541 | A fresh run does and returns what the specification of the loop says. |
| AgentRuntime.Runtime.RunResumed | crates/pai-agent/src/lib.rs:324-342 | So does a resumed one. |
| AgentRuntime.Runtime.StepLoop | crates/pai-agent/src/lib.rs:404-541 | The step loop produces exactly the specified trace, messages and end. |
| AgentRuntime.Runtime.Turn | crates/pai-agent/src/lib.rs:406-536 | One turn of it. |
| AgentRuntime.Runtime.Correct | crates/pai-agent/src/lib.rs:438-470 | The correction round: once a run, for a reply that is a malformed tool call, keeping the first reply if the second call fails. |
| AgentRuntime.Runtime.ActOn | crates/pai-agent/src/lib.rs:471-535 | The method adds to the log, and observes, what the specification of acting on a reply says; which action a reply asks for is pinned by `AgentAnswer.RunAnswers` and `AgentMonitor.RunsAreExplained`. |
| AgentRuntime.Runtime.ExecuteTool | crates/pai-agent/src/lib.rs:767-1005 | The gates in order, with their records and the observation each yields. |
| AgentRuntime.Runtime.GenerateStep | crates/pai-agent/src/lib.rs:697-741 | One model call, a text event for each delta. |
| AgentRuntime.Runtime.FinishRun | crates/pai-agent/src/lib.rs:660-690 | Audit, row, Done event, in this order. |
| RunStore.Store.BeginRun | crates/pai-agent/src/store.rs:311-329 | A new row, others unchanged. |
| RunStore.Store.SaveCheckpoint | crates/pai-agent/src/store.rs:333-347 | Step, state and messages of an existing row. |
| RunStore.Store.FinishRun | crates/pai-agent/src/store.rs:350-358 | The terminal state of an existing row. |
| RunStore.LoadsLastCheckpoint | crates/pai-agent/src/store.rs:390-426 | After any crash with any writes lost, the row holds a step and messages if and only if they are those of the last checkpoint that took effect after the row was opened. |
| RunStore.Store.Interrupted | crates/pai-agent/src/store.rs:362-387 | Lists exactly the runs whose row was opened and not finished since, for whatever log and lost writes left the row. |
| RunStore.InterruptedIs | crates/pai-agent/src/store.rs:362-387 | A killed run is listed as interrupted if and only if the write that opened its row took effect and no later finish did. |
| RunStore.RowExists | crates/pai-agent/src/store.rs:311-347 | There is a row if and only if a write that opens one took effect; checkpoints alone make none. |
| RunStore.StateIs | crates/pai-agent/src/store.rs:311-358 | After any crash with any writes lost, the stored state is exactly what the last write that took effect left: running after an opening or a checkpoint, else the state the run finished in. |
| RunStore.Store.Abandon | crates/pai-agent/src/store.rs:429-438 | Only an open run is closed as failed. |
| FinalStreamResults.ChunkingIndependence | crates/pai-agent/src/lib.rs:1160-1283 | Every split of a text leaves the same fields and emits the same text as one push if and only if the first brace comes before byte 64 and the content opens within 4096 bytes. |
| FinalStreamResults.SteadySplit | crates/pai-agent/src/lib.rs:1160-1283 | One direction, with the state and output given by the whole text. |
| FinalStreamResults.UnsteadySplit | crates/pai-agent/src/lib.rs:1247-1283 | For any other text, a split that ends in a different state. |
| FinalStreamResults.ProtocolIsStable | crates/pai-agent/src/lib.rs:1289-1305 | More text never revises where the type and the content were found. |
| FinalStreamEscapes.FinalContentDecoded | crates/pai-agent/src/lib.rs:1175-1240 | A final action with any escaped content and any white space between its tokens, in any chunks, emits what section 7 of RFC 8259 says the escapes stand for, by its own table of code points, without the surrogate pairs: exactly the content if and only if it was escaped without them. |
| FinalStreamEscapes.OtherActionSilent | crates/pai-agent/src/lib.rs:1261-1281 | A text that opens with another type emits nothing, in any chunks and with any white space between its tokens. |
| FinalStreamEscapes.ProtocolIsSound | crates/pai-agent/src/lib.rs:1247-1283 | Both apply to the protocol's own keys and values, which are "type", "content", final and tool_call. |
| FinalStreamEscapes.ReadsUnknown | crates/pai-agent/src/lib.rs:1193-1210 | An escape the standard does not know stands for its character. |
| FinalStreamEscapes.ReadsMalformed | crates/pai-agent/src/lib.rs:1229-1233 | A \u escape cut short by any other character is dropped with it, and the content goes on. |
| FinalStreamEscapes.PlainTextStreams | crates/pai-agent/src/lib.rs:1247-1283 | A text without a brace is emitted as it is if it has 64 bytes, and not at all otherwise, in any chunks. |
| FinalStream.Extractor.PushChunk | crates/pai-agent/src/lib.rs:1160-1242 | The object's fields and what it emits after a push. |
| FinalStream.Extractor.ScanOnce | crates/pai-agent/src/lib.rs:1247-1283 | One scan for the type and the content. |
| FinalStream.Extractor.Drain | crates/pai-agent/src/lib.rs:1163-1241 | The decoding loop leaves the output, position and state of the specified decoder, whose output is what `FinalStreamEscapes.FinalContentDecoded` says. |
| ParseAction.SpanIsObject | crates/pai-inference/src/lib.rs:263-302 | For every JSON object, every prose prefix without a brace and every suffix, the scan selects exactly the printed object. |
| ParseAction.SpanIsBalanced | crates/pai-inference/src/lib.rs:263-302 | Any selected span is the shortest one that returns to depth zero outside strings. |
| JsonReader.ActionParses | crates/pai-inference/src/lib.rs:52-62 | A serialised action inside prose parses back to itself. |
| JsonReader.PrintReadsBack | crates/pai-inference/src/lib.rs:52-62 | Every printed JSON value reads back as itself. |
| JsonReader.EscapeMeans | crates/pai-inference/src/lib.rs:52-62 | The reader takes each two-character escape for the code point that RFC 8259 lists, and no other. |
| JsonReader.HexEscapeMeans | crates/pai-inference/src/lib.rs:52-62 | It takes a \u escape for the code point of its four digits and refuses surrogates. |
| ParseAction.ScanObject | crates/pai-inference/src/lib.rs:267-293 | The scanning loop. |
| ParseAction.FindSpan | crates/pai-inference/src/lib.rs:263-302 | The span that is handed to the JSON reader. |
| Sse.Decoder.Push | crates/pai-inference/src/lib.rs:703-713 | Buffer and queue after a push: the payloads of all complete lines, and the rest. |
| Sse.PushSplits | crates/pai-inference/src/lib.rs:703-713 | Pushing two chunks leaves the state that pushing both at once leaves. |
| SsePayloads.LineDataIs | crates/pai-inference/src/lib.rs:703-713 | A line queues exactly p if and only if its text is `data:` and p up to white space around both; any other line queues nothing. |
| SsePayloads.SentData | crates/pai-inference/src/lib.rs:703-713 | Payloads sent as events of one `data:` line and an empty line are queued as they are, in order. |
| Sse.Session.HandleData | crates/pai-inference/src/lib.rs:736-760 | What one payload changes. |
| Sse.Session.Next | crates/pai-inference/src/lib.rs:776-836 | Each call emits exactly the next of the events that are left. |
| SseResults.StreamCloses | crates/pai-inference/src/lib.rs:736-836 | Over every run: deltas, then exactly one response or error, last; the response's text is the concatenation of the deltas. |
| SseResults.CutsDoNotMatter | crates/pai-inference/src/lib.rs:703-836 | From any state of the stream, every way to cut the same bytes into reads gives the same events if and only if no payload after the first finishing one changes anything. |
| SseResults.InertIs | crates/pai-inference/src/lib.rs:736-771 | Such a payload is an end marker, no JSON, or one without text whose model and token counts, if any, are those the response would show already. |
| SseResults.FinishThenEnd | crates/pai-inference/src/lib.rs:736-836 | A stream that ends with a finish reason and then end markers may be cut anywhere. |
| SsePayloads.StreamTells | crates/pai-inference/src/lib.rs:736-836 | A stream of such events that ends with `[DONE]`, cut into reads in any way and with anything behind it, emits the payloads' texts one by one and then the response: all text, the last model, and the last usage's token counts in 32 bits. |
| SsePayloads.StreamStops | crates/pai-inference/src/lib.rs:776-836 | A stream none of whose payloads finishes it emits their texts and then the response to all of them if it closes, and their texts and then an error if a read fails, however it was cut and whatever would have come. |
| SsePayloads.Accumulates | crates/pai-inference/src/lib.rs:736-771 | The same for the state after any payloads none of which is the end marker. |
| SsePayloads.FinishedReads | crates/pai-inference/src/lib.rs:776-836 | Once a stream is finished, nothing behind it is read. |
| SseResults.LatePayloadDepends | crates/pai-inference/src/lib.rs:736-771 | Text, another model or other token counts after the finishing payload depend on the cuts. |
| Checksums.BurstDetected | crates/pai-apps/src/serve.rs:612-625 | Inputs of equal length that differ only within four consecutive bytes, and so those differing in one byte, have different CRCs. |
| Checksums.FeederInjective | crates/pai-apps/src/serve.rs:615-623 | Feeding a byte is injective in the register. |
| Checksums.TimesInjective | crates/pai-apps/src/serve.rs:617-622 | Any number of shifts is injective. |
| Checksums.WordStep | crates/pai-apps/src/serve.rs:615-623 | Feeding a byte of a word leaves the word's other bytes mixed into the register. |
| Checksums.Crc32 | crates/pai-apps/src/serve.rs:612-625 | The loops compute the specified register; `CrcPolynomial.CrcIsRemainder` says that it is the standard's. |
| CrcPolynomial.CrcIsRemainder | crates/pai-apps/src/serve.rs:612-625 | The checksum of any data is the inverted remainder, over bits, of the data with an all-ones start divided by the generator x^32 + x^26 + ... + 1 of annex D of the PNG specification, in the standard's bit order. |
| CrcPolynomial.CheckIsRemainder | crates/pai-apps/src/serve.rs:653-661 | The four bytes of the checksum, most significant first, hold that remainder. |
| Adler.Adler32 | crates/pai-apps/src/serve.rs:627-634 | The halves are the two sums of RFC 1950 modulo 65521, and no intermediate leaves 32 bits, at any length. |
| Adler.SumBWeighs | crates/pai-apps/src/serve.rs:627-634 | The second sum weighs each byte by its distance from the end. |
| Adler.AdlerIsCheck | crates/pai-apps/src/serve.rs:627-634 | The checksum is the check value of section 8.2 of RFC 1950 in closed form. |
| Adler.OneByteDetected | crates/pai-apps/src/serve.rs:627-634 | Inputs that differ in exactly one byte have different checksums. |
| Png.ZlibStored | crates/pai-apps/src/serve.rs:637-651 | The loop and the special case for no data produce the specified stream. |
| Png.InflateBlocks | crates/pai-apps/src/serve.rs:639-648 | A reader of stored blocks recovers the data and stops right after the last block, the only one marked final, for empty data and exact multiples too. |
| Png.UnzlibZlib | crates/pai-apps/src/serve.rs:637-651 | The zlib stream passes the header and checksum tests of RFC 1950 and reads back as the data. |
| Png.Complemented | crates/pai-apps/src/serve.rs:643 | The second length field is the bytewise complement of the first. |
| Png.BlocksSize | crates/pai-apps/src/serve.rs:637-651 | The size of the blocks. |
| Png.BlockCountIs | crates/pai-apps/src/serve.rs:637-651 | One block for every 65535 bytes begun, and one for no data. |
| PngFile.PngChunk | crates/pai-apps/src/serve.rs:653-661 | Length, type, data and CRC. |
| PngFile.ChunkReadsBack | crates/pai-apps/src/serve.rs:653-661 | A chunk passes the CRC test of a reader that divides polynomials, and reads back, whatever follows it. |
| PngFile.PngEncode | crates/pai-apps/src/serve.rs:664-673 | The file. |
| PngFile.EncodedReadsBack | crates/pai-apps/src/serve.rs:664-673 | A reader that knows the specification's own signature, chunk names and format bytes recovers width, height and scanlines for every image whose sizes fit 32 bits. |
| Icon.PwaIcon | crates/pai-apps/src/serve.rs:584-610 | The scanline loops, for any test of which pixels are inside. |
| Icon.IconShows | crates/pai-apps/src/serve.rs:584-610 | Read back, every line is unfiltered and every pixel is the colour inside the shape and transparent outside. |
| Cgi.ParseCgi | crates/pai-apps/src/serve.rs:176-221 | The parser against its specification; what that means for heads with CR LF is `CgiCrlf.WithStatus`. |
| Cgi.FindSubslice | crates/pai-apps/src/serve.rs:223-225 | The first occurrence. |
| Cgi.CgiBytes | crates/pai-apps/src/serve.rs:550-558 | The printer against its specification. |
| CgiResults.ParsedIsClean | crates/pai-apps/src/serve.rs:176-221 | Every parsed response has a 16-bit status and trimmed one-line headers, none named Status, one of them a content type. |
| CgiResults.PrintedReadsBack | crates/pai-apps/src/serve.rs:550-558 | Such a response survives printing and parsing exactly if its body holds no CRLF CRLF. |
| CgiResults.ReencodingIsStable | crates/pai-apps/src/serve.rs:176-221 | For every byte string, printing and parsing the parsed response again changes nothing if and only if its body holds no CRLF CRLF. |
| CgiCrlf.WithStatus | crates/pai-apps/src/serve.rs:176-221 | A head of any clean fields with CR LF line ends and an empty CR LF line, whose status field stands anywhere, in any spelling, with or without a reason, is read as exactly that status, the other fields in order, and the body, whatever that holds. |
| CgiCrlf.WithoutStatus | crates/pai-apps/src/serve.rs:176-221 | Without a status the code is 200; without a content type, in any spelling, text/plain is added. |
| CgiCrlf.WithoutHead | crates/pai-apps/src/serve.rs:182-189 | Output without an empty line of either kind is all body, with 200 and text/plain. |
| CgiCrlf.CodeReads | crates/pai-apps/src/serve.rs:202-207 | A status value that is a 16-bit number, alone or with white space and a reason behind it, is that number. |
| CgiCrlf.NoCodeReads | crates/pai-apps/src/serve.rs:202-207 | One that opens with neither a digit nor a plus is 200. |
| Utf8.DecodeEncode | crates/pai-apps/src/serve.rs:197 | Text written as UTF-8 reads back as itself. |
| Utf8.EncodeDecode | crates/pai-apps/src/serve.rs:197 | The reader is strict: what it accepts is the encoding of what it returns. |
| Install.CopyMerge | crates/pai-apps/src/lib.rs:717-729 | On success exactly the files of the source lie over those of the target; nothing outside the target changes; into a free place only a fault makes it fail. |
| Upgrade.Retain | crates/pai-apps/src/lib.rs:379-385 | Exactly the walked files that are not below `data` or `logs`, not `auth.json`, and not `signature.bin`. |
| Upgrade.InstallTo | crates/pai-apps/src/lib.rs:484-505 | On success the package's files, its signature as `signature.bin`, and nothing else new; reserved names are never touched; a writable package fails only by a fault. |
| Upgrade.PutFits | crates/pai-apps/src/lib.rs:489-498 | Files that do not run through each other never stand in each other's way. |
| Upgrade.SafeGoesDown | crates/pai-apps/src/lib.rs:671-685 | The path check accepts exactly the paths no component of which leads up or back to the root, followed from any directory below it. |
| Aside.SetAside | crates/pai-apps/src/lib.rs:813-834 | On success the live directory is complete in the backup; on failure it is untouched. |
| Aside.CopyBack | crates/pai-apps/src/lib.rs:837-844 | The old files are complete in one of the two places at every step, and in the live one on success. |
| Place.Reinstall | crates/pai-apps/src/lib.rs:836-849 | The reinstallation: on success old data, old logs, the package and the saved `auth.json`; otherwise both old directories are still held. |
| Place.RollBack | crates/pai-apps/src/lib.rs:850-862 | Nothing is lost, and with no further fault the old data is back unless other files stand in its place. |
| Place.PlaceApp | crates/pai-apps/src/lib.rs:801-867 | At whichever step it fails the owed data (the old one, or a leftover backup's if there was no live directory) is complete in `data/` or its backup, and the logs likewise; on success both are exactly the owed ones and all other files exactly the package's plus the saved `auth.json`; nothing else in the registry changes; without faults a package of safe, non-clashing paths is placed, and after a single fault during reinstallation the old data is back in `data/` unless a partial copy stands there. |
| Aside.OwedIsOld | crates/pai-apps/src/lib.rs:813-841 | What an upgrade owes is the old live files exactly if there was a live directory or no leftover backup held a file. |
| Aside.RenameBackSurvives | crates/pai-apps/src/lib.rs:854-859 | Renaming the backup back loses nothing. |
| UpgradeTwice.SecondUpgrade | crates/pai-apps/src/lib.rs:801-867 | From any tree, through any two calls with any outcomes: what the first one owed survives the second wherever that stops, if it is still owed in between, and only then once the second one moved the data or logs. |
| UpgradeTwice.StillOwedIs | crates/pai-apps/src/lib.rs:813-822 | It is still owed if and only if the live directory holds it, or there is none and the backup does. |
| UpgradeTwice.PartialBesideFull | crates/pai-apps/src/lib.rs:836-862 | A tree with a partial `data/` beside a full backup is within what a failed upgrade promises, is not still owed, and lets the next upgrade succeed. |
| PartialUpgrade.PartialIsReached | crates/pai-apps/src/lib.rs:813-862 | An upgrade of an app with two files in `data/` to an empty package, with a single fault while the second file is copied back, leads step by step to that tree. |
| UpgradeTwice.SecondUpgradeLoses | crates/pai-apps/src/lib.rs:813-822 | From that tree every upgrade that succeeds loses old data. |
| Restore.SnapshotData | crates/pai-apps/src/lib.rs:893-910 | Exactly the files below `data/` with their bytes; only a fault makes it fail. |
| Restore.CollectFiles | crates/pai-apps/src/lib.rs:687-702 | Exactly the files below a directory. |
| Restore.RestoreData | crates/pai-apps/src/lib.rs:917-956 | Success leaves exactly the given files, at their paths without `.` components, and happens only if every path names a file; otherwise the old data is complete in `data/` or the rescue directory; without faults safe, non-clashing paths are restored, and after a single fault a failed write is undone completely. |
| Restore.TargetIsThere | crates/pai-apps/src/lib.rs:917-937 | Followed component by component, an accepted path leads to the place its file is restored to, which lies below `data/`. |
| Restore.RollbackIsExact | crates/pai-apps/src/lib.rs:929-949 | A completed rollback leaves `data/` as it was if and only if there was live data or no stale rescue directory. |
| Restore.SnapshotThenRestore | crates/pai-apps/src/lib.rs:893-956 | A snapshot restored on any device gives back exactly its path-to-bytes map; without faults it succeeds, so it also passes the path check. |
| Restore.CollectedSafe | crates/pai-apps/src/lib.rs:893-924 | What was collected from a directory tree passes the path check of a restore and leads to the place it came from. |
| Smtp.DataBlock | connectors/email/src/smtp.rs:137-151 | The loop produces the specified block. |
| Smtp.DataIsTransparent | connectors/email/src/smtp.rs:137-151 | For every message a receiver gets exactly the lines of the normalised text, and the lone period is the block's last line. |
| Smtp.NormalIsStripped | connectors/email/src/smtp.rs:139 | Those lines are the message's own without the carriage return of each CRLF. |
| SmtpDialog.Dialog.ReadLine | connectors/email/src/smtp.rs:80-99 | The next line, and what remains, depend on the bytes sent and not on how they were cut into reads. |
| SmtpDialog.Dialog.ReadReply | connectors/email/src/smtp.rs:102-116 | So does the reply code. |
| SmtpDialog.PrintedReplyReads | connectors/email/src/smtp.rs:102-116 | A printed reply of any number of lines reads as its code and leaves what follows it. |
| SmtpDialog.FirstLineTells | connectors/email/src/smtp.rs:80-116 | For all bytes received, the reply is what the first deciding line makes of it: no text, fewer than four bytes, no number, a split character, or a number with a space behind it; the end of the stream exactly if no line decides. |
| SmtpDialog.PanicsExactly | connectors/email/src/smtp.rs:102-116 | Reading a reply panics if and only if some line of it is text whose fourth byte goes on with a character and no line before decides the reply. |
| Utf8.PrefixIsText | connectors/email/src/smtp.rs:108 | A prefix of text may be sliced off exactly where the next byte starts a character. |
| Chunker.Chunk | crates/pai-documents/src/lib.rs:311-325 | The loop against its specification. |
| Chunker.ParasAre | crates/pai-documents/src/lib.rs:313-314 | The paragraphs are the one way to split the text at blank lines from the left: none holds a blank line and each ends where the first one begins. |
| Chunker.ChunksConserve | crates/pai-documents/src/lib.rs:311-325 | The chunks in order are the text and a separator of two line feeds, minus only a tail of white space; without such a tail the last chunk holds more than white space. |
| Chunker.ChunksFit | crates/pai-documents/src/lib.rs:311-325 | Every chunk is at most size + 2 bytes or a single paragraph and its separator. |
| Chunker.ChunksAreFull | crates/pai-documents/src/lib.rs:311-325 | A chunk is closed only if the next paragraph would have made it too long. |

## Left out

- Sealing, signatures, base64 and the wire format of broker objects: objects are values, keys are structured, an object that cannot be opened is not part of this model; nor are requests whose payload does not decode.
- Sequence numbers of chunks are unbounded; the source's are 32 bits wide.
- A handler that keeps sending after it returned, and a full channel that blocks it, are bounded by the channel's capacity only.
- The guest endpoint of the broker, capability announcements and load sampling; scores are unbounded integers.
- Broker.PushFails: a failed push never takes effect; one that was stored and still reported an error is not modelled.
- Timeouts and polling intervals: a caller may give up at any step.
- The fast path of the agent loop, prompt and tool-list building, memory scopes, and the two errors that `run` returns before a run starts.
- The lenient reading of actions without a type is a parameter.
- JsonReader.ActionParses: the reader is one of compact texts, without white space between tokens or surrogate escapes, numbers stay literals, and it has no nesting limit; `serde_json` refuses text nested deeper than its recursion limit (128), so arguments nested that deep do not parse back in the source.
- Floating point: which pixels of the icon are inside is a parameter, and the capacity hint of the raw buffer is not modelled.
- The range of a PNG's width and height is not checked by the encoder, and not by the reader used here.
- Provisioning of storage after an installation, listing, uninstalling and deactivating apps; queries such as `is_dir` never fail; symbolic links and permissions.
- Upgrade.InstallTo: the order in which the files of a package are written is that of the list; the loader's sorting and its digest are not modelled. They come from a walk, so a `.` component does not occur in them.
- Restore.SnapshotData: the order of the list is not modelled; paths are component lists, so separators inside names, repeated or trailing ones, and names that are not UTF-8 do not occur.
- SseResults.StreamCloses: reads are a finite list; the model field is an opaque value, the parsed action of a response is left to the scanner's model.
- SmtpDialog.Dialog.ReadReply: the size of a read is not limited to 512 bytes, since no contract depends on it.
- SMTP authentication, TLS and the session commands; the extractors that call the chunker.
