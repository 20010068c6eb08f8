/** Broker RPC: devices exchange requests, numbered chunks and a final response
    as objects of a shared key/value transport. The protocol is a state machine;
    each action is one transport operation (list, pull, push, delete) or one local
    step of a client call or of a server process, so every interleaving is a run. */
module Broker {
  import opened Prelude

  type DeviceId = nat
  type RequestId = nat
  type Pid = nat

  // ----- wire objects ---------------------------------------------------------

  datatype Key =
    | Req(to: DeviceId, id: RequestId)
    | Fin(to: DeviceId, id: RequestId)
    | Chk(to: DeviceId, id: RequestId, seq_: nat)

  datatype Request = Request(id: RequestId, from: DeviceId, op: string, payload: Bytes, stream: bool, expires: nat)

  datatype Response = Response(requestId: RequestId, ok: bool, payload: Bytes, error: string)

  datatype Obj = ReqObj(req: Request) | ResObj(res: Response) | ChunkObj(seq_: nat, payload: Bytes)

  // ----- handler --------------------------------------------------------------

  datatype Outcome = Good(out: Bytes) | Bad(error: string)

  /** What one handler execution does: the chunks it sends, what it returns, and
      whether it drops its sender before returning. Chosen anew by every execution. */
  datatype Behaviour = Behaviour(sends: seq<Bytes>, outcome: Outcome, dropsEarly: bool)

  datatype Execution = Execution(pid: Pid, req: Request, at: nat, beh: Behaviour)

  /** The final responses an execution may push. */
  predicate Answers(e: Execution, res: Response) {
    && res.requestId == e.req.id
    && if e.req.stream then
         || (res.ok && res.payload == [] && res.error == "" && (e.beh.outcome.Good? || e.beh.dropsEarly))
         || (!res.ok && res.payload == [] && e.beh.outcome.Bad? && res.error == e.beh.outcome.error)
       else
         match e.beh.outcome
         case Good(out) => res.ok && res.payload == out && res.error == ""
         case Bad(err) => !res.ok && res.payload == [] && res.error == err
  }

  // ----- processes ------------------------------------------------------------

  /** Capacity of the channel between handler and server loop. */
  const CHANNEL: nat := 64

  datatype Job =
    | Idle
    | Pass(todo: seq<Key>)
    | Streaming(todo: seq<Key>, run: Execution, sent: nat, pushed: nat, returned: bool)
    | Closing(todo: seq<Key>, run: Execution, res: Response)
    | Cleaning(todo: seq<Key>, id: RequestId)

  datatype Server = Server(device: DeviceId, served: set<RequestId>, job: Job)

  datatype Phase =
    | Polling
    | Scan(todo: seq<Key>, del: Option<Key>)
    | Check
    | Got(res: Response)
    | Drain(res: Response, todo: seq<Key>, pending: seq<(nat, Bytes)>, del: Option<Key>)
    | Consume(res: Response)
    | Finished(result: Outcome)
    | GaveUp

  datatype Call = Call(req: Request, to: DeviceId, phase: Phase, delivered: seq<Bytes>)

  datatype State = State(net: map<Key, Obj>, calls: map<RequestId, Call>, servers: map<Pid, Server>,
                         execs: seq<Execution>, failures: seq<(Pid, RequestId)>)

  const INIT := State(map[], map[], map[], [], [])

  // ----- local computations of the client -------------------------------------

  /** Stable insertion sort, as `sort_by_key` on the chunk number. */
  function SortBySeq(p: seq<(nat, Bytes)>): (r: seq<(nat, Bytes)>)
    ensures Sorted(r) && multiset(r) == multiset(p)
  {
    if p == [] then []
    else
      assert p == p[..|p| - 1] + [p[|p| - 1]];
      Insert(SortBySeq(p[..|p| - 1]), p[|p| - 1])
  }

  function Insert(r: seq<(nat, Bytes)>, x: (nat, Bytes)): (q: seq<(nat, Bytes)>)
    requires Sorted(r)
    ensures Sorted(q) && multiset(q) == multiset(r) + multiset{x}
  {
    if r == [] || r[|r| - 1].0 <= x.0 then r + [x]
    else
      assert r == r[..|r| - 1] + [r[|r| - 1]];
      var q := Insert(r[..|r| - 1], x);
      StaysBelow(r[..|r| - 1], x, q, r[|r| - 1].0);
      q + [r[|r| - 1]]
  }

  lemma StaysBelow(r: seq<(nat, Bytes)>, x: (nat, Bytes), q: seq<(nat, Bytes)>, bound: nat)
    requires multiset(q) == multiset(r) + multiset{x} && x.0 <= bound
    requires forall k :: 0 <= k < |r| ==> r[k].0 <= bound
    ensures forall k :: 0 <= k < |q| ==> q[k].0 <= bound
  {
    forall k | 0 <= k < |q| ensures q[k].0 <= bound {
      assert q[k] in multiset(q);
      assert q[k] in r || q[k] == x;
    }
  }

  predicate Sorted(r: seq<(nat, Bytes)>) {
    forall a, b :: 0 <= a < b < |r| ==> r[a].0 <= r[b].0
  }

  /** Deliver, in listed order, the entries whose number is the next expected one. */
  function Deliver(delivered: seq<Bytes>, p: seq<(nat, Bytes)>): seq<Bytes>
    decreases |p|
  {
    if p == [] then delivered
    else Deliver(if p[0].0 == |delivered| then delivered + [p[0].1] else delivered, p[1..])
  }

  // ----- actions --------------------------------------------------------------

  datatype Action =
    | Issue(id: RequestId, from: DeviceId, to: DeviceId, op: string, payload: Bytes, stream: bool, expires: nat)
    | Spawn(pid: Pid, device: DeviceId)
    // client
    | Poll(id: RequestId)
    | List(id: RequestId, keys: seq<Key>)
    | Visit(id: RequestId)
    | Delete(id: RequestId, works: bool)
    | PullFinal(id: RequestId)
    | Settle(id: RequestId, works: bool)
    | GiveUp(id: RequestId)
    // server
    | ServeList(pid: Pid, keys: seq<Key>)
    | Fetch(pid: Pid, clock: nat, beh: Behaviour)
    | HandlerSend(pid: Pid)
    | HandlerReturn(pid: Pid)
    | PushChunk(pid: Pid)
    | EndStream(pid: Pid)
    | PushFinal(pid: Pid)
    | PushFails(pid: Pid)
    | Clean(pid: Pid, works: bool)
    | Abort(pid: Pid)

  /** A listing names exactly the present keys, each once, in any order. */
  predicate IsListing(keys: seq<Key>, net: map<Key, Obj>) {
    && (forall k :: k in keys ==> k in net)
    && (forall k :: k in net ==> k in keys)
    && (forall a, b :: 0 <= a < b < |keys| ==> keys[a] != keys[b])
  }

  predicate Live(s: State, id: RequestId) {
    id in s.calls && !s.calls[id].phase.Finished? && !s.calls[id].phase.GaveUp?
  }

  predicate CanVisit(s: State, id: RequestId) {
    && id in s.calls
    && (s.calls[id].phase.Scan? || s.calls[id].phase.Drain?)
    && s.calls[id].phase.del.None?
  }

  predicate CanDelete(s: State, id: RequestId) {
    && id in s.calls
    && (s.calls[id].phase.Scan? || s.calls[id].phase.Drain?)
    && s.calls[id].phase.del.Some?
  }

  predicate CanSettle(s: State, id: RequestId) { id in s.calls && s.calls[id].phase.Consume? }

  predicate CanPushChunk(s: State, pid: Pid) {
    pid in s.servers && s.servers[pid].job.Streaming? &&
    var j := s.servers[pid].job;
    j.pushed < j.sent <= |j.run.beh.sends|
  }

  predicate CanReturn(s: State, pid: Pid) {
    pid in s.servers && s.servers[pid].job.Streaming? &&
    var j := s.servers[pid].job;
    !j.returned && j.sent == |j.run.beh.sends|
  }

  predicate Enabled(s: State, a: Action) {
    match a
    case Issue(id, _, _, _, _, _, _) => id !in s.calls
    case Spawn(pid, _) => pid !in s.servers
    case Poll(id) => id in s.calls && s.calls[id].phase.Polling? && !s.calls[id].req.stream
    case List(id, keys) =>
      id in s.calls && s.calls[id].req.stream && IsListing(keys, s.net)
      && (s.calls[id].phase.Polling? || s.calls[id].phase.Got?)
    case Visit(id) => CanVisit(s, id)
    case Delete(id, _) => CanDelete(s, id)
    case PullFinal(id) => id in s.calls && s.calls[id].phase.Check?
    case Settle(id, _) => CanSettle(s, id)
    case GiveUp(id) => Live(s, id)
    case ServeList(pid, keys) => pid in s.servers && s.servers[pid].job.Idle? && IsListing(keys, s.net)
    case Fetch(pid, _, _) => pid in s.servers && s.servers[pid].job.Pass?
    case HandlerSend(pid) =>
      pid in s.servers && s.servers[pid].job.Streaming? &&
      var j := s.servers[pid].job;
      !j.returned && j.sent < |j.run.beh.sends| && j.sent < j.pushed + CHANNEL
    case HandlerReturn(pid) => CanReturn(s, pid)
    case PushChunk(pid) => CanPushChunk(s, pid)
    case EndStream(pid) =>
      pid in s.servers && s.servers[pid].job.Streaming? &&
      var j := s.servers[pid].job;
      j.pushed == j.sent && (j.returned || (j.run.beh.dropsEarly && j.sent == |j.run.beh.sends|))
    case PushFinal(pid) => pid in s.servers && s.servers[pid].job.Closing?
    case PushFails(pid) =>
      pid in s.servers && (s.servers[pid].job.Closing? ||
                           (s.servers[pid].job.Streaming? && s.servers[pid].job.pushed < s.servers[pid].job.sent))
    case Clean(pid, _) => pid in s.servers && s.servers[pid].job.Cleaning?
    case Abort(pid) => pid in s.servers && s.servers[pid].job.Pass?
  }

  function SetPhase(s: State, id: RequestId, p: Phase): State
    requires id in s.calls
  {
    s.(calls := s.calls[id := s.calls[id].(phase := p)])
  }

  function SetJob(s: State, pid: Pid, j: Job): State
    requires pid in s.servers
  {
    s.(servers := s.servers[pid := s.servers[pid].(job := j)])
  }

  function Apply(s: State, a: Action): State
    requires Enabled(s, a)
  {
    match a
    case Issue(id, from, to, op, payload, stream, expires) =>
      var r := Request(id, from, op, payload, stream, expires);
      s.(net := s.net[Req(to, id) := ReqObj(r)], calls := s.calls[id := Call(r, to, Polling, [])])
    case Spawn(pid, device) => s.(servers := s.servers[pid := Server(device, {}, Idle)])
    case Poll(id) => ApplyPullFinal(s, id)
    case List(id, keys) =>
      (match s.calls[id].phase
       case Got(res) => SetPhase(s, id, Drain(res, keys, [], None))
       case _ => SetPhase(s, id, Scan(keys, None)))
    case Visit(id) => ApplyVisit(s, id)
    case Delete(id, works) => ApplyDelete(s, id, works)
    case PullFinal(id) => ApplyPullFinal(s, id)
    case Settle(id, works) => ApplySettle(s, id, works)
    case GiveUp(id) => SetPhase(s, id, GaveUp)
    case ServeList(pid, keys) => SetJob(s, pid, Pass(keys))
    case Fetch(pid, clock, beh) => ApplyFetch(s, pid, clock, beh)
    case HandlerSend(pid) => var j := s.servers[pid].job; SetJob(s, pid, j.(sent := j.sent + 1))
    case HandlerReturn(pid) => ApplyHandlerReturn(s, pid)
    case PushChunk(pid) => ApplyPushChunk(s, pid)
    case EndStream(pid) =>
      var j := s.servers[pid].job;
      SetJob(s, pid, Closing(j.todo, j.run, Response(j.run.req.id, true, [], "")))
    case PushFinal(pid) => ApplyPushFinal(s, pid)
    case PushFails(pid) =>
      SetJob(s.(failures := s.failures + [(pid, s.servers[pid].job.run.req.id)]), pid, Idle)
    case Clean(pid, works) => ApplyClean(s, pid, works)
    case Abort(pid) => SetJob(s, pid, Idle)
  }

  /** One listed key of a scan or drain pass: pull it and take the chunk if it fits. */
  function ApplyVisit(s: State, id: RequestId): State
    requires CanVisit(s, id)
  {
    var c := s.calls[id];
    if c.phase.todo == [] then
      (match c.phase
       case Drain(res, _, pending, _) =>
         s.(calls := s.calls[id := c.(phase := Consume(res), delivered := Deliver(c.delivered, SortBySeq(pending)))])
       case _ => SetPhase(s, id, Check))
    else
      var k, rest := c.phase.todo[0], c.phase.todo[1..];
      if !(k.Chk? && k.to == c.req.from && k.id == id && k in s.net && s.net[k].ChunkObj?) then
        SkipKey(s, id, rest)
      else if c.phase.Drain? then
        var pending := c.phase.pending + [(s.net[k].seq_, s.net[k].payload)];
        SetPhase(s, id, c.phase.(todo := rest, pending := pending, del := Some(k)))
      else if s.net[k].seq_ != |c.delivered| then
        SkipKey(s, id, rest)
      else
        s.(calls := s.calls[id := c.(phase := Scan(rest, Some(k)), delivered := c.delivered + [s.net[k].payload])])
  }

  function SkipKey(s: State, id: RequestId, rest: seq<Key>): State
    requires id in s.calls && (s.calls[id].phase.Scan? || s.calls[id].phase.Drain?)
  {
    SetPhase(s, id, match s.calls[id].phase
                    case Scan(_, del) => Scan(rest, del)
                    case Drain(res, _, pending, del) => Drain(res, rest, pending, del)
                    case other => other)
  }

  function ApplyDelete(s: State, id: RequestId, works: bool): State
    requires CanDelete(s, id)
  {
    var c := s.calls[id];
    SetPhase(if works then s.(net := s.net - {c.phase.del.value}) else s, id, c.phase.(del := None))
  }

  function ApplyPullFinal(s: State, id: RequestId): State
    requires id in s.calls
  {
    var c := s.calls[id];
    var k := Fin(c.req.from, id);
    if k in s.net && s.net[k].ResObj? then
      SetPhase(s, id, if c.req.stream then Got(s.net[k].res) else Consume(s.net[k].res))
    else SetPhase(s, id, Polling)
  }

  /** Delete the final object (a failure is ignored) and return. */
  function ApplySettle(s: State, id: RequestId, works: bool): State
    requires CanSettle(s, id)
  {
    var c := s.calls[id];
    var res := c.phase.res;
    var t := if works then s.(net := s.net - {Fin(c.req.from, id)}) else s;
    SetPhase(t, id, Finished(if res.ok then Good(res.payload) else Bad(res.error)))
  }

  /** One listed key of a serve pass: skip it, expire it, or execute it. */
  function ApplyFetch(s: State, pid: Pid, clock: nat, beh: Behaviour): State
    requires pid in s.servers && s.servers[pid].job.Pass?
  {
    var v := s.servers[pid];
    if v.job.todo == [] then SetJob(s, pid, Idle)
    else
      var k, rest := v.job.todo[0], v.job.todo[1..];
      if !(k.Req? && k.to == v.device) || k.id in v.served || k !in s.net || !s.net[k].ReqObj? then
        SetJob(s, pid, Pass(rest))
      else
        var r := s.net[k].req;
        if r.expires > 0 && clock > r.expires then SetJob(s, pid, Cleaning(rest, k.id))
        else
          Start(s, rest, Execution(pid, r, clock, beh))
  }

  /** Execute a request: a plain one has its answer at once, a streamed one runs on. */
  function Start(s: State, rest: seq<Key>, e: Execution): State
    requires e.pid in s.servers
  {
    SetJob(s.(execs := s.execs + [e]), e.pid,
           if e.req.stream then Streaming(rest, e, 0, 0, false)
           else Closing(rest, e, match e.beh.outcome
                                 case Good(out) => Response(e.req.id, true, out, "")
                                 case Bad(err) => Response(e.req.id, false, [], err)))
  }

  /** The handler's future completes: an error closes the stream at once, dropping
      what is still in the channel. */
  function ApplyHandlerReturn(s: State, pid: Pid): State
    requires CanReturn(s, pid)
  {
    var j := s.servers[pid].job;
    match j.run.beh.outcome
    case Good(_) => SetJob(s, pid, j.(returned := true))
    case Bad(err) => SetJob(s, pid, Closing(j.todo, j.run, Response(j.run.req.id, false, [], err)))
  }

  function ApplyPushChunk(s: State, pid: Pid): State
    requires CanPushChunk(s, pid)
  {
    var j := s.servers[pid].job;
    var k := Chk(j.run.req.from, j.run.req.id, j.pushed);
    SetJob(s.(net := s.net[k := ChunkObj(j.pushed, j.run.beh.sends[j.pushed])]), pid, j.(pushed := j.pushed + 1))
  }

  function ApplyPushFinal(s: State, pid: Pid): State
    requires pid in s.servers && s.servers[pid].job.Closing?
  {
    var j := s.servers[pid].job;
    SetJob(s.(net := s.net[Fin(j.run.req.from, j.run.req.id) := ResObj(j.res)]), pid, Cleaning(j.todo, j.run.req.id))
  }

  function ApplyClean(s: State, pid: Pid, works: bool): State
    requires pid in s.servers && s.servers[pid].job.Cleaning?
  {
    var v := s.servers[pid];
    var t := if works then s.(net := s.net - {Req(v.device, v.job.id)}) else s;
    t.(servers := t.servers[pid := v.(served := v.served + {v.job.id}, job := Pass(v.job.todo))])
  }

  /** The state after performing `actions` from `s`, or None when one is not enabled. */
  function Run(s: State, actions: seq<Action>): Option<State>
    decreases |actions|
  {
    if actions == [] then Some(s)
    else if !Enabled(s, actions[0]) then None
    else Run(Apply(s, actions[0]), actions[1..])
  }

  ghost predicate Reachable(s: State) {
    exists actions :: Run(INIT, actions) == Some(s)
  }
}
