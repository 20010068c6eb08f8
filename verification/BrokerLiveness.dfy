/** Calls can come to their end: from every reachable state with a waiting call and an idle
    process at its target there is a run that ends the call with the handler's answer. */
module BrokerLiveness {
  import opened Prelude
  import opened Broker
  import opened BrokerSafety
  import opened BrokerResults
  import opened BrokerProgress

  /** Some run leads from `s` to `t`. */
  ghost predicate Leads(s: State, t: State) { exists actions :: Run(s, actions) == Some(t) }

  lemma {:induction false} LeadsSelf(s: State)
    ensures Leads(s, s)
  {
    assert Run(s, []) == Some(s);
  }

  lemma {:induction false} LeadsStep(s: State, a: Action)
    requires Enabled(s, a)
    ensures Leads(s, Apply(s, a))
  {
    assert [a][1..] == [];
    assert Run(s, [a]) == Some(Apply(s, a));
  }

  lemma {:induction false} RunConcat(s: State, a: seq<Action>, b: seq<Action>)
    requires Run(s, a).Some?
    ensures Run(s, a + b) == Run(Run(s, a).value, b)
    decreases |a|
  {
    if a == [] {
      assert a + b == b;
    } else {
      assert (a + b)[1..] == a[1..] + b;
      RunConcat(Apply(s, a[0]), a[1..], b);
    }
  }

  lemma {:induction false} LeadsOn(s: State, t: State, u: State)
    requires Leads(s, t) && Leads(t, u)
    ensures Leads(s, u)
  {
    var a :| Run(s, a) == Some(t);
    var b :| Run(t, b) == Some(u);
    RunConcat(s, a, b);
    assert Run(s, a + b) == Some(u);
  }

  lemma {:induction false} LeadsFurther(s: State, t: State, a: Action)
    requires Leads(s, t) && Enabled(t, a)
    ensures Leads(s, Apply(t, a))
  {
    LeadsStep(t, a);
    LeadsOn(s, t, Apply(t, a));
  }

  lemma {:induction false} StaysReachable(s: State, t: State)
    requires Reachable(s) && Leads(s, t)
    ensures Reachable(t)
  {
    assert Leads(INIT, s);
    LeadsOn(INIT, s, t);
  }

  // ----- listings -------------------------------------------------------------------

  lemma {:induction false} Enumerated<T>(ks: set<T>) returns (keys: seq<T>)
    ensures forall k :: k in keys <==> k in ks
    ensures forall a, b :: 0 <= a < b < |keys| ==> keys[a] != keys[b]
  {
    keys := [];
    if ks != {} {
      var k :| k in ks;
      var rest := Enumerated(ks - {k});
      keys := [k] + rest;
    }
  }

  /** The transport may list its keys with any one of them first. */
  lemma {:induction false} ListedFirst(net: map<Key, Obj>, k: Key) returns (rest: seq<Key>)
    requires k in net
    ensures IsListing([k] + rest, net)
  {
    rest := Enumerated(net.Keys - {k});
  }

  lemma {:induction false} Listed(net: map<Key, Obj>) returns (keys: seq<Key>)
    ensures IsListing(keys, net)
  {
    keys := Enumerated(net.Keys);
  }

  // ----- one process serves one request -------------------------------------------------

  /** `s` but for the transport, the executions, and the job of `pid`. */
  function With(s: State, pid: Pid, net: map<Key, Obj>, execs: seq<Execution>, job: Job): State
    requires pid in s.servers
  {
    s.(net := net, execs := execs, servers := s.servers[pid := s.servers[pid].(job := job)])
  }

  lemma {:induction false} WithJob(s: State, pid: Pid, net: map<Key, Obj>, execs: seq<Execution>, job: Job, next: Job)
    requires pid in s.servers
    ensures SetJob(With(s, pid, net, execs, job), pid, next) == With(s, pid, net, execs, next)
  {
    assert s.servers[pid := s.servers[pid].(job := job)][pid := s.servers[pid].(job := next)]
        == s.servers[pid := s.servers[pid].(job := next)];
  }

  lemma {:induction false} WithItself(s: State, pid: Pid)
    requires pid in s.servers
    ensures With(s, pid, s.net, s.execs, s.servers[pid].job) == s
  {
    assert s.servers[pid := s.servers[pid].(job := s.servers[pid].job)] == s.servers;
  }

  /** The chunk objects of the first `n` chunks of `e`. */
  function WithChunks(net: map<Key, Obj>, e: Execution, n: nat): map<Key, Obj>
    requires n <= |e.beh.sends|
  {
    if n == 0 then net
    else WithChunks(net, e, n - 1)[Chk(e.req.from, e.req.id, n - 1) := ChunkObj(n - 1, e.beh.sends[n - 1])]
  }

  /** One chunk goes through the channel and into the transport. */
  lemma {:induction false} ChunkPushed(s: State, pid: Pid, net: map<Key, Obj>, execs: seq<Execution>, rest: seq<Key>,
                                       e: Execution, q: nat)
    requires pid in s.servers && q < |e.beh.sends|
    ensures var next := net[Chk(e.req.from, e.req.id, q) := ChunkObj(q, e.beh.sends[q])];
      Leads(With(s, pid, net, execs, Streaming(rest, e, q, q, false)),
            With(s, pid, next, execs, Streaming(rest, e, q + 1, q + 1, false)))
  {
    var next := net[Chk(e.req.from, e.req.id, q) := ChunkObj(q, e.beh.sends[q])];
    var a := With(s, pid, net, execs, Streaming(rest, e, q, q, false));
    var b := With(s, pid, net, execs, Streaming(rest, e, q + 1, q, false));
    WithJob(s, pid, net, execs, Streaming(rest, e, q, q, false), Streaming(rest, e, q + 1, q, false));
    assert Enabled(a, HandlerSend(pid)) && Apply(a, HandlerSend(pid)) == b;
    LeadsStep(a, HandlerSend(pid));
    WithJob(s, pid, next, execs, Streaming(rest, e, q + 1, q, false), Streaming(rest, e, q + 1, q + 1, false));
    assert Enabled(b, PushChunk(pid));
    assert Apply(b, PushChunk(pid)) == With(s, pid, next, execs, Streaming(rest, e, q + 1, q + 1, false));
    LeadsFurther(a, b, PushChunk(pid));
  }

  lemma {:induction false} AllPushed(s: State, pid: Pid, net: map<Key, Obj>, execs: seq<Execution>, rest: seq<Key>,
                                     e: Execution, n: nat)
    requires pid in s.servers && n <= |e.beh.sends|
    ensures Leads(With(s, pid, net, execs, Streaming(rest, e, 0, 0, false)),
                  With(s, pid, WithChunks(net, e, n), execs, Streaming(rest, e, n, n, false)))
  {
    var a := With(s, pid, net, execs, Streaming(rest, e, 0, 0, false));
    if n == 0 {
      LeadsSelf(a);
    } else {
      var b := With(s, pid, WithChunks(net, e, n - 1), execs, Streaming(rest, e, n - 1, n - 1, false));
      AllPushed(s, pid, net, execs, rest, e, n - 1);
      ChunkPushed(s, pid, WithChunks(net, e, n - 1), execs, rest, e, n - 1);
      LeadsOn(a, b, With(s, pid, WithChunks(net, e, n), execs, Streaming(rest, e, n, n, false)));
    }
  }

  /** What the caller is told: a stream that succeeds returns nothing but its chunks. */
  function Told(e: Execution): Outcome { if e.req.stream && e.beh.outcome.Good? then Good([]) else e.beh.outcome }

  /** The handler returns, and the response is due. */
  lemma {:induction false} StreamReturns(s: State, pid: Pid, net: map<Key, Obj>, execs: seq<Execution>, rest: seq<Key>,
                                         e: Execution)
    requires pid in s.servers && e.req.stream
    ensures var n := |e.beh.sends|;
      Leads(With(s, pid, net, execs, Streaming(rest, e, n, n, false)),
            With(s, pid, net, execs, Closing(rest, e, ResponseFor(e.req.id, Told(e)))))
  {
    var n := |e.beh.sends|;
    var job, closing := Streaming(rest, e, n, n, false), Closing(rest, e, ResponseFor(e.req.id, Told(e)));
    var a := With(s, pid, net, execs, job);
    if e.beh.outcome.Good? {
      var b := With(s, pid, net, execs, job.(returned := true));
      WithJob(s, pid, net, execs, job, job.(returned := true));
      assert Apply(a, HandlerReturn(pid)) == b;
      LeadsStep(a, HandlerReturn(pid));
      WithJob(s, pid, net, execs, job.(returned := true), closing);
      assert Apply(b, EndStream(pid)) == With(s, pid, net, execs, closing);
      LeadsFurther(a, b, EndStream(pid));
    } else {
      WithJob(s, pid, net, execs, job, closing);
      assert Apply(a, HandlerReturn(pid)) == With(s, pid, net, execs, closing);
      LeadsStep(a, HandlerReturn(pid));
    }
  }

  /** The process lists the transport, the request first, and executes it. */
  lemma {:induction false} Executes(s: State, pid: Pid, k: Key, rest: seq<Key>, e: Execution)
    requires Reachable(s) && pid in s.servers && s.servers[pid].job.Idle? && IsListing([k] + rest, s.net)
    requires Wanted(s, pid, k) && s.net[k] == ReqObj(e.req) && !Expired(e.req, e.at) && e.pid == pid
    ensures Leads(s, With(s, pid, s.net, s.execs + [e],
      if e.req.stream then Streaming(rest, e, 0, 0, false) else Closing(rest, e, ResponseFor(k.id, e.beh.outcome))))
    ensures k.id == e.req.id && k.id in s.calls && e.req == s.calls[k.id].req
  {
    var b := With(s, pid, s.net, s.execs, Pass([k] + rest));
    assert Apply(s, ServeList(pid, [k] + rest)) == b;
    LeadsStep(s, ServeList(pid, [k] + rest));
    StaysReachable(s, b);
    FetchDecides(b, pid, e.at, e.beh, k, rest);
    ReachableInv(s);
    assert CallOk(s, k.id, s.calls[k.id]);
    var next := if e.req.stream then Streaming(rest, e, 0, 0, false)
                else Closing(rest, e, ResponseFor(k.id, e.beh.outcome));
    WithJob(s, pid, s.net, s.execs, Pass([k] + rest), next);
    assert Apply(b, Fetch(pid, e.at, e.beh)) == With(s, pid, s.net, s.execs + [e], next);
    LeadsFurther(s, b, Fetch(pid, e.at, e.beh));
  }

  function Sends(e: Execution): nat { if e.req.stream then |e.beh.sends| else 0 }

  /** What the execution leaves in the transport: its chunks, its response, and no request. */
  function AnsweredNet(net: map<Key, Obj>, e: Execution, device: DeviceId): map<Key, Obj> {
    WithChunks(net, e, Sends(e))[Fin(e.req.from, e.req.id) := ResObj(ResponseFor(e.req.id, Told(e)))]
      - {Req(device, e.req.id)}
  }

  /** ... and of the process: it has served the request and goes on with its pass. */
  function Served(s: State, pid: Pid, rest: seq<Key>, e: Execution): State
    requires pid in s.servers
  {
    var v := s.servers[pid];
    s.(net := AnsweredNet(s.net, e, v.device), execs := s.execs + [e],
       servers := s.servers[pid := v.(served := v.served + {e.req.id}, job := Pass(rest))])
  }

  lemma {:induction false} Answering(s: State, pid: Pid, k: Key, rest: seq<Key>, e: Execution)
    requires Reachable(s) && pid in s.servers && s.servers[pid].job.Idle? && IsListing([k] + rest, s.net)
    requires Wanted(s, pid, k) && s.net[k] == ReqObj(e.req) && !Expired(e.req, e.at) && e.pid == pid
    ensures Leads(s, With(s, pid, WithChunks(s.net, e, Sends(e)), s.execs + [e],
                          Closing(rest, e, ResponseFor(e.req.id, Told(e)))))
  {
    var execs := s.execs + [e];
    Executes(s, pid, k, rest, e);
    if e.req.stream {
      var n := |e.beh.sends|;
      var a := With(s, pid, s.net, execs, Streaming(rest, e, 0, 0, false));
      var b := With(s, pid, WithChunks(s.net, e, n), execs, Streaming(rest, e, n, n, false));
      AllPushed(s, pid, s.net, execs, rest, e, n);
      LeadsOn(s, a, b);
      StreamReturns(s, pid, WithChunks(s.net, e, n), execs, rest, e);
      LeadsOn(s, b, With(s, pid, WithChunks(s.net, e, n), execs, Closing(rest, e, ResponseFor(e.req.id, Told(e)))));
    }
  }

  lemma {:induction false} PushesFinal(s: State, pid: Pid, net: map<Key, Obj>, execs: seq<Execution>, rest: seq<Key>,
                                       e: Execution, res: Response)
    requires pid in s.servers
    ensures var v := s.servers[pid];
      var after := net[Fin(e.req.from, e.req.id) := ResObj(res)] - {Req(v.device, e.req.id)};
      Leads(With(s, pid, net, execs, Closing(rest, e, res)),
            s.(net := after, execs := execs,
               servers := s.servers[pid := v.(served := v.served + {e.req.id}, job := Pass(rest))]))
  {
    var v := s.servers[pid];
    var pushed := net[Fin(e.req.from, e.req.id) := ResObj(res)];
    var a := With(s, pid, net, execs, Closing(rest, e, res));
    var b := With(s, pid, pushed, execs, Cleaning(rest, e.req.id));
    WithJob(s, pid, pushed, execs, Closing(rest, e, res), Cleaning(rest, e.req.id));
    assert Apply(a, PushFinal(pid)) == b;
    LeadsStep(a, PushFinal(pid));
    var w := v.(served := v.served + {e.req.id}, job := Pass(rest));
    assert s.servers[pid := v.(job := Cleaning(rest, e.req.id))][pid := w] == s.servers[pid := w];
    LeadsFurther(a, b, Clean(pid, true));
  }

  /** An idle process can serve a request that is wanted there. */
  lemma {:induction false} Serves(s: State, pid: Pid, k: Key, e: Execution) returns (rest: seq<Key>)
    requires Reachable(s) && pid in s.servers && s.servers[pid].job.Idle?
    requires Wanted(s, pid, k) && s.net[k] == ReqObj(e.req) && !Expired(e.req, e.at) && e.pid == pid
    ensures Leads(s, Served(s, pid, rest, e))
  {
    rest := ListedFirst(s.net, k);
    var res := ResponseFor(e.req.id, Told(e));
    var net := WithChunks(s.net, e, Sends(e));
    Answering(s, pid, k, rest, e);
    PushesFinal(s, pid, net, s.execs + [e], rest, e, res);
    LeadsOn(s, With(s, pid, net, s.execs + [e], Closing(rest, e, res)), Served(s, pid, rest, e));
  }

  lemma {:induction false} ChunksOnly(net: map<Key, Obj>, e: Execution, n: nat, k: Key)
    requires n <= |e.beh.sends| && !(k.Chk? && k.to == e.req.from && k.id == e.req.id)
    ensures (k in WithChunks(net, e, n) <==> k in net) && (k in net ==> WithChunks(net, e, n)[k] == net[k])
  {
    if n > 0 { ChunksOnly(net, e, n - 1, k); }
  }

  // ----- the caller's side ------------------------------------------------------------------

  /** A chunk object for the call. */
  predicate OwnChunk(c: Call, k: Key) { k.Chk? && k.to == c.req.from && k.id == c.req.id }

  /** From `s` to `t` only the call `id` moved on, and took chunks of its own. */
  ghost predicate OnlyReads(s: State, t: State, id: RequestId) {
    && id in s.calls && id in t.calls && t.servers == s.servers && t.execs == s.execs && t.failures == s.failures
    && t.calls == s.calls[id := t.calls[id]]
    && t.calls[id].req == s.calls[id].req && t.calls[id].to == s.calls[id].to
    && (forall k :: k in t.net ==> k in s.net && t.net[k] == s.net[k])
    && (forall k :: k in s.net && !OwnChunk(s.calls[id], k) ==> k in t.net)
  }

  lemma {:induction false} OnlyReadsOn(s: State, t: State, u: State, id: RequestId)
    requires OnlyReads(s, t, id) && OnlyReads(t, u, id)
    ensures OnlyReads(s, u, id)
  {
    assert s.calls[id := t.calls[id]][id := u.calls[id]] == s.calls[id := u.calls[id]];
  }

  lemma {:induction false} VisitReads(s: State, id: RequestId)
    requires CanVisit(s, id)
    ensures OnlyReads(s, Apply(s, Visit(id)), id) && Apply(s, Visit(id)).net == s.net
  {
  }

  lemma {:induction false} DeleteReads(s: State, id: RequestId)
    requires Inv(s) && CanDelete(s, id)
    ensures OnlyReads(s, Apply(s, Delete(id, true)), id)
    ensures Apply(s, Delete(id, true)).net == s.net - {s.calls[id].phase.del.value}
  {
    assert CallOk(s, id, s.calls[id]);
  }

  function Len(todo: seq<Key>, del: Option<Key>): nat { 2 * |todo| + if del.Some? then 1 else 0 }

  /** A step of a scan: the listing or what is to be deleted gets shorter. */
  lemma {:induction false} ScanStep(s: State, id: RequestId) returns (a: Action)
    requires Inv(s) && id in s.calls && s.calls[id].phase.Scan?
    ensures Enabled(s, a) && OnlyReads(s, Apply(s, a), id)
    ensures var (p, q) := (s.calls[id].phase, Apply(s, a).calls[id].phase);
            q.Check? || (q.Scan? && Len(q.todo, q.del) < Len(p.todo, p.del))
  {
    if s.calls[id].phase.del.Some? {
      a := Delete(id, true);
      DeleteReads(s, id);
    } else {
      a := Visit(id);
      VisitReads(s, id);
    }
  }

  /** A scan can be finished. */
  lemma {:induction false} ScanEnds(s: State, id: RequestId) returns (t: State)
    requires Inv(s) && id in s.calls && s.calls[id].phase.Scan?
    ensures Leads(s, t) && Inv(t) && OnlyReads(s, t, id) && t.calls[id].phase.Check?
    decreases Len(s.calls[id].phase.todo, s.calls[id].phase.del)
  {
    var a := ScanStep(s, id);
    var u := Apply(s, a);
    LeadsStep(s, a);
    KeepsInv(s, a);
    if u.calls[id].phase.Check? {
      t := u;
    } else {
      t := ScanEnds(u, id);
      LeadsOn(s, u, t);
      OnlyReadsOn(s, u, t, id);
    }
  }

  /** Whether the drain still has to come to `k`. */
  predicate Ahead(p: Phase, k: Key) { p.Drain? && (k in p.todo || p.del == Some(k)) }

  lemma {:induction false} DrainDelete(s: State, id: RequestId)
    requires Inv(s) && id in s.calls && s.calls[id].phase.Drain? && s.calls[id].phase.del.Some?
    ensures var (a, p) := (Delete(id, true), s.calls[id].phase);
      && Enabled(s, a) && OnlyReads(s, Apply(s, a), id)
      && Apply(s, a).calls[id].phase == p.(del := None) && p.del.value !in Apply(s, a).net
  {
    DeleteReads(s, id);
  }

  lemma {:induction false} DrainVisit(s: State, id: RequestId)
    requires Inv(s) && id in s.calls && s.calls[id].phase.Drain? && s.calls[id].phase.del.None?
    ensures var (a, p) := (Visit(id), s.calls[id].phase); var q := Apply(s, a).calls[id].phase;
      && Enabled(s, a) && OnlyReads(s, Apply(s, a), id)
      && (p.todo == [] ==> q == Consume(p.res))
      && (p.todo != [] ==>
            q.Drain? && q.res == p.res && q.todo == p.todo[1..] &&
            (OwnChunk(s.calls[id], p.todo[0]) && p.todo[0] in s.net ==> q.del == Some(p.todo[0])))
  {
    VisitReads(s, id);
    var p := s.calls[id].phase;
    if p.todo != [] && p.todo[0] in s.net { assert EntryOk(s, p.todo[0], s.net[p.todo[0]]); }
  }

  /** What a step of the drain leaves ahead. */
  lemma {:induction false} StillAhead(s: State, id: RequestId, a: Action, k: Key)
    requires Inv(s) && id in s.calls && s.calls[id].phase.Drain? && OwnChunk(s.calls[id], k)
    requires a == if s.calls[id].phase.del.Some? then Delete(id, true) else Visit(id)
    requires Enabled(s, a) && Ahead(s.calls[id].phase, k) && k in Apply(s, a).net
    ensures id in Apply(s, a).calls && Ahead(Apply(s, a).calls[id].phase, k)
  {
    if s.calls[id].phase.del.Some? {
      DrainDelete(s, id);
    } else {
      VisitReads(s, id);
      VisitedAhead(s, id, k);
    }
  }

  lemma {:induction false} VisitedAhead(s: State, id: RequestId, k: Key)
    requires Inv(s) && id in s.calls && s.calls[id].phase.Drain? && s.calls[id].phase.del.None?
    requires OwnChunk(s.calls[id], k) && k in s.calls[id].phase.todo && k in s.net
    ensures Ahead(Apply(s, Visit(id)).calls[id].phase, k)
  {
    var todo := s.calls[id].phase.todo;
    DrainVisit(s, id);
    assert todo == [todo[0]] + todo[1..];
  }

  lemma {:induction false} DrainStep(s: State, id: RequestId) returns (a: Action)
    requires Inv(s) && id in s.calls && s.calls[id].phase.Drain?
    ensures Enabled(s, a) && OnlyReads(s, Apply(s, a), id)
    ensures var (p, q) := (s.calls[id].phase, Apply(s, a).calls[id].phase);
            (q == Consume(p.res)) || (q.Drain? && q.res == p.res && Len(q.todo, q.del) < Len(p.todo, p.del))
    ensures a == if s.calls[id].phase.del.Some? then Delete(id, true) else Visit(id)
  {
    if s.calls[id].phase.del.Some? {
      a := Delete(id, true);
      DrainDelete(s, id);
    } else {
      a := Visit(id);
      DrainVisit(s, id);
    }
  }

  /** A drain can be finished, and takes every chunk it has listed. */
  lemma {:induction false} DrainTakes(s: State, id: RequestId) returns (t: State)
    requires Inv(s) && id in s.calls && s.calls[id].phase.Drain?
    ensures Leads(s, t) && Inv(t) && OnlyReads(s, t, id) && t.calls[id].phase == Consume(s.calls[id].phase.res)
    ensures forall k :: OwnChunk(s.calls[id], k) && Ahead(s.calls[id].phase, k) ==> k !in t.net
    decreases Len(s.calls[id].phase.todo, s.calls[id].phase.del)
  {
    var a := DrainStep(s, id);
    var u := Apply(s, a);
    LeadsStep(s, a);
    KeepsInv(s, a);
    forall k | OwnChunk(s.calls[id], k) && Ahead(s.calls[id].phase, k) && k in u.net
      ensures Ahead(u.calls[id].phase, k)
    {
      StillAhead(s, id, a, k);
    }
    if u.calls[id].phase.Consume? {
      t := u;
    } else {
      t := DrainTakes(u, id);
      LeadsOn(s, u, t);
      OnlyReadsOn(s, u, t, id);
    }
  }

  // ----- the end of a call --------------------------------------------------------------------

  function ResultOf(res: Response): Outcome { if res.ok then Good(res.payload) else Bad(res.error) }

  /** From `s` to `t` the call `id` ended with `res`, and took its objects with it. */
  ghost predicate Ends(s: State, t: State, id: RequestId, res: Response) {
    && id in s.calls && id in t.calls && t.servers == s.servers && t.execs == s.execs && t.failures == s.failures
    && t.calls == s.calls[id := t.calls[id]]
    && t.calls[id].req == s.calls[id].req && t.calls[id].to == s.calls[id].to
    && t.calls[id].phase == Finished(ResultOf(res))
    && (forall k :: k in t.net ==> k in s.net && t.net[k] == s.net[k])
    && (forall k :: k in s.net && !OwnChunk(s.calls[id], k) && k != Fin(s.calls[id].req.from, id) ==> k in t.net)
    && Fin(s.calls[id].req.from, id) !in t.net
    && (s.calls[id].req.stream ==> forall k :: OwnChunk(s.calls[id], k) ==> k !in t.net)
  }

  lemma {:induction false} EndsOn(s: State, u: State, t: State, id: RequestId, res: Response)
    requires OnlyReads(s, u, id) && Ends(u, t, id, res)
    ensures Ends(s, t, id, res)
  {
    assert s.calls[id := u.calls[id]][id := t.calls[id]] == s.calls[id := t.calls[id]];
  }

  /** A call that has its answer, and no chunk left to take, returns. */
  lemma {:induction false} Settles(s: State, id: RequestId, res: Response) returns (t: State)
    requires Inv(s) && id in s.calls && s.calls[id].phase == Consume(res)
    requires s.calls[id].req.stream ==> forall k :: OwnChunk(s.calls[id], k) ==> k !in s.net
    ensures Leads(s, t) && Inv(t) && Ends(s, t, id, res)
  {
    t := Apply(s, Settle(id, true));
    LeadsStep(s, Settle(id, true));
    KeepsInv(s, Settle(id, true));
  }

  /** The final object was pulled: the rest is listed, taken and handed over. */
  lemma {:induction false} AnswerTaken(s: State, id: RequestId, res: Response) returns (t: State)
    requires Inv(s) && id in s.calls && s.calls[id].req.stream && s.calls[id].phase == Got(res)
    ensures Leads(s, t) && Inv(t) && Ends(s, t, id, res)
  {
    var keys := Listed(s.net);
    var u := Apply(s, List(id, keys));
    LeadsStep(s, List(id, keys));
    KeepsInv(s, List(id, keys));
    assert OnlyReads(s, u, id) && u.net == s.net;
    var v := DrainTakes(u, id);
    LeadsOn(s, u, v);
    OnlyReadsOn(s, u, v, id);
    forall k | OwnChunk(v.calls[id], k) ensures k !in v.net {
      assert Ahead(u.calls[id].phase, k) || k !in u.net;
    }
    t := Settles(v, id, res);
    LeadsOn(s, v, t);
    EndsOn(s, v, t, id, res);
  }

  /** The final object `res` is there. */
  predicate HasFinal(s: State, id: RequestId, res: Response)
    requires id in s.calls
  {
    Fin(s.calls[id].req.from, id) in s.net && s.net[Fin(s.calls[id].req.from, id)] == ResObj(res)
  }

  lemma {:induction false} PullsFinal(s: State, id: RequestId, a: Action, res: Response) returns (t: State)
    requires Inv(s) && id in s.calls && HasFinal(s, id, res) && Enabled(s, a) && (a == Poll(id) || a == PullFinal(id))
    ensures Leads(s, t) && Inv(t) && Ends(s, t, id, res)
  {
    var u := Apply(s, a);
    LeadsStep(s, a);
    KeepsInv(s, a);
    assert OnlyReads(s, u, id);
    if s.calls[id].req.stream { t := AnswerTaken(u, id, res); } else { t := Settles(u, id, res); }
    LeadsOn(s, u, t);
    EndsOn(s, u, t, id, res);
  }

  /** The call holds no answer yet. */
  predicate Waiting(p: Phase) { p.Polling? || p.Scan? || p.Check? }

  lemma {:induction false} ScannedEnds(s: State, id: RequestId, res: Response) returns (t: State)
    requires Inv(s) && id in s.calls && s.calls[id].phase.Scan? && HasFinal(s, id, res)
    ensures Leads(s, t) && Inv(t) && Ends(s, t, id, res)
  {
    var u := ScanEnds(s, id);
    t := PullsFinal(u, id, PullFinal(id), res);
    LeadsOn(s, u, t);
    EndsOn(s, u, t, id, res);
  }

  /** A waiting call whose answer is there can end with it. */
  lemma {:induction false} WaitingEnds(s: State, id: RequestId, res: Response) returns (t: State)
    requires Inv(s) && id in s.calls && Waiting(s.calls[id].phase) && HasFinal(s, id, res)
    ensures Leads(s, t) && Inv(t) && Ends(s, t, id, res)
  {
    match s.calls[id].phase
    case Check => t := PullsFinal(s, id, PullFinal(id), res);
    case Scan(_, _) => t := ScannedEnds(s, id, res);
    case Polling =>
      if s.calls[id].req.stream {
        var keys := Listed(s.net);
        var u := Apply(s, List(id, keys));
        LeadsStep(s, List(id, keys));
        KeepsInv(s, List(id, keys));
        assert OnlyReads(s, u, id) && u.net == s.net;
        t := ScannedEnds(u, id, res);
        LeadsOn(s, u, t);
        EndsOn(s, u, t, id, res);
      } else {
        t := PullsFinal(s, id, Poll(id), res);
      }
  }

  /** A call that already holds an answer can end with that one. */
  lemma {:induction false} HeldAnswerEnds(s: State, id: RequestId, res: Response) returns (t: State)
    requires Reachable(s) && id in s.calls
    requires var p := s.calls[id].phase; (p.Got? || p.Drain? || p.Consume?) && p.res == res
    ensures Leads(s, t) && id in t.calls && t.calls[id].phase == Finished(ResultOf(res))
  {
    ReachableInv(s);
    assert CallOk(s, id, s.calls[id]);
    match s.calls[id].phase
    case Got(_) => t := AnswerTaken(s, id, res);
    case Consume(_) => t := Apply(s, Settle(id, true)); LeadsStep(s, Settle(id, true));
    case Drain(_, _, _, _) =>
      var u := DrainTakes(s, id);
      t := Apply(u, Settle(id, true));
      LeadsFurther(s, u, Settle(id, true));
  }

  // ----- every call can be answered ---------------------------------------------------------------

  /** What is left alone: everything about other requests. */
  ghost predicate OthersAlone(s: State, t: State, id: RequestId) {
    forall k: Key :: k.id != id ==> (k in t.net <==> k in s.net) && (k in s.net ==> t.net[k] == s.net[k])
  }

  lemma {:induction false} AnsweredNetIs(net: map<Key, Obj>, e: Execution, device: DeviceId, k: Key)
    ensures var after := AnsweredNet(net, e, device); var id := e.req.id;
      && (k.id != id ==> (k in after <==> k in net) && (k in net ==> after[k] == net[k]))
      && Req(device, id) !in after
      && Fin(e.req.from, id) in after && after[Fin(e.req.from, id)] == ResObj(ResponseFor(id, Told(e)))
      && (!e.req.stream && k in after ==> k == Fin(e.req.from, id) || k in net)
  {
    if !(k.Chk? && k.to == e.req.from && k.id == e.req.id) { ChunksOnly(net, e, Sends(e), k); }
  }

  /** The request was executed, and the call got its answer. */
  lemma {:induction false} CallAnswered(s: State, id: RequestId, e: Execution) returns (m: State, t: State)
    requires Reachable(s) && id in s.calls && Waiting(s.calls[id].phase) && e.req == s.calls[id].req
    requires Wanted(s, e.pid, Req(s.calls[id].to, id)) && s.servers[e.pid].job.Idle? && !Expired(e.req, e.at)
    ensures Leads(s, t) && e.req.id == id && Ends(m, t, id, ResponseFor(id, Told(e)))
    ensures m.net == AnsweredNet(s.net, e, s.calls[id].to) && m.execs == s.execs + [e] && m.calls == s.calls
  {
    var k := Req(s.calls[id].to, id);
    ReachableInv(s);
    assert EntryOk(s, k, s.net[k]) && CallOk(s, id, s.calls[id]);
    var rest := Serves(s, e.pid, k, e);
    m := Served(s, e.pid, rest, e);
    StaysReachable(s, m);
    ReachableInv(m);
    AnsweredNetIs(s.net, e, s.servers[e.pid].device, k);
    t := WaitingEnds(m, id, ResponseFor(id, Told(e)));
    LeadsOn(s, m, t);
  }

  /** What answering leaves in the transport: nothing of the request but what does not belong to it. */
  lemma {:induction false} NothingLeft(s: State, m: State, t: State, id: RequestId, e: Execution)
    requires id in s.calls && e.req == s.calls[id].req && e.req.id == id && m.calls == s.calls
    requires m.net == AnsweredNet(s.net, e, s.calls[id].to) && Ends(m, t, id, ResponseFor(id, Told(e)))
    ensures OthersAlone(s, t, id) && Req(s.calls[id].to, id) !in t.net && Fin(e.req.from, id) !in t.net
    ensures forall k :: OwnChunk(s.calls[id], k) && k in t.net ==> !e.req.stream && k in s.net
  {
    forall k: Key
      ensures k.id != id ==> (k in t.net <==> k in s.net) && (k in s.net ==> t.net[k] == s.net[k])
      ensures OwnChunk(s.calls[id], k) && k in t.net ==> !e.req.stream && k in s.net
    {
      AnsweredNetIs(s.net, e, s.calls[id].to, k);
    }
    AnsweredNetIs(s.net, e, s.calls[id].to, Req(s.calls[id].to, id));
  }

  /** A stream without earlier executions hands over what this one sent. */
  lemma {:induction false} HandsOver(s: State, t: State, id: RequestId, e: Execution)
    requires Reachable(t) && t.execs == s.execs + [e] && id in t.calls && e.req == t.calls[id].req && e.req.id == id
    requires e.req.stream && e.beh.outcome.Good? && forall f :: f in s.execs ==> f.req.id != id
    requires t.calls[id].phase == Finished(Told(e))
    ensures t.calls[id].delivered == e.beh.sends
  {
    assert e in t.execs;
    assert forall f :: f in t.execs && f.req.id == id ==> f == e;
    StreamDelivery(t, id, e);
  }

  /** The call `id` was executed as `e` and ended with what its handler returned; nothing of it
      stays behind but chunks that no plain call ever takes, and nothing else is touched. */
  ghost predicate Completed(s: State, t: State, id: RequestId, e: Execution) {
    && t.execs == s.execs + [e] && id in s.calls && id in t.calls && t.calls == s.calls[id := t.calls[id]]
    && t.calls[id].req == s.calls[id].req && t.calls[id].to == s.calls[id].to
    && t.calls[id].phase == Finished(if e.req.stream && e.beh.outcome.Good? then Good([]) else e.beh.outcome)
    && OthersAlone(s, t, id) && Req(s.calls[id].to, id) !in t.net && Fin(s.calls[id].req.from, id) !in t.net
    && (forall k :: OwnChunk(s.calls[id], k) && k in t.net ==> !s.calls[id].req.stream && k in s.net)
  }

  /** From every reachable state in which a call waits, its request is in the transport, and an
      idle process at its target has not served it, there is a run that executes the request at
      any time before its deadline and ends the call with what the handler returned. A stream
      that was not executed before has handed over exactly what the handler sent. Nothing of
      the request stays behind, and nothing else is touched. */
  lemma {:induction false} CallCompletes(s: State, id: RequestId, pid: Pid, clock: nat, beh: Behaviour)
    returns (t: State)
    requires Reachable(s) && id in s.calls && Waiting(s.calls[id].phase)
    requires Wanted(s, pid, Req(s.calls[id].to, id)) && s.servers[pid].job.Idle?
    requires !Expired(s.calls[id].req, clock)
    ensures Leads(s, t) && Completed(s, t, id, Execution(pid, s.calls[id].req, clock, beh))
    ensures s.calls[id].req.stream && beh.outcome.Good? && (forall f :: f in s.execs ==> f.req.id != id) ==>
      t.calls[id].delivered == beh.sends
  {
    var e := Execution(pid, s.calls[id].req, clock, beh);
    var m;
    m, t := CallAnswered(s, id, e);
    NothingLeft(s, m, t, id, e);
    if e.req.stream && beh.outcome.Good? && (forall f :: f in s.execs ==> f.req.id != id) {
      StaysReachable(s, t);
      HandsOver(s, t, id, e);
    }
  }

  /** A fresh call to a device with an idle process, made in any reachable state, can be issued,
      executed within its deadline and ended with what the handler returned, a stream having
      handed over exactly what the handler sent; and the transport is then as it was. */
  lemma {:induction false} FreshCallCompletes(s: State, pid: Pid, issue: Action, clock: nat, beh: Behaviour)
    returns (t: State)
    requires Reachable(s) && pid in s.servers && s.servers[pid].job.Idle?
    requires issue.Issue? && issue.id !in s.calls && issue.to == s.servers[pid].device
    requires issue.expires == 0 || clock <= issue.expires
    ensures Leads(s, t) && issue.id in t.calls && t.net == s.net
    ensures var req := Request(issue.id, issue.from, issue.op, issue.payload, issue.stream, issue.expires);
      && t.execs == s.execs + [Execution(pid, req, clock, beh)]
      && t.calls == s.calls[issue.id := t.calls[issue.id]] && t.calls[issue.id].req == req
      && t.calls[issue.id].phase ==
           Finished(if issue.stream && beh.outcome.Good? then Good([]) else beh.outcome)
      && (issue.stream && beh.outcome.Good? ==> t.calls[issue.id].delivered == beh.sends)
  {
    var id := issue.id;
    var req := Request(id, issue.from, issue.op, issue.payload, issue.stream, issue.expires);
    var u := Issued(s, pid, issue, req);
    t := IssuedCompletes(s, u, pid, issue.to, req, clock, beh);
  }

  lemma {:induction false} IssuedCompletes(s: State, u: State, pid: Pid, to: DeviceId, req: Request, clock: nat,
                                           beh: Behaviour) returns (t: State)
    requires Reachable(s) && Leads(s, u) && Reachable(u) && u.servers == s.servers && u.execs == s.execs
    requires pid in s.servers && s.servers[pid].job.Idle? && req.id !in s.calls && !Expired(req, clock)
    requires u.net == s.net[Req(to, req.id) := ReqObj(req)] && Wanted(u, pid, Req(to, req.id))
    requires u.calls == s.calls[req.id := Call(req, to, Polling, [])]
    ensures Leads(s, t) && req.id in t.calls && t.net == s.net
    ensures var e := Execution(pid, req, clock, beh);
      && t.execs == s.execs + [e] && t.calls == s.calls[req.id := t.calls[req.id]] && t.calls[req.id].req == req
      && t.calls[req.id].phase == Finished(Told(e))
      && (req.stream && beh.outcome.Good? ==> t.calls[req.id].delivered == beh.sends)
  {
    NeverSeen(s, req.id);
    t := CallCompletes(u, req.id, pid, clock, beh);
    LeadsOn(s, u, t);
    InvAfter(u, t);
    NetRestored(s, u, t, to, req, Execution(pid, req, clock, beh));
    CallsFrom(s, u, t, to, req, Execution(pid, req, clock, beh));
  }

  lemma {:induction false} InvAfter(s: State, t: State)
    requires Reachable(s) && Leads(s, t)
    ensures Inv(t)
  {
    StaysReachable(s, t);
    ReachableInv(t);
  }

  /** What was completed from the issued call was completed from before. */
  lemma {:induction false} CallsFrom(s: State, u: State, t: State, to: DeviceId, req: Request, e: Execution)
    requires u.execs == s.execs && u.calls == s.calls[req.id := Call(req, to, Polling, [])] && e.req == req
    requires Completed(u, t, req.id, e)
    ensures t.execs == s.execs + [e] && req.id in t.calls && t.calls == s.calls[req.id := t.calls[req.id]]
    ensures t.calls[req.id].req == req && t.calls[req.id].phase == Finished(Told(e))
  {
    assert s.calls[req.id := u.calls[req.id]][req.id := t.calls[req.id]] == s.calls[req.id := t.calls[req.id]];
  }

  lemma {:induction false} NetRestored(s: State, u: State, t: State, to: DeviceId, req: Request, e: Execution)
    requires Inv(t) && (forall k: Key :: k in s.net ==> k.id != req.id) && Completed(u, t, req.id, e)
    requires u.net == s.net[Req(to, req.id) := ReqObj(req)] && u.calls[req.id] == Call(req, to, Polling, [])
    ensures t.net == s.net
  {
    assert CallOk(t, req.id, t.calls[req.id]);
    NothingStays(s, u, t, req.id);
  }

  lemma {:induction false} Issued(s: State, pid: Pid, issue: Action, req: Request) returns (u: State)
    requires Reachable(s) && pid in s.servers && issue.Issue? && issue.id !in s.calls
    requires issue.to == s.servers[pid].device
    requires req == Request(issue.id, issue.from, issue.op, issue.payload, issue.stream, issue.expires)
    ensures Leads(s, u) && Reachable(u) && u.servers == s.servers && u.execs == s.execs
    ensures u.net == s.net[Req(issue.to, issue.id) := ReqObj(req)]
    ensures u.calls == s.calls[issue.id := Call(req, issue.to, Polling, [])]
    ensures Wanted(u, pid, Req(issue.to, issue.id))
  {
    u := Apply(s, issue);
    LeadsStep(s, issue);
    StaysReachable(s, u);
    if issue.id in s.servers[pid].served { ServedWereIssued(s, pid, issue.id); }
  }

  lemma {:induction false} NothingStays(s: State, u: State, t: State, id: RequestId)
    requires Inv(t) && id in u.calls && id in t.calls && OthersAlone(u, t, id) && OthersAlone(s, u, id)
    requires t.calls[id].req == u.calls[id].req && t.calls[id].to == u.calls[id].to
    requires (forall k: Key :: k in s.net ==> k.id != id) && (forall k :: k in u.net && k.id == id ==> k.Req?)
    requires Req(u.calls[id].to, id) !in t.net && Fin(u.calls[id].req.from, id) !in t.net
    requires forall k :: OwnChunk(u.calls[id], k) && k in t.net ==> !u.calls[id].req.stream && k in u.net
    requires CallOk(t, id, t.calls[id])
    ensures t.net == s.net
  {
    forall k: Key | k in t.net ensures k.id != id {
      assert EntryOk(t, k, t.net[k]);
    }
    assert forall k: Key :: k in t.net <==> k in s.net;
    assert t.net == s.net;
  }

  /** Nothing is known of a request before it is issued. */
  lemma {:induction false} NeverSeen(s: State, id: RequestId)
    requires Reachable(s) && id !in s.calls
    ensures (forall k: Key :: k in s.net ==> k.id != id) && forall f :: f in s.execs ==> f.req.id != id
  {
    ReachableInv(s);
    forall k: Key | k in s.net ensures k.id != id { assert EntryOk(s, k, s.net[k]); }
    forall f | f in s.execs ensures f.req.id != id { assert ExecOk(s, f); }
  }
}
