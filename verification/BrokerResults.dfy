/** At-most-once execution, correlation and in-order exactly-once delivery. */
module BrokerResults {
  import opened Prelude
  import opened Broker
  import opened BrokerSafety

  // ----- at most once ----------------------------------------------------------

  /** How often process `pid` executed request `id`. */
  function Executions(es: seq<Execution>, pid: Pid, id: RequestId): nat {
    if es == [] then 0
    else Executions(es[..|es| - 1], pid, id) + if es[|es| - 1].pid == pid && es[|es| - 1].req.id == id then 1 else 0
  }

  /** How many of its pushes for request `id` failed. */
  function Failures(fs: seq<(Pid, RequestId)>, pid: Pid, id: RequestId): nat {
    if fs == [] then 0
    else Failures(fs[..|fs| - 1], pid, id) + if fs[|fs| - 1] == (pid, id) then 1 else 0
  }

  /** The process will not execute `id` again unless a push fails first. */
  predicate Taken(v: Server, id: RequestId) {
    || id in v.served
    || (v.job.Streaming? && v.job.run.req.id == id)
    || (v.job.Closing? && v.job.run.req.id == id)
    || (v.job.Cleaning? && v.job.id == id)
  }

  ghost predicate CountOk(s: State) {
    forall p, i {:trigger Executions(s.execs, p, i)} ::
      p in s.servers ==>
      Executions(s.execs, p, i) <= Failures(s.failures, p, i) + if Taken(s.servers[p], i) then 1 else 0
  }

  lemma {:induction false} NeverExecuted(es: seq<Execution>, pid: Pid, id: RequestId)
    requires forall e :: e in es ==> e.pid != pid
    ensures Executions(es, pid, id) == 0
  {
    if es != [] { NeverExecuted(es[..|es| - 1], pid, id); }
  }

  lemma CountStart(s: State, rest: seq<Key>, e: Execution)
    requires CountOk(s) && e.pid in s.servers && !Taken(s.servers[e.pid], e.req.id)
    requires !s.servers[e.pid].job.Streaming? && !s.servers[e.pid].job.Closing? && !s.servers[e.pid].job.Cleaning?
    ensures CountOk(Start(s, rest, e))
  {
    var t := Start(s, rest, e);
    assert t.execs[..|t.execs| - 1] == s.execs;
    forall p, i | p in t.servers
      ensures Executions(t.execs, p, i) <= Failures(t.failures, p, i) + if Taken(t.servers[p], i) then 1 else 0
    {
      assert Executions(s.execs, p, i) <= Failures(s.failures, p, i) + if Taken(s.servers[p], i) then 1 else 0;
    }
  }

  lemma CountFail(s: State, pid: Pid)
    requires CountOk(s) && Enabled(s, PushFails(pid))
    ensures CountOk(Apply(s, PushFails(pid)))
  {
    var t := Apply(s, PushFails(pid));
    assert t.failures[..|t.failures| - 1] == s.failures;
    forall p, i | p in t.servers
      ensures Executions(t.execs, p, i) <= Failures(t.failures, p, i) + if Taken(t.servers[p], i) then 1 else 0
    {
      assert Executions(s.execs, p, i) <= Failures(s.failures, p, i) + if Taken(s.servers[p], i) then 1 else 0;
    }
  }

  /** Steps that neither execute nor fail, and forget nothing that was taken. */
  lemma CountSame(s: State, t: State)
    requires CountOk(s) && t.execs == s.execs && t.failures == s.failures
    requires forall p, i :: p in t.servers ==>
      if p in s.servers then Taken(s.servers[p], i) ==> Taken(t.servers[p], i) else Executions(s.execs, p, i) == 0
    ensures CountOk(t)
  {
  }

  lemma KeepsCount(s: State, a: Action)
    requires Inv(s) && CountOk(s) && Enabled(s, a)
    ensures CountOk(Apply(s, a))
  {
    match a
    case PushFails(pid) => CountFail(s, pid);
    case Fetch(pid, clock, beh) => CountFetch(s, pid, clock, beh);
    case Spawn(pid, device) => CountSpawn(s, pid, device);
    case ServeList(_, _) => CountServe(s, a);
    case HandlerReturn(_) => CountServe(s, a);
    case PushChunk(_) => CountServe(s, a);
    case PushFinal(_) => CountServe(s, a);
    case Clean(_, _) => CountServe(s, a);
    case Abort(_) => CountServe(s, a);
    case HandlerSend(_) => CountServe(s, a);
    case EndStream(_) => CountServe(s, a);
    case _ => CountClient(s, a);
  }

  lemma CountSpawn(s: State, pid: Pid, device: DeviceId)
    requires Inv(s) && CountOk(s) && Enabled(s, Spawn(pid, device))
    ensures CountOk(Apply(s, Spawn(pid, device)))
  {
    forall i ensures Executions(s.execs, pid, i) == 0 {
      assert forall e :: e in s.execs ==> ExecOk(s, e);
      NeverExecuted(s.execs, pid, i);
    }
    CountSame(s, Apply(s, Spawn(pid, device)));
  }

  lemma CountServe(s: State, a: Action)
    requires CountOk(s) && Enabled(s, a)
    requires a.ServeList? || a.HandlerReturn? || a.PushChunk? || a.PushFinal? || a.Clean? || a.Abort? ||
      a.HandlerSend? || a.EndStream?
    ensures CountOk(Apply(s, a))
  {
    CountSame(s, Apply(s, a));
  }

  lemma CountFetch(s: State, pid: Pid, clock: nat, beh: Behaviour)
    requires Inv(s) && CountOk(s) && pid in s.servers && s.servers[pid].job.Pass?
    ensures CountOk(ApplyFetch(s, pid, clock, beh))
  {
    var t := ApplyFetch(s, pid, clock, beh);
    var v := s.servers[pid];
    if v.job.todo == [] || t.execs == s.execs {
      CountSame(s, t);
    } else {
      var k := v.job.todo[0];
      assert EntryOk(s, k, s.net[k]) && CallOk(s, k.id, s.calls[k.id]);
      CountStart(s, v.job.todo[1..], Execution(pid, s.net[k].req, clock, beh));
    }
  }

  lemma CountClient(s: State, a: Action)
    requires CountOk(s) && Enabled(s, a)
    requires a.Issue? || a.Poll? || a.List? || a.Visit? || a.Delete? || a.PullFinal? || a.Settle? || a.GiveUp?
    ensures CountOk(Apply(s, a))
  {
    assert Apply(s, a).servers == s.servers;
    CountSame(s, Apply(s, a));
  }

  lemma {:induction false} RunKeeps(s: State, actions: seq<Action>)
    requires Inv(s) && CountOk(s) && Run(s, actions).Some?
    ensures Inv(Run(s, actions).value) && CountOk(Run(s, actions).value)
    decreases |actions|
  {
    if actions != [] {
      KeepsInv(s, actions[0]);
      KeepsCount(s, actions[0]);
      RunKeeps(Apply(s, actions[0]), actions[1..]);
    }
  }

  lemma ReachableInv(s: State)
    requires Reachable(s)
    ensures Inv(s) && CountOk(s)
  {
    var actions :| Run(INIT, actions) == Some(s);
    RunKeeps(INIT, actions);
  }

  // ----- main results -----------------------------------------------------------

  /** A process executes a request at most once more than its pushes for it failed,
      always the request as issued to its device, and never after its expiry. */
  lemma AtMostOnce(s: State, pid: Pid, id: RequestId)
    requires Reachable(s)
    ensures Executions(s.execs, pid, id) <= 1 + Failures(s.failures, pid, id)
    ensures forall e :: e in s.execs && e.pid == pid && e.req.id == id ==>
      && id in s.calls && e.req == s.calls[id].req && pid in s.servers && s.servers[pid].device == s.calls[id].to
      && (e.req.expires == 0 || e.at <= e.req.expires)
  {
    ReachableInv(s);
    assert forall e :: e in s.execs ==> ExecOk(s, e);
    if pid !in s.servers { NeverExecuted(s.execs, pid, id); }
  }

  /** Every final response in the transport answers a request that its addressee
      issued under that id, with what a handler execution of that request returned;
      so does every result a caller was given. */
  lemma Correlation(s: State, to: DeviceId, id: RequestId)
    requires Reachable(s)
    ensures Fin(to, id) in s.net ==>
      && id in s.calls && s.calls[id].req.from == to
      && s.net[Fin(to, id)].ResObj? && s.net[Fin(to, id)].res.requestId == id
      && exists e :: e in s.execs && e.req == s.calls[id].req && Answers(e, s.net[Fin(to, id)].res)
    ensures id in s.calls && s.calls[id].phase.Finished? ==>
      exists e :: e in s.execs && e.req == s.calls[id].req && Answers(e, ResponseFor(id, s.calls[id].phase.result))
  {
    ReachableInv(s);
    var k := Fin(to, id);
    if k in s.net {
      assert EntryOk(s, k, s.net[k]);
      var e :| Ran(s, id, e) && Answers(e, s.net[k].res);
      assert ExecOk(s, e);
    }
    if id in s.calls && s.calls[id].phase.Finished? {
      assert CallOk(s, id, s.calls[id]);
      var e :| Ran(s, id, e) && Answers(e, ResponseFor(id, s.calls[id].phase.result));
      assert ExecOk(s, e);
    }
  }

  /** All executions of the request behaved alike; in particular when there was one. */
  predicate Uniform(s: State, id: RequestId) {
    forall e, f :: e in s.execs && f in s.execs && e.req.id == id && f.req.id == id ==> e.beh == f.beh
  }

  /** The caller has been handed a prefix of what `run` sent, and all of it on Ok. */
  predicate InOrder(c: Call, run: Execution) {
    && |c.delivered| <= |run.beh.sends| && c.delivered == run.beh.sends[..|c.delivered|]
    && (c.phase.Finished? && c.phase.result.Good? ==> c.delivered == run.beh.sends)
  }

  /** In-order, exactly-once delivery: in every reachable state the chunks handed over
      are a prefix of what the handler sent, and all of it once the call returned Ok. */
  lemma StreamDelivery(s: State, id: RequestId, run: Execution)
    requires Reachable(s) && id in s.calls && s.calls[id].req.stream
    requires run in s.execs && run.req.id == id && Uniform(s, id)
    ensures InOrder(s.calls[id], run)
  {
    ReachableInv(s);
    var c := s.calls[id];
    assert CallOk(s, id, c);
    forall q | 0 <= q < |c.delivered| ensures q < |run.beh.sends| && c.delivered[q] == run.beh.sends[q] {
      assert SentBy(s, id, q, c.delivered[q]);
      var e :| Ran(s, id, e) && q < |e.beh.sends| && e.beh.sends[q] == c.delivered[q];
    }
    if c.delivered != [] {
      var last := c.delivered[|c.delivered| - 1];
      assert |c.delivered| - 1 < |run.beh.sends|;
    }
    if c.phase.Finished? && c.phase.result.Good? {
      var e :| Ran(s, id, e) && Answers(e, ResponseFor(id, c.phase.result)) && |e.beh.sends| <= |c.delivered|;
    }
  }

  lemma SomeExecution(s: State, id: RequestId)
    requires Reachable(s) && id in s.calls && (s.calls[id].delivered != [] || s.calls[id].phase.Finished?)
    ensures exists e :: e in s.execs && e.req.id == id
  {
    ReachableInv(s);
    var c := s.calls[id];
    assert CallOk(s, id, c);
    if c.delivered != [] {
      assert SentBy(s, id, 0, c.delivered[0]);
      var e :| Ran(s, id, e);
    } else {
      var e :| Ran(s, id, e);
    }
  }

  lemma {:induction false} CountTwo(es: seq<Execution>, pid: Pid, id: RequestId, a: nat, b: nat)
    requires a < b < |es| && es[a].pid == es[b].pid == pid && es[a].req.id == es[b].req.id == id
    ensures Executions(es, pid, id) >= 2
  {
    if b == |es| - 1 { CountOne(es[..b], pid, id, a); } else { CountTwo(es[..|es| - 1], pid, id, a, b); }
  }

  lemma {:induction false} CountOne(es: seq<Execution>, pid: Pid, id: RequestId, a: nat)
    requires a < |es| && es[a].pid == pid && es[a].req.id == id
    ensures Executions(es, pid, id) >= 1
  {
    if a < |es| - 1 { CountOne(es[..|es| - 1], pid, id, a); }
  }

  /** A process whose pushes for `id` all succeeded executed it once. */
  lemma OnlyOneExecution(s: State, id: RequestId, pid: Pid)
    requires Reachable(s) && Failures(s.failures, pid, id) == 0
    requires forall e :: e in s.execs && e.req.id == id ==> e.pid == pid
    ensures Uniform(s, id)
  {
    AtMostOnce(s, pid, id);
    forall e, f | e in s.execs && f in s.execs && e.req.id == id && f.req.id == id ensures e.beh == f.beh {
      var a :| 0 <= a < |s.execs| && s.execs[a] == e;
      var b :| 0 <= b < |s.execs| && s.execs[b] == f;
      if a < b { CountTwo(s.execs, pid, id, a, b); } else if b < a { CountTwo(s.execs, pid, id, b, a); }
    }
  }

  /** One serving process at the target whose pushes all succeeded is enough for
      exact delivery, whatever the handler does. */
  lemma StreamDeliveryOneServer(s: State, id: RequestId, pid: Pid)
    requires Reachable(s) && id in s.calls && s.calls[id].req.stream
    requires forall p :: p in s.servers && s.servers[p].device == s.calls[id].to ==> p == pid
    requires Failures(s.failures, pid, id) == 0
    requires s.calls[id].delivered != [] || s.calls[id].phase.Finished?
    ensures exists run :: run in s.execs && run.req == s.calls[id].req && InOrder(s.calls[id], run)
  {
    SomeExecution(s, id);
    var run :| run in s.execs && run.req.id == id;
    assert forall e :: e in s.execs ==> ExecOk(s, e) by { ReachableInv(s); }
    OnlyOneExecution(s, id, pid);
    StreamDelivery(s, id, run);
    assert ExecOk(s, run);
  }
}
