/** When delivery is exact whatever the handler does: one serving process and no failed push.
    Two concrete runs show that each of the two is needed. */
module BrokerRetry {
  import opened Prelude
  import opened Broker
  import opened BrokerResults

  lemma {:induction false} RunMore(s: State, actions: seq<Action>, a: Action)
    requires Run(s, actions).Some? && Enabled(Run(s, actions).value, a)
    ensures Run(s, actions + [a]) == Some(Apply(Run(s, actions).value, a))
    decreases |actions|
  {
    if actions == [] {
      assert actions + [a] == [a];
      assert Run(Apply(s, a), [a][1..]) == Some(Apply(s, a));
    } else {
      assert (actions + [a])[1..] == actions[1..] + [a];
      RunMore(Apply(s, actions[0]), actions[1..], a);
    }
  }

  lemma Step(s: State, a: Action) returns (t: State)
    requires Reachable(s) && Enabled(s, a)
    ensures t == Apply(s, a) && Reachable(t)
  {
    var actions :| Run(INIT, actions) == Some(s);
    RunMore(INIT, actions, a);
    t := Apply(s, a);
  }

  const FIRST := Behaviour([[1], [2]], Good([]), false)
  const SECOND := Behaviour([[3], [4]], Good([]), false)
  const ASK := Request(0, 1, "infer", [], true, 0)

  function Ask(pid: Pid, beh: Behaviour): Execution { Execution(pid, ASK, 0, beh) }

  /** What the steps of process `pid` and of the call leave alone. */
  datatype World =
    World(others: map<Pid, Server>, pid: Pid, execs: seq<Execution>, failures: seq<(Pid, RequestId)>)

  /** States with the one request ASK, issued to device 2, and the process `w.pid` there. */
  function Stage(net: map<Key, Obj>, call: Call, job: Job, w: World): State {
    State(net, map[0 := call], w.others[w.pid := Server(2, {}, job)], w.execs, w.failures)
  }

  /** The first `|chunks|` chunk objects are present. */
  function Scene(chunks: seq<Bytes>, call: Call, job: Job, w: World): State { Stage(Net(chunks), call, job, w) }

  function Net(chunks: seq<Bytes>): map<Key, Obj> {
    if chunks == [] then map[Req(2, 0) := ReqObj(ASK)]
    else Net(chunks[..|chunks| - 1])[Chk(1, 0, |chunks| - 1) := ChunkObj(|chunks| - 1, chunks[|chunks| - 1])]
  }

  lemma NewJob(net: map<Key, Obj>, call: Call, job: Job, next: Job, w: World)
    ensures SetJob(Stage(net, call, job, w), w.pid, next) == Stage(net, call, next, w)
  {
    assert w.others[w.pid := Server(2, {}, job)][w.pid := Server(2, {}, next)] ==
      w.others[w.pid := Server(2, {}, next)];
  }

  // ----- steps of the process ----------------------------------------------------------------

  /** A serve pass over `keys`, the request first, executes it. */
  lemma Served(net: map<Key, Obj>, call: Call, keys: seq<Key>, beh: Behaviour, w: World)
    requires Reachable(Stage(net, call, Idle, w)) && IsListing(keys, net)
    requires keys != [] && keys[0] == Req(2, 0) && Req(2, 0) in net && net[Req(2, 0)] == ReqObj(ASK)
    ensures var run := Ask(w.pid, beh);
      Reachable(Stage(net, call, Streaming(keys[1..], run, 0, 0, false), w.(execs := w.execs + [run])))
  {
    var s := Step(Stage(net, call, Idle, w), ServeList(w.pid, keys));
    NewJob(net, call, Idle, Pass(keys), w);
    Fetched(net, call, keys, beh, w);
  }

  lemma Fetched(net: map<Key, Obj>, call: Call, keys: seq<Key>, beh: Behaviour, w: World)
    requires Reachable(Stage(net, call, Pass(keys), w))
    requires keys != [] && keys[0] == Req(2, 0) && Req(2, 0) in net && net[Req(2, 0)] == ReqObj(ASK)
    ensures var run := Ask(w.pid, beh);
      Reachable(Stage(net, call, Streaming(keys[1..], run, 0, 0, false), w.(execs := w.execs + [run])))
  {
    var run := Ask(w.pid, beh);
    var s := Step(Stage(net, call, Pass(keys), w), Fetch(w.pid, 0, beh));
    NewJob(net, call, Pass(keys), Streaming(keys[1..], run, 0, 0, false), w.(execs := w.execs + [run]));
  }

  /** The handler sends a chunk and the server pushes it; `after` is the transport then. */
  lemma Pushed(chunks: seq<Bytes>, after: seq<Bytes>, call: Call, todo: seq<Key>, run: Execution, n: nat, w: World)
    requires Reachable(Scene(chunks, call, Streaming(todo, run, n, n, false), w))
    requires run.req == ASK && n < |run.beh.sends|
    requires Net(after) == Net(chunks)[Chk(1, 0, n) := ChunkObj(n, run.beh.sends[n])]
    ensures Reachable(Scene(after, call, Streaming(todo, run, n + 1, n + 1, false), w))
  {
    Sends(Net(chunks), call, todo, run, n, w);
    Puts(Net(chunks), call, todo, run, n, w);
  }

  lemma Sends(net: map<Key, Obj>, call: Call, todo: seq<Key>, run: Execution, n: nat, w: World)
    requires Reachable(Stage(net, call, Streaming(todo, run, n, n, false), w)) && n < |run.beh.sends|
    ensures Reachable(Stage(net, call, Streaming(todo, run, n + 1, n, false), w))
  {
    var s := Step(Stage(net, call, Streaming(todo, run, n, n, false), w), HandlerSend(w.pid));
    NewJob(net, call, Streaming(todo, run, n, n, false), Streaming(todo, run, n + 1, n, false), w);
  }

  lemma Puts(net: map<Key, Obj>, call: Call, todo: seq<Key>, run: Execution, n: nat, w: World)
    requires Reachable(Stage(net, call, Streaming(todo, run, n + 1, n, false), w))
    requires run.req == ASK && n < |run.beh.sends|
    ensures var after := net[Chk(1, 0, n) := ChunkObj(n, run.beh.sends[n])];
      Reachable(Stage(after, call, Streaming(todo, run, n + 1, n + 1, false), w))
  {
    var after := net[Chk(1, 0, n) := ChunkObj(n, run.beh.sends[n])];
    var s := Step(Stage(net, call, Streaming(todo, run, n + 1, n, false), w), PushChunk(w.pid));
    NewJob(after, call, Streaming(todo, run, n + 1, n, false), Streaming(todo, run, n + 1, n + 1, false), w);
  }

  /** The stream ends and the push of its final response fails. */
  lemma Failed(net: map<Key, Obj>, call: Call, run: Execution, w: World)
    requires run == Ask(w.pid, FIRST) && Reachable(Stage(net, call, Streaming([], run, 2, 2, false), w))
    ensures Reachable(Stage(net, call, Idle, w.(failures := w.failures + [(w.pid, 0)])))
  {
    var s := Step(Stage(net, call, Streaming([], run, 2, 2, false), w), HandlerReturn(w.pid));
    NewJob(net, call, Streaming([], run, 2, 2, false), Streaming([], run, 2, 2, true), w);
    Ended(net, call, run, w);
  }

  lemma Ended(net: map<Key, Obj>, call: Call, run: Execution, w: World)
    requires run == Ask(w.pid, FIRST) && Reachable(Stage(net, call, Streaming([], run, 2, 2, true), w))
    ensures Reachable(Stage(net, call, Idle, w.(failures := w.failures + [(w.pid, 0)])))
  {
    var res := Response(0, true, [], "");
    var s := Step(Stage(net, call, Streaming([], run, 2, 2, true), w), EndStream(w.pid));
    NewJob(net, call, Streaming([], run, 2, 2, true), Closing([], run, res), w);
    FinalFails(net, call, run, res, w);
  }

  lemma FinalFails(net: map<Key, Obj>, call: Call, run: Execution, res: Response, w: World)
    requires run.req == ASK && Reachable(Stage(net, call, Closing([], run, res), w))
    ensures Reachable(Stage(net, call, Idle, w.(failures := w.failures + [(w.pid, 0)])))
  {
    var s := Step(Stage(net, call, Closing([], run, res), w), PushFails(w.pid));
    NewJob(net, call, Closing([], run, res), Idle, w.(failures := w.failures + [(w.pid, 0)]));
  }

  // ----- steps of the caller -----------------------------------------------------------------

  const KEYS := [Chk(1, 0, 0), Chk(1, 0, 1), Req(2, 0)]
  const IDLE := Call(ASK, 2, Polling, [])
  const HALF := Call(ASK, 2, Scan([Chk(1, 0, 1), Req(2, 0)], Some(Chk(1, 0, 0))), [[1]])

  lemma Listed(net: map<Key, Obj>, keys: seq<Key>, job: Job, w: World)
    requires Reachable(Stage(net, IDLE, job, w)) && IsListing(keys, net)
    ensures Reachable(Stage(net, IDLE.(phase := Scan(keys, None)), job, w))
  {
    var s := Step(Stage(net, IDLE, job, w), List(0, keys));
    assert s == Stage(net, IDLE.(phase := Scan(keys, None)), job, w);
  }

  /** The caller takes the first chunk. */
  lemma TakenFirst(net: map<Key, Obj>, rest: seq<Key>, b: Bytes, job: Job, w: World)
    requires var k := Chk(1, 0, 0);
      && k in net && net[k] == ChunkObj(0, b)
      && Reachable(Stage(net, IDLE.(phase := Scan([k] + rest, None)), job, w))
    ensures Reachable(Stage(net, Call(ASK, 2, Scan(rest, Some(Chk(1, 0, 0))), [b]), job, w))
  {
    var k := Chk(1, 0, 0);
    var s := Step(Stage(net, IDLE.(phase := Scan([k] + rest, None)), job, w), Visit(0));
    assert ([k] + rest)[1..] == rest && [] + [b] == [b];
    assert s == Stage(net, Call(ASK, 2, Scan(rest, Some(k)), [b]), job, w);
  }

  lemma HalfTaken(job: Job, w: World)
    requires Reachable(Scene([[1], [2]], IDLE, job, w))
    ensures Reachable(Scene([[1], [2]], HALF, job, w))
  {
    Nets();
    var net := Net([[1], [2]]);
    assert IsListing(KEYS, net) && KEYS == [Chk(1, 0, 0)] + HALF.phase.todo;
    Listed(net, KEYS, job, w);
    TakenFirst(net, HALF.phase.todo, [1], job, w);
  }

  /** The caller goes on with its listing and takes the chunk now stored at number 1. */
  lemma TakenSecond(job: Job, w: World) returns (s: State)
    requires Reachable(Scene([[3], [4]], HALF, job, w))
    ensures Reachable(s) && s.execs == w.execs && s.failures == w.failures && s.calls.Keys == {0}
    ensures s.calls[0].req == ASK && s.calls[0].to == 2 && s.calls[0].delivered == [[1], [4]]
    ensures s.servers == w.others[w.pid := Server(2, {}, job)]
  {
    assert [[3], [4]][..1] == [[3]] && [[3]][..0] == [];
    s := Step(Scene([[3], [4]], HALF, job, w), Delete(0, false));
    s := Step(s, Visit(0));
  }

  lemma Nets()
    ensures Net([]) == map[Req(2, 0) := ReqObj(ASK)]
    ensures Net([[1]]) == Net([])[Chk(1, 0, 0) := ChunkObj(0, [1])]
    ensures Net([[1], [2]]) == Net([[1]])[Chk(1, 0, 1) := ChunkObj(1, [2])]
    ensures Net([[3], [2]]) == Net([[1], [2]])[Chk(1, 0, 0) := ChunkObj(0, [3])]
    ensures Net([[3], [4]]) == Net([[3], [2]])[Chk(1, 0, 1) := ChunkObj(1, [4])]
  {
    assert [[1], [2]][..1] == [[1]] && [[1]][..0] == [] && [[3], [2]][..1] == [[3]];
    assert [[3], [4]][..1] == [[3]] && [[3]][..0] == [];
  }

  // ----- the two runs ------------------------------------------------------------------------

  const ALONE := World(map[], 7, [], [])
  const RUN1 := Ask(7, FIRST)

  lemma Asked()
    ensures Reachable(Scene([], IDLE, Idle, ALONE))
  {
    assert Run(INIT, []) == Some(INIT);
    var s := Step(INIT, Spawn(7, 2));
    s := Step(s, Issue(0, 1, 2, "infer", [], true, 0));
    assert s == Scene([], IDLE, Idle, ALONE);
  }

  lemma FirstPushed()
    ensures Reachable(Scene([[1], [2]], IDLE, Streaming([], RUN1, 2, 2, false), ALONE.(execs := [RUN1])))
  {
    Asked();
    Nets();
    var keys := [Req(2, 0)];
    assert [] + [RUN1] == [RUN1] && keys[1..] == [] && IsListing(keys, Net([]));
    Served(Net([]), IDLE, keys, FIRST, ALONE);
    Pushed([], [[1]], IDLE, [], RUN1, 0, ALONE.(execs := [RUN1]));
    Pushed([[1]], [[1], [2]], IDLE, [], RUN1, 1, ALONE.(execs := [RUN1]));
  }

  const REST := [Chk(1, 0, 0), Chk(1, 0, 1)]

  /** The caller has one chunk, and a process that has not served the request does so now. */
  lemma Mixed(w: World) returns (s: State)
    requires Reachable(Scene([[1], [2]], HALF, Idle, w)) && w.execs == [RUN1]
    ensures Reachable(s) && s.execs == [RUN1, Ask(w.pid, SECOND)] && s.failures == w.failures
    ensures s.calls.Keys == {0} && s.calls[0].req == ASK && s.calls[0].to == 2
    ensures s.calls[0].delivered == [[1], [4]] && forall e :: e in s.execs ==> !InOrder(s.calls[0], e)
    ensures s.servers.Keys == w.others.Keys + {w.pid}
    ensures forall p :: p in s.servers && p !in w.others ==> s.servers[p].device == 2
    ensures forall p :: p in s.servers && p != w.pid ==> s.servers[p] == w.others[p]
  {
    var run, v := Ask(w.pid, SECOND), w.(execs := [RUN1, Ask(w.pid, SECOND)]);
    MixedPushed(w, run, v);
    s := TakenSecond(Streaming(REST, run, 2, 2, false), v);
    assert [[1], [4]][1] != FIRST.sends[1] && [[1], [4]][0] != SECOND.sends[0];
  }

  lemma MixedServed(w: World, run: Execution, v: World)
    requires Reachable(Scene([[1], [2]], HALF, Idle, w)) && w.execs == [RUN1]
    requires run == Ask(w.pid, SECOND) && v == w.(execs := [RUN1, run])
    ensures Reachable(Scene([[1], [2]], HALF, Streaming(REST, run, 0, 0, false), v))
  {
    Nets();
    var keys := [Req(2, 0)] + REST;
    assert keys[1..] == REST && [RUN1] + [run] == [RUN1, run] && IsListing(keys, Net([[1], [2]]));
    Served(Net([[1], [2]]), HALF, keys, SECOND, w);
  }

  lemma MixedPushed(w: World, run: Execution, v: World)
    requires Reachable(Scene([[1], [2]], HALF, Idle, w)) && w.execs == [RUN1]
    requires run == Ask(w.pid, SECOND) && v == w.(execs := [RUN1, run])
    ensures Reachable(Scene([[3], [4]], HALF, Streaming(REST, run, 2, 2, false), v))
  {
    Nets();
    MixedServed(w, run, v);
    Pushed([[1], [2]], [[3], [2]], HALF, REST, run, 0, v);
    Pushed([[3], [2]], [[3], [4]], HALF, REST, run, 1, v);
  }

  /** One failed push makes the only process execute the request again: the caller is then
      handed the first chunk of one execution and the second of the other. */
  lemma FailedPushMixesExecutions() returns (s: State)
    ensures Reachable(s) && s.failures == [(7, 0)] && s.servers.Keys == {7} && s.servers[7].device == 2
    ensures s.execs == [Ask(7, FIRST), Ask(7, SECOND)]
    ensures s.calls.Keys == {0} && s.calls[0].req == ASK && s.calls[0].to == 2
    ensures s.calls[0].delivered == [[1], [4]] && forall e :: e in s.execs ==> !InOrder(s.calls[0], e)
  {
    FirstPushed();
    var w := ALONE.(execs := [RUN1]);
    Failed(Net([[1], [2]]), IDLE, RUN1, w);
    assert [] + [(7, 0)] == [(7, 0)];
    HalfTaken(Idle, w.(failures := [(7, 0)]));
    s := Mixed(w.(failures := [(7, 0)]));
  }

  /** A second process at the same device does the same without any failed push. */
  lemma SecondProcessMixesExecutions() returns (s: State)
    ensures Reachable(s) && s.failures == [] && s.servers.Keys == {7, 8}
    ensures s.servers[7].device == s.servers[8].device == 2
    ensures s.execs == [Ask(7, FIRST), Ask(8, SECOND)]
    ensures s.calls.Keys == {0} && s.calls[0].req == ASK && s.calls[0].to == 2
    ensures s.calls[0].delivered == [[1], [4]] && forall e :: e in s.execs ==> !InOrder(s.calls[0], e)
  {
    FirstPushed();
    var job := Streaming([], RUN1, 2, 2, false);
    HalfTaken(job, ALONE.(execs := [RUN1]));
    var w := World(map[7 := Server(2, {}, job)], 8, [RUN1], []);
    var t := Step(Scene([[1], [2]], HALF, job, ALONE.(execs := [RUN1])), Spawn(8, 2));
    assert t == Scene([[1], [2]], HALF, Idle, w);
    s := Mixed(w);
  }

  // ----- exactly when delivery is exact ------------------------------------------------------

  /** How many pushes for request `id` failed, of any process. */
  function FailedFor(fs: seq<(Pid, RequestId)>, id: RequestId): nat {
    if fs == [] then 0 else FailedFor(fs[..|fs| - 1], id) + if fs[|fs| - 1].1 == id then 1 else 0
  }

  function At(s: State, d: DeviceId): set<Pid> { set p | p in s.servers && s.servers[p].device == d }

  /** A streaming call that was handed a chunk or has ended is owed the chunks of one execution. */
  ghost predicate Exact(s: State, id: RequestId)
    requires id in s.calls
  {
    exists e :: e in s.execs && e.req == s.calls[id].req && InOrder(s.calls[id], e)
  }

  predicate Answered(s: State, id: RequestId) {
    id in s.calls && s.calls[id].req.stream && (s.calls[id].delivered != [] || s.calls[id].phase.Finished?)
  }

  /** At most so many processes at the call's target and so many failed pushes for it. */
  predicate Within(s: State, id: RequestId, processes: nat, failures: nat)
    requires id in s.calls
  {
    |At(s, s.calls[id].to)| <= processes && FailedFor(s.failures, id) <= failures
  }

  /** Delivery is exact in every run within these bounds, whatever the handler does. */
  ghost predicate ExactWith(processes: nat, failures: nat) {
    forall s, id | Reachable(s) && Answered(s, id) && Within(s, id, processes, failures) :: Exact(s, id)
  }

  lemma {:induction false} NoneFailed(fs: seq<(Pid, RequestId)>, pid: Pid, id: RequestId)
    requires FailedFor(fs, id) == 0
    ensures Failures(fs, pid, id) == 0
  {
    if fs != [] { NoneFailed(fs[..|fs| - 1], pid, id); }
  }

  lemma AnsweredBy(s: State, id: RequestId) returns (run: Execution)
    requires Reachable(s) && Answered(s, id)
    ensures run in s.execs && run.req.id == id && run.pid in At(s, s.calls[id].to)
  {
    SomeExecution(s, id);
    run :| run in s.execs && run.req.id == id;
    AtMostOnce(s, run.pid, id);
  }

  lemma OneAt(s: State, id: RequestId)
    requires Reachable(s) && Answered(s, id) && Within(s, id, 1, 0)
    ensures Exact(s, id)
  {
    var run := AnsweredBy(s, id);
    var pid := run.pid;
    var ps := At(s, s.calls[id].to);
    forall p | p in s.servers && s.servers[p].device == s.calls[id].to ensures p == pid {
      assert p in ps;
      if p != pid { Subset({p, pid}, ps); }
    }
    NoneFailed(s.failures, pid, id);
    StreamDeliveryOneServer(s, id, pid);
  }

  /** Delivery is exact with one process and no failed push, and no more; without any
      process nothing is delivered at all. */
  lemma ExactDelivery(processes: nat, failures: nat)
    ensures ExactWith(processes, failures) <==> processes == 0 || (processes == 1 && failures == 0)
  {
    if processes == 0 || (processes == 1 && failures == 0) {
      forall s, id | Reachable(s) && Answered(s, id) && Within(s, id, processes, failures) ensures Exact(s, id) {
        if processes == 0 {
          var run := AnsweredBy(s, id);
          assert false;
        }
        OneAt(s, id);
      }
    } else if processes == 1 {
      var s := FailedPushMixesExecutions();
      assert At(s, 2) == {7};
      assert [(7, 0)][..0] == [] && FailedFor(s.failures, 0) == 1;
      assert Answered(s, 0) && Within(s, 0, processes, failures) && !Exact(s, 0);
    } else {
      var s := SecondProcessMixesExecutions();
      assert At(s, 2) == {7, 8};
      assert Answered(s, 0) && Within(s, 0, processes, failures) && !Exact(s, 0);
    }
  }
}
