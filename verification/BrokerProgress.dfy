/** What one step of a process or of a call decides, and what becomes of every request: none is
    dropped unanswered unless it had expired. */
module BrokerProgress {
  import opened Prelude
  import opened Broker
  import opened BrokerSafety
  import opened BrokerResults

  // ----- one listed key of a serve pass ----------------------------------------------

  /** The key of a request to this device that is there and that this process has not served. */
  predicate Wanted(s: State, pid: Pid, k: Key) {
    pid in s.servers && k.Req? && k.to == s.servers[pid].device && k in s.net && k.id !in s.servers[pid].served
  }

  /** The caller gave up on the request before `clock`; a deadline of 0 is none. */
  predicate Expired(req: Request, clock: nat) { 0 < req.expires < clock }

  /** A request that has not expired is executed, exactly once and by this process; one that has
      is cleaned away; any other key is passed over. Nothing else changes. */
  lemma FetchDecides(s: State, pid: Pid, clock: nat, beh: Behaviour, k: Key, rest: seq<Key>)
    requires Reachable(s) && pid in s.servers && s.servers[pid].job == Pass([k] + rest)
    ensures var t := Apply(s, Fetch(pid, clock, beh));
      && t.net == s.net && t.calls == s.calls && t.failures == s.failures
      && t.servers == s.servers[pid := s.servers[pid].(job := t.servers[pid].job)]
      && if Wanted(s, pid, k) then
           s.net[k].ReqObj? && k.id in s.calls && s.net[k].req == s.calls[k.id].req &&
           var req := s.net[k].req;
           if Expired(req, clock) then t.execs == s.execs && t.servers[pid].job == Cleaning(rest, k.id)
           else
             && t.execs == s.execs + [Execution(pid, req, clock, beh)]
             && t.servers[pid].job ==
                  (if req.stream then Streaming(rest, Execution(pid, req, clock, beh), 0, 0, false)
                   else Closing(rest, Execution(pid, req, clock, beh), ResponseFor(k.id, beh.outcome)))
         else t.execs == s.execs && t.servers[pid].job == Pass(rest)
  {
    ReachableInv(s);
    var todo := [k] + rest;
    assert todo[0] == k && todo[1..] == rest;
    if Wanted(s, pid, k) {
      assert EntryOk(s, k, s.net[k]);
      assert CallOk(s, k.id, s.calls[k.id]);
    }
  }

  // ----- one listed key of a scan --------------------------------------------------------

  /** A scan hands over a listed chunk exactly if it is the next one, and then deletes it. */
  lemma ScanDecides(s: State, id: RequestId, k: Key, rest: seq<Key>)
    requires Reachable(s) && id in s.calls && s.calls[id].phase == Scan([k] + rest, None)
    ensures var (c, d) := (s.calls[id], Apply(s, Visit(id)).calls[id]);
      && Apply(s, Visit(id)) == s.(calls := s.calls[id := d])
      && if k == Chk(c.req.from, id, |c.delivered|) && k in s.net then
           && s.net[k].ChunkObj? && d.delivered == c.delivered + [s.net[k].payload]
           && d.phase == Scan(rest, Some(k))
         else d == c.(phase := Scan(rest, None))
  {
    ReachableInv(s);
    var todo := [k] + rest;
    assert todo[0] == k && todo[1..] == rest;
    if k in s.net { assert EntryOk(s, k, s.net[k]); }
    assert CallOk(s, id, s.calls[id]);
  }

  // ----- no request is dropped unanswered ----------------------------------------------------

  /** Some step of `past` fetched for process `pid` after the deadline. */
  ghost predicate FetchedLate(past: seq<Action>, pid: Pid, req: Request) {
    exists i :: 0 <= i < |past| && past[i].Fetch? && past[i].pid == pid && Expired(req, past[i].clock)
  }

  predicate ExecutedBy(s: State, pid: Pid, id: RequestId) { exists e :: e in s.execs && e.pid == pid && e.req.id == id }

  /** The process is done with `id`, and will not look at it again. */
  predicate DoneWith(v: Server, id: RequestId) { id in v.served || (v.job.Cleaning? && v.job.id == id) }

  /** What a process is done with it executed, or came to it too late. */
  ghost predicate AccountsFor(s: State, past: seq<Action>, pid: Pid, id: RequestId) {
    pid in s.servers && DoneWith(s.servers[pid], id) ==>
      id in s.calls && s.servers[pid].device == s.calls[id].to
      && (ExecutedBy(s, pid, id) || FetchedLate(past, pid, s.calls[id].req))
  }

  /** A request is in the transport until a process is done with it. */
  ghost predicate StaysThere(s: State, id: RequestId) {
    id in s.calls && Req(s.calls[id].to, id) !in s.net ==> exists pid :: pid in s.servers && id in s.servers[pid].served
  }

  ghost predicate Accounts(s: State, past: seq<Action>) {
    && (forall pid, id :: AccountsFor(s, past, pid, id))
    && (forall id :: StaysThere(s, id))
  }

  lemma MoreLate(past: seq<Action>, a: Action, pid: Pid, req: Request)
    ensures FetchedLate(past, pid, req) ==> FetchedLate(past + [a], pid, req)
    ensures a.Fetch? && a.pid == pid && Expired(req, a.clock) ==> FetchedLate(past + [a], pid, req)
  {
    if FetchedLate(past, pid, req) {
      var i :| 0 <= i < |past| && past[i].Fetch? && past[i].pid == pid && Expired(req, past[i].clock);
      assert (past + [a])[i] == past[i];
    }
    assert (past + [a])[|past|] == a;
  }

  /** Steps after which no process is done with anything new. */
  lemma StillAccountsFor(s: State, a: Action, past: seq<Action>, pid: Pid, id: RequestId)
    requires Inv(s) && Enabled(s, a) && AccountsFor(s, past, pid, id)
    requires var t := Apply(s, a);
      pid in t.servers && DoneWith(t.servers[pid], id) ==> pid in s.servers && DoneWith(s.servers[pid], id)
    ensures AccountsFor(Apply(s, a), past + [a], pid, id)
  {
    var t := Apply(s, a);
    if pid in t.servers && DoneWith(t.servers[pid], id) {
      CallsStay(s, a, id);
      ServersStay(s, a, pid);
      if ExecutedBy(s, pid, id) { ExecutedStays(s, a, pid, id); }
      MoreLate(past, a, pid, s.calls[id].req);
    }
  }

  predicate IsClient(a: Action) {
    a.Issue? || a.Poll? || a.List? || a.Visit? || a.Delete? || a.PullFinal? || a.Settle? || a.GiveUp?
  }

  lemma ClientStep(s: State, a: Action)
    requires Enabled(s, a) && IsClient(a)
    ensures var t := Apply(s, a); t.servers == s.servers && t.execs == s.execs
  {
  }

  lemma ServerStep(s: State, a: Action)
    requires Enabled(s, a) && !IsClient(a)
    ensures var t := Apply(s, a); t.calls == s.calls && t.servers - {a.pid} == s.servers - {a.pid}
  {
  }

  lemma VisitCallsStay(s: State, a: RequestId, id: RequestId)
    requires CanVisit(s, a) && id in s.calls
    ensures var t := ApplyVisit(s, a);
      id in t.calls && t.calls[id].req == s.calls[id].req && t.calls[id].to == s.calls[id].to
  {
  }

  lemma OtherCallsStay(s: State, a: Action, id: RequestId)
    requires Enabled(s, a) && IsClient(a) && !a.Visit? && id in s.calls
    ensures var t := Apply(s, a);
      id in t.calls && t.calls[id].req == s.calls[id].req && t.calls[id].to == s.calls[id].to
  {
  }

  lemma CallsStay(s: State, a: Action, id: RequestId)
    requires Enabled(s, a) && id in s.calls
    ensures var t := Apply(s, a);
      id in t.calls && t.calls[id].req == s.calls[id].req && t.calls[id].to == s.calls[id].to
  {
    if a.Visit? {
      VisitCallsStay(s, a.id, id);
    } else if IsClient(a) {
      OtherCallsStay(s, a, id);
    } else {
      ServerStep(s, a);
    }
  }

  lemma ServersStay(s: State, a: Action, pid: Pid)
    requires Enabled(s, a) && pid in s.servers
    ensures var t := Apply(s, a); pid in t.servers && t.servers[pid].device == s.servers[pid].device
  {
    if IsClient(a) { ClientStep(s, a); }
  }

  lemma NotNewlyDone(s: State, a: Action, pid: Pid, id: RequestId)
    requires Enabled(s, a) && !(a.Fetch? && a.pid == pid) && !(a.PushFinal? && a.pid == pid)
    ensures var t := Apply(s, a);
      pid in t.servers && DoneWith(t.servers[pid], id) ==> pid in s.servers && DoneWith(s.servers[pid], id)
  {
    if IsClient(a) {
      ClientStep(s, a);
    } else if a.pid != pid {
      ServerStep(s, a);
      assert forall t: map<Pid, Server> :: pid in t <==> pid in t - {a.pid};
    }
  }

  lemma ExecsGrow(s: State, a: Action)
    requires Enabled(s, a)
    ensures s.execs <= Apply(s, a).execs
  {
    if a.Fetch? {} else { assert Apply(s, a).execs == s.execs; }
  }

  lemma ExecutedStays(s: State, a: Action, pid: Pid, id: RequestId)
    requires Enabled(s, a) && ExecutedBy(s, pid, id)
    ensures ExecutedBy(Apply(s, a), pid, id)
  {
    var e :| e in s.execs && e.pid == pid && e.req.id == id;
    ExecsGrow(s, a);
    assert e in Apply(s, a).execs;
  }

  /** The two steps after which a process is done with something new. */
  lemma FetchAccounts(s: State, pid: Pid, clock: nat, beh: Behaviour, past: seq<Action>, id: RequestId)
    requires Inv(s) && Enabled(s, Fetch(pid, clock, beh)) && AccountsFor(s, past, pid, id)
    ensures AccountsFor(Apply(s, Fetch(pid, clock, beh)), past + [Fetch(pid, clock, beh)], pid, id)
  {
    var a := Fetch(pid, clock, beh);
    var v, w := s.servers[pid], Apply(s, a).servers[pid];
    if DoneWith(w, id) && !DoneWith(v, id) {
      var k := v.job.todo[0];
      assert EntryOk(s, k, s.net[k]);
      MoreLate(past, a, pid, s.calls[id].req);
    } else {
      StillAccountsFor(s, a, past, pid, id);
    }
  }

  lemma PushAccounts(s: State, pid: Pid, past: seq<Action>, id: RequestId)
    requires Inv(s) && Enabled(s, PushFinal(pid)) && AccountsFor(s, past, pid, id)
    ensures AccountsFor(Apply(s, PushFinal(pid)), past + [PushFinal(pid)], pid, id)
  {
    var j := s.servers[pid].job;
    assert JobOk(s, pid, j);
    if id == j.run.req.id {
      assert ExecOk(s, j.run) && ExecutedBy(s, pid, id);
      ExecutedStays(s, PushFinal(pid), pid, id);
    } else {
      StillAccountsFor(s, PushFinal(pid), past, pid, id);
    }
  }

  lemma OtherwiseAccounts(s: State, a: Action, past: seq<Action>, pid: Pid, id: RequestId)
    requires Inv(s) && Enabled(s, a) && AccountsFor(s, past, pid, id)
    requires !(a.Fetch? && a.pid == pid) && !(a.PushFinal? && a.pid == pid)
    ensures AccountsFor(Apply(s, a), past + [a], pid, id)
  {
    NotNewlyDone(s, a, pid, id);
    StillAccountsFor(s, a, past, pid, id);
  }

  /** Only cleaning up removes a request. */
  lemma KeyStays(s: State, a: Action, k: Key)
    requires Inv(s) && Enabled(s, a) && k.Req? && k in s.net
    requires !(a.Clean? && s.servers[a.pid].job.id == k.id)
    ensures k in Apply(s, a).net
  {
    if IsClient(a) { ClientKeyStays(s, a, k); } else { ServerKeyStays(s, a, k); }
  }

  lemma ClientKeyStays(s: State, a: Action, k: Key)
    requires Inv(s) && Enabled(s, a) && IsClient(a) && k.Req? && k in s.net
    ensures k in Apply(s, a).net
  {
    if a.Delete? { DeleteKeeps(s, a.id, a.works, k); } else { NotDeletedStays(s, a, k); }
  }

  lemma DeleteKeeps(s: State, id: RequestId, works: bool, k: Key)
    requires Inv(s) && CanDelete(s, id) && k.Req? && k in s.net
    ensures k in ApplyDelete(s, id, works).net
  {
    assert CallOk(s, id, s.calls[id]);
    assert s.calls[id].phase.del.value.Chk?;
  }

  lemma NotDeletedStays(s: State, a: Action, k: Key)
    requires Enabled(s, a) && IsClient(a) && !a.Delete? && k.Req? && k in s.net
    ensures k in Apply(s, a).net
  {
  }

  lemma ServerKeyStays(s: State, a: Action, k: Key)
    requires Enabled(s, a) && !IsClient(a) && k.Req? && k in s.net
    requires !(a.Clean? && s.servers[a.pid].job.id == k.id)
    ensures k in Apply(s, a).net
  {
  }

  lemma ServedStays(s: State, a: Action, pid: Pid, id: RequestId)
    requires Enabled(s, a) && pid in s.servers && id in s.servers[pid].served
    ensures pid in Apply(s, a).servers && id in Apply(s, a).servers[pid].served
  {
    if IsClient(a) { ClientStep(s, a); } else { ServedStaysHere(s, a, pid, id); }
  }

  lemma ServedStaysHere(s: State, a: Action, pid: Pid, id: RequestId)
    requires Enabled(s, a) && !IsClient(a) && pid in s.servers && id in s.servers[pid].served
    ensures pid in Apply(s, a).servers && id in Apply(s, a).servers[pid].served
  {
  }

  lemma CleanServes(s: State, pid: Pid, works: bool)
    requires Enabled(s, Clean(pid, works))
    ensures var t := Apply(s, Clean(pid, works)); pid in t.servers && s.servers[pid].job.id in t.servers[pid].served
  {
  }

  lemma RequestStays(s: State, a: Action, id: RequestId)
    requires Inv(s) && Enabled(s, a) && StaysThere(s, id) && id in s.calls
    ensures StaysThere(Apply(s, a), id)
  {
    var k := Req(s.calls[id].to, id);
    CallsStay(s, a, id);
    if k !in s.net {
      var pid :| pid in s.servers && id in s.servers[pid].served;
      ServedStays(s, a, pid, id);
    } else if a.Clean? && s.servers[a.pid].job.id == id {
      CleanServes(s, a.pid, a.works);
    } else {
      KeyStays(s, a, k);
    }
  }

  lemma NewRequestStays(s: State, a: Action, id: RequestId)
    requires Enabled(s, a) && id !in s.calls
    ensures StaysThere(Apply(s, a), id)
  {
  }

  lemma KeepsAccounts(s: State, a: Action, past: seq<Action>)
    requires Inv(s) && Enabled(s, a) && Accounts(s, past)
    ensures Accounts(Apply(s, a), past + [a])
  {
    forall pid, id ensures AccountsFor(Apply(s, a), past + [a], pid, id) {
      assert AccountsFor(s, past, pid, id);
      if a.Fetch? && a.pid == pid {
        FetchAccounts(s, pid, a.clock, a.beh, past, id);
      } else if a.PushFinal? && a.pid == pid {
        PushAccounts(s, pid, past, id);
      } else {
        OtherwiseAccounts(s, a, past, pid, id);
      }
    }
    forall id ensures StaysThere(Apply(s, a), id) {
      assert StaysThere(s, id);
      if id in s.calls { RequestStays(s, a, id); } else { NewRequestStays(s, a, id); }
    }
  }

  lemma {:induction false} RunAccounts(s: State, actions: seq<Action>, past: seq<Action>)
    requires Inv(s) && Accounts(s, past) && Run(s, actions).Some?
    ensures Accounts(Run(s, actions).value, past + actions)
    decreases |actions|
  {
    if actions == [] {
      assert past + actions == past;
    } else {
      KeepsInv(s, actions[0]);
      KeepsAccounts(s, actions[0], past);
      RunAccounts(Apply(s, actions[0]), actions[1..], past + [actions[0]]);
      assert (past + [actions[0]]) + actions[1..] == past + actions;
    }
  }

  lemma NothingYet()
    ensures Inv(INIT) && Accounts(INIT, [])
  {
  }

  /** Over every run: an issued request is still in the transport, or a process at its device
      executed it, or came to it only after its deadline. In particular a process takes no
      request for served that it neither executed nor found expired. */
  lemma NoneDropped(actions: seq<Action>, s: State, id: RequestId)
    requires Run(INIT, actions) == Some(s) && id in s.calls
    ensures var c := s.calls[id];
      || Req(c.to, id) in s.net
      || exists pid :: pid in s.servers && s.servers[pid].device == c.to
           && (ExecutedBy(s, pid, id) || FetchedLate(actions, pid, c.req))
    ensures forall pid :: pid in s.servers && id in s.servers[pid].served ==>
      ExecutedBy(s, pid, id) || FetchedLate(actions, pid, s.calls[id].req)
  {
    NothingYet();
    RunAccounts(INIT, actions, []);
    assert [] + actions == actions;
    assert StaysThere(s, id);
    forall pid | pid in s.servers && id in s.servers[pid].served
      ensures s.servers[pid].device == s.calls[id].to
      ensures ExecutedBy(s, pid, id) || FetchedLate(actions, pid, s.calls[id].req)
    {
      assert AccountsFor(s, actions, pid, id);
    }
  }

  /** No process is done with a request that was never issued. */
  lemma ServedWereIssued(s: State, pid: Pid, id: RequestId)
    requires Reachable(s) && pid in s.servers && id in s.servers[pid].served
    ensures id in s.calls
  {
    var actions :| Run(INIT, actions) == Some(s);
    NothingYet();
    RunAccounts(INIT, actions, []);
    assert AccountsFor(s, [] + actions, pid, id);
  }
}
