/** What every reachable state of the broker protocol satisfies. */
module BrokerSafety {
  import opened Prelude
  import opened Broker

  // ----- the invariant --------------------------------------------------------

  predicate Ran(s: State, id: RequestId, e: Execution) { e in s.execs && e.req.id == id }

  /** Some execution of `id` sent `b` as its chunk number `q`. */
  ghost predicate SentBy(s: State, id: RequestId, q: nat, b: Bytes) {
    exists e :: Ran(s, id, e) && q < |e.beh.sends| && e.beh.sends[q] == b
  }

  predicate Has(p: seq<(nat, Bytes)>, q: nat) {
    exists k :: 0 <= k < |p| && p[k].0 == q
  }

  predicate InPending(p: Phase, q: nat) { p.Drain? && Has(p.pending, q) }

  predicate Over(p: Phase) { p.Consume? || p.Finished? || p.GaveUp? }

  /** Chunk `q` has been handed over, or can still reach the caller. */
  predicate Avail(s: State, id: RequestId, q: nat) {
    id in s.calls &&
    var c := s.calls[id];
    Over(c.phase) || q < |c.delivered| || Chk(c.req.from, id, q) in s.net || InPending(c.phase, q)
  }

  ghost predicate Complete(s: State, e: Execution) {
    e.req.stream ==> forall q: nat :: q < |e.beh.sends| ==> Avail(s, e.req.id, q)
  }

  ghost predicate Answered(s: State, id: RequestId, res: Response) {
    exists e :: Ran(s, id, e) && Answers(e, res) && (res.ok ==> Complete(s, e))
  }

  ghost predicate EntryOk(s: State, k: Key, o: Obj) {
    k.id in s.calls &&
    match k
    case Req(to, id) => o.ReqObj? && s.calls[id].req == o.req && s.calls[id].to == to
    case Fin(to, id) => o.ResObj? && s.calls[id].req.from == to && Answered(s, id, o.res)
    case Chk(to, id, q) => o.ChunkObj? && o.seq_ == q && s.calls[id].req.from == to && SentBy(s, id, q, o.payload)
  }

  ghost predicate JobOk(s: State, pid: Pid, j: Job) {
    match j
    case Streaming(_, run, sent, pushed, returned) =>
      && run in s.execs && run.pid == pid && run.req.stream
      && pushed <= sent <= |run.beh.sends| && sent <= pushed + 64
      && (returned ==> sent == |run.beh.sends| && run.beh.outcome.Good?)
      && forall q: nat :: q < pushed ==> Avail(s, run.req.id, q)
    case Closing(_, run, res) =>
      run in s.execs && run.pid == pid && Answers(run, res) && (res.ok ==> Complete(s, run))
    case _ => true
  }

  /** During a drain, every chunk of an Ok answer is delivered, taken or still ahead in the listing. */
  ghost predicate DrainOk(s: State, c: Call, res: Response, todo: seq<Key>) {
    exists e :: Ran(s, c.req.id, e) && Answers(e, res) &&
      (res.ok ==> forall q: nat :: q < |e.beh.sends| ==>
        q < |c.delivered| || InPending(c.phase, q) || InListing(s, c, todo, q))
  }

  predicate InListing(s: State, c: Call, todo: seq<Key>, q: nat) {
    var k := Chk(c.req.from, c.req.id, q);
    k in todo && k in s.net
  }

  /** The caller holds an answer, and has every chunk that an Ok answer stands for. */
  ghost predicate AllDelivered(s: State, c: Call, res: Response) {
    exists e :: Ran(s, c.req.id, e) && Answers(e, res) && (res.ok && c.req.stream ==> |e.beh.sends| <= |c.delivered|)
  }

  function ResponseFor(id: RequestId, result: Outcome): Response {
    match result
    case Good(out) => Response(id, true, out, "")
    case Bad(err) => Response(id, false, [], err)
  }

  ghost predicate PhaseOk(s: State, c: Call) {
    match c.phase
    case Scan(_, Some(k)) => k.Chk? && k.to == c.req.from && k.id == c.req.id && k.seq_ < |c.delivered|
    case Got(res) => c.req.stream && Answered(s, c.req.id, res)
    case Drain(res, todo, pending, del) =>
      && c.req.stream
      && (forall k :: 0 <= k < |pending| ==> SentBy(s, c.req.id, pending[k].0, pending[k].1))
      && (del.Some? ==>
          && del.value.Chk? && del.value.to == c.req.from && del.value.id == c.req.id
          && InPending(c.phase, del.value.seq_))
      && DrainOk(s, c, res, todo)
    case Consume(res) => AllDelivered(s, c, res)
    case Finished(result) => AllDelivered(s, c, ResponseFor(c.req.id, result))
    case _ => true
  }

  ghost predicate CallOk(s: State, id: RequestId, c: Call) {
    && c.req.id == id
    && (forall q :: 0 <= q < |c.delivered| ==> SentBy(s, id, q, c.delivered[q]))
    && PhaseOk(s, c)
  }

  predicate ExecOk(s: State, e: Execution) {
    && e.req.id in s.calls && s.calls[e.req.id].req == e.req
    && e.pid in s.servers && s.servers[e.pid].device == s.calls[e.req.id].to
    && (e.req.expires == 0 || e.at <= e.req.expires)
  }

  ghost predicate Inv(s: State) {
    && (forall k :: k in s.net ==> EntryOk(s, k, s.net[k]))
    && (forall p :: p in s.servers ==> JobOk(s, p, s.servers[p].job))
    && (forall i :: i in s.calls ==> CallOk(s, i, s.calls[i]))
    && (forall e :: e in s.execs ==> ExecOk(s, e))
  }

  // ----- what a step may not take away ----------------------------------------

  ghost predicate Grows(s: State, t: State) {
    && (forall i :: i in s.calls ==> i in t.calls && t.calls[i].req == s.calls[i].req && t.calls[i].to == s.calls[i].to)
    && (forall p :: p in s.servers ==> p in t.servers && t.servers[p].device == s.servers[p].device)
    && (forall e :: e in s.execs ==> e in t.execs)
    && (forall i, q: nat :: Avail(s, i, q) ==> Avail(t, i, q))
  }

  lemma SentByGrows(s: State, t: State, id: RequestId, q: nat, b: Bytes)
    requires Grows(s, t) && SentBy(s, id, q, b)
    ensures SentBy(t, id, q, b)
  {
    var e :| Ran(s, id, e) && q < |e.beh.sends| && e.beh.sends[q] == b;
    assert Ran(t, id, e);
  }

  lemma AnsweredGrows(s: State, t: State, id: RequestId, res: Response)
    requires Grows(s, t) && Answered(s, id, res)
    ensures Answered(t, id, res)
  {
    var e :| Ran(s, id, e) && Answers(e, res) && (res.ok ==> Complete(s, e));
    assert Ran(t, id, e);
  }

  lemma EntryGrows(s: State, t: State, k: Key, o: Obj)
    requires Grows(s, t) && EntryOk(s, k, o)
    ensures EntryOk(t, k, o)
  {
    match k
    case Req(_, _) =>
    case Fin(_, id) => AnsweredGrows(s, t, id, o.res);
    case Chk(_, id, q) => SentByGrows(s, t, id, q, o.payload);
  }

  lemma JobGrows(s: State, t: State, pid: Pid, j: Job)
    requires Grows(s, t) && JobOk(s, pid, j)
    ensures JobOk(t, pid, j)
  {
  }

  lemma CallGrows(s: State, t: State, id: RequestId, c: Call)
    requires Grows(s, t) && CallOk(s, id, c)
    requires forall q: nat :: Chk(c.req.from, id, q) in s.net ==> Chk(c.req.from, id, q) in t.net
    ensures CallOk(t, id, c)
  {
    forall q | 0 <= q < |c.delivered| ensures SentBy(t, id, q, c.delivered[q]) {
      SentByGrows(s, t, id, q, c.delivered[q]);
    }
    match c.phase
    case Got(res) => AnsweredGrows(s, t, id, res);
    case Drain(res, todo, pending, _) =>
      forall k | 0 <= k < |pending| ensures SentBy(t, id, pending[k].0, pending[k].1) {
        SentByGrows(s, t, id, pending[k].0, pending[k].1);
      }
      DrainGrows(s, t, c, res, todo);
    case Consume(res) => AllDeliveredGrows(s, t, c, res);
    case Finished(result) => AllDeliveredGrows(s, t, c, ResponseFor(id, result));
    case _ =>
  }

  lemma DrainGrows(s: State, t: State, c: Call, res: Response, todo: seq<Key>)
    requires Grows(s, t) && DrainOk(s, c, res, todo)
    requires forall q: nat :: Chk(c.req.from, c.req.id, q) in s.net ==> Chk(c.req.from, c.req.id, q) in t.net
    ensures DrainOk(t, c, res, todo)
  {
    var e :| Ran(s, c.req.id, e) && Answers(e, res) &&
      (res.ok ==> forall q: nat :: q < |e.beh.sends| ==>
        q < |c.delivered| || InPending(c.phase, q) || InListing(s, c, todo, q));
    assert Ran(t, c.req.id, e);
    assert forall q: nat :: InListing(s, c, todo, q) ==> InListing(t, c, todo, q);
  }

  lemma AllDeliveredGrows(s: State, t: State, c: Call, res: Response)
    requires Grows(s, t) && AllDelivered(s, c, res)
    ensures AllDelivered(t, c, res)
  {
    var e :| Ran(s, c.req.id, e) && Answers(e, res) && (res.ok && c.req.stream ==> |e.beh.sends| <= |c.delivered|);
    assert Ran(t, c.req.id, e);
  }

  // ----- every action keeps the invariant --------------------------------------

  /** The invariant of `t` from that of `s`, given the entries, calls and jobs that differ. */
  lemma Assemble(s: State, t: State, ks: set<Key>, ids: set<RequestId>, ps: set<Pid>)
    requires Inv(s) && Grows(s, t)
    requires forall k :: k in t.net ==> if k in ks then EntryOk(t, k, t.net[k]) else k in s.net && t.net[k] == s.net[k]
    requires forall i :: i in t.calls ==>
      if i in ids then CallOk(t, i, t.calls[i])
      else i in s.calls && t.calls[i] == s.calls[i]
    requires forall i, q: nat :: i in t.calls && i !in ids ==>
      Chk(t.calls[i].req.from, i, q) in s.net ==> Chk(t.calls[i].req.from, i, q) in t.net
    requires forall p :: p in t.servers ==>
      if p in ps then JobOk(t, p, t.servers[p].job) else p in s.servers && t.servers[p].job == s.servers[p].job
    requires forall e :: e in t.execs ==> e in s.execs || ExecOk(t, e)
    ensures Inv(t)
  {
    forall k | k in t.net ensures EntryOk(t, k, t.net[k]) {
      if k !in ks { EntryGrows(s, t, k, s.net[k]); }
    }
    forall i | i in t.calls ensures CallOk(t, i, t.calls[i]) {
      if i !in ids { CallGrows(s, t, i, s.calls[i]); }
    }
    forall p | p in t.servers ensures JobOk(t, p, t.servers[p].job) {
      if p !in ps { JobGrows(s, t, p, s.servers[p].job); }
    }
  }

  lemma KeepsIssue(s: State, a: Action)
    requires Inv(s) && a.Issue? && Enabled(s, a)
    ensures Inv(Apply(s, a))
  {
    Assemble(s, Apply(s, a), {Req(a.to, a.id)}, {a.id}, {});
  }

  // Client steps

  /** The call `c` may become `d`: nothing handed over or taken is forgotten. */
  ghost predicate Moves(c: Call, d: Call) {
    && d.req == c.req && d.to == c.to
    && (Over(c.phase) ==> Over(d.phase))
    && |c.delivered| <= |d.delivered|
    && (Over(d.phase) || forall q: nat :: InPending(c.phase, q) ==> q < |d.delivered| || InPending(d.phase, q))
  }

  /** A client step that leaves the transport alone. */
  lemma ClientMove(s: State, id: RequestId, d: Call)
    requires Inv(s) && id in s.calls && Moves(s.calls[id], d) && CallOk(s, id, d)
    ensures Inv(s.(calls := s.calls[id := d]))
  {
    var t := s.(calls := s.calls[id := d]);
    assert Grows(s, t) by {
      forall i, q: nat | Avail(s, i, q) ensures Avail(t, i, q) {}
    }
    CallGrows(s, t, id, d);
    Assemble(s, t, {}, {id}, {});
  }

  /** A client may delete its own final object, or a chunk that it has taken. */
  lemma ClientDelete(s: State, id: RequestId, k: Key)
    requires Inv(s) && id in s.calls
    requires var c := s.calls[id];
      if k.Chk? then k.to == c.req.from && k.id == id && (k.seq_ < |c.delivered| || InPending(c.phase, k.seq_))
      else k == Fin(c.req.from, id)
    ensures Inv(s.(net := s.net - {k}))
  {
    var t := s.(net := s.net - {k});
    var c := s.calls[id];
    assert Grows(s, t) by {
      forall i, q: nat | Avail(s, i, q) ensures Avail(t, i, q) {}
    }
    assert CallOk(t, id, c) by {
      assert CallOk(s, id, c);
      if k.Chk? { OwnDelete(s, id, k); } else { CallGrows(s, t, id, c); }
    }
    forall i, q: nat | i in t.calls && i != id && Chk(t.calls[i].req.from, i, q) in s.net
      ensures Chk(t.calls[i].req.from, i, q) in t.net
    {}
    Assemble(s, t, {}, {id}, {});
  }

  lemma OwnDelete(s: State, id: RequestId, k: Key)
    requires Inv(s) && id in s.calls && Grows(s, s.(net := s.net - {k}))
    requires var c := s.calls[id];
      k.Chk? && k.to == c.req.from && k.id == id && (k.seq_ < |c.delivered| || InPending(c.phase, k.seq_))
    ensures CallOk(s.(net := s.net - {k}), id, s.calls[id])
  {
    var t := s.(net := s.net - {k});
    var c := s.calls[id];
    assert CallOk(s, id, c);
    if c.phase.Drain? {
      var e :| Ran(s, id, e) && Answers(e, c.phase.res) &&
        (c.phase.res.ok ==> forall q: nat :: q < |e.beh.sends| ==>
          q < |c.delivered| || InPending(c.phase, q) || InListing(s, c, c.phase.todo, q));
      assert Ran(t, id, e);
      assert DrainOk(t, c, c.phase.res, c.phase.todo);
      forall q | 0 <= q < |c.delivered| ensures SentBy(t, id, q, c.delivered[q]) {
        SentByGrows(s, t, id, q, c.delivered[q]);
      }
      forall i | 0 <= i < |c.phase.pending| ensures SentBy(t, id, c.phase.pending[i].0, c.phase.pending[i].1) {
        SentByGrows(s, t, id, c.phase.pending[i].0, c.phase.pending[i].1);
      }
    } else {
      var c' := c.(phase := if c.phase.Scan? then Polling else c.phase);
      assert CallOk(s, id, c');
      CallGrowsOffList(s, t, id, c');
    }
  }

  /** Outside a drain, what holds of a call does not depend on the transport. */
  lemma CallGrowsOffList(s: State, t: State, id: RequestId, c: Call)
    requires Grows(s, t) && CallOk(s, id, c) && !c.phase.Drain?
    ensures CallOk(t, id, c)
  {
    forall q | 0 <= q < |c.delivered| ensures SentBy(t, id, q, c.delivered[q]) {
      SentByGrows(s, t, id, q, c.delivered[q]);
    }
    match c.phase
    case Got(res) => AnsweredGrows(s, t, id, res);
    case Consume(res) => AllDeliveredGrows(s, t, c, res);
    case Finished(result) => AllDeliveredGrows(s, t, c, ResponseFor(id, result));
    case _ =>
  }

  lemma KeepsList(s: State, id: RequestId, keys: seq<Key>)
    requires Inv(s) && id in s.calls && s.calls[id].req.stream && IsListing(keys, s.net)
    requires s.calls[id].phase.Polling? || s.calls[id].phase.Got?
    ensures Inv(SetPhase(s, id, match s.calls[id].phase
                                case Got(res) => Drain(res, keys, [], None)
                                case _ => Scan(keys, None)))
  {
    var c := s.calls[id];
    assert CallOk(s, id, c);
    if c.phase.Got? {
      var d := c.(phase := Drain(c.phase.res, keys, [], None));
      DrainStarts(s, id, d);
      ClientMove(s, id, d);
    } else {
      ClientMove(s, id, c.(phase := Scan(keys, None)));
    }
  }

  lemma DrainStarts(s: State, id: RequestId, d: Call)
    requires Inv(s) && id in s.calls && s.calls[id].phase.Got? && d.phase.Drain?
    requires IsListing(d.phase.todo, s.net) &&
      d == s.calls[id].(phase := Drain(s.calls[id].phase.res, d.phase.todo, [], None))
    ensures DrainOk(s, d, d.phase.res, d.phase.todo)
  {
    var res := d.phase.res;
    assert CallOk(s, id, s.calls[id]);
    var e :| Ran(s, id, e) && Answers(e, res) && (res.ok ==> Complete(s, e));
    forall q: nat | res.ok && q < |e.beh.sends|
      ensures q < |d.delivered| || InPending(d.phase, q) || InListing(s, d, d.phase.todo, q)
    {
      assert ExecOk(s, e);
      assert Avail(s, id, q);
    }
  }

  lemma KeepsGiveUp(s: State, id: RequestId)
    requires Inv(s) && Live(s, id)
    ensures Inv(SetPhase(s, id, GaveUp))
  {
    assert CallOk(s, id, s.calls[id]);
    ClientMove(s, id, s.calls[id].(phase := GaveUp));
  }

  lemma KeepsPullFinal(s: State, id: RequestId)
    requires Inv(s) && id in s.calls
    requires s.calls[id].phase.Check? || (s.calls[id].phase.Polling? && !s.calls[id].req.stream)
    ensures Inv(ApplyPullFinal(s, id))
  {
    var c := s.calls[id];
    var k := Fin(c.req.from, id);
    assert CallOk(s, id, c);
    if k in s.net && s.net[k].ResObj? {
      var res := s.net[k].res;
      assert EntryOk(s, k, s.net[k]);
      if !c.req.stream {
        var e :| Ran(s, id, e) && Answers(e, res) && (res.ok ==> Complete(s, e));
        assert AllDelivered(s, c, res);
      }
      ClientMove(s, id, c.(phase := if c.req.stream then Got(res) else Consume(res)));
    } else {
      ClientMove(s, id, c.(phase := Polling));
    }
  }

  lemma {:induction false} DeliverSent(s: State, id: RequestId, d: seq<Bytes>, p: seq<(nat, Bytes)>)
    requires forall q :: 0 <= q < |d| ==> SentBy(s, id, q, d[q])
    requires forall k :: 0 <= k < |p| ==> SentBy(s, id, p[k].0, p[k].1)
    ensures forall q :: 0 <= q < |Deliver(d, p)| ==> SentBy(s, id, q, Deliver(d, p)[q])
    decreases |p|
  {
    if p != [] {
      assert SentBy(s, id, p[0].0, p[0].1);
      DeliverSent(s, id, if p[0].0 == |d| then d + [p[0].1] else d, p[1..]);
    }
  }

  /** Sorted pending chunks without a gap up to `n` are delivered up to `n`. */
  lemma {:induction false} DeliverReaches(d: seq<Bytes>, p: seq<(nat, Bytes)>, n: nat)
    requires Sorted(p)
    requires forall q: nat :: |d| <= q < n ==> Has(p, q)
    ensures n <= |Deliver(d, p)|
    ensures |d| <= |Deliver(d, p)|
    decreases |p|
  {
    if p != [] {
      var d' := if p[0].0 == |d| then d + [p[0].1] else d;
      forall q: nat | |d'| <= q < n ensures Has(p[1..], q) {
        assert Has(p, q) && Has(p, |d|);
        var k :| 0 <= k < |p| && p[k].0 == q;
        var j :| 0 <= j < |p| && p[j].0 == |d|;
        assert p[0].0 <= p[j].0;
        assert p[1..][k - 1].0 == q;
      }
      DeliverReaches(d', p[1..], n);
    } else {
      assert |d| < n ==> Has(p, |d|);
    }
  }

  lemma SortKeepsEntries(p: seq<(nat, Bytes)>)
    ensures forall x :: x in SortBySeq(p) <==> x in p
  {
    assert forall x :: x in SortBySeq(p) <==> x in multiset(SortBySeq(p));
    assert forall x :: x in p <==> x in multiset(p);
  }

  lemma SortKeepsNumber(p: seq<(nat, Bytes)>, q: nat)
    requires Has(p, q)
    ensures Has(SortBySeq(p), q)
  {
    SortKeepsEntries(p);
    var k :| 0 <= k < |p| && p[k].0 == q;
    assert p[k] in SortBySeq(p);
  }

  /** The end of a drain: every entry was sent, and nothing of an Ok answer is missing. */
  lemma DrainEnds(s: State, id: RequestId)
    requires Inv(s) && id in s.calls && s.calls[id].phase.Drain? && s.calls[id].phase.todo == []
    ensures var c := s.calls[id];
            var d := Deliver(c.delivered, SortBySeq(c.phase.pending));
            && (forall q :: 0 <= q < |d| ==> SentBy(s, id, q, d[q]))
            && AllDelivered(s, c.(delivered := d), c.phase.res)
  {
    var c := s.calls[id];
    assert CallOk(s, id, c);
    var sorted := SortBySeq(c.phase.pending);
    SortKeepsEntries(c.phase.pending);
    forall k | 0 <= k < |sorted| ensures SentBy(s, id, sorted[k].0, sorted[k].1) {
      assert sorted[k] in c.phase.pending;
    }
    DeliverSent(s, id, c.delivered, sorted);
    var e :| Ran(s, id, e) && Answers(e, c.phase.res) &&
      (c.phase.res.ok ==> forall q: nat :: q < |e.beh.sends| ==>
        q < |c.delivered| || InPending(c.phase, q) || InListing(s, c, [], q));
    if c.phase.res.ok {
      forall q: nat | |c.delivered| <= q < |e.beh.sends| ensures Has(sorted, q) {
        assert InPending(c.phase, q);
        SortKeepsNumber(c.phase.pending, q);
      }
      DeliverReaches(c.delivered, sorted, |e.beh.sends|);
    }
  }

  lemma KeepsPassEnd(s: State, id: RequestId)
    requires Inv(s) && CanVisit(s, id) && s.calls[id].phase.todo == []
    ensures Inv(ApplyVisit(s, id))
  {
    var c := s.calls[id];
    assert CallOk(s, id, c);
    if c.phase.Drain? {
      var d := c.(phase := Consume(c.phase.res), delivered := Deliver(c.delivered, SortBySeq(c.phase.pending)));
      DrainEnds(s, id);
      DeliverReaches(c.delivered, SortBySeq(c.phase.pending), 0);
      assert AllDelivered(s, d, c.phase.res);
      ClientMove(s, id, d);
    } else {
      ClientMove(s, id, c.(phase := Check));
    }
  }

  predicate OwnChunk(s: State, id: RequestId, k: Key)
    requires id in s.calls
  {
    k.Chk? && k.to == s.calls[id].req.from && k.id == id && k in s.net && s.net[k].ChunkObj?
  }

  lemma KeepsDeliver(s: State, id: RequestId)
    requires Inv(s) && CanVisit(s, id) && s.calls[id].phase.Scan? && s.calls[id].phase.todo != []
    requires var k := s.calls[id].phase.todo[0]; OwnChunk(s, id, k) && s.net[k].seq_ == |s.calls[id].delivered|
    ensures Inv(ApplyVisit(s, id))
  {
    var c := s.calls[id];
    var k := c.phase.todo[0];
    assert CallOk(s, id, c) && EntryOk(s, k, s.net[k]);
    ClientMove(s, id, c.(phase := Scan(c.phase.todo[1..], Some(k)), delivered := c.delivered + [s.net[k].payload]));
  }

  lemma KeepsSkip(s: State, id: RequestId)
    requires Inv(s) && CanVisit(s, id) && s.calls[id].phase.todo != []
    requires s.calls[id].phase.Drain? ==> !OwnChunk(s, id, s.calls[id].phase.todo[0])
    ensures Inv(SkipKey(s, id, s.calls[id].phase.todo[1..]))
  {
    var c := s.calls[id];
    var rest := c.phase.todo[1..];
    assert CallOk(s, id, c);
    if c.phase.Drain? {
      SkipDrain(s, id);
      ClientMove(s, id, c.(phase := Drain(c.phase.res, rest, c.phase.pending, None)));
    } else {
      ClientMove(s, id, c.(phase := Scan(rest, None)));
    }
  }

  /** A skipped key of a drain is no chunk of this call. */
  lemma SkipDrain(s: State, id: RequestId)
    requires Inv(s) && CanVisit(s, id) && s.calls[id].phase.Drain? && s.calls[id].phase.todo != []
    requires !OwnChunk(s, id, s.calls[id].phase.todo[0])
    ensures var c := s.calls[id]; var rest := c.phase.todo[1..];
            DrainOk(s, c.(phase := Drain(c.phase.res, rest, c.phase.pending, None)), c.phase.res, rest)
  {
    var c := s.calls[id];
    var k, rest := c.phase.todo[0], c.phase.todo[1..];
    var c' := c.(phase := Drain(c.phase.res, rest, c.phase.pending, None));
    assert CallOk(s, id, c);
    var e :| Ran(s, id, e) && Answers(e, c.phase.res) &&
      (c.phase.res.ok ==> forall q: nat :: q < |e.beh.sends| ==>
        q < |c.delivered| || InPending(c.phase, q) || InListing(s, c, c.phase.todo, q));
    forall q: nat | c.phase.res.ok && q < |e.beh.sends|
      ensures q < |c'.delivered| || InPending(c'.phase, q) || InListing(s, c', rest, q)
    {
      if InListing(s, c, c.phase.todo, q) {
        var x := Chk(c.req.from, id, q);
        assert EntryOk(s, x, s.net[x]);
        assert x != k;
        assert InListing(s, c', rest, q);
      }
    }
  }

  /** The call after a drain took the first listed chunk. */
  function WithChunk(s: State, id: RequestId): Call
    requires CanVisit(s, id) && s.calls[id].phase.Drain? && s.calls[id].phase.todo != []
    requires OwnChunk(s, id, s.calls[id].phase.todo[0])
  {
    var c := s.calls[id];
    var k := c.phase.todo[0];
    c.(phase := Drain(c.phase.res, c.phase.todo[1..], c.phase.pending + [(s.net[k].seq_, s.net[k].payload)], Some(k)))
  }

  lemma DrainedPending(s: State, id: RequestId)
    requires Inv(s) && CanVisit(s, id) && s.calls[id].phase.Drain? && s.calls[id].phase.todo != []
    requires OwnChunk(s, id, s.calls[id].phase.todo[0])
    ensures var p, p' := s.calls[id].phase.pending, WithChunk(s, id).phase.pending;
            && (forall q: nat :: Has(p, q) ==> Has(p', q))
            && Has(p', s.calls[id].phase.todo[0].seq_)
            && (forall j :: 0 <= j < |p'| ==> SentBy(s, id, p'[j].0, p'[j].1))
  {
    var c := s.calls[id];
    var k, p, p' := c.phase.todo[0], c.phase.pending, WithChunk(s, id).phase.pending;
    assert CallOk(s, id, c) && EntryOk(s, k, s.net[k]);
    assert p'[|p|].0 == k.seq_;
    forall q: nat | Has(p, q) ensures Has(p', q) {
      var j :| 0 <= j < |p| && p[j].0 == q;
      assert p'[j].0 == q;
    }
  }

  /** A taken chunk moves from the listing to the pending ones. */
  lemma DrainedStays(s: State, id: RequestId)
    requires Inv(s) && CanVisit(s, id) && s.calls[id].phase.Drain? && s.calls[id].phase.todo != []
    requires OwnChunk(s, id, s.calls[id].phase.todo[0])
    ensures var d := WithChunk(s, id); DrainOk(s, d, d.phase.res, d.phase.todo)
  {
    var c, d := s.calls[id], WithChunk(s, id);
    assert CallOk(s, id, c);
    DrainedPending(s, id);
    var e :| Ran(s, id, e) && Answers(e, c.phase.res) &&
      (c.phase.res.ok ==> forall q: nat :: q < |e.beh.sends| ==>
        q < |c.delivered| || InPending(c.phase, q) || InListing(s, c, c.phase.todo, q));
    forall q: nat | c.phase.res.ok && q < |e.beh.sends|
      ensures q < |d.delivered| || InPending(d.phase, q) || InListing(s, d, d.phase.todo, q)
    {
      assert InPending(c.phase, q) ==> InPending(d.phase, q);
    }
  }

  lemma KeepsTake(s: State, id: RequestId)
    requires Inv(s) && CanVisit(s, id) && s.calls[id].phase.Drain? && s.calls[id].phase.todo != []
    requires OwnChunk(s, id, s.calls[id].phase.todo[0])
    ensures Inv(ApplyVisit(s, id))
  {
    assert CallOk(s, id, s.calls[id]);
    DrainedPending(s, id);
    DrainedStays(s, id);
    ClientMove(s, id, WithChunk(s, id));
  }

  lemma KeepsVisit(s: State, id: RequestId)
    requires Inv(s) && CanVisit(s, id)
    ensures Inv(ApplyVisit(s, id))
  {
    var c := s.calls[id];
    if c.phase.todo == [] {
      KeepsPassEnd(s, id);
    } else if !OwnChunk(s, id, c.phase.todo[0]) {
      KeepsSkip(s, id);
    } else if c.phase.Drain? {
      KeepsTake(s, id);
    } else if s.net[c.phase.todo[0]].seq_ != |c.delivered| {
      KeepsSkip(s, id);
    } else {
      KeepsDeliver(s, id);
    }
  }

  lemma KeepsDelete(s: State, id: RequestId, works: bool)
    requires Inv(s) && CanDelete(s, id)
    ensures Inv(ApplyDelete(s, id, works))
  {
    var c := s.calls[id];
    assert CallOk(s, id, c);
    if works { ClientDelete(s, id, c.phase.del.value); }
    var t := if works then s.(net := s.net - {c.phase.del.value}) else s;
    assert CallOk(t, id, c);
    var d := c.(phase := c.phase.(del := None));
    if c.phase.Drain? { DrainForgets(t, id, c, d); }
    ClientMove(t, id, d);
  }

  /** A drain that has deleted a chunk goes on as before. */
  lemma DrainForgets(t: State, id: RequestId, c: Call, d: Call)
    requires c.phase.Drain? && c.req.id == id && DrainOk(t, c, c.phase.res, c.phase.todo)
    requires d == c.(phase := Drain(c.phase.res, c.phase.todo, c.phase.pending, None))
    ensures DrainOk(t, d, c.phase.res, c.phase.todo)
  {
    assert forall q: nat :: InPending(c.phase, q) ==> InPending(d.phase, q);
    var e :| Ran(t, id, e) && Answers(e, c.phase.res) &&
      (c.phase.res.ok ==> forall q: nat :: q < |e.beh.sends| ==>
        q < |c.delivered| || InPending(c.phase, q) || InListing(t, c, c.phase.todo, q));
    assert forall q: nat :: InListing(t, c, c.phase.todo, q) ==> InListing(t, d, c.phase.todo, q);
  }

  lemma KeepsSettle(s: State, id: RequestId, works: bool)
    requires Inv(s) && CanSettle(s, id)
    ensures Inv(ApplySettle(s, id, works))
  {
    var c := s.calls[id];
    var res := c.phase.res;
    if works { ClientDelete(s, id, Fin(c.req.from, id)); }
    var t := if works then s.(net := s.net - {Fin(c.req.from, id)}) else s;
    assert CallOk(t, id, c);
    var d := c.(phase := Finished(if res.ok then Good(res.payload) else Bad(res.error)));
    var e :| Ran(t, id, e) && Answers(e, res) && (res.ok && c.req.stream ==> |e.beh.sends| <= |c.delivered|);
    assert ResponseFor(id, d.phase.result) == res;
    assert AllDelivered(t, d, res);
    ClientMove(t, id, d);
  }

  // Server steps

  /** `t` differs from `s` in the job of `pid`, the entries `ks` it pushed, the
      requests it deleted and the executions it started. */
  ghost predicate ServerStep(s: State, t: State, pid: Pid, ks: set<Key>) {
    && t.calls == s.calls
    && (forall p :: p in s.servers ==> p in t.servers && t.servers[p].device == s.servers[p].device)
    && (forall p :: p in t.servers && p != pid ==> p in s.servers && t.servers[p] == s.servers[p])
    && (forall e :: e in s.execs ==> e in t.execs)
    && (forall k :: k in t.net && k !in ks ==> k in s.net && t.net[k] == s.net[k])
    && (forall k :: k in s.net && !k.Req? ==> k in t.net)
  }

  lemma ServerStepGrows(s: State, t: State, pid: Pid, ks: set<Key>)
    requires ServerStep(s, t, pid, ks)
    ensures Grows(s, t)
  {
    forall i, q: nat | Avail(s, i, q) ensures Avail(t, i, q) {
    }
  }

  lemma ServerStepInv(s: State, t: State, pid: Pid, ks: set<Key>)
    requires Inv(s) && ServerStep(s, t, pid, ks)
    requires forall k :: k in ks && k in t.net ==> EntryOk(t, k, t.net[k])
    requires pid in t.servers ==> JobOk(t, pid, t.servers[pid].job)
    requires forall e :: e in t.execs ==> e in s.execs || ExecOk(t, e)
    ensures Inv(t)
  {
    ServerStepGrows(s, t, pid, ks);
    Assemble(s, t, ks, {}, {pid});
  }

  /** Steps in which a server only moves on within, to or from its own pass. */
  lemma KeepsServerLocal(s: State, t: State, pid: Pid)
    requires Inv(s) && ServerStep(s, t, pid, {}) && t.execs == s.execs && pid in t.servers
    requires JobOk(s, pid, t.servers[pid].job)
    ensures Inv(t)
  {
    ServerStepGrows(s, t, pid, {});
    JobGrows(s, t, pid, t.servers[pid].job);
    ServerStepInv(s, t, pid, {});
  }

  lemma KeepsStreaming(s: State, a: Action)
    requires Inv(s) && Enabled(s, a) && (a.HandlerSend? || a.HandlerReturn? || a.EndStream?)
    ensures Inv(Apply(s, a))
  {
    var j := s.servers[a.pid].job;
    assert JobOk(s, a.pid, j);
    if a.EndStream? { assert Complete(s, j.run); }
    KeepsServerLocal(s, Apply(s, a), a.pid);
  }

  lemma KeepsPushFails(s: State, pid: Pid, id: RequestId)
    requires Inv(s) && pid in s.servers
    ensures Inv(SetJob(s.(failures := s.failures + [(pid, id)]), pid, Idle))
  {
    KeepsServerLocal(s, SetJob(s.(failures := s.failures + [(pid, id)]), pid, Idle), pid);
  }

  lemma KeepsClean(s: State, pid: Pid, works: bool)
    requires Inv(s) && pid in s.servers && s.servers[pid].job.Cleaning?
    ensures Inv(ApplyClean(s, pid, works))
  {
    KeepsServerLocal(s, ApplyClean(s, pid, works), pid);
  }

  lemma KeepsSpawn(s: State, pid: Pid, v: Server)
    requires Inv(s) && pid !in s.servers && v.job.Idle?
    ensures Inv(s.(servers := s.servers[pid := v]))
  {
    KeepsServerLocal(s, s.(servers := s.servers[pid := v]), pid);
  }

  lemma KeepsPass(s: State, pid: Pid, j: Job)
    requires Inv(s) && pid in s.servers && (j.Idle? || j.Pass? || j.Cleaning?)
    ensures Inv(SetJob(s, pid, j))
  {
    KeepsServerLocal(s, SetJob(s, pid, j), pid);
  }

  lemma KeepsStart(s: State, rest: seq<Key>, e: Execution)
    requires Inv(s) && ExecOk(s, e)
    ensures Inv(Start(s, rest, e))
  {
    var t := Start(s, rest, e);
    assert forall x :: x in t.execs ==> x in s.execs || x == e;
    assert e in t.execs;
    ServerStepGrows(s, t, e.pid, {});
    ServerStepInv(s, t, e.pid, {});
  }

  lemma KeepsFetch(s: State, pid: Pid, clock: nat, beh: Behaviour)
    requires Inv(s) && pid in s.servers && s.servers[pid].job.Pass?
    ensures Inv(ApplyFetch(s, pid, clock, beh))
  {
    var v := s.servers[pid];
    if v.job.todo == [] {
      KeepsPass(s, pid, Idle);
    } else {
      var k, rest := v.job.todo[0], v.job.todo[1..];
      KeepsPass(s, pid, Pass(rest));
      KeepsPass(s, pid, Cleaning(rest, k.id));
      if k.Req? && k.to == v.device && k in s.net && s.net[k].ReqObj? {
        if !(s.net[k].req.expires > 0 && clock > s.net[k].req.expires) {
          FetchedOk(s, pid, k, clock, beh);
          KeepsStart(s, rest, Execution(pid, s.net[k].req, clock, beh));
        }
      }
    }
  }

  /** What is about to be executed was issued to this device and has not expired. */
  lemma FetchedOk(s: State, pid: Pid, k: Key, clock: nat, beh: Behaviour)
    requires Inv(s) && pid in s.servers && k.Req? && k.to == s.servers[pid].device && k in s.net && s.net[k].ReqObj?
    requires !(s.net[k].req.expires > 0 && clock > s.net[k].req.expires)
    ensures ExecOk(s, Execution(pid, s.net[k].req, clock, beh))
  {
    assert EntryOk(s, k, s.net[k]);
    assert CallOk(s, k.id, s.calls[k.id]);
  }

  lemma KeepsPushChunk(s: State, pid: Pid)
    requires Inv(s) && CanPushChunk(s, pid)
    ensures Inv(ApplyPushChunk(s, pid))
  {
    var t := ApplyPushChunk(s, pid);
    var j := s.servers[pid].job;
    assert JobOk(s, pid, j) && ExecOk(s, j.run);
    var k := Chk(j.run.req.from, j.run.req.id, j.pushed);
    PushedEntry(s, t, j.run, j.pushed);
    PushedJob(s, t, pid, k);
    ServerStepInv(s, t, pid, {k});
  }

  lemma PushedEntry(s: State, t: State, run: Execution, n: nat)
    requires ExecOk(s, run) && run in s.execs && n < |run.beh.sends| && t.calls == s.calls && t.execs == s.execs
    ensures EntryOk(t, Chk(run.req.from, run.req.id, n), ChunkObj(n, run.beh.sends[n]))
  {
    assert Ran(t, run.req.id, run);
  }

  /** The chunk just pushed can now reach the caller. */
  lemma PushedJob(s: State, t: State, pid: Pid, k: Key)
    requires CanPushChunk(s, pid) && t == ApplyPushChunk(s, pid) && JobOk(s, pid, s.servers[pid].job)
    requires var j := s.servers[pid].job; ExecOk(s, j.run) && k == Chk(j.run.req.from, j.run.req.id, j.pushed)
    ensures JobOk(t, pid, t.servers[pid].job)
  {
    ServerStepGrows(s, t, pid, {k});
  }

  lemma KeepsPushFinal(s: State, pid: Pid)
    requires Inv(s) && pid in s.servers && s.servers[pid].job.Closing?
    ensures Inv(ApplyPushFinal(s, pid))
  {
    var t := ApplyPushFinal(s, pid);
    var j := s.servers[pid].job;
    assert JobOk(s, pid, j) && ExecOk(s, j.run);
    var k := Fin(j.run.req.from, j.run.req.id);
    ServerStepGrows(s, t, pid, {k});
    assert Ran(t, j.run.req.id, j.run);
    ServerStepInv(s, t, pid, {k});
  }

  lemma KeepsClientAction(s: State, a: Action)
    requires Inv(s) && Enabled(s, a)
    requires a.Poll? || a.List? || a.Visit? || a.Delete? || a.PullFinal? || a.Settle? || a.GiveUp?
    ensures Inv(Apply(s, a))
  {
    match a
    case Poll(id) => KeepsPullFinal(s, id);
    case List(id, keys) => KeepsList(s, id, keys);
    case Visit(id) => KeepsVisit(s, id);
    case Delete(id, works) => KeepsDelete(s, id, works);
    case PullFinal(id) => KeepsPullFinal(s, id);
    case Settle(id, works) => KeepsSettle(s, id, works);
    case GiveUp(id) => KeepsGiveUp(s, id);
  }

  lemma KeepsInv(s: State, a: Action)
    requires Inv(s) && Enabled(s, a)
    ensures Inv(Apply(s, a))
  {
    match a
    case Issue(_, _, _, _, _, _, _) => KeepsIssue(s, a);
    case Fetch(pid, clock, beh) => KeepsFetch(s, pid, clock, beh);
    case PushChunk(pid) => KeepsPushChunk(s, pid);
    case PushFinal(pid) => KeepsPushFinal(s, pid);
    case HandlerSend(_) => KeepsStreaming(s, a);
    case HandlerReturn(_) => KeepsStreaming(s, a);
    case EndStream(_) => KeepsStreaming(s, a);
    case Spawn(pid, device) => KeepsSpawn(s, pid, Server(device, {}, Idle));
    case ServeList(pid, keys) => KeepsPass(s, pid, Pass(keys));
    case PushFails(pid) => KeepsPushFails(s, pid, s.servers[pid].job.run.req.id);
    case Clean(pid, works) => KeepsClean(s, pid, works);
    case Abort(pid) => KeepsPass(s, pid, Idle);
    case _ => KeepsClientAction(s, a);
  }

  lemma {:induction false} RunKeepsInv(s: State, actions: seq<Action>)
    requires Inv(s) && Run(s, actions).Some?
    ensures Inv(Run(s, actions).value)
    decreases |actions|
  {
    if actions != [] {
      KeepsInv(s, actions[0]);
      RunKeepsInv(Apply(s, actions[0]), actions[1..]);
    }
  }
}
