/** Local loops of the broker client: choosing a peer from announced
    capabilities, and handing over the chunks of a drain. */
module BrokerPlacement {
  import opened Prelude
  import opened Broker

  // ----- drain ----------------------------------------------------------------

  /** The delivery loop at the end of a drain, over the sorted pending chunks. */
  method DeliverPending(delivered: seq<Bytes>, pending: seq<(nat, Bytes)>) returns (out: seq<Bytes>)
    ensures out == Deliver(delivered, SortBySeq(pending))
  {
    var sorted := SortBySeq(pending);
    out := delivered;
    var nextSeq := |delivered|;
    for i := 0 to |sorted|
      invariant nextSeq == |out|
      invariant Deliver(out, sorted[i..]) == Deliver(delivered, sorted)
    {
      assert sorted[i..][1..] == sorted[i + 1..];
      if sorted[i].0 != nextSeq { continue; }
      out := out + [sorted[i].1];
      nextSeq := nextSeq + 1;
    }
  }

  // ----- placement ------------------------------------------------------------

  datatype DeviceLoad = DeviceLoad(busy: nat, onBattery: Option<bool>, throttled: Option<bool>, ramBytes: nat,
    cores: nat)

  /** A decoded capability announcement; `device` is None when its id does not parse. */
  datatype Caps = Caps(version: nat, device: Option<DeviceId>, ops: seq<string>, ts: int, load: Option<DeviceLoad>)

  /** A listed object; `caps` is None when it is gone, unopenable or undecodable. */
  datatype Row = Row(key: string, tombstone: bool, caps: Option<Caps>)

  const CAP_PREFIX := "bcap/"
  const CAP_TTL := 300
  const GIB := 0x4000_0000

  function Score(l: DeviceLoad): int {
    l.ramBytes / GIB + l.cores * 2 - l.busy * 10
    - (if l.onBattery == Some(true) then 1000 else 0)
    - (if l.throttled == Some(true) then 500 else 0)
  }

  const NO_LOAD := DeviceLoad(0, None, None, 0, 0)

  predicate Eligible(r: Row, op: string, now: int) {
    && CAP_PREFIX <= r.key && !r.tombstone
    && r.caps.Some? && r.caps.value.version == 1 && op in r.caps.value.ops
    && now - r.caps.value.ts <= CAP_TTL
    && r.caps.value.device.Some?
  }

  function Rating(r: Row, weight: DeviceId -> int): int
    requires r.caps.Some? && r.caps.value.device.Some?
  {
    Score(match r.caps.value.load case None => NO_LOAD case Some(l) => l) + weight(r.caps.value.device.value)
  }

  /** `a` is at least as good as `b`: a greater rating, or an equal one and no greater id. */
  predicate NoWorse(a: (int, DeviceId), b: (int, DeviceId)) { a.0 > b.0 || (a.0 == b.0 && a.1 <= b.1) }

  predicate Candidate(r: Row, op: string, now: int, weight: DeviceId -> int, c: (int, DeviceId)) {
    Eligible(r, op, now) && c == (Rating(r, weight), r.caps.value.device.value)
  }

  /** The answer is an eligible row's device that no eligible row beats; None when there is none. */
  ghost predicate PeerAnswer(rows: seq<Row>, op: string, now: int, weight: DeviceId -> int,
                             best: Option<(int, DeviceId)>)
  {
    match best
    case None => forall r :: r in rows ==> !Eligible(r, op, now)
    case Some(b) =>
      && (exists r :: r in rows && Candidate(r, op, now, weight, b))
      && (forall r :: r in rows && Eligible(r, op, now) ==> NoWorse(b, (Rating(r, weight), r.caps.value.device.value)))
  }

  /** `peer` is the device of such an answer. */
  ghost predicate IsPeer(rows: seq<Row>, op: string, now: int, weight: DeviceId -> int, peer: Option<DeviceId>) {
    match peer
    case None => PeerAnswer(rows, op, now, weight, None)
    case Some(d) => exists score: int :: PeerAnswer(rows, op, now, weight, Some((score, d)))
  }

  method FindPeer(rows: seq<Row>, op: string, now: int, weight: DeviceId -> int) returns (peer: Option<DeviceId>)
    ensures IsPeer(rows, op, now, weight, peer)
  {
    var best: Option<(int, DeviceId)> := None;
    for i := 0 to |rows|
      invariant PeerAnswer(rows[..i], op, now, weight, best)
    {
      var r := rows[i];
      assert rows[..i + 1] == rows[..i] + [r];
      if !Eligible(r, op, now) { continue; }
      var dev := r.caps.value.device.value;
      var score := Rating(r, weight);
      var better := match best
                    case None => true
                    case Some(b) => score > b.0 || (score == b.0 && dev < b.1);
      if better {
        assert Candidate(r, op, now, weight, (score, dev));
        best := Some((score, dev));
      }
    }
    assert rows[..|rows|] == rows;
    peer := match best case None => None case Some(b) => Some(b.1);
  }

  lemma AnswersAgree(rows: seq<Row>, rows': seq<Row>, op: string, now: int, weight: DeviceId -> int,
                     a: Option<(int, DeviceId)>, a': Option<(int, DeviceId)>)
    requires multiset(rows) == multiset(rows')
    requires PeerAnswer(rows, op, now, weight, a) && PeerAnswer(rows', op, now, weight, a')
    ensures a == a'
  {
    assert forall r :: r in rows <==> r in multiset(rows);
    assert forall r :: r in rows' <==> r in multiset(rows');
    assert forall r :: r in rows <==> r in rows';
    if a.Some? && a'.Some? {
      var r :| r in rows && Candidate(r, op, now, weight, a.value);
      var r' :| r' in rows' && Candidate(r', op, now, weight, a'.value);
      assert r in rows' && r' in rows;
    }
  }

  lemma AnswerOf(rows: seq<Row>, op: string, now: int, weight: DeviceId -> int, peer: Option<DeviceId>)
    returns (a: Option<(int, DeviceId)>)
    requires IsPeer(rows, op, now, weight, peer)
    ensures PeerAnswer(rows, op, now, weight, a) && peer == match a case None => None case Some(b) => Some(b.1)
  {
    match peer
    case None => a := None;
    case Some(d) =>
      var score: int :| PeerAnswer(rows, op, now, weight, Some((score, d)));
      a := Some((score, d));
  }

  /** Callers that see the same objects with the same weights, in whatever order, agree
      on the peer. */
  lemma PeersAgree(rows: seq<Row>, rows': seq<Row>, op: string, now: int, weight: DeviceId -> int,
                   peer: Option<DeviceId>, peer': Option<DeviceId>)
    requires multiset(rows) == multiset(rows')
    requires IsPeer(rows, op, now, weight, peer) && IsPeer(rows', op, now, weight, peer')
    ensures peer == peer'
  {
    var a := AnswerOf(rows, op, now, weight, peer);
    var a' := AnswerOf(rows', op, now, weight, peer');
    AnswersAgree(rows, rows', op, now, weight, a, a');
  }

  // ----- what the score prefers ------------------------------------------------

  /** The same device in a worse position: more calls in flight, unplugged, or throttled. */
  predicate WorseOff(a: DeviceLoad, b: DeviceLoad) {
    || (b == a.(busy := b.busy) && b.busy > a.busy)
    || (b == a.(onBattery := Some(true)) && a.onBattery != Some(true))
    || (b == a.(throttled := Some(true)) && a.throttled != Some(true))
  }

  /** With other fields equal, a busier, unplugged or throttled device scores lower, one
      with more cores higher, one with more memory no lower; unknown states count as good. */
  lemma Prefers(a: DeviceLoad, b: DeviceLoad)
    ensures WorseOff(a, b) ==> Score(b) < Score(a)
    ensures b == a.(cores := b.cores) && b.cores > a.cores ==> Score(b) > Score(a)
    ensures b == a.(ramBytes := b.ramBytes) && b.ramBytes > a.ramBytes ==> Score(b) >= Score(a)
    ensures b == a.(onBattery := None) && a.onBattery == Some(false) ==> Score(b) == Score(a)
    ensures b == a.(throttled := None) && a.throttled == Some(false) ==> Score(b) == Score(a)
  {
  }

  /** The row the chosen device was taken from: no eligible row is rated higher. */
  lemma ChosenRow(rows: seq<Row>, op: string, now: int, weight: DeviceId -> int, d: DeviceId) returns (r: Row)
    requires IsPeer(rows, op, now, weight, Some(d))
    ensures r in rows && Eligible(r, op, now) && r.caps.value.device == Some(d)
    ensures forall t :: t in rows && Eligible(t, op, now) ==> Rating(t, weight) <= Rating(r, weight)
  {
    var best := AnswerOf(rows, op, now, weight, Some(d));
    r :| r in rows && Candidate(r, op, now, weight, best.value);
  }

  /** A device that is worse off than another with the same weight is never chosen. */
  lemma WorseNeverChosen(rows: seq<Row>, op: string, now: int, weight: DeviceId -> int, d: DeviceId, a: Row, b: Row)
    requires IsPeer(rows, op, now, weight, Some(d))
    requires a in rows && b in rows && Eligible(a, op, now) && Eligible(b, op, now)
    requires a.caps.value.load.Some? && b.caps.value.load.Some?
    requires WorseOff(a.caps.value.load.value, b.caps.value.load.value)
    requires weight(a.caps.value.device.value) == weight(b.caps.value.device.value)
    requires forall r :: r in rows && Eligible(r, op, now) && r.caps.value.device == b.caps.value.device ==> r == b
    ensures d != b.caps.value.device.value
  {
    var r := ChosenRow(rows, op, now, weight, d);
    Prefers(a.caps.value.load.value, b.caps.value.load.value);
    assert Rating(b, weight) < Rating(a, weight) <= Rating(r, weight);
  }

  /** The chosen device announced the operation itself, in this version of the format and at
      most five minutes ago, and the announcement stands; none is chosen only if nobody did. */
  lemma PeerServes(rows: seq<Row>, op: string, now: int, weight: DeviceId -> int, peer: Option<DeviceId>)
    requires IsPeer(rows, op, now, weight, peer)
    ensures peer.Some? ==> exists r :: r in rows && Announces(r, op, now, peer.value)
    ensures peer.None? ==> forall r, d :: r in rows ==> !Announces(r, op, now, d)
  {
    match peer
    case Some(d) =>
      var r := ChosenRow(rows, op, now, weight, d);
      assert Announces(r, op, now, d);
    case None =>
      forall r, d | r in rows ensures !Announces(r, op, now, d) { assert !Eligible(r, op, now); }
  }

  /** A standing, readable announcement by `d`. */
  predicate Announces(r: Row, op: string, now: int, d: DeviceId) {
    match r.caps
    case None => false
    case Some(c) =>
      "bcap/" <= r.key && !r.tombstone && c.version == 1 && op in c.ops && now <= c.ts + 300 && c.device == Some(d)
  }

  /** An idle device on wall power against an unplugged one: the unplugged one loses exactly
      if its memory in GiB, twice its cores and the thousand points it is fined do not make up for it. */
  lemma BatteryDominatesExactly(a: DeviceLoad, b: DeviceLoad)
    requires a.busy == 0 && a.onBattery != Some(true) && a.throttled != Some(true)
    requires b.onBattery == Some(true) && b.throttled != Some(true)
    ensures Score(b) < Score(a) <==>
      b.ramBytes / 1073741824 + 2 * b.cores < a.ramBytes / 1073741824 + 2 * a.cores + 10 * b.busy + 1000
  {
  }

  /** So battery state does not always dominate: an unplugged device with 1 TiB of memory
      beats an idle one on wall power with 4 GiB. */
  lemma BatteryDoesNotDominate() returns (a: DeviceLoad, b: DeviceLoad)
    ensures a.busy == 0 && a.onBattery == Some(false) && a.throttled == Some(false) && b.onBattery == Some(true)
    ensures Score(b) > Score(a)
  {
    a := DeviceLoad(0, Some(false), Some(false), 4 * 1073741824, 4);
    b := DeviceLoad(0, Some(true), Some(false), 1024 * 1073741824, 16);
  }
}
