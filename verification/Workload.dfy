/** How much work the messages on their way can still cause. Without new payloads and new challenges every step
    of a thread except a fruitless scan uses some of it up, so the two peers always come to rest. */
module Workload {
  import opened Basics
  import opened Wire
  import opened Credentials
  import opened Peers
  import opened Network
  import opened ChallengeInvariant
  import Base64

  /** A request leads to an installation, a save and an answer, a ping to an answer. */
  function InLoad(m: Message): nat {
    match m
    case ChangePwdRequest(_, _) => 7
    case Ping(_) => 5
    case _ => 2
  }

  function DataLoad(data: seq<Sealed>): nat {
    if data == [] then 0 else InLoad(data[0].body) + DataLoad(data[1..])
  }

  function OutLoad(o: Outgoing): nat {
    if o.Ready? then 2 + DataLoad(o.envelope.data) else 2 + InLoad(o.body)
  }

  function InSum(inq: seq<Incoming>): nat {
    if inq == [] then 0 else InLoad(inq[0].body) + InSum(inq[1..])
  }

  function OutSum(sendq: seq<Outgoing>): nat {
    if sendq == [] then 0 else OutLoad(sendq[0]) + OutSum(sendq[1..])
  }

  function WireSum(w: seq<Envelope>): nat {
    if w == [] then 0 else 1 + DataLoad(w[0].data) + WireSum(w[1..])
  }

  function PhaseLoad(phase: Phase): nat {
    match phase
    case Generated(_) => 16
    case Stored(_) => 15
    case Installed(_) => 6
    case Committed(_) => 5
    case Switched => 1
    case Idle => 0
  }

  /** With the one AllClear the peer may still announce. */
  function PeerLoad(p: Peer): nat {
    PhaseLoad(p.phase) + (if p.allClearSent then 0 else 4) + OutSum(p.sendq) + InSum(p.inq)
  }

  function WorkLeft(n: Net): nat
    requires GoodChannel(n.fromLeft) && GoodChannel(n.fromRight)
  {
    PeerLoad(n.left) + PeerLoad(n.right) + WireSum(InFlight(n.fromLeft)) + WireSum(InFlight(n.fromRight))
  }

  lemma {:induction false} OutAppend(a: seq<Outgoing>, b: seq<Outgoing>)
    ensures OutSum(a + b) == OutSum(a) + OutSum(b)
  {
    if a == [] { assert a + b == b; } else { assert (a + b)[1..] == a[1..] + b; OutAppend(a[1..], b); }
  }

  lemma {:induction false} InAppend(a: seq<Incoming>, b: seq<Incoming>)
    ensures InSum(a + b) == InSum(a) + InSum(b)
  {
    if a == [] { assert a + b == b; } else { assert (a + b)[1..] == a[1..] + b; InAppend(a[1..], b); }
  }

  lemma {:induction false} WireAppend(a: seq<Envelope>, b: seq<Envelope>)
    ensures WireSum(a + b) == WireSum(a) + WireSum(b)
  {
    if a == [] { assert a + b == b; } else { assert (a + b)[1..] == a[1..] + b; WireAppend(a[1..], b); }
  }

  lemma OutOne(sendq: seq<Outgoing>, o: Outgoing)
    ensures OutSum(sendq + [o]) == OutSum(sendq) + OutLoad(o)
  {
    OutAppend(sendq, [o]);
    assert [o][1..] == [];
  }

  /** Opening an envelope never makes more work than it carried. */
  lemma {:induction false} OpenedLoad(login: Login, data: seq<Sealed>, key: Key)
    ensures InSum(Internal(login, Opened(data, key))) <= DataLoad(data)
  {
    if data != [] {
      OpenedLoad(login, data[1..], key);
      var rest := Opened(data[1..], key);
      if data[0].key == key {
        var list := [data[0].body] + rest;
        assert list[1..] == rest;
        var more := if list[0].Application? then [] else [Incoming(login, list[0])];
        InAppend(more, Internal(login, rest));
        assert more != [] ==> more[1..] == [];
      } else {
        assert [] + rest == rest;
      }
    }
  }

  // ----------------------------------------------------------------------- steps

  lemma ScanLoad(p: Peer, now: int, candidate: Bytes)
    requires Active(p.ctx) || DueLogin(p.mem.order, p.mem.to, now).None?
    ensures PeerLoad(Begin(p, now, candidate)) <= PeerLoad(p)
  {
    hide DueLogin;
    OutOne(p.sendq, ToSeal(None, AllClear));
  }

  lemma SaveLoad(p: Peer)
    requires CanSave(p)
    ensures PeerLoad(SaveStep(p)) < PeerLoad(p)
  {}

  lemma EmitLoad(p: Peer, m1: nat, m2: nat)
    requires CanEmit(p)
    ensures PeerLoad(EmitStep(p, m1, m2)) < PeerLoad(p)
  {
    hide Base64.Encode, SealKey;
    var o := EmitStep(p, m1, m2).sendq[|p.sendq|];
    OutOne(p.sendq, o);
    if p.phase.Stored? {
      TwoLoad(o.envelope.data);
    }
  }

  lemma TwoLoad(data: seq<Sealed>)
    requires |data| == 2
    ensures DataLoad(data) == InLoad(data[0].body) + InLoad(data[1].body)
  {
    assert DataLoad(data) == InLoad(data[0].body) + DataLoad(data[1..]);
    assert data[1..][0] == data[1] && data[1..][1..] == [];
  }

  lemma ProcessLoad(p: Peer, now: int)
    requires p.inq != [] && p.phase.Idle?
    ensures PeerLoad(Peers.Process(p, now)) < PeerLoad(p)
  {
    hide Handle, PeerLoad, InLoad;
    var x, q := p.inq[0], p.(inq := p.inq[1..]);
    PopLoad(p, q);
    match x.body
    case ChangePwdRequest(m, text) => RequestLoad(q, x.login, m, text, now);
    case Ping(m) => PingLoad(q, x.login, m, now);
    case _ => PlainLoad(q, x.login, x.body, now);
  }

  lemma PopLoad(p: Peer, q: Peer)
    requires p.inq != [] && q == p.(inq := p.inq[1..])
    ensures PeerLoad(p) == PeerLoad(q) + InLoad(p.inq[0].body)
  {}

  lemma RequestLoad(p: Peer, l: Login, m: nat, text: string, now: int)
    requires p.phase.Idle?
    ensures PeerLoad(Handle(p, l, ChangePwdRequest(m, text), now)) < PeerLoad(p) + InLoad(ChangePwdRequest(m, text))
  {
    hide OnRequest, OutSum, InSum;
    RequestEffect(p, l, m, text, now);
    RequestBoth(p, l, m, text, now);
    OutOne(p.sendq, ToSeal(None, ChangePwdResponse(m, false)));
  }

  lemma PingLoad(p: Peer, l: Login, m: nat, now: int)
    ensures PeerLoad(Handle(p, l, Ping(m), now)) < PeerLoad(p) + InLoad(Ping(m))
  {
    hide OutSum, InSum;
    OutOne(p.sendq, ToSeal(None, Pong(m)));
  }

  lemma PlainLoad(p: Peer, l: Login, body: Message, now: int)
    requires p.phase.Idle? && !body.ChangePwdRequest? && !body.Ping?
    ensures PeerLoad(Handle(p, l, body, now)) < PeerLoad(p) + InLoad(body)
  {
    hide OutSum, InSum;
  }

  /** A request is refused with an answer or installed without one. */
  lemma RequestBoth(p: Peer, l: Login, m: nat, text: string, now: int)
    requires p.phase.Idle?
    ensures OnRequest(p, l, m, text, now).phase.Idle? || OnRequest(p, l, m, text, now).sendq == p.sendq
  {
    hide Busy, GuardAccepts, Base64.Decode;
  }

  lemma OneEnvelope(e: Envelope)
    ensures WireSum([e]) == 1 + DataLoad(e.data)
  {
    assert [e][1..] == [];
  }

  lemma OneLoad(data: seq<Sealed>)
    requires |data| == 1
    ensures DataLoad(data) == InLoad(data[0].body)
  {
    assert data[1..] == [];
  }

  lemma TransmitLoad(p: Peer, w: seq<Envelope>, late: bool)
    requires p.sendq != []
    ensures PeerLoad(p.(sendq := p.sendq[1..])) + WireSum(WithSent(w, Sent(p, p.sendq[0], late))) < PeerLoad(p) + WireSum(w)
  {
    hide SealKey;
    var e := Sent(p, p.sendq[0], late);
    if e.Some? {
      WireAppend(w, [e.value]);
      OneEnvelope(e.value);
      if p.sendq[0].ToSeal? { OneLoad(e.value.data); }
    }
  }

  lemma ReceiveLoad(p: Peer, v: seq<Envelope>, late: bool)
    requires v != []
    ensures PeerLoad(Peers.Receive(p, v[0], late)) + WireSum(v[1..]) < PeerLoad(p) + WireSum(v)
  {
    hide OpenKey;
    var e := v[0];
    if e.login in p.mem.from {
      var list := Opened(e.data, OpenKey(p, e.login, late));
      OpenedLoad(e.login, e.data, OpenKey(p, e.login, late));
      InAppend(p.inq, Internal(e.login, list));
    }
  }

  /** A scan that finds nothing to begin with. */
  predicate Fruitless(p: Peer, now: int) {
    Active(p.ctx) || DueLogin(p.mem.order, p.mem.to, now).None?
  }

  /** The steps of the threads, among them the scans that start no challenge. */
  predicate ThreadStep(n: Net, a: Label) {
    a.Process? || a.Save? || a.Emit? || a.Transmit? || a.Receive? || (a.Scan? && Fruitless(n.At(a.side), a.now))
  }

  lemma OnTheWire(c: Channel, e: Option<Envelope>)
    requires GoodChannel(c)
    ensures GoodChannel(PutOnWire(c, e)) && InFlight(PutOnWire(c, e)) == WithSent(InFlight(c), e)
  {}

  lemma OffTheWire(c: Channel)
    requires c.taken < |c.log|
    ensures GoodChannel(c.(taken := c.taken + 1)) && InFlight(c)[0] == c.log[c.taken]
    ensures InFlight(c.(taken := c.taken + 1)) == InFlight(c)[1..]
  {}

  predicate GoodChannels(n: Net) {
    GoodChannel(n.fromLeft) && GoodChannel(n.fromRight)
  }

  lemma StepLoad(n: Net, a: Label)
    requires GoodChannels(n) && Enabled(n, a) && ThreadStep(n, a)
    ensures GoodChannels(Next(n, a)) && WorkLeft(Next(n, a)) <= WorkLeft(n)
    ensures !a.Scan? ==> WorkLeft(Next(n, a)) < WorkLeft(n)
  {
    hide PeerLoad, Begin, SaveStep, EmitStep, Peers.Process, Peers.Receive, Sent, CanSave, CanEmit, GoodCandidate,
         Fruitless;
    var s := a.side;
    var p := n.At(s);
    match a
    case Scan(_, now, candidate) => FruitlessLoad(p, now, candidate);
    case Process(_, now) => ProcessLoad(p, now);
    case Save(_) => SaveLoad(p);
    case Emit(_) => EmitLoad(p, n.nextId, n.nextId + 1);
    case Transmit(_, late) =>
      TransmitLoad(p, InFlight(n.From(s)), late);
      OnTheWire(n.From(s), Sent(p, p.sendq[0], late));
    case Receive(_, late) =>
      OffTheWire(n.From(Other(s)));
      ReceiveLoad(p, InFlight(n.From(Other(s))), late);
  }

  lemma FruitlessLoad(p: Peer, now: int, candidate: Bytes)
    requires Fruitless(p, now)
    ensures PeerLoad(Begin(p, now, candidate)) <= PeerLoad(p)
  {
    ScanLoad(p, now, candidate);
  }

  function Working(labels: seq<Label>): nat {
    if labels == [] then 0 else (if labels[|labels| - 1].Scan? then 0 else 1) + Working(labels[..|labels| - 1])
  }

  /** However the threads interleave and however often they scan in vain, they take no more other steps than the
      work there is at the start: a session without new payloads and challenges always comes to rest. */
  lemma {:induction false} RunsDown(states: seq<Net>, labels: seq<Label>)
    requires IsRun(states, labels) && GoodChannels(states[0])
    requires forall i :: 0 <= i < |labels| ==> ThreadStep(states[i], labels[i])
    ensures GoodChannels(states[|labels|]) && WorkLeft(states[|labels|]) + Working(labels) <= WorkLeft(states[0])
    decreases |labels|
  {
    hide WorkLeft, Enabled, Next, ThreadStep, GoodChannels;
    if labels != [] {
      var k := |labels| - 1;
      var before := labels[..k];
      assert IsRun(states[..k + 1], before);
      RunsDown(states[..k + 1], before);
      assert labels[k] == labels[|labels| - 1] && states[..k + 1][k] == states[k];
      StepLoad(states[k], labels[k]);
    }
  }
}
