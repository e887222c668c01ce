/** The AllClear gate over two-party runs: each side announces AllClear at most once per session, only when
    a scan found nothing to rotate, and no application payload is on the wire before the AllClear of both. */
module Gate {
  import opened Basics
  import opened Wire
  import opened Credentials
  import opened Peers
  import opened Network
  import opened ChallengeInvariant
  import Agreement
  import Base64

  datatype Kind = Clear | App | Other

  function KindOf(m: Message): Kind {
    match m
    case AllClear => Clear
    case Application(_) => App
    case _ => Kind.Other
  }

  predicate GoodShape(e: Envelope) {
    || |e.data| == 1
    || (|e.data| == 2 && e.data[0].body.ChangePwdRequest? && e.data[1].body.Ping?)
  }

  function KindOnWire(e: Envelope): Kind {
    if e.data == [] then Kind.Other else KindOf(e.data[0].body)
  }

  function Queued(o: Outgoing): Kind {
    if o.Ready? then KindOnWire(o.envelope) else KindOf(o.body)
  }

  /** What a side has put on the wire in this session and is still to put there, in order. */
  function Stream(log: seq<Envelope>, sendq: seq<Outgoing>): seq<Kind> {
    seq(|log|, i requires 0 <= i < |log| => KindOnWire(log[i])) + seq(|sendq|, i requires 0 <= i < |sendq| => Queued(sendq[i]))
  }

  predicate Ordered(s: seq<Kind>) {
    && (forall k :: 0 <= k < |s| && s[k] == App ==> Clear in s[..k])
    && (forall i, j :: 0 <= i < j < |s| ==> !(s[i] == Clear && s[j] == Clear))
  }

  predicate GoodQueued(p: Peer, o: Outgoing) {
    match o
    case Ready(e) => GoodShape(e)
    case ToSeal(login, body) => (login.Some? ==> login.value in p.mem.to) && (body.Application? ==> login.Some?)
  }

  /** The direction from p to q, with p's log of the session. */
  predicate GateGood(p: Peer, q: Peer, log: seq<Envelope>) {
    var s := Stream(log, p.sendq);
    && (forall e :: e in log ==> GoodShape(e))
    && (forall o :: o in p.sendq ==> GoodQueued(p, o))
    && Ordered(s)
    && (Clear in s ==> p.allClearSent)
    && (p.allClearSent && p.mem.order != [] ==> Clear in s)
    && (App in s ==> q.allClearSent && p.mem.order != [])
    && (q.allClearRxed ==> p.allClearSent)
    && (forall x :: x in q.inq && x.body.AllClear? ==> p.allClearSent)
    && (q.extq != [] ==> App in s)
  }

  ghost predicate GateInv(n: Net) {
    && Agreement.Inv(n)
    && (!n.left.stopped ==> GateGood(n.left, n.right, n.fromLeft.log) && GateGood(n.right, n.left, n.fromRight.log))
  }

  // ------------------------------------------------------------- streams of kinds

  lemma StreamPush(log: seq<Envelope>, sendq: seq<Outgoing>, o: Outgoing)
    ensures Stream(log, sendq + [o]) == Stream(log, sendq) + [Queued(o)]
  {}

  lemma StreamMove(log: seq<Envelope>, sendq: seq<Outgoing>, e: Envelope)
    requires sendq != [] && KindOnWire(e) == Queued(sendq[0])
    ensures Stream(log + [e], sendq[1..]) == Stream(log, sendq)
  {}

  /** t is s without its element m. */
  predicate Without(s: seq<Kind>, t: seq<Kind>, m: nat) {
    m < |s| == |t| + 1 && forall i :: 0 <= i < |t| ==> t[i] == s[if i < m then i else i + 1]
  }

  lemma StreamDrop(log: seq<Envelope>, sendq: seq<Outgoing>)
    requires sendq != []
    ensures Without(Stream(log, sendq), Stream(log, sendq[1..]), |log|)
    ensures Stream(log, sendq)[|log|] == Queued(sendq[0])
  {}

  lemma OrderedPush(s: seq<Kind>, k: Kind)
    requires Ordered(s) && (k == App ==> Clear in s) && (k == Clear ==> Clear !in s)
    ensures Ordered(s + [k])
  {
    var t := s + [k];
    forall i | 0 <= i < |t| && t[i] == App ensures Clear in t[..i] {
      if i < |s| { assert t[..i] == s[..i]; } else { assert t[..i] == s; }
    }
  }

  lemma StillThere(s: seq<Kind>, t: seq<Kind>, m: nat, k: Kind)
    requires Without(s, t, m)
    ensures k in t ==> k in s
    ensures k in s && k != s[m] ==> k in t
  {
    if k in s && k != s[m] {
      var j :| 0 <= j < |s| && s[j] == k;
      assert t[if j < m then j else j - 1] == k;
    }
  }

  /** Losing an element that is neither, or any element when there is no payload. */
  lemma OrderedDrop(s: seq<Kind>, t: seq<Kind>, m: nat)
    requires Ordered(s) && Without(s, t, m)
    requires s[m] == Kind.Other || App !in s
    ensures Ordered(t)
  {
    forall k | 0 <= k < |t| && t[k] == App ensures Clear in t[..k] {
      var k' := if k < m then k else k + 1;
      assert s[k'] == App && App in s && Clear in s[..k'];
      var j :| 0 <= j < k' && s[..k'][j] == Clear;
      assert s[j] == Clear && j != m;
      var j' := if j < m then j else j - 1;
      assert t[j'] == Clear && t[..k][j'] == Clear;
    }
  }

  // --------------------------------------------------------------- queueing a message

  /** p queues one message and keeps the rest of what the gate depends on. */
  lemma PushKeeps(p: Peer, p': Peer, q: Peer, log: seq<Envelope>, o: Outgoing)
    requires GateGood(p, q, log) && p'.sendq == p.sendq + [o]
    requires p'.mem.order == p.mem.order && p'.mem.to.Keys == p.mem.to.Keys
    requires p.allClearSent ==> p'.allClearSent
    requires GoodQueued(p, o)
    requires Queued(o) == App ==> p.allClearSent && q.allClearSent && p.mem.order != []
    requires Queued(o) == Clear <==> !p.allClearSent && p'.allClearSent
    ensures GateGood(p', q, log)
  {
    var s := Stream(log, p.sendq);
    StreamPush(log, p.sendq, o);
    OrderedPush(s, Queued(o));
    assert (s + [Queued(o)])[|s|] == Queued(o);
  }

  /** Nothing the gate depends on changes at p. */
  lemma SameKeeps(p: Peer, p': Peer, q: Peer, log: seq<Envelope>)
    requires GateGood(p, q, log) && p'.sendq == p.sendq
    requires p'.mem.order == p.mem.order && p'.mem.to.Keys == p.mem.to.Keys && p'.allClearSent == p.allClearSent
    ensures GateGood(p', q, log)
  {}

  /** q changes as the peer at the other end. */
  lemma OtherKeeps(p: Peer, q: Peer, q': Peer, log: seq<Envelope>)
    requires GateGood(p, q, log) && (q.allClearSent ==> q'.allClearSent)
    requires q'.allClearRxed ==> p.allClearSent
    requires forall x :: x in q'.inq && x.body.AllClear? ==> p.allClearSent
    requires q'.extq != [] ==> q.extq != [] || App in Stream(log, p.sendq)
    ensures GateGood(p, q', log)
  {}

  // ------------------------------------------------------------------- the steps

  lemma ScanGate(p: Peer, q: Peer, log: seq<Envelope>, log': seq<Envelope>, now: int, candidate: Bytes)
    requires GateGood(p, q, log) && GateGood(q, p, log') && PeerGood(p)
    ensures GateGood(Begin(p, now, candidate), q, log) && GateGood(q, Begin(p, now, candidate), log')
  {
    hide DueLogin, GateGood, PeerGood;
    var p' := Begin(p, now, candidate);
    SentOnly(q, p, log');
    OtherKeeps(q, p, p', log');
    if p'.sendq == p.sendq { SameKeeps(p, p', q, log); } else { PushKeeps(p, p', q, log, ToSeal(None, AllClear)); }
  }

  lemma SentOnly(q: Peer, p: Peer, log': seq<Envelope>)
    requires GateGood(q, p, log')
    ensures p.allClearRxed ==> q.allClearSent
    ensures forall x :: x in p.inq && x.body.AllClear? ==> q.allClearSent
  {}

  lemma SaveGate(p: Peer, q: Peer, log: seq<Envelope>, log': seq<Envelope>)
    requires GateGood(p, q, log) && GateGood(q, p, log') && CanSave(p)
    ensures GateGood(SaveStep(p), q, log) && GateGood(q, SaveStep(p), log')
  {
    hide GateGood;
    SentOnly(q, p, log');
    OtherKeeps(q, p, SaveStep(p), log');
    SameKeeps(p, SaveStep(p), q, log);
  }

  lemma EmitGate(p: Peer, q: Peer, log: seq<Envelope>, log': seq<Envelope>, m1: nat, m2: nat)
    requires GateGood(p, q, log) && GateGood(q, p, log') && CanEmit(p)
    ensures GateGood(EmitStep(p, m1, m2), q, log) && GateGood(q, EmitStep(p, m1, m2), log')
  {
    hide GateGood, SealKey, Base64.Encode;
    var p' := EmitStep(p, m1, m2);
    SentOnly(q, p, log');
    OtherKeeps(q, p, p', log');
    PushKeeps(p, p', q, log, p'.sendq[|p.sendq|]);
  }

  lemma ProcessGate(p: Peer, q: Peer, log: seq<Envelope>, log': seq<Envelope>, now: int)
    requires GateGood(p, q, log) && GateGood(q, p, log') && p.inq != []
    ensures GateGood(Peers.Process(p, now), q, log) && GateGood(q, Peers.Process(p, now), log')
  {
    hide GateGood, Peers.Process;
    var p' := Peers.Process(p, now);
    ProcessEffect(p, now);
    SentOnly(q, p, log');
    OtherKeeps(q, p, p', log');
    if p'.sendq == p.sendq { SameKeeps(p, p', q, log); } else { PushKeeps(p, p', q, log, p'.sendq[|p.sendq|]); }
  }

  /** Handling an internal message queues at most one answer and never an AllClear or a payload. */
  lemma ProcessEffect(p: Peer, now: int)
    requires p.inq != []
    ensures var p' := Peers.Process(p, now);
            && p'.mem.order == p.mem.order && p'.mem.to.Keys == p.mem.to.Keys
            && p'.allClearSent == p.allClearSent && p'.extq == p.extq
            && (p'.allClearRxed ==> p.allClearRxed || exists x :: x in p.inq && x.body.AllClear?)
            && (forall x :: x in p'.inq ==> x in p.inq)
            && (p'.sendq == p.sendq || Answered(p, p'))
  {
    hide OnRequest, OnResponse, OnPong, Answered;
    var x, p0, p' := p.inq[0], p.(inq := p.inq[1..]), Peers.Process(p, now);
    assert x in p.inq;
    match x.body {
      case ChangePwdRequest(m, text) => RequestEffect(p0, x.login, m, text, now);
      case ChangePwdResponse(o, status) => AnswerEffect(p0, o, status, now);
      case Pong(o) => AnswerEffect(p0, o, true, now);
      case _ =>
    }
    if p'.sendq != p.sendq { IsAnswered(p, p'); }
  }

  lemma IsAnswered(p: Peer, p': Peer)
    requires exists o :: p'.sendq == p.sendq + [o] && o.ToSeal? && o.login.None? && KindOf(o.body) == Kind.Other
    ensures Answered(p, p')
  {}

  predicate Answered(p: Peer, p': Peer) {
    && |p'.sendq| == |p.sendq| + 1 && p'.sendq == p.sendq + [p'.sendq[|p.sendq|]]
    && p'.sendq[|p.sendq|].ToSeal? && p'.sendq[|p.sendq|].login.None? && KindOf(p'.sendq[|p.sendq|].body) == Kind.Other
  }

  lemma AnswerEffect(p: Peer, o: nat, status: bool, now: int)
    ensures OnlyRotates(p, OnResponse(p, o, status, now)) && OnlyRotates(p, OnPong(p, o, now))
  {}

  predicate OnlyRotates(p: Peer, p': Peer) {
    && p' == p.(mem := p'.mem, ctx := p'.ctx, phase := p'.phase)
    && p'.mem.order == p.mem.order && p'.mem.to.Keys == p.mem.to.Keys
  }

  lemma SendGate(p: Peer, q: Peer, log: seq<Envelope>, log': seq<Envelope>, login: Option<Login>, payload: Bytes)
    requires GateGood(p, q, log) && GateGood(q, p, log') && PeerGood(p)
    ensures GateGood(Peers.Send(p, login, payload), q, log) && GateGood(q, Peers.Send(p, login, payload), log')
  {
    var p' := Peers.Send(p, login, payload);
    SendLoginKnown(p, login);
    SendParts(p, p', q, log, log', login, payload);
  }

  lemma SendLoginKnown(p: Peer, login: Option<Login>)
    requires PeerGood(p)
    ensures SendLogin(p, login).Some? ==> SendLogin(p, login).value in p.mem.to && p.mem.order != []
  {
    assert forall l :: l in p.mem.order ==> l in p.mem.to;
  }

  lemma SendParts(p: Peer, p': Peer, q: Peer, log: seq<Envelope>, log': seq<Envelope>, login: Option<Login>,
                  payload: Bytes)
    requires GateGood(p, q, log) && GateGood(q, p, log') && p' == Peers.Send(p, login, payload)
    requires SendLogin(p, login).Some? ==> SendLogin(p, login).value in p.mem.to && p.mem.order != []
    ensures GateGood(p', q, log) && GateGood(q, p', log')
  {
    hide GateGood, SendLogin;
    SentOnly(q, p, log');
    OtherKeeps(q, p, p', log');
    if p' != p { PushKeeps(p, p', q, log, ToSeal(SendLogin(p, login), Application(payload))); }
  }

  lemma ReceiveGate(p: Peer, q: Peer, log: seq<Envelope>, log': seq<Envelope>, i: nat, late: bool)
    requires GateGood(p, q, log) && GateGood(q, p, log') && i < |log'|
    ensures GateGood(Peers.Receive(p, log'[i], late), q, log) && GateGood(q, Peers.Receive(p, log'[i], late), log')
  {
    hide Opened, Internal, OpenKey;
    var e, p' := log'[i], Peers.Receive(p, log'[i], late);
    SameKeeps(p, p', q, log);
    assert e in log' && GoodShape(e);
    Taken(p, e, late);
    var s := Stream(log', q.sendq);
    assert s[i] == KindOnWire(e);
    forall x | x in p'.inq && x.body.AllClear? ensures q.allClearSent {
      if x !in p.inq { var d :| d in e.data && d.body == x.body; assert d == e.data[0]; }
    }
    if p'.extq != [] && p.extq == [] {
      PayloadTaken(e.data, OpenKey(p, e.login, late));
      assert e.data[0].body.Application?;
    }
    OtherKeeps(q, p, p', log');
  }

  lemma {:induction false} PayloadTaken(data: seq<Sealed>, key: Key)
    requires External(Opened(data, key)) != []
    ensures exists d :: d in data && d.body.Application?
  {
    var list := Opened(data, key);
    OpenedBodies(data, key);
    ExternalFrom(list);
    var m :| m in list && m.Application?;
    var d :| d in data && d.key == key && d.body == m;
  }

  lemma {:induction false} ExternalFrom(list: seq<Message>)
    requires External(list) != []
    ensures exists m :: m in list && m.Application?
  {
    if !list[0].Application? {
      ExternalFrom(list[1..]);
      var m :| m in list[1..] && m.Application?;
      assert m in list;
    } else {
      assert list[0] in list;
    }
  }

  lemma TailQueued(p: Peer, p': Peer)
    requires p.sendq != [] && p' == p.(sendq := p.sendq[1..])
    requires forall o :: o in p.sendq ==> GoodQueued(p, o)
    ensures forall o :: o in p'.sendq ==> GoodQueued(p', o)
  {
    forall o | o in p'.sendq ensures GoodQueued(p', o) {
      assert o in p.sendq && GoodQueued(p, o);
    }
  }

  lemma TransmitGate(p: Peer, q: Peer, log: seq<Envelope>, log': seq<Envelope>, late: bool)
    requires GateGood(p, q, log) && GateGood(q, p, log') && PeerGood(p) && p.sendq != []
    ensures var p' := p.(sendq := p.sendq[1..]);
            GateGood(p', q, PutOnWire(Channel(log, 0), Sent(p, p.sendq[0], late)).log) && GateGood(q, p', log')
  {
    hide SealKey, PeerGood;
    var o, p' := p.sendq[0], p.(sendq := p.sendq[1..]);
    assert o in p.sendq && GoodQueued(p, o);
    TailQueued(p, p');
    OtherKeeps(q, p, p', log');
    match Sent(p, o, late)
    case Some(e) =>
      assert GoodShape(e) && KindOnWire(e) == Queued(o);
      StreamMove(log, p.sendq, e);
    case None =>
      FirstKnown(p);
      StreamDrop(log, p.sendq);
      var s, t := Stream(log, p.sendq), Stream(log, p'.sendq);
      assert o.body.Application? ==> Sent(p, o, late).Some?;
      OrderedDrop(s, t, |log|);
      StillThere(s, t, |log|, Clear);
      StillThere(s, t, |log|, App);
  }

  lemma FirstKnown(p: Peer)
    requires PeerGood(p)
    ensures p.mem.order != [] ==> FirstLogin(p.mem.order).value in p.mem.to
  {
    assert forall l :: l in p.mem.order ==> l in p.mem.to;
  }

  lemma FreshGate(p: Peer, q: Peer, cipher: string)
    ensures GateGood(Start(p, cipher), Start(q, cipher), [])
  {}

  lemma StepKeepsGate(n: Net, a: Label)
    requires GateInv(n) && Enabled(n, a)
    ensures GateInv(Next(n, a))
  {
    hide GateGood, Begin, SaveStep, EmitStep, Peers.Process, Peers.Receive, Peers.Send, Sent, Agreement.Inv, Load,
         Credentials.Save, Restart;
    Agreement.StepKeepsInv(n, a);
    Alive(n);
    Alive(Next(n, a));
    match a
    case Disconnect =>
    case Crash(_) =>
    case Connect(cipher) =>
      FreshGate(n.left, n.right, cipher);
      FreshGate(n.right, n.left, cipher);
    case _ =>
      if !n.At(a.side).stopped { LocalGate(n, a); } else { StoppedStays(n, a); }
  }

  lemma Alive(n: Net)
    requires Agreement.Inv(n)
    ensures n.left.stopped == n.right.stopped && PeerGood(n.left) && PeerGood(n.right)
    ensures GoodChannel(n.fromLeft) && GoodChannel(n.fromRight)
  {}

  lemma StoppedStays(n: Net, a: Label)
    requires Enabled(n, a) && !a.Disconnect? && !a.Crash? && !a.Connect? && n.At(a.side).stopped
    ensures Next(n, a).At(a.side).stopped
  {}

  lemma LocalGate(n: Net, a: Label)
    requires GateInv(n) && Enabled(n, a) && !a.Disconnect? && !a.Crash? && !a.Connect? && !n.At(a.side).stopped
    ensures var m := Next(n, a); GateGood(m.left, m.right, m.fromLeft.log) && GateGood(m.right, m.left, m.fromRight.log)
  {
    hide GateGood, Begin, SaveStep, EmitStep, Peers.Process, Peers.Receive, Peers.Send, Sent, Agreement.Inv, PeerGood;
    Alive(n);
    var s := a.side;
    var p, q, log, log' := n.At(s), n.At(Network.Other(s)), n.From(s).log, n.From(Network.Other(s)).log;
    match a
    case Scan(_, now, candidate) => ScanGate(p, q, log, log', now, candidate);
    case Process(_, now) => ProcessGate(p, q, log, log', now);
    case Save(_) => SaveGate(p, q, log, log');
    case Emit(_) => EmitGate(p, q, log, log', n.nextId, n.nextId + 1);
    case Transmit(_, late) => TransmitGate(p, q, log, log', late);
    case Receive(_, late) => ReceiveGate(p, q, log, log', n.From(Network.Other(s)).taken, late);
    case Send(_, login, payload) => SendGate(p, q, log, log', login, payload);
  }

  // ------------------------------------------------------------------- the results

  lemma {:induction false} RunKeepsGate(states: seq<Net>, labels: seq<Label>, k: nat)
    requires IsRun(states, labels) && Initial(states[0]) && k <= |labels|
    ensures GateInv(states[k])
  {
    if k == 0 {
      Agreement.InitialInv(states[0]);
      assert InitialPeer(states[0].At(Left));
    } else {
      RunKeepsGate(states, labels, k - 1);
      StepKeepsGate(states[k - 1], labels[k - 1]);
    }
  }

  lemma ReachableGate(n: Net)
    requires Reachable(n)
    ensures GateInv(n)
  {
    var states, labels :| IsRun(states, labels) && Initial(states[0]) && states[|labels|] == n;
    RunKeepsGate(states, labels, |labels|);
  }

  predicate Carries(e: Envelope, k: Kind) {
    exists d :: d in e.data && KindOf(d.body) == k
  }

  lemma CarriedKind(e: Envelope, k: Kind)
    requires GoodShape(e) && k != Kind.Other
    ensures Carries(e, k) <==> KindOnWire(e) == k
  {
    assert e.data[0] in e.data;
  }

  /** When an application payload is on the wire, the side it goes to has sent its own AllClear, and the
      sender's AllClear is before it on the same wire. */
  lemma PayloadAfterAllClear(n: Net, s: Side, k: nat)
    requires Reachable(n) && !n.At(s).stopped && k < |n.From(s).log| && Carries(n.From(s).log[k], App)
    ensures n.At(s).allClearSent && n.At(Network.Other(s)).allClearSent
    ensures exists j :: 0 <= j < k && Carries(n.From(s).log[j], Clear)
  {
    hide Agreement.Inv;
    ReachableGate(n);
    GateAt(n, s);
    var log, t := n.From(s).log, Stream(n.From(s).log, n.At(s).sendq);
    assert log[k] in log;
    CarriedKind(log[k], App);
    assert t[k] == App && App in t && Clear in t[..k];
    var j :| 0 <= j < k && t[..k][j] == Clear;
    assert t[j] == KindOnWire(log[j]) && log[j] in log;
    CarriedKind(log[j], Clear);
  }

  lemma GateAt(n: Net, s: Side)
    requires GateInv(n) && !n.At(s).stopped
    ensures GateGood(n.At(s), n.At(Network.Other(s)), n.From(s).log)
  {}

  /** A payload that has reached a peer finds that peer's AllClear sent. */
  lemma DeliveredAfterAllClear(n: Net, s: Side)
    requires Reachable(n) && !n.At(s).stopped && n.At(s).extq != []
    ensures n.At(s).allClearSent && n.At(Network.Other(s)).allClearSent
  {
    hide Agreement.Inv;
    ReachableGate(n);
    Alive(n);
    GateAt(n, Network.Other(s));
    var q := n.At(Network.Other(s));
    var t := Stream(n.From(Network.Other(s)).log, q.sendq);
    var k :| 0 <= k < |t| && t[k] == App;
    assert Clear in t[..k] && Clear in t;
  }

  /** In one session a side puts at most one AllClear on the wire. */
  lemma AllClearOnce(n: Net, s: Side, i: nat, j: nat)
    requires Reachable(n) && !n.At(s).stopped && i < j < |n.From(s).log|
    ensures !(Carries(n.From(s).log[i], Clear) && Carries(n.From(s).log[j], Clear))
  {
    hide Agreement.Inv;
    ReachableGate(n);
    GateAt(n, s);
    var log, t := n.From(s).log, Stream(n.From(s).log, n.At(s).sendq);
    assert log[i] in log && log[j] in log && t[i] == KindOnWire(log[i]) && t[j] == KindOnWire(log[j]);
    CarriedKind(log[i], Clear);
    CarriedKind(log[j], Clear);
  }

  /** The only step that announces AllClear is a scan that found no login pending or near its end, with no
      challenge running or waiting. */
  lemma AllClearOnlyWhenClean(n: Net, a: Label, s: Side)
    requires Enabled(n, a) && !n.At(s).allClearSent && Next(n, a).At(s).allClearSent
    ensures a.Scan? && a.side == s && !Active(n.At(s).ctx)
    ensures forall l :: l in n.At(s).mem.order && l in n.At(s).mem.to ==> !Due(n.At(s).mem.to[l], a.now)
    ensures Next(n, a).At(s).sendq == n.At(s).sendq + [ToSeal(None, AllClear)]
  {
    hide Busy, GuardAccepts, Base64.Decode, DueLogin, Sent, Opened, Internal, External, Load, Credentials.Save,
         SendLogin;
  }
}
