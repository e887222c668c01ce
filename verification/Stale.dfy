/** The state no challenge gets out of: each side's first login has a pending candidate that the other side
    already holds. Every answer is then sealed under a password its addressee has left behind. The state
    is reachable with one lost connection, and no run leaves it. */
module Stale {
  import opened Basics
  import opened Wire
  import opened Credentials
  import opened Peers
  import opened Network
  import opened ChallengeInvariant
  import opened Agreement
  import Recovery
  import Rounds
  import Workload
  import Base64

  predicate IsReply(m: Message) {
    m.ChangePwdResponse? || m.Pong?
  }

  /** The answering side holds the candidate of t and not its password. */
  predicate StaleEntry(to: map<Login, Auth>, from: map<Login, Auth>, f: Login, t: Auth) {
    f in to && to[f] == t && t.pending && t.pwd != t.newPwd && f in from && from[f].pwd == t.newPwd
  }

  predicate StaleDirection(p: Peer, q: Peer, f: Login, t: Auth) {
    && FirstLogin(p.mem.order) == Some(f)
    && StaleEntry(p.mem.to, q.mem.from, f, t) && StaleEntry(p.disk.to, q.disk.from, f, t)
  }

  predicate SealedStale(p: Peer, f: Login, t: Auth, e: Envelope) {
    forall d :: d in e.data && IsReply(d.body) ==> e.login == f && d.key == SealKey(p, f, t.pwd)
  }

  predicate QueuedStale(o: Outgoing) {
    match o
    case Ready(e) => forall d :: d in e.data ==> !IsReply(d.body)
    case ToSeal(login, body) => IsReply(body) ==> login.None?
  }

  /** No answer of p is open at q, and none on its way will open. */
  predicate Silent(p: Peer, q: Peer, w: seq<Envelope>, f: Login, t: Auth) {
    && (forall x :: x in q.inq ==> !IsReply(x.body))
    && (forall e :: e in w ==> SealedStale(p, f, t, e))
    && (forall o :: o in p.sendq ==> QueuedStale(o))
  }

  predicate StalePair(p: Peer, q: Peer, w: seq<Envelope>, f: Login, t: Auth) {
    StaleDirection(p, q, f, t) && (!p.stopped ==> Silent(p, q, w, f, t))
  }

  // --------------------------------------------------------- a step of p, as answered

  lemma BeginStale(p: Peer, q: Peer, w: seq<Envelope>, f: Login, t: Auth, now: int, candidate: Bytes)
    requires StalePair(p, q, w, f, t)
    ensures StalePair(Begin(p, now, candidate), q, w, f, t)
  {
    hide DueLogin;
  }

  lemma SaveStale(p: Peer, q: Peer, w: seq<Envelope>, f: Login, t: Auth)
    requires StalePair(p, q, w, f, t) && CanSave(p)
    ensures StalePair(SaveStep(p), q, w, f, t)
  {}

  lemma EmitStale(p: Peer, q: Peer, w: seq<Envelope>, f: Login, t: Auth, m1: nat, m2: nat)
    requires StalePair(p, q, w, f, t) && CanEmit(p)
    ensures StalePair(EmitStep(p, m1, m2), q, w, f, t)
  {
    hide Base64.Encode;
  }

  /** Without answers among its opened messages p never switches. */
  lemma ProcessStale(p: Peer, q: Peer, w: seq<Envelope>, f: Login, t: Auth, now: int)
    requires StalePair(p, q, w, f, t) && p.inq != [] && !IsReply(p.inq[0].body)
    ensures StalePair(Peers.Process(p, now), q, w, f, t)
    ensures !Peers.Process(p, now).phase.Switched? || p.phase.Switched?
  {
    hide Busy, GuardAccepts, Base64.Decode;
  }

  lemma TransmitStale(p: Peer, q: Peer, w: seq<Envelope>, f: Login, t: Auth, late: bool)
    requires StalePair(p, q, w, f, t) && !p.stopped && p.sendq != []
    ensures StalePair(p.(sendq := p.sendq[1..]), q, WithSent(w, Sent(p, p.sendq[0], late)), f, t)
  {
    assert p.sendq[0] in p.sendq && QueuedStale(p.sendq[0]);
  }

  lemma TrafficStale(p: Peer, q: Peer, w: seq<Envelope>, f: Login, t: Auth, e: Envelope, login: Option<Login>,
                     payload: Bytes, late: bool)
    requires StalePair(p, q, w, f, t)
    ensures StalePair(Peers.Receive(p, e, late), q, w, f, t) && StalePair(Peers.Send(p, login, payload), q, w, f, t)
  {
    hide Opened, Internal, External, SendLogin;
  }

  // -------------------------------------------------------- a step of q, as addressee

  lemma OtherStale(p: Peer, q: Peer, q': Peer, w: seq<Envelope>, f: Login, t: Auth)
    requires StalePair(p, q, w, f, t)
    requires q'.mem.from == q.mem.from && (q'.disk.from == q.disk.from || q'.disk.from == q.mem.from)
    requires forall x :: x in q'.inq ==> x in q.inq
    ensures StalePair(p, q', w, f, t)
  {}

  lemma SilentPop(p: Peer, q: Peer, q': Peer, w: seq<Envelope>, f: Login, t: Auth)
    requires Silent(p, q, w, f, t) && forall x :: x in q'.inq ==> x in q.inq
    ensures Silent(p, q', w, f, t)
  {}

  lemma ProcessOther(p: Peer, q: Peer, w: seq<Envelope>, f: Login, t: Auth, now: int)
    requires StalePair(p, q, w, f, t) && RequestsGood(p, q, w) && GoodStore(p.mem) && q.inq != [] && !p.stopped
    ensures StalePair(p, Peers.Process(q, now), w, f, t)
  {
    hide StalePair, RequestsGood, GoodStore;
    if q.inq[0].body.ChangePwdRequest? {
      RequestOther(p, q, w, f, t, now);
    } else {
      FromKept(q, now);
      OtherStale(p, q, Peers.Process(q, now), w, f, t);
    }
  }

  lemma FromKept(q: Peer, now: int)
    requires q.inq != [] && !q.inq[0].body.ChangePwdRequest?
    ensures var q' := Peers.Process(q, now);
            q'.mem.from == q.mem.from && q'.disk == q.disk && forall x :: x in q'.inq ==> x in q.inq
  {
    hide OnRequest;
  }

  /** A request for the stale login carries the candidate q holds already. */
  lemma RequestOther(p: Peer, q: Peer, w: seq<Envelope>, f: Login, t: Auth, now: int)
    requires StalePair(p, q, w, f, t) && RequestsGood(p, q, w) && GoodStore(p.mem) && q.inq != [] && !p.stopped
    requires q.inq[0].body.ChangePwdRequest?
    ensures StalePair(p, Peers.Process(q, now), w, f, t)
  {
    hide Busy, GuardAccepts, Base64.Decode, Silent, RequestsGood, GoodStore;
    var x, q' := q.inq[0], Peers.Process(q, now);
    assert x in q.inq;
    InstalledIsCandidate(p, q, w, x);
    SilentPop(p, q, q', w, f, t);
  }

  lemma InstalledIsCandidate(p: Peer, q: Peer, w: seq<Envelope>, x: Incoming)
    requires RequestsGood(p, q, w) && GoodStore(p.mem) && x in q.inq && x.body.ChangePwdRequest?
    ensures Live(p) && x.login == LiveLogin(p) && Base64.Decode(x.body.pwd) == Some(p.mem.to[x.login].newPwd)
  {
    hide Base64.Decode, Base64.Encode, GuardAccepts;
    assert OpenedRequestGood(p, x);
    RequestText(Candidate(p));
  }

  lemma ReceiveOther(p: Peer, q: Peer, w: seq<Envelope>, f: Login, t: Auth, late: bool)
    requires StalePair(p, q, w, f, t) && Matched(p, q) && !p.stopped && w != []
    ensures StalePair(p, Peers.Receive(q, w[0], late), w[1..], f, t)
  {
    var e, q' := w[0], Peers.Receive(q, w[0], late);
    assert e in w && SealedStale(p, f, t, e);
    forall x | x in q'.inq ensures !IsReply(x.body) {
      if x !in q.inq { NothingOpens(p, q, e, f, t, x, late); }
    }
  }

  lemma NothingOpens(p: Peer, q: Peer, e: Envelope, f: Login, t: Auth, x: Incoming, late: bool)
    requires StaleDirection(p, q, f, t) && Matched(p, q) && SealedStale(p, f, t, e)
    requires x in Peers.Receive(q, e, late).inq && x !in q.inq
    ensures !IsReply(x.body)
  {
    assert e.login in q.mem.from;
    var list := Opened(e.data, OpenKey(q, e.login, late));
    OpenedBodies(e.data, OpenKey(q, e.login, late));
    InternalBodies(e.login, list);
    assert x in Internal(e.login, list);
    var d :| d in e.data && d.key == OpenKey(q, e.login, late) && d.body == x.body;
    KeysAgree(p.cipher, p.me, q.me, f, t.pwd, q.mem.from[f].pwd);
  }

  // ----------------------------------------------------------------- the whole system

  predicate StaleAt(n: Net, s: Side, f: Login, t: Auth) {
    GoodChannel(n.From(s)) && StalePair(n.At(s), n.At(Other(s)), InFlight(n.From(s)), f, t)
  }

  /** Both directions are stale: s's login f with entry t, the other side's g with u. */
  predicate MutuallyStale(n: Net, s: Side, f: Login, t: Auth, g: Login, u: Auth) {
    StaleAt(n, s, f, t) && StaleAt(n, Other(s), g, u)
  }

  lemma ThreadStep(n: Net, a: Label, s: Side, f: Login, t: Auth, g: Login, u: Auth)
    requires Inv(n) && MutuallyStale(n, s, f, t, g, u) && Enabled(n, a)
    requires (a.Scan? || a.Save? || a.Emit? || a.Send?) && a.side == s
    ensures MutuallyStale(Next(n, a), s, f, t, g, u)
  {
    hide Inv, StalePair, Begin, SaveStep, EmitStep, Peers.Send, CanSave, CanEmit, GoodCandidate;
    var p, q, w, v := n.At(s), n.At(Other(s)), InFlight(n.From(s)), InFlight(n.From(Other(s)));
    var p' := Next(n, a).At(s);
    match a {
      case Scan(_, now, candidate) => BeginStale(p, q, w, f, t, now, candidate);
      case Save(_) => SaveStale(p, q, w, f, t);
      case Emit(_) => EmitStale(p, q, w, f, t, n.nextId, n.nextId + 1);
      case Send(_, login, payload) => TrafficStale(p, q, w, f, t, Envelope([], []), login, payload, false);
    }
    ThreadFrame(n, a);
    OtherStale(q, p, p', v, g, u);
  }

  lemma ThreadFrame(n: Net, a: Label)
    requires Enabled(n, a) && (a.Scan? || a.Save? || a.Emit? || a.Send?)
    ensures var p, p' := n.At(a.side), Next(n, a).At(a.side);
            p'.mem.from == p.mem.from && p'.inq == p.inq && (p'.disk.from == p.disk.from || p'.disk.from == p.mem.from)
  {
    hide Begin, Peers.Send, SaveStep, EmitStep, CanSave, CanEmit, GoodCandidate;
    var p := n.At(a.side);
    match a
    case Scan(_, now, candidate) => ScanFrame(p, now, candidate);
    case Send(_, login, payload) => SendFrame(p, login, payload);
    case Save(_) => SaveFrame(p);
    case Emit(_) => EmitFrame(p, n.nextId, n.nextId + 1);
  }

  lemma ScanFrame(p: Peer, now: int, candidate: Bytes)
    ensures var p' := Begin(p, now, candidate); p'.mem.from == p.mem.from && p'.inq == p.inq && p'.disk == p.disk
  {
    hide DueLogin;
  }

  lemma SendFrame(p: Peer, login: Option<Login>, payload: Bytes)
    ensures var p' := Peers.Send(p, login, payload); p'.mem == p.mem && p'.inq == p.inq && p'.disk == p.disk
  {
    hide SendLogin;
  }

  lemma SaveFrame(p: Peer)
    requires CanSave(p)
    ensures SaveStep(p).mem == p.mem && SaveStep(p).inq == p.inq && SaveStep(p).disk == p.mem
  {}

  lemma EmitFrame(p: Peer, m1: nat, m2: nat)
    requires CanEmit(p)
    ensures var p' := EmitStep(p, m1, m2); p'.mem == p.mem && p'.inq == p.inq && p'.disk == p.disk
  {
    hide ChallengeEnvelope;
  }

  lemma ProcessStep(n: Net, s: Side, now: int, f: Login, t: Auth, g: Login, u: Auth)
    requires Inv(n) && MutuallyStale(n, s, f, t, g, u) && Enabled(n, Process(s, now))
    ensures MutuallyStale(Next(n, Process(s, now)), s, f, t, g, u)
  {
    hide PeerGood, Direction, AllOlder, StalePair, Peers.Process;
    InvAt(n, s);
    var p, q, w, v := n.At(s), n.At(Other(s)), InFlight(n.From(s)), InFlight(n.From(Other(s)));
    FirstIsNoReply(q, p, v, g, u);
    ProcessStale(p, q, w, f, t, now);
    ForProcess(q, p, v, w);
    ProcessOther(q, p, v, g, u, now);
  }

  lemma ForProcess(p: Peer, q: Peer, w: seq<Envelope>, v: seq<Envelope>)
    requires Direction(p, q, w, v) && PeerGood(p) && !p.stopped
    ensures RequestsGood(p, q, w) && GoodStore(p.mem)
  {}

  lemma FirstIsNoReply(q: Peer, p: Peer, v: seq<Envelope>, g: Login, u: Auth)
    requires StalePair(q, p, v, g, u) && !q.stopped && p.inq != []
    ensures !IsReply(p.inq[0].body)
  {
    assert p.inq[0] in p.inq;
  }

  lemma TransmitStep(n: Net, s: Side, f: Login, t: Auth, g: Login, u: Auth, late: bool)
    requires Inv(n) && MutuallyStale(n, s, f, t, g, u) && Enabled(n, Transmit(s, late))
    ensures MutuallyStale(Next(n, Transmit(s, late)), s, f, t, g, u)
  {
    hide Inv, StalePair, Sent;
    var p, q, c := n.At(s), n.At(Other(s)), n.From(s);
    TransmitStale(p, q, InFlight(c), f, t, late);
    Workload.OnTheWire(c, Sent(p, p.sendq[0], late));
    OtherStale(q, p, p.(sendq := p.sendq[1..]), InFlight(n.From(Other(s))), g, u);
  }

  lemma ReceiveStep(n: Net, s: Side, f: Login, t: Auth, g: Login, u: Auth, late: bool)
    requires Inv(n) && MutuallyStale(n, s, f, t, g, u) && Enabled(n, Receive(s, late))
    ensures MutuallyStale(Next(n, Receive(s, late)), s, f, t, g, u)
  {
    hide PeerGood, Direction, AllOlder, StalePair, Peers.Receive;
    InvAt(n, s);
    var p, q, c := n.At(s), n.At(Other(s)), n.From(Other(s));
    TrafficStale(p, q, InFlight(n.From(s)), f, t, c.log[c.taken], None, [], late);
    ReceiveOther(q, p, InFlight(c), g, u, late);
    Workload.OffTheWire(c);
  }

  lemma LifeStep(n: Net, a: Label, s: Side, f: Login, t: Auth, g: Login, u: Auth)
    requires Inv(n) && MutuallyStale(n, s, f, t, g, u) && Enabled(n, a) && (a.Disconnect? || a.Connect? || a.Crash?)
    ensures MutuallyStale(Next(n, a), s, f, t, g, u)
  {
    hide Load, Credentials.Save, Inv;
    assert InFlight(EMPTY) == [];
    if a.Crash? {
      RestartStore(n, a.side);
    }
  }

  lemma RestartStore(n: Net, s: Side)
    requires Inv(n)
    ensures Load(Credentials.Save(n.At(s).disk)) == n.At(s).disk && n.At(s).disk.order == n.At(s).mem.order
  {
    hide Load, Credentials.Save;
    InvAt(n, s);
    LoadInvertsSave(n.At(s).disk);
  }

  lemma SideStep(n: Net, a: Label, s: Side, f: Login, t: Auth, g: Login, u: Auth)
    requires Inv(n) && MutuallyStale(n, s, f, t, g, u) && Enabled(n, a)
    requires a.Disconnect? || a.Connect? || a.Crash? || a.side == s
    ensures MutuallyStale(Next(n, a), s, f, t, g, u)
  {
    hide Inv, MutuallyStale, Next, Enabled;
    match a
    case Process(_, now) => ProcessStep(n, s, now, f, t, g, u);
    case Transmit(_, late) => TransmitStep(n, s, f, t, g, u, late);
    case Receive(_, late) => ReceiveStep(n, s, f, t, g, u, late);
    case Disconnect => LifeStep(n, a, s, f, t, g, u);
    case Connect(_) => LifeStep(n, a, s, f, t, g, u);
    case Crash(_) => LifeStep(n, a, s, f, t, g, u);
    case _ => ThreadStep(n, a, s, f, t, g, u);
  }

  lemma StepStaysStale(n: Net, a: Label, s: Side, f: Login, t: Auth, g: Login, u: Auth)
    requires Inv(n) && MutuallyStale(n, s, f, t, g, u) && Enabled(n, a)
    ensures MutuallyStale(Next(n, a), s, f, t, g, u)
  {
    hide Inv, StaleAt, Next, Enabled;
    if a.Disconnect? || a.Connect? || a.Crash? || a.side == s {
      SideStep(n, a, s, f, t, g, u);
    } else {
      SideStep(n, a, Other(s), g, u, f, t);
    }
  }

  /** No run leaves the state: in every later state both directions are still stale, so neither side's
      answers will open. */
  lemma {:induction false} StaleForEver(states: seq<Net>, labels: seq<Label>, k: nat, s: Side, f: Login, t: Auth,
                                        g: Login, u: Auth)
    requires IsRun(states, labels) && Reachable(states[0]) && MutuallyStale(states[0], s, f, t, g, u) && k <= |labels|
    ensures MutuallyStale(states[k], s, f, t, g, u) && Inv(states[k])
    ensures forall r :: !Rounds.ReplyAgrees(states[k].At(r), states[k].At(Other(r)))
  {
    hide Inv, Rounds.ReplyAgrees, StaleAt, Next, Enabled, Initial;
    if k == 0 {
      ReachableInv(states[0]);
    } else {
      StaleForEver(states, labels, k - 1, s, f, t, g, u);
      StepKeepsInv(states[k - 1], labels[k - 1]);
      StepStaysStale(states[k - 1], labels[k - 1], s, f, t, g, u);
    }
    forall r ensures !Rounds.ReplyAgrees(states[k].At(r), states[k].At(Other(r))) {
      if r == s { NoAgreement(states[k], r, g, u); } else { NoAgreement(states[k], r, f, t); }
    }
  }

  lemma NoAgreement(n: Net, r: Side, f: Login, t: Auth)
    requires StaleAt(n, Other(r), f, t)
    ensures !Rounds.ReplyAgrees(n.At(r), n.At(Other(r)))
  {}

  /** No login of either side is ever rotated again: no step of the run switches. */
  lemma NoSwitchEver(states: seq<Net>, labels: seq<Label>, k: nat, s: Side, f: Login, t: Auth, g: Login, u: Auth,
                     r: Side, l: Login, a: Auth)
    requires IsRun(states, labels) && Reachable(states[0]) && MutuallyStale(states[0], s, f, t, g, u) && k < |labels|
    ensures !SwitchesTo(states[k], labels[k], r, l, a)
  {
    hide Inv, Peers.Process, StalePair;
    StaleForEver(states, labels, k, s, f, t, g, u);
    var n, step := states[k], labels[k];
    if Enabled(n, step) && step.Process? && step.side == r {
      if r == s { NoSwitch(n, r, step.now, f, t, g, u); } else { NoSwitch(n, r, step.now, g, u, f, t); }
    }
  }

  lemma NoSwitch(n: Net, r: Side, now: int, f: Login, t: Auth, g: Login, u: Auth)
    requires Inv(n) && MutuallyStale(n, r, f, t, g, u) && Enabled(n, Process(r, now))
    ensures !Peers.Process(n.At(r), now).phase.Switched?
  {
    hide Peers.Process, StalePair;
    InvStopped(n);
    FirstIsNoReply(n.At(Other(r)), n.At(r), InFlight(n.From(Other(r))), g, u);
    ProcessStale(n.At(r), n.At(Other(r)), InFlight(n.From(r)), f, t, now);
  }

  // -------------------------------------------------------------------- how it arises

  /** s's challenge for l is on the wire and nothing else is. */
  predicate ChallengeOut(n: Net, s: Side, l: Login) {
    && Live(n.At(s)) && LiveLogin(n.At(s)) == l && n.At(s).phase.Idle? && !n.At(Other(s)).stopped
    && GoodChannel(n.From(s)) && InFlight(n.From(s)) == [LiveEnvelope(n.At(s))]
  }

  /** Nothing is on its way, and the scan a of side s selects login l, which the other side will not refuse. */
  predicate StartsAlone(n: Net, s: Side, a: Label, l: Login) {
    && Recovery.Quiet(n) && a.Scan? && a.side == s && Enabled(n, a) && !Active(n.At(s).ctx)
    && DueLogin(n.At(s).mem.order, n.At(s).mem.to, a.now) == Some(l)
    && l in n.At(Other(s)).mem.from && !Busy(n.At(Other(s)))
  }

  /** p between events with its challenge for login l queued: what a scan, a save and a hand-over leave. */
  function Asking(p: Peer, l: Login, candidate: Bytes, m: nat): Peer
    requires l in p.mem.to
  {
    var a := WithCandidate(p.mem.to[l], candidate);
    var store := p.mem.(to := p.mem.to[l := a]);
    p.(mem := store, disk := store, ctx := Some(Context(Some(l), false, true, true, m, m + 1)),
       sendq := p.sendq + [Ready(ChallengeEnvelope(p, l, a, m, m + 1))])
  }

  /** The same before the save, and before the hand-over. */
  function Drawing(p: Peer, l: Login, candidate: Bytes): Peer
    requires l in p.mem.to
  {
    p.(mem := p.mem.(to := p.mem.to[l := WithCandidate(p.mem.to[l], candidate)]),
       ctx := Some(NEW_CONTEXT.(auth := Some(l), toSend := true)), phase := Generated(l))
  }

  function Drawn(p: Peer, l: Login, candidate: Bytes): Peer
    requires l in p.mem.to
  {
    var q := Drawing(p, l, candidate);
    q.(disk := q.mem, phase := Stored(l))
  }

  lemma Prepares(p: Peer, now: int, candidate: Bytes, l: Login, m: nat)
    requires !Active(p.ctx) && p.phase.Idle? && DueLogin(p.mem.order, p.mem.to, now) == Some(l)
    ensures Begin(p, now, candidate) == Drawing(p, l, candidate) && CanSave(Drawing(p, l, candidate))
    ensures SaveStep(Drawing(p, l, candidate)) == Drawn(p, l, candidate) && CanEmit(Drawn(p, l, candidate))
    ensures EmitStep(Drawn(p, l, candidate), m, m + 1) == Asking(p, l, candidate, m)
  {
    hide DueLogin, Base64.Encode, Derive;
  }

  lemma AsksLive(p: Peer, l: Login, candidate: Bytes, m: nat)
    requires !p.stopped && p.phase.Idle? && l in p.mem.to
    ensures var p' := Asking(p, l, candidate, m);
            && Live(p') && LiveLogin(p') == l && p'.sendq == p.sendq + [Ready(LiveEnvelope(p'))]
            && LiveEnvelope(p'.(sendq := [])) == LiveEnvelope(p')
  {
    hide Base64.Encode, Derive;
  }

  lemma SendsChallenge(n: Net, s: Side, a: Label, l: Login) returns (m: Net)
    requires Reachable(n) && StartsAlone(n, s, a, l)
    ensures Reachable(m) && ChallengeOut(m, s, l) && m.At(Other(s)) == n.At(Other(s)) && m.At(s).sendq == []
    ensures m.At(s).allClearSent == n.At(s).allClearSent && m.At(s).allClearRxed == n.At(s).allClearRxed
    ensures m.At(s).mem == n.At(s).mem.(to := n.At(s).mem.to[l := WithCandidate(n.At(s).mem.to[l], a.candidate)])
  {
    hide DueLogin, ChallengeEnvelope, Reachable, Inv, Busy, Live, Begin, SaveStep, EmitStep, CanSave, CanEmit;
    ReachableInv(n);
    InvStopped(n);
    var p := n.At(s);
    Prepares(p, a.now, a.candidate, l, n.nextId);
    AsksLive(p, l, a.candidate, n.nextId);
    var n1 := Next(n, a);
    Recovery.ReachableStep(n, a);
    var n2 := Next(n1, Label.Save(s));
    Recovery.ReachableStep(n1, Label.Save(s));
    var n3 := Next(n2, Emit(s));
    Recovery.ReachableStep(n2, Emit(s));
    assert n3 == n.With(s, Asking(p, l, a.candidate, n.nextId)).(nextId := n.nextId + 2);
    m := Leaves(n3, s);
    SameAsking(n3.At(s));
  }

  /** The only queued message, a challenge, goes on the wire. */
  lemma Leaves(n: Net, s: Side) returns (m: Net)
    requires Reachable(n) && !n.At(s).stopped && Live(n.At(s)) && n.At(s).sendq == [Ready(LiveEnvelope(n.At(s)))]
    requires GoodChannel(n.From(s)) && InFlight(n.From(s)) == []
    ensures Reachable(m) && m.At(s) == n.At(s).(sendq := []) && m.At(Other(s)) == n.At(Other(s))
    ensures GoodChannel(m.From(s)) && InFlight(m.From(s)) == [LiveEnvelope(n.At(s))]
  {
    hide Reachable, ChallengeEnvelope, Live;
    m := Next(n, Transmit(s, false));
    Recovery.ReachableStep(n, Transmit(s, false));
    Workload.OnTheWire(n.From(s), Some(LiveEnvelope(n.At(s))));
  }

  lemma SameAsking(p: Peer)
    requires Live(p)
    ensures Live(p.(sendq := [])) && LiveLogin(p.(sendq := [])) == LiveLogin(p)
  {}

  /** The other side, holding the current password, installs the candidate, saves it and queues its answer. */
  lemma TakesCandidate(n: Net, s: Side, l: Login) returns (m: Net)
    requires Reachable(n) && ChallengeOut(n, s, l)
    requires var p, q := n.At(s), n.At(Other(s));
             && q.phase.Idle? && q.inq == [] && !Busy(q) && l in q.mem.from
             && q.mem.from[l].pwd == p.mem.to[l].pwd != p.mem.to[l].newPwd
    ensures Reachable(m) && m.At(s) == n.At(s) && m.At(Other(s)).phase.Idle?
    ensures var q, q' := n.At(Other(s)), m.At(Other(s));
            q'.mem == q.mem.(from := q.mem.from[l := WithPassword(q.mem.from[l], n.At(s).mem.to[l].newPwd, 0)])
  {
    hide Reachable, Inv, Peers.Receive, Peers.Process, ChallengeEnvelope;
    var o := Other(s);
    Workload.OffTheWire(n.From(s));
    var n1 := Next(n, Receive(o, false));
    Recovery.ReachableStep(n, Receive(o, false));
    OpensRequest(n, s, l);
    var n2 := Next(n1, Process(o, 0));
    Recovery.ReachableStep(n1, Process(o, 0));
    InstallsRequest(n1, s, l);
    var n3 := Next(n2, Label.Save(o));
    Recovery.ReachableStep(n2, Label.Save(o));
    m := Next(n3, Emit(o));
    Recovery.ReachableStep(n3, Emit(o));
  }

  lemma OpensRequest(n: Net, s: Side, l: Login)
    requires Reachable(n) && ChallengeOut(n, s, l)
    requires l in n.At(Other(s)).mem.from && n.At(Other(s)).mem.from[l].pwd
              == n.At(s).mem.to[l].pwd != n.At(s).mem.to[l].newPwd
    requires n.At(Other(s)).inq == []
    ensures var p, q := n.At(s), n.At(Other(s));
            var q' := Peers.Receive(q, LiveEnvelope(p), false);
            && q'.inq == [Incoming(l, ChangePwdRequest(p.ctx.value.mIdRequest, Base64.Encode(p.mem.to[l].newPwd)))]
            && q' == q.(inq := q'.inq)
  {
    hide Inv, OpenedChallenge, ChallengeEnvelope, Base64.Encode, Opened, OpenKey, Internal, Reachable;
    var p, q := n.At(s), n.At(Other(s));
    ReachableInv(n);
    Recovery.LiveAgree(n, s, false);
    ChallengeOpens(p, q, false);
    LiveLoginOf(p);
    Recovery.Elements(p, q.mem.from[l].pwd);
    assert q.extq + [] == q.extq;
    Rounds.InternalOne(l, ChangePwdRequest(p.ctx.value.mIdRequest, Base64.Encode(p.mem.to[l].newPwd)));
  }

  lemma InstallsRequest(n: Net, s: Side, l: Login)
    requires Reachable(n) && Live(n.At(s)) && LiveLogin(n.At(s)) == l
    requires var p, q := n.At(s), n.At(Other(s));
             && !Busy(q) && l in q.mem.from
             && q.inq == [Incoming(l, ChangePwdRequest(p.ctx.value.mIdRequest, Base64.Encode(p.mem.to[l].newPwd)))]
    ensures var p, q := n.At(s), n.At(Other(s));
            Peers.Process(q, 0) == q.(inq := [], phase := Installed(p.ctx.value.mIdRequest), mem := q.mem.(
              from := q.mem.from[l := WithPassword(q.mem.from[l], p.mem.to[l].newPwd, 0)]))
  {
    hide Inv, Base64.Encode, Base64.Decode, GuardAccepts, Reachable, Direction, AllOlder;
    ReachableInv(n);
    InvAt(n, s);
    RequestText(n.At(s).mem.to[l].newPwd);
    assert Busy(n.At(Other(s)).(inq := [])) == Busy(n.At(Other(s)));
  }

  /** A round whose answer is lost with the connection. */
  lemma CutRound(n: Net, s: Side, a: Label, l: Login) returns (m: Net)
    requires Reachable(n) && StartsAlone(n, s, a, l)
    requires n.At(Other(s)).mem.from[l].pwd == n.At(s).mem.to[l].pwd
    requires WithCandidate(n.At(s).mem.to[l], a.candidate).newPwd != n.At(s).mem.to[l].pwd
    ensures Reachable(m) && m.left.stopped && m.right.stopped && m.left.phase.Idle? && m.right.phase.Idle?
    ensures var p, q, entry := n.At(s), n.At(Other(s)), WithCandidate(n.At(s).mem.to[l], a.candidate);
            && m.At(s).mem == p.mem.(to := p.mem.to[l := entry])
            && m.At(Other(s)).mem == q.mem.(from := q.mem.from[l := WithPassword(q.mem.from[l], entry.newPwd, 0)])
  {
    hide DueLogin, ChallengeEnvelope, Reachable, Inv;
    var n1 := SendsChallenge(n, s, a, l);
    var n2 := TakesCandidate(n1, s, l);
    m := Next(n2, Disconnect);
    Recovery.ReachableStep(n2, Disconnect);
  }

  /** A process with one login, whose password is the same in both directions. */
  function OneLogin(me: SiteId, remote: SiteId, l: Login, pwd: Bytes): Peer {
    var a := Auth(pwd, [], false, 0);
    var store := Store([l], map[l := a], map[l := a]);
    Peer(me, remote, "", store, store, None, false, false, true, [], [], [], Idle)
  }

  function TwoPeers(x: SiteId, y: SiteId, l: Login, pwd: Bytes): Net {
    Net(OneLogin(x, y, l, pwd), OneLogin(y, x, l, pwd), EMPTY, EMPTY, 0)
  }

  lemma TwoPeersInitial(x: SiteId, y: SiteId, l: Login, pwd: Bytes)
    requires GoodLength(pwd)
    ensures Reachable(TwoPeers(x, y, l, pwd))
  {
    var n := TwoPeers(x, y, l, pwd);
    assert forall s :: InitialPeer(n.At(s)) && SamePasswords(n.At(s), n.At(Other(s)));
    assert Initial(n) && IsRun([n], []) && [n][0] == n;
  }

  /** Both sides stopped between events, with one login each. */
  predicate Resting(n: Net, l: Login) {
    && n.left.stopped && n.right.stopped && n.left.phase.Idle? && n.right.phase.Idle?
    && forall s :: n.At(s).mem.order == [l] && l in n.At(s).mem.to && l in n.At(s).mem.from
  }

  /** Side s connects, rotates its only login and loses the answer with the connection. */
  lemma ConnectAndCut(n: Net, s: Side, l: Login, candidate: Bytes) returns (m: Net)
    requires Reachable(n) && Resting(n, l)
    requires var t := n.At(s).mem.to[l];
             && !t.pending && |candidate| == |t.pwd| && candidate != t.pwd && n.At(Other(s)).mem.from[l].pwd == t.pwd
    ensures Reachable(m) && Resting(m, l)
    ensures m.At(s).mem.to[l] == n.At(s).mem.to[l].(newPwd := candidate, pending := true)
    ensures m.At(s).mem.from == n.At(s).mem.from && m.At(Other(s)).mem.to == n.At(Other(s)).mem.to
    ensures m.At(Other(s)).mem.from[l].pwd == candidate
  {
    hide Reachable;
    var c := Next(n, Connect(""));
    Recovery.ReachableStep(n, Connect(""));
    var a := Scan(s, n.At(s).mem.to[l].stamp + TRIGGER_SECONDS + 1, candidate);
    assert InFlight(EMPTY) == [];
    OneDue(c.At(s).mem.order, c.At(s).mem.to, a.now, l);
    assert StartsAlone(c, s, a, l);
    m := CutRound(c, s, a, l);
  }

  lemma OneDue(order: seq<Login>, to: map<Login, Auth>, now: int, l: Login)
    requires order == [l] && l in to && Due(to[l], now)
    ensures DueLogin(order, to, now) == Some(l)
  {}

  /** The stale state arises from one lost answer in each direction, whatever the sites, the login and the
      passwords, in a run without any crash. */
  lemma StaleIsReachable(x: SiteId, y: SiteId, l: Login, pwd: Bytes, here: Bytes, there: Bytes) returns (m: Net)
    requires GoodLength(pwd) && |here| == |there| == |pwd| && here != pwd && there != pwd
    ensures Reachable(m)
    ensures MutuallyStale(m, Left, l, Auth(pwd, here, true, 0), l, Auth(pwd, there, true, 0))
  {
    hide Reachable, Inv;
    var n := TwoPeers(x, y, l, pwd);
    TwoPeersInitial(x, y, l, pwd);
    assert forall s :: n.At(s).mem.order == [l];
    var n1 := ConnectAndCut(n, Left, l, here);
    m := ConnectAndCut(n1, Right, l, there);
    ReachableInv(m);
    Saved(m, Left);
    Saved(m, Right);
  }

  lemma Saved(n: Net, s: Side)
    requires Inv(n) && n.At(s).phase.Idle?
    ensures n.At(s).disk.to == n.At(s).mem.to && n.At(s).disk.from == n.At(s).mem.from
    ensures GoodChannel(n.From(s))
  {
    InvAt(n, s);
  }
}
