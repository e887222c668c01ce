/** The password-rotation challenge over whole runs: in every reachable state, and whatever mixture of
    memory and saved file the two processes restart from, both ends of a login hold a common password;
    a challenge runs exactly while its timer is armed; a saved candidate stays until it is used. */
module Agreement {
  import opened Basics
  import opened Wire
  import opened Credentials
  import opened Peers
  import opened Network
  import opened ChallengeInvariant
  import Base64

  // --------------------------------------------------------- fresh identifiers

  lemma OlderLonger(p: Peer, w: seq<Envelope>, next: nat, next': nat)
    requires AllOlder(p, w, next) && next <= next'
    ensures AllOlder(p, w, next')
  {
    forall m | Older(m, next) ensures Older(m, next') {}
  }

  lemma OlderBegin(p: Peer, w: seq<Envelope>, next: nat, now: int, candidate: Bytes)
    requires AllOlder(p, w, next) && p.phase.Idle?
    ensures AllOlder(Begin(p, now, candidate), w, next)
  {
    hide DueLogin;
  }

  lemma OlderEmit(p: Peer, w: seq<Envelope>, next: nat)
    requires AllOlder(p, w, next) && CanEmit(p)
    ensures AllOlder(EmitStep(p, next, next + 1), w, next + 2)
  {
    hide Base64.Encode, SealKey;
    OlderLonger(p, w, next, next + 2);
  }

  lemma OlderFrame(p: Peer, p': Peer, w: seq<Envelope>, next: nat, extra: seq<Outgoing>)
    requires AllOlder(p, w, next) && p'.sendq == p.sendq + extra && (forall x :: x in p'.inq ==> x in p.inq)
    requires forall o :: o in extra ==> o.ToSeal? && Older(o.body, next)
    requires p'.ctx.Some? && p'.ctx.value.running ==>
               p.ctx.Some? && p.ctx.value.running && p'.ctx.value.mIdRequest == p.ctx.value.mIdRequest
                         && p'.ctx.value.mIdPing == p.ctx.value.mIdPing
    requires p'.phase.Installed? || p'.phase.Committed? ==> p'.phase.oMId < next
    ensures AllOlder(p', w, next)
  {}

  lemma OlderProcess(p: Peer, w: seq<Envelope>, next: nat, now: int)
    requires AllOlder(p, w, next) && p.phase.Idle? && p.inq != []
    ensures AllOlder(Peers.Process(p, now), w, next)
  {
    hide Handle, AllOlder;
    var x, p0 := p.inq[0], p.(inq := p.inq[1..]);
    assert x in p.inq && p0.sendq == p.sendq + [] && forall y :: y in p0.inq ==> y in p.inq;
    OlderAt(p, w, next, x);
    OlderFrame(p, p0, w, next, []);
    OlderHandle(p0, w, next, x.login, x.body, now);
  }

  lemma OlderHandle(p: Peer, w: seq<Envelope>, next: nat, l: Login, body: Message, now: int)
    requires AllOlder(p, w, next) && p.phase.Idle? && Older(body, next)
    ensures AllOlder(Handle(p, l, body, now), w, next)
  {
    hide OnRequest, AllOlder, OnResponse, OnPong;
    var p' := Handle(p, l, body, now);
    assert p.sendq + [] == p.sendq;
    match body
    case ChangePwdRequest(m, text) =>
      RequestEffect(p, l, m, text, now);
      var extra := if p'.sendq == p.sendq then [] else [ToSeal(None, ChangePwdResponse(m, false))];
      OlderFrame(p, p', w, next, extra);
    case Ping(m) => OlderFrame(p, p', w, next, [ToSeal(None, Pong(m))]);
    case AllClear => OlderFrame(p, p', w, next, []);
    case ChangePwdResponse(o, status) => OlderAnswered(p, w, next, o, status, now);
    case Pong(o) => OlderAnswered(p, w, next, o, true, now);
    case Application(_) =>
  }

  lemma OlderAnswered(p: Peer, w: seq<Envelope>, next: nat, o: nat, status: bool, now: int)
    requires AllOlder(p, w, next) && p.phase.Idle?
    ensures AllOlder(OnResponse(p, o, status, now), w, next) && AllOlder(OnPong(p, o, now), w, next)
  {
    hide AllOlder;
    assert p.sendq + [] == p.sendq;
    OlderFrame(p, OnResponse(p, o, status, now), w, next, []);
    OlderFrame(p, OnPong(p, o, now), w, next, []);
  }

  lemma OlderAt(p: Peer, w: seq<Envelope>, next: nat, x: Incoming)
    requires AllOlder(p, w, next) && x in p.inq
    ensures Older(x.body, next)
  {}

  lemma OlderTransmit(p: Peer, w: seq<Envelope>, next: nat, late: bool)
    requires AllOlder(p, w, next) && p.sendq != []
    ensures AllOlder(p.(sendq := p.sendq[1..]), WithSent(w, Sent(p, p.sendq[0], late)), next)
  {
    hide SealKey;
    assert p.sendq[0] in p.sendq;
  }

  lemma OlderReceive(p: Peer, w: seq<Envelope>, q: Peer, v: seq<Envelope>, next: nat, late: bool)
    requires AllOlder(p, w, next) && AllOlder(q, v, next) && v != []
    ensures AllOlder(Peers.Receive(p, v[0], late), w, next) && AllOlder(q, v[1..], next)
  {
    Taken(p, v[0], late);
    assert v[0] in v;
  }

  // --------------------------------------------------------------- both sides

  ghost predicate PairGood(p: Peer, q: Peer, w: seq<Envelope>, v: seq<Envelope>, next: nat) {
    && p.me == q.remote && q.me == p.remote && p.stopped == q.stopped
    && PeerGood(p) && PeerGood(q)
    && Direction(p, q, w, v) && Direction(q, p, v, w)
    && (!p.stopped ==> p.cipher == q.cipher && AllOlder(p, w, next) && AllOlder(q, v, next))
  }

  ghost predicate Inv(n: Net) {
    && GoodChannel(n.fromLeft) && GoodChannel(n.fromRight)
    && PairGood(n.left, n.right, InFlight(n.fromLeft), InFlight(n.fromRight), n.nextId)
  }

  lemma ScanPair(p: Peer, q: Peer, w: seq<Envelope>, v: seq<Envelope>, next: nat, now: int, candidate: Bytes)
    requires PairGood(p, q, w, v, next) && p.phase.Idle? && !p.stopped && GoodCandidate(p, now, candidate)
    ensures PairGood(Begin(p, now, candidate), q, w, v, next)
  {
    hide DueLogin, PeerGood, Direction, AllOlder;
    BeginKeepsPeer(p, now, candidate);
    BeginInitiator(p, q, w, v, now, candidate);
    BeginResponder(q, p, v, w, now, candidate);
    OlderBegin(p, w, next, now, candidate);
  }

  lemma SavePair(p: Peer, q: Peer, w: seq<Envelope>, v: seq<Envelope>, next: nat)
    requires PairGood(p, q, w, v, next) && CanSave(p)
    ensures PairGood(SaveStep(p), q, w, v, next)
  {
    hide PeerGood, Direction;
    SaveKeepsPeer(p);
    SaveInitiator(p, q, w, v);
    SaveResponder(q, p, v, w);
  }

  lemma EmitPair(p: Peer, q: Peer, w: seq<Envelope>, v: seq<Envelope>, next: nat)
    requires PairGood(p, q, w, v, next) && CanEmit(p)
    ensures PairGood(EmitStep(p, next, next + 1), q, w, v, next + 2)
  {
    hide PeerGood, Direction, AllOlder;
    EmitKeepsPeer(p, next, next + 1);
    EmitInitiator(p, q, w, v, next);
    EmitResponder(q, p, v, w, next, next + 1);
    if !p.stopped {
      OlderEmit(p, w, next);
      OlderLonger(q, v, next, next + 2);
    }
  }

  /** A request a peer has opened carries a password of good length. */
  lemma RequestLength(p: Peer, q: Peer, w: seq<Envelope>, x: Incoming)
    requires PeerGood(p) && RequestsGood(p, q, w) && x in q.inq && x.body.ChangePwdRequest?
    ensures Base64.Decode(x.body.pwd).Some? ==> GoodLength(Base64.Decode(x.body.pwd).value)
  {
    hide Base64.Encode, Base64.Decode;
    assert OpenedRequestGood(p, x);
    RequestText(Candidate(p));
  }

  lemma ProcessPair(p: Peer, q: Peer, w: seq<Envelope>, v: seq<Envelope>, next: nat, now: int)
    requires PairGood(p, q, w, v, next) && p.phase.Idle? && !p.stopped && p.inq != []
    ensures PairGood(Peers.Process(p, now), q, w, v, next)
  {
    var x := p.inq[0];
    assert x in p.inq;
    if x.body.ChangePwdRequest? { RequestLength(q, p, v, x); }
    ProcessParts(p, q, w, v, next, now);
  }

  lemma ProcessParts(p: Peer, q: Peer, w: seq<Envelope>, v: seq<Envelope>, next: nat, now: int)
    requires PairGood(p, q, w, v, next) && p.phase.Idle? && !p.stopped && p.inq != []
    requires p.inq[0].body.ChangePwdRequest? && Base64.Decode(p.inq[0].body.pwd).Some? ==>
               GoodLength(Base64.Decode(p.inq[0].body.pwd).value)
    ensures PairGood(Peers.Process(p, now), q, w, v, next)
  {
    hide Direction, AllOlder, Base64.Decode, Handle;
    var p0 := p.(inq := p.inq[1..]);
    assert PeerGood(p0);
    HandleKeepsPeer(p0, p.inq[0].login, p.inq[0].body, now);
    HandleFrame(p0, p.inq[0].login, p.inq[0].body, now);
    ProcessInitiator(p, q, w, v, now);
    ProcessResponder(q, p, v, w, now);
    OlderProcess(p, w, next, now);
  }

  lemma HandleFrame(p: Peer, l: Login, body: Message, now: int)
    ensures var p' := Handle(p, l, body, now);
            p'.me == p.me && p'.remote == p.remote && p'.cipher == p.cipher && p'.stopped == p.stopped
  {
    hide Busy, GuardAccepts, Base64.Decode;
  }

  lemma TransmitPair(p: Peer, q: Peer, w: seq<Envelope>, v: seq<Envelope>, next: nat, late: bool)
    requires PairGood(p, q, w, v, next) && !p.stopped && p.sendq != []
    ensures PairGood(p.(sendq := p.sendq[1..]), q, WithSent(w, Sent(p, p.sendq[0], late)), v, next)
  {
    var p' := p.(sendq := p.sendq[1..]);
    assert PeerGood(p') && RequestsGood(p, q, w);
    TransmitParts(p, q, w, v, next, late);
  }

  lemma TransmitParts(p: Peer, q: Peer, w: seq<Envelope>, v: seq<Envelope>, next: nat, late: bool)
    requires PairGood(p, q, w, v, next) && !p.stopped && p.sendq != []
    requires PeerGood(p.(sendq := p.sendq[1..])) && RequestsGood(p, q, w)
    ensures PairGood(p.(sendq := p.sendq[1..]), q, WithSent(w, Sent(p, p.sendq[0], late)), v, next)
  {
    hide PeerGood, Direction, AllOlder, RequestsGood, Sent;
    TransmitInitiator(p, q, w, v, late);
    TransmitResponder(q, p, v, w, late);
    OlderTransmit(p, w, next, late);
  }

  lemma ReceiveKeepsPeer(p: Peer, e: Envelope, late: bool)
    requires PeerGood(p)
    ensures PeerGood(Peers.Receive(p, e, late))
  {
    hide Opened, OpenKey, Internal, External;
  }

  lemma SavedKeys(p: Peer)
    requires PeerGood(p)
    ensures p.mem.to.Keys == p.disk.to.Keys && p.mem.from.Keys == p.disk.from.Keys
  {}

  lemma ReceivePair(p: Peer, q: Peer, w: seq<Envelope>, v: seq<Envelope>, next: nat, late: bool)
    requires PairGood(p, q, w, v, next) && !p.stopped && v != []
    ensures PairGood(Peers.Receive(p, v[0], late), q, w, v[1..], next)
  {
    hide Direction, AllOlder, PeerGood, Opened, OpenKey, Internal, External;
    ReceiveKeepsPeer(p, v[0], late);
    ReceiveInitiator(p, q, w, v, late);
    SavedKeys(p);
    SavedKeys(q);
    ReceiveResponder(q, p, v, w, late);
    OlderReceive(p, w, q, v, next, late);
  }

  lemma SendPair(p: Peer, q: Peer, w: seq<Envelope>, v: seq<Envelope>, next: nat, login: Option<Login>, payload: Bytes)
    requires PairGood(p, q, w, v, next)
    ensures PairGood(Peers.Send(p, login, payload), q, w, v, next)
  {
    hide Direction, SendLogin;
    SendInitiator(p, q, w, v, login, payload);
    SendResponder(q, p, v, w, login, payload);
  }

  lemma StopPair(p: Peer, q: Peer, w: seq<Envelope>, v: seq<Envelope>, next: nat)
    requires PairGood(p, q, w, v, next)
    ensures PairGood(Stop(p), Stop(q), [], [], next)
  {
    hide PeerGood, AgreeEverywhere, SessionGood, AllOlder;
    StopKeeps(p, q);
    StopKeeps(q, p);
  }

  lemma StopKeeps(p: Peer, q: Peer)
    ensures PeerGood(p) ==> PeerGood(Stop(p))
    ensures AgreeEverywhere(p, q) ==> AgreeEverywhere(Stop(p), Stop(q))
  {}

  lemma CrashPair(p: Peer, q: Peer, w: seq<Envelope>, v: seq<Envelope>, next: nat)
    requires PairGood(p, q, w, v, next)
    ensures PairGood(Restart(p), Stop(q), [], [], next)
  {
    hide Load, Credentials.Save;
    StopPair(p, q, w, v, next);
    RestartKeepsPeer(p);
  }

  lemma StartPair(p: Peer, q: Peer, w: seq<Envelope>, v: seq<Envelope>, next: nat, cipher: string)
    requires PairGood(p, q, w, v, next) && p.stopped && p.phase.Idle? && q.phase.Idle?
    ensures PairGood(Start(p, cipher), Start(q, cipher), [], [], next)
  {}

  // -------------------------------------------------------------- whole runs

  /** The invariant as the side s sees it. */
  lemma InvAt(n: Net, s: Side)
    ensures Inv(n) <==>
            && GoodChannel(n.From(s)) && GoodChannel(n.From(Other(s)))
            && PairGood(n.At(s), n.At(Other(s)), InFlight(n.From(s)), InFlight(n.From(Other(s))), n.nextId)
  {}

  lemma TransmitKeepsInv(n: Net, s: Side, late: bool)
    requires Inv(n) && Enabled(n, Transmit(s, late))
    ensures Inv(Next(n, Transmit(s, late)))
  {
    hide PairGood, Sent;
    var p, c := n.At(s), n.From(s);
    InvAt(n, s);
    TransmitPair(p, n.At(Other(s)), InFlight(c), InFlight(n.From(Other(s))), n.nextId, late);
    var n' := Next(n, Transmit(s, late));
    assert InFlight(n'.From(s)) == WithSent(InFlight(c), Sent(p, p.sendq[0], late));
    InvAt(n', s);
  }

  lemma ReceiveKeepsInv(n: Net, s: Side, late: bool)
    requires Inv(n) && Enabled(n, Receive(s, late))
    ensures Inv(Next(n, Receive(s, late)))
  {
    hide PairGood, Peers.Receive;
    var c := n.From(Other(s));
    InvAt(n, s);
    ReceivePair(n.At(s), n.At(Other(s)), InFlight(n.From(s)), InFlight(c), n.nextId, late);
    var n' := Next(n, Receive(s, late));
    assert InFlight(n'.From(Other(s))) == InFlight(c)[1..];
    InvAt(n', s);
  }

  /** A step of the internal thread or the application of side s. */
  lemma LocalKeepsInv(n: Net, a: Label)
    requires Inv(n) && Enabled(n, a)
    requires a.Scan? || a.Process? || a.Save? || a.Emit? || a.Send?
    ensures Inv(Next(n, a))
  {
    hide PairGood, Begin, SaveStep, EmitStep, Peers.Process, Peers.Send, GoodCandidate;
    var s := a.side;
    var p, q, w, v := n.At(s), n.At(Other(s)), InFlight(n.From(s)), InFlight(n.From(Other(s)));
    InvAt(n, s);
    InvAt(Next(n, a), s);
    match a
    case Scan(_, now, candidate) => ScanPair(p, q, w, v, n.nextId, now, candidate);
    case Process(_, now) => ProcessPair(p, q, w, v, n.nextId, now);
    case Save(_) => SavePair(p, q, w, v, n.nextId);
    case Emit(_) => EmitPair(p, q, w, v, n.nextId);
    case Send(_, login, payload) => SendPair(p, q, w, v, n.nextId, login, payload);
  }

  lemma LifeKeepsInv(n: Net, a: Label)
    requires Inv(n) && Enabled(n, a)
    requires a.Disconnect? || a.Connect? || a.Crash?
    ensures Inv(Next(n, a))
  {
    hide PairGood, Stop, Start, Restart;
    var w, v := InFlight(n.fromLeft), InFlight(n.fromRight);
    assert InFlight(EMPTY) == [];
    match a
    case Disconnect => StopPair(n.left, n.right, w, v, n.nextId);
    case Connect(cipher) =>
      InvStopped(n);
      StartPair(n.left, n.right, w, v, n.nextId, cipher);
    case Crash(s) =>
      InvAt(n, s);
      InvAt(Next(n, a), s);
      CrashPair(n.At(s), n.At(Other(s)), InFlight(n.From(s)), InFlight(n.From(Other(s))), n.nextId);
  }

  lemma InvStopped(n: Net)
    requires Inv(n)
    ensures n.left.stopped == n.right.stopped
  {}

  /** Every step keeps the invariant. */
  lemma StepKeepsInv(n: Net, a: Label)
    requires Inv(n) && Enabled(n, a)
    ensures Inv(Next(n, a))
  {
    match a
    case Transmit(s, late) => TransmitKeepsInv(n, s, late);
    case Receive(s, late) => ReceiveKeepsInv(n, s, late);
    case Disconnect => LifeKeepsInv(n, a);
    case Connect(_) => LifeKeepsInv(n, a);
    case Crash(_) => LifeKeepsInv(n, a);
    case _ => LocalKeepsInv(n, a);
  }

  lemma InitialInv(n: Net)
    requires Initial(n)
    ensures Inv(n)
  {
    assert InFlight(EMPTY) == [];
    assert InitialPeer(n.At(Left)) && InitialPeer(n.At(Right));
    assert SamePasswords(n.At(Left), n.At(Other(Left))) && SamePasswords(n.At(Right), n.At(Other(Right)));
  }

  lemma {:induction false} RunKeepsInv(states: seq<Net>, labels: seq<Label>, k: nat)
    requires IsRun(states, labels) && Inv(states[0]) && k <= |labels|
    ensures Inv(states[k])
  {
    if k > 0 {
      RunKeepsInv(states, labels, k - 1);
      StepKeepsInv(states[k - 1], labels[k - 1]);
    }
  }

  lemma ReachableInv(n: Net)
    requires Reachable(n)
    ensures Inv(n)
  {
    var states, labels :| IsRun(states, labels) && Initial(states[0]) && states[|labels|] == n;
    InitialInv(states[0]);
    RunKeepsInv(states, labels, |labels|);
  }

  /** The credentials a process may continue from: its memory, or its file after a restart. */
  function Restored(p: Peer, fromFile: bool): Store {
    if fromFile then Load(Credentials.Save(p.disk)) else p.mem
  }

  /** Agreement and crash safety: in every reachable state, for either direction and every shared login,
      the answering side holds the initiating side's current password or its pending candidate, whichever
      of memory and file each side goes on from. */
  lemma AlwaysAgree(n: Net, s: Side, l: Login, fileHere: bool, fileThere: bool)
    requires Reachable(n)
    requires l in n.At(s).mem.to && l in n.At(Other(s)).mem.from
    ensures var here, there := Restored(n.At(s), fileHere), Restored(n.At(Other(s)), fileThere);
            l in here.to && l in there.from && Agree(here.to[l], there.from[l])
  {
    hide Load, Credentials.Save;
    ReachableInv(n);
    InvAt(n, s);
    var p, q := n.At(s), n.At(Other(s));
    LoadInvertsSave(p.disk);
    LoadInvertsSave(q.disk);
    assert AgreeEverywhere(p, q);
  }

  /** Right after a switch, saved or not, both ends hold the same password in memory and the answering
      side has it on disk. */
  lemma SwitchMeansEqual(n: Net, a: Label, l: Login)
    requires Reachable(n) && Enabled(n, a) && (a.Process? || a.Save?)
    requires var p, p' := n.At(a.side), Next(n, a).At(a.side);
             l in p.mem.to && l in p'.mem.to && p.mem.to[l].pending && !p'.mem.to[l].pending
    requires l in n.At(Other(a.side)).mem.from
    ensures var p', q' := Next(n, a).At(a.side), Next(n, a).At(Other(a.side));
            && p'.mem.to[l].pwd == n.At(a.side).mem.to[l].newPwd
            && q'.mem.from[l].pwd == p'.mem.to[l].pwd && l in q'.disk.from && q'.disk.from[l].pwd == p'.mem.to[l].pwd
  {
    ReachableInv(n);
    StepKeepsInv(n, a);
    SwitchOnlyByProcess(n, a, l);
    InvAt(Next(n, a), a.side);
  }

  lemma SwitchOnlyByProcess(n: Net, a: Label, l: Login)
    requires Enabled(n, a) && (a.Process? || a.Save?)
    requires var p, p' := n.At(a.side), Next(n, a).At(a.side);
             l in p.mem.to && l in p'.mem.to && p.mem.to[l].pending && !p'.mem.to[l].pending
    ensures Next(n, a).At(a.side).mem.to[l].pwd == n.At(a.side).mem.to[l].newPwd
    ensures Next(n, a).At(Other(a.side)) == n.At(Other(a.side))
  {
    hide Peers.Process, SaveStep, CanSave;
    match a
    case Process(_, now) => ProcessSwitches(n.At(a.side), now, l);
    case Save(_) => SaveKeepsMemory(n.At(a.side));
  }

  lemma ProcessSwitches(p: Peer, now: int, l: Login)
    requires p.inq != [] && l in p.mem.to && p.mem.to[l].pending
    ensures var p' := Peers.Process(p, now);
            l in p'.mem.to && (p'.mem.to[l].pending || p'.mem.to[l].pwd == p.mem.to[l].newPwd)
  {
    hide OnRequest;
    var x := p.inq[0];
    if x.body.ChangePwdRequest? { RequestEffect(p.(inq := p.inq[1..]), x.login, x.body.mId, x.body.pwd, now); }
  }

  lemma SaveKeepsMemory(p: Peer)
    requires CanSave(p)
    ensures SaveStep(p).mem == p.mem
  {}

  // -------------------------------------------------- one challenge at a time

  /** Between events of an unstopped session a challenge runs exactly while its timer is armed, nothing is
      waiting to be sent, and its login has a non-empty pending candidate, saved on disk. */
  lemma OneChallenge(n: Net, s: Side)
    requires Reachable(n) && !n.At(s).stopped && n.At(s).phase.Idle? && n.At(s).ctx.Some?
    ensures var p := n.At(s); var c := p.ctx.value;
            && !c.toSend && (c.running <==> c.timer)
            && (c.running ==> c.auth.Some? && Pending(p.mem.to, c.auth.value)
                              && p.mem.to[c.auth.value].newPwd != [] && p.disk.to == p.mem.to)
  {
    ReachableInv(n);
    InvAt(n, s);
    assert GoodStore(n.At(s).mem);
  }

  predicate Answers(p: Peer, body: Message) {
    && p.ctx.Some? && p.ctx.value.running
    && ((body.ChangePwdResponse? && body.oMId == p.ctx.value.mIdRequest)
        || (body.Pong? && body.oMId == p.ctx.value.mIdPing))
  }

  /** A matching answer always ends the challenge: a refusal at once, an acceptance by completing the
      switch. */
  lemma AnswerEnds(n: Net, s: Side, now: int)
    requires Reachable(n) && Enabled(n, Process(s, now)) && Answers(n.At(s), n.At(s).inq[0].body)
    ensures var p' := Next(n, Process(s, now)).At(s);
            && !p'.ctx.value.timer
            && if n.At(s).inq[0].body == ChangePwdResponse(n.At(s).ctx.value.mIdRequest, false)
               then p'.phase.Idle? && !p'.ctx.value.running
               else p'.phase.Switched? && !p'.mem.to[p'.ctx.value.auth.value].pending
  {
    OneChallenge(n, s);
  }

  /** The end of a session disarms the timer of either side, and no step before the next one but the hand-over of a challenge
      that was being prepared arms it. */
  lemma EndDisarms(n: Net, a: Label, s: Side)
    requires Enabled(n, a)
    ensures a.Disconnect? || a.Crash? ==> var p := Next(n, a).At(s); p.stopped && (p.ctx.Some? ==> !p.ctx.value.timer)
    ensures n.At(s).stopped && (n.At(s).ctx.Some? ==> !n.At(s).ctx.value.timer) && !(a == Emit(s) && n.At(s).phase.Stored?) ==>
              var p := Next(n, a).At(s); p.ctx.Some? ==> !p.ctx.value.timer
  {
    hide Busy, GuardAccepts, Base64.Decode, DueLogin, Sent, Opened, Internal, External, Load, Credentials.Save,
         SendLogin, ChallengeEnvelope;
  }

  /** The challenge with request identifier m can no longer be answered. */
  predicate Spent(n: Net, s: Side, m: nat) {
    && m < n.nextId
    && var p := n.At(s);
       p.ctx.Some? && p.ctx.value.running && p.ctx.value.mIdRequest == m ==> p.phase.Switched?
  }

  lemma StepKeepsSpent(n: Net, a: Label, s: Side, m: nat)
    requires Spent(n, s, m) && Enabled(n, a)
    ensures Spent(Next(n, a), s, m)
  {
    hide Busy, GuardAccepts, Base64.Decode, DueLogin, Sent, Opened, Internal, External, Load, Credentials.Save,
         SendLogin;
  }

  /** No challenge takes two answers, over any run and any number of sessions. */
  lemma {:induction false} AtMostOneAnswer(states: seq<Net>, labels: seq<Label>, s: Side, i: nat, j: nat)
    requires IsRun(states, labels) && Initial(states[0]) && i < j < |labels|
    requires labels[i].Process? && labels[i].side == s && Answers(states[i].At(s), states[i].At(s).inq[0].body)
    requires labels[j].Process? && labels[j].side == s && Answers(states[j].At(s), states[j].At(s).inq[0].body)
    ensures states[i].At(s).ctx.value.mIdRequest != states[j].At(s).ctx.value.mIdRequest
  {
    var m := states[i].At(s).ctx.value.mIdRequest;
    RunPrefix(states, labels, i);
    AnswerEnds(states[i], s, labels[i].now);
    AnswerSpends(states[i], s, labels[i].now);
    assert Spent(states[i + 1], s, m);
    SpentLater(states, labels, s, m, i + 1, j);
  }

  lemma RunPrefix(states: seq<Net>, labels: seq<Label>, i: nat)
    requires IsRun(states, labels) && Initial(states[0]) && i <= |labels|
    ensures Reachable(states[i])
  {
    assert IsRun(states[..i + 1], labels[..i]) && states[..i + 1][0] == states[0] && states[..i + 1][i] == states[i];
  }

  lemma AnswerSpends(n: Net, s: Side, now: int)
    requires Reachable(n) && Enabled(n, Process(s, now)) && Answers(n.At(s), n.At(s).inq[0].body)
    ensures Spent(Next(n, Process(s, now)), s, n.At(s).ctx.value.mIdRequest)
  {
    ReachableInv(n);
    InvAt(n, s);
    AnswerEnds(n, s, now);
  }

  lemma {:induction false} SpentLater(states: seq<Net>, labels: seq<Label>, s: Side, m: nat, i: nat, j: nat)
    requires IsRun(states, labels) && i <= j <= |labels| && Spent(states[i], s, m)
    ensures Spent(states[j], s, m)
    decreases j
  {
    hide Spent, Next, Enabled;
    if i < j {
      SpentLater(states, labels, s, m, i, j - 1);
      StepKeepsSpent(states[j - 1], labels[j - 1], s, m);
    }
  }

  // ----------------------------------------------------- stability of a candidate

  /** The entry a, with a pending candidate, is in memory and on disk. */
  predicate Kept(p: Peer, l: Login, a: Auth) {
    a.pending && l in p.mem.to && l in p.disk.to && p.mem.to[l] == a && p.disk.to[l] == a
  }

  /** p' has just made the candidate of a its password. */
  predicate TookCandidate(p': Peer, l: Login, a: Auth) {
    p'.phase.Switched? && l in p'.mem.to && p'.mem.to[l].pwd == a.newPwd && !p'.mem.to[l].pending
  }

  /** The step in which side s does so. */
  predicate SwitchesTo(n: Net, step: Label, s: Side, l: Login, a: Auth) {
    Enabled(n, step) && step.Process? && step.side == s && TookCandidate(Next(n, step).At(s), l, a)
  }

  lemma ProcessKeepsCandidate(p: Peer, now: int, l: Login, a: Auth)
    requires p.inq != [] && Kept(p, l, a)
    ensures Kept(Peers.Process(p, now), l, a) || TookCandidate(Peers.Process(p, now), l, a)
  {
    hide OnRequest;
    var x := p.inq[0];
    if x.body.ChangePwdRequest? { RequestEffect(p.(inq := p.inq[1..]), x.login, x.body.mId, x.body.pwd, now); }
  }

  lemma ScanKeepsCandidate(p: Peer, now: int, candidate: Bytes, l: Login, a: Auth)
    requires Kept(p, l, a)
    ensures Kept(Begin(p, now, candidate), l, a)
  {
    hide DueLogin;
  }

  lemma InternalKeepsCandidate(p: Peer, m1: nat, m2: nat, l: Login, a: Auth)
    requires Kept(p, l, a)
    ensures CanSave(p) ==> Kept(SaveStep(p), l, a)
    ensures CanEmit(p) ==> Kept(EmitStep(p, m1, m2), l, a)
  {
    hide ChallengeEnvelope;
  }

  lemma TrafficKeepsCandidate(p: Peer, e: Envelope, login: Option<Login>, payload: Bytes, l: Login, a: Auth, late: bool)
    requires Kept(p, l, a)
    ensures Kept(Peers.Receive(p, e, late), l, a) && Kept(Peers.Send(p, login, payload), l, a)
  {
    hide Opened, Internal, External, SendLogin;
  }

  lemma StepKeepsCandidate(n: Net, step: Label, s: Side, l: Login, a: Auth)
    requires Inv(n) && Enabled(n, step) && Kept(n.At(s), l, a)
    ensures Kept(Next(n, step).At(s), l, a) || SwitchesTo(n, step, s, l, a)
  {
    hide Begin, SaveStep, EmitStep, Peers.Process, Peers.Receive, Peers.Send, Sent, Load, Credentials.Save, Inv;
    var p := n.At(s);
    match step
    case Crash(_) =>
      InvDisk(n, s);
      LoadInvertsSave(p.disk);
    case Process(_, now) => if step.side == s { ProcessKeepsCandidate(p, now, l, a); }
    case Scan(_, now, candidate) => ScanKeepsCandidate(p, now, candidate, l, a);
    case Receive(_, late) =>
      if step.side == s {
        var c := n.From(Other(s));
        TrafficKeepsCandidate(p, c.log[c.taken], None, [], l, a, late);
      }
    case Send(_, login, payload) => TrafficKeepsCandidate(p, Envelope([], []), login, payload, l, a, false);
    case _ => InternalKeepsCandidate(p, n.nextId, n.nextId + 1, l, a);
  }

  lemma InvDisk(n: Net, s: Side)
    requires Inv(n)
    ensures GoodStore(n.At(s).disk)
  {}

  /** Once saved, a candidate survives every retry, refusal, timeout, reconnection and restart of either
      side: the only step that ends it is the one that makes it the password. */
  lemma {:induction false} CandidateStable(states: seq<Net>, labels: seq<Label>, s: Side, l: Login, a: Auth, i: nat,
                                           j: nat)
    requires IsRun(states, labels) && Initial(states[0]) && i <= j <= |labels| && Kept(states[i].At(s), l, a)
    requires forall k :: i <= k < j ==> !SwitchesTo(states[k], labels[k], s, l, a)
    ensures Kept(states[j].At(s), l, a)
    decreases j
  {
    hide Kept, SwitchesTo, Inv, Next, Enabled;
    if i < j {
      CandidateStable(states, labels, s, l, a, i, j - 1);
      RunPrefix(states, labels, j - 1);
      ReachableInv(states[j - 1]);
      StepKeepsCandidate(states[j - 1], labels[j - 1], s, l, a);
    }
  }

  /** The candidate is saved before the challenge leaves: from the moment it is queued it is stable. */
  lemma QueuedMeansKept(n: Net, s: Side)
    requires Reachable(n) && n.At(s).phase.Stored?
    ensures n.At(s).phase.login in n.At(s).mem.to
              && Kept(n.At(s), n.At(s).phase.login, n.At(s).mem.to[n.At(s).phase.login])
  {
    ReachableInv(n);
    InvAt(n, s);
  }
}
