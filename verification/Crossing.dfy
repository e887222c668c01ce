/** Two challenges that cross. When both sides find a due login at their first scan, each request meets a running
    challenge, and the busy test of the answering side looks at the first two logins of the site. Where these all have a
    candidate the request is refused, the refusal is followed by a scan, and the scan finds the same login again: nothing
    is accepted while the session lasts, and in a later session only by a thread that finds the other side's challenge in
    its queue in its first turn, before its first scan. Otherwise one of the two challenges is taken up. */
module Crossing {
  import opened Basics
  import opened Wire
  import opened Credentials
  import opened Peers
  import opened Network
  import opened ChallengeInvariant
  import opened Agreement
  import Rounds
  import Recovery
  import Stale
  import Workload
  import Base64

  // ------------------------------------------------------------ the turns of a thread

  /** Since the last message it took up in the session, the internal thread of side s has not scanned yet. */
  predicate Owes(labels: seq<Label>, s: Side, k: nat)
    requires k <= |labels|
  {
    k > 0 && OwesAfter(labels[k - 1], s, Owes(labels, s, k - 1))
  }

  predicate OwesAfter(a: Label, s: Side, owes: bool) {
    if a.Connect? || (a.Scan? && a.side == s) then false else (a.Process? && a.side == s) || owes
  }

  /** Since the session opened the internal thread of side s has not scanned: it is in its first turn. */
  predicate FirstTurn(labels: seq<Label>, s: Side, k: nat)
    requires k <= |labels|
  {
    k > 0 && FirstAfter(labels[k - 1], s, FirstTurn(labels, s, k - 1))
  }

  predicate FirstAfter(a: Label, s: Side, first: bool) {
    if a.Scan? && a.side == s then false else a.Connect? || first
  }

  /** Each turn of an internal thread ends with a scan: it takes up no further message before. */
  predicate Disciplined(labels: seq<Label>) {
    forall k :: 0 <= k < |labels| && labels[k].Process? ==> !Owes(labels, labels[k].side, k)
  }

  /** The session goes on. */
  predicate Within(a: Label) {
    !a.Disconnect? && !a.Connect? && !a.Crash?
  }

  // ------------------------------------------------------------------ a locked peer

  /** The first two logins of the site have a candidate, or the first one where there is no other. */
  predicate LockedStore(order: seq<Login>, to: map<Login, Auth>) {
    var first, next := FirstLogin(order), NextLogin(order);
    first.Some? && Pending(to, first.value) && (next.None? || Pending(to, next.value))
  }

  predicate Locked(p: Peer) {
    LockedStore(p.mem.order, p.mem.to)
  }

  /** Then a request is refused exactly while an own challenge is under way, and the scan finds the oldest login. */
  lemma LockedMeans(p: Peer, now: int)
    requires Locked(p)
    ensures Busy(p) <==> Active(p.ctx)
    ensures DueLogin(p.mem.order, p.mem.to, now) == Some(p.mem.order[0]) && Pending(p.mem.to, p.mem.order[0])
  {}

  /** q does not hold p's candidate for the login. */
  predicate Barred(p: Peer, q: Peer, l: Login) {
    Pending(p.mem.to, l) && (l in q.mem.from ==> q.mem.from[l].pwd != p.mem.to[l].newPwd)
  }

  /** p can put only such challenges on its way as q does not know the candidate of, and refuses those of the other. */
  predicate Shut(p: Peer, q: Peer, owes: bool) {
    && (p.phase.Idle? || p.phase.Generated? || p.phase.Stored?)
    && Locked(p) && Barred(p, q, p.mem.order[0])
    && (if Active(p.ctx) then p.ctx.value.auth.Some? && Barred(p, q, p.ctx.value.auth.value) else owes || p.stopped)
  }

  /** p' is still shut, and as far as q can tell nothing has happened. */
  predicate StaysShut(p: Peer, p': Peer, q: Peer, owes: bool) {
    Shut(p', q, owes) && p'.mem == p.mem && p'.allClearSent == p.allClearSent
  }

  lemma ScanShut(p: Peer, q: Peer, owes: bool, now: int, candidate: Bytes)
    requires Shut(p, q, owes) && p.phase.Idle? && !p.stopped
    ensures StaysShut(p, Begin(p, now, candidate), q, false)
  {
    hide DueLogin;
    LockedMeans(p, now);
    var l := p.mem.order[0];
    assert p.mem.to[l := p.mem.to[l]] == p.mem.to;
  }

  lemma SaveShut(p: Peer, q: Peer, owes: bool)
    requires Shut(p, q, owes) && CanSave(p)
    ensures StaysShut(p, SaveStep(p), q, owes)
  {}

  lemma EmitShut(p: Peer, q: Peer, owes: bool, m1: nat, m2: nat)
    requires Shut(p, q, owes) && CanEmit(p) && ContextGood(p)
    ensures StaysShut(p, EmitStep(p, m1, m2), q, owes)
  {
    hide ChallengeEnvelope;
  }

  lemma TrafficShut(p: Peer, q: Peer, owes: bool, e: Envelope, login: Option<Login>, payload: Bytes, late: bool)
    requires Shut(p, q, owes)
    ensures StaysShut(p, Peers.Receive(p, e, late), q, owes) && StaysShut(p, Peers.Send(p, login, payload), q, owes)
    ensures p.sendq != [] ==> StaysShut(p, p.(sendq := p.sendq[1..]), q, owes)
  {
    hide Opened, Internal, External, OpenKey, SendLogin;
  }

  /** What a running challenge of p finds in its queue: neither an acceptance nor a confirmation. */
  predicate NoGoodAnswer(p: Peer, m: Message) {
    p.ctx.Some? && p.ctx.value.running ==>
      m != ChangePwdResponse(p.ctx.value.mIdRequest, true) && m != Pong(p.ctx.value.mIdPing)
  }

  lemma AnswersBad(p: Peer, q: Peer, w: seq<Envelope>, v: seq<Envelope>, owes: bool, x: Incoming)
    requires SessionGood(p, q, w, v) && PeerGood(p) && Shut(p, q, owes) && x in p.inq && !p.stopped
    ensures NoGoodAnswer(p, x.body)
  {
    hide Requests, RequestsGood, PingsGood, GoodStore, DiskLags;
    assert ReplyGood(p, q, w, x.body);
  }

  /** A message taken up with an own challenge under way. */
  lemma ProcessShut(p: Peer, q: Peer, w: seq<Envelope>, v: seq<Envelope>, now: int)
    requires SessionGood(p, q, w, v) && RequestsGood(q, p, v) && PeerGood(p) && PeerGood(q) && Shut(p, q, false)
    requires p.phase.Idle? && p.inq != [] && !p.stopped
    ensures StaysShut(p, Peers.Process(p, now), q, true) && Peers.Process(p, now).phase.Idle?
  {
    hide SessionGood, RequestsGood, PeerGood, Locked, Handle;
    var x, p0 := p.inq[0], p.(inq := p.inq[1..]);
    AnswersBad(p, q, w, v, false, x);
    if x.body.ChangePwdRequest? {
      RequestShut(p, q, v, now);
    } else {
      PlainShut(p, p0, q, x.login, x.body, now);
    }
  }

  lemma RequestShut(p: Peer, q: Peer, v: seq<Envelope>, now: int)
    requires RequestsGood(q, p, v) && PeerGood(q) && Shut(p, q, false) && !p.stopped
    requires p.phase.Idle? && p.inq != [] && p.inq[0].body.ChangePwdRequest?
    ensures var x := p.inq[0];
            Peers.Process(p, now)
            == p.(inq := p.inq[1..], sendq := p.sendq + [ToSeal(None, ChangePwdResponse(x.body.mId, false))])
    ensures StaysShut(p, Peers.Process(p, now), q, true)
  {
    hide RequestsGood, Busy, GuardAccepts, Base64.Decode, DiskLags, ContextGood;
    var x := p.inq[0];
    assert x in p.inq;
    Rounds.RequestLive(q, p, v, x);
    LockedMeans(p.(inq := p.inq[1..]), now);
  }

  lemma PlainShut(p: Peer, p0: Peer, q: Peer, l: Login, m: Message, now: int)
    requires Shut(p, q, false) && !p.stopped && p0 == p.(inq := p0.inq) && p.phase.Idle?
    requires !m.ChangePwdRequest? && NoGoodAnswer(p, m)
    ensures StaysShut(p, Handle(p0, l, m, now), q, true) && Handle(p0, l, m, now).phase.Idle?
  {
    hide OnRequest, SwitchInMemory;
  }

  // --------------------------------------------------------------------- whole runs

  /** Both sides are shut, and a thread that has no challenge under way is about to scan or in its first turn. */
  ghost predicate Deadlocked(n: Net, here: bool, there: bool) {
    Inv(n) && Shut(n.left, n.right, here) && Shut(n.right, n.left, there)
  }

  /** Whether the thread may be without a challenge after the step. */
  predicate FreeAfter(a: Label, s: Side, free: bool) {
    if a.Scan? && a.side == s then false else a.Connect? || (a.Process? && a.side == s) || free
  }

  /** The credentials are the same, and AllClear has not been announced since. */
  predicate SameStanding(p: Peer, p': Peer) {
    p'.mem == p.mem && (p'.allClearSent ==> p.allClearSent)
  }

  /** A step of side s, whose own scan is not overdue when it takes up a message. */
  lemma SideShut(n: Net, a: Label, s: Side, owes: bool, other: bool)
    requires Inv(n) && Shut(n.At(s), n.At(Other(s)), owes) && Shut(n.At(Other(s)), n.At(s), other)
    requires Enabled(n, a) && Within(a) && a.side == s && (a.Process? ==> !owes)
    ensures StaysShut(n.At(s), Next(n, a).At(s), n.At(Other(s)), FreeAfter(a, s, owes))
    ensures Next(n, a).At(Other(s)) == n.At(Other(s))
  {
    hide Inv, Shut, StaysShut, Begin, SaveStep, EmitStep, Peers.Process, Peers.Receive, Peers.Send, Sent, CanSave, CanEmit,
         GoodCandidate, SessionGood, RequestsGood, PeerGood;
    ForShut(n, s);
    var p, q, w, v := n.At(s), n.At(Other(s)), InFlight(n.From(s)), InFlight(n.From(Other(s)));
    match a
    case Scan(_, now, candidate) => ScanShut(p, q, owes, now, candidate);
    case Process(_, now) =>
      ForSession(n, s);
      ProcessShut(p, q, w, v, now);
    case Save(_) => SaveShut(p, q, owes);
    case Emit(_) => EmitShut(p, q, owes, n.nextId, n.nextId + 1);
    case Transmit(_, _) => TrafficShut(p, q, owes, Envelope([], []), None, [], false);
    case Receive(_, late) =>
      TrafficShut(p, q, owes, n.From(Other(s)).log[n.From(Other(s)).taken], None, [], late);
    case Send(_, login, payload) => TrafficShut(p, q, owes, Envelope([], []), login, payload, false);
  }

  lemma ForShut(n: Net, s: Side)
    requires Inv(n)
    ensures GoodChannel(n.From(s)) && GoodChannel(n.From(Other(s)))
    ensures PeerGood(n.At(s)) && PeerGood(n.At(Other(s))) && ContextGood(n.At(s))
  {
    hide Direction, AllOlder, GoodStore, DiskLags, ContextGood;
    InvAt(n, s);
  }

  lemma ForSession(n: Net, s: Side)
    requires Inv(n) && !n.At(s).stopped
    ensures GoodChannel(n.From(s)) && GoodChannel(n.From(Other(s))) && !n.At(Other(s)).stopped
    ensures var p, q, w, v := n.At(s), n.At(Other(s)), InFlight(n.From(s)), InFlight(n.From(Other(s)));
            SessionGood(p, q, w, v) && SessionGood(q, p, v, w) && RequestsGood(q, p, v)
  {
    hide AgreeEverywhere, AllOlder, RequestsGood, RepliesGood, PingsGood, GoodStore, DiskLags, ContextGood;
    InvAt(n, s);
  }

  /** The end of a session, and the opening of the next one. */
  lemma LifeShut(n: Net, a: Label, s: Side, owes: bool)
    requires Shut(n.At(s), n.At(Other(s)), owes) && Enabled(n, a) && (a.Disconnect? || a.Connect?)
    ensures Shut(Next(n, a).At(s), Next(n, a).At(Other(s)), FreeAfter(a, s, owes))
    ensures SameStanding(n.At(s), Next(n, a).At(s))
  {}

  /** The other side looks only at the FROM passwords. */
  lemma OtherShut(p: Peer, q: Peer, q': Peer, owes: bool)
    requires Shut(p, q, owes) && q'.mem == q.mem
    ensures Shut(p, q', owes)
  {}

  lemma StepDeadlocked(n: Net, a: Label, here: bool, there: bool)
    requires Deadlocked(n, here, there) && Enabled(n, a) && !a.Crash?
    requires a.Process? ==> if a.side == Left then !here else !there
    ensures Deadlocked(Next(n, a), FreeAfter(a, Left, here), FreeAfter(a, Right, there))
    ensures SameStanding(n.left, Next(n, a).left) && SameStanding(n.right, Next(n, a).right)
  {
    hide Inv, Enabled, Next, Shut;
    StepKeepsInv(n, a);
    if a.Disconnect? || a.Connect? {
      LifeShut(n, a, Left, here);
      LifeShut(n, a, Right, there);
    } else if a.side == Left {
      SideShut(n, a, Left, here, there);
      OtherShut(n.right, n.left, Next(n, a).left, there);
    } else {
      SideShut(n, a, Right, there, here);
      OtherShut(n.left, n.right, Next(n, a).right, here);
    }
  }

  ghost predicate DeadRun(states: seq<Net>, labels: seq<Label>) {
    && IsRun(states, labels) && Disciplined(labels) && (forall i :: 0 <= i < |labels| ==> Within(labels[i]))
    && Deadlocked(states[0], false, false)
  }

  /** Over a whole session: both sides stay shut, no password and no candidate changes, and nothing is announced. */
  lemma {:induction false} StaysDeadlocked(states: seq<Net>, labels: seq<Label>, k: nat)
    requires DeadRun(states, labels) && k <= |labels|
    ensures Deadlocked(states[k], Owes(labels, Left, k), Owes(labels, Right, k))
    ensures SameStanding(states[0].left, states[k].left) && SameStanding(states[0].right, states[k].right)
  {
    hide Deadlocked, Enabled, Next;
    if k > 0 {
      StaysDeadlocked(states, labels, k - 1);
      assert Enabled(states[k - 1], labels[k - 1]) && states[k - 1 + 1] == Next(states[k - 1], labels[k - 1]);
      StepDeadlocked(states[k - 1], labels[k - 1], Owes(labels, Left, k - 1), Owes(labels, Right, k - 1));
    }
  }

  /** The step takes up a challenge: it installs the candidate of a request, or answers the ping of a running
      challenge. */
  predicate TakesUp(n: Net, a: Label) {
    && a.Process? && Enabled(n, a)
    && (Next(n, a).At(a.side).phase.Installed?
        || (Live(n.At(Other(a.side))) && n.At(a.side).inq[0].body == Ping(n.At(Other(a.side)).ctx.value.mIdPing)))
  }

  lemma NothingTaken(n: Net, a: Label, here: bool, there: bool)
    requires Deadlocked(n, here, there) && (a.Process? ==> if a.side == Left then !here else !there)
    ensures !TakesUp(n, a)
  {
    hide Inv, Shut, Enabled;
    if a.Process? {
      if a.side == Left { TakesNone(n, Left, a.now, there); } else { TakesNone(n, Right, a.now, here); }
    }
  }

  lemma TakesNone(n: Net, s: Side, now: int, other: bool)
    requires Inv(n) && Shut(n.At(s), n.At(Other(s)), false) && Shut(n.At(Other(s)), n.At(s), other)
    ensures !TakesUp(n, Process(s, now))
  {
    hide Inv, Shut, Peers.Process, SessionGood, RequestsGood, PeerGood, Live;
    if Enabled(n, Process(s, now)) {
      ForShut(n, s);
      ForSession(n, s);
      var p, q, w, v := n.At(s), n.At(Other(s)), InFlight(n.From(s)), InFlight(n.From(Other(s)));
      if Live(q) { NoPingOpen(q, p, v, w, other); }
      ProcessShut(p, q, w, v, now);
    }
  }

  lemma NoPingOpen(p: Peer, q: Peer, w: seq<Envelope>, v: seq<Envelope>, owes: bool)
    requires SessionGood(p, q, w, v) && Shut(p, q, owes) && q.inq != [] && Live(p)
    ensures q.inq[0].body != Ping(p.ctx.value.mIdPing)
  {
    hide Requests, RequestsGood, RepliesGood;
    assert PingGood(p, q, w, 0);
  }

  // --------------------------------------------------- the oldest login comes first

  /** A challenge under way is for the oldest login of the site where that one has a candidate. */
  predicate Oldest(p: Peer) {
    Active(p.ctx) && !p.phase.Switched? && p.mem.order != [] && Pending(p.mem.to, p.mem.order[0]) ==>
      p.ctx.value.auth == Some(p.mem.order[0])
  }

  lemma ScanOldest(p: Peer, now: int, candidate: Bytes)
    requires Oldest(p)
    ensures Oldest(Begin(p, now, candidate))
  {
    hide DueLogin;
    if p.mem.order != [] { DueFirst(p.mem.order, p.mem.to, now); }
  }

  lemma DueFirst(order: seq<Login>, to: map<Login, Auth>, now: int)
    requires order != []
    ensures Pending(to, order[0]) ==> DueLogin(order, to, now) == Some(order[0])
  {}

  lemma SaveOldest(p: Peer)
    requires Oldest(p) && CanSave(p) && ContextGood(p)
    ensures Oldest(SaveStep(p))
  {}

  lemma EmitOldest(p: Peer, m1: nat, m2: nat)
    requires Oldest(p) && CanEmit(p) && ContextGood(p)
    ensures Oldest(EmitStep(p, m1, m2))
  {
    hide ChallengeEnvelope;
  }

  lemma ProcessOldest(p: Peer, now: int)
    requires Oldest(p) && p.inq != [] && p.phase.Idle?
    ensures Oldest(Peers.Process(p, now))
  {
    hide OnRequest;
    var x, p0 := p.inq[0], p.(inq := p.inq[1..]);
    if x.body.ChangePwdRequest? { RequestEffect(p0, x.login, x.body.mId, x.body.pwd, now); }
  }

  lemma TrafficOldest(p: Peer, e: Envelope, login: Option<Login>, payload: Bytes, late: bool, rest: seq<Outgoing>)
    requires Oldest(p)
    ensures Oldest(Peers.Receive(p, e, late)) && Oldest(Peers.Send(p, login, payload)) && Oldest(p.(sendq := rest))
  {
    hide Opened, Internal, External, OpenKey, SendLogin;
  }

  lemma LifeOldest(p: Peer, cipher: string)
    requires Oldest(p)
    ensures Oldest(Stop(p)) && Oldest(Start(p, cipher)) && Oldest(Restart(p))
  {
    hide Load, Credentials.Save;
  }

  lemma StepKeepsOldest(n: Net, a: Label, s: Side)
    requires Inv(n) && Oldest(n.At(s)) && Enabled(n, a)
    ensures Oldest(Next(n, a).At(s))
  {
    hide Inv, Oldest, Begin, SaveStep, EmitStep, Peers.Process, Peers.Receive, Peers.Send, Sent, CanSave, CanEmit,
         GoodCandidate, Stop, Start, Restart;
    var p := n.At(s);
    ContextAt(n, s);
    LifeOldest(p, if a.Connect? then a.cipher else []);
    if !a.Disconnect? && !a.Connect? && a.side == s {
      match a
      case Scan(_, now, candidate) => ScanOldest(p, now, candidate);
      case Process(_, now) => ProcessOldest(p, now);
      case Save(_) => SaveOldest(p);
      case Emit(_) => EmitOldest(p, n.nextId, n.nextId + 1);
      case Transmit(_, _) => TrafficOldest(p, Envelope([], []), None, [], false, p.sendq[1..]);
      case Receive(_, late) =>
        TrafficOldest(p, n.From(Other(s)).log[n.From(Other(s)).taken], None, [], late, []);
      case Send(_, login, payload) => TrafficOldest(p, Envelope([], []), login, payload, false, []);
      case Crash(_) =>
    }
  }

  lemma ContextAt(n: Net, s: Side)
    requires Inv(n)
    ensures ContextGood(n.At(s))
  {
    hide Direction, AllOlder, GoodStore, DiskLags;
    InvAt(n, s);
  }

  lemma {:induction false} RunKeepsOldest(states: seq<Net>, labels: seq<Label>, s: Side, k: nat)
    requires IsRun(states, labels) && Initial(states[0]) && k <= |labels|
    ensures Oldest(states[k].At(s)) && Inv(states[k])
  {
    hide Inv, Enabled, Next;
    if k == 0 {
      InitialInv(states[0]);
    } else {
      RunKeepsOldest(states, labels, s, k - 1);
      assert states[k - 1 + 1] == Next(states[k - 1], labels[k - 1]);
      StepKeepsInv(states[k - 1], labels[k - 1]);
      StepKeepsOldest(states[k - 1], labels[k - 1], s);
    }
  }

  lemma ReachableOldest(n: Net, s: Side)
    requires Reachable(n)
    ensures Oldest(n.At(s))
  {
    hide Inv, Initial;
    var states, labels :| IsRun(states, labels) && Initial(states[0]) && states[|labels|] == n;
    RunKeepsOldest(states, labels, s, |labels|);
  }

  // ------------------------------------------------------------------- where they meet

  /** The scan has found login l, and nothing else is going on at p. */
  predicate Asks(p: Peer, l: Login) {
    && !p.stopped && p.phase == Generated(l) && p.ctx == Some(NEW_CONTEXT.(auth := Some(l), toSend := true))
    && Pending(p.mem.to, l) && p.sendq == [] && p.inq == []
  }

  /** At the start of a session both sides have found a login to rotate: side s login l, the other one g. */
  predicate Met(n: Net, s: Side, l: Login, g: Login) {
    && Workload.GoodChannels(n) && InFlight(n.fromLeft) == [] && InFlight(n.fromRight) == []
    && Asks(n.At(s), l) && Asks(n.At(Other(s)), g)
  }

  /** Each of the two logins is known to the other side. */
  predicate BothKnown(n: Net, s: Side, l: Login, g: Login) {
    l in n.At(Other(s)).mem.from && g in n.At(s).mem.from
  }

  /** q will take up p's challenge for login l while it has one of its own: one of its first two logins is free, or it
      holds the candidate already and only the ping opens. */
  predicate Room(p: Peer, q: Peer, l: Login) {
    && l in p.mem.to && l in q.mem.from
    && (!Locked(q) || q.mem.from[l].pwd == p.mem.to[l].newPwd != p.mem.to[l].pwd)
  }

  predicate Fresh(p: Peer, l: Login)
    requires l in p.mem.to
  {
    p.mem.to[l].newPwd != p.mem.to[l].pwd
  }

  lemma NoRoomIsShut(n: Net, s: Side, l: Login, g: Login)
    requires Reachable(n) && Met(n, s, l, g) && BothKnown(n, s, l, g) && Fresh(n.At(s), l)
    requires !Room(n.At(s), n.At(Other(s)), l) && !Room(n.At(Other(s)), n.At(s), g)
    ensures Shut(n.At(s), n.At(Other(s)), false)
  {
    hide Reachable;
    ReachableOldest(n, s);
    LockedMeans(n.At(s), 0);
  }

  // ----------------------------------------------------------- runs, step by step

  datatype Course = Course(states: seq<Net>, labels: seq<Label>)

  function End(c: Course): Net
    requires c.states != []
  {
    c.states[|c.states| - 1]
  }

  /** A run of the threads from a reachable state, each taking its turn as it should. */
  ghost predicate Tidy(c: Course) {
    c.states != [] && IsOrderly(c)
  }

  ghost predicate IsOrderly(c: Course)
    requires c.states != []
  {
    && IsRun(c.states, c.labels) && Reachable(c.states[0]) && Reachable(End(c)) && Disciplined(c.labels)
    && forall i :: 0 <= i < |c.labels| ==> Recovery.Orderly(c.states[i], c.labels[i])
  }

  predicate Owing(c: Course, s: Side) {
    Owes(c.labels, s, |c.labels|)
  }

  lemma Begins(n: Net) returns (c: Course)
    requires Reachable(n)
    ensures Tidy(c) && c.states[0] == n && End(c) == n && c.labels == [] && !Owing(c, Left) && !Owing(c, Right)
  {
    hide Reachable;
    c := Course([n], []);
  }

  lemma Goes(c: Course, a: Label) returns (d: Course)
    requires Tidy(c) && Enabled(End(c), a) && Recovery.Orderly(End(c), a) && (a.Process? ==> !Owing(c, a.side))
    ensures Tidy(d) && End(d) == Next(End(c), a) && d.states[0] == c.states[0] && d.labels == c.labels + [a]
    ensures Owing(d, Left) == OwesAfter(a, Left, Owing(c, Left)) && Owing(d, Right) == OwesAfter(a, Right, Owing(c, Right))
  {
    hide Reachable, Enabled, Next, Recovery.Orderly;
    var n := End(c);
    Recovery.ReachableStep(n, a);
    d := Course(c.states + [Next(n, a)], c.labels + [a]);
    forall i | 0 <= i < |d.labels|
      ensures Enabled(d.states[i], d.labels[i]) && d.states[i + 1] == Next(d.states[i], d.labels[i])
      ensures Recovery.Orderly(d.states[i], d.labels[i])
    {
      if i < |c.labels| {
        assert d.states[i] == c.states[i] && d.labels[i] == c.labels[i] && d.states[i + 1] == c.states[i + 1];
      }
    }
    OwesLonger(c.labels, a, Left);
    OwesLonger(c.labels, a, Right);
    forall k | 0 <= k < |d.labels| && d.labels[k].Process? ensures !Owes(d.labels, d.labels[k].side, k) {
      OwesPrefix(c.labels, [a], d.labels[k].side, k);
      assert k < |c.labels| ==> d.labels[k] == c.labels[k];
    }
  }

  lemma {:induction false} OwesPrefix(labels: seq<Label>, more: seq<Label>, s: Side, k: nat)
    requires k <= |labels|
    ensures Owes(labels + more, s, k) == Owes(labels, s, k)
  {
    if k > 0 { OwesPrefix(labels, more, s, k - 1); }
  }

  lemma OwesLonger(labels: seq<Label>, a: Label, s: Side)
    ensures Owes(labels + [a], s, |labels| + 1) == OwesAfter(a, s, Owes(labels, s, |labels|))
  {
    OwesPrefix(labels, [a], s, |labels|);
  }

  // ------------------------------------------------------ both challenges on the wire

  /** p with its challenge for login l handed over to the wire. */
  function Asked(p: Peer, l: Login, m: nat): Peer {
    p.(disk := p.mem, phase := Idle, ctx := Some(Context(Some(l), false, true, true, m, m + 1)))
  }

  lemma AskedLive(p: Peer, l: Login, m: nat)
    requires Asks(p, l)
    ensures Live(Asked(p, l, m)) && LiveLogin(Asked(p, l, m)) == l
    ensures CanSave(p) && CanEmit(SaveStep(p))
    ensures EmitStep(SaveStep(p), m, m + 1) == Asked(p, l, m).(sendq := [Ready(LiveEnvelope(Asked(p, l, m)))])
  {
    hide Base64.Encode, Derive;
  }

  /** The save and the hand-over of side r's challenge. */
  lemma AsksOne(c: Course, r: Side, l: Login) returns (d: Course)
    requires Tidy(c) && Asks(End(c).At(r), l)
    ensures Tidy(d) && d.states[0] == c.states[0] && d.labels == c.labels + [Label.Save(r), Emit(r)]
    ensures Owing(d, Left) == Owing(c, Left) && Owing(d, Right) == Owing(c, Right)
    ensures var n, m := End(c), End(d);
            var p := Asked(n.At(r), l, n.nextId);
            Live(p) && LiveLogin(p) == l && m == n.With(r, p.(sendq := [Ready(LiveEnvelope(p))])).(nextId := n.nextId + 2)
  {
    hide IsOrderly, LiveEnvelope, SaveStep, EmitStep, CanSave, CanEmit, Owing, Live;
    var n := End(c);
    AskedLive(n.At(r), l, n.nextId);
    d := Goes(c, Label.Save(r));
    d := Goes(d, Emit(r));
    assert c.labels + [Label.Save(r)] + [Emit(r)] == c.labels + [Label.Save(r), Emit(r)];
  }

  /** Side r's only queued message is on the wire. */
  lemma LeavesOne(c: Course, r: Side, e: Envelope) returns (d: Course)
    requires Tidy(c) && !End(c).At(r).stopped && End(c).At(r).phase.Idle?
    requires End(c).At(r).sendq != [] && Sent(End(c).At(r), End(c).At(r).sendq[0], false) == Some(e)
    requires GoodChannel(End(c).From(r))
    ensures Tidy(d) && d.states[0] == c.states[0] && d.labels == c.labels + [Transmit(r, false)]
    ensures Owing(d, Left) == Owing(c, Left) && Owing(d, Right) == Owing(c, Right)
    ensures var n, m := End(c), End(d);
            && m.At(r) == n.At(r).(sendq := n.At(r).sendq[1..]) && m.At(Other(r)) == n.At(Other(r))
            && m.From(Other(r)) == n.From(Other(r))
            && GoodChannel(m.From(r)) && InFlight(m.From(r)) == InFlight(n.From(r)) + [e]
  {
    hide IsOrderly, Sent, Owing;
    d := Goes(c, Transmit(r, false));
    Workload.OnTheWire(End(c).From(r), Some(e));
  }

  /** Both challenges are on the wire, and nothing else is going on. */
  predicate Crossed(n: Net, s: Side, l: Login, g: Login) {
    && Stale.ChallengeOut(n, s, l) && Stale.ChallengeOut(n, Other(s), g)
    && n.At(s).sendq == [] && n.At(s).inq == [] && n.At(Other(s)).sendq == [] && n.At(Other(s)).inq == []
  }

  lemma Crosses(n: Net, s: Side, l: Login, g: Login) returns (c: Course)
    requires Reachable(n) && Met(n, s, l, g)
    ensures Tidy(c) && c.states[0] == n && !Owing(c, Left) && !Owing(c, Right)
    ensures Crossed(End(c), s, l, g) && End(c).At(s).mem == n.At(s).mem && End(c).At(Other(s)).mem == n.At(Other(s)).mem
  {
    hide Reachable, IsOrderly, LiveEnvelope, Live, Owing;
    var o := Other(s);
    c := Begins(n);
    c := AsksOne(c, o, g);
    assert Asks(End(c).At(s), l);
    c := AsksOne(c, s, l);
    var p, q := Asked(n.At(s), l, n.nextId + 2), Asked(n.At(o), g, n.nextId);
    c := LeavesOne(c, o, LiveEnvelope(q));
    c := LeavesOne(c, s, LiveEnvelope(p));
    EnvelopeOnly(p, p.(sendq := []));
    EnvelopeOnly(q, q.(sendq := []));
    assert End(c).At(s) == p.(sendq := []) && End(c).At(o) == q.(sendq := []);
    assert InFlight(End(c).From(s)) == [LiveEnvelope(p)] && InFlight(End(c).From(o)) == [LiveEnvelope(q)];
    assert Stale.ChallengeOut(End(c), s, l) && Stale.ChallengeOut(End(c), o, g);
  }

  /** The envelope of a challenge does not depend on the FROM passwords and the queues. */
  lemma EnvelopeOnly(p: Peer, p': Peer)
    requires Live(p) && p'.mem.to == p.mem.to
    requires p' == p.(mem := p'.mem, disk := p'.disk, inq := p'.inq, extq := p'.extq, sendq := p'.sendq)
    ensures Live(p') && LiveLogin(p') == LiveLogin(p) && LiveEnvelope(p') == LiveEnvelope(p)
  {
    hide Base64.Encode, Derive;
  }

  // ------------------------------------------------------------- a challenge arrives

  function RequestOf(p: Peer): Message
    requires Live(p)
  {
    ChangePwdRequest(p.ctx.value.mIdRequest, Base64.Encode(Candidate(p)))
  }

  function PingOf(p: Peer): Message
    requires Live(p)
  {
    Ping(p.ctx.value.mIdPing)
  }

  /** What q opens of p's challenge: the request, the ping, or both where the candidate is the password. */
  function Elements(p: Peer, q: Peer): seq<Incoming>
    requires Live(p) && LiveLogin(p) in q.mem.from
  {
    var l, held := LiveLogin(p), q.mem.from[LiveLogin(p)].pwd;
    (if held == p.mem.to[l].pwd then [Incoming(l, RequestOf(p))] else [])
    + (if held == p.mem.to[l].newPwd then [Incoming(l, PingOf(p))] else [])
  }

  lemma ChallengeArrives(p: Peer, q: Peer)
    requires Live(p) && Matched(p, q) && LiveLogin(p) in q.mem.from
    ensures Peers.Receive(q, LiveEnvelope(p), false) == q.(inq := q.inq + Elements(p, q))
  {
    hide Base64.Encode, Opened, OpenKey, Internal, External, ChallengeEnvelope;
    var l := LiveLogin(p);
    ChallengeOpens(p, q, false);
    EnvelopeLogin(p);
    var list := OpenedChallenge(p, q.mem.from[l].pwd);
    ElementsInternal(p, q, list);
    assert q.extq + [] == q.extq;
  }

  lemma EnvelopeLogin(p: Peer)
    requires Live(p)
    ensures LiveEnvelope(p).login == LiveLogin(p)
  {
    hide Base64.Encode;
  }

  lemma ElementsInternal(p: Peer, q: Peer, list: seq<Message>)
    requires Live(p) && LiveLogin(p) in q.mem.from && list == OpenedChallenge(p, q.mem.from[LiveLogin(p)].pwd)
    ensures Internal(LiveLogin(p), list) == Elements(p, q) && External(list) == []
  {
    hide Base64.Encode;
    if |list| == 2 {
      assert list[1..][0] == list[1] && list[1..][1..] == [];
      Rounds.InternalOne(LiveLogin(p), list[1]);
    } else if |list| == 1 {
      Rounds.InternalOne(LiveLogin(p), list[0]);
    }
  }

  lemma ElementsThere(n: Net, s: Side)
    requires Inv(n) && Live(n.At(s)) && LiveLogin(n.At(s)) in n.At(Other(s)).mem.from
    ensures Matched(n.At(s), n.At(Other(s))) && Elements(n.At(s), n.At(Other(s))) != []
  {
    hide Base64.Encode, Inv;
    Recovery.LiveAgree(n, s, false);
  }

  /** Taking up one element as the peer's busy test and its password decide: installed, confirmed or refused. */
  function Handled(q: Peer, x: Incoming, pwd: Bytes): Peer {
    var q0 := q.(inq := if q.inq == [] then [] else q.inq[1..]);
    match x.body
    case ChangePwdRequest(m, _) =>
      if Locked(q) || x.login !in q.mem.from then q0.(sendq := q.sendq + [ToSeal(None, ChangePwdResponse(m, false))])
      else
        var store := q.mem.(from := q.mem.from[x.login := WithPassword(q.mem.from[x.login], pwd, 0)]);
        q0.(mem := store, disk := store, sendq := q.sendq + [ToSeal(None, ChangePwdResponse(m, true))])
    case Ping(m) => q0.(sendq := q.sendq + [ToSeal(None, Pong(m))])
    case _ => q0
  }

  predicate IsElement(p: Peer, x: Incoming) {
    Live(p) && x.login == LiveLogin(p) && (x.body == RequestOf(p) || x.body == PingOf(p))
  }

  lemma RequestTakenUp(p: Peer, q: Peer)
    requires Live(p) && GoodLength(Candidate(p)) && Active(q.ctx) && q.mem.order != [] && q.phase.Idle? && q.disk == q.mem
    requires q.inq != [] && q.inq[0] == Incoming(LiveLogin(p), RequestOf(p)) && LiveLogin(p) in q.mem.from
    ensures var q', h := Peers.Process(q, 0), Handled(q, q.inq[0], Candidate(p));
            if Locked(q) then q' == h
            else q'.phase == Installed(p.ctx.value.mIdRequest) && h == q'.(disk := q'.mem, phase := Idle,
              sendq := q'.sendq + [ToSeal(None, ChangePwdResponse(p.ctx.value.mIdRequest, true))])
  {
    hide Base64.Encode, Base64.Decode, GuardAccepts, Locked, Busy;
    RequestText(Candidate(p));
    BusyIsLocked(q.(inq := q.inq[1..]));
    LockedOnly(q, q.(inq := q.inq[1..]));
    if !Locked(q) { Rounds.InstallsThere(q, Candidate(p), 0); }
  }

  lemma BusyIsLocked(q: Peer)
    requires Active(q.ctx) && q.mem.order != []
    ensures Busy(q) == Locked(q)
  {}

  lemma LockedOnly(q: Peer, q': Peer)
    requires q'.mem.order == q.mem.order && q'.mem.to == q.mem.to
    ensures Locked(q') == Locked(q)
  {}

  lemma CandidateLength(n: Net, s: Side)
    requires Inv(n) && Live(n.At(s))
    ensures GoodLength(Candidate(n.At(s)))
  {
    hide Direction, AllOlder, DiskLags, ContextGood;
    InvAt(n, s);
  }

  lemma BetweenEvents(n: Net, s: Side)
    requires Inv(n) && n.At(s).phase.Idle?
    ensures n.At(s).disk == n.At(s).mem && (Active(n.At(s).ctx) ==> n.At(s).mem.order != [])
    ensures forall l :: l in n.At(s).mem.order <==> l in n.At(s).mem.to
  {
    hide Direction, AllOlder, GoodTo, GoodFrom;
    InvAt(n, s);
  }

  /** Side r is between events with a challenge of its own out, and the head of its queue is an element of the other
      side's running challenge. */
  predicate AtElement(n: Net, r: Side) {
    var q, p := n.At(r), n.At(Other(r));
    && !q.stopped && q.phase.Idle? && Active(q.ctx) && q.inq != [] && IsElement(p, q.inq[0])
    && LiveLogin(p) in q.mem.from
  }

  /** Side r takes up the element, to the end of the event with its scan. */
  lemma Handles(c: Course, r: Side) returns (d: Course)
    requires Tidy(c) && AtElement(End(c), r) && !Owing(c, r)
    ensures Tidy(d) && d.states[0] == c.states[0] && !Owing(d, r) && Owing(d, Other(r)) == Owing(c, Other(r))
    ensures c.labels + [Process(r, 0)] <= d.labels
    ensures var n, m := End(c), End(d);
            && m.At(r) == Handled(n.At(r), n.At(r).inq[0], Candidate(n.At(Other(r)))) && m.At(Other(r)) == n.At(Other(r))
            && m.fromLeft == n.fromLeft && m.fromRight == n.fromRight
  {
    hide IsOrderly, Owing, Handled, Peers.Process, SaveStep, EmitStep, CanSave, CanEmit, Live, Inv, Locked;
    var n := End(c);
    InvOf(c);
    BetweenEvents(n, r);
    CandidateLength(n, Other(r));
    d := Goes(c, Process(r, 0));
    var q := n.At(r);
    if q.inq[0].body.ChangePwdRequest? {
      RequestTakenUp(n.At(Other(r)), q);
      if !Locked(q) { d := Answers(d, r); }
    } else {
      PingTakenUp(n.At(Other(r)), q);
    }
    StillActive(q, Candidate(n.At(Other(r))));
    d := ScansInVain(d, r);
  }

  lemma InvOf(c: Course)
    requires Tidy(c)
    ensures Inv(End(c))
  {
    hide Inv, Reachable;
    ReachableInv(End(c));
  }

  lemma PingTakenUp(p: Peer, q: Peer)
    requires q.inq != [] && IsElement(p, q.inq[0]) && !q.inq[0].body.ChangePwdRequest?
    ensures Peers.Process(q, 0) == Handled(q, q.inq[0], Candidate(p))
  {
    hide Base64.Encode, Locked;
  }

  lemma StillActive(q: Peer, pwd: Bytes)
    requires q.inq != []
    ensures var h := Handled(q, q.inq[0], pwd);
            h.ctx == q.ctx && h.stopped == q.stopped && h.phase == q.phase && h.mem.to == q.mem.to && h.mem.order == q.mem.order
  {
    hide Locked;
  }

  /** The installed password is saved, and the answer queued. */
  lemma Answers(c: Course, r: Side) returns (d: Course)
    requires Tidy(c) && End(c).At(r).phase.Installed?
    ensures Tidy(d) && d.states[0] == c.states[0] && c.labels <= d.labels
    ensures Owing(d, Left) == Owing(c, Left) && Owing(d, Right) == Owing(c, Right)
    ensures var n, m := End(c), End(d); var q := n.At(r);
            && m.At(r) == q.(disk := q.mem, phase := Idle,
                             sendq := q.sendq + [ToSeal(None, ChangePwdResponse(q.phase.oMId, true))])
            && m.At(Other(r)) == n.At(Other(r)) && m.fromLeft == n.fromLeft && m.fromRight == n.fromRight
  {
    hide IsOrderly, Owing;
    d := Goes(c, Label.Save(r));
    d := Goes(d, Emit(r));
  }

  /** A scan while the challenge is out. */
  lemma ScansInVain(c: Course, r: Side) returns (d: Course)
    requires Tidy(c) && !End(c).At(r).stopped && End(c).At(r).phase.Idle? && Active(End(c).At(r).ctx)
    ensures Tidy(d) && d.states[0] == c.states[0] && !Owing(d, r) && Owing(d, Other(r)) == Owing(c, Other(r))
    ensures End(d) == End(c) && c.labels <= d.labels
  {
    hide IsOrderly, Owing, DueLogin;
    var a := Recovery.FruitlessScan(End(c), r, 0);
    Recovery.ScanEnabled(End(c), r, 0);
    d := Goes(c, a);
  }

  /** The head of the wire from the other side is taken. */
  lemma TakesOne(c: Course, r: Side) returns (d: Course)
    requires Tidy(c) && !End(c).At(r).stopped && End(c).At(r).phase.Idle?
    requires GoodChannel(End(c).From(Other(r))) && InFlight(End(c).From(Other(r))) != []
    ensures Tidy(d) && d.states[0] == c.states[0] && d.labels == c.labels + [Receive(r, false)]
    ensures Owing(d, Left) == Owing(c, Left) && Owing(d, Right) == Owing(c, Right)
    ensures var n, m := End(c), End(d); var v := InFlight(n.From(Other(r)));
            && m.At(r) == Peers.Receive(n.At(r), v[0], false) && m.At(Other(r)) == n.At(Other(r)) && m.From(r) == n.From(r)
            && GoodChannel(m.From(Other(r))) && InFlight(m.From(Other(r))) == v[1..]
  {
    hide IsOrderly, Owing, Peers.Receive;
    Workload.OffTheWire(End(c).From(Other(r)));
    d := Goes(c, Receive(r, false));
  }

  // ------------------------------------------------------- when a crossing comes to an end

  /** Where there is room the challenge of side s is taken up as soon as it arrives. */
  lemma TakenWithRoom(n: Net, s: Side, l: Login, g: Login) returns (c: Course)
    requires Reachable(n) && Met(n, s, l, g) && Room(n.At(s), n.At(Other(s)), l)
    ensures Tidy(c) && c.states[0] == n && !Owing(c, Left) && !Owing(c, Right)
    ensures TakesUp(End(c), Process(Other(s), 0))
  {
    hide Reachable, IsOrderly, Owing, Live, Peers.Receive, LiveEnvelope, Inv, Elements, Peers.Process;
    c := Crosses(n, s, l, g);
    var p, q := End(c).At(s), End(c).At(Other(s));
    InvOf(c);
    ElementsThere(End(c), s);
    ChallengeArrives(p, q);
    CandidateLength(End(c), s);
    BetweenEvents(End(c), Other(s));
    c := TakesOne(c, Other(s));
    assert [] + Elements(p, q) == Elements(p, q);
    TakesHead(p, q, q.(inq := Elements(p, q)), n.At(s), n.At(Other(s)), l);
  }

  lemma TakesHead(p: Peer, q: Peer, q': Peer, p0: Peer, q0: Peer, l: Login)
    requires Live(p) && LiveLogin(p) == l && l in q.mem.from && Elements(p, q) != [] && q' == q.(inq := Elements(p, q))
    requires p.mem == p0.mem && q.mem == q0.mem && l in p0.mem.to && Room(p0, q0, l)
    requires GoodLength(Candidate(p)) && Live(q) && q.mem.order != [] && q.phase.Idle? && q.disk == q.mem
    ensures Peers.Process(q', 0).phase.Installed? || q'.inq[0].body == PingOf(p)
  {
    hide Base64.Encode, Locked, Peers.Process, Handled;
    LockedOnly(q0, q');
    if q'.inq[0].body != PingOf(p) { RequestTakenUp(p, q'); }
  }

  /** In some run of the session in which every thread scans after each message, a challenge is taken up. */
  ghost predicate EndsSometime(n: Net) {
    exists states: seq<Net>, labels: seq<Label>, k: nat ::
      && IsRun(states, labels) && states[0] == n && Disciplined(labels)
      && (forall i :: 0 <= i < |labels| ==> Within(labels[i]))
      && 0 <= k < |labels| && TakesUp(states[k], labels[k])
  }

  lemma CrossingEnds(n: Net, s: Side, l: Login, g: Login)
    requires Reachable(n) && Met(n, s, l, g) && Room(n.At(s), n.At(Other(s)), l)
    ensures EndsSometime(n)
  {
    hide Reachable, Met, Room, Enabled, Next;
    var c := TakenWithRoom(n, s, l, g);
    var a := Process(Other(s), 0);
    var d := Goes(c, a);
    var k := |c.labels|;
    forall i | 0 <= i < |d.labels| ensures Within(d.labels[i]) { assert Recovery.Orderly(d.states[i], d.labels[i]); }
    DroppedLast(c, d, a);
    assert d.states[k] == End(c) && d.labels[k] == a;
  }

  lemma DroppedLast(c: Course, d: Course, a: Label)
    requires Tidy(c) && Tidy(d) && d.labels == c.labels + [a] && d.states[0] == c.states[0]
    ensures d.states[|c.labels|] == End(c)
  {
    hide Enabled, Next, Recovery.Orderly;
    SameRun(c.states, d.states, c.labels, d.labels, |c.labels|);
  }

  lemma {:induction false} SameRun(states: seq<Net>, states': seq<Net>, labels: seq<Label>, labels': seq<Label>, k: nat)
    requires IsRun(states, labels) && IsRun(states', labels') && states[0] == states'[0] && k <= |labels| <= |labels'|
    requires forall i :: 0 <= i < |labels| ==> labels'[i] == labels[i]
    ensures states'[k] == states[k]
  {
    hide Enabled, Next;
    if k > 0 {
      SameRun(states, states', labels, labels', k - 1);
      assert states[k - 1 + 1] == Next(states[k - 1], labels[k - 1]);
      assert states'[k - 1 + 1] == Next(states'[k - 1], labels'[k - 1]);
    }
  }

  /** A crossing without room on either side. */
  predicate DeadCrossing(n: Net, s: Side, l: Login, g: Login) {
    && Met(n, s, l, g) && BothKnown(n, s, l, g) && Fresh(n.At(s), l) && Fresh(n.At(Other(s)), g)
    && !Room(n.At(s), n.At(Other(s)), l) && !Room(n.At(Other(s)), n.At(s), g)
  }

  lemma DeadIsShut(n: Net, s: Side, l: Login, g: Login)
    requires Reachable(n) && DeadCrossing(n, s, l, g)
    ensures Deadlocked(n, false, false) && DeadCrossing(n, Other(s), g, l)
  {
    hide Reachable, Inv, Shut, Room, Asks, Locked;
    NoRoomIsShut(n, s, l, g);
    MetTurned(n, s, l, g);
    NoRoomIsShut(n, Other(s), g, l);
    ReachableInv(n);
    assert Shut(n.left, n.right, false) && Shut(n.right, n.left, false);
  }

  /** Without room on either side nothing is taken up while the session lasts: the two challenge each other and refuse; no
      password and no candidate changes, and neither side announces AllClear. */
  lemma CrossingForEver(n: Net, s: Side, l: Login, g: Login, states: seq<Net>, labels: seq<Label>, k: nat)
    requires Reachable(n) && DeadCrossing(n, s, l, g)
    requires IsRun(states, labels) && states[0] == n && Disciplined(labels) && k <= |labels|
    requires forall i :: 0 <= i < |labels| ==> Within(labels[i])
    ensures SameStanding(n.left, states[k].left) && SameStanding(n.right, states[k].right)
    ensures Shut(states[k].left, states[k].right, Owes(labels, Left, k))
    ensures Shut(states[k].right, states[k].left, Owes(labels, Right, k))
    ensures k < |labels| ==> !TakesUp(states[k], labels[k])
  {
    hide Reachable, Inv, Shut, Enabled, Next, DeadCrossing;
    DeadIsShut(n, s, l, g);
    StaysDeadlocked(states, labels, k);
    if k < |labels| { NothingTaken(states[k], labels[k], Owes(labels, Left, k), Owes(labels, Right, k)); }
  }

  lemma MetTurned(n: Net, s: Side, l: Login, g: Login)
    requires Met(n, s, l, g)
    ensures Met(n, Other(s), g, l) && Other(Other(s)) == s && (BothKnown(n, s, l, g) ==> BothKnown(n, Other(s), g, l))
  {
    hide Asks;
  }

  /** Exactly when two challenges that cross come to an end: when at least one of the two answering sides has a free first
      or second login, or holds the candidate already so that only the ping opens. */
  lemma CrossingEndsIff(n: Net, s: Side, l: Login, g: Login)
    requires Reachable(n) && Met(n, s, l, g) && BothKnown(n, s, l, g) && Fresh(n.At(s), l) && Fresh(n.At(Other(s)), g)
    ensures EndsSometime(n) <==> Room(n.At(s), n.At(Other(s)), l) || Room(n.At(Other(s)), n.At(s), g)
  {
    hide Reachable, Room, TakesUp, Enabled, Next, Shut, Fresh;
    MetTurned(n, s, l, g);
    if Room(n.At(s), n.At(Other(s)), l) {
      CrossingEnds(n, s, l, g);
    } else if Room(n.At(Other(s)), n.At(s), g) {
      CrossingEnds(n, Other(s), g, l);
    } else if EndsSometime(n) {
      var states: seq<Net>, labels: seq<Label>, k: nat :|
        && IsRun(states, labels) && states[0] == n && Disciplined(labels)
        && (forall i :: 0 <= i < |labels| ==> Within(labels[i]))
        && 0 <= k < |labels| && TakesUp(states[k], labels[k]);
      CrossingForEver(n, s, l, g, states, labels, k);
      assert false;
    }
  }

  // ------------------------------------------------------------------ later sessions

  /** Every opened message is one of a login the peer has. */
  predicate InqKnown(p: Peer) {
    forall x :: x in p.inq ==> x.login in p.mem.from
  }

  lemma {:induction false} InternalLogin(login: Login, list: seq<Message>)
    ensures forall x :: x in Internal(login, list) ==> x.login == login
  {
    if list != [] { InternalLogin(login, list[1..]); }
  }

  /** Shut, with or without a challenge as the turn of the thread allows, and with a queue that can be answered. */
  predicate Waits(p: Peer, q: Peer, owes: bool, first: bool) {
    Shut(p, q, owes || first) && InqKnown(p) && (first && !p.stopped ==> !Active(p.ctx))
  }

  ghost predicate Standing(n: Net, labels: seq<Label>, k: nat)
    requires k <= |labels|
  {
    && Inv(n) && Waits(n.left, n.right, Owes(labels, Left, k), FirstTurn(labels, Left, k))
    && Waits(n.right, n.left, Owes(labels, Right, k), FirstTurn(labels, Right, k))
  }

  /** A message taken up in the first turn of a thread: a request is accepted, and any other changes nothing. */
  lemma FirstProcess(p: Peer, q: Peer, v: seq<Envelope>, now: int)
    requires RequestsGood(q, p, v) && PeerGood(q) && Waits(p, q, false, true) && !p.stopped && p.phase.Idle? && p.inq != []
    ensures Peers.Process(p, now).phase.Installed? <==> p.inq[0].body.ChangePwdRequest?
    ensures !p.inq[0].body.ChangePwdRequest? ==>
              StaysShut(p, Peers.Process(p, now), q, true) && Peers.Process(p, now).ctx == p.ctx
  {
    hide RequestsGood, LockedStore, GuardAccepts, Base64.Decode, DiskLags, ContextGood, GoodTo, GoodFrom, Handle;
    var x := p.inq[0];
    assert x in p.inq && x.login in p.mem.from;
    if x.body.ChangePwdRequest? {
      Rounds.RequestLive(q, p, v, x);
      assert !Busy(p.(inq := p.inq[1..]));
      Rounds.InstallsThere(p, Candidate(q), now);
    } else {
      FirstIdle(p, x.login, x.body, now);
    }
  }

  lemma FirstIdle(p: Peer, l: Login, m: Message, now: int)
    requires !Active(p.ctx) && p.phase.Idle? && !m.ChangePwdRequest? && p.inq != []
    ensures var p' := Handle(p.(inq := p.inq[1..]), l, m, now);
            p'.phase.Idle? && p'.mem == p.mem && p'.ctx == p.ctx && p'.stopped == p.stopped && p'.allClearSent == p.allClearSent
  {
    hide OnRequest;
  }

  lemma InqStays(n: Net, a: Label, s: Side)
    requires Enabled(n, a) && !a.Crash? && InqKnown(n.At(s))
    ensures InqKnown(Next(n, a).At(s))
  {
    hide Begin, SaveStep, EmitStep, Peers.Process, Peers.Send, Sent, CanSave, CanEmit, GoodCandidate, OpenKey, Opened,
         Internal, External;
    var p := n.At(s);
    if !a.Disconnect? && !a.Connect? && a.side == s {
      match a
      case Process(_, now) => ProcessKnown(p, now);
      case Receive(_, late) =>
        var e := n.From(Other(s)).log[n.From(Other(s)).taken];
        if e.login in p.mem.from { InternalLogin(e.login, Opened(e.data, OpenKey(p, e.login, late))); }
      case Transmit(_, _) =>
      case _ => Stale.ThreadFrame(n, a);
    }
  }

  lemma ProcessKnown(p: Peer, now: int)
    requires p.inq != [] && InqKnown(p)
    ensures InqKnown(Peers.Process(p, now))
  {
    hide OnRequest;
    var x, p0 := p.inq[0], p.(inq := p.inq[1..]);
    assert forall y :: y in p0.inq ==> y in p.inq;
    if x.body.ChangePwdRequest? { RequestEffect(p0, x.login, x.body.mId, x.body.pwd, now); }
  }

  /** In its first turn a thread has no challenge under way. */
  lemma FirstStays(n: Net, a: Label, s: Side, first: bool)
    requires Enabled(n, a) && !a.Crash? && ContextGood(n.At(s)) && (first && !n.At(s).stopped ==> !Active(n.At(s).ctx))
    ensures FirstAfter(a, s, first) && !Next(n, a).At(s).stopped ==> !Active(Next(n, a).At(s).ctx)
  {
    hide Begin, Peers.Process, Peers.Receive, Peers.Send, Sent, GoodCandidate, ChallengeEnvelope;
    var p := n.At(s);
    if first && !p.stopped && !a.Disconnect? && !a.Connect? && a.side == s {
      match a
      case Process(_, now) => IdleStays(p, now);
      case Receive(_, late) =>
        TrafficIdle(p, n.From(Other(s)).log[n.From(Other(s)).taken], None, [], late);
      case Send(_, login, payload) => TrafficIdle(p, Envelope([], []), login, payload, false);
      case _ =>
    }
  }

  lemma IdleStays(p: Peer, now: int)
    requires p.inq != [] && !Active(p.ctx)
    ensures !Active(Peers.Process(p, now).ctx)
  {
    hide OnRequest;
    var x := p.inq[0];
    if x.body.ChangePwdRequest? { RequestEffect(p.(inq := p.inq[1..]), x.login, x.body.mId, x.body.pwd, now); }
  }

  lemma TrafficIdle(p: Peer, e: Envelope, login: Option<Login>, payload: Bytes, late: bool)
    ensures Peers.Receive(p, e, late).ctx == p.ctx && Peers.Send(p, login, payload).ctx == p.ctx
    ensures Peers.Receive(p, e, late).stopped == p.stopped && Peers.Send(p, login, payload).stopped == p.stopped
  {
    hide Opened, Internal, External, OpenKey, SendLogin;
  }

  /** The step of a thread in its first turn that takes up no challenge. */
  lemma FirstShut(n: Net, s: Side, now: int, other: bool)
    requires Inv(n) && Waits(n.At(s), n.At(Other(s)), false, true) && Shut(n.At(Other(s)), n.At(s), other)
    requires Enabled(n, Process(s, now))
    ensures TakesUp(n, Process(s, now)) <==> n.At(s).inq[0].body.ChangePwdRequest?
    ensures !TakesUp(n, Process(s, now)) ==> StaysShut(n.At(s), Next(n, Process(s, now)).At(s), n.At(Other(s)), true)
  {
    hide Inv, Shut, StaysShut, Peers.Process, SessionGood, RequestsGood, PeerGood, Live, InqKnown;
    ForShut(n, s);
    ForSession(n, s);
    var p, q, w, v := n.At(s), n.At(Other(s)), InFlight(n.From(s)), InFlight(n.From(Other(s)));
    if Live(q) { NoPingOpen(q, p, v, w, other); }
    FirstProcess(p, q, v, now);
  }

  /** One step of any session, as long as no challenge is taken up. */
  lemma StandingStep(n: Net, a: Label, s: Side, owes: bool, first: bool, owesThere: bool, firstThere: bool)
    requires Inv(n) && Waits(n.At(s), n.At(Other(s)), owes, first) && Waits(n.At(Other(s)), n.At(s), owesThere, firstThere)
    requires Enabled(n, a) && !a.Crash? && !TakesUp(n, a) && (a.Process? ==> a.side == s && !owes)
    requires a.Disconnect? || a.Connect? || a.side == s
    ensures Waits(Next(n, a).At(s), Next(n, a).At(Other(s)), OwesAfter(a, s, owes), FirstAfter(a, s, first))
    ensures Waits(Next(n, a).At(Other(s)), Next(n, a).At(s), OwesAfter(a, Other(s), owesThere),
                  FirstAfter(a, Other(s), firstThere))
    ensures SameStanding(n.At(s), Next(n, a).At(s)) && SameStanding(n.At(Other(s)), Next(n, a).At(Other(s)))
  {
    hide Inv, Shut, Enabled, Next, TakesUp, InqKnown;
    InqStays(n, a, s);
    InqStays(n, a, Other(s));
    ContextAt(n, s);
    ContextAt(n, Other(s));
    FirstStays(n, a, s, first);
    FirstStays(n, a, Other(s), firstThere);
    if a.Disconnect? || a.Connect? {
      LifeShut(n, a, s, owes || first);
      LifeShut(n, a, Other(s), owesThere || firstThere);
    } else {
      OwnShut(n, a, s, owes, first, owesThere || firstThere);
      OtherShut(n.At(Other(s)), n.At(s), Next(n, a).At(s), owesThere || firstThere);
    }
  }

  lemma OwnShut(n: Net, a: Label, s: Side, owes: bool, first: bool, other: bool)
    requires Inv(n) && Waits(n.At(s), n.At(Other(s)), owes, first) && Shut(n.At(Other(s)), n.At(s), other)
    requires Enabled(n, a) && Within(a) && !TakesUp(n, a) && a.side == s && (a.Process? ==> !owes)
    ensures StaysShut(n.At(s), Next(n, a).At(s), n.At(Other(s)), OwesAfter(a, s, owes) || FirstAfter(a, s, first))
    ensures Next(n, a).At(Other(s)) == n.At(Other(s))
  {
    hide Inv, Shut, StaysShut, TakesUp, InqKnown, Peers.Process;
    if a.Process? && first {
      ProcessMoves(n, s, a.now);
      FirstShut(n, s, a.now, other);
    } else {
      SideShut(n, a, s, owes || first, other);
    }
  }

  lemma ProcessMoves(n: Net, s: Side, now: int)
    requires Enabled(n, Process(s, now))
    ensures !n.At(s).stopped && Next(n, Process(s, now)).At(Other(s)) == n.At(Other(s))
  {}

  /** A run over any number of sessions without a restart of a process, in which every turn ends with a scan. */
  ghost predicate LaterRun(states: seq<Net>, labels: seq<Label>) {
    IsRun(states, labels) && Disciplined(labels) && forall i :: 0 <= i < |labels| ==> !labels[i].Crash?
  }

  lemma {:induction false} StandsStill(states: seq<Net>, labels: seq<Label>, k: nat)
    requires LaterRun(states, labels) && Standing(states[0], labels, 0) && k <= |labels|
    requires forall i :: 0 <= i < k ==> !TakesUp(states[i], labels[i])
    ensures Standing(states[k], labels, k)
    ensures SameStanding(states[0].left, states[k].left) && SameStanding(states[0].right, states[k].right)
  {
    hide Inv, Waits, Enabled, Next, TakesUp;
    if k > 0 {
      StandsStill(states, labels, k - 1);
      var n, a := states[k - 1], labels[k - 1];
      assert Enabled(n, a) && states[k - 1 + 1] == Next(n, a);
      StepKeepsInv(n, a);
      var ol, fl := Owes(labels, Left, k - 1), FirstTurn(labels, Left, k - 1);
      var or, fr := Owes(labels, Right, k - 1), FirstTurn(labels, Right, k - 1);
      if a.Disconnect? || a.Connect? || a.side == Left {
        StandingStep(n, a, Left, ol, fl, or, fr);
      } else {
        StandingStep(n, a, Right, or, fr, ol, fl);
      }
    }
  }

  /** When a dead crossing comes to an end, over any number of sessions without a restart of a process: exactly with a
      request that a thread finds in its queue in its first turn, before its first scan. */
  lemma DeadCrossingEndsIff(n: Net, s: Side, l: Login, g: Login, states: seq<Net>, labels: seq<Label>, k: nat)
    requires Reachable(n) && DeadCrossing(n, s, l, g)
    requires LaterRun(states, labels) && states[0] == n && k < |labels|
    requires forall i :: 0 <= i < k ==> !TakesUp(states[i], labels[i])
    ensures TakesUp(states[k], labels[k])
            <==> && labels[k].Process? && FirstTurn(labels, labels[k].side, k)
                 && states[k].At(labels[k].side).inq != []
                 && states[k].At(labels[k].side).inq[0].body.ChangePwdRequest?
    ensures SameStanding(n.left, states[k].left) && SameStanding(n.right, states[k].right)
  {
    hide Reachable, Inv, Waits, Enabled, Next, TakesUp, DeadCrossing;
    StartsStanding(n, s, l, g, labels);
    StandsStill(states, labels, k);
    var a := labels[k];
    assert Enabled(states[k], a);
    if a.Process? {
      var r := a.side;
      StandingSide(states[k], labels, k, r);
      EndsHere(states[k], r, a.now, FirstTurn(labels, r, k), Owes(labels, Other(r), k) || FirstTurn(labels, Other(r), k));
    } else {
      OnlyProcess(states[k], a);
    }
  }

  lemma OnlyProcess(n: Net, a: Label)
    requires !a.Process?
    ensures !TakesUp(n, a)
  {}

  lemma StandingSide(n: Net, labels: seq<Label>, k: nat, r: Side)
    requires k <= |labels| && Standing(n, labels, k)
    ensures Waits(n.At(r), n.At(Other(r)), Owes(labels, r, k), FirstTurn(labels, r, k))
    ensures Shut(n.At(Other(r)), n.At(r), Owes(labels, Other(r), k) || FirstTurn(labels, Other(r), k))
  {
    hide Inv, Shut, InqKnown;
  }

  lemma EndsHere(n: Net, r: Side, now: int, first: bool, other: bool)
    requires Inv(n) && Waits(n.At(r), n.At(Other(r)), false, first) && Shut(n.At(Other(r)), n.At(r), other)
    requires Enabled(n, Process(r, now))
    ensures TakesUp(n, Process(r, now)) <==> first && n.At(r).inq != [] && n.At(r).inq[0].body.ChangePwdRequest?
  {
    hide Inv, Shut, InqKnown, TakesUp;
    if first { FirstShut(n, r, now, other); } else { TakesNone(n, r, now, other); }
  }

  lemma StartsStanding(n: Net, s: Side, l: Login, g: Login, labels: seq<Label>)
    requires Reachable(n) && DeadCrossing(n, s, l, g)
    ensures Standing(n, labels, 0)
  {
    hide Reachable, Inv, Shut, Room;
    DeadIsShut(n, s, l, g);
    assert n.left.inq == [] && n.right.inq == [];
  }

  // --------------------------------------------------------------------- how it arises

  function WithNew(p: Peer, l: Login, candidate: Bytes): Store
    requires l in p.mem.to
  {
    p.mem.(to := p.mem.to[l := WithCandidate(p.mem.to[l], candidate)])
  }

  /** Side s scans and finds login l. */
  predicate Finds(n: Net, s: Side, now: int, candidate: Bytes, l: Login) {
    && DueLogin(n.At(s).mem.order, n.At(s).mem.to, now) == Some(l)
    && |candidate| == |n.At(s).mem.to[l].pwd|
  }

  /** A session opens and both sides find a due login at their first scan. */
  lemma Meets(n: Net, cipher: string, s: Side, here: int, candidate: Bytes, l: Login, there: int, other: Bytes, g: Login)
    requires Enabled(n, Connect(cipher))
    requires Finds(n, s, here, candidate, l) && Finds(n, Other(s), there, other, g)
    ensures var n1, b, a := Next(n, Connect(cipher)), Scan(Other(s), there, other), Scan(s, here, candidate);
            && Enabled(n1, b) && Enabled(Next(n1, b), a)
            && var m := Next(Next(n1, b), a);
               && Met(m, s, l, g) && m.At(s).mem == WithNew(n.At(s), l, candidate)
               && m.At(Other(s)).mem == WithNew(n.At(Other(s)), g, other)
               && !m.left.allClearSent && !m.right.allClearSent
  {
    hide DueLogin;
    assert InFlight(EMPTY) == [];
  }

  /** The crossing without an end arises in the first session of two processes with one login each that has fallen due
      on both sides, whatever the sites, the passwords and the candidates. */
  lemma CrossingIsReachable(x: SiteId, y: SiteId, l: Login, pwd: Bytes, here: Bytes, there: Bytes) returns (n: Net)
    requires GoodLength(pwd) && |here| == |there| == |pwd| && here != pwd && there != pwd
    ensures Reachable(n) && DeadCrossing(n, Left, l, l) && !n.left.allClearSent && !n.right.allClearSent
  {
    hide Reachable, DueLogin;
    var n0 := Stale.TwoPeers(x, y, l, pwd);
    Stale.TwoPeersInitial(x, y, l, pwd);
    var now := TRIGGER_SECONDS + 1;
    Stale.OneDue([l], n0.left.mem.to, now, l);
    Meets(n0, "", Left, now, here, l, now, there, l);
    var n1 := Next(n0, Connect(""));
    Recovery.ReachableStep(n0, Connect(""));
    var n2 := Next(n1, Scan(Right, now, there));
    Recovery.ReachableStep(n1, Scan(Right, now, there));
    n := Next(n2, Scan(Left, now, here));
    Recovery.ReachableStep(n2, Scan(Left, now, here));
  }

  // ------------------------------------------------------------- the way out of it

  /** Two runs one after the other. */
  lemma Joined(c: Course, states: seq<Net>, labels: seq<Label>) returns (d: Course)
    requires c.states != [] && IsRun(c.states, c.labels) && IsRun(states, labels) && states[0] == End(c)
    ensures d.labels == c.labels + labels && d.states != [] && IsRun(d.states, d.labels)
    ensures d.states[0] == c.states[0] && End(d) == states[|labels|]
  {
    hide Enabled, Next;
    d := Course(c.states[..|c.labels|] + states, c.labels + labels);
    forall i | 0 <= i < |d.labels| ensures Enabled(d.states[i], d.labels[i]) && d.states[i + 1] == Next(d.states[i], d.labels[i]) {
      var k := |c.labels|;
      if i < k {
        assert d.states[i] == c.states[i] && d.labels[i] == c.labels[i] && d.states[i + 1] == c.states[i + 1];
      } else {
        assert d.states[i] == states[i - k] && d.labels[i] == labels[i - k] && d.states[i + 1] == states[i - k + 1];
      }
    }
  }

  lemma {:induction false} NoTurns(labels: seq<Label>, s: Side, k: nat)
    requires k <= |labels| && forall i :: 0 <= i < k ==> !labels[i].Process?
    ensures !Owes(labels, s, k)
  {
    if k > 0 { NoTurns(labels, s, k - 1); }
  }

  function EscapeLabels(cipher: string, s: Side, now: int, candidate: Bytes): seq<Label> {
    var o := Other(s);
    [Label.Save(o), Emit(o), Label.Save(s), Emit(s), Disconnect, Connect(cipher), Scan(s, now, candidate),
     Label.Save(s), Emit(s), Transmit(s, false), Receive(o, false), Process(o, 0)]
  }

  /** Both sides hand their challenges over. */
  lemma HandsBoth(n: Net, s: Side, l: Login, g: Login) returns (c: Course)
    requires Reachable(n) && Met(n, s, l, g)
    ensures Tidy(c) && c.states[0] == n
    ensures c.labels == [Label.Save(Other(s)), Emit(Other(s)), Label.Save(s), Emit(s)]
    ensures var m := End(c);
            && m.At(s).phase.Idle? && m.At(Other(s)).phase.Idle?
            && m.At(s).mem == n.At(s).mem && m.At(Other(s)).mem == n.At(Other(s)).mem
  {
    hide Reachable, IsOrderly, LiveEnvelope, Live, Owing;
    c := Begins(n);
    c := AsksOne(c, Other(s), g);
    assert Asks(End(c).At(s), l);
    c := AsksOne(c, s, l);
  }

  /** Nothing of side s is on the wire. */
  predicate NothingFrom(n: Net, s: Side) {
    GoodChannel(n.From(s)) && InFlight(n.From(s)) == []
  }

  /** In a new session side s has scanned and found login l, and the other side has done nothing. */
  predicate Reopened(n: Net, s: Side, l: Login) {
    var q := n.At(Other(s));
    && Asks(n.At(s), l) && !q.stopped && q.phase.Idle? && !Active(q.ctx) && q.inq == []
    && NothingFrom(n, s)
  }

  lemma Reopens(n: Net, before: Net, s: Side, l: Login, g: Login, cipher: string, now: int)
    returns (n1: Net, n2: Net, n3: Net)
    requires Reachable(n) && n.At(s).phase.Idle? && n.At(Other(s)).phase.Idle?
    requires Reachable(before) && DeadCrossing(before, s, l, g)
    requires n.At(s).mem == before.At(s).mem && n.At(Other(s)).mem == before.At(Other(s)).mem
    ensures var a := Scan(s, now, before.At(s).mem.to[l].newPwd);
            && Enabled(n, Disconnect) && n1 == Next(n, Disconnect)
            && Enabled(n1, Connect(cipher)) && n2 == Next(n1, Connect(cipher)) && Enabled(n2, a) && n3 == Next(n2, a)
    ensures Reachable(n3) && Reopened(n3, s, l)
    ensures n3.At(s).mem == before.At(s).mem && n3.At(Other(s)).mem == before.At(Other(s)).mem
  {
    hide Reachable, DueLogin, Room, Locked;
    FindsAgain(before, s, l, g, now);
    Recovery.ReconnectEnabled(n, cipher);
    n1 := Next(n, Disconnect);
    Recovery.ReachableStep(n, Disconnect);
    n2 := Next(n1, Connect(cipher));
    Recovery.ReachableStep(n1, Connect(cipher));
    var a := Scan(s, now, before.At(s).mem.to[l].newPwd);
    n3 := Next(n2, a);
    Recovery.ReachableStep(n2, a);
    assert InFlight(EMPTY) == [];
    var p := before.At(s);
    assert p.mem.to[l := WithCandidate(p.mem.to[l], a.candidate)] == p.mem.to;
  }

  /** The scan of the next session finds the same login. */
  lemma FindsAgain(n: Net, s: Side, l: Login, g: Login, now: int)
    requires Reachable(n) && DeadCrossing(n, s, l, g)
    ensures var p := n.At(s);
            && DueLogin(p.mem.order, p.mem.to, now) == Some(l) && Pending(p.mem.to, l)
            && |p.mem.to[l].newPwd| == |p.mem.to[l].pwd|
  {
    hide Reachable, Room, Inv;
    DeadIsShut(n, s, l, g);
    ReachableOldest(n, s);
    ReachableInv(n);
    PendingLength(n, s, l);
    LockedByRoom(n, s, l, g);
    LockedMeans(n.At(s), now);
  }

  lemma LockedByRoom(n: Net, s: Side, l: Login, g: Login)
    requires DeadCrossing(n, s, l, g)
    ensures Locked(n.At(s))
  {
    hide Locked;
  }

  lemma PendingLength(n: Net, s: Side, l: Login)
    requires Inv(n) && Pending(n.At(s).mem.to, l)
    ensures |n.At(s).mem.to[l].newPwd| == |n.At(s).mem.to[l].pwd|
  {
    hide Direction, AllOlder, DiskLags, ContextGood;
    InvAt(n, s);
  }

  /** The challenge of side s reaches the other side in its first turn. */
  lemma AsksAgain(n: Net, s: Side, l: Login) returns (d: Course)
    requires Reachable(n) && Reopened(n, s, l)
    requires l in n.At(Other(s)).mem.from && n.At(Other(s)).mem.from[l].pwd != n.At(s).mem.to[l].newPwd
    ensures Tidy(d) && d.states[0] == n
    ensures d.labels == [Label.Save(s), Emit(s), Transmit(s, false), Receive(Other(s), false)]
    ensures TakesUp(End(d), Process(Other(s), 0))
  {
    hide Reachable, IsOrderly, Owing, Live, Peers.Receive, LiveEnvelope, Inv, Elements, Peers.Process;
    d := PutsOut(n, s, l);
    InvOf(d);
    ElementsThere(End(d), s);
    CandidateLength(End(d), s);
    var p, q := End(d).At(s), End(d).At(Other(s));
    ChallengeArrives(p, q);
    assert [] + Elements(p, q) == Elements(p, q);
    d := TakesOne(d, Other(s));
    OnlyRequest(p, q, End(d).At(Other(s)));
  }

  lemma PutsOut(n: Net, s: Side, l: Login) returns (d: Course)
    requires Reachable(n) && Reopened(n, s, l)
    ensures Tidy(d) && d.states[0] == n && d.labels == [Label.Save(s), Emit(s), Transmit(s, false)]
    ensures var m := End(d);
            && Live(m.At(s)) && LiveLogin(m.At(s)) == l && m.At(s).mem == n.At(s).mem && m.At(Other(s)) == n.At(Other(s))
            && GoodChannel(m.From(s)) && InFlight(m.From(s)) == [LiveEnvelope(m.At(s))]
  {
    hide Reachable, IsOrderly, Owing, Live, LiveEnvelope;
    d := Begins(n);
    d := AsksOne(d, s, l);
    var p := Asked(n.At(s), l, n.nextId);
    d := LeavesOne(d, s, LiveEnvelope(p));
    EnvelopeOnly(p, End(d).At(s));
    assert [] + [LiveEnvelope(p)] == [LiveEnvelope(p)];
  }

  lemma OnlyRequest(p: Peer, q: Peer, q': Peer)
    requires Live(p) && LiveLogin(p) in q.mem.from && Elements(p, q) != [] && GoodLength(Candidate(p))
    requires q.mem.from[LiveLogin(p)].pwd != Candidate(p) && !Active(q.ctx) && q' == q.(inq := Elements(p, q))
    ensures q'.inq != [] && Peers.Process(q', 0).phase.Installed?
  {
    hide Base64.Encode, Base64.Decode, GuardAccepts;
    RequestText(Candidate(p));
    assert !Busy(q'.(inq := q'.inq[1..]));
    Rounds.InstallsThere(q', Candidate(p), 0);
  }

  /** There is always such a way out: both sides hand their challenges over, the connection is lost, and in the next
      session the other side finds s's challenge in its first turn. */
  lemma DeadCrossingEscapes(n: Net, s: Side, l: Login, g: Login, cipher: string, now: int)
    returns (states: seq<Net>, labels: seq<Label>)
    requires Reachable(n) && DeadCrossing(n, s, l, g)
    ensures LaterRun(states, labels) && states[0] == n && |labels| == 12
    ensures labels == EscapeLabels(cipher, s, now, n.At(s).mem.to[l].newPwd) && TakesUp(states[11], labels[11])
  {
    hide Reachable, IsOrderly, Owing, Next, Enabled, TakesUp, Room, Reopened;
    var o := Other(s);
    var c := HandsBoth(n, s, l, g);
    TidyRun(c);
    var n1, n2, n3 := Reopens(End(c), n, s, l, g, cipher, now);
    HeldIsOld(n, s, l, g);
    var d := AsksAgain(n3, s, l);
    var a1, a2, a3 := Disconnect, Connect(cipher), Scan(s, now, n.At(s).mem.to[l].newPwd);
    TidyRun(d);
    Recovery.RunPrefixed(n2, a3, d.states, d.labels);
    Recovery.RunPrefixed(n1, a2, [n2] + d.states, [a3] + d.labels);
    Recovery.RunPrefixed(End(c), a1, [n1] + ([n2] + d.states), [a2] + ([a3] + d.labels));
    var later, steps := [End(c)] + ([n1] + ([n2] + d.states)), [a1] + ([a2] + ([a3] + d.labels));
    var e := Joined(c, later, steps);
    var last := End(d);
    assert End(e) == last;
    LastTurn(last, o);
    var f := Joined(e, [last, Next(last, Process(o, 0))], [Process(o, 0)]);
    states, labels := f.states, f.labels;
    assert e.labels == c.labels + steps && |e.labels| == 11;
    assert labels == EscapeLabels(cipher, s, now, n.At(s).mem.to[l].newPwd);
    SameRun(e.states, states, e.labels, labels, 11);
    EscapeDisciplined(cipher, s, now, n.At(s).mem.to[l].newPwd);
  }

  lemma TidyRun(c: Course)
    requires Tidy(c)
    ensures IsRun(c.states, c.labels) && Reachable(End(c))
  {
    hide Reachable, Enabled, Next;
  }

  lemma LastTurn(n: Net, r: Side)
    requires TakesUp(n, Process(r, 0))
    ensures Enabled(n, Process(r, 0)) && IsRun([n, Next(n, Process(r, 0))], [Process(r, 0)])
  {
    hide Next, Enabled;
  }

  lemma HeldIsOld(n: Net, s: Side, l: Login, g: Login)
    requires DeadCrossing(n, s, l, g)
    ensures l in n.At(Other(s)).mem.from && n.At(Other(s)).mem.from[l].pwd != n.At(s).mem.to[l].newPwd
  {
    hide Locked;
  }

  lemma EscapeDisciplined(cipher: string, s: Side, now: int, candidate: Bytes)
    ensures var labels := EscapeLabels(cipher, s, now, candidate);
            Disciplined(labels) && forall i :: 0 <= i < |labels| ==> !labels[i].Crash?
  {
    var labels := EscapeLabels(cipher, s, now, candidate);
    forall k | 0 <= k < |labels| && labels[k].Process? ensures !Owes(labels, labels[k].side, k) {
      NoTurns(labels, labels[k].side, k);
    }
  }
}
