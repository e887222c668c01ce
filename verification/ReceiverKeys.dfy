/** The key of a FROM entry, which the receive thread fetches for every envelope under that login. The internal thread
    changes the password when it takes up a request, which the receive thread has opened before, and by the invariant of
    this module nothing of another challenge is on its way until the change is saved and the key purged. So no change falls
    between the look-up and the storing of a fetch. */
module ReceiverKeys {
  import opened Basics
  import opened Wire
  import opened Credentials
  import opened Peers
  import opened Network
  import opened SecretCache
  import opened ChallengeInvariant
  import opened Agreement
  import KeyCaches
  import KeyRace
  import Recovery
  import Unanswered
  import Crossing
  import Workload
  import Base64

  // ------------------------------------------------- while a received password is not saved

  /** An answer to the challenge p has, whatever it says. */
  predicate Replies(p: Peer, m: Message) {
    p.ctx.Some? && match m
                   case ChangePwdResponse(o, _) => o == p.ctx.value.mIdRequest
                   case Pong(o) => o == p.ctx.value.mIdPing
                   case _ => false
  }

  predicate Unreplied(p: Peer, q: Peer, v: seq<Envelope>) {
    && (forall x :: x in p.inq ==> !Replies(p, x.body))
    && (forall e, d :: e in v && d in e.data ==> !Replies(p, d.body))
    && (forall o :: o in q.sendq && o.ToSeal? ==> !Replies(p, o.body))
  }

  /** q has installed the candidate of the challenge p still has, and nothing has answered it. */
  predicate Awaited(p: Peer, q: Peer, v: seq<Envelope>) {
    q.phase.Installed? && !q.stopped ==>
      Live(p) && q.phase.oMId == p.ctx.value.mIdRequest && Unreplied(p, q, v)
  }

  lemma InstallsAwaited(p: Peer, q: Peer, w: seq<Envelope>, v: seq<Envelope>, now: int)
    requires SessionGood(p, q, w, v) && q.phase.Idle? && q.inq != []
    ensures Awaited(p, Peers.Process(q, now), v)
  {
    hide OnRequest, Requests, PingsGood, Live, Holds;
    var x, q0, q' := q.inq[0], q.(inq := q.inq[1..]), Peers.Process(q, now);
    if q'.phase.Installed? {
      assert x in q.inq && x.body.ChangePwdRequest? && OpenedRequestGood(p, x);
      RequestEffect(q0, x.login, x.body.mId, x.body.pwd, now);
      Unanswered.RequestAnswers(q0, x.login, x.body.mId, x.body.pwd, now);
      OnItsWay(p, q, w, x);
      assert forall m :: ReplyGood(p, q, w, m) ==> !Replies(p, m);
    }
  }

  lemma OnItsWay(p: Peer, q: Peer, w: seq<Envelope>, x: Incoming)
    requires x in q.inq && IsRequest(x)
    ensures Requests(p, q, w) > 0
  {
    CountZero(IsRequest, q.inq);
  }

  lemma TransmitAwaited(p: Peer, q: Peer, v: seq<Envelope>, late: bool)
    requires Awaited(p, q, v) && RequestsGood(q, p, v) && q.sendq != []
    ensures Awaited(p, q.(sendq := q.sendq[1..]), WithSent(v, Sent(q, q.sendq[0], late)))
  {
    hide Derive, Base64.Encode, Live;
    var o := q.sendq[0];
    assert o in q.sendq;
  }

  /** A step of q that queues no answer and does not install. */
  lemma ThereAwaited(p: Peer, q: Peer, q': Peer, v: seq<Envelope>)
    requires Awaited(p, q, v) && (q'.phase.Installed? && !q'.stopped ==> q.phase == q'.phase && !q.stopped)
    requires forall o :: o in q'.sendq && o.ToSeal? ==> o in q.sendq || !Replies(p, o.body)
    ensures Awaited(p, q', v)
  {
    hide Live;
  }

  /** A step of p that takes up no answer. */
  lemma HereAwaited(p: Peer, p': Peer, q: Peer, v: seq<Envelope>, v': seq<Envelope>)
    requires Awaited(p, q, v)
    requires Live(p) ==> Live(p') && p'.ctx == p.ctx && forall x :: x in p'.inq ==> x in p.inq || !Replies(p, x.body)
    requires forall e :: e in v' ==> e in v
    ensures Awaited(p', q, v')
  {
    hide Live;
  }

  lemma ProcessAwaited(p: Peer, q: Peer, v: seq<Envelope>, now: int)
    requires Awaited(p, q, v) && p.phase.Idle? && p.inq != []
    ensures Awaited(Peers.Process(p, now), q, v)
  {
    hide OnRequest;
    if q.phase.Installed? && !q.stopped {
      var x, p0 := p.inq[0], p.(inq := p.inq[1..]);
      assert x in p.inq;
      if x.body.ChangePwdRequest? { RequestEffect(p0, x.login, x.body.mId, x.body.pwd, now); }
      HereAwaited(p, Peers.Process(p, now), q, v, v);
    }
  }

  lemma ReceiveAwaited(p: Peer, q: Peer, v: seq<Envelope>, late: bool)
    requires Awaited(p, q, v) && v != []
    ensures Awaited(Peers.Receive(p, v[0], late), q, v[1..])
  {
    hide Live, Wire.Opened, Internal, External, OpenKey;
    if q.phase.Installed? && !q.stopped {
      Taken(p, v[0], late);
      var p' := Peers.Receive(p, v[0], late);
      forall x | x in p'.inq ensures x in p.inq || !Replies(p, x.body) {
        if x !in p.inq {
          var d :| d in v[0].data && d.body == x.body;
          assert v[0] in v;
        }
      }
      ReceiveLive(p, v[0], late);
      HereAwaited(p, p', q, v, v[1..]);
    }
  }

  lemma ReceiveLive(p: Peer, e: Envelope, late: bool)
    ensures var p' := Peers.Receive(p, e, late); p' == p.(inq := p'.inq, extq := p'.extq) && (Live(p) ==> Live(p'))
  {
    hide Wire.Opened, Internal, External, OpenKey;
  }

  lemma OwnAwaited(p: Peer, now: int, candidate: Bytes, login: Option<Login>, payload: Bytes)
    requires Live(p) && ContextGood(p)
    ensures Begin(p, now, candidate) == p && !p.phase.Stored? && !p.phase.Generated?
    ensures var p' := Peers.Send(p, login, payload); p' == p.(sendq := p'.sendq) && Live(p')
  {
    hide SendLogin, DueLogin;
  }

  lemma SavedAwaited(p: Peer, m1: nat, m2: nat)
    requires Live(p) && ContextGood(p)
    ensures CanSave(p) ==> Live(SaveStep(p)) && SaveStep(p).ctx == p.ctx && SaveStep(p).inq == p.inq
    ensures CanEmit(p) ==> var p' := EmitStep(p, m1, m2); Live(p') && p'.ctx == p.ctx && p'.inq == p.inq
  {}

  predicate AwaitedAt(n: Net, s: Side) {
    GoodChannel(n.From(Other(s))) && Awaited(n.At(s), n.At(Other(s)), InFlight(n.From(Other(s))))
  }

  /** A step of the initiating side. */
  lemma HereStep(n: Net, a: Label, s: Side)
    requires Inv(n) && AwaitedAt(n, s) && Enabled(n, a)
    requires !a.Disconnect? && !a.Connect? && !a.Crash? && a.side == s
    ensures AwaitedAt(Next(n, a), s)
  {
    hide Inv, Awaited, Begin, SaveStep, EmitStep, Peers.Process, Peers.Receive, Peers.Send, Sent, CanSave, CanEmit,
         GoodCandidate, Live, ContextGood;
    var p, q, v, m := n.At(s), n.At(Other(s)), InFlight(n.From(Other(s))), Next(n, a);
    match a {
      case Process(_, now) => ProcessAwaited(p, q, v, now);
      case Receive(_, late) =>
        ReceiveAwaited(p, q, v, late);
        Workload.OffTheWire(n.From(Other(s)));
      case Scan(_, now, candidate) => FrameStep(n, a, s);
      case Save(_) => FrameStep(n, a, s);
      case Emit(_) => FrameStep(n, a, s);
      case Transmit(_, _) => FrameStep(n, a, s);
      case Send(_, _, _) => FrameStep(n, a, s);
    }
  }

  lemma FrameStep(n: Net, a: Label, s: Side)
    requires Inv(n) && AwaitedAt(n, s) && Enabled(n, a)
    requires (a.Scan? || a.Save? || a.Emit? || a.Transmit? || a.Send?) && a.side == s
    ensures AwaitedAt(Next(n, a), s)
  {
    hide Inv, Unreplied, Begin, SaveStep, EmitStep, Peers.Send, Sent, CanSave, CanEmit, GoodCandidate, Live, ContextGood;
    var p, q, v, p' := n.At(s), n.At(Other(s)), InFlight(n.From(Other(s))), Next(n, a).At(s);
    if q.phase.Installed? && !q.stopped {
      Crossing.ContextAt(n, s);
      OwnAwaited(p, if a.Scan? then a.now else 0, if a.Scan? then a.candidate else [],
                 if a.Send? then a.login else None, if a.Send? then a.payload else []);
      SavedAwaited(p, n.nextId, n.nextId + 1);
      TransmitLive(p);
      HereAwaited(p, p', q, v, v);
    }
  }

  lemma TransmitLive(p: Peer)
    ensures p.sendq != [] && Live(p) ==> Live(p.(sendq := p.sendq[1..]))
  {}

  /** A step of the answering side. */
  lemma ThereStep(n: Net, a: Label, s: Side)
    requires Inv(n) && AwaitedAt(n, s) && Enabled(n, a)
    requires !a.Disconnect? && !a.Connect? && !a.Crash? && a.side == Other(s)
    ensures AwaitedAt(Next(n, a), s)
  {
    hide Inv, Awaited, Begin, SaveStep, EmitStep, Peers.Process, Peers.Receive, Peers.Send, Sent, CanSave, CanEmit,
         GoodCandidate, Live, SessionGood, RequestsGood;
    var p, q, v := n.At(s), n.At(Other(s)), InFlight(n.From(Other(s)));
    match a {
      case Process(_, now) =>
        Unanswered.ForSide(n, Other(s));
        InstallsAwaited(p, q, InFlight(n.From(s)), v, now);
      case Transmit(_, late) =>
        Unanswered.ForSide(n, Other(s));
        TransmitAwaited(p, q, v, late);
        Workload.OnTheWire(n.From(Other(s)), Sent(q, q.sendq[0], late));
      case Scan(_, now, candidate) => ScanThere(p, q, v, now, candidate);
      case Save(_) => SaveThere(p, q, v);
      case Emit(_) => EmitThere(p, q, v, n.nextId, n.nextId + 1);
      case Receive(_, late) =>
        TrafficThere(p, q, v, n.From(s).log[n.From(s).taken], late, None, []);
      case Send(_, login, payload) => TrafficThere(p, q, v, Envelope([], []), false, login, payload);
    }
  }

  lemma ScanThere(p: Peer, q: Peer, v: seq<Envelope>, now: int, candidate: Bytes)
    requires Awaited(p, q, v) && q.phase.Idle?
    ensures Awaited(p, Begin(q, now, candidate), v)
  {
    hide DueLogin, Live;
  }

  lemma SaveThere(p: Peer, q: Peer, v: seq<Envelope>)
    requires Awaited(p, q, v) && CanSave(q)
    ensures Awaited(p, SaveStep(q), v)
  {}

  lemma EmitThere(p: Peer, q: Peer, v: seq<Envelope>, m1: nat, m2: nat)
    requires Awaited(p, q, v) && CanEmit(q)
    ensures Awaited(p, EmitStep(q, m1, m2), v)
  {}

  lemma TrafficThere(p: Peer, q: Peer, v: seq<Envelope>, e: Envelope, late: bool, login: Option<Login>, payload: Bytes)
    requires Awaited(p, q, v)
    ensures Awaited(p, Peers.Receive(q, e, late), v) && Awaited(p, Peers.Send(q, login, payload), v)
  {
    hide Wire.Opened, Internal, External, OpenKey, SendLogin, Live;
  }

  lemma LifeStep(n: Net, a: Label, s: Side)
    requires Enabled(n, a) && (a.Disconnect? || a.Connect? || a.Crash?)
    ensures AwaitedAt(Next(n, a), s)
  {
    hide Load, Credentials.Save, Live;
  }

  lemma {:induction false} RunAwaited(states: seq<Net>, labels: seq<Label>, s: Side, k: nat)
    requires IsRun(states, labels) && Initial(states[0]) && k <= |labels|
    ensures Inv(states[k]) && AwaitedAt(states[k], s)
  {
    hide Inv, Enabled, Next, AwaitedAt;
    if k == 0 {
      InitialInv(states[0]);
      StartsAwaited(states[0], s);
    } else {
      RunAwaited(states, labels, s, k - 1);
      var n, a := states[k - 1], labels[k - 1];
      assert Enabled(n, a) && states[k - 1 + 1] == Next(n, a);
      StepKeepsInv(n, a);
      if a.Disconnect? || a.Connect? || a.Crash? {
        LifeStep(n, a, s);
      } else if a.side == s {
        HereStep(n, a, s);
      } else {
        ThereStep(n, a, s);
      }
    }
  }

  lemma StartsAwaited(n: Net, s: Side)
    requires Initial(n)
    ensures AwaitedAt(n, s)
  {
    assert InitialPeer(n.At(Other(s)));
  }

  /** From the moment a side has installed a received password to the moment it has saved it, nothing of a challenge of the
      other side is on its way. */
  lemma NothingComes(n: Net, s: Side)
    requires Reachable(n) && n.At(Other(s)).phase.Installed? && !n.At(Other(s)).stopped
    ensures GoodChannel(n.From(s)) && Requests(n.At(s), n.At(Other(s)), InFlight(n.From(s))) == 0
    ensures Live(n.At(s)) && n.At(Other(s)).phase.oMId == n.At(s).ctx.value.mIdRequest
    ensures GoodChannel(n.From(Other(s))) && Unreplied(n.At(s), n.At(Other(s)), InFlight(n.From(Other(s))))
  {
    hide Inv, Initial, Requests, Holds, RequestsGood, PingsGood, Live;
    var states, labels :| IsRun(states, labels) && Initial(states[0]) && states[|labels|] == n;
    RunAwaited(states, labels, s, |labels|);
    ReachableInv(n);
    Unanswered.ForSide(n, Other(s));
  }

  // ------------------------------------------------------- the two parties and the receive thread

  const RECEIVER: KeyRace.Thread := 0

  /** The two parties, the key of one FROM entry of one side under the cipher of its sessions, and whether the receive thread
      has fetched it for the envelope at the head of the wire. */
  datatype Joint = Joint(net: Net, key: KeyRace.State, fetched: bool)

  datatype Move = Act(step: Label) | Thread(fetch: KeyRace.Step)

  /** The step installs a received password for login l. */
  predicate Installs(n: Net, s: Side, l: Login, a: Label) {
    && a.Process? && a.side == s && Enabled(n, a) && n.At(s).inq[0].login == l && Next(n, a).At(s).phase.Installed?
  }

  function Current(p: Peer, l: Login): Bytes {
    if l in p.mem.from then p.mem.from[l].pwd else []
  }

  /** What a move is for the key; the purge goes with the save of the installed password. */
  function KeyStep(j: Joint, s: Side, l: Login, m: Move): KeyRace.Step
    requires CanMove(j, s, l, m)
  {
    match m
    case Thread(step) => step
    case Act(a) =>
      if Installs(j.net, s, l, a) then KeyRace.Step.Change(Current(Next(j.net, a).At(s), l))
      else if a == Label.Save(s) && j.key.changing then KeyRace.Step.Purge
      else KeyRace.Step.Elsewhere
  }

  predicate IsFree(j: Joint) {
    RECEIVER in j.key.hands && j.key.hands[RECEIVER].Free?
  }

  /** The next envelope for side s is under login l. */
  predicate Comes(n: Net, s: Side, l: Login) {
    var c := n.From(Other(s));
    c.taken < |c.log| && c.log[c.taken].login == l
  }

  /** The receive thread fetches the key for the envelope it is taking. */
  predicate CanFetch(j: Joint, s: Side, l: Login, step: KeyRace.Step) {
    && KeyRace.Enabled(j.key, step) && (step.LookUp? || step.Derive? || step.Store?)
    && (step.LookUp? ==> Comes(j.net, s, l))
  }

  /** It opens the envelope when it has the key, and a new session has a new receive thread. */
  predicate CanAct(j: Joint, s: Side, l: Login, a: Label) {
    && Enabled(j.net, a) && a != Crash(s)
    && (a.Connect? ==> a.cipher == j.key.cipher && IsFree(j))
    && (a.Receive? && a.side == s ==> IsFree(j) && (Comes(j.net, s, l) && l in j.net.At(s).mem.from ==> j.fetched))
  }

  predicate CanMove(j: Joint, s: Side, l: Login, m: Move) {
    match m
    case Act(a) => CanAct(j, s, l, a)
    case Thread(step) => CanFetch(j, s, l, step)
  }

  /** A look-up that finds the key, or a storing, ends a fetch. */
  predicate FetchedAfter(j: Joint, s: Side, m: Move) {
    match m
    case Thread(step) => j.fetched || step.Store? || (step.LookUp? && j.key.cached.Some?)
    case Act(a) => j.fetched && !a.Disconnect? && !a.Connect? && !a.Crash? && !(a.Receive? && a.side == s)
  }

  function Moved(j: Joint, s: Side, l: Login, m: Move): Joint
    requires CanMove(j, s, l, m)
  {
    var step := KeyStep(j, s, l, m);
    Joint(if m.Act? then Next(j.net, m.step) else j.net,
          if KeyRace.Enabled(j.key, step) then KeyRace.Next(j.key, step) else j.key,
          FetchedAfter(j, s, m))
  }

  /** A process that has just started: it has no key yet. */
  ghost predicate Starts(j: Joint, s: Side, l: Login) {
    var p := j.net.At(s);
    && Reachable(j.net) && p.stopped && p.phase.Idle? && l in p.mem.from && !j.fetched
    && KeyRace.Starts(j.key) && j.key.hands.Keys == {RECEIVER}
    && j.key.o == KeyCaches.FromOwner(p, l) && j.key.pwd == p.mem.from[l].pwd
  }

  ghost predicate JointRun(states: seq<Joint>, moves: seq<Move>, s: Side, l: Login) {
    && |states| == |moves| + 1 && Starts(states[0], s, l)
    && forall i :: 0 <= i < |moves| ==>
         CanMove(states[i], s, l, moves[i]) && states[i + 1] == Moved(states[i], s, l, moves[i])
  }

  /** The key is one of the password that side s has, and a purge is due only while an installed password is not saved. */
  predicate Coupled(j: Joint, s: Side, l: Login) {
    var p := j.net.At(s);
    && l in p.mem.from && j.key.o == KeyCaches.FromOwner(p, l) && j.key.pwd == p.mem.from[l].pwd
    && (j.key.changing ==> p.phase.Installed?) && (!p.stopped ==> p.cipher == j.key.cipher)
  }

  predicate HasRequest(inq: seq<Incoming>, l: Login) {
    exists x :: x in inq && x.login == l && x.body.ChangePwdRequest?
  }

  predicate ChallengeNext(n: Net, s: Side, l: Login) {
    var c := n.From(Other(s));
    c.taken < |c.log| && c.log[c.taken].login == l && IsChallenge(c.log[c.taken])
  }

  /** No old key but the one that is about to be purged; once a request has been opened, and as soon as the thread has its
      key, the key is in the cache and the thread in the middle of nothing. */
  predicate Safe(j: Joint, s: Side, l: Login) {
    var p, key := j.net.At(s), j.key;
    && key.hands.Keys == {RECEIVER}
    && (key.hands[RECEIVER].Derived? ==> key.hands[RECEIVER].key == KeyRace.RightKey(key))
    && (KeyRace.Stale(key) ==> key.changing)
    && (key.changing ==> key.cached.Some? && IsFree(j))
    && (!p.stopped ==>
          && (HasRequest(p.inq, l) ==> key.cached.Some? && IsFree(j))
          && (j.fetched && ChallengeNext(j.net, s, l) ==> key.cached.Some?)
          && (j.fetched || !IsFree(j) ==> Comes(j.net, s, l)))
  }

  lemma FetchSafe(j: Joint, s: Side, l: Login, step: KeyRace.Step)
    requires Safe(j, s, l) && Coupled(j, s, l) && CanFetch(j, s, l, step)
    ensures Safe(Moved(j, s, l, Thread(step)), s, l) && Coupled(Moved(j, s, l, Thread(step)), s, l)
  {
    hide HasRequest, Derive, IsChallenge;
  }

  predicate SafeAt(j: Joint, s: Side, l: Login) {
    Safe(j, s, l) && Coupled(j, s, l)
  }

  /** A step that leaves the password, the opened requests and the head of the wire. */
  predicate Leaves(n: Net, m: Net, s: Side, l: Login) {
    var p, p' := n.At(s), m.At(s);
    && p'.me == p.me && p'.remote == p.remote && p'.mem.from == p.mem.from && (p.phase.Installed? ==> p'.phase.Installed?)
    && (!p'.stopped ==>
          && !p.stopped && p'.cipher == p.cipher && (forall x :: x in p'.inq ==> x in p.inq)
          && (Comes(n, s, l) ==> SameHead(n, m, s)))
  }

  /** There is a next envelope for side s, and it stays the next one. */
  predicate SameHead(n: Net, m: Net, s: Side) {
    var c, d := n.From(Other(s)), m.From(Other(s));
    c.taken < |c.log| && d.taken < |d.log| && d.log[d.taken] == c.log[c.taken]
  }

  lemma LeavesSafe(j: Joint, j': Joint, s: Side, l: Login)
    requires SafeAt(j, s, l) && Leaves(j.net, j'.net, s, l) && j'.key == j.key && (j'.fetched ==> j.fetched)
    ensures SafeAt(j', s, l)
  {
    hide IsChallenge, Derive;
  }

  lemma OtherLeaves(n: Net, s: Side, l: Login, a: Label)
    requires Enabled(n, a) && !a.Disconnect? && !a.Connect? && !a.Crash? && a.side == Other(s)
    ensures Leaves(n, Next(n, a), s, l)
  {
    hide GoodCandidate, Sent, CanSave, CanEmit, Begin, SaveStep, EmitStep, Peers.Process, Peers.Receive, Peers.Send;
  }

  lemma LifeLeaves(j: Joint, s: Side, l: Login, a: Label)
    requires SafeAt(j, s, l) && CanAct(j, s, l, a) && (a.Disconnect? || a.Connect? || a.Crash?)
    ensures SafeAt(Moved(j, s, l, Act(a)), s, l)
  {
    hide GoodCandidate, Load, Credentials.Save, Derive;
  }

  lemma OwnLeaves(n: Net, s: Side, l: Login, a: Label)
    requires Enabled(n, a) && (a.Scan? || a.Emit? || a.Transmit? || a.Send? || a.Save?) && a.side == s
    ensures (a.Save? && n.At(s).phase.Installed?) || Leaves(n, Next(n, a), s, l)
  {
    hide DueLogin, GoodCandidate, Sent, ChallengeEnvelope, SendLogin;
  }

  /** The installed password is saved, and its key purged: nothing of another challenge is on its way. */
  lemma SaveSafe(j: Joint, s: Side, l: Login)
    requires SafeAt(j, s, l) && Reachable(j.net) && CanAct(j, s, l, Label.Save(s)) && j.key.changing
    ensures SafeAt(Moved(j, s, l, Act(Label.Save(s))), s, l)
  {
    hide Reachable, IsChallenge, Derive, Requests;
    if !j.net.At(s).stopped {
      NothingComes(j.net, Other(s));
      NoneOpened(j.net.At(Other(s)), j.net.At(s), InFlight(j.net.From(Other(s))), l);
    }
  }

  lemma NoneOpened(q: Peer, p: Peer, w: seq<Envelope>, l: Login)
    requires Requests(q, p, w) == 0
    ensures !HasRequest(p.inq, l) && forall e :: e in w ==> !IsChallenge(e)
  {
    hide IsChallenge;
    CountZero(IsRequest, p.inq);
    CountZero(IsChallenge, w);
  }

  lemma NotDue(j: Joint, s: Side, l: Login)
    requires SafeAt(j, s, l) && !j.key.changing && CanAct(j, s, l, Label.Save(s))
    ensures SafeAt(Moved(j, s, l, Act(Label.Save(s))), s, l)
  {
    hide IsChallenge, Derive;
  }

  /** A message taken up: when it changes the password the receive thread is in the middle of nothing. */
  lemma ProcessSafe(j: Joint, s: Side, l: Login, now: int)
    requires SafeAt(j, s, l) && CanAct(j, s, l, Process(s, now))
    ensures SafeAt(Moved(j, s, l, Act(Process(s, now))), s, l)
  {
    hide IsChallenge, Derive, Peers.Process;
    var p, p' := j.net.At(s), Peers.Process(j.net.At(s), now);
    ProcessFrom(p, now);
    assert p.inq[0] in p.inq;
  }

  lemma ProcessFrom(p: Peer, now: int)
    requires p.phase.Idle? && p.inq != []
    ensures var p', x := Peers.Process(p, now), p.inq[0];
            && p'.me == p.me && p'.remote == p.remote && p'.stopped == p.stopped && p'.inq == p.inq[1..]
            && p'.cipher == p.cipher
            && p'.mem.from.Keys == p.mem.from.Keys && (p'.phase.Installed? ==> x.body.ChangePwdRequest?)
            && forall k :: k in p.mem.from && (k != x.login || !p'.phase.Installed?) ==> p'.mem.from[k] == p.mem.from[k]
  {
    hide Peers.Process;
    KeyCaches.ProcessChanges(p, now);
    ProcessPops(p, now);
  }

  lemma ProcessPops(p: Peer, now: int)
    requires p.phase.Idle? && p.inq != []
    ensures var p' := Peers.Process(p, now);
            && p'.stopped == p.stopped && p'.inq == p.inq[1..]
            && (p'.phase.Installed? ==> p.inq[0].body.ChangePwdRequest?)
  {
    hide OnRequest;
    var x, p0 := p.inq[0], p.(inq := p.inq[1..]);
    if x.body.ChangePwdRequest? { RequestEffect(p0, x.login, x.body.mId, x.body.pwd, now); }
  }

  /** An envelope is opened: a request in it is one of a challenge, for which the thread has fetched the key. */
  lemma ReceiveSafe(j: Joint, s: Side, l: Login, late: bool)
    requires SafeAt(j, s, l) && Inv(j.net) && CanAct(j, s, l, Receive(s, late))
    ensures SafeAt(Moved(j, s, l, Act(Receive(s, late))), s, l)
  {
    hide IsChallenge, Derive, Peers.Receive, Inv, HasRequest, SafeAt, RequestsGood, SessionGood, PeerGood, Matched;
    var n := j.net;
    var p, q, c := n.At(s), n.At(Other(s)), n.From(Other(s));
    Unanswered.ForSide(n, s);
    Workload.OffTheWire(c);
    OpensRequest(q, p, InFlight(c), l, late);
    FromKept(p, InFlight(c)[0], late);
    OpenedSafe(j, Moved(j, s, l, Act(Receive(s, late))), s, l);
  }

  lemma OpenedSafe(j: Joint, j': Joint, s: Side, l: Login)
    requires SafeAt(j, s, l) && j'.key == j.key && !j'.fetched && IsFree(j)
    requires var p, p' := j.net.At(s), j'.net.At(s); p' == p.(inq := p'.inq, extq := p'.extq)
    requires HasRequest(j'.net.At(s).inq, l) ==>
               HasRequest(j.net.At(s).inq, l) || (j.fetched && ChallengeNext(j.net, s, l))
    ensures SafeAt(j', s, l)
  {
    hide IsChallenge, Derive, HasRequest;
  }

  lemma FromKept(p: Peer, e: Envelope, late: bool)
    ensures var p' := Peers.Receive(p, e, late); p' == p.(inq := p'.inq, extq := p'.extq)
  {
    hide Wire.Opened, Internal, External, OpenKey;
  }

  lemma OpensRequest(q: Peer, p: Peer, w: seq<Envelope>, l: Login, late: bool)
    requires RequestsGood(q, p, w) && w != []
    ensures HasRequest(Peers.Receive(p, w[0], late).inq, l) ==>
              HasRequest(p.inq, l) || (w[0].login == l && l in p.mem.from && IsChallenge(w[0]))
  {
    hide Wire.Opened, Internal, External, OpenKey, RequestsGood;
    var e, p' := w[0], Peers.Receive(p, w[0], late);
    Taken(p, e, late);
    if x :| x in p'.inq && x.login == l && x.body.ChangePwdRequest? {
      if x !in p.inq {
        NewLogin(p, e, late, x);
        var d :| d in e.data && d.body == x.body;
        RequestIsChallenge(q, p, w, e, d);
      }
    }
  }

  lemma NewLogin(p: Peer, e: Envelope, late: bool, x: Incoming)
    requires x in Peers.Receive(p, e, late).inq && x !in p.inq
    ensures x.login == e.login && e.login in p.mem.from
  {
    hide Wire.Opened, External, OpenKey;
    if e.login in p.mem.from { Crossing.InternalLogin(e.login, Wire.Opened(e.data, OpenKey(p, e.login, late))); }
  }

  lemma RequestIsChallenge(q: Peer, p: Peer, w: seq<Envelope>, e: Envelope, d: Sealed)
    requires RequestsGood(q, p, w) && e in w && d in e.data && d.body.ChangePwdRequest?
    ensures IsChallenge(e)
  {
    hide Base64.Encode, Derive;
  }

  lemma MoveSafe(j: Joint, s: Side, l: Login, m: Move)
    requires SafeAt(j, s, l) && Reachable(j.net) && CanMove(j, s, l, m)
    ensures SafeAt(Moved(j, s, l, m), s, l) && Reachable(Moved(j, s, l, m).net)
  {
    hide Safe, Coupled, Reachable, Inv, Enabled, Next, Leaves, Installs;
    ReachableInv(j.net);
    match m {
      case Thread(step) => FetchSafe(j, s, l, step);
      case Act(a) =>
        Recovery.ReachableStep(j.net, a);
        ActSafe(j, s, l, a);
    }
  }

  lemma ActSafe(j: Joint, s: Side, l: Login, a: Label)
    requires SafeAt(j, s, l) && Reachable(j.net) && Inv(j.net) && CanAct(j, s, l, a)
    ensures SafeAt(Moved(j, s, l, Act(a)), s, l)
  {
    hide Safe, Coupled, Reachable, Inv, Enabled, Next, Leaves;
    var j' := Moved(j, s, l, Act(a));
    if a.Disconnect? || a.Connect? || a.Crash? {
      LifeLeaves(j, s, l, a);
    } else if a.side != s {
      OtherLeaves(j.net, s, l, a);
      LeavesSafe(j, j', s, l);
    } else if a.Process? {
      ProcessSafe(j, s, l, a.now);
    } else if a.Receive? {
      ReceiveSafe(j, s, l, a.late);
    } else if a.Save? {
      if j.key.changing { SaveSafe(j, s, l); } else { NotDue(j, s, l); }
    } else {
      OwnLeaves(j.net, s, l, a);
      LeavesSafe(j, j', s, l);
    }
  }

  lemma {:induction false} StaysSafe(states: seq<Joint>, moves: seq<Move>, s: Side, l: Login, k: nat)
    requires JointRun(states, moves, s, l) && k <= |moves|
    ensures SafeAt(states[k], s, l) && Reachable(states[k].net)
  {
    hide CanMove, Moved, Reachable, SafeAt;
    if k == 0 {
      StartsSafe(states[0], s, l);
    } else {
      StaysSafe(states, moves, s, l, k - 1);
      assert CanMove(states[k - 1], s, l, moves[k - 1]) && states[k - 1 + 1] == Moved(states[k - 1], s, l, moves[k - 1]);
      MoveSafe(states[k - 1], s, l, moves[k - 1]);
    }
  }

  lemma StartsSafe(j: Joint, s: Side, l: Login)
    requires Starts(j, s, l)
    ensures SafeAt(j, s, l)
  {}

  /** However the look-ups, derivations and storings of the receive thread fall among the steps of the two parties: the key in
      the cache is the one of the current password, but for the time from a change to its purge, and the thread is not in
      the middle of its coder_secret_get then. */
  lemma NeverRaced(states: seq<Joint>, moves: seq<Move>, s: Side, l: Login, k: nat)
    requires JointRun(states, moves, s, l) && k <= |moves|
    ensures var p, key := states[k].net.At(s), states[k].key;
            && l in p.mem.from
            && (key.cached.Some? && !key.changing ==>
                  key.cached.value == KeyFor(KeyCaches.FromOwner(p, l), key.cipher, p.mem.from[l].pwd))
            && (key.cached.Some? && !key.changing && !p.stopped ==> key.cached.value == OpenKey(p, l, false))
            && (forall t :: t in key.hands && key.hands[t].Derived? ==>
                  key.hands[t].key == KeyFor(KeyCaches.FromOwner(p, l), key.cipher, p.mem.from[l].pwd))
            && (key.changing ==> p.phase.Installed? && IsFree(states[k]))
  {
    hide CanMove, Moved, Reachable, Derive;
    StaysSafe(states, moves, s, l, k);
  }
}
