/** The three steps of coder_secret_get among the threads of a session. The key of a TO entry is fetched by the internal
    thread when it encodes a challenge and by the send thread when it seals a message; the internal thread changes the
    password when its challenge has been answered. By then the challenge has left the send queue, so that no thread of
    the session is between its look-up and its storing: only a thread from outside the session can leave an old key. */
module KeyThreads {
  import opened Basics
  import opened Wire
  import opened Credentials
  import opened Peers
  import opened Network
  import opened SecretCache
  import opened ChallengeInvariant
  import opened Agreement
  import KeyCaches
  import KeyRace
  import Recovery
  import Crossing
  import Rotation
  import Reconnection
  import CachedProtocol
  import Stale

  const INTERNAL: KeyRace.Thread := 0
  const SENDER: KeyRace.Thread := 1

  /** The two parties, and the key of one TO entry of one side under the cipher of its sessions. */
  datatype Joint = Joint(net: Net, key: KeyRace.State)

  /** A step of the two parties, or of a thread in the middle of its coder_secret_get. */
  datatype Move = Act(step: Label) | Thread(fetch: KeyRace.Step)

  /** p has switched its password of login l in memory, and not purged the key yet. */
  predicate Unpurged(p: Peer, l: Login) {
    p.phase.Switched? && CurrentLogin(p) == Some(l)
  }

  function Current(p: Peer, l: Login): Bytes {
    if l in p.mem.to then p.mem.to[l].pwd else []
  }

  /** What a move is for the key. */
  function KeyStep(j: Joint, s: Side, l: Login, m: Move): KeyRace.Step
    requires CanMove(j, s, l, m)
  {
    match m
    case Thread(step) => step
    case Act(a) =>
      var p, p' := j.net.At(s), Next(j.net, a).At(s);
      if Unpurged(p', l) && !Unpurged(p, l) then KeyRace.Step.Change(Current(p', l))
      else if Unpurged(p, l) && !Unpurged(p', l) then KeyRace.Step.Purge
      else KeyRace.Step.Elsewhere
  }

  predicate IsFree(j: Joint, t: KeyRace.Thread) {
    t in j.key.hands && j.key.hands[t].Free?
  }

  /** The internal thread fetches the key to encode its challenge, and the send thread to seal the message it has taken from
      the head of its queue; others may be any thread outside the session that uses the same entry. */
  predicate CanFetch(j: Joint, s: Side, l: Login, step: KeyRace.Step) {
    var p := j.net.At(s);
    && KeyRace.Enabled(j.key, step) && (step.LookUp? || step.Derive? || step.Store?)
    && (step == KeyRace.LookUp(INTERNAL) ==> p.phase == Stored(l))
    && (step == KeyRace.LookUp(SENDER) ==> p.sendq != [] && p.sendq[0].ToSeal?)
  }

  /** The send thread goes on when it has its key, the challenge is handed over when it is sealed, and a new session has new
      threads. */
  predicate CanAct(j: Joint, s: Side, l: Login, a: Label) {
    var p := j.net.At(s);
    && Enabled(j.net, a) && a != Crash(s)
    && (a.Connect? ==> a.cipher == j.key.cipher && IsFree(j, INTERNAL) && IsFree(j, SENDER))
    && (a.Transmit? && a.side == s ==> IsFree(j, SENDER))
    && (a == Emit(s) && p.phase == Stored(l) ==> IsFree(j, INTERNAL) && j.key.cached.Some?)
  }

  predicate CanMove(j: Joint, s: Side, l: Login, m: Move) {
    match m
    case Act(a) => CanAct(j, s, l, a)
    case Thread(step) => CanFetch(j, s, l, step)
  }

  function Moved(j: Joint, s: Side, l: Login, m: Move): Joint
    requires CanMove(j, s, l, m)
  {
    var step := KeyStep(j, s, l, m);
    Joint(if m.Act? then Next(j.net, m.step) else j.net,
          if KeyRace.Enabled(j.key, step) then KeyRace.Next(j.key, step) else j.key)
  }

  /** A process that has just started: it has no key yet. */
  ghost predicate Starts(j: Joint, s: Side, l: Login) {
    var p := j.net.At(s);
    && Reachable(j.net) && p.stopped && p.phase.Idle? && l in p.mem.to
    && KeyRace.Starts(j.key) && INTERNAL in j.key.hands && SENDER in j.key.hands
    && j.key.o == KeyCaches.ToOwner(p, l) && j.key.pwd == p.mem.to[l].pwd
  }

  /** A run of the two parties in which the process of side s lives on, with the steps of its threads cut. */
  ghost predicate JointRun(states: seq<Joint>, moves: seq<Move>, s: Side, l: Login) {
    && |states| == |moves| + 1 && Starts(states[0], s, l)
    && forall i :: 0 <= i < |moves| ==>
         CanMove(states[i], s, l, moves[i]) && states[i + 1] == Moved(states[i], s, l, moves[i])
  }

  // ------------------------------------------------------------------ the key and the password

  /** The key is one of the password that side s has, and a purge is due exactly while the switch is not saved. */
  predicate Coupled(j: Joint, s: Side, l: Login) {
    var p := j.net.At(s);
    && l in p.mem.to && j.key.o == KeyCaches.ToOwner(p, l) && j.key.pwd == p.mem.to[l].pwd
    && (j.key.changing <==> Unpurged(p, l)) && (!p.stopped ==> p.cipher == j.key.cipher)
  }

  /** What one step does to the password of the entry. */
  predicate Keeps(p: Peer, p': Peer, l: Login) {
    && p'.me == p.me && p'.remote == p.remote && p'.mem.to.Keys == p.mem.to.Keys
    && (l in p.mem.to && p'.mem.to[l].pwd != p.mem.to[l].pwd ==> Unpurged(p', l) && !Unpurged(p, l))
    && (!p'.stopped ==> !p.stopped && p'.cipher == p.cipher)
  }

  lemma ScanKeeps(p: Peer, l: Login, now: int, candidate: Bytes)
    requires p.phase.Idle?
    ensures Keeps(p, Begin(p, now, candidate), l) && !Unpurged(Begin(p, now, candidate), l)
  {
    hide DueLogin;
  }

  lemma ProcessKeeps(p: Peer, l: Login, now: int)
    requires p.phase.Idle? && p.inq != []
    ensures Keeps(p, Peers.Process(p, now), l)
  {
    hide OnRequest, OnResponse, OnPong, Keeps, Unpurged;
    var x, p0 := p.inq[0], p.(inq := p.inq[1..]);
    match x.body {
      case ChangePwdRequest(m, text) => RequestKeeps(p0, l, x.login, m, text, now);
      case ChangePwdResponse(o, status) => AnswerKeeps(p0, l, o, status, now);
      case Pong(o) => AnswerKeeps(p0, l, o, true, now);
      case _ => PlainKeeps(p0, Peers.Process(p, now), l);
    }
    PoppedKeeps(p, p0, Peers.Process(p, now), l);
  }

  lemma RequestKeeps(p: Peer, l: Login, x: Login, m: nat, text: string, now: int)
    requires p.phase.Idle?
    ensures Keeps(p, OnRequest(p, x, m, text, now), l)
  {
    hide OnRequest;
    RequestEffect(p, x, m, text, now);
  }

  lemma AnswerKeeps(p: Peer, l: Login, o: nat, status: bool, now: int)
    requires p.phase.Idle?
    ensures Keeps(p, OnResponse(p, o, status, now), l) && Keeps(p, OnPong(p, o, now), l)
  {
    hide SwitchInMemory, Keeps;
    if p.ctx.Some? { SwitchKeeps(p, l, now); }
    CalmKeeps(p, OnResponse(p, o, false, now), l);
    CalmKeeps(p, p, l);
  }

  lemma SwitchKeeps(p: Peer, l: Login, now: int)
    requires p.phase.Idle? && p.ctx.Some?
    ensures Keeps(p, SwitchInMemory(p, now), l)
  {}

  lemma CalmKeeps(p: Peer, p': Peer, l: Login)
    requires p' == p.(ctx := p'.ctx)
    ensures Keeps(p, p', l)
  {}

  lemma PlainKeeps(p: Peer, p': Peer, l: Login)
    requires p' == p.(sendq := p'.sendq, allClearRxed := p'.allClearRxed)
    ensures Keeps(p, p', l)
  {}

  lemma PoppedKeeps(p: Peer, p0: Peer, p': Peer, l: Login)
    requires p0 == p.(inq := p0.inq)
    ensures Keeps(p, p', l) <==> Keeps(p0, p', l)
  {}

  lemma SaveKeeps(p: Peer, l: Login)
    requires CanSave(p)
    ensures Keeps(p, SaveStep(p), l)
  {}

  lemma EmitKeeps(p: Peer, l: Login, m1: nat, m2: nat)
    requires CanEmit(p)
    ensures Keeps(p, EmitStep(p, m1, m2), l)
  {
    hide ChallengeEnvelope;
  }

  lemma TrafficKeeps(p: Peer, l: Login, e: Envelope, late: bool, login: Option<Login>, payload: Bytes)
    ensures Keeps(p, Peers.Receive(p, e, late), l) && Keeps(p, Peers.Send(p, login, payload), l)
  {
    hide Wire.Opened, Internal, External, OpenKey, SendLogin;
  }

  /** A step of side s itself, within the session. */
  lemma SideKeeps(n: Net, a: Label, s: Side, l: Login)
    requires Enabled(n, a) && !a.Disconnect? && !a.Connect? && !a.Crash? && a.side == s
    ensures Keeps(n.At(s), Next(n, a).At(s), l)
  {
    hide Begin, SaveStep, EmitStep, Peers.Process, Peers.Receive, Peers.Send, Sent, CanSave, CanEmit, GoodCandidate;
    var p := n.At(s);
    match a
    case Scan(_, now, candidate) => ScanKeeps(p, l, now, candidate);
    case Process(_, now) => ProcessKeeps(p, l, now);
    case Save(_) => SaveKeeps(p, l);
    case Emit(_) => EmitKeeps(p, l, n.nextId, n.nextId + 1);
    case Transmit(_, _) =>
    case Receive(_, late) => TrafficKeeps(p, l, n.From(Other(s)).log[n.From(Other(s)).taken], late, None, []);
    case Send(_, login, payload) => TrafficKeeps(p, l, Envelope([], []), false, login, payload);
  }

  /** The other side's steps, the end of a session, and the start of one. */
  lemma OutsideKeeps(n: Net, a: Label, s: Side)
    requires Enabled(n, a) && a != Crash(s) && (a.Disconnect? || a.Connect? || a.side != s)
    ensures var p, p' := n.At(s), Next(n, a).At(s);
            && p'.me == p.me && p'.remote == p.remote && p'.mem == p.mem && p'.phase == p.phase
            && (p.phase.Switched? ==> CurrentLogin(p') == CurrentLogin(p))
            && (!p'.stopped ==> (if a.Connect? then p'.cipher == a.cipher else !p.stopped && p'.cipher == p.cipher))
  {
    hide Load, Credentials.Save, GoodCandidate;
  }

  lemma StepCoupled(j: Joint, s: Side, l: Login, m: Move)
    requires Coupled(j, s, l) && CanMove(j, s, l, m)
    ensures Coupled(Moved(j, s, l, m), s, l) && KeyRace.Enabled(j.key, KeyStep(j, s, l, m))
  {
    hide Enabled, Next;
    if m.Act? {
      var a := m.step;
      if a.Disconnect? || a.Connect? || a.Crash? || a.side != s {
        OutsideKeeps(j.net, a, s);
      } else {
        SideKeeps(j.net, a, s, l);
      }
    }
  }

  lemma MoveReaches(j: Joint, s: Side, l: Login, m: Move)
    requires Reachable(j.net) && CanMove(j, s, l, m)
    ensures Reachable(Moved(j, s, l, m).net)
  {
    hide Reachable, Enabled, Next;
    if m.Act? { Recovery.ReachableStep(j.net, m.step); }
  }

  lemma {:induction false} StaysCoupled(states: seq<Joint>, moves: seq<Move>, s: Side, l: Login, k: nat)
    requires JointRun(states, moves, s, l) && k <= |moves|
    ensures Coupled(states[k], s, l) && Reachable(states[k].net)
  {
    hide CanMove, Moved, Reachable, Coupled;
    if k == 0 {
      StartsCoupled(states[0], s, l);
    } else {
      StaysCoupled(states, moves, s, l, k - 1);
      assert CanMove(states[k - 1], s, l, moves[k - 1]) && states[k - 1 + 1] == Moved(states[k - 1], s, l, moves[k - 1]);
      StepCoupled(states[k - 1], s, l, moves[k - 1]);
      MoveReaches(states[k - 1], s, l, moves[k - 1]);
    }
  }

  lemma StartsCoupled(j: Joint, s: Side, l: Login)
    requires Starts(j, s, l)
    ensures Coupled(j, s, l)
  {}

  // ----------------------------------------------------------------------- any threads

  function Keys(states: seq<Joint>): seq<KeyRace.State> {
    seq(|states|, i requires 0 <= i < |states| => states[i].key)
  }

  function Steps(states: seq<Joint>, moves: seq<Move>, s: Side, l: Login): seq<KeyRace.Step>
    requires |states| == |moves| + 1 && forall i :: 0 <= i < |moves| ==> CanMove(states[i], s, l, moves[i])
  {
    seq(|moves|, i requires 0 <= i < |moves| && CanMove(states[i], s, l, moves[i]) => KeyStep(states[i], s, l, moves[i]))
  }

  lemma KeysRun(states: seq<Joint>, moves: seq<Move>, s: Side, l: Login)
    requires JointRun(states, moves, s, l)
    ensures KeyRace.IsRun(Keys(states), Steps(states, moves, s, l))
  {
    hide CanMove, Reachable, KeyRace.Starts, Coupled;
    forall i | 0 <= i < |moves|
      ensures KeyRace.Enabled(states[i].key, KeyStep(states[i], s, l, moves[i]))
      ensures states[i + 1].key == KeyRace.Next(states[i].key, KeyStep(states[i], s, l, moves[i]))
    {
      StaysCoupled(states, moves, s, l, i);
      StepCoupled(states[i], s, l, moves[i]);
    }
  }

  /** The elements of a challenge that side s encodes under the key in the cache. */
  function ChallengeUnder(j: Joint, s: Side, l: Login, request: Message, ping: Message): seq<Sealed>
    requires l in j.net.At(s).mem.to && j.key.cached.Some?
  {
    [Sealed(j.key.cached.value, request), Sealed(SealKey(j.net.At(s), l, j.net.At(s).mem.to[l].newPwd), ping)]
  }

  /** Over every run, with any number of threads from outside the session at the entry: a challenge that is encoded under the
      key in the cache opens nothing at the other side, whichever password the receive thread takes there, exactly when a
      key derived from an earlier password was stored after a purge, and the other side does not hold the candidate. */
  lemma RacedChallenge(states: seq<Joint>, moves: seq<Move>, s: Side, l: Login, k: nat, request: Message, ping: Message,
                       late: bool)
    requires JointRun(states, moves, s, l) && k <= |moves|
    requires var p, q := states[k].net.At(s), states[k].net.At(Other(s));
             p.phase == Stored(l) && !p.stopped && l in q.mem.from && states[k].key.cached.Some?
    ensures l in states[k].net.At(s).mem.to
    ensures var p, q := states[k].net.At(s), states[k].net.At(Other(s));
            Wire.Opened(ChallengeUnder(states[k], s, l, request, ping), OpenKey(q, l, late)) == []
            <==> Held(q.mem.from, q.disk.from, l, late) != p.mem.to[l].newPwd
                 && exists i, r, h :: KeyRace.Raced(Keys(states), Steps(states, moves, s, l), i, r, h, k)
  {
    hide CanMove, Moved, Reachable, Inv, KeyRace.IsRun, KeyRace.Raced, KeyRace.InCache, Derive, Starts;
    StaysCoupled(states, moves, s, l, k);
    KeysRun(states, moves, s, l);
    var keys, steps := Keys(states), Steps(states, moves, s, l);
    KeyRace.StaleIffRaced(keys, steps, k);
    var i, h := KeyRace.CacheFrom(keys, steps, k);
    EarlierKey(keys, steps, i, h, k);
    OpensUnder(states[k], s, l, request, ping, late, keys[i].pwd);
  }

  lemma EarlierKey(keys: seq<KeyRace.State>, steps: seq<KeyRace.Step>, i: nat, h: nat, k: nat)
    requires KeyRace.IsRun(keys, steps) && KeyRace.InCache(steps, i, h, k) && k < |keys|
    ensures i < |keys| && KeyRace.RightKey(keys[i]) == KeyFor(keys[k].o, keys[k].cipher, keys[i].pwd)
  {
    hide KeyRace.Starts, Derive;
    KeyRace.InOrder(steps, i, h, k);
    KeyRace.Same(keys, steps, i);
    KeyRace.Same(keys, steps, k);
  }

  lemma OpensUnder(j: Joint, s: Side, l: Login, request: Message, ping: Message, late: bool, pwd: Bytes)
    requires Coupled(j, s, l) && Reachable(j.net)
    requires var p, q := j.net.At(s), j.net.At(Other(s)); p.phase == Stored(l) && !p.stopped && l in q.mem.from
    requires j.key.cached == Some(KeyFor(j.key.o, j.key.cipher, pwd))
    ensures var p, q := j.net.At(s), j.net.At(Other(s));
            Wire.Opened(ChallengeUnder(j, s, l, request, ping), OpenKey(q, l, late)) == []
            <==> Held(q.mem.from, q.disk.from, l, late) != p.mem.to[l].newPwd && KeyRace.Stale(j.key)
  {
    hide Reachable, Inv, Derive;
    var p, q := j.net.At(s), j.net.At(Other(s));
    ReachableInv(j.net);
    HeldAgrees(j.net, s, l, late);
    var held, data := Held(q.mem.from, q.disk.from, l, late), ChallengeUnder(j, s, l, request, ping);
    OpenedTwo(data, OpenKey(q, l, late));
    KeysAgree(p.cipher, p.me, q.me, l, pwd, held);
    KeysAgree(p.cipher, p.me, q.me, l, p.mem.to[l].newPwd, held);
    OtherPwdOtherKey(j.key.o, j.key.cipher, pwd, j.key.pwd);
  }

  lemma HeldAgrees(n: Net, s: Side, l: Login, late: bool)
    requires Inv(n) && !n.At(s).stopped && l in n.At(s).mem.to && l in n.At(Other(s)).mem.from
    ensures var p, q := n.At(s), n.At(Other(s));
            && Matched(p, q)
            && (Held(q.mem.from, q.disk.from, l, late) == p.mem.to[l].pwd
                || Held(q.mem.from, q.disk.from, l, late) == p.mem.to[l].newPwd)
  {
    hide SessionGood, AllOlder, GoodStore, DiskLags, ContextGood;
    InvAt(n, s);
  }

  // --------------------------------------------------------------- the threads of the session

  /** No old key but the one that is about to be purged; a thread is in the middle of its coder_secret_get only while no
      answer can change the password. */
  predicate Safe(j: Joint, s: Side, l: Login) {
    var p, key := j.net.At(s), j.key;
    && key.hands.Keys == {INTERNAL, SENDER}
    && (forall t :: t in key.hands && key.hands[t].Derived? ==> key.hands[t].key == KeyRace.RightKey(key))
    && (KeyRace.Stale(key) ==> key.changing)
    && (key.changing ==> key.cached.Some? && IsFree(j, INTERNAL) && IsFree(j, SENDER))
    && (IsFree(j, INTERNAL) || p.phase == Stored(l))
    && (IsFree(j, SENDER) || (p.sendq != [] && p.sendq[0].ToSeal?))
    && (Asking(p, l) ==> key.cached.Some? && (IsFree(j, SENDER) || HasChallenge(p.sendq)))
  }

  predicate Asking(p: Peer, l: Login) {
    Live(p) && LiveLogin(p) == l
  }

  predicate HasChallenge(sendq: seq<Outgoing>) {
    exists o :: o in sendq && o.Ready?
  }

  /** A step that adds to the queue at most, and begins no challenge. */
  predicate Frame(p: Peer, p': Peer, l: Login) {
    && (p.phase == Stored(l) ==> p'.phase == Stored(l)) && p.sendq <= p'.sendq && (Asking(p', l) ==> Asking(p, l))
  }

  lemma SafeFrame(j: Joint, j': Joint, s: Side, l: Login)
    requires Safe(j, s, l) && j'.key == j.key
    requires var p, p' := j.net.At(s), j'.net.At(s);
             && (p.phase == Stored(l) && p'.phase != Stored(l) ==> IsFree(j, INTERNAL))
             && (p.sendq <= p'.sendq || IsFree(j, SENDER))
             && (Asking(p', l) ==> Asking(p, l) || (j.key.cached.Some? && HasChallenge(p'.sendq)))
    ensures Safe(j', s, l)
  {
    hide Live, KeyRace.RightKey;
    var p, p' := j.net.At(s), j'.net.At(s);
    if p.sendq <= p'.sendq && HasChallenge(p.sendq) {
      var o :| o in p.sendq && o.Ready?;
      assert o in p'.sendq;
    }
  }

  lemma ScanFrame(p: Peer, l: Login, now: int, candidate: Bytes)
    requires p.phase.Idle?
    ensures Frame(p, Begin(p, now, candidate), l) && !Unpurged(Begin(p, now, candidate), l)
  {
    hide DueLogin;
  }

  lemma ProcessFrame(p: Peer, l: Login, now: int)
    requires p.phase.Idle? && p.inq != []
    ensures Frame(p, Peers.Process(p, now), l)
  {
    hide OnRequest;
    var x, p0 := p.inq[0], p.(inq := p.inq[1..]);
    if x.body.ChangePwdRequest? { RequestEffect(p0, x.login, x.body.mId, x.body.pwd, now); }
  }

  lemma SaveFrame(p: Peer, l: Login)
    requires CanSave(p)
    ensures Frame(p, SaveStep(p), l) && !Unpurged(SaveStep(p), l)
  {}

  lemma TrafficFrame(p: Peer, l: Login, e: Envelope, late: bool, login: Option<Login>, payload: Bytes)
    ensures Frame(p, Peers.Receive(p, e, late), l) && Frame(p, Peers.Send(p, login, payload), l)
    ensures Unpurged(Peers.Receive(p, e, late), l) == Unpurged(Peers.Send(p, login, payload), l) == Unpurged(p, l)
  {
    hide Wire.Opened, Internal, External, OpenKey, SendLogin;
  }

  /** A challenge is handed over: it is in the queue, and the key that encoded it in the cache. */
  lemma EmitFrame(p: Peer, l: Login, m1: nat, m2: nat)
    requires CanEmit(p)
    ensures var p' := EmitStep(p, m1, m2);
            && !Unpurged(p', l) && p.sendq <= p'.sendq && (p.phase == Stored(l) ==> HasChallenge(p'.sendq))
            && (p.phase != Stored(l) ==> Frame(p, p', l))
  {
    hide ChallengeEnvelope;
    var p' := EmitStep(p, m1, m2);
    if p.phase.Stored? { assert p'.sendq[|p.sendq|] in p'.sendq; }
  }

  /** When an answer switches the password, its challenge has left the queue. */
  lemma SwitchedAlone(n: Net, s: Side, l: Login, now: int)
    requires Inv(n) && Enabled(n, Process(s, now)) && Unpurged(Next(n, Process(s, now)).At(s), l)
    ensures Asking(n.At(s), l) && !HasChallenge(n.At(s).sendq)
  {
    hide Requests, RequestsGood, PingsGood, AgreeEverywhere, AllOlder, GoodStore, DiskLags, Peers.Process, Holds, HasChallenge,
         Unpurged;
    InvAt(n, s);
    var p, q, w := n.At(s), n.At(Other(s)), InFlight(n.From(s));
    assert ReplyGood(p, q, w, p.inq[0].body);
    Answers(p, l, now);
    NothingQueued(p, q, w);
  }

  /** What switches is the answer to the challenge. */
  lemma Answers(p: Peer, l: Login, now: int)
    requires ContextGood(p) && p.phase.Idle? && !p.stopped && p.inq != [] && Unpurged(Peers.Process(p, now), l)
    ensures Asking(p, l)
    ensures var m := p.inq[0].body; m == ChangePwdResponse(p.ctx.value.mIdRequest, true) || m == Pong(p.ctx.value.mIdPing)
  {
    hide OnRequest;
    var x, p0 := p.inq[0], p.(inq := p.inq[1..]);
    if x.body.ChangePwdRequest? { RequestEffect(p0, x.login, x.body.mId, x.body.pwd, now); }
  }

  lemma NothingQueued(p: Peer, q: Peer, w: seq<Envelope>)
    ensures Requests(p, q, w) == 0 ==> !HasChallenge(p.sendq)
  {
    CountZero(IsReady, p.sendq);
  }

  /** A step of side s that does not switch. */
  lemma SideFrame(j: Joint, s: Side, l: Login, a: Label)
    requires Safe(j, s, l) && CanAct(j, s, l, a)
    requires !a.Disconnect? && !a.Connect? && !a.Crash? && !a.Process? && a.side == s
    ensures var p, p' := j.net.At(s), Next(j.net, a).At(s);
            && (Unpurged(p', l) ==> Unpurged(p, l))
            && (p.phase == Stored(l) && p'.phase != Stored(l) ==> IsFree(j, INTERNAL))
            && (p.sendq <= p'.sendq || IsFree(j, SENDER))
            && (Asking(p', l) ==> Asking(p, l) || (p.phase == Stored(l) && j.key.cached.Some? && HasChallenge(p'.sendq)))
  {
    hide Begin, SaveStep, EmitStep, Peers.Process, Peers.Receive, Peers.Send, Sent, CanSave, CanEmit, GoodCandidate, Safe,
         HasChallenge;
    var n := j.net;
    var p := n.At(s);
    match a
    case Scan(_, now, candidate) => ScanFrame(p, l, now, candidate);
    case Save(_) => SaveFrame(p, l);
    case Emit(_) => EmitFrame(p, l, n.nextId, n.nextId + 1);
    case Transmit(_, _) =>
    case Receive(_, late) => TrafficFrame(p, l, n.From(Other(s)).log[n.From(Other(s)).taken], late, None, []);
    case Send(_, login, payload) => TrafficFrame(p, l, Envelope([], []), false, login, payload);
  }

  lemma OutsideFrame(j: Joint, s: Side, l: Login, a: Label)
    requires CanAct(j, s, l, a) && (a.Disconnect? || a.Connect? || a.Crash? || a.side != s)
    ensures var p, p' := j.net.At(s), Next(j.net, a).At(s);
            && (Unpurged(p', l) <==> Unpurged(p, l)) && p'.phase == p.phase
            && (p.sendq <= p'.sendq || IsFree(j, SENDER)) && (Asking(p', l) ==> Asking(p, l))
  {
    hide Load, Credentials.Save, GoodCandidate;
  }

  lemma ActSafe(j: Joint, s: Side, l: Login, a: Label)
    requires Safe(j, s, l) && Coupled(j, s, l) && Inv(j.net) && CanAct(j, s, l, a)
    ensures Safe(Moved(j, s, l, Act(a)), s, l)
  {
    hide Inv, Next, CanAct, Safe, Coupled, HasChallenge;
    var j', p := Moved(j, s, l, Act(a)), j.net.At(s);
    StepCoupled(j, s, l, Act(a));
    ActEnabled(j, s, l, a);
    if a.Process? && a.side == s {
      TakesUpSafe(j, s, l, a.now);
    } else {
      if a.Disconnect? || a.Connect? || a.Crash? || a.side != s { OutsideFrame(j, s, l, a); } else { SideFrame(j, s, l, a); }
      var mid := Joint(Next(j.net, a), j.key);
      SafeFrame(j, mid, s, l);
      if Unpurged(p, l) && !Unpurged(mid.net.At(s), l) {
        NotLiveThen(p, l);
        IsChanging(j, s, l);
        PurgedSafe(j, mid, j', s, l);
      }
    }
  }

  lemma ActEnabled(j: Joint, s: Side, l: Login, a: Label)
    requires CanAct(j, s, l, a)
    ensures Enabled(j.net, a) && CanMove(j, s, l, Act(a))
  {}

  lemma PurgedSafe(j: Joint, mid: Joint, j': Joint, s: Side, l: Login)
    requires Safe(j, s, l) && Safe(mid, s, l) && mid.key == j.key && j.key.changing && !Unpurged(mid.net.At(s), l)
    requires !Asking(mid.net.At(s), l)
    requires j'.net == mid.net && j'.key == j.key.(cached := None, changing := false)
    ensures Safe(j', s, l)
  {
    hide Live;
  }

  /** A message taken up: if it switches the password, no thread is in the middle of its coder_secret_get. */
  lemma TakesUpSafe(j: Joint, s: Side, l: Login, now: int)
    requires Safe(j, s, l) && Coupled(j, s, l) && Inv(j.net) && CanAct(j, s, l, Process(s, now))
    ensures Safe(Moved(j, s, l, Act(Process(s, now))), s, l)
  {
    hide Inv, Peers.Process, HasChallenge, Live;
    var p := j.net.At(s);
    var p' := Peers.Process(p, now);
    ProcessFrame(p, l, now);
    if Unpurged(p', l) {
      SwitchedAlone(j.net, s, l, now);
      NotLiveThen(p', l);
    } else {
      SafeFrame(j, Joint(j.net.With(s, p'), j.key), s, l);
    }
  }

  lemma IsChanging(j: Joint, s: Side, l: Login)
    requires Coupled(j, s, l) && Unpurged(j.net.At(s), l)
    ensures j.key.changing
  {}

  lemma NotLiveThen(p: Peer, l: Login)
    requires Unpurged(p, l)
    ensures !Asking(p, l)
  {}

  lemma FetchSafe(j: Joint, s: Side, l: Login, step: KeyRace.Step)
    requires Safe(j, s, l) && CanFetch(j, s, l, step)
    ensures Safe(Moved(j, s, l, Thread(step)), s, l)
  {
    hide Live, HasChallenge, Derive;
  }

  lemma {:induction false} StaysSafe(states: seq<Joint>, moves: seq<Move>, s: Side, l: Login, k: nat)
    requires JointRun(states, moves, s, l) && states[0].key.hands.Keys == {INTERNAL, SENDER} && k <= |moves|
    ensures Safe(states[k], s, l)
  {
    hide CanAct, CanFetch, Moved, Reachable, Coupled, Safe, Inv;
    if k == 0 {
      StartsSafe(states[0], s, l);
    } else {
      StaysSafe(states, moves, s, l, k - 1);
      StaysCoupled(states, moves, s, l, k - 1);
      var j, m := states[k - 1], moves[k - 1];
      assert CanMove(j, s, l, m) && states[k - 1 + 1] == Moved(j, s, l, m);
      ReachableInv(j.net);
      match m {
        case Act(a) => ActSafe(j, s, l, a);
        case Thread(step) => FetchSafe(j, s, l, step);
      }
    }
  }

  lemma StartsSafe(j: Joint, s: Side, l: Login)
    requires Starts(j, s, l) && j.key.hands.Keys == {INTERNAL, SENDER}
    ensures Safe(j, s, l)
  {}

  /** With the two threads of the session only, and however their look-ups, derivations and storings fall among the steps of
      the two parties: the key in the cache is the one of the current password, but for the time from a switch to its
      purge, and no thread is in the middle of its coder_secret_get then. So what a thread gets is never an older key. */
  lemma NeverRaced(states: seq<Joint>, moves: seq<Move>, s: Side, l: Login, k: nat)
    requires JointRun(states, moves, s, l) && states[0].key.hands.Keys == {INTERNAL, SENDER} && k <= |moves|
    ensures var p, key := states[k].net.At(s), states[k].key;
            && l in p.mem.to
            && (key.cached.Some? && !Unpurged(p, l) ==> key.cached.value == SealKeyUnder(p, key.cipher, l, p.mem.to[l].pwd))
            && (forall t :: t in key.hands && key.hands[t].Derived? ==>
                              key.hands[t].key == SealKeyUnder(p, key.cipher, l, p.mem.to[l].pwd))
            && (Unpurged(p, l) ==> IsFree(states[k], INTERNAL) && IsFree(states[k], SENDER))
  {
    hide CanMove, Moved, Reachable, Derive;
    StaysCoupled(states, moves, s, l, k);
    StaysSafe(states, moves, s, l, k);
  }

  function SealKeyUnder(p: Peer, cipher: string, l: Login, pwd: Bytes): Key {
    KeyFor(KeyCaches.ToOwner(p, l), cipher, pwd)
  }

  // ------------------------------------------------------------ a thread from outside the session

  /** A thread of another session of the process at the same entry. */
  const OUTSIDER: KeyRace.Thread := 2

  datatype Course = Course(states: seq<Joint>, moves: seq<Move>)

  ghost predicate Runs(c: Course, s: Side, l: Login) {
    |c.states| == |c.moves| + 1 && JointRun(c.states, c.moves, s, l)
  }

  function End(c: Course): Joint
    requires c.states != []
  {
    c.states[|c.states| - 1]
  }

  lemma Goes(c: Course, s: Side, l: Login, m: Move) returns (d: Course)
    requires Runs(c, s, l) && CanMove(End(c), s, l, m)
    ensures Runs(d, s, l) && End(d) == Moved(End(c), s, l, m)
  {
    hide Reachable, CanMove, Moved, Starts;
    d := Course(c.states + [Moved(End(c), s, l, m)], c.moves + [m]);
    forall i | 0 <= i < |d.moves|
      ensures CanMove(d.states[i], s, l, d.moves[i]) && d.states[i + 1] == Moved(d.states[i], s, l, d.moves[i])
    {
      if i < |c.moves| {
        assert d.states[i] == c.states[i] && d.moves[i] == c.moves[i] && d.states[i + 1] == c.states[i + 1];
      }
    }
  }

  /** The threads of the session are not in the middle of anything, and the outsider has what it had. */
  predicate Resting(j: Joint, outsider: KeyRace.Hand) {
    IsFree(j, INTERNAL) && IsFree(j, SENDER) && OUTSIDER in j.key.hands && j.key.hands[OUTSIDER] == outsider
  }

  predicate SameEntry(j: Joint, j': Joint) {
    j'.key.o == j.key.o && j'.key.cipher == j.key.cipher
  }

  /** The internal thread has the key of its entry. */
  lemma Fetches(c: Course, s: Side, l: Login, outsider: KeyRace.Hand) returns (d: Course)
    requires Runs(c, s, l) && Resting(End(c), outsider) && End(c).net.At(s).phase == Stored(l)
    ensures Runs(d, s, l) && Resting(End(d), outsider) && End(d).net == End(c).net && End(d).key.cached.Some?
    ensures SameEntry(End(c), End(d))
  {
    hide JointRun, Derive;
    d := c;
    if End(c).key.cached.None? {
      d := Goes(d, s, l, Thread(KeyRace.LookUp(INTERNAL)));
      d := Goes(d, s, l, Thread(KeyRace.Step.Derive(INTERNAL)));
      d := Goes(d, s, l, Thread(KeyRace.Store(INTERNAL)));
    }
  }

  /** A step of the two parties, after the internal thread has fetched the key where it needs it. */
  lemma Acts(c: Course, s: Side, l: Login, a: Label, outsider: KeyRace.Hand) returns (d: Course)
    requires Runs(c, s, l) && Resting(End(c), outsider) && Enabled(End(c).net, a) && a != Crash(s)
    requires a.Connect? ==> a.cipher == End(c).key.cipher
    ensures Runs(d, s, l) && Resting(End(d), outsider) && End(d).net == Next(End(c).net, a)
    ensures SameEntry(End(c), End(d))
  {
    hide JointRun, Enabled, Next, KeyRace.RightKey;
    d := c;
    if a == Emit(s) && End(c).net.At(s).phase == Stored(l) { d := Fetches(c, s, l, outsider); }
    d := Goes(d, s, l, Act(a));
  }

  /** A run of the two parties, as one with its threads. */
  lemma {:induction false} Lifts(c: Course, s: Side, l: Login, nets: seq<Net>, labels: seq<Label>,
                                 outsider: KeyRace.Hand, k: nat)
    returns (d: Course)
    requires Runs(c, s, l) && Resting(End(c), outsider) && IsRun(nets, labels) && nets[0] == End(c).net && k <= |labels|
    requires forall i :: 0 <= i < |labels| ==>
               labels[i] != Crash(s) && (labels[i].Connect? ==> labels[i].cipher == End(c).key.cipher)
    ensures Runs(d, s, l) && Resting(End(d), outsider) && End(d).net == nets[k] && SameEntry(End(c), End(d))
  {
    hide JointRun, Enabled, Next, Resting;
    if k == 0 {
      d := c;
    } else {
      d := Lifts(c, s, l, nets, labels, outsider, k - 1);
      assert Enabled(nets[k - 1], labels[k - 1]) && nets[k - 1 + 1] == Next(nets[k - 1], labels[k - 1]);
      d := Acts(d, s, l, labels[k - 1], outsider);
    }
  }

  /** A run of the two parties in which login l of the left side is rotated from one password to the next. */
  lemma RotatesOnce(x: SiteId, y: SiteId, l: Login, pwd: Bytes, next: Bytes, cipher: string)
    returns (nets: seq<Net>, labels: seq<Label>)
    requires GoodLength(pwd) && |next| == |pwd|
    ensures IsRun(nets, labels) && nets[0] == Stale.TwoPeers(x, y, l, pwd) && Reachable(nets[0])
    ensures forall i :: 0 <= i < |labels| ==> !labels[i].Crash? && (labels[i].Connect? ==> labels[i].cipher == cipher)
    ensures var m := nets[|labels|];
            && m.left.phase.Idle? && m.left.mem.to.Keys == {l} && !m.left.mem.to[l].pending && m.left.mem.to[l].pwd == next
            && l in m.right.disk.from && m.right.disk.from[l].pwd == next
  {
    hide Reachable, DueLogin, Rotation.Rotated, Crossing.Disciplined, Reconnection.AnswerableAfter, Reconnection.Takes,
         Crossing.Finds, GoodCandidate, Next, Enabled;
    var n := Stale.TwoPeers(x, y, l, pwd);
    Stale.TwoPeersInitial(x, y, l, pwd);
    FallsDue(n, x, y, l, pwd, next);
    nets, labels := Reconnection.ReconnectRecovers(n, cipher, Left, TRIGGER_SECONDS + 1, next, l, 0, []);
    forall i | 0 <= i < |labels|
      ensures !labels[i].Crash? && (labels[i].Connect? ==> labels[i].cipher == cipher)
    {
      if i < 4 {
        assert labels[i] == labels[..4][i];
      } else {
        Reconnection.TurnWithin(nets[i], labels[i]);
      }
    }
    CachedProtocol.AfterRotation(nets[|labels|], l, pwd, next);
  }

  lemma FallsDue(n: Net, x: SiteId, y: SiteId, l: Login, pwd: Bytes, next: Bytes)
    requires n == Stale.TwoPeers(x, y, l, pwd) && |next| == |pwd|
    ensures Crossing.Finds(n, Left, TRIGGER_SECONDS + 1, next, l) && GoodCandidate(n.right, 0, [])
    ensures Reconnection.Takes(n.left, n.right, l, next, 0, []) && Reconnection.AnswerableAfter(n.left, n.right, 0)
    ensures Reachable(n) <== Initial(n)
    ensures l in n.left.mem.to && WithCandidate(n.left.mem.to[l], next) == Auth(pwd, next, true, 0)
    ensures n.left.mem.to == n.right.mem.from == map[l := Auth(pwd, [], false, 0)]
  {
    assert [l][1..] == [];
    if Initial(n) { assert IsRun([n], []); }
  }

  /** The right side restarts, the two connect again, and the left side is about to encode its next challenge. */
  lemma AsksAnew(c: Course, l: Login, next: Bytes, candidate: Bytes, outsider: KeyRace.Hand) returns (d: Course)
    requires Runs(c, Left, l) && Resting(End(c), outsider) && |candidate| == |next|
    requires var m := End(c).net;
             && m.left.phase.Idle? && m.left.mem.to.Keys == {l} && !m.left.mem.to[l].pending && m.left.mem.to[l].pwd == next
             && l in m.right.disk.from && m.right.disk.from[l].pwd == next
    ensures Runs(d, Left, l) && Resting(End(d), outsider) && Asks(End(d).net, l, next, candidate)
    ensures SameEntry(End(c), End(d))
  {
    hide JointRun, Resting, Next, Enabled, Reachable, Asks, Inv;
    StaysCoupled(c.states, c.moves, Left, l, |c.moves|);
    var m, cipher := End(c).net, End(c).key.cipher;
    ReachableInv(m);
    var a := Scan(Left, m.left.mem.to[l].stamp + TRIGGER_SECONDS + 1, candidate);
    Anew(m, l, next, candidate, cipher, a);
    d := Acts(c, Left, l, Crash(Right), outsider);
    d := Acts(d, Left, l, Connect(cipher), outsider);
    d := Acts(d, Left, l, a, outsider);
    d := Acts(d, Left, l, Label.Save(Left), outsider);
  }

  /** The challenge is saved; both ends have the same password, which is not the candidate. */
  predicate Asks(n: Net, l: Login, next: Bytes, candidate: Bytes) {
    && n.left.phase == Stored(l) && !n.left.stopped && l in n.left.mem.to && n.left.mem.to[l].pwd == next
    && n.left.mem.to[l].newPwd == candidate && l in n.right.mem.from && n.right.mem.from[l].pwd == next
  }

  lemma Anew(m: Net, l: Login, next: Bytes, candidate: Bytes, cipher: string, a: Label)
    requires Inv(m) && m.left.phase.Idle? && |candidate| == |next|
    requires m.left.mem.to.Keys == {l} && !m.left.mem.to[l].pending && m.left.mem.to[l].pwd == next
    requires l in m.right.disk.from && m.right.disk.from[l].pwd == next
    requires a == Scan(Left, m.left.mem.to[l].stamp + TRIGGER_SECONDS + 1, candidate)
    ensures Enabled(m, Crash(Right))
    ensures var m1 := Next(m, Crash(Right)); Enabled(m1, Connect(cipher))
    ensures var m2 := Next(Next(m, Crash(Right)), Connect(cipher)); Enabled(m2, a)
    ensures var m3 := Next(Next(Next(m, Crash(Right)), Connect(cipher)), a);
            Enabled(m3, Label.Save(Left)) && Asks(Next(m3, Label.Save(Left)), l, next, candidate)
  {
    hide Inv, Load, Credentials.Save, DueLogin;
    CachedProtocol.InvSites(m);
    Recovery.DiskRestored(m, Right);
    CachedProtocol.DueAlone(m.left.mem.order, m.left.mem.to, a.now, l);
  }

  /** It happens with one cipher, for all sites, logins and passwords: a thread from outside the session derives the key
      before a rotation and stores it after; then both ends hold the same password, and neither element of the next
      challenge opens. */
  lemma RaceLoses(x: SiteId, y: SiteId, l: Login, pwd: Bytes, next: Bytes, candidate: Bytes, cipher: string,
                  request: Message, ping: Message)
    returns (c: Course)
    requires GoodLength(pwd) && |next| == |pwd| && next != pwd && |candidate| == |pwd| && candidate != next
    ensures Runs(c, Left, l) && Asks(End(c).net, l, next, candidate)
    ensures End(c).key.cached == Some(KeyFor(KeyCaches.ToOwner(End(c).net.left, l), cipher, pwd))
    ensures Wire.Opened(ChallengeUnder(End(c), Left, l, request, ping), OpenKey(End(c).net.right, l, false)) == []
  {
    hide JointRun, Next, Enabled, Reachable, Derive;
    var nets, labels := RotatesOnce(x, y, l, pwd, next, cipher);
    c := Derives(nets[0], x, y, l, pwd, cipher);
    var outsider := End(c).key.hands[OUTSIDER];
    c := Lifts(c, Left, l, nets, labels, outsider, |labels|);
    c := AsksAnew(c, l, next, candidate, outsider);
    c := StoresLate(c, l, outsider);
    StaysCoupled(c.states, c.moves, Left, l, |c.moves|);
    OpensUnder(End(c), Left, l, request, ping, false, pwd);
    OtherPwdOtherKey(End(c).key.o, cipher, pwd, next);
  }

  /** The outsider derives the key of the first password. */
  lemma Derives(n: Net, x: SiteId, y: SiteId, l: Login, pwd: Bytes, cipher: string) returns (c: Course)
    requires n == Stale.TwoPeers(x, y, l, pwd) && Reachable(n)
    ensures Runs(c, Left, l) && End(c).net == n
    ensures End(c).key.cipher == cipher && End(c).key.o == KeyCaches.ToOwner(n.left, l)
    ensures Resting(End(c), KeyRace.Derived(KeyFor(KeyCaches.ToOwner(n.left, l), cipher, pwd)))
  {
    hide Reachable, Derive;
    var key := KeyRace.State(KeyCaches.ToOwner(n.left, l), cipher, pwd, None, false,
                             map[INTERNAL := KeyRace.Free, SENDER := KeyRace.Free, OUTSIDER := KeyRace.Free]);
    c := Course([Joint(n, key)], []);
    c := Goes(c, Left, l, Thread(KeyRace.LookUp(OUTSIDER)));
    c := Goes(c, Left, l, Thread(KeyRace.Step.Derive(OUTSIDER)));
  }

  /** And stores it when the password has long been another one. */
  lemma StoresLate(c: Course, l: Login, outsider: KeyRace.Hand) returns (d: Course)
    requires Runs(c, Left, l) && Resting(End(c), outsider) && outsider.Derived?
    ensures Runs(d, Left, l) && End(d).net == End(c).net && End(d).key.cached == Some(outsider.key)
    ensures SameEntry(End(c), End(d))
  {
    hide JointRun;
    d := Goes(c, Left, l, Thread(KeyRace.Store(OUTSIDER)));
  }
}
