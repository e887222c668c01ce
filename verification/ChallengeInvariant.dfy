/** What every step of the password-rotation challenge keeps, for one process and for one direction
    between two processes. */
module ChallengeInvariant {
  import opened Basics
  import opened Wire
  import opened Credentials
  import opened Peers
  import opened Network
  import Base64

  // ------------------------------------------------------------------- one process

  predicate Agree(t: Auth, f: Auth) {
    f.pwd == t.pwd || (t.pending && f.pwd == t.newPwd)
  }

  /** How far auth.db may lag behind memory: only inside an event, and only in the one entry the
      event is changing. */
  predicate DiskLags(p: Peer) {
    && (!p.phase.Generated? && !p.phase.Switched? ==> p.disk.to == p.mem.to)
    && (!p.phase.Installed? ==> p.disk.from == p.mem.from)
    && (p.phase.Generated? ==> p.phase.login in p.mem.to && UnsavedCandidate(p, p.phase.login))
    && (p.phase.Switched? ==> CurrentLogin(p).Some? && UnsavedSwitch(p, CurrentLogin(p).value))
  }

  predicate OthersSaved(p: Peer, l: Login) {
    p.mem.to.Keys == p.disk.to.Keys && forall k :: k in p.mem.to && k != l ==> p.disk.to[k] == p.mem.to[k]
  }

  predicate UnsavedCandidate(p: Peer, l: Login) {
    && l in p.mem.to && OthersSaved(p, l) && p.mem.to[l].pending
    && (p.disk.to[l] == p.mem.to[l] || p.disk.to[l] == p.mem.to[l].(newPwd := [], pending := false))
  }

  predicate UnsavedSwitch(p: Peer, l: Login) {
    && l in p.mem.to && OthersSaved(p, l) && !p.mem.to[l].pending
    && p.disk.to[l].pending && p.disk.to[l].newPwd == p.mem.to[l].pwd
  }

  function CurrentLogin(p: Peer): Option<Login> {
    if p.ctx.Some? then p.ctx.value.auth else None
  }

  /** The challenge context: a running challenge has a login with a pending candidate, unless the
      switch has just consumed it; toSend is set only inside an event. */
  predicate ContextGood(p: Peer) {
    && (p.phase.Generated? || p.phase.Stored? ==>
          p.ctx.Some? && p.ctx.value.toSend && p.ctx.value.auth == Some(p.phase.login)
                    && Pending(p.mem.to, p.phase.login))
    && (p.phase.Switched? ==> p.ctx.Some? && p.ctx.value.running)
    && (p.ctx.Some? ==>
          && (p.ctx.value.toSend ==> !p.ctx.value.running && (p.phase.Generated? || p.phase.Stored?))
          && (p.ctx.value.running && !p.phase.Switched? ==>
                p.ctx.value.auth.Some? && Pending(p.mem.to, p.ctx.value.auth.value))
          && (!p.stopped ==> (p.ctx.value.timer <==> p.ctx.value.running && !p.phase.Switched?)))
  }

  ghost predicate PeerGood(p: Peer) {
    && GoodStore(p.mem) && GoodStore(p.disk)
    && p.mem.order == p.disk.order && p.mem.to.Keys == p.disk.to.Keys && p.mem.from.Keys == p.disk.from.Keys
    && DiskLags(p) && ContextGood(p)
  }

  lemma BeginKeepsPeer(p: Peer, now: int, candidate: Bytes)
    requires PeerGood(p) && p.phase.Idle? && GoodCandidate(p, now, candidate)
    ensures PeerGood(Begin(p, now, candidate))
  {
    hide DueLogin;
    if !Active(p.ctx) {
      match DueLogin(p.mem.order, p.mem.to, now)
      case None =>
      case Some(l) =>
        CandidateKeepsPeer(p, Begin(p, now, candidate), l, candidate);
    }
  }

  lemma CandidateKeepsPeer(p: Peer, q: Peer, l: Login, candidate: Bytes)
    requires PeerGood(p) && p.phase.Idle? && l in p.mem.to && |candidate| == |p.mem.to[l].pwd|
    requires q == p.(mem := p.mem.(to := p.mem.to[l := WithCandidate(p.mem.to[l], candidate)]),
                     ctx := Some(NEW_CONTEXT.(auth := Some(l), toSend := true)), phase := Generated(l))
    ensures PeerGood(q)
  {
    assert q.mem.to.Keys == p.mem.to.Keys;
    assert GoodStore(q.mem);
    assert UnsavedCandidate(q, l);
  }

  lemma SaveKeepsPeer(p: Peer)
    requires PeerGood(p) && CanSave(p)
    ensures PeerGood(SaveStep(p))
  {}

  lemma EmitKeepsPeer(p: Peer, m1: nat, m2: nat)
    requires PeerGood(p) && CanEmit(p)
    ensures PeerGood(EmitStep(p, m1, m2))
  {}

  lemma SwitchKeepsPeer(p: Peer, now: int)
    requires PeerGood(p) && p.phase.Idle? && p.ctx.Some? && p.ctx.value.running
    ensures PeerGood(SwitchInMemory(p, now))
  {}

  lemma RequestKeepsPeer(p: Peer, l: Login, m: nat, text: string, now: int)
    requires PeerGood(p) && p.phase.Idle?
    requires Base64.Decode(text).Some? ==> GoodLength(Base64.Decode(text).value)
    ensures PeerGood(OnRequest(p, l, m, text, now))
  {}

  lemma HandleKeepsPeer(p: Peer, l: Login, body: Message, now: int)
    requires PeerGood(p) && p.phase.Idle?
    requires body.ChangePwdRequest? && Base64.Decode(body.pwd).Some? ==> GoodLength(Base64.Decode(body.pwd).value)
    ensures PeerGood(Handle(p, l, body, now))
  {
    hide OnRequest, SwitchInMemory;
    match body
    case ChangePwdRequest(m, text) => RequestKeepsPeer(p, l, m, text, now);
    case ChangePwdResponse(o, status) =>
      if p.ctx.Some? && p.ctx.value.running { SwitchKeepsPeer(p, now); }
    case Pong(o) =>
      if p.ctx.Some? && p.ctx.value.running { SwitchKeepsPeer(p, now); }
    case _ =>
  }

  lemma RestartKeepsPeer(p: Peer)
    requires PeerGood(p)
    ensures PeerGood(Restart(p)) && Restart(p).mem == p.disk
  {
    hide Load, Credentials.Save;
    LoadInvertsSave(p.disk);
  }

  // ------------------------------------------------------ one direction of a session

  function Count<T>(f: T -> bool, s: seq<T>): nat {
    if s == [] then 0 else (if f(s[0]) then 1 else 0) + Count(f, s[1..])
  }

  lemma {:induction false} CountAppend<T>(f: T -> bool, s: seq<T>, t: seq<T>)
    ensures Count(f, s + t) == Count(f, s) + Count(f, t)
  {
    if s == [] {
      assert s + t == t;
    } else {
      assert (s + t)[1..] == s[1..] + t;
      CountAppend(f, s[1..], t);
    }
  }

  lemma {:induction false} CountZero<T>(f: T -> bool, s: seq<T>)
    ensures Count(f, s) == 0 <==> forall x :: x in s ==> !f(x)
  {
    if s != [] { CountZero(f, s[1..]); }
  }

  function IsRequest(x: Incoming): bool { x.body.ChangePwdRequest? }
  function IsChallenge(e: Envelope): bool { e.data != [] && e.data[0].body.ChangePwdRequest? }
  function IsReady(o: Outgoing): bool { o.Ready? }

  /** The challenge p is waiting on. */
  predicate Live(p: Peer) {
    && !p.stopped && !p.phase.Switched?
    && p.ctx.Some? && p.ctx.value.running && p.ctx.value.auth.Some? && Pending(p.mem.to, p.ctx.value.auth.value)
  }

  function LiveLogin(p: Peer): Login
    requires Live(p)
  {
    p.ctx.value.auth.value
  }

  function Candidate(p: Peer): Bytes
    requires Live(p)
  {
    p.mem.to[LiveLogin(p)].newPwd
  }

  function LiveEnvelope(p: Peer): Envelope
    requires Live(p)
  {
    ChallengeEnvelope(p, LiveLogin(p), p.mem.to[LiveLogin(p)], p.ctx.value.mIdRequest, p.ctx.value.mIdPing)
  }

  predicate PlainBody(m: Message) {
    !m.ChangePwdRequest? && !m.Ping?
  }

  predicate PlainEnvelope(e: Envelope) {
    |e.data| == 1 && PlainBody(e.data[0].body)
  }

  /** Copies of the request of p's challenge on their way: queued, on the wire w, or opened by q. */
  function Requests(p: Peer, q: Peer, w: seq<Envelope>): nat {
    Count(IsRequest, q.inq) + Count(IsChallenge, w) + Count(IsReady, p.sendq)
  }

  /** At most one request is on its way, and it belongs to the live challenge. */
  predicate RequestsGood(p: Peer, q: Peer, w: seq<Envelope>) {
    && Requests(p, q, w) <= 1
    && (forall e :: e in w ==> PlainEnvelope(e) || (Live(p) && e == LiveEnvelope(p)))
    && (forall o :: o in p.sendq ==>
          if o.Ready? then Live(p) && o.envelope == LiveEnvelope(p) else PlainBody(o.body))
    && (forall x :: x in q.inq ==> OpenedRequestGood(p, x))
  }

  predicate OpenedRequestGood(p: Peer, x: Incoming) {
    x.body.ChangePwdRequest? ==>
      Live(p) && x == Incoming(LiveLogin(p), ChangePwdRequest(p.ctx.value.mIdRequest, Base64.Encode(Candidate(p))))
  }

  /** q has the candidate in memory, and has it saved. */
  predicate Holds(p: Peer, from: map<Login, Auth>)
    requires Live(p)
  {
    LiveLogin(p) in from && from[LiveLogin(p)].pwd == Candidate(p)
  }

  /** An answer to the live challenge says the truth: the request is consumed and, unless the answer
      is a refusal, q holds the candidate in memory and on disk. */
  predicate ReplyGood(p: Peer, q: Peer, w: seq<Envelope>, body: Message) {
    match body
    case ChangePwdResponse(o, status) =>
      Live(p) && o == p.ctx.value.mIdRequest ==>
        Requests(p, q, w) == 0 && (status ==> Holds(p, q.mem.from) && Holds(p, q.disk.from))
    case Pong(o) =>
      Live(p) && o == p.ctx.value.mIdPing ==>
        Requests(p, q, w) == 0 && Holds(p, q.mem.from) && Holds(p, q.disk.from)
    case _ => true
  }

  predicate RepliesGood(p: Peer, q: Peer, w: seq<Envelope>, v: seq<Envelope>) {
    && (forall x :: x in p.inq ==> ReplyGood(p, q, w, x.body))
    && (forall e, d :: e in v && d in e.data ==> ReplyGood(p, q, w, d.body))
    && (forall o :: o in q.sendq && o.ToSeal? ==> ReplyGood(p, q, w, o.body))
    && (Live(p) && q.phase.Installed? && q.phase.oMId == p.ctx.value.mIdRequest ==>
          Requests(p, q, w) == 0 && Holds(p, q.mem.from))
    && (Live(p) && q.phase.Committed? ==> ReplyGood(p, q, w, ChangePwdResponse(q.phase.oMId, true)))
  }

  /** A ping q has opened was sealed under the password q holds, and no request follows it. */
  predicate PingGood(p: Peer, q: Peer, w: seq<Envelope>, k: nat)
    requires k < |q.inq|
  {
    q.inq[k].body.Ping? && Live(p) && q.inq[k].body.mId == p.ctx.value.mIdPing ==>
      && Holds(p, q.mem.from)
      && Count(IsRequest, q.inq[k..]) == 0 && Count(IsChallenge, w) == 0 && Count(IsReady, p.sendq) == 0
  }

  predicate PingsGood(p: Peer, q: Peer, w: seq<Envelope>) {
    forall k :: 0 <= k < |q.inq| ==> PingGood(p, q, w, k)
  }

  /** Message identifiers are fresh. */
  predicate Older(m: Message, next: nat) {
    match m
    case ChangePwdRequest(i, _) => i < next
    case ChangePwdResponse(o, _) => o < next
    case Ping(i) => i < next
    case Pong(o) => o < next
    case _ => true
  }

  predicate AllOlder(p: Peer, w: seq<Envelope>, next: nat) {
    && (p.ctx.Some? && p.ctx.value.running ==> p.ctx.value.mIdRequest < p.ctx.value.mIdPing < next)
    && (forall x :: x in p.inq ==> Older(x.body, next))
    && (forall e, d :: e in w && d in e.data ==> Older(d.body, next))
    && (forall o :: o in p.sendq && o.ToSeal? ==> Older(o.body, next))
    && (forall o, d :: o in p.sendq && o.Ready? && d in o.envelope.data ==> Older(d.body, next))
    && (p.phase.Installed? || p.phase.Committed? ==> p.phase.oMId < next)
  }

  predicate SessionGood(p: Peer, q: Peer, w: seq<Envelope>, v: seq<Envelope>) {
    RequestsGood(p, q, w) && RepliesGood(p, q, w, v) && PingsGood(p, q, w)
  }

  /** The answering side's memory is ahead of its file only by the pending candidate. */
  predicate Ahead(t: Auth, memory: Auth, file: Auth) {
    memory.pwd == file.pwd || (t.pending && memory.pwd == t.newPwd)
  }

  /** Agreement for every pairing of memory and file. */
  predicate AgreeEverywhere(p: Peer, q: Peer) {
    forall l :: l in p.mem.to && l in p.disk.to && l in q.mem.from && l in q.disk.from ==>
      && Agree(p.mem.to[l], q.mem.from[l]) && Agree(p.mem.to[l], q.disk.from[l])
      && Agree(p.disk.to[l], q.mem.from[l]) && Agree(p.disk.to[l], q.disk.from[l])
      && Ahead(p.mem.to[l], q.mem.from[l], q.disk.from[l]) && Ahead(p.disk.to[l], q.mem.from[l], q.disk.from[l])
  }

  /** The invariant of the direction from p to q; w is in flight from p and v from q. */
  predicate Direction(p: Peer, q: Peer, w: seq<Envelope>, v: seq<Envelope>) {
    AgreeEverywhere(p, q) && (!p.stopped ==> SessionGood(p, q, w, v))
  }

  // --------------------------------------------------- a step of the initiating side

  predicate SameChallenge(p: Peer, p': Peer) {
    && Live(p) == Live(p')
    && (Live(p) ==> LiveEnvelope(p) == LiveEnvelope(p') && p.ctx == p'.ctx && Candidate(p) == Candidate(p'))
  }

  /** Frame: p keeps its challenge, may queue further plain messages and take in messages from v. */
  lemma InitiatorFrame(p: Peer, p': Peer, q: Peer, w: seq<Envelope>, v: seq<Envelope>, v': seq<Envelope>,
                       extra: seq<Outgoing>)
    requires SessionGood(p, q, w, v) && SameChallenge(p, p')
    requires p'.sendq == p.sendq + extra && forall o :: o in extra ==> o.ToSeal? && PlainBody(o.body)
    requires forall x :: x in p'.inq ==> ReplyGood(p, q, w, x.body)
    requires forall e :: e in v' ==> e in v
    ensures SessionGood(p', q, w, v')
  {
    CountAppend(IsReady, p.sendq, extra);
    CountZero(IsReady, extra);
    assert Requests(p', q, w) == Requests(p, q, w);
    forall body | ReplyGood(p, q, w, body) ensures ReplyGood(p', q, w, body) {}
    forall k | 0 <= k < |q.inq| ensures PingGood(p', q, w, k) { assert PingGood(p, q, w, k); }
  }

  /** Without a live challenge nothing of one is on its way, and every answer is stale. */
  lemma NotLive(p: Peer, q: Peer, w: seq<Envelope>, v: seq<Envelope>)
    requires RequestsGood(p, q, w) && !Live(p)
    ensures Requests(p, q, w) == 0
    ensures forall e :: e in w ==> PlainEnvelope(e)
    ensures forall o :: o in p.sendq ==> !o.Ready? && PlainBody(o.body)
    ensures forall x :: x in q.inq ==> !x.body.ChangePwdRequest?
  {
    CountZero(IsRequest, q.inq);
    CountZero(IsChallenge, w);
    CountZero(IsReady, p.sendq);
  }

  /** The challenge has ended with nothing of it on its way: any quiet p' is good. */
  lemma Quiet(p: Peer, p': Peer, q: Peer, w: seq<Envelope>, v: seq<Envelope>)
    requires RequestsGood(p, q, w) && Requests(p, q, w) == 0 && !Live(p')
    requires forall o :: o in p'.sendq ==> o in p.sendq || (o.ToSeal? && PlainBody(o.body))
    ensures SessionGood(p', q, w, v)
  {
    CountZero(IsRequest, q.inq);
    CountZero(IsChallenge, w);
    CountZero(IsReady, p.sendq);
    CountZero(IsReady, p'.sendq);
  }

  lemma BeginInitiator(p: Peer, q: Peer, w: seq<Envelope>, v: seq<Envelope>, now: int, candidate: Bytes)
    requires PeerGood(p) && PeerGood(q) && Direction(p, q, w, v)
    requires p.phase.Idle? && !p.stopped
    ensures Direction(Begin(p, now, candidate), q, w, v)
  {
    hide DueLogin, SessionGood;
    var p' := Begin(p, now, candidate);
    if !Active(p.ctx) {
      SessionParts(p, q, w, v);
      NotLive(p, q, w, v);
      BeginAgrees(p, q, now, candidate);
      Quiet(p, p', q, w, v);
    }
  }

  lemma SessionParts(p: Peer, q: Peer, w: seq<Envelope>, v: seq<Envelope>)
    requires SessionGood(p, q, w, v)
    ensures RequestsGood(p, q, w)
  {}

  /** A candidate in memory only is no disagreement, whoever holds the password. */
  lemma BeginAgrees(p: Peer, q: Peer, now: int, candidate: Bytes)
    requires AgreeEverywhere(p, q)
    ensures AgreeEverywhere(Begin(p, now, candidate), q)
    ensures forall o :: o in Begin(p, now, candidate).sendq ==> o in p.sendq || o == ToSeal(None, AllClear)
  {
    hide DueLogin;
  }

  lemma SaveInitiator(p: Peer, q: Peer, w: seq<Envelope>, v: seq<Envelope>)
    requires PeerGood(p) && PeerGood(q) && Direction(p, q, w, v) && CanSave(p)
    ensures Direction(SaveStep(p), q, w, v)
  {
    hide PeerGood, AgreeEverywhere, SessionGood;
    SaveAgreesHere(p, q);
    if !p.stopped { SaveSession(p, q, w, v); }
  }

  lemma SaveAgreesHere(p: Peer, q: Peer)
    requires PeerGood(p) && AgreeEverywhere(p, q) && CanSave(p)
    ensures AgreeEverywhere(SaveStep(p), q)
  {
    hide ContextGood, GoodStore, Ahead;
  }

  lemma SaveSession(p: Peer, q: Peer, w: seq<Envelope>, v: seq<Envelope>)
    requires PeerGood(p) && SessionGood(p, q, w, v) && CanSave(p) && !p.stopped
    ensures SessionGood(SaveStep(p), q, w, v)
  {
    hide DiskLags, GoodStore, Requests, Base64.Encode, Derive;
    var p' := SaveStep(p);
    if p.phase.Installed? {
      assert p'.sendq == p.sendq + [];
      InitiatorFrame(p, p', q, w, v, v, []);
    } else {
      NotLive(p, q, w, v);
      Quiet(p, p', q, w, v);
    }
  }

  lemma EmitInitiator(p: Peer, q: Peer, w: seq<Envelope>, v: seq<Envelope>, next: nat)
    requires PeerGood(p) && PeerGood(q) && Direction(p, q, w, v) && CanEmit(p)
    requires !p.stopped ==> AllOlder(p, w, next) && AllOlder(q, v, next)
    ensures Direction(EmitStep(p, next, next + 1), q, w, v)
  {
    hide SessionGood, PeerGood, AllOlder, ChallengeEnvelope;
    if !p.stopped {
      if p.phase.Committed? { EmitAnswer(p, q, w, v, next); } else { EmitChallenge(p, q, w, v, next); }
    }
  }

  lemma EmitAnswer(p: Peer, q: Peer, w: seq<Envelope>, v: seq<Envelope>, next: nat)
    requires SessionGood(p, q, w, v) && p.phase.Committed?
    ensures SessionGood(EmitStep(p, next, next + 1), q, w, v)
  {
    hide Base64.Encode;
    InitiatorFrame(p, EmitStep(p, next, next + 1), q, w, v, v, [ToSeal(None, ChangePwdResponse(p.phase.oMId, true))]);
  }

  /** A new challenge: its identifiers occur nowhere else. */
  lemma EmitChallenge(p: Peer, q: Peer, w: seq<Envelope>, v: seq<Envelope>, next: nat)
    requires PeerGood(p) && SessionGood(p, q, w, v) && CanEmit(p) && p.phase.Stored? && !p.stopped
    requires AllOlder(p, w, next) && AllOlder(q, v, next)
    ensures SessionGood(EmitStep(p, next, next + 1), q, w, v)
  {
    hide Base64.Encode, PeerGood, RequestsGood, RepliesGood, PingsGood, AllOlder;
    var p' := EmitStep(p, next, next + 1);
    StoredIsPending(p);
    EmittedOlder(p, w, next);
    NotLive(p, q, w, v);
    NewRequest(p, p', q, w);
    NewReplies(p', q, w, v, next);
  }

  lemma StoredIsPending(p: Peer)
    requires PeerGood(p) && CanEmit(p)
    ensures p.phase.Stored? ==> Pending(p.mem.to, p.phase.login) && !Live(p)
  {}

  lemma EmittedOlder(p: Peer, w: seq<Envelope>, next: nat)
    requires AllOlder(p, w, next)
    ensures forall x :: x in p.inq ==> Older(x.body, next)
  {}

  lemma NewRequest(p: Peer, p': Peer, q: Peer, w: seq<Envelope>)
    requires RequestsGood(p, q, w) && !Live(p) && Live(p') && p'.sendq == p.sendq + [Ready(LiveEnvelope(p'))]
    ensures RequestsGood(p', q, w)
  {
    hide ChallengeEnvelope;
    NotLive(p, q, w, []);
    CountAppend(IsReady, p.sendq, [Ready(LiveEnvelope(p'))]);
  }

  lemma NewReplies(p': Peer, q: Peer, w: seq<Envelope>, v: seq<Envelope>, next: nat)
    requires Live(p') && p'.ctx.value.mIdRequest == next && p'.ctx.value.mIdPing == next + 1
    requires AllOlder(q, v, next) && forall x :: x in p'.inq ==> Older(x.body, next)
    ensures RepliesGood(p', q, w, v) && PingsGood(p', q, w)
  {
    hide Requests, Holds;
    forall body | Older(body, next) ensures ReplyGood(p', q, w, body) {}
  }

  lemma SendInitiator(p: Peer, q: Peer, w: seq<Envelope>, v: seq<Envelope>, login: Option<Login>, payload: Bytes)
    requires Direction(p, q, w, v)
    ensures Direction(Peers.Send(p, login, payload), q, w, v)
  {
    hide SendLogin;
    var p' := Peers.Send(p, login, payload);
    if !p.stopped {
      var extra := if p' == p then [] else [ToSeal(SendLogin(p, login), Application(payload))];
      assert p'.sendq == p.sendq + extra;
      InitiatorFrame(p, p', q, w, v, v, extra);
    }
  }

  /** The switch happens only on a true answer, and leaves every pairing in agreement. */
  lemma SwitchInitiator(p: Peer, p0: Peer, q: Peer, w: seq<Envelope>, v: seq<Envelope>, body: Message, now: int)
    requires PeerGood(p) && PeerGood(q) && Direction(p, q, w, v) && p.phase.Idle? && !p.stopped
    requires p0 == p.(inq := p0.inq) && (forall x :: x in p0.inq ==> x in p.inq)
    requires ReplyGood(p, q, w, body) && p.ctx.Some? && p.ctx.value.running
    requires (body.Pong? && body.oMId == p.ctx.value.mIdPing)
             || (body.ChangePwdResponse? && body.status && body.oMId == p.ctx.value.mIdRequest)
    ensures Direction(SwitchInMemory(p0, now), q, w, v)
  {
    var p' := SwitchInMemory(p0, now);
    assert Live(p) && p'.phase.Switched?;
    Quiet(p, p', q, w, v);
    forall l | l in p'.mem.to && l in p'.disk.to && l in q.mem.from && l in q.disk.from
      ensures Agree(p'.mem.to[l], q.mem.from[l]) && Agree(p'.mem.to[l], q.disk.from[l])
    {
      assert Agree(p.mem.to[l], q.mem.from[l]);
    }
  }

  lemma ProcessInitiator(p: Peer, q: Peer, w: seq<Envelope>, v: seq<Envelope>, now: int)
    requires PeerGood(p) && PeerGood(q) && Direction(p, q, w, v) && p.phase.Idle? && !p.stopped && p.inq != []
    ensures Direction(Peers.Process(p, now), q, w, v)
  {
    hide OnRequest, SwitchInMemory, SessionGood;
    var p0, l, body := p.(inq := p.inq[1..]), p.inq[0].login, p.inq[0].body;
    var p' := Handle(p0, l, body, now);
    assert forall x :: x in p0.inq ==> x in p.inq;
    ReplyAt(p, q, w, v, p.inq[0]);
    match body
    case AllClear => UnchangedInitiator(p, p', q, w, v, []);
    case Application(_) => UnchangedInitiator(p, p', q, w, v, []);
    case Ping(m) => UnchangedInitiator(p, p', q, w, v, [ToSeal(None, Pong(m))]);
    case ChangePwdRequest(m, text) => RequestInitiator(p, p0, q, w, v, l, m, text, now);
    case ChangePwdResponse(o, status) =>
      if p.ctx.None? || !p.ctx.value.running || o != p.ctx.value.mIdRequest {
        UnchangedInitiator(p, p', q, w, v, []);
      } else if status {
        SwitchInitiator(p, p0, q, w, v, body, now);
      } else {
        RefusedInitiator(p, p0, q, w, v, o, now);
      }
    case Pong(o) =>
      if p.ctx.None? || !p.ctx.value.running || o != p.ctx.value.mIdPing {
        UnchangedInitiator(p, p', q, w, v, []);
      } else {
        SwitchInitiator(p, p0, q, w, v, body, now);
      }
  }

  lemma ReplyAt(p: Peer, q: Peer, w: seq<Envelope>, v: seq<Envelope>, x: Incoming)
    requires SessionGood(p, q, w, v) && x in p.inq
    ensures ReplyGood(p, q, w, x.body)
  {}

  /** InitiatorFrame for a step that touches neither credentials nor context. */
  lemma UnchangedInitiator(p: Peer, p': Peer, q: Peer, w: seq<Envelope>, v: seq<Envelope>, extra: seq<Outgoing>)
    requires Direction(p, q, w, v) && !p.stopped
    requires p' == p.(inq := p'.inq, sendq := p'.sendq, allClearRxed := p'.allClearRxed)
    requires p'.sendq == p.sendq + extra && forall o :: o in extra ==> o.ToSeal? && PlainBody(o.body)
    requires forall x :: x in p'.inq ==> x in p.inq
    ensures Direction(p', q, w, v)
  {
    InitiatorFrame(p, p', q, w, v, v, extra);
  }

  lemma RequestInitiator(p: Peer, p0: Peer, q: Peer, w: seq<Envelope>, v: seq<Envelope>,
                         l: Login, m: nat, text: string, now: int)
    requires PeerGood(p) && Direction(p, q, w, v) && p.phase.Idle? && !p.stopped
    requires p0 == p.(inq := p0.inq) && (forall x :: x in p0.inq ==> x in p.inq)
    ensures Direction(OnRequest(p0, l, m, text, now), q, w, v)
  {
    hide Busy, GuardAccepts, Base64.Decode;
    var p' := OnRequest(p0, l, m, text, now);
    var extra := if p'.sendq == p.sendq then [] else [ToSeal(None, ChangePwdResponse(m, false))];
    assert p'.sendq == p.sendq + extra;
    InitiatorFrame(p, p', q, w, v, v, extra);
  }

  lemma RefusedInitiator(p: Peer, p0: Peer, q: Peer, w: seq<Envelope>, v: seq<Envelope>, o: nat, now: int)
    requires PeerGood(p) && Direction(p, q, w, v) && p.phase.Idle? && !p.stopped
    requires p0 == p.(inq := p0.inq) && (forall x :: x in p0.inq ==> x in p.inq)
    requires p.ctx.Some? && p.ctx.value.running && o == p.ctx.value.mIdRequest
    requires ReplyGood(p, q, w, ChangePwdResponse(o, false))
    ensures Direction(OnResponse(p0, o, false, now), q, w, v)
  {
    assert Live(p);
    Quiet(p, OnResponse(p0, o, false, now), q, w, v);
  }

  // ------------------------------------------------------------ the two other threads

  lemma {:induction false} InternalBodies(login: Login, list: seq<Message>)
    ensures forall x :: x in Internal(login, list) ==> x.login == login && x.body in list
  {
    if list != [] { InternalBodies(login, list[1..]); }
  }

  lemma {:induction false} OpenedBodies(data: seq<Sealed>, key: Key)
    ensures forall m :: m in Opened(data, key) ==> exists d :: d in data && d.key == key && d.body == m
  {
    if data != [] {
      OpenedBodies(data[1..], key);
      forall m | m in Opened(data, key) ensures exists d :: d in data && d.key == key && d.body == m {
        if m in Opened(data[1..], key) {
          var d :| d in data[1..] && d.key == key && d.body == m;
          assert d in data;
        } else {
          assert data[0] in data;
        }
      }
    }
  }

  /** What a peer takes from an envelope is among its bodies. */
  lemma Taken(p: Peer, e: Envelope, late: bool)
    ensures forall x :: x in Peers.Receive(p, e, late).inq ==> x in p.inq || exists d :: d in e.data && d.body == x.body
  {
    if e.login in p.mem.from {
      var list := Opened(e.data, OpenKey(p, e.login, late));
      OpenedBodies(e.data, OpenKey(p, e.login, late));
      InternalBodies(e.login, list);
    }
  }

  lemma ReceiveInitiator(p: Peer, q: Peer, w: seq<Envelope>, v: seq<Envelope>, late: bool)
    requires Direction(p, q, w, v) && !p.stopped && v != []
    ensures Direction(Peers.Receive(p, v[0], late), q, w, v[1..])
  {
    var p' := Peers.Receive(p, v[0], late);
    Taken(p, v[0], late);
    forall x | x in p'.inq ensures ReplyGood(p, q, w, x.body) {
      if x !in p.inq {
        var d :| d in v[0].data && d.body == x.body;
        assert v[0] in v;
      }
    }
    assert p'.sendq == p.sendq + [];
    InitiatorFrame(p, p', q, w, v, v[1..], []);
  }

  lemma TransmitInitiator(p: Peer, q: Peer, w: seq<Envelope>, v: seq<Envelope>, late: bool)
    requires Direction(p, q, w, v) && !p.stopped && p.sendq != []
    ensures Direction(p.(sendq := p.sendq[1..]), q, WithSent(w, Sent(p, p.sendq[0], late)), v)
  {
    hide ChallengeEnvelope, SealKey;
    var o, p' := p.sendq[0], p.(sendq := p.sendq[1..]);
    var w' := WithSent(w, Sent(p, o, late));
    assert o in p.sendq && p.sendq == [o] + p'.sendq;
    if Sent(p, o, late).Some? {
      CountAppend(IsChallenge, w, [Sent(p, o, late).value]);
      assert IsChallenge(Sent(p, o, late).value) <==> IsReady(o) by {
        if o.Ready? { LiveIsChallenge(p); }
      }
    }
    assert Requests(p', q, w') == Requests(p, q, w);
    SentMoves(p, p', q, w, w', v);
  }

  lemma LiveIsChallenge(p: Peer)
    requires Live(p)
    ensures IsChallenge(LiveEnvelope(p)) && !PlainEnvelope(LiveEnvelope(p))
  {}

  /** Moving a message from the queue to the wire keeps the session invariant. */
  lemma SentMoves(p: Peer, p': Peer, q: Peer, w: seq<Envelope>, w': seq<Envelope>, v: seq<Envelope>)
    requires SessionGood(p, q, w, v) && Requests(p', q, w') == Requests(p, q, w)
    requires p' == p.(sendq := p'.sendq) && (forall o :: o in p'.sendq ==> o in p.sendq)
    requires forall e :: e in w' ==> e in w || PlainEnvelope(e) || (Live(p) && e == LiveEnvelope(p))
    ensures SessionGood(p', q, w', v)
  {
    forall body | ReplyGood(p, q, w, body) ensures ReplyGood(p', q, w', body) {}
    forall k | 0 <= k < |q.inq| ensures PingGood(p', q, w', k) { assert PingGood(p, q, w, k); }
  }

  // ------------------------------------------------- a step of the answering side

  /** Frame: q keeps its FROM passwords (or saves them) and the messages it has opened, and adds only
      true answers. */
  lemma ResponderFrame(p: Peer, q: Peer, q': Peer, w: seq<Envelope>, v: seq<Envelope>, v': seq<Envelope>)
    requires SessionGood(p, q, w, v)
    requires q'.inq == q.inq && q'.mem.from == q.mem.from
    requires q'.disk.from == q.disk.from || q'.disk.from == q.mem.from
    requires forall o :: o in q'.sendq && o.ToSeal? ==> ReplyGood(p, q, w, o.body)
    requires forall e, d :: e in v' && d in e.data ==> ReplyGood(p, q, w, d.body)
    requires q'.phase.Installed? ==> q'.phase == q.phase
    requires q'.phase.Committed? ==>
               q'.phase == q.phase || (q.phase == Installed(q'.phase.oMId) && q'.disk.from == q.mem.from)
    ensures SessionGood(p, q', w, v')
  {
    forall body | ReplyGood(p, q, w, body) ensures ReplyGood(p, q', w, body) {}
    forall k | 0 <= k < |q.inq| ensures PingGood(p, q', w, k) { assert PingGood(p, q, w, k); }
  }

  lemma BeginResponder(p: Peer, q: Peer, w: seq<Envelope>, v: seq<Envelope>, now: int, candidate: Bytes)
    requires Direction(p, q, w, v)
    requires q.phase.Idle?
    ensures Direction(p, Begin(q, now, candidate), w, v)
  {
    hide DueLogin;
    if !p.stopped { ResponderFrame(p, q, Begin(q, now, candidate), w, v, v); }
  }

  lemma SaveResponder(p: Peer, q: Peer, w: seq<Envelope>, v: seq<Envelope>)
    requires PeerGood(q) && Direction(p, q, w, v) && CanSave(q)
    ensures Direction(p, SaveStep(q), w, v)
  {
    hide AgreeEverywhere, PeerGood;
    SaveAgrees(p, q);
    if !p.stopped { ResponderFrame(p, q, SaveStep(q), w, v, v); }
  }

  lemma SaveAgrees(p: Peer, q: Peer)
    requires PeerGood(q) && AgreeEverywhere(p, q) && CanSave(q)
    ensures AgreeEverywhere(p, SaveStep(q))
  {
    hide SaveStep, PeerGood;
    Saves(q);
  }

  lemma Saves(q: Peer)
    requires PeerGood(q) && CanSave(q)
    ensures SaveStep(q).mem == SaveStep(q).disk == q.mem && q.disk.from.Keys == q.mem.from.Keys
  {
    hide DiskLags, ContextGood, GoodStore;
  }

  lemma EmitResponder(p: Peer, q: Peer, w: seq<Envelope>, v: seq<Envelope>, m1: nat, m2: nat)
    requires Direction(p, q, w, v) && CanEmit(q)
    ensures Direction(p, EmitStep(q, m1, m2), w, v)
  {
    hide ChallengeEnvelope;
    if !p.stopped {
      assert q.phase.Committed? && !Live(p) ==> ReplyGood(p, q, w, ChangePwdResponse(q.phase.oMId, true));
      ResponderFrame(p, q, EmitStep(q, m1, m2), w, v, v);
    }
  }

  lemma SendResponder(p: Peer, q: Peer, w: seq<Envelope>, v: seq<Envelope>, login: Option<Login>, payload: Bytes)
    requires Direction(p, q, w, v)
    ensures Direction(p, Peers.Send(q, login, payload), w, v)
  {
    hide SendLogin;
    if !p.stopped { ResponderFrame(p, q, Peers.Send(q, login, payload), w, v, v); }
  }

  lemma TransmitResponder(p: Peer, q: Peer, w: seq<Envelope>, v: seq<Envelope>, late: bool)
    requires Direction(p, q, w, v) && RequestsGood(q, p, v) && q.sendq != []
    ensures Direction(p, q.(sendq := q.sendq[1..]), w, WithSent(v, Sent(q, q.sendq[0], late)))
  {
    hide SealKey;
    var o, q' := q.sendq[0], q.(sendq := q.sendq[1..]);
    var v' := WithSent(v, Sent(q, o, late));
    assert o in q.sendq;
    if !p.stopped {
      forall e, d | e in v' && d in e.data ensures ReplyGood(p, q, w, d.body) {
        if e !in v {
          assert e == Sent(q, o, late).value;
        }
      }
      ResponderFrame(p, q, q', w, v, v');
    }
  }

  /** Taking the first opened message off q's queue. */
  lemma PopResponder(p: Peer, q: Peer, q': Peer, w: seq<Envelope>, v: seq<Envelope>)
    requires SessionGood(p, q, w, v) && q.inq != [] && q' == q.(inq := q.inq[1..])
    ensures SessionGood(p, q', w, v)
    ensures Requests(p, q', w) == Requests(p, q, w) - (if IsRequest(q.inq[0]) then 1 else 0)
  {
    forall body | ReplyGood(p, q, w, body) ensures ReplyGood(p, q', w, body) {}
    forall k | 0 <= k < |q'.inq| ensures PingGood(p, q', w, k) {
      assert PingGood(p, q, w, k + 1);
      assert q'.inq[k..] == q.inq[k + 1..];
    }
  }

  lemma ProcessResponder(p: Peer, q: Peer, w: seq<Envelope>, v: seq<Envelope>, now: int)
    requires PeerGood(p) && PeerGood(q) && Direction(p, q, w, v)
    requires q.phase.Idle? && q.inq != [] && !p.stopped
    ensures Direction(p, Peers.Process(q, now), w, v)
  {
    hide OnRequest, SessionGood, RequestsGood, RepliesGood, PingsGood;
    var x, q0 := q.inq[0], q.(inq := q.inq[1..]);
    PopResponder(p, q, q0, w, v);
    match x.body
    case ChangePwdRequest(m, text) => RequestResponder(p, q, q0, w, v, now);
    case Ping(m) =>
      PongIsTrue(p, q, q0, w, v, m);
      AddReply(p, q0, Peers.Process(q, now), w, v, Pong(m));
    case _ => OtherResponder(p, q0, Handle(q0, x.login, x.body, now), w, v);
  }

  lemma AddReply(p: Peer, q0: Peer, q': Peer, w: seq<Envelope>, v: seq<Envelope>, body: Message)
    requires Direction(p, q0, w, v) && !p.stopped && ReplyGood(p, q0, w, body)
    requires q' == q0.(sendq := q0.sendq + [ToSeal(None, body)])
    ensures Direction(p, q', w, v)
  {
    ResponderFrame(p, q0, q', w, v, v);
  }

  lemma OtherResponder(p: Peer, q0: Peer, q': Peer, w: seq<Envelope>, v: seq<Envelope>)
    requires Direction(p, q0, w, v) && !p.stopped && q0.phase.Idle?
    requires q'.inq == q0.inq && q'.sendq == q0.sendq && q'.mem.from == q0.mem.from && q'.disk == q0.disk
    requires q'.phase.Idle? || q'.phase.Switched?
    ensures Direction(p, q', w, v)
  {
    ResponderFrame(p, q0, q', w, v, v);
  }

  /** The answer to an opened ping is true. */
  lemma PongIsTrue(p: Peer, q: Peer, q0: Peer, w: seq<Envelope>, v: seq<Envelope>, m: nat)
    requires PeerGood(q) && SessionGood(p, q, w, v) && q.phase.Idle?
    requires q.inq != [] && q.inq[0].body == Ping(m) && q0 == q.(inq := q.inq[1..])
    ensures ReplyGood(p, q0, w, Pong(m))
  {
    assert PingGood(p, q, w, 0);
    assert q.inq[0..] == q.inq;
  }

  /** The request of the live challenge: refused, or the candidate is installed in memory. */
  lemma RequestResponder(p: Peer, q: Peer, q0: Peer, w: seq<Envelope>, v: seq<Envelope>, now: int)
    requires PeerGood(p) && PeerGood(q) && Direction(p, q, w, v)
    requires q.phase.Idle? && q.inq != [] && !p.stopped && q.inq[0].body.ChangePwdRequest?
    requires q0 == q.(inq := q.inq[1..]) && SessionGood(p, q0, w, v)
    requires Requests(p, q0, w) == Requests(p, q, w) - 1
    ensures Direction(p, OnRequest(q0, q.inq[0].login, q.inq[0].body.mId, q.inq[0].body.pwd, now), w, v)
  {
    hide Base64.Encode, Base64.Decode, Busy, GuardAccepts;
    var x := q.inq[0];
    var q' := OnRequest(q0, x.login, x.body.mId, x.body.pwd, now);
    assert x in q.inq && OpenedRequestGood(p, x);
    assert Requests(p, q0, w) == 0;
    RequestText(Candidate(p));
    if q'.phase.Idle? {
      if q' != q0 { AddReply(p, q0, q', w, v, ChangePwdResponse(x.body.mId, false)); }
    } else {
      InstallResponder(p, q0, q', w, v);
    }
  }

  /** The text of a candidate passes the guard and decodes to the candidate. */
  lemma RequestText(pwd: Bytes)
    requires GoodLength(pwd)
    ensures GuardAccepts(Base64.Encode(pwd)) && Base64.Decode(Base64.Encode(pwd)) == Some(pwd)
  {
    hide Base64.Encode, Base64.Decode;
    Base64.RoundTrip(pwd);
    Accepts(Base64.Encode(pwd), pwd);
  }

  lemma Accepts(text: string, pwd: Bytes)
    requires Base64.Decode(text) == Some(pwd) && GoodLength(pwd)
    ensures GuardAccepts(text)
  {
    hide Base64.EstimatedLength, Base64.DecodeGroups, Base64.DecodedLength;
    Base64.GuardMatchesDecoder(text);
  }

  lemma InstallResponder(p: Peer, q0: Peer, q': Peer, w: seq<Envelope>, v: seq<Envelope>)
    requires PeerGood(p) && PeerGood(q0) && Direction(p, q0, w, v) && Live(p) && Requests(p, q0, w) == 0
    requires LiveLogin(p) in q0.mem.from
    requires exists now ::
      q'.mem.from == q0.mem.from[LiveLogin(p) := WithPassword(q0.mem.from[LiveLogin(p)], Candidate(p), now)]
    requires q'.inq == q0.inq && q'.sendq == q0.sendq && q'.disk == q0.disk && q'.phase.Installed?
    ensures Direction(p, q', w, v)
  {
    assert Holds(p, q'.mem.from);
    forall body | ReplyGood(p, q0, w, body) ensures ReplyGood(p, q', w, body) {}
    forall k | 0 <= k < |q'.inq| ensures PingGood(p, q', w, k) { assert PingGood(p, q0, w, k); }
  }

  /** What is opened of a plain envelope: its one body, or nothing. */
  lemma OpenPlain(e: Envelope, key: Key)
    requires PlainEnvelope(e)
    ensures forall x :: x in Internal(e.login, Opened(e.data, key)) ==> PlainBody(x.body)
  {
    OpenedOne(e.data, key);
    InternalBodies(e.login, Opened(e.data, key));
  }

  lemma OpenedOne(data: seq<Sealed>, key: Key)
    requires |data| == 1
    ensures Opened(data, key) == if data[0].key == key then [data[0].body] else []
  {
    assert data[1..] == [];
  }

  lemma OpenedTwo(data: seq<Sealed>, key: Key)
    requires |data| == 2
    ensures Opened(data, key) == (if data[0].key == key then [data[0].body] else [])
                               + (if data[1].key == key then [data[1].body] else [])
  {
    OpenedOne(data[1..], key);
  }

  lemma {:induction false} InternalOf(login: Login, list: seq<Message>)
    requires forall m :: m in list ==> !m.Application?
    ensures |Internal(login, list)| == |list|
    ensures forall i :: 0 <= i < |list| ==> Internal(login, list)[i] == Incoming(login, list[i])
  {
    if list != [] { InternalOf(login, list[1..]); }
  }

  /** Which elements of a challenge q opens: the request under the current password, the ping under
      the candidate; both when the two are equal. */
  function OpenedChallenge(p: Peer, held: Bytes): seq<Message>
    requires Live(p)
  {
    var a := p.mem.to[LiveLogin(p)];
    (if held == a.pwd then [ChangePwdRequest(p.ctx.value.mIdRequest, Base64.Encode(a.newPwd))] else [])
    + (if held == a.newPwd then [Ping(p.ctx.value.mIdPing)] else [])
  }

  predicate Matched(p: Peer, q: Peer) {
    p.cipher == q.cipher && p.me == q.remote && q.me == p.remote
  }

  /** The password q opens p's challenge with. */
  function HeldFor(p: Peer, q: Peer, late: bool): Bytes
    requires Live(p) && LiveLogin(p) in q.mem.from
  {
    Held(q.mem.from, q.disk.from, LiveLogin(p), late)
  }

  lemma ChallengeOpens(p: Peer, q: Peer, late: bool)
    requires Live(p) && Matched(p, q) && LiveLogin(p) in q.mem.from
    ensures Opened(LiveEnvelope(p).data, OpenKey(q, LiveLogin(p), late)) == OpenedChallenge(p, HeldFor(p, q, late))
  {
    hide Base64.Encode;
    var l, e := LiveLogin(p), LiveEnvelope(p);
    var held := HeldFor(p, q, late);
    OpenedTwo(e.data, OpenKey(q, l, late));
    KeysAgree(p.cipher, p.me, q.me, l, p.mem.to[l].pwd, held);
    KeysAgree(p.cipher, p.me, q.me, l, p.mem.to[l].newPwd, held);
  }

  /** Adding opened messages at the end of q's queue while the wire gives up its first envelope. */
  lemma GrowResponder(p: Peer, q: Peer, q': Peer, w: seq<Envelope>, w': seq<Envelope>, v: seq<Envelope>,
                      more: seq<Incoming>)
    requires SessionGood(p, q, w, v) && w != [] && w' == w[1..]
    requires q' == q.(inq := q.inq + more, extq := q'.extq)
    requires Count(IsRequest, more) <= (if IsChallenge(w[0]) then 1 else 0)
    requires forall x :: x in more ==> OpenedRequestGood(p, x)
    requires forall i :: 0 <= i < |more| && more[i].body.Ping? ==> NewPing(p, q, w', more, i)
    ensures SessionGood(p, q', w', v)
  {
    hide SessionGood, RequestsGood, RepliesGood, PingsGood, Requests, Count, OpenedRequestGood, NewPing;
    Parts(p, q, w, v);
    GrowRequests(p, q, q', w, w', more);
    GrowReplies(p, q, q', w, w', v);
    GrowPings(p, q, q', w, w', more);
    Parts(p, q', w', v);
  }

  lemma Parts(p: Peer, q: Peer, w: seq<Envelope>, v: seq<Envelope>)
    ensures SessionGood(p, q, w, v) <==> RequestsGood(p, q, w) && RepliesGood(p, q, w, v) && PingsGood(p, q, w)
  {
    hide RequestsGood, RepliesGood, PingsGood;
  }

  lemma GrowRequests(p: Peer, q: Peer, q': Peer, w: seq<Envelope>, w': seq<Envelope>, more: seq<Incoming>)
    requires RequestsGood(p, q, w) && w != [] && w' == w[1..]
    requires q' == q.(inq := q.inq + more, extq := q'.extq)
    requires Count(IsRequest, more) <= (if IsChallenge(w[0]) then 1 else 0)
    requires forall x :: x in more ==> OpenedRequestGood(p, x)
    ensures RequestsGood(p, q', w') && Requests(p, q', w') <= Requests(p, q, w)
  {
    hide OpenedRequestGood, LiveEnvelope;
    CountAppend(IsRequest, q.inq, more);
    assert w == [w[0]] + w';
  }

  lemma GrowReplies(p: Peer, q: Peer, q': Peer, w: seq<Envelope>, w': seq<Envelope>, v: seq<Envelope>)
    requires RepliesGood(p, q, w, v) && Requests(p, q', w') <= Requests(p, q, w)
    requires q' == q.(inq := q'.inq, extq := q'.extq)
    ensures RepliesGood(p, q', w', v)
  {
    hide Requests, Holds;
    forall body | ReplyGood(p, q, w, body) ensures ReplyGood(p, q', w', body) {}
  }

  lemma GrowPings(p: Peer, q: Peer, q': Peer, w: seq<Envelope>, w': seq<Envelope>, more: seq<Incoming>)
    requires PingsGood(p, q, w) && w != [] && w' == w[1..]
    requires q' == q.(inq := q.inq + more, extq := q'.extq)
    requires Count(IsRequest, more) <= (if IsChallenge(w[0]) then 1 else 0)
    requires forall i :: 0 <= i < |more| && more[i].body.Ping? ==> NewPing(p, q, w', more, i)
    ensures PingsGood(p, q', w')
  {
    hide Holds;
    forall k | 0 <= k < |q'.inq| ensures PingGood(p, q', w', k) {
      if k < |q.inq| {
        assert PingGood(p, q, w, k);
        assert q'.inq[k..] == q.inq[k..] + more;
        CountAppend(IsRequest, q.inq[k..], more);
      } else {
        assert q'.inq[k..] == more[k - |q.inq|..];
      }
    }
  }

  predicate NewPing(p: Peer, q: Peer, w': seq<Envelope>, more: seq<Incoming>, i: nat)
    requires i <= |more|
  {
    Live(p) ==> Holds(p, q.mem.from) && Count(IsRequest, more[i..]) == 0
                && Count(IsChallenge, w') == 0 && Count(IsReady, p.sendq) == 0
  }

  lemma ReceiveResponder(p: Peer, q: Peer, w: seq<Envelope>, v: seq<Envelope>, late: bool)
    requires Direction(p, q, w, v) && Matched(p, q) && !p.stopped && w != []
    requires p.mem.to.Keys == p.disk.to.Keys && q.mem.from.Keys == q.disk.from.Keys
    ensures Direction(p, Peers.Receive(q, w[0], late), w[1..], v)
  {
    hide SessionGood, Count;
    var e, q' := w[0], Peers.Receive(q, w[0], late);
    var more := if e.login in q.mem.from then Internal(e.login, Opened(e.data, OpenKey(q, e.login, late))) else [];
    assert q'.inq == q.inq + more;
    HeadEnvelope(p, q, w, v);
    if PlainEnvelope(e) {
      if more != [] { OpenPlain(e, OpenKey(q, e.login, late)); }
      CountZero(IsRequest, more);
      GrowResponder(p, q, q', w, w[1..], v, more);
    } else if e.login !in q.mem.from {
      CountZero(IsRequest, more);
      GrowResponder(p, q, q', w, w[1..], v, more);
    } else {
      ReceiveChallenge(p, q, q', w, v, late);
    }
  }

  lemma HeadEnvelope(p: Peer, q: Peer, w: seq<Envelope>, v: seq<Envelope>)
    requires SessionGood(p, q, w, v) && w != []
    ensures PlainEnvelope(w[0]) || (Live(p) && w[0] == LiveEnvelope(p))
  {
    assert w[0] in w;
  }

  lemma ReceiveChallenge(p: Peer, q: Peer, q': Peer, w: seq<Envelope>, v: seq<Envelope>, late: bool)
    requires Direction(p, q, w, v) && Matched(p, q) && !p.stopped && w != [] && q.mem.from.Keys == q.disk.from.Keys
    requires Live(p) && w[0] == LiveEnvelope(p) && LiveLogin(p) in q.mem.from && q' == Peers.Receive(q, w[0], late)
    requires LiveLogin(p) in p.disk.to
    ensures Direction(p, q', w[1..], v)
  {
    hide Base64.Encode, OpenKey, ChallengeEnvelope;
    var l := LiveLogin(p);
    var list := OpenedChallenge(p, HeldFor(p, q, late));
    ChallengeOpens(p, q, late);
    LiveLoginOf(p);
    var more := Internal(l, list);
    InternalOf(l, list);
    assert q'.inq == q.inq + more;
    LiveIsChallenge(p);
    assert Count(IsChallenge, w[1..]) == 0 && Count(IsReady, p.sendq) == 0;
    assert Count(IsRequest, more) <= 1 by { CountTwo(more); }
    forall i | 0 <= i < |more| && more[i].body.Ping? ensures NewPing(p, q, w[1..], more, i) {
      assert i == |more| - 1;
      CountZero(IsRequest, more[i..]);
      assert more[i..] == [more[i]];
    }
    GrowResponder(p, q, q', w, w[1..], v, more);
  }

  lemma LiveLoginOf(p: Peer)
    requires Live(p)
    ensures LiveEnvelope(p).login == LiveLogin(p)
  {}

  lemma CountTwo(s: seq<Incoming>)
    requires |s| <= 2 && (|s| == 2 ==> !IsRequest(s[1]))
    ensures Count(IsRequest, s) <= 1
  {
    if |s| == 2 { assert s[1..] == [s[1]]; }
    if |s| >= 1 { CountZero(IsRequest, s[1..]); }
  }
}
