/** One peer of a session as a value: its credentials, its challenge context, its queues and
    the point its internal thread has reached. The functions are the indivisible actions of the
    three threads of src/cyber/cyber.c; an event of the internal thread is cut where it writes
    auth.db and where it hands a message to the send queue, so that a restart can fall between. */
module Peers {
  import opened Basics
  import opened Wire
  import opened Credentials
  import Base64

  /** ChallengeContext_t, without its pad and its time of sending. */
  datatype Context = Context(auth: Option<Login>, toSend: bool, running: bool, timer: bool,
                             mIdRequest: nat, mIdPing: nat)

  const NEW_CONTEXT := Context(None, false, false, false, 0, 0)

  datatype Outgoing = Ready(envelope: Envelope) | ToSeal(login: Option<Login>, body: Message)

  datatype Incoming = Incoming(login: Login, body: Message)

  /** Where the internal thread is: between events, with a candidate in memory only, with the
      candidate saved, with a received password in memory only, with it saved, or with a switched
      password in memory only. */
  datatype Phase =
    | Idle
    | Generated(login: Login)
    | Stored(login: Login)
    | Installed(oMId: nat)
    | Committed(oMId: nat)
    | Switched

  datatype Peer = Peer(
    me: SiteId, remote: SiteId, cipher: string,
    mem: Store, disk: Store,
    ctx: Option<Context>, allClearSent: bool, allClearRxed: bool, stopped: bool,
    sendq: seq<Outgoing>, inq: seq<Incoming>, extq: seq<Bytes>,
    phase: Phase)

  // ------------------------------------------------------------------------ keys

  function SealKey(p: Peer, login: Login, pwd: Bytes): Key {
    Derive(p.cipher, Encrypt, p.me, login, p.remote, pwd)
  }

  /** The password the key of an entry is made from. From a change of the password until its key is purged from the
      cache, the send and receive threads may still use the key of the password before, the one in the file: they
      are late. The file is written just before the purge, in the same step. */
  function Held(mem: map<Login, Auth>, disk: map<Login, Auth>, login: Login, late: bool): Bytes
    requires login in mem
  {
    if late && login in disk then disk[login].pwd else mem[login].pwd
  }

  function OpenKey(p: Peer, login: Login, late: bool): Key
    requires login in p.mem.from
  {
    Derive(p.cipher, Decrypt, p.me, login, p.remote, Held(p.mem.from, p.disk.from, login, late))
  }

  // -------------------------------------------------------------- choice of login

  /** auth_get_first takes the newest login of the site. */
  function FirstLogin(order: seq<Login>): Option<Login> {
    if order == [] then None else Some(order[|order| - 1])
  }

  /** auth_get_next_from_auth applied to that login: the oldest one, unless there is no other. */
  function NextLogin(order: seq<Login>): Option<Login> {
    if |order| <= 1 then None else Some(order[0])
  }

  predicate Active(ctx: Option<Context>) {
    ctx.Some? && (ctx.value.toSend || ctx.value.running)
  }

  predicate Pending(to: map<Login, Auth>, l: Login) {
    l in to && to[l].pending
  }

  /** The refusal of a ChangePwdRequest while an own challenge runs and neither of the first two
      logins is free for the answer. */
  predicate Busy(p: Peer) {
    && Active(p.ctx)
    && match FirstLogin(p.mem.order)
       case None => true
       case Some(l) =>
         && Pending(p.mem.to, l)
         && (NextLogin(p.mem.order).None? || Pending(p.mem.to, NextLogin(p.mem.order).value))
  }

  /** Three quarters of the 135 seconds a password is valid. */
  const TRIGGER_SECONDS := 101

  predicate Due(a: Auth, now: int) {
    a.pending || now - a.stamp > TRIGGER_SECONDS
  }

  /** searchLoginForChallenge over the TO logins: the first one that is due. */
  function DueLogin(order: seq<Login>, to: map<Login, Auth>, now: int): (r: Option<Login>)
    ensures r.Some? ==> r.value in order && r.value in to && Due(to[r.value], now)
    ensures r.None? ==> forall l :: l in order && l in to ==> !Due(to[l], now)
    ensures r.Some? ==> to[r.value].pending || 4 * (now - to[r.value].stamp) > 3 * 135
    ensures r.None? ==> forall l :: l in order && l in to ==> !to[l].pending && 4 * (now - to[l].stamp) <= 3 * 135
  {
    if order == [] then None
    else if order[0] in to && Due(to[order[0]], now) then Some(order[0])
    else DueLogin(order[1..], to, now)
  }

  // ------------------------------------------------------- the internal thread

  /** The context a fruitless scan leaves: the callback frees a finished one. */
  function ScannedContext(p: Peer): Option<Context> {
    if p.ctx.Some? && p.ctx.value.auth.Some? && p.mem.order != [] then None else p.ctx
  }

  /** The start of initiateChallenge: scan, then either prepare a challenge with a candidate in
      memory, or announce AllClear once. */
  function Begin(p: Peer, now: int, candidate: Bytes): Peer {
    if Active(p.ctx) then p
    else match DueLogin(p.mem.order, p.mem.to, now)
         case Some(l) =>
           p.(mem := p.mem.(to := p.mem.to[l := WithCandidate(p.mem.to[l], candidate)]),
              ctx := Some(NEW_CONTEXT.(auth := Some(l), toSend := true)),
              phase := Generated(l))
         case None =>
           var q := p.(ctx := ScannedContext(p));
           if q.allClearSent then q
           else q.(allClearSent := true, sendq := q.sendq + [ToSeal(None, AllClear)])
  }

  /** The two elements of Challenge_encode: the request under the current key and the ping under
      the candidate's. */
  function ChallengeEnvelope(p: Peer, l: Login, a: Auth, mIdRequest: nat, mIdPing: nat): Envelope {
    Envelope(l, [Sealed(SealKey(p, l, a.pwd), ChangePwdRequest(mIdRequest, Base64.Encode(a.newPwd))),
                 Sealed(SealKey(p, l, a.newPwd), Ping(mIdPing))])
  }

  predicate CanSave(p: Peer) {
    p.phase.Generated? || p.phase.Installed? || p.phase.Switched?
  }

  /** Writing auth.db, at the three places where an event does it. */
  function SaveStep(p: Peer): Peer
    requires CanSave(p)
  {
    var q := p.(disk := p.mem);
    match p.phase
    case Generated(l) => q.(phase := Stored(l))
    case Installed(m) => q.(phase := Committed(m))
    case _ => q.(phase := Idle,
                 ctx := if p.ctx.Some? then Some(p.ctx.value.(running := false)) else None)
  }

  predicate CanEmit(p: Peer) {
    (p.phase.Stored? && p.phase.login in p.mem.to) || p.phase.Committed?
  }

  /** Handing over the challenge, or the positive answer to one. */
  function EmitStep(p: Peer, mIdRequest: nat, mIdPing: nat): Peer
    requires CanEmit(p)
  {
    match p.phase
    case Stored(l) =>
      p.(sendq := p.sendq + [Ready(ChallengeEnvelope(p, l, p.mem.to[l], mIdRequest, mIdPing))],
         ctx := Some(Context(Some(l), false, true, true, mIdRequest, mIdPing)),
         phase := Idle)
    case Committed(m) =>
      p.(sendq := p.sendq + [ToSeal(None, ChangePwdResponse(m, true))], phase := Idle)
  }

  /** messageCheckFields on the password of a request. */
  predicate GuardAccepts(text: string) {
    text != [] && (|text| >= 2 ==> Base64.EstimatedLength(text) < Base64.PWD_LEN_MAX)
  }

  function OnRequest(p: Peer, l: Login, m: nat, text: string, now: int): Peer {
    if !GuardAccepts(text) then p
    else if Busy(p) || Base64.Decode(text).None? || l !in p.mem.from then
      p.(sendq := p.sendq + [ToSeal(None, ChangePwdResponse(m, false))])
    else
      var a := WithPassword(p.mem.from[l], Base64.Decode(text).value, now);
      p.(mem := p.mem.(from := p.mem.from[l := a]), phase := Installed(m))
  }

  /** A request changes a FROM password or is refused, and nothing else. */
  lemma RequestEffect(p: Peer, l: Login, m: nat, text: string, now: int)
    ensures var p' := OnRequest(p, l, m, text, now);
            && p' == p.(mem := p.mem.(from := p'.mem.from), sendq := p'.sendq, phase := p'.phase)
            && p'.mem.from.Keys == p.mem.from.Keys
            && (p'.sendq == p.sendq || p'.sendq == p.sendq + [ToSeal(None, ChangePwdResponse(m, false))])
            && (p'.phase == p.phase || p'.phase == Installed(m))
  {
    hide Busy, GuardAccepts, Base64.Decode;
  }

  /** Stop the timer and make the candidate current; without a candidate the switch fails and
      the challenge is left running. */
  function SwitchInMemory(p: Peer, now: int): Peer
    requires p.ctx.Some?
  {
    var q := p.(ctx := Some(p.ctx.value.(timer := false)));
    if p.ctx.value.auth.Some? && Pending(p.mem.to, p.ctx.value.auth.value) then
      var l := p.ctx.value.auth.value;
      q.(mem := p.mem.(to := p.mem.to[l := AfterSwitch(p.mem.to[l], now)]), phase := Switched)
    else q
  }

  function OnResponse(p: Peer, oMId: nat, status: bool, now: int): Peer {
    if p.ctx.None? || !p.ctx.value.running || oMId != p.ctx.value.mIdRequest then p
    else if status then SwitchInMemory(p, now)
    else p.(ctx := Some(p.ctx.value.(timer := false, running := false)))
  }

  function OnPong(p: Peer, oMId: nat, now: int): Peer {
    if p.ctx.None? || !p.ctx.value.running || oMId != p.ctx.value.mIdPing then p
    else SwitchInMemory(p, now)
  }

  /** cyber_process_internal_msg up to the first write of auth.db. */
  function Handle(p: Peer, l: Login, body: Message, now: int): Peer {
    match body
    case AllClear => p.(allClearRxed := true)
    case ChangePwdRequest(m, text) => OnRequest(p, l, m, text, now)
    case ChangePwdResponse(o, status) => OnResponse(p, o, status, now)
    case Ping(m) => p.(sendq := p.sendq + [ToSeal(None, Pong(m))])
    case Pong(o) => OnPong(p, o, now)
    case Application(_) => p
  }

  function Process(p: Peer, now: int): Peer
    requires p.inq != []
  {
    Handle(p.(inq := p.inq[1..]), p.inq[0].login, p.inq[0].body, now)
  }

  // --------------------------------------------------- the send and receive threads

  /** The send thread seals with the password that is current when it takes the message, unless it is late; a
      message without a login goes under the first one. */
  function Sent(p: Peer, o: Outgoing, late: bool): Option<Envelope> {
    match o
    case Ready(e) => Some(e)
    case ToSeal(login, body) =>
      var l := if login.Some? then login else FirstLogin(p.mem.order);
      if l.Some? && l.value in p.mem.to then
        Some(Envelope(l.value, [Sealed(SealKey(p, l.value, Held(p.mem.to, p.disk.to, l.value, late)), body)]))
      else None
  }

  function Internal(login: Login, list: seq<Message>): seq<Incoming> {
    if list == [] then []
    else (if list[0].Application? then [] else [Incoming(login, list[0])]) + Internal(login, list[1..])
  }

  function External(list: seq<Message>): seq<Bytes> {
    if list == [] then []
    else (if list[0].Application? then [list[0].payload] else []) + External(list[1..])
  }

  /** Opened messages are sorted one by one: a payload goes to the application, any other to the internal thread, each
      behind those before it. */
  lemma {:induction false} SortedInOrder(login: Login, a: seq<Message>, m: Message)
    ensures Internal(login, a + [m]) == Internal(login, a) + if m.Application? then [] else [Incoming(login, m)]
    ensures External(a + [m]) == External(a) + if m.Application? then [m.payload] else []
  {
    if a == [] {
      assert a + [m] == [m] && [m][1..] == [];
    } else {
      assert (a + [m])[0] == a[0] && (a + [m])[1..] == a[1..] + [m];
      SortedInOrder(login, a[1..], m);
    }
  }

  function Receive(p: Peer, e: Envelope, late: bool): Peer {
    if e.login !in p.mem.from then p
    else
      var list := Opened(e.data, OpenKey(p, e.login, late));
      p.(inq := p.inq + Internal(e.login, list), extq := p.extq + External(list))
  }

  // ------------------------------------------------------------- the application

  /** The login _send uses. With a login given, the code tests the pending flag of the first login of
      the site, not of the one it was given. */
  function SendLogin(p: Peer, login: Option<Login>): Option<Login> {
    var first := FirstLogin(p.mem.order);
    if first.None? then None
    else if login.Some? then
      if login.value in p.mem.to && !Pending(p.mem.to, first.value) then login else None
    else if p.ctx.None? || p.ctx.value.auth != first || !Active(p.ctx) then first
    else
      var next := NextLogin(p.mem.order);
      if next.Some? && !Pending(p.mem.to, next.value) then next else None
  }

  function Send(p: Peer, login: Option<Login>, payload: Bytes): Peer {
    if !p.allClearRxed || !p.allClearSent || SendLogin(p, login).None? then p
    else p.(sendq := p.sendq + [ToSeal(SendLogin(p, login), Application(payload))])
  }

  // ------------------------------------------------------- session and process life

  /** _stop: the timer is disarmed and the threads end. */
  function Stop(p: Peer): Peer {
    p.(stopped := true, ctx := if p.ctx.Some? then Some(p.ctx.value.(timer := false)) else None)
  }

  /** cyber_new and the start of a session under the negotiated cipher. */
  function Start(p: Peer, cipher: string): Peer {
    p.(cipher := cipher, ctx := Some(NEW_CONTEXT), allClearSent := false, allClearRxed := false,
       stopped := false, sendq := [], inq := [], extq := [])
  }

  /** A restart: the credentials come back from the text of auth.db and the session is gone. */
  function Restart(p: Peer): Peer {
    Stop(p).(mem := Load(Save(p.disk)), ctx := None, phase := Idle)
  }
}
