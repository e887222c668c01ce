/** What every step of one round of the challenge keeps, from the scan that selects a login to the end of the
    answer's handling, among any other traffic of the session: payloads, announcements, late answers of earlier
    challenges and fruitless scans of both sides. */
module Rounds {
  import opened Basics
  import opened Wire
  import opened Credentials
  import opened Peers
  import opened Network
  import opened ChallengeInvariant
  import Base64

  /** The answer of q to p goes under q's first login: p can open it. */
  predicate ReplyAgrees(p: Peer, q: Peer) {
    match FirstLogin(q.mem.order)
    case None => false
    case Some(f) => f in q.mem.to && f in p.mem.from && q.mem.to[f].pwd == p.mem.from[f].pwd
  }

  /** The two peers when the round starts, the login p rotates and its entry with the candidate. */
  datatype Round = Round(p: Peer, q: Peer, login: Login, entry: Auth)

  /** The identifiers of the round's request and ping. */
  datatype Ids = Ids(request: nat, ping: nat)

  predicate IsElement(ids: Ids, m: Message) {
    m.ChangePwdRequest? || m == Ping(ids.ping)
  }

  predicate IsAnswer(ids: Ids, m: Message) {
    m == ChangePwdResponse(ids.request, true) || m == Pong(ids.ping)
  }

  /** An answer on its way is one of the round's two, or one to an earlier challenge. */
  predicate Known(ids: Ids, m: Message) {
    match m
    case ChangePwdResponse(o, status) => o < ids.request || (o == ids.request && status)
    case Pong(o) => o < ids.request || o == ids.ping
    case _ => true
  }

  // ------------------------------------------------------------- counting messages

  datatype Part = Element | Answer

  predicate Hit(part: Part, ids: Ids, m: Message) {
    if part.Element? then IsElement(ids, m) else IsAnswer(ids, m)
  }

  function Hits(part: Part, ids: Ids, ms: seq<Message>): nat {
    if ms == [] then 0 else (if Hit(part, ids, ms[0]) then 1 else 0) + Hits(part, ids, ms[1..])
  }

  lemma {:induction false} HitsAppend(part: Part, ids: Ids, a: seq<Message>, b: seq<Message>)
    ensures Hits(part, ids, a + b) == Hits(part, ids, a) + Hits(part, ids, b)
  {
    if a == [] {
      assert a + b == b;
    } else {
      assert (a + b)[1..] == a[1..] + b;
      HitsAppend(part, ids, a[1..], b);
    }
  }

  lemma {:induction false} HitsBound(part: Part, ids: Ids, ms: seq<Message>)
    ensures Hits(part, ids, ms) <= |ms|
    ensures Hits(part, ids, ms) == 0 <==> forall m :: m in ms ==> !Hit(part, ids, m)
  {
    if ms != [] { HitsBound(part, ids, ms[1..]); }
  }

  function InBodies(inq: seq<Incoming>): seq<Message> {
    seq(|inq|, i requires 0 <= i < |inq| => inq[i].body)
  }

  function OutBodies(sendq: seq<Outgoing>): seq<Message> {
    seq(|sendq|, i requires 0 <= i < |sendq| => if sendq[i].Ready? then AllClear else sendq[i].body)
  }

  function WireBodies(v: seq<Envelope>): seq<Message> {
    seq(|v|, i requires 0 <= i < |v| => if v[i].data == [] then AllClear else v[i].data[0].body)
  }

  /** The parts of the round on their way, each weighted by the steps it can still cause. */
  function ElementTokens(ids: Ids, p: Peer, q: Peer, w: seq<Envelope>): nat {
    14 * Count(IsReady, p.sendq) + 13 * Count(IsChallenge, w) + 6 * Hits(Element, ids, InBodies(q.inq))
  }

  function AnswerTokens(ids: Ids, p: Peer, q: Peer, v: seq<Envelope>): nat {
    (if q.phase == Installed(ids.request) then 5 else if q.phase == Committed(ids.request) then 4 else 0)
    + 3 * Hits(Answer, ids, OutBodies(q.sendq)) + 2 * Hits(Answer, ids, WireBodies(v)) + Hits(Answer, ids, InBodies(p.inq))
  }

  function Tokens(ids: Ids, p: Peer, q: Peer, w: seq<Envelope>, v: seq<Envelope>): nat {
    ElementTokens(ids, p, q, w) + AnswerTokens(ids, p, q, v)
  }

  predicate Preparing(p: Peer) {
    p.phase.Generated? || p.phase.Stored?
  }

  predicate Running(p: Peer) {
    p.phase.Idle? && Active(p.ctx)
  }

  predicate Finished(p: Peer) {
    p.phase.Switched? || (p.phase.Idle? && !Active(p.ctx))
  }

  /** How many steps of its own the round can still take, at most. */
  function Weight(ids: Ids, p: Peer, q: Peer, w: seq<Envelope>, v: seq<Envelope>): nat {
    match p.phase
    case Generated(_) => 18
    case Stored(_) => 17
    case _ => Tokens(ids, p, q, w, v) + if Running(p) then 2 else if p.phase.Switched? then 1 else 0
  }

  // ------------------------------------------------------------------- the invariant

  predicate Waiting(z: Round, p: Peer) {
    p.mem.to == z.p.mem.to[z.login := z.entry]
  }

  /** The candidate is the password and nothing else has changed. */
  predicate Done(z: Round, p: Peer) {
    && z.login in p.mem.to && p.mem.to == z.p.mem.to[z.login := p.mem.to[z.login]]
    && p.mem.to[z.login] == AfterSwitch(z.entry, p.mem.to[z.login].stamp)
  }

  predicate OnLogin(z: Round, p: Peer) {
    && p.ctx.Some? && p.ctx.value.auth == Some(z.login)
    && (p.ctx.value.toSend <==> Preparing(p)) && (p.ctx.value.running <==> !Preparing(p))
  }

  predicate Stage(z: Round, ids: Ids, p: Peer) {
    match p.phase
    case Generated(l) => l == z.login && OnLogin(z, p) && Waiting(z, p)
    case Stored(l) => l == z.login && OnLogin(z, p) && Waiting(z, p)
    case Idle => if Active(p.ctx) then OnLogin(z, p) && Has(ids, p) && Waiting(z, p) else Done(z, p)
    case Switched => OnLogin(z, p) && Has(ids, p) && Done(z, p)
    case _ => false
  }

  predicate Has(ids: Ids, p: Peer) {
    p.ctx.Some? && p.ctx.value.mIdRequest == ids.request && p.ctx.value.mIdPing == ids.ping
  }

  /** m does not answer a challenge of the peer with context c. */
  predicate Deaf(c: Option<Context>, m: Message) {
    c.Some? && c.value.running ==>
      match m
      case ChangePwdResponse(o, _) => o != c.value.mIdRequest
      case Pong(o) => o != c.value.mIdPing
      case _ => true
  }

  predicate EchoDeaf(c: Option<Context>, m: Message) {
    m.Ping? ==> Deaf(c, Pong(m.mId))
  }

  /** A challenge of q's own has nothing on its way: no element, and no answer. */
  predicate Calm(p: Peer, q: Peer, w: seq<Envelope>, v: seq<Envelope>) {
    && Requests(q, p, v) == 0
    && (forall x :: x in q.inq ==> Deaf(q.ctx, x.body))
    && (forall e, d :: e in w && d in e.data ==> Deaf(q.ctx, d.body))
    && (forall o :: o in p.sendq ==> if o.Ready? then forall d :: d in o.envelope.data ==> Deaf(q.ctx, d.body)
                                                else Deaf(q.ctx, o.body))
    && (forall x :: x in p.inq ==> EchoDeaf(q.ctx, x.body))
  }

  /** What the round leaves alone. */
  predicate Fixed(z: Round, p: Peer, q: Peer) {
    && !p.stopped && !q.stopped && !Busy(z.q) && z.login in z.q.mem.from
    && p.me == z.p.me && p.remote == z.p.remote && p.cipher == z.p.cipher
    && q.me == z.q.me && q.remote == z.q.remote && q.cipher == z.q.cipher
    && p.mem.from == z.p.mem.from && p.mem.order == z.p.mem.order
    && q.mem.to == z.q.mem.to && q.mem.order == z.q.mem.order
    && (if Active(z.q.ctx) then q.ctx == z.q.ctx else !Active(q.ctx))
    && (q.phase.Idle? || q.phase.Installed? || q.phase.Committed?)
    && q.mem.from.Keys == z.q.mem.from.Keys
    && forall k :: k in q.mem.from && k != z.login ==> q.mem.from[k] == z.q.mem.from[k]
  }

  predicate AnswerEnvelope(z: Round, e: Envelope) {
    var f := FirstLogin(z.q.mem.order);
    && f.Some? && f.value in z.q.mem.to && e.login == f.value
    && |e.data| == 1 && e.data[0].key == SealKey(z.q, f.value, z.q.mem.to[f.value].pwd)
  }

  predicate HeardGood(ids: Ids, m: Message) {
    m.Ping? ==> m.mId == ids.ping || m.mId < ids.request
  }

  predicate OutGood(ids: Ids, o: Outgoing) {
    o.ToSeal? ==> Known(ids, o.body) && (IsAnswer(ids, o.body) ==> o.login.None?)
  }

  predicate WireGood(z: Round, ids: Ids, e: Envelope) {
    && (forall d :: d in e.data ==> Known(ids, d.body))
    && (e.data != [] && IsAnswer(ids, e.data[0].body) ==> AnswerEnvelope(z, e))
  }

  /** After the challenge has been handed over: what is on its way belongs to the round or to the past. */
  predicate Bodies(z: Round, ids: Ids, p: Peer, q: Peer, v: seq<Envelope>) {
    && ids.request < ids.ping
    && (forall x :: x in q.inq ==> HeardGood(ids, x.body))
    && (q.phase.Installed? || q.phase.Committed? ==> q.phase.oMId <= ids.request)
    && (forall o :: o in q.sendq ==> OutGood(ids, o))
    && (forall e :: e in v ==> WireGood(z, ids, e))
    && (forall x :: x in p.inq ==> Known(ids, x.body))
  }

  /** p gets an answer exactly when the reply direction agrees, and then something is always on its way. */
  predicate Progress(z: Round, ids: Ids, p: Peer, q: Peer, w: seq<Envelope>, v: seq<Envelope>) {
    && (Finished(p) || Hits(Answer, ids, InBodies(p.inq)) > 0 ==> ReplyAgrees(z.p, z.q))
    && (Running(p) && ReplyAgrees(z.p, z.q) ==> Tokens(ids, p, q, w, v) > 0)
  }

  predicate InRound(z: Round, ids: Ids, p: Peer, q: Peer, w: seq<Envelope>, v: seq<Envelope>) {
    && z.entry.pending && Fixed(z, p, q) && Calm(p, q, w, v) && Stage(z, ids, p)
    && (!Preparing(p) ==> Bodies(z, ids, p, q, v) && Progress(z, ids, p, q, w, v))
  }

  // ---------------------------------------------------- steps beside the round, at p

  /** p queues plain messages, takes or handles messages that are no answer of the round, or forgets a context
      it does not use. */
  lemma HereFrame(z: Round, ids: Ids, p: Peer, p': Peer, q: Peer, w: seq<Envelope>, v: seq<Envelope>, v': seq<Envelope>,
                  extra: seq<Outgoing>)
    requires InRound(z, ids, p, q, w, v)
    requires p' == p.(ctx := p'.ctx, allClearSent := p'.allClearSent, allClearRxed := p'.allClearRxed,
                      sendq := p.sendq + extra, inq := p'.inq, extq := p'.extq)
    requires p'.ctx == p.ctx || (p.phase.Idle? && !Active(p.ctx) && !Active(p'.ctx))
    requires forall o :: o in extra ==> o.ToSeal? && Deaf(q.ctx, o.body)
    requires forall x :: x in p'.inq ==> EchoDeaf(q.ctx, x.body) && (!Preparing(p) ==> Known(ids, x.body))
    requires forall e :: e in v' ==> e in v
    requires Requests(q, p', v') == 0
    requires !Preparing(p) ==> Hits(Answer, ids, InBodies(p'.inq)) == Hits(Answer, ids, InBodies(p.inq))
    requires !Preparing(p) ==> Hits(Answer, ids, WireBodies(v')) == Hits(Answer, ids, WireBodies(v))
    ensures InRound(z, ids, p', q, w, v') && Weight(ids, p', q, w, v') == Weight(ids, p, q, w, v)
  {
    hide Hits, Count, WireGood, AnswerEnvelope, ReplyAgrees, Requests, Busy;
    PlainQueue(p.sendq, extra);
    assert Calm(p', q, w, v');
    assert Stage(z, ids, p');
  }

  lemma PlainQueue(sendq: seq<Outgoing>, extra: seq<Outgoing>)
    requires forall o :: o in extra ==> o.ToSeal?
    ensures Count(IsReady, sendq + extra) == Count(IsReady, sendq)
  {
    CountAppend(IsReady, sendq, extra);
    CountZero(IsReady, extra);
  }

  lemma SendHere(z: Round, ids: Ids, p: Peer, q: Peer, w: seq<Envelope>, v: seq<Envelope>, login: Option<Login>,
                 payload: Bytes)
    requires InRound(z, ids, p, q, w, v)
    ensures var p' := Peers.Send(p, login, payload);
            InRound(z, ids, p', q, w, v) && Weight(ids, p', q, w, v) == Weight(ids, p, q, w, v)
  {
    hide SendLogin, Weight, Fixed, Stage, Bodies, Progress;
    var p' := Peers.Send(p, login, payload);
    var extra := if p' == p then [] else [ToSeal(SendLogin(p, login), Application(payload))];
    assert p'.sendq == p.sendq + extra;
    KnownHere(z, ids, p, q, w, v);
    HereFrame(z, ids, p, p', q, w, v, v, extra);
  }

  lemma KnownHere(z: Round, ids: Ids, p: Peer, q: Peer, w: seq<Envelope>, v: seq<Envelope>)
    requires InRound(z, ids, p, q, w, v)
    ensures forall x :: x in p.inq ==> EchoDeaf(q.ctx, x.body) && (!Preparing(p) ==> Known(ids, x.body))
    ensures Requests(q, p, v) == 0
  {}

  /** A scan while the challenge runs does nothing; one that finds nothing due announces AllClear at most. */
  lemma ScanHere(z: Round, ids: Ids, p: Peer, q: Peer, w: seq<Envelope>, v: seq<Envelope>, now: int, candidate: Bytes)
    requires InRound(z, ids, p, q, w, v) && p.phase.Idle?
    requires Active(p.ctx) || DueLogin(p.mem.order, p.mem.to, now).None?
    ensures var p' := Begin(p, now, candidate);
            InRound(z, ids, p', q, w, v) && Weight(ids, p', q, w, v) == Weight(ids, p, q, w, v)
  {
    hide DueLogin, Weight, Fixed, Stage, Bodies, Progress;
    var p' := Begin(p, now, candidate);
    var extra := if p'.sendq == p.sendq then [] else [ToSeal(None, AllClear)];
    assert p'.sendq == p.sendq + extra;
    KnownHere(z, ids, p, q, w, v);
    HereFrame(z, ids, p, p', q, w, v, v, extra);
  }

  /** Handling a message that is no answer of the round. */
  lemma ProcessPlainHere(z: Round, ids: Ids, p: Peer, q: Peer, w: seq<Envelope>, v: seq<Envelope>, now: int)
    requires InRound(z, ids, p, q, w, v) && p.phase.Idle? && p.inq != [] && !IsAnswer(ids, p.inq[0].body)
    ensures var p' := Peers.Process(p, now);
            InRound(z, ids, p', q, w, v) && Weight(ids, p', q, w, v) == Weight(ids, p, q, w, v)
  {
    hide InRound, Weight, OnRequest;
    var x, p' := p.inq[0], Peers.Process(p, now);
    assert x in p.inq;
    KnownHere(z, ids, p, q, w, v);
    NoRequestHere(q, p, v);
    IdsHere(z, ids, p, q, w, v);
    var extra := if x.body.Ping? then [ToSeal(None, Pong(x.body.mId))] else [];
    assert p'.sendq == p.sendq + extra;
    PopBodies(Answer, ids, p.inq);
    PopCount(p.inq);
    HereFrame(z, ids, p, p', q, w, v, v, extra);
  }

  lemma NoRequestHere(q: Peer, p: Peer, v: seq<Envelope>)
    requires Requests(q, p, v) == 0
    ensures forall x :: x in p.inq ==> !x.body.ChangePwdRequest?
    ensures forall e :: e in v ==> !IsChallenge(e)
    ensures forall o :: o in q.sendq ==> !o.Ready?
  {
    CountZero(IsRequest, p.inq);
    CountZero(IsChallenge, v);
    CountZero(IsReady, q.sendq);
  }

  lemma IdsHere(z: Round, ids: Ids, p: Peer, q: Peer, w: seq<Envelope>, v: seq<Envelope>)
    requires InRound(z, ids, p, q, w, v)
    ensures Running(p) ==> Has(ids, p) && p.ctx.value.running && p.ctx.value.auth == Some(z.login) && Waiting(z, p)
    ensures !Preparing(p) ==> ids.request < ids.ping
  {}

  lemma PopBodies(part: Part, ids: Ids, inq: seq<Incoming>)
    requires inq != []
    ensures InBodies(inq)[0] == inq[0].body && InBodies(inq[1..]) == InBodies(inq)[1..]
    ensures Hits(part, ids, InBodies(inq))
            == (if Hit(part, ids, inq[0].body) then 1 else 0) + Hits(part, ids, InBodies(inq[1..]))
  {
    assert InBodies(inq[1..]) == InBodies(inq)[1..];
  }

  lemma PopCount(inq: seq<Incoming>)
    requires inq != []
    ensures Count(IsRequest, inq) == (if IsRequest(inq[0]) then 1 else 0) + Count(IsRequest, inq[1..])
  {}

  // ------------------------------------------------------ steps of the round, at p

  lemma SaveHere(z: Round, ids: Ids, p: Peer, q: Peer, w: seq<Envelope>, v: seq<Envelope>)
    requires InRound(z, ids, p, q, w, v) && CanSave(p)
    ensures InRound(z, ids, SaveStep(p), q, w, v) && Weight(ids, SaveStep(p), q, w, v) < Weight(ids, p, q, w, v)
  {
    hide Busy, Hits, Count, ReplyAgrees, WireGood;
  }

  /** Before the challenge nothing on its way has its identifiers. */
  lemma FreshIds(ids: Ids, p: Peer, q: Peer, w: seq<Envelope>, v: seq<Envelope>)
    requires RequestsGood(p, q, w) && !Live(p) && AllOlder(p, w, ids.request) && AllOlder(q, v, ids.request)
    requires ids.request < ids.ping
    ensures forall x :: x in q.inq ==> Older(x.body, ids.request) && !IsElement(ids, x.body)
    ensures forall x :: x in p.inq ==> Known(ids, x.body) && !IsAnswer(ids, x.body)
    ensures forall e, d :: e in v && d in e.data ==> Known(ids, d.body) && !IsAnswer(ids, d.body)
    ensures forall o :: o in q.sendq && o.ToSeal? ==> Known(ids, o.body) && !IsAnswer(ids, o.body)
    ensures q.phase.Installed? || q.phase.Committed? ==> q.phase.oMId < ids.request
    ensures Count(IsReady, p.sendq) == 0 && Count(IsChallenge, w) == 0
  {
    NotLive(p, q, w, v);
    CountZero(IsReady, p.sendq);
    CountZero(IsChallenge, w);
  }

  lemma NoneHits(ids: Ids, p: Peer, q: Peer, v: seq<Envelope>)
    requires forall x :: x in q.inq ==> !IsElement(ids, x.body)
    requires forall x :: x in p.inq ==> !IsAnswer(ids, x.body)
    requires forall e, d :: e in v && d in e.data ==> !IsAnswer(ids, d.body)
    requires forall o :: o in q.sendq && o.ToSeal? ==> !IsAnswer(ids, o.body)
    ensures Hits(Element, ids, InBodies(q.inq)) == 0 && Hits(Answer, ids, InBodies(p.inq)) == 0
    ensures Hits(Answer, ids, WireBodies(v)) == 0 && Hits(Answer, ids, OutBodies(q.sendq)) == 0
  {
    HitsBound(Element, ids, InBodies(q.inq));
    HitsBound(Answer, ids, InBodies(p.inq));
    forall m | m in WireBodies(v) ensures !IsAnswer(ids, m) {
      var i :| 0 <= i < |v| && WireBodies(v)[i] == m;
      if v[i].data != [] { assert v[i] in v && v[i].data[0] in v[i].data; }
    }
    HitsBound(Answer, ids, WireBodies(v));
    forall m | m in OutBodies(q.sendq) ensures !IsAnswer(ids, m) {
      var i :| 0 <= i < |q.sendq| && OutBodies(q.sendq)[i] == m;
      assert q.sendq[i] in q.sendq;
    }
    HitsBound(Answer, ids, OutBodies(q.sendq));
  }

  lemma EmitHere(z: Round, before: Ids, p: Peer, q: Peer, w: seq<Envelope>, v: seq<Envelope>, next: nat)
    requires InRound(z, before, p, q, w, v) && p.phase.Stored? && CanEmit(p) && RequestsGood(p, q, w)
    requires AllOlder(p, w, next) && AllOlder(q, v, next)
    ensures var ids, p' := Ids(next, next + 1), EmitStep(p, next, next + 1);
            InRound(z, ids, p', q, w, v) && Weight(ids, p', q, w, v) == 16
  {
    hide ChallengeEnvelope, Hits, Count, AllOlder, RequestsGood, ReplyAgrees, Busy, Requests, Calm, Bodies;
    var ids, p' := Ids(next, next + 1), EmitStep(p, next, next + 1);
    FreshIds(ids, p, q, w, v);
    NoneHits(ids, p, q, v);
    var e := ChallengeEnvelope(p, z.login, p.mem.to[z.login], next, next + 1);
    CountAppend(IsReady, p.sendq, [Ready(e)]);
    OneReady(e);
    CalmEmit(p, p', q, w, v, e, z.login, next, next + 1);
    FreshBodies(z, ids, p, p', q, v);
  }

  lemma OneReady(e: Envelope)
    ensures Count(IsReady, [Ready(e)]) == 1
  {
    assert [Ready(e)][1..] == [];
  }

  lemma CalmEmit(p: Peer, p': Peer, q: Peer, w: seq<Envelope>, v: seq<Envelope>, e: Envelope, l: Login, m1: nat,
                 m2: nat)
    requires Calm(p, q, w, v) && l in p.mem.to && e == ChallengeEnvelope(p, l, p.mem.to[l], m1, m2)
    requires p'.sendq == p.sendq + [Ready(e)] && p'.inq == p.inq
    ensures Calm(p', q, w, v)
  {
    hide Base64.Encode, SealKey;
  }

  lemma FreshBodies(z: Round, ids: Ids, p: Peer, p': Peer, q: Peer, v: seq<Envelope>)
    requires ids.request < ids.ping && p'.inq == p.inq
    requires forall x :: x in q.inq ==> Older(x.body, ids.request)
    requires forall x :: x in p.inq ==> Known(ids, x.body)
    requires forall e, d :: e in v && d in e.data ==> Known(ids, d.body) && !IsAnswer(ids, d.body)
    requires forall o :: o in q.sendq && o.ToSeal? ==> Known(ids, o.body) && !IsAnswer(ids, o.body)
    requires q.phase.Installed? || q.phase.Committed? ==> q.phase.oMId < ids.request
    ensures Bodies(z, ids, p', q, v)
  {}

  /** Handling an answer of the round: it completes the switch, or comes after it. */
  lemma ProcessAnswerHere(z: Round, ids: Ids, p: Peer, q: Peer, w: seq<Envelope>, v: seq<Envelope>, now: int)
    requires InRound(z, ids, p, q, w, v) && p.phase.Idle? && p.inq != [] && IsAnswer(ids, p.inq[0].body)
    ensures var p' := Peers.Process(p, now);
            InRound(z, ids, p', q, w, v) && Weight(ids, p', q, w, v) < Weight(ids, p, q, w, v)
    ensures Running(p) ==> z.login in Peers.Process(p, now).mem.to && Peers.Process(p, now).mem.to[z.login].stamp == now
  {
    hide Hits, Count, ReplyAgrees, Fixed, Calm, Bodies, Stage, Peers.Process;
    var p' := Peers.Process(p, now);
    PopBodies(Answer, ids, p.inq);
    AnswerTaken(z, ids, p, now);
    AnswerFrame(z, ids, p, p', q, w, v);
  }

  /** The effect on p: the switch of the round's login, or nothing but the pop. */
  lemma AnswerTaken(z: Round, ids: Ids, p: Peer, now: int)
    requires Stage(z, ids, p) && z.entry.pending && p.phase.Idle? && p.inq != [] && IsAnswer(ids, p.inq[0].body)
    ensures var p' := Peers.Process(p, now);
            && p' == p.(inq := p.inq[1..], mem := p.mem.(to := p'.mem.to), ctx := p'.ctx, phase := p'.phase)
            && Stage(z, ids, p') && (p'.phase.Switched? <==> Running(p)) && (p'.phase.Idle? <==> !Running(p))
            && (!Running(p) ==> p'.ctx == p.ctx)
            && (Running(p) ==> z.login in p'.mem.to && p'.mem.to[z.login].stamp == now)
  {
    var p0, m := p.(inq := p.inq[1..]), p.inq[0].body;
    AnswerHandled(z, ids, p, p0, p.inq[0].login, m, now);
    if Running(p) { SwitchesHere(z, ids, p0, now); }
  }

  /** An answer of the round switches while the challenge runs, and does nothing afterwards. */
  lemma AnswerHandled(z: Round, ids: Ids, p: Peer, p0: Peer, l: Login, m: Message, now: int)
    requires Stage(z, ids, p) && p.phase.Idle? && IsAnswer(ids, m) && p0 == p.(inq := p0.inq)
    ensures Stage(z, ids, p0) && Running(p0) == Running(p) && (Running(p) ==> p0.ctx.Some?)
    ensures Handle(p0, l, m, now) == if Running(p) then SwitchInMemory(p0, now) else p0
  {
    hide OnRequest, SwitchInMemory;
  }

  lemma SwitchesHere(z: Round, ids: Ids, p: Peer, now: int)
    requires Stage(z, ids, p) && z.entry.pending && Running(p) && p.ctx.Some?
    ensures var p' := SwitchInMemory(p, now);
            && p' == p.(mem := p.mem.(to := p'.mem.to), ctx := p'.ctx, phase := Switched)
            && Stage(z, ids, p') && z.login in p'.mem.to && p'.mem.to[z.login].stamp == now
  {}

  lemma AnswerFrame(z: Round, ids: Ids, p: Peer, p': Peer, q: Peer, w: seq<Envelope>, v: seq<Envelope>)
    requires Fixed(z, p, q) && Calm(p, q, w, v) && Bodies(z, ids, p, q, v) && p.inq != []
    requires p' == p.(inq := p.inq[1..], mem := p.mem.(to := p'.mem.to), ctx := p'.ctx, phase := p'.phase)
    ensures Fixed(z, p', q) && Calm(p', q, w, v) && Bodies(z, ids, p', q, v)
  {
    hide WireGood, Busy, Requests, Deaf, EchoDeaf;
    assert forall x :: x in p'.inq ==> x in p.inq;
    PopRequests(p, p', q, v);
  }

  lemma PopRequests(p: Peer, p': Peer, q: Peer, v: seq<Envelope>)
    requires p.inq != [] && p'.inq == p.inq[1..] && Requests(q, p, v) == 0
    ensures Requests(q, p', v) == 0
  {}

  lemma TransmitHere(z: Round, ids: Ids, p: Peer, q: Peer, w: seq<Envelope>, v: seq<Envelope>, late: bool)
    requires InRound(z, ids, p, q, w, v) && RequestsGood(p, q, w) && p.sendq != []
    ensures var p', w' := p.(sendq := p.sendq[1..]), WithSent(w, Sent(p, p.sendq[0], late));
            && InRound(z, ids, p', q, w', v)
            && Weight(ids, p', q, w', v) <= Weight(ids, p, q, w, v) - (if p.sendq[0].Ready? then 1 else 0)
  {
    hide Hits, WireGood, ReplyAgrees, Busy, SealKey, RequestsGood, LiveEnvelope, Sent, Count, Requests, Calm;
    var o, p' := p.sendq[0], p.(sendq := p.sendq[1..]);
    var w' := WithSent(w, Sent(p, o, late));
    HeadOut(p, q, w);
    WireMoves(p, q, w, late);
    CalmTransmit(p, q, w, v, late);
  }

  lemma HeadOut(p: Peer, q: Peer, w: seq<Envelope>)
    requires RequestsGood(p, q, w) && p.sendq != []
    ensures p.sendq[0].Ready? ==> Live(p) && p.sendq[0].envelope == LiveEnvelope(p)
    ensures p.sendq[0].ToSeal? ==> PlainBody(p.sendq[0].body)
  {
    assert p.sendq[0] in p.sendq;
  }

  lemma WireMoves(p: Peer, q: Peer, w: seq<Envelope>, late: bool)
    requires RequestsGood(p, q, w) && p.sendq != []
    ensures var o, w' := p.sendq[0], WithSent(w, Sent(p, p.sendq[0], late));
            && Count(IsReady, p.sendq) == (if o.Ready? then 1 else 0) + Count(IsReady, p.sendq[1..])
            && Count(IsChallenge, w') == Count(IsChallenge, w) + (if o.Ready? then 1 else 0)
  {
    hide LiveEnvelope, SealKey;
    HeadOut(p, q, w);
    if p.sendq[0].Ready? { LiveIsChallenge(p); }
    var e := Sent(p, p.sendq[0], late);
    if e.Some? { CountAppend(IsChallenge, w, [e.value]); }
  }

  lemma CalmTransmit(p: Peer, q: Peer, w: seq<Envelope>, v: seq<Envelope>, late: bool)
    requires Calm(p, q, w, v) && p.sendq != []
    ensures Calm(p.(sendq := p.sendq[1..]), q, WithSent(w, Sent(p, p.sendq[0], late)), v)
  {
    hide SealKey;
    assert p.sendq[0] in p.sendq;
  }

  lemma InternalOne(login: Login, body: Message)
    ensures Internal(login, [body]) == if body.Application? then [] else [Incoming(login, body)]
    ensures External([body]) == if body.Application? then [body.payload] else []
    ensures Internal(login, []) == [] && External([]) == []
  {
    assert [body][1..] == [];
  }

  /** What a peer takes from a plain envelope: its body, unless it does not open or is a payload. */
  lemma ReceivesPlain(p: Peer, e: Envelope, late: bool)
    requires PlainEnvelope(e)
    ensures var body, p' := e.data[0].body, Peers.Receive(p, e, late);
            var opens := e.login in p.mem.from && e.data[0].key == OpenKey(p, e.login, late);
            && p' == p.(inq := p'.inq, extq := p'.extq)
            && p'.inq == p.inq + (if opens && !body.Application? then [Incoming(e.login, body)] else [])
            && p'.extq == p.extq + (if opens && body.Application? then [body.payload] else [])
  {
    hide OpenKey;
    if e.login in p.mem.from {
      OpenedOne(e.data, OpenKey(p, e.login, late));
      InternalOne(e.login, e.data[0].body);
    }
  }

  /** An answer of the round opens exactly when the reply direction agrees. */
  lemma AnswerOpens(z: Round, p: Peer, q: Peer, e: Envelope, late: bool)
    requires Fixed(z, p, q) && Matched(p, q) && AnswerEnvelope(z, e) && p.disk.from == p.mem.from
    ensures ReplyAgrees(z.p, z.q) <==> e.login in p.mem.from && e.data[0].key == OpenKey(p, e.login, late)
  {
    if e.login in p.mem.from {
      KeysAgree(p.cipher, q.me, p.me, e.login, z.q.mem.to[e.login].pwd, p.mem.from[e.login].pwd);
    }
  }

  predicate HitsAt(ids: Ids, p: Peer, e: Envelope) {
    !Preparing(p) && e.data != [] && IsAnswer(ids, e.data[0].body)
  }

  lemma HeadPlain(p: Peer, q: Peer, v: seq<Envelope>)
    requires RequestsGood(q, p, v) && Requests(q, p, v) == 0 && v != []
    ensures PlainEnvelope(v[0])
  {
    CountZero(IsChallenge, v);
    assert v[0] in v;
    if !PlainEnvelope(v[0]) { LiveIsChallenge(q); }
  }

  lemma PopWire(ids: Ids, v: seq<Envelope>)
    requires v != [] && v[0].data != []
    ensures Hits(Answer, ids, WireBodies(v))
            == (if IsAnswer(ids, v[0].data[0].body) then 1 else 0) + Hits(Answer, ids, WireBodies(v[1..]))
  {
    assert WireBodies(v)[0] == v[0].data[0].body && WireBodies(v)[1..] == WireBodies(v[1..]);
  }

  lemma PushIn(part: Part, ids: Ids, inq: seq<Incoming>, x: Incoming)
    ensures Hits(part, ids, InBodies(inq + [x])) == Hits(part, ids, InBodies(inq)) + (if Hit(part, ids, x.body) then 1 else 0)
  {
    assert InBodies(inq + [x]) == InBodies(inq) + [x.body];
    HitsAppend(part, ids, InBodies(inq), [x.body]);
    assert [x.body][1..] == [];
  }

  /** A message that is no request joins p's queue while the wire gives up its head. */
  lemma StillNoRequest(q: Peer, p: Peer, p': Peer, v: seq<Envelope>, more: seq<Incoming>)
    requires Requests(q, p, v) == 0 && v != [] && p'.inq == p.inq + more
    requires forall x :: x in more ==> !x.body.ChangePwdRequest?
    ensures Requests(q, p', v[1..]) == 0
  {
    CountAppend(IsRequest, p.inq, more);
    CountZero(IsRequest, more);
  }

  lemma ReceiveHere(z: Round, ids: Ids, p: Peer, q: Peer, w: seq<Envelope>, v: seq<Envelope>, late: bool)
    requires InRound(z, ids, p, q, w, v) && RequestsGood(q, p, v) && Matched(p, q) && v != []
    requires p.disk.from == p.mem.from
    ensures var p' := Peers.Receive(p, v[0], late);
            && InRound(z, ids, p', q, w, v[1..])
            && Weight(ids, p', q, w, v[1..]) <= Weight(ids, p, q, w, v) - (if HitsAt(ids, p, v[0]) then 1 else 0)
  {
    hide InRound, Requests, Matched, AnswerEnvelope, Hits, Weight, ReplyAgrees, OpenKey, RequestsGood, Peers.Receive;
    var e, p' := v[0], Peers.Receive(p, v[0], late);
    KnownHere(z, ids, p, q, w, v);
    HeadPlain(p, q, v);
    ReceivesPlain(p, e, late);
    PopWire(ids, v);
    if HitsAt(ids, p, e) {
      AnswerReceived(z, ids, p, p', q, w, v, late);
    } else {
      var more := if p'.inq == p.inq then [] else [Incoming(e.login, e.data[0].body)];
      assert p'.inq == p.inq + more;
      StillNoRequest(q, p, p', v, more);
      if more != [] { PushIn(Answer, ids, p.inq, more[0]); }
      if !Preparing(p) { HeadKnown(z, ids, p, q, w, v); }
      assert p.sendq + [] == p.sendq;
      HereFrame(z, ids, p, p', q, w, v, v[1..], []);
    }
  }

  lemma HeadKnown(z: Round, ids: Ids, p: Peer, q: Peer, w: seq<Envelope>, v: seq<Envelope>)
    requires InRound(z, ids, p, q, w, v) && v != [] && PlainEnvelope(v[0]) && !Preparing(p)
    ensures Known(ids, v[0].data[0].body)
    ensures IsAnswer(ids, v[0].data[0].body) ==> AnswerEnvelope(z, v[0])
  {
    assert v[0] in v && v[0].data[0] in v[0].data && WireGood(z, ids, v[0]);
  }

  lemma AnswerReceived(z: Round, ids: Ids, p: Peer, p': Peer, q: Peer, w: seq<Envelope>, v: seq<Envelope>, late: bool)
    requires InRound(z, ids, p, q, w, v) && Matched(p, q) && v != [] && PlainEnvelope(v[0]) && HitsAt(ids, p, v[0])
    requires p' == Peers.Receive(p, v[0], late) && p.disk.from == p.mem.from
    ensures InRound(z, ids, p', q, w, v[1..]) && Weight(ids, p', q, w, v[1..]) < Weight(ids, p, q, w, v)
  {
    hide Matched, AnswerEnvelope, Hits, ReplyAgrees, OpenKey, Peers.Receive, Requests, Known, Busy, Count;
    var e, x := v[0], Incoming(v[0].login, v[0].data[0].body);
    HeadKnown(z, ids, p, q, w, v);
    ReceivesPlain(p, e, late);
    AnswerOpens(z, p, q, e, late);
    PopWire(ids, v);
    PushIn(Answer, ids, p.inq, x);
    var more := if ReplyAgrees(z.p, z.q) then [x] else [];
    assert p'.inq == p.inq + more && p.inq + [] == p.inq;
    StillNoRequest(q, p, p', v, more);
    assert Calm(p', q, w, v[1..]);
    assert Bodies(z, ids, p', q, v[1..]);
  }

  // --------------------------------------------------- steps beside the round, at q

  /** q queues messages that are no answer of the round, takes or handles messages that are no element of it, or
      forgets a context it does not use. */
  lemma ThereFrame(z: Round, ids: Ids, p: Peer, q: Peer, q': Peer, w: seq<Envelope>, w': seq<Envelope>,
                   v: seq<Envelope>,
                   extra: seq<Outgoing>)
    requires InRound(z, ids, p, q, w, v)
    requires q' == q.(ctx := q'.ctx, allClearSent := q'.allClearSent, allClearRxed := q'.allClearRxed,
                      sendq := q.sendq + extra, inq := q'.inq, extq := q'.extq)
    requires q'.ctx == q.ctx || (!Active(q.ctx) && !Active(q'.ctx))
    requires forall o :: o in extra ==>
                           o.ToSeal? && (!Preparing(p) ==> OutGood(ids, o) && !IsAnswer(ids, o.body))
    requires forall x :: x in q'.inq ==> Deaf(q.ctx, x.body) && (!Preparing(p) ==> HeardGood(ids, x.body))
    requires forall e :: e in w' ==> e in w
    requires !Preparing(p) ==> Hits(Element, ids, InBodies(q'.inq)) == Hits(Element, ids, InBodies(q.inq))
    requires !Preparing(p) ==> Count(IsChallenge, w') == Count(IsChallenge, w)
    ensures InRound(z, ids, p, q', w', v) && Weight(ids, p, q', w', v) == Weight(ids, p, q, w, v)
  {
    hide Hits, Count, WireGood, ReplyAgrees, Busy;
    PlainQueue(q.sendq, extra);
    if !Preparing(p) { QuietAnswers(ids, q.sendq, extra); }
    CalmThere(p, q, q', w, w', v, extra);
    assert Fixed(z, p, q');
  }

  lemma QuietAnswers(ids: Ids, sendq: seq<Outgoing>, extra: seq<Outgoing>)
    requires forall o :: o in extra ==> o.ToSeal? && !IsAnswer(ids, o.body)
    ensures Hits(Answer, ids, OutBodies(sendq + extra)) == Hits(Answer, ids, OutBodies(sendq))
  {
    assert OutBodies(sendq + extra) == OutBodies(sendq) + OutBodies(extra);
    HitsAppend(Answer, ids, OutBodies(sendq), OutBodies(extra));
    HitsBound(Answer, ids, OutBodies(extra));
  }

  lemma CalmThere(p: Peer, q: Peer, q': Peer, w: seq<Envelope>, w': seq<Envelope>, v: seq<Envelope>,
                  extra: seq<Outgoing>)
    requires Calm(p, q, w, v) && q'.sendq == q.sendq + extra && Count(IsReady, q'.sendq) == Count(IsReady, q.sendq)
    requires q'.ctx == q.ctx || (!Active(q.ctx) && !Active(q'.ctx))
    requires forall x :: x in q'.inq ==> Deaf(q.ctx, x.body)
    requires forall e :: e in w' ==> e in w
    ensures Calm(p, q', w', v)
  {
    hide Count;
  }

  lemma KnownThere(z: Round, ids: Ids, p: Peer, q: Peer, w: seq<Envelope>, v: seq<Envelope>)
    requires InRound(z, ids, p, q, w, v)
    ensures forall x :: x in q.inq ==> Deaf(q.ctx, x.body) && (!Preparing(p) ==> HeardGood(ids, x.body))
    ensures q.phase.Idle? || q.phase.Installed? || q.phase.Committed?
    ensures !Preparing(p) ==> ids.request < ids.ping
  {}

  lemma SendThere(z: Round, ids: Ids, p: Peer, q: Peer, w: seq<Envelope>, v: seq<Envelope>, login: Option<Login>,
                  payload: Bytes)
    requires InRound(z, ids, p, q, w, v)
    ensures var q' := Peers.Send(q, login, payload);
            InRound(z, ids, p, q', w, v) && Weight(ids, p, q', w, v) == Weight(ids, p, q, w, v)
  {
    hide SendLogin, Weight, InRound;
    var q' := Peers.Send(q, login, payload);
    var extra := if q' == q then [] else [ToSeal(SendLogin(q, login), Application(payload))];
    assert q'.sendq == q.sendq + extra;
    KnownThere(z, ids, p, q, w, v);
    ThereFrame(z, ids, p, q, q', w, w, v, extra);
  }

  lemma ScanThere(z: Round, ids: Ids, p: Peer, q: Peer, w: seq<Envelope>, v: seq<Envelope>, now: int, candidate: Bytes)
    requires InRound(z, ids, p, q, w, v) && (Active(q.ctx) || DueLogin(q.mem.order, q.mem.to, now).None?)
    ensures var q' := Begin(q, now, candidate);
            InRound(z, ids, p, q', w, v) && Weight(ids, p, q', w, v) == Weight(ids, p, q, w, v)
  {
    hide DueLogin, Weight, InRound;
    var q' := Begin(q, now, candidate);
    var extra := if q'.sendq == q.sendq then [] else [ToSeal(None, AllClear)];
    assert q'.sendq == q.sendq + extra;
    KnownThere(z, ids, p, q, w, v);
    ThereFrame(z, ids, p, q, q', w, w, v, extra);
  }

  lemma DeafKeeps(q: Peer, now: int)
    requires q.inq != [] && Deaf(q.ctx, q.inq[0].body) && !q.inq[0].body.ChangePwdRequest?
    ensures var q', m := Peers.Process(q, now), q.inq[0].body;
            && q' == q.(allClearRxed := q'.allClearRxed, sendq := q'.sendq, inq := q.inq[1..])
            && q'.sendq == q.sendq + (if m.Ping? then [ToSeal(None, Pong(m.mId))] else [])
  {
    assert q.sendq + [] == q.sendq;
  }

  lemma ProcessPlainThere(z: Round, ids: Ids, p: Peer, q: Peer, w: seq<Envelope>, v: seq<Envelope>, now: int)
    requires InRound(z, ids, p, q, w, v) && q.phase.Idle? && q.inq != []
    requires !q.inq[0].body.ChangePwdRequest? && (!Preparing(p) ==> !IsElement(ids, q.inq[0].body))
    ensures var q' := Peers.Process(q, now);
            InRound(z, ids, p, q', w, v) && Weight(ids, p, q', w, v) == Weight(ids, p, q, w, v)
  {
    hide InRound, Weight, Peers.Process, Deaf;
    var x, q' := q.inq[0], Peers.Process(q, now);
    assert x in q.inq;
    KnownThere(z, ids, p, q, w, v);
    DeafKeeps(q, now);
    var extra := if x.body.Ping? then [ToSeal(None, Pong(x.body.mId))] else [];
    PopBodies(Element, ids, q.inq);
    ThereFrame(z, ids, p, q, q', w, w, v, extra);
  }

  // ------------------------------------------------------ steps of the round, at q

  lemma SaveThere(z: Round, ids: Ids, p: Peer, q: Peer, w: seq<Envelope>, v: seq<Envelope>)
    requires InRound(z, ids, p, q, w, v) && CanSave(q)
    ensures InRound(z, ids, p, SaveStep(q), w, v)
    ensures Weight(ids, p, SaveStep(q), w, v)
            <= Weight(ids, p, q, w, v) - (if !Preparing(p) && q.phase == Installed(ids.request) then 1 else 0)
  {
    hide Hits, Count, WireGood, ReplyAgrees, Busy;
  }

  lemma PushOut(ids: Ids, sendq: seq<Outgoing>, body: Message, login: Option<Login>)
    ensures var next := sendq + [ToSeal(login, body)];
            && Hits(Answer, ids, OutBodies(next)) == Hits(Answer, ids, OutBodies(sendq)) + (if IsAnswer(ids, body) then 1 else 0)
            && Count(IsReady, next) == Count(IsReady, sendq)
  {
    var o := ToSeal(login, body);
    assert OutBodies(sendq + [o]) == OutBodies(sendq) + [body];
    HitsAppend(Answer, ids, OutBodies(sendq), [body]);
    assert [body][1..] == [];
    PlainQueue(sendq, [o]);
  }

  lemma EmitThere(z: Round, ids: Ids, p: Peer, q: Peer, w: seq<Envelope>, v: seq<Envelope>, m1: nat, m2: nat)
    requires InRound(z, ids, p, q, w, v) && CanEmit(q)
    ensures InRound(z, ids, p, EmitStep(q, m1, m2), w, v)
    ensures Weight(ids, p, EmitStep(q, m1, m2), w, v)
            <= Weight(ids, p, q, w, v) - (if !Preparing(p) && q.phase == Committed(ids.request) then 1 else 0)
  {
    hide Hits, Count, WireGood, ReplyAgrees, Busy;
    PushOut(ids, q.sendq, ChangePwdResponse(q.phase.oMId, true), None);
    CalmThere(p, q, EmitStep(q, m1, m2), w, w, v, [ToSeal(None, ChangePwdResponse(q.phase.oMId, true))]);
  }

  lemma HeadToSeal(q: Peer, p: Peer, v: seq<Envelope>)
    requires Requests(q, p, v) == 0 && q.sendq != []
    ensures q.sendq[0].ToSeal? && q.sendq[0] in q.sendq
  {
    NoRequestHere(q, p, v);
    assert q.sendq[0] in q.sendq;
  }

  lemma PopOut(ids: Ids, sendq: seq<Outgoing>)
    requires sendq != [] && sendq[0].ToSeal?
    ensures Hits(Answer, ids, OutBodies(sendq))
            == (if IsAnswer(ids, sendq[0].body) then 1 else 0) + Hits(Answer, ids, OutBodies(sendq[1..]))
    ensures Count(IsReady, sendq[1..]) == Count(IsReady, sendq)
  {
    assert OutBodies(sendq)[0] == sendq[0].body && OutBodies(sendq)[1..] == OutBodies(sendq[1..]);
  }

  lemma PushWire(ids: Ids, v: seq<Envelope>, e: Envelope)
    requires e.data != []
    ensures Hits(Answer, ids, WireBodies(v + [e]))
            == Hits(Answer, ids, WireBodies(v)) + (if IsAnswer(ids, e.data[0].body) then 1 else 0)
    ensures Count(IsChallenge, v + [e]) == Count(IsChallenge, v) + (if IsChallenge(e) then 1 else 0)
  {
    assert WireBodies(v + [e]) == WireBodies(v) + [e.data[0].body];
    HitsAppend(Answer, ids, WireBodies(v), [e.data[0].body]);
    assert [e.data[0].body][1..] == [] && [e][1..] == [];
    CountAppend(IsChallenge, v, [e]);
  }

  /** What becomes of the message q sends: an answer goes under q's first login. */
  lemma SentThere(z: Round, p: Peer, q: Peer, o: Outgoing, late: bool)
    requires Fixed(z, p, q) && GoodStore(q.mem) && o.ToSeal? && q.disk.to == q.mem.to
    ensures Sent(q, o, late).Some? ==> PlainShape(Sent(q, o, late).value, o.body)
    ensures Sent(q, o, late).Some? && o.login.None? ==> AnswerEnvelope(z, Sent(q, o, late).value)
    ensures Sent(q, o, late).None? && o.login.None? ==> !ReplyAgrees(z.p, z.q)
  {
    hide Busy, GoodTo, GoodFrom;
    assert q.mem.order != [] ==> FirstLogin(q.mem.order).value in q.mem.order;
  }

  predicate PlainShape(e: Envelope, body: Message) {
    |e.data| == 1 && e.data[0].body == body
  }

  lemma TransmitThere(z: Round, ids: Ids, p: Peer, q: Peer, w: seq<Envelope>, v: seq<Envelope>, late: bool)
    requires InRound(z, ids, p, q, w, v) && RequestsGood(q, p, v) && GoodStore(q.mem) && q.sendq != []
    requires q.disk.to == q.mem.to
    ensures var q', v' := q.(sendq := q.sendq[1..]), WithSent(v, Sent(q, q.sendq[0], late));
            && InRound(z, ids, p, q', w, v')
            && Weight(ids, p, q', w, v')
               <= Weight(ids, p, q, w, v) - (if !Preparing(p) && OutHits(ids, q.sendq[0]) then 1 else 0)
  {
    hide Hits, Count, ReplyAgrees, Busy, Sent, RequestsGood, GoodStore, AnswerEnvelope, Requests, PlainBody;
    var o, q', e := q.sendq[0], q.(sendq := q.sendq[1..]), Sent(q, q.sendq[0], late);
    var v' := WithSent(v, e);
    HeadToSeal(q, p, v);
    HeadOut(q, p, v);
    SentThere(z, p, q, o, late);
    PopOut(ids, q.sendq);
    if e.Some? { PushWire(ids, v, e.value); }
    CalmTransmitThere(p, q, q', w, v, e);
    if !Preparing(p) { assert OutGood(ids, o); }
  }

  predicate OutHits(ids: Ids, o: Outgoing) {
    o.ToSeal? && IsAnswer(ids, o.body)
  }

  lemma CalmTransmitThere(p: Peer, q: Peer, q': Peer, w: seq<Envelope>, v: seq<Envelope>, e: Option<Envelope>)
    requires Calm(p, q, w, v) && q' == q.(sendq := q'.sendq) && Count(IsReady, q'.sendq) == Count(IsReady, q.sendq)
    requires e.Some? ==> exists body :: PlainShape(e.value, body) && PlainBody(body)
    ensures Calm(p, q', w, WithSent(v, e))
  {
    hide Deaf, EchoDeaf, Count;
    if e.Some? {
      assert !IsChallenge(e.value);
      CountAppend(IsChallenge, v, [e.value]);
      CountOne(e.value);
    }
  }

  lemma CountOne(e: Envelope)
    requires !IsChallenge(e)
    ensures Count(IsChallenge, [e]) == 0
  {
    assert [e][1..] == [];
  }

  /** Handling the round's ping: the answer is queued. */
  lemma ProcessPingThere(z: Round, ids: Ids, p: Peer, q: Peer, w: seq<Envelope>, v: seq<Envelope>, now: int)
    requires InRound(z, ids, p, q, w, v) && !Preparing(p) && q.phase.Idle? && q.inq != []
    requires q.inq[0].body == Ping(ids.ping)
    ensures var q' := Peers.Process(q, now);
            InRound(z, ids, p, q', w, v) && Weight(ids, p, q', w, v) < Weight(ids, p, q, w, v)
  {
    hide Hits, Count, WireGood, ReplyAgrees, Busy, Deaf, EchoDeaf, Requests, Stage;
    var q' := Peers.Process(q, now);
    assert q.inq[0] in q.inq && forall x :: x in q'.inq ==> x in q.inq;
    PopBodies(Element, ids, q.inq);
    PushOut(ids, q.sendq, Pong(ids.ping), None);
    CalmThere(p, q, q', w, w, v, [ToSeal(None, Pong(ids.ping))]);
  }

  /** The request of a live challenge names the login and the identifier of the round and decodes. */
  lemma RequestLive(p: Peer, q: Peer, w: seq<Envelope>, x: Incoming)
    requires RequestsGood(p, q, w) && GoodStore(p.mem) && x in q.inq && x.body.ChangePwdRequest?
    ensures Live(p) && x.login == LiveLogin(p) && x.body.mId == p.ctx.value.mIdRequest
    ensures GuardAccepts(x.body.pwd) && Base64.Decode(x.body.pwd) == Some(Candidate(p))
  {
    hide Base64.Encode, Base64.Decode, GuardAccepts;
    assert OpenedRequestGood(p, x);
    RequestText(Candidate(p));
  }

  /** Handling the round's request: it is accepted, since the peer is not busy. */
  lemma ProcessRequestThere(z: Round, ids: Ids, p: Peer, q: Peer, w: seq<Envelope>, v: seq<Envelope>, now: int)
    requires InRound(z, ids, p, q, w, v) && RequestsGood(p, q, w) && GoodStore(p.mem)
    requires q.phase.Idle? && q.inq != [] && q.inq[0].body.ChangePwdRequest?
    ensures var q' := Peers.Process(q, now);
            && InRound(z, ids, p, q', w, v) && Weight(ids, p, q', w, v) < Weight(ids, p, q, w, v) && !Preparing(p)
  {
    hide Hits, Count, WireGood, ReplyAgrees, Busy, Deaf, EchoDeaf, Requests, RequestsGood, GoodStore,
         GuardAccepts, Base64.Decode, Peers.Process, Calm;
    var x, q' := q.inq[0], Peers.Process(q, now);
    assert x in q.inq && forall y :: y in q.inq[1..] ==> y in q.inq;
    RequestLive(p, q, w, x);
    NotBusy(z, p, q);
    InstallsThere(q, Candidate(p), now);
    PopBodies(Element, ids, q.inq);
    CalmPop(p, q, q', w, v);
  }

  /** A request that is not refused installs the password it carries. */
  lemma InstallsThere(q: Peer, pwd: Bytes, now: int)
    requires q.inq != [] && q.inq[0].body.ChangePwdRequest? && q.inq[0].login in q.mem.from
    requires !Busy(q.(inq := q.inq[1..])) && GuardAccepts(q.inq[0].body.pwd)
    requires Base64.Decode(q.inq[0].body.pwd) == Some(pwd)
    ensures var x := q.inq[0];
            Peers.Process(q, now) == q.(inq := q.inq[1..], phase := Installed(x.body.mId), mem := q.mem.(
              from := q.mem.from[x.login := WithPassword(q.mem.from[x.login], pwd, now)]))
  {
    hide Busy, GuardAccepts, Base64.Decode;
  }

  lemma NotBusy(z: Round, p: Peer, q: Peer)
    requires Fixed(z, p, q) && q.inq != []
    ensures !Busy(q.(inq := q.inq[1..]))
  {}

  lemma CalmPop(p: Peer, q: Peer, q': Peer, w: seq<Envelope>, v: seq<Envelope>)
    requires Calm(p, q, w, v) && q'.sendq == q.sendq && q'.ctx == q.ctx && forall x :: x in q'.inq ==> x in q.inq
    ensures Calm(p, q', w, v)
  {
    hide Deaf, EchoDeaf;
  }

  lemma HeadThere(p: Peer, q: Peer, w: seq<Envelope>)
    requires RequestsGood(p, q, w) && w != []
    ensures PlainEnvelope(w[0]) || (Live(p) && w[0] == LiveEnvelope(p) && IsChallenge(w[0]))
    ensures PlainEnvelope(w[0]) ==> !IsChallenge(w[0])
    ensures Count(IsChallenge, w) == (if IsChallenge(w[0]) then 1 else 0) + Count(IsChallenge, w[1..])
  {
    assert w[0] in w;
    if !PlainEnvelope(w[0]) { LiveIsChallenge(p); }
  }

  lemma ReceivePlainThere(z: Round, ids: Ids, p: Peer, q: Peer, w: seq<Envelope>, v: seq<Envelope>, late: bool)
    requires InRound(z, ids, p, q, w, v) && RequestsGood(p, q, w) && w != [] && PlainEnvelope(w[0])
    ensures var q' := Peers.Receive(q, w[0], late);
            InRound(z, ids, p, q', w[1..], v) && Weight(ids, p, q', w[1..], v) == Weight(ids, p, q, w, v)
  {
    hide InRound, Weight, Peers.Receive, Deaf, OpenKey, RequestsGood, Hits, Count;
    var e, q' := w[0], Peers.Receive(q, w[0], late);
    HeadThere(p, q, w);
    ReceivesPlain(q, e, late);
    KnownThere(z, ids, p, q, w, v);
    WireDeaf(z, ids, p, q, w, v);
    var more := if q'.inq == q.inq then [] else [Incoming(e.login, e.data[0].body)];
    assert q'.inq == q.inq + more;
    if more != [] { PushIn(Element, ids, q.inq, more[0]); }
    assert q.sendq + [] == q.sendq;
    ThereFrame(z, ids, p, q, q', w, w[1..], v, []);
  }

  lemma WireDeaf(z: Round, ids: Ids, p: Peer, q: Peer, w: seq<Envelope>, v: seq<Envelope>)
    requires InRound(z, ids, p, q, w, v) && w != [] && PlainEnvelope(w[0])
    ensures Deaf(q.ctx, w[0].data[0].body)
  {
    assert w[0] in w && w[0].data[0] in w[0].data;
  }

  /** What q takes from a challenge: one or both of its elements. */
  lemma TakesElements(ids: Ids, p: Peer, q: Peer, late: bool) returns (more: seq<Incoming>)
    requires Live(p) && Has(ids, p) && Matched(p, q) && LiveLogin(p) in q.mem.from
    requires HoldsEither(p.mem.to[LiveLogin(p)], HeldFor(p, q, late))
    ensures var q' := Peers.Receive(q, LiveEnvelope(p), late);
            q'.inq == q.inq + more && q' == q.(inq := q'.inq, extq := q'.extq)
    ensures 1 <= |more| <= 2 && forall x :: x in more ==> IsElement(ids, x.body)
    ensures Hits(Element, ids, InBodies(more)) == |more|
  {
    hide Base64.Encode, OpenKey, ChallengeEnvelope, Opened;
    LiveLoginOf(p);
    ChallengeOpens(p, q, late);
    var l := LiveLogin(p);
    var list := OpenedChallenge(p, HeldFor(p, q, late));
    InternalOf(l, list);
    more := Internal(l, list);
    AllHit(ids, InBodies(more));
  }

  lemma {:induction false} AllHit(ids: Ids, ms: seq<Message>)
    requires forall m :: m in ms ==> IsElement(ids, m)
    ensures Hits(Element, ids, ms) == |ms|
  {
    if ms != [] { AllHit(ids, ms[1..]); }
  }

  lemma ReceiveElementsThere(z: Round, ids: Ids, p: Peer, q: Peer, w: seq<Envelope>, v: seq<Envelope>, late: bool)
    requires InRound(z, ids, p, q, w, v) && RequestsGood(p, q, w) && Matched(p, q) && AgreeEverywhere(p, q)
    requires w != [] && !PlainEnvelope(w[0]) && z.login in p.disk.to && z.login in q.disk.from
    ensures var q' := Peers.Receive(q, w[0], late);
            && InRound(z, ids, p, q', w[1..], v) && Weight(ids, p, q', w[1..], v) < Weight(ids, p, q, w, v) && !Preparing(p)
  {
    hide Hits, Count, WireGood, ReplyAgrees, Busy, Deaf, EchoDeaf, Requests, RequestsGood, Matched, LiveEnvelope,
         AgreeEverywhere, Peers.Receive;
    var q' := Peers.Receive(q, w[0], late);
    HeadThere(p, q, w);
    AgreesAt(p, q, z.login, late);
    var more := TakesElements(ids, p, q, late);
    assert InBodies(q.inq + more) == InBodies(q.inq) + InBodies(more);
    HitsAppend(Element, ids, InBodies(q.inq), InBodies(more));
    CalmReceiveThere(ids, p, q, q', w, v, more);
  }

  predicate HoldsEither(a: Auth, held: Bytes) {
    held == a.pwd || held == a.newPwd
  }

  lemma AgreesAt(p: Peer, q: Peer, l: Login, late: bool)
    requires AgreeEverywhere(p, q) && l in p.mem.to && l in p.disk.to && l in q.mem.from && l in q.disk.from
    ensures HoldsEither(p.mem.to[l], Held(q.mem.from, q.disk.from, l, late))
  {}

  lemma CalmReceiveThere(ids: Ids, p: Peer, q: Peer, q': Peer, w: seq<Envelope>, v: seq<Envelope>, more: seq<Incoming>)
    requires Calm(p, q, w, v) && w != [] && q'.sendq == q.sendq && q'.ctx == q.ctx && q'.inq == q.inq + more
    requires forall x :: x in more ==> IsElement(ids, x.body)
    ensures Calm(p, q', w[1..], v)
  {
    assert forall e :: e in w[1..] ==> e in w;
  }
}
