/** The answer to a challenge goes under the first login of the site, also while that login has an own challenge out. When
    such an answer leaves, whether it opens, and how it is lost although the connection holds. */
module Answers {
  import opened Basics
  import opened Wire
  import opened Credentials
  import opened Peers
  import opened Network
  import opened ChallengeInvariant
  import opened Agreement
  import opened Payloads
  import opened Crossing
  import opened Rotation
  import Rounds
  import Recovery
  import Stale
  import Workload
  import Base64

  // -------------------------------------------------------- under which login it goes

  /** With an own challenge in progress a request is accepted, and answered under a login with a candidate, exactly when
      the first login has one and the second has none. Where the challenge is for the first login itself it is accepted
      exactly when the site has another login: the oldest one then has no candidate, since the scan would have taken it. */
  lemma AnswerUnderPendingIff(n: Net, s: Side)
    requires Reachable(n) && ChallengedLogin(n.At(s)).Some?
    ensures var p := n.At(s);
            !Busy(p) && FirstPending(p)
            <==> FirstPending(p) && NextLogin(p.mem.order).Some? && !Pending(p.mem.to, NextLogin(p.mem.order).value)
    ensures var p := n.At(s);
            FirstLogin(p.mem.order) == ChallengedLogin(p) ==>
              FirstPending(p) && (!Busy(p) <==> FirstLogin(p.mem.order) != Some(p.mem.order[0]))
  {
    hide Reachable, Busy;
    ChallengedIsPending(n, s);
    BusyIff(n.At(s));
    ReachableOldest(n, s);
  }

  lemma BusyIff(p: Peer)
    requires Active(p.ctx) && p.mem.order != []
    ensures !Busy(p) <==> !FirstPending(p)
                          || (NextLogin(p.mem.order).Some? && !Pending(p.mem.to, NextLogin(p.mem.order).value))
  {}

  /** A message without a login opens exactly when the other side uses the first login's password. */
  lemma AnswerOpensIff(n: Net, s: Side, body: Message, lateHere: bool, lateThere: bool)
    requires Reachable(n) && !n.At(s).stopped && n.At(s).mem.order != [] && !body.Application?
    ensures var p, q := n.At(s), n.At(Other(s));
            var f, e := FirstLogin(p.mem.order).value, Sent(p, ToSeal(None, body), lateHere);
            f in p.mem.to && e.Some? && Peers.Receive(q, e.value, lateThere).inq
                       == if SameKey(p, q, f, lateHere, lateThere) then q.inq + [Incoming(f, body)] else q.inq
  {
    hide Direction, AllOlder, DiskLags, ContextGood;
    ReachableInv(n);
    InvAt(n, s);
    var p, q := n.At(s), n.At(Other(s));
    var f := FirstLogin(p.mem.order).value;
    assert f in p.mem.order;
    AnswerOpens(p, q, f, body, lateHere, lateThere);
  }

  lemma AnswerOpens(p: Peer, q: Peer, f: Login, body: Message, lateHere: bool, lateThere: bool)
    requires Matched(p, q) && FirstLogin(p.mem.order) == Some(f) && f in p.mem.to && !body.Application?
    ensures var e := Sent(p, ToSeal(None, body), lateHere);
            e.Some? && Peers.Receive(q, e.value, lateThere).inq
                       == if SameKey(p, q, f, lateHere, lateThere) then q.inq + [Incoming(f, body)] else q.inq
  {
    var e := Sent(p, ToSeal(None, body), lateHere).value;
    assert q.inq + [] == q.inq;
    if f in q.mem.from {
      var sent, held := Held(p.mem.to, p.disk.to, f, lateHere), Held(q.mem.from, q.disk.from, f, lateThere);
      KeysAgree(p.cipher, p.me, q.me, f, sent, held);
      OpenedOne(e.data, OpenKey(q, f, lateThere));
      Rounds.InternalOne(f, body);
    }
  }

  // ---------------------------------------------------------------- over whole runs

  /** The password is one of the entry: its current one, or its candidate. */
  predicate Among(pwd: Bytes, t: Auth) {
    pwd == t.pwd || (t.pending && pwd == t.newPwd)
  }

  /** A request that can still change q's password before what is at index i arrives. */
  predicate Outstanding(q: Peer, w: seq<Envelope>) {
    (exists x :: x in q.inq && IsRequest(x)) || (exists e :: e in w && IsChallenge(e))
  }

  /** q holds one of the entry's two passwords for login f, and can only come to hold the candidate; w is what lies before
      the message on the wire. */
  predicate Tracks(p: Peer, q: Peer, w: seq<Envelope>, f: Login, t: Auth, sure: bool) {
    && f in q.mem.from && f in q.disk.from && Among(q.mem.from[f].pwd, t) && Among(q.disk.from[f].pwd, t)
    && (sure ==> t.pending && q.mem.from[f].pwd == t.newPwd && q.disk.from[f].pwd == t.newPwd)
    && (Live(p) && LiveLogin(p) == f && Outstanding(q, w) ==> t.pending && Candidate(p) == t.newPwd)
  }

  /** A step of the sender: a challenge it has out afterwards it had before, or it is new and still has to leave. */
  lemma SenderTracks(p: Peer, p': Peer, q: Peer, w: seq<Envelope>, f: Login, t: Auth, sure: bool)
    requires Tracks(p, q, w, f, t, sure)
    requires Live(p') ==> (Live(p) && LiveLogin(p') == LiveLogin(p) && Candidate(p') == Candidate(p)) || !Outstanding(q, w)
    ensures Tracks(p', q, w, f, t, sure)
  {
    hide Live, Outstanding;
  }

  /** A step of the addressee that installs nothing. */
  lemma AddresseeTracks(p: Peer, q: Peer, q': Peer, w: seq<Envelope>, w': seq<Envelope>, f: Login, t: Auth, sure: bool)
    requires Tracks(p, q, w, f, t, sure) && q'.mem.from == q.mem.from
    requires q'.disk.from == q.disk.from || q'.disk.from == q.mem.from
    requires Outstanding(q', w') ==> Outstanding(q, w)
    ensures Tracks(p, q', w', f, t, sure)
  {
    hide Live, Outstanding;
  }

  lemma NoneOutstanding(p: Peer, q: Peer, w: seq<Envelope>, w': seq<Envelope>)
    requires RequestsGood(p, q, w) && !Live(p) && forall e :: e in w' ==> e in w
    ensures !Outstanding(q, w')
  {
    hide LiveEnvelope;
    NotLive(p, q, w, []);
    forall e | e in w' ensures !IsChallenge(e) { assert PlainEnvelope(e); }
  }

  lemma ScanLive(p: Peer, now: int, candidate: Bytes)
    requires p.phase.Idle?
    ensures Live(Begin(p, now, candidate)) ==> Begin(p, now, candidate) == p
  {
    hide DueLogin;
  }

  lemma SaveLive(p: Peer)
    requires CanSave(p)
    ensures var p' := SaveStep(p);
            Live(p') ==> Live(p) && LiveLogin(p') == LiveLogin(p) && Candidate(p') == Candidate(p)
  {}

  lemma ProcessLive(p: Peer, now: int)
    requires p.inq != [] && p.phase.Idle?
    ensures var p' := Peers.Process(p, now);
            Live(p') ==> Live(p) && LiveLogin(p') == LiveLogin(p) && Candidate(p') == Candidate(p)
  {
    hide OnRequest;
    var x, p0 := p.inq[0], p.(inq := p.inq[1..]);
    if x.body.ChangePwdRequest? { RequestEffect(p0, x.login, x.body.mId, x.body.pwd, now); }
  }

  lemma EmitLive(p: Peer, m1: nat, m2: nat)
    requires CanEmit(p) && ContextGood(p)
    ensures var p' := EmitStep(p, m1, m2);
            Live(p') ==> !Live(p) || (LiveLogin(p') == LiveLogin(p) && Candidate(p') == Candidate(p))
  {
    hide ChallengeEnvelope;
  }

  lemma TrafficLive(p: Peer, e: Envelope, login: Option<Login>, payload: Bytes, late: bool, rest: seq<Outgoing>)
    ensures var p1, p2, p3 := Peers.Receive(p, e, late), Peers.Send(p, login, payload), p.(sendq := rest);
            Live(p1) == Live(p2) == Live(p3) == Live(p)
            && (Live(p) ==> LiveLogin(p1) == LiveLogin(p2) == LiveLogin(p3) == LiveLogin(p)
                            && Candidate(p1) == Candidate(p2) == Candidate(p3) == Candidate(p))
  {
    hide Opened, Internal, External, OpenKey, SendLogin;
  }

  /** Side s has put the message on the wire at index i, sealed under the password of entry t of login f. */
  predicate TracksAt(n: Net, s: Side, i: nat, f: Login, t: Auth, m: Message, sure: bool) {
    var p, q, c := n.At(s), n.At(Other(s)), n.From(s);
    && !p.stopped && !q.stopped && c.taken <= i < |c.log| && c.log[i] == Envelope(f, [Sealed(SealKey(p, f, t.pwd), m)])
    && Tracks(p, q, c.log[c.taken..i], f, t, sure)
  }

  /** A step of the sender. */
  lemma OwnStepTracks(n: Net, a: Label, s: Side, i: nat, f: Login, t: Auth, m: Message, sure: bool)
    requires Inv(n) && TracksAt(n, s, i, f, t, m, sure) && Enabled(n, a) && Within(a) && a.side == s
    ensures TracksAt(Next(n, a), s, i, f, t, m, sure)
  {
    hide Inv, Tracks, Begin, SaveStep, EmitStep, Peers.Process, Peers.Receive, Peers.Send, Sent, CanSave, CanEmit,
         GoodCandidate, Live, SealKey, RequestsGood, Outstanding;
    var p, q, c := n.At(s), n.At(Other(s)), n.From(s);
    ForTracks(n, s);
    var w, p' := c.log[c.taken..i], Next(n, a).At(s);
    if !Live(p) { NoneOutstanding(p, q, InFlight(c), w); }
    SameSeal(n, a, s, f, t.pwd);
    match a {
      case Scan(_, now, candidate) => ScanLive(p, now, candidate);
      case Process(_, now) => ProcessLive(p, now);
      case Save(_) => SaveLive(p);
      case Emit(_) => EmitLive(p, n.nextId, n.nextId + 1);
      case Transmit(_, _) => TrafficLive(p, Envelope([], []), None, [], false, p.sendq[1..]);
      case Receive(_, late) =>
        TrafficLive(p, n.From(Other(s)).log[n.From(Other(s)).taken], None, [], late, []);
      case Send(_, login, payload) => TrafficLive(p, Envelope([], []), login, payload, false, []);
    }
    SenderTracks(p, p', q, w, f, t, sure);
    SamePart(n, a, s, i);
  }

  lemma ForTracks(n: Net, s: Side)
    requires Inv(n) && !n.At(s).stopped
    ensures GoodChannel(n.From(s)) && GoodChannel(n.From(Other(s)))
    ensures var p, q := n.At(s), n.At(Other(s));
            RequestsGood(p, q, InFlight(n.From(s))) && ContextGood(p) && GoodStore(p.mem) && Matched(p, q)
  {
    hide AgreeEverywhere, AllOlder, RequestsGood, RepliesGood, PingsGood, GoodStore, DiskLags, ContextGood;
    InvAt(n, s);
  }

  predicate SameEnds(p: Peer, p': Peer) {
    p'.me == p.me && p'.remote == p.remote && p'.cipher == p.cipher && p'.stopped == p.stopped
  }

  /** Within a session the ends and the cipher stay, and nobody stops. */
  lemma SameSeal(n: Net, a: Label, s: Side, f: Login, pwd: Bytes)
    requires Enabled(n, a) && Within(a) && a.side == s
    ensures var p, p' := n.At(s), Next(n, a).At(s); SealKey(p', f, pwd) == SealKey(p, f, pwd) && p'.stopped == p.stopped
    ensures Next(n, a).At(Other(s)) == n.At(Other(s))
  {
    hide Begin, SaveStep, EmitStep, Peers.Process, Peers.Receive, Peers.Send, Sent, CanSave, CanEmit, GoodCandidate, Derive;
    var p := n.At(s);
    match a
    case Scan(_, now, candidate) => ScanEnds(p, now, candidate);
    case Process(_, now) =>
      HandleFrame(p.(inq := p.inq[1..]), p.inq[0].login, p.inq[0].body, now);
      ProcessIs(p, now);
    case Save(_) => SaveEnds(p);
    case Emit(_) => EmitEnds(p, n.nextId, n.nextId + 1);
    case Transmit(_, _) =>
    case Receive(_, late) =>
      TrafficEnds(p, n.From(Other(s)).log[n.From(Other(s)).taken], late, None, []);
    case Send(_, login, payload) => TrafficEnds(p, Envelope([], []), false, login, payload);
  }

  lemma ScanEnds(p: Peer, now: int, candidate: Bytes)
    ensures SameEnds(p, Begin(p, now, candidate))
  {
    hide DueLogin;
  }

  lemma SaveEnds(p: Peer)
    requires CanSave(p)
    ensures SameEnds(p, SaveStep(p))
  {}

  lemma EmitEnds(p: Peer, m1: nat, m2: nat)
    requires CanEmit(p)
    ensures SameEnds(p, EmitStep(p, m1, m2))
  {
    hide ChallengeEnvelope;
  }

  lemma TrafficEnds(p: Peer, e: Envelope, late: bool, login: Option<Login>, payload: Bytes)
    ensures SameEnds(p, Peers.Receive(p, e, late)) && SameEnds(p, Peers.Send(p, login, payload))
  {
    hide Opened, Internal, External, OpenKey, SendLogin;
  }

  lemma ProcessIs(p: Peer, now: int)
    requires p.inq != []
    ensures Peers.Process(p, now) == Handle(p.(inq := p.inq[1..]), p.inq[0].login, p.inq[0].body, now)
  {
    hide Handle;
  }

  /** The sender only adds to its wire, behind the message. */
  lemma SamePart(n: Net, a: Label, s: Side, i: nat)
    requires Enabled(n, a) && Within(a) && a.side == s && n.From(s).taken <= i < |n.From(s).log|
    ensures var c, c' := n.From(s), Next(n, a).From(s);
            c'.taken == c.taken && i < |c'.log| && c'.log[i] == c.log[i] && c'.log[c.taken..i] == c.log[c.taken..i]
  {
    hide Begin, SaveStep, EmitStep, Peers.Process, Peers.Receive, Peers.Send, Sent, CanSave, CanEmit, GoodCandidate;
  }

  /** The addressee takes up a message: of the login's passwords only the candidate can take the place of the other. */
  lemma ProcessTracks(p: Peer, q: Peer, w: seq<Envelope>, whole: seq<Envelope>, f: Login, t: Auth, sure: bool, now: int)
    requires Tracks(p, q, w, f, t, sure) && RequestsGood(p, q, whole) && GoodStore(p.mem) && q.inq != [] && q.phase.Idle?
    ensures Tracks(p, Peers.Process(q, now), w, f, t, sure)
  {
    hide RequestsGood, GoodStore, Live, Outstanding, Peers.Process;
    var q' := Peers.Process(q, now);
    if q.inq[0].body.ChangePwdRequest? {
      RequestTracks(p, q, w, whole, f, t, sure, now);
    } else {
      Stale.FromKept(q, now);
      FewerOutstanding(q, q', w);
      AddresseeTracks(p, q, q', w, w, f, t, sure);
    }
  }

  lemma FewerOutstanding(q: Peer, q': Peer, w: seq<Envelope>)
    requires forall x :: x in q'.inq ==> x in q.inq
    ensures Outstanding(q', w) ==> Outstanding(q, w)
  {}

  lemma RequestTracks(p: Peer, q: Peer, w: seq<Envelope>, whole: seq<Envelope>, f: Login, t: Auth, sure: bool, now: int)
    requires Tracks(p, q, w, f, t, sure) && RequestsGood(p, q, whole) && GoodStore(p.mem) && q.inq != [] && q.phase.Idle?
    requires q.inq[0].body.ChangePwdRequest?
    ensures Tracks(p, Peers.Process(q, now), w, f, t, sure)
  {
    hide RequestsGood, GoodStore, Live, Busy, GuardAccepts, Base64.Decode, Outstanding;
    var x, q0 := q.inq[0], q.(inq := q.inq[1..]);
    assert x in q.inq;
    Rounds.RequestLive(p, q, whole, x);
    HasOutstanding(q, w, x);
    FewerOutstanding(q, q0, w);
    var q' := OnRequest(q0, x.login, x.body.mId, x.body.pwd, now);
    RequestEffect(q0, x.login, x.body.mId, x.body.pwd, now);
    FewerOutstanding(q, q', w);
  }

  lemma HasOutstanding(q: Peer, w: seq<Envelope>, x: Incoming)
    requires x in q.inq && IsRequest(x)
    ensures Outstanding(q, w)
  {}

  /** What comes off the wire before the message brings no other request. */
  lemma TakenTracks(p: Peer, q: Peer, w: seq<Envelope>, whole: seq<Envelope>, f: Login, t: Auth, sure: bool, late: bool)
    requires Tracks(p, q, w, f, t, sure) && RequestsGood(p, q, whole) && w != [] && w <= whole
    ensures Tracks(p, Peers.Receive(q, w[0], late), w[1..], f, t, sure)
  {
    hide Live, RequestsGood, Opened, Internal, External, OpenKey;
    var q', e := Peers.Receive(q, w[0], late), w[0];
    Taken(q, e, late);
    assert e == whole[0] && e in w && e in whole;
    if Outstanding(q', w[1..]) && !Outstanding(q, w) {
      if x :| x in q'.inq && IsRequest(x) {
        var d :| d in e.data && d.body == x.body;
        CarriesChallenge(p, q, whole, e, d);
      }
    }
    AddresseeTracks(p, q, q', w, w[1..], f, t, sure);
  }

  lemma CarriesChallenge(p: Peer, q: Peer, w: seq<Envelope>, e: Envelope, d: Sealed)
    requires RequestsGood(p, q, w) && e in w && d in e.data && d.body.ChangePwdRequest?
    ensures IsChallenge(e)
  {
    hide SealKey, Base64.Encode;
  }

  /** A step of the addressee, but for the arrival of the message itself. */
  lemma OtherStepTracks(n: Net, a: Label, s: Side, i: nat, f: Login, t: Auth, m: Message, sure: bool)
    requires Inv(n) && TracksAt(n, s, i, f, t, m, sure) && Enabled(n, a) && Within(a) && a.side == Other(s)
    requires a.Receive? ==> n.From(s).taken < i
    ensures TracksAt(Next(n, a), s, i, f, t, m, sure)
  {
    hide Inv, Tracks, Begin, SaveStep, EmitStep, Peers.Process, Peers.Receive, Peers.Send, Sent, CanSave, CanEmit,
         GoodCandidate, Live, SealKey, RequestsGood, GoodStore, Outstanding;
    var p, q, c := n.At(s), n.At(Other(s)), n.From(s);
    ForTracks(n, s);
    var w, q' := c.log[c.taken..i], Next(n, a).At(Other(s));
    SameSeal(n, a, Other(s), f, t.pwd);
    match a
    case Process(_, now) => ProcessTracks(p, q, w, InFlight(c), f, t, sure, now);
    case Receive(_, late) =>
      assert w[0] == c.log[c.taken] && w[1..] == c.log[c.taken + 1..i] && w <= InFlight(c);
      TakenTracks(p, q, w, InFlight(c), f, t, sure, late);
    case _ =>
      QuietStep(n, a, Other(s));
      FewerOutstanding(q, q', w);
      AddresseeTracks(p, q, q', w, w, f, t, sure);
  }

  lemma QuietStep(n: Net, a: Label, r: Side)
    requires Enabled(n, a) && Within(a) && a.side == r && !a.Process? && !a.Receive?
    ensures var q, q' := n.At(r), Next(n, a).At(r);
            q'.mem.from == q.mem.from && q'.inq == q.inq && (q'.disk.from == q.disk.from || q'.disk.from == q.mem.from)
    ensures Next(n, a).From(Other(r)) == n.From(Other(r))
  {
    hide Begin, SaveStep, EmitStep, Peers.Send, CanSave, CanEmit, GoodCandidate, Sent;
    if !a.Transmit? { Stale.ThreadFrame(n, a); }
  }

  lemma TracksTaken(n: Net, s: Side, i: nat)
    ensures forall f, t, m, sure :: TracksAt(n, s, i, f, t, m, sure) ==> n.From(s).taken <= i
  {}

  lemma StepTracks(n: Net, a: Label, s: Side, i: nat, f: Login, t: Auth, m: Message, sure: bool)
    requires Inv(n) && TracksAt(n, s, i, f, t, m, sure) && Enabled(n, a) && Within(a)
    requires a == Receive(Other(s), true) || a == Receive(Other(s), false) ==> n.From(s).taken < i
    ensures TracksAt(Next(n, a), s, i, f, t, m, sure) && Inv(Next(n, a))
  {
    hide Inv, TracksAt, Next, Enabled;
    StepKeepsInv(n, a);
    if a.side == s { OwnStepTracks(n, a, s, i, f, t, m, sure); } else { OtherStepTracks(n, a, s, i, f, t, m, sure); }
  }

  /** The entry the message is sealed under. */
  function EntryUsed(p: Peer, f: Login, late: bool): Auth
    requires f in p.mem.to
  {
    if late && f in p.disk.to then p.disk.to[f] else p.mem.to[f]
  }

  /** The other side holds the entry's candidate, in memory and on disk. */
  predicate HoldsNew(q: Peer, f: Login, t: Auth) {
    && t.pending && f in q.mem.from && f in q.disk.from
    && q.mem.from[f].pwd == t.newPwd && q.disk.from[f].pwd == t.newPwd
  }

  /** A message without a login leaves under the first login f. */
  predicate Departs(n: Net, s: Side, late: bool, f: Login, m: Message) {
    var p := n.At(s);
    && !p.stopped && p.sendq != [] && p.sendq[0] == ToSeal(None, m) && FirstLogin(p.mem.order) == Some(f)
    && f in p.mem.to && f in n.At(Other(s)).mem.from
  }

  lemma DepartureTracks(n: Net, s: Side, late: bool, f: Login, m: Message)
    requires Inv(n) && Departs(n, s, late, f, m)
    ensures Enabled(n, Transmit(s, late))
    ensures var t := EntryUsed(n.At(s), f, late);
            TracksAt(Next(n, Transmit(s, late)), s, |n.From(s).log|, f, t, m, HoldsNew(n.At(Other(s)), f, t))
  {
    hide Derive, RequestsGood, RepliesGood, PingsGood, AllOlder, GoodStore;
    InvAt(n, s);
    var p, q, c, t := n.At(s), n.At(Other(s)), n.From(s), EntryUsed(n.At(s), f, late);
    AmongBoth(p, q, f, late);
    LiveUsed(p, f, late);
  }

  lemma AmongBoth(p: Peer, q: Peer, f: Login, late: bool)
    requires AgreeEverywhere(p, q) && PeerGood(p) && PeerGood(q) && f in p.mem.to && f in q.mem.from
    ensures f in q.disk.from
    ensures Among(q.mem.from[f].pwd, EntryUsed(p, f, late)) && Among(q.disk.from[f].pwd, EntryUsed(p, f, late))
  {
    hide DiskLags, ContextGood, GoodStore;
  }

  lemma LiveUsed(p: Peer, f: Login, late: bool)
    requires PeerGood(p) && f in p.mem.to
    ensures Live(p) && LiveLogin(p) == f ==> EntryUsed(p, f, late).pending && Candidate(p) == EntryUsed(p, f, late).newPwd
  {
    hide GoodStore;
  }

  /** The arrival: the message opens exactly under the password it was sealed with. */
  lemma Arrival(n: Net, s: Side, i: nat, f: Login, t: Auth, m: Message, sure: bool, late: bool)
    requires Inv(n) && TracksAt(n, s, i, f, t, m, sure) && n.From(s).taken == i && !m.Application?
    ensures var q := n.At(Other(s));
            && f in q.mem.from
            && Peers.Receive(q, n.From(s).log[i], late).inq
               == (if Held(q.mem.from, q.disk.from, f, late) == t.pwd then q.inq + [Incoming(f, m)] else q.inq)
            && Among(Held(q.mem.from, q.disk.from, f, late), t)
            && (sure ==> t.pending && Held(q.mem.from, q.disk.from, f, late) == t.newPwd)
  {
    hide Inv, Live, Outstanding, Opened, Internal, External;
    ForTracks(n, s);
    var p, q, e := n.At(s), n.At(Other(s)), n.From(s).log[i];
    KeysAgree(p.cipher, p.me, q.me, f, t.pwd, Held(q.mem.from, q.disk.from, f, late));
    OpenedOne(e.data, OpenKey(q, f, late));
    Rounds.InternalOne(f, m);
    assert q.inq + [] == q.inq;
  }

  /** The message leaves in step j and arrives in step k of one session. */
  predicate Journey(states: seq<Net>, labels: seq<Label>, s: Side, f: Login, m: Message, j: nat, k: nat) {
    && IsRun(states, labels) && j < k < |labels|
    && labels[j].Transmit? && labels[j].side == s && Departs(states[j], s, labels[j].late, f, m)
    && labels[k].Receive? && labels[k].side == Other(s) && states[k].From(s).taken == |states[j].From(s).log|
    && (forall h :: j < h < k ==> Within(labels[h]))
  }

  lemma TakenStep(n: Net, a: Label, s: Side)
    requires Enabled(n, a) && Within(a)
    ensures Next(n, a).From(s).taken == n.From(s).taken + if a.Receive? && a.side == Other(s) then 1 else 0
  {
    hide Begin, SaveStep, EmitStep, Peers.Process, Peers.Receive, Peers.Send, Sent, CanSave, CanEmit, GoodCandidate;
  }

  lemma {:induction false} TakenGrows(states: seq<Net>, labels: seq<Label>, s: Side, h: nat, k: nat)
    requires IsRun(states, labels) && h <= k <= |labels| && forall i :: h <= i < k ==> Within(labels[i])
    ensures states[h].From(s).taken <= states[k].From(s).taken
  {
    hide Enabled, Next;
    if h < k {
      TakenGrows(states, labels, s, h, k - 1);
      assert Enabled(states[k - 1], labels[k - 1]) && states[k - 1 + 1] == Next(states[k - 1], labels[k - 1]);
      TakenStep(states[k - 1], labels[k - 1], s);
    }
  }

  lemma {:induction false} JourneyTracks(states: seq<Net>, labels: seq<Label>, s: Side, f: Login, m: Message, j: nat, k: nat,
                                         h: nat)
    requires Journey(states, labels, s, f, m, j, k) && Reachable(states[0]) && j < h <= k
    ensures var t := EntryUsed(states[j].At(s), f, labels[j].late);
            && Inv(states[h])
            && TracksAt(states[h], s, |states[j].From(s).log|, f, t, m, HoldsNew(states[j].At(Other(s)), f, t))
  {
    hide Inv, TracksAt, Next, Enabled, Reachable, EntryUsed, HoldsNew;
    assert Enabled(states[h - 1], labels[h - 1]) && states[h - 1 + 1] == Next(states[h - 1], labels[h - 1]);
    if h == j + 1 {
      InvAlong(states, labels, j);
      DepartureTracks(states[j], s, labels[j].late, f, m);
      StepKeepsInv(states[j], labels[j]);
    } else {
      JourneyTracks(states, labels, s, f, m, j, k, h - 1);
      TakenStep(states[h - 1], labels[h - 1], s);
      TakenGrows(states, labels, s, h, k);
      TracksTaken(states[h - 1], s, |states[j].From(s).log|);
      var t := EntryUsed(states[j].At(s), f, labels[j].late);
      StepTracks(states[h - 1], labels[h - 1], s, |states[j].From(s).log|, f, t, m, HoldsNew(states[j].At(Other(s)), f, t));
    }
  }

  lemma {:induction false} InvAlong(states: seq<Net>, labels: seq<Label>, k: nat)
    requires IsRun(states, labels) && Reachable(states[0]) && k <= |labels|
    ensures Inv(states[k])
  {
    hide Inv, Next, Enabled, Reachable;
    if k == 0 {
      ReachableInv(states[0]);
    } else {
      InvAlong(states, labels, k - 1);
      assert Enabled(states[k - 1], labels[k - 1]) && states[k - 1 + 1] == Next(states[k - 1], labels[k - 1]);
      StepKeepsInv(states[k - 1], labels[k - 1]);
    }
  }

  /** Exactly when an answer is lost although the connection holds, over every run: when the first login, under which it
      leaves, has a candidate that differs from its password, and the other side uses the candidate as it arrives. It never
      is when the login has none as it leaves, and always when the other side has installed and saved it by then. */
  lemma AnswerLostIff(states: seq<Net>, labels: seq<Label>, s: Side, f: Login, m: Message, j: nat, k: nat)
    requires Journey(states, labels, s, f, m, j, k) && Reachable(states[0]) && !m.Application?
    ensures var t := EntryUsed(states[j].At(s), f, labels[j].late);
            var q, q' := states[k].At(Other(s)), states[k + 1].At(Other(s));
            && f in q.mem.from
            && var lost := t.pending && Held(q.mem.from, q.disk.from, f, labels[k].late) == t.newPwd != t.pwd;
               && q'.inq == (if lost then q.inq else q.inq + [Incoming(f, m)])
               && (HoldsNew(states[j].At(Other(s)), f, t) && t.newPwd != t.pwd ==> lost)
  {
    hide Inv, Tracks, Enabled, Reachable, EntryUsed, HoldsNew, Peers.Receive;
    JourneyTracks(states, labels, s, f, m, j, k, k);
    var t := EntryUsed(states[j].At(s), f, labels[j].late);
    assert Enabled(states[k], labels[k]) && states[k + 1] == Next(states[k], labels[k]);
    Arrival(states[k], s, |states[j].From(s).log|, f, t, m, HoldsNew(states[j].At(Other(s)), f, t), labels[k].late);
  }

  // --------------------------------------------------------------------- a lost answer

  /** At the start of a session both sides have found a login; side s has found its first one, of several, and the other
      side will take its challenge up. */
  predicate FirstFound(n: Net, s: Side, l: Login, g: Login) {
    var p := n.At(s);
    && Met(n, s, l, g) && BothKnown(n, s, l, g) && Fresh(p, l) && Room(p, n.At(Other(s)), l)
    && FirstLogin(p.mem.order) == Some(l) && p.mem.order[0] != l
  }

  /** Side s has the challenge for its first login out, the other side has installed the candidate, and side s is about to
      take up the other side's challenge. */
  predicate AnswersNext(n: Net, s: Side, l: Login, g: Login) {
    var p, q := n.At(s), n.At(Other(s));
    && Live(p) && LiveLogin(p) == l && FirstLogin(p.mem.order) == Some(l) && Live(q) && LiveLogin(q) == g
    && l in q.mem.from && q.mem.from[l].pwd == Candidate(p) != p.mem.to[l].pwd && q.disk == q.mem
    && TakesUp(n, Process(s, 0))
  }

  /** The other side's challenge is still out, and nothing is on its way to it. */
  predicate AnswerGone(n: Net, s: Side, g: Login) {
    var p, q := n.At(s), n.At(Other(s));
    && !p.stopped && !q.stopped && Live(q) && LiveLogin(q) == g && q.inq == []
    && NothingFrom(n, s) && p.sendq == [] && p.phase.Idle?
  }

  /** From there side s accepts the request although the first login's challenge is out, its answer leaves under that login
      behind the challenge, and it does not open: it is lost without a lost connection. */
  lemma AnswerGetsLost(n: Net, s: Side, l: Login, g: Login) returns (c: Course, d: Course)
    requires Reachable(n) && FirstFound(n, s, l, g)
    ensures Tidy(c) && c.states[0] == n && AnswersNext(End(c), s, l, g)
    ensures Tidy(d) && d.states[0] == n && c.labels + [Process(s, 0)] <= d.labels && AnswerGone(End(d), s, g)
  {
    hide Reachable, IsOrderly, Owing, Live, Peers.Receive, LiveEnvelope, Inv, Met, Room, AnswerEnvelope, Handled, Locked,
         TakesUp, IsElement;
    var f, m, elements;
    c, f, m, elements := ChallengeComes(n, s, l, g);
    var p, q := End(c).At(s), End(c).At(Other(s));
    FreeFirst(n, s, l, g);
    LockedOnly(n.At(s), p);
    InvOf(c);
    BetweenEvents(End(c), s);
    CandidateLength(End(c), Other(s));
    IsTaken(End(c), s, g, elements);
    d := Handles(c, s);
    var answer := AcceptedFree(q, p, elements[0]);
    d := Loses(d, s, l, g, p, q, answer);
  }

  /** The oldest login has no candidate: the scan would have taken it. */
  lemma FreeFirst(n: Net, s: Side, l: Login, g: Login)
    requires Reachable(n) && FirstFound(n, s, l, g)
    ensures !Locked(n.At(s))
  {
    hide Reachable, Room;
    ReachableOldest(n, s);
  }

  lemma IsTaken(n: Net, s: Side, g: Login, elements: seq<Incoming>)
    requires Inv(n) && !n.At(s).stopped && n.At(s).phase.Idle? && n.At(s).inq == elements && elements != []
    requires Live(n.At(s)) && Live(n.At(Other(s))) && LiveLogin(n.At(Other(s))) == g && g in n.At(s).mem.from
    requires IsElement(n.At(Other(s)), elements[0]) && !Locked(n.At(s)) && GoodLength(Candidate(n.At(Other(s))))
    ensures TakesUp(n, Process(s, 0)) && AtElement(n, s) && elements[0].login == g
  {
    hide Inv, Base64.Encode, Locked, Peers.Process, Handled;
    BetweenEvents(n, s);
    if elements[0].body.ChangePwdRequest? { RequestTakenUp(n.At(Other(s)), n.At(s)); }
  }

  /** Without a lock every element is answered. */
  lemma AcceptedFree(q: Peer, p: Peer, x: Incoming) returns (m: Message)
    requires IsElement(q, x) && !Locked(p) && p.inq != [] && p.inq[0] == x && x.login in p.mem.from && p.disk == p.mem
    ensures AnswerTo(q, m)
    ensures var h := Handled(p, x, Candidate(q));
            h == p.(mem := h.mem, disk := h.disk, inq := h.inq, sendq := p.sendq + [ToSeal(None, m)])
            && h.mem.to == p.mem.to && h.mem.order == p.mem.order
  {
    hide Base64.Encode, Locked;
    m := if x.body.Ping? then Pong(q.ctx.value.mIdPing) else ChangePwdResponse(q.ctx.value.mIdRequest, true);
  }

  lemma Loses(c: Course, s: Side, l: Login, g: Login, p: Peer, q: Peer, m: Message) returns (d: Course)
    requires Tidy(c) && NothingFrom(End(c), s) && End(c).At(Other(s)) == q
    requires var p' := End(c).At(s);
             p' == p.(mem := p'.mem, disk := p'.disk, inq := p'.inq, sendq := [ToSeal(None, m)])
             && p'.mem.to == p.mem.to && p'.mem.order == p.mem.order
    requires !p.stopped && p.phase.Idle? && Live(p) && LiveLogin(p) == l
    requires l in p.mem.to && FirstLogin(p.mem.order) == Some(l)
    requires !q.stopped && q.phase.Idle? && Live(q) && LiveLogin(q) == g && q.inq == [] && AnswerTo(q, m)
    requires l in q.mem.from && q.mem.from[l].pwd == Candidate(p) != p.mem.to[l].pwd
    ensures Tidy(d) && d.states[0] == c.states[0] && c.labels <= d.labels && AnswerGone(End(d), s, g)
  {
    hide IsOrderly, Owing, Live, Peers.Receive, Sent, AnswerEnvelope, LiveEnvelope, AnswerTo;
    TidyRun(c);
    NoPayload(q, m);
    var e := StaysClosed(End(c), s, l, m);
    d := LeavesOne(c, s, e);
    assert InFlight(End(d).From(s)) == [e];
    d := TakesOne(d, Other(s));
    EnvelopeOnly(q, End(d).At(Other(s)));
  }

  lemma NoPayload(q: Peer, m: Message)
    requires AnswerTo(q, m)
    ensures !m.Application?
  {}

  /** Sealed under a password the other side has left behind the message does not open. */
  lemma StaysClosed(n: Net, s: Side, l: Login, m: Message) returns (e: Envelope)
    requires Reachable(n) && !n.At(s).stopped && FirstLogin(n.At(s).mem.order) == Some(l) && l in n.At(s).mem.to
    requires !m.Application? && l in n.At(Other(s)).mem.from && n.At(Other(s)).mem.from[l].pwd != n.At(s).mem.to[l].pwd
    ensures Sent(n.At(s), ToSeal(None, m), false) == Some(e)
    ensures var q := n.At(Other(s)); var q' := Peers.Receive(q, e, false); q' == q.(extq := q'.extq)
  {
    hide Reachable, Sent, Peers.Receive;
    AnswerOpensIff(n, s, m, false, false);
    e := Sent(n.At(s), ToSeal(None, m), false).value;
    OnlyQueues(n.At(Other(s)), e);
  }


  // ------------------------------------------------------------------- how it arises

  /** A process with an old login a, whose password is young, and a newer login f that falls due first. */
  function YoungOld(me: SiteId, remote: SiteId, a: Login, f: Login, pwd: Bytes): Peer {
    var entries := map[a := Auth(pwd, [], false, TRIGGER_SECONDS), f := Auth(pwd, [], false, 0)];
    var store := Store([a, f], entries, entries);
    Peer(me, remote, "", store, store, None, false, false, true, [], [], [], Idle)
  }

  lemma YoungOldGood(x: SiteId, y: SiteId, a: Login, f: Login, pwd: Bytes)
    requires GoodLength(pwd) && a != f
    ensures InitialPeer(YoungOld(x, y, a, f, pwd)) && SamePasswords(YoungOld(x, y, a, f, pwd), YoungOld(y, x, a, f, pwd))
    ensures YoungOld(x, y, a, f, pwd).remote == YoungOld(y, x, a, f, pwd).me
  {}

  lemma NewestDue(p: Peer, a: Login, f: Login, pwd: Bytes)
    requires a != f && p == YoungOld(p.me, p.remote, a, f, pwd)
    ensures DueLogin(p.mem.order, p.mem.to, TRIGGER_SECONDS + 1) == Some(f)
  {
    assert [a, f][1..] == [f];
  }

  /** Such a point is reached in the first session of two processes with two logins of which the newer falls due first. */
  lemma FirstFoundIsReachable(x: SiteId, y: SiteId, a: Login, f: Login, pwd: Bytes, here: Bytes, there: Bytes)
    returns (n: Net)
    requires GoodLength(pwd) && a != f && |here| == |there| == |pwd| && here != pwd && there != pwd
    ensures Reachable(n) && FirstFound(n, Left, f, f) && |n.left.mem.order| == 2
  {
    hide Reachable, DueLogin, InitialPeer, SamePasswords, YoungOld;
    var p, q := YoungOld(x, y, a, f, pwd), YoungOld(y, x, a, f, pwd);
    var n0 := Net(p, q, EMPTY, EMPTY, 0);
    YoungOldGood(x, y, a, f, pwd);
    YoungOldGood(y, x, a, f, pwd);
    YoungOldStarts(n0);
    YoungOldIs(p, x, y, a, f, pwd);
    YoungOldIs(q, y, x, a, f, pwd);
    NewestDue(p, a, f, pwd);
    NewestDue(q, a, f, pwd);
    var now := TRIGGER_SECONDS + 1;
    Meets(n0, "", Left, now, here, f, now, there, f);
    var n1 := Next(n0, Connect(""));
    Recovery.ReachableStep(n0, Connect(""));
    var n2 := Next(n1, Scan(Right, now, there));
    Recovery.ReachableStep(n1, Scan(Right, now, there));
    n := Next(n2, Scan(Left, now, here));
    Recovery.ReachableStep(n2, Scan(Left, now, here));
  }

  lemma YoungOldStarts(n: Net)
    requires n.left.remote == n.right.me && n.right.remote == n.left.me && InitialPeer(n.left) && InitialPeer(n.right)
    requires SamePasswords(n.left, n.right) && SamePasswords(n.right, n.left) && n.fromLeft == EMPTY && n.fromRight == EMPTY
    ensures Reachable(n)
  {
    hide InitialPeer, SamePasswords;
    assert forall s :: InitialPeer(n.At(s)) && SamePasswords(n.At(s), n.At(Other(s)));
    assert Initial(n) && IsRun([n], []) && [n][0] == n;
  }

  lemma YoungOldIs(p: Peer, me: SiteId, remote: SiteId, a: Login, f: Login, pwd: Bytes)
    requires p == YoungOld(me, remote, a, f, pwd) && a != f
    ensures p == YoungOld(p.me, p.remote, a, f, pwd) && p.stopped && p.phase.Idle? && p.mem.order == [a, f]
    ensures p.mem.to == p.mem.from == map[a := Auth(pwd, [], false, TRIGGER_SECONDS), f := Auth(pwd, [], false, 0)]
  {}
}
