/** A challenge no answer reaches. The answers of a side go under its first login; where the other side does not know that
    login, or holds its candidate already, they stay closed until the password has been switched. The only way out within
    a session is that the answering side's own challenge is for that login from the start and can be answered itself. */
module Unanswered {
  import opened Basics
  import opened Wire
  import opened Credentials
  import opened Peers
  import opened Network
  import opened ChallengeInvariant
  import opened Agreement
  import Rounds
  import Stale
  import Crossing
  import Workload
  import Base64

  // ------------------------------------------------------------------- what is on its way

  /** An element of a challenge, an answer to one, or something else. */
  datatype Item = Ask | Reply | Rest

  function Body(m: Message): Item {
    match m
    case ChangePwdRequest(_, _) => Ask
    case Ping(_) => Ask
    case ChangePwdResponse(_, _) => Reply
    case Pong(_) => Reply
    case _ => Rest
  }

  function OnWire(e: Envelope): Item {
    if e.data == [] then Rest else Body(e.data[0].body)
  }

  function Queued(o: Outgoing): Item {
    if o.Ready? then OnWire(o.envelope) else Body(o.body)
  }

  function Opened(inq: seq<Incoming>): seq<Item> {
    seq(|inq|, i requires 0 <= i < |inq| => Body(inq[i].body))
  }

  /** What one side has put on its way, in order: on the wire and in its queue. */
  function Items(w: seq<Envelope>, sendq: seq<Outgoing>): seq<Item> {
    seq(|w|, i requires 0 <= i < |w| => OnWire(w[i])) + seq(|sendq|, i requires 0 <= i < |sendq| => Queued(sendq[i]))
  }

  /** With what the other side has opened of it, and not taken up. */
  function Line(inq: seq<Incoming>, w: seq<Envelope>, sendq: seq<Outgoing>): seq<Item> {
    Opened(inq) + Items(w, sendq)
  }

  /** No element of a challenge is behind an answer. */
  predicate AsksFirst(t: seq<Item>) {
    forall i, j :: 0 <= i < j < |t| && t[j] == Ask ==> t[i] != Reply
  }

  /** Every answer has a challenge behind it. */
  predicate AskFollows(t: seq<Item>) {
    forall i :: 0 <= i < |t| && t[i] == Reply ==> exists j :: i < j < |t| && t[j] == Ask
  }

  lemma ItemsPush(w: seq<Envelope>, sendq: seq<Outgoing>, o: Outgoing)
    ensures Items(w, sendq + [o]) == Items(w, sendq) + [Queued(o)]
  {}

  lemma LinePush(inq: seq<Incoming>, w: seq<Envelope>, sendq: seq<Outgoing>, o: Outgoing)
    ensures Line(inq, w, sendq + [o]) == Line(inq, w, sendq) + [Queued(o)]
  {
    ItemsPush(w, sendq, o);
    assert Opened(inq) + (Items(w, sendq) + [Queued(o)]) == Opened(inq) + Items(w, sendq) + [Queued(o)];
  }

  lemma ItemsMove(w: seq<Envelope>, sendq: seq<Outgoing>, e: Envelope)
    requires sendq != [] && OnWire(e) == Queued(sendq[0])
    ensures Items(w + [e], sendq[1..]) == Items(w, sendq)
  {}

  /** t is s without its element m. */
  predicate Without(s: seq<Item>, t: seq<Item>, m: nat) {
    m < |s| == |t| + 1 && forall i :: 0 <= i < |t| ==> t[i] == s[if i < m then i else i + 1]
  }

  lemma ItemsDrop(w: seq<Envelope>, sendq: seq<Outgoing>)
    requires sendq != []
    ensures Without(Items(w, sendq), Items(w, sendq[1..]), |w|) && Items(w, sendq)[|w|] == Queued(sendq[0])
  {}

  lemma LineDrop(inq: seq<Incoming>, w: seq<Envelope>, sendq: seq<Outgoing>)
    requires sendq != []
    ensures Without(Line(inq, w, sendq), Line(inq, w, sendq[1..]), |inq| + |w|)
  {}

  lemma Fewer(s: seq<Item>, t: seq<Item>, m: nat)
    requires Without(s, t, m)
    ensures (AsksFirst(s) ==> AsksFirst(t)) && forall x :: x in t ==> x in s
  {
    forall i, j | AsksFirst(s) && 0 <= i < j < |t| && t[j] == Ask ensures t[i] != Reply {
      assert t[i] == s[if i < m then i else i + 1] && t[j] == s[if j < m then j else j + 1];
    }
  }

  lemma StillFollows(s: seq<Item>, t: seq<Item>, m: nat)
    requires Without(s, t, m) && s[m] != Ask && AskFollows(s)
    ensures AskFollows(t)
  {
    forall i | 0 <= i < |t| && t[i] == Reply ensures exists j :: i < j < |t| && t[j] == Ask {
      var i' := if i < m then i else i + 1;
      assert s[i'] == t[i];
      var j' :| i' < j' < |s| && s[j'] == Ask;
      assert t[if j' < m then j' else j' - 1] == Ask;
    }
  }

  lemma FollowsPop(s: seq<Item>)
    requires AskFollows(s) && s != []
    ensures AskFollows(s[1..])
  {
    forall i | 0 <= i < |s[1..]| && s[1..][i] == Reply ensures exists j :: i < j < |s[1..]| && s[1..][j] == Ask {
      assert s[i + 1] == Reply;
      var j :| i + 1 < j < |s| && s[j] == Ask;
      assert s[1..][j - 1] == Ask;
    }
  }

  lemma FollowsPush(s: seq<Item>, x: Item)
    requires AskFollows(s) && x == Rest
    ensures AskFollows(s + [x])
  {
    var t := s + [x];
    forall i | 0 <= i < |t| && t[i] == Reply ensures exists j :: i < j < |t| && t[j] == Ask {
      assert s[i] == t[i];
      var j :| i < j < |s| && s[j] == Ask;
      assert t[j] == Ask;
    }
  }

  lemma FollowsAsk(s: seq<Item>)
    ensures AskFollows(s + [Ask])
  {
    assert (s + [Ask])[|s|] == Ask;
  }

  lemma FollowsNone(s: seq<Item>)
    requires AskFollows(s) && Ask !in s
    ensures Reply !in s
  {}

  // ----------------------------------------------------------------- the answers of q

  /** p has its challenge for login l under way, and these credentials in the TO direction. */
  predicate Asking(p: Peer, l: Login, to: map<Login, Auth>) {
    && !p.stopped && !p.phase.Switched? && p.mem.to == to && Active(p.ctx) && p.ctx.value.auth == Some(l)
  }

  /** p knows q's login f and has its candidate t already: it has left the password behind. */
  predicate Closed(p: Peer, f: Login, t: Auth) {
    && t.pending && t.newPwd != t.pwd && f in p.mem.from && f in p.disk.from
    && p.mem.from[f].pwd == t.newPwd && p.disk.from[f].pwd == t.newPwd
  }

  /** An answer of q that leaves now stays closed at p. */
  predicate Shield(p: Peer, q: Peer, f: Login, t: Auth) {
    f in p.mem.from ==> f in q.mem.to && q.mem.to[f] == t && Closed(p, f, t)
  }

  predicate ReplyUnder(p: Peer, q: Peer, f: Login, t: Auth, e: Envelope) {
    OnWire(e) == Reply ==>
      |e.data| == 1 && e.login == f && (f in p.mem.from ==> e.data[0].key == SealKey(q, f, t.pwd))
  }

  predicate NoReply(p: Peer) {
    forall x :: x in p.inq ==> Body(x.body) != Reply
  }

  /** The answers of q go under its first login f, and none has been opened. */
  predicate Muted(p: Peer, q: Peer, v: seq<Envelope>, f: Login, t: Auth) {
    && (FirstLogin(q.mem.order) == Some(f) || q.mem.order == []) && NoReply(p)
    && (forall e :: e in v ==> ReplyUnder(p, q, f, t, e))
    && (forall o :: o in q.sendq && o.ToSeal? && Body(o.body) == Reply ==> o.login.None?)
  }

  /** Whether an answer of q is on its way, or about to be queued. */
  predicate HasReply(q: Peer, v: seq<Envelope>) {
    Reply in Items(v, q.sendq) || q.phase.Installed? || q.phase.Committed?
  }

  // ------------------------------------------------------- steps of the addressee of the answers

  lemma MutedFrame(p: Peer, p': Peer, q: Peer, v: seq<Envelope>, f: Login, t: Auth)
    requires Muted(p, q, v, f, t) && p'.mem.from.Keys == p.mem.from.Keys && forall x :: x in p'.inq ==> x in p.inq
    ensures Muted(p', q, v, f, t)
  {
    MutedWith(p, p', q, v, v, f, t);
  }

  lemma MutedWith(p: Peer, p': Peer, q: Peer, v: seq<Envelope>, v': seq<Envelope>, f: Login, t: Auth)
    requires Muted(p, q, v, f, t) && p'.mem.from.Keys == p.mem.from.Keys && NoReply(p') && forall e :: e in v' ==> e in v
    ensures Muted(p', q, v', f, t)
  {
    assert f in p'.mem.from <==> f in p.mem.from;
  }

  lemma MutedReceive(p: Peer, q: Peer, v: seq<Envelope>, f: Login, t: Auth, late: bool)
    requires Muted(p, q, v, f, t) && v != [] && Matched(q, p) && RequestsGood(q, p, v)
    requires OnWire(v[0]) == Reply ==> Shield(p, q, f, t)
    ensures Muted(Peers.Receive(p, v[0], late), q, v[1..], f, t)
  {
    hide RequestsGood, Wire.Opened, Internal, External, OpenKey;
    var p', e := Peers.Receive(p, v[0], late), v[0];
    assert e in v && ReplyUnder(p, q, f, t, e);
    Taken(p, e, late);
    forall x | x in p'.inq ensures Body(x.body) != Reply {
      if x !in p.inq {
        if OnWire(e) == Reply {
          StaysClosed(p, q, f, t, e, late);
        } else {
          var d :| d in e.data && d.body == x.body;
          NotAReply(q, p, v, e, d);
        }
      }
    }
    MutedWith(p, p', q, v, v[1..], f, t);
  }

  lemma StaysClosed(p: Peer, q: Peer, f: Login, t: Auth, e: Envelope, late: bool)
    requires Matched(q, p) && OnWire(e) == Reply && ReplyUnder(p, q, f, t, e) && Shield(p, q, f, t)
    ensures Peers.Receive(p, e, late).inq == p.inq
  {
    if f in p.mem.from {
      KeysAgree(p.cipher, q.me, p.me, f, t.pwd, t.newPwd);
      OpenedOne(e.data, OpenKey(p, f, late));
      assert p.inq + [] == p.inq;
    }
  }

  lemma NotAReply(q: Peer, p: Peer, v: seq<Envelope>, e: Envelope, d: Sealed)
    requires RequestsGood(q, p, v) && e in v && d in e.data && OnWire(e) != Reply
    ensures Body(d.body) != Reply
  {
    hide Base64.Encode, SealKey;
  }

  /** p goes on with its challenge. */
  lemma ScanAsks(p: Peer, l: Login, to: map<Login, Auth>, now: int, candidate: Bytes)
    requires Asking(p, l, to)
    ensures Begin(p, now, candidate) == p
  {}

  lemma SaveAsks(p: Peer, l: Login, to: map<Login, Auth>)
    requires Asking(p, l, to) && CanSave(p)
    ensures var p' := SaveStep(p);
            && Asking(p', l, to) && p'.mem == p.mem && p'.inq == p.inq && p'.sendq == p.sendq
            && p'.disk == p.mem && (Rounds.Preparing(p') <==> Rounds.Preparing(p))
  {}

  lemma EmitAsks(p: Peer, l: Login, to: map<Login, Auth>, m1: nat, m2: nat)
    requires Asking(p, l, to) && CanEmit(p) && ContextGood(p)
    ensures var p' := EmitStep(p, m1, m2);
            && Asking(p', l, to) && p'.mem == p.mem && p'.inq == p.inq && p'.disk == p.disk && !Rounds.Preparing(p')
            && |p'.sendq| == |p.sendq| + 1 && p'.sendq == p.sendq + [p'.sendq[|p.sendq|]]
            && Queued(p'.sendq[|p.sendq|]) == (if p.phase.Stored? then Ask else Reply)
            && (p.phase.Committed? ==> p'.sendq[|p.sendq|].ToSeal? && p'.sendq[|p.sendq|].login.None?)
            && (p.phase.Stored? ==> p'.sendq[|p.sendq|].Ready?) && p'.phase.Idle? && p'.stopped == p.stopped
            && p'.ctx.Some? && p'.ctx.value.auth == Some(l) && (p.phase.Stored? || p.phase.Committed?)
  {
    hide Base64.Encode, SealKey;
  }

  /** What taking up a message that is no answer does. */
  predicate TakesNoReply(p: Peer, p': Peer, x: Incoming) {
    && p.inq != [] && p'.ctx == p.ctx && p'.mem.to == p.mem.to && p'.mem.order == p.mem.order
    && p'.mem.from.Keys == p.mem.from.Keys
    && p'.disk == p.disk && p'.stopped == p.stopped && p'.me == p.me && p'.remote == p.remote && p'.cipher == p.cipher
    && p'.inq == p.inq[1..]
    && (p'.phase.Idle? || (p'.phase.Installed? && x.body.ChangePwdRequest? && p'.sendq == p.sendq))
    && (!x.body.ChangePwdRequest? ==> p'.mem.from == p.mem.from)
    && (p'.sendq == p.sendq
        || (|p'.sendq| == |p.sendq| + 1 && p'.sendq == p.sendq + [p'.sendq[|p.sendq|]] && Body(x.body) == Ask
            && p'.sendq[|p.sendq|].ToSeal? && p'.sendq[|p.sendq|].login.None? && Queued(p'.sendq[|p.sendq|]) == Reply))
  }

  lemma ProcessAsks(p: Peer, now: int)
    requires p.inq != [] && p.phase.Idle? && Body(p.inq[0].body) != Reply
    ensures TakesNoReply(p, Peers.Process(p, now), p.inq[0])
  {
    hide OnRequest;
    var x, p0 := p.inq[0], p.(inq := p.inq[1..]);
    if x.body.ChangePwdRequest? {
      RequestEffect(p0, x.login, x.body.mId, x.body.pwd, now);
      RequestAnswers(p0, x.login, x.body.mId, x.body.pwd, now);
    }
  }

  lemma RequestAnswers(p: Peer, l: Login, m: nat, text: string, now: int)
    requires p.phase.Idle?
    ensures var p' := OnRequest(p, l, m, text, now); p'.phase.Idle? || p'.sendq == p.sendq
  {
    hide Busy, GuardAccepts, Base64.Decode;
  }

  /** Taking up a request of q installs q's candidate, which changes nothing where p has left q's password behind. */
  lemma ShieldStays(p: Peer, q: Peer, v: seq<Envelope>, f: Login, t: Auth, now: int)
    requires Shield(p, q, f, t) && RequestsGood(q, p, v) && GoodStore(q.mem) && p.inq != [] && p.phase.Idle?
    requires Body(p.inq[0].body) != Reply
    ensures Shield(Peers.Process(p, now), q, f, t)
  {
    hide RequestsGood, GoodStore, OnRequest;
    var x, p0, p' := p.inq[0], p.(inq := p.inq[1..]), Peers.Process(p, now);
    assert x in p.inq;
    if x.body.ChangePwdRequest? {
      Rounds.RequestLive(q, p, v, x);
      InstallsOnly(p0, x.login, x.body.mId, x.body.pwd, Candidate(q), now);
      CandidateOf(q, x.login);
    }
  }

  lemma CandidateOf(q: Peer, l: Login)
    requires Live(q) && LiveLogin(q) == l
    ensures l in q.mem.to && Candidate(q) == q.mem.to[l].newPwd
  {}

  lemma InstallsOnly(p: Peer, l: Login, m: nat, text: string, pwd: Bytes, now: int)
    requires Base64.Decode(text) == Some(pwd)
    ensures var p' := OnRequest(p, l, m, text, now);
            && p'.disk == p.disk && p'.mem.from.Keys == p.mem.from.Keys
            && forall k :: k in p.mem.from ==>
                 p'.mem.from[k].pwd == if k == l && p'.mem.from != p.mem.from then pwd else p.mem.from[k].pwd
  {
    hide Busy, GuardAccepts, Base64.Decode;
  }

  // -------------------------------------------------------------- steps of the answering side

  /** q queues at most one more message. */
  lemma MutedQueue(p: Peer, q: Peer, q': Peer, v: seq<Envelope>, f: Login, t: Auth)
    requires Muted(p, q, v, f, t) && q'.mem.order == q.mem.order
    requires q'.me == q.me && q'.remote == q.remote && q'.cipher == q.cipher
    requires q'.sendq == q.sendq
             || (|q'.sendq| == |q.sendq| + 1 && q'.sendq == q.sendq + [q'.sendq[|q.sendq|]]
                 && (q'.sendq[|q.sendq|].ToSeal? && Body(q'.sendq[|q.sendq|].body) == Reply ==>
                       q'.sendq[|q.sendq|].login.None?))
    ensures Muted(p, q', v, f, t)
  {
    hide Derive;
  }

  /** The password an answer of q is sealed with is the one that p has left behind. */
  lemma SealedOld(p: Peer, q: Peer, f: Login, t: Auth, late: bool)
    requires PeerGood(q) && Shield(p, q, f, t) && f in p.mem.from
    ensures Held(q.mem.to, q.disk.to, f, late) == t.pwd
  {
    hide GoodStore, ContextGood;
  }

  lemma MutedTransmit(p: Peer, q: Peer, v: seq<Envelope>, f: Login, t: Auth, late: bool)
    requires Muted(p, q, v, f, t) && RequestsGood(q, p, v) && q.sendq != []
    requires Queued(q.sendq[0]) == Reply && f in p.mem.from && f in q.mem.to ==> Held(q.mem.to, q.disk.to, f, late) == t.pwd
    ensures Muted(p, q.(sendq := q.sendq[1..]), WithSent(v, Sent(q, q.sendq[0], late)), f, t)
  {
    hide Derive, Base64.Encode;
    var o := q.sendq[0];
    assert o in q.sendq;
    SealsOne(q, o, late);
  }

  lemma SealsOne(q: Peer, o: Outgoing, late: bool)
    ensures Sent(q, o, late).Some? ==> OnWire(Sent(q, o, late).value) == Queued(o)
  {
    hide Derive;
  }

  /** Nothing of a challenge is in the line of an envelope that is none. */
  lemma WireItems(q: Peer, p: Peer, v: seq<Envelope>)
    requires RequestsGood(q, p, v)
    ensures forall e :: e in v ==> (OnWire(e) == Ask <==> IsChallenge(e))
    ensures forall o :: o in q.sendq ==> (Queued(o) == Ask <==> o.Ready?)
  {
    hide Base64.Encode, SealKey;
  }

  lemma NoneOnWay(q: Peer, p: Peer, v: seq<Envelope>)
    requires RequestsGood(q, p, v) && Requests(q, p, v) == 0
    ensures Ask !in Items(v, q.sendq)
  {
    hide RequestsGood;
    WireItems(q, p, v);
    CountZero(IsChallenge, v);
    CountZero(IsReady, q.sendq);
    var s := Items(v, q.sendq);
    forall i | 0 <= i < |s| ensures s[i] != Ask {
      if i < |v| { assert v[i] in v; } else { assert q.sendq[i - |v|] in q.sendq; }
    }
  }

  /** What the addressee of a line opens of its first envelope is of its sort. */
  lemma LineTaken(p: Peer, q: Peer, w: seq<Envelope>, late: bool)
    requires RequestsGood(p, q, w) && w != [] && AsksFirst(Line(q.inq, w, p.sendq))
    ensures var q' := Peers.Receive(q, w[0], late);
            var a, b := Line(q.inq, w, p.sendq), Line(q'.inq, w[1..], p.sendq);
            AsksFirst(b) && forall x :: x in b ==> x in a
  {
    hide Wire.Opened, Internal, External, OpenKey, RequestsGood;
    var q', e := Peers.Receive(q, w[0], late), w[0];
    var a, b, n, m := Line(q.inq, w, p.sendq), Line(q'.inq, w[1..], p.sendq), |q.inq|, |q'.inq|;
    Grows(q, e, late);
    forall i | n <= i < m ensures b[i] == a[n] {
      assert q'.inq[i] in q'.inq[n..];
      var d :| d in e.data && d.body == q'.inq[i].body;
      assert e in w;
      SameSort(p, q, w, e, d);
    }
    assert forall i :: 0 <= i < n ==> b[i] == a[i];
    assert forall i :: m <= i < |b| ==> b[i] == a[i - m + n + 1];
    Mapped(a, b, n, m);
  }

  lemma Mapped(a: seq<Item>, b: seq<Item>, n: nat, m: nat)
    requires n <= m <= |b| && n < |a| && |b| - m == |a| - n - 1 && AsksFirst(a)
    requires forall i :: 0 <= i < n ==> b[i] == a[i]
    requires forall i :: n <= i < m ==> b[i] == a[n]
    requires forall i :: m <= i < |b| ==> b[i] == a[i - m + n + 1]
    ensures AsksFirst(b) && forall x :: x in b ==> x in a
  {
    forall i, j | 0 <= i < j < |b| && b[j] == Ask ensures b[i] != Reply {
      var i' := if i < n then i else if i < m then n else i - m + n + 1;
      var j' := if j < n then j else if j < m then n else j - m + n + 1;
      assert b[i] == a[i'] && b[j] == a[j'];
    }
  }

  lemma Grows(q: Peer, e: Envelope, late: bool)
    ensures var q' := Peers.Receive(q, e, late);
            |q.inq| <= |q'.inq| && q'.inq[..|q.inq|] == q.inq
            && forall x :: x in q'.inq[|q.inq|..] ==> exists d :: d in e.data && d.body == x.body
  {
    hide OpenKey;
    if e.login in q.mem.from {
      var list := Wire.Opened(e.data, OpenKey(q, e.login, late));
      OpenedBodies(e.data, OpenKey(q, e.login, late));
      InternalBodies(e.login, list);
      assert (q.inq + Internal(e.login, list))[|q.inq|..] == Internal(e.login, list);
    }
  }

  lemma SameSort(p: Peer, q: Peer, w: seq<Envelope>, e: Envelope, d: Sealed)
    requires RequestsGood(p, q, w) && e in w && d in e.data
    ensures Body(d.body) == OnWire(e)
  {
    hide Base64.Encode, SealKey;
  }

  // -------------------------------------------------- an answer leaves before the password changes

  /** p's challenge is for login l and q's first one for g; f is q's first login with its entry, and to and other are the
      TO entries of p and, at the start, of q. */
  datatype Case = Case(l: Login, g: Login, f: Login, entry: Auth, to: map<Login, Auth>, other: map<Login, Auth>)

  /** q's challenge for login f is out, or has just been completed. */
  predicate Engaged(q: Peer, f: Login) {
    Active(q.ctx) && q.ctx.value.auth == Some(f) && !Rounds.Preparing(q)
  }

  /** p's challenge is taken up by q before any answer of p is, and q's answers to it are queued before q can challenge f:
      as long as one is on its way q has the old password of f, and a challenge for f is behind it. */
  predicate Behind(z: Case, p: Peer, q: Peer, w: seq<Envelope>, v: seq<Envelope>) {
    var line, answers := Line(q.inq, w, p.sendq), Items(v, q.sendq);
    && AsksFirst(line) && (Rounds.Preparing(p) ==> Ask !in line && Reply !in line)
    && (Rounds.Preparing(p) || Ask in line ==> Asking(q, z.g, z.other) && Shield(p, q, z.f, z.entry))
    && (HasReply(q, v) ==> Shield(p, q, z.f, z.entry))
    && (q.phase.Installed? || q.phase.Committed? ==> !Engaged(q, z.f))
    && (Engaged(q, z.f) ==> AskFollows(answers))
  }

  /** p's line is the same, has one more item, or one less; q's has lost at most its head. */
  lemma HereFrame(z: Case, p: Peer, p': Peer, q: Peer, w: seq<Envelope>, w': seq<Envelope>, v: seq<Envelope>,
                  v': seq<Envelope>, x: Item, m: nat)
    requires Behind(z, p, q, w, v) && (Rounds.Preparing(p') ==> Rounds.Preparing(p))
    requires var a, b := Line(q.inq, w, p.sendq), Line(q.inq, w', p'.sendq);
             b == a || (b == a + [x] && x != Ask && (Rounds.Preparing(p') ==> x == Rest)) || Without(a, b, m)
    requires Shield(p, q, z.f, z.entry) ==> Shield(p', q, z.f, z.entry)
    requires v' == v || (v != [] && v' == v[1..])
    ensures Behind(z, p', q, w', v')
  {
    hide Asking, Shield, Engaged, Line, Items, HasReply;
    var a, b := Line(q.inq, w, p.sendq), Line(q.inq, w', p'.sendq);
    if Without(a, b, m) { Fewer(a, b, m); }
    if v' != v { TailItems(q, v); }
    SameHas(q, v, v');
  }

  lemma TailItems(q: Peer, v: seq<Envelope>)
    requires v != []
    ensures Items(v, q.sendq) != [] && Items(v[1..], q.sendq) == Items(v, q.sendq)[1..]
    ensures AskFollows(Items(v, q.sendq)) ==> AskFollows(Items(v[1..], q.sendq))
  {
    var s := Items(v, q.sendq);
    assert Items(v[1..], q.sendq) == s[1..];
    if AskFollows(s) { FollowsPop(s); }
  }

  lemma SameHas(q: Peer, v: seq<Envelope>, v': seq<Envelope>)
    requires v' == v || (v != [] && v' == v[1..])
    ensures HasReply(q, v') ==> HasReply(q, v)
  {
    if v' != v {
      TailItems(q, v);
      assert forall x :: x in Items(v, q.sendq)[1..] ==> x in Items(v, q.sendq);
    }
  }

  /** p's own challenge leaves: nothing was on its way before. */
  lemma HereAsks(z: Case, p: Peer, p': Peer, q: Peer, w: seq<Envelope>, v: seq<Envelope>)
    requires Behind(z, p, q, w, v) && Rounds.Preparing(p) && !Rounds.Preparing(p')
    requires Line(q.inq, w, p'.sendq) == Line(q.inq, w, p.sendq) + [Ask] && p'.mem.from == p.mem.from && p'.disk == p.disk
    ensures Behind(z, p', q, w, v)
  {
    hide Asking, Engaged, Line, Items, HasReply;
  }

  // ----------------------------------------------------------------- the same, steps of q

  lemma ThereScan(z: Case, p: Peer, q: Peer, w: seq<Envelope>, v: seq<Envelope>, now: int, candidate: Bytes)
    requires Behind(z, p, q, w, v) && q.phase.Idle?
    ensures Behind(z, p, Begin(q, now, candidate), w, v)
  {
    hide DueLogin, Line, Items;
    var q' := Begin(q, now, candidate);
    if !Active(q.ctx) {
      if q'.sendq != q.sendq { ItemsPush(v, q.sendq, ToSeal(None, AllClear)); }
      assert q'.inq == q.inq;
    }
  }

  lemma ThereSave(z: Case, p: Peer, q: Peer, w: seq<Envelope>, v: seq<Envelope>)
    requires Behind(z, p, q, w, v) && CanSave(q) && ContextGood(q)
    ensures Behind(z, p, SaveStep(q), w, v)
  {
    hide Line, Items, Closed;
  }

  lemma ThereEmit(z: Case, p: Peer, q: Peer, w: seq<Envelope>, v: seq<Envelope>, m1: nat, m2: nat)
    requires Behind(z, p, q, w, v) && CanEmit(q) && ContextGood(q)
    ensures Behind(z, p, EmitStep(q, m1, m2), w, v)
  {
    hide Line, Items, Closed, ChallengeEnvelope, AskFollows;
    var q' := EmitStep(q, m1, m2);
    var o := q'.sendq[|q.sendq|];
    assert q'.sendq == q.sendq + [o];
    ItemsPush(v, q.sendq, o);
    if q.phase.Stored? {
      AsksItem(q, q.phase.login, q.mem.to[q.phase.login], m1, m2);
      FollowsAsk(Items(v, q.sendq));
    }
  }

  lemma AsksItem(q: Peer, l: Login, a: Auth, m1: nat, m2: nat)
    ensures OnWire(ChallengeEnvelope(q, l, a, m1, m2)) == Ask
  {
    hide Base64.Encode, SealKey;
  }

  lemma ThereTransmit(z: Case, p: Peer, q: Peer, w: seq<Envelope>, v: seq<Envelope>, late: bool)
    requires Behind(z, p, q, w, v) && RequestsGood(q, p, v) && q.sendq != []
    ensures Behind(z, p, q.(sendq := q.sendq[1..]), w, WithSent(v, Sent(q, q.sendq[0], late)))
  {
    hide Line, Items, Closed, Sent, AskFollows, AsksFirst, RequestsGood;
    var o, q' := q.sendq[0], q.(sendq := q.sendq[1..]);
    var v' := WithSent(v, Sent(q, o, late));
    SealsOne(q, o, late);
    if Sent(q, o, late).Some? {
      ItemsMove(v, q.sendq, Sent(q, o, late).value);
    } else {
      ItemsDrop(v, q.sendq);
      var a, b := Items(v, q.sendq), Items(v, q'.sendq);
      Fewer(a, b, |v|);
      WireItems(q, p, v);
      assert o in q.sendq;
      AlwaysReady(q, o, late);
      if AskFollows(a) { StillFollows(a, b, |v|); }
    }
  }

  lemma AlwaysReady(q: Peer, o: Outgoing, late: bool)
    ensures o.Ready? ==> Sent(q, o, late).Some?
  {}

  lemma ThereReceive(z: Case, p: Peer, q: Peer, w: seq<Envelope>, v: seq<Envelope>, late: bool)
    requires Behind(z, p, q, w, v) && RequestsGood(p, q, w) && w != []
    ensures Behind(z, p, Peers.Receive(q, w[0], late), w[1..], v)
  {
    hide Line, Items, Closed, AskFollows, AsksFirst, RequestsGood, Wire.Opened, Internal, External, OpenKey;
    LineTaken(p, q, w, late);
  }

  lemma ThereSend(z: Case, p: Peer, q: Peer, w: seq<Envelope>, v: seq<Envelope>, login: Option<Login>, payload: Bytes)
    requires Behind(z, p, q, w, v)
    ensures Behind(z, p, Peers.Send(q, login, payload), w, v)
  {
    hide Line, Items, Closed, AskFollows, SendLogin;
    var q' := Peers.Send(q, login, payload);
    if q' != q {
      ItemsPush(v, q.sendq, ToSeal(SendLogin(q, login), Application(payload)));
      if AskFollows(Items(v, q.sendq)) { FollowsPush(Items(v, q.sendq), Rest); }
    }
  }

  lemma LinePop(q: Peer, q': Peer, w: seq<Envelope>, sendq: seq<Outgoing>)
    requires q.inq != [] && q'.inq == q.inq[1..]
    ensures var a := Line(q.inq, w, sendq); a != [] && a[0] == Body(q.inq[0].body) && Line(q'.inq, w, sendq) == a[1..]
  {
    var a := Line(q.inq, w, sendq);
    assert Line(q'.inq, w, sendq) == a[1..];
  }

  lemma TailFirst(a: seq<Item>)
    requires AsksFirst(a) && a != []
    ensures AsksFirst(a[1..]) && (forall x :: x in a[1..] ==> x in a) && (a[0] == Reply ==> Ask !in a)
  {
    forall i, j | 0 <= i < j < |a[1..]| && a[1..][j] == Ask ensures a[1..][i] != Reply {
      assert a[i + 1] == a[1..][i] && a[j + 1] == a[1..][j];
    }
  }

  /** q takes up a message that is no answer. */
  lemma ThereTakes(z: Case, p: Peer, q: Peer, w: seq<Envelope>, v: seq<Envelope>, now: int)
    requires Behind(z, p, q, w, v) && q.inq != [] && q.phase.Idle? && Body(q.inq[0].body) != Reply && z.g != z.f
    ensures Behind(z, p, Peers.Process(q, now), w, v)
  {
    hide Line, Items, Closed, AskFollows, AsksFirst, Peers.Process;
    var q' := Peers.Process(q, now);
    ProcessAsks(q, now);
    LinePop(q, q', w, p.sendq);
    TailFirst(Line(q.inq, w, p.sendq));
    if q'.sendq != q.sendq { ItemsPush(v, q.sendq, q'.sendq[|q.sendq|]); }
  }

  /** q takes up an answer: by then it has taken up p's challenge, and its answers have left before a password changes. */
  lemma ThereAnswered(z: Case, p: Peer, q: Peer, w: seq<Envelope>, v: seq<Envelope>, now: int)
    requires Behind(z, p, q, w, v) && SessionGood(q, p, v, w) && RequestsGood(q, p, v) && ContextGood(q) && !q.stopped
    requires q.inq != [] && q.phase.Idle? && Body(q.inq[0].body) == Reply
    ensures Behind(z, p, Peers.Process(q, now), w, v)
  {
    hide Line, Items, Closed, AskFollows, AsksFirst, SessionGood, RequestsGood, Peers.Process;
    var q' := Peers.Process(q, now);
    TakesReply(q, now);
    LinePop(q, q', w, p.sendq);
    TailFirst(Line(q.inq, w, p.sendq));
    if q'.phase.Switched? {
      SwitchedAlone(q, p, v, w, now);
      if q.ctx.value.auth == Some(z.f) { FollowsNone(Items(v, q.sendq)); }
    }
  }

  lemma TakesReply(q: Peer, now: int)
    requires q.inq != [] && q.phase.Idle? && Body(q.inq[0].body) == Reply
    ensures var q' := Peers.Process(q, now);
            && q'.inq == q.inq[1..] && q'.sendq == q.sendq && q'.mem.from == q.mem.from && q'.disk == q.disk
            && (q'.phase.Idle? || q'.phase.Switched?)
            && (q'.phase.Idle? ==>
                  q'.mem == q.mem && (Active(q'.ctx) ==> Active(q.ctx) && q'.ctx.value.auth == q.ctx.value.auth))
            && (q'.phase.Switched? ==> Active(q.ctx) && q.ctx.value.auth.Some? && q'.ctx.Some?
                                       && q'.ctx.value.auth == q.ctx.value.auth
                                       && forall k :: k in q.mem.to && k != q.ctx.value.auth.value ==>
                                                        k in q'.mem.to && q'.mem.to[k] == q.mem.to[k])
  {
    hide OnRequest;
  }

  /** At a switch nothing of the challenge is on its way. */
  lemma SwitchedAlone(q: Peer, p: Peer, v: seq<Envelope>, w: seq<Envelope>, now: int)
    requires SessionGood(q, p, v, w) && RequestsGood(q, p, v) && ContextGood(q) && !q.stopped
    requires q.inq != [] && q.phase.Idle? && Peers.Process(q, now).phase.Switched?
    ensures Ask !in Items(v, q.sendq)
  {
    hide Items, OnRequest, Requests, PingsGood, RequestsGood, Holds;
    var x := q.inq[0];
    assert x in q.inq && ReplyGood(q, p, v, x.body);
    if x.body.ChangePwdRequest? { RequestEffect(q.(inq := q.inq[1..]), x.login, x.body.mId, x.body.pwd, now); }
    NoneOnWay(q, p, v);
  }

  // ------------------------------------------------------------------- one step of the system

  predicate MutedAt(n: Net, s: Side, f: Login, t: Auth) {
    && GoodChannel(n.From(Other(s)))
    && Muted(n.At(s), n.At(Other(s)), InFlight(n.From(Other(s))), f, t)
    && (HasReply(n.At(Other(s)), InFlight(n.From(Other(s)))) ==> Shield(n.At(s), n.At(Other(s)), f, t))
  }

  /** What the invariant of the system gives the direction from s. */
  lemma ForSide(n: Net, s: Side)
    requires Inv(n) && !n.At(s).stopped
    ensures GoodChannel(n.From(s)) && GoodChannel(n.From(Other(s))) && !n.At(Other(s)).stopped
    ensures var p, q, w, v := n.At(s), n.At(Other(s)), InFlight(n.From(s)), InFlight(n.From(Other(s)));
            && RequestsGood(p, q, w) && RequestsGood(q, p, v) && SessionGood(q, p, v, w)
            && PeerGood(p) && PeerGood(q) && Matched(q, p)
  {
    hide AgreeEverywhere, AllOlder, RequestsGood, RepliesGood, PingsGood, PeerGood;
    InvAt(n, s);
  }

  lemma GoodParts(p: Peer)
    requires PeerGood(p)
    ensures ContextGood(p) && GoodStore(p.mem)
    ensures FirstLogin(p.mem.order).Some? ==> FirstLogin(p.mem.order).value in p.mem.to
  {
    hide GoodTo, GoodFrom, DiskLags, ContextGood, Unique;
    assert forall l :: l in p.mem.order ==> l in p.mem.to;
  }

  lemma ReplyAhead(q: Peer, v: seq<Envelope>)
    ensures v != [] && OnWire(v[0]) == Reply ==> HasReply(q, v)
    ensures q.sendq != [] && Queued(q.sendq[0]) == Reply ==> HasReply(q, v)
  {
    var s := Items(v, q.sendq);
    if v != [] { assert s[0] == OnWire(v[0]); }
    if q.sendq != [] { assert s[|v|] == Queued(q.sendq[0]); }
  }

  /** A step of the addressee of the answers. */
  lemma MutedHere(n: Net, a: Label, s: Side, f: Login, t: Auth)
    requires Inv(n) && MutedAt(n, s, f, t) && !n.At(s).stopped && Enabled(n, a) && Crossing.Within(a) && a.side == s
    ensures var m := Next(n, a);
            GoodChannel(m.From(Other(s))) && Muted(m.At(s), m.At(Other(s)), InFlight(m.From(Other(s))), f, t)
  {
    hide Inv, Muted, Begin, SaveStep, EmitStep, Peers.Process, Peers.Receive, Peers.Send, Sent, CanSave, CanEmit,
         GoodCandidate, RequestsGood, SessionGood, PeerGood, Shield, HasReply;
    ForSide(n, s);
    var p, q, v, m := n.At(s), n.At(Other(s)), InFlight(n.From(Other(s))), Next(n, a);
    match a
    case Process(_, now) =>
      HeadNoReply(p, q, v, f, t);
      ProcessAsks(p, now);
      MutedFrame(p, Peers.Process(p, now), q, v, f, t);
    case Receive(_, late) =>
      ReplyAhead(q, v);
      MutedReceive(p, q, v, f, t, late);
      Workload.OffTheWire(n.From(Other(s)));
    case Transmit(_, _) => MutedFrame(p, p.(sendq := p.sendq[1..]), q, v, f, t);
    case _ =>
      Stale.ThreadFrame(n, a);
      MutedFrame(p, m.At(s), q, v, f, t);
  }

  lemma HeadNoReply(p: Peer, q: Peer, v: seq<Envelope>, f: Login, t: Auth)
    requires Muted(p, q, v, f, t) && p.inq != []
    ensures Body(p.inq[0].body) != Reply
  {
    assert p.inq[0] in p.inq;
  }

  /** A step of the answering side. */
  lemma MutedThere(n: Net, a: Label, s: Side, f: Login, t: Auth)
    requires Inv(n) && MutedAt(n, s, f, t) && !n.At(s).stopped && Enabled(n, a) && Crossing.Within(a) && a.side == Other(s)
    ensures var m := Next(n, a);
            GoodChannel(m.From(Other(s))) && Muted(m.At(s), m.At(Other(s)), InFlight(m.From(Other(s))), f, t)
  {
    hide Inv, Muted, Begin, SaveStep, EmitStep, Peers.Process, Peers.Receive, Peers.Send, Sent, CanSave, CanEmit,
         GoodCandidate, RequestsGood, SessionGood, PeerGood, Shield, HasReply;
    ForSide(n, s);
    var p, q, v, c := n.At(s), n.At(Other(s)), InFlight(n.From(Other(s))), n.From(Other(s));
    match a {
      case Transmit(_, late) =>
        ReplyAhead(q, v);
        TransmitOld(p, q, v, f, t, late);
        MutedTransmit(p, q, v, f, t, late);
        Workload.OnTheWire(c, Sent(q, q.sendq[0], late));
      case Process(_, now) => QueuesProcess(q, now);
      case Scan(_, now, candidate) => QueuesScan(q, now, candidate);
      case Save(_) => QueuesSave(q);
      case Emit(_) =>
        GoodParts(q);
        QueuesEmit(q, n.nextId, n.nextId + 1);
      case Receive(_, late) => QueuesTraffic(q, n.From(s).log[n.From(s).taken], late, None, []);
      case Send(_, login, payload) => QueuesTraffic(q, Envelope([], []), false, login, payload);
    }
    if !a.Transmit? { MutedQueue(p, q, Next(n, a).At(Other(s)), v, f, t); }
  }

  lemma TransmitOld(p: Peer, q: Peer, v: seq<Envelope>, f: Login, t: Auth, late: bool)
    requires PeerGood(q) && q.sendq != [] && (HasReply(q, v) ==> Shield(p, q, f, t))
    requires Queued(q.sendq[0]) == Reply ==> HasReply(q, v)
    ensures Queued(q.sendq[0]) == Reply && f in p.mem.from && f in q.mem.to ==> Held(q.mem.to, q.disk.to, f, late) == t.pwd
  {
    hide PeerGood, HasReply, Shield;
    if Queued(q.sendq[0]) == Reply && f in p.mem.from { SealedOld(p, q, f, t, late); }
  }

  /** q keeps its first login and its ends, and queues at most one message; an answer without a login. */
  predicate QueuesOne(q: Peer, q': Peer) {
    && q'.mem.order == q.mem.order && q'.me == q.me && q'.remote == q.remote && q'.cipher == q.cipher
    && (q'.sendq == q.sendq
        || (|q'.sendq| == |q.sendq| + 1 && q'.sendq == q.sendq + [q'.sendq[|q.sendq|]]
            && (q'.sendq[|q.sendq|].ToSeal? && Body(q'.sendq[|q.sendq|].body) == Reply ==>
                  q'.sendq[|q.sendq|].login.None?)))
  }

  lemma QueuesProcess(q: Peer, now: int)
    requires q.inq != [] && q.phase.Idle?
    ensures QueuesOne(q, Peers.Process(q, now))
  {
    hide Peers.Process;
    if Body(q.inq[0].body) == Reply { RepliesQueue(q, now); } else { ProcessAsks(q, now); }
  }

  lemma RepliesQueue(q: Peer, now: int)
    requires q.inq != [] && Body(q.inq[0].body) == Reply
    ensures QueuesOne(q, Peers.Process(q, now))
  {
    hide OnRequest;
  }

  lemma QueuesScan(q: Peer, now: int, candidate: Bytes)
    ensures QueuesOne(q, Begin(q, now, candidate))
  {
    hide DueLogin;
  }

  lemma QueuesSave(q: Peer)
    requires CanSave(q)
    ensures QueuesOne(q, SaveStep(q))
  {}

  lemma QueuesEmit(q: Peer, m1: nat, m2: nat)
    requires CanEmit(q)
    ensures QueuesOne(q, EmitStep(q, m1, m2))
  {
    hide ChallengeEnvelope;
  }

  lemma QueuesTraffic(q: Peer, e: Envelope, late: bool, login: Option<Login>, payload: Bytes)
    ensures QueuesOne(q, Peers.Receive(q, e, late)) && QueuesOne(q, Peers.Send(q, login, payload))
  {
    hide Wire.Opened, Internal, External, OpenKey, SendLogin;
  }

  // -------------------------------------------------------- p goes on with its challenge

  /** Without an answer among its opened messages p's challenge goes on for ever. */
  lemma AskingHere(n: Net, a: Label, s: Side, f: Login, t: Auth, l: Login, to: map<Login, Auth>)
    requires Inv(n) && MutedAt(n, s, f, t) && Asking(n.At(s), l, to) && Enabled(n, a) && Crossing.Within(a) && a.side == s
    ensures Asking(Next(n, a).At(s), l, to)
  {
    hide Inv, Muted, Begin, SaveStep, EmitStep, Peers.Process, Peers.Receive, Peers.Send, Sent, CanSave, CanEmit,
         GoodCandidate, RequestsGood, SessionGood, PeerGood, Shield, HasReply;
    ForSide(n, s);
    var p := n.At(s);
    match a
    case Scan(_, now, candidate) => ScanAsks(p, l, to, now, candidate);
    case Process(_, now) =>
      HeadNoReply(p, n.At(Other(s)), InFlight(n.From(Other(s))), f, t);
      ProcessAsks(p, now);
    case Save(_) => SaveAsks(p, l, to);
    case Emit(_) =>
      GoodParts(p);
      EmitAsks(p, l, to, n.nextId, n.nextId + 1);
    case Transmit(_, _) =>
    case Receive(_, late) => TrafficAsks(p, n.From(Other(s)).log[n.From(Other(s)).taken], late, None, []);
    case Send(_, login, payload) => TrafficAsks(p, Envelope([], []), false, login, payload);
  }

  lemma TrafficAsks(p: Peer, e: Envelope, late: bool, login: Option<Login>, payload: Bytes)
    ensures var a, b := Peers.Receive(p, e, late), Peers.Send(p, login, payload);
            a == p.(inq := a.inq, extq := a.extq) && b == p.(sendq := b.sendq)
  {
    hide Wire.Opened, Internal, External, OpenKey, SendLogin;
  }

  /** What p holds of q's first login stays what it is as long as q has the entry. */
  lemma ShieldHere(n: Net, a: Label, s: Side, f: Login, t: Auth)
    requires Inv(n) && MutedAt(n, s, f, t) && Shield(n.At(s), n.At(Other(s)), f, t) && !n.At(s).stopped
    requires Enabled(n, a) && Crossing.Within(a) && a.side == s
    ensures Shield(Next(n, a).At(s), n.At(Other(s)), f, t)
  {
    hide Inv, Muted, Begin, SaveStep, EmitStep, Peers.Process, Peers.Receive, Peers.Send, Sent, CanSave, CanEmit,
         GoodCandidate, RequestsGood, SessionGood, PeerGood, HasReply;
    ForSide(n, s);
    GoodParts(n.At(Other(s)));
    var p, q, v := n.At(s), n.At(Other(s)), InFlight(n.From(Other(s)));
    match a
    case Process(_, now) =>
      HeadNoReply(p, q, v, f, t);
      ShieldStays(p, q, v, f, t, now);
    case Receive(_, late) => TrafficAsks(p, n.From(Other(s)).log[n.From(Other(s)).taken], late, None, []);
    case Transmit(_, _) =>
    case _ => Stale.ThreadFrame(n, a);
  }

  // ------------------------------------------------- the first case: the challenges differ

  /** p's challenge is under way and no answer to it will open: p does not know q's first login, or has its candidate while
      q's own challenge is for another login. */
  predicate Stuck(n: Net, s: Side, z: Case) {
    var p, q := n.At(s), n.At(Other(s));
    && MutedAt(n, s, z.f, z.entry) && GoodChannel(n.From(s)) && Asking(p, z.l, z.to)
    && (z.f in p.mem.from ==> z.g != z.f && Behind(z, p, q, InFlight(n.From(s)), InFlight(n.From(Other(s)))))
  }

  /** The line of p after its step: the same, one item more, or one less. */
  lemma BehindHere(n: Net, a: Label, s: Side, z: Case)
    requires Inv(n) && Stuck(n, s, z) && Enabled(n, a) && Crossing.Within(a) && a.side == s && z.f in n.At(s).mem.from
    ensures var m := Next(n, a);
            && GoodChannel(m.From(s)) && GoodChannel(m.From(Other(s)))
            && Behind(z, m.At(s), n.At(Other(s)), InFlight(m.From(s)), InFlight(m.From(Other(s))))
  {
    hide Inv, Muted, Begin, SaveStep, EmitStep, Peers.Process, Peers.Receive, Peers.Send, Sent, CanSave, CanEmit,
         GoodCandidate, RequestsGood, SessionGood, PeerGood, HasReply, Shield, Behind, Line, Items, Without, WithSent;
    ForSide(n, s);
    GoodParts(n.At(s));
    if Shield(n.At(s), n.At(Other(s)), z.f, z.entry) { ShieldHere(n, a, s, z.f, z.entry); }
    var p, q, w, v := n.At(s), n.At(Other(s)), InFlight(n.From(s)), InFlight(n.From(Other(s)));
    match a
    case Scan(_, now, candidate) =>
      ScanAsks(p, z.l, z.to, now, candidate);
    case Process(_, now) =>
      HeadNoReply(p, q, v, z.f, z.entry);
      ProcessAsks(p, now);
      HereProcess(z, p, Peers.Process(p, now), q, w, v);
    case Save(_) =>
      SaveAsks(p, z.l, z.to);
      HereFrame(z, p, SaveStep(p), q, w, w, v, v, Rest, 0);
    case Emit(_) =>
      EmitAsks(p, z.l, z.to, n.nextId, n.nextId + 1);
      HereEmit(z, p, EmitStep(p, n.nextId, n.nextId + 1), q, w, v);
    case Transmit(_, late) =>
      HereTransmit(z, p, q, w, v, late);
      Workload.OnTheWire(n.From(s), Sent(p, p.sendq[0], late));
    case Receive(_, late) =>
      TrafficAsks(p, v[0], late, None, []);
      Workload.OffTheWire(n.From(Other(s)));
      HereFrame(z, p, Peers.Receive(p, v[0], late), q, w, w, v, v[1..], Rest, 0);
    case Send(_, login, payload) => HereSend(z, p, q, w, v, login, payload);
  }

  lemma HereProcess(z: Case, p: Peer, p': Peer, q: Peer, w: seq<Envelope>, v: seq<Envelope>)
    requires Behind(z, p, q, w, v) && p.inq != [] && p.phase.Idle? && TakesNoReply(p, p', p.inq[0])
    requires Shield(p, q, z.f, z.entry) ==> Shield(p', q, z.f, z.entry)
    ensures Behind(z, p', q, w, v)
  {
    hide Behind, Shield, Line;
    if p'.sendq != p.sendq { LinePush(q.inq, w, p.sendq, p'.sendq[|p.sendq|]); }
    HereFrame(z, p, p', q, w, w, v, v, Reply, 0);
  }

  lemma HereEmit(z: Case, p: Peer, p': Peer, q: Peer, w: seq<Envelope>, v: seq<Envelope>)
    requires Behind(z, p, q, w, v) && (p.phase.Stored? || p.phase.Committed?) && !Rounds.Preparing(p')
    requires p'.mem == p.mem && p'.disk == p.disk
    requires |p'.sendq| == |p.sendq| + 1 && p'.sendq == p.sendq + [p'.sendq[|p.sendq|]]
    requires Queued(p'.sendq[|p.sendq|]) == (if p.phase.Stored? then Ask else Reply)
    ensures Behind(z, p', q, w, v)
  {
    hide Behind, Line;
    LinePush(q.inq, w, p.sendq, p'.sendq[|p.sendq|]);
    if p.phase.Stored? { HereAsks(z, p, p', q, w, v); } else { HereFrame(z, p, p', q, w, w, v, v, Reply, 0); }
  }

  lemma HereTransmit(z: Case, p: Peer, q: Peer, w: seq<Envelope>, v: seq<Envelope>, late: bool)
    requires Behind(z, p, q, w, v) && p.sendq != []
    ensures Behind(z, p.(sendq := p.sendq[1..]), q, WithSent(w, Sent(p, p.sendq[0], late)), v)
  {
    hide Behind, Items, Sent;
    var p', w' := p.(sendq := p.sendq[1..]), WithSent(w, Sent(p, p.sendq[0], late));
    SealsOne(p, p.sendq[0], late);
    if Sent(p, p.sendq[0], late).Some? {
      ItemsMove(w, p.sendq, Sent(p, p.sendq[0], late).value);
    } else {
      LineDrop(q.inq, w, p.sendq);
    }
    HereFrame(z, p, p', q, w, w', v, v, Rest, |q.inq| + |w|);
  }

  lemma HereSend(z: Case, p: Peer, q: Peer, w: seq<Envelope>, v: seq<Envelope>, login: Option<Login>, payload: Bytes)
    requires Behind(z, p, q, w, v)
    ensures Behind(z, Peers.Send(p, login, payload), q, w, v)
  {
    hide Behind, Line, SendLogin;
    var p' := Peers.Send(p, login, payload);
    if p' != p { LinePush(q.inq, w, p.sendq, ToSeal(SendLogin(p, login), Application(payload))); }
    HereFrame(z, p, p', q, w, w, v, v, Rest, 0);
  }

  lemma BehindThere(n: Net, a: Label, s: Side, z: Case)
    requires Inv(n) && Stuck(n, s, z) && Enabled(n, a) && Crossing.Within(a) && a.side == Other(s)
    requires z.f in n.At(s).mem.from
    ensures var m := Next(n, a);
            && GoodChannel(m.From(s)) && GoodChannel(m.From(Other(s)))
            && Behind(z, n.At(s), m.At(Other(s)), InFlight(m.From(s)), InFlight(m.From(Other(s))))
  {
    hide Inv, Muted, Begin, SaveStep, EmitStep, Peers.Process, Peers.Receive, Peers.Send, Sent, CanSave, CanEmit,
         GoodCandidate, RequestsGood, SessionGood, PeerGood, HasReply, Shield, Behind, Line, Items, Without, WithSent;
    ForSide(n, s);
    GoodParts(n.At(Other(s)));
    var p, q, w, v := n.At(s), n.At(Other(s)), InFlight(n.From(s)), InFlight(n.From(Other(s)));
    match a
    case Scan(_, now, candidate) => ThereScan(z, p, q, w, v, now, candidate);
    case Process(_, now) =>
      if Body(q.inq[0].body) == Reply {
        ThereAnswered(z, p, q, w, v, now);
      } else {
        ThereTakes(z, p, q, w, v, now);
      }
    case Save(_) => ThereSave(z, p, q, w, v);
    case Emit(_) => ThereEmit(z, p, q, w, v, n.nextId, n.nextId + 1);
    case Transmit(_, late) =>
      ThereTransmit(z, p, q, w, v, late);
      Workload.OnTheWire(n.From(Other(s)), Sent(q, q.sendq[0], late));
    case Receive(_, late) =>
      ThereReceive(z, p, q, w, v, late);
      Workload.OffTheWire(n.From(s));
    case Send(_, login, payload) => ThereSend(z, p, q, w, v, login, payload);
  }

  /** Within a session nobody stops and no channel is emptied. */
  lemma SideFrame(n: Net, a: Label, r: Side)
    requires Enabled(n, a) && Crossing.Within(a) && a.side != r
    ensures Next(n, a).At(r) == n.At(r)
  {}

  lemma KnownStays(n: Net, a: Label, s: Side, f: Login)
    requires Enabled(n, a) && Crossing.Within(a)
    ensures f in Next(n, a).At(s).mem.from <==> f in n.At(s).mem.from
  {
    hide Begin, SaveStep, EmitStep, Peers.Process, Peers.Receive, Peers.Send, Sent, CanSave, CanEmit, GoodCandidate;
    var p := n.At(s);
    if a.side == s {
      match a
      case Process(_, now) => KeysStay(p, now);
      case Receive(_, late) => TrafficAsks(p, n.From(Other(s)).log[n.From(Other(s)).taken], late, None, []);
      case Transmit(_, _) =>
      case _ => Stale.ThreadFrame(n, a);
    }
  }

  lemma KeysStay(p: Peer, now: int)
    requires p.inq != []
    ensures Peers.Process(p, now).mem.from.Keys == p.mem.from.Keys
  {
    hide OnRequest;
    var x, p0 := p.inq[0], p.(inq := p.inq[1..]);
    if x.body.ChangePwdRequest? { RequestEffect(p0, x.login, x.body.mId, x.body.pwd, now); }
  }

  lemma StuckStep(n: Net, a: Label, s: Side, z: Case)
    requires Inv(n) && Stuck(n, s, z) && Enabled(n, a) && Crossing.Within(a)
    ensures Stuck(Next(n, a), s, z)
  {
    hide Inv, Muted, Enabled, Next, Behind, Asking;
    StillOpen(n, s, z);
    KnownStays(n, a, s, z.f);
    if a.side == s {
      MutedHere(n, a, s, z.f, z.entry);
      AskingHere(n, a, s, z.f, z.entry, z.l, z.to);
      SideFrame(n, a, Other(s));
      if z.f in n.At(s).mem.from { BehindHere(n, a, s, z); } else { StillMuted(n, a, s, z); }
    } else {
      MutedThere(n, a, s, z.f, z.entry);
      SideFrame(n, a, s);
      if z.f in n.At(s).mem.from { BehindThere(n, a, s, z); } else { StillMuted(n, a, s, z); }
    }
    if z.f in n.At(s).mem.from { BehindShields(z, Next(n, a), s); }
  }

  lemma StillOpen(n: Net, s: Side, z: Case)
    requires Stuck(n, s, z)
    ensures !n.At(s).stopped && MutedAt(n, s, z.f, z.entry)
  {
    hide Behind, Muted;
  }

  /** For a login that p does not know there is nothing to shield. */
  lemma StillMuted(n: Net, a: Label, s: Side, z: Case)
    requires Inv(n) && Enabled(n, a) && z.f !in n.At(s).mem.from && Crossing.Within(a)
    ensures Shield(Next(n, a).At(s), Next(n, a).At(Other(s)), z.f, z.entry) && GoodChannel(Next(n, a).From(s))
  {
    hide Inv, Enabled, Next;
    KnownStays(n, a, s, z.f);
    StepKeepsInv(n, a);
    ChannelsGood(Next(n, a), s);
  }

  lemma ChannelsGood(n: Net, s: Side)
    requires Inv(n)
    ensures GoodChannel(n.From(s)) && GoodChannel(n.From(Other(s)))
  {}

  lemma BehindShields(z: Case, n: Net, s: Side)
    requires GoodChannel(n.From(s)) && GoodChannel(n.From(Other(s)))
    requires Behind(z, n.At(s), n.At(Other(s)), InFlight(n.From(s)), InFlight(n.From(Other(s))))
    ensures HasReply(n.At(Other(s)), InFlight(n.From(Other(s)))) ==> Shield(n.At(s), n.At(Other(s)), z.f, z.entry)
  {
    hide Line, Items, HasReply, Shield, Asking;
  }

  lemma {:induction false} StaysStuck(states: seq<Net>, labels: seq<Label>, s: Side, z: Case, k: nat)
    requires IsRun(states, labels) && Inv(states[0]) && Stuck(states[0], s, z) && k <= |labels|
    requires forall i :: 0 <= i < |labels| ==> Crossing.Within(labels[i])
    ensures Inv(states[k]) && Stuck(states[k], s, z)
  {
    hide Inv, Stuck, Enabled, Next;
    if k > 0 {
      StaysStuck(states, labels, s, z, k - 1);
      assert Enabled(states[k - 1], labels[k - 1]) && states[k - 1 + 1] == Next(states[k - 1], labels[k - 1]);
      StepKeepsInv(states[k - 1], labels[k - 1]);
      StuckStep(states[k - 1], labels[k - 1], s, z);
    }
  }

  // ------------------------------------- the second case: both challenge the first login of the other's answers

  /** Both challenges are under way, and the answers of both sides stay closed for ever. */
  predicate Mutual(n: Net, s: Side, z: Case, y: Case) {
    Keeps(n, s, z) && Keeps(n, Other(s), y)
  }

  /** Side s has its challenge under way, and has left the password behind that the other side answers under. */
  predicate Keeps(n: Net, s: Side, z: Case) {
    && MutedAt(n, s, z.f, z.entry) && Asking(n.At(s), z.l, z.to) && Shield(n.At(s), n.At(Other(s)), z.f, z.entry)
  }

  lemma KeepsHere(n: Net, a: Label, s: Side, z: Case)
    requires Inv(n) && Keeps(n, s, z) && Enabled(n, a) && Crossing.Within(a) && a.side == s
    ensures Keeps(Next(n, a), s, z)
  {
    hide Inv, Muted, Enabled, Next, Asking, Shield, HasReply;
    StaysUp(n.At(s), z.l, z.to);
    MutedHere(n, a, s, z.f, z.entry);
    AskingHere(n, a, s, z.f, z.entry, z.l, z.to);
    ShieldHere(n, a, s, z.f, z.entry);
    SideFrame(n, a, Other(s));
  }

  /** A step of the other side that leaves its own passwords and candidates as they are. */
  lemma KeepsThere(n: Net, a: Label, s: Side, z: Case)
    requires Inv(n) && Keeps(n, s, z) && Enabled(n, a) && Crossing.Within(a) && a.side == Other(s)
    requires Next(n, a).At(Other(s)).mem.to == n.At(Other(s)).mem.to
    ensures Keeps(Next(n, a), s, z)
  {
    hide Inv, Muted, Enabled, Next, Asking, HasReply;
    StaysUp(n.At(s), z.l, z.to);
    MutedThere(n, a, s, z.f, z.entry);
    SideFrame(n, a, s);
  }

  /** Both sides keep their passwords and candidates. */
  lemma KeepsStep(n: Net, a: Label, s: Side, z: Case, y: Case)
    requires Inv(n) && Mutual(n, s, z, y) && Enabled(n, a) && Crossing.Within(a) && a.side == s
    ensures Mutual(Next(n, a), s, z, y)
  {
    hide Inv, MutedAt, Enabled, Next, Shield;
    KeepsHere(n, a, s, z);
    KeepsThere(n, a, Other(s), y);
  }

  lemma StaysUp(p: Peer, l: Login, to: map<Login, Auth>)
    requires Asking(p, l, to)
    ensures !p.stopped
  {}

  lemma MutualTurned(n: Net, s: Side, z: Case, y: Case)
    requires Mutual(n, s, z, y)
    ensures Mutual(n, Other(s), y, z)
  {
    hide Keeps;
  }

  lemma {:induction false} StaysMutual(states: seq<Net>, labels: seq<Label>, s: Side, z: Case, y: Case, k: nat)
    requires IsRun(states, labels) && Inv(states[0]) && Mutual(states[0], s, z, y) && k <= |labels|
    requires forall i :: 0 <= i < |labels| ==> Crossing.Within(labels[i])
    ensures Inv(states[k]) && Mutual(states[k], s, z, y)
  {
    hide Inv, Mutual, Enabled, Next;
    if k > 0 {
      StaysMutual(states, labels, s, z, y, k - 1);
      var n, a := states[k - 1], labels[k - 1];
      assert Enabled(n, a) && states[k - 1 + 1] == Next(n, a);
      StepKeepsInv(n, a);
      if a.side == s {
        KeepsStep(n, a, s, z, y);
      } else {
        MutualTurned(n, s, z, y);
        KeepsStep(n, a, Other(s), y, z);
        MutualTurned(Next(n, a), Other(s), y, z);
      }
    }
  }

  /** As long as the other side has not switched, whatever its challenge is for. */
  lemma {:induction false} StaysBefore(states: seq<Net>, labels: seq<Label>, s: Side, z: Case, k: nat)
    requires IsRun(states, labels) && Inv(states[0]) && Keeps(states[0], s, z) && k <= |labels|
    requires forall i :: 0 <= i < |labels| ==> Crossing.Within(labels[i])
    requires forall i :: 0 <= i <= k ==> states[i].At(Other(s)).mem.to == states[0].At(Other(s)).mem.to
    ensures Inv(states[k]) && Keeps(states[k], s, z)
  {
    hide Inv, Keeps, Enabled, Next;
    if k > 0 {
      StaysBefore(states, labels, s, z, k - 1);
      var n, a := states[k - 1], labels[k - 1];
      assert Enabled(n, a) && states[k - 1 + 1] == Next(n, a);
      StepKeepsInv(n, a);
      if a.side == s { KeepsHere(n, a, s, z); } else { KeepsThere(n, a, s, z); }
    }
  }

  // ----------------------------------------------------------------------- from the first scans on

  /** The reply direction does not agree: p does not know q's first login, or has its candidate already. */
  lemma NotAgreed(n: Net, s: Side, f: Login)
    requires Inv(n) && n.At(s).disk.from == n.At(s).mem.from && FirstLogin(n.At(Other(s)).mem.order) == Some(f)
    requires !Rounds.ReplyAgrees(n.At(s), n.At(Other(s)))
    ensures f in n.At(Other(s)).mem.to && Shield(n.At(s), n.At(Other(s)), f, n.At(Other(s)).mem.to[f])
  {
    hide SessionGood, AllOlder, DiskLags, ContextGood;
    InvAt(n, s);
    assert GoodStore(n.At(Other(s)).mem);
  }

  /** Nothing of a challenge is on its way from q. */
  predicate Silent(n: Net, s: Side) {
    var p, q := n.At(s), n.At(Other(s));
    && GoodChannel(n.From(s)) && GoodChannel(n.From(Other(s))) && InFlight(n.From(Other(s))) == [] && p.inq == []
    && (forall o :: o in q.sendq ==> Queued(o) == Rest) && (q.phase.Idle? || q.phase.Generated?)
  }

  lemma SilentMuted(n: Net, s: Side, f: Login, t: Auth)
    requires Silent(n, s) && (FirstLogin(n.At(Other(s)).mem.order) == Some(f) || n.At(Other(s)).mem.order == [])
    ensures MutedAt(n, s, f, t)
  {
    var q := n.At(Other(s));
    forall o | o in q.sendq && o.ToSeal? ensures Body(o.body) != Reply { assert Queued(o) == Rest; }
    var t := Items([], q.sendq);
    forall i | 0 <= i < |t| ensures t[i] != Reply { assert q.sendq[i] in q.sendq; }
  }

  /** Side s has found login l, and the first login of the other side, if it has one, is not known to it. */
  lemma StartsUnknown(n: Net, s: Side, l: Login) returns (z: Case)
    requires Crossing.Asks(n.At(s), l) && Silent(n, s)
    requires FirstLogin(n.At(Other(s)).mem.order).Some? ==> FirstLogin(n.At(Other(s)).mem.order).value !in n.At(s).mem.from
    ensures Stuck(n, s, z) && z.l == l && z.to == n.At(s).mem.to
  {
    var p, q := n.At(s), n.At(Other(s));
    var f := Outsider(p.mem.from.Keys);
    if q.mem.order != [] { f := FirstLogin(q.mem.order).value; }
    z := Case(l, l, f, p.mem.to[l], p.mem.to, q.mem.to);
    SilentMuted(n, s, f, z.entry);
  }

  lemma Longest(logins: set<Login>) returns (r: nat)
    ensures forall l :: l in logins ==> |l| <= r
  {
    r := 0;
    if l :| l in logins {
      r := Longest(logins - {l});
      if |l| > r { r := |l|; }
    }
  }

  lemma Outsider(logins: set<Login>) returns (f: Login)
    ensures f !in logins
  {
    var k := Longest(logins);
    f := seq(k + 1, _ => 0);
  }

  /** The other side's first login is known, its challenge is for another one, and the password is left behind. */
  lemma StartsBehind(n: Net, s: Side, l: Login, g: Login, f: Login) returns (z: Case)
    requires Inv(n) && Crossing.Met(n, s, l, g) && FirstLogin(n.At(Other(s)).mem.order) == Some(f) && f != g
    requires !Rounds.ReplyAgrees(n.At(s), n.At(Other(s)))
    ensures Stuck(n, s, z) && z.l == l && z.to == n.At(s).mem.to
  {
    hide Inv, Rounds.ReplyAgrees;
    var p, q := n.At(s), n.At(Other(s));
    MetSaved(n, s, l, g);
    NotAgreed(n, s, f);
    z := Case(l, g, f, q.mem.to[f], p.mem.to, q.mem.to);
    MetSilent(n, s, l, g);
    SilentMuted(n, s, f, z.entry);
    NothingYet(p, q);
  }

  lemma NothingYet(p: Peer, q: Peer)
    requires p.sendq == [] && q.sendq == [] && q.inq == []
    ensures Line(q.inq, [], p.sendq) == [] && Items([], q.sendq) == []
  {}

  lemma MetSilent(n: Net, s: Side, l: Login, g: Login)
    requires Crossing.Met(n, s, l, g)
    ensures Silent(n, s) && Silent(n, Other(s)) && Other(Other(s)) == s
  {}

  lemma MetSaved(n: Net, s: Side, l: Login, g: Login)
    requires Inv(n) && Crossing.Met(n, s, l, g)
    ensures n.At(s).disk.from == n.At(s).mem.from && n.At(Other(s)).disk.from == n.At(Other(s)).mem.from
    ensures FirstLogin(n.At(s).mem.order).Some? && FirstLogin(n.At(Other(s)).mem.order).Some?
  {
    hide Direction, AllOlder, ContextGood;
    InvAt(n, s);
    assert l in n.At(s).mem.order && g in n.At(Other(s)).mem.order;
  }

  /** Both challenge the first login the other side's answers go under, and neither direction agrees. */
  lemma StartsMutual(n: Net, s: Side, l: Login, g: Login) returns (z: Case, y: Case)
    requires Inv(n) && Crossing.Met(n, s, l, g)
    requires !Rounds.ReplyAgrees(n.At(s), n.At(Other(s))) && !Rounds.ReplyAgrees(n.At(Other(s)), n.At(s))
    ensures Mutual(n, s, z, y) && z.l == l && z.to == n.At(s).mem.to
  {
    hide Inv, Rounds.ReplyAgrees;
    var o, p, q := Other(s), n.At(s), n.At(Other(s));
    MetSaved(n, s, l, g);
    MetSilent(n, s, l, g);
    var f, h := FirstLogin(q.mem.order).value, FirstLogin(p.mem.order).value;
    NotAgreed(n, s, f);
    NotAgreed(n, o, h);
    z, y := Case(l, g, f, q.mem.to[f], p.mem.to, q.mem.to), Case(g, l, h, p.mem.to[h], q.mem.to, p.mem.to);
    SilentMuted(n, s, f, z.entry);
    SilentMuted(n, o, h, y.entry);
  }

  /** The challenge of q is for the login its answers go under, p holds its candidate, and can answer it. */
  predicate Repairs(p: Peer, q: Peer, g: Login) {
    && FirstLogin(q.mem.order) == Some(g) && g in q.mem.to && g in p.mem.from
    && p.mem.from[g].pwd == q.mem.to[g].newPwd && Rounds.ReplyAgrees(q, p)
  }

  /** From a crossing: where the reply direction does not agree, and the other side's challenge cannot repair it, s never
      switches, whatever the threads and the applications do in the session. */
  lemma NeverRotated(n: Net, s: Side, l: Login, g: Login, states: seq<Net>, labels: seq<Label>, k: nat)
    requires Reachable(n) && Crossing.Met(n, s, l, g)
    requires !Rounds.ReplyAgrees(n.At(s), n.At(Other(s))) && !Repairs(n.At(s), n.At(Other(s)), g)
    requires IsRun(states, labels) && states[0] == n && k <= |labels|
    requires forall i :: 0 <= i < |labels| ==> Crossing.Within(labels[i])
    ensures Asking(states[k].At(s), l, n.At(s).mem.to)
  {
    hide Inv, Reachable, Rounds.ReplyAgrees, Stuck, Mutual, Enabled, Next, Asking, Shield, Crossing.Met;
    ReachableInv(n);
    MetSaved(n, s, l, g);
    var p, q := n.At(s), n.At(Other(s));
    var f := FirstLogin(q.mem.order).value;
    if f == g && f in p.mem.from {
      NotAgreed(n, s, f);
      GivesRepair(p, q, f);
      var z, y := StartsMutual(n, s, l, g);
      StaysMutual(states, labels, s, z, y, k);
      MutualAsks(states[k], s, z, y);
    } else {
      var z;
      if f == g { MetAsks(n, s, l, g); z := StartsUnknown(n, s, l); } else { z := StartsBehind(n, s, l, g, f); }
      StaysStuck(states, labels, s, z, k);
      StuckAsks(states[k], s, z);
    }
  }

  /** And in no case does s switch before the other side has. */
  lemma NotBefore(n: Net, s: Side, l: Login, g: Login, states: seq<Net>, labels: seq<Label>, k: nat)
    requires Reachable(n) && Crossing.Met(n, s, l, g) && !Rounds.ReplyAgrees(n.At(s), n.At(Other(s)))
    requires IsRun(states, labels) && states[0] == n && k <= |labels|
    requires forall i :: 0 <= i < |labels| ==> Crossing.Within(labels[i])
    requires forall i :: 0 <= i <= k ==> states[i].At(Other(s)).mem.to == n.At(Other(s)).mem.to
    ensures Asking(states[k].At(s), l, n.At(s).mem.to)
  {
    hide Inv, Reachable, Rounds.ReplyAgrees, MutedAt, Enabled, Next, Asking, Shield, Crossing.Met;
    ReachableInv(n);
    MetSaved(n, s, l, g);
    MetSilent(n, s, l, g);
    var p, q := n.At(s), n.At(Other(s));
    var f := FirstLogin(q.mem.order).value;
    NotAgreed(n, s, f);
    var z := Case(l, g, f, q.mem.to[f], p.mem.to, q.mem.to);
    SilentMuted(n, s, f, z.entry);
    MetAsking(n, s, l, g);
    StaysBefore(states, labels, s, z, k);
  }

  lemma MetAsking(n: Net, s: Side, l: Login, g: Login)
    requires Crossing.Met(n, s, l, g)
    ensures Asking(n.At(s), l, n.At(s).mem.to)
  {}

  /** Where the other side has begun nothing and its first login is not known, s never switches either. */
  lemma NeverHeard(n: Net, s: Side, l: Login, states: seq<Net>, labels: seq<Label>, k: nat)
    requires Reachable(n) && Crossing.Asks(n.At(s), l) && Silent(n, s)
    requires FirstLogin(n.At(Other(s)).mem.order).Some? ==> FirstLogin(n.At(Other(s)).mem.order).value !in n.At(s).mem.from
    requires IsRun(states, labels) && states[0] == n && k <= |labels|
    requires forall i :: 0 <= i < |labels| ==> Crossing.Within(labels[i])
    ensures Asking(states[k].At(s), l, n.At(s).mem.to)
  {
    hide Inv, Reachable, Stuck, Enabled, Next, Asking, Crossing.Asks, Silent;
    ReachableInv(n);
    var z := StartsUnknown(n, s, l);
    StaysStuck(states, labels, s, z, k);
    StuckAsks(states[k], s, z);
  }

  lemma GivesRepair(p: Peer, q: Peer, f: Login)
    requires FirstLogin(q.mem.order) == Some(f) && f in q.mem.to && f in p.mem.from && Shield(p, q, f, q.mem.to[f])
    ensures Repairs(p, q, f) <==> Rounds.ReplyAgrees(q, p)
  {
    hide Rounds.ReplyAgrees;
  }

  lemma MetAsks(n: Net, s: Side, l: Login, g: Login)
    requires Crossing.Met(n, s, l, g)
    ensures Crossing.Asks(n.At(s), l) && Silent(n, s)
  {}

  lemma MutualAsks(n: Net, s: Side, z: Case, y: Case)
    requires Mutual(n, s, z, y)
    ensures Asking(n.At(s), z.l, z.to)
  {
    hide Asking, Muted;
  }

  lemma StuckAsks(n: Net, s: Side, z: Case)
    requires Stuck(n, s, z)
    ensures Asking(n.At(s), z.l, z.to)
  {
    hide Asking, Muted, Behind;
  }
}
