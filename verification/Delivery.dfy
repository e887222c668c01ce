/** No payload is lost: what the application hands to an open session without naming a login arrives at the other end,
    whole, once and in order, whatever challenges run beside it and whatever earlier sessions have left, as long as the
    connection holds. Nothing is taken from the application before the own AllClear, and AllClear is only announced
    when no login has a candidate. */
module Delivery {
  import opened Basics
  import opened Wire
  import opened Credentials
  import opened Peers
  import opened Network
  import opened ChallengeInvariant
  import opened Agreement
  import Gate
  import Rounds
  import Workload
  import Base64

  /** What the pipeline from p to q carries: a challenge, a payload under its login, anything else. */
  datatype Item = Ask | Load(login: Login, payload: Bytes) | Rest

  function OnWire(e: Envelope): Item {
    if e.data == [] then Rest
    else match e.data[0].body
         case ChangePwdRequest(_, _) => Ask
         case Application(x) => Load(e.login, x)
         case _ => Rest
  }

  function Waiting(o: Outgoing): Item {
    match o
    case Ready(e) => OnWire(e)
    case ToSeal(login, body) => if login.Some? && body.Application? then Load(login.value, body.payload) else Rest
  }

  function Items(w: seq<Envelope>, sendq: seq<Outgoing>): seq<Item> {
    seq(|w|, i requires 0 <= i < |w| => OnWire(w[i])) + seq(|sendq|, i requires 0 <= i < |sendq| => Waiting(sendq[i]))
  }

  /** The payloads among them, in order. */
  function Carried(items: seq<Item>): seq<Bytes> {
    if items == [] then [] else (if items[0].Load? then [items[0].payload] else []) + Carried(items[1..])
  }

  lemma {:induction false} CarriedAppend(a: seq<Item>, b: seq<Item>)
    ensures Carried(a + b) == Carried(a) + Carried(b)
  {
    if a == [] {
      assert a + b == b;
    } else {
      var head := if a[0].Load? then [a[0].payload] else [];
      assert (a + b)[0] == a[0] && (a + b)[1..] == a[1..] + b;
      CarriedAppend(a[1..], b);
      assert head + (Carried(a[1..]) + Carried(b)) == head + Carried(a[1..]) + Carried(b);
    }
  }

  /** Every payload under login l is followed by a challenge. */
  predicate Leads(items: seq<Item>, l: Login) {
    forall i :: 0 <= i < |items| && items[i].Load? && items[i].login == l ==> exists j :: i < j < |items| && items[j] == Ask
  }

  lemma LeadsPush(items: seq<Item>, l: Login, x: Item)
    requires Leads(items, l) && (x.Load? ==> x.login != l)
    ensures Leads(items + [x], l)
  {
    var more := items + [x];
    forall i | 0 <= i < |more| && more[i].Load? && more[i].login == l ensures exists j :: i < j < |more| && more[j] == Ask {
      assert items[i] == more[i];
      var j :| i < j < |items| && items[j] == Ask;
      assert more[j] == Ask;
    }
  }

  lemma LeadsAsk(items: seq<Item>, l: Login)
    ensures Leads(items + [Ask], l)
  {
    assert (items + [Ask])[|items|] == Ask;
  }

  lemma LeadsPop(items: seq<Item>, l: Login)
    requires Leads(items, l) && items != []
    ensures Leads(items[1..], l)
  {
    forall i | 0 <= i < |items[1..]| && items[1..][i].Load? && items[1..][i].login == l
      ensures exists j :: i < j < |items[1..]| && items[1..][j] == Ask
    {
      var j :| i + 1 < j < |items| && items[j] == Ask;
      assert items[1..][j - 1] == Ask;
    }
  }

  /** Dropping what is neither a payload nor a challenge. */
  lemma LeadsDrop(a: seq<Item>, b: seq<Item>, l: Login)
    requires Leads(a + [Rest] + b, l)
    ensures Leads(a + b, l)
  {
    var s, t := a + [Rest] + b, a + b;
    forall i | 0 <= i < |t| && t[i].Load? && t[i].login == l ensures exists j :: i < j < |t| && t[j] == Ask {
      var i' := if i < |a| then i else i + 1;
      assert s[i'] == t[i];
      var j' :| i' < j' < |s| && s[j'] == Ask;
      assert t[if j' < |a| then j' else j' - 1] == Ask;
    }
  }

  lemma LeadsNone(items: seq<Item>, l: Login)
    requires Leads(items, l) && Ask !in items
    ensures forall i :: 0 <= i < |items| && items[i].Load? ==> items[i].login != l
  {}

  // ------------------------------------------------------------------ the invariant

  /** The login whose challenge p has out or has just completed. */
  function Engaged(p: Peer): Option<Login> {
    if Live(p) then Some(LiveLogin(p)) else if p.phase.Switched? then CurrentLogin(p) else None
  }

  /** q holds p's password of login l, in memory and on disk. */
  predicate Equal(p: Peer, q: Peer, l: Login) {
    l in p.mem.to && l in q.mem.from && l in q.disk.from
    && q.mem.from[l].pwd == p.mem.to[l].pwd && q.disk.from[l].pwd == p.mem.to[l].pwd
  }

  /** The request of p's challenge for l has been taken in, so that q may have installed the candidate. */
  predicate Consumed(p: Peer, q: Peer, w: seq<Envelope>, l: Login) {
    Live(p) && LiveLogin(p) == l && Requests(p, q, w) == 0
  }

  predicate Certain(p: Peer, q: Peer, w: seq<Envelope>) {
    forall l :: l in p.mem.to && p.mem.to[l].pending && !Consumed(p, q, w, l) ==> Equal(p, q, l)
  }

  /** A refusal of the live challenge says that q has not installed the candidate. */
  predicate Refusal(p: Peer, q: Peer, body: Message) {
    Live(p) && body == ChangePwdResponse(p.ctx.value.mIdRequest, false) ==> Equal(p, q, LiveLogin(p))
  }

  predicate Refusals(p: Peer, q: Peer, v: seq<Envelope>) {
    && (forall x :: x in p.inq ==> Refusal(p, q, x.body))
    && (forall e, d :: e in v && d in e.data ==> Refusal(p, q, d.body))
    && (forall o :: o in q.sendq && o.ToSeal? ==> Refusal(p, q, o.body))
  }

  predicate SealedNow(p: Peer, e: Envelope) {
    OnWire(e).Load? ==>
      |e.data| == 1 && e.login in p.mem.to && e.data[0].key == SealKey(p, e.login, p.mem.to[e.login].pwd)
  }

  predicate Named(p: Peer, o: Outgoing) {
    match o
    case Ready(e) => OnWire(e) == Ask
    case ToSeal(login, body) => body.Application? ==> login.Some? && login.value in p.mem.to
  }

  predicate Flow(p: Peer, q: Peer, w: seq<Envelope>, v: seq<Envelope>) {
    && p.mem.to.Keys <= q.mem.from.Keys
    && (Engaged(p).Some? ==> Leads(Items(w, p.sendq), Engaged(p).value))
    && (forall e :: e in w ==> SealedNow(p, e)) && (forall o :: o in p.sendq ==> Named(p, o))
    && Certain(p, q, w) && Refusals(p, q, v)
  }

  // ---------------------------------------------------------- a step of the sending side

  lemma ItemsPush(w: seq<Envelope>, sendq: seq<Outgoing>, o: Outgoing)
    ensures Items(w, sendq + [o]) == Items(w, sendq) + [Waiting(o)]
  {}

  predicate Plain(o: Outgoing) {
    o.ToSeal? && !o.body.Application?
  }

  /** The challenge, if any, is the same or gone, and so are the entries. */
  predicate KeepsEntries(p: Peer, p': Peer) {
    && p'.me == p.me && p'.remote == p.remote && p'.cipher == p.cipher
    && p'.mem.to == p.mem.to && p'.mem.order == p.mem.order
    && (Live(p') ==> Live(p) && p'.ctx == p.ctx) && (Engaged(p').Some? ==> Engaged(p') == Engaged(p))
  }

  /** p queues at most one plain message and takes in harmless ones. */
  lemma SenderFrame(p: Peer, p': Peer, q: Peer, w: seq<Envelope>, v: seq<Envelope>, v': seq<Envelope>)
    requires Flow(p, q, w, v) && KeepsEntries(p, p') && (Live(p) ==> Live(p'))
    requires p'.sendq == p.sendq || (|p'.sendq| == |p.sendq| + 1 && p'.sendq == p.sendq + [p'.sendq[|p.sendq|]]
                                     && Plain(p'.sendq[|p.sendq|]))
    requires forall x :: x in p'.inq ==> Refusal(p, q, x.body)
    requires forall e :: e in v' ==> e in v
    ensures Flow(p', q, w, v')
  {
    hide Live, Engaged, Equal, Leads, Requests, Items, Derive;
    if p'.sendq != p.sendq {
      var o := p'.sendq[|p.sendq|];
      ItemsPush(w, p.sendq, o);
      if Engaged(p').Some? { LeadsPush(Items(w, p.sendq), Engaged(p').value, Rest); }
      SameRequests(p, p', q, w);
    }
    assert Requests(p', q, w) == Requests(p, q, w) by { SameRequests(p, p', q, w); }
    SameEqual(p, p', q);
    SameLive(p, p');
  }

  lemma SameRequests(p: Peer, p': Peer, q: Peer, w: seq<Envelope>)
    requires p'.sendq == p.sendq || (|p'.sendq| == |p.sendq| + 1 && p'.sendq == p.sendq + [p'.sendq[|p.sendq|]]
                                     && p'.sendq[|p.sendq|].ToSeal?)
    ensures Requests(p', q, w) == Requests(p, q, w)
  {
    if p'.sendq != p.sendq {
      var o := p'.sendq[|p.sendq|];
      CountAppend(IsReady, p.sendq, [o]);
      assert [o][1..] == [];
    }
  }

  lemma SameEqual(p: Peer, p': Peer, q: Peer)
    requires p'.mem.to == p.mem.to
    ensures forall l :: Equal(p', q, l) == Equal(p, q, l)
  {}

  lemma SameLive(p: Peer, p': Peer)
    requires Live(p') ==> Live(p) && p'.ctx == p.ctx
    ensures Live(p') ==> LiveLogin(p') == LiveLogin(p)
  {}

  lemma ScanSender(p: Peer, q: Peer, w: seq<Envelope>, v: seq<Envelope>, now: int, candidate: Bytes)
    requires Flow(p, q, w, v) && PeerGood(p) && PeerGood(q) && AgreeEverywhere(p, q) && p.phase.Idle? && !p.stopped
    ensures Flow(Begin(p, now, candidate), q, w, v)
  {
    hide DueLogin, Flow, PeerGood, Live, AgreeEverywhere;
    var p' := Begin(p, now, candidate);
    if !Active(p.ctx) {
      NotRunning(p, p');
      if DueLogin(p.mem.order, p.mem.to, now).Some? {
        PreparesSender(p, p', q, w, v, DueLogin(p.mem.order, p.mem.to, now).value, candidate);
      } else {
        FlowInq(p, q, w, v);
        SenderFrame(p, p', q, w, v, v);
      }
    }
  }

  lemma NotRunning(p: Peer, p': Peer)
    requires !Active(p.ctx) && p.phase.Idle?
    ensures !Live(p) && Engaged(p) == None
    ensures (p'.ctx.Some? ==> !p'.ctx.value.running) && !p'.phase.Switched? ==> !Live(p') && Engaged(p') == None
  {}

  lemma FlowInq(p: Peer, q: Peer, w: seq<Envelope>, v: seq<Envelope>)
    requires Flow(p, q, w, v)
    ensures forall x :: x in p.inq ==> Refusal(p, q, x.body)
    ensures forall e, d :: e in v && d in e.data ==> Refusal(p, q, d.body)
  {}

  /** The candidate of a login that had none: so far both ends hold the same password. */
  lemma PreparesSender(p: Peer, p': Peer, q: Peer, w: seq<Envelope>, v: seq<Envelope>, l: Login, candidate: Bytes)
    requires Flow(p, q, w, v) && PeerGood(p) && PeerGood(q) && AgreeEverywhere(p, q) && l in p.mem.to
    requires !Live(p) && !Live(p') && Engaged(p') == None
    requires p' == p.(mem := p.mem.(to := p.mem.to[l := WithCandidate(p.mem.to[l], candidate)]), ctx := p'.ctx, phase := p'.phase)
    ensures Flow(p', q, w, v)
  {
    hide Live, Engaged, Leads, Requests, Items, Derive, GoodStore, DiskLags, ContextGood;
    assert p'.mem.to.Keys == p.mem.to.Keys;
    forall k | k in p'.mem.to && p'.mem.to[k].pending ensures Equal(p', q, k) {
      if k == l && !p.mem.to[l].pending { AgreedEqual(p, q, l); }
      assert Equal(p, q, k);
    }
  }

  lemma AgreedEqual(p: Peer, q: Peer, l: Login)
    requires AgreeEverywhere(p, q) && l in p.mem.to && l in p.disk.to && l in q.mem.from && l in q.disk.from
    requires !p.mem.to[l].pending
    ensures Equal(p, q, l)
  {}

  lemma SaveSender(p: Peer, q: Peer, w: seq<Envelope>, v: seq<Envelope>)
    requires Flow(p, q, w, v) && CanSave(p)
    ensures Flow(SaveStep(p), q, w, v)
  {
    hide Flow, Derive;
    FlowInq(p, q, w, v);
    SenderFrame(p, SaveStep(p), q, w, v, v);
  }

  lemma EmitSender(p: Peer, q: Peer, w: seq<Envelope>, v: seq<Envelope>, next: nat)
    requires Flow(p, q, w, v) && CanEmit(p) && PeerGood(p) && !p.stopped && AllOlder(p, w, next) && AllOlder(q, v, next)
    ensures Flow(EmitStep(p, next, next + 1), q, w, v)
  {
    hide Flow, Derive, Base64.Encode, PeerGood, AllOlder;
    if p.phase.Stored? {
      ChallengeSender(p, q, w, v, next);
    } else {
      FlowInq(p, q, w, v);
      SenderFrame(p, EmitStep(p, next, next + 1), q, w, v, v);
    }
  }

  lemma ChallengeSender(p: Peer, q: Peer, w: seq<Envelope>, v: seq<Envelope>, next: nat)
    requires Flow(p, q, w, v) && CanEmit(p) && p.phase.Stored? && PeerGood(p) && !p.stopped
    requires AllOlder(p, w, next) && AllOlder(q, v, next)
    ensures Flow(EmitStep(p, next, next + 1), q, w, v)
  {
    hide Leads, Items, Derive, Base64.Encode, GoodStore, Equal;
    var p' := EmitStep(p, next, next + 1);
    var o := p'.sendq[|p.sendq|];
    assert p'.sendq == p.sendq + [o];
    ItemsPush(w, p.sendq, o);
    LeadsAsk(Items(w, p.sendq), p.phase.login);
    SameEqual(p, p', q);
    CountAppend(IsReady, p.sendq, [o]);
    assert [o][1..] == [];
  }

  lemma ReceiveSender(p: Peer, q: Peer, w: seq<Envelope>, v: seq<Envelope>, late: bool)
    requires Flow(p, q, w, v) && v != []
    ensures Flow(Peers.Receive(p, v[0], late), q, w, v[1..])
  {
    hide Flow, Refusal, OpenKey, Opened, Internal, External;
    var p' := Peers.Receive(p, v[0], late);
    FlowInq(p, q, w, v);
    Taken(p, v[0], late);
    forall x | x in p'.inq ensures Refusal(p, q, x.body) {
      if x !in p.inq {
        var d :| d in v[0].data && d.body == x.body;
        assert v[0] in v;
      }
    }
    SenderFrame(p, p', q, w, v, v[1..]);
  }

  /** Without a login given the payload never goes under the challenged one. */
  lemma OtherLogin(p: Peer)
    requires PeerGood(p) && !p.stopped && SendLogin(p, None).Some?
    ensures SendLogin(p, None).value in p.mem.to && SendLogin(p, None) != Engaged(p)
  {
    hide GoodTo, GoodFrom, DiskLags;
    assert forall l :: l in p.mem.order ==> l in p.mem.to;
  }

  lemma SendSender(p: Peer, q: Peer, w: seq<Envelope>, v: seq<Envelope>, payload: Bytes)
    requires Flow(p, q, w, v) && PeerGood(p) && !p.stopped
    ensures Flow(Peers.Send(p, None, payload), q, w, v)
  {
    hide SendLogin, PeerGood, Leads, Items, Derive, Equal, Live;
    var p' := Peers.Send(p, None, payload);
    if p' != p {
      OtherLogin(p);
      var o := ToSeal(SendLogin(p, None), Application(payload));
      assert p'.sendq == p.sendq + [o];
      ItemsPush(w, p.sendq, o);
      SameCourse(p, p', q, w, o);
      if Engaged(p).Some? { LeadsPush(Items(w, p.sendq), Engaged(p).value, Waiting(o)); }
    }
  }

  lemma SameCourse(p: Peer, p': Peer, q: Peer, w: seq<Envelope>, o: Outgoing)
    requires p' == p.(sendq := p.sendq + [o]) && o.ToSeal?
    ensures Live(p') == Live(p) && Engaged(p') == Engaged(p) && Requests(p', q, w) == Requests(p, q, w)
    ensures Live(p) ==> LiveLogin(p') == LiveLogin(p)
    ensures forall l :: Equal(p', q, l) == Equal(p, q, l)
  {
    assert p'.sendq[|p.sendq|] == o;
    SameRequests(p, p', q, w);
  }

  lemma ItemsMove(w: seq<Envelope>, sendq: seq<Outgoing>, e: Envelope)
    requires sendq != [] && OnWire(e) == Waiting(sendq[0])
    ensures Items(w + [e], sendq[1..]) == Items(w, sendq)
  {}

  lemma ItemsDrop(w: seq<Envelope>, sendq: seq<Outgoing>)
    requires sendq != [] && Waiting(sendq[0]) == Rest
    ensures var a, b := Items(w, []), Items([], sendq[1..]);
            Items(w, sendq) == a + [Rest] + b && Items(w, sendq[1..]) == a + b
  {}

  /** Without a challenge on its way no payload is under the engaged login. */
  lemma NoLoadEngaged(p: Peer, q: Peer, w: seq<Envelope>, v: seq<Envelope>)
    requires Flow(p, q, w, v) && Engaged(p).Some? && Count(IsChallenge, w) == 0 && Count(IsReady, p.sendq) == 0
    ensures forall e :: e in w && OnWire(e).Load? ==> OnWire(e).login != Engaged(p).value
    ensures forall o :: o in p.sendq && Waiting(o).Load? ==> Waiting(o).login != Engaged(p).value
  {
    hide Live, Engaged, Certain, Refusals, SealedNow;
    CountZero(IsChallenge, w);
    CountZero(IsReady, p.sendq);
    var items := Items(w, p.sendq);
    forall i | 0 <= i < |items| ensures items[i] != Ask {
      if i < |w| { assert w[i] in w; } else { assert p.sendq[i - |w|] in p.sendq; }
    }
    LeadsNone(items, Engaged(p).value);
    forall e | e in w && OnWire(e).Load? ensures OnWire(e).login != Engaged(p).value {
      var i :| 0 <= i < |w| && w[i] == e;
      assert items[i] == OnWire(e);
    }
    forall o | o in p.sendq && Waiting(o).Load? ensures Waiting(o).login != Engaged(p).value {
      var i :| 0 <= i < |p.sendq| && p.sendq[i] == o;
      assert items[|w| + i] == Waiting(o);
    }
  }

  /** A payload leaves sealed under its login's password, late or not. */
  lemma SealedAsNow(p: Peer, q: Peer, w: seq<Envelope>, v: seq<Envelope>, late: bool)
    requires Flow(p, q, w, v) && PeerGood(p) && RequestsGood(p, q, w) && p.sendq != []
    ensures var o, e := p.sendq[0], Sent(p, p.sendq[0], late);
            && (e.Some? ==> OnWire(e.value) == Waiting(o) && SealedNow(p, e.value))
            && (Waiting(o).Load? ==> e.Some?)
            && (e.None? ==> Waiting(o) == Rest)
  {
    hide Leads, Items, Derive, Equal, Base64.Encode, GoodStore, ContextGood, Certain, Refusals, Requests;
    var o := p.sendq[0];
    assert o in p.sendq && Named(p, o);
    if Waiting(o).Load? && p.phase.Switched? {
      NotLive(p, q, w, v);
      CountZero(IsChallenge, w);
      CountZero(IsReady, p.sendq);
      NoLoadEngaged(p, q, w, v);
    }
  }

  lemma TransmitSender(p: Peer, q: Peer, w: seq<Envelope>, v: seq<Envelope>, late: bool)
    requires Flow(p, q, w, v) && PeerGood(p) && RequestsGood(p, q, w) && p.sendq != []
    ensures Flow(p.(sendq := p.sendq[1..]), q, WithSent(w, Sent(p, p.sendq[0], late)), v)
  {
    hide PeerGood, RequestsGood, Leads, Items, Derive, Equal, Live, Sent, Requests;
    var o, e, p' := p.sendq[0], Sent(p, p.sendq[0], late), p.(sendq := p.sendq[1..]);
    var w' := WithSent(w, e);
    SealedAsNow(p, q, w, v, late);
    WiresSame(p, q, w, late);
    if e.Some? {
      ItemsMove(w, p.sendq, e.value);
    } else {
      ItemsDrop(w, p.sendq);
      if Engaged(p).Some? { LeadsDrop(Items(w, []), Items([], p.sendq[1..]), Engaged(p).value); }
    }
    assert forall x :: x in p'.sendq ==> x in p.sendq;
  }

  lemma WiresSame(p: Peer, q: Peer, w: seq<Envelope>, late: bool)
    requires RequestsGood(p, q, w) && p.sendq != []
    ensures var p', w' := p.(sendq := p.sendq[1..]), WithSent(w, Sent(p, p.sendq[0], late));
            && Requests(p', q, w') == Requests(p, q, w) && Live(p') == Live(p) && Engaged(p') == Engaged(p)
            && (Live(p) ==> LiveLogin(p') == LiveLogin(p)) && forall l :: Equal(p', q, l) == Equal(p, q, l)
  {
    hide LiveEnvelope, SealKey;
    Rounds.WireMoves(p, q, w, late);
  }

  /** A true answer completes the switch: no payload is under the login any more, and the password is q's. */
  lemma SwitchSender(p: Peer, p0: Peer, q: Peer, w: seq<Envelope>, v: seq<Envelope>, now: int)
    requires Flow(p, q, w, v) && RequestsGood(p, q, w) && Live(p) && Requests(p, q, w) == 0 && p.phase.Idle?
    requires p0 == p.(inq := p0.inq) && forall x :: x in p0.inq ==> x in p.inq
    ensures Flow(SwitchInMemory(p0, now), q, w, v)
  {
    hide Leads, Items, Derive, Requests, LiveEnvelope;
    var p' := SwitchInMemory(p0, now);
    assert Requests(p, q, w) == 0 ==> Count(IsChallenge, w) == 0 && Count(IsReady, p.sendq) == 0 by { NoneCounted(p, q, w); }
    NoLoadEngaged(p, q, w, v);
    assert p'.mem.to.Keys == p.mem.to.Keys;
    forall l | l in p'.mem.to && p'.mem.to[l].pending ensures Equal(p', q, l) {
      assert l != LiveLogin(p) && Equal(p, q, l);
    }
  }

  lemma NoneCounted(p: Peer, q: Peer, w: seq<Envelope>)
    ensures Requests(p, q, w) == 0 ==> Count(IsChallenge, w) == 0 && Count(IsReady, p.sendq) == 0
  {}

  /** A refusal ends the challenge; it says that q still has the old password. */
  lemma RefusedSender(p: Peer, p0: Peer, q: Peer, w: seq<Envelope>, v: seq<Envelope>, o: nat, now: int)
    requires Flow(p, q, w, v) && Live(p) && o == p.ctx.value.mIdRequest && p.phase.Idle?
    requires p0 == p.(inq := p0.inq) && (forall x :: x in p0.inq ==> x in p.inq)
    requires Refusal(p, q, ChangePwdResponse(o, false))
    ensures Flow(OnResponse(p0, o, false, now), q, w, v)
  {
    hide Leads, Items, Derive, Requests;
    var p' := OnResponse(p0, o, false, now);
    forall l | l in p'.mem.to && p'.mem.to[l].pending ensures Equal(p', q, l) {
      if l != LiveLogin(p) { assert Equal(p, q, l); }
    }
  }

  lemma PoppedSender(p: Peer, p0: Peer, q: Peer, w: seq<Envelope>, v: seq<Envelope>)
    requires Flow(p, q, w, v) && p0 == p.(inq := p0.inq) && forall x :: x in p0.inq ==> x in p.inq
    ensures Flow(p0, q, w, v)
  {
    hide Flow, Refusal;
    FlowInq(p, q, w, v);
    SenderFrame(p, p0, q, w, v, v);
  }

  /** What the invariant of the session says about the answer p takes up. */
  lemma AnswerAt(p: Peer, q: Peer, w: seq<Envelope>, v: seq<Envelope>, x: Incoming)
    requires SessionGood(p, q, w, v) && PeerGood(p) && x in p.inq && !p.stopped && p.phase.Idle?
    requires p.ctx.Some? && p.ctx.value.running
    ensures Live(p) && RequestsGood(p, q, w)
    ensures x.body.ChangePwdResponse? && x.body.oMId == p.ctx.value.mIdRequest ==> Requests(p, q, w) == 0
    ensures x.body.Pong? && x.body.oMId == p.ctx.value.mIdPing ==> Requests(p, q, w) == 0
  {
    hide Requests, PingsGood, GoodStore, DiskLags, Holds;
    assert ReplyGood(p, q, w, x.body);
  }

  lemma ProcessSender(p: Peer, q: Peer, w: seq<Envelope>, v: seq<Envelope>, now: int)
    requires Flow(p, q, w, v) && SessionGood(p, q, w, v) && PeerGood(p) && !p.stopped && p.phase.Idle? && p.inq != []
    ensures Flow(Peers.Process(p, now), q, w, v)
  {
    hide Flow, SessionGood, PeerGood, Requests, RequestsGood, SwitchInMemory, OnRequest, Refusal, Live;
    var x, p0 := p.inq[0], p.(inq := p.inq[1..]);
    assert x in p.inq && forall y :: y in p0.inq ==> y in p.inq;
    FlowInq(p, q, w, v);
    PoppedSender(p, p0, q, w, v);
    if p.ctx.Some? && p.ctx.value.running { AnswerAt(p, q, w, v, x); }
    var p' := Handle(p0, x.login, x.body, now);
    match x.body
    case ChangePwdRequest(m, text) => RequestSender(p0, q, w, v, x.login, m, text, now);
    case ChangePwdResponse(o, status) =>
      if p.ctx.Some? && p.ctx.value.running && o == p.ctx.value.mIdRequest {
        if status { SwitchSender(p, p0, q, w, v, now); } else { RefusedSender(p, p0, q, w, v, o, now); }
      }
    case Pong(o) =>
      if p.ctx.Some? && p.ctx.value.running && o == p.ctx.value.mIdPing { SwitchSender(p, p0, q, w, v, now); }
    case Ping(m) => QueuedSender(p0, p', q, w, v, ToSeal(None, Pong(m)));
    case AllClear => SameSender(p0, p', q, w, v);
    case Application(_) =>
  }

  lemma SameSender(p: Peer, p': Peer, q: Peer, w: seq<Envelope>, v: seq<Envelope>)
    requires Flow(p, q, w, v) && p' == p.(allClearRxed := p'.allClearRxed)
    ensures Flow(p', q, w, v)
  {
    hide Flow, Refusal;
    FlowInq(p, q, w, v);
    SenderFrame(p, p', q, w, v, v);
  }

  lemma QueuedSender(p: Peer, p': Peer, q: Peer, w: seq<Envelope>, v: seq<Envelope>, o: Outgoing)
    requires Flow(p, q, w, v) && p' == p.(sendq := p.sendq + [o]) && Plain(o)
    ensures Flow(p', q, w, v)
  {
    hide Flow, Refusal;
    FlowInq(p, q, w, v);
    SenderFrame(p, p', q, w, v, v);
  }

  lemma RequestSender(p: Peer, q: Peer, w: seq<Envelope>, v: seq<Envelope>, l: Login, m: nat, text: string, now: int)
    requires Flow(p, q, w, v) && p.phase.Idle?
    ensures Flow(OnRequest(p, l, m, text, now), q, w, v)
  {
    hide Flow, Refusal, Busy, GuardAccepts, Base64.Decode;
    FlowInq(p, q, w, v);
    SenderFrame(p, OnRequest(p, l, m, text, now), q, w, v, v);
  }

  // -------------------------------------------------------- a step of the receiving side

  /** q keeps its FROM passwords, or saves them, and sends no refusal that is not true. */
  lemma ReceiverFrame(p: Peer, q: Peer, q': Peer, w: seq<Envelope>, v: seq<Envelope>, v': seq<Envelope>)
    requires Flow(p, q, w, v) && q'.inq == q.inq && q'.mem.from == q.mem.from
    requires q'.disk.from == q.disk.from || q'.disk.from == q.mem.from
    requires forall o :: o in q'.sendq && o.ToSeal? ==> Refusal(p, q, o.body)
    requires forall e, d :: e in v' && d in e.data ==> Refusal(p, q, d.body)
    ensures Flow(p, q', w, v')
  {
    hide Live, Leads, Items, SealedNow, Named;
    assert forall l :: Equal(p, q, l) ==> Equal(p, q', l);
  }

  lemma FlowOut(p: Peer, q: Peer, w: seq<Envelope>, v: seq<Envelope>)
    requires Flow(p, q, w, v)
    ensures forall o :: o in q.sendq && o.ToSeal? ==> Refusal(p, q, o.body)
    ensures forall e, d :: e in v && d in e.data ==> Refusal(p, q, d.body)
  {}

  lemma ScanReceiver(p: Peer, q: Peer, w: seq<Envelope>, v: seq<Envelope>, now: int, candidate: Bytes)
    requires Flow(p, q, w, v)
    ensures Flow(p, Begin(q, now, candidate), w, v)
  {
    hide DueLogin, Flow, Live;
    FlowOut(p, q, w, v);
    ReceiverFrame(p, q, Begin(q, now, candidate), w, v, v);
  }

  lemma SaveReceiver(p: Peer, q: Peer, w: seq<Envelope>, v: seq<Envelope>)
    requires Flow(p, q, w, v) && CanSave(q)
    ensures Flow(p, SaveStep(q), w, v)
  {
    hide Flow, Refusal;
    FlowOut(p, q, w, v);
    ReceiverFrame(p, q, SaveStep(q), w, v, v);
  }

  lemma EmitReceiver(p: Peer, q: Peer, w: seq<Envelope>, v: seq<Envelope>, m1: nat, m2: nat)
    requires Flow(p, q, w, v) && CanEmit(q)
    ensures Flow(p, EmitStep(q, m1, m2), w, v)
  {
    hide Flow, ChallengeEnvelope, Live, Equal;
    FlowOut(p, q, w, v);
    ReceiverFrame(p, q, EmitStep(q, m1, m2), w, v, v);
  }

  lemma SendReceiver(p: Peer, q: Peer, w: seq<Envelope>, v: seq<Envelope>, login: Option<Login>, payload: Bytes)
    requires Flow(p, q, w, v)
    ensures Flow(p, Peers.Send(q, login, payload), w, v)
  {
    hide Flow, SendLogin, Live, Equal;
    FlowOut(p, q, w, v);
    ReceiverFrame(p, q, Peers.Send(q, login, payload), w, v, v);
  }

  lemma TransmitReceiver(p: Peer, q: Peer, w: seq<Envelope>, v: seq<Envelope>, late: bool)
    requires Flow(p, q, w, v) && RequestsGood(q, p, v) && q.sendq != []
    ensures Flow(p, q.(sendq := q.sendq[1..]), w, WithSent(v, Sent(q, q.sendq[0], late)))
  {
    hide Flow, SealKey, Refusal;
    var o, v' := q.sendq[0], WithSent(v, Sent(q, q.sendq[0], late));
    assert o in q.sendq;
    FlowOut(p, q, w, v);
    forall e, d | e in v' && d in e.data ensures Refusal(p, q, d.body) {
      if e !in v {
        assert e == Sent(q, o, late).value;
        if o.Ready? { ChallengeHarmless(p, q, e, d); }
      }
    }
    ReceiverFrame(p, q, q.(sendq := q.sendq[1..]), w, v, v');
  }

  lemma ChallengeHarmless(p: Peer, q: Peer, e: Envelope, d: Sealed)
    requires Live(q) && e == LiveEnvelope(q) && d in e.data
    ensures Refusal(p, q, d.body)
  {
    hide Base64.Encode, SealKey, Equal;
  }

  function RequestBodies(data: seq<Sealed>): nat {
    if data == [] then 0 else (if data[0].body.ChangePwdRequest? then 1 else 0) + RequestBodies(data[1..])
  }

  lemma {:induction false} OpensFewer(login: Login, data: seq<Sealed>, key: Key)
    ensures Count(IsRequest, Internal(login, Opened(data, key))) <= RequestBodies(data)
  {
    if data != [] {
      OpensFewer(login, data[1..], key);
      var rest := Opened(data[1..], key);
      if data[0].key == key {
        var list := [data[0].body] + rest;
        assert Opened(data, key) == list && list[1..] == rest;
        var more := if list[0].Application? then [] else [Incoming(login, list[0])];
        CountAppend(IsRequest, more, Internal(login, rest));
        assert more != [] ==> more[1..] == [];
      } else {
        assert [] + rest == rest;
      }
    }
  }

  lemma BodiesOf(p: Peer, e: Envelope)
    requires PlainEnvelope(e) || (Live(p) && e == LiveEnvelope(p))
    ensures RequestBodies(e.data) == if IsChallenge(e) then 1 else 0
  {
    hide Base64.Encode, SealKey;
    if PlainEnvelope(e) {
      assert e.data[1..] == [];
    } else {
      assert e.data[1..][1..] == [] && e.data[1..][0] == e.data[1] && RequestBodies([]) == 0;
      assert RequestBodies(e.data[1..]) == 0 + RequestBodies(e.data[1..][1..]);
    }
  }

  /** Taking an envelope never makes more requests of it. */
  lemma NoMoreRequests(p: Peer, q: Peer, w: seq<Envelope>, late: bool)
    requires RequestsGood(p, q, w) && w != []
    ensures Requests(p, Peers.Receive(q, w[0], late), w[1..]) <= Requests(p, q, w)
  {
    hide OpenKey, LiveEnvelope, Opened, Internal, External;
    var e := w[0];
    assert e in w;
    BodiesOf(p, e);
    if e.login in q.mem.from {
      var more := Internal(e.login, Opened(e.data, OpenKey(q, e.login, late)));
      OpensFewer(e.login, e.data, OpenKey(q, e.login, late));
      CountAppend(IsRequest, q.inq, more);
    }
  }

  lemma ItemsPop(w: seq<Envelope>, sendq: seq<Outgoing>)
    requires w != []
    ensures var items := Items(w, sendq);
            items != [] && items[0] == OnWire(w[0]) && items[1..] == Items(w[1..], sendq)
  {}

  lemma ReceiveReceiver(p: Peer, q: Peer, w: seq<Envelope>, v: seq<Envelope>, late: bool)
    requires Flow(p, q, w, v) && RequestsGood(p, q, w) && w != []
    ensures Flow(p, Peers.Receive(q, w[0], late), w[1..], v)
  {
    hide RequestsGood, Leads, Items, SealKey, Requests, Live, Opened, Internal, External, OpenKey, Refusal;
    var q' := Peers.Receive(q, w[0], late);
    NoMoreRequests(p, q, w, late);
    ItemsPop(w, p.sendq);
    if Engaged(p).Some? { LeadsPop(Items(w, p.sendq), Engaged(p).value); }
    assert forall l :: Equal(p, q', l) == Equal(p, q, l);
    assert forall body :: Refusal(p, q', body) == Refusal(p, q, body) by { SameRefusal(p, q, q'); }
  }

  lemma SameRefusal(p: Peer, q: Peer, q': Peer)
    requires q'.mem.from == q.mem.from && q'.disk.from == q.disk.from
    ensures forall body :: Refusal(p, q', body) == Refusal(p, q, body)
  {
    hide Live;
  }

  /** While its request is still on its way, nothing refuses the live challenge. */
  lemma NotRefused(p: Peer, q: Peer, w: seq<Envelope>, v: seq<Envelope>)
    requires SessionGood(p, q, w, v) && Live(p) && Requests(p, q, w) > 0
    ensures var m := ChangePwdResponse(p.ctx.value.mIdRequest, false);
            && (forall x :: x in p.inq ==> x.body != m) && (forall e, d :: e in v && d in e.data ==> d.body != m)
            && (forall o :: o in q.sendq && o.ToSeal? ==> o.body != m)
  {
    hide Requests, RequestsGood, PingsGood, Holds;
    var m := ChangePwdResponse(p.ctx.value.mIdRequest, false);
    assert !ReplyGood(p, q, w, m);
  }

  lemma RequestReceiver(p: Peer, q: Peer, w: seq<Envelope>, v: seq<Envelope>, now: int)
    requires Flow(p, q, w, v) && SessionGood(p, q, w, v) && PeerGood(p) && PeerGood(q)
    requires q.phase.Idle? && q.inq != [] && q.inq[0].body.ChangePwdRequest?
    ensures Flow(p, Peers.Process(q, now), w, v)
  {
    hide SessionGood, PeerGood, Leads, Items, Derive, Base64.Decode, Base64.Encode, GuardAccepts, Busy, SealedNow,
         Named,
         Requests, Live, Engaged;
    var x, q' := q.inq[0], Peers.Process(q, now);
    RequestTaken(p, q, w, v);
    NotRefused(p, q, w, v);
    SavedKeys(q);
    var l := LiveLogin(p);
    var q0 := q.(inq := q.inq[1..]);
    assert Requests(p, q', w) == 0 by { FewerRequests(p, q, q', w); }
    assert Equal(p, q, l);
    forall k | k in p.mem.to && p.mem.to[k].pending && !Consumed(p, q', w, k) ensures Equal(p, q', k) {
      assert k != l && Equal(p, q, k);
    }
    if q'.phase.Installed? {
      assert q'.sendq == q.sendq;
    } else {
      SameRefusal(p, q, q');
    }
  }

  lemma RequestTaken(p: Peer, q: Peer, w: seq<Envelope>, v: seq<Envelope>)
    requires SessionGood(p, q, w, v) && PeerGood(p) && q.inq != [] && q.inq[0].body.ChangePwdRequest?
    ensures Live(p) && q.inq[0].login == LiveLogin(p) && q.inq[0].body.mId == p.ctx.value.mIdRequest
    ensures Requests(p, q, w) == 1 && LiveLogin(p) in p.mem.to && p.mem.to[LiveLogin(p)].pending
    ensures RequestsGood(p, q, w)
  {
    hide RepliesGood, PingsGood, LiveEnvelope, Base64.Encode;
    assert q.inq[0] in q.inq && OpenedRequestGood(p, q.inq[0]);
  }

  lemma FewerRequests(p: Peer, q: Peer, q': Peer, w: seq<Envelope>)
    requires q.inq != [] && q'.inq == q.inq[1..]
    ensures Requests(p, q', w) == Requests(p, q, w) - (if q.inq[0].body.ChangePwdRequest? then 1 else 0)
  {}

  lemma ProcessReceiver(p: Peer, q: Peer, w: seq<Envelope>, v: seq<Envelope>, now: int)
    requires Flow(p, q, w, v) && SessionGood(p, q, w, v) && PeerGood(p) && PeerGood(q) && q.phase.Idle? && q.inq != []
    ensures Flow(p, Peers.Process(q, now), w, v)
  {
    hide Flow, SessionGood, PeerGood, Live, Equal, Peers.Process;
    if q.inq[0].body.ChangePwdRequest? {
      RequestReceiver(p, q, w, v, now);
    } else {
      var q0 := q.(inq := q.inq[1..]);
      PoppedReceiver(p, q, q0, w, v);
      FlowOut(p, q0, w, v);
      OtherMessage(q, now);
      ReceiverFrame(p, q0, Peers.Process(q, now), w, v, v);
    }
  }

  /** Handling anything but a request changes no FROM password and queues no refusal. */
  lemma OtherMessage(q: Peer, now: int)
    requires q.inq != [] && !q.inq[0].body.ChangePwdRequest?
    ensures var q' := Peers.Process(q, now);
            && q'.inq == q.inq[1..] && q'.mem.from == q.mem.from && q'.disk == q.disk
            && forall o :: o in q'.sendq && o !in q.sendq ==> o.ToSeal? && !o.body.ChangePwdResponse?
  {
    hide OnRequest, OnResponse, OnPong;
    var x, q0 := q.inq[0], q.(inq := q.inq[1..]);
    match x.body
    case ChangePwdResponse(o, status) => OnlyTo(q0, o, status, now);
    case Pong(o) => OnlyTo(q0, o, true, now);
    case _ =>
  }

  lemma OnlyTo(q: Peer, o: nat, status: bool, now: int)
    ensures var a, b := OnResponse(q, o, status, now), OnPong(q, o, now);
            && a.mem.from == b.mem.from == q.mem.from && a.disk == b.disk == q.disk
            && a.inq == b.inq == q.inq && a.sendq == b.sendq == q.sendq
  {}

  lemma PoppedReceiver(p: Peer, q: Peer, q0: Peer, w: seq<Envelope>, v: seq<Envelope>)
    requires Flow(p, q, w, v) && q.inq != [] && q0 == q.(inq := q.inq[1..]) && !q.inq[0].body.ChangePwdRequest?
    ensures Flow(p, q0, w, v)
  {
    hide Leads, Items, Requests, Live, SealedNow, Named;
    FewerRequests(p, q, q0, w);
    SameRefusal(p, q, q0);
    assert forall l :: Equal(p, q0, l) == Equal(p, q, l);
  }

  // ------------------------------------------------------------------------- delivery

  /** Whatever key the receive thread uses, the payload at the head of the wire opens. */
  lemma LoadKey(p: Peer, q: Peer, w: seq<Envelope>, v: seq<Envelope>, late: bool)
    requires Flow(p, q, w, v) && PeerGood(p) && PeerGood(q) && AgreeEverywhere(p, q) && w != [] && OnWire(w[0]).Load?
    ensures w[0].login in p.mem.to && w[0].login in q.mem.from
    ensures Held(q.mem.from, q.disk.from, w[0].login, late) == p.mem.to[w[0].login].pwd
  {
    hide Leads, Items, Derive, GoodStore, DiskLags, ContextGood, AgreeEverywhere, Live, Requests, Refusals, Named,
         Equal;
    var l := w[0].login;
    assert w[0] in w && SealedNow(p, w[0]);
    if p.mem.to[l].pending {
      NotConsumed(p, q, w, v);
    } else {
      AgreedEqual(p, q, l);
    }
    EqualHeld(p, q, l, late);
  }

  lemma EqualHeld(p: Peer, q: Peer, l: Login, late: bool)
    requires Equal(p, q, l)
    ensures Held(q.mem.from, q.disk.from, l, late) == p.mem.to[l].pwd
  {}

  lemma NotConsumed(p: Peer, q: Peer, w: seq<Envelope>, v: seq<Envelope>)
    requires Flow(p, q, w, v) && w != [] && OnWire(w[0]).Load?
    ensures !Consumed(p, q, w, w[0].login)
  {
    hide Leads, Items, Derive, Certain, Refusals, SealedNow, Named, Equal;
    assert w[0] in w;
    if Consumed(p, q, w, w[0].login) {
      NoneCounted(p, q, w);
      NoLoadEngaged(p, q, w, v);
    }
  }

  lemma {:induction false} NoPayloads(data: seq<Sealed>, key: Key)
    requires forall d :: d in data ==> !d.body.Application?
    ensures External(Opened(data, key)) == []
  {
    if data != [] {
      NoPayloads(data[1..], key);
      var rest := Opened(data[1..], key);
      assert data[0] in data;
      if data[0].key == key {
        assert Opened(data, key) == [data[0].body] + rest && ([data[0].body] + rest)[1..] == rest;
      } else {
        assert [] + rest == rest;
      }
    }
  }

  lemma Delivers(p: Peer, q: Peer, w: seq<Envelope>, v: seq<Envelope>, late: bool)
    requires Flow(p, q, w, v) && RequestsGood(p, q, w) && PeerGood(p) && PeerGood(q) && AgreeEverywhere(p, q)
    requires Matched(p, q) && w != []
    ensures Peers.Receive(q, w[0], late).extq
            == q.extq + match OnWire(w[0]) case Load(_, x) => [x] case _ => []
  {
    hide Flow, RequestsGood, PeerGood, AgreeEverywhere, LiveEnvelope, Opened, Internal, External, Derive;
    var e := w[0];
    KindOfHead(p, q, w);
    if OnWire(e).Load? {
      LoadKey(p, q, w, v, late);
      LoadSealed(p, q, w, v);
      KeysAgree(p.cipher, p.me, q.me, e.login, p.mem.to[e.login].pwd, Held(q.mem.from, q.disk.from, e.login, late));
      OpensLoad(p, q, e, late);
    } else {
      assert q.extq + [] == q.extq;
      if e.login in q.mem.from { NoPayloads(e.data, OpenKey(q, e.login, late)); }
    }
  }

  lemma LoadSealed(p: Peer, q: Peer, w: seq<Envelope>, v: seq<Envelope>)
    requires Flow(p, q, w, v) && w != [] && OnWire(w[0]).Load?
    ensures SealedNow(p, w[0])
  {
    assert w[0] in w;
  }

  lemma KindOfHead(p: Peer, q: Peer, w: seq<Envelope>)
    requires RequestsGood(p, q, w) && w != []
    ensures !OnWire(w[0]).Load? ==> forall d :: d in w[0].data ==> !d.body.Application?
  {
    hide Base64.Encode, SealKey;
    assert w[0] in w;
  }

  lemma OpensLoad(p: Peer, q: Peer, e: Envelope, late: bool)
    requires OnWire(e).Load? && |e.data| == 1 && e.login in q.mem.from && e.data[0].key == OpenKey(q, e.login, late)
    ensures Peers.Receive(q, e, late).extq == q.extq + [OnWire(e).payload]
  {
    hide OpenKey;
    OpenedOne(e.data, OpenKey(q, e.login, late));
    Rounds.InternalOne(e.login, e.data[0].body);
  }

  // ----------------------------------------------------------------------- whole runs

  predicate FlowAt(n: Net, s: Side) {
    && GoodChannel(n.From(s)) && GoodChannel(n.From(Other(s)))
    && Flow(n.At(s), n.At(Other(s)), InFlight(n.From(s)), InFlight(n.From(Other(s))))
  }

  /** An open session in which side s has not announced AllClear, or its payloads are safe. */
  ghost predicate Flows(n: Net, s: Side) {
    && Gate.GateInv(n) && !n.left.stopped && !n.right.stopped && Shared(n.At(s), n.At(Other(s)))
    && (n.At(s).allClearSent ==> FlowAt(n, s))
  }

  /** Within the session, and without a login named by the application of side s. */
  predicate InSession(a: Label, s: Side) {
    !a.Disconnect? && !a.Connect? && !a.Crash? && (a.Send? && a.side == s ==> a.login.None?)
  }

  /** What has arrived at the other side, followed by what is on its way. */
  function Pipeline(n: Net, s: Side): seq<Bytes>
    requires GoodChannel(n.From(s))
  {
    n.At(Other(s)).extq + Carried(Items(InFlight(n.From(s)), n.At(s).sendq))
  }

  /** The payload the step takes from the application of side s. */
  function Handed(n: Net, a: Label, s: Side): seq<Bytes>
    requires Enabled(n, a)
  {
    if a.Send? && a.side == s && Next(n, a).At(s).sendq != n.At(s).sendq then [a.payload] else []
  }

  lemma CarriedPush(w: seq<Envelope>, sendq: seq<Outgoing>, o: Outgoing)
    ensures Carried(Items(w, sendq + [o])) == Carried(Items(w, sendq)) + match Waiting(o) case Load(_, x) => [x] case _ => []
  {
    hide Items;
    ItemsPush(w, sendq, o);
    CarriedAppend(Items(w, sendq), [Waiting(o)]);
    assert [Waiting(o)][1..] == [];
    assert Carried(Items(w, sendq)) + [] == Carried(Items(w, sendq));
  }

  /** The side's queue is the same, or has one more message that is no payload. */
  predicate QueuesPlain(p: Peer, p': Peer) {
    || p'.sendq == p.sendq
    || (|p'.sendq| == |p.sendq| + 1 && p'.sendq == p.sendq + [p'.sendq[|p.sendq|]] && !Waiting(p'.sendq[|p.sendq|]).Load?)
  }

  lemma PlainCarried(w: seq<Envelope>, p: Peer, p': Peer)
    requires QueuesPlain(p, p')
    ensures Carried(Items(w, p'.sendq)) == Carried(Items(w, p.sendq))
  {
    hide Items;
    if p'.sendq != p.sendq { CarriedPush(w, p.sendq, p'.sendq[|p.sendq|]); }
  }

  lemma ProcessQueues(p: Peer, now: int)
    requires p.inq != []
    ensures QueuesPlain(p, Peers.Process(p, now)) && Peers.Process(p, now).extq == p.extq
  {
    hide Peers.Process;
    Gate.ProcessEffect(p, now);
  }

  lemma ScanQueues(p: Peer, now: int, candidate: Bytes)
    ensures QueuesPlain(p, Begin(p, now, candidate)) && Begin(p, now, candidate).extq == p.extq
  {
    hide DueLogin;
  }

  lemma SaveQueues(p: Peer)
    requires CanSave(p)
    ensures SaveStep(p).sendq == p.sendq && SaveStep(p).extq == p.extq
  {}

  lemma EmitQueues(p: Peer, m1: nat, m2: nat)
    requires CanEmit(p)
    ensures QueuesPlain(p, EmitStep(p, m1, m2)) && EmitStep(p, m1, m2).extq == p.extq
  {
    hide Base64.Encode, SealKey;
  }

  lemma TransmitCarries(p: Peer, q: Peer, w: seq<Envelope>, v: seq<Envelope>, late: bool)
    requires Flow(p, q, w, v) && PeerGood(p) && RequestsGood(p, q, w) && p.sendq != []
    ensures Carried(Items(WithSent(w, Sent(p, p.sendq[0], late)), p.sendq[1..])) == Carried(Items(w, p.sendq))
  {
    hide Flow, PeerGood, RequestsGood, Items, Sent;
    SealedAsNow(p, q, w, v, late);
    var e := Sent(p, p.sendq[0], late);
    if e.Some? {
      ItemsMove(w, p.sendq, e.value);
    } else {
      ItemsDrop(w, p.sendq);
      var a, b := Items(w, []), Items([], p.sendq[1..]);
      CarriedAppend(a, [Rest] + b);
      CarriedAppend([Rest], b);
      CarriedAppend(a, b);
      assert a + [Rest] + b == a + ([Rest] + b) && [Rest][1..] == [];
    }
  }

  /** What the invariant of the system gives the direction from s. */
  lemma ForFlow(n: Net, s: Side)
    requires Inv(n) && !n.At(s).stopped
    ensures var p, q, w, v := n.At(s), n.At(Other(s)), InFlight(n.From(s)), InFlight(n.From(Other(s)));
            && PeerGood(p) && PeerGood(q) && AgreeEverywhere(p, q) && SessionGood(p, q, w, v) && SessionGood(q, p, v, w)
            && RequestsGood(p, q, w) && RequestsGood(q, p, v) && Matched(p, q)
            && AllOlder(p, w, n.nextId) && AllOlder(q, v, n.nextId)
  {
    hide PeerGood, AgreeEverywhere, AllOlder, RequestsGood, RepliesGood, PingsGood;
    InvAt(n, s);
  }

  /** A step of side s itself. */
  lemma OwnStep(n: Net, a: Label, s: Side)
    requires Inv(n) && FlowAt(n, s) && !n.At(s).stopped && Enabled(n, a) && InSession(a, s) && a.side == s
    ensures FlowAt(Next(n, a), s) && Pipeline(Next(n, a), s) == Pipeline(n, s) + Handed(n, a, s)
  {
    hide Inv, Flow, PeerGood, AgreeEverywhere, SessionGood, RequestsGood, AllOlder, Begin, SaveStep, EmitStep,
         Peers.Process,
         Peers.Receive, Peers.Send, Sent, CanSave, CanEmit, GoodCandidate, Items, WithSent;
    var p, q, w, v := n.At(s), n.At(Other(s)), InFlight(n.From(s)), InFlight(n.From(Other(s)));
    ForFlow(n, s);
    assert Pipeline(n, s) + [] == Pipeline(n, s);
    match a
    case Scan(_, now, candidate) =>
      ScanSender(p, q, w, v, now, candidate);
      ScanQueues(p, now, candidate);
      PlainCarried(w, p, Begin(p, now, candidate));
    case Save(_) =>
      SaveSender(p, q, w, v);
      SaveQueues(p);
    case Emit(_) =>
      EmitSender(p, q, w, v, n.nextId);
      EmitQueues(p, n.nextId, n.nextId + 1);
      PlainCarried(w, p, EmitStep(p, n.nextId, n.nextId + 1));
    case Process(_, now) =>
      ProcessSender(p, q, w, v, now);
      ProcessQueues(p, now);
      PlainCarried(w, p, Peers.Process(p, now));
    case Send(_, login, payload) =>
      SendSender(p, q, w, v, payload);
      SendCarries(p, q, w, payload);
      assert Pipeline(Next(n, a), s) == Pipeline(n, s) + Handed(n, a, s);
    case Transmit(_, late) =>
      TransmitSender(p, q, w, v, late);
      TransmitCarries(p, q, w, v, late);
      Workload.OnTheWire(n.From(s), Sent(p, p.sendq[0], late));
    case Receive(_, late) =>
      ReceiveSender(p, q, w, v, late);
      Workload.OffTheWire(n.From(Other(s)));
      ReceiveQueues(p, v[0], late);
  }

  lemma ReceiveQueues(p: Peer, e: Envelope, late: bool)
    ensures Peers.Receive(p, e, late).sendq == p.sendq
  {
    hide Opened, Internal, External, OpenKey;
  }

  lemma SendKeepsArrived(p: Peer, login: Option<Login>, payload: Bytes)
    ensures Peers.Send(p, login, payload).extq == p.extq
  {
    hide SendLogin;
  }

  lemma SendCarries(p: Peer, q: Peer, w: seq<Envelope>, payload: Bytes)
    ensures var p' := Peers.Send(p, None, payload);
            && p'.extq == p.extq
            && q.extq + Carried(Items(w, p'.sendq))
               == q.extq + Carried(Items(w, p.sendq)) + if p'.sendq != p.sendq then [payload] else []
  {
    hide SendLogin, Items;
    var p' := Peers.Send(p, None, payload);
    if p' != p {
      CarriedPush(w, p.sendq, ToSeal(SendLogin(p, None), Application(payload)));
      assert q.extq + (Carried(Items(w, p.sendq)) + [payload]) == q.extq + Carried(Items(w, p.sendq)) + [payload];
    }
  }

  /** A step of the other side. */
  lemma OtherStep(n: Net, a: Label, s: Side)
    requires Inv(n) && FlowAt(n, s) && !n.At(s).stopped && Enabled(n, a) && InSession(a, s) && a.side == Other(s)
    ensures FlowAt(Next(n, a), s) && Pipeline(Next(n, a), s) == Pipeline(n, s) && Handed(n, a, s) == []
  {
    hide Inv, Flow, PeerGood, AgreeEverywhere, SessionGood, RequestsGood, AllOlder, Begin, SaveStep, EmitStep,
         Peers.Process,
         Peers.Receive, Peers.Send, Sent, CanSave, CanEmit, GoodCandidate, Items, WithSent;
    var p, q, w, v := n.At(s), n.At(Other(s)), InFlight(n.From(s)), InFlight(n.From(Other(s)));
    ForFlow(n, s);
    match a
    case Scan(_, now, candidate) =>
      ScanReceiver(p, q, w, v, now, candidate);
      ScanQueues(q, now, candidate);
    case Save(_) =>
      SaveReceiver(p, q, w, v);
      SaveQueues(q);
    case Emit(_) =>
      EmitReceiver(p, q, w, v, n.nextId, n.nextId + 1);
      EmitQueues(q, n.nextId, n.nextId + 1);
    case Process(_, now) =>
      ProcessReceiver(p, q, w, v, now);
      ProcessQueues(q, now);
    case Send(_, login, payload) =>
      SendReceiver(p, q, w, v, login, payload);
      SendKeepsArrived(q, login, payload);
    case Transmit(_, late) =>
      TransmitReceiver(p, q, w, v, late);
      Workload.OnTheWire(n.From(Other(s)), Sent(q, q.sendq[0], late));
    case Receive(_, late) =>
      ReceiveReceiver(p, q, w, v, late);
      Workload.OffTheWire(n.From(s));
      DeliversHead(p, q, w, v, late);
  }

  lemma DeliversHead(p: Peer, q: Peer, w: seq<Envelope>, v: seq<Envelope>, late: bool)
    requires Flow(p, q, w, v) && RequestsGood(p, q, w) && PeerGood(p) && PeerGood(q) && AgreeEverywhere(p, q)
    requires Matched(p, q) && w != []
    ensures Peers.Receive(q, w[0], late).extq + Carried(Items(w[1..], p.sendq)) == q.extq + Carried(Items(w, p.sendq))
  {
    hide Flow, RequestsGood, PeerGood, AgreeEverywhere, Peers.Receive, Items;
    Delivers(p, q, w, v, late);
    ItemsPop(w, p.sendq);
    var later := Carried(Items(w[1..], p.sendq));
    match OnWire(w[0])
    case Load(_, x) => assert q.extq + [x] + later == q.extq + ([x] + later);
    case _ => assert q.extq + [] == q.extq;
  }

  lemma StaysOpen(n: Net, a: Label, s: Side)
    requires Enabled(n, a) && InSession(a, s)
    ensures Next(n, a).left.stopped == n.left.stopped && Next(n, a).right.stopped == n.right.stopped
  {
    hide Begin, SaveStep, EmitStep, Peers.Send, Peers.Receive, Sent, CanSave, CanEmit, GoodCandidate, Peers.Process;
    match a
    case Process(s, now) => StopKept(n.At(s), now);
    case Scan(s, now, candidate) => OpenAfterScan(n.At(s), now, candidate);
    case Save(s) => OpenAfterSave(n.At(s));
    case Emit(s) => OpenAfterEmit(n.At(s), n.nextId, n.nextId + 1);
    case Receive(s, late) => OpenAfterTraffic(n.At(s), n.From(Other(s)).log[n.From(Other(s)).taken], late, None, []);
    case Send(s, login, payload) => OpenAfterTraffic(n.At(s), Envelope([], []), false, login, payload);
    case Transmit(_, _) =>
  }

  lemma StopKept(p: Peer, now: int)
    requires p.inq != []
    ensures Peers.Process(p, now).stopped == p.stopped
  {
    hide OnRequest;
    var x := p.inq[0];
    if x.body.ChangePwdRequest? { RequestEffect(p.(inq := p.inq[1..]), x.login, x.body.mId, x.body.pwd, now); }
  }

  lemma OpenAfterScan(p: Peer, now: int, candidate: Bytes)
    ensures Begin(p, now, candidate).stopped == p.stopped
  {
    hide DueLogin;
  }

  lemma OpenAfterSave(p: Peer)
    requires CanSave(p)
    ensures SaveStep(p).stopped == p.stopped
  {}

  lemma OpenAfterEmit(p: Peer, m1: nat, m2: nat)
    requires CanEmit(p)
    ensures EmitStep(p, m1, m2).stopped == p.stopped
  {
    hide ChallengeEnvelope;
  }

  lemma OpenAfterTraffic(p: Peer, e: Envelope, late: bool, login: Option<Login>, payload: Bytes)
    ensures Peers.Receive(p, e, late).stopped == p.stopped && Peers.Send(p, login, payload).stopped == p.stopped
  {
    hide Opened, Internal, External, OpenKey, SendLogin;
  }

  /** What no step of the session changes: the logins of both sides, and an announcement once it is made. */
  predicate SameLogins(p: Peer, p': Peer) {
    && p'.mem.order == p.mem.order && p'.mem.to.Keys == p.mem.to.Keys && p'.mem.from.Keys == p.mem.from.Keys
    && (p.allClearSent ==> p'.allClearSent)
  }

  lemma ProcessKeepsLogins(p: Peer, now: int)
    requires p.inq != []
    ensures SameLogins(p, Peers.Process(p, now))
  {
    hide OnRequest;
    Gate.ProcessEffect(p, now);
    var x := p.inq[0];
    if x.body.ChangePwdRequest? { RequestEffect(p.(inq := p.inq[1..]), x.login, x.body.mId, x.body.pwd, now); }
  }

  lemma StepKeepsLogins(n: Net, a: Label, s: Side, r: Side)
    requires Enabled(n, a) && InSession(a, s)
    ensures SameLogins(n.At(r), Next(n, a).At(r))
  {
    hide Begin, Peers.Process, SaveStep, EmitStep, Peers.Receive, Peers.Send, GoodCandidate, Sent, CanSave, CanEmit,
         SameLogins;
    var p := n.At(r);
    Same(p);
    if a.side == r {
      match a
      case Scan(_, now, candidate) => ScanKeepsLogins(p, now, candidate);
      case Process(_, now) => ProcessKeepsLogins(p, now);
      case Save(_) => SaveKeepsLogins(p);
      case Emit(_) => EmitKeepsLogins(p, n.nextId, n.nextId + 1);
      case Receive(_, late) =>
        TrafficKeepsLogins(p, n.From(Other(r)).log[n.From(Other(r)).taken], late, None, [], p.sendq);
      case Send(_, login, payload) => TrafficKeepsLogins(p, Envelope([], []), false, login, payload, p.sendq);
      case Transmit(_, _) => TrafficKeepsLogins(p, Envelope([], []), false, None, [], p.sendq[1..]);
    }
  }

  lemma Same(p: Peer)
    ensures SameLogins(p, p)
  {}

  lemma ScanKeepsLogins(p: Peer, now: int, candidate: Bytes)
    ensures SameLogins(p, Begin(p, now, candidate))
  {
    hide DueLogin;
  }

  lemma SaveKeepsLogins(p: Peer)
    requires CanSave(p)
    ensures SameLogins(p, SaveStep(p))
  {}

  lemma EmitKeepsLogins(p: Peer, m1: nat, m2: nat)
    requires CanEmit(p)
    ensures SameLogins(p, EmitStep(p, m1, m2))
  {
    hide ChallengeEnvelope;
  }

  lemma TrafficKeepsLogins(p: Peer, e: Envelope, late: bool, login: Option<Login>, payload: Bytes, rest: seq<Outgoing>)
    ensures SameLogins(p, Peers.Receive(p, e, late)) && SameLogins(p, Peers.Send(p, login, payload))
    ensures SameLogins(p, p.(sendq := rest))
  {
    hide Opened, Internal, External, OpenKey, SendLogin;
  }

  /** Before the own announcement nothing of the application is in the pipeline. */
  lemma EmptyBefore(n: Net, s: Side)
    requires Gate.GateInv(n) && !n.At(s).stopped && !n.At(s).allClearSent
    ensures GoodChannel(n.From(s)) && Pipeline(n, s) == []
    ensures forall e :: e in InFlight(n.From(s)) ==> !OnWire(e).Load?
    ensures forall o :: o in n.At(s).sendq ==> Gate.Queued(o) != Gate.App
  {
    hide Inv;
    Gate.Alive(n);
    var p, c := n.At(s), n.From(s);
    NoPayloadBefore(p, n.At(Other(s)), c.log);
    var items := Items(InFlight(c), p.sendq);
    forall i | 0 <= i < |items| ensures !items[i].Load? {
      if i < |InFlight(c)| {
        assert InFlight(c)[i] == c.log[c.taken + i] && c.log[c.taken + i] in c.log;
      } else {
        assert p.sendq[i - |InFlight(c)|] in p.sendq;
      }
    }
    CarriesNothing(items);
  }

  lemma NoPayloadBefore(p: Peer, q: Peer, log: seq<Envelope>)
    requires Gate.GateGood(p, q, log) && !p.allClearSent
    ensures q.extq == [] && (forall e :: e in log ==> !OnWire(e).Load?)
    ensures forall o :: o in p.sendq ==> Gate.Queued(o) != Gate.App && !Waiting(o).Load?
  {
    var kinds := Gate.Stream(log, p.sendq);
    assert Gate.App !in kinds;
    forall e | e in log ensures !OnWire(e).Load? {
      var i :| 0 <= i < |log| && log[i] == e;
      assert kinds[i] == Gate.KindOnWire(e);
    }
    forall o | o in p.sendq ensures Gate.Queued(o) != Gate.App && !Waiting(o).Load? {
      var i :| 0 <= i < |p.sendq| && p.sendq[i] == o;
      assert kinds[|log| + i] == Gate.Queued(o);
    }
  }

  lemma {:induction false} CarriesNothing(items: seq<Item>)
    requires forall i :: 0 <= i < |items| ==> !items[i].Load?
    ensures Carried(items) == []
  {
    if items != [] { CarriesNothing(items[1..]); }
  }

  /** The scan that announces AllClear has found no candidate, so that from here on the payloads are safe. */
  lemma FlowBegins(n: Net, a: Label, s: Side)
    requires Flows(n, s) && Enabled(n, a) && InSession(a, s) && !n.At(s).allClearSent && Next(n, a).At(s).allClearSent
    ensures FlowAt(Next(n, a), s) && Pipeline(Next(n, a), s) == []
  {
    hide Inv, Flow, Enabled, Next, InSession, Items, Shared, Gate.GateGood, PeerGood, SessionGood, AgreeEverywhere,
         RequestsGood, AllOlder;
    Gate.AllClearOnlyWhenClean(n, a, s);
    EmptyBefore(n, s);
    ForFlow(n, s);
    Announced(n, a, s);
    var p, q, w, v := n.At(s), n.At(Other(s)), InFlight(n.From(s)), InFlight(n.From(Other(s)));
    PlainBefore(p, q, w, v);
    NothingPending(p, a.now);
    FlowFromClean(p, Next(n, a).At(s), q, w, v);
    CarriedPush(w, p.sendq, ToSeal(None, AllClear));
    assert Carried(Items(w, p.sendq)) + [] == Carried(Items(w, p.sendq));
  }

  lemma Announced(n: Net, a: Label, s: Side)
    requires Inv(n) && Enabled(n, a) && a.Scan? && a.side == s && !Active(n.At(s).ctx) && !n.At(s).allClearSent
    requires Next(n, a).At(s).allClearSent
    ensures var p, p', m := n.At(s), Next(n, a).At(s), Next(n, a);
            && p' == p.(ctx := ScannedContext(p), allClearSent := true, sendq := p.sendq + [ToSeal(None, AllClear)])
            && p.phase.Idle? && m == n.With(s, p') && GoodChannel(n.From(s)) && GoodChannel(n.From(Other(s)))
  {
    hide DueLogin, PairGood;
  }

  lemma PlainBefore(p: Peer, q: Peer, w: seq<Envelope>, v: seq<Envelope>)
    requires SessionGood(p, q, w, v) && !Active(p.ctx)
    ensures forall o :: o in p.sendq ==> !o.Ready?
  {
    hide RepliesGood, PingsGood, AgreeEverywhere;
    NotLive(p, q, w, v);
  }

  lemma NothingPending(p: Peer, now: int)
    requires PeerGood(p) && forall l :: l in p.mem.order && l in p.mem.to ==> !Due(p.mem.to[l], now)
    ensures forall l :: l in p.mem.to ==> !p.mem.to[l].pending
  {
    hide GoodTo, GoodFrom, DiskLags, ContextGood;
  }

  lemma FlowFromClean(p: Peer, p': Peer, q: Peer, w: seq<Envelope>, v: seq<Envelope>)
    requires Shared(p, q) && !Active(p.ctx) && p.phase.Idle? && (forall l :: l in p.mem.to ==> !p.mem.to[l].pending)
    requires p' == p.(ctx := ScannedContext(p), allClearSent := true, sendq := p.sendq + [ToSeal(None, AllClear)])
    requires forall e :: e in w ==> !OnWire(e).Load?
    requires forall o :: o in p.sendq ==> !o.Ready? && Gate.Queued(o) != Gate.App
    ensures Flow(p', q, w, v)
  {
    hide Derive, Items, Requests, Leads;
    assert !Live(p') && Engaged(p') == None;
  }

  lemma StepFlows(n: Net, a: Label, s: Side)
    requires Flows(n, s) && Enabled(n, a) && InSession(a, s)
    ensures Flows(Next(n, a), s) && GoodChannel(n.From(s)) && GoodChannel(Next(n, a).From(s))
    ensures Pipeline(Next(n, a), s) == Pipeline(n, s) + Handed(n, a, s)
  {
    hide Inv, FlowAt, Enabled, Next, InSession, Pipeline, Handed, Shared, SameLogins, Gate.GateGood;
    Gate.StepKeepsGate(n, a);
    Gate.Alive(n);
    Gate.Alive(Next(n, a));
    StaysOpen(n, a, s);
    StepKeepsLogins(n, a, s, s);
    StepKeepsLogins(n, a, s, Other(s));
    SharedStays(n.At(s), n.At(Other(s)), Next(n, a).At(s), Next(n, a).At(Other(s)));
    if n.At(s).allClearSent {
      OneSide(n, a, s);
    } else {
      EmptyBefore(n, s);
      NothingHanded(n, a, s);
      if Next(n, a).At(s).allClearSent { FlowBegins(n, a, s); } else { EmptyBefore(Next(n, a), s); }
    }
  }

  lemma SharedStays(p: Peer, q: Peer, p': Peer, q': Peer)
    requires Shared(p, q) && SameLogins(p, p') && SameLogins(q, q')
    ensures Shared(p', q') && (p.allClearSent ==> p'.allClearSent)
  {}

  /** _send takes nothing before the own announcement. */
  lemma NothingHanded(n: Net, a: Label, s: Side)
    requires Enabled(n, a) && !n.At(s).allClearSent
    ensures Handed(n, a, s) == []
  {}

  lemma OneSide(n: Net, a: Label, s: Side)
    requires Inv(n) && FlowAt(n, s) && !n.At(s).stopped && Enabled(n, a) && InSession(a, s)
    ensures FlowAt(Next(n, a), s) && Pipeline(Next(n, a), s) == Pipeline(n, s) + Handed(n, a, s)
  {
    hide Inv, Flow, Enabled, Next, Pipeline, Handed;
    if a.side == s {
      OwnStep(n, a, s);
    } else {
      OtherStep(n, a, s);
      assert Pipeline(n, s) + [] == Pipeline(n, s);
    }
  }

  /** The payloads the first k steps take from the application of side s, in order. */
  function Accepted(states: seq<Net>, labels: seq<Label>, s: Side, k: nat): seq<Bytes>
    requires k <= |labels| < |states| && forall i :: 0 <= i < |labels| ==> Enabled(states[i], labels[i])
  {
    if k == 0 then [] else Accepted(states, labels, s, k - 1) + Handed(states[k - 1], labels[k - 1], s)
  }

  lemma {:induction false} PipelineGrows(states: seq<Net>, labels: seq<Label>, s: Side, k: nat)
    requires IsRun(states, labels) && Flows(states[0], s) && k <= |labels|
    requires forall i :: 0 <= i < |labels| ==> InSession(labels[i], s)
    ensures Flows(states[k], s) && GoodChannel(states[0].From(s)) && GoodChannel(states[k].From(s))
    ensures Pipeline(states[k], s) == Pipeline(states[0], s) + Accepted(states, labels, s, k)
  {
    hide Flows, InSession, Enabled, Next, Pipeline, Handed;
    Channels(states[0], s);
    if k == 0 {
      assert Pipeline(states[0], s) + [] == Pipeline(states[0], s);
    } else {
      PipelineGrows(states, labels, s, k - 1);
      assert Enabled(states[k - 1], labels[k - 1]) && states[k - 1 + 1] == Next(states[k - 1], labels[k - 1]);
      StepFlows(states[k - 1], labels[k - 1], s);
      var a, b, c := Pipeline(states[0], s), Accepted(states, labels, s, k - 1), Handed(states[k - 1], labels[k - 1], s);
      assert a + b + c == a + (b + c);
    }
  }

  lemma Channels(n: Net, s: Side)
    requires Flows(n, s)
    ensures GoodChannel(n.From(s))
  {
    hide Gate.GateGood, FlowAt, Shared;
    Gate.Alive(n);
  }

  /** q has the FROM entries of p's TO logins. */
  predicate Shared(p: Peer, q: Peer) {
    p.mem.to.Keys <= q.mem.from.Keys
  }

  lemma StartFlows(n: Net, cipher: string, s: Side)
    requires Reachable(n) && Enabled(n, Connect(cipher)) && Shared(n.At(s), n.At(Other(s)))
    ensures var m := Next(n, Connect(cipher)); Flows(m, s) && GoodChannel(m.From(s)) && Pipeline(m, s) == []
  {
    hide Reachable, Inv, Gate.GateGood, FlowAt;
    Gate.ReachableGate(n);
    Gate.StepKeepsGate(n, Connect(cipher));
    assert InFlight(EMPTY) == [] && Items([], []) == [];
  }

  /** In a session that holds, nothing handed over without a login is lost, doubled or overtaken, whatever challenges and
      payloads run in either direction: what the application of one side has handed over so far is what has arrived at
      the other, followed by what is still on its way. It is so from every reachable state in which the two connect,
      also after lost answers. */
  lemma NoPayloadLost(n: Net, cipher: string, states: seq<Net>, labels: seq<Label>, s: Side, k: nat)
    requires Reachable(n) && Enabled(n, Connect(cipher)) && Shared(n.At(s), n.At(Other(s)))
    requires IsRun(states, labels) && states[0] == Next(n, Connect(cipher)) && k <= |labels|
    requires forall i :: 0 <= i < |labels| ==> InSession(labels[i], s)
    ensures GoodChannel(states[k].From(s))
    ensures states[k].At(Other(s)).extq + Carried(Items(InFlight(states[k].From(s)), states[k].At(s).sendq))
            == Accepted(states, labels, s, k)
  {
    hide Reachable, Flows, InSession, Enabled, Next, Items, Shared;
    StartFlows(n, cipher, s);
    PipelineGrows(states, labels, s, k);
    assert [] + Accepted(states, labels, s, k) == Accepted(states, labels, s, k);
  }
}
