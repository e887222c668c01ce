/** When a login is rotated through a crossing. Where the other side has room the challenge is taken up, and it completes
    in some run of the session exactly when the answer can be opened: the reply direction agrees, or the other side's own
    challenge, which crosses it, repairs that direction before the answer leaves. */
module Rotation {
  import opened Basics
  import opened Wire
  import opened Credentials
  import opened Peers
  import opened Network
  import opened ChallengeInvariant
  import opened Agreement
  import opened Crossing
  import Rounds
  import Recovery
  import Stale
  import Unanswered
  import Workload
  import Base64

  // ------------------------------------------------------- recovery through a crossing

  predicate AnswerTo(p: Peer, m: Message) {
    p.ctx.Some? && (m == ChangePwdResponse(p.ctx.value.mIdRequest, true) || m == Pong(p.ctx.value.mIdPing))
  }

  /** A fresh candidate leaves q nothing of the challenge but the one element it has taken up. */
  predicate NoneLeft(p: Peer, l: Login, q: Peer) {
    l in p.mem.to && (Fresh(p, l) ==> q.inq == [])
  }

  /** q's answer under its first login f. */
  function AnswerEnvelope(q: Peer, f: Login, m: Message): Envelope
    requires f in q.mem.to
  {
    Envelope(f, [Sealed(SealKey(q, f, q.mem.to[f].pwd), m)])
  }

  /** Apart from the FROM password of login k the credentials are as they were. */
  predicate OnlyFrom(store: Store, before: Store, k: Login) {
    store == before || (k in store.from && store == before.(from := before.from[k := store.from[k]]))
  }

  /** The other side has taken s's candidate over, and its answer is on the wire behind its own challenge. */
  predicate AnswerOut(n: Net, before: Net, s: Side, l: Login, g: Login, f: Login, m: Message) {
    var p, q := n.At(s), n.At(Other(s));
    && NothingFrom(n, s) && NoneLeft(before.At(s), l, q)
    && GoodChannel(n.From(Other(s))) && !p.stopped && !q.stopped && p.phase.Idle? && q.phase.Idle?
    && Live(p) && LiveLogin(p) == l && p.mem == before.At(s).mem && p.inq == [] && p.sendq == []
    && Live(q) && LiveLogin(q) == g && OnlyFrom(q.mem, before.At(Other(s)).mem, l) && q.disk == q.mem
    && l in q.mem.from && q.mem.from[l].pwd == Candidate(p)
    && FirstLogin(q.mem.order) == Some(f) && f in q.mem.to && AnswerTo(p, m)
    && InFlight(n.From(Other(s))) == [LiveEnvelope(q), AnswerEnvelope(q, f, m)]
  }

  /** The same while the answer is still queued. */
  predicate AnswerQueued(n: Net, before: Net, s: Side, l: Login, g: Login, m: Message) {
    var p, q := n.At(s), n.At(Other(s));
    && NothingFrom(n, s) && NoneLeft(before.At(s), l, q)
    && GoodChannel(n.From(Other(s))) && !p.stopped && !q.stopped && p.phase.Idle? && q.phase.Idle?
    && Live(p) && LiveLogin(p) == l && p.mem == before.At(s).mem && p.inq == [] && p.sendq == []
    && Live(q) && LiveLogin(q) == g && OnlyFrom(q.mem, before.At(Other(s)).mem, l) && q.disk == q.mem
    && l in q.mem.from && q.mem.from[l].pwd == Candidate(p)
    && q.mem.order != [] && (forall k :: k in q.mem.order ==> k in q.mem.to)
    && AnswerTo(p, m) && q.sendq == [ToSeal(None, m)] && InFlight(n.From(Other(s))) == [LiveEnvelope(q)]
  }

  lemma AnswerQueues(n: Net, s: Side, l: Login, g: Login) returns (c: Course, m: Message)
    requires Reachable(n) && Met(n, s, l, g) && Room(n.At(s), n.At(Other(s)), l)
    ensures Tidy(c) && c.states[0] == n && !Owing(c, Left) && !Owing(c, Right) && AnswerQueued(End(c), n, s, l, g, m)
  {
    hide Reachable, IsOrderly, Owing, Live, Peers.Receive, LiveEnvelope, Inv, Elements, Handled, Locked;
    var o := Other(s);
    c := Crosses(n, s, l, g);
    var p, q := End(c).At(s), End(c).At(o);
    InvOf(c);
    ElementsThere(End(c), s);
    ChallengeArrives(p, q);
    BetweenEvents(End(c), o);
    c := TakesOne(c, o);
    assert [] + Elements(p, q) == Elements(p, q);
    var q1 := q.(inq := Elements(p, q));
    HeadIsElement(p, q, q1);
    c := Handles(c, o);
    m := HandledWithRoom(p, q, q1, n.At(s), n.At(o), l);
    EnvelopeOnly(q, End(c).At(o));
  }

  lemma AnswerSets(n: Net, s: Side, l: Login, g: Login) returns (c: Course, f: Login, m: Message)
    requires Reachable(n) && Met(n, s, l, g) && Room(n.At(s), n.At(Other(s)), l)
    ensures Tidy(c) && c.states[0] == n && !Owing(c, Left) && !Owing(c, Right) && AnswerOut(End(c), n, s, l, g, f, m)
  {
    hide Reachable, IsOrderly, Owing, Live, LiveEnvelope, Met, Room, Sent;
    c, m := AnswerQueues(n, s, l, g);
    var q := End(c).At(Other(s));
    f := q.mem.order[|q.mem.order| - 1];
    AnswerSealed(q, f, m);
    var e := AnswerEnvelope(q, f, m);
    c := LeavesOne(c, Other(s), e);
    EnvelopeOnly(q, End(c).At(Other(s)));
    assert [LiveEnvelope(q)] + [e] == [LiveEnvelope(q), e];
  }

  lemma HeadIsElement(p: Peer, q: Peer, q': Peer)
    requires Live(p) && LiveLogin(p) in q.mem.from && Elements(p, q) != [] && q' == q.(inq := Elements(p, q)) && Live(q)
    ensures IsElement(p, q'.inq[0]) && Active(q'.ctx)
  {
    hide Base64.Encode;
  }

  /** With room the element installs or confirms the candidate. */
  lemma HandledFirst(p: Peer, q: Peer, q': Peer, p0: Peer, q0: Peer, l: Login) returns (m: Message)
    requires Live(p) && LiveLogin(p) == l && l in q.mem.from && Elements(p, q) != []
    requires q' == q.(inq := q'.inq) && q'.inq != [] && q'.inq[0] == Elements(p, q)[0]
    requires p.mem == p0.mem && q.mem == q0.mem && l in p0.mem.to && Room(p0, q0, l) && q.sendq == [] && q.disk == q.mem
    ensures var h := Handled(q', q'.inq[0], Candidate(p));
            && h == q.(mem := h.mem, disk := h.disk, inq := q'.inq[1..], sendq := h.sendq)
            && AnswerTo(p, m) && h.sendq == [ToSeal(None, m)] && OnlyFrom(h.mem, q.mem, l) && h.disk == h.mem
            && l in h.mem.from && h.mem.from[l].pwd == Candidate(p)
  {
    hide Base64.Encode, Locked;
    LockedOnly(q0, q');
    var x := q'.inq[0];
    m := if x.body.Ping? then Pong(p.ctx.value.mIdPing) else ChangePwdResponse(p.ctx.value.mIdRequest, true);
    assert q.mem.from[l := q.mem.from[l]] == q.mem.from;
  }

  /** And of a fresh candidate nothing else has opened. */
  lemma HandledWithRoom(p: Peer, q: Peer, q': Peer, p0: Peer, q0: Peer, l: Login) returns (m: Message)
    requires Live(p) && LiveLogin(p) == l && l in q.mem.from && Elements(p, q) != [] && q' == q.(inq := Elements(p, q))
    requires p.mem == p0.mem && q.mem == q0.mem && l in p0.mem.to && Room(p0, q0, l) && q.sendq == [] && q.disk == q.mem
    ensures var h := Handled(q', q'.inq[0], Candidate(p));
            && NoneLeft(p0, l, h)
            && AnswerTo(p, m) && h.sendq == [ToSeal(None, m)] && OnlyFrom(h.mem, q.mem, l) && h.disk == h.mem
            && l in h.mem.from && h.mem.from[l].pwd == Candidate(p)
            && h.ctx == q.ctx && h.phase == q.phase && h.stopped == q.stopped
            && h == q.(mem := h.mem, disk := h.disk, inq := h.inq, sendq := h.sendq)
  {
    hide Base64.Encode, Locked, Handled, Room;
    m := HandledFirst(p, q, q', p0, q0, l);
  }

  lemma AnswerSealed(q: Peer, f: Login, m: Message)
    requires FirstLogin(q.mem.order) == Some(f) && f in q.mem.to
    ensures Sent(q, ToSeal(None, m), false) == Some(AnswerEnvelope(q, f, m))
    ensures AnswerEnvelope(q.(sendq := []), f, m) == AnswerEnvelope(q, f, m)
  {
    hide Derive;
  }

  /** The answer has reached side s, or has not opened, and what lies before it in the queue are elements of the other
      side's challenge. */
  predicate AnswerHeard(n: Net, before: Net, s: Side, l: Login, g: Login, elements: seq<Incoming>, answer: seq<Incoming>) {
    var p, q := n.At(s), n.At(Other(s));
    && !p.stopped && p.phase.Idle? && Live(p) && LiveLogin(p) == l && OnlyFrom(p.mem, before.At(s).mem, g)
    && p.inq == elements + answer && |elements| <= 2
    && (forall x :: x in elements ==> IsElement(q, x) && g in p.mem.from)
    && !q.stopped && q.phase.Idle? && Live(q) && LiveLogin(q) == g && q.disk == q.mem
    && OnlyFrom(q.mem, before.At(Other(s)).mem, l)
    && l in q.mem.from && q.mem.from[l].pwd == Candidate(p)
    && (forall x :: x in answer ==> AnswerTo(p, x.body))
    && |answer| == (if Rounds.ReplyAgrees(before.At(s), before.At(Other(s))) then 1 else 0)
  }

  /** The other side's challenge has reached s before the answer. */
  predicate ChallengeHeard(n: Net, before: Net, s: Side, l: Login, g: Login, f: Login, m: Message,
                           elements: seq<Incoming>)
  {
    var p, q := n.At(s), n.At(Other(s));
    && NothingFrom(n, s) && NoneLeft(before.At(s), l, q)
    && GoodChannel(n.From(Other(s))) && !p.stopped && !q.stopped && p.phase.Idle? && q.phase.Idle?
    && Live(p) && LiveLogin(p) == l && p.mem == before.At(s).mem && p.sendq == []
    && p.inq == elements && |elements| <= 2 && (forall x :: x in elements ==> IsElement(q, x) && g in p.mem.from)
    && (g in p.mem.from ==> elements != [])
    && Live(q) && LiveLogin(q) == g && OnlyFrom(q.mem, before.At(Other(s)).mem, l) && q.disk == q.mem
    && l in q.mem.from && q.mem.from[l].pwd == Candidate(p)
    && FirstLogin(q.mem.order) == Some(f) && f in q.mem.to && AnswerTo(p, m)
    && InFlight(n.From(Other(s))) == [AnswerEnvelope(q, f, m)]
  }

  lemma ChallengeComes(n: Net, s: Side, l: Login, g: Login)
    returns (c: Course, f: Login, m: Message, elements: seq<Incoming>)
    requires Reachable(n) && Met(n, s, l, g) && Room(n.At(s), n.At(Other(s)), l)
    ensures Tidy(c) && c.states[0] == n && !Owing(c, Left) && !Owing(c, Right)
    ensures ChallengeHeard(End(c), n, s, l, g, f, m, elements)
  {
    hide Reachable, IsOrderly, Owing, Live, Peers.Receive, LiveEnvelope, Inv, Elements, Met, Room, AnswerEnvelope, IsElement;
    c, f, m := AnswerSets(n, s, l, g);
    var p, q := End(c).At(s), End(c).At(Other(s));
    InvOf(c);
    SideMatched(End(c), Other(s));
    elements := if g in p.mem.from then Elements(q, p) else [];
    if g in p.mem.from {
      ElementsThere(End(c), Other(s));
      ChallengeArrives(q, p);
      ElementsOnly(q, p);
    } else {
      Unknown(q, p);
    }
    assert [] + elements == elements;
    c := TakesOne(c, s);
    EnvelopeOnly(p, End(c).At(s));
  }

  lemma AnswerComes(n: Net, s: Side, l: Login, g: Login) returns (c: Course, elements: seq<Incoming>, answer: seq<Incoming>)
    requires Reachable(n) && Met(n, s, l, g) && Room(n.At(s), n.At(Other(s)), l)
    ensures Tidy(c) && c.states[0] == n && !Owing(c, Left) && !Owing(c, Right)
    ensures AnswerHeard(End(c), n, s, l, g, elements, answer)
  {
    hide Reachable, IsOrderly, Owing, Live, Peers.Receive, Inv, Met, Room, AnswerEnvelope, Rounds.ReplyAgrees, IsElement,
         LiveEnvelope;
    var f, m;
    c, f, m, elements := ChallengeComes(n, s, l, g);
    var p, q := End(c).At(s), End(c).At(Other(s));
    InvOf(c);
    SideMatched(End(c), Other(s));
    answer := AnswerArrives(p, q, f, m);
    c := TakesOne(c, s);
    AgreesStill(p, q, n.At(s), n.At(Other(s)), f, l);
    EnvelopeOnly(p, End(c).At(s));
  }

  lemma ElementsOnly(p: Peer, q: Peer)
    requires Live(p) && LiveLogin(p) in q.mem.from
    ensures |Elements(p, q)| <= 2 && forall x :: x in Elements(p, q) ==> IsElement(p, x)
  {
    hide Base64.Encode;
  }

  /** A challenge for a login that q does not have is dropped. */
  lemma Unknown(p: Peer, q: Peer)
    requires Live(p) && LiveLogin(p) !in q.mem.from
    ensures Peers.Receive(q, LiveEnvelope(p), false) == q
  {
    hide Opened, OpenKey, Internal, External, ChallengeEnvelope;
    EnvelopeLogin(p);
  }

  lemma SideMatched(n: Net, s: Side)
    requires Inv(n) && !n.At(s).stopped
    ensures Matched(n.At(s), n.At(Other(s)))
  {}

  predicate OpensAnswer(p: Peer, q: Peer, f: Login)
    requires f in q.mem.to
  {
    f in p.mem.from && p.mem.from[f].pwd == q.mem.to[f].pwd
  }

  /** The answer opens exactly under the same password of the answering side's first login. */
  lemma AnswerArrives(p: Peer, q: Peer, f: Login, m: Message) returns (answer: seq<Incoming>)
    requires Matched(p, q) && f in q.mem.to && AnswerTo(p, m)
    ensures answer == if OpensAnswer(p, q, f) then [Incoming(f, m)] else []
    ensures Peers.Receive(p, AnswerEnvelope(q, f, m), false) == p.(inq := p.inq + answer)
  {
    hide Opened, Internal, External, Derive;
    var e := AnswerEnvelope(q, f, m);
    answer := if OpensAnswer(p, q, f) then [Incoming(f, m)] else [];
    assert p.inq + [] == p.inq && p.extq + [] == p.extq;
    if f in p.mem.from {
      KeysAgree(p.cipher, q.me, p.me, f, q.mem.to[f].pwd, p.mem.from[f].pwd);
      OpenedOne(e.data, OpenKey(p, f, false));
      Rounds.InternalOne(f, m);
    }
  }

  lemma AgreesStill(p: Peer, q: Peer, p0: Peer, q0: Peer, f: Login, l: Login)
    requires p.mem == p0.mem && OnlyFrom(q.mem, q0.mem, l) && FirstLogin(q.mem.order) == Some(f) && f in q.mem.to
    ensures OpensAnswer(p, q, f) <==> Rounds.ReplyAgrees(p0, q0)
  {}

  /** The elements are taken up, one event each. */
  lemma {:induction false} ElementsPass(c: Course, before: Net, s: Side, l: Login, g: Login, elements: seq<Incoming>,
                                        answer: seq<Incoming>)
    returns (d: Course)
    requires Tidy(c) && !Owing(c, Left) && !Owing(c, Right) && AnswerHeard(End(c), before, s, l, g, elements, answer)
    ensures Tidy(d) && d.states[0] == c.states[0] && !Owing(d, Left) && !Owing(d, Right)
    ensures AnswerHeard(End(d), before, s, l, g, [], answer)
    decreases |elements|
  {
    hide IsOrderly, Owing, Handled, Live, AnswerHeard;
    if elements == [] {
      d := c;
    } else {
      HeardElement(End(c), before, s, l, g, elements, answer);
      d := Handles(c, s);
      InvOf(c);
      BetweenEvents(End(c), s);
      HeardNext(End(c), End(d), before, s, l, g, elements, answer);
      d := ElementsPass(d, before, s, l, g, elements[1..], answer);
    }
  }

  lemma HeardElement(n: Net, before: Net, s: Side, l: Login, g: Login, elements: seq<Incoming>, answer: seq<Incoming>)
    requires AnswerHeard(n, before, s, l, g, elements, answer) && elements != []
    ensures AtElement(n, s) && n.At(s).phase.Idle?
  {
    hide Base64.Encode, Rounds.ReplyAgrees;
    assert elements[0] in elements && n.At(s).inq[0] == elements[0];
  }

  lemma HandledEffect(q: Peer, x: Incoming, pwd: Bytes)
    requires q.inq != [] && q.disk == q.mem && x.login in q.mem.from
    ensures var h := Handled(q, x, pwd);
            && h == q.(mem := h.mem, disk := h.disk, inq := q.inq[1..], sendq := h.sendq)
            && OnlyFrom(h.mem, q.mem, x.login) && h.disk == h.mem
  {
    hide Locked;
    assert q.mem.from[x.login := q.mem.from[x.login]] == q.mem.from;
  }

  lemma HeardNext(n: Net, m: Net, before: Net, s: Side, l: Login, g: Login, elements: seq<Incoming>, answer: seq<Incoming>)
    requires AnswerHeard(n, before, s, l, g, elements, answer) && elements != [] && n.At(s).disk == n.At(s).mem
    requires m.At(s) == Handled(n.At(s), n.At(s).inq[0], Candidate(n.At(Other(s)))) && m.At(Other(s)) == n.At(Other(s))
    ensures AnswerHeard(m, before, s, l, g, elements[1..], answer)
  {
    hide Base64.Encode, Rounds.ReplyAgrees, Handled, Live;
    var p, p' := n.At(s), m.At(s);
    assert elements[0] in elements && p.inq[0] == elements[0] && p.inq[1..] == elements[1..] + answer;
    HandledEffect(p, elements[0], Candidate(n.At(Other(s))));
    EnvelopeOnly(p, p');
    assert forall x :: x in elements[1..] ==> x in elements;
  }

  /** Side s's candidate for login l, pending before, is the password of both ends, in memory and on disk; its challenge
      is over, and apart from it nothing of its TO entries and of the other side's FROM entries has changed. */
  predicate Rotated(n: Net, to: map<Login, Auth>, from: map<Login, Auth>, s: Side, l: Login, entry: Auth) {
    var p, q := n.At(s), n.At(Other(s));
    && p.phase.Idle? && !Active(p.ctx) && (p.ctx.Some? ==> !p.ctx.value.timer)
    && l in p.mem.to && p.mem.to == to[l := AfterSwitch(entry, p.mem.to[l].stamp)] && p.disk.to == p.mem.to
    && l in q.mem.from && q.mem.from == from[l := q.mem.from[l]] && q.mem.from[l].pwd == entry.newPwd
    && l in q.disk.from && q.disk.from[l].pwd == entry.newPwd
  }

  /** p after its own switch, saved. */
  function Switched(p: Peer, l: Login): Peer
    requires l in p.mem.to && p.ctx.Some? && p.inq != []
  {
    var store := p.mem.(to := p.mem.to[l := AfterSwitch(p.mem.to[l], 0)]);
    p.(inq := p.inq[1..], mem := store, disk := store, ctx := Some(p.ctx.value.(timer := false, running := false)))
  }

  lemma Switches(p: Peer)
    requires Live(p) && p.phase.Idle? && p.inq != [] && AnswerTo(p, p.inq[0].body)
    ensures var p' := Peers.Process(p, 0); CanSave(p') && SaveStep(p') == Switched(p, LiveLogin(p))
  {
    hide OnRequest;
  }

  /** An answer is the head of s's queue, and the other side has s's candidate. */
  predicate Answered(n: Net, before: Net, s: Side, l: Login) {
    var p, q := n.At(s), n.At(Other(s));
    && !p.stopped && p.phase.Idle? && Live(p) && LiveLogin(p) == l && p.mem.to == before.At(s).mem.to
    && p.inq != [] && AnswerTo(p, p.inq[0].body)
    && q.disk.from == q.mem.from && l in q.mem.from && q.mem.from[l].pwd == Candidate(p)
    && q.mem.from == before.At(Other(s)).mem.from[l := q.mem.from[l]]
  }

  lemma Completes(c: Course, before: Net, s: Side, l: Login) returns (d: Course)
    requires Tidy(c) && !Owing(c, s) && Answered(End(c), before, s, l)
    ensures Tidy(d) && d.states[0] == c.states[0] && l in before.At(s).mem.to
    ensures Rotated(End(d), before.At(s).mem.to, before.At(Other(s)).mem.from, s, l, before.At(s).mem.to[l])
  {
    hide IsOrderly, Owing, Rotated, Peers.Process, SaveStep, CanSave, Inv;
    InvOf(c);
    ContextAt(End(c), s);
    Switches(End(c).At(s));
    d := Goes(c, Process(s, 0));
    d := Goes(d, Label.Save(s));
    NowRotated(End(c), End(d), before, s, l);
  }

  lemma NowRotated(n: Net, m: Net, before: Net, s: Side, l: Login)
    requires Answered(n, before, s, l) && ContextGood(n.At(s))
    requires m.At(s) == Switched(n.At(s), l) && m.At(Other(s)) == n.At(Other(s))
    ensures l in before.At(s).mem.to
    ensures Rotated(m, before.At(s).mem.to, before.At(Other(s)).mem.from, s, l, before.At(s).mem.to[l])
  {}

  /** From a crossing with room for side s, where the reply direction agrees: the other side takes the candidate over, side
      s takes up the challenge it has got, and then the answer, which opens. */
  lemma CrossedRecovers(n: Net, s: Side, l: Login, g: Login) returns (c: Course)
    requires Reachable(n) && Met(n, s, l, g) && Room(n.At(s), n.At(Other(s)), l)
    requires Rounds.ReplyAgrees(n.At(s), n.At(Other(s)))
    ensures Tidy(c) && c.states[0] == n && l in n.At(s).mem.to
    ensures Rotated(End(c), n.At(s).mem.to, n.At(Other(s)).mem.from, s, l, n.At(s).mem.to[l])
  {
    hide Reachable, IsOrderly, Owing, AnswerHeard, Rounds.ReplyAgrees, Room, Rotated, Answered;
    var elements, answer;
    c, elements, answer := AnswerComes(n, s, l, g);
    c := ElementsPass(c, n, s, l, g, elements, answer);
    HeardIsAnswered(End(c), n, s, l, g, answer);
    c := Completes(c, n, s, l);
  }

  lemma HeardIsAnswered(n: Net, before: Net, s: Side, l: Login, g: Login, answer: seq<Incoming>)
    requires AnswerHeard(n, before, s, l, g, [], answer) && Rounds.ReplyAgrees(before.At(s), before.At(Other(s)))
    ensures Answered(n, before, s, l)
  {
    hide Rounds.ReplyAgrees;
    assert [] + answer == answer && answer[0] in answer;
    var q, q0 := n.At(Other(s)), before.At(Other(s));
    assert q.mem.from == q0.mem.from[l := q.mem.from[l]];
  }

  // ------------------------------------------------ where the other side's challenge repairs the reply direction

  /** s has taken up the other side's ping, and its answer under login h is on the wire behind its own challenge. */
  predicate PongOut(n: Net, before: Net, s: Side, l: Login, g: Login, h: Login) {
    var p, q := n.At(s), n.At(Other(s));
    && GoodChannel(n.From(s)) && NothingFrom(n, Other(s)) && Between(n, before, s, l, g) && q.mem == before.At(Other(s)).mem
    && p.inq == [] && p.sendq == [] && q.inq == [] && q.sendq == []
    && FirstLogin(p.mem.order) == Some(h) && h in p.mem.to
    && InFlight(n.From(s)) == [LiveEnvelope(p), AnswerEnvelope(p, h, PongTo(q))]
  }

  function PongTo(q: Peer): Message
    requires Live(q)
  {
    Pong(q.ctx.value.mIdPing)
  }

  /** The same while the answer is still queued. */
  predicate PongWaits(n: Net, before: Net, s: Side, l: Login, g: Login) {
    var p, q := n.At(s), n.At(Other(s));
    && GoodChannel(n.From(s)) && NothingFrom(n, Other(s)) && Between(n, before, s, l, g) && q.mem == before.At(Other(s)).mem
    && p.inq == [] && p.sendq == [ToSeal(None, PongTo(q))] && q.inq == [] && q.sendq == []
    && p.mem.order != [] && (forall k :: k in p.mem.order ==> k in p.mem.to) && InFlight(n.From(s)) == [LiveEnvelope(p)]
  }

  /** Both challenges are out, and s's credentials are those of the start. */
  predicate Between(n: Net, before: Net, s: Side, l: Login, g: Login) {
    var p, q := n.At(s), n.At(Other(s));
    && !p.stopped && !q.stopped && p.phase.Idle? && q.phase.Idle? && q.disk == q.mem
    && Live(p) && LiveLogin(p) == l && p.mem == before.At(s).mem && Live(q) && LiveLogin(q) == g
    && q.mem.order == before.At(Other(s)).mem.order && q.mem.to == before.At(Other(s)).mem.to
  }

  lemma PongQueues(n: Net, s: Side, l: Login, g: Login) returns (c: Course)
    requires Reachable(n) && Met(n, s, l, g) && Unanswered.Repairs(n.At(s), n.At(Other(s)), g)
    requires !Rounds.ReplyAgrees(n.At(s), n.At(Other(s)))
    ensures Tidy(c) && c.states[0] == n && !Owing(c, Left) && !Owing(c, Right) && PongWaits(End(c), n, s, l, g)
  {
    hide Reachable, IsOrderly, Owing, Live, Peers.Receive, LiveEnvelope, Inv, Elements, Handled, Unanswered.Repairs,
         Rounds.ReplyAgrees, PingOf;
    var o := Other(s);
    c := Crosses(n, s, l, g);
    var p, q := End(c).At(s), End(c).At(o);
    InvOf(c);
    BetweenEvents(End(c), s);
    BetweenEvents(End(c), o);
    PingOnly(q, p, n.At(o), n.At(s), g);
    ElementsThere(End(c), o);
    ChallengeArrives(q, p);
    c := TakesOne(c, s);
    var p1 := p.(inq := Elements(q, p));
    assert [] + Elements(q, p) == Elements(q, p);
    HeadIsElement(q, p, p1);
    c := Handles(c, s);
    PongQueued(q, p, p1);
    EnvelopeOnly(p, End(c).At(s));
  }

  lemma PongLeaves(n: Net, s: Side, l: Login, g: Login) returns (c: Course, h: Login)
    requires Reachable(n) && Met(n, s, l, g) && Unanswered.Repairs(n.At(s), n.At(Other(s)), g)
    requires !Rounds.ReplyAgrees(n.At(s), n.At(Other(s)))
    ensures Tidy(c) && c.states[0] == n && !Owing(c, Left) && !Owing(c, Right) && PongOut(End(c), n, s, l, g, h)
  {
    hide Reachable, IsOrderly, Owing, Live, LiveEnvelope, Met, Unanswered.Repairs, Rounds.ReplyAgrees, Sent, PongTo;
    c := PongQueues(n, s, l, g);
    var p, q := End(c).At(s), End(c).At(Other(s));
    h := p.mem.order[|p.mem.order| - 1];
    AnswerSealed(p, h, PongTo(q));
    var e := AnswerEnvelope(p, h, PongTo(q));
    c := LeavesOne(c, s, e);
    EnvelopeOnly(p, End(c).At(s));
    assert [LiveEnvelope(p)] + [e] == [LiveEnvelope(p), e];
  }

  lemma PingOnly(q: Peer, p: Peer, q0: Peer, p0: Peer, g: Login)
    requires q.mem == q0.mem && p.mem == p0.mem && Live(q) && LiveLogin(q) == g && Unanswered.Repairs(p0, q0, g)
    requires !Rounds.ReplyAgrees(p0, q0)
    ensures g in p.mem.from && Elements(q, p) == [Incoming(g, PingOf(q))]
  {
    hide Base64.Encode;
  }

  lemma PongQueued(q: Peer, p: Peer, p1: Peer)
    requires Live(q) && p.sendq == [] && p1 == p.(inq := [Incoming(LiveLogin(q), PingOf(q))])
    ensures Handled(p1, p1.inq[0], Candidate(q)) == p.(inq := [], sendq := [ToSeal(None, PongTo(q))])
  {
    hide Base64.Encode, Locked;
  }

  /** Both sides have opened the other's challenge, and the other side the answer to its own behind it. */
  predicate PongHeard(n: Net, before: Net, s: Side, l: Login, g: Login, h: Login) {
    var p, q := n.At(s), n.At(Other(s));
    && NothingFrom(n, s) && NothingFrom(n, Other(s)) && Between(n, before, s, l, g) && q.mem == before.At(Other(s)).mem
    && p.inq == [] && p.sendq == [] && q.sendq == [] && l in q.mem.from && Elements(p, q) != []
    && q.inq == Elements(p, q) + [Incoming(h, PongTo(q))]
  }

  lemma PongArrives(n: Net, s: Side, l: Login, g: Login) returns (c: Course, h: Login)
    requires Reachable(n) && Met(n, s, l, g) && l in n.At(Other(s)).mem.from
    requires Unanswered.Repairs(n.At(s), n.At(Other(s)), g) && !Rounds.ReplyAgrees(n.At(s), n.At(Other(s)))
    ensures Tidy(c) && c.states[0] == n && !Owing(c, Left) && !Owing(c, Right) && PongHeard(End(c), n, s, l, g, h)
  {
    hide Reachable, IsOrderly, Owing, Live, Peers.Receive, LiveEnvelope, Inv, Elements, AnswerEnvelope, PongTo,
         Rounds.ReplyAgrees, Met;
    var o := Other(s);
    c, h := PongLeaves(n, s, l, g);
    var p, q := End(c).At(s), End(c).At(o);
    InvOf(c);
    ElementsThere(End(c), s);
    ChallengeArrives(p, q);
    c := TakesOne(c, o);
    assert [] + Elements(p, q) == Elements(p, q);
    var q1 := q.(inq := Elements(p, q));
    EnvelopeOnly(q, q1);
    SamePong(q, q1);
    var answer := PongOpens(q1, p, n.At(o), n.At(s), h);
    c := TakesOne(c, o);
    EnvelopeOnly(q, End(c).At(o));
    SamePong(q, End(c).At(o));
    SameElements(p, q, End(c).At(o));
  }

  lemma SamePong(q: Peer, q': Peer)
    requires Live(q) && Live(q') && q'.ctx == q.ctx
    ensures PongTo(q') == PongTo(q)
  {}

  lemma SameElements(p: Peer, q: Peer, q': Peer)
    requires Live(p) && LiveLogin(p) in q.mem.from && q'.mem.from == q.mem.from
    ensures Elements(p, q') == Elements(p, q)
  {}

  lemma PongOpens(q: Peer, p: Peer, q0: Peer, p0: Peer, h: Login) returns (answer: seq<Incoming>)
    requires Matched(q, p) && Live(q) && q.mem == q0.mem && p.mem == p0.mem && Rounds.ReplyAgrees(q0, p0)
    requires FirstLogin(p.mem.order) == Some(h) && h in p.mem.to
    ensures answer == [Incoming(h, PongTo(q))]
    ensures Peers.Receive(q, AnswerEnvelope(p, h, PongTo(q)), false) == q.(inq := q.inq + answer)
  {
    hide AnswerEnvelope, Peers.Receive;
    answer := AnswerArrives(q, p, h, PongTo(q));
  }

  /** The other side has taken s's challenge over, with its answer queued. */
  predicate TakenOver(n: Net, before: Net, s: Side, l: Login, g: Login, m: Message) {
    var p, q := n.At(s), n.At(Other(s));
    && NothingFrom(n, s) && NothingFrom(n, Other(s)) && Between(n, before, s, l, g)
    && OnlyFrom(q.mem, before.At(Other(s)).mem, l)
    && p.inq == [] && p.sendq == [] && l in q.mem.from && q.mem.from[l].pwd == Candidate(p)
    && q.sendq != [] && q.sendq[0] == ToSeal(None, m) && AnswerTo(p, m)
  }

  /** What is left of s's challenge in the other side's queue, and the answer behind it. */
  predicate Remains(n: Net, s: Side, rest: seq<Incoming>, h: Login) {
    var p, q := n.At(s), n.At(Other(s));
    && Live(q) && q.inq == rest + [Incoming(h, PongTo(q))] && |rest| <= 1 && forall x :: x in rest ==> IsElement(p, x)
  }

  lemma TakesOver(n: Net, s: Side, l: Login, g: Login) returns (c: Course, h: Login, m: Message)
    requires Reachable(n) && Met(n, s, l, g) && Room(n.At(s), n.At(Other(s)), l)
    requires Unanswered.Repairs(n.At(s), n.At(Other(s)), g) && !Rounds.ReplyAgrees(n.At(s), n.At(Other(s)))
    ensures Tidy(c) && c.states[0] == n && !Owing(c, Left) && !Owing(c, Right)
    ensures TakenOver(End(c), n, s, l, g, m) && Remains(End(c), s, [], h)
  {
    hide Reachable, IsOrderly, Owing, Live, LiveEnvelope, Elements, Handled, Locked, IsElement, PongTo,
         Unanswered.Repairs, Rounds.ReplyAgrees, Met;
    c, h := PongArrives(n, s, l, g);
    var p, q := End(c).At(s), End(c).At(Other(s));
    var q0 := q.(inq := Elements(p, q));
    ElementsOnly(p, q);
    HeadIsElement(p, q, q0);
    ElementLogin(p, q.inq[0]);
    c := Handles(c, Other(s));
    m := HandledFirst(p, q, q, n.At(s), n.At(Other(s)), l);
    EnvelopeOnly(q, End(c).At(Other(s)));
    SamePong(q, End(c).At(Other(s)));
    var rest := Elements(p, q)[1..];
    assert q.inq[1..] == rest + [Incoming(h, PongTo(q))];
    c := TakesRest(c, n, s, l, g, h, m, rest);
  }

  /** A second element, the ping of a candidate that is the password already, is taken up as well. */
  lemma TakesRest(c: Course, before: Net, s: Side, l: Login, g: Login, h: Login, m: Message, rest: seq<Incoming>)
    returns (d: Course)
    requires Tidy(c) && !Owing(c, Left) && !Owing(c, Right) && TakenOver(End(c), before, s, l, g, m)
    requires Remains(End(c), s, rest, h)
    ensures Tidy(d) && d.states[0] == c.states[0] && !Owing(d, Left) && !Owing(d, Right)
    ensures TakenOver(End(d), before, s, l, g, m) && Remains(End(d), s, [], h)
  {
    hide IsOrderly, Owing, Live, Handled, IsElement, PongTo;
    d := c;
    var p, q := End(c).At(s), End(c).At(Other(s));
    if rest != [] {
      assert rest[0] in rest && q.inq[0] == rest[0] && q.inq[1..] == [] + [Incoming(h, PongTo(q))];
      ElementLogin(p, q.inq[0]);
      LiveIsActive(q);
      d := Handles(c, Other(s));
      HandledEffect(q, q.inq[0], Candidate(p));
      QueueGrows(p, q, q.inq[0]);
      OnlyTwice(before.At(Other(s)).mem, q.mem, End(d).At(Other(s)).mem, l);
      EnvelopeOnly(q, End(d).At(Other(s)));
      SamePong(q, End(d).At(Other(s)));
    } else {
      assert rest == [];
    }
  }

  lemma ElementLogin(p: Peer, x: Incoming)
    requires IsElement(p, x)
    ensures Live(p) && x.login == LiveLogin(p)
  {}

  lemma OnlyTwice(a: Store, b: Store, c: Store, k: Login)
    requires OnlyFrom(b, a, k) && OnlyFrom(c, b, k)
    ensures OnlyFrom(c, a, k)
  {
    if c != b && b != a { assert c.from == a.from[k := c.from[k]]; }
  }

  lemma LiveIsActive(q: Peer)
    requires Live(q)
    ensures Active(q.ctx)
  {}

  lemma QueueGrows(p: Peer, q: Peer, x: Incoming)
    requires IsElement(p, x) && q.sendq != [] && q.inq != [] && q.inq[0] == x && x.login in q.mem.from
    requires q.mem.from[x.login].pwd == Candidate(p)
    ensures var h := Handled(q, x, Candidate(p));
            h.sendq != [] && h.sendq[0] == q.sendq[0] && h.mem.from[x.login].pwd == Candidate(p)
  {
    hide Base64.Encode, Locked;
  }

  /** The other side has switched its login, and its answer leaves under the new password, which s has. */
  lemma Repaired(c: Course, before: Net, s: Side, l: Login, g: Login, h: Login, m: Message) returns (d: Course)
    requires Tidy(c) && !Owing(c, Left) && !Owing(c, Right) && TakenOver(End(c), before, s, l, g, m)
    requires Remains(End(c), s, [], h) && Unanswered.Repairs(before.At(s), before.At(Other(s)), g)
    ensures Tidy(d) && d.states[0] == c.states[0] && !Owing(d, s) && Answered(End(d), before, s, l)
  {
    hide IsOrderly, Owing, Live, Peers.Process, SaveStep, CanSave, Rounds.ReplyAgrees, Sent, Peers.Receive, PongTo,
         AnswerEnvelope, Inv;
    var o := Other(s);
    var p, q := End(c).At(s), End(c).At(o);
    InvOf(c);
    SideMatched(End(c), s);
    PongIsAnswer(q);
    Switches(q);
    d := Goes(c, Process(o, 0));
    d := Goes(d, Label.Save(o));
    var q1 := End(d).At(o);
    AnswerSealed(q1, g, m);
    d := LeavesOne(d, o, AnswerEnvelope(q1, g, m));
    var q2 := End(d).At(o);
    EnvelopeSame(q1, q2, g, m);
    var answer := AnswerArrives(p, q2, g, m);
    d := TakesOne(d, s);
    EnvelopeOnly(p, End(d).At(s));
  }

  lemma EnvelopeSame(q: Peer, q': Peer, g: Login, m: Message)
    requires g in q.mem.to && q' == q.(sendq := q'.sendq)
    ensures AnswerEnvelope(q', g, m) == AnswerEnvelope(q, g, m)
  {
    hide Derive;
  }

  lemma PongIsAnswer(q: Peer)
    requires Live(q)
    ensures AnswerTo(q, PongTo(q)) && q.ctx.Some?
  {}

  /** From a crossing with room for side s, where the other side's challenge repairs the reply direction. */
  lemma RepairedRecovers(n: Net, s: Side, l: Login, g: Login) returns (c: Course)
    requires Reachable(n) && Met(n, s, l, g) && Room(n.At(s), n.At(Other(s)), l)
    requires Unanswered.Repairs(n.At(s), n.At(Other(s)), g) && !Rounds.ReplyAgrees(n.At(s), n.At(Other(s)))
    ensures Tidy(c) && c.states[0] == n && l in n.At(s).mem.to
    ensures Rotated(End(c), n.At(s).mem.to, n.At(Other(s)).mem.from, s, l, n.At(s).mem.to[l])
  {
    hide Reachable, IsOrderly, Owing, TakenOver, Remains, Answered, Rotated, Unanswered.Repairs, Rounds.ReplyAgrees, Room,
         Met;
    var h, m;
    c, h, m := TakesOver(n, s, l, g);
    c := Repaired(c, n, s, l, g, h, m);
    c := Completes(c, n, s, l);
  }

  // --------------------------------------------------------------------------- exactly when

  /** A run of the session from n, at the end of which the login is rotated; every thread scans after each message. */
  ghost predicate Rotates(n: Net, s: Side, l: Login, states: seq<Net>, labels: seq<Label>) {
    var p, q := n.At(s), n.At(Other(s));
    && IsRun(states, labels) && states[0] == n && Disciplined(labels)
    && (forall i :: 0 <= i < |labels| ==> Within(labels[i]))
    && l in p.mem.to && Rotated(states[|labels|], p.mem.to, q.mem.from, s, l, p.mem.to[l])
  }

  ghost predicate RotatesSometime(n: Net, s: Side, l: Login) {
    exists states: seq<Net>, labels: seq<Label> :: Rotates(n, s, l, states, labels)
  }

  /** The answers of the other side can be opened: at once, or after its own challenge has been completed. */
  predicate Answerable(p: Peer, q: Peer, g: Login) {
    Rounds.ReplyAgrees(p, q) || Unanswered.Repairs(p, q, g)
  }

  /** From a crossing with room for side s: in some run of the session its login is rotated, exactly when the reply
      direction agrees or the other side's challenge repairs it. */
  lemma RotatesIff(n: Net, s: Side, l: Login, g: Login)
    requires Reachable(n) && Met(n, s, l, g) && Room(n.At(s), n.At(Other(s)), l)
    ensures RotatesSometime(n, s, l) <==> Answerable(n.At(s), n.At(Other(s)), g)
  {
    hide Reachable, Met, Room, Rotated, Rounds.ReplyAgrees, Unanswered.Repairs, Enabled, Next, Disciplined, Asks;
    if Answerable(n.At(s), n.At(Other(s)), g) {
      var c;
      if Rounds.ReplyAgrees(n.At(s), n.At(Other(s))) {
        c := CrossedRecovers(n, s, l, g);
      } else {
        c := RepairedRecovers(n, s, l, g);
      }
      CourseRotates(n, s, l, c);
    } else if RotatesSometime(n, s, l) {
      var states: seq<Net>, labels: seq<Label> :| Rotates(n, s, l, states, labels);
      Unanswered.NeverRotated(n, s, l, g, states, labels, |labels|);
      MetPending(n, s, l, g);
      RotatedNotPending(n, s, l, states[|labels|]);
    }
  }

  lemma CourseRotates(n: Net, s: Side, l: Login, c: Course)
    requires Tidy(c) && c.states[0] == n && l in n.At(s).mem.to
    requires Rotated(End(c), n.At(s).mem.to, n.At(Other(s)).mem.from, s, l, n.At(s).mem.to[l])
    ensures RotatesSometime(n, s, l)
  {
    hide Reachable, Enabled, Next, Rotated, Disciplined;
    TidyRun(c);
    forall i | 0 <= i < |c.labels| ensures Within(c.labels[i]) { assert Recovery.Orderly(c.states[i], c.labels[i]); }
    assert Rotates(n, s, l, c.states, c.labels);
  }

  lemma MetPending(n: Net, s: Side, l: Login, g: Login)
    requires Met(n, s, l, g)
    ensures Pending(n.At(s).mem.to, l)
  {}

  lemma RotatedNotPending(n: Net, s: Side, l: Login, m: Net)
    requires Pending(n.At(s).mem.to, l) && m.At(s).mem.to == n.At(s).mem.to
    ensures !Rotated(m, n.At(s).mem.to, n.At(Other(s)).mem.from, s, l, n.At(s).mem.to[l])
  {}
}
