/** Under which login an application payload goes, and whether it opens. The code means to avoid the login whose challenge
    is in progress; it tests the first login of the site in its place. */
module Payloads {
  import opened Basics
  import opened Wire
  import opened Credentials
  import opened Peers
  import opened Network
  import opened ChallengeInvariant
  import opened Agreement
  import Recovery
  import Rounds
  import Stale
  import Workload
  import Base64

  /** The login of the challenge in progress, prepared or running, until the switch. */
  function ChallengedLogin(p: Peer): Option<Login> {
    if Active(p.ctx) && !p.phase.Switched? then p.ctx.value.auth else None
  }

  predicate FirstPending(p: Peer) {
    FirstLogin(p.mem.order).Some? && Pending(p.mem.to, FirstLogin(p.mem.order).value)
  }

  /** Exactly when a payload goes under the login whose challenge is in progress: when the application asks for that
      login and the first one is another that has no candidate. Without a login it never does. */
  lemma UnderChallengedIff(n: Net, s: Side, login: Option<Login>)
    requires Reachable(n) && ChallengedLogin(n.At(s)).Some?
    ensures var p := n.At(s);
            SendLogin(p, login) == ChallengedLogin(p) <==> login == ChallengedLogin(p) && !FirstPending(p)
  {
    ChallengedIsPending(n, s);
  }

  lemma ChallengedIsPending(n: Net, s: Side)
    requires Reachable(n) && ChallengedLogin(n.At(s)).Some?
    ensures var p := n.At(s);
            Active(p.ctx) && Pending(p.mem.to, ChallengedLogin(p).value) && ChallengedLogin(p).value in p.mem.order
  {
    hide Direction, AllOlder, DiskLags;
    ReachableInv(n);
    InvAt(n, s);
  }

  /** The two ends of a message under login l use keys of the same password. */
  predicate SameKey(p: Peer, q: Peer, l: Login, lateHere: bool, lateThere: bool)
    requires l in p.mem.to
  {
    l in q.mem.from && Held(q.mem.from, q.disk.from, l, lateThere) == Held(p.mem.to, p.disk.to, l, lateHere)
  }

  /** A payload opens at the other end exactly when the two use the same password as it leaves and as it arrives. */
  lemma PayloadOpensIff(n: Net, s: Side, l: Login, x: Bytes, lateHere: bool, lateThere: bool)
    requires Reachable(n) && !n.At(s).stopped && l in n.At(s).mem.to
    ensures var p, q := n.At(s), n.At(Other(s));
            var e := Sent(p, ToSeal(Some(l), Application(x)), lateHere);
            e.Some? && Peers.Receive(q, e.value, lateThere).extq
                       == if SameKey(p, q, l, lateHere, lateThere) then q.extq + [x] else q.extq
  {
    hide Inv, Sent, Peers.Receive, SameKey;
    ReachableInv(n);
    SameSession(n, s);
    OpensIff(n.At(s), n.At(Other(s)), l, x, lateHere, lateThere);
  }

  lemma OpensIff(p: Peer, q: Peer, l: Login, x: Bytes, lateHere: bool, lateThere: bool)
    requires Matched(p, q) && l in p.mem.to
    ensures var e := Sent(p, ToSeal(Some(l), Application(x)), lateHere);
            e.Some? && Peers.Receive(q, e.value, lateThere).extq
                       == if SameKey(p, q, l, lateHere, lateThere) then q.extq + [x] else q.extq
  {
    var e := Sent(p, ToSeal(Some(l), Application(x)), lateHere).value;
    assert q.extq + [] == q.extq;
    if l in q.mem.from {
      KeysAgree(p.cipher, p.me, q.me, l, Held(p.mem.to, p.disk.to, l, lateHere), Held(q.mem.from, q.disk.from, l, lateThere));
      OpenedOne(e.data, OpenKey(q, l, lateThere));
      Rounds.InternalOne(l, Application(x));
    }
  }

  // ------------------------------------------------------------------ a lost payload

  /** The challenge of login l is on the wire, the first login is another one without a candidate, and the other side
      is ready to install it. */
  predicate Exposed(n: Net, s: Side, l: Login) {
    var p, q := n.At(s), n.At(Other(s));
    && Stale.ChallengeOut(n, s, l) && p.allClearRxed && p.allClearSent && p.sendq == [] && !FirstPending(p)
    && q.phase.Idle? && q.inq == [] && !Busy(q) && l in q.mem.from
    && q.mem.from[l].pwd == p.mem.to[l].pwd != p.mem.to[l].newPwd
  }

  /** At such a point a payload that names the login is accepted, and it is lost: it leaves behind the challenge, under
      the old password, and the other side has the candidate when it arrives. */
  lemma NamedPayloadLost(n: Net, s: Side, l: Login, x: Bytes) returns (states: seq<Net>, labels: seq<Label>)
    requires Reachable(n) && Exposed(n, s, l)
    ensures var o := Other(s);
            labels == [Label.Send(s, Some(l), x), Receive(o, false), Process(o, 0), Label.Save(o), Transmit(s, false),
                       Receive(o, false)]
    ensures IsRun(states, labels) && states[0] == n
    ensures states[1].At(s).sendq == [ToSeal(Some(l), Application(x))]
    ensures var m := states[6];
            && m.At(Other(s)).extq == n.At(Other(s)).extq && m.At(s).sendq == []
            && m.From(s).taken == |m.From(s).log| && !m.At(s).stopped && !m.At(Other(s)).stopped
  {
    hide Reachable, Exposed, Next, Enabled;
    var o := Other(s);
    var a1, a2, a3, a4, a5 := Label.Send(s, Some(l), x), Receive(o, false), Process(o, 0), Label.Save(o), Transmit(s, false);
    Queues(n, s, l, x);
    var n1 := Next(n, a1);
    Installs(n1, s, l);
    var n2 := Next(n1, a2);
    var n3 := Next(n2, a3);
    var n4 := Next(n3, a4);
    Loses(n4, s, l, x);
    var n5 := Next(n4, a5);
    var n6 := Next(n5, a2);
    states, labels := [n, n1, n2, n3, n4, n5, n6], [a1, a2, a3, a4, a5, a2];
  }

  /** The payload is queued and all else is as it was. */
  lemma Queues(n: Net, s: Side, l: Login, x: Bytes)
    requires Reachable(n) && Exposed(n, s, l)
    ensures var a := Label.Send(s, Some(l), x);
            && Enabled(n, a) && Reachable(Next(n, a)) && Next(n, a).At(Other(s)) == n.At(Other(s))
            && Next(n, a).At(s).sendq == [ToSeal(Some(l), Application(x))] && CanInstall(Next(n, a), s, l)
  {
    hide Reachable, Peers.Send, LiveEnvelope, Busy, Live;
    var a := Label.Send(s, Some(l), x);
    var o := ToSeal(Some(l), Application(x));
    Accepted(n, s, l, x);
    Recovery.ReachableStep(n, a);
    var p := n.At(s);
    SameChallengeOut(p, p.(sendq := [o]));
  }

  lemma Accepted(n: Net, s: Side, l: Login, x: Bytes)
    requires Reachable(n) && Exposed(n, s, l)
    ensures Peers.Send(n.At(s), Some(l), x) == n.At(s).(sendq := [ToSeal(Some(l), Application(x))])
    ensures Live(n.At(s)) && LiveLogin(n.At(s)) == l && !n.At(s).stopped
  {
    hide Reachable, SendLogin, LiveEnvelope, Busy;
    UnderChallengedIff(n, s, Some(l));
    assert [] + [ToSeal(Some(l), Application(x))] == [ToSeal(Some(l), Application(x))];
  }

  lemma SameChallengeOut(p: Peer, p': Peer)
    requires Live(p) && p' == p.(sendq := p'.sendq)
    ensures Live(p') && LiveLogin(p') == LiveLogin(p) && LiveEnvelope(p') == LiveEnvelope(p)
  {
    hide Base64.Encode;
  }

  predicate CanInstall(n: Net, s: Side, l: Login) {
    var p, q := n.At(s), n.At(Other(s));
    && Stale.ChallengeOut(n, s, l) && q.phase.Idle? && q.inq == [] && !Busy(q) && l in q.mem.from
    && q.mem.from[l].pwd == p.mem.to[l].pwd != p.mem.to[l].newPwd
  }

  /** The challenge arrives, and the candidate is installed and saved. */
  lemma Installs(n: Net, s: Side, l: Login)
    requires Reachable(n) && CanInstall(n, s, l)
    ensures var o := Other(s);
            && Enabled(n, Receive(o, false)) && Enabled(Next(n, Receive(o, false)), Process(o, 0))
            && Enabled(Next(Next(n, Receive(o, false)), Process(o, 0)), Label.Save(o))
            && var m := Next(Next(Next(n, Receive(o, false)), Process(o, 0)), Label.Save(o));
               && Reachable(m) && m.At(s) == n.At(s) && m.From(s).taken == |m.From(s).log| && !m.At(o).stopped
               && m.At(o).extq == n.At(o).extq
               && l in m.At(o).mem.from && m.At(o).mem.from[l].pwd == m.At(s).mem.to[l].newPwd
  {
    hide Reachable, Enabled, Next, CanInstall;
    var o := Other(s);
    Arrives(n, s, l);
    IsInstalled(Next(n, Receive(o, false)), s, l);
  }

  function Request(p: Peer): Message
    requires Live(p)
  {
    ChangePwdRequest(p.ctx.value.mIdRequest, Base64.Encode(Candidate(p)))
  }

  lemma Arrives(n: Net, s: Side, l: Login)
    requires Reachable(n) && CanInstall(n, s, l)
    ensures Enabled(n, Receive(Other(s), false))
    ensures var m, q := Next(n, Receive(Other(s), false)), n.At(Other(s));
            && Reachable(m) && m.At(s) == n.At(s) && m.At(Other(s)) == q.(inq := [Incoming(l, Request(n.At(s)))])
            && m.From(s).taken == |m.From(s).log| && Live(n.At(s)) && LiveLogin(n.At(s)) == l
            && q.phase.Idle? && !q.stopped && l in q.mem.from && !Busy(m.At(Other(s)))
  {
    hide Reachable, Peers.Receive, Busy, LiveEnvelope, Base64.Encode;
    Workload.OffTheWire(n.From(s));
    Stale.OpensRequest(n, s, l);
    Recovery.ReachableStep(n, Receive(Other(s), false));
    NotBusyThen(n.At(Other(s)), Next(n, Receive(Other(s), false)).At(Other(s)));
  }

  lemma IsInstalled(n: Net, s: Side, l: Login)
    requires Reachable(n) && Live(n.At(s)) && LiveLogin(n.At(s)) == l
    requires var q := n.At(Other(s));
             && q.phase.Idle? && !q.stopped && l in q.mem.from && !Busy(q) && q.inq == [Incoming(l, Request(n.At(s)))]
    ensures Enabled(n, Process(Other(s), 0)) && Enabled(Next(n, Process(Other(s), 0)), Label.Save(Other(s)))
    ensures var o := Other(s);
            var m := Next(Next(n, Process(o, 0)), Label.Save(o));
            && Reachable(m) && m.At(s) == n.At(s) && m.From(s) == n.From(s) && !m.At(o).stopped && m.At(o).extq == n.At(o).extq
            && l in m.At(o).mem.from && m.At(o).mem.from[l].pwd == Candidate(n.At(s))
  {
    hide Reachable, Peers.Process, Busy, Base64.Encode;
    var o := Other(s);
    Stale.InstallsRequest(n, s, l);
    Recovery.ReachableStep(n, Process(o, 0));
    Recovery.ReachableStep(Next(n, Process(o, 0)), Label.Save(o));
  }

  lemma NotBusyThen(q: Peer, q': Peer)
    requires q' == q.(inq := q'.inq, extq := q'.extq)
    ensures Busy(q') == Busy(q)
  {}

  /** The payload leaves and does not open. */
  lemma Loses(n: Net, s: Side, l: Login, x: Bytes)
    requires Reachable(n) && n.At(s).sendq == [ToSeal(Some(l), Application(x))] && n.From(s).taken == |n.From(s).log|
    requires !n.At(s).stopped && !n.At(Other(s)).stopped && l in n.At(s).mem.to && l in n.At(Other(s)).mem.from
    requires n.At(Other(s)).mem.from[l].pwd != n.At(s).mem.to[l].pwd
    ensures Enabled(n, Transmit(s, false)) && Enabled(Next(n, Transmit(s, false)), Receive(Other(s), false))
    ensures var m := Next(Next(n, Transmit(s, false)), Receive(Other(s), false));
            && m.At(Other(s)).extq == n.At(Other(s)).extq && m.At(s).sendq == [] && !m.At(s).stopped && !m.At(Other(s)).stopped
            && m.From(s).taken == |m.From(s).log|
  {
    hide Reachable, Sent, Peers.Receive;
    PayloadOpensIff(n, s, l, x, false, false);
    OnlyQueues(n.At(Other(s)), Sent(n.At(s), ToSeal(Some(l), Application(x)), false).value);
  }

  lemma SameSession(n: Net, s: Side)
    requires Inv(n) && !n.At(s).stopped
    ensures Matched(n.At(s), n.At(Other(s)))
  {}

  lemma OnlyQueues(q: Peer, e: Envelope)
    ensures var q' := Peers.Receive(q, e, false); q' == q.(inq := q'.inq, extq := q'.extq)
  {}

  /** A process with an old login l and a newer one f, whose password is younger. */
  function TwoLogins(me: SiteId, remote: SiteId, l: Login, f: Login, pwd: Bytes): Peer {
    var entries := map[l := Auth(pwd, [], false, 0), f := Auth(pwd, [], false, TRIGGER_SECONDS)];
    var store := Store([l, f], entries, entries);
    Peer(me, remote, "", store, store, None, false, false, true, [], [], [], Idle)
  }

  lemma TwoLoginsInitial(x: SiteId, y: SiteId, l: Login, f: Login, pwd: Bytes)
    requires GoodLength(pwd) && l != f
    ensures Reachable(Net(TwoLogins(x, y, l, f, pwd), TwoLogins(y, x, l, f, pwd), EMPTY, EMPTY, 0))
  {
    hide InitialPeer, SamePasswords, TwoLogins;
    var n := Net(TwoLogins(x, y, l, f, pwd), TwoLogins(y, x, l, f, pwd), EMPTY, EMPTY, 0);
    TwoLoginsGood(x, y, l, f, pwd);
    TwoLoginsGood(y, x, l, f, pwd);
    assert forall s :: InitialPeer(n.At(s)) && SamePasswords(n.At(s), n.At(Other(s)));
    assert Initial(n) && IsRun([n], []) && [n][0] == n;
  }

  lemma TwoLoginsGood(x: SiteId, y: SiteId, l: Login, f: Login, pwd: Bytes)
    requires GoodLength(pwd) && l != f
    ensures InitialPeer(TwoLogins(x, y, l, f, pwd))
    ensures SamePasswords(TwoLogins(x, y, l, f, pwd), TwoLogins(y, x, l, f, pwd))
    ensures TwoLogins(x, y, l, f, pwd).remote == TwoLogins(y, x, l, f, pwd).me
  {}

  /** The credentials of a process with an old login l and a younger f. */
  predicate TwoEntries(store: Store, l: Login, f: Login) {
    && l != f && store.order == [l, f] && l in store.to && f in store.to && f in store.from && l in store.from
    && !store.to[l].pending && !store.to[f].pending
    && store.to[l].stamp == 0 && store.to[f].stamp == TRIGGER_SECONDS
    && store.from[f].pwd == store.to[f].pwd && store.from[l].pwd == store.to[l].pwd
  }

  /** Nothing is going on in the session, and both sides have the same two logins. */
  predicate Waiting(n: Net, store: Store, l: Login, f: Login) {
    && Recovery.Quiet(n) && !n.left.stopped && !n.right.stopped && TwoEntries(store, l, f)
    && n.left.mem == store && n.right.mem == store && !Active(n.left.ctx) && !Active(n.right.ctx)
  }

  lemma Announce(x: SiteId, y: SiteId, l: Login, f: Login, pwd: Bytes) returns (m: Net)
    requires GoodLength(pwd) && l != f
    ensures Reachable(m) && Waiting(m, TwoLogins(x, y, l, f, pwd).mem, l, f)
    ensures m.left.allClearSent && m.left.allClearRxed && m.right.allClearSent && m.right.allClearRxed
  {
    hide Reachable, Waiting;
    var n := Net(TwoLogins(x, y, l, f, pwd), TwoLogins(y, x, l, f, pwd), EMPTY, EMPTY, 0);
    TwoLoginsInitial(x, y, l, f, pwd);
    Recovery.ReachableStep(n, Connect(""));
    var n0 := Next(n, Connect(""));
    FreshSession(n, l, f);
    var n1 := AnnounceOne(n0, Left, n.left.mem, l, f);
    m := AnnounceOne(n1, Right, n.left.mem, l, f);
    assert m.At(Left).allClearSent && m.At(Right).allClearSent;
  }

  lemma FreshSession(n: Net, l: Login, f: Login)
    requires Enabled(n, Connect("")) && n.left.mem == n.right.mem && TwoEntries(n.left.mem, l, f)
    ensures var m := Next(n, Connect(""));
            Waiting(m, n.left.mem, l, f) && !m.left.allClearSent && !m.right.allClearSent
  {}

  /** One side's announcement, from its scan to its handling. */
  lemma AnnounceOne(n: Net, s: Side, store: Store, l: Login, f: Login) returns (m: Net)
    requires Reachable(n) && Waiting(n, store, l, f) && !n.At(s).allClearSent
    ensures Reachable(m) && Waiting(m, store, l, f)
    ensures m.At(s).allClearSent && m.At(s).allClearRxed == n.At(s).allClearRxed
    ensures m.At(Other(s)).allClearSent == n.At(Other(s)).allClearSent && m.At(Other(s)).allClearRxed
  {
    hide Reachable, Waiting;
    var n1 := Announces(n, s, store, l, f);
    m := Hears(n1, s, store, l, f);
  }

  /** The announcement is on the wire. */
  predicate OnItsWay(n: Net, s: Side, store: Store, l: Login, f: Login) {
    var p, q, w, v := n.At(s), n.At(Other(s)), n.From(s), n.From(Other(s));
    && !p.stopped && !q.stopped && TwoEntries(store, l, f) && p.phase.Idle? && q.phase.Idle?
    && p.sendq == [] && q.sendq == [] && p.inq == [] && q.inq == []
    && p.mem == store && q.mem == store && !Active(p.ctx) && !Active(q.ctx)
    && GoodChannel(w) && GoodChannel(v) && InFlight(v) == []
    && |InFlight(w)| == 1 && Some(InFlight(w)[0]) == Sent(p, ToSeal(None, AllClear), false)
  }

  lemma ScanAnnounces(p: Peer, l: Login, f: Login)
    requires TwoEntries(p.mem, l, f) && !Active(p.ctx) && !p.allClearSent && p.sendq == []
    ensures GoodCandidate(p, 0, []) && !Active(ScannedContext(p))
    ensures Begin(p, 0, []) == p.(ctx := ScannedContext(p), allClearSent := true, sendq := [ToSeal(None, AllClear)])
  {
    hide DueLogin;
    NothingDueYet(p, l, f);
    assert [] + [ToSeal(None, AllClear)] == [ToSeal(None, AllClear)];
  }

  lemma AlwaysSent(p: Peer, p': Peer, l: Login, f: Login)
    requires TwoEntries(p.mem, l, f) && p' == p.(sendq := p'.sendq)
    ensures var e := Sent(p, ToSeal(None, AllClear), false); e.Some? && Sent(p', ToSeal(None, AllClear), false) == e
  {}

  lemma Announces(n: Net, s: Side, store: Store, l: Login, f: Login) returns (m: Net)
    requires Reachable(n) && Waiting(n, store, l, f) && !n.At(s).allClearSent
    ensures Reachable(m) && OnItsWay(m, s, store, l, f) && m.At(Other(s)) == n.At(Other(s))
    ensures m.At(s).allClearSent && m.At(s).allClearRxed == n.At(s).allClearRxed
  {
    hide Reachable, Begin, Sent, TwoEntries, GoodCandidate, ScannedContext;
    var a1, a2 := Scan(s, 0, []), Transmit(s, false);
    ScanAnnounces(n.At(s), l, f);
    Recovery.ReachableStep(n, a1);
    var n1 := Next(n, a1);
    Recovery.ReachableStep(n1, a2);
    m := Next(n1, a2);
    var e := Sent(n1.At(s), ToSeal(None, AllClear), false);
    AlwaysSent(n1.At(s), m.At(s), l, f);
    Workload.OnTheWire(n1.From(s), e);
    assert InFlight(m.From(s)) == [e.value] && m.At(s).sendq == [];
  }

  lemma Hears(n: Net, s: Side, store: Store, l: Login, f: Login) returns (m: Net)
    requires Reachable(n) && OnItsWay(n, s, store, l, f)
    ensures Reachable(m) && Waiting(m, store, l, f) && m.At(s) == n.At(s)
    ensures m.At(Other(s)).allClearSent == n.At(Other(s)).allClearSent && m.At(Other(s)).allClearRxed
  {
    hide Reachable, Inv, Sent, Peers.Receive;
    var o := Other(s);
    ReachableInv(n);
    SameSession(n, s);
    ClearOpens(n.At(s), n.At(o), f);
    Workload.OffTheWire(n.From(s));
    Recovery.ReachableStep(n, Receive(o, false));
    var n1 := Next(n, Receive(o, false));
    Recovery.ReachableStep(n1, Process(o, 0));
    m := Next(n1, Process(o, 0));
  }

  lemma NothingDueYet(p: Peer, l: Login, f: Login)
    requires p.mem.order == [l, f] && l in p.mem.to && f in p.mem.to && !p.mem.to[l].pending && !p.mem.to[f].pending
    requires p.mem.to[l].stamp == 0 && p.mem.to[f].stamp == TRIGGER_SECONDS
    ensures DueLogin(p.mem.order, p.mem.to, 0).None?
    ensures DueLogin(p.mem.order, p.mem.to, TRIGGER_SECONDS + 1) == Some(l)
  {
    assert p.mem.order[1..] == [f] && [f][1..] == [];
  }

  lemma ClearOpens(p: Peer, q: Peer, f: Login)
    requires Matched(p, q) && FirstLogin(p.mem.order) == Some(f) && f in p.mem.to && f in q.mem.from
    requires q.mem.from[f].pwd == p.mem.to[f].pwd
    ensures var e := Sent(p, ToSeal(None, AllClear), false);
            e.Some? && Peers.Receive(q, e.value, false) == q.(inq := q.inq + [Incoming(f, AllClear)])
  {
    var e := Sent(p, ToSeal(None, AllClear), false).value;
    KeysAgree(p.cipher, p.me, q.me, f, p.mem.to[f].pwd, q.mem.from[f].pwd);
    OpenedOne(e.data, OpenKey(q, f, false));
    Rounds.InternalOne(f, AllClear);
    assert q.extq + [] == q.extq;
  }

  /** Such points are reached, in a session that has lost nothing: two processes with two logins, the older of which
      falls due. */
  lemma ExposedIsReachable(x: SiteId, y: SiteId, l: Login, f: Login, pwd: Bytes, candidate: Bytes) returns (m: Net)
    requires GoodLength(pwd) && l != f && |candidate| == |pwd| && candidate != pwd
    ensures Reachable(m) && Exposed(m, Left, l)
  {
    hide Reachable, Stale.ChallengeOut, DueLogin;
    var n := Announce(x, y, l, f, pwd);
    var a := Scan(Left, TRIGGER_SECONDS + 1, candidate);
    NothingDueYet(n.At(Left), l, f);
    m := Stale.SendsChallenge(n, Left, a, l);
  }
}
