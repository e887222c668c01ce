/** The choices a session makes over its credentials, in the terms of the list of its logins, of its challenge and of the
    clock: which login a scan takes up and when AllClear is announced instead, under which login a payload goes and when
    it is refused, and what becomes of a request. */
module Choices {
  import opened Basics
  import opened Wire
  import opened Credentials
  import opened Peers
  import opened Network
  import opened ChallengeInvariant
  import opened Agreement
  import Base64

  /** Past three quarters of the 135 seconds a password is valid. */
  predicate Old(a: Auth, now: int) {
    4 * (now - a.stamp) > 3 * 135
  }

  /** A login to rotate: it has a candidate, or an old password. */
  predicate Wanted(to: map<Login, Auth>, l: Login, now: int) {
    l in to && (to[l].pending || Old(to[l], now))
  }

  // ---------------------------------------------------------------------------- the scan

  lemma WantedIsDue(a: Auth, now: int)
    ensures Due(a, now) <==> a.pending || Old(a, now)
  {}

  /** Position i of the list has the first login to rotate. */
  predicate FirstWanted(order: seq<Login>, to: map<Login, Auth>, now: int, i: int) {
    0 <= i < |order| && Wanted(to, order[i], now) && forall j :: 0 <= j < i ==> !Wanted(to, order[j], now)
  }

  /** The scan finds the first login of the list that is to be rotated, and nothing exactly when none is. */
  lemma {:induction false} ScanFinds(order: seq<Login>, to: map<Login, Auth>, now: int)
    ensures DueLogin(order, to, now).None? <==> forall l :: l in order ==> !Wanted(to, l, now)
    ensures forall l :: DueLogin(order, to, now) == Some(l) <==>
                          exists i :: FirstWanted(order, to, now, i) && order[i] == l
  {
    hide Old, Due;
    if order != [] {
      var rest := order[1..];
      if order[0] in to { WantedIsDue(to[order[0]], now); }
      if Wanted(to, order[0], now) {
        assert FirstWanted(order, to, now, 0);
      } else {
        ScanFinds(rest, to, now);
        forall i ensures FirstWanted(rest, to, now, i) <==> 0 <= i && FirstWanted(order, to, now, i + 1) {
          OneLater(order, to, now, i);
        }
        forall l
          ensures DueLogin(order, to, now) == Some(l) <==> exists i :: FirstWanted(order, to, now, i) && order[i] == l
        {
          if i :| FirstWanted(order, to, now, i) && order[i] == l {
            assert FirstWanted(rest, to, now, i - 1) && rest[i - 1] == l;
          }
          if i :| FirstWanted(rest, to, now, i) && rest[i] == l {
            assert FirstWanted(order, to, now, i + 1) && order[i + 1] == l;
          }
        }
      }
    }
  }

  lemma OneLater(order: seq<Login>, to: map<Login, Auth>, now: int, i: int)
    requires order != [] && !Wanted(to, order[0], now)
    ensures FirstWanted(order[1..], to, now, i) <==> 0 <= i && FirstWanted(order, to, now, i + 1)
  {
    hide Wanted;
    var rest := order[1..];
    assert forall j :: 0 <= j < |rest| ==> rest[j] == order[j + 1];
    if 0 <= i && FirstWanted(order, to, now, i + 1) {
      forall j | 0 <= j < i ensures !Wanted(to, rest[j], now) { assert order[j + 1] == rest[j]; }
    }
    if FirstWanted(rest, to, now, i) {
      forall j | 0 <= j < i + 1 ensures !Wanted(to, order[j], now) { if j > 0 { assert rest[j - 1] == order[j]; } }
    }
  }

  /** One login without a candidate is found exactly past three quarters of its 135 seconds. */
  lemma OneLoginFoundIff(l: Login, a: Auth, now: int)
    requires !a.pending
    ensures DueLogin([l], map[l := a], now) == Some(l) <==> 4 * (now - a.stamp) > 3 * 135
  {
    assert [l][1..] == [];
  }

  /** A side announces AllClear in a step exactly when that is a scan of its own that finds no challenge under way and no
      login with a candidate or an old password, and it has not announced it before. */
  lemma AnnouncesIff(n: Net, a: Label, s: Side)
    requires Enabled(n, a) && !n.At(s).allClearSent
    ensures Next(n, a).At(s).allClearSent
            <==> a.Scan? && a.side == s && NoChallenge(n.At(s))
                 && forall l :: l in n.At(s).mem.order ==> !Wanted(n.At(s).mem.to, l, a.now)
    ensures Next(n, a).At(s).allClearSent ==>
              Next(n, a).At(s).sendq == n.At(s).sendq + [ToSeal(None, AllClear)]
  {
    hide Begin, SaveStep, EmitStep, Peers.Process, Peers.Receive, Peers.Send, Sent, CanSave, CanEmit, GoodCandidate, Wanted,
         Load, Credentials.Save;
    var p := n.At(s);
    if !a.Disconnect? && !a.Connect? && a.side == s {
      match a
      case Scan(_, now, candidate) => BeginAnnounces(p, now, candidate);
      case Process(_, now) => ProcessAnnounces(p, now);
      case Save(_) => SaveAnnounces(p);
      case Emit(_) => EmitAnnounces(p, n.nextId, n.nextId + 1);
      case Transmit(_, _) =>
      case Receive(_, late) => TrafficAnnounces(p, n.From(Other(s)).log[n.From(Other(s)).taken], late, None, []);
      case Send(_, login, payload) => TrafficAnnounces(p, Envelope([], []), false, login, payload);
      case Crash(_) =>
    }
  }

  predicate NoChallenge(p: Peer) {
    p.ctx.None? || (!p.ctx.value.toSend && !p.ctx.value.running)
  }

  lemma BeginAnnounces(p: Peer, now: int, candidate: Bytes)
    requires !p.allClearSent
    ensures var p' := Begin(p, now, candidate);
            && (p'.allClearSent <==> NoChallenge(p) && forall l :: l in p.mem.order ==> !Wanted(p.mem.to, l, now))
            && (p'.allClearSent ==> p'.sendq == p.sendq + [ToSeal(None, AllClear)])
  {
    hide DueLogin, Wanted;
    ScanFinds(p.mem.order, p.mem.to, now);
  }

  lemma ProcessAnnounces(p: Peer, now: int)
    requires p.inq != []
    ensures Peers.Process(p, now).allClearSent == p.allClearSent
  {
    hide OnRequest;
    var x, p0 := p.inq[0], p.(inq := p.inq[1..]);
    if x.body.ChangePwdRequest? { RequestEffect(p0, x.login, x.body.mId, x.body.pwd, now); }
  }

  lemma SaveAnnounces(p: Peer)
    requires CanSave(p)
    ensures SaveStep(p).allClearSent == p.allClearSent
  {}

  lemma EmitAnnounces(p: Peer, m1: nat, m2: nat)
    requires CanEmit(p)
    ensures EmitStep(p, m1, m2).allClearSent == p.allClearSent
  {}

  lemma TrafficAnnounces(p: Peer, e: Envelope, late: bool, login: Option<Login>, payload: Bytes)
    ensures Peers.Receive(p, e, late).allClearSent == Peers.Send(p, login, payload).allClearSent == p.allClearSent
  {
    hide Wire.Opened, Internal, External, OpenKey, SendLogin;
  }

  /** A scan that announces nothing new drops a context that has come to its end; only where there is no login does it
      stay. */
  lemma FruitlessScan(p: Peer, now: int, candidate: Bytes)
    requires NoChallenge(p) && forall l :: l in p.mem.order ==> !Wanted(p.mem.to, l, now)
    ensures var p' := Begin(p, now, candidate);
            && (p.ctx.Some? && p.ctx.value.auth.Some? && p.mem.order != [] ==> p'.ctx.None?)
            && (p.ctx.None? || p.ctx.value.auth.None? || p.mem.order == [] ==> p'.ctx == p.ctx)
            && p'.mem == p.mem && p'.phase == p.phase && (p.allClearSent ==> p'.sendq == p.sendq)
  {
    hide DueLogin, Wanted;
    ScanFinds(p.mem.order, p.mem.to, now);
  }

  // ------------------------------------------------------------------- the time between rotations

  /** The entry has no candidate, in memory and in the file. */
  predicate Rests(p: Peer, l: Login, a: Auth) {
    !a.pending && l in p.mem.to && p.mem.to[l] == a && l in p.disk.to && p.disk.to[l] == a
  }

  /** A switch sets the clock of the login, in memory; its save does in the file. */
  lemma SwitchSetsClock(n: Net, s: Side, now: int, l: Login)
    requires Reachable(n) && Enabled(n, Process(s, now)) && Pending(n.At(s).mem.to, l)
    requires var m := Next(n, Process(s, now)); l in m.At(s).mem.to && !m.At(s).mem.to[l].pending
    ensures var m := Next(n, Process(s, now));
            && m.At(s).mem.to[l] == Auth(n.At(s).mem.to[l].newPwd, [], false, now)
            && Enabled(m, Label.Save(s)) && Rests(Next(m, Label.Save(s)).At(s), l, m.At(s).mem.to[l])
  {
    hide Reachable, Peers.Process;
    Clock(n.At(s), now, l);
  }

  lemma Clock(p: Peer, now: int, l: Login)
    requires p.phase.Idle? && p.inq != [] && Pending(p.mem.to, l)
    ensures var p' := Peers.Process(p, now);
            l in p'.mem.to
            && (p'.mem.to[l].pending || (p'.phase.Switched? && p'.mem.to[l] == Auth(p.mem.to[l].newPwd, [], false, now)))
  {
    hide OnRequest;
    var x, p0 := p.inq[0], p.(inq := p.inq[1..]);
    if x.body.ChangePwdRequest? { RequestEffect(p0, x.login, x.body.mId, x.body.pwd, now); }
  }

  /** The step is no scan of side s at a time at which the entry is old. */
  predicate NotLate(a: Label, s: Side, entry: Auth) {
    a.Scan? && a.side == s ==> !Old(entry, a.now)
  }

  lemma ScanRests(p: Peer, l: Login, a: Auth, now: int, candidate: Bytes)
    requires Rests(p, l, a) && !Old(a, now)
    ensures Rests(Begin(p, now, candidate), l, a)
  {
    hide DueLogin;
    WantedIsDue(a, now);
  }

  lemma ProcessRests(p: Peer, l: Login, a: Auth, now: int)
    requires Rests(p, l, a) && p.inq != []
    ensures Rests(Peers.Process(p, now), l, a)
  {
    hide OnRequest;
    var x, p0 := p.inq[0], p.(inq := p.inq[1..]);
    if x.body.ChangePwdRequest? { RequestEffect(p0, x.login, x.body.mId, x.body.pwd, now); }
  }

  lemma SaveRests(p: Peer, l: Login, a: Auth)
    requires Rests(p, l, a) && CanSave(p)
    ensures Rests(SaveStep(p), l, a)
  {}

  lemma OthersRest(p: Peer, l: Login, a: Auth, m1: nat, m2: nat, e: Envelope, late: bool, login: Option<Login>,
                   payload: Bytes, cipher: string)
    requires Rests(p, l, a)
    ensures CanEmit(p) ==> Rests(EmitStep(p, m1, m2), l, a)
    ensures Rests(Peers.Receive(p, e, late), l, a) && Rests(Peers.Send(p, login, payload), l, a)
    ensures Rests(Stop(p), l, a) && Rests(Start(p, cipher), l, a)
  {
    hide Wire.Opened, Internal, External, OpenKey, SendLogin, ChallengeEnvelope;
  }

  lemma RestartRests(p: Peer, l: Login, a: Auth)
    requires Rests(p, l, a) && PeerGood(p)
    ensures Rests(Restart(p), l, a)
  {
    hide PeerGood, Load, Credentials.Save;
    RestartKeepsPeer(p);
  }

  lemma StepRests(n: Net, a: Label, s: Side, l: Login, entry: Auth)
    requires Inv(n) && Enabled(n, a) && Rests(n.At(s), l, entry) && NotLate(a, s, entry)
    ensures Rests(Next(n, a).At(s), l, entry)
  {
    hide Inv, Rests, Old, Begin, SaveStep, EmitStep, Peers.Process, Peers.Receive, Peers.Send, Sent, CanSave, CanEmit,
         GoodCandidate, Start, Stop, Restart;
    var p, cipher := n.At(s), if a.Connect? then a.cipher else [];
    OthersRest(p, l, entry, n.nextId, n.nextId + 1, Envelope([], []), false, None, [], cipher);
    if !a.Disconnect? && !a.Connect? && a.side == s {
      match a
      case Scan(_, now, candidate) => ScanRests(p, l, entry, now, candidate);
      case Process(_, now) => ProcessRests(p, l, entry, now);
      case Save(_) => SaveRests(p, l, entry);
      case Emit(_) =>
      case Transmit(_, _) => TransmitRests(p, l, entry);
      case Receive(_, late) =>
        OthersRest(p, l, entry, 0, 1, n.From(Other(s)).log[n.From(Other(s)).taken], late, None, [], cipher);
      case Send(_, login, payload) => OthersRest(p, l, entry, 0, 1, Envelope([], []), false, login, payload, cipher);
      case Crash(_) =>
        GoodAt(n, s);
        RestartRests(p, l, entry);
    }
  }

  lemma TransmitRests(p: Peer, l: Login, a: Auth)
    requires Rests(p, l, a)
    ensures p.sendq != [] ==> Rests(p.(sendq := p.sendq[1..]), l, a)
  {}

  lemma GoodAt(n: Net, s: Side)
    requires Inv(n)
    ensures PeerGood(n.At(s))
  {
    InvAt(n, s);
  }

  /** No login is challenged again before three quarters of its 135 seconds are over: over every run, with reconnections and
      restarts, a saved entry without a candidate stays what it is in memory and in the file as long as no scan of its
      side comes later than that. */
  lemma {:induction false} StaysRested(states: seq<Net>, labels: seq<Label>, s: Side, l: Login, entry: Auth, k: nat)
    requires IsRun(states, labels) && Reachable(states[0]) && Rests(states[0].At(s), l, entry) && k <= |labels|
    requires forall i :: 0 <= i < k ==> NotLate(labels[i], s, entry)
    ensures Rests(states[k].At(s), l, entry) && Inv(states[k])
  {
    hide Inv, Rests, Enabled, Next, Reachable, NotLate;
    if k == 0 {
      ReachableInv(states[0]);
    } else {
      StaysRested(states, labels, s, l, entry, k - 1);
      assert Enabled(states[k - 1], labels[k - 1]) && states[k - 1 + 1] == Next(states[k - 1], labels[k - 1]);
      StepRests(states[k - 1], labels[k - 1], s, l, entry);
      StepKeepsInv(states[k - 1], labels[k - 1]);
    }
  }

  // ------------------------------------------------------------------------------- _send

  /** The newest login of the list. */
  predicate Newest(order: seq<Login>, l: Login) {
    order != [] && order[|order| - 1] == l
  }

  /** The challenge under way is for login l. */
  predicate Challenges(p: Peer, l: Login) {
    p.ctx.Some? && p.ctx.value.auth == Some(l) && (p.ctx.value.toSend || p.ctx.value.running)
  }

  predicate HasCandidate(p: Peer, l: Login) {
    l in p.mem.to && p.mem.to[l].pending
  }

  /** The site has another login, the oldest, and it has no candidate. */
  predicate OldestFree(p: Peer) {
    |p.mem.order| > 1 && !HasCandidate(p, p.mem.order[0])
  }

  predicate BothClear(p: Peer) {
    p.allClearSent && p.allClearRxed
  }

  /** A payload without a login finds one: both AllClear have passed, the site has a login, and either the newest one is not
      the one challenged or there is another one, the oldest, without a candidate. */
  predicate TakesUnnamed(p: Peer) {
    BothClear(p) && p.mem.order != [] && (!Challenges(p, p.mem.order[|p.mem.order| - 1]) || OldestFree(p))
  }

  /** It goes under the newest login, or else under the oldest. */
  function UnnamedLogin(p: Peer): Login
    requires p.mem.order != []
  {
    var newest := p.mem.order[|p.mem.order| - 1];
    if Challenges(p, newest) then p.mem.order[0] else newest
  }

  /** A payload with a login: both AllClear have passed, the login is one of the site's, and the newest one, whichever was
      asked for, has no candidate. */
  predicate TakesNamed(p: Peer, l: Login) {
    BothClear(p) && l in p.mem.to && p.mem.order != [] && !HasCandidate(p, p.mem.order[|p.mem.order| - 1])
  }

  /** Exactly then a payload is taken, and nothing else changes. */
  lemma TakenIff(p: Peer, l: Login, x: Bytes)
    ensures Peers.Send(p, None, x)
            == if TakesUnnamed(p) then p.(sendq := p.sendq + [ToSeal(Some(UnnamedLogin(p)), Application(x))]) else p
    ensures Peers.Send(p, Some(l), x)
            == if TakesNamed(p, l) then p.(sendq := p.sendq + [ToSeal(Some(l), Application(x))]) else p
  {}

  /** So an application is never cut off by the challenges of its own side while the oldest of several logins has no
      candidate, in any reachable state. */
  lemma OldestKeepsOpen(n: Net, s: Side, x: Bytes)
    requires Reachable(n) && BothClear(n.At(s)) && OldestFree(n.At(s))
    ensures exists l :: l in n.At(s).mem.order
                        && Peers.Send(n.At(s), None, x).sendq == n.At(s).sendq + [ToSeal(Some(l), Application(x))]
  {
    hide Reachable;
    TakenIff(n.At(s), [], x);
    assert n.At(s).mem.order[|n.At(s).mem.order| - 1] in n.At(s).mem.order && n.At(s).mem.order[0] in n.At(s).mem.order;
  }

  // ------------------------------------------------------------------------- a request arrives

  /** A text is passed on exactly when it is not empty and, from two characters on, its length stands for less than 256
      octets; for a text of whole groups that is the length of the password in it. */
  lemma GuardIff(text: string)
    ensures text == [] ==> !GuardAccepts(text)
    ensures text != [] && |text| % 4 == 0 ==>
              (GuardAccepts(text) <==> Base64.Decode(text).Some? && |Base64.Decode(text).value| < 256)
  {
    if text != [] && |text| % 4 == 0 { Base64.GuardMatchesDecoder(text); }
  }

  /** What becomes of a request for a known login: a text that is not passed on gets no answer; otherwise it is refused
      exactly when the text does not decode, or when a challenge is under way and the newest login has a candidate and
      there is no other or the oldest one has a candidate too; and otherwise the password is installed as of now. */
  lemma RequestOutcome(p: Peer, l: Login, m: nat, text: string, now: int)
    requires p.phase.Idle? && l in p.mem.from && p.mem.order != []
    ensures var newest := p.mem.order[|p.mem.order| - 1];
            OnRequest(p, l, m, text, now)
            == if !GuardAccepts(text) then p
               else if Base64.Decode(text).None? || (!NoChallenge(p) && HasCandidate(p, newest) && !OldestFree(p))
               then p.(sendq := p.sendq + [ToSeal(None, ChangePwdResponse(m, false))])
               else p.(mem := p.mem.(from := p.mem.from[l := p.mem.from[l].(pwd := Base64.Decode(text).value, stamp := now)]),
                       phase := Installed(m))
  {
    hide GuardAccepts, Base64.Decode;
  }
}
