/** What the protocol's results mean for the program with its cached keys: everything carries over while the sessions
    use one cipher, and with two ciphers a login can be lost for good although both ends hold the same password. */
module CachedProtocol {
  import opened Basics
  import opened Wire
  import opened Credentials
  import opened Peers
  import opened Network
  import opened SecretCache
  import opened ChallengeInvariant
  import opened Agreement
  import opened Rounds
  import opened Recovery
  import opened KeyCaches
  import Crossing
  import Rotation
  import Reconnection
  import Delivery
  import Stale
  import Base64

  /** Agreement, of the program: in memory and after a restart. */
  lemma CachedAgree(c: System, s: Side, l: Login, fileHere: bool, fileThere: bool)
    requires CachedReachable(c)
    requires l in c.net.At(s).mem.to && l in c.net.At(Other(s)).mem.from
    ensures var here, there := Restored(c.net.At(s), fileHere), Restored(c.net.At(Other(s)), fileThere);
            l in here.to && l in there.from && Agree(here.to[l], there.from[l])
  {
    hide CachedReachable, Reachable, CRight, Restored;
    CachedIsReachable(c);
    AlwaysAgree(c.net, s, l, fileHere, fileThere);
  }

  /** The key side s's receive thread takes for a login. */
  function KeyTaken(c: System, s: Side, l: Login): Key
    requires l in c.net.At(s).mem.from
  {
    KeyUsed(FromOwner(c.net.At(s), l), FromEntry(c.net.At(s), c.At(s), l), c.net.At(s).cipher)
  }

  /** The key cached at the answering side opens one or both elements of a live challenge. */
  lemma CachedOpens(c: System, s: Side)
    requires CachedReachable(c) && Live(c.net.At(s)) && LiveLogin(c.net.At(s)) in c.net.At(Other(s)).mem.from
    ensures var p, q := c.net.At(s), c.net.At(Other(s));
            var late := IsLate(FromOwner(q, LiveLogin(p)), FromEntry(q, c.At(Other(s)), LiveLogin(p)), q.cipher);
            OpensOneOrBoth(p, HeldFor(p, q, late), Opened(LiveEnvelope(p).data, KeyTaken(c, Other(s), LiveLogin(p))))
  {
    hide CachedReachable, Reachable, Inv, Live, IsLate, OpensOneOrBoth, LiveEnvelope, OpenKey;
    CachedIsReachable(c);
    var p, q := c.net.At(s), c.net.At(Other(s));
    var l := LiveLogin(p);
    SideInv(c.net, Other(s));
    SavedKeys(q);
    RightAt(c, Other(s), false);
    OpensFrom(q, c.At(Other(s)), l, false);
    WhatOpens(c.net, s, IsLate(FromOwner(q, l), FromEntry(q, c.At(Other(s)), l), q.cipher));
  }

  // ---------------------------------------------------------------- rounds of the program

  /** A round of the program is a round of the protocol, with its bound and its end. */
  lemma CachedRoundEnds(states: seq<System>, labels: seq<Label>, s: Side, l: Login)
    requires IsCachedRun(states, labels) && CachedReachable(states[0])
    requires labels != [] && CanStart(states[0].net, s, labels[0], l)
    requires forall i :: 1 <= i < |labels| ==> Undisturbed(states[i].net, labels[i])
    ensures var nets, plain := Nets(states), Plain(states, labels);
            && IsRound(nets, plain, s, l) && 1 + Steps(nets, plain, s, |labels|) <= 19
            && var n, z := states[|labels|].net, RoundOf(states[0].net, s, labels[0], l);
               Settled(n, s, IdsAt(nets, plain, s, |labels|)) ==>
                 && (ReplyAgrees(z.p, z.q) <==> Recovered(n, s, z))
                 && (!ReplyAgrees(z.p, z.q) <==> Unanswered(n, s, z))
  {
    hide CachedReachable, Reachable, CRight, CNext, Next, Enabled, CanStart, Undisturbed, GoesWrong, Refined,
         RoundOf, Settled, Recovered, Unanswered, ReplyAgrees, Advances;
    CachedIsReachable(states[0]);
    var nets, plain := Nets(states), Plain(states, labels);
    forall i | 0 <= i < |labels| ensures !GoesWrong(states[i], labels[i], false) {
      if i == 0 { StartsPlain(states[0].net, s, labels[0], l); } else { NoConnect(states[i].net, labels[i]); }
      OnlySaves(states[i], labels[i], false);
    }
    RunRefines(states, labels, false);
    StartsPlain(states[0].net, s, labels[0], l);
    SameLabel(states[0], labels[0]);
    forall i | 1 <= i < |labels| ensures Undisturbed(nets[i], plain[i]) { PlainUndisturbed(states[i], labels[i]); }
    RoundEnds(nets, plain, s, l);
  }

  lemma StartsPlain(n: Net, s: Side, a: Label, l: Login)
    requires CanStart(n, s, a, l)
    ensures a.Scan?
  {}

  lemma NoConnect(n: Net, a: Label)
    requires Undisturbed(n, a)
    ensures !a.Connect?
  {}

  lemma SameLabel(c: System, a: Label)
    requires Enabled(c.net, a)
    ensures !a.Transmit? && !a.Receive? ==> Refined(c, a) == a
  {
    hide GoodCandidate, SealsLate, OpensLate;
  }

  lemma PlainUndisturbed(c: System, a: Label)
    requires Enabled(c.net, a) && Undisturbed(c.net, a)
    ensures Undisturbed(c.net, Refined(c, a))
  {
    hide GoodCandidate, SealsLate, OpensLate, DueLogin;
  }

  /** No payload is lost in a session of the program that starts with no old key of its cipher. */
  lemma CachedNoPayloadLost(c: System, cipher: string, states: seq<System>, labels: seq<Label>, s: Side, k: nat)
    requires CachedReachable(c) && Enabled(c.net, Connect(cipher)) && Delivery.Shared(c.net.At(s), c.net.At(Other(s)))
    requires !StaleUnder(c.net.left, c.left, cipher) && !StaleUnder(c.net.right, c.right, cipher)
    requires IsCachedRun(states, labels) && states[0] == CNext(c, Connect(cipher)) && k <= |labels|
    requires forall i :: 0 <= i < |labels| ==> Delivery.InSession(labels[i], s)
    ensures var n, nets, plain := states[k].net, Nets(states), Plain(states, labels);
            && IsRun(nets, plain) && GoodChannel(n.From(s))
            && n.At(Other(s)).extq + Delivery.Carried(Delivery.Items(InFlight(n.From(s)), n.At(s).sendq))
               == Delivery.Accepted(nets, plain, s, k)
  {
    hide CachedReachable, Reachable, CRight, Delivery.Shared, StaleUnder, Delivery.InSession, Refined, Enabled, Next,
         Delivery.Items, CNext;
    CachedIsReachable(c);
    SameLabel(c, Connect(cipher));
    StartsUnder(c, cipher);
    StepRefines(c, Connect(cipher), false);
    forall i | 0 <= i < |labels| ensures !GoesWrong(states[i], labels[i], false) {
      OnlySaves(states[i], labels[i], false);
      SessionGoesOn(labels[i], s);
    }
    RunRefines(states, labels, false);
    var nets, plain := Nets(states), Plain(states, labels);
    forall i | 0 <= i < |labels| ensures Delivery.InSession(plain[i], s) { PlainInSession(states[i], labels[i], s); }
    Delivery.NoPayloadLost(c.net, cipher, nets, plain, s, k);
  }

  lemma StartsUnder(c: System, cipher: string)
    requires !StaleUnder(c.net.left, c.left, cipher) && !StaleUnder(c.net.right, c.right, cipher)
    ensures !GoesWrong(c, Connect(cipher), false)
  {
    hide StaleUnder;
  }

  lemma SessionGoesOn(a: Label, s: Side)
    requires Delivery.InSession(a, s)
    ensures !a.Connect?
  {}

  lemma PlainInSession(c: System, a: Label, s: Side)
    requires Enabled(c.net, a) && Delivery.InSession(a, s)
    ensures Delivery.InSession(Refined(c, a), s)
  {
    hide GoodCandidate, SealsLate, OpensLate;
  }

  // ------------------------------------------------------- runs of the protocol in the program

  /** Between events no thread is late. */
  lemma NeverLate(c: System, a: Label)
    requires CRight(c, false) && Enabled(c.net, a)
    requires a.Transmit? || a.Receive? ==> !a.late && c.net.At(a.side).phase.Idle?
    ensures Refined(c, a) == a
  {
    hide Inv;
    SameLabel(c, a);
    if a.Transmit? || a.Receive? {
      var p := c.net.At(a.side);
      SideInv(c.net, a.side);
      StoredSaved(p);
      RightAt(c, a.side, false);
      IdleSeals(p, c.At(a.side));
    }
  }

  lemma IdleSeals(p: Peer, k: Keys)
    requires KeysRight(p, k, false) && p.disk.to == p.mem.to && p.disk.from == p.mem.from
    ensures forall o :: !SealsLate(p, k, o)
    ensures forall e :: !OpensLate(p, k, e)
  {}

  predicate OnTime(n: Net, a: Label) {
    a.Transmit? || a.Receive? ==> !a.late && n.At(a.side).phase.Idle?
  }

  /** One step of the program along a run of the protocol. */
  lemma FollowsStep(c: System, a: Label)
    requires CRight(c, false) && Enabled(c.net, a) && OnTime(c.net, a) && !a.Connect?
    ensures CNext(c, a).net == Next(c.net, a) && CRight(CNext(c, a), false)
  {
    hide CRight, CNext, Next, Enabled, Refined;
    NeverLate(c, a);
    StepRefines(c, a, false);
  }

  /** The program can follow every run of the protocol within a session, whose threads take their turns between
      events; it is enough that the keys of the session's cipher are right. */
  lemma {:induction false} Follows(c: System, nets: seq<Net>, labels: seq<Label>) returns (states: seq<System>)
    requires CRight(c, false) && IsRun(nets, labels) && nets[0] == c.net
    requires forall i :: 0 <= i < |labels| ==> OnTime(nets[i], labels[i]) && !labels[i].Connect?
    ensures IsCachedRun(states, labels) && states[0] == c && Nets(states) == nets && CRight(states[|labels|], false)
    decreases |labels|
  {
    hide CRight, CNext, Next, Enabled, OnTime;
    if labels == [] {
      states := [c];
      assert Nets(states) == nets;
    } else {
      FollowsStep(c, labels[0]);
      var c1, later, steps := CNext(c, labels[0]), nets[1..], labels[1..];
      RunTail(nets, labels);
      var rest := Follows(c1, later, steps);
      states := [c] + rest;
      Prepended(c, nets, labels, rest);
    }
  }

  lemma RunTail(nets: seq<Net>, labels: seq<Label>)
    requires IsRun(nets, labels) && labels != []
    ensures IsRun(nets[1..], labels[1..])
  {
    hide Enabled, Next;
    forall i | 0 <= i < |labels[1..]|
      ensures Enabled(nets[1..][i], labels[1..][i]) && nets[1..][i + 1] == Next(nets[1..][i], labels[1..][i])
    {
      assert Enabled(nets[i + 1], labels[i + 1]) && nets[i + 1 + 1] == Next(nets[i + 1], labels[i + 1]);
    }
  }

  lemma Prepended(c: System, nets: seq<Net>, labels: seq<Label>, rest: seq<System>)
    requires |nets| == |labels| + 1 >= 2 && nets[0] == c.net && Enabled(c.net, labels[0])
    requires IsCachedRun(rest, labels[1..]) && rest[0] == CNext(c, labels[0]) && Nets(rest) == nets[1..]
    ensures var states := [c] + rest;
            IsCachedRun(states, labels) && Nets(states) == nets && states[|labels|] == rest[|labels| - 1]
  {
    hide Enabled, CNext;
    var states := [c] + rest;
    forall i | 0 <= i < |labels| ensures Enabled(states[i].net, labels[i]) && states[i + 1] == CNext(states[i], labels[i]) {
      if i > 0 { assert states[i] == rest[i - 1] && labels[i] == labels[1..][i - 1] && states[i + 1] == rest[i - 1 + 1]; }
    }
    forall i | 0 <= i < |nets| ensures Nets(states)[i] == nets[i] {
      if i > 0 { assert states[i] == rest[i - 1] && Nets(rest)[i - 1] == nets[1..][i - 1]; }
    }
  }

  /** From every state of the program between events in which no key of the cipher it connects under is an old one: the
      session is opened anew, both sides scan, and the threads go on. Where the answers of the other side can be opened, a
      run of the program ends with the login rotated that side s has found. */
  lemma CachedRecovers(c: System, cipher: string, s: Side, here: int, candidate: Bytes, l: Login, there: int, other: Bytes)
    returns (states: seq<System>, labels: seq<Label>)
    requires CachedReachable(c) && c.net.left.phase.Idle? && c.net.right.phase.Idle?
    requires !StaleUnder(c.net.left, c.left, cipher) && !StaleUnder(c.net.right, c.right, cipher)
    requires Crossing.Finds(c.net, s, here, candidate, l) && GoodCandidate(c.net.At(Other(s)), there, other)
    requires Reconnection.Takes(c.net.At(s), c.net.At(Other(s)), l, candidate, there, other)
    requires Reconnection.AnswerableAfter(c.net.At(s), c.net.At(Other(s)), there)
    ensures ProgramRecovers(c, cipher, s, here, candidate, l, there, other, states, labels)
    ensures CRight(states[|labels|], false)
  {
    hide CachedReachable, Reachable, CRight, StaleUnder, DueLogin, CNext, Next, Enabled, ReplyAgrees, Orderly, GoodCandidate,
         Rotation.Rotated, Reconnection.Takes, Reconnection.AnswerableAfter, Crossing.Finds, Crossing.Disciplined;
    CachedIsReachable(c);
    var nets, steps := Reconnection.ReconnectRecovers(c.net, cipher, s, here, candidate, l, there, other);
    labels := steps;
    ThenOnTime(nets, labels);
    states := Reopened(c, nets, labels, cipher);
    assert Nets(states)[|labels|] == nets[|labels|];
  }

  /** A run of the program that opens the session anew, goes on in it, and ends with the login rotated. */
  predicate ProgramRecovers(c: System, cipher: string, s: Side, here: int, candidate: Bytes, l: Login, there: int,
                            other: Bytes, states: seq<System>, labels: seq<Label>)
  {
    var p, q := c.net.At(s), c.net.At(Other(s));
    && IsCachedRun(states, labels) && states[0] == c && |labels| >= 4 && Crossing.Disciplined(labels)
    && labels[..4] == Reconnection.Opening(cipher, s, here, candidate, there, other)
    && (forall i :: 4 <= i < |labels| ==> Crossing.Within(labels[i])) && l in p.mem.to
    && Rotation.Rotated(states[|labels|].net, p.mem.to, q.mem.from, s, l, WithCandidate(p.mem.to[l], candidate))
  }

  ghost predicate ProgramRecoversSometime(c: System, cipher: string, s: Side, here: int, candidate: Bytes, l: Login,
                                          there: int, other: Bytes)
  {
    exists states: seq<System>, labels: seq<Label> ::
      ProgramRecovers(c, cipher, s, here, candidate, l, there, other, states, labels)
  }

  /** Some run of the program does, exactly when the reply direction agrees at the start or the challenge the other side
      begins can repair it. */
  lemma CachedReconnectIff(c: System, cipher: string, s: Side, here: int, candidate: Bytes, l: Login, there: int,
                           other: Bytes)
    requires CachedReachable(c) && c.net.left.phase.Idle? && c.net.right.phase.Idle?
    requires !StaleUnder(c.net.left, c.left, cipher) && !StaleUnder(c.net.right, c.right, cipher)
    requires Crossing.Finds(c.net, s, here, candidate, l) && GoodCandidate(c.net.At(Other(s)), there, other)
    requires Reconnection.Takes(c.net.At(s), c.net.At(Other(s)), l, candidate, there, other)
    ensures ProgramRecoversSometime(c, cipher, s, here, candidate, l, there, other)
            <==> Reconnection.AnswerableAfter(c.net.At(s), c.net.At(Other(s)), there)
  {
    hide CachedReachable, CRight, StaleUnder, DueLogin, ProgramRecovers, GoodCandidate, Reconnection.Takes,
         Reconnection.AnswerableAfter, Crossing.Finds;
    if Reconnection.AnswerableAfter(c.net.At(s), c.net.At(Other(s)), there) {
      var states, labels := CachedRecovers(c, cipher, s, here, candidate, l, there, other);
      assert ProgramRecovers(c, cipher, s, here, candidate, l, there, other, states, labels);
    } else if ProgramRecoversSometime(c, cipher, s, here, candidate, l, there, other) {
      var states: seq<System>, labels: seq<Label> :|
        ProgramRecovers(c, cipher, s, here, candidate, l, there, other, states, labels);
      ProgramNever(c, cipher, s, here, candidate, l, there, other, states, labels);
    }
  }

  lemma ProgramNever(c: System, cipher: string, s: Side, here: int, candidate: Bytes, l: Login, there: int, other: Bytes,
                     states: seq<System>, labels: seq<Label>)
    requires CachedReachable(c) && c.net.left.phase.Idle? && c.net.right.phase.Idle?
    requires !StaleUnder(c.net.left, c.left, cipher) && !StaleUnder(c.net.right, c.right, cipher)
    requires Crossing.Finds(c.net, s, here, candidate, l) && GoodCandidate(c.net.At(Other(s)), there, other)
    requires !Reconnection.AnswerableAfter(c.net.At(s), c.net.At(Other(s)), there)
    ensures !ProgramRecovers(c, cipher, s, here, candidate, l, there, other, states, labels)
  {
    hide CachedReachable, Reachable, CRight, CNext, StaleUnder, DueLogin, GoodCandidate, Next, Enabled, Refined,
         Rotation.Rotated, Reconnection.AnswerableAfter, Crossing.Finds, Crossing.Disciplined;
    if ProgramRecovers(c, cipher, s, here, candidate, l, there, other, states, labels) {
      CachedIsReachable(c);
      OpeningRight(states, labels, cipher);
      RunRefines(states, labels, false);
      var nets, plain := Nets(states), Plain(states, labels);
      forall i | 0 <= i < |labels| ensures i < 4 ==> plain[i] == labels[i] ensures i >= 4 ==> Crossing.Within(plain[i]) {
        SameLabel(states[i], labels[i]);
        SameKind(states[i], labels[i]);
        if i < 4 { assert labels[i] == labels[..4][i]; }
      }
      assert plain[..4] == labels[..4];
      Reconnection.NeverRecovers(c.net, cipher, s, here, candidate, l, there, other, nets, plain, |labels|);
      Reconnection.StillPending(c.net, s, l, candidate, nets[|labels|]);
    }
  }

  lemma SameKind(c: System, a: Label)
    requires Enabled(c.net, a)
    ensures Crossing.Within(a) ==> Crossing.Within(Refined(c, a))
  {
    hide GoodCandidate, SealsLate, OpensLate;
  }

  /** The only session that a run of this kind opens starts with no old key of its cipher. */
  lemma OpeningRight(states: seq<System>, labels: seq<Label>, cipher: string)
    requires IsCachedRun(states, labels) && |labels| >= 4
    requires labels[..4][0] == Disconnect && labels[..4][1] == Connect(cipher)
    requires labels[..4][2].Scan? && labels[..4][3].Scan?
    requires var c := states[0]; !StaleUnder(c.net.left, c.left, cipher) && !StaleUnder(c.net.right, c.right, cipher)
    requires forall i :: 4 <= i < |labels| ==> Crossing.Within(labels[i])
    ensures forall i :: 0 <= i < |labels| ==> !GoesWrong(states[i], labels[i], false)
  {
    hide CNext, Enabled, GoesWrong;
    FirstLabels(labels, cipher);
    assert states[0 + 1] == CNext(states[0], labels[0]);
    DropKeepsKeys(states[0], cipher);
    forall i | 0 <= i < |labels| ensures !GoesWrong(states[i], labels[i], false) {
      OnlySaves(states[i], labels[i], false);
    }
  }

  lemma DropKeepsKeys(c: System, cipher: string)
    requires !StaleUnder(c.net.left, c.left, cipher) && !StaleUnder(c.net.right, c.right, cipher)
    requires Enabled(c.net, Disconnect)
    ensures !GoesWrong(CNext(c, Disconnect), Connect(cipher), false)
  {}

  lemma ThenOnTime(nets: seq<Net>, labels: seq<Label>)
    requires |nets| == |labels| + 1 >= 5 && labels[..4][2].Scan? && labels[..4][3].Scan?
    requires forall i :: 4 <= i < |labels| ==> Orderly(nets[i], labels[i])
    ensures forall i :: 2 <= i < |labels| ==> OnTime(nets[i], labels[i]) && Crossing.Within(labels[i])
  {
    hide Orderly;
    assert labels[2] == labels[..4][2] && labels[3] == labels[..4][3];
    forall i | 2 <= i < |labels| ensures OnTime(nets[i], labels[i]) && Crossing.Within(labels[i]) {
      if i >= 4 { OrderlyThread(nets[i], labels[i]); }
    }
  }

  /** The program follows a run that opens a session anew under a cipher with no old key. */
  lemma Reopened(c: System, nets: seq<Net>, labels: seq<Label>, cipher: string) returns (states: seq<System>)
    requires CRight(c, false) && !StaleUnder(c.net.left, c.left, cipher) && !StaleUnder(c.net.right, c.right, cipher)
    requires IsRun(nets, labels) && nets[0] == c.net && |labels| >= 2 && labels[..2] == [Disconnect, Connect(cipher)]
    requires forall i :: 2 <= i < |labels| ==> OnTime(nets[i], labels[i]) && !labels[i].Connect?
    ensures IsCachedRun(states, labels) && states[0] == c && Nets(states) == nets && CRight(states[|labels|], false)
  {
    hide CRight, StaleUnder, CNext, Next, Enabled, OnTime;
    var c1, c2 := Opens(c, nets, labels, cipher);
    RunTail(nets, labels);
    RunTail(nets[1..], labels[1..]);
    assert labels[1..][0] == labels[1];
    var later, more := nets[1..][1..], labels[1..][1..];
    forall i | 0 <= i < |more| ensures OnTime(later[i], more[i]) && !more[i].Connect? {
      assert later[i] == nets[i + 2] && more[i] == labels[i + 2];
    }
    var rest := Follows(c2, later, more);
    Prepended(c1, nets[1..], labels[1..], rest);
    Prepended(c, nets, labels, [c1] + rest);
    states := [c] + ([c1] + rest);
  }

  lemma OrderlyThread(n: Net, a: Label)
    requires Orderly(n, a)
    ensures OnTime(n, a) && Crossing.Within(a)
  {}

  /** The first two steps: the old session is dropped and the new one opened, with the keys as they are. */
  lemma Opens(c: System, nets: seq<Net>, labels: seq<Label>, cipher: string) returns (c1: System, c2: System)
    requires CRight(c, false) && !StaleUnder(c.net.left, c.left, cipher) && !StaleUnder(c.net.right, c.right, cipher)
    requires IsRun(nets, labels) && nets[0] == c.net && |labels| >= 2
    requires labels[..2] == [Disconnect, Connect(cipher)]
    ensures Enabled(c.net, labels[0]) && c1 == CNext(c, labels[0])
    ensures Enabled(c1.net, labels[1]) && c2 == CNext(c1, labels[1])
    ensures c1.net == nets[1] && c2.net == nets[2] && CRight(c2, false)
  {
    hide CRight;
    assert labels[0] == labels[..2][0] && labels[1] == labels[..2][1];
    assert nets[0 + 1] == Next(nets[0], labels[0]) && nets[1 + 1] == Next(nets[1], labels[1]);
    c1 := CNext(c, Disconnect);
    StepRefines(c, Disconnect, false);
    c2 := CNext(c1, Connect(cipher));
    StepRefines(c1, Connect(cipher), false);
  }

  // ------------------------------------------------------------------------ two ciphers

  /** Every state the program reaches, whatever ciphers it uses. */
  ghost predicate ProgramReachable(c: System) {
    exists states: seq<System>, labels: seq<Label> ::
      IsCachedRun(states, labels) && CachedInitial(states[0]) && states[|labels|] == c
  }

  lemma ProgramStep(c: System, a: Label)
    requires ProgramReachable(c) && Enabled(c.net, a)
    ensures ProgramReachable(CNext(c, a))
  {
    hide Enabled, CNext, CachedInitial;
    var states: seq<System>, labels: seq<Label> :|
      IsCachedRun(states, labels) && CachedInitial(states[0]) && states[|labels|] == c;
    var states', labels' := states + [CNext(c, a)], labels + [a];
    assert IsCachedRun(states', labels') && states'[0] == states[0] && states'[|labels'|] == CNext(c, a);
  }

  lemma {:induction false} ProgramRun(states: seq<System>, labels: seq<Label>, k: nat)
    requires IsCachedRun(states, labels) && ProgramReachable(states[0]) && k <= |labels|
    ensures ProgramReachable(states[k])
  {
    hide Enabled, CNext, ProgramReachable;
    if k > 0 {
      ProgramRun(states, labels, k - 1);
      ProgramStep(states[k - 1], labels[k - 1]);
      assert states[k - 1 + 1] == CNext(states[k - 1], labels[k - 1]);
    }
  }

  /** The left process has the key for a cipher cached with the TO entry of login l. */
  predicate HasKey(c: System, l: Login, cipher: string, key: Key) {
    l in c.left.to && cipher in c.left.to[l] && c.left.to[l][cipher] == key
  }

  /** A session leaves the keys of other ciphers alone. */
  lemma StepKeepsKey(c: System, a: Label, l: Login, cipher: string, key: Key)
    requires Enabled(c.net, a) && HasKey(c, l, cipher, key)
    requires !a.Crash? && (Crossing.Within(a) ==> c.net.left.cipher != cipher)
    ensures HasKey(CNext(c, a), l, cipher, key)
  {
    hide Next, CanEmit, EmitWithCache, ReceiveWithCache, SealLogin, GoodCandidate, CanSave;
  }

  lemma {:induction false} RunKeepsKey(states: seq<System>, labels: seq<Label>, k: nat, l: Login, cipher: string,
                                       key: Key)
    requires IsCachedRun(states, labels) && |labels| >= 2 && HasKey(states[0], l, cipher, key) && 2 <= k <= |labels|
    requires labels[0] == Disconnect && labels[1].Connect? && labels[1].cipher != cipher
    requires forall i :: 2 <= i < |labels| ==> Crossing.Within(labels[i])
    ensures HasKey(states[k], l, cipher, key) && states[k].net.left.cipher == labels[1].cipher
  {
    hide CNext, Enabled, HasKey;
    assert states[k - 1 + 1] == CNext(states[k - 1], labels[k - 1]);
    if k == 2 {
      assert states[0 + 1] == CNext(states[0], labels[0]);
      StepKeepsKey(states[0], labels[0], l, cipher, key);
      StepKeepsKey(states[1], labels[1], l, cipher, key);
      ConnectCipher(states[1], labels[1]);
    } else {
      RunKeepsKey(states, labels, k - 1, l, cipher, key);
      StepKeepsKey(states[k - 1], labels[k - 1], l, cipher, key);
      SideCipher(states[k - 1], labels[k - 1]);
      assert CNext(states[k - 1], labels[k - 1]).net.At(Left).cipher == states[k - 1].net.At(Left).cipher;
    }
  }

  lemma ConnectCipher(c: System, a: Label)
    requires Enabled(c.net, a) && a.Connect?
    ensures CNext(c, a).net.left.cipher == a.cipher
  {}

  /** A state of the program in which the left side's next challenge goes under an old key. */
  predicate OldKey(c: System, l: Login, now: Bytes, before: Bytes) {
    var p, q := c.net.left, c.net.right;
    && !p.stopped && !q.stopped && p.phase.Idle? && !Active(p.ctx) && p.sendq == [] && c.net.fromLeft == EMPTY
    && Matched(p, q) && p.mem.order != [] && (forall k :: k in p.mem.order ==> k == l)
    && l in p.mem.to && !p.mem.to[l].pending && p.mem.to[l].pwd == now
    && l in q.mem.from && q.mem.from[l].pwd == now && c.right == NO_KEYS
    && HasKey(c, l, p.cipher, KeyFor(ToOwner(p, l), p.cipher, before))
  }

  lemma {:induction false} DueAlone(order: seq<Login>, to: map<Login, Auth>, time: int, l: Login)
    requires order != [] && (forall k :: k in order ==> k == l) && l in to && Due(to[l], time)
    ensures DueLogin(order, to, time) == Some(l)
  {
    assert order[0] in order;
  }

  /** The challenge is saved and about to be sealed. */
  predicate SealsOld(c: System, l: Login, now: Bytes, before: Bytes, candidate: Bytes) {
    var p, q := c.net.left, c.net.right;
    && !p.stopped && p.phase == Stored(l) && p.sendq == [] && c.net.fromLeft == EMPTY && Matched(p, q)
    && l in p.mem.to && p.mem.to[l].pending && p.mem.to[l].pwd == now && p.mem.to[l].newPwd == candidate
    && l in q.mem.from && q.mem.from[l].pwd == now && c.right == NO_KEYS
    && HasKey(c, l, p.cipher, KeyFor(ToOwner(p, l), p.cipher, before))
  }

  /** Both ends hold the same password, and neither element of the challenge opens. */
  lemma NothingOpensUnderOldKey(c: System, l: Login, now: Bytes, before: Bytes, candidate: Bytes) returns (m: System)
    requires ProgramReachable(c) && OldKey(c, l, now, before)
    requires before != now && candidate != now && |candidate| == |now|
    ensures ProgramReachable(m) && ClosedAlthoughEqual(m, l)
  {
    hide ProgramReachable, OldKey, SealsOld, ClosedAlthoughEqual;
    var d := PreparesUnderOldKey(c, l, now, before, candidate);
    m := LeavesUnderOldKey(d, l, now, before, candidate);
  }

  lemma PreparesUnderOldKey(c: System, l: Login, now: Bytes, before: Bytes, candidate: Bytes) returns (m: System)
    requires ProgramReachable(c) && OldKey(c, l, now, before) && |candidate| == |now|
    ensures ProgramReachable(m) && SealsOld(m, l, now, before, candidate)
  {
    hide ProgramReachable, DueLogin, Derive;
    var p := c.net.left;
    var a := Scan(Left, p.mem.to[l].stamp + TRIGGER_SECONDS + 1, candidate);
    DueAlone(p.mem.order, p.mem.to, a.now, l);
    ProgramStep(c, a);
    var c1 := CNext(c, a);
    ProgramStep(c1, Label.Save(Left));
    m := CNext(c1, Label.Save(Left));
  }

  lemma LeavesUnderOldKey(c: System, l: Login, now: Bytes, before: Bytes, candidate: Bytes) returns (m: System)
    requires ProgramReachable(c) && SealsOld(c, l, now, before, candidate) && before != now && candidate != now
    ensures ProgramReachable(m) && ClosedAlthoughEqual(m, l)
  {
    hide ProgramReachable, Base64.Encode, Derive;
    var p, q := c.net.left, c.net.right;
    ProgramStep(c, Emit(Left));
    var c1 := CNext(c, Emit(Left));
    ProgramStep(c1, Transmit(Left, false));
    m := CNext(c1, Transmit(Left, false));
    var e := c1.net.left.sendq[0].envelope;
    assert InFlight(m.net.fromLeft) == [e];
    OpenedTwo(e.data, KeyTaken(m, Right, l));
    KeysAgree(p.cipher, p.me, q.me, l, before, now);
    KeysAgree(p.cipher, p.me, q.me, l, candidate, now);
  }

  /** The left side's challenge is on the wire, the other side has the very password it rotates, and opens nothing. */
  predicate ClosedAlthoughEqual(c: System, l: Login) {
    var p, q := c.net.left, c.net.right;
    && Live(p) && LiveLogin(p) == l && l in q.mem.from && q.mem.from[l].pwd == p.mem.to[l].pwd
    && GoodChannel(c.net.fromLeft) && |InFlight(c.net.fromLeft)| == 1
    && var e := InFlight(c.net.fromLeft)[0];
       && e.login == l && |e.data| == 2 && e.data[0].body.ChangePwdRequest? && e.data[1].body == Ping(p.ctx.value.mIdPing)
       && Opened(e.data, KeyTaken(c, Right, l)) == []
  }

  /** A first session in which the left side announces AllClear, and so caches a key, and is then cut. */
  lemma CachesKey(x: SiteId, y: SiteId, l: Login, pwd: Bytes, first: string) returns (c: System)
    requires GoodLength(pwd)
    ensures CachedReachable(c) && ProgramReachable(c)
    ensures HasKey(c, l, first, KeyFor(Owner(Encrypt, x, l, y), first, pwd))
    ensures c.left.to == map[l := map[first := KeyFor(Owner(Encrypt, x, l, y), first, pwd)]] && c.left.from == map[]
    ensures c.right == NO_KEYS && c.net.left.phase.Idle? && c.net.right.phase.Idle?
    ensures c.net.left.me == c.net.right.remote == x && c.net.left.remote == c.net.right.me == y
    ensures var initial := Stale.OneLogin(x, y, l, pwd); c.net.left.mem == c.net.right.mem == initial.mem
  {
    hide Initial, Derive;
    var n := Stale.TwoPeers(x, y, l, pwd);
    OneLoginInitial(x, y, l, pwd);
    var c0 := System(n, NO_KEYS, NO_KEYS);
    var a1, a2, a3 := Connect(first), Scan(Left, 0, []), Transmit(Left, false);
    var c1 := CNext(c0, a1);
    NothingDueYet(c1.net.left, l);
    var c2 := CNext(c1, a2);
    c := CNext(c2, a3);
    var states, labels := [c0, c1, c2, c], [a1, a2, a3];
    assert IsCachedRun(states, labels) && CachedInitial(states[0]) && states[|labels|] == c;
    forall i | 0 <= i < |labels| ensures !GoesWrong(states[i], labels[i], false) {}
  }

  lemma NothingDueYet(p: Peer, l: Login)
    requires p.mem.order == [l] && l in p.mem.to && !p.mem.to[l].pending && p.mem.to[l].stamp == 0
    ensures DueLogin(p.mem.order, p.mem.to, 0).None?
  {
    assert p.mem.order[1..] == [];
  }

  lemma OneLoginInitial(x: SiteId, y: SiteId, l: Login, pwd: Bytes)
    requires GoodLength(pwd)
    ensures Initial(Stale.TwoPeers(x, y, l, pwd))
  {
    var n := Stale.TwoPeers(x, y, l, pwd);
    assert forall s :: InitialPeer(n.At(s)) && SamePasswords(n.At(s), n.At(Other(s)));
  }

  /** A session under another cipher rotates the login; the right side restarts, and the first cipher comes back. */
  lemma RotatesUnderSecond(c: System, x: SiteId, y: SiteId, l: Login, pwd: Bytes, next: Bytes, first: string,
                           second: string)
    returns (m: System)
    requires CachedReachable(c) && ProgramReachable(c) && first != second && |next| == |pwd| && next != pwd
    requires c.left.to == map[l := map[first := KeyFor(Owner(Encrypt, x, l, y), first, pwd)]] && c.left.from == map[]
    requires c.right == NO_KEYS && c.net.left.phase.Idle? && c.net.right.phase.Idle?
    requires c.net.left.me == x && c.net.left.remote == y
    requires c.net.left.mem == c.net.right.mem == Stale.OneLogin(x, y, l, pwd).mem
    ensures ProgramReachable(m) && OldKey(m, l, next, pwd)
  {
    hide CachedReachable, ProgramReachable, CRight, CNext, Enabled, Rotation.Rotated, Reconnection.Takes, Crossing.Finds,
         Crossing.Disciplined, Reconnection.AnswerableAfter, HasKey, Derive, GoodCandidate;
    var key := KeyFor(Owner(Encrypt, x, l, y), first, pwd);
    OnlyFirst(c, x, y, l, pwd, next, first, second);
    var states, labels := CachedRecovers(c, second, Left, TRIGGER_SECONDS + 1, next, l, 0, []);
    ProgramRun(states, labels, |labels|);
    FirstLabels(labels, second);
    forall i | 2 <= i < |labels| ensures Crossing.Within(labels[i]) {}
    RunKeepsKey(states, labels, |labels|, l, first, key);
    RunKeepsSites(states, labels, |labels|);
    AfterRotation(states[|labels|].net, l, pwd, next);
    m := BackToFirst(states[|labels|], x, y, l, pwd, next, first);
  }

  lemma OnlyFirst(c: System, x: SiteId, y: SiteId, l: Login, pwd: Bytes, next: Bytes, first: string, second: string)
    requires c.left.to == map[l := map[first := KeyFor(Owner(Encrypt, x, l, y), first, pwd)]] && c.left.from == map[]
    requires c.right == NO_KEYS && first != second && |next| == |pwd|
    requires c.net.left.mem == c.net.right.mem == Stale.OneLogin(x, y, l, pwd).mem
    ensures !StaleUnder(c.net.left, c.left, second) && !StaleUnder(c.net.right, c.right, second)
    ensures HasKey(c, l, first, KeyFor(Owner(Encrypt, x, l, y), first, pwd))
    ensures var p := c.net.left;
            && Crossing.Finds(c.net, Left, TRIGGER_SECONDS + 1, next, l) && GoodCandidate(c.net.right, 0, [])
            && Reconnection.Takes(p, c.net.right, l, next, 0, []) && Reconnection.AnswerableAfter(p, c.net.right, 0)
  {
    hide Derive;
    assert [l][1..] == [];
  }

  lemma StepKeepsSites(c: System, a: Label)
    requires Enabled(c.net, a)
    ensures CNext(c, a).net.left.me == c.net.left.me && CNext(c, a).net.left.remote == c.net.left.remote
  {
    hide Peers.Process, DueLogin, SendLogin, ChallengeEnvelope, Opened, Internal, External, KeysAfterTransmit,
         KeysAfterReceive, KeysAfterEmit, KeysAfterSave, GoodCandidate, Load, Credentials.Save;
    if a.Process? { ProcessChanges(c.net.At(a.side), a.now); }
  }

  lemma {:induction false} RunKeepsSites(states: seq<System>, labels: seq<Label>, k: nat)
    requires IsCachedRun(states, labels) && k <= |labels|
    ensures states[k].net.left.me == states[0].net.left.me && states[k].net.left.remote == states[0].net.left.remote
  {
    hide CNext, Enabled;
    if k > 0 {
      RunKeepsSites(states, labels, k - 1);
      StepKeepsSites(states[k - 1], labels[k - 1]);
      assert states[k - 1 + 1] == CNext(states[k - 1], labels[k - 1]);
    }
  }

  /** What the rotation of the only login has left behind. */
  lemma AfterRotation(m: Net, l: Login, pwd: Bytes, next: Bytes)
    requires Rotation.Rotated(m, map[l := Auth(pwd, [], false, 0)], map[l := Auth(pwd, [], false, 0)], Left, l,
                              Auth(pwd, next, true, 0))
    ensures m.left.mem.to.Keys == {l} && !m.left.mem.to[l].pending && m.left.mem.to[l].pwd == next
    ensures l in m.right.disk.from && m.right.disk.from[l].pwd == next && m.left.phase.Idle?
  {}

  lemma FirstLabels(labels: seq<Label>, cipher: string)
    requires |labels| >= 4 && labels[..4][0] == Disconnect && labels[..4][1] == Connect(cipher)
    requires labels[..4][2].Scan? && labels[..4][3].Scan?
    ensures labels[0] == Disconnect && labels[1] == Connect(cipher) && labels[2].Scan? && labels[3].Scan?
  {}

  /** After the rotation the right side restarts and the two connect under the first cipher again. */
  lemma BackToFirst(c: System, x: SiteId, y: SiteId, l: Login, pwd: Bytes, next: Bytes,
                    first: string) returns (m: System)
    requires ProgramReachable(c) && CRight(c, false) && c.net.left.phase.Idle?
    requires c.net.left.me == x && c.net.left.remote == y
    requires HasKey(c, l, first, KeyFor(Owner(Encrypt, x, l, y), first, pwd))
    requires c.net.left.mem.to.Keys == {l} && !c.net.left.mem.to[l].pending && c.net.left.mem.to[l].pwd == next
    requires l in c.net.right.disk.from && c.net.right.disk.from[l].pwd == next
    ensures ProgramReachable(m) && OldKey(m, l, next, pwd)
  {
    hide ProgramReachable, Inv, Load, Credentials.Save, Derive;
    SideInv(c.net, Left);
    DiskRestored(c.net, Right);
    InvSites(c.net);
    ProgramStep(c, Crash(Right));
    var c1 := CNext(c, Crash(Right));
    ProgramStep(c1, Connect(first));
    m := CNext(c1, Connect(first));
    assert forall k :: k in m.net.left.mem.order ==> k == l;
  }

  lemma InvSites(n: Net)
    requires Inv(n)
    ensures n.left.me == n.right.remote && n.right.me == n.left.remote
    ensures forall k :: k in n.left.mem.order <==> k in n.left.mem.to
  {}

  /** Two ciphers lose a login: a key cached under the first, a rotation under the second, and back under the first the
      two ends hold the same password while nothing of any challenge opens. The reachable state is the outcome of a run
      in which the answering side restarts once. */
  lemma SecondCipherLoses(x: SiteId, y: SiteId, l: Login, pwd: Bytes, next: Bytes, candidate: Bytes, first: string,
                          second: string) returns (m: System)
    requires GoodLength(pwd) && |next| == |candidate| == |pwd| && next != pwd && candidate != next && first != second
    ensures ProgramReachable(m) && ClosedAlthoughEqual(m, l)
  {
    hide ProgramReachable, CachedReachable, OldKey, ClosedAlthoughEqual;
    var c := CachesKey(x, y, l, pwd, first);
    var d := RotatesUnderSecond(c, x, y, l, pwd, next, first, second);
    m := NothingOpensUnderOldKey(d, l, next, pwd, candidate);
  }
}
