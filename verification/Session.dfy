/** One session object of src/cyber/cyber.c together with the credentials of src/auth/auth.c it works on:
    the methods update the fields in place, one method per function of the source, and each states its
    whole effect as the effect of the value-level actions of module Peers. */
module Session {
  import opened Basics
  import opened Wire
  import opened Credentials
  import opened Peers
  import opened Network
  import Base64
  import Choices

  /** The characters auth_gen_new_pwd draws, one per octet of the password it may replace. */
  function Printable(random: nat -> nat, len: nat): Bytes {
    seq(len, i requires 0 <= i < len => random(i) % 95 + 32)
  }

  /** Every character drawn is one of the 95 printable ones of ASCII, from the space to the tilde, and every text of these
      can be drawn. */
  lemma DrawsPrintable(random: nat -> nat, x: Bytes)
    ensures |Printable(random, |x|)| == |x| && forall i :: 0 <= i < |x| ==> 32 <= Printable(random, |x|)[i] <= 126
    ensures (forall i :: 0 <= i < |x| ==> 32 <= x[i] <= 126) ==>
              Printable((i: nat) => if i < |x| && x[i] >= 32 then x[i] - 32 else 0, |x|) == x
  {}

  /** The candidate a scan would draw for the login it selects. */
  function Drawn(p: Peer, now: int, random: nat -> nat): Bytes {
    match DueLogin(p.mem.order, p.mem.to, now)
    case None => []
    case Some(l) => Printable(random, |p.mem.to[l].pwd|)
  }

  /** The whole of initiateChallenge. */
  function Challenge(p: Peer, now: int, random: nat -> nat, m1: nat, m2: nat): Peer
    requires p.phase.Idle?
  {
    var q := Begin(p, now, Drawn(p, now, random));
    if q.phase.Generated? then EmitStep(SaveStep(q), m1, m2) else q
  }

  /** A refusal of the challenge that is running. */
  predicate Refused(p: Peer, body: Message) {
    p.ctx.Some? && p.ctx.value.running && body == ChangePwdResponse(p.ctx.value.mIdRequest, false)
  }

  /** A received password is saved before its answer is queued. */
  function Answered(p: Peer): Peer {
    if p.phase.Installed? then EmitStep(SaveStep(p), 0, 0) else p
  }

  /** A switched password is saved before the next scan. */
  function Completed(p: Peer, now: int, random: nat -> nat, m1: nat, m2: nat): Peer {
    if p.phase.Switched? then Challenge(SaveStep(p), now, random, m1, m2) else p
  }

  /** The whole of cyber_process_internal_msg on the first opened message. */
  function InternalEvent(p: Peer, now: int, random: nat -> nat, m1: nat, m2: nat): Peer
    requires p.inq != [] && p.phase.Idle?
  {
    var q, x := p.(inq := p.inq[1..]), p.inq[0];
    match x.body
    case ChangePwdRequest(m, text) => Answered(OnRequest(q, x.login, m, text, now))
    case ChangePwdResponse(o, status) =>
      if Refused(q, x.body) then Challenge(OnResponse(q, o, status, now), now, random, m1, m2)
      else Completed(OnResponse(q, o, status, now), now, random, m1, m2)
    case Pong(o) => Completed(OnPong(q, o, now), now, random, m1, m2)
    case _ => Handle(q, x.login, x.body, now)
  }

  /** A response to another challenge, or without one, changes nothing. */
  lemma ResponseIgnored(p: Peer, o: nat, status: bool, now: int)
    requires p.ctx.None? || !p.ctx.value.running || o != p.ctx.value.mIdRequest
    ensures OnResponse(p, o, status, now) == p && !Refused(p, ChangePwdResponse(o, status))
  {}

  /** The matching one refuses, or switches, or finds no candidate to switch to. */
  lemma ResponseTaken(p: Peer, status: bool, now: int)
    requires p.phase.Idle? && p.ctx.Some? && p.ctx.value.running && p.ctx.value.auth.Some?
    ensures var o, l := p.ctx.value.mIdRequest, p.ctx.value.auth.value;
            var p' := OnResponse(p, o, status, now);
            && (Refused(p, ChangePwdResponse(o, status)) <==> !status)
            && (!status ==> p' == p.(ctx := Some(p.ctx.value.(timer := false, running := false))))
            && (status && !Pending(p.mem.to, l) ==> p' == p.(ctx := Some(p.ctx.value.(timer := false))))
            && (status && Pending(p.mem.to, l) ==>
                  var store := p.mem.(to := p.mem.to[l := AfterSwitch(p.mem.to[l], now)]);
                  && p'.phase.Switched?
                  && SaveStep(p') == p.(mem := store, disk := store,
                                        ctx := Some(p.ctx.value.(timer := false, running := false))))
  {}

  lemma RequestIgnored(p: Peer, l: Login, m: nat, text: string, now: int)
    requires p.phase.Idle? && !GuardAccepts(text)
    ensures Answered(OnRequest(p, l, m, text, now)) == p
  {
    hide GuardAccepts;
  }

  /** A request that passes the guard is answered, and installed and saved unless it is refused. */
  lemma RequestAnswered(p: Peer, l: Login, m: nat, text: string, now: int)
    requires p.phase.Idle? && GuardAccepts(text) && l in p.mem.from
    ensures var p' := Answered(OnRequest(p, l, m, text, now));
            if Busy(p) || Base64.Decode(text).None?
            then p' == p.(sendq := p.sendq + [ToSeal(None, ChangePwdResponse(m, false))])
            else var store := p.mem.(from := p.mem.from[l := WithPassword(p.mem.from[l], Base64.Decode(text).value, now)]);
                 p' == p.(mem := store, disk := store, sendq := p.sendq + [ToSeal(None, ChangePwdResponse(m, true))])
  {
    hide Busy, Base64.Decode, GuardAccepts;
  }

  lemma Sorted(login: Login, list: seq<Message>, i: nat)
    requires i < |list|
    ensures list[0..] == list
    ensures Internal(login, list[i..])
            == (if list[i].Application? then [] else [Incoming(login, list[i])]) + Internal(login, list[i + 1..])
    ensures External(list[i..]) == (if list[i].Application? then [list[i].payload] else []) + External(list[i + 1..])
  {
    assert list[i..][1..] == list[i + 1..];
  }

  lemma SortedEnd(login: Login, list: seq<Message>)
    ensures list[0..] == list && Internal(login, list[|list|..]) == [] && External(list[|list|..]) == []
  {}

  lemma NextDue(order: seq<Login>, to: map<Login, Auth>, now: int, i: nat)
    requires i < |order|
    ensures DueLogin(order[i..], to, now)
            == if order[i] in to && Due(to[order[i]], now) then Some(order[i]) else DueLogin(order[i + 1..], to, now)
  {
    hide Due;
    assert order[i..][1..] == order[i + 1..];
  }

  lemma NoneDue(order: seq<Login>, to: map<Login, Auth>, now: int)
    ensures DueLogin(order[|order|..], to, now) == None
  {}

  class Session {
    const me: SiteId
    const remote: SiteId
    var cipher: string
    var order: seq<Login>
    var to: map<Login, Auth>
    var from: map<Login, Auth>
    var db: Store
    var ctx: Option<Context>
    var allClearSent: bool
    var allClearRxed: bool
    var stop: bool
    var sendq: seq<Outgoing>
    var internalq: seq<Incoming>
    var externalq: seq<Bytes>

    /** Every listed login has its entry, a context without a login is a new one, and an opened message
        names a login that opened it. */
    ghost predicate Valid()
      reads this
    {
      && (forall l :: l in order <==> l in to)
      && (ctx.Some? ==> if ctx.value.auth.Some? then ctx.value.auth.value in to else ctx.value == NEW_CONTEXT)
      && (forall x :: x in internalq ==> x.login in from)
    }

    ghost function View(): Peer
      reads this
    {
      Peer(me, remote, cipher, Store(order, to, from), db, ctx, allClearSent, allClearRxed, stop,
           sendq, internalq, externalq, Idle)
    }

    /** cyber_new, with the credentials of the process. */
    constructor (me: SiteId, remote: SiteId, cipher: string, store: Store)
      requires forall l :: l in store.order <==> l in store.to
      ensures Valid()
      ensures forall p: Peer ::
                p.me == me && p.remote == remote && p.mem == store && p.disk == store && p.phase.Idle? ==>
                  View() == Start(p, cipher)
    {
      this.me, this.remote, this.cipher := me, remote, cipher;
      order, to, from, db := store.order, store.to, store.from, store;
      ctx, allClearSent, allClearRxed, stop := Some(NEW_CONTEXT), false, false, false;
      sendq, internalq, externalq := [], [], [];
    }

    // ------------------------------------------------------------------- auth.c

    /** auth_gen_new_pwd: nothing while a candidate is pending. */
    method GenerateCandidate(l: Login, random: nat -> nat)
      requires l in to
      modifies this`to
      ensures to == if old(to[l].pending) then old(to)
                    else old(to)[l := old(to[l]).(newPwd := Printable(random, |old(to[l]).pwd|))]
    {
      if to[l].pending { return; }
      var len := |to[l].pwd|;
      var buf := new Byte[len];
      var i := 0;
      while i < len
        invariant 0 <= i <= len && to == old(to)
        invariant buf[..i] == Printable(random, len)[..i]
      {
        buf[i] := random(i) % 95 + 32;
        i := i + 1;
      }
      assert buf[..] == buf[..len] == Printable(random, len);
      to := to[l := to[l].(newPwd := buf[..])];
    }

    method SaveDatabase()
      modifies this`db
      ensures db == Store(order, to, from)
    {
      db := Store(order, to, from);
    }

    /** auth_get_new_pwd_b64. */
    method NewPwdB64(l: Login, random: nat -> nat) returns (text: string)
      requires l in to
      modifies this`to, this`db
      ensures to == old(to)[l := WithCandidate(old(to[l]), Printable(random, |old(to[l]).pwd|))]
      ensures db == Store(order, to, from) && text == Base64.Encode(to[l].newPwd)
    {
      if !to[l].pending {
        GenerateCandidate(l, random);
        to := to[l := to[l].(pending := true)];
      }
      text := Base64.Encode(to[l].newPwd);
      SaveDatabase();
      assert to == old(to)[l := to[l]];
    }

    /** auth_set_pwd_b64: a text that does not decode changes nothing. */
    method SetPwdB64(l: Login, text: string, now: int) returns (ok: bool)
      requires l in from
      modifies this`from, this`db
      ensures ok == Base64.Decode(text).Some?
      ensures if ok then from == old(from)[l := WithPassword(old(from[l]), Base64.Decode(text).value, now)]
                         && db == Store(order, to, from)
              else from == old(from) && db == old(db)
    {
      var pwd := Base64.Decode(text);
      if pwd.None? { return false; }
      from := from[l := from[l].(pwd := pwd.value)];
      from := from[l := from[l].(stamp := now)];
      SaveDatabase();
      return true;
    }

    /** auth_switch_to_new_pwd, with auth_forget_new_pwd. */
    method SwitchToNewPwd(l: Login, now: int) returns (ok: bool)
      requires l in to
      modifies this`to, this`db
      ensures ok == old(to[l].pending)
      ensures if ok then to == old(to)[l := AfterSwitch(old(to[l]), now)] && db == Store(order, to, from)
              else to == old(to) && db == old(db)
    {
      if !to[l].pending { return false; }
      to := to[l := to[l].(pwd := to[l].newPwd, stamp := now)];
      ForgetNewPwd(l);
      SaveDatabase();
      return true;
    }

    method ForgetNewPwd(l: Login)
      requires l in to
      modifies this`to
      ensures to == old(to)[l := old(to[l]).(newPwd := [], pending := false)]
    {
      to := to[l := to[l].(newPwd := [], pending := false)];
    }

    // --------------------------------------------------------------- challenges

    /** auth_to_foreach with searchLoginForChallenge: the first login that is due enters the context; a
        finished context is dropped on the way, and the walk ends at the entry after the one found. */
    method SearchLogin(now: int)
      requires Valid() && !Active(ctx)
      modifies this`ctx
      ensures Valid()
      ensures ctx == match DueLogin(order, to, now)
                     case Some(l) => Some(NEW_CONTEXT.(auth := Some(l), toSend := true))
                     case None => ScannedContext(old(View()))
    {
      hide Due, DueLogin;
      var i := 0;
      ghost var first, was := DueLogin(order, to, now), ctx;
      ghost var dropped := if was.Some? && was.value.auth.Some? then None else was;
      assert order[0..] == order;
      while i < |order|
        invariant 0 <= i <= |order| && Valid()
        invariant if Active(ctx) then first.Some? && ctx == Some(NEW_CONTEXT.(auth := first, toSend := true))
                  else first == DueLogin(order[i..], to, now)
                       && ctx == if i == 0 then was else dropped
      {
        var l := order[i];
        NextDue(order, to, now, i);
        if ctx.Some? && ctx.value.auth.Some? && (ctx.value.running || ctx.value.toSend) { break; }
        if ctx.Some? && ctx.value.auth.Some? { ctx := None; }
        if Due(to[l], now) {
          if ctx.None? { ctx := Some(NEW_CONTEXT); }
          ctx := Some(ctx.value.(auth := Some(l), toSend := true));
        }
        i := i + 1;
      }
      NoneDue(order, to, now);
    }

    /** Between events no challenge is waiting to be sent. */
    ghost predicate Rested()
      reads this
    {
      Valid() && (ctx.Some? ==> !ctx.value.toSend)
    }

    /** Challenge_encode: the candidate is saved before either element is sealed. */
    method EncodeChallenge(random: nat -> nat, m1: nat, m2: nat) returns (e: Envelope)
      requires Valid() && ctx.Some? && ctx.value.auth.Some? && !ctx.value.running
      modifies this`to, this`db, this`ctx
      ensures Valid()
      ensures var l := old(ctx).value.auth.value;
              && to == old(to)[l := WithCandidate(old(to[l]), Printable(random, |old(to[l]).pwd|))]
              && db == Store(order, to, from)
              && ctx == Some(old(ctx).value.(running := true, mIdRequest := m1, mIdPing := m2))
              && e == ChallengeEnvelope(View(), l, to[l], m1, m2)
    {
      var l := ctx.value.auth.value;
      var text := NewPwdB64(l, random);
      ctx := Some(ctx.value.(mIdRequest := m1));
      var request := Sealed(Derive(cipher, Encrypt, me, l, remote, to[l].pwd), ChangePwdRequest(m1, text));
      ctx := Some(ctx.value.(mIdPing := m2));
      var ping := Sealed(Derive(cipher, Encrypt, me, l, remote, to[l].newPwd), Ping(m2));
      ctx := Some(ctx.value.(running := true));
      e := Envelope(l, [request, ping]);
    }

    method SendMessage(body: Message)
      modifies this`sendq
      ensures sendq == old(sendq) + [ToSeal(None, body)]
    {
      sendq := sendq + [ToSeal(None, body)];
    }

    method SendAllClear()
      modifies this`sendq, this`allClearSent
      ensures sendq == old(sendq) + [ToSeal(None, AllClear)] && allClearSent
    {
      SendMessage(AllClear);
      allClearSent := true;
    }

    method StopTimer()
      modifies this`ctx
      ensures ctx == if old(ctx).Some? then Some(old(ctx).value.(timer := false)) else None
    {
      if ctx.Some? && ctx.value.timer { ctx := Some(ctx.value.(timer := false)); }
    }

    method LaunchTimer()
      modifies this`ctx
      ensures ctx == if old(ctx).Some? then Some(old(ctx).value.(timer := true)) else None
    {
      StopTimer();
      if ctx.Some? { ctx := Some(ctx.value.(timer := true)); }
    }

    /** Announces AllClear once, or puts one challenge on its way, or does nothing while one runs. */
    method InitiateChallenge(now: int, random: nat -> nat, m1: nat, m2: nat)
      requires Rested()
      modifies this`to, this`db, this`ctx, this`sendq, this`allClearSent
      ensures Rested() && View() == Challenge(old(View()), now, random, m1, m2)
    {
      hide DueLogin, Printable, Derive, Base64.Encode;
      if !Active(ctx) {
        SearchLogin(now);
      }
      if !Active(ctx) {
        if !allClearSent { SendAllClear(); }
      } else if ctx.value.toSend {
        var e := EncodeChallenge(random, m1, m2);
        sendq := sendq + [Ready(e)];
        ctx := Some(ctx.value.(running := true, toSend := false));
        LaunchTimer();
      }
    }

    // ---------------------------------------------------- cyber_process_internal_msg

    /** Whether the answer to a request would find its logins taken. */
    method NoLoginFree() returns (busy: bool)
      requires Valid()
      ensures busy == Busy(View())
    {
      if !Active(ctx) { return false; }
      var auth := FirstLogin(order);
      if auth.Some? && to[auth.value].pending {
        auth := NextLogin(order);
      }
      return auth.None? || to[auth.value].pending;
    }

    method OnChangePwdRequest(l: Login, m: nat, text: string, now: int)
      requires Rested() && l in from
      modifies this`from, this`db, this`sendq
      ensures Rested() && View() == Answered(OnRequest(old(View()), l, m, text, now))
    {
      hide Busy, Base64.Decode, Answered;
      if !GuardAccepts(text) {
        RequestIgnored(View(), l, m, text, now);
        return;
      }
      RequestAnswered(View(), l, m, text, now);
      hide OnRequest;
      var busy := NoLoginFree();
      var status := !busy;
      if status {
        status := SetPwdB64(l, text, now);
        if status { SaveDatabase(); }
      }
      SendMessage(ChangePwdResponse(m, status));
    }

    /** The end of an answered challenge, with the scan that follows it. */
    method EndChallenge(now: int, random: nat -> nat, m1: nat, m2: nat)
      requires Valid() && ctx.Some? && ctx.value.running && !ctx.value.toSend
      modifies this`to, this`db, this`ctx, this`sendq, this`allClearSent
      ensures Rested()
      ensures var p := old(View());
              View() == Challenge(p.(ctx := Some(p.ctx.value.(running := false))), now, random, m1, m2)
    {
      hide Challenge;
      ctx := Some(ctx.value.(running := false));
      InitiateChallenge(now, random, m1, m2);
    }

    method OnChangePwdResponse(oMId: nat, status: bool, now: int, random: nat -> nat, m1: nat, m2: nat)
      requires Rested()
      modifies this`to, this`db, this`ctx, this`sendq, this`allClearSent
      ensures Rested()
      ensures View() == if Refused(old(View()), ChangePwdResponse(oMId, status))
                        then Challenge(OnResponse(old(View()), oMId, status, now), now, random, m1, m2)
                        else Completed(OnResponse(old(View()), oMId, status, now), now, random, m1, m2)
    {
      hide Challenge, Printable, OnResponse, Refused, SaveStep;
      if ctx.None? || !ctx.value.running {
        ResponseIgnored(View(), oMId, status, now);
        return;
      }
      if oMId != ctx.value.mIdRequest {
        ResponseIgnored(View(), oMId, status, now);
        return;
      }
      ResponseTaken(View(), status, now);
      StopTimer();
      if status {
        var ok := SwitchToNewPwd(ctx.value.auth.value, now);
        if !ok { return; }
      }
      EndChallenge(now, random, m1, m2);
    }

    method OnPong(oMId: nat, now: int, random: nat -> nat, m1: nat, m2: nat)
      requires Rested()
      modifies this`to, this`db, this`ctx, this`sendq, this`allClearSent
      ensures Rested() && View() == Completed(Peers.OnPong(old(View()), oMId, now), now, random, m1, m2)
    {
      hide Challenge, Printable;
      if ctx.None? || !ctx.value.running { return; }
      if oMId != ctx.value.mIdPing { return; }
      StopTimer();
      var ok := SwitchToNewPwd(ctx.value.auth.value, now);
      if !ok { return; }
      EndChallenge(now, random, m1, m2);
    }

    /** One opened message, from the queue to the last effect of its handling. */
    method ProcessInternal(now: int, random: nat -> nat, m1: nat, m2: nat)
      requires Rested() && internalq != []
      modifies this
      ensures Rested() && View() == InternalEvent(old(View()), now, random, m1, m2)
    {
      hide OnRequest, OnResponse, Peers.OnPong, Challenge, Answered, Completed;
      var x := internalq[0];
      assert x in internalq && forall y :: y in internalq[1..] ==> y in internalq;
      internalq := internalq[1..];
      match x.body {
        case AllClear => allClearRxed := true;
        case ChangePwdRequest(m, text) => OnChangePwdRequest(x.login, m, text, now);
        case ChangePwdResponse(o, status) => OnChangePwdResponse(o, status, now, random, m1, m2);
        case Ping(m) => SendMessage(Pong(m));
        case Pong(o) => OnPong(o, now, random, m1, m2);
        case Application(_) =>
      }
    }

    // ------------------------------------------------------- the two other threads

    /** One turn of cyber_receive: each opened body goes to the queue of its class. */
    method Deliver(e: Envelope)
      requires Valid()
      modifies this`internalq, this`externalq
      ensures Valid() && View() == Peers.Receive(old(View()), e, false)
    {
      hide Internal, External, Opened;
      if e.login !in from { return; }
      var list := DecodeElements(e.data, Derive(cipher, Decrypt, me, e.login, remote, from[e.login].pwd));
      for i := 0 to |list|
        invariant Valid()
        invariant internalq + Internal(e.login, list[i..]) == old(internalq) + Internal(e.login, list[0..])
        invariant externalq + External(list[i..]) == old(externalq) + External(list[0..])
      {
        Sorted(e.login, list, i);
        if list[i].Application? {
          externalq := externalq + [list[i].payload];
        } else {
          internalq := internalq + [Incoming(e.login, list[i])];
        }
      }
      SortedEnd(e.login, list);
    }

    /** One turn of cyber_send: the message is sealed now, under the password that is current now. */
    method SendNext() returns (e: Option<Envelope>)
      requires Valid() && sendq != []
      modifies this`sendq
      ensures e == Sent(old(View()), old(sendq[0]), false) && View() == old(View()).(sendq := old(sendq)[1..])
    {
      var o := sendq[0];
      sendq := sendq[1..];
      if o.Ready? { return Some(o.envelope); }
      var login := o.login;
      if login.None? { login := FirstLogin(order); }
      if login.None? || login.value !in to { return None; }
      var key := Derive(cipher, Encrypt, me, login.value, remote, to[login.value].pwd);
      return Some(Envelope(login.value, [Sealed(key, o.body)]));
    }

    /** _send. */
    method SendPayload(login: Option<Login>, payload: Bytes) returns (ok: bool)
      requires Valid()
      modifies this`sendq
      ensures View() == Peers.Send(old(View()), login, payload)
      ensures ok <==> sendq == old(sendq) + [ToSeal(SendLogin(old(View()), login), Application(payload))]
      ensures !ok ==> sendq == old(sendq)
      ensures ok <==> if login.None? then Choices.TakesUnnamed(old(View())) else Choices.TakesNamed(old(View()), login.value)
      ensures ok ==> sendq == old(sendq) + [ToSeal(if login.None? then Some(Choices.UnnamedLogin(old(View()))) else login,
                                                   Application(payload))]
    {
      Choices.TakenIff(View(), if login.None? then [] else login.value, payload);
      if !allClearRxed || !allClearSent || (login.Some? && login.value !in to) { return false; }
      var auth := FirstLogin(order);
      var chosen := login;
      if login.None? {
        if auth.None? { return false; }
        if ctx.None? || auth != ctx.value.auth || !Active(ctx) {
          chosen := auth;
        } else {
          auth := NextLogin(order);
          if auth.Some? && !to[auth.value].pending { chosen := auth; }
        }
        if chosen.None? { return false; }
      } else {
        if auth.None? || to[auth.value].pending { return false; }
      }
      sendq := sendq + [ToSeal(chosen, Application(payload))];
      return true;
    }

    /** _stop: nothing when the session is stopped already. */
    method StopSession()
      requires Valid()
      modifies this`stop, this`ctx
      ensures View() == if old(stop) then old(View()) else Stop(old(View()))
    {
      if !stop {
        stop := true;
        StopTimer();
      }
    }

    /** handler_timeout_challenge: a challenge without an answer ends the session. */
    method OnChallengeTimeout()
      requires Valid()
      modifies this`stop, this`ctx
      ensures View() == if old(ctx.Some? && ctx.value.running && !stop) then Stop(old(View())) else old(View())
    {
      if ctx.Some? && ctx.value.running {
        StopSession();
      }
    }
  }

  // ------------------------------------------------- an event as a run of the system

  /** The state of the system after side s has become p. */
  function Becomes(n: Net, s: Side, p: Peer, next: nat): Net {
    n.With(s, p).(nextId := next)
  }

  /** From n the system can come to m with side s having become p, whatever identifiers that took. */
  ghost predicate ReachesAs(n: Net, m: Net, s: Side, p: Peer) {
    exists next :: Reaches(n, Becomes(m, s, p, next))
  }

  lemma Step(n: Net, a: Label)
    requires Enabled(n, a)
    ensures Reaches(n, Next(n, a))
  {
    var states, labels := [n, Next(n, a)], [a];
    assert IsRun(states, labels) && states[|labels|] == Next(n, a);
  }

  lemma Then(n: Net, m: Net, o: Net)
    requires Reaches(n, m) && Reaches(m, o)
    ensures Reaches(n, o)
  {
    var s, a :| IsRun(s, a) && s[0] == n && s[|a|] == m;
    var t, b :| IsRun(t, b) && t[0] == m && t[|b|] == o;
    Joined(s, a, t, b);
  }

  lemma Joined(s: seq<Net>, a: seq<Label>, t: seq<Net>, b: seq<Label>)
    requires IsRun(s, a) && IsRun(t, b) && s[|a|] == t[0]
    ensures Reaches(s[0], t[|b|])
  {
    hide Enabled, Next;
    var u, c := s[..|a|] + t, a + b;
    forall i | 0 <= i < |c| ensures Enabled(u[i], c[i]) && u[i + 1] == Next(u[i], c[i]) {
      if i < |a| {
        assert u[i] == s[i] && c[i] == a[i] && u[i + 1] == s[i + 1];
      } else {
        assert u[i] == t[i - |a|] && c[i] == b[i - |a|] && u[i + 1] == t[i + 1 - |a|];
      }
    }
    assert IsRun(u, c) && u[0] == s[0] && u[|c|] == t[|b|];
  }

  lemma DrawnIsGood(p: Peer, now: int, random: nat -> nat)
    ensures GoodCandidate(p, now, Drawn(p, now, random))
  {
    hide DueLogin;
  }

  /** A completed scan event is a scan, a save and a hand-over of the transition system. */
  lemma ChallengeIsRun(n: Net, s: Side, now: int, random: nat -> nat)
    requires !n.At(s).stopped && n.At(s).phase.Idle?
    requires forall l :: l in n.At(s).mem.order ==> l in n.At(s).mem.to
    ensures var p := Challenge(n.At(s), now, random, n.nextId, n.nextId + 1);
            ReachesAs(n, n, s, p)
  {
    hide Reaches, DueLogin, Base64.Encode, Printable;
    var a := Scan(s, now, Drawn(n.At(s), now, random));
    DrawnIsGood(n.At(s), now, random);
    var n1 := Next(n, a);
    Step(n, a);
    if n1.At(s).phase.Generated? {
      var n2 := Next(n1, Label.Save(s));
      Step(n1, Label.Save(s));
      var n3 := Next(n2, Emit(s));
      Step(n2, Emit(s));
      Then(n, n1, n2);
      Then(n, n2, n3);
      assert n3 == Becomes(n, s, n3.At(s), n.nextId + 2);
    } else {
      assert n1 == Becomes(n, s, n1.At(s), n.nextId);
    }
  }

  /** The saving and the answer of a received password, as two further steps. */
  lemma AnsweredIsRun(n: Net, m: Net, s: Side)
    requires Reaches(n, m)
    ensures m.At(s).phase.Installed? ==> ReachesAs(n, m, s, Answered(m.At(s)))
    ensures !m.At(s).phase.Installed? ==> Answered(m.At(s)) == m.At(s)
  {
    hide Reaches;
    if m.At(s).phase.Installed? {
      var m2 := Next(m, Label.Save(s));
      Step(m, Label.Save(s));
      var m3 := Next(m2, Emit(s));
      Step(m2, Emit(s));
      Then(n, m, m2);
      Then(n, m2, m3);
      assert m3 == Becomes(m, s, Answered(m.At(s)), m.nextId + 2);
    }
  }

  /** The scan that follows the end of a challenge, as further steps. */
  lemma ScannedIsRun(n: Net, m: Net, s: Side, now: int, random: nat -> nat)
    requires Reaches(n, m) && !m.At(s).stopped && m.At(s).phase.Idle?
    requires forall l :: l in m.At(s).mem.order ==> l in m.At(s).mem.to
    ensures ReachesAs(n, m, s, Challenge(m.At(s), now, random, m.nextId, m.nextId + 1))
  {
    hide Reaches, Challenge;
    var p := Challenge(m.At(s), now, random, m.nextId, m.nextId + 1);
    ChallengeIsRun(m, s, now, random);
    var next :| Reaches(m, Becomes(m, s, p, next));
    Then(n, m, Becomes(m, s, p, next));
  }

  /** What handling one message leaves, up to the first write of the database. */
  lemma HandledKeys(p: Peer, now: int)
    requires p.inq != []
    ensures var q := Peers.Process(p, now);
            && q.stopped == p.stopped && q.mem.order == p.mem.order && q.mem.to.Keys == p.mem.to.Keys
            && (p.phase.Idle? && q.phase.Installed? ==> p.inq[0].body.ChangePwdRequest?)
            && (p.phase.Idle? && q.phase.Switched? ==> p.inq[0].body.ChangePwdResponse? || p.inq[0].body.Pong?)
            && (p.phase.Idle? ==> q.phase.Idle? || q.phase.Installed? || q.phase.Switched?)
  {
    hide OnRequest;
    var q, x := p.(inq := p.inq[1..]), p.inq[0];
    if x.body.ChangePwdRequest? { RequestEffect(q, x.login, x.body.mId, x.body.pwd, now); }
  }

  lemma SavedSwitch(p: Peer)
    requires p.phase.Switched?
    ensures SaveStep(p).phase.Idle? && SaveStep(p).mem == p.mem && SaveStep(p).stopped == p.stopped
  {}

  lemma RefusedIsIdle(p: Peer, now: int)
    requires p.inq != [] && p.phase.Idle? && Refused(p, p.inq[0].body)
    ensures Peers.Process(p, now).phase.Idle?
  {}

  /** Refinement: an event of the internal thread, run to its end by the methods above, is a sequence of steps
      of the transition system, with a crash possible between any two of them. */
  lemma EventIsRun(n: Net, s: Side, now: int, random: nat -> nat)
    requires Enabled(n, Process(s, now))
    requires forall l :: l in n.At(s).mem.order ==> l in n.At(s).mem.to
    ensures ReachesAs(n, n, s, InternalEvent(n.At(s), now, random, n.nextId, n.nextId + 1))
  {
    hide Reaches, Challenge, OnRequest, OnResponse, OnPong, SaveStep, Answered;
    var p, m := n.At(s), Next(n, Process(s, now));
    Step(n, Process(s, now));
    HandledKeys(p, now);
    var e := InternalEvent(p, now, random, n.nextId, n.nextId + 1);
    assert m == Becomes(n, s, Peers.Process(p, now), n.nextId);
    AnsweredIsRun(n, m, s);
    if Refused(p, p.inq[0].body) { RefusedIsIdle(p, now); }
    if m.At(s).phase.Switched? {
      var m2 := Next(m, Label.Save(s));
      Step(m, Label.Save(s));
      Then(n, m, m2);
      SavedSwitch(m.At(s));
      ScannedIsRun(n, m2, s, now, random);
      var next :| Reaches(n, Becomes(m2, s, Challenge(m2.At(s), now, random, m2.nextId, m2.nextId + 1), next));
      assert Becomes(m2, s, e, next) == Becomes(n, s, e, next);
    } else if Refused(p, p.inq[0].body) {
      ScannedIsRun(n, m, s, now, random);
      var next :| Reaches(n, Becomes(m, s, Challenge(m.At(s), now, random, m.nextId, m.nextId + 1), next));
      assert Becomes(m, s, e, next) == Becomes(n, s, e, next);
    } else if m.At(s).phase.Installed? {
      var next :| Reaches(n, Becomes(m, s, Answered(m.At(s)), next));
      assert Becomes(m, s, e, next) == Becomes(n, s, e, next);
    } else {
      assert e == m.At(s);
    }
  }
}
