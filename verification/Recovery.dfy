/** Recovery by one round of the challenge, in the middle of whatever else the session is doing. From any reachable
    state in which no challenge is under way, a scan that selects a login starts a round. Whatever the
    interleaving of the threads, and with payloads and fruitless scans of both sides in between, the round takes
    at most nineteen steps of its own, and it ends with equal passwords and nothing pending exactly when the
    reply direction is itself in agreement. */
module Recovery {
  import opened Basics
  import opened Wire
  import opened Credentials
  import opened Peers
  import opened Network
  import opened ChallengeInvariant
  import opened Agreement
  import opened Rounds
  import opened Workload
  import Base64

  /** Everything but the end of the session and the start of another challenge: the threads, scans that find
      nothing to begin, and the application. */
  predicate Undisturbed(n: Net, a: Label) {
    ThreadStep(n, a) || a.Send?
  }

  /** No challenge of side t's own is under way: none runs, or nothing of the one that runs is on its way. */
  predicate Unengaged(n: Net, t: Side)
    requires GoodChannels(n)
  {
    var p, q := n.At(Other(t)), n.At(t);
    Active(q.ctx) ==>
      (q.phase.Idle? || q.phase.Installed? || q.phase.Committed?) && Calm(p, q, InFlight(n.From(Other(t))), InFlight(n.From(t)))
  }

  /** Side s may start to rotate login l by the scan a; the other side knows the login and will not refuse. */
  predicate CanStart(n: Net, s: Side, a: Label, l: Login) {
    && GoodChannels(n) && a.Scan? && a.side == s && Enabled(n, a)
    && !Active(n.At(s).ctx) && DueLogin(n.At(s).mem.order, n.At(s).mem.to, a.now) == Some(l)
    && l in n.At(Other(s)).mem.from && !Busy(n.At(Other(s))) && Unengaged(n, Other(s))
  }

  function RoundOf(n: Net, s: Side, a: Label, l: Login): Round
    requires CanStart(n, s, a, l)
  {
    Round(n.At(s), n.At(Other(s)), l, WithCandidate(n.At(s).mem.to[l], a.candidate))
  }

  predicate RoundAt(n: Net, s: Side, z: Round, ids: Ids) {
    && GoodChannels(n)
    && InRound(z, ids, n.At(s), n.At(Other(s)), InFlight(n.From(s)), InFlight(n.From(Other(s))))
  }

  function WeightAt(n: Net, s: Side, ids: Ids): nat
    requires GoodChannels(n)
  {
    Weight(ids, n.At(s), n.At(Other(s)), InFlight(n.From(s)), InFlight(n.From(Other(s))))
  }

  /** The step advances side s's challenge itself: a save or a hand-over of it, or the move of one of its elements or
      answers. */
  predicate Advances(n: Net, s: Side, ids: Ids, a: Label)
    requires Enabled(n, a)
  {
    var p, q := n.At(s), n.At(Other(s));
    match a
    case Scan(_, _, _) => false
    case Save(r) => r == s || (!Preparing(p) && q.phase == Installed(ids.request))
    case Emit(r) => r == s || (!Preparing(p) && q.phase == Committed(ids.request))
    case Transmit(r, late) => if r == s then p.sendq[0].Ready? else !Preparing(p) && OutHits(ids, q.sendq[0])
    case Receive(r, late) =>
      if r == s then HitsAt(ids, p, n.From(Other(s)).log[n.From(Other(s)).taken])
      else !PlainEnvelope(n.From(s).log[n.From(s).taken])
    case Process(r, _) =>
      !Preparing(p) && if r == s then IsAnswer(ids, p.inq[0].body) else IsElement(ids, q.inq[0].body)
    case _ => false
  }

  /** The identifiers of side s's challenge after a step. */
  function IdsAfter(n: Net, s: Side, ids: Ids, a: Label): Ids {
    if a == Emit(s) then Ids(n.nextId, n.nextId + 1) else ids
  }

  lemma StartsRound(n: Net, s: Side, a: Label, l: Login, ids: Ids)
    requires Inv(n) && CanStart(n, s, a, l)
    ensures RoundAt(Next(n, a), s, RoundOf(n, s, a, l), ids) && WeightAt(Next(n, a), s, ids) == 18
  {
    hide DueLogin, Inv, Busy, Calm, Fixed, Stage, Weight;
    InvStopped(n);
    Unchallenged(n, s);
    var z, p, q := RoundOf(n, s, a, l), n.At(s), n.At(Other(s));
    StartsCalm(p, Next(n, a).At(s), q, InFlight(n.From(s)), InFlight(n.From(Other(s))));
    StartsFixed(z, ids, p, q, a.now, a.candidate);
    GeneratedWeight(ids, Next(n, a).At(s), q, InFlight(n.From(s)), InFlight(n.From(Other(s))));
  }

  lemma StartsFixed(z: Round, ids: Ids, p: Peer, q: Peer, now: int, candidate: Bytes)
    requires !p.stopped && !q.stopped && !Active(p.ctx) && DueLogin(p.mem.order, p.mem.to, now) == Some(z.login)
    requires z.login in q.mem.from && !Busy(q) && (q.phase.Idle? || q.phase.Installed? || q.phase.Committed?)
    requires z == Round(p, q, z.login, WithCandidate(p.mem.to[z.login], candidate))
    ensures var p' := Begin(p, now, candidate);
            && Fixed(z, p', q) && Stage(z, ids, p') && Preparing(p') && z.entry.pending && p'.phase.Generated?
            && p'.inq == p.inq && p'.sendq == p.sendq
  {
    hide DueLogin, Busy;
  }

  lemma GeneratedWeight(ids: Ids, p: Peer, q: Peer, w: seq<Envelope>, v: seq<Envelope>)
    ensures p.phase.Generated? ==> Weight(ids, p, q, w, v) == 18
  {}

  /** Without a running challenge of its own a peer has nothing of one on its way, and is between the phases of
      one. */
  lemma Unchallenged(n: Net, s: Side)
    requires Inv(n) && !n.At(s).stopped && Unengaged(n, Other(s))
    ensures var p, q := n.At(s), n.At(Other(s));
            && Calm(p, q, InFlight(n.From(s)), InFlight(n.From(Other(s))))
            && (q.phase.Idle? || q.phase.Installed? || q.phase.Committed?)
  {
    hide Requests, RepliesGood, PingsGood, AllOlder, AgreeEverywhere;
    InvAt(n, s);
    var p, q := n.At(s), n.At(Other(s));
    if !Active(q.ctx) { NotLive(q, p, InFlight(n.From(Other(s))), InFlight(n.From(s))); }
  }

  lemma StartsCalm(p: Peer, p': Peer, q: Peer, w: seq<Envelope>, v: seq<Envelope>)
    requires Calm(p, q, w, v) && p'.inq == p.inq && p'.sendq == p.sendq
    ensures Calm(p', q, w, v)
  {}

  // ------------------------------------------------------------------ one step

  /** What the invariant of the system gives the round. */
  lemma ForRound(n: Net, s: Side)
    requires Inv(n) && !n.At(s).stopped
    ensures var p, q, w, v := n.At(s), n.At(Other(s)), InFlight(n.From(s)), InFlight(n.From(Other(s)));
            && RequestsGood(p, q, w) && RequestsGood(q, p, v) && Matched(p, q) && Matched(q, p) && AgreeEverywhere(p, q)
            && GoodStore(p.mem) && GoodStore(q.mem) && AllOlder(p, w, n.nextId) && AllOlder(q, v, n.nextId)
            && p.mem.to.Keys == p.disk.to.Keys && q.mem.from.Keys == q.disk.from.Keys
            && (!p.phase.Installed? ==> p.disk.from == p.mem.from)
            && (!q.phase.Generated? && !q.phase.Switched? ==> q.disk.to == q.mem.to)
  {
    hide RequestsGood, RepliesGood, PingsGood, AllOlder, AgreeEverywhere, GoodStore;
    InvAt(n, s);
  }

  lemma RoundLogins(z: Round, ids: Ids, p: Peer, q: Peer, w: seq<Envelope>, v: seq<Envelope>)
    requires InRound(z, ids, p, q, w, v)
    ensures !p.stopped && !q.stopped && z.login in p.mem.to && z.login in q.mem.from
    ensures CanEmit(p) ==> p.phase.Stored?
    ensures Preparing(p) || p.phase.Idle? || p.phase.Switched?
    ensures !p.phase.Installed? && !q.phase.Generated? && !q.phase.Switched?
    ensures Running(p) ==> Live(p)
    ensures Live(p) ==> Running(p)
  {}

  lemma EmitKeepsRound(n: Net, s: Side, z: Round, ids: Ids)
    requires Inv(n) && RoundAt(n, s, z, ids) && Enabled(n, Emit(s))
    ensures var m, next := Next(n, Emit(s)), Ids(n.nextId, n.nextId + 1);
            RoundAt(m, s, z, next) && WeightAt(m, s, next) < WeightAt(n, s, ids)
  {
    hide Inv, InRound, Weight, EmitStep, RequestsGood, AllOlder, AgreeEverywhere, GoodStore, Matched;
    var p, q, w, v := n.At(s), n.At(Other(s)), InFlight(n.From(s)), InFlight(n.From(Other(s)));
    RoundLogins(z, ids, p, q, w, v);
    ForRound(n, s);
    EmitHere(z, ids, p, q, w, v, n.nextId);
    StoredWeight(ids, p, q, w, v);
  }

  lemma StoredWeight(ids: Ids, p: Peer, q: Peer, w: seq<Envelope>, v: seq<Envelope>)
    ensures p.phase.Stored? ==> Weight(ids, p, q, w, v) == 17
  {}

  lemma StepHere(n: Net, s: Side, z: Round, ids: Ids, a: Label)
    requires Inv(n) && RoundAt(n, s, z, ids) && Enabled(n, a) && Undisturbed(n, a) && a.side == s && !a.Emit?
    ensures RoundAt(Next(n, a), s, z, ids)
    ensures WeightAt(Next(n, a), s, ids) <= WeightAt(n, s, ids) - (if Advances(n, s, ids, a) then 1 else 0)
  {
    hide Inv, InRound, Weight, SaveStep, Begin, Peers.Process, Peers.Receive, Peers.Send, Sent, CanSave, RequestsGood,
         AllOlder, AgreeEverywhere, GoodStore, WithSent, Matched, Preparing, GoodCandidate, DueLogin;
    var p, q, w, v := n.At(s), n.At(Other(s)), InFlight(n.From(s)), InFlight(n.From(Other(s)));
    RoundLogins(z, ids, p, q, w, v);
    ForRound(n, s);
    match a
    case Save(_) => SaveHere(z, ids, p, q, w, v);
    case Scan(_, now, candidate) => ScanHere(z, ids, p, q, w, v, now, candidate);
    case Send(_, login, payload) => SendHere(z, ids, p, q, w, v, login, payload);
    case Process(_, now) =>
      if IsAnswer(ids, p.inq[0].body) {
        ProcessAnswerHere(z, ids, p, q, w, v, now);
      } else {
        ProcessPlainHere(z, ids, p, q, w, v, now);
      }
    case Transmit(_, late) =>
      TransmitHere(z, ids, p, q, w, v, late);
      OnTheWire(n.From(s), Sent(p, p.sendq[0], late));
    case Receive(_, late) =>
      OffTheWire(n.From(Other(s)));
      ReceiveHere(z, ids, p, q, w, v, late);
  }

  lemma StepThere(n: Net, s: Side, z: Round, ids: Ids, a: Label)
    requires Inv(n) && RoundAt(n, s, z, ids) && Enabled(n, a) && Undisturbed(n, a) && a.side == Other(s)
    ensures RoundAt(Next(n, a), s, z, ids)
    ensures WeightAt(Next(n, a), s, ids) <= WeightAt(n, s, ids) - (if Advances(n, s, ids, a) then 1 else 0)
  {
    hide Inv, InRound, Weight, SaveStep, EmitStep, Begin, Peers.Process, Peers.Receive, Peers.Send, Sent, CanSave,
         CanEmit,
         RequestsGood, AllOlder, AgreeEverywhere, GoodStore, WithSent, Matched, Preparing, GoodCandidate, DueLogin;
    var p, q, w, v := n.At(s), n.At(Other(s)), InFlight(n.From(s)), InFlight(n.From(Other(s)));
    RoundLogins(z, ids, p, q, w, v);
    ForRound(n, s);
    match a
    case Save(_) => SaveThere(z, ids, p, q, w, v);
    case Emit(_) => EmitThere(z, ids, p, q, w, v, n.nextId, n.nextId + 1);
    case Scan(_, now, candidate) => ScanThere(z, ids, p, q, w, v, now, candidate);
    case Send(_, login, payload) => SendThere(z, ids, p, q, w, v, login, payload);
    case Process(_, now) => HandleThere(z, ids, p, q, w, v, now);
    case Transmit(_, late) =>
      TransmitThere(z, ids, p, q, w, v, late);
      OnTheWire(n.From(Other(s)), Sent(q, q.sendq[0], late));
    case Receive(_, late) =>
      OffTheWire(n.From(s));
      if PlainEnvelope(w[0]) {
        ReceivePlainThere(z, ids, p, q, w, v, late);
      } else {
        ReceiveElementsThere(z, ids, p, q, w, v, late);
      }
  }

  lemma HandleThere(z: Round, ids: Ids, p: Peer, q: Peer, w: seq<Envelope>, v: seq<Envelope>, now: int)
    requires InRound(z, ids, p, q, w, v) && RequestsGood(p, q, w) && GoodStore(p.mem) && q.phase.Idle? && q.inq != []
    ensures var q' := Peers.Process(q, now);
            && InRound(z, ids, p, q', w, v)
            && Weight(ids, p, q', w, v)
               <= Weight(ids, p, q, w, v) - (if !Preparing(p) && IsElement(ids, q.inq[0].body) then 1 else 0)
  {
    hide InRound, Weight, Peers.Process, RequestsGood, GoodStore;
    var m := q.inq[0].body;
    if m.ChangePwdRequest? {
      ProcessRequestThere(z, ids, p, q, w, v, now);
    } else if !Preparing(p) && m == Ping(ids.ping) {
      ProcessPingThere(z, ids, p, q, w, v, now);
    } else {
      ProcessPlainThere(z, ids, p, q, w, v, now);
    }
  }

  lemma StepInRound(n: Net, s: Side, z: Round, ids: Ids, a: Label)
    requires Inv(n) && RoundAt(n, s, z, ids) && Enabled(n, a) && Undisturbed(n, a)
    ensures var next := IdsAfter(n, s, ids, a);
            && RoundAt(Next(n, a), s, z, next)
            && WeightAt(Next(n, a), s, next) <= WeightAt(n, s, ids) - (if Advances(n, s, ids, a) then 1 else 0)
  {
    hide Inv, RoundAt, Weight, Enabled, Next, Advances;
    if a == Emit(s) {
      EmitKeepsRound(n, s, z, ids);
    } else if a.side == s {
      StepHere(n, s, z, ids, a);
    } else {
      StepThere(n, s, z, ids, a);
    }
  }

  // ------------------------------------------------------------------ the round

  /** The candidate of side s for the login is the password of both ends, in memory and on disk; the challenge is
      over, and no other login and no other password has changed. */
  predicate Recovered(n: Net, s: Side, z: Round) {
    var p, q := n.At(s), n.At(Other(s));
    && z.login in p.mem.to && z.login in q.mem.from && z.login in q.disk.from
    && p.mem.to == z.p.mem.to[z.login := AfterSwitch(z.entry, p.mem.to[z.login].stamp)]
    && p.disk.to == p.mem.to && p.mem.from == z.p.mem.from && q.mem.to == z.q.mem.to
    && q.mem.from[z.login].pwd == z.entry.newPwd && q.disk.from[z.login].pwd == z.entry.newPwd
    && q.mem.from.Keys == z.q.mem.from.Keys
    && (forall k :: k in q.mem.from && k != z.login ==> q.mem.from[k] == z.q.mem.from[k])
    && !Active(p.ctx) && (p.ctx.Some? ==> !p.ctx.value.timer)
  }

  /** The challenge is still out, with its candidate unanswered. */
  predicate Unanswered(n: Net, s: Side, z: Round) {
    var p := n.At(s);
    Live(p) && LiveLogin(p) == z.login && p.mem.to == z.p.mem.to[z.login := z.entry]
  }

  /** Side s is between events, and its challenge is over or nothing of it is on its way any more. */
  predicate Settled(n: Net, s: Side, ids: Ids) {
    && GoodChannels(n) && n.At(s).phase.Idle?
    && (Active(n.At(s).ctx) ==>
          Tokens(ids, n.At(s), n.At(Other(s)), InFlight(n.From(s)), InFlight(n.From(Other(s)))) == 0)
  }

  lemma SettledEnd(n: Net, s: Side, z: Round, ids: Ids)
    requires Inv(n) && RoundAt(n, s, z, ids) && Settled(n, s, ids)
    ensures if ReplyAgrees(z.p, z.q) then Recovered(n, s, z) else Unanswered(n, s, z)
  {
    hide Busy, ReplyAgrees, SessionGood, Tokens, Calm, Bodies, Hits, AllOlder;
    InvAt(n, s);
    var p, q := n.At(s), n.At(Other(s));
    if !Active(p.ctx) { AgreedBoth(p, q, z.login); }
  }

  lemma AgreedBoth(p: Peer, q: Peer, l: Login)
    requires AgreeEverywhere(p, q) && l in p.mem.to && l in p.disk.to && l in q.mem.from && l in q.disk.from
    requires !p.mem.to[l].pending
    ensures q.mem.from[l].pwd == p.mem.to[l].pwd && q.disk.from[l].pwd == p.mem.to[l].pwd
  {}

  /** The identifiers of the challenge of side s before step k. */
  function IdsAt(states: seq<Net>, labels: seq<Label>, s: Side, k: nat): Ids
    requires k <= |labels| < |states|
  {
    if k == 0 then Ids(0, 1) else IdsAfter(states[k - 1], s, IdsAt(states, labels, s, k - 1), labels[k - 1])
  }

  /** How many of the first k steps advance the challenge itself. */
  function Steps(states: seq<Net>, labels: seq<Label>, s: Side, k: nat): nat
    requires k <= |labels| < |states| && forall i :: 0 <= i < |labels| ==> Enabled(states[i], labels[i])
  {
    if k == 0 then 0
    else Steps(states, labels, s, k - 1)
         + if Advances(states[k - 1], s, IdsAt(states, labels, s, k - 1), labels[k - 1]) then 1 else 0
  }

  /** The first step starts the round of login l at side s and nothing disturbs it afterwards. */
  ghost predicate IsRound(states: seq<Net>, labels: seq<Label>, s: Side, l: Login) {
    && IsRun(states, labels) && Reachable(states[0]) && labels != [] && CanStart(states[0], s, labels[0], l)
    && forall i :: 1 <= i < |labels| ==> Undisturbed(states[i], labels[i])
  }

  lemma {:induction false} RoundContinues(states: seq<Net>, labels: seq<Label>, s: Side, l: Login, k: nat)
    requires IsRound(states, labels, s, l) && 1 <= k <= |labels|
    ensures var z, ids := RoundOf(states[0], s, labels[0], l), IdsAt(states, labels, s, k);
            && Inv(states[k]) && RoundAt(states[k], s, z, ids)
            && WeightAt(states[k], s, ids) + Steps(states, labels, s, k) <= 18
  {
    hide Inv, RoundAt, Weight, CanStart, Enabled, Next, RoundOf, Undisturbed, Advances, Reachable;
    assert Enabled(states[k - 1], labels[k - 1]) && states[k - 1 + 1] == Next(states[k - 1], labels[k - 1]);
    if k == 1 {
      ReachableInv(states[0]);
      StartsRound(states[0], s, labels[0], l, IdsAt(states, labels, s, 1));
      StepKeepsInv(states[0], labels[0]);
      NotYet(states[0], s, l, labels[0], IdsAt(states, labels, s, 0));
    } else {
      RoundContinues(states, labels, s, l, k - 1);
      StepKeepsInv(states[k - 1], labels[k - 1]);
      StepInRound(states[k - 1], s, RoundOf(states[0], s, labels[0], l), IdsAt(states, labels, s, k - 1), labels[k - 1]);
    }
  }

  lemma NotYet(n: Net, s: Side, l: Login, a: Label, ids: Ids)
    requires CanStart(n, s, a, l)
    ensures !Advances(n, s, ids, a)
  {}

  /** Recovery: whatever the interleaving, and among any payloads and fruitless scans, a round takes at most nineteen
      steps of its own; once it has settled it has recovered a common password if the reply direction is itself in
      agreement, and otherwise its challenge is left unanswered. */
  lemma RoundEnds(states: seq<Net>, labels: seq<Label>, s: Side, l: Login)
    requires IsRound(states, labels, s, l)
    ensures 1 + Steps(states, labels, s, |labels|) <= 19
    ensures var n, z := states[|labels|], RoundOf(states[0], s, labels[0], l);
            Settled(n, s, IdsAt(states, labels, s, |labels|)) ==>
              && (ReplyAgrees(z.p, z.q) <==> Recovered(n, s, z))
              && (!ReplyAgrees(z.p, z.q) <==> Unanswered(n, s, z))
  {
    hide Inv, RoundAt, Weight, CanStart, Enabled, Next, RoundOf, Undisturbed, Advances, Reachable, Settled, Recovered,
         Unanswered, ReplyAgrees;
    var n, z, ids := states[|labels|], RoundOf(states[0], s, labels[0], l), IdsAt(states, labels, s, |labels|);
    RoundContinues(states, labels, s, l, |labels|);
    if Settled(n, s, ids) {
      SettledEnd(n, s, z, ids);
      NotBoth(n, s, z);
    }
  }

  lemma NotBoth(n: Net, s: Side, z: Round)
    ensures !(Recovered(n, s, z) && Unanswered(n, s, z))
  {}

  /** Nothing is queued, on the wire, opened or being handled. */
  predicate Quiet(n: Net) {
    && GoodChannels(n) && InFlight(n.fromLeft) == [] && InFlight(n.fromRight) == []
    && n.left.phase.Idle? && n.right.phase.Idle?
    && n.left.sendq == [] && n.right.sendq == [] && n.left.inq == [] && n.right.inq == []
  }

  lemma QuietIsSettled(n: Net, s: Side, ids: Ids)
    requires Quiet(n)
    ensures Settled(n, s, ids)
  {
    assert InBodies([]) == [] && OutBodies([]) == [] && WireBodies([]) == [];
  }

  // ------------------------------------------------------- a round comes to its end

  /** The other two threads take their turns between the events of the internal thread of their side, so that they
      are never late. */
  predicate Orderly(n: Net, a: Label) {
    ThreadStep(n, a) && (a.Transmit? || a.Receive? ==> !a.late && n.At(a.side).phase.Idle?)
  }

  /** Unless everything is quiet some thread has something to do. */
  lemma CanContinue(n: Net) returns (a: Label)
    requires GoodChannels(n) && !n.left.stopped && !n.right.stopped && !Quiet(n)
    requires forall r :: CanSave(n.At(r)) || CanEmit(n.At(r)) || n.At(r).phase.Idle?
    ensures Enabled(n, a) && Orderly(n, a) && !a.Scan?
  {
    var p, q := n.At(Left), n.At(Right);
    assert CanSave(p) || CanEmit(p) || p.phase.Idle?;
    assert CanSave(q) || CanEmit(q) || q.phase.Idle?;
    if CanSave(p) { a := Save(Left); }
    else if CanEmit(p) { a := Emit(Left); }
    else if CanSave(q) { a := Save(Right); }
    else if CanEmit(q) { a := Emit(Right); }
    else if p.sendq != [] { a := Transmit(Left, false); }
    else if q.sendq != [] { a := Transmit(Right, false); }
    else if p.inq != [] { a := Process(Left, 0); }
    else if q.inq != [] { a := Process(Right, 0); }
    else if InFlight(n.fromRight) != [] { a := Receive(Left, false); }
    else { a := Receive(Right, false); }
  }

  /** The step ends an event of the internal thread, which then scans. */
  predicate EndsEvent(n: Net, a: Label)
    requires Enabled(n, a)
  {
    (a.Process? || a.Save? || a.Emit?) && Next(n, a).At(a.side).phase.Idle?
  }

  /** Every turn of an internal thread but the last ends with its scan. */
  predicate ScanFollows(states: seq<Net>, labels: seq<Label>)
    requires |labels| < |states| && forall i :: 0 <= i < |labels| ==> Enabled(states[i], labels[i])
  {
    forall i :: 0 <= i < |labels| - 1 && EndsEvent(states[i], labels[i]) ==>
                  labels[i + 1].Scan? && labels[i + 1].side == labels[i].side
  }

  /** Side s is between events and its challenge is over, or everything is quiet. */
  predicate AtRest(n: Net, s: Side) {
    n.At(s).phase.Idle? && (!Active(n.At(s).ctx) || Quiet(n))
  }

  /** A scan of side r that begins nothing. */
  function FruitlessScan(n: Net, r: Side, now: int): Label {
    var p := n.At(r);
    Scan(r, now, match DueLogin(p.mem.order, p.mem.to, now)
                 case None => []
                 case Some(l) => p.mem.to[l].pwd)
  }

  lemma ScanEnabled(n: Net, r: Side, now: int)
    requires !n.At(r).stopped && n.At(r).phase.Idle? && Fruitless(n.At(r), now)
    ensures var a := FruitlessScan(n, r, now); Enabled(n, a) && Orderly(n, a)
  {
    hide DueLogin;
  }

  /** The other side's scans at the given time find nothing to begin, throughout the round. */
  predicate NothingDue(z: Round, there: int) {
    Active(z.q.ctx) || DueLogin(z.q.mem.order, z.q.mem.to, there).None?
  }

  lemma RoundSides(n: Net, s: Side, z: Round, ids: Ids, there: int)
    requires RoundAt(n, s, z, ids) && NothingDue(z, there)
    ensures !n.left.stopped && !n.right.stopped && GoodChannels(n)
    ensures forall r :: CanSave(n.At(r)) || CanEmit(n.At(r)) || n.At(r).phase.Idle?
    ensures Fruitless(n.At(Other(s)), there)
  {
    hide DueLogin, Calm, Bodies, Progress, Busy;
    var p, q := n.At(s), n.At(Other(s));
    assert CanSave(p) || CanEmit(p) || p.phase.Idle?;
    assert CanSave(q) || CanEmit(q) || q.phase.Idle?;
  }

  lemma NextStep(n: Net, s: Side, z: Round, ids: Ids, a: Label)
    requires Inv(n) && RoundAt(n, s, z, ids) && Enabled(n, a) && ThreadStep(n, a)
    ensures Inv(Next(n, a)) && RoundAt(Next(n, a), s, z, IdsAfter(n, s, ids, a))
    ensures WorkLeft(Next(n, a)) <= WorkLeft(n) && (!a.Scan? ==> WorkLeft(Next(n, a)) < WorkLeft(n))
  {
    hide Inv, InRound, Weight, Enabled, Next, WorkLeft, Advances, ThreadStep;
    StepKeepsInv(n, a);
    StepInRound(n, s, z, ids, a);
    StepLoad(n, a);
  }

  /** Nothing blocks a round: from each of its states the threads, each scanning after every turn, reach the end of
      side s's challenge or come to rest. */
  lemma {:induction false} RoundCompletes(n: Net, s: Side, z: Round, ids: Ids, here: int, there: int)
    returns (states: seq<Net>, labels: seq<Label>)
    requires Inv(n) && RoundAt(n, s, z, ids) && NothingDue(z, there)
    ensures IsRun(states, labels) && states[0] == n && AtRest(states[|labels|], s)
    ensures forall i :: 0 <= i < |labels| ==> Orderly(states[i], labels[i])
    ensures ScanFollows(states, labels)
    decreases WorkLeft(n)
  {
    hide Inv, InRound, WorkLeft, Enabled, Next, Orderly, Quiet, NothingDue, CanSave, CanEmit;
    RoundSides(n, s, z, ids, there);
    if AtRest(n, s) {
      states, labels := [n], [];
    } else {
      NotQuiet(n, s);
      var a := CanContinue(n);
      NextStep(n, s, z, ids, a);
      var n1, ids1 := Next(n, a), IdsAfter(n, s, ids, a);
      if AtRest(n1, s) {
        states, labels := [n, n1], [a];
      } else if EndsEvent(n, a) {
        RoundSides(n1, s, z, ids1, there);
        var r := a.side;
        var b := FruitlessScan(n1, r, if r == s then here else there);
        BusyScan(n1, s, r, here, there);
        NextStep(n1, s, z, ids1, b);
        var rest, steps := RoundCompletes(Next(n1, b), s, z, IdsAfter(n1, s, ids1, b), here, there);
        states, labels := [n, n1] + rest, [a, b] + steps;
        TwoFirst(n, a, b, rest, steps);
      } else {
        var rest, steps := RoundCompletes(n1, s, z, ids1, here, there);
        states, labels := [n] + rest, [a] + steps;
        OneFirst(n, a, rest, steps);
      }
    }
  }

  lemma NotQuiet(n: Net, s: Side)
    ensures Quiet(n) ==> AtRest(n, s)
  {}

  lemma BusyScan(n: Net, s: Side, r: Side, here: int, there: int)
    requires !n.left.stopped && !n.right.stopped && n.At(r).phase.Idle? && !AtRest(n, s)
    requires Fruitless(n.At(Other(s)), there)
    ensures var b := FruitlessScan(n, r, if r == s then here else there); Enabled(n, b) && Orderly(n, b)
  {
    ScanEnabled(n, r, if r == s then here else there);
  }

  lemma OneFirst(n: Net, a: Label, rest: seq<Net>, steps: seq<Label>)
    requires Enabled(n, a) && Orderly(n, a) && !EndsEvent(n, a) && IsRun(rest, steps) && rest[0] == Next(n, a)
    requires (forall i :: 0 <= i < |steps| ==> Orderly(rest[i], steps[i])) && ScanFollows(rest, steps)
    ensures IsRun([n] + rest, [a] + steps) && ScanFollows([n] + rest, [a] + steps)
    ensures forall i :: 0 <= i < |steps| + 1 ==> Orderly(([n] + rest)[i], ([a] + steps)[i])
  {
    hide Enabled, Next, Orderly;
    var states, labels := [n] + rest, [a] + steps;
    forall i | 0 <= i < |labels|
      ensures Enabled(states[i], labels[i]) && states[i + 1] == Next(states[i], labels[i])
      ensures Orderly(states[i], labels[i])
    {
      if i > 0 { assert states[i] == rest[i - 1] && labels[i] == steps[i - 1] && states[i + 1] == rest[i - 1 + 1]; }
    }
    forall i | 0 <= i < |labels| - 1 && EndsEvent(states[i], labels[i])
      ensures labels[i + 1].Scan? && labels[i + 1].side == labels[i].side
    {
      if i > 0 { assert states[i] == rest[i - 1] && labels[i] == steps[i - 1] && labels[i + 1] == steps[i - 1 + 1]; }
    }
  }

  lemma TwoFirst(n: Net, a: Label, b: Label, rest: seq<Net>, steps: seq<Label>)
    requires Enabled(n, a) && Orderly(n, a) && Enabled(Next(n, a), b) && Orderly(Next(n, a), b)
    requires b.Scan? && (EndsEvent(n, a) ==> b.side == a.side)
    requires IsRun(rest, steps) && rest[0] == Next(Next(n, a), b)
    requires (forall i :: 0 <= i < |steps| ==> Orderly(rest[i], steps[i])) && ScanFollows(rest, steps)
    ensures var states, labels := [n, Next(n, a)] + rest, [a, b] + steps;
            && IsRun(states, labels) && ScanFollows(states, labels)
            && forall i :: 0 <= i < |labels| ==> Orderly(states[i], labels[i])
  {
    hide Enabled, Next, Orderly;
    var n1 := Next(n, a);
    OneFirst(n1, b, rest, steps);
    var later, more := [n1] + rest, [b] + steps;
    var states, labels := [n, n1] + rest, [a, b] + steps;
    assert states == [n] + later && labels == [a] + more;
    forall i | 0 <= i < |labels|
      ensures Enabled(states[i], labels[i]) && states[i + 1] == Next(states[i], labels[i])
      ensures Orderly(states[i], labels[i])
    {
      if i > 0 { assert states[i] == later[i - 1] && labels[i] == more[i - 1] && states[i + 1] == later[i - 1 + 1]; }
    }
    forall i | 0 <= i < |labels| - 1 && EndsEvent(states[i], labels[i])
      ensures labels[i + 1].Scan? && labels[i + 1].side == labels[i].side
    {
      if i > 0 { assert states[i] == later[i - 1] && labels[i] == more[i - 1] && labels[i + 1] == more[i - 1 + 1]; }
    }
  }

  // ------------------------------------------------------------------ what opens

  /** What the answering side can open of a challenge in flight, whether its receive thread is late or not: at least
      one of its two elements, exactly one when the passwords differ, the request when it still uses the current
      password and the ping when it already uses the candidate. */
  lemma WhatOpens(n: Net, s: Side, late: bool)
    requires Reachable(n) && Live(n.At(s)) && LiveLogin(n.At(s)) in n.At(Other(s)).mem.from
    ensures var p, q := n.At(s), n.At(Other(s));
            OpensOneOrBoth(p, HeldFor(p, q, late), Opened(LiveEnvelope(p).data, OpenKey(q, LiveLogin(p), late)))
  {
    hide Inv, Base64.Encode, Opened, OpenKey, ChallengeEnvelope, OpenedChallenge, OpensOneOrBoth;
    ReachableInv(n);
    var p, q := n.At(s), n.At(Other(s));
    LiveAgree(n, s, late);
    ChallengeOpens(p, q, late);
    Elements(p, HeldFor(p, q, late));
  }

  predicate OpensOneOrBoth(p: Peer, held: Bytes, list: seq<Message>)
    requires Live(p)
  {
    var a := p.mem.to[LiveLogin(p)];
    && (held == a.pwd != a.newPwd <==>
          list == [ChangePwdRequest(p.ctx.value.mIdRequest, Base64.Encode(a.newPwd))])
    && (list == [Ping(p.ctx.value.mIdPing)] <==> held == a.newPwd != a.pwd)
    && (|list| == 2 <==> a.pwd == a.newPwd) && |list| >= 1
  }

  lemma LiveAgree(n: Net, s: Side, late: bool)
    requires Inv(n) && Live(n.At(s)) && LiveLogin(n.At(s)) in n.At(Other(s)).mem.from
    ensures Matched(n.At(s), n.At(Other(s)))
    ensures HoldsEither(n.At(s).mem.to[LiveLogin(n.At(s))], HeldFor(n.At(s), n.At(Other(s)), late))
  {
    hide SessionGood;
    InvAt(n, s);
  }

  lemma Elements(p: Peer, held: Bytes)
    requires Live(p) && HoldsEither(p.mem.to[LiveLogin(p)], held)
    ensures OpensOneOrBoth(p, held, OpenedChallenge(p, held))
  {
    hide Base64.Encode;
    var list := OpenedChallenge(p, held);
    if held == p.mem.to[LiveLogin(p)].pwd { assert list[0].ChangePwdRequest?; } else { assert list[0].Ping?; }
  }

  // --------------------------------------------------------- from any reachable state

  /** A restart of both sides leads from any reachable state, whatever either was doing, to a quiet session in which
      no side is busy: each continues from its file. */
  lemma RestartIsQuiet(n: Net, cipher: string)
    requires Reachable(n)
    ensures var m := Next(Next(n, Crash(Left)), Crash(Right));
            && Enabled(m, Connect(cipher)) && Quiet(Next(m, Connect(cipher)))
            && forall s :: var p := Next(m, Connect(cipher)).At(s);
                           !p.stopped && !Active(p.ctx) && !Busy(p) && p.mem == n.At(s).disk && p.disk == n.At(s).disk
  {
    hide Load, Credentials.Save, Inv;
    assert InFlight(EMPTY) == [];
    ReachableInv(n);
    DiskRestored(n, Left);
    DiskRestored(n, Right);
  }

  lemma DiskRestored(n: Net, s: Side)
    requires Inv(n)
    ensures Load(Credentials.Save(n.At(s).disk)) == n.At(s).disk
  {
    hide Load, Credentials.Save;
    InvDisk(n, s);
    LoadInvertsSave(n.At(s).disk);
  }

  lemma ReachableStep(n: Net, a: Label)
    requires Reachable(n) && Enabled(n, a)
    ensures Reachable(Next(n, a))
  {
    hide Enabled, Next, Initial;
    var states, labels :| IsRun(states, labels) && Initial(states[0]) && states[|labels|] == n;
    var states', labels' := states + [Next(n, a)], labels + [a];
    assert IsRun(states', labels') && states'[0] == states[0] && states'[|labels'|] == Next(n, a);
  }

  /** A round that can start is carried through by the threads, each scanning after every turn; at its end the
      login is recovered exactly when the reply direction agrees. */
  lemma RoundHappens(n: Net, s: Side, a: Label, l: Login, here: int, there: int)
    returns (states: seq<Net>, labels: seq<Label>)
    requires Reachable(n) && CanStart(n, s, a, l) && NothingDue(RoundOf(n, s, a, l), there)
    ensures IsRound(states, labels, s, l) && states[0] == n && labels[0] == a && ScanFollows(states, labels)
    ensures forall i :: 1 <= i < |labels| ==> Orderly(states[i], labels[i])
    ensures var m := states[|labels|];
            && AtRest(m, s)
            && (ReplyAgrees(n.At(s), n.At(Other(s))) <==> Recovered(m, s, RoundOf(n, s, a, l)))
  {
    hide Reachable, Inv, CanStart, Enabled, Next, Recovered, Unanswered, InRound, Weight, Orderly, ReplyAgrees,
         NothingDue, Quiet, Settled;
    var z := RoundOf(n, s, a, l);
    StartEnabled(n, s, a, l);
    ReachableInv(n);
    StartsRound(n, s, a, l, Ids(0, 1));
    StepKeepsInv(n, a);
    var rest, steps := RoundCompletes(Next(n, a), s, z, Ids(0, 1), here, there);
    states, labels := [n] + rest, [a] + steps;
    StartFirst(n, a, rest, steps);
    ThreadsUndisturbed(n, a, rest, steps);
    RoundEnds(states, labels, s, l);
    RestIsSettled(states, labels, s, l);
  }

  lemma StartEnabled(n: Net, s: Side, a: Label, l: Login)
    requires CanStart(n, s, a, l)
    ensures Enabled(n, a) && a.Scan? && RoundOf(n, s, a, l).p == n.At(s) && RoundOf(n, s, a, l).q == n.At(Other(s))
  {}

  lemma StartFirst(n: Net, a: Label, rest: seq<Net>, steps: seq<Label>)
    requires Enabled(n, a) && a.Scan? && IsRun(rest, steps) && rest[0] == Next(n, a) && ScanFollows(rest, steps)
    ensures IsRun([n] + rest, [a] + steps) && ScanFollows([n] + rest, [a] + steps)
  {
    hide Enabled, Next;
    var states, labels := [n] + rest, [a] + steps;
    forall i | 0 <= i < |labels| ensures Enabled(states[i], labels[i]) && states[i + 1] == Next(states[i], labels[i]) {
      if i > 0 { assert states[i] == rest[i - 1] && labels[i] == steps[i - 1] && states[i + 1] == rest[i - 1 + 1]; }
    }
    forall i | 0 <= i < |labels| - 1 && EndsEvent(states[i], labels[i])
      ensures labels[i + 1].Scan? && labels[i + 1].side == labels[i].side
    {
      if i > 0 { assert states[i] == rest[i - 1] && labels[i] == steps[i - 1] && labels[i + 1] == steps[i - 1 + 1]; }
    }
  }

  lemma ThreadsUndisturbed(n: Net, a: Label, rest: seq<Net>, steps: seq<Label>)
    requires |rest| == |steps| + 1 && forall i :: 0 <= i < |steps| ==> Orderly(rest[i], steps[i])
    ensures forall i :: 1 <= i < |steps| + 1 ==>
                          Undisturbed(([n] + rest)[i], ([a] + steps)[i]) && Orderly(([n] + rest)[i], ([a] + steps)[i])
  {
    hide ThreadStep;
    forall i | 1 <= i < |steps| + 1
      ensures Undisturbed(([n] + rest)[i], ([a] + steps)[i]) && Orderly(([n] + rest)[i], ([a] + steps)[i])
    {
      assert ([n] + rest)[i] == rest[i - 1] && ([a] + steps)[i] == steps[i - 1];
    }
  }

  lemma RestIsSettled(states: seq<Net>, labels: seq<Label>, s: Side, l: Login)
    requires IsRound(states, labels, s, l) && AtRest(states[|labels|], s)
    ensures Settled(states[|labels|], s, IdsAt(states, labels, s, |labels|))
  {
    hide Inv, InRound, Weight, CanStart, Enabled, Next, Undisturbed, Advances, Reachable, Quiet, Tokens;
    RoundContinues(states, labels, s, l, |labels|);
    if Quiet(states[|labels|]) { QuietIsSettled(states[|labels|], s, IdsAt(states, labels, s, |labels|)); }
  }

  /** A reconnection in which the other side has nothing to rotate: it scans first and announces AllClear, side s scans
      and finds login l, and the threads go on. At the end the login is recovered exactly when the reply direction agreed
      at the start. Reconnection.ReconnectIff has the general case. */
  lemma ReconnectAlone(n: Net, cipher: string, s: Side, here: int, there: int, candidate: Bytes, other: Bytes, l: Login)
    returns (states: seq<Net>, labels: seq<Label>)
    requires Reachable(n) && n.left.phase.Idle? && n.right.phase.Idle?
    requires DueLogin(n.At(s).mem.order, n.At(s).mem.to, here) == Some(l) && l in n.At(Other(s)).mem.from
    requires |candidate| == |n.At(s).mem.to[l].pwd|
    requires DueLogin(n.At(Other(s)).mem.order, n.At(Other(s)).mem.to, there).None?
    ensures IsRun(states, labels) && states[0] == n && |labels| >= 4
    ensures labels[..4] == [Disconnect, Connect(cipher), Scan(Other(s), there, other), Scan(s, here, candidate)]
    ensures IsRound(states[3..], labels[3..], s, l) && ScanFollows(states[3..], labels[3..])
    ensures forall i :: 4 <= i < |labels| ==> Orderly(states[i], labels[i])
    ensures var m := states[|labels|];
            && AtRest(m, s)
            && (ReplyAgrees(n.At(s), n.At(Other(s))) <==> Recovered(m, s, RoundOf(states[3], s, labels[3], l)))
  {
    hide Reachable, Inv, DueLogin, Recovered, IsRound, ScanFollows, CanStart, AtRest, Next, Enabled, RoundOf,
         NothingDue,
         Orderly;
    var a := Scan(s, here, candidate);
    ReconnectEnabled(n, cipher);
    var n1 := Next(n, Disconnect);
    var n2 := Next(n1, Connect(cipher));
    ReachableStep(n, Disconnect);
    ReachableStep(n1, Connect(cipher));
    var b := Scan(Other(s), there, other);
    FirstScans(n, n2, s, a, there, other, l, cipher);
    var n3 := Next(n2, b);
    ReachableStep(n2, b);
    var rest, steps := RoundHappens(n3, s, a, l, here, there);
    RoundIsRun(rest, steps, s, l);
    RunPrefixed(n2, b, rest, steps);
    RunPrefixed(n1, Connect(cipher), [n2] + rest, [b] + steps);
    RunPrefixed(n, Disconnect, [n1] + ([n2] + rest), [Connect(cipher)] + ([b] + steps));
    states := [n] + ([n1] + ([n2] + rest));
    labels := [Disconnect] + ([Connect(cipher)] + ([b] + steps));
    assert states[3..] == rest && labels[3..] == steps && labels[3] == steps[0];
    assert labels[..4] == [Disconnect, Connect(cipher), b, steps[0]];
    forall i | 4 <= i < |labels| ensures Orderly(states[i], labels[i]) {
      assert states[i] == rest[i - 3] && labels[i] == steps[i - 3];
    }
  }

  lemma ReconnectEnabled(n: Net, cipher: string)
    requires n.left.phase.Idle? && n.right.phase.Idle?
    ensures Enabled(n, Disconnect) && Enabled(Next(n, Disconnect), Connect(cipher))
  {}

  /** In the new session the other side scans in vain, and then the scan of side s starts a round. */
  lemma FirstScans(n: Net, n2: Net, s: Side, a: Label, there: int, other: Bytes, l: Login, cipher: string)
    requires n.left.phase.Idle? && n.right.phase.Idle?
    requires Enabled(Next(n, Disconnect), Connect(cipher)) && n2 == Next(Next(n, Disconnect), Connect(cipher))
    requires a.Scan? && a.side == s
    requires DueLogin(n.At(s).mem.order, n.At(s).mem.to, a.now) == Some(l) && l in n.At(Other(s)).mem.from
    requires |a.candidate| == |n.At(s).mem.to[l].pwd|
    requires DueLogin(n.At(Other(s)).mem.order, n.At(Other(s)).mem.to, there).None?
    ensures var b := Scan(Other(s), there, other); Enabled(n2, b) && CanStart(Next(n2, b), s, a, l)
    ensures var b := Scan(Other(s), there, other);
            var z := RoundOf(Next(n2, b), s, a, l);
            && NothingDue(z, there) && (ReplyAgrees(z.p, z.q) <==> ReplyAgrees(n.At(s), n.At(Other(s))))
            && z.p == Next(n2, b).At(s) && z.q == Next(n2, b).At(Other(s))
  {
    hide DueLogin, Calm;
  }

  lemma RoundIsRun(states: seq<Net>, labels: seq<Label>, s: Side, l: Login)
    requires IsRound(states, labels, s, l)
    ensures IsRun(states, labels) && labels != []
  {}

  lemma RunPrefixed(n: Net, a: Label, rest: seq<Net>, steps: seq<Label>)
    requires Enabled(n, a) && IsRun(rest, steps) && rest[0] == Next(n, a)
    ensures IsRun([n] + rest, [a] + steps)
  {
    hide Enabled, Next;
    var states, labels := [n] + rest, [a] + steps;
    forall i | 0 <= i < |labels| ensures Enabled(states[i], labels[i]) && states[i + 1] == Next(states[i], labels[i]) {
      if i > 0 { assert states[i] == rest[i - 1] && labels[i] == steps[i - 1] && states[i + 1] == rest[i - 1 + 1]; }
    }
  }
}
