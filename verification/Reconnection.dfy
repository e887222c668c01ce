/** Recovery after a reconnection: the session is opened anew, both sides scan, and the login found first by one side is
    rotated in some run of the session exactly when the answers of the other side can be opened. */
module Reconnection {
  import opened Basics
  import opened Wire
  import opened Credentials
  import opened Peers
  import opened Network
  import opened ChallengeInvariant
  import opened Agreement
  import opened Crossing
  import opened Rotation
  import Rounds
  import Recovery
  import Stale
  import Unanswered
  import Workload
  import Base64

  // ------------------------------------------------------------ after a reconnection

  /** The other side will not refuse the request of the scan for good: after its own first scan it has no challenge, or a
      free first or second login, or it holds the candidate already. */
  predicate Takes(p: Peer, q: Peer, l: Login, candidate: Bytes, there: int, other: Bytes) {
    && l in p.mem.to && l in q.mem.from
    && match DueLogin(q.mem.order, q.mem.to, there)
       case None => true
       case Some(g) =>
         || !LockedStore(q.mem.order, q.mem.to[g := WithCandidate(q.mem.to[g], other)])
         || q.mem.from[l].pwd == WithCandidate(p.mem.to[l], candidate).newPwd != p.mem.to[l].pwd
  }

  /** The four steps that open the session anew, up to the first scans of both sides. */
  function Opening(cipher: string, s: Side, here: int, candidate: Bytes, there: int, other: Bytes): seq<Label> {
    [Disconnect, Connect(cipher), Scan(Other(s), there, other), Scan(s, here, candidate)]
  }

  /** Every step is one of the threads in its turn. */
  predicate InTurn(states: seq<Net>, labels: seq<Label>, k: nat)
    requires |labels| < |states|
  {
    forall i :: k <= i < |labels| ==> Recovery.Orderly(states[i], labels[i])
  }

  /** The answers of the other side can be opened: at once, or after the challenge of its own that its scan finds. */
  predicate AnswerableAfter(p: Peer, q: Peer, there: int) {
    var g := DueLogin(q.mem.order, q.mem.to, there);
    Rounds.ReplyAgrees(p, q) || (g.Some? && Unanswered.Repairs(p, q, g.value))
  }

  /** A run that opens the session anew, goes on in it, and ends with the login rotated that side s has found. */
  ghost predicate Recovers(n: Net, cipher: string, s: Side, here: int, candidate: Bytes, l: Login, there: int, other: Bytes,
                           states: seq<Net>, labels: seq<Label>)
  {
    var p, q := n.At(s), n.At(Other(s));
    && IsRun(states, labels) && states[0] == n && |labels| >= 4 && Disciplined(labels)
    && labels[..4] == Opening(cipher, s, here, candidate, there, other)
    && (forall i :: 4 <= i < |labels| ==> Within(labels[i]))
    && l in p.mem.to && Rotated(states[|labels|], p.mem.to, q.mem.from, s, l, WithCandidate(p.mem.to[l], candidate))
  }

  ghost predicate RecoversSometime(n: Net, cipher: string, s: Side, here: int, candidate: Bytes, l: Login, there: int,
                                   other: Bytes)
  {
    exists states: seq<Net>, labels: seq<Label> ::
      Recovers(n, cipher, s, here, candidate, l, there, other, states, labels)
  }

  /** From every reachable state between events: the session is opened anew, both sides scan, and the threads go on, each
      turn ending with a scan. In some such run the login that side s has found is rotated, exactly when the reply
      direction agrees at the start or the challenge the other side begins can repair it. */
  lemma ReconnectIff(n: Net, cipher: string, s: Side, here: int, candidate: Bytes, l: Login, there: int, other: Bytes)
    requires Reachable(n) && n.left.phase.Idle? && n.right.phase.Idle?
    requires Finds(n, s, here, candidate, l) && GoodCandidate(n.At(Other(s)), there, other)
    requires Takes(n.At(s), n.At(Other(s)), l, candidate, there, other)
    ensures RecoversSometime(n, cipher, s, here, candidate, l, there, other)
            <==> AnswerableAfter(n.At(s), n.At(Other(s)), there)
  {
    hide Reachable, DueLogin, Rotated, AnswerableAfter, Disciplined, Finds, GoodCandidate, Takes, Enabled, Next,
         Recovery.Orderly;
    if AnswerableAfter(n.At(s), n.At(Other(s)), there) {
      var states, labels := ReconnectRecovers(n, cipher, s, here, candidate, l, there, other);
      forall i | 4 <= i < |labels| ensures Within(labels[i]) { TurnWithin(states[i], labels[i]); }
      FoundKnown(n, s, here, candidate, l);
      assert Recovers(n, cipher, s, here, candidate, l, there, other, states, labels);
    } else if RecoversSometime(n, cipher, s, here, candidate, l, there, other) {
      var states: seq<Net>, labels: seq<Label> :| Recovers(n, cipher, s, here, candidate, l, there, other, states, labels);
      NeverRecovers(n, cipher, s, here, candidate, l, there, other, states, labels, |labels|);
      StillPending(n, s, l, candidate, states[|labels|]);
    }
  }

  lemma TurnWithin(n: Net, a: Label)
    requires Recovery.Orderly(n, a)
    ensures Within(a)
  {}

  lemma StillPending(n: Net, s: Side, l: Login, candidate: Bytes, m: Net)
    requires l in n.At(s).mem.to && m.At(s).mem.to == WithNew(n.At(s), l, candidate).to
    ensures !Rotated(m, n.At(s).mem.to, n.At(Other(s)).mem.from, s, l, WithCandidate(n.At(s).mem.to[l], candidate))
  {}

  // ------------------------------------------------------------------ the opening, step by step

  /** The states of the opening. */
  lemma OpeningRun(n: Net, cipher: string, s: Side, here: int, candidate: Bytes, l: Login, there: int, other: Bytes)
    returns (first: seq<Net>)
    requires Reachable(n) && n.left.phase.Idle? && n.right.phase.Idle?
    requires Finds(n, s, here, candidate, l) && GoodCandidate(n.At(Other(s)), there, other)
    ensures |first| == 5 && IsRun(first, Opening(cipher, s, here, candidate, there, other)) && first[0] == n
    ensures Reachable(first[4]) && Begun(n, first[4], s, candidate, l, there, other)
  {
    hide Reachable, DueLogin, Next, Enabled, Finds, GoodCandidate, Begun;
    Recovery.ReconnectEnabled(n, cipher);
    var n1 := Next(n, Disconnect);
    var n2 := Next(n1, Connect(cipher));
    var b, a := Scan(Other(s), there, other), Scan(s, here, candidate);
    FreshSession(n, cipher);
    ScansOnce(n, n2, s, here, candidate, l, there, other);
    var n3 := Next(n2, b);
    first := [n, n1, n2, n3, Next(n3, a)];
    Recovery.ReachableStep(n, Disconnect);
    Recovery.ReachableStep(n1, Connect(cipher));
    Recovery.ReachableStep(n2, b);
    Recovery.ReachableStep(n3, a);
  }

  /** Nothing has been sent or queued in the session. */
  predicate Clean(n: Net) {
    && n.fromLeft == EMPTY && n.fromRight == EMPTY && CleanPeer(n.left) && CleanPeer(n.right)
  }

  predicate CleanPeer(p: Peer) {
    && !p.stopped && p.phase.Idle? && p.ctx == Some(NEW_CONTEXT) && p.sendq == [] && p.inq == []
    && !p.allClearSent
  }

  lemma FreshSession(n: Net, cipher: string)
    requires n.left.phase.Idle? && n.right.phase.Idle?
    ensures var m := Next(Next(n, Disconnect), Connect(cipher));
            Clean(m) && m.left.mem == n.left.mem && m.right.mem == n.right.mem
  {}

  /** After the first scans: side s has found login l, and the other side its first due one, if it has any. */
  predicate Begun(n: Net, m: Net, s: Side, candidate: Bytes, l: Login, there: int, other: Bytes) {
    var p, q := n.At(s), n.At(Other(s));
    && l in p.mem.to && m.At(s).mem == WithNew(p, l, candidate) && Asks(m.At(s), l) && Unanswered.Silent(m, s)
    && match DueLogin(q.mem.order, q.mem.to, there)
       case None => m.At(Other(s)).mem == q.mem
       case Some(g) => g in q.mem.to && m.At(Other(s)).mem == WithNew(q, g, other) && Met(m, s, l, g)
  }

  lemma ScansOnce(n: Net, n2: Net, s: Side, here: int, candidate: Bytes, l: Login, there: int, other: Bytes)
    requires Clean(n2) && n2.left.mem == n.left.mem && n2.right.mem == n.right.mem
    requires Finds(n, s, here, candidate, l) && GoodCandidate(n.At(Other(s)), there, other)
    ensures var b, a := Scan(Other(s), there, other), Scan(s, here, candidate);
            && Enabled(n2, b) && Enabled(Next(n2, b), a)
            && Begun(n, Next(Next(n2, b), a), s, candidate, l, there, other)
  {
    hide DueLogin;
    assert InFlight(EMPTY) == [];
  }

  // ----------------------------------------------------------------------- no run recovers

  /** Otherwise side s keeps its candidate in every run that opens the session so and goes on in it. */
  lemma NeverRecovers(n: Net, cipher: string, s: Side, here: int, candidate: Bytes, l: Login, there: int, other: Bytes,
                      states: seq<Net>, labels: seq<Label>, k: nat)
    requires Reachable(n) && n.left.phase.Idle? && n.right.phase.Idle?
    requires Finds(n, s, here, candidate, l) && GoodCandidate(n.At(Other(s)), there, other)
    requires !AnswerableAfter(n.At(s), n.At(Other(s)), there)
    requires IsRun(states, labels) && states[0] == n && 4 <= k <= |labels|
    requires labels[..4] == Opening(cipher, s, here, candidate, there, other)
    requires forall i :: 4 <= i < |labels| ==> Within(labels[i])
    ensures l in n.At(s).mem.to && states[k].At(s).mem.to == WithNew(n.At(s), l, candidate).to
  {
    hide Reachable, DueLogin, AnswerableAfter, Disciplined, Finds, GoodCandidate, Enabled, Next, Begun;
    var first := OpeningRun(n, cipher, s, here, candidate, l, there, other);
    forall i | 0 <= i < 4 ensures labels[i] == Opening(cipher, s, here, candidate, there, other)[i] {
      assert labels[i] == labels[..4][i];
    }
    SameRun(first, states, Opening(cipher, s, here, candidate, there, other), labels, 4);
    LaterPart(states, labels);
    StaysPending(n, first[4], s, candidate, l, there, other, states[4..], labels[4..], k - 4);
  }

  lemma LaterPart(states: seq<Net>, labels: seq<Label>)
    requires IsRun(states, labels) && |labels| >= 4 && forall i :: 4 <= i < |labels| ==> Within(labels[i])
    ensures IsRun(states[4..], labels[4..]) && forall i :: 0 <= i < |labels[4..]| ==> Within(labels[4..][i])
  {
    hide Enabled, Next;
    forall i | 0 <= i < |labels[4..]|
      ensures Enabled(states[4..][i], labels[4..][i]) && states[4..][i + 1] == Next(states[4..][i], labels[4..][i])
    {
      assert states[4..][i] == states[i + 4] && labels[4..][i] == labels[i + 4] && states[4..][i + 1] == states[i + 4 + 1];
    }
  }

  lemma StaysPending(n: Net, m: Net, s: Side, candidate: Bytes, l: Login, there: int, other: Bytes, states: seq<Net>,
                     labels: seq<Label>, k: nat)
    requires Reachable(n) && Reachable(m) && Begun(n, m, s, candidate, l, there, other)
    requires n.left.phase.Idle? && n.right.phase.Idle? && !AnswerableAfter(n.At(s), n.At(Other(s)), there)
    requires IsRun(states, labels) && states[0] == m && k <= |labels|
    requires forall i :: 0 <= i < |labels| ==> Within(labels[i])
    ensures l in n.At(s).mem.to && states[k].At(s).mem.to == WithNew(n.At(s), l, candidate).to
  {
    hide Reachable, Inv, DueLogin, Enabled, Next, Met, Unanswered.Silent, Rounds.ReplyAgrees, Unanswered.Repairs, Asks;
    var p, q := n.At(s), n.At(Other(s));
    ReachableInv(n);
    match DueLogin(q.mem.order, q.mem.to, there) {
      case None =>
        NotKnown(n, s, there);
        Unanswered.NeverHeard(m, s, l, states, labels, k);
      case Some(g) =>
        SameAnswer(n, m, s, l, g, candidate, there, other);
        Unanswered.NeverRotated(m, s, l, g, states, labels, k);
    }
  }

  /** A password that has been left behind has a candidate, and the scan finds it. */
  lemma NotKnown(n: Net, s: Side, there: int)
    requires Inv(n) && n.At(s).phase.Idle? && !Rounds.ReplyAgrees(n.At(s), n.At(Other(s)))
    requires DueLogin(n.At(Other(s)).mem.order, n.At(Other(s)).mem.to, there).None?
    ensures FirstLogin(n.At(Other(s)).mem.order).Some? ==> FirstLogin(n.At(Other(s)).mem.order).value !in n.At(s).mem.from
  {
    hide Inv, DueLogin;
    var q := n.At(Other(s));
    if q.mem.order != [] {
      var f := FirstLogin(q.mem.order).value;
      BetweenEvents(n, s);
      Unanswered.NotAgreed(n, s, f);
      assert f in q.mem.order;
    }
  }

  /** The scans change neither the passwords nor a candidate there is already. */
  lemma SameAnswer(n: Net, m: Net, s: Side, l: Login, g: Login, candidate: Bytes, there: int, other: Bytes)
    requires Inv(n) && n.At(s).phase.Idle? && n.At(Other(s)).phase.Idle? && Begun(n, m, s, candidate, l, there, other)
    requires DueLogin(n.At(Other(s)).mem.order, n.At(Other(s)).mem.to, there) == Some(g)
    ensures Rounds.ReplyAgrees(m.At(s), m.At(Other(s))) == Rounds.ReplyAgrees(n.At(s), n.At(Other(s)))
    ensures !Rounds.ReplyAgrees(n.At(s), n.At(Other(s))) ==>
              Unanswered.Repairs(m.At(s), m.At(Other(s)), g) == Unanswered.Repairs(n.At(s), n.At(Other(s)), g)
  {
    hide Inv, DueLogin, Unanswered.Silent;
    var p, q := n.At(s), n.At(Other(s));
    if FirstLogin(q.mem.order) == Some(g) && !Rounds.ReplyAgrees(p, q) {
      BetweenEvents(n, s);
      Unanswered.NotAgreed(n, s, g);
    }
  }

  // ------------------------------------------------------------------------- a run that recovers

  lemma ReconnectRecovers(n: Net, cipher: string, s: Side, here: int, candidate: Bytes, l: Login, there: int, other: Bytes)
    returns (states: seq<Net>, labels: seq<Label>)
    requires Reachable(n) && n.left.phase.Idle? && n.right.phase.Idle?
    requires Finds(n, s, here, candidate, l) && GoodCandidate(n.At(Other(s)), there, other)
    requires Takes(n.At(s), n.At(Other(s)), l, candidate, there, other)
    requires AnswerableAfter(n.At(s), n.At(Other(s)), there)
    ensures IsRun(states, labels) && states[0] == n && |labels| >= 4
    ensures labels[..4] == Opening(cipher, s, here, candidate, there, other)
    ensures Disciplined(labels) && InTurn(states, labels, 4) && l in n.At(s).mem.to
    ensures var p, q := n.At(s), n.At(Other(s));
            Rotated(states[|labels|], p.mem.to, q.mem.from, s, l, WithCandidate(p.mem.to[l], candidate))
  {
    hide Reachable, DueLogin, Rotated, Rounds.ReplyAgrees, Disciplined, Unanswered.Repairs;
    var q := n.At(Other(s));
    match DueLogin(q.mem.order, q.mem.to, there) {
      case None => states, labels := AloneRecovers(n, cipher, s, here, candidate, l, there, other);
      case Some(g) => states, labels := MetRecovers(n, cipher, s, here, candidate, l, there, other, g);
    }
  }

  lemma MetRecovers(n: Net, cipher: string, s: Side, here: int, candidate: Bytes, l: Login, there: int, other: Bytes,
                    g: Login)
    returns (states: seq<Net>, labels: seq<Label>)
    requires Reachable(n) && n.left.phase.Idle? && n.right.phase.Idle?
    requires Finds(n, s, here, candidate, l) && GoodCandidate(n.At(Other(s)), there, other)
    requires DueLogin(n.At(Other(s)).mem.order, n.At(Other(s)).mem.to, there) == Some(g)
    requires Takes(n.At(s), n.At(Other(s)), l, candidate, there, other) && Answerable(n.At(s), n.At(Other(s)), g)
    ensures IsRun(states, labels) && states[0] == n && |labels| >= 4
    ensures labels[..4] == Opening(cipher, s, here, candidate, there, other)
    ensures Disciplined(labels) && InTurn(states, labels, 4) && l in n.At(s).mem.to
    ensures var p, q := n.At(s), n.At(Other(s));
            Rotated(states[|labels|], p.mem.to, q.mem.from, s, l, WithCandidate(p.mem.to[l], candidate))
  {
    hide Reachable, DueLogin, Rotated, Rounds.ReplyAgrees, Next, Enabled, Takes, Room, Met, Asks, Recovery.Orderly, Finds,
         Unanswered.Repairs, Unanswered.Silent, Inv;
    ReachableInv(n);
    var first := OpeningRun(n, cipher, s, here, candidate, l, there, other);
    var m := first[4];
    SameAnswer(n, m, s, l, g, candidate, there, other);
    TakesIsRoom(n.At(s), n.At(Other(s)), m.At(s), m.At(Other(s)), l, g, candidate, there, other);
    var c;
    if Rounds.ReplyAgrees(m.At(s), m.At(Other(s))) {
      c := CrossedRecovers(m, s, l, g);
    } else {
      c := RepairedRecovers(m, s, l, g);
    }
    SameRotation(End(c), n.At(s), n.At(Other(s)), m.At(s), m.At(Other(s)), s, l, g, candidate, other);
    states, labels := Prefixed(first, cipher, s, here, candidate, there, other, c);
  }

  lemma FoundKnown(n: Net, s: Side, now: int, candidate: Bytes, l: Login)
    requires Finds(n, s, now, candidate, l)
    ensures l in n.At(s).mem.to && DueLogin(n.At(s).mem.order, n.At(s).mem.to, now) == Some(l)
  {
    hide DueLogin;
  }

  lemma TakesIsRoom(p: Peer, q: Peer, p': Peer, q': Peer, l: Login, g: Login, candidate: Bytes, there: int, other: Bytes)
    requires Takes(p, q, l, candidate, there, other) && DueLogin(q.mem.order, q.mem.to, there) == Some(g)
    requires p'.mem == WithNew(p, l, candidate) && q'.mem == WithNew(q, g, other)
    ensures Room(p', q', l)
  {
    hide DueLogin;
  }

  lemma SameRotation(m: Net, p: Peer, q: Peer, p': Peer, q': Peer, s: Side, l: Login, g: Login, candidate: Bytes,
                     other: Bytes)
    requires l in p.mem.to && g in q.mem.to && p'.mem == WithNew(p, l, candidate) && q'.mem == WithNew(q, g, other)
    ensures Rotated(m, p'.mem.to, q'.mem.from, s, l, p'.mem.to[l])
            <==> Rotated(m, p.mem.to, q.mem.from, s, l, WithCandidate(p.mem.to[l], candidate))
  {
    var e := WithCandidate(p.mem.to[l], candidate);
    if l in m.At(s).mem.to {
      var x := AfterSwitch(e, m.At(s).mem.to[l].stamp);
      assert p'.mem.to[l := x] == p.mem.to[l := x];
    }
  }

  /** The four opening steps before a run of the threads. */
  lemma Prefixed(first: seq<Net>, cipher: string, s: Side, here: int, candidate: Bytes, there: int, other: Bytes, c: Course)
    returns (states: seq<Net>, labels: seq<Label>)
    requires Tidy(c) && |first| == 5 && IsRun(first, Opening(cipher, s, here, candidate, there, other))
    requires first[4] == c.states[0]
    ensures IsRun(states, labels) && states[0] == first[0] && |labels| >= 4 && states[|labels|] == End(c)
    ensures labels[..4] == Opening(cipher, s, here, candidate, there, other)
    ensures Disciplined(labels) && InTurn(states, labels, 4)
  {
    hide Enabled, Next, Reachable, Recovery.Orderly, Disciplined;
    var opening := Opening(cipher, s, here, candidate, there, other);
    states, labels := first[..4] + c.states, opening + c.labels;
    forall i | 0 <= i < |labels| ensures Enabled(states[i], labels[i]) && states[i + 1] == Next(states[i], labels[i]) {
      if i >= 4 {
        assert states[i] == c.states[i - 4] && labels[i] == c.labels[i - 4] && states[i + 1] == c.states[i - 4 + 1];
      } else {
        assert states[i] == first[i] && labels[i] == opening[i] && states[i + 1] == first[i + 1];
      }
    }
    forall i | 4 <= i < |labels| ensures Recovery.Orderly(states[i], labels[i]) {
      assert states[i] == c.states[i - 4] && labels[i] == c.labels[i - 4];
    }
    OpeningDisciplined(cipher, s, here, candidate, there, other);
    StillDisciplined(opening, c.labels);
  }

  /** After the opening no scan is overdue. */
  predicate NothingOwed(first: seq<Label>) {
    Disciplined(first) && !Owes(first, Left, |first|) && !Owes(first, Right, |first|)
  }

  lemma OpeningDisciplined(cipher: string, s: Side, here: int, candidate: Bytes, there: int, other: Bytes)
    ensures NothingOwed(Opening(cipher, s, here, candidate, there, other))
  {
    var first := Opening(cipher, s, here, candidate, there, other);
    forall r: Side ensures !Owes(first, r, 4) {
      assert Owes(first, r, 4) == OwesAfter(first[3], r, Owes(first, r, 3));
      assert Owes(first, r, 3) == OwesAfter(first[2], r, Owes(first, r, 2));
    }
  }

  lemma StillDisciplined(first: seq<Label>, labels: seq<Label>)
    requires NothingOwed(first) && Disciplined(labels)
    ensures Disciplined(first + labels)
  {
    var all := first + labels;
    forall k | 0 <= k < |all| && all[k].Process? ensures !Owes(all, all[k].side, k) {
      if k < |first| {
        OwesPrefix(first, labels, all[k].side, k);
      } else {
        assert all[k].side == Left || all[k].side == Right;
        OwesLater(first, labels, all[k].side, k - |first|);
      }
    }
  }

  lemma {:induction false} OwesLater(first: seq<Label>, labels: seq<Label>, s: Side, k: nat)
    requires k <= |labels| && !Owes(first, s, |first|)
    ensures Owes(first + labels, s, |first| + k) == Owes(labels, s, k)
  {
    if k > 0 {
      assert (first + labels)[|first| + k - 1] == labels[k - 1];
      OwesLater(first, labels, s, k - 1);
    } else {
      OwesPrefix(first, labels, s, |first|);
    }
  }

  // --------------------------------------------------- where only one side has something due

  /** Where every finished turn is followed by its scan at once, no message is taken up before it. */
  lemma {:induction false} Follows(states: seq<Net>, labels: seq<Label>, s: Side, k: nat)
    requires IsRun(states, labels) && Recovery.ScanFollows(states, labels) && k <= |labels|
    requires forall i :: 0 <= i < |labels| ==> Within(labels[i])
    ensures Owes(labels, s, k) ==>
              !states[k].At(s).phase.Idle?
              || (k > 0 && Recovery.EndsEvent(states[k - 1], labels[k - 1]) && labels[k - 1].side == s)
  {
    hide Next, Enabled;
    if k > 0 {
      Follows(states, labels, s, k - 1);
      var n, a := states[k - 1], labels[k - 1];
      assert Enabled(n, a) && states[k - 1 + 1] == Next(n, a);
      if Owes(labels, s, k) { PhaseMoves(n, a, s); }
    }
  }

  lemma PhaseMoves(n: Net, a: Label, s: Side)
    requires Enabled(n, a) && Within(a)
    ensures n.At(s).phase.Idle? || Next(n, a).At(s).phase == n.At(s).phase || ((a.Save? || a.Emit?) && a.side == s)
  {
    hide DueLogin, Peers.Process, ChallengeEnvelope, Opened, Internal, External, OpenKey, SendLogin, GoodCandidate, Sent;
  }

  lemma ScansDiscipline(states: seq<Net>, labels: seq<Label>)
    requires IsRun(states, labels) && Recovery.ScanFollows(states, labels)
    requires forall i :: 0 <= i < |labels| ==> Within(labels[i])
    ensures Disciplined(labels)
  {
    hide Next, Recovery.EndsEvent;
    forall k | 0 <= k < |labels| && labels[k].Process? ensures !Owes(labels, labels[k].side, k) {
      assert Enabled(states[k], labels[k]);
      Follows(states, labels, labels[k].side, k);
    }
  }

  lemma AloneRecovers(n: Net, cipher: string, s: Side, here: int, candidate: Bytes, l: Login, there: int, other: Bytes)
    returns (states: seq<Net>, labels: seq<Label>)
    requires Reachable(n) && n.left.phase.Idle? && n.right.phase.Idle?
    requires Finds(n, s, here, candidate, l) && l in n.At(Other(s)).mem.from
    requires DueLogin(n.At(Other(s)).mem.order, n.At(Other(s)).mem.to, there).None?
    requires Rounds.ReplyAgrees(n.At(s), n.At(Other(s)))
    ensures IsRun(states, labels) && states[0] == n && |labels| >= 4
    ensures labels[..4] == Opening(cipher, s, here, candidate, there, other)
    ensures Disciplined(labels) && InTurn(states, labels, 4) && l in n.At(s).mem.to
    ensures var p, q := n.At(s), n.At(Other(s));
            Rotated(states[|labels|], p.mem.to, q.mem.from, s, l, WithCandidate(p.mem.to[l], candidate))
  {
    hide Reachable, DueLogin, Rotated, Rounds.ReplyAgrees, Disciplined, Next, Enabled, Recovery.IsRound, Recovery.AtRest,
         Recovery.Recovered, Recovery.RoundOf, Recovery.ScanFollows, Recovery.Orderly;
    states, labels := Recovery.ReconnectAlone(n, cipher, s, here, there, candidate, other, l);
    var first := labels[..4];
    assert labels[0] == first[0] && labels[1] == first[1] && labels[2] == first[2] && labels[3] == first[3];
    assert states[0 + 1] == Next(states[0], labels[0]) && states[1 + 1] == Next(states[1], labels[1])
           && states[2 + 1] == Next(states[2], labels[2]);
    OpeningKeeps(n, cipher, s, there, other);
    AloneRotates(states[3..], labels[3..], s, l, n.At(s), n.At(Other(s)), candidate);
    AloneDisciplined(states, labels, cipher, s, here, candidate, there, other);
  }

  /** Up to the first scan of s the credentials are as they were. */
  lemma OpeningKeeps(n: Net, cipher: string, s: Side, there: int, other: Bytes)
    requires Enabled(n, Disconnect) && Enabled(Next(n, Disconnect), Connect(cipher))
    requires var n2 := Next(Next(n, Disconnect), Connect(cipher)); Enabled(n2, Scan(Other(s), there, other))
    requires DueLogin(n.At(Other(s)).mem.order, n.At(Other(s)).mem.to, there).None?
    ensures var n3 := Next(Next(Next(n, Disconnect), Connect(cipher)), Scan(Other(s), there, other));
            n3.At(s).mem == n.At(s).mem && n3.At(Other(s)).mem == n.At(Other(s)).mem
  {
    hide DueLogin;
  }

  /** What a round that has come to rest has done, in the terms of a rotation. */
  lemma AloneRotates(states: seq<Net>, labels: seq<Label>, s: Side, l: Login, p: Peer, q: Peer, candidate: Bytes)
    requires Recovery.IsRound(states, labels, s, l) && Recovery.AtRest(states[|labels|], s)
    requires states[0].At(s).mem == p.mem && states[0].At(Other(s)).mem == q.mem
    requires labels[0].Scan? && labels[0].candidate == candidate
    requires l in p.mem.to
    ensures states[|labels|].At(s).phase.Idle?
    ensures Rounds.ReplyAgrees(p, q)
            <==> Rotated(states[|labels|], p.mem.to, q.mem.from, s, l, WithCandidate(p.mem.to[l], candidate))
  {
    hide Reachable, DueLogin, Rotated, Rounds.ReplyAgrees, Next, Enabled, Recovery.Quiet, Recovery.Recovered, Recovery.Settled,
         Recovery.CanStart, Recovery.Undisturbed, Recovery.Unanswered, Recovery.IdsAt, Recovery.Steps, Recovery.Advances;
    Recovery.RoundEnds(states, labels, s, l);
    Recovery.RestIsSettled(states, labels, s, l);
    var z := Recovery.RoundOf(states[0], s, labels[0], l);
    SameReply(z.p, z.q, p, q);
    RecoveredIsRotated(states[|labels|], s, z);
  }

  lemma SameReply(p: Peer, q: Peer, p': Peer, q': Peer)
    requires p.mem == p'.mem && q.mem == q'.mem
    ensures Rounds.ReplyAgrees(p, q) == Rounds.ReplyAgrees(p', q')
  {}

  lemma RecoveredIsRotated(n: Net, s: Side, z: Rounds.Round)
    requires n.At(s).phase.Idle?
    ensures Recovery.Recovered(n, s, z) ==> Rotated(n, z.p.mem.to, z.q.mem.from, s, z.login, z.entry)
    ensures Recovery.Unanswered(n, s, z) ==> !Rotated(n, z.p.mem.to, z.q.mem.from, s, z.login, z.entry)
  {
    if Recovery.Recovered(n, s, z) {
      var q := n.At(Other(s));
      assert q.mem.from == z.q.mem.from[z.login := q.mem.from[z.login]];
    }
  }

  lemma AloneDisciplined(states: seq<Net>, labels: seq<Label>, cipher: string, s: Side, here: int, candidate: Bytes,
                         there: int, other: Bytes)
    requires IsRun(states, labels) && |labels| >= 4 && labels[..4] == Opening(cipher, s, here, candidate, there, other)
    requires IsRun(states[3..], labels[3..]) && Recovery.ScanFollows(states[3..], labels[3..])
    requires forall i :: 4 <= i < |labels| ==> Recovery.Orderly(states[i], labels[i])
    ensures Disciplined(labels)
  {
    hide Next, Enabled, Recovery.ScanFollows;
    var first, later := labels[..4], labels[3..];
    assert later[0] == first[3];
    forall i | 0 <= i < |later| ensures Within(later[i]) {
      assert later[i] == labels[i + 3];
      if i > 0 { assert Recovery.Orderly(states[i + 3], labels[i + 3]); }
    }
    ScansDiscipline(states[3..], later);
    AfterScan(later);
    assert later[1..] == labels[4..];
    OpeningDisciplined(cipher, s, here, candidate, there, other);
    StillDisciplined(first, labels[4..]);
    assert first + labels[4..] == labels;
  }

  lemma OneScan(labels: seq<Label>, s: Side)
    requires |labels| == 1 && labels[0].Scan?
    ensures !Owes(labels, s, |labels|)
  {
    assert !Owes(labels, s, 0);
  }

  lemma AfterScan(labels: seq<Label>)
    requires Disciplined(labels) && labels != [] && labels[0].Scan?
    ensures Disciplined(labels[1..])
  {
    var first, rest := labels[..1], labels[1..];
    assert first + rest == labels;
    forall k | 0 <= k < |rest| && rest[k].Process? ensures !Owes(rest, rest[k].side, k) {
      assert labels[k + 1] == rest[k];
      OneScan(first, rest[k].side);
      OwesLater(first, rest, rest[k].side, k);
    }
  }
}
