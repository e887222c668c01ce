/** The message queues of src/sync/queue.c under concurrency: any number of queues over one pool of cells,
    any number of threads pushing and pulling, and any interleaving of the steps that a mutex or a semaphore
    makes indivisible. A flush does not run beside them. */
module QueueRuns {
  import opened Basics
  import opened CountedList
  import opened MessageQueue

  type Thread = nat
  type QueueId = nat
  type CellId = nat

  /** How far a thread is in a push or a pull; k is the rank of the message in its queue. */
  datatype Hand =
    | Resting
    | Holding(q: QueueId, m: Msg, c: CellId)
    | Ready(q: QueueId, m: Msg, c: CellId)
    | Inserted(q: QueueId)
    | Passed(q: QueueId)
    | Extracted(q: QueueId, c: CellId, k: nat)
    | Copied(q: QueueId, c: CellId, k: nat, m: Msg)

  /** The number of allocated cells is the length of their sequence. Per queue: the list, the semaphore, what
      has ever been inserted and how many messages have left. */
  datatype System = System(
    cells: seq<Msg>, pool: seq<CellId>,
    list: map<QueueId, seq<CellId>>, sem: map<QueueId, nat>,
    pushed: map<QueueId, seq<Msg>>, gone: map<QueueId, nat>,
    hands: map<Thread, Hand>)

  datatype Label =
    | Take(t: Thread, q: QueueId, m: Msg)
    | Fill(t: Thread)
    | Insert(t: Thread)
    | Signal(t: Thread)
    | Wait(t: Thread, q: QueueId)
    | Extract(t: Thread)
    | Copy(t: Thread)
    | Recycle(t: Thread)

  predicate WellFormed(s: System) {
    && s.sem.Keys == s.list.Keys && s.pushed.Keys == s.list.Keys && s.gone.Keys == s.list.Keys
    && forall t :: t in s.hands ==> GoodHand(s, s.hands[t])
  }

  predicate GoodHand(s: System, h: Hand) {
    && (!h.Resting? ==> h.q in s.list)
    && (HoldsCell(h) ==> h.c < |s.cells|)
  }

  predicate HoldsCell(h: Hand) {
    h.Holding? || h.Ready? || h.Extracted? || h.Copied?
  }

  predicate Enabled(s: System, a: Label)
    requires WellFormed(s)
  {
    && a.t in s.hands
    && var h := s.hands[a.t];
       match a
       case Take(_, q, _) => h.Resting? && q in s.list
       case Fill(_) => h.Holding?
       case Insert(_) => h.Ready?
       case Signal(_) => h.Inserted?
       case Wait(_, q) => h.Resting? && q in s.list && s.sem[q] > 0
       case Extract(_) => h.Passed?
       case Copy(_) => h.Extracted?
       case Recycle(_) => h.Copied?
  }

  const BLANK := Msg(None, 0, 0, true, 0, 0)

  function Next(s: System, a: Label): System
    requires WellFormed(s) && Enabled(s, a)
  {
    var h := s.hands[a.t];
    match a
    case Take(t, q, m) =>
      if s.pool == [] then s.(cells := s.cells + [BLANK], hands := s.hands[t := Holding(q, m, |s.cells|)])
      else s.(pool := s.pool[1..], hands := s.hands[t := Holding(q, m, s.pool[0])])
    case Fill(t) => s.(cells := s.cells[h.c := Normalized(h.m)], hands := s.hands[t := Ready(h.q, h.m, h.c)])
    case Insert(t) =>
      s.(list := s.list[h.q := s.list[h.q] + [h.c]], pushed := s.pushed[h.q := s.pushed[h.q] + [Normalized(h.m)]],
         hands := s.hands[t := Inserted(h.q)])
    case Signal(t) => s.(sem := s.sem[h.q := s.sem[h.q] + 1], hands := s.hands[t := Resting])
    case Wait(t, q) => s.(sem := s.sem[q := s.sem[q] - 1], hands := s.hands[t := Passed(q)])
    case Extract(t) =>
      var cells := s.list[h.q];
      if cells == [] then s.(hands := s.hands[t := Resting])
      else s.(list := s.list[h.q := cells[1..]], gone := s.gone[h.q := s.gone[h.q] + 1],
              hands := s.hands[t := Extracted(h.q, cells[0], s.gone[h.q])])
    case Copy(t) => s.(hands := s.hands[t := Copied(h.q, h.c, h.k, s.cells[h.c])])
    case Recycle(t) =>
      s.(cells := s.cells[h.c := BLANK.(attrib := s.cells[h.c].attrib)], pool := s.pool + [h.c],
         hands := s.hands[t := Resting])
  }

  predicate Initial(s: System) {
    && WellFormed(s) && s.cells == [] && s.pool == []
    && (forall q :: q in s.list ==> s.list[q] == [] && s.sem[q] == 0 && s.pushed[q] == [] && s.gone[q] == 0)
    && (forall t :: t in s.hands ==> s.hands[t] == Resting)
  }

  // ----------------------------------------------------- a cell is in exactly one place

  datatype Place = InPool | InQueue(q: QueueId) | InHand(t: Thread)

  predicate Holds(h: Hand, c: CellId) {
    HoldsCell(h) && h.c == c
  }

  predicate At(s: System, p: Place, c: CellId) {
    match p
    case InPool => c in s.pool
    case InQueue(q) => q in s.list && c in s.list[q]
    case InHand(t) => t in s.hands && Holds(s.hands[t], c)
  }

  /** w says for every allocated cell where it is, and no list has it twice. */
  ghost predicate Placed(s: System, w: seq<Place>) {
    && |w| == |s.cells|
    && (forall c, p :: 0 <= c < |w| ==> (At(s, p, c) <==> p == w[c]))
    && (forall c :: c in s.pool ==> c < |s.cells|)
    && (forall q, c :: q in s.list && c in s.list[q] ==> c < |s.cells|)
    && NoDuplicates(s.pool) && (forall q :: q in s.list ==> NoDuplicates(s.list[q]))
  }

  lemma HeadGone(s: seq<CellId>)
    requires s != [] && NoDuplicates(s)
    ensures NoDuplicates(s[1..]) && forall x :: x in s[1..] <==> x in s && x != s[0]
  {
    forall x | x in s && x != s[0] ensures x in s[1..] {
      var k :| 0 <= k < |s| && s[k] == x;
      assert s[1..][k - 1] == x;
    }
  }

  lemma TailAdded(s: seq<CellId>, c: CellId)
    requires NoDuplicates(s) && c !in s
    ensures NoDuplicates(s + [c]) && forall x :: x in s + [c] <==> x in s || x == c
  {}

  /** The cell x moves from one place to another and every other cell stays. */
  ghost predicate Moves(s: System, s': System, x: CellId, source: Place, target: Place) {
    forall c: CellId, p :: At(s', p, c) <==> (At(s, p, c) && !(c == x && p == source)) || (c == x && p == target)
  }

  predicate ListsGood(s: System) {
    && (forall c :: c in s.pool ==> c < |s.cells|)
    && (forall q, c :: q in s.list && c in s.list[q] ==> c < |s.cells|)
    && NoDuplicates(s.pool) && (forall q :: q in s.list ==> NoDuplicates(s.list[q]))
  }

  lemma MovedPlaced(s: System, s': System, w: seq<Place>, x: CellId, source: Place, target: Place)
    requires Placed(s, w) && |s'.cells| == |s.cells| && x < |s.cells| && ListsGood(s')
    requires At(s, source, x) && Moves(s, s', x, source, target)
    ensures Placed(s', w[x := target])
  {
    hide At;
    var w' := w[x := target];
    forall c, p | 0 <= c < |w'| ensures At(s', p, c) <==> p == w'[c] {
      assert At(s, p, c) <==> p == w[c];
    }
  }

  lemma StayPlaced(s: System, s': System, w: seq<Place>)
    requires Placed(s, w) && |s'.cells| == |s.cells| && s'.pool == s.pool && s'.list == s.list
    requires s'.hands.Keys == s.hands.Keys
    requires forall t, c :: t in s.hands ==> (Holds(s'.hands[t], c) <==> Holds(s.hands[t], c))
    ensures Placed(s', w)
  {
    forall c, p | 0 <= c < |w| ensures At(s', p, c) <==> p == w[c] {
      assert At(s, p, c) <==> p == w[c];
    }
  }

  lemma TakePlaced(s: System, a: Label, w: seq<Place>) returns (w': seq<Place>)
    requires WellFormed(s) && Enabled(s, a) && a.Take? && Placed(s, w)
    ensures Placed(Next(s, a), w')
  {
    var s' := Next(s, a);
    if s.pool == [] {
      w' := w + [InHand(a.t)];
      assert forall p :: !At(s, p, |s.cells|);
      forall c, p | 0 <= c < |w'| ensures At(s', p, c) <==> p == w'[c] {
        assert c < |w| ==> (At(s, p, c) <==> p == w[c]);
      }
    } else {
      var x := s.pool[0];
      HeadGone(s.pool);
      assert x in s.pool && At(s, InPool, x);
      w' := w[x := InHand(a.t)];
      MovedPlaced(s, s', w, x, InPool, InHand(a.t));
    }
  }

  lemma InsertPlaced(s: System, a: Label, w: seq<Place>) returns (w': seq<Place>)
    requires WellFormed(s) && Enabled(s, a) && a.Insert? && Placed(s, w)
    ensures Placed(Next(s, a), w')
  {
    var s', h := Next(s, a), s.hands[a.t];
    assert At(s, InHand(a.t), h.c) && !At(s, InQueue(h.q), h.c);
    TailAdded(s.list[h.q], h.c);
    w' := w[h.c := InQueue(h.q)];
    MovedPlaced(s, s', w, h.c, InHand(a.t), InQueue(h.q));
  }

  lemma ExtractPlaced(s: System, a: Label, w: seq<Place>) returns (w': seq<Place>)
    requires WellFormed(s) && Enabled(s, a) && a.Extract? && Placed(s, w)
    ensures Placed(Next(s, a), w')
  {
    var s', h := Next(s, a), s.hands[a.t];
    if s.list[h.q] == [] {
      StayPlaced(s, s', w);
      w' := w;
    } else {
      var x := s.list[h.q][0];
      HeadGone(s.list[h.q]);
      assert x in s.list[h.q] && At(s, InQueue(h.q), x);
      w' := w[x := InHand(a.t)];
      MovedPlaced(s, s', w, x, InQueue(h.q), InHand(a.t));
    }
  }

  lemma RecyclePlaced(s: System, a: Label, w: seq<Place>) returns (w': seq<Place>)
    requires WellFormed(s) && Enabled(s, a) && a.Recycle? && Placed(s, w)
    ensures Placed(Next(s, a), w')
  {
    var s', h := Next(s, a), s.hands[a.t];
    assert At(s, InHand(a.t), h.c) && !At(s, InPool, h.c);
    TailAdded(s.pool, h.c);
    w' := w[h.c := InPool];
    MovedPlaced(s, s', w, h.c, InHand(a.t), InPool);
  }

  lemma StepPlaced(s: System, a: Label, w: seq<Place>) returns (w': seq<Place>)
    requires WellFormed(s) && Enabled(s, a) && Placed(s, w)
    ensures Placed(Next(s, a), w')
  {
    hide Placed;
    match a
    case Take(_, _, _) => w' := TakePlaced(s, a, w);
    case Insert(_) => w' := InsertPlaced(s, a, w);
    case Extract(_) => w' := ExtractPlaced(s, a, w);
    case Recycle(_) => w' := RecyclePlaced(s, a, w);
    case _ => StayPlaced(s, Next(s, a), w); w' := w;
  }

  lemma StepWellFormed(s: System, a: Label, w: seq<Place>)
    requires WellFormed(s) && Enabled(s, a) && Placed(s, w)
    ensures WellFormed(Next(s, a))
  {
    hide NoDuplicates;
    if a.Extract? && s.list[s.hands[a.t].q] != [] { assert s.list[s.hands[a.t].q][0] in s.list[s.hands[a.t].q]; }
    if a.Take? && s.pool != [] { assert s.pool[0] in s.pool; }
  }

  // ------------------------------------------------ messages in the order of insertion

  predicate OrderGood(s: System)
    requires WellFormed(s) && ListsGood(s)
  {
    && (forall q :: q in s.list ==> QueueGood(s, q))
    && (forall t :: t in s.hands ==> HandGood(s, s.hands[t]))
    && (forall t, u :: t in s.hands && u in s.hands && t != u ==> OtherRank(s.hands[t], s.hands[u]))
  }

  /** The cells of a queue hold, in order, the inserted messages that have not left. */
  predicate QueueGood(s: System, q: QueueId)
    requires WellFormed(s) && ListsGood(s) && q in s.list
  {
    && s.gone[q] + |s.list[q]| == |s.pushed[q]|
    && forall i :: 0 <= i < |s.list[q]| ==>
                     s.list[q][i] in s.list[q] && s.cells[s.list[q][i]] == s.pushed[q][s.gone[q] + i]
  }

  predicate HandGood(s: System, h: Hand)
    requires WellFormed(s) && GoodHand(s, h)
  {
    match h
    case Ready(q, m, c) => s.cells[c] == Normalized(m)
    case Extracted(q, c, k) => k < s.gone[q] <= |s.pushed[q]| && s.cells[c] == s.pushed[q][k]
    case Copied(q, c, k, m) => k < s.gone[q] <= |s.pushed[q]| && m == s.pushed[q][k]
    case _ => true
  }

  predicate Has(h: Hand) {
    h.Extracted? || h.Copied?
  }

  /** No two threads have the message of one rank in hand. */
  predicate OtherRank(h: Hand, g: Hand) {
    Has(h) && Has(g) && h.q == g.q ==> h.k != g.k
  }

  /** The cell in a thread's hand is in no list and no other hand. */
  lemma InOneHand(s: System, w: seq<Place>, t: Thread)
    requires WellFormed(s) && Placed(s, w) && t in s.hands && HoldsCell(s.hands[t])
    ensures forall q :: q in s.list ==> s.hands[t].c !in s.list[q]
    ensures forall u :: u in s.hands && u != t && HoldsCell(s.hands[u]) ==> s.hands[u].c != s.hands[t].c
    ensures s.hands[t].c !in s.pool
  {
    var c := s.hands[t].c;
    assert At(s, InHand(t), c);
    forall q | q in s.list ensures c !in s.list[q] { assert At(s, InQueue(q), c) <==> InQueue(q) == w[c]; }
    forall u | u in s.hands && u != t && HoldsCell(s.hands[u]) ensures s.hands[u].c != c {
      assert At(s, InHand(u), c) <==> InHand(u) == w[c];
    }
    assert At(s, InPool, c) <==> InPool == w[c];
  }

  lemma SameQueue(s: System, s': System, q: QueueId)
    requires WellFormed(s) && ListsGood(s) && WellFormed(s') && ListsGood(s') && q in s.list && q in s'.list
    requires s'.list[q] == s.list[q] && s'.pushed[q] == s.pushed[q] && s'.gone[q] == s.gone[q]
              && |s.cells| <= |s'.cells|
    requires forall c :: c in s.list[q] ==> s'.cells[c] == s.cells[c]
    ensures QueueGood(s, q) ==> QueueGood(s', q)
  {
    hide NoDuplicates;
  }

  /** A step that writes no cell of a queue or of another thread and changes no list. */
  lemma PrivateOrder(s: System, s': System, t: Thread)
    requires WellFormed(s) && ListsGood(s) && OrderGood(s) && WellFormed(s') && ListsGood(s')
    requires s'.list == s.list && s'.pushed == s.pushed && s'.gone == s.gone && t in s.hands
    requires s'.hands.Keys == s.hands.Keys && (forall u :: u in s.hands && u != t ==> s'.hands[u] == s.hands[u])
    requires |s.cells| <= |s'.cells|
    requires forall q, c :: q in s.list && c in s.list[q] ==> s'.cells[c] == s.cells[c]
    requires forall u :: u in s.hands && u != t && HoldsCell(s.hands[u]) ==>
              s'.cells[s.hands[u].c] == s.cells[s.hands[u].c]
    requires HandGood(s', s'.hands[t])
    requires Has(s'.hands[t]) ==> Has(s.hands[t]) && s'.hands[t].q == s.hands[t].q && s'.hands[t].k == s.hands[t].k
    ensures OrderGood(s')
  {
    hide NoDuplicates, QueueGood;
    forall q | q in s'.list ensures QueueGood(s', q) {
      assert QueueGood(s, q);
      SameQueue(s, s', q);
    }
    forall u | u in s'.hands ensures HandGood(s', s'.hands[u]) {
      if u != t { assert HandGood(s, s.hands[u]); }
    }
    forall u, v | u in s'.hands && v in s'.hands && u != v ensures OtherRank(s'.hands[u], s'.hands[v]) {
      assert OtherRank(s.hands[u], s.hands[v]);
    }
  }

  lemma InsertOrder(s: System, a: Label)
    requires WellFormed(s) && Enabled(s, a) && a.Insert? && ListsGood(s) && OrderGood(s)
    requires WellFormed(Next(s, a)) && ListsGood(Next(s, a))
    ensures OrderGood(Next(s, a))
  {
    hide QueueGood, NoDuplicates, ListsGood;
    var s', h := Next(s, a), s.hands[a.t];
    assert HandGood(s, h);
    forall q | q in s'.list ensures QueueGood(s', q) {
      assert QueueGood(s, q);
      InsertQueue(s, a, q);
    }
    forall u | u in s'.hands ensures HandGood(s', s'.hands[u]) { assert HandGood(s, s.hands[u]); }
    forall u, v | u in s'.hands && v in s'.hands && u != v ensures OtherRank(s'.hands[u], s'.hands[v]) {
      assert OtherRank(s.hands[u], s.hands[v]);
    }
  }

  lemma InsertQueue(s: System, a: Label, q: QueueId)
    requires WellFormed(s) && Enabled(s, a) && a.Insert? && ListsGood(s) && q in s.list && QueueGood(s, q)
    requires HandGood(s, s.hands[a.t]) && WellFormed(Next(s, a)) && ListsGood(Next(s, a))
    ensures QueueGood(Next(s, a), q)
  {
    hide NoDuplicates;
  }

  lemma ExtractOrder(s: System, a: Label)
    requires WellFormed(s) && Enabled(s, a) && a.Extract? && ListsGood(s) && OrderGood(s)
    requires WellFormed(Next(s, a)) && ListsGood(Next(s, a)) && s.list[s.hands[a.t].q] != []
    ensures OrderGood(Next(s, a))
  {
    hide QueueGood, NoDuplicates, HandGood, OtherRank, ListsGood;
    var s' := Next(s, a);
    forall r | r in s'.list ensures QueueGood(s', r) {
      ExtractKeepsQueues(s, a, r);
    }
    forall u | u in s'.hands ensures HandGood(s', s'.hands[u]) { ExtractHand(s, a, u); }
    forall u, v | u in s'.hands && v in s'.hands && u != v ensures OtherRank(s'.hands[u], s'.hands[v]) {
      ExtractRanks(s, a, u, v);
    }
  }

  lemma ExtractKeepsQueues(s: System, a: Label, r: QueueId)
    requires WellFormed(s) && Enabled(s, a) && a.Extract? && ListsGood(s) && OrderGood(s)
    requires WellFormed(Next(s, a)) && ListsGood(Next(s, a)) && s.list[s.hands[a.t].q] != [] && r in Next(s, a).list
    ensures QueueGood(Next(s, a), r)
  {
    hide QueueGood, NoDuplicates, ListsGood, HandGood, OtherRank;
    assert QueueGood(s, r);
    ExtractQueue(s, a, r);
  }

  /** The message taken off is the oldest one that has not left. */
  lemma ExtractHand(s: System, a: Label, u: Thread)
    requires WellFormed(s) && Enabled(s, a) && a.Extract? && ListsGood(s) && OrderGood(s)
    requires WellFormed(Next(s, a)) && ListsGood(Next(s, a)) && s.list[s.hands[a.t].q] != [] && u in Next(s, a).hands
    ensures HandGood(Next(s, a), Next(s, a).hands[u])
  {
    hide QueueGood, NoDuplicates, ListsGood, OtherRank;
    var q := s.hands[a.t].q;
    assert QueueGood(s, q) && HandGood(s, s.hands[u]);
    HeadOfQueue(s, q);
  }

  /** Its rank is one that nobody has in hand. */
  lemma ExtractRanks(s: System, a: Label, u: Thread, v: Thread)
    requires WellFormed(s) && Enabled(s, a) && a.Extract? && ListsGood(s) && OrderGood(s)
    requires s.list[s.hands[a.t].q] != [] && u in s.hands && v in s.hands && u != v
    requires u in Next(s, a).hands && v in Next(s, a).hands
    ensures OtherRank(Next(s, a).hands[u], Next(s, a).hands[v])
  {
    hide QueueGood, NoDuplicates, ListsGood;
    assert OtherRank(s.hands[u], s.hands[v]) && HandGood(s, s.hands[u]) && HandGood(s, s.hands[v]);
  }

  lemma HeadOfQueue(s: System, q: QueueId)
    requires WellFormed(s) && ListsGood(s) && q in s.list && QueueGood(s, q) && s.list[q] != []
    ensures s.list[q][0] < |s.cells| && s.gone[q] < |s.pushed[q]| && s.cells[s.list[q][0]] == s.pushed[q][s.gone[q]]
  {
    assert s.cells[s.list[q][0]] == s.pushed[q][s.gone[q] + 0];
  }

  lemma ExtractQueue(s: System, a: Label, q: QueueId)
    requires WellFormed(s) && Enabled(s, a) && a.Extract? && ListsGood(s) && q in s.list && QueueGood(s, q)
    requires WellFormed(Next(s, a)) && ListsGood(Next(s, a))
    ensures QueueGood(Next(s, a), q)
  {
    hide NoDuplicates;
    var s' := Next(s, a);
    assert s'.list[q] != s.list[q] ==> forall i :: 0 <= i < |s'.list[q]| ==> s'.list[q][i] == s.list[q][i + 1];
  }

  lemma NothingOrder(s: System, a: Label)
    requires WellFormed(s) && Enabled(s, a) && a.Extract? && ListsGood(s) && OrderGood(s)
    requires WellFormed(Next(s, a)) && ListsGood(Next(s, a)) && s.list[s.hands[a.t].q] == []
    ensures OrderGood(Next(s, a))
  {
    hide OrderGood, NoDuplicates;
    PrivateOrder(s, Next(s, a), a.t);
  }

  lemma StepOrder(s: System, a: Label, w: seq<Place>)
    requires WellFormed(s) && Enabled(s, a) && Placed(s, w) && OrderGood(s)
    requires WellFormed(Next(s, a)) && ListsGood(Next(s, a))
    ensures OrderGood(Next(s, a))
  {
    hide OrderGood, Placed, ListsGood, Next;
    var h := s.hands[a.t];
    PlacedLists(s, w);
    match a
    case Insert(_) => InsertOrder(s, a);
    case Extract(_) => if s.list[h.q] == [] { NothingOrder(s, a); } else { ExtractOrder(s, a); }
    case _ => QuietOrder(s, a, w);
  }

  lemma QuietOrder(s: System, a: Label, w: seq<Place>)
    requires WellFormed(s) && Enabled(s, a) && Placed(s, w) && ListsGood(s) && OrderGood(s)
    requires WellFormed(Next(s, a)) && ListsGood(Next(s, a)) && !a.Insert? && !a.Extract?
    ensures OrderGood(Next(s, a))
  {
    hide OrderGood, Placed, NoDuplicates;
    var s' := Next(s, a);
    HandOf(s, a.t);
    if a.Fill? || a.Recycle? { InOneHand(s, w, a.t); }
    PrivateOrder(s, s', a.t);
  }

  lemma HandOf(s: System, t: Thread)
    requires WellFormed(s) && ListsGood(s) && OrderGood(s) && t in s.hands
    ensures HandGood(s, s.hands[t])
  {}

  // ---------------------------------------------------------- semaphore and list

  function Threads(s: System, h: Hand): set<Thread> {
    set t | t in s.hands && s.hands[t] == h
  }

  /** The semaphore runs behind the list by the pushes that have not signalled yet and the pulls that have
      passed it and not extracted yet. */
  predicate CountGood(s: System, q: QueueId)
    requires WellFormed(s) && q in s.list
  {
    |s.list[q]| == s.sem[q] + |Threads(s, Inserted(q))| + |Threads(s, Passed(q))|
  }

  lemma ThreadsMove(s: System, s': System, t: Thread, h: Hand)
    requires t in s.hands && t in s'.hands && s'.hands == s.hands[t := s'.hands[t]]
    ensures |Threads(s', h)| == |Threads(s, h)| + (if s'.hands[t] == h then 1 else 0) - (if s.hands[t] == h
              then 1 else 0)
  {
    SameOthers(s, s', t, h);
    Apart(Threads(s, h), t);
    Apart(Threads(s', h), t);
  }

  lemma SameOthers(s: System, s': System, t: Thread, h: Hand)
    requires t in s.hands && t in s'.hands && s'.hands == s.hands[t := s'.hands[t]]
    ensures Threads(s', h) - {t} == Threads(s, h) - {t}
  {}

  lemma Apart(threads: set<Thread>, t: Thread)
    ensures |threads| == |threads - {t}| + if t in threads then 1 else 0
  {
    if t in threads { assert threads == (threads - {t}) + {t}; }
  }

  lemma StepCount(s: System, a: Label, q: QueueId)
    requires WellFormed(s) && Enabled(s, a) && q in s.list && CountGood(s, q) && WellFormed(Next(s, a))
    ensures CountGood(Next(s, a), q)
  {
    var s' := Next(s, a);
    ThreadsMove(s, s', a.t, Inserted(q));
    ThreadsMove(s, s', a.t, Passed(q));
    if a.Extract? {
      var h := s.hands[a.t];
      if h.q == q { PassedFinds(s, a.t); }
      assert h.q != q ==> s'.list[q] == s.list[q];
    }
  }

  lemma PassedFinds(s: System, t: Thread)
    requires WellFormed(s) && t in s.hands && s.hands[t].Passed? && CountGood(s, s.hands[t].q)
    ensures s.list[s.hands[t].q] != []
  {
    assert t in Threads(s, Passed(s.hands[t].q));
  }

  // --------------------------------------------------------------------- runs

  ghost predicate Inv(s: System) {
    && WellFormed(s) && ListsGood(s) && OrderGood(s)
    && (forall q :: q in s.list ==> CountGood(s, q))
    && exists w :: Placed(s, w)
  }

  lemma InitialInv(s: System)
    requires Initial(s)
    ensures Inv(s)
  {
    hide OrderGood, CountGood, Placed;
    InitialPlaced(s);
    InitialOrder(s);
    forall q | q in s.list ensures CountGood(s, q) { InitialCount(s, q); }
  }

  lemma InitialPlaced(s: System)
    requires Initial(s)
    ensures Placed(s, []) && ListsGood(s)
  {}

  lemma InitialOrder(s: System)
    requires Initial(s) && ListsGood(s)
    ensures OrderGood(s)
  {
    hide NoDuplicates;
  }

  lemma InitialCount(s: System, q: QueueId)
    requires Initial(s) && q in s.list
    ensures CountGood(s, q)
  {
    assert Threads(s, Inserted(q)) == {} && Threads(s, Passed(q)) == {};
  }

  lemma StepKeepsInv(s: System, a: Label)
    requires Inv(s) && Enabled(s, a)
    ensures Inv(Next(s, a))
  {
    hide OrderGood, CountGood, Placed, NoDuplicates, Enabled, Next;
    var w :| Placed(s, w);
    StepWellFormed(s, a, w);
    var w' := StepPlaced(s, a, w);
    PlacedLists(Next(s, a), w');
    StepOrder(s, a, w);
    SameQueues(s, a);
    forall q | q in s.list ensures CountGood(Next(s, a), q) { StepCount(s, a, q); }
  }

  lemma SameQueues(s: System, a: Label)
    requires WellFormed(s) && Enabled(s, a)
    ensures Next(s, a).list.Keys == s.list.Keys
  {}

  lemma PlacedLists(s: System, w: seq<Place>)
    requires Placed(s, w)
    ensures ListsGood(s)
  {}

  ghost predicate IsRun(states: seq<System>, labels: seq<Label>) {
    && |states| == |labels| + 1 && Initial(states[0])
    && forall i :: 0 <= i < |labels| ==>
                     WellFormed(states[i]) && Enabled(states[i], labels[i])
                               && states[i + 1] == Next(states[i], labels[i])
  }

  lemma {:induction false} RunKeepsInv(states: seq<System>, labels: seq<Label>, k: nat)
    requires IsRun(states, labels) && k <= |labels|
    ensures Inv(states[k])
  {
    hide Inv, Enabled, Next;
    if k == 0 {
      InitialInv(states[0]);
    } else {
      RunKeepsInv(states, labels, k - 1);
      StepKeepsInv(states[k - 1], labels[k - 1]);
    }
  }

  /** A thread that has passed the semaphore finds a message, in every interleaving. */
  lemma PullFinds(states: seq<System>, labels: seq<Label>, k: nat)
    requires IsRun(states, labels) && k < |labels| && labels[k].Extract?
    ensures var s := states[k]; s.list[s.hands[labels[k].t].q] != [] && states[k + 1].hands[labels[k].t].Extracted?
  {
    hide Inv, WellFormed;
    RunKeepsInv(states, labels, k);
    TakesOut(states[k], labels[k]);
    assert states[k + 1] == Next(states[k], labels[k]);
  }

  lemma TakesOut(s: System, a: Label)
    requires Inv(s) && Enabled(s, a) && a.Extract?
    ensures s.hands[a.t].q in s.list && s.list[s.hands[a.t].q] != [] && Next(s, a).hands[a.t].Extracted?
  {
    hide Inv, WellFormed;
    ExtractFinds(s, a.t);
  }

  // -------------------------------------------------------------- the order over time

  /** What has ever been inserted into queue q, and how much of it has left. */
  function History(s: System, q: QueueId): seq<Msg> {
    if q in s.pushed then s.pushed[q] else []
  }

  function Departed(s: System, q: QueueId): nat {
    if q in s.gone then s.gone[q] else 0
  }

  function CellAt(s: System, c: CellId): Msg {
    if c < |s.cells| then s.cells[c] else BLANK
  }

  function Contents(s: System, q: QueueId): seq<Msg> {
    if q in s.list then seq(|s.list[q]|, i requires 0 <= i < |s.list[q]| => CellAt(s, s.list[q][i])) else []
  }

  /** The step takes the oldest message off queue q. */
  predicate ExtractsFrom(s: System, a: Label, q: QueueId) {
    a.Extract? && a.t in s.hands && s.hands[a.t] == Passed(q)
  }

  /** The messages the extracting steps among the first k take off queue q, in the order of those steps. */
  function Pulled(states: seq<System>, labels: seq<Label>, q: QueueId, k: nat): seq<Msg>
    requires k <= |labels| < |states|
  {
    if k == 0 then []
    else
      var before := states[k - 1];
      Pulled(states, labels, q, k - 1)
      + if ExtractsFrom(before, labels[k - 1], q) && Contents(before, q) != [] then [Contents(before, q)[0]] else []
  }

  lemma OrderAt(s: System, q: QueueId)
    requires Inv(s)
    ensures Departed(s, q) <= |History(s, q)| && History(s, q)[Departed(s, q)..] == Contents(s, q)
  {
    hide NoDuplicates, CountGood, Placed, HandGood, OtherRank;
    if q in s.list { assert QueueGood(s, q); }
  }

  /** One step: what has been inserted grows only at its end, and what has left only by the oldest message. */
  lemma StepOfQueue(s: System, a: Label, q: QueueId)
    requires Inv(s) && Enabled(s, a)
    ensures History(s, q) <= History(Next(s, a), q)
    ensures Departed(Next(s, a), q) == Departed(s, q) + (if ExtractsFrom(s, a, q) then 1 else 0)
    ensures ExtractsFrom(s, a, q) ==> Contents(s, q) != [] && Departed(s, q) < |History(s, q)|
                                      && Contents(s, q)[0] == History(s, q)[Departed(s, q)]
  {
    hide Inv;
    InvShape(s);
    if ExtractsFrom(s, a, q) {
      ExtractFinds(s, a.t);
      OrderAt(s, q);
      assert History(s, q)[Departed(s, q)..][0] == Contents(s, q)[0];
    }
  }

  lemma InvShape(s: System)
    requires Inv(s)
    ensures WellFormed(s)
  {}

  lemma ExtractFinds(s: System, t: Thread)
    requires Inv(s) && t in s.hands && s.hands[t].Passed?
    ensures s.hands[t].q in s.list && s.list[s.hands[t].q] != []
  {
    hide NoDuplicates, CountGood, Placed, OrderGood;
    PassedFinds(s, t);
  }

  /** First in, first out: at every point of every run what has been inserted into a queue is what has been taken off it
      so far, in that order, followed by what is in its list. Nothing is lost, doubled or overtaken. */
  lemma {:induction false} FirstInFirstOut(states: seq<System>, labels: seq<Label>, q: QueueId, k: nat)
    requires IsRun(states, labels) && k <= |labels|
    ensures History(states[k], q) == Pulled(states, labels, q, k) + Contents(states[k], q)
    ensures Departed(states[k], q) == |Pulled(states, labels, q, k)|
  {
    hide Inv, Enabled, Next, ExtractsFrom, Contents, History, Departed;
    RunKeepsInv(states, labels, k);
    OrderAt(states[k], q);
    if k == 0 {
      StartsEmpty(states[0], q);
    } else {
      FirstInFirstOut(states, labels, q, k - 1);
      var s, a := states[k - 1], labels[k - 1];
      RunKeepsInv(states, labels, k - 1);
      assert Enabled(s, a) && states[k - 1 + 1] == Next(s, a);
      StepOfQueue(s, a, q);
      Grown(History(s, q), History(states[k], q), Pulled(states, labels, q, k - 1), Contents(s, q));
      var taken := Pulled(states, labels, q, k);
      assert taken == History(states[k], q)[..|taken|];
    }
  }

  lemma Grown(h: seq<Msg>, h': seq<Msg>, taken: seq<Msg>, rest: seq<Msg>)
    requires h <= h' && h == taken + rest
    ensures taken == h'[..|taken|] && (rest != [] ==> taken + [rest[0]] == h'[..|taken| + 1])
  {}

  lemma StartsEmpty(s: System, q: QueueId)
    requires Initial(s)
    ensures Contents(s, q) == [] && History(s, q) == [] && Departed(s, q) == 0
  {}

  /** What has been inserted into a queue by one point of a run keeps its place at every later one. */
  lemma {:induction false} HistoryGrows(states: seq<System>, labels: seq<Label>, q: QueueId, i: nat, j: nat)
    requires IsRun(states, labels) && i <= j <= |labels|
    ensures History(states[i], q) <= History(states[j], q) && Departed(states[i], q) <= Departed(states[j], q)
    ensures i < j && ExtractsFrom(states[i], labels[i], q) ==> Departed(states[i], q) < Departed(states[j], q)
    decreases j
  {
    hide Inv, Enabled, Next, ExtractsFrom, Contents, History, Departed;
    if i < j {
      HistoryGrows(states, labels, q, i, j - 1);
      RunKeepsInv(states, labels, j - 1);
      assert Enabled(states[j - 1], labels[j - 1]) && states[j - 1 + 1] == Next(states[j - 1], labels[j - 1]);
      StepOfQueue(states[j - 1], labels[j - 1], q);
    }
  }

  /** The ranks the extracting steps of one queue take rise with time: the m-th of them takes rank m. */
  lemma RanksRise(states: seq<System>, labels: seq<Label>, q: QueueId, i: nat, j: nat)
    requires IsRun(states, labels) && i < j < |labels|
    requires ExtractsFrom(states[i], labels[i], q) && ExtractsFrom(states[j], labels[j], q)
    ensures TakesRank(states[i + 1], labels[i].t, q, |Pulled(states, labels, q, i)|)
    ensures TakesRank(states[j + 1], labels[j].t, q, |Pulled(states, labels, q, j)|)
    ensures |Pulled(states, labels, q, i)| < |Pulled(states, labels, q, j)|
  {
    hide Inv, Pulled, Contents, History, Departed, Next, Enabled, TakesRank;
    HistoryGrows(states, labels, q, i, j);
    FirstInFirstOut(states, labels, q, i);
    FirstInFirstOut(states, labels, q, j);
    Takes(states, labels, q, i);
    Takes(states, labels, q, j);
  }

  predicate TakesRank(s: System, t: Thread, q: QueueId, k: nat) {
    t in s.hands && s.hands[t].Extracted? && s.hands[t].q == q && s.hands[t].k == k
  }

  lemma Takes(states: seq<System>, labels: seq<Label>, q: QueueId, i: nat)
    requires IsRun(states, labels) && i < |labels| && ExtractsFrom(states[i], labels[i], q)
    ensures TakesRank(states[i + 1], labels[i].t, q, Departed(states[i], q))
  {
    hide Inv;
    RunKeepsInv(states, labels, i);
    InvShape(states[i]);
    assert Enabled(states[i], labels[i]) && states[i + 1] == Next(states[i], labels[i]);
    ExtractFinds(states[i], labels[i].t);
  }

  /** A thread that has taken a message off a queue gets, when it copies it, that very message, the next in the order of
      insertion, whatever the other threads do in between. */
  lemma PullReturns(states: seq<System>, labels: seq<Label>, q: QueueId, i: nat, j: nat)
    requires IsRun(states, labels) && i < j < |labels|
    requires ExtractsFrom(states[i], labels[i], q) && labels[j] == Copy(labels[i].t)
    requires forall k :: i < k < j ==> labels[k].t != labels[i].t
    ensures var m := |Pulled(states, labels, q, i)|;
            m < |History(states[i], q)| && Returned(states[j + 1], labels[i].t, q, m, History(states[i], q)[m])
  {
    hide Inv, Pulled, Contents, Next, Enabled, History, Departed, TakesRank, Returned, ExtractsFrom;
    var t := labels[i].t;
    FirstInFirstOut(states, labels, q, i);
    RunKeepsInv(states, labels, i);
    assert Enabled(states[i], labels[i]) && states[i + 1] == Next(states[i], labels[i]);
    StepOfQueue(states[i], labels[i], q);
    HistoryGrows(states, labels, q, i, j);
    Takes(states, labels, q, i);
    HandStays(states, labels, t, q, |Pulled(states, labels, q, i)|, i + 1, j);
    RunKeepsInv(states, labels, j);
    assert Enabled(states[j], labels[j]) && states[j + 1] == Next(states[j], labels[j]);
    Copies(states[j], t, q, |Pulled(states, labels, q, i)|);
  }

  predicate Returned(s: System, t: Thread, q: QueueId, k: nat, m: Msg) {
    t in s.hands && s.hands[t].Copied? && s.hands[t].q == q && s.hands[t].k == k && s.hands[t].m == m
  }

  lemma Copies(s: System, t: Thread, q: QueueId, k: nat)
    requires Inv(s) && TakesRank(s, t, q, k) && Enabled(s, Copy(t))
    ensures k < |History(s, q)| && Returned(Next(s, Copy(t)), t, q, k, History(s, q)[k])
  {
    hide NoDuplicates, QueueGood, CountGood, Placed, OrderGood;
    HandOf(s, t);
  }

  lemma {:induction false} HandStays(states: seq<System>, labels: seq<Label>, t: Thread, q: QueueId, k: nat, i: nat,
                                     j: nat)
    requires IsRun(states, labels) && i <= j <= |labels| && TakesRank(states[i], t, q, k)
    requires forall n :: i <= n < j ==> labels[n].t != t
    ensures TakesRank(states[j], t, q, k)
    decreases j
  {
    hide Enabled, Next, TakesRank;
    if i < j {
      HandStays(states, labels, t, q, k, i, j - 1);
      assert Enabled(states[j - 1], labels[j - 1]) && states[j - 1 + 1] == Next(states[j - 1], labels[j - 1]);
      OtherHands(states[j - 1], labels[j - 1], t, q, k);
    }
  }

  lemma OtherHands(s: System, a: Label, t: Thread, q: QueueId, k: nat)
    requires WellFormed(s) && Enabled(s, a) && a.t != t && TakesRank(s, t, q, k)
    ensures TakesRank(Next(s, a), t, q, k)
  {}

  /** Conservation: every cell ever allocated is in exactly one place, the pool, one queue or one hand. */
  lemma CellsConserved(states: seq<System>, labels: seq<Label>, k: nat, c: CellId)
    requires IsRun(states, labels) && k <= |labels| && c < |states[k].cells|
    ensures exists p :: At(states[k], p, c) && forall p' :: At(states[k], p', c) ==> p' == p
  {
    hide Next, Enabled;
    RunKeepsInv(states, labels, k);
    var s := states[k];
    var w :| Placed(s, w);
    assert At(s, w[c], c);
  }

  // ------------------------------------------------- what goes in comes out

  /** The message thread t was given at its last Take among the first k steps. */
  function LastTaken(labels: seq<Label>, t: Thread, k: nat): Option<(QueueId, Msg)>
    requires k <= |labels|
  {
    if k == 0 then None
    else if labels[k - 1].Take? && labels[k - 1].t == t then Some((labels[k - 1].q, labels[k - 1].m))
    else LastTaken(labels, t, k - 1)
  }

  /** The messages the inserting steps among the first k were given for queue q, in the order of those steps. */
  function Given(labels: seq<Label>, q: QueueId, k: nat): seq<Msg>
    requires k <= |labels|
  {
    if k == 0 then []
    else
      var a := labels[k - 1];
      Given(labels, q, k - 1)
      + if a.Insert? then
          match LastTaken(labels, a.t, k - 1)
          case Some(taken) => (if taken.0 == q then [taken.1] else [])
          case None => []
        else []
  }

  /** A message as its reader gets it: whole, and without a buffer where it has no length. */
  predicate Arrives(m: Msg, given: Msg) {
    if given.length > 0 then m == given
    else m.buf.None? && m.length == 0 && m.prio == given.prio && m.encrypt == given.encrypt && m.mark == given.mark
         && m.attrib == given.attrib
  }

  /** A thread in a push has the message it was given last. */
  lemma {:induction false} HasTaken(states: seq<System>, labels: seq<Label>, t: Thread, k: nat)
    requires IsRun(states, labels) && k <= |labels| && t in states[k].hands
    ensures var h := states[k].hands[t]; Pushing(h) ==> LastTaken(labels, t, k) == Some((h.q, h.m))
  {
    hide WellFormed, Enabled, Next;
    if k == 0 {
      assert states[0].hands[t] == Resting;
    } else {
      var s, a := states[k - 1], labels[k - 1];
      assert WellFormed(s) && Enabled(s, a) && states[k - 1 + 1] == Next(s, a);
      PushingHand(s, a, t);
      HasTaken(states, labels, t, k - 1);
    }
  }

  predicate Pushing(h: Hand) {
    h.Holding? || h.Ready?
  }

  lemma PushingHand(s: System, a: Label, t: Thread)
    requires WellFormed(s) && Enabled(s, a) && t in Next(s, a).hands
    ensures t in s.hands
    ensures var h := Next(s, a).hands[t];
            Pushing(h) ==> if a.Take? && a.t == t then h.q == a.q && h.m == a.m
                           else Pushing(s.hands[t]) && h.q == s.hands[t].q && h.m == s.hands[t].m
  {
    hide WellFormed;
  }

  /** Over every run: what has been inserted into a queue is, one by one, what the pushes were given. */
  lemma {:induction false} HistoryIsGiven(states: seq<System>, labels: seq<Label>, q: QueueId, k: nat)
    requires IsRun(states, labels) && k <= |labels|
    ensures |History(states[k], q)| == |Given(labels, q, k)|
    ensures forall i :: 0 <= i < |History(states[k], q)| ==> Arrives(History(states[k], q)[i], Given(labels, q, k)[i])
  {
    hide Inv, WellFormed, Next, History, Arrives, Given;
    RunKeepsInv(states, labels, k);
    if k == 0 {
      StartsEmpty(states[0], q);
      NoneGiven(labels, q);
    } else {
      RunKeepsInv(states, labels, k - 1);
      InvShape(states[k]);
      InvShape(states[k - 1]);
      HistoryIsGiven(states, labels, q, k - 1);
      var s, a := states[k - 1], labels[k - 1];
      assert Enabled(s, a) && states[k - 1 + 1] == Next(s, a);
      HasTaken(states, labels, a.t, k - 1);
      StepHistory(s, a, q);
      OneGiven(labels, q, k, s.hands[a.t]);
      ReadyToInsert(s, a);
    }
  }

  lemma ReadyToInsert(s: System, a: Label)
    requires WellFormed(s) && Enabled(s, a)
    ensures a.Insert? ==> s.hands[a.t].Ready?
  {}

  lemma NoneGiven(labels: seq<Label>, q: QueueId)
    ensures Given(labels, q, 0) == []
  {}

  lemma OneGiven(labels: seq<Label>, q: QueueId, k: nat, h: Hand)
    requires 0 < k <= |labels|
    requires h.Ready? ==> LastTaken(labels, labels[k - 1].t, k - 1) == Some((h.q, h.m))
    ensures !labels[k - 1].Insert? || (h.Ready? && h.q != q) ==> Given(labels, q, k) == Given(labels, q, k - 1)
    ensures labels[k - 1].Insert? && h.Ready? && h.q == q ==> Given(labels, q, k) == Given(labels, q, k - 1) + [h.m]
  {}

  lemma StepHistory(s: System, a: Label, q: QueueId)
    requires WellFormed(s) && Enabled(s, a)
    ensures q in Next(s, a).list <==> q in s.list
    ensures var h := s.hands[a.t];
            if a.Insert? && h.q == q
            then |History(Next(s, a), q)| == |History(s, q)| + 1 && History(s, q) <= History(Next(s, a), q)
                 && Arrives(History(Next(s, a), q)[|History(s, q)|], h.m)
            else History(Next(s, a), q) == History(s, q)
  {}

  lemma {:induction false} GivenIsTaken(labels: seq<Label>, q: QueueId, k: nat, i: nat) returns (j: nat)
    requires k <= |labels| && i < |Given(labels, q, k)|
    ensures j < k && labels[j].Take? && labels[j].q == q && labels[j].m == Given(labels, q, k)[i]
  {
    if i < |Given(labels, q, k - 1)| {
      j := GivenIsTaken(labels, q, k - 1, i);
    } else {
      j := TakenAt(labels, labels[k - 1].t, k - 1);
    }
  }

  lemma {:induction false} TakenAt(labels: seq<Label>, t: Thread, k: nat) returns (j: nat)
    requires k <= |labels| && LastTaken(labels, t, k).Some?
    ensures j < k && labels[j].Take? && LastTaken(labels, t, k) == Some((labels[j].q, labels[j].m))
  {
    if labels[k - 1].Take? && labels[k - 1].t == t { j := k - 1; } else { j := TakenAt(labels, t, k - 1); }
  }

  /** A pulled message is a pushed one: what a thread copies is what some earlier push of that queue was given, whole where
      it has a length; and the one that was inserted as its rank says. */
  lemma PulledIsPushed(states: seq<System>, labels: seq<Label>, q: QueueId, i: nat, j: nat) returns (h: nat, m: Msg)
    requires IsRun(states, labels) && i < j < |labels|
    requires ExtractsFrom(states[i], labels[i], q) && labels[j] == Copy(labels[i].t)
    requires forall k :: i < k < j ==> labels[k].t != labels[i].t
    ensures h < i && labels[h].Take? && labels[h].q == q && Arrives(m, labels[h].m)
    ensures var n := |Pulled(states, labels, q, i)|;
            n < |Given(labels, q, i)| && Given(labels, q, i)[n] == labels[h].m
            && Returned(states[j + 1], labels[i].t, q, n, m)
  {
    hide Inv, Enabled, Next, ExtractsFrom, Pulled, Returned, Given, History, Arrives;
    PullReturns(states, labels, q, i, j);
    HistoryIsGiven(states, labels, q, i);
    var n := |Pulled(states, labels, q, i)|;
    m := History(states[i], q)[n];
    h := GivenIsTaken(labels, q, i, n);
  }
}
