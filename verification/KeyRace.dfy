/** The key of one credential under one cipher, used by several threads at once. coder_secret_get looks a key up, derives
    a missing one and stores it in three steps with nothing held between them, and a change of the password purges the
    key in a step of its own. A key derived before a change and stored after its purge is then the one that is used. */
module KeyRace {
  import opened Basics
  import opened Wire
  import opened SecretCache

  /** What a thread has of its coder_secret_get: nothing, a miss, or a derived key. */
  datatype Hand = Free | Missed | Derived(key: Key)

  type Thread = nat

  /** The credential of owner o under one cipher; changing is set between a change of the password and its purge. */
  datatype State = State(o: Owner, cipher: string, pwd: Bytes, cached: Option<Key>, changing: bool, hands: map<Thread, Hand>)

  datatype Step = LookUp(t: Thread) | Derive(t: Thread) | Store(t: Thread) | Change(pwd: Bytes) | Purge | Elsewhere

  function RightKey(s: State): Key {
    KeyFor(s.o, s.cipher, s.pwd)
  }

  predicate Enabled(s: State, a: Step) {
    match a
    case LookUp(t) => t in s.hands && s.hands[t].Free?
    case Derive(t) => t in s.hands && s.hands[t].Missed?
    case Store(t) => t in s.hands && s.hands[t].Derived?
    case Change(_) => !s.changing
    case Purge => s.changing
    case Elsewhere => true
  }

  /** A thread that finds a key uses it and is done. */
  function Next(s: State, a: Step): State
    requires Enabled(s, a)
  {
    match a
    case LookUp(t) => if s.cached.Some? then s else s.(hands := s.hands[t := Missed])
    case Derive(t) => s.(hands := s.hands[t := Derived(RightKey(s))])
    case Store(t) => s.(cached := Some(s.hands[t].key), hands := s.hands[t := Free])
    case Change(pwd) => s.(pwd := pwd, changing := true)
    case Purge => s.(cached := None, changing := false)
    case Elsewhere => s
  }

  predicate Starts(s: State) {
    s.cached.None? && !s.changing && forall t :: t in s.hands ==> s.hands[t].Free?
  }

  predicate IsRun(states: seq<State>, steps: seq<Step>) {
    && |states| == |steps| + 1 && Starts(states[0])
    && forall i :: 0 <= i < |steps| ==> Enabled(states[i], steps[i]) && states[i + 1] == Next(states[i], steps[i])
  }

  /** The key in use is one of a password that is no longer current. */
  predicate Stale(s: State) {
    s.cached.Some? && s.cached.value != RightKey(s)
  }

  // -------------------------------------------------------- where a key comes from

  /** Thread t has the key in hand that it derived in step i. */
  predicate InHand(steps: seq<Step>, t: Thread, i: nat, k: nat) {
    i < k <= |steps| && steps[i] == Derive(t) && forall h :: i < h < k ==> steps[h] != Derive(t) && steps[h] != Store(t)
  }

  /** What is in the cache was derived in step i and stored in step j. */
  predicate InCache(steps: seq<Step>, i: nat, j: nat, k: nat) {
    && j < k <= |steps| && steps[j].Store? && InHand(steps, steps[j].t, i, j)
    && forall h :: j < h < k ==> !steps[h].Store? && !steps[h].Purge?
  }

  lemma {:induction false} Same(states: seq<State>, steps: seq<Step>, k: nat)
    requires IsRun(states, steps) && k <= |steps|
    ensures states[k].o == states[0].o && states[k].cipher == states[0].cipher && states[k].hands.Keys == states[0].hands.Keys
  {
    hide Starts;
    if k > 0 {
      Same(states, steps, k - 1);
      assert states[k - 1 + 1] == Next(states[k - 1], steps[k - 1]);
    }
  }

  lemma {:induction false} HandFrom(states: seq<State>, steps: seq<Step>, t: Thread, k: nat) returns (i: nat)
    requires IsRun(states, steps) && k <= |steps| && t in states[k].hands && states[k].hands[t].Derived?
    ensures InHand(steps, t, i, k) && states[k].hands[t].key == RightKey(states[i])
  {
    assert k > 0;
    assert Enabled(states[k - 1], steps[k - 1]) && states[k - 1 + 1] == Next(states[k - 1], steps[k - 1]);
    if steps[k - 1] == Derive(t) { i := k - 1; } else { i := HandFrom(states, steps, t, k - 1); }
  }

  lemma {:induction false} CacheFrom(states: seq<State>, steps: seq<Step>, k: nat) returns (i: nat, j: nat)
    requires IsRun(states, steps) && k <= |steps| && states[k].cached.Some?
    ensures InCache(steps, i, j, k) && states[k].cached.value == RightKey(states[i])
  {
    assert k > 0;
    assert Enabled(states[k - 1], steps[k - 1]) && states[k - 1 + 1] == Next(states[k - 1], steps[k - 1]);
    if steps[k - 1].Store? {
      j := k - 1;
      i := HandFrom(states, steps, steps[j].t, j);
    } else {
      i, j := CacheFrom(states, steps, k - 1);
    }
  }

  lemma {:induction false} HandIs(states: seq<State>, steps: seq<Step>, t: Thread, i: nat, k: nat)
    requires IsRun(states, steps) && InHand(steps, t, i, k)
    ensures t in states[k].hands && states[k].hands[t] == Derived(RightKey(states[i]))
    decreases k
  {
    hide Starts;
    assert Enabled(states[k - 1], steps[k - 1]) && states[k - 1 + 1] == Next(states[k - 1], steps[k - 1]);
    if i < k - 1 { HandIs(states, steps, t, i, k - 1); }
  }

  lemma {:induction false} CacheIs(states: seq<State>, steps: seq<Step>, i: nat, j: nat, k: nat)
    requires IsRun(states, steps) && InCache(steps, i, j, k)
    ensures states[k].cached == Some(RightKey(states[i]))
    decreases k
  {
    hide Starts, InHand;
    assert Enabled(states[k - 1], steps[k - 1]) && states[k - 1 + 1] == Next(states[k - 1], steps[k - 1]);
    if j < k - 1 { CacheIs(states, steps, i, j, k - 1); } else { HandIs(states, steps, steps[j].t, i, j); }
  }

  /** Without a purge the password changes at most once, and the change is then still going on. */
  lemma {:induction false} NoPurge(states: seq<State>, steps: seq<Step>, i: nat, k: nat)
    requires IsRun(states, steps) && i <= k <= |steps| && forall h :: i <= h < k ==> !steps[h].Purge?
    ensures states[k].pwd == states[i].pwd || states[k].changing
    ensures states[i].changing ==> states[k].changing && states[k].pwd == states[i].pwd
  {
    hide Starts;
    if i < k {
      NoPurge(states, steps, i, k - 1);
      assert Enabled(states[k - 1], steps[k - 1]) && states[k - 1 + 1] == Next(states[k - 1], steps[k - 1]);
    }
  }

  /** The race: the key in the cache was derived from another password than the current one, and a purge fell between its
      derivation and its storing. */
  predicate Raced(states: seq<State>, steps: seq<Step>, i: nat, p: nat, j: nat, k: nat) {
    && k < |states| && |states| == |steps| + 1 && InCache(steps, i, j, k) && i < p < j && steps[p].Purge?
    && states[i].pwd != states[k].pwd
  }

  /** Exactly when a stale key is in the cache between two changes of the password, although there is one cipher only:
      when a thread has derived it from an earlier password before a purge and stored it after. */
  lemma StaleIffRaced(states: seq<State>, steps: seq<Step>, k: nat)
    requires IsRun(states, steps) && k <= |steps| && !states[k].changing
    ensures Stale(states[k]) <==> exists i, p, j :: Raced(states, steps, i, p, j, k)
  {
    hide Starts, Enabled, Next, InCache, InHand;
    if Stale(states[k]) {
      var i, j := CacheFrom(states, steps, k);
      InOrder(steps, i, j, k);
      OtherKey(states, steps, i, k);
      var p := PurgeBetween(states, steps, i, j, k);
      assert Raced(states, steps, i, p, j, k);
    }
    if i, p, j :| Raced(states, steps, i, p, j, k) {
      CacheIs(states, steps, i, j, k);
      InOrder(steps, i, j, k);
      OtherKey(states, steps, i, k);
    }
  }

  lemma InOrder(steps: seq<Step>, i: nat, j: nat, k: nat)
    requires InCache(steps, i, j, k)
    ensures i < j < k <= |steps|
  {}

  lemma OtherKey(states: seq<State>, steps: seq<Step>, i: nat, k: nat)
    requires IsRun(states, steps) && i <= |steps| && k <= |steps|
    ensures i < |states| && k < |states| && (RightKey(states[i]) == RightKey(states[k]) <==> states[i].pwd == states[k].pwd)
  {
    Same(states, steps, i);
    Same(states, steps, k);
    OtherPwdOtherKey(states[0].o, states[0].cipher, states[i].pwd, states[k].pwd);
  }

  lemma PurgeBetween(states: seq<State>, steps: seq<Step>, i: nat, j: nat, k: nat) returns (p: nat)
    requires IsRun(states, steps) && InCache(steps, i, j, k) && !states[k].changing && states[i].pwd != states[k].pwd
    ensures i < p < j && steps[p].Purge?
  {
    if !(exists h :: i < h < j && steps[h].Purge?) {
      forall h | i <= h < k ensures !steps[h].Purge? {}
      NoPurge(states, steps, i, k);
      assert false;
    }
    p :| i < p < j && steps[p].Purge?;
  }

  /** It happens: the key of the old password is the one that is used from then on, by whichever thread, until the next
      change of the password. */
  lemma OneCipherRace(o: Owner, cipher: string, before: Bytes, after: Bytes) returns (states: seq<State>, steps: seq<Step>)
    requires before != after
    ensures steps == [LookUp(0), Derive(0), Step.Change(after), Purge, Store(0)]
    ensures IsRun(states, steps) && states[0] == State(o, cipher, before, None, false, map[0 := Free])
    ensures var s := states[|steps|]; s.pwd == after && !s.changing && Stale(s) && s.cached == Some(KeyFor(o, cipher, before))
  {
    var s0 := State(o, cipher, before, None, false, map[0 := Free]);
    steps := [LookUp(0), Derive(0), Step.Change(after), Purge, Store(0)];
    var s1 := Next(s0, steps[0]);
    var s2 := Next(s1, steps[1]);
    var s3 := Next(s2, steps[2]);
    var s4 := Next(s3, steps[3]);
    var s5 := Next(s4, steps[4]);
    states := [s0, s1, s2, s3, s4, s5];
    OtherPwdOtherKey(o, cipher, before, after);
  }

  /** Between changes, once no thread is in the middle of its coder_secret_get, the key in the cache stays. */
  lemma {:induction false} StaysInUse(states: seq<State>, steps: seq<Step>, j: nat, k: nat)
    requires IsRun(states, steps) && j <= k <= |steps| && states[j].cached.Some? && !states[j].changing
    requires (forall t :: t in states[j].hands ==> states[j].hands[t].Free?) && forall h :: j <= h < k ==> !steps[h].Change?
    ensures states[k] == states[j]
  {
    hide Starts;
    if j < k {
      StaysInUse(states, steps, j, k - 1);
      assert Enabled(states[k - 1], steps[k - 1]) && states[k - 1 + 1] == Next(states[k - 1], steps[k - 1]);
    }
  }
}
