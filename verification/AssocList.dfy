/** Lists of keyed nodes, searched from the front: the shape of every level of the credential index. */
module AssocList {
  import opened Basics

  datatype Node<K, V> = Node(key: K, value: V)

  predicate Distinct<K(==), V>(s: seq<Node<K, V>>) {
    forall i, j :: 0 <= i < j < |s| ==> s[i].key != s[j].key
  }

  function IndexOf<K(==), V>(s: seq<Node<K, V>>, key: K): (i: nat)
    ensures i <= |s| && (i < |s| ==> s[i].key == key)
    ensures forall j :: 0 <= j < i ==> s[j].key != key
  {
    if s == [] then 0 else if s[0].key == key then 0 else
      var i := IndexOf(s[1..], key);
      assert forall j :: 1 <= j < i + 1 ==> s[j] == s[1..][j - 1];
      i + 1
  }

  function Get<K(==), V>(s: seq<Node<K, V>>, key: K): Option<V> {
    var i := IndexOf(s, key);
    if i < |s| then Some(s[i].value) else None
  }

  /** Replace in place, or add at the end. */
  function Put<K(==), V>(s: seq<Node<K, V>>, key: K, value: V): seq<Node<K, V>> {
    var i := IndexOf(s, key);
    if i < |s| then s[i := Node(key, value)] else s + [Node(key, value)]
  }

  function Drop<K(==), V>(s: seq<Node<K, V>>, key: K): seq<Node<K, V>> {
    var i := IndexOf(s, key);
    if i < |s| then s[..i] + s[i + 1..] else s
  }

  /** auth_find. */
  method Find<K(==), V>(s: seq<Node<K, V>>, key: K) returns (i: nat)
    ensures i == IndexOf(s, key)
  {
    i := 0;
    while i < |s| && s[i].key != key
      invariant i <= |s| && forall j :: 0 <= j < i ==> s[j].key != key
    {
      i := i + 1;
    }
    OnlyIndex(s, key, i);
  }

  lemma OnlyIndex<K, V>(s: seq<Node<K, V>>, key: K, i: nat)
    requires i <= |s| && (forall j :: 0 <= j < i ==> s[j].key != key) && (i < |s| ==> s[i].key == key)
    ensures IndexOf(s, key) == i
  {
    var j := IndexOf(s, key);
    assert j < |s| ==> s[j].key == key;
  }

  /** Writing again over the node a Put left. */
  lemma PutTwice<K, V>(s: seq<Node<K, V>>, key: K, x: V, y: V)
    ensures var t := Put(s, key, x); var i := IndexOf(t, key);
            i < |t| && t[i] == Node(key, x) && t[i := Node(key, y)] == Put(s, key, y)
  {
    OnlyIndex(Put(s, key, x), key, IndexOf(s, key));
  }

  lemma PutSame<K, V>(s: seq<Node<K, V>>, key: K)
    requires Get(s, key).Some?
    ensures Put(s, key, Get(s, key).value) == s
  {
    var i := IndexOf(s, key);
    assert s[i] == Node(key, s[i].value);
  }

  lemma GetAt<K, V>(s: seq<Node<K, V>>, i: nat)
    requires Distinct(s) && i < |s|
    ensures Get(s, s[i].key) == Some(s[i].value)
  {
    OnlyIndex(s, s[i].key, i);
  }

  lemma GetAbsent<K, V>(s: seq<Node<K, V>>, key: K)
    requires forall i :: 0 <= i < |s| ==> s[i].key != key
    ensures Get(s, key) == None
  {}

  lemma PutGives<K, V>(s: seq<Node<K, V>>, key: K, value: V, k: K)
    requires Distinct(s)
    ensures Distinct(Put(s, key, value))
    ensures Get(Put(s, key, value), k) == if k == key then Some(value) else Get(s, k)
  {
    var t, i := Put(s, key, value), IndexOf(s, key);
    if k == key {
      OnlyIndex(t, key, i);
    } else if IndexOf(s, k) < |s| {
      OnlyIndex(t, k, IndexOf(s, k));
    } else {
      OnlyIndex(t, k, |t|);
    }
  }

  lemma DropGives<K, V>(s: seq<Node<K, V>>, key: K, k: K)
    requires Distinct(s)
    ensures Distinct(Drop(s, key))
    ensures Get(Drop(s, key), k) == if k == key then None else Get(s, k)
  {
    hide IndexOf, Drop;
    var t, i := Drop(s, key), IndexOf(s, key);
    Dropped(s, key);
    if i < |s| {
      var m := IndexOf(s, k);
      if k == key || m == |s| {
        OnlyIndex(t, k, |t|);
      } else {
        OnlyIndex(t, k, if m < i then m else m - 1);
      }
    }
  }

  lemma Dropped<K, V>(s: seq<Node<K, V>>, key: K)
    ensures var t, i := Drop(s, key), IndexOf(s, key);
            if i == |s| then t == s
            else |t| == |s| - 1 && forall j :: 0 <= j < |t| ==> t[j] == s[if j < i then j else j + 1]
  {
    hide IndexOf;
  }
}
