/** src/sync/ldc-mutex.c: a list with a stored number of nodes. The links themselves belong to a library
    that is not part of this model; a list is the sequence of its nodes from the root on, and a node is
    linked in at most one place. */
module CountedList {
  import opened Basics

  predicate NoDuplicates<T(==)>(s: seq<T>) {
    forall i, j :: 0 <= i < j < |s| ==> s[i] != s[j]
  }

  /** s without its element at i. */
  function RemoveAt<T>(s: seq<T>, i: nat): seq<T>
    requires i < |s|
  {
    s[..i] + s[i + 1..]
  }

  /** The first position whose node satisfies a test, or the length. */
  function FirstMatch<T>(s: seq<T>, test: T -> bool): (i: nat)
    ensures i <= |s| && (i < |s| ==> test(s[i]))
    ensures forall k :: 0 <= k < i ==> !test(s[k])
  {
    if s == [] then 0 else if test(s[0]) then 0 else
      var i := FirstMatch(s[1..], test);
      assert forall k :: 1 <= k < i + 1 ==> s[k] == s[1..][k - 1];
      i + 1
  }

  /** The order of the nodes after ldc_mutex_search: the node found is unlinked while it is updated; the
      update may drop it, give it back for the end of the list, or bring in another. */
  function Searched<T(==)>(s: seq<T>, test: T -> bool, update: Option<T> -> Option<T>): seq<T> {
    var i := FirstMatch(s, test);
    var rest := if i < |s| then RemoveAt(s, i) else s;
    var item := update(if i < |s| then Some(s[i]) else None);
    if item.Some? && item.value !in rest then rest + [item.value] else rest
  }

  lemma RemovedAt<T>(s: seq<T>, i: nat)
    requires i < |s| && NoDuplicates(s)
    ensures NoDuplicates(RemoveAt(s, i))
    ensures forall x :: x in RemoveAt(s, i) <==> x in s && x != s[i]
  {
    var t := RemoveAt(s, i);
    assert forall k :: 0 <= k < |t| ==> t[k] == s[if k < i then k else k + 1];
    forall x | x in s && x != s[i] ensures x in t {
      var k :| 0 <= k < |s| && s[k] == x;
      assert t[if k < i then k else k - 1] == x;
    }
  }

  /** The callback's context after the first k nodes. */
  function ContextAt<S, T>(s: seq<T>, fct: (S, T) -> (S, bool), context: S, k: nat): S
    requires k <= |s|
  {
    if k == 0 then context else fct(ContextAt(s, fct, context, k - 1), s[k - 1]).0
  }

  class List<T(==)> {
    var nodes: seq<T>
    var no: int

    ghost predicate Valid()
      reads this
    {
      NoDuplicates(nodes) && no == |nodes|
    }

    constructor ()
      ensures Valid() && nodes == []
    {
      nodes, no := [], 0;
    }

    method Insert(item: T)
      requires Valid() && item !in nodes
      modifies this
      ensures Valid() && nodes == old(nodes) + [item]
    {
      nodes := nodes + [item];
      no := no + 1;
    }

    method Extract() returns (item: Option<T>)
      requires Valid()
      modifies this
      ensures Valid()
      ensures old(nodes) == [] ==> item.None? && nodes == []
      ensures old(nodes) != [] ==> item == Some(old(nodes)[0]) && nodes == old(nodes)[1..]
    {
      item := None;
      if nodes != [] {
        item := Some(nodes[0]);
        nodes := nodes[1..];
        no := no - 1;
      }
    }

    method Find(test: T -> bool) returns (item: Option<T>)
      requires Valid()
      ensures item.Some? ==> FirstMatch(nodes, test) < |nodes| && item.value == nodes[FirstMatch(nodes, test)]
      ensures item.None? ==> forall x :: x in nodes ==> !test(x)
    {
      for i := 0 to |nodes|
        invariant forall k :: 0 <= k < i ==> !test(nodes[k])
      {
        if test(nodes[i]) { return Some(nodes[i]); }
      }
      return None;
    }

    method IsIn(item: T) returns (found: bool)
      requires Valid()
      ensures found <==> item in nodes
    {
      for i := 0 to |nodes|
        invariant forall k :: 0 <= k < i ==> nodes[k] != item
      {
        if nodes[i] == item { return true; }
      }
      return false;
    }

    /** The caller gives a node of this list. */
    method Suppress(item: T)
      requires Valid() && item in nodes
      modifies this
      ensures Valid() && |nodes| == |old(nodes)| - 1
      ensures exists i :: 0 <= i < |old(nodes)| && old(nodes)[i] == item && nodes == RemoveAt(old(nodes), i)
                          && nodes == old(nodes)[..i] + old(nodes)[i + 1..]
      ensures forall x :: x in nodes <==> x in old(nodes) && x != item
    {
      var i := 0;
      while nodes[i] != item
        invariant 0 <= i < |nodes| && forall k :: 0 <= k < i ==> nodes[k] != item
        decreases |nodes| - i
      {
        i := i + 1;
      }
      RemovedAt(nodes, i);
      nodes := RemoveAt(nodes, i);
      no := no - 1;
    }

    method Search(test: T -> bool, update: Option<T> -> Option<T>) returns (item: Option<T>)
      requires Valid()
      modifies this
      ensures Valid() && nodes == Searched(old(nodes), test, update)
      ensures var i := FirstMatch(old(nodes), test);
              item == update(if i < |old(nodes)| then Some(old(nodes)[i]) else None)
      ensures var i := FirstMatch(old(nodes), test);
              var rest := if i < |old(nodes)| then old(nodes)[..i] + old(nodes)[i + 1..] else old(nodes);
              nodes == if item.Some? && item.value !in rest then rest + [item.value] else rest
    {
      item := None;
      var i := 0;
      while i < |nodes| && item.None?
        invariant 0 <= i <= |nodes| && Valid() && nodes == old(nodes)
        invariant forall k :: 0 <= k < i ==> !test(nodes[k])
        invariant item.Some? ==> i < |nodes| && test(nodes[i]) && item.value == nodes[i]
        decreases |nodes| - i, item.None?
      {
        if test(nodes[i]) { item := Some(nodes[i]); } else { i := i + 1; }
      }
      if item.Some? {
        RemovedAt(nodes, i);
        nodes := RemoveAt(nodes, i);
        no := no - 1;
      }
      item := update(item);
      if item.Some? && item.value !in nodes {
        Insert(item.value);
      }
    }

    /** The callback is called for the nodes in order, with its context; the walk ends at the first one it refuses, and
        the result is the number of those it accepted. */
    method Foreach<S>(fct: (S, T) -> (S, bool), s: S) returns (end: S, ret: nat)
      requires Valid()
      ensures ret <= |nodes| && forall k :: 0 <= k < ret ==> fct(ContextAt(nodes, fct, s, k), nodes[k]).1
      ensures ret < |nodes| ==> !fct(ContextAt(nodes, fct, s, ret), nodes[ret]).1
      ensures end == ContextAt(nodes, fct, s, if ret < |nodes| then ret + 1 else ret)
    {
      end, ret := s, 0;
      while ret < |nodes|
        invariant 0 <= ret <= |nodes| && end == ContextAt(nodes, fct, s, ret)
        invariant forall k :: 0 <= k < ret ==> fct(ContextAt(nodes, fct, s, k), nodes[k]).1
      {
        var (next, goOn) := fct(end, nodes[ret]);
        end := next;
        if !goOn { return; }
        ret := ret + 1;
      }
    }

    /** Unlinks every node, oldest first, and returns how many there were. */
    method Flush() returns (ret: int, released: seq<T>)
      requires Valid()
      modifies this
      ensures Valid() && nodes == [] && released == old(nodes) && ret == |old(nodes)|
    {
      released := [];
      while nodes != []
        invariant released + nodes == old(nodes) && no == |old(nodes)|
        decreases |nodes|
      {
        released := released + [nodes[0]];
        nodes := nodes[1..];
      }
      ret := no;
      no := 0;
    }
  }
}
