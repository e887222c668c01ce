/** The cipher negotiation of src/cyber/cyber.c over the cipher table of src/cipher/cipher.c: the follower
    offers the ciphers it enables, the leader takes the last one it enables itself, the follower checks it. */
module Negotiation {
  import opened Basics

  datatype Cipher = Cipher(lib: string, enabled: bool)

  type Table = seq<Cipher>

  predicate Named(table: Table) {
    forall i, j :: 0 <= i < j < |table| ==> table[i].lib != table[j].lib
  }

  predicate Enables(table: Table, name: string) {
    exists i :: 0 <= i < |table| && table[i] == Cipher(name, true)
  }

  /** The names of the enabled ciphers, in the order of the table. */
  function Offered(table: Table): seq<string> {
    if table == [] then []
    else (if table[0].enabled then [table[0].lib] else []) + Offered(table[1..])
  }

  datatype Agreement = Agreement(sId: Bytes, list: seq<string>)

  datatype Outcome = Agreed(cipher: string) | NoValidCipher | WrongSite | NotOne

  /** k is the last offered position the table enables. */
  predicate LastEnabled(table: Table, list: seq<string>, k: int) {
    0 <= k < |list| && Enables(table, list[k]) && forall j :: k < j < |list| ==> !Enables(table, list[j])
  }

  /** One end of a negotiation. */
  class Endpoint {
    const local: Bytes
    var table: Table
    var remote: Option<Bytes>
    var cipher: Option<Cipher>

    ghost predicate Valid()
      reads this
    {
      Named(table)
    }

    constructor (local: Bytes, remote: Option<Bytes>, table: Table)
      requires Named(table)
      ensures Valid() && this.table == table && this.local == local && this.remote == remote && cipher == None
    {
      this.local, this.remote, this.table, this.cipher := local, remote, table, None;
    }

    /** cipher_get_by_str: the position of the name, or the length of the table. */
    method Find(name: string) returns (i: nat)
      requires Valid()
      ensures i <= |table| && (i < |table| ==> table[i].lib == name)
      ensures i == |table| ==> forall k :: 0 <= k < |table| ==> table[k].lib != name
      ensures Enables(table, name) <==> i < |table| && table[i].enabled
    {
      i := 0;
      while i < |table| && table[i].lib != name
        invariant i <= |table| && forall k :: 0 <= k < i ==> table[k].lib != name
      {
        i := i + 1;
      }
      assert i < |table| && table[i].enabled ==> table[i] == Cipher(name, true);
    }

    /** cipher_let_enabled_by_str. */
    method LetEnabled(name: string, isEnabled: bool) returns (ok: bool)
      requires Valid()
      modifies this`table
      ensures Valid() && |table| == |old(table)|
      ensures ok <==> exists i :: 0 <= i < |table| && old(table)[i].lib == name
      ensures forall i :: 0 <= i < |table| ==>
                table[i] == if old(table)[i].lib == name then Cipher(name, isEnabled) else old(table)[i]
    {
      var i := Find(name);
      ok := i < |table|;
      if ok { table := table[i := table[i].(enabled := isEnabled)]; }
    }

    /** cipher_foreach with the callback that collects the enabled names. */
    method Offer() returns (m: Agreement)
      ensures m == Agreement(local, Offered(table))
    {
      var list: seq<string> := [];
      assert table[0..] == table;
      for i := 0 to |table|
        invariant Offered(table) == list + Offered(table[i..])
      {
        assert table[i..][1..] == table[i + 1..];
        if table[i].enabled { list := list + [table[i].lib]; }
      }
      m := Agreement(local, list);
    }

    /** The first part of both exchanges: an unknown peer is remembered, another one refused. */
    method CheckSite(sId: Bytes) returns (ok: bool)
      modifies this`remote
      ensures ok <==> old(remote).None? || old(remote) == Some(sId)
      ensures remote == if old(remote).None? then Some(sId) else old(remote)
    {
      ok := true;
      if remote.Some? { ok := remote.value == sId; } else { remote := Some(sId); }
    }

    /** cyber_exchange_leader on a received offer: the list is walked from its end. */
    method Leader(m: Agreement) returns (outcome: Outcome, reply: Option<Agreement>)
      requires Valid()
      modifies this`remote, this`cipher
      ensures outcome.Agreed? ==>
                && cipher == Some(Cipher(outcome.cipher, true)) && Enables(table, outcome.cipher)
                && reply == Some(Agreement(local, [outcome.cipher]))
                && exists k :: LastEnabled(table, m.list, k) && m.list[k] == outcome.cipher
      ensures !outcome.Agreed? ==> reply.None? && cipher == old(cipher)
      ensures outcome.NoValidCipher? ==> forall k :: 0 <= k < |m.list| ==> !Enables(table, m.list[k])
      ensures outcome.WrongSite? <==> old(remote).Some? && old(remote).value != m.sId
      ensures !outcome.NotOne?
    {
      reply := None;
      var ok := CheckSite(m.sId);
      if !ok { return WrongSite, None; }
      var tmp: Option<Cipher> := None;
      var i := |m.list| - 1;
      while i >= 0
        invariant -1 <= i < |m.list| && tmp.None? && cipher == old(cipher)
        invariant forall j :: i < j < |m.list| ==> !Enables(table, m.list[j])
      {
        var t := Find(m.list[i]);
        if t < |table| && table[t].enabled {
          assert LastEnabled(table, m.list, i);
          tmp := Some(table[t]);
          break;
        }
        i := i - 1;
      }
      if tmp.None? { return NoValidCipher, None; }
      cipher := tmp;
      return Agreed(tmp.value.lib), Some(Agreement(local, [tmp.value.lib]));
    }

    /** The end of cyber_exchange_follower, on the leader's reply; the cipher is set before it is checked. */
    method Follower(m: Agreement) returns (outcome: Outcome)
      requires Valid()
      modifies this`remote, this`cipher
      ensures outcome.Agreed? <==>
                (old(remote).None? || old(remote) == Some(m.sId)) && |m.list| == 1 && Enables(table, m.list[0])
      ensures outcome.Agreed? ==> outcome.cipher == m.list[0] && cipher == Some(Cipher(m.list[0], true))
    {
      var ok := CheckSite(m.sId);
      if !ok { return WrongSite; }
      if |m.list| != 1 { return NotOne; }
      var t := Find(m.list[0]);
      cipher := if t < |table| then Some(table[t]) else None;
      if cipher.None? || !cipher.value.enabled { return NoValidCipher; }
      return Agreed(m.list[0]);
    }
  }

  // --------------------------------------------------------------------- results

  /** What is offered is what is enabled. */
  lemma {:induction false} OfferedIff(table: Table, name: string)
    ensures name in Offered(table) <==> Enables(table, name)
  {
    if table != [] {
      var rest := table[1..];
      OfferedIff(rest, name);
      if Enables(rest, name) {
        var i :| 0 <= i < |rest| && rest[i] == Cipher(name, true);
        assert table[i + 1] == Cipher(name, true);
      }
      if Enables(table, name) && table[0] != Cipher(name, true) {
        var i :| 0 <= i < |table| && table[i] == Cipher(name, true);
        assert rest[i - 1] == Cipher(name, true);
      }
    }
  }

  /** The offer keeps the order of the table. */
  lemma {:induction false} OfferedInOrder(table: Table, rest: Table)
    ensures Offered(table + rest) == Offered(table) + Offered(rest)
  {
    if table == [] {
      assert table + rest == rest;
    } else {
      assert (table + rest)[0] == table[0] && (table + rest)[1..] == table[1..] + rest;
      OfferedInOrder(table[1..], rest);
    }
  }

  lemma OfferedOne(c: Cipher)
    ensures Offered([c]) == if c.enabled then [c.lib] else []
  {
    assert [c][1..] == [];
  }

  /** Position i of the follower's table is the last one that both tables enable. */
  predicate LastCommon(follower: Table, leader: Table, i: int) {
    && 0 <= i < |follower| && follower[i].enabled && Enables(leader, follower[i].lib)
    && forall j :: i < j < |follower| ==> !(follower[j].enabled && Enables(leader, follower[j].lib))
  }

  /** The last of the follower's offers that the leader enables is the last cipher of its table that both enable. */
  lemma {:induction false} LastOffered(follower: Table, leader: Table, k: int)
    requires LastEnabled(leader, Offered(follower), k)
    ensures exists i :: LastCommon(follower, leader, i) && follower[i].lib == Offered(follower)[k]
  {
    hide Enables;
    var n := |follower|;
    assert n > 0;
    var front, c := follower[..n - 1], follower[n - 1];
    assert follower == front + [c];
    OfferedInOrder(front, [c]);
    OfferedOne(c);
    if c.enabled && Enables(leader, c.lib) {
      assert Offered(follower)[|Offered(front)|] == c.lib;
      assert LastCommon(follower, leader, n - 1);
    } else {
      assert k < |Offered(front)| && Offered(front)[k] == Offered(follower)[k];
      assert forall j :: k < j < |Offered(front)| ==> Offered(front)[j] == Offered(follower)[j];
      LastOffered(front, leader, k);
      var i :| LastCommon(front, leader, i) && front[i].lib == Offered(front)[k];
      assert LastCommon(follower, leader, i);
    }
  }

  /** A whole negotiation between two ends that accept each other's site, over any offered list. */
  method Negotiate(leader: Endpoint, follower: Endpoint, list: seq<string>)
    returns (outcome: Outcome, confirmed: Outcome)
    requires leader != follower && leader.Valid() && follower.Valid()
    requires leader.remote == None || leader.remote == Some(follower.local)
    requires follower.remote == None || follower.remote == Some(leader.local)
    modifies leader, follower
    ensures outcome.Agreed? && confirmed.Agreed? ==>
              && outcome == confirmed && leader.cipher == follower.cipher == Some(Cipher(outcome.cipher, true))
              && Enables(leader.table, outcome.cipher) && Enables(follower.table, outcome.cipher)
              && exists k :: LastEnabled(leader.table, list, k) && list[k] == outcome.cipher
    ensures outcome.Agreed? <==> exists k :: 0 <= k < |list| && Enables(leader.table, list[k])
    ensures list == Offered(old(follower.table)) ==> (outcome.Agreed? <==> confirmed.Agreed?)
    ensures list == Offered(old(follower.table)) ==>
              (confirmed.Agreed? <==> exists c :: Enables(leader.table, c) && Enables(follower.table, c))
    ensures list == Offered(old(follower.table)) && confirmed.Agreed? ==>
              exists i :: LastCommon(follower.table, leader.table, i) && follower.table[i].lib == confirmed.cipher
    ensures leader.table == old(leader.table) && follower.table == old(follower.table)
  {
    var reply;
    outcome, reply := leader.Leader(Agreement(follower.local, list));
    confirmed := NoValidCipher;
    forall c { OfferedIff(follower.table, c); }
    if reply.Some? {
      confirmed := follower.Follower(reply.value);
    }
    assert forall k :: 0 <= k < |list| ==> list[k] in list;
    if list == Offered(follower.table) && confirmed.Agreed? {
      var k :| LastEnabled(leader.table, list, k) && list[k] == outcome.cipher;
      LastOffered(follower.table, leader.table, k);
    }
  }
}
