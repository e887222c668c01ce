/** The keys kept with a credential, one per cipher (src/auth/auth-basic.c), their use by coder_secret_get
    and their purge when the password changes. The cache must give the key a fresh derivation would give;
    it does while every session with the peer uses one cipher, and a second cipher breaks it. */
module SecretCache {
  import opened Basics
  import opened Wire

  /** What a key is derived from besides the cipher and the password; the direction of an entry is fixed by
      its database. */
  datatype Owner = Owner(action: Action, local: SiteId, login: Login, remote: SiteId)

  function KeyFor(o: Owner, cipher: string, pwd: Bytes): Key {
    Derive(cipher, o.action, o.local, o.login, o.remote, pwd)
  }

  /** The password of an entry and the keys cached with it. */
  datatype Entry = Entry(pwd: Bytes, cache: map<string, Key>)

  /** Every cached key is the one the current password gives. */
  ghost predicate Fresh(o: Owner, e: Entry) {
    forall c :: c in e.cache ==> e.cache[c] == KeyFor(o, c, e.pwd)
  }

  function KeyUsed(o: Owner, e: Entry, cipher: string): Key {
    if cipher in e.cache then e.cache[cipher] else KeyFor(o, cipher, e.pwd)
  }

  /** coder_secret_get. */
  function AfterUse(o: Owner, e: Entry, cipher: string): Entry {
    e.(cache := e.cache[cipher := KeyUsed(o, e, cipher)])
  }

  /** A password is replaced in a session under the given cipher, whose key is then purged. */
  function AfterChange(e: Entry, pwd: Bytes, cipher: string): Entry {
    Entry(pwd, e.cache - {cipher})
  }

  // ------------------------------------------------------------------- the list

  datatype Secret = Secret(ref: string, key: Key)

  ghost predicate Distinct(s: seq<Secret>) {
    forall i, j :: 0 <= i < j < |s| ==> s[i].ref != s[j].ref
  }

  function Cached(s: seq<Secret>): map<string, Key> {
    if s == [] then map[] else Cached(s[..|s| - 1])[s[|s| - 1].ref := s[|s| - 1].key]
  }

  lemma {:induction false} CachedAt(s: seq<Secret>)
    requires Distinct(s)
    ensures forall c :: c in Cached(s) <==> exists i :: 0 <= i < |s| && s[i].ref == c
    ensures forall i :: 0 <= i < |s| ==> s[i].ref in Cached(s) && Cached(s)[s[i].ref] == s[i].key
  {
    if s != [] {
      var t := s[..|s| - 1];
      CachedAt(t);
      forall i | 0 <= i < |s| ensures s[i].ref in Cached(s) && Cached(s)[s[i].ref] == s[i].key {
        if i < |t| { assert t[i] == s[i] && s[i].ref != s[|t|].ref; }
      }
      forall c | c in Cached(s) ensures exists i :: 0 <= i < |s| && s[i].ref == c {
        if c in Cached(t) {
          var i :| 0 <= i < |t| && t[i].ref == c;
          assert s[i].ref == c;
        } else {
          assert s[|t|].ref == c;
        }
      }
    }
  }

  /** Two lists with the same entries in any order cache the same. */
  lemma SameCache(s: seq<Secret>, m: map<string, Key>)
    requires Distinct(s)
    requires forall i :: 0 <= i < |s| ==> s[i].ref in m && m[s[i].ref] == s[i].key
    requires forall c :: c in m ==> exists i :: 0 <= i < |s| && s[i].ref == c
    ensures Cached(s) == m
  {
    CachedAt(s);
    forall c | c in m ensures c in Cached(s) && Cached(s)[c] == m[c] {
      var i :| 0 <= i < |s| && s[i].ref == c;
    }
  }

  lemma Replaced(s: seq<Secret>, i: nat, key: Key)
    requires Distinct(s) && i < |s|
    ensures var t := s[i := Secret(s[i].ref, key)]; Distinct(t) && Cached(t) == Cached(s)[s[i].ref := key]
  {
    var t, m := s[i := Secret(s[i].ref, key)], Cached(s)[s[i].ref := key];
    CachedAt(s);
    forall c | c in m ensures exists k :: 0 <= k < |t| && t[k].ref == c {
      var k :| 0 <= k < |s| && s[k].ref == c;
      assert t[k].ref == c;
    }
    SameCache(t, m);
  }

  lemma Appended(s: seq<Secret>, x: Secret)
    requires Distinct(s) && x.ref !in Cached(s)
    ensures Distinct(s + [x]) && Cached(s + [x]) == Cached(s)[x.ref := x.key]
  {
    CachedAt(s);
    assert (s + [x])[..|s|] == s;
  }

  lemma Removed(s: seq<Secret>, i: nat)
    requires Distinct(s) && i < |s|
    ensures var t := s[..i] + s[i + 1..]; Distinct(t) && Cached(t) == Cached(s) - {s[i].ref}
  {
    var t, m := s[..i] + s[i + 1..], Cached(s) - {s[i].ref};
    assert forall k :: 0 <= k < |t| ==> t[k] == s[if k < i then k else k + 1];
    CachedAt(s);
    forall c | c in m ensures exists k :: 0 <= k < |t| && t[k].ref == c {
      var k :| 0 <= k < |s| && s[k].ref == c;
      assert t[if k < i then k else k - 1].ref == c;
    }
    SameCache(t, m);
  }

  /** An entry of the TO or FROM database with its keys. */
  class CachedAuth {
    const owner: Owner
    var pwd: Bytes
    var secrets: seq<Secret>

    ghost predicate Valid()
      reads this
    {
      Distinct(secrets)
    }

    ghost function View(): Entry
      reads this
    {
      Entry(pwd, Cached(secrets))
    }

    constructor (owner: Owner, pwd: Bytes)
      ensures Valid() && View() == Entry(pwd, map[]) && this.owner == owner
    {
      this.owner, this.pwd, this.secrets := owner, pwd, [];
    }

    /** auth_secret_find: the position of the key for a cipher, or the length of the list. */
    method Find(ref: string) returns (i: nat)
      requires Valid()
      ensures i <= |secrets| && (i < |secrets| <==> ref in View().cache)
      ensures i < |secrets| ==> secrets[i].ref == ref && secrets[i].key == View().cache[ref]
    {
      CachedAt(secrets);
      i := 0;
      while i < |secrets| && secrets[i].ref != ref
        invariant i <= |secrets| && forall k :: 0 <= k < i ==> secrets[k].ref != ref
      {
        i := i + 1;
      }
    }

    /** auth_secret_add_or_update. */
    method AddOrUpdate(ref: string, key: Key)
      requires Valid()
      modifies this`secrets
      ensures Valid() && View() == old(View()).(cache := old(View()).cache[ref := key])
    {
      hide Distinct, Cached;
      var i := Find(ref);
      if i < |secrets| {
        Replaced(secrets, i, key);
        secrets := secrets[i := Secret(ref, key)];
      } else {
        Appended(secrets, Secret(ref, key));
        secrets := secrets + [Secret(ref, key)];
      }
    }

    /** auth_secret_delete_by_key. */
    method Delete(ref: string) returns (ok: bool)
      requires Valid()
      modifies this`secrets
      ensures Valid() && View() == old(View()).(cache := old(View()).cache - {ref})
      ensures ok <==> ref in old(View()).cache
    {
      hide Distinct, Cached;
      var i := Find(ref);
      ok := i < |secrets|;
      if ok {
        Removed(secrets, i);
        secrets := secrets[..i] + secrets[i + 1..];
      } else {
        assert View().cache - {ref} == View().cache;
      }
    }

    /** coder_secret_get: the cached key, or a new one that is then cached. */
    method GetSecret(cipher: string) returns (key: Key)
      requires Valid()
      modifies this`secrets
      ensures Valid() && key == KeyUsed(owner, old(View()), cipher)
      ensures View() == AfterUse(owner, old(View()), cipher)
      ensures old(Fresh(owner, View())) ==> key == KeyFor(owner, cipher, pwd)
    {
      var i := Find(cipher);
      if i < |secrets| {
        key := secrets[i].key;
        assert View().cache[cipher := key] == View().cache;
      } else {
        key := Derive(cipher, owner.action, owner.local, owner.login, owner.remote, pwd);
        AddOrUpdate(cipher, key);
      }
    }

    /** The two statements after a request is accepted or an answer has arrived. */
    method ChangePassword(newPwd: Bytes, cipher: string)
      requires Valid()
      modifies this`pwd, this`secrets
      ensures Valid() && View() == AfterChange(old(View()), newPwd, cipher)
    {
      pwd := newPwd;
      var _ := Delete(cipher);
    }
  }

  // ------------------------------------------------------- when the cache is right

  /** The key derivation is injective, so another password gives another key. */
  lemma OtherPwdOtherKey(o: Owner, cipher: string, p: Bytes, q: Bytes)
    ensures KeyFor(o, cipher, p) == KeyFor(o, cipher, q) <==> p == q
  {
    var (a, z) := if o.action.Decrypt? then (o.remote, o.local) else (o.local, o.remote);
    var x, y := a + o.login + p + z, a + o.login + q + z;
    if x == y {
      var n := |a + o.login|;
      assert |p| == |q|;
      assert p == x[n..n + |p|] == y[n..n + |q|] == q;
    }
  }

  lemma UseKeepsFresh(o: Owner, e: Entry, cipher: string)
    requires Fresh(o, e)
    ensures KeyUsed(o, e, cipher) == KeyFor(o, cipher, e.pwd) && Fresh(o, AfterUse(o, e, cipher))
  {}

  /** With right caches at both ends the cached keys of sender and receiver agree exactly when their passwords do. */
  lemma CachedKeysAgree(cipher: string, s: SiteId, r: SiteId, login: Login, sender: Entry, receiver: Entry)
    requires Fresh(Owner(Encrypt, s, login, r), sender) && Fresh(Owner(Decrypt, r, login, s), receiver)
    ensures KeyUsed(Owner(Encrypt, s, login, r), sender, cipher)
              == KeyUsed(Owner(Decrypt, r, login, s), receiver, cipher)
            <==> sender.pwd == receiver.pwd
  {
    UseKeepsFresh(Owner(Encrypt, s, login, r), sender, cipher);
    UseKeepsFresh(Owner(Decrypt, r, login, s), receiver, cipher);
    KeysAgree(cipher, s, r, login, sender.pwd, receiver.pwd);
  }

  /** A purge of one cipher's key leaves a right cache exactly when the password did not change or no other
      cipher had a key. */
  lemma ChangeKeepsFreshIff(o: Owner, e: Entry, pwd: Bytes, cipher: string)
    requires Fresh(o, e)
    ensures Fresh(o, AfterChange(e, pwd, cipher)) <==> pwd == e.pwd || forall c :: c in e.cache ==> c == cipher
  {
    var after := AfterChange(e, pwd, cipher);
    if c :| c in e.cache && c != cipher {
      OtherPwdOtherKey(o, c, e.pwd, pwd);
      assert c in after.cache && after.cache[c] == KeyFor(o, c, e.pwd);
    }
  }

  // -------------------------------------------------- the cache refines recomputation

  datatype Op = Use(cipher: string) | Change(pwd: Bytes, cipher: string)

  /** The keys a sequence of operations uses, with the cache and without. */
  function CachedKeys(o: Owner, e: Entry, ops: seq<Op>): seq<Key>
    decreases |ops|
  {
    if ops == [] then []
    else match ops[0]
         case Use(c) => [KeyUsed(o, e, c)] + CachedKeys(o, AfterUse(o, e, c), ops[1..])
         case Change(pwd, c) => CachedKeys(o, AfterChange(e, pwd, c), ops[1..])
  }

  function RecomputedKeys(o: Owner, pwd: Bytes, ops: seq<Op>): seq<Key>
    decreases |ops|
  {
    if ops == [] then []
    else match ops[0]
         case Use(c) => [KeyFor(o, c, pwd)] + RecomputedKeys(o, pwd, ops[1..])
         case Change(p, _) => RecomputedKeys(o, p, ops[1..])
  }

  /** Over any sequence of uses and changes under one cipher every key is the recomputed one. */
  lemma {:induction false} OneCipherRefines(o: Owner, e: Entry, ops: seq<Op>, cipher: string)
    requires Fresh(o, e) && (forall c :: c in e.cache ==> c == cipher)
    requires forall i :: 0 <= i < |ops| ==> ops[i].cipher == cipher
    ensures CachedKeys(o, e, ops) == RecomputedKeys(o, e.pwd, ops)
    decreases |ops|
  {
    if ops != [] {
      var rest := ops[1..];
      assert forall i :: 0 <= i < |rest| ==> rest[i] == ops[i + 1];
      assert ops[0].cipher == cipher;
      match ops[0]
      case Use(c) =>
        UseKeepsFresh(o, e, c);
        OneCipherRefines(o, AfterUse(o, e, c), rest, cipher);
      case Change(pwd, c) =>
        ChangeKeepsFreshIff(o, e, pwd, c);
        OneCipherRefines(o, AfterChange(e, pwd, c), rest, cipher);
    }
  }

  /** With two ciphers it fails: a password changed in a session under the second leaves the first one's key,
      and a later session under the first uses it. */
  lemma SecondCipherIsStale(o: Owner, pwd: Bytes, next: Bytes, first: string, second: string)
    requires pwd != next && first != second
    ensures var ops := [Use(first), Change(next, second), Use(first)];
            CachedKeys(o, Entry(pwd, map[]), ops) != RecomputedKeys(o, pwd, ops)
  {
    var e0 := Entry(pwd, map[]);
    var ops := [Use(first), Change(next, second), Use(first)];
    var e1 := AfterUse(o, e0, first);
    var e2 := AfterChange(e1, next, second);
    assert ops[1..] == [Change(next, second), Use(first)] && ops[1..][1..] == [Use(first)];
    assert CachedKeys(o, e2, [Use(first)]) == [KeyFor(o, first, pwd)];
    assert RecomputedKeys(o, next, [Use(first)]) == [KeyFor(o, first, next)];
    assert CachedKeys(o, e0, ops) == [KeyFor(o, first, pwd)] + CachedKeys(o, e1, ops[1..]);
    assert CachedKeys(o, e1, ops[1..]) == CachedKeys(o, e2, [Use(first)]);
    assert RecomputedKeys(o, pwd, ops) == [KeyFor(o, first, pwd)] + RecomputedKeys(o, pwd, ops[1..]);
    assert RecomputedKeys(o, pwd, ops[1..]) == RecomputedKeys(o, next, [Use(first)]);
    OtherPwdOtherKey(o, first, pwd, next);
    assert CachedKeys(o, e0, ops)[1] != RecomputedKeys(o, pwd, ops)[1];
  }
}
