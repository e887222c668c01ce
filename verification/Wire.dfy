/** What travels between two peers: the internal messages of src/coder/coder.c, sealed under
    a key derived from a login's password and carried in an envelope.

    The cipher is ideal: a sealed element opens exactly under the key that sealed it. The key
    derivation is an injective function of the cipher and the passphrase. */
module Wire {
  import opened Basics

  type Login = Bytes
  type SiteId = Bytes

  datatype Message =
    | AllClear
    | ChangePwdRequest(mId: nat, pwd: string)
    | ChangePwdResponse(oMId: nat, status: bool)
    | Ping(mId: nat)
    | Pong(oMId: nat)
    | Application(payload: Bytes)

  datatype Key = Key(cipher: string, passphrase: Bytes)

  datatype Action = Encrypt | Decrypt

  /** _getPassphraseForPwd: the two sites change places with the action. */
  function Passphrase(action: Action, local: SiteId, login: Login, remote: SiteId, pwd: Bytes): Bytes {
    match action
    case Decrypt => remote + login + pwd + local
    case Encrypt => local + login + pwd + remote
  }

  function Derive(cipher: string, action: Action, local: SiteId, login: Login, remote: SiteId, pwd: Bytes): Key {
    Key(cipher, Passphrase(action, local, login, remote, pwd))
  }

  /** The sender at site s and the receiver at site r of one login derive the same key exactly
      when they hold the same password. */
  lemma KeysAgree(cipher: string, s: SiteId, r: SiteId, login: Login, sent: Bytes, held: Bytes)
    ensures Derive(cipher, Encrypt, s, login, r, sent) == Derive(cipher, Decrypt, r, login, s, held)
            <==> sent == held
  {
    var x, y := s + login + sent + r, s + login + held + r;
    if x == y {
      var n := |s + login|;
      assert |sent| == |held|;
      assert sent == x[n..n + |sent|] == y[n..n + |held|] == held;
    }
  }

  /** Between any two senders and receivers: one seals, the other derives its key, and these coincide exactly when the sites,
      logins and passwords run together to one text. Nothing separates the parts. */
  lemma KeysCoincideIff(c: string, s: SiteId, l: Login, r: SiteId, p: Bytes, d: string, t: SiteId, k: Login, u: SiteId,
                        q: Bytes)
    ensures Derive(c, Encrypt, s, l, r, p) == Derive(d, Decrypt, u, k, t, q) <==> c == d && s + l + p + r == t + k + q + u
  {}

  /** Between the same two sites with one password: every login has a key of its own. */
  lemma LoginHasOwnKey(cipher: string, s: SiteId, r: SiteId, l: Login, k: Login, pwd: Bytes)
    ensures Derive(cipher, Encrypt, s, l, r, pwd) == Derive(cipher, Decrypt, r, k, s, pwd) <==> l == k
  {
    KeysCoincideIff(cipher, s, l, r, pwd, cipher, s, k, r, pwd);
    Between(s, l, k, pwd + r);
    assert s + l + pwd + r == s + l + (pwd + r) && s + k + pwd + r == s + k + (pwd + r);
  }

  /** With one login and password: the key is that of one sending and one receiving site, and of one cipher. */
  lemma SiteHasOwnKey(c: string, d: string, s: SiteId, r: SiteId, other: SiteId, l: Login, pwd: Bytes)
    ensures Derive(c, Encrypt, s, l, r, pwd) == Derive(c, Decrypt, r, l, other, pwd) <==> s == other
    ensures Derive(c, Encrypt, s, l, r, pwd) == Derive(c, Decrypt, other, l, s, pwd) <==> r == other
    ensures Derive(c, Encrypt, s, l, r, pwd) == Derive(d, Decrypt, r, l, s, pwd) <==> c == d
  {
    Between([], s, other, l + pwd + r);
    assert s + l + pwd + r == [] + s + (l + pwd + r) && other + l + pwd + r == [] + other + (l + pwd + r);
    Between(s + l + pwd, r, other, []);
    assert s + l + pwd + r == s + l + pwd + r + [] && s + l + pwd + other == s + l + pwd + other + [];
  }

  lemma Between(a: Bytes, x: Bytes, y: Bytes, b: Bytes)
    ensures a + x + b == a + y + b <==> x == y
  {
    if a + x + b == a + y + b {
      assert |x| == |y|;
      assert x == (a + x + b)[|a|..|a| + |x|] == (a + y + b)[|a|..|a| + |y|] == y;
    }
  }

  /** Two logins with two passwords share a key between the same sites exactly when login and password run together alike:
      the login "a" with a password that begins with b, and the login "ab" with the rest of it. */
  lemma LoginsShareKeyIff(cipher: string, s: SiteId, r: SiteId, l: Login, p: Bytes, k: Login, q: Bytes)
    ensures Derive(cipher, Encrypt, s, l, r, p) == Derive(cipher, Decrypt, r, k, s, q) <==> l + p == k + q
    ensures var a: Login, ab: Login := [97], [97, 98];
            Derive(cipher, Encrypt, s, a, r, [98] + q) == Derive(cipher, Decrypt, r, ab, s, q)
  {
    Between(s, l + p, k + q, r);
    assert s + l + p + r == s + (l + p) + r && s + k + q + r == s + (k + q) + r;
    var a: Login, ab: Login, b: Bytes := [97], [97, 98], [98];
    assert s + a + (b + q) + r == s + ab + q + r;
  }

  datatype Sealed = Sealed(key: Key, body: Message)

  /** An Encrypted message; the sender's site is the peer at the other end. */
  datatype Envelope = Envelope(login: Login, data: seq<Sealed>)

  /** Encrypted_decode: the bodies of the elements that open, in order. */
  function Opened(data: seq<Sealed>, key: Key): seq<Message> {
    if data == [] then []
    else (if data[0].key == key then [data[0].body] else []) + Opened(data[1..], key)
  }

  /** Element by element, in the order of the envelope: each either gives its body or nothing. */
  lemma {:induction false} OpenedInOrder(a: seq<Sealed>, x: Sealed, b: seq<Sealed>, key: Key)
    ensures Opened(a + [x] + b, key) == Opened(a, key) + (if x.key == key then [x.body] else []) + Opened(b, key)
  {
    if a == [] {
      assert a + [x] + b == [x] + b && ([x] + b)[1..] == b;
    } else {
      assert (a + [x] + b)[0] == a[0] && (a + [x] + b)[1..] == a[1..] + [x] + b;
      OpenedInOrder(a[1..], x, b, key);
    }
  }

  /** The loop of Encrypted_decode over the elements of one envelope. */
  method DecodeElements(data: seq<Sealed>, key: Key) returns (list: seq<Message>)
    ensures list == Opened(data, key)
  {
    list := [];
    for i := 0 to |data|
      invariant Opened(data, key) == list + Opened(data[i..], key)
    {
      assert data[i..][1..] == data[i + 1..];
      if data[i].key == key {
        list := list + [data[i].body];
      }
    }
  }
}
