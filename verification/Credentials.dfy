/** The credentials one process holds for one remote site, the four operations of
    src/auth/auth.c on an entry, and the saved form in auth.db. */
module Credentials {
  import opened Basics
  import opened Wire
  import StoredPassword

  const PWD_LEN_MIN := StoredPassword.PWD_LEN_MIN

  /** Above this length the one-octet padding length of Challenge_encode overflows. */
  const PWD_LEN_CHALLENGE := 84

  datatype Auth = Auth(pwd: Bytes, newPwd: Bytes, pending: bool, stamp: int)

  /** The order of the TO logins is the order of their list, oldest first. */
  datatype Store = Store(order: seq<Login>, to: map<Login, Auth>, from: map<Login, Auth>)

  predicate GoodLength(pwd: Bytes) {
    PWD_LEN_MIN <= |pwd| <= PWD_LEN_CHALLENGE
  }

  predicate GoodTo(a: Auth) {
    GoodLength(a.pwd) && if a.pending then |a.newPwd| == |a.pwd| else a.newPwd == []
  }

  predicate GoodFrom(a: Auth) {
    GoodLength(a.pwd) && !a.pending && a.newPwd == []
  }

  /** The index holds each login once: AuthIndex.RunRefines. */
  predicate Unique(order: seq<Login>) {
    forall i, j :: 0 <= i < j < |order| ==> order[i] != order[j]
  }

  ghost predicate GoodStore(s: Store) {
    && Unique(s.order)
    && (forall l :: l in s.order <==> l in s.to)
    && (forall l :: l in s.to ==> GoodTo(s.to[l]))
    && (forall l :: l in s.from ==> GoodFrom(s.from[l]))
  }

  // --------------------------------------------- auth.c, on one entry as a value

  /** auth_get_new_pwd_b64 keeps a pending candidate and otherwise takes a fresh one. */
  function WithCandidate(a: Auth, candidate: Bytes): Auth {
    if a.pending then a else a.(newPwd := candidate, pending := true)
  }

  /** auth_set_pwd_b64. */
  function WithPassword(a: Auth, pwd: Bytes, now: int): Auth {
    a.(pwd := pwd, stamp := now)
  }

  /** auth_switch_to_new_pwd on an entry with a pending candidate. */
  function AfterSwitch(a: Auth, now: int): Auth {
    Auth(a.newPwd, [], false, now)
  }

  // ------------------------------------------------------------ save and reload

  /** One line of auth.db, without its key columns. */
  datatype Row = Row(pwd: string, stamp: int, newPwd: string, pending: bool)

  datatype File = File(order: seq<Login>, to: map<Login, Row>, from: map<Login, Row>)

  function SaveAuth(a: Auth): Row {
    Row(StoredPassword.Encode(a.pwd), a.stamp,
        if a.pending then StoredPassword.Encode(a.newPwd) else "*", a.pending)
  }

  /** A line whose password does not decode is ignored; a pending column whose candidate does
      not decode leaves the entry without a candidate. */
  function LoadAuth(r: Row): Option<Auth> {
    match StoredPassword.Decode(r.pwd)
    case None => None
    case Some(pwd) =>
      if !r.pending then Some(Auth(pwd, [], false, r.stamp))
      else match StoredPassword.Decode(r.newPwd)
           case None => Some(Auth(pwd, [], false, r.stamp))
           case Some(newPwd) => Some(Auth(pwd, newPwd, true, r.stamp))
  }

  function Save(s: Store): File {
    File(s.order, map l | l in s.to :: SaveAuth(s.to[l]), map l | l in s.from :: SaveAuth(s.from[l]))
  }

  function LoadRows(rows: map<Login, Row>): map<Login, Auth> {
    map l | l in rows && LoadAuth(rows[l]).Some? :: LoadAuth(rows[l]).value
  }

  function Kept(order: seq<Login>, to: map<Login, Auth>): seq<Login> {
    if order == [] then []
    else (if order[0] in to then [order[0]] else []) + Kept(order[1..], to)
  }

  function Load(f: File): Store {
    var to := LoadRows(f.to);
    Store(Kept(f.order, to), to, LoadRows(f.from))
  }

  lemma AuthSurvives(a: Auth)
    requires GoodTo(a)
    ensures LoadAuth(SaveAuth(a)) == Some(a)
  {
    StoredPassword.SurvivesSaving(a.pwd);
    StoredPassword.SurvivesSaving(a.newPwd);
  }

  /** What any entry comes back as: not at all where its password is shorter than 8 octets, without its candidate where that
      one is, and otherwise as it was. */
  lemma ComesBackAs(a: Auth)
    requires a.pending || a.newPwd == []
    ensures LoadAuth(SaveAuth(a))
            == if |a.pwd| < 8 then None
               else if a.pending && |a.newPwd| < 8 then Some(a.(newPwd := [], pending := false))
               else Some(a)
  {
    hide StoredPassword.Encode, StoredPassword.Decode;
    StoredPassword.SurvivesSaving(a.pwd);
    StoredPassword.SurvivesSaving(a.newPwd);
  }

  /** A file of any credentials: exactly the entries whose password has 8 octets come back, the logins in their order. */
  lemma {:induction false} ShortOnesMissing(s: Store, l: Login)
    ensures l in Load(Save(s)).to <==> l in s.to && |s.to[l].pwd| >= 8
    ensures l in Load(Save(s)).from <==> l in s.from && |s.from[l].pwd| >= 8
    ensures l in Load(Save(s)).order <==> l in s.order && l in s.to && |s.to[l].pwd| >= 8
  {
    hide StoredPassword.Encode, StoredPassword.Decode;
    if l in s.to { StoredPassword.SurvivesSaving(s.to[l].pwd); }
    if l in s.from { StoredPassword.SurvivesSaving(s.from[l].pwd); }
    KeptIff(s.order, Load(Save(s)).to, l);
  }

  lemma {:induction false} KeptIff(order: seq<Login>, to: map<Login, Auth>, l: Login)
    ensures l in Kept(order, to) <==> l in order && l in to
  {
    if order != [] { KeptIff(order[1..], to, l); }
  }

  lemma {:induction false} AllKept(order: seq<Login>, to: map<Login, Auth>)
    requires forall l :: l in order ==> l in to
    ensures Kept(order, to) == order
  {
    if order != [] { AllKept(order[1..], to); }
  }

  /** A restart restores every credential, its candidate and the order of the logins. */
  lemma LoadInvertsSave(s: Store)
    requires GoodStore(s)
    ensures Load(Save(s)) == s
  {
    hide SaveAuth, LoadAuth;
    var f := Save(s);
    forall l | l in s.to ensures LoadAuth(f.to[l]) == Some(s.to[l]) { AuthSurvives(s.to[l]); }
    forall l | l in s.from ensures LoadAuth(f.from[l]) == Some(s.from[l]) { AuthSurvives(s.from[l]); }
    assert LoadRows(f.to) == s.to && LoadRows(f.from) == s.from;
    AllKept(s.order, s.to);
  }
}
