/** The credential index of src/auth/auth-basic.c: databases, in each its sites, in each its logins. Under
    any sequence of operations the nested lists are a flat map from database, site and login. */
module AuthIndex {
  import opened Basics
  import opened AssocList
  import Peers

  type Name = Bytes

  datatype Key = Key(db: Name, site: Name, login: Name)

  datatype Credential = Credential(pwd: Bytes, newPwd: Bytes, pending: bool, active: bool, stamp: int)

  type Logins = seq<Node<Name, Credential>>
  type Sites = seq<Node<Name, Logins>>
  type Dbs = seq<Node<Name, Sites>>

  /** No level lists a key twice. */
  predicate GoodSites(sites: Sites) {
    Distinct(sites) && forall i :: 0 <= i < |sites| ==> Distinct(sites[i].value)
  }

  predicate Good(dbs: Dbs) {
    Distinct(dbs) && forall i :: 0 <= i < |dbs| ==> GoodSites(dbs[i].value)
  }

  function LoginsOf(dbs: Dbs, db: Name, site: Name): Option<Logins> {
    match Get(dbs, db)
    case None => None
    case Some(sites) => Get(sites, site)
  }

  /** auth_find_by_key as a function: the flat map the lists stand for. */
  function Lookup(dbs: Dbs, k: Key): Option<Credential> {
    match LoginsOf(dbs, k.db, k.site)
    case None => None
    case Some(logins) => Get(logins, k.login)
  }

  function OrEmpty<T>(o: Option<seq<T>>): seq<T> {
    if o.Some? then o.value else []
  }

  /** The lists with other logins for one site, which is created with its database where missing. */
  function WithLogins(dbs: Dbs, db: Name, site: Name, logins: Logins): Dbs {
    Put(dbs, db, Put(OrEmpty(Get(dbs, db)), site, logins))
  }

  function Ensured(dbs: Dbs, k: Key): Dbs {
    WithLogins(dbs, k.db, k.site, OrEmpty(LoginsOf(dbs, k.db, k.site)))
  }

  /** auth_insert: nothing new when the login exists. */
  function Inserted(dbs: Dbs, k: Key, c: Credential): Dbs {
    var logins := OrEmpty(LoginsOf(dbs, k.db, k.site));
    WithLogins(dbs, k.db, k.site, if Get(logins, k.login).Some? then logins else logins + [Node(k.login, c)])
  }

  /** auth_insert_or_update: an existing login is freed and the new one goes to the end of its site. */
  function Replaced(dbs: Dbs, k: Key, c: Credential): Dbs {
    var logins := OrEmpty(LoginsOf(dbs, k.db, k.site));
    WithLogins(dbs, k.db, k.site, Drop(logins, k.login) + [Node(k.login, c)])
  }

  /** auth_delete_by_key: the site and the database stay, even when they become empty. */
  function Deleted(dbs: Dbs, k: Key): Dbs {
    match LoginsOf(dbs, k.db, k.site)
    case None => dbs
    case Some(logins) => WithLogins(dbs, k.db, k.site, Drop(logins, k.login))
  }

  // ------------------------------------------------------------ refinement of a map

  lemma GetEmpty<V>(key: Name)
    ensures Get<Name, V>([], key) == None
  {}

  lemma GetGood(dbs: Dbs, db: Name)
    requires Good(dbs)
    ensures GoodSites(OrEmpty(Get(dbs, db)))
  {}

  lemma GetDistinct(sites: Sites, site: Name)
    requires GoodSites(sites)
    ensures Distinct(OrEmpty(Get(sites, site)))
  {}

  lemma LoginsDistinct(dbs: Dbs, db: Name, site: Name)
    requires Good(dbs)
    ensures Distinct(OrEmpty(LoginsOf(dbs, db, site)))
  {
    hide GoodSites, Get;
    GetGood(dbs, db);
    GetDistinct(OrEmpty(Get(dbs, db)), site);
  }

  lemma PutSites(sites: Sites, site: Name, logins: Logins)
    requires GoodSites(sites) && Distinct(logins)
    ensures GoodSites(Put(sites, site, logins))
  {
    PutGives(sites, site, logins, site);
  }

  lemma PutDbs(dbs: Dbs, db: Name, sites: Sites)
    requires Good(dbs) && GoodSites(sites)
    ensures Good(Put(dbs, db, sites))
  {
    hide GoodSites;
    PutGives(dbs, db, sites, db);
  }

  lemma WithLoginsGives(dbs: Dbs, db: Name, site: Name, logins: Logins, k: Key)
    requires Good(dbs) && Distinct(logins)
    ensures var out := WithLogins(dbs, db, site, logins);
            && Good(out)
            && Lookup(out, k) == if k.db == db && k.site == site then Get(logins, k.login) else Lookup(dbs, k)
  {
    hide Good, GoodSites, Distinct, Put, Get;
    var sites := OrEmpty(Get(dbs, db));
    GetGood(dbs, db);
    PutSites(sites, site, logins);
    PutDbs(dbs, db, Put(sites, site, logins));
    Levels(dbs);
    SitesLevel(sites);
    PutGives(dbs, db, Put(sites, site, logins), k.db);
    PutGives(sites, site, logins, k.site);
    GetEmpty<Logins>(k.site);
  }

  lemma Levels(dbs: Dbs)
    requires Good(dbs)
    ensures Distinct(dbs)
  {}

  lemma SitesLevel(sites: Sites)
    requires GoodSites(sites)
    ensures Distinct(sites)
  {}

  lemma AppendGives(logins: Logins, login: Name, c: Credential, k: Name)
    requires Distinct(logins) && Get(logins, login).None?
    ensures Distinct(logins + [Node(login, c)])
    ensures Get(logins + [Node(login, c)], k) == if k == login then Some(c) else Get(logins, k)
  {
    assert Put(logins, login, c) == logins + [Node(login, c)];
    PutGives(logins, login, c, k);
  }

  lemma InsertRefines(dbs: Dbs, k: Key, c: Credential, j: Key)
    requires Good(dbs)
    ensures Good(Inserted(dbs, k, c))
    ensures Lookup(Inserted(dbs, k, c), j) == if j == k && Lookup(dbs, k).None? then Some(c) else Lookup(dbs, j)
  {
    hide Good, Distinct, Get, LoginsOf, WithLogins;
    var logins := OrEmpty(LoginsOf(dbs, k.db, k.site));
    LoginsDistinct(dbs, k.db, k.site);
    GetEmpty<Credential>(k.login);
    GetEmpty<Credential>(j.login);
    if Get(logins, k.login).Some? {
      WithLoginsGives(dbs, k.db, k.site, logins, j);
    } else {
      AppendGives(logins, k.login, c, j.login);
      WithLoginsGives(dbs, k.db, k.site, logins + [Node(k.login, c)], j);
    }
  }

  lemma ReplaceRefines(dbs: Dbs, k: Key, c: Credential, j: Key)
    requires Good(dbs)
    ensures Good(Replaced(dbs, k, c))
    ensures Lookup(Replaced(dbs, k, c), j) == if j == k then Some(c) else Lookup(dbs, j)
  {
    hide Good, Distinct, Get, Drop, LoginsOf, WithLogins;
    var logins := OrEmpty(LoginsOf(dbs, k.db, k.site));
    LoginsDistinct(dbs, k.db, k.site);
    GetEmpty<Credential>(j.login);
    DropGives(logins, k.login, j.login);
    DropGives(logins, k.login, k.login);
    AppendGives(Drop(logins, k.login), k.login, c, j.login);
    WithLoginsGives(dbs, k.db, k.site, Drop(logins, k.login) + [Node(k.login, c)], j);
  }

  lemma DeleteRefines(dbs: Dbs, k: Key, j: Key)
    requires Good(dbs)
    ensures Good(Deleted(dbs, k))
    ensures Lookup(Deleted(dbs, k), j) == if j == k then None else Lookup(dbs, j)
  {
    hide Good, Distinct, Get, Drop, LoginsOf, WithLogins;
    match LoginsOf(dbs, k.db, k.site)
    case None =>
    case Some(logins) =>
      LoginsDistinct(dbs, k.db, k.site);
      DropGives(logins, k.login, j.login);
      WithLoginsGives(dbs, k.db, k.site, Drop(logins, k.login), j);
  }

  // -------------------------------------------------------- sequences of operations

  /** auth_new: without a password a credential is not active, without a candidate none is pending. */
  function NewCredential(pwd: Bytes, newPwd: Bytes, pending: bool, active: bool, stamp: int): Credential {
    Credential(pwd, newPwd, newPwd != [] && pending, pwd != [] && active, stamp)
  }

  predicate Complete(k: Key) {
    k.db != [] && k.site != [] && k.login != []
  }

  datatype Op =
    | Insert(k: Key, c: Credential)
    | InsertOrUpdate(k: Key, c: Credential)
    | InsertByKey(k: Key, now: int)
    | SearchByKey(k: Key, now: int)
    | Delete(k: Key)

  function Apply(dbs: Dbs, op: Op): Dbs {
    match op
    case Insert(k, c) => Inserted(dbs, k, c)
    case InsertOrUpdate(k, c) => Replaced(dbs, k, c)
    case InsertByKey(k, now) => if Complete(k) then Inserted(dbs, k, NewCredential([], [], false, false, now)) else dbs
    case SearchByKey(k, now) => if Complete(k) then Inserted(dbs, k, NewCredential([], [], false, false, now)) else dbs
    case Delete(k) => Deleted(dbs, k)
  }

  function AddIfAbsent(m: map<Key, Credential>, k: Key, c: Credential): map<Key, Credential> {
    if k in m then m else m[k := c]
  }

  /** The same operation on a flat map. */
  function ApplyFlat(m: map<Key, Credential>, op: Op): map<Key, Credential> {
    match op
    case Insert(k, c) => AddIfAbsent(m, k, c)
    case InsertOrUpdate(k, c) => m[k := c]
    case InsertByKey(k, now) => if Complete(k) then AddIfAbsent(m, k, NewCredential([], [], false, false, now)) else m
    case SearchByKey(k, now) => if Complete(k) then AddIfAbsent(m, k, NewCredential([], [], false, false, now)) else m
    case Delete(k) => m - {k}
  }

  function Run(dbs: Dbs, ops: seq<Op>): Dbs {
    if ops == [] then dbs else Apply(Run(dbs, ops[..|ops| - 1]), ops[|ops| - 1])
  }

  function RunFlat(m: map<Key, Credential>, ops: seq<Op>): map<Key, Credential> {
    if ops == [] then m else ApplyFlat(RunFlat(m, ops[..|ops| - 1]), ops[|ops| - 1])
  }

  /** The lists stand for the map. */
  ghost predicate Stands(dbs: Dbs, m: map<Key, Credential>) {
    forall k :: Lookup(dbs, k) == if k in m then Some(m[k]) else None
  }

  lemma ApplyAt(dbs: Dbs, m: map<Key, Credential>, op: Op, j: Key)
    requires Good(dbs) && Stands(dbs, m)
    ensures Good(Apply(dbs, op))
    ensures var flat := ApplyFlat(m, op); Lookup(Apply(dbs, op), j) == if j in flat then Some(flat[j]) else None
  {
    hide Good, Lookup, Inserted, Replaced, Deleted;
    assert Lookup(dbs, op.k) == (if op.k in m then Some(m[op.k]) else None)
           && Lookup(dbs, j) == if j in m then Some(m[j]) else None;
    match op
    case Insert(k, c) => InsertRefines(dbs, k, c, j);
    case InsertOrUpdate(k, c) => ReplaceRefines(dbs, k, c, j);
    case InsertByKey(k, now) => InsertRefines(dbs, k, NewCredential([], [], false, false, now), j);
    case SearchByKey(k, now) => InsertRefines(dbs, k, NewCredential([], [], false, false, now), j);
    case Delete(k) => DeleteRefines(dbs, k, j);
  }

  lemma ApplyRefines(dbs: Dbs, m: map<Key, Credential>, op: Op)
    requires Good(dbs) && Stands(dbs, m)
    ensures Good(Apply(dbs, op)) && Stands(Apply(dbs, op), ApplyFlat(m, op))
  {
    hide Good, Lookup, Apply, ApplyFlat;
    ApplyAt(dbs, m, op, op.k);
    forall j ensures Lookup(Apply(dbs, op), j) == if j in ApplyFlat(m, op) then Some(ApplyFlat(m, op)[j]) else None {
      ApplyAt(dbs, m, op, j);
    }
  }

  /** Under any sequence of operations no level holds a key twice and a lookup gives what the flat map has. */
  lemma {:induction false} RunRefines(ops: seq<Op>)
    ensures Good(Run([], ops)) && Stands(Run([], ops), RunFlat(map[], ops))
  {
    if ops != [] {
      RunRefines(ops[..|ops| - 1]);
      ApplyRefines(Run([], ops[..|ops| - 1]), RunFlat(map[], ops[..|ops| - 1]), ops[|ops| - 1]);
    }
  }

  // -------------------------------------------------------------------- the walk

  /** A callback: its context before, the entry; its context after and whether to go on. */
  type Callback<!S> = (S, Key, Credential) -> (S, bool)

  /** auth_foreach_login: the number of entries accepted before the first refusal. */
  function VisitLogins<S>(db: Name, site: Name, logins: Logins, fct: Callback<S>, s: S): (S, nat) {
    if logins == [] then (s, 0)
    else
      var (next, goOn) := fct(s, Key(db, site, logins[0].key), logins[0].value);
      if !goOn then (next, 0)
      else
        var (end, n) := VisitLogins(db, site, logins[1..], fct, next);
        (end, n + 1)
  }

  /** Every site in order; a refusal ends the walk of its own site only. */
  function VisitAllSites<S>(db: Name, sites: Sites, fct: Callback<S>, s: S): (S, nat) {
    if sites == [] then (s, 0)
    else
      var (next, n) := VisitLogins(db, sites[0].key, sites[0].value, fct, s);
      var (end, m) := VisitAllSites(db, sites[1..], fct, next);
      (end, n + m)
  }

  function VisitSites<S>(db: Name, sites: Sites, site: Option<Name>, fct: Callback<S>, s: S): (S, nat) {
    if site.None? then VisitAllSites(db, sites, fct, s)
    else match Get(sites, site.value)
         case None => (s, 0)
         case Some(logins) => VisitLogins(db, site.value, logins, fct, s)
  }

  function VisitAllDbs<S>(dbs: Dbs, site: Option<Name>, fct: Callback<S>, s: S): (S, nat) {
    if dbs == [] then (s, 0)
    else
      var (next, n) := VisitSites(dbs[0].key, dbs[0].value, site, fct, s);
      var (end, m) := VisitAllDbs(dbs[1..], site, fct, next);
      (end, n + m)
  }

  /** auth_foreach, with or without a database and a site. */
  function Visit<S>(dbs: Dbs, db: Option<Name>, site: Option<Name>, fct: Callback<S>, s: S): (S, nat) {
    if db.None? then VisitAllDbs(dbs, site, fct, s)
    else match Get(dbs, db.value)
         case None => (s, 0)
         case Some(sites) => VisitSites(db.value, sites, site, fct, s)
  }

  /** The callback that accepts everything and keeps the keys it saw. */
  function Collect(seen: seq<Key>, k: Key, c: Credential): (seq<Key>, bool) {
    (seen + [k], true)
  }

  /** What a walk has visited: each key once, exactly those of a given set. */
  ghost predicate VisitsExactly(before: seq<Key>, after: seq<Key>, n: nat, wanted: iset<Key>) {
    && |after| == |before| + n && after[..|before|] == before
    && (forall i, j :: |before| <= i < j < |after| ==> after[i] != after[j])
    && (forall k :: k in after[|before|..] <==> k in wanted)
  }

  lemma VisitJoin(a: seq<Key>, b: seq<Key>, c: seq<Key>, n: nat, m: nat, x: iset<Key>, y: iset<Key>)
    requires VisitsExactly(a, b, n, x) && VisitsExactly(b, c, m, y) && x !! y
    ensures VisitsExactly(a, c, n + m, x + y)
  {
    assert c[..|a|] == b[..|a|];
    assert c[|a|..] == b[|a|..] + c[|b|..];
    forall i, j | |a| <= i < j < |c| ensures c[i] != c[j] {
      if j < |b| {
        assert c[i] == b[i] && c[j] == b[j];
      } else if i < |b| {
        assert c[i] == b[i] && b[i] in b[|a|..] && c[j] in c[|b|..];
      }
    }
  }

  ghost function LoginKeys(db: Name, site: Name, logins: Logins): iset<Key> {
    iset k: Key | k.db == db && k.site == site && Get(logins, k.login).Some?
  }

  lemma {:induction false} VisitLoginsOnce(db: Name, site: Name, logins: Logins, seen: seq<Key>)
    requires Distinct(logins)
    ensures var (all, n) := VisitLogins(db, site, logins, Collect, seen);
            VisitsExactly(seen, all, n, LoginKeys(db, site, logins))
    decreases |logins|
  {
    if logins != [] {
      var k, rest := Key(db, site, logins[0].key), logins[1..];
      var next := seen + [k];
      VisitLoginsOnce(db, site, rest, next);
      var (all, n) := VisitLogins(db, site, rest, Collect, next);
      assert VisitsExactly(seen, next, 1, iset{k});
      HeadApart(logins);
      VisitJoin(seen, next, all, 1, n, iset{k}, LoginKeys(db, site, rest));
      assert LoginKeys(db, site, logins) == iset{k} + LoginKeys(db, site, rest);
    } else {
      assert LoginKeys(db, site, logins) == iset{};
    }
  }

  /** In a list without duplicates the head's key is not in the tail, and a lookup is in one of the two. */
  lemma HeadApart<V>(s: seq<Node<Name, V>>)
    requires Distinct(s) && s != []
    ensures Distinct(s[1..]) && Get(s[1..], s[0].key).None?
    ensures forall k :: Get(s, k) == if k == s[0].key then Some(s[0].value) else Get(s[1..], k)
  {
    GetAbsent(s[1..], s[0].key);
  }

  ghost function SiteKeys(db: Name, sites: Sites): iset<Key> {
    iset k: Key | k.db == db && Get(sites, k.site).Some? && Get(Get(sites, k.site).value, k.login).Some?
  }

  lemma {:induction false} VisitAllSitesOnce(db: Name, sites: Sites, seen: seq<Key>)
    requires GoodSites(sites)
    ensures var (all, n) := VisitAllSites(db, sites, Collect, seen); VisitsExactly(seen, all, n, SiteKeys(db, sites))
    decreases |sites|
  {
    if sites != [] {
      hide VisitsExactly, VisitLogins, Get;
      var head, rest := sites[0], sites[1..];
      var (next, n) := VisitLogins(db, head.key, head.value, Collect, seen);
      VisitLoginsOnce(db, head.key, head.value, seen);
      HeadApart(sites);
      assert GoodSites(rest);
      VisitAllSitesOnce(db, rest, next);
      var (all, m) := VisitAllSites(db, rest, Collect, next);
      VisitJoin(seen, next, all, n, m, LoginKeys(db, head.key, head.value), SiteKeys(db, rest));
      assert SiteKeys(db, sites) == LoginKeys(db, head.key, head.value) + SiteKeys(db, rest);
    } else {
      assert SiteKeys(db, sites) == iset{};
    }
  }

  /** The entries a filtered walk should see. */
  ghost function Matching(dbs: Dbs, db: Option<Name>, site: Option<Name>): iset<Key> {
    iset k: Key | (db == None || db == Some(k.db)) && (site == None || site == Some(k.site)) && Lookup(dbs, k).Some?
  }

  ghost function MatchingSites(db: Name, sites: Sites, site: Option<Name>): iset<Key> {
    iset k: Key | k in SiteKeys(db, sites) && (site == None || site == Some(k.site))
  }

  lemma VisitSitesOnce(db: Name, sites: Sites, site: Option<Name>, seen: seq<Key>)
    requires GoodSites(sites)
    ensures var (all, n) := VisitSites(db, sites, site, Collect, seen);
            VisitsExactly(seen, all, n, MatchingSites(db, sites, site))
  {
    if site.None? {
      VisitAllSitesOnce(db, sites, seen);
      assert MatchingSites(db, sites, site) == SiteKeys(db, sites);
    } else {
      match Get(sites, site.value)
      case None =>
        assert MatchingSites(db, sites, site) == iset{};
      case Some(logins) =>
        GetDistinct(sites, site.value);
        VisitLoginsOnce(db, site.value, logins, seen);
        assert MatchingSites(db, sites, site) == LoginKeys(db, site.value, logins);
    }
  }

  lemma MatchingJoin(dbs: Dbs, site: Option<Name>)
    requires Good(dbs) && dbs != []
    ensures Good(dbs[1..])
    ensures Matching(dbs, None, site) == MatchingSites(dbs[0].key, dbs[0].value, site) + Matching(dbs[1..], None, site)
  {
    hide GoodSites;
    HeadApart(dbs);
  }

  lemma {:induction false} VisitAllDbsOnce(dbs: Dbs, site: Option<Name>, seen: seq<Key>)
    requires Good(dbs)
    ensures var (all, n) := VisitAllDbs(dbs, site, Collect, seen); VisitsExactly(seen, all, n, Matching(dbs, None, site))
    decreases |dbs|
  {
    if dbs != [] {
      hide VisitsExactly, VisitSites, Get, GoodSites, Matching, MatchingSites;
      var head, rest := dbs[0], dbs[1..];
      var (next, n) := VisitSites(head.key, head.value, site, Collect, seen);
      VisitSitesOnce(head.key, head.value, site, seen);
      HeadApart(dbs);
      assert Good(rest);
      VisitAllDbsOnce(rest, site, next);
      var (all, m) := VisitAllDbs(rest, site, Collect, next);
      VisitJoin(seen, next, all, n, m, MatchingSites(head.key, head.value, site), Matching(rest, None, site));
      MatchingJoin(dbs, site);
    } else {
      assert Matching(dbs, None, site) == iset{};
    }
  }

  /** A walk with a callback that always accepts calls it once for each matching entry and returns how many
      there are, for any filter. */
  lemma VisitsEachOnce(dbs: Dbs, db: Option<Name>, site: Option<Name>)
    requires Good(dbs)
    ensures var (all, n) := Visit(dbs, db, site, Collect, []);
            && n == |all| && (forall i, j :: 0 <= i < j < |all| ==> all[i] != all[j])
            && (forall k :: k in all <==> Lookup(dbs, k).Some? && (db == None || db == Some(k.db))
                                                              && (site == None || site == Some(k.site)))
  {
    var (all, n) := Visit(dbs, db, site, Collect, []);
    assert all[0..] == all;
    if db.None? {
      VisitAllDbsOnce(dbs, site, []);
    } else if Get(dbs, db.value).Some? {
      GetGood(dbs, db.value);
      VisitSitesOnce(db.value, Get(dbs, db.value).value, site, []);
      assert VisitsExactly([], all, n, MatchingSites(db.value, Get(dbs, db.value).value, site));
    }
  }

  // ---------------------------------------------------------- the walk, call by call

  datatype Place = Place(db: Name, site: Name, logins: Logins)

  /** The sites a walk goes through, in its order. */
  function PlacesOf(dbs: Dbs, db: Option<Name>, site: Option<Name>): seq<Place> {
    if db.None? then PlacesOfAll(dbs, site)
    else match Get(dbs, db.value)
         case None => []
         case Some(sites) => PlacesOfSites(db.value, sites, site)
  }

  function PlacesOfAll(dbs: Dbs, site: Option<Name>): seq<Place> {
    if dbs == [] then [] else PlacesOfSites(dbs[0].key, dbs[0].value, site) + PlacesOfAll(dbs[1..], site)
  }

  function PlacesOfSites(db: Name, sites: Sites, site: Option<Name>): seq<Place> {
    if site.None? then PlacesOfAllSites(db, sites)
    else match Get(sites, site.value)
         case None => []
         case Some(logins) => [Place(db, site.value, logins)]
  }

  function PlacesOfAllSites(db: Name, sites: Sites): seq<Place> {
    if sites == [] then [] else [Place(db, sites[0].key, sites[0].value)] + PlacesOfAllSites(db, sites[1..])
  }

  /** A call of the callback and whether it let the walk go on. */
  datatype Call = Call(k: Key, goOn: bool)

  /** The calls at one site: from the first login up to the first refusal. */
  function LoginCalls<S>(p: Place, fct: Callback<S>, s: S): (calls: seq<Call>)
    ensures |calls| <= |p.logins| && forall i :: 0 <= i < |calls| ==> calls[i].k == Key(p.db, p.site, p.logins[i].key)
    ensures forall i :: 0 <= i < |calls| - 1 ==> calls[i].goOn
    ensures |calls| < |p.logins| ==> calls != [] && !calls[|calls| - 1].goOn
    decreases |p.logins|
  {
    if p.logins == [] then []
    else
      var (next, goOn) := fct(s, Key(p.db, p.site, p.logins[0].key), p.logins[0].value);
      [Call(Key(p.db, p.site, p.logins[0].key), goOn)]
      + if goOn then LoginCalls(p.(logins := p.logins[1..]), fct, next) else []
  }

  function AfterSite<S>(p: Place, fct: Callback<S>, s: S): S {
    VisitLogins(p.db, p.site, p.logins, fct, s).0
  }

  function Calls<S>(places: seq<Place>, fct: Callback<S>, s: S): seq<Call> {
    if places == [] then []
    else LoginCalls(places[0], fct, s) + Calls(places[1..], fct, AfterSite(places[0], fct, s))
  }

  function Accepted(calls: seq<Call>): nat {
    if calls == [] then 0 else (if calls[0].goOn then 1 else 0) + Accepted(calls[1..])
  }

  /** The same callback, with a record of its calls beside its context. */
  function Recording<S>(fct: Callback<S>): Callback<(S, seq<Call>)> {
    (t: (S, seq<Call>), k: Key, c: Credential) =>
      ((fct(t.0, k, c).0, t.1 + [Call(k, fct(t.0, k, c).1)]), fct(t.0, k, c).1)
  }

  lemma {:induction false} AcceptedAppend(a: seq<Call>, b: seq<Call>)
    ensures Accepted(a + b) == Accepted(a) + Accepted(b)
  {
    if a == [] { assert a + b == b; } else { assert (a + b)[1..] == a[1..] + b; AcceptedAppend(a[1..], b); }
  }

  lemma {:induction false} LoginsRecorded<S>(p: Place, fct: Callback<S>, s: S, seen: seq<Call>)
    ensures var (end, n) := VisitLogins(p.db, p.site, p.logins, fct, s);
            var calls := LoginCalls(p, fct, s);
            VisitLogins(p.db, p.site, p.logins, Recording(fct), (s, seen)) == ((end, seen + calls), n) && n == Accepted(calls)
    decreases |p.logins|
  {
    hide Accepted, Recording, VisitLogins, LoginCalls;
    FirstVisit(p.db, p.site, p.logins, fct, s);
    FirstVisit(p.db, p.site, p.logins, Recording(fct), (s, seen));
    FirstCall(p, fct, s);
    if p.logins == [] {
      NoneAccepted();
      assert seen + [] == seen;
    } else {
      var k := Key(p.db, p.site, p.logins[0].key);
      var (next, goOn) := fct(s, k, p.logins[0].value);
      var call := Call(k, goOn);
      Recorded(fct, s, seen, k, p.logins[0].value);
      if goOn {
        var rest := p.(logins := p.logins[1..]);
        LoginsRecorded(rest, fct, next, seen + [call]);
        OneMore(call, LoginCalls(rest, fct, next));
        Joined(seen, call, LoginCalls(rest, fct, next));
      } else {
        OneMore(call, []);
        NoneAccepted();
        Joined(seen, call, []);
      }
    }
  }

  lemma Joined(seen: seq<Call>, call: Call, calls: seq<Call>)
    ensures seen + [call] + calls == seen + ([call] + calls) && [call] + [] == [call]
  {}

  lemma FirstVisit<S>(db: Name, site: Name, logins: Logins, fct: Callback<S>, s: S)
    ensures logins == [] ==> VisitLogins(db, site, logins, fct, s) == (s, 0)
    ensures logins != [] ==>
              var (next, goOn) := fct(s, Key(db, site, logins[0].key), logins[0].value);
              VisitLogins(db, site, logins, fct, s) == if goOn then Plus(VisitLogins(db, site, logins[1..], fct, next), 1)
                                                       else (next, 0)
  {}

  lemma FirstCall<S>(p: Place, fct: Callback<S>, s: S)
    ensures p.logins == [] ==> LoginCalls(p, fct, s) == []
    ensures p.logins != [] ==>
              var (next, goOn) := fct(s, Key(p.db, p.site, p.logins[0].key), p.logins[0].value);
              LoginCalls(p, fct, s) == [Call(Key(p.db, p.site, p.logins[0].key), goOn)]
                                       + if goOn then LoginCalls(p.(logins := p.logins[1..]), fct, next) else []
  {}

  lemma NoneAccepted()
    ensures Accepted([]) == 0
  {}

  lemma OneMore(call: Call, calls: seq<Call>)
    ensures Accepted([call] + calls) == (if call.goOn then 1 else 0) + Accepted(calls)
  {
    assert ([call] + calls)[1..] == calls;
  }

  lemma Recorded<S>(fct: Callback<S>, s: S, seen: seq<Call>, k: Key, c: Credential)
    ensures Recording(fct)((s, seen), k, c) == ((fct(s, k, c).0, seen + [Call(k, fct(s, k, c).1)]), fct(s, k, c).1)
  {}

  lemma {:induction false} SitesRecorded<S>(db: Name, sites: Sites, fct: Callback<S>, s: S, seen: seq<Call>)
    ensures var (end, n) := VisitAllSites(db, sites, fct, s);
            var calls := Calls(PlacesOfAllSites(db, sites), fct, s);
            && VisitAllSites(db, sites, Recording(fct), (s, seen)) == ((end, seen + calls), n) && n == Accepted(calls)
            && end == AfterAll(PlacesOfAllSites(db, sites), fct, s)
    decreases |sites|
  {
    hide VisitLogins, LoginCalls, Recording, Calls, AfterAll, Accepted;
    if sites == [] {
      NoCalls(fct, s);
      assert seen + [] == seen;
    } else {
      var p, rest := Place(db, sites[0].key, sites[0].value), sites[1..];
      LoginsRecorded(p, fct, s, seen);
      var here, next := LoginCalls(p, fct, s), AfterSite(p, fct, s);
      SitesRecorded(db, rest, fct, next, seen + here);
      var later := Calls(PlacesOfAllSites(db, rest), fct, next);
      MoreCalls(p, PlacesOfAllSites(db, rest), fct, s);
      assert seen + here + later == seen + (here + later);
      AcceptedAppend(here, later);
    }
  }

  lemma MoreCalls<S>(p: Place, rest: seq<Place>, fct: Callback<S>, s: S)
    ensures Calls([p] + rest, fct, s) == LoginCalls(p, fct, s) + Calls(rest, fct, AfterSite(p, fct, s))
    ensures AfterAll([p] + rest, fct, s) == AfterAll(rest, fct, AfterSite(p, fct, s))
  {
    hide LoginCalls, AfterSite;
    assert ([p] + rest)[1..] == rest;
  }

  function AfterAll<S>(places: seq<Place>, fct: Callback<S>, s: S): S {
    if places == [] then s else AfterAll(places[1..], fct, AfterSite(places[0], fct, s))
  }

  lemma {:induction false} CallsJoin<S>(a: seq<Place>, b: seq<Place>, fct: Callback<S>, s: S)
    ensures Calls(a + b, fct, s) == Calls(a, fct, s) + Calls(b, fct, AfterAll(a, fct, s))
    ensures AfterAll(a + b, fct, s) == AfterAll(b, fct, AfterAll(a, fct, s))
    decreases |a|
  {
    hide LoginCalls, AfterSite;
    if a == [] {
      assert a + b == b;
    } else {
      assert (a + b)[1..] == a[1..] + b;
      CallsJoin(a[1..], b, fct, AfterSite(a[0], fct, s));
    }
  }

  lemma SomeSitesRecorded<S>(db: Name, sites: Sites, site: Option<Name>, fct: Callback<S>, s: S, seen: seq<Call>)
    ensures var (end, n) := VisitSites(db, sites, site, fct, s);
            var calls := Calls(PlacesOfSites(db, sites, site), fct, s);
            && VisitSites(db, sites, site, Recording(fct), (s, seen)) == ((end, seen + calls), n) && n == Accepted(calls)
            && end == AfterAll(PlacesOfSites(db, sites, site), fct, s)
  {
    hide VisitLogins, LoginCalls, Recording;
    if site.None? {
      SitesRecorded(db, sites, fct, s, seen);
    } else if Get(sites, site.value).Some? {
      var p := Place(db, site.value, Get(sites, site.value).value);
      LoginsRecorded(p, fct, s, seen);
      assert [p][1..] == [] && LoginCalls(p, fct, s) + [] == LoginCalls(p, fct, s);
    } else {
      assert seen + [] == seen;
    }
  }

  lemma NoCalls<S>(fct: Callback<S>, s: S)
    ensures Calls([], fct, s) == [] && AfterAll([], fct, s) == s && Accepted([]) == 0
  {}

  lemma {:induction false} DbsRecorded<S>(dbs: Dbs, site: Option<Name>, fct: Callback<S>, s: S, seen: seq<Call>)
    ensures var (end, n) := VisitAllDbs(dbs, site, fct, s);
            var calls := Calls(PlacesOfAll(dbs, site), fct, s);
            && VisitAllDbs(dbs, site, Recording(fct), (s, seen)) == ((end, seen + calls), n) && n == Accepted(calls)
            && end == AfterAll(PlacesOfAll(dbs, site), fct, s)
    decreases |dbs|
  {
    hide VisitSites, Calls, AfterAll, Accepted, Recording, PlacesOfSites;
    if dbs == [] {
      NoCalls(fct, s);
      assert seen + [] == seen;
    } else {
      var places, rest := PlacesOfSites(dbs[0].key, dbs[0].value, site), dbs[1..];
      SomeSitesRecorded(dbs[0].key, dbs[0].value, site, fct, s, seen);
      var here, next := Calls(places, fct, s), AfterAll(places, fct, s);
      DbsRecorded(rest, site, fct, next, seen + here);
      var later := Calls(PlacesOfAll(rest, site), fct, next);
      CallsJoin(places, PlacesOfAll(rest, site), fct, s);
      assert seen + here + later == seen + (here + later);
      AcceptedAppend(here, later);
    }
  }

  /** What a walk calls, for any callback and any filter: Calls, in that order, and it returns how many it accepted. */
  lemma VisitCalls<S>(dbs: Dbs, db: Option<Name>, site: Option<Name>, fct: Callback<S>, s: S)
    ensures var (end, n) := Visit(dbs, db, site, fct, s);
            var calls := Calls(PlacesOf(dbs, db, site), fct, s);
            Visit(dbs, db, site, Recording(fct), (s, [])) == ((end, calls), n) && n == Accepted(calls)
  {
    hide VisitSites, Calls, Recording, PlacesOfSites, VisitAllDbs;
    var places := PlacesOf(dbs, db, site);
    assert [] + Calls(places, fct, s) == Calls(places, fct, s);
    if db.None? {
      DbsRecorded(dbs, site, fct, s, []);
    } else if Get(dbs, db.value).Some? {
      SomeSitesRecorded(db.value, Get(dbs, db.value).value, site, fct, s, []);
    } else {
      NoCalls(fct, s);
    }
  }


  lemma {:induction false} CallsEmptyIff<S>(places: seq<Place>, fct: Callback<S>, s: S)
    ensures Calls(places, fct, s) == [] <==> forall i :: 0 <= i < |places| ==> places[i].logins == []
    ensures Calls(places, fct, s) != [] ==>
              exists i :: 0 <= i < |places| && places[i].logins != [] && (forall h :: 0 <= h < i ==> places[h].logins == [])
                          && Calls(places, fct, s)[0].k == Key(places[i].db, places[i].site, places[i].logins[0].key)
    decreases |places|
  {
    hide Calls, AfterSite;
    if places == [] {
      NoCalls(fct, s);
    } else {
      var rest, next := places[1..], AfterSite(places[0], fct, s);
      assert [places[0]] + rest == places;
      MoreCalls(places[0], rest, fct, s);
      FirstCall(places[0], fct, s);
      if places[0].logins == [] {
        CallsEmptyIff(rest, fct, next);
        EmptySite(places);
        if Calls(places, fct, s) != [] {
          var i :| 0 <= i < |rest| && rest[i].logins != [] && (forall h :: 0 <= h < i ==> rest[h].logins == [])
                   && Calls(rest, fct, next)[0].k == Key(rest[i].db, rest[i].site, rest[i].logins[0].key);
          assert places[i + 1] == rest[i];
          forall h | 0 <= h < i + 1 ensures places[h].logins == [] { if h > 0 { assert places[h] == rest[h - 1]; } }
        }
      }
    }
  }

  lemma EmptySite(places: seq<Place>)
    requires places != [] && places[0].logins == []
    ensures (forall i :: 0 <= i < |places| ==> places[i].logins == [])
            <==> forall i :: 0 <= i < |places[1..]| ==> places[1..][i].logins == []
  {
    assert forall i :: 1 <= i < |places| ==> places[i] == places[1..][i - 1];
  }

  /** A refusal ends the walk of one site, not the walk. The calls at each site are its logins up to the first refusal;
      the last of them is the last call of the whole walk exactly when no later site of the walk has a login, and
      otherwise the next call is for the first login of the next site that has one. */
  lemma RefusalEndsOneSite<S>(places: seq<Place>, fct: Callback<S>, s: S, j: nat)
    requires j < |places|
    ensures var before, here := Calls(places[..j], fct, s), LoginCalls(places[j], fct, AfterAll(places[..j], fct, s));
            var later := Calls(places[j + 1..], fct, AfterAll(places[..j + 1], fct, s));
            && Calls(places, fct, s) == before + here + later
            && (later == [] <==> forall i :: j < i < |places| ==> places[i].logins == [])
            && (later != [] ==>
                  exists i :: j < i < |places| && places[i].logins != [] && (forall h :: j < h < i ==> places[h].logins == [])
                              && later[0].k == Key(places[i].db, places[i].site, places[i].logins[0].key))
  {
    hide LoginCalls, Calls, AfterAll;
    CallsSplit(places, fct, s, j);
    LaterCalls(places, fct, AfterAll(places[..j + 1], fct, s), j);
  }

  lemma CallsSplit<S>(places: seq<Place>, fct: Callback<S>, s: S, j: nat)
    requires j < |places|
    ensures Calls(places, fct, s)
            == Calls(places[..j], fct, s) + LoginCalls(places[j], fct, AfterAll(places[..j], fct, s))
               + Calls(places[j + 1..], fct, AfterAll(places[..j + 1], fct, s))
  {
    hide LoginCalls, AfterAll, Calls;
    Slices(places, j);
    CallsOfThree(places[..j], places[j], places[j + 1..], fct, s);
  }

  lemma Slices(places: seq<Place>, j: nat)
    requires j < |places|
    ensures places == places[..j] + ([places[j]] + places[j + 1..]) && places[..j + 1] == places[..j] + [places[j]]
  {}

  lemma CallsOfThree<S>(before: seq<Place>, p: Place, rest: seq<Place>, fct: Callback<S>, s: S)
    ensures Calls(before + ([p] + rest), fct, s)
            == Calls(before, fct, s) + LoginCalls(p, fct, AfterAll(before, fct, s))
               + Calls(rest, fct, AfterAll(before + [p], fct, s))
  {
    hide LoginCalls, AfterAll, Calls, AfterSite;
    var at := AfterAll(before, fct, s);
    CallsJoin(before, [p] + rest, fct, s);
    MoreCalls(p, rest, fct, at);
    AfterOne(before, p, fct, s);
    var a, b, c := Calls(before, fct, s), LoginCalls(p, fct, at), Calls(rest, fct, AfterSite(p, fct, at));
    assert a + (b + c) == a + b + c;
  }

  lemma AfterOne<S>(before: seq<Place>, p: Place, fct: Callback<S>, s: S)
    ensures AfterAll(before + [p], fct, s) == AfterSite(p, fct, AfterAll(before, fct, s))
  {
    hide LoginCalls, Calls, AfterSite;
    CallsJoin(before, [p], fct, s);
    assert [p][1..] == [];
  }

  lemma LaterCalls<S>(places: seq<Place>, fct: Callback<S>, s: S, j: nat)
    requires j < |places|
    ensures var later := Calls(places[j + 1..], fct, s);
            && (later == [] <==> forall i :: j < i < |places| ==> places[i].logins == [])
            && (later != [] ==>
                  exists i :: j < i < |places| && places[i].logins != [] && (forall h :: j < h < i ==> places[h].logins == [])
                              && later[0].k == Key(places[i].db, places[i].site, places[i].logins[0].key))
  {
    hide Calls;
    var rest := places[j + 1..];
    CallsEmptyIff(rest, fct, s);
    forall i | j < i < |places| ensures places[i] == rest[i - (j + 1)] {}
    if Calls(rest, fct, s) != [] {
      var i :| 0 <= i < |rest| && rest[i].logins != [] && (forall h :: 0 <= h < i ==> rest[h].logins == [])
               && Calls(rest, fct, s)[0].k == Key(rest[i].db, rest[i].site, rest[i].logins[0].key);
      assert places[i + (j + 1)] == rest[i];
      forall h | j < h < i + (j + 1) ensures places[h].logins == [] { assert places[h] == rest[h - (j + 1)]; }
    } else {
      forall i | j < i < |places| ensures places[i].logins == [] { assert places[i] == rest[i - (j + 1)]; }
    }
  }

  // ------------------------------------------------------------- first and next

  function Names(logins: Logins): seq<Name> {
    seq(|logins|, i requires 0 <= i < |logins| => logins[i].key)
  }

  /** auth_get_next_from_auth: the position after i, past the root of the list to the first, unless that is
      the same entry. */
  function NextIndex(n: nat, i: nat): (r: Option<nat>)
    requires i < n
    ensures r.Some? ==> r.value < n
  {
    if i + 1 < n then Some(i + 1) else if n > 1 then Some(0) else None
  }

  /** Where k steps of next lead. */
  function After(n: nat, i: nat, k: nat): (j: nat)
    requires i < n && n > 1
    ensures j < n
  {
    if k == 0 then i else NextIndex(n, After(n, i, k - 1)).value
  }

  lemma {:induction false} AfterIs(n: nat, i: nat, k: nat)
    requires i < n && n > 1 && k <= n
    ensures After(n, i, k) == if i + k < n then i + k else i + k - n
  {
    if k > 0 { AfterIs(n, i, k - 1); }
  }

  lemma PositionsCycle(n: nat, i: nat, j: nat)
    requires i < n && j < n && n > 1
    ensures After(n, i, n) == i
    ensures exists k: nat :: k < n && After(n, i, k) == j
    ensures forall k: nat, m: nat :: k < n && m < n && After(n, i, k) == After(n, i, m) ==> k == m
  {
    AfterIs(n, i, n);
    var k := if j >= i then j - i else j - i + n;
    AfterIs(n, i, k);
    forall k: nat, m: nat | k < n && m < n && After(n, i, k) == After(n, i, m) ensures k == m {
      AfterIs(n, i, k);
      AfterIs(n, i, m);
    }
  }

  /** The entry after k in its site's list, round the end of the list. */
  function NextKey(dbs: Dbs, k: Key): Option<Key> {
    match LoginsOf(dbs, k.db, k.site)
    case None => None
    case Some(logins) =>
      var i := IndexOf(logins, k.login);
      if i == |logins| then None
      else match NextIndex(|logins|, i)
           case None => None
           case Some(j) => Some(k.(login := logins[j].key))
  }

  function NextTimes(dbs: Dbs, k: Key, n: nat): Option<Key> {
    if n == 0 then Some(k)
    else match NextTimes(dbs, k, n - 1)
         case None => None
         case Some(j) => NextKey(dbs, j)
  }

  lemma {:induction false} NextAt(dbs: Dbs, k: Key, logins: Logins, i: nat, n: nat)
    requires LoginsOf(dbs, k.db, k.site) == Some(logins) && Distinct(logins) && |logins| > 1
    requires i < |logins| && logins[i].key == k.login
    ensures NextTimes(dbs, k, n) == Some(k.(login := logins[After(|logins|, i, n)].key))
  {
    if n > 0 {
      NextAt(dbs, k, logins, i, n - 1);
      var j := After(|logins|, i, n - 1);
      OnlyPlace(logins, j);
    }
  }

  lemma OnlyPlace(logins: Logins, i: nat)
    requires Distinct(logins) && i < |logins|
    ensures IndexOf(logins, logins[i].key) == i
  {
    OnlyIndex(logins, logins[i].key, i);
  }

  /** Fewer than n steps of next lead from k to j. */
  predicate Met(dbs: Dbs, k: Key, j: Key, n: nat) {
    exists m :: 0 <= m < n && NextTimes(dbs, k, m) == Some(j)
  }

  /** Repeated next goes round the logins of a site: from any entry of the index it meets every entry of its site, itself
      included, exactly once in as many steps as there are, and comes back; an only entry has no next one. */
  lemma NextCycles(dbs: Dbs, k: Key)
    requires Good(dbs) && Lookup(dbs, k).Some?
    ensures var n := |OrEmpty(LoginsOf(dbs, k.db, k.site))|;
            && (if n == 1 then NextKey(dbs, k) == None else NextTimes(dbs, k, n) == Some(k))
            && (forall j :: Lookup(dbs, j).Some? && j.db == k.db && j.site == k.site ==> Met(dbs, k, j, n))
            && (forall m, p :: 0 <= m < p < n ==> NextTimes(dbs, k, m) != NextTimes(dbs, k, p))
            && (forall m :: 0 <= m < n ==> NextTimes(dbs, k, m).Some? && Lookup(dbs, NextTimes(dbs, k, m).value).Some?)
  {
    hide Good, NextTimes, NextKey, Lookup, LoginsOf;
    var n := |OrEmpty(LoginsOf(dbs, k.db, k.site))|;
    ComesBack(dbs, k);
    forall j | Lookup(dbs, j).Some? && j.db == k.db && j.site == k.site
      ensures Met(dbs, k, j, n)
    {
      var m := Meets(dbs, k, j);
    }
    forall m, p | 0 <= m < p < n ensures NextTimes(dbs, k, m) != NextTimes(dbs, k, p) { MeetsOnce(dbs, k, m, p); }
    forall m | 0 <= m < n ensures NextTimes(dbs, k, m).Some? && Lookup(dbs, NextTimes(dbs, k, m).value).Some? {
      StaysAtSite(dbs, k, m);
    }
  }

  /** What an entry of a good index gives: its list, without duplicates, and its place there. */
  lemma PlaceOf(dbs: Dbs, k: Key) returns (logins: Logins, i: nat)
    requires Good(dbs) && Lookup(dbs, k).Some?
    ensures LoginsOf(dbs, k.db, k.site) == Some(logins) && Distinct(logins)
    ensures i < |logins| && logins[i].key == k.login && i == IndexOf(logins, k.login)
  {
    hide Good;
    logins := LoginsOf(dbs, k.db, k.site).value;
    LoginsDistinct(dbs, k.db, k.site);
    i := IndexOf(logins, k.login);
  }

  lemma ComesBack(dbs: Dbs, k: Key)
    requires Good(dbs) && Lookup(dbs, k).Some?
    ensures var n := |OrEmpty(LoginsOf(dbs, k.db, k.site))|;
            if n == 1 then NextKey(dbs, k) == None else NextTimes(dbs, k, n) == Some(k)
  {
    hide Good, Lookup, LoginsOf;
    var logins, i := PlaceOf(dbs, k);
    if |logins| == 1 {
      OnlyEntry(dbs, k, logins);
    } else {
      PositionsCycle(|logins|, i, i);
      NextAt(dbs, k, logins, i, |logins|);
    }
  }

  lemma Meets(dbs: Dbs, k: Key, j: Key) returns (m: nat)
    requires Good(dbs) && Lookup(dbs, k).Some? && Lookup(dbs, j).Some? && j.db == k.db && j.site == k.site
    ensures m < |OrEmpty(LoginsOf(dbs, k.db, k.site))| && NextTimes(dbs, k, m) == Some(j)
  {
    hide Good, Lookup, LoginsOf;
    var logins, i := PlaceOf(dbs, k);
    var _, h := PlaceOf(dbs, j);
    if |logins| == 1 {
      m := 0;
    } else {
      PositionsCycle(|logins|, i, h);
      m :| m < |logins| && After(|logins|, i, m) == h;
      NextAt(dbs, k, logins, i, m);
    }
  }

  lemma MeetsOnce(dbs: Dbs, k: Key, m: nat, p: nat)
    requires Good(dbs) && Lookup(dbs, k).Some? && m < p < |OrEmpty(LoginsOf(dbs, k.db, k.site))|
    ensures NextTimes(dbs, k, m) != NextTimes(dbs, k, p)
  {
    hide Good, Lookup, LoginsOf, NextTimes;
    var logins, i := PlaceOf(dbs, k);
    PositionsCycle(|logins|, i, i);
    NextAt(dbs, k, logins, i, m);
    NextAt(dbs, k, logins, i, p);
    OnlyPlace(logins, After(|logins|, i, m));
    OnlyPlace(logins, After(|logins|, i, p));
  }

  lemma StaysAtSite(dbs: Dbs, k: Key, m: nat)
    requires Good(dbs) && Lookup(dbs, k).Some? && m < |OrEmpty(LoginsOf(dbs, k.db, k.site))|
    ensures NextTimes(dbs, k, m).Some? && Lookup(dbs, NextTimes(dbs, k, m).value).Some?
  {
    hide Good, LoginsOf;
    var logins, i := PlaceOf(dbs, k);
    if |logins| > 1 {
      NextAt(dbs, k, logins, i, m);
      OnlyPlace(logins, After(|logins|, i, m));
    }
  }

  lemma OnlyEntry(dbs: Dbs, k: Key, logins: Logins)
    requires LoginsOf(dbs, k.db, k.site) == Some(logins) && |logins| == 1 && logins[0].key == k.login
    ensures NextKey(dbs, k) == None
  {}

  /** The named node of a list, or the newest one when no name is given. */
  function Chosen<V>(s: seq<Node<Name, V>>, name: Option<Name>): Option<Node<Name, V>> {
    match name
    case None => if s == [] then None else Some(s[|s| - 1])
    case Some(key) => match Get(s, key)
                      case None => None
                      case Some(value) => Some(Node(key, value))
  }

  /** The newest login of the chosen site of the chosen database. */
  function FirstKey(dbs: Dbs, db: Option<Name>, site: Option<Name>): Option<Key> {
    match Chosen(dbs, db)
    case None => None
    case Some(d) =>
      match Chosen(d.value, site)
      case None => None
      case Some(s) => if s.value == [] then None else Some(Key(d.key, s.key, s.value[|s.value| - 1].key))
  }

  /** The entry inserted last is the first one of its site, whatever was there before; inserting it where it already is
      leaves the order as it was. */
  lemma NewestIsFirst(dbs: Dbs, k: Key, c: Credential)
    ensures FirstKey(Replaced(dbs, k, c), Some(k.db), Some(k.site)) == Some(k)
    ensures FirstKey(Inserted(dbs, k, c), Some(k.db), Some(k.site))
            == if Lookup(dbs, k).None? then Some(k) else FirstKey(dbs, Some(k.db), Some(k.site))
  {
    hide Put, Get, Drop;
    var logins, sites := OrEmpty(LoginsOf(dbs, k.db, k.site)), OrEmpty(Get(dbs, k.db));
    GetEmpty<Logins>(k.site);
    GetEmpty<Credential>(k.login);
    forall l: Logins ensures FirstKey(WithLogins(dbs, k.db, k.site, l), Some(k.db), Some(k.site))
                             == if l == [] then None else Some(Key(k.db, k.site, l[|l| - 1].key))
    {
      PutThenGet(sites, k.site, l);
      PutThenGet(dbs, k.db, Put(sites, k.site, l));
    }
  }

  lemma PutThenGet<V>(s: seq<Node<Name, V>>, key: Name, value: V)
    ensures Get(Put(s, key, value), key) == Some(value)
  {
    var t := Put(s, key, value);
    OnlyIndex(t, key, IndexOf(s, key));
  }

  /** The login _send and the busy test look at first, and the one after it: those of auth_get_first and of
      auth_get_next_from_auth on it. */
  lemma FirstAndNext(dbs: Dbs, db: Name, site: Name, logins: Logins)
    requires LoginsOf(dbs, db, site) == Some(logins) && Distinct(logins)
    ensures var first := FirstKey(dbs, Some(db), Some(site));
            && Peers.FirstLogin(Names(logins)) == (if first.None? then None else Some(first.value.login))
            && (first.Some? ==>
                  var next := NextKey(dbs, first.value);
                  Peers.NextLogin(Names(logins)) == if next.None? then None else Some(next.value.login))
  {
    if logins != [] { OnlyPlace(logins, |logins| - 1); }
  }

  // ------------------------------------------------------- the order of the logins of a site

  function NamesAt(dbs: Dbs, db: Name, site: Name): seq<Name> {
    Names(OrEmpty(LoginsOf(dbs, db, site)))
  }

  function Without(names: seq<Name>, name: Name): seq<Name> {
    if names == [] then []
    else if names[0] == name then names[1..]
    else [names[0]] + Without(names[1..], name)
  }

  /** A new login goes to the end of its site, and an existing one stays where it is; insert-or-update takes it from its place
      and puts it at the end; a deletion takes it out and keeps the order of the others. No other site is touched. */
  lemma OrderAfter(dbs: Dbs, k: Key, c: Credential, db: Name, site: Name)
    ensures var names := NamesAt(dbs, k.db, k.site);
            && NamesAt(Inserted(dbs, k, c), k.db, k.site) == (if Lookup(dbs, k).Some? then names else names + [k.login])
            && NamesAt(Replaced(dbs, k, c), k.db, k.site) == Without(names, k.login) + [k.login]
            && NamesAt(Deleted(dbs, k), k.db, k.site) == Without(names, k.login)
    ensures db != k.db || site != k.site ==>
              NamesAt(dbs, db, site) == NamesAt(Inserted(dbs, k, c), db, site) == NamesAt(Replaced(dbs, k, c), db, site)
              == NamesAt(Deleted(dbs, k), db, site)
  {
    hide Get, Put, Drop, WithLogins;
    var logins := OrEmpty(LoginsOf(dbs, k.db, k.site));
    GetEmpty<Credential>(k.login);
    DropNames(logins, k.login);
    forall l: Logins ensures LoginsOf(WithLogins(dbs, k.db, k.site, l), k.db, k.site) == Some(l) {
      WrittenThere(dbs, k.db, k.site, l);
    }
    if db != k.db || site != k.site {
      forall l: Logins ensures LoginsOf(WithLogins(dbs, k.db, k.site, l), db, site) == LoginsOf(dbs, db, site) {
        WrittenElsewhere(dbs, k.db, k.site, l, db, site);
      }
    }
  }

  lemma WrittenThere(dbs: Dbs, db: Name, site: Name, logins: Logins)
    ensures LoginsOf(WithLogins(dbs, db, site, logins), db, site) == Some(logins)
  {
    hide Get, Put;
    PutThenGet(OrEmpty(Get(dbs, db)), site, logins);
    PutThenGet(dbs, db, Put(OrEmpty(Get(dbs, db)), site, logins));
  }

  lemma WrittenElsewhere(dbs: Dbs, db: Name, site: Name, logins: Logins, otherDb: Name, other: Name)
    requires otherDb != db || other != site
    ensures LoginsOf(WithLogins(dbs, db, site, logins), otherDb, other) == LoginsOf(dbs, otherDb, other)
  {
    hide Get, Put;
    var sites := OrEmpty(Get(dbs, db));
    PutThenGet(dbs, db, Put(sites, site, logins));
    GetEmpty<Logins>(other);
    if otherDb != db { PutThenOther(dbs, db, Put(sites, site, logins), otherDb); }
    if other != site { PutThenOther(sites, site, logins, other); }
  }

  lemma PutThenOther<V>(s: seq<Node<Name, V>>, key: Name, value: V, other: Name)
    requires other != key
    ensures Get(Put(s, key, value), other) == Get(s, other)
  {
    var t, i := Put(s, key, value), IndexOf(s, other);
    if i < |s| { OnlyIndex(t, other, i); } else { OnlyIndex(t, other, |t|); }
  }

  lemma {:induction false} DropNames(logins: Logins, login: Name)
    ensures Names(Drop(logins, login)) == Without(Names(logins), login)
    decreases |logins|
  {
    hide Drop, Names;
    if logins == [] {
      NoNames(login);
    } else {
      var rest := logins[1..];
      NamesMore(logins[0], rest);
      assert logins == [logins[0]] + rest;
      assert ([logins[0].key] + Names(rest))[1..] == Names(rest);
      if logins[0].key != login {
        DropNames(rest, login);
        DropRest(logins, login);
        NamesMore(logins[0], Drop(rest, login));
      } else {
        DropFirst(logins);
      }
    }
  }

  lemma NoNames(login: Name)
    ensures Names([]) == [] && Drop<Name, Credential>([], login) == []
  {}

  lemma NamesMore(x: Node<Name, Credential>, rest: Logins)
    ensures Names([x] + rest) == [x.key] + Names(rest)
  {}

  lemma DropFirst(logins: Logins)
    requires logins != []
    ensures Drop(logins, logins[0].key) == logins[1..]
  {
    OnlyIndex(logins, logins[0].key, 0);
  }

  lemma DropRest(logins: Logins, login: Name)
    requires logins != [] && logins[0].key != login
    ensures Drop(logins, login) == [logins[0]] + Drop(logins[1..], login)
  {
    var rest := logins[1..];
    var i := IndexOf(rest, login);
    OnlyIndex(logins, login, i + 1);
    if i < |rest| {
      assert logins[..i + 1] + logins[i + 1 + 1..] == [logins[0]] + (rest[..i] + rest[i + 1..]);
    }
  }

  /** A site is there after an insertion, and stays, with its database, when its logins are deleted; a new one goes to the end
      of the sites of its database, and a new database to the end of the databases. */
  lemma SitesAfter(dbs: Dbs, k: Key, c: Credential, db: Name, site: Name)
    ensures LoginsOf(Inserted(dbs, k, c), db, site).Some? <==> LoginsOf(dbs, db, site).Some? || (db == k.db && site == k.site)
    ensures LoginsOf(Deleted(dbs, k), db, site).Some? <==> LoginsOf(dbs, db, site).Some?
    ensures Keys(Deleted(dbs, k)) == Keys(dbs)
    ensures Keys(Inserted(dbs, k, c)) == if k.db in Keys(dbs) then Keys(dbs) else Keys(dbs) + [k.db]
    ensures var sites, after := OrEmpty(Get(dbs, k.db)), OrEmpty(Get(Inserted(dbs, k, c), k.db));
            Keys(after) == if k.site in Keys(sites) then Keys(sites) else Keys(sites) + [k.site]
  {
    hide Get, Put, Drop;
    var sites := OrEmpty(Get(dbs, k.db));
    forall l: Logins
      ensures Keys(WithLogins(dbs, k.db, k.site, l)) == if k.db in Keys(dbs) then Keys(dbs) else Keys(dbs) + [k.db]
      ensures Get(WithLogins(dbs, k.db, k.site, l), k.db) == Some(Put(sites, k.site, l))
      ensures LoginsOf(WithLogins(dbs, k.db, k.site, l), k.db, k.site) == Some(l)
      ensures db != k.db || site != k.site ==>
                LoginsOf(WithLogins(dbs, k.db, k.site, l), db, site) == LoginsOf(dbs, db, site)
      ensures Keys(Put(sites, k.site, l)) == if k.site in Keys(sites) then Keys(sites) else Keys(sites) + [k.site]
    {
      PutKeys(dbs, k.db, Put(sites, k.site, l));
      PutKeys(sites, k.site, l);
      PutThenGet(dbs, k.db, Put(sites, k.site, l));
      WrittenThere(dbs, k.db, k.site, l);
      if db != k.db || site != k.site { WrittenElsewhere(dbs, k.db, k.site, l, db, site); }
    }
    GotIsKey(dbs, k.db);
  }

  function Keys<V>(s: seq<Node<Name, V>>): seq<Name> {
    seq(|s|, i requires 0 <= i < |s| => s[i].key)
  }

  lemma PutKeys<V>(s: seq<Node<Name, V>>, key: Name, value: V)
    ensures Keys(Put(s, key, value)) == if key in Keys(s) then Keys(s) else Keys(s) + [key]
  {
    GotIsKey(s, key);
  }

  lemma GotIsKey<V>(s: seq<Node<Name, V>>, key: Name)
    ensures Get(s, key).Some? <==> key in Keys(s)
    ensures IndexOf(s, key) < |s| <==> key in Keys(s)
  {
    var i := IndexOf(s, key);
    if i < |s| { assert Keys(s)[i] == key; }
    if key in Keys(s) {
      var j :| 0 <= j < |s| && Keys(s)[j] == key;
    }
  }

  /** Without a database or a site the newest one is taken: the entry that was put at the end of the last lists comes first. */
  lemma NewestOfAll(dbs: Dbs, db: Name, sites: Sites, site: Name, logins: Logins, login: Name, c: Credential)
    ensures FirstKey(dbs + [Node(db, sites + [Node(site, logins + [Node(login, c)])])], None, None)
            == Some(Key(db, site, login))
  {}

  /** A walk over everything goes through the databases in order, in each through its sites in order. */
  lemma {:induction false} PlacesInOrder(dbs: Dbs, db: Name, sites: Sites, more: Dbs)
    ensures PlacesOf(dbs + [Node(db, sites)] + more, None, None)
            == PlacesOf(dbs, None, None)
               + seq(|sites|, i requires 0 <= i < |sites| => Place(db, sites[i].key, sites[i].value))
               + PlacesOf(more, None, None)
  {
    if dbs == [] {
      assert dbs + [Node(db, sites)] + more == [Node(db, sites)] + more;
      SitesInOrder(db, sites);
    } else {
      assert (dbs + [Node(db, sites)] + more)[0] == dbs[0];
      assert (dbs + [Node(db, sites)] + more)[1..] == dbs[1..] + [Node(db, sites)] + more;
      PlacesInOrder(dbs[1..], db, sites, more);
    }
  }

  lemma {:induction false} SitesInOrder(db: Name, sites: Sites)
    ensures PlacesOfAllSites(db, sites) == seq(|sites|, i requires 0 <= i < |sites| => Place(db, sites[i].key, sites[i].value))
  {
    if sites != [] { SitesInOrder(db, sites[1..]); }
  }

  /** A new credential keeps what it is given, but is active only with a password and pending only with a candidate. */
  lemma CreatedAs(pwd: Bytes, newPwd: Bytes, pending: bool, active: bool, stamp: int)
    ensures var c := NewCredential(pwd, newPwd, pending, active, stamp);
            && c.pwd == pwd && c.newPwd == newPwd && c.stamp == stamp
            && (c.active <==> active && |pwd| > 0) && (c.pending <==> pending && |newPwd| > 0)
  {}

  /** An entry that is created by its key alone is blank, and none is created for an incomplete key. */
  lemma BlankEntry(dbs: Dbs, k: Key, now: int)
    requires Good(dbs)
    ensures k.db == [] || k.site == [] || k.login == [] ==>
              Apply(dbs, Op.InsertByKey(k, now)) == Apply(dbs, Op.SearchByKey(k, now)) == dbs
    ensures k.db != [] && k.site != [] && k.login != [] && Lookup(dbs, k).None? ==>
              Lookup(Apply(dbs, Op.InsertByKey(k, now)), k) == Lookup(Apply(dbs, Op.SearchByKey(k, now)), k)
              == Some(Credential([], [], false, false, now))
  {
    hide Lookup, Good, Inserted;
    InsertRefines(dbs, k, Credential([], [], false, false, now), k);
  }

  // ------------------------------------------------------------------ the object

  class Index {
    var dbs: Dbs

    constructor ()
      ensures dbs == []
    {
      dbs := [];
    }

    /** auth_db_search: find or insert. */
    method SearchDb(db: Name) returns (i: nat)
      modifies this
      ensures dbs == Put(old(dbs), db, OrEmpty(Get(old(dbs), db)))
      ensures i == IndexOf(dbs, db) < |dbs|
    {
      i := Find(dbs, db);
      if i == |dbs| {
        dbs := dbs + [Node(db, [])];
        OnlyIndex(dbs, db, i);
      } else {
        assert dbs[i] == Node(db, dbs[i].value);
      }
    }

    /** auth_sId_search: find or insert. */
    method SearchSite(i: nat, site: Name) returns (j: nat)
      requires i < |dbs|
      modifies this
      ensures dbs == old(dbs)[i := Node(old(dbs)[i].key, Put(old(dbs)[i].value, site, OrEmpty(Get(old(dbs)[i].value, site))))]
      ensures j == IndexOf(dbs[i].value, site) < |dbs[i].value|
    {
      var sites := dbs[i].value;
      j := Find(sites, site);
      if j == |sites| {
        sites := sites + [Node(site, [])];
        OnlyIndex(sites, site, j);
        dbs := dbs[i := Node(dbs[i].key, sites)];
      } else {
        PutSame(sites, site);
        assert dbs[i] == Node(dbs[i].key, sites);
      }
    }

    method SetLogins(i: nat, j: nat, logins: Logins)
      requires i < |dbs| && j < |dbs[i].value|
      modifies this
      ensures dbs == old(dbs)[i := Node(old(dbs)[i].key, old(dbs)[i].value[j := Node(old(dbs)[i].value[j].key, logins)])]
    {
      var sites := dbs[i].value;
      dbs := dbs[i := Node(dbs[i].key, sites[j := Node(sites[j].key, logins)])];
    }

    /** The two searches an insertion starts with: the site's place and its logins. */
    method SearchBoth(k: Key) returns (i: nat, j: nat)
      modifies this
      ensures i < |dbs| && j < |dbs[i].value| && dbs[i].value[j].value == OrEmpty(LoginsOf(old(dbs), k.db, k.site))
      ensures dbs == Ensured(old(dbs), k)
      ensures forall logins :: dbs[i := Node(dbs[i].key, dbs[i].value[j := Node(dbs[i].value[j].key, logins)])]
                               == WithLogins(old(dbs), k.db, k.site, logins)
    {
      ghost var was, sites := dbs, OrEmpty(Get(dbs, k.db));
      ghost var logins := OrEmpty(Get(sites, k.site));
      i := SearchDb(k.db);
      PutTwice(was, k.db, sites, Put(sites, k.site, logins));
      j := SearchSite(i, k.site);
      PutTwice(sites, k.site, logins, logins);
      assert dbs == Put(was, k.db, Put(sites, k.site, logins));
      forall l ensures dbs[i := Node(dbs[i].key, dbs[i].value[j := Node(dbs[i].value[j].key, l)])]
                       == WithLogins(was, k.db, k.site, l) {
        PutTwice(sites, k.site, logins, l);
        PutTwice(was, k.db, Put(sites, k.site, logins), Put(sites, k.site, l));
      }
    }

    /** auth_insert. */
    method Insert(k: Key, c: Credential) returns (ok: bool)
      modifies this
      ensures dbs == Inserted(old(dbs), k, c) && (ok <==> Lookup(old(dbs), k).None?)
    {
      var i, j := SearchBoth(k);
      var logins := dbs[i].value[j].value;
      var m := Find(logins, k.login);
      ok := m == |logins|;
      if ok {
        SetLogins(i, j, logins + [Node(k.login, c)]);
      }
    }

    /** auth_insert_or_update. */
    method InsertOrUpdate(k: Key, c: Credential)
      modifies this
      ensures dbs == Replaced(old(dbs), k, c)
    {
      var i, j := SearchBoth(k);
      var logins := dbs[i].value[j].value;
      var m := Find(logins, k.login);
      if m < |logins| {
        logins := logins[..m] + logins[m + 1..];
      }
      SetLogins(i, j, logins + [Node(k.login, c)]);
    }

    /** auth_find_by_key. */
    method FindByKey(k: Key) returns (c: Option<Credential>)
      ensures c == Lookup(dbs, k)
    {
      c := None;
      var i := Find(dbs, k.db);
      if i < |dbs| {
        var sites := dbs[i].value;
        var j := Find(sites, k.site);
        if j < |sites| {
          var logins := sites[j].value;
          var m := Find(logins, k.login);
          if m < |logins| { c := Some(logins[m].value); }
        }
      }
    }

    /** auth_insert_by_key: an incomplete key or an existing entry gives nothing. */
    method InsertByKey(k: Key, now: int) returns (c: Option<Credential>)
      modifies this
      ensures dbs == Apply(old(dbs), Op.InsertByKey(k, now))
      ensures c == if k.db != [] && k.site != [] && k.login != [] && Lookup(old(dbs), k).None?
                then Some(Credential([], [], false, false, now)) else None
    {
      if k.db == [] || k.login == [] || k.site == [] { return None; }
      var blank := NewCredential([], [], false, false, now);
      var ok := Insert(k, blank);
      return if ok then Some(blank) else None;
    }

    /** auth_search_by_key: find or create. */
    method SearchByKey(k: Key, now: int) returns (c: Option<Credential>)
      modifies this
      ensures dbs == Apply(old(dbs), Op.SearchByKey(k, now))
      ensures c == if k.db == [] || k.site == [] || k.login == [] then None
                   else if Lookup(old(dbs), k).Some? then Lookup(old(dbs), k)
                   else Some(Credential([], [], false, false, now))
    {
      if k.db == [] || k.login == [] || k.site == [] { return None; }
      var blank := NewCredential([], [], false, false, now);
      c := FindByKey(k);
      var ok := Insert(k, blank);
      if ok { c := Some(blank); }
    }

    /** auth_delete_by_key. */
    method DeleteByKey(k: Key)
      modifies this
      ensures dbs == Deleted(old(dbs), k)
    {
      var i := Find(dbs, k.db);
      if i < |dbs| {
        var sites := dbs[i].value;
        var j := Find(sites, k.site);
        if j < |sites| {
          var logins := sites[j].value;
          var m := Find(logins, k.login);
          if m < |logins| {
            logins := logins[..m] + logins[m + 1..];
          }
          SetLogins(i, j, logins);
        }
      }
    }

    /** auth_foreach_login. */
    method ForeachLogin<S>(db: Name, site: Name, logins: Logins, fct: Callback<S>, s: S) returns (end: S, n: nat)
      ensures (end, n) == VisitLogins(db, site, logins, fct, s)
    {
      end, n := s, 0;
      var i := 0;
      while i < |logins|
        invariant 0 <= i <= |logins| && i == n
        invariant VisitLogins(db, site, logins, fct, s)
                  == Plus(VisitLogins(db, site, logins[i..], fct, end), n)
      {
        assert logins[i..][1..] == logins[i + 1..];
        var (next, goOn) := fct(end, Key(db, site, logins[i].key), logins[i].value);
        end := next;
        if !goOn { return; }
        n := n + 1;
        i := i + 1;
      }
    }

    /** auth_foreach_sId. */
    method ForeachSite<S>(db: Name, sites: Sites, site: Option<Name>, fct: Callback<S>, s: S) returns (end: S, n: nat)
      ensures (end, n) == VisitSites(db, sites, site, fct, s)
    {
      end, n := s, 0;
      if site.Some? {
        var i := Find(sites, site.value);
        if i < |sites| { end, n := ForeachLogin(db, site.value, sites[i].value, fct, s); }
      } else {
        for i := 0 to |sites|
          invariant VisitAllSites(db, sites, fct, s) == Plus(VisitAllSites(db, sites[i..], fct, end), n)
        {
          assert sites[i..][1..] == sites[i + 1..];
          var m;
          end, m := ForeachLogin(db, sites[i].key, sites[i].value, fct, end);
          n := n + m;
        }
      }
    }

    /** auth_foreach. */
    method Foreach<S>(db: Option<Name>, site: Option<Name>, fct: Callback<S>, s: S) returns (end: S, n: nat)
      ensures (end, n) == Visit(dbs, db, site, fct, s)
    {
      end, n := s, 0;
      if db.Some? {
        var i := Find(dbs, db.value);
        if i < |dbs| { end, n := ForeachSite(db.value, dbs[i].value, site, fct, s); }
      } else {
        for i := 0 to |dbs|
          invariant VisitAllDbs(dbs, site, fct, s) == Plus(VisitAllDbs(dbs[i..], site, fct, end), n)
        {
          assert dbs[i..][1..] == dbs[i + 1..];
          var m;
          end, m := ForeachSite(dbs[i].key, dbs[i].value, site, fct, end);
          n := n + m;
        }
      }
    }

    /** auth_get_first: the newest login of the newest site of the newest database, each level unless given. */
    method GetFirst(db: Option<Name>, site: Option<Name>) returns (k: Option<Key>)
      ensures k == FirstKey(dbs, db, site)
      ensures Good(dbs) && k.Some? ==> Lookup(dbs, k.value).Some?
    {
      k := None;
      if dbs == [] { return; }
      var i := |dbs| - 1;
      if db.Some? { i := Find(dbs, db.value); }
      if i == |dbs| || dbs[i].value == [] { return; }
      var sites := dbs[i].value;
      var j := |sites| - 1;
      if site.Some? { j := Find(sites, site.value); }
      if j == |sites| || sites[j].value == [] { return; }
      var logins := sites[j].value;
      k := Some(Key(dbs[i].key, sites[j].key, logins[|logins| - 1].key));
      if Good(dbs) {
        GetAt(dbs, i);
        GetAt(sites, j);
        GetAt(logins, |logins| - 1);
      }
    }

    /** auth_get_next_from_auth, for an entry that is in the index: the node behind it or, past the root of the list, the
        first one, unless that is the entry itself. */
    method GetNext(k: Key) returns (next: Option<Key>)
      requires Lookup(dbs, k).Some?
      ensures next == NextKey(dbs, k)
      ensures next.Some? ==> next.value.db == k.db && next.value.site == k.site
      ensures Good(dbs) && next.Some? ==> next.value != k && Lookup(dbs, next.value).Some?
    {
      var i := Find(dbs, k.db);
      var j := Find(dbs[i].value, k.site);
      var logins := dbs[i].value[j].value;
      var m := Find(logins, k.login);
      if Good(dbs) { LoginsDistinct(dbs, k.db, k.site); }
      if m + 1 < |logins| {
        if Good(dbs) { OnlyPlace(logins, m + 1); }
        return Some(k.(login := logins[m + 1].key));
      }
      if m != 0 {
        if Good(dbs) { OnlyPlace(logins, 0); }
        return Some(k.(login := logins[0].key));
      }
      return None;
    }
  }

  function Plus<S>(r: (S, nat), n: nat): (S, nat) {
    (r.0, r.1 + n)
  }
}
