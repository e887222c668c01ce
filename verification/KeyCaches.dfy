/** The two peers with the keys their processes keep: every seal and every opening takes the key cached with the
    credential for the session's cipher, and a change of a password purges only that one. The protocol of module
    Network recomputes each key instead. It is what the program does as long as the sessions have used one cipher
    since the caches were last empty; a second cipher breaks it. */
module KeyCaches {
  import opened Basics
  import opened Wire
  import opened Credentials
  import opened Peers
  import opened Network
  import opened SecretCache
  import opened ChallengeInvariant
  import opened Agreement
  import Base64

  type Caches = map<Login, map<string, Key>>

  /** The keys kept with the TO and with the FROM entries, and the login of the message in hand. */
  datatype Keys = Keys(to: Caches, from: Caches, handled: Option<Login>)

  const NO_KEYS := Keys(map[], map[], None)

  datatype System = System(net: Net, left: Keys, right: Keys) {

    function At(s: Side): Keys { if s == Left then left else right }

    function With(s: Side, k: Keys): System {
      if s == Left then this.(left := k) else this.(right := k)
    }
  }

  function ToOwner(p: Peer, l: Login): Owner {
    Owner(Encrypt, p.me, l, p.remote)
  }

  function FromOwner(p: Peer, l: Login): Owner {
    Owner(Decrypt, p.me, l, p.remote)
  }

  function CacheOf(caches: Caches, l: Login): map<string, Key> {
    if l in caches then caches[l] else map[]
  }

  function ToEntry(p: Peer, k: Keys, l: Login): Entry
    requires l in p.mem.to
  {
    Entry(p.mem.to[l].pwd, CacheOf(k.to, l))
  }

  function FromEntry(p: Peer, k: Keys, l: Login): Entry
    requires l in p.mem.from
  {
    Entry(p.mem.from[l].pwd, CacheOf(k.from, l))
  }

  function AfterSeal(p: Peer, k: Keys, l: Login): Keys
    requires l in p.mem.to
  {
    k.(to := k.to[l := AfterUse(ToOwner(p, l), ToEntry(p, k, l), p.cipher).cache])
  }

  function AfterOpen(p: Peer, k: Keys, l: Login): Keys
    requires l in p.mem.from
  {
    k.(from := k.from[l := AfterUse(FromOwner(p, l), FromEntry(p, k, l), p.cipher).cache])
  }

  // ------------------------------------------------------------- steps that use keys

  /** The login a queued message goes under, if it has one. */
  function SealLogin(p: Peer, o: Outgoing): Option<Login> {
    match o
    case Ready(_) => None
    case ToSeal(login, _) =>
      var l := if login.Some? then login else FirstLogin(p.mem.order);
      if l.Some? && l.value in p.mem.to then l else None
  }

  function SealWithCache(p: Peer, k: Keys, o: Outgoing): Option<Envelope> {
    match o
    case Ready(e) => Some(e)
    case ToSeal(_, body) =>
      match SealLogin(p, o)
      case None => None
      case Some(l) => Some(Envelope(l, [Sealed(KeyUsed(ToOwner(p, l), ToEntry(p, k, l), p.cipher), body)]))
  }

  function KeysAfterTransmit(p: Peer, k: Keys, o: Outgoing): Keys {
    match SealLogin(p, o)
    case None => k
    case Some(l) => AfterSeal(p, k, l)
  }

  function ReceiveWithCache(p: Peer, k: Keys, e: Envelope): Peer {
    if e.login !in p.mem.from then p
    else
      var list := Opened(e.data, KeyUsed(FromOwner(p, e.login), FromEntry(p, k, e.login), p.cipher));
      p.(inq := p.inq + Internal(e.login, list), extq := p.extq + External(list))
  }

  function KeysAfterReceive(p: Peer, k: Keys, e: Envelope): Keys {
    if e.login in p.mem.from then AfterOpen(p, k, e.login) else k
  }

  /** The challenge takes the cached key for the request and derives the key of the ping anew. */
  function EmitWithCache(p: Peer, k: Keys, mIdRequest: nat, mIdPing: nat): Peer
    requires CanEmit(p)
  {
    var q := EmitStep(p, mIdRequest, mIdPing);
    match p.phase
    case Stored(l) =>
      var a := p.mem.to[l];
      q.(sendq := p.sendq + [Ready(Envelope(l, [
        Sealed(KeyUsed(ToOwner(p, l), ToEntry(p, k, l), p.cipher), ChangePwdRequest(mIdRequest, Base64.Encode(a.newPwd))),
        Sealed(SealKey(p, l, a.newPwd), Ping(mIdPing))]))])
    case _ => q
  }

  function KeysAfterEmit(p: Peer, k: Keys): Keys
    requires CanEmit(p)
  {
    match p.phase
    case Stored(l) => AfterSeal(p, k, l)
    case _ => k
  }

  /** The entry whose password the event in hand has changed and is about to save. */
  function ChangingTo(p: Peer): Option<Login> {
    if p.phase.Switched? then CurrentLogin(p) else None
  }

  function ChangingFrom(p: Peer, k: Keys): Option<Login> {
    if p.phase.Installed? then k.handled else None
  }

  function Purged(caches: Caches, changed: Option<Login>, cipher: string): Caches {
    if changed.Some? && changed.value in caches then caches[changed.value := caches[changed.value] - {cipher}] else caches
  }

  /** After a changed password is saved, the key of the session's cipher is purged from its entry. */
  function KeysAfterSave(p: Peer, k: Keys): Keys {
    k.(to := Purged(k.to, ChangingTo(p), p.cipher), from := Purged(k.from, ChangingFrom(p, k), p.cipher))
  }

  /** A step of the program; the time a thread is late is no choice here but the state of its cache. */
  function CNext(c: System, a: Label): System
    requires Enabled(c.net, a)
  {
    match a
    case Process(s, _) => System(Next(c.net, a), c.left, c.right).With(s, c.At(s).(handled := Some(c.net.At(s).inq[0].login)))
    case Save(s) => System(Next(c.net, a), c.left, c.right).With(s, KeysAfterSave(c.net.At(s), c.At(s)))
    case Emit(s) =>
      var p, k := c.net.At(s), c.At(s);
      c.(net := c.net.With(s, EmitWithCache(p, k, c.net.nextId, c.net.nextId + 1)).(nextId := c.net.nextId + 2))
       .With(s, KeysAfterEmit(p, k))
    case Transmit(s, _) =>
      var p, k := c.net.At(s), c.At(s);
      var o := p.sendq[0];
      c.(net := c.net.With(s, p.(sendq := p.sendq[1..])).WithFrom(s, PutOnWire(c.net.From(s), SealWithCache(p, k, o))))
       .With(s, KeysAfterTransmit(p, k, o))
    case Receive(s, _) =>
      var p, k, w := c.net.At(s), c.At(s), c.net.From(Other(s));
      var e := w.log[w.taken];
      c.(net := c.net.With(s, ReceiveWithCache(p, k, e)).WithFrom(Other(s), w.(taken := w.taken + 1)))
       .With(s, KeysAfterReceive(p, k, e))
    case Crash(s) => System(Next(c.net, a), c.left, c.right).With(s, NO_KEYS)
    case _ => c.(net := Next(c.net, a))
  }

  // -------------------------------------------------------------- when caches are right

  /** Every key cached with an entry is that of the password in the file or, for the session's cipher, of the one in
      memory; either the keys of all ciphers are looked at or only those of the session's. */
  predicate RightEntry(o: Owner, session: string, cache: map<string, Key>, memory: Bytes, file: Bytes, all: bool) {
    forall c :: c in cache && (all || c == session) ==>
      cache[c] == KeyFor(o, c, file) || (c == session && cache[c] == KeyFor(o, c, memory))
  }

  predicate RightCaches(p: Peer, action: Action, caches: Caches, mem: map<Login, Auth>, disk: map<Login, Auth>,
                        all: bool) {
    forall l :: l in caches ==>
      && l in mem && l in disk
      && RightEntry(Owner(action, p.me, l, p.remote), p.cipher, caches[l], mem[l].pwd, disk[l].pwd, all)
  }

  predicate KeysRight(p: Peer, k: Keys, all: bool) {
    RightCaches(p, Encrypt, k.to, p.mem.to, p.disk.to, all) && RightCaches(p, Decrypt, k.from, p.mem.from, p.disk.from, all)
  }

  predicate SavedBut(mem: map<Login, Auth>, disk: map<Login, Auth>, changed: Option<Login>) {
    mem.Keys == disk.Keys && forall l :: l in mem && Some(l) != changed ==> mem[l].pwd == disk[l].pwd
  }

  /** While a received password is not saved, it is that of the message in hand. */
  predicate Handling(p: Peer, k: Keys) {
    SavedBut(p.mem.from, p.disk.from, ChangingFrom(p, k))
  }

  /** The changed entry's cache has a key of another cipher, which outlives the change of the password. */
  predicate Outlives(caches: Caches, mem: map<Login, Auth>, disk: map<Login, Auth>, changed: Option<Login>,
                     cipher: string) {
    && changed.Some? && changed.value in caches && changed.value in mem && changed.value in disk
    && mem[changed.value].pwd != disk[changed.value].pwd
    && exists c :: c in caches[changed.value] && c != cipher
  }

  /** Some key cached for the cipher is not that of its entry's password. */
  predicate StaleUnder(p: Peer, k: Keys, cipher: string) {
    || (exists l :: l in k.to && l in p.mem.to && IsLate(ToOwner(p, l), ToEntry(p, k, l), cipher))
    || (exists l :: l in k.from && l in p.mem.from && IsLate(FromOwner(p, l), FromEntry(p, k, l), cipher))
  }

  predicate LeavesStale(p: Peer, k: Keys) {
    || Outlives(k.to, p.mem.to, p.disk.to, ChangingTo(p), p.cipher)
    || Outlives(k.from, p.mem.from, p.disk.from, ChangingFrom(p, k), p.cipher)
  }

  lemma PurgeKeepsRightIff(o: Owner, session: string, cache: map<string, Key>, memory: Bytes, file: Bytes, all: bool)
    requires RightEntry(o, session, cache, memory, file, all)
    ensures RightEntry(o, session, cache - {session}, memory, memory, all)
            <==> (all ==> memory == file || forall c :: c in cache ==> c == session)
  {
    if c :| c in cache && c != session {
      OtherPwdOtherKey(o, c, memory, file);
      assert c in cache - {session};
    }
  }

  lemma CachesAfterSave(p: Peer, action: Action, caches: Caches, mem: map<Login, Auth>, disk: map<Login, Auth>,
                        changed: Option<Login>, all: bool)
    requires RightCaches(p, action, caches, mem, disk, all) && SavedBut(mem, disk, changed)
    ensures RightCaches(p, action, Purged(caches, changed, p.cipher), mem, mem, all)
            <==> !(all && Outlives(caches, mem, disk, changed, p.cipher))
  {
    if changed.Some? && changed.value in caches {
      var l := changed.value;
      PurgeKeepsRightIff(Owner(action, p.me, l, p.remote), p.cipher, caches[l], mem[l].pwd, disk[l].pwd, all);
    }
  }

  /** The save of a changed password always leaves the session's keys right, and those of all ciphers unless the entry's
      cache has a key of another one. */
  lemma SaveKeepsRightIff(p: Peer, k: Keys, all: bool)
    requires PeerGood(p) && KeysRight(p, k, all) && Handling(p, k) && CanSave(p)
    ensures KeysRight(SaveStep(p), KeysAfterSave(p, k), all) <==> !(all && LeavesStale(p, k))
  {
    hide RightCaches, Outlives, Purged, SavedBut, ChangingFrom, PeerGood;
    var q := SaveStep(p);
    ToSaved(p);
    CachesAfterSave(p, Encrypt, k.to, p.mem.to, p.disk.to, ChangingTo(p), all);
    CachesAfterSave(p, Decrypt, k.from, p.mem.from, p.disk.from, ChangingFrom(p, k), all);
    SamePlace(p, q, Encrypt, Purged(k.to, ChangingTo(p), p.cipher), p.mem.to, all);
    SamePlace(p, q, Decrypt, Purged(k.from, ChangingFrom(p, k), p.cipher), p.mem.from, all);
  }

  lemma ToSaved(p: Peer)
    requires PeerGood(p)
    ensures SavedBut(p.mem.to, p.disk.to, ChangingTo(p))
  {
    hide GoodStore, ContextGood;
  }

  lemma SamePlace(p: Peer, q: Peer, action: Action, caches: Caches, mem: map<Login, Auth>, all: bool)
    requires q.me == p.me && q.remote == p.remote && q.cipher == p.cipher
    ensures RightCaches(p, action, caches, mem, mem, all) <==> RightCaches(q, action, caches, mem, mem, all)
  {}

  // ------------------------------------------------------------- the keys that are used

  /** The cached key is not that of the password in memory. */
  predicate IsLate(o: Owner, e: Entry, cipher: string) {
    cipher in e.cache && e.cache[cipher] != KeyFor(o, cipher, e.pwd)
  }

  predicate SealsLate(p: Peer, k: Keys, o: Outgoing) {
    var l := SealLogin(p, o);
    l.Some? && l.value in p.mem.to && IsLate(ToOwner(p, l.value), ToEntry(p, k, l.value), p.cipher)
  }

  predicate OpensLate(p: Peer, k: Keys, e: Envelope) {
    e.login in p.mem.from && IsLate(FromOwner(p, e.login), FromEntry(p, k, e.login), p.cipher)
  }

  lemma KeyOfMemoryOrFile(o: Owner, e: Entry, session: string, file: Bytes, all: bool)
    requires RightEntry(o, session, e.cache, e.pwd, file, all)
    ensures KeyUsed(o, e, session) == KeyFor(o, session, if IsLate(o, e, session) then file else e.pwd)
    ensures RightEntry(o, session, AfterUse(o, e, session).cache, e.pwd, file, all)
  {}

  lemma SealsTo(p: Peer, k: Keys, l: Login, all: bool)
    requires KeysRight(p, k, all) && l in p.mem.to && p.mem.to.Keys == p.disk.to.Keys
    ensures KeyUsed(ToOwner(p, l), ToEntry(p, k, l), p.cipher)
            == SealKey(p, l, Held(p.mem.to, p.disk.to, l, IsLate(ToOwner(p, l), ToEntry(p, k, l), p.cipher)))
    ensures KeysRight(p, AfterSeal(p, k, l), all)
  {
    KeyOfMemoryOrFile(ToOwner(p, l), ToEntry(p, k, l), p.cipher, p.disk.to[l].pwd, all);
  }

  lemma OpensFrom(p: Peer, k: Keys, l: Login, all: bool)
    requires KeysRight(p, k, all) && l in p.mem.from && p.mem.from.Keys == p.disk.from.Keys
    ensures KeyUsed(FromOwner(p, l), FromEntry(p, k, l), p.cipher)
            == OpenKey(p, l, IsLate(FromOwner(p, l), FromEntry(p, k, l), p.cipher))
    ensures KeysRight(p, AfterOpen(p, k, l), all)
  {
    KeyOfMemoryOrFile(FromOwner(p, l), FromEntry(p, k, l), p.cipher, p.disk.from[l].pwd, all);
  }

  lemma TransmitRefines(p: Peer, k: Keys, o: Outgoing, all: bool)
    requires KeysRight(p, k, all) && PeerGood(p)
    ensures SealWithCache(p, k, o) == Sent(p, o, SealsLate(p, k, o)) && KeysRight(p, KeysAfterTransmit(p, k, o), all)
  {
    hide PeerGood, KeysRight, AfterSeal, IsLate;
    SavedKeys(p);
    if SealLogin(p, o).Some? { SealsTo(p, k, SealLogin(p, o).value, all); }
  }

  lemma ReceiveRefines(p: Peer, k: Keys, e: Envelope, all: bool)
    requires KeysRight(p, k, all) && PeerGood(p)
    ensures ReceiveWithCache(p, k, e) == Peers.Receive(p, e, OpensLate(p, k, e))
    ensures KeysRight(p, KeysAfterReceive(p, k, e), all)
  {
    hide PeerGood, KeysRight, AfterOpen, IsLate, Opened, OpenKey;
    SavedKeys(p);
    if e.login in p.mem.from { OpensFrom(p, k, e.login, all); }
  }

  /** The challenge is sealed outside every change, so the cached key is that of the current password. */
  lemma EmitRefines(p: Peer, k: Keys, m1: nat, m2: nat, all: bool)
    requires KeysRight(p, k, all) && PeerGood(p) && CanEmit(p)
    ensures EmitWithCache(p, k, m1, m2) == EmitStep(p, m1, m2) && KeysRight(p, KeysAfterEmit(p, k), all)
  {
    hide PeerGood, KeysRight, AfterSeal, IsLate, Base64.Encode;
    SavedKeys(p);
    StoredSaved(p);
    if p.phase.Stored? { SealsTo(p, k, p.phase.login, all); }
  }

  lemma StoredSaved(p: Peer)
    requires PeerGood(p)
    ensures p.phase.Stored? || p.phase.Idle? ==> p.disk.to == p.mem.to
    ensures !p.phase.Installed? ==> p.disk.from == p.mem.from
  {}

  // ---------------------------------------------------------------------- every step

  predicate SideRight(p: Peer, k: Keys, all: bool) {
    KeysRight(p, k, all) && Handling(p, k)
  }

  ghost predicate CRight(c: System, all: bool) {
    Inv(c.net) && SideRight(c.net.left, c.left, all) && SideRight(c.net.right, c.right, all)
  }

  /** The step of module Network that the program takes: late says which key its cache gave it. */
  function Refined(c: System, a: Label): Label
    requires Enabled(c.net, a)
  {
    match a
    case Transmit(s, _) => Transmit(s, SealsLate(c.net.At(s), c.At(s), c.net.At(s).sendq[0]))
    case Receive(s, _) =>
      var w := c.net.From(Other(s));
      Receive(s, OpensLate(c.net.At(s), c.At(s), w.log[w.taken]))
    case _ => a
  }

  predicate SamePasswordsKept(p: Peer, p': Peer) {
    && p'.me == p.me && p'.remote == p.remote && p'.cipher == p.cipher && p'.disk == p.disk
    && p'.mem.to.Keys == p.mem.to.Keys && p'.mem.from == p.mem.from
    && (forall l :: l in p.mem.to ==> p'.mem.to[l].pwd == p.mem.to[l].pwd)
    && (p'.phase.Installed? <==> p.phase.Installed?)
  }

  lemma KeptRight(p: Peer, p': Peer, k: Keys, all: bool)
    requires SideRight(p, k, all) && SamePasswordsKept(p, p')
    ensures SideRight(p', k, all)
  {}

  lemma ScanKept(p: Peer, now: int, candidate: Bytes)
    requires p.phase.Idle?
    ensures SamePasswordsKept(p, Begin(p, now, candidate))
  {
    hide DueLogin;
  }

  lemma OthersKept(p: Peer, e: Envelope, late: bool, login: Option<Login>, payload: Bytes, m1: nat, m2: nat)
    ensures SamePasswordsKept(p, Peers.Receive(p, e, late)) && SamePasswordsKept(p, Peers.Send(p, login, payload))
    ensures SamePasswordsKept(p, Stop(p)) && (CanEmit(p) ==> SamePasswordsKept(p, EmitStep(p, m1, m2)))
  {
    hide Opened, Internal, External, SendLogin, ChallengeEnvelope;
  }

  /** Before an event memory and file are the same, so the cached keys are those of the file during it. */
  lemma ProcessRight(p: Peer, k: Keys, now: int, all: bool)
    requires SideRight(p, k, all) && PeerGood(p) && p.phase.Idle? && p.inq != []
    ensures SideRight(Peers.Process(p, now), k.(handled := Some(p.inq[0].login)), all)
  {
    hide PeerGood, RightEntry, Peers.Process;
    StoredSaved(p);
    SavedKeys(p);
    ProcessChanges(p, now);
    var p', k' := Peers.Process(p, now), k.(handled := Some(p.inq[0].login));
    OnFile(p, p', Encrypt, k.to, p.mem.to, p'.mem.to, all);
    OnFile(p, p', Decrypt, k.from, p.mem.from, p'.mem.from, all);
  }

  lemma OnFile(p: Peer, p': Peer, action: Action, caches: Caches, mem: map<Login, Auth>, mem': map<Login, Auth>,
               all: bool)
    requires RightCaches(p, action, caches, mem, mem, all) && mem'.Keys == mem.Keys
    requires p'.me == p.me && p'.remote == p.remote && p'.cipher == p.cipher
    ensures RightCaches(p', action, caches, mem', mem, all)
  {}

  lemma ProcessChanges(p: Peer, now: int)
    requires p.phase.Idle? && p.inq != []
    ensures ChangesOne(p, Peers.Process(p, now), p.inq[0].login)
  {
    hide OnRequest, OnResponse, OnPong, ChangesOne;
    var x, p0 := p.inq[0], p.(inq := p.inq[1..]);
    match x.body {
      case ChangePwdRequest(m, text) => RequestChanges(p0, x.login, m, text, now);
      case ChangePwdResponse(o, status) => AnswerChanges(p0, x.login, o, status, now);
      case Pong(o) => AnswerChanges(p0, x.login, o, true, now);
      case _ => NothingChanges(p0, Peers.Process(p, now), x.login);
    }
    PoppedChanges(p, p0, Peers.Process(p, now), x.login);
  }

  /** The passwords of at most one FROM entry, or of TO entries, change in memory. */
  predicate ChangesOne(p: Peer, p': Peer, l: Login) {
    && p'.me == p.me && p'.remote == p.remote && p'.cipher == p.cipher && p'.disk == p.disk
    && p'.mem.to.Keys == p.mem.to.Keys && p'.mem.from.Keys == p.mem.from.Keys
    && (!p'.phase.Installed? ==> p'.mem.from == p.mem.from)
    && (forall k :: k in p.mem.from && k != l ==> p'.mem.from[k] == p.mem.from[k])
  }

  lemma NothingChanges(p: Peer, p': Peer, l: Login)
    requires p' == p.(sendq := p'.sendq, allClearRxed := p'.allClearRxed)
    ensures ChangesOne(p, p', l)
  {}

  lemma PoppedChanges(p: Peer, p0: Peer, p': Peer, l: Login)
    requires p0 == p.(inq := p0.inq)
    ensures ChangesOne(p, p', l) <==> ChangesOne(p0, p', l)
  {}

  lemma AnswerChanges(p: Peer, l: Login, o: nat, status: bool, now: int)
    requires p.phase.Idle?
    ensures ChangesOne(p, OnResponse(p, o, status, now), l) && ChangesOne(p, OnPong(p, o, now), l)
  {}

  lemma RequestChanges(p: Peer, l: Login, m: nat, text: string, now: int)
    requires p.phase.Idle?
    ensures ChangesOne(p, OnRequest(p, l, m, text, now), l)
  {
    hide Busy, GuardAccepts, Base64.Decode;
  }

  lemma StartRight(p: Peer, k: Keys, cipher: string, all: bool)
    requires SideRight(p, k, all) && PeerGood(p) && p.phase.Idle?
    ensures SideRight(Start(p, cipher), k, all) <==> all || !StaleUnder(p, k, cipher)
  {
    hide GoodStore, ContextGood;
  }

  lemma RestartRight(p: Peer, all: bool)
    requires PeerGood(p)
    ensures SideRight(Restart(p), NO_KEYS, all)
  {
    hide PeerGood, Load, Credentials.Save;
    RestartKeepsPeer(p);
    StoredSaved(Restart(p));
  }

  /** For the keys of all ciphers, the save that leaves a key of the old password in a cache; for those of the session,
      the start of one under a cipher for which such a key is left. */
  predicate GoesWrong(c: System, a: Label, all: bool) {
    if all then a.Save? && LeavesStale(c.net.At(a.side), c.At(a.side))
    else a.Connect? && (StaleUnder(c.net.left, c.left, a.cipher) || StaleUnder(c.net.right, c.right, a.cipher))
  }

  lemma SideInv(n: Net, s: Side)
    requires Inv(n)
    ensures PeerGood(n.At(s))
  {
    InvAt(n, s);
  }

  lemma RightAt(c: System, s: Side, all: bool)
    ensures SideRight(c.net.left, c.left, all) && SideRight(c.net.right, c.right, all)
            <==> SideRight(c.net.At(s), c.At(s), all) && SideRight(c.net.At(Other(s)), c.At(Other(s)), all)
  {}

  lemma ThreadRefines(c: System, a: Label, all: bool)
    requires CRight(c, all) && Enabled(c.net, a) && (a.Transmit? || a.Receive? || a.Emit?)
    ensures CNext(c, a).net == Next(c.net, Refined(c, a))
    ensures SideRight(CNext(c, a).net.At(a.side), CNext(c, a).At(a.side), all)
  {
    hide SideRight, EmitWithCache, EmitStep, CanEmit, SealWithCache, Sent, ReceiveWithCache, Peers.Receive,
         KeysAfterTransmit,
         KeysAfterReceive, KeysAfterEmit, SealsLate, OpensLate, Inv;
    var s := a.side;
    var p, k := c.net.At(s), c.At(s);
    SideInv(c.net, s);
    RightAt(c, s, all);
    match a
    case Emit(_) => EmitRight(p, k, c.net.nextId, c.net.nextId + 1, all);
    case Transmit(_, _) => TransmitRight(p, k, all);
    case Receive(_, _) =>
      var w := c.net.From(Other(s));
      ReceiveRight(p, k, w.log[w.taken], all);
  }

  lemma EmitRight(p: Peer, k: Keys, m1: nat, m2: nat, all: bool)
    requires SideRight(p, k, all) && PeerGood(p) && CanEmit(p)
    ensures EmitWithCache(p, k, m1, m2) == EmitStep(p, m1, m2)
    ensures SideRight(EmitStep(p, m1, m2), KeysAfterEmit(p, k), all)
  {
    hide PeerGood, KeysRight, EmitWithCache, EmitStep;
    EmitRefines(p, k, m1, m2, all);
    OthersKept(p, Envelope([], []), false, None, [], m1, m2);
    KeptRight(p, EmitStep(p, m1, m2), KeysAfterEmit(p, k), all);
  }

  lemma TransmitRight(p: Peer, k: Keys, all: bool)
    requires SideRight(p, k, all) && PeerGood(p) && p.sendq != []
    ensures SealWithCache(p, k, p.sendq[0]) == Sent(p, p.sendq[0], SealsLate(p, k, p.sendq[0]))
    ensures SideRight(p.(sendq := p.sendq[1..]), KeysAfterTransmit(p, k, p.sendq[0]), all)
  {
    hide PeerGood, KeysRight, SealWithCache, Sent, SealsLate;
    TransmitRefines(p, k, p.sendq[0], all);
    KeptRight(p, p.(sendq := p.sendq[1..]), KeysAfterTransmit(p, k, p.sendq[0]), all);
  }

  lemma ReceiveRight(p: Peer, k: Keys, e: Envelope, all: bool)
    requires SideRight(p, k, all) && PeerGood(p)
    ensures ReceiveWithCache(p, k, e) == Peers.Receive(p, e, OpensLate(p, k, e))
    ensures SideRight(ReceiveWithCache(p, k, e), KeysAfterReceive(p, k, e), all)
  {
    hide PeerGood, KeysRight, ReceiveWithCache, Peers.Receive, OpensLate;
    ReceiveRefines(p, k, e, all);
    OthersKept(p, e, OpensLate(p, k, e), None, [], 0, 1);
    KeptRight(p, Peers.Receive(p, e, OpensLate(p, k, e)), KeysAfterReceive(p, k, e), all);
  }

  lemma EventRight(c: System, a: Label, all: bool)
    requires CRight(c, all) && Enabled(c.net, a) && (a.Scan? || a.Process? || a.Save? || a.Send?)
    ensures CNext(c, a).net == Next(c.net, a)
    ensures SideRight(CNext(c, a).net.At(a.side), CNext(c, a).At(a.side), all) <==> !GoesWrong(c, a, all)
  {
    hide SideRight, SaveStep, CanSave, LeavesStale, Begin, GoodCandidate, Peers.Process, Peers.Send, KeysAfterSave, Inv;
    var s := a.side;
    var p, k := c.net.At(s), c.At(s);
    SideInv(c.net, s);
    RightAt(c, s, all);
    match a
    case Scan(_, now, candidate) =>
      ScanKept(p, now, candidate);
      KeptRight(p, Begin(p, now, candidate), k, all);
    case Process(_, now) => ProcessRight(p, k, now, all);
    case Save(_) => SaveRight(p, k, all);
    case Send(_, login, payload) =>
      OthersKept(p, Envelope([], []), false, login, payload, 0, 1);
      KeptRight(p, Peers.Send(p, login, payload), k, all);
  }

  lemma SaveRight(p: Peer, k: Keys, all: bool)
    requires PeerGood(p) && SideRight(p, k, all) && CanSave(p)
    ensures SideRight(SaveStep(p), KeysAfterSave(p, k), all) <==> !(all && LeavesStale(p, k))
  {
    hide PeerGood, KeysRight, LeavesStale, KeysAfterSave;
    SaveKeepsRightIff(p, k, all);
    assert Handling(SaveStep(p), KeysAfterSave(p, k));
  }

  lemma LifeRight(c: System, a: Label, all: bool)
    requires CRight(c, all) && Enabled(c.net, a) && (a.Disconnect? || a.Connect? || a.Crash?)
    ensures CNext(c, a).net == Next(c.net, a)
    ensures var d := CNext(c, a);
            SideRight(d.net.left, d.left, all) && SideRight(d.net.right, d.right, all) <==> !GoesWrong(c, a, all)
  {
    hide SideRight, Stop, Start, Restart, Inv;
    forall s: Side ensures PeerGood(c.net.At(s)) && SideRight(Stop(c.net.At(s)), c.At(s), all) {
      SideInv(c.net, s);
      OthersKept(c.net.At(s), Envelope([], []), false, None, [], 0, 1);
      KeptRight(c.net.At(s), Stop(c.net.At(s)), c.At(s), all);
    }
    assert SideRight(Stop(c.net.At(Left)), c.At(Left), all) && SideRight(Stop(c.net.At(Right)), c.At(Right), all);
    match a
    case Disconnect =>
    case Connect(cipher) =>
      StartRight(c.net.left, c.left, cipher, all);
      StartRight(c.net.right, c.right, cipher, all);
    case Crash(s) => RestartRight(c.net.At(s), all);
  }

  /** With right caches every step of the program is the step of the protocol that recomputes its keys, and it leaves
      them right except as GoesWrong says. */
  lemma StepRefines(c: System, a: Label, all: bool)
    requires CRight(c, all) && Enabled(c.net, a)
    ensures Enabled(c.net, Refined(c, a)) && CNext(c, a).net == Next(c.net, Refined(c, a))
    ensures CRight(CNext(c, a), all) <==> !GoesWrong(c, a, all)
  {
    hide Inv, SideRight, CNext, Next, Enabled, GoesWrong;
    RefinedEnabled(c, a);
    if a.Disconnect? || a.Connect? || a.Crash? {
      LifeRight(c, a, all);
      OnlySaves(c, a, all);
    } else {
      if a.Transmit? || a.Receive? || a.Emit? {
        ThreadRefines(c, a, all);
        OnlySaves(c, a, all);
      } else {
        EventRight(c, a, all);
      }
      OtherSide(c, a);
      RightAt(c, a.side, all);
      RightAt(CNext(c, a), a.side, all);
    }
    StepKeepsInv(c.net, Refined(c, a));
  }

  lemma OnlySaves(c: System, a: Label, all: bool)
    ensures GoesWrong(c, a, all) ==> if all then a.Save? else a.Connect?
  {}

  lemma RefinedEnabled(c: System, a: Label)
    requires Enabled(c.net, a)
    ensures Enabled(c.net, Refined(c, a))
    ensures Refined(c, a) == if a.Transmit? || a.Receive? then Refined(c, a) else a
  {
    hide GoodCandidate, SealsLate, OpensLate;
  }

  lemma OtherSide(c: System, a: Label)
    requires Enabled(c.net, a) && !a.Disconnect? && !a.Connect? && !a.Crash?
    ensures CNext(c, a).net.At(Other(a.side)) == c.net.At(Other(a.side))
    ensures CNext(c, a).At(Other(a.side)) == c.At(Other(a.side))
  {
    hide Begin, SaveStep, Peers.Process, Peers.Send, EmitWithCache, ReceiveWithCache, CanEmit, CanSave, GoodCandidate;
  }

  // ---------------------------------------------------------------------- whole runs

  predicate IsCachedRun(states: seq<System>, labels: seq<Label>) {
    && |states| == |labels| + 1
    && forall i :: 0 <= i < |labels| ==> Enabled(states[i].net, labels[i]) && states[i + 1] == CNext(states[i], labels[i])
  }

  function Nets(states: seq<System>): (r: seq<Net>)
    ensures |r| == |states| && forall i :: 0 <= i < |states| ==> r[i] == states[i].net
  {
    seq(|states|, i requires 0 <= i < |states| => states[i].net)
  }

  function Plain(states: seq<System>, labels: seq<Label>): (r: seq<Label>)
    requires IsCachedRun(states, labels)
    ensures |r| == |labels| && forall i :: 0 <= i < |labels| ==> r[i] == Refined(states[i], labels[i])
  {
    seq(|labels|, i requires 0 <= i < |labels| => Refined(states[i], labels[i]))
  }

  lemma {:induction false} StaysRight(states: seq<System>, labels: seq<Label>, k: nat, all: bool)
    requires IsCachedRun(states, labels) && CRight(states[0], all) && k <= |labels|
    requires forall i :: 0 <= i < k ==> !GoesWrong(states[i], labels[i], all)
    ensures CRight(states[k], all)
  {
    hide CRight, GoesWrong, CNext, Next, Enabled;
    if k > 0 {
      StaysRight(states, labels, k - 1, all);
      StepRefines(states[k - 1], labels[k - 1], all);
      assert states[k - 1 + 1] == CNext(states[k - 1], labels[k - 1]);
    }
  }

  /** Exactly the runs in which nothing goes wrong keep the caches right: all of them, when no changed password is saved
      beside another cipher's key; those in use, when no session starts under a cipher with an old one. */
  lemma RunStaysRightIff(states: seq<System>, labels: seq<Label>, all: bool)
    requires IsCachedRun(states, labels) && CRight(states[0], all)
    ensures (forall k :: 0 <= k < |states| ==> CRight(states[k], all))
            <==> forall i :: 0 <= i < |labels| ==> !GoesWrong(states[i], labels[i], all)
  {
    hide CRight, GoesWrong, CNext, Next, Enabled;
    if forall i :: 0 <= i < |labels| ==> !GoesWrong(states[i], labels[i], all) {
      forall k | 0 <= k < |states| ensures CRight(states[k], all) { StaysRight(states, labels, k, all); }
    }
    if forall k :: 0 <= k < |states| ==> CRight(states[k], all) {
      forall i | 0 <= i < |labels| ensures !GoesWrong(states[i], labels[i], all) {
        assert CRight(states[i], all) && CRight(states[i + 1], all);
        StepRefines(states[i], labels[i], all);
      }
    }
  }

  /** Such a run of the program is, key for key, a run of the protocol; it is enough to look at the keys in use. */
  lemma RunRefines(states: seq<System>, labels: seq<Label>, all: bool)
    requires IsCachedRun(states, labels) && CRight(states[0], all)
    requires forall i :: 0 <= i < |labels| ==> !GoesWrong(states[i], labels[i], all)
    ensures IsRun(Nets(states), Plain(states, labels))
  {
    hide CRight, GoesWrong, CNext, Next, Enabled, Refined;
    var nets, plain := Nets(states), Plain(states, labels);
    forall i | 0 <= i < |labels| ensures Enabled(nets[i], plain[i]) && nets[i + 1] == Next(nets[i], plain[i]) {
      StaysRight(states, labels, i, all);
      StepRefines(states[i], labels[i], all);
      assert states[i + 1] == CNext(states[i], labels[i]) && nets[i] == states[i].net && nets[i + 1] == states[i + 1].net;
    }
  }

  // ------------------------------------------------------------------------ one cipher

  predicate CachesOnly(caches: Caches, cipher: string) {
    forall l, c :: l in caches && c in caches[l] ==> c == cipher
  }

  predicate Only(k: Keys, cipher: string) {
    CachesOnly(k.to, cipher) && CachesOnly(k.from, cipher)
  }

  /** A session starts under the cipher of whatever keys the two processes still have, or with none. */
  predicate OneCipher(c: System, a: Label) {
    a.Connect? ==> Only(c.left, a.cipher) && Only(c.right, a.cipher)
  }

  predicate OnlyHere(c: System) {
    Only(c.left, c.net.left.cipher) && Only(c.right, c.net.right.cipher)
  }

  lemma OneCipherIsRight(c: System, a: Label, all: bool)
    requires CRight(c, all) && Enabled(c.net, a) && OnlyHere(c) && OneCipher(c, a)
    ensures !GoesWrong(c, a, all) && OnlyHere(CNext(c, a))
  {
    hide CNext, CanSave, Inv, GoodCandidate, Only, SideRight, CanEmit;
    if a.Connect? {
      SideInv(c.net, Left);
      SideInv(c.net, Right);
      OneCipherStarts(c.net.left, c.left, a.cipher, all);
      OneCipherStarts(c.net.right, c.right, a.cipher, all);
    } else if a.Save? {
      NothingOutlives(c.net.At(a.side), c.At(a.side));
    }
    if a.Connect? || a.Crash? || a.Disconnect? {
      LifeCiphers(c, a);
    } else {
      StepCiphers(c, a);
    }
  }

  lemma OneCipherStarts(p: Peer, k: Keys, cipher: string, all: bool)
    requires SideRight(p, k, all) && PeerGood(p) && p.phase.Idle? && Only(k, cipher) && Only(k, p.cipher)
    ensures !StaleUnder(p, k, cipher)
  {
    hide GoodStore, ContextGood;
  }

  lemma NothingOutlives(p: Peer, k: Keys)
    requires Only(k, p.cipher)
    ensures !LeavesStale(p, k)
  {}

  lemma LifeCiphers(c: System, a: Label)
    requires Enabled(c.net, a) && (a.Disconnect? || a.Connect? || a.Crash?)
    ensures OnlyHere(c) && OneCipher(c, a) ==> OnlyHere(CNext(c, a))
  {
    hide Load, Credentials.Save;
  }

  lemma StepCiphers(c: System, a: Label)
    requires Enabled(c.net, a) && !a.Disconnect? && !a.Connect? && !a.Crash? && OnlyHere(c)
    ensures OnlyHere(CNext(c, a))
  {
    hide Begin, SaveStep, Peers.Process, Peers.Send, EmitWithCache, ReceiveWithCache, CanEmit, CanSave, GoodCandidate,
         KeysAfterTransmit, KeysAfterReceive, KeysAfterEmit, KeysAfterSave, Only;
    var s := a.side;
    var p, k := c.net.At(s), c.At(s);
    SideCipher(c, a);
    match a
    case Save(_) => SaveOnly(p, k);
    case Emit(_) => EmitOnly(p, k);
    case Transmit(_, _) => TransmitOnly(p, k, p.sendq[0]);
    case Receive(_, _) =>
      var w := c.net.From(Other(s));
      ReceiveOnly(p, k, w.log[w.taken]);
    case Process(_, _) => HandledOnly(k, CNext(c, a).At(s), p.cipher);
    case Scan(_, _, _) =>
    case Send(_, _, _) =>
  }

  lemma SideCipher(c: System, a: Label)
    requires Enabled(c.net, a) && !a.Disconnect? && !a.Connect? && !a.Crash?
    ensures forall s: Side :: CNext(c, a).net.At(s).cipher == c.net.At(s).cipher
  {
    hide Peers.Process, DueLogin, SendLogin, ChallengeEnvelope, Opened, Internal, External, KeysAfterTransmit,
         KeysAfterReceive, KeysAfterEmit, KeysAfterSave, GoodCandidate;
    if a.Process? { ProcessChanges(c.net.At(a.side), a.now); }
  }

  lemma HandledOnly(k: Keys, k': Keys, cipher: string)
    requires k' == k.(handled := k'.handled)
    ensures Only(k', cipher) <==> Only(k, cipher)
  {}

  lemma SaveOnly(p: Peer, k: Keys)
    requires Only(k, p.cipher)
    ensures Only(KeysAfterSave(p, k), p.cipher)
  {}

  lemma EmitOnly(p: Peer, k: Keys)
    requires Only(k, p.cipher) && CanEmit(p)
    ensures Only(KeysAfterEmit(p, k), p.cipher)
  {}

  lemma TransmitOnly(p: Peer, k: Keys, o: Outgoing)
    requires Only(k, p.cipher)
    ensures Only(KeysAfterTransmit(p, k, o), p.cipher)
  {
    hide SealLogin;
  }

  lemma ReceiveOnly(p: Peer, k: Keys, e: Envelope)
    requires Only(k, p.cipher)
    ensures Only(KeysAfterReceive(p, k, e), p.cipher)
  {}

  lemma {:induction false} OneCipherStays(states: seq<System>, labels: seq<Label>, k: nat, all: bool)
    requires IsCachedRun(states, labels) && CRight(states[0], all) && OnlyHere(states[0]) && k <= |labels|
    requires forall i :: 0 <= i < |labels| ==> OneCipher(states[i], labels[i])
    ensures OnlyHere(states[k]) && CRight(states[k], all)
    ensures forall i :: 0 <= i < k ==> !GoesWrong(states[i], labels[i], all)
  {
    hide OnlyHere, OneCipher, GoesWrong, CNext, Enabled, CRight;
    if k > 0 {
      OneCipherStays(states, labels, k - 1, all);
      OneCipherIsRight(states[k - 1], labels[k - 1], all);
      StepRefines(states[k - 1], labels[k - 1], all);
      assert states[k - 1 + 1] == CNext(states[k - 1], labels[k - 1]);
    }
  }

  /** Two configured processes that have derived no key yet. */
  ghost predicate CachedInitial(c: System) {
    Initial(c.net) && c.left == NO_KEYS && c.right == NO_KEYS
  }

  /** The states the program reaches without ever starting a session under a cipher with an old key. */
  ghost predicate CachedReachable(c: System) {
    exists states: seq<System>, labels: seq<Label> ::
      && IsCachedRun(states, labels) && CachedInitial(states[0]) && states[|labels|] == c
      && forall i :: 0 <= i < |labels| ==> !GoesWrong(states[i], labels[i], false)
  }

  lemma InitialRight(c: System, all: bool)
    requires CachedInitial(c)
    ensures CRight(c, all) && OnlyHere(c)
  {
    hide Inv;
    InitialInv(c.net);
    forall s: Side ensures SideRight(c.net.At(s), NO_KEYS, all) {
      assert InitialPeer(c.net.At(s));
    }
    assert SideRight(c.net.At(Left), NO_KEYS, all) && SideRight(c.net.At(Right), NO_KEYS, all);
  }

  /** Every result about the reachable states of the protocol is one about these states of the program. */
  lemma CachedIsReachable(c: System)
    requires CachedReachable(c)
    ensures Reachable(c.net) && CRight(c, false)
  {
    hide CRight, GoesWrong, CNext, Next, Enabled, Initial, Refined;
    var states: seq<System>, labels: seq<Label> :|
      && IsCachedRun(states, labels) && CachedInitial(states[0]) && states[|labels|] == c
      && forall i :: 0 <= i < |labels| ==> !GoesWrong(states[i], labels[i], false);
    InitialRight(states[0], false);
    StaysRight(states, labels, |labels|, false);
    RunRefines(states, labels, false);
    var nets := Nets(states);
    assert nets[0] == states[0].net && nets[|labels|] == c.net && Initial(nets[0]);
  }

  /** Among them are all states of the runs whose sessions use one cipher as long as there are keys. */
  lemma OneCipherReaches(states: seq<System>, labels: seq<Label>)
    requires IsCachedRun(states, labels) && CachedInitial(states[0])
    requires forall i :: 0 <= i < |labels| ==> OneCipher(states[i], labels[i])
    ensures CachedReachable(states[|labels|]) && OnlyHere(states[|labels|])
  {
    hide CRight, OnlyHere, OneCipher, GoesWrong, CNext, Enabled, Initial;
    InitialRight(states[0], false);
    OneCipherStays(states, labels, |labels|, false);
  }
}
