/** Two peers and the two FIFO channels between them, as a labelled transition system. */
module Network {
  import opened Basics
  import opened Wire
  import opened Credentials
  import opened Peers

  datatype Side = Left | Right

  function Other(s: Side): Side {
    if s == Left then Right else Left
  }

  /** Everything one side put on the wire in this session, and how much of it the other has taken. */
  datatype Channel = Channel(log: seq<Envelope>, taken: nat)

  predicate GoodChannel(c: Channel) {
    c.taken <= |c.log|
  }

  function InFlight(c: Channel): seq<Envelope>
    requires GoodChannel(c)
  {
    c.log[c.taken..]
  }

  datatype Net = Net(left: Peer, right: Peer, fromLeft: Channel, fromRight: Channel, nextId: nat) {

    function At(s: Side): Peer { if s == Left then left else right }

    function From(s: Side): Channel { if s == Left then fromLeft else fromRight }

    function With(s: Side, p: Peer): Net {
      if s == Left then this.(left := p) else this.(right := p)
    }

    function WithFrom(s: Side, c: Channel): Net {
      if s == Left then this.(fromLeft := c) else this.(fromRight := c)
    }
  }

  /** Scan, Process, Save and Emit are the internal thread, Transmit and Receive the other two, which may be late in
      the sense of Peers.Held; Disconnect covers a challenge timeout, a lost connection and a stop by the application. */
  datatype Label =
    | Scan(side: Side, now: int, candidate: Bytes)
    | Process(side: Side, now: int)
    | Save(side: Side)
    | Emit(side: Side)
    | Transmit(side: Side, late: bool)
    | Receive(side: Side, late: bool)
    | Send(side: Side, login: Option<Login>, payload: Bytes)
    | Disconnect
    | Connect(cipher: string)
    | Crash(side: Side)

  /** The candidate of a scan is any password as long as the one it may replace. */
  predicate GoodCandidate(p: Peer, now: int, candidate: Bytes) {
    match DueLogin(p.mem.order, p.mem.to, now)
    case None => true
    case Some(l) => |candidate| == |p.mem.to[l].pwd|
  }

  predicate Enabled(n: Net, a: Label) {
    match a
    case Scan(s, now, candidate) =>
      !n.At(s).stopped && n.At(s).phase.Idle? && GoodCandidate(n.At(s), now, candidate)
    case Process(s, _) => !n.At(s).stopped && n.At(s).phase.Idle? && n.At(s).inq != []
    case Save(s) => CanSave(n.At(s))
    case Emit(s) => CanEmit(n.At(s))
    case Transmit(s, _) => !n.At(s).stopped && n.At(s).sendq != []
    case Receive(s, _) =>
      !n.At(s).stopped && n.From(Other(s)).taken < |n.From(Other(s)).log|
    case Send(s, _, _) => !n.At(s).stopped
    case Disconnect => true
    case Connect(_) => n.left.stopped && n.right.stopped && n.left.phase.Idle? && n.right.phase.Idle?
    case Crash(_) => true
  }

  /** A sealed message joins what is on the wire; one without a login to go under is dropped. */
  function WithSent(w: seq<Envelope>, e: Option<Envelope>): seq<Envelope> {
    if e.None? then w else w + [e.value]
  }

  function PutOnWire(c: Channel, e: Option<Envelope>): Channel {
    c.(log := WithSent(c.log, e))
  }

  const EMPTY := Channel([], 0)

  function Dropped(n: Net): Net {
    n.(left := Stop(n.left), right := Stop(n.right), fromLeft := EMPTY, fromRight := EMPTY)
  }

  function Next(n: Net, a: Label): Net
    requires Enabled(n, a)
  {
    match a
    case Scan(s, now, candidate) => n.With(s, Begin(n.At(s), now, candidate))
    case Process(s, now) => n.With(s, Peers.Process(n.At(s), now))
    case Save(s) => n.With(s, SaveStep(n.At(s)))
    case Emit(s) => n.With(s, EmitStep(n.At(s), n.nextId, n.nextId + 1)).(nextId := n.nextId + 2)
    case Transmit(s, late) =>
      var p := n.At(s);
      n.With(s, p.(sendq := p.sendq[1..])).WithFrom(s, PutOnWire(n.From(s), Sent(p, p.sendq[0], late)))
    case Receive(s, late) =>
      var c := n.From(Other(s));
      n.With(s, Peers.Receive(n.At(s), c.log[c.taken], late)).WithFrom(Other(s), c.(taken := c.taken + 1))
    case Send(s, login, payload) => n.With(s, Peers.Send(n.At(s), login, payload))
    case Disconnect => Dropped(n)
    case Connect(cipher) =>
      n.(left := Start(n.left, cipher), right := Start(n.right, cipher), fromLeft := EMPTY, fromRight := EMPTY)
    case Crash(s) => Dropped(n).With(s, Restart(n.At(s)))
  }

  /** Two configured processes before their first session: complementary sites, the same password
      in memory and on disk at both ends of every shared login, nothing pending. */
  ghost predicate Initial(n: Net) {
    && n.left.remote == n.right.me && n.right.remote == n.left.me
    && (forall s :: InitialPeer(n.At(s)))
    && (forall s :: SamePasswords(n.At(s), n.At(Other(s))))
    && n.fromLeft == EMPTY && n.fromRight == EMPTY
  }

  ghost predicate InitialPeer(p: Peer) {
    && p.stopped && p.phase.Idle? && p.disk == p.mem && GoodStore(p.mem)
    && p.ctx.None?
    && forall l :: l in p.mem.to ==> !p.mem.to[l].pending
  }

  ghost predicate SamePasswords(p: Peer, q: Peer) {
    forall l :: l in p.mem.to && l in q.mem.from ==> q.mem.from[l].pwd == p.mem.to[l].pwd
  }

  /** A run: each state is the successor of the one before under its label. */
  predicate IsRun(states: seq<Net>, labels: seq<Label>) {
    && |states| == |labels| + 1
    && forall i :: 0 <= i < |labels| ==> Enabled(states[i], labels[i]) && states[i + 1] == Next(states[i], labels[i])
  }

  ghost predicate Reachable(n: Net) {
    exists states, labels :: IsRun(states, labels) && Initial(states[0]) && states[|labels|] == n
  }

  ghost predicate Reaches(n: Net, m: Net) {
    exists states, labels :: IsRun(states, labels) && states[0] == n && states[|labels|] == m
  }
}
