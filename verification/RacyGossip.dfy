/** The flood of one response or group signature with every access to shared memory as a step of its own: the lookup in
    the received-cache and the addition to it, the test of a known set, an addition to it and an eviction from it.
    Handlers may race, a node may originate the message again, and several nodes may originate it. */
module RacyGossip {
  import opened GossipModel
  import opened GossipTheorems

  type Link = (Node, Node)

  /** A broadcast at a node, and the peer whose packet set it off - the node itself for a message of its own. */
  type Cause = (Node, Node)

  datatype Flood = Flood(
    seen: set<Node>,             // the nodes whose received-cache holds the message
    known: set<Link>,            // (n, q): n believes that q knows it
    broadcasts: multiset<Cause>, // broadcasts not yet run
    checks: multiset<Link>,      // peers that a running broadcast has still to look at
    sends: multiset<Link>,       // send goroutines not yet run
    writes: multiset<Link>,      // send goroutines that have marked but not written
    packets: multiset<Link>,     // on the wire
    looks: multiset<Link>,       // handlers that have not yet looked into the cache
    puts: multiset<Link>,        // handlers that have missed the message and not yet added it
    fired: multiset<Cause>,      // history: broadcasts that ran in time
    expired: multiset<Cause>,    // history: broadcasts that ran after the deadline
    lost: multiset<Link>,        // history: packets that a failing connection dropped
    missed: multiset<Link>,      // history: handlers that missed the message
    origins: multiset<Node>      // history: births
  ) {
    predicate AtRest() {
      && broadcasts == multiset{} && checks == multiset{} && sends == multiset{} && writes == multiset{}
      && packets == multiset{} && looks == multiset{} && puts == multiset{}
    }

    predicate Reliable() { lost == multiset{} && expired == multiset{} }

    /** Between `n` and `q` the message is still travelling or being handled, or it was lost there. */
    predicate OnTheWay(l: Link) { l in writes || l in packets || l in looks || l in puts || l in lost }
  }

  const STILL := Flood({}, {}, multiset{}, multiset{}, multiset{}, multiset{}, multiset{}, multiset{}, multiset{},
                       multiset{}, multiset{}, multiset{}, multiset{}, multiset{})

  datatype Move =
    | Bear(at: Node)
    | Run(at: Node, source: Node, late: bool)
    | Check(l: Link)
    | MarkSend(l: Link)
    | WriteOut(l: Link)
    | Drop(l: Link)
    | Receive(l: Link)
    | Look(l: Link)
    | Put(l: Link)
    | Evict(l: Link)

  ghost predicate CanMove(net: Network, f: Flood, move: Move) {
    match move
    case Bear(n) => n in net.nodes
    case Run(n, c, _) => (n, c) in f.broadcasts
    case Check(l) => l in f.checks
    case MarkSend(l) => l in f.sends
    case WriteOut(l) => l in f.writes
    case Drop(l) => l in f.packets
    case Receive(l) => l in f.packets
    case Look(l) => l in f.looks
    case Put(l) => l in f.puts
    case Evict(l) => l in f.known
  }

  ghost function Peers(net: Network, n: Node): set<Link> { set l | l in net.links && l.0 == n }

  ghost function DoBear(f: Flood, n: Node): Flood {
    f.(seen := f.seen + {n}, broadcasts := f.broadcasts + multiset{(n, n)}, origins := f.origins + multiset{n})
  }

  ghost function DoRun(net: Network, f: Flood, n: Node, c: Node, late: bool): Flood {
    var f1 := f.(broadcasts := f.broadcasts - multiset{(n, c)});
    if late then f1.(expired := f.expired + multiset{(n, c)})
    else f1.(fired := f.fired + multiset{(n, c)}, checks := f.checks + multiset(Peers(net, n)))
  }

  ghost function DoCheck(f: Flood, l: Link): Flood {
    f.(checks := f.checks - multiset{l}, sends := f.sends + One(l !in f.known, l))
  }

  ghost function DoMarkSend(f: Flood, l: Link): Flood {
    f.(sends := f.sends - multiset{l}, writes := f.writes + multiset{l}, known := f.known + {l})
  }

  ghost function DoWriteOut(f: Flood, l: Link): Flood {
    f.(writes := f.writes - multiset{l}, packets := f.packets + multiset{l})
  }

  ghost function DoDrop(f: Flood, l: Link): Flood {
    f.(packets := f.packets - multiset{l}, lost := f.lost + multiset{l})
  }

  /** The handler marks the sender before it looks into the cache. */
  ghost function DoReceive(f: Flood, l: Link): Flood {
    f.(packets := f.packets - multiset{l}, looks := f.looks + multiset{l}, known := f.known + {(l.1, l.0)})
  }

  ghost function DoLook(f: Flood, l: Link): Flood {
    f.(looks := f.looks - multiset{l}, puts := f.puts + One(l.1 !in f.seen, l), missed := f.missed + One(l.1 !in f.seen, l))
  }

  ghost function DoPut(f: Flood, l: Link): Flood {
    f.(puts := f.puts - multiset{l}, seen := f.seen + {l.1}, broadcasts := f.broadcasts + multiset{(l.1, l.0)})
  }

  ghost function Moved(net: Network, f: Flood, move: Move): Flood {
    match move
    case Bear(n) => DoBear(f, n)
    case Run(n, c, late) => DoRun(net, f, n, c, late)
    case Check(l) => DoCheck(f, l)
    case MarkSend(l) => DoMarkSend(f, l)
    case WriteOut(l) => DoWriteOut(f, l)
    case Drop(l) => DoDrop(f, l)
    case Receive(l) => DoReceive(f, l)
    case Look(l) => DoLook(f, l)
    case Put(l) => DoPut(f, l)
    case Evict(l) => f.(known := f.known - {l})
  }

  ghost predicate Follows(net: Network, f: Flood, f': Flood) {
    exists move :: CanMove(net, f, move) && f' == Moved(net, f, move)
  }

  ghost predicate IsFlood(net: Network, run: seq<Flood>) {
    |run| > 0 && run[0] == STILL && forall i :: 0 <= i < |run| - 1 ==> Follows(net, run[i], run[i + 1])
  }

  // ----- What every run keeps -----

  /** The message travels along links, from nodes that have it. */
  ghost predicate Rooted(net: Network, f: Flood, n: Node, q: Node) {
    && ((n, q) in f.broadcasts || (n, q) in f.fired || (n, q) in f.expired ==> n in f.seen)
    && ((n, q) in f.checks || (n, q) in f.sends || f.OnTheWay((n, q)) ==> n in f.seen && (n, q) in net.links)
    && (n in f.origins ==> n in f.seen)
  }

  /** What a node believes a peer to know, the peer has or is being sent. */
  ghost predicate Founded(f: Flood, n: Node, q: Node) {
    (n, q) in f.known ==> q in f.seen || f.OnTheWay((n, q))
  }

  ghost predicate Waiting(f: Flood, n: Node) {
    exists c :: (n, c) in f.broadcasts || (n, c) in f.expired
  }

  /** A node that has the message passes it on. */
  ghost predicate Passed(net: Network, f: Flood, n: Node, q: Node) {
    n in f.seen && (n, q) in net.links ==>
      Waiting(f, n) || (n, q) in f.checks || q in f.seen || (n, q) in f.sends || f.OnTheWay((n, q))
  }

  /** One broadcast for every handler that missed the message, and one for every birth. */
  ghost predicate Accounted(f: Flood, n: Node, q: Node) {
    var ran := f.broadcasts[(n, q)] + f.fired[(n, q)] + f.expired[(n, q)];
    (if n == q then f.origins[n] else 0) + f.missed[(q, n)] == ran + f.puts[(q, n)]
  }

  ghost predicate Sound(net: Network, f: Flood, n: Node, q: Node) {
    Rooted(net, f, n, q) && Founded(f, n, q) && Passed(net, f, n, q) && Accounted(f, n, q)
  }

  ghost predicate Kept(net: Network, f: Flood) {
    forall n, q :: Sound(net, f, n, q)
  }

  lemma {:induction false} BearKeeps(net: Network, f: Flood, a: Node, n: Node, q: Node)
    requires Sound(net, f, n, q)
    ensures Sound(net, DoBear(f, a), n, q)
  {
    var f' := DoBear(f, a);
    assert (a, a) in f'.broadcasts;
    WaitingStays(f, f', n);
  }

  lemma {:induction false} WaitingStays(f: Flood, f': Flood, n: Node)
    requires f.broadcasts <= f'.broadcasts && f.expired <= f'.expired
    ensures Waiting(f, n) ==> Waiting(f', n)
  {
    if Waiting(f, n) {
      var c :| (n, c) in f.broadcasts || (n, c) in f.expired;
      assert (n, c) in f'.broadcasts || (n, c) in f'.expired;
    }
  }

  lemma {:induction false} RunWaits(net: Network, f: Flood, a: Node, c: Node, late: bool, n: Node)
    requires (a, c) in f.broadcasts && Waiting(f, n)
    ensures Waiting(DoRun(net, f, a, c, late), n) || (!late && n == a)
  {
    var f' := DoRun(net, f, a, c, late);
    var d :| (n, d) in f.broadcasts || (n, d) in f.expired;
    if late || n != a {
      assert (n, d) in f'.broadcasts || (n, d) in f'.expired;
    }
  }

  lemma {:induction false} RunKeeps(net: Network, f: Flood, a: Node, c: Node, late: bool, n: Node, q: Node)
    requires Sound(net, f, n, q) && Sound(net, f, a, c) && CanMove(net, f, Run(a, c, late))
    ensures Sound(net, DoRun(net, f, a, c, late), n, q)
  {
    if Waiting(f, n) {
      RunWaits(net, f, a, c, late, n);
    }
    assert (n, q) in Peers(net, a) <==> n == a && (n, q) in net.links;
  }

  /** The stages of a send, from the look at the peer to the write. */
  lemma {:induction false} SendKeeps(net: Network, f: Flood, l: Link, n: Node, q: Node)
    requires Sound(net, f, n, q) && Sound(net, f, l.0, l.1)
    ensures l in f.checks ==> Sound(net, DoCheck(f, l), n, q)
    ensures l in f.sends ==> Sound(net, DoMarkSend(f, l), n, q)
    ensures l in f.writes ==> Sound(net, DoWriteOut(f, l), n, q)
  {
    WaitingStays(f, DoCheck(f, l), n);
    WaitingStays(f, DoMarkSend(f, l), n);
    WaitingStays(f, DoWriteOut(f, l), n);
  }

  /** The stages of a packet: lost, or received and looked up. */
  lemma {:induction false} PacketKeeps(net: Network, f: Flood, l: Link, n: Node, q: Node)
    requires Sound(net, f, n, q) && Sound(net, f, l.0, l.1)
    ensures l in f.packets ==> Sound(net, DoDrop(f, l), n, q) && Sound(net, DoReceive(f, l), n, q)
    ensures l in f.looks ==> Sound(net, DoLook(f, l), n, q)
  {
    WaitingStays(f, DoDrop(f, l), n);
    WaitingStays(f, DoReceive(f, l), n);
    WaitingStays(f, DoLook(f, l), n);
  }

  lemma {:induction false} PutKeeps(net: Network, f: Flood, l: Link, n: Node, q: Node)
    requires Sound(net, f, n, q) && Sound(net, f, l.0, l.1) && l in f.puts
    ensures Sound(net, DoPut(f, l), n, q)
  {
    var f' := DoPut(f, l);
    assert (l.1, l.0) in f'.broadcasts;
    WaitingStays(f, f', n);
  }

  lemma {:induction false} MoveKeeps(net: Network, f: Flood, move: Move, n: Node, q: Node)
    requires Kept(net, f) && CanMove(net, f, move)
    ensures Sound(net, Moved(net, f, move), n, q)
  {
    assert Sound(net, f, n, q);
    match move
    case Bear(a) => BearKeeps(net, f, a, n, q);
    case Run(a, c, late) => assert Sound(net, f, a, c); RunKeeps(net, f, a, c, late, n, q);
    case Check(l) => assert Sound(net, f, l.0, l.1); SendKeeps(net, f, l, n, q);
    case MarkSend(l) => assert Sound(net, f, l.0, l.1); SendKeeps(net, f, l, n, q);
    case WriteOut(l) => assert Sound(net, f, l.0, l.1); SendKeeps(net, f, l, n, q);
    case Drop(l) => assert Sound(net, f, l.0, l.1); PacketKeeps(net, f, l, n, q);
    case Receive(l) => assert Sound(net, f, l.0, l.1); PacketKeeps(net, f, l, n, q);
    case Look(l) => assert Sound(net, f, l.0, l.1); PacketKeeps(net, f, l, n, q);
    case Put(l) => assert Sound(net, f, l.0, l.1); PutKeeps(net, f, l, n, q);
    case Evict(l) => WaitingStays(f, f.(known := f.known - {l}), n);
  }

  lemma {:induction false} MoveKeepsAll(net: Network, f: Flood, move: Move)
    requires Kept(net, f) && CanMove(net, f, move)
    ensures Kept(net, Moved(net, f, move))
  {
    forall n: Node, q: Node ensures Sound(net, Moved(net, f, move), n, q) {
      MoveKeeps(net, f, move, n, q);
    }
  }

  ghost predicate HasOrigin(net: Network, origins: multiset<Node>, n: Node) {
    exists o :: o in origins && Connected(net, o, n)
  }

  /** Every node that has the message is connected to one that originated it. */
  ghost predicate Traced(net: Network, f: Flood) {
    forall n :: n in f.seen ==> HasOrigin(net, f.origins, n)
  }

  lemma {:induction false} HasOriginStays(net: Network, origins: multiset<Node>, more: multiset<Node>, n: Node)
    requires HasOrigin(net, origins, n) && origins <= more
    ensures HasOrigin(net, more, n)
  {
    var o :| o in origins && Connected(net, o, n);
    assert o in more;
  }

  lemma {:induction false} HasOriginOn(net: Network, origins: multiset<Node>, n: Node, q: Node)
    requires HasOrigin(net, origins, n) && (n, q) in net.links
    ensures HasOrigin(net, origins, q)
  {
    var o :| o in origins && Connected(net, o, n);
    var path :| IsPath(net, path) && path[0] == o && path[|path| - 1] == n;
    var longer := path + [q];
    assert IsPath(net, longer) && longer[0] == o && longer[|longer| - 1] == q;
  }

  lemma {:induction false} BearKeepsTraced(net: Network, f: Flood, a: Node)
    requires Traced(net, f)
    ensures Traced(net, DoBear(f, a))
  {
    assert IsPath(net, [a]);
    assert Connected(net, a, a);
    forall n | n in f.seen ensures HasOrigin(net, f.origins + multiset{a}, n) {
      HasOriginStays(net, f.origins, f.origins + multiset{a}, n);
    }
  }

  lemma {:induction false} PutKeepsTraced(net: Network, f: Flood, l: Link)
    requires Kept(net, f) && Traced(net, f) && l in f.puts
    ensures Traced(net, DoPut(f, l))
  {
    assert Sound(net, f, l.0, l.1);
    HasOriginOn(net, f.origins, l.0, l.1);
  }

  lemma {:induction false} MoveKeepsTraced(net: Network, f: Flood, move: Move)
    requires Kept(net, f) && Traced(net, f) && CanMove(net, f, move)
    ensures Traced(net, Moved(net, f, move))
  {
    match move
    case Bear(a) => BearKeepsTraced(net, f, a);
    case Put(l) => PutKeepsTraced(net, f, l);
    case _ => assert Moved(net, f, move).seen == f.seen && Moved(net, f, move).origins == f.origins;
  }

  lemma {:induction false} FloodKeeps(net: Network, run: seq<Flood>)
    requires IsFlood(net, run)
    ensures Kept(net, run[|run| - 1]) && Traced(net, run[|run| - 1])
    decreases |run|
  {
    if |run| > 1 {
      var k := |run| - 2;
      assert run[..k + 1][k] == run[k];
      FloodKeeps(net, run[..k + 1]);
      assert Follows(net, run[k], run[k + 1]);
      var move :| CanMove(net, run[k], move) && run[k + 1] == Moved(net, run[k], move);
      MoveKeepsAll(net, run[k], move);
      MoveKeepsTraced(net, run[k], move);
    }
  }

  // ----- What it gives -----

  lemma {:induction false} ReachesAlong(net: Network, f: Flood, path: seq<Node>)
    requires Kept(net, f) && f.AtRest() && f.Reliable() && IsPath(net, path) && path[0] in f.seen
    ensures path[|path| - 1] in f.seen
    decreases |path|
  {
    if |path| > 1 {
      var n := |path| - 2;
      var init := path[..n + 1];
      assert IsPath(net, init);
      ReachesAlong(net, f, init);
      assert Sound(net, f, path[n], path[n + 1]);
      assert init[n] == path[n] && (path[n], path[n + 1]) in net.links;
    }
  }

  /** Races do no harm to coverage: when a reliable flood has come to rest, a node has the message if and only if it is
      connected to a node that originated it. */
  lemma {:induction false} RacyCoverage(net: Network, run: seq<Flood>, n: Node)
    requires IsFlood(net, run) && run[|run| - 1].AtRest() && run[|run| - 1].Reliable()
    ensures n in run[|run| - 1].seen <==> HasOrigin(net, run[|run| - 1].origins, n)
  {
    var f := run[|run| - 1];
    FloodKeeps(net, run);
    if o :| o in f.origins && Connected(net, o, n) {
      var path :| IsPath(net, path) && path[0] == o && path[|path| - 1] == n;
      assert Sound(net, f, o, o);
      ReachesAlong(net, f, path);
    }
  }

  /** In every state of every run, a node has started one broadcast for each handler that missed the message and has
      added it, and one for each birth. */
  lemma {:induction false} OneBroadcastPerMiss(net: Network, run: seq<Flood>, n: Node, q: Node)
    requires IsFlood(net, run)
    ensures var f := run[|run| - 1];
            f.broadcasts[(n, q)] + f.fired[(n, q)] + f.expired[(n, q)] + f.puts[(q, n)] ==
              f.missed[(q, n)] + if n == q then f.origins[n] else 0
  {
    FloodKeeps(net, run);
    assert Sound(net, run[|run| - 1], n, q);
  }

  // ----- No echo -----

  /** Moves other than evictions. */
  ghost predicate FollowsKept(net: Network, f: Flood, f': Flood) {
    exists move :: CanMove(net, f, move) && !move.Evict? && f' == Moved(net, f, move)
  }

  /** A run without evictions. */
  ghost predicate IsRoomy(net: Network, run: seq<Flood>) {
    |run| > 0 && run[0] == STILL && forall i: nat :: RoomyAt(net, run, i)
  }

  ghost predicate RoomyAt(net: Network, run: seq<Flood>, i: nat) {
    i + 1 < |run| ==> FollowsKept(net, run[i], run[i + 1])
  }

  /** Whoever has sent the message over a link, and whoever has got it there, knows the other end to know it. */
  ghost predicate Marked(f: Flood, l: Link) {
    && (l in f.writes || l in f.packets || l in f.lost ==> l in f.known)
    && (l in f.looks || l in f.puts || l in f.missed ==> l in f.known && (l.1, l.0) in f.known)
  }

  ghost predicate AllMarked(f: Flood) { forall n: Node, q: Node :: Marked(f, (n, q)) }

  lemma {:induction false} MoveMarks(net: Network, f: Flood, move: Move, l: Link)
    requires CanMove(net, f, move) && !move.Evict? && AllMarked(f)
    ensures Marked(Moved(net, f, move), l)
    ensures l in f.known ==> l in Moved(net, f, move).known && Moved(net, f, move).sends[l] <= f.sends[l]
  {
    assert Marked(f, (l.0, l.1));
    match move
    case WriteOut(k) => assert Marked(f, (k.0, k.1));
    case Drop(k) => assert Marked(f, (k.0, k.1));
    case Receive(k) => assert Marked(f, (k.0, k.1));
    case Look(k) => assert Marked(f, (k.0, k.1));
    case Put(k) => assert Marked(f, (k.0, k.1));
    case _ =>
  }

  lemma {:induction false} FollowsMarks(net: Network, f: Flood, f': Flood, l: Link)
    requires FollowsKept(net, f, f') && AllMarked(f)
    ensures AllMarked(f') && (l in f.known ==> l in f'.known && f'.sends[l] <= f.sends[l])
  {
    var move :| CanMove(net, f, move) && !move.Evict? && f' == Moved(net, f, move);
    forall n: Node, q: Node ensures Marked(f', (n, q)) {
      MoveMarks(net, f, move, (n, q));
    }
    MoveMarks(net, f, move, l);
  }

  lemma {:induction false} RunMarks(net: Network, run: seq<Flood>, i: nat)
    requires IsRoomy(net, run) && i < |run|
    ensures AllMarked(run[i])
    decreases i
  {
    if i > 0 {
      RunMarks(net, run, i - 1);
      assert RoomyAt(net, run, i - 1);
      FollowsMarks(net, run[i - 1], run[i], (0, 0));
    }
  }

  /** As long as nothing is evicted, a node that knows a peer to know the message starts no further send to it; it knows
      that of every peer it has sent the message to or got it from. */
  lemma {:induction false} NoEcho(net: Network, run: seq<Flood>, i: nat, j: nat, l: Link)
    requires IsRoomy(net, run) && i <= j < |run| && l in run[i].known
    ensures l in run[j].known && run[j].sends[l] <= run[i].sends[l] && AllMarked(run[j])
    decreases j
  {
    if i < j {
      NoEcho(net, run, i, j - 1, l);
      assert RoomyAt(net, run, j - 1);
      FollowsMarks(net, run[j - 1], run[j], l);
    } else {
      RunMarks(net, run, j);
    }
  }
}
