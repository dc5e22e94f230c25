/** The flooding of VSS deals, VSS responses and group signatures, as a step system over a whole network.

    A message stands for its own hash (hashing is taken as injective).  Every goroutine that is still to
    run is an element of one of the multisets of `State`; the history fields only grow and are never read
    by a step.  Evictions from the bounded "known" sets, failing sends and passing deadlines are steps
    like any other; the received-cache does not evict. */
module GossipModel {

  type Node = nat

  datatype Kind = Deal | Response | GroupSig

  datatype Message = Message(kind: Kind, id: nat, dst: nat, deadline: nat)

  const MAX_KNOWN_VSS_DEAL := 21 * 20
  const MAX_KNOWN_VSS_RESPONSE := 21 * 20
  const MAX_KNOWN_GROUP_SIGN := 21 * 15

  function Cap(kind: Kind): (cap: nat)
    ensures cap > 0
  {
    match kind
    case Deal => MAX_KNOWN_VSS_DEAL
    case Response => MAX_KNOWN_VSS_RESPONSE
    case GroupSig => MAX_KNOWN_GROUP_SIGN
  }

  /** `kept` is what a Mark loop may leave of `known` before it adds the new hash. */
  ghost predicate Survives(known: set<Message>, kept: set<Message>, cap: nat) {
    kept <= known && |kept| == if |known| < cap then |known| else cap - 1
  }

  /** What a node starts for a message it handles: a rebroadcast and/or a delivery to its producer. */
  datatype Reaction = Reaction(broadcast: bool, deliver: bool)

  function OnOrigin(m: Message, owned: bool): Reaction {
    match m.kind
    case Deal => Reaction(!owned, owned)
    case Response => Reaction(true, true)
    case GroupSig => Reaction(true, true)
  }

  function OnFirstReceipt(m: Message, owned: bool, synced: bool): Reaction {
    match m.kind
    case Deal => if !synced then Reaction(true, false) else Reaction(!owned, owned)
    case Response => Reaction(true, synced)
    case GroupSig => Reaction(true, true)
  }

  /** Static configuration: symmetric peer links, and which node runs the mediator a deal is meant for. */
  datatype Network = Network(nodes: set<Node>, links: set<(Node, Node)>, owners: set<(Node, nat)>) {
    predicate Owns(n: Node, m: Message) { (n, m.dst) in owners }

    ghost predicate Valid() {
      forall n, q :: (n, q) in links ==> (q, n) in links && n in nodes && q in nodes
    }

    /** A node is meant to deliver every response and group signature, and the deals it owns. */
    predicate Delivers(n: Node, m: Message) { m.kind != Deal || Owns(n, m) }
  }

  type At = (Node, Message)
  type Hop = (Node, Node, Message)
  type Slot = (Node, Node, Kind)

  datatype State = State(
    born: map<Message, Node>,       // messages originated so far, and where
    cache: set<At>,                 // the received-caches
    known: map<Slot, set<Message>>, // (n, q, kind): what n believes q to know
    broadcasts: multiset<At>,       // broadcasts not yet run
    sends: multiset<Hop>,           // send goroutines not yet run
    writes: multiset<Hop>,          // send goroutines that have marked but not written
    packets: multiset<Hop>,         // on the wire
    dedupes: multiset<Hop>,         // handlers that have marked but not looked into the cache
    delivers: multiset<At>,         // deliveries to the producer not yet run
    fired: multiset<At>,            // history: broadcasts that ran in time
    expired: multiset<At>,          // history: broadcasts that ran after the deadline
    sent: multiset<Hop>,            // history: messages written to a peer
    lost: multiset<Hop>,            // history: messages that a failing connection dropped
    deferred: set<At>,              // history: first receipts on an unsynced node
    delivered: multiset<At>         // history: deliveries
  ) {
    function Known(n: Node, q: Node, kind: Kind): set<Message> {
      if (n, q, kind) in known then known[(n, q, kind)] else {}
    }

    predicate Quiescent() {
      && broadcasts == multiset{} && sends == multiset{} && writes == multiset{}
      && packets == multiset{} && dedupes == multiset{} && delivers == multiset{}
    }
  }

  const INIT := State(map[], {}, map[], multiset{}, multiset{}, multiset{}, multiset{}, multiset{}, multiset{},
                      multiset{}, multiset{}, multiset{}, multiset{}, {}, multiset{})

  datatype Step =
    | Originate(at: Node, msg: Message)
    | Fire(at: Node, msg: Message, now: nat)
    | MarkSent(from: Node, to: Node, msg: Message, kept: set<Message>)
    | Write(from: Node, to: Node, msg: Message)
    | Lose(from: Node, to: Node, msg: Message)
    | Arrive(from: Node, to: Node, msg: Message, kept: set<Message>)
    | Dedupe(from: Node, to: Node, msg: Message, synced: bool)
    | Deliver(at: Node, msg: Message)

  ghost predicate Enabled(net: Network, s: State, step: Step) {
    match step
    case Originate(n, m) => n in net.nodes && m !in s.born
    case Fire(n, m, _) => (n, m) in s.broadcasts
    case MarkSent(n, q, m, kept) => (n, q, m) in s.sends && Survives(s.Known(n, q, m.kind), kept, Cap(m.kind))
    case Write(n, q, m) => (n, q, m) in s.writes
    case Lose(n, q, m) => (n, q, m) in s.packets
    case Arrive(n, q, m, kept) => (n, q, m) in s.packets && Survives(s.Known(q, n, m.kind), kept, Cap(m.kind))
    case Dedupe(n, q, m, _) => (n, q, m) in s.dedupes
    case Deliver(n, m) => (n, m) in s.delivers
  }

  function One<T>(b: bool, x: T): multiset<T> { if b then multiset{x} else multiset{} }

  /** A node reacts to a message that was not in its cache. */
  function React(s: State, n: Node, m: Message, r: Reaction): State {
    s.(cache := s.cache + {(n, m)},
       broadcasts := s.broadcasts + One(r.broadcast, (n, m)),
       delivers := s.delivers + One(r.deliver, (n, m)))
  }

  /** The peers of `n` not believed to know `m`. */
  ghost function Targets(net: Network, s: State, n: Node, m: Message): set<Hop> {
    set l | l in net.links && l.0 == n && m !in s.Known(n, l.1, m.kind) :: (n, l.1, m)
  }

  ghost function DoOriginate(net: Network, s: State, n: Node, m: Message): State {
    React(s.(born := s.born[m := n]), n, m, OnOrigin(m, net.Owns(n, m)))
  }

  ghost function DoFire(net: Network, s: State, n: Node, m: Message, now: nat): (s': State)
    ensures s'.born == s.born && s'.cache == s.cache
  {
    var s1 := s.(broadcasts := s.broadcasts - multiset{(n, m)});
    if now > m.deadline then
      s1.(expired := s.expired + multiset{(n, m)})
    else
      s1.(fired := s.fired + multiset{(n, m)}, sends := s.sends + multiset(Targets(net, s, n, m)))
  }

  ghost function DoMarkSent(s: State, n: Node, q: Node, m: Message, kept: set<Message>): (s': State)
    ensures s'.born == s.born && s'.cache == s.cache
  {
    s.(sends := s.sends - multiset{(n, q, m)}, writes := s.writes + multiset{(n, q, m)},
       known := s.known[(n, q, m.kind) := kept + {m}])
  }

  ghost function DoWrite(s: State, n: Node, q: Node, m: Message): (s': State)
    ensures s'.born == s.born && s'.cache == s.cache
  {
    s.(writes := s.writes - multiset{(n, q, m)}, packets := s.packets + multiset{(n, q, m)},
       sent := s.sent + multiset{(n, q, m)})
  }

  ghost function DoLose(s: State, n: Node, q: Node, m: Message): (s': State)
    ensures s'.born == s.born && s'.cache == s.cache
  {
    s.(packets := s.packets - multiset{(n, q, m)}, lost := s.lost + multiset{(n, q, m)})
  }

  ghost function DoArrive(s: State, n: Node, q: Node, m: Message, kept: set<Message>): (s': State)
    ensures s'.born == s.born && s'.cache == s.cache
  {
    s.(packets := s.packets - multiset{(n, q, m)}, dedupes := s.dedupes + multiset{(n, q, m)},
       known := s.known[(q, n, m.kind) := kept + {m}])
  }

  ghost function DoDedupe(net: Network, s: State, n: Node, q: Node, m: Message, synced: bool): (s': State)
    ensures s'.born == s.born
  {
    var s1 := s.(dedupes := s.dedupes - multiset{(n, q, m)});
    if (q, m) in s.cache then s1
    else React(if synced then s1 else s1.(deferred := s.deferred + {(q, m)}),
               q, m, OnFirstReceipt(m, net.Owns(q, m), synced))
  }

  ghost function DoDeliver(s: State, n: Node, m: Message): (s': State)
    ensures s'.born == s.born && s'.cache == s.cache
  {
    s.(delivers := s.delivers - multiset{(n, m)}, delivered := s.delivered + multiset{(n, m)})
  }

  ghost function Apply(net: Network, s: State, step: Step): State {
    match step
    case Originate(n, m) => DoOriginate(net, s, n, m)
    case Fire(n, m, now) => DoFire(net, s, n, m, now)
    case MarkSent(n, q, m, kept) => DoMarkSent(s, n, q, m, kept)
    case Write(n, q, m) => DoWrite(s, n, q, m)
    case Lose(n, q, m) => DoLose(s, n, q, m)
    case Arrive(n, q, m, kept) => DoArrive(s, n, q, m, kept)
    case Dedupe(n, q, m, synced) => DoDedupe(net, s, n, q, m, synced)
    case Deliver(n, m) => DoDeliver(s, n, m)
  }

  ghost predicate Next(net: Network, s: State, s': State) {
    exists step :: Enabled(net, s, step) && s' == Apply(net, s, step)
  }

  /** A run: enabled steps taken one after the other from the initial state. */
  ghost predicate IsRun(net: Network, run: seq<State>) {
    && |run| > 0 && run[0] == INIT
    && forall i :: 0 <= i < |run| - 1 ==> Next(net, run[i], run[i + 1])
  }
}

/** What every run of the flood keeps, and what follows once nothing is pending. */
module GossipProofs {
  import opened GossipModel

  /** Somewhere between `n` and `q` the message is still travelling, or it was lost there. */
  predicate OnTheWay(s: State, n: Node, q: Node, m: Message) {
    (n, q, m) in s.writes || (n, q, m) in s.packets || (n, q, m) in s.dedupes || (n, q, m) in s.lost
  }

  /** Every trace of a message lies where the message has been, and along links only. */
  ghost predicate Located(net: Network, s: State, n: Node, q: Node, m: Message) {
    && ((n, m) in s.broadcasts || (n, m) in s.delivers ==> (n, m) in s.cache)
    && ((n, m) in s.fired || (n, m) in s.expired ==> (n, m) in s.cache)
    && ((n, m) in s.delivered || (n, m) in s.deferred ==> (n, m) in s.cache)
    && ((n, q, m) in s.sends || OnTheWay(s, n, q, m) ==> (n, m) in s.cache && (n, q) in net.links)
    && ((n, q, m) in s.sent ==> (n, m) in s.cache && (n, q) in net.links)
    && ((n, m) in s.cache ==> m in s.born && n in net.nodes)
    && (m in s.born ==> (s.born[m], m) in s.cache)
  }

  /** A broadcast runs at most once per node, a send at most once per link, a delivery at most once. */
  ghost predicate AtMostOnce(net: Network, s: State, n: Node, q: Node, m: Message) {
    && s.broadcasts[(n, m)] + s.fired[(n, m)] + s.expired[(n, m)] <= 1
    && s.sends[(n, q, m)] + s.writes[(n, q, m)] + s.sent[(n, q, m)] <= s.fired[(n, m)]
    && s.packets[(n, q, m)] + s.dedupes[(n, q, m)] + s.lost[(n, q, m)] <= s.sent[(n, q, m)]
    && s.delivers[(n, m)] + s.delivered[(n, m)] <= 1
    && (s.delivers[(n, m)] + s.delivered[(n, m)] == 1 ==> net.Delivers(n, m))
    && (m.kind == Deal && s.delivers[(n, m)] + s.delivered[(n, m)] == 1
        ==> s.broadcasts[(n, m)] + s.fired[(n, m)] + s.expired[(n, m)] == 0)
  }

  /** What a node believes a peer to know, the peer has seen or is being sent. */
  ghost predicate Justified(s: State, n: Node, q: Node, m: Message) {
    m in s.Known(n, q, m.kind) ==> (q, m) in s.cache || OnTheWay(s, n, q, m)
  }

  /** A node that has seen a message has passed it on, will do so, or has a reason not to. */
  ghost predicate PassedOn(net: Network, s: State, n: Node, q: Node, m: Message) {
    (n, m) in s.cache && (n, q) in net.links ==>
      || (n, m) in s.broadcasts
      || (n, m) in s.expired
      || (m.kind == Deal && net.Owns(n, m) && s.delivers[(n, m)] + s.delivered[(n, m)] == 1)
      || (q, m) in s.cache || (n, q, m) in s.sends || OnTheWay(s, n, q, m)
  }

  /** A first receipt on an unsynced node of a message that is then only passed on. */
  ghost predicate OnlyRelayed(s: State, n: Node, m: Message) { m.kind != GroupSig && (n, m) in s.deferred }

  /** A node that has seen a message delivers it once if it is meant to, and broadcasts it once unless it keeps the deal
      for itself; if it was not synced it only broadcasts it. */
  ghost predicate Reacted(net: Network, s: State, n: Node, m: Message) {
    (n, m) in s.cache ==>
      && s.delivers[(n, m)] + s.delivered[(n, m)] == (if net.Delivers(n, m) && !OnlyRelayed(s, n, m) then 1 else 0)
      && s.broadcasts[(n, m)] + s.fired[(n, m)] + s.expired[(n, m)] ==
           (if m.kind == Deal && net.Owns(n, m) && !OnlyRelayed(s, n, m) then 0 else 1)
  }

  ghost predicate Bounded(s: State, n: Node, q: Node, m: Message) {
    |s.Known(n, q, m.kind)| <= Cap(m.kind)
  }

  ghost predicate Good(net: Network, s: State, n: Node, q: Node, m: Message) {
    && Located(net, s, n, q, m) && AtMostOnce(net, s, n, q, m) && Justified(s, n, q, m)
    && PassedOn(net, s, n, q, m) && Reacted(net, s, n, m) && Bounded(s, n, q, m)
  }

  ghost predicate Inv(net: Network, s: State) {
    forall n, q, m :: Good(net, s, n, q, m)
  }

  lemma {:induction false} OriginateKeeps(net: Network, s: State, a: Node, x: Message, n: Node, q: Node, m: Message)
    requires net.Valid() && Enabled(net, s, Originate(a, x))
    requires Good(net, s, n, q, m) && Good(net, s, a, q, x)
    ensures Good(net, DoOriginate(net, s, a, x), n, q, m)
  {
  }

  lemma {:induction false} FireHere(net: Network, s: State, a: Node, x: Message, now: nat, q: Node)
    requires net.Valid() && Enabled(net, s, Fire(a, x, now))
    requires Good(net, s, a, q, x)
    ensures Good(net, DoFire(net, s, a, x, now), a, q, x)
  {
    assert s.fired[(a, x)] == 0 && s.sends[(a, q, x)] == 0;
    assert multiset(Targets(net, s, a, x))[(a, q, x)] <= 1;
  }

  lemma {:induction false} FireElsewhere(net: Network, s: State, a: Node, x: Message, now: nat, n: Node, q: Node, m: Message)
    requires net.Valid() && Enabled(net, s, Fire(a, x, now))
    requires Good(net, s, n, q, m) && (n, m) != (a, x)
    ensures Good(net, DoFire(net, s, a, x, now), n, q, m)
  {
    assert DoFire(net, s, a, x, now).sends[(n, q, m)] == s.sends[(n, q, m)];
  }

  lemma {:induction false} MarkSentKeeps(net: Network, s: State, a: Node, b: Node, x: Message, kept: set<Message>, n: Node, q: Node, m: Message)
    requires net.Valid() && Enabled(net, s, MarkSent(a, b, x, kept))
    requires Good(net, s, n, q, m) && Good(net, s, a, b, x)
    ensures Good(net, DoMarkSent(s, a, b, x, kept), n, q, m)
  {
  }

  lemma {:induction false} WriteKeeps(net: Network, s: State, a: Node, b: Node, x: Message, n: Node, q: Node, m: Message)
    requires net.Valid() && Enabled(net, s, Write(a, b, x))
    requires Good(net, s, n, q, m) && Good(net, s, a, b, x)
    ensures Good(net, DoWrite(s, a, b, x), n, q, m)
  {
  }

  lemma {:induction false} LoseKeeps(net: Network, s: State, a: Node, b: Node, x: Message, n: Node, q: Node, m: Message)
    requires net.Valid() && Enabled(net, s, Lose(a, b, x))
    requires Good(net, s, n, q, m) && Good(net, s, a, b, x)
    ensures Good(net, DoLose(s, a, b, x), n, q, m)
  {
  }

  lemma {:induction false} ArriveKeeps(net: Network, s: State, a: Node, b: Node, x: Message, kept: set<Message>, n: Node, q: Node, m: Message)
    requires net.Valid() && Enabled(net, s, Arrive(a, b, x, kept))
    requires Good(net, s, n, q, m) && Good(net, s, a, b, x) && Good(net, s, b, a, x)
    ensures Good(net, DoArrive(s, a, b, x, kept), n, q, m)
  {
    var s' := DoArrive(s, a, b, x, kept);
    assert (n, q, m.kind) != (b, a, x.kind) ==> s'.Known(n, q, m.kind) == s.Known(n, q, m.kind);
    assert (n, q, m.kind) == (b, a, x.kind) ==> s'.Known(n, q, m.kind) == kept + {x};
  }

  lemma {:induction false} DuplicateKeeps(net: Network, s: State, a: Node, b: Node, x: Message, synced: bool, n: Node, q: Node, m: Message)
    requires net.Valid() && Enabled(net, s, Dedupe(a, b, x, synced)) && (b, x) in s.cache
    requires Good(net, s, n, q, m) && Good(net, s, a, b, x)
    ensures Good(net, DoDedupe(net, s, a, b, x, synced), n, q, m)
  {
  }

  lemma {:induction false} FirstReceiptHere(net: Network, s: State, a: Node, b: Node, x: Message, synced: bool, q: Node)
    requires net.Valid() && Enabled(net, s, Dedupe(a, b, x, synced)) && (b, x) !in s.cache
    requires Good(net, s, b, q, x) && Good(net, s, a, b, x)
    ensures Good(net, DoDedupe(net, s, a, b, x, synced), b, q, x)
  {
    assert s.fired[(b, x)] == s.expired[(b, x)] == s.delivered[(b, x)] == 0;
    assert s.broadcasts[(b, x)] == s.delivers[(b, x)] == 0 && (b, x) !in s.deferred;
    var s', r := DoDedupe(net, s, a, b, x, synced), OnFirstReceipt(x, net.Owns(b, x), synced);
    assert s'.broadcasts[(b, x)] == (if r.broadcast then 1 else 0) && s'.delivers[(b, x)] == if r.deliver then 1 else 0;
    assert s'.Known(b, q, x.kind) == s.Known(b, q, x.kind);
  }

  /** For `n`, `q` and `m` nothing changes but that a handler may have found or stored the message at `q`. */
  ghost predicate SameBut(s: State, s': State, n: Node, q: Node, m: Message) {
    && s'.born == s.born && s'.known == s.known
    && s'.sends == s.sends && s'.writes == s.writes && s'.packets == s.packets && s'.sent == s.sent && s'.lost == s.lost
    && s'.fired == s.fired && s'.expired == s.expired && s'.delivered == s.delivered
    && s'.broadcasts[(n, m)] == s.broadcasts[(n, m)] && s'.delivers[(n, m)] == s.delivers[(n, m)]
    && s.cache <= s'.cache && ((n, m) in s'.cache ==> (n, m) in s.cache)
    && ((n, m) in s'.deferred <==> (n, m) in s.deferred)
    && s'.dedupes[(n, q, m)] <= s.dedupes[(n, q, m)]
    && ((n, q, m) in s.dedupes ==> (n, q, m) in s'.dedupes || (q, m) in s'.cache)
  }

  lemma {:induction false} SameButKeeps(net: Network, s: State, s': State, n: Node, q: Node, m: Message)
    requires Good(net, s, n, q, m) && SameBut(s, s', n, q, m)
    ensures Good(net, s', n, q, m)
  {
    assert s'.Known(n, q, m.kind) == s.Known(n, q, m.kind);
  }

  lemma {:induction false} FirstReceiptElsewhere(net: Network, s: State, a: Node, b: Node, x: Message, synced: bool, n: Node, q: Node, m: Message)
    requires net.Valid() && Enabled(net, s, Dedupe(a, b, x, synced)) && (b, x) !in s.cache
    requires Good(net, s, n, q, m) && Good(net, s, a, b, x) && (n, m) != (b, x)
    ensures Good(net, DoDedupe(net, s, a, b, x, synced), n, q, m)
  {
    SameButKeeps(net, s, DoDedupe(net, s, a, b, x, synced), n, q, m);
  }

  lemma {:induction false} DeliverKeeps(net: Network, s: State, a: Node, x: Message, n: Node, q: Node, m: Message)
    requires net.Valid() && Enabled(net, s, Deliver(a, x))
    requires Good(net, s, n, q, m) && Good(net, s, a, q, x)
    ensures Good(net, DoDeliver(s, a, x), n, q, m)
  {
  }

  lemma {:induction false} OriginateInv(net: Network, s: State, a: Node, x: Message)
    requires net.Valid() && Inv(net, s) && Enabled(net, s, Originate(a, x))
    ensures Inv(net, DoOriginate(net, s, a, x))
  {
    forall n: Node, q: Node, m: Message ensures Good(net, DoOriginate(net, s, a, x), n, q, m) {
      OriginateKeeps(net, s, a, x, n, q, m);
    }
  }

  lemma {:induction false} FireInv(net: Network, s: State, a: Node, x: Message, now: nat)
    requires net.Valid() && Inv(net, s) && Enabled(net, s, Fire(a, x, now))
    ensures Inv(net, DoFire(net, s, a, x, now))
  {
    forall n: Node, q: Node, m: Message ensures Good(net, DoFire(net, s, a, x, now), n, q, m) {
      if (n, m) == (a, x) {
        FireHere(net, s, a, x, now, q);
      } else {
        FireElsewhere(net, s, a, x, now, n, q, m);
      }
    }
  }

  lemma {:induction false} MarkSentInv(net: Network, s: State, a: Node, b: Node, x: Message, kept: set<Message>)
    requires net.Valid() && Inv(net, s) && Enabled(net, s, MarkSent(a, b, x, kept))
    ensures Inv(net, DoMarkSent(s, a, b, x, kept))
  {
    forall n: Node, q: Node, m: Message ensures Good(net, DoMarkSent(s, a, b, x, kept), n, q, m) {
      MarkSentKeeps(net, s, a, b, x, kept, n, q, m);
    }
  }

  lemma {:induction false} WriteInv(net: Network, s: State, a: Node, b: Node, x: Message)
    requires net.Valid() && Inv(net, s) && Enabled(net, s, Write(a, b, x))
    ensures Inv(net, DoWrite(s, a, b, x))
  {
    forall n: Node, q: Node, m: Message ensures Good(net, DoWrite(s, a, b, x), n, q, m) {
      WriteKeeps(net, s, a, b, x, n, q, m);
    }
  }

  lemma {:induction false} LoseInv(net: Network, s: State, a: Node, b: Node, x: Message)
    requires net.Valid() && Inv(net, s) && Enabled(net, s, Lose(a, b, x))
    ensures Inv(net, DoLose(s, a, b, x))
  {
    forall n: Node, q: Node, m: Message ensures Good(net, DoLose(s, a, b, x), n, q, m) {
      LoseKeeps(net, s, a, b, x, n, q, m);
    }
  }

  lemma {:induction false} ArriveInv(net: Network, s: State, a: Node, b: Node, x: Message, kept: set<Message>)
    requires net.Valid() && Inv(net, s) && Enabled(net, s, Arrive(a, b, x, kept))
    ensures Inv(net, DoArrive(s, a, b, x, kept))
  {
    forall n: Node, q: Node, m: Message ensures Good(net, DoArrive(s, a, b, x, kept), n, q, m) {
      ArriveKeeps(net, s, a, b, x, kept, n, q, m);
    }
  }

  lemma {:induction false} DedupeInv(net: Network, s: State, a: Node, b: Node, x: Message, synced: bool)
    requires net.Valid() && Inv(net, s) && Enabled(net, s, Dedupe(a, b, x, synced))
    ensures Inv(net, DoDedupe(net, s, a, b, x, synced))
  {
    forall n: Node, q: Node, m: Message ensures Good(net, DoDedupe(net, s, a, b, x, synced), n, q, m) {
      if (b, x) in s.cache {
        DuplicateKeeps(net, s, a, b, x, synced, n, q, m);
      } else if (n, m) == (b, x) {
        FirstReceiptHere(net, s, a, b, x, synced, q);
      } else {
        FirstReceiptElsewhere(net, s, a, b, x, synced, n, q, m);
      }
    }
  }

  lemma {:induction false} DeliverInv(net: Network, s: State, a: Node, x: Message)
    requires net.Valid() && Inv(net, s) && Enabled(net, s, Deliver(a, x))
    ensures Inv(net, DoDeliver(s, a, x))
  {
    forall n: Node, q: Node, m: Message ensures Good(net, DoDeliver(s, a, x), n, q, m) {
      DeliverKeeps(net, s, a, x, n, q, m);
    }
  }

  lemma {:induction false} StepKeepsInv(net: Network, s: State, step: Step)
    requires net.Valid() && Inv(net, s) && Enabled(net, s, step)
    ensures Inv(net, Apply(net, s, step))
  {
    match step
    case Originate(a, x) => OriginateInv(net, s, a, x);
    case Fire(a, x, now) => FireInv(net, s, a, x, now);
    case MarkSent(a, b, x, kept) => MarkSentInv(net, s, a, b, x, kept);
    case Write(a, b, x) => WriteInv(net, s, a, b, x);
    case Lose(a, b, x) => LoseInv(net, s, a, b, x);
    case Arrive(a, b, x, kept) => ArriveInv(net, s, a, b, x, kept);
    case Dedupe(a, b, x, synced) => DedupeInv(net, s, a, b, x, synced);
    case Deliver(a, x) => DeliverInv(net, s, a, x);
  }

  /** The invariant holds in every state of every run, whatever is evicted, lost or late. */
  lemma {:induction false} RunKeepsInv(net: Network, run: seq<State>)
    requires net.Valid() && IsRun(net, run)
    ensures Inv(net, run[|run| - 1])
    decreases |run|
  {
    if |run| > 1 {
      var k := |run| - 2;
      assert run[..k + 1][k] == run[k];
      RunKeepsInv(net, run[..k + 1]);
      assert Next(net, run[k], run[k + 1]);
      var step :| Enabled(net, run[k], step) && run[k + 1] == Apply(net, run[k], step);
      StepKeepsInv(net, run[k], step);
    }
  }
}

/** What the invariant gives once nothing is pending, and what it gives at any time. */
module GossipTheorems {
  import opened GossipModel
  import opened GossipProofs

  ghost predicate Reachable(net: Network, s: State) {
    exists run :: IsRun(net, run) && run[|run| - 1] == s
  }

  lemma {:induction false} ReachableInv(net: Network, s: State)
    requires net.Valid() && Reachable(net, s)
    ensures Inv(net, s)
  {
    var run :| IsRun(net, run) && run[|run| - 1] == s;
    RunKeepsInv(net, run);
  }

  ghost predicate IsPath(net: Network, path: seq<Node>) {
    |path| > 0 && forall i :: 0 <= i < |path| - 1 ==> (path[i], path[i + 1]) in net.links
  }

  /** No connection dropped the message and no node ran its broadcast after the deadline. */
  ghost predicate Reliable(s: State, m: Message) {
    (forall n, q :: (n, q, m) !in s.lost) && (forall n :: (n, m) !in s.expired)
  }

  /** One hop at quiescence: a peer misses a message its neighbour has for one of three reasons only. */
  lemma {:induction false} HopClosure(net: Network, s: State, n: Node, q: Node, m: Message)
    requires net.Valid() && Reachable(net, s) && s.Quiescent()
    requires (n, m) in s.cache && (n, q) in net.links
    ensures || (q, m) in s.cache
            || (n, m) in s.expired
            || (n, q, m) in s.lost
            || (m.kind == Deal && net.Owns(n, m) && s.delivered[(n, m)] == 1)
  {
    ReachableInv(net, s);
    assert Good(net, s, n, q, m);
  }

  lemma {:induction false} SeenAlongPath(net: Network, s: State, m: Message, path: seq<Node>)
    requires net.Valid() && Reachable(net, s) && s.Quiescent() && Reliable(s, m)
    requires IsPath(net, path) && (path[0], m) in s.cache
    requires m.kind == Deal ==> forall i :: 0 <= i < |path| - 1 ==> (path[i], m) !in s.delivered
    ensures forall i :: 0 <= i < |path| ==> (path[i], m) in s.cache
  {
    var k := 0;
    while k < |path| - 1
      invariant 0 <= k <= |path| - 1
      invariant forall i :: 0 <= i <= k ==> (path[i], m) in s.cache
    {
      HopClosure(net, s, path[k], path[k + 1], m);
      k := k + 1;
    }
  }

  /** Coverage: when a reliable flood of a response or group signature has come to rest, every node
      connected to the originator has it, and has handed it over exactly once unless it was unsynced. */
  lemma {:induction false} Coverage(net: Network, s: State, m: Message, path: seq<Node>)
    requires net.Valid() && Reachable(net, s) && s.Quiescent() && Reliable(s, m)
    requires m.kind != Deal && m in s.born
    requires IsPath(net, path) && path[0] == s.born[m]
    ensures forall i :: 0 <= i < |path| ==>
              (path[i], m) in s.cache
              && (s.delivered[(path[i], m)] == 1 || (m.kind == Response && (path[i], m) in s.deferred))
  {
    ReachableInv(net, s);
    assert Good(net, s, path[0], path[0], m);
    SeenAlongPath(net, s, m, path);
    forall i | 0 <= i < |path|
      ensures s.delivered[(path[i], m)] == 1 || (m.kind == Response && (path[i], m) in s.deferred)
    {
      assert Good(net, s, path[i], path[i], m);
    }
  }

  /** Deal routing: on any path from the originator to an owner of the destination mediator, the first
      owner has the deal at rest, and has buffered it exactly once unless it was unsynced on receipt. */
  lemma {:induction false} DealRouting(net: Network, s: State, m: Message, path: seq<Node>) returns (k: nat)
    requires net.Valid() && Reachable(net, s) && s.Quiescent() && Reliable(s, m)
    requires m.kind == Deal && m in s.born
    requires IsPath(net, path) && path[0] == s.born[m] && net.Owns(path[|path| - 1], m)
    ensures k < |path| && net.Owns(path[k], m) && forall i :: 0 <= i < k ==> !net.Owns(path[i], m)
    ensures (path[k], m) in s.cache
    ensures s.delivered[(path[k], m)] == 1 || (path[k], m) in s.deferred
  {
    k := 0;
    while !net.Owns(path[k], m)
      invariant 0 <= k < |path|
      invariant forall i :: 0 <= i < k ==> !net.Owns(path[i], m)
      decreases |path| - k
    {
      k := k + 1;
    }
    ReachableInv(net, s);
    assert Good(net, s, path[0], path[0], m);
    var prefix := path[..k + 1];
    forall i | 0 <= i < k ensures (prefix[i], m) !in s.delivered {
      DealBuffering(net, s, path[i], m);
    }
    SeenAlongPath(net, s, m, prefix);
    assert prefix[k] == path[k];
    assert Good(net, s, path[k], path[k], m);
  }

  /** In every reachable state a deal is buffered only by an owner, at most once, and never by a node
      that has forwarded it. */
  lemma {:induction false} DealBuffering(net: Network, s: State, n: Node, m: Message)
    requires net.Valid() && Reachable(net, s) && m.kind == Deal
    ensures s.delivered[(n, m)] <= 1
    ensures (n, m) in s.delivered ==> net.Owns(n, m) && (n, m) !in s.fired && (n, m) !in s.broadcasts
  {
    ReachableInv(net, s);
    assert Good(net, s, n, n, m);
  }

  /** In every reachable state, what a node that has seen a message has done or has still to do is exactly this: a
      node that was not synced when a deal or a response came broadcasts it once and hands over nothing; any other
      delivers what it is meant to deliver, once, and broadcasts once whatever is not a deal that it keeps. */
  lemma {:induction false} ReactsExactly(net: Network, s: State, n: Node, m: Message)
    requires net.Valid() && Reachable(net, s) && (n, m) in s.cache
    ensures var handed := s.delivers[(n, m)] + s.delivered[(n, m)];
            var passed := s.broadcasts[(n, m)] + s.fired[(n, m)] + s.expired[(n, m)];
            && ((n, m) in s.deferred && m.kind != GroupSig ==> handed == 0 && passed == 1)
            && ((n, m) !in s.deferred && m.kind == Deal ==>
                  if net.Owns(n, m) then handed == 1 && passed == 0 else handed == 0 && passed == 1)
            && ((n, m) !in s.deferred || m.kind == GroupSig ==> m.kind == Deal || (handed == 1 && passed == 1))
  {
    ReachableInv(net, s);
    assert Good(net, s, n, n, m);
  }

  /** A deal whose destination mediator one connected node runs is, at rest, buffered by that node exactly once -
      unless it was unsynced on receipt - and by no other. */
  lemma {:induction false} DestinationBuffers(net: Network, s: State, m: Message, path: seq<Node>, n: Node)
    requires net.Valid() && Reachable(net, s) && s.Quiescent() && Reliable(s, m)
    requires m.kind == Deal && m in s.born
    requires IsPath(net, path) && path[0] == s.born[m]
    requires forall x :: net.Owns(x, m) <==> x == path[|path| - 1]
    ensures var dst := path[|path| - 1];
            && (dst, m) in s.cache && (s.delivered[(dst, m)] == 1 || (dst, m) in s.deferred)
            && (n != dst ==> s.delivered[(n, m)] == 0)
  {
    var k := DealRouting(net, s, m, path);
    DealBuffering(net, s, n, m);
  }

  // ----- The flood goes nowhere else -----

  ghost predicate Connected(net: Network, a: Node, b: Node) {
    exists path :: IsPath(net, path) && path[0] == a && path[|path| - 1] == b
  }

  /** A path on which every node but the last has broadcast the message. */
  ghost predicate Relayed(net: Network, fired: multiset<At>, m: Message, a: Node, b: Node) {
    exists path :: RelayPath(net, fired, m, path) && path[0] == a && path[|path| - 1] == b
  }

  ghost predicate RelayPath(net: Network, fired: multiset<At>, m: Message, path: seq<Node>) {
    IsPath(net, path) && forall i :: 0 <= i < |path| - 1 ==> (path[i], m) in fired
  }

  lemma {:induction false} RelayedExtends(net: Network, fired: multiset<At>, m: Message, a: Node, b: Node, c: Node)
    requires Relayed(net, fired, m, a, b) && (b, c) in net.links && (b, m) in fired
    ensures Relayed(net, fired, m, a, c)
  {
    var path :| RelayPath(net, fired, m, path) && path[0] == a && path[|path| - 1] == b;
    var longer := path + [c];
    assert RelayPath(net, fired, m, longer) && longer[0] == a && longer[|longer| - 1] == c;
  }

  lemma {:induction false} RelayedGrows(net: Network, fired: multiset<At>, more: multiset<At>, m: Message, a: Node, b: Node)
    requires Relayed(net, fired, m, a, b) && fired <= more
    ensures Relayed(net, more, m, a, b)
  {
    var path :| RelayPath(net, fired, m, path) && path[0] == a && path[|path| - 1] == b;
    assert RelayPath(net, more, m, path);
  }

  ghost predicate Grounded(net: Network, s: State) {
    forall n, m :: (n, m) in s.cache ==> m in s.born && Relayed(net, s.fired, m, s.born[m], n)
  }

  lemma {:induction false} FireKeepsGrounded(net: Network, s: State, a: Node, x: Message, now: nat)
    requires Grounded(net, s)
    ensures Grounded(net, DoFire(net, s, a, x, now))
  {
    var s' := DoFire(net, s, a, x, now);
    forall n, m | (n, m) in s'.cache ensures m in s'.born && Relayed(net, s'.fired, m, s'.born[m], n) {
      RelayedGrows(net, s.fired, s'.fired, m, s.born[m], n);
    }
  }

  lemma {:induction false} OriginateKeepsGrounded(net: Network, s: State, a: Node, x: Message)
    requires Inv(net, s) && Grounded(net, s) && Enabled(net, s, Originate(a, x))
    ensures Grounded(net, DoOriginate(net, s, a, x))
  {
    assert RelayPath(net, s.fired, x, [a]);
    forall n, m | (n, m) in s.cache ensures m != x {
    }
  }

  lemma {:induction false} DedupeKeepsGrounded(net: Network, s: State, a: Node, b: Node, x: Message, synced: bool)
    requires Inv(net, s) && Grounded(net, s) && Enabled(net, s, Dedupe(a, b, x, synced))
    ensures Grounded(net, DoDedupe(net, s, a, b, x, synced))
  {
    assert Good(net, s, a, b, x);
    RelayedExtends(net, s.fired, x, s.born[x], a, b);
  }

  lemma {:induction false} QuietKeepsGrounded(net: Network, s: State, s': State)
    requires Grounded(net, s) && s'.cache == s.cache && s'.born == s.born && s'.fired == s.fired
    ensures Grounded(net, s')
  {
  }

  lemma {:induction false} StepKeepsGrounded(net: Network, s: State, step: Step)
    requires net.Valid() && Inv(net, s) && Grounded(net, s) && Enabled(net, s, step)
    ensures Grounded(net, Apply(net, s, step))
  {
    match step
    case Originate(a, x) => OriginateKeepsGrounded(net, s, a, x);
    case Fire(a, x, now) => FireKeepsGrounded(net, s, a, x, now);
    case Dedupe(a, b, x, synced) => DedupeKeepsGrounded(net, s, a, b, x, synced);
    case _ => QuietKeepsGrounded(net, s, Apply(net, s, step));
  }

  /** Only nodes that the message was relayed to along broadcasts ever see it. */
  lemma {:induction false} SeenOnlyIfRelayed(net: Network, run: seq<State>)
    requires net.Valid() && IsRun(net, run)
    ensures Grounded(net, run[|run| - 1])
    decreases |run|
  {
    if |run| > 1 {
      var k := |run| - 2;
      assert run[..k + 1][k] == run[k];
      SeenOnlyIfRelayed(net, run[..k + 1]);
      RunKeepsInv(net, run[..k + 1]);
      assert Next(net, run[k], run[k + 1]);
      var step :| Enabled(net, run[k], step) && run[k + 1] == Apply(net, run[k], step);
      StepKeepsGrounded(net, run[k], step);
    }
  }

  lemma {:induction false} SeenHasPath(net: Network, s: State, n: Node, m: Message) returns (path: seq<Node>)
    requires net.Valid() && Reachable(net, s) && (n, m) in s.cache
    ensures m in s.born && RelayPath(net, s.fired, m, path) && path[0] == s.born[m] && path[|path| - 1] == n
  {
    var run :| IsRun(net, run) && run[|run| - 1] == s;
    SeenOnlyIfRelayed(net, run);
    path :| RelayPath(net, s.fired, m, path) && path[0] == s.born[m] && path[|path| - 1] == n;
  }

  /** Only nodes connected to the originator ever see a message. */
  lemma {:induction false} SeenOnlyIfConnected(net: Network, s: State, n: Node, m: Message)
    requires net.Valid() && Reachable(net, s) && (n, m) in s.cache
    ensures m in s.born && Connected(net, s.born[m], n)
  {
    var path := SeenHasPath(net, s, n, m);
  }

  /** At rest, the nodes that have seen a reliably flooded response or group signature are exactly the
      nodes connected to its originator. */
  lemma {:induction false} SeenIffConnected(net: Network, s: State, n: Node, m: Message)
    requires net.Valid() && Reachable(net, s) && s.Quiescent() && Reliable(s, m)
    requires m.kind != Deal && m in s.born
    ensures (n, m) in s.cache <==> Connected(net, s.born[m], n)
  {
    if (n, m) in s.cache {
      SeenOnlyIfConnected(net, s, n, m);
    }
    if Connected(net, s.born[m], n) {
      var path :| IsPath(net, path) && path[0] == s.born[m] && path[|path| - 1] == n;
      Coverage(net, s, m, path);
    }
  }

  /** A path from the originator on which no node but perhaps the last has buffered the deal. */
  ghost predicate OpenPath(net: Network, s: State, m: Message, path: seq<Node>) {
    && m in s.born && IsPath(net, path) && path[0] == s.born[m]
    && forall i :: 0 <= i < |path| - 1 ==> (path[i], m) !in s.delivered
  }

  /** At rest, a node has seen a reliably flooded deal if and only if a path of nodes that have not buffered it leads
      there from the originator: an owner that buffers a deal is the end of it. */
  lemma {:induction false} DealSeenIff(net: Network, s: State, n: Node, m: Message)
    requires net.Valid() && Reachable(net, s) && s.Quiescent() && Reliable(s, m)
    requires m.kind == Deal && m in s.born
    ensures (n, m) in s.cache <==> exists path :: OpenPath(net, s, m, path) && path[|path| - 1] == n
  {
    ReachableInv(net, s);
    assert Good(net, s, s.born[m], n, m);
    if (n, m) in s.cache {
      var path := SeenHasPath(net, s, n, m);
      forall i | 0 <= i < |path| - 1 ensures (path[i], m) !in s.delivered {
        DealBuffering(net, s, path[i], m);
      }
      assert OpenPath(net, s, m, path);
    }
    if path :| OpenPath(net, s, m, path) && path[|path| - 1] == n {
      SeenAlongPath(net, s, m, path);
    }
  }

  // ----- How much is sent, and that it stops -----

  lemma {:induction false} CountInSet<T>(ms: multiset<T>, xs: set<T>)
    requires forall x :: x in ms ==> ms[x] == 1 && x in xs
    ensures |ms| <= |xs|
    decreases |ms|
  {
    if |ms| > 0 {
      var x :| x in ms;
      CountInSet(ms - multiset{x}, xs - {x});
    }
  }

  ghost function Hops(links: set<(Node, Node)>, msgs: set<Message>): set<Hop> {
    set l, m | l in links && m in msgs :: (l.0, l.1, m)
  }

  lemma {:induction false} HopsPerMessage(links: set<(Node, Node)>, m: Message)
    ensures |Hops(links, {m})| <= |links|
  {
    if links == {} {
      assert Hops(links, {m}) == {};
    } else {
      var l :| l in links;
      HopsPerMessage(links - {l}, m);
      assert Hops(links, {m}) == Hops(links - {l}, {m}) + {(l.0, l.1, m)};
    }
  }

  lemma {:induction false} HopsSplit(links: set<(Node, Node)>, msgs: set<Message>, m: Message)
    requires m in msgs
    ensures Hops(links, msgs) == Hops(links, msgs - {m}) + Hops(links, {m})
  {
    forall h | h in Hops(links, msgs) ensures h in Hops(links, msgs - {m}) + Hops(links, {m}) {
      var l :| l in links && h == (l.0, l.1, h.2);
      assert h.2 == m || h.2 in msgs - {m};
    }
  }

  lemma {:induction false} HopsGrow(links: set<(Node, Node)>, msgs: set<Message>, m: Message)
    requires m in msgs
    ensures |Hops(links, msgs)| <= |Hops(links, msgs - {m})| + |links|
  {
    HopsSplit(links, msgs, m);
    HopsPerMessage(links, m);
  }

  lemma {:induction false} HopsCount(links: set<(Node, Node)>, msgs: set<Message>, k: nat)
    requires k == |msgs|
    ensures |Hops(links, msgs)| <= |links| * k
  {
    if k == 0 {
      assert Hops(links, msgs) == {};
    } else {
      var m :| m in msgs;
      HopsCount(links, msgs - {m}, k - 1);
      HopsGrow(links, msgs, m);
      assert |links| * k == |links| * (k - 1) + |links|;
    }
  }

  /** Flood bound: in every reachable state each node has run its broadcast of a message at most once and
      written it to each peer at most once, so all floods together cost at most one write per directed
      link and message; the known sets, each mark of which is one step here, stay within their caps. */
  lemma {:induction false} FloodBound(net: Network, s: State)
    requires net.Valid() && Reachable(net, s)
    ensures forall n, m :: s.fired[(n, m)] + s.expired[(n, m)] <= 1
    ensures forall n, q, m :: s.sent[(n, q, m)] <= 1 && ((n, q, m) in s.sent ==> (n, q) in net.links)
    ensures |s.sent| <= |net.links| * |s.born|
    ensures forall n, q, kind :: |s.Known(n, q, kind)| <= Cap(kind)
  {
    ReachableInv(net, s);
    forall n, m ensures s.fired[(n, m)] + s.expired[(n, m)] <= 1 {
      assert Good(net, s, n, n, m);
    }
    forall n: Node, q: Node, m: Message
      ensures s.sent[(n, q, m)] <= 1
      ensures (n, q, m) in s.sent ==> (n, q) in net.links && m in s.born
    {
      assert Good(net, s, n, q, m);
    }
    forall n, q, kind ensures |s.Known(n, q, kind)| <= Cap(kind) {
      assert Good(net, s, n, q, Message(kind, 0, 0, 0));
    }
    var hops := Hops(net.links, s.born.Keys);
    forall h | h in s.sent ensures s.sent[h] == 1 && h in hops {
      assert h == (h.0, h.1, h.2);
      assert (h.0, h.1) in net.links;
    }
    CountInSet(s.sent, hops);
    HopsCount(net.links, s.born.Keys, |s.born|);
  }

  /** What is left to do: nodes that have not seen a message, broadcasts, and the stages of each send. */
  ghost function Unseen(nodes: set<Node>, born: set<Message>, cache: set<At>): set<At> {
    (set n, m | n in nodes && m in born :: (n, m)) - cache
  }

  ghost function UnseenCount(net: Network, s: State): nat {
    |Unseen(net.nodes, s.born.Keys, s.cache)|
  }

  ghost function Stages(s: State): nat {
    4 * |s.sends| + 3 * |s.writes| + 2 * |s.packets| + |s.dedupes| + |s.delivers|
  }

  ghost predicate LexLess(a: nat, b: nat, c: nat, a': nat, b': nat, c': nat) {
    a < a' || (a == a' && (b < b' || (b == b' && c < c')))
  }

  ghost predicate Smaller(net: Network, s: State, s': State) {
    LexLess(UnseenCount(net, s'), |s'.broadcasts|, Stages(s'), UnseenCount(net, s), |s.broadcasts|, Stages(s))
  }

  lemma {:induction false} UnseenDrops(nodes: set<Node>, born: set<Message>, cache: set<At>, n: Node, m: Message)
    requires n in nodes && m in born && (n, m) !in cache
    ensures |Unseen(nodes, born, cache + {(n, m)})| < |Unseen(nodes, born, cache)|
  {
    var unseen := Unseen(nodes, born, cache);
    assert (n, m) in unseen;
    assert Unseen(nodes, born, cache + {(n, m)}) == unseen - {(n, m)};
  }

  lemma {:induction false} DedupeShrinks(net: Network, s: State, a: Node, b: Node, x: Message, synced: bool)
    requires net.Valid() && Good(net, s, a, b, x) && Enabled(net, s, Dedupe(a, b, x, synced))
    ensures Smaller(net, s, Apply(net, s, Dedupe(a, b, x, synced)))
  {
    var s' := Apply(net, s, Dedupe(a, b, x, synced));
    if (b, x) !in s.cache {
      UnseenDrops(net.nodes, s.born.Keys, s.cache, b, x);
    }
  }

  lemma {:induction false} FewerBroadcasts(net: Network, s: State, s': State)
    requires s'.cache == s.cache && s'.born == s.born && |s'.broadcasts| < |s.broadcasts|
    ensures Smaller(net, s, s')
  {
  }

  lemma {:induction false} SendShrinks(net: Network, s: State, step: Step)
    requires Enabled(net, s, step) && !step.Originate? && !step.Fire? && !step.Dedupe?
    ensures Smaller(net, s, Apply(net, s, step))
  {
    var s' := Apply(net, s, step);
    assert s'.cache == s.cache && s'.born == s.born && s'.broadcasts == s.broadcasts;
  }

  /** Every step that is not the birth of a message makes the rest of the work smaller. */
  lemma {:induction false} StepShrinks(net: Network, s: State, step: Step)
    requires net.Valid() && Inv(net, s) && Enabled(net, s, step) && !step.Originate?
    ensures Smaller(net, s, Apply(net, s, step))
  {
    match step
    case Fire(n, m, now) =>
      FewerBroadcasts(net, s, Apply(net, s, step));
    case Dedupe(a, b, x, synced) =>
      assert Good(net, s, a, b, x);
      DedupeShrinks(net, s, a, b, x, synced);
    case _ =>
      SendShrinks(net, s, step);
  }

  ghost predicate Quiet(net: Network, s: State, s': State) {
    exists step :: Enabled(net, s, step) && !step.Originate? && s' == Apply(net, s, step)
  }

  lemma {:induction false} QuietShrinks(net: Network, s: State, s': State)
    requires net.Valid() && Inv(net, s) && Quiet(net, s, s')
    ensures Inv(net, s') && Smaller(net, s, s')
  {
    var step :| Enabled(net, s, step) && !step.Originate? && s' == Apply(net, s, step);
    StepKeepsInv(net, s, step);
    StepShrinks(net, s, step);
  }

  /** A run all of whose steps shrink a lexicographic measure does not go on for ever. */
  lemma {:induction false} FindEnd<S(!new)>(run: nat -> S, inv: S -> bool, step: (S, S) -> bool,
                                            a: S -> nat, b: S -> nat, c: S -> nat, from: nat) returns (i: nat)
    requires forall s, s' :: inv(s) && step(s, s') ==> inv(s') && LexLess(a(s'), b(s'), c(s'), a(s), b(s), c(s))
    requires inv(run(from))
    ensures !step(run(i), run(i + 1))
    decreases a(run(from)), b(run(from)), c(run(from))
  {
    i := from;
    if step(run(from), run(from + 1)) {
      i := FindEnd(run, inv, step, a, b, c, from + 1);
    }
  }

  /** Every flood stops: no infinite run from a reachable state goes on without new messages being born. */
  lemma {:induction false} FloodStops(net: Network, run: nat -> State)
    requires net.Valid() && Reachable(net, run(0))
    ensures exists i: nat :: !Quiet(net, run(i), run(i + 1))
  {
    ReachableInv(net, run(0));
    forall s, s' | Inv(net, s) && Quiet(net, s, s') ensures Inv(net, s') && Smaller(net, s, s') {
      QuietShrinks(net, s, s');
    }
    var i := FindEnd(run, s => Inv(net, s), (s, s') => Quiet(net, s, s'),
                     s => UnseenCount(net, s), (s: State) => |s.broadcasts|, s => Stages(s), 0);
  }

  /** Some subset that a Mark loop may keep. */
  ghost function Kept(known: set<Message>, cap: nat): (kept: set<Message>)
    requires cap > 0
    ensures Survives(known, kept, cap)
  {
    if |known| < cap then known
    else var x :| x in known; Kept(known - {x}, cap)
  }

  ghost function StepForHop(s: State, h: Hop): Step {
    if h in s.sends then MarkSent(h.0, h.1, h.2, Kept(s.Known(h.0, h.1, h.2.kind), Cap(h.2.kind)))
    else if h in s.writes then Write(h.0, h.1, h.2)
    else if h in s.packets then Arrive(h.0, h.1, h.2, Kept(s.Known(h.1, h.0, h.2.kind), Cap(h.2.kind)))
    else Dedupe(h.0, h.1, h.2, true)
  }

  /** Nothing pending is ever stuck: a state that is not at rest has a step that neither originates nor
      loses a message and is not late. */
  lemma {:induction false} NotStuck(net: Network, s: State) returns (step: Step)
    requires !s.Quiescent()
    ensures Enabled(net, s, step) && Clean(step)
  {
    if s.broadcasts != multiset{} {
      var w :| w in s.broadcasts;
      step := Fire(w.0, w.1, 0);
    } else if s.delivers != multiset{} {
      var w :| w in s.delivers;
      step := Deliver(w.0, w.1);
    } else {
      var h: Hop :| h in s.sends || h in s.writes || h in s.packets || h in s.dedupes;
      step := StepForHop(s, h);
    }
  }

  /** A step that originates nothing, loses nothing and is not late. */
  ghost predicate Clean(step: Step) { !step.Originate? && !step.Lose? && (step.Fire? ==> step.now == 0) }

  ghost predicate CleanNext(net: Network, s: State, s': State) {
    exists step :: Enabled(net, s, step) && Clean(step) && s' == Apply(net, s, step)
  }

  /** `s'` follows from `s` by clean steps. */
  ghost predicate Leads(net: Network, run: seq<State>, s: State, s': State) {
    && |run| > 0 && run[0] == s && run[|run| - 1] == s'
    && forall i :: 0 <= i < |run| - 1 ==> CleanNext(net, run[i], run[i + 1])
  }

  /** Every flood can be completed: from any reachable state some run comes to rest with no message
      originated, lost or late on the way, so coverage is never out of reach. */
  lemma {:induction false} CanComeToRest(net: Network, s: State) returns (run: seq<State>, s': State)
    requires net.Valid() && Inv(net, s)
    ensures Leads(net, run, s, s') && s'.Quiescent()
    ensures s'.born == s.born && s'.lost == s.lost && s'.expired == s.expired
    decreases UnseenCount(net, s), |s.broadcasts|, Stages(s)
  {
    if s.Quiescent() {
      return [s], s;
    }
    var step := NotStuck(net, s);
    var s1 := Apply(net, s, step);
    StepKeepsInv(net, s, step);
    StepShrinks(net, s, step);
    assert CleanNext(net, s, s1);
    StepIsClean(net, s, step);
    var rest;
    rest, s' := CanComeToRest(net, s1);
    run := [s] + rest;
  }

  lemma {:induction false} StepIsClean(net: Network, s: State, step: Step)
    requires Clean(step)
    ensures var s' := Apply(net, s, step); s'.born == s.born && s'.lost == s.lost && s'.expired == s.expired
  {
    match step
    case Fire(n, m, now) =>
    case MarkSent(n, q, m, kept) =>
    case Write(n, q, m) =>
    case Arrive(n, q, m, kept) =>
    case Dedupe(n, q, m, synced) =>
    case Deliver(n, m) =>
  }
}
