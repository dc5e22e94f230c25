/** One node of the gossip network: the handlers that the step system of GossipModel abstracts.
    `go f(x)` only starts work, so a handler returns what it has started as a `Reaction`. */
module GossipNode {
  import opened GossipModel

  // What the steps of the network change in the caches and known sets, which are all a node can see.

  lemma {:induction false} ArriveView(s: State, from: Node, to: Node, m: Message, kept: set<Message>)
    ensures var s' := DoArrive(s, from, to, m, kept);
            && s'.cache == s.cache && s'.known == s.known[(to, from, m.kind) := kept + {m}]
            && (from, to, m) in s'.dedupes
  {
  }

  lemma {:induction false} DedupeView(net: Network, s: State, from: Node, to: Node, m: Message, synced: bool)
    ensures var s' := DoDedupe(net, s, from, to, m, synced);
            s'.cache == s.cache + {(to, m)} && s'.known == s.known
  {
    if (to, m) in s.cache {
      assert s.cache + {(to, m)} == s.cache;
    }
  }

  /** The step system after a receipt: the mark and the look into the cache are two steps. */
  ghost function AfterReceipt(net: Network, s: State, from: Node, to: Node, m: Message, kept: set<Message>,
                              synced: bool): State {
    DoDedupe(net, DoArrive(s, from, to, m, kept), from, to, m, synced)
  }

  /** The loop shared by all Mark methods: pop arbitrary elements until there is room for one more. */
  method Evict(known: set<Message>, cap: nat) returns (kept: set<Message>)
    requires cap > 0
    ensures Survives(known, kept, cap)
    ensures if |known| < cap then kept == known else kept <= known && |kept| == cap - 1
  {
    kept := known;
    while |kept| >= cap
      invariant kept <= known
      invariant |known| < cap ==> kept == known
      invariant |known| >= cap ==> |kept| >= cap - 1
      decreases |kept|
    {
      var x :| x in kept;
      kept := kept - {x};
    }
  }

  class Peer {
    var knownVSSDeal: set<Message>
    var knownVSSResponse: set<Message>
    var knownGroupSig: set<Message>

    constructor ()
      ensures forall kind :: Known(kind) == {}
    {
      knownVSSDeal, knownVSSResponse, knownGroupSig := {}, {}, {};
    }

    function Known(kind: Kind): set<Message>
      reads this
    {
      match kind
      case Deal => knownVSSDeal
      case Response => knownVSSResponse
      case GroupSig => knownGroupSig
    }

    method Mark(m: Message) returns (ghost kept: set<Message>)
      modifies this
      ensures Survives(old(Known(m.kind)), kept, Cap(m.kind))
      ensures Known(m.kind) == kept + {m}
      ensures old(|Known(m.kind)|) < Cap(m.kind) ==> Known(m.kind) == old(Known(m.kind)) + {m}
      ensures forall kind :: kind != m.kind ==> Known(kind) == old(Known(kind))
    {
      var rest := Evict(Known(m.kind), Cap(m.kind));
      match m.kind {
        case Deal => knownVSSDeal := rest + {m};
        case Response => knownVSSResponse := rest + {m};
        case GroupSig => knownGroupSig := rest + {m};
      }
      kept := rest;
    }
  }

  class ProtocolManager {
    const self: Node
    var receivedCache: set<Message>
    var peers: map<Node, Peer>

    constructor (self: Node)
      ensures this.self == self && receivedCache == {} && peers == map[]
    {
      this.self := self;
      receivedCache, peers := {}, map[];
    }

    ghost predicate Valid()
      reads this
    {
      forall a, b :: a in peers && b in peers && a != b ==> peers[a] != peers[b]
    }

    ghost predicate MatchesView(net: Network, cache: set<At>, known: map<Slot, set<Message>>)
      reads this, peers.Values
    {
      && Valid()
      && (forall q :: q in peers <==> (self, q) in net.links)
      && (forall m :: m in receivedCache <==> (self, m) in cache)
      && (forall q, kind :: q in peers ==>
            peers[q].Known(kind) == if (self, q, kind) in known then known[(self, q, kind)] else {})
    }

    /** This node is in the state that `s` gives it. */
    ghost predicate Matches(net: Network, s: State)
      reads this, peers.Values
    {
      MatchesView(net, s.cache, s.known)
    }

    method IsExistInCache(m: Message) returns (hit: bool)
      modifies this`receivedCache
      ensures hit == (m in old(receivedCache))
      ensures receivedCache == old(receivedCache) + {m}
    {
      hit := m in receivedCache;
      if !hit {
        receivedCache := receivedCache + {m};
      }
    }

    /** The head of every handler: mark the sender, then look into the cache. */
    method MarkAndLookUp(m: Message, from: Node, ghost net: Network, ghost cache: set<At>,
                         ghost known: map<Slot, set<Message>>)
      returns (hit: bool, ghost kept: set<Message>)
      requires MatchesView(net, cache, known) && from in peers
      modifies this`receivedCache, peers[from]
      ensures peers == old(peers) && hit == (m in old(receivedCache))
      ensures Survives(old(peers[from].Known(m.kind)), kept, Cap(m.kind))
      ensures MatchesView(net, cache + {(self, m)}, known[(self, from, m.kind) := kept + {m}])
    {
      kept := peers[from].Mark(m);
      assert forall q, kind :: q in peers && q != from ==> peers[q].Known(kind) == old(peers[q].Known(kind));
      hit := IsExistInCache(m);
    }

    /** A receipt is an arrival followed by a look into the cache of the step system. */
    method Receive(m: Message, from: Node, synced: bool, ghost net: Network, ghost s: State)
      returns (hit: bool, ghost kept: set<Message>)
      requires Matches(net, s) && (from, self, m) in s.packets && from in peers
      modifies this`receivedCache, peers[from]
      ensures peers == old(peers) && hit == (m in old(receivedCache))
      ensures Enabled(net, s, Arrive(from, self, m, kept))
      ensures Enabled(net, DoArrive(s, from, self, m, kept), Dedupe(from, self, m, synced))
      ensures Matches(net, AfterReceipt(net, s, from, self, m, kept, synced))
      ensures m in receivedCache && m in peers[from].Known(m.kind)
    {
      hit, kept := MarkAndLookUp(m, from, net, s.cache, s.known);
      ArriveView(s, from, self, m, kept);
      DedupeView(net, DoArrive(s, from, self, m, kept), from, self, m, synced);
    }

    method VSSDealMsg(m: Message, from: Node, synced: bool, owned: bool, ghost net: Network, ghost s: State)
      returns (r: Reaction, ghost kept: set<Message>)
      requires Matches(net, s) && (from, self, m) in s.packets && from in peers
      requires m.kind == Deal && owned == net.Owns(self, m)
      modifies this`receivedCache, peers[from]
      ensures peers == old(peers) && Enabled(net, s, Arrive(from, self, m, kept))
      ensures Matches(net, AfterReceipt(net, s, from, self, m, kept, synced))
      ensures r == if m in old(receivedCache) then Reaction(false, false) else OnFirstReceipt(m, owned, synced)
      ensures m !in old(receivedCache) && !synced ==> r.broadcast && !r.deliver
      ensures m !in old(receivedCache) && synced ==> r.broadcast == !owned && r.deliver == owned
    {
      var hit;
      hit, kept := Receive(m, from, synced, net, s);
      if hit {
        return Reaction(false, false), kept;
      }
      if !synced {
        return Reaction(true, false), kept;
      }
      if owned {
        r := Reaction(false, true);
      } else {
        r := Reaction(true, false);
      }
    }

    method VSSResponseMsg(m: Message, from: Node, synced: bool, ghost net: Network, ghost s: State)
      returns (r: Reaction, ghost kept: set<Message>)
      requires Matches(net, s) && (from, self, m) in s.packets && from in peers
      requires m.kind == Response
      modifies this`receivedCache, peers[from]
      ensures peers == old(peers) && Enabled(net, s, Arrive(from, self, m, kept))
      ensures Matches(net, AfterReceipt(net, s, from, self, m, kept, synced))
      ensures r == if m in old(receivedCache) then Reaction(false, false)
                   else OnFirstReceipt(m, net.Owns(self, m), synced)
      ensures m !in old(receivedCache) ==> r.broadcast && r.deliver == synced
    {
      var hit;
      hit, kept := Receive(m, from, synced, net, s);
      if hit {
        return Reaction(false, false), kept;
      }
      r := Reaction(true, false);
      if !synced {
        return;
      }
      r := r.(deliver := true);
    }

    method GroupSigMsg(m: Message, from: Node, synced: bool, ghost net: Network, ghost s: State)
      returns (r: Reaction, ghost kept: set<Message>)
      requires Matches(net, s) && (from, self, m) in s.packets && from in peers
      requires m.kind == GroupSig
      modifies this`receivedCache, peers[from]
      ensures peers == old(peers) && Enabled(net, s, Arrive(from, self, m, kept))
      ensures Matches(net, AfterReceipt(net, s, from, self, m, kept, synced))
      ensures r == if m in old(receivedCache) then Reaction(false, false)
                   else OnFirstReceipt(m, net.Owns(self, m), synced)
      ensures m !in old(receivedCache) ==> r.broadcast && r.deliver
    {
      var hit;
      hit, kept := Receive(m, from, synced, net, s);
      r := if hit then Reaction(false, false) else Reaction(true, true);
    }

    /** A message of this node's own producer; the answer of the cache is ignored. */
    method Transmit(m: Message, owned: bool, ghost net: Network, ghost s: State) returns (r: Reaction)
      requires Matches(net, s) && Enabled(net, s, Originate(self, m)) && owned == net.Owns(self, m)
      modifies this`receivedCache
      ensures peers == old(peers) && Matches(net, DoOriginate(net, s, self, m))
      ensures r == OnOrigin(m, owned)
      ensures r.broadcast == !(m.kind == Deal && owned) && r.deliver == (m.kind != Deal || owned)
    {
      var _ := IsExistInCache(m);
      if m.kind == Deal && owned {
        r := Reaction(false, true);
      } else if m.kind == Deal {
        r := Reaction(true, false);
      } else {
        r := Reaction(true, true);
      }
    }

    /** The peers that are not known to know `m`, each once. */
    method PeersWithout(m: Message) returns (list: seq<Node>)
      requires Valid()
      ensures forall q :: q in list <==> q in peers && m !in peers[q].Known(m.kind)
      ensures forall i, j :: 0 <= i < j < |list| ==> list[i] != list[j]
    {
      list := [];
      var rest := peers.Keys;
      while rest != {}
        invariant rest <= peers.Keys
        invariant forall q :: q in list <==> q in peers && q !in rest && m !in peers[q].Known(m.kind)
        invariant forall i, j :: 0 <= i < j < |list| ==> list[i] != list[j]
        decreases rest
      {
        var q :| q in rest;
        rest := rest - {q};
        if m !in peers[q].Known(m.kind) {
          list := list + [q];
        }
      }
    }

    /** The broadcast that all three kinds share: nothing after the deadline, else one send per target. */
    method Broadcast(m: Message, now: nat, ghost net: Network, ghost s: State) returns (sends: seq<Node>)
      requires Matches(net, s)
      ensures forall i, j :: 0 <= i < j < |sends| ==> sends[i] != sends[j]
      ensures forall q :: q in sends <==> now <= m.deadline && q in peers && m !in peers[q].Known(m.kind)
      ensures (set q | q in sends :: (self, q, m)) == if now > m.deadline then {} else Targets(net, s, self, m)
    {
      if now > m.deadline {
        sends := [];
      } else {
        sends := PeersWithout(m);
      }
    }

    /** One send goroutine up to the write: the hash is marked before the message goes out. */
    method SendTo(q: Node, m: Message, ghost net: Network, ghost s: State) returns (ghost kept: set<Message>)
      requires Matches(net, s) && (self, q, m) in s.sends && q in peers
      modifies peers[q]
      ensures peers == old(peers) && Enabled(net, s, MarkSent(self, q, m, kept))
      ensures var s1 := DoMarkSent(s, self, q, m, kept);
              Enabled(net, s1, Write(self, q, m)) && Matches(net, DoWrite(s1, self, q, m))
      ensures m in peers[q].Known(m.kind)
    {
      kept := peers[q].Mark(m);
    }
  }
}
