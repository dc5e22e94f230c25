/** The server side of a header query: one loop, four traversal modes, over a store of parent-linked
    headers with a number index.  Numbers are 64-bit: additions wrap, conversions to `int` are spelled out,
    and an index or a slice capacity out of range (a panic in the source) is the outcome `Crash`. */
module HeaderStore {

  import opened Uint64
  import opened Wrappers

  type Hash = nat
  const ZERO_HASH: Hash := 0

  /** `hash` is the key under which the header was read from the store. */
  datatype Header = Header(hash: Hash, number: U64, parents: seq<Hash>)

  /** `sliceLimit` is the largest capacity for which the runtime makes a slice of hashes. */
  datatype Store = Store(byHash: map<Hash, Header>, byNumber: map<U64, Hash>, sliceLimit: nat) {
    ghost predicate Valid() {
      && ZERO_HASH !in byHash
      && forall h :: h in byHash ==> byHash[h].hash == h
    }

    function Lookup(n: U64): Option<Header> {
      if n in byNumber && byNumber[n] in byHash then Some(byHash[byNumber[n]]) else None
    }
  }

  datatype Walk = Crash | Lost | Arrived(hash: Hash)

  /** Follow `steps` parent links; the walk is lost at the genesis header and at a missing parent. */
  function Up(store: Store, hash: Hash, steps: nat): Walk
    requires hash in store.byHash
    decreases steps
  {
    var h := store.byHash[hash];
    if steps == 0 then Arrived(hash)
    else if h.number == 0 then Lost
    else if h.parents == [] then Crash
    else if h.parents[0] !in store.byHash then Lost
    else Up(store, h.parents[0], steps - 1)
  }

  lemma {:induction false} UpStep(store: Store, hash: Hash, steps: nat)
    requires hash in store.byHash
    ensures match Up(store, hash, steps)
            case Arrived(x) => x in store.byHash && Up(store, hash, steps + 1) == Up(store, x, 1)
            case w => Up(store, hash, steps + 1) == w
    decreases steps
  {
    if steps > 0 {
      var h := store.byHash[hash];
      if h.number != 0 && h.parents != [] && h.parents[0] in store.byHash {
        UpStep(store, h.parents[0], steps - 1);
      }
    }
  }

  lemma {:induction false} UpNotArrived(store: Store, hash: Hash, steps: nat, more: nat)
    requires hash in store.byHash && !Up(store, hash, steps).Arrived? && steps <= more
    ensures Up(store, hash, more) == Up(store, hash, steps)
    decreases more
  {
    if steps < more {
      UpNotArrived(store, hash, steps, more - 1);
      UpStep(store, hash, more - 1);
    }
  }

  /** A path from a header along first parents, each of them stored, that leaves only headers above height 0. */
  ghost predicate ParentPath(store: Store, path: seq<Hash>) {
    && path != [] && path[0] in store.byHash
    && (|path| > 1 ==>
          var h := store.byHash[path[0]];
          h.number != 0 && h.parents != [] && h.parents[0] == path[1] && ParentPath(store, path[1..]))
  }

  /** What a walk means: it arrives where such a path of that many links ends, panics where a shorter one ends at a
      header above height 0 that has no parents, and is lost where one ends at height 0 or at a missing parent. */
  lemma {:induction false} UpMeans(store: Store, hash: Hash, steps: nat) returns (path: seq<Hash>)
    requires hash in store.byHash
    ensures ParentPath(store, path) && path[0] == hash && |path| <= steps + 1 && path[|path| - 1] in store.byHash
    ensures var end := store.byHash[path[|path| - 1]];
            match Up(store, hash, steps)
            case Arrived(x) => |path| == steps + 1 && x == path[steps]
            case Crash => |path| <= steps && end.number != 0 && end.parents == []
            case Lost => |path| <= steps && (end.number == 0 || (end.parents != [] && end.parents[0] !in store.byHash))
    decreases steps
  {
    path := [hash];
    var h := store.byHash[hash];
    if steps > 0 && h.number != 0 && h.parents != [] && h.parents[0] in store.byHash {
      var rest := UpMeans(store, h.parents[0], steps - 1);
      path := path + rest;
      assert path[1..] == rest;
    }
  }

  /** Entry k of the ancestor walk is the (k+1)-th ancestor, and the walk is as long as it can be; room for the
      whole walk is made at the start. */
  method GetUnitHashesFromHash(store: Store, hash: Hash, max: U64) returns (crashed: bool, chain: seq<Hash>)
    requires store.Valid()
    ensures hash !in store.byHash ==> !crashed && chain == []
    ensures hash in store.byHash && max > store.sliceLimit ==> crashed
    ensures |chain| <= max
    ensures hash in store.byHash && max <= store.sliceLimit ==>
              && (forall k :: 0 <= k < |chain| ==> Up(store, hash, k + 1) == Arrived(chain[k]))
              && (crashed <==> |chain| < max && Up(store, hash, |chain| + 1).Crash?)
              && (!crashed && |chain| < max ==> Up(store, hash, |chain| + 1).Lost?)
  {
    crashed, chain := false, [];
    if hash !in store.byHash {
      return;
    }
    var header := store.byHash[hash];
    if max > store.sliceLimit {
      crashed := true;
      return;
    }
    var i := 0;
    while i < max
      invariant i == |chain| <= max && !crashed
      invariant header.hash in store.byHash && store.byHash[header.hash] == header
      invariant Up(store, hash, i) == Arrived(header.hash)
      invariant forall k :: 0 <= k < |chain| ==> Up(store, hash, k + 1) == Arrived(chain[k])
    {
      UpStep(store, hash, i);
      if header.number == 0 {
        break;
      }
      if header.parents == [] {
        crashed := true;
        return;
      }
      var next := header.parents[0];
      if next !in store.byHash {
        break;
      }
      assert Up(store, header.hash, 1) == Up(store, next, 0);
      header := store.byHash[next];
      chain := chain + [next];
      i := i + 1;
    }
  }
}

module HeaderQuery {
  import opened Uint64
  import opened Wrappers
  import opened HeaderStore

  const SOFT_RESPONSE_LIMIT := 2 * 1024 * 1024
  const EST_HEADER_RLP_SIZE := 500
  const MAX_HEADER_FETCH := 192

  datatype Query = Query(hash: Hash, number: U64, amount: U64, skip: U64, reverse: bool)

  datatype Reply = Panic | Sent(headers: seq<Header>)

  /** How many headers the limits of a query leave room for. */
  function Room(q: Query): nat {
    if AsInt(q.amount) <= 0 then 0
    else if q.amount < MAX_HEADER_FETCH then q.amount else MAX_HEADER_FETCH
  }

  /** How often the hash-reverse loop runs: int(skip) + 1 in 64-bit signed arithmetic. */
  function BackSteps(skip: U64): nat {
    if skip < TWO63 - 1 then skip + 1 else 0
  }

  function WalkBack(store: Store, hash: Hash, number: U64, steps: nat): Walk
    decreases steps
  {
    if steps == 0 then Arrived(hash)
    else if hash !in store.byHash then Lost
    else if number != 0 && store.byHash[hash].parents == [] then Crash
    else WalkBack(store, if number != 0 then store.byHash[hash].parents[0] else hash, SubU64(number, 1), steps - 1)
  }

  /** Where a query goes after `origin` has been added to the reply. */
  datatype Move = Panicked | Halt | Continue(query: Query)

  /** Whether `skip + 1` parent links lead from a header back to the origin. */
  function SameChain(store: Store, q: Query, header: Header): Move
    requires header.hash in store.byHash
  {
    if AddU64(q.skip, 1) > store.sliceLimit then Panicked
    else match Up(store, header.hash, AddU64(q.skip, 1))
      case Crash => Panicked
      case Lost => if AsInt(q.skip) < 0 then Panicked else Halt
      case Arrived(h) => if h == q.hash then Continue(q.(hash := header.hash)) else Halt
  }

  function Advance(store: Store, hashMode: bool, q: Query, origin: Header): Move
    requires store.Valid()
  {
    if hashMode && q.reverse then
      match WalkBack(store, q.hash, origin.number, BackSteps(q.skip))
      case Crash => Panicked
      case Lost => Halt
      case Arrived(h) => Continue(q.(hash := h))
    else if hashMode then
      var next := AddU64(AddU64(origin.number, q.skip), 1);
      if next <= origin.number then Halt
      else match store.Lookup(next)
        case None => Halt
        case Some(header) => SameChain(store, q, header)
    else if q.reverse then
      if q.number >= AddU64(q.skip, 1) then Continue(q.(number := q.number - AddU64(q.skip, 1))) else Halt
    else
      Continue(q.(number := AddU64(q.number, AddU64(q.skip, 1))))
  }

  /** The header as it is sent.  In hash-forward mode the search for the next header writes its number
      through the pointer that GetNumber returns, into the header that is already part of the reply. */
  function Shown(hashMode: bool, q: Query, origin: Header): Header {
    var next := AddU64(AddU64(origin.number, q.skip), 1);
    if hashMode && !q.reverse && next > origin.number then origin.(number := next) else origin
  }

  function Origin(store: Store, hashMode: bool, q: Query): Option<Header> {
    if !hashMode then store.Lookup(q.number)
    else if q.hash in store.byHash then Some(store.byHash[q.hash]) else None
  }

  function Prepend(headers: seq<Header>, reply: Reply): Reply {
    if reply.Panic? then Panic else Sent(headers + reply.headers)
  }

  /** The reply with room for `room` more headers. */
  function Answer(store: Store, hashMode: bool, q: Query, room: nat): Reply
    requires store.Valid()
    decreases room
  {
    if room == 0 then Sent([])
    else match Origin(store, hashMode, q)
      case None => Sent([])
      case Some(origin) =>
        match Advance(store, hashMode, q, origin)
        case Panicked => Panic
        case Halt => Sent([Shown(hashMode, q, origin)])
        case Continue(q') => Prepend([Shown(hashMode, q, origin)], Answer(store, hashMode, q', room - 1))
  }

  lemma {:induction false} PrependTwice(a: seq<Header>, b: seq<Header>, reply: Reply)
    ensures Prepend(a, Prepend(b, reply)) == Prepend(a + b, reply)
  {
    if reply.Sent? {
      assert a + (b + reply.headers) == (a + b) + reply.headers;
    }
  }

  /** The loop that walks back, as the hash-reverse mode runs it. */
  method WalkBackLoop(store: Store, hash: Hash, number: U64, skip: U64) returns (w: Walk)
    requires store.Valid()
    ensures w == WalkBack(store, hash, number, BackSteps(skip))
  {
    var steps: int := if skip == TWO63 - 1 then 0 - TWO63 else AsInt(skip) + 1;
    var at, left := hash, number;
    var i := 0;
    while i < steps
      invariant 0 <= i && (steps < 0 || i <= steps) && (steps < 0 ==> i == 0)
      invariant WalkBack(store, at, left, if steps < 0 then 0 else steps - i)
                == WalkBack(store, hash, number, BackSteps(skip))
    {
      if at !in store.byHash {
        return Lost;
      }
      var header := store.byHash[at];
      if left != 0 {
        if header.parents == [] {
          return Crash;
        }
        at := header.parents[0];
      }
      left := SubU64(left, 1);
      i := i + 1;
    }
    w := Arrived(at);
  }

  /** The hash-forward mode accepts the header at the next number only if `skip + 1` parent links lead
      from it back to the origin. */
  method NextOnSameChain(store: Store, q: Query, header: Header) returns (m: Move)
    requires store.Valid() && header.hash in store.byHash && AddU64(q.skip, 1) != 0
    ensures m == SameChain(store, q, header)
  {
    var crashed, hashs := GetUnitHashesFromHash(store, header.hash, AddU64(q.skip, 1));
    if |hashs| < AddU64(q.skip, 1) <= store.sliceLimit {
      UpNotArrived(store, header.hash, |hashs| + 1, AddU64(q.skip, 1));
    }
    if crashed {
      return Panicked;
    }
    if |hashs| > AsInt(q.skip) {
      if |hashs| <= q.skip {
        return Panicked;
      }
      if hashs[q.skip] == q.hash {
        return Continue(q.(hash := header.hash));
      }
    }
    m := Halt;
  }

  /** The switch over the modes: where the query goes next, and what becomes of the header just added. */
  method NextQuery(store: Store, hashMode: bool, q: Query, origin: Header) returns (m: Move, shown: Header)
    requires store.Valid()
    ensures m == Advance(store, hashMode, q, origin) && shown == Shown(hashMode, q, origin)
  {
    var number := origin.number;
    shown := origin;
    if hashMode && q.reverse {
      var w := WalkBackLoop(store, q.hash, number, q.skip);
      if w.Crash? {
        return Panicked, shown;
      } else if w.Lost? {
        return Halt, shown;
      } else {
        return Continue(q.(hash := w.hash)), shown;
      }
    } else if hashMode {
      var next := AddU64(AddU64(number, q.skip), 1);
      if next <= number {
        return Halt, shown;
      }
      shown := origin.(number := next);
      var header := store.Lookup(next);
      if header.None? {
        return Halt, shown;
      }
      m := NextOnSameChain(store, q, header.value);
    } else if q.reverse {
      if q.number >= AddU64(q.skip, 1) {
        return Continue(q.(number := q.number - AddU64(q.skip, 1))), shown;
      } else {
        return Halt, shown;
      }
    } else {
      return Continue(q.(number := AddU64(q.number, AddU64(q.skip, 1)))), shown;
    }
  }

  lemma {:induction false} AnswerStep(store: Store, hashMode: bool, q: Query, room: nat, before: seq<Header>)
    requires store.Valid() && room > 0 && Origin(store, hashMode, q).Some?
    ensures var origin := Origin(store, hashMode, q).value;
            var after := before + [Shown(hashMode, q, origin)];
            Prepend(before, Answer(store, hashMode, q, room)) ==
              match Advance(store, hashMode, q, origin)
              case Panicked => Panic
              case Halt => Sent(after)
              case Continue(q') => Prepend(after, Answer(store, hashMode, q', room - 1))
  {
    var origin := Origin(store, hashMode, q).value;
    var m := Advance(store, hashMode, q, origin);
    if m.Continue? {
      PrependTwice(before, [Shown(hashMode, q, origin)], Answer(store, hashMode, m.query, room - 1));
    }
  }

  lemma {:induction false} AdvanceKeeps(store: Store, hashMode: bool, q: Query, origin: Header)
    requires store.Valid() && Advance(store, hashMode, q, origin).Continue?
    ensures var q' := Advance(store, hashMode, q, origin).query;
            q'.amount == q.amount && q'.skip == q.skip && q'.reverse == q.reverse
  {
  }

  method GetBlockHeaders(store: Store, query: Query) returns (reply: Reply)
    requires store.Valid()
    ensures reply == Answer(store, query.hash != ZERO_HASH, query, Room(query))
    ensures query.amount == 0 || query.amount >= TWO63 ==> reply == Sent([])
    ensures reply.Sent? ==> |reply.headers| <= query.amount && |reply.headers| <= 192
  {
    var hashMode := query.hash != ZERO_HASH;
    var q := query;
    var bytes, headers, unknown := 0, [], false;
    ghost var goal := Answer(store, hashMode, query, Room(query));
    assert goal == Prepend([], goal);
    while !unknown && |headers| < AsInt(q.amount) && bytes < SOFT_RESPONSE_LIMIT && |headers| < MAX_HEADER_FETCH
      invariant q.amount == query.amount
      invariant bytes == EST_HEADER_RLP_SIZE * |headers| && |headers| <= Room(query)
      invariant unknown ==> goal == Sent(headers)
      invariant !unknown ==> goal == Prepend(headers, Answer(store, hashMode, q, Room(query) - |headers|))
      decreases Room(query) - |headers|, !unknown
    {
      var found := if hashMode then
                     (if q.hash in store.byHash then Some(store.byHash[q.hash]) else None)
                   else store.Lookup(q.number);
      if found.None? {
        return Sent(headers);
      }
      AnswerStep(store, hashMode, q, Room(query) - |headers|, headers);
      var m, shown := NextQuery(store, hashMode, q, found.value);
      headers := headers + [shown];
      bytes := bytes + EST_HEADER_RLP_SIZE;
      if m.Panicked? {
        return Panic;
      } else if m.Halt? {
        unknown := true;
      } else {
        AdvanceKeeps(store, hashMode, q, found.value);
        q := m.query;
      }
    }
    reply := Sent(headers);
  }
}

/** What the four modes return. */
module HeaderTheorems {
  import opened Uint64
  import opened Wrappers
  import opened HeaderStore
  import opened HeaderQuery

  // ----- Any store, forks included -----

  /** Consecutive headers of a hash-forward reply are exactly `skip + 1` parent links apart. */
  lemma {:induction false} HashForwardSpacing(store: Store, q: Query, room: nat)
    requires store.Valid() && !q.reverse
    ensures var r := Answer(store, true, q, room);
            r.Sent? ==>
              && |r.headers| <= room
              && (r.headers != [] ==> r.headers[0].hash == q.hash)
              && (forall i :: 0 <= i < |r.headers| ==> r.headers[i].hash in store.byHash)
              && (forall i :: 0 <= i < |r.headers| - 1 ==>
                    Up(store, r.headers[i + 1].hash, q.skip + 1) == Arrived(r.headers[i].hash))
    decreases room
  {
    if room > 0 && q.hash in store.byHash {
      var origin := store.byHash[q.hash];
      var move := Advance(store, true, q, origin);
      if move.Continue? {
        HashForwardSpacing(store, move.query, room - 1);
        var rest := Answer(store, true, move.query, room - 1);
        if rest.Sent? {
          var r := Answer(store, true, q, room).headers;
          assert r == [Shown(true, q, origin)] + rest.headers;
          forall i | 0 <= i < |r| - 1
            ensures Up(store, r[i + 1].hash, q.skip + 1) == Arrived(r[i].hash)
          {
            if i > 0 {
              assert r[i] == rest.headers[i - 1] && r[i + 1] == rest.headers[i];
            }
          }
        }
      }
    }
  }

  /** And the reply is as long as it can be: it stops short only where the next number overflows, no header has it, or
      the header that has it does not descend from the last one in that many links. */
  lemma {:induction false} HashForwardMaximal(store: Store, q: Query, room: nat)
    requires store.Valid() && !q.reverse
    ensures var r := Answer(store, true, q, room);
            r.Sent? && |r.headers| < room ==>
              if r.headers == [] then q.hash !in store.byHash
              else
                var last := r.headers[|r.headers| - 1].hash;
                && last in store.byHash
                && var next := store.byHash[last].number + q.skip + 1;
                   next >= TWO64 || store.Lookup(next).None?
                   || Up(store, store.Lookup(next).value.hash, q.skip + 1) != Arrived(last)
    decreases room
  {
    if room > 0 && q.hash in store.byHash {
      var origin := store.byHash[q.hash];
      var move := Advance(store, true, q, origin);
      if move.Continue? {
        HashForwardMaximal(store, move.query, room - 1);
        var rest := Answer(store, true, move.query, room - 1);
        if rest.Sent? {
          assert Answer(store, true, q, room).headers == [Shown(true, q, origin)] + rest.headers;
        }
      }
    }
  }

  /** The header at the next number after `a`, in hash-forward mode. */
  ghost function NextOf(store: Store, skip: U64, a: Hash): Option<Header> {
    if a in store.byHash && store.byHash[a].number + skip + 1 < TWO64
    then store.Lookup(store.byHash[a].number + skip + 1) else None
  }

  /** From `a` the query goes on to `b`, or the walk back from the next header panics: it is longer than a slice can be,
      meets a header above height 0 without parents, or ends early for a skip that `int` makes negative. */
  ghost predicate GoesOn(store: Store, skip: U64, a: Hash, b: Hash) {
    var next := NextOf(store, skip, a);
    && skip + 1 <= store.sliceLimit && next.Some? && next.value.hash == b
    && b in store.byHash && Up(store, b, skip + 1) == Arrived(a)
  }

  ghost predicate Fails(store: Store, skip: U64, a: Hash) {
    var next := NextOf(store, skip, a);
    && next.Some? && next.value.hash in store.byHash
    && var up := Up(store, next.value.hash, skip + 1);
       skip + 1 > store.sliceLimit || up.Crash? || (up.Lost? && skip >= TWO63)
  }

  /** The query goes on along `path` and panics at its end. */
  ghost predicate FailsAlong(store: Store, skip: U64, path: seq<Hash>) {
    && path != []
    && if |path| == 1 then Fails(store, skip, path[0])
       else GoesOn(store, skip, path[0], path[1]) && FailsAlong(store, skip, path[1..])
  }

  lemma {:induction false} HopCases(store: Store, q: Query)
    requires store.Valid() && !q.reverse && q.hash in store.byHash
    ensures var move := Advance(store, true, q, store.byHash[q.hash]);
            && (move.Panicked? <==> Fails(store, q.skip, q.hash))
            && (move.Continue? ==> move.query == q.(hash := move.query.hash)
                                   && GoesOn(store, q.skip, q.hash, move.query.hash))
            && (forall b :: GoesOn(store, q.skip, q.hash, b) ==> move == Continue(q.(hash := b)))
  {
  }

  /** Over any store, a hash-forward query panics if and only if it comes, within its limits, to a header from which
      such a walk back starts. */
  lemma {:induction false} HashForwardPanicsIff(store: Store, q: Query, room: nat)
    requires store.Valid() && !q.reverse
    ensures Answer(store, true, q, room).Panic? <==>
              exists path :: |path| <= room && FailsAlong(store, q.skip, path) && path[0] == q.hash
    decreases room
  {
    if room > 0 && q.hash in store.byHash {
      HopCases(store, q);
      var move := Advance(store, true, q, store.byHash[q.hash]);
      if move.Panicked? {
        assert FailsAlong(store, q.skip, [q.hash]);
      } else if move.Continue? {
        HashForwardPanicsIff(store, move.query, room - 1);
        if path :| |path| <= room - 1 && FailsAlong(store, q.skip, path) && path[0] == move.query.hash {
          var longer := [q.hash] + path;
          assert longer[1..] == path;
          assert FailsAlong(store, q.skip, longer);
        }
      }
      if path :| |path| <= room && FailsAlong(store, q.skip, path) && path[0] == q.hash {
        assert |path| > 1 ==> GoesOn(store, q.skip, path[0], path[1]);
      }
    }
  }

  /** Heights fall by one along stored parent links. */
  ghost predicate Leveled(store: Store) {
    forall h :: h in store.byHash ==>
      var x := store.byHash[h];
      x.number != 0 && x.parents != [] && x.parents[0] in store.byHash ==>
        store.byHash[x.parents[0]].number == x.number - 1
  }

  /** Down to the genesis height, the loop that walks back follows parent links; it may end one link past the last
      header that is stored. */
  lemma {:induction false} WalkBackIsUp(store: Store, hash: Hash, steps: nat)
    requires store.Valid() && Leveled(store) && hash in store.byHash && steps <= store.byHash[hash].number
    ensures var w := WalkBack(store, hash, store.byHash[hash].number, steps);
            match Up(store, hash, steps)
            case Lost => w.Lost? || (w.Arrived? && w.hash !in store.byHash)
            case up => w == up
    decreases steps
  {
    if steps > 0 {
      var h := store.byHash[hash];
      if h.parents != [] && h.parents[0] in store.byHash {
        WalkBackIsUp(store, h.parents[0], steps - 1);
      }
    }
  }

  /** A stride that does not pass the genesis height. */
  ghost predicate Above(h: Header, skip: U64) { h.number >= skip + 1 && skip < TWO63 - 1 }

  lemma {:induction false} StepBack(store: Store, q: Query, room: nat)
    requires store.Valid() && Leveled(store) && q.reverse && room > 0 && q.hash in store.byHash
    ensures var origin, move := store.byHash[q.hash], Advance(store, true, q, store.byHash[q.hash]);
            Above(origin, q.skip) && !move.Panicked? ==>
              if move.Continue? && move.query.hash in store.byHash then
                Up(store, q.hash, q.skip + 1) == Arrived(move.query.hash)
              else Up(store, q.hash, q.skip + 1).Lost?
  {
    var origin := store.byHash[q.hash];
    if Above(origin, q.skip) {
      WalkBackIsUp(store, q.hash, q.skip + 1);
      UpStep(store, q.hash, q.skip + 1);
    }
  }

  /** A hash-reverse reply starts at its origin and holds stored headers. */
  lemma {:induction false} HashReverseStored(store: Store, q: Query, room: nat)
    requires store.Valid() && q.reverse && Answer(store, true, q, room).Sent?
    ensures var r := Answer(store, true, q, room).headers;
            && (r == [] <==> room == 0 || q.hash !in store.byHash)
            && (r != [] ==> r[0] == store.byHash[q.hash])
            && (forall i :: 0 <= i < |r| ==> r[i].hash in store.byHash && r[i] == store.byHash[r[i].hash])
    decreases room
  {
    if room > 0 && q.hash in store.byHash {
      var move := Advance(store, true, q, store.byHash[q.hash]);
      if move.Continue? {
        HashReverseStored(store, move.query, room - 1);
      }
    }
  }

  /** Consecutive headers of a hash-reverse reply are exactly `skip + 1` parent links apart as long as the stride stays
      above the genesis height ... */
  lemma {:induction false} HashReverseSpacing(store: Store, q: Query, room: nat, i: nat)
    requires store.Valid() && Leveled(store) && q.reverse && Answer(store, true, q, room).Sent?
    requires i + 1 < |Answer(store, true, q, room).headers| && Above(Answer(store, true, q, room).headers[i], q.skip)
    ensures var r := Answer(store, true, q, room).headers;
            r[i].hash in store.byHash && Up(store, r[i].hash, q.skip + 1) == Arrived(r[i + 1].hash)
    decreases i
  {
    var r := Answer(store, true, q, room).headers;
    HashReverseStored(store, q, room);
    var move := Advance(store, true, q, store.byHash[q.hash]);
    var rest := Answer(store, true, move.query, room - 1).headers;
    assert r == [store.byHash[q.hash]] + rest;
    if i == 0 {
      HashReverseStored(store, move.query, room - 1);
      StepBack(store, q, room);
    } else {
      HashReverseSpacing(store, move.query, room - 1, i - 1);
    }
  }

  /** ... and such a reply stops short only where those links leave the store. */
  lemma {:induction false} HashReverseMaximal(store: Store, q: Query, room: nat)
    requires store.Valid() && Leveled(store) && q.reverse && Answer(store, true, q, room).Sent?
    requires 0 < |Answer(store, true, q, room).headers| < room
    ensures var r := Answer(store, true, q, room).headers;
            var last := r[|r| - 1];
            last.hash in store.byHash && (Above(last, q.skip) ==> Up(store, last.hash, q.skip + 1).Lost?)
    decreases room
  {
    HashReverseStored(store, q, room);
    StepBack(store, q, room);
    var move := Advance(store, true, q, store.byHash[q.hash]);
    if move.Continue? {
      HashReverseStored(store, move.query, room - 1);
      var rest := Answer(store, true, move.query, room - 1).headers;
      assert Answer(store, true, q, room).headers == [store.byHash[q.hash]] + rest;
      if rest != [] {
        HashReverseMaximal(store, move.query, room - 1);
      }
    }
  }

  /** A reply carries a header as the store has it, except in hash-forward mode, where its number has been
      overwritten by the next one unless that overflows. */
  lemma {:induction false} ReplyNumbers(store: Store, hashMode: bool, q: Query, room: nat, i: nat)
    requires store.Valid() && Answer(store, hashMode, q, room).Sent?
    requires i < |Answer(store, hashMode, q, room).headers|
    ensures var shown := Answer(store, hashMode, q, room).headers[i];
            && shown.hash in store.byHash
            && (shown == store.byHash[shown.hash] <==>
                  !hashMode || q.reverse || store.byHash[shown.hash].number + q.skip + 1 >= TWO64)
            && shown == store.byHash[shown.hash].(number := shown.number)
            && (shown != store.byHash[shown.hash] ==> shown.number == store.byHash[shown.hash].number + q.skip + 1)
    decreases room
  {
    var origin := Origin(store, hashMode, q).value;
    var move := Advance(store, hashMode, q, origin);
    if i == 0 {
      assert Answer(store, hashMode, q, room).headers[0] == Shown(hashMode, q, origin);
      ShownAsStored(hashMode, q, origin);
    } else {
      ReplyNumbers(store, hashMode, move.query, room - 1, i - 1);
    }
  }

  lemma {:induction false} ShownAsStored(hashMode: bool, q: Query, origin: Header)
    ensures Shown(hashMode, q, origin) == origin <==>
              !hashMode || q.reverse || origin.number + q.skip + 1 >= TWO64
    ensures var shown := Shown(hashMode, q, origin); shown == origin || shown == origin.(number := origin.number + q.skip + 1)
  {
  }

  // ----- A store whose number index agrees with its parent links -----

  /** The hash that the index holds for a number, and the header stored under it. */
  ghost function HashAt(store: Store, n: nat): Hash {
    if n < TWO64 && n in store.byNumber then store.byNumber[n] else ZERO_HASH
  }

  ghost function At(store: Store, n: nat): Header {
    if n < TWO64 && store.Lookup(n).Some? then store.Lookup(n).value else Header(ZERO_HASH, 0, [])
  }

  ghost predicate OnChain(store: Store, n: U64) {
    && n in store.byNumber && store.byNumber[n] in store.byHash
    && At(store, n).number == n
    && if n == 0 then At(store, n).parents == []
       else At(store, n).parents != [] && At(store, n).parents[0] == HashAt(store, n - 1)
  }

  /** The index holds exactly 0..top and follows first parents; headers of forks may be stored beside it. */
  ghost predicate Agrees(store: Store, top: U64) {
    && store.Valid()
    && (forall n: U64 :: n <= top ==> OnChain(store, n))
    && (forall n: U64 :: n in store.byNumber ==> n <= top)
  }

  /** The one specification: the headers at n, n + k, n + 2k, ... as far as limits and chain allow. */
  ghost function Forward(store: Store, top: U64, n: nat, k: nat, room: nat): (hs: seq<Header>)
    requires Agrees(store, top)
    decreases room
  {
    if room == 0 || n > top then [] else [At(store, n)] + Forward(store, top, n + k, k, room - 1)
  }

  ghost function Backward(store: Store, top: U64, n: nat, k: nat, room: nat): (hs: seq<Header>)
    requires Agrees(store, top) && n <= top
    decreases room
  {
    if room == 0 then []
    else [At(store, n)] + if n >= k then Backward(store, top, n - k, k, room - 1) else []
  }

  lemma {:induction false} MulStep(i: nat, k: nat)
    ensures (i + 1) * k == i * k + k
  {
  }

  /** The specification in closed form: entry i is i strides away ... */
  lemma {:induction false} ForwardEntry(store: Store, top: U64, n: nat, k: nat, room: nat, i: nat)
    requires Agrees(store, top) && i < |Forward(store, top, n, k, room)|
    ensures n + i * k <= top && Forward(store, top, n, k, room)[i] == At(store, n + i * k)
    decreases i
  {
    if i > 0 {
      ForwardEntry(store, top, n + k, k, room - 1, i - 1);
      MulStep(i - 1, k);
    }
  }

  /** ... and the list ends only at a limit or past the top. */
  lemma {:induction false} ForwardMaximal(store: Store, top: U64, n: nat, k: nat, room: nat)
    requires Agrees(store, top)
    ensures var hs := Forward(store, top, n, k, room); |hs| <= room && (|hs| < room ==> n + |hs| * k > top)
    decreases room
  {
    if room > 0 && n <= top {
      ForwardMaximal(store, top, n + k, k, room - 1);
      MulStep(|Forward(store, top, n + k, k, room - 1)|, k);
    }
  }

  lemma {:induction false} BackwardEntry(store: Store, top: U64, n: nat, k: nat, room: nat, i: nat)
    requires Agrees(store, top) && n <= top && i < |Backward(store, top, n, k, room)|
    ensures i * k <= n && Backward(store, top, n, k, room)[i] == At(store, n - i * k)
    decreases i
  {
    if i > 0 {
      BackwardEntry(store, top, n - k, k, room - 1, i - 1);
      MulStep(i - 1, k);
    }
  }

  lemma {:induction false} BackwardMaximal(store: Store, top: U64, n: nat, k: nat, room: nat)
    requires Agrees(store, top) && n <= top
    ensures var hs := Backward(store, top, n, k, room); |hs| <= room && (|hs| < room ==> |hs| * k > n)
    decreases room
  {
    if room > 0 && n >= k {
      BackwardMaximal(store, top, n - k, k, room - 1);
      MulStep(|Backward(store, top, n - k, k, room - 1)|, k);
    }
  }

  /** The distance that `room` strides cover, by addition. */
  ghost function Distance(room: nat, k: nat): nat { if room == 0 then 0 else Distance(room - 1, k) + k }

  lemma {:induction false} DistanceIsProduct(room: nat, k: nat)
    ensures Distance(room, k) == room * k
  {
    if room > 0 {
      DistanceIsProduct(room - 1, k);
      MulStep(room - 1, k);
    }
  }

  lemma {:induction false} PrependSame(h: Header, hs: seq<Header>, reply: Reply)
    ensures Prepend([h], reply) == Sent([h] + hs) <==> reply == Sent(hs)
  {
    if reply.Sent? {
      assert ([h] + hs)[1..] == hs && ([h] + reply.headers)[1..] == reply.headers;
    }
  }

  lemma {:induction false} NumberForwardStep(store: Store, top: U64, q: Query, room: nat)
    requires Agrees(store, top) && !q.reverse && q.number <= top && room > 0
    ensures var q' := q.(number := AddU64(q.number, AddU64(q.skip, 1)));
            Answer(store, false, q, room) == Prepend([At(store, q.number)], Answer(store, false, q', room - 1))
  {
    assert OnChain(store, q.number);
  }

  /** Number-forward serves the progression and stops, unless the number wraps around: then it starts again
      from the bottom of the chain. */
  lemma {:induction false} NumberForwardCases(store: Store, top: U64, q: Query, room: nat)
    requires Agrees(store, top) && !q.reverse
    ensures var hs, k := Forward(store, top, q.number, q.skip + 1, room), q.skip + 1;
            Answer(store, false, q, room) == Sent(hs)
            <==> |hs| == room || q.number + Distance(|hs|, k) < TWO64
    decreases room
  {
    if q.number > top {
      assert q.number !in store.byNumber;
    } else if room > 0 {
      var n, k := q.number, q.skip + 1;
      var q' := q.(number := AddU64(n, AddU64(q.skip, 1)));
      var rest := Forward(store, top, n + k, k, room - 1);
      NumberForwardStep(store, top, q, room);
      PrependSame(At(store, n), rest, Answer(store, false, q', room - 1));
      if n + k <= top {
        NumberForwardCases(store, top, q', room - 1);
      } else if n + k < TWO64 {
        assert rest == [] && n + k !in store.byNumber;
      } else {
        assert rest == [] && OnChain(store, q'.number);
      }
    }
  }

  /** `count` strides from `n` fill the reply or stay within 64 bits. */
  ghost predicate InTime(n: nat, count: nat, k: nat, room: nat) { count == room || n + count * k < TWO64 }

  lemma {:induction false} NumberForward(store: Store, top: U64, q: Query, room: nat)
    requires Agrees(store, top) && !q.reverse
    ensures var hs := Forward(store, top, q.number, q.skip + 1, room);
            Answer(store, false, q, room) == Sent(hs) <==> InTime(q.number, |hs|, q.skip + 1, room)
  {
    NumberForwardCases(store, top, q, room);
    DistanceIsProduct(|Forward(store, top, q.number, q.skip + 1, room)|, q.skip + 1);
  }

  lemma {:induction false} NumberReverseStep(store: Store, top: U64, q: Query, room: nat)
    requires Agrees(store, top) && q.reverse && q.number <= top && q.skip + 1 < TWO64 && room > 0
    ensures var n, k := q.number, q.skip + 1;
            Answer(store, false, q, room) ==
              if n >= k then Prepend([At(store, n)], Answer(store, false, q.(number := n - k), room - 1))
              else Sent([At(store, n)])
  {
    assert OnChain(store, q.number);
  }

  lemma {:induction false} NumberReverse(store: Store, top: U64, q: Query, room: nat)
    requires Agrees(store, top) && q.reverse && q.number <= top && q.skip + 1 < TWO64
    ensures Answer(store, false, q, room) == Sent(Backward(store, top, q.number, q.skip + 1, room))
    decreases room
  {
    if room > 0 {
      NumberReverseStep(store, top, q, room);
      if q.number >= q.skip + 1 {
        NumberReverse(store, top, q.(number := q.number - (q.skip + 1)), room - 1);
      }
    }
  }

  // ----- How many headers a reply holds -----

  ghost function Least(a: nat, b: nat): nat { if a <= b then a else b }

  lemma {:induction false} MulGrows(i: nat, j: nat, k: nat)
    requires i <= j
    ensures i * k <= j * k
    decreases j - i
  {
    if i < j {
      MulGrows(i, j - 1, k);
      MulStep(j - 1, k);
    }
  }

  lemma {:induction false} Quotient(d: nat, k: nat, i: nat)
    requires k > 0
    ensures i <= d / k <==> i * k <= d
  {
    var e := d / k;
    assert e * k <= d < e * k + k;
    if i <= e {
      MulGrows(i, e, k);
    } else {
      MulStep(e, k);
      MulGrows(e + 1, i, k);
    }
  }

  lemma {:induction false} ForwardCount(store: Store, top: U64, n: nat, k: nat, room: nat)
    requires Agrees(store, top) && n <= top && k > 0
    ensures |Forward(store, top, n, k, room)| == Least(room, (top - n) / k + 1)
  {
    var count := |Forward(store, top, n, k, room)|;
    ForwardMaximal(store, top, n, k, room);
    Quotient(top - n, k, count);
    if count > 0 {
      ForwardEntry(store, top, n, k, room, count - 1);
      Quotient(top - n, k, count - 1);
    }
  }

  lemma {:induction false} BackwardCount(store: Store, top: U64, n: nat, k: nat, room: nat)
    requires Agrees(store, top) && n <= top && k > 0
    ensures |Backward(store, top, n, k, room)| == Least(room, n / k + 1)
  {
    var count := |Backward(store, top, n, k, room)|;
    BackwardMaximal(store, top, n, k, room);
    Quotient(n, k, count);
    if count > 0 {
      BackwardEntry(store, top, n, k, room, count - 1);
      Quotient(n, k, count - 1);
    }
  }

  /** What a query can get at most, and how many headers it is to get where `far` heights lie ahead of it. */
  ghost function Limit(q: Query): nat { Least(q.amount, 192) }

  ghost function Wanted(q: Query, far: nat): nat { Least(Limit(q), far / (q.skip + 1) + 1) }

  lemma {:induction false} RoomIsLimit(q: Query)
    requires 0 < q.amount < TWO63
    ensures Room(q) == Limit(q)
  {
  }

  /** A number-forward query gets the headers at its number and every skip + 1 above it, as far as the amount it asks
      for, the limit and the chain allow, if and only if the reply is full before the number wraps ... */
  lemma {:induction false} NumberForwardReply(store: Store, top: U64, q: Query)
    requires Agrees(store, top) && !q.reverse && 0 < q.amount < TWO63
    ensures var hs := Forward(store, top, q.number, q.skip + 1, Limit(q));
            Answer(store, false, q, Room(q)) == Sent(hs) <==> InTime(q.number, |hs|, q.skip + 1, Limit(q))
  {
    RoomIsLimit(q);
    NumberForward(store, top, q, Limit(q));
  }

  /** ... and these are exactly as many as it is to get. */
  lemma {:induction false} NumberForwardCount(store: Store, top: U64, q: Query)
    requires Agrees(store, top) && !q.reverse && 0 < q.amount < TWO63
    requires Answer(store, false, q, Room(q)) == Sent(Forward(store, top, q.number, q.skip + 1, Limit(q)))
    ensures |Answer(store, false, q, Room(q)).headers| == if q.number <= top then Wanted(q, top - q.number) else 0
  {
    if q.number <= top {
      ForwardCount(store, top, q.number, q.skip + 1, Limit(q));
    }
  }

  /** A number-backward query gets the headers at its number and every skip + 1 below it, exactly as many. */
  lemma {:induction false} NumberReverseReply(store: Store, top: U64, q: Query)
    requires Agrees(store, top) && q.reverse && 0 < q.amount < TWO63 && q.skip + 1 < TWO64
    ensures q.number > top ==> Answer(store, false, q, Room(q)) == Sent([])
    ensures q.number <= top ==>
              var hs := Backward(store, top, q.number, q.skip + 1, Limit(q));
              |hs| == Wanted(q, q.number) && Answer(store, false, q, Room(q)) == Sent(hs)
  {
    RoomIsLimit(q);
    if q.number <= top {
      BackwardCount(store, top, q.number, q.skip + 1, Limit(q));
      NumberReverse(store, top, q, Limit(q));
    } else {
      assert q.number !in store.byNumber;
    }
  }

  lemma {:induction false} UpOnChain(store: Store, top: U64, n: U64, steps: nat)
    requires Agrees(store, top) && n <= top
    ensures HashAt(store, n) in store.byHash
    ensures Up(store, HashAt(store, n), steps) ==
              if steps <= n then Arrived(HashAt(store, n - steps)) else Lost
    decreases steps
  {
    assert OnChain(store, n);
    if steps > 0 && n > 0 {
      assert OnChain(store, n - 1);
      UpOnChain(store, top, n - 1, steps - 1);
    }
  }

  /** Two lists of the same stored headers. */
  ghost predicate SameHeaders(a: seq<Header>, b: seq<Header>) {
    |a| == |b| && forall i :: 0 <= i < |a| ==> a[i].hash == b[i].hash
  }

  lemma {:induction false} SamePrepend(g: Header, h: Header, a: seq<Header>, b: seq<Header>)
    requires g.hash == h.hash && SameHeaders(a, b)
    ensures SameHeaders([g] + a, [h] + b)
  {
  }

  lemma {:induction false} HashForwardStep(store: Store, top: U64, q: Query, n: U64, room: nat)
    requires Agrees(store, top) && !q.reverse && n <= top && q.hash == HashAt(store, n) && room > 0
    ensures var k := q.skip + 1;
            Answer(store, true, q, room) ==
              if n + k <= top && k > store.sliceLimit then Panic
              else if n + k <= top then
                Prepend([Shown(true, q, At(store, n))], Answer(store, true, q.(hash := HashAt(store, n + k)), room - 1))
              else Sent([Shown(true, q, At(store, n))])
  {
    assert OnChain(store, n);
    var k := q.skip + 1;
    if n + k <= top {
      assert OnChain(store, n + k);
      UpOnChain(store, top, n + k, k);
    }
  }

  /** The header a stride of `k` away is there, but the walk back from it is longer than a slice can be. */
  ghost predicate TooFar(store: Store, top: U64, n: U64, k: nat, room: nat) {
    room > 0 && n + k <= top && k > store.sliceLimit
  }

  lemma {:induction false} HashForwardPanics(store: Store, top: U64, q: Query, n: U64, room: nat)
    requires Agrees(store, top) && !q.reverse && n <= top && q.hash == HashAt(store, n)
    ensures Answer(store, true, q, room).Panic? <==> TooFar(store, top, n, q.skip + 1, room)
    decreases room
  {
    if room > 0 {
      HashForwardStep(store, top, q, n, room);
      var k := q.skip + 1;
      if n + k <= top && k <= store.sliceLimit {
        HashForwardPanics(store, top, q.(hash := HashAt(store, n + k)), n + k, room - 1);
      }
    }
  }

  lemma {:induction false} HashForwardSame(store: Store, top: U64, q: Query, n: U64, room: nat)
    requires Agrees(store, top) && !q.reverse && n <= top && q.hash == HashAt(store, n)
    requires Answer(store, true, q, room).Sent?
    ensures SameHeaders(Answer(store, true, q, room).headers, Forward(store, top, n, q.skip + 1, room))
    decreases room
  {
    if room > 0 {
      HashForwardStep(store, top, q, n, room);
      var k := q.skip + 1;
      assert At(store, n).hash == Shown(true, q, At(store, n)).hash;
      if n + k <= top {
        var q' := q.(hash := HashAt(store, n + k));
        HashForwardSame(store, top, q', n + k, room - 1);
        SamePrepend(Shown(true, q, At(store, n)), At(store, n), Answer(store, true, q', room - 1).headers,
                    Forward(store, top, n + k, k, room - 1));
      } else {
        assert Forward(store, top, n + k, k, room - 1) == [];
      }
    }
  }

  lemma {:induction false} HashForward(store: Store, top: U64, q: Query, n: U64, room: nat)
    requires Agrees(store, top) && !q.reverse && n <= top && q.hash == HashAt(store, n)
    ensures var r := Answer(store, true, q, room);
            && (r.Panic? <==> TooFar(store, top, n, q.skip + 1, room))
            && (r.Sent? ==> SameHeaders(r.headers, Forward(store, top, n, q.skip + 1, room)))
  {
    HashForwardPanics(store, top, q, n, room);
    if Answer(store, true, q, room).Sent? {
      HashForwardSame(store, top, q, n, room);
    }
  }

  /** A hash-forward query from a header of the chain gets as many headers, unless it panics. */
  lemma {:induction false} HashForwardCount(store: Store, top: U64, q: Query, n: U64)
    requires Agrees(store, top) && !q.reverse && n <= top && q.hash == HashAt(store, n) && 0 < q.amount < TWO63
    ensures var r := Answer(store, true, q, Room(q)); r.Sent? ==> |r.headers| == Wanted(q, top - n)
  {
    RoomIsLimit(q);
    HashForward(store, top, q, n, Limit(q));
    ForwardCount(store, top, n, q.skip + 1, Limit(q));
  }

  /** A stored header that is not on the indexed chain is answered with alone: the header a stride further descends
      from another one.  Only a stride that is too far panics. */
  lemma {:induction false} ForkReply(store: Store, top: U64, q: Query, room: nat)
    requires Agrees(store, top) && !q.reverse && q.hash in store.byHash && room > 0
    requires q.hash != HashAt(store, store.byHash[q.hash].number)
    ensures var origin, k := store.byHash[q.hash], q.skip + 1;
            Answer(store, true, q, room) ==
              if origin.number + k <= top && k > store.sliceLimit then Panic else Sent([Shown(true, q, origin)])
  {
    var n, k := store.byHash[q.hash].number, q.skip + 1;
    if n + k <= top {
      assert OnChain(store, n + k);
      UpOnChain(store, top, n + k, k);
    }
  }

  /** Forward, hash mode finds the progression unless a stride is too far; number mode finds the same headers if and
      only if the reply is full before the number wraps around. */
  lemma {:induction false} ForwardModesAgree(store: Store, top: U64, q: Query, n: U64)
    requires Agrees(store, top) && !q.reverse && n <= top && q.hash == HashAt(store, n) && q.number == n
    ensures var hs := Forward(store, top, n, q.skip + 1, Room(q));
            var byHash := Answer(store, true, q, Room(q));
            && (byHash.Panic? <==> TooFar(store, top, n, q.skip + 1, Room(q)))
            && (byHash.Sent? ==> SameHeaders(byHash.headers, hs))
            && (Answer(store, false, q, Room(q)) == Sent(hs) <==> InTime(n, |hs|, q.skip + 1, Room(q)))
  {
    HashForward(store, top, q, n, Room(q));
    NumberForward(store, top, q, Room(q));
  }

  lemma {:induction false} WalkBackOnChain(store: Store, top: U64, n: U64, steps: nat)
    requires Agrees(store, top) && n <= top && steps < TWO64
    ensures WalkBack(store, HashAt(store, n), n, steps) ==
              if steps <= n then Arrived(HashAt(store, n - steps))
              else if steps == n + 1 then Arrived(HashAt(store, 0))
              else Crash
    decreases steps
  {
    assert OnChain(store, n) && OnChain(store, 0);
    if steps > 0 {
      if n > 0 {
        assert OnChain(store, n - 1);
        WalkBackOnChain(store, top, n - 1, steps - 1);
      } else if steps > 1 {
        assert SubU64(0, 1) != 0;
        assert WalkBack(store, HashAt(store, 0), SubU64(0, 1), steps - 1) == Crash;
      }
    }
  }

  lemma {:induction false} HashReverseStep(store: Store, top: U64, q: Query, n: U64, room: nat)
    requires Agrees(store, top) && q.reverse && q.skip < TWO63 - 1
    requires n <= top && q.hash == HashAt(store, n) && room > 0
    ensures var k := q.skip + 1;
            Answer(store, true, q, room) ==
              if k > n + 1 then Panic
              else Prepend([At(store, n)], Answer(store, true, q.(hash := HashAt(store, if k <= n then n - k else 0)), room - 1))
  {
    assert OnChain(store, n);
    WalkBackOnChain(store, top, n, q.skip + 1);
  }

  /** From the genesis header, hash-reverse without a skip fills the whole reply with copies of it. */
  lemma {:induction false} RepeatsGenesis(store: Store, top: U64, q: Query, room: nat)
    requires Agrees(store, top) && q.reverse && q.skip < TWO63 - 1
    requires q.hash == HashAt(store, 0)
    ensures Answer(store, true, q, room) ==
              if q.skip == 0 then Sent(seq(room, i => At(store, 0))) else if room > 0 then Panic else Sent([])
    decreases room
  {
    if room > 0 {
      HashReverseStep(store, top, q, 0, room);
      if q.skip == 0 {
        assert q.(hash := HashAt(store, 0)) == q;
        RepeatsGenesis(store, top, q, room - 1);
        assert [At(store, 0)] + seq(room - 1, i => At(store, 0)) == seq(room, i => At(store, 0));
      }
    }
  }

  /** Whether `room` strides fit above one below the bottom, stride by stride. */
  lemma {:induction false} DistanceFits(room: nat, k: nat, n: nat)
    requires room > 0 && k > 0
    ensures k <= n ==> (Distance(room, k) <= n + 1 <==> Distance(room - 1, k) <= n - k + 1)
    ensures k == n + 1 ==> (Distance(room, k) <= n + 1 <==> room == 1)
    ensures k > n + 1 ==> Distance(room, k) > n + 1
  {
    if room > 1 {
      assert Distance(room - 1, k) >= k;
    }
  }

  /** A stride to one below the bottom stays at the genesis header. */
  lemma {:induction false} LastStride(store: Store, top: U64, q: Query, n: U64, room: nat)
    requires Agrees(store, top) && q.reverse && q.skip < TWO63 - 1
    requires n <= top && q.hash == HashAt(store, n) && room > 0 && q.skip == n
    ensures Answer(store, true, q, room) == Sent([At(store, n)]) <==> room == 1
    ensures Answer(store, true, q, room).Panic? <==> q.skip > 0 && room > 1
  {
    HashReverseStep(store, top, q, n, room);
    var q' := q.(hash := HashAt(store, 0));
    RepeatsGenesis(store, top, q', room - 1);
    PrependSame(At(store, n), [], Answer(store, true, q', room - 1));
    assert [At(store, n)] + [] == [At(store, n)];
  }

  lemma {:induction false} HashReverseFits(store: Store, top: U64, q: Query, n: U64, room: nat)
    requires Agrees(store, top) && q.reverse && q.skip < TWO63 - 1
    requires n <= top && q.hash == HashAt(store, n)
    ensures Answer(store, true, q, room) == Sent(Backward(store, top, n, q.skip + 1, room))
            <==> Distance(room, q.skip + 1) <= n + 1
    decreases room
  {
    if room > 0 {
      var k := q.skip + 1;
      DistanceFits(room, k, n);
      if k <= n {
        var q' := q.(hash := HashAt(store, n - k));
        HashReverseStep(store, top, q, n, room);
        HashReverseFits(store, top, q', n - k, room - 1);
        PrependSame(At(store, n), Backward(store, top, n - k, k, room - 1), Answer(store, true, q', room - 1));
      } else if k == n + 1 {
        LastStride(store, top, q, n, room);
        assert [At(store, n)] + [] == [At(store, n)];
      } else {
        HashReverseStep(store, top, q, n, room);
      }
    }
  }

  lemma {:induction false} HashReversePanics(store: Store, top: U64, q: Query, n: U64, room: nat)
    requires Agrees(store, top) && q.reverse && q.skip < TWO63 - 1
    requires n <= top && q.hash == HashAt(store, n)
    ensures Answer(store, true, q, room).Panic? <==> q.skip > 0 && Distance(room, q.skip + 1) > n + 1
    decreases room
  {
    if room > 0 {
      var k := q.skip + 1;
      DistanceFits(room, k, n);
      if k <= n {
        HashReverseStep(store, top, q, n, room);
        HashReversePanics(store, top, q.(hash := HashAt(store, n - k)), n - k, room - 1);
      } else if k == n + 1 {
        LastStride(store, top, q, n, room);
      } else {
        HashReverseStep(store, top, q, n, room);
      }
    }
  }

  /** Backward, hash mode crashes exactly when it strides over the genesis header, and gives the same
      headers as number mode exactly when its last stride ends at most one below the genesis header.
      The loop takes that last stride even when the reply is already full. */
  lemma {:induction false} HashReverse(store: Store, top: U64, q: Query, n: U64, room: nat)
    requires Agrees(store, top) && q.reverse && q.skip < TWO63 - 1
    requires n <= top && q.hash == HashAt(store, n)
    ensures var r, k := Answer(store, true, q, room), q.skip + 1;
            && (r == Sent(Backward(store, top, n, k, room)) <==> room * k <= n + 1)
            && (r.Panic? <==> k > 1 && room * k > n + 1)
  {
    HashReverseFits(store, top, q, n, room);
    HashReversePanics(store, top, q, n, room);
    DistanceIsProduct(room, q.skip + 1);
  }

  /** A query that goes nowhere is answered with copies of its origin. */
  lemma {:induction false} Repeats(store: Store, hashMode: bool, q: Query, origin: Header, room: nat)
    requires store.Valid() && q.reverse && Origin(store, hashMode, q) == Some(origin)
    requires Advance(store, hashMode, q, origin) == Continue(q)
    ensures Answer(store, hashMode, q, room) == Sent(seq(room, i => origin))
    decreases room
  {
    if room > 0 {
      Repeats(store, hashMode, q, origin, room - 1);
      assert [origin] + seq(room - 1, i => origin) == seq(room, i => origin);
    }
  }

  /** int(skip) + 1 is not positive from 2^63 - 1 on: hash mode then repeats its origin. */
  lemma {:induction false} HashReverseRepeats(store: Store, top: U64, q: Query, n: U64, room: nat)
    requires Agrees(store, top) && q.reverse && q.skip >= TWO63 - 1 && n <= top && q.hash == HashAt(store, n)
    ensures Answer(store, true, q, room) == Sent(seq(room, i => At(store, n)))
  {
    assert OnChain(store, n);
    Repeats(store, true, q, At(store, n), room);
  }

  /** skip + 1 is 0 for the largest skip: number mode then repeats its origin. */
  lemma {:induction false} NumberReverseRepeats(store: Store, top: U64, q: Query, room: nat)
    requires Agrees(store, top) && q.reverse && q.skip == TWO64 - 1 && q.number <= top
    ensures Answer(store, false, q, room) == Sent(seq(room, i => At(store, q.number)))
  {
    assert OnChain(store, q.number);
    Repeats(store, false, q, At(store, q.number), room);
  }

  lemma {:induction false} BackwardMoves(store: Store, top: U64, n: nat, k: nat, room: nat)
    requires Agrees(store, top) && n <= top && k > 0
    ensures Backward(store, top, n, k, room) == seq(room, i => At(store, n)) <==> room <= 1
  {
    var hs, copies := Backward(store, top, n, k, room), seq(room, i => At(store, n));
    if room > 1 && |hs| == room {
      BackwardEntry(store, top, n, k, room, 1);
      assert OnChain(store, n) && OnChain(store, n - k);
      assert hs[1] != copies[1];
    } else if room == 1 {
      assert hs == [At(store, n)] && copies == [At(store, n)];
    }
  }

  /** When the two backward modes agree: as long as the walk stays above the genesis header, for a skip that hash
      mode takes as negative if there is room for one header at most, and for the largest skip always. */
  ghost predicate ReverseMatches(skip: U64, n: U64, room: nat) {
    if skip < TWO63 - 1 then room * (skip + 1) <= n + 1 else skip == TWO64 - 1 || room <= 1
  }

  lemma {:induction false} ReverseModesAgree(store: Store, top: U64, q: Query, n: U64, room: nat)
    requires Agrees(store, top) && q.reverse
    requires n <= top && q.hash == HashAt(store, n) && q.number == n
    ensures Answer(store, true, q, room) == Answer(store, false, q, room)
            <==> ReverseMatches(q.skip, n, room)
  {
    if q.skip < TWO63 - 1 {
      HashReverse(store, top, q, n, room);
      NumberReverse(store, top, q, room);
    } else {
      HashReverseRepeats(store, top, q, n, room);
      if q.skip == TWO64 - 1 {
        NumberReverseRepeats(store, top, q, room);
      } else {
        NumberReverse(store, top, q, room);
        BackwardMoves(store, top, n, q.skip + 1, room);
      }
    }
  }
}
