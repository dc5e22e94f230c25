/** The audit of the header chain: from a height down to the unit without parents. */
module ChainAudit {
  import opened Distinctness
  import opened Uint64
  import opened Wrappers

  type Hash = nat

  datatype Header = Header(number: U64, parents: seq<Hash>)

  /** The header table, the height index and the newest stable height. */
  datatype Store = Store(headers: map<Hash, Header>, index: map<U64, Hash>, newest: Option<U64>) {
    /** Heights are 64 bits wide, and no database holds 2^64 headers. */
    predicate Finite() { |headers| < TWO64 }

    function ByNumber(n: U64): Option<Header> {
      if n in index && index[n] in headers then Some(headers[index[n]]) else None
    }
  }

  // ----- What is audited: the parent chain -----

  ghost function Before(s: Store, first: Header, hs: seq<Hash>, i: nat): Header
    requires i == 0 || (i <= |hs| && hs[i - 1] in s.headers)
  {
    if i == 0 then first else s.headers[hs[i - 1]]
  }

  /** The i-th hash is the first parent of the header before it, is stored, and is one lower. */
  ghost predicate LinkAt(s: Store, first: Header, hs: seq<Hash>, i: nat) {
    i < |hs| ==>
      && (i == 0 || hs[i - 1] in s.headers) && hs[i] in s.headers
      && Before(s, first, hs, i).parents != [] && hs[i] == Before(s, first, hs, i).parents[0]
      && s.headers[hs[i]].number == SubU64(Before(s, first, hs, i).number, 1)
  }

  ghost predicate Path(s: Store, first: Header, hs: seq<Hash>) {
    forall i: nat :: LinkAt(s, first, hs, i)
  }

  /** The last header of a path. */
  ghost function End(s: Store, first: Header, hs: seq<Hash>): Header
    requires Path(s, first, hs)
  {
    if hs == [] then first else assert LinkAt(s, first, hs, |hs| - 1); s.headers[hs[|hs| - 1]]
  }

  /** A path all the way down to a header without parents. */
  ghost predicate Whole(s: Store, first: Header, hs: seq<Hash>) {
    hs != [] && Path(s, first, hs) && End(s, first, hs).parents == []
  }

  // ----- Heights along a path -----

  ghost function Down(n: U64, i: nat): U64 {
    if i == 0 then n else SubU64(Down(n, i - 1), 1)
  }

  lemma {:induction false} DownIs(n: U64, i: nat)
    requires i <= TWO64
    ensures Down(n, i) == if i <= n then n - i else n - i + TWO64
    decreases i
  {
    if i > 0 {
      DownIs(n, i - 1);
    }
  }

  lemma {:induction false} PathNumbers(s: Store, first: Header, hs: seq<Hash>, i: nat)
    requires Path(s, first, hs) && i < |hs|
    ensures hs[i] in s.headers && s.headers[hs[i]].number == Down(first.number, i + 1)
    decreases i
  {
    assert LinkAt(s, first, hs, i);
    if i > 0 {
      PathNumbers(s, first, hs, i - 1);
    } else {
      assert Down(first.number, 0) == first.number;
    }
  }

  lemma {:induction false} PrefixPath(s: Store, first: Header, hs: seq<Hash>, n: nat)
    requires Path(s, first, hs) && n <= |hs|
    ensures Path(s, first, hs[..n])
  {
    forall i: nat ensures LinkAt(s, first, hs[..n], i) {
      assert LinkAt(s, first, hs, i);
    }
  }

  /** A path of up to 2^64 hashes never meets one twice, for its heights differ. */
  lemma {:induction false} PathDistinct(s: Store, first: Header, hs: seq<Hash>, i: nat, j: nat)
    requires Path(s, first, hs) && i < j < |hs| && |hs| <= TWO64
    ensures hs[i] != hs[j]
  {
    PathNumbers(s, first, hs, i);
    PathNumbers(s, first, hs, j);
    DownIs(first.number, i + 1);
    DownIs(first.number, j + 1);
  }

  /** So no path is longer than the table: the audit always ends. */
  lemma {:induction false} PathBound(s: Store, first: Header, hs: seq<Hash>)
    requires Path(s, first, hs) && s.Finite()
    ensures |hs| <= |s.headers|
    decreases |hs|
  {
    if hs != [] {
      PrefixPath(s, first, hs, |hs| - 1);
      PathBound(s, first, hs[..|hs| - 1]);
      forall i, j | 0 <= i < j < |hs| ensures hs[i] != hs[j] {
        PathDistinct(s, first, hs, i, j);
      }
      forall i | 0 <= i < |hs| ensures hs[i] in s.headers.Keys {
        PathNumbers(s, first, hs, i);
      }
      DistinctBound(hs, s.headers.Keys);
    }
  }

  /** The parent chain is unique. */
  lemma {:induction false} PathsAgree(s: Store, first: Header, a: seq<Hash>, b: seq<Hash>, i: nat)
    requires Path(s, first, a) && Path(s, first, b) && i < |a| && i < |b|
    ensures a[i] == b[i]
    decreases i
  {
    assert LinkAt(s, first, a, i) && LinkAt(s, first, b, i);
    if i > 0 {
      PathsAgree(s, first, a, b, i - 1);
    }
  }

  /** A path that can be prolonged ends at a header whose parent is stored and one lower. */
  lemma {:induction false} EndNext(s: Store, first: Header, hs: seq<Hash>, longer: seq<Hash>)
    requires Path(s, first, hs) && Path(s, first, longer) && |hs| < |longer|
    ensures End(s, first, hs).parents != [] && End(s, first, hs).parents[0] in s.headers
    ensures s.headers[End(s, first, hs).parents[0]].number == SubU64(End(s, first, hs).number, 1)
  {
    assert LinkAt(s, first, longer, |hs|);
    if hs != [] {
      PathsAgree(s, first, hs, longer, |hs| - 1);
    }
  }

  // ----- The audit -----

  /** Complete or the first thing found wrong; Crash is the panic on a missing newest unit or a first header
      without parents. */
  datatype Outcome = Complete | NoUnit(number: U64) | NoParent(hash: Hash) | WrongNumber(found: U64, expected: U64) | Crash

  ghost predicate Explains(s: Store, first: Header, hs: seq<Hash>, r: Outcome) {
    && Path(s, first, hs)
    && match r {
         case Complete => Whole(s, first, hs)
         case NoParent(hash) => End(s, first, hs).parents != [] && hash == End(s, first, hs).parents[0] && hash !in s.headers
         case WrongNumber(found, expected) =>
           && End(s, first, hs).parents != [] && End(s, first, hs).parents[0] in s.headers
           && found == s.headers[End(s, first, hs).parents[0]].number
           && expected == SubU64(End(s, first, hs).number, 1) && found != expected
         case _ => false
       }
  }

  lemma {:induction false} PathExtends(s: Store, first: Header, hs: seq<Hash>, h: Hash)
    requires Path(s, first, hs) && h in s.headers
    requires End(s, first, hs).parents != [] && h == End(s, first, hs).parents[0]
    requires s.headers[h].number == SubU64(End(s, first, hs).number, 1)
    ensures Path(s, first, hs + [h]) && End(s, first, hs + [h]) == s.headers[h]
  {
    forall i: nat ensures LinkAt(s, first, hs + [h], i) {
      assert LinkAt(s, first, hs, i);
      if i == |hs| && i > 0 {
        assert LinkAt(s, first, hs, i - 1);
      }
    }
  }

  lemma {:induction false} NotWhole(s: Store, first: Header, hs: seq<Hash>, r: Outcome, whole: seq<Hash>)
    requires Explains(s, first, hs, r) && r != Complete
    ensures !Whole(s, first, whole)
  {
    if Path(s, first, whole) {
      if |whole| < |hs| {
        EndNext(s, first, whole, hs);
      } else if |hs| < |whole| {
        EndNext(s, first, hs, whole);
      } else if hs != [] {
        PathsAgree(s, first, hs, whole, |hs| - 1);
      }
    }
  }

  /** The loop, from a first header that has a parent. */
  method Walk(s: Store, first: Header) returns (r: Outcome, ghost hs: seq<Hash>)
    requires s.Finite() && first.parents != []
    ensures Explains(s, first, hs, r)
    ensures r == Complete <==> exists whole :: Whole(s, first, whole)
  {
    hs := [];
    var parentHash, parentNumber := first.parents[0], SubU64(first.number, 1);
    while true
      invariant Path(s, first, hs) && End(s, first, hs).parents != []
      invariant parentHash == End(s, first, hs).parents[0] && parentNumber == SubU64(End(s, first, hs).number, 1)
      invariant |hs| <= |s.headers|
      decreases |s.headers| - |hs|
    {
      if parentHash !in s.headers {
        r := NoParent(parentHash);
        break;
      }
      var header := s.headers[parentHash];
      if header.number != parentNumber {
        r := WrongNumber(header.number, parentNumber);
        break;
      }
      PathExtends(s, first, hs, parentHash);
      hs := hs + [parentHash];
      PathBound(s, first, hs);
      if |header.parents| > 0 {
        parentHash, parentNumber := header.parents[0], SubU64(header.number, 1);
      } else {
        assert Whole(s, first, hs);
        return Complete, hs;
      }
    }
    forall whole ensures !Whole(s, first, whole) {
      NotWhole(s, first, hs, r, whole);
    }
  }

  /** The height an audit starts from: 0 stands for the newest one; negative numbers are read as uint64. */
  function StartOf(s: Store, number: int): Option<U64>
    requires 0 <= number + TWO63 < TWO64
  {
    if number == 0 then s.newest else if number < 0 then Some(number + TWO64) else Some(number)
  }

  ghost predicate Sound(s: Store, start: U64) {
    s.ByNumber(start).Some? && exists hs :: Whole(s, s.ByNumber(start).value, hs)
  }

  /** The audit passes exactly when a complete parent chain with falling heights hangs below the start. */
  method CheckHeaderCorrect(s: Store, number: int) returns (r: Outcome, ghost hs: seq<Hash>)
    requires s.Finite() && 0 <= number + TWO63 < TWO64
    ensures var start := StartOf(s, number);
            && (start.None? ==> r == Crash)
            && (start.Some? && s.ByNumber(start.value).None? ==> r == NoUnit(start.value))
            && (start.Some? && s.ByNumber(start.value).Some? ==>
                  var first := s.ByNumber(start.value).value;
                  && (r == Crash <==> first.parents == [])
                  && (r != Crash ==> Explains(s, first, hs, r)))
    ensures r == Complete <==> StartOf(s, number).Some? && Sound(s, StartOf(s, number).value)
    ensures number == 0 && s.newest.None? ==> r == Crash
    ensures number == 0 && s.newest.Some? ==>
              && (r == Complete <==> Sound(s, s.newest.value))
              && (s.ByNumber(s.newest.value).None? ==> r == NoUnit(s.newest.value))
    ensures number > 0 ==> (r == Complete <==> Sound(s, number)) && (s.ByNumber(number).None? ==> r == NoUnit(number))
    ensures number < 0 ==>
              && (r == Complete <==> Sound(s, number + TWO64))
              && (s.ByNumber(number + TWO64).None? ==> r == NoUnit(number + TWO64))
  {
    hs := [];
    var start := number;
    if number == 0 {
      if s.newest.None? {
        return Crash, hs;
      }
      start := s.newest.value;
    } else if number < 0 {
      start := number + TWO64;
    }
    var header := s.ByNumber(start);
    if header.None? {
      return NoUnit(start), hs;
    }
    if header.value.parents == [] {
      forall whole ensures !Whole(s, header.value, whole) {
        if whole != [] && Path(s, header.value, whole) {
          EndNext(s, header.value, [], whole);
        }
      }
      return Crash, hs;
    }
    r, hs := Walk(s, header.value);
  }

  // ----- What a passed audit means -----

  lemma {:induction false} LastNumber(s: Store, first: Header, hs: seq<Hash>)
    requires s.Finite() && Whole(s, first, hs)
    ensures End(s, first, hs).number ==
              if |hs| <= first.number then first.number - |hs| else first.number - |hs| + TWO64
  {
    PathNumbers(s, first, hs, |hs| - 1);
    PathBound(s, first, hs);
    DownIs(first.number, |hs|);
  }

  /** An audit that ends at height 0 has seen a header at every height below its start, the first one parent by
      parent. */
  lemma {:induction false} AuditCoversHeights(s: Store, first: Header, hs: seq<Hash>, m: nat)
    requires s.Finite() && Whole(s, first, hs) && End(s, first, hs).number == 0 && m < first.number
    ensures |hs| == first.number && hs[first.number - 1 - m] in s.headers
    ensures s.headers[hs[first.number - 1 - m]].number == m
  {
    LastNumber(s, first, hs);
    PathBound(s, first, hs);
    var i := first.number - 1 - m;
    PathNumbers(s, first, hs, i);
    DownIs(first.number, i + 1);
  }

  /** The only stored header without parents. */
  ghost predicate OnlyRoot(s: Store, g: Hash) {
    && g in s.headers && s.headers[g].parents == []
    && forall h :: h in s.headers && s.headers[h].parents == [] ==> h == g
  }

  ghost predicate RootsAtZero(s: Store) {
    forall h :: h in s.headers && s.headers[h].parents == [] ==> s.headers[h].number == 0
  }

  lemma {:induction false} EndsAtRoot(s: Store, first: Header, hs: seq<Hash>)
    requires Whole(s, first, hs)
    ensures hs[|hs| - 1] in s.headers && End(s, first, hs) == s.headers[hs[|hs| - 1]]
  {
    assert LinkAt(s, first, hs, |hs| - 1);
  }

  /** A passed audit reached height 0 if and only if the one stored header without parents is at height 0: the code does
      not look at its height. */
  lemma {:induction false} ReachesZeroIff(s: Store, first: Header, hs: seq<Hash>, g: Hash)
    requires Whole(s, first, hs) && OnlyRoot(s, g)
    ensures End(s, first, hs).number == 0 <==> s.headers[g].number == 0
  {
    EndsAtRoot(s, first, hs);
  }

  /** With several of them, it is enough that all are at height 0: a passed audit then has seen every height below its
      start. */
  lemma {:induction false} RootsAtZeroCover(s: Store, first: Header, hs: seq<Hash>, m: nat)
    requires s.Finite() && Whole(s, first, hs) && RootsAtZero(s) && m < first.number
    ensures |hs| == first.number && hs[first.number - 1 - m] in s.headers
    ensures s.headers[hs[first.number - 1 - m]].number == m
  {
    EndsAtRoot(s, first, hs);
    AuditCoversHeights(s, first, hs, m);
  }

  /** And it is necessary: below a start one above it, a root at any other height passes the audit. */
  lemma {:induction false} OtherRootPasses(s: Store, g: Hash, first: Header)
    requires g in s.headers && s.headers[g].parents == [] && s.headers[g].number != 0
    requires first.parents != [] && first.parents[0] == g && SubU64(first.number, 1) == s.headers[g].number
    ensures Whole(s, first, [g]) && End(s, first, [g]).number != 0
  {
    forall i: nat ensures LinkAt(s, first, [g], i) {
    }
  }

  /** Two headers, the lower one without parents at height 7, pass the audit. */
  lemma {:induction false} AuditCanStopEarly()
    ensures var s := Store(map[1 := Header(8, [2]), 2 := Header(7, [])], map[8 := 1], Some(8));
            s.Finite() && Sound(s, 8) && Whole(s, Header(8, [2]), [2]) && End(s, Header(8, [2]), [2]).number != 0
  {
    var s := Store(map[1 := Header(8, [2]), 2 := Header(7, [])], map[8 := 1], Some(8));
    assert s.headers.Keys == {1, 2};
    var first, hs := Header(8, [2]), [2];
    forall i: nat ensures LinkAt(s, first, hs, i) {
    }
    assert Whole(s, first, hs);
  }
}
