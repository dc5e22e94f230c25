/** What a node believes about its peers: the head of each peer per asset, and the median of the stable indexes
    that its peers report. */
module PeerHeads {
  import opened Uint64
  import opened Wrappers

  type AssetId = nat
  type Hash = nat

  datatype PeerMsg = PeerMsg(head: Hash, number: U64, stable: U64)

  /** A head announcement; the stable index may be missing. */
  datatype Announce = Announce(asset: AssetId, hash: Hash, number: U64, stable: Option<U64>)

  ghost function Updated(msgs: map<AssetId, PeerMsg>, a: Announce): map<AssetId, PeerMsg> {
    if a.asset !in msgs then
      msgs[a.asset := PeerMsg(a.hash, a.number, if a.stable.Some? then a.stable.value else 0)]
    else if a.number > msgs[a.asset].number then
      msgs[a.asset := PeerMsg(a.hash, a.number, if a.stable.Some? then a.stable.value else msgs[a.asset].stable)]
    else msgs
  }

  ghost function After(calls: seq<Announce>): map<AssetId, PeerMsg> {
    if calls == [] then map[] else Updated(After(calls[..|calls| - 1]), calls[|calls| - 1])
  }

  /** Call k is the first of those for its asset that attain the largest number. */
  ghost predicate FirstMaximum(calls: seq<Announce>, k: nat) {
    && k < |calls|
    && (forall i :: 0 <= i < k && calls[i].asset == calls[k].asset ==> calls[i].number < calls[k].number)
    && (forall i :: k < i < |calls| && calls[i].asset == calls[k].asset ==> calls[i].number <= calls[k].number)
  }

  /** After any sequence of announcements, a peer's head for an asset is that of the first announcement with the
      largest number; without announcements for the asset there is none. */
  lemma {:induction false} HeadIsFirstMaximum(calls: seq<Announce>, asset: AssetId) returns (k: nat)
    ensures asset in After(calls) <==> exists i :: 0 <= i < |calls| && calls[i].asset == asset
    ensures asset in After(calls) ==>
              && FirstMaximum(calls, k) && calls[k].asset == asset
              && After(calls)[asset].head == calls[k].hash && After(calls)[asset].number == calls[k].number
              && (calls[k].stable.Some? ==> After(calls)[asset].stable == calls[k].stable.value)
    decreases |calls|
  {
    k := 0;
    if calls != [] {
      var n := |calls| - 1;
      var before := calls[..n];
      k := HeadIsFirstMaximum(before, asset);
      var last := calls[n];
      if last.asset == asset && (asset !in After(before) || last.number > After(before)[asset].number) {
        assert asset !in After(before) ==> forall i :: 0 <= i < n ==> before[i].asset != asset;
        assert forall i :: 0 <= i < n ==> calls[i] == before[i];
        k := n;
      } else if asset in After(before) {
        assert forall i :: 0 <= i < n ==> calls[i] == before[i];
        assert before[k].asset == asset;
      }
    }
  }

  /** Call i announces a larger number than every call for its asset before it. */
  ghost predicate Record(calls: seq<Announce>, i: nat) {
    && i < |calls|
    && forall j :: 0 <= j < i && calls[j].asset == calls[i].asset ==> calls[j].number < calls[i].number
  }

  /** Call i is a record for the asset that carries a stable index. */
  ghost predicate Reports(calls: seq<Announce>, asset: AssetId, i: nat) {
    Record(calls, i) && calls[i].asset == asset && calls[i].stable.Some?
  }

  lemma {:induction false} RecordBefore(calls: seq<Announce>, n: nat, asset: AssetId, i: nat)
    requires i < n <= |calls|
    ensures Reports(calls[..n], asset, i) <==> Reports(calls, asset, i)
  {
  }

  /** The stable index kept for an asset is that of the last record that carries one, and 0 if none does. */
  lemma {:induction false} StableIsLastReported(calls: seq<Announce>, asset: AssetId) returns (k: nat)
    requires asset in After(calls)
    ensures if Reports(calls, asset, k) then
              && After(calls)[asset].stable == calls[k].stable.value
              && forall i :: k < i < |calls| ==> !Reports(calls, asset, i)
            else After(calls)[asset].stable == 0 && forall i :: 0 <= i < |calls| ==> !Reports(calls, asset, i)
    decreases |calls|
  {
    var n := |calls| - 1;
    var before := calls[..n];
    var top := HeadIsFirstMaximum(before, asset);
    forall i | 0 <= i < n ensures Reports(before, asset, i) <==> Reports(calls, asset, i) {
      RecordBefore(calls, n, asset, i);
    }
    if asset in After(before) {
      assert Record(calls, n) && calls[n].asset == asset ==> calls[top].number < calls[n].number;
      k := StableIsLastReported(before, asset);
      if Reports(calls, asset, n) {
        k := n;
      } else if !Reports(before, asset, k) {
        k := n;
      }
    } else {
      k := n;
    }
  }

  class Peer {
    var peermsg: map<AssetId, PeerMsg>

    constructor ()
      ensures peermsg == After([])
    {
      peermsg := map[];
    }

    method SetHead(a: Announce)
      modifies this
      ensures peermsg == Updated(old(peermsg), a)
      ensures forall x :: x != a.asset ==> (x in peermsg <==> x in old(peermsg))
      ensures forall x :: x != a.asset && x in peermsg ==> peermsg[x] == old(peermsg)[x]
      ensures a.asset in old(peermsg) && a.number <= old(peermsg)[a.asset].number ==> peermsg == old(peermsg)
      ensures a.asset in old(peermsg) && a.number > old(peermsg)[a.asset].number && a.stable.None? ==>
                peermsg[a.asset].stable == old(peermsg)[a.asset].stable
    {
      var ok := a.asset in peermsg;
      var msg := if ok then peermsg[a.asset] else PeerMsg(0, 0, 0);
      var tempStable := 0;
      if ok && a.stable.None? {
        tempStable := msg.stable;
      }
      if (ok && a.number > msg.number) || !ok {
        msg := PeerMsg(a.hash, a.number, if a.stable.Some? then a.stable.value else tempStable);
      }
      peermsg := peermsg[a.asset := msg];
    }
  }
}

module StableMedian {
  import opened Distinctness
  import opened Uint64
  import opened Wrappers
  import opened Sorting
  import opened PeerHeads

  ghost function CountIn(s: seq<U64>, lo: nat, hi: nat): nat {
    if s == [] then 0 else (if lo <= s[0] <= hi then 1 else 0) + CountIn(s[1..], lo, hi)
  }

  lemma {:induction false} CountSplit(s: seq<U64>, i: nat, lo: nat, hi: nat)
    requires i <= |s|
    ensures CountIn(s, lo, hi) == CountIn(s[..i], lo, hi) + CountIn(s[i..], lo, hi)
    decreases i
  {
    if i > 0 {
      CountSplit(s[1..], i - 1, lo, hi);
      assert s[..i][1..] == s[1..][..i - 1] && s[1..][i - 1..] == s[i..];
    }
  }

  lemma {:induction false} CountAtMost(s: seq<U64>, lo: nat, hi: nat)
    ensures CountIn(s, lo, hi) <= |s|
    ensures (forall i :: 0 <= i < |s| ==> s[i] < lo || s[i] > hi) ==> CountIn(s, lo, hi) == 0
    decreases |s|
  {
    if s != [] {
      CountAtMost(s[1..], lo, hi);
    }
  }

  lemma {:induction false} CountRemove(s: seq<U64>, i: nat, lo: nat, hi: nat)
    requires i < |s|
    ensures CountIn(s, lo, hi) == (if lo <= s[i] <= hi then 1 else 0) + CountIn(s[..i] + s[i + 1..], lo, hi)
  {
    var rest := s[..i] + s[i + 1..];
    CountSplit(s, i, lo, hi);
    CountSplit(rest, i, lo, hi);
    assert rest[..i] == s[..i] && rest[i..] == s[i + 1..] && s[i..][1..] == s[i + 1..];
  }

  lemma {:induction false} CountPermuted(s: seq<U64>, t: seq<U64>, lo: nat, hi: nat)
    requires multiset(s) == multiset(t)
    ensures CountIn(s, lo, hi) == CountIn(t, lo, hi)
    decreases |s|
  {
    if s == [] {
      assert |multiset(s)| == |multiset(t)|;
    } else {
      assert s[0] in multiset(t);
      var j: nat :| j < |t| && t[j] == s[0];
      CountRemove(t, j, lo, hi);
      RemoveOne(t, j);
      RemoveFirst(s);
      CountPermuted(s[1..], t[..j] + t[j + 1..], lo, hi);
    }
  }

  function Identity(x: U64): int { x }

  function Median(sorted: seq<U64>): U64 {
    var n := |sorted|;
    if n == 0 then 0
    else if n % 2 == 0 then AddU64(sorted[n / 2 - 1], sorted[n / 2]) / 2
    else sorted[n / 2]
  }

  /** With more than half of the values in [lo, hi], so is every value in the middle of the sorted list. */
  lemma {:induction false} MiddleInRange(sorted: seq<U64>, i: nat, lo: nat, hi: nat)
    requires SortedBy(sorted, Identity) && 2 * CountIn(sorted, lo, hi) > |sorted|
    requires i < |sorted| && (|sorted| - 1) / 2 <= i <= |sorted| / 2
    ensures lo <= sorted[i] <= hi
  {
    if sorted[i] < lo {
      CountSplit(sorted, i + 1, lo, hi);
      forall k | 0 <= k <= i ensures sorted[k] < lo {
        assert k < i ==> Identity(sorted[k]) <= Identity(sorted[i]);
      }
      CountAtMost(sorted[..i + 1], lo, hi);
      CountAtMost(sorted[i + 1..], lo, hi);
    } else if sorted[i] > hi {
      CountSplit(sorted, i, lo, hi);
      forall k | i <= k < |sorted| ensures sorted[k] > hi {
        assert i < k ==> Identity(sorted[i]) <= Identity(sorted[k]);
      }
      CountAtMost(sorted[..i], lo, hi);
      CountAtMost(sorted[i..], lo, hi);
    }
  }

  /** Median robustness: a strict majority in [lo, hi] keeps the median in [lo, hi], provided that for an even
      number of values the middle pair does not overflow. */
  lemma {:induction false} MedianRobust(sorted: seq<U64>, lo: nat, hi: nat)
    requires SortedBy(sorted, Identity) && 2 * CountIn(sorted, lo, hi) > |sorted|
    requires |sorted| % 2 == 1 || sorted[|sorted| / 2 - 1] + sorted[|sorted| / 2] < TWO64
    ensures lo <= Median(sorted) <= hi
  {
    MiddleInRange(sorted, |sorted| / 2, lo, hi);
    if |sorted| % 2 == 0 {
      MiddleInRange(sorted, |sorted| / 2 - 1, lo, hi);
    }
  }

  /** When the pair overflows, the median is 2^63 below the average of the pair: below either of them. */
  lemma {:induction false} MedianOverflow(sorted: seq<U64>)
    requires SortedBy(sorted, Identity) && |sorted| > 0 && |sorted| % 2 == 0
    requires sorted[|sorted| / 2 - 1] + sorted[|sorted| / 2] >= TWO64
    ensures Median(sorted) < sorted[|sorted| / 2 - 1]
    ensures Median(sorted) + TWO63 == (sorted[|sorted| / 2 - 1] as int + sorted[|sorted| / 2]) / 2
  {
    assert Identity(sorted[|sorted| / 2 - 1]) <= Identity(sorted[|sorted| / 2]);
  }

  lemma {:induction false} CountAll(s: seq<U64>, lo: nat, hi: nat)
    requires forall i :: 0 <= i < |s| ==> lo <= s[i] <= hi
    ensures CountIn(s, lo, hi) == |s|
    decreases |s|
  {
    if s != [] {
      CountAll(s[1..], lo, hi);
    }
  }

  lemma {:induction false} UpperHalf(sorted: seq<U64>, i: nat, hi: nat)
    requires SortedBy(sorted, Identity) && i < |sorted| && hi >= TWO64
    ensures CountIn(sorted, sorted[i], hi) >= |sorted| - i
  {
    var lo := sorted[i];
    forall k | i <= k < |sorted| ensures lo <= sorted[k] {
      assert Identity(sorted[i]) <= Identity(sorted[k]);
    }
    CountSplit(sorted, i, lo, hi);
    CountAll(sorted[i..], lo, hi);
  }

  ghost predicate Overflows(sorted: seq<U64>) {
    |sorted| > 0 && |sorted| % 2 == 0 && sorted[|sorted| / 2 - 1] + sorted[|sorted| / 2] >= TWO64
  }

  /** The median respects every range that holds a strict majority if and only if its middle pair does not overflow. */
  lemma {:induction false} MedianRobustIff(sorted: seq<U64>)
    requires SortedBy(sorted, Identity)
    ensures (forall lo: nat, hi: nat :: 2 * CountIn(sorted, lo, hi) > |sorted| ==> lo <= Median(sorted) <= hi)
            <==> !Overflows(sorted)
  {
    if Overflows(sorted) {
      MedianOverflow(sorted);
      UpperHalf(sorted, |sorted| / 2 - 1, TWO64);
      assert 2 * CountIn(sorted, sorted[|sorted| / 2 - 1], TWO64) > |sorted|;
    } else {
      forall lo: nat, hi: nat | 2 * CountIn(sorted, lo, hi) > |sorted| ensures lo <= Median(sorted) <= hi {
        CountAtMost(sorted, lo, hi);
        MedianRobust(sorted, lo, hi);
      }
    }
  }

  // ----- Over the peers -----

  type Reports = map<string, map<AssetId, PeerMsg>>

  ghost function Reporting(peers: Reports, asset: AssetId): set<string> {
    set id | id in peers && asset in peers[id]
  }

  ghost function Within(peers: Reports, asset: AssetId, lo: nat, hi: nat): set<string> {
    set id | id in peers && asset in peers[id] && lo <= peers[id][asset].stable <= hi
  }

  /** `values` are the stable indexes of the peers `names`, each peer once. */
  ghost predicate Collected(peers: Reports, asset: AssetId, names: seq<string>, values: seq<U64>) {
    && |names| == |values|
    && Distinct(names)
    && (forall i :: 0 <= i < |names| ==> names[i] in Reporting(peers, asset) && values[i] == peers[names[i]][asset].stable)
  }

  ghost function Named(names: seq<string>, ids: set<string>): set<string> {
    set id | id in ids && id in names
  }

  lemma {:induction false} NamedStep(names: seq<string>, ids: set<string>)
    requires names != [] && names[0] !in names[1..]
    ensures |Named(names, ids)| == |Named(names[1..], ids)| + if names[0] in ids then 1 else 0
  {
    var rest := Named(names[1..], ids);
    if names[0] in ids {
      assert Named(names, ids) == rest + {names[0]};
    } else {
      assert Named(names, ids) == rest;
    }
  }

  lemma {:induction false} CollectedCount(peers: Reports, asset: AssetId, names: seq<string>, values: seq<U64>, lo: nat, hi: nat)
    requires Collected(peers, asset, names, values)
    ensures CountIn(values, lo, hi) == |Named(names, Within(peers, asset, lo, hi))|
    decreases |names|
  {
    var ids := Within(peers, asset, lo, hi);
    if names == [] {
      assert Named(names, ids) == {};
    } else {
      CollectedCount(peers, asset, names[1..], values[1..], lo, hi);
      NamedStep(names, ids);
      assert names[0] in Reporting(peers, asset);
    }
  }

  method Collect(peers: Reports, asset: AssetId) returns (values: seq<U64>, ghost names: seq<string>)
    ensures Collected(peers, asset, names, values)
    ensures forall id :: id in Reporting(peers, asset) ==> id in names
  {
    values, names := [], [];
    var rest := peers.Keys;
    while rest != {}
      invariant rest <= peers.Keys
      invariant Collected(peers, asset, names, values)
      invariant forall i :: 0 <= i < |names| ==> names[i] !in rest
      invariant forall id :: id in Reporting(peers, asset) ==> id in rest || id in names
      decreases rest
    {
      var id :| id in rest;
      rest := rest - {id};
      if asset in peers[id] {
        values := values + [peers[id][asset].stable];
        names := names + [id];
      }
    }
  }

  ghost predicate Majority(peers: Reports, asset: AssetId, lo: nat, hi: nat) {
    2 * |Within(peers, asset, lo, hi)| > |Reporting(peers, asset)|
  }

  /** Median robustness over the peers. */
  lemma {:induction false} MajorityHolds(peers: Reports, asset: AssetId, names: seq<string>, values: seq<U64>,
                                         sorted: seq<U64>, lo: nat, hi: nat)
    requires Collected(peers, asset, names, values) && (forall id :: id in Reporting(peers, asset) ==> id in names)
    requires SortedBy(sorted, Identity) && multiset(sorted) == multiset(values)
    requires 2 * |Within(peers, asset, lo, hi)| > |values|
    ensures hi < TWO63 ==> !Overflows(sorted)
    ensures !Overflows(sorted) ==> lo <= Median(sorted) <= hi
  {
    CollectedCount(peers, asset, names, values, lo, hi);
    assert Named(names, Within(peers, asset, lo, hi)) == Within(peers, asset, lo, hi);
    CountPermuted(values, sorted, lo, hi);
    assert |multiset(sorted)| == |multiset(values)|;
    CountAtMost(sorted, lo, hi);
    MiddleInRange(sorted, |sorted| / 2, lo, hi);
    if |sorted| % 2 == 0 {
      MiddleInRange(sorted, |sorted| / 2 - 1, lo, hi);
    }
    if !Overflows(sorted) {
      MedianRobust(sorted, lo, hi);
    }
  }

  lemma {:induction false} MajorityRespected(peers: Reports, asset: AssetId, names: seq<string>, values: seq<U64>,
                                             sorted: seq<U64>)
    requires Collected(peers, asset, names, values) && (forall id :: id in Reporting(peers, asset) ==> id in names)
    requires SortedBy(sorted, Identity) && multiset(sorted) == multiset(values)
    ensures !Overflows(sorted) ==>
              forall lo: nat, hi: nat :: Majority(peers, asset, lo, hi) ==> lo <= Median(sorted) <= hi
    ensures forall lo: nat, hi: nat :: hi < TWO63 && Majority(peers, asset, lo, hi) ==> !Overflows(sorted)
  {
    DistinctSize(names, Reporting(peers, asset));
    forall lo: nat, hi: nat | Majority(peers, asset, lo, hi)
      ensures (hi < TWO63 ==> !Overflows(sorted)) && (!Overflows(sorted) ==> lo <= Median(sorted) <= hi)
    {
      MajorityHolds(peers, asset, names, values, sorted, lo, hi);
    }
  }

  /** Sort the reports and take the middle. */
  method MedianOf(indexs: seq<U64>) returns (r: U64, ghost sorted: seq<U64>)
    ensures SortedBy(sorted, Identity) && multiset(sorted) == multiset(indexs) && r == Median(sorted)
  {
    if |indexs| == 0 {
      return 0, [];
    }
    var a := new U64[|indexs|](i requires 0 <= i < |indexs| => indexs[i]);
    assert a[..] == indexs;
    Sort(a, Identity);
    sorted := a[..];
    var length := a.Length;
    if length % 2 == 0 {
      r := AddU64(a[length / 2 - 1], a[length / 2]) / 2;
    } else {
      r := a[length / 2];
    }
  }

  /** The value handed to fast sync is the median of all reports.  Unless the middle pair overflows - which it does not
      if more than half of the reporting peers report less than 2^63 - it lies in every range that holds the reports of
      more than half of them. */
  method StableIndex(peers: Reports, asset: AssetId)
    returns (r: U64, ghost names: seq<string>, ghost values: seq<U64>, ghost sorted: seq<U64>)
    ensures Reporting(peers, asset) == {} ==> r == 0
    ensures forall lo: nat, hi: nat :: hi < TWO63 && Majority(peers, asset, lo, hi) ==> lo <= r <= hi
    ensures Collected(peers, asset, names, values) && |names| == |Reporting(peers, asset)|
    ensures SortedBy(sorted, Identity) && multiset(sorted) == multiset(values) && r == Median(sorted)
    ensures |sorted| % 2 == 1 ==> r == sorted[|sorted| / 2]
    ensures sorted != [] && |sorted| % 2 == 0 && !Overflows(sorted) ==>
              r == (sorted[|sorted| / 2 - 1] + sorted[|sorted| / 2]) / 2
    ensures !Overflows(sorted) ==> forall lo: nat, hi: nat :: Majority(peers, asset, lo, hi) ==> lo <= r <= hi
    ensures forall lo: nat, hi: nat :: hi < TWO63 && Majority(peers, asset, lo, hi) ==> !Overflows(sorted)
  {
    var indexs;
    indexs, names := Collect(peers, asset);
    values := indexs;
    r, sorted := MedianOf(indexs);
    DistinctSize(names, Reporting(peers, asset));
    assert |multiset(sorted)| == |multiset(values)|;
    MajorityRespected(peers, asset, names, values, sorted);
  }

  /** A peer without a head for the asset comes up after one that has a head. */
  ghost predicate LateSilence(peers: Reports, asset: AssetId, order: seq<string>) {
    exists i, j :: 0 <= i < j < |order| && order[i] in Reporting(peers, asset) && order[j] !in Reporting(peers, asset)
  }

  /** The first peer with the highest head, in the order in which the map is iterated.  A peer without a head for the
      asset makes the comparison read through a nil pointer, unless it comes up before every peer that has one. */
  method BestPeer(peers: Reports, asset: AssetId, order: seq<string>) returns (crashed: bool, best: Option<string>)
    requires forall id :: id in order <==> id in peers
    ensures crashed <==> LateSilence(peers, asset, order)
    ensures best.None? <==> Reporting(peers, asset) == {}
    ensures !crashed && best.Some? ==>
              exists k :: 0 <= k < |order| && best.value == order[k] && FirstHighest(peers, asset, order, k, |order|)
  {
    crashed, best := false, None;
    var bestTd := 0;
    ghost var at := 0;
    for k := 0 to |order|
      invariant !crashed
      invariant best.None? ==> forall i :: 0 <= i < k ==> order[i] !in Reporting(peers, asset)
      invariant best.Some? ==>
                  && 0 <= at < k && best.value == order[at] && FirstHighest(peers, asset, order, at, k)
                  && bestTd == peers[best.value][asset].number
      invariant forall i, j :: 0 <= i < j < k && order[i] in Reporting(peers, asset) ==> order[j] in Reporting(peers, asset)
    {
      var id := order[k];
      if best.Some? && asset !in peers[id] {
        assert order[at] in Reporting(peers, asset) && order[k] !in Reporting(peers, asset);
        crashed := true;
        return;
      }
      if asset in peers[id] && (best.None? || peers[id][asset].number > bestTd) {
        best, bestTd, at := Some(id), peers[id][asset].number, k;
      }
    }
  }

  /** Peer k reports more than every reporting peer before it, and no less than any up to `n`. */
  ghost predicate FirstHighest(peers: Reports, asset: AssetId, order: seq<string>, k: nat, n: nat)
    requires k < |order| && n <= |order| && forall id :: id in order <==> id in peers
  {
    && order[k] in Reporting(peers, asset)
    && (forall i :: 0 <= i < k && order[i] in Reporting(peers, asset) ==>
          peers[order[i]][asset].number < peers[order[k]][asset].number)
    && (forall i :: k < i < n && order[i] in Reporting(peers, asset) ==>
          peers[order[i]][asset].number <= peers[order[k]][asset].number)
  }

  /** Two peers, one without a head for the asset: it depends on the order of iteration whether the search crashes. */
  lemma {:induction false} SilentPeerCrashes(asset: AssetId, msg: PeerMsg)
    ensures var peers: Reports := map["a" := map[asset := msg], "b" := map[]];
            LateSilence(peers, asset, ["a", "b"]) && !LateSilence(peers, asset, ["b", "a"])
  {
    var peers: Reports := map["a" := map[asset := msg], "b" := map[]];
    assert "a" != "b" by { assert "a"[0] != "b"[0]; }
    var order := ["a", "b"];
    assert order[0] in Reporting(peers, asset) && order[1] !in Reporting(peers, asset);
  }
}
