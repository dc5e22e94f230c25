/** Balance statistics of a token: balances per address, the total supply and the richest addresses. */
module BalanceStats {
  import opened Distinctness
  import opened Uint64
  import opened Wrappers
  import opened Sorting
  import opened MapSum

  type Key = nat
  type Address = nat

  /** `owner` is missing when the lock script cannot be decoded. */
  datatype Utxo = Utxo(amount: U64, assetId: nat, owner: Option<Address>)

  type Utxos = map<Key, Utxo>

  datatype Filter = Filter(assetId: nat, blacklist: set<Address>) {
    predicate Counts(u: Utxo) { u.assetId == assetId && u.owner.Some? && u.owner.value !in blacklist }
  }

  ghost function Weights(f: Filter, utxos: Utxos): map<Key, nat> {
    map k | k in utxos && f.Counts(utxos[k]) :: utxos[k].amount
  }

  ghost function WeightsOf(f: Filter, utxos: Utxos, a: Address): map<Key, nat> {
    map k | k in utxos && f.Counts(utxos[k]) && utxos[k].owner.value == a :: utxos[k].amount
  }

  ghost function Owners(f: Filter, utxos: Utxos): set<Address> {
    set k | k in utxos && f.Counts(utxos[k]) :: utxos[k].owner.value
  }

  /** The sum of all counting outputs, and of those of one address. */
  ghost function Supply(f: Filter, utxos: Utxos): nat { Total(Weights(f, utxos)) }

  ghost function Balance(f: Filter, utxos: Utxos, a: Address): nat { Total(WeightsOf(f, utxos, a)) }

  ghost function Balances(f: Filter, utxos: Utxos): map<Address, nat> {
    map a | a in Owners(f, utxos) :: Balance(f, utxos, a)
  }

  // ----- One more output -----

  lemma {:induction false} SupplyAdd(f: Filter, utxos: Utxos, k: Key, u: Utxo)
    requires k !in utxos
    ensures Supply(f, utxos[k := u]) == Supply(f, utxos) + if f.Counts(u) then u.amount else 0
  {
    if f.Counts(u) {
      assert Weights(f, utxos[k := u]) == Weights(f, utxos)[k := u.amount];
      TotalUpdate(Weights(f, utxos), k, u.amount);
    } else {
      assert Weights(f, utxos[k := u]) == Weights(f, utxos);
    }
  }

  lemma {:induction false} BalanceAdd(f: Filter, utxos: Utxos, k: Key, u: Utxo, a: Address)
    requires k !in utxos
    ensures Balance(f, utxos[k := u], a) ==
              Balance(f, utxos, a) + if f.Counts(u) && u.owner.value == a then u.amount else 0
  {
    if f.Counts(u) && u.owner.value == a {
      assert WeightsOf(f, utxos[k := u], a) == WeightsOf(f, utxos, a)[k := u.amount];
      TotalUpdate(WeightsOf(f, utxos, a), k, u.amount);
    } else {
      assert WeightsOf(f, utxos[k := u], a) == WeightsOf(f, utxos, a);
    }
  }

  lemma {:induction false} OwnersAdd(f: Filter, utxos: Utxos, k: Key, u: Utxo)
    requires k !in utxos
    ensures Owners(f, utxos[k := u]) == Owners(f, utxos) + if f.Counts(u) then {u.owner.value} else {}
  {
    var after := utxos[k := u];
    forall a | a in Owners(f, utxos) ensures a in Owners(f, after) {
      var j :| j in utxos && f.Counts(utxos[j]) && utxos[j].owner.value == a;
      assert after[j] == utxos[j];
    }
    if f.Counts(u) {
      assert after[k] == u;
    }
  }

  lemma {:induction false} NoBalance(f: Filter, utxos: Utxos, a: Address)
    requires a !in Owners(f, utxos)
    ensures Balance(f, utxos, a) == 0
  {
    assert WeightsOf(f, utxos, a) == map[];
  }

  /** A table of exact balances with `x` more for one address. */
  ghost function Credit(exact: map<Address, nat>, a: Address, x: nat): map<Address, nat> {
    exact[a := x + if a in exact then exact[a] else 0]
  }

  ghost function Counted(f: Filter, exact: map<Address, nat>, u: Utxo): map<Address, nat> {
    if f.Counts(u) then Credit(exact, u.owner.value, u.amount) else exact
  }

  lemma {:induction false} BalancesAdd(f: Filter, utxos: Utxos, k: Key, u: Utxo)
    requires k !in utxos
    ensures Balances(f, utxos[k := u]) == Counted(f, Balances(f, utxos), u)
  {
    OwnersAdd(f, utxos, k, u);
    var after, expected := Balances(f, utxos[k := u]), Counted(f, Balances(f, utxos), u);
    forall a | a in after ensures a in expected && after[a] == expected[a] {
      BalanceAdd(f, utxos, k, u, a);
      if a !in Owners(f, utxos) {
        NoBalance(f, utxos, a);
      }
    }
  }

  /** Conservation: the balances of all addresses add up to the supply. */
  lemma {:induction false} BalancesSumToSupply(f: Filter, utxos: Utxos)
    ensures Total(Balances(f, utxos)) == Supply(f, utxos)
    decreases utxos.Keys
  {
    if utxos == map[] {
      assert Balances(f, utxos) == map[] && Weights(f, utxos) == map[];
    } else {
      var k :| k in utxos;
      var rest, u := utxos - {k}, utxos[k];
      assert utxos == rest[k := u];
      BalancesSumToSupply(f, rest);
      SupplyAdd(f, rest, k, u);
      BalancesAdd(f, rest, k, u);
      CreditTotal(f, Balances(f, rest), u);
    }
  }

  lemma {:induction false} CreditTotal(f: Filter, exact: map<Address, nat>, u: Utxo)
    ensures Total(Counted(f, exact, u)) == Total(exact) + if f.Counts(u) then u.amount else 0
  {
    if f.Counts(u) {
      var a := u.owner.value;
      TotalUpdate(exact, a, u.amount + if a in exact then exact[a] else 0);
    }
  }

  // ----- The blacklist -----

  /** The outputs of the token that blacklisted addresses own. */
  ghost function Barred(f: Filter, utxos: Utxos): map<Key, nat> {
    map k | k in utxos && utxos[k].assetId == f.assetId && utxos[k].owner.Some? && utxos[k].owner.value in f.blacklist
      :: utxos[k].amount
  }

  ghost function Open(f: Filter): Filter { f.(blacklist := {}) }

  /** A blacklisted address has no balance, and the others have what they would have without the blacklist. */
  lemma {:induction false} BlacklistBalance(f: Filter, utxos: Utxos, a: Address)
    ensures a in f.blacklist ==> a !in Owners(f, utxos) && Balance(f, utxos, a) == 0
    ensures a !in f.blacklist ==>
              && Balance(f, utxos, a) == Balance(Open(f), utxos, a)
              && (a in Owners(f, utxos) <==> a in Owners(Open(f), utxos))
  {
    if a in f.blacklist {
      NoBalance(f, utxos, a);
    } else {
      assert WeightsOf(f, utxos, a) == WeightsOf(Open(f), utxos, a);
      if a in Owners(Open(f), utxos) {
        var k :| k in utxos && Open(f).Counts(utxos[k]) && utxos[k].owner.value == a;
        assert f.Counts(utxos[k]);
      }
    }
  }

  lemma {:induction false} BarredAdd(f: Filter, utxos: Utxos, k: Key, u: Utxo)
    requires k !in utxos
    ensures Total(Barred(f, utxos[k := u])) ==
              Total(Barred(f, utxos))
              + if u.assetId == f.assetId && u.owner.Some? && u.owner.value in f.blacklist then u.amount else 0
  {
    if u.assetId == f.assetId && u.owner.Some? && u.owner.value in f.blacklist {
      assert Barred(f, utxos[k := u]) == Barred(f, utxos)[k := u.amount];
      TotalUpdate(Barred(f, utxos), k, u.amount);
    } else {
      assert Barred(f, utxos[k := u]) == Barred(f, utxos);
    }
  }

  /** The supply is that without a blacklist, less exactly what blacklisted addresses own. */
  lemma {:induction false} SupplyLessBarred(f: Filter, utxos: Utxos)
    ensures Supply(f, utxos) + Total(Barred(f, utxos)) == Supply(Open(f), utxos)
    decreases utxos.Keys
  {
    if utxos == map[] {
      assert Weights(f, utxos) == map[] && Weights(Open(f), utxos) == map[] && Barred(f, utxos) == map[];
    } else {
      var k :| k in utxos;
      var rest, u := utxos - {k}, utxos[k];
      assert utxos == rest[k := u];
      SupplyLessBarred(f, rest);
      SupplyAdd(f, rest, k, u);
      SupplyAdd(Open(f), rest, k, u);
      BarredAdd(f, rest, k, u);
    }
  }

  // ----- The loops -----

  /** The outputs of the wanted token. */
  method PickToken(f: Filter, utxos: Utxos) returns (picked: seq<Key>)
    ensures Distinct(picked)
    ensures forall k :: k in picked <==> k in utxos && utxos[k].assetId == f.assetId
  {
    picked := [];
    var rest := utxos.Keys;
    while rest != {}
      invariant rest <= utxos.Keys
      invariant Distinct(picked)
      invariant forall k :: k in picked <==> k in utxos && k !in rest && utxos[k].assetId == f.assetId
      decreases rest
    {
      var k :| k in rest;
      rest := rest - {k};
      if utxos[k].assetId == f.assetId {
        picked := picked + [k];
      }
    }
  }

  ghost function Part(utxos: Utxos, keys: seq<Key>): Utxos { map k | k in utxos && k in keys :: utxos[k] }

  /** Computed balances and total are the exact ones modulo 2^64. */
  ghost predicate Reports(exact: map<Address, nat>, supply: nat, balances: map<Address, U64>, total: U64) {
    && balances.Keys == exact.Keys
    && (forall a :: a in balances ==> balances[a] == Wrap(exact[a]))
    && total == Wrap(supply)
  }

  /** Add one output to the tally; undecodable and blacklisted ones are skipped. */
  method TallyOne(f: Filter, ghost exact: map<Address, nat>, ghost supply: nat, u: Utxo,
                  balances: map<Address, U64>, total: U64)
    returns (balances': map<Address, U64>, total': U64)
    requires Reports(exact, supply, balances, total) && u.assetId == f.assetId
    ensures Reports(Counted(f, exact, u), supply + if f.Counts(u) then u.amount else 0, balances', total')
  {
    balances', total' := balances, total;
    if u.owner.None? {
      return;
    }
    var addr := u.owner.value;
    if addr in f.blacklist {
      return;
    }
    if addr in balances {
      AddWrap(exact[addr], u.amount);
      balances' := balances[addr := AddU64(balances[addr], u.amount)];
    } else {
      balances' := balances[addr := u.amount];
    }
    AddWrap(supply, u.amount);
    total' := AddU64(total, u.amount);
  }

  lemma {:induction false} PartStep(utxos: Utxos, keys: seq<Key>, i: nat)
    requires i < |keys| && keys[i] in utxos && keys[i] !in keys[..i]
    ensures Part(utxos, keys[..i + 1]) == Part(utxos, keys[..i])[keys[i] := utxos[keys[i]]]
    ensures keys[i] !in Part(utxos, keys[..i])
  {
    assert keys[..i + 1] == keys[..i] + [keys[i]];
  }

  lemma {:induction false} OnlyTokenCounts(f: Filter, utxos: Utxos, keys: seq<Key>)
    requires forall k :: k in keys <==> k in utxos && utxos[k].assetId == f.assetId
    ensures Supply(f, Part(utxos, keys)) == Supply(f, utxos)
    ensures Balances(f, Part(utxos, keys)) == Balances(f, utxos)
  {
    var part := Part(utxos, keys);
    assert Weights(f, part) == Weights(f, utxos);
    forall a ensures Balance(f, part, a) == Balance(f, utxos, a) {
      assert WeightsOf(f, part, a) == WeightsOf(f, utxos, a);
    }
    forall a | a in Owners(f, utxos) ensures a in Owners(f, part) {
      var k :| k in utxos && f.Counts(utxos[k]) && utxos[k].owner.value == a;
      assert part[k] == utxos[k];
    }
  }

  ghost predicate Tallied(f: Filter, utxos: Utxos, balances: map<Address, U64>, total: U64) {
    Reports(Balances(f, utxos), Supply(f, utxos), balances, total)
  }

  /** The tally of a list of outputs, one after the other. */
  ghost function CountedAll(f: Filter, utxos: Utxos, keys: seq<Key>): map<Address, nat>
    requires forall i :: 0 <= i < |keys| ==> keys[i] in utxos
  {
    if keys == [] then map[]
    else Counted(f, CountedAll(f, utxos, keys[..|keys| - 1]), utxos[keys[|keys| - 1]])
  }

  ghost function SupplyAll(f: Filter, utxos: Utxos, keys: seq<Key>): nat
    requires forall i :: 0 <= i < |keys| ==> keys[i] in utxos
  {
    if keys == [] then 0
    else SupplyAll(f, utxos, keys[..|keys| - 1])
         + if f.Counts(utxos[keys[|keys| - 1]]) then utxos[keys[|keys| - 1]].amount else 0
  }

  lemma {:induction false} CountedIsBalances(f: Filter, utxos: Utxos, keys: seq<Key>)
    requires Distinct(keys) && forall i :: 0 <= i < |keys| ==> keys[i] in utxos
    ensures CountedAll(f, utxos, keys) == Balances(f, Part(utxos, keys))
    ensures SupplyAll(f, utxos, keys) == Supply(f, Part(utxos, keys))
    decreases |keys|
  {
    if keys == [] {
      assert Part(utxos, keys) == map[];
      assert Balances(f, map[]) == map[] && Weights(f, map[]) == map[];
    } else {
      var n := |keys| - 1;
      CountedIsBalances(f, utxos, keys[..n]);
      PartStep(utxos, keys, n);
      assert keys[..n + 1] == keys;
      BalancesAdd(f, Part(utxos, keys[..n]), keys[n], utxos[keys[n]]);
      SupplyAdd(f, Part(utxos, keys[..n]), keys[n], utxos[keys[n]]);
    }
  }

  method TallyPicked(f: Filter, utxos: Utxos, picked: seq<Key>) returns (balances: map<Address, U64>, total: U64)
    requires forall i :: 0 <= i < |picked| ==> picked[i] in utxos && utxos[picked[i]].assetId == f.assetId
    ensures Reports(CountedAll(f, utxos, picked), SupplyAll(f, utxos, picked), balances, total)
  {
    balances, total := map[], 0;
    for i := 0 to |picked|
      invariant Reports(CountedAll(f, utxos, picked[..i]), SupplyAll(f, utxos, picked[..i]), balances, total)
    {
      assert picked[..i + 1][..i] == picked[..i];
      balances, total := TallyOne(f, CountedAll(f, utxos, picked[..i]), SupplyAll(f, utxos, picked[..i]),
                                  utxos[picked[i]], balances, total);
    }
    assert picked[..|picked|] == picked;
  }

  /** The balance of every address and the total supply, both modulo 2^64. */
  method Tally(f: Filter, utxos: Utxos) returns (balances: map<Address, U64>, total: U64)
    ensures Tallied(f, utxos, balances, total)
  {
    var picked := PickToken(f, utxos);
    balances, total := TallyPicked(f, utxos, picked);
    CountedIsBalances(f, utxos, picked);
    OnlyTokenCounts(f, utxos, picked);
  }

  ghost function AsNats(balances: map<Address, U64>): map<Address, nat> { map a | a in balances :: balances[a] }

  lemma {:induction false} PartIsSmaller(exact: map<Address, nat>, a: Address)
    requires a in exact
    ensures exact[a] <= Total(exact)
  {
    TotalSplit(exact, a);
  }

  lemma {:induction false} SmallIsExact(exact: map<Address, nat>, supply: nat, balances: map<Address, U64>, total: U64)
    requires Reports(exact, supply, balances, total) && Total(exact) == supply < TWO64
    ensures AsNats(balances) == exact && total == supply
  {
    WrapSmall(supply);
    forall a | a in balances ensures balances[a] == exact[a] {
      PartIsSmaller(exact, a);
      WrapSmall(exact[a]);
    }
  }

  /** The report is exact if and only if the supply is below 2^64. */
  lemma {:induction false} ReportExactIff(f: Filter, utxos: Utxos, balances: map<Address, U64>, total: U64)
    requires Tallied(f, utxos, balances, total)
    ensures (AsNats(balances) == Balances(f, utxos) && total == Supply(f, utxos)) <==> Supply(f, utxos) < TWO64
  {
    if Supply(f, utxos) < TWO64 {
      BalancesSumToSupply(f, utxos);
      SmallIsExact(Balances(f, utxos), Supply(f, utxos), balances, total);
    }
  }

  ghost predicate Wraps(exact: map<Address, nat>, computed: map<Address, nat>) {
    computed.Keys == exact.Keys && forall a :: a in computed ==> Wrap(computed[a]) == Wrap(exact[a])
  }

  lemma {:induction false} WrapTotal(exact: map<Address, nat>, computed: map<Address, nat>)
    requires Wraps(exact, computed)
    ensures Wrap(Total(computed)) == Wrap(Total(exact))
    decreases exact.Keys
  {
    if exact == map[] {
      assert computed == map[];
    } else {
      var a :| a in exact;
      TotalSplit(exact, a);
      TotalSplit(computed, a);
      WrapTotal(exact - {a}, computed - {a});
      WrapCong(computed[a], exact[a], Total(computed - {a}), Total(exact - {a}));
    }
  }

  lemma {:induction false} ReportWraps(exact: map<Address, nat>, supply: nat, balances: map<Address, U64>, total: U64)
    requires Reports(exact, supply, balances, total)
    ensures Wraps(exact, AsNats(balances))
  {
    forall a | a in balances ensures Wrap(balances[a]) == Wrap(exact[a]) {
      WrapSmall(balances[a]);
    }
  }

  /** Reported balances always add up to the reported total modulo 2^64, whatever overflowed. */
  lemma {:induction false} ReportAddsUp(f: Filter, utxos: Utxos, balances: map<Address, U64>, total: U64)
    requires Tallied(f, utxos, balances, total)
    ensures Wrap(Total(AsNats(balances))) == total
  {
    BalancesSumToSupply(f, utxos);
    ReportWraps(Balances(f, utxos), Supply(f, utxos), balances, total);
    WrapTotal(Balances(f, utxos), AsNats(balances));
  }

  // ----- The richest addresses -----

  datatype AddressBalance = AddressBalance(address: Address, balance: U64)

  ghost predicate Lists(balances: map<Address, U64>, list: seq<AddressBalance>) {
    && (forall i :: 0 <= i < |list| ==> list[i].address in balances && list[i].balance == balances[list[i].address])
    && (forall i, j :: 0 <= i < j < |list| ==> list[i].address != list[j].address)
  }

  ghost predicate Covers(balances: map<Address, U64>, list: seq<AddressBalance>) {
    forall a :: a in balances ==> AddressBalance(a, balances[a]) in list
  }

  method ListBalances(balances: map<Address, U64>) returns (list: seq<AddressBalance>)
    ensures Lists(balances, list) && Covers(balances, list) && |list| == |balances|
  {
    list := [];
    var rest := balances.Keys;
    while rest != {}
      invariant rest <= balances.Keys && Lists(balances, list) && |list| + |rest| == |balances.Keys|
      invariant forall i :: 0 <= i < |list| ==> list[i].address !in rest
      invariant forall a :: a in balances ==> a in rest || AddressBalance(a, balances[a]) in list
      decreases rest
    {
      var a :| a in rest;
      rest := rest - {a};
      list := list + [AddressBalance(a, balances[a])];
    }
  }

  lemma {:induction false} ListsPermuted(balances: map<Address, U64>, a: seq<AddressBalance>, b: seq<AddressBalance>)
    requires Lists(balances, a) && Covers(balances, a) && multiset(a) == multiset(b)
    ensures Lists(balances, b) && Covers(balances, b) && |a| == |b|
  {
    assert |multiset(a)| == |multiset(b)|;
    forall i | 0 <= i < |b| ensures b[i] in a {
      assert b[i] in multiset(b);
    }
    forall i, j | 0 <= i < j < |b| ensures b[i].address != b[j].address {
      if b[i].address == b[j].address {
        assert b[i] == b[j];
        PairCounts(b, i, j);
        DistinctCounts(a, b[i]);
      }
    }
    forall x | x in balances ensures AddressBalance(x, balances[x]) in b {
      assert AddressBalance(x, balances[x]) in multiset(a);
    }
  }

  function Rank(x: AddressBalance): int { 0 - x.balance }

  /** All balances in descending order. */
  method SortBalances(balances: map<Address, U64>) returns (sorted: seq<AddressBalance>)
    ensures Lists(balances, sorted) && Covers(balances, sorted) && |sorted| == |balances|
    ensures SortedBy(sorted, Rank)
  {
    var list := ListBalances(balances);
    var a := new AddressBalance[|list|](i requires 0 <= i < |list| => list[i]);
    assert a[..] == list;
    Sort(a, Rank);
    sorted := a[..];
    ListsPermuted(balances, list, sorted);
  }

  ghost predicate Top(balances: map<Address, U64>, top: seq<AddressBalance>) {
    forall a, i :: a in balances && 0 <= i < |top| ==>
      AddressBalance(a, balances[a]) in top || balances[a] <= top[i].balance
  }

  lemma {:induction false} PrefixIsTop(balances: map<Address, U64>, sorted: seq<AddressBalance>, n: nat)
    requires Lists(balances, sorted) && Covers(balances, sorted) && SortedBy(sorted, Rank) && n <= |sorted|
    ensures Top(balances, sorted[..n]) && SortedBy(sorted[..n], Rank) && Lists(balances, sorted[..n])
  {
    forall a, i | a in balances && 0 <= i < n && AddressBalance(a, balances[a]) !in sorted[..n]
      ensures balances[a] <= sorted[i].balance
    {
      var k :| 0 <= k < |sorted| && sorted[k] == AddressBalance(a, balances[a]);
      assert sorted == sorted[..n] + sorted[n..];
      assert Rank(sorted[i]) <= Rank(sorted[k]);
    }
  }

  /** The top list: descending, right, as long as asked for - 0 asks for all - and no address that it leaves out
      holds more than one that it names. */
  method TopBalances(balances: map<Address, U64>, topN: int) returns (top: seq<AddressBalance>)
    ensures Lists(balances, top) && SortedBy(top, Rank) && Top(balances, top)
    ensures |top| == if topN == 0 || topN > |balances| then |balances| else if topN < 0 then 0 else topN
  {
    var sorted := SortBalances(balances);
    var n := topN;
    if n == 0 {
      n := |sorted|;
    } else if |sorted| < n {
      n := |sorted|;
    }
    top := [];
    var i := 0;
    while i < n
      invariant 0 <= i <= |sorted| && n <= |sorted| && (i == 0 || i <= n) && top == sorted[..i]
    {
      top := top + [sorted[i]];
      i := i + 1;
    }
    PrefixIsTop(balances, sorted, i);
  }

  datatype Statistics = Statistics(totalSupply: U64, totalAddressCount: nat, addressBalance: seq<AddressBalance>)

  /** The whole report: the balances it is drawn from are right, it counts every address and lists the richest. */
  method GetAddressBalanceStatistics(f: Filter, utxos: Utxos, topN: int)
    returns (report: Statistics, ghost balances: map<Address, U64>)
    ensures Tallied(f, utxos, balances, report.totalSupply)
    ensures report.totalAddressCount == |Owners(f, utxos)|
    ensures Lists(balances, report.addressBalance) && SortedBy(report.addressBalance, Rank)
    ensures Top(balances, report.addressBalance)
    ensures |report.addressBalance| ==
              if topN == 0 || topN > |balances| then |balances| else if topN < 0 then 0 else topN
    ensures forall i :: 0 <= i < |report.addressBalance| ==> report.addressBalance[i].address !in f.blacklist
    ensures report.totalSupply == Wrap(Supply(Open(f), utxos) - Total(Barred(f, utxos)))
  {
    var table, total := Tally(f, utxos);
    var top := TopBalances(table, topN);
    balances := table;
    assert table.Keys == Owners(f, utxos);
    SupplyLessBarred(f, utxos);
    forall i | 0 <= i < |top| ensures top[i].address !in f.blacklist {
      BlacklistBalance(f, utxos, top[i].address);
    }
    report := Statistics(total, |table|, top);
  }
}
