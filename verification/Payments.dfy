/** Building payments from an address's unspent outputs.  Lock scripts stand for the address they pay to,
    the fee of a text message is a parameter, and the transaction pool is the set of outpoints it spends. */
module Payments {
  import opened Distinctness
  import opened Uint64
  import opened Wrappers
  import opened CoinSelection

  type Address = nat

  datatype Asset = Asset(assetId: nat, uniqueId: nat)

  datatype Utxo = Utxo(amount: U64, asset: Asset, spent: bool)

  type Utxos = map<OutPoint, Utxo>

  datatype Output = Output(value: U64, to: Address, asset: Asset)

  datatype Payload = Payload(inputs: seq<OutPoint>, outputs: seq<Output>)

  datatype Message = Data(text: string) | AccountUpdate

  datatype Transaction = Transaction(payments: seq<Payload>, messages: seq<Message>)

  datatype Ledger = Ledger(readable: bool, owned: map<Address, Utxos>, pool: set<OutPoint>, gasToken: nat) {
    function Owned(addr: Address): Utxos { if addr in owned then owned[addr] else map[] }

    predicate Free(op: OutPoint, utxo: Utxo) { !utxo.spent && op !in pool }

    /** The gas-token outputs that an address can spend, and those of another asset. */
    ghost function GasCoins(addr: Address): Utxos {
      map op | op in Owned(addr) && Owned(addr)[op].asset.assetId == gasToken && Free(op, Owned(addr)[op])
        :: Owned(addr)[op]
    }

    ghost function TokenCoins(addr: Address, token: Asset): Utxos {
      map op | op in Owned(addr) && Owned(addr)[op].asset.assetId != gasToken && Owned(addr)[op].asset == token
               && Free(op, Owned(addr)[op])
        :: Owned(addr)[op]
    }
  }

  ghost function Amount(utxos: Utxos, op: OutPoint): nat { if op in utxos then utxos[op].amount else 0 }

  ghost function Total(utxos: Utxos, ops: seq<OutPoint>): nat {
    if ops == [] then 0 else Amount(utxos, ops[0]) + Total(utxos, ops[1..])
  }

  ghost function Value(outs: seq<Output>): nat {
    if outs == [] then 0 else outs[0].value + Value(outs[1..])
  }

  ghost function Received(outs: seq<Output>, addr: Address): nat {
    if outs == [] then 0 else (if outs[0].to == addr then outs[0].value else 0) + Received(outs[1..], addr)
  }

  /** Different outputs of `utxos`. */
  ghost predicate Spends(utxos: Utxos, ops: seq<OutPoint>) {
    Distinct(ops) && forall i :: 0 <= i < |ops| ==> ops[i] in utxos
  }

  ghost predicate Bounded(utxos: Utxos) {
    forall ops :: Spends(utxos, ops) ==> Total(utxos, ops) < TWO64
  }

  ghost predicate Affordable(utxos: Utxos, amount: nat) {
    exists ops :: Spends(utxos, ops) && |ops| <= MAX_PICK && Total(utxos, ops) >= amount
  }

  /** A choice of at most 500 outputs that no other such choice outweighs. */
  ghost predicate Best(utxos: Utxos, ops: seq<OutPoint>) {
    && Spends(utxos, ops) && |ops| <= MAX_PICK
    && forall other :: Spends(utxos, other) && |other| <= MAX_PICK ==> Total(utxos, other) <= Total(utxos, ops)
  }

  /** What is left of the best choice's total in 64 bits covers `need`. */
  ghost predicate Covers(utxos: Utxos, need: U64) {
    exists ops :: Best(utxos, ops) && Total(utxos, ops) % TWO64 >= need
  }

  /** All outputs are in one asset and pay the amount to the receiver and everything else back to the sender. */
  ghost predicate Shares(outs: seq<Output>, from: Address, to: Address, amount: nat, asset: Asset) {
    && (forall i :: 0 <= i < |outs| ==> outs[i].to in {from, to} && outs[i].asset == asset)
    && (from != to ==> Received(outs, to) == amount)
    && Received(outs, from) + (if from == to then 0 else amount) == Value(outs)
  }

  /** A payment as it should be: it spends different outputs of `utxos`, loses exactly the fee, pays the
      amount to the receiver and everything else back to the sender, all in one asset. */
  ghost predicate Settles(p: Payload, utxos: Utxos, from: Address, to: Address, amount: nat, fee: nat, asset: Asset) {
    && Spends(utxos, p.inputs) && |p.inputs| <= MAX_PICK
    && Total(utxos, p.inputs) == Value(p.outputs) + fee
    && Shares(p.outputs, from, to, amount, asset)
  }

  /** Exactly when the fee is right: with a separate change output, when the inputs and amount + fee wrap around
      equally often; with a merged one, when the inputs less the fee fit 64 bits. */
  ghost predicate FeeFits(sameAddress: bool, spent: nat, amount: nat, fee: nat) {
    if sameAddress then fee <= spent < fee + TWO64 else spent / TWO64 == (amount + fee) / TWO64
  }

  /** A payment as it is built, whatever overflows: it spends the best choice and shares it out, loses the fee modulo
      2^64, and settles if and only if the fee fits. */
  ghost predicate Built(p: Payload, utxos: Utxos, from: Address, to: Address, amount: nat, fee: nat, asset: Asset) {
    && Best(utxos, p.inputs) && Shares(p.outputs, from, to, amount, asset)
    && (Value(p.outputs) + fee) % TWO64 == Total(utxos, p.inputs) % TWO64
    && (Settles(p, utxos, from, to, amount, fee, asset) <==> FeeFits(from == to, Total(utxos, p.inputs), amount, fee))
  }

  /** Every input is an output of the payer, of that asset id, that is not spent and that the pool does not spend. */
  ghost predicate Available(ledger: Ledger, from: Address, inputs: seq<OutPoint>, assetId: nat) {
    forall i :: 0 <= i < |inputs| ==>
      && inputs[i] in ledger.Owned(from) && inputs[i] !in ledger.pool
      && !ledger.Owned(from)[inputs[i]].spent && ledger.Owned(from)[inputs[i]].asset.assetId == assetId
  }

  lemma {:induction false} CoinsAvailable(ledger: Ledger, from: Address, token: Asset, ops: seq<OutPoint>)
    ensures Spends(ledger.GasCoins(from), ops) ==> Available(ledger, from, ops, ledger.gasToken)
    ensures Spends(ledger.TokenCoins(from, token), ops) ==>
              Available(ledger, from, ops, token.assetId)
              && forall i :: 0 <= i < |ops| ==> ledger.Owned(from)[ops[i]].asset == token
  {
  }

  /** The outputs that a transaction spends. */
  ghost function Inputs(tx: Transaction): set<OutPoint> {
    set k, i | 0 <= k < |tx.payments| && 0 <= i < |tx.payments[k].inputs| :: tx.payments[k].inputs[i]
  }

  /** All that the transaction spends is available to its payer. */
  ghost predicate SpendsAvailable(ledger: Ledger, from: Address, tx: Transaction) {
    forall k :: 0 <= k < |tx.payments| ==> exists id :: Available(ledger, from, tx.payments[k].inputs, id)
  }

  /** The ledger once the pool has taken transactions one after the other. */
  ghost function Pooled(ledger: Ledger, txs: seq<Transaction>): Ledger {
    if txs == [] then ledger
    else var l := Pooled(ledger, txs[..|txs| - 1]); l.(pool := l.pool + Inputs(txs[|txs| - 1]))
  }

  lemma {:induction false} PoolKeeps(ledger: Ledger, txs: seq<Transaction>, i: nat)
    requires i < |txs|
    ensures Inputs(txs[i]) <= Pooled(ledger, txs).pool
    decreases |txs|
  {
    if i < |txs| - 1 {
      PoolKeeps(ledger, txs[..|txs| - 1], i);
    }
  }

  /** Transactions that are each built on a ledger whose pool has taken those before never spend the same output,
      whoever builds them. */
  lemma {:induction false} NoDoubleSpend(ledger: Ledger, txs: seq<Transaction>, from: Address, i: nat, j: nat)
    requires i < j < |txs| && SpendsAvailable(Pooled(ledger, txs[..j]), from, txs[j])
    ensures Inputs(txs[i]) !! Inputs(txs[j])
  {
    PoolKeeps(ledger, txs[..j], i);
    forall op | op in Inputs(txs[j]) ensures op !in Inputs(txs[i]) {
      var k, n :| 0 <= k < |txs[j].payments| && 0 <= n < |txs[j].payments[k].inputs| && op == txs[j].payments[k].inputs[n];
      var id :| Available(Pooled(ledger, txs[..j]), from, txs[j].payments[k].inputs, id);
    }
  }

  // ----- Lists of spendable outputs -----

  ghost predicate Listed(utxos: Utxos, list: seq<Txo>) {
    && (forall i :: 0 <= i < |list| ==> list[i].outPoint in utxos && list[i].amount == utxos[list[i].outPoint].amount)
    && (forall i, j :: 0 <= i < j < |list| ==> list[i].outPoint != list[j].outPoint)
    && (forall op :: op in utxos ==> Txo(op, utxos[op].amount) in list)
  }

  method ListUtxos(utxos: Utxos) returns (list: seq<Txo>)
    ensures Listed(utxos, list)
  {
    list := [];
    var rest := utxos.Keys;
    while rest != {}
      invariant rest <= utxos.Keys
      invariant forall i :: 0 <= i < |list| ==> list[i].outPoint in utxos && list[i].outPoint !in rest
                                                && list[i].amount == utxos[list[i].outPoint].amount
      invariant forall i, j :: 0 <= i < j < |list| ==> list[i].outPoint != list[j].outPoint
      invariant forall op :: op in utxos ==> op in rest || Txo(op, utxos[op].amount) in list
      decreases rest
    {
      var op :| op in rest;
      rest := rest - {op};
      list := list + [Txo(op, utxos[op].amount)];
    }
  }

  ghost function OutPoints(txos: seq<Txo>): seq<OutPoint> {
    seq(|txos|, i requires 0 <= i < |txos| => txos[i].outPoint)
  }

  ghost function Txos(utxos: Utxos, ops: seq<OutPoint>): seq<Txo>
    requires forall i :: 0 <= i < |ops| ==> ops[i] in utxos
  {
    seq(|ops|, i requires 0 <= i < |ops| => Txo(ops[i], utxos[ops[i]].amount))
  }

  lemma {:induction false} TotalIsSum(utxos: Utxos, txos: seq<Txo>)
    requires forall i :: 0 <= i < |txos| ==> txos[i].outPoint in utxos && txos[i].amount == utxos[txos[i].outPoint].amount
    ensures Total(utxos, OutPoints(txos)) == Sum(txos)
    decreases |txos|
  {
    if txos != [] {
      TotalIsSum(utxos, txos[1..]);
      assert OutPoints(txos)[1..] == OutPoints(txos[1..]);
    }
  }

  /** What is picked from a list of different outputs are different outputs. */
  lemma {:induction false} PickSpends(utxos: Utxos, list: seq<Txo>, pick: seq<Txo>)
    requires Listed(utxos, list) && multiset(pick) <= multiset(list)
    ensures Spends(utxos, OutPoints(pick)) && Total(utxos, OutPoints(pick)) == Sum(pick)
  {
    forall i | 0 <= i < |pick| ensures pick[i] in list {
      assert pick[i] in multiset(pick);
    }
    forall i, j | 0 <= i < j < |pick| ensures pick[i].outPoint != pick[j].outPoint {
      if pick[i] == pick[j] {
        PairCounts(pick, i, j);
        DistinctCounts(list, pick[i]);
      }
    }
    TotalIsSum(utxos, pick);
  }

  lemma {:induction false} SpendIsPick(utxos: Utxos, list: seq<Txo>, ops: seq<OutPoint>)
    requires Listed(utxos, list) && Spends(utxos, ops)
    ensures multiset(Txos(utxos, ops)) <= multiset(list) && Sum(Txos(utxos, ops)) == Total(utxos, ops)
  {
    var pick := Txos(utxos, ops);
    assert OutPoints(pick) == ops;
    TotalIsSum(utxos, pick);
    assert Distinct(pick) by {
      forall i, j | 0 <= i < j < |pick| ensures pick[i] != pick[j] {
        assert pick[i].outPoint == ops[i] && pick[j].outPoint == ops[j];
      }
    }
    forall x ensures multiset(pick)[x] <= multiset(list)[x] {
      DistinctCounts(pick, x);
      if x in multiset(pick) {
        assert x in pick;
        assert x in list;
      }
    }
  }

  /** The first 500 of the sorted list are the best choice. */
  lemma {:induction false} TopIsBest(utxos: Utxos, list: seq<Txo>, sorted: seq<Txo>)
    requires Listed(utxos, list) && Descending(sorted) && multiset(sorted) == multiset(list)
    ensures var top := Top(sorted, MAX_PICK);
            Best(utxos, OutPoints(top)) && Total(utxos, OutPoints(top)) == Sum(top)
  {
    TopIsPick(sorted, MAX_PICK);
    PickSpends(utxos, list, Top(sorted, MAX_PICK));
    forall ops | Spends(utxos, ops) && |ops| <= MAX_PICK ensures Total(utxos, ops) <= Sum(Top(sorted, MAX_PICK)) {
      SpendIsPick(utxos, list, ops);
      TopIsMaximal(sorted, Txos(utxos, ops), MAX_PICK);
    }
  }

  lemma {:induction false} BestAffords(utxos: Utxos, ops: seq<OutPoint>, amount: nat)
    requires Best(utxos, ops)
    ensures Affordable(utxos, amount) <==> Total(utxos, ops) >= amount
  {
  }

  ghost predicate NoOverflow(coins: Utxos, amount: nat, fee: nat) {
    Bounded(coins) && amount + fee < TWO64
  }

  lemma {:induction false} CoversIff(utxos: Utxos, best: seq<OutPoint>, need: U64)
    requires Best(utxos, best)
    ensures Covers(utxos, need) <==> Total(utxos, best) % TWO64 >= need
  {
    forall ops | Best(utxos, ops) ensures Total(utxos, ops) == Total(utxos, best) {
    }
  }

  /** Without overflow, what the best choice covers is what can be afforded, and every fee fits. */
  lemma {:induction false} CoversIffAffordable(utxos: Utxos, best: seq<OutPoint>, need: U64)
    requires Bounded(utxos) && Best(utxos, best)
    ensures Covers(utxos, need) <==> Affordable(utxos, need)
  {
    assert Total(utxos, best) < TWO64;
    assert Total(utxos, best) % TWO64 == Total(utxos, best) by { WrapSmall(Total(utxos, best)); }
    BestAffords(utxos, best, need);
    CoversIff(utxos, best, need);
  }

  lemma {:induction false} NoOverflowSettles(p: Payload, utxos: Utxos, from: Address, to: Address, amount: nat, fee: nat, asset: Asset)
    requires Built(p, utxos, from, to, amount, fee, asset) && NoOverflow(utxos, amount, fee)
    requires Total(utxos, p.inputs) >= amount + fee
    ensures Settles(p, utxos, from, to, amount, fee, asset)
  {
  }

  // ----- One payment -----

  /** Select the inputs of a payment: the best choice, if what is left of its total in 64 bits covers the amount. */
  method SelectInputs(utxos: Utxos, amount: U64) returns (r: Selection, ghost best: seq<OutPoint>)
    ensures r.Picked? <==> Covers(utxos, amount)
    ensures Best(utxos, best)
    ensures r.Picked? <==> Total(utxos, best) % TWO64 >= amount
    ensures r.Picked? ==> OutPoints(r.taken) == best && Total(utxos, best) % TWO64 == amount + r.change
  {
    var list := ListUtxos(utxos);
    var greedy := new Txo[|list|](i requires 0 <= i < |list| => list[i]);
    assert greedy[..] == list;
    r := SelectUtxoGreedy(greedy, amount);
    TopIsBest(utxos, list, greedy[..]);
    best := OutPoints(Top(greedy[..], MAX_PICK));
    CoversIff(utxos, best, amount);
  }

  /** The receiver's output, and the change: added to it when payer and receiver are the same. */
  method MakeOutputs(from: Address, to: Address, amount: U64, change: U64, asset: Asset) returns (outs: seq<Output>)
    ensures Shares(outs, from, to, amount, asset)
    ensures Value(outs) == if from == to then AddU64(amount, change) else amount + change
    ensures |outs| == (if from != to && change > 0 then 2 else 1) && outs[0].to == to
  {
    outs := [Output(amount, to, asset)];
    assert outs[1..] == [];
    if change > 0 {
      if from == to {
        outs := [Output(AddU64(amount, change), to, asset)];
        assert outs[1..] == [];
      } else {
        outs := outs + [Output(change, from, asset)];
        var rest := outs[1..];
        assert rest == [Output(change, from, asset)] && rest[1..] == [];
        assert Value([]) == 0 && Received(rest[1..], from) == 0 && Received(rest[1..], to) == 0;
        assert Value(rest) == change && Received(rest, from) == change && Received(rest, to) == 0;
      }
    }
  }

  lemma {:induction false} FeeModulo(spent: nat, amount: U64, fee: U64, change: U64, paid: nat)
    requires spent % TWO64 == AddU64(amount, fee) + change
    requires paid == amount + change || paid == AddU64(amount, change)
    ensures (paid + fee) % TWO64 == spent % TWO64
  {
    assert paid + fee == spent % TWO64 || paid + fee == spent % TWO64 + TWO64;
  }

  lemma {:induction false} FeeExact(sameAddress: bool, spent: nat, amount: U64, fee: U64, change: U64, paid: nat)
    requires spent % TWO64 == AddU64(amount, fee) + change
    requires paid == if sameAddress then AddU64(amount, change) else amount + change
    ensures spent == paid + fee <==> FeeFits(sameAddress, spent, amount, fee)
  {
    var q := spent / TWO64;
    assert spent == q * TWO64 + AddU64(amount, fee) + change;
    assert (amount + fee) / TWO64 == if amount + fee < TWO64 then 0 else 1;
  }

  method InputsOf(taken: seq<Txo>) returns (inputs: seq<OutPoint>)
    ensures inputs == OutPoints(taken)
  {
    inputs := [];
    for i := 0 to |taken|
      invariant inputs == OutPoints(taken[..i])
    {
      inputs := inputs + [taken[i].outPoint];
    }
    assert taken[..|taken|] == taken;
  }

  lemma {:induction false} IsBuilt(p: Payload, utxos: Utxos, from: Address, to: Address, amount: U64, fee: U64,
                                   asset: Asset, change: U64)
    requires Best(utxos, p.inputs) && Shares(p.outputs, from, to, amount, asset)
    requires Total(utxos, p.inputs) % TWO64 == AddU64(amount, fee) + change
    requires Value(p.outputs) == if from == to then AddU64(amount, change) else amount + change
    ensures Built(p, utxos, from, to, amount, fee, asset)
  {
    FeeModulo(Total(utxos, p.inputs), amount, fee, change, Value(p.outputs));
    FeeExact(from == to, Total(utxos, p.inputs), amount, fee, change, Value(p.outputs));
  }

  /** Select inputs for amount + fee, pay the amount and return the change; payer and receiver may be the
      same address.  All 64-bit sums wrap around. */
  method BuildPayload(from: Address, to: Address, amount: U64, fee: U64, utxos: Utxos, asset: Asset)
    returns (r: Result<Payload>)
    ensures r.Ok? <==> Covers(utxos, AddU64(amount, fee))
    ensures r.Ok? ==> Built(r.value, utxos, from, to, amount, fee, asset)
    ensures NoOverflow(utxos, amount, fee) ==>
              && (r.Ok? <==> Affordable(utxos, amount + fee))
              && (r.Ok? ==> Settles(r.value, utxos, from, to, amount, fee, asset))
  {
    var sel, best := SelectInputs(utxos, AddU64(amount, fee));
    CoversIff(utxos, best, AddU64(amount, fee));
    if NoOverflow(utxos, amount, fee) {
      CoversIffAffordable(utxos, best, amount + fee);
    }
    if !sel.Picked? {
      return Err("Select_utxo_Greedy utxo err");
    }
    var inputs := InputsOf(sel.taken);
    var outputs := MakeOutputs(from, to, amount, sel.change, asset);
    r := Ok(Payload(inputs, outputs));
    IsBuilt(r.value, utxos, from, to, amount, fee, asset, sel.change);
    if NoOverflow(utxos, amount, fee) {
      NoOverflowSettles(r.value, utxos, from, to, amount, fee, asset);
    }
  }

  // ----- Whole transactions -----

  method GetAddrCoreUtxos(ledger: Ledger, addr: Address) returns (r: Result<Utxos>)
    ensures r == if ledger.readable then Ok(ledger.GasCoins(addr)) else Err("read error")
    ensures r.Ok? ==> forall op :: op in r.value <==>
              && op in ledger.Owned(addr) && op !in ledger.pool
              && !ledger.Owned(addr)[op].spent && ledger.Owned(addr)[op].asset.assetId == ledger.gasToken
  {
    if !ledger.readable {
      return Err("read error");
    }
    var all := ledger.Owned(addr);
    var coins: Utxos := map[];
    var rest := all.Keys;
    while rest != {}
      invariant rest <= all.Keys
      invariant coins == map op | op in ledger.GasCoins(addr) && op !in rest :: all[op]
      decreases rest
    {
      var op :| op in rest;
      rest := rest - {op};
      if all[op].asset.assetId != ledger.gasToken {
        continue;
      }
      if all[op].spent {
        continue;
      }
      if op in ledger.pool {
        continue;
      }
      coins := coins[op := all[op]];
    }
    assert coins == ledger.GasCoins(addr);
    r := Ok(coins);
  }

  method GetAddrCoreUtxosToken(ledger: Ledger, addr: Address, token: Asset) returns (r: Result<(Utxos, Utxos)>)
    ensures r == if ledger.readable then Ok((ledger.GasCoins(addr), ledger.TokenCoins(addr, token)))
                 else Err("read error")
    ensures r.Ok? ==> forall op :: op in r.value.0 <==>
              && op in ledger.Owned(addr) && op !in ledger.pool
              && !ledger.Owned(addr)[op].spent && ledger.Owned(addr)[op].asset.assetId == ledger.gasToken
    ensures r.Ok? ==> forall op :: op in r.value.1 <==>
              && op in ledger.Owned(addr) && op !in ledger.pool && !ledger.Owned(addr)[op].spent
              && ledger.Owned(addr)[op].asset == token && token.assetId != ledger.gasToken
  {
    if !ledger.readable {
      return Err("read error");
    }
    var all := ledger.Owned(addr);
    var gas: Utxos, other: Utxos := map[], map[];
    var rest := all.Keys;
    while rest != {}
      invariant rest <= all.Keys
      invariant gas == map op | op in ledger.GasCoins(addr) && op !in rest :: all[op]
      invariant other == map op | op in ledger.TokenCoins(addr, token) && op !in rest :: all[op]
      decreases rest
    {
      var op :| op in rest;
      rest := rest - {op};
      var isGas := true;
      if all[op].asset.assetId != ledger.gasToken {
        if all[op].asset != token {
          continue;
        }
        isGas := false;
      }
      if all[op].spent {
        continue;
      }
      if op in ledger.pool {
        continue;
      }
      if isGas {
        gas := gas[op := all[op]];
      } else {
        other := other[op := all[op]];
      }
    }
    assert gas == ledger.GasCoins(addr) && other == ledger.TokenCoins(addr, token);
    r := Ok((gas, other));
  }

  method CreateBaseTransaction(ledger: Ledger, from: Address, to: Address, amount: U64, fee: U64)
    returns (r: Result<Transaction>)
    ensures r.Ok? <==> ledger.readable && ledger.GasCoins(from) != map[]
                       && Covers(ledger.GasCoins(from), AddU64(amount, fee))
    ensures r.Ok? ==> && |r.value.payments| == 1 && r.value.messages == []
                      && Built(r.value.payments[0], ledger.GasCoins(from), from, to, amount, fee, Asset(ledger.gasToken, 0))
    ensures r.Ok? ==> Available(ledger, from, r.value.payments[0].inputs, ledger.gasToken)
    ensures NoOverflow(ledger.GasCoins(from), amount, fee) ==>
              && (r.Ok? <==> ledger.readable && ledger.GasCoins(from) != map[]
                             && Affordable(ledger.GasCoins(from), amount + fee))
              && (r.Ok? ==> Settles(r.value.payments[0], ledger.GasCoins(from), from, to, amount, fee,
                                    Asset(ledger.gasToken, 0)))
  {
    var coins := GetAddrCoreUtxos(ledger, from);
    if coins.Err? {
      return Err(coins.error);
    }
    if |coins.value| == 0 {
      return Err("utxo is empty");
    }
    var p := BuildPayload(from, to, amount, fee, coins.value, Asset(ledger.gasToken, 0));
    if p.Err? {
      return Err(p.error);
    }
    r := Ok(Transaction([p.value], []));
    CoinsAvailable(ledger, from, Asset(ledger.gasToken, 0), p.value.inputs);
  }

  /** A text message costs `dataFee` on top; the fee returned is the fee paid. */
  method CreateGenericTransaction(ledger: Ledger, from: Address, to: Address, amount: U64, fee: U64, msg: Message,
                                  dataFee: U64)
    returns (r: Result<(Transaction, U64)>)
    ensures var cost := if msg.Data? then AddU64(fee, dataFee) else fee;
            && (r.Ok? <==> ledger.readable && ledger.GasCoins(from) != map[]
                           && Covers(ledger.GasCoins(from), AddU64(amount, cost)))
            && (r.Ok? ==> |r.value.0.payments| == 1 && r.value.0.messages == [msg] && r.value.1 == cost
                          && Built(r.value.0.payments[0], ledger.GasCoins(from), from, to, amount, r.value.1,
                                   Asset(ledger.gasToken, 0)))
            && (NoOverflow(ledger.GasCoins(from), amount, cost) ==>
                  && (r.Ok? <==> ledger.readable && ledger.GasCoins(from) != map[]
                                 && Affordable(ledger.GasCoins(from), amount + cost))
                  && (r.Ok? ==> Settles(r.value.0.payments[0], ledger.GasCoins(from), from, to, amount, r.value.1,
                                        Asset(ledger.gasToken, 0))))
    ensures r.Ok? ==> Available(ledger, from, r.value.0.payments[0].inputs, ledger.gasToken)
  {
    var cost := fee;
    if msg.Data? {
      cost := AddU64(cost, dataFee);
    }
    var tx := CreateBaseTransaction(ledger, from, to, amount, cost);
    if tx.Err? {
      return Err(tx.error);
    }
    r := Ok((tx.value.(messages := tx.value.messages + [msg]), cost));
  }

  /** A transfer: the text, if there is any, goes into a data message. */
  method GenTransferPtnTx(ledger: Ledger, from: Address, to: Address, amount: U64, text: Option<string>, baseFee: U64,
                          dataFee: U64)
    returns (r: Result<(Transaction, U64)>)
    ensures var plain := text == None || text.value == "";
            var cost := if plain then baseFee else AddU64(baseFee, dataFee);
            && (r.Ok? <==> ledger.readable && ledger.GasCoins(from) != map[]
                           && Covers(ledger.GasCoins(from), AddU64(amount, cost)))
            && (r.Ok? ==> |r.value.0.payments| == 1 && r.value.1 == cost
                          && r.value.0.messages == (if plain then [] else [Data(text.value)])
                          && Built(r.value.0.payments[0], ledger.GasCoins(from), from, to, amount, r.value.1,
                                   Asset(ledger.gasToken, 0)))
            && (NoOverflow(ledger.GasCoins(from), amount, cost) ==>
                  && (r.Ok? <==> ledger.readable && ledger.GasCoins(from) != map[]
                                 && Affordable(ledger.GasCoins(from), amount + cost))
                  && (r.Ok? ==> Settles(r.value.0.payments[0], ledger.GasCoins(from), from, to, amount, r.value.1,
                                        Asset(ledger.gasToken, 0))))
    ensures r.Ok? ==> Available(ledger, from, r.value.0.payments[0].inputs, ledger.gasToken)
  {
    if text == None || text.value == "" {
      var tx := CreateBaseTransaction(ledger, from, to, amount, baseFee);
      if tx.Err? {
        return Err(tx.error);
      }
      r := Ok((tx.value, baseFee));
    } else {
      r := CreateGenericTransaction(ledger, from, to, amount, baseFee, Data(text.value), dataFee);
    }
  }

  /** The asset of a payload's outputs is read off an arbitrary one of the outputs it may spend. */
  method GetPayload(from: Address, to: Address, amount: U64, fee: U64, utxos: Utxos)
    returns (r: Result<Payload>, asset: Asset)
    ensures utxos != map[] ==> exists op :: op in utxos && utxos[op].asset == asset
    ensures r.Ok? <==> Covers(utxos, AddU64(amount, fee))
    ensures r.Ok? ==> Built(r.value, utxos, from, to, amount, fee, asset)
    ensures NoOverflow(utxos, amount, fee) ==>
              && (r.Ok? <==> Affordable(utxos, amount + fee))
              && (r.Ok? ==> Settles(r.value, utxos, from, to, amount, fee, asset))
  {
    asset := Asset(0, 0);
    if utxos != map[] {
      var op :| op in utxos;
      asset := utxos[op].asset;
    }
    r := BuildPayload(from, to, amount, fee, utxos, asset);
  }

  ghost predicate Disjoint(p: Payload, q: Payload) {
    forall i, j :: 0 <= i < |p.inputs| && 0 <= j < |q.inputs| ==> p.inputs[i] != q.inputs[j]
  }

  /** A token transfer as it should be: two payments from disjoint outputs; the first loses exactly the fee in
      the gas token, the second nothing at all of the token. */
  ghost predicate TokenTransfer(tx: Transaction, ledger: Ledger, from: Address, to: Address, token: Asset,
                                amount: nat, fee: nat) {
    && |tx.payments| == 2 && Disjoint(tx.payments[0], tx.payments[1])
    && (exists gas: Asset :: gas.assetId == ledger.gasToken
          && Settles(tx.payments[0], ledger.GasCoins(from), from, from, 0, fee, gas))
    && Settles(tx.payments[1], ledger.TokenCoins(from, token), from, to, amount, 0, token)
  }

  /** A token transfer as it is built, whatever overflows. */
  ghost predicate TokenBuilt(tx: Transaction, ledger: Ledger, from: Address, to: Address, token: Asset,
                             amount: nat, fee: nat) {
    && |tx.payments| == 2 && Disjoint(tx.payments[0], tx.payments[1])
    && (exists gas: Asset :: gas.assetId == ledger.gasToken
          && Built(tx.payments[0], ledger.GasCoins(from), from, from, 0, fee, gas))
    && Built(tx.payments[1], ledger.TokenCoins(from, token), from, to, amount, 0, token)
  }

  lemma {:induction false} CoinsDisjoint(ledger: Ledger, addr: Address, token: Asset, a: seq<OutPoint>, b: seq<OutPoint>)
    requires Spends(ledger.GasCoins(addr), a) && Spends(ledger.TokenCoins(addr, token), b)
    ensures forall i, j :: 0 <= i < |a| && 0 <= j < |b| ==> a[i] != b[j]
  {
    forall i, j | 0 <= i < |a| && 0 <= j < |b| ensures a[i] != b[j] {
      assert ledger.GasCoins(addr)[a[i]].asset.assetId == ledger.gasToken;
      assert ledger.TokenCoins(addr, token)[b[j]].asset.assetId != ledger.gasToken;
    }
  }

  lemma {:induction false} TokenIsBuilt(tx: Transaction, ledger: Ledger, from: Address, to: Address, token: Asset,
                                        amount: nat, fee: nat, gas: Asset)
    requires |tx.payments| == 2 && gas.assetId == ledger.gasToken
    requires Built(tx.payments[0], ledger.GasCoins(from), from, from, 0, fee, gas)
    requires Built(tx.payments[1], ledger.TokenCoins(from, token), from, to, amount, 0, token)
    ensures TokenBuilt(tx, ledger, from, to, token, amount, fee)
    ensures Settles(tx.payments[0], ledger.GasCoins(from), from, from, 0, fee, gas)
            && Settles(tx.payments[1], ledger.TokenCoins(from, token), from, to, amount, 0, token)
            ==> TokenTransfer(tx, ledger, from, to, token, amount, fee)
  {
    CoinsDisjoint(ledger, from, token, tx.payments[0].inputs, tx.payments[1].inputs);
  }

  // ----- A fee that does not fit -----

  /** With outputs of 2^63 + 5 and 2^63, a payment of 2 with a fee of 3 is built, spends both, and does not settle. */
  lemma {:induction false} OverflowBurns(a: OutPoint, b: OutPoint, asset: Asset)
    requires a != b
    ensures var utxos: Utxos := map[a := Utxo(TWO63 + 5, asset, false), b := Utxo(TWO63, asset, false)];
            && Best(utxos, [a, b]) && Covers(utxos, AddU64(2, 3))
            && !FeeFits(false, Total(utxos, [a, b]), 2, 3)
  {
    var utxos: Utxos := map[a := Utxo(TWO63 + 5, asset, false), b := Utxo(TWO63, asset, false)];
    assert [a, b][1..] == [b] && [b][1..] == [];
    assert Total(utxos, [b]) == TWO63 && Total(utxos, [a, b]) == TWO63 + 5 + TWO63;
    forall ops | Spends(utxos, ops) ensures Total(utxos, ops) <= TWO64 + 5 {
      PairTotal(utxos, a, b, ops);
    }
  }

  lemma {:induction false} PairTotal(utxos: Utxos, a: OutPoint, b: OutPoint, ops: seq<OutPoint>)
    requires a != b && utxos.Keys == {a, b} && Spends(utxos, ops)
    ensures Total(utxos, ops) <= utxos[a].amount + utxos[b].amount
  {
    DistinctBound(ops, {a, b});
    if |ops| > 0 {
      var rest := ops[1..];
      assert Total(utxos, ops) == utxos[ops[0]].amount + Total(utxos, rest);
      if |rest| > 0 {
        assert rest[0] == ops[1] && rest[0] != ops[0] && rest[1..] == [];
        assert Total(utxos, rest) == utxos[ops[1]].amount;
      }
    }
  }

  /** `ptnBalance` is the balance that the ledger reports for the payer. */
  method CreateTokenTransaction(ledger: Ledger, from: Address, to: Address, token: Asset, amount: U64, fee: U64,
                                ptnBalance: U64, msg: Message, dataFee: U64)
    returns (r: Result<(Transaction, U64)>)
    ensures var cost := if msg.Data? then AddU64(fee, dataFee) else fee;
            var gas, coins := ledger.GasCoins(from), ledger.TokenCoins(from, token);
            && (r.Ok? <==> 0 < cost <= ptnBalance && ledger.readable && gas != map[] && coins != map[]
                           && Covers(gas, cost) && Covers(coins, amount))
            && (r.Ok? ==> r.value.1 == cost && r.value.0.messages == [msg]
                          && TokenBuilt(r.value.0, ledger, from, to, token, amount, r.value.1))
            && (Bounded(gas) && Bounded(coins) ==>
                  && (r.Ok? <==> 0 < cost <= ptnBalance && ledger.readable && gas != map[] && coins != map[]
                                 && Affordable(gas, cost) && Affordable(coins, amount))
                  && (r.Ok? ==> TokenTransfer(r.value.0, ledger, from, to, token, amount, r.value.1)))
    ensures r.Ok? ==>
              var gasIns, tokenIns := r.value.0.payments[0].inputs, r.value.0.payments[1].inputs;
              && Available(ledger, from, gasIns, ledger.gasToken) && Available(ledger, from, tokenIns, token.assetId)
              && (forall i :: 0 <= i < |tokenIns| ==> ledger.Owned(from)[tokenIns[i]].asset == token)
  {
    var cost := fee;
    if msg.Data? {
      cost := AddU64(cost, dataFee);
    }
    if cost == 0 {
      return Err("transaction fee cannot be 0");
    }
    if cost > ptnBalance {
      return Err("the ptn balance of the account is not enough");
    }
    var coins := GetAddrCoreUtxosToken(ledger, from, token);
    if coins.Err? {
      return Err(coins.error);
    }
    if |coins.value.0| == 0 {
      return Err("utxo is empty");
    }
    if |coins.value.1| == 0 {
      return Err("utxo of this Token is empty");
    }
    var gasPay, gasAsset := GetPayload(from, from, 0, cost, coins.value.0);
    if gasPay.Err? {
      return Err(gasPay.error);
    }
    var tokenPay, tokenAsset := GetPayload(from, to, amount, 0, coins.value.1);
    if tokenPay.Err? {
      return Err(tokenPay.error);
    }
    assert gasAsset.assetId == ledger.gasToken && tokenAsset == token;
    var tx := Transaction([gasPay.value, tokenPay.value], []);
    r := Ok((tx.(messages := [msg]), cost));
    TokenIsBuilt(r.value.0, ledger, from, to, token, amount, cost, gasAsset);
    CoinsAvailable(ledger, from, token, gasPay.value.inputs);
    CoinsAvailable(ledger, from, token, tokenPay.value.inputs);
  }
}
