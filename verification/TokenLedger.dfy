/** The ledger of outputs behind a token flow. */
module TokenLedger {
  import opened Uint64
  import opened Wrappers
  import opened Distinctness
  import opened MapSum

  type Address = nat

  /** A token; the tokens of a non-fungible asset differ in their unique id only. */
  datatype Asset = Asset(assetId: nat, uniqueId: nat)

  /** A payment message: the hash of its transaction and its index in it. */
  datatype Id = Id(tx: nat, msg: nat)

  /** An input names an output by the hash of its transaction, or, as contract paybacks do, by the special hash that
      stands for the transaction of the input itself. */
  datatype OutPoint = OutPoint(payment: Id, index: nat) | SelfPoint(msg: nat, index: nat)

  datatype TxOut = TxOut(value: U64, to: Address, asset: Asset)

  type Outs = map<OutPoint, TxOut>

  datatype Payment = Payment(id: Id, inputs: seq<OutPoint>, outputs: seq<TxOut>) {
    function Resolve(op: OutPoint): OutPoint {
      if op.SelfPoint? then OutPoint(Id(id.tx, op.msg), op.index) else op
    }

    /** The outputs that the payment spends. */
    function Spent(): seq<OutPoint> { seq(|inputs|, i requires 0 <= i < |inputs| => Resolve(inputs[i])) }
  }

  /** The owner and token whose flow is shown. */
  datatype View = View(addr: Address, token: Asset) {
    function Part(o: TxOut): nat { if o.to == addr && o.asset == token then o.value else 0 }
  }

  /** Unspent and spent outputs. */
  datatype Ledger = Ledger(utxos: Outs, stxos: Outs)

  const EMPTY := Ledger(map[], map[])

  /** Look an output up, spent or not, under the name that an input has for it. */
  method GetTxOutput(l: Ledger, op: OutPoint) returns (r: Option<TxOut>)
    ensures r == if op in Known(l) then Some(Known(l)[op]) else None
  {
    if op in l.utxos {
      return Some(l.utxos[op]);
    }
    if op !in l.stxos {
      return None;
    }
    r := Some(l.stxos[op]);
  }

  ghost function Known(l: Ledger): Outs { l.stxos + l.utxos }

  ghost function Created(p: Payment, n: nat): Outs
    requires n <= |p.outputs|
  {
    map i | 0 <= i < n :: OutPoint(p.id, i) := p.outputs[i]
  }

  ghost function Inputs(p: Payment): set<OutPoint> { set op | op in p.Spent() }

  ghost function Step(l: Ledger, p: Payment): Ledger {
    Ledger(l.utxos - Inputs(p) + Created(p, |p.outputs|),
           l.stxos + map op | op in Inputs(p) && op in l.utxos :: l.utxos[op])
  }

  /** The payment spends different unspent outputs and its id is new.  It may move several assets. */
  ghost predicate Valid(l: Ledger, p: Payment) {
    && Distinct(p.Spent())
    && (forall i :: 0 <= i < |p.inputs| ==> p.Spent()[i] in l.utxos)
    && (forall op :: op in l.utxos || op in l.stxos ==> op.OutPoint? && op.payment != p.id)
  }

  ghost function After(history: seq<Payment>): Ledger {
    if history == [] then EMPTY else Step(After(history[..|history| - 1]), history[|history| - 1])
  }

  ghost predicate ValidAt(history: seq<Payment>, i: nat) {
    i < |history| ==> Valid(After(history[..i]), history[i])
  }

  /** A complete history in causal order. */
  ghost predicate Causal(history: seq<Payment>) {
    forall i: nat :: ValidAt(history, i)
  }

  // ----- Holdings -----

  ghost function Parts(v: View, outs: Outs): map<OutPoint, nat> { map op | op in outs :: v.Part(outs[op]) }

  /** The sum of the address's unspent outputs of the token. */
  ghost function Holdings(v: View, outs: Outs): nat { Total(Parts(v, outs)) }

  /** What the address holds of the token after a history. */
  ghost function Held(v: View, history: seq<Payment>): nat { Holdings(v, After(history).utxos) }

  ghost function InputPart(v: View, query: Outs, ops: seq<OutPoint>): nat {
    if ops == [] then 0
    else InputPart(v, query, ops[..|ops| - 1]) + if ops[|ops| - 1] in query then v.Part(query[ops[|ops| - 1]]) else 0
  }

  ghost function OutputPart(v: View, outs: seq<TxOut>): nat {
    if outs == [] then 0 else OutputPart(v, outs[..|outs| - 1]) + v.Part(outs[|outs| - 1])
  }

  lemma {:induction false} InputPartOne(v: View, query: Outs, op: OutPoint)
    requires op in query
    ensures InputPart(v, query, [op]) == v.Part(query[op])
  {
    assert [op][..0] == [];
  }

  lemma {:induction false} OutputPartOne(v: View, o: TxOut)
    ensures OutputPart(v, [o]) == v.Part(o)
  {
    assert [o][..0] == [];
  }

  lemma {:induction false} InputPartSplit(v: View, query: Outs, ops: seq<OutPoint>, i: nat)
    requires i <= |ops|
    ensures InputPart(v, query, ops) == InputPart(v, query, ops[..i]) + InputPart(v, query, ops[i..])
    decreases |ops|
  {
    if i == |ops| {
      assert ops[..i] == ops && ops[i..] == [];
    } else {
      var n := |ops| - 1;
      InputPartSplit(v, query, ops[..n], i);
      assert ops[..n][..i] == ops[..i] && ops[i..][..n - i] == ops[..n][i..];
    }
  }

  lemma {:induction false} OutputPartSplit(v: View, outs: seq<TxOut>, i: nat)
    requires i <= |outs|
    ensures OutputPart(v, outs) == OutputPart(v, outs[..i]) + OutputPart(v, outs[i..])
    decreases |outs|
  {
    if i == |outs| {
      assert outs[..i] == outs && outs[i..] == [];
    } else {
      var n := |outs| - 1;
      OutputPartSplit(v, outs[..n], i);
      assert outs[..n][..i] == outs[..i] && outs[i..][..n - i] == outs[..n][i..];
    }
  }

  lemma {:induction false} InputPartNone(v: View, query: Outs, ops: seq<OutPoint>)
    requires forall i :: 0 <= i < |ops| && ops[i] in query ==> v.Part(query[ops[i]]) == 0
    ensures InputPart(v, query, ops) == 0
    decreases |ops|
  {
    if ops != [] {
      InputPartNone(v, query, ops[..|ops| - 1]);
    }
  }

  lemma {:induction false} OutputPartNone(v: View, outs: seq<TxOut>)
    requires forall i :: 0 <= i < |outs| ==> v.Part(outs[i]) == 0
    ensures OutputPart(v, outs) == 0
    decreases |outs|
  {
    if outs != [] {
      OutputPartNone(v, outs[..|outs| - 1]);
    }
  }

  lemma {:induction false} HoldingsRemove(v: View, outs: Outs, ops: seq<OutPoint>)
    requires Distinct(ops) && forall i :: 0 <= i < |ops| ==> ops[i] in outs
    ensures Holdings(v, outs - set op | op in ops) + InputPart(v, outs, ops) == Holdings(v, outs)
    decreases |ops|
  {
    if ops == [] {
      assert outs - (set op | op in ops) == outs;
    } else {
      var n := |ops| - 1;
      var init := ops[..n];
      HoldingsRemove(v, outs, init);
      var left := outs - set op | op in init;
      assert outs - (set op | op in ops) == left - {ops[n]};
      HoldingsDrop(v, left, ops[n]);
    }
  }

  lemma {:induction false} HoldingsDrop(v: View, outs: Outs, op: OutPoint)
    requires op in outs
    ensures Holdings(v, outs) == v.Part(outs[op]) + Holdings(v, outs - {op})
  {
    TotalSplit(Parts(v, outs), op);
    assert Parts(v, outs) - {op} == Parts(v, outs - {op});
  }

  lemma {:induction false} HoldingsPut(v: View, outs: Outs, op: OutPoint, o: TxOut)
    requires op !in outs
    ensures Holdings(v, outs[op := o]) == Holdings(v, outs) + v.Part(o)
  {
    TotalUpdate(Parts(v, outs), op, v.Part(o));
    assert Parts(v, outs[op := o]) == Parts(v, outs)[op := v.Part(o)];
  }

  lemma {:induction false} CreatedStep(outs: Outs, p: Payment, n: nat)
    requires n < |p.outputs|
    ensures outs + Created(p, n + 1) == (outs + Created(p, n))[OutPoint(p.id, n) := p.outputs[n]]
  {
  }

  lemma {:induction false} HoldingsAdd(v: View, outs: Outs, p: Payment, n: nat)
    requires n <= |p.outputs| && forall op :: op in outs ==> op.OutPoint? && op.payment != p.id
    ensures Holdings(v, outs + Created(p, n)) == Holdings(v, outs) + OutputPart(v, p.outputs[..n])
    decreases n
  {
    if n == 0 {
      assert outs + Created(p, 0) == outs;
    } else {
      HoldingsAdd(v, outs, p, n - 1);
      CreatedStep(outs, p, n - 1);
      HoldingsPut(v, outs + Created(p, n - 1), OutPoint(p.id, n - 1), p.outputs[n - 1]);
      assert p.outputs[..n][..n - 1] == p.outputs[..n - 1];
    }
  }

  /** A payment changes what an address holds of a token by all its outputs less all its inputs. */
  lemma {:induction false} StepHoldings(v: View, l: Ledger, p: Payment)
    requires Valid(l, p)
    ensures Holdings(v, Step(l, p).utxos) ==
              Holdings(v, l.utxos) - InputPart(v, l.utxos, p.Spent()) + OutputPart(v, p.outputs)
  {
    HoldingsRemove(v, l.utxos, p.Spent());
    HoldingsAdd(v, l.utxos - Inputs(p), p, |p.outputs|);
    assert p.outputs[..|p.outputs|] == p.outputs;
  }

  // ----- What a history knows -----

  ghost predicate Extends(big: Outs, small: Outs) {
    forall op :: op in small ==> op in big && big[op] == small[op]
  }

  lemma {:induction false} InputPartExtends(v: View, big: Outs, small: Outs, ops: seq<OutPoint>)
    requires Extends(big, small) && forall i :: 0 <= i < |ops| ==> ops[i] in small
    ensures InputPart(v, big, ops) == InputPart(v, small, ops)
    decreases |ops|
  {
    if ops != [] {
      InputPartExtends(v, big, small, ops[..|ops| - 1]);
      assert ops[|ops| - 1] in small;
    }
  }

  /** No output is both unspent and spent, and none is stored under the special hash. */
  ghost predicate WellKept(l: Ledger) {
    && (forall op :: op in l.utxos ==> op !in l.stxos)
    && (forall op :: op in Known(l) ==> op.OutPoint?)
  }

  lemma {:induction false} StepExtends(l: Ledger, p: Payment)
    requires Valid(l, p) && WellKept(l)
    ensures Extends(Known(Step(l, p)), Known(l)) && WellKept(Step(l, p))
  {
  }

  lemma {:induction false} PrefixCausal(history: seq<Payment>, i: nat)
    requires Causal(history) && i <= |history|
    ensures Causal(history[..i])
  {
    forall k: nat ensures ValidAt(history[..i], k) {
      assert ValidAt(history, k);
      if k < i {
        assert history[..i][..k] == history[..k];
      }
    }
  }

  lemma {:induction false} AfterWellKept(history: seq<Payment>)
    requires Causal(history)
    ensures WellKept(After(history))
    decreases |history|
  {
    if history != [] {
      var n := |history| - 1;
      PrefixCausal(history, n);
      AfterWellKept(history[..n]);
      assert ValidAt(history, n);
      StepExtends(After(history[..n]), history[n]);
    }
  }

  /** Every output ever created can be looked up for ever, unspent or spent. */
  lemma {:induction false} KnownForEver(history: seq<Payment>, i: nat)
    requires Causal(history) && i <= |history|
    ensures Extends(Known(After(history)), Known(After(history[..i])))
    decreases |history|
  {
    if i == |history| {
      assert history[..i] == history;
    } else {
      var n := |history| - 1;
      PrefixCausal(history, n);
      KnownForEver(history[..n], i);
      assert history[..n][..i] == history[..i];
      AfterWellKept(history[..n]);
      assert ValidAt(history, n);
      StepExtends(After(history[..n]), history[n]);
    }
  }

  lemma {:induction false} UtxosKnown(history: seq<Payment>, i: nat)
    requires Causal(history) && i <= |history|
    ensures Extends(Known(After(history)), After(history[..i]).utxos)
  {
    PrefixCausal(history, i);
    AfterWellKept(history[..i]);
    KnownForEver(history, i);
  }

  /** Everything that a complete history spends is known at its end, though not under the special hash. */
  lemma {:induction false} HistoryFound(history: seq<Payment>, i: nat, k: nat)
    requires Causal(history) && i < |history| && k < |history[i].inputs|
    ensures history[i].Spent()[k] in Known(After(history))
    ensures history[i].inputs[k] in Known(After(history)) <==> history[i].inputs[k].OutPoint?
  {
    assert ValidAt(history, i);
    UtxosKnown(history, i);
    AfterWellKept(history);
    assert history[i].Spent()[k] in After(history[..i]).utxos;
  }

  lemma {:induction false} NothingHeld(v: View)
    ensures Held(v, []) == 0
  {
    assert Parts(v, map[]) == map[];
  }

  /** What a payment does to what an address holds of a token. */
  ghost function Change(v: View, query: Outs, p: Payment): int {
    OutputPart(v, p.outputs) as int - InputPart(v, query, p.Spent())
  }

  lemma {:induction false} HeldChanges(v: View, history: seq<Payment>, i: nat)
    requires Causal(history) && i < |history|
    ensures Held(v, history[..i + 1]) == Held(v, history[..i]) + Change(v, Known(After(history)), history[i])
  {
    var l, p := After(history[..i]), history[i];
    assert history[..i + 1][..i] == history[..i];
    assert ValidAt(history, i);
    StepHoldings(v, l, p);
    UtxosKnown(history, i);
    InputPartExtends(v, Known(After(history)), l.utxos, p.Spent());
  }
}
