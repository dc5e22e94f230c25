/** What the lines of a token flow say about the ledger: direction, amount and fee, in whatever order they come. */
module FlowLines {
  import opened Uint64
  import opened TokenLedger
  import opened TokenFlow

  // ----- One payment -----

  /** What the payment spends and what it pays, of whatever asset and to whomever, fits 64 bits. */
  ghost predicate Fits(query: Outs, p: Payment) {
    InputValues(query, p.Spent()) < TWO64 && Values(p.outputs) < TWO64
  }

  lemma {:induction false} PartOfInputs(v: View, query: Outs, ops: seq<OutPoint>)
    ensures InputPart(v, query, ops) <= InputValues(query, ops)
    decreases |ops|
  {
    if ops != [] {
      PartOfInputs(v, query, ops[..|ops| - 1]);
    }
  }

  lemma {:induction false} PartOfOutputs(v: View, outs: seq<TxOut>)
    ensures OutputPart(v, outs) <= Values(outs)
    decreases |outs|
  {
    if outs != [] {
      PartOfOutputs(v, outs[..|outs| - 1]);
    }
  }

  /** Where all sums fit, a payment that is seen whole in 64 bits is seen whole. */
  lemma {:induction false} SeenExactly(v: View, query: Outs, p: Payment)
    requires Plain(query) && Fits(query, p) && SeenWhole(v, query, p)
    ensures InputPart(v, query, SeenInputs(v, query, p.inputs)) < TWO64
    ensures OutputPart(v, SeenOutputs(v, p.outputs)) < TWO64
    ensures Delta(v, query, p) == Change(v, query, p)
  {
    SeenInputsPrefix(v, query, p.inputs);
    SeenOutputsPrefix(v, p.outputs);
    var n, m := |SeenInputs(v, query, p.inputs)|, |SeenOutputs(v, p.outputs)|;
    PartOfInputs(v, query, p.Spent());
    PartOfOutputs(v, p.outputs);
    InputPartSplit(v, query, p.Spent(), n);
    OutputPartSplit(v, p.outputs, m);
    assert p.Spent()[..n] == SeenInputs(v, query, p.inputs) && p.outputs[..m] == SeenOutputs(v, p.outputs);
    ChangeSplits(v, query, p);
    SmallMultiple(Unseen(v, query, p));
  }

  lemma {:induction false} SmallMultiple(x: int)
    requires -(TWO64 as int) < x < TWO64 && Wrap(x) == 0
    ensures x == 0
  {
    if x < 0 {
      WrapMultiple(x, 1);
      WrapSmall(x + TWO64);
    } else {
      WrapSmall(x);
    }
  }

  /** The line of a payment that takes what the address holds from `before` to `after`. */
  lemma {:induction false} LineTells(v: View, query: Outs, pre: U64, p: Payment, before: nat, after: nat, row: Row)
    requires Plain(query) && Fits(query, p) && SeenWhole(v, query, p)
    requires row in RowOf(v, query, pre, p) && after == before + Change(v, query, p)
    ensures row.payment == p.id && (row.outgoing <==> after < before)
    ensures row.amount == if after < before then before - after else after - before
  {
    SeenExactly(v, query, p);
    WrapSmall(InputPart(v, query, SeenInputs(v, query, p.inputs)));
    WrapSmall(OutputPart(v, SeenOutputs(v, p.outputs)));
  }

  // ----- The fee -----

  lemma {:induction false} NothingSeen(v: View, query: Outs, pre: U64, p: Payment, a: Asset)
    requires Plain(query) && OneAsset(query, p, a) && a != v.token
    ensures RowOf(v, query, pre, p) == []
  {
    if p.inputs != [] && p.inputs[0] in query {
      assert p.Spent()[0] == p.inputs[0];
    }
    assert SeenInputs(v, query, p.inputs) == [] && SeenOutputs(v, p.outputs) == [];
  }

  lemma {:induction false} AllIsSeen(v: View, query: Outs, p: Payment)
    requires Plain(query) && OneAsset(query, p, v.token) && !Crashes(v, query, p.inputs)
    ensures SeenInputs(v, query, p.inputs) == p.inputs == p.Spent() && SeenOutputs(v, p.outputs) == p.outputs
  {
    forall i | 0 <= i < |p.inputs| && p.inputs[i] in query ensures query[p.inputs[i]].asset == v.token {
      assert p.Spent()[i] == p.inputs[i];
    }
    SeenInputsAll(v, query, p.inputs);
    SeenOutputsAll(v, p.outputs);
    SeenInputsPrefix(v, query, p.inputs);
    forall i | 0 <= i < |p.inputs| ensures p.Spent()[i] == p.inputs[i] {
      assert p.inputs[i] in query;
    }
  }

  /** What all inputs of a payment are worth is at least what all its outputs are worth. */
  ghost predicate Pays(query: Outs, p: Payment) { Values(p.outputs) <= InputValues(query, p.Spent()) }

  /** The fee shown for a payment of one asset: what all inputs are worth less what all outputs are worth, except that it
      wraps around for a payment that pays out more than it takes in, and is 0 for one that takes in nothing. */
  ghost function FeeOf(query: Outs, p: Payment): int {
    var ins, outs := InputValues(query, p.Spent()) as int, Values(p.outputs);
    if Pays(query, p) then ins - outs else if ins == 0 then 0 else ins - outs + TWO64
  }

  lemma {:induction false} LineTellsFee(v: View, query: Outs, pre: U64, p: Payment, a: Asset, row: Row)
    requires Plain(query) && Fits(query, p) && !Crashes(v, query, p.inputs) && OneAsset(query, p, a)
    requires row in RowOf(v, query, pre, p)
    ensures row.fee == FeeOf(query, p)
    ensures Pays(query, p) ==> row.fee == InputValues(query, p.Spent()) - Values(p.outputs)
  {
    if a != v.token {
      NothingSeen(v, query, pre, p, a);
    } else {
      AllIsSeen(v, query, p);
      WrapSmall(InputValues(query, p.Spent()));
      WrapSmall(Values(p.outputs));
    }
  }

  /** A payment without inputs, of several assets too, is shown with no fee. */
  lemma {:induction false} MintHasNoFee(v: View, query: Outs, pre: U64, p: Payment, row: Row)
    requires p.inputs == [] && row in RowOf(v, query, pre, p)
    ensures row.fee == 0
  {
    assert SeenInputs(v, query, p.inputs) == [];
  }

  // ----- The lines of a chain -----

  /** The line is about payment `i` of the history: which way it takes what the address holds, by how much, and at what
      cost to whoever made it. */
  ghost predicate Tells(v: View, query: Outs, history: seq<Payment>, row: Row, i: nat) {
    && i < |history| && row.payment == history[i].id
    && var before, after, p := Held(v, history[..i]), Held(v, history[..i + 1]), history[i];
       && (row.outgoing <==> after < before)
       && row.amount == (if after < before then before - after else after - before)
       && (p.inputs == [] ==> row.fee == 0)
       && ((exists a :: OneAsset(query, p, a)) ==> row.fee == FeeOf(query, p))
  }

  ghost predicate TellsLedger(v: View, query: Outs, history: seq<Payment>, rows: seq<Row>) {
    forall j :: 0 <= j < |rows| ==> TellsAt(v, query, history, rows[j])
  }

  ghost predicate TellsAt(v: View, query: Outs, history: seq<Payment>, row: Row) {
    exists i: nat :: Tells(v, query, history, row, i)
  }

  lemma {:induction false} HistoryTells(v: View, query: Outs, history: seq<Payment>, i: nat, pre: U64, row: Row)
    requires Causal(history) && query == Known(After(history)) && i < |history| && SeenWhole(v, query, history[i])
    requires Fits(query, history[i]) && !Crashes(v, query, history[i].inputs) && row in RowOf(v, query, pre, history[i])
    ensures Tells(v, query, history, row, i)
  {
    HistoryPlain(history);
    HeldChanges(v, history, i);
    LineTells(v, query, pre, history[i], Held(v, history[..i]), Held(v, history[..i + 1]), row);
    if history[i].inputs == [] {
      MintHasNoFee(v, query, pre, history[i], row);
    }
    if a :| OneAsset(query, history[i], a) {
      LineTellsFee(v, query, pre, history[i], a, row);
    }
  }

  lemma {:induction false} ThinsAmong(skip: Payment -> bool, own: seq<Payment>, full: seq<Payment>, p: Payment)
    requires Thins(skip, own, full) && p in own
    ensures p in full
    decreases |full|
  {
    if full != [] {
      if own[0] == full[0] && Thins(skip, own[1..], full[1..]) {
        if p != own[0] {
          ThinsAmong(skip, own[1..], full[1..], p);
        }
      } else {
        ThinsAmong(skip, own, full[1..], p);
      }
    }
  }

  /** A payment of the address's transactions, in whatever order, is one of the chain. */
  lemma {:induction false} ChainIndex(v: View, query: Outs, txs: seq<Tx>, chain: seq<Tx>, own: seq<Tx>, order: seq<Tx>,
                                      p: Payment) returns (n: nat)
    requires Backed(v, query, txs, chain, own) && multiset(order) == multiset(txs) && p in Payments(order)
    ensures n < |Payments(chain)| && Payments(chain)[n] == p
  {
    PaymentsPermuted(order, own);
    assert p in multiset(Payments(own));
    OwnTxsThin(Unconcerned(v, query), own, chain);
    ThinsAmong(Unconcerned(v, query), Payments(own), Payments(chain), p);
    n :| n < |Payments(chain)| && Payments(chain)[n] == p;
  }

  ghost predicate AllFit(query: Outs, chain: seq<Tx>) {
    forall k :: 0 <= k < |Payments(chain)| ==> Fits(query, Payments(chain)[k])
  }

  lemma {:induction false} NoPaymentCrashes(v: View, query: Outs, txs: seq<Tx>, p: Payment)
    requires p in Payments(txs) && forall t :: t in txs ==> !TxCrashes(v, query, t)
    ensures !Crashes(v, query, p.inputs)
    decreases |txs|
  {
    if p in txs[0].payments {
      var k :| 0 <= k < |txs[0].payments| && txs[0].payments[k] == p;
      assert !TxCrashes(v, query, txs[0]);
    } else {
      NoPaymentCrashes(v, query, txs[1..], p);
    }
  }

  /** However an address's transactions are ordered, every line of their flow tells what the ledger says about its
      payment - provided that every payment is seen whole and its sums fit. */
  lemma {:induction false} LinesTellLedger(v: View, query: Outs, txs: seq<Tx>, chain: seq<Tx>, own: seq<Tx>, order: seq<Tx>)
    requires Backed(v, query, txs, chain, own) && multiset(order) == multiset(txs)
    requires AllSeen(v, query, chain) && AllFit(query, chain) && forall t :: t in order ==> !TxCrashes(v, query, t)
    ensures TellsLedger(v, query, Payments(chain), LinesOf(v, query, Payments(order)))
  {
    var rows, pays := LinesOf(v, query, Payments(order)), Payments(order);
    forall j | 0 <= j < |rows| ensures TellsAt(v, query, Payments(chain), rows[j]) {
      var k := RowIsReplay(v, query, pays, rows[j]);
      NoPaymentCrashes(v, query, order, pays[k]);
      var n := ChainIndex(v, query, txs, chain, own, order, pays[k]);
      assert SeenWholeAt(v, query, Payments(chain), n);
      HistoryTells(v, query, Payments(chain), n, ReplayFrom(NextOf(DeltaOf(v, query)), 0, pays[..k]), rows[j]);
    }
  }
}
