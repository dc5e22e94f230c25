/** The token flow of an address: a running balance over its payments, against the ledger of unspent outputs. */
module TokenFlow {
  import opened Uint64
  import opened Wrappers
  import opened SeqSum
  import opened Sorting
  import opened TokenLedger

  // ----- One payment in the flow -----

  /** The inputs and outputs that the loops look at: they stop at the first of another asset. */
  ghost function SeenInputs(v: View, query: Outs, ops: seq<OutPoint>): seq<OutPoint> {
    if ops == [] || ops[0] !in query || query[ops[0]].asset != v.token then []
    else [ops[0]] + SeenInputs(v, query, ops[1..])
  }

  ghost function SeenOutputs(v: View, outs: seq<TxOut>): seq<TxOut> {
    if outs == [] || outs[0].asset != v.token then [] else [outs[0]] + SeenOutputs(v, outs[1..])
  }

  /** What a payment does to the running balance. */
  ghost function Delta(v: View, query: Outs, p: Payment): int {
    OutputPart(v, SeenOutputs(v, p.outputs)) as int - InputPart(v, query, SeenInputs(v, query, p.inputs))
  }

  lemma {:induction false} SeenInputsPrefix(v: View, query: Outs, ops: seq<OutPoint>)
    ensures SeenInputs(v, query, ops) <= ops
    ensures forall i :: 0 <= i < |SeenInputs(v, query, ops)| ==> ops[i] in query && query[ops[i]].asset == v.token
    decreases |ops|
  {
    if ops != [] && ops[0] in query && query[ops[0]].asset == v.token {
      SeenInputsPrefix(v, query, ops[1..]);
    }
  }

  lemma {:induction false} SeenOutputsPrefix(v: View, outs: seq<TxOut>)
    ensures SeenOutputs(v, outs) <= outs
    decreases |outs|
  {
    if outs != [] {
      SeenOutputsPrefix(v, outs[1..]);
    }
  }

  /** What the address gets and gives of the token behind the first output and input of another asset. */
  ghost function Unseen(v: View, query: Outs, p: Payment): int {
    SeenInputsPrefix(v, query, p.inputs);
    SeenOutputsPrefix(v, p.outputs);
    OutputPart(v, p.outputs[|SeenOutputs(v, p.outputs)|..]) as int
    - InputPart(v, query, p.Spent()[|SeenInputs(v, query, p.inputs)|..])
  }

  /** Nothing is stored under the special hash. */
  ghost predicate Plain(query: Outs) { forall op :: op in query ==> op.OutPoint? }

  /** The flow shows what a payment does, except for what it does not look at. */
  lemma {:induction false} ChangeSplits(v: View, query: Outs, p: Payment)
    requires Plain(query)
    ensures Change(v, query, p) == Delta(v, query, p) + Unseen(v, query, p)
  {
    SeenInputsPrefix(v, query, p.inputs);
    SeenOutputsPrefix(v, p.outputs);
    var ins, outs := SeenInputs(v, query, p.inputs), SeenOutputs(v, p.outputs);
    InputPartSplit(v, query, p.Spent(), |ins|);
    OutputPartSplit(v, p.outputs, |outs|);
    assert p.Spent()[..|ins|] == ins;
    assert p.outputs[..|outs|] == outs;
  }

  /** The loop over the inputs reads through a nil pointer. */
  ghost predicate Crashes(v: View, query: Outs, ops: seq<OutPoint>) {
    ops != [] && (ops[0] !in query || (query[ops[0]].asset == v.token && Crashes(v, query, ops[1..])))
  }

  ghost predicate StuckAt(v: View, query: Outs, ops: seq<OutPoint>, i: nat) {
    && i < |ops| && ops[i] !in query
    && forall j :: 0 <= j < i ==> ops[j] in query && query[ops[j]].asset == v.token
  }

  /** It does so if and only if an input that cannot be looked up comes before the first input of another asset. */
  lemma {:induction false} CrashIff(v: View, query: Outs, ops: seq<OutPoint>)
    ensures Crashes(v, query, ops) <==> exists i: nat :: StuckAt(v, query, ops, i)
    decreases |ops|
  {
    if ops != [] {
      CrashIff(v, query, ops[1..]);
      if ops[0] !in query {
        assert StuckAt(v, query, ops, 0);
      }
      if i: nat :| StuckAt(v, query, ops[1..], i) {
        if ops[0] in query && query[ops[0]].asset == v.token {
          assert StuckAt(v, query, ops, i + 1);
        }
      }
      if i: nat :| StuckAt(v, query, ops, i) {
        if i > 0 {
          assert StuckAt(v, query, ops[1..], i - 1);
        }
      }
    }
  }

  // ----- Replaying payments -----

  /** What each payment does to a balance. */
  type Effect = Payment -> int

  ghost function DeltaOf(v: View, query: Outs): Effect { p => Delta(v, query, p) }

  ghost function UnseenOf(v: View, query: Outs): Effect { p => Unseen(v, query, p) }

  ghost function ChangeOf(v: View, query: Outs): Effect { p => Change(v, query, p) }

  ghost function Replay(d: Effect, pays: seq<Payment>): U64 {
    if pays == [] then 0
    else Wrap(Replay(d, pays[..|pays| - 1]) + d(pays[|pays| - 1]))
  }

  lemma {:induction false} ReplayIsSum(d: Effect, pays: seq<Payment>)
    ensures Replay(d, pays) == Wrap(Sum(d, pays))
    decreases |pays|
  {
    if pays != [] {
      var n := |pays| - 1;
      ReplayIsSum(d, pays[..n]);
      SumSplit(d, pays, n);
      assert pays[n..][1..] == [];
      assert Sum(d, pays[n..]) == d(pays[n]);
      WrapAdd(Sum(d, pays[..n]), d(pays[n]));
    }
  }

  /** The final balance does not depend on the order of the replay. */
  lemma {:induction false} OrderIrrelevant(d: Effect, a: seq<Payment>, b: seq<Payment>)
    requires multiset(a) == multiset(b)
    ensures Replay(d, a) == Replay(d, b)
  {
    ReplayIsSum(d, a);
    ReplayIsSum(d, b);
    SumPermuted(d, a, b);
  }

  lemma {:induction false} OwnPayments(d: Effect, history: seq<Payment>, own: seq<Payment>, others: seq<Payment>)
    requires multiset(own + others) == multiset(history)
    requires forall i :: 0 <= i < |others| ==> d(others[i]) == 0
    ensures Replay(d, own) == Replay(d, history)
  {
    ReplayIsSum(d, history);
    ReplayIsSum(d, own);
    SumPermuted(d, own + others, history);
    SumSplit(d, own + others, |own|);
    assert (own + others)[..|own|] == own && (own + others)[|own|..] == others;
    SumZero(d, others);
  }

  // ----- The flow against the ledger -----

  ghost predicate RightAt(v: View, query: Outs, history: seq<Payment>, i: nat) {
    i <= |history| ==> Replay(DeltaOf(v, query), history[..i]) == Wrap(Held(v, history[..i]))
  }

  /** The payment has nothing of the token for the address behind the first output or input of another asset, or that
      nets to 0 in 64 bits. */
  ghost predicate SeenWhole(v: View, query: Outs, p: Payment) { Wrap(Unseen(v, query, p)) == 0 }

  ghost predicate SeenWholeAt(v: View, query: Outs, history: seq<Payment>, i: nat) {
    i < |history| ==> SeenWhole(v, query, history[i])
  }

  lemma {:induction false} ReplayNext(d: Effect, pays: seq<Payment>, i: nat, held: int, unseen: int)
    requires i < |pays| && Replay(d, pays[..i]) == Wrap(held)
    ensures Replay(d, pays[..i + 1]) == Wrap(held + d(pays[i]) + unseen) <==> Wrap(unseen) == 0
  {
    assert pays[..i + 1][..i] == pays[..i];
    WrapAdd(held, d(pays[i]));
    WrapSame(held + d(pays[i]), unseen);
  }

  lemma {:induction false} HistoryPlain(history: seq<Payment>)
    requires Causal(history)
    ensures Plain(Known(After(history)))
  {
    AfterWellKept(history);
  }

  lemma {:induction false} HeldStep(v: View, query: Outs, history: seq<Payment>, i: nat)
    requires Causal(history) && query == Known(After(history)) && i < |history|
    ensures Held(v, history[..i + 1]) ==
              Held(v, history[..i]) + DeltaOf(v, query)(history[i]) + UnseenOf(v, query)(history[i])
  {
    HeldChanges(v, history, i);
    HistoryPlain(history);
    ChangeSplits(v, query, history[i]);
  }

  lemma {:induction false} RightStep(d: Effect, e: Effect, history: seq<Payment>, i: nat, held: int, held': int)
    requires i < |history| && Replay(d, history[..i]) == Wrap(held) && held' == held + d(history[i]) + e(history[i])
    ensures Replay(d, history[..i + 1]) == Wrap(held') <==> Wrap(e(history[i])) == 0
  {
    ReplayNext(d, history, i, held, e(history[i]));
  }

  /** A running balance that is right stays right if and only if the payment is seen whole. */
  lemma {:induction false} RightNext(v: View, query: Outs, history: seq<Payment>, i: nat)
    requires Causal(history) && query == Known(After(history)) && i < |history| && RightAt(v, query, history, i)
    ensures RightAt(v, query, history, i + 1) <==> SeenWholeAt(v, query, history, i)
  {
    HeldStep(v, query, history, i);
    RightStep(DeltaOf(v, query), UnseenOf(v, query), history, i, Held(v, history[..i]), Held(v, history[..i + 1]));
  }

  lemma {:induction false} RightUpTo(v: View, query: Outs, history: seq<Payment>, i: nat)
    requires Causal(history) && query == Known(After(history)) && i <= |history|
    requires forall k: nat :: SeenWholeAt(v, query, history, k)
    ensures RightAt(v, query, history, i)
    decreases i
  {
    if i == 0 {
      assert history[..0] == [];
      NothingHeld(v);
    } else {
      RightUpTo(v, query, history, i - 1);
      RightNext(v, query, history, i - 1);
      assert SeenWholeAt(v, query, history, i - 1);
    }
  }

  /** In causal order, every running balance is the ledger balance at that point - in 64 bits - if and only if every
      payment is seen whole. */
  lemma {:induction false} FlowIsLedgerIff(v: View, query: Outs, history: seq<Payment>)
    requires Causal(history) && query == Known(After(history))
    ensures (forall i: nat :: RightAt(v, query, history, i)) <==> (forall k: nat :: SeenWholeAt(v, query, history, k))
  {
    if forall k: nat :: SeenWholeAt(v, query, history, k) {
      forall i: nat ensures RightAt(v, query, history, i) {
        if i <= |history| {
          RightUpTo(v, query, history, i);
        }
      }
    }
    if forall i: nat :: RightAt(v, query, history, i) {
      forall k: nat ensures SeenWholeAt(v, query, history, k) {
        if k < |history| {
          assert RightAt(v, query, history, k) && RightAt(v, query, history, k + 1);
          RightNext(v, query, history, k);
        }
      }
    }
  }

  lemma {:induction false} HeldIsSum(v: View, query: Outs, history: seq<Payment>, i: nat)
    requires Causal(history) && query == Known(After(history)) && i <= |history|
    ensures Held(v, history[..i]) == Sum(ChangeOf(v, query), history[..i])
    decreases i
  {
    if i == 0 {
      assert history[..0] == [];
      NothingHeld(v);
    } else {
      HeldIsSum(v, query, history, i - 1);
      HeldChanges(v, history, i - 1);
      var pays := history[..i];
      SumSplit(ChangeOf(v, query), pays, i - 1);
      assert pays[..i - 1] == history[..i - 1] && pays[i - 1..] == [history[i - 1]];
      assert [history[i - 1]][1..] == [];
    }
  }

  lemma {:induction false} HeldSplits(v: View, query: Outs, history: seq<Payment>)
    requires Causal(history) && query == Known(After(history))
    ensures Held(v, history) == Sum(DeltaOf(v, query), history) + Sum(UnseenOf(v, query), history)
  {
    HistoryPlain(history);
    forall p ensures ChangeOf(v, query)(p) == DeltaOf(v, query)(p) + UnseenOf(v, query)(p) {
      ChangeSplits(v, query, p);
    }
    SumAdd(ChangeOf(v, query), DeltaOf(v, query), UnseenOf(v, query), history);
    HeldIsSum(v, query, history, |history|);
    assert history[..|history|] == history;
  }

  lemma {:induction false} ReplaySplits(d: Effect, e: Effect, own: seq<Payment>, others: seq<Payment>, history: seq<Payment>, held: int)
    requires multiset(own + others) == multiset(history) && held == Sum(d, history) + Sum(e, history)
    requires forall i :: 0 <= i < |others| ==> d(others[i]) == 0
    ensures Replay(d, own) == Wrap(held) <==> Wrap(Sum(e, history)) == 0
  {
    OwnPayments(d, history, own, others);
    ReplayIsSum(d, history);
    WrapSame(Sum(d, history), Sum(e, history));
  }

  /** In whatever order its payments are replayed, and with payments that do not touch it left out, the flow of an
      address ends at the sum of its unspent outputs if and only if what it does not see nets to 0 in 64 bits. */
  lemma {:induction false} FlowEndsAtLedgerIff(v: View, query: Outs, history: seq<Payment>, own: seq<Payment>, others: seq<Payment>)
    requires Causal(history) && query == Known(After(history)) && multiset(own + others) == multiset(history)
    requires forall i :: 0 <= i < |others| ==> DeltaOf(v, query)(others[i]) == 0
    ensures Replay(DeltaOf(v, query), own) == Wrap(Held(v, history)) <==> Wrap(Sum(UnseenOf(v, query), history)) == 0
  {
    HeldSplits(v, query, history);
    ReplaySplits(DeltaOf(v, query), UnseenOf(v, query), own, others, history, Held(v, history));
  }

  // ----- Which payments are not seen whole -----

  ghost predicate OneAsset(query: Outs, p: Payment, a: Asset) {
    && (forall i :: 0 <= i < |p.inputs| ==> p.Spent()[i] in query && query[p.Spent()[i]].asset == a)
    && (forall i :: 0 <= i < |p.outputs| ==> p.outputs[i].asset == a)
  }

  /** What the validation of a payment asks for: with inputs, one asset; without, one asset id, so that the tokens of a
      non-fungible asset can be minted together. */
  ghost predicate Validated(query: Outs, p: Payment) {
    if p.inputs == [] then forall i, j :: 0 <= i < j < |p.outputs| ==> p.outputs[i].asset.assetId == p.outputs[j].asset.assetId
    else exists a :: OneAsset(query, p, a)
  }

  lemma {:induction false} SeenInputsAll(v: View, query: Outs, ops: seq<OutPoint>)
    requires !Crashes(v, query, ops) && forall i :: 0 <= i < |ops| && ops[i] in query ==> query[ops[i]].asset == v.token
    ensures SeenInputs(v, query, ops) == ops
    decreases |ops|
  {
    if ops != [] {
      SeenInputsAll(v, query, ops[1..]);
    }
  }

  lemma {:induction false} SeenOutputsAll(v: View, outs: seq<TxOut>)
    requires forall i :: 0 <= i < |outs| ==> outs[i].asset == v.token
    ensures SeenOutputs(v, outs) == outs
    decreases |outs|
  {
    if outs != [] {
      SeenOutputsAll(v, outs[1..]);
    }
  }

  /** For a payment in one asset, stopping at the first input or output of another asset loses nothing. */
  lemma {:induction false} OneAssetIsSeen(v: View, query: Outs, p: Payment, a: Asset)
    requires Plain(query) && OneAsset(query, p, a) && !Crashes(v, query, p.inputs)
    ensures Unseen(v, query, p) == 0
  {
    SeenInputsPrefix(v, query, p.inputs);
    SeenOutputsPrefix(v, p.outputs);
    var n, m := |SeenInputs(v, query, p.inputs)|, |SeenOutputs(v, p.outputs)|;
    if a == v.token {
      forall i | 0 <= i < |p.inputs| && p.inputs[i] in query ensures query[p.inputs[i]].asset == v.token {
        assert p.Spent()[i] == p.inputs[i];
      }
      SeenInputsAll(v, query, p.inputs);
      SeenOutputsAll(v, p.outputs);
      assert p.Spent()[n..] == [] && p.outputs[m..] == [];
    } else {
      InputPartNone(v, query, p.Spent()[n..]);
      OutputPartNone(v, p.outputs[m..]);
    }
  }

  /** Of validated payments only mints of several tokens are not seen whole, as long as nothing crashes. */
  lemma {:induction false} OnlyMintsHide(v: View, query: Outs, p: Payment)
    requires Plain(query) && Validated(query, p) && !Crashes(v, query, p.inputs) && !SeenWhole(v, query, p)
    ensures p.inputs == [] && Unseen(v, query, p) > 0
  {
    SeenOutputsPrefix(v, p.outputs);
    if p.inputs != [] {
      var a :| OneAsset(query, p, a);
      OneAssetIsSeen(v, query, p, a);
    } else {
      assert p.Spent() == [];
    }
  }

  lemma {:induction false} CausalOne(p: Payment)
    requires p.inputs == []
    ensures Causal([p]) && After([p]) == Step(EMPTY, p)
  {
    assert [p][..0] == [];
    assert After([p]) == Step(After([]), p);
    forall i: nat ensures ValidAt([p], i) {
    }
  }

  lemma {:induction false} HeldOne(v: View, p: Payment)
    requires p.inputs == []
    ensures Held(v, [p]) == OutputPart(v, p.outputs)
  {
    CausalOne(p);
    NothingHeld(v);
    assert [p][..1] == [p] && [p][..0] == [] && p.Spent() == [];
    HeldChanges(v, [p], 0);
  }

  lemma {:induction false} HiddenMint(v: View, query: Outs, p: Payment, first: TxOut, second: TxOut)
    requires p.inputs == [] && p.outputs == [first, second] && first.asset != v.token
    ensures OutputPart(v, p.outputs) == v.Part(second) && Delta(v, query, p) == 0 && RowOf(v, query, 0, p) == []
  {
    var outs := [first, second];
    assert outs[..1] == [first] && [first][..0] == [];
    assert OutputPart(v, [first]) == 0;
  }

  /** The second of two tokens that are minted together: the address holds it, and its flow has no line. */
  lemma {:induction false} MintHides() returns (v: View, query: Outs, p: Payment)
    ensures Causal([p]) && query == Known(After([p])) && Validated(query, p) && !Crashes(v, query, p.inputs)
    ensures Held(v, [p]) == 1 && Delta(v, query, p) == 0 && RowOf(v, query, 0, p) == []
  {
    var first, second := TxOut(1, 1, Asset(5, 1)), TxOut(1, 1, Asset(5, 2));
    v, p := View(1, second.asset), Payment(Id(0, 0), [], [first, second]);
    CausalOne(p);
    query := Known(After([p]));
    HeldOne(v, p);
    HiddenMint(v, query, p, first, second);
  }

  // ----- The conversion of a transaction, and the whole flow -----

  /** One line of the flow, without its address lists. */
  datatype Row = Row(payment: Id, outgoing: bool, amount: U64, fee: U64, balance: U64)

  datatype Tx = Tx(timestamp: nat, payments: seq<Payment>)

  ghost function InputValues(query: Outs, ops: seq<OutPoint>): nat {
    if ops == [] then 0
    else InputValues(query, ops[..|ops| - 1]) + if ops[|ops| - 1] in query then query[ops[|ops| - 1]].value else 0
  }

  ghost function Values(outs: seq<TxOut>): nat {
    if outs == [] then 0 else Values(outs[..|outs| - 1]) + outs[|outs| - 1].value
  }

  lemma {:induction false} InputStep(v: View, query: Outs, own: seq<OutPoint>, op: OutPoint)
    requires op in query
    ensures Wrap(InputValues(query, own + [op])) == AddU64(Wrap(InputValues(query, own)), query[op].value)
    ensures Wrap(InputPart(v, query, own + [op])) ==
              AddU64(Wrap(InputPart(v, query, own)), v.Part(query[op]))
  {
    assert (own + [op])[..|own|] == own;
    AddWrap(InputPart(v, query, own), v.Part(query[op]));
    AddWrap(InputValues(query, own), query[op].value);
  }

  lemma {:induction false} OutputStep(v: View, own: seq<TxOut>, o: TxOut)
    ensures Wrap(Values(own + [o])) == AddU64(Wrap(Values(own)), o.value)
    ensures Wrap(OutputPart(v, own + [o])) == AddU64(Wrap(OutputPart(v, own)), v.Part(o))
  {
    assert (own + [o])[..|own|] == own;
    AddWrap(OutputPart(v, own), v.Part(o));
    AddWrap(Values(own), o.value);
  }

  lemma {:induction false} SeenInputsStep(v: View, query: Outs, ops: seq<OutPoint>, i: nat, own: seq<OutPoint>)
    requires i < |ops| && ops[i] in query
    ensures own + SeenInputs(v, query, ops[i..]) ==
              if query[ops[i]].asset == v.token then own + [ops[i]] + SeenInputs(v, query, ops[i + 1..]) else own
    ensures Crashes(v, query, ops[i..]) <==> query[ops[i]].asset == v.token && Crashes(v, query, ops[i + 1..])
  {
    assert ops[i..][1..] == ops[i + 1..];
  }

  /** What the loop over the inputs adds up: it stops at the first input of another asset. */
  method ScanInputs(v: View, query: Outs, ops: seq<OutPoint>)
    returns (crashed: bool, spent: U64, total: U64)
    ensures crashed <==> Crashes(v, query, ops)
    ensures !crashed ==>
              var own := SeenInputs(v, query, ops);
              spent == Wrap(InputPart(v, query, own)) && total == Wrap(InputValues(query, own))
  {
    crashed, spent, total := false, 0, 0;
    ghost var own: seq<OutPoint> := [];
    var i := 0;
    while i < |ops|
      invariant 0 <= i <= |ops|
      invariant SeenInputs(v, query, ops) == own + SeenInputs(v, query, ops[i..])
      invariant Crashes(v, query, ops) <==> Crashes(v, query, ops[i..])
      invariant spent == Wrap(InputPart(v, query, own)) && total == Wrap(InputValues(query, own))
    {
      var op := ops[i];
      if op !in query {
        crashed := true;
        return;
      }
      var utxo := query[op];
      SeenInputsStep(v, query, ops, i, own);
      if utxo.asset != v.token {
        return;
      }
      InputStep(v, query, own, op);
      total := AddU64(total, utxo.value);
      if utxo.to == v.addr {
        spent := AddU64(spent, utxo.value);
      }
      own := own + [op];
      i := i + 1;
    }
    assert SeenInputs(v, query, ops[i..]) == [];
    assert own + [] == own;
  }

  method ScanOutputs(v: View, outs: seq<TxOut>) returns (income: U64, total: U64)
    ensures var own := SeenOutputs(v, outs);
            income == Wrap(OutputPart(v, own)) && total == Wrap(Values(own))
  {
    income, total := 0, 0;
    ghost var own: seq<TxOut> := [];
    var i := 0;
    while i < |outs|
      invariant 0 <= i <= |outs|
      invariant SeenOutputs(v, outs) == own + SeenOutputs(v, outs[i..])
      invariant forall k :: 0 <= k < |own| ==> own[k].asset == v.token
      invariant income == Wrap(OutputPart(v, own)) && total == Wrap(Values(own))
    {
      var o := outs[i];
      if o.asset != v.token {
        break;
      }
      OutputStep(v, own, o);
      total := AddU64(total, o.value);
      if o.to == v.addr {
        income := AddU64(income, o.value);
      }
      own := own + [o];
      assert outs[i..][1..] == outs[i + 1..];
      i := i + 1;
    }
    assert own + SeenOutputs(v, outs[i..]) == own;
  }

  /** The line for one payment, or none if it does not concern the address. */
  ghost function LineFor(id: Id, spent: U64, income: U64, totalIn: U64, totalOut: U64, balance: U64): seq<Row> {
    if spent == 0 && income == 0 then []
    else [Row(id, spent > income,
              if spent > income then spent - income else income - spent,
              if totalIn != 0 then SubU64(totalIn, totalOut) else 0,
              balance)]
  }

  ghost function RowOf(v: View, query: Outs, pre: U64, p: Payment): seq<Row> {
    var ins, outs := SeenInputs(v, query, p.inputs), SeenOutputs(v, p.outputs);
    LineFor(p.id, Wrap(InputPart(v, query, ins)), Wrap(OutputPart(v, outs)),
            Wrap(InputValues(query, ins)), Wrap(Values(outs)), Wrap(pre + Delta(v, query, p)))
  }

  type Line = (U64, Payment) -> seq<Row>

  type Running = (U64, Payment) -> U64

  ghost function NextOf(d: Effect): Running { (pre: U64, p: Payment) => Wrap(pre + d(p)) }

  ghost function RowsOf(v: View, query: Outs): Line { (pre: U64, p: Payment) => RowOf(v, query, pre, p) }

  ghost function Rows(line: Line, next: Running, pre: U64, pays: seq<Payment>): seq<Row>
    decreases |pays|
  {
    if pays == [] then []
    else line(pre, pays[0]) + Rows(line, next, next(pre, pays[0]), pays[1..])
  }

  lemma {:induction false} RowsStep(line: Line, next: Running, pre: U64, pays: seq<Payment>, k: nat)
    requires k < |pays|
    ensures var after := next(pre, pays[k]);
            && ReplayFrom(next, pre, pays[k..]) == ReplayFrom(next, after, pays[k + 1..])
            && Rows(line, next, pre, pays[k..]) == line(pre, pays[k]) + Rows(line, next, after, pays[k + 1..])
  {
    assert pays[k..][1..] == pays[k + 1..];
  }

  lemma {:induction false} LinesStep(line: Line, next: Running, pre: U64, pays: seq<Payment>, k: nat, rows: seq<Row>)
    requires k < |pays|
    ensures var after := next(pre, pays[k]);
            && ReplayFrom(next, pre, pays[k..]) == ReplayFrom(next, after, pays[k + 1..])
            && rows + Rows(line, next, pre, pays[k..]) ==
                 (rows + line(pre, pays[k])) + Rows(line, next, after, pays[k + 1..])
  {
    RowsStep(line, next, pre, pays, k);
  }

  lemma {:induction false} BalanceAfter(pre: U64, income: nat, spent: nat)
    ensures AddU64(pre, SubU64(Wrap(income), Wrap(spent))) == Wrap(pre + (income as int - spent))
  {
    var d := income as int - spent;
    SubWrap(income, spent);
    AddWrap(d, pre);
    assert AddU64(pre, Wrap(d)) == AddU64(Wrap(d), pre);
  }

  method MakeLine(id: Id, spent: U64, income: U64, totalInput: U64, totalOutput: U64, pre: U64)
    returns (row: seq<Row>, balance: U64)
    ensures balance == AddU64(pre, SubU64(income, spent))
    ensures row == LineFor(id, spent, income, totalInput, totalOutput, balance)
    ensures row == [] <==> spent == 0 && income == 0
    ensures row != [] ==> |row| == 1 && (row[0].outgoing <==> spent > income) && row[0].balance == balance
    ensures row != [] ==> if row[0].outgoing then row[0].amount + income == spent else row[0].amount + spent == income
    ensures row != [] ==> row[0].fee == if totalInput == 0 then 0 else SubU64(totalInput, totalOutput)
  {
    row, balance := [], pre;
    if spent == 0 && income == 0 {
      return;
    }
    var fee := 0;
    if totalInput != 0 {
      fee := SubU64(totalInput, totalOutput);
    }
    balance := AddU64(balance, SubU64(income, spent));
    if spent > income {
      row := [Row(id, true, spent - income, fee, balance)];
    } else {
      row := [Row(id, false, income - spent, fee, balance)];
    }
  }

  method ConvertPayment(v: View, query: Outs, pre: U64, p: Payment)
    returns (crashed: bool, row: seq<Row>, balance: U64)
    ensures crashed <==> Crashes(v, query, p.inputs)
    ensures !crashed ==> row == RowOf(v, query, pre, p) && balance == Wrap(pre + Delta(v, query, p))
  {
    row, balance := [], pre;
    var spent, totalInput;
    crashed, spent, totalInput := ScanInputs(v, query, p.inputs);
    if crashed {
      return;
    }
    var income, totalOutput := ScanOutputs(v, p.outputs);
    row, balance := MakeLine(p.id, spent, income, totalInput, totalOutput, pre);
    BalanceAfter(pre, OutputPart(v, SeenOutputs(v, p.outputs)), InputPart(v, query, SeenInputs(v, query, p.inputs)));
  }

  /** The running balance of a list of payments, from `pre` on. */
  ghost function ReplayFrom(next: Running, pre: U64, pays: seq<Payment>): U64
    decreases |pays|
  {
    if pays == [] then pre else ReplayFrom(next, next(pre, pays[0]), pays[1..])
  }

  /** One round of the loop over a transaction's messages. */
  method ConvertNext(v: View, query: Outs, pre: U64, pays: seq<Payment>, k: nat, rows: seq<Row>)
    returns (crashed: bool, more: seq<Row>, balance: U64)
    requires k < |pays|
    ensures crashed <==> Crashes(v, query, pays[k].inputs)
    ensures !crashed ==>
              var line, next := RowsOf(v, query), NextOf(DeltaOf(v, query));
              && more + Rows(line, next, balance, pays[k + 1..]) == rows + Rows(line, next, pre, pays[k..])
              && ReplayFrom(next, balance, pays[k + 1..]) == ReplayFrom(next, pre, pays[k..])
  {
    var row;
    crashed, row, balance := ConvertPayment(v, query, pre, pays[k]);
    more := rows + row;
    if !crashed {
      assert row == RowsOf(v, query)(pre, pays[k]) && balance == NextOf(DeltaOf(v, query))(pre, pays[k]);
      LinesStep(RowsOf(v, query), NextOf(DeltaOf(v, query)), pre, pays, k, rows);
    }
  }

  /** The lines and the balance of the payments of one transaction. */
  method ConvertTx(v: View, query: Outs, pre: U64, pays: seq<Payment>)
    returns (crashed: bool, rows: seq<Row>, balance: U64)
    ensures crashed <==> exists k :: 0 <= k < |pays| && Crashes(v, query, pays[k].inputs)
    ensures !crashed ==> rows == Rows(RowsOf(v, query), NextOf(DeltaOf(v, query)), pre, pays)
                         && balance == ReplayFrom(NextOf(DeltaOf(v, query)), pre, pays)
  {
    ghost var line, next := RowsOf(v, query), NextOf(DeltaOf(v, query));
    crashed, rows, balance := false, [], pre;
    for k := 0 to |pays|
      invariant !crashed && forall j :: 0 <= j < k ==> !Crashes(v, query, pays[j].inputs)
      invariant rows + Rows(line, next, balance, pays[k..]) == Rows(line, next, pre, pays)
      invariant ReplayFrom(next, balance, pays[k..]) == ReplayFrom(next, pre, pays)
    {
      crashed, rows, balance := ConvertNext(v, query, balance, pays, k, rows);
      if crashed {
        return;
      }
    }
  }

  lemma {:induction false} ReplayFromIsSum(d: Effect, pre: U64, pays: seq<Payment>)
    ensures ReplayFrom(NextOf(d), pre, pays) == Wrap(pre + Sum(d, pays))
    decreases |pays|
  {
    if pays != [] {
      var x := d(pays[0]);
      ReplayFromIsSum(d, Wrap(pre + x), pays[1..]);
      WrapAdd(pre + x, Sum(d, pays[1..]));
    }
  }

  ghost function Payments(txs: seq<Tx>): seq<Payment> {
    if txs == [] then [] else txs[0].payments + Payments(txs[1..])
  }

  lemma {:induction false} PaymentsPermuted(a: seq<Tx>, b: seq<Tx>)
    requires multiset(a) == multiset(b)
    ensures multiset(Payments(a)) == multiset(Payments(b))
    decreases |a|
  {
    if a == [] {
      assert |multiset(a)| == |multiset(b)|;
    } else {
      assert a[0] in multiset(b);
      var j: nat :| j < |b| && b[j] == a[0];
      PaymentsRemove(b, j);
      RemoveOne(b, j);
      RemoveFirst(a);
      PaymentsPermuted(a[1..], b[..j] + b[j + 1..]);
    }
  }

  lemma {:induction false} PaymentsRemove(txs: seq<Tx>, i: nat)
    requires i < |txs|
    ensures multiset(Payments(txs)) == multiset(txs[i].payments) + multiset(Payments(txs[..i] + txs[i + 1..]))
    decreases i
  {
    var rest := txs[..i] + txs[i + 1..];
    if i == 0 {
      assert rest == txs[1..];
    } else {
      PaymentsRemove(txs[1..], i - 1);
      assert rest[1..] == txs[1..][..i - 1] + txs[1..][i..];
    }
  }

  lemma {:induction false} ReplayAppend(next: Running, pre: U64, a: seq<Payment>, b: seq<Payment>)
    ensures ReplayFrom(next, pre, a + b) == ReplayFrom(next, ReplayFrom(next, pre, a), b)
    decreases |a|
  {
    if a == [] {
      assert a + b == b;
    } else {
      ReplayAppend(next, next(pre, a[0]), a[1..], b);
      assert (a + b)[1..] == a[1..] + b;
    }
  }

  lemma {:induction false} RowsAppend(line: Line, next: Running, pre: U64, a: seq<Payment>, b: seq<Payment>)
    ensures Rows(line, next, pre, a + b) == Rows(line, next, pre, a) + Rows(line, next, ReplayFrom(next, pre, a), b)
    decreases |a|
  {
    if a == [] {
      assert a + b == b;
    } else {
      var first := line(pre, a[0]);
      var after := next(pre, a[0]);
      RowsAppend(line, next, after, a[1..], b);
      assert (a + b)[1..] == a[1..] + b;
      var x, y := Rows(line, next, after, a[1..]), Rows(line, next, ReplayFrom(next, pre, a), b);
      assert Rows(line, next, pre, a + b) == first + (x + y);
      assert first + (x + y) == (first + x) + y;
    }
  }

  lemma {:induction false} SortedFlow(d: Effect, sorted: seq<Tx>, txs: seq<Tx>)
    requires multiset(sorted) == multiset(txs)
    ensures ReplayFrom(NextOf(d), 0, Payments(sorted)) == Replay(d, Payments(txs))
  {
    ReplayFromIsSum(d, 0, Payments(sorted));
    ReplayIsSum(d, Payments(txs));
    PaymentsPermuted(sorted, txs);
    SumPermuted(d, Payments(sorted), Payments(txs));
  }

  lemma {:induction false} TxStep(line: Line, next: Running, pre: U64, txs: seq<Tx>, k: nat, rows: seq<Row>)
    requires k < |txs|
    ensures var after, lines := ReplayFrom(next, pre, txs[k].payments), Rows(line, next, pre, txs[k].payments);
            && rows + Rows(line, next, pre, Payments(txs[k..])) ==
                 (rows + lines) + Rows(line, next, after, Payments(txs[k + 1..]))
            && ReplayFrom(next, pre, Payments(txs[k..])) == ReplayFrom(next, after, Payments(txs[k + 1..]))
  {
    assert txs[k..][1..] == txs[k + 1..];
    RowsAppend(line, next, pre, txs[k].payments, Payments(txs[k + 1..]));
    ReplayAppend(next, pre, txs[k].payments, Payments(txs[k + 1..]));
  }

  /** Some payment of some transaction makes the conversion crash. */
  ghost predicate CrashesOn(v: View, query: Outs, txs: seq<Tx>) {
    exists t, p :: t in multiset(txs) && p in t.payments && Crashes(v, query, p.inputs)
  }

  ghost predicate TxCrashes(v: View, query: Outs, t: Tx) {
    exists i :: 0 <= i < |t.payments| && Crashes(v, query, t.payments[i].inputs)
  }

  /** One round of the loop over the transactions. */
  method ConvertNextTx(v: View, query: Outs, pre: U64, txs: seq<Tx>, k: nat, rows: seq<Row>)
    returns (crashed: bool, more: seq<Row>, balance: U64)
    requires k < |txs|
    ensures crashed <==> TxCrashes(v, query, txs[k])
    ensures !crashed ==>
              var line, next := RowsOf(v, query), NextOf(DeltaOf(v, query));
              && more + Rows(line, next, balance, Payments(txs[k + 1..])) == rows + Rows(line, next, pre, Payments(txs[k..]))
              && ReplayFrom(next, balance, Payments(txs[k + 1..])) == ReplayFrom(next, pre, Payments(txs[k..]))
  {
    var lines;
    crashed, lines, balance := ConvertTx(v, query, pre, txs[k].payments);
    more := rows + lines;
    TxStep(RowsOf(v, query), NextOf(DeltaOf(v, query)), pre, txs, k, rows);
  }

  /** Convert transactions one after the other. */
  method ConvertAll(v: View, query: Outs, txs: seq<Tx>) returns (crashed: bool, rows: seq<Row>, balance: U64)
    ensures crashed <==> exists k :: 0 <= k < |txs| && TxCrashes(v, query, txs[k])
    ensures !crashed ==> rows == Rows(RowsOf(v, query), NextOf(DeltaOf(v, query)), 0, Payments(txs))
                         && balance == ReplayFrom(NextOf(DeltaOf(v, query)), 0, Payments(txs))
  {
    ghost var line, next := RowsOf(v, query), NextOf(DeltaOf(v, query));
    crashed, rows, balance := false, [], 0;
    for k := 0 to |txs|
      invariant !crashed && forall j :: 0 <= j < k ==> !TxCrashes(v, query, txs[j])
      invariant rows + Rows(line, next, balance, Payments(txs[k..])) == Rows(line, next, 0, Payments(txs))
      invariant ReplayFrom(next, balance, Payments(txs[k..])) == ReplayFrom(next, 0, Payments(txs))
    {
      crashed, rows, balance := ConvertNextTx(v, query, balance, txs, k, rows);
      if crashed {
        return;
      }
    }
  }

  lemma {:induction false} SomeTxCrashes(v: View, query: Outs, txs: seq<Tx>)
    ensures CrashesOn(v, query, txs) <==> exists k :: 0 <= k < |txs| && TxCrashes(v, query, txs[k])
  {
    if t, p :| t in multiset(txs) && p in t.payments && Crashes(v, query, p.inputs) {
      var k :| 0 <= k < |txs| && txs[k] == t;
      assert TxCrashes(v, query, txs[k]);
    }
    if k :| 0 <= k < |txs| && TxCrashes(v, query, txs[k]) {
      assert txs[k] in multiset(txs);
    }
  }

  // ----- Every line of a flow in causal order shows the ledger -----

  lemma {:induction false} RowOrigin(line: Line, next: Running, pre: U64, pays: seq<Payment>, row: Row) returns (i: nat)
    requires row in Rows(line, next, pre, pays)
    ensures i < |pays| && row in line(ReplayFrom(next, pre, pays[..i]), pays[i])
    decreases |pays|
  {
    var first, after := line(pre, pays[0]), next(pre, pays[0]);
    if row in first {
      i := 0;
      assert pays[..0] == [];
    } else {
      i := RowOrigin(line, next, after, pays[1..], row);
      i := i + 1;
      assert pays[..i][1..] == pays[1..][..i - 1];
    }
  }

  /** Every line of a payment is a line of the flow. */
  lemma {:induction false} RowPresent(line: Line, next: Running, pre: U64, pays: seq<Payment>, i: nat, row: Row)
    requires i < |pays| && row in line(ReplayFrom(next, pre, pays[..i]), pays[i])
    ensures row in Rows(line, next, pre, pays)
    decreases |pays|
  {
    if i == 0 {
      assert pays[..0] == [];
    } else {
      assert pays[..i][1..] == pays[1..][..i - 1];
      RowPresent(line, next, next(pre, pays[0]), pays[1..], i - 1, row);
    }
  }

  lemma {:induction false} RunningIsReplay(d: Effect, pays: seq<Payment>, i: nat)
    requires i < |pays|
    ensures Wrap(ReplayFrom(NextOf(d), 0, pays[..i]) + d(pays[i])) == Replay(d, pays[..i + 1])
  {
    ReplayFromIsSum(d, 0, pays[..i]);
    ReplayIsSum(d, pays[..i]);
    assert pays[..i + 1][..i] == pays[..i];
  }

  lemma {:induction false} RowBelongs(v: View, query: Outs, pre: U64, p: Payment, row: Row)
    requires row in RowsOf(v, query)(pre, p)
    ensures row.payment == p.id && row.balance == Wrap(pre + DeltaOf(v, query)(p))
  {
  }

  /** The lines of a list of payments. */
  ghost function LinesOf(v: View, query: Outs, pays: seq<Payment>): seq<Row> {
    Rows(RowsOf(v, query), NextOf(DeltaOf(v, query)), 0, pays)
  }

  lemma {:induction false} RowIsReplay(v: View, query: Outs, pays: seq<Payment>, row: Row) returns (i: nat)
    requires row in LinesOf(v, query, pays)
    ensures i < |pays| && row.payment == pays[i].id && row.balance == Replay(DeltaOf(v, query), pays[..i + 1])
    ensures row in RowsOf(v, query)(ReplayFrom(NextOf(DeltaOf(v, query)), 0, pays[..i]), pays[i])
  {
    var d := DeltaOf(v, query);
    i := RowOrigin(RowsOf(v, query), NextOf(d), 0, pays, row);
    RowBelongs(v, query, ReplayFrom(NextOf(d), 0, pays[..i]), pays[i], row);
    RunningIsReplay(d, pays, i);
  }

  /** Every line shows the ledger balance after the payment it belongs to. */
  ghost predicate ShowsLedger(v: View, history: seq<Payment>, rows: seq<Row>) {
    forall j :: 0 <= j < |rows| ==> ShowsAt(v, history, rows[j])
  }

  ghost predicate ShowsAt(v: View, history: seq<Payment>, row: Row) {
    exists i: nat :: Shows(v, history, row, i)
  }

  ghost predicate Shows(v: View, history: seq<Payment>, row: Row, i: nat) {
    i < |history| && row.payment == history[i].id && row.balance == Wrap(Held(v, history[..i + 1]))
  }

  /** If every payment is seen whole, each line of a history in causal order shows the ledger balance. */
  lemma {:induction false} RowsShowLedger(v: View, query: Outs, history: seq<Payment>)
    requires Causal(history) && query == Known(After(history))
    requires forall k: nat :: SeenWholeAt(v, query, history, k)
    ensures ShowsLedger(v, history, LinesOf(v, query, history))
  {
    var rows := LinesOf(v, query, history);
    forall j | 0 <= j < |rows| ensures ShowsAt(v, history, rows[j]) {
      var i := RowIsReplay(v, query, history, rows[j]);
      RightUpTo(v, query, history, i + 1);
      assert Shows(v, history, rows[j], i);
    }
  }

  // ----- The address's own payments -----

  /** The payment spends an output of the address or pays to it. */
  ghost predicate Concerns(addr: Address, query: Outs, p: Payment) {
    || (exists i :: 0 <= i < |p.inputs| && p.inputs[i] in query && query[p.inputs[i]].to == addr)
    || (exists i :: 0 <= i < |p.inputs| && p.Spent()[i] in query && query[p.Spent()[i]].to == addr)
    || (exists i :: 0 <= i < |p.outputs| && p.outputs[i].to == addr)
  }

  /** `own` is `full` with some of the payments that satisfy `skip` left out. */
  ghost predicate Thins(skip: Payment -> bool, own: seq<Payment>, full: seq<Payment>)
    decreases |full|
  {
    if full == [] then own == []
    else || (own != [] && own[0] == full[0] && Thins(skip, own[1..], full[1..]))
         || (skip(full[0]) && Thins(skip, own, full[1..]))
  }

  /** Payments without a line or an effect can be left out anywhere. */
  lemma {:induction false} ThinnedRows(skip: Payment -> bool, line: Line, next: Running, pre: U64,
                                       own: seq<Payment>, full: seq<Payment>)
    requires Thins(skip, own, full)
    requires forall b: U64, p :: skip(p) ==> line(b, p) == [] && next(b, p) == b
    ensures Rows(line, next, pre, own) == Rows(line, next, pre, full)
    ensures ReplayFrom(next, pre, own) == ReplayFrom(next, pre, full)
    decreases |full|
  {
    if full != [] {
      if own != [] && own[0] == full[0] && Thins(skip, own[1..], full[1..]) {
        ThinnedRows(skip, line, next, next(pre, full[0]), own[1..], full[1..]);
      } else {
        ThinnedRows(skip, line, next, pre, own, full[1..]);
        assert [] + Rows(line, next, pre, full[1..]) == Rows(line, next, pre, full[1..]);
      }
    }
  }

  ghost function Unconcerned(v: View, query: Outs): Payment -> bool { p => !Concerns(v.addr, query, p) }

  lemma {:induction false} UnconcernedParts(v: View, query: Outs, p: Payment)
    requires !Concerns(v.addr, query, p)
    ensures InputPart(v, query, SeenInputs(v, query, p.inputs)) == 0 && OutputPart(v, SeenOutputs(v, p.outputs)) == 0
  {
    SeenInputsPrefix(v, query, p.inputs);
    InputPartNone(v, query, SeenInputs(v, query, p.inputs));
    SeenOutputsPrefix(v, p.outputs);
    OutputPartNone(v, SeenOutputs(v, p.outputs));
  }

  /** A payment that does not concern the address has no line and no effect. */
  lemma {:induction false} UnconcernedIsSilent(v: View, query: Outs, b: U64, p: Payment)
    requires Unconcerned(v, query)(p)
    ensures RowsOf(v, query)(b, p) == [] && NextOf(DeltaOf(v, query))(b, p) == b
  {
    UnconcernedParts(v, query, p);
    assert Delta(v, query, p) == 0 && Wrap(b) == b;
  }

  /** The flow of an address's own payments is line for line that of the whole history. */
  lemma {:induction false} OwnRows(v: View, query: Outs, own: seq<Payment>, full: seq<Payment>)
    requires Thins(Unconcerned(v, query), own, full)
    ensures var line, next := RowsOf(v, query), NextOf(DeltaOf(v, query));
            Rows(line, next, 0, own) == Rows(line, next, 0, full) && ReplayFrom(next, 0, own) == ReplayFrom(next, 0, full)
  {
    forall b: U64, p | Unconcerned(v, query)(p)
      ensures RowsOf(v, query)(b, p) == [] && NextOf(DeltaOf(v, query))(b, p) == b
    {
      UnconcernedIsSilent(v, query, b, p);
    }
    ThinnedRows(Unconcerned(v, query), RowsOf(v, query), NextOf(DeltaOf(v, query)), 0, own, full);
  }

  // ----- The address's own transactions -----

  /** `own` is `chain` with some of the transactions left out that do not concern the address. */
  ghost predicate OwnTxs(skip: Payment -> bool, own: seq<Tx>, chain: seq<Tx>)
    decreases |chain|
  {
    if chain == [] then own == []
    else || (own != [] && own[0] == chain[0] && OwnTxs(skip, own[1..], chain[1..]))
         || ((forall p :: p in chain[0].payments ==> skip(p)) && OwnTxs(skip, own, chain[1..]))
  }

  lemma {:induction false} ThinsKeep(skip: Payment -> bool, same: seq<Payment>, own: seq<Payment>, full: seq<Payment>)
    requires Thins(skip, own, full)
    ensures Thins(skip, same + own, same + full)
    decreases |same|
  {
    if same == [] {
      assert same + own == own && same + full == full;
    } else {
      ThinsKeep(skip, same[1..], own, full);
      assert (same + own)[1..] == same[1..] + own && (same + full)[1..] == same[1..] + full;
    }
  }

  lemma {:induction false} ThinsDrop(skip: Payment -> bool, dropped: seq<Payment>, own: seq<Payment>, full: seq<Payment>)
    requires Thins(skip, own, full) && forall p :: p in dropped ==> skip(p)
    ensures Thins(skip, own, dropped + full)
    decreases |dropped|
  {
    if dropped == [] {
      assert dropped + full == full;
    } else {
      ThinsDrop(skip, dropped[1..], own, full);
      assert (dropped + full)[1..] == dropped[1..] + full;
    }
  }

  lemma {:induction false} OwnTxsThin(skip: Payment -> bool, own: seq<Tx>, chain: seq<Tx>)
    requires OwnTxs(skip, own, chain)
    ensures Thins(skip, Payments(own), Payments(chain))
    decreases |chain|
  {
    if chain != [] {
      if own != [] && own[0] == chain[0] && OwnTxs(skip, own[1..], chain[1..]) {
        OwnTxsThin(skip, own[1..], chain[1..]);
        ThinsKeep(skip, chain[0].payments, Payments(own[1..]), Payments(chain[1..]));
      } else {
        OwnTxsThin(skip, own, chain[1..]);
        ThinsDrop(skip, chain[0].payments, Payments(own), Payments(chain[1..]));
      }
    }
  }

  lemma {:induction false} OwnAmongChain(skip: Payment -> bool, own: seq<Tx>, chain: seq<Tx>, t: Tx)
    requires OwnTxs(skip, own, chain) && t in own
    ensures t in chain
    decreases |chain|
  {
    if chain != [] {
      if own[0] == chain[0] && OwnTxs(skip, own[1..], chain[1..]) {
        if t != own[0] {
          OwnAmongChain(skip, own[1..], chain[1..], t);
        }
      } else {
        OwnAmongChain(skip, own, chain[1..], t);
      }
    }
  }

  lemma {:induction false} PaymentAmong(txs: seq<Tx>, t: Tx, p: Payment)
    requires t in txs && p in t.payments
    ensures p in Payments(txs)
    decreases |txs|
  {
    if t != txs[0] {
      PaymentAmong(txs[1..], t, p);
    }
  }

  /** What a flow is computed from: a complete chain of transactions in causal order, whose outputs `query` knows, and
      the list `txs` of those that concern the address, in any order; `own` is that list in the order of the chain. */
  ghost predicate Backed(v: View, query: Outs, txs: seq<Tx>, chain: seq<Tx>, own: seq<Tx>) {
    && Causal(Payments(chain)) && query == Known(After(Payments(chain)))
    && OwnTxs(Unconcerned(v, query), own, chain) && multiset(own) == multiset(txs)
  }

  /** An input under the special hash comes before the first input of another asset. */
  ghost predicate SelfAt(v: View, query: Outs, p: Payment, i: nat) {
    && i < |p.inputs| && p.inputs[i].SelfPoint?
    && forall j :: 0 <= j < i ==> p.inputs[j] in query && query[p.inputs[j]].asset == v.token
  }

  ghost predicate SpendsItself(v: View, query: Outs, txs: seq<Tx>) {
    exists t, p, i: nat :: t in multiset(txs) && p in t.payments && SelfAt(v, query, p, i)
  }

  lemma {:induction false} OwnPaymentAt(v: View, query: Outs, txs: seq<Tx>, chain: seq<Tx>, own: seq<Tx>, t: Tx, p: Payment)
    returns (n: nat)
    requires Backed(v, query, txs, chain, own) && t in multiset(txs) && p in t.payments
    ensures n < |Payments(chain)| && Payments(chain)[n] == p
  {
    assert t in multiset(own);
    OwnAmongChain(Unconcerned(v, query), own, chain, t);
    PaymentAmong(chain, t, p);
    n :| n < |Payments(chain)| && Payments(chain)[n] == p;
  }

  lemma {:induction false} StuckIffSelf(v: View, query: Outs, history: seq<Payment>, n: nat, i: nat)
    requires Causal(history) && query == Known(After(history)) && n < |history|
    ensures StuckAt(v, query, history[n].inputs, i) <==> SelfAt(v, query, history[n], i)
  {
    if i < |history[n].inputs| {
      HistoryFound(history, n, i);
    }
  }

  /** From the transactions of a complete chain, the flow crashes if and only if one of them spends an output of its own
      that way, before the first input of another asset. */
  lemma {:induction false} CrashesIffSelf(v: View, query: Outs, txs: seq<Tx>, chain: seq<Tx>, own: seq<Tx>)
    requires Backed(v, query, txs, chain, own)
    ensures CrashesOn(v, query, txs) <==> SpendsItself(v, query, txs)
  {
    var history := Payments(chain);
    if t, p :| t in multiset(txs) && p in t.payments && Crashes(v, query, p.inputs) {
      var n := OwnPaymentAt(v, query, txs, chain, own, t, p);
      CrashIff(v, query, p.inputs);
      var i: nat :| StuckAt(v, query, p.inputs, i);
      StuckIffSelf(v, query, history, n, i);
    }
    if t, p, i: nat :| t in multiset(txs) && p in t.payments && SelfAt(v, query, p, i) {
      var n := OwnPaymentAt(v, query, txs, chain, own, t, p);
      StuckIffSelf(v, query, history, n, i);
      CrashIff(v, query, p.inputs);
    }
  }

  /** A payback: a contract is paid, and pays back from that output in the same transaction. */
  lemma {:induction false} PaybackCrashes(amount: U64, token: Asset) returns (v: View, query: Outs, tx: Tx)
    ensures Backed(v, query, [tx], [tx], [tx]) && CrashesOn(v, query, [tx])
  {
    var pay := Payment(Id(0, 0), [], [TxOut(amount, 9, token)]);
    var back := Payment(Id(0, 1), [SelfPoint(0, 0)], [TxOut(amount, 1, token)]);
    v, tx := View(1, token), Tx(0, [pay, back]);
    CausalPair(pay, back);
    assert Payments([tx]) == [pay, back] by { assert [tx][1..] == [] && [pay, back] + [] == [pay, back]; }
    query := Known(After([pay, back]));
    OwnTxsAll(Unconcerned(v, query), [tx]);
    assert tx in multiset([tx]) && back in tx.payments && SelfAt(v, query, back, 0);
    CrashesIffSelf(v, query, [tx], [tx], [tx]);
  }

  lemma {:induction false} CausalPair(p: Payment, q: Payment)
    requires p.inputs == [] && p.id != q.id && Valid(Step(EMPTY, p), q)
    ensures Causal([p, q]) && After([p, q]) == Step(Step(EMPTY, p), q)
  {
    var h := [p, q];
    assert h[..0] == [] && h[..1] == [p];
    CausalOne(p);
    assert ValidAt([p], 0);
    forall i: nat ensures ValidAt(h, i) {
    }
  }

  lemma {:induction false} OwnTxsAll(skip: Payment -> bool, chain: seq<Tx>)
    ensures OwnTxs(skip, chain, chain)
    decreases |chain|
  {
    if chain != [] {
      OwnTxsAll(skip, chain[1..]);
    }
  }

  /** The lines of the address's own transactions, in the order of the chain, are those of the whole chain. */
  lemma {:induction false} OwnLines(v: View, query: Outs, txs: seq<Tx>, chain: seq<Tx>, own: seq<Tx>)
    requires Backed(v, query, txs, chain, own)
    ensures LinesOf(v, query, Payments(own)) == LinesOf(v, query, Payments(chain))
    ensures Replay(DeltaOf(v, query), Payments(own)) == Replay(DeltaOf(v, query), Payments(chain))
  {
    OwnTxsThin(Unconcerned(v, query), own, chain);
    OwnRows(v, query, Payments(own), Payments(chain));
    SortedFlow(DeltaOf(v, query), own, own);
    SortedFlow(DeltaOf(v, query), chain, chain);
  }

  /** Every payment of the chain is seen whole. */
  ghost predicate AllSeen(v: View, query: Outs, chain: seq<Tx>) {
    forall k: nat :: SeenWholeAt(v, query, Payments(chain), k)
  }

  lemma {:induction false} OwnLinesShowLedger(v: View, query: Outs, txs: seq<Tx>, chain: seq<Tx>, own: seq<Tx>)
    requires Backed(v, query, txs, chain, own) && AllSeen(v, query, chain)
    ensures ShowsLedger(v, Payments(chain), LinesOf(v, query, Payments(own)))
  {
    OwnLines(v, query, txs, chain, own);
    RowsShowLedger(v, query, Payments(chain));
  }

  /** What the flow of a chain does not see, in all. */
  ghost function Hidden(v: View, query: Outs, chain: seq<Tx>): int { Sum(UnseenOf(v, query), Payments(chain)) }

  lemma {:induction false} FlowEndsRightIff(v: View, query: Outs, txs: seq<Tx>, chain: seq<Tx>, own: seq<Tx>)
    requires Backed(v, query, txs, chain, own)
    ensures Replay(DeltaOf(v, query), Payments(txs)) == Wrap(Held(v, Payments(chain))) <==> Wrap(Hidden(v, query, chain)) == 0
  {
    var d, history := DeltaOf(v, query), Payments(chain);
    OwnLines(v, query, txs, chain, own);
    PaymentsPermuted(own, txs);
    OrderIrrelevant(d, Payments(own), Payments(txs));
    assert history + [] == history;
    FlowEndsAtLedgerIff(v, query, history, history, []);
  }
}
