/** The flow of an address from its transactions, sorted by time, and which of its lines are right. */
module AddressFlow {
  import opened Uint64
  import opened Distinctness
  import opened SeqSum
  import opened Sorting
  import opened TokenLedger
  import opened TokenFlow
  import opened FlowLines

  function TimeOf(t: Tx): int { t.timestamp }

  ghost predicate Sorts(order: seq<Tx>, txs: seq<Tx>) { SortedBy(order, TimeOf) && multiset(order) == multiset(txs) }

  // ----- Lines and the transactions they belong to -----

  /** What a transaction does to the running balance. */
  ghost function Net(d: Effect, t: Tx): int { Sum(d, t.payments) }

  ghost function NetOf(d: Effect): Tx -> int { (t: Tx) => Net(d, t) }

  lemma {:induction false} PaymentsSum(d: Effect, txs: seq<Tx>)
    ensures Sum(d, Payments(txs)) == Sum(NetOf(d), txs)
    decreases |txs|
  {
    if txs != [] {
      PaymentsSum(d, txs[1..]);
      SumAppend(d, txs[0].payments, Payments(txs[1..]));
    }
  }

  /** The running balance after payment `a` of transaction `k`. */
  ghost function BalanceAt(d: Effect, txs: seq<Tx>, k: nat, a: nat): U64
    requires k < |txs| && a < |txs[k].payments|
  {
    Wrap(Sum(NetOf(d), txs[..k]) + Sum(d, txs[k].payments[..a + 1]))
  }

  /** Payment `i` of the list is payment `a` of transaction `k`. */
  ghost predicate IsAt(txs: seq<Tx>, i: nat, k: nat, a: nat) {
    && i < |Payments(txs)| && k < |txs| && a < |txs[k].payments| && Payments(txs)[i] == txs[k].payments[a]
    && Payments(txs)[..i + 1] == Payments(txs[..k]) + txs[k].payments[..a + 1]
  }

  lemma {:induction false} AtFirst(txs: seq<Tx>, a: nat)
    requires txs != [] && a < |txs[0].payments|
    ensures IsAt(txs, a, 0, a)
  {
    assert txs[..0] == [];
    assert Payments(txs)[..a + 1] == [] + txs[0].payments[..a + 1];
  }

  lemma {:induction false} AtLater(txs: seq<Tx>, i: nat, k: nat, a: nat)
    requires txs != [] && IsAt(txs[1..], i, k, a)
    ensures IsAt(txs, i + |txs[0].payments|, k + 1, a)
  {
    var first, rest := txs[0].payments, txs[1..];
    assert txs[..k + 1][1..] == rest[..k];
    assert Payments(txs)[..i + |first| + 1] == first + Payments(rest)[..i + 1];
    assert first + (Payments(rest[..k]) + rest[k].payments[..a + 1]) ==
           (first + Payments(rest[..k])) + rest[k].payments[..a + 1];
  }

  lemma {:induction false} FindTx(txs: seq<Tx>, i: nat) returns (k: nat, a: nat)
    requires i < |Payments(txs)|
    ensures IsAt(txs, i, k, a)
    decreases |txs|
  {
    var first := |txs[0].payments|;
    if i < first {
      k, a := 0, i;
      AtFirst(txs, a);
    } else {
      k, a := FindTx(txs[1..], i - first);
      AtLater(txs, i - first, k, a);
      k := k + 1;
    }
  }

  lemma {:induction false} FindPayment(txs: seq<Tx>, k: nat, a: nat) returns (i: nat)
    requires k < |txs| && a < |txs[k].payments|
    ensures IsAt(txs, i, k, a)
    decreases |txs|
  {
    if k == 0 {
      i := a;
      AtFirst(txs, a);
    } else {
      i := FindPayment(txs[1..], k - 1, a);
      AtLater(txs, i, k - 1, a);
      i := i + |txs[0].payments|;
    }
  }

  lemma {:induction false} ReplayParts(d: Effect, whole: seq<Payment>, head: seq<Payment>, tail: seq<Payment>)
    requires whole == head + tail
    ensures Replay(d, whole) == Wrap(Sum(d, head) + Sum(d, tail))
  {
    ReplayIsSum(d, whole);
    SumAppend(d, head, tail);
  }

  lemma {:induction false} ReplayAt(d: Effect, txs: seq<Tx>, i: nat, k: nat, a: nat)
    requires IsAt(txs, i, k, a)
    ensures Replay(d, Payments(txs)[..i + 1]) == BalanceAt(d, txs, k, a)
  {
    ReplayParts(d, Payments(txs)[..i + 1], Payments(txs[..k]), txs[k].payments[..a + 1]);
    PaymentsSum(d, txs[..k]);
  }

  ghost predicate HasLine(v: View, query: Outs, p: Payment) { RowOf(v, query, 0, p) != [] }

  ghost predicate TxHasLine(v: View, query: Outs, t: Tx) {
    exists a :: 0 <= a < |t.payments| && HasLine(v, query, t.payments[a])
  }

  /** The line of a payment in the flow of `txs`. */
  ghost predicate LineAt(v: View, query: Outs, txs: seq<Tx>, k: nat, a: nat, row: Row) {
    && k < |txs| && a < |txs[k].payments| && HasLine(v, query, txs[k].payments[a])
    && row.payment == txs[k].payments[a].id && row.balance == BalanceAt(DeltaOf(v, query), txs, k, a)
  }

  lemma {:induction false} LineBelongs(v: View, query: Outs, txs: seq<Tx>, row: Row) returns (k: nat, a: nat)
    requires row in LinesOf(v, query, Payments(txs))
    ensures LineAt(v, query, txs, k, a, row)
  {
    var i := RowIsReplay(v, query, Payments(txs), row);
    k, a := FindTx(txs, i);
    ReplayAt(DeltaOf(v, query), txs, i, k, a);
  }

  lemma {:induction false} RowHere(v: View, query: Outs, pays: seq<Payment>, i: nat) returns (row: Row)
    requires i < |pays| && HasLine(v, query, pays[i])
    ensures row in LinesOf(v, query, pays)
    ensures row.payment == pays[i].id && row.balance == Replay(DeltaOf(v, query), pays[..i + 1])
  {
    var d := DeltaOf(v, query);
    var pre := ReplayFrom(NextOf(d), 0, pays[..i]);
    row := RowOf(v, query, pre, pays[i])[0];
    assert row in RowsOf(v, query)(pre, pays[i]);
    RowPresent(RowsOf(v, query), NextOf(d), 0, pays, i, row);
    RowBelongs(v, query, pre, pays[i], row);
    RunningIsReplay(d, pays, i);
  }

  lemma {:induction false} LinePresent(v: View, query: Outs, txs: seq<Tx>, k: nat, a: nat) returns (row: Row)
    requires k < |txs| && a < |txs[k].payments| && HasLine(v, query, txs[k].payments[a])
    ensures row in LinesOf(v, query, Payments(txs)) && LineAt(v, query, txs, k, a, row)
  {
    var i := FindPayment(txs, k, a);
    row := RowHere(v, query, Payments(txs), i);
    ReplayAt(DeltaOf(v, query), txs, i, k, a);
  }

  // ----- Ties -----

  /** If one of two transactions of the same time has a line, the other changes nothing in 64 bits. */
  ghost predicate Harmless(v: View, query: Outs, txs: seq<Tx>) {
    forall t, u :: t in txs && u in txs && t != u && t.timestamp == u.timestamp && TxHasLine(v, query, t) ==>
      Wrap(Net(DeltaOf(v, query), u)) == 0
  }

  ghost function EarlyOf(d: Effect, time: int): Tx -> int { (t: Tx) => if t.timestamp < time then Net(d, t) else 0 }

  /** Where the others of its time change nothing, what comes before a transaction is what is earlier. */
  lemma {:induction false} BeforeIsEarlier(d: Effect, txs: seq<Tx>, n: nat, time: int)
    requires n <= |txs|
    requires forall i :: 0 <= i < n ==> txs[i].timestamp < time || (txs[i].timestamp == time && Wrap(Net(d, txs[i])) == 0)
    ensures Wrap(Sum(NetOf(d), txs[..n])) == Wrap(Sum(EarlyOf(d, time), txs[..n]))
    decreases n
  {
    if n > 0 {
      BeforeIsEarlier(d, txs, n - 1, time);
      var init, last := txs[..n - 1], txs[n - 1];
      assert txs[..n] == init + [last];
      SumAppend(NetOf(d), init, [last]);
      SumAppend(EarlyOf(d, time), init, [last]);
      SumOne(NetOf(d), last);
      SumOne(EarlyOf(d, time), last);
      WrapCong(Sum(NetOf(d), init), Sum(EarlyOf(d, time), init), Net(d, last), EarlyOf(d, time)(last));
    }
  }

  /** The others of the time of transaction `k` change nothing. */
  ghost predicate Quiet(d: Effect, txs: seq<Tx>, k: nat)
    requires k < |txs|
  {
    forall i :: 0 <= i < |txs| && i != k && txs[i].timestamp == txs[k].timestamp ==> Wrap(Net(d, txs[i])) == 0
  }

  lemma {:induction false} SortedPrefix(d: Effect, txs: seq<Tx>, k: nat)
    requires SortedBy(txs, TimeOf) && k < |txs| && Quiet(d, txs, k)
    ensures Wrap(Sum(NetOf(d), txs[..k])) == Wrap(Sum(EarlyOf(d, txs[k].timestamp), txs))
  {
    var time := txs[k].timestamp;
    forall i | 0 <= i < k
      ensures txs[i].timestamp < time || (txs[i].timestamp == time && Wrap(Net(d, txs[i])) == 0)
    {
      assert TimeOf(txs[i]) <= TimeOf(txs[k]);
    }
    BeforeIsEarlier(d, txs, k, time);
    forall i | k <= i < |txs| ensures txs[i].timestamp >= time {
      assert i == k || TimeOf(txs[k]) <= TimeOf(txs[i]);
    }
    SumZero(EarlyOf(d, time), txs[k..]);
    SumSplit(EarlyOf(d, time), txs, k);
  }

  lemma {:induction false} QuietBalance(d: Effect, own: seq<Tx>, order: seq<Tx>, k: nat, n: nat, a: nat)
    requires SortedBy(own, TimeOf) && Sorts(order, own) && k < |order| && n < |own| && order[k] == own[n]
    requires Quiet(d, order, k) && Quiet(d, own, n) && a < |own[n].payments|
    ensures BalanceAt(d, order, k, a) == BalanceAt(d, own, n, a)
  {
    SortedPrefix(d, order, k);
    SortedPrefix(d, own, n);
    SumPermuted(EarlyOf(d, own[n].timestamp), own, order);
    var last := Sum(d, own[n].payments[..a + 1]);
    WrapCong(Sum(NetOf(d), order[..k]), Sum(NetOf(d), own[..n]), last, last);
  }

  lemma {:induction false} DistinctPermuted(own: seq<Tx>, order: seq<Tx>)
    requires Distinct(own) && multiset(order) == multiset(own)
    ensures Distinct(order)
  {
    forall i, j | 0 <= i < j < |order| ensures order[i] != order[j] {
      if order[i] == order[j] {
        PairCounts(order, i, j);
        DistinctCounts(own, order[i]);
      }
    }
  }

  lemma {:induction false} HarmlessIsQuiet(v: View, query: Outs, own: seq<Tx>, order: seq<Tx>, k: nat)
    requires Distinct(order) && multiset(order) == multiset(own) && Harmless(v, query, own)
    requires k < |order| && TxHasLine(v, query, order[k])
    ensures Quiet(DeltaOf(v, query), order, k)
  {
    assert order[k] in multiset(own);
    forall i | 0 <= i < |order| && i != k && order[i].timestamp == order[k].timestamp
      ensures Wrap(Net(DeltaOf(v, query), order[i])) == 0
    {
      assert order[i] in multiset(own);
      assert order[i] in own && order[k] in own;
    }
  }

  lemma {:induction false} HarmlessBalance(v: View, query: Outs, own: seq<Tx>, order: seq<Tx>, k: nat, n: nat, a: nat)
    requires Distinct(own) && SortedBy(own, TimeOf) && Sorts(order, own) && Harmless(v, query, own)
    requires k < |order| && n < |own| && order[k] == own[n] && a < |own[n].payments| && TxHasLine(v, query, own[n])
    ensures BalanceAt(DeltaOf(v, query), order, k, a) == BalanceAt(DeltaOf(v, query), own, n, a)
  {
    DistinctPermuted(own, order);
    HarmlessIsQuiet(v, query, own, order, k);
    HarmlessIsQuiet(v, query, own, own, n);
    QuietBalance(DeltaOf(v, query), own, order, k, n, a);
  }

  /** Two payments of a history have different ids. */
  ghost predicate DistinctIds(history: seq<Payment>) {
    forall i, j :: 0 <= i < j < |history| ==> history[i].id != history[j].id
  }

  lemma {:induction false} OneIndex(history: seq<Payment>, i: nat, j: nat)
    requires DistinctIds(history) && i < |history| && j < |history| && history[i].id == history[j].id
    ensures i == j
  {
  }

  lemma {:induction false} SameRow(v: View, history: seq<Payment>, row: Row, other: Row)
    requires DistinctIds(history) && row.payment == other.payment && ShowsAt(v, history, row)
    ensures ShowsAt(v, history, other) <==> row.balance == other.balance
  {
    var i: nat :| Shows(v, history, row, i);
    if ShowsAt(v, history, other) {
      var j: nat :| Shows(v, history, other, j);
      OneIndex(history, i, j);
    }
    if row.balance == other.balance {
      assert Shows(v, history, other, i);
    }
  }

  lemma {:induction false} HarmlessIsRight(v: View, query: Outs, history: seq<Payment>, own: seq<Tx>, order: seq<Tx>)
    requires Distinct(own) && SortedBy(own, TimeOf) && DistinctIds(history) && Sorts(order, own)
    requires ShowsLedger(v, history, LinesOf(v, query, Payments(own))) && Harmless(v, query, own)
    ensures ShowsLedger(v, history, LinesOf(v, query, Payments(order)))
  {
    var rows := LinesOf(v, query, Payments(order));
    forall j | 0 <= j < |rows| ensures ShowsAt(v, history, rows[j]) {
      var k, a := LineBelongs(v, query, order, rows[j]);
      assert order[k] in multiset(own);
      var n: nat :| n < |own| && own[n] == order[k];
      var right := LinePresent(v, query, own, n, a);
      HarmlessBalance(v, query, own, order, k, n, a);
      SameRow(v, history, right, rows[j]);
    }
  }

  /** Of two transactions of the same time, the second moved in front of the first ... */
  ghost function Moved(txs: seq<Tx>, i: nat, j: nat): seq<Tx>
    requires i < j < |txs|
  {
    txs[..i] + [txs[j]] + txs[i..j] + txs[j + 1..]
  }

  /** ... and the first behind the second. */
  ghost function Put(txs: seq<Tx>, i: nat, j: nat): seq<Tx>
    requires i < j < |txs|
  {
    txs[..i] + txs[i + 1..j + 1] + [txs[i]] + txs[j + 1..]
  }

  lemma {:induction false} SameTime(txs: seq<Tx>, i: nat, j: nat, x: nat)
    requires i <= x <= j < |txs| && SortedBy(txs, TimeOf) && txs[i].timestamp == txs[j].timestamp
    ensures txs[x].timestamp == txs[i].timestamp
  {
    assert i == x || TimeOf(txs[i]) <= TimeOf(txs[x]);
    assert x == j || TimeOf(txs[x]) <= TimeOf(txs[j]);
  }

  lemma {:induction false} SameTimesSort(txs: seq<Tx>, other: seq<Tx>)
    requires SortedBy(txs, TimeOf) && |other| == |txs| && multiset(other) == multiset(txs)
    requires forall x :: 0 <= x < |txs| ==> TimeOf(other[x]) == TimeOf(txs[x])
    ensures Sorts(other, txs)
  {
    forall x, y | 0 <= x < y < |other| ensures TimeOf(other[x]) <= TimeOf(other[y]) {
      assert TimeOf(txs[x]) <= TimeOf(txs[y]);
    }
  }

  lemma {:induction false} MovedSorts(txs: seq<Tx>, i: nat, j: nat)
    requires i < j < |txs| && SortedBy(txs, TimeOf) && txs[i].timestamp == txs[j].timestamp
    ensures Sorts(Moved(txs, i, j), txs)
  {
    assert txs == txs[..i] + txs[i..j] + [txs[j]] + txs[j + 1..];
    forall x | 0 <= x < |txs| ensures TimeOf(Moved(txs, i, j)[x]) == TimeOf(txs[x]) {
      if i <= x <= j {
        SameTime(txs, i, j, x);
        SameTime(txs, i, j, if x == i then j else x - 1);
      }
    }
    SameTimesSort(txs, Moved(txs, i, j));
  }

  lemma {:induction false} PutSorts(txs: seq<Tx>, i: nat, j: nat)
    requires i < j < |txs| && SortedBy(txs, TimeOf) && txs[i].timestamp == txs[j].timestamp
    ensures Sorts(Put(txs, i, j), txs)
  {
    assert txs == txs[..i] + [txs[i]] + txs[i + 1..j + 1] + txs[j + 1..];
    forall x | 0 <= x < |txs| ensures TimeOf(Put(txs, i, j)[x]) == TimeOf(txs[x]) {
      if i <= x <= j {
        SameTime(txs, i, j, x);
        SameTime(txs, i, j, if x == j then i else x + 1);
      }
    }
    SameTimesSort(txs, Put(txs, i, j));
  }

  /** A balance with and without what another transaction does. */
  lemma {:induction false} BalanceShift(d: Effect, txs: seq<Tx>, k: nat, other: seq<Tx>, n: nat, a: nat, u: Tx)
    requires k < |txs| && n < |other| && txs[k] == other[n] && a < |txs[k].payments|
    requires Sum(NetOf(d), other[..n]) == Sum(NetOf(d), txs[..k]) + Net(d, u)
    ensures BalanceAt(d, other, n, a) == BalanceAt(d, txs, k, a) <==> Wrap(Net(d, u)) == 0
  {
    WrapSame(Sum(NetOf(d), txs[..k]) + Sum(d, txs[k].payments[..a + 1]), Net(d, u));
  }

  /** Some order in which the balance after each payment of transaction `k` is off by what transaction `n` does. */
  lemma {:induction false} Shifted(d: Effect, txs: seq<Tx>, k: nat, n: nat, a: nat) returns (order: seq<Tx>, at: nat)
    requires SortedBy(txs, TimeOf) && k < |txs| && n < |txs| && k != n && txs[k].timestamp == txs[n].timestamp
    requires a < |txs[k].payments|
    ensures Sorts(order, txs) && at < |order| && order[at] == txs[k]
    ensures BalanceAt(d, order, at, a) == BalanceAt(d, txs, k, a) <==> Wrap(Net(d, txs[n])) == 0
  {
    if k < n {
      order, at := Moved(txs, k, n), k + 1;
      MovedSorts(txs, k, n);
      assert order[..at] == txs[..k] + [txs[n]];
      SumAppend(NetOf(d), txs[..k], [txs[n]]);
      SumOne(NetOf(d), txs[n]);
      BalanceShift(d, txs, k, order, at, a, txs[n]);
    } else {
      order, at := Put(txs, n, k), k - 1;
      PutSorts(txs, n, k);
      assert order[..at] == txs[..k][..n] + txs[..k][n + 1..];
      SumRemove(NetOf(d), txs[..k], n);
      BalanceShift(d, order, at, txs, k, a, txs[n]);
    }
  }

  lemma {:induction false} HarmIsWrong(v: View, query: Outs, history: seq<Payment>, own: seq<Tx>, k: nat, n: nat)
    returns (order: seq<Tx>)
    requires SortedBy(own, TimeOf) && DistinctIds(history) && ShowsLedger(v, history, LinesOf(v, query, Payments(own)))
    requires k < |own| && n < |own| && k != n && own[k].timestamp == own[n].timestamp && TxHasLine(v, query, own[k])
    requires Wrap(Net(DeltaOf(v, query), own[n])) != 0
    ensures Sorts(order, own) && !ShowsLedger(v, history, LinesOf(v, query, Payments(order)))
  {
    var a: nat :| a < |own[k].payments| && HasLine(v, query, own[k].payments[a]);
    var at;
    order, at := Shifted(DeltaOf(v, query), own, k, n, a);
    var right := LinePresent(v, query, own, k, a);
    var wrong := LinePresent(v, query, order, at, a);
    SameRow(v, history, right, wrong);
  }

  ghost predicate AlwaysRight(v: View, query: Outs, history: seq<Payment>, own: seq<Tx>) {
    forall order :: Sorts(order, own) ==> ShowsLedger(v, history, LinesOf(v, query, Payments(order)))
  }

  /** Every way to sort an address's transactions by time gives lines that show the ledger if and only if its ties are
      harmless. */
  lemma {:induction false} AlwaysRightIff(v: View, query: Outs, history: seq<Payment>, own: seq<Tx>)
    requires Distinct(own) && SortedBy(own, TimeOf) && DistinctIds(history)
    requires ShowsLedger(v, history, LinesOf(v, query, Payments(own)))
    ensures AlwaysRight(v, query, history, own) <==> Harmless(v, query, own)
  {
    if Harmless(v, query, own) {
      forall order | Sorts(order, own) ensures ShowsLedger(v, history, LinesOf(v, query, Payments(order))) {
        HarmlessIsRight(v, query, history, own, order);
      }
    } else {
      var t, u :| t in own && u in own && t != u && t.timestamp == u.timestamp && TxHasLine(v, query, t)
                  && Wrap(Net(DeltaOf(v, query), u)) != 0;
      var k: nat :| k < |own| && own[k] == t;
      var n: nat :| n < |own| && own[n] == u;
      var order := HarmIsWrong(v, query, history, own, k, n);
    }
  }

  // ----- The whole flow -----

  /** The order of the chain is an order of time, and nothing occurs twice in it. */
  ghost predicate Orderly(chain: seq<Tx>, own: seq<Tx>) {
    Distinct(own) && SortedBy(own, TimeOf) && DistinctIds(Payments(chain))
  }

  /** For the transactions of a complete chain all of whose payments are seen whole. */
  lemma {:induction false} FlowAlwaysRightIff(v: View, query: Outs, txs: seq<Tx>, chain: seq<Tx>, own: seq<Tx>)
    requires Backed(v, query, txs, chain, own) && AllSeen(v, query, chain) && Orderly(chain, own)
    ensures AlwaysRight(v, query, Payments(chain), own) <==> Harmless(v, query, own)
  {
    OwnLinesShowLedger(v, query, txs, chain, own);
    AlwaysRightIff(v, query, Payments(chain), own);
  }

  /** Sort the transactions by time - ties in any order - and convert them.  The balance it ends at is that of a replay
      in any other order.  From the transactions of a complete chain it crashes exactly if one of them spends an output
      of its own, and otherwise ends at the ledger balance exactly if what it does not see nets to 0; if every payment
      is seen whole and ties are harmless, every line shows the ledger balance after its payment; and if every payment
      is seen whole and its sums fit, every line has the direction, the amount and the fee that the ledger gives it. */
  method GetAddrTokenFlow(v: View, query: Outs, txs: seq<Tx>, ghost chain: seq<Tx>, ghost own: seq<Tx>)
    returns (crashed: bool, rows: seq<Row>, balance: U64, ghost order: seq<Tx>)
    ensures Sorts(order, txs)
    ensures crashed <==> CrashesOn(v, query, txs)
    ensures !crashed ==> rows == LinesOf(v, query, Payments(order)) && balance == Replay(DeltaOf(v, query), Payments(txs))
    ensures Backed(v, query, txs, chain, own) ==> (crashed <==> SpendsItself(v, query, txs))
    ensures Backed(v, query, txs, chain, own) && !crashed ==>
              (balance == Wrap(Held(v, Payments(chain))) <==> Wrap(Hidden(v, query, chain)) == 0)
    ensures Backed(v, query, txs, chain, own) && !crashed && AllSeen(v, query, chain) && Orderly(chain, own) ==>
              (Harmless(v, query, own) ==> ShowsLedger(v, Payments(chain), rows))
    ensures Backed(v, query, txs, chain, own) && !crashed && AllSeen(v, query, chain) && AllFit(query, chain) ==>
              TellsLedger(v, query, Payments(chain), rows)
  {
    var a := new Tx[|txs|](i requires 0 <= i < |txs| => txs[i]);
    assert a[..] == txs;
    Sort(a, TimeOf);
    order := a[..];
    crashed, rows, balance := ConvertAll(v, query, a[..]);
    SomeTxCrashes(v, query, order);
    assert CrashesOn(v, query, order) <==> CrashesOn(v, query, txs);
    SortedFlow(DeltaOf(v, query), order, txs);
    if Backed(v, query, txs, chain, own) {
      CrashesIffSelf(v, query, txs, chain, own);
      FlowEndsRightIff(v, query, txs, chain, own);
      if AllSeen(v, query, chain) && Orderly(chain, own) && Harmless(v, query, own) {
        FlowAlwaysRightIff(v, query, txs, chain, own);
        assert Sorts(order, own);
      }
      if !crashed && AllSeen(v, query, chain) && AllFit(query, chain) {
        LinesTellLedger(v, query, txs, chain, own, order);
      }
    }
  }

  // ----- Two payments at the same time -----

  lemma {:induction false} PaymentsPair(time: nat, p: Payment, q: Payment)
    ensures Payments([Tx(time, [p]), Tx(time, [q])]) == [p, q]
  {
    var txs := [Tx(time, [p]), Tx(time, [q])];
    assert txs[1..] == [Tx(time, [q])] && txs[1..][1..] == [];
    assert Payments(txs[1..]) == [q] + [];
  }

  lemma {:induction false} TieHarms(v: View, query: Outs, time: nat, p: Payment, q: Payment) returns (order: seq<Tx>)
    requires Causal([p, q]) && query == Known(After([p, q])) && p.id != q.id
    requires SeenWhole(v, query, p) && SeenWhole(v, query, q) && HasLine(v, query, p) && Wrap(Delta(v, query, q)) != 0
    ensures var chain := [Tx(time, [p]), Tx(time, [q])];
            && Backed(v, query, order, chain, chain) && AllSeen(v, query, chain) && Orderly(chain, chain)
            && SortedBy(order, TimeOf) && !ShowsLedger(v, Payments(chain), LinesOf(v, query, Payments(order)))
  {
    var chain := [Tx(time, [p]), Tx(time, [q])];
    PaymentsPair(time, p, q);
    OwnTxsAll(Unconcerned(v, query), chain);
    assert AllSeen(v, query, chain);
    OwnLinesShowLedger(v, query, chain, chain, chain);
    SumOne(DeltaOf(v, query), q);
    assert TxHasLine(v, query, chain[0]) by { assert HasLine(v, query, chain[0].payments[0]); }
    order := HarmIsWrong(v, query, Payments(chain), chain, 0, 1);
  }

  lemma {:induction false} GiftParts(v: View, query: Outs, p: Payment, amount: U64)
    requires p.inputs == [] && p.outputs == [TxOut(amount, v.addr, v.token)] && amount > 0
    ensures SeenWhole(v, query, p) && HasLine(v, query, p) && Wrap(Delta(v, query, p)) != 0
  {
    assert p.outputs[1..] == [] && SeenOutputs(v, p.outputs) == p.outputs && p.Spent() == [];
    OutputPartOne(v, p.outputs[0]);
    WrapSmall(amount);
  }

  /** Somebody is given an amount twice, at the same time: sorted the other way, the lines show balances that are not
      those after their payments. */
  lemma {:induction false} TiesGoWrong(time: nat, amount: U64, token: Asset)
    returns (v: View, query: Outs, chain: seq<Tx>, order: seq<Tx>)
    requires amount > 0
    ensures Backed(v, query, order, chain, chain) && AllSeen(v, query, chain) && Orderly(chain, chain)
    ensures SortedBy(order, TimeOf) && !ShowsLedger(v, Payments(chain), LinesOf(v, query, Payments(order)))
  {
    var p, q := Payment(Id(0, 0), [], [TxOut(amount, 1, token)]), Payment(Id(1, 0), [], [TxOut(amount, 1, token)]);
    v, query, chain := View(1, token), Known(After([p, q])), [Tx(time, [p]), Tx(time, [q])];
    CausalPair(p, q);
    GiftParts(v, query, p, amount);
    GiftParts(v, query, q, amount);
    order := TieHarms(v, query, time, p, q);
  }
}
