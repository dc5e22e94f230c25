/** Greedy coin selection: sort the outputs by falling amount and take all of them, but at most 500. */
module CoinSelection {
  import opened Uint64
  import opened Sorting

  datatype OutPoint = OutPoint(txHash: nat, messageIndex: nat, outIndex: nat)

  datatype Txo = Txo(outPoint: OutPoint, amount: U64)

  const MAX_PICK := 500

  datatype Selection =
    | Picked(taken: seq<Txo>, change: U64)
    | Fragmented // more than 500 outputs would be needed
    | NotEnough

  ghost function Sum(s: seq<Txo>): nat {
    if s == [] then 0 else s[0].amount + Sum(s[1..])
  }

  lemma {:induction false} SumAppend(s: seq<Txo>, x: Txo)
    ensures Sum(s + [x]) == Sum(s) + x.amount
    decreases |s|
  {
    if s == [] {
      assert [x][1..] == [];
    } else {
      SumAppend(s[1..], x);
      assert (s + [x])[1..] == s[1..] + [x];
    }
  }

  lemma {:induction false} SumRemove(s: seq<Txo>, i: nat)
    requires i < |s|
    ensures Sum(s) == s[i].amount + Sum(s[..i] + s[i + 1..])
    decreases |s|
  {
    if i == 0 {
      assert s[..0] + s[1..] == s[1..];
    } else {
      SumRemove(s[1..], i - 1);
      assert (s[..i] + s[i + 1..])[1..] == s[1..][..i - 1] + s[1..][i..];
    }
  }

  ghost predicate Descending(s: seq<Txo>) {
    forall i, j :: 0 <= i < j < |s| ==> s[i].amount >= s[j].amount
  }

  ghost function Top(s: seq<Txo>, k: nat): seq<Txo> {
    s[..if |s| < k then |s| else k]
  }

  /** What the loop returns once the outputs are sorted; the running sum wraps around at 2^64. */
  ghost function Greedy(sorted: seq<Txo>, amount: U64): Selection {
    var taken := Top(sorted, MAX_PICK);
    var accum := Sum(taken) % TWO64;
    if accum >= amount then Picked(taken, accum - amount)
    else if |sorted| >= MAX_PICK then Fragmented
    else NotEnough
  }

  lemma {:induction false} SumTake(s: seq<Txo>, i: nat)
    requires i < |s|
    ensures Sum(s[..i + 1]) % TWO64 == AddU64(Sum(s[..i]) % TWO64, s[i].amount)
  {
    assert s[..i + 1] == s[..i] + [s[i]];
    SumAppend(s[..i], s[i]);
  }

  /** The loop over the sorted outputs. */
  method TakeAll(sorted: seq<Txo>, amount: U64) returns (r: Selection)
    ensures r == Greedy(sorted, amount)
  {
    var taken, accum := [], 0;
    var i := 0;
    while i < |sorted|
      invariant 0 <= i <= |sorted| && i < MAX_PICK
      invariant taken == sorted[..i] && accum == Sum(sorted[..i]) % TWO64
    {
      SumTake(sorted, i);
      accum := AddU64(accum, sorted[i].amount);
      taken := taken + [sorted[i]];
      if i >= MAX_PICK - 1 {
        assert taken == Top(sorted, MAX_PICK) == sorted[..i + 1];
        if accum < amount {
          return Fragmented;
        }
        return Picked(taken, accum - amount);
      }
      i := i + 1;
    }
    assert taken == Top(sorted, MAX_PICK) == sorted[..i];
    if accum < amount {
      return NotEnough;
    }
    r := Picked(taken, accum - amount);
  }

  method SelectUtxoGreedy(utxos: array<Txo>, amount: U64) returns (r: Selection)
    modifies utxos
    ensures Descending(utxos[..]) && multiset(utxos[..]) == old(multiset(utxos[..]))
    ensures r == Greedy(utxos[..], amount)
  {
    Sort(utxos, (x: Txo) => 0 - x.amount);
    r := TakeAll(utxos[..], amount);
  }

  // ----- Greedy selection is complete and maximal -----

  /** `pick` takes each output at most as often as `utxos` has it. */
  ghost predicate Pick(pick: seq<Txo>, utxos: multiset<Txo>, k: nat) {
    multiset(pick) <= utxos && |pick| <= k
  }

  ghost predicate Payable(utxos: multiset<Txo>, amount: nat) {
    exists pick :: Pick(pick, utxos, MAX_PICK) && Sum(pick) >= amount
  }

  lemma {:induction false} DropBoth(p: multiset<Txo>, s: multiset<Txo>, y: Txo, x: Txo)
    requires p <= s && y in p && (y == x || x !in p)
    ensures p - multiset{y} <= s - multiset{x}
  {
    forall z ensures (p - multiset{y})[z] <= (s - multiset{x})[z] {
    }
  }

  lemma {:induction false} PickedIsThere(s: seq<Txo>, pick: seq<Txo>, i: nat)
    requires Descending(s) && multiset(pick) <= multiset(s) && i < |pick|
    ensures s != [] && pick[i].amount <= s[0].amount
  {
    assert pick[i] in multiset(pick);
    assert pick[i] in s;
  }

  /** What an exchange may remove: the largest output if it was picked, else any picked one. */
  lemma {:induction false} Exchangeable(s: seq<Txo>, pick: seq<Txo>, i: nat)
    requires s != [] && multiset(pick) <= multiset(s) && i < |pick|
    requires pick[i] == s[0] || s[0] !in multiset(pick)
    ensures multiset(pick[..i] + pick[i + 1..]) <= multiset(s[1..])
  {
    assert pick[i] in multiset(pick);
    RemoveOne(pick, i);
    RemoveFirst(s);
    DropBoth(multiset(pick), multiset(s), pick[i], s[0]);
  }

  /** The exchange argument: no choice of at most k outputs beats the first k of the sorted list. */
  lemma {:induction false} TopIsMaximal(s: seq<Txo>, pick: seq<Txo>, k: nat)
    requires Descending(s) && Pick(pick, multiset(s), k)
    ensures Sum(pick) <= Sum(Top(s, k))
    decreases |pick|
  {
    if pick != [] {
      PickedIsThere(s, pick, 0);
      var i: nat := if s[0] in pick then var i :| 0 <= i < |pick| && pick[i] == s[0]; i else 0;
      PickedIsThere(s, pick, i);
      Exchangeable(s, pick, i);
      SumRemove(pick, i);
      TopIsMaximal(s[1..], pick[..i] + pick[i + 1..], k - 1);
      assert Top(s, k)[1..] == Top(s[1..], k - 1);
    }
  }

  lemma {:induction false} TopIsPick(s: seq<Txo>, k: nat)
    ensures Pick(Top(s, k), multiset(s), k)
  {
    var n := |Top(s, k)|;
    assert s == s[..n] + s[n..];
  }

  /** With sums below 2^64, selection succeeds if and only if at most 500 of the outputs can pay the
      amount; it then takes as many outputs as allowed, and no choice of at most 500 has a larger total. */
  lemma {:induction false} GreedyIsComplete(sorted: seq<Txo>, amount: U64)
    requires Descending(sorted) && Sum(Top(sorted, MAX_PICK)) < TWO64
    ensures Greedy(sorted, amount).Picked? <==> Payable(multiset(sorted), amount)
    ensures match Greedy(sorted, amount)
            case Picked(taken, change) =>
              && Pick(taken, multiset(sorted), MAX_PICK)
              && |taken| == (if |sorted| < MAX_PICK then |sorted| else MAX_PICK)
              && Sum(taken) == amount + change
              && (forall pick :: Pick(pick, multiset(sorted), MAX_PICK) ==> Sum(pick) <= Sum(taken))
            case Fragmented => |sorted| >= MAX_PICK
            case NotEnough => |sorted| < MAX_PICK
  {
    var taken := Top(sorted, MAX_PICK);
    TopIsPick(sorted, MAX_PICK);
    forall pick | Pick(pick, multiset(sorted), MAX_PICK) ensures Sum(pick) <= Sum(taken) {
      TopIsMaximal(sorted, pick, MAX_PICK);
    }
  }

  /** When the sum does overflow, selection is right if and only if what is left of it still pays. */
  lemma {:induction false} OverflowHidesFunds(sorted: seq<Txo>, amount: U64)
    requires Descending(sorted) && Sum(Top(sorted, MAX_PICK)) >= TWO64
    ensures Payable(multiset(sorted), amount)
    ensures Greedy(sorted, amount).Picked? <==> Sum(Top(sorted, MAX_PICK)) % TWO64 >= amount
    ensures Greedy(sorted, amount).Picked? ==>
              Sum(Greedy(sorted, amount).taken) > amount + Greedy(sorted, amount).change
    ensures match Greedy(sorted, amount)
            case Picked(taken, change) => taken == Top(sorted, MAX_PICK) && Sum(taken) % TWO64 == amount + change
            case Fragmented => |sorted| >= MAX_PICK
            case NotEnough => |sorted| < MAX_PICK
  {
    TopIsPick(sorted, MAX_PICK);
  }

  /** Two outputs of 2^63 cannot pay 1. */
  lemma {:induction false} OverflowExample(a: OutPoint, b: OutPoint)
    ensures var s := [Txo(a, TWO63), Txo(b, TWO63)];
            Descending(s) && Payable(multiset(s), 1) && Greedy(s, 1) == NotEnough
  {
    var s := [Txo(a, TWO63), Txo(b, TWO63)];
    assert s[1..] == [Txo(b, TWO63)] && s[1..][1..] == [];
    assert Sum(s[1..]) == TWO63;
    assert Sum(s) == TWO64 && Sum(s) % TWO64 == 0;
    assert Top(s, MAX_PICK) == s[..2] == s;
    OverflowHidesFunds(s, 1);
  }
}
