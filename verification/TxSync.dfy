/** The transaction sync loop: it relays pending transactions to new peers in small packs, one send at a time.
    Sizes are natural numbers; the loop's `pending` map holds the transactions still to be sent per peer. */
module TxSyncModel {
  import opened MapSum

  type Peer = nat

  datatype Tx = Tx(id: nat, size: nat)

  const TXSYNC_PACK_SIZE := 100 * 1024

  /** `id` numbers the accepted syncs; the loop does not look at it. */
  datatype Sync = Sync(id: nat, txs: seq<Tx>)

  datatype Pack = Pack(peer: Peer, txs: seq<Tx>)

  /** The loop's own variables. */
  datatype Loop = Loop(pending: map<Peer, Sync>, sending: bool, pack: Pack)

  const INIT_LOOP := Loop(map[], false, Pack(0, []))

  ghost function Size(txs: seq<Tx>): nat {
    if txs == [] then 0 else Size(txs[..|txs| - 1]) + txs[|txs| - 1].size
  }

  /** How many transactions go into a pack that already holds `size`. */
  function FillCount(txs: seq<Tx>, size: nat): (n: nat)
    ensures n <= |txs|
    decreases |txs|
  {
    if txs == [] || size >= TXSYNC_PACK_SIZE then 0 else 1 + FillCount(txs[1..], size + txs[0].size)
  }

  function Send(l: Loop, p: Peer): Loop
    requires p in l.pending
  {
    var s := l.pending[p];
    var n := FillCount(s.txs, 0);
    Loop(if n == |s.txs| then l.pending - {p} else l.pending[p := Sync(s.id, s.txs[n..])],
         true,
         Pack(p, s.txs[..n]))
  }

  function Accept(l: Loop, p: Peer, s: Sync): Loop {
    var l1 := l.(pending := l.pending[p := s]);
    if l.sending then l1 else Send(l1, p)
  }

  /** After a send: forget the peer if it failed. */
  function Settle(l: Loop, ok: bool): Loop {
    l.(sending := false, pending := if ok then l.pending else l.pending - {l.pack.peer})
  }

  /** Then pick any pending sync. */
  function Resume(l: Loop, pick: Peer): Loop {
    if pick in l.pending then Send(l, pick) else l
  }

  // ----- Runs, with the history of every accepted sync -----

  /** `packs` are the packs whose sends have started, `arrived` those whose sends have ended well.  A sync is replaced
      when a newer one takes its place while some of it is pending, and it has failed when a send of it failed or
      when a failed send to its peer made the loop drop what was pending of it. */
  datatype Entry = Entry(peer: Peer, txs: seq<Tx>, packs: seq<seq<Tx>>, arrived: seq<seq<Tx>>, replaced: bool, failed: bool)

  /** `flight` numbers the sync that the pack in flight belongs to. */
  datatype State = State(loop: Loop, flight: nat, log: seq<Entry>)

  const INIT := State(INIT_LOOP, 0, [])

  datatype Step = NewSync(peer: Peer, txs: seq<Tx>) | Done(ok: bool, pick: Peer)

  ghost predicate Enabled(s: State, step: Step) {
    match step
    case NewSync(_, _) => true
    case Done(ok, pick) =>
      var l := Settle(s.loop, ok);
      s.loop.sending && (l.pending != map[] ==> pick in l.pending)
  }

  function LogSend(log: seq<Entry>, l: Loop, p: Peer): seq<Entry> {
    if p in l.pending && l.pending[p].id < |log| then
      var i := l.pending[p].id; log[i := log[i].(packs := log[i].packs + [Send(l, p).pack.txs])]
    else log
  }

  function LogReplaced(log: seq<Entry>, l: Loop, p: Peer): seq<Entry> {
    if p in l.pending && l.pending[p].id < |log| then
      var i := l.pending[p].id; log[i := log[i].(replaced := true)]
    else log
  }

  /** The end of the send in flight. */
  function LogEnd(log: seq<Entry>, flight: nat, pack: seq<Tx>, ok: bool): seq<Entry> {
    if flight >= |log| then log
    else if ok then log[flight := log[flight].(arrived := log[flight].arrived + [pack])]
    else log[flight := log[flight].(failed := true)]
  }

  /** A failed send drops what is pending for its peer, which may be a newer sync. */
  function LogDropped(log: seq<Entry>, l: Loop, ok: bool): seq<Entry> {
    var p := l.pack.peer;
    if !ok && p in l.pending && l.pending[p].id < |log| then
      var i := l.pending[p].id; log[i := log[i].(failed := true)]
    else log
  }

  ghost function DoSend(s: State, p: Peer): State
    requires p in s.loop.pending
  {
    State(Send(s.loop, p), s.loop.pending[p].id, LogSend(s.log, s.loop, p))
  }

  /** The new sync is in place, but nothing has been sent yet. */
  ghost function DoAccept(s: State, p: Peer, txs: seq<Tx>): State {
    var sync := Sync(|s.log|, txs);
    State(s.loop.(pending := s.loop.pending[p := sync]), s.flight,
          LogReplaced(s.log, s.loop, p) + [Entry(p, txs, [], [], false, false)])
  }

  ghost function DoSettle(s: State, ok: bool): State {
    State(Settle(s.loop, ok), s.flight,
          LogDropped(LogEnd(s.log, s.flight, s.loop.pack.txs, ok), s.loop, ok))
  }

  /** Every step ends with the loop sending if there is anything to send. */
  ghost function Apply(s: State, step: Step): State {
    match step
    case NewSync(p, txs) =>
      var s1 := DoAccept(s, p, txs);
      if s.loop.sending then s1 else DoSend(s1, p)
    case Done(ok, pick) =>
      var s1 := DoSettle(s, ok);
      if pick in s1.loop.pending then DoSend(s1, pick) else s1
  }

  /** A step of a run does to the loop's variables what the loop does to them. */
  lemma {:induction false} StepIsLoop(s: State, step: Step)
    ensures Apply(s, step).loop ==
              match step
              case NewSync(p, txs) => Accept(s.loop, p, Sync(|s.log|, txs))
              case Done(ok, pick) => Resume(Settle(s.loop, ok), pick)
  {
  }

  ghost predicate Next(s: State, s': State) {
    exists step :: Enabled(s, step) && s' == Apply(s, step)
  }

  ghost predicate IsRun(run: seq<State>) {
    |run| > 0 && run[0] == INIT && forall i :: 0 <= i < |run| - 1 ==> Next(run[i], run[i + 1])
  }

  // ----- The invariant -----

  ghost function Flat(packs: seq<seq<Tx>>): seq<Tx> {
    if packs == [] then [] else Flat(packs[..|packs| - 1]) + packs[|packs| - 1]
  }

  lemma {:induction false} FlatAppend(packs: seq<seq<Tx>>, pack: seq<Tx>)
    ensures Flat(packs + [pack]) == Flat(packs) + pack
  {
    assert (packs + [pack])[..|packs|] == packs;
  }

  /** A pack without its last transaction is below the target size. */
  ghost predicate GoodPack(pack: seq<Tx>) {
    pack == [] || Size(pack[..|pack| - 1]) < TXSYNC_PACK_SIZE
  }

  ghost predicate Live(l: Loop, log: seq<Entry>, i: nat)
    requires i < |log|
  {
    log[i].peer in l.pending && l.pending[log[i].peer].id == i
  }

  ghost function Rest(l: Loop, log: seq<Entry>, i: nat): seq<Tx>
    requires i < |log|
  {
    if Live(l, log, i) then l.pending[log[i].peer].txs else []
  }

  /** What has been sent of sync i, followed by what is left of it, is what it was - in order, nothing lost or
      repeated - unless a newer sync for its peer or a failed send to its peer ended it. */
  ghost predicate Delivered(l: Loop, log: seq<Entry>, i: nat)
    requires i < |log|
  {
    && Flat(log[i].packs) <= log[i].txs
    && (log[i].replaced || log[i].failed || Flat(log[i].packs) + Rest(l, log, i) == log[i].txs)
    && (log[i].replaced || log[i].failed ==> !Live(l, log, i))
    && (forall k :: 0 <= k < |log[i].packs| ==> GoodPack(log[i].packs[k]))
  }

  ghost predicate InFlight(s: State, i: nat) { s.loop.sending && s.flight == i }

  /** The pack in flight is the last one of a sync for its peer that has not failed. */
  ghost predicate FlightKnown(s: State) {
    s.loop.sending ==>
      && s.flight < |s.log|
      && var e := s.log[s.flight];
         e.peer == s.loop.pack.peer && !e.failed && e.packs != [] && e.packs[|e.packs| - 1] == s.loop.pack.txs
  }

  /** Packs arrive in order; all that have started have arrived, except the one in flight and one that failed. */
  ghost predicate InOrder(s: State, i: nat)
    requires i < |s.log|
  {
    var e := s.log[i];
    && |e.arrived| <= |e.packs| && e.arrived == e.packs[..|e.arrived|]
    && (!e.failed ==> |e.arrived| + (if InFlight(s, i) then 1 else 0) == |e.packs|)
  }

  /** What a sync loses: a pending rest is never empty, nor is a pack, so a replaced or failed sync is not whole. */
  ghost predicate Losses(s: State, i: nat)
    requires i < |s.log|
  {
    var e := s.log[i];
    e.txs != [] ==>
      && (Live(s.loop, s.log, i) ==> Rest(s.loop, s.log, i) != [])
      && (InFlight(s, i) ==> s.loop.pack.txs != [])
      && (e.replaced ==> |Flat(e.packs)| < |e.txs|)
      && (e.failed ==> |Flat(e.arrived)| < |e.txs|)
  }

  ghost predicate Consistent(s: State) {
    && (forall p :: p in s.loop.pending ==>
          s.loop.pending[p].id < |s.log| && s.log[s.loop.pending[p].id].peer == p)
    && (forall i :: 0 <= i < |s.log| ==> Delivered(s.loop, s.log, i))
    && (forall i :: 0 <= i < |s.log| ==> InOrder(s, i))
    && (forall i :: 0 <= i < |s.log| ==> Losses(s, i))
    && FlightKnown(s)
  }

  /** The loop never waits idle with work pending. */
  ghost predicate Inv(s: State) {
    Consistent(s) && (!s.loop.sending ==> s.loop.pending == map[])
  }

  lemma {:induction false} FlatPrefix(packs: seq<seq<Tx>>, k: nat)
    requires k <= |packs|
    ensures Flat(packs[..k]) <= Flat(packs)
    decreases |packs|
  {
    if k == |packs| {
      assert packs[..k] == packs;
    } else {
      var n := |packs| - 1;
      FlatPrefix(packs[..n], k);
      assert packs[..n][..k] == packs[..k];
    }
  }

  lemma {:induction false} AcceptKeeps(s: State, p: Peer, txs: seq<Tx>)
    requires Consistent(s)
    ensures Consistent(DoAccept(s, p, txs)) && p in DoAccept(s, p, txs).loop.pending
  {
    var s' := DoAccept(s, p, txs);
    forall i | 0 <= i < |s'.log| ensures Delivered(s'.loop, s'.log, i) && InOrder(s', i) && Losses(s', i) {
      if i < |s.log| {
        assert Delivered(s.loop, s.log, i) && InOrder(s, i) && Losses(s, i);
      }
    }
  }

  lemma {:induction false} SettleDelivers(s: State, ok: bool, i: nat)
    requires Consistent(s) && s.loop.sending && i < |s.log|
    ensures Delivered(DoSettle(s, ok).loop, DoSettle(s, ok).log, i)
  {
    assert Delivered(s.loop, s.log, i);
  }

  lemma {:induction false} SettleOrders(s: State, ok: bool, i: nat)
    requires Consistent(s) && s.loop.sending && i < |s.log|
    ensures InOrder(DoSettle(s, ok), i)
  {
    assert InOrder(s, i);
  }

  /** What has arrived of a sync falls short of it if some of it is pending, or if a pack of it is in flight. */
  lemma {:induction false} PendingIsShort(packs: seq<seq<Tx>>, k: nat, rest: seq<Tx>, txs: seq<Tx>)
    requires Flat(packs) + rest == txs && rest != [] && k <= |packs|
    ensures |Flat(packs[..k])| < |txs|
  {
    FlatPrefix(packs, k);
  }

  lemma {:induction false} FlightIsShort(arrived: seq<seq<Tx>>, pack: seq<Tx>, txs: seq<Tx>)
    requires Flat(arrived + [pack]) <= txs && pack != []
    ensures |Flat(arrived)| < |txs|
  {
    FlatAppend(arrived, pack);
  }

  lemma {:induction false} FailedIsShort(s: State, i: nat)
    requires Consistent(s) && s.loop.sending && i < |s.log| && s.log[i].txs != []
    requires Live(s.loop, s.log, i) || InFlight(s, i)
    ensures |Flat(s.log[i].arrived)| < |s.log[i].txs|
  {
    var e := s.log[i];
    assert Delivered(s.loop, s.log, i) && InOrder(s, i) && Losses(s, i);
    if InFlight(s, i) {
      assert e.packs == e.arrived + [s.loop.pack.txs];
      FlightIsShort(e.arrived, s.loop.pack.txs, e.txs);
    } else {
      PendingIsShort(e.packs, |e.arrived|, Rest(s.loop, s.log, i), e.txs);
    }
  }

  lemma {:induction false} SettleLoses(s: State, ok: bool, i: nat)
    requires Consistent(s) && s.loop.sending && i < |s.log|
    ensures Losses(DoSettle(s, ok), i)
  {
    assert Delivered(s.loop, s.log, i) && Losses(s, i);
    if s.log[i].txs != [] && (Live(s.loop, s.log, i) || InFlight(s, i)) {
      FailedIsShort(s, i);
    }
    if ok {
      assert DoSettle(s, ok).log[i].failed == s.log[i].failed;
    }
  }

  lemma {:induction false} SettleKeeps(s: State, ok: bool)
    requires Consistent(s) && s.loop.sending
    ensures Consistent(DoSettle(s, ok))
  {
    forall i | 0 <= i < |s.log|
      ensures Delivered(DoSettle(s, ok).loop, DoSettle(s, ok).log, i) && InOrder(DoSettle(s, ok), i)
              && Losses(DoSettle(s, ok), i)
    {
      SettleDelivers(s, ok, i);
      SettleOrders(s, ok, i);
      SettleLoses(s, ok, i);
    }
  }

  lemma {:induction false} FillGood(txs: seq<Tx>, taken: seq<Tx>)
    requires GoodPack(taken)
    ensures GoodPack(taken + txs[..FillCount(txs, Size(taken))])
    decreases |txs|
  {
    if txs == [] || Size(taken) >= TXSYNC_PACK_SIZE {
      assert taken + txs[..0] == taken;
    } else {
      var more := taken + [txs[0]];
      assert more[..|more| - 1] == taken;
      FillGood(txs[1..], more);
      var n := FillCount(txs[1..], Size(more));
      assert taken + txs[..n + 1] == more + txs[1..][..n];
    }
  }

  /** A pack takes everything or reaches the target, and something unless there is nothing. */
  lemma {:induction false} FillFull(txs: seq<Tx>, taken: seq<Tx>)
    ensures var n := FillCount(txs, Size(taken));
            && (n == |txs| || Size(taken + txs[..n]) >= TXSYNC_PACK_SIZE)
            && (txs != [] && Size(taken) < TXSYNC_PACK_SIZE ==> n > 0)
    decreases |txs|
  {
    if txs == [] || Size(taken) >= TXSYNC_PACK_SIZE {
      assert taken + txs[..0] == taken;
    } else {
      var more := taken + [txs[0]];
      assert more[..|more| - 1] == taken;
      FillFull(txs[1..], more);
      var n := FillCount(txs[1..], Size(more));
      assert taken + txs[..n + 1] == more + txs[1..][..n];
    }
  }

  /** Sending a pack moves it from what is left to what has been sent. */
  lemma {:induction false} SendMoves(sent: seq<seq<Tx>>, txs: seq<Tx>, all: seq<Tx>)
    requires Flat(sent) + txs == all
    ensures var n := FillCount(txs, 0);
            && GoodPack(txs[..n])
            && Flat(sent + [txs[..n]]) <= all
            && Flat(sent + [txs[..n]]) + txs[n..] == all
  {
    var n := FillCount(txs, 0);
    FillGood(txs, []);
    assert [] + txs[..n] == txs[..n];
    FlatAppend(sent, txs[..n]);
    assert txs == txs[..n] + txs[n..];
    assert Flat(sent) + (txs[..n] + txs[n..]) == (Flat(sent) + txs[..n]) + txs[n..];
  }

  lemma {:induction false} SendDeliversHere(s: State, p: Peer)
    requires Consistent(s) && p in s.loop.pending && !s.loop.sending
    ensures Delivered(DoSend(s, p).loop, DoSend(s, p).log, s.loop.pending[p].id)
  {
    var i := s.loop.pending[p].id;
    assert Delivered(s.loop, s.log, i) && Live(s.loop, s.log, i);
    SendMoves(s.log[i].packs, s.loop.pending[p].txs, s.log[i].txs);
  }

  lemma {:induction false} SendDeliversElsewhere(s: State, p: Peer, i: nat)
    requires Consistent(s) && p in s.loop.pending && !s.loop.sending && i < |s.log| && i != s.loop.pending[p].id
    ensures Delivered(DoSend(s, p).loop, DoSend(s, p).log, i)
  {
    assert Delivered(s.loop, s.log, i);
    assert DoSend(s, p).log[i] == s.log[i];
    assert Live(DoSend(s, p).loop, DoSend(s, p).log, i) == Live(s.loop, s.log, i);
  }

  lemma {:induction false} SendOrders(s: State, p: Peer, i: nat)
    requires Consistent(s) && p in s.loop.pending && !s.loop.sending && i < |s.log|
    ensures InOrder(DoSend(s, p), i)
  {
    assert InOrder(s, i) && Delivered(s.loop, s.log, i);
  }

  lemma {:induction false} SendLoses(s: State, p: Peer, i: nat)
    requires Consistent(s) && p in s.loop.pending && !s.loop.sending && i < |s.log|
    ensures Losses(DoSend(s, p), i)
  {
    assert Losses(s, i) && Delivered(s.loop, s.log, i);
    FillFull(s.loop.pending[p].txs, []);
  }

  lemma {:induction false} SendKeeps(s: State, p: Peer)
    requires Consistent(s) && p in s.loop.pending && !s.loop.sending
    ensures Consistent(DoSend(s, p))
  {
    assert Delivered(s.loop, s.log, s.loop.pending[p].id);
    forall i | 0 <= i < |s.log|
      ensures Delivered(DoSend(s, p).loop, DoSend(s, p).log, i) && InOrder(DoSend(s, p), i) && Losses(DoSend(s, p), i)
    {
      if i == s.loop.pending[p].id {
        SendDeliversHere(s, p);
      } else {
        SendDeliversElsewhere(s, p, i);
      }
      SendOrders(s, p, i);
      SendLoses(s, p, i);
    }
  }

  lemma {:induction false} StepKeepsInv(s: State, step: Step)
    requires Inv(s) && Enabled(s, step)
    ensures Inv(Apply(s, step))
  {
    match step
    case NewSync(p, txs) =>
      AcceptKeeps(s, p, txs);
      if !s.loop.sending {
        SendKeeps(DoAccept(s, p, txs), p);
      }
    case Done(ok, pick) =>
      SettleKeeps(s, ok);
      if pick in DoSettle(s, ok).loop.pending {
        SendKeeps(DoSettle(s, ok), pick);
      }
  }

  /** In every state of every run: every accepted sync is delivered so far, every pack is within its size, and
      the loop does not wait idle with work pending. */
  lemma {:induction false} Delivery(run: seq<State>)
    requires IsRun(run)
    ensures Inv(run[|run| - 1])
    decreases |run|
  {
    if |run| > 1 {
      var k := |run| - 2;
      assert run[..k + 1][k] == run[k];
      Delivery(run[..k + 1]);
      assert Next(run[k], run[k + 1]);
      var step :| Enabled(run[k], step) && run[k + 1] == Apply(run[k], step);
      StepKeepsInv(run[k], step);
    }
  }

  /** In every state of every run, what has arrived of a sync is a prefix of it. */
  lemma {:induction false} ArrivedSoFar(run: seq<State>, i: nat)
    requires IsRun(run) && i < |run[|run| - 1].log|
    ensures var e := run[|run| - 1].log[i]; Flat(e.arrived) <= e.txs
  {
    var s := run[|run| - 1];
    Delivery(run);
    assert Delivered(s.loop, s.log, i) && InOrder(s, i);
    FlatPrefix(s.log[i].packs, |s.log[i].arrived|);
  }

  /** Once the loop has come to rest, a sync has arrived whole if and only if it was empty or was neither replaced
      nor failed: not even in its last pack, after which the loop has forgotten it. */
  lemma {:induction false} ArrivesWholeIff(run: seq<State>, i: nat)
    requires IsRun(run) && !run[|run| - 1].loop.sending && i < |run[|run| - 1].log|
    ensures var e := run[|run| - 1].log[i]; Flat(e.arrived) == e.txs <==> e.txs == [] || (!e.replaced && !e.failed)
  {
    var s := run[|run| - 1];
    var e := s.log[i];
    Delivery(run);
    assert Delivered(s.loop, s.log, i) && InOrder(s, i) && Losses(s, i);
    FlatPrefix(e.packs, |e.arrived|);
    if !e.replaced && !e.failed {
      assert e.arrived == e.packs;
      assert Flat(e.packs) + [] == Flat(e.packs);
    }
  }

  /** The last pack of a sync can fail when the loop no longer tracks the sync: nothing arrives, and nothing is sent
      again. */
  lemma {:induction false} LastPackFails(p: Peer, tx: Tx) returns (run: seq<State>)
    ensures IsRun(run) && |run| == 3 && !run[2].loop.sending
    ensures p !in run[1].loop.pending && run[|run| - 1].log == [Entry(p, [tx], [[tx]], [], false, true)]
  {
    var s1 := Apply(INIT, NewSync(p, [tx]));
    assert FillCount([tx], 0) == 1;
    assert [tx][..1] == [tx];
    assert Send(DoAccept(INIT, p, [tx]).loop, p).pack.txs == [tx];
    assert s1.loop.pending == map[] && |s1.log| == 1 && s1.log[0] == Entry(p, [tx], [] + [[tx]], [], false, false);
    assert Next(INIT, s1);
    var s2 := Apply(s1, Done(false, p));
    assert Enabled(s1, Done(false, p));
    assert Next(s1, s2);
    assert [] + [[tx]] == [[tx]];
    assert |s2.log| == 1 && s2.log[0] == Entry(p, [tx], [[tx]], [], false, true);
    run := [INIT, s1, s2];
  }

  /** While a send is active, only its end touches the pack; a new sync starts no second send. */
  lemma {:induction false} PackIsStable(s: State, step: Step)
    requires s.loop.sending && Enabled(s, step) && !step.Done?
    ensures var s' := Apply(s, step);
            && s'.loop.pack == s.loop.pack && s'.loop.sending && s'.flight == s.flight
            && (forall i :: 0 <= i < |s.log| ==>
                  i < |s'.log| && s'.log[i].packs == s.log[i].packs && s'.log[i].arrived == s.log[i].arrived)
  {
  }

  /** A new sync takes the place of whatever is pending for its peer, whose rest is not sent any more, and concerns no
      other peer; as long as a send is active all of it is pending, otherwise it starts at once. */
  lemma {:induction false} NewestWins(s: State, p: Peer, txs: seq<Tx>, j: nat)
    requires Inv(s) && j < |s.log|
    ensures var s', i := Apply(s, NewSync(p, txs)), |s.log|;
            && |s'.log| == i + 1 && s'.log[i].peer == p && s'.log[i].txs == txs
            && !s'.log[i].replaced && !s'.log[i].failed
            && (if s.loop.sending then Rest(s'.loop, s'.log, i) == txs
                else InFlight(s', i) && s'.loop.pack.txs + Rest(s'.loop, s'.log, i) == txs)
            && (s.log[j].peer == p ==> !Live(s'.loop, s'.log, j) && (Live(s.loop, s.log, j) ==> s'.log[j].replaced))
            && (s.log[j].peer != p ==> s'.log[j] == s.log[j] && Rest(s'.loop, s'.log, j) == Rest(s.loop, s.log, j))
  {
    assert Delivered(s.loop, s.log, j);
    var n := FillCount(txs, 0);
    assert txs[..n] + txs[n..] == txs;
  }

  // ----- Progress -----

  ghost function Loads(pending: map<Peer, Sync>): map<Peer, nat> {
    map p | p in pending :: 1 + |pending[p].txs|
  }

  /** The work left: pending peers and their transactions. */
  ghost function Left(pending: map<Peer, Sync>): nat { Total(Loads(pending)) }

  lemma {:induction false} LeftSplit(pending: map<Peer, Sync>, p: Peer)
    requires p in pending
    ensures Left(pending) == 1 + |pending[p].txs| + Left(pending - {p})
  {
    TotalSplit(Loads(pending), p);
    assert Loads(pending) - {p} == Loads(pending - {p});
  }

  lemma {:induction false} LeftAfterSend(l: Loop, p: Peer)
    requires p in l.pending
    ensures Left(Send(l, p).pending) < Left(l.pending)
  {
    var txs := l.pending[p].txs;
    FillFull(txs, []);
    LeftSplit(l.pending, p);
    var after := Send(l, p).pending;
    if p in after {
      LeftSplit(after, p);
      assert after - {p} == l.pending - {p};
    }
  }

  ghost function Measure(l: Loop): nat { Left(l.pending) + if l.sending then 1 else 0 }

  /** Without new syncs, every completed send makes the rest of the work smaller. */
  lemma {:induction false} DoneShrinks(s: State, ok: bool, pick: Peer)
    requires Enabled(s, Done(ok, pick))
    ensures Measure(Apply(s, Done(ok, pick)).loop) < Measure(s.loop)
  {
    var l := Settle(s.loop, ok);
    if !ok && s.loop.pack.peer in s.loop.pending {
      LeftSplit(s.loop.pending, s.loop.pack.peer);
    } else {
      assert l.pending == s.loop.pending;
    }
    if pick in l.pending {
      LeftAfterSend(l, pick);
    }
  }
}

/** The loop itself. */
module TxSync {
  import opened Distinctness
  import opened Wrappers
  import opened TxSyncModel

  class TxSyncLoop {
    var pending: map<Peer, Sync>
    var sending: bool
    var pack: Pack

    constructor ()
      ensures View() == INIT_LOOP
    {
      pending, sending, pack := map[], false, Pack(0, []);
    }

    ghost function View(): Loop
      reads this
    {
      Loop(pending, sending, pack)
    }

    /** Fill the pack from the peer's sync, remove what it takes and start the send. */
    method StartSend(p: Peer)
      requires p in pending && !sending
      modifies this
      ensures View() == Send(old(View()), p)
    {
      var s := pending[p];
      var size: nat := 0;
      var txs := [];
      var i := 0;
      while i < |s.txs| && size < TXSYNC_PACK_SIZE
        invariant 0 <= i <= |s.txs| && txs == s.txs[..i]
        invariant i + FillCount(s.txs[i..], size) == FillCount(s.txs, 0)
      {
        txs := txs + [s.txs[i]];
        size := size + s.txs[i].size;
        assert s.txs[i..][1..] == s.txs[i + 1..];
        i := i + 1;
      }
      pack := Pack(p, txs);
      var rest := s.txs[|txs|..];
      pending := pending[p := Sync(s.id, rest)];
      if |rest| == 0 {
        pending := pending - {p};
      }
      sending := true;
    }

    method OnSync(p: Peer, s: Sync)
      modifies this
      ensures View() == Accept(old(View()), p, s)
      ensures sending && pending - {p} == old(pending) - {p}
      ensures old(sending) ==> pack == old(pack) && p in pending && pending[p] == s
      ensures !old(sending) ==> pack.peer == p && pack.txs + (if p in pending then pending[p].txs else []) == s.txs
    {
      pending := pending[p := s];
      if !sending {
        StartSend(p);
        assert s.txs[..|pack.txs|] + s.txs[|pack.txs|..] == s.txs;
      }
    }

    /** Count down to the pending sync at a random place of the iteration over the map. */
    method Pick(order: seq<Peer>, draw: nat) returns (p: Option<Peer>)
      requires Distinct(order) && (forall q :: q in order <==> q in pending)
      requires pending != map[] ==> draw < |order|
      ensures p == if pending == map[] then None else Some(order[draw])
    {
      if |pending| == 0 {
        return None;
      }
      var n: int := draw + 1;
      for i := 0 to |order|
        invariant n == draw + 1 - i && i <= draw
      {
        n := n - 1;
        if n == 0 {
          return Some(order[i]);
        }
      }
      p := None;
    }

    method OnDone(ok: bool, order: seq<Peer>, draw: nat) returns (pick: Peer)
      requires sending && Distinct(order) && (forall q :: q in order <==> q in Settle(View(), ok).pending)
      requires Settle(View(), ok).pending != map[] ==> draw < |order|
      modifies this
      ensures Settle(old(View()), ok).pending != map[] ==> pick in Settle(old(View()), ok).pending
      ensures View() == Resume(Settle(old(View()), ok), pick)
    {
      sending := false;
      if !ok {
        pending := pending - {pack.peer};
      }
      pick := pack.peer;
      var next := Pick(order, draw);
      if next.Some? {
        assert order[draw] in order;
        pick := next.value;
        StartSend(pick);
      }
    }
  }
}
