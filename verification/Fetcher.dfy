/** The light fetcher's import bookkeeping: one event loop and one goroutine per running import.
    The priority queue is a multiset, so nothing is claimed about the order of imports. */
module FetcherModel {
  import opened Uint64

  type Hash = nat
  type Peer = string

  datatype Op = Op(origin: Peer, hash: Hash, number: U64)

  const MAX_UNCLE_DIST := 14
  const MAX_QUEUE_DIST := 32
  const BLOCK_LIMIT := 64

  /** The loop either drains its queue or waits for an event. */
  datatype Phase = Draining | Waiting

  datatype State = State(
    phase: Phase,
    queue: multiset<Op>,
    queues: map<Peer, int>,
    queued: map<Hash, Op>,
    running: multiset<Hash>,  // imports that run
    finished: multiset<Hash>  // imports that wait for the loop to take their hash
  )

  const INIT := State(Draining, multiset{}, map[], map[], multiset{}, multiset{})

  function Count(queues: map<Peer, int>, p: Peer): int { if p in queues then queues[p] else 0 }

  /** The distance from the chain head in 64-bit signed arithmetic. */
  function Distance(number: U64, height: U64): int {
    var d := AsInt(number) - AsInt(height);
    if d >= TWO63 then d - TWO64 else if d < -(TWO63 as int) then d + TWO64 else d
  }

  predicate Accepts(s: State, op: Op, height: U64) {
    && Count(s.queues, op.origin) + 1 <= BLOCK_LIMIT
    && -MAX_UNCLE_DIST <= Distance(op.number, height) <= MAX_QUEUE_DIST
    && op.hash !in s.queued
  }

  datatype Step =
    | Pop(op: Op)                    // the loop starts the import of a queued header
    | Wait                           // the queue is empty
    | Inject(op: Op, height: U64)    // a header is offered
    | Finish(hash: Hash)             // an import ends, in any order and whatever its outcome
    | Forget(hash: Hash)             // the loop hears of it

  ghost predicate Enabled(s: State, step: Step) {
    match step
    case Pop(op) => s.phase == Draining && op in s.queue
    case Wait => s.phase == Draining && s.queue == multiset{}
    case Inject(_, _) => s.phase == Waiting
    case Finish(h) => h in s.running
    case Forget(h) => s.phase == Waiting && h in s.finished
  }

  function Enqueue(s: State, op: Op, height: U64): (s': State)
    ensures !Accepts(s, op, height) ==> s' == s
  {
    if !Accepts(s, op, height) then s
    else s.(queues := s.queues[op.origin := Count(s.queues, op.origin) + 1],
            queued := s.queued[op.hash := op],
            queue := s.queue + multiset{op})
  }

  function Decrement(queues: map<Peer, int>, p: Peer): map<Peer, int> {
    var n := Count(queues, p) - 1;
    if n == 0 then queues - {p} else queues[p := n]
  }

  function ForgetBlock(s: State, hash: Hash): State {
    if hash !in s.queued then s
    else s.(queues := Decrement(s.queues, s.queued[hash].origin), queued := s.queued - {hash})
  }

  ghost function Apply(s: State, step: Step): State {
    match step
    case Pop(op) => s.(queue := s.queue - multiset{op}, running := s.running + multiset{op.hash})
    case Wait => s.(phase := Waiting)
    case Inject(op, height) => Enqueue(s, op, height).(phase := Draining)
    case Finish(h) => s.(running := s.running - multiset{h}, finished := s.finished + multiset{h})
    case Forget(h) => ForgetBlock(s.(finished := s.finished - multiset{h}), h).(phase := Draining)
  }

  ghost predicate Next(s: State, s': State) {
    exists step :: Enabled(s, step) && s' == Apply(s, step)
  }

  ghost predicate IsRun(run: seq<State>) {
    |run| > 0 && run[0] == INIT && forall i :: 0 <= i < |run| - 1 ==> Next(run[i], run[i + 1])
  }

  // ----- The invariant -----

  ghost function Originated(queued: map<Hash, Op>, p: Peer): set<Hash> {
    set h | h in queued && queued[h].origin == p
  }

  /** A peer's counter is the number of queued hashes it originated; counters of 0 are deleted. */
  ghost predicate Counted(s: State, p: Peer) {
    && Count(s.queues, p) == |Originated(s.queued, p)|
    && (p in s.queues ==> 1 <= s.queues[p] <= BLOCK_LIMIT)
  }

  /** A queued hash is in exactly one of three places: the queue, the running or the finished imports. */
  ghost predicate Placed(s: State, h: Hash) {
    && (h in s.queued ==> s.queued[h].hash == h
                          && s.queue[s.queued[h]] + s.running[h] + s.finished[h] == 1)
    && (h !in s.queued ==> s.running[h] + s.finished[h] == 0)
  }

  ghost predicate Known(s: State, op: Op) {
    op in s.queue ==> op.hash in s.queued && s.queued[op.hash] == op
  }

  ghost predicate Inv(s: State) {
    && (forall p :: Counted(s, p)) && (forall h :: Placed(s, h)) && (forall op :: Known(s, op))
    && (s.phase == Waiting ==> s.queue == multiset{})
  }

  lemma {:induction false} OriginatedAdd(queued: map<Hash, Op>, op: Op, p: Peer)
    requires op.hash !in queued
    ensures |Originated(queued[op.hash := op], p)| == |Originated(queued, p)| + if p == op.origin then 1 else 0
  {
    var after := Originated(queued[op.hash := op], p);
    if p == op.origin {
      assert after == Originated(queued, p) + {op.hash};
    } else {
      assert after == Originated(queued, p);
    }
  }

  lemma {:induction false} OriginatedRemove(queued: map<Hash, Op>, h: Hash, p: Peer)
    requires h in queued
    ensures |Originated(queued - {h}, p)| == |Originated(queued, p)| - if p == queued[h].origin then 1 else 0
  {
    var after := Originated(queued - {h}, p);
    if p == queued[h].origin {
      assert after == Originated(queued, p) - {h} && h in Originated(queued, p);
    } else {
      assert after == Originated(queued, p);
    }
  }

  lemma {:induction false} EnqueueKeeps(s: State, op: Op, height: U64)
    requires Inv(s) && s.phase == Waiting
    ensures Inv(Enqueue(s, op, height).(phase := Draining))
  {
    var s' := Enqueue(s, op, height).(phase := Draining);
    forall p ensures Counted(s', p) {
      assert Counted(s, p);
      if Accepts(s, op, height) {
        OriginatedAdd(s.queued, op, p);
      }
    }
    forall h ensures Placed(s', h) {
      assert Placed(s, h);
      assert Known(s, op);
    }
    forall x ensures Known(s', x) {
      assert Known(s, x);
    }
  }

  lemma {:induction false} ForgetKeeps(s: State, hash: Hash)
    requires Inv(s) && s.phase == Waiting && hash in s.finished
    ensures Inv(Apply(s, Forget(hash)))
  {
    var s' := Apply(s, Forget(hash));
    assert Placed(s, hash);
    assert Counted(s, s.queued[hash].origin);
    forall p ensures Counted(s', p) {
      assert Counted(s, p);
      OriginatedRemove(s.queued, hash, p);
    }
    forall h ensures Placed(s', h) {
      assert Placed(s, h);
    }
    forall x ensures Known(s', x) {
      assert Known(s, x);
    }
  }

  lemma {:induction false} PopKeeps(s: State, op: Op)
    requires Inv(s) && Enabled(s, Pop(op))
    ensures Inv(Apply(s, Pop(op)))
  {
    var s' := Apply(s, Pop(op));
    assert Known(s, op);
    forall p ensures Counted(s', p) {
      assert Counted(s, p);
    }
    forall h ensures Placed(s', h) {
      assert Placed(s, h);
    }
    forall x ensures Known(s', x) {
      assert Known(s, x);
    }
  }

  lemma {:induction false} FinishKeeps(s: State, hash: Hash)
    requires Inv(s) && hash in s.running
    ensures Inv(Apply(s, Finish(hash)))
  {
    var s' := Apply(s, Finish(hash));
    forall p ensures Counted(s', p) {
      assert Counted(s, p);
    }
    forall h ensures Placed(s', h) {
      assert Placed(s, h);
    }
    forall x ensures Known(s', x) {
      assert Known(s, x);
    }
  }

  lemma {:induction false} WaitKeeps(s: State)
    requires Inv(s) && Enabled(s, Wait)
    ensures Inv(Apply(s, Wait))
  {
    var s' := Apply(s, Wait);
    forall p ensures Counted(s', p) {
      assert Counted(s, p);
    }
    forall h ensures Placed(s', h) {
      assert Placed(s, h);
    }
    forall x ensures Known(s', x) {
      assert Known(s, x);
    }
  }

  lemma {:induction false} StepKeepsInv(s: State, step: Step)
    requires Inv(s) && Enabled(s, step)
    ensures Inv(Apply(s, step))
  {
    match step
    case Pop(op) => PopKeeps(s, op);
    case Wait => WaitKeeps(s);
    case Inject(op, height) => EnqueueKeeps(s, op, height);
    case Finish(h) => FinishKeeps(s, h);
    case Forget(h) => ForgetKeeps(s, h);
  }

  lemma {:induction false} RunKeepsInv(run: seq<State>)
    requires IsRun(run)
    ensures Inv(run[|run| - 1])
    decreases |run|
  {
    if |run| == 1 {
      forall p ensures Counted(INIT, p) {
        assert Originated(map[], p) == {};
      }
    } else {
      var k := |run| - 2;
      assert run[..k + 1][k] == run[k];
      RunKeepsInv(run[..k + 1]);
      assert Next(run[k], run[k + 1]);
      var step :| Enabled(run[k], step) && run[k + 1] == Apply(run[k], step);
      StepKeepsInv(run[k], step);
    }
  }

  ghost predicate Reachable(s: State) {
    exists run :: IsRun(run) && run[|run| - 1] == s
  }

  lemma {:induction false} ReachableNext(s: State, step: Step)
    requires Reachable(s) && Enabled(s, step)
    ensures Reachable(Apply(s, step))
  {
    var run :| IsRun(run) && run[|run| - 1] == s;
    assert Next(s, Apply(s, step));
    assert IsRun(run + [Apply(s, step)]);
  }

  lemma {:induction false} ReachableInv(s: State)
    requires Reachable(s)
    ensures Inv(s)
  {
    var run :| IsRun(run) && run[|run| - 1] == s;
    RunKeepsInv(run);
  }

  // ----- What it gives -----

  /** The distance is in range if and only if, in 64 bits, the number is one of the 47 from 14 below the height on. */
  lemma {:induction false} InRangeIff(number: U64, height: U64)
    ensures -14 <= Distance(number, height) <= 32 <==> Wrap(number - height + 14) <= 46
    ensures number < TWO63 && height < TWO63 ==>
              (-14 <= Distance(number, height) <= 32 <==> height - 14 <= number <= height + 32)
  {
    var d := Distance(number, height);
    assert number - height == d || number - height == d + TWO64 || number - height == d - TWO64;
    WrapMultiple(d + 14, 1);
    WrapMultiple(d + 14, -1);
    if 0 <= d + 14 {
      WrapSmall(d + 14);
    } else {
      WrapMultiple(d + 14, 1);
      WrapSmall(d + 14 + TWO64);
    }
  }

  /** Which headers are taken, in every reachable state: those that are not queued yet, from a peer with fewer than 64
      queued ones, from 14 below to 32 above the height of the chain - in 64 bits. */
  lemma {:induction false} TakenIff(s: State, op: Op, height: U64)
    requires Reachable(s) && Enabled(s, Inject(op, height))
    ensures var s' := Apply(s, Inject(op, height));
            var room := op.hash !in s.queued && |Originated(s.queued, op.origin)| < 64;
            && (s'.queued != s.queued <==> room && Wrap(op.number - height + 14) <= 46)
            && (op.number < TWO63 && height < TWO63 ==>
                  (s'.queued != s.queued <==> room && height - 14 <= op.number <= height + 32))
            && (s'.queued != s.queued ==> s'.queued == s.queued[op.hash := op] && s'.queue == s.queue + multiset{op})
            && (s'.queued == s.queued ==> s'.queue == s.queue && s'.queues == s.queues)
  {
    ReachableInv(s);
    assert Counted(s, op.origin);
    InRangeIff(op.number, height);
  }

  /** How many operations in the queue are about a hash, whatever else they say. */
  ghost function InQueue(s: State, h: Hash): nat { CountHash(s.queue, h) }

  ghost function CountHash(ops: multiset<Op>, h: Hash): nat
    decreases |ops|
  {
    if ops == multiset{} then 0
    else var op :| op in ops; (if op.hash == h then 1 else 0) + CountHash(ops - multiset{op}, h)
  }

  /** Where all operations about a hash are the same one, they are counted by its multiplicity. */
  lemma {:induction false} CountSame(ops: multiset<Op>, h: Hash, it: Op)
    requires it.hash == h && forall op :: op in ops && op.hash == h ==> op == it
    ensures CountHash(ops, h) == ops[it]
    decreases |ops|
  {
    if ops != multiset{} {
      var op :| op in ops && CountHash(ops, h) == (if op.hash == h then 1 else 0) + CountHash(ops - multiset{op}, h);
      CountSame(ops - multiset{op}, h, it);
    }
  }

  lemma {:induction false} QueuedOnce(s: State, h: Hash)
    requires Inv(s)
    ensures InQueue(s, h) == if h in s.queued then s.queue[s.queued[h]] else 0
  {
    var it := if h in s.queued then s.queued[h] else Op("", h, 0);
    assert Placed(s, h);
    forall op | op in s.queue && op.hash == h ensures op == it {
      assert Known(s, op);
    }
    CountSame(s.queue, h, it);
    assert h !in s.queued ==> it !in s.queue by { assert Known(s, it); }
  }

  /** In every state of every run: counters are exact, positive and at most 64; a hash is queued if and only if it is
      in exactly one of three places, the queue, the running and the finished imports, and otherwise it is in none of
      them; while the loop waits it is not in the queue. */
  lemma {:induction false} FetcherAccounting(s: State, p: Peer, h: Hash)
    requires Reachable(s)
    ensures Count(s.queues, p) == |Originated(s.queued, p)| <= BLOCK_LIMIT
    ensures p in s.queues <==> Originated(s.queued, p) != {}
    ensures InQueue(s, h) + s.running[h] + s.finished[h] == if h in s.queued then 1 else 0
    ensures s.phase == Waiting ==> s.queue == multiset{} && InQueue(s, h) == 0
  {
    ReachableInv(s);
    assert Counted(s, p) && Placed(s, h);
    QueuedOnce(s, h);
  }

  /** How many steps the loop and its imports can take before it waits for the next header with nothing queued. */
  ghost function Work(s: State): nat {
    4 * |s.queue| + 3 * |s.running| + 2 * |s.finished| + if s.phase == Draining then 1 else 0
  }

  /** Without new headers the fetcher comes to rest ... */
  lemma {:induction false} StepShrinks(s: State, step: Step)
    requires Inv(s) && Enabled(s, step) && !step.Inject?
    ensures Work(Apply(s, step)) < Work(s)
  {
    if step.Forget? {
      assert Placed(s, step.hash);
    }
  }

  ghost predicate AtRest(s: State) {
    forall step {:trigger Enabled(s, step)} :: Enabled(s, step) ==> step.Inject?
  }

  /** ... and at rest it has forgotten everything. */
  lemma {:induction false} RestIsEmpty(s: State)
    requires Reachable(s) && AtRest(s)
    ensures s.phase == Waiting && s.queued == map[] && s.queues == map[]
  {
    ReachableInv(s);
    if s.phase == Draining {
      if s.queue == multiset{} {
        assert Enabled(s, Wait);
      } else {
        var op :| op in s.queue;
        assert Enabled(s, Pop(op));
      }
    }
    forall h ensures h !in s.queued {
      assert Placed(s, h);
      assert !Enabled(s, Finish(h)) && !Enabled(s, Forget(h));
    }
    forall p ensures p !in s.queues {
      assert Counted(s, p);
      assert Originated(s.queued, p) == {};
    }
  }
}

/** The fetcher object; its methods are the loop's part of the steps above. */
module Fetcher {
  import opened Uint64
  import opened FetcherModel

  class LightFetcher {
    var queue: seq<Op>
    var queues: map<Peer, int>
    var queued: map<Hash, Op>
    var running: multiset<Hash>
    var finished: multiset<Hash>

    constructor ()
      ensures View(Draining) == INIT
    {
      queue, queues, queued := [], map[], map[];
      running, finished := multiset{}, multiset{};
    }

    ghost function View(phase: Phase): State
      reads this
    {
      State(phase, multiset(queue), queues, queued, running, finished)
    }

    /** Take an operation from the queue and start its import. */
    method PopItem() returns (op: Op)
      requires queue != []
      modifies this`queue, this`running
      ensures Enabled(old(View(Draining)), Pop(op)) && View(Draining) == Apply(old(View(Draining)), Pop(op))
      ensures |queue| < old(|queue|)
    {
      var k :| 0 <= k < |queue|;
      op := queue[k];
      ghost var q := queue;
      queue := queue[..k] + queue[k + 1..];
      running := running + multiset{op.hash};
      assert multiset(queue) == multiset(q) - multiset{op} by { assert q == q[..k] + [op] + q[k + 1..]; }
    }

    /** The loop empties its queue before it waits: Pop steps, then Wait. */
    method Drain()
      requires Reachable(View(Draining))
      modifies this`queue, this`running
      ensures queue == [] && Reachable(View(Waiting))
    {
      while queue != []
        invariant Reachable(View(Draining))
        decreases |queue|
      {
        ghost var s := View(Draining);
        var op := PopItem();
        ReachableNext(s, Pop(op));
      }
      ReachableNext(View(Draining), Wait);
      assert View(Waiting) == Apply(View(Draining), Wait);
    }

    /** An import ends, at any time and whatever its outcome, by handing its hash to the loop. */
    method ImportEnds(hash: Hash, ghost phase: Phase)
      requires Reachable(View(phase)) && hash in running
      modifies this`running, this`finished
      ensures View(phase) == Apply(old(View(phase)), Finish(hash)) && Reachable(View(phase))
    {
      ReachableNext(View(phase), Finish(hash));
      running := running - multiset{hash};
      finished := finished + multiset{hash};
    }

    /** The loop hears of a new header, and goes back to its queue. */
    method OnInject(op: Op, height: U64)
      requires Reachable(View(Waiting))
      modifies this`queue, this`queues, this`queued
      ensures View(Draining) == Apply(old(View(Waiting)), Inject(op, height)) && Reachable(View(Draining))
      ensures op.number < TWO63 && height < TWO63 ==>
                (op.hash in queued && op.hash !in old(queued) <==>
                   op.hash !in old(queued) && |Originated(old(queued), op.origin)| < 64
                   && height - 14 <= op.number <= height + 32)
    {
      ReachableNext(View(Waiting), Inject(op, height));
      ghost var s := View(Waiting);
      FetcherAccounting(s, op.origin, op.hash);
      Enqueue(op, height);
      assert View(Draining) == View(Waiting).(phase := Draining) == Apply(s, Inject(op, height));
    }

    /** The loop hears of an import that has ended, and goes back to its queue. */
    method OnDone(hash: Hash)
      requires Reachable(View(Waiting)) && hash in finished
      modifies this`queues, this`queued, this`finished
      ensures View(Draining) == Apply(old(View(Waiting)), Forget(hash)) && Reachable(View(Draining))
    {
      ReachableNext(View(Waiting), Forget(hash));
      ghost var s := View(Waiting);
      finished := finished - multiset{hash};
      ForgetBlock(hash);
      assert View(Draining) == View(Waiting).(phase := Draining) == Apply(s, Forget(hash));
    }

    method Enqueue(op: Op, height: U64)
      modifies this`queue, this`queues, this`queued
      ensures View(Waiting) == FetcherModel.Enqueue(old(View(Waiting)), op, height)
      ensures op.number < TWO63 && height < TWO63 ==>
                if op.hash !in old(queued) && (op.origin in old(queues) ==> old(queues)[op.origin] < 64)
                   && height - 14 <= op.number <= height + 32
                then queued == old(queued)[op.hash := op] && queue == old(queue) + [op]
                     && queues == old(queues)[op.origin := 1 + if op.origin in old(queues) then old(queues)[op.origin] else 0]
                else queued == old(queued) && queue == old(queue) && queues == old(queues)
    {
      var count := (if op.origin in queues then queues[op.origin] else 0) + 1;
      if count > BLOCK_LIMIT {
        return;
      }
      var dist := Distance(op.number, height);
      if dist < -MAX_UNCLE_DIST || dist > MAX_QUEUE_DIST {
        return;
      }
      if op.hash !in queued {
        queues := queues[op.origin := count];
        queued := queued[op.hash := op];
        queue := queue + [op];
      }
    }

    method ForgetBlock(hash: Hash)
      modifies this`queues, this`queued
      ensures View(Waiting) == FetcherModel.ForgetBlock(old(View(Waiting)), hash)
    {
      if hash in queued {
        var p := queued[hash].origin;
        queues := queues[p := (if p in queues then queues[p] else 0) - 1];
        if queues[p] == 0 {
          queues := queues - {p};
        }
        queued := queued - {hash};
      }
    }
  }
}
