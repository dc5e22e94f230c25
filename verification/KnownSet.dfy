/** A bounded known set looked at more closely.  Asking for its size, popping and adding are three calls, each with a
    lock of its own, and the sends and handlers of one peer mark hashes at the same time: the step system of GossipModel
    takes a whole mark for one step, and this module says exactly what that leaves out. */
module KnownSet {
  type Hash = nat
  type Mark = nat

  /** The marks under way, with their hashes: about to ask for the size, about to pop, and past their test.  `peak` is
      the largest number of marks that have been past their test at the same time. */
  datatype State = State(known: set<Hash>, testing: map<Mark, Hash>, popping: map<Mark, Hash>, ready: map<Mark, Hash>, peak: nat)

  const INIT := State({}, map[], map[], map[], 0)

  datatype Event = Start(who: Mark, hash: Hash) | Test(who: Mark) | Pop(who: Mark, out: Hash) | Add(who: Mark)

  /** The hashes that marks past their test are about to add. */
  ghost function Coming(s: State): set<Hash> { Hashes(s.ready) }

  ghost function Hashes(marks: map<Mark, Hash>): set<Hash> { set w | w in marks :: marks[w] }

  ghost predicate Enabled(s: State, e: Event) {
    match e
    case Start(w, _) => w !in s.testing && w !in s.popping && w !in s.ready
    case Test(w) => w in s.testing
    case Pop(w, out) => w in s.popping && (s.known == {} || out in s.known)
    case Add(w) => w in s.ready
  }

  ghost function DoTest(s: State, w: Mark, cap: nat): State
    requires w in s.testing
  {
    var s1 := s.(testing := s.testing - {w});
    if |s.known| >= cap then s1.(popping := s.popping[w := s.testing[w]])
    else
      var ready := s.ready[w := s.testing[w]];
      s1.(ready := ready, peak := if |ready| > s.peak then |ready| else s.peak)
  }

  ghost function DoAdd(s: State, w: Mark): State
    requires w in s.ready
  {
    s.(known := s.known + {s.ready[w]}, ready := s.ready - {w})
  }

  ghost function Apply(s: State, e: Event, cap: nat): State
    requires Enabled(s, e)
  {
    match e
    case Start(w, hash) => s.(testing := s.testing[w := hash])
    case Test(w) => DoTest(s, w, cap)
    case Pop(w, out) => s.(known := s.known - {out}, popping := s.popping - {w}, testing := s.testing[w := s.popping[w]])
    case Add(w) => DoAdd(s, w)
  }

  ghost predicate Next(s: State, s': State, cap: nat) {
    exists e :: Enabled(s, e) && s' == Apply(s, e, cap)
  }

  ghost predicate IsRun(run: seq<State>, cap: nat) {
    |run| > 0 && run[0] == INIT && forall i :: 0 <= i < |run| - 1 ==> Next(run[i], run[i + 1], cap)
  }

  ghost predicate Reachable(s: State, cap: nat) {
    exists run :: IsRun(run, cap) && run[|run| - 1] == s
  }

  lemma {:induction false} ReachableNext(s: State, e: Event, cap: nat)
    requires Reachable(s, cap) && Enabled(s, e)
    ensures Reachable(Apply(s, e, cap), cap)
  {
    var run :| IsRun(run, cap) && run[|run| - 1] == s;
    assert Next(s, Apply(s, e, cap), cap);
    assert IsRun(run + [Apply(s, e, cap)], cap);
  }

  ghost predicate Idle(s: State) { s.testing == map[] && s.popping == map[] && s.ready == map[] }

  // ----- How far over its cap a set can be -----

  lemma {:induction false} SubsetSize<T>(a: set<T>, b: set<T>)
    requires a <= b
    ensures |a| <= |b|
    decreases |a|
  {
    if a != {} {
      var x :| x in a;
      SubsetSize(a - {x}, b - {x});
    }
  }

  lemma {:induction false} HashesSize(marks: map<Mark, Hash>)
    ensures |Hashes(marks)| <= |marks|
    decreases marks.Keys
  {
    if marks != map[] {
      var w :| w in marks;
      var rest := marks - {w};
      HashesSize(rest);
      forall h | h in Hashes(marks) ensures h in Hashes(rest) + {marks[w]} {
        var u :| u in marks && marks[u] == h;
        assert u == w || u in rest;
      }
      SubsetSize(Hashes(marks), Hashes(rest) + {marks[w]});
      assert marks.Keys == rest.Keys + {w};
    }
  }

  lemma {:induction false} UnionSize<T>(a: set<T>, b: set<T>)
    ensures |a + b| <= |a| + |b|
  {
    assert a + b == a + (b - a);
    SubsetSize(b - a, b);
  }

  /** Known and coming hashes together exceed the cap by less than the marks that were past their test at once. */
  ghost predicate Inv(s: State, cap: nat) {
    |s.ready| <= s.peak && |s.known + Coming(s)| < cap + s.peak
  }

  lemma {:induction false} TestKeeps(s: State, w: Mark, cap: nat)
    requires cap > 0 && Inv(s, cap) && Enabled(s, Test(w))
    ensures Inv(DoTest(s, w, cap), cap)
  {
    var s' := DoTest(s, w, cap);
    if |s.known| < cap {
      HashesSize(s'.ready);
      UnionSize(s'.known, Coming(s'));
      assert w in s'.ready;
    }
  }

  lemma {:induction false} AddComing(s: State, w: Mark)
    requires Enabled(s, Add(w))
    ensures DoAdd(s, w).known + Coming(DoAdd(s, w)) == s.known + Coming(s)
  {
    var s' := DoAdd(s, w);
    forall h | h in Coming(s) ensures h in s'.known + Coming(s') {
      var u :| u in s.ready && s.ready[u] == h;
      assert u == w || u in s'.ready;
    }
  }

  lemma {:induction false} StepKeepsInv(s: State, e: Event, cap: nat)
    requires cap > 0 && Inv(s, cap) && Enabled(s, e)
    ensures Inv(Apply(s, e, cap), cap)
  {
    match e
    case Start(w, hash) => assert Coming(Apply(s, e, cap)) == Coming(s);
    case Test(w) => TestKeeps(s, w, cap);
    case Pop(w, out) =>
      assert Coming(Apply(s, e, cap)) == Coming(s);
      SubsetSize(s.known - {out} + Coming(s), s.known + Coming(s));
    case Add(w) =>
      AddComing(s, w);
      SubsetSize((s.ready - {w}).Keys, s.ready.Keys);
  }

  lemma {:induction false} RunKeepsInv(run: seq<State>, cap: nat)
    requires cap > 0 && IsRun(run, cap)
    ensures Inv(run[|run| - 1], cap)
    decreases |run|
  {
    if |run| > 1 {
      var k := |run| - 2;
      assert run[..k + 1][k] == run[k];
      RunKeepsInv(run[..k + 1], cap);
      assert Next(run[k], run[k + 1], cap);
      var e :| Enabled(run[k], e) && run[k + 1] == Apply(run[k], e, cap);
      StepKeepsInv(run[k], e, cap);
    } else {
      assert Coming(INIT) == {};
    }
  }

  /** In every run a known set exceeds its cap by less than the number of marks that were past their test at the same
      time; where marks do not overlap there it stays within the cap. */
  lemma {:induction false} ExcessBound(s: State, cap: nat)
    requires cap > 0 && Reachable(s, cap)
    ensures |s.known| < cap + s.peak
    ensures s.peak <= 1 ==> |s.known| <= cap
  {
    var run :| IsRun(run, cap) && run[|run| - 1] == s;
    RunKeepsInv(run, cap);
    SubsetSize(s.known, s.known + Coming(s));
  }

  // ----- A mark that nobody disturbs -----

  /** Mark `w` of hash `h` is the only one under way, at one of its three stages. */
  ghost predicate Alone(s: State, w: Mark, h: Hash) {
    || (s.testing == map[w := h] && s.popping == map[] && s.ready == map[])
    || (s.testing == map[] && s.popping == map[w := h] && s.ready == map[])
    || (s.testing == map[] && s.popping == map[] && s.ready == map[w := h])
  }

  /** It has popped from `known` no more than was needed to make room. */
  ghost predicate Popped(known: set<Hash>, s: State, cap: nat) {
    && s.known <= known && (s.popping != map[] ==> |s.known| >= cap)
    && (if |known| < cap then s.known == known else |s.known| >= cap - 1)
    && (s.ready != map[] ==> |s.known| < cap)
  }

  /** Events of that mark alone, from `s` until it has added its hash. */
  ghost predicate Undisturbed(s: State, w: Mark, events: seq<Event>, s': State, cap: nat)
    decreases |events|
  {
    if events == [] then s == s'
    else events[0].who == w && !events[0].Start? && Enabled(s, events[0])
         && Undisturbed(Apply(s, events[0], cap), w, events[1..], s', cap)
  }

  lemma {:induction false} AloneStep(known: set<Hash>, s: State, w: Mark, h: Hash, e: Event, cap: nat)
    requires cap > 0 && Alone(s, w, h) && Popped(known, s, cap) && Enabled(s, e) && e.who == w && !e.Start?
    ensures var s' := Apply(s, e, cap);
            if e.Add? then Idle(s') && s'.known == s.known + {h} else Alone(s', w, h) && Popped(known, s', cap)
  {
    if e.Pop? {
      assert s.known != {};
      SubsetSize(s.known, known);
      assert |s.known - {e.out}| == |s.known| - 1;
    }
  }

  /** Such a mark does what the step system takes for one step: it adds its hash to what is left after popping arbitrary
      hashes, none if there is room, else down to one below the cap. */
  lemma {:induction false} UndisturbedMark(known: set<Hash>, s: State, w: Mark, h: Hash, events: seq<Event>, s': State, cap: nat)
    returns (kept: set<Hash>)
    requires cap > 0 && Alone(s, w, h) && Popped(known, s, cap) && Undisturbed(s, w, events, s', cap) && Idle(s')
    ensures kept <= known && |kept| == (if |known| < cap then |known| else cap - 1) && s'.known == kept + {h}
    decreases |events|
  {
    assert events != [] by { assert w in s.testing || w in s.popping || w in s.ready; }
    AloneStep(known, s, w, h, events[0], cap);
    if events[0].Add? {
      kept := s.known;
      assert events[1..] == [] by { NothingLeft(Apply(s, events[0], cap), w, events[1..], s', cap); }
    } else {
      kept := UndisturbedMark(known, Apply(s, events[0], cap), w, h, events[1..], s', cap);
    }
  }

  /** And it can always go on until it has added its hash. */
  lemma {:induction false} MarkEnds(known: set<Hash>, s: State, w: Mark, h: Hash, cap: nat) returns (events: seq<Event>, s': State)
    requires cap > 0 && Alone(s, w, h) && Popped(known, s, cap)
    ensures Undisturbed(s, w, events, s', cap) && Idle(s')
    decreases |s.known|, |s.testing|, |s.ready|
  {
    var e := if w in s.ready then Add(w) else if w in s.testing then Test(w)
             else assert s.known != {}; var x :| x in s.known; Pop(w, x);
    AloneStep(known, s, w, h, e, cap);
    var next := Apply(s, e, cap);
    if e.Add? {
      events, s' := [e], next;
      assert events[1..] == [];
    } else {
      assert e.Pop? ==> next.known < s.known && |next.known| == |s.known| - 1;
      var rest;
      rest, s' := MarkEnds(known, next, w, h, cap);
      events := [e] + rest;
      assert events[1..] == rest;
    }
  }

  lemma {:induction false} NothingLeft(s: State, w: Mark, events: seq<Event>, s': State, cap: nat)
    requires Idle(s) && Undisturbed(s, w, events, s', cap)
    ensures events == []
  {
  }

  // ----- When a set can pass its cap -----

  ghost predicate CanAdd(s: State, adds: seq<Mark>)
    decreases |adds|
  {
    adds == [] || (Enabled(s, Add(adds[0])) && CanAdd(DoAdd(s, adds[0]), adds[1..]))
  }

  ghost function AddAll(s: State, adds: seq<Mark>): State
    requires CanAdd(s, adds)
    decreases |adds|
  {
    if adds == [] then s else AddAll(DoAdd(s, adds[0]), adds[1..])
  }

  /** The marks past their test can take the set past its cap, whoever else waits. */
  ghost predicate CanOverfill(s: State, cap: nat) {
    exists adds :: CanAdd(s, adds) && |AddAll(s, adds).known| > cap
  }

  lemma {:induction false} AddsStayWithin(s: State, adds: seq<Mark>)
    requires CanAdd(s, adds)
    ensures AddAll(s, adds).known <= s.known + Coming(s)
    decreases |adds|
  {
    if adds != [] {
      AddComing(s, adds[0]);
      AddsStayWithin(DoAdd(s, adds[0]), adds[1..]);
    }
  }

  lemma {:induction false} AddEverything(s: State) returns (adds: seq<Mark>)
    ensures CanAdd(s, adds) && AddAll(s, adds).known == s.known + Coming(s)
    decreases s.ready.Keys
  {
    if s.ready == map[] {
      adds := [];
      assert Coming(s) == {};
    } else {
      var w :| w in s.ready;
      AddComing(s, w);
      var rest := AddEverything(DoAdd(s, w));
      adds := [w] + rest;
      assert adds[1..] == rest;
    }
  }

  /** A known set can pass its cap if and only if, with the new hashes of the marks past their test, it exceeds it. */
  lemma {:induction false} OverfillIff(s: State, cap: nat)
    ensures CanOverfill(s, cap) <==> |s.known + Coming(s)| > cap
  {
    if adds :| CanAdd(s, adds) && |AddAll(s, adds).known| > cap {
      AddsStayWithin(s, adds);
      SubsetSize(AddAll(s, adds).known, s.known + Coming(s));
    }
    var adds := AddEverything(s);
  }

  // ----- A schedule that overfills -----

  ghost function UpTo(n: nat): set<Hash> { if n == 0 then {} else UpTo(n - 1) + {n - 1} }

  lemma {:induction false} UpToSize(n: nat)
    ensures |UpTo(n)| == n && forall h :: h in UpTo(n) ==> h < n
    decreases n
  {
    if n > 0 {
      UpToSize(n - 1);
    }
  }

  lemma {:induction false} MarkOne(s: State, cap: nat, h: Hash) returns (s': State)
    requires Reachable(s, cap) && Idle(s) && |s.known| < cap
    ensures Reachable(s', cap) && Idle(s') && s'.known == s.known + {h}
  {
    var s1 := Apply(s, Start(0, h), cap);
    ReachableNext(s, Start(0, h), cap);
    var s2 := Apply(s1, Test(0), cap);
    ReachableNext(s1, Test(0), cap);
    s' := Apply(s2, Add(0), cap);
    ReachableNext(s2, Add(0), cap);
  }

  /** One mark after the other fills the set up to the cap. */
  lemma {:induction false} Fill(cap: nat, n: nat) returns (s: State)
    requires n <= cap
    ensures Reachable(s, cap) && s.known == UpTo(n) && Idle(s)
    decreases n
  {
    if n == 0 {
      s := INIT;
      assert IsRun([INIT], cap);
    } else {
      s := Fill(cap, n - 1);
      UpToSize(n - 1);
      s := MarkOne(s, cap, n - 1);
    }
  }

  lemma {:induction false} TestTwo(s: State, cap: nat, g: Hash, h: Hash) returns (s': State)
    requires Reachable(s, cap) && Idle(s) && |s.known| < cap
    ensures Reachable(s', cap) && s'.known == s.known && s'.ready == map[0 := g, 1 := h]
  {
    var s1 := Apply(s, Start(0, g), cap);
    ReachableNext(s, Start(0, g), cap);
    var s2 := Apply(s1, Start(1, h), cap);
    ReachableNext(s1, Start(1, h), cap);
    var s3 := Apply(s2, Test(0), cap);
    ReachableNext(s2, Test(0), cap);
    s' := Apply(s3, Test(1), cap);
    ReachableNext(s3, Test(1), cap);
  }

  /** Two marks test a set that has room for one more, and both add. */
  lemma {:induction false} OverfillHappens(cap: nat) returns (s: State)
    requires cap > 0
    ensures Reachable(s, cap) && |s.known| == cap + 1
  {
    var s0 := Fill(cap, cap - 1);
    UpToSize(cap - 1);
    var s1 := TestTwo(s0, cap, cap - 1, cap);
    var s2 := Apply(s1, Add(0), cap);
    ReachableNext(s1, Add(0), cap);
    s := Apply(s2, Add(1), cap);
    ReachableNext(s2, Add(1), cap);
    assert s.known == UpTo(cap - 1) + {cap - 1} + {cap};
    UpToSize(cap);
  }
}
