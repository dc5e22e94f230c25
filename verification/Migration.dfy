/** Upgrading the database at start-up, one version after the other. */
module Migration {
  import opened Distinctness
  import opened Wrappers

  /** The migrations by the version they start from, and the version of the program. */
  datatype Plan<V> = Plan(table: map<V, V>, target: V)

  // ----- Where a start-up ends -----

  /** Following the table from `v` through the versions `p` leads to `w`. */
  ghost predicate Leads<V>(plan: Plan<V>, v: V, p: seq<V>, w: V)
    decreases |p|
  {
    if p == [] then v == w
    else p[0] == v && v in plan.table && Leads(plan, plan.table[v], p[1..], w)
  }

  /** A start-up at version `v` completes the upgrades from the versions `p`, and no more: it stops at the program's
      version or at an upgrade that fails. */
  ghost predicate Ends<V(!new)>(plan: Plan<V>, works: V -> bool, v: V, p: seq<V>, w: V) {
    && Leads(plan, v, p, w)
    && (forall i :: 0 <= i < |p| ==> p[i] != plan.target && works(p[i]))
    && (w == plan.target || (w in plan.table && !works(w)))
  }

  lemma {:induction false} EndsTail<V(!new)>(plan: Plan<V>, works: V -> bool, v: V, p: seq<V>, w: V)
    requires Ends(plan, works, v, p, w) && p != []
    ensures v in plan.table && Ends(plan, works, plan.table[v], p[1..], w)
  {
  }

  lemma {:induction false} EndsUnique<V(!new)>(plan: Plan<V>, works: V -> bool, v: V, p: seq<V>, w: V, q: seq<V>, u: V)
    requires Ends(plan, works, v, p, w) && Ends(plan, works, v, q, u)
    ensures p == q && w == u
    decreases |p|
  {
    if p != [] {
      assert p[0] == v;
      EndsTail(plan, works, v, p, w);
      EndsTail(plan, works, v, q, u);
      EndsUnique(plan, works, plan.table[v], p[1..], w, q[1..], u);
      assert p == [v] + p[1..] && q == [v] + q[1..];
    }
  }

  lemma {:induction false} EndsSuffix<V(!new)>(plan: Plan<V>, works: V -> bool, v: V, p: seq<V>, w: V, i: nat)
    requires Ends(plan, works, v, p, w) && i < |p|
    ensures p[i] in plan.table && Ends(plan, works, p[i], p[i..], w)
    decreases i
  {
    if i == 0 {
      assert p[0..] == p;
    } else {
      EndsTail(plan, works, v, p, w);
      EndsSuffix(plan, works, plan.table[v], p[1..], w, i - 1);
      assert p[1..][i - 1..] == p[i..];
    }
  }

  /** No upgrade is made twice. */
  lemma {:induction false} EndsDistinct<V(!new)>(plan: Plan<V>, works: V -> bool, v: V, p: seq<V>, w: V, i: nat, j: nat)
    requires Ends(plan, works, v, p, w) && i < j < |p|
    ensures p[i] != p[j]
  {
    if p[i] == p[j] {
      EndsSuffix(plan, works, v, p, w, i);
      EndsSuffix(plan, works, v, p, w, j);
      EndsUnique(plan, works, p[i], p[i..], w, p[j..], w);
    }
  }

  /** A start-up that ends does so within as many upgrades as the table holds. */
  lemma {:induction false} EndsBound<V(!new)>(plan: Plan<V>, works: V -> bool, v: V, p: seq<V>, w: V)
    requires Ends(plan, works, v, p, w)
    ensures |p| <= |plan.table|
  {
    forall i, j | 0 <= i < j < |p| ensures p[i] != p[j] {
      EndsDistinct(plan, works, v, p, w, i, j);
    }
    forall i | 0 <= i < |p| ensures p[i] in plan.table.Keys {
      EndsSuffix(plan, works, v, p, w, i);
    }
    DistinctBound(p, plan.table.Keys);
  }

  // ----- The loop, round by round -----

  datatype Status = Running | Finished | Failed

  /** `done` lists the versions whose upgrades completed; the version is stored after each. */
  datatype State<V> = State(status: Status, version: V, done: seq<V>)

  function Start<V(==)>(plan: Plan<V>, v: V): State<V> {
    State(if v == plan.target then Finished else Running, v, [])
  }

  /** One round: a version that the table does not know is left as it is, and the loop goes on. */
  function Round<V(==)>(plan: Plan<V>, works: V -> bool, s: State<V>): State<V> {
    if !s.status.Running? then s
    else if s.version in plan.table then
      if works(s.version) then
        var next := plan.table[s.version];
        State(if next == plan.target then Finished else Running, next, s.done + [s.version])
      else s.(status := Failed)
    else s.(status := if s.version == plan.target then Finished else Running)
  }

  function Rounds<V(==)>(plan: Plan<V>, works: V -> bool, s: State<V>, n: nat): State<V> {
    if n == 0 then s else Round(plan, works, Rounds(plan, works, s, n - 1))
  }

  ghost predicate Halts<V(!new)>(plan: Plan<V>, works: V -> bool, v: V) {
    exists n: nat :: !Rounds(plan, works, Start(plan, v), n).status.Running?
  }

  ghost predicate Inv<V(!new)>(plan: Plan<V>, works: V -> bool, v: V, s: State<V>) {
    && Leads(plan, v, s.done, s.version)
    && (forall i :: 0 <= i < |s.done| ==> s.done[i] != plan.target && works(s.done[i]))
    && (s.status.Finished? <==> s.version == plan.target)
    && (s.status.Failed? ==> s.version in plan.table && !works(s.version))
  }

  lemma {:induction false} LeadsOn<V>(plan: Plan<V>, v: V, p: seq<V>, w: V, q: seq<V>, u: V)
    requires Leads(plan, v, p, w) && Leads(plan, w, q, u)
    ensures Leads(plan, v, p + q, u)
    decreases |p|
  {
    if p == [] {
      assert p + q == q;
    } else {
      LeadsOn(plan, plan.table[v], p[1..], w, q, u);
      assert (p + q)[1..] == p[1..] + q;
    }
  }

  lemma {:induction false} RoundKeepsInv<V(!new)>(plan: Plan<V>, works: V -> bool, v: V, s: State<V>)
    requires Inv(plan, works, v, s)
    ensures Inv(plan, works, v, Round(plan, works, s))
  {
    if s.status.Running? && s.version in plan.table && works(s.version) {
      var next := plan.table[s.version];
      assert Leads(plan, next, [], next);
      assert Leads(plan, s.version, [s.version], next);
      LeadsOn(plan, v, s.done, s.version, [s.version], next);
    }
  }

  lemma {:induction false} RoundsKeepInv<V(!new)>(plan: Plan<V>, works: V -> bool, v: V, n: nat)
    ensures Inv(plan, works, v, Rounds(plan, works, Start(plan, v), n))
    decreases n
  {
    if n > 0 {
      RoundsKeepInv(plan, works, v, n - 1);
      RoundKeepsInv(plan, works, v, Rounds(plan, works, Start(plan, v), n - 1));
    }
  }

  ghost function Resting<V>(plan: Plan<V>, p: seq<V>, w: V): State<V> {
    State(if w == plan.target then Finished else Failed, w, p)
  }

  lemma {:induction false} RoundsFirst<V>(plan: Plan<V>, works: V -> bool, s: State<V>, n: nat)
    ensures Rounds(plan, works, s, n + 1) == Rounds(plan, works, Round(plan, works, s), n)
    decreases n
  {
    if n > 0 {
      RoundsFirst(plan, works, s, n - 1);
    }
  }

  lemma {:induction false} ReachesRest<V(!new)>(plan: Plan<V>, works: V -> bool, v: V, p: seq<V>, w: V, done: seq<V>) returns (n: nat)
    requires Ends(plan, works, v, p, w)
    ensures n <= |p| + 1 && Rounds(plan, works, Start(plan, v).(done := done), n) == Resting(plan, done + p, w)
    decreases |p|
  {
    var s := Start(plan, v).(done := done);
    if p == [] {
      n := if w == plan.target then 0 else 1;
      assert done + p == done;
      assert Rounds(plan, works, s, 0) == s;
    } else {
      assert p[0] == v;
      EndsTail(plan, works, v, p, w);
      n := ReachesRest(plan, works, plan.table[v], p[1..], w, done + [v]);
      RoundsFirst(plan, works, s, n);
      assert done + [v] + p[1..] == done + p;
      n := n + 1;
    }
  }

  /** The loop ends if and only if the table leads to the program's version or to a failing upgrade, in at most as
      many upgrades as the table holds; a version that the table does not know, or a cycle, makes it spin for ever. */
  lemma {:induction false} HaltsIff<V(!new)>(plan: Plan<V>, works: V -> bool, v: V)
    ensures Halts(plan, works, v) <==> exists p, w :: Ends(plan, works, v, p, w) && |p| <= |plan.table|
  {
    if Halts(plan, works, v) {
      var n: nat :| !Rounds(plan, works, Start(plan, v), n).status.Running?;
      var s := Rounds(plan, works, Start(plan, v), n);
      RoundsKeepInv(plan, works, v, n);
      assert Ends(plan, works, v, s.done, s.version);
      EndsBound(plan, works, v, s.done, s.version);
    }
    if p, w :| Ends(plan, works, v, p, w) && |p| <= |plan.table| {
      var n := ReachesRest(plan, works, v, p, w, []);
      assert Start(plan, v).(done := []) == Start(plan, v);
    }
  }

  lemma {:induction false} RoundsRest<V(!new)>(plan: Plan<V>, works: V -> bool, s: State<V>, n: nat, more: nat)
    requires n <= more && !Rounds(plan, works, s, n).status.Running?
    ensures Rounds(plan, works, s, more) == Rounds(plan, works, s, n)
    decreases more
  {
    if n < more {
      RoundsRest(plan, works, s, n, more - 1);
    }
  }

  /** A loop that is still running after one round more than the table has entries runs for ever. */
  lemma {:induction false} SoonOrNever<V(!new)>(plan: Plan<V>, works: V -> bool, v: V, rounds: nat)
    requires rounds > |plan.table|
    ensures Rounds(plan, works, Start(plan, v), rounds).status.Running? <==> !Halts(plan, works, v)
  {
    if Halts(plan, works, v) {
      HaltsIff(plan, works, v);
      var p, w :| Ends(plan, works, v, p, w) && |p| <= |plan.table|;
      var n := ReachesRest(plan, works, v, p, w, []);
      assert Start(plan, v).(done := []) == Start(plan, v);
      RoundsRest(plan, works, Start(plan, v), n, rounds);
    }
  }

  lemma {:induction false} UnknownSpins<V(!new)>(plan: Plan<V>, works: V -> bool, v: V)
    requires v !in plan.table && v != plan.target
    ensures !Halts(plan, works, v)
  {
    HaltsIff(plan, works, v);
    forall p, w ensures !Ends(plan, works, v, p, w) {
      if Ends(plan, works, v, p, w) && p != [] {
        EndsTail(plan, works, v, p, w);
      }
    }
  }

  // ----- Restarts -----

  /** Start-ups one after the other, each with its own failures, complete the upgrades `done` and leave `w`. */
  ghost predicate Session<V(!new)>(plan: Plan<V>, runs: seq<V -> bool>, v: V, done: seq<V>, w: V)
    decreases |runs|
  {
    if runs == [] then done == [] && v == w
    else exists n: nat, u :: n <= |done| && Ends(plan, runs[0], v, done[..n], u) && Session(plan, runs[1..], u, done[n..], w)
  }

  lemma {:induction false} SessionLeads<V(!new)>(plan: Plan<V>, runs: seq<V -> bool>, v: V, done: seq<V>, w: V)
    requires Session(plan, runs, v, done, w)
    ensures Leads(plan, v, done, w) && forall i :: 0 <= i < |done| ==> done[i] != plan.target
    decreases |runs|
  {
    if runs != [] {
      var n: nat, u :| n <= |done| && Ends(plan, runs[0], v, done[..n], u) && Session(plan, runs[1..], u, done[n..], w);
      SessionLeads(plan, runs[1..], u, done[n..], w);
      LeadsOn(plan, v, done[..n], u, done[n..], w);
      assert done == done[..n] + done[n..];
    }
  }

  /** However often a start-up fails and is repeated: once the program's version is stored, the completed upgrades are
      exactly those of a start-up without failures, each made once and in order. */
  lemma {:induction false} RestartsComplete<V(!new)>(plan: Plan<V>, runs: seq<V -> bool>, v: V, done: seq<V>, works: V -> bool)
    requires Session(plan, runs, v, done, plan.target) && forall x :: works(x)
    ensures Ends(plan, works, v, done, plan.target)
    ensures forall i, j :: 0 <= i < j < |done| ==> done[i] != done[j]
  {
    SessionLeads(plan, runs, v, done, plan.target);
    forall i, j | 0 <= i < j < |done| ensures done[i] != done[j] {
      EndsDistinct(plan, works, v, done, plan.target, i, j);
    }
  }

  // ----- The method -----

  class StateDb<V(==,!new)> {
    var version: Option<V>

    constructor (v: Option<V>)
      ensures version == v
    {
      version := v;
    }

    /** The first `rounds` rounds of the loop at the start-up of the node; a loop that spins is still running after any
        number of them.  A database without a version is left alone. */
    method CheckDbMigration(plan: Plan<V>, works: V -> bool, rounds: nat) returns (status: Status, ghost done: seq<V>)
      modifies this
      ensures old(version).None? ==> status == Finished && version.None? && done == []
      ensures old(version).Some? ==>
                && version.Some?
                && State(status, version.value, done) == Rounds(plan, works, Start(plan, old(version).value), rounds)
      ensures old(version).Some? && !status.Running? ==>
                && Ends(plan, works, old(version).value, done, version.value)
                && (status == Finished <==> version.value == plan.target)
      ensures old(version).Some? && rounds > |plan.table| ==>
                (status.Running? <==> !Halts(plan, works, old(version).value))
    {
      done := [];
      if version.None? {
        return Finished, done;
      }
      var next := version.value;
      ghost var start := next;
      status := if next == plan.target then Finished else Running;
      var round := 0;
      while round < rounds && status == Running
        invariant 0 <= round <= rounds && version == Some(next)
        invariant State(status, next, done) == Rounds(plan, works, Start(plan, start), round)
        invariant Inv(plan, works, start, State(status, next, done))
      {
        RoundKeepsInv(plan, works, start, State(status, next, done));
        if next in plan.table && !works(next) {
          status := Failed;
        } else {
          if next in plan.table {
            done := done + [next];
            next := plan.table[next];
            version := Some(next);
          }
          if next == plan.target {
            status := Finished;
          }
        }
        round := round + 1;
      }
      if status != Running {
        RoundsRest(plan, works, Start(plan, start), round, rounds);
      }
      if rounds > |plan.table| {
        SoonOrNever(plan, works, start, rounds);
      }
    }
  }
}

/** The table of the repository. */
module Releases {
  import opened Migration

  datatype Release =
    | V100Beta | V101Beta | V102Beta | V102Gamma | V102Delta | V102Release | V103Alpha | V103Beta | V103Gamma
    | V103Release | V104Alpha | V104Beta | V104Release | V104Rc1 | V105Alpha | V105Beta | V105Gamma | V105Delta
    | V105Rc1 | V105Release | V105Hotfix1 | Unknown(name: string)

  function Next(v: Release): Release {
    match v
    case V100Beta => V101Beta case V101Beta => V102Beta case V102Beta => V102Gamma case V102Gamma => V102Delta
    case V102Delta => V102Release case V102Release => V103Alpha case V103Alpha => V103Beta case V103Beta => V103Gamma
    case V103Gamma => V103Release case V103Release => V104Alpha case V104Alpha => V104Beta case V104Beta => V104Release
    case V104Release => V104Rc1 case V104Rc1 => V105Alpha case V105Alpha => V105Beta case V105Beta => V105Gamma
    case V105Gamma => V105Delta case V105Delta => V105Rc1 case V105Rc1 => V105Release case V105Release => V105Hotfix1
    case _ => v
  }

  const TABLE: map<Release, Release> := map v | v in {
      V100Beta, V101Beta, V102Beta, V102Gamma, V102Delta, V102Release, V103Alpha, V103Beta, V103Gamma, V103Release,
      V104Alpha, V104Beta, V104Release, V104Rc1, V105Alpha, V105Beta, V105Gamma, V105Delta, V105Rc1, V105Release
    } :: Next(v)

  const PROGRAM: Plan<Release> := Plan(TABLE, V105Hotfix1)

  /** The releases in the order in which they came out. */
  const RELEASES: seq<Release> := [
      V100Beta, V101Beta, V102Beta, V102Gamma, V102Delta, V102Release, V103Alpha, V103Beta, V103Gamma, V103Release,
      V104Alpha, V104Beta, V104Release, V104Rc1, V105Alpha, V105Beta, V105Gamma, V105Delta, V105Rc1, V105Release,
      V105Hotfix1
    ]

  /** Every release but the last is upgraded to the one after it. */
  lemma {:induction false} TableStep(i: nat)
    requires i < |RELEASES| - 1
    ensures RELEASES[i] in TABLE && TABLE[RELEASES[i]] == RELEASES[i + 1] && RELEASES[i] != V105Hotfix1
  {
  }

  function Place(v: Release): (i: nat)
    requires !v.Unknown?
    ensures i < |RELEASES| && RELEASES[i] == v
  {
    match v
    case V100Beta => 0 case V101Beta => 1 case V102Beta => 2 case V102Gamma => 3 case V102Delta => 4
    case V102Release => 5 case V103Alpha => 6 case V103Beta => 7 case V103Gamma => 8 case V103Release => 9
    case V104Alpha => 10 case V104Beta => 11 case V104Release => 12 case V104Rc1 => 13 case V105Alpha => 14
    case V105Beta => 15 case V105Gamma => 16 case V105Delta => 17 case V105Rc1 => 18 case V105Release => 19
    case V105Hotfix1 => 20
  }

  /** Start-up at a release makes all upgrades from there on, one release after the other, and no other. */
  lemma {:induction false} Climb(i: nat, works: Release -> bool)
    requires i < |RELEASES| && forall x :: works(x)
    ensures Ends(PROGRAM, works, RELEASES[i], RELEASES[i..|RELEASES| - 1], V105Hotfix1)
    decreases |RELEASES| - i
  {
    var p := RELEASES[i..|RELEASES| - 1];
    if i < |RELEASES| - 1 {
      TableStep(i);
      Climb(i + 1, works);
      assert p[1..] == RELEASES[i + 1..|RELEASES| - 1];
      assert p == [RELEASES[i]] + p[1..];
    }
  }

  /** With upgrades that work, start-up ends, at the program's version, exactly from the versions of the table and from
      that version itself. */
  lemma {:induction false} StartupIff(v: Release, works: Release -> bool)
    requires forall x :: works(x)
    ensures Halts(PROGRAM, works, v) <==> v in TABLE || v == V105Hotfix1
  {
    if v.Unknown? {
      UnknownSpins(PROGRAM, works, v);
    } else {
      var i := Place(v);
      Climb(i, works);
      EndsBound(PROGRAM, works, v, RELEASES[i..|RELEASES| - 1], V105Hotfix1);
      HaltsIff(PROGRAM, works, v);
    }
  }
}
