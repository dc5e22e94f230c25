/** The light protocol's peer set: services are told of peers that come and go, by callbacks that are issued
    after the lock has been released.  Everything between lock and unlock is one step; every callback that is
    still to be issued is an element of `pending`. */
module PeerNotifyModel {

  type Service = nat

  datatype Peer = Peer(id: string, conn: nat)

  datatype Kind = Registered | Unregistered

  datatype Call = Call(kind: Kind, service: Service, peer: Peer)

  datatype PeerSet = PeerSet(peers: map<string, Peer>, notifyList: seq<Service>, closed: bool) {
    predicate Has(p: Peer) { p.id in peers && peers[p.id] == p }
  }

  /** One callback about `p` for every entry of the notify list. */
  function Calls(kind: Kind, list: seq<Service>, p: Peer): (calls: seq<Call>)
    ensures |calls| == |list|
  {
    if list == [] then [] else [Call(kind, list[0], p)] + Calls(kind, list[1..], p)
  }

  /** One callback for `n` for every peer. */
  ghost function Introduce(n: Service, peers: map<string, Peer>): set<Call> {
    set id | id in peers :: Call(Registered, n, peers[id])
  }

  datatype State = State(members: PeerSet, pending: multiset<Call>, issued: multiset<Call>)

  const INIT := State(PeerSet(map[], [], false), multiset{}, multiset{})

  datatype Step =
    | Notify(service: Service)
    | Register(peer: Peer)
    | Unregister(id: string)
    | Issue(call: Call)
    | Close

  ghost predicate Enabled(s: State, step: Step) {
    step.Issue? ==> step.call in s.pending
  }

  predicate CanRegister(ps: PeerSet, p: Peer) { !ps.closed && p.id !in ps.peers }

  ghost function DoNotify(s: State, n: Service): State {
    s.(members := s.members.(notifyList := s.members.notifyList + [n]),
       pending := s.pending + multiset(Introduce(n, s.members.peers)))
  }

  ghost function DoRegister(s: State, p: Peer): State {
    if !CanRegister(s.members, p) then s
    else s.(members := s.members.(peers := s.members.peers[p.id := p]),
            pending := s.pending + multiset(Calls(Registered, s.members.notifyList, p)))
  }

  ghost function DoUnregister(s: State, id: string): State {
    if id !in s.members.peers then s
    else s.(members := s.members.(peers := s.members.peers - {id}),
            pending := s.pending + multiset(Calls(Unregistered, s.members.notifyList, s.members.peers[id])))
  }

  ghost function DoIssue(s: State, c: Call): State {
    s.(pending := s.pending - multiset{c}, issued := s.issued + multiset{c})
  }

  ghost function Apply(s: State, step: Step): State {
    match step
    case Notify(n) => DoNotify(s, n)
    case Register(p) => DoRegister(s, p)
    case Unregister(id) => DoUnregister(s, id)
    case Issue(c) => DoIssue(s, c)
    case Close => s.(members := s.members.(closed := true))
  }

  ghost predicate Next(s: State, s': State) {
    exists step :: Enabled(s, step) && s' == Apply(s, step)
  }

  ghost predicate IsRun(run: seq<State>) {
    |run| > 0 && run[0] == INIT && forall i :: 0 <= i < |run| - 1 ==> Next(run[i], run[i + 1])
  }

  // ----- The balance of callbacks -----

  ghost function Balance(calls: multiset<Call>, n: Service, p: Peer): int {
    (calls[Call(Registered, n, p)] as int) - calls[Call(Unregistered, n, p)]
  }

  /** How often a service is to know a peer: once per entry in the notify list while the peer is present. */
  ghost function Due(ps: PeerSet, n: Service, p: Peer): nat {
    if ps.Has(p) then multiset(ps.notifyList)[n] else 0
  }

  ghost predicate Balanced(s: State, n: Service, p: Peer) {
    Balance(s.issued, n, p) + Balance(s.pending, n, p) == Due(s.members, n, p)
  }

  ghost predicate Inv(s: State) {
    && (forall id :: id in s.members.peers ==> s.members.peers[id].id == id)
    && (forall n, p :: Balanced(s, n, p))
  }

  lemma {:induction false} CallsCount(kind: Kind, list: seq<Service>, p: Peer, c: Call)
    ensures multiset(Calls(kind, list, p))[c] == if c.kind == kind && c.peer == p then multiset(list)[c.service] else 0
    decreases |list|
  {
    if list != [] {
      CallsCount(kind, list[1..], p, c);
      assert list == [list[0]] + list[1..];
    }
  }

  lemma {:induction false} IntroduceCount(n: Service, ps: PeerSet, c: Call)
    requires forall id :: id in ps.peers ==> ps.peers[id].id == id
    ensures multiset(Introduce(n, ps.peers))[c] == if c.kind == Registered && c.service == n && ps.Has(c.peer) then 1 else 0
  {
    if c.kind == Registered && c.service == n && ps.Has(c.peer) {
      assert c == Call(Registered, n, ps.peers[c.peer.id]);
      assert c in Introduce(n, ps.peers);
    }
  }

  lemma {:induction false} NotifyKeeps(s: State, x: Service, n: Service, p: Peer)
    requires Inv(s)
    ensures Balanced(DoNotify(s, x), n, p)
  {
    assert Balanced(s, n, p);
    IntroduceCount(x, s.members, Call(Registered, n, p));
    IntroduceCount(x, s.members, Call(Unregistered, n, p));
  }

  lemma {:induction false} RegisterKeeps(s: State, x: Peer, n: Service, p: Peer)
    requires Inv(s)
    ensures Balanced(DoRegister(s, x), n, p)
  {
    assert Balanced(s, n, p);
    CallsCount(Registered, s.members.notifyList, x, Call(Registered, n, p));
    CallsCount(Registered, s.members.notifyList, x, Call(Unregistered, n, p));
  }

  lemma {:induction false} UnregisterKeeps(s: State, id: string, n: Service, p: Peer)
    requires Inv(s)
    ensures Balanced(DoUnregister(s, id), n, p)
  {
    assert Balanced(s, n, p);
    if id in s.members.peers {
      CallsCount(Unregistered, s.members.notifyList, s.members.peers[id], Call(Registered, n, p));
      CallsCount(Unregistered, s.members.notifyList, s.members.peers[id], Call(Unregistered, n, p));
    }
  }

  lemma {:induction false} StepKeepsInv(s: State, step: Step)
    requires Inv(s) && Enabled(s, step)
    ensures Inv(Apply(s, step))
  {
    forall n, p ensures Balanced(Apply(s, step), n, p) {
      assert Balanced(s, n, p);
      match step
      case Notify(x) => NotifyKeeps(s, x, n, p);
      case Register(x) => RegisterKeeps(s, x, n, p);
      case Unregister(id) => UnregisterKeeps(s, id, n, p);
      case Issue(c) =>
      case Close =>
    }
  }

  /** In every state of every run, the register callbacks that a service has had for a peer exceed the unregister
      callbacks by what is due, less the register and plus the unregister callbacks still to be issued. */
  lemma {:induction false} ExactlyOnce(run: seq<State>)
    requires IsRun(run)
    ensures Inv(run[|run| - 1])
    decreases |run|
  {
    if |run| > 1 {
      var k := |run| - 2;
      assert run[..k + 1][k] == run[k];
      ExactlyOnce(run[..k + 1]);
      assert Next(run[k], run[k + 1]);
      var step :| Enabled(run[k], step) && run[k + 1] == Apply(run[k], step);
      StepKeepsInv(run[k], step);
    }
  }

  ghost predicate NothingPending(s: State, n: Service, p: Peer) {
    Call(Registered, n, p) !in s.pending && Call(Unregistered, n, p) !in s.pending
  }

  /** For a service that subscribed once: what it has been told is right if and only if as many register as
      unregister callbacks about the peer are pending, in particular when none are. */
  lemma {:induction false} ToldRight(run: seq<State>, n: Service, p: Peer)
    requires IsRun(run) && multiset(run[|run| - 1].members.notifyList)[n] == 1
    ensures var s := run[|run| - 1];
            && (Balance(s.issued, n, p) == (if s.members.Has(p) then 1 else 0) <==> Balance(s.pending, n, p) == 0)
            && (NothingPending(s, n, p) ==> Balance(s.issued, n, p) == if s.members.Has(p) then 1 else 0)
  {
    var s := run[|run| - 1];
    ExactlyOnce(run);
    assert Balanced(s, n, p);
  }

  lemma {:induction false} Extend(run: seq<State>, step: Step) returns (longer: seq<State>)
    requires IsRun(run) && Enabled(run[|run| - 1], step)
    ensures IsRun(longer) && longer[|longer| - 1] == Apply(run[|run| - 1], step)
  {
    assert Next(run[|run| - 1], Apply(run[|run| - 1], step));
    longer := run + [Apply(run[|run| - 1], step)];
  }

  lemma {:induction false} ClosedStep(s: State, s': State, id: string)
    requires Next(s, s') && s.members.closed
    ensures s'.members.closed
    ensures id in s'.members.peers ==> id in s.members.peers && s'.members.peers[id] == s.members.peers[id]
  {
    var step :| Enabled(s, step) && s' == Apply(s, step);
  }

  /** A closed set stays closed and never gains a peer, in whatever way a run goes on. */
  lemma {:induction false} ClosedGainsNothing(run: seq<State>, i: nat, j: nat, id: string)
    requires IsRun(run) && i <= j < |run| && run[i].members.closed
    ensures run[j].members.closed
    ensures id in run[j].members.peers ==> id in run[i].members.peers && run[j].members.peers[id] == run[i].members.peers[id]
    decreases j
  {
    if i < j {
      ClosedGainsNothing(run, i, j - 1, id);
      ClosedStep(run[j - 1], run[j], id);
    }
  }

  // ----- Hearing of a departure first -----

  /** The calls can be issued one after the other. */
  ghost predicate CanIssue(s: State, calls: seq<Call>)
    decreases |calls|
  {
    calls == [] || (calls[0] in s.pending && CanIssue(DoIssue(s, calls[0]), calls[1..]))
  }

  ghost function IssueAll(s: State, calls: seq<Call>): State
    decreases |calls|
  {
    if calls == [] then s else IssueAll(DoIssue(s, calls[0]), calls[1..])
  }

  /** Without any further change to the peer set, `n` can hear of more departures of `p` than of arrivals. */
  ghost predicate CanHearGoneFirst(s: State, n: Service, p: Peer) {
    exists calls :: CanIssue(s, calls) && Balance(IssueAll(s, calls).issued, n, p) < 0
  }

  /** Issuing neither adds pending calls nor changes what has been or is to be said. */
  lemma {:induction false} IssueAllKeeps(s: State, calls: seq<Call>, n: Service, p: Peer)
    requires CanIssue(s, calls) && Balanced(s, n, p)
    ensures var s' := IssueAll(s, calls);
            && s'.members == s.members && Balanced(s', n, p)
            && s'.pending[Call(Registered, n, p)] <= s.pending[Call(Registered, n, p)]
    decreases |calls|
  {
    if calls != [] {
      IssueAllKeeps(DoIssue(s, calls[0]), calls[1..], n, p);
    }
  }

  /** All pending departures can be issued before any other call. */
  lemma {:induction false} DeparturesFirst(s: State, n: Service, p: Peer) returns (calls: seq<Call>)
    ensures CanIssue(s, calls)
    ensures var s' := IssueAll(s, calls);
            && s'.pending[Call(Unregistered, n, p)] == 0
            && s'.pending[Call(Registered, n, p)] == s.pending[Call(Registered, n, p)]
    decreases s.pending[Call(Unregistered, n, p)]
  {
    var c := Call(Unregistered, n, p);
    if c !in s.pending {
      calls := [];
    } else {
      var rest := DeparturesFirst(DoIssue(s, c), n, p);
      calls := [c] + rest;
      assert calls[1..] == rest;
    }
  }

  /** A service can hear of a departure first if and only if more arrivals are pending for it than are due. */
  lemma {:induction false} HearsGoneFirstIff(s: State, n: Service, p: Peer)
    requires Inv(s)
    ensures CanHearGoneFirst(s, n, p) <==> s.pending[Call(Registered, n, p)] > Due(s.members, n, p)
  {
    assert Balanced(s, n, p);
    forall calls | CanIssue(s, calls) && s.pending[Call(Registered, n, p)] <= Due(s.members, n, p)
      ensures Balance(IssueAll(s, calls).issued, n, p) >= 0
    {
      IssueAllKeeps(s, calls, n, p);
    }
    var calls := DeparturesFirst(s, n, p);
    IssueAllKeeps(s, calls, n, p);
  }

  /** So Unregister lets a service hear of the departure first if and only if, when it is called, a callback about the
      arrival of that peer is still to be issued to that service. */
  lemma {:induction false} UnregisterTooEarlyIff(s: State, n: Service, p: Peer)
    requires Inv(s) && s.members.Has(p)
    ensures CanHearGoneFirst(DoUnregister(s, p.id), n, p) <==> Call(Registered, n, p) in s.pending
  {
    StepKeepsInv(s, Unregister(p.id));
    CallsCount(Unregistered, s.members.notifyList, p, Call(Registered, n, p));
    HearsGoneFirstIff(DoUnregister(s, p.id), n, p);
  }

  /** Unregister is called only once the callbacks about that peer's arrival have returned. */
  ghost predicate Patient(s: State, step: Step) {
    step.Unregister? && step.id in s.members.peers ==>
      forall n :: Call(Registered, n, s.members.peers[step.id]) !in s.pending
  }

  ghost predicate PatientNext(s: State, s': State) {
    exists step :: Enabled(s, step) && Patient(s, step) && s' == Apply(s, step)
  }

  ghost predicate IsPatientRun(run: seq<State>) {
    |run| > 0 && run[0] == INIT && forall i :: 0 <= i < |run| - 1 ==> PatientNext(run[i], run[i + 1])
  }

  /** No more arrivals are pending than are due. */
  ghost predicate InTime(s: State, n: Service, p: Peer) {
    s.pending[Call(Registered, n, p)] <= Due(s.members, n, p)
  }

  lemma {:induction false} NotifyInTime(s: State, x: Service, n: Service, p: Peer)
    requires Inv(s) && InTime(s, n, p)
    ensures InTime(DoNotify(s, x), n, p)
  {
    IntroduceCount(x, s.members, Call(Registered, n, p));
  }

  lemma {:induction false} RegisterInTime(s: State, x: Peer, n: Service, p: Peer)
    requires Inv(s) && InTime(s, n, p)
    ensures InTime(DoRegister(s, x), n, p)
  {
    CallsCount(Registered, s.members.notifyList, x, Call(Registered, n, p));
  }

  lemma {:induction false} UnregisterInTime(s: State, id: string, n: Service, p: Peer)
    requires Inv(s) && InTime(s, n, p) && Patient(s, Unregister(id))
    ensures InTime(DoUnregister(s, id), n, p)
  {
    if id in s.members.peers {
      CallsCount(Unregistered, s.members.notifyList, s.members.peers[id], Call(Registered, n, p));
    }
  }

  lemma {:induction false} PatientStepKeeps(s: State, step: Step, n: Service, p: Peer)
    requires Inv(s) && Enabled(s, step) && Patient(s, step) && InTime(s, n, p)
    ensures InTime(Apply(s, step), n, p)
  {
    match step
    case Notify(x) => NotifyInTime(s, x, n, p);
    case Register(x) => RegisterInTime(s, x, n, p);
    case Unregister(id) => UnregisterInTime(s, id, n, p);
    case Issue(_) =>
    case Close =>
  }

  /** If every Unregister waits for those callbacks, no service ever hears of more departures than arrivals. */
  lemma {:induction false} OrderIsKept(run: seq<State>, n: Service, p: Peer)
    requires IsPatientRun(run)
    ensures var s := run[|run| - 1]; Inv(s) && InTime(s, n, p) && Balance(s.issued, n, p) >= 0
    decreases |run|
  {
    if |run| > 1 {
      var k := |run| - 2;
      assert run[..k + 1][k] == run[k];
      OrderIsKept(run[..k + 1], n, p);
      assert PatientNext(run[k], run[k + 1]);
      var step :| Enabled(run[k], step) && Patient(run[k], step) && run[k + 1] == Apply(run[k], step);
      StepKeepsInv(run[k], step);
      PatientStepKeeps(run[k], step, n, p);
    }
    assert Balanced(run[|run| - 1], n, p);
  }

  /** The order is not kept: a service can hear that a peer has gone before it hears that it came. */
  lemma {:induction false} GoneBeforeCome(n: Service, p: Peer) returns (run: seq<State>)
    ensures IsRun(run) && Balance(run[|run| - 1].issued, n, p) == -1
  {
    run := Extend([INIT], Notify(n));
    run := Extend(run, Register(p));
    var s := run[|run| - 1];
    assert s.members.notifyList == [n] && s.members.peers[p.id] == p;
    run := Extend(run, Unregister(p.id));
    var c := Call(Unregistered, n, p);
    CallsCount(Unregistered, [n], p, c);
    run := Extend(run, Issue(c));
  }
}

/** The peer set object; each method returns the callbacks it issues once the lock is released. */
module PeerNotify {
  import opened PeerNotifyModel

  class PeerSetObject {
    var peers: map<string, Peer>
    var notifyList: seq<Service>
    var closed: bool

    constructor ()
      ensures View() == INIT.members
    {
      peers, notifyList, closed := map[], [], false;
    }

    ghost function View(): PeerSet
      reads this
    {
      PeerSet(peers, notifyList, closed)
    }

    method Notify(n: Service) returns (calls: seq<Call>)
      requires forall id :: id in peers ==> peers[id].id == id
      modifies this`notifyList
      ensures forall s: State :: s.members == old(View()) ==>
                DoNotify(s, n).members == View() && DoNotify(s, n).pending == s.pending + multiset(calls)
    {
      notifyList := notifyList + [n];
      var rest := peers.Keys;
      calls := [];
      while rest != {}
        invariant rest <= peers.Keys
        invariant multiset(calls) == multiset(set id | id in peers && id !in rest :: Call(Registered, n, peers[id]))
        decreases rest
      {
        var id :| id in rest;
        ghost var done := set x | x in peers && x !in rest :: Call(Registered, n, peers[x]);
        var c := Call(Registered, n, peers[id]);
        assert c !in done;
        rest := rest - {id};
        assert (set x | x in peers && x !in rest :: Call(Registered, n, peers[x])) == done + {c};
        calls := calls + [c];
      }
      assert (set id | id in peers && id !in rest :: Call(Registered, n, peers[id])) == Introduce(n, peers);
    }

    method Close()
      modifies this`closed
      ensures forall s: State :: s.members == old(View()) ==> Apply(s, PeerNotifyModel.Step.Close) == s.(members := View())
      ensures closed
    {
      closed := true;
    }

    method CallAll(kind: Kind, list: seq<Service>, p: Peer) returns (calls: seq<Call>)
      ensures calls == Calls(kind, list, p)
    {
      calls := [];
      for i := 0 to |list|
        invariant calls + Calls(kind, list[i..], p) == Calls(kind, list, p)
      {
        assert list[i..][1..] == list[i + 1..];
        calls := calls + [Call(kind, list[i], p)];
      }
    }

    method Register(p: Peer) returns (ok: bool, calls: seq<Call>)
      modifies this`peers
      ensures ok == CanRegister(old(View()), p)
      ensures ok <==> !closed && p.id !in old(peers)
      ensures if ok then peers == old(peers)[p.id := p] && |calls| == |notifyList| else peers == old(peers) && calls == []
      ensures forall s: State :: s.members == old(View()) ==>
                DoRegister(s, p).members == View() && DoRegister(s, p).pending == s.pending + multiset(calls)
    {
      if closed {
        return false, [];
      }
      if p.id in peers {
        return false, [];
      }
      peers := peers[p.id := p];
      calls := CallAll(Registered, notifyList, p);
      ok := true;
    }

    method Unregister(id: string) returns (ok: bool, calls: seq<Call>)
      modifies this`peers
      ensures ok == (id in old(peers))
      ensures forall s: State :: s.members == old(View()) ==>
                DoUnregister(s, id).members == View() && DoUnregister(s, id).pending == s.pending + multiset(calls)
    {
      if id !in peers {
        return false, [];
      }
      var p := peers[id];
      peers := peers - {id};
      calls := CallAll(Unregistered, notifyList, p);
      ok := true;
    }
  }
}
