/** The received-cache looked at more closely.  Looking a hash up and adding it are two calls, and the handlers of
    different peers run at the same time: the step system of GossipModel takes the two for one step, and this module
    says exactly what that leaves out.  All events are about one message at one node. */
module ReceivedCache {
  type Handler = nat

  datatype Event = Look(who: Handler) | Put(who: Handler)

  /** `missed` are the handlers that did not find the message, each of which goes on to react to it. */
  datatype State = State(present: bool, looked: set<Handler>, missed: set<Handler>)

  function Apply(s: State, e: Event): State {
    match e
    case Look(h) => s.(looked := s.looked + {h}, missed := if s.present then s.missed else s.missed + {h})
    case Put(_) => s.(present := true)
  }

  ghost predicate Enabled(s: State, e: Event) {
    match e
    case Look(h) => h !in s.looked
    case Put(h) => h in s.missed
  }

  function After(events: seq<Event>): State {
    if events == [] then State(false, {}, {}) else Apply(After(events[..|events| - 1]), events[|events| - 1])
  }

  ghost predicate EnabledAt(events: seq<Event>, i: nat) {
    i < |events| ==> Enabled(After(events[..i]), events[i])
  }

  /** Every handler looks once, and adds the message only if it missed it. */
  ghost predicate IsSchedule(events: seq<Event>) {
    forall i: nat :: EnabledAt(events, i)
  }

  ghost predicate NoPut(events: seq<Event>) { forall i :: 0 <= i < |events| ==> events[i].Look? }

  /** The i-th event is a look before anyone has added the message. */
  ghost predicate EarlyAt(events: seq<Event>, i: nat) {
    i < |events| && events[i].Look? && NoPut(events[..i])
  }

  lemma {:induction false} PresentIff(events: seq<Event>)
    ensures After(events).present <==> !NoPut(events)
    decreases |events|
  {
    if events != [] {
      var init := events[..|events| - 1];
      PresentIff(init);
      assert events == init + [events[|events| - 1]];
    }
  }

  lemma {:induction false} EarlyExtends(events: seq<Event>, n: nat, i: nat)
    requires i < n <= |events|
    ensures EarlyAt(events[..n], i) <==> EarlyAt(events, i)
  {
    assert events[..n][..i] == events[..i];
  }

  lemma {:induction false} MissedIffEarly(events: seq<Event>, h: Handler)
    ensures h in After(events).missed <==> exists i: nat :: EarlyAt(events, i) && events[i].who == h
    decreases |events|
  {
    if events != [] {
      var n := |events| - 1;
      MissedIffEarly(events[..n], h);
      PresentIff(events[..n]);
      forall i: nat | i < n ensures EarlyAt(events[..n], i) <==> EarlyAt(events, i) {
        EarlyExtends(events, n, i);
      }
      if i: nat :| EarlyAt(events[..n], i) && events[..n][i].who == h {
        assert EarlyAt(events, i);
      }
      if i: nat :| EarlyAt(events, i) && events[i].who == h {
        assert i == n || EarlyAt(events[..n], i);
      }
      assert After(events).missed ==
        if EarlyAt(events, n) then After(events[..n]).missed + {events[n].who} else After(events[..n]).missed;
    }
  }

  lemma {:induction false} LookedBefore(events: seq<Event>, i: nat)
    requires i < |events| && events[i].Look?
    ensures events[i].who in After(events).looked
    decreases |events|
  {
    var n := |events| - 1;
    if i < n {
      LookedBefore(events[..n], i);
    }
  }

  lemma {:induction false} LooksOnce(events: seq<Event>, i: nat, j: nat)
    requires IsSchedule(events) && i < j < |events| && events[i].Look? && events[j].Look?
    ensures events[i].who != events[j].who
  {
    assert EnabledAt(events, j);
    LookedBefore(events[..j], i);
  }

  /** Two handlers look before the first of them has added the message. */
  ghost predicate Race(events: seq<Event>) {
    exists i: nat, j: nat :: i < j && EarlyAt(events, i) && EarlyAt(events, j)
  }

  /** A message is reacted to more than once if and only if two handlers race. */
  lemma {:induction false} ReactsTwiceIffRace(events: seq<Event>)
    requires IsSchedule(events)
    ensures (exists g, h :: g in After(events).missed && h in After(events).missed && g != h) <==> Race(events)
  {
    if g, h :| g in After(events).missed && h in After(events).missed && g != h {
      MissedIffEarly(events, g);
      MissedIffEarly(events, h);
      var i: nat :| EarlyAt(events, i) && events[i].who == g;
      var j: nat :| EarlyAt(events, j) && events[j].who == h;
      assert i < j || j < i;
    }
    if i: nat, j: nat :| i < j && EarlyAt(events, i) && EarlyAt(events, j) {
      LooksOnce(events, i, j);
      MissedIffEarly(events, events[i].who);
      MissedIffEarly(events, events[j].who);
    }
  }

  /** The one-step lookup of the model: whoever misses adds the message before anyone else does anything. */
  ghost predicate Serial(events: seq<Event>) {
    forall i: nat :: EarlyAt(events, i) && i + 1 < |events| ==> events[i + 1].Put?
  }

  lemma {:induction false} SerialNeverRaces(events: seq<Event>)
    requires Serial(events)
    ensures !Race(events)
  {
    forall i: nat, j: nat | i < j && EarlyAt(events, i) ensures !EarlyAt(events, j) {
      if j < |events| {
        assert events[i + 1].Put?;
        if j > i + 1 {
          assert events[..j][i + 1] == events[i + 1];
        }
      }
    }
  }

  /** Two peers send the same message at the same time, and both handlers react. */
  lemma {:induction false} RaceHappens() returns (events: seq<Event>)
    ensures IsSchedule(events) && Race(events) && After(events).missed == {0, 1}
  {
    events := [Look(0), Look(1), Put(0), Put(1)];
    assert events[..4] == events && events[..3] == [Look(0), Look(1), Put(0)];
    assert events[..2] == [Look(0), Look(1)] && events[..1] == [Look(0)] && events[..0] == [];
    assert After([Look(0)]) == State(false, {0}, {0});
    assert events[..2][..1] == [Look(0)] && events[..3][..2] == [Look(0), Look(1)];
    assert After([Look(0), Look(1)]) == State(false, {0, 1}, {0, 1});
    assert After([Look(0), Look(1), Put(0)]) == State(true, {0, 1}, {0, 1});
    forall i: nat ensures EnabledAt(events, i) {
      assert i < 4 ==> i == 0 || i == 1 || i == 2 || i == 3;
    }
    assert EarlyAt(events, 0) && EarlyAt(events, 1);
  }
}
