// In-flight requests (src/proxy/connection_tracker.rs): an atomic counter and a
// map under a lock, changed one after the other.

module Tracker {
  import opened Wrappers
  import opened Types

  datatype Metadata = Metadata(verb: string, path: string)

  class ConnectionTracker {
    var active: nat
    var inFlight: map<Id, Metadata>

    constructor ()
      ensures active == 0 && inFlight == map[]
    {
      active := 0;
      inFlight := map[];
    }

    method TrackRequest(id: Id, metadata: Metadata)
      modifies this
      ensures active == old(active) + 1 && inFlight == old(inFlight)[id := metadata]
    {
      active := active + 1;
      inFlight := inFlight[id := metadata];
    }

    // Runs when the guard of the request is dropped. The unsigned counter must
    // not be at zero.
    method CompleteRequest(id: Id)
      requires active > 0
      modifies this
      ensures active == old(active) - 1 && inFlight == old(inFlight) - {id}
    {
      active := active - 1;
      inFlight := inFlight - {id};
    }
  }

  // ---------------------------------------------------------------- interleaved

  // Where a request stands: its counter step comes before its map step, both
  // when it is tracked and when its guard is dropped.
  datatype Progress = MidTrack | Tracked | MidComplete

  datatype State = State(active: nat, inFlight: map<Id, Metadata>, requests: map<Id, Progress>)

  datatype Step =
    | Count(id: Id)
    | Enter(id: Id, metadata: Metadata)
    | Uncount(id: Id)
    | Leave(id: Id)

  const EMPTY: State := State(0, map[], map[])

  // A request identifier is a fresh UUID, so a new one is not in the map either.
  predicate Enabled(s: State, p: Step) {
    match p
    case Count(id) => id !in s.requests
    case Enter(id, _) => id in s.requests && s.requests[id] == MidTrack
    case Uncount(id) => id in s.requests && s.requests[id] == Tracked
    case Leave(id) => id in s.requests && s.requests[id] == MidComplete
  }

  // None is a counter that wraps below zero.
  function Next(s: State, p: Step): Option<State>
    requires Enabled(s, p)
  {
    match p
    case Count(id) => Some(s.(active := s.active + 1, requests := s.requests[id := MidTrack]))
    case Enter(id, metadata) => Some(s.(inFlight := s.inFlight[id := metadata], requests := s.requests[id := Tracked]))
    case Uncount(id) =>
      if s.active == 0 then None
      else Some(s.(active := s.active - 1, requests := s.requests[id := MidComplete]))
    case Leave(id) => Some(s.(inFlight := s.inFlight - {id}, requests := s.requests - {id}))
  }

  function At(s: State, q: Progress): set<Id> {
    set id | id in s.requests && s.requests[id] == q
  }

  // What one poll of wait_for_drain reports.
  predicate Drained(s: State) {
    s.active == 0
  }

  ghost predicate Inv(s: State) {
    Balanced(s.inFlight.Keys, At(s, MidTrack), At(s, Tracked), At(s, MidComplete), s.active)
  }

  predicate Balanced(keys: set<Id>, entering: set<Id>, tracked: set<Id>, leaving: set<Id>, active: nat) {
    keys == tracked + leaving && active == |entering| + |tracked|
  }

  lemma EmptyInv()
    ensures Inv(EMPTY)
  {
    assert At(EMPTY, MidTrack) == {} && At(EMPTY, Tracked) == {} && At(EMPTY, MidComplete) == {};
  }

  lemma StepKeepsInv(s: State, p: Step)
    requires Inv(s) && Enabled(s, p)
    ensures Next(s, p).Some? && Inv(Next(s, p).value)
  {
    match p
    case Count(id) => CountKeeps(s, Next(s, p).value, id);
    case Enter(id, metadata) => EnterKeeps(s, Next(s, p).value, id);
    case Uncount(id) =>
      assert id in At(s, Tracked);
      UncountKeeps(s, Next(s, p).value, id);
    case Leave(id) => LeaveKeeps(s, Next(s, p).value, id);
  }

  // The steps on the sets of requests alone.
  lemma CountBalanced(keys: set<Id>, entering: set<Id>, tracked: set<Id>, leaving: set<Id>, active: nat, id: Id)
    requires Balanced(keys, entering, tracked, leaving, active)
    requires id !in entering && id !in tracked && id !in leaving
    ensures Balanced(keys, entering + {id}, tracked - {id}, leaving - {id}, active + 1)
  {
    assert tracked - {id} == tracked && leaving - {id} == leaving;
  }

  lemma EnterBalanced(keys: set<Id>, entering: set<Id>, tracked: set<Id>, leaving: set<Id>, active: nat, id: Id)
    requires Balanced(keys, entering, tracked, leaving, active)
    requires id in entering && id !in tracked && id !in leaving
    ensures Balanced(keys + {id}, entering - {id}, tracked + {id}, leaving - {id}, active)
  {
    assert leaving - {id} == leaving;
  }

  lemma UncountBalanced(keys: set<Id>, entering: set<Id>, tracked: set<Id>, leaving: set<Id>, active: nat, id: Id)
    requires Balanced(keys, entering, tracked, leaving, active)
    requires id !in entering && id in tracked && id !in leaving
    ensures active > 0 && Balanced(keys, entering - {id}, tracked - {id}, leaving + {id}, active - 1)
  {
    assert entering - {id} == entering && |tracked - {id}| == |tracked| - 1;
  }

  lemma CountKeeps(s: State, t: State, id: Id)
    requires Inv(s) && Enabled(s, Count(id)) && Next(s, Count(id)) == Some(t)
    ensures Inv(t)
  {
    Moves(s, t, id, MidTrack);
    CountBalanced(s.inFlight.Keys, At(s, MidTrack), At(s, Tracked), At(s, MidComplete), s.active, id);
  }

  lemma EnterKeeps(s: State, t: State, id: Id)
    requires Inv(s) && id in s.requests && s.requests[id] == MidTrack
    requires t.requests == s.requests[id := Tracked] && t.active == s.active
    requires t.inFlight.Keys == s.inFlight.Keys + {id}
    ensures Inv(t)
  {
    Moves(s, t, id, Tracked);
    EnterBalanced(s.inFlight.Keys, At(s, MidTrack), At(s, Tracked), At(s, MidComplete), s.active, id);
  }

  lemma UncountKeeps(s: State, t: State, id: Id)
    requires Inv(s) && id in s.requests && s.requests[id] == Tracked
    requires t.requests == s.requests[id := MidComplete] && t.active == s.active - 1 && t.inFlight == s.inFlight
    ensures Inv(t)
  {
    Moves(s, t, id, MidComplete);
    UncountBalanced(s.inFlight.Keys, At(s, MidTrack), At(s, Tracked), At(s, MidComplete), s.active, id);
  }

  lemma LeaveKeeps(s: State, t: State, id: Id)
    requires Inv(s) && Enabled(s, Leave(id)) && Next(s, Leave(id)) == Some(t)
    ensures Inv(t)
  {
    Leaves(s, t, id);
  }

  lemma Moves(s: State, t: State, id: Id, q: Progress)
    requires t.requests == s.requests[id := q]
    ensures At(t, MidTrack) == if q == MidTrack then At(s, MidTrack) + {id} else At(s, MidTrack) - {id}
    ensures At(t, Tracked) == if q == Tracked then At(s, Tracked) + {id} else At(s, Tracked) - {id}
    ensures At(t, MidComplete) == if q == MidComplete then At(s, MidComplete) + {id} else At(s, MidComplete) - {id}
  {
  }

  lemma Leaves(s: State, t: State, id: Id)
    requires id in s.requests && s.requests[id] == MidComplete && t.requests == s.requests - {id}
    ensures At(t, MidComplete) == At(s, MidComplete) - {id} && id in At(s, MidComplete)
    ensures id !in At(s, Tracked) && At(t, Tracked) == At(s, Tracked) && At(t, MidTrack) == At(s, MidTrack)
  {
  }

  // A run of enabled steps never wraps the counter; the state it ends in.
  ghost predicate Reaches(s: State, ps: seq<Step>, t: State)
    decreases |ps|
  {
    if ps == [] then s == t
    else Enabled(s, ps[0]) && Next(s, ps[0]).Some? && Reaches(Next(s, ps[0]).value, ps[1..], t)
  }

  // In every reachable state, in any interleaving: the counter is the size of
  // the map plus the requests mid-track minus those mid-complete, the next
  // completion does not wrap it, and a poll finds it drained exactly when every
  // tracked request has begun completing.
  lemma {:induction false} TrackerSafety(s: State, ps: seq<Step>, t: State)
    requires Inv(s) && Reaches(s, ps, t)
    ensures Inv(t)
    ensures t.active == |t.inFlight| + |At(t, MidTrack)| - |At(t, MidComplete)|
    ensures forall p :: Enabled(t, p) ==> Next(t, p).Some?
    ensures Drained(t) <==> forall id :: id in t.requests ==> t.requests[id] == MidComplete
    decreases |ps|
  {
    if ps == [] {
      assert At(t, Tracked) !! At(t, MidComplete);
      assert |t.inFlight.Keys| == |At(t, Tracked)| + |At(t, MidComplete)|;
      forall p | Enabled(t, p) ensures Next(t, p).Some? { StepKeepsInv(t, p); }
      if Drained(t) {
        forall id | id in t.requests ensures t.requests[id] == MidComplete {
          assert id !in At(t, MidTrack) && id !in At(t, Tracked);
        }
      } else if forall id :: id in t.requests ==> t.requests[id] == MidComplete {
        assert At(t, MidTrack) == {} && At(t, Tracked) == {};
      }
    } else {
      StepKeepsInv(s, ps[0]);
      TrackerSafety(Next(s, ps[0]).value, ps[1..], t);
    }
  }

  // Tracking and completing a request leaves counter and map as they were.
  lemma TrackThenComplete(s: State, id: Id, metadata: Metadata)
    requires id !in s.requests && id !in s.inFlight
    ensures Reaches(s, [Count(id), Enter(id, metadata), Uncount(id), Leave(id)], s)
  {
    var s1 := Next(s, Count(id)).value;
    var s2 := Next(s1, Enter(id, metadata)).value;
    var s3 := Next(s2, Uncount(id)).value;
    var s4 := Next(s3, Leave(id)).value;
    assert s4.inFlight == s.inFlight && s4.requests == s.requests;
    assert Reaches(s3, [Leave(id)], s);
    var r2 := [Uncount(id), Leave(id)];
    assert r2[1..] == [Leave(id)] && Reaches(s2, r2, s);
    var r1 := [Enter(id, metadata)] + r2;
    assert r1[1..] == r2 && Reaches(s1, r1, s);
    var r0 := [Count(id)] + r1;
    assert r0[1..] == r1 && Reaches(s, r0, s);
    assert r0 == [Count(id), Enter(id, metadata), Uncount(id), Leave(id)];
  }

  // A state the tracker can get into, with any requests in any interleaving.
  ghost predicate Reachable(t: State) {
    exists ps :: Reaches(EMPTY, ps, t)
  }

  // Every request that is still known has begun completing.
  predicate AllLeaving(s: State) {
    forall id | id in s.requests :: s.requests[id] == MidComplete
  }

  lemma DrainedIff(t: State)
    requires Reachable(t)
    ensures t.active == 0 <==> AllLeaving(t)
  {
    EmptyInv();
    var ps :| Reaches(EMPTY, ps, t);
    TrackerSafety(EMPTY, ps, t);
  }

  // wait_for_drain: it polls the counter until it reads zero or the time is up.
  // The i-th poll finds the tracker in `states(i)`, and by then the time is up or
  // not; the clock runs out. It reports true exactly when a poll finds every
  // tracked request completing.
  method WaitForDrain(states: nat -> State, late: nat -> bool, deadline: nat) returns (drained: bool, polls: nat)
    requires late(deadline) && forall i: nat :: Reachable(states(i))
    ensures polls <= deadline && (drained <==> AllLeaving(states(polls)))
    ensures forall i :: 0 <= i < polls ==> !AllLeaving(states(i)) && !late(i)
    ensures !drained ==> late(polls)
  {
    polls := 0;
    while true
      invariant polls <= deadline
      invariant forall i :: 0 <= i < polls ==> !AllLeaving(states(i)) && !late(i)
      decreases deadline - polls
    {
      DrainedIff(states(polls));
      if states(polls).active == 0 {
        return true, polls;
      }
      if late(polls) {
        return false, polls;
      }
      polls := polls + 1;
    }
  }
}
