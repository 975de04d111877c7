/**
 The handshake by which a busy message goes to its foreground owner (packages/intercom/foreground-detach-handoff.ts).

 An attempt waits for a probe acknowledgement, then for a commit acknowledgement, then surfaces. The
 waiting promise settles in one step and the attempt resumes in a later one; anything may run between.
 */
module ForegroundDetachHandoffs {

  /** Sender and message id. */
  datatype Key = Key(senderId: string, messageId: string)

  datatype Disposition = Delivered | Unclaimed | Abandoned

  datatype Phase = Probe | Commit | Done(disposition: Disposition)

  datatype Wait = Waiting | Acknowledged | TimedOut | Cancelled

  /** `controller` numbers the abort controller the attempt listens to; `acks` counts its acknowledgements. */
  datatype Attempt = Attempt(generation: int, key: Key, controller: nat, phase: Phase, wait: Wait, acks: nat)

  /** A surfacing: which attempt, and the number of the controller in force at the time. */
  datatype Surfacing = Surfacing(attempt: nat, controller: nat)

  /** `adopted` (every generation ever switched to) and `surfaced` are history. */
  datatype State = State(
    generation: int, controller: nat, delivered: set<Key>, pending: map<(int, Key), nat>,
    attempts: seq<Attempt>, adopted: set<int>, surfaced: seq<Surfacing>)

  datatype Event =
    | Deliver(key: Key, generation: int, current: bool)
    | Acknowledge(attempt: nat)
    | Expire(attempt: nat)
    | Resume(attempt: nat, current: bool)
    | Forget(attempt: nat)
    | Reset

  /** What `deliver` hands back: a disposition at once, or the promise of an attempt. */
  datatype Answer = Immediate(disposition: Disposition) | Promised(attempt: nat)

  const NONE := -1
  const INITIAL := State(NONE, 0, {}, map[], [], {}, [])

  function Abort(attempts: seq<Attempt>): seq<Attempt> {
    seq(|attempts|, i requires 0 <= i < |attempts| =>
      if attempts[i].wait == Waiting then attempts[i].(wait := Cancelled) else attempts[i])
  }

  function ResetFor(s: State, generation: int): State {
    s.(generation := generation, controller := s.controller + 1, delivered := {}, pending := map[],
       attempts := Abort(s.attempts), adopted := s.adopted + {generation})
  }

  function Begun(s: State, key: Key): State {
    s.(attempts := s.attempts + [Attempt(s.generation, key, s.controller, Probe, Waiting, 0)],
       pending := s.pending[(s.generation, key) := |s.attempts|])
  }

  function Delivering(s: State, key: Key, generation: int): (State, Answer) {
    var t := if s.generation != generation then ResetFor(s, generation) else s;
    if key in t.delivered then (t, Immediate(Delivered))
    else if (generation, key) in t.pending then (t, Promised(t.pending[(generation, key)]))
    else (Begun(t, key), Promised(|t.attempts|))
  }

  function Settle(s: State, a: nat, wait: Wait): State {
    if a < |s.attempts| && s.attempts[a].wait == Waiting && !s.attempts[a].phase.Done? then
      s.(attempts := s.attempts[a := s.attempts[a].(wait := wait, acks := s.attempts[a].acks + if wait == Acknowledged then 1 else 0)])
    else s
  }

  /** The continuation after an acknowledgement wait. */
  function Resumed(s: State, a: nat, current: bool): State
    requires a < |s.attempts|
  {
    var attempt := s.attempts[a];
    if attempt.wait == Cancelled || !current || s.generation != attempt.generation then
      s.(attempts := s.attempts[a := attempt.(phase := Done(Abandoned))])
    else if attempt.wait == TimedOut then
      s.(attempts := s.attempts[a := attempt.(phase := Done(Unclaimed))])
    else if attempt.phase == Probe then
      // A second wait on a controller that was aborted meanwhile is cancelled at once.
      s.(attempts := s.attempts[a := attempt.(phase := Commit, wait := if attempt.controller == s.controller then Waiting else Cancelled)])
    else
      s.(attempts := s.attempts[a := attempt.(phase := Done(Delivered))],
         delivered := s.delivered + {attempt.key}, surfaced := s.surfaced + [Surfacing(a, s.controller)])
  }

  function Step(s: State, event: Event): State {
    match event
    case Deliver(key, generation, current) => if current then Delivering(s, key, generation).0 else s
    case Acknowledge(a) => Settle(s, a, Acknowledged)
    case Expire(a) => Settle(s, a, TimedOut)
    case Resume(a, current) =>
      if a < |s.attempts| && s.attempts[a].wait != Waiting && !s.attempts[a].phase.Done? then Resumed(s, a, current) else s
    case Forget(a) =>
      if a < |s.attempts| && s.attempts[a].phase.Done? && (s.attempts[a].generation, s.attempts[a].key) in s.pending
         && s.pending[(s.attempts[a].generation, s.attempts[a].key)] == a
      then s.(pending := s.pending - {(s.attempts[a].generation, s.attempts[a].key)}) else s
    case Reset => ResetFor(s, NONE)
  }

  function Run(s: State, events: seq<Event>): State
    decreases |events|
  {
    if events == [] then s else Run(Step(s, events[0]), events[1..])
  }

  // ----- Generations are not reused --------------------------------------------------------

  /** A delivery that switches generation switches to a number never used before. */
  ghost predicate FreshGeneration(s: State, event: Event) {
    event.Deliver? && event.current ==> event.generation != NONE && (event.generation != s.generation ==> event.generation !in s.adopted)
  }

  ghost predicate NeverReused(s: State, events: seq<Event>)
    decreases |events|
  {
    events == [] || (FreshGeneration(s, events[0]) && NeverReused(Step(s, events[0]), events[1..]))
  }

  /** Begun under the controller in force. */
  ghost predicate Live(s: State, a: nat) {
    a < |s.attempts| && s.attempts[a].controller == s.controller
  }

  ghost predicate GenerationsMatch(s: State) {
    && (s.generation != NONE ==> s.generation in s.adopted)
    && forall a :: 0 <= a < |s.attempts| ==>
         && s.attempts[a].generation in s.adopted && s.attempts[a].generation != NONE
         && s.attempts[a].controller <= s.controller
         && (s.attempts[a].controller == s.controller <==> s.attempts[a].generation == s.generation)
  }

  /** A live attempt under way is the pending one for its key, which is not delivered yet. */
  ghost predicate PendingMatches(s: State) {
    && (forall a: nat :: Live(s, a) && !s.attempts[a].phase.Done? ==>
        && s.attempts[a].key !in s.delivered
        && (s.attempts[a].generation, s.attempts[a].key) in s.pending
        && s.pending[(s.attempts[a].generation, s.attempts[a].key)] == a)
    && (forall k :: k in s.pending ==>
        Live(s, s.pending[k]) && k == (s.attempts[s.pending[k]].generation, s.attempts[s.pending[k]].key))
  }

  ghost predicate Acked(s: State) {
    forall a :: 0 <= a < |s.attempts| ==>
      && (s.attempts[a].phase == Probe ==> s.attempts[a].acks == if s.attempts[a].wait == Acknowledged then 1 else 0)
      && (s.attempts[a].phase == Commit ==> s.attempts[a].acks == if s.attempts[a].wait == Acknowledged then 2 else 1)
      && (s.attempts[a].phase == Done(Delivered) ==> s.attempts[a].acks == 2)
  }

  ghost predicate SurfacedOnce(s: State) {
    && (forall k :: 0 <= k < |s.surfaced| ==>
        && s.surfaced[k].attempt < |s.attempts|
        && s.attempts[s.surfaced[k].attempt].phase == Done(Delivered)
        && s.attempts[s.surfaced[k].attempt].controller == s.surfaced[k].controller
        && (s.surfaced[k].controller == s.controller ==> s.attempts[s.surfaced[k].attempt].key in s.delivered))
    && (forall k, l :: 0 <= k < l < |s.surfaced| ==>
        s.surfaced[k].controller != s.surfaced[l].controller
        || s.attempts[s.surfaced[k].attempt].key != s.attempts[s.surfaced[l].attempt].key)
  }

  ghost predicate SameGenerationSameController(s: State) {
    forall a, b :: 0 <= a < |s.attempts| && 0 <= b < |s.attempts| && s.attempts[a].generation == s.attempts[b].generation ==>
      s.attempts[a].controller == s.attempts[b].controller
  }

  ghost predicate Invariant(s: State) {
    GenerationsMatch(s) && SameGenerationSameController(s) && PendingMatches(s) && Acked(s) && SurfacedOnce(s)
  }

  lemma {:induction false} ResetKeeps(s: State, generation: int)
    requires Invariant(s) && (generation == NONE || generation !in s.adopted)
    ensures Invariant(ResetFor(s, generation))
  {
  }

  /** A new attempt for a key that is neither delivered nor pending. */
  lemma {:induction false} BeginningKeeps(s: State, key: Key)
    requires Invariant(s) && s.generation != NONE && key !in s.delivered && (s.generation, key) !in s.pending
    ensures Invariant(Begun(s, key))
  {
    var t := Begun(s, key);
    assert forall a: nat :: a < |s.attempts| ==> t.attempts[a] == s.attempts[a];
    assert GenerationsMatch(t);
    assert SameGenerationSameController(t);
    assert Acked(t);
    assert SurfacedOnce(t);
  }

  lemma {:induction false} DeliveringKeeps(s: State, key: Key, generation: int)
    requires Invariant(s) && FreshGeneration(s, Deliver(key, generation, true))
    ensures Invariant(Delivering(s, key, generation).0)
  {
    var t := if s.generation != generation then ResetFor(s, generation) else s;
    if s.generation != generation {
      ResetKeeps(s, generation);
    }
    if key !in t.delivered && (generation, key) !in t.pending {
      BeginningKeeps(t, key);
    }
  }

  /** An attempt moves on without surfacing; if it is done it need not be pending any more. */
  lemma {:induction false} MovingKeeps(s: State, a: nat, moved: Attempt)
    requires Invariant(s) && a < |s.attempts| && !s.attempts[a].phase.Done?
    requires moved == s.attempts[a].(phase := moved.phase, wait := moved.wait, acks := moved.acks) && moved.phase != Done(Delivered)
    requires moved.phase == Probe ==> moved.acks == if moved.wait == Acknowledged then 1 else 0
    requires moved.phase == Commit ==> moved.acks == if moved.wait == Acknowledged then 2 else 1
    ensures Invariant(s.(attempts := s.attempts[a := moved]))
  {
    var t := s.(attempts := s.attempts[a := moved]);
    assert forall b: nat :: b < |s.attempts| && b != a ==> t.attempts[b] == s.attempts[b];
    assert forall b: nat :: Live(t, b) <==> Live(s, b);
    assert GenerationsMatch(t) && SameGenerationSameController(t);
    assert PendingMatches(t);
    assert Acked(t) && SurfacedOnce(t);
  }

  lemma {:induction false} ResumedKeeps(s: State, a: nat, current: bool)
    requires Invariant(s) && a < |s.attempts| && s.attempts[a].wait != Waiting && !s.attempts[a].phase.Done?
    ensures Invariant(Resumed(s, a, current))
  {
    var attempt := s.attempts[a];
    if attempt.wait == Cancelled || !current || s.generation != attempt.generation {
      MovingKeeps(s, a, attempt.(phase := Done(Abandoned)));
    } else if attempt.wait == TimedOut {
      MovingKeeps(s, a, attempt.(phase := Done(Unclaimed)));
    } else if attempt.phase == Probe {
      MovingKeeps(s, a, attempt.(phase := Commit, wait := Waiting));
    } else {
    }
  }

  lemma {:induction false} StepKeepsInvariant(s: State, event: Event)
    requires Invariant(s) && FreshGeneration(s, event)
    ensures Invariant(Step(s, event))
  {
    match event {
      case Deliver(key, generation, current) =>
        if current {
          DeliveringKeeps(s, key, generation);
        }
      case Acknowledge(a) =>
        if a < |s.attempts| && s.attempts[a].wait == Waiting && !s.attempts[a].phase.Done? {
          MovingKeeps(s, a, s.attempts[a].(wait := Acknowledged, acks := s.attempts[a].acks + 1));
        }
      case Expire(a) =>
        if a < |s.attempts| && s.attempts[a].wait == Waiting && !s.attempts[a].phase.Done? {
          MovingKeeps(s, a, s.attempts[a].(wait := TimedOut));
        }
      case Resume(a, current) =>
        if a < |s.attempts| && s.attempts[a].wait != Waiting && !s.attempts[a].phase.Done? {
          ResumedKeeps(s, a, current);
        }
      case Forget(a) =>
        assert forall b: nat :: Live(Step(s, event), b) <==> Live(s, b);
        assert PendingMatches(Step(s, event));
      case Reset => ResetKeeps(s, NONE);
    }
  }

  lemma {:induction false} RunKeepsInvariant(s: State, events: seq<Event>)
    requires Invariant(s) && NeverReused(s, events)
    ensures Invariant(Run(s, events))
    decreases |events|
  {
    if events != [] {
      StepKeepsInvariant(s, events[0]);
      RunKeepsInvariant(Step(s, events[0]), events[1..]);
    }
  }

  /**
   As long as generation numbers are not reused, whatever surfaces has had both a probe and a commit
   acknowledgement, and its attempt began after the latest reset.
   */
  lemma {:induction false} SurfacesOnlyWhenCommitted(events: seq<Event>, k: nat)
    requires NeverReused(INITIAL, events) && k < |Run(INITIAL, events).surfaced|
    ensures var s := Run(INITIAL, events);
      var a := s.surfaced[k].attempt;
      a < |s.attempts| && s.attempts[a].acks == 2 && s.attempts[a].controller == s.surfaced[k].controller
  {
    assert Invariant(INITIAL);
    RunKeepsInvariant(INITIAL, events);
  }

  /** And each sender and message pair surfaces at most once per generation. */
  lemma {:induction false} SurfacesOncePerGeneration(events: seq<Event>, k: nat, l: nat)
    requires NeverReused(INITIAL, events) && k < l < |Run(INITIAL, events).surfaced|
    ensures var s := Run(INITIAL, events);
      var a, b := s.surfaced[k].attempt, s.surfaced[l].attempt;
      && a < |s.attempts| && b < |s.attempts|
      && (s.attempts[a].generation, s.attempts[a].key) != (s.attempts[b].generation, s.attempts[b].key)
  {
    assert Invariant(INITIAL);
    RunKeepsInvariant(INITIAL, events);
  }

  function BeginAndReset(key: Key): seq<Event> {
    [Deliver(key, 1, true), Acknowledge(0), Resume(0, true), Acknowledge(0), Reset]
  }

  function BeginAgain(key: Key): seq<Event> {
    [Deliver(key, 1, true), Resume(0, true), Acknowledge(1), Resume(1, true), Acknowledge(1), Resume(1, true)]
  }

  function OldAttemptWaits(key: Key): State {
    State(NONE, 2, {}, map[], [Attempt(1, key, 1, Commit, Acknowledged, 2)], {1, NONE}, [])
  }

  lemma {:induction false} OldAttemptOutlivesReset(key: Key)
    ensures Run(INITIAL, BeginAndReset(key)) == OldAttemptWaits(key)
  {
    var events := BeginAndReset(key);
    var t := Begun(ResetFor(INITIAL, 1), key);
    var t1 := Step(t, Acknowledge(0));
    var t2 := Step(t1, Resume(0, true));
    var t3 := Step(t2, Acknowledge(0));
    assert t3.attempts == [Attempt(1, key, 1, Commit, Acknowledged, 2)];
    assert Step(t3, Reset) == OldAttemptWaits(key);
    Unroll(INITIAL, events);
    Unroll(t, events[1..]);
    Unroll(t1, events[1..][1..]);
    Unroll(t2, events[1..][1..][1..]);
    Unroll(t3, events[1..][1..][1..][1..]);
  }

  lemma {:induction false} OldAndNewSurface(key: Key)
    ensures var s := Run(OldAttemptWaits(key), BeginAgain(key));
      && s.surfaced == [Surfacing(0, 3), Surfacing(1, 3)]
      && s.attempts == [Attempt(1, key, 1, Done(Delivered), Acknowledged, 2), Attempt(1, key, 3, Done(Delivered), Acknowledged, 2)]
  {
    var events, s1 := BeginAgain(key), OldAttemptWaits(key);
    var first, second := Attempt(1, key, 1, Done(Delivered), Acknowledged, 2), Attempt(1, key, 3, Probe, Waiting, 0);
    var s2 := Begun(ResetFor(s1, 1), key);
    var s3 := Step(s2, Resume(0, true));
    assert s3.surfaced == [Surfacing(0, 3)] && s3.attempts == [first, second];
    var s4 := Step(s3, Acknowledge(1));
    var s5 := Step(s4, Resume(1, true));
    assert s5.surfaced == [Surfacing(0, 3)] && s5.attempts == [first, second.(phase := Commit, acks := 1)];
    var s6 := Step(s5, Acknowledge(1));
    Unroll(s1, events);
    Unroll(s2, events[1..]);
    Unroll(s3, events[1..][1..]);
    Unroll(s4, events[1..][1..][1..]);
    Unroll(s5, events[1..][1..][1..][1..]);
    Unroll(s6, events[1..][1..][1..][1..][1..]);
  }

  /** When a generation number is used again after a reset, an old attempt and a new one both surface. */
  lemma {:induction false} ReusedGenerationSurfacesTwice(key: Key)
    ensures var s := Run(INITIAL, BeginAndReset(key) + BeginAgain(key));
      && s.surfaced == [Surfacing(0, 3), Surfacing(1, 3)] && |s.attempts| == 2
      && s.attempts[0].key == s.attempts[1].key == key && s.attempts[0].generation == s.attempts[1].generation
  {
    RunConcat(INITIAL, BeginAndReset(key), BeginAgain(key));
    OldAttemptOutlivesReset(key);
    OldAndNewSurface(key);
  }

  lemma Unroll(s: State, events: seq<Event>)
    requires events != []
    ensures Run(s, events) == Run(Step(s, events[0]), events[1..])
  {
  }

  lemma {:induction false} RunConcat(s: State, first: seq<Event>, rest: seq<Event>)
    ensures Run(s, first + rest) == Run(Run(s, first), rest)
    decreases |first|
  {
    if first == [] {
      assert first + rest == rest;
    } else {
      assert (first + rest)[1..] == first[1..] + rest;
      RunConcat(Step(s, first[0]), first[1..], rest);
    }
  }

  // ----- Exactly which old attempts survive a reset ----------------------------------------

  /** In these events attempt a surfaces. */
  ghost predicate Surfaces(s: State, events: seq<Event>, a: nat) {
    exists k: nat :: |s.surfaced| <= k < |Run(s, events).surfaced| && Run(s, events).surfaced[k].attempt == a
  }

  /** Both acknowledgements are in, and the attempt has not resumed since. */
  predicate Stands(s: State, a: nat) {
    a < |s.attempts| && s.attempts[a].phase == Commit && s.attempts[a].wait == Acknowledged
  }

  /** An attempt of an aborted controller that is not past its last wait. */
  ghost predicate CutOff(s: State, a: nat) {
    a < |s.attempts| && s.attempts[a].controller < s.controller && s.attempts[a].wait != Waiting && !Stands(s, a)
  }

  lemma {:induction false} StepKeepsCutOff(s: State, event: Event, a: nat)
    requires CutOff(s, a)
    ensures var t := Step(s, event);
      && CutOff(t, a) && s.surfaced <= t.surfaced
      && (|t.surfaced| > |s.surfaced| ==> |t.surfaced| == |s.surfaced| + 1 && t.surfaced[|s.surfaced|].attempt != a)
  {
  }

  lemma {:induction false} CutOffNeverSurfaces(s: State, events: seq<Event>, a: nat)
    requires CutOff(s, a)
    ensures s.surfaced <= Run(s, events).surfaced && !Surfaces(s, events, a)
    decreases |events|
  {
    if events != [] {
      var t := Step(s, events[0]);
      StepKeepsCutOff(s, events[0], a);
      CutOffNeverSurfaces(t, events[1..], a);
      forall k: nat | |s.surfaced| <= k < |Run(s, events).surfaced|
        ensures Run(s, events).surfaced[k].attempt != a
      {
        if k < |t.surfaced| {
          assert Run(s, events).surfaced[k] == t.surfaced[k];
        }
      }
    }
  }

  lemma {:induction false} ResumingSurfaces(s: State, a: nat)
    requires Stands(s, a) && s.generation == s.attempts[a].generation
    ensures Surfaces(s, [Resume(a, true)], a)
  {
    Unroll(s, [Resume(a, true)]);
    assert Run(s, [Resume(a, true)]).surfaced == s.surfaced + [Surfacing(a, s.controller)];
    assert Run(s, [Resume(a, true)]).surfaced[|s.surfaced|].attempt == a;
  }

  /** The number of the attempt is adopted again, and the attempt resumes. */
  function Readopt(s: State, a: nat): seq<Event>
    requires a < |s.attempts|
  {
    [Deliver(s.attempts[a].key, s.attempts[a].generation, true), Resume(a, true)]
  }

  lemma {:induction false} ReadoptingSurfaces(s: State, a: nat)
    requires Stands(s, a)
    ensures Surfaces(s, Readopt(s, a), a)
  {
    var events := Readopt(s, a);
    var t := Step(s, events[0]);
    assert t.attempts[a] == s.attempts[a] && t.surfaced == s.surfaced;
    assert events[1..] == [Resume(a, true)];
    Unroll(s, events);
    ResumingSurfaces(t, a);
    var k: nat :| |t.surfaced| <= k < |Run(t, events[1..]).surfaced| && Run(t, events[1..]).surfaced[k].attempt == a;
    assert Run(s, events).surfaced[k].attempt == a;
  }

  /**
   After a reset some continuation surfaces an attempt from before it, if and only if that attempt stands
   between its commit acknowledgement and its resumption.
   */
  lemma {:induction false} OutlivesResetIff(s: State, generation: int, a: nat)
    requires a < |s.attempts| && s.attempts[a].controller <= s.controller
    ensures (exists events :: Surfaces(ResetFor(s, generation), events, a)) <==> Stands(s, a)
  {
    var t := ResetFor(s, generation);
    if Stands(s, a) {
      ReadoptingSurfaces(t, a);
    } else {
      forall events
        ensures !Surfaces(t, events, a)
      {
        CutOffNeverSurfaces(t, events, a);
      }
    }
  }

  /** The generation stays the same throughout. */
  ghost predicate StaysIn(s: State, events: seq<Event>, generation: int)
    decreases |events|
  {
    s.generation == generation && (events != [] ==> StaysIn(Step(s, events[0]), events[1..], generation))
  }

  /** An attempt of another number cannot surface while the generation stays. */
  lemma {:induction false} OthersDoNotSurface(s: State, events: seq<Event>, a: nat, generation: int)
    requires StaysIn(s, events, generation) && a < |s.attempts| && s.attempts[a].generation != generation
    ensures s.surfaced <= Run(s, events).surfaced && !Surfaces(s, events, a)
    decreases |events|
  {
    if events != [] {
      var t := Step(s, events[0]);
      assert a < |t.attempts| && t.attempts[a].generation == s.attempts[a].generation;
      assert s.surfaced <= t.surfaced;
      OthersDoNotSurface(t, events[1..], a, generation);
      forall k: nat | |s.surfaced| <= k < |Run(s, events).surfaced|
        ensures Run(s, events).surfaced[k].attempt != a
      {
        if k < |t.surfaced| {
          assert Run(s, events).surfaced[k] == t.surfaced[k];
        }
      }
    }
  }

  /** Every attempt listens to a controller there has been. */
  ghost predicate ControllersKnown(s: State) {
    forall a: nat :: a < |s.attempts| ==> s.attempts[a].controller <= s.controller
  }

  /** No attempt from before the reset surfaces while the newly adopted generation lasts. */
  ghost predicate SafeToAdopt(s: State, generation: int) {
    forall events, a: nat :: a < |s.attempts| && StaysIn(ResetFor(s, generation), events, generation) ==>
      !Surfaces(ResetFor(s, generation), events, a)
  }

  /** Adopting a number, used before or not, is safe if and only if no earlier attempt of that number stands there. */
  lemma {:induction false} SafeToAdoptIff(s: State, generation: int)
    requires ControllersKnown(s)
    ensures SafeToAdopt(s, generation) <==> forall a: nat :: Stands(s, a) ==> s.attempts[a].generation != generation
  {
    var t := ResetFor(s, generation);
    if a: nat :| Stands(s, a) && s.attempts[a].generation == generation {
      assert t.attempts[a] == s.attempts[a];
      ResumingSurfaces(t, a);
      assert StaysIn(t, [Resume(a, true)], generation);
    } else {
      forall events, a: nat | a < |s.attempts| && StaysIn(t, events, generation)
        ensures !Surfaces(t, events, a)
      {
        if s.attempts[a].generation == generation {
          CutOffNeverSurfaces(t, events, a);
        } else {
          OthersDoNotSurface(t, events, a, generation);
        }
      }
    }
  }

  lemma {:induction false} RunKeepsControllersKnown(s: State, events: seq<Event>)
    requires ControllersKnown(s)
    ensures ControllersKnown(Run(s, events))
    decreases |events|
  {
    if events != [] {
      RunKeepsControllersKnown(Step(s, events[0]), events[1..]);
    }
  }

  // ----- The class -------------------------------------------------------------------------

  class ForegroundDetachHandoff {
    var generation: int
    var delivered: set<Key>
    var pending: map<(int, Key), nat>
    /** The number of the abort controller in force, and every attempt begun so far. */
    var controller: nat
    var attempts: seq<Attempt>
    ghost var adopted: set<int>
    ghost var surfaced: seq<Surfacing>

    ghost function View(): State
      reads this
    {
      State(generation, controller, delivered, pending, attempts, adopted, surfaced)
    }

    constructor ()
      ensures View() == INITIAL
    {
      generation, controller, delivered, pending, attempts := NONE, 0, {}, map[], [];
      adopted, surfaced := {}, [];
    }

    method Deliver(key: Key, generation: int, isCurrent: bool) returns (answer: Answer)
      modifies this
      ensures View() == Step(old(View()), Event.Deliver(key, generation, isCurrent))
      ensures answer == if isCurrent then Delivering(old(View()), key, generation).1 else Immediate(Abandoned)
    {
      if !isCurrent {
        return Immediate(Abandoned);
      }
      if this.generation != generation {
        ResetForGeneration(generation);
      }
      if key in delivered {
        return Immediate(Delivered);
      }
      if (generation, key) in pending {
        return Promised(pending[(generation, key)]);
      }
      answer := Promised(|attempts|);
      pending := pending[(generation, key) := |attempts|];
      attempts := attempts + [Attempt(generation, key, controller, Probe, Waiting, 0)];
    }

    /** The wait of an attempt is over: acknowledged or timed out. A settled wait ignores later events. */
    method FinishWait(a: nat, acknowledged: bool)
      requires a < |attempts|
      modifies this`attempts
      ensures View() == Step(old(View()), if acknowledged then Acknowledge(a) else Expire(a))
    {
      if attempts[a].wait != Waiting || attempts[a].phase.Done? {
        return;
      }
      var acks := attempts[a].acks + if acknowledged then 1 else 0;
      attempts := attempts[a := attempts[a].(wait := if acknowledged then Acknowledged else TimedOut, acks := acks)];
    }

    /** `claimAndDeliver` goes on after a wait; `surfaces` tells whether the message is shown now. */
    method ResumeClaim(a: nat, isCurrent: bool) returns (surfaces: bool)
      requires a < |attempts| && attempts[a].wait != Waiting && !attempts[a].phase.Done?
      modifies this`attempts, this`delivered, this`surfaced
      ensures View() == Step(old(View()), Resume(a, isCurrent))
      ensures surfaces <==> surfaced == old(surfaced) + [Surfacing(a, controller)]
    {
      var attempt := attempts[a];
      surfaces := false;
      if attempt.wait == Cancelled || !isCurrent || generation != attempt.generation {
        attempts := attempts[a := attempt.(phase := Done(Abandoned))];
      } else if attempt.wait == TimedOut {
        attempts := attempts[a := attempt.(phase := Done(Unclaimed))];
      } else if attempt.phase == Probe {
        var wait := if attempt.controller == controller then Waiting else Cancelled;
        attempts := attempts[a := attempt.(phase := Commit, wait := wait)];
      } else {
        surfaces := true;
        surfaced := surfaced + [Surfacing(a, controller)];
        delivered := delivered + {attempt.key};
        attempts := attempts[a := attempt.(phase := Done(Delivered))];
      }
    }

    /** The `finally` of a finished attempt. */
    method ForgetPending(a: nat)
      requires a < |attempts| && attempts[a].phase.Done?
      modifies this`pending
      ensures View() == Step(old(View()), Forget(a))
    {
      var key := (attempts[a].generation, attempts[a].key);
      if key in pending && pending[key] == a {
        pending := pending - {key};
      }
    }

    method ResetForGeneration(generation: int)
      modifies this
      ensures View() == ResetFor(old(View()), generation)
    {
      attempts := Abort(attempts);
      controller := controller + 1;
      pending := map[];
      delivered := {};
      this.generation := generation;
      adopted := adopted + {generation};
    }
  }
}
