/**
 What a delivery to the foreground owner is answered, and how an attempt ends
 (packages/intercom/foreground-detach-handoff.ts), in terms of what has surfaced and who has acknowledged.
 */
module ForegroundDispositions {
  import opened ForegroundDetachHandoffs

  /** A message of this key has surfaced under the controller in force. */
  ghost predicate HasSurfaced(s: State, key: Key) {
    exists k: nat :: k < |s.surfaced| && s.surfaced[k].controller == s.controller
      && s.surfaced[k].attempt < |s.attempts| && s.attempts[s.surfaced[k].attempt].key == key
  }

  /** An attempt for this key is under way under the controller in force. */
  ghost predicate UnderWay(s: State, a: nat, key: Key) {
    a < |s.attempts| && s.attempts[a].controller == s.controller && s.attempts[a].key == key && !s.attempts[a].phase.Done?
  }

  /** Nothing counts as delivered but what has surfaced. */
  ghost predicate OnlySurfacedDelivered(s: State) {
    forall key :: key in s.delivered ==> HasSurfaced(s, key)
  }

  /** The keys of attempts stay, and so do surfacings while the controller is the same. */
  ghost predicate KeepsSurfacings(s: State, t: State) {
    && s.controller == t.controller && |s.attempts| <= |t.attempts| && s.surfaced <= t.surfaced
    && forall a :: 0 <= a < |s.attempts| ==> t.attempts[a].key == s.attempts[a].key
  }

  lemma {:induction false} StillSurfaced(s: State, t: State)
    requires KeepsSurfacings(s, t)
    ensures forall key :: HasSurfaced(s, key) ==> HasSurfaced(t, key)
  {
    forall key | HasSurfaced(s, key)
      ensures HasSurfaced(t, key)
    {
      var k: nat :| k < |s.surfaced| && s.surfaced[k].controller == s.controller
        && s.surfaced[k].attempt < |s.attempts| && s.attempts[s.surfaced[k].attempt].key == key;
      assert t.surfaced[k] == s.surfaced[k];
    }
  }

  lemma {:induction false} StepKeepsOnlySurfaced(s: State, event: Event)
    requires OnlySurfacedDelivered(s)
    ensures OnlySurfacedDelivered(Step(s, event))
  {
    var t := Step(s, event);
    if t.controller == s.controller {
      StillSurfaced(s, t);
      if t.delivered != s.delivered {
        var a := event.attempt;
        assert t.surfaced[|s.surfaced|] == Surfacing(a, s.controller);
        assert HasSurfaced(t, s.attempts[a].key);
      }
    }
  }

  lemma {:induction false} RunKeepsOnlySurfaced(s: State, events: seq<Event>)
    requires OnlySurfacedDelivered(s)
    ensures OnlySurfacedDelivered(Run(s, events))
    decreases |events|
  {
    if events != [] {
      StepKeepsOnlySurfaced(s, events[0]);
      RunKeepsOnlySurfaced(Step(s, events[0]), events[1..]);
    }
  }

  /**
   What a current delivery is answered, as long as numbers are not reused: delivered, if its message has
   surfaced in this generation; the promise of the attempt for it that is under way, or of one that ended
   and is still remembered; and a new attempt otherwise.
   */
  lemma {:induction false} DeliverAnswersExactly(events: seq<Event>, key: Key, generation: int)
    requires NeverReused(INITIAL, events) && FreshGeneration(Run(INITIAL, events), Deliver(key, generation, true))
    ensures var s := Run(INITIAL, events);
      var (t, answer) := Delivering(s, key, generation);
      && (s.generation == generation && HasSurfaced(s, key) ==> answer == Immediate(Delivered) && t == s)
      && (forall a: nat :: s.generation == generation && UnderWay(s, a, key) ==> answer == Promised(a) && t == s)
      && (answer.Immediate? ==> answer.disposition == Delivered && s.generation == generation && HasSurfaced(s, key))
      && (answer.Promised? && answer.attempt < |s.attempts| ==>
            && t == s && s.generation == generation && s.attempts[answer.attempt].key == key
            && s.attempts[answer.attempt].controller == s.controller && s.attempts[answer.attempt].generation == generation)
      && (answer.Promised? && answer.attempt >= |s.attempts| ==>
            && t.generation == generation && |t.attempts| == |s.attempts| + 1 && answer.attempt == |s.attempts|
            && t.attempts[|s.attempts|] == Attempt(generation, key, t.controller, Probe, Waiting, 0))
  {
    assert Invariant(INITIAL);
    RunKeepsInvariant(INITIAL, events);
    RunKeepsOnlySurfaced(INITIAL, events);
  }

  /** Once an attempt that did not deliver has ended and is forgotten, the same message gets a new attempt. */
  lemma {:induction false} ForgottenIsTriedAgain(events: seq<Event>, a: nat)
    requires NeverReused(INITIAL, events) && a < |Run(INITIAL, events).attempts|
    requires var s := Run(INITIAL, events); var attempt := s.attempts[a];
      && attempt.controller == s.controller && attempt.phase.Done? && !HasSurfaced(s, attempt.key)
      && (attempt.generation, attempt.key) in s.pending && s.pending[(attempt.generation, attempt.key)] == a
    ensures var s := Run(INITIAL, events); var attempt := s.attempts[a];
      Delivering(s, attempt.key, attempt.generation) == (s, Promised(a))
    ensures var s := Run(INITIAL, events); var attempt := s.attempts[a];
      Delivering(Step(s, Forget(a)), attempt.key, attempt.generation).1 == Promised(|s.attempts|)
  {
    assert Invariant(INITIAL);
    RunKeepsInvariant(INITIAL, events);
    RunKeepsOnlySurfaced(INITIAL, events);
  }

  /**
   How an attempt goes on when its wait is over, in every run that reuses no number: it is abandoned if the
   session or the generation changed or the wait was cancelled, unclaimed if it timed out, and otherwise
   commits after its first acknowledgement and surfaces after its second.
   */
  lemma {:induction false} ResumeDecidesExactly(events: seq<Event>, a: nat, current: bool)
    requires NeverReused(INITIAL, events) && a < |Run(INITIAL, events).attempts|
    requires var attempt := Run(INITIAL, events).attempts[a]; !attempt.phase.Done? && attempt.wait != Waiting
    ensures var s, t := Run(INITIAL, events), Step(Run(INITIAL, events), Resume(a, current));
      var attempt, stays := s.attempts[a], current && s.generation == s.attempts[a].generation && s.attempts[a].wait != Cancelled;
      && |t.attempts| == |s.attempts| && t.pending == s.pending
      && t.attempts[a].phase == (
           if !stays then Done(Abandoned)
           else if attempt.wait == TimedOut then Done(Unclaimed)
           else if attempt.acks == 1 then Commit
           else Done(Delivered))
      && t.surfaced == (if stays && attempt.wait == Acknowledged && attempt.acks == 2 then s.surfaced + [Surfacing(a, s.controller)] else s.surfaced)
      && (t.attempts[a].phase == Commit ==> t.attempts[a].wait == Waiting)
      && (HasSurfaced(t, attempt.key) <==> HasSurfaced(s, attempt.key) || t.attempts[a].phase == Done(Delivered))
  {
    assert Invariant(INITIAL);
    RunKeepsInvariant(INITIAL, events);
    var s, t := Run(INITIAL, events), Step(Run(INITIAL, events), Resume(a, current));
    StillSurfaced(s, t);
    if |t.surfaced| > |s.surfaced| {
      assert t.surfaced[|s.surfaced|] == Surfacing(a, s.controller);
    } else {
      StillSurfaced(t.(attempts := s.attempts), s);
      assert forall k: nat :: k < |t.surfaced| ==> t.surfaced[k] == s.surfaced[k];
    }
  }
}
