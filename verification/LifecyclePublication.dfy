/**
 What it means that a replay succeeds and that a module is published (packages/intercom/index.ts): the
 session that needed it has been told and marked. By which stages a load gets there, and what a shutdown leaves.
 */
module LifecyclePublications {
  import opened Sequences
  import F = LifecycleForwarders
  import opened Lifecycles

  /** A replay that runs is in a round. */
  ghost predicate RunningReads(s: State) {
    forall o: nat :: o < |s.jobs| && F.IsRunning(s.forward, o) && s.jobs[o].Replay? ==> s.jobs[o].reading.Some?
  }

  lemma {:induction false} RoundReads(s: State, o: nat)
    requires o < |s.jobs| && s.jobs[o].Replay?
    requires forall p: nat :: p < |s.jobs| && p != o && F.IsRunning(s.forward, p) && s.jobs[p].Replay? ==> s.jobs[p].reading.Some?
    ensures RunningReads(Round(s, o))
  {
  }

  lemma {:induction false} OperationsRead(s: State, o: nat, ok: bool)
    requires RunningReads(s)
    ensures RunningReads(OperationBegun(s, o)) && RunningReads(OperationResumed(s, o, ok))
  {
    var begun := s.(forward := F.Begun(s.forward, o));
    assert forall p: nat :: p != o ==> (F.IsRunning(begun.forward, p) <==> F.IsRunning(s.forward, p));
    if o < |s.jobs| && s.jobs[o].Replay? {
      RoundReads(begun, o);
      RoundReads(s, o);
    }
  }

  /** Enqueuing starts nothing. */
  lemma {:induction false} EnqueuedReads(s: State, t: State)
    requires RunningReads(s) && |s.jobs| == |s.forward.operations| && |s.jobs| <= |t.jobs|
    requires t.forward == s.forward || t.forward == F.Enqueued(s.forward)
    requires forall o: nat :: o < |s.jobs| ==> t.jobs[o] == s.jobs[o]
    ensures RunningReads(t)
  {
  }

  lemma {:induction false} OthersRead(s: State, event: Event)
    requires s.leases != [] && RunningReads(s) && |s.jobs| == |s.forward.operations| && !event.OperationBegins? && !event.OperationResumes?
    ensures RunningReads(Step(s, event))
  {
    if event.LoadResumes? {
      var resumed := LoadResumed(s, event.attempt, event.ok, event.synthetic);
      assert resumed.jobs == s.jobs && resumed.forward == s.forward;
    }
    EnqueuedReads(s, Step(s, event));
  }

  lemma {:induction false} StepReads(s: State, event: Event)
    requires Invariant(s) && RunningReads(s)
    ensures RunningReads(Step(s, event))
  {
    match event {
      case OperationBegins(o) => OperationsRead(s, o, true);
      case OperationResumes(o, ok) => OperationsRead(s, o, ok);
      case _ => OthersRead(s, event);
    }
  }

  lemma {:induction false} RunReads(s: State, events: seq<Event>)
    requires Invariant(s) && RunningReads(s)
    ensures RunningReads(Run(s, events))
    decreases |events|
  {
    if events != [] {
      StepKeepsInvariant(s, events[0]);
      StepReads(s, events[0]);
      RunReads(Step(s, events[0]), events[1..]);
    }
  }

  /** If this replay has succeeded and the session is still this one, the session is marked. */
  ghost predicate SuccessMarks(s: State, o: nat, snapshot: Snapshot) {
    && o < |s.jobs| && s.jobs[o].Replay? && s.jobs[o].lease == snapshot.lease && snapshot.generation <= s.generation
    && (s.snapshot == Some(snapshot) && Succeeded(s, Some(o)) ==> s.replayed == snapshot.generation)
  }

  lemma {:induction false} RoundMarks(s: State, p: nat, o: nat, snapshot: Snapshot)
    requires SuccessMarks(s, o, snapshot) && p < |s.jobs| && s.jobs[p].Replay?
    ensures SuccessMarks(Round(s, p), o, snapshot)
  {
  }

  lemma {:induction false} BeginningMarks(s: State, p: nat, o: nat, snapshot: Snapshot)
    requires SuccessMarks(s, o, snapshot)
    ensures SuccessMarks(OperationBegun(s, p), o, snapshot)
  {
    if F.CanBegin(s.forward, p) {
      var begun := s.(forward := F.Begun(s.forward, p));
      assert Succeeded(begun, Some(o)) ==> Succeeded(s, Some(o));
      if p < |s.jobs| && s.jobs[p].Replay? {
        RoundMarks(begun, p, o, snapshot);
      }
    }
  }

  lemma {:induction false} ResumingMarks(s: State, p: nat, ok: bool, o: nat, snapshot: Snapshot)
    requires SuccessMarks(s, o, snapshot) && RunningReads(s)
    ensures SuccessMarks(OperationResumed(s, p, ok), o, snapshot)
  {
    if Reads(s, p) && ok && Current(s, s.jobs[p].lease) && s.snapshot != Some(s.jobs[p].reading.value.snapshot) {
      RoundMarks(s, p, o, snapshot);
    }
  }

  lemma {:induction false} OthersMark(s: State, event: Event, o: nat, snapshot: Snapshot)
    requires Invariant(s) && SuccessMarks(s, o, snapshot) && !event.OperationBegins? && !event.OperationResumes?
    ensures SuccessMarks(Step(s, event), o, snapshot)
  {
    var t := Step(s, event);
    StepMovesOn(s, event);
    StepExtends(s, event);
    OthersSettleNothing(s, event, o);
  }

  lemma {:induction false} OthersSettleNothing(s: State, event: Event, o: nat)
    requires s.leases != [] && o < |s.jobs| && |s.jobs| == |s.forward.operations| && !event.OperationBegins? && !event.OperationResumes?
    ensures var t := Step(s, event);
      && (Succeeded(t, Some(o)) <==> Succeeded(s, Some(o)))
      && (t.replayed == s.replayed || t.snapshot.None?)
  {
    match event {
      case LoadResumes(a, ok, synthetic) =>
        assert LoadResumed(s, a, ok, synthetic).replayed == s.replayed && LoadResumed(s, a, ok, synthetic).forward == s.forward;
      case LoadEnsures(a) => assert LoadEnsured(s, a).replayed == s.replayed;
      case _ =>
    }
  }

  lemma {:induction false} StepMarks(s: State, event: Event, o: nat, snapshot: Snapshot)
    requires Invariant(s) && RunningReads(s) && SuccessMarks(s, o, snapshot)
    ensures SuccessMarks(Step(s, event), o, snapshot)
  {
    match event {
      case OperationBegins(p) => BeginningMarks(s, p, o, snapshot);
      case OperationResumes(p, ok) => ResumingMarks(s, p, ok, o, snapshot);
      case _ => OthersMark(s, event, o, snapshot);
    }
  }

  lemma {:induction false} RunMarks(s: State, events: seq<Event>, o: nat, snapshot: Snapshot)
    requires Invariant(s) && RunningReads(s) && SuccessMarks(s, o, snapshot)
    ensures SuccessMarks(Run(s, events), o, snapshot)
    decreases |events|
  {
    if events != [] {
      StepKeepsInvariant(s, events[0]);
      StepReads(s, events[0]);
      StepMarks(s, events[0], o, snapshot);
      RunMarks(Step(s, events[0]), events[1..], o, snapshot);
    }
  }

  /** However a run goes on, if the replay this session waits for succeeds while it lasts, it is marked. */
  ghost predicate SuccessAlwaysTells(s: State, lease: nat, heavy: nat)
    requires s.leases != [] && NeedsReplay(s, lease)
  {
    forall during :: var t := Run(ReplayEnsured(s, lease, heavy), during);
      t.snapshot == s.snapshot && Succeeded(t, AwaitedReplay(s, lease, heavy)) ==> t.replayed == s.snapshot.value.generation
  }

  lemma {:induction false} EnsuringMarks(s: State, lease: nat, heavy: nat)
    requires Invariant(s) && RunningReads(s) && Entered(s, lease) && NeedsReplay(s, lease)
    requires !Succeeded(s, AwaitedReplay(s, lease, heavy))
    ensures var t := ReplayEnsured(s, lease, heavy);
      Invariant(t) && RunningReads(t) && SuccessMarks(t, AwaitedReplay(s, lease, heavy).value, s.snapshot.value)
  {
    var t := ReplayEnsured(s, lease, heavy);
    ReplayEnsuredKeeps(s, lease, heavy);
    assert forall p: nat :: p < |s.jobs| ==> t.jobs[p] == s.jobs[p] && (F.IsRunning(t.forward, p) <==> F.IsRunning(s.forward, p));
  }

  /**
   Waiting for a replay makes sure that the session is told, however the run goes on, if and only if that
   replay has not succeeded already: a new one, or one joined in time. One that was joined after its success
   says nothing of a session that came later.
   */
  lemma {:induction false} SuccessAlwaysTellsIff(events: seq<Event>, lease: nat, heavy: nat)
    requires Entered(Run(INITIAL, events), lease) && NeedsReplay(Run(INITIAL, events), lease)
    ensures var s := Run(INITIAL, events); SuccessAlwaysTells(s, lease, heavy) <==> !Succeeded(s, AwaitedReplay(s, lease, heavy))
  {
    var s := Run(INITIAL, events);
    InitiallySound();
    RunKeepsInvariant(INITIAL, events);
    RunReads(INITIAL, events);
    var o, t := AwaitedReplay(s, lease, heavy).value, ReplayEnsured(s, lease, heavy);
    if Succeeded(s, Some(o)) {
      assert Run(t, []) == t && t == s;
    } else {
      EnsuringMarks(s, lease, heavy);
      forall during | Run(t, during).snapshot == s.snapshot && Succeeded(Run(t, during), Some(o))
        ensures Run(t, during).replayed == s.snapshot.value.generation
      {
        RunMarks(t, during, o, s.snapshot.value);
      }
    }
  }

  // ----- Publication -----------------------------------------------------------------------

  /** The load awaits this replay, or has gone on since. */
  ghost predicate Awaits(s: State, a: nat, operation: Option<nat>) {
    a < |s.attempts| && (s.attempts[a].stage == AwaitingReplay(operation) || s.attempts[a].stage.CleaningUp? || s.attempts[a].stage.Done?)
  }

  lemma {:induction false} StepAwaits(s: State, event: Event, a: nat, operation: Option<nat>)
    requires s.leases != [] && Awaits(s, a, operation)
    ensures Awaits(Step(s, event), a, operation)
  {
    match event {
      case BeginLoad(_) =>
      case LoadResumes(b, ok, synthetic) => assert Awaits(LoadResumed(s, b, ok, synthetic), a, operation);
      case LoadEnsures(b) => assert Awaits(LoadEnsured(s, b), a, operation);
      case _ => OnlyLoadsChangeAttempts(s, event);
    }
  }

  lemma {:induction false} RunAwaits(s: State, events: seq<Event>, a: nat, operation: Option<nat>)
    requires s.leases != [] && Awaits(s, a, operation)
    ensures Awaits(Run(s, events), a, operation)
    decreases |events|
  {
    if events != [] {
      StepAwaits(s, events[0], a, operation);
      RunAwaits(Step(s, events[0]), events[1..], a, operation);
    }
  }

  /** A marked session stays marked while it lasts. */
  lemma {:induction false} StaysMarked(s: State, events: seq<Event>, snapshot: Snapshot)
    requires Invariant(s) && snapshot.generation <= s.generation
    requires s.snapshot == Some(snapshot) ==> s.replayed == snapshot.generation
    ensures Run(s, events).snapshot == Some(snapshot) ==> Run(s, events).replayed == snapshot.generation
    decreases |events|
  {
    if events != [] {
      StepKeepsInvariant(s, events[0]);
      StepMovesOn(s, events[0]);
      if s.snapshot == Some(snapshot) {
        StepStaysMarked(s, events[0], snapshot);
      }
      StaysMarked(Step(s, events[0]), events[1..], snapshot);
    }
  }

  lemma {:induction false} StepStaysMarked(s: State, event: Event, snapshot: Snapshot)
    requires Invariant(s) && s.snapshot == Some(snapshot) && s.replayed == snapshot.generation
    ensures Step(s, event).snapshot == Some(snapshot) ==> Step(s, event).replayed == snapshot.generation
  {
    match event {
      case OperationBegins(o) => assert OperationBegun(s, o).replayed == s.replayed;
      case OperationResumes(o, ok) =>
      case LoadResumes(a, ok, synthetic) => assert LoadResumed(s, a, ok, synthetic).replayed == s.replayed;
      case LoadEnsures(a) => assert LoadEnsured(s, a).replayed == s.replayed;
      case _ =>
    }
  }

  /**
   In every run, a module that is published while the session lasts that its load was to be told of has been
   told: that session's generation is the one last marked; unless the replay it joined had succeeded before.
   */
  lemma {:induction false} PublishedModuleWasTold(before: seq<Event>, a: nat, during: seq<Event>, event: Event)
    requires var s := Run(INITIAL, before);
      && a < |s.attempts| && s.attempts[a].stage == Ensuring && Entered(s, s.attempts[a].lease) && s.snapshot.Some?
      && (NeedsReplay(s, s.attempts[a].lease) ==> !Succeeded(s, AwaitedReplay(s, s.attempts[a].lease, a)))
    requires var t := Run(Step(Run(INITIAL, before), LoadEnsures(a)), during);
      t.snapshot == Run(INITIAL, before).snapshot && Step(t, event).loadedHeavy == Some(a) && t.loadedHeavy != Some(a)
    ensures var t := Run(Step(Run(INITIAL, before), LoadEnsures(a)), during);
      t.replayed == t.snapshot.value.generation
  {
    var s := Run(INITIAL, before);
    InitiallySound();
    RunKeepsInvariant(INITIAL, before);
    RunReads(INITIAL, before);
    EnsuredLoadIsTold(s, a, during);
    var operation := AwaitedReplay(s, s.attempts[a].lease, a);
    RunAwaits(Step(s, LoadEnsures(a)), during, a, operation);
    OnlyAwaitedLoadsPublish(Run(Step(s, LoadEnsures(a)), during), event, a);
  }

  lemma {:induction false} EnsuredLoadIsTold(s: State, a: nat, during: seq<Event>)
    requires Invariant(s) && RunningReads(s)
    requires a < |s.attempts| && s.attempts[a].stage == Ensuring && Entered(s, s.attempts[a].lease) && s.snapshot.Some?
    requires NeedsReplay(s, s.attempts[a].lease) ==> !Succeeded(s, AwaitedReplay(s, s.attempts[a].lease, a))
    ensures var t := Run(Step(s, LoadEnsures(a)), during);
      t.snapshot == s.snapshot && Succeeded(t, AwaitedReplay(s, s.attempts[a].lease, a)) ==> t.replayed == s.snapshot.value.generation
  {
    var ensured, lease := LoadEnsured(s, a), s.attempts[a].lease;
    StepKeepsInvariant(s, LoadEnsures(a));
    StepReads(s, LoadEnsures(a));
    if NeedsReplay(s, lease) {
      var o := AwaitedReplay(s, lease, a).value;
      EnsuringMarks(s, lease, a);
      EnsuredMarks(s, a, o);
      RunMarks(ensured, during, o, s.snapshot.value);
    } else {
      StaysMarked(ensured, during, s.snapshot.value);
    }
  }

  lemma {:induction false} EnsuredMarks(s: State, a: nat, o: nat)
    requires Invariant(s) && a < |s.attempts| && s.attempts[a].stage == Ensuring && Entered(s, s.attempts[a].lease) && s.snapshot.Some?
    requires SuccessMarks(ReplayEnsured(s, s.attempts[a].lease, a), o, s.snapshot.value)
    ensures SuccessMarks(LoadEnsured(s, a), o, s.snapshot.value)
  {
  }

  // ----- The stages of a load --------------------------------------------------------------

  /** The stage after this one, if what it waited for ended well and the lease is still current. */
  predicate Next(before: Stage, after: Stage) {
    match before
    case Importing => after.Initialising?
    case Initialising => after.Ensuring?
    case Ensuring => after.AwaitingReplay?
    case AwaitingReplay(_) => after == Done(true)
    case _ => false
  }

  /**
   A load moves only by its own event and one stage at a time: imported, initialised, told of the session,
   published. It goes on only under a live lease; otherwise it cleans up and is done, not published.
   */
  lemma {:induction false} LoadsGoStageByStage(s: State, event: Event, a: nat)
    requires s.leases != [] && a < |s.attempts| && Step(s, event).attempts[a] != s.attempts[a]
    ensures var before, after := s.attempts[a].stage, Step(s, event).attempts[a].stage;
      && ((event.LoadResumes? && event.attempt == a) || event == LoadEnsures(a)) && (event.LoadEnsures? <==> before == Ensuring)
      && (|| (Next(before, after) && Current(s, s.attempts[a].lease))
          || (after == CleaningUp && !before.CleaningUp? && !before.Done?)
          || (before == CleaningUp && after == Done(false)))
      && (event.LoadResumes? && !before.AwaitingReplay? && Next(before, after) ==> event.ok)
      && (event.LoadResumes? && event.ok && Current(s, s.attempts[a].lease) && (before.Importing? || before.Initialising?) ==> Next(before, after))
  {
    match event {
      case LoadResumes(b, ok, synthetic) => assert b == a;
      case LoadEnsures(b) => assert b == a;
      case BeginLoad(_) =>
      case _ => OnlyLoadsChangeAttempts(s, event);
    }
  }

  lemma {:induction false} GoingOnAddsNone(s: State, a: nat, ok: bool, synthetic: bool)
    ensures |LoadResumed(s, a, ok, synthetic).attempts| == |LoadEnsured(s, a).attempts| == |s.attempts|
  {
  }

  /** A load begins by importing, under the lease that wants it. */
  lemma {:induction false} LoadsBeginImporting(s: State, event: Event)
    requires s.leases != [] && |Step(s, event).attempts| != |s.attempts|
    ensures event.BeginLoad? && Step(s, event).attempts == s.attempts + [Attempt(event.lease, Importing)]
  {
    match event {
      case LoadResumes(b, ok, synthetic) => GoingOnAddsNone(s, b, ok, synthetic);
      case LoadEnsures(b) => GoingOnAddsNone(s, b, true, false);
      case BeginLoad(_) =>
      case _ => OnlyLoadsChangeAttempts(s, event);
    }
  }

  /**
   After a shutdown nothing of the session is left: no snapshot, nothing active, no load, module or replay
   to go on with; and the lease waits for its load, its replay and everything enqueued, the farewell included.
   */
  lemma {:induction false} ShutdownLeavesNothing(events: seq<Event>)
    ensures LeavesNothing(Run(INITIAL, events), Step(Run(INITIAL, events), Shutdown))
  {
    InitiallySound();
    RunKeepsInvariant(INITIAL, events);
    ShutdownRetains(Run(INITIAL, events));
    ShutdownForgets(Run(INITIAL, events));
  }

  ghost predicate LeavesNothing(s: State, t: State) {
    Forgets(s, t) && Retains(s, t)
  }

  ghost predicate Forgets(s: State, t: State) {
    && t.leases != [] && t.leases[|t.leases| - 1].retired && t.snapshot == None && t.active == IDLE
    && t.heavyAttempt == None && t.loadedHeavy == None && t.replayAttempt == None
    && t.replayed == t.generation == s.generation + 1
  }

  /** The retired lease waits for its load, its replay and the last operation enqueued, and for all it waited for before. */
  ghost predicate Retains(s: State, t: State) {
    && 0 < |s.leases| == |t.leases|
    && var last, barrier := |s.leases| - 1, t.leases[|t.leases| - 1].barrier;
    && s.leases[last].barrier <= barrier
    && (s.heavyAttempt.Some? ==> Load(s.heavyAttempt.value) in barrier)
    && (s.replayAttempt.Some? && s.replayAttempt.value < |s.jobs| && s.jobs[s.replayAttempt.value].lease == last ==>
          Forwarded(s.replayAttempt.value) in barrier)
    && (t.jobs != [] ==> Forwarded(|t.jobs| - 1) in barrier)
  }

  lemma {:induction false} ShutdownForgets(s: State)
    requires s.leases != []
    ensures Forgets(s, ShutDown(s))
  {
  }

  lemma {:induction false} ShutdownRetains(s: State)
    requires Invariant(s)
    ensures Retains(s, ShutDown(s))
  {
    var published := if s.loadedHeavy.Some? then Enqueued(s, Forward(|s.leases| - 1, s.loadedHeavy.value, Farewell)) else s;
    assert published.forward.tail == F.Previous(|published.jobs|);
    assert InFlight(s, |s.leases| - 1) + TailTask(published.forward) <= ShutDown(s).leases[|s.leases| - 1].barrier;
  }
}
