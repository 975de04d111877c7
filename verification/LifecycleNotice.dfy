/**
 What a loaded module is told of as it happens (packages/intercom/index.ts), and what a module that is
 still loading misses.
 */
module LifecycleNotices {
  import opened Sequences
  import F = LifecycleForwarders
  import opened Lifecycles

  // ----- Forwarded notices -----------------------------------------------------------------

  /** What the session goes through in a step: a shutdown, or a happening under a live lease. */
  function Occurs(s: State, event: Event): Option<Notice>
    requires s.leases != []
  {
    match event
    case Shutdown => Some(Farewell)
    case Happens(what, payload) => if s.leases[|s.leases| - 1].retired then None else Some(Told(what, payload))
    case _ => None
  }

  /** All of that, in order, each with the module loaded at the time. */
  ghost function Occurrences(s: State, events: seq<Event>): seq<(Option<nat>, Notice)>
    requires s.leases != []
    decreases |events|
  {
    if events == [] then []
    else (if Occurs(s, events[0]).Some? then [(s.loadedHeavy, Occurs(s, events[0]).value)] else []) + Occurrences(Step(s, events[0]), events[1..])
  }

  /** Those that found a module. */
  function Addressed(occurrences: seq<(Option<nat>, Notice)>): seq<(nat, Notice)> {
    if occurrences == [] then []
    else (if occurrences[0].0.Some? then [(occurrences[0].0.value, occurrences[0].1)] else []) + Addressed(occurrences[1..])
  }

  /** The forwarded events among the jobs: to which module, and what. */
  function Letters(jobs: seq<Job>): seq<(nat, Notice)> {
    if jobs == [] then []
    else (if jobs[0].Forward? then [(jobs[0].heavy, jobs[0].notice)] else []) + Letters(jobs[1..])
  }

  lemma {:induction false} LettersConcat(jobs: seq<Job>, more: seq<Job>)
    ensures Letters(jobs + more) == Letters(jobs) + Letters(more)
  {
    if jobs == [] {
      assert jobs + more == more;
    } else {
      assert (jobs + more)[1..] == jobs[1..] + more;
      LettersConcat(jobs[1..], more);
      Assoc(if jobs[0].Forward? then [(jobs[0].heavy, jobs[0].notice)] else [], Letters(jobs[1..]), Letters(more));
    }
  }

  /** A replay's record of its round is no notice. */
  lemma {:induction false} ReadingIsNoLetter(jobs: seq<Job>, o: nat, job: Job)
    requires o < |jobs| && jobs[o].Replay? && job.Replay?
    ensures Letters(jobs[o := job]) == Letters(jobs)
  {
    if o > 0 {
      assert jobs[o := job][1..] == jobs[1..][o - 1 := job];
      ReadingIsNoLetter(jobs[1..], o - 1, job);
    } else {
      assert jobs[o := job][1..] == jobs[1..];
    }
  }

  lemma {:induction false} OneMoreJob(jobs: seq<Job>, job: Job)
    ensures Letters(jobs + [job]) == Letters(jobs) + (if job.Forward? then [(job.heavy, job.notice)] else [])
  {
    LettersConcat(jobs, [job]);
    assert Letters([job][1..]) == [];
  }

  lemma {:induction false} OperationSendsNone(s: State, o: nat, ok: bool)
    ensures Letters(OperationBegun(s, o).jobs) == Letters(s.jobs) == Letters(OperationResumed(s, o, ok).jobs)
  {
    if o < |s.jobs| && s.jobs[o].Replay? {
      var begun, resumed := OperationBegun(s, o).jobs, OperationResumed(s, o, ok).jobs;
      assert begun == s.jobs || (begun[o].Replay? && begun == s.jobs[o := begun[o]]);
      assert resumed == s.jobs || (resumed[o].Replay? && resumed == s.jobs[o := resumed[o]]);
      if begun != s.jobs {
        ReadingIsNoLetter(s.jobs, o, begun[o]);
      }
      if resumed != s.jobs {
        ReadingIsNoLetter(s.jobs, o, resumed[o]);
      }
    }
  }

  /** What one step passes on. */
  function Sends(s: State, event: Event): seq<(nat, Notice)>
    requires s.leases != []
  {
    if s.loadedHeavy.Some? && Occurs(s, event).Some? then [(s.loadedHeavy.value, Occurs(s, event).value)] else []
  }

  lemma {:induction false} StepSends(s: State, event: Event)
    requires s.leases != []
    ensures Letters(Step(s, event).jobs) == Letters(s.jobs) + Sends(s, event)
  {
    match event {
      case Shutdown =>
        if s.loadedHeavy.Some? {
          OneMoreJob(s.jobs, Job.Forward(|s.leases| - 1, s.loadedHeavy.value, Farewell));
        }
      case Happens(what, payload) =>
        if s.loadedHeavy.Some? {
          OneMoreJob(s.jobs, Job.Forward(|s.leases| - 1, s.loadedHeavy.value, Told(what, payload)));
        }
      case _ => OthersSendNone(s, event);
    }
  }

  lemma {:induction false} OthersSendNone(s: State, event: Event)
    requires s.leases != [] && !event.Shutdown? && !event.Happens?
    ensures Letters(Step(s, event).jobs) == Letters(s.jobs)
  {
    match event {
      case EnsureReplay(lease, heavy) => OneMoreJob(s.jobs, Replay(lease, heavy, None));
      case LoadEnsures(a) =>
        if a < |s.attempts| {
          OneMoreJob(s.jobs, Replay(s.attempts[a].lease, a, None));
        }
      case LoadResumes(a, ok, synthetic) => assert LoadResumed(s, a, ok, synthetic).jobs == s.jobs;
      case OperationBegins(o) => OperationSendsNone(s, o, true);
      case OperationResumes(o, ok) => OperationSendsNone(s, o, ok);
      case _ =>
    }
  }

  lemma {:induction false} AddressedFirst(s: State, events: seq<Event>)
    requires s.leases != [] && events != []
    ensures Addressed(Occurrences(s, events)) == Sends(s, events[0]) + Addressed(Occurrences(Step(s, events[0]), events[1..]))
  {
    var first := if Occurs(s, events[0]).Some? then [(s.loadedHeavy, Occurs(s, events[0]).value)] else [];
    AddressedConcat(first, Occurrences(Step(s, events[0]), events[1..]));
    if first != [] {
      assert Addressed(first) == Sends(s, events[0]) + Addressed(first[1..]);
      assert Addressed(first[1..]) == [];
    }
  }

  lemma {:induction false} AddressedConcat(first: seq<(Option<nat>, Notice)>, second: seq<(Option<nat>, Notice)>)
    ensures Addressed(first + second) == Addressed(first) + Addressed(second)
  {
    if first == [] {
      assert first + second == second;
    } else {
      assert (first + second)[1..] == first[1..] + second;
      AddressedConcat(first[1..], second);
      Assoc(if first[0].0.Some? then [(first[0].0.value, first[0].1)] else [], Addressed(first[1..]), Addressed(second));
    }
  }

  /**
   In every run, the modules are told of exactly what happened while one was loaded, in order: each event of
   a live lease and each shutdown once, to the module loaded at the time.
   */
  lemma {:induction false} ForwardsWhatFindsAModule(s: State, events: seq<Event>)
    requires s.leases != []
    ensures Letters(Run(s, events).jobs) == Letters(s.jobs) + Addressed(Occurrences(s, events))
    decreases |events|
  {
    if events != [] {
      var t := Step(s, events[0]);
      StepSends(s, events[0]);
      ForwardsWhatFindsAModule(t, events[1..]);
      AddressedFirst(s, events);
      assert Letters(Run(t, events[1..]).jobs) == (Letters(s.jobs) + Sends(s, events[0])) + Addressed(Occurrences(t, events[1..]));
      Assoc(Letters(s.jobs), Sends(s, events[0]), Addressed(Occurrences(Step(s, events[0]), events[1..])));
    }
  }

  lemma {:induction false} AddressedCount(occurrences: seq<(Option<nat>, Notice)>)
    ensures |Addressed(occurrences)| <= |occurrences|
    ensures |Addressed(occurrences)| == |occurrences| <==> forall i :: 0 <= i < |occurrences| ==> occurrences[i].0.Some?
  {
    if occurrences != [] {
      AddressedCount(occurrences[1..]);
      assert forall i :: 0 < i < |occurrences| ==> occurrences[i] == occurrences[1..][i - 1];
    }
  }

  /** A run misses no notice exactly if a module is loaded whenever something happens. */
  lemma {:induction false} NothingMissedIff(s: State, events: seq<Event>)
    requires s.leases != []
    ensures |Letters(Run(s, events).jobs)| == |Letters(s.jobs)| + |Occurrences(s, events)| <==>
      (forall i :: 0 <= i < |Occurrences(s, events)| ==> Occurrences(s, events)[i].0.Some?)
  {
    ForwardsWhatFindsAModule(s, events);
    AddressedCount(Occurrences(s, events));
  }

  // ----- What a loading module misses ------------------------------------------------------

  /** A session begins, a module loads, and its replay captures what is open and dispatches the session's start. */
  const LOADING := [SessionBegins(0), BeginLoad(0), LoadResumes(0, true, false), LoadResumes(0, true, false), LoadEnsures(0), OperationBegins(0)]

  /** The rest of the load, once that dispatch has succeeded. */
  const PUBLISHING := [OperationResumes(0, true), LoadResumes(0, true, false)]

  lemma RunFirst(s: State, event: Event, rest: seq<Event>)
    requires s.leases != []
    ensures Run(s, [event] + rest) == Run(Step(s, event), rest)
  {
    assert ([event] + rest)[1..] == rest;
  }

  function Initialised(): State {
    INITIAL.(generation := 1, snapshot := Some(Snapshot(1, 0)), attempts := [Attempt(0, Ensuring)], heavyAttempt := Some(0))
  }

  function Captured(): State {
    Initialised().(
      attempts := [Attempt(0, AwaitingReplay(Some(0)))], replayAttempt := Some(0),
      forward := F.State(Some(0), [F.Operation(None, F.Running)], [0]),
      jobs := [Replay(0, 0, Some(Reading(Snapshot(1, 0), IDLE, [SessionStart(1)])))])
  }

  lemma LoadBegins(rest: seq<Event>)
    ensures Run(INITIAL, [SessionBegins(0)] + ([BeginLoad(0)] + rest)) == Run(Initialised().(attempts := [Attempt(0, Importing)]), rest)
  {
    var s := Step(INITIAL, SessionBegins(0));
    RunFirst(INITIAL, SessionBegins(0), [BeginLoad(0)] + rest);
    assert s == INITIAL.(generation := 1, snapshot := Some(Snapshot(1, 0)));
    RunFirst(s, BeginLoad(0), rest);
    assert Step(s, BeginLoad(0)) == Initialised().(attempts := [Attempt(0, Importing)]);
  }

  lemma LoadGoesOn(s: State, stage: Stage, next: Stage, rest: seq<Event>)
    requires s == Initialised().(attempts := [Attempt(0, stage)]) && ((stage == Importing && next == Initialising) || (stage == Initialising && next == Ensuring))
    ensures Run(s, [LoadResumes(0, true, false)] + rest) == Run(s.(attempts := [Attempt(0, next)]), rest)
  {
    RunFirst(s, LoadResumes(0, true, false), rest);
    assert Step(s, LoadResumes(0, true, false)) == s.(attempts := [Attempt(0, next)]);
  }

  lemma ReplayIsEnqueued(rest: seq<Event>)
    ensures Run(Initialised(), [LoadEnsures(0)] + rest)
         == Run(Captured().(forward := F.State(Some(0), [F.Operation(None, F.Waiting)], []), jobs := [Replay(0, 0, None)]), rest)
  {
    var s := Initialised();
    RunFirst(s, LoadEnsures(0), rest);
    var ensured := ReplayEnsured(s, 0, 0);
    assert ensured == s.(forward := F.State(Some(0), [F.Operation(None, F.Waiting)], []), jobs := [Replay(0, 0, None)], replayAttempt := Some(0));
    assert LoadEnsured(s, 0) == AtStage(ensured, 0, AwaitingReplay(Some(0)));
    assert AtStage(ensured, 0, AwaitingReplay(Some(0))).attempts == [Attempt(0, AwaitingReplay(Some(0)))];
  }

  lemma ReplayCaptures(s: State)
    requires s == Captured().(forward := F.State(Some(0), [F.Operation(None, F.Waiting)], []), jobs := [Replay(0, 0, None)])
    ensures Run(s, [OperationBegins(0)]) == Captured()
  {
    RunFirst(s, OperationBegins(0), []);
    assert [OperationBegins(0)] + [] == [OperationBegins(0)];
    var begun := s.(forward := F.Begun(s.forward, 0));
    assert begun.forward == Captured().forward;
    assert Plan(Snapshot(1, 0), IDLE)[..1] == [SessionStart(1)];
    assert Round(begun, 0) == Captured();
  }

  lemma LoadingCaptures()
    ensures Run(INITIAL, LOADING) == Captured()
  {
    var s, rest := Initialised(), [LoadEnsures(0)] + [OperationBegins(0)];
    var resume := [LoadResumes(0, true, false)];
    assert LOADING == [SessionBegins(0)] + ([BeginLoad(0)] + (resume + (resume + rest)));
    LoadBegins(resume + (resume + rest));
    LoadGoesOn(s.(attempts := [Attempt(0, Importing)]), Importing, Initialising, resume + rest);
    LoadGoesOn(s.(attempts := [Attempt(0, Initialising)]), Initialising, Ensuring, rest);
    ReplayIsEnqueued([OperationBegins(0)]);
    ReplayCaptures(Captured().(forward := F.State(Some(0), [F.Operation(None, F.Waiting)], []), jobs := [Replay(0, 0, None)]));
  }

  lemma PublishingMarks(s: State)
    requires s == Captured().(active := s.active) && s.active.turn.Some?
    ensures Run(s, PUBLISHING).(forward := s.forward) == s.(replayed := 1, marks := [1], loadedHeavy := Some(0), attempts := [Attempt(0, Done(true))])
  {
    var t := Step(s, OperationResumes(0, true));
    assert t == s.(replayed := 1, marks := [1], forward := F.State(Some(0), [F.Operation(None, F.Settled(true))], [0]));
    RunFirst(s, OperationResumes(0, true), [LoadResumes(0, true, false)]);
    RunFirst(t, LoadResumes(0, true, false), []);
  }

  /**
   What happens between the capture and the publication reaches the module neither way: a turn that starts
   while the session's start is dispatched stays open, and the module, published and told of the session,
   is never told of the turn.
   */
  lemma TurnStartIsMissed(payload: nat)
    ensures var s := Run(Run(INITIAL, LOADING), [Happens(TurnStart, payload)] + PUBLISHING);
      && s.loadedHeavy == Some(0) && s.marks == [1] && s.active.turn == Some(payload)
      && s.jobs == [Replay(0, 0, Some(Reading(Snapshot(1, 0), IDLE, [SessionStart(1)])))]
  {
    LoadingCaptures();
    RunFirst(Captured(), Happens(TurnStart, payload), PUBLISHING);
    PublishingMarks(Step(Captured(), Happens(TurnStart, payload)));
  }
}
