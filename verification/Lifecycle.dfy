/**
 Session leases, lazy loading and replay (packages/intercom/lifecycle-lease.ts, packages/intercom/index.ts).
 A lease is a number into the list of all leases, a load or a forwarded operation one into the lists of
 those. A barrier is the set of the tasks it waits for. Whatever resumes after a wait is an event of its
 own, so every other event may come in between.
 */
module Lifecycles {
  import opened Sequences
  import F = LifecycleForwarders

  /** The promise of a load, or of an operation of the forwarder. */
  datatype Task = Load(attempt: nat) | Forwarded(operation: nat)

  datatype Lease = Lease(prior: set<Task>, retired: bool, barrier: set<Task>)

  datatype Snapshot = Snapshot(generation: nat, lease: nat)

  /** `AwaitingReplay` names the operation that replays the session to this load's module, if one is needed. */
  datatype Stage = Importing | Initialising | Ensuring | AwaitingReplay(operation: Option<nat>) | CleaningUp | Done(ok: bool)

  datatype Attempt = Attempt(lease: nat, stage: Stage)

  datatype Happening = TurnStart | TurnEnd | AgentStart | AgentEnd | ToolStart(id: string) | ToolEnd(id: string) | ModelSelect

  /** What is going on in the session: the payload of each start that has not ended. */
  datatype Active = Active(turn: Option<nat>, model: Option<nat>, agent: Option<nat>, tools: seq<(string, nat)>)

  /** One handler dispatch of a replay. */
  datatype Dispatch = SessionStart(generation: nat) | Again(what: Happening, payload: nat)

  /** One round of the replay loop: what it captured, and what it has dispatched so far. */
  datatype Reading = Reading(snapshot: Snapshot, active: Active, sent: seq<Dispatch>)

  /** What a loaded module is told of as it happens: a happening of the session, or its shutdown. */
  datatype Notice = Told(what: Happening, payload: nat) | Farewell

  /** What an operation of the forwarder does: dispatch one event, or replay the session, to a heavy module. */
  datatype Job = Forward(lease: nat, heavy: nat, notice: Notice) | Replay(lease: nat, heavy: nat, reading: Option<Reading>)

  /** `marks` is history: the generations marked by replays. */
  datatype State = State(
    leases: seq<Lease>, generation: nat, snapshot: Option<Snapshot>, replayed: nat, active: Active,
    attempts: seq<Attempt>, heavyAttempt: Option<nat>, loadedHeavy: Option<nat>,
    forward: F.State, jobs: seq<Job>, replayAttempt: Option<nat>, marks: seq<nat>)

  datatype Event =
    | BeginSession
    | SessionBegins(lease: nat)
    | Shutdown
    | BeginLoad(lease: nat)
    | LoadResumes(attempt: nat, ok: bool, synthetic: bool)
    | LoadEnsures(attempt: nat)
    | LoadJoined(attempt: nat, synthetic: bool)
    | LoadRejected(attempt: nat)
    | EnsureReplay(lease: nat, heavy: nat)
    | ReplayEnds(operation: nat)
    | Happens(what: Happening, payload: nat)
    | OperationBegins(operation: nat)
    | OperationResumes(operation: nat, ok: bool)

  const IDLE := Active(None, None, None, [])

  const INITIAL := State([Lease({}, false, {})], 0, None, 0, IDLE, [], None, None, F.INITIAL, [], None, [])

  // ----- Leases and tasks ------------------------------------------------------------------

  predicate Settled(s: State, task: Task) {
    match task
    case Load(a) => a < |s.attempts| && s.attempts[a].stage.Done?
    case Forwarded(o) => F.IsSettled(s.forward, o)
  }

  /** The lease is the latest one and has not been retired. */
  predicate Current(s: State, lease: nat) {
    lease + 1 == |s.leases| && !s.leases[lease].retired
  }

  /** A wait for the cleanup of earlier leases can end. */
  predicate PriorSettled(s: State, lease: nat) {
    lease < |s.leases| && forall task :: task in s.leases[lease].prior ==> Settled(s, task)
  }

  /** Resuming after that wait, with the lease still current. */
  predicate Entered(s: State, lease: nat) {
    PriorSettled(s, lease) && Current(s, lease)
  }

  function Retired(lease: Lease): Lease {
    lease.(retired := true)
  }

  function Retained(lease: Lease, cleanup: set<Task>): Lease {
    lease.(barrier := lease.barrier + cleanup)
  }

  // ----- What is active, and what a replay tells -------------------------------------------

  function WithTool(tools: seq<(string, nat)>, id: string, payload: nat): seq<(string, nat)> {
    if tools == [] then [(id, payload)]
    else if tools[0].0 == id then [(id, payload)] + tools[1..]
    else [tools[0]] + WithTool(tools[1..], id, payload)
  }

  function WithoutTool(tools: seq<(string, nat)>, id: string): seq<(string, nat)> {
    if tools == [] then []
    else if tools[0].0 == id then tools[1..]
    else [tools[0]] + WithoutTool(tools[1..], id)
  }

  function Lookup(tools: seq<(string, nat)>, id: string): Option<nat> {
    if tools == [] then None else if tools[0].0 == id then Some(tools[0].1) else Lookup(tools[1..], id)
  }

  function Ids(tools: seq<(string, nat)>): (r: seq<string>)
    ensures |r| == |tools|
  {
    if tools == [] then [] else [tools[0].0] + Ids(tools[1..])
  }

  lemma {:induction false} AbsentTool(tools: seq<(string, nat)>, id: string)
    requires id !in Ids(tools)
    ensures Lookup(tools, id) == None && WithoutTool(tools, id) == tools && WithTool(tools, id, 0) == tools + [(id, 0)]
  {
    if tools != [] {
      AbsentTool(tools[1..], id);
    }
  }

  /** The tools in progress are a map in insertion order: setting keeps the place of a known id. */
  lemma {:induction false} ToolsAreAMap(tools: seq<(string, nat)>, id: string, payload: nat, other: string)
    requires Distinct(Ids(tools))
    ensures Lookup(WithTool(tools, id, payload), other) == if other == id then Some(payload) else Lookup(tools, other)
    ensures Ids(WithTool(tools, id, payload)) == if id in Ids(tools) then Ids(tools) else Ids(tools) + [id]
    ensures Lookup(WithoutTool(tools, id), other) == if other == id then None else Lookup(tools, other)
    ensures Ids(WithoutTool(tools, id)) == Without(Ids(tools), {id})
  {
    if tools != [] {
      assert Ids(tools)[1..] == Ids(tools[1..]);
      ToolsAreAMap(tools[1..], id, payload, other);
      assert id in Ids(tools) <==> id == tools[0].0 || id in Ids(tools[1..]);
      if tools[0].0 == id {
        AbsentTool(tools[1..], id);
        WithoutNone(Ids(tools[1..]), {id});
      }
    }
  }

  function After(active: Active, what: Happening, payload: nat): Active {
    match what
    case TurnStart => active.(turn := Some(payload))
    case TurnEnd => active.(turn := None, agent := None, tools := [])
    case AgentStart => active.(agent := Some(payload), tools := [])
    case AgentEnd => active.(agent := None, tools := [])
    case ToolStart(id) => active.(tools := WithTool(active.tools, id, payload))
    case ToolEnd(id) => active.(tools := WithoutTool(active.tools, id))
    case ModelSelect => active.(model := Some(payload))
  }

  function Once(what: Happening, payload: Option<nat>): seq<Dispatch> {
    if payload.Some? then [Again(what, payload.value)] else []
  }

  function Tools(tools: seq<(string, nat)>): (r: seq<Dispatch>)
    ensures |r| == |tools|
  {
    if tools == [] then [] else [Again(ToolStart(tools[0].0), tools[0].1)] + Tools(tools[1..])
  }

  /** Everything one round of a replay has to dispatch, in order. */
  function Plan(snapshot: Snapshot, active: Active): seq<Dispatch> {
    [SessionStart(snapshot.generation)] + Once(TurnStart, active.turn) + Once(ModelSelect, active.model)
    + Once(AgentStart, active.agent) + Tools(active.tools)
  }

  // ----- Steps -----------------------------------------------------------------------------

  function BegunSession(s: State): State
    requires s.leases != []
  {
    var last := s.leases[|s.leases| - 1];
    if last.retired then s.(leases := s.leases + [Lease(last.barrier, false, last.barrier)]) else s
  }

  function WithSnapshot(s: State, lease: nat): State {
    s.(generation := s.generation + 1, snapshot := Some(Snapshot(s.generation + 1, lease)))
  }

  function SessionBegun(s: State, lease: nat): State {
    if !Entered(s, lease) then s
    else WithSnapshot(if s.snapshot.Some? then s.(active := IDLE) else s, lease)
  }

  function Enqueued(s: State, job: Job): State {
    s.(forward := F.Enqueued(s.forward), jobs := s.jobs + [job])
  }

  /** The tasks in flight that a shutdown of this lease waits for. */
  function InFlight(s: State, lease: nat): set<Task> {
    (if s.heavyAttempt.Some? && s.heavyAttempt.value < |s.attempts| && s.attempts[s.heavyAttempt.value].lease == lease
     then {Load(s.heavyAttempt.value)} else {})
    + (if s.replayAttempt.Some? && s.replayAttempt.value < |s.jobs| && s.jobs[s.replayAttempt.value].lease == lease
       then {Forwarded(s.replayAttempt.value)} else {})
  }

  function TailTask(forward: F.State): set<Task> {
    if forward.tail.Some? then {Forwarded(forward.tail.value)} else {}
  }

  /** Retiring the latest lease, with all that is in flight retained. */
  function RetiredWith(s: State, cleanup: set<Task>): State
    requires s.leases != []
  {
    var lease := |s.leases| - 1;
    s.(leases := s.leases[lease := Retained(Retired(s.leases[lease]), cleanup)],
       generation := s.generation + 1, replayed := s.generation + 1, snapshot := None, active := IDLE,
       heavyAttempt := None, loadedHeavy := None, replayAttempt := None)
  }

  function ShutDown(s: State): State
    requires s.leases != []
  {
    var lease := |s.leases| - 1;
    var published := if s.loadedHeavy.Some? then Enqueued(s, Forward(lease, s.loadedHeavy.value, Farewell)) else s;
    RetiredWith(published, InFlight(s, lease) + TailTask(published.forward))
  }

  function BegunLoad(s: State, lease: nat): State {
    if !Entered(s, lease) || (s.heavyAttempt.Some? && s.heavyAttempt.value < |s.attempts| && s.attempts[s.heavyAttempt.value].lease == lease) then s
    else s.(attempts := s.attempts + [Attempt(lease, Importing)], heavyAttempt := Some(|s.attempts|))
  }

  function AtStage(s: State, a: nat, stage: Stage): State
    requires a < |s.attempts|
  {
    s.(attempts := s.attempts[a := s.attempts[a].(stage := stage)])
  }

  /** Without a session start, a load that has a context to offer stands in for one. */
  function Synthesised(s: State, lease: nat, synthetic: bool): State {
    if s.snapshot.None? && synthetic then WithSnapshot(s, lease) else s
  }

  predicate Succeeded(s: State, operation: Option<nat>) {
    operation.Some? ==> F.IsSettled(s.forward, operation.value) && s.forward.operations[operation.value].phase == F.Settled(true)
  }

  /** The load goes on after a wait that ended well, or fails; its replay is over when the operation has settled. */
  function LoadResumed(s: State, a: nat, ok: bool, synthetic: bool): State {
    if a >= |s.attempts| then s
    else
      var lease := s.attempts[a].lease;
      var proceeds := ok && Current(s, lease);
      match s.attempts[a].stage
      case Importing => AtStage(s, a, if proceeds then Initialising else CleaningUp)
      case Initialising => if proceeds then AtStage(Synthesised(s, lease, synthetic), a, Ensuring) else AtStage(s, a, CleaningUp)
      case Ensuring => s
      case AwaitingReplay(operation) =>
        if operation.Some? && !F.IsSettled(s.forward, operation.value) then s
        else if Current(s, lease) && Succeeded(s, operation) then AtStage(s.(loadedHeavy := Some(a)), a, Done(true))
        else AtStage(s, a, CleaningUp)
      case CleaningUp => AtStage(s, a, Done(false))
      case Done(_) => s
  }

  function LoadIsJoined(s: State, a: nat, synthetic: bool): State {
    if a < |s.attempts| && s.attempts[a].stage == Done(true) && Current(s, s.attempts[a].lease)
    then Synthesised(s, s.attempts[a].lease, synthetic) else s
  }

  /** There is a session of this lease that has not been replayed. */
  predicate NeedsReplay(s: State, lease: nat) {
    s.snapshot.Some? && s.snapshot.value.lease == lease && s.replayed != s.snapshot.value.generation
  }

  /** The replay in progress is for this lease and module. */
  predicate Joins(s: State, lease: nat, heavy: nat) {
    s.replayAttempt.Some? && s.replayAttempt.value < |s.jobs|
    && var job := s.jobs[s.replayAttempt.value]; job.Replay? && job.lease == lease && job.heavy == heavy
  }

  function ReplayEnsured(s: State, lease: nat, heavy: nat): State {
    if !Entered(s, lease) || !NeedsReplay(s, lease) || Joins(s, lease, heavy) then s
    else Enqueued(s, Replay(lease, heavy, None)).(replayAttempt := Some(|s.jobs|))
  }

  /** The replay that `ensureSessionStartReplayed` hands back: none, the one in progress, or a new one. */
  function AwaitedReplay(s: State, lease: nat, heavy: nat): Option<nat> {
    if !NeedsReplay(s, lease) then None else if Joins(s, lease, heavy) then s.replayAttempt else Some(|s.jobs|)
  }

  /** An initialised load has its module told of the session, once prior cleanup has settled. */
  function LoadEnsured(s: State, a: nat): State {
    if a >= |s.attempts| || s.attempts[a].stage != Ensuring || !PriorSettled(s, s.attempts[a].lease) then s
    else
      var lease := s.attempts[a].lease;
      if !Current(s, lease) then AtStage(s, a, CleaningUp)
      else AtStage(ReplayEnsured(s, lease, a), a, AwaitingReplay(AwaitedReplay(s, lease, a)))
  }

  function Happened(s: State, what: Happening, payload: nat): State
    requires s.leases != []
  {
    if s.leases[|s.leases| - 1].retired then s
    else
      var t := s.(active := After(s.active, what, payload));
      if s.loadedHeavy.Some? then Enqueued(t, Forward(|s.leases| - 1, s.loadedHeavy.value, Told(what, payload))) else t
  }

  function Ended(s: State, o: nat, ok: bool): State {
    s.(forward := F.Ended(s.forward, o, ok))
  }

  /** The head of the replay loop: throw, return, or begin a round. */
  function Round(s: State, o: nat): State
    requires o < |s.jobs| && s.jobs[o].Replay?
  {
    var job := s.jobs[o];
    if !Current(s, job.lease) then Ended(s, o, false)
    else if !NeedsReplay(s, job.lease) then Ended(s, o, true)
    else s.(jobs := s.jobs[o := job.(reading := Some(Reading(s.snapshot.value, s.active, Plan(s.snapshot.value, s.active)[..1])))])
  }

  function OperationBegun(s: State, o: nat): State {
    if !F.CanBegin(s.forward, o) then s
    else
      var t := s.(forward := F.Begun(s.forward, o));
      if o < |s.jobs| && s.jobs[o].Replay? then Round(t, o) else t
  }

  /** This replay is waiting for a dispatch of its round. */
  predicate Reads(s: State, o: nat) {
    F.IsRunning(s.forward, o) && o < |s.jobs| && s.jobs[o].Replay? && s.jobs[o].reading.Some?
  }

  function Marked(s: State, generation: nat): State {
    s.(replayed := generation, marks := s.marks + [generation])
  }

  /** A dispatch of the round succeeded and its snapshot is still the session's. */
  function Advanced(s: State, o: nat): State
    requires Reads(s, o)
  {
    var r := s.jobs[o].reading.value;
    var plan := Plan(r.snapshot, r.active);
    if |r.sent| >= |plan| then Ended(Marked(s, r.snapshot.generation), o, true)
    else s.(jobs := s.jobs[o := s.jobs[o].(reading := Some(r.(sent := r.sent + [plan[|r.sent|]])))])
  }

  function OperationResumed(s: State, o: nat, ok: bool): State {
    if !F.IsRunning(s.forward, o) then s
    else if !Reads(s, o) || !ok || !Current(s, s.jobs[o].lease) then Ended(s, o, !Reads(s, o) && ok)
    else if s.snapshot != Some(s.jobs[o].reading.value.snapshot) then Round(s, o)
    else Advanced(s, o)
  }

  function Step(s: State, event: Event): State
    requires s.leases != []
  {
    match event
    case BeginSession => BegunSession(s)
    case SessionBegins(lease) => SessionBegun(s, lease)
    case Shutdown => ShutDown(s)
    case BeginLoad(lease) => BegunLoad(s, lease)
    case LoadResumes(a, ok, synthetic) => LoadResumed(s, a, ok, synthetic)
    case LoadEnsures(a) => LoadEnsured(s, a)
    case LoadJoined(a, synthetic) => LoadIsJoined(s, a, synthetic)
    case LoadRejected(a) =>
      if Settled(s, Load(a)) && !s.attempts[a].stage.ok && s.heavyAttempt == Some(a) then s.(heavyAttempt := None) else s
    case EnsureReplay(lease, heavy) => ReplayEnsured(s, lease, heavy)
    case ReplayEnds(o) => if F.IsSettled(s.forward, o) && s.replayAttempt == Some(o) then s.(replayAttempt := None) else s
    case Happens(what, payload) => Happened(s, what, payload)
    case OperationBegins(o) => OperationBegun(s, o)
    case OperationResumes(o, ok) => OperationResumed(s, o, ok)
  }

  function Run(s: State, events: seq<Event>): (r: State)
    requires s.leases != []
    ensures r.leases != []
    decreases |events|
  {
    if events == [] then s else Run(Step(s, events[0]), events[1..])
  }

  // ----- The invariant ---------------------------------------------------------------------

  /** Every lease but the latest is retired, and each waits for all that the earlier ones retained. */
  ghost predicate LeasesChain(leases: seq<Lease>) {
    && leases != []
    && (forall k: nat :: k < |leases| ==> leases[k].prior <= leases[k].barrier)
    && (forall j: nat, k: nat :: j < k < |leases| ==> leases[j].retired && leases[j].barrier <= leases[k].prior)
  }

  /** A load under way is the one remembered, or its retired lease waits for it. */
  ghost predicate LoadCovered(s: State, a: nat)
    requires a < |s.attempts|
  {
    var lease := s.attempts[a].lease;
    && lease < |s.leases|
    && (s.attempts[a].stage.Done? || (if Current(s, lease) then s.heavyAttempt == Some(a) else Load(a) in s.leases[lease].barrier))
  }

  ghost predicate LoadsCovered(s: State) {
    && (forall a: nat :: a < |s.attempts| ==> LoadCovered(s, a))
    && (s.heavyAttempt.Some? ==> s.heavyAttempt.value < |s.attempts| && Current(s, s.attempts[s.heavyAttempt.value].lease))
    && (s.loadedHeavy.Some? ==> s.loadedHeavy.value < |s.attempts| && s.attempts[s.loadedHeavy.value].stage == Done(true)
                                && Current(s, s.attempts[s.loadedHeavy.value].lease))
  }

  /** The lease waits for an operation that can only come after this one. */
  ghost predicate Awaited(s: State, o: nat, lease: nat)
    requires lease < |s.leases|
  {
    exists p: nat :: o <= p < |s.jobs| && Forwarded(p) in s.leases[lease].barrier
  }

  ghost predicate JobsCovered(s: State) {
    && F.Invariant(s.forward)
    && |s.jobs| == |s.forward.operations|
    && (forall o: nat :: o < |s.jobs| ==> s.jobs[o].lease < |s.leases|)
    && (forall o: nat :: o < |s.jobs| && !Current(s, s.jobs[o].lease) ==> F.IsSettled(s.forward, o) || Awaited(s, o, s.jobs[o].lease))
  }

  ghost predicate ReadingSound(s: State, o: nat)
    requires o < |s.jobs|
  {
    s.jobs[o].Replay? && s.jobs[o].reading.Some? ==>
      var r := s.jobs[o].reading.value;
      && (F.IsRunning(s.forward, o) || F.IsSettled(s.forward, o))
      && r.snapshot.generation <= s.generation
      && r.sent <= Plan(r.snapshot, r.active)
      && (F.IsRunning(s.forward, o) && s.snapshot == Some(r.snapshot) ==> s.replayed < r.snapshot.generation)
  }

  /** The session belongs to the live lease, and nothing newer than it has been marked. */
  ghost predicate SnapshotSound(s: State) {
    && s.replayed <= s.generation
    && (s.snapshot.Some? ==> Current(s, s.snapshot.value.lease) && s.replayed <= s.snapshot.value.generation <= s.generation)
  }

  ghost predicate MarksIncrease(s: State) {
    && (forall i: nat :: i < |s.marks| ==> s.marks[i] <= s.replayed)
    && (forall i: nat, j: nat :: i < j < |s.marks| ==> s.marks[i] < s.marks[j])
  }

  ghost predicate ReadingsSound(s: State) {
    forall o: nat :: o < |s.jobs| ==> ReadingSound(s, o)
  }

  ghost predicate Invariant(s: State) {
    LeasesChain(s.leases) && LoadsCovered(s) && JobsCovered(s) && ReadingsSound(s) && SnapshotSound(s) && MarksIncrease(s)
  }

  lemma {:induction false} InitiallySound()
    ensures Invariant(INITIAL)
  {
  }

  lemma {:induction false} BegunSessionKeeps(s: State)
    requires Invariant(s)
    ensures Invariant(BegunSession(s))
  {
    var t := BegunSession(s);
    if t != s {
      assert forall k: nat :: k < |s.leases| ==> t.leases[k] == s.leases[k] && !Current(t, k) && !Current(s, k);
      assert LeasesChain(t.leases);
      assert forall a: nat :: a < |s.attempts| ==> LoadCovered(s, a) ==> LoadCovered(t, a);
      assert forall o: nat :: o < |s.jobs| ==> Awaited(s, o, s.jobs[o].lease) ==> Awaited(t, o, s.jobs[o].lease);
      assert forall o: nat :: o < |s.jobs| ==> ReadingSound(s, o) ==> ReadingSound(t, o);
    }
  }

  lemma {:induction false} NewSnapshotKeeps(s: State, lease: nat)
    requires Invariant(s) && Current(s, lease)
    ensures Invariant(WithSnapshot(s, lease))
  {
    var t := WithSnapshot(s, lease);
    assert forall a: nat :: a < |s.attempts| ==> LoadCovered(s, a) ==> LoadCovered(t, a);
    assert forall o: nat :: o < |s.jobs| ==> Awaited(s, o, s.jobs[o].lease) ==> Awaited(t, o, s.jobs[o].lease);
    assert forall o: nat :: o < |s.jobs| ==> ReadingSound(s, o) ==> ReadingSound(t, o);
  }

  lemma {:induction false} NewActiveKeeps(s: State, active: Active)
    requires Invariant(s)
    ensures Invariant(s.(active := active))
  {
    var t := s.(active := active);
    assert forall a: nat :: a < |s.attempts| ==> LoadCovered(s, a) ==> LoadCovered(t, a);
    assert forall o: nat :: o < |s.jobs| ==> Awaited(s, o, s.jobs[o].lease) ==> Awaited(t, o, s.jobs[o].lease);
    assert forall o: nat :: o < |s.jobs| ==> ReadingSound(s, o) ==> ReadingSound(t, o);
  }

  lemma {:induction false} EnqueuedCoversJobs(s: State, job: Job)
    requires JobsCovered(s) && Current(s, job.lease)
    ensures JobsCovered(Enqueued(s, job))
  {
    var t := Enqueued(s, job);
    F.StepKeepsInvariant(s.forward, F.Enqueue);
    assert forall o: nat :: o < |s.jobs| ==> t.jobs[o] == s.jobs[o] && (F.IsSettled(s.forward, o) ==> F.IsSettled(t.forward, o));
    assert forall o: nat :: o < |s.jobs| && s.jobs[o].lease < |s.leases| ==> Awaited(s, o, s.jobs[o].lease) ==> Awaited(t, o, s.jobs[o].lease);
  }

  lemma {:induction false} EnqueuedKeeps(s: State, job: Job)
    requires Invariant(s) && Current(s, job.lease) && (job.Replay? ==> job.reading.None?)
    ensures Invariant(Enqueued(s, job))
  {
    var t := Enqueued(s, job);
    EnqueuedCoversJobs(s, job);
    assert forall a: nat :: a < |s.attempts| ==> LoadCovered(s, a) ==> LoadCovered(t, a);
    assert forall o: nat :: o < |s.jobs| ==> ReadingSound(s, o) ==> ReadingSound(t, o);
    assert ReadingSound(t, |s.jobs|);
  }

  lemma {:induction false} ReplayAttemptKeeps(s: State, replayAttempt: Option<nat>)
    requires Invariant(s)
    ensures Invariant(s.(replayAttempt := replayAttempt))
  {
    var t := s.(replayAttempt := replayAttempt);
    assert forall a: nat :: a < |s.attempts| ==> LoadCovered(s, a) ==> LoadCovered(t, a);
    assert forall o: nat :: o < |s.jobs| ==> Awaited(s, o, s.jobs[o].lease) ==> Awaited(t, o, s.jobs[o].lease);
    assert forall o: nat :: o < |s.jobs| ==> ReadingSound(s, o) ==> ReadingSound(t, o);
  }

  lemma NothingRetained(lease: Lease)
    ensures Retained(lease, {}) == lease
  {
    assert lease.barrier + {} == lease.barrier;
  }

  lemma {:induction false} RetiringCoversLoads(s: State, cleanup: set<Task>)
    requires LeasesChain(s.leases) && LoadsCovered(s) && (s.heavyAttempt.Some? ==> Load(s.heavyAttempt.value) in cleanup)
    ensures LeasesChain(RetiredWith(s, cleanup).leases) && LoadsCovered(RetiredWith(s, cleanup))
  {
    var t := RetiredWith(s, cleanup);
    forall a: nat | a < |s.attempts|
      ensures LoadCovered(t, a)
    {
      assert LoadCovered(s, a);
    }
  }

  lemma {:induction false} RetiringCoversJobs(s: State, cleanup: set<Task>)
    requires s.leases != [] && JobsCovered(s) && TailTask(s.forward) <= cleanup
    ensures JobsCovered(RetiredWith(s, cleanup))
  {
    var t := RetiredWith(s, cleanup);
    forall o: nat | o < |s.jobs|
      ensures F.IsSettled(s.forward, o) || Awaited(t, o, s.jobs[o].lease)
    {
      if Current(s, s.jobs[o].lease) {
        assert Forwarded(|s.jobs| - 1) in cleanup;
        assert Forwarded(|s.jobs| - 1) in t.leases[s.jobs[o].lease].barrier;
      } else if !F.IsSettled(s.forward, o) {
        var p: nat :| o <= p < |s.jobs| && Forwarded(p) in s.leases[s.jobs[o].lease].barrier;
        assert Forwarded(p) in t.leases[s.jobs[o].lease].barrier;
      }
    }
  }

  lemma {:induction false} ShutDownKeeps(s: State)
    requires Invariant(s)
    ensures Invariant(ShutDown(s))
  {
    var lease := |s.leases| - 1;
    var published := if s.loadedHeavy.Some? then Enqueued(s, Forward(lease, s.loadedHeavy.value, Farewell)) else s;
    if s.loadedHeavy.Some? {
      EnqueuedKeeps(s, Forward(lease, s.loadedHeavy.value, Farewell));
    }
    var cleanup := InFlight(s, lease) + TailTask(published.forward);
    var t := RetiredWith(published, cleanup);
    RetiringCoversJobs(published, cleanup);
    forall o: nat | o < |t.jobs|
      ensures ReadingSound(t, o)
    {
      assert ReadingSound(published, o);
    }
    RetiringCoversLoads(published, cleanup);
  }

  lemma {:induction false} BegunLoadKeeps(s: State, lease: nat)
    requires Invariant(s)
    ensures Invariant(BegunLoad(s, lease))
  {
    var t := BegunLoad(s, lease);
    if t != s {
      forall a: nat | a < |s.attempts|
        ensures t.attempts[a] == s.attempts[a] && LoadCovered(t, a)
      {
        assert LoadCovered(s, a);
      }
      assert forall o: nat :: o < |s.jobs| ==> Awaited(s, o, s.jobs[o].lease) ==> Awaited(t, o, s.jobs[o].lease);
      assert forall o: nat :: o < |s.jobs| ==> ReadingSound(s, o) ==> ReadingSound(t, o);
    }
  }

  /** A load that is not done moves on. */
  lemma {:induction false} AtStageKeeps(s: State, a: nat, stage: Stage)
    requires Invariant(s) && a < |s.attempts| && !s.attempts[a].stage.Done?
    ensures Invariant(AtStage(s, a, stage))
    ensures stage == Done(true) && Current(s, s.attempts[a].lease) ==> Invariant(AtStage(s, a, stage).(loadedHeavy := Some(a)))
  {
    var t := AtStage(s, a, stage);
    var u := t.(loadedHeavy := Some(a));
    forall b: nat | b < |s.attempts|
      ensures (b != a ==> t.attempts[b] == s.attempts[b]) && LoadCovered(t, b) && LoadCovered(u, b)
    {
      assert LoadCovered(s, b);
    }
    assert forall o: nat :: o < |s.jobs| ==> Awaited(s, o, s.jobs[o].lease) ==> Awaited(t, o, s.jobs[o].lease) && Awaited(u, o, s.jobs[o].lease);
    assert forall o: nat :: o < |s.jobs| ==> ReadingSound(s, o) ==> ReadingSound(t, o) && ReadingSound(u, o);
  }

  lemma {:induction false} SynthesisedKeeps(s: State, lease: nat, synthetic: bool)
    requires Invariant(s) && Current(s, lease)
    ensures Invariant(Synthesised(s, lease, synthetic))
  {
    if s.snapshot.None? && synthetic {
      NewSnapshotKeeps(s, lease);
    }
  }

  lemma {:induction false} LoadResumedKeeps(s: State, a: nat, ok: bool, synthetic: bool)
    requires Invariant(s)
    ensures Invariant(LoadResumed(s, a, ok, synthetic))
  {
    if a < |s.attempts| && !s.attempts[a].stage.Done? {
      var lease, stage := s.attempts[a].lease, s.attempts[a].stage;
      if stage.Importing? {
        AtStageKeeps(s, a, if ok && Current(s, lease) then Initialising else CleaningUp);
      } else if stage.Initialising? && ok && Current(s, lease) {
        SynthesisedKeeps(s, lease, synthetic);
        AtStageKeeps(Synthesised(s, lease, synthetic), a, Ensuring);
      } else if stage.AwaitingReplay? && Current(s, lease) && Succeeded(s, stage.operation) {
        AtStageKeeps(s, a, Done(true));
      } else {
        AtStageKeeps(s, a, if stage.CleaningUp? then Done(false) else CleaningUp);
      }
    }
  }

  lemma {:induction false} ReplayEnsuredKeeps(s: State, lease: nat, heavy: nat)
    requires Invariant(s)
    ensures Invariant(ReplayEnsured(s, lease, heavy))
  {
    if ReplayEnsured(s, lease, heavy) != s {
      EnqueuedKeeps(s, Replay(lease, heavy, None));
      ReplayAttemptKeeps(Enqueued(s, Replay(lease, heavy, None)), Some(|s.jobs|));
    }
  }

  lemma {:induction false} LoadEnsuredKeeps(s: State, a: nat)
    requires Invariant(s)
    ensures Invariant(LoadEnsured(s, a))
  {
    if LoadEnsured(s, a) != s {
      var lease := s.attempts[a].lease;
      if Current(s, lease) {
        ReplayEnsuredKeeps(s, lease, a);
        AtStageKeeps(ReplayEnsured(s, lease, a), a, AwaitingReplay(AwaitedReplay(s, lease, a)));
      } else {
        AtStageKeeps(s, a, CleaningUp);
      }
    }
  }

  lemma {:induction false} LoadRejectedKeeps(s: State, a: nat)
    requires Invariant(s) && Settled(s, Load(a)) && s.heavyAttempt == Some(a)
    ensures Invariant(s.(heavyAttempt := None))
  {
    var t := s.(heavyAttempt := None);
    forall b: nat | b < |s.attempts|
      ensures LoadCovered(t, b)
    {
      assert LoadCovered(s, b);
    }
    assert forall o: nat :: o < |s.jobs| ==> Awaited(s, o, s.jobs[o].lease) ==> Awaited(t, o, s.jobs[o].lease);
    assert forall o: nat :: o < |s.jobs| ==> ReadingSound(s, o) ==> ReadingSound(t, o);
  }

  lemma {:induction false} EndedKeeps(s: State, o: nat, ok: bool)
    requires Invariant(s)
    ensures Invariant(Ended(s, o, ok))
  {
    var t := Ended(s, o, ok);
    F.StepKeepsInvariant(s.forward, F.Settle(o, ok));
    assert forall a: nat :: a < |s.attempts| ==> LoadCovered(s, a) ==> LoadCovered(t, a);
    assert forall p: nat :: p < |s.jobs| ==> Awaited(s, p, s.jobs[p].lease) ==> Awaited(t, p, s.jobs[p].lease);
    assert forall p: nat :: F.IsSettled(s.forward, p) ==> F.IsSettled(t.forward, p);
    forall p: nat | p < |s.jobs|
      ensures ReadingSound(t, p)
    {
      assert ReadingSound(s, p);
      assert F.IsRunning(t.forward, p) ==> F.IsRunning(s.forward, p);
    }
  }

  /** A replay of a live lease records what it has dispatched in its round. */
  lemma {:induction false} ReadingKeeps(s: State, o: nat, r: Reading)
    requires Invariant(s) && F.IsRunning(s.forward, o) && s.jobs[o].Replay?
    requires s.snapshot == Some(r.snapshot) && s.replayed < r.snapshot.generation && r.sent <= Plan(r.snapshot, r.active)
    ensures Invariant(s.(jobs := s.jobs[o := s.jobs[o].(reading := Some(r))]))
  {
    var t := s.(jobs := s.jobs[o := s.jobs[o].(reading := Some(r))]);
    assert forall a: nat :: a < |s.attempts| ==> LoadCovered(s, a) ==> LoadCovered(t, a);
    forall p: nat | p < |s.jobs|
      ensures t.jobs[p].lease == s.jobs[p].lease && (Awaited(s, p, s.jobs[p].lease) ==> Awaited(t, p, s.jobs[p].lease)) && ReadingSound(t, p)
    {
      assert ReadingSound(s, p);
    }
  }

  lemma {:induction false} RoundKeeps(s: State, o: nat)
    requires Invariant(s) && F.IsRunning(s.forward, o) && s.jobs[o].Replay?
    ensures Invariant(Round(s, o))
  {
    var lease := s.jobs[o].lease;
    if Current(s, lease) && NeedsReplay(s, lease) {
      var plan := Plan(s.snapshot.value, s.active);
      ReadingKeeps(s, o, Reading(s.snapshot.value, s.active, plan[..1]));
    } else {
      EndedKeeps(s, o, Current(s, lease));
    }
  }

  /** Only one operation runs, so nothing else that runs reads the marked generation. */
  lemma {:induction false} MarkedKeeps(s: State, o: nat)
    requires Invariant(s) && Reads(s, o) && s.snapshot == Some(s.jobs[o].reading.value.snapshot)
    ensures Invariant(Ended(Marked(s, s.snapshot.value.generation), o, true))
  {
    var generation := s.snapshot.value.generation;
    var t := Ended(Marked(s, generation), o, true);
    assert ReadingSound(s, o);
    F.StepKeepsInvariant(s.forward, F.Settle(o, true));
    assert forall a: nat :: a < |s.attempts| ==> LoadCovered(s, a) ==> LoadCovered(t, a);
    assert forall p: nat :: p < |s.jobs| ==> Awaited(s, p, s.jobs[p].lease) ==> Awaited(t, p, s.jobs[p].lease);
    assert forall p: nat :: F.IsSettled(s.forward, p) ==> F.IsSettled(t.forward, p);
    forall p: nat | p < |s.jobs|
      ensures ReadingSound(t, p)
    {
      assert ReadingSound(s, p);
      assert !F.IsRunning(t.forward, p);
    }
  }

  lemma {:induction false} OperationResumedKeeps(s: State, o: nat, ok: bool)
    requires Invariant(s)
    ensures Invariant(OperationResumed(s, o, ok))
  {
    if !Reads(s, o) || !ok || !Current(s, s.jobs[o].lease) {
      EndedKeeps(s, o, !Reads(s, o) && ok);
    } else if s.snapshot != Some(s.jobs[o].reading.value.snapshot) {
      RoundKeeps(s, o);
    } else {
      var r := s.jobs[o].reading.value;
      var plan := Plan(r.snapshot, r.active);
      assert ReadingSound(s, o);
      if |r.sent| >= |plan| {
        MarkedKeeps(s, o);
      } else {
        ReadingKeeps(s, o, r.(sent := r.sent + [plan[|r.sent|]]));
      }
    }
  }

  lemma {:induction false} BeginningKeeps(s: State, o: nat)
    requires Invariant(s) && F.CanBegin(s.forward, o)
    ensures Invariant(s.(forward := F.Begun(s.forward, o)))
  {
    var t := s.(forward := F.Begun(s.forward, o));
    F.StepKeepsInvariant(s.forward, F.Begin(o));
    assert forall a: nat :: a < |s.attempts| ==> LoadCovered(s, a) ==> LoadCovered(t, a);
    assert forall p: nat :: p < |s.jobs| ==> Awaited(s, p, s.jobs[p].lease) ==> Awaited(t, p, s.jobs[p].lease);
    assert forall p: nat :: F.IsSettled(s.forward, p) ==> F.IsSettled(t.forward, p);
    forall p: nat | p < |s.jobs|
      ensures ReadingSound(t, p)
    {
      assert ReadingSound(s, p);
    }
  }

  lemma {:induction false} OperationBegunKeeps(s: State, o: nat)
    requires Invariant(s)
    ensures Invariant(OperationBegun(s, o))
  {
    if F.CanBegin(s.forward, o) {
      BeginningKeeps(s, o);
      if s.jobs[o].Replay? {
        RoundKeeps(s.(forward := F.Begun(s.forward, o)), o);
      }
    }
  }

  lemma {:induction false} HappenedKeeps(s: State, what: Happening, payload: nat)
    requires Invariant(s)
    ensures Invariant(Happened(s, what, payload))
  {
    var t := s.(active := After(s.active, what, payload));
    NewActiveKeeps(s, t.active);
    if Current(s, |s.leases| - 1) && s.loadedHeavy.Some? {
      EnqueuedKeeps(t, Forward(|s.leases| - 1, s.loadedHeavy.value, Told(what, payload)));
    }
  }

  lemma {:induction false} StepKeepsInvariant(s: State, event: Event)
    requires Invariant(s)
    ensures Invariant(Step(s, event))
  {
    match event {
      case BeginSession => BegunSessionKeeps(s);
      case SessionBegins(lease) =>
        if Entered(s, lease) {
          NewActiveKeeps(s, IDLE);
          NewSnapshotKeeps(if s.snapshot.Some? then s.(active := IDLE) else s, lease);
        }
      case Shutdown => ShutDownKeeps(s);
      case BeginLoad(lease) => BegunLoadKeeps(s, lease);
      case LoadResumes(a, ok, synthetic) => LoadResumedKeeps(s, a, ok, synthetic);
      case LoadEnsures(a) => LoadEnsuredKeeps(s, a);
      case LoadJoined(a, synthetic) =>
        if LoadIsJoined(s, a, synthetic) != s {
          SynthesisedKeeps(s, s.attempts[a].lease, synthetic);
        }
      case LoadRejected(a) =>
        if Step(s, event) != s {
          LoadRejectedKeeps(s, a);
        }
      case EnsureReplay(lease, heavy) =>
        ReplayEnsuredKeeps(s, lease, heavy);
      case ReplayEnds(o) => ReplayAttemptKeeps(s, None);
      case Happens(what, payload) => HappenedKeeps(s, what, payload);
      case OperationBegins(o) => OperationBegunKeeps(s, o);
      case OperationResumes(o, ok) => OperationResumedKeeps(s, o, ok);
    }
  }

  lemma {:induction false} RunKeepsInvariant(s: State, events: seq<Event>)
    requires Invariant(s)
    ensures Invariant(Run(s, events))
    decreases |events|
  {
    if events != [] {
      StepKeepsInvariant(s, events[0]);
      RunKeepsInvariant(Step(s, events[0]), events[1..]);
    }
  }

  // ----- What every run keeps --------------------------------------------------------------

  /** Work of earlier leases: all they retained, all their loads, and all they enqueued. */
  ghost predicate EarlierSettled(s: State, lease: nat) {
    && (forall k: nat, task :: k < lease && k < |s.leases| && task in s.leases[k].barrier ==> Settled(s, task))
    && (forall a: nat :: a < |s.attempts| && s.attempts[a].lease < lease ==> s.attempts[a].stage.Done?)
    && (forall o: nat :: o < |s.jobs| && s.jobs[o].lease < lease ==> F.IsSettled(s.forward, o))
  }

  lemma {:induction false} EnteringMeansEarlierSettled(s: State, lease: nat)
    requires Invariant(s) && Entered(s, lease)
    ensures EarlierSettled(s, lease)
  {
    forall k: nat, task | k < lease && task in s.leases[k].barrier
      ensures Settled(s, task)
    {
      assert task in s.leases[lease].prior;
    }
    forall a: nat | a < |s.attempts| && s.attempts[a].lease < lease
      ensures s.attempts[a].stage.Done?
    {
      assert LoadCovered(s, a);
    }
    forall o: nat | o < |s.jobs| && s.jobs[o].lease < lease
      ensures F.IsSettled(s.forward, o)
    {
      if Awaited(s, o, s.jobs[o].lease) {
        var p: nat :| o <= p < |s.jobs| && Forwarded(p) in s.leases[s.jobs[o].lease].barrier;
        assert Settled(s, Forwarded(p));
      }
    }
  }

  /** This step begins a load, enqueues a replay, or installs a session for the lease. */
  ghost predicate Starts(s: State, event: Event, lease: nat)
    requires s.leases != []
  {
    var t := Step(s, event);
    || (event == BeginLoad(lease) && |t.attempts| > |s.attempts|)
    || (event.EnsureReplay? && event.lease == lease && |t.jobs| > |s.jobs|)
    || (event.LoadEnsures? && event.attempt < |s.attempts| && s.attempts[event.attempt].lease == lease && |t.jobs| > |s.jobs|)
    || (event == SessionBegins(lease) && t.snapshot != s.snapshot)
  }

  /**
   In every run, when a lease begins to load, enqueues a replay or installs its session, everything that
   earlier leases retained, loaded or enqueued has settled.
   */
  lemma {:induction false} LeaseStartsAfterEarlierCleanup(events: seq<Event>, event: Event, lease: nat)
    requires Starts(Run(INITIAL, events), event, lease)
    ensures Current(Run(INITIAL, events), lease) && EarlierSettled(Run(INITIAL, events), lease)
  {
    InitiallySound();
    RunKeepsInvariant(INITIAL, events);
    EnteringMeansEarlierSettled(Run(INITIAL, events), lease);
  }

  /** At most one load of the heavy module is under way, across all leases. */
  ghost predicate OneLoad(s: State) {
    forall a: nat, b: nat :: a < |s.attempts| && b < |s.attempts| && !s.attempts[a].stage.Done? && !s.attempts[b].stage.Done? ==> a == b
  }

  lemma {:induction false} OnlyLoadsChangeAttempts(s: State, event: Event)
    requires s.leases != [] && !event.BeginLoad? && !event.LoadResumes? && !event.LoadEnsures?
    ensures Step(s, event).attempts == s.attempts
  {
    match event {
      case OperationResumes(o, ok) => assert OperationResumed(s, o, ok).attempts == s.attempts;
      case _ =>
    }
  }

  lemma {:induction false} BeginningLoadFindsNone(s: State, lease: nat, a: nat)
    requires Invariant(s) && BegunLoad(s, lease) != s && a < |s.attempts|
    ensures s.attempts[a].stage.Done?
  {
    EnteringMeansEarlierSettled(s, lease);
    assert LoadCovered(s, a);
  }

  lemma {:induction false} StepKeepsOneLoad(s: State, event: Event)
    requires Invariant(s) && OneLoad(s)
    ensures OneLoad(Step(s, event))
  {
    match event {
      case BeginLoad(lease) =>
        if BegunLoad(s, lease) != s {
          forall a: nat | a < |s.attempts|
            ensures s.attempts[a].stage.Done?
          {
            BeginningLoadFindsNone(s, lease, a);
          }
        }
      case LoadResumes(a, ok, synthetic) => LoadResumedKeepsOneLoad(s, a, ok, synthetic);
      case LoadEnsures(a) => LoadEnsuredKeepsOneLoad(s, a);
      case _ => OnlyLoadsChangeAttempts(s, event);
    }
  }

  lemma {:induction false} LoadResumedKeepsOneLoad(s: State, a: nat, ok: bool, synthetic: bool)
    requires OneLoad(s)
    ensures OneLoad(LoadResumed(s, a, ok, synthetic))
  {
    var t := LoadResumed(s, a, ok, synthetic);
    assert |t.attempts| == |s.attempts|;
    assert forall b: nat :: b < |s.attempts| && s.attempts[b].stage.Done? ==> t.attempts[b].stage.Done?;
  }

  lemma {:induction false} LoadEnsuredKeepsOneLoad(s: State, a: nat)
    requires OneLoad(s)
    ensures OneLoad(LoadEnsured(s, a))
  {
    var t := LoadEnsured(s, a);
    assert |t.attempts| == |s.attempts|;
    assert forall b: nat :: b < |s.attempts| && s.attempts[b].stage.Done? ==> t.attempts[b].stage.Done?;
  }

  lemma {:induction false} OneLoadAtATime(s: State, events: seq<Event>)
    requires Invariant(s) && OneLoad(s)
    ensures OneLoad(Run(s, events))
    decreases |events|
  {
    if events != [] {
      StepKeepsInvariant(s, events[0]);
      StepKeepsOneLoad(s, events[0]);
      OneLoadAtATime(Step(s, events[0]), events[1..]);
    }
  }

  /** The operation replays the session of the load's lease to the load's own module. */
  ghost predicate OwnReplay(s: State, a: nat, o: nat)
    requires a < |s.attempts|
  {
    o < |s.jobs| && s.jobs[o].Replay? && s.jobs[o].lease == s.attempts[a].lease && s.jobs[o].heavy == a
  }

  ghost predicate AwaitOwnReplays(s: State) {
    forall a: nat :: a < |s.attempts| && s.attempts[a].stage.AwaitingReplay? && s.attempts[a].stage.operation.Some? ==>
      OwnReplay(s, a, s.attempts[a].stage.operation.value)
  }

  /** Operations keep what they do, and loads their lease. */
  ghost predicate Extends(s: State, t: State) {
    && |s.jobs| <= |t.jobs| && |s.attempts| <= |t.attempts|
    && (forall o: nat :: o < |s.jobs| && s.jobs[o].Replay? ==>
          t.jobs[o].Replay? && t.jobs[o].lease == s.jobs[o].lease && t.jobs[o].heavy == s.jobs[o].heavy)
    && (forall a: nat :: a < |s.attempts| ==> t.attempts[a].lease == s.attempts[a].lease)
  }

  lemma {:induction false} LoadResumedExtends(s: State, a: nat, ok: bool, synthetic: bool)
    ensures Extends(s, LoadResumed(s, a, ok, synthetic))
  {
  }

  lemma {:induction false} LoadEnsuredExtends(s: State, a: nat)
    ensures Extends(s, LoadEnsured(s, a))
  {
  }

  lemma {:induction false} OperationExtends(s: State, o: nat, ok: bool)
    ensures Extends(s, OperationBegun(s, o)) && Extends(s, OperationResumed(s, o, ok))
  {
  }

  lemma {:induction false} StepExtends(s: State, event: Event)
    requires s.leases != []
    ensures Extends(s, Step(s, event))
  {
    match event {
      case LoadResumes(a, ok, synthetic) => LoadResumedExtends(s, a, ok, synthetic);
      case LoadEnsures(a) => LoadEnsuredExtends(s, a);
      case OperationBegins(o) => OperationExtends(s, o, true);
      case OperationResumes(o, ok) => OperationExtends(s, o, ok);
      case _ =>
    }
  }

  lemma {:induction false} LoadEnsuredKeepsAwaits(s: State, a: nat)
    requires AwaitOwnReplays(s)
    ensures AwaitOwnReplays(LoadEnsured(s, a))
  {
    var t := LoadEnsured(s, a);
    LoadEnsuredExtends(s, a);
    assert forall b: nat :: b < |s.attempts| && b != a ==> t.attempts[b] == s.attempts[b];
  }

  lemma {:induction false} LoadResumedKeepsAwaits(s: State, a: nat, ok: bool, synthetic: bool)
    requires AwaitOwnReplays(s)
    ensures AwaitOwnReplays(LoadResumed(s, a, ok, synthetic))
  {
    var t := LoadResumed(s, a, ok, synthetic);
    assert t.jobs == s.jobs;
    assert forall b: nat :: b < |s.attempts| && b != a ==> t.attempts[b] == s.attempts[b];
    assert a < |s.attempts| && t.attempts[a].stage.AwaitingReplay? ==> t.attempts[a] == s.attempts[a];
  }

  lemma {:induction false} SameAttemptsKeepAwaits(s: State, t: State)
    requires AwaitOwnReplays(s) && Extends(s, t) && t.attempts == s.attempts
    ensures AwaitOwnReplays(t)
  {
    forall a: nat | a < |t.attempts| && t.attempts[a].stage.AwaitingReplay? && t.attempts[a].stage.operation.Some?
      ensures OwnReplay(t, a, t.attempts[a].stage.operation.value)
    {
      assert OwnReplay(s, a, s.attempts[a].stage.operation.value);
    }
  }

  lemma {:induction false} StepKeepsAwaits(s: State, event: Event)
    requires s.leases != [] && AwaitOwnReplays(s)
    ensures AwaitOwnReplays(Step(s, event))
  {
    match event {
      case BeginLoad(_) =>
      case LoadResumes(a, ok, synthetic) => LoadResumedKeepsAwaits(s, a, ok, synthetic);
      case LoadEnsures(a) => LoadEnsuredKeepsAwaits(s, a);
      case _ =>
        StepExtends(s, event);
        OnlyLoadsChangeAttempts(s, event);
        SameAttemptsKeepAwaits(s, Step(s, event));
    }
  }

  lemma {:induction false} RunKeepsAwaits(s: State, events: seq<Event>)
    requires s.leases != [] && AwaitOwnReplays(s)
    ensures AwaitOwnReplays(Run(s, events))
    decreases |events|
  {
    if events != [] {
      StepKeepsAwaits(s, events[0]);
      RunKeepsAwaits(Step(s, events[0]), events[1..]);
    }
  }

  lemma {:induction false} OnlyAwaitedLoadsPublish(s: State, event: Event, a: nat)
    requires s.leases != [] && Step(s, event).loadedHeavy == Some(a) && s.loadedHeavy != Some(a)
    ensures event.LoadResumes? && a < |s.attempts| && s.attempts[a].stage.AwaitingReplay?
    ensures Current(s, s.attempts[a].lease) && Succeeded(s, s.attempts[a].stage.operation)
  {
  }

  /**
   In every run a module is published only under a live lease, and only after the replay its load waited
   for, which was of its lease and to that module, has succeeded; unless none was needed.
   */
  lemma {:induction false} PublishedAfterOwnReplay(events: seq<Event>, event: Event, a: nat)
    requires Step(Run(INITIAL, events), event).loadedHeavy == Some(a) && Run(INITIAL, events).loadedHeavy != Some(a)
    ensures var s := Run(INITIAL, events);
      && a < |s.attempts| && Current(s, s.attempts[a].lease) && s.attempts[a].stage.AwaitingReplay?
      && var operation := s.attempts[a].stage.operation;
      operation.Some? ==> OwnReplay(s, a, operation.value) && F.IsSettled(s.forward, operation.value)
                          && s.forward.operations[operation.value].phase == F.Settled(true)
  {
    RunKeepsAwaits(INITIAL, events);
    OnlyAwaitedLoadsPublish(Run(INITIAL, events), event, a);
  }

  /** A step keeps the session, ends it, or installs one of a new generation. */
  ghost predicate MovesOn(s: State, t: State) {
    t.generation >= s.generation && (t.snapshot == s.snapshot || t.snapshot.None? || t.snapshot.value.generation > s.generation)
  }

  lemma {:induction false} StepMovesOn(s: State, event: Event)
    requires s.leases != []
    ensures MovesOn(s, Step(s, event))
  {
    match event {
      case LoadResumes(a, ok, synthetic) => assert MovesOn(s, LoadResumed(s, a, ok, synthetic));
      case LoadEnsures(a) => assert MovesOn(s, LoadEnsured(s, a));
      case OperationBegins(o) => assert MovesOn(s, OperationBegun(s, o));
      case OperationResumes(o, ok) => assert MovesOn(s, OperationResumed(s, o, ok));
      case _ =>
    }
  }

  /** Once the session has moved on from a snapshot, that snapshot never comes back. */
  lemma {:induction false} SnapshotNeverReturns(s: State, events: seq<Event>, snapshot: Snapshot)
    requires s.leases != [] && snapshot.generation <= s.generation && s.snapshot != Some(snapshot)
    ensures Run(s, events).snapshot != Some(snapshot)
    decreases |events|
  {
    if events != [] {
      StepMovesOn(s, events[0]);
      SnapshotNeverReturns(Step(s, events[0]), events[1..], snapshot);
    }
  }

  /** The round this replay is in. */
  ghost predicate InRound(s: State, o: nat, snapshot: Snapshot) {
    o < |s.jobs| && s.jobs[o].Replay? && s.jobs[o].reading.Some? && s.jobs[o].reading.value.snapshot == snapshot
  }

  lemma {:induction false} MarkingEndsTheRound(s: State, o: nat, ok: bool, snapshot: Snapshot)
    requires Invariant(s) && InRound(s, o, snapshot) && OperationResumed(s, o, ok).marks != s.marks
    ensures s.snapshot == Some(snapshot)
    ensures s.jobs[o].reading.value.sent == Plan(snapshot, s.jobs[o].reading.value.active)
    ensures OperationResumed(s, o, ok).marks == s.marks + [snapshot.generation]
  {
    assert ReadingSound(s, o);
  }

  /**
   A replay marks a generation only if at every earlier moment of that round, too, the snapshot was the
   session's and its lease was live; and only after the whole plan was dispatched.
   */
  lemma {:induction false} MarkedSnapshotStayedCurrent(before: seq<Event>, during: seq<Event>, o: nat, ok: bool, snapshot: Snapshot)
    requires InRound(Run(INITIAL, before), o, snapshot)
    requires InRound(Run(Run(INITIAL, before), during), o, snapshot)
    requires OperationResumed(Run(Run(INITIAL, before), during), o, ok).marks != Run(Run(INITIAL, before), during).marks
    ensures var s, t := Run(INITIAL, before), Run(Run(INITIAL, before), during);
      && s.snapshot == Some(snapshot) && Current(s, snapshot.lease)
      && t.jobs[o].reading.value.sent == Plan(snapshot, t.jobs[o].reading.value.active)
      && OperationResumed(t, o, ok).marks == t.marks + [snapshot.generation]
  {
    var s := Run(INITIAL, before);
    InitiallySound();
    RunKeepsInvariant(INITIAL, before);
    RunKeepsInvariant(s, during);
    MarkingEndsTheRound(Run(s, during), o, ok, snapshot);
    assert ReadingSound(s, o);
    if s.snapshot != Some(snapshot) {
      SnapshotNeverReturns(s, during, snapshot);
    }
  }

  /** No generation is marked twice: the marks of any run increase, up to the latest generation. */
  lemma {:induction false} GenerationsAreMarkedOnce(events: seq<Event>, i: nat, j: nat)
    requires i < j < |Run(INITIAL, events).marks|
    ensures Run(INITIAL, events).marks[i] < Run(INITIAL, events).marks[j] <= Run(INITIAL, events).generation
  {
    InitiallySound();
    RunKeepsInvariant(INITIAL, events);
  }
}
