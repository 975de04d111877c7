/**
 What a replay tells a late module (packages/intercom/index.ts), said of the happenings themselves: which
 of them are still open when a round begins, and in which order the round tells of them.
 */
module LifecycleReplays {
  import opened Sequences
  import F = LifecycleForwarders
  import opened Lifecycles

  /** A happening together with its payload. */
  datatype Seen = Seen(what: Happening, payload: nat)

  // ----- What is open ----------------------------------------------------------------------

  predicate IsStart(what: Happening) {
    what.TurnStart? || what.ModelSelect? || what.AgentStart? || what.ToolStart?
  }

  /** The later happening ends the tool's execution: its own end, or the end of the turn or of either side of an agent. */
  predicate Closes(later: Happening, id: string) {
    later == ToolEnd(id) || later.AgentStart? || later.AgentEnd? || later.TurnEnd?
  }

  /** The later happening ends or replaces what a start began. */
  predicate Supersedes(later: Happening, start: Happening) {
    match start
    case TurnStart => later.TurnStart? || later.TurnEnd?
    case ModelSelect => later.ModelSelect?
    case AgentStart => later.AgentStart? || later.AgentEnd? || later.TurnEnd?
    case ToolStart(id) => later == start || Closes(later, id)
    case _ => true
  }

  ghost predicate OpenAt(seen: seq<Seen>, what: Happening, payload: nat, k: nat) {
    k < |seen| && seen[k] == Seen(what, payload) && forall j :: k < j < |seen| ==> !Supersedes(seen[j].what, what)
  }

  /** It started with this payload, and nothing has ended or replaced it since. */
  ghost predicate Open(seen: seq<Seen>, what: Happening, payload: nat) {
    IsStart(what) && exists k: nat :: OpenAt(seen, what, payload, k)
  }

  /** The tool was started at k, and has not been ended since. */
  ghost predicate StartedAt(seen: seq<Seen>, id: string, k: nat) {
    k < |seen| && seen[k].what == ToolStart(id) && forall j :: k < j < |seen| ==> !Closes(seen[j].what, id)
  }

  /** The tool has been in progress since k. */
  ghost predicate Since(seen: seq<Seen>, id: string, k: nat) {
    StartedAt(seen, id, k) && forall j: nat :: j < k ==> !StartedAt(seen, id, j)
  }

  /** The tools in progress, in the order in which they began: `at` says when. */
  ghost predicate InOrder(seen: seq<Seen>, ids: seq<string>, at: seq<nat>) {
    && |at| == |ids| && (forall i, j :: 0 <= i < j < |at| ==> at[i] < at[j])
    && (forall i :: 0 <= i < |ids| ==> Since(seen, ids[i], at[i]))
  }

  /** The extension keeps exactly what is open, its tools in the order in which they began. */
  ghost predicate Keeps(active: Active, seen: seq<Seen>, at: seq<nat>) {
    && (forall p: nat :: active.turn == Some(p) <==> Open(seen, TurnStart, p))
    && (forall p: nat :: active.model == Some(p) <==> Open(seen, ModelSelect, p))
    && (forall p: nat :: active.agent == Some(p) <==> Open(seen, AgentStart, p))
    && (forall id, p: nat :: Lookup(active.tools, id) == Some(p) <==> Open(seen, ToolStart(id), p))
    && Distinct(Ids(active.tools)) && InOrder(seen, Ids(active.tools), at)
  }

  /** One more happening opens itself and ends what it supersedes. */
  lemma {:induction false} OpenAfter(seen: seq<Seen>, last: Seen, what: Happening, payload: nat)
    ensures Open(seen + [last], what, payload) <==>
      (IsStart(what) && (last == Seen(what, payload) || (Open(seen, what, payload) && !Supersedes(last.what, what))))
  {
    var all := seen + [last];
    forall k: nat | k < |seen|
      ensures OpenAt(all, what, payload, k) <==> OpenAt(seen, what, payload, k) && !Supersedes(last.what, what)
    {
      assert OpenAt(all, what, payload, k) ==> !Supersedes(all[|seen|].what, what);
      assert forall j :: k < j < |seen| ==> all[j] == seen[j];
    }
    assert OpenAt(all, what, payload, |seen|) <==> last == Seen(what, payload);
  }

  lemma {:induction false} SinceAfter(seen: seq<Seen>, last: Seen, id: string, k: nat)
    ensures k < |seen| ==> (StartedAt(seen + [last], id, k) <==> StartedAt(seen, id, k) && !Closes(last.what, id))
    ensures k < |seen| && !Closes(last.what, id) ==> (Since(seen + [last], id, k) <==> Since(seen, id, k))
    ensures Closes(last.what, id) || last.what == ToolStart(id) ==> (Since(seen + [last], id, |seen|) <==>
      (last.what == ToolStart(id) && forall j: nat :: j < |seen| ==> !StartedAt(seen, id, j)))
  {
    var all := seen + [last];
    forall j: nat | j < |seen|
      ensures StartedAt(all, id, j) <==> StartedAt(seen, id, j) && !Closes(last.what, id)
    {
      assert StartedAt(all, id, j) ==> !Closes(all[|seen|].what, id);
      assert forall i :: j < i < |seen| ==> all[i] == seen[i];
    }
  }

  lemma {:induction false} StartedIsOpen(seen: seq<Seen>, id: string, k: nat)
    requires StartedAt(seen, id, k)
    ensures exists p: nat :: Open(seen, ToolStart(id), p)
    decreases |seen| - k
  {
    if j :| k < j < |seen| && seen[j].what == ToolStart(id) {
      StartedIsOpen(seen, id, j);
    } else {
      assert OpenAt(seen, ToolStart(id), seen[k].payload, k);
      assert Open(seen, ToolStart(id), seen[k].payload);
    }
  }

  lemma {:induction false} LookupKnows(tools: seq<(string, nat)>, id: string)
    ensures Lookup(tools, id).Some? <==> id in Ids(tools)
  {
    if tools != [] {
      LookupKnows(tools[1..], id);
      assert Ids(tools) == [tools[0].0] + Ids(tools[1..]);
    }
  }

  /** The order in which tools began, after one more happening that closes none of those that stay. */
  lemma {:induction false} OrderStays(seen: seq<Seen>, last: Seen, ids: seq<string>, at: seq<nat>)
    requires InOrder(seen, ids, at) && forall id :: id in ids ==> !Closes(last.what, id)
    ensures InOrder(seen + [last], ids, at)
  {
    forall i | 0 <= i < |ids|
      ensures Since(seen + [last], ids[i], at[i])
    {
      SinceAfter(seen, last, ids[i], at[i]);
    }
  }

  lemma {:induction false} StartedIsKept(seen: seq<Seen>, active: Active, at: seq<nat>, id: string, k: nat)
    requires Keeps(active, seen, at) && StartedAt(seen, id, k)
    ensures id in Ids(active.tools)
  {
    StartedIsOpen(seen, id, k);
    var p: nat :| Open(seen, ToolStart(id), p);
    assert Lookup(active.tools, id) == Some(p);
    LookupKnows(active.tools, id);
  }

  lemma {:induction false} ToolOpens(seen: seq<Seen>, last: Seen, active: Active, id: string, at: seq<nat>) returns (at': seq<nat>)
    requires Keeps(active, seen, at) && last.what == ToolStart(id)
    ensures InOrder(seen + [last], Ids(WithTool(active.tools, id, last.payload)), at')
  {
    ToolsAreAMap(active.tools, id, last.payload, id);
    OrderStays(seen, last, Ids(active.tools), at);
    forall k: nat | StartedAt(seen, id, k)
      ensures id in Ids(active.tools)
    {
      StartedIsKept(seen, active, at, id, k);
    }
    at' := at;
    if id !in Ids(active.tools) {
      SinceAfter(seen, last, id, |seen|);
      at' := at + [|seen|];
    }
  }

  lemma {:induction false} OrderWithout(seen: seq<Seen>, ids: seq<string>, at: seq<nat>, i: nat)
    requires InOrder(seen, ids, at) && i < |ids|
    ensures InOrder(seen, ids[..i] + ids[i + 1..], at[..i] + at[i + 1..])
  {
    var ids', at' := ids[..i] + ids[i + 1..], at[..i] + at[i + 1..];
    forall j | 0 <= j < |at'|
      ensures at'[j] == at[if j < i then j else j + 1] && ids'[j] == ids[if j < i then j else j + 1]
    {
    }
  }

  lemma {:induction false} ToolCloses(seen: seq<Seen>, last: Seen, active: Active, id: string, at: seq<nat>) returns (at': seq<nat>)
    requires Keeps(active, seen, at) && last.what == ToolEnd(id)
    ensures InOrder(seen + [last], Ids(WithoutTool(active.tools, id)), at')
  {
    var ids := Ids(active.tools);
    ToolsAreAMap(active.tools, id, last.payload, id);
    Members(ids, {id});
    if i: nat :| i < |ids| && ids[i] == id {
      at' := at[..i] + at[i + 1..];
      RemoveFirstIsWithout(ids, id);
      RemoveFirstAt(ids, id, i);
      OrderWithout(seen, ids, at, i);
    } else {
      at' := at;
      WithoutNone(ids, {id});
    }
    OrderStays(seen, last, Without(ids, {id}), at');
  }

  lemma {:induction false} StartsKept(seen: seq<Seen>, last: Seen, active: Active, at: seq<nat>)
    requires Keeps(active, seen, at)
    ensures var after := After(active, last.what, last.payload);
      && (forall p: nat :: after.turn == Some(p) <==> Open(seen + [last], TurnStart, p))
      && (forall p: nat :: after.model == Some(p) <==> Open(seen + [last], ModelSelect, p))
      && (forall p: nat :: after.agent == Some(p) <==> Open(seen + [last], AgentStart, p))
  {
    forall p: nat
      ensures Open(seen + [last], TurnStart, p) <==> After(active, last.what, last.payload).turn == Some(p)
      ensures Open(seen + [last], ModelSelect, p) <==> After(active, last.what, last.payload).model == Some(p)
      ensures Open(seen + [last], AgentStart, p) <==> After(active, last.what, last.payload).agent == Some(p)
    {
      OpenAfter(seen, last, TurnStart, p);
      OpenAfter(seen, last, ModelSelect, p);
      OpenAfter(seen, last, AgentStart, p);
    }
  }

  lemma {:induction false} ToolsKept(seen: seq<Seen>, last: Seen, active: Active, at: seq<nat>)
    requires Keeps(active, seen, at)
    ensures forall id, p: nat :: Lookup(After(active, last.what, last.payload).tools, id) == Some(p) <==> Open(seen + [last], ToolStart(id), p)
  {
    forall id, p: nat
      ensures Lookup(After(active, last.what, last.payload).tools, id) == Some(p) <==> Open(seen + [last], ToolStart(id), p)
    {
      OpenAfter(seen, last, ToolStart(id), p);
      match last.what {
        case ToolStart(other) => ToolsAreAMap(active.tools, other, last.payload, id);
        case ToolEnd(other) => ToolsAreAMap(active.tools, other, last.payload, id);
        case _ =>
      }
    }
  }

  /** What the extension keeps after one more happening is what is open then. */
  lemma {:induction false} HappeningKept(seen: seq<Seen>, last: Seen, active: Active, at: seq<nat>) returns (at': seq<nat>)
    requires Keeps(active, seen, at)
    ensures Keeps(After(active, last.what, last.payload), seen + [last], at')
  {
    StartsKept(seen, last, active, at);
    ToolsKept(seen, last, active, at);
    match last.what {
      case ToolStart(id) =>
        at' := ToolOpens(seen, last, active, id, at);
        ToolsAreAMap(active.tools, id, last.payload, id);
      case ToolEnd(id) =>
        at' := ToolCloses(seen, last, active, id, at);
        ToolsAreAMap(active.tools, id, last.payload, id);
        SelectionDistinct(Ids(active.tools), {id});
      case AgentStart => at' := [];
      case AgentEnd => at' := [];
      case TurnEnd => at' := [];
      case _ =>
        at' := at;
        OrderStays(seen, last, Ids(active.tools), at);
    }
  }

  // ----- The happenings of a run -----------------------------------------------------------

  /**
   The happenings that count: those of a live lease, since the last shutdown and since a session start
   last took the place of an earlier session.
   */
  ghost function Observed(s: State, events: seq<Event>, seen: seq<Seen>): seq<Seen>
    requires s.leases != []
    decreases |events|
  {
    if events == [] then seen else Observed(Step(s, events[0]), events[1..], Observing(s, events[0], seen))
  }

  ghost function Observing(s: State, event: Event, seen: seq<Seen>): seq<Seen>
    requires s.leases != []
  {
    match event
    case Shutdown => []
    case SessionBegins(_) => if s.snapshot.Some? && Step(s, event).snapshot != s.snapshot then [] else seen
    case Happens(what, payload) => if s.leases[|s.leases| - 1].retired then seen else seen + [Seen(what, payload)]
    case _ => seen
  }

  lemma {:induction false} NothingKept()
    ensures Keeps(IDLE, [], [])
  {
  }

  lemma {:induction false} OthersKeepActive(s: State, event: Event)
    requires s.leases != [] && !event.Shutdown? && !event.SessionBegins? && !event.Happens?
    ensures Step(s, event).active == s.active
  {
    match event {
      case LoadResumes(a, ok, synthetic) => assert LoadResumed(s, a, ok, synthetic).active == s.active;
      case LoadEnsures(a) => assert LoadEnsured(s, a).active == s.active;
      case OperationBegins(o) => assert OperationBegun(s, o).active == s.active;
      case OperationResumes(o, ok) => assert OperationResumed(s, o, ok).active == s.active;
      case _ =>
    }
  }

  lemma {:induction false} StepKept(s: State, event: Event, seen: seq<Seen>, at: seq<nat>) returns (at': seq<nat>)
    requires Invariant(s) && Keeps(s.active, seen, at)
    ensures Keeps(Step(s, event).active, Observing(s, event, seen), at')
  {
    at' := at;
    match event {
      case Shutdown =>
        NothingKept();
        at' := [];
      case SessionBegins(lease) =>
        if s.snapshot.Some? && Entered(s, lease) {
          NothingKept();
          at' := [];
        }
      case Happens(what, payload) =>
        if !s.leases[|s.leases| - 1].retired {
          at' := HappeningKept(seen, Seen(what, payload), s.active, at);
        }
      case _ => OthersKeepActive(s, event);
    }
  }

  lemma {:induction false} RunKept(s: State, events: seq<Event>, seen: seq<Seen>, at: seq<nat>) returns (at': seq<nat>)
    requires Invariant(s) && Keeps(s.active, seen, at)
    ensures Keeps(Run(s, events).active, Observed(s, events, seen), at')
    decreases |events|
  {
    at' := at;
    if events != [] {
      StepKeepsInvariant(s, events[0]);
      at' := StepKept(s, events[0], seen, at);
      at' := RunKept(Step(s, events[0]), events[1..], Observing(s, events[0], seen), at');
    }
  }

  // ----- What a round tells ----------------------------------------------------------------

  /** The session first, then the turn, the model, the agent and the tools. */
  function Rank(dispatch: Dispatch): nat {
    if dispatch.SessionStart? then 0
    else if dispatch.what.TurnStart? then 1
    else if dispatch.what.ModelSelect? then 2
    else if dispatch.what.AgentStart? then 3
    else 4
  }

  /** The first comes before the second: by rank, and among tools by when they began. */
  ghost predicate Before(seen: seq<Seen>, first: Dispatch, second: Dispatch) {
    || Rank(first) < Rank(second)
    || (first.Again? && first.what.ToolStart? && second.Again? && second.what.ToolStart?
        && exists k: nat, l: nat :: k < l && Since(seen, first.what.id, k) && Since(seen, second.what.id, l))
  }

  /** The dispatches are the session's start and every start that is open, once each and in order. */
  ghost predicate Tells(seen: seq<Seen>, generation: nat, sent: seq<Dispatch>) {
    && sent != [] && sent[0] == SessionStart(generation)
    && (forall i :: 0 < i < |sent| ==> sent[i].Again?)
    && (forall what, p: nat :: Again(what, p) in sent <==> Open(seen, what, p))
    && InTurn(seen, sent)
  }

  ghost predicate InTurn(seen: seq<Seen>, sent: seq<Dispatch>) {
    forall i, j :: 0 <= i < j < |sent| ==> Before(seen, sent[i], sent[j])
  }

  ghost predicate Ranked(sent: seq<Dispatch>, low: nat, high: nat) {
    forall i :: 0 <= i < |sent| ==> low <= Rank(sent[i]) <= high
  }

  lemma {:induction false} InTurnThen(seen: seq<Seen>, first: seq<Dispatch>, second: seq<Dispatch>, low: nat, middle: nat, high: nat)
    requires InTurn(seen, first) && InTurn(seen, second) && Ranked(first, low, middle) && Ranked(second, middle + 1, high) && low <= middle < high
    ensures InTurn(seen, first + second) && Ranked(first + second, low, high)
  {
  }

  lemma {:induction false} ToolsAre(tools: seq<(string, nat)>, i: nat)
    requires i < |tools|
    ensures Tools(tools)[i] == Again(ToolStart(tools[i].0), tools[i].1) && Ids(tools)[i] == tools[i].0
  {
    if i > 0 {
      ToolsAre(tools[1..], i - 1);
    }
  }

  lemma {:induction false} ToolsInTurn(seen: seq<Seen>, tools: seq<(string, nat)>, at: seq<nat>)
    requires InOrder(seen, Ids(tools), at)
    ensures InTurn(seen, Tools(tools)) && Ranked(Tools(tools), 4, 4)
  {
    forall i: nat | i < |tools|
      ensures Tools(tools)[i] == Again(ToolStart(Ids(tools)[i]), tools[i].1)
    {
      ToolsAre(tools, i);
    }
  }

  lemma {:induction false} ToolsMembers(tools: seq<(string, nat)>, what: Happening, p: nat)
    requires Distinct(Ids(tools))
    ensures Again(what, p) in Tools(tools) <==> (what.ToolStart? && Lookup(tools, what.id) == Some(p))
    ensures forall d :: d in Tools(tools) ==> d.Again?
  {
    if tools != [] {
      assert Ids(tools) == [tools[0].0] + Ids(tools[1..]);
      DistinctConcat([tools[0].0], Ids(tools[1..]));
      ToolsMembers(tools[1..], what, p);
      if what.ToolStart? && what.id == tools[0].0 {
        LookupKnows(tools[1..], what.id);
        assert tools[0].0 in [tools[0].0];
      }
    }
  }

  lemma {:induction false} PlanInTurn(snapshot: Snapshot, active: Active, seen: seq<Seen>, at: seq<nat>)
    requires Keeps(active, seen, at)
    ensures InTurn(seen, Plan(snapshot, active))
  {
    var start, turn, model, agent, tools := [SessionStart(snapshot.generation)], Once(TurnStart, active.turn),
      Once(ModelSelect, active.model), Once(AgentStart, active.agent), Tools(active.tools);
    ToolsInTurn(seen, active.tools, at);
    InTurnThen(seen, start, turn, 0, 0, 1);
    InTurnThen(seen, start + turn, model, 0, 1, 2);
    InTurnThen(seen, start + turn + model, agent, 0, 2, 3);
    InTurnThen(seen, start + turn + model + agent, tools, 0, 3, 4);
  }

  lemma {:induction false} PlanMembers(snapshot: Snapshot, active: Active, seen: seq<Seen>, at: seq<nat>, what: Happening, p: nat)
    requires Keeps(active, seen, at)
    ensures Again(what, p) in Plan(snapshot, active) <==> Open(seen, what, p)
  {
    ToolsMembers(active.tools, what, p);
    var start, turn, model, agent, tools := [SessionStart(snapshot.generation)], Once(TurnStart, active.turn),
      Once(ModelSelect, active.model), Once(AgentStart, active.agent), Tools(active.tools);
    assert Again(what, p) in Plan(snapshot, active) <==>
      (Again(what, p) in turn || Again(what, p) in model || Again(what, p) in agent || Again(what, p) in tools);
  }

  /** The plan of a round, made when this is what is kept, tells what is open. */
  lemma {:induction false} PlanTells(snapshot: Snapshot, active: Active, seen: seq<Seen>, at: seq<nat>)
    requires Keeps(active, seen, at)
    ensures Tells(seen, snapshot.generation, Plan(snapshot, active))
  {
    var plan := Plan(snapshot, active);
    PlanInTurn(snapshot, active, seen, at);
    forall what, p: nat
      ensures Again(what, p) in plan <==> Open(seen, what, p)
    {
      PlanMembers(snapshot, active, seen, at, what, p);
    }
    forall i | 0 < i < |plan|
      ensures plan[i].Again?
    {
      assert Before(seen, plan[0], plan[i]);
    }
  }

  /** Nothing is told twice. */
  lemma {:induction false} ToldOnce(seen: seq<Seen>, generation: nat, sent: seq<Dispatch>)
    requires Tells(seen, generation, sent)
    ensures Distinct(sent)
  {
    forall i, j | 0 <= i < j < |sent|
      ensures sent[i] != sent[j]
    {
      assert Before(seen, sent[i], sent[j]);
    }
  }

  // ----- The round that marks --------------------------------------------------------------

  ghost predicate HasReading(s: State, o: nat) {
    o < |s.jobs| && s.jobs[o].Replay? && s.jobs[o].reading.Some?
  }

  /** The step begins a round of the replay: it captures what is kept at that moment and dispatches the session's start. */
  ghost predicate BeginsRound(s: State, event: Event, o: nat)
    requires s.leases != []
  {
    var t := Step(s, event);
    && (event == OperationBegins(o) || (event.OperationResumes? && event.operation == o))
    && HasReading(t, o) && s.snapshot == Some(t.jobs[o].reading.value.snapshot)
    && t.jobs[o].reading.value.active == s.active
    && t.jobs[o].reading.value.sent == [SessionStart(s.snapshot.value.generation)]
  }

  ghost predicate SameRound(s: State, t: State, o: nat) {
    && HasReading(s, o) && HasReading(t, o)
    && t.jobs[o].reading.value.snapshot == s.jobs[o].reading.value.snapshot
    && t.jobs[o].reading.value.active == s.jobs[o].reading.value.active
  }

  lemma {:induction false} ResumedReading(s: State, p: nat, ok: bool, o: nat)
    requires s.leases != [] && HasReading(OperationResumed(s, p, ok), o)
    ensures SameRound(s, OperationResumed(s, p, ok), o) || BeginsRound(s, OperationResumes(p, ok), o)
  {
    if Reads(s, p) && ok && Current(s, s.jobs[p].lease) && s.snapshot != Some(s.jobs[p].reading.value.snapshot) {
      RoundReading(s, s, p, o);
    }
  }

  lemma {:induction false} RoundReading(before: State, s: State, p: nat, o: nat)
    requires p < |s.jobs| && s.jobs[p].Replay? && HasReading(Round(s, p), o)
    requires before.jobs == s.jobs && before.snapshot == s.snapshot && before.active == s.active
    ensures var t := Round(s, p);
      || SameRound(before, t, o)
      || (o == p && before.snapshot == Some(t.jobs[o].reading.value.snapshot) && t.jobs[o].reading.value.active == before.active
          && t.jobs[o].reading.value.sent == [SessionStart(before.snapshot.value.generation)])
  {
  }

  lemma {:induction false} StepReading(s: State, event: Event, o: nat)
    requires s.leases != [] && HasReading(Step(s, event), o)
    ensures SameRound(s, Step(s, event), o) || BeginsRound(s, event, o)
  {
    match event {
      case OperationBegins(p) =>
        if F.CanBegin(s.forward, p) && p < |s.jobs| && s.jobs[p].Replay? {
          RoundReading(s, s.(forward := F.Begun(s.forward, p)), p, o);
        }
      case OperationResumes(p, ok) => ResumedReading(s, p, ok, o);
      case LoadResumes(a, ok, synthetic) => assert LoadResumed(s, a, ok, synthetic).jobs == s.jobs;
      case LoadEnsures(a) => assert LoadEnsured(s, a).jobs == s.jobs || LoadEnsured(s, a).jobs == s.jobs + [Replay(s.attempts[a].lease, a, None)];
      case _ =>
    }
  }

  lemma {:induction false} RunSnoc(s: State, events: seq<Event>, event: Event)
    requires s.leases != []
    ensures Run(s, events + [event]) == Step(Run(s, events), event)
    decreases |events|
  {
    if events == [] {
      assert [] + [event] == [event] && [event][1..] == [];
    } else {
      assert (events + [event])[1..] == events[1..] + [event];
      RunSnoc(Step(s, events[0]), events[1..], event);
    }
  }

  /** Every round of a run began at some event, with what was kept then. */
  lemma {:induction false} RoundBegan(events: seq<Event>, o: nat) returns (k: nat)
    requires HasReading(Run(INITIAL, events), o)
    ensures k < |events| && BeginsRound(Run(INITIAL, events[..k]), events[k], o)
    ensures Run(INITIAL, events).jobs[o].reading.value.active == Run(INITIAL, events[..k]).active
    ensures Some(Run(INITIAL, events).jobs[o].reading.value.snapshot) == Run(INITIAL, events[..k]).snapshot
    decreases |events|
  {
    k := 0;
    if events != [] {
      var init, last := events[..|events| - 1], events[|events| - 1];
      assert events == init + [last];
      RunSnoc(INITIAL, init, last);
      StepReading(Run(INITIAL, init), last, o);
      if BeginsRound(Run(INITIAL, init), last, o) {
        k := |init|;
      } else {
        k := RoundBegan(init, o);
        assert init[..k] == events[..k];
      }
    }
  }

  /**
   A replay marks a generation only after a round that told everything: of the happenings observed when it
   began, the start of the session and every start not ended or replaced since, with its last payload,
   once each and in order, and nothing else; and the session it began with is still the live lease's.
   */
  lemma {:induction false} MarkedAfterTellingAll(events: seq<Event>, o: nat, ok: bool) returns (k: nat)
    requires Step(Run(INITIAL, events), OperationResumes(o, ok)).marks != Run(INITIAL, events).marks
    ensures ok && k < |events| && BeginsRound(Run(INITIAL, events[..k]), events[k], o)
    ensures var began, s, t := Run(INITIAL, events[..k]), Run(INITIAL, events), Step(Run(INITIAL, events), OperationResumes(o, ok));
      && began.snapshot.Some? && s.snapshot == began.snapshot && Current(s, s.snapshot.value.lease)
      && t.marks == s.marks + [s.snapshot.value.generation] && t.replayed == s.snapshot.value.generation
      && HasReading(s, o)
      && Tells(Observed(INITIAL, events[..k], []), s.snapshot.value.generation, s.jobs[o].reading.value.sent)
      && Distinct(s.jobs[o].reading.value.sent)
  {
    InitiallySound();
    RunKeepsInvariant(INITIAL, events);
    MarkingFinishes(Run(INITIAL, events), o, ok);
    k := RoundBegan(events, o);
    var reading := Run(INITIAL, events).jobs[o].reading.value;
    CapturedPlanTells(events[..k], reading.snapshot);
    ToldOnce(Observed(INITIAL, events[..k], []), reading.snapshot.generation, reading.sent);
  }

  lemma {:induction false} MarkingFinishes(s: State, o: nat, ok: bool)
    requires Invariant(s) && OperationResumed(s, o, ok).marks != s.marks
    ensures ok && HasReading(s, o)
    ensures var reading, t := s.jobs[o].reading.value, OperationResumed(s, o, ok);
      && s.snapshot == Some(reading.snapshot) && Current(s, reading.snapshot.lease)
      && reading.sent == Plan(reading.snapshot, reading.active)
      && t.marks == s.marks + [reading.snapshot.generation] && t.replayed == reading.snapshot.generation
  {
    MarkingEndsTheRound(s, o, ok, s.jobs[o].reading.value.snapshot);
  }

  lemma {:induction false} CapturedPlanTells(events: seq<Event>, snapshot: Snapshot)
    ensures Tells(Observed(INITIAL, events, []), snapshot.generation, Plan(snapshot, Run(INITIAL, events).active))
  {
    InitiallySound();
    NothingKept();
    var at := RunKept(INITIAL, events, [], []);
    PlanTells(snapshot, Run(INITIAL, events).active, Observed(INITIAL, events, []), at);
  }

  /** A round whose session stays, and whose dispatches succeed, is told to its end and marked. */
  lemma {:induction false} UndisturbedRoundIsMarked(s: State, o: nat) returns (n: nat)
    requires Invariant(s) && Reads(s, o) && s.snapshot == Some(s.jobs[o].reading.value.snapshot) && Current(s, s.jobs[o].lease)
    ensures var t := Run(s, seq(n, _ => OperationResumes(o, true)));
      t.replayed == s.snapshot.value.generation && o < |t.forward.operations| && t.forward.operations[o].phase == F.Settled(true)
    decreases |Plan(s.jobs[o].reading.value.snapshot, s.jobs[o].reading.value.active)| - |s.jobs[o].reading.value.sent|
  {
    var resume, reading := OperationResumes(o, true), s.jobs[o].reading.value;
    var plan := Plan(reading.snapshot, reading.active);
    var t := Step(s, resume);
    assert ReadingSound(s, o);
    if |reading.sent| >= |plan| {
      n := 1;
      assert seq(1, _ => resume)[1..] == [];
    } else {
      assert t.jobs[o].reading.value == reading.(sent := reading.sent + [plan[|reading.sent|]]);
      StepKeepsInvariant(s, resume);
      n := UndisturbedRoundIsMarked(t, o);
      n := n + 1;
      assert seq(n, _ => resume)[1..] == seq(n - 1, _ => resume);
    }
  }

  // ----- Where sessions come from ----------------------------------------------------------

  /** Only a session start replaces a session, and only a shutdown ends it; a load stands in only when there is none. */
  lemma {:induction false} OnlyStartsReplaceSessions(s: State, event: Event)
    requires Invariant(s) && Step(s, event).snapshot != s.snapshot
    ensures var t := Step(s, event);
      && (t.snapshot.None? ==> event.Shutdown?)
      && (t.snapshot.Some? ==> t.snapshot.value.generation == s.generation + 1)
      && (t.snapshot.Some? && !event.SessionBegins? ==>
            s.snapshot.None? && ((event.LoadResumes? && event.synthetic) || (event.LoadJoined? && event.synthetic)))
  {
    match event {
      case LoadEnsures(a) => ReplaysKeepSession(s, a, a, true);
      case OperationBegins(o) => ReplaysKeepSession(s, o, o, true);
      case OperationResumes(o, ok) => ReplaysKeepSession(s, o, o, ok);
      case _ =>
    }
  }

  lemma {:induction false} ReplaysKeepSession(s: State, a: nat, o: nat, ok: bool)
    ensures LoadEnsured(s, a).snapshot == OperationBegun(s, o).snapshot == OperationResumed(s, o, ok).snapshot == s.snapshot
  {
  }

  /** A load under way is joined, not repeated; one that failed is forgotten and can be tried again. */
  lemma {:induction false} OnlyFailedLoadsAreRetried(s: State, a: nat)
    requires Invariant(s) && a < |s.attempts| && s.heavyAttempt == Some(a) && PriorSettled(s, s.attempts[a].lease)
    ensures Step(s, BeginLoad(s.attempts[a].lease)) == s
    ensures var retried := Step(Step(s, LoadRejected(a)), BeginLoad(s.attempts[a].lease));
      if s.attempts[a].stage == Done(false) then
        retried.attempts == s.attempts + [Attempt(s.attempts[a].lease, Importing)] && retried.heavyAttempt == Some(|s.attempts|)
      else retried == s
  {
    if s.attempts[a].stage == Done(false) {
      var forgotten, lease := Step(s, LoadRejected(a)), s.attempts[a].lease;
      assert forgotten == s.(heavyAttempt := None);
      forall task | task in s.leases[lease].prior
        ensures Settled(forgotten, task)
      {
        assert Settled(s, task);
      }
    }
  }
}
