/**
 How a session file is laid out in steps (evals/atomic_pier.py), said of its entries: which of them make a
 step, what that step holds, and in which step each tool result is.
 */
module TrajectoryLayouts {
  import opened Sequences
  import opened Trajectories

  // ----- Which entries make a step ---------------------------------------------------------

  /** A message that becomes a step of its own: all but tool results and unknown roles. */
  predicate Makes(e: Entry) {
    e.Message? && (e.role.Assistant? || e.role.User? || e.role.Bash? || e.role.Note?)
  }

  predicate IsResult(e: Entry) {
    e.Message? && e.role.ToolResult?
  }

  /** The k-th entry is a tool result that follows the j-th, a model call, with no step made between. */
  ghost predicate AttachesTo(entries: seq<Entry>, k: nat, j: nat) {
    j < k < |entries| && IsResult(entries[k]) && IsCall(entries[j]) && forall i :: j < i < k ==> !Makes(entries[i])
  }

  /** A step is made by such a message, and by a tool result that has no model call to attach to. */
  ghost predicate MakesStep(entries: seq<Entry>, k: nat) {
    k < |entries| && (Makes(entries[k]) || (IsResult(entries[k]) && forall j: nat :: !AttachesTo(entries, k, j)))
  }

  // ----- What a step holds -----------------------------------------------------------------

  /** A call id is kept if it is empty or names one of these calls. */
  function KeptId(calls: seq<string>, callId: Option<string>): Option<string> {
    if callId.Some? && (callId.value == "" || callId.value in calls) then callId else None
  }

  /** What a step observes of its own entry. */
  function Own(e: Entry): seq<Result> {
    if e.Message? && e.role.Bash? then [BashOutput]
    else if IsResult(e) then [ToolOutput(e.role.callId, e.role.result)]
    else []
  }

  function SourceOf(e: Entry): Source {
    if e.Message? && e.role.Assistant? then AgentSource
    else if e.Message? && e.role.User? then UserSource
    else SystemSource
  }

  function CallsOf(e: Entry): seq<string> {
    if e.Message? && e.role.Assistant? then e.role.calls else []
  }

  ghost predicate Increasing(positions: seq<nat>, bound: nat) {
    && (forall i, j :: 0 <= i < j < |positions| ==> positions[i] < positions[j])
    && (forall i :: 0 <= i < |positions| ==> positions[i] < bound)
  }

  /** The step is that of the j-th entry and observes, after its own, the tool results at these positions. */
  ghost predicate Holds(entries: seq<Entry>, j: nat, held: seq<nat>, step: Step)
    requires j < |entries|
  {
    var own := Own(entries[j]);
    && step.source == SourceOf(entries[j]) && step.calls == CallsOf(entries[j])
    && |step.observation| == |own| + |held| && step.observation[..|own|] == own
    && Increasing(held, |entries|)
    && (forall i :: 0 <= i < |held| ==>
          && IsResult(entries[held[i]])
          && step.observation[|own| + i] == ToolOutput(KeptId(step.calls, entries[held[i]].role.callId), entries[held[i]].role.result))
    && (forall k: nat :: k in held <==> AttachesTo(entries, k, j))
  }

  /** One step for each entry that makes one, in order, and each tool result in the step it attaches to. */
  ghost predicate LaidOut(entries: seq<Entry>, steps: seq<Step>, at: seq<nat>, held: seq<seq<nat>>) {
    && |at| == |held| == |steps| && Increasing(at, |entries|)
    && (forall k: nat :: k in at <==> MakesStep(entries, k))
    && (forall p :: 0 <= p < |steps| ==> steps[p].stepId == p + 1 && Holds(entries, at[p], held[p], steps[p]))
  }

  lemma {:induction false} AddAllSnoc(b: Builder, entries: seq<Entry>, e: Entry)
    ensures AddAll(b, entries + [e]) == Add(AddAll(b, entries), e)
    decreases |entries|
  {
    if entries == [] {
      assert [] + [e] == [e] && [e][1..] == [];
    } else {
      assert (entries + [e])[1..] == entries[1..] + [e];
      AddAllSnoc(Add(b, entries[0]), entries[1..], e);
    }
  }

  /** One entry more changes nothing about those before it. */
  lemma {:induction false} PrefixKeeps(entries: seq<Entry>, e: Entry, k: nat)
    requires k < |entries|
    ensures forall j: nat :: AttachesTo(entries + [e], k, j) <==> AttachesTo(entries, k, j)
    ensures MakesStep(entries + [e], k) <==> MakesStep(entries, k)
  {
    var all := entries + [e];
    assert forall i :: 0 <= i < |entries| ==> all[i] == entries[i];
    forall j: nat
      ensures AttachesTo(all, k, j) <==> AttachesTo(entries, k, j)
    {
    }
  }

  /** A step keeps what it holds if the new entry does not attach to it. */
  lemma {:induction false} HoldsStill(entries: seq<Entry>, e: Entry, j: nat, held: seq<nat>, step: Step)
    requires j < |entries| && Holds(entries, j, held, step) && !AttachesTo(entries + [e], |entries|, j)
    ensures Holds(entries + [e], j, held, step)
  {
    forall k: nat
      ensures k in held <==> AttachesTo(entries + [e], k, j)
    {
      if k < |entries| {
        PrefixKeeps(entries, e, k);
      }
    }
  }

  /** The steps are as laid out for the entries so far, and none of them holds the new entry. */
  ghost predicate StillLaidOut(entries: seq<Entry>, e: Entry, steps: seq<Step>, at: seq<nat>, held: seq<seq<nat>>) {
    LaidOut(entries, steps, at, held) && forall p :: 0 <= p < |steps| ==> !AttachesTo(entries + [e], |entries|, at[p])
  }

  lemma {:induction false} NothingMade(entries: seq<Entry>, e: Entry, steps: seq<Step>, at: seq<nat>, held: seq<seq<nat>>)
    requires StillLaidOut(entries, e, steps, at, held) && !MakesStep(entries + [e], |entries|)
    ensures LaidOut(entries + [e], steps, at, held)
  {
    forall k: nat
      ensures k in at <==> MakesStep(entries + [e], k)
    {
      if k < |entries| {
        PrefixKeeps(entries, e, k);
      }
    }
    forall p | 0 <= p < |steps|
      ensures Holds(entries + [e], at[p], held[p], steps[p])
    {
      HoldsStill(entries, e, at[p], held[p], steps[p]);
    }
  }

  lemma {:induction false} StepMade(entries: seq<Entry>, e: Entry, steps: seq<Step>, at: seq<nat>, held: seq<seq<nat>>, step: Step)
    requires StillLaidOut(entries, e, steps, at, held) && MakesStep(entries + [e], |entries|)
    requires step.stepId == |steps| + 1 && step.source == SourceOf(e) && step.calls == CallsOf(e) && step.observation == Own(e)
    ensures LaidOut(entries + [e], steps + [step], at + [|entries|], held + [[]])
  {
    var all := entries + [e];
    assert all[|entries|] == e;
    forall k: nat
      ensures k in at + [|entries|] <==> MakesStep(all, k)
    {
      if k < |entries| {
        PrefixKeeps(entries, e, k);
      }
    }
    assert Holds(all, |entries|, [], step);
    forall p | 0 <= p < |steps|
      ensures Holds(all, at[p], held[p], steps[p])
    {
      HoldsStill(entries, e, at[p], held[p], steps[p]);
    }
  }

  /** A tool result attaches to the last step's entry if that step is an agent's, and to no other. */
  lemma {:induction false} AttachesToLast(entries: seq<Entry>, e: Entry, steps: seq<Step>, at: seq<nat>, held: seq<seq<nat>>, j: nat)
    requires LaidOut(entries, steps, at, held) && IsResult(e)
    ensures AttachesTo(entries + [e], |entries|, j) <==> (steps != [] && steps[|steps| - 1].source == AgentSource && j == at[|at| - 1])
  {
    var all, n := entries + [e], |entries|;
    if steps != [] {
      var last := at[|at| - 1];
      assert Holds(entries, last, held[|at| - 1], steps[|at| - 1]);
      assert last in at && MakesStep(entries, last);
      forall i: nat | last < i < n
        ensures !MakesStep(entries, i) && !Makes(all[i])
      {
        assert all[i] == entries[i];
        assert i !in at;
      }
      if AttachesTo(all, n, j) && j != last {
        LaterStepIsMade(entries, e, at, j);
      }
    } else if AttachesTo(all, n, j) {
      LaterStepIsMade(entries, e, at, j);
    }
  }

  /** What a tool result attaches to is the last entry that makes a step. */
  lemma {:induction false} LaterStepIsMade(entries: seq<Entry>, e: Entry, at: seq<nat>, j: nat)
    requires AttachesTo(entries + [e], |entries|, j) && Increasing(at, |entries|)
    requires forall k: nat :: k in at <==> MakesStep(entries, k)
    ensures at != [] && at[|at| - 1] == j
  {
    var all := entries + [e];
    assert forall i :: 0 <= i < |entries| ==> all[i] == entries[i];
    forall k: nat | j < k < |entries|
      ensures !MakesStep(entries, k)
    {
      assert !Makes(all[k]);
      assert IsResult(entries[k]) ==> AttachesTo(entries, k, j);
    }
    assert MakesStep(entries, j);
    var p :| 0 <= p < |at| && at[p] == j;
    assert at[|at| - 1] in at;
  }

  lemma {:induction false} ResultHeld(entries: seq<Entry>, e: Entry, j: nat, held: seq<nat>, step: Step)
    requires j < |entries| && Holds(entries, j, held, step) && AttachesTo(entries + [e], |entries|, j)
    ensures Holds(entries + [e], j, held + [|entries|],
                  step.(observation := step.observation + [ToolOutput(KeptId(step.calls, e.role.callId), e.role.result)]))
  {
    var all, held' := entries + [e], held + [|entries|];
    assert all[|entries|] == e;
    forall k: nat
      ensures k in held' <==> AttachesTo(all, k, j)
    {
      if k < |entries| {
        PrefixKeeps(entries, e, k);
      }
    }
  }

  lemma {:induction false} ResultAttached(entries: seq<Entry>, e: Entry, steps: seq<Step>, at: seq<nat>, held: seq<seq<nat>>)
    returns (held': seq<seq<nat>>)
    requires LaidOut(entries, steps, at, held) && IsResult(e) && steps != [] && steps[|steps| - 1].source == AgentSource
    ensures LaidOut(entries + [e], Observe(steps, e.role.callId, e.role.result), at, held')
  {
    var all, n, last := entries + [e], |entries|, |steps| - 1;
    held' := held[last := held[last] + [n]];
    var after := Observe(steps, e.role.callId, e.role.result);
    AttachesToLast(entries, e, steps, at, held, at[last]);
    ResultHeld(entries, e, at[last], held[last], steps[last]);
    assert after[last] == steps[last].(observation := steps[last].observation + [ToolOutput(KeptId(steps[last].calls, e.role.callId), e.role.result)]);
    forall p | 0 <= p < last
      ensures Holds(all, at[p], held'[p], after[p])
    {
      AttachesToLast(entries, e, steps, at, held, at[p]);
      HoldsStill(entries, e, at[p], held[p], steps[p]);
    }
    forall k: nat
      ensures k in at <==> MakesStep(all, k)
    {
      if k < n {
        PrefixKeeps(entries, e, k);
      }
    }
  }

  lemma {:induction false} AddLaysOut(b: Builder, entries: seq<Entry>, e: Entry, at: seq<nat>, held: seq<seq<nat>>)
    returns (at': seq<nat>, held': seq<seq<nat>>)
    requires LaidOut(entries, b.steps, at, held)
    ensures LaidOut(entries + [e], Add(b, e).steps, at', held')
  {
    at', held' := at, held;
    var n := |entries|;
    assert (entries + [e])[n] == e;
    if IsResult(e) {
      forall j: nat
        ensures AttachesTo(entries + [e], n, j) <==> (b.steps != [] && b.steps[|b.steps| - 1].source == AgentSource && j == at[|at| - 1])
      {
        AttachesToLast(entries, e, b.steps, at, held, j);
      }
      if b.steps != [] && b.steps[|b.steps| - 1].source == AgentSource {
        held' := ResultAttached(entries, e, b.steps, at, held);
      } else {
        at', held' := at + [n], held + [[]];
        StepMade(entries, e, b.steps, at, held, Step(|b.steps| + 1, SystemSource, [], None, false, [ToolOutput(e.role.callId, e.role.result)]));
      }
    } else if Makes(e) {
      at', held' := at + [n], held + [[]];
      StepMade(entries, e, b.steps, at, held, StepOf(b, e.id, e.role).value);
    } else {
      NothingMade(entries, e, b.steps, at, held);
    }
  }

  /**
   Every trajectory has one step for each entry that makes one, in the order of the file, with that entry's
   source and calls; and each tool result is, in order, in the step of the model call it attaches to.
   */
  lemma {:induction false} TrajectoryIsLaidOut(seenIds: set<string>, seenFingerprints: set<string>, entries: seq<Entry>)
    returns (at: seq<nat>, held: seq<seq<nat>>)
    ensures LaidOut(entries, FromEntries(seenIds, seenFingerprints, entries).steps, at, held)
    decreases |entries|
  {
    at, held := [], [];
    if entries != [] {
      var init, last := entries[..|entries| - 1], entries[|entries| - 1];
      assert entries == init + [last];
      at, held := TrajectoryIsLaidOut(seenIds, seenFingerprints, init);
      var b := Builder([], seenIds, seenFingerprints, 0);
      AddAllSnoc(b, init, last);
      at, held := AddLaysOut(AddAll(b, init), init, last, at, held);
    }
  }

  /** A tool result is in the step of the model call it attaches to, under a call id that is empty or names one of its calls. */
  lemma {:induction false} ResultIsWithItsCall(seenIds: set<string>, seenFingerprints: set<string>, entries: seq<Entry>, k: nat, j: nat)
    returns (p: nat)
    requires AttachesTo(entries, k, j)
    ensures var steps := FromEntries(seenIds, seenFingerprints, entries).steps;
      && p < |steps| && steps[p].source == AgentSource && steps[p].calls == entries[j].role.calls
      && ToolOutput(KeptId(entries[j].role.calls, entries[k].role.callId), entries[k].role.result) in steps[p].observation
  {
    var at, held := TrajectoryIsLaidOut(seenIds, seenFingerprints, entries);
    var steps := FromEntries(seenIds, seenFingerprints, entries).steps;
    assert MakesStep(entries, j);
    p :| p < |at| && at[p] == j;
    assert Holds(entries, j, held[p], steps[p]);
    var i :| 0 <= i < |held[p]| && held[p][i] == k;
  }

  /** A tool result makes a step exactly when the last step, if there is one, is not an agent's. */
  lemma {:induction false} ResultMakesStepIff(seenIds: set<string>, seenFingerprints: set<string>, entries: seq<Entry>, id: Option<string>, callId: Option<string>, result: nat)
    ensures var before := FromEntries(seenIds, seenFingerprints, entries).steps;
      var after := FromEntries(seenIds, seenFingerprints, entries + [Message(id, ToolResult(callId, result))]).steps;
      |after| == |before| + (if before == [] || before[|before| - 1].source != AgentSource then 1 else 0)
  {
    var e := Message(id, ToolResult(callId, result));
    var at, held := TrajectoryIsLaidOut(seenIds, seenFingerprints, entries);
    AddAllSnoc(Builder([], seenIds, seenFingerprints, 0), entries, e);
  }
}
