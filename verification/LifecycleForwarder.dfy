/**
 The serialized forwarder (packages/intercom/lifecycle-lease.ts): a chain of promises in which every
 operation waits for the tail it found, however that tail's operation ended.
 */
module LifecycleForwarders {
  import opened Sequences

  datatype Phase = Waiting | Running | Settled(ok: bool)

  /** An enqueued operation and the operation whose end is the tail it waits for, if there was any. */
  datatype Operation = Operation(after: Option<nat>, phase: Phase)

  /** `starts` is history: the operations in the order in which they started. */
  datatype State = State(tail: Option<nat>, operations: seq<Operation>, starts: seq<nat>)

  datatype Event = Enqueue | Begin(o: nat) | Settle(o: nat, ok: bool)

  const INITIAL := State(None, [], [])

  predicate Passed(s: State, after: Option<nat>) {
    after.None? || (after.value < |s.operations| && s.operations[after.value].phase.Settled?)
  }

  function Enqueued(s: State): State {
    s.(tail := Some(|s.operations|), operations := s.operations + [Operation(s.tail, Waiting)])
  }

  predicate CanBegin(s: State, o: nat) {
    o < |s.operations| && s.operations[o].phase == Waiting && Passed(s, s.operations[o].after)
  }

  predicate IsRunning(s: State, o: nat) {
    o < |s.operations| && s.operations[o].phase == Running
  }

  predicate IsSettled(s: State, o: nat) {
    o < |s.operations| && s.operations[o].phase.Settled?
  }

  function Begun(s: State, o: nat): State {
    if CanBegin(s, o) then
      s.(operations := s.operations[o := s.operations[o].(phase := Running)], starts := s.starts + [o])
    else s
  }

  function Ended(s: State, o: nat, ok: bool): State {
    if IsRunning(s, o) then s.(operations := s.operations[o := s.operations[o].(phase := Settled(ok))]) else s
  }

  function Step(s: State, event: Event): State {
    match event
    case Enqueue => Enqueued(s)
    case Begin(o) => Begun(s, o)
    case Settle(o, ok) => Ended(s, o, ok)
  }

  function Run(s: State, events: seq<Event>): State
    decreases |events|
  {
    if events == [] then s else Run(Step(s, events[0]), events[1..])
  }

  function Previous(n: nat): Option<nat> {
    if n == 0 then None else Some(n - 1)
  }

  /** Operations start in the order of their numbers, each after its predecessor settled. */
  ghost predicate Invariant(s: State) {
    && s.tail == Previous(|s.operations|)
    && |s.starts| <= |s.operations|
    && (forall o: nat :: o < |s.operations| ==> s.operations[o].after == Previous(o))
    && (forall o: nat :: o < |s.starts| ==> s.starts[o] == o)
    && (forall o: nat :: o < |s.operations| ==> (s.operations[o].phase == Waiting <==> o >= |s.starts|))
    && (forall o: nat :: o + 1 < |s.starts| ==> s.operations[o].phase.Settled?)
  }

  lemma {:induction false} StepKeepsInvariant(s: State, event: Event)
    requires Invariant(s)
    ensures Invariant(Step(s, event))
  {
    match event {
      case Enqueue =>
      case Begin(o) =>
        if CanBegin(s, o) {
          assert o == |s.starts| by {
            if o > 0 {
              assert s.operations[o - 1].phase.Settled?;
            }
          }
        }
      case Settle(o, ok) =>
    }
  }

  lemma {:induction false} RunKeepsInvariant(s: State, events: seq<Event>)
    requires Invariant(s)
    ensures Invariant(Run(s, events))
    decreases |events|
  {
    if events != [] {
      StepKeepsInvariant(s, events[0]);
      RunKeepsInvariant(Step(s, events[0]), events[1..]);
    }
  }

  /** In every run the operations start in the order in which they were enqueued, and one at a time. */
  lemma {:induction false} OperationsRunInOrder(events: seq<Event>, o: nat, p: nat)
    requires o < p < |Run(INITIAL, events).operations|
    ensures var s := Run(INITIAL, events);
      && (forall k: nat :: k < |s.starts| ==> s.starts[k] == k)
      && (s.operations[p].phase != Waiting ==> s.operations[o].phase.Settled?)
  {
    RunKeepsInvariant(INITIAL, events);
  }

  /** No rejection jams the chain: when none is running and some operation waits, the next one can start. */
  lemma {:induction false} RejectionDoesNotBlock(events: seq<Event>)
    ensures var s := Run(INITIAL, events);
      (forall o: nat :: !IsRunning(s, o)) && |s.starts| < |s.operations| ==>
        Step(s, Begin(|s.starts|)).starts == s.starts + [|s.starts|]
  {
    RunKeepsInvariant(INITIAL, events);
    var s := Run(INITIAL, events);
    if (forall o: nat :: !IsRunning(s, o)) && 0 < |s.starts| < |s.operations| {
      assert !IsRunning(s, |s.starts| - 1);
    }
  }

  class SerializedLifecycleForwarder {
    var tail: Option<nat>
    var operations: seq<Operation>
    ghost var starts: seq<nat>

    ghost function View(): State
      reads this
    {
      State(tail, operations, starts)
    }

    constructor ()
      ensures View() == INITIAL
    {
      tail, operations, starts := None, [], [];
    }

    method Enqueue() returns (o: nat)
      modifies this
      ensures View() == Step(old(View()), Event.Enqueue) && o == |old(operations)|
    {
      o := |operations|;
      operations := operations + [Operation(tail, Waiting)];
      tail := Some(o);
    }

    /** The tail an operation waits for has settled, one way or the other. */
    method Start(o: nat)
      requires CanBegin(View(), o)
      modifies this
      ensures View() == Step(old(View()), Begin(o))
    {
      operations := operations[o := operations[o].(phase := Running)];
      starts := starts + [o];
    }

    method Finish(o: nat, ok: bool)
      requires IsRunning(View(), o)
      modifies this`operations
      ensures View() == Step(old(View()), Settle(o, ok))
    {
      operations := operations[o := operations[o].(phase := Settled(ok))];
    }
  }
}
