/**
 The retry loop for one stable delivery (packages/intercom/stable-delivery-retry.ts). `current` is what
 `isCurrent` answers throughout one step of the loop. The state counts what is outstanding: closures
 handed to the scheduler, deliveries under way, and calls of `resolve` or `reject`.
 */
module StableDeliveryRetries {

  /** The promise: pending, or settled by the first call of `resolve` or `reject`. */
  datatype Outcome = Pending | Fulfilled | Rejected

  /** History: how many deliveries began, how many of them while retired, and how many succeeded. */
  datatype State = State(
    attempted: bool, retirementRetryUsed: bool, scheduled: nat, inFlight: nat, settlements: nat, outcome: Outcome,
    begun: nat, begunRetired: nat, succeeded: nat)

  /** What a delivery does at once: throw, or leave a promise. */
  datatype Start = Throws | Promises

  /** The scheduler runs one of the closures it was given, or one of the deliveries under way settles. */
  datatype Event =
    | RunAttempt(current: bool, start: Start)
    | Settles(ok: bool, current: bool)

  /** The first attempt is made at once, as if it had been scheduled. */
  const INITIAL := State(false, false, 1, 0, 0, Pending, 0, 0, 0)

  function SettledAs(s: State, outcome: Outcome): State {
    s.(settlements := s.settlements + 1, outcome := if s.outcome == Pending then outcome else s.outcome)
  }

  /** `failed`: schedule another attempt, or give up. */
  function FailedDelivery(s: State, current: bool): State {
    if current || !s.retirementRetryUsed then s.(scheduled := s.scheduled + 1) else SettledAs(s, Rejected)
  }

  /** `attempt`, up to the call of `deliver`. */
  function Attempted(s: State, current: bool): State {
    if !current && (!s.attempted || s.retirementRetryUsed) then SettledAs(s, Rejected)
    else s.(attempted := true, retirementRetryUsed := s.retirementRetryUsed || !current,
            inFlight := s.inFlight + 1, begun := s.begun + 1, begunRetired := s.begunRetired + if current then 0 else 1)
  }

  function DeliveryEnded(s: State, ok: bool, current: bool): State
    requires s.inFlight > 0
  {
    var t := s.(inFlight := s.inFlight - 1);
    if ok then SettledAs(t.(succeeded := s.succeeded + 1), Fulfilled) else FailedDelivery(t, current)
  }

  function Step(s: State, event: Event): State {
    match event
    case RunAttempt(current, start) =>
      if s.scheduled == 0 then s
      else
        var t := Attempted(s.(scheduled := s.scheduled - 1), current);
        if t.begun > s.begun && start.Throws? then DeliveryEnded(t, false, current) else t
    case Settles(ok, current) => if s.inFlight == 0 then s else DeliveryEnded(s, ok, current)
  }

  function Run(s: State, events: seq<Event>): State
    decreases |events|
  {
    if events == [] then s else Run(Step(s, events[0]), events[1..])
  }

  /** Exactly one thing is outstanding: a closure, a delivery, or nothing because the promise was settled. */
  ghost predicate OneOutstanding(s: State) {
    s.scheduled + s.inFlight + s.settlements == 1
  }

  ghost predicate Invariant(s: State) {
    && OneOutstanding(s)
    && (s.outcome == Pending <==> s.settlements == 0)
    && (s.outcome == Fulfilled <==> s.succeeded > 0)
    && s.succeeded <= s.settlements
    && (s.attempted <==> s.begun > 0)
    && s.begunRetired == (if s.retirementRetryUsed then 1 else 0)
    && (s.begunRetired > 0 ==> s.begun >= 2)
    && (s.inFlight > 0 || s.succeeded > 0 ==> s.begun > 0)
  }

  lemma {:induction false} RunKeepsInvariant(s: State, events: seq<Event>)
    requires Invariant(s)
    ensures Invariant(Run(s, events))
    decreases |events|
  {
    if events != [] {
      RunKeepsInvariant(Step(s, events[0]), events[1..]);
    }
  }

  /** A delivery begins in this step. */
  ghost predicate Begins(s: State, event: Event) {
    Step(s, event).begun > s.begun
  }

  /**
   In every run at most one delivery is under way, one begins only when none is and none has succeeded, and
   the promise is settled at most once, with nothing outstanding any more.
   */
  lemma {:induction false} DeliveriesNeverOverlap(events: seq<Event>, event: Event)
    ensures var s := Run(INITIAL, events);
      && OneOutstanding(s) && s.inFlight <= 1 && s.settlements <= 1
      && (s.settlements == 1 ==> s.inFlight == 0 && s.scheduled == 0)
      && (Begins(s, event) ==> s.inFlight == 0 && s.succeeded == 0 && s.outcome == Pending)
  {
    RunKeepsInvariant(INITIAL, events);
  }

  /** In every run at most one delivery begins while retired, and only after an earlier one had begun. */
  lemma {:induction false} OneRetirementRetry(events: seq<Event>, event: Event)
    ensures var s := Run(INITIAL, events);
      && s.begunRetired <= 1 && (s.begunRetired == 1 ==> s.begun >= 2)
      && (Begins(s, event) && !event.current ==> s.begun >= 1 && s.begunRetired == 0)
  {
    RunKeepsInvariant(INITIAL, events);
  }

  ghost predicate AllRetired(events: seq<Event>) {
    forall k :: 0 <= k < |events| ==> !events[k].current
  }

  /** How many of these events find something outstanding to act on. */
  ghost function Effective(s: State, events: seq<Event>): nat
    decreases |events|
  {
    if events == [] then 0
    else (if Step(s, events[0]) == s then 0 else 1) + Effective(Step(s, events[0]), events[1..])
  }

  /** How many steps a permanently retired loop can still take. */
  function Remaining(s: State): nat {
    if s.scheduled > 0 then if s.retirementRetryUsed || !s.attempted then 1 else 2
    else if s.inFlight > 0 then if s.retirementRetryUsed then 1 else 3
    else 0
  }

  /**
   After permanent retirement at most one more delivery begins, and the promise settles: as soon as every
   step the loop still waits for has happened, which is at most three, it is no longer pending.
   */
  lemma {:induction false} RetiredLoopSettles(s: State, events: seq<Event>)
    requires Invariant(s) && AllRetired(events)
    ensures Run(s, events).begun <= s.begun + 1
    ensures Effective(s, events) <= Remaining(s) <= 3
    ensures s.retirementRetryUsed ==> Run(s, events).begun == s.begun
    ensures Effective(s, events) == Remaining(s) ==> Run(s, events).outcome != Pending
    decreases |events|
  {
    if events != [] {
      RetiredLoopSettles(Step(s, events[0]), events[1..]);
    }
  }

  /**
   What each step of a run amounts to. While the generation is current, an attempt delivers and a failure is
   scheduled again. Once it has retired, an attempt delivers exactly if it is not the first and none was made
   retired before, and a failure is scheduled again exactly if none was. Otherwise the promise is rejected.
   */
  lemma {:induction false} StepsExactly(events: seq<Event>, event: Event)
    ensures var s, t := Run(INITIAL, events), Step(Run(INITIAL, events), event);
      match event
      case RunAttempt(current, start) => (
        if s.scheduled == 0 then t == s
        else if current || (s.begun > 0 && s.begunRetired == 0) then
          && t.begun == s.begun + 1 && t.begunRetired == s.begunRetired + (if current then 0 else 1)
          && if start.Promises? then t.inFlight == 1 && t.outcome == Pending
             else if current then t.scheduled == 1 && t.outcome == Pending
             else t.outcome == Rejected
        else t.begun == s.begun && t.outcome == Rejected)
      case Settles(ok, current) => (
        if s.inFlight == 0 then t == s
        else if ok then t.outcome == Fulfilled
        else if current || s.begunRetired == 0 then t.scheduled == 1 && t.outcome == Pending
        else t.outcome == Rejected)
  {
    RunKeepsInvariant(INITIAL, events);
  }

  /** In every run the promise is rejected only in a step in which the generation has retired. */
  lemma {:induction false} RejectedOnlyRetired(events: seq<Event>, event: Event)
    requires Run(INITIAL, events).outcome != Rejected && Step(Run(INITIAL, events), event).outcome == Rejected
    ensures !event.current
  {
    StepsExactly(events, event);
  }

  /** Without retirement, no run rejects: it goes on until a delivery succeeds. */
  lemma {:induction false} CurrentNeverRejected(s: State, events: seq<Event>)
    requires Invariant(s) && s.outcome != Rejected && forall k :: 0 <= k < |events| ==> events[k].current
    ensures Run(s, events).outcome != Rejected
    ensures Run(s, events).outcome == Fulfilled <==> Run(s, events).succeeded > 0
    decreases |events|
  {
    if events != [] {
      CurrentNeverRejected(Step(s, events[0]), events[1..]);
    }
  }

  // ----- The class -------------------------------------------------------------------------

  class StableDeliveryRetry {
    var attempted: bool
    var retirementRetryUsed: bool
    /** Closures at the scheduler, deliveries under way, and calls of `resolve` and `reject`. */
    var scheduled: nat
    var inFlight: nat
    var settlements: nat
    var outcome: Outcome
    ghost var begun: nat
    ghost var begunRetired: nat
    ghost var succeeded: nat

    ghost function View(): State
      reads this
    {
      State(attempted, retirementRetryUsed, scheduled, inFlight, settlements, outcome, begun, begunRetired, succeeded)
    }

    constructor ()
      ensures View() == INITIAL
    {
      attempted, retirementRetryUsed, scheduled, inFlight, settlements, outcome := false, false, 1, 0, 0, Pending;
      begun, begunRetired, succeeded := 0, 0, 0;
    }

    /** The closure. `start` is what the call of `deliver` does, if it is made. */
    method RunScheduled(isCurrent: bool, start: Start) returns (delivers: bool)
      requires scheduled > 0
      modifies this
      ensures View() == Step(old(View()), RunAttempt(isCurrent, start))
      ensures delivers <==> Begins(old(View()), RunAttempt(isCurrent, start))
    {
      scheduled := scheduled - 1;
      if !isCurrent && (!attempted || retirementRetryUsed) {
        Settle(Rejected);
        return false;
      }
      if !isCurrent {
        retirementRetryUsed := true;
        begunRetired := begunRetired + 1;
      }
      attempted := true;
      begun := begun + 1;
      delivers := true;
      if start.Promises? {
        inFlight := inFlight + 1;
      } else {
        Failed(isCurrent);
      }
    }

    method DeliverySettled(ok: bool, isCurrent: bool)
      requires inFlight > 0
      modifies this
      ensures View() == Step(old(View()), Settles(ok, isCurrent))
    {
      inFlight := inFlight - 1;
      if ok {
        succeeded := succeeded + 1;
        Settle(Fulfilled);
      } else {
        Failed(isCurrent);
      }
    }

    method Failed(isCurrent: bool)
      modifies this`scheduled, this`settlements, this`outcome
      ensures View() == FailedDelivery(old(View()), isCurrent)
    {
      if isCurrent || !retirementRetryUsed {
        scheduled := scheduled + 1;
      } else {
        Settle(Rejected);
      }
    }

    /** `resolve` or `reject`: only the first call settles the promise. */
    method Settle(outcome: Outcome)
      modifies this`settlements, this`outcome
      ensures View() == SettledAs(old(View()), outcome)
    {
      settlements := settlements + 1;
      if this.outcome == Pending {
        this.outcome := outcome;
      }
    }
  }
}
