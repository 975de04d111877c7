/**
 The registered barrier handler (packages/intercom/terminal-ordering-barrier.ts): its maps and its claims,
 and one method per synchronous section. Each is a step of the state machine in `TerminalOrderingBarriers`.
 */
module TerminalOrderingHandlers {
  import opened Sequences
  import Q = InboundIdleQueues
  import opened TerminalOrderingBarriers

  class TerminalOrderingBarrier {
    const queue: Q.InboundIdleQueue
    var drainedTargetsByTerminal: seq<Memory>
    var inFlightByTerminal: map<Terminal, nat>
    var owners: seq<Owner>
    var claims: seq<Q.InboundIdleClaim>
    ghost var handed: seq<Q.Entry>

    ghost function View(): State
      reads this, queue
    {
      State(queue.history, drainedTargetsByTerminal, inFlightByTerminal, owners, handed)
    }

    /** The k-th claim object is the queue's k-th claim and the k-th owner's. */
    ghost predicate ClaimsHeld()
      reads this, queue, claims
    {
      && queue.Valid() && |claims| == |owners|
      && forall k :: 0 <= k < |claims| ==>
           claims[k].queue == queue && claims[k].id == k && claims[k].Valid() && claims[k].entries == owners[k].selected
    }

    ghost predicate Valid()
      reads this, queue, claims
    {
      ClaimsHeld() && Invariant(View())
    }

    constructor (queue: Q.InboundIdleQueue)
      requires queue.Valid() && queue.history == Q.EMPTY
      ensures Valid() && this.queue == queue && View() == INITIAL
    {
      this.queue, drainedTargetsByTerminal, inFlightByTerminal, owners, claims, handed := queue, [], map[], [], [], [];
    }

    /**
     `handle`, for a parsed barrier, with the completion it leaves in the envelope. `outcome` is how the
     host's deliveries go while it runs. A retired handler, or an envelope that has a completion, is left alone.
     */
    method Handle(isCurrent: bool, completed: Option<nat>, terminal: Terminal, targets: seq<string>, at: int, mode: Mode, outcome: Outcome)
      returns (completion: Option<nat>)
      requires Valid()
      modifies this, queue
      ensures Valid()
      ensures isCurrent && completed.None? ==> View() == Step(old(View()), Barrier(terminal, targets, at, mode, outcome))
      ensures isCurrent && completed.None? ==> completion == Completion(old(View()), Barrier(terminal, targets, at, mode, outcome))
      ensures !isCurrent || completed.Some? ==> View() == old(View()) && completion == completed
    {
      if !isCurrent || completed.Some? {
        return completed;
      }
      ghost var before := View();
      StepKeepsInvariant(before, Barrier(terminal, targets, at, mode, outcome));
      if terminal in inFlightByTerminal {
        return Some(inFlightByTerminal[terminal]);
      }
      var pending := Without(targets, Recall(drainedTargetsByTerminal, terminal));
      if pending == [] {
        return None;
      }
      var o := |owners|;
      var claim := TakeClaim(terminal, pending, at, mode);
      Deliver(o, claim, outcome);
      completion := if o < |owners| && PromiseOf(owners[o]) == Unresolved then Some(o) else None;
    }

    /** Claims from the queue and registers the owner in flight. */
    method TakeClaim(terminal: Terminal, pending: seq<string>, at: int, mode: Mode) returns (claim: Q.InboundIdleClaim)
      requires ClaimsHeld() && |queue.history.claims| == |owners|
      modifies this`owners, this`claims, this`inFlightByTerminal, queue
      ensures ClaimsHeld() && View() == Claimed(old(View()), terminal, pending, at, mode)
      ensures fresh(claim) && claims == old(claims) + [claim] && !claim.settled
    {
      claim := queue.ClaimOrdinarySourceTargets(terminal.runId, pending, Some(at));
      var remembered := Recall(drainedTargetsByTerminal, terminal);
      inFlightByTerminal := inFlightByTerminal[terminal := |owners|];
      owners := owners + [Owner(terminal, pending, mode, claim.entries, remembered, 0, Running, false)];
      claims := claims + [claim];
    }

    method Deliver(o: nat, claim: Q.InboundIdleClaim, outcome: Outcome)
      requires ClaimsHeld() && o < |owners| && claims[o] == claim && !claim.settled && owners[o].sent == 0
      modifies this, queue, claim
      ensures ClaimsHeld() && View() == Started(old(View()), o, outcome)
    {
      if owners[o].mode == Each {
        DeliverEach(o, claim, outcome);
      } else if owners[o].mode == Batch && outcome.Thrown? {
        Fail(o, claim, RollbackIndex(None, 0));
      } else if owners[o].mode == Batch && outcome.Returned? {
        Send(o, |claim.entries|);
        Finish(o);
      }
    }

    /** The loop over the claimed messages of a barrier without `dispatch`. */
    method DeliverEach(o: nat, claim: Q.InboundIdleClaim, outcome: Outcome)
      requires ClaimsHeld() && o < |owners| && claims[o] == claim && !claim.settled
      requires owners[o].sent == 0 && owners[o].mode == Each
      modifies this, queue, claim
      ensures ClaimsHeld() && View() == Started(old(View()), o, outcome)
    {
      SendingNothing(View(), o);
      var index := 0;
      while index < |claim.entries|
        invariant 0 <= index <= |claim.entries| && View() == Sent(old(View()), o, index)
        invariant outcome.Returned? || index <= outcome.at
        invariant ClaimsHeld() && claims[o] == claim && !claim.settled
      {
        if outcome.Thrown? && outcome.at == index {
          Fail(o, claim, index);
          return;
        }
        if outcome.Pending? && outcome.at == index {
          return;
        }
        Send(o, index + 1);
        SendingMore(old(View()), o, index);
        index := index + 1;
      }
      Finish(o);
    }

    /** The host has the claim's messages up to the n-th. */
    method Send(o: nat, n: nat)
      requires ClaimsHeld() && o < |owners| && owners[o].sent <= n <= |owners[o].selected|
      modifies this`owners, this`handed
      ensures ClaimsHeld()
      ensures View() == Sent(old(View()), o, n) && |owners| == |old(owners)|
      ensures forall k :: 0 <= k < |owners| ==> owners[k].selected == old(owners)[k].selected
    {
      handed := handed + owners[o].selected[owners[o].sent..n];
      owners := owners[o := owners[o].(sent := n)];
    }

    /** `finish`. */
    method Finish(o: nat)
      requires o < |owners|
      modifies this`drainedTargetsByTerminal, this`owners, this`inFlightByTerminal
      ensures View() == Finished(old(View()), o) && |owners| == |old(owners)|
      ensures forall k :: 0 <= k < |owners| ==> owners[k].selected == old(owners)[k].selected
    {
      var owner := owners[o];
      ReleaseTerminal(o);
      if owner.mode != Each || owner.selected != [] {
        drainedTargetsByTerminal := Put(drainedTargetsByTerminal, Memory(owner.terminal, owner.remembered + ToSet(owner.targets)));
      }
      owners := owners[o := owner.(status := Succeeded)];
      assert View() == Remembering(old(View()), o);
      if |drainedTargetsByTerminal| > MAX_REMEMBERED {
        owners := Evicted(owners, drainedTargetsByTerminal[0].terminal);
        drainedTargetsByTerminal := drainedTargetsByTerminal[1..];
      }
    }

    /** The terminal is free for another owner, unless it already has one. */
    method ReleaseTerminal(o: nat)
      requires o < |owners|
      modifies this`inFlightByTerminal
      ensures inFlightByTerminal == Release(old(inFlightByTerminal), owners[o].terminal, o)
    {
      var terminal := owners[o].terminal;
      if terminal in inFlightByTerminal && inFlightByTerminal[terminal] == o {
        inFlightByTerminal := inFlightByTerminal - {terminal};
      }
    }

    /** A synchronous failure: roll back, then fail the ownership at once. */
    method Fail(o: nat, claim: Q.InboundIdleClaim, index: nat)
      requires ClaimsHeld() && o < |owners| && claims[o] == claim
      modifies this`owners, this`inFlightByTerminal, queue, claim
      ensures ClaimsHeld() && View() == OwnershipFailed(RolledBackTo(old(View()), o, index), o)
    {
      claim.RollbackFrom(index);
      owners := owners[o := owners[o].(status := Failed)];
      ReleaseTerminal(o);
    }

    /** A pending delivery was accepted. */
    method OnResolved(o: nat)
      requires Valid() && o < |owners| && owners[o].status == Running
      modifies this
      ensures Valid() && View() == Step(old(View()), SendSettled(o, true))
    {
      ResolvedKeeps(View(), o);
      Continue(o);
    }

    method Continue(o: nat)
      requires ClaimsHeld() && o < |owners| && owners[o].sent <= |owners[o].selected|
      modifies this`owners, this`handed, this`drainedTargetsByTerminal, this`inFlightByTerminal
      ensures ClaimsHeld() && View() == Resolved(old(View()), o)
    {
      var owner := owners[o];
      if owner.mode == Fallback && owner.sent == |owner.selected| {
        Finish(o);
      } else if owner.mode == Batch || (owner.mode == Each && owner.sent + 1 >= |owner.selected|) {
        Send(o, |owner.selected|);
        Finish(o);
      } else {
        Send(o, owner.sent + 1);
      }
    }

    /** A pending delivery was refused: the claim is rolled back to what was sent. */
    method OnRejected(o: nat)
      requires Valid() && o < |owners| && owners[o].status == Running
      modifies this, queue, claims[o]
      ensures Valid() && View() == Step(old(View()), SendSettled(o, false))
    {
      RolledBackKeeps(View(), o, FailureIndex(owners[o]));
      RollBack(o, claims[o], FailureIndex(owners[o]));
    }

    method RollBack(o: nat, claim: Q.InboundIdleClaim, index: nat)
      requires ClaimsHeld() && o < |owners| && claims[o] == claim
      modifies this`owners, queue, claim
      ensures ClaimsHeld() && View() == RolledBackTo(old(View()), o, index)
    {
      claim.RollbackFrom(index);
      owners := owners[o := owners[o].(status := Rejecting)];
    }

    /** `failOwnership`, once the rejection has travelled to the observer. */
    method FailOwnership(o: nat)
      requires Valid() && o < |owners| && owners[o].status == Rejecting
      modifies this
      ensures Valid() && View() == Step(old(View()), RejectionSettled(o))
    {
      FailedKeeps(View(), o);
      ReleaseTerminal(o);
      owners := owners[o := owners[o].(status := Failed)];
    }
  }
}
