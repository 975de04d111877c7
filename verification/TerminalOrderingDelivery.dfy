/**
 Delivery ahead of terminals, once and in order, as long as only arrivals come between a claim and its
 settlement (packages/intercom/terminal-ordering-barrier.ts, packages/intercom/subagent-relay.ts).
 */
module TerminalOrderingDelivery {
  import opened Sequences
  import Q = InboundIdleQueues
  import opened TerminalOrderingBarriers

  ghost predicate NoneRunning(s: State) {
    forall o :: 0 <= o < |s.owners| ==> s.owners[o].status != Running
  }

  /**
   Serial use: each message is enqueued once, and while a claim is being delivered nobody else claims
   from, takes from or clears the queue. Arrivals are always welcome.
   */
  ghost predicate Serial(s: State, event: Event) {
    match event
    case Barrier(terminal, targets, _, _, _) =>
      NoneRunning(s) || terminal in s.inFlight || PendingTargets(s.drained, terminal, targets) == []
    case OtherQueueUse(e) =>
      (match e
       case Enqueue(entry) => entry !in s.queue.arrived
       case _ => NoneRunning(s))
    case _ => true
  }

  ghost predicate SerialRun(s: State, events: seq<Event>)
    decreases |events|
  {
    events == [] || (Legal(events[0]) && Serial(s, events[0]) && SerialRun(Step(s, events[0]), events[1..]))
  }

  ghost function Gone(s: State): set<Q.Entry> {
    ToSet(s.queue.taken) + ToSet(s.handed)
  }

  /**
   While the last owner runs: it sent a prefix of its claim after `base`, and what it claimed, what it
   left behind and the arrivals since the n-th account for the queue.
   */
  ghost predicate Delivering(s: State, n: nat, base: seq<Q.Entry>)
    requires |s.owners| == |s.queue.claims| > 0
  {
    var owner, claim := s.owners[|s.owners| - 1], s.queue.claims[|s.owners| - 1];
    var gone := ToSet(s.queue.taken) + ToSet(base);
    && n <= |s.queue.arrived| && owner.sent <= |owner.selected|
    && s.handed == base + owner.selected[..owner.sent]
    && Distinct(s.queue.taken + base) && gone <= ToSet(s.queue.arrived[..n])
    && claim.original == Without(s.queue.arrived[..n], gone)
    && claim.selected == owner.selected && Distinct(owner.selected) && ToSet(owner.selected) <= ToSet(claim.original)
    && s.queue.entries == Without(claim.original, ToSet(owner.selected)) + s.queue.arrived[n..]
  }

  /** Nothing was given out twice, and the queue is what arrived minus what was given out, in order of arrival. */
  ghost predicate Accounted(arrived: seq<Q.Entry>, taken: seq<Q.Entry>, handed: seq<Q.Entry>, entries: seq<Q.Entry>) {
    && Distinct(taken + handed) && ToSet(taken) + ToSet(handed) <= ToSet(arrived)
    && entries == Without(arrived, ToSet(taken) + ToSet(handed))
  }

  ghost predicate Settled(s: State) {
    Accounted(s.queue.arrived, s.queue.taken, s.handed, s.queue.entries)
  }

  ghost predicate Conserved(s: State) {
    && |s.owners| == |s.queue.claims| && Distinct(s.queue.arrived)
    && (forall o :: 0 <= o < |s.owners| - 1 ==> s.owners[o].status != Running)
    && (forall o :: 0 <= o < |s.owners| && s.owners[o].status == Running && s.owners[o].mode == Batch ==> s.owners[o].sent == 0)
    && if NoneRunning(s) then Settled(s) else exists n: nat, base: seq<Q.Entry> :: Delivering(s, n, base)
  }

  lemma {:induction false} DroppedFromArrivals(arrived: seq<Q.Entry>, n: nat, gone: set<Q.Entry>, more: set<Q.Entry>)
    requires Distinct(arrived) && n <= |arrived| && gone + more <= ToSet(arrived[..n])
    ensures Without(Without(arrived[..n], gone), more) + arrived[n..] == Without(arrived, gone + more)
  {
    assert arrived == arrived[..n] + arrived[n..];
    WithoutTwice(arrived[..n], gone, more);
    WithoutConcat(arrived[..n], arrived[n..], gone + more);
    DistinctConcat(arrived[..n], arrived[n..]);
    WithoutNone(arrived[n..], gone + more);
  }

  lemma {:induction false} ClaimedDelivers(s: State, terminal: Terminal, targets: seq<string>, at: int, mode: Mode)
    requires |s.owners| == |s.queue.claims| && Distinct(s.queue.arrived) && Settled(s)
    ensures Delivering(Claimed(s, terminal, targets, at, mode), |s.queue.arrived|, s.handed)
  {
    var original := s.queue.entries;
    var chosen := Q.SelectedSet(original, terminal.runId, ToSet(targets), Some(at));
    var selected := Within(original, chosen);
    SelectionDistinct(s.queue.arrived, Gone(s));
    SelectionDistinct(original, chosen);
    Members(original, chosen);
    WithoutSame(original, chosen, ToSet(selected));
    var arrived := s.queue.arrived;
    assert arrived[..|arrived|] == arrived && arrived[|arrived|..] == [];
    assert s.handed + selected[..0] == s.handed;
  }

  lemma {:induction false} SentDelivers(s: State, o: nat, k: nat, n: nat, base: seq<Q.Entry>)
    requires |s.owners| == |s.queue.claims| > 0 && o == |s.owners| - 1 && Delivering(s, n, base)
    requires s.owners[o].sent <= k <= |s.owners[o].selected|
    ensures Delivering(Sent(s, o, k), n, base)
  {
    var owner := s.owners[o];
    assert owner.selected[..k] == owner.selected[..owner.sent] + owner.selected[owner.sent..k];
    assert base + owner.selected[..k] == s.handed + owner.selected[owner.sent..k];
  }

  lemma {:induction false} GivesOnce(taken: seq<Q.Entry>, base: seq<Q.Entry>, arrived: seq<Q.Entry>, selected: seq<Q.Entry>, sent: nat)
    requires Distinct(taken + base) && ToSet(taken) + ToSet(base) <= ToSet(arrived)
    requires Distinct(selected) && ToSet(selected) <= ToSet(Without(arrived, ToSet(taken) + ToSet(base))) && sent <= |selected|
    ensures Distinct(taken + (base + selected[..sent]))
    ensures ToSet(base + selected[..sent]) == ToSet(base) + ToSet(selected[..sent])
    ensures ToSet(selected[..sent]) <= ToSet(arrived)
  {
    var part := selected[..sent];
    Members(arrived, ToSet(taken) + ToSet(base));
    assert forall e :: e in part ==> e in ToSet(selected);
    DistinctConcat(part, selected[sent..]);
    assert part + selected[sent..] == selected;
    DistinctConcat(taken + base, part);
    assert taken + (base + part) == (taken + base) + part;
  }

  /** What a delivery has given out so far was given out once, and had arrived before the claim. */
  lemma {:induction false} DeliveryGivesOnce(s: State, n: nat, base: seq<Q.Entry>)
    requires |s.owners| == |s.queue.claims| > 0 && Delivering(s, n, base)
    ensures Distinct(s.queue.taken + s.handed) && Gone(s) <= ToSet(s.queue.arrived[..n])
    ensures var owner := s.owners[|s.owners| - 1];
      Gone(s) == ToSet(s.queue.taken) + ToSet(base) + ToSet(owner.selected[..owner.sent])
  {
    var owner := s.owners[|s.owners| - 1];
    GivesOnce(s.queue.taken, base, s.queue.arrived[..n], owner.selected, owner.sent);
  }

  /** What a rollback to what was sent puts in the queue. */
  lemma {:induction false} RolledBackEntries(s: State, n: nat, base: seq<Q.Entry>)
    requires |s.owners| == |s.queue.claims| > 0 && Delivering(s, n, base) && Distinct(s.queue.arrived)
    ensures var claim, owner := s.queue.claims[|s.owners| - 1], s.owners[|s.owners| - 1];
      Q.RolledBack(claim.original, claim.selected, s.queue.entries, owner.sent)
        == Without(claim.original, ToSet(owner.selected[..owner.sent])) + s.queue.arrived[n..]
  {
    var claim, owner := s.queue.claims[|s.owners| - 1], s.owners[|s.owners| - 1];
    ArrivalsAreNew(s.queue.arrived, n, ToSet(s.queue.taken) + ToSet(base));
    Q.RollbackAfterArrivals(claim.original, owner.selected, s.queue.arrived[n..], owner.sent);
  }

  /** The undelivered rest back in place, then the later arrivals: that is everything not given out. */
  lemma {:induction false} RestBackAccounts(s: State, n: nat, base: seq<Q.Entry>)
    requires |s.owners| == |s.queue.claims| > 0 && Delivering(s, n, base) && Distinct(s.queue.arrived)
    ensures var claim, owner := s.queue.claims[|s.owners| - 1], s.owners[|s.owners| - 1];
      Accounted(s.queue.arrived, s.queue.taken, s.handed,
                Without(claim.original, ToSet(owner.selected[..owner.sent])) + s.queue.arrived[n..])
  {
    var owner := s.owners[|s.owners| - 1];
    var gone, sent := ToSet(s.queue.taken) + ToSet(base), ToSet(owner.selected[..owner.sent]);
    DeliveryGivesOnce(s, n, base);
    ArrivalsAreNew(s.queue.arrived, n, gone);
    DroppedFromArrivals(s.queue.arrived, n, gone, sent);
  }

  /** Rolling back to what was sent leaves the queue settled. */
  lemma {:induction false} RollbackEnds(s: State, n: nat, base: seq<Q.Entry>)
    requires |s.owners| == |s.queue.claims| > 0 && Delivering(s, n, base) && Distinct(s.queue.arrived)
    requires !s.queue.claims[|s.owners| - 1].settled
    ensures var o := |s.owners| - 1; Settled(RolledBackTo(s, o, s.owners[o].sent))
  {
    RestBackAccounts(s, n, base);
    RolledBackEntries(s, n, base);
    RollbackOnlyRefills(s, |s.owners| - 1, s.owners[|s.owners| - 1].sent);
  }

  lemma RollbackOnlyRefills(s: State, o: nat, index: nat)
    requires o < |s.owners| == |s.queue.claims| && !s.queue.claims[o].settled
    ensures var t, claim := RolledBackTo(s, o, index), s.queue.claims[o];
      && t.queue.entries == Q.RolledBack(claim.original, claim.selected, s.queue.entries, index)
      && t.queue.arrived == s.queue.arrived && t.queue.taken == s.queue.taken && t.handed == s.handed
  {
  }

  /** So does having sent all. */
  lemma {:induction false} SuccessEnds(s: State, n: nat, base: seq<Q.Entry>)
    requires |s.owners| == |s.queue.claims| > 0 && Delivering(s, n, base) && Distinct(s.queue.arrived)
    requires s.owners[|s.owners| - 1].sent == |s.owners[|s.owners| - 1].selected|
    ensures Settled(s)
  {
    var owner := s.owners[|s.owners| - 1];
    assert owner.selected[..owner.sent] == owner.selected;
    RestBackAccounts(s, n, base);
  }

  lemma ArrivalsAreNew(arrived: seq<Q.Entry>, n: nat, gone: set<Q.Entry>)
    requires Distinct(arrived) && n <= |arrived|
    ensures ToSet(arrived[..n]) <= ToSet(arrived)
    ensures forall e :: e in arrived[n..] ==> e !in Without(arrived[..n], gone)
  {
    assert arrived == arrived[..n] + arrived[n..];
    DistinctConcat(arrived[..n], arrived[n..]);
    Members(arrived[..n], gone);
  }

  ghost predicate OnlyLastRuns(s: State) {
    && |s.owners| == |s.queue.claims| > 0 && Distinct(s.queue.arrived)
    && (forall o :: 0 <= o < |s.owners| - 1 ==> s.owners[o].status != Running)
    && s.owners[|s.owners| - 1].status == Running && !s.queue.claims[|s.owners| - 1].settled
  }

  lemma {:induction false} FinishedConserves(s: State)
    requires OnlyLastRuns(s) && Settled(s)
    ensures Conserved(Finished(s, |s.owners| - 1))
  {
    var t := Finished(s, |s.owners| - 1);
    assert forall o :: 0 <= o < |t.owners| ==> t.owners[o].status == if o == |s.owners| - 1 then Succeeded else s.owners[o].status;
    assert NoneRunning(t);
  }

  lemma {:induction false} RolledBackConserves(s: State)
    requires OnlyLastRuns(s) && var o := |s.owners| - 1; Settled(RolledBackTo(s, o, s.owners[o].sent))
    ensures var o := |s.owners| - 1; Conserved(RolledBackTo(s, o, s.owners[o].sent))
    ensures var o := |s.owners| - 1; Conserved(OwnershipFailed(RolledBackTo(s, o, s.owners[o].sent), o))
  {
    var o := |s.owners| - 1;
    var t := RolledBackTo(s, o, s.owners[o].sent);
    assert NoneRunning(t) && NoneRunning(OwnershipFailed(t, o));
  }

  /** Going on: k messages of the claim are out, more may follow. */
  lemma {:induction false} WaitingConserves(s: State, k: nat, n: nat, base: seq<Q.Entry>)
    requires OnlyLastRuns(s) && Delivering(s, n, base)
    requires var owner := s.owners[|s.owners| - 1];
      owner.sent <= k <= |owner.selected| && (owner.mode == Batch ==> k == 0)
    ensures Conserved(Sent(s, |s.owners| - 1, k))
  {
    var t := Sent(s, |s.owners| - 1, k);
    SentDelivers(s, |s.owners| - 1, k, n, base);
    assert t.owners[|s.owners| - 1].status == Running;
  }

  /** Success: the whole claim is out. */
  lemma {:induction false} SuccessConserves(s: State, n: nat, base: seq<Q.Entry>)
    requires OnlyLastRuns(s) && Delivering(s, n, base)
    ensures var o := |s.owners| - 1; Conserved(Finished(Sent(s, o, |s.owners[o].selected|), o))
  {
    var o := |s.owners| - 1;
    var t := Sent(s, o, |s.owners[o].selected|);
    SentDelivers(s, o, |s.owners[o].selected|, n, base);
    SuccessEnds(t, n, base);
    FinishedConserves(t);
  }

  /** Failure after k messages: the rest of the claim is back in place. */
  lemma {:induction false} FailureConserves(s: State, k: nat, n: nat, base: seq<Q.Entry>)
    requires OnlyLastRuns(s) && Delivering(s, n, base)
    requires var owner := s.owners[|s.owners| - 1]; owner.sent <= k <= |owner.selected|
    ensures var o := |s.owners| - 1; Conserved(RolledBackTo(Sent(s, o, k), o, k))
    ensures var o := |s.owners| - 1; Conserved(OwnershipFailed(RolledBackTo(Sent(s, o, k), o, k), o))
  {
    var o := |s.owners| - 1;
    var t := Sent(s, o, k);
    SentDelivers(s, o, k, n, base);
    RollbackEnds(t, n, base);
    RolledBackConserves(t);
  }

  /** The three ways a delivery step can end: more to come, all sent, or the rest rolled back. */
  predicate Waits(owner: Owner, outcome: Outcome) {
    owner.mode == Fallback || (outcome.Pending? && (owner.mode == Batch || outcome.at < |owner.selected|))
  }

  lemma StartedIs(s: State, o: nat, outcome: Outcome)
    requires o < |s.owners| && s.owners[o].sent == 0
    ensures var owner := s.owners[o];
      var k := if owner.mode == Each && !outcome.Returned? then outcome.at else 0;
      Started(s, o, outcome) ==
        if Waits(owner, outcome) then Sent(s, o, k)
        else if outcome.Returned? || (owner.mode == Each && k >= |owner.selected|) then
          Finished(Sent(s, o, |owner.selected|), o)
        else OwnershipFailed(RolledBackTo(Sent(s, o, k), o, k), o)
  {
    SendingNothing(s, o);
  }

  lemma {:induction false} StartedConserves(s: State, outcome: Outcome, n: nat, base: seq<Q.Entry>)
    requires OnlyLastRuns(s) && Delivering(s, n, base) && s.owners[|s.owners| - 1].sent == 0
    ensures Conserved(Started(s, |s.owners| - 1, outcome))
  {
    var owner := s.owners[|s.owners| - 1];
    var k := if owner.mode == Each && !outcome.Returned? then outcome.at else 0;
    StartedIs(s, |s.owners| - 1, outcome);
    if Waits(owner, outcome) {
      WaitingConserves(s, k, n, base);
    } else if outcome.Returned? || (owner.mode == Each && k >= |owner.selected|) {
      SuccessConserves(s, n, base);
    } else {
      FailureConserves(s, k, n, base);
    }
  }

  lemma {:induction false} ResolvedConserves(s: State, n: nat, base: seq<Q.Entry>)
    requires OnlyLastRuns(s) && Delivering(s, n, base)
    requires s.owners[|s.owners| - 1].mode == Batch ==> s.owners[|s.owners| - 1].sent == 0
    ensures Conserved(Resolved(s, |s.owners| - 1))
  {
    var o := |s.owners| - 1;
    var owner := s.owners[o];
    ResolvedIs(s, o);
    if owner.mode != Batch && owner.sent + (if owner.mode == Each then 1 else 0) < |owner.selected| {
      WaitingConserves(s, owner.sent + 1, n, base);
    } else {
      SuccessConserves(s, n, base);
    }
  }

  /** The delivered count an owner's error reports is what it sent. */
  lemma {:induction false} RejectedConserves(s: State, n: nat, base: seq<Q.Entry>)
    requires OnlyLastRuns(s) && Delivering(s, n, base)
    requires s.owners[|s.owners| - 1].mode == Batch ==> s.owners[|s.owners| - 1].sent == 0
    ensures var o := |s.owners| - 1;
      FailureIndex(s.owners[o]) == s.owners[o].sent && Conserved(RolledBackTo(s, o, FailureIndex(s.owners[o])))
  {
    var owner := s.owners[|s.owners| - 1];
    ReportedIsSent(owner);
    SendingNothing(s, |s.owners| - 1);
    FailureConserves(s, owner.sent, n, base);
  }

  // ----- Others use the queue --------------------------------------------------------------

  lemma {:induction false} EnqueueSettles(s: State, entry: Q.Entry)
    requires Settled(s) && entry !in s.queue.arrived
    ensures Settled(Step(s, OtherQueueUse(Q.Enqueue(entry))))
  {
    WithoutConcat(s.queue.arrived, [entry], Gone(s));
    WithoutNone([entry], Gone(s));
  }

  lemma {:induction false} EnqueueDelivers(s: State, entry: Q.Entry, n: nat, base: seq<Q.Entry>)
    requires |s.owners| == |s.queue.claims| > 0 && Delivering(s, n, base)
    ensures Delivering(Step(s, OtherQueueUse(Q.Enqueue(entry))), n, base)
  {
    var t := Step(s, OtherQueueUse(Q.Enqueue(entry)));
    assert t.queue.arrived[..n] == s.queue.arrived[..n];
    assert t.queue.arrived[n..] == s.queue.arrived[n..] + [entry];
  }

  lemma {:induction false} EnqueueConserves(s: State, entry: Q.Entry)
    requires Conserved(s) && entry !in s.queue.arrived
    ensures Conserved(Step(s, OtherQueueUse(Q.Enqueue(entry))))
  {
    var t := Step(s, OtherQueueUse(Q.Enqueue(entry)));
    DistinctConcat(s.queue.arrived, [entry]);
    if NoneRunning(s) {
      EnqueueSettles(s, entry);
      assert NoneRunning(t);
    } else {
      var n: nat, base :| Delivering(s, n, base);
      EnqueueDelivers(s, entry, n, base);
      assert !NoneRunning(t);
    }
  }

  /** Taking some of the queued messages, each once, out of a settled queue. */
  lemma {:induction false} TakingSettles(s: State, t: State, taken: seq<Q.Entry>)
    requires Distinct(s.queue.arrived) && Settled(s) && Distinct(taken) && ToSet(taken) <= ToSet(s.queue.entries)
    requires t.queue.taken == s.queue.taken + taken && t.handed == s.handed && t.queue.arrived == s.queue.arrived
    requires t.queue.entries == Without(s.queue.entries, ToSet(taken))
    ensures Settled(t)
  {
    Members(s.queue.arrived, Gone(s));
    WithoutTwice(s.queue.arrived, Gone(s), ToSet(taken));
    assert forall e :: e in taken ==> e in ToSet(taken);
    TakenOnce(s.queue.taken, s.handed, taken);
    assert Gone(t) == Gone(s) + ToSet(taken);
  }

  lemma {:induction false} TakingConserves(s: State, e: Q.Event)
    requires Conserved(s) && NoneRunning(s) && (e.Remove? || e.Drain? || e.Clear?)
    ensures Conserved(Step(s, OtherQueueUse(e)))
  {
    var t, entries := Step(s, OtherQueueUse(e)), s.queue.entries;
    SelectionDistinct(s.queue.arrived, Gone(s));
    assert NoneRunning(t);
    if e.Remove? {
      if e.entry in entries {
        RemoveFirstIsWithout(entries, e.entry);
        assert ToSet([e.entry]) == {e.entry};
        TakingSettles(s, t, [e.entry]);
      }
    } else {
      WithoutAll(entries, ToSet(entries));
      TakingSettles(s, t, entries);
    }
  }

  lemma {:induction false} TakenOnce(taken: seq<Q.Entry>, handed: seq<Q.Entry>, more: seq<Q.Entry>)
    requires Distinct(taken + handed) && Distinct(more)
    requires forall e :: e in more ==> e !in taken && e !in handed
    ensures Distinct(taken + more + handed)
    ensures ToSet(taken + more) == ToSet(taken) + ToSet(more)
  {
    DistinctConcat(taken, handed);
    DistinctConcat(taken, more);
    DistinctConcat(taken + more, handed);
  }

  lemma {:induction false} ClaimedRuns(s: State, terminal: Terminal, targets: seq<string>, at: int, mode: Mode)
    requires |s.owners| == |s.queue.claims| && Distinct(s.queue.arrived) && NoneRunning(s)
    ensures OnlyLastRuns(Claimed(s, terminal, targets, at, mode))
  {
  }

  lemma {:induction false} BarrierConserves(s: State, event: Event)
    requires Invariant(s) && Conserved(s) && event.Barrier? && Serial(s, event)
    ensures Conserved(Step(s, event))
  {
    var pending := PendingTargets(s.drained, event.terminal, event.targets);
    if event.terminal !in s.inFlight && pending != [] {
      var t := Claimed(s, event.terminal, pending, event.at, event.mode);
      ClaimedDelivers(s, event.terminal, pending, event.at, event.mode);
      ClaimedRuns(s, event.terminal, pending, event.at, event.mode);
      StartedConserves(t, event.outcome, |s.queue.arrived|, s.handed);
    }
  }

  lemma {:induction false} SettlementConserves(s: State, o: nat, ok: bool)
    requires Invariant(s) && Conserved(s)
    ensures Conserved(Step(s, SendSettled(o, ok)))
  {
    if o < |s.owners| && s.owners[o].status == Running {
      assert OnlyLastRuns(s) && o == |s.owners| - 1;
      var n: nat, base :| Delivering(s, n, base);
      if ok {
        ResolvedConserves(s, n, base);
      } else {
        RejectedConserves(s, n, base);
      }
    }
  }

  lemma {:induction false} StepConserves(s: State, event: Event)
    requires Invariant(s) && Conserved(s) && Legal(event) && Serial(s, event)
    ensures Conserved(Step(s, event))
  {
    match event {
      case Barrier(_, _, _, _, _) => BarrierConserves(s, event);
      case SendSettled(o, ok) => SettlementConserves(s, o, ok);
      case RejectionSettled(o) => RejectionConserves(s, o);
      case OtherQueueUse(e) =>
        if e.Enqueue? {
          EnqueueConserves(s, e.entry);
        } else {
          TakingConserves(s, e);
        }
    }
  }

  lemma {:induction false} RejectionSettles(s: State, o: nat)
    requires Conserved(s) && NoneRunning(s) && o < |s.owners|
    ensures Conserved(OwnershipFailed(s, o))
  {
    var t := OwnershipFailed(s, o);
    assert forall i :: 0 <= i < |s.owners| && i != o ==> t.owners[i] == s.owners[i];
    assert NoneRunning(t) && Settled(t);
  }

  lemma {:induction false} RejectionDelivers(s: State, o: nat)
    requires Conserved(s) && !NoneRunning(s) && o < |s.owners| && s.owners[o].status == Rejecting
    ensures Conserved(OwnershipFailed(s, o))
  {
    var t := OwnershipFailed(s, o);
    var n: nat, base :| Delivering(s, n, base);
    assert s.owners[|s.owners| - 1].status == Running;
    assert t.owners[|s.owners| - 1] == s.owners[|s.owners| - 1];
    assert forall i :: 0 <= i < |s.owners| && i != o ==> t.owners[i] == s.owners[i];
    assert Delivering(t, n, base);
    assert !NoneRunning(t);
  }

  lemma {:induction false} RejectionConserves(s: State, o: nat)
    requires Conserved(s)
    ensures Conserved(Step(s, RejectionSettled(o)))
  {
    if o < |s.owners| && s.owners[o].status == Rejecting {
      if NoneRunning(s) {
        RejectionSettles(s, o);
      } else {
        RejectionDelivers(s, o);
      }
    }
  }

  lemma {:induction false} SerialRunConserves(s: State, events: seq<Event>)
    requires Invariant(s) && Conserved(s) && SerialRun(s, events)
    ensures Invariant(Run(s, events)) && Conserved(Run(s, events))
    decreases |events|
  {
    if events != [] {
      StepKeepsInvariant(s, events[0]);
      StepConserves(s, events[0]);
      SerialRunConserves(Step(s, events[0]), events[1..]);
    }
  }

  lemma InitiallySound()
    ensures Invariant(INITIAL) && Conserved(INITIAL)
  {
    assert NoneRunning(INITIAL);
  }

  ghost predicate GivenOutOnce(s: State) {
    && Distinct(s.queue.taken + s.handed)
    && (NoneRunning(s) ==> s.queue.entries == Without(s.queue.arrived, ToSet(s.queue.taken) + ToSet(s.handed)))
  }

  lemma {:induction false} ConservedGivesOnce(s: State)
    requires Conserved(s)
    ensures GivenOutOnce(s)
  {
    if !NoneRunning(s) {
      var n: nat, base :| Delivering(s, n, base);
      DeliveryGivesOnce(s, n, base);
    }
  }

  /**
   In every serial run, whatever fails and wherever: no message is given out twice, be it ahead of a
   terminal, by a retry of one, or by a drain; and whenever no delivery is under way the queue holds
   exactly the other arrivals, in order of arrival.
   */
  lemma {:induction false} SerialRunsDeliverOnceInOrder(events: seq<Event>)
    requires SerialRun(INITIAL, events)
    ensures GivenOutOnce(Run(INITIAL, events))
  {
    InitiallySound();
    SerialRunConserves(INITIAL, events);
    ConservedGivesOnce(Run(INITIAL, events));
  }

  /** Handed over: `base`, then a prefix of the claim; back in the queue: the rest of it, in place, then the n-th and later arrivals. */
  ghost predicate PrefixOutRestBack(s: State, failed: State, base: seq<Q.Entry>, n: nat)
    requires |s.owners| == |s.queue.claims| > 0 && s.owners[|s.owners| - 1].sent <= |s.owners[|s.owners| - 1].selected|
  {
    var owner, original := s.owners[|s.owners| - 1], s.queue.claims[|s.owners| - 1].original;
    && n <= |s.queue.arrived|
    && failed.handed == base + owner.selected[..owner.sent]
    && failed.queue.entries == Without(original, ToSet(owner.selected[..owner.sent])) + s.queue.arrived[n..]
    && s.queue.entries == Without(original, ToSet(owner.selected)) + s.queue.arrived[n..]
  }

  lemma {:induction false} RollbackRestores(s: State, n: nat, base: seq<Q.Entry>)
    requires OnlyLastRuns(s) && Delivering(s, n, base)
    ensures PrefixOutRestBack(s, RolledBackTo(s, |s.owners| - 1, s.owners[|s.owners| - 1].sent), base, n)
  {
    RolledBackEntries(s, n, base);
    RollbackOnlyRefills(s, |s.owners| - 1, s.owners[|s.owners| - 1].sent);
  }

  lemma ReportedIsSent(owner: Owner)
    requires owner.mode == Batch ==> owner.sent == 0
    ensures FailureIndex(owner) == owner.sent
  {
    assert (owner.sent as real).Floor == owner.sent;
  }

  lemma {:induction false} RejectionRestores(s: State, n: nat, base: seq<Q.Entry>)
    requires OnlyLastRuns(s) && Delivering(s, n, base)
    requires s.owners[|s.owners| - 1].mode == Batch ==> s.owners[|s.owners| - 1].sent == 0
    ensures var o := |s.owners| - 1;
      FailureIndex(s.owners[o]) == s.owners[o].sent && PrefixOutRestBack(s, Step(s, SendSettled(o, false)), base, n)
  {
    ReportedIsSent(s.owners[|s.owners| - 1]);
    RollbackRestores(s, n, base);
  }

  /**
   Where a failure would leave the running delivery: what the claim handed over is a prefix of it in
   queue order, the error reports its length, and the rest is back at its old positions ahead of the
   new arrivals.
   */
  ghost predicate FailsInPlace(s: State) {
    && |s.owners| == |s.queue.claims| > 0
    && var o := |s.owners| - 1;
    && s.owners[o].status == Running && s.owners[o].sent <= |s.owners[o].selected|
    && FailureIndex(s.owners[o]) == s.owners[o].sent
    && exists base: seq<Q.Entry>, n: nat :: PrefixOutRestBack(s, Step(s, SendSettled(o, false)), base, n)
  }

  lemma {:induction false} ConservedFailsInPlace(s: State)
    requires Invariant(s) && Conserved(s) && !NoneRunning(s)
    ensures FailsInPlace(s)
  {
    var n: nat, base :| Delivering(s, n, base);
    assert OnlyLastRuns(s);
    RejectionRestores(s, n, base);
  }

  /** This holds at every failure point of every serial run. */
  lemma {:induction false} FailureRestoresPositions(events: seq<Event>)
    requires SerialRun(INITIAL, events) && !NoneRunning(Run(INITIAL, events))
    ensures FailsInPlace(Run(INITIAL, events))
  {
    InitiallySound();
    SerialRunConserves(INITIAL, events);
    ConservedFailsInPlace(Run(INITIAL, events));
  }
}
