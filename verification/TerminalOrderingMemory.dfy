/**
 What the barrier claims, and what it remembers of it (packages/intercom/terminal-ordering-barrier.ts):
 which messages go ahead of a terminal, which successes are remembered, and when they are forgotten.
 */
module TerminalOrderingMemory {
  import opened Sequences
  import Q = InboundIdleQueues
  import opened TerminalOrderingBarriers

  // ----- What a barrier claims -------------------------------------------------------------

  /**
   An entry that goes ahead of a terminal: no ask, not later than it, and from one of the targets: of the
   terminal's run, or untagged with a target's id or with a target's name that only one untagged sender has.
   */
  ghost predicate GoesAhead(e: Q.Entry, queued: seq<Q.Entry>, terminal: Terminal, targets: seq<string>, at: int) {
    && !e.expectsReply && e.timestamp <= at
    && (|| (e.runId == Some(terminal.runId) && (e.from.id in targets || (e.from.name.Some? && e.from.name.value in targets)))
        || (e.runId.None? && e.from.id in targets)
        || (e.runId.None? && e.from.name.Some? && e.from.name.value in targets
            && forall f :: f in queued && f.runId.None? && f.from.name == e.from.name ==> f.from.id == e.from.id))
  }

  /**
   A barrier whose terminal is not in flight, and that names a target not remembered, makes one owner: for
   exactly the targets not remembered, and with exactly the queued messages that go ahead of it, in the
   queue's order. Any other barrier makes none.
   */
  lemma {:induction false} BarrierClaimsExactly(s: State, event: Event)
    requires event.Barrier? && |s.owners| == |s.queue.claims|
    ensures var t := Step(s, event);
      var owns := event.terminal !in s.inFlight && exists target :: target in event.targets && target !in Recall(s.drained, event.terminal);
      && |t.owners| == |s.owners| + (if owns then 1 else 0)
      && (owns ==>
            var owner := t.owners[|s.owners|];
            && owner.terminal == event.terminal && owner.mode == event.mode
            && (forall target :: target in owner.targets <==> target in event.targets && target !in Recall(s.drained, event.terminal))
            && Subsequence(owner.selected, s.queue.entries)
            && (forall e :: e in owner.selected <==> e in s.queue.entries && GoesAhead(e, s.queue.entries, event.terminal, owner.targets, event.at)))
  {
    var pending := PendingTargets(s.drained, event.terminal, event.targets);
    Members(event.targets, Recall(s.drained, event.terminal));
    if event.terminal !in s.inFlight && pending != [] {
      assert pending[0] in event.targets && pending[0] !in Recall(s.drained, event.terminal);
      var claimed := Claimed(s, event.terminal, pending, event.at, event.mode);
      ClaimSelects(s, event.terminal, pending, event.at, event.mode);
      StartingKeepsClaim(claimed, |s.owners|, event.outcome);
    }
  }

  lemma {:induction false} ClaimSelects(s: State, terminal: Terminal, targets: seq<string>, at: int, mode: Mode)
    requires |s.owners| == |s.queue.claims|
    ensures var selected := Claimed(s, terminal, targets, at, mode).owners[|s.owners|].selected;
      && Subsequence(selected, s.queue.entries)
      && (forall e :: e in selected <==> e in s.queue.entries && GoesAhead(e, s.queue.entries, terminal, targets, at))
  {
    SelectedGoAhead(s.queue.entries, terminal, targets, at);
  }

  lemma {:induction false} SelectedGoAhead(queued: seq<Q.Entry>, terminal: Terminal, targets: seq<string>, at: int)
    ensures var selected := Q.Selected(queued, terminal.runId, ToSet(targets), Some(at));
      && Subsequence(selected, queued)
      && (forall e :: e in selected <==> e in queued && GoesAhead(e, queued, terminal, targets, at))
  {
    var selected := Q.Selected(queued, terminal.runId, ToSet(targets), Some(at));
    Q.ClaimSplitsQueue(queued, terminal.runId, ToSet(targets), Some(at));
    forall e
      ensures e in selected <==> e in queued && GoesAhead(e, queued, terminal, targets, at)
    {
      GoesAheadBySet(e, queued, terminal, targets, at);
    }
  }

  lemma {:induction false} GoesAheadBySet(e: Q.Entry, queued: seq<Q.Entry>, terminal: Terminal, targets: seq<string>, at: int)
    ensures var chosen := ToSet(targets);
      GoesAhead(e, queued, terminal, targets, at) <==> (
        && !e.expectsReply && e.timestamp <= at
        && (|| (e.runId == Some(terminal.runId) && (e.from.id in chosen || (e.from.name.Some? && e.from.name.value in chosen)))
            || (e.runId.None? && e.from.id in chosen)
            || (e.runId.None? && Q.UnambiguousName(e, queued) && e.from.name.value in chosen)))
  {
  }

  lemma {:induction false} FinishingKeepsClaims(s: State, o: nat, p: nat)
    requires o < |s.owners| && p < |s.owners|
    ensures SameClaim(s, Finished(s, o), p)
  {
  }

  ghost predicate SameClaim(s: State, t: State, p: nat)
    requires p < |s.owners|
  {
    && |t.owners| == |s.owners| && t.owners[p].terminal == s.owners[p].terminal && t.owners[p].mode == s.owners[p].mode
    && t.owners[p].targets == s.owners[p].targets && t.owners[p].selected == s.owners[p].selected
  }

  lemma {:induction false} StartingKeepsClaim(s: State, o: nat, outcome: Outcome)
    requires o < |s.owners| && s.owners[o].sent == 0
    ensures SameClaim(s, Started(s, o, outcome), o)
  {
    var all := |s.owners[o].selected|;
    FinishingKeepsClaims(Sent(s, o, all), o, o);
  }

  // ----- How an owner goes on --------------------------------------------------------------

  /** What an answer of the host, or the end of a rejection, makes of an owner: its status, and how many it has sent. */
  function After(owner: Owner, o: nat, event: Event): (Status, nat) {
    if event == SendSettled(o, false) && owner.status == Running then (Rejecting, owner.sent)
    else if event == RejectionSettled(o) && owner.status == Rejecting then (Failed, owner.sent)
    else if event == SendSettled(o, true) && owner.status == Running then
      // A batch is sent as a whole; the fallback ends with the terminal message, which is no message of the claim.
      if owner.mode == Batch then (Succeeded, |owner.selected|)
      else if owner.mode == Fallback && owner.sent == |owner.selected| then (Succeeded, owner.sent)
      else if owner.mode == Each && owner.sent + 1 >= |owner.selected| then (Succeeded, |owner.selected|)
      else (Running, owner.sent + 1)
    else (owner.status, owner.sent)
  }

  /**
   In every run, an owner goes on exactly as its own answers say and nothing else moves it; its terminal is in
   flight for it while it is running or rejecting, and free of it as soon as it is not.
   */
  lemma {:induction false} OwnersGoOnExactly(events: seq<Event>, event: Event, o: nat)
    requires LegalRun(events) && Legal(event) && o < |Run(INITIAL, events).owners|
    ensures var s, t := Run(INITIAL, events), Step(Run(INITIAL, events), event);
      && o < |t.owners| && (t.owners[o].status, t.owners[o].sent) == After(s.owners[o], o, event)
      && (t.owners[o].status == Running || t.owners[o].status == Rejecting <==>
            t.owners[o].terminal in t.inFlight && t.inFlight[t.owners[o].terminal] == o)
  {
    var s := Run(INITIAL, events);
    RunKeepsInvariant(INITIAL, events);
    StepKeepsInvariant(s, event);
    StepMoves(s, event, o);
    assert InFlightMatches(Step(s, event));
  }

  ghost predicate Moves(s: State, t: State, o: nat, status: Status, sent: nat) {
    o < |t.owners| && t.owners[o].status == status && t.owners[o].sent == sent
  }

  lemma {:induction false} FinishedMoves(s: State, p: nat, o: nat)
    requires p < |s.owners| && o < |s.owners|
    ensures Moves(s, Finished(s, p), o, if o == p then Succeeded else s.owners[o].status, s.owners[o].sent)
  {
  }

  lemma {:induction false} StartedMoves(s: State, p: nat, outcome: Outcome, o: nat)
    requires p < |s.owners| && o < |s.owners| && o != p && s.owners[p].sent == 0
    ensures Moves(s, Started(s, p, outcome), o, s.owners[o].status, s.owners[o].sent)
  {
    FinishedMoves(Sent(s, p, |s.owners[p].selected|), p, o);
  }

  lemma {:induction false} ResolvedMoves(s: State, p: nat, o: nat)
    requires p < |s.owners| && o < |s.owners| && s.owners[p].sent <= |s.owners[p].selected| && s.owners[p].status == Running
    ensures var (status, sent) := After(s.owners[o], o, SendSettled(p, true)); Moves(s, Resolved(s, p), o, status, sent)
  {
    FinishedMoves(Sent(s, p, |s.owners[p].selected|), p, o);
    FinishedMoves(s, p, o);
  }

  lemma {:induction false} StepMoves(s: State, event: Event, o: nat)
    requires Invariant(s) && o < |s.owners|
    ensures var (status, sent) := After(s.owners[o], o, event); Moves(s, Step(s, event), o, status, sent)
  {
    match event {
      case Barrier(terminal, targets, at, mode, outcome) =>
        var pending := PendingTargets(s.drained, terminal, targets);
        if terminal !in s.inFlight && pending != [] {
          StartedMoves(Claimed(s, terminal, pending, at, mode), |s.owners|, outcome, o);
        }
      case SendSettled(p, ok) =>
        if p < |s.owners| && s.owners[p].status == Running && ok {
          ResolvedMoves(s, p, o);
        }
      case _ =>
    }
  }

  /**
   How a new owner stands when its barrier returns: a batch is sent, thrown out or pending as a whole, the
   fallback is pending, and messages sent each by itself got as far as the first that threw or is pending.
   */
  lemma {:induction false} NewOwnerStandsExactly(s: State, event: Event)
    requires event.Barrier? && |Step(s, event).owners| > |s.owners|
    ensures var owner := Step(s, event).owners[|s.owners|];
      var all := |owner.selected|;
      (owner.status, owner.sent) ==
        match event.mode
        case Batch => (match event.outcome case Returned => (Succeeded, all) case Thrown(_) => (Failed, 0) case Pending(_) => (Running, 0))
        case Fallback => (Running, 0)
        case Each =>
          if event.outcome.Returned? || event.outcome.at >= all then (Succeeded, all)
          else (if event.outcome.Thrown? then Failed else Running, event.outcome.at)
  {
    var pending := PendingTargets(s.drained, event.terminal, event.targets);
    var claimed := Claimed(s, event.terminal, pending, event.at, event.mode);
    FinishedMoves(Sent(claimed, |s.owners|, |claimed.owners[|s.owners|].selected|), |s.owners|, |s.owners|);
    StartingKeepsClaim(claimed, |s.owners|, event.outcome);
  }

  // ----- What is remembered ----------------------------------------------------------------

  /** Something was delivered: `dispatch` was called, as it is for every barrier that brings one, or a message was handed over. */
  predicate DidDeliver(owner: Owner) {
    owner.mode == Batch || owner.mode == Fallback || owner.sent > 0
  }

  /** A successful owner of the terminal delivered something for this target. */
  ghost predicate Vouched(owners: seq<Owner>, terminal: Terminal, target: string) {
    exists o :: 0 <= o < |owners| && owners[o].terminal == terminal && target in owners[o].targets
      && owners[o].status == Succeeded && DidDeliver(owners[o])
  }

  /** Everything remembered is vouched for, and so is everything an owner found remembered. */
  ghost predicate MemoryVouched(s: State) {
    && (forall terminal, target :: target in Recall(s.drained, terminal) ==> Vouched(s.owners, terminal, target))
    && (forall o, target :: 0 <= o < |s.owners| && target in s.owners[o].remembered ==> Vouched(s.owners, s.owners[o].terminal, target))
  }

  /** Successful owners stay what they were. */
  ghost predicate KeepsSuccesses(before: seq<Owner>, after: seq<Owner>) {
    && |before| <= |after|
    && forall o :: 0 <= o < |before| ==> KeepsSuccess(before[o], after[o])
  }

  predicate KeepsSuccess(before: Owner, after: Owner) {
    && after.remembered == before.remembered && after.terminal == before.terminal
    && (before.status == Succeeded ==> after.status == Succeeded && after.targets == before.targets)
    && (before.status == Succeeded && DidDeliver(before) ==> DidDeliver(after))
  }

  lemma {:induction false} VouchingGrows(before: seq<Owner>, after: seq<Owner>, terminal: Terminal, target: string)
    requires KeepsSuccesses(before, after) && Vouched(before, terminal, target)
    ensures Vouched(after, terminal, target)
  {
    var o :| 0 <= o < |before| && before[o].terminal == terminal && target in before[o].targets
      && before[o].status == Succeeded && DidDeliver(before[o]);
    assert after[o].status == Succeeded;
  }

  /** As long as nothing new is remembered. */
  lemma {:induction false} NothingNewKeeps(s: State, t: State)
    requires MemoryVouched(s) && KeepsSuccesses(s.owners, t.owners)
    requires forall terminal :: Recall(t.drained, terminal) <= Recall(s.drained, terminal)
    requires forall o :: |s.owners| <= o < |t.owners| ==> t.owners[o].remembered <= Recall(s.drained, t.owners[o].terminal)
    ensures MemoryVouched(t)
  {
    forall terminal, target | target in Recall(t.drained, terminal)
      ensures Vouched(t.owners, terminal, target)
    {
      VouchingGrows(s.owners, t.owners, terminal, target);
    }
    forall o, target | 0 <= o < |t.owners| && target in t.owners[o].remembered
      ensures Vouched(t.owners, t.owners[o].terminal, target)
    {
      VouchingGrows(s.owners, t.owners, t.owners[o].terminal, target);
    }
  }

  lemma {:induction false} TrimmedVouched(s: State)
    requires MemoryVouched(s) && DistinctTerminals(s.drained)
    ensures MemoryVouched(Trimmed(s))
  {
    if |s.drained| > MAX_REMEMBERED {
      DropOldest(s.drained);
      RecallKnown(s.drained[1..], s.drained[0].terminal);
      NothingNewKeeps(s, Trimmed(s));
    }
  }

  lemma {:induction false} RecallKnown(drained: seq<Memory>, terminal: Terminal)
    ensures terminal !in Known(drained) ==> Recall(drained, terminal) == {}
  {
    if drained != [] {
      KnownCons(drained[0], drained[1..]);
      assert drained == [drained[0]] + drained[1..];
      RecallKnown(drained[1..], terminal);
    }
  }

  /** A success is remembered only if something was delivered. */
  lemma {:induction false} RememberingVouched(s: State, o: nat)
    requires MemoryVouched(s) && o < |s.owners| && s.owners[o].status != Succeeded
    requires s.owners[o].mode == Each ==> s.owners[o].sent == |s.owners[o].selected|
    ensures MemoryVouched(Remembering(s, o))
  {
    var owner, t := s.owners[o], Remembering(s, o);
    PutRecalls(s.drained, Memory(owner.terminal, owner.remembered + ToSet(owner.targets)));
    assert KeepsSuccesses(s.owners, t.owners);
    forall terminal, target | target in Recall(t.drained, terminal)
      ensures Vouched(t.owners, terminal, target)
    {
      if target in Recall(s.drained, terminal) || (terminal == owner.terminal && target in owner.remembered) {
        VouchingGrows(s.owners, t.owners, terminal, target);
      } else {
        assert t.owners[o].status == Succeeded && target in t.owners[o].targets;
      }
    }
    forall p, target | 0 <= p < |t.owners| && target in t.owners[p].remembered
      ensures Vouched(t.owners, t.owners[p].terminal, target)
    {
      VouchingGrows(s.owners, t.owners, t.owners[p].terminal, target);
    }
  }

  lemma {:induction false} FinishedVouched(s: State, o: nat)
    requires Invariant(s) && MemoryVouched(s) && o < |s.owners| && s.owners[o].status == Running
    requires s.owners[o].mode == Each ==> s.owners[o].sent == |s.owners[o].selected|
    ensures MemoryVouched(Finished(s, o))
  {
    RememberingKeeps(s, o);
    RememberingVouched(s, o);
    TrimmedVouched(Remembering(s, o));
  }

  lemma {:induction false} SentVouched(s: State, o: nat, n: nat)
    requires MemoryVouched(s) && o < |s.owners| && s.owners[o].sent <= n <= |s.owners[o].selected| && s.owners[o].status != Succeeded
    ensures MemoryVouched(Sent(s, o, n))
  {
    NothingNewKeeps(s, Sent(s, o, n));
  }

  lemma {:induction false} DeliveredVouched(s: State, o: nat)
    requires Invariant(s) && MemoryVouched(s) && o < |s.owners| && s.owners[o].status == Running
    ensures MemoryVouched(Finished(Sent(s, o, |s.owners[o].selected|), o))
  {
    SentKeeps(s, o, |s.owners[o].selected|);
    SentVouched(s, o, |s.owners[o].selected|);
    FinishedVouched(Sent(s, o, |s.owners[o].selected|), o);
  }

  lemma {:induction false} ThrownVouched(s: State, o: nat, n: nat, index: nat)
    requires MemoryVouched(s) && o < |s.owners| && s.owners[o].sent <= n <= |s.owners[o].selected| && s.owners[o].status == Running
    ensures MemoryVouched(OwnershipFailed(RolledBackTo(Sent(s, o, n), o, index), o))
  {
    NothingNewKeeps(s, OwnershipFailed(RolledBackTo(Sent(s, o, n), o, index), o));
  }

  lemma {:induction false} StartedVouched(s: State, o: nat, outcome: Outcome)
    requires Invariant(s) && MemoryVouched(s) && o < |s.owners| && s.owners[o].status == Running && s.owners[o].sent == 0
    ensures MemoryVouched(Started(s, o, outcome))
  {
    var owner := s.owners[o];
    DeliveredVouched(s, o);
    match owner.mode {
      case Batch =>
        assert Sent(s, o, 0) == s;
        ThrownVouched(s, o, 0, RollbackIndex(None, 0));
      case Fallback =>
      case Each =>
        if !outcome.Returned? && outcome.at < |owner.selected| {
          SentVouched(s, o, outcome.at);
          ThrownVouched(s, o, outcome.at, outcome.at);
        }
    }
  }

  lemma {:induction false} ClaimedVouched(s: State, terminal: Terminal, targets: seq<string>, at: int, mode: Mode)
    requires MemoryVouched(s)
    ensures MemoryVouched(Claimed(s, terminal, targets, at, mode))
  {
    NothingNewKeeps(s, Claimed(s, terminal, targets, at, mode));
  }

  lemma {:induction false} StepVouched(s: State, event: Event)
    requires Invariant(s) && MemoryVouched(s)
    ensures MemoryVouched(Step(s, event))
  {
    var t := Step(s, event);
    match event {
      case Barrier(terminal, targets, at, mode, outcome) =>
        var pending := PendingTargets(s.drained, terminal, targets);
        if terminal !in s.inFlight && pending != [] {
          Members(targets, Recall(s.drained, terminal));
          ClaimedKeeps(s, terminal, pending, at, mode);
          ClaimedVouched(s, terminal, pending, at, mode);
          StartedVouched(Claimed(s, terminal, pending, at, mode), |s.owners|, outcome);
        }
      case SendSettled(o, ok) =>
        if o < |s.owners| && s.owners[o].status == Running {
          if ok {
            ResolvedVouched(s, o);
          } else {
            NothingNewKeeps(s, t);
          }
        }
      case RejectionSettled(o) => NothingNewKeeps(s, t);
      case OtherQueueUse(e) => NothingNewKeeps(s, t);
    }
  }

  lemma {:induction false} ResolvedVouched(s: State, o: nat)
    requires Invariant(s) && MemoryVouched(s) && o < |s.owners| && s.owners[o].status == Running
    ensures MemoryVouched(Resolved(s, o))
  {
    var owner := s.owners[o];
    ResolvedIs(s, o);
    if owner.mode != Batch && owner.sent + (if owner.mode == Each then 1 else 0) < |owner.selected| {
      SentVouched(s, o, owner.sent + 1);
    } else {
      SentKeeps(s, o, |owner.selected|);
      SentVouched(s, o, |owner.selected|);
      FinishedVouched(Sent(s, o, |owner.selected|), o);
    }
  }

  lemma {:induction false} RunVouched(s: State, events: seq<Event>)
    requires Invariant(s) && MemoryVouched(s) && LegalRun(events)
    ensures MemoryVouched(Run(s, events))
    decreases |events|
  {
    if events != [] {
      StepKeepsInvariant(s, events[0]);
      StepVouched(s, events[0]);
      RunVouched(Step(s, events[0]), events[1..]);
    }
  }

  /** In every run, what is remembered for a terminal was delivered for it by a successful owner: an owner that delivered nothing adds nothing. */
  lemma {:induction false} OnlyDeliveriesAreRemembered(events: seq<Event>, terminal: Terminal, target: string)
    requires LegalRun(events) && target in Recall(Run(INITIAL, events).drained, terminal)
    ensures var owners := Run(INITIAL, events).owners;
      exists o :: 0 <= o < |owners| && owners[o].terminal == terminal && target in owners[o].targets && owners[o].status == Succeeded
        && (owners[o].mode == Batch || owners[o].mode == Fallback || owners[o].sent > 0)
  {
    RunVouched(INITIAL, events);
  }

  /**
   And in every run a successful owner that dispatched or handed over anything is remembered until its
   terminal is evicted: it shares no target with a later owner of the terminal, and its targets are not claimed again.
   */
  lemma {:induction false} DeliveriesAreRemembered(events: seq<Event>, o: nat)
    requires LegalRun(events) && o < |Run(INITIAL, events).owners|
    requires var owner := Run(INITIAL, events).owners[o];
      owner.status == Succeeded && !owner.evicted && (owner.mode == Batch || owner.mode == Fallback || owner.sent > 0)
    ensures var s := Run(INITIAL, events);
      && ToSet(s.owners[o].targets) <= Recall(s.drained, s.owners[o].terminal)
      && forall j :: o < j < |s.owners| && s.owners[j].terminal == s.owners[o].terminal ==> ToSet(s.owners[j].targets) !! ToSet(s.owners[o].targets)
  {
    RunKeepsInvariant(INITIAL, events);
  }

  // ----- What is forgotten -----------------------------------------------------------------

  /** Owners are evicted only when a thousand terminals are remembered and another joins them: those of the oldest one. */
  ghost predicate EvictsOldest(s: State, t: State) {
    forall o :: 0 <= o < |s.owners| && o < |t.owners| && t.owners[o].evicted && !s.owners[o].evicted ==>
      OldestGoes(s.drained, t.drained, t.owners[o].terminal)
  }

  /** The oldest of `MAX_REMEMBERED` terminals made room for another at the end. */
  predicate OldestGoes(before: seq<Memory>, after: seq<Memory>, terminal: Terminal) {
    && |before| == |after| == MAX_REMEMBERED && before[0].terminal == terminal
    && after[..MAX_REMEMBERED - 1] == before[1..]
  }

  lemma {:induction false} PutAppends(drained: seq<Memory>, memory: Memory)
    ensures |Put(drained, memory)| == |drained| || Put(drained, memory) == drained + [memory]
    ensures |drained| <= |Put(drained, memory)|
  {
    if drained != [] && drained[0].terminal != memory.terminal {
      PutAppends(drained[1..], memory);
      assert drained == [drained[0]] + drained[1..];
    }
  }

  lemma {:induction false} RememberingKeepsEvictions(s: State, o: nat)
    requires o < |s.owners|
    ensures var r := Remembering(s, o);
      && (|r.drained| == |s.drained| || (|r.drained| == |s.drained| + 1 && r.drained[..|s.drained|] == s.drained))
      && |r.owners| == |s.owners|
      && forall p :: 0 <= p < |s.owners| ==> r.owners[p].evicted == s.owners[p].evicted
  {
    PutAppends(s.drained, Memory(s.owners[o].terminal, s.owners[o].remembered + ToSet(s.owners[o].targets)));
  }

  lemma {:induction false} TrimmedEvictsOldest(s: State, r: State)
    requires |s.drained| <= MAX_REMEMBERED && |r.owners| == |s.owners|
    requires |r.drained| == |s.drained| || (|r.drained| == |s.drained| + 1 && r.drained[..|s.drained|] == s.drained)
    requires forall p :: 0 <= p < |s.owners| ==> r.owners[p].evicted == s.owners[p].evicted
    ensures EvictsOldest(s, Trimmed(r))
  {
    if |r.drained| > MAX_REMEMBERED {
      assert r.drained[0] == s.drained[0];
      assert r.drained[1..][..MAX_REMEMBERED - 1] == s.drained[1..];
    }
  }

  lemma {:induction false} FinishedEvictsOldest(s: State, o: nat)
    requires o < |s.owners| && |s.drained| <= MAX_REMEMBERED
    ensures EvictsOldest(s, Finished(s, o))
  {
    RememberingKeepsEvictions(s, o);
    TrimmedEvictsOldest(s, Remembering(s, o));
  }

  /** Sending evicts nothing, so it may come first. */
  lemma {:induction false} SentFinishedEvictsOldest(s: State, o: nat, n: nat)
    requires o < |s.owners| && |s.drained| <= MAX_REMEMBERED && s.owners[o].sent <= n <= |s.owners[o].selected|
    ensures EvictsOldest(s, Finished(Sent(s, o, n), o))
  {
    FinishedEvictsOldest(Sent(s, o, n), o);
    assert forall p :: 0 <= p < |s.owners| ==> Sent(s, o, n).owners[p].evicted == s.owners[p].evicted;
  }

  lemma {:induction false} StartedEvictsOldest(s: State, o: nat, outcome: Outcome)
    requires o < |s.owners| && s.owners[o].sent == 0 && |s.drained| <= MAX_REMEMBERED
    ensures EvictsOldest(s, Started(s, o, outcome))
  {
    SentFinishedEvictsOldest(s, o, |s.owners[o].selected|);
  }

  lemma {:induction false} ResolvedEvictsOldest(s: State, o: nat)
    requires o < |s.owners| && s.owners[o].sent <= |s.owners[o].selected| && |s.drained| <= MAX_REMEMBERED
    ensures EvictsOldest(s, Resolved(s, o))
  {
    SentFinishedEvictsOldest(s, o, |s.owners[o].selected|);
    FinishedEvictsOldest(s, o);
  }

  lemma {:induction false} StepEvictsOldest(s: State, event: Event)
    requires Invariant(s)
    ensures EvictsOldest(s, Step(s, event))
  {
    match event {
      case Barrier(terminal, targets, at, mode, outcome) =>
        var pending := PendingTargets(s.drained, terminal, targets);
        if terminal !in s.inFlight && pending != [] {
          StartedEvictsOldest(Claimed(s, terminal, pending, at, mode), |s.owners|, outcome);
        }
      case SendSettled(o, ok) =>
        if o < |s.owners| && s.owners[o].sent <= |s.owners[o].selected| {
          ResolvedEvictsOldest(s, o);
        }
      case _ =>
    }
  }

  /** In every run, a terminal is forgotten only as the oldest of a thousand that are remembered, when another is. */
  lemma {:induction false} OnlyTheOldestIsForgotten(events: seq<Event>, event: Event, o: nat)
    requires LegalRun(events) && o < |Run(INITIAL, events).owners| && o < |Step(Run(INITIAL, events), event).owners|
    requires Step(Run(INITIAL, events), event).owners[o].evicted && !Run(INITIAL, events).owners[o].evicted
    ensures var s, t := Run(INITIAL, events), Step(Run(INITIAL, events), event);
      && |s.drained| == |t.drained| == 1_000 && t.owners[o].terminal == s.drained[0].terminal
      && t.drained[..999] == s.drained[1..]
  {
    RunKeepsInvariant(INITIAL, events);
    StepEvictsOldest(Run(INITIAL, events), event);
  }
}
