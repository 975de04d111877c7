/**
 The barrier that sends a child's queued messages ahead of its terminal result
 (packages/intercom/terminal-ordering-barrier.ts, with the relay fallback of packages/intercom/subagent-relay.ts).

 Every barrier that claims becomes an owner; the k-th owner holds the queue's k-th claim. Between the
 steps of one owner, other barriers and other users of the queue may run.
 */
module TerminalOrderingBarriers {
  import opened Sequences
  import Q = InboundIdleQueues

  const MAX_REMEMBERED: nat := 1_000

  /** Owner object, run and terminal: what the code concatenates to `terminalKey`. */
  datatype Terminal = Terminal(ownerId: nat, runId: string, terminalId: string)

  /**
   How the claimed messages are delivered: one batch call of `dispatch`, the relay's one-by-one
   fallback ending with the terminal message, or, without `dispatch`, each message by itself.
   */
  datatype Mode = Batch | Fallback | Each

  /** How the synchronous part ends; `at` is the message whose delivery threw or is pending. */
  datatype Outcome = Returned | Thrown(at: nat) | Pending(at: nat)

  datatype Status = Running | Rejecting | Succeeded | Failed

  /**
   `remembered` is the terminal's set of drained targets when the owner claimed, `sent` the number of
   its messages handed over, and `evicted` is history: its terminal was forgotten after it succeeded.
   */
  datatype Owner = Owner(
    terminal: Terminal, targets: seq<string>, mode: Mode, selected: seq<Q.Entry>,
    remembered: set<string>, sent: nat, status: Status, evicted: bool)

  datatype Memory = Memory(terminal: Terminal, targets: set<string>)

  /** `handed` is history: the messages handed over ahead of terminals, in order. */
  datatype State = State(
    queue: Q.State, drained: seq<Memory>, inFlight: map<Terminal, nat>, owners: seq<Owner>, handed: seq<Q.Entry>)

  datatype Event =
    | Barrier(terminal: Terminal, targets: seq<string>, at: int, mode: Mode, outcome: Outcome)
    | SendSettled(owner: nat, ok: bool)
    | RejectionSettled(owner: nat)
    | OtherQueueUse(queueEvent: Q.Event)

  // ----- The remembered terminals, oldest first --------------------------------------------

  function Recall(drained: seq<Memory>, terminal: Terminal): set<string> {
    if drained == [] then {}
    else if drained[0].terminal == terminal then drained[0].targets
    else Recall(drained[1..], terminal)
  }

  function Known(drained: seq<Memory>): set<Terminal> {
    set m | m in drained :: m.terminal
  }

  function Put(drained: seq<Memory>, memory: Memory): seq<Memory> {
    if drained == [] then [memory]
    else if drained[0].terminal == memory.terminal then [memory] + drained[1..]
    else [drained[0]] + Put(drained[1..], memory)
  }

  // ----- Steps -----------------------------------------------------------------------------

  /** `terminalRollbackIndex`: the delivered count an error reports, if it reports a usable one. */
  function RollbackIndex(reported: Option<real>, fallback: nat): nat {
    if reported.Some? && reported.value >= 0.0 && reported.value.Floor as real == reported.value
    then reported.value.Floor else fallback
  }

  function PendingTargets(drained: seq<Memory>, terminal: Terminal, targets: seq<string>): seq<string> {
    Without(targets, Recall(drained, terminal))
  }

  ghost function Claimed(s: State, terminal: Terminal, targets: seq<string>, at: int, mode: Mode): State {
    var queue := Q.Step(s.queue, Q.TakeClaim(terminal.runId, ToSet(targets), Some(at)));
    var owner := Owner(terminal, targets, mode, queue.claims[|s.queue.claims|].selected,
                       Recall(s.drained, terminal), 0, Running, false);
    s.(queue := queue, owners := s.owners + [owner], inFlight := s.inFlight[terminal := |s.owners|])
  }

  /** The next messages of an owner up to count n have been handed over. */
  function Sent(s: State, o: nat, n: nat): State
    requires o < |s.owners| && s.owners[o].sent <= n <= |s.owners[o].selected|
  {
    var owner := s.owners[o];
    s.(owners := s.owners[o := owner.(sent := n)], handed := s.handed + owner.selected[owner.sent..n])
  }

  function Release(inFlight: map<Terminal, nat>, terminal: Terminal, o: nat): map<Terminal, nat> {
    if terminal in inFlight && inFlight[terminal] == o then inFlight - {terminal} else inFlight
  }

  function Evicted(owners: seq<Owner>, terminal: Terminal): seq<Owner> {
    seq(|owners|, i requires 0 <= i < |owners| =>
      if owners[i].terminal == terminal && owners[i].status == Succeeded then owners[i].(evicted := true) else owners[i])
  }

  predicate Marks(owner: Owner) {
    owner.mode != Each || owner.selected != []
  }

  /** The targets are remembered if anything was dispatched, and the ownership is resolved. */
  function Remembering(s: State, o: nat): State
    requires o < |s.owners|
  {
    var owner := s.owners[o];
    s.(drained := if Marks(owner) then Put(s.drained, Memory(owner.terminal, owner.remembered + ToSet(owner.targets))) else s.drained,
       owners := s.owners[o := owner.(status := Succeeded)],
       inFlight := Release(s.inFlight, owner.terminal, o))
  }

  /** At most `MAX_REMEMBERED` terminals are remembered; the oldest goes. */
  function Trimmed(s: State): State {
    if |s.drained| > MAX_REMEMBERED then
      s.(drained := s.drained[1..], owners := Evicted(s.owners, s.drained[0].terminal))
    else s
  }

  function Finished(s: State, o: nat): State
    requires o < |s.owners|
  {
    Trimmed(Remembering(s, o))
  }

  ghost function RolledBackTo(s: State, o: nat, index: nat): State
    requires o < |s.owners|
  {
    s.(queue := Q.Step(s.queue, Q.Rollback(o, index)), owners := s.owners[o := s.owners[o].(status := Rejecting)])
  }

  function OwnershipFailed(s: State, o: nat): State
    requires o < |s.owners|
  {
    s.(owners := s.owners[o := s.owners[o].(status := Failed)], inFlight := Release(s.inFlight, s.owners[o].terminal, o))
  }

  /** The synchronous part of a claimed barrier: what was delivered before it returned, threw or had to wait. */
  ghost function Started(s: State, o: nat, outcome: Outcome): State
    requires o < |s.owners| && s.owners[o].sent == 0
  {
    var owner := s.owners[o];
    var all := |owner.selected|;
    match owner.mode
    case Batch =>
      (match outcome
       case Returned => Finished(Sent(s, o, all), o)
       case Thrown(_) => OwnershipFailed(RolledBackTo(s, o, RollbackIndex(None, 0)), o)
       case Pending(_) => s)
    case Fallback => s
    case Each =>
      if outcome.Returned? || outcome.at >= all then Finished(Sent(s, o, all), o)
      else if outcome.Thrown? then OwnershipFailed(RolledBackTo(Sent(s, o, outcome.at), o, outcome.at), o)
      else Sent(s, o, outcome.at)
  }

  /** A pending delivery was accepted: the owner goes on to its next message, or finishes. */
  function Resolved(s: State, o: nat): State
    requires o < |s.owners| && s.owners[o].sent <= |s.owners[o].selected|
  {
    var owner := s.owners[o];
    var all := |owner.selected|;
    match owner.mode
    case Batch => Finished(Sent(s, o, all), o)
    case Fallback => if owner.sent < all then Sent(s, o, owner.sent + 1) else Finished(s, o)
    case Each =>
      if owner.sent + 1 < all then Sent(s, o, owner.sent + 1) else Finished(Sent(s, o, all), o)
  }

  /** What the failed owner passes to `rollbackFrom`; the fallback's error reports its delivered count. */
  function FailureIndex(owner: Owner): nat {
    match owner.mode
    case Batch => RollbackIndex(None, 0)
    case Fallback => RollbackIndex(Some(owner.sent as real), 0)
    case Each => owner.sent
  }

  ghost function Step(s: State, event: Event): State {
    match event
    case Barrier(terminal, targets, at, mode, outcome) =>
      var pending := PendingTargets(s.drained, terminal, targets);
      if terminal in s.inFlight || pending == [] then s
      else Started(Claimed(s, terminal, pending, at, mode), |s.owners|, outcome)
    case SendSettled(o, ok) =>
      if o >= |s.owners| || s.owners[o].status != Running || s.owners[o].sent > |s.owners[o].selected| then s
      else if ok then Resolved(s, o)
      else RolledBackTo(s, o, FailureIndex(s.owners[o]))
    case RejectionSettled(o) =>
      if o >= |s.owners| || s.owners[o].status != Rejecting then s else OwnershipFailed(s, o)
    case OtherQueueUse(e) => s.(queue := Q.Step(s.queue, e))
  }

  /** Only the barrier claims and rolls back. */
  ghost predicate Legal(event: Event) {
    event.OtherQueueUse? ==> !event.queueEvent.TakeClaim? && !event.queueEvent.Rollback?
  }

  ghost function Run(s: State, events: seq<Event>): State
    decreases |events|
  {
    if events == [] then s else Run(Step(s, events[0]), events[1..])
  }

  const INITIAL := State(Q.EMPTY, [], map[], [], [])

  // ----- The invariant ---------------------------------------------------------------------

  ghost predicate Unsettled(owner: Owner) {
    owner.status == Running || owner.status == Rejecting
  }

  ghost predicate DistinctTerminals(drained: seq<Memory>) {
    forall i, j :: 0 <= i < j < |drained| ==> drained[i].terminal != drained[j].terminal
  }

  /** The in-flight map holds exactly the unsettled owners, so a terminal has at most one. */
  ghost predicate InFlightMatches(s: State) {
    && (forall t :: t in s.inFlight ==>
        s.inFlight[t] < |s.owners| && Unsettled(s.owners[s.inFlight[t]]) && s.owners[s.inFlight[t]].terminal == t)
    && (forall o :: 0 <= o < |s.owners| && Unsettled(s.owners[o]) ==>
        s.owners[o].terminal in s.inFlight && s.inFlight[s.owners[o].terminal] == o)
  }

  /** The k-th owner holds the k-th claim, not yet rolled back while it runs, and has sent a prefix of it. */
  ghost predicate OwnersMatchClaims(s: State) {
    && |s.owners| == |s.queue.claims|
    && forall o :: 0 <= o < |s.owners| ==>
         && s.owners[o].sent <= |s.owners[o].selected|
         && s.owners[o].selected == s.queue.claims[o].selected
         && (s.owners[o].status == Running ==> !s.queue.claims[o].settled)
  }

  /** What a success remembers is remembered until its terminal is evicted. */
  ghost predicate SuccessRemembered(s: State) {
    && (forall o :: 0 <= o < |s.owners| && s.owners[o].status == Succeeded && Marks(s.owners[o]) && !s.owners[o].evicted ==>
        && s.owners[o].terminal in Known(s.drained)
        && ToSet(s.owners[o].targets) <= Recall(s.drained, s.owners[o].terminal))
    && (forall o :: 0 <= o < |s.owners| && Unsettled(s.owners[o]) && s.owners[o].terminal in Known(s.drained) ==>
        Recall(s.drained, s.owners[o].terminal) <= s.owners[o].remembered)
  }

  /** Of two owners of one terminal, the earlier is settled; if it succeeded and is remembered, they share no target. */
  ghost predicate LaterOwnersDisjoint(s: State) {
    forall i, j :: 0 <= i < j < |s.owners| && s.owners[i].terminal == s.owners[j].terminal ==>
      && !Unsettled(s.owners[i])
      && (s.owners[i].status == Succeeded && Marks(s.owners[i]) && !s.owners[i].evicted ==>
          ToSet(s.owners[i].targets) !! ToSet(s.owners[j].targets))
  }

  ghost predicate Coherent(s: State) {
    DistinctTerminals(s.drained) && InFlightMatches(s) && OwnersMatchClaims(s) && SuccessRemembered(s) && LaterOwnersDisjoint(s)
  }

  ghost predicate Invariant(s: State) {
    Coherent(s) && |s.drained| <= MAX_REMEMBERED
  }

  lemma {:induction false} PutRecalls(drained: seq<Memory>, memory: Memory)
    ensures forall t :: Recall(Put(drained, memory), t) == if t == memory.terminal then memory.targets else Recall(drained, t)
  {
    if drained != [] && drained[0].terminal != memory.terminal {
      PutRecalls(drained[1..], memory);
    }
  }

  lemma KnownCons(memory: Memory, rest: seq<Memory>)
    ensures Known([memory] + rest) == {memory.terminal} + Known(rest)
  {
    assert memory in [memory] + rest;
    assert forall m :: m in rest ==> m in [memory] + rest;
  }

  lemma {:induction false} PutKnown(drained: seq<Memory>, memory: Memory)
    ensures Known(Put(drained, memory)) == Known(drained) + {memory.terminal}
    ensures |Put(drained, memory)| <= |drained| + 1
  {
    if drained == [] {
      KnownCons(memory, []);
    } else {
      assert drained == [drained[0]] + drained[1..];
      KnownCons(drained[0], drained[1..]);
      PutKnown(drained[1..], memory);
      if drained[0].terminal == memory.terminal {
        KnownCons(memory, drained[1..]);
      } else {
        KnownCons(drained[0], Put(drained[1..], memory));
      }
    }
  }

  lemma {:induction false} PutDistinct(drained: seq<Memory>, memory: Memory)
    requires DistinctTerminals(drained)
    ensures DistinctTerminals(Put(drained, memory))
  {
    if drained != [] && drained[0].terminal != memory.terminal {
      PutDistinct(drained[1..], memory);
      PutKnown(drained[1..], memory);
      var put := Put(drained[1..], memory);
      forall i | 0 <= i < |put|
        ensures put[i].terminal != drained[0].terminal
      {
        assert put[i].terminal in Known(put);
        if put[i].terminal != memory.terminal {
          var m :| m in drained[1..] && m.terminal == put[i].terminal;
        }
      }
    }
  }

  lemma {:induction false} DropOldest(drained: seq<Memory>)
    requires DistinctTerminals(drained) && drained != []
    ensures DistinctTerminals(drained[1..])
    ensures Known(drained[1..]) == Known(drained) - {drained[0].terminal}
    ensures forall t :: t != drained[0].terminal ==> Recall(drained[1..], t) == Recall(drained, t)
  {
    assert drained == [drained[0]] + drained[1..];
    forall m | m in drained[1..]
      ensures m.terminal != drained[0].terminal
    {
      var i :| 0 <= i < |drained[1..]| && drained[1..][i] == m;
      assert drained[i + 1] == m;
    }
  }

  lemma {:induction false} ClaimedKeeps(s: State, terminal: Terminal, targets: seq<string>, at: int, mode: Mode)
    requires Invariant(s) && terminal !in s.inFlight
    requires ToSet(targets) !! Recall(s.drained, terminal)
    ensures Invariant(Claimed(s, terminal, targets, at, mode))
  {
    var t := Claimed(s, terminal, targets, at, mode);
    assert InFlightMatches(t);
    assert LaterOwnersDisjoint(t);
  }

  lemma {:induction false} SentKeeps(s: State, o: nat, n: nat)
    requires Invariant(s) && o < |s.owners| && s.owners[o].sent <= n <= |s.owners[o].selected|
    ensures Invariant(Sent(s, o, n))
  {
  }

  lemma {:induction false} RolledBackKeeps(s: State, o: nat, index: nat)
    requires Invariant(s) && o < |s.owners| && s.owners[o].status == Running
    ensures Invariant(RolledBackTo(s, o, index))
  {
    var t := RolledBackTo(s, o, index);
    assert forall i :: 0 <= i < |s.owners| ==> t.owners[i] == if i == o then s.owners[o].(status := Rejecting) else s.owners[i];
    assert InFlightMatches(t);
    assert OwnersMatchClaims(t);
    assert SuccessRemembered(t);
    assert LaterOwnersDisjoint(t);
  }

  lemma {:induction false} FailedKeeps(s: State, o: nat)
    requires Invariant(s) && o < |s.owners| && s.owners[o].status == Rejecting
    ensures Invariant(OwnershipFailed(s, o))
  {
    SettlingKeeps(s, o, Failed);
  }

  ghost function SettledOwner(s: State, o: nat, status: Status): State
    requires o < |s.owners|
  {
    s.(owners := s.owners[o := s.owners[o].(status := status)], inFlight := Release(s.inFlight, s.owners[o].terminal, o))
  }

  lemma {:induction false} SettlingMatches(s: State, o: nat, status: Status)
    requires InFlightMatches(s) && o < |s.owners| && Unsettled(s.owners[o]) && (status == Succeeded || status == Failed)
    ensures InFlightMatches(SettledOwner(s, o, status))
  {
    var t := SettledOwner(s, o, status);
    assert t.inFlight == s.inFlight - {s.owners[o].terminal};
    assert forall i :: 0 <= i < |s.owners| && i != o ==> t.owners[i] == s.owners[i];
  }

  lemma {:induction false} SettlingDisjoint(s: State, o: nat, status: Status)
    requires LaterOwnersDisjoint(s) && o < |s.owners| && Unsettled(s.owners[o]) && (status == Succeeded || status == Failed)
    ensures LaterOwnersDisjoint(SettledOwner(s, o, status))
  {
    NoLaterOwner(s, o);
  }

  /** Settling an owner takes it, and nobody else, out of flight. */
  lemma {:induction false} SettlingKeeps(s: State, o: nat, status: Status)
    requires InFlightMatches(s) && OwnersMatchClaims(s) && LaterOwnersDisjoint(s)
    requires o < |s.owners| && Unsettled(s.owners[o]) && (status == Succeeded || status == Failed)
    ensures var t := SettledOwner(s, o, status); InFlightMatches(t) && OwnersMatchClaims(t) && LaterOwnersDisjoint(t)
  {
    SettlingMatches(s, o, status);
    SettlingDisjoint(s, o, status);
  }

  /** An unsettled owner is the latest of its terminal. */
  lemma NoLaterOwner(s: State, o: nat)
    requires LaterOwnersDisjoint(s) && o < |s.owners| && Unsettled(s.owners[o])
    ensures forall j :: o < j < |s.owners| ==> s.owners[j].terminal != s.owners[o].terminal
  {
  }

  lemma {:induction false} RememberedAfter(s: State, o: nat)
    requires Invariant(s) && o < |s.owners| && s.owners[o].status == Running
    ensures SuccessRemembered(Remembering(s, o))
  {
    var owner, t := s.owners[o], Remembering(s, o);
    var memory := Memory(owner.terminal, owner.remembered + ToSet(owner.targets));
    PutKnown(s.drained, memory);
    PutRecalls(s.drained, memory);
    forall i | 0 <= i < |t.owners| && t.owners[i].status == Succeeded && Marks(t.owners[i]) && !t.owners[i].evicted
      ensures t.owners[i].terminal in Known(t.drained) && ToSet(t.owners[i].targets) <= Recall(t.drained, t.owners[i].terminal)
    {
    }
    forall i | 0 <= i < |t.owners| && Unsettled(t.owners[i]) && t.owners[i].terminal in Known(t.drained)
      ensures Recall(t.drained, t.owners[i].terminal) <= t.owners[i].remembered
    {
      assert t.owners[i].terminal != owner.terminal;
    }
  }

  lemma {:induction false} RememberingKeeps(s: State, o: nat)
    requires Invariant(s) && o < |s.owners| && s.owners[o].status == Running
    ensures Coherent(Remembering(s, o)) && |Remembering(s, o).drained| <= MAX_REMEMBERED + 1
  {
    var owner, t := s.owners[o], Remembering(s, o);
    var memory := Memory(owner.terminal, owner.remembered + ToSet(owner.targets));
    PutKnown(s.drained, memory);
    PutDistinct(s.drained, memory);
    PutRecalls(s.drained, memory);
    SettlingKeeps(s, o, Succeeded);
    RememberedAfter(s, o);
  }

  /** Marking owners as evicted changes neither who is in flight nor whose claims are whose. */
  lemma {:induction false} EvictionKeeps(s: State, drained: seq<Memory>, terminal: Terminal)
    requires InFlightMatches(s) && OwnersMatchClaims(s) && LaterOwnersDisjoint(s)
    ensures var t := s.(drained := drained, owners := Evicted(s.owners, terminal));
      InFlightMatches(t) && OwnersMatchClaims(t) && LaterOwnersDisjoint(t)
  {
    var t := s.(drained := drained, owners := Evicted(s.owners, terminal));
    assert InFlightMatches(t);
    assert OwnersMatchClaims(t);
    assert LaterOwnersDisjoint(t);
  }

  lemma {:induction false} TrimmedKeeps(s: State)
    requires Coherent(s) && |s.drained| <= MAX_REMEMBERED + 1
    ensures Invariant(Trimmed(s))
  {
    if |s.drained| > MAX_REMEMBERED {
      DropOldest(s.drained);
      EvictionKeeps(s, s.drained[1..], s.drained[0].terminal);
      assert SuccessRemembered(Trimmed(s));
    }
  }

  lemma {:induction false} FinishedKeeps(s: State, o: nat)
    requires Invariant(s) && o < |s.owners| && s.owners[o].status == Running
    ensures Invariant(Finished(s, o))
  {
    RememberingKeeps(s, o);
    TrimmedKeeps(Remembering(s, o));
  }

  lemma {:induction false} StartedKeeps(s: State, o: nat, outcome: Outcome)
    requires Invariant(s) && o < |s.owners| && s.owners[o].status == Running && s.owners[o].sent == 0
    ensures Invariant(Started(s, o, outcome))
  {
    var owner := s.owners[o];
    var all := |owner.selected|;
    match owner.mode {
      case Batch =>
        if outcome.Returned? {
          SentKeeps(s, o, all);
          FinishedKeeps(Sent(s, o, all), o);
        } else if outcome.Thrown? {
          RolledBackKeeps(s, o, 0);
          FailedKeeps(RolledBackTo(s, o, 0), o);
        }
      case Fallback =>
      case Each =>
        if outcome.Returned? || outcome.at >= all {
          SentKeeps(s, o, all);
          FinishedKeeps(Sent(s, o, all), o);
        } else {
          SentKeeps(s, o, outcome.at);
          if outcome.Thrown? {
            RolledBackKeeps(Sent(s, o, outcome.at), o, outcome.at);
            FailedKeeps(RolledBackTo(Sent(s, o, outcome.at), o, outcome.at), o);
          }
        }
    }
  }

  lemma SendingNothing(s: State, o: nat)
    requires o < |s.owners| && s.owners[o].sent <= |s.owners[o].selected|
    ensures Sent(s, o, s.owners[o].sent) == s
  {
    assert s.handed + [] == s.handed;
  }

  lemma SendingMore(s: State, o: nat, k: nat)
    requires o < |s.owners| && s.owners[o].sent <= k < |s.owners[o].selected|
    ensures Sent(Sent(s, o, k), o, k + 1) == Sent(s, o, k + 1)
  {
    var owner := s.owners[o];
    assert owner.selected[owner.sent..k + 1] == owner.selected[owner.sent..k] + owner.selected[k..k + 1];
    Assoc(s.handed, owner.selected[owner.sent..k], owner.selected[k..k + 1]);
  }

  lemma ResolvedIs(s: State, o: nat)
    requires o < |s.owners| && s.owners[o].sent <= |s.owners[o].selected|
    ensures var owner := s.owners[o];
      Resolved(s, o) ==
        if owner.mode != Batch && owner.sent + (if owner.mode == Each then 1 else 0) < |owner.selected|
        then Sent(s, o, owner.sent + 1)
        else Finished(Sent(s, o, |owner.selected|), o)
  {
    SendingNothing(s, o);
  }

  lemma {:induction false} ResolvedKeeps(s: State, o: nat)
    requires Invariant(s) && o < |s.owners| && s.owners[o].status == Running
    ensures Invariant(Resolved(s, o))
  {
    var owner := s.owners[o];
    ResolvedIs(s, o);
    if owner.mode != Batch && owner.sent + (if owner.mode == Each then 1 else 0) < |owner.selected| {
      SentKeeps(s, o, owner.sent + 1);
    } else {
      SentKeeps(s, o, |owner.selected|);
      FinishedKeeps(Sent(s, o, |owner.selected|), o);
    }
  }

  lemma {:induction false} StepKeepsInvariant(s: State, event: Event)
    requires Invariant(s) && Legal(event)
    ensures Invariant(Step(s, event))
  {
    match event {
      case Barrier(terminal, targets, at, mode, outcome) =>
        var pending := PendingTargets(s.drained, terminal, targets);
        if terminal !in s.inFlight && pending != [] {
          Members(targets, Recall(s.drained, terminal));
          ClaimedKeeps(s, terminal, pending, at, mode);
          StartedKeeps(Claimed(s, terminal, pending, at, mode), |s.owners|, outcome);
        }
      case SendSettled(o, ok) =>
        if o < |s.owners| && s.owners[o].status == Running {
          if ok {
            ResolvedKeeps(s, o);
          } else {
            RolledBackKeeps(s, o, FailureIndex(s.owners[o]));
          }
        }
      case RejectionSettled(o) =>
        if o < |s.owners| && s.owners[o].status == Rejecting {
          FailedKeeps(s, o);
        }
      case OtherQueueUse(e) =>
        assert OwnersMatchClaims(Step(s, event));
    }
  }

  ghost predicate LegalRun(events: seq<Event>) {
    forall k :: 0 <= k < |events| ==> Legal(events[k])
  }

  lemma {:induction false} RunKeepsInvariant(s: State, events: seq<Event>)
    requires Invariant(s) && LegalRun(events)
    ensures Invariant(Run(s, events))
    decreases |events|
  {
    if events != [] {
      StepKeepsInvariant(s, events[0]);
      RunKeepsInvariant(Step(s, events[0]), events[1..]);
    }
  }

  /**
   In every run, a terminal has at most one unsettled owner and it is the latest; a target that a
   successful owner dispatched is not claimed again while its terminal is remembered; and no more than
   a thousand terminals are remembered.
   */
  lemma {:induction false} OneOwnerAndNoRepeatPerTerminal(events: seq<Event>, i: nat, j: nat)
    requires LegalRun(events)
    requires i < j < |Run(INITIAL, events).owners|
    requires Run(INITIAL, events).owners[i].terminal == Run(INITIAL, events).owners[j].terminal
    ensures var s := Run(INITIAL, events);
      && (s.owners[i].status == Succeeded || s.owners[i].status == Failed)
      && (s.owners[i].status == Succeeded && Marks(s.owners[i]) && !s.owners[i].evicted ==>
          ToSet(s.owners[i].targets) !! ToSet(s.owners[j].targets))
      && |s.drained| <= MAX_REMEMBERED
  {
    RunKeepsInvariant(INITIAL, events);
  }

  /** In every run no more than a thousand terminals are remembered, each once. */
  lemma {:induction false} AtMostAThousandRemembered(events: seq<Event>)
    requires LegalRun(events)
    ensures |Run(INITIAL, events).drained| <= MAX_REMEMBERED && DistinctTerminals(Run(INITIAL, events).drained)
  {
    RunKeepsInvariant(INITIAL, events);
  }

  // ----- Joining ---------------------------------------------------------------------------

  datatype Promise = Unresolved | Fulfilled | Refused

  /** The state of the promise of an ownership. */
  function PromiseOf(owner: Owner): Promise {
    match owner.status
    case Succeeded => Fulfilled
    case Failed => Refused
    case _ => Unresolved
  }

  /** Whose promise a barrier gets as its completion: that of the owner it joins, or its own if it has to wait. */
  ghost function Completion(s: State, event: Event): Option<nat> {
    if !event.Barrier? then None
    else if event.terminal in s.inFlight then Some(s.inFlight[event.terminal])
    else
      var t := Step(s, event);
      if |t.owners| > |s.owners| && PromiseOf(t.owners[|s.owners|]) == Unresolved then Some(|s.owners|) else None
  }

  /** An owner keeps its terminal and targets, and its promise settles once. */
  ghost predicate SettlesOnce(s: State, t: State, o: nat)
    requires o < |s.owners|
  {
    && o < |t.owners| && t.owners[o].terminal == s.owners[o].terminal && t.owners[o].targets == s.owners[o].targets
    && (PromiseOf(s.owners[o]) != Unresolved ==> PromiseOf(t.owners[o]) == PromiseOf(s.owners[o]))
  }

  lemma {:induction false} TrimmingSettlesOnce(s: State, o: nat)
    requires o < |s.owners|
    ensures SettlesOnce(s, Trimmed(s), o)
  {
  }

  lemma {:induction false} FinishingSettlesOnce(s: State, p: nat, o: nat)
    requires o < |s.owners| && p < |s.owners| && PromiseOf(s.owners[p]) == Unresolved
    ensures SettlesOnce(s, Finished(s, p), o)
  {
    TrimmingSettlesOnce(Remembering(s, p), o);
  }

  lemma {:induction false} StartingSettlesOnce(s: State, p: nat, outcome: Outcome, o: nat)
    requires o < p < |s.owners| && s.owners[p].sent == 0
    ensures SettlesOnce(s, Started(s, p, outcome), o)
  {
    var all := |s.owners[p].selected|;
    TrimmingSettlesOnce(Remembering(Sent(s, p, all), p), o);
  }

  lemma {:induction false} StepSettlesOnce(s: State, event: Event, o: nat)
    requires Invariant(s) && o < |s.owners|
    ensures SettlesOnce(s, Step(s, event), o)
  {
    match event {
      case Barrier(terminal, targets, at, mode, outcome) =>
        var pending := PendingTargets(s.drained, terminal, targets);
        if terminal !in s.inFlight && pending != [] {
          StartingSettlesOnce(Claimed(s, terminal, pending, at, mode), |s.owners|, outcome, o);
        }
      case SendSettled(p, ok) =>
        if p < |s.owners| && s.owners[p].status == Running && ok {
          ResolvedIs(s, p);
          FinishingSettlesOnce(Sent(s, p, |s.owners[p].selected|), p, o);
        }
      case RejectionSettled(p) =>
      case OtherQueueUse(e) =>
    }
  }

  lemma {:induction false} RunSettlesOnce(s: State, events: seq<Event>, o: nat)
    requires Invariant(s) && LegalRun(events) && o < |s.owners|
    ensures SettlesOnce(s, Run(s, events), o)
    decreases |events|
  {
    if events != [] {
      StepKeepsInvariant(s, events[0]);
      StepSettlesOnce(s, events[0], o);
      RunSettlesOnce(Step(s, events[0]), events[1..], o);
    }
  }

  /**
   A barrier that finds its terminal in flight claims, sends and remembers nothing: it gets the promise of
   the terminal's one unsettled owner. Whatever happens then, that promise stays unresolved exactly as long
   as the terminal is in flight for that owner.
   */
  lemma {:induction false} JoinersWaitForTheirOwner(before: seq<Event>, event: Event, during: seq<Event>)
    requires LegalRun(before) && LegalRun(during)
    requires event.Barrier? && event.terminal in Run(INITIAL, before).inFlight
    ensures var s := Run(INITIAL, before);
      var u := Run(s, during);
      && Step(s, event) == s && Completion(s, event).Some?
      && var o := Completion(s, event).value;
      && o < |s.owners| && s.owners[o].terminal == event.terminal && PromiseOf(s.owners[o]) == Unresolved
      && (forall p: nat :: p < |s.owners| && s.owners[p].terminal == event.terminal && PromiseOf(s.owners[p]) == Unresolved ==> p == o)
      && o < |u.owners| && u.owners[o].terminal == event.terminal
      && (PromiseOf(u.owners[o]) == Unresolved <==> event.terminal in u.inFlight && u.inFlight[event.terminal] == o)
  {
    RunKeepsInvariant(INITIAL, before);
    var s := Run(INITIAL, before);
    RunKeepsInvariant(s, during);
    RunSettlesOnce(s, during, s.inFlight[event.terminal]);
  }

  /** Once settled, the promise, which is the owner's and every joiner's, keeps its outcome in every continuation. */
  lemma {:induction false} JoinersSettleAsTheirOwner(before: seq<Event>, during: seq<Event>, o: nat)
    requires LegalRun(before) && LegalRun(during)
    requires o < |Run(INITIAL, before).owners| && PromiseOf(Run(INITIAL, before).owners[o]) != Unresolved
    ensures var s, u := Run(INITIAL, before), Run(Run(INITIAL, before), during);
      o < |u.owners| && PromiseOf(u.owners[o]) == PromiseOf(s.owners[o])
  {
    RunKeepsInvariant(INITIAL, before);
    RunSettlesOnce(Run(INITIAL, before), during, o);
  }
}
