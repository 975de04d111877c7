/**
 Messages that reach the parent after a workflow stage closed (packages/intercom/late-stage-message-router.ts).
 A batch reserves each intercom message, records its reply context, delivers, and settles what it reserved.
 Between any two steps of a batch, other batches and other users of both ledgers may run.
 */
module LateStageMessageRouters {
  import opened Sequences
  import A = InboundMessageAdmissions
  import T = ReplyTrackers
  import S = SessionTargets

  datatype Entry = Entry(from: S.Session, group: string, supervisor: bool, messageId: string, signature: string, expectsReply: bool)

  /** A message of another kind, an intercom message without usable details, or an intercom message. */
  datatype LateMessage = Plain(text: string) | Malformed | Intercom(entry: Entry)

  datatype Owned = Owned(reservation: A.Reservation, context: T.Context)

  /** An accepted message together with the reservation it carries, if any. */
  datatype Item = Item(message: LateMessage, owned: Option<Owned>)

  datatype Phase = Sending | Delivered | Failed

  /** `sent` counts the accepted messages whose sending succeeded; an atomic batch sends all or none. */
  datatype Batch = Batch(atomic: bool, items: seq<Item>, joined: seq<nat>, sent: nat, phase: Phase)

  datatype State = State(admission: A.State, tracker: T.State, batches: seq<Batch>)

  datatype Event =
    | Arrive(messages: seq<LateMessage>, batch: bool, triggerTurn: bool, forStage: bool, ownerGroup: string, now: int)
    | SendSettled(batchId: nat, ok: bool, now: int)
    | OtherAdmission(admissionEvent: A.Event)
    | OtherTracking(trackerEvent: T.Event)

  // ----- Routing ---------------------------------------------------------------------------

  /** A blocking ask to a completed stage is left to the workflow's own router. */
  predicate IsCompletedStageAskRoute(messages: seq<LateMessage>, forStage: bool) {
    forStage && messages != [] && forall k :: 0 <= k < |messages| ==> messages[k].Intercom? && messages[k].entry.expectsReply
  }

  /** Peers of another group are suppressed, except supervisors and the subagent relay. */
  predicate Forwards(entry: Entry, ownerGroup: string) {
    entry.supervisor || entry.from.id == "subagent-control" || entry.from.id == "subagent-result" || entry.group == ownerGroup
  }

  datatype Routed = Routed(admission: A.State, tracker: T.State, items: seq<Item>, joined: seq<nat>, queued: bool)

  function RouteOne(r: Routed, m: LateMessage, triggerTurn: bool, ownerGroup: string, askTimeoutMs: int, now: int): Routed {
    if m.Plain? then r.(items := r.items + [Item(m, None)])
    else if m.Malformed? || !Forwards(m.entry, ownerGroup) then r
    else
      var e := m.entry;
      var admitted := r.(admission := A.Step(r.admission, A.Admit(e.messageId, e.signature, now)));
      match A.AdmitResult(r.admission, e.messageId, e.signature, now)
      case Joined(token) => admitted.(joined := r.joined + [token])
      case Duplicate => admitted
      case Reserved(reservation) =>
        var context := T.Context(r.tracker.next, e.from, e.messageId, now);
        var recorded := T.Step(r.tracker, askTimeoutMs, T.RecordIncoming(e.from, e.messageId, e.expectsReply, now));
        var queues := triggerTurn && !r.queued;
        admitted.(tracker := if queues then T.Step(recorded, askTimeoutMs, T.QueueTurn(context)) else recorded,
                  items := r.items + [Item(m, Some(Owned(reservation, context)))],
                  queued := r.queued || queues)
  }

  function RouteAll(r: Routed, messages: seq<LateMessage>, triggerTurn: bool, ownerGroup: string, askTimeoutMs: int, now: int): Routed
    decreases |messages|
  {
    if messages == [] then r
    else RouteAll(RouteOne(r, messages[0], triggerTurn, ownerGroup, askTimeoutMs, now), messages[1..], triggerTurn, ownerGroup, askTimeoutMs, now)
  }

  // ----- Settling --------------------------------------------------------------------------

  function MarkOne(a: A.State, item: Item, delivering: bool): A.State {
    if item.owned.None? then a
    else A.Step(a, if delivering then A.BeginDelivery(item.owned.value.reservation) else A.EndDelivery(item.owned.value.reservation))
  }

  function MarkAll(a: A.State, items: seq<Item>, delivering: bool): A.State
    decreases |items|
  {
    if items == [] then a else MarkAll(MarkOne(a, items[0], delivering), items[1..], delivering)
  }

  function CommitAll(a: A.State, items: seq<Item>, now: int): A.State
    decreases |items|
  {
    if items == [] then a
    else CommitAll(if items[0].owned.Some? then A.Step(a, A.Commit(items[0].owned.value.reservation, now)) else a, items[1..], now)
  }

  function ReleaseAll(a: A.State, items: seq<Item>): A.State
    decreases |items|
  {
    if items == [] then a
    else ReleaseAll(if items[0].owned.Some? then A.Step(a, A.Release(items[0].owned.value.reservation)) else a, items[1..])
  }

  function ForgetAll(t: T.State, items: seq<Item>, askTimeoutMs: int): T.State
    decreases |items|
  {
    if items == [] then t
    else ForgetAll(if items[0].owned.Some? then T.Step(t, askTimeoutMs, T.Forget(items[0].owned.value.context)) else t,
                   items[1..], askTimeoutMs)
  }

  function Begun(a: A.State, batch: Batch): A.State {
    if batch.atomic then MarkAll(MarkAll(a, batch.items, true), batch.items, false)
    else if batch.sent < |batch.items| then MarkOne(a, batch.items[batch.sent], true)
    else a
  }

  function Arrived(r: Routed, atomic: bool): Batch {
    Batch(atomic, r.items, r.joined, 0, if r.items == [] then Delivered else Sending)
  }

  function Succeeded(s: State, b: nat, now: int): State
    requires b < |s.batches| && s.batches[b].phase == Sending && s.batches[b].sent < |s.batches[b].items|
  {
    var batch := s.batches[b];
    if batch.atomic then
      s.(admission := CommitAll(s.admission, batch.items, now),
         batches := s.batches[b := batch.(sent := |batch.items|, phase := Delivered)])
    else
      var item := batch.items[batch.sent];
      var next := batch.(sent := batch.sent + 1, phase := if batch.sent + 1 == |batch.items| then Delivered else Sending);
      s.(admission := Begun(CommitAll(MarkOne(s.admission, item, false), [item], now), next),
         batches := s.batches[b := next])
  }

  function Refused(s: State, askTimeoutMs: int, b: nat): State
    requires b < |s.batches| && s.batches[b].phase == Sending && s.batches[b].sent < |s.batches[b].items|
  {
    var batch := s.batches[b];
    var ended := if batch.atomic then s.admission else MarkOne(s.admission, batch.items[batch.sent], false);
    s.(admission := ReleaseAll(ended, batch.items[batch.sent..]),
       tracker := ForgetAll(s.tracker, batch.items[batch.sent..], askTimeoutMs),
       batches := s.batches[b := batch.(phase := Failed)])
  }

  function Step(s: State, askTimeoutMs: int, event: Event): State {
    match event
    case Arrive(messages, atomic, triggerTurn, forStage, ownerGroup, now) =>
      if IsCompletedStageAskRoute(messages, forStage) then s
      else
        var r := RouteAll(Routed(s.admission, s.tracker, [], [], false), messages, triggerTurn, ownerGroup, askTimeoutMs, now);
        var batch := Arrived(r, atomic);
        State(Begun(r.admission, batch), r.tracker, s.batches + [batch])
    case SendSettled(b, ok, now) =>
      if b >= |s.batches| || s.batches[b].phase != Sending || s.batches[b].sent >= |s.batches[b].items| then s
      else if ok then Succeeded(s, b, now)
      else Refused(s, askTimeoutMs, b)
    case OtherAdmission(e) => s.(admission := A.Step(s.admission, e))
    case OtherTracking(e) => s.(tracker := T.Step(s.tracker, askTimeoutMs, e))
  }

  function Run(s: State, askTimeoutMs: int, events: seq<Event>): State
    decreases |events|
  {
    if events == [] then s else Run(Step(s, askTimeoutMs, events[0]), askTimeoutMs, events[1..])
  }

  // ----- Ownership and what a batch promises ------------------------------------------------

  /** An accepted message that carries a reservation. */
  ghost predicate Owns(batches: seq<Batch>, b: nat, i: nat) {
    b < |batches| && i < |batches[b].items| && batches[b].items[i].owned.Some?
  }

  ghost function At(batches: seq<Batch>, b: nat, i: nat): Owned
    requires Owns(batches, b, i)
  {
    batches[b].items[i].owned.value
  }

  /**
   Others never hold a batch's reservations or reply contexts, so they cannot settle the former or
   queue the latter; and the clock does not run backwards.
   */
  ghost predicate Legal(s: State, event: Event) {
    match event
    case Arrive(_, _, _, _, _, now) => s.admission.clock <= now
    case SendSettled(_, _, now) => s.admission.clock <= now
    case OtherAdmission(e) =>
      && A.OnTime(s.admission, e)
      && (!e.Admit? ==> forall b: nat, i: nat :: Owns(s.batches, b, i) ==> e.reservation.token != At(s.batches, b, i).reservation.token)
    case OtherTracking(e) =>
      e.QueueTurn? ==> forall b: nat, i: nat :: Owns(s.batches, b, i) ==> e.context.ref != At(s.batches, b, i).context.ref
  }

  ghost predicate LegalRun(s: State, askTimeoutMs: int, events: seq<Event>)
    decreases |events|
  {
    events == [] || (Legal(s, events[0]) && LegalRun(Step(s, askTimeoutMs, events[0]), askTimeoutMs, events[1..]))
  }

  /** What must have become of the i-th reservation: committed if sent, released if the batch failed before. */
  function Expected(batch: Batch, i: nat): A.Outcome {
    if i < batch.sent then A.Committed else if batch.phase.Failed? then A.Released else A.Unsettled
  }

  ghost predicate Settled(a: A.State, t: T.State, batch: Batch, i: nat)
    requires i < |batch.items| && batch.items[i].owned.Some?
  {
    var o := batch.items[i].owned.value;
    && o.reservation.token < |a.tickets|
    && a.tickets[o.reservation.token] == A.Ticket(o.reservation.messageId, o.reservation.signature, Expected(batch, i))
    && o.context.ref < t.next
    && (Expected(batch, i) == A.Released ==> !T.Present(o.context, t))
  }

  ghost predicate PhaseMatches(batch: Batch) {
    && batch.sent <= |batch.items|
    && (batch.phase.Delivered? <==> batch.sent == |batch.items|)
    && (batch.atomic && !batch.phase.Delivered? ==> batch.sent == 0)
  }

  /** No two accepted messages share a reservation or a reply context. */
  ghost predicate Unshared(batches: seq<Batch>) {
    forall b: nat, i: nat, c: nat, j: nat :: Owns(batches, b, i) && Owns(batches, c, j) && (b != c || i != j) ==>
      && At(batches, b, i).reservation.token != At(batches, c, j).reservation.token
      && At(batches, b, i).context.ref != At(batches, c, j).context.ref
  }

  ghost predicate AllSettled(s: State) {
    forall b: nat, i: nat :: Owns(s.batches, b, i) ==> Settled(s.admission, s.tracker, s.batches[b], i)
  }

  ghost predicate Invariant(s: State) {
    && A.Consistent(s.admission) && T.DistinctMessages(s.tracker.asks)
    && (forall b :: 0 <= b < |s.batches| ==> PhaseMatches(s.batches[b]))
    && AllSettled(s) && Unshared(s.batches)
  }

  // ----- Folds over a batch ----------------------------------------------------------------

  function Tokens(items: seq<Item>): set<nat> {
    set k | 0 <= k < |items| && items[k].owned.Some? :: items[k].owned.value.reservation.token
  }

  /** Every reservation of the items is live, and no two share a token. */
  ghost predicate AllLive(a: A.State, items: seq<Item>) {
    && (forall k :: 0 <= k < |items| && items[k].owned.Some? ==>
        var r := items[k].owned.value.reservation;
        r.token < |a.tickets| && a.tickets[r.token] == A.Ticket(r.messageId, r.signature, A.Unsettled))
    && (forall k, l :: 0 <= k < l < |items| && items[k].owned.Some? && items[l].owned.Some? ==>
        items[k].owned.value.reservation.token != items[l].owned.value.reservation.token)
  }

  /** The tickets of the given tokens get an outcome, all others are untouched. */
  ghost predicate Sets(a: A.State, a': A.State, tokens: set<nat>, outcome: A.Outcome) {
    && |a'.tickets| == |a.tickets| && a'.clock >= a.clock
    && forall t :: 0 <= t < |a.tickets| ==>
         a'.tickets[t] == if t in tokens then a.tickets[t].(outcome := outcome) else a.tickets[t]
  }

  lemma {:induction false} MarkingKeepsTickets(a: A.State, items: seq<Item>, delivering: bool)
    requires A.Consistent(a)
    ensures A.Consistent(MarkAll(a, items, delivering))
    ensures MarkAll(a, items, delivering).tickets == a.tickets && MarkAll(a, items, delivering).clock == a.clock
    decreases |items|
  {
    if items != [] {
      MarkOneKeepsTickets(a, items[0], delivering);
      MarkingKeepsTickets(MarkOne(a, items[0], delivering), items[1..], delivering);
    }
  }

  lemma {:induction false} MarkOneKeepsTickets(a: A.State, item: Item, delivering: bool)
    requires A.Consistent(a)
    ensures A.Consistent(MarkOne(a, item, delivering))
    ensures MarkOne(a, item, delivering).tickets == a.tickets && MarkOne(a, item, delivering).clock == a.clock
  {
    if item.owned.Some? {
      var r := item.owned.value.reservation;
      A.DeliveringKeepsConsistent(a, r);
    }
  }

  lemma {:induction false} TokensOfRest(items: seq<Item>)
    requires items != []
    ensures Tokens(items) ==
      (if items[0].owned.Some? then {items[0].owned.value.reservation.token} else {}) + Tokens(items[1..])
  {
    assert forall k :: 0 < k < |items| ==> items[k] == items[1..][k - 1];
    forall t | t in Tokens(items)
      ensures (items[0].owned.Some? && t == items[0].owned.value.reservation.token) || t in Tokens(items[1..])
    {
      var k :| 0 <= k < |items| && items[k].owned.Some? && items[k].owned.value.reservation.token == t;
      assert k > 0 ==> items[1..][k - 1].owned.Some?;
    }
    forall t | t in Tokens(items[1..])
      ensures t in Tokens(items)
    {
      var k :| 0 <= k < |items[1..]| && items[1..][k].owned.Some? && items[1..][k].owned.value.reservation.token == t;
      assert items[k + 1].owned.Some?;
    }
  }

  lemma {:induction false} CommitSets(a: A.State, items: seq<Item>, now: int)
    requires A.Consistent(a) && AllLive(a, items) && a.clock <= now
    ensures A.Consistent(CommitAll(a, items, now)) && Sets(a, CommitAll(a, items, now), Tokens(items), A.Committed)
    decreases |items|
  {
    if items != [] {
      TokensOfRest(items);
      var a1 := a;
      if items[0].owned.Some? {
        var r := items[0].owned.value.reservation;
        A.CommitKeepsConsistent(a, r, now);
        a1 := A.Step(a, A.Commit(r, now));
        assert Sets(a, a1, {r.token}, A.Committed);
      }
      assert forall k :: 0 <= k < |items[1..]| ==> items[1..][k] == items[k + 1];
      CommitSets(a1, items[1..], now);
    }
  }

  lemma {:induction false} ReleaseSets(a: A.State, items: seq<Item>)
    requires A.Consistent(a) && AllLive(a, items)
    ensures A.Consistent(ReleaseAll(a, items)) && Sets(a, ReleaseAll(a, items), Tokens(items), A.Released)
    decreases |items|
  {
    if items != [] {
      TokensOfRest(items);
      var a1 := a;
      if items[0].owned.Some? {
        var r := items[0].owned.value.reservation;
        A.ReleaseKeepsConsistent(a, r);
        a1 := A.Step(a, A.Release(r));
        assert Sets(a, a1, {r.token}, A.Released);
      }
      assert forall k :: 0 <= k < |items[1..]| ==> items[1..][k] == items[k + 1];
      ReleaseSets(a1, items[1..]);
    }
  }

  lemma {:induction false} ForgettingErases(t: T.State, items: seq<Item>, askTimeoutMs: int)
    requires T.DistinctMessages(t.asks)
    ensures var t' := ForgetAll(t, items, askTimeoutMs);
      && T.DistinctMessages(t'.asks) && t'.next == t.next
      && (forall k :: 0 <= k < |items| && items[k].owned.Some? ==> !T.Present(items[k].owned.value.context, t'))
      && (forall c :: T.Present(c, t') ==> T.Present(c, t))
    decreases |items|
  {
    if items != [] {
      var t1 := t;
      if items[0].owned.Some? {
        var c := items[0].owned.value.context;
        T.ForgetErases(t, askTimeoutMs, c);
        T.StepKeepsDistinct(t, askTimeoutMs, T.Forget(c));
        t1 := T.Step(t, askTimeoutMs, T.Forget(c));
      }
      ForgettingErases(t1, items[1..], askTimeoutMs);
      assert forall k :: 0 < k < |items| ==> items[k] == items[1..][k - 1];
    }
  }

  // ----- Every step keeps the invariant ----------------------------------------------------

  /** What one pass over the messages has done to the admission ledger so far: new, live reservations only. */
  ghost predicate AdmittedFrom(a: A.State, a': A.State, items: seq<Item>) {
    && A.Consistent(a') && |a.tickets| <= |a'.tickets|
    && (forall t :: 0 <= t < |a.tickets| ==> a'.tickets[t] == a.tickets[t])
    && AllLive(a', items)
    && (forall k :: 0 <= k < |items| && items[k].owned.Some? ==> |a.tickets| <= items[k].owned.value.reservation.token)
  }

  /** And to the reply tracker: new contexts only, and nothing that was gone is back. */
  ghost predicate RecordedFrom(t: T.State, t': T.State, items: seq<Item>) {
    && T.DistinctMessages(t'.asks) && t.next <= t'.next
    && (forall c :: T.Present(c, t') && c.ref < t.next ==> T.Present(c, t))
    && (forall k :: 0 <= k < |items| && items[k].owned.Some? ==> t.next <= items[k].owned.value.context.ref < t'.next)
    && (forall k, l :: 0 <= k < l < |items| && items[k].owned.Some? && items[l].owned.Some? ==>
        items[k].owned.value.context.ref != items[l].owned.value.context.ref)
  }

  ghost predicate RoutedFrom(s: State, r: Routed) {
    AdmittedFrom(s.admission, r.admission, r.items) && RecordedFrom(s.tracker, r.tracker, r.items)
  }

  lemma {:induction false} AdmitKeeps(a: A.State, a': A.State, items: seq<Item>, m: LateMessage, context: T.Context, now: int)
    requires AdmittedFrom(a, a', items) && a'.clock <= now && m.Intercom?
    ensures var admitted := A.Step(a', A.Admit(m.entry.messageId, m.entry.signature, now));
      match A.AdmitResult(a', m.entry.messageId, m.entry.signature, now)
      case Reserved(r) => AdmittedFrom(a, admitted, items + [Item(m, Some(Owned(r, context)))])
      case _ => AdmittedFrom(a, admitted, items)
  {
    var e := m.entry;
    A.AdmitKeepsConsistent(a', e.messageId, e.signature, now);
    var admitted := A.Step(a', A.Admit(e.messageId, e.signature, now));
    var result := A.AdmitResult(a', e.messageId, e.signature, now);
    assert |a'.tickets| <= |admitted.tickets| && forall t :: 0 <= t < |a'.tickets| ==> admitted.tickets[t] == a'.tickets[t];
    assert AdmittedFrom(a, admitted, items);
    if result.Reserved? {
      var items' := items + [Item(m, Some(Owned(result.reservation, context)))];
      assert forall k :: 0 <= k < |items| ==> items'[k] == items[k];
      assert AllLive(admitted, items');
    }
  }

  lemma {:induction false} RecordKeeps(t: T.State, t': T.State, items: seq<Item>, m: LateMessage, r: A.Reservation, queues: bool, askTimeoutMs: int, now: int)
    requires RecordedFrom(t, t', items) && m.Intercom?
    ensures
      var context := T.Context(t'.next, m.entry.from, m.entry.messageId, now);
      var recorded := T.Step(t', askTimeoutMs, T.RecordIncoming(m.entry.from, m.entry.messageId, m.entry.expectsReply, now));
      var after := if queues then T.Step(recorded, askTimeoutMs, T.QueueTurn(context)) else recorded;
      RecordedFrom(t, after, items + [Item(m, Some(Owned(r, context)))])
  {
    var record := T.RecordIncoming(m.entry.from, m.entry.messageId, m.entry.expectsReply, now);
    T.StepKeepsDistinct(t', askTimeoutMs, record);
    forall c: T.Context | c.ref < t.next && !T.Present(c, t)
      ensures !T.Present(c, T.Step(t', askTimeoutMs, record))
    {
      T.GoneStaysGone(t', askTimeoutMs, record, c);
    }
  }

  lemma {:induction false} RouteOneKeeps(
      s: State, r: Routed, m: LateMessage, triggerTurn: bool, ownerGroup: string, askTimeoutMs: int, now: int)
    requires RoutedFrom(s, r) && r.admission.clock <= now
    ensures RoutedFrom(s, RouteOne(r, m, triggerTurn, ownerGroup, askTimeoutMs, now))
    ensures RouteOne(r, m, triggerTurn, ownerGroup, askTimeoutMs, now).admission.clock <= now
  {
    if m.Plain? {
      var items' := r.items + [Item(m, None)];
      assert AllLive(r.admission, items');
      assert AdmittedFrom(s.admission, r.admission, items') && RecordedFrom(s.tracker, r.tracker, items');
    } else if m.Intercom? && Forwards(m.entry, ownerGroup) {
      var context := T.Context(r.tracker.next, m.entry.from, m.entry.messageId, now);
      AdmitKeeps(s.admission, r.admission, r.items, m, context, now);
      var result := A.AdmitResult(r.admission, m.entry.messageId, m.entry.signature, now);
      if result.Reserved? {
        RecordKeeps(s.tracker, r.tracker, r.items, m, result.reservation, triggerTurn && !r.queued, askTimeoutMs, now);
      }
    }
  }

  lemma {:induction false} RouteAllKeeps(
      s: State, r: Routed, messages: seq<LateMessage>, triggerTurn: bool, ownerGroup: string, askTimeoutMs: int, now: int)
    requires RoutedFrom(s, r) && r.admission.clock <= now
    ensures RoutedFrom(s, RouteAll(r, messages, triggerTurn, ownerGroup, askTimeoutMs, now))
    ensures RouteAll(r, messages, triggerTurn, ownerGroup, askTimeoutMs, now).admission.clock <= now
    decreases |messages|
  {
    if messages != [] {
      RouteOneKeeps(s, r, messages[0], triggerTurn, ownerGroup, askTimeoutMs, now);
      RouteAllKeeps(s, RouteOne(r, messages[0], triggerTurn, ownerGroup, askTimeoutMs, now), messages[1..], triggerTurn, ownerGroup, askTimeoutMs, now);
    }
  }

  /** A batch of new, live reservations and new contexts joins the others. */
  lemma {:induction false} NewBatchSettled(s: State, r: Routed, a: A.State, batch: Batch)
    requires Invariant(s) && RoutedFrom(s, r) && a.tickets == r.admission.tickets
    requires batch.items == r.items && batch.sent == 0 && !batch.phase.Failed?
    ensures AllSettled(State(a, r.tracker, s.batches + [batch])) && Unshared(s.batches + [batch])
  {
    var all := s.batches + [batch];
    forall b: nat, i: nat | Owns(s.batches, b, i)
      ensures At(s.batches, b, i).reservation.token < |s.admission.tickets| && At(s.batches, b, i).context.ref < s.tracker.next
      ensures Settled(a, r.tracker, s.batches[b], i)
    {
      assert Settled(s.admission, s.tracker, s.batches[b], i);
    }
    forall b: nat, i: nat | Owns(all, b, i)
      ensures Settled(a, r.tracker, all[b], i)
    {
      assert b < |s.batches| ==> Owns(s.batches, b, i) && all[b] == s.batches[b];
    }
    NewBatchUnshared(s.batches, batch, |s.admission.tickets|, s.tracker.next);
  }

  lemma {:induction false} ArriveKeeps(s: State, askTimeoutMs: int, event: Event)
    requires Invariant(s) && event.Arrive? && Legal(s, event)
    ensures Invariant(Step(s, askTimeoutMs, event))
  {
    if !IsCompletedStageAskRoute(event.messages, event.forStage) {
      var r0 := Routed(s.admission, s.tracker, [], [], false);
      var r := RouteAll(r0, event.messages, event.triggerTurn, event.ownerGroup, askTimeoutMs, event.now);
      assert RoutedFrom(s, r0);
      RouteAllKeeps(s, r0, event.messages, event.triggerTurn, event.ownerGroup, askTimeoutMs, event.now);
      var batch := Arrived(r, event.batch);
      BeginningKeepsTickets(r.admission, batch);
      NewBatchSettled(s, r, Begun(r.admission, batch), batch);
    }
  }

  lemma {:induction false} NewBatchUnshared(batches: seq<Batch>, batch: Batch, token: nat, ref: nat)
    requires Unshared(batches)
    requires forall b: nat, i: nat :: Owns(batches, b, i) ==> At(batches, b, i).reservation.token < token && At(batches, b, i).context.ref < ref
    requires forall i: nat :: Owns([batch], 0, i) ==> At([batch], 0, i).reservation.token >= token && At([batch], 0, i).context.ref >= ref
    requires forall i: nat, j: nat :: Owns([batch], 0, i) && Owns([batch], 0, j) && i != j ==>
      && At([batch], 0, i).reservation.token != At([batch], 0, j).reservation.token
      && At([batch], 0, i).context.ref != At([batch], 0, j).context.ref
    ensures Unshared(batches + [batch])
  {
    var all := batches + [batch];
    forall b: nat, i: nat | Owns(all, b, i)
      ensures b < |batches| ==> Owns(batches, b, i) && At(all, b, i) == At(batches, b, i)
      ensures b == |batches| ==> Owns([batch], 0, i) && At(all, b, i) == At([batch], 0, i)
    {
    }
  }

  lemma {:induction false} BeginningKeepsTickets(a: A.State, batch: Batch)
    requires A.Consistent(a)
    ensures A.Consistent(Begun(a, batch)) && Begun(a, batch).tickets == a.tickets && Begun(a, batch).clock == a.clock
  {
    MarkingKeepsTickets(a, batch.items, true);
    MarkingKeepsTickets(MarkAll(a, batch.items, true), batch.items, false);
    if batch.sent < |batch.items| {
      MarkOneKeepsTickets(a, batch.items[batch.sent], true);
    }
  }

  lemma {:induction false} LiveRange(s: State, b: nat, lo: nat, hi: nat)
    requires Invariant(s) && b < |s.batches| && lo <= hi <= |s.batches[b].items|
    requires forall i :: lo <= i < hi ==> Expected(s.batches[b], i) == A.Unsettled
    ensures AllLive(s.admission, s.batches[b].items[lo..hi])
  {
    var range := s.batches[b].items[lo..hi];
    forall k | 0 <= k < |range| && range[k].owned.Some?
      ensures Owns(s.batches, b, lo + k) && At(s.batches, b, lo + k) == range[k].owned.value
      ensures Settled(s.admission, s.tracker, s.batches[b], lo + k)
    {
      assert Owns(s.batches, b, lo + k);
    }
  }

  /** Giving the items of a range their outcome, and touching no other ticket, is what the batch promised. */
  lemma {:induction false} RangeSettled(
      s: State, a: A.State, t: T.State, b: nat, lo: nat, hi: nat, outcome: A.Outcome, batch: Batch)
    requires Invariant(s) && b < |s.batches| && lo <= hi <= |s.batches[b].items| && batch.items == s.batches[b].items
    requires Sets(s.admission, a, Tokens(batch.items[lo..hi]), outcome)
    requires t.next == s.tracker.next && forall c :: T.Present(c, t) ==> T.Present(c, s.tracker)
    requires outcome == A.Released ==>
      forall k :: 0 <= k < hi - lo && batch.items[lo..hi][k].owned.Some? ==> !T.Present(batch.items[lo..hi][k].owned.value.context, t)
    requires forall i: nat :: i < |batch.items| ==>
      Expected(batch, i) == if lo <= i < hi then outcome else Expected(s.batches[b], i)
    ensures AllSettled(State(a, t, s.batches[b := batch])) && Unshared(s.batches[b := batch])
  {
    var after := State(a, t, s.batches[b := batch]);
    forall c: nat, i: nat | Owns(after.batches, c, i)
      ensures Owns(s.batches, c, i) && At(after.batches, c, i) == At(s.batches, c, i)
      ensures Settled(a, t, after.batches[c], i)
    {
      assert Owns(s.batches, c, i);
      assert Settled(s.admission, s.tracker, s.batches[c], i);
      var token, range := At(s.batches, c, i).reservation.token, batch.items[lo..hi];
      if token in Tokens(range) {
        var k :| 0 <= k < |range| && range[k].owned.Some? && range[k].owned.value.reservation.token == token;
        assert Owns(s.batches, b, lo + k) && At(s.batches, b, lo + k) == range[k].owned.value;
        assert c == b && i == lo + k;
      }
    }
  }

  lemma {:induction false} SucceededKeeps(s: State, b: nat, now: int)
    requires Invariant(s) && s.admission.clock <= now
    requires b < |s.batches| && s.batches[b].phase == Sending && s.batches[b].sent < |s.batches[b].items|
    ensures Invariant(Succeeded(s, b, now))
  {
    var batch, after := s.batches[b], Succeeded(s, b, now);
    var next := after.batches[b];
    var hi := if batch.atomic then |batch.items| else batch.sent + 1;
    var range := batch.items[batch.sent..hi];
    LiveRange(s, b, batch.sent, hi);
    if batch.atomic {
      assert range == batch.items;
      CommitSets(s.admission, range, now);
      RangeSettled(s, after.admission, s.tracker, b, 0, hi, A.Committed, next);
    } else {
      var item := batch.items[batch.sent];
      assert range == [item];
      MarkOneKeepsTickets(s.admission, item, false);
      var ended := MarkOne(s.admission, item, false);
      CommitSets(ended, [item], now);
      BeginningKeepsTickets(CommitAll(ended, [item], now), next);
      RangeSettled(s, after.admission, s.tracker, b, batch.sent, hi, A.Committed, next);
    }
  }

  lemma {:induction false} RefusedKeeps(s: State, askTimeoutMs: int, b: nat)
    requires Invariant(s)
    requires b < |s.batches| && s.batches[b].phase == Sending && s.batches[b].sent < |s.batches[b].items|
    ensures Invariant(Refused(s, askTimeoutMs, b))
  {
    var batch, after := s.batches[b], Refused(s, askTimeoutMs, b);
    var rest := batch.items[batch.sent..];
    assert rest == batch.items[batch.sent..|batch.items|];
    LiveRange(s, b, batch.sent, |batch.items|);
    MarkOneKeepsTickets(s.admission, batch.items[batch.sent], false);
    var ended := if batch.atomic then s.admission else MarkOne(s.admission, batch.items[batch.sent], false);
    ReleaseSets(ended, rest);
    ForgettingErases(s.tracker, rest, askTimeoutMs);
    RangeSettled(s, after.admission, after.tracker, b, batch.sent, |batch.items|, A.Released, after.batches[b]);
  }

  lemma {:induction false} OthersKeep(s: State, askTimeoutMs: int, event: Event)
    requires Invariant(s) && Legal(s, event) && (event.OtherAdmission? || event.OtherTracking?)
    ensures Invariant(Step(s, askTimeoutMs, event))
  {
    var t := Step(s, askTimeoutMs, event);
    if event.OtherAdmission? {
      A.RunOfOne(s.admission, event.admissionEvent);
      A.RunKeepsConsistent(s.admission, [event.admissionEvent]);
    } else {
      T.StepKeepsDistinct(s.tracker, askTimeoutMs, event.trackerEvent);
    }
    forall b: nat, i: nat | Owns(s.batches, b, i)
      ensures Settled(t.admission, t.tracker, s.batches[b], i)
    {
      assert Settled(s.admission, s.tracker, s.batches[b], i);
      var o := At(s.batches, b, i);
      if event.OtherAdmission? {
        A.OnlyOwnReservationSettles(s.admission, event.admissionEvent, o.reservation.token);
      } else if !T.Present(o.context, s.tracker) {
        T.GoneStaysGone(s.tracker, askTimeoutMs, event.trackerEvent, o.context);
      }
    }
  }

  lemma {:induction false} StepKeepsInvariant(s: State, askTimeoutMs: int, event: Event)
    requires Invariant(s) && Legal(s, event)
    ensures Invariant(Step(s, askTimeoutMs, event))
  {
    match event {
      case Arrive(_, _, _, _, _, _) => ArriveKeeps(s, askTimeoutMs, event);
      case SendSettled(b, ok, now) =>
        if b < |s.batches| && s.batches[b].phase == Sending && s.batches[b].sent < |s.batches[b].items| {
          if ok {
            SucceededKeeps(s, b, now);
          } else {
            RefusedKeeps(s, askTimeoutMs, b);
          }
        }
      case _ => OthersKeep(s, askTimeoutMs, event);
    }
  }

  lemma {:induction false} RunKeepsInvariant(s: State, askTimeoutMs: int, events: seq<Event>)
    requires Invariant(s) && LegalRun(s, askTimeoutMs, events)
    ensures Invariant(Run(s, askTimeoutMs, events))
    decreases |events|
  {
    if events != [] {
      StepKeepsInvariant(s, askTimeoutMs, events[0]);
      RunKeepsInvariant(Step(s, askTimeoutMs, events[0]), askTimeoutMs, events[1..]);
    }
  }

  const INITIAL := State(A.INITIAL, T.State([], [], None, 0), [])

  /**
   In every interleaving, a batch settles exactly what it reserved: an atomic batch commits all or
   releases all, a sequential one commits what it sent before the failing message and releases the
   rest, and a released message's reply context is nowhere in the tracker.
   */
  lemma {:induction false} EveryReservationIsSettled(askTimeoutMs: int, events: seq<Event>, b: nat, i: nat)
    requires LegalRun(INITIAL, askTimeoutMs, events)
    requires Owns(Run(INITIAL, askTimeoutMs, events).batches, b, i)
    ensures var s := Run(INITIAL, askTimeoutMs, events);
      var batch := s.batches[b];
      var outcome := if At(s.batches, b, i).reservation.token < |s.admission.tickets|
                     then s.admission.tickets[At(s.batches, b, i).reservation.token].outcome else A.Unsettled;
      && (outcome == A.Committed <==> i < batch.sent)
      && (outcome == A.Released <==> i >= batch.sent && batch.phase.Failed?)
      && (batch.phase.Delivered? ==> outcome == A.Committed)
      && (batch.atomic && batch.phase.Failed? ==> outcome == A.Released)
      && (outcome == A.Released ==> !T.Present(At(s.batches, b, i).context, s.tracker))
  {
    RunKeepsInvariant(INITIAL, askTimeoutMs, events);
    var s := Run(INITIAL, askTimeoutMs, events);
    assert Settled(s.admission, s.tracker, s.batches[b], i);
  }

  // ----- The class -------------------------------------------------------------------------

  class LateStageMessageRouter {
    const admission: A.InboundMessageAdmission
    const tracker: T.ReplyTracker
    var batches: seq<Batch>

    ghost function View(): State
      reads this, admission, admission.delivered, tracker
    {
      State(admission.View(), tracker.View(), batches)
    }

    ghost predicate Valid()
      reads this, admission, admission.delivered, tracker
    {
      admission.Valid() && tracker.Valid() && Invariant(View())
    }

    constructor (admission: A.InboundMessageAdmission, tracker: T.ReplyTracker)
      requires admission.Valid() && tracker.Valid()
      ensures Valid() && this.admission == admission && this.tracker == tracker && batches == []
    {
      this.admission, this.tracker, batches := admission, tracker, [];
    }

    /** Routes the messages, then starts the delivery; what follows is driven by `SendResolved` and `SendRejected`. */
    method HandleLateMessages(messages: seq<LateMessage>, batch: bool, triggerTurn: bool, forStage: bool, ownerGroup: string, now: int)
      returns (handled: bool)
      requires Valid() && admission.clock <= now
      modifies this, admission, admission.delivered, tracker
      ensures Valid()
      ensures View() == Step(old(View()), tracker.askTimeoutMs, Arrive(messages, batch, triggerTurn, forStage, ownerGroup, now))
      ensures handled <==> !IsCompletedStageAskRoute(messages, forStage)
    {
      ghost var before := View();
      ArriveKeeps(before, tracker.askTimeoutMs, Arrive(messages, batch, triggerTurn, forStage, ownerGroup, now));
      if IsCompletedStageAskRoute(messages, forStage) {
        return false;
      }
      var items, joined, queued := RouteMessages(messages, triggerTurn, ownerGroup, now);
      var owned := Batch(batch, items, joined, 0, if items == [] then Delivered else Sending);
      if batch {
        Mark(items, true);
        Mark(items, false);
      } else if items != [] {
        MarkItem(items[0], true);
      }
      batches := batches + [owned];
      handled := true;
    }

    method RouteMessages(messages: seq<LateMessage>, triggerTurn: bool, ownerGroup: string, now: int)
      returns (items: seq<Item>, joined: seq<nat>, queued: bool)
      requires admission.Valid() && tracker.Valid() && admission.clock <= now
      modifies admission, admission.delivered, tracker
      ensures admission.Valid() && tracker.Valid()
      ensures Routed(admission.View(), tracker.View(), items, joined, queued) ==
        RouteAll(Routed(old(admission.View()), old(tracker.View()), [], [], false), messages, triggerTurn, ownerGroup, tracker.askTimeoutMs, now)
    {
      items, joined, queued := [], [], false;
      for i := 0 to |messages|
        invariant admission.Valid() && tracker.Valid() && admission.clock <= now
        invariant RouteAll(Routed(admission.View(), tracker.View(), items, joined, queued), messages[i..], triggerTurn, ownerGroup, tracker.askTimeoutMs, now) ==
          RouteAll(Routed(old(admission.View()), old(tracker.View()), [], [], false), messages, triggerTurn, ownerGroup, tracker.askTimeoutMs, now)
      {
        assert messages[i..][1..] == messages[i + 1..];
        var message := messages[i];
        if message.Plain? {
          items := items + [Item(message, None)];
          continue;
        }
        if message.Malformed? || !Forwards(message.entry, ownerGroup) {
          continue;
        }
        var entry := message.entry;
        var result := admission.Admit(entry.messageId, entry.signature, now);
        if result.Joined? {
          joined := joined + [result.token];
          continue;
        }
        if result.Duplicate? {
          continue;
        }
        var context := tracker.RecordIncomingMessage(entry.from, entry.messageId, entry.expectsReply, now);
        if !queued && triggerTurn {
          tracker.QueueTurnContext(context);
          queued := true;
        }
        items := items + [Item(message, Some(Owned(result.reservation, context)))];
      }
    }

    method Mark(items: seq<Item>, delivering: bool)
      requires admission.Valid()
      modifies admission
      ensures admission.Valid() && admission.View() == MarkAll(old(admission.View()), items, delivering)
    {
      for i := 0 to |items|
        invariant admission.Valid()
        invariant MarkAll(admission.View(), items[i..], delivering) == MarkAll(old(admission.View()), items, delivering)
      {
        assert items[i..][1..] == items[i + 1..];
        MarkItem(items[i], delivering);
      }
    }

    method MarkItem(item: Item, delivering: bool)
      requires admission.Valid()
      modifies admission
      ensures admission.Valid() && admission.View() == MarkOne(old(admission.View()), item, delivering)
    {
      if item.owned.Some? {
        if delivering {
          admission.BeginDelivery(item.owned.value.reservation);
        } else {
          admission.EndDelivery(item.owned.value.reservation);
        }
      }
    }

    method Commit(items: seq<Item>, now: int)
      requires admission.Valid() && admission.clock <= now
      modifies admission, admission.delivered
      ensures admission.Valid() && admission.View() == CommitAll(old(admission.View()), items, now)
    {
      for i := 0 to |items|
        invariant admission.Valid() && admission.clock <= now
        invariant CommitAll(admission.View(), items[i..], now) == CommitAll(old(admission.View()), items, now)
      {
        assert items[i..][1..] == items[i + 1..];
        if items[i].owned.Some? {
          admission.Commit(items[i].owned.value.reservation, now);
        }
      }
    }

    method ReleaseReservations(items: seq<Item>)
      requires admission.Valid() && tracker.Valid()
      modifies admission, tracker
      ensures admission.Valid() && tracker.Valid()
      ensures admission.View() == ReleaseAll(old(admission.View()), items)
      ensures tracker.View() == ForgetAll(old(tracker.View()), items, tracker.askTimeoutMs)
    {
      for i := 0 to |items|
        invariant admission.Valid() && tracker.Valid()
        invariant ReleaseAll(admission.View(), items[i..]) == ReleaseAll(old(admission.View()), items)
        invariant ForgetAll(tracker.View(), items[i..], tracker.askTimeoutMs) == ForgetAll(old(tracker.View()), items, tracker.askTimeoutMs)
      {
        assert items[i..][1..] == items[i + 1..];
        if items[i].owned.Some? {
          admission.Release(items[i].owned.value.reservation);
          tracker.ForgetIncomingMessage(items[i].owned.value.context);
        }
      }
    }

    /** The host accepted the whole batch, or the message a sequential delivery was waiting for. */
    method SendResolved(b: nat, now: int)
      requires Valid() && admission.clock <= now
      requires b < |batches| && batches[b].phase == Sending
      modifies this, admission, admission.delivered
      ensures Valid() && View() == Step(old(View()), tracker.askTimeoutMs, SendSettled(b, true, now))
    {
      ghost var before := View();
      if batches[b].atomic {
        BatchResolved(b, now);
      } else {
        MessageResolved(b, now);
      }
      SucceededKeeps(before, b, now);
    }

    method BatchResolved(b: nat, now: int)
      requires admission.Valid() && admission.clock <= now
      requires b < |batches| && batches[b].phase == Sending && batches[b].atomic && batches[b].sent < |batches[b].items|
      modifies this, admission, admission.delivered
      ensures admission.Valid() && View() == Succeeded(old(View()), b, now)
    {
      Commit(batches[b].items, now);
      batches := batches[b := batches[b].(sent := |batches[b].items|, phase := Delivered)];
    }

    method MessageResolved(b: nat, now: int)
      requires admission.Valid() && admission.clock <= now
      requires b < |batches| && batches[b].phase == Sending && !batches[b].atomic && batches[b].sent < |batches[b].items|
      modifies this, admission, admission.delivered
      ensures admission.Valid() && View() == Succeeded(old(View()), b, now)
    {
      var owned := batches[b];
      var item := owned.items[owned.sent];
      MarkItem(item, false);
      Commit([item], now);
      var next := owned.(sent := owned.sent + 1, phase := if owned.sent + 1 == |owned.items| then Delivered else Sending);
      if next.sent < |next.items| {
        MarkItem(next.items[next.sent], true);
      }
      batches := batches[b := next];
    }

    /** The host refused it: everything not yet committed is released and its reply context forgotten. */
    method SendRejected(b: nat, now: int)
      requires Valid() && admission.clock <= now
      requires b < |batches| && batches[b].phase == Sending
      modifies this, admission, tracker
      ensures Valid() && View() == Step(old(View()), tracker.askTimeoutMs, SendSettled(b, false, now))
    {
      RefusedKeeps(View(), tracker.askTimeoutMs, b);
      var owned := batches[b];
      if !owned.atomic {
        MarkItem(owned.items[owned.sent], false);
      }
      ReleaseReservations(owned.items[owned.sent..]);
      batches := batches[b := owned.(phase := Failed)];
    }
  }
}
