/**
 What one arrival of late messages accepts, reserves and records
 (packages/intercom/late-stage-message-router.ts), and what the host's answers make of it.
 */
module LateStageArrivals {
  import opened Sequences
  import A = InboundMessageAdmissions
  import T = ReplyTrackers
  import opened LateStageMessageRouters

  // ----- What an arrival accepts -----------------------------------------------------------

  /** An intercom message with details, from a supervisor, the subagent relay or a peer of the group. */
  predicate Usable(m: LateMessage, ownerGroup: string) {
    m.Intercom? && (m.entry.supervisor || m.entry.group == ownerGroup || m.entry.from.id in {"subagent-control", "subagent-result"})
  }

  /** What the messages ask of the admission ledger: the usable ones, in order. */
  function Requests(messages: seq<LateMessage>, ownerGroup: string, now: int): seq<A.Event>
    decreases |messages|
  {
    if messages == [] then []
    else
      var last := messages[|messages| - 1];
      Requests(messages[..|messages| - 1], ownerGroup, now)
        + (if Usable(last, ownerGroup) then [A.Admit(last.entry.messageId, last.entry.signature, now)] else [])
  }

  /** What the ledger answers the k-th message, after the messages before it. */
  function AnswerTo(a: A.State, messages: seq<LateMessage>, ownerGroup: string, now: int, k: nat): A.Admission
    requires k < |messages| && messages[k].Intercom?
  {
    A.AdmitResult(A.Run(a, Requests(messages[..k], ownerGroup, now)), messages[k].entry.messageId, messages[k].entry.signature, now)
  }

  /** The message is of another kind, or usable and newly reserved. */
  predicate Accepted(a: A.State, messages: seq<LateMessage>, ownerGroup: string, now: int, k: nat)
    requires k < |messages|
  {
    messages[k].Plain? || (Usable(messages[k], ownerGroup) && AnswerTo(a, messages, ownerGroup, now, k).Reserved?)
  }

  predicate JoinsAnother(a: A.State, messages: seq<LateMessage>, ownerGroup: string, now: int, k: nat)
    requires k < |messages|
  {
    Usable(messages[k], ownerGroup) && AnswerTo(a, messages, ownerGroup, now, k).Joined?
  }

  predicate JoinsTicket(a: A.State, messages: seq<LateMessage>, ownerGroup: string, now: int, k: nat, token: nat)
    requires k < |messages|
  {
    messages[k].Intercom? && AnswerTo(a, messages, ownerGroup, now, k) == A.Joined(token)
  }

  /** An item carries its message and, if that is an intercom message, the reservation made for it and a context of it. */
  predicate Carries(a: A.State, messages: seq<LateMessage>, ownerGroup: string, now: int, k: nat, item: Item)
    requires k < |messages|
  {
    && item.message == messages[k]
    && (messages[k].Plain? ==> item.owned == None)
    && (messages[k].Intercom? ==>
          && item.owned.Some?
          && AnswerTo(a, messages, ownerGroup, now, k) == A.Reserved(item.owned.value.reservation)
          && item.owned.value.context.from == messages[k].entry.from
          && item.owned.value.context.messageId == messages[k].entry.messageId
          && item.owned.value.context.receivedAt == now)
  }

  ghost predicate Increasing(positions: seq<nat>, bound: nat) {
    && (forall i, j :: 0 <= i < j < |positions| ==> positions[i] < positions[j])
    && (forall i :: 0 <= i < |positions| ==> positions[i] < bound)
  }

  /** The items are those of the accepted messages, one each, in the order of arrival. */
  ghost predicate Collects(a: A.State, messages: seq<LateMessage>, ownerGroup: string, now: int, at: seq<nat>, items: seq<Item>) {
    && Increasing(at, |messages|) && |items| == |at|
    && (forall i :: 0 <= i < |at| ==> Carries(a, messages, ownerGroup, now, at[i], items[i]))
    && (forall k: nat :: k < |messages| ==> (k in at <==> Accepted(a, messages, ownerGroup, now, k)))
  }

  /** The promises joined are those of the messages whose admission is pending elsewhere. */
  ghost predicate Awaits(a: A.State, messages: seq<LateMessage>, ownerGroup: string, now: int, at: seq<nat>, joined: seq<nat>) {
    && Increasing(at, |messages|) && |joined| == |at|
    && (forall i :: 0 <= i < |at| ==> JoinsTicket(a, messages, ownerGroup, now, at[i], joined[i]))
    && (forall k: nat :: k < |messages| ==> (k in at <==> JoinsAnother(a, messages, ownerGroup, now, k)))
  }

  /** Every ticket from `first` on belongs to an item. */
  ghost predicate TicketsOwned(first: nat, a: A.State, items: seq<Item>) {
    && first <= |a.tickets|
    && forall t: nat :: first <= t < |a.tickets| ==> OwnedBySome(items, t)
  }

  ghost predicate OwnedBySome(items: seq<Item>, token: nat) {
    exists i: nat :: i < |items| && items[i].owned.Some? && items[i].owned.value.reservation.token == token
  }

  lemma {:induction false} RouteAllSnoc(r: Routed, messages: seq<LateMessage>, m: LateMessage, triggerTurn: bool, ownerGroup: string, askTimeoutMs: int, now: int)
    ensures RouteAll(r, messages + [m], triggerTurn, ownerGroup, askTimeoutMs, now)
         == RouteOne(RouteAll(r, messages, triggerTurn, ownerGroup, askTimeoutMs, now), m, triggerTurn, ownerGroup, askTimeoutMs, now)
    decreases |messages|
  {
    if messages == [] {
      assert [] + [m] == [m] && [m][1..] == [];
    } else {
      assert (messages + [m])[1..] == messages[1..] + [m];
      RouteAllSnoc(RouteOne(r, messages[0], triggerTurn, ownerGroup, askTimeoutMs, now), messages[1..], m, triggerTurn, ownerGroup, askTimeoutMs, now);
    }
  }

  lemma {:induction false} RunSnoc(a: A.State, events: seq<A.Event>, event: A.Event)
    ensures A.Run(a, events + [event]) == A.Step(A.Run(a, events), event)
    decreases |events|
  {
    if events == [] {
      assert [] + [event] == [event];
      A.RunOfOne(a, event);
    } else {
      assert (events + [event])[1..] == events[1..] + [event];
      RunSnoc(A.Step(a, events[0]), events[1..], event);
    }
  }

  /** One message more changes nothing for those before it. */
  lemma {:induction false} PrefixesKeep(a: A.State, init: seq<LateMessage>, m: LateMessage, ownerGroup: string, now: int, k: nat)
    requires k < |init|
    ensures (init + [m])[k] == init[k]
    ensures init[k].Intercom? ==> AnswerTo(a, init + [m], ownerGroup, now, k) == AnswerTo(a, init, ownerGroup, now, k)
    ensures Accepted(a, init + [m], ownerGroup, now, k) == Accepted(a, init, ownerGroup, now, k)
    ensures JoinsAnother(a, init + [m], ownerGroup, now, k) == JoinsAnother(a, init, ownerGroup, now, k)
    ensures forall item :: Carries(a, init, ownerGroup, now, k, item) ==> Carries(a, init + [m], ownerGroup, now, k, item)
    ensures forall token :: JoinsTicket(a, init, ownerGroup, now, k, token) ==> JoinsTicket(a, init + [m], ownerGroup, now, k, token)
  {
    assert (init + [m])[..k] == init[..k];
  }

  lemma {:induction false} LastAnswer(a: A.State, init: seq<LateMessage>, m: LateMessage, ownerGroup: string, now: int)
    ensures A.Run(a, Requests(init + [m], ownerGroup, now)) ==
      (var before := A.Run(a, Requests(init, ownerGroup, now));
       if Usable(m, ownerGroup) then A.Step(before, A.Admit(m.entry.messageId, m.entry.signature, now)) else before)
    ensures m.Intercom? ==>
      AnswerTo(a, init + [m], ownerGroup, now, |init|) == A.AdmitResult(A.Run(a, Requests(init, ownerGroup, now)), m.entry.messageId, m.entry.signature, now)
  {
    assert (init + [m])[..|init|] == init;
    if Usable(m, ownerGroup) {
      RunSnoc(a, Requests(init, ownerGroup, now), A.Admit(m.entry.messageId, m.entry.signature, now));
    } else {
      assert Requests(init, ownerGroup, now) + [] == Requests(init, ownerGroup, now);
    }
  }

  lemma {:induction false} CollectsOneMore(
      a: A.State, init: seq<LateMessage>, m: LateMessage, ownerGroup: string, now: int, at: seq<nat>, items: seq<Item>, items': seq<Item>) returns (at': seq<nat>)
    requires Collects(a, init, ownerGroup, now, at, items)
    requires if Accepted(a, init + [m], ownerGroup, now, |init|)
             then |items'| == |items| + 1 && items'[..|items|] == items && Carries(a, init + [m], ownerGroup, now, |init|, items'[|items|])
             else items' == items
    ensures Collects(a, init + [m], ownerGroup, now, at', items')
  {
    at' := if Accepted(a, init + [m], ownerGroup, now, |init|) then at + [|init|] else at;
    forall k: nat | k < |init|
      ensures k in at' <==> k in at
      ensures Accepted(a, init + [m], ownerGroup, now, k) == Accepted(a, init, ownerGroup, now, k)
    {
      PrefixesKeep(a, init, m, ownerGroup, now, k);
    }
    forall i | 0 <= i < |at|
      ensures Carries(a, init + [m], ownerGroup, now, at[i], items'[i])
    {
      PrefixesKeep(a, init, m, ownerGroup, now, at[i]);
      assert items'[..|items|][i] == items[i];
    }
  }

  lemma {:induction false} AwaitsOneMore(
      a: A.State, init: seq<LateMessage>, m: LateMessage, ownerGroup: string, now: int, at: seq<nat>, joined: seq<nat>, joined': seq<nat>) returns (at': seq<nat>)
    requires Awaits(a, init, ownerGroup, now, at, joined)
    requires if JoinsAnother(a, init + [m], ownerGroup, now, |init|)
             then |joined'| == |joined| + 1 && joined'[..|joined|] == joined && JoinsTicket(a, init + [m], ownerGroup, now, |init|, joined'[|joined|])
             else joined' == joined
    ensures Awaits(a, init + [m], ownerGroup, now, at', joined')
  {
    at' := if JoinsAnother(a, init + [m], ownerGroup, now, |init|) then at + [|init|] else at;
    forall k: nat | k < |init|
      ensures k in at' <==> k in at
      ensures JoinsAnother(a, init + [m], ownerGroup, now, k) == JoinsAnother(a, init, ownerGroup, now, k)
    {
      PrefixesKeep(a, init, m, ownerGroup, now, k);
    }
    forall i | 0 <= i < |at|
      ensures JoinsTicket(a, init + [m], ownerGroup, now, at[i], joined'[i])
    {
      PrefixesKeep(a, init, m, ownerGroup, now, at[i]);
      assert joined'[..|joined|][i] == joined[i];
    }
  }

  ghost function Pass(s: State, askTimeoutMs: int, e: Event, messages: seq<LateMessage>): Routed
    requires e.Arrive?
  {
    RouteAll(Routed(s.admission, s.tracker, [], [], false), messages, e.triggerTurn, e.ownerGroup, askTimeoutMs, e.now)
  }

  lemma {:induction false} PassCollects(s: State, askTimeoutMs: int, e: Event, messages: seq<LateMessage>) returns (at: seq<nat>, joins: seq<nat>)
    requires e.Arrive?
    ensures var r := Pass(s, askTimeoutMs, e, messages);
      && r.admission == A.Run(s.admission, Requests(messages, e.ownerGroup, e.now))
      && Collects(s.admission, messages, e.ownerGroup, e.now, at, r.items)
      && Awaits(s.admission, messages, e.ownerGroup, e.now, joins, r.joined)
    decreases |messages|
  {
    if messages == [] {
      at, joins := [], [];
    } else {
      var init, m := messages[..|messages| - 1], messages[|messages| - 1];
      assert messages == init + [m];
      at, joins := PassCollects(s, askTimeoutMs, e, init);
      var r, r' := Pass(s, askTimeoutMs, e, init), Pass(s, askTimeoutMs, e, messages);
      RouteAllSnoc(Routed(s.admission, s.tracker, [], [], false), init, m, e.triggerTurn, e.ownerGroup, askTimeoutMs, e.now);
      LastAnswer(s.admission, init, m, e.ownerGroup, e.now);
      at := CollectsOneMore(s.admission, init, m, e.ownerGroup, e.now, at, r.items, r'.items);
      joins := AwaitsOneMore(s.admission, init, m, e.ownerGroup, e.now, joins, r.joined, r'.joined);
    }
  }

  // ----- What it reserves and records ------------------------------------------------------

  ghost predicate OwnedAt(items: seq<Item>, i: nat) {
    i < |items| && items[i].owned.Some?
  }

  /** An item's reservation, context and message are of one message id. */
  ghost predicate Tagged(items: seq<Item>) {
    forall i: nat :: OwnedAt(items, i) ==>
      && items[i].message.Intercom?
      && items[i].message.entry.messageId == items[i].owned.value.reservation.messageId == items[i].owned.value.context.messageId
  }

  /** A reserved message that expects a reply. */
  predicate IsAsk(item: Item) {
    item.owned.Some? && item.message.Intercom? && item.message.entry.expectsReply
  }

  ghost predicate Asks(items: seq<Item>, i: nat, c: T.Context) {
    i < |items| && IsAsk(items[i]) && items[i].owned.value.context == c
  }

  ghost predicate AsksWithId(items: seq<Item>, messageId: string) {
    exists i: nat :: i < |items| && IsAsk(items[i]) && items[i].message.entry.messageId == messageId
  }

  /** The first reserved message, and no other, gets the turn. */
  ghost predicate QueuesFirst(items: seq<Item>, triggerTurn: bool, turns: seq<T.Context>) {
    if triggerTurn && exists i: nat :: OwnedAt(items, i) then
      exists i: nat :: OwnedAt(items, i) && (forall j: nat :: j < i ==> !OwnedAt(items, j)) && turns == [items[i].owned.value.context]
    else turns == []
  }

  /** The asks are those before, without those of a repeated id, and those of the items that expect a reply. */
  ghost predicate Records(before: T.State, after: T.State, items: seq<Item>, triggerTurn: bool) {
    && after.current == before.current
    && |before.turns| <= |after.turns| && after.turns[..|before.turns|] == before.turns
    && QueuesFirst(items, triggerTurn, after.turns[|before.turns|..])
    && (forall c :: c in after.asks <==>
        || (exists i: nat :: Asks(items, i, c))
        || (c in before.asks && !AsksWithId(items, c.messageId)))
  }

  lemma {:induction false} OwnsOneMore(first: nat, r: Routed, m: LateMessage, triggerTurn: bool, ownerGroup: string, askTimeoutMs: int, now: int)
    requires TicketsOwned(first, r.admission, r.items)
    ensures var r' := RouteOne(r, m, triggerTurn, ownerGroup, askTimeoutMs, now);
      TicketsOwned(first, r'.admission, r'.items)
  {
    var r' := RouteOne(r, m, triggerTurn, ownerGroup, askTimeoutMs, now);
    assert |r.items| <= |r'.items| && forall i :: 0 <= i < |r.items| ==> r'.items[i] == r.items[i];
    forall t: nat | first <= t < |r'.admission.tickets|
      ensures OwnedBySome(r'.items, t)
    {
      if t < |r.admission.tickets| {
        assert OwnedBySome(r.items, t);
        var i: nat :| i < |r.items| && r.items[i].owned.Some? && r.items[i].owned.value.reservation.token == t;
        assert r'.items[i] == r.items[i];
      } else {
        assert r'.items[|r.items|].owned.value.reservation.token == t;
      }
    }
  }

  lemma {:induction false} TaggedOneMore(r: Routed, m: LateMessage, triggerTurn: bool, ownerGroup: string, askTimeoutMs: int, now: int)
    requires Tagged(r.items)
    ensures Tagged(RouteOne(r, m, triggerTurn, ownerGroup, askTimeoutMs, now).items)
  {
    var r' := RouteOne(r, m, triggerTurn, ownerGroup, askTimeoutMs, now);
    assert |r.items| <= |r'.items| && forall i :: 0 <= i < |r.items| ==> r'.items[i] == r.items[i];
    assert forall i: nat :: OwnedAt(r'.items, i) && i < |r.items| ==> OwnedAt(r.items, i);
  }

  /** A message that is reserved has an id that no live reservation has. */
  lemma {:induction false} FreshId(s: State, r: Routed, messageId: string, signature: string, now: int, i: nat)
    requires RoutedFrom(s, r) && Tagged(r.items) && OwnedAt(r.items, i)
    requires A.AdmitResult(r.admission, messageId, signature, now).Reserved?
    ensures r.items[i].owned.value.context.messageId != messageId
  {
    var reservation := r.items[i].owned.value.reservation;
    assert r.admission.tickets[reservation.token].outcome.Unsettled?;
  }

  lemma {:induction false} QueuesOneMore(items: seq<Item>, item: Item, triggerTurn: bool, turns: seq<T.Context>, turns': seq<T.Context>)
    requires QueuesFirst(items, triggerTurn, turns)
    requires turns' == if item.owned.Some? && triggerTurn && turns == [] then [item.owned.value.context] else turns
    ensures QueuesFirst(items + [item], triggerTurn, turns')
  {
    var items' := items + [item];
    assert forall i: nat :: i < |items| ==> (OwnedAt(items', i) <==> OwnedAt(items, i));
    if triggerTurn && exists i: nat :: OwnedAt(items, i) {
      var i: nat :| OwnedAt(items, i) && (forall j: nat :: j < i ==> !OwnedAt(items, j)) && turns == [items[i].owned.value.context];
      assert OwnedAt(items', i) && items'[i] == items[i];
    } else if item.owned.Some? {
      assert OwnedAt(items', |items|);
    }
  }

  lemma {:induction false} AsksOneMore(before: T.State, asks: seq<T.Context>, items: seq<Item>, item: Item)
    requires T.DistinctMessages(asks) && Tagged(items + [item])
    requires forall c :: c in asks <==> (exists i: nat :: Asks(items, i, c)) || (c in before.asks && !AsksWithId(items, c.messageId))
    requires item.owned.Some? ==> forall i: nat :: OwnedAt(items, i) ==> items[i].owned.value.context.messageId != item.owned.value.context.messageId
    ensures var after := if IsAsk(item) then T.Put(asks, item.owned.value.context) else asks;
      forall c :: c in after <==> (exists i: nat :: Asks(items + [item], i, c)) || (c in before.asks && !AsksWithId(items + [item], c.messageId))
  {
    var items' := items + [item];
    var after := if IsAsk(item) then T.Put(asks, item.owned.value.context) else asks;
    if IsAsk(item) {
      T.PutMembers(asks, item.owned.value.context);
      assert OwnedAt(items', |items|);
    }
    forall c
      ensures c in after <==> (exists i: nat :: Asks(items', i, c)) || (c in before.asks && !AsksWithId(items', c.messageId))
    {
      OneMoreAsk(items, item, c);
      if i: nat :| Asks(items, i, c) {
        assert OwnedAt(items, i);
      }
    }
  }

  lemma {:induction false} OneMoreAsk(items: seq<Item>, item: Item, c: T.Context)
    ensures (exists i: nat :: Asks(items + [item], i, c)) <==> ((exists i: nat :: Asks(items, i, c)) || (IsAsk(item) && item.owned.value.context == c))
    ensures AsksWithId(items + [item], c.messageId) <==> (AsksWithId(items, c.messageId) || (IsAsk(item) && item.message.entry.messageId == c.messageId))
  {
    var items' := items + [item];
    assert items'[|items|] == item;
    assert IsAsk(item) && item.owned.value.context == c ==> Asks(items', |items|, c);
    assert forall i: nat :: i < |items| ==> items'[i] == items[i];
    assert forall i: nat :: Asks(items', i, c) && i != |items| ==> Asks(items, i, c);
    assert forall i: nat :: Asks(items, i, c) ==> Asks(items', i, c);
  }

  lemma {:induction false} RecordsOneMore(s: State, r: Routed, m: LateMessage, triggerTurn: bool, ownerGroup: string, askTimeoutMs: int, now: int)
    requires RoutedFrom(s, r) && Tagged(r.items) && Records(s.tracker, r.tracker, r.items, triggerTurn)
    requires r.queued <==> |r.tracker.turns| > |s.tracker.turns|
    ensures var r' := RouteOne(r, m, triggerTurn, ownerGroup, askTimeoutMs, now);
      Records(s.tracker, r'.tracker, r'.items, triggerTurn) && (r'.queued <==> |r'.tracker.turns| > |s.tracker.turns|)
  {
    var r' := RouteOne(r, m, triggerTurn, ownerGroup, askTimeoutMs, now);
    TaggedOneMore(r, m, triggerTurn, ownerGroup, askTimeoutMs, now);
    if |r'.items| > |r.items| {
      var item := r'.items[|r.items|];
      forall i: nat | item.owned.Some? && OwnedAt(r.items, i)
        ensures r.items[i].owned.value.context.messageId != item.owned.value.context.messageId
      {
        FreshId(s, r, m.entry.messageId, m.entry.signature, now, i);
      }
      ItemRecorded(s.tracker, r, r', item, triggerTurn);
    }
  }

  lemma {:induction false} ItemRecorded(before: T.State, r: Routed, r': Routed, item: Item, triggerTurn: bool)
    requires T.DistinctMessages(r.tracker.asks) && Tagged(r'.items) && Records(before, r.tracker, r.items, triggerTurn)
    requires r.queued <==> |r.tracker.turns| > |before.turns|
    requires item.owned.Some? ==> forall i: nat :: OwnedAt(r.items, i) ==> r.items[i].owned.value.context.messageId != item.owned.value.context.messageId
    requires r'.items == r.items + [item] && r'.tracker.current == r.tracker.current
    requires r'.tracker.asks == if IsAsk(item) then T.Put(r.tracker.asks, item.owned.value.context) else r.tracker.asks
    requires r'.tracker.turns == if item.owned.Some? && triggerTurn && !r.queued then r.tracker.turns + [item.owned.value.context] else r.tracker.turns
    ensures Records(before, r'.tracker, r'.items, triggerTurn)
  {
    AsksOneMore(before, r.tracker.asks, r.items, item);
    QueuesOneMore(r.items, item, triggerTurn, r.tracker.turns[|before.turns|..], r'.tracker.turns[|before.turns|..]);
  }

  lemma {:induction false} PassRecords(s: State, askTimeoutMs: int, e: Event, messages: seq<LateMessage>)
    requires Invariant(s) && e.Arrive? && s.admission.clock <= e.now
    ensures var r := Pass(s, askTimeoutMs, e, messages);
      && RoutedFrom(s, r) && Tagged(r.items)
      && TicketsOwned(|s.admission.tickets|, r.admission, r.items)
      && Records(s.tracker, r.tracker, r.items, e.triggerTurn)
      && (r.queued <==> |r.tracker.turns| > |s.tracker.turns|)
    decreases |messages|
  {
    var r0 := Routed(s.admission, s.tracker, [], [], false);
    assert RoutedFrom(s, r0);
    RouteAllKeeps(s, r0, messages, e.triggerTurn, e.ownerGroup, askTimeoutMs, e.now);
    if messages != [] {
      var init, m := messages[..|messages| - 1], messages[|messages| - 1];
      assert messages == init + [m];
      PassRecords(s, askTimeoutMs, e, init);
      RouteAllSnoc(r0, init, m, e.triggerTurn, e.ownerGroup, askTimeoutMs, e.now);
      var r := Pass(s, askTimeoutMs, e, init);
      OwnsOneMore(|s.admission.tickets|, r, m, e.triggerTurn, e.ownerGroup, askTimeoutMs, e.now);
      TaggedOneMore(r, m, e.triggerTurn, e.ownerGroup, askTimeoutMs, e.now);
      RecordsOneMore(s, r, m, e.triggerTurn, e.ownerGroup, askTimeoutMs, e.now);
    }
  }

  /** A blocking ask to a completed stage: a non-empty list of asks only. */
  predicate OnlyAsks(messages: seq<LateMessage>) {
    messages != [] && forall m :: m in messages ==> m.Intercom? && m.entry.expectsReply
  }

  /** Every new ticket belongs to exactly one item of the new batch. */
  ghost predicate TicketsOwnedOnce(first: nat, a: A.State, items: seq<Item>) {
    && TicketsOwned(first, a, items)
    && forall i: nat, j: nat :: OwnedAt(items, i) && OwnedAt(items, j) && i != j ==>
         items[i].owned.value.reservation.token != items[j].owned.value.reservation.token
  }

  /**
   An arrival is refused exactly for a stage's asks. Otherwise it adds one batch, whose items are those of
   the accepted messages in their order and whose promises are those of the messages pending elsewhere; it
   makes a ticket for exactly the reserved ones, asks for exactly those that expect a reply, and queues
   at most one turn, for the first of them.
   */
  lemma {:induction false} ArrivalIsExact(s: State, askTimeoutMs: int, e: Event)
    requires Invariant(s) && e.Arrive? && s.admission.clock <= e.now
    ensures var t := Step(s, askTimeoutMs, e);
      if e.forStage && OnlyAsks(e.messages) then t == s
      else
        && |t.batches| == |s.batches| + 1 && t.batches[..|s.batches|] == s.batches
        && var batch := t.batches[|s.batches|];
        && batch.atomic == e.batch && batch.sent == 0 && batch.phase == (if batch.items == [] then Delivered else Sending)
        && (exists at: seq<nat> :: Collects(s.admission, e.messages, e.ownerGroup, e.now, at, batch.items))
        && (exists at: seq<nat> :: Awaits(s.admission, e.messages, e.ownerGroup, e.now, at, batch.joined))
        && TicketsOwnedOnce(|s.admission.tickets|, t.admission, batch.items)
        && t.admission.tickets == A.Run(s.admission, Requests(e.messages, e.ownerGroup, e.now)).tickets
        && Records(s.tracker, t.tracker, batch.items, e.triggerTurn)
  {
    assert OnlyAsks(e.messages) <==> (e.messages != [] && forall k :: 0 <= k < |e.messages| ==> e.messages[k].Intercom? && e.messages[k].entry.expectsReply);
    var t := Step(s, askTimeoutMs, e);
    if !(e.forStage && OnlyAsks(e.messages)) {
      var r := Pass(s, askTimeoutMs, e, e.messages);
      var at, joins := PassCollects(s, askTimeoutMs, e, e.messages);
      PassRecords(s, askTimeoutMs, e, e.messages);
      BeginningKeepsTickets(r.admission, Arrived(r, e.batch));
      TokensDiffer(r.admission, r.items);
    }
  }

  lemma TokensDiffer(a: A.State, items: seq<Item>)
    requires AllLive(a, items)
    ensures forall i: nat, j: nat :: OwnedAt(items, i) && OwnedAt(items, j) && i != j ==>
      items[i].owned.value.reservation.token != items[j].owned.value.reservation.token
  {
    forall i: nat, j: nat | OwnedAt(items, i) && OwnedAt(items, j) && i != j
      ensures items[i].owned.value.reservation.token != items[j].owned.value.reservation.token
    {
      if i < j {
      } else {
        assert j < i;
      }
    }
  }

  // ----- What the host's answers make of it ------------------------------------------------

  /** The host's answers to the sends of a batch. */
  function Answers(events: seq<Event>, b: nat): seq<bool> {
    if events == [] then []
    else (if events[0].SendSettled? && events[0].batchId == b then [events[0].ok] else []) + Answers(events[1..], b)
  }

  /** How many answers precede the first refusal. */
  function Accepting(answers: seq<bool>): nat {
    if answers == [] || !answers[0] then 0 else 1 + Accepting(answers[1..])
  }

  /**
   A batch goes on as the answers say: an atomic one is delivered or failed by the first; a sequential one
   has sent as many messages as were accepted before the first refusal, and fails by it while any is left.
   Answers to a batch that has ended change nothing.
   */
  ghost predicate Follows(before: Batch, after: Batch, answers: seq<bool>) {
    && after.atomic == before.atomic && after.items == before.items && after.joined == before.joined
    && if before.phase != Sending || answers == [] then after == before
       else if before.atomic then
         if answers[0] then after.phase == Delivered && after.sent == |before.items|
         else after.phase == Failed && after.sent == before.sent
       else
         var accepted := before.sent + Accepting(answers);
         if accepted >= |before.items| then after.phase == Delivered && after.sent == |before.items|
         else if Accepting(answers) < |answers| then after.phase == Failed && after.sent == accepted
         else after.phase == Sending && after.sent == accepted
  }

  lemma {:induction false} AcceptingBounded(answers: seq<bool>)
    ensures Accepting(answers) <= |answers|
  {
    if answers != [] {
      AcceptingBounded(answers[1..]);
    }
  }

  lemma {:induction false} FollowsThen(first: Batch, second: Batch, third: Batch, answers: seq<bool>, rest: seq<bool>)
    requires PhaseMatches(first) && PhaseMatches(second) && |answers| <= 1
    requires Follows(first, second, answers) && Follows(second, third, rest)
    ensures Follows(first, third, answers + rest)
  {
    if answers == [] {
      assert answers + rest == rest;
    } else {
      assert (answers + rest)[1..] == rest && answers[1..] == [];
      assert Accepting(answers) == if answers[0] then 1 else 0;
      assert Accepting(answers + rest) == if answers[0] then 1 + Accepting(rest) else 0;
      AcceptingBounded(rest);
    }
  }

  lemma {:induction false} StepFollows(s: State, askTimeoutMs: int, event: Event, b: nat)
    requires Invariant(s) && b < |s.batches|
    ensures var t := Step(s, askTimeoutMs, event);
      |t.batches| >= |s.batches| && Follows(s.batches[b], t.batches[b], Answers([event], b))
  {
    assert [event][1..] == [];
    if event.SendSettled? && event.batchId == b {
      assert Answers([event], b) == [event.ok];
      assert [event.ok][1..] == [];
      assert PhaseMatches(s.batches[b]);
      assert Accepting([event.ok]) == if event.ok then 1 else 0;
    } else {
      assert Answers([event], b) == [];
    }
  }

  /** In every run, the batch of an arrival keeps its items and follows the host's answers. */
  lemma {:induction false} BatchFollowsAnswers(s: State, askTimeoutMs: int, events: seq<Event>, b: nat)
    requires Invariant(s) && LegalRun(s, askTimeoutMs, events) && b < |s.batches|
    ensures var t := Run(s, askTimeoutMs, events);
      b < |t.batches| && Follows(s.batches[b], t.batches[b], Answers(events, b))
    decreases |events|
  {
    if events != [] {
      var t := Step(s, askTimeoutMs, events[0]);
      StepKeepsInvariant(s, askTimeoutMs, events[0]);
      StepFollows(s, askTimeoutMs, events[0], b);
      BatchFollowsAnswers(t, askTimeoutMs, events[1..], b);
      RunKeepsInvariant(t, askTimeoutMs, events[1..]);
      assert [events[0]][1..] == [];
      FollowsThen(s.batches[b], t.batches[b], Run(t, askTimeoutMs, events[1..]).batches[b], Answers([events[0]], b), Answers(events[1..], b));
      assert Answers(events, b) == Answers([events[0]], b) + Answers(events[1..], b);
    }
  }

  /** What the answers mean for the i-th item's reservation. */
  function OutcomeOf(atomic: bool, answers: seq<bool>, i: nat): A.Outcome {
    if atomic then (if answers == [] then A.Unsettled else if answers[0] then A.Committed else A.Released)
    else if i < Accepting(answers) then A.Committed
    else if Accepting(answers) < |answers| then A.Released
    else A.Unsettled
  }

  lemma {:induction false} OutcomeFollows(before: Batch, after: Batch, answers: seq<bool>, i: nat)
    requires Follows(before, after, answers) && i < |before.items| && before.sent == 0 && before.phase == Sending
    ensures Expected(after, i) == OutcomeOf(before.atomic, answers, i)
  {
    AcceptingBounded(answers);
  }

  /**
   In every run, every ticket an arrival makes belongs to exactly one item of its batch and is settled as
   the host answers the sends: an atomic batch commits all or releases all, a sequential one commits what was
   accepted before the first refusal and releases the rest; a released message's context is nowhere in the tracker.
   */
  lemma {:induction false} ArrivedTicketIsSettled(askTimeoutMs: int, before: seq<Event>, e: Event, after: seq<Event>, token: nat)
    returns (i: nat)
    requires LegalRun(INITIAL, askTimeoutMs, before) && e.Arrive? && Legal(Run(INITIAL, askTimeoutMs, before), e)
    requires LegalRun(Step(Run(INITIAL, askTimeoutMs, before), askTimeoutMs, e), askTimeoutMs, after)
    requires |Run(INITIAL, askTimeoutMs, before).admission.tickets| <= token
      < |Step(Run(INITIAL, askTimeoutMs, before), askTimeoutMs, e).admission.tickets|
    ensures var s := Run(INITIAL, askTimeoutMs, before);
      var t := Run(Step(s, askTimeoutMs, e), askTimeoutMs, after);
      var b := |s.batches|;
      && b < |t.batches| && OwnedAt(t.batches[b].items, i)
      && (forall j: nat :: OwnedAt(t.batches[b].items, j) ==> (t.batches[b].items[j].owned.value.reservation.token == token <==> j == i))
      && token < |t.admission.tickets|
      && t.admission.tickets[token].outcome == OutcomeOf(e.batch, Answers(after, b), i)
      && (OutcomeOf(e.batch, Answers(after, b), i) == A.Released ==> !T.Present(t.batches[b].items[i].owned.value.context, t.tracker))
  {
    var s := Run(INITIAL, askTimeoutMs, before);
    RunKeepsInvariant(INITIAL, askTimeoutMs, before);
    i := TicketHasItem(s, askTimeoutMs, e, token);
    StepKeepsInvariant(s, askTimeoutMs, e);
    ItemSettles(Step(s, askTimeoutMs, e), askTimeoutMs, after, |s.batches|, i);
  }

  lemma {:induction false} TicketHasItem(s: State, askTimeoutMs: int, e: Event, token: nat) returns (i: nat)
    requires Invariant(s) && e.Arrive? && s.admission.clock <= e.now
    requires |s.admission.tickets| <= token < |Step(s, askTimeoutMs, e).admission.tickets|
    ensures var t := Step(s, askTimeoutMs, e);
      && |t.batches| == |s.batches| + 1 && Starts(t.batches[|s.batches|], e.batch)
      && OwnedAt(t.batches[|s.batches|].items, i)
      && (forall j: nat :: OwnedAt(t.batches[|s.batches|].items, j) ==> (t.batches[|s.batches|].items[j].owned.value.reservation.token == token <==> j == i))
  {
    ArrivalIsExact(s, askTimeoutMs, e);
    var items := Step(s, askTimeoutMs, e).batches[|s.batches|].items;
    assert OwnedBySome(items, token);
    i :| i < |items| && items[i].owned.Some? && items[i].owned.value.reservation.token == token;
    assert OwnedAt(items, i);
  }

  /** A batch with something to send, of which nothing is sent yet. */
  ghost predicate Starts(batch: Batch, atomic: bool) {
    batch.items != [] ==> batch.atomic == atomic && batch.sent == 0 && batch.phase == Sending
  }

  lemma {:induction false} ItemSettles(s: State, askTimeoutMs: int, after: seq<Event>, b: nat, i: nat)
    requires Invariant(s) && LegalRun(s, askTimeoutMs, after)
    requires b < |s.batches| && OwnedAt(s.batches[b].items, i) && Starts(s.batches[b], s.batches[b].atomic)
    ensures var t := Run(s, askTimeoutMs, after);
      var own := s.batches[b].items[i].owned.value;
      var outcome := OutcomeOf(s.batches[b].atomic, Answers(after, b), i);
      && b < |t.batches| && t.batches[b].items == s.batches[b].items
      && own.reservation.token < |t.admission.tickets| && t.admission.tickets[own.reservation.token].outcome == outcome
      && (outcome == A.Released ==> !T.Present(own.context, t.tracker))
  {
    var t := Run(s, askTimeoutMs, after);
    RunKeepsInvariant(s, askTimeoutMs, after);
    BatchFollowsAnswers(s, askTimeoutMs, after, b);
    assert Owns(t.batches, b, i);
    assert Settled(t.admission, t.tracker, t.batches[b], i);
    OutcomeFollows(s.batches[b], t.batches[b], Answers(after, b), i);
  }
}
