/**
 Which late messages are being delivered at any moment (packages/intercom/late-stage-message-router.ts).
 A message that is answers its copies as duplicates; any other reserved one lets them join it.
 */
module LateStageDeliveries {
  import opened Sequences
  import A = InboundMessageAdmissions
  import opened DeliveredMessageCaches
  import opened LateStageMessageRouters
  import opened LateStageArrivals

  // ----- Which messages are being delivered ------------------------------------------------

  /** The reservation's entry in the ledger is marked: a copy of its message is a duplicate, not a joiner. */
  predicate Delivering(a: A.State, r: A.Reservation) {
    A.Owns(a.pending, r) && a.pending[r.messageId].delivering
  }

  /** While a batch is being sent, exactly the message a sequential one waits for is marked. */
  ghost predicate Marked(s: State) {
    forall b: nat, i: nat :: Owns(s.batches, b, i) && Expected(s.batches[b], i) == A.Unsettled ==>
      (Delivering(s.admission, At(s.batches, b, i).reservation) <==> !s.batches[b].atomic && i == s.batches[b].sent)
  }

  /** Live reservations of one ledger that differ are of different messages. */
  ghost predicate Live(a: A.State, r: A.Reservation) {
    r.token < |a.tickets| && a.tickets[r.token] == A.Ticket(r.messageId, r.signature, A.Unsettled)
  }

  /** A ledger step about another reservation leaves the mark of a live one. */
  lemma {:induction false} OthersKeepMark(a: A.State, event: A.Event, r: A.Reservation)
    requires A.Consistent(a) && Live(a, r) && (!event.Admit? ==> event.reservation.token != r.token)
    ensures Delivering(A.Step(a, event), r) == Delivering(a, r)
    ensures Live(A.Step(a, event), r)
  {
    assert A.Owns(a.pending, r);
  }

  lemma {:induction false} OwnMark(a: A.State, r: A.Reservation)
    requires A.Consistent(a) && Live(a, r)
    ensures Delivering(A.Step(a, A.BeginDelivery(r)), r) && !Delivering(A.Step(a, A.EndDelivery(r)), r)
  {
    assert A.Owns(a.pending, r);
  }

  lemma {:induction false} OneMark(a: A.State, item: Item, delivering: bool, r: A.Reservation)
    requires A.Consistent(a) && Live(a, r) && (item.owned.Some? ==> Live(a, item.owned.value.reservation))
    ensures A.Consistent(MarkOne(a, item, delivering)) && MarkOne(a, item, delivering).tickets == a.tickets
    ensures Delivering(MarkOne(a, item, delivering), r) ==
      if item.owned.Some? && item.owned.value.reservation.token == r.token then delivering else Delivering(a, r)
  {
    MarkOneKeepsTickets(a, item, delivering);
    if item.owned.Some? {
      if item.owned.value.reservation.token == r.token {
        assert item.owned.value.reservation == r;
        OwnMark(a, r);
      } else {
        OthersKeepMark(a, if delivering then A.BeginDelivery(item.owned.value.reservation) else A.EndDelivery(item.owned.value.reservation), r);
      }
    }
  }

  lemma {:induction false} AllMarks(a: A.State, items: seq<Item>, delivering: bool, r: A.Reservation)
    requires A.Consistent(a) && Live(a, r) && AllLive(a, items)
    ensures Delivering(MarkAll(a, items, delivering), r) == if r.token in Tokens(items) then delivering else Delivering(a, r)
    decreases |items|
  {
    if items != [] {
      TokensOfRest(items);
      OneMark(a, items[0], delivering, r);
      assert forall k :: 0 <= k < |items[1..]| ==> items[1..][k] == items[k + 1];
      AllMarks(MarkOne(a, items[0], delivering), items[1..], delivering, r);
    }
  }

  lemma {:induction false} CommitsKeepMark(a: A.State, items: seq<Item>, now: int, r: A.Reservation)
    requires A.Consistent(a) && Live(a, r) && AllLive(a, items) && a.clock <= now && r.token !in Tokens(items)
    ensures Delivering(CommitAll(a, items, now), r) == Delivering(a, r)
    decreases |items|
  {
    if items != [] {
      TokensOfRest(items);
      assert forall k :: 0 <= k < |items[1..]| ==> items[1..][k] == items[k + 1];
      if items[0].owned.Some? {
        var own := items[0].owned.value.reservation;
        A.CommitKeepsConsistent(a, own, now);
        OthersKeepMark(a, A.Commit(own, now), r);
        CommitsKeepMark(A.Step(a, A.Commit(own, now)), items[1..], now, r);
      } else {
        CommitsKeepMark(a, items[1..], now, r);
      }
    }
  }

  lemma {:induction false} ReleasesKeepMark(a: A.State, items: seq<Item>, r: A.Reservation)
    requires A.Consistent(a) && Live(a, r) && AllLive(a, items) && r.token !in Tokens(items)
    ensures Delivering(ReleaseAll(a, items), r) == Delivering(a, r)
    decreases |items|
  {
    if items != [] {
      TokensOfRest(items);
      assert forall k :: 0 <= k < |items[1..]| ==> items[1..][k] == items[k + 1];
      if items[0].owned.Some? {
        var own := items[0].owned.value.reservation;
        A.ReleaseKeepsConsistent(a, own);
        OthersKeepMark(a, A.Release(own), r);
        ReleasesKeepMark(A.Step(a, A.Release(own)), items[1..], r);
      } else {
        ReleasesKeepMark(a, items[1..], r);
      }
    }
  }

  /** Routing marks nothing. */
  lemma {:induction false} RoutingKeepsMark(s: State, r: Routed, m: LateMessage, triggerTurn: bool, ownerGroup: string, askTimeoutMs: int, now: int, live: A.Reservation)
    requires RoutedFrom(s, r) && r.admission.clock <= now && Live(r.admission, live)
    ensures var r' := RouteOne(r, m, triggerTurn, ownerGroup, askTimeoutMs, now);
      && Live(r'.admission, live) && Delivering(r'.admission, live) == Delivering(r.admission, live)
  {
    if m.Intercom? {
      OthersKeepMark(r.admission, A.Admit(m.entry.messageId, m.entry.signature, now), live);
    }
  }

  ghost predicate NoneMarked(a: A.State, items: seq<Item>) {
    forall i: nat :: OwnedAt(items, i) ==> !Delivering(a, items[i].owned.value.reservation)
  }

  lemma {:induction false} RouteOneMarksNone(s: State, r: Routed, m: LateMessage, triggerTurn: bool, ownerGroup: string, askTimeoutMs: int, now: int)
    requires RoutedFrom(s, r) && r.admission.clock <= now && NoneMarked(r.admission, r.items)
    ensures var r' := RouteOne(r, m, triggerTurn, ownerGroup, askTimeoutMs, now);
      NoneMarked(r'.admission, r'.items)
  {
    var r' := RouteOne(r, m, triggerTurn, ownerGroup, askTimeoutMs, now);
    forall i: nat | OwnedAt(r'.items, i)
      ensures !Delivering(r'.admission, r'.items[i].owned.value.reservation)
    {
      if i < |r.items| {
        assert OwnedAt(r.items, i) && r'.items[i] == r.items[i];
        RoutingKeepsMark(s, r, m, triggerTurn, ownerGroup, askTimeoutMs, now, r.items[i].owned.value.reservation);
      }
    }
  }

  lemma {:induction false} PassKeepsMarks(s: State, askTimeoutMs: int, e: Event, messages: seq<LateMessage>)
    requires Invariant(s) && e.Arrive? && s.admission.clock <= e.now
    ensures var r := Pass(s, askTimeoutMs, e, messages);
      && NoneMarked(r.admission, r.items)
      && forall live :: Live(s.admission, live) ==> Live(r.admission, live) && Delivering(r.admission, live) == Delivering(s.admission, live)
    decreases |messages|
  {
    if messages != [] {
      var init, m := messages[..|messages| - 1], messages[|messages| - 1];
      assert messages == init + [m];
      PassKeepsMarks(s, askTimeoutMs, e, init);
      PassRecords(s, askTimeoutMs, e, init);
      var r0 := Routed(s.admission, s.tracker, [], [], false);
      assert RoutedFrom(s, r0);
      RouteAllKeeps(s, r0, init, e.triggerTurn, e.ownerGroup, askTimeoutMs, e.now);
      RouteAllSnoc(r0, init, m, e.triggerTurn, e.ownerGroup, askTimeoutMs, e.now);
      var r := Pass(s, askTimeoutMs, e, init);
      RouteOneMarksNone(s, r, m, e.triggerTurn, e.ownerGroup, askTimeoutMs, e.now);
      forall live | Live(s.admission, live)
        ensures Live(Pass(s, askTimeoutMs, e, messages).admission, live)
        ensures Delivering(Pass(s, askTimeoutMs, e, messages).admission, live) == Delivering(s.admission, live)
      {
        RoutingKeepsMark(s, r, m, e.triggerTurn, e.ownerGroup, askTimeoutMs, e.now, live);
      }
    }
  }

  /** Beginning a batch marks the first message of a sequential one, and nothing else. */
  lemma {:induction false} BeginningMarks(a: A.State, batch: Batch, r: A.Reservation)
    requires batch.sent <= |batch.items| && (batch.atomic ==> batch.sent == 0)
    requires A.Consistent(a) && Live(a, r) && AllLive(a, batch.items[batch.sent..])
    ensures Delivering(Begun(a, batch), r) ==
      if batch.atomic then Delivering(a, r) && r.token !in Tokens(batch.items)
      else Delivering(a, r) || (batch.sent < |batch.items| && batch.items[batch.sent].owned.Some? && batch.items[batch.sent].owned.value.reservation.token == r.token)
  {
    if batch.atomic {
      assert batch.items[0..] == batch.items;
      AllMarks(a, batch.items, true, r);
      MarkingKeepsTickets(a, batch.items, true);
      AllMarks(MarkAll(a, batch.items, true), batch.items, false, r);
    } else if batch.sent < |batch.items| {
      assert batch.items[batch.sent..][0] == batch.items[batch.sent];
      OneMark(a, batch.items[batch.sent], true, r);
    }
  }

  lemma {:induction false} LiveItem(s: State, b: nat, i: nat)
    requires Invariant(s) && Owns(s.batches, b, i) && Expected(s.batches[b], i) == A.Unsettled
    ensures Live(s.admission, At(s.batches, b, i).reservation)
  {
    assert Settled(s.admission, s.tracker, s.batches[b], i);
  }

  lemma {:induction false} ArriveMarks(s: State, askTimeoutMs: int, e: Event)
    requires Invariant(s) && Marked(s) && e.Arrive? && Legal(s, e)
    ensures Marked(Step(s, askTimeoutMs, e))
  {
    if !IsCompletedStageAskRoute(e.messages, e.forStage) {
      var r := Pass(s, askTimeoutMs, e, e.messages);
      var batch := Arrived(r, e.batch);
      var t := Step(s, askTimeoutMs, e);
      PassRecords(s, askTimeoutMs, e, e.messages);
      PassKeepsMarks(s, askTimeoutMs, e, e.messages);
      assert batch.items[0..] == batch.items;
      forall b: nat, i: nat | Owns(t.batches, b, i) && Expected(t.batches[b], i) == A.Unsettled
        ensures Delivering(t.admission, At(t.batches, b, i).reservation) <==> !t.batches[b].atomic && i == t.batches[b].sent
      {
        var own := At(t.batches, b, i).reservation;
        if b < |s.batches| {
          assert Owns(s.batches, b, i);
          LiveItem(s, b, i);
          TokensAreNew(s, r, own.token);
        } else {
          assert OwnedAt(r.items, i);
        }
        BeginningMarks(r.admission, batch, own);
      }
    }
  }

  lemma {:induction false} TokensAreNew(s: State, r: Routed, token: nat)
    requires RoutedFrom(s, r) && token < |s.admission.tickets|
    ensures token !in Tokens(r.items)
    ensures forall i: nat :: OwnedAt(r.items, i) ==> r.items[i].owned.value.reservation.token != token
  {
  }

  /** The tokens of a range of one batch are of no other accepted message. */
  lemma {:induction false} TokensElsewhere(s: State, b: nat, lo: nat, hi: nat, c: nat, i: nat)
    requires Unshared(s.batches) && b < |s.batches| && lo <= hi <= |s.batches[b].items| && Owns(s.batches, c, i)
    requires c != b || !(lo <= i < hi)
    ensures At(s.batches, c, i).reservation.token !in Tokens(s.batches[b].items[lo..hi])
  {
    var range := s.batches[b].items[lo..hi];
    forall k | 0 <= k < |range| && range[k].owned.Some?
      ensures range[k].owned.value.reservation.token != At(s.batches, c, i).reservation.token
    {
      assert Owns(s.batches, b, lo + k) && At(s.batches, b, lo + k) == range[k].owned.value;
    }
  }

  lemma {:induction false} BatchSucceededMarks(s: State, b: nat, now: int)
    requires Invariant(s) && Marked(s) && s.admission.clock <= now
    requires b < |s.batches| && s.batches[b].phase == Sending && s.batches[b].sent < |s.batches[b].items| && s.batches[b].atomic
    ensures Marked(Succeeded(s, b, now))
  {
    var t, items := Succeeded(s, b, now), s.batches[b].items;
    LiveRange(s, b, 0, |items|);
    assert items[0..|items|] == items;
    forall c: nat, i: nat | Owns(t.batches, c, i) && Expected(t.batches[c], i) == A.Unsettled
      ensures Delivering(t.admission, At(t.batches, c, i).reservation) <==> !t.batches[c].atomic && i == t.batches[c].sent
    {
      assert c != b && Owns(s.batches, c, i);
      LiveItem(s, c, i);
      TokensElsewhere(s, b, 0, |items|, c, i);
      CommitsKeepMark(s.admission, items, now, At(s.batches, c, i).reservation);
    }
  }

  lemma {:induction false} MessageSucceededMarks(s: State, b: nat, now: int)
    requires Invariant(s) && Marked(s) && s.admission.clock <= now
    requires b < |s.batches| && s.batches[b].phase == Sending && s.batches[b].sent < |s.batches[b].items| && !s.batches[b].atomic
    ensures Marked(Succeeded(s, b, now))
  {
    var t, batch := Succeeded(s, b, now), s.batches[b];
    var item, next := batch.items[batch.sent], t.batches[b];
    var ended := MarkOne(s.admission, item, false);
    var committed := CommitAll(ended, [item], now);
    LiveRange(s, b, batch.sent, batch.sent + 1);
    assert batch.items[batch.sent..batch.sent + 1] == [item];
    MarkOneKeepsTickets(s.admission, item, false);
    CommitSets(ended, [item], now);
    BeginningKeepsTickets(committed, next);
    SucceededKeeps(s, b, now);
    LiveRange(t, b, next.sent, |next.items|);
    assert next.items[next.sent..|next.items|] == next.items[next.sent..];
    assert item.owned.Some? ==> [item][0].owned.Some? && Live(s.admission, item.owned.value.reservation);
    forall c: nat, i: nat | Owns(t.batches, c, i) && Expected(t.batches[c], i) == A.Unsettled
      ensures Delivering(t.admission, At(t.batches, c, i).reservation) <==> !t.batches[c].atomic && i == t.batches[c].sent
    {
      var own := At(t.batches, c, i).reservation;
      assert Owns(s.batches, c, i) && At(s.batches, c, i).reservation == own;
      LiveItem(s, c, i);
      LiveItem(t, c, i);
      TokensElsewhere(s, b, batch.sent, batch.sent + 1, c, i);
      OneMark(s.admission, item, false, own);
      CommitsKeepMark(ended, [item], now, own);
      BeginningMarks(committed, next, own);
      assert item.owned.Some? ==> Owns(s.batches, b, batch.sent);
      assert next.sent < |next.items| && next.items[next.sent].owned.Some? ==> Owns(s.batches, b, next.sent);
    }
  }

  lemma {:induction false} RefusedMarks(s: State, askTimeoutMs: int, b: nat)
    requires Invariant(s) && Marked(s)
    requires b < |s.batches| && s.batches[b].phase == Sending && s.batches[b].sent < |s.batches[b].items|
    ensures Marked(Refused(s, askTimeoutMs, b))
  {
    var t, batch := Refused(s, askTimeoutMs, b), s.batches[b];
    var rest := batch.items[batch.sent..];
    var ended := if batch.atomic then s.admission else MarkOne(s.admission, rest[0], false);
    LiveRange(s, b, batch.sent, |batch.items|);
    assert rest == batch.items[batch.sent..|batch.items|];
    MarkOneKeepsTickets(s.admission, rest[0], false);
    forall c: nat, i: nat | Owns(t.batches, c, i) && Expected(t.batches[c], i) == A.Unsettled
      ensures Delivering(t.admission, At(t.batches, c, i).reservation) <==> !t.batches[c].atomic && i == t.batches[c].sent
    {
      assert c != b && Owns(s.batches, c, i);
      LiveItem(s, c, i);
      TokensElsewhere(s, b, batch.sent, |batch.items|, c, i);
      TokensOfRest(rest);
      OneMark(s.admission, rest[0], false, At(s.batches, c, i).reservation);
      ReleasesKeepMark(ended, rest, At(s.batches, c, i).reservation);
    }
  }

  lemma {:induction false} OthersKeepMarks(s: State, askTimeoutMs: int, event: Event)
    requires Invariant(s) && Marked(s) && Legal(s, event) && event.OtherAdmission?
    ensures Marked(Step(s, askTimeoutMs, event))
  {
    forall b: nat, i: nat | Owns(s.batches, b, i) && Expected(s.batches[b], i) == A.Unsettled
      ensures Delivering(A.Step(s.admission, event.admissionEvent), At(s.batches, b, i).reservation)
           == Delivering(s.admission, At(s.batches, b, i).reservation)
    {
      LiveItem(s, b, i);
      OthersKeepMark(s.admission, event.admissionEvent, At(s.batches, b, i).reservation);
    }
  }

  lemma {:induction false} RunMarks(s: State, askTimeoutMs: int, events: seq<Event>)
    requires Invariant(s) && Marked(s) && LegalRun(s, askTimeoutMs, events)
    ensures Marked(Run(s, askTimeoutMs, events))
    decreases |events|
  {
    if events != [] {
      StepKeepsInvariant(s, askTimeoutMs, events[0]);
      match events[0] {
        case Arrive(_, _, _, _, _, _) => ArriveMarks(s, askTimeoutMs, events[0]);
        case SendSettled(b, ok, now) =>
          if b < |s.batches| && s.batches[b].phase == Sending && s.batches[b].sent < |s.batches[b].items| {
            if !ok {
              RefusedMarks(s, askTimeoutMs, b);
            } else if s.batches[b].atomic {
              BatchSucceededMarks(s, b, now);
            } else {
              MessageSucceededMarks(s, b, now);
            }
          }
        case OtherAdmission(_) => OthersKeepMarks(s, askTimeoutMs, events[0]);
        case OtherTracking(_) =>
      }
      RunMarks(Step(s, askTimeoutMs, events[0]), askTimeoutMs, events[1..]);
    }
  }

  /**
   In every run, a copy of a reserved message that is admitted again joins its delivery, except a copy of
   the message a sequential batch is waiting for, which is a duplicate; and so is one of other content.
   */
  lemma {:induction false} CopyJoinsUnlessDelivering(askTimeoutMs: int, events: seq<Event>, b: nat, i: nat, signature: string, now: int)
    requires LegalRun(INITIAL, askTimeoutMs, events) && Run(INITIAL, askTimeoutMs, events).admission.clock <= now
    requires Owns(Run(INITIAL, askTimeoutMs, events).batches, b, i)
    requires var batch := Run(INITIAL, askTimeoutMs, events).batches[b]; batch.phase == Sending && i >= batch.sent
    requires var s := Run(INITIAL, askTimeoutMs, events);
      !Remembered(s.admission.recorded, TTL_MS, MAX_ENTRIES, At(s.batches, b, i).reservation.messageId, now)
    ensures var s := Run(INITIAL, askTimeoutMs, events);
      var own := At(s.batches, b, i).reservation;
      A.AdmitResult(s.admission, own.messageId, signature, now) ==
        if signature != own.signature || (!s.batches[b].atomic && i == s.batches[b].sent) then A.Duplicate else A.Joined(own.token)
  {
    var s := Run(INITIAL, askTimeoutMs, events);
    RunKeepsInvariant(INITIAL, askTimeoutMs, events);
    RunMarks(INITIAL, askTimeoutMs, events);
    LiveItem(s, b, i);
    A.AdmissionDeduplicates(s.admission, At(s.batches, b, i).reservation.messageId, signature, now);
  }
}
