/**
 Admission of inbound messages (packages/intercom/inbound-message-admission.ts): reserve, then commit
 or release. A reservation's `token` is its symbol; `tickets[token]` is the state of its promise.
 */
module InboundMessageAdmissions {
  import opened Sequences
  import opened DeliveredMessageCaches

  datatype Reservation = Reservation(messageId: string, signature: string, token: nat)

  datatype Outcome = Unsettled | Committed | Released

  datatype Ticket = Ticket(messageId: string, signature: string, outcome: Outcome)

  datatype Pending = Pending(reservation: Reservation, delivering: bool)

  datatype Admission = Reserved(reservation: Reservation) | Joined(token: nat) | Duplicate

  /** `recorded` is what a cache that forgets nothing would hold, `clock` the latest time seen. */
  datatype State = State(
    cache: seq<Delivered>,
    pending: map<string, Pending>,
    tickets: seq<Ticket>,
    recorded: seq<Delivered>,
    clock: int)

  datatype Event =
    | Admit(messageId: string, signature: string, now: int)
    | BeginDelivery(reservation: Reservation)
    | EndDelivery(reservation: Reservation)
    | Commit(reservation: Reservation, now: int)
    | Release(reservation: Reservation)

  const INITIAL := State([], map[], [], [], 0)

  /** The pending entry of this message id belongs to this very reservation. */
  predicate Owns(pending: map<string, Pending>, r: Reservation) {
    r.messageId in pending && pending[r.messageId].reservation == r
  }

  function AdmitResult(s: State, messageId: string, signature: string, now: int): Admission {
    if Answer(s.cache, TTL_MS, messageId, signature, now) != Miss then Duplicate
    else if messageId in s.pending then
      var p := s.pending[messageId];
      if p.reservation.signature != signature || p.delivering then Duplicate else Joined(p.reservation.token)
    else Reserved(Reservation(messageId, signature, |s.tickets|))
  }

  function Step(s: State, event: Event): State {
    match event
    case Admit(id, signature, now) =>
      var looked := s.(cache := Prune(s.cache, TTL_MS, now), clock := now);
      (match AdmitResult(s, id, signature, now)
       case Reserved(r) =>
         looked.(pending := s.pending[id := Pending(r, false)], tickets := s.tickets + [Ticket(id, signature, Unsettled)])
       case _ => looked)
    case BeginDelivery(r) =>
      if Owns(s.pending, r) then s.(pending := s.pending[r.messageId := Pending(r, true)]) else s
    case EndDelivery(r) =>
      if Owns(s.pending, r) then s.(pending := s.pending[r.messageId := Pending(r, false)]) else s
    case Commit(r, now) =>
      if !Owns(s.pending, r) then s
      else
        var record := Delivered(r.messageId, now, r.signature);
        State(Recorded(s.cache, TTL_MS, MAX_ENTRIES, record), s.pending - {r.messageId},
              Settle(s.tickets, r.token, Committed), RecordAll(s.recorded, record), now)
    case Release(r) =>
      if !Owns(s.pending, r) then s
      else s.(pending := s.pending - {r.messageId}, tickets := Settle(s.tickets, r.token, Released))
  }

  function Settle(tickets: seq<Ticket>, token: nat, outcome: Outcome): seq<Ticket> {
    if token < |tickets| then tickets[token := tickets[token].(outcome := outcome)] else tickets
  }

  function Run(s: State, events: seq<Event>): State
    decreases |events|
  {
    if events == [] then s else Run(Step(s, events[0]), events[1..])
  }

  /** The clock does not run backwards. */
  ghost predicate OnTime(s: State, event: Event) {
    match event
    case Admit(_, _, now) => s.clock <= now
    case Commit(_, now) => s.clock <= now
    case _ => true
  }

  ghost predicate Chronological(s: State, events: seq<Event>)
    decreases |events|
  {
    events == [] || (OnTime(s, events[0]) && Chronological(Step(s, events[0]), events[1..]))
  }

  // ----- The invariant ---------------------------------------------------------------------

  /**
   The pending map holds exactly the unsettled reservations, each under its own message id; so no id
   has two of them.
   */
  ghost predicate Matched(pending: map<string, Pending>, tickets: seq<Ticket>) {
    && (forall id :: id in pending ==>
        var r := pending[id].reservation;
        && r.messageId == id && r.token < |tickets|
        && tickets[r.token] == Ticket(id, r.signature, Unsettled))
    && (forall t :: 0 <= t < |tickets| && tickets[t].outcome.Unsettled? ==>
        && tickets[t].messageId in pending
        && pending[tickets[t].messageId].reservation.token == t)
  }

  /** What was committed was recorded. */
  ghost predicate CommitsRecorded(tickets: seq<Ticket>, recorded: seq<Delivered>) {
    forall t :: 0 <= t < |tickets| && tickets[t].outcome.Committed? ==> tickets[t].messageId in Ids(recorded)
  }

  ghost predicate Consistent(s: State) {
    && Bounded(s.cache, s.recorded, TTL_MS, MAX_ENTRIES, s.clock)
    && Matched(s.pending, s.tickets)
    && CommitsRecorded(s.tickets, s.recorded)
  }

  lemma {:induction false} SettleKeepsMatched(pending: map<string, Pending>, tickets: seq<Ticket>, r: Reservation, outcome: Outcome)
    requires Matched(pending, tickets) && Owns(pending, r) && outcome != Unsettled
    ensures Matched(pending - {r.messageId}, Settle(tickets, r.token, outcome))
  {
  }

  lemma {:induction false} AdmitKeepsConsistent(s: State, messageId: string, signature: string, now: int)
    requires Consistent(s) && s.clock <= now
    ensures Consistent(Step(s, Admit(messageId, signature, now)))
  {
    PruneKeepsBounded(s.cache, s.recorded, TTL_MS, MAX_ENTRIES, s.clock, now);
    var t := Step(s, Admit(messageId, signature, now));
    assert Bounded(t.cache, t.recorded, TTL_MS, MAX_ENTRIES, t.clock);
    assert Matched(t.pending, t.tickets) && CommitsRecorded(t.tickets, t.recorded);
  }

  lemma {:induction false} CommitKeepsConsistent(s: State, r: Reservation, now: int)
    requires Consistent(s) && s.clock <= now
    ensures Consistent(Step(s, Commit(r, now)))
  {
    if Owns(s.pending, r) {
      var record := Delivered(r.messageId, now, r.signature);
      RecordKeepsBounded(s.cache, s.recorded, TTL_MS, MAX_ENTRIES, s.clock, record);
      IdsOfRecordAll(s.recorded, record);
      SettleKeepsMatched(s.pending, s.tickets, r, Committed);
      assert CommitsRecorded(Settle(s.tickets, r.token, Committed), RecordAll(s.recorded, record));
    }
  }

  lemma {:induction false} ReleaseKeepsConsistent(s: State, r: Reservation)
    requires Consistent(s)
    ensures Consistent(Step(s, Release(r)))
  {
    if Owns(s.pending, r) {
      SettleKeepsMatched(s.pending, s.tickets, r, Released);
    }
  }

  lemma {:induction false} DeliveringKeepsConsistent(s: State, r: Reservation)
    requires Consistent(s)
    ensures Consistent(Step(s, BeginDelivery(r))) && Consistent(Step(s, EndDelivery(r)))
  {
    assert Matched(Step(s, BeginDelivery(r)).pending, s.tickets) && Matched(Step(s, EndDelivery(r)).pending, s.tickets);
  }

  lemma {:induction false} RunKeepsConsistent(s: State, events: seq<Event>)
    requires Consistent(s) && Chronological(s, events)
    ensures Consistent(Run(s, events))
    decreases |events|
  {
    if events != [] {
      match events[0] {
        case Admit(id, signature, now) => AdmitKeepsConsistent(s, id, signature, now);
        case BeginDelivery(r) => DeliveringKeepsConsistent(s, r);
        case EndDelivery(r) => DeliveringKeepsConsistent(s, r);
        case Commit(r, now) => CommitKeepsConsistent(s, r, now);
        case Release(r) => ReleaseKeepsConsistent(s, r);
      }
      RunKeepsConsistent(Step(s, events[0]), events[1..]);
    }
  }

  lemma {:induction false} RunOfOne(s: State, event: Event)
    ensures Run(s, [event]) == Step(s, event) && (OnTime(s, event) ==> Chronological(s, [event]))
  {
    assert [event][1..] == [];
  }

  /** In every run, at most one reservation per message id is unsettled. */
  lemma {:induction false} OnePendingPerMessage(events: seq<Event>, t: nat, u: nat)
    requires Chronological(INITIAL, events)
    requires t < u < |Run(INITIAL, events).tickets|
    requires var s := Run(INITIAL, events);
      s.tickets[t].messageId == s.tickets[u].messageId && s.tickets[t].outcome.Unsettled?
    ensures !Run(INITIAL, events).tickets[u].outcome.Unsettled?
  {
    RunKeepsConsistent(INITIAL, events);
  }

  // ----- Settling --------------------------------------------------------------------------

  /** A ticket settles only by its own reservation's commit or release, and then for good. */
  lemma {:induction false} OnlyOwnReservationSettles(s: State, event: Event, t: nat)
    requires Consistent(s) && t < |s.tickets|
    ensures t < |Step(s, event).tickets|
    ensures var before, after := s.tickets[t], Step(s, event).tickets[t];
      && after.messageId == before.messageId && after.signature == before.signature
      && (before.outcome != Unsettled ==> after == before)
      && (after != before ==>
          var own := Reservation(before.messageId, before.signature, t);
          && (after.outcome == Committed ==> event.Commit? && event.reservation == own)
          && (after.outcome == Released ==> event.Release? && event.reservation == own))
  {
  }

  lemma {:induction false} SettledForGood(s: State, events: seq<Event>, t: nat)
    requires Consistent(s) && Chronological(s, events)
    requires t < |s.tickets| && s.tickets[t].outcome != Unsettled
    ensures t < |Run(s, events).tickets| && Run(s, events).tickets[t] == s.tickets[t]
    decreases |events|
  {
    if events != [] {
      OnlyOwnReservationSettles(s, events[0], t);
      RunOfOne(s, events[0]);
      RunKeepsConsistent(s, [events[0]]);
      SettledForGood(Step(s, events[0]), events[1..], t);
    }
  }

  /** A reservation that is settled, or was never made, changes nothing at all. */
  lemma {:induction false} StaleChangesNothing(s: State, r: Reservation, now: int)
    requires Consistent(s)
    requires !(r.token < |s.tickets| && s.tickets[r.token] == Ticket(r.messageId, r.signature, Unsettled))
    ensures Step(s, Commit(r, now)) == s == Step(s, Release(r))
    ensures Step(s, BeginDelivery(r)) == s == Step(s, EndDelivery(r))
  {
  }

  // ----- What admission answers ------------------------------------------------------------

  /**
   Admission deduplicates: a message is a duplicate exactly when its id is remembered as delivered or
   another reservation stands in its way; a joiner shares the one unsettled ticket of the same content;
   and a second reservation is made only if every earlier one was released, or its delivery forgotten.
   */
  lemma {:induction false} AdmissionDeduplicates(s: State, messageId: string, signature: string, now: int)
    requires Consistent(s) && s.clock <= now
    ensures var remembered := Remembered(s.recorded, TTL_MS, MAX_ENTRIES, messageId, now);
      match AdmitResult(s, messageId, signature, now)
      case Duplicate => (
        remembered || (messageId in s.pending &&
          (s.pending[messageId].delivering || s.pending[messageId].reservation.signature != signature)))
      case Joined(t) => (
        && !remembered && t < |s.tickets| && s.tickets[t] == Ticket(messageId, signature, Unsettled)
        && !s.pending[messageId].delivering)
      case Reserved(r) => (
        && !remembered && r == Reservation(messageId, signature, |s.tickets|)
        && forall t :: 0 <= t < |s.tickets| && s.tickets[t].messageId == messageId ==>
             || s.tickets[t].outcome == Released
             || (s.tickets[t].outcome == Committed && messageId in Ids(s.recorded)))
  {
    LookupIsExact(s.cache, s.recorded, TTL_MS, MAX_ENTRIES, s.clock, messageId, signature, now);
  }

  /** A copy is a duplicate while its message is delivered, joins it before and after, and is reserved anew once it is released. */
  lemma {:induction false} CopyFollowsTheReservation(s: State, r: Reservation, now: int)
    requires Consistent(s) && s.clock <= now && Owns(s.pending, r) && !Remembered(s.recorded, TTL_MS, MAX_ENTRIES, r.messageId, now)
    ensures AdmitResult(Step(s, BeginDelivery(r)), r.messageId, r.signature, now) == Duplicate
    ensures AdmitResult(Step(s, EndDelivery(r)), r.messageId, r.signature, now) == Joined(r.token)
    ensures AdmitResult(Step(s, Release(r)), r.messageId, r.signature, now) == Reserved(Reservation(r.messageId, r.signature, |s.tickets|))
    ensures forall other: string :: other != r.signature ==>
      AdmitResult(s, r.messageId, other, now) == Duplicate
      && AdmitResult(Step(s, Release(r)), r.messageId, other, now) == Reserved(Reservation(r.messageId, other, |s.tickets|))
  {
    forall other: string
      ensures DeliveredMessageCaches.Answer(s.cache, TTL_MS, r.messageId, other, now) == Miss
    {
      LookupIsExact(s.cache, s.recorded, TTL_MS, MAX_ENTRIES, s.clock, r.messageId, other, now);
    }
  }

  ghost function Commits(events: seq<Event>): nat {
    if events == [] then 0 else (if events[0].Commit? then 1 else 0) + Commits(events[1..])
  }

  /** The id was recorded at `since` or later and is among the newest n records. */
  ghost predicate RecentlyRecorded(recorded: seq<Delivered>, messageId: string, since: int, n: nat) {
    exists q :: 0 <= q < |recorded| && recorded[q].messageId == messageId
      && recorded[q].deliveredAt >= since && |recorded| - q <= n
  }

  lemma {:induction false} RecordAllKeepsRecent(recorded: seq<Delivered>, record: Delivered, messageId: string, since: int, n: nat)
    requires DistinctIds(recorded) && RecentlyRecorded(recorded, messageId, since, n) && since <= record.deliveredAt
    ensures RecentlyRecorded(RecordAll(recorded, record), messageId, since, n + 1)
  {
    var q :| 0 <= q < |recorded| && recorded[q].messageId == messageId && recorded[q].deliveredAt >= since && |recorded| - q <= n;
    var after := RecordAll(recorded, record);
    if record.messageId == messageId {
      assert after[|after| - 1] == record;
    } else if d :| 0 <= d < |recorded| && recorded[d].messageId == record.messageId {
      DeleteAt(recorded, d);
      var kept := if d < q then q - 1 else q;
      assert after[kept] == recorded[q] && |after| - kept <= n + 1;
    } else {
      DeleteAbsent(recorded, record.messageId);
      assert after[q] == recorded[q] && |after| - q <= n + 1;
    }
  }

  lemma {:induction false} RunKeepsRecent(s: State, events: seq<Event>, messageId: string, since: int, n: nat)
    requires Consistent(s) && Chronological(s, events)
    requires RecentlyRecorded(s.recorded, messageId, since, n) && since <= s.clock
    ensures RecentlyRecorded(Run(s, events).recorded, messageId, since, n + Commits(events))
    decreases |events|
  {
    if events != [] {
      RunOfOne(s, events[0]);
      RunKeepsConsistent(s, [events[0]]);
      if events[0].Commit? && Owns(s.pending, events[0].reservation) {
        var r := events[0].reservation;
        RecordAllKeepsRecent(s.recorded, Delivered(r.messageId, events[0].now, r.signature), messageId, since, n);
        RunKeepsRecent(Step(s, events[0]), events[1..], messageId, since, n + 1);
      } else {
        RunKeepsRecent(Step(s, events[0]), events[1..], messageId, since, n);
      }
    }
  }

  /**
   Once a reservation is committed, no run admits its message id again, whatever the content, within
   the time to live and until `MAX_ENTRIES` further commits.
   */
  lemma {:induction false} CommittedIsNotAdmittedAgain(s: State, r: Reservation, at: int, events: seq<Event>, signature: string, now: int)
    requires Consistent(s) && Owns(s.pending, r)
    requires Chronological(s, [Commit(r, at)] + events)
    requires Commits(events) < MAX_ENTRIES && Run(s, [Commit(r, at)] + events).clock <= now <= at + TTL_MS
    ensures AdmitResult(Run(s, [Commit(r, at)] + events), r.messageId, signature, now) == Duplicate
  {
    var committed := Step(s, Commit(r, at));
    assert ([Commit(r, at)] + events)[1..] == events;
    CommitKeepsConsistent(s, r, at);
    assert committed.recorded[|committed.recorded| - 1] == Delivered(r.messageId, at, r.signature);
    RunKeepsRecent(committed, events, r.messageId, at, 1);
    RunKeepsConsistent(committed, events);
    var later := Run(committed, events);
    LookupIsExact(later.cache, later.recorded, TTL_MS, MAX_ENTRIES, later.clock, r.messageId, signature, now);
  }

  // ----- The class -------------------------------------------------------------------------

  class InboundMessageAdmission {
    const delivered: DeliveredMessageCache
    var pending: map<string, Pending>
    /** The promise of every reservation made so far, by token. */
    var tickets: seq<Ticket>
    ghost var recorded: seq<Delivered>
    ghost var clock: int

    ghost function View(): State
      reads this, delivered
    {
      State(delivered.delivered, pending, tickets, recorded, clock)
    }

    ghost predicate Valid()
      reads this, delivered
    {
      delivered.ttlMs == TTL_MS && delivered.maxEntries == MAX_ENTRIES && Consistent(View())
    }

    constructor ()
      ensures Valid() && View() == INITIAL && fresh(delivered)
    {
      delivered := new DeliveredMessageCache(TTL_MS, MAX_ENTRIES);
      pending, tickets, recorded, clock := map[], [], [], 0;
    }

    method Admit(messageId: string, signature: string, now: int) returns (result: Admission)
      requires Valid() && clock <= now
      modifies this, delivered
      ensures Valid() && View() == Step(old(View()), Event.Admit(messageId, signature, now))
      ensures result == AdmitResult(old(View()), messageId, signature, now)
    {
      AdmitKeepsConsistent(View(), messageId, signature, now);
      var found := delivered.Lookup(messageId, signature, now);
      clock := now;
      if found != Miss {
        return Duplicate;
      }
      if messageId in pending {
        var p := pending[messageId];
        if p.reservation.signature != signature || p.delivering {
          return Duplicate;
        }
        return Joined(p.reservation.token);
      }
      var reservation := Reservation(messageId, signature, |tickets|);
      tickets := tickets + [Ticket(messageId, signature, Unsettled)];
      pending := pending[messageId := Pending(reservation, false)];
      return Reserved(reservation);
    }

    method BeginDelivery(reservation: Reservation)
      requires Valid()
      modifies this
      ensures Valid() && View() == Step(old(View()), Event.BeginDelivery(reservation))
    {
      DeliveringKeepsConsistent(View(), reservation);
      if Owns(pending, reservation) {
        pending := pending[reservation.messageId := Pending(reservation, true)];
      }
    }

    method EndDelivery(reservation: Reservation)
      requires Valid()
      modifies this
      ensures Valid() && View() == Step(old(View()), Event.EndDelivery(reservation))
    {
      DeliveringKeepsConsistent(View(), reservation);
      if Owns(pending, reservation) {
        pending := pending[reservation.messageId := Pending(reservation, false)];
      }
    }

    method Commit(reservation: Reservation, now: int)
      requires Valid() && clock <= now
      modifies this, delivered
      ensures Valid() && View() == Step(old(View()), Event.Commit(reservation, now))
    {
      CommitKeepsConsistent(View(), reservation, now);
      if !Owns(pending, reservation) {
        return;
      }
      pending := pending - {reservation.messageId};
      delivered.Record(reservation.messageId, reservation.signature, now);
      recorded := RecordAll(recorded, Delivered(reservation.messageId, now, reservation.signature));
      clock := now;
      tickets := Settle(tickets, reservation.token, Committed);
    }

    method Release(reservation: Reservation)
      requires Valid()
      modifies this
      ensures Valid() && View() == Step(old(View()), Event.Release(reservation))
    {
      ReleaseKeepsConsistent(View(), reservation);
      if !Owns(pending, reservation) {
        return;
      }
      pending := pending - {reservation.messageId};
      tickets := Settle(tickets, reservation.token, Released);
    }
  }
}
