/**
 The single slot for a tool call that blocks on a reply (packages/intercom/reply-waiter.ts) and the
 routing of replies to it (packages/intercom/reply-routing.ts). `fold` stands for lower-casing.
 */
module ReplyWaiterSlots {
  import opened Sequences

  datatype Reply = Reply(senderId: string, senderName: Option<string>, replyTo: Option<string>, text: string)

  datatype Cause = TimedOut | Aborted | CancelledByOwner | TornDown

  datatype Outcome = Unsettled | Resolved(reply: Reply) | Rejected(cause: Cause)

  datatype Waiter = Waiter(from: string, replyTo: string, outcome: Outcome)

  /** Every waiter ever admitted, by the order of admission, and the one the slot holds. */
  datatype State = State(slot: Option<nat>, waiters: seq<Waiter>)

  /** `Route` offers a reply to a waiter somebody holds, be it the current one or an old one. */
  datatype Event =
    | Begin(from: string, replyTo: string, aborted: bool)
    | Route(waiter: nat, reply: Reply)
    | Reject(waiter: nat, cause: Cause)
    | RejectCurrent

  datatype Admission = Busy | AlreadyCancelled | Admitted(waiter: nat)

  const INITIAL := State(None, [])

  /** The sender's name, or its id if it has none, matches up to case, or its id matches; and so does the thread. */
  predicate Matches(w: Waiter, reply: Reply, fold: string -> string) {
    var senderTarget := if reply.senderName.Some? && reply.senderName.value != "" then reply.senderName.value else reply.senderId;
    && (fold(senderTarget) == fold(w.from) || reply.senderId == w.from)
    && reply.replyTo == Some(w.replyTo)
  }

  function Settle(s: State, w: nat, outcome: Outcome): State {
    if w >= |s.waiters| || s.waiters[w].outcome != Unsettled then s
    else State(if s.slot == Some(w) then None else s.slot, s.waiters[w := s.waiters[w].(outcome := outcome)])
  }

  function Admit(s: State, aborted: bool): Admission {
    if s.slot.Some? then Busy else if aborted then AlreadyCancelled else Admitted(|s.waiters|)
  }

  function Step(s: State, event: Event, fold: string -> string): State {
    match event
    case Begin(from, replyTo, aborted) =>
      if Admit(s, aborted).Admitted? then State(Some(|s.waiters|), s.waiters + [Waiter(from, replyTo, Unsettled)]) else s
    case Route(w, reply) => if w < |s.waiters| && Matches(s.waiters[w], reply, fold) then Settle(s, w, Resolved(reply)) else s
    case Reject(w, cause) => Settle(s, w, Rejected(cause))
    case RejectCurrent => if s.slot.Some? then Settle(s, s.slot.value, Rejected(TornDown)) else s
  }

  function Run(s: State, events: seq<Event>, fold: string -> string): State
    decreases |events|
  {
    if events == [] then s else Run(Step(s, events[0], fold), events[1..], fold)
  }

  /** The slot holds exactly the unsettled waiter; whatever was resolved got a matching reply. */
  ghost predicate Invariant(s: State, fold: string -> string) {
    && (s.slot.Some? ==> s.slot.value < |s.waiters|)
    && (forall w :: 0 <= w < |s.waiters| ==> (s.waiters[w].outcome == Unsettled <==> s.slot == Some(w)))
    && (forall w :: 0 <= w < |s.waiters| && s.waiters[w].outcome.Resolved? ==> Matches(s.waiters[w], s.waiters[w].outcome.reply, fold))
  }

  lemma {:induction false} RunKeepsInvariant(s: State, events: seq<Event>, fold: string -> string)
    requires Invariant(s, fold)
    ensures Invariant(Run(s, events, fold), fold)
    decreases |events|
  {
    if events != [] {
      RunKeepsInvariant(Step(s, events[0], fold), events[1..], fold);
    }
  }

  /** A late event of a settled waiter disturbs neither it nor the current one. */
  lemma LateEventsChangeNothing(s: State, w: nat, reply: Reply, cause: Cause, fold: string -> string)
    requires w < |s.waiters| && s.waiters[w].outcome != Unsettled
    ensures Step(s, Route(w, reply), fold) == s == Step(s, Reject(w, cause), fold)
  {
  }

  /** A settled waiter is never touched again. */
  lemma {:induction false} SettledForGood(s: State, events: seq<Event>, fold: string -> string, w: nat)
    requires Invariant(s, fold) && w < |s.waiters| && s.waiters[w].outcome != Unsettled
    ensures w < |Run(s, events, fold).waiters| && Run(s, events, fold).waiters[w] == s.waiters[w]
    decreases |events|
  {
    if events != [] {
      SettledForGood(Step(s, events[0], fold), events[1..], fold, w);
    }
  }

  /**
   In every interleaving of asks, replies, timeouts, aborts, cancellations and tear-downs, the slot holds
   exactly the one unsettled waiter, and a waiter was resolved only by its own sender on its own thread.
   */
  lemma {:induction false} SlotHoldsTheUnsettledWaiter(events: seq<Event>, fold: string -> string, w: nat, v: nat)
    requires w < |Run(INITIAL, events, fold).waiters| && v < |Run(INITIAL, events, fold).waiters|
    ensures var s := Run(INITIAL, events, fold);
      && (s.waiters[w].outcome == Unsettled <==> s.slot == Some(w))
      && (s.waiters[w].outcome == Unsettled && s.waiters[v].outcome == Unsettled ==> w == v)
      && (s.waiters[w].outcome.Resolved? ==>
            var reply := s.waiters[w].outcome.reply;
            && reply.replyTo == Some(s.waiters[w].replyTo)
            && (|| reply.senderId == s.waiters[w].from
                || (reply.senderName.Some? && |reply.senderName.value| > 0 && fold(reply.senderName.value) == fold(s.waiters[w].from))
                || ((reply.senderName.None? || |reply.senderName.value| == 0) && fold(reply.senderId) == fold(s.waiters[w].from))))
  {
    RunKeepsInvariant(INITIAL, events, fold);
  }

  /**
   In every run, what becomes of an unsettled waiter in the next step: a reply on its thread resolves it if
   the sender's id is the one it waits for, or the sender's name is up to case, or its id is and it has no
   name; its own timeout, abort or cancellation rejects it, and so does a tear-down; nothing else settles it.
   */
  lemma {:induction false} SettlesExactly(events: seq<Event>, event: Event, fold: string -> string, w: nat)
    requires w < |Run(INITIAL, events, fold).waiters| && Run(INITIAL, events, fold).waiters[w].outcome == Unsettled
    ensures var s, t := Run(INITIAL, events, fold), Step(Run(INITIAL, events, fold), event, fold);
      && w < |t.waiters| && t.waiters[w].from == s.waiters[w].from && t.waiters[w].replyTo == s.waiters[w].replyTo
      && match event
         case Route(v, reply) => (
           var name := if reply.senderName.Some? && |reply.senderName.value| > 0 then reply.senderName.value else reply.senderId;
           t.waiters[w].outcome ==
             if v == w && reply.replyTo == Some(s.waiters[w].replyTo) && (reply.senderId == s.waiters[w].from || fold(name) == fold(s.waiters[w].from))
             then Resolved(reply) else Unsettled)
         case Reject(v, cause) => t.waiters[w].outcome == (if v == w then Rejected(cause) else Unsettled)
         case RejectCurrent => t.waiters[w].outcome == Rejected(TornDown)
         case Begin(_, _, _) => t == s
  {
    RunKeepsInvariant(INITIAL, events, fold);
  }

  /** In every run, a waiter is admitted exactly if none is unsettled and the call is not cancelled already. */
  lemma {:induction false} AdmittedIff(events: seq<Event>, from: string, replyTo: string, aborted: bool, fold: string -> string)
    ensures var s, t := Run(INITIAL, events, fold), Step(Run(INITIAL, events, fold), Begin(from, replyTo, aborted), fold);
      if !aborted && (forall w :: 0 <= w < |s.waiters| ==> s.waiters[w].outcome != Unsettled) then
        t.waiters == s.waiters + [Waiter(from, replyTo, Unsettled)] && t.slot == Some(|s.waiters|)
      else t == s
  {
    RunKeepsInvariant(INITIAL, events, fold);
  }

  // ----- The class -------------------------------------------------------------------------

  class ReplyWaiterSlot {
    var waiter: Option<nat>
    /** The records of all waiters so far; a record stays reachable for whoever holds its handle. */
    var records: seq<Waiter>
    ghost const fold: string -> string

    ghost function View(): State
      reads this
    {
      State(waiter, records)
    }

    ghost predicate Valid()
      reads this
    {
      Invariant(View(), fold)
    }

    constructor (ghost fold: string -> string)
      ensures Valid() && View() == INITIAL && this.fold == fold
    {
      waiter, records := None, [];
      this.fold := fold;
    }

    method Begin(from: string, replyTo: string, aborted: bool) returns (admission: Admission)
      requires Valid()
      modifies this
      ensures Valid() && View() == Step(old(View()), Event.Begin(from, replyTo, aborted), fold)
      ensures admission == Admit(old(View()), aborted)
    {
      if waiter.Some? {
        return Busy;
      }
      if aborted {
        return AlreadyCancelled;
      }
      admission := Admitted(|records|);
      waiter := Some(|records|);
      records := records + [Waiter(from, replyTo, Unsettled)];
    }

    /** `resolve` and `reject` of one record: the first settles it and frees the slot if it is its own. */
    method SettleRecord(w: nat, outcome: Outcome)
      requires w < |records|
      modifies this
      ensures View() == Settle(old(View()), w, outcome)
    {
      if records[w].outcome != Unsettled {
        return;
      }
      if waiter == Some(w) {
        waiter := None;
      }
      records := records[w := records[w].(outcome := outcome)];
    }

    /** `routeIncomingReply`: true when the reply belongs to the waiter, settled or not. */
    method RouteIncomingReply(w: Option<nat>, reply: Reply, fold: string -> string) returns (routed: bool)
      requires Valid() && fold == this.fold && (w.Some? ==> w.value < |records|)
      modifies this
      ensures Valid() && View() == if w.Some? then Step(old(View()), Route(w.value, reply), fold) else old(View())
      ensures routed <==> w.Some? && Matches(old(records)[w.value], reply, fold)
    {
      if w.None? {
        return false;
      }
      var record := records[w.value];
      var senderTarget := if reply.senderName.Some? && reply.senderName.value != "" then reply.senderName.value else reply.senderId;
      var fromMatches := fold(senderTarget) == fold(record.from) || reply.senderId == record.from;
      if !fromMatches || reply.replyTo != Some(record.replyTo) {
        return false;
      }
      SettleRecord(w.value, Resolved(reply));
      routed := true;
    }

    method RejectCurrentWaiter()
      requires Valid()
      modifies this
      ensures Valid() && View() == Step(old(View()), RejectCurrent, fold)
    {
      if waiter.Some? {
        SettleRecord(waiter.value, Rejected(TornDown));
      }
    }
  }
}
