/**
 Which ask a reply answers, in and outside a turn, and what every run of the tracker keeps
 (packages/intercom/reply-tracker.ts).
 */
module ReplyTurns {
  import opened Sequences
  import opened SessionTargets
  import opened ReplyTrackers

  function Run(s: State, askTimeoutMs: int, events: seq<Event>): State
    decreases |events|
  {
    if events == [] then s else Run(Step(s, askTimeoutMs, events[0]), askTimeoutMs, events[1..])
  }

  // ----- Answers ---------------------------------------------------------------------------

  ghost predicate IsOpen(asks: seq<Context>, askTimeoutMs: int, now: int, c: Context) {
    c in asks && now - c.receivedAt <= askTimeoutMs
  }

  /** Somebody else's ask is open, too; with a sender, somebody's of the same sender. */
  ghost predicate HasRival(asks: seq<Context>, askTimeoutMs: int, now: int, c: Context, sameSender: bool) {
    exists d :: IsOpen(asks, askTimeoutMs, now, d) && d != c && (sameSender ==> d.from.id == c.from.id)
  }

  /** Several asks of this sender are open. */
  ghost predicate SeveralFrom(asks: seq<Context>, askTimeoutMs: int, now: int, id: string) {
    exists c, d :: IsOpen(asks, askTimeoutMs, now, c) && IsOpen(asks, askTimeoutMs, now, d) && c != d && c.from.id == d.from.id == id
  }

  lemma {:induction false} OpenAre(asks: seq<Context>, askTimeoutMs: int, now: int)
    requires DistinctMessages(asks)
    ensures DistinctMessages(Unexpired(asks, askTimeoutMs, now))
    ensures forall c :: c in Unexpired(asks, askTimeoutMs, now) <==> IsOpen(asks, askTimeoutMs, now, c)
  {
    Members(asks, Expired(asks, askTimeoutMs, now));
    WithoutKeepsDistinct(asks, Expired(asks, askTimeoutMs, now));
  }

  lemma TwoDiffer(s: seq<Context>)
    requires forall i, j :: 0 <= i < j < |s| ==> s[i] != s[j]
    ensures |s| > 1 <==> exists c, d :: c in s && d in s && c != d
  {
    if |s| > 1 {
      assert s[0] in s && s[1] in s;
    }
  }

  lemma {:induction false} SoleOfSender(pending: seq<Context>, id: string)
    requires DistinctMessages(pending)
    ensures var m := Within(pending, FromId(pending, id));
      && (forall c :: c in m <==> c in pending && c.from.id == id)
      && (forall i, j :: 0 <= i < j < |m| ==> m[i] != m[j])
  {
    Members(pending, FromId(pending, id));
    SelectionDistinct(pending, FromId(pending, id));
  }

  /**
   A reply answers c if and only if: in a turn, c is the turn's context; outside one, c is open and either
   no target is given and it is the only open ask, or the target resolves to its sender and it is that
   sender's only open ask.
   */
  lemma {:induction false} AnswersExactly(
      current: Option<Context>, asks: seq<Context>, askTimeoutMs: int, now: int, to: string,
      fold: string -> string, trim: string -> string, c: Context)
    requires DistinctMessages(asks)
    ensures ReplyTarget(current, Unexpired(asks, askTimeoutMs, now), to, fold, trim) == Answers(c) <==>
      if current.Some? then c == current.value
      else
        && IsOpen(asks, askTimeoutMs, now, c) && !HasRival(asks, askTimeoutMs, now, c, to != "")
        && (to != "" ==>
              var resolution := ResolveSessionTarget(Senders(Unexpired(asks, askTimeoutMs, now)), to, fold, trim);
              resolution.Resolved? && resolution.session.id == c.from.id)
  {
    var pending := Unexpired(asks, askTimeoutMs, now);
    OpenAre(asks, askTimeoutMs, now);
    if current.None? {
      if to == "" {
        UntargetedAnswer(asks, askTimeoutMs, now, c);
      } else {
        TargetedAnswer(asks, askTimeoutMs, now, ResolveSessionTarget(Senders(pending), to, fold, trim), c);
      }
    }
  }

  lemma {:induction false} UntargetedAnswer(asks: seq<Context>, askTimeoutMs: int, now: int, c: Context)
    requires DistinctMessages(asks)
    ensures Unexpired(asks, askTimeoutMs, now) == [c] <==> IsOpen(asks, askTimeoutMs, now, c) && !HasRival(asks, askTimeoutMs, now, c, false)
  {
    var pending := Unexpired(asks, askTimeoutMs, now);
    OpenAre(asks, askTimeoutMs, now);
    if IsOpen(asks, askTimeoutMs, now, c) && !HasRival(asks, askTimeoutMs, now, c, false) {
      assert forall d :: d in pending ==> d == c;
      TwoDiffer(pending);
    }
  }

  lemma {:induction false} TargetedAnswer(asks: seq<Context>, askTimeoutMs: int, now: int, resolution: Resolution, c: Context)
    requires DistinctMessages(asks)
    ensures Addressed(Unexpired(asks, askTimeoutMs, now), resolution) == Answers(c) <==>
      && resolution.Resolved? && resolution.session.id == c.from.id
      && IsOpen(asks, askTimeoutMs, now, c) && !HasRival(asks, askTimeoutMs, now, c, true)
  {
    var pending := Unexpired(asks, askTimeoutMs, now);
    OpenAre(asks, askTimeoutMs, now);
    if resolution.Resolved? {
      var m := Within(pending, FromId(pending, resolution.session.id));
      SoleOfSender(pending, resolution.session.id);
      if |m| == 1 && m[0] == c {
        assert forall d :: d in m ==> d == c;
      }
      if resolution.session.id == c.from.id && IsOpen(asks, askTimeoutMs, now, c) && !HasRival(asks, askTimeoutMs, now, c, true) {
        assert c in m && forall d :: d in m ==> d == c;
        TwoDiffer(m);
      }
    }
  }

  /**
   Outside a turn and without an answer, the error says why: without a target, that nothing is open or
   that several are; with one, that nobody matches, that several asks of the one match are open, or that
   several senders match.
   */
  lemma {:induction false} RefusalsAreExact(
      asks: seq<Context>, askTimeoutMs: int, now: int, to: string, fold: string -> string, trim: string -> string)
    requires DistinctMessages(asks)
    ensures var reply := ReplyTarget(None, Unexpired(asks, askTimeoutMs, now), to, fold, trim);
      var resolution := ResolveSessionTarget(Senders(Unexpired(asks, askTimeoutMs, now)), to, fold, trim);
      && (reply == NoContext <==> to == "" && forall c :: !IsOpen(asks, askTimeoutMs, now, c))
      && (reply == MultiplePending <==> to == "" && exists c, d :: IsOpen(asks, askTimeoutMs, now, c) && IsOpen(asks, askTimeoutMs, now, d) && c != d)
      && (reply == NoneFrom <==> to != "" && resolution.NotFound?)
      && (reply == MultipleFrom <==> to != "" && resolution.Resolved? && SeveralFrom(asks, askTimeoutMs, now, resolution.session.id))
      && (reply.Ambiguous? <==> to != "" && (resolution.AmbiguousName? || resolution.AmbiguousPrefix?))
  {
    var pending := Unexpired(asks, askTimeoutMs, now);
    OpenAre(asks, askTimeoutMs, now);
    if to == "" {
      TwoDiffer(pending);
      assert |pending| > 0 ==> pending[0] in pending;
    } else {
      var resolution := ResolveSessionTarget(Senders(pending), to, fold, trim);
      if resolution.Resolved? {
        ResolvedIsASender(pending, to, fold, trim);
        SeveralAreRefused(asks, askTimeoutMs, now, resolution);
      }
    }
  }

  lemma {:induction false} ResolvedIsASender(pending: seq<Context>, to: string, fold: string -> string, trim: string -> string)
    requires ResolveSessionTarget(Senders(pending), to, fold, trim).Resolved?
    ensures exists c :: c in pending && c.from == ResolveSessionTarget(Senders(pending), to, fold, trim).session
  {
    var senders := Senders(pending);
    var session := ResolveSessionTarget(senders, to, fold, trim).session;
    SendersMembers(pending);
    ResolvedExactly(senders, to, fold, trim, session);
    assert session in senders || session in Named(senders, fold(trim(to)), fold) || session in Prefixed(senders, trim(to));
  }

  lemma {:induction false} SeveralAreMatches(asks: seq<Context>, askTimeoutMs: int, now: int, id: string)
    requires DistinctMessages(asks)
    ensures var pending := Unexpired(asks, askTimeoutMs, now);
      |Within(pending, FromId(pending, id))| > 1 <==> SeveralFrom(asks, askTimeoutMs, now, id)
  {
    var pending := Unexpired(asks, askTimeoutMs, now);
    OpenAre(asks, askTimeoutMs, now);
    var m := Within(pending, FromId(pending, id));
    SoleOfSender(pending, id);
    TwoDiffer(m);
    if |m| > 1 {
      var c, d :| c in m && d in m && c != d;
      assert IsOpen(asks, askTimeoutMs, now, c) && IsOpen(asks, askTimeoutMs, now, d);
    }
    if SeveralFrom(asks, askTimeoutMs, now, id) {
      var c, d :| IsOpen(asks, askTimeoutMs, now, c) && IsOpen(asks, askTimeoutMs, now, d) && c != d && c.from.id == d.from.id == id;
      assert c in m && d in m;
    }
  }

  lemma {:induction false} SeveralAreRefused(asks: seq<Context>, askTimeoutMs: int, now: int, resolution: Resolution)
    requires DistinctMessages(asks) && resolution.Resolved?
    requires exists c :: c in Unexpired(asks, askTimeoutMs, now) && c.from == resolution.session
    ensures var reply := Addressed(Unexpired(asks, askTimeoutMs, now), resolution);
      && (reply == MultipleFrom <==> SeveralFrom(asks, askTimeoutMs, now, resolution.session.id))
      && (reply != MultipleFrom ==> reply.Answers?)
  {
    var pending := Unexpired(asks, askTimeoutMs, now);
    SeveralAreMatches(asks, askTimeoutMs, now, resolution.session.id);
    Members(pending, FromId(pending, resolution.session.id));
    var a :| a in pending && a.from == resolution.session;
    assert a in Within(pending, FromId(pending, resolution.session.id));
  }

  // ----- Turns -----------------------------------------------------------------------------

  /** The event ends the turn of this context, or begins another one. */
  predicate EndsTurnOf(event: Event, c: Context) {
    match event
    case BeginTurn(_) => true
    case EndTurn => true
    case Reset => true
    case Forget(d) => d == c
    case MarkReplied(id) => id == c.messageId
    case _ => false
  }

  lemma {:induction false} TurnLasts(s: State, askTimeoutMs: int, events: seq<Event>, c: Context)
    requires s.current == Some(c) && forall k :: 0 <= k < |events| ==> !EndsTurnOf(events[k], c)
    ensures Run(s, askTimeoutMs, events).current == Some(c)
    decreases |events|
  {
    if events != [] {
      TurnLasts(Step(s, askTimeoutMs, events[0]), askTimeoutMs, events[1..], c);
    }
  }

  /**
   The context that begins a turn answers every reply, whatever its target and whatever else is pending,
   until the turn ends or another begins, the context is forgotten or replied to, or the tracker is reset;
   and after any of these, unless another turn begins, it is the turn's context no more.
   */
  lemma {:induction false} TurnContextAnswers(
      s: State, askTimeoutMs: int, now: int, events: seq<Event>, ending: Event, to: string, later: int, fold: string -> string, trim: string -> string)
    requires s.turns != [] && forall k :: 0 <= k < |events| ==> !EndsTurnOf(events[k], s.turns[0])
    ensures var t := Run(Step(s, askTimeoutMs, BeginTurn(now)), askTimeoutMs, events);
      && ReplyTarget(t.current, Unexpired(t.asks, askTimeoutMs, later), to, fold, trim) == Answers(s.turns[0])
      && (EndsTurnOf(ending, s.turns[0]) && !ending.BeginTurn? ==> Step(t, askTimeoutMs, ending).current == None)
  {
    TurnLasts(Step(s, askTimeoutMs, BeginTurn(now)), askTimeoutMs, events, s.turns[0]);
  }

  /** A turn that begins with nothing queued has no context. */
  lemma EmptyTurn(s: State, askTimeoutMs: int, now: int)
    requires s.turns == []
    ensures Step(s, askTimeoutMs, BeginTurn(now)).current == None
  {
  }

  ghost function Turns(events: seq<Event>): nat {
    if events == [] then 0 else (if events[0].BeginTurn? then 1 else 0) + Turns(events[1..])
  }

  ghost predicate KeepsTheQueue(events: seq<Event>) {
    forall k :: 0 <= k < |events| ==> !events[k].Reset? && !events[k].Forget?
  }

  lemma {:induction false} QueuePositionMoves(s: State, askTimeoutMs: int, events: seq<Event>, p: nat)
    requires p < |s.turns| && KeepsTheQueue(events) && Turns(events) <= p
    ensures var t := Run(s, askTimeoutMs, events);
      p - Turns(events) < |t.turns| && t.turns[p - Turns(events)] == s.turns[p]
    decreases |events|
  {
    if events != [] {
      var q := if events[0].BeginTurn? then p - 1 else p;
      assert Step(s, askTimeoutMs, events[0]).turns[q] == s.turns[p];
      QueuePositionMoves(Step(s, askTimeoutMs, events[0]), askTimeoutMs, events[1..], q);
    }
  }

  /** Turns are taken in the order in which they were queued: one that found n ahead of it begins the turn after n others. */
  lemma {:induction false} QueuedTurnComesUp(s: State, askTimeoutMs: int, c: Context, events: seq<Event>, now: int)
    requires KeepsTheQueue(events) && Turns(events) == |s.turns|
    ensures Step(Run(Step(s, askTimeoutMs, QueueTurn(c)), askTimeoutMs, events), askTimeoutMs, BeginTurn(now)).current == Some(c)
  {
    QueuePositionMoves(Step(s, askTimeoutMs, QueueTurn(c)), askTimeoutMs, events, |s.turns|);
  }

  // ----- Pending asks ----------------------------------------------------------------------

  /** The event takes this ask out: forgotten, replied to, expired when looked at, replaced, or all are dropped. */
  predicate Removes(event: Event, askTimeoutMs: int, c: Context) {
    match event
    case Forget(d) => d == c
    case MarkReplied(id) => id == c.messageId
    case BeginTurn(now) => now - c.receivedAt > askTimeoutMs
    case PruneExpired(now) => now - c.receivedAt > askTimeoutMs
    case RecordIncoming(_, id, expectsReply, _) => expectsReply && id == c.messageId
    case Reset => true
    case _ => false
  }

  /** After each event exactly those asks are pending that were and are not removed, and one that is recorded as expecting a reply. */
  lemma {:induction false} PendingAfter(s: State, askTimeoutMs: int, event: Event, c: Context)
    requires DistinctMessages(s.asks)
    ensures c in Step(s, askTimeoutMs, event).asks <==>
      || (c in s.asks && !Removes(event, askTimeoutMs, c))
      || (event.RecordIncoming? && event.expectsReply && c == Context(s.next, event.from, event.messageId, event.receivedAt))
  {
    match event {
      case RecordIncoming(from, id, _, at) => PutMembers(s.asks, Context(s.next, from, id, at));
      case Forget(d) => Members(s.asks, {d});
      case BeginTurn(now) => Members(s.asks, Expired(s.asks, askTimeoutMs, now));
      case MarkReplied(id) => Members(s.asks, WithMessage(s.asks, id));
      case PruneExpired(now) => Members(s.asks, Expired(s.asks, askTimeoutMs, now));
      case _ =>
    }
  }

  /** In every run an ask is pending from when it is recorded until the first event that removes it, and never again. */
  lemma {:induction false} AskIsPendingUntilRemoved(s: State, askTimeoutMs: int, events: seq<Event>, c: Context)
    requires DistinctMessages(s.asks) && c in s.asks && c.ref < s.next
    ensures c in Run(s, askTimeoutMs, events).asks <==> forall k :: 0 <= k < |events| ==> !Removes(events[k], askTimeoutMs, c)
    decreases |events|
  {
    if events != [] {
      PendingAfter(s, askTimeoutMs, events[0], c);
      StepKeepsDistinct(s, askTimeoutMs, events[0]);
      var t := Step(s, askTimeoutMs, events[0]);
      if c in t.asks {
        AskIsPendingUntilRemoved(t, askTimeoutMs, events[1..], c);
      } else {
        RemovedForGood(t, askTimeoutMs, events[1..], c);
      }
    }
  }

  lemma {:induction false} RemovedForGood(s: State, askTimeoutMs: int, events: seq<Event>, c: Context)
    requires DistinctMessages(s.asks) && c !in s.asks && c.ref < s.next
    ensures c !in Run(s, askTimeoutMs, events).asks
    decreases |events|
  {
    if events != [] {
      PendingAfter(s, askTimeoutMs, events[0], c);
      StepKeepsDistinct(s, askTimeoutMs, events[0]);
      RemovedForGood(Step(s, askTimeoutMs, events[0]), askTimeoutMs, events[1..], c);
    }
  }
}
