/**
 The ledger of asks waiting for a reply (packages/intercom/reply-tracker.ts). The code's map of asks
 keeps insertion order: `asks` lists it oldest first, one context per message id. Contexts are
 compared as objects, so each carries a `ref` that no other context has.
 */
module ReplyTrackers {
  import opened Sequences
  import opened SessionTargets

  datatype Context = Context(ref: nat, from: Session, messageId: string, receivedAt: int)

  datatype State = State(asks: seq<Context>, turns: seq<Context>, current: Option<Context>, next: nat)

  datatype Event =
    | RecordIncoming(from: Session, messageId: string, expectsReply: bool, receivedAt: int)
    | QueueTurn(context: Context)
    | Forget(context: Context)
    | BeginTurn(now: int)
    | EndTurn
    | Reset
    | MarkReplied(messageId: string)
    | PruneExpired(now: int)

  function Put(asks: seq<Context>, context: Context): seq<Context> {
    if asks == [] then [context]
    else if asks[0].messageId == context.messageId then [context] + asks[1..]
    else [asks[0]] + Put(asks[1..], context)
  }

  function WithMessage(asks: seq<Context>, messageId: string): set<Context> {
    set c | c in asks && c.messageId == messageId
  }

  function Expired(asks: seq<Context>, askTimeoutMs: int, now: int): set<Context> {
    set c | c in asks && now - c.receivedAt > askTimeoutMs
  }

  function Unexpired(asks: seq<Context>, askTimeoutMs: int, now: int): seq<Context> {
    Without(asks, Expired(asks, askTimeoutMs, now))
  }

  function Step(s: State, askTimeoutMs: int, event: Event): State {
    match event
    case RecordIncoming(from, id, expectsReply, at) =>
      var context := Context(s.next, from, id, at);
      s.(asks := if expectsReply then Put(s.asks, context) else s.asks, next := s.next + 1)
    case QueueTurn(c) => s.(turns := s.turns + [c])
    case Forget(c) =>
      s.(asks := Without(s.asks, {c}), turns := Without(s.turns, {c}),
         current := if s.current == Some(c) then None else s.current)
    case BeginTurn(now) =>
      s.(asks := Unexpired(s.asks, askTimeoutMs, now),
         turns := if s.turns == [] then [] else s.turns[1..],
         current := if s.turns == [] then None else Some(s.turns[0]))
    case EndTurn => s.(current := None)
    case Reset => s.(asks := [], turns := [], current := None)
    case MarkReplied(id) =>
      s.(asks := Without(s.asks, WithMessage(s.asks, id)),
         current := if s.current.Some? && s.current.value.messageId == id then None else s.current)
    case PruneExpired(now) => s.(asks := Unexpired(s.asks, askTimeoutMs, now))
  }

  /** The context can still be reached from the tracker. */
  ghost predicate Present(c: Context, s: State) {
    c in s.asks || c in s.turns || s.current == Some(c)
  }

  ghost predicate DistinctMessages(asks: seq<Context>) {
    forall i, j :: 0 <= i < j < |asks| ==> asks[i].messageId != asks[j].messageId
  }

  lemma {:induction false} PutMembers(asks: seq<Context>, context: Context)
    requires DistinctMessages(asks)
    ensures DistinctMessages(Put(asks, context))
    ensures forall c :: c in Put(asks, context) <==> c == context || (c in asks && c.messageId != context.messageId)
  {
    if asks != [] {
      PutMembers(asks[1..], context);
      assert asks == [asks[0]] + asks[1..];
    }
  }

  /** Forgetting takes a context out of every place the tracker keeps it, and nothing else. */
  lemma {:induction false} ForgetErases(s: State, askTimeoutMs: int, c: Context)
    ensures var t := Step(s, askTimeoutMs, Forget(c));
      !Present(c, t) && forall d :: d != c ==> (Present(d, t) <==> Present(d, s))
  {
    Members(s.asks, {c});
    Members(s.turns, {c});
  }

  /** A context that is gone comes back only by being queued again. */
  lemma {:induction false} GoneStaysGone(s: State, askTimeoutMs: int, event: Event, c: Context)
    requires DistinctMessages(s.asks) && c.ref < s.next && !Present(c, s) && event != QueueTurn(c)
    ensures !Present(c, Step(s, askTimeoutMs, event))
  {
    match event {
      case RecordIncoming(from, id, _, at) => PutMembers(s.asks, Context(s.next, from, id, at));
      case Forget(d) => ForgetErases(s, askTimeoutMs, d);
      case BeginTurn(now) => Members(s.asks, Expired(s.asks, askTimeoutMs, now));
      case MarkReplied(id) => Members(s.asks, WithMessage(s.asks, id));
      case PruneExpired(now) => Members(s.asks, Expired(s.asks, askTimeoutMs, now));
      case _ =>
    }
  }

  lemma {:induction false} WithoutKeepsDistinct(asks: seq<Context>, drop: set<Context>)
    requires DistinctMessages(asks)
    ensures DistinctMessages(Without(asks, drop))
  {
    if asks != [] {
      WithoutKeepsDistinct(asks[1..], drop);
      Members(asks[1..], drop);
      assert forall c :: c in asks[1..] ==> c.messageId != asks[0].messageId;
    }
  }

  lemma {:induction false} StepKeepsDistinct(s: State, askTimeoutMs: int, event: Event)
    requires DistinctMessages(s.asks)
    ensures DistinctMessages(Step(s, askTimeoutMs, event).asks)
  {
    match event {
      case RecordIncoming(from, id, _, at) => PutMembers(s.asks, Context(s.next, from, id, at));
      case Forget(c) => WithoutKeepsDistinct(s.asks, {c});
      case BeginTurn(now) => WithoutKeepsDistinct(s.asks, Expired(s.asks, askTimeoutMs, now));
      case MarkReplied(id) => WithoutKeepsDistinct(s.asks, WithMessage(s.asks, id));
      case PruneExpired(now) => WithoutKeepsDistinct(s.asks, Expired(s.asks, askTimeoutMs, now));
      case _ =>
    }
  }

  // ----- Which ask a reply answers ---------------------------------------------------------

  datatype Reply =
    | Answers(context: Context)
    | NoContext
    | MultiplePending
    | NoneFrom
    | MultipleFrom
    | Ambiguous(resolution: Resolution)

  function PutSender(senders: seq<Session>, sender: Session): seq<Session> {
    if senders == [] then [sender]
    else if senders[0].id == sender.id then [sender] + senders[1..]
    else [senders[0]] + PutSender(senders[1..], sender)
  }

  /** One session per sender id, in the order of first appearance, as last seen. */
  function Senders(pending: seq<Context>): seq<Session> {
    if pending == [] then []
    else PutSender(Senders(pending[..|pending| - 1]), pending[|pending| - 1].from)
  }

  function FromId(pending: seq<Context>, id: string): set<Context> {
    set c | c in pending && c.from.id == id
  }

  function Addressed(pending: seq<Context>, resolution: Resolution): Reply {
    match resolution
    case NotFound => NoneFrom
    case Resolved(session) =>
      var matches := Within(pending, FromId(pending, session.id));
      if |matches| == 1 then Answers(matches[0]) else if |matches| > 1 then MultipleFrom else NoneFrom
    case _ => Ambiguous(resolution)
  }

  /** What `resolveReplyTarget` answers once expired asks are pruned; an empty `to` counts as absent. */
  function ReplyTarget(current: Option<Context>, pending: seq<Context>, to: string, fold: string -> string, trim: string -> string): Reply {
    if current.Some? then Answers(current.value)
    else if to != "" then Addressed(pending, ResolveSessionTarget(Senders(pending), to, fold, trim))
    else if |pending| == 1 then Answers(pending[0])
    else if |pending| == 0 then NoContext
    else MultiplePending
  }

  lemma {:induction false} PutSenderMembers(senders: seq<Session>, sender: Session)
    requires DistinctSessions(senders)
    ensures DistinctSessions(PutSender(senders, sender))
    ensures forall s :: s in PutSender(senders, sender) <==> s == sender || (s in senders && s.id != sender.id)
  {
    if senders != [] {
      PutSenderMembers(senders[1..], sender);
      assert senders == [senders[0]] + senders[1..];
    }
  }

  lemma {:induction false} SendersMembers(pending: seq<Context>)
    ensures DistinctSessions(Senders(pending))
    ensures forall s :: s in Senders(pending) ==> exists c :: c in pending && c.from == s
    ensures forall c :: c in pending ==> exists s :: s in Senders(pending) && s.id == c.from.id
  {
    if pending != [] {
      var init, last := pending[..|pending| - 1], pending[|pending| - 1];
      assert pending == init + [last];
      SendersMembers(init);
      PutSenderMembers(Senders(init), last.from);
      forall c | c in pending
        ensures exists s :: s in Senders(pending) && s.id == c.from.id
      {
        if c.from.id == last.from.id {
          assert last.from in Senders(pending);
        } else {
          var s :| s in Senders(init) && s.id == c.from.id;
          assert s in Senders(pending);
        }
      }
    }
  }

  /**
   Outside a turn, a reply goes only to an unexpired ask that is the sole candidate: the only one
   pending, or the only one pending from the session the target names.
   */
  lemma {:induction false} ReplyGoesToSoleCandidate(
      asks: seq<Context>, askTimeoutMs: int, now: int, to: string, fold: string -> string, trim: string -> string, c: Context)
    requires DistinctMessages(asks)
    requires ReplyTarget(None, Unexpired(asks, askTimeoutMs, now), to, fold, trim) == Answers(c)
    ensures c in asks && now - c.receivedAt <= askTimeoutMs
    ensures var rivals := set d | d in asks && d != c && now - d.receivedAt <= askTimeoutMs;
      if to == "" then rivals == {}
      else
        && (forall d :: d in rivals ==> d.from.id != c.from.id)
        && var resolution := ResolveSessionTarget(Senders(Unexpired(asks, askTimeoutMs, now)), to, fold, trim);
           resolution.Resolved? && resolution.session.id == c.from.id
  {
    var pending := Unexpired(asks, askTimeoutMs, now);
    Members(asks, Expired(asks, askTimeoutMs, now));
    if to != "" {
      var resolution := ResolveSessionTarget(Senders(pending), to, fold, trim);
      var k := FromId(pending, resolution.session.id);
      Members(pending, k);
      assert c in Within(pending, k);
    } else {
      assert pending == [c];
    }
  }

  /** Asks of one sender agree on who the sender is. */
  ghost predicate SendersAgree(pending: seq<Context>) {
    forall c, d :: c in pending && d in pending && c.from.id == d.from.id ==> c.from == d.from
  }

  ghost predicate SameReply(r: Reply, q: Reply) {
    match (r, q)
    case (Answers(c), Answers(d)) => c == d
    case (Ambiguous(x), Ambiguous(y)) => SameOutcome(x, y)
    case (NoContext, NoContext) => true
    case (MultiplePending, MultiplePending) => true
    case (NoneFrom, NoneFrom) => true
    case (MultipleFrom, MultipleFrom) => true
    case _ => false
  }

  lemma {:induction false} SendersAreOrderFree(pending: seq<Context>, permuted: seq<Context>)
    requires multiset(pending) == multiset(permuted) && SendersAgree(pending)
    ensures multiset(Senders(pending)) == multiset(Senders(permuted))
  {
    SamePermutationMembers(pending, permuted);
    SendersMembers(pending);
    SendersMembers(permuted);
    var s, t := Senders(pending), Senders(permuted);
    forall x
      ensures x in s <==> x in t
    {
      if x in s {
        var c :| c in pending && c.from == x;
        var y :| y in t && y.id == c.from.id;
      }
      if x in t {
        var c :| c in permuted && c.from == x;
        var y :| y in s && y.id == c.from.id;
      }
    }
    DistinctCounts(s);
    DistinctCounts(t);
  }

  lemma {:induction false} MatchesAreOrderFree(pending: seq<Context>, permuted: seq<Context>, id: string)
    requires multiset(pending) == multiset(permuted)
    ensures var m, n := Within(pending, FromId(pending, id)), Within(permuted, FromId(permuted, id));
      |m| == |n| && (|m| == 1 ==> m[0] == n[0])
  {
    SamePermutationMembers(pending, permuted);
    var k := FromId(pending, id);
    assert k == FromId(permuted, id);
    WithinOfPermutation(pending, permuted, k);
    var m, n := Within(pending, k), Within(permuted, k);
    if |m| == 1 {
      assert m[0] in multiset(n);
    }
  }

  lemma {:induction false} AddressedIsOrderFree(pending: seq<Context>, permuted: seq<Context>, r: Resolution, q: Resolution)
    requires multiset(pending) == multiset(permuted) && SameOutcome(r, q)
    ensures SameReply(Addressed(pending, r), Addressed(permuted, q))
  {
    if r.Resolved? {
      MatchesAreOrderFree(pending, permuted, r.session.id);
    }
  }

  /** The order in which asks arrived never matters, as long as a sender keeps its name. */
  lemma {:induction false} ReplyIsOrderFree(
      pending: seq<Context>, permuted: seq<Context>, to: string, fold: string -> string, trim: string -> string)
    requires multiset(pending) == multiset(permuted) && SendersAgree(pending)
    ensures SameReply(ReplyTarget(None, pending, to, fold, trim), ReplyTarget(None, permuted, to, fold, trim))
  {
    assert |multiset(pending)| == |pending| && |multiset(permuted)| == |permuted|;
    if to != "" {
      SendersAreOrderFree(pending, permuted);
      SendersMembers(pending);
      ResolutionIsOrderFree(Senders(pending), Senders(permuted), to, fold, trim);
      AddressedIsOrderFree(pending, permuted,
        ResolveSessionTarget(Senders(pending), to, fold, trim), ResolveSessionTarget(Senders(permuted), to, fold, trim));
    } else if |pending| == 1 {
      assert pending[0] in multiset(permuted);
    }
  }

  /** When a sender was renamed between two asks, the order of the asks decides: one answers z, the other is ambiguous. */
  lemma {:induction false} RenamedSenderMakesOrderMatter(
      x: Context, y: Context, z: Context, fold: string -> string, trim: string -> string)
    requires x.from == Session("a", Some("X")) && y.from == Session("a", Some("Y")) && z.from == Session("b", Some("X"))
    requires fold("X") != fold("Y") && trim("X") == "X"
    ensures ReplyTarget(None, [x, y, z], "X", fold, trim) == Answers(z)
    ensures ReplyTarget(None, [y, x, z], "X", fold, trim).Ambiguous?
  {
    SendersOfThree(x, y, z);
    SendersOfThree(y, x, z);
    assert ResolveSessionTarget([y.from, z.from], "X", fold, trim) == Resolved(z.from) by {
      assert Named([y.from, z.from], fold("X"), fold) == {z.from};
      ResolvedExactly([y.from, z.from], "X", fold, trim, z.from);
    }
    assert ResolveSessionTarget([x.from, z.from], "X", fold, trim).AmbiguousName? by {
      assert Named([x.from, z.from], fold("X"), fold) == {x.from, z.from};
      WithIdFinds([x.from, z.from], "X");
      SoleMatch([x.from, z.from], {x.from, z.from});
    }
    assert Within([x, y, z], FromId([x, y, z], "b")) == [z] by {
      assert FromId([x, y, z], "b") == {z};
      assert [x, y, z] == [x, y] + [z];
      WithinConcat([x, y], [z], {z});
      WithinNone([x, y], {z});
    }
  }

  lemma SendersOfThree(x: Context, y: Context, z: Context)
    requires x.from.id == y.from.id != z.from.id
    ensures Senders([x, y, z]) == [y.from, z.from]
  {
    assert [x, y, z][..2] == [x, y] && [x, y][..1] == [x] && [x][..0] == [];
    assert Senders([x]) == [x.from];
    assert Senders([x, y]) == [y.from];
    assert PutSender([y.from], z.from) == [y.from] + PutSender([y.from][1..], z.from);
  }

  // ----- The class -------------------------------------------------------------------------

  class ReplyTracker {
    const askTimeoutMs: int
    var pendingAsks: seq<Context>
    var pendingTurnContexts: seq<Context>
    var currentTurnContext: Option<Context>
    /** The object identity the next context gets. */
    var nextRef: nat

    ghost function View(): State
      reads this
    {
      State(pendingAsks, pendingTurnContexts, currentTurnContext, nextRef)
    }

    ghost predicate Valid()
      reads this
    {
      DistinctMessages(pendingAsks)
    }

    constructor (askTimeoutMs: int)
      ensures Valid() && View() == State([], [], None, 0) && this.askTimeoutMs == askTimeoutMs
    {
      this.askTimeoutMs := askTimeoutMs;
      pendingAsks, pendingTurnContexts, currentTurnContext, nextRef := [], [], None, 0;
    }

    method RecordIncomingMessage(from: Session, messageId: string, expectsReply: bool, receivedAt: int) returns (context: Context)
      requires Valid()
      modifies this
      ensures Valid() && View() == Step(old(View()), askTimeoutMs, RecordIncoming(from, messageId, expectsReply, receivedAt))
      ensures context == Context(old(nextRef), from, messageId, receivedAt)
    {
      StepKeepsDistinct(View(), askTimeoutMs, RecordIncoming(from, messageId, expectsReply, receivedAt));
      context := Context(nextRef, from, messageId, receivedAt);
      nextRef := nextRef + 1;
      if expectsReply {
        pendingAsks := Put(pendingAsks, context);
      }
    }

    method QueueTurnContext(context: Context)
      requires Valid()
      modifies this
      ensures Valid() && View() == Step(old(View()), askTimeoutMs, QueueTurn(context))
    {
      pendingTurnContexts := pendingTurnContexts + [context];
    }

    method ForgetIncomingMessage(context: Context)
      requires Valid()
      modifies this
      ensures Valid() && View() == Step(old(View()), askTimeoutMs, Forget(context))
    {
      StepKeepsDistinct(View(), askTimeoutMs, Forget(context));
      if context in pendingAsks {
        pendingAsks := Without(pendingAsks, {context});
      } else {
        WithoutNone(pendingAsks, {context});
      }
      pendingTurnContexts := SpliceOut(pendingTurnContexts, context);
      if currentTurnContext == Some(context) {
        currentTurnContext := None;
      }
    }

    method BeginTurn(now: int)
      requires Valid()
      modifies this
      ensures Valid() && View() == Step(old(View()), askTimeoutMs, Event.BeginTurn(now))
    {
      Prune(now);
      if pendingTurnContexts == [] {
        currentTurnContext := None;
      } else {
        currentTurnContext := Some(pendingTurnContexts[0]);
        pendingTurnContexts := pendingTurnContexts[1..];
      }
    }

    method EndTurn()
      requires Valid()
      modifies this
      ensures Valid() && View() == Step(old(View()), askTimeoutMs, Event.EndTurn)
    {
      currentTurnContext := None;
    }

    method Reset()
      modifies this
      ensures Valid() && View() == Step(old(View()), askTimeoutMs, Event.Reset)
    {
      pendingAsks, pendingTurnContexts, currentTurnContext := [], [], None;
    }

    method ResolveReplyTarget(to: string, now: int, fold: string -> string, trim: string -> string) returns (reply: Reply)
      requires Valid()
      modifies this
      ensures Valid() && View() == Step(old(View()), askTimeoutMs, PruneExpired(now))
      ensures reply == ReplyTarget(currentTurnContext, pendingAsks, to, fold, trim)
    {
      Prune(now);
      if currentTurnContext.Some? {
        return Answers(currentTurnContext.value);
      }
      var pending := pendingAsks;
      if to != "" {
        var senders := [];
        for i := 0 to |pending|
          invariant senders == Senders(pending[..i])
        {
          assert pending[..i + 1][..i] == pending[..i];
          senders := PutSender(senders, pending[i].from);
        }
        assert pending[..|pending|] == pending;
        var resolution := ResolveSessionTarget(senders, to, fold, trim);
        if !resolution.Resolved? {
          return if resolution.NotFound? then NoneFrom else Ambiguous(resolution);
        }
        var matches := Within(pending, FromId(pending, resolution.session.id));
        return if |matches| == 1 then Answers(matches[0]) else if |matches| > 1 then MultipleFrom else NoneFrom;
      }
      if |pending| == 1 {
        return Answers(pending[0]);
      }
      return if |pending| == 0 then NoContext else MultiplePending;
    }

    method MarkReplied(replyTo: string)
      requires Valid()
      modifies this
      ensures Valid() && View() == Step(old(View()), askTimeoutMs, Event.MarkReplied(replyTo))
    {
      StepKeepsDistinct(View(), askTimeoutMs, Event.MarkReplied(replyTo));
      pendingAsks := Without(pendingAsks, WithMessage(pendingAsks, replyTo));
      if currentTurnContext.Some? && currentTurnContext.value.messageId == replyTo {
        currentTurnContext := None;
      }
    }

    method Prune(now: int)
      requires Valid()
      modifies this
      ensures Valid() && View() == Step(old(View()), askTimeoutMs, PruneExpired(now))
    {
      StepKeepsDistinct(View(), askTimeoutMs, PruneExpired(now));
      pendingAsks := DropExpired(pendingAsks, askTimeoutMs, now);
    }
  }

  /** Splices every occurrence out, from the newest to the oldest. */
  method SpliceOut(queued: seq<Context>, context: Context) returns (rest: seq<Context>)
    ensures rest == Without(queued, {context})
  {
    rest := queued;
    ghost var back: seq<Context> := [];
    var index := |queued| - 1;
    while index >= 0
      invariant -1 <= index < |queued|
      invariant back == Without(queued[index + 1..], {context})
      invariant rest == queued[..index + 1] + back
    {
      WithoutFrom(queued, index, context);
      SpliceAt(queued[..index], queued[index], back);
      if rest[index] == context {
        rest := rest[..index] + rest[index + 1..];
      } else {
        back := [queued[index]] + back;
      }
      index := index - 1;
    }
    assert queued[0..] == queued;
  }

  lemma SpliceAt(front: seq<Context>, c: Context, back: seq<Context>)
    ensures var all := front + [c] + back;
      all[|front|] == c && all[..|front|] + all[|front| + 1..] == front + back && all == front + ([c] + back)
  {
  }

  lemma WithoutFrom(queued: seq<Context>, k: nat, context: Context)
    requires k < |queued|
    ensures Without(queued[k..], {context}) ==
      (if queued[k] == context then [] else [queued[k]]) + Without(queued[k + 1..], {context})
    ensures queued[..k + 1] == queued[..k] + [queued[k]]
  {
    assert queued[k..][1..] == queued[k + 1..];
  }

  /** Visits the asks oldest first and deletes the expired ones. */
  method DropExpired(asks: seq<Context>, askTimeoutMs: int, now: int) returns (kept: seq<Context>)
    ensures kept == Unexpired(asks, askTimeoutMs, now)
  {
    kept := [];
    ghost var expired := Expired(asks, askTimeoutMs, now);
    for i := 0 to |asks|
      invariant kept == Without(asks[..i], expired)
    {
      assert asks[..i + 1] == asks[..i] + [asks[i]];
      WithoutConcat(asks[..i], [asks[i]], expired);
      if !(now - asks[i].receivedAt > askTimeoutMs) {
        kept := kept + [asks[i]];
      }
    }
    assert asks[..|asks|] == asks;
  }
}
