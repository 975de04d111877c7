/**
 Local delivery of relayed subagent messages (packages/intercom/subagent-relay.ts). Requests with the same
 id share one delivery while it is in flight, and the cache answers for those that succeeded. A request
 without an id has the empty string. A delivery that throws at once is one that fails.
 */
module LocalDeliveries {
  import opened Sequences
  import opened DeliveredMessageCaches

  datatype Progress = Running | Succeeded | Failed

  datatype Delivery = Delivery(requestId: string, signature: string, progress: Progress)

  /** What a request waits for, or whether it was acknowledged as delivered. */
  datatype Answer = Waiting(delivery: nat) | Acknowledged | Refused

  datatype Request = Request(requestId: string, signature: string, answer: Answer)

  datatype InFlight = InFlight(signature: string, delivery: nat)

  /** `recorded` is what a cache that forgets nothing would hold, `clock` the latest time seen. */
  datatype State = State(
    cache: seq<Delivered>, inFlight: map<string, InFlight>, deliveries: seq<Delivery>, requests: seq<Request>,
    recorded: seq<Delivered>, clock: int)

  datatype Event =
    | Relay(requestId: string, signature: string, now: int)
    | Settle(delivery: nat, ok: bool, now: int)

  const INITIAL := State([], map[], [], [], [], 0)

  function Looked(s: State, requestId: string, signature: string, now: int): Match {
    if requestId == "" then Miss else DeliveredMessageCaches.Answer(s.cache, TTL_MS, requestId, signature, now)
  }

  function Answered(s: State, request: Request): State {
    s.(requests := s.requests + [request])
  }

  function Started(s: State, requestId: string, signature: string): State {
    s.(inFlight := if requestId == "" then s.inFlight else s.inFlight[requestId := InFlight(signature, |s.deliveries|)],
       deliveries := s.deliveries + [Delivery(requestId, signature, Running)],
       requests := s.requests + [Request(requestId, signature, Waiting(|s.deliveries|))])
  }

  function Relayed(s: State, requestId: string, signature: string, now: int): State {
    var looked := s.(cache := if requestId == "" then s.cache else Prune(s.cache, TTL_MS, now), clock := now);
    match Looked(s, requestId, signature, now)
    case Conflict => Answered(looked, Request(requestId, signature, Refused))
    case Match => Answered(looked, Request(requestId, signature, Acknowledged))
    case Miss =>
      if requestId != "" && requestId in s.inFlight
      then Answered(looked, Request(requestId, signature, Waiting(s.inFlight[requestId].delivery)))
      else Started(looked, requestId, signature)
  }

  /** A request that joined a delivery with another payload is refused however the delivery ends. */
  function Resumed(request: Request, d: nat, ok: bool, signature: string): Request {
    if request.answer != Waiting(d) then request
    else request.(answer := if ok && request.signature == signature then Acknowledged else Refused)
  }

  function ResumedAll(requests: seq<Request>, d: nat, ok: bool, signature: string): (r: seq<Request>)
    ensures |r| == |requests|
    ensures forall k :: 0 <= k < |requests| ==> r[k] == Resumed(requests[k], d, ok, signature)
  {
    if requests == [] then [] else [Resumed(requests[0], d, ok, signature)] + ResumedAll(requests[1..], d, ok, signature)
  }

  /** How many requests this success acknowledges: each of them records it. */
  function Recordings(requests: seq<Request>, d: nat, signature: string): (n: nat)
    ensures n > 0 <==> exists k :: 0 <= k < |requests| && requests[k].answer == Waiting(d) && requests[k].signature == signature
  {
    if requests == [] then 0
    else
      (if requests[0].answer == Waiting(d) && requests[0].signature == signature then 1 else 0)
      + Recordings(requests[1..], d, signature)
  }

  function RecordedTimes(cache: seq<Delivered>, record: Delivered, n: nat): seq<Delivered> {
    if n == 0 then cache else Recorded(RecordedTimes(cache, record, n - 1), TTL_MS, MAX_ENTRIES, record)
  }

  function Ended(s: State, d: nat, ok: bool): State
    requires d < |s.deliveries|
  {
    var delivery := s.deliveries[d];
    s.(inFlight := if delivery.requestId == "" then s.inFlight else s.inFlight - {delivery.requestId},
       deliveries := s.deliveries[d := delivery.(progress := if ok then Succeeded else Failed)],
       requests := ResumedAll(s.requests, d, ok, delivery.signature))
  }

  function Settled(s: State, d: nat, ok: bool, now: int): State {
    if d >= |s.deliveries| || s.deliveries[d].progress != Running then s
    else
      var delivery := s.deliveries[d];
      var n := if ok && delivery.requestId != "" then Recordings(s.requests, d, delivery.signature) else 0;
      var record := Delivered(delivery.requestId, now, delivery.signature);
      Ended(s, d, ok).(cache := RecordedTimes(s.cache, record, n),
                       recorded := if n == 0 then s.recorded else RecordAll(s.recorded, record), clock := now)
  }

  function Step(s: State, event: Event): State {
    match event
    case Relay(requestId, signature, now) => Relayed(s, requestId, signature, now)
    case Settle(d, ok, now) => Settled(s, d, ok, now)
  }

  function Run(s: State, events: seq<Event>): State
    decreases |events|
  {
    if events == [] then s else Run(Step(s, events[0]), events[1..])
  }

  /** The clock does not run backwards. */
  ghost predicate Chronological(s: State, events: seq<Event>)
    decreases |events|
  {
    events == [] || (s.clock <= events[0].now && Chronological(Step(s, events[0]), events[1..]))
  }

  // ----- The invariant ---------------------------------------------------------------------

  /** The map holds exactly the running deliveries that have an id. */
  ghost predicate InFlightMatches(inFlight: map<string, InFlight>, deliveries: seq<Delivery>) {
    && (forall id :: id in inFlight ==> id != "" && inFlight[id].delivery < |deliveries|
                                        && deliveries[inFlight[id].delivery] == Delivery(id, inFlight[id].signature, Running))
    && (forall d: nat :: d < |deliveries| && deliveries[d].progress == Running && deliveries[d].requestId != "" ==>
          deliveries[d].requestId in inFlight && inFlight[deliveries[d].requestId].delivery == d)
  }

  ghost predicate Originates(request: Request, d: nat, delivery: Delivery) {
    request.answer == Waiting(d) && request.signature == delivery.signature
  }

  /** Whoever waits, waits for a running delivery of its id; and somebody with its payload waits for each. */
  ghost predicate Waits(requests: seq<Request>, deliveries: seq<Delivery>) {
    && (forall k: nat :: k < |requests| && requests[k].answer.Waiting? ==>
          var d := requests[k].answer.delivery; d < |deliveries| && deliveries[d].progress == Running && deliveries[d].requestId == requests[k].requestId)
    && (forall d: nat :: d < |deliveries| && deliveries[d].progress == Running ==>
          exists k: nat :: k < |requests| && Originates(requests[k], d, deliveries[d]))
  }

  /** This payload was delivered under this id. */
  ghost predicate WasDelivered(deliveries: seq<Delivery>, requestId: string, signature: string) {
    Delivery(requestId, signature, Succeeded) in deliveries
  }

  ghost predicate AnswersTruthful(requests: seq<Request>, deliveries: seq<Delivery>) {
    forall k: nat :: k < |requests| && requests[k].answer == Acknowledged ==> WasDelivered(deliveries, requests[k].requestId, requests[k].signature)
  }

  ghost predicate RecordsTruthful(recorded: seq<Delivered>, deliveries: seq<Delivery>) {
    forall r :: r in recorded ==> WasDelivered(deliveries, r.messageId, r.signature)
  }

  ghost predicate Invariant(s: State) {
    && InFlightMatches(s.inFlight, s.deliveries) && Waits(s.requests, s.deliveries)
    && AnswersTruthful(s.requests, s.deliveries) && RecordsTruthful(s.recorded, s.deliveries)
    && Bounded(s.cache, s.recorded, TTL_MS, MAX_ENTRIES, s.clock)
  }

  lemma {:induction false} StillDelivered(before: seq<Delivery>, after: seq<Delivery>)
    requires |before| <= |after|
    requires forall d: nat :: d < |before| && before[d].progress == Succeeded ==> after[d] == before[d]
    ensures forall requestId, signature :: WasDelivered(before, requestId, signature) ==> WasDelivered(after, requestId, signature)
  {
    forall requestId, signature | WasDelivered(before, requestId, signature)
      ensures WasDelivered(after, requestId, signature)
    {
      var d :| 0 <= d < |before| && before[d] == Delivery(requestId, signature, Succeeded);
      assert after[d] == before[d];
    }
  }

  lemma {:induction false} AnsweredKeeps(s: State, request: Request)
    requires Invariant(s)
    requires match request.answer
             case Waiting(d) => d < |s.deliveries| && s.deliveries[d].progress == Running && s.deliveries[d].requestId == request.requestId
             case Acknowledged => WasDelivered(s.deliveries, request.requestId, request.signature)
             case Refused => true
    ensures Invariant(Answered(s, request))
  {
    var t := Answered(s, request);
    assert forall k: nat :: k < |s.requests| ==> t.requests[k] == s.requests[k];
    forall d: nat | d < |s.deliveries| && s.deliveries[d].progress == Running
      ensures exists k: nat :: k < |t.requests| && Originates(t.requests[k], d, s.deliveries[d])
    {
      var k: nat :| k < |s.requests| && Originates(s.requests[k], d, s.deliveries[d]);
      assert Originates(t.requests[k], d, s.deliveries[d]);
    }
  }

  lemma {:induction false} StartedWaits(s: State, requestId: string, signature: string)
    requires Waits(s.requests, s.deliveries)
    ensures Waits(Started(s, requestId, signature).requests, Started(s, requestId, signature).deliveries)
  {
    var t := Started(s, requestId, signature);
    assert forall k: nat :: k < |s.requests| ==> t.requests[k] == s.requests[k];
    assert forall d: nat :: d < |s.deliveries| ==> t.deliveries[d] == s.deliveries[d];
    forall d: nat | d < |t.deliveries| && t.deliveries[d].progress == Running
      ensures exists k: nat :: k < |t.requests| && Originates(t.requests[k], d, t.deliveries[d])
    {
      if d < |s.deliveries| {
        var k: nat :| k < |s.requests| && Originates(s.requests[k], d, s.deliveries[d]);
        assert Originates(t.requests[k], d, t.deliveries[d]);
      } else {
        assert Originates(t.requests[|s.requests|], d, t.deliveries[d]);
      }
    }
  }

  lemma {:induction false} StartedKeeps(s: State, requestId: string, signature: string)
    requires Invariant(s) && requestId !in s.inFlight
    ensures Invariant(Started(s, requestId, signature))
  {
    var t := Started(s, requestId, signature);
    StillDelivered(s.deliveries, t.deliveries);
    StartedWaits(s, requestId, signature);
  }

  /** Looking up only prunes the cache; a match means the payload was delivered. */
  lemma {:induction false} LookingUp(s: State, requestId: string, signature: string, now: int)
    requires Invariant(s) && s.clock <= now
    ensures Invariant(s.(cache := Prune(s.cache, TTL_MS, now), clock := now))
    ensures Invariant(s.(clock := now))
    ensures Looked(s, requestId, signature, now) == Match.Match ==> WasDelivered(s.deliveries, requestId, signature)
  {
    PruneKeepsBounded(s.cache, s.recorded, TTL_MS, MAX_ENTRIES, s.clock, now);
    if requestId != "" {
      LookupIsExact(s.cache, s.recorded, TTL_MS, MAX_ENTRIES, s.clock, requestId, signature, now);
    }
  }

  lemma {:induction false} RelayedKeeps(s: State, requestId: string, signature: string, now: int)
    requires Invariant(s) && s.clock <= now
    ensures Invariant(Relayed(s, requestId, signature, now))
  {
    LookingUp(s, requestId, signature, now);
    var looked := s.(cache := if requestId == "" then s.cache else Prune(s.cache, TTL_MS, now), clock := now);
    match Looked(s, requestId, signature, now)
    case Conflict => AnsweredKeeps(looked, Request(requestId, signature, Refused));
    case Match => AnsweredKeeps(looked, Request(requestId, signature, Acknowledged));
    case Miss =>
      if requestId != "" && requestId in s.inFlight {
        AnsweredKeeps(looked, Request(requestId, signature, Waiting(s.inFlight[requestId].delivery)));
      } else {
        StartedKeeps(looked, requestId, signature);
      }
  }

  lemma {:induction false} DeleteConcat(s: seq<Delivered>, t: seq<Delivered>, messageId: string)
    ensures Delete(s + t, messageId) == Delete(s, messageId) + Delete(t, messageId)
  {
    if s == [] {
      assert s + t == t;
    } else {
      assert (s + t)[1..] == s[1..] + t;
      DeleteConcat(s[1..], t, messageId);
    }
  }

  lemma {:induction false} DeletedIsGone(s: seq<Delivered>, messageId: string)
    ensures forall r :: r in Delete(s, messageId) ==> r.messageId != messageId
  {
    if s != [] {
      DeletedIsGone(s[1..], messageId);
    }
  }

  lemma {:induction false} RecordAllTwice(all: seq<Delivered>, record: Delivered)
    ensures RecordAll(RecordAll(all, record), record) == RecordAll(all, record)
  {
    DeleteConcat(Delete(all, record.messageId), [record], record.messageId);
    DeletedIsGone(all, record.messageId);
    DeleteAbsent(Delete(all, record.messageId), record.messageId);
  }

  lemma {:induction false} RecordedTimesKeepsBounded(s: State, record: Delivered, n: nat)
    requires Bounded(s.cache, s.recorded, TTL_MS, MAX_ENTRIES, s.clock) && s.clock <= record.deliveredAt
    ensures Bounded(RecordedTimes(s.cache, record, n), if n == 0 then s.recorded else RecordAll(s.recorded, record),
                    TTL_MS, MAX_ENTRIES, if n == 0 then s.clock else record.deliveredAt)
    decreases n
  {
    if n == 1 {
      assert RecordedTimes(s.cache, record, 0) == s.cache;
      RecordKeepsBounded(s.cache, s.recorded, TTL_MS, MAX_ENTRIES, s.clock, record);
    } else if n > 1 {
      RecordedTimesKeepsBounded(s, record, n - 1);
      RecordAllTwice(s.recorded, record);
      RecordKeepsBounded(RecordedTimes(s.cache, record, n - 1), RecordAll(s.recorded, record), TTL_MS, MAX_ENTRIES, record.deliveredAt, record);
    }
  }

  lemma {:induction false} EndedWaits(s: State, d: nat, ok: bool)
    requires Invariant(s) && d < |s.deliveries| && s.deliveries[d].progress == Running
    ensures Waits(Ended(s, d, ok).requests, Ended(s, d, ok).deliveries)
  {
    var t := Ended(s, d, ok);
    assert forall e: nat :: e < |s.deliveries| && e != d ==> t.deliveries[e] == s.deliveries[e];
    forall k: nat | k < |t.requests| && t.requests[k].answer.Waiting?
      ensures t.requests[k] == s.requests[k] && t.requests[k].answer.delivery != d
    {
      assert t.requests[k] == Resumed(s.requests[k], d, ok, s.deliveries[d].signature);
    }
    forall e: nat | e < |t.deliveries| && t.deliveries[e].progress == Running
      ensures exists k: nat :: k < |t.requests| && Originates(t.requests[k], e, t.deliveries[e])
    {
      var k: nat :| k < |s.requests| && Originates(s.requests[k], e, s.deliveries[e]);
      assert Originates(t.requests[k], e, t.deliveries[e]);
    }
  }

  /** A success is true of everybody it answers, and of the record. */
  lemma {:induction false} EndedTruthfully(s: State, d: nat, ok: bool, record: Delivered)
    requires Invariant(s) && d < |s.deliveries| && s.deliveries[d].progress == Running
    requires record.messageId == s.deliveries[d].requestId && record.signature == s.deliveries[d].signature
    ensures AnswersTruthful(Ended(s, d, ok).requests, Ended(s, d, ok).deliveries)
    ensures RecordsTruthful(s.recorded, Ended(s, d, ok).deliveries)
    ensures ok ==> RecordsTruthful(RecordAll(s.recorded, record), Ended(s, d, ok).deliveries)
  {
    var t := Ended(s, d, ok);
    StillDelivered(s.deliveries, t.deliveries);
    if ok {
      assert t.deliveries[d] == Delivery(record.messageId, record.signature, Succeeded);
    }
    DeleteWithin(s.recorded, record.messageId);
  }

  lemma {:induction false} DeleteWithin(all: seq<Delivered>, messageId: string)
    ensures forall r :: r in Delete(all, messageId) ==> r in all
  {
    if all != [] {
      DeleteWithin(all[1..], messageId);
      assert all == [all[0]] + all[1..];
    }
  }

  lemma {:induction false} EndedMatches(s: State, d: nat, ok: bool)
    requires Invariant(s) && d < |s.deliveries| && s.deliveries[d].progress == Running
    ensures InFlightMatches(Ended(s, d, ok).inFlight, Ended(s, d, ok).deliveries)
  {
    var t := Ended(s, d, ok);
    assert forall e: nat :: e < |s.deliveries| && e != d ==> t.deliveries[e] == s.deliveries[e];
  }

  /** A delivery ends, and the cache is left in step with what is recorded. */
  lemma {:induction false} EndedKeeps(s: State, d: nat, ok: bool, cache: seq<Delivered>, recorded: seq<Delivered>, now: int)
    requires Invariant(s) && d < |s.deliveries| && s.deliveries[d].progress == Running
    requires Bounded(cache, recorded, TTL_MS, MAX_ENTRIES, now)
    requires recorded == s.recorded || (ok && recorded == RecordAll(s.recorded, Delivered(s.deliveries[d].requestId, now, s.deliveries[d].signature)))
    ensures Invariant(Ended(s, d, ok).(cache := cache, recorded := recorded, clock := now))
  {
    EndedMatches(s, d, ok);
    EndedWaits(s, d, ok);
    EndedTruthfully(s, d, ok, Delivered(s.deliveries[d].requestId, now, s.deliveries[d].signature));
  }

  lemma {:induction false} SettledKeeps(s: State, d: nat, ok: bool, now: int)
    requires Invariant(s) && s.clock <= now
    ensures Invariant(Settled(s, d, ok, now))
  {
    if d < |s.deliveries| && s.deliveries[d].progress == Running {
      var delivery := s.deliveries[d];
      var record := Delivered(delivery.requestId, now, delivery.signature);
      var n := if ok && delivery.requestId != "" then Recordings(s.requests, d, delivery.signature) else 0;
      var recorded := if n == 0 then s.recorded else RecordAll(s.recorded, record);
      RecordedTimesKeepsBounded(s, record, n);
      assert Bounded(RecordedTimes(s.cache, record, n), recorded, TTL_MS, MAX_ENTRIES, now);
      EndedKeeps(s, d, ok, RecordedTimes(s.cache, record, n), recorded, now);
    }
  }

  lemma {:induction false} RunKeepsInvariant(s: State, events: seq<Event>)
    requires Invariant(s) && Chronological(s, events)
    ensures Invariant(Run(s, events))
    decreases |events|
  {
    if events != [] {
      match events[0] {
        case Relay(requestId, signature, now) => RelayedKeeps(s, requestId, signature, now);
        case Settle(d, ok, now) => SettledKeeps(s, d, ok, now);
      }
      RunKeepsInvariant(Step(s, events[0]), events[1..]);
    }
  }

  // ----- What every run keeps --------------------------------------------------------------

  /** A delivery begins for an id exactly when none is in flight for it and the cache remembers none. */
  lemma {:induction false} DeliversOnlyWhatIsNew(events: seq<Event>, requestId: string, signature: string, now: int)
    requires Chronological(INITIAL, events) && Run(INITIAL, events).clock <= now && requestId != ""
    ensures var s := Run(INITIAL, events);
      Relayed(s, requestId, signature, now).deliveries != s.deliveries <==>
        && (forall d: nat :: d < |s.deliveries| && s.deliveries[d].requestId == requestId ==> s.deliveries[d].progress != Running)
        && !Remembered(s.recorded, TTL_MS, MAX_ENTRIES, requestId, now)
  {
    RunKeepsInvariant(INITIAL, events);
    var s := Run(INITIAL, events);
    LookupIsExact(s.cache, s.recorded, TTL_MS, MAX_ENTRIES, s.clock, requestId, signature, now);
    if requestId in s.inFlight {
      assert s.deliveries[s.inFlight[requestId].delivery].requestId == requestId;
    }
  }

  /**
   When a delivery ends, every request that waits for it is answered, in every run: acknowledged if it succeeded
   with the payload of that request, and refused if not; and no other request is touched.
   */
  lemma {:induction false} SettlementAnswersAll(events: seq<Event>, d: nat, ok: bool, now: int)
    requires Chronological(INITIAL, events) && d < |Run(INITIAL, events).deliveries| && Run(INITIAL, events).deliveries[d].progress == Running
    ensures var s, t := Run(INITIAL, events), Settled(Run(INITIAL, events), d, ok, now);
      && |t.requests| == |s.requests|
      && (forall k :: 0 <= k < |s.requests| ==>
            t.requests[k].answer ==
              if s.requests[k].answer != Waiting(d) then s.requests[k].answer
              else if ok && s.requests[k].signature == s.deliveries[d].signature then Acknowledged
              else Refused)
      && (exists k :: 0 <= k < |s.requests| && s.requests[k].answer == Waiting(d) && s.requests[k].requestId == s.deliveries[d].requestId)
      && t.deliveries[d].progress == (if ok then Succeeded else Failed)
      && (forall e :: 0 <= e < |s.deliveries| && e != d ==> t.deliveries[e] == s.deliveries[e])
  {
    RunKeepsInvariant(INITIAL, events);
    var s := Run(INITIAL, events);
    var k: nat :| k < |s.requests| && Originates(s.requests[k], d, s.deliveries[d]);
  }

  /** A request without an id is always delivered, by a delivery of its own that nobody joins. */
  lemma {:induction false} WithoutIdNothingIsShared(events: seq<Event>, signature: string, now: int, requestId: string, other: string, at: int)
    requires Chronological(INITIAL, events)
    ensures var s := Run(INITIAL, events);
      var t := Relayed(s, "", signature, now);
      && t.deliveries == s.deliveries + [Delivery("", signature, Running)]
      && t.requests == s.requests + [Request("", signature, Waiting(|s.deliveries|))]
      && Relayed(t, requestId, other, at).requests[|t.requests|].answer != Waiting(|s.deliveries|)
  {
    RunKeepsInvariant(INITIAL, events);
    var t := Relayed(Run(INITIAL, events), "", signature, now);
    assert t.inFlight == Run(INITIAL, events).inFlight;
    OnlyTheMapIsJoined(t, requestId, other, at);
  }

  lemma {:induction false} OnlyTheMapIsJoined(s: State, requestId: string, signature: string, now: int)
    ensures var answer := Relayed(s, requestId, signature, now).requests[|s.requests|].answer;
      answer.Waiting? ==> answer.delivery == |s.deliveries| || (requestId in s.inFlight && answer.delivery == s.inFlight[requestId].delivery)
  {
  }

  ghost function Successes(events: seq<Event>): nat {
    if events == [] then 0 else (if events[0].Settle? && events[0].ok then 1 else 0) + Successes(events[1..])
  }

  /** The payload was recorded under the id at `since` or later, among the newest n records. */
  ghost predicate RecentlyDelivered(recorded: seq<Delivered>, requestId: string, signature: string, since: int, n: nat) {
    exists q :: 0 <= q < |recorded| && recorded[q].messageId == requestId && recorded[q].signature == signature
      && recorded[q].deliveredAt >= since && |recorded| - q <= n
  }

  /** The payload is remembered, and nothing else is being delivered under its id. */
  ghost predicate Holds(s: State, requestId: string, signature: string, since: int, n: nat) {
    && RecentlyDelivered(s.recorded, requestId, signature, since, n)
    && forall d: nat :: d < |s.deliveries| && s.deliveries[d].progress == Running ==> s.deliveries[d].requestId != requestId
  }

  lemma {:induction false} OtherRecordKeepsRecent(
      recorded: seq<Delivered>, record: Delivered, requestId: string, signature: string, since: int, n: nat)
    requires DistinctIds(recorded) && RecentlyDelivered(recorded, requestId, signature, since, n) && record.messageId != requestId
    ensures RecentlyDelivered(RecordAll(recorded, record), requestId, signature, since, n + 1)
  {
    var q :| 0 <= q < |recorded| && recorded[q].messageId == requestId && recorded[q].signature == signature
      && recorded[q].deliveredAt >= since && |recorded| - q <= n;
    var after := RecordAll(recorded, record);
    if d :| 0 <= d < |recorded| && recorded[d].messageId == record.messageId {
      DeleteAt(recorded, d);
      assert after[if d < q then q - 1 else q] == recorded[q];
    } else {
      DeleteAbsent(recorded, record.messageId);
      assert after[q] == recorded[q];
    }
  }

  /** What is held answers a request: acknowledged on the same payload, refused on another, never delivered again. */
  lemma {:induction false} HeldAnswers(s: State, requestId: string, signature: string, since: int, n: nat, asked: string, now: int)
    requires Invariant(s) && Holds(s, requestId, signature, since, n) && requestId != ""
    requires n <= MAX_ENTRIES && s.clock <= now <= since + TTL_MS
    ensures var t := Relayed(s, requestId, asked, now);
      && t.deliveries == s.deliveries
      && t.requests == s.requests + [Request(requestId, asked, if asked == signature then Acknowledged else Refused)]
  {
    LookupIsExact(s.cache, s.recorded, TTL_MS, MAX_ENTRIES, s.clock, requestId, asked, now);
  }

  lemma {:induction false} RelayKeepsHold(
      s: State, asked: string, signature': string, now: int, requestId: string, signature: string, since: int, n: nat)
    requires Invariant(s) && Holds(s, requestId, signature, since, n) && requestId != ""
    requires n <= MAX_ENTRIES && s.clock <= now <= since + TTL_MS
    ensures Holds(Relayed(s, asked, signature', now), requestId, signature, since, n)
  {
    if asked == requestId {
      HeldAnswers(s, requestId, signature, since, n, signature', now);
    }
    assert Relayed(s, asked, signature', now).recorded == s.recorded;
  }

  lemma {:induction false} SettleKeepsHold(s: State, d: nat, ok: bool, now: int, requestId: string, signature: string, since: int, n: nat)
    requires Invariant(s) && Holds(s, requestId, signature, since, n)
    ensures Holds(Settled(s, d, ok, now), requestId, signature, since, if ok then n + 1 else n)
  {
    if d < |s.deliveries| && s.deliveries[d].progress == Running {
      var t := Settled(s, d, ok, now);
      assert forall e: nat :: e < |s.deliveries| && e != d ==> t.deliveries[e] == s.deliveries[e];
      OtherRecordKeepsRecent(s.recorded, Delivered(s.deliveries[d].requestId, now, s.deliveries[d].signature), requestId, signature, since, n);
    }
  }

  lemma {:induction false} ClockGrows(s: State, events: seq<Event>)
    requires Chronological(s, events)
    ensures s.clock <= Run(s, events).clock
    decreases |events|
  {
    if events != [] {
      ClockGrows(Step(s, events[0]), events[1..]);
    }
  }

  lemma {:induction false} RunKeepsHold(s: State, events: seq<Event>, requestId: string, signature: string, since: int, n: nat)
    requires Invariant(s) && Chronological(s, events) && Holds(s, requestId, signature, since, n) && requestId != ""
    requires n + Successes(events) <= MAX_ENTRIES && Run(s, events).clock <= since + TTL_MS
    ensures Invariant(Run(s, events)) && Holds(Run(s, events), requestId, signature, since, n + Successes(events))
    decreases |events|
  {
    if events != [] {
      var t := Step(s, events[0]);
      ClockGrows(t, events[1..]);
      match events[0] {
        case Relay(asked, signature', now) =>
          RelayedKeeps(s, asked, signature', now);
          RelayKeepsHold(s, asked, signature', now, requestId, signature, since, n);
          RunKeepsHold(t, events[1..], requestId, signature, since, n);
        case Settle(d, ok, now) =>
          SettledKeeps(s, d, ok, now);
          SettleKeepsHold(s, d, ok, now, requestId, signature, since, n);
          RunKeepsHold(t, events[1..], requestId, signature, since, if ok then n + 1 else n);
      }
    }
  }

  lemma {:induction false} SuccessIsHeld(s: State, d: nat, now: int)
    requires Invariant(s) && d < |s.deliveries| && s.deliveries[d].progress == Running && s.deliveries[d].requestId != ""
    ensures Holds(Settled(s, d, true, now), s.deliveries[d].requestId, s.deliveries[d].signature, now, 1)
  {
    var t, delivery := Settled(s, d, true, now), s.deliveries[d];
    var k: nat :| k < |s.requests| && Originates(s.requests[k], d, delivery);
    assert t.recorded[|t.recorded| - 1] == Delivered(delivery.requestId, now, delivery.signature);
    assert forall e: nat :: e < |s.deliveries| && e != d ==> t.deliveries[e] == s.deliveries[e];
  }

  /**
   Within the time to live after a success and until `MAX_ENTRIES` others succeed, whatever happens in
   between, a retry with the same payload is acknowledged, one with another is refused, and none is
   delivered again.
   */
  lemma {:induction false} RetryAfterSuccess(events: seq<Event>, d: nat, now: int, between: seq<Event>, asked: string, later: int)
    requires Chronological(INITIAL, events) && Run(INITIAL, events).clock <= now
    requires d < |Run(INITIAL, events).deliveries| && Run(INITIAL, events).deliveries[d].progress == Running
    requires Run(INITIAL, events).deliveries[d].requestId != ""
    requires Chronological(Settled(Run(INITIAL, events), d, true, now), between) && Successes(between) < MAX_ENTRIES
    requires Run(Settled(Run(INITIAL, events), d, true, now), between).clock <= later <= now + TTL_MS
    ensures var delivery := Run(INITIAL, events).deliveries[d];
      var t := Run(Settled(Run(INITIAL, events), d, true, now), between);
      var u := Relayed(t, delivery.requestId, asked, later);
      && u.deliveries == t.deliveries
      && u.requests == t.requests + [Request(delivery.requestId, asked, if asked == delivery.signature then Acknowledged else Refused)]
  {
    RunKeepsInvariant(INITIAL, events);
    var s := Run(INITIAL, events);
    var delivery := s.deliveries[d];
    SettledKeeps(s, d, true, now);
    SuccessIsHeld(s, d, now);
    RunKeepsHold(Settled(s, d, true, now), between, delivery.requestId, delivery.signature, now, 1);
    HeldAnswers(Run(Settled(s, d, true, now), between), delivery.requestId, delivery.signature, now, 1 + Successes(between), asked, later);
  }

  /** So two deliveries of one id never overlap. */
  lemma {:induction false} DeliveriesOfOneIdNeverOverlap(events: seq<Event>, d: nat, e: nat)
    requires Chronological(INITIAL, events) && d < |Run(INITIAL, events).deliveries| && e < |Run(INITIAL, events).deliveries|
    ensures var s := Run(INITIAL, events).deliveries;
      s[d].requestId == s[e].requestId != "" && s[d].progress == s[e].progress == Running ==> d == e
  {
    RunKeepsInvariant(INITIAL, events);
  }

  /**
   A request is acknowledged only if its payload was delivered under its id; and while it is unanswered, a
   delivery of its id is running.
   */
  lemma {:induction false} AcknowledgedMeansDelivered(events: seq<Event>, k: nat)
    requires Chronological(INITIAL, events) && k < |Run(INITIAL, events).requests|
    ensures var s := Run(INITIAL, events);
      var request := s.requests[k];
      && (request.answer == Acknowledged ==> Delivery(request.requestId, request.signature, Succeeded) in s.deliveries)
      && (request.answer.Waiting? ==>
            request.answer.delivery < |s.deliveries| && s.deliveries[request.answer.delivery].progress == Running
            && s.deliveries[request.answer.delivery].requestId == request.requestId)
  {
    RunKeepsInvariant(INITIAL, events);
  }

  // ----- Resuming requests -----------------------------------------------------------------

  lemma {:induction false} ResumedConcat(first: seq<Request>, rest: seq<Request>, d: nat, ok: bool, signature: string)
    ensures ResumedAll(first + rest, d, ok, signature) == ResumedAll(first, d, ok, signature) + ResumedAll(rest, d, ok, signature)
    ensures Recordings(first + rest, d, signature) == Recordings(first, d, signature) + Recordings(rest, d, signature)
  {
    if first == [] {
      assert first + rest == rest;
    } else {
      assert (first + rest)[1..] == first[1..] + rest;
      ResumedConcat(first[1..], rest, d, ok, signature);
    }
  }

  lemma {:induction false} ResumedNext(requests: seq<Request>, k: nat, d: nat, ok: bool, signature: string)
    requires k < |requests|
    ensures ResumedAll(requests[..k + 1], d, ok, signature) == ResumedAll(requests[..k], d, ok, signature) + [Resumed(requests[k], d, ok, signature)]
    ensures Recordings(requests[..k + 1], d, signature)
         == Recordings(requests[..k], d, signature) + if requests[k].answer == Waiting(d) && requests[k].signature == signature then 1 else 0
  {
    assert requests[..k + 1] == requests[..k] + [requests[k]];
    ResumedConcat(requests[..k], [requests[k]], d, ok, signature);
  }

  /** The cache after these requests went on: each that is acknowledged records the delivery. */
  function CacheAfter(cache: seq<Delivered>, requests: seq<Request>, d: nat, ok: bool, delivery: Delivery, now: int): seq<Delivered> {
    RecordedTimes(cache, Delivered(delivery.requestId, now, delivery.signature),
      if ok && delivery.requestId != "" then Recordings(requests, d, delivery.signature) else 0)
  }

  lemma {:induction false} CacheAfterNext(cache: seq<Delivered>, requests: seq<Request>, k: nat, d: nat, ok: bool, delivery: Delivery, now: int)
    requires k < |requests|
    ensures CacheAfter(cache, requests[..k + 1], d, ok, delivery, now) ==
      var before := CacheAfter(cache, requests[..k], d, ok, delivery, now);
      if requests[k].answer == Waiting(d) && ok && delivery.requestId != "" && requests[k].signature == delivery.signature
      then Recorded(before, TTL_MS, MAX_ENTRIES, Delivered(delivery.requestId, now, delivery.signature)) else before
  {
    ResumedNext(requests, k, d, ok, delivery.signature);
  }

  /** The continuations of the requests that wait for this delivery, in turn. */
  method ResumeRequests(requests: seq<Request>, cache: DeliveredMessageCache, d: nat, ok: bool, delivery: Delivery, now: int)
    returns (resumed: seq<Request>)
    requires cache.ttlMs == TTL_MS && cache.maxEntries == MAX_ENTRIES
    modifies cache
    ensures resumed == ResumedAll(requests, d, ok, delivery.signature)
    ensures cache.delivered == CacheAfter(old(cache.delivered), requests, d, ok, delivery, now)
  {
    resumed := [];
    for k := 0 to |requests|
      invariant resumed == ResumedAll(requests[..k], d, ok, delivery.signature)
      invariant cache.delivered == CacheAfter(old(cache.delivered), requests[..k], d, ok, delivery, now)
    {
      ResumedNext(requests, k, d, ok, delivery.signature);
      CacheAfterNext(old(cache.delivered), requests, k, d, ok, delivery, now);
      var request := requests[k];
      if request.answer == Waiting(d) && ok && delivery.requestId != "" && request.signature == delivery.signature {
        cache.Record(delivery.requestId, delivery.signature, now);
      }
      resumed := resumed + [Resumed(request, d, ok, delivery.signature)];
    }
    assert requests[..|requests|] == requests;
  }

  // ----- The relay -------------------------------------------------------------------------

  class SubagentRelay {
    const localDeliveries: DeliveredMessageCache
    var localDeliveriesInFlight: map<string, InFlight>
    /** Every delivery and every request so far; a request stays a suspended call until it is answered. */
    var deliveries: seq<Delivery>
    var requests: seq<Request>
    ghost var recorded: seq<Delivered>
    ghost var clock: int

    ghost function View(): State
      reads this, localDeliveries
    {
      State(localDeliveries.delivered, localDeliveriesInFlight, deliveries, requests, recorded, clock)
    }

    ghost predicate Valid() {
      localDeliveries.ttlMs == TTL_MS && localDeliveries.maxEntries == MAX_ENTRIES
    }

    constructor ()
      ensures Valid() && View() == INITIAL && fresh(localDeliveries)
    {
      localDeliveries := new DeliveredMessageCache(TTL_MS, MAX_ENTRIES);
      localDeliveriesInFlight, deliveries, requests := map[], [], [];
      recorded, clock := [], 0;
    }

    /** `deliverLocal` up to its wait for the delivery. */
    method DeliverLocal(requestId: string, signature: string, now: int)
      requires Valid()
      modifies this, localDeliveries
      ensures View() == Step(old(View()), Relay(requestId, signature, now))
    {
      var found := Miss;
      if requestId != "" {
        found := localDeliveries.Lookup(requestId, signature, now);
      }
      clock := now;
      var answer := if found == Conflict then Refused else Acknowledged;
      if found == Miss {
        if requestId != "" && requestId in localDeliveriesInFlight {
          answer := Waiting(localDeliveriesInFlight[requestId].delivery);
        } else {
          answer := Waiting(|deliveries|);
          if requestId != "" {
            localDeliveriesInFlight := localDeliveriesInFlight[requestId := InFlight(signature, |deliveries|)];
          }
          deliveries := deliveries + [Delivery(requestId, signature, Running)];
        }
      }
      requests := requests + [Request(requestId, signature, answer)];
    }

    /** A delivery settles: its id is free again, and every request that waits for it goes on in turn. */
    method DeliverySettled(d: nat, ok: bool, now: int)
      requires Valid() && d < |deliveries| && deliveries[d].progress == Running
      modifies this, localDeliveries
      ensures View() == Step(old(View()), Settle(d, ok, now))
    {
      var delivery := deliveries[d];
      ghost var record := Delivered(delivery.requestId, now, delivery.signature);
      if ok && delivery.requestId != "" && Recordings(requests, d, delivery.signature) > 0 {
        recorded := RecordAll(recorded, record);
      }
      deliveries := deliveries[d := delivery.(progress := if ok then Succeeded else Failed)];
      if delivery.requestId != "" {
        localDeliveriesInFlight := localDeliveriesInFlight - {delivery.requestId};
      }
      clock := now;
      requests := ResumeRequests(requests, localDeliveries, d, ok, delivery, now);
    }
  }
}
