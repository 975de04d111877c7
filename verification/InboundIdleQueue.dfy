/**
 The queue of ordinary inbound messages accepted while the session is busy
 (packages/intercom/inbound-idle-queue.ts).

 `ref` stands for object identity: the queue compares entries as objects, so two entries are the
 same exactly when they carry the same `ref`.
 */
module InboundIdleQueues {
  import opened Sequences

  datatype Sender = Sender(id: string, name: Option<string>)

  datatype Entry = Entry(ref: nat, from: Sender, timestamp: int, expectsReply: bool, runId: Option<string>)

  // ----- Which entries a claim takes -------------------------------------------------------

  /** The senders of untagged queued entries that go by a name. */
  function LegacyIds(queued: seq<Entry>, name: string): set<string> {
    set e | e in queued && e.runId.None? && e.from.name == Some(name) :: e.from.id
  }

  predicate Selects(e: Entry, queued: seq<Entry>, runId: string, targets: set<string>, terminalAt: Option<int>) {
    && !e.expectsReply
    && (terminalAt.Some? ==> e.timestamp <= terminalAt.value)
    && var idMatches := e.from.id in targets;
       var nameMatches := e.from.name.Some? && e.from.name.value in targets;
    && (idMatches || nameMatches)
    && if e.runId.Some? then e.runId.value == runId
       else idMatches || (e.from.name.Some? && |LegacyIds(queued, e.from.name.value)| == 1)
  }

  function SelectedSet(queued: seq<Entry>, runId: string, targets: set<string>, terminalAt: Option<int>): set<Entry> {
    set e | e in queued && Selects(e, queued, runId, targets, terminalAt)
  }

  function Selected(queued: seq<Entry>, runId: string, targets: set<string>, terminalAt: Option<int>): seq<Entry> {
    Within(queued, SelectedSet(queued, runId, targets, terminalAt))
  }

  function Remaining(queued: seq<Entry>, runId: string, targets: set<string>, terminalAt: Option<int>): seq<Entry> {
    Without(queued, SelectedSet(queued, runId, targets, terminalAt))
  }

  /** No other untagged sender in the queue goes by the same name. */
  ghost predicate UnambiguousName(e: Entry, queued: seq<Entry>) {
    e.from.name.Some? &&
    forall f :: f in queued && f.runId.None? && f.from.name == e.from.name ==> f.from.id == e.from.id
  }

  lemma {:induction false} SingleLegacyId(e: Entry, queued: seq<Entry>)
    requires e in queued && e.runId.None? && e.from.name.Some?
    ensures |LegacyIds(queued, e.from.name.value)| == 1 <==> UnambiguousName(e, queued)
  {
    var ids := LegacyIds(queued, e.from.name.value);
    assert e.from.id in ids;
    if |ids| == 1 {
      forall f | f in queued && f.runId.None? && f.from.name == e.from.name
        ensures f.from.id == e.from.id
      {
        assert f.from.id in ids;
        assert |ids - {e.from.id}| == 0;
      }
    }
    if UnambiguousName(e, queued) {
      assert ids == {e.from.id};
    }
  }

  /**
   A claim splits the queue stably in two: both parts keep the order and together they are the
   whole queue, and the claimed part is exactly the ordinary messages, not later than the terminal,
   of a target, of the same run or, when untagged, of a target session or an unambiguous target name.
   */
  lemma {:induction false} ClaimSplitsQueue(queued: seq<Entry>, runId: string, targets: set<string>, terminalAt: Option<int>)
    ensures Subsequence(Selected(queued, runId, targets, terminalAt), queued)
    ensures Subsequence(Remaining(queued, runId, targets, terminalAt), queued)
    ensures multiset(Selected(queued, runId, targets, terminalAt)) + multiset(Remaining(queued, runId, targets, terminalAt))
         == multiset(queued)
    ensures forall e :: e in Selected(queued, runId, targets, terminalAt) <==>
      && e in queued && !e.expectsReply
      && (terminalAt.Some? ==> e.timestamp <= terminalAt.value)
      && (|| (e.runId == Some(runId) && (e.from.id in targets || (e.from.name.Some? && e.from.name.value in targets)))
          || (e.runId.None? && e.from.id in targets)
          || (e.runId.None? && UnambiguousName(e, queued) && e.from.name.value in targets))
    ensures forall e :: e in queued ==> (e in Remaining(queued, runId, targets, terminalAt) <==>
      e !in Selected(queued, runId, targets, terminalAt))
  {
    var chosen := SelectedSet(queued, runId, targets, terminalAt);
    Partition(queued, chosen);
    SelectionKeepsOrder(queued, chosen);
    Members(queued, chosen);
    forall e | e in queued && e.runId.None? && e.from.name.Some?
      ensures |LegacyIds(queued, e.from.name.value)| == 1 <==> UnambiguousName(e, queued)
    {
      SingleLegacyId(e, queued);
    }
  }

  // ----- Rolling a claim back --------------------------------------------------------------

  /** `selected.slice(index)`. */
  function Undelivered(selected: seq<Entry>, index: nat): seq<Entry> {
    if index <= |selected| then selected[index..] else []
  }

  function RolledBack(original: seq<Entry>, selected: seq<Entry>, current: seq<Entry>, index: nat): seq<Entry> {
    Without(original, ToSet(selected) - ToSet(Undelivered(selected, index))) + Without(current, ToSet(original))
  }

  /** If only arrivals came since the claim, a rollback restores the original order minus the delivered prefix. */
  lemma {:induction false} RollbackAfterArrivals(original: seq<Entry>, selected: seq<Entry>, arrivals: seq<Entry>, index: nat)
    requires Distinct(selected) && ToSet(selected) <= ToSet(original) && index <= |selected|
    requires forall e :: e in arrivals ==> e !in original
    ensures RolledBack(original, selected, Without(original, ToSet(selected)) + arrivals, index)
         == Without(original, ToSet(selected[..index])) + arrivals
  {
    var delivered, dropped := ToSet(selected[..index]), ToSet(selected) - ToSet(selected[index..]);
    assert delivered == dropped by {
      assert selected == selected[..index] + selected[index..];
    }
    var left := Without(original, ToSet(selected));
    assert Without(left + arrivals, ToSet(original)) == arrivals by {
      Members(original, ToSet(selected));
      WithoutConcat(left, arrivals, ToSet(original));
      WithoutAll(left, ToSet(original));
      WithoutNone(arrivals, ToSet(original));
    }
  }

  /** The same for the entries a claim selects: what it did not deliver is back in its old place. */
  lemma {:induction false} RollbackAfterEnqueues(
      queued: seq<Entry>, runId: string, targets: set<string>, terminalAt: Option<int>, arrivals: seq<Entry>, index: nat)
    requires Distinct(queued)
    requires forall e :: e in arrivals ==> e !in queued
    requires index <= |Selected(queued, runId, targets, terminalAt)|
    ensures var selected := Selected(queued, runId, targets, terminalAt);
      RolledBack(queued, selected, Remaining(queued, runId, targets, terminalAt) + arrivals, index)
        == Without(queued, ToSet(selected[..index])) + arrivals
  {
    var chosen := SelectedSet(queued, runId, targets, terminalAt);
    SelectionDistinct(queued, chosen);
    Members(queued, chosen);
    WithoutSame(queued, chosen, ToSet(Selected(queued, runId, targets, terminalAt)));
    RollbackAfterArrivals(queued, Selected(queued, runId, targets, terminalAt), arrivals, index);
  }

  /** What a rollback leaves in the queue, counted. */
  lemma {:induction false} RollbackCounts(original: seq<Entry>, chosen: set<Entry>, current: seq<Entry>, index: nat)
    requires Distinct(original) && index <= |Within(original, chosen)|
    ensures var selected := Within(original, chosen);
      multiset(RolledBack(original, selected, current, index))
        == multiset(Without(original, chosen)) + multiset(selected[index..]) + multiset(Without(current, ToSet(original)))
  {
    var selected := Within(original, chosen);
    var dropped := ToSet(selected) - ToSet(selected[index..]);
    Members(original, chosen);
    SelectionDistinct(original, chosen);
    assert selected == selected[..index] + selected[index..];
    DistinctConcat(selected[..index], selected[index..]);
    PutBackCounts(original, chosen, dropped, selected[index..]);
  }

  lemma {:induction false} PutBackCounts(original: seq<Entry>, chosen: set<Entry>, dropped: set<Entry>, undelivered: seq<Entry>)
    requires Distinct(original) && Distinct(undelivered)
    requires forall e :: e in original ==> (e !in dropped <==> e !in chosen || e in undelivered)
    requires forall e :: e in undelivered ==> e in original && e in chosen
    ensures multiset(Without(original, dropped)) == multiset(Without(original, chosen)) + multiset(undelivered)
  {
    SelectionDistinct(original, dropped);
    SelectionDistinct(original, chosen);
    Members(original, dropped);
    Members(original, chosen);
    DistinctCounts(Without(original, dropped));
    DistinctCounts(Without(original, chosen));
    DistinctCounts(undelivered);
  }

  /**
   Whatever happened in between, a rollback puts back exactly the undelivered entries, each once,
   if and only if the queue still holds precisely what the claim left behind of the entries it saw.
   Otherwise an entry that was drained, removed or claimed by somebody else comes back (or one is dropped).
   */
  lemma {:induction false} RollbackIsExactIff(original: seq<Entry>, chosen: set<Entry>, current: seq<Entry>, index: nat)
    requires Distinct(original) && index <= |Within(original, chosen)|
    ensures var selected := Within(original, chosen);
      multiset(RolledBack(original, selected, current, index)) == multiset(current) + multiset(selected[index..])
      <==> multiset(Within(current, ToSet(original))) == multiset(Without(original, chosen))
  {
    var undelivered := multiset(Within(original, chosen)[index..]);
    var later, kept := multiset(Without(current, ToSet(original))), multiset(Within(current, ToSet(original)));
    var left := multiset(Without(original, chosen));
    RollbackCounts(original, chosen, current, index);
    Partition(current, ToSet(original));
    CancelCommonPart(left, kept, undelivered + later);
    assert left + undelivered + later == left + (undelivered + later);
    assert kept + later + undelivered == kept + (undelivered + later);
  }

  // ----- Every interleaving ----------------------------------------------------------------

  datatype Claim = Claim(original: seq<Entry>, selected: seq<Entry>, settled: bool)

  /**
   The last three are history: what ever arrived, in order; what was drained, removed or cleared, in
   order; and everything given up, that is the former and the delivered prefixes of rolled back claims.
   */
  datatype State = State(
    entries: seq<Entry>, claims: seq<Claim>, arrived: seq<Entry>, taken: seq<Entry>, released: set<Entry>)

  datatype Event =
    | Enqueue(entry: Entry)
    | Remove(entry: Entry)
    | Drain
    | Clear
    | TakeClaim(runId: string, targets: set<string>, terminalAt: Option<int>)
    | Rollback(claim: nat, index: nat)

  ghost function Step(s: State, event: Event): State {
    match event
    case Enqueue(e) => s.(entries := s.entries + [e], arrived := s.arrived + [e])
    case Remove(e) =>
      if e in s.entries then
        s.(entries := RemoveFirst(s.entries, e), taken := s.taken + [e], released := s.released + {e})
      else s
    case Drain => s.(entries := [], taken := s.taken + s.entries, released := s.released + ToSet(s.entries))
    case Clear => s.(entries := [], taken := s.taken + s.entries, released := s.released + ToSet(s.entries))
    case TakeClaim(runId, targets, at) =>
      s.(entries := Remaining(s.entries, runId, targets, at),
         claims := s.claims + [Claim(s.entries, Selected(s.entries, runId, targets, at), false)])
    case Rollback(c, index) =>
      if c >= |s.claims| || s.claims[c].settled then s
      else
        var claim := s.claims[c];
        s.(entries := RolledBack(claim.original, claim.selected, s.entries, index),
           claims := s.claims[c := claim.(settled := true)],
           released := s.released + (ToSet(claim.selected) - ToSet(Undelivered(claim.selected, index))))
  }

  ghost function Run(s: State, events: seq<Event>): State
    decreases |events|
  {
    if events == [] then s else Run(Step(s, events[0]), events[1..])
  }

  const EMPTY := State([], [], [], [], {})

  ghost predicate Held(e: Entry, s: State) {
    exists c :: 0 <= c < |s.claims| && !s.claims[c].settled && e in s.claims[c].selected
  }

  /** What arrived is queued, held by a claim that was not rolled back, or handed out; and nothing else is. */
  ghost predicate NothingLost(s: State) {
    && (forall e :: e in s.arrived <==> e in s.entries || Held(e, s) || e in s.released)
    && (forall c, e :: 0 <= c < |s.claims| && e in s.claims[c].original ==> e in s.arrived)
    && (forall c, e :: 0 <= c < |s.claims| && e in s.claims[c].selected ==> e in s.claims[c].original)
  }

  lemma {:induction false} StepLosesNothing(s: State, event: Event)
    requires NothingLost(s)
    ensures NothingLost(Step(s, event))
  {
    var t := Step(s, event);
    match event {
      case Enqueue(_) =>
        assert forall e :: Held(e, s) <==> Held(e, t);
      case Remove(x) =>
        RemoveFirstMembers(s.entries, x);
        assert forall e :: Held(e, s) <==> Held(e, t);
      case Drain =>
        assert forall e :: Held(e, s) <==> Held(e, t);
      case Clear =>
        assert forall e :: Held(e, s) <==> Held(e, t);
      case TakeClaim(runId, targets, at) =>
        Members(s.entries, SelectedSet(s.entries, runId, targets, at));
        forall e
          ensures Held(e, t) <==> Held(e, s) || e in t.claims[|s.claims|].selected
        {
          if Held(e, s) {
            var c :| 0 <= c < |s.claims| && !s.claims[c].settled && e in s.claims[c].selected;
            assert t.claims[c] == s.claims[c];
          }
          if e in t.claims[|s.claims|].selected {
            assert !t.claims[|s.claims|].settled;
          }
        }
      case Rollback(c, index) =>
        if c < |s.claims| && !s.claims[c].settled {
          RollbackLosesNothing(s, c, index);
        }
    }
  }

  lemma {:induction false} RollbackLosesNothing(s: State, c: nat, index: nat)
    requires NothingLost(s) && c < |s.claims| && !s.claims[c].settled
    ensures NothingLost(Step(s, Rollback(c, index)))
  {
    var t, claim := Step(s, Rollback(c, index)), s.claims[c];
    Members(claim.original, ToSet(claim.selected) - ToSet(Undelivered(claim.selected, index)));
    Members(s.entries, ToSet(claim.original));
    assert forall d :: 0 <= d < |t.claims| ==> t.claims[d] == if d == c then claim.(settled := true) else s.claims[d];
    forall e
      ensures Held(e, s) ==> Held(e, t) || e in claim.selected
      ensures Held(e, t) ==> Held(e, s)
      ensures e in claim.selected ==> Held(e, s)
    {
      if Held(e, s) && e !in claim.selected {
        var d :| 0 <= d < |s.claims| && !s.claims[d].settled && e in s.claims[d].selected;
        assert t.claims[d] == s.claims[d];
      }
    }
    assert forall e :: e in claim.selected && e !in t.released ==> e in t.entries;
  }

  lemma {:induction false} RunLosesNothing(s: State, events: seq<Event>)
    requires NothingLost(s)
    ensures NothingLost(Run(s, events))
    decreases |events|
  {
    if events != [] {
      StepLosesNothing(s, events[0]);
      RunLosesNothing(Step(s, events[0]), events[1..]);
    }
  }

  /** No interleaving loses or invents a message, overlapping claims and late rollbacks included. */
  lemma {:induction false} NoInterleavingLosesAMessage(events: seq<Event>)
    ensures var s := Run(EMPTY, events);
      forall e :: e in s.arrived <==> e in s.entries || Held(e, s) || e in s.released
  {
    RunLosesNothing(EMPTY, events);
  }

  lemma {:induction false} SettledClaimStays(s: State, events: seq<Event>, c: nat)
    requires c < |s.claims| && s.claims[c].settled
    ensures c < |Run(s, events).claims| && Run(s, events).claims[c].settled
    decreases |events|
  {
    if events != [] {
      SettledClaimStays(Step(s, events[0]), events[1..], c);
    }
  }

  /** A claim is rolled back once: whatever happens after, rolling it back again changes nothing. */
  lemma {:induction false} RollsBackOnce(s: State, c: nat, index: nat, events: seq<Event>, again: nat)
    requires c < |s.claims|
    ensures var t := Run(Step(s, Rollback(c, index)), events); Step(t, Rollback(c, again)) == t
  {
    SettledClaimStays(Step(s, Rollback(c, index)), events, c);
  }

  /** Handing out at most once does not survive a drain between a claim and its rollback. */
  lemma {:induction false} DrainBeforeRollbackHandsOutAgain(e: Entry)
    requires e.from.id != "child" && e.from.name.None?
    ensures var s := Run(EMPTY, [Enqueue(e), TakeClaim("run", {"child"}, None), Drain, Rollback(0, 0)]);
      e in s.released && s.entries == [e]
  {
    var claim := TakeClaim("run", {"child"}, None);
    var s1 := Step(EMPTY, Enqueue(e));
    var s2 := Step(s1, claim);
    var s3 := Step(s2, Drain);
    assert s1.entries == [e];
    assert SelectedSet([e], "run", {"child"}, None) == {};
    WithoutNone([e], SelectedSet([e], "run", {"child"}, None));
    WithinNone([e], SelectedSet([e], "run", {"child"}, None));
    assert s2.claims == [Claim([e], [], false)] && s2.entries == [e];
    var events := [Enqueue(e), claim, Drain, Rollback(0, 0)];
    assert events[1..] == [claim, Drain, Rollback(0, 0)];
    assert events[1..][1..] == [Drain, Rollback(0, 0)];
    assert events[1..][1..][1..] == [Rollback(0, 0)];
    assert Run(EMPTY, events) == Run(s1, events[1..]) == Run(s2, events[1..][1..]) == Run(s3, [Rollback(0, 0)]);
    WithoutNone([e], ToSet([]) - ToSet(Undelivered([], 0)));
  }

  /** Nor does it survive overlapping claims: a rollback queues again what a later claim still holds. */
  lemma {:induction false} RollbackQueuesWhatAnotherClaimHolds(s: State, b: Entry)
    requires b in s.entries && b.from == Sender("b", None) && !b.expectsReply && b.runId.None?
    ensures var events := [TakeClaim("r", {"a"}, None), TakeClaim("r", {"b"}, None), Rollback(|s.claims|, 0)];
      b in Run(s, events).entries && Held(b, Run(s, events))
  {
    var claimA, claimB, rollback := TakeClaim("r", {"a"}, None), TakeClaim("r", {"b"}, None), Rollback(|s.claims|, 0);
    var s1 := Step(s, claimA);
    var s2 := Step(s1, claimB);
    Members(s.entries, SelectedSet(s.entries, "r", {"a"}, None));
    assert b in s1.entries;
    Members(s1.entries, SelectedSet(s1.entries, "r", {"b"}, None));
    assert b in s2.claims[|s.claims| + 1].selected;
    RolledBackEntryReturns(s2, |s.claims|, |s.claims| + 1, b);
    assert [claimA, claimB, rollback][1..] == [claimB, rollback] && [claimB, rollback][1..] == [rollback];
    assert Run(s, [claimA, claimB, rollback]) == Run(s1, [claimB, rollback]) == Run(s2, [rollback]) == Step(s2, rollback);
  }

  lemma {:induction false} RolledBackEntryReturns(s: State, c: nat, d: nat, b: Entry)
    requires c != d && c < |s.claims| && d < |s.claims| && !s.claims[c].settled && !s.claims[d].settled
    requires b in s.claims[c].original && b !in s.claims[c].selected && b in s.claims[d].selected
    ensures b in Step(s, Rollback(c, 0)).entries && Held(b, Step(s, Rollback(c, 0)))
  {
    var t, claim := Step(s, Rollback(c, 0)), s.claims[c];
    Members(claim.original, ToSet(claim.selected) - ToSet(Undelivered(claim.selected, 0)));
    assert t.claims[d] == s.claims[d];
  }

  // ----- The classes -----------------------------------------------------------------------

  /** Collects, per name, the ids of the untagged senders in the queue. */
  method CollectLegacyIds(original: seq<Entry>) returns (byName: map<string, set<string>>)
    ensures forall name :: (if name in byName then byName[name] else {}) == LegacyIds(original, name)
  {
    byName := map[];
    for i := 0 to |original|
      invariant forall name :: (if name in byName then byName[name] else {}) == LegacyIds(original[..i], name)
    {
      var entry := original[i];
      assert original[..i + 1] == original[..i] + [entry];
      if entry.runId.Some? || entry.from.name.None? {
        assert forall name :: LegacyIds(original[..i + 1], name) == LegacyIds(original[..i], name);
        continue;
      }
      var name := entry.from.name.value;
      var ids := if name in byName then byName[name] else {};
      assert LegacyIds(original[..i + 1], name) == LegacyIds(original[..i], name) + {entry.from.id};
      assert forall other :: other != name ==> LegacyIds(original[..i + 1], other) == LegacyIds(original[..i], other);
      byName := byName[name := ids + {entry.from.id}];
    }
    assert original[..|original|] == original;
  }

  /** One pass over the queue that keeps the entries a claim takes. */
  method FilterSelected(original: seq<Entry>, byName: map<string, set<string>>,
                        runId: string, targets: set<string>, terminalAt: Option<int>) returns (selected: seq<Entry>)
    requires forall name :: (if name in byName then byName[name] else {}) == LegacyIds(original, name)
    ensures selected == Selected(original, runId, targets, terminalAt)
  {
    ghost var chosen := SelectedSet(original, runId, targets, terminalAt);
    selected := [];
    for i := 0 to |original|
      invariant selected == Within(original[..i], chosen)
    {
      var entry := original[i];
      assert original[..i + 1] == original[..i] + [entry];
      WithinConcat(original[..i], [entry], chosen);
      assert Within([entry], chosen) == if entry in chosen then [entry] else [];
      if entry.expectsReply { continue; }
      if terminalAt.Some? && entry.timestamp > terminalAt.value { continue; }
      var idMatches := entry.from.id in targets;
      var nameMatches := entry.from.name.Some? && entry.from.name.value in targets;
      if !idMatches && !nameMatches { continue; }
      var take := if entry.runId.Some? then entry.runId.value == runId
                  else idMatches || (entry.from.name.Some? && entry.from.name.value in byName
                                     && |byName[entry.from.name.value]| == 1);
      if take {
        selected := selected + [entry];
      }
    }
    assert original[..|original|] == original;
  }

  /** `indexOf`, then `splice`. */
  method SpliceFirst(entries: seq<Entry>, entry: Entry) returns (rest: seq<Entry>)
    requires entry in entries
    ensures rest == RemoveFirst(entries, entry)
  {
    var index := 0;
    while entries[index] != entry
      invariant 0 <= index < |entries| && entry !in entries[..index]
      decreases |entries| - index
    {
      index := index + 1;
    }
    RemoveFirstAt(entries, entry, index);
    rest := entries[..index] + entries[index + 1..];
  }

  class InboundIdleQueue {
    var entries: seq<Entry>
    /** The run so far; every method appends its own event to it. */
    ghost var history: State

    ghost predicate Valid()
      reads this
    {
      entries == history.entries && NothingLost(history)
    }

    constructor ()
      ensures Valid() && history == EMPTY
    {
      entries, history := [], EMPTY;
    }

    method Size() returns (n: nat)
      ensures n == |entries|
    {
      n := |entries|;
    }

    method Enqueue(entry: Entry)
      requires Valid()
      modifies this
      ensures Valid() && history == Step(old(history), Event.Enqueue(entry))
    {
      StepLosesNothing(history, Event.Enqueue(entry));
      entries := entries + [entry];
      history := Step(history, Event.Enqueue(entry));
    }

    method Has(entry: Entry) returns (queued: bool)
      ensures queued <==> entry in entries
    {
      queued := entry in entries;
    }

    method Remove(entry: Entry) returns (removed: bool)
      requires Valid()
      modifies this
      ensures Valid() && history == Step(old(history), Event.Remove(entry))
      ensures removed <==> entry in old(entries)
    {
      StepLosesNothing(history, Event.Remove(entry));
      history := Step(history, Event.Remove(entry));
      removed := entry in entries;
      if removed {
        entries := SpliceFirst(entries, entry);
      }
    }

    method Drain() returns (drained: seq<Entry>)
      requires Valid()
      modifies this
      ensures Valid() && history == Step(old(history), Event.Drain)
      ensures drained == old(entries)
    {
      StepLosesNothing(history, Event.Drain);
      drained := entries;
      entries := [];
      history := Step(history, Event.Drain);
    }

    method Clear()
      requires Valid()
      modifies this
      ensures Valid() && history == Step(old(history), Event.Clear)
    {
      StepLosesNothing(history, Event.Clear);
      entries := [];
      history := Step(history, Event.Clear);
    }

    method ClaimOrdinarySourceTargets(runId: string, sourceSessionTargets: seq<string>, terminalAt: Option<int>)
      returns (claim: InboundIdleClaim)
      requires Valid()
      modifies this
      ensures Valid()
      ensures history == Step(old(history), TakeClaim(runId, ToSet(sourceSessionTargets), terminalAt))
      ensures fresh(claim) && claim.queue == this && claim.id == |old(history).claims| && claim.Valid() && !claim.settled
    {
      var targets := ToSet(sourceSessionTargets);
      StepLosesNothing(history, TakeClaim(runId, targets, terminalAt));
      var original := entries;
      var legacyIdsByName := CollectLegacyIds(original);
      var selected := FilterSelected(original, legacyIdsByName, runId, targets, terminalAt);
      ghost var chosen := SelectedSet(original, runId, targets, terminalAt);
      Members(original, chosen);
      WithoutSame(original, ToSet(selected), chosen);
      entries := Without(original, ToSet(selected));
      ghost var id := |history.claims|;
      history := Step(history, TakeClaim(runId, targets, terminalAt));
      claim := new InboundIdleClaim(this, original, selected, id);
    }
  }

  /** What `claimOrdinarySourceTargets` returns: the claimed entries and the one-shot rollback. */
  class InboundIdleClaim {
    const queue: InboundIdleQueue
    const original: seq<Entry>
    const entries: seq<Entry>
    ghost const id: nat
    var settled: bool

    ghost predicate Valid()
      reads this, queue
    {
      id < |queue.history.claims| && queue.history.claims[id] == Claim(original, entries, settled)
    }

    constructor (queue: InboundIdleQueue, original: seq<Entry>, entries: seq<Entry>, ghost id: nat)
      ensures this.queue == queue && this.original == original && this.entries == entries && this.id == id
      ensures !settled
    {
      this.queue, this.original, this.entries, this.id, settled := queue, original, entries, id, false;
    }

    method RollbackFrom(index: nat)
      requires queue.Valid() && Valid()
      modifies this, queue
      ensures queue.Valid() && Valid() && settled
      ensures queue.history == Step(old(queue.history), Rollback(id, index))
    {
      if settled {
        return;
      }
      StepLosesNothing(queue.history, Rollback(id, index));
      settled := true;
      var undelivered := ToSet(Undelivered(entries, index));
      var laterEntries := Without(queue.entries, ToSet(original));
      queue.entries := Without(original, ToSet(entries) - undelivered) + laterEntries;
      queue.history := Step(queue.history, Rollback(id, index));
    }
  }
}
