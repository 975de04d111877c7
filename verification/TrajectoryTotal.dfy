/**
 What the totals of an evaluation amount to (evals/atomic_pier.py), in the counts of the model calls read:
 plain sums over the first record of each call.
 */
module TrajectoryTotals {
  import opened Sequences
  import opened Trajectories

  /** The sum of a count over the entries that are the first record of a model call. */
  ghost function Sum(entries: seq<Entry>, count: Usage -> nat): nat {
    if entries == [] then 0
    else
      var init, last := entries[..|entries| - 1], entries[|entries| - 1];
      Sum(init, count) + (if FirstOccurrence(init, last) && last.role.usage.Some? then count(last.role.usage.value) else 0)
  }

  /** The number of model calls, each counted once. */
  ghost function Calls(entries: seq<Entry>): nat {
    if entries == [] then 0
    else Calls(entries[..|entries| - 1]) + (if FirstOccurrence(entries[..|entries| - 1], entries[|entries| - 1]) then 1 else 0)
  }

  /** The k-th entry is the first record of a call that used or cost anything; its prompt takes this many tokens. */
  ghost predicate Prompts(entries: seq<Entry>, k: nat, prompt: nat) {
    && k < |entries| && FirstOccurrence(entries[..k], entries[k]) && entries[k].role.usage.Some?
    && var u := entries[k].role.usage.value;
    && (u.input + u.output + u.cacheRead + u.cacheWrite > 0 || u.costs) && prompt == u.input + u.cacheRead + u.cacheWrite
  }

  /** The largest prompt of all, if there is any. */
  ghost predicate IsPeak(entries: seq<Entry>, peak: Option<nat>) {
    && (peak.Some? ==> exists k: nat :: Prompts(entries, k, peak.value))
    && (forall k: nat, prompt: nat :: Prompts(entries, k, prompt) ==> peak.Some? && prompt <= peak.value)
  }

  lemma {:induction false} FirstCallsSnoc(past: seq<Entry>, entries: seq<Entry>, e: Entry)
    ensures FirstCalls(past, entries + [e]) == FirstCalls(past, entries) + CountsFor(past + entries, e)
    decreases |entries|
  {
    if entries == [] {
      assert [] + [e] == [e] && [e][1..] == [] && past + [] == past;
    } else {
      assert (entries + [e])[1..] == entries[1..] + [e];
      assert past + entries == (past + [entries[0]]) + entries[1..];
      FirstCallsSnoc(past + [entries[0]], entries[1..], e);
      Assoc(CountsFor(past, entries[0]), FirstCalls(past + [entries[0]], entries[1..]), CountsFor(past + entries, e));
    }
  }

  lemma TotalsSnoc(weights: seq<Weight>, w: Weight)
    ensures TotalsOf(weights + [w]) == Plus(TotalsOf(weights), w)
  {
    assert (weights + [w])[..|weights|] == weights;
  }

  /** The totals after one more entry. */
  lemma {:induction false} TotalsAfter(init: seq<Entry>, e: Entry)
    ensures TotalsOf(FirstCalls([], init + [e])) ==
      if FirstOccurrence(init, e) then Plus(TotalsOf(FirstCalls([], init)), Weight(MetricsOf(e.role.usage), true))
      else TotalsOf(FirstCalls([], init))
  {
    FirstCallsSnoc([], init, e);
    assert [] + init == init;
    if FirstOccurrence(init, e) {
      TotalsSnoc(FirstCalls([], init), Weight(MetricsOf(e.role.usage), true));
    } else {
      assert FirstCalls([], init) + [] == FirstCalls([], init);
    }
  }

  lemma {:induction false} PeakAfter(init: seq<Entry>, e: Entry, peak: Option<nat>, after: Option<nat>)
    requires IsPeak(init, peak)
    requires if FirstOccurrence(init, e) && MetricsOf(e.role.usage).Some?
             then after == (var p := MetricsOf(e.role.usage).value.prompt; if peak.None? || p > peak.value then Some(p) else peak)
             else after == peak
    ensures IsPeak(init + [e], after)
  {
    var all, n := init + [e], |init|;
    assert all[..n] == init && all[n] == e;
    forall k: nat, prompt: nat | k < n
      ensures Prompts(all, k, prompt) <==> Prompts(init, k, prompt)
    {
      assert all[..k] == init[..k];
    }
    if FirstOccurrence(init, e) && MetricsOf(e.role.usage).Some? {
      assert Prompts(all, n, MetricsOf(e.role.usage).value.prompt);
    }
  }

  /**
   The totals of first records: the prompt counts input and cache tokens, the cached count those of the
   cache, the completion the output; the peak is the largest prompt, and each call is one agent step.
   */
  lemma {:induction false} TotalsAddUp(entries: seq<Entry>)
    ensures var t := TotalsOf(FirstCalls([], entries));
      && t.prompt == Sum(entries, (u: Usage) => u.input + u.cacheRead + u.cacheWrite)
      && t.completion == Sum(entries, (u: Usage) => u.output)
      && t.cached == Sum(entries, (u: Usage) => u.cacheRead + u.cacheWrite)
      && t.agentSteps == Calls(entries) && IsPeak(entries, t.peak)
    decreases |entries|
  {
    if entries != [] {
      var init, last := entries[..|entries| - 1], entries[|entries| - 1];
      assert entries == init + [last];
      TotalsAddUp(init);
      TotalsAfter(init, last);
      PeakAfter(init, last, TotalsOf(FirstCalls([], init)).peak, TotalsOf(FirstCalls([], entries)).peak);
    }
  }

  /** So the report's totals are sums over everything read, each call counted at its first record. */
  lemma {:induction false} ReportAddsUp(main: seq<Entry>, output: seq<Role>, files: seq<seq<Entry>>)
    requires Write(main, output, files).Some?
    ensures var read, t := Read(main, output, files), Write(main, output, files).value.totals;
      && t.prompt == Sum(read, (u: Usage) => u.input + u.cacheRead + u.cacheWrite)
      && t.completion == Sum(read, (u: Usage) => u.output)
      && t.cached == Sum(read, (u: Usage) => u.cacheRead + u.cacheWrite)
      && t.agentSteps == Calls(read) && IsPeak(read, t.peak)
  {
    EveryCallCountsOnce(main, output, files);
    TotalsAddUp(Read(main, output, files));
  }

  /** How often the entries were compacted. */
  function CompactionsIn(entries: seq<Entry>): nat {
    if entries == [] then 0 else (if entries[0].Compaction? then 1 else 0) + CompactionsIn(entries[1..])
  }

  lemma {:induction false} AddAllCompactions(b: Builder, entries: seq<Entry>)
    ensures AddAll(b, entries).compactions == b.compactions + CompactionsIn(entries)
    decreases |entries|
  {
    if entries != [] {
      AddAllCompactions(Add(b, entries[0]), entries[1..]);
    }
  }

  lemma {:induction false} SubagentCompactions(seenIds: set<string>, seenFingerprints: set<string>, files: seq<seq<Entry>>)
    ensures Compactions(Subagents(seenIds, seenFingerprints, files)) == CompactionsIn(Flat(files))
    decreases |files|
  {
    if files != [] {
      var b := FromEntries(seenIds, seenFingerprints, files[0]);
      AddAllCompactions(Builder([], seenIds, seenFingerprints, 0), files[0]);
      SubagentCompactions(b.seenIds, b.seenFingerprints, files[1..]);
      CompactionsConcat(files[0], Flat(files[1..]));
      assert Subagents(seenIds, seenFingerprints, files)[1..] == Subagents(b.seenIds, b.seenFingerprints, files[1..]);
    }
  }

  lemma {:induction false} CompactionsConcat(first: seq<Entry>, second: seq<Entry>)
    ensures CompactionsIn(first + second) == CompactionsIn(first) + CompactionsIn(second)
  {
    if first == [] {
      assert first + second == second;
    } else {
      assert (first + second)[1..] == first[1..] + second;
      CompactionsConcat(first[1..], second);
    }
  }

  /** The report counts the compactions of the main file and of every subagent's, whichever yield steps. */
  lemma {:induction false} ReportCountsCompactions(main: seq<Entry>, output: seq<Role>, files: seq<seq<Entry>>)
    requires Write(main, output, files).Some?
    ensures Write(main, output, files).value.summarizations == CompactionsIn(main + Flat(files))
  {
    var first := FromEntries({}, {}, main);
    var root := Root(first, output);
    AddAllCompactions(Builder([], {}, {}, 0), main);
    SubagentCompactions(root.seenIds, root.seenFingerprints, files);
    CompactionsConcat(main, Flat(files));
  }
}
