/**
 Building evaluation trajectories from session files (evals/atomic_pier.py): steps, observations, and
 token totals that count each model call once, although files repeat calls they inherited.
 */
module Trajectories {
  import opened Sequences

  /** `costs` tells whether the call's cost is non-zero; the amount itself is not modelled. */
  datatype Usage = Usage(input: nat, output: nat, cacheRead: nat, cacheWrite: nat, costs: bool)

  datatype Role =
    | Assistant(fingerprint: Option<string>, usage: Option<Usage>, calls: seq<string>)
    | User
    | Bash
    | ToolResult(callId: Option<string>, result: nat)
    | Note
    | Unknown

  datatype Entry = Compaction | Message(id: Option<string>, role: Role) | Other

  datatype Tokens = Tokens(prompt: nat, completion: nat, cached: nat)

  datatype Source = AgentSource | UserSource | SystemSource

  datatype Result = ToolOutput(callId: Option<string>, result: nat) | BashOutput

  datatype Step = Step(
    stepId: nat, source: Source, calls: seq<string>, metrics: Option<Tokens>, copied: bool, observation: seq<Result>)

  /** The two seen sets, the steps of the current file, and how many compactions it had. */
  datatype Builder = Builder(steps: seq<Step>, seenIds: set<string>, seenFingerprints: set<string>, compactions: nat)

  // ----- One entry -------------------------------------------------------------------------

  /** `_metrics_from_usage`: nothing if every count and the cost are zero. */
  function MetricsOf(usage: Option<Usage>): Option<Tokens> {
    if usage.None? then None
    else
      var u := usage.value;
      if u.input == 0 && u.output == 0 && u.cacheRead == 0 && u.cacheWrite == 0 && !u.costs then None
      else Some(Tokens(u.input + u.cacheRead + u.cacheWrite, u.output, u.cacheRead + u.cacheWrite))
  }

  predicate IsCopied(b: Builder, id: Option<string>, fingerprint: Option<string>) {
    (id.Some? && id.value in b.seenIds) || (fingerprint.Some? && fingerprint.value in b.seenFingerprints)
  }

  /** A call id that names none of the agent step's calls is dropped; an empty one is not even looked up. */
  function SourceCall(last: Step, callId: Option<string>): Option<string> {
    if callId.Some? && callId.value != "" && callId.value !in last.calls then None else callId
  }

  function Observe(steps: seq<Step>, callId: Option<string>, result: nat): seq<Step> {
    if steps != [] && steps[|steps| - 1].source == AgentSource then
      var last := steps[|steps| - 1];
      steps[..|steps| - 1] + [last.(observation := last.observation + [ToolOutput(SourceCall(last, callId), result)])]
    else steps + [Step(|steps| + 1, SystemSource, [], None, false, [ToolOutput(callId, result)])]
  }

  /** The step a message other than a tool result becomes, if any. */
  function StepOf(b: Builder, id: Option<string>, role: Role): Option<Step> {
    var stepId := |b.steps| + 1;
    match role
    case Assistant(fingerprint, usage, calls) =>
      var copied := IsCopied(b, id, fingerprint);
      Some(Step(stepId, AgentSource, calls, if copied then None else MetricsOf(usage), copied, []))
    case User => Some(Step(stepId, UserSource, [], None, false, []))
    case Bash => Some(Step(stepId, SystemSource, [], None, false, [BashOutput]))
    case Note => Some(Step(stepId, SystemSource, [], None, false, []))
    case _ => None
  }

  function Appended(steps: seq<Step>, step: Option<Step>): seq<Step> {
    if step.Some? then steps + [step.value] else steps
  }

  function Add(b: Builder, e: Entry): Builder {
    match e
    case Compaction => b.(compactions := b.compactions + 1)
    case Other => b
    case Message(id, role) =>
      if role.ToolResult? then b.(steps := Observe(b.steps, role.callId, role.result))
      else
        Builder(Appended(b.steps, StepOf(b, id, role)),
                if role.Assistant? && id.Some? then b.seenIds + {id.value} else b.seenIds,
                if role.Assistant? && role.fingerprint.Some? then b.seenFingerprints + {role.fingerprint.value} else b.seenFingerprints,
                b.compactions)
  }

  function AddAll(b: Builder, entries: seq<Entry>): Builder
    decreases |entries|
  {
    if entries == [] then b else AddAll(Add(b, entries[0]), entries[1..])
  }

  /** One file: new steps, the seen sets carried over. */
  function FromEntries(seenIds: set<string>, seenFingerprints: set<string>, entries: seq<Entry>): Builder {
    AddAll(Builder([], seenIds, seenFingerprints, 0), entries)
  }

  // ----- Totals ----------------------------------------------------------------------------

  /** What one model call counts for: its metrics, and whether it is an original rather than a copy. */
  datatype Weight = Weight(metrics: Option<Tokens>, original: bool)

  function CarriedBy(step: Step): seq<Weight> {
    if step.source == AgentSource && (step.metrics.Some? || !step.copied) then [Weight(step.metrics, !step.copied)] else []
  }

  /** Everything the steps count for, in order. */
  function Carried(steps: seq<Step>): seq<Weight> {
    if steps == [] then [] else Carried(steps[..|steps| - 1]) + CarriedBy(steps[|steps| - 1])
  }

  /** What a model call's step records about it. */
  datatype Tag = Tag(metrics: Option<Tokens>, copied: bool)

  function TagOf(step: Step): seq<Tag> {
    if step.source == AgentSource then [Tag(step.metrics, step.copied)] else []
  }

  /** One tag per agent step, in order. */
  function Tags(steps: seq<Step>): seq<Tag> {
    if steps == [] then [] else Tags(steps[..|steps| - 1]) + TagOf(steps[|steps| - 1])
  }

  function WeightOf(tag: Tag): seq<Weight> {
    if tag.metrics.Some? || !tag.copied then [Weight(tag.metrics, !tag.copied)] else []
  }

  function Weighed(tags: seq<Tag>): seq<Weight> {
    if tags == [] then [] else Weighed(tags[..|tags| - 1]) + WeightOf(tags[|tags| - 1])
  }

  /** Token totals, the largest prompt, and the number of originals. */
  datatype Totals = Totals(prompt: nat, completion: nat, cached: nat, peak: Option<nat>, agentSteps: nat)

  function Plus(t: Totals, w: Weight): Totals {
    var counted := if w.original then t.(agentSteps := t.agentSteps + 1) else t;
    if w.metrics.None? then counted
    else
      var m := w.metrics.value;
      counted.(prompt := t.prompt + m.prompt, completion := t.completion + m.completion, cached := t.cached + m.cached,
               peak := if t.peak.None? || m.prompt > t.peak.value then Some(m.prompt) else t.peak)
  }

  function TotalsOf(weights: seq<Weight>): Totals {
    if weights == [] then Totals(0, 0, 0, None, 0)
    else Plus(TotalsOf(weights[..|weights| - 1]), weights[|weights| - 1])
  }

  // ----- What each entry counts for --------------------------------------------------------

  ghost predicate IsCall(e: Entry) {
    e.Message? && e.role.Assistant?
  }

  /** Both entries record the same model call: same entry id, or same fingerprint. */
  ghost predicate SameCall(d: Entry, e: Entry)
    requires IsCall(d) && IsCall(e)
  {
    (d.id.Some? && d.id == e.id) || (d.role.fingerprint.Some? && d.role.fingerprint == e.role.fingerprint)
  }

  /** The entry is a call that nothing in the past records. */
  ghost predicate FirstOccurrence(past: seq<Entry>, e: Entry) {
    IsCall(e) && forall d :: d in past && IsCall(d) ==> !SameCall(d, e)
  }

  ghost function CountsFor(past: seq<Entry>, e: Entry): seq<Weight> {
    if FirstOccurrence(past, e) then [Weight(MetricsOf(e.role.usage), true)] else []
  }

  /** The first occurrences among the entries that follow a past, in order. */
  ghost function FirstCalls(past: seq<Entry>, entries: seq<Entry>): seq<Weight>
    decreases |entries|
  {
    if entries == [] then [] else CountsFor(past, entries[0]) + FirstCalls(past + [entries[0]], entries[1..])
  }

  /** The calls among the entries, in order. */
  ghost function CallsIn(entries: seq<Entry>): (calls: seq<Entry>)
    ensures forall k :: 0 <= k < |calls| ==> IsCall(calls[k])
  {
    if entries == [] then [] else (if IsCall(entries[0]) then [entries[0]] else []) + CallsIn(entries[1..])
  }

  ghost function TagFor(past: seq<Entry>, e: Entry): seq<Tag> {
    if !IsCall(e) then []
    else if FirstOccurrence(past, e) then [Tag(MetricsOf(e.role.usage), false)] else [Tag(None, true)]
  }

  /** The tags that the calls among these entries should get after a past. */
  ghost function TagsFor(past: seq<Entry>, entries: seq<Entry>): seq<Tag>
    decreases |entries|
  {
    if entries == [] then [] else TagFor(past, entries[0]) + TagsFor(past + [entries[0]], entries[1..])
  }

  ghost function CallIds(stream: seq<Entry>): set<string> {
    set e | e in stream && IsCall(e) && e.id.Some? :: e.id.value
  }

  ghost function CallFingerprints(stream: seq<Entry>): set<string> {
    set e | e in stream && IsCall(e) && e.role.fingerprint.Some? :: e.role.fingerprint.value
  }

  /** The seen sets hold exactly the ids and fingerprints of the calls in the stream so far. */
  ghost predicate SeenIn(b: Builder, stream: seq<Entry>) {
    b.seenIds == CallIds(stream) && b.seenFingerprints == CallFingerprints(stream)
  }

  lemma {:induction false} TagsConcat(steps: seq<Step>, more: seq<Step>)
    ensures Tags(steps + more) == Tags(steps) + Tags(more)
  {
    if more == [] {
      assert steps + more == steps;
    } else {
      assert (steps + more)[..|steps + more| - 1] == steps + more[..|more| - 1];
      TagsConcat(steps, more[..|more| - 1]);
    }
  }

  lemma {:induction false} WeighedConcat(tags: seq<Tag>, more: seq<Tag>)
    ensures Weighed(tags + more) == Weighed(tags) + Weighed(more)
  {
    if more == [] {
      assert tags + more == tags;
    } else {
      assert (tags + more)[..|tags + more| - 1] == tags + more[..|more| - 1];
      WeighedConcat(tags, more[..|more| - 1]);
    }
  }

  lemma WeighedOne(tag: Tag)
    ensures Weighed([tag]) == WeightOf(tag)
  {
    assert [tag][..0] == [];
    assert Weighed([]) + WeightOf(tag) == WeightOf(tag);
  }

  lemma TagsOfSnoc(steps: seq<Step>, step: Step)
    ensures Tags(steps + [step]) == Tags(steps) + TagOf(step)
  {
    assert (steps + [step])[..|steps|] == steps;
  }

  /** Totals look at nothing but the tags. */
  lemma {:induction false} CarriedIsWeighed(steps: seq<Step>)
    ensures Carried(steps) == Weighed(Tags(steps))
  {
    if steps != [] {
      var init, last := steps[..|steps| - 1], steps[|steps| - 1];
      CarriedIsWeighed(init);
      WeighedConcat(Tags(init), TagOf(last));
      if last.source == AgentSource {
        WeighedOne(Tag(last.metrics, last.copied));
      }
    }
  }

  lemma {:induction false} FirstCallsAreWeighed(past: seq<Entry>, entries: seq<Entry>)
    ensures FirstCalls(past, entries) == Weighed(TagsFor(past, entries))
    decreases |entries|
  {
    if entries != [] {
      var e := entries[0];
      FirstCallsAreWeighed(past + [e], entries[1..]);
      WeighedConcat(TagFor(past, e), TagsFor(past + [e], entries[1..]));
      if IsCall(e) {
        WeighedOne(TagFor(past, e)[0]);
        assert TagFor(past, e) == [TagFor(past, e)[0]];
      }
    }
  }

  lemma {:induction false} TagsForConcat(past: seq<Entry>, entries: seq<Entry>, more: seq<Entry>)
    ensures TagsFor(past, entries + more) == TagsFor(past, entries) + TagsFor(past + entries, more)
    decreases |entries|
  {
    if entries == [] {
      assert entries + more == more && past + entries == past;
    } else {
      var e, rest := entries[0], entries[1..];
      assert (entries + more)[1..] == rest + more;
      assert past + entries == (past + [e]) + rest;
      TagsForConcat(past + [e], rest, more);
      Assoc(TagFor(past, e), TagsFor(past + [e], rest), TagsFor(past + entries, more));
    }
  }

  lemma {:induction false} CopiedIff(b: Builder, past: seq<Entry>, e: Entry)
    requires SeenIn(b, past) && IsCall(e)
    ensures IsCopied(b, e.id, e.role.fingerprint) <==> !FirstOccurrence(past, e)
  {
    if IsCopied(b, e.id, e.role.fingerprint) {
      var d :| d in past && IsCall(d) && SameCall(d, e);
    }
  }

  /** Adding a call adds one agent step with its tag; other entries add none. */
  lemma {:induction false} AddTags(b: Builder, past: seq<Entry>, e: Entry)
    requires SeenIn(b, past)
    ensures Tags(Add(b, e).steps) == Tags(b.steps) + TagFor(past, e)
  {
    if IsCall(e) {
      CopiedIff(b, past, e);
    } else {
      OthersAddNoTag(b, e);
    }
  }

  lemma {:induction false} ObservingAddsNoTag(steps: seq<Step>, callId: Option<string>, result: nat)
    ensures Tags(Observe(steps, callId, result)) == Tags(steps)
  {
    if steps != [] && steps[|steps| - 1].source == AgentSource {
      var init, last := steps[..|steps| - 1], steps[|steps| - 1];
      TagsOfSnoc(init, last.(observation := last.observation + [ToolOutput(SourceCall(last, callId), result)]));
    } else {
      TagsOfSnoc(steps, Step(|steps| + 1, SystemSource, [], None, false, [ToolOutput(callId, result)]));
    }
  }

  lemma {:induction false} OthersAddNoTag(b: Builder, e: Entry)
    requires !IsCall(e)
    ensures Tags(Add(b, e).steps) == Tags(b.steps)
  {
    if e.Message? {
      if e.role.ToolResult? {
        ObservingAddsNoTag(b.steps, e.role.callId, e.role.result);
      } else if StepOf(b, e.id, e.role).Some? {
        TagsOfSnoc(b.steps, StepOf(b, e.id, e.role).value);
      }
    }
  }

  /** Adding entries makes the seen sets cover them too. */
  lemma {:induction false} AddAllSees(b: Builder, past: seq<Entry>, entries: seq<Entry>)
    requires SeenIn(b, past)
    ensures SeenIn(AddAll(b, entries), past + entries)
    decreases |entries|
  {
    if entries == [] {
      assert past + entries == past;
    } else {
      AddAllSees(Add(b, entries[0]), past + [entries[0]], entries[1..]);
      assert past + entries == (past + [entries[0]]) + entries[1..];
    }
  }

  lemma {:induction false} AddAllTags(b: Builder, past: seq<Entry>, entries: seq<Entry>)
    requires SeenIn(b, past)
    ensures Tags(AddAll(b, entries).steps) == Tags(b.steps) + TagsFor(past, entries)
    decreases |entries|
  {
    if entries != [] {
      var e, rest := entries[0], entries[1..];
      AddTags(b, past, e);
      AddAllTags(Add(b, e), past + [e], rest);
      Assoc(Tags(b.steps), TagFor(past, e), TagsFor(past + [e], rest));
    }
  }

  /** Adding entries adds their first occurrences, in order. */
  lemma {:induction false} AddAllCounts(b: Builder, past: seq<Entry>, entries: seq<Entry>)
    requires SeenIn(b, past)
    ensures Carried(AddAll(b, entries).steps) == Carried(b.steps) + FirstCalls(past, entries)
  {
    AddAllTags(b, past, entries);
    CarriedIsWeighed(AddAll(b, entries).steps);
    CarriedIsWeighed(b.steps);
    FirstCallsAreWeighed(past, entries);
    WeighedConcat(Tags(b.steps), TagsFor(past, entries));
  }

  /** Some entry of the past is the same call. */
  ghost predicate Before(past: seq<Entry>, c: Entry)
    requires IsCall(c)
  {
    exists d :: d in past && IsCall(d) && SameCall(d, c)
  }

  /** Some earlier one of these calls is the same as the k-th. */
  ghost predicate Repeats(calls: seq<Entry>, k: nat)
    requires k < |calls| && forall i :: 0 <= i < |calls| ==> IsCall(calls[i])
  {
    exists i :: 0 <= i < k && SameCall(calls[i], calls[k])
  }

  lemma {:induction false} RepeatsAfterFirst(calls: seq<Entry>, k: nat)
    requires 0 < k < |calls| && forall i :: 0 <= i < |calls| ==> IsCall(calls[i])
    ensures Repeats(calls, k) <==> SameCall(calls[0], calls[k]) || Repeats(calls[1..], k - 1)
  {
    if i :| 0 <= i < k && SameCall(calls[i], calls[k]) {
      assert i > 0 ==> SameCall(calls[1..][i - 1], calls[1..][k - 1]);
    }
    if i :| 0 <= i < k - 1 && SameCall(calls[1..][i], calls[1..][k - 1]) {
      assert SameCall(calls[i + 1], calls[k]);
    }
  }

  lemma {:induction false} BeforeSnoc(past: seq<Entry>, e: Entry, c: Entry)
    requires IsCall(c)
    ensures Before(past + [e], c) <==> Before(past, c) || (IsCall(e) && SameCall(e, c))
  {
    assert e in past + [e];
  }

  /**
   The tag of the k-th call: a copy without metrics if an earlier call is the same, or else an original
   with the metrics of its usage.
   */
  lemma {:induction false} TagAt(past: seq<Entry>, entries: seq<Entry>, k: nat)
    requires k < |CallsIn(entries)|
    ensures |TagsFor(past, entries)| == |CallsIn(entries)|
    ensures var call, tag := CallsIn(entries)[k], TagsFor(past, entries)[k];
      && (tag.copied <==> Before(past, call) || Repeats(CallsIn(entries), k))
      && tag.metrics == if tag.copied then None else MetricsOf(call.role.usage)
    decreases |entries|
  {
    var e, rest, calls := entries[0], entries[1..], CallsIn(entries);
    TagCount(past, entries);
    if !IsCall(e) {
      assert calls == CallsIn(rest);
      TagAt(past + [e], rest, k);
      BeforeSnoc(past, e, calls[k]);
    } else if k > 0 {
      assert calls[1..] == CallsIn(rest) && calls[0] == e;
      TagAt(past + [e], rest, k - 1);
      BeforeSnoc(past, e, calls[k]);
      RepeatsAfterFirst(calls, k);
    }
  }

  lemma {:induction false} TagCount(past: seq<Entry>, entries: seq<Entry>)
    ensures |TagsFor(past, entries)| == |CallsIn(entries)|
    decreases |entries|
  {
    if entries != [] {
      TagCount(past + [entries[0]], entries[1..]);
    }
  }

  // ----- All files of a run ----------------------------------------------------------------

  /** One builder per file, the seen sets handed from each to the next. */
  function Subagents(seenIds: set<string>, seenFingerprints: set<string>, files: seq<seq<Entry>>): seq<Builder>
    decreases |files|
  {
    if files == [] then []
    else
      var b := FromEntries(seenIds, seenFingerprints, files[0]);
      [b] + Subagents(b.seenIds, b.seenFingerprints, files[1..])
  }

  function AllSteps(builders: seq<Builder>): seq<Step> {
    if builders == [] then [] else builders[0].steps + AllSteps(builders[1..])
  }

  function Compactions(builders: seq<Builder>): nat {
    if builders == [] then 0 else builders[0].compactions + Compactions(builders[1..])
  }

  /** Files without steps contribute no trajectory. */
  function Kept(builders: seq<Builder>): seq<seq<Step>> {
    if builders == [] then []
    else (if builders[0].steps == [] then [] else [builders[0].steps]) + Kept(builders[1..])
  }

  datatype Report = Report(root: seq<Step>, subagents: seq<seq<Step>>, summarizations: nat, totals: Totals, totalSteps: nat)

  /** Assistant messages of the output log carry no entry id. */
  function OutputEntries(output: seq<Role>): seq<Entry> {
    seq(|output|, i requires 0 <= i < |output| => Message(None, output[i]))
  }

  /** The root comes from the main session file or, if that has no steps, from the output log. */
  function Root(first: Builder, output: seq<Role>): Builder {
    if first.steps != [] then first else FromEntries(first.seenIds, first.seenFingerprints, OutputEntries(output))
  }

  function Write(main: seq<Entry>, output: seq<Role>, files: seq<seq<Entry>>): Option<Report> {
    var first := FromEntries({}, {}, main);
    var root := Root(first, output);
    if root.steps == [] then None
    else
      var subagents := Subagents(root.seenIds, root.seenFingerprints, files);
      Some(Report(root.steps, Kept(subagents), first.compactions + Compactions(subagents),
                  TotalsOf(Carried(root.steps + AllSteps(subagents))), |root.steps + AllSteps(subagents)|))
  }

  function Flat(files: seq<seq<Entry>>): seq<Entry> {
    if files == [] then [] else files[0] + Flat(files[1..])
  }

  lemma {:induction false} SubagentsTags(b: Builder, past: seq<Entry>, files: seq<seq<Entry>>)
    requires SeenIn(b, past)
    ensures Tags(AllSteps(Subagents(b.seenIds, b.seenFingerprints, files))) == TagsFor(past, Flat(files))
    decreases |files|
  {
    if files != [] {
      var started := Builder([], b.seenIds, b.seenFingerprints, 0);
      var done := AddAll(started, files[0]);
      AddAllSees(started, past, files[0]);
      AddAllTags(started, past, files[0]);
      SubagentsTags(done, past + files[0], files[1..]);
      TagsForConcat(past, files[0], Flat(files[1..]));
      var rest := Subagents(done.seenIds, done.seenFingerprints, files[1..]);
      assert Subagents(b.seenIds, b.seenFingerprints, files) == [done] + rest;
      TagsConcat(done.steps, AllSteps(rest));
    }
  }

  /** What is read for the root: the main file and, if that yields no steps, the output log. */
  function RootEntries(main: seq<Entry>, output: seq<Role>): seq<Entry> {
    main + (if FromEntries({}, {}, main).steps != [] then [] else OutputEntries(output))
  }

  lemma {:induction false} RootTags(main: seq<Entry>, output: seq<Role>)
    ensures var root := Root(FromEntries({}, {}, main), output);
      SeenIn(root, RootEntries(main, output)) && Tags(root.steps) == TagsFor([], RootEntries(main, output))
  {
    var first := FromEntries({}, {}, main);
    AddAllSees(Builder([], {}, {}, 0), [], main);
    AddAllTags(Builder([], {}, {}, 0), [], main);
    assert [] + main == main && main + [] == main;
    if first.steps == [] {
      AddAllSees(Builder([], first.seenIds, first.seenFingerprints, 0), main, OutputEntries(output));
      AddAllTags(Builder([], first.seenIds, first.seenFingerprints, 0), main, OutputEntries(output));
      TagsForConcat([], main, OutputEntries(output));
    }
  }

  /** Everything that is read for a report, in order, and all the steps it has. */
  function Read(main: seq<Entry>, output: seq<Role>, files: seq<seq<Entry>>): seq<Entry> {
    RootEntries(main, output) + Flat(files)
  }

  function Steps(main: seq<Entry>, output: seq<Role>, files: seq<seq<Entry>>): seq<Step> {
    var root := Root(FromEntries({}, {}, main), output);
    root.steps + AllSteps(Subagents(root.seenIds, root.seenFingerprints, files))
  }

  function Joined(trajectories: seq<seq<Step>>): seq<Step> {
    if trajectories == [] then [] else trajectories[0] + Joined(trajectories[1..])
  }

  lemma {:induction false} KeptIsAll(builders: seq<Builder>)
    ensures Joined(Kept(builders)) == AllSteps(builders)
  {
    if builders != [] {
      KeptIsAll(builders[1..]);
      var kept := Kept(builders[1..]);
      if builders[0].steps == [] {
        assert Kept(builders) == kept;
      } else {
        assert ([builders[0].steps] + kept)[1..] == kept;
      }
    }
  }

  /** These are the steps of the report's trajectories, in order. */
  lemma {:induction false} ReportHoldsTheSteps(main: seq<Entry>, output: seq<Role>, files: seq<seq<Entry>>)
    requires Write(main, output, files).Some?
    ensures var report := Write(main, output, files).value;
      Steps(main, output, files) == report.root + Joined(report.subagents) && report.totalSteps == |Steps(main, output, files)|
  {
    var root := Root(FromEntries({}, {}, main), output);
    KeptIsAll(Subagents(root.seenIds, root.seenFingerprints, files));
  }

  lemma {:induction false} StepsAreTagged(main: seq<Entry>, output: seq<Role>, files: seq<seq<Entry>>)
    ensures Tags(Steps(main, output, files)) == TagsFor([], Read(main, output, files))
  {
    var root, read := Root(FromEntries({}, {}, main), output), RootEntries(main, output);
    RootTags(main, output);
    SubagentsTags(root, read, files);
    TagsForConcat([], read, Flat(files));
    assert [] + read == read;
    TagsConcat(root.steps, AllSteps(Subagents(root.seenIds, root.seenFingerprints, files)));
  }

  /**
   Over the root and all subagents together, every model call is counted exactly once, at its first
   occurrence, however many files repeat it: in the totals, the peak and the number of agent steps.
   */
  lemma {:induction false} EveryCallCountsOnce(main: seq<Entry>, output: seq<Role>, files: seq<seq<Entry>>)
    requires Write(main, output, files).Some?
    ensures Write(main, output, files).value.totals == TotalsOf(FirstCalls([], Read(main, output, files)))
  {
    StepsAreTagged(main, output, files);
    CarriedIsWeighed(Steps(main, output, files));
    FirstCallsAreWeighed([], Read(main, output, files));
  }

  /**
   The agent steps of all trajectories are the calls read, one for one and in order. Of calls that share an
   entry id or a fingerprint only the first carries metrics; every later one is a copy without any.
   */
  lemma {:induction false} OneStepPerCallCarriesMetrics(main: seq<Entry>, output: seq<Role>, files: seq<seq<Entry>>, k: nat)
    requires k < |CallsIn(Read(main, output, files))|
    ensures |Tags(Steps(main, output, files))| == |CallsIn(Read(main, output, files))|
    ensures var calls, tag := CallsIn(Read(main, output, files)), Tags(Steps(main, output, files))[k];
      && (tag.copied <==> Repeats(calls, k))
      && tag.metrics == if tag.copied then None else MetricsOf(calls[k].role.usage)
  {
    StepsAreTagged(main, output, files);
    TagAt([], Read(main, output, files), k);
  }

  // ----- One trajectory --------------------------------------------------------------------

  function OutputOf(r: Result): seq<nat> {
    match r
    case ToolOutput(_, result) => [result]
    case BashOutput => []
  }

  function Outputs(observation: seq<Result>): seq<nat> {
    if observation == [] then []
    else Outputs(observation[..|observation| - 1]) + OutputOf(observation[|observation| - 1])
  }

  /** The tool results recorded in the observations, in order. */
  function Observed(steps: seq<Step>): seq<nat> {
    if steps == [] then [] else Observed(steps[..|steps| - 1]) + Outputs(steps[|steps| - 1].observation)
  }

  function ToolResults(entries: seq<Entry>): seq<nat> {
    if entries == [] then []
    else (if entries[0].Message? && entries[0].role.ToolResult? then [entries[0].role.result] else []) + ToolResults(entries[1..])
  }

  /** Steps are numbered from 1, and on an agent step a non-empty call id names one of its calls. */
  ghost predicate WellFormed(steps: seq<Step>) {
    forall k :: 0 <= k < |steps| ==>
      && steps[k].stepId == k + 1
      && (steps[k].source == AgentSource ==>
          forall r :: r in steps[k].observation && r.ToolOutput? && r.callId.Some? && r.callId.value != "" ==>
            r.callId.value in steps[k].calls)
  }

  lemma OutputsOfSnoc(observation: seq<Result>, r: Result)
    ensures Outputs(observation + [r]) == Outputs(observation) + OutputOf(r)
  {
    assert (observation + [r])[..|observation|] == observation;
  }

  lemma ObservedOfSnoc(steps: seq<Step>, step: Step)
    ensures Observed(steps + [step]) == Observed(steps) + Outputs(step.observation)
  {
    assert (steps + [step])[..|steps|] == steps;
  }

  /** A result added to the last step is the last one observed. */
  lemma {:induction false} ObservedOnLast(steps: seq<Step>, callId: Option<string>, result: nat)
    requires steps != []
    ensures var last := steps[|steps| - 1];
      Observed(steps[..|steps| - 1] + [last.(observation := last.observation + [ToolOutput(callId, result)])]) == Observed(steps) + [result]
  {
    var last := steps[|steps| - 1];
    ObservedOfSnoc(steps[..|steps| - 1], last.(observation := last.observation + [ToolOutput(callId, result)]));
    OutputsOfSnoc(last.observation, ToolOutput(callId, result));
  }

  lemma ObservedInNewStep(steps: seq<Step>, step: Step, result: nat, callId: Option<string>)
    requires step.observation == [ToolOutput(callId, result)]
    ensures Observed(steps + [step]) == Observed(steps) + [result]
  {
    ObservedOfSnoc(steps, step);
    OutputsOfSnoc([], ToolOutput(callId, result));
    assert [ToolOutput(callId, result)] == [] + [ToolOutput(callId, result)];
  }

  lemma {:induction false} ObserveLands(steps: seq<Step>, callId: Option<string>, result: nat)
    ensures Observed(Observe(steps, callId, result)) == Observed(steps) + [result]
  {
    if steps != [] && steps[|steps| - 1].source == AgentSource {
      ObservedOnLast(steps, SourceCall(steps[|steps| - 1], callId), result);
    } else {
      ObservedInNewStep(steps, Step(|steps| + 1, SystemSource, [], None, false, [ToolOutput(callId, result)]), result, callId);
    }
  }

  lemma {:induction false} ObserveKeepsForm(steps: seq<Step>, callId: Option<string>, result: nat)
    requires WellFormed(steps)
    ensures WellFormed(Observe(steps, callId, result))
  {
    var after := Observe(steps, callId, result);
    if steps != [] && steps[|steps| - 1].source == AgentSource {
      var last := steps[|steps| - 1];
      var output := ToolOutput(SourceCall(last, callId), result);
      assert forall r :: r in last.observation + [output] <==> r in last.observation || r == output;
      assert forall k :: 0 <= k < |steps| - 1 ==> after[k] == steps[k];
    }
  }

  lemma StepHoldsNoOutput(b: Builder, id: Option<string>, role: Role)
    requires StepOf(b, id, role).Some?
    ensures Outputs(StepOf(b, id, role).value.observation) == []
  {
    OutputsOfSnoc([], BashOutput);
    assert [BashOutput] == [] + [BashOutput];
  }

  lemma AppendingKeepsForm(b: Builder, id: Option<string>, role: Role)
    requires WellFormed(b.steps) && StepOf(b, id, role).Some?
    ensures WellFormed(b.steps + [StepOf(b, id, role).value])
  {
    var step := StepOf(b, id, role).value;
    assert step.stepId == |b.steps| + 1 && (step.source == AgentSource ==> step.observation == []);
  }

  lemma ResultsOfOne(e: Entry)
    ensures ToolResults([e]) == if e.Message? && e.role.ToolResult? then [e.role.result] else []
  {
    assert [e][1..] == [];
  }

  /** Every other entry appends at most one step, which holds no tool result. */
  lemma {:induction false} AddLands(b: Builder, e: Entry)
    requires WellFormed(b.steps)
    ensures WellFormed(Add(b, e).steps)
    ensures Observed(Add(b, e).steps) == Observed(b.steps) + ToolResults([e])
  {
    ResultsOfOne(e);
    if e.Message? {
      if e.role.ToolResult? {
        ObserveLands(b.steps, e.role.callId, e.role.result);
        ObserveKeepsForm(b.steps, e.role.callId, e.role.result);
      } else if StepOf(b, e.id, e.role).Some? {
        ObservedOfSnoc(b.steps, StepOf(b, e.id, e.role).value);
        StepHoldsNoOutput(b, e.id, e.role);
        AppendingKeepsForm(b, e.id, e.role);
      }
    }
  }

  lemma {:induction false} AddAllLands(b: Builder, entries: seq<Entry>)
    requires WellFormed(b.steps)
    ensures WellFormed(AddAll(b, entries).steps)
    ensures Observed(AddAll(b, entries).steps) == Observed(b.steps) + ToolResults(entries)
    decreases |entries|
  {
    if entries != [] {
      AddLands(b, entries[0]);
      ResultsOfOne(entries[0]);
      AddAllLands(Add(b, entries[0]), entries[1..]);
      Assoc(Observed(b.steps), ToolResults([entries[0]]), ToolResults(entries[1..]));
    }
  }

  /**
   In every trajectory the steps are numbered 1 to n, the observations hold exactly the file's tool
   results, each once and in order, and a non-empty call id on an agent step names one of its calls.
   */
  lemma {:induction false} TrajectoryAccounts(seenIds: set<string>, seenFingerprints: set<string>, entries: seq<Entry>)
    ensures var steps := FromEntries(seenIds, seenFingerprints, entries).steps;
      WellFormed(steps) && Observed(steps) == ToolResults(entries)
  {
    AddAllLands(Builder([], seenIds, seenFingerprints, 0), entries);
  }

  /** The one call id that gets through without naming a call is the empty one. */
  lemma {:induction false} CallIdIsNamedIff(last: Step, callId: Option<string>)
    ensures (SourceCall(last, callId).Some? ==> SourceCall(last, callId).value in last.calls)
      <==> !(callId == Some("") && "" !in last.calls)
  {
    if callId == Some("") {
      assert SourceCall(last, callId) == callId;
    }
  }

  // ----- The imperative code ---------------------------------------------------------------

  /** The two sets shared by all files of a run. */
  class Seen {
    var ids: set<string>
    var fingerprints: set<string>

    constructor ()
      ensures ids == {} && fingerprints == {}
    {
      ids, fingerprints := {}, {};
    }
  }

  /** `_append_observation`. */
  method AppendObservation(steps: seq<Step>, callId: Option<string>, result: nat) returns (appended: seq<Step>)
    ensures appended == Observe(steps, callId, result)
  {
    var sourceCallId := callId;
    var n := |steps|;
    if n > 0 && steps[n - 1].source == AgentSource && sourceCallId.Some? && sourceCallId.value != "" {
      if sourceCallId.value !in steps[n - 1].calls {
        sourceCallId := None;
      }
    }
    if n > 0 && steps[n - 1].source == AgentSource {
      return steps[n - 1 := steps[n - 1].(observation := steps[n - 1].observation + [ToolOutput(sourceCallId, result)])];
    }
    return steps + [Step(n + 1, SystemSource, [], None, false, [ToolOutput(sourceCallId, result)])];
  }

  /** `_step_from_message`. */
  method StepFromMessage(role: Role, stepId: nat, entryId: Option<string>, seen: Seen) returns (step: Option<Step>)
    requires !role.ToolResult?
    modifies seen
    ensures forall b: Builder :: stepId == |b.steps| + 1 && b.seenIds == old(seen.ids) && b.seenFingerprints == old(seen.fingerprints) ==>
      step == StepOf(b, entryId, role)
    ensures seen.ids == old(seen.ids) + (if role.Assistant? && entryId.Some? then {entryId.value} else {})
    ensures seen.fingerprints == old(seen.fingerprints) +
      (if role.Assistant? && role.fingerprint.Some? then {role.fingerprint.value} else {})
  {
    match role {
      case Assistant(fingerprint, usage, calls) =>
        var copied := (entryId.Some? && entryId.value in seen.ids) || (fingerprint.Some? && fingerprint.value in seen.fingerprints);
        if entryId.Some? {
          seen.ids := seen.ids + {entryId.value};
        }
        if fingerprint.Some? {
          seen.fingerprints := seen.fingerprints + {fingerprint.value};
        }
        var metrics := if copied then None else MetricsOf(usage);
        step := Some(Step(stepId, AgentSource, calls, metrics, copied, []));
      case User => step := Some(Step(stepId, UserSource, [], None, false, []));
      case Bash => step := Some(Step(stepId, SystemSource, [], None, false, [BashOutput]));
      case Note => step := Some(Step(stepId, SystemSource, [], None, false, []));
      case Unknown => step := None;
    }
  }

  /** `_trajectory_from_entries`. */
  method TrajectoryFromEntries(entries: seq<Entry>, seen: Seen) returns (steps: seq<Step>, summarizations: nat)
    modifies seen
    ensures Builder(steps, seen.ids, seen.fingerprints, summarizations) ==
      FromEntries(old(seen.ids), old(seen.fingerprints), entries)
  {
    steps, summarizations := [], 0;
    ghost var whole := FromEntries(seen.ids, seen.fingerprints, entries);
    for i := 0 to |entries|
      invariant AddAll(Builder(steps, seen.ids, seen.fingerprints, summarizations), entries[i..]) == whole
    {
      assert entries[i..][1..] == entries[i + 1..];
      match entries[i] {
        case Compaction => summarizations := summarizations + 1;
        case Other =>
        case Message(id, role) =>
          if role.ToolResult? {
            steps := AppendObservation(steps, role.callId, role.result);
          } else {
            ghost var before := Builder(steps, seen.ids, seen.fingerprints, summarizations);
            var step := StepFromMessage(role, |steps| + 1, id, seen);
            assert step == StepOf(before, id, role);
            assert Add(before, entries[i]).seenIds == seen.ids && Add(before, entries[i]).seenFingerprints == seen.fingerprints;
            if step.Some? {
              steps := steps + [step.value];
            }
          }
      }
    }
  }

  /** The running totals after one more step. */
  function Running(t: Totals, step: Step): Totals {
    if CarriedBy(step) == [] then t else Plus(t, CarriedBy(step)[0])
  }

  lemma TotalsOfStep(steps: seq<Step>, step: Step)
    ensures TotalsOf(Carried(steps + [step])) == Running(TotalsOf(Carried(steps)), step)
  {
    if CarriedBy(step) == [] {
      assert Carried(steps) + [] == Carried(steps);
    } else {
    }
  }

  /** `_metric_totals`, with the count of agent steps that are not copies. */
  method SumMetrics(steps: seq<Step>) returns (totals: Totals)
    ensures totals == TotalsOf(Carried(steps))
  {
    totals := Totals(0, 0, 0, None, 0);
    for i := 0 to |steps|
      invariant totals == TotalsOf(Carried(steps[..i]))
    {
      assert steps[..i + 1] == steps[..i] + [steps[i]];
      TotalsOfStep(steps[..i], steps[i]);
      totals := Accumulate(totals, steps[i]);
    }
    assert steps[..|steps|] == steps;
  }

  method Accumulate(before: Totals, step: Step) returns (totals: Totals)
    ensures totals == Running(before, step)
  {
    totals := before;
    if step.source == AgentSource && !step.copied {
      totals := totals.(agentSteps := totals.agentSteps + 1);
    }
    if step.source != AgentSource || step.metrics.None? {
      return;
    }
    var metrics := step.metrics.value;
    totals := totals.(prompt := totals.prompt + metrics.prompt, completion := totals.completion + metrics.completion,
                      cached := totals.cached + metrics.cached);
    if totals.peak.None? || metrics.prompt > totals.peak.value {
      totals := totals.(peak := Some(metrics.prompt));
    }
  }

  /** `_write_trajectory`, up to writing the file. */
  method WriteTrajectory(main: seq<Entry>, output: seq<Role>, files: seq<seq<Entry>>) returns (report: Option<Report>)
    ensures report == Write(main, output, files)
  {
    var seen := new Seen();
    var root, summarizations := TrajectoryFromEntries(main, seen);
    if root == [] {
      var ignored;
      root, ignored := TrajectoryFromEntries(OutputEntries(output), seen);
    }
    if root == [] {
      return None;
    }
    var subagents, allSteps, count := AddSubagents(files, root, seen);
    var totals := SumMetrics(allSteps);
    report := Some(Report(root, subagents, summarizations + count, totals, |allSteps|));
  }

  method AddSubagents(files: seq<seq<Entry>>, root: seq<Step>, seen: Seen)
    returns (subagents: seq<seq<Step>>, allSteps: seq<Step>, summarizations: nat)
    modifies seen
    ensures var all := Subagents(old(seen.ids), old(seen.fingerprints), files);
      subagents == Kept(all) && allSteps == root + AllSteps(all) && summarizations == Compactions(all)
  {
    subagents, allSteps, summarizations := [], root, 0;
    ghost var all := Subagents(seen.ids, seen.fingerprints, files);
    for i := 0 to |files|
      invariant subagents + Kept(Subagents(seen.ids, seen.fingerprints, files[i..])) == Kept(all)
      invariant allSteps + AllSteps(Subagents(seen.ids, seen.fingerprints, files[i..])) == root + AllSteps(all)
      invariant summarizations + Compactions(Subagents(seen.ids, seen.fingerprints, files[i..])) == Compactions(all)
    {
      assert files[i..][1..] == files[i + 1..];
      ghost var rest := Subagents(seen.ids, seen.fingerprints, files[i..]);
      var steps, count := TrajectoryFromEntries(files[i], seen);
      assert rest[1..] == Subagents(seen.ids, seen.fingerprints, files[i + 1..]);
      summarizations := summarizations + count;
      if steps != [] {
        subagents := subagents + [steps];
      }
      allSteps := allSteps + steps;
    }
  }
}
