/**
 The line diff shown before a configuration file is rewritten (packages/mcp/config-write-utils.ts).

 `LcsLength` and `Walk` say what the table holds and which lines the walk prints; the theorems
 relate both to definitions that mention neither: common subsequences and edit scripts.
 */
module LineDiff {
  import opened LineText
  import opened Sequences

  datatype Edit = Keep(line: string) | Insert(line: string) | Delete(line: string)

  // ----- Common subsequences ---------------------------------------------------------------

  ghost predicate Common(s: seq<string>, a: seq<string>, b: seq<string>) {
    Subsequence(s, a) && Subsequence(s, b)
  }

  /** n is the greatest length of a common subsequence of a and b. */
  ghost predicate IsLcsLength(n: nat, a: seq<string>, b: seq<string>) {
    && (exists s :: Common(s, a, b) && |s| == n)
    && (forall s :: Common(s, a, b) ==> |s| <= n)
  }

  function Max(x: nat, y: nat): nat {
    if x >= y then x else y
  }

  /** The recurrence by which the table is filled. */
  function LcsLength(a: seq<string>, b: seq<string>): nat {
    if a == [] || b == [] then 0
    else if a[0] == b[0] then LcsLength(a[1..], b[1..]) + 1
    else Max(LcsLength(a[1..], b), LcsLength(a, b[1..]))
  }

  lemma {:induction false} CommonIsNoLonger(s: seq<string>, a: seq<string>, b: seq<string>)
    requires Common(s, a, b)
    ensures |s| <= LcsLength(a, b)
    decreases |a| + |b|
  {
    if s == [] {
    } else if a[0] == b[0] {
      SubsequenceTails(s, a);
      SubsequenceTails(s, b);
      CommonIsNoLonger(s[1..], a[1..], b[1..]);
    } else if s[0] != a[0] {
      CommonIsNoLonger(s, a[1..], b);
    } else {
      CommonIsNoLonger(s, a, b[1..]);
    }
  }

  lemma {:induction false} CommonIsReached(a: seq<string>, b: seq<string>) returns (s: seq<string>)
    ensures Common(s, a, b) && |s| == LcsLength(a, b)
    decreases |a| + |b|
  {
    if a == [] || b == [] {
      s := [];
    } else if a[0] == b[0] {
      var rest := CommonIsReached(a[1..], b[1..]);
      s := [a[0]] + rest;
      assert s[1..] == rest;
    } else if LcsLength(a[1..], b) >= LcsLength(a, b[1..]) {
      s := CommonIsReached(a[1..], b);
      SubsequenceWeakens(s, a);
    } else {
      s := CommonIsReached(a, b[1..]);
      SubsequenceWeakens(s, b);
    }
  }

  /** The table's recurrence computes the optimum over all common subsequences. */
  lemma {:induction false} LcsLengthIsOptimal(a: seq<string>, b: seq<string>)
    ensures IsLcsLength(LcsLength(a, b), a, b)
  {
    var s := CommonIsReached(a, b);
    forall t | Common(t, a, b)
      ensures |t| <= LcsLength(a, b)
    {
      CommonIsNoLonger(t, a, b);
    }
  }

  // ----- Edit scripts ----------------------------------------------------------------------

  ghost function Before(script: seq<Edit>): seq<string> {
    if script == [] then []
    else (if script[0].Insert? then [] else [script[0].line]) + Before(script[1..])
  }

  ghost function After(script: seq<Edit>): seq<string> {
    if script == [] then []
    else (if script[0].Delete? then [] else [script[0].line]) + After(script[1..])
  }

  ghost function Kept(script: seq<Edit>): seq<string> {
    if script == [] then []
    else (if script[0].Keep? then [script[0].line] else []) + Kept(script[1..])
  }

  /** The number of lines printed with `+` or `-`. */
  ghost function Cost(script: seq<Edit>): nat {
    if script == [] then 0 else (if script[0].Keep? then 0 else 1) + Cost(script[1..])
  }

  ghost predicate Transforms(script: seq<Edit>, a: seq<string>, b: seq<string>) {
    Before(script) == a && After(script) == b
  }

  ghost predicate Minimal(script: seq<Edit>, a: seq<string>, b: seq<string>) {
    && Transforms(script, a, b)
    && forall other :: Transforms(other, a, b) ==> Cost(script) <= Cost(other)
  }

  ghost function Rank(e: Edit): nat {
    match e case Keep(_) => 0 case Insert(_) => 1 case Delete(_) => 2
  }

  /** At the first difference, s keeps before it inserts and inserts before it deletes. */
  ghost predicate Prefers(s: seq<Edit>, t: seq<Edit>) {
    s == [] || (t != [] && (Rank(s[0]) < Rank(t[0]) || (s[0] == t[0] && Prefers(s[1..], t[1..]))))
  }

  lemma {:induction false} KeptIsCommon(script: seq<Edit>)
    ensures Common(Kept(script), Before(script), After(script))
  {
    if script != [] {
      KeptIsCommon(script[1..]);
      var k, a, b := Kept(script), Before(script), After(script);
      if script[0].Keep? {
        assert k[1..] == Kept(script[1..]) && a[1..] == Before(script[1..]) && b[1..] == After(script[1..]);
      } else if script[0].Delete? {
        assert k == Kept(script[1..]) && a[1..] == Before(script[1..]) && b == After(script[1..]);
        SubsequenceWeakens(k, a);
      } else {
        assert k == Kept(script[1..]) && a == Before(script[1..]) && b[1..] == After(script[1..]);
        SubsequenceWeakens(k, b);
      }
    }
  }

  lemma {:induction false} LinesAddUp(script: seq<Edit>)
    ensures |Before(script)| + |After(script)| == 2 * |Kept(script)| + Cost(script)
  {
    if script != [] {
      LinesAddUp(script[1..]);
    }
  }

  lemma {:induction false} CostBound(script: seq<Edit>, a: seq<string>, b: seq<string>)
    requires Transforms(script, a, b)
    ensures Cost(script) >= |a| + |b| - 2 * LcsLength(a, b)
  {
    KeptIsCommon(script);
    LinesAddUp(script);
    CommonIsNoLonger(Kept(script), a, b);
  }

  // ----- The walk --------------------------------------------------------------------------

  /** The edits the walk prints for what is left of both texts. */
  function Walk(a: seq<string>, b: seq<string>): seq<Edit>
    decreases |a| + |b|
  {
    if a == [] && b == [] then []
    else if a != [] && b != [] && a[0] == b[0] then [Keep(a[0])] + Walk(a[1..], b[1..])
    else if b != [] && (a == [] || LcsLength(a, b[1..]) >= LcsLength(a[1..], b)) then
      [Insert(b[0])] + Walk(a, b[1..])
    else [Delete(a[0])] + Walk(a[1..], b)
  }

  lemma {:induction false} WalkTransforms(a: seq<string>, b: seq<string>)
    ensures Transforms(Walk(a, b), a, b)
    ensures Cost(Walk(a, b)) == |a| + |b| - 2 * LcsLength(a, b)
    ensures |Kept(Walk(a, b))| == LcsLength(a, b)
    decreases |a| + |b|
  {
    var w := Walk(a, b);
    if a == [] && b == [] {
    } else if a != [] && b != [] && a[0] == b[0] {
      WalkTransforms(a[1..], b[1..]);
      assert w[1..] == Walk(a[1..], b[1..]);
    } else if b != [] && (a == [] || LcsLength(a, b[1..]) >= LcsLength(a[1..], b)) {
      WalkTransforms(a, b[1..]);
      assert w[1..] == Walk(a, b[1..]);
    } else {
      WalkTransforms(a[1..], b);
      assert w[1..] == Walk(a[1..], b);
    }
  }

  lemma {:induction false} WalkIsPreferred(a: seq<string>, b: seq<string>, t: seq<Edit>)
    requires Transforms(t, a, b) && Cost(t) == |a| + |b| - 2 * LcsLength(a, b)
    ensures Prefers(Walk(a, b), t)
    decreases |a| + |b|
  {
    var w := Walk(a, b);
    if w != [] {
      assert t != [];
      if Rank(w[0]) >= Rank(t[0]) {
        if t[0].Keep? {
          assert a[1..] == Before(t[1..]) && b[1..] == After(t[1..]);
          WalkIsPreferred(a[1..], b[1..], t[1..]);
        } else if t[0].Insert? {
          assert b[1..] == After(t[1..]);
          CostBound(t[1..], a, b[1..]);
          WalkIsPreferred(a, b[1..], t[1..]);
        } else {
          assert a[1..] == Before(t[1..]);
          WalkIsPreferred(a[1..], b, t[1..]);
        }
        assert w[1..] == Walk(Before(t[1..]), After(t[1..]));
      }
    }
  }

  /**
   The walk prints a shortest edit script, keeps exactly as many lines as the longest common
   subsequence has, and among all shortest scripts it is the one that keeps, then inserts, first.
   */
  lemma {:induction false} WalkIsMinimal(a: seq<string>, b: seq<string>)
    ensures Minimal(Walk(a, b), a, b)
    ensures IsLcsLength(|Kept(Walk(a, b))|, a, b)
    ensures forall t :: Minimal(t, a, b) ==> Prefers(Walk(a, b), t)
  {
    WalkTransforms(a, b);
    LcsLengthIsOptimal(a, b);
    forall t | Transforms(t, a, b)
      ensures Cost(Walk(a, b)) <= Cost(t)
    {
      CostBound(t, a, b);
    }
    forall t | Minimal(t, a, b)
      ensures Prefers(Walk(a, b), t)
    {
      CostBound(t, a, b);
      WalkIsPreferred(a, b, t);
    }
  }

  /** Two scripts that each prefer themselves to the other are equal, so the theorem above pins the walk down. */
  lemma {:induction false} PreferredIsUnique(s: seq<Edit>, t: seq<Edit>)
    requires Prefers(s, t) && Prefers(t, s)
    ensures s == t
  {
    if s != [] {
      PreferredIsUnique(s[1..], t[1..]);
      assert s == [s[0]] + s[1..] && t == [t[0]] + t[1..];
    }
  }

  // ----- The printed text ------------------------------------------------------------------

  function RenderEdit(e: Edit): string {
    match e
    case Keep(line) => "  " + line
    case Insert(line) => "+ " + line
    case Delete(line) => "- " + line
  }

  function Render(script: seq<Edit>): seq<string> {
    if script == [] then [] else [RenderEdit(script[0])] + Render(script[1..])
  }

  const HEADER := ["--- before", "+++ after"]
  const NO_CHANGES := "(no changes)"

  function UnifiedDiff(beforeText: string, afterText: string): string {
    if beforeText == afterText then NO_CHANGES
    else Join(HEADER + Render(Walk(Split(beforeText), Split(afterText))))
  }

  /** Drops the lines that start with the mark and strips the two-character margin of the others. */
  function Unmark(lines: seq<string>, mark: char): seq<string> {
    if lines == [] then []
    else (if |lines[0]| < 2 || lines[0][0] == mark then [] else [lines[0][2..]]) + Unmark(lines[1..], mark)
  }

  /** Reads one side of the diff back: `+` drops the new lines and gives the old text, `-` the other way. */
  function ReadSide(diff: string, mark: char): string {
    var lines := Split(diff);
    if |lines| < 2 then "" else Join(Unmark(lines[2..], mark))
  }

  lemma {:induction false} UnmarkOfRender(script: seq<Edit>)
    ensures Unmark(Render(script), '+') == Before(script)
    ensures Unmark(Render(script), '-') == After(script)
  {
    if script != [] {
      UnmarkOfRender(script[1..]);
      assert Render(script)[1..] == Render(script[1..]);
      assert RenderEdit(script[0])[2..] == script[0].line;
    }
  }

  lemma {:induction false} RenderIsOneLine(script: seq<Edit>)
    requires AllOneLine(Before(script)) && AllOneLine(After(script))
    ensures AllOneLine(Render(script))
  {
    if script != [] {
      var e, a, b := script[0], Before(script), After(script);
      if e.Insert? {
        assert b[0] == e.line && OneLine(b[0]);
        assert a == Before(script[1..]) && b[1..] == After(script[1..]);
      } else {
        assert a[0] == e.line && OneLine(a[0]);
        assert a[1..] == Before(script[1..]);
        assert e.Keep? ==> b[1..] == After(script[1..]);
        assert e.Delete? ==> b == After(script[1..]);
      }
      RenderIsOneLine(script[1..]);
      assert OneLine(RenderEdit(e));
    }
  }

  /** For unequal texts the printed lines are the header and the rendered walk, nothing else. */
  lemma {:induction false} DiffLines(beforeText: string, afterText: string)
    requires beforeText != afterText
    ensures Split(UnifiedDiff(beforeText, afterText)) ==
            HEADER + Render(Walk(Split(beforeText), Split(afterText)))
  {
    var a, b := Split(beforeText), Split(afterText);
    JoinOfSplit(beforeText);
    JoinOfSplit(afterText);
    WalkTransforms(a, b);
    RenderIsOneLine(Walk(a, b));
    var lines := HEADER + Render(Walk(a, b));
    assert OneLine("--- before") && OneLine("+++ after");
    forall k | 0 <= k < |lines|
      ensures OneLine(lines[k])
    {
      assert k >= 2 ==> lines[k] == Render(Walk(a, b))[k - 2];
    }
    SplitOfJoin(lines);
  }

  /** The text says "(no changes)" exactly for equal inputs, and otherwise both inputs can be read back from it. */
  lemma {:induction false} DiffDeterminesInputs(beforeText: string, afterText: string)
    ensures UnifiedDiff(beforeText, afterText) == NO_CHANGES <==> beforeText == afterText
    ensures beforeText != afterText ==> ReadSide(UnifiedDiff(beforeText, afterText), '+') == beforeText
    ensures beforeText != afterText ==> ReadSide(UnifiedDiff(beforeText, afterText), '-') == afterText
  {
    if beforeText != afterText {
      DiffLines(beforeText, afterText);
      var w := Walk(Split(beforeText), Split(afterText));
      var lines := HEADER + Render(w);
      assert lines[2..] == Render(w);
      WalkTransforms(Split(beforeText), Split(afterText));
      UnmarkOfRender(w);
      JoinOfSplit(beforeText);
      JoinOfSplit(afterText);
      if UnifiedDiff(beforeText, afterText) == NO_CHANGES {
        SplitAfterLine(NO_CHANGES, "");
        assert false;
      }
    }
  }

  // ----- The imperative code ---------------------------------------------------------------

  /** One cell of the recurrence, in terms of positions in the two texts. */
  lemma {:induction false} CellRecurrence(before: seq<string>, after: seq<string>, i: nat, j: nat)
    requires i <= |before| && j <= |after|
    ensures i == |before| || j == |after| ==> LcsLength(before[i..], after[j..]) == 0
    ensures i < |before| && j < |after| ==>
      LcsLength(before[i..], after[j..]) ==
        if before[i] == after[j] then LcsLength(before[i + 1..], after[j + 1..]) + 1
        else Max(LcsLength(before[i + 1..], after[j..]), LcsLength(before[i..], after[j + 1..]))
  {
    if i < |before| && j < |after| {
      assert before[i..][1..] == before[i + 1..] && after[j..][1..] == after[j + 1..];
    }
  }

  /** Every cell holds the recurrence's value for the two suffixes it stands for. */
  ghost predicate Filled(lcs: array2<nat>, before: seq<string>, after: seq<string>)
    reads lcs
  {
    && lcs.Length0 == |before| + 1 && lcs.Length1 == |after| + 1
    && forall i, j :: 0 <= i <= |before| && 0 <= j <= |after| ==> lcs[i, j] == LcsLength(before[i..], after[j..])
  }

  lemma {:induction false} FilledIsOptimal(lcs: array2<nat>, before: seq<string>, after: seq<string>)
    requires Filled(lcs, before, after)
    ensures forall i, j :: 0 <= i <= |before| && 0 <= j <= |after| ==> IsLcsLength(lcs[i, j], before[i..], after[j..])
  {
    forall i, j | 0 <= i <= |before| && 0 <= j <= |after|
      ensures IsLcsLength(lcs[i, j], before[i..], after[j..])
    {
      LcsLengthIsOptimal(before[i..], after[j..]);
    }
  }

  /** The table, filled backwards in place: every cell ends up optimal for its two suffixes. */
  method FillTable(before: seq<string>, after: seq<string>) returns (lcs: array2<nat>)
    ensures Filled(lcs, before, after)
    ensures forall i, j :: 0 <= i <= |before| && 0 <= j <= |after| ==>
      IsLcsLength(lcs[i, j], before[i..], after[j..])
  {
    var rows, cols := |before|, |after|;
    lcs := new nat[rows + 1, cols + 1]((i, j) => 0);
    var i := rows;
    while i > 0
      invariant 0 <= i <= rows
      invariant forall r :: 0 <= r <= rows ==> lcs[r, cols] == 0
      invariant forall c :: 0 <= c <= cols ==> lcs[rows, c] == 0
      invariant forall r, c :: i <= r < rows && 0 <= c < cols ==> lcs[r, c] == LcsLength(before[r..], after[c..])
    {
      i := i - 1;
      var j := cols;
      while j > 0
        invariant 0 <= j <= cols
        invariant forall r :: 0 <= r <= rows ==> lcs[r, cols] == 0
        invariant forall c :: 0 <= c <= cols ==> lcs[rows, c] == 0
        invariant forall r, c :: i < r < rows && 0 <= c < cols ==> lcs[r, c] == LcsLength(before[r..], after[c..])
        invariant forall c :: j <= c < cols ==> lcs[i, c] == LcsLength(before[i..], after[c..])
      {
        j := j - 1;
        CellRecurrence(before, after, i, j);
        CellRecurrence(before, after, i + 1, j + 1);
        CellRecurrence(before, after, i + 1, j);
        CellRecurrence(before, after, i, j + 1);
        lcs[i, j] := if before[i] == after[j] then lcs[i + 1, j + 1] + 1 else Max(lcs[i + 1, j], lcs[i, j + 1]);
      }
    }
    forall r, c | 0 <= r <= rows && 0 <= c <= cols
      ensures lcs[r, c] == LcsLength(before[r..], after[c..])
    {
      CellRecurrence(before, after, r, c);
    }
    FilledIsOptimal(lcs, before, after);
  }

  /** The greedy walk down the table, pushing one printed line per turn. */
  method PrintWalk(before: seq<string>, after: seq<string>, lcs: array2<nat>) returns (lines: seq<string>)
    requires Filled(lcs, before, after)
    ensures lines == HEADER + Render(Walk(before, after))
  {
    var rows, cols := |before|, |after|;
    lines := HEADER;
    ghost var printed := HEADER + Render(Walk(before, after));
    var i, j := 0, 0;
    while i < rows || j < cols
      invariant 0 <= i <= rows && 0 <= j <= cols
      invariant lines + Render(Walk(before[i..], after[j..])) == printed
      decreases rows - i + cols - j
    {
      if i < rows && j < cols && before[i] == after[j] {
        AppendOne(lines, "  " + before[i], Render(Walk(before[i + 1..], after[j + 1..])));
        lines := lines + ["  " + before[i]];
        i, j := i + 1, j + 1;
        continue;
      }
      if j < cols && (i == rows || lcs[i, j + 1] >= lcs[i + 1, j]) {
        AppendOne(lines, "+ " + after[j], Render(Walk(before[i..], after[j + 1..])));
        lines := lines + ["+ " + after[j]];
        j := j + 1;
        continue;
      }
      if i < rows {
        AppendOne(lines, "- " + before[i], Render(Walk(before[i + 1..], after[j..])));
        lines := lines + ["- " + before[i]];
        i := i + 1;
      }
    }
    assert lines == lines + Render(Walk([], []));
  }

  /** `buildUnifiedDiff`. */
  method BuildUnifiedDiff(beforeText: string, afterText: string) returns (text: string)
    ensures text == UnifiedDiff(beforeText, afterText)
  {
    if beforeText == afterText {
      return NO_CHANGES;
    }
    var before, after := Split(beforeText), Split(afterText);
    var lcs := FillTable(before, after);
    var lines := PrintWalk(before, after, lcs);
    text := Join(lines);
  }

  lemma AppendOne(lines: seq<string>, line: string, rest: seq<string>)
    ensures lines + ([line] + rest) == (lines + [line]) + rest
  {
  }
}
