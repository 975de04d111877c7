/** The release-base trailers of a release commit (scripts/release-base.ts, message of scripts/cut-release.ts). */
module ReleaseBases {
  import opened Sequences

  datatype Metadata = Metadata(baseRef: string, baseSha: string)

  datatype Error =
    | MalformedRefTrailer | MalformedShaTrailer | NotExactlyOne | InvalidRef | InvalidSha
    | InvalidExpectedRef | InvalidExpectedSha | InvalidParent | RefMismatch | ShaMismatch | ParentMismatch

  datatype Parsed = Ok(metadata: Metadata) | Failed(error: Error)

  const REF_TRAILER := "Release-base-ref:"
  const SHA_TRAILER := "Release-base-sha:"
  const HEADS := "refs/heads/"

  // ----- Branch and SHA checks -------------------------------------------------------------

  predicate IsFullSha(sha: string) {
    |sha| == 40 && forall k :: 0 <= k < |sha| ==> '0' <= sha[k] <= '9' || 'a' <= sha[k] <= 'f'
  }

  predicate IsSafe(c: char) {
    'A' <= c <= 'Z' || 'a' <= c <= 'z' || '0' <= c <= '9' || c == '.' || c == '_' || c == '/' || c == '-'
  }

  predicate Contains(text: string, part: string) {
    part <= text || (text != "" && Contains(text[1..], part))
  }

  predicate EndsWith(text: string, end: string) {
    |end| <= |text| && text[|text| - |end|..] == end
  }

  function Components(branch: string): (parts: seq<string>)
    ensures |parts| >= 1
  {
    if branch == "" then [""]
    else
      var rest := Components(branch[1..]);
      if branch[0] == '/' then [""] + rest else [[branch[0]] + rest[0]] + rest[1..]
  }

  predicate IsBranchName(branch: string) {
    && branch != "" && !("-" <= branch) && !("/" <= branch) && !EndsWith(branch, "/") && !EndsWith(branch, ".")
    && (forall k :: 0 <= k < |branch| ==> IsSafe(branch[k]))
    && !Contains(branch, "..") && !Contains(branch, "//") && !Contains(branch, "@{")
    && forall k :: 0 <= k < |Components(branch)| ==> !("." <= Components(branch)[k]) && !EndsWith(Components(branch)[k], ".lock")
  }

  function CanonicalReleaseBaseRef(branch: string): Option<string> {
    if !IsBranchName(branch) || "refs/" <= branch || "origin/" <= branch then None else Some(HEADS + branch)
  }

  predicate IsCanonicalRef(ref: string) {
    HEADS <= ref && IsBranchName(ref[|HEADS|..])
  }

  // ----- Reading the trailers --------------------------------------------------------------

  /** Splits at every line feed, with or without a carriage return before it. */
  function SplitLines(text: string): (lines: seq<string>)
    ensures |lines| >= 1
  {
    if text == "" then [""]
    else if text[0] == '\n' then [""] + SplitLines(text[1..])
    else if |text| >= 2 && text[0] == '\r' && text[1] == '\n' then [""] + SplitLines(text[2..])
    else var rest := SplitLines(text[1..]); [[text[0]] + rest[0]] + rest[1..]
  }

  function DropBlankEnd(lines: seq<string>): seq<string> {
    if lines != [] && lines[|lines| - 1] == "" then DropBlankEnd(lines[..|lines| - 1]) else lines
  }

  /** The lines after the last blank one. */
  function AfterLastBlank(lines: seq<string>): seq<string> {
    if lines == [] || lines[|lines| - 1] == "" then []
    else AfterLastBlank(lines[..|lines| - 1]) + [lines[|lines| - 1]]
  }

  function LastParagraph(message: string): seq<string> {
    AfterLastBlank(DropBlankEnd(SplitLines(message)))
  }

  predicate Malformed(line: string, trailer: string) {
    trailer <= line && !(trailer + " " <= line)
  }

  function Values(paragraph: seq<string>, trailer: string): seq<string> {
    if paragraph == [] then []
    else (if trailer + " " <= paragraph[0] then [paragraph[0][|trailer| + 1..]] else []) + Values(paragraph[1..], trailer)
  }

  /** The first malformed trailer, in the order in which the lines are read. */
  function FirstMalformed(paragraph: seq<string>): Option<Error> {
    if paragraph == [] then None
    else if Malformed(paragraph[0], REF_TRAILER) then Some(MalformedRefTrailer)
    else if Malformed(paragraph[0], SHA_TRAILER) then Some(MalformedShaTrailer)
    else FirstMalformed(paragraph[1..])
  }

  function Decide(refs: seq<string>, shas: seq<string>): Parsed {
    if |refs| != 1 || |shas| != 1 then Failed(NotExactlyOne)
    else if !IsCanonicalRef(refs[0]) then Failed(InvalidRef)
    else if !IsFullSha(shas[0]) then Failed(InvalidSha)
    else Ok(Metadata(refs[0], shas[0]))
  }

  function Parse(message: string): Parsed {
    var paragraph := LastParagraph(message);
    if FirstMalformed(paragraph).Some? then Failed(FirstMalformed(paragraph).value)
    else Decide(Values(paragraph, REF_TRAILER), Values(paragraph, SHA_TRAILER))
  }

  function Verify(message: string, releaseParent: string, expectedRef: string, expectedSha: string): Parsed {
    if !IsCanonicalRef(expectedRef) then Failed(InvalidExpectedRef)
    else if !IsFullSha(expectedSha) then Failed(InvalidExpectedSha)
    else if !IsFullSha(releaseParent) then Failed(InvalidParent)
    else
      var parsed := Parse(message);
      if parsed.Failed? then parsed
      else if parsed.metadata.baseRef != expectedRef then Failed(RefMismatch)
      else if parsed.metadata.baseSha != expectedSha then Failed(ShaMismatch)
      else if releaseParent != expectedSha then Failed(ParentMismatch)
      else parsed
  }

  // ----- Which branches are accepted -------------------------------------------------------

  /** A path component begins here, or ends before here. */
  predicate Begins(branch: string, k: nat) {
    k < |branch| && (k == 0 || branch[k - 1] == '/')
  }

  predicate EndsAt(branch: string, k: nat) {
    k == |branch| || (k < |branch| && branch[k] == '/')
  }

  /** A component ends with ".lock" from here. */
  ghost predicate LockAt(branch: string, k: nat) {
    k + 5 <= |branch| && branch[k..k + 5] == ".lock" && EndsAt(branch, k + 5)
  }

  /**
   A branch name, by its characters: letters, digits, dots, underscores, slashes and dashes only, not empty; no dash or
   slash first, no slash or dot last; never two dots or two slashes in a row; no component with a dot first
   or with ".lock" last.
   */
  ghost predicate WellNamed(branch: string) {
    && |branch| > 0 && branch[0] != '-' && branch[0] != '/'
    && branch[|branch| - 1] != '/' && branch[|branch| - 1] != '.'
    && (forall k :: 0 <= k < |branch| ==>
          'A' <= branch[k] <= 'Z' || 'a' <= branch[k] <= 'z' || '0' <= branch[k] <= '9' || branch[k] in {'.', '_', '/', '-'})
    && (forall k :: 0 < k < |branch| && branch[k - 1] == branch[k] ==> branch[k] != '.' && branch[k] != '/')
    && (forall k: nat :: Begins(branch, k) ==> branch[k] != '.')
    && (forall k: nat :: !LockAt(branch, k))
  }

  lemma {:induction false} ContainsPair(text: string, c: char)
    ensures Contains(text, [c, c]) <==> exists k :: 0 < k < |text| && text[k - 1] == text[k] == c
  {
    if text != "" {
      ContainsPair(text[1..], c);
      assert forall k :: 0 < k < |text| - 1 ==> text[1..][k - 1] == text[k] && text[1..][k] == text[k + 1];
      assert [c, c] <= text <==> (|text| >= 2 && text[0] == c && text[1] == c);
      if k :| 0 < k < |text| && text[k - 1] == text[k] == c {
        assert k > 1 ==> text[1..][k - 2] == text[1..][k - 1] == c;
      }
      if k :| 0 < k < |text[1..]| && text[1..][k - 1] == text[1..][k] == c {
        assert text[k] == text[k + 1] == c;
      }
    }
  }

  /** Without an at sign there is nothing to find. */
  lemma {:induction false} ContainsNoBrace(text: string)
    requires '@' !in text
    ensures !Contains(text, "@{")
  {
    if text != "" {
      ContainsNoBrace(text[1..]);
      assert text[0] in text && "@{"[0] == '@';
    }
  }

  /** The first component is what stands before the first slash. */
  lemma {:induction false} FirstComponent(branch: string)
    ensures var first := Components(branch)[0];
      first <= branch && '/' !in first && EndsAt(branch, |first|)
  {
    if branch != "" && branch[0] != '/' {
      FirstComponent(branch[1..]);
      LongerFirst(branch, Components(branch[1..])[0]);
    }
  }

  lemma LongerFirst(branch: string, first: string)
    requires branch != "" && branch[0] != '/' && first <= branch[1..] && '/' !in first && EndsAt(branch[1..], |first|)
    ensures [branch[0]] + first <= branch && '/' !in [branch[0]] + first && EndsAt(branch, |[branch[0]] + first|)
  {
  }

  ghost predicate DottedAfterFirst(branch: string) {
    exists k: nat :: 0 < k && Begins(branch, k) && branch[k] == '.'
  }

  ghost predicate SomeStartsDotted(parts: seq<string>) {
    exists k :: 0 <= k < |parts| && "." <= parts[k]
  }

  lemma StartsDotted(part: string)
    ensures "." <= part <==> (part != "" && part[0] == '.')
  {
  }

  lemma {:induction false} DottedComponents(branch: string)
    ensures "." <= Components(branch)[0] <==> (branch != "" && branch[0] == '.')
    ensures SomeStartsDotted(Components(branch)[1..]) <==> DottedAfterFirst(branch)
  {
    if branch != "" {
      var rest := branch[1..];
      var parts, later := Components(branch), Components(rest);
      DottedComponents(rest);
      SomeOf(later);
      StartsDotted(parts[0]);
      if branch[0] == '/' {
        assert parts[1..] == later;
      } else {
        assert parts[1..] == later[1..];
      }
      assert forall k: nat :: 1 < k ==> (Begins(branch, k) <==> Begins(rest, k - 1));
      assert forall k: nat :: 0 < k ==> (Begins(rest, k) <==> Begins(branch, k + 1));
      assert Begins(branch, 1) <==> (rest != "" && branch[0] == '/');
    }
  }

  lemma SomeOf(parts: seq<string>)
    requires parts != []
    ensures SomeStartsDotted(parts) <==> ("." <= parts[0] || SomeStartsDotted(parts[1..]))
    ensures SomeEndsLocked(parts) <==> (EndsWith(parts[0], ".lock") || SomeEndsLocked(parts[1..]))
  {
    assert forall k :: 0 < k < |parts| ==> parts[k] == parts[1..][k - 1];
    if SomeStartsDotted(parts[1..]) {
      var k :| 0 <= k < |parts[1..]| && "." <= parts[1..][k];
      assert "." <= parts[k + 1];
    }
    if SomeEndsLocked(parts[1..]) {
      var k :| 0 <= k < |parts[1..]| && EndsWith(parts[1..][k], ".lock");
      assert EndsWith(parts[k + 1], ".lock");
    }
  }

  ghost predicate SomeEndsLocked(parts: seq<string>) {
    exists k :: 0 <= k < |parts| && EndsWith(parts[k], ".lock")
  }

  ghost predicate LockedInFirst(branch: string) {
    exists k: nat :: LockAt(branch, k) && '/' !in branch[..k]
  }

  ghost predicate LockedAfterFirst(branch: string) {
    exists k: nat :: LockAt(branch, k) && '/' in branch[..k]
  }

  lemma {:induction false} FirstLocked(branch: string)
    ensures EndsWith(Components(branch)[0], ".lock") <==> LockedInFirst(branch)
  {
    var first := Components(branch)[0];
    FirstComponent(branch);
    if EndsWith(first, ".lock") {
      assert LockAt(branch, |first| - 5);
    }
    if k: nat :| LockAt(branch, k) && '/' !in branch[..k] {
      assert forall i :: k <= i < k + 5 ==> branch[i] == branch[k..k + 5][i - k];
      assert |first| == k + 5;
    }
  }

  lemma {:induction false} LockMoves(branch: string, k: nat)
    requires branch != ""
    ensures LockAt(branch, k + 1) <==> LockAt(branch[1..], k)
    ensures '/' in branch[..k + 1] <==> (branch[0] == '/' || '/' in branch[1..][..k])
    requires k + 1 <= |branch|
  {
    assert branch[..k + 1] == [branch[0]] + branch[1..][..k];
    assert k + 6 <= |branch| ==> branch[k + 1..k + 6] == branch[1..][k..k + 5];
  }

  lemma {:induction false} LockedComponents(branch: string)
    ensures SomeEndsLocked(Components(branch)[1..]) <==> LockedAfterFirst(branch)
  {
    if branch != "" {
      var rest := branch[1..];
      var parts, later := Components(branch), Components(rest);
      LockedComponents(rest);
      FirstLocked(rest);
      SomeOf(later);
      if branch[0] == '/' {
        assert parts[1..] == later;
      } else {
        assert parts[1..] == later[1..];
      }
      forall k: nat | k < |branch|
        ensures LockAt(branch, k + 1) <==> LockAt(rest, k)
        ensures '/' in branch[..k + 1] <==> (branch[0] == '/' || '/' in rest[..k])
      {
        LockMoves(branch, k);
      }
      if k: nat :| LockAt(branch, k) && '/' in branch[..k] {
        assert LockAt(rest, k - 1);
      }
      if k: nat :| LockAt(rest, k) && (branch[0] == '/' || '/' in rest[..k]) {
        assert LockAt(branch, k + 1);
      }
    }
  }

  lemma {:induction false} EndsIn(branch: string, c: char)
    ensures EndsWith(branch, [c]) <==> (branch != "" && branch[|branch| - 1] == c)
    ensures [c] <= branch <==> (branch != "" && branch[0] == c)
  {
  }

  lemma ComponentsFit(branch: string)
    ensures (forall k :: 0 <= k < |Components(branch)| ==> !("." <= Components(branch)[k])) <==> (forall k: nat :: Begins(branch, k) ==> branch[k] != '.')
    ensures (forall k :: 0 <= k < |Components(branch)| ==> !EndsWith(Components(branch)[k], ".lock")) <==> (forall k: nat :: !LockAt(branch, k))
  {
    DottedComponents(branch);
    FirstLocked(branch);
    LockedComponents(branch);
    SomeOf(Components(branch));
    assert Begins(branch, 0) <==> branch != "";
  }

  lemma EdgesFit(branch: string)
    ensures (branch != "" && !("-" <= branch) && !("/" <= branch) && !EndsWith(branch, "/") && !EndsWith(branch, ".")) <==> (
      |branch| > 0 && branch[0] != '-' && branch[0] != '/' && branch[|branch| - 1] != '/' && branch[|branch| - 1] != '.')
  {
    EndsIn(branch, '/');
    EndsIn(branch, '.');
    EndsIn(branch, '-');
    assert "/" == ['/'] && "." == ['.'] && "-" == ['-'];
  }

  lemma PairsFit(branch: string)
    ensures (!Contains(branch, "..") && !Contains(branch, "//")) <==>
      (forall k :: 0 < k < |branch| && branch[k - 1] == branch[k] ==> branch[k] != '.' && branch[k] != '/')
  {
    ContainsPair(branch, '.');
    ContainsPair(branch, '/');
    assert ".." == ['.', '.'] && "//" == ['/', '/'];
  }

  lemma {:induction false} IsBranchNameIff(branch: string)
    ensures IsBranchName(branch) <==> WellNamed(branch)
  {
    EdgesFit(branch);
    PairsFit(branch);
    ComponentsFit(branch);
    if forall k :: 0 <= k < |branch| ==> IsSafe(branch[k]) {
      ContainsNoBrace(branch);
    }
  }

  /** Exactly the well-named branches outside `refs/` and `origin/` are accepted, and turned into refs. */
  lemma {:induction false} BranchesAcceptedExactly(branch: string)
    ensures CanonicalReleaseBaseRef(branch) ==
      if WellNamed(branch) && !("refs/" <= branch) && !("origin/" <= branch) then Some("refs/heads/" + branch) else None
    ensures forall ref :: IsCanonicalRef(ref) <==> (|ref| >= 11 && ref[..11] == "refs/heads/" && WellNamed(ref[11..]))
  {
    IsBranchNameIff(branch);
    forall ref: string
      ensures IsCanonicalRef(ref) <==> (|ref| >= 11 && ref[..11] == "refs/heads/" && WellNamed(ref[11..]))
    {
      if |ref| >= 11 {
        IsBranchNameIff(ref[11..]);
      }
    }
  }

  // ----- What is accepted ------------------------------------------------------------------

  /** The trailer occurs exactly once, well formed, with this value. */
  ghost predicate SoleTrailer(paragraph: seq<string>, trailer: string, value: string) {
    exists k :: 0 <= k < |paragraph| && paragraph[k] == trailer + " " + value
      && forall l :: 0 <= l < |paragraph| && trailer <= paragraph[l] ==> l == k
  }

  lemma {:induction false} ValuesOfNone(paragraph: seq<string>, trailer: string)
    requires forall k :: 0 <= k < |paragraph| ==> !Malformed(paragraph[k], trailer)
    ensures Values(paragraph, trailer) == [] <==> forall k :: 0 <= k < |paragraph| ==> !(trailer <= paragraph[k])
  {
    if paragraph != [] {
      ValuesOfNone(paragraph[1..], trailer);
      assert forall k :: 0 < k < |paragraph| ==> paragraph[k] == paragraph[1..][k - 1];
      assert trailer + " " <= paragraph[0] ==> trailer <= paragraph[0];
      if forall k :: 0 <= k < |paragraph[1..]| ==> !(trailer <= paragraph[1..][k]) {
        assert forall k :: 0 < k < |paragraph| ==> !(trailer <= paragraph[k]);
      }
    }
  }

  lemma {:induction false} ValuesOfFirst(paragraph: seq<string>, trailer: string, value: string)
    requires paragraph != [] && trailer <= paragraph[0] && !Malformed(paragraph[0], trailer)
    requires forall k :: 0 <= k < |paragraph| ==> !Malformed(paragraph[k], trailer)
    ensures Values(paragraph, trailer) == [value] <==> SoleTrailer(paragraph, trailer, value)
  {
    var rest, first := paragraph[1..], paragraph[0][|trailer| + 1..];
    assert forall k :: 0 < k < |paragraph| ==> paragraph[k] == rest[k - 1];
    ValuesOfNone(rest, trailer);
    assert paragraph[0] == trailer + " " + first;
    assert Values(paragraph, trailer) == [first] + Values(rest, trailer);
    if SoleTrailer(paragraph, trailer, value) {
      assert forall k :: 0 <= k < |rest| ==> !(trailer <= rest[k]) by {
        forall k | 0 <= k < |rest|
          ensures !(trailer <= rest[k])
        {
          assert rest[k] == paragraph[k + 1];
        }
      }
      assert first == (trailer + " " + value)[|trailer| + 1..] == value;
    }
    if Values(paragraph, trailer) == [value] {
      assert ([first] + Values(rest, trailer))[0] == value && ([first] + Values(rest, trailer))[1..] == Values(rest, trailer);
    }
  }

  lemma {:induction false} SoleInRest(paragraph: seq<string>, trailer: string, value: string)
    requires paragraph != [] && !(trailer <= paragraph[0])
    ensures SoleTrailer(paragraph, trailer, value) <==> SoleTrailer(paragraph[1..], trailer, value)
  {
    var rest := paragraph[1..];
    assert forall k :: 0 < k < |paragraph| ==> paragraph[k] == rest[k - 1];
    if SoleTrailer(rest, trailer, value) {
      var k :| 0 <= k < |rest| && rest[k] == trailer + " " + value && forall l :: 0 <= l < |rest| && trailer <= rest[l] ==> l == k;
      assert paragraph[k + 1] == trailer + " " + value;
    }
    if SoleTrailer(paragraph, trailer, value) {
      var k :| 0 <= k < |paragraph| && paragraph[k] == trailer + " " + value
        && forall l :: 0 <= l < |paragraph| && trailer <= paragraph[l] ==> l == k;
      assert trailer <= paragraph[k];
      assert rest[k - 1] == trailer + " " + value;
    }
  }

  lemma {:induction false} SoleValue(paragraph: seq<string>, trailer: string, value: string)
    requires forall k :: 0 <= k < |paragraph| ==> !Malformed(paragraph[k], trailer)
    ensures Values(paragraph, trailer) == [value] <==> SoleTrailer(paragraph, trailer, value)
  {
    if paragraph != [] {
      if trailer <= paragraph[0] {
        ValuesOfFirst(paragraph, trailer, value);
      } else {
        SoleValue(paragraph[1..], trailer, value);
        SoleInRest(paragraph, trailer, value);
        assert !(trailer + " " <= paragraph[0]);
      }
    }
  }

  lemma {:induction false} NoneMalformed(paragraph: seq<string>)
    ensures FirstMalformed(paragraph).None? <==>
      forall k :: 0 <= k < |paragraph| ==> !Malformed(paragraph[k], REF_TRAILER) && !Malformed(paragraph[k], SHA_TRAILER)
  {
    if paragraph != [] {
      NoneMalformed(paragraph[1..]);
      assert forall k :: 0 < k < |paragraph| ==> paragraph[k] == paragraph[1..][k - 1];
    }
  }

  lemma SoleIsWellFormed(paragraph: seq<string>, trailer: string, value: string)
    requires SoleTrailer(paragraph, trailer, value)
    ensures forall k :: 0 <= k < |paragraph| ==> !Malformed(paragraph[k], trailer)
  {
  }

  /**
   A message is accepted exactly when its last paragraph holds each trailer once, well formed, with a
   canonical ref and a full SHA; these are then the result.
   */
  lemma {:induction false} ParseAcceptsExactly(message: string, metadata: Metadata)
    ensures Parse(message) == Ok(metadata) <==>
      && IsCanonicalRef(metadata.baseRef) && IsFullSha(metadata.baseSha)
      && SoleTrailer(LastParagraph(message), REF_TRAILER, metadata.baseRef)
      && SoleTrailer(LastParagraph(message), SHA_TRAILER, metadata.baseSha)
  {
    var paragraph := LastParagraph(message);
    NoneMalformed(paragraph);
    if FirstMalformed(paragraph).None? {
      SoleValue(paragraph, REF_TRAILER, metadata.baseRef);
      SoleValue(paragraph, SHA_TRAILER, metadata.baseSha);
    } else if SoleTrailer(paragraph, REF_TRAILER, metadata.baseRef) && SoleTrailer(paragraph, SHA_TRAILER, metadata.baseSha) {
      SoleIsWellFormed(paragraph, REF_TRAILER, metadata.baseRef);
      SoleIsWellFormed(paragraph, SHA_TRAILER, metadata.baseSha);
    }
  }

  /** The line begins with the trailer, but not with the trailer and a space. */
  ghost predicate BadLine(line: string) {
    || ("Release-base-ref:" <= line && !("Release-base-ref: " <= line))
    || ("Release-base-sha:" <= line && !("Release-base-sha: " <= line))
  }

  ghost predicate FirstBad(paragraph: seq<string>, k: nat) {
    k < |paragraph| && BadLine(paragraph[k]) && forall l :: 0 <= l < k ==> !BadLine(paragraph[l])
  }

  lemma BadIsMalformed(line: string)
    ensures BadLine(line) <==> Malformed(line, REF_TRAILER) || Malformed(line, SHA_TRAILER)
  {
    assert REF_TRAILER + " " == "Release-base-ref: " && SHA_TRAILER + " " == "Release-base-sha: ";
  }

  lemma {:induction false} FirstMalformedIs(paragraph: seq<string>, k: nat)
    requires FirstBad(paragraph, k)
    ensures FirstMalformed(paragraph) == Some(if REF_TRAILER <= paragraph[k] then MalformedRefTrailer else MalformedShaTrailer)
  {
    TrailersDiffer(paragraph[k]);
    BadIsMalformed(paragraph[0]);
    if k > 0 {
      assert forall l :: 0 <= l < k - 1 ==> paragraph[1..][l] == paragraph[l + 1];
      FirstMalformedIs(paragraph[1..], k - 1);
    }
  }

  lemma TrailersDiffer(line: string)
    ensures !(REF_TRAILER <= line && SHA_TRAILER <= line)
  {
    assert REF_TRAILER[13] == 'r' && SHA_TRAILER[13] == 's';
  }

  lemma {:induction false} FindBad(paragraph: seq<string>) returns (k: nat)
    requires FirstMalformed(paragraph).Some?
    ensures FirstBad(paragraph, k)
  {
    BadIsMalformed(paragraph[0]);
    k := 0;
    if !BadLine(paragraph[0]) {
      var rest := FindBad(paragraph[1..]);
      k := rest + 1;
      assert forall l :: 0 < l < |paragraph| ==> paragraph[l] == paragraph[1..][l - 1];
    }
  }

  lemma {:induction false} SoleIffOneValue(paragraph: seq<string>, trailer: string)
    requires forall k :: 0 <= k < |paragraph| ==> !Malformed(paragraph[k], trailer)
    ensures |Values(paragraph, trailer)| == 1 <==> exists value :: SoleTrailer(paragraph, trailer, value)
    ensures |Values(paragraph, trailer)| == 1 ==> SoleTrailer(paragraph, trailer, Values(paragraph, trailer)[0])
  {
    var values := Values(paragraph, trailer);
    if |values| == 1 {
      assert values == [values[0]];
      SoleValue(paragraph, trailer, values[0]);
    }
    if value :| SoleTrailer(paragraph, trailer, value) {
      SoleValue(paragraph, trailer, value);
    }
  }

  ghost predicate RefusedMalformed(paragraph: seq<string>, trailer: string) {
    exists k: nat :: FirstBad(paragraph, k) && trailer <= paragraph[k]
  }

  ghost predicate Occurs(paragraph: seq<string>, trailer: string) {
    exists value :: SoleTrailer(paragraph, trailer, value)
  }

  /** What a paragraph without a malformed trailer is refused for. */
  ghost predicate RefusedFor(p: seq<string>, error: Error) {
    match error
    case NotExactlyOne => !Occurs(p, "Release-base-ref:") || !Occurs(p, "Release-base-sha:")
    case InvalidRef => Occurs(p, "Release-base-sha:") && exists ref :: SoleTrailer(p, "Release-base-ref:", ref) && !IsCanonicalRef(ref)
    case InvalidSha => (
      && (exists ref :: SoleTrailer(p, "Release-base-ref:", ref) && IsCanonicalRef(ref))
      && (exists sha :: SoleTrailer(p, "Release-base-sha:", sha) && !IsFullSha(sha)))
    case _ => false
  }

  /** The values of a trailer are what it occurs with. */
  ghost predicate ValuesOf(p: seq<string>, trailer: string, values: seq<string>) {
    (|values| == 1 <==> Occurs(p, trailer)) && (|values| == 1 ==> SoleTrailer(p, trailer, values[0]))
  }

  lemma DecisionIsExact(p: seq<string>, refs: seq<string>, shas: seq<string>)
    requires ValuesOf(p, "Release-base-ref:", refs) && ValuesOf(p, "Release-base-sha:", shas)
    ensures Decide(refs, shas).Failed? ==> RefusedFor(p, Decide(refs, shas).error)
  {
  }

  lemma {:induction false} MalformationIsExact(p: seq<string>)
    ensures match FirstMalformed(p)
      case Some(error) => (
        || (error == MalformedRefTrailer && RefusedMalformed(p, "Release-base-ref:"))
        || (error == MalformedShaTrailer && RefusedMalformed(p, "Release-base-sha:")))
      case None => (forall k: nat :: !FirstBad(p, k))
  {
    if FirstMalformed(p).Some? {
      var k := FindBad(p);
      FirstMalformedIs(p, k);
    }
    forall k: nat | FirstBad(p, k)
      ensures FirstMalformed(p).Some?
    {
      FirstMalformedIs(p, k);
    }
  }

  /**
   Why a message is refused: for its first malformed trailer, if there is one; or else because a trailer does
   not occur exactly once; or else for a ref that is not canonical, and only then for its SHA.
   */
  lemma {:induction false} ParseRefusesExactly(message: string)
    requires Parse(message).Failed?
    ensures var p, error := LastParagraph(message), Parse(message).error;
      if exists k: nat :: FirstBad(p, k) then
        || (error == MalformedRefTrailer && RefusedMalformed(p, "Release-base-ref:"))
        || (error == MalformedShaTrailer && RefusedMalformed(p, "Release-base-sha:"))
      else RefusedFor(p, error)
  {
    var p := LastParagraph(message);
    MalformationIsExact(p);
    if FirstMalformed(p).None? {
      NoneMalformed(p);
      SoleIffOneValue(p, REF_TRAILER);
      SoleIffOneValue(p, SHA_TRAILER);
      DecisionIsExact(p, Values(p, REF_TRAILER), Values(p, SHA_TRAILER));
    }
  }

  /** The paragraph lies between the last blank line before it and the blank lines that end the message. */
  lemma {:induction false} LastParagraphIs(message: string) returns (i: nat, j: nat)
    ensures var lines := SplitLines(message);
      && i <= j <= |lines| && LastParagraph(message) == lines[i..j]
      && (forall k :: i <= k < j ==> lines[k] != "") && (i > 0 ==> lines[i - 1] == "")
      && (forall k :: j <= k < |lines| ==> lines[k] == "") && (j > 0 ==> j > i)
  {
    i, j := ParagraphIs(SplitLines(message));
  }

  lemma {:induction false} ParagraphIs(lines: seq<string>) returns (i: nat, j: nat)
    ensures i <= j <= |lines| && AfterLastBlank(DropBlankEnd(lines)) == lines[i..j]
    ensures (forall k :: i <= k < j ==> lines[k] != "") && (i > 0 ==> lines[i - 1] == "")
    ensures (forall k :: j <= k < |lines| ==> lines[k] == "") && (j > 0 ==> j > i)
  {
    j := BlankEnd(lines);
    i := BlankBefore(lines[..j]);
  }

  lemma {:induction false} BlankEnd(lines: seq<string>) returns (j: nat)
    ensures j <= |lines| && DropBlankEnd(lines) == lines[..j] && (forall k :: j <= k < |lines| ==> lines[k] == "") && (j > 0 ==> lines[j - 1] != "")
  {
    j := |lines|;
    if lines != [] && lines[|lines| - 1] == "" {
      j := BlankEnd(lines[..|lines| - 1]);
    }
  }

  lemma {:induction false} BlankBefore(lines: seq<string>) returns (i: nat)
    ensures i <= |lines| && AfterLastBlank(lines) == lines[i..] && (forall k :: i <= k < |lines| ==> lines[k] != "")
    ensures (i > 0 ==> lines[i - 1] == "") && (lines != [] && lines[|lines| - 1] != "" ==> i < |lines|)
  {
    i := |lines|;
    if lines != [] && lines[|lines| - 1] != "" {
      i := BlankBefore(lines[..|lines| - 1]);
    }
  }

  /** Verification accepts exactly when the trailers, both expected values and the parent all agree. */
  lemma {:induction false} VerifyAcceptsExactly(message: string, releaseParent: string, expectedRef: string, expectedSha: string, metadata: Metadata)
    ensures Verify(message, releaseParent, expectedRef, expectedSha) == Ok(metadata) <==>
      Parse(message) == Ok(metadata) && metadata == Metadata(expectedRef, expectedSha) && releaseParent == expectedSha
  {
    ParseAcceptsExactly(message, metadata);
  }

  // ----- The round trip --------------------------------------------------------------------

  /** The commit message of a release. */
  function ReleaseMessage(version: string, metadata: Metadata): string {
    "Release " + version + "\n\n" + REF_TRAILER + " " + metadata.baseRef + "\n" + SHA_TRAILER + " " + metadata.baseSha
  }

  /** Any number of line ends. */
  predicate OnlyLineEnds(text: string) {
    if text == "" then true
    else if text[0] == '\n' then OnlyLineEnds(text[1..])
    else |text| >= 2 && text[0] == '\r' && text[1] == '\n' && OnlyLineEnds(text[2..])
  }

  ghost predicate OneLine(line: string) {
    '\n' !in line && '\r' !in line
  }

  ghost predicate AllBlank(lines: seq<string>) {
    forall k :: 0 <= k < |lines| ==> lines[k] == ""
  }

  lemma {:induction false} BlankLines(text: string)
    requires OnlyLineEnds(text)
    ensures AllBlank(SplitLines(text))
  {
    if text != "" {
      BlankLines(text[if text[0] == '\n' then 1 else 2..]);
    }
  }

  lemma {:induction false} SplitLoneLine(line: string)
    requires OneLine(line)
    ensures SplitLines(line) == [line]
  {
    if line != "" {
      SplitLoneLine(line[1..]);
      SplitFirst(line);
      assert [line[0]] + line[1..] == line;
    }
  }

  /** A line, then a line end and more text. */
  lemma {:induction false} SplitLine(line: string, end: string, text: string)
    requires OneLine(line) && (end == "\n" || end == "\r\n")
    ensures SplitLines(line + end + text) == [line] + SplitLines(text)
  {
    var whole := line + end + text;
    if line == "" {
      assert whole == end + text && whole[|end|..] == text;
      SplitLineEnd(whole, SplitLines(text));
    } else {
      SplitLine(line[1..], end, text);
      assert whole[1..] == line[1..] + end + text && whole[0] == line[0];
      SplitFirst(whole);
      assert [line[0]] + line[1..] == line;
    }
  }

  lemma {:induction false} SplitLineAndBlanks(line: string, blanks: string)
    requires OneLine(line) && OnlyLineEnds(blanks)
    ensures SplitLines(line + blanks)[0] == line && AllBlank(SplitLines(line + blanks)[1..])
  {
    if blanks == "" {
      assert line + blanks == line;
      SplitLoneLine(line);
    } else {
      var end := if blanks[0] == '\n' then "\n" else "\r\n";
      var rest := blanks[|end|..];
      assert line + blanks == line + end + rest;
      SplitLine(line, end, rest);
      BlankLines(rest);
    }
  }

  /** One character of a text that is not a line end goes in front of the first line. */
  lemma SplitCharacter(text: string, lines: seq<string>, rest: seq<string>)
    requires text != "" && text[0] != '\n' && !(|text| >= 2 && text[0] == '\r' && text[1] == '\n')
    requires lines != [] && SplitLines(text[1..]) == lines + rest
    ensures SplitLines(text) == ([[text[0]] + lines[0]] + lines[1..]) + rest
  {
    SplitFirst(text);
    PrependToFirst(text[0], lines, rest);
  }

  lemma SplitFirst(text: string)
    requires text != "" && text[0] != '\n' && !(|text| >= 2 && text[0] == '\r' && text[1] == '\n')
    ensures SplitLines(text) == [[text[0]] + SplitLines(text[1..])[0]] + SplitLines(text[1..])[1..]
  {
  }

  lemma PrependToFirst(c: char, lines: seq<string>, rest: seq<string>)
    requires lines != []
    ensures [[c] + (lines + rest)[0]] + (lines + rest)[1..] == ([[c] + lines[0]] + lines[1..]) + rest
  {
    assert (lines + rest)[1..] == lines[1..] + rest;
  }

  lemma SplitLineEnd(text: string, lines: seq<string>)
    requires (|text| >= 1 && text[0] == '\n') || (|text| >= 2 && text[0] == '\r' && text[1] == '\n')
    requires SplitLines(text[if text[0] == '\n' then 1 else 2..]) == lines
    ensures SplitLines(text) == [""] + lines
  {
  }

  /** Whatever stands before a blank line, the text after it is split on its own. */
  lemma {:induction false} SplitAfterBlank(head: string, text: string) returns (before: seq<string>)
    ensures before != [] && SplitLines(head + "\n\n" + text) == before + ([""] + SplitLines(text))
    decreases |head|
  {
    var whole := head + "\n\n" + text;
    var after := [""] + SplitLines(text);
    if head == "" || head == "\r" {
      before := [""];
    } else {
      var skip := if head[0] == '\r' && head[1] == '\n' then 2 else 1;
      var rest := SplitAfterBlank(head[skip..], text);
      assert whole[skip..] == head[skip..] + "\n\n" + text;
      if head[0] == '\n' || skip == 2 {
        before := [""] + rest;
        SplitLineEnd(whole, rest + after);
        assert [""] + (rest + after) == before + after;
      } else {
        before := [[head[0]] + rest[0]] + rest[1..];
        SplitCharacter(whole, rest, after);
      }
    }
  }

  lemma {:induction false} DropsBlanks(lines: seq<string>, blanks: seq<string>)
    requires AllBlank(blanks) && lines != [] && lines[|lines| - 1] != ""
    ensures DropBlankEnd(lines + blanks) == lines
    decreases |blanks|
  {
    if blanks == [] {
      assert lines + blanks == lines;
    } else {
      var shorter := blanks[..|blanks| - 1];
      assert (lines + blanks)[..|lines + blanks| - 1] == lines + shorter;
      DropsBlanks(lines, shorter);
    }
  }

  lemma OneLineConcat(a: string, b: string)
    requires OneLine(a) && OneLine(b)
    ensures OneLine(a + b)
  {
  }

  lemma LiteralsAreOneLine()
    ensures OneLine(HEADS) && OneLine(REF_TRAILER + " ") && OneLine(SHA_TRAILER + " ")
  {
  }

  /** Lines of a canonical ref or a SHA hold no line end. */
  lemma {:induction false} MetadataIsOneLine(metadata: Metadata)
    requires IsCanonicalRef(metadata.baseRef) && IsFullSha(metadata.baseSha)
    ensures OneLine(REF_TRAILER + " " + metadata.baseRef) && OneLine(SHA_TRAILER + " " + metadata.baseSha)
  {
    LiteralsAreOneLine();
    OneLineConcat(HEADS, metadata.baseRef[|HEADS|..]);
    assert metadata.baseRef == HEADS + metadata.baseRef[|HEADS|..];
    OneLineConcat(REF_TRAILER + " ", metadata.baseRef);
    OneLineConcat(SHA_TRAILER + " ", metadata.baseSha);
  }

  lemma {:induction false} LastParagraphOf(before: seq<string>, refLine: string, shaLine: string, blanks: seq<string>, message: string)
    requires refLine != "" && shaLine != "" && AllBlank(blanks)
    requires SplitLines(message) == before + ([""] + ([refLine] + ([shaLine] + blanks)))
    ensures LastParagraph(message) == [refLine, shaLine]
  {
    var lines := before + [""] + [refLine, shaLine];
    assert SplitLines(message) == lines + blanks by {
      assert before + ([""] + ([refLine] + ([shaLine] + blanks))) == lines + blanks;
    }
    DropsBlanks(lines, blanks);
    assert lines[..|lines| - 1] == before + [""] + [refLine];
    assert (before + [""] + [refLine])[..|before| + 1] == before + [""];
    assert AfterLastBlank(before + [""]) == [];
    assert AfterLastBlank(before + [""] + [refLine]) == [refLine];
  }

  /** The printed commit message is this text. */
  lemma MessageText(version: string, branch: string, baseSha: string)
    ensures ReleaseMessage(version, Metadata("refs/heads/" + branch, baseSha)) ==
      "Release " + version + "\n\nRelease-base-ref: refs/heads/" + branch + "\nRelease-base-sha: " + baseSha
  {
    var refPart, shaPart := "\n\n" + REF_TRAILER + " " + "refs/heads/", "\n" + SHA_TRAILER + " ";
    assert refPart == "\n\nRelease-base-ref: refs/heads/" && shaPart == "\nRelease-base-sha: ";
    Regroup("Release " + version, "\n\n", REF_TRAILER, " ", "refs/heads/", branch);
    Regroup("Release " + version + refPart + branch, "\n", SHA_TRAILER, " ", "", baseSha);
    assert "" + baseSha == baseSha && "\n" + SHA_TRAILER + " " + "" == shaPart;
  }

  lemma Regroup(head: string, a: string, b: string, c: string, d: string, tail: string)
    ensures head + a + b + c + (d + tail) == head + (a + b + c + d) + tail
  {
  }

  /**
   For every accepted branch, version and SHA, reading back the printed commit message, with any
   number of line ends after it, returns exactly the ref of that branch and that SHA.
   */
  lemma {:induction false} ReleaseMessageRoundTrip(version: string, branch: string, baseSha: string, lineEnds: string)
    requires CanonicalReleaseBaseRef(branch).Some? && IsFullSha(baseSha) && OnlyLineEnds(lineEnds)
    ensures CanonicalReleaseBaseRef(branch) == Some("refs/heads/" + branch)
    ensures Parse("Release " + version + "\n\nRelease-base-ref: refs/heads/" + branch + "\nRelease-base-sha: " + baseSha + lineEnds)
      == Ok(Metadata("refs/heads/" + branch, baseSha))
  {
    var metadata := Metadata(HEADS + branch, baseSha);
    assert metadata.baseRef[|HEADS|..] == branch;
    PrintedTrailersAreRead(version, metadata, lineEnds);
    MessageText(version, branch, baseSha);
  }

  /** What was read from any message reads the same after being printed again. */
  lemma {:induction false} PrintedTrailersAreRead(version: string, metadata: Metadata, lineEnds: string)
    requires IsCanonicalRef(metadata.baseRef) && IsFullSha(metadata.baseSha) && OnlyLineEnds(lineEnds)
    ensures Parse(ReleaseMessage(version, metadata) + lineEnds) == Ok(metadata)
  {
    var message := ReleaseMessage(version, metadata) + lineEnds;
    MetadataIsOneLine(metadata);
    PrintedParagraph("Release " + version, REF_TRAILER + " " + metadata.baseRef, SHA_TRAILER + " " + metadata.baseSha, lineEnds, message);
    TwoTrailers(metadata);
    ParseAcceptsExactly(message, metadata);
  }

  lemma {:induction false} PrintedParagraph(head: string, refLine: string, shaLine: string, lineEnds: string, message: string)
    requires OneLine(refLine) && OneLine(shaLine) && refLine != "" && shaLine != "" && OnlyLineEnds(lineEnds)
    requires message == head + "\n\n" + refLine + "\n" + shaLine + lineEnds
    ensures LastParagraph(message) == [refLine, shaLine]
  {
    var text := refLine + "\n" + (shaLine + lineEnds);
    assert message == head + "\n\n" + text;
    var before := SplitAfterBlank(head, text);
    SplitLine(refLine, "\n", shaLine + lineEnds);
    SplitLineAndBlanks(shaLine, lineEnds);
    var last := SplitLines(shaLine + lineEnds);
    assert last == [shaLine] + last[1..];
    LastParagraphOf(before, refLine, shaLine, last[1..], message);
  }

  lemma TwoTrailers(metadata: Metadata)
    ensures var paragraph := [REF_TRAILER + " " + metadata.baseRef, SHA_TRAILER + " " + metadata.baseSha];
      SoleTrailer(paragraph, REF_TRAILER, metadata.baseRef) && SoleTrailer(paragraph, SHA_TRAILER, metadata.baseSha)
  {
    var paragraph := [REF_TRAILER + " " + metadata.baseRef, SHA_TRAILER + " " + metadata.baseSha];
    assert paragraph[0][8] == 'b' && paragraph[0][13] == 'r' && paragraph[1][13] == 's';
    assert REF_TRAILER[13] == 'r' && SHA_TRAILER[13] == 's';
  }

  // ----- The imperative code ---------------------------------------------------------------

  /** Pops the blank lines at the end, then the lines up to the blank one before. */
  method PopLastParagraph(message: string) returns (paragraph: seq<string>)
    ensures paragraph == LastParagraph(message)
  {
    var lines := SplitLines(message);
    while lines != [] && lines[|lines| - 1] == ""
      invariant DropBlankEnd(lines) == DropBlankEnd(SplitLines(message))
      decreases |lines|
    {
      lines := lines[..|lines| - 1];
    }
    paragraph := [];
    while |lines| > 0 && lines[|lines| - 1] != ""
      invariant AfterLastBlank(lines) + paragraph == LastParagraph(message)
      decreases |lines|
    {
      paragraph := [lines[|lines| - 1]] + paragraph;
      lines := lines[..|lines| - 1];
    }
  }

  /** One pass over the paragraph that stops at the first malformed trailer. */
  method CollectTrailers(paragraph: seq<string>) returns (malformed: Option<Error>, refs: seq<string>, shas: seq<string>)
    ensures malformed == FirstMalformed(paragraph)
    ensures malformed.None? ==> refs == Values(paragraph, REF_TRAILER) && shas == Values(paragraph, SHA_TRAILER)
  {
    malformed, refs, shas := None, [], [];
    for i := 0 to |paragraph|
      invariant FirstMalformed(paragraph) == FirstMalformed(paragraph[i..])
      invariant refs + Values(paragraph[i..], REF_TRAILER) == Values(paragraph, REF_TRAILER)
      invariant shas + Values(paragraph[i..], SHA_TRAILER) == Values(paragraph, SHA_TRAILER)
    {
      var line := paragraph[i];
      assert paragraph[i..][1..] == paragraph[i + 1..];
      if Malformed(line, REF_TRAILER) {
        return Some(MalformedRefTrailer), refs, shas;
      }
      if Malformed(line, SHA_TRAILER) {
        return Some(MalformedShaTrailer), refs, shas;
      }
      refs := TakeValue(refs, paragraph[i..], REF_TRAILER);
      shas := TakeValue(shas, paragraph[i..], SHA_TRAILER);
    }
  }

  method TakeValue(values: seq<string>, lines: seq<string>, trailer: string) returns (taken: seq<string>)
    requires lines != []
    ensures taken + Values(lines[1..], trailer) == values + Values(lines, trailer)
  {
    taken := if trailer + " " <= lines[0] then values + [lines[0][|trailer| + 1..]] else values;
  }

  method ParseReleaseBaseTrailers(message: string) returns (parsed: Parsed)
    ensures parsed == Parse(message)
  {
    var paragraph := PopLastParagraph(message);
    var malformed, refs, shas := CollectTrailers(paragraph);
    parsed := if malformed.Some? then Failed(malformed.value) else Decide(refs, shas);
  }
}
