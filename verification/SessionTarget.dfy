/**
 Resolving an intercom session by id, name or id prefix (packages/intercom/session-target.ts).
 `fold` stands for lower-casing and `trim` for trimming; every result holds for all such functions.
 */
module SessionTargets {
  import opened Sequences

  datatype Session = Session(id: string, name: Option<string>)

  datatype Resolution =
    | Resolved(session: Session)
    | AmbiguousName(matches: seq<Session>)
    | AmbiguousPrefix(matches: seq<Session>)
    | NotFound

  function WithId(sessions: seq<Session>, id: string): Option<Session> {
    if sessions == [] then None
    else if sessions[0].id == id then Some(sessions[0])
    else WithId(sessions[1..], id)
  }

  function Named(sessions: seq<Session>, lowerTarget: string, fold: string -> string): set<Session> {
    set s | s in sessions && s.name.Some? && fold(s.name.value) == lowerTarget
  }

  function Prefixed(sessions: seq<Session>, target: string): set<Session> {
    set s | s in sessions && target <= s.id
  }

  function Choose(exactId: Option<Session>, exactNames: seq<Session>, prefixedIds: seq<Session>): Resolution {
    if exactId.Some? then Resolved(exactId.value)
    else if |exactNames| == 1 then Resolved(exactNames[0])
    else if |exactNames| > 1 then AmbiguousName(exactNames)
    else if |prefixedIds| == 1 then Resolved(prefixedIds[0])
    else if |prefixedIds| > 1 then AmbiguousPrefix(prefixedIds)
    else NotFound
  }

  function ResolveSessionTarget(sessions: seq<Session>, nameOrId: string, fold: string -> string, trim: string -> string): Resolution {
    var target := trim(nameOrId);
    Choose(WithId(sessions, target),
           Within(sessions, Named(sessions, fold(target), fold)),
           Within(sessions, Prefixed(sessions, target)))
  }

  ghost predicate DistinctSessions(sessions: seq<Session>) {
    forall i, j :: 0 <= i < j < |sessions| ==> sessions[i].id != sessions[j].id
  }

  /** Same kind, same session, same set of matches. */
  ghost predicate SameOutcome(r: Resolution, q: Resolution) {
    match (r, q)
    case (Resolved(s), Resolved(t)) => s == t
    case (AmbiguousName(m), AmbiguousName(n)) => multiset(m) == multiset(n)
    case (AmbiguousPrefix(m), AmbiguousPrefix(n)) => multiset(m) == multiset(n)
    case (NotFound, NotFound) => true
    case _ => false
  }

  lemma {:induction false} WithIdFinds(sessions: seq<Session>, id: string)
    ensures WithId(sessions, id).Some? ==> WithId(sessions, id).value in sessions && WithId(sessions, id).value.id == id
    ensures WithId(sessions, id).None? ==> forall s :: s in sessions ==> s.id != id
  {
    if sessions != [] {
      WithIdFinds(sessions[1..], id);
    }
  }

  lemma {:induction false} SoleMatch(sessions: seq<Session>, k: set<Session>)
    requires DistinctSessions(sessions) && k <= ToSet(sessions)
    ensures |Within(sessions, k)| == 0 <==> k == {}
    ensures forall s :: (|Within(sessions, k)| == 1 && Within(sessions, k)[0] == s) <==> k == {s}
  {
    var w := Within(sessions, k);
    Members(sessions, k);
    SelectionDistinct(sessions, k);
    forall s
      ensures (|w| == 1 && w[0] == s) <==> k == {s}
    {
      if |w| == 1 && w[0] == s {
        assert forall x :: x in k ==> x in w;
      }
      if k == {s} {
        assert s in w;
        assert multiset(w)[s] == 1 by { DistinctCounts(w); }
        WithinCounts(sessions, k);
        assert multiset(w) == multiset{s};
        assert |multiset(w)| == |w|;
      }
    }
    assert |w| > 0 ==> w[0] in w;
  }

  /**
   A session is the answer exactly when it has the id, or nobody has and it alone has the name, or
   nobody has the id or the name and it alone has the prefix.
   */
  lemma {:induction false} ResolvedExactly(
      sessions: seq<Session>, nameOrId: string, fold: string -> string, trim: string -> string, session: Session)
    requires DistinctSessions(sessions)
    ensures
      var target := trim(nameOrId);
      var byName := Named(sessions, fold(target), fold);
      ResolveSessionTarget(sessions, nameOrId, fold, trim) == Resolved(session) <==>
        || (session in sessions && session.id == target)
        || ((forall s :: s in sessions ==> s.id != target) &&
            (byName == {session} || (byName == {} && Prefixed(sessions, target) == {session})))
  {
    var target := trim(nameOrId);
    WithIdFinds(sessions, target);
    SoleMatch(sessions, Named(sessions, fold(target), fold));
    SoleMatch(sessions, Prefixed(sessions, target));
  }

  lemma {:induction false} SeveralMatches(sessions: seq<Session>, k: set<Session>)
    requires DistinctSessions(sessions) && k <= ToSet(sessions)
    ensures |Within(sessions, k)| > 1 <==> exists s, t :: s in k && t in k && s != t
    ensures ToSet(Within(sessions, k)) == k && Distinct(Within(sessions, k))
  {
    var w := Within(sessions, k);
    Members(sessions, k);
    SelectionDistinct(sessions, k);
    if |w| > 1 {
      assert w[0] in k && w[1] in k && w[0] != w[1];
    }
  }

  /**
   Without a session of that id: several under the name are reported as such, all of them and each once;
   without any under the name, several under the prefix likewise; and without any at all nothing is found.
   */
  lemma {:induction false} FailuresAreExact(sessions: seq<Session>, nameOrId: string, fold: string -> string, trim: string -> string)
    requires DistinctSessions(sessions)
    ensures var target := trim(nameOrId);
      var r := ResolveSessionTarget(sessions, nameOrId, fold, trim);
      var noId := forall s :: s in sessions ==> s.id != target;
      var byName, byPrefix := Named(sessions, fold(target), fold), Prefixed(sessions, target);
      && (r.AmbiguousName? <==> noId && exists s, t :: s in byName && t in byName && s != t)
      && (r.AmbiguousName? ==> ToSet(r.matches) == byName && Distinct(r.matches))
      && (r.AmbiguousPrefix? <==> noId && byName == {} && exists s, t :: s in byPrefix && t in byPrefix && s != t)
      && (r.AmbiguousPrefix? ==> ToSet(r.matches) == byPrefix && Distinct(r.matches))
      && (r.NotFound? <==> noId && byName == {} && byPrefix == {})
  {
    var target := trim(nameOrId);
    WithIdFinds(sessions, target);
    SoleMatch(sessions, Named(sessions, fold(target), fold));
    SoleMatch(sessions, Prefixed(sessions, target));
    SeveralMatches(sessions, Named(sessions, fold(target), fold));
    SeveralMatches(sessions, Prefixed(sessions, target));
  }

  lemma {:induction false} WithIdIsOrderFree(sessions: seq<Session>, permuted: seq<Session>, id: string)
    requires DistinctSessions(sessions) && multiset(sessions) == multiset(permuted)
    ensures WithId(sessions, id) == WithId(permuted, id)
  {
    SamePermutationMembers(sessions, permuted);
    WithIdFinds(sessions, id);
    WithIdFinds(permuted, id);
  }

  lemma {:induction false} ChoiceIsOrderFree(
      exactId: Option<Session>, names: seq<Session>, prefixes: seq<Session>, names': seq<Session>, prefixes': seq<Session>)
    requires multiset(names) == multiset(names') && multiset(prefixes) == multiset(prefixes')
    ensures SameOutcome(Choose(exactId, names, prefixes), Choose(exactId, names', prefixes'))
  {
    assert |multiset(names)| == |names| && |multiset(names')| == |names'|;
    assert |multiset(prefixes)| == |prefixes| && |multiset(prefixes')| == |prefixes'|;
    if |names| == 1 {
      assert names[0] in multiset(names');
    }
    if |prefixes| == 1 {
      assert prefixes[0] in multiset(prefixes');
    }
  }

  /** The order in which sessions are listed never matters. */
  lemma {:induction false} ResolutionIsOrderFree(
      sessions: seq<Session>, permuted: seq<Session>, nameOrId: string, fold: string -> string, trim: string -> string)
    requires DistinctSessions(sessions) && multiset(sessions) == multiset(permuted)
    ensures SameOutcome(ResolveSessionTarget(sessions, nameOrId, fold, trim), ResolveSessionTarget(permuted, nameOrId, fold, trim))
  {
    var target := trim(nameOrId);
    var byName, byPrefix := Named(sessions, fold(target), fold), Prefixed(sessions, target);
    SamePermutationMembers(sessions, permuted);
    assert byName == Named(permuted, fold(target), fold) && byPrefix == Prefixed(permuted, target);
    WithIdIsOrderFree(sessions, permuted, target);
    WithinOfPermutation(sessions, permuted, byName);
    WithinOfPermutation(sessions, permuted, byPrefix);
    ChoiceIsOrderFree(WithId(sessions, target), Within(sessions, byName), Within(sessions, byPrefix),
                      Within(permuted, byName), Within(permuted, byPrefix));
  }
}
