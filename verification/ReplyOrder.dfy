/**
 When the order of the pending asks decides what a reply answers (packages/intercom/reply-tracker.ts:59-88).
 A sender is known by the name on its latest ask, so a sender whose asks bear different names may match a
 target under one order and not under another.
 */
module ReplyOrders {
  import opened Sequences
  import opened SessionTargets
  import opened ReplyTrackers

  /** What the caller of `resolveReplyTarget` can tell apart: an answered ask, or an error by its kind and ids. */
  datatype Verdict =
    | Answered(context: Context)
    | Several
    | Nobody
    | SharedName(ids: set<string>)
    | SharedPrefix(ids: set<string>)
    | Untargeted(count: nat)

  function IdsOf(sessions: seq<Session>): set<string> {
    set s | s in sessions :: s.id
  }

  function VerdictOf(reply: Reply): Verdict {
    match reply
    case Answers(c) => Answered(c)
    case MultipleFrom => Several
    case NoneFrom => Nobody
    case NoContext => Untargeted(0)
    case MultiplePending => Untargeted(2)
    case Ambiguous(AmbiguousName(matches)) => SharedName(IdsOf(matches))
    case Ambiguous(AmbiguousPrefix(matches)) => SharedPrefix(IdsOf(matches))
    case Ambiguous(_) => Nobody
  }

  predicate Permuted(pending: seq<Context>, permuted: seq<Context>) {
    multiset(pending) == multiset(permuted)
  }

  // ----- Senders and names -----------------------------------------------------------------

  function SenderIds(pending: seq<Context>): set<string> {
    set c | c in pending :: c.from.id
  }

  predicate Bears(s: Session, target: string, fold: string -> string) {
    s.name.Some? && fold(s.name.value) == fold(target)
  }

  /** The asks whose sender bore the name. */
  function Bearing(pending: seq<Context>, target: string, fold: string -> string): set<Context> {
    set c | c in pending && Bears(c.from, target, fold)
  }

  /** The sender of the latest ask with this id. */
  function Latest(pending: seq<Context>, id: string): Option<Session> {
    if pending == [] then None
    else if pending[|pending| - 1].from.id == id then Some(pending[|pending| - 1].from)
    else Latest(pending[..|pending| - 1], id)
  }

  function Sometimes(pending: seq<Context>, target: string, fold: string -> string): set<string> {
    set c | c in pending && Bears(c.from, target, fold) :: c.from.id
  }

  function Otherwise(pending: seq<Context>, target: string, fold: string -> string): set<string> {
    set c | c in pending && !Bears(c.from, target, fold) :: c.from.id
  }

  /** Senders with an ask under the name and an ask under another, or none. */
  function Mixed(pending: seq<Context>, target: string, fold: string -> string): set<string> {
    Sometimes(pending, target, fold) * Otherwise(pending, target, fold)
  }

  /** Senders all of whose asks bear the name. */
  function Always(pending: seq<Context>, target: string, fold: string -> string): set<string> {
    Sometimes(pending, target, fold) - Otherwise(pending, target, fold)
  }

  function PrefixIds(pending: seq<Context>, target: string): set<string> {
    set id | id in SenderIds(pending) && target <= id
  }

  function AsksFrom(pending: seq<Context>, id: string): nat {
    |Within(pending, FromId(pending, id))|
  }

  /** The senders that bear the name on their latest ask. */
  function NamedNow(pending: seq<Context>, target: string, fold: string -> string): set<string> {
    set id | id in SenderIds(pending) && Latest(pending, id).Some? && Bears(Latest(pending, id).value, target, fold)
  }

  /** A caller can test this: the order of these asks does not matter to a reply to this target. */
  predicate OrderFree(pending: seq<Context>, target: string, fold: string -> string) {
    || target in SenderIds(pending)
    || Mixed(pending, target, fold) == {}
    || (&& Always(pending, target, fold) == {} && |Mixed(pending, target, fold)| == 1
        && |PrefixIds(pending, target)| == 1
        && forall id :: id in PrefixIds(pending, target) ==> AsksFrom(pending, id) > 1)
  }

  // ----- The verdict by ids ----------------------------------------------------------------

  ghost function FromOne(pending: seq<Context>, id: string): Verdict {
    var matches := Within(pending, FromId(pending, id));
    if |matches| == 1 then Answered(matches[0]) else if |matches| > 1 then Several else Nobody
  }

  ghost function Only(ids: set<string>): (id: string)
    requires |ids| == 1
    ensures ids == {id}
  {
    var id :| id in ids;
    assert |ids - {id}| == 0;
    assert ids == {id} + (ids - {id});
    id
  }

  /** The verdict, given which senders bear the name. */
  ghost function ByIds(pending: seq<Context>, named: set<string>, target: string): Verdict {
    var prefixed := PrefixIds(pending, target);
    if target in SenderIds(pending) then FromOne(pending, target)
    else if |named| == 1 then FromOne(pending, Only(named))
    else if |named| > 1 then SharedName(named)
    else if |prefixed| == 1 then FromOne(pending, Only(prefixed))
    else if |prefixed| > 1 then SharedPrefix(prefixed)
    else Nobody
  }

  lemma {:induction false} SendersAreLatest(pending: seq<Context>)
    ensures DistinctSessions(Senders(pending))
    ensures forall s :: s in Senders(pending) <==> Latest(pending, s.id) == Some(s)
    ensures forall id :: Latest(pending, id).Some? <==> id in SenderIds(pending)
    ensures forall id :: Latest(pending, id).Some? ==> Latest(pending, id).value.id == id
  {
    if pending != [] {
      var init, last := pending[..|pending| - 1], pending[|pending| - 1];
      assert pending == init + [last];
      SendersAreLatest(init);
      PutSenderMembers(Senders(init), last.from);
      assert SenderIds(pending) == SenderIds(init) + {last.from.id};
    }
  }

  lemma {:induction false} LatestIsAnAsk(pending: seq<Context>, id: string)
    ensures Latest(pending, id).Some? ==> exists c :: c in pending && c.from == Latest(pending, id).value && c.from.id == id
  {
    if pending != [] {
      LatestIsAnAsk(pending[..|pending| - 1], id);
    }
  }

  /** Selecting from the senders is selecting ids, one for one. */
  lemma {:induction false} SelectedIds(sessions: seq<Session>, k: set<Session>, ids: set<string>)
    requires DistinctSessions(sessions) && k <= ToSet(sessions)
    requires ids == set s | s in k :: s.id
    ensures IdsOf(Within(sessions, k)) == ids
    ensures |Within(sessions, k)| == |ids|
    ensures |ids| == 1 ==> Within(sessions, k)[0].id == Only(ids)
  {
    var w := Within(sessions, k);
    Members(sessions, k);
    SelectionDistinct(sessions, k);
    assert IdsOf(w) == ids;
    forall i, j | 0 <= i < j < |w|
      ensures w[i].id != w[j].id
    {
      assert w[i] in sessions && w[j] in sessions && w[i] != w[j];
    }
    CountIds(w);
    if |w| == 1 {
      assert w[0].id in ids;
    }
  }

  lemma {:induction false} CountIds(sessions: seq<Session>)
    requires DistinctSessions(sessions)
    ensures |IdsOf(sessions)| == |sessions|
  {
    if sessions != [] {
      CountIds(sessions[1..]);
      assert sessions == [sessions[0]] + sessions[1..];
      assert IdsOf(sessions) == {sessions[0].id} + IdsOf(sessions[1..]);
      assert sessions[0].id !in IdsOf(sessions[1..]);
    }
  }

  /** What resolving the target among the senders yields, in terms of ids. */
  ghost predicate ResolvesTo(r: Resolution, ids: set<string>, named: set<string>, prefixed: set<string>, target: string) {
    if target in ids then r.Resolved? && r.session.id == target
    else if |named| == 1 then r.Resolved? && r.session.id == Only(named)
    else if |named| > 1 then r.AmbiguousName? && IdsOf(r.matches) == named
    else if |prefixed| == 1 then r.Resolved? && r.session.id == Only(prefixed)
    else if |prefixed| > 1 then r.AmbiguousPrefix? && IdsOf(r.matches) == prefixed
    else r.NotFound?
  }

  lemma {:induction false} ResolvedByIds(pending: seq<Context>, to: string, fold: string -> string, trim: string -> string)
    ensures ResolvesTo(ResolveSessionTarget(Senders(pending), to, fold, trim),
              SenderIds(pending), NamedNow(pending, trim(to), fold), PrefixIds(pending, trim(to)), trim(to))
  {
    var target, senders := trim(to), Senders(pending);
    SendersAreLatest(pending);
    WithIdFinds(senders, target);
    NamedIds(pending, target, fold);
    SelectedIds(senders, Named(senders, fold(target), fold), NamedNow(pending, target, fold));
    PrefixedIds(pending, target);
    SelectedIds(senders, Prefixed(senders, target), PrefixIds(pending, target));
    if target in SenderIds(pending) {
      assert Latest(pending, target).value in senders;
    }
  }

  /** A reply depends on the asks only through who bears the name, who has the prefix, and how many asks each has. */
  lemma {:induction false} ReplyIsByIds(pending: seq<Context>, to: string, fold: string -> string, trim: string -> string)
    requires to != ""
    ensures VerdictOf(ReplyTarget(None, pending, to, fold, trim)) == ByIds(pending, NamedNow(pending, trim(to), fold), trim(to))
  {
    ResolvedByIds(pending, to, fold, trim);
  }

  lemma {:induction false} NamedIds(pending: seq<Context>, target: string, fold: string -> string)
    ensures NamedNow(pending, target, fold) == set s | s in Named(Senders(pending), fold(target), fold) :: s.id
  {
    SendersAreLatest(pending);
    var named := Named(Senders(pending), fold(target), fold);
    forall id
      ensures id in NamedNow(pending, target, fold) <==> exists s :: s in named && s.id == id
    {
      if id in NamedNow(pending, target, fold) {
        assert Latest(pending, id).value in named;
      }
    }
  }

  lemma {:induction false} PrefixedIds(pending: seq<Context>, target: string)
    ensures PrefixIds(pending, target) == set s | s in Prefixed(Senders(pending), target) :: s.id
  {
    SendersAreLatest(pending);
    var prefixed := Prefixed(Senders(pending), target);
    forall id
      ensures id in PrefixIds(pending, target) <==> exists s :: s in prefixed && s.id == id
    {
      if id in PrefixIds(pending, target) {
        assert Latest(pending, id).value in prefixed;
      }
    }
  }

  // ----- What a permutation keeps ----------------------------------------------------------

  lemma {:induction false} PermutedKeeps(pending: seq<Context>, permuted: seq<Context>, target: string, fold: string -> string)
    requires Permuted(pending, permuted)
    ensures SenderIds(pending) == SenderIds(permuted) && PrefixIds(pending, target) == PrefixIds(permuted, target)
    ensures Sometimes(pending, target, fold) == Sometimes(permuted, target, fold)
    ensures Otherwise(pending, target, fold) == Otherwise(permuted, target, fold)
  {
    SamePermutationMembers(pending, permuted);
  }

  lemma {:induction false} FromOneIsOrderFree(pending: seq<Context>, permuted: seq<Context>, id: string)
    requires Permuted(pending, permuted)
    ensures FromOne(pending, id) == FromOne(permuted, id)
  {
    MatchesAreOrderFree(pending, permuted, id);
  }

  lemma {:induction false} ByIdsIsOrderFree(pending: seq<Context>, permuted: seq<Context>, named: set<string>, target: string, fold: string -> string)
    requires Permuted(pending, permuted)
    ensures ByIds(pending, named, target) == ByIds(permuted, named, target)
  {
    PermutedKeeps(pending, permuted, target, fold);
    if target in SenderIds(pending) {
      FromOneIsOrderFree(pending, permuted, target);
    } else if |named| == 1 {
      FromOneIsOrderFree(pending, permuted, Only(named));
    } else if |PrefixIds(pending, target)| == 1 {
      FromOneIsOrderFree(pending, permuted, Only(PrefixIds(pending, target)));
    }
  }

  /** Whatever the order: a sender that always bears the name bears it now, one that never does does not. */
  lemma {:induction false} NamedNowBetween(pending: seq<Context>, target: string, fold: string -> string)
    ensures Always(pending, target, fold) <= NamedNow(pending, target, fold) <= Sometimes(pending, target, fold)
  {
    SendersAreLatest(pending);
    forall id | id in SenderIds(pending)
      ensures id in NamedNow(pending, target, fold) ==> id in Sometimes(pending, target, fold)
      ensures id in Always(pending, target, fold) ==> id in NamedNow(pending, target, fold)
    {
      LatestIsAnAsk(pending, id);
    }
  }

  // ----- The two extreme orders ------------------------------------------------------------

  /** The asks under the name first, or last. */
  function BearingFirst(pending: seq<Context>, target: string, fold: string -> string): seq<Context> {
    Within(pending, Bearing(pending, target, fold)) + Without(pending, Bearing(pending, target, fold))
  }

  function BearingLast(pending: seq<Context>, target: string, fold: string -> string): seq<Context> {
    Without(pending, Bearing(pending, target, fold)) + Within(pending, Bearing(pending, target, fold))
  }

  lemma {:induction false} LatestOfConcat(first: seq<Context>, rest: seq<Context>, id: string)
    ensures Latest(first + rest, id) == if id in SenderIds(rest) then Latest(rest, id) else Latest(first, id)
  {
    if rest == [] {
      assert first + rest == first;
    } else {
      var init, last := rest[..|rest| - 1], rest[|rest| - 1];
      assert rest == init + [last];
      assert (first + rest)[..|first + rest| - 1] == first + init;
      assert SenderIds(rest) == SenderIds(init) + {last.from.id};
      LatestOfConcat(first, init, id);
    }
  }

  lemma {:induction false} ExtremesArePermutations(pending: seq<Context>, target: string, fold: string -> string)
    ensures Permuted(pending, BearingFirst(pending, target, fold)) && Permuted(pending, BearingLast(pending, target, fold))
  {
    Partition(pending, Bearing(pending, target, fold));
  }

  lemma {:induction false} NamedAtExtremes(pending: seq<Context>, target: string, fold: string -> string)
    ensures NamedNow(BearingFirst(pending, target, fold), target, fold) == Always(pending, target, fold)
    ensures NamedNow(BearingLast(pending, target, fold), target, fold) == Sometimes(pending, target, fold)
  {
    var bearing := Bearing(pending, target, fold);
    var named, other := Within(pending, bearing), Without(pending, bearing);
    Members(pending, bearing);
    SendersAreLatest(named);
    SendersAreLatest(other);
    forall id
      ensures id in NamedNow(named + other, target, fold) <==> id in Always(pending, target, fold)
      ensures id in NamedNow(other + named, target, fold) <==> id in Sometimes(pending, target, fold)
    {
      LatestOfConcat(named, other, id);
      LatestOfConcat(other, named, id);
      LatestIsAnAsk(named, id);
      LatestIsAnAsk(other, id);
    }
  }

  // ----- The exact condition ---------------------------------------------------------------

  lemma {:induction false} MixedHasTwoAsks(pending: seq<Context>, target: string, fold: string -> string, id: string)
    requires id in Mixed(pending, target, fold)
    ensures AsksFrom(pending, id) > 1
  {
    var c :| c in pending && Bears(c.from, target, fold) && c.from.id == id;
    var d :| d in pending && !Bears(d.from, target, fold) && d.from.id == id;
    var m := Within(pending, FromId(pending, id));
    Members(pending, FromId(pending, id));
    assert c in m && d in m && c != d;
  }

  lemma {:induction false} SeveralBearersDiffer(pending: seq<Context>, always: set<string>, sometimes: set<string>, target: string)
    requires target !in SenderIds(pending) && always < sometimes && |sometimes| > 1
    ensures ByIds(pending, always, target) != ByIds(pending, sometimes, target)
  {
    assert ByIds(pending, sometimes, target) == SharedName(sometimes);
  }

  /** With some sender mixed, the two extremes agree only in the one case in which both find several asks. */
  lemma {:induction false} ExtremesAgreeIff(pending: seq<Context>, target: string, fold: string -> string)
    requires target !in SenderIds(pending) && Mixed(pending, target, fold) != {}
    ensures ByIds(pending, Always(pending, target, fold), target) == ByIds(pending, Sometimes(pending, target, fold), target)
      <==> OrderFree(pending, target, fold)
  {
    var always, sometimes, mixed := Always(pending, target, fold), Sometimes(pending, target, fold), Mixed(pending, target, fold);
    assert sometimes == always + mixed && always !! mixed;
    assert |sometimes| == |always| + |mixed|;
    if |sometimes| > 1 {
      SeveralBearersDiffer(pending, always, sometimes, target);
    } else {
      assert always == {} && sometimes == mixed;
      MixedHasTwoAsks(pending, target, fold, Only(mixed));
    }
  }

  lemma {:induction false} SameVerdictWhenOrderFree(
      pending: seq<Context>, permuted: seq<Context>, to: string, fold: string -> string, trim: string -> string)
    requires to != "" && Permuted(pending, permuted) && OrderFree(pending, trim(to), fold)
    ensures VerdictOf(ReplyTarget(None, pending, to, fold, trim)) == VerdictOf(ReplyTarget(None, permuted, to, fold, trim))
  {
    var target := trim(to);
    ReplyIsByIds(pending, to, fold, trim);
    ReplyIsByIds(permuted, to, fold, trim);
    PermutedKeeps(pending, permuted, target, fold);
    NamedNowBetween(pending, target, fold);
    NamedNowBetween(permuted, target, fold);
    var named, named' := NamedNow(pending, target, fold), NamedNow(permuted, target, fold);
    ByIdsIsOrderFree(pending, permuted, named', target, fold);
    if target !in SenderIds(pending) {
      if Mixed(pending, target, fold) == {} {
        assert named == named';
      } else {
        BothFindSeveral(pending, target, fold, named);
        BothFindSeveral(pending, target, fold, named');
      }
    }
  }

  lemma {:induction false} BothFindSeveral(pending: seq<Context>, target: string, fold: string -> string, named: set<string>)
    requires target !in SenderIds(pending) && Mixed(pending, target, fold) != {} && OrderFree(pending, target, fold)
    requires named <= Sometimes(pending, target, fold)
    ensures ByIds(pending, named, target) == Several
  {
    var mixed := Mixed(pending, target, fold);
    assert Sometimes(pending, target, fold) == Always(pending, target, fold) + mixed;
    assert mixed == {Only(mixed)};
    MixedHasTwoAsks(pending, target, fold, Only(mixed));
    if named != {} {
      assert named == mixed;
    }
  }

  /** The same verdict under every order of these asks. */
  ghost predicate NeverMatters(pending: seq<Context>, to: string, fold: string -> string, trim: string -> string) {
    forall permuted :: Permuted(pending, permuted) ==>
      VerdictOf(ReplyTarget(None, permuted, to, fold, trim)) == VerdictOf(ReplyTarget(None, pending, to, fold, trim))
  }

  /**
   Outside a turn the order of the pending asks never matters to a reply if and only if there is no target,
   or the target is a sender's id, or no sender is mixed, or the one mixed sender is the only one that ever
   bears the name and a single sender with several asks has the prefix.
   */
  lemma {:induction false} OrderNeverMattersIff(pending: seq<Context>, to: string, fold: string -> string, trim: string -> string)
    ensures NeverMatters(pending, to, fold, trim) <==> to == "" || OrderFree(pending, trim(to), fold)
  {
    if to == "" || OrderFree(pending, trim(to), fold) {
      forall permuted | Permuted(pending, permuted)
        ensures VerdictOf(ReplyTarget(None, permuted, to, fold, trim)) == VerdictOf(ReplyTarget(None, pending, to, fold, trim))
      {
        if to == "" {
          UntargetedIsOrderFree(pending, permuted, fold, trim);
        } else {
          SameVerdictWhenOrderFree(pending, permuted, to, fold, trim);
        }
      }
    } else if NeverMatters(pending, to, fold, trim) {
      ExtremesDiffer(pending, to, fold, trim);
    }
  }

  lemma {:induction false} UntargetedIsOrderFree(pending: seq<Context>, permuted: seq<Context>, fold: string -> string, trim: string -> string)
    requires Permuted(pending, permuted)
    ensures ReplyTarget(None, pending, "", fold, trim) == ReplyTarget(None, permuted, "", fold, trim)
  {
    assert |multiset(pending)| == |pending| && |multiset(permuted)| == |permuted|;
    if |pending| == 1 {
      assert pending[0] in multiset(permuted);
    }
  }

  lemma {:induction false} ExtremesDiffer(pending: seq<Context>, to: string, fold: string -> string, trim: string -> string)
    requires to != "" && !OrderFree(pending, trim(to), fold)
    ensures !NeverMatters(pending, to, fold, trim)
  {
    var target := trim(to);
    var first, last := BearingFirst(pending, target, fold), BearingLast(pending, target, fold);
    ExtremesArePermutations(pending, target, fold);
    NamedAtExtremes(pending, target, fold);
    ReplyIsByIds(first, to, fold, trim);
    ReplyIsByIds(last, to, fold, trim);
    ByIdsIsOrderFree(pending, first, Always(pending, target, fold), target, fold);
    ByIdsIsOrderFree(pending, last, Sometimes(pending, target, fold), target, fold);
    ExtremesAgreeIff(pending, target, fold);
  }
}
