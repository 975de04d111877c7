/** Order-preserving selection from sequences, shared by the queue, routing and diff models. */
module Sequences {

  datatype Option<+T> = None | Some(value: T)

  function ToSet<T(==)>(s: seq<T>): set<T> {
    set e | e in s
  }

  ghost predicate Distinct<T(!new)>(s: seq<T>) {
    forall i, j :: 0 <= i < j < |s| ==> s[i] != s[j]
  }

  /** s can be obtained from t by leaving elements out. */
  ghost predicate Subsequence<T(!new)>(s: seq<T>, t: seq<T>) {
    if s == [] then true
    else if t == [] then false
    else (s[0] == t[0] && Subsequence(s[1..], t[1..])) || Subsequence(s, t[1..])
  }

  /** The elements of s that are in keep, in their order. */
  function Within<T(==)>(s: seq<T>, keep: set<T>): seq<T> {
    if s == [] then [] else (if s[0] in keep then [s[0]] else []) + Within(s[1..], keep)
  }

  /** The elements of s that are not in drop, in their order. */
  function Without<T(==)>(s: seq<T>, drop: set<T>): seq<T> {
    if s == [] then [] else (if s[0] in drop then [] else [s[0]]) + Without(s[1..], drop)
  }

  /** s with its first occurrence of e taken out. */
  function RemoveFirst<T(==)>(s: seq<T>, e: T): seq<T> {
    if s == [] then [] else if s[0] == e then s[1..] else [s[0]] + RemoveFirst(s[1..], e)
  }

  lemma {:induction false} Members<T(!new)>(s: seq<T>, k: set<T>)
    ensures forall e :: e in Within(s, k) <==> e in s && e in k
    ensures forall e :: e in Without(s, k) <==> e in s && e !in k
  {
    if s != [] {
      Members(s[1..], k);
      assert s == [s[0]] + s[1..];
    }
  }

  /** Within and Without split s in two parts that add up to s. */
  lemma {:induction false} Partition<T>(s: seq<T>, k: set<T>)
    ensures multiset(Within(s, k)) + multiset(Without(s, k)) == multiset(s)
  {
    if s != [] {
      Partition(s[1..], k);
      assert s == [s[0]] + s[1..];
    }
  }

  lemma {:induction false} WithinCounts<T(!new)>(s: seq<T>, k: set<T>)
    ensures forall e :: multiset(Within(s, k))[e] == if e in k then multiset(s)[e] else 0
  {
    if s != [] {
      WithinCounts(s[1..], k);
      assert s == [s[0]] + s[1..];
    }
  }

  /** Selecting from a permuted sequence selects a permutation. */
  lemma {:induction false} WithinOfPermutation<T(!new)>(s: seq<T>, t: seq<T>, k: set<T>)
    requires multiset(s) == multiset(t)
    ensures multiset(Within(s, k)) == multiset(Within(t, k))
    ensures |Within(s, k)| == |Within(t, k)|
  {
    WithinCounts(s, k);
    WithinCounts(t, k);
    assert |multiset(Within(s, k))| == |Within(s, k)| && |multiset(Within(t, k))| == |Within(t, k)|;
  }

  lemma {:induction false} SamePermutationMembers<T(!new)>(s: seq<T>, t: seq<T>)
    requires multiset(s) == multiset(t)
    ensures forall e :: e in s <==> e in t
  {
    forall e
      ensures e in s <==> e in t
    {
      assert e in s <==> e in multiset(s);
      assert e in t <==> e in multiset(t);
    }
  }

  /** Neither part reorders anything. */
  lemma {:induction false} SelectionKeepsOrder<T(!new)>(s: seq<T>, k: set<T>)
    ensures Subsequence(Within(s, k), s)
    ensures Subsequence(Without(s, k), s)
  {
    if s != [] {
      SelectionKeepsOrder(s[1..], k);
      SubsequenceWeakens(Within(s[1..], k), s);
      SubsequenceWeakens(Without(s[1..], k), s);
      if s[0] in k {
        assert Within(s, k)[1..] == Within(s[1..], k) && Without(s, k) == Without(s[1..], k);
      } else {
        assert Without(s, k)[1..] == Without(s[1..], k) && Within(s, k) == Within(s[1..], k);
      }
    }
  }

  /** What fits in the rest of t fits in t. */
  lemma {:induction false} SubsequenceWeakens<T(!new)>(s: seq<T>, t: seq<T>)
    requires t != [] && Subsequence(s, t[1..])
    ensures Subsequence(s, t)
  {
  }

  lemma {:induction false} SubsequenceTails<T(!new)>(s: seq<T>, t: seq<T>)
    requires s != [] && Subsequence(s, t)
    ensures Subsequence(s[1..], t[1..])
  {
    if !(s[0] == t[0] && Subsequence(s[1..], t[1..])) {
      SubsequenceTails(s, t[1..]);
      SubsequenceWeakens(s[1..], t[1..]);
    }
  }

  lemma Assoc<T>(a: seq<T>, b: seq<T>, c: seq<T>)
    ensures a + (b + c) == (a + b) + c
  {
  }

  lemma {:induction false} WithinConcat<T>(s: seq<T>, t: seq<T>, keep: set<T>)
    ensures Within(s + t, keep) == Within(s, keep) + Within(t, keep)
  {
    if s == [] {
      assert s + t == t;
    } else {
      WithinConcat(s[1..], t, keep);
      assert (s + t)[1..] == s[1..] + t;
      Assoc(if s[0] in keep then [s[0]] else [], Within(s[1..], keep), Within(t, keep));
    }
  }

  lemma {:induction false} WithoutConcat<T>(s: seq<T>, t: seq<T>, drop: set<T>)
    ensures Without(s + t, drop) == Without(s, drop) + Without(t, drop)
  {
    if s == [] {
      assert s + t == t;
    } else {
      WithoutConcat(s[1..], t, drop);
      assert (s + t)[1..] == s[1..] + t;
      Assoc(if s[0] in drop then [] else [s[0]], Without(s[1..], drop), Without(t, drop));
    }
  }

  /** Only the members of s decide what is dropped. */
  lemma {:induction false} WithoutSame<T>(s: seq<T>, drop: set<T>, drop': set<T>)
    requires forall e :: e in s ==> (e in drop <==> e in drop')
    ensures Without(s, drop) == Without(s, drop')
  {
    if s != [] {
      WithoutSame(s[1..], drop, drop');
    }
  }

  lemma {:induction false} WithoutAll<T>(s: seq<T>, drop: set<T>)
    requires forall e :: e in s ==> e in drop
    ensures Without(s, drop) == []
  {
    if s != [] {
      WithoutAll(s[1..], drop);
    }
  }

  lemma {:induction false} WithoutNone<T>(s: seq<T>, drop: set<T>)
    requires forall e :: e in s ==> e !in drop
    ensures Without(s, drop) == s
  {
    if s != [] {
      WithoutNone(s[1..], drop);
    }
  }

  lemma {:induction false} WithinNone<T>(s: seq<T>, keep: set<T>)
    requires forall e :: e in s ==> e !in keep
    ensures Within(s, keep) == []
  {
    if s != [] {
      WithinNone(s[1..], keep);
    }
  }

  lemma {:induction false} WithoutTwice<T>(s: seq<T>, drop: set<T>, drop': set<T>)
    ensures Without(Without(s, drop), drop') == Without(s, drop + drop')
  {
    if s != [] {
      WithoutTwice(s[1..], drop, drop');
      if s[0] in drop {
        assert Without(s, drop) == Without(s[1..], drop);
      } else {
        assert Without(s, drop)[1..] == Without(s[1..], drop);
      }
    }
  }

  /** Without repetitions, the first occurrence is the only one. */
  lemma {:induction false} RemoveFirstIsWithout<T(!new)>(s: seq<T>, e: T)
    requires Distinct(s)
    ensures RemoveFirst(s, e) == Without(s, {e})
  {
    if s != [] {
      if s[0] == e {
        WithoutNone(s[1..], {e});
      } else {
        RemoveFirstIsWithout(s[1..], e);
      }
    }
  }

  /** A part of a sequence without repetitions repeats nothing. */
  lemma {:induction false} SelectionDistinct<T(!new)>(s: seq<T>, k: set<T>)
    requires Distinct(s)
    ensures Distinct(Within(s, k)) && Distinct(Without(s, k))
  {
    if s != [] {
      SelectionDistinct(s[1..], k);
      Members(s[1..], k);
    }
  }

  lemma {:induction false} RemoveFirstMembers<T(!new)>(s: seq<T>, e: T)
    ensures forall x :: x in s && x != e ==> x in RemoveFirst(s, e)
    ensures forall x :: x in RemoveFirst(s, e) ==> x in s
    ensures multiset(RemoveFirst(s, e)) == multiset(s) - multiset{e}
  {
    if s != [] {
      assert s == [s[0]] + s[1..];
      if s[0] != e {
        RemoveFirstMembers(s[1..], e);
      }
    }
  }

  lemma {:induction false} RemoveFirstAt<T>(s: seq<T>, e: T, k: nat)
    requires k < |s| && s[k] == e && e !in s[..k]
    ensures RemoveFirst(s, e) == s[..k] + s[k + 1..]
    decreases k
  {
    if k > 0 {
      assert s[..k] == [s[0]] + s[1..][..k - 1];
      RemoveFirstAt(s[1..], e, k - 1);
      assert s[1..][k..] == s[k + 1..];
    }
  }

  lemma DistinctCounts<T(!new)>(s: seq<T>)
    requires Distinct(s)
    ensures forall e :: multiset(s)[e] == if e in s then 1 else 0
  {
    if s != [] {
      DistinctCounts(s[1..]);
      assert s == [s[0]] + s[1..];
    }
  }

  lemma DistinctConcat<T(!new)>(s: seq<T>, t: seq<T>)
    ensures Distinct(s + t) <==> Distinct(s) && Distinct(t) && (forall e :: e in s ==> e !in t)
  {
    var both := s + t;
    assert forall i :: 0 <= i < |s| ==> both[i] == s[i];
    if Distinct(both) {
      forall i, j | 0 <= i < j < |t|
        ensures t[i] != t[j]
      {
        assert both[|s| + i] == t[i] && both[|s| + j] == t[j];
      }
      forall i, j | 0 <= i < |s| && 0 <= j < |t|
        ensures s[i] != t[j]
      {
        assert both[|s| + j] == t[j];
      }
    } else {
      var i, j :| 0 <= i < j < |both| && both[i] == both[j];
      if i >= |s| {
        assert t[i - |s|] == t[j - |s|];
      } else if j >= |s| {
        assert s[i] == t[j - |s|] && s[i] in s && s[i] in t;
      } else {
        assert s[i] == s[j];
      }
    }
  }

  /** Two parts of a multiset can be compared by what the rest has in common. */
  lemma CancelCommonPart<T(!new)>(a: multiset<T>, b: multiset<T>, common: multiset<T>)
    ensures a + common == b + common <==> a == b
  {
    if a + common == b + common {
      assert forall e :: (a + common)[e] == a[e] + common[e] && (b + common)[e] == b[e] + common[e];
    }
  }
}
