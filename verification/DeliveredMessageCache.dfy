/**
 The bounded cache of delivered message ids (packages/intercom/broker/delivered-message-cache.ts).

 The code's map keeps insertion order, so it is modelled as a sequence of records with distinct ids,
 oldest first. The main result relates it to a cache that forgets nothing.
 */
module DeliveredMessageCaches {
  import opened Sequences

  /** The defaults, which every cache of the extension uses. */
  const TTL_MS := 600_000
  const MAX_ENTRIES: nat := 10_000

  datatype Delivered = Delivered(messageId: string, deliveredAt: int, signature: string)

  datatype Match = Miss | Match | Conflict

  function Delete(s: seq<Delivered>, messageId: string): seq<Delivered> {
    if s == [] then []
    else (if s[0].messageId == messageId then [] else [s[0]]) + Delete(s[1..], messageId)
  }

  /** Drops expired records from the old end, up to the first that is still fresh. */
  function Prune(s: seq<Delivered>, ttlMs: int, now: int): seq<Delivered> {
    if s != [] && now - s[0].deliveredAt > ttlMs then Prune(s[1..], ttlMs, now) else s
  }

  function Find(s: seq<Delivered>, messageId: string): Option<Delivered> {
    if s == [] then None else if s[0].messageId == messageId then Some(s[0]) else Find(s[1..], messageId)
  }

  function Newest(s: seq<Delivered>, maxEntries: nat): seq<Delivered> {
    if |s| <= maxEntries then s else s[|s| - maxEntries..]
  }

  function Answer(s: seq<Delivered>, ttlMs: int, messageId: string, signature: string, now: int): Match {
    var found := Find(Prune(s, ttlMs, now), messageId);
    if found.None? || now - found.value.deliveredAt > ttlMs then Miss
    else if found.value.signature == signature then Match.Match else Conflict
  }

  /** What recording makes of a cache that forgets nothing: the id moves to the new end. */
  function RecordAll(s: seq<Delivered>, record: Delivered): seq<Delivered> {
    Delete(s, record.messageId) + [record]
  }

  function Recorded(s: seq<Delivered>, ttlMs: int, maxEntries: nat, record: Delivered): seq<Delivered> {
    Newest(RecordAll(Prune(s, ttlMs, record.deliveredAt), record), maxEntries)
  }

  // ----- Comparison with a cache that forgets nothing --------------------------------------

  ghost predicate DistinctIds(s: seq<Delivered>) {
    forall i, j :: 0 <= i < j < |s| ==> s[i].messageId != s[j].messageId
  }

  ghost predicate OldestFirst(s: seq<Delivered>, clock: int) {
    forall i, j :: 0 <= i <= j < |s| ==> s[i].deliveredAt <= s[j].deliveredAt <= clock
  }

  /**
   The cache holds the newest `maxEntries` records of everything ever recorded, except that an
   expired old end may already be gone. `clock` is the latest time seen.
   */
  ghost predicate Bounded(s: seq<Delivered>, all: seq<Delivered>, ttlMs: int, maxEntries: nat, clock: int) {
    && DistinctIds(all) && OldestFirst(all, clock)
    && |s| <= |all| && |s| <= maxEntries
    && s == all[|all| - |s|..]
    && forall q :: 0 <= q < |all| - |s| ==> clock - all[q].deliveredAt > ttlMs || |all| - q > maxEntries
  }

  /** The id's latest record is fresh and fewer than `maxEntries` other ids were recorded after it. */
  ghost predicate Remembered(all: seq<Delivered>, ttlMs: int, maxEntries: nat, messageId: string, now: int) {
    exists q :: 0 <= q < |all| && all[q].messageId == messageId
      && now - all[q].deliveredAt <= ttlMs && |all| - q <= maxEntries
  }

  lemma {:induction false} FindIn(s: seq<Delivered>, messageId: string)
    ensures Find(s, messageId).None? <==> forall i :: 0 <= i < |s| ==> s[i].messageId != messageId
    ensures Find(s, messageId).Some? ==>
      exists i :: 0 <= i < |s| && s[i] == Find(s, messageId).value && s[i].messageId == messageId
  {
    if s != [] {
      FindIn(s[1..], messageId);
      if Find(s[1..], messageId).Some? && s[0].messageId != messageId {
        var i :| 0 <= i < |s[1..]| && s[1..][i] == Find(s[1..], messageId).value;
        assert s[i + 1] == Find(s, messageId).value;
      }
      assert forall i :: 0 < i < |s| ==> s[i] == s[1..][i - 1];
    }
  }

  lemma {:induction false} PruneKeepsBounded(s: seq<Delivered>, all: seq<Delivered>, ttlMs: int, maxEntries: nat, clock: int, now: int)
    requires Bounded(s, all, ttlMs, maxEntries, clock) && clock <= now
    ensures Bounded(Prune(s, ttlMs, now), all, ttlMs, maxEntries, now)
    decreases |s|
  {
    if s != [] && now - s[0].deliveredAt > ttlMs {
      assert s[1..] == all[|all| - |s[1..]|..];
      assert all[|all| - |s|] == s[0];
      assert Bounded(s[1..], all, ttlMs, maxEntries, now);
      PruneKeepsBounded(s[1..], all, ttlMs, maxEntries, now, now);
    }
  }

  /**
   A lookup answers as a cache that forgets nothing would, restricted to fresh ids among the newest
   `maxEntries`: a miss means never recorded, expired, or pushed out; otherwise the latest signature decides.
   */
  lemma {:induction false} LookupIsExact(
      s: seq<Delivered>, all: seq<Delivered>, ttlMs: int, maxEntries: nat, clock: int,
      messageId: string, signature: string, now: int)
    requires Bounded(s, all, ttlMs, maxEntries, clock) && clock <= now
    ensures Answer(s, ttlMs, messageId, signature, now) != Miss <==> Remembered(all, ttlMs, maxEntries, messageId, now)
    ensures Answer(s, ttlMs, messageId, signature, now) != Miss ==>
      forall q :: 0 <= q < |all| && all[q].messageId == messageId ==>
        (Answer(s, ttlMs, messageId, signature, now) == Match.Match <==> all[q].signature == signature)
  {
    PruneKeepsBounded(s, all, ttlMs, maxEntries, clock, now);
    var p := Prune(s, ttlMs, now);
    var cut := |all| - |p|;
    FindIn(p, messageId);
    forall q | 0 <= q < |all| && all[q].messageId == messageId
      ensures q >= cut ==> Find(p, messageId) == Some(all[q])
      ensures q < cut ==> Find(p, messageId).None?
    {
      if q >= cut {
        assert p[q - cut] == all[q];
      }
    }
    if Find(p, messageId).Some? {
      var i :| 0 <= i < |p| && p[i] == Find(p, messageId).value && p[i].messageId == messageId;
      assert all[cut + i] == p[i];
    }
  }

  lemma {:induction false} DeleteAbsent(s: seq<Delivered>, messageId: string)
    requires forall i :: 0 <= i < |s| ==> s[i].messageId != messageId
    ensures Delete(s, messageId) == s
  {
    if s != [] {
      DeleteAbsent(s[1..], messageId);
    }
  }

  lemma {:induction false} DeleteAt(s: seq<Delivered>, q: nat)
    requires DistinctIds(s) && q < |s|
    ensures Delete(s, s[q].messageId) == s[..q] + s[q + 1..]
  {
    if q == 0 {
      DeleteAbsent(s[1..], s[0].messageId);
    } else {
      DeleteAt(s[1..], q - 1);
      assert s[1..][..q - 1] == s[1..q] && s[1..][q..] == s[q + 1..];
      assert s[..q] == [s[0]] + s[1..q];
    }
  }

  /** Deleting keeps ids distinct and the order of time; the deleted id is gone. */
  lemma {:induction false} DeleteShape(all: seq<Delivered>, messageId: string, clock: int)
    requires DistinctIds(all) && OldestFirst(all, clock)
    ensures var d := Delete(all, messageId);
      DistinctIds(d) && OldestFirst(d, clock) && forall i :: 0 <= i < |d| ==> d[i].messageId != messageId
  {
    if q :| 0 <= q < |all| && all[q].messageId == messageId {
      DeleteAt(all, q);
      assert forall i :: 0 <= i < |all| - 1 ==> Delete(all, messageId)[i] == all[if i < q then i else i + 1];
    } else {
      DeleteAbsent(all, messageId);
    }
  }

  lemma {:induction false} RecordAllShape(all: seq<Delivered>, record: Delivered)
    requires DistinctIds(all) && OldestFirst(all, record.deliveredAt)
    ensures DistinctIds(RecordAll(all, record)) && OldestFirst(RecordAll(all, record), record.deliveredAt)
  {
    DeleteShape(all, record.messageId, record.deliveredAt);
  }

  /** Everything missing at the old end is expired or, with one more record coming, pushed out. */
  ghost predicate GoneForAReason(all: seq<Delivered>, cut: nat, ttlMs: int, maxEntries: nat, clock: int, size: nat)
    requires cut <= |all|
  {
    forall q :: 0 <= q < cut ==> clock - all[q].deliveredAt > ttlMs || size - q > maxEntries
  }

  lemma {:induction false} DeleteFromSuffix(
      all: seq<Delivered>, cut: nat, messageId: string, ttlMs: int, maxEntries: nat, clock: int)
    requires DistinctIds(all) && cut <= |all| && GoneForAReason(all, cut, ttlMs, maxEntries, clock, |all|)
    ensures var d, e := Delete(all, messageId), Delete(all[cut..], messageId);
      && |e| <= |d| && |all| <= |d| + 1 && e == d[|d| - |e|..]
      && GoneForAReason(d, |d| - |e|, ttlMs, maxEntries, clock, |d| + 1)
    decreases cut
  {
    var d := Delete(all, messageId);
    if cut == 0 {
      assert all[0..] == all;
      if q :| 0 <= q < |all| && all[q].messageId == messageId {
        DeleteAt(all, q);
      } else {
        DeleteAbsent(all, messageId);
      }
    } else {
      var rest := all[1..];
      assert rest[cut - 1..] == all[cut..];
      DeleteFromSuffix(rest, cut - 1, messageId, ttlMs, maxEntries, clock);
      if all[0].messageId == messageId {
        DeleteAbsent(rest, messageId);
        DeleteAbsent(all[cut..], messageId);
      } else {
        assert d == [all[0]] + Delete(rest, messageId);
      }
    }
  }

  lemma {:induction false} RecordAllKeepsBounded(
      s: seq<Delivered>, all: seq<Delivered>, ttlMs: int, maxEntries: nat, record: Delivered)
    requires Bounded(s, all, ttlMs, maxEntries, record.deliveredAt)
    ensures Bounded(Newest(RecordAll(s, record), maxEntries), RecordAll(all, record), ttlMs, maxEntries, record.deliveredAt)
  {
    RecordAllShape(all, record);
    DeleteFromSuffix(all, |all| - |s|, record.messageId, ttlMs, maxEntries, record.deliveredAt);
    var all', s' := RecordAll(all, record), RecordAll(s, record);
    assert s' == all'[|all'| - |s'|..];
    assert Newest(s', maxEntries) == all'[|all'| - |Newest(s', maxEntries)|..];
  }

  /** Recording keeps the bounded cache in step with the one that forgets nothing. */
  lemma {:induction false} RecordKeepsBounded(
      s: seq<Delivered>, all: seq<Delivered>, ttlMs: int, maxEntries: nat, clock: int, record: Delivered)
    requires Bounded(s, all, ttlMs, maxEntries, clock) && clock <= record.deliveredAt
    ensures Bounded(Recorded(s, ttlMs, maxEntries, record), RecordAll(all, record), ttlMs, maxEntries, record.deliveredAt)
  {
    PruneKeepsBounded(s, all, ttlMs, maxEntries, clock, record.deliveredAt);
    RecordAllKeepsBounded(Prune(s, ttlMs, record.deliveredAt), all, ttlMs, maxEntries, record);
  }

  function Ids(s: seq<Delivered>): set<string> {
    set r | r in s :: r.messageId
  }

  lemma {:induction false} IdsOfDelete(s: seq<Delivered>, messageId: string)
    ensures Ids(Delete(s, messageId)) == Ids(s) - {messageId}
  {
    if s != [] {
      IdsOfDelete(s[1..], messageId);
      assert s == [s[0]] + s[1..];
      assert Ids(s) == {s[0].messageId} + Ids(s[1..]);
      if s[0].messageId != messageId {
        assert Ids(Delete(s, messageId)) == {s[0].messageId} + Ids(Delete(s[1..], messageId));
      }
    }
  }

  lemma {:induction false} IdsOfRecordAll(all: seq<Delivered>, record: Delivered)
    ensures Ids(RecordAll(all, record)) == Ids(all) + {record.messageId}
  {
    IdsOfDelete(all, record.messageId);
    var d := Delete(all, record.messageId);
    assert Ids(d + [record]) == Ids(d) + {record.messageId};
  }

  // ----- The class -------------------------------------------------------------------------

  class DeliveredMessageCache {
    const ttlMs: int
    const maxEntries: nat
    var delivered: seq<Delivered>

    constructor (ttlMs: int, maxEntries: nat)
      ensures delivered == [] && this.ttlMs == ttlMs && this.maxEntries == maxEntries
    {
      this.ttlMs, this.maxEntries, delivered := ttlMs, maxEntries, [];
    }

    method Lookup(messageId: string, signature: string, now: int) returns (found: Match)
      modifies this
      ensures delivered == Prune(old(delivered), ttlMs, now)
      ensures found == Answer(old(delivered), ttlMs, messageId, signature, now)
    {
      PruneExpired(now);
      var entry := Find(delivered, messageId);
      if entry.None? || now - entry.value.deliveredAt > ttlMs {
        return Miss;
      }
      return if entry.value.signature == signature then Match.Match else Conflict;
    }

    method Record(messageId: string, signature: string, now: int)
      modifies this
      ensures delivered == Recorded(old(delivered), ttlMs, maxEntries, Delivered(messageId, now, signature))
    {
      PruneExpired(now);
      delivered := Delete(delivered, messageId);
      delivered := delivered + [Delivered(messageId, now, signature)];
      ghost var full := delivered;
      while |delivered| > maxEntries
        invariant |delivered| <= |full| && delivered == full[|full| - |delivered|..]
        invariant |full| >= maxEntries ==> |delivered| >= maxEntries
        invariant |full| <= maxEntries ==> delivered == full
      {
        delivered := delivered[1..];
      }
    }

    method PruneExpired(now: int)
      modifies this
      ensures delivered == Prune(old(delivered), ttlMs, now)
    {
      while delivered != [] && now - delivered[0].deliveredAt > ttlMs
        invariant Prune(delivered, ttlMs, now) == Prune(old(delivered), ttlMs, now)
        decreases |delivered|
      {
        delivered := delivered[1..];
      }
    }
  }
}
