/** The in-memory log store: a map from index to entry with cached first and last index. */
module LogStore {
  import opened Options
  import opened RaftServer

  type Entries = map<nat, Entry>

  /** The cached indexes are the least and the greatest key, or 0 when there is none. */
  ghost predicate Bounds(keys: set<nat>, low: nat, high: nat) {
    if keys == {} then low == high == 0
    else low in keys && high in keys && forall k :: k in keys ==> 1 <= low <= k <= high
  }

  /** The cached last index is the greatest key, or 0 when there is none above. */
  ghost predicate Highest(keys: set<nat>, high: nat) {
    (forall k :: k in keys ==> k <= high) && (high > 0 ==> high in keys)
  }

  lemma BoundsHighest(keys: set<nat>, low: nat, high: nat)
    requires Bounds(keys, low, high)
    ensures Highest(keys, high)
  {
  }

  lemma OneMoreHighest(keys: set<nat>, high: nat, k: nat)
    requires Highest(keys, high)
    ensures Highest(keys + {k}, if k > high then k else high)
  {
  }

  /** How one more index moves the cached ones. */
  lemma OneMoreBound(keys: set<nat>, low: nat, high: nat, k: nat)
    requires Bounds(keys, low, high) && k >= 1
    ensures Bounds(keys + {k}, if low == 0 || k < low then k else low, if k > high then k else high)
  {
  }

  /** Storing in order; an entry at a used index replaces what was there. */
  function Stored(m: Entries, es: seq<Entry>): (r: Entries) {
    if es == [] then m
    else
      var n := |es| - 1;
      Stored(m, es[..n])[es[n].index := es[n]]
  }

  /** The cached indexes after storing in order, right or wrong. */
  function CachedLow(low: nat, es: seq<Entry>): (r: nat) {
    if es == [] then low
    else
      var n := |es| - 1;
      var l := CachedLow(low, es[..n]);
      if l == 0 || es[n].index < l then es[n].index else l
  }

  function CachedHigh(high: nat, es: seq<Entry>): (r: nat) {
    if es == [] then high
    else
      var n := |es| - 1;
      var h := CachedHigh(high, es[..n]);
      if es[n].index > h then es[n].index else h
  }

  lemma OneMoreKey(m: Entries, e: Entry)
    ensures m[e.index := e].Keys == m.Keys + {e.index}
  {
  }

  lemma BoundsPositive(keys: set<nat>, low: nat, high: nat)
    ensures Bounds(keys, low, high) ==> forall k :: k in keys ==> k >= 1
  {
  }

  lemma IndexedAt(es: seq<Entry>, i: nat)
    requires Indexed(es) && i < |es|
    ensures es[i].index >= 1
  {
  }

  lemma StoredNothing(m: Entries, low: nat, high: nat)
    ensures Stored(m, []) == m && CachedLow(low, []) == low && CachedHigh(high, []) == high
  {
  }

  lemma StoredNext(m: Entries, low: nat, high: nat, es: seq<Entry>, i: nat)
    requires i < |es|
    ensures Stored(m, es[..i + 1]) == Stored(m, es[..i])[es[i].index := es[i]]
    ensures var l, h := CachedLow(low, es[..i]), CachedHigh(high, es[..i]);
            && CachedLow(low, es[..i + 1]) == (if l == 0 || es[i].index < l then es[i].index else l)
            && CachedHigh(high, es[..i + 1]) == (if es[i].index > h then es[i].index else h)
  {
    assert es[..i + 1][..i] == es[..i];
  }

  /** Every stored index is there afterwards. */
  lemma {:induction false} StoredKeys(m: Entries, es: seq<Entry>)
    ensures forall i :: 0 <= i < |es| ==> es[i].index in Stored(m, es)
    ensures (forall k :: k in Stored(m, es) ==> k >= 1) ==> Indexed(es)
    decreases |es|
  {
    if es != [] {
      StoredKeys(m, es[..|es| - 1]);
    }
  }

  /** No later entry has the index of entry `i`. */
  predicate LastOfIndex(es: seq<Entry>, i: nat)
    requires i < |es|
  {
    forall j :: i < j < |es| ==> es[j].index != es[i].index
  }

  predicate Untouched(es: seq<Entry>, k: nat) {
    forall i :: 0 <= i < |es| ==> es[i].index != k
  }

  lemma {:induction false} OthersStay(m: Entries, es: seq<Entry>, k: nat)
    requires Untouched(es, k)
    ensures k in Stored(m, es) <==> k in m
    ensures k in m ==> Stored(m, es)[k] == m[k]
    decreases |es|
  {
    if es != [] {
      OthersStay(m, es[..|es| - 1], k);
    }
  }

  lemma {:induction false} LastStays(m: Entries, es: seq<Entry>, i: nat)
    requires i < |es| && LastOfIndex(es, i)
    ensures es[i].index in Stored(m, es) && Stored(m, es)[es[i].index] == es[i]
    decreases |es|
  {
    var n := |es| - 1;
    if i < n {
      LastStays(m, es[..n], i);
    }
  }

  /** Of several entries for one index the last stored is kept, and all other indexes stay as they were. */
  lemma LastStoredIsKept(m: Entries, es: seq<Entry>)
    ensures forall i :: 0 <= i < |es| && LastOfIndex(es, i) ==>
              es[i].index in Stored(m, es) && Stored(m, es)[es[i].index] == es[i]
    ensures forall k: nat :: Untouched(es, k) ==>
              (k in Stored(m, es) <==> k in m) && (k in m ==> Stored(m, es)[k] == m[k])
  {
    hide Stored, LastOfIndex, Untouched;
    forall i | 0 <= i < |es| && LastOfIndex(es, i)
      ensures es[i].index in Stored(m, es) && Stored(m, es)[es[i].index] == es[i]
    {
      LastStays(m, es, i);
    }
    forall k: nat | Untouched(es, k)
      ensures (k in Stored(m, es) <==> k in m) && (k in m ==> Stored(m, es)[k] == m[k])
    {
      OthersStay(m, es, k);
    }
  }

  /** Indexes start at 1; 0 stands for none in the cached ones. */
  predicate Indexed(es: seq<Entry>) {
    forall i :: 0 <= i < |es| ==> es[i].index >= 1
  }

  function Without(m: Entries, min: nat, end: nat): (r: Entries) {
    map k | k in m && !(min <= k < end) :: m[k]
  }

  class InmemLogStore {
    var entries: Entries
    var lowIdx: nat
    var highIdx: nat

    ghost predicate Valid()
      reads this
    {
      Bounds(entries.Keys, lowIdx, highIdx)
    }

    /** Numbered from 1 without gaps, as a replicated log is. */
    ghost predicate Contiguous()
      reads this
    {
      Valid() && IsLog(entries, highIdx)
    }

    ghost function Contents(): (r: Log)
      requires Contiguous()
      reads this
      ensures |r| == highIdx
    {
      AsLog(entries, highIdx)
    }

    constructor ()
      ensures Contiguous() && Contents() == []
    {
      entries, lowIdx, highIdx := map[], 0, 0;
    }

    method FirstIndex() returns (r: nat)
      requires Valid()
      ensures r == 0 <==> entries == map[]
      ensures forall k :: k in entries ==> r <= k
      ensures r > 0 ==> r in entries
    {
      r := lowIdx;
    }

    method LastIndex() returns (r: nat)
      ensures r == highIdx
      ensures Valid() ==> (r == 0 <==> entries == map[])
      ensures Valid() ==> forall k :: k in entries ==> k <= r
      ensures Valid() && r > 0 ==> r in entries
    {
      r := highIdx;
    }

    method GetLog(index: nat) returns (r: Option<Entry>)
      ensures r == if index in entries then Some(entries[index]) else None
      ensures Contiguous() ==> r == if 1 <= index <= highIdx then Some(Contents()[index - 1]) else None
    {
      r := if index in entries then Some(entries[index]) else None;
    }

    method StoreLogs(es: seq<Entry>)
      requires Valid()
      modifies this
      ensures entries == Stored(old(entries), es)
      ensures Highest(entries.Keys, highIdx) && (Indexed(es) <==> Valid())
      ensures lowIdx == CachedLow(old(lowIdx), es) && highIdx == CachedHigh(old(highIdx), es)
      ensures old(Contiguous()) && NumberedFrom(es, old(highIdx)) ==>
                Contiguous() && Contents() == old(Contents()) + es
    {
      hide Stored, CachedLow, CachedHigh, IsLog, AsLog, NumberedFrom, Indexed, Bounds, Highest;
      BoundsHighest(entries.Keys, lowIdx, highIdx);
      StoredNothing(entries, lowIdx, highIdx);
      for i := 0 to |es|
        invariant entries == Stored(old(entries), es[..i])
        invariant Highest(entries.Keys, highIdx) && (Indexed(es) ==> Valid())
        invariant lowIdx == CachedLow(old(lowIdx), es[..i]) && highIdx == CachedHigh(old(highIdx), es[..i])
      {
        var e := es[i];
        StoredNext(old(entries), old(lowIdx), old(highIdx), es, i);
        if Indexed(es) {
          IndexedAt(es, i);
          OneMoreBound(entries.Keys, lowIdx, highIdx, e.index);
        }
        OneMoreKey(entries, e);
        OneMoreHighest(entries.Keys, highIdx, e.index);
        entries := entries[e.index := e];
        if lowIdx == 0 || e.index < lowIdx {
          lowIdx := e.index;
        }
        if e.index > highIdx {
          highIdx := e.index;
        }
      }
      assert es[..|es|] == es;
      StoredKeys(old(entries), es);
      BoundsPositive(entries.Keys, lowIdx, highIdx);
      if old(Contiguous()) && NumberedFrom(es, old(highIdx)) {
        StoredAppends(old(entries), es, old(highIdx));
        LogBounds(entries, lowIdx, highIdx, old(highIdx) + |es|);
      }
    }

    method DeleteRange(min: nat, max: nat)
      requires Valid()
      modifies this
      ensures Valid() && entries == Without(old(entries), min, max + 1)
      ensures old(Contiguous()) && 1 <= min <= old(highIdx) <= max ==>
                Contiguous() && Contents() == old(Contents())[..min - 1]
    {
      var i := min;
      while i <= max
        invariant min <= i && (i <= max + 1 || i == min)
        invariant entries == Without(old(entries), min, i)
      {
        entries := entries - {i};
        i := i + 1;
      }
      assert entries == Without(old(entries), min, max + 1);
      assert 0 !in entries;
      Recalculate();
      if old(Contiguous()) && 1 <= min <= old(highIdx) <= max {
        WithoutSuffix(old(entries), old(highIdx), min, max + 1);
        LogBounds(entries, lowIdx, highIdx, min - 1);
      }
    }

    method Recalculate()
      requires 0 !in entries
      modifies `lowIdx, `highIdx
      ensures Valid()
    {
      lowIdx, highIdx := 0, 0;
      var rest := entries.Keys;
      ghost var seen: set<nat> := {};
      while rest != {}
        invariant seen + rest == entries.Keys && Bounds(seen, lowIdx, highIdx)
        decreases rest
      {
        var idx :| idx in rest;
        OneMoreBound(seen, lowIdx, highIdx, idx);
        if lowIdx == 0 || idx < lowIdx {
          lowIdx := idx;
        }
        if idx > highIdx {
          highIdx := idx;
        }
        rest := rest - {idx};
        seen := seen + {idx};
      }
    }
  }

  // ------------------------------------------------------------ the store as a log

  ghost predicate IsLog(m: Entries, n: nat) {
    (forall k: nat :: k in m <==> 1 <= k <= n) && (forall k: nat :: k in m ==> m[k].index == k)
  }

  ghost function AsLog(m: Entries, n: nat): (r: Log)
    requires IsLog(m, n)
  {
    seq(n, i requires 0 <= i < n => m[i + 1])
  }

  ghost predicate NumberedFrom(es: seq<Entry>, n: nat) {
    forall i :: 0 <= i < |es| ==> es[i].index == n + i + 1
  }

  lemma LogBounds(m: Entries, low: nat, high: nat, n: nat)
    requires Bounds(m.Keys, low, high) && IsLog(m, n)
    ensures high == n
  {
    if n > 0 {
      assert n in m;
    }
  }

  /** Entries numbered on from the end extend the log. */
  lemma {:induction false} StoredAppends(m: Entries, es: seq<Entry>, n: nat)
    requires IsLog(m, n) && NumberedFrom(es, n)
    ensures IsLog(Stored(m, es), n + |es|) && AsLog(Stored(m, es), n + |es|) == AsLog(m, n) + es
    decreases |es|
  {
    if es != [] {
      var k := |es| - 1;
      var front := es[..k];
      StoredAppends(m, front, n);
      var before, after, e := Stored(m, front), Stored(m, es), es[k];
      assert after == before[e.index := e];
      assert forall j: nat :: j in after <==> 1 <= j <= n + |es|;
      assert AsLog(after, n + |es|) == AsLog(before, n + k) + [e];
      assert es == front + [e];
    }
  }

  /** Deleting from an index to the end cuts the log there. */
  lemma WithoutSuffix(m: Entries, n: nat, min: nat, end: nat)
    requires IsLog(m, n) && 1 <= min <= n < end
    ensures IsLog(Without(m, min, end), min - 1)
    ensures AsLog(Without(m, min, end), min - 1) == AsLog(m, n)[..min - 1]
  {
  }
}
