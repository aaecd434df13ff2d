/** The sandbox's turn cache: an ordered dictionary with a bound, least recently
    used entry first. A get that misses does not touch the order. */
module TurnCache {
  import opened Wrappers

  const MAX_ENTRIES: nat := 64

  type Entries<V> = seq<(string, V)>

  function Lookup<V(!new)>(es: Entries<V>, k: string): (r: Option<V>)
    ensures r.None? <==> forall i :: 0 <= i < |es| ==> es[i].0 != k
    ensures r.Some? ==> (k, r.value) in es
  {
    if es == [] then None else if es[0].0 == k then Some(es[0].1) else Lookup(es[1..], k)
  }

  function Without<V(!new)>(es: Entries<V>, k: string): (r: Entries<V>)
    ensures |r| <= |es| && forall e :: e in r <==> e in es && e.0 != k
  {
    if es == [] then [] else if es[0].0 == k then Without(es[1..], k) else [es[0]] + Without(es[1..], k)
  }

  /** Dictionary assignment: in place when the key is present, else at the end. */
  function Assign<V(!new)>(es: Entries<V>, k: string, v: V): Entries<V> {
    if es == [] then [(k, v)] else if es[0].0 == k then [(k, v)] + es[1..] else [es[0]] + Assign(es[1..], k, v)
  }

  function MoveToEnd<V(!new)>(es: Entries<V>, k: string): Entries<V> {
    match Lookup(es, k)
    case None => es
    case Some(v) => Without(es, k) + [(k, v)]
  }

  function Evict<V(!new)>(es: Entries<V>, max: nat): Entries<V> {
    if |es| > max then es[|es| - max..] else es
  }

  /** The new order after storing a value: it becomes the most recent, and the
      least recent entries beyond the bound are gone. */
  function AfterPut<V(!new)>(es: Entries<V>, k: string, v: V, max: nat): Entries<V> {
    Evict(Without(es, k) + [(k, v)], max)
  }

  ghost predicate Distinct<V(!new)>(es: Entries<V>) {
    forall i, j :: 0 <= i < j < |es| ==> es[i].0 != es[j].0
  }

  ghost predicate Bounded<V(!new)>(es: Entries<V>, max: nat) {
    Distinct(es) && |es| <= max
  }

  lemma {:induction false} WithoutDistinct<V(!new)>(es: Entries<V>, k: string)
    requires Distinct(es)
    ensures Distinct(Without(es, k))
    ensures |Without(es, k)| == if Lookup(es, k).Some? then |es| - 1 else |es|
    ensures Lookup(es, k).None? ==> Without(es, k) == es
  {
    if es != [] {
      var rest := es[1..];
      assert forall i :: 0 <= i < |rest| ==> rest[i] == es[i + 1];
      WithoutDistinct(rest, k);
      if es[0].0 == k {
        assert Lookup(rest, k).None?;
      } else {
        DistinctCons(es[0], Without(rest, k));
      }
    }
  }

  lemma DistinctCons<V(!new)>(e: (string, V), es: Entries<V>)
    requires Distinct(es) && forall x :: x in es ==> x.0 != e.0
    ensures Distinct([e] + es)
  {
    var all := [e] + es;
    forall i, j | 0 <= i < j < |all| ensures all[i].0 != all[j].0 {
      assert all[j] == es[j - 1] && es[j - 1] in es;
    }
  }

  lemma AssignThenMove<V(!new)>(es: Entries<V>, k: string, v: V)
    requires Distinct(es)
    ensures MoveToEnd(Assign(es, k, v), k) == Without(es, k) + [(k, v)]
  {
    AssignHolds(es, k, v);
  }

  lemma {:induction false} AssignHolds<V(!new)>(es: Entries<V>, k: string, v: V)
    requires Distinct(es)
    ensures Lookup(Assign(es, k, v), k) == Some(v)
    ensures Without(Assign(es, k, v), k) == Without(es, k)
  {
    if es != [] {
      var after := Assign(es, k, v);
      if es[0].0 == k {
        assert after[1..] == es[1..];
      } else {
        assert after[1..] == Assign(es[1..], k, v);
        AssignHolds(es[1..], k, v);
      }
    }
  }

  lemma AfterPutBounded<V(!new)>(es: Entries<V>, k: string, v: V, max: nat)
    requires Bounded(es, max)
    ensures Bounded(AfterPut(es, k, v, max), max)
    ensures forall e :: e in AfterPut(es, k, v, max) ==> e == (k, v) || (e in es && e.0 != k)
    ensures max > 0 ==> Lookup(AfterPut(es, k, v, max), k) == Some(v)
  {
    WithoutDistinct(es, k);
    var all := Without(es, k) + [(k, v)];
    assert Distinct(all) by {
      forall i | 0 <= i < |all| - 1 ensures all[i].0 != k {
        assert all[i] in Without(es, k);
      }
    }
    var r := AfterPut(es, k, v, max);
    assert forall e :: e in r ==> e in all;
    if max > 0 {
      assert r[|r| - 1] == (k, v);
      LookupLast(r);
    }
  }

  lemma LookupLast<V(!new)>(es: Entries<V>)
    requires Distinct(es) && es != []
    ensures Lookup(es, es[|es| - 1].0) == Some(es[|es| - 1].1)
  {
    if |es| > 1 {
      LookupLast(es[1..]);
    }
  }

  lemma MoveToEndKeeps<V(!new)>(es: Entries<V>, k: string)
    requires Distinct(es)
    ensures Distinct(MoveToEnd(es, k)) && |MoveToEnd(es, k)| == |es|
    ensures forall e :: e in MoveToEnd(es, k) <==> e in es
  {
    WithoutDistinct(es, k);
    if Lookup(es, k).Some? {
      var v := Lookup(es, k).value;
      forall e | e in es ensures e in MoveToEnd(es, k) {
        if e.0 == k {
          SoleEntry(es, e);
        }
      }
    }
  }

  lemma MoveToEndFinds<V(!new)>(es: Entries<V>, k: string)
    requires Distinct(es)
    ensures Lookup(MoveToEnd(es, k), k) == Lookup(es, k)
  {
    MoveToEndKeeps(es, k);
    if Lookup(es, k).Some? {
      LookupLast(MoveToEnd(es, k));
    }
  }

  lemma SoleEntry<V(!new)>(es: Entries<V>, e: (string, V))
    requires Distinct(es) && e in es
    ensures Lookup(es, e.0) == Some(e.1)
  {
    if es[0] != e {
      assert e in es[1..];
      SoleEntry(es[1..], e);
    }
  }

  /** The cache object. */
  class Cache<V(==,!new)> {
    var entries: Entries<V>
    const max: nat

    ghost predicate Valid()
      reads this
    {
      Bounded(entries, max)
    }

    constructor (max: nat)
      ensures Valid() && entries == [] && this.max == max
    {
      this.max := max;
      entries := [];
    }

    method Get(k: string) returns (r: Option<V>)
      requires Valid()
      modifies this
      ensures Valid() && r == Lookup(old(entries), k)
      ensures entries == MoveToEnd(old(entries), k)
    {
      r := Lookup(entries, k);
      MoveToEndKeeps(entries, k);
      if r.Some? {
        entries := MoveToEnd(entries, k);
      }
    }

    method Put(k: string, v: V)
      requires Valid()
      modifies this
      ensures Valid() && entries == AfterPut(old(entries), k, v, max)
    {
      AfterPutBounded(entries, k, v, max);
      AssignThenMove(entries, k, v);
      ghost var target := AfterPut(entries, k, v, max);
      entries := Assign(entries, k, v);
      entries := MoveToEnd(entries, k);
      ghost var all := entries;
      while |entries| > max
        invariant |entries| <= |all| && entries == all[|all| - |entries|..]
        invariant |all| > max ==> |entries| >= max
        invariant |all| <= max ==> entries == all
      {
        entries := entries[1..];
      }
    }

    method Clear()
      modifies this
      ensures Valid() && entries == []
    {
      entries := [];
    }
  }

  // Traces

  datatype Op<V> = Get(key: string) | Put(key: string, value: V) | Clear

  function Step<V(!new)>(es: Entries<V>, op: Op<V>, max: nat): Entries<V> {
    match op
    case Get(k) => MoveToEnd(es, k)
    case Put(k, v) => AfterPut(es, k, v, max)
    case Clear => []
  }

  /** The cache after a trace, from empty. */
  function Replay<V(!new)>(ops: seq<Op<V>>, max: nat): Entries<V> {
    if ops == [] then [] else Step(Replay(ops[..|ops| - 1], max), ops[|ops| - 1], max)
  }

  /** The value last put for a key since the cache was last cleared. */
  function LastPut<V(!new)>(ops: seq<Op<V>>, k: string): Option<V> {
    if ops == [] then None
    else
      var last := ops[|ops| - 1];
      if last.Clear? then None
      else if last.Put? && last.key == k then Some(last.value)
      else LastPut(ops[..|ops| - 1], k)
  }

  /** On every trace the bound holds, and a hit returns the last value put. */
  lemma {:induction false} TraceLaw<V(!new)>(ops: seq<Op<V>>, max: nat)
    ensures Bounded(Replay(ops, max), max)
    ensures forall e :: e in Replay(ops, max) ==> LastPut(ops, e.0) == Some(e.1)
  {
    if ops != [] {
      var before, op := Replay(ops[..|ops| - 1], max), ops[|ops| - 1];
      TraceLaw(ops[..|ops| - 1], max);
      match op
      case Get(k) => MoveToEndKeeps(before, k);
      case Put(k, v) => AfterPutBounded(before, k, v, max);
      case Clear =>
    }
  }

  /** When a key was last touched: stored, or read by a get that found it. */
  function Touched<V(!new)>(ops: seq<Op<V>>, k: string, max: nat): (t: nat)
    ensures t <= |ops|
  {
    if ops == [] then 0
    else
      var earlier, last := ops[..|ops| - 1], ops[|ops| - 1];
      if last.Clear? then 0
      else if last.key == k && (last.Put? || Lookup(Replay(earlier, max), k).Some?) then |ops|
      else Touched(earlier, k, max)
  }

  ghost predicate Ordered<V(!new)>(es: Entries<V>, ops: seq<Op<V>>, max: nat) {
    forall i, j :: 0 <= i < j < |es| ==> Touched(ops, es[i].0, max) < Touched(ops, es[j].0, max)
  }

  /** A key that was stored and is gone made way for more recently touched ones. */
  ghost predicate MadeWay<V(!new)>(es: Entries<V>, ops: seq<Op<V>>, k: string, max: nat) {
    |es| == max && forall e :: e in es ==> Touched(ops, k, max) < Touched(ops, e.0, max)
  }

  /** Eviction is least recently used: entries stand in the order they were last
      touched, and whatever is missing is older than everything kept in a full cache. */
  lemma {:induction false} RecencyLaw<V(!new)>(ops: seq<Op<V>>, max: nat)
    ensures Recent(Replay(ops, max), ops, max)
  {
    if ops != [] {
      var earlier, op := ops[..|ops| - 1], ops[|ops| - 1];
      RecencyLaw(earlier, max);
      TraceLaw(earlier, max);
      match op
      case Clear =>
      case Get(k) => GetIsRecent(Replay(earlier, max), ops, k, max);
      case Put(k, v) => PutIsRecent(Replay(earlier, max), ops, k, v, max);
    }
  }

  ghost predicate Recent<V(!new)>(es: Entries<V>, ops: seq<Op<V>>, max: nat) {
    && Ordered(es, ops, max)
    && forall k :: LastPut(ops, k).Some? && Lookup(es, k).None? ==> MadeWay(es, ops, k, max)
  }

  lemma GetIsRecent<V(!new)>(es: Entries<V>, ops: seq<Op<V>>, k: string, max: nat)
    requires ops != [] && ops[|ops| - 1] == Get(k)
    requires es == Replay(ops[..|ops| - 1], max)
    requires Distinct(es) && Recent(es, ops[..|ops| - 1], max)
    ensures Recent(MoveToEnd(es, k), ops, max)
  {
    var after, earlier := MoveToEnd(es, k), ops[..|ops| - 1];
    MoveToEndKeeps(es, k);
    if Lookup(es, k).Some? {
      TouchMoves(es, ops, k, Lookup(es, k).value, max);
    } else {
      assert forall e :: e in es ==> e.0 != k;
    }
    forall x | LastPut(ops, x).Some? && Lookup(after, x).None? ensures MadeWay(after, ops, x, max) {
      assert Lookup(es, x).None?;
      assert MadeWay(es, earlier, x, max);
    }
  }

  lemma PutIsRecent<V(!new)>(es: Entries<V>, ops: seq<Op<V>>, k: string, v: V, max: nat)
    requires ops != [] && ops[|ops| - 1] == Put(k, v)
    requires Bounded(es, max) && Recent(es, ops[..|ops| - 1], max)
    ensures Recent(AfterPut(es, k, v, max), ops, max)
  {
    TouchMoves(es, ops, k, v, max);
    forall x | LastPut(ops, x).Some? && Lookup(AfterPut(es, k, v, max), x).None?
      ensures MadeWay(AfterPut(es, k, v, max), ops, x, max)
    {
      PutMakesWay(es, ops, k, v, x, max);
    }
  }

  /** Touching a key puts it last and leaves the order of the others. */
  lemma TouchMoves<V(!new)>(es: Entries<V>, ops: seq<Op<V>>, k: string, v: V, max: nat)
    requires ops != [] && !ops[|ops| - 1].Clear? && ops[|ops| - 1].key == k
    requires Touched(ops, k, max) == |ops|
    requires Distinct(es) && Ordered(es, ops[..|ops| - 1], max)
    ensures Ordered(Without(es, k) + [(k, v)], ops, max)
  {
    WithoutOrdered(es, ops[..|ops| - 1], k, max);
    var kept := Without(es, k);
    forall i | 0 <= i < |kept| ensures kept[i].0 != k && Touched(ops, kept[i].0, max) == Touched(ops[..|ops| - 1], kept[i].0, max) {
      assert kept[i] in kept;
    }
  }

  lemma {:induction false} WithoutOrdered<V(!new)>(es: Entries<V>, ops: seq<Op<V>>, k: string, max: nat)
    requires Ordered(es, ops, max)
    ensures Ordered(Without(es, k), ops, max)
  {
    if es != [] {
      var rest := es[1..];
      assert forall i :: 0 <= i < |rest| ==> rest[i] == es[i + 1];
      WithoutOrdered(rest, ops, k, max);
      if es[0].0 != k {
        var kept := Without(rest, k);
        forall j | 0 <= j < |kept| ensures Touched(ops, es[0].0, max) < Touched(ops, kept[j].0, max) {
          assert kept[j] in rest;
        }
      }
    }
  }

  lemma OldestIsOlder<V(!new)>(all: Entries<V>, ops: seq<Op<V>>, max: nat)
    requires all != [] && Ordered(all, ops, max)
    ensures forall e :: e in all[1..] ==> Touched(ops, all[0].0, max) < Touched(ops, e.0, max)
  {
    forall e | e in all[1..] ensures Touched(ops, all[0].0, max) < Touched(ops, e.0, max) {
      var j :| 0 <= j < |all[1..]| && all[1..][j] == e;
      assert all[j + 1] == e;
    }
  }

  lemma PutMakesWay<V(!new)>(es: Entries<V>, ops: seq<Op<V>>, k: string, v: V, x: string, max: nat)
    requires ops != [] && ops[|ops| - 1] == Put(k, v)
    requires Bounded(es, max) && Ordered(Without(es, k) + [(k, v)], ops, max)
    requires LastPut(ops, x).Some? && Lookup(AfterPut(es, k, v, max), x).None?
    requires forall y :: LastPut(ops[..|ops| - 1], y).Some? && Lookup(es, y).None? ==> MadeWay(es, ops[..|ops| - 1], y, max)
    ensures MadeWay(AfterPut(es, k, v, max), ops, x, max)
  {
    WithoutDistinct(es, k);
    var all := Without(es, k) + [(k, v)];
    if x == all[0].0 && |all| > max {
      assert AfterPut(es, k, v, max) == all[1..];
      OldestIsOlder(all, ops, max);
    } else {
      StillAbsent(es, k, v, x, max);
      assert MadeWay(es, ops[..|ops| - 1], x, max);
      StillMadeWay(es, ops, k, v, x, max);
    }
  }

  lemma StillMadeWay<V(!new)>(es: Entries<V>, ops: seq<Op<V>>, k: string, v: V, x: string, max: nat)
    requires ops != [] && ops[|ops| - 1] == Put(k, v)
    requires Bounded(es, max) && x != k && MadeWay(es, ops[..|ops| - 1], x, max)
    ensures MadeWay(AfterPut(es, k, v, max), ops, x, max)
  {
    WithoutDistinct(es, k);
    forall e | e in AfterPut(es, k, v, max) ensures Touched(ops, x, max) < Touched(ops, e.0, max) {
      KeptOrNew(es, k, v, max, e);
      assert e.0 == k || e in es;
      PutTouches(ops, k, v, x, e.0, max);
    }
  }

  lemma KeptOrNew<V(!new)>(es: Entries<V>, k: string, v: V, max: nat, e: (string, V))
    requires e in AfterPut(es, k, v, max)
    ensures e == (k, v) || e in es
  {
    assert e in Without(es, k) + [(k, v)];
  }

  lemma PutTouches<V(!new)>(ops: seq<Op<V>>, k: string, v: V, x: string, y: string, max: nat)
    requires ops != [] && ops[|ops| - 1] == Put(k, v) && x != k
    requires y == k || Touched(ops[..|ops| - 1], x, max) < Touched(ops[..|ops| - 1], y, max)
    ensures Touched(ops, x, max) < Touched(ops, y, max)
  {
  }

  lemma StillAbsent<V(!new)>(es: Entries<V>, k: string, v: V, x: string, max: nat)
    requires Bounded(es, max) && Lookup(AfterPut(es, k, v, max), x).None?
    requires var all := Without(es, k) + [(k, v)]; !(x == all[0].0 && |all| > max)
    ensures x != k && Lookup(es, x).None?
  {
    WithoutDistinct(es, k);
    var all := Without(es, k) + [(k, v)];
    var kept := Evict(all, max);
    assert kept == all || kept == all[1..];
    forall i | 0 <= i < |all| ensures all[i].0 != x {
      if kept == all {
        assert kept[i].0 != x;
      } else if i > 0 {
        assert kept[i - 1].0 != x;
      }
    }
    assert all[|all| - 1].0 == k;
    forall i | 0 <= i < |es| ensures es[i].0 != x {
      if es[i].0 != k {
        assert es[i] in Without(es, k);
        assert es[i] in all;
      }
    }
  }

  /** In order, but not necessarily adjacent. */
  predicate Subsequence<T(==)>(a: seq<T>, b: seq<T>) {
    if a == [] then true
    else if b == [] then false
    else if a[0] == b[0] then Subsequence(a[1..], b[1..])
    else Subsequence(a, b[1..])
  }

  lemma SubsequenceIn<T>(a: seq<T>, b: seq<T>)
    requires Subsequence(a, b)
    ensures |a| <= |b| && forall x :: x in a ==> x in b
  {
    if a != [] {
      SubsequenceIn(if a[0] == b[0] then a[1..] else a, b[1..]);
    }
  }

  lemma SubsequenceTail<T>(a: seq<T>, b: seq<T>)
    requires Subsequence(a, b) && a != []
    ensures b != [] && Subsequence(a[1..], b) && Subsequence(a[1..], b[1..])
  {
    if a[0] != b[0] {
      SubsequenceTail(a, b[1..]);
    }
    SubsequenceWiden(a[1..], b);
  }

  lemma SubsequenceWiden<T>(a: seq<T>, b: seq<T>)
    requires b != [] && Subsequence(a, b[1..])
    ensures Subsequence(a, b)
  {
    if a != [] && a[0] == b[0] {
      SubsequenceTail(a, b[1..]);
    }
  }

  lemma SubsequenceAppend<T>(a: seq<T>, b: seq<T>, x: T)
    requires Subsequence(a, b)
    ensures Subsequence(a + [x], b + [x])
  {
    if b == [] {
      assert a + [x] == b + [x];
    } else {
      assert (b + [x])[1..] == b[1..] + [x];
      if a == [] {
        assert a + [x] == [x];
        SubsequenceAppend(a, b[1..], x);
        SubsequenceWiden([x], b + [x]);
      } else if a[0] == b[0] {
        assert (a + [x])[1..] == a[1..] + [x];
        SubsequenceAppend(a[1..], b[1..], x);
      } else {
        SubsequenceAppend(a, b[1..], x);
      }
    }
  }

  lemma SubsequenceWithout<V(!new)>(a: Entries<V>, b: Entries<V>, k: string)
    requires Subsequence(a, b)
    ensures Subsequence(Without(a, k), Without(b, k))
  {
    if a != [] {
      if a[0] == b[0] {
        SubsequenceWithout(a[1..], b[1..], k);
        if a[0].0 != k {
          assert Without(a, k)[1..] == Without(a[1..], k);
          assert Without(b, k)[1..] == Without(b[1..], k);
        }
      } else {
        SubsequenceWithout(a, b[1..], k);
        if b[0].0 != k {
          assert Without(b, k)[1..] == Without(b[1..], k);
          SubsequenceWiden(Without(a, k), Without(b, k));
        }
      }
    }
  }

  /** The smaller cache sits inside the larger one, and until it has filled up the
      two are the same. */
  ghost predicate Included<V(!new)>(a: Entries<V>, b: Entries<V>, m: nat) {
    Subsequence(a, b) && (|a| == m || a == b)
  }

  /** Evicting from two sequences that overflow together, or from the smaller alone. */
  lemma EvictKeepsInclusion<V(!new)>(a: Entries<V>, b: Entries<V>, m: nat, n: nat)
    requires m <= n && |a| <= m + 1 && |b| <= n + 1
    requires Subsequence(a, b) && (|a| >= m || a == b)
    requires |b| == n + 1 ==> |a| == m + 1
    ensures Included(Evict(a, m), Evict(b, n), m)
  {
    if |a| == m + 1 {
      SubsequenceTail(a, b);
      assert Evict(a, m) == a[1..];
      if |b| == n + 1 {
        assert Evict(b, n) == b[1..];
      }
    }
  }

  lemma PutKeepsInclusion<V(!new)>(a: Entries<V>, b: Entries<V>, m: nat, n: nat, k: string, v: V)
    requires m <= n && Bounded(a, m) && Bounded(b, n) && Included(a, b, m)
    ensures Included(AfterPut(a, k, v, m), AfterPut(b, k, v, n), m)
  {
    WithoutDistinct(a, k);
    WithoutDistinct(b, k);
    SubsequenceIn(a, b);
    SubsequenceWithout(a, b, k);
    SubsequenceAppend(Without(a, k), Without(b, k), (k, v));
    if Lookup(a, k).Some? {
      assert (k, Lookup(a, k).value) in b;
    }
    EvictKeepsInclusion(Without(a, k) + [(k, v)], Without(b, k) + [(k, v)], m, n);
  }

  lemma GetKeepsInclusion<V(!new)>(a: Entries<V>, b: Entries<V>, m: nat, n: nat, k: string)
    requires m <= n && Bounded(a, m) && Bounded(b, n) && Included(a, b, m)
    ensures Included(MoveToEnd(a, k), MoveToEnd(b, k), m)
    ensures Lookup(a, k).Some? ==> Lookup(b, k) == Lookup(a, k)
  {
    WithoutDistinct(a, k);
    WithoutDistinct(b, k);
    SubsequenceIn(a, b);
    SubsequenceWithout(a, b, k);
    if Lookup(b, k).Some? {
      var v := Lookup(b, k).value;
      SubsequenceAppend(Without(a, k), Without(b, k), (k, v));
      if Lookup(a, k).Some? {
        assert (k, Lookup(a, k).value) in b;
        SoleEntry(b, (k, Lookup(a, k).value));
      } else {
        SubsequenceTail'(Without(a, k), Without(b, k), (k, v));
      }
    }
  }

  lemma SubsequenceTail'<T>(a: seq<T>, b: seq<T>, x: T)
    requires Subsequence(a, b)
    ensures Subsequence(a, b + [x])
  {
    if a != [] {
      assert (b + [x])[1..] == b[1..] + [x];
      SubsequenceTail'(if a[0] == b[0] then a[1..] else a, b[1..], x);
    }
  }

  /** Inclusion: on the same trace a larger bound keeps everything a smaller bound
      keeps, in the same order, so every hit of the smaller cache is a hit of the
      larger one with the same value. */
  lemma {:induction false} TraceInclusion<V(!new)>(ops: seq<Op<V>>, m: nat, n: nat)
    requires m <= n
    ensures Included(Replay(ops, m), Replay(ops, n), m)
    ensures forall k :: Lookup(Replay(ops, m), k).Some? ==> Lookup(Replay(ops, n), k) == Lookup(Replay(ops, m), k)
  {
    var a, b := Replay(ops, m), Replay(ops, n);
    TraceLaw(ops, m);
    TraceLaw(ops, n);
    if ops != [] {
      var earlier := ops[..|ops| - 1];
      TraceInclusion(earlier, m, n);
      TraceLaw(earlier, m);
      TraceLaw(earlier, n);
      match ops[|ops| - 1]
      case Get(k) => GetKeepsInclusion(Replay(earlier, m), Replay(earlier, n), m, n, k);
      case Put(k, v) => PutKeepsInclusion(Replay(earlier, m), Replay(earlier, n), m, n, k, v);
      case Clear =>
    }
    forall k | Lookup(a, k).Some? ensures Lookup(b, k) == Lookup(a, k) {
      GetKeepsInclusion(a, b, m, n, k);
    }
  }

  /** The smaller cache need not be the recent end of the larger one: a get that only
      the larger cache can answer reorders only the larger cache. */
  lemma InclusionIsNotSuffix()
    ensures var ops: seq<Op<int>> := [Put("x", 1), Put("y", 2), Get("x")];
            && Replay(ops, 1) == [("y", 2)]
            && Replay(ops, 2) == [("y", 2), ("x", 1)]
  {
    var o1: seq<Op<int>> := [Put("x", 1)];
    var o2: seq<Op<int>> := [Put("x", 1), Put("y", 2)];
    var o3: seq<Op<int>> := [Put("x", 1), Put("y", 2), Get("x")];
    assert o1[..0] == [] && o2[..1] == o1 && o3[..2] == o2;
    assert Replay(o1, 1) == [("x", 1)] && Replay(o1, 2) == [("x", 1)];
    var xy := [("x", 1), ("y", 2)];
    assert Without([("x", 1)], "y") == [("x", 1)];
    assert [("x", 1)] + [("y", 2)] == xy;
    assert Replay(o2, 1) == [("y", 2)];
    assert Replay(o2, 2) == xy;
    assert xy[1..] == [("y", 2)];
    assert Without(xy, "x") == [("y", 2)];
    assert Replay(o3, 2) == [("y", 2), ("x", 1)];
  }
}
