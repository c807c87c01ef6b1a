/**
 * The bounded cache: a map to list elements and a recency list, most recent
 * first.  It refines a recency sequence, and a larger cache always contains a
 * smaller one fed the same trace.
 */
module Lru {
  import opened Wrappers
  import opened Sequences

  // ---------- the recency sequence ----------

  type Recency<K, V> = seq<(K, V)>

  /** Without the pair of this key. */
  function Remove<K(==), V>(s: Recency<K, V>, k: K): Recency<K, V> {
    if s == [] then []
    else if s[0].0 == k then Remove(s[1..], k)
    else [s[0]] + Remove(s[1..], k)
  }

  function Lookup<K(==), V>(s: Recency<K, V>, k: K): Option<V> {
    if s == [] then None
    else if s[0].0 == k then Some(s[0].1)
    else Lookup(s[1..], k)
  }

  /** A known key is refreshed and moved to the front; a new one may push the last pair out. */
  function Insert<K(==), V>(s: Recency<K, V>, cap: nat, k: K, v: V): Recency<K, V> {
    if Lookup(s, k).Some? then [(k, v)] + Remove(s, k)
    else if |s| >= cap && s != [] then [(k, v)] + s[..|s| - 1]
    else [(k, v)] + s
  }

  /** A hit moves to the front; a miss inserts nothing. */
  function Touch<K(==), V>(s: Recency<K, V>, k: K): Recency<K, V> {
    if Lookup(s, k).Some? then [(k, Lookup(s, k).value)] + Remove(s, k) else s
  }

  ghost predicate DistinctKeys<K, V>(s: Recency<K, V>) {
    forall i, j :: 0 <= i < j < |s| ==> s[i].0 != s[j].0
  }

  ghost predicate NoKey<K, V>(s: Recency<K, V>, k: K) {
    forall i :: 0 <= i < |s| ==> s[i].0 != k
  }

  lemma {:induction false} LookupIff<K, V>(s: Recency<K, V>, k: K)
    ensures Lookup(s, k).None? <==> NoKey(s, k)
  {
    if s != [] {
      LookupIff(s[1..], k);
      assert forall i :: 0 < i < |s| ==> s[i] == s[1..][i - 1];
      assert forall i :: 0 <= i < |s[1..]| ==> s[1..][i] == s[i + 1];
    }
  }

  lemma {:induction false} LookupAt<K, V>(s: Recency<K, V>, i: nat)
    requires DistinctKeys(s) && i < |s|
    ensures Lookup(s, s[i].0) == Some(s[i].1)
  {
    if i > 0 {
      assert s[1..][i - 1] == s[i];
      LookupAt(s[1..], i - 1);
    }
  }

  lemma {:induction false} RemoveAbsent<K, V>(s: Recency<K, V>, k: K)
    requires NoKey(s, k)
    ensures Remove(s, k) == s
  {
    if s != [] {
      assert NoKey(s[1..], k);
      RemoveAbsent(s[1..], k);
    }
  }

  /** Removing the pair at i is cutting it out. */
  lemma {:induction false} RemoveAt<K, V>(s: Recency<K, V>, i: nat)
    requires DistinctKeys(s) && i < |s|
    ensures Remove(s, s[i].0) == s[..i] + s[i + 1..]
  {
    if i == 0 {
      RemoveAbsent(s[1..], s[0].0);
    } else {
      assert s[1..][i - 1] == s[i];
      RemoveAt(s[1..], i - 1);
      assert s[1..][..i - 1] == s[1..i] && s[1..][i..] == s[i + 1..];
      assert [s[0]] + s[1..i] == s[..i];
    }
  }

  lemma {:induction false} RemoveIgnoresValue<K, V>(s: Recency<K, V>, i: nat, v: V)
    requires i < |s|
    ensures Remove(s[i := (s[i].0, v)], s[i].0) == Remove(s, s[i].0)
  {
    var s' := s[i := (s[i].0, v)];
    if i == 0 {
      assert s'[1..] == s[1..];
    } else {
      assert s'[1..] == s[1..][i - 1 := (s[i].0, v)];
      RemoveIgnoresValue(s[1..], i - 1, v);
    }
  }

  lemma {:induction false} RemoveClears<K, V>(s: Recency<K, V>, k: K)
    requires DistinctKeys(s)
    ensures NoKey(Remove(s, k), k) && DistinctKeys(Remove(s, k))
    ensures |Remove(s, k)| == if Lookup(s, k).Some? then |s| - 1 else |s|
    ensures forall j :: j != k ==> Lookup(Remove(s, k), j) == Lookup(s, j)
    ensures forall j :: NoKey(s, j) ==> NoKey(Remove(s, k), j)
  {
    if s != [] {
      RemoveClears(s[1..], k);
      if s[0].0 == k {
        LookupIff(s[1..], k);
        assert NoKey(s[1..], k);
      } else {
        var rest := Remove(s[1..], k);
        assert NoKey(s[1..], s[0].0);
        assert NoKey(rest, s[0].0);
        forall j | NoKey(s, j)
          ensures NoKey([s[0]] + rest, j)
        {
          assert NoKey(s[1..], j);
        }
      }
    }
  }

  /** Both operations keep the keys distinct and the size within the capacity. */
  lemma PutKeepsShape<K, V>(s: Recency<K, V>, cap: nat, k: K, v: V)
    requires DistinctKeys(s) && |s| <= cap && cap > 0
    ensures DistinctKeys(Insert(s, cap, k, v)) && |Insert(s, cap, k, v)| <= cap
  {
    LookupIff(s, k);
    RemoveClears(s, k);
  }

  lemma TouchKeepsShape<K, V>(s: Recency<K, V>, k: K)
    requires DistinctKeys(s)
    ensures DistinctKeys(Touch(s, k)) && |Touch(s, k)| == |s|
  {
    LookupIff(s, k);
    RemoveClears(s, k);
  }

  /**
   * A hit returns the latest value put: a put is seen by the next lookup of its
   * key, and other keys keep their values, except the one least recently touched
   * when a full cache takes a new key.
   */
  lemma PutThenLookup<K, V>(s: Recency<K, V>, cap: nat, k: K, v: V, j: K)
    requires DistinctKeys(s) && |s| <= cap && cap > 0
    ensures Lookup(Insert(s, cap, k, v), j) ==
              if j == k then Some(v)
              else if Lookup(s, k).None? && |s| == cap && s[|s| - 1].0 == j then None
              else Lookup(s, j)
  {
    RemoveClears(s, k);
    if Lookup(s, k).None? && |s| == cap && j != k {
      LookupWithoutLast(s, j);
    }
  }

  lemma LookupWithoutLast<K, V>(s: Recency<K, V>, j: K)
    requires DistinctKeys(s) && s != []
    ensures Lookup(s[..|s| - 1], j) == if s[|s| - 1].0 == j then None else Lookup(s, j)
  {
    var front, last := s[..|s| - 1], s[|s| - 1];
    assert s == front + [last];
    LookupConcat(front, [last], j);
    LookupIff(front, last.0);
  }

  lemma TouchThenLookup<K, V>(s: Recency<K, V>, k: K, j: K)
    requires DistinctKeys(s)
    ensures Lookup(Touch(s, k), j) == Lookup(s, j)
  {
    RemoveClears(s, k);
  }

  lemma {:induction false} LookupConcat<K, V>(a: Recency<K, V>, b: Recency<K, V>, k: K)
    ensures Lookup(a + b, k) == if Lookup(a, k).Some? then Lookup(a, k) else Lookup(b, k)
  {
    if a == [] {
      assert a + b == b;
    } else {
      assert (a + b)[1..] == a[1..] + b;
      LookupConcat(a[1..], b, k);
    }
  }

  // ---------- inclusion ----------

  lemma {:induction false} SubsequenceRemove<K, V>(a: Recency<K, V>, b: Recency<K, V>, k: K)
    requires Subsequence(a, b)
    ensures Subsequence(Remove(a, k), Remove(b, k))
    decreases |b|
  {
    if a != [] {
      if a[0] == b[0] {
        SubsequenceRemove(a[1..], b[1..], k);
      } else {
        SubsequenceRemove(a, b[1..], k);
        SubsequencePrepend(Remove(a, k), Remove(b[1..], k), b[0]);
      }
    }
  }

  lemma {:induction false} SubsequenceLookup<K, V>(a: Recency<K, V>, b: Recency<K, V>, k: K)
    requires Subsequence(a, b) && DistinctKeys(b)
    ensures Lookup(a, k).Some? ==> Lookup(b, k) == Lookup(a, k)
    decreases |b|
  {
    if a != [] {
      if a[0] == b[0] {
        SubsequenceLookup(a[1..], b[1..], k);
      } else {
        SubsequenceLookup(a, b[1..], k);
        LookupIff(b[1..], b[0].0);
        assert NoKey(b[1..], b[0].0);
      }
    }
  }

  /**
   * The smaller cache's recency list can be read off the larger one's; a smaller cache that
   * is not full has missed nothing.
   */
  ghost predicate Includes<K, V>(large: Recency<K, V>, small: Recency<K, V>, m: nat, n: nat) {
    && DistinctKeys(small) && DistinctKeys(large)
    && |small| <= n && |large| <= m
    && Subsequence(small, large)
    && (|small| < n ==> small == large)
  }

  lemma PutKeepsInclusion<K, V>(large: Recency<K, V>, small: Recency<K, V>, m: nat, n: nat, k: K, v: V)
    requires Includes(large, small, m, n) && 0 < n <= m
    ensures Includes(Insert(large, m, k, v), Insert(small, n, k, v), m, n)
  {
    PutKeepsShape(large, m, k, v);
    PutKeepsShape(small, n, k, v);
    SubsequenceLookup(small, large, k);
    if small != large || |small| == n {
      SubsequenceRemove(small, large, k);
      RemoveClears(small, k);
      if Lookup(small, k).Some? {
        SubsequenceSameHead((k, v), Remove(small, k), Remove(large, k));
      } else {
        LookupIff(small, k);
        RemoveAbsent(small, k);
        if Lookup(large, k).Some? {
          SubsequenceDropLast(small, Remove(large, k));
          SubsequenceSameHead((k, v), small[..n - 1], Remove(large, k));
        } else {
          SubsequenceDropLast(small, large);
          SubsequenceSameHead((k, v), small[..n - 1], if |large| >= m then large[..|large| - 1] else large);
        }
      }
    } else {
      SubsequenceRefl(Insert(small, n, k, v));
    }
  }

  lemma TouchKeepsInclusion<K, V>(large: Recency<K, V>, small: Recency<K, V>, m: nat, n: nat, k: K)
    requires Includes(large, small, m, n)
    ensures Includes(Touch(large, k), Touch(small, k), m, n)
    ensures Lookup(small, k).Some? ==> Lookup(large, k) == Lookup(small, k)
  {
    TouchKeepsShape(large, k);
    TouchKeepsShape(small, k);
    SubsequenceLookup(small, large, k);
    SubsequenceRemove(small, large, k);
    if Lookup(small, k).Some? {
      SubsequenceSameHead((k, Lookup(small, k).value), Remove(small, k), Remove(large, k));
    } else if Lookup(large, k).Some? {
      LookupIff(small, k);
      RemoveAbsent(small, k);
      SubsequencePrepend(small, Remove(large, k), (k, Lookup(large, k).value));
    }
  }

  /** What a cache is asked to do; a reset starts over with an empty cache of the same capacity. */
  datatype Op<K, V> = DoPut(k: K, v: V) | DoGet(k: K) | DoReset

  function Perform<K(==), V>(s: Recency<K, V>, cap: nat, op: Op<K, V>): Recency<K, V> {
    match op
    case DoPut(k, v) => Insert(s, cap, k, v)
    case DoGet(k) => Touch(s, k)
    case DoReset => []
  }

  function Answer<K(==), V>(s: Recency<K, V>, op: Op<K, V>): Option<V> {
    if op.DoGet? then Lookup(s, op.k) else None
  }

  function Run<K(==), V>(s: Recency<K, V>, cap: nat, ops: seq<Op<K, V>>): Recency<K, V>
    decreases |ops|
  {
    if ops == [] then s else Run(Perform(s, cap, ops[0]), cap, ops[1..])
  }

  function Answers<K(==), V>(s: Recency<K, V>, cap: nat, ops: seq<Op<K, V>>): (r: seq<Option<V>>)
    ensures |r| == |ops|
    decreases |ops|
  {
    if ops == [] then [] else [Answer(s, ops[0])] + Answers(Perform(s, cap, ops[0]), cap, ops[1..])
  }

  lemma StepKeepsInclusion<K, V>(large: Recency<K, V>, small: Recency<K, V>, m: nat, n: nat, op: Op<K, V>)
    requires Includes(large, small, m, n) && 0 < n <= m
    ensures Includes(Perform(large, m, op), Perform(small, n, op), m, n)
    ensures Answer(small, op).Some? ==> Answer(large, op) == Answer(small, op)
  {
    hide Insert, Touch, Lookup;
    match op
    case DoPut(k, v) => PutKeepsInclusion(large, small, m, n, k, v);
    case DoGet(k) => TouchKeepsInclusion(large, small, m, n, k);
    case DoReset =>
  }

  lemma {:induction false} TraceKeepsInclusion<K, V>(large: Recency<K, V>, small: Recency<K, V>, m: nat, n: nat,
                                                     ops: seq<Op<K, V>>)
    requires Includes(large, small, m, n) && 0 < n <= m
    ensures Includes(Run(large, m, ops), Run(small, n, ops), m, n)
    ensures forall i :: 0 <= i < |ops| && Answers(small, n, ops)[i].Some? ==>
              Answers(large, m, ops)[i] == Answers(small, n, ops)[i]
    decreases |ops|
  {
    hide Includes, Perform, Answer;
    if ops != [] {
      StepKeepsInclusion(large, small, m, n, ops[0]);
      TraceKeepsInclusion(Perform(large, m, ops[0]), Perform(small, n, ops[0]), m, n, ops[1..]);
    }
  }

  /**
   * The inclusion property over any trace of puts, gets and resets: the larger
   * cache holds everything the smaller one holds, in the same relative order with
   * the same values, so each hit of the smaller one is the same hit in the larger.
   */
  lemma LargerCacheIncludesSmaller<K, V>(m: nat, n: nat, ops: seq<Op<K, V>>)
    requires 0 < n <= m
    ensures Subsequence(Run<K, V>([], n, ops), Run<K, V>([], m, ops))
    ensures forall i :: 0 <= i < |ops| && Answers<K, V>([], n, ops)[i].Some? ==>
              Answers<K, V>([], m, ops)[i] == Answers<K, V>([], n, ops)[i]
  {
    TraceKeepsInclusion<K, V>([], [], m, n, ops);
  }

  // ---------- recency over traces ----------

  /** The operation uses the key: it puts it, or it gets it and hits. */
  predicate Uses<K(==), V>(s: Recency<K, V>, op: Op<K, V>, k: K) {
    match op
    case DoPut(j, _) => j == k
    case DoGet(j) => j == k && Lookup(s, k).Some?
    case DoReset => false
  }

  /** The position of the latest use of the key in a trace from the empty cache, or -1. */
  function LastUse<K(==), V>(cap: nat, ops: seq<Op<K, V>>, k: K): int
    decreases |ops|
  {
    if ops == [] then -1
    else
      var front, op := ops[..|ops| - 1], ops[|ops| - 1];
      if Uses(Run([], cap, front), op, k) then |front| else LastUse(cap, front, k)
  }

  /** The list stands in the order of latest use, newest first, and every cached key has been used. */
  ghost predicate ByLastUse<K, V>(cap: nat, ops: seq<Op<K, V>>) {
    var s := Run<K, V>([], cap, ops);
    && (forall i :: 0 <= i < |s| ==> 0 <= LastUse(cap, ops, s[i].0))
    && (forall i, j :: 0 <= i < j < |s| ==> LastUse(cap, ops, s[i].0) > LastUse(cap, ops, s[j].0))
  }

  lemma {:induction false} OneMoreOp<K, V>(s: Recency<K, V>, cap: nat, ops: seq<Op<K, V>>, op: Op<K, V>)
    ensures Run(s, cap, ops + [op]) == Perform(Run(s, cap, ops), cap, op)
    decreases |ops|
  {
    if ops == [] {
      assert ops + [op] == [op];
    } else {
      assert (ops + [op])[1..] == ops[1..] + [op];
      OneMoreOp(Perform(s, cap, ops[0]), cap, ops[1..], op);
    }
  }

  lemma {:induction false} LastUseIsPast<K, V>(cap: nat, ops: seq<Op<K, V>>, k: K)
    ensures -1 <= LastUse(cap, ops, k) < |ops|
    decreases |ops|
  {
    if ops != [] {
      LastUseIsPast(cap, ops[..|ops| - 1], k);
    }
  }

  lemma LastUseAppend<K, V>(cap: nat, ops: seq<Op<K, V>>, op: Op<K, V>, k: K)
    ensures LastUse(cap, ops + [op], k) == if Uses(Run([], cap, ops), op, k) then |ops| else LastUse(cap, ops, k)
  {
    assert (ops + [op])[..|ops|] == ops;
  }

  lemma {:induction false} RunKeepsShape<K, V>(s: Recency<K, V>, cap: nat, ops: seq<Op<K, V>>)
    requires DistinctKeys(s) && |s| <= cap && cap > 0
    ensures DistinctKeys(Run(s, cap, ops)) && |Run(s, cap, ops)| <= cap
    decreases |ops|
  {
    if ops != [] {
      match ops[0] {
        case DoPut(k, v) => PutKeepsShape(s, cap, k, v);
        case DoGet(k) => TouchKeepsShape(s, k);
        case DoReset =>
      }
      RunKeepsShape(Perform(s, cap, ops[0]), cap, ops[1..]);
    }
  }

  /** Ranked newest first by some measure. */
  ghost predicate Ranked<K, V>(s: Recency<K, V>, rank: K -> int) {
    && (forall i :: 0 <= i < |s| ==> 0 <= rank(s[i].0))
    && (forall i, j :: 0 <= i < j < |s| ==> rank(s[i].0) > rank(s[j].0))
  }

  /** What is left of s without position `cut`; all of it when `cut` is past its end. */
  function Without<K, V>(s: Recency<K, V>, cut: nat): Recency<K, V> {
    if cut < |s| then s[..cut] + s[cut + 1..] else s
  }

  lemma WithoutAt<K, V>(s: Recency<K, V>, cut: nat, a: nat)
    requires a < |Without(s, cut)|
    ensures a < |s| && (a >= cut ==> a + 1 < |s|)
    ensures Without(s, cut)[a] == if a < cut then s[a] else s[a + 1]
  {
  }

  /** A used key goes to the front of what is left, and nothing else changes places. */
  lemma FrontIsNewest<K, V>(s: Recency<K, V>, k: K, v: V, cut: nat, rank: K -> int, rank': K -> int, now: nat)
    requires Ranked(s, rank)
    requires forall i :: 0 <= i < |s| && i != cut ==> s[i].0 != k
    requires forall i :: 0 <= i < |s| && s[i].0 != k ==> rank'(s[i].0) == rank(s[i].0) < now
    requires rank'(k) == now
    ensures Ranked([(k, v)] + Without(s, cut), rank')
  {
    hide Without;
    var rest := Without(s, cut);
    var r := [(k, v)] + rest;
    forall a | 1 <= a < |r|
      ensures 0 <= rank'(r[a].0) < now
    {
      WithoutAt(s, cut, a - 1);
    }
    forall a, b | 1 <= a < b < |r|
      ensures rank'(r[a].0) > rank'(r[b].0)
    {
      WithoutAt(s, cut, a - 1);
      WithoutAt(s, cut, b - 1);
    }
  }

  /** A used key moves to the front from its own place, or pushes the last one out, or nobody. */
  lemma UseMovesToFront<K, V>(s: Recency<K, V>, cap: nat, op: Op<K, V>) returns (v: V, cut: nat)
    requires DistinctKeys(s) && !op.DoReset? && Uses(s, op, op.k)
    ensures Perform(s, cap, op) == [(op.k, v)] + Without(s, cut)
    ensures forall i :: 0 <= i < |s| && i != cut ==> s[i].0 != op.k
    ensures cut < |s| ==> s[cut].0 == op.k || (cut == |s| - 1 && |s| >= cap)
  {
    var k := op.k;
    LookupIff(s, k);
    if Lookup(s, k).Some? {
      v := if op.DoPut? then op.v else Lookup(s, k).value;
      cut :| 0 <= cut < |s| && s[cut].0 == k;
      RemoveAt(s, cut);
    } else {
      v := op.v;
      cut := if |s| >= cap && s != [] then |s| - 1 else |s|;
      assert |s| >= cap && s != [] ==> s[..|s| - 1] == s[..|s| - 1] + s[|s|..];
    }
  }

  lemma OpKeepsOrder<K, V>(s: Recency<K, V>, cap: nat, op: Op<K, V>, rank: K -> int, rank': K -> int, now: nat)
    requires Ranked(s, rank) && DistinctKeys(s)
    requires forall i :: 0 <= i < |s| ==> rank(s[i].0) < now
    requires forall i :: 0 <= i < |s| && !Uses(s, op, s[i].0) ==> rank'(s[i].0) == rank(s[i].0)
    requires !op.DoReset? && Uses(s, op, op.k) ==> rank'(op.k) == now
    ensures Ranked(Perform(s, cap, op), rank')
  {
    hide Insert, Remove, Lookup, Without;
    if !op.DoReset? && Uses(s, op, op.k) {
      var v, cut := UseMovesToFront(s, cap, op);
      FrontIsNewest(s, op.k, v, cut, rank, rank', now);
    } else if op.DoGet? {
      MissChangesNothing(s, op.k);
      LookupIff(s, op.k);
    }
  }

  lemma MissChangesNothing<K, V>(s: Recency<K, V>, k: K)
    ensures Lookup(s, k).None? ==> Touch(s, k) == s
  {
  }

  /** After any trace of puts, gets and resets the list stands in the order of latest use. */
  lemma {:induction false} ListIsByLastUse<K, V>(cap: nat, ops: seq<Op<K, V>>)
    requires cap > 0
    ensures ByLastUse(cap, ops)
    decreases |ops|
  {
    if ops != [] {
      var front, op := ops[..|ops| - 1], ops[|ops| - 1];
      assert ops == front + [op];
      ListIsByLastUse(cap, front);
      RunKeepsShape<K, V>([], cap, front);
      OneMoreOp<K, V>([], cap, front, op);
      var s := Run<K, V>([], cap, front);
      forall i | 0 <= i < |s|
        ensures LastUse(cap, front, s[i].0) < |front|
        ensures !Uses(s, op, s[i].0) ==> LastUse(cap, ops, s[i].0) == LastUse(cap, front, s[i].0)
      {
        LastUseIsPast(cap, front, s[i].0);
        LastUseAppend(cap, front, op, s[i].0);
      }
      if !op.DoReset? {
        LastUseAppend(cap, front, op, op.k);
      }
      OpKeepsOrder(s, cap, op, k => LastUse(cap, front, k), k => LastUse(cap, ops, k), |front|);
    }
  }

  /**
   * Which key is evicted: when a full cache takes a new key, exactly the cached key
   * whose latest put or hit is oldest.
   */
  lemma EvictedIsOldest<K, V>(cap: nat, ops: seq<Op<K, V>>, k: K, v: V, j: K)
    requires cap > 0
    requires var s := Run<K, V>([], cap, ops); |s| == cap && Lookup(s, k).None? && Lookup(s, j).Some?
    ensures var s := Run<K, V>([], cap, ops);
      Lookup(Run([], cap, ops + [DoPut(k, v)]), j).None?
      <==> forall i :: 0 <= i < |s| ==> LastUse(cap, ops, j) <= LastUse(cap, ops, s[i].0)
  {
    var s := Run<K, V>([], cap, ops);
    ListIsByLastUse(cap, ops);
    RunKeepsShape<K, V>([], cap, ops);
    OneMoreOp<K, V>([], cap, ops, DoPut(k, v));
    PutThenLookup(s, cap, k, v, j);
    LookupIff(s, j);
    var n :| 0 <= n < |s| && s[n].0 == j;
    assert LastUse(cap, ops, s[|s| - 1].0) <= LastUse(cap, ops, j);
  }

  /** Putting something in front of what is left moves position i back by one at most. */
  lemma FrontMovesBackOne<K, V>(s: Recency<K, V>, cut: nat, x: (K, V), i: nat) returns (i': nat)
    requires i < |s| && i != cut
    ensures i' <= i + 1 && i' < |[x] + Without(s, cut)| && ([x] + Without(s, cut))[i'] == s[i]
  {
    i' := if i < cut then i + 1 else i;
  }

  /** A key at position i, not the last of a full list, is at most one further back after any operation but a reset. */
  lemma OpMovesBackOne<K, V>(s: Recency<K, V>, cap: nat, op: Op<K, V>, i: nat) returns (i': nat)
    requires DistinctKeys(s) && |s| <= cap && i < |s| && i + 1 < cap && !op.DoReset?
    ensures i' <= i + 1 && i' < |Perform(s, cap, op)| && Perform(s, cap, op)[i'].0 == s[i].0
  {
    hide Insert, Remove, Lookup, Touch, Without;
    if Uses(s, op, op.k) {
      var v, cut := UseMovesToFront(s, cap, op);
      if s[i].0 == op.k {
        i' := 0;
      } else {
        i' := FrontMovesBackOne(s, cut, (op.k, v), i);
      }
    } else {
      MissChangesNothing(s, op.k);
      i' := i;
    }
  }

  /** A key at position i survives any cap - 1 - i operations that are not resets. */
  lemma {:induction false} FrontSurvives<K, V>(s: Recency<K, V>, cap: nat, i: nat, more: seq<Op<K, V>>)
    requires DistinctKeys(s) && |s| <= cap && i < |s| && i + |more| < cap
    requires forall op :: op in more ==> !op.DoReset?
    ensures Lookup(Run(s, cap, more), s[i].0).Some?
    decreases |more|
  {
    if more == [] {
      LookupAt(s, i);
    } else {
      var i' := OpMovesBackOne(s, cap, more[0], i);
      assert more[0] in more;
      RunKeepsShape(s, cap, more[..1]);
      assert Run(s, cap, more[..1]) == Perform(s, cap, more[0]);
      FrontSurvives(Perform(s, cap, more[0]), cap, i', more[1..]);
    }
  }

  /** A key just put or hit survives the next cap - 1 operations, whatever they put or get. */
  lemma JustUsedSurvives<K, V>(cap: nat, ops: seq<Op<K, V>>, k: K, more: seq<Op<K, V>>)
    requires cap > 0 && ops != [] && LastUse(cap, ops, k) == |ops| - 1
    requires |more| < cap && forall op :: op in more ==> !op.DoReset?
    ensures Lookup(Run(Run([], cap, ops), cap, more), k).Some?
  {
    var front, op := ops[..|ops| - 1], ops[|ops| - 1];
    assert ops == front + [op];
    OneMoreOp<K, V>([], cap, front, op);
    LastUseIsPast(cap, front, k);
    RunKeepsShape<K, V>([], cap, ops);
    assert Run([], cap, ops)[0].0 == k;
    FrontSurvives(Run([], cap, ops), cap, 0, more);
  }

  // ---------- the cache ----------

  /** A list element; the map and the list share it. */
  class Element<K, V> {
    const key: K
    var value: V

    constructor (key: K, value: V)
      ensures this.key == key && this.value == value
    {
      this.key := key;
      this.value := value;
    }
  }

  /** Map and list hold the same elements, one per key. */
  ghost predicate Agree<K, V>(items: map<K, Element<K, V>>, ll: seq<Element<K, V>>) {
    && (forall i, j :: 0 <= i < j < |ll| ==> ll[i].key != ll[j].key)
    && (forall e :: e in ll ==> e.key in items && items[e.key] == e)
    && (forall k :: k in items ==> items[k] in ll && items[k].key == k)
  }

  /** Element i moved to the front. */
  function ToFront<T>(s: seq<T>, i: nat): seq<T>
    requires i < |s|
  {
    [s[i]] + s[..i] + s[i + 1..]
  }

  lemma ToFrontAt<T>(s: seq<T>, i: nat, j: nat)
    requires i < |s| && j < |s|
    ensures ToFront(s, i)[j] == if j == 0 then s[i] else if j <= i then s[j - 1] else s[j]
  {
  }

  lemma ToFrontElements<T>(s: seq<T>, i: nat)
    requires i < |s|
    ensures forall e :: e in ToFront(s, i) <==> e in s
  {
    assert s == s[..i] + [s[i]] + s[i + 1..];
  }

  lemma MoveKeepsAgreement<K, V>(items: map<K, Element<K, V>>, ll: seq<Element<K, V>>, i: nat)
    requires Agree(items, ll) && i < |ll|
    ensures Agree(items, ToFront(ll, i))
  {
    hide ToFront;
    ToFrontElements(ll, i);
    var r := ToFront(ll, i);
    assert |r| == |ll| by {
      ToFrontLength(ll, i);
    }
    forall a, b | 0 <= a < b < |r|
      ensures r[a].key != r[b].key
    {
      ToFrontAt(ll, i, a);
      ToFrontAt(ll, i, b);
    }
    forall k | k in items
      ensures items[k] in r
    {
      assert items[k] in ll;
    }
    forall j | 0 <= j < |r|
      ensures r[j] in ll
    {
      ToFrontAt(ll, i, j);
    }
  }

  lemma ToFrontLength<T>(s: seq<T>, i: nat)
    requires i < |s|
    ensures |ToFront(s, i)| == |s|
  {
  }

  lemma EvictionKeepsAgreement<K, V>(items: map<K, Element<K, V>>, ll: seq<Element<K, V>>)
    requires Agree(items, ll) && ll != []
    ensures Agree(items - {ll[|ll| - 1].key}, ll[..|ll| - 1])
  {
    var last := ll[|ll| - 1];
    assert ll == ll[..|ll| - 1] + [last];
    forall k | k in items && k != last.key
      ensures items[k] in ll[..|ll| - 1]
    {
    }
  }

  lemma InsertionKeepsAgreement<K, V>(items: map<K, Element<K, V>>, ll: seq<Element<K, V>>, el: Element<K, V>)
    requires Agree(items, ll) && el.key !in items
    ensures Agree(items[el.key := el], [el] + ll)
  {
    forall e | e in ll
      ensures e.key != el.key
    {
    }
    var r := [el] + ll;
    assert forall i :: 1 <= i < |r| ==> r[i] in ll;
  }

  /** The recency sequence a list stands for. */
  ghost function View<K, V>(ll: seq<Element<K, V>>): (s: Recency<K, V>)
    reads ll
    ensures |s| == |ll| && forall i :: 0 <= i < |ll| ==> s[i] == (ll[i].key, ll[i].value)
  {
    seq(|ll|, i requires 0 <= i < |ll| reads ll => (ll[i].key, ll[i].value))
  }

  /** Moving an element moves its pair. */
  lemma ViewOfMove<K, V>(ll: seq<Element<K, V>>, i: nat)
    requires i < |ll| && DistinctKeys(View(ll))
    ensures View(ToFront(ll, i)) == [(ll[i].key, ll[i].value)] + Remove(View(ll), ll[i].key)
  {
    RemoveAt(View(ll), i);
    forall j | 0 <= j < |ll|
      ensures View(ToFront(ll, i))[j] == ([(ll[i].key, ll[i].value)] + (View(ll)[..i] + View(ll)[i + 1..]))[j]
    {
      ToFrontAt(ll, i, j);
    }
  }

  class LruCache<K(==), V> {
    const cap: nat
    var items: map<K, Element<K, V>>
    /** The linked list, front first. */
    var ll: seq<Element<K, V>>

    ghost predicate Valid()
      reads this
    {
      cap > 0 && |ll| <= cap && Agree(items, ll)
    }

    ghost function Contents(): Recency<K, V>
      reads this, ll
    {
      View(ll)
    }

    constructor (cap: int)
      ensures Valid() && Contents() == [] && ll == [] && this.cap == if cap <= 0 then 4096 else cap
    {
      this.cap := if cap <= 0 then 4096 else cap;
      items := map[];
      ll := [];
    }

    lemma KeysAreDistinct()
      requires Valid()
      ensures DistinctKeys(Contents())
    {
    }

    /** A key is in the map exactly when the recency sequence knows it, with the same value. */
    lemma ItemsMatch(key: K)
      requires Valid()
      ensures key in items <==> Lookup(Contents(), key).Some?
      ensures key in items ==> Lookup(Contents(), key) == Some(items[key].value)
    {
      KeysAreDistinct();
      LookupIff(Contents(), key);
      if key in items {
        var i :| 0 <= i < |ll| && ll[i] == items[key];
        LookupAt(Contents(), i);
      }
    }

    method MoveToFront(el: Element<K, V>)
      requires Valid() && el in ll
      modifies this`ll
      ensures Valid() && |ll| == |old(ll)| && (forall i :: 0 <= i < |ll| ==> ll[i] in old(ll))
      ensures Contents() == [(el.key, el.value)] + Remove(old(Contents()), el.key)
    {
      var i :| 0 <= i < |ll| && ll[i] == el;
      KeysAreDistinct();
      hide Agree, Remove, DistinctKeys;
      ViewOfMove(ll, i);
      MoveKeepsAgreement(items, ll, i);
      ToFrontElements(ll, i);
      ToFrontLength(ll, i);
      ll := ToFront(ll, i);
    }

    /** Overwrites a value and moves its element to the front. */
    method Refresh(el: Element<K, V>, value: V)
      requires Valid() && el in ll
      modifies this`ll, el
      ensures Valid() && (forall i :: 0 <= i < |ll| ==> ll[i] in old(ll))
      ensures Contents() == [(el.key, value)] + Remove(old(Contents()), el.key)
    {
      ghost var i :| 0 <= i < |ll| && ll[i] == el;
      ghost var before := Contents();
      el.value := value;
      assert Contents() == before[i := (el.key, value)];
      RemoveIgnoresValue(before, i, value);
      MoveToFront(el);
    }

    /** Makes room if the cache is full, and puts a new element in front. */
    method PushFront(key: K, value: V)
      requires Valid() && key !in items
      modifies this
      ensures Valid() && |ll| > 0 && fresh(ll[0])
      ensures ll[1..] == if |old(ll)| >= cap then old(ll)[..|old(ll)| - 1] else old(ll)
      ensures (ll[0].key, ll[0].value) == (key, value)
    {
      if |ll| >= cap {
        EvictionKeepsAgreement(items, ll);
        var oldest := ll[|ll| - 1];
        ll := ll[..|ll| - 1];
        items := items - {oldest.key};
      }
      var el := new Element(key, value);
      InsertionKeepsAgreement(items, ll, el);
      ll := [el] + ll;
      items := items[key := el];
    }

    method Put(key: K, value: V)
      requires Valid()
      modifies this, ll
      ensures Valid() && Contents() == Insert(old(Contents()), cap, key, value)
      ensures Contents() != [] && Contents()[0] == (key, value)
      ensures forall i :: 0 <= i < |ll| ==> ll[i] in old(ll) || fresh(ll[i])
    {
      hide Agree, Remove, Lookup;
      ItemsMatch(key);
      if key in items {
        ItemsAreListed(key);
        Refresh(items[key], value);
        return;
      }
      PushFront(key, value);
      assert forall i :: 1 <= i < |ll| ==> ll[i] == ll[1..][i - 1];
    }

    lemma ItemsAreListed(key: K)
      requires Valid() && key in items
      ensures items[key] in ll && items[key].key == key
    {
    }

    method Get(key: K) returns (value: Option<V>)
      requires Valid()
      modifies this`ll
      ensures Valid() && value == Lookup(old(Contents()), key) && Contents() == Touch(old(Contents()), key)
      ensures value.Some? ==> Contents() != [] && Contents()[0] == (key, value.value)
      ensures forall i :: 0 <= i < |ll| ==> ll[i] in old(ll)
    {
      ItemsMatch(key);
      if key !in items {
        return None;
      }
      var el := items[key];
      MoveToFront(el);
      return Some(el.value);
    }
  }
}
