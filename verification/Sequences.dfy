/** Subsequences: what is left of a sequence when elements are skipped. */
module Sequences {

  /** a can be read off b by skipping elements. */
  predicate Subsequence<T(==)>(a: seq<T>, b: seq<T>) {
    if a == [] then true
    else if b == [] then false
    else if a[0] == b[0] then Subsequence(a[1..], b[1..])
    else Subsequence(a, b[1..])
  }

  lemma {:induction false} SubsequenceRefl<T>(a: seq<T>)
    ensures Subsequence(a, a)
  {
    if a != [] {
      SubsequenceRefl(a[1..]);
    }
  }

  /** Dropping the head of the shorter one, or prepending to the longer one. */
  lemma {:induction false} SubsequenceWeaken<T>(a: seq<T>, b: seq<T>)
    requires Subsequence(a, b)
    ensures a != [] ==> Subsequence(a[1..], b)
    ensures forall x :: Subsequence(a, [x] + b)
    decreases |b|, 0
  {
    if a != [] {
      if a[0] == b[0] {
        SubsequenceWeaken(a[1..], b[1..]);
        assert [b[0]] + b[1..] == b;
        assert Subsequence(a[1..], [b[0]] + b[1..]);
      } else {
        SubsequenceWeaken(a, b[1..]);
        assert [b[0]] + b[1..] == b;
        SubsequencePrepend(a[1..], b[1..], b[0]);
      }
      forall x
        ensures Subsequence(a, [x] + b)
      {
        assert ([x] + b)[1..] == b;
        if a[0] == x {
          assert Subsequence(a[1..], b);
        }
      }
    }
  }

  lemma SubsequencePrepend<T>(a: seq<T>, b: seq<T>, x: T)
    requires Subsequence(a, b)
    ensures Subsequence(a, [x] + b)
    decreases |b|, 1
  {
    SubsequenceWeaken(a, b);
  }

  lemma {:induction false} SubsequenceDropLast<T>(a: seq<T>, b: seq<T>)
    requires Subsequence(a, b) && a != []
    ensures b != [] && Subsequence(a[..|a| - 1], b[..|b| - 1]) && Subsequence(a[..|a| - 1], b)
    decreases |b|
  {
    var a', b' := a[..|a| - 1], b[..|b| - 1];
    if a[0] == b[0] {
      if |a| > 1 {
        SubsequenceDropLast(a[1..], b[1..]);
        assert a'[1..] == a[1..][..|a| - 2] && b'[1..] == b[1..][..|b| - 2];
      }
    } else {
      SubsequenceDropLast(a, b[1..]);
      assert b'[1..] == b[1..][..|b| - 2];
      if a' != [] {
        assert a'[0] == a[0] && b'[0] == b[0];
      }
    }
  }

  lemma SubsequenceSameHead<T>(x: T, a: seq<T>, b: seq<T>)
    requires Subsequence(a, b)
    ensures Subsequence([x] + a, [x] + b)
  {
    assert ([x] + a)[1..] == a && ([x] + b)[1..] == b;
  }

  /** Appending to the longer sequence, or the same element to both. */
  lemma {:induction false} SubsequenceAppend<T>(a: seq<T>, b: seq<T>, x: T)
    requires Subsequence(a, b)
    ensures Subsequence(a, b + [x]) && Subsequence(a + [x], b + [x])
    decreases |b|
  {
    if b == [] {
      assert [x] == [x] + [];
    } else {
      assert (b + [x])[1..] == b[1..] + [x];
      if a == [] {
        SubsequenceAppend(a, b[1..], x);
        assert a + [x] == [x];
        SubsequencePrepend([x], b[1..] + [x], b[0]);
        assert [b[0]] + (b[1..] + [x]) == b + [x];
      } else {
        assert (a + [x])[1..] == a[1..] + [x];
        if a[0] == b[0] {
          SubsequenceAppend(a[1..], b[1..], x);
        } else {
          SubsequenceAppend(a, b[1..], x);
        }
      }
    }
  }
}
