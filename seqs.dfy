/** Order-preserving row selection (a boolean mask applied to a frame), and the
    facts about it that the reconciliation relies on. */
module Seqs {

  /** The elements of `s` that satisfy `p`, in their order in `s`. */
  function Filter<T(!new)>(s: seq<T>, p: T -> bool): (r: seq<T>)
    ensures |r| <= |s|
    decreases |s|
  {
    if s == [] then []
    else Filter(s[..|s| - 1], p) + (if p(s[|s| - 1]) then [s[|s| - 1]] else [])
  }

  /** Exactly the elements of `s` that satisfy `p` are selected. */
  lemma {:induction false} FilterMembers<T(!new)>(s: seq<T>, p: T -> bool)
    ensures forall x :: x in Filter(s, p) <==> x in s && p(x)
    decreases |s|
  {
    if s != [] {
      FilterMembers(s[..|s| - 1], p);
      assert s == s[..|s| - 1] + [s[|s| - 1]];
    }
  }

  /** The positions of `s` whose element satisfies `p`, in increasing order. */
  ghost function Positions<T(!new)>(s: seq<T>, p: T -> bool): (r: seq<nat>)
    ensures forall k :: 0 <= k < |r| ==> r[k] < |s|
    ensures forall k, l :: 0 <= k < l < |r| ==> r[k] < r[l]
    ensures forall i :: 0 <= i < |s| ==> (i in r <==> p(s[i]))
    decreases |s|
  {
    if s == [] then []
    else Positions(s[..|s| - 1], p) + (if p(s[|s| - 1]) then [|s| - 1] else [])
  }

  /** `Filter` keeps exactly the elements at `Positions(s, p)`, in that order:
      the selected rows are the subsequence of the input that satisfies `p`. */
  lemma {:induction false} FilterIsSubsequence<T(!new)>(s: seq<T>, p: T -> bool)
    ensures |Filter(s, p)| == |Positions(s, p)|
    ensures forall k :: 0 <= k < |Positions(s, p)| ==> Filter(s, p)[k] == s[Positions(s, p)[k]]
    decreases |s|
  {
    if s != [] {
      var s' := s[..|s| - 1];
      FilterIsSubsequence(s', p);
      assert forall i :: 0 <= i < |s'| ==> s'[i] == s[i];
    }
  }

  /** Selecting from a concatenation selects from each part. */
  lemma {:induction false} FilterAppend<T(!new)>(a: seq<T>, b: seq<T>, p: T -> bool)
    ensures Filter(a + b, p) == Filter(a, p) + Filter(b, p)
    decreases |b|
  {
    if b != [] {
      var b' := b[..|b| - 1];
      assert (a + b)[..|a + b| - 1] == a + b';
      assert (a + b)[|a + b| - 1] == b[|b| - 1];
      FilterAppend(a, b', p);
      calc {
        Filter(a + b, p);
        Filter(a + b', p) + (if p(b[|b| - 1]) then [b[|b| - 1]] else []);
        Filter(a, p) + Filter(b', p) + (if p(b[|b| - 1]) then [b[|b| - 1]] else []);
        Filter(a, p) + Filter(b, p);
      }
    } else {
      assert a + b == a;
    }
  }

  /** Two complementary masks split `s` into two parts that together hold
      every element exactly as often as `s` does. */
  lemma {:induction false} FilterPartition<T(!new)>(s: seq<T>, p: T -> bool, q: T -> bool)
    requires forall i :: 0 <= i < |s| ==> (p(s[i]) <==> !q(s[i]))
    ensures multiset(Filter(s, p)) + multiset(Filter(s, q)) == multiset(s)
    ensures |Filter(s, p)| + |Filter(s, q)| == |s|
    decreases |s|
  {
    if s != [] {
      var s', x := s[..|s| - 1], s[|s| - 1];
      FilterPartition(s', p, q);
      assert s == s' + [x];
      assert multiset(s) == multiset(s') + multiset{x};
      if p(x) {
        assert multiset(Filter(s, p)) == multiset(Filter(s', p)) + multiset{x};
        assert Filter(s, q) == Filter(s', q);
      } else {
        assert Filter(s, p) == Filter(s', p);
        assert multiset(Filter(s, q)) == multiset(Filter(s', q)) + multiset{x};
      }
    }
  }

  /** When no element satisfies `p`, nothing is selected. */
  lemma {:induction false} FilterNone<T(!new)>(s: seq<T>, p: T -> bool)
    requires forall j :: 0 <= j < |s| ==> !p(s[j])
    ensures Filter(s, p) == []
    decreases |s|
  {
    if s != [] {
      FilterNone(s[..|s| - 1], p);
    }
  }

  /** When every element satisfies `p`, everything is selected. */
  lemma {:induction false} FilterAll<T(!new)>(s: seq<T>, p: T -> bool)
    requires forall j :: 0 <= j < |s| ==> p(s[j])
    ensures Filter(s, p) == s
    decreases |s|
  {
    if s != [] {
      FilterAll(s[..|s| - 1], p);
      assert s[..|s| - 1] + [s[|s| - 1]] == s;
    }
  }

  /** When exactly one position of `s` satisfies `p`, selection yields that
      one element. */
  lemma {:induction false} FilterSingle<T(!new)>(s: seq<T>, p: T -> bool, i: nat)
    requires i < |s| && p(s[i])
    requires forall j :: 0 <= j < |s| && j != i ==> !p(s[j])
    ensures Filter(s, p) == [s[i]]
    decreases |s|
  {
    if i == |s| - 1 {
      FilterNone(s[..|s| - 1], p);
    } else {
      FilterSingle(s[..|s| - 1], p, i);
    }
  }

  /** Selecting by `p` and then by `q` is selecting once by their conjunction. */
  lemma {:induction false} FilterTwice<T(!new)>(s: seq<T>, p: T -> bool, q: T -> bool, both: T -> bool)
    requires forall i :: 0 <= i < |s| ==> both(s[i]) == (p(s[i]) && q(s[i]))
    ensures Filter(Filter(s, p), q) == Filter(s, both)
    decreases |s|
  {
    if s != [] {
      var s' := s[..|s| - 1];
      FilterTwice(s', p, q, both);
      var x := s[|s| - 1];
      FilterAppend(Filter(s', p), if p(x) then [x] else [], q);
    }
  }

  /** Each element of `s` replaced by the rows `f` gives for it, in order:
      the shape of a left merge, where one left row yields every matching
      right row (or one unmatched row). */
  function FlatMap<A, B>(s: seq<A>, f: A -> seq<B>): seq<B>
    decreases |s|
  {
    if s == [] then [] else FlatMap(s[..|s| - 1], f) + f(s[|s| - 1])
  }

  /** Every produced row comes from some element of the input. */
  lemma {:induction false} FlatMapSource<A, B>(s: seq<A>, f: A -> seq<B>, y: B)
    requires y in FlatMap(s, f)
    ensures exists i :: 0 <= i < |s| && y in f(s[i])
    decreases |s|
  {
    var s' := s[..|s| - 1];
    if y in FlatMap(s', f) {
      FlatMapSource(s', f, y);
      var i :| 0 <= i < |s'| && y in f(s'[i]);
      assert s'[i] == s[i];
    } else {
      assert y in f(s[|s| - 1]);
    }
  }

  /** When every element yields exactly one row, the flat map is an
      element-by-element map: same length, same order. */
  lemma {:induction false} FlatMapOneToOne<A, B>(s: seq<A>, f: A -> seq<B>, g: A -> B)
    requires forall i :: 0 <= i < |s| ==> f(s[i]) == [g(s[i])]
    ensures |FlatMap(s, f)| == |s|
    ensures forall i :: 0 <= i < |s| ==> FlatMap(s, f)[i] == g(s[i])
    decreases |s|
  {
    if s != [] {
      var s' := s[..|s| - 1];
      FlatMapOneToOne(s', f, g);
    }
  }
}
