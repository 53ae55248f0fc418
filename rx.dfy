/**
 * The host stream library, reduced to what the case-matching operators use.
 *
 * A finished stream is modelled by its recording: the `next` events it
 * delivered, in delivery order, each with the virtual time it arrived at.
 * Subscription, scheduling and disposal belong to the host library and are
 * not modelled; the times are inert data that every operator carries along.
 */
module Rx {
  import opened Wrappers

  /** One delivered element and the virtual time it was delivered at. */
  datatype Recorded<T> = Recorded(time: nat, value: T)

  /** A recorded stream, in delivery order. */
  type Stream<T> = seq<Recorded<T>>

  /** The host's `filter`: keeps the elements that satisfy `p`. */
  function Filter<T>(s: Stream<T>, p: T -> bool): (r: Stream<T>)
    ensures |r| <= |s|
  {
    if s == [] then []
    else if p(s[0].value) then [s[0]] + Filter(s[1..], p)
    else Filter(s[1..], p)
  }

  /** The host's `map`: transforms every element, at its own time. */
  function Map<T, U>(s: Stream<T>, f: T -> U): (r: Stream<U>)
    ensures |r| == |s|
    ensures forall i | 0 <= i < |s| :: r[i] == Recorded(s[i].time, f(s[i].value))
  {
    if s == [] then [] else [Recorded(s[0].time, f(s[0].value))] + Map(s[1..], f)
  }

  /** The host's `compactMap`: transforms every element and drops the absent results. */
  function CompactMap<T, U>(s: Stream<T>, f: T -> Option<U>): (r: Stream<U>)
    ensures |r| <= |s|
  {
    if s == [] then []
    else match f(s[0].value)
      case Some(u) => [Recorded(s[0].time, u)] + CompactMap(s[1..], f)
      case None => CompactMap(s[1..], f)
  }

  // ---------------------------------------------------------------------
  // Reference definitions: selection by index, interleaving, time order
  // ---------------------------------------------------------------------

  /** The indices `j` with `from <= j < |s|` whose element satisfies `p`, ascending. */
  function PositionsFrom<T>(s: Stream<T>, p: T -> bool, from: nat): (idx: seq<nat>)
    requires from <= |s|
    ensures forall k | 0 <= k < |idx| :: from <= idx[k] < |s| && p(s[idx[k]].value)
    ensures forall k, l | 0 <= k < l < |idx| :: idx[k] < idx[l]
    ensures forall j | from <= j < |s| && p(s[j].value) :: j in idx
    decreases |s| - from
  {
    if from == |s| then []
    else if p(s[from].value) then [from] + PositionsFrom(s, p, from + 1)
    else PositionsFrom(s, p, from + 1)
  }

  /** The indices of all elements of `s` that satisfy `p`, ascending. */
  function Positions<T>(s: Stream<T>, p: T -> bool): seq<nat>
  {
    PositionsFrom(s, p, 0)
  }

  /** The elements of `s` at the indices `idx`, in the order of `idx`. */
  function Select<T>(s: Stream<T>, idx: seq<nat>): Stream<T>
    requires forall k | 0 <= k < |idx| :: idx[k] < |s|
  {
    seq(|idx|, k requires 0 <= k < |idx| => s[idx[k]])
  }

  /** Which elements of `s` satisfy `p`, position by position. */
  function Flags<T>(s: Stream<T>, p: T -> bool): seq<bool>
  {
    seq(|s|, i requires 0 <= i < |s| => p(s[i].value))
  }

  /**
   * Interleaves two streams by a pattern of flags: a `true` flag takes the
   * next element of `a`, a `false` flag the next element of `b`.
   */
  function Merge<T>(flags: seq<bool>, a: Stream<T>, b: Stream<T>): Stream<T>
    decreases |flags|
  {
    if flags == [] then []
    else if flags[0] then (if a == [] then [] else [a[0]] + Merge(flags[1..], a[1..], b))
    else (if b == [] then [] else [b[0]] + Merge(flags[1..], a, b[1..]))
  }

  /** The times of `s` never decrease along the stream. */
  ghost predicate TimeOrdered<T>(s: Stream<T>)
  {
    forall i, j | 0 <= i < j < |s| :: s[i].time <= s[j].time
  }

  // ---------------------------------------------------------------------
  // Laws of the primitives
  // ---------------------------------------------------------------------

  lemma {:induction false} FilterSelectsFrom<T>(s: Stream<T>, p: T -> bool, from: nat)
    requires from <= |s|
    ensures Filter(s[from..], p) == Select(s, PositionsFrom(s, p, from))
    decreases |s| - from
  {
    if from == |s| {
      assert s[from..] == [];
    } else {
      FilterSelectsFrom(s, p, from + 1);
      var t := s[from..];
      assert t[0] == s[from] && t[1..] == s[from + 1..];
      var rest := PositionsFrom(s, p, from + 1);
      if p(s[from].value) {
        SelectCons(s, from, rest);
      }
    }
  }

  lemma SelectCons<T>(s: Stream<T>, i: nat, rest: seq<nat>)
    requires i < |s| && forall k | 0 <= k < |rest| :: rest[k] < |s|
    ensures Select(s, [i] + rest) == [s[i]] + Select(s, rest)
  {
  }

  /**
   * `Filter` emits exactly the elements at the positions that satisfy `p`,
   * with their times and values, in their original order.
   */
  lemma FilterSelects<T>(s: Stream<T>, p: T -> bool)
    ensures Filter(s, p) == Select(s, Positions(s, p))
  {
    FilterSelectsFrom(s, p, 0);
    assert s[0..] == s;
  }

  /** A predicate and its negation split a stream: merging the two filters rebuilds it. */
  lemma FilterPartition<T>(s: Stream<T>, p: T -> bool, q: T -> bool)
    requires forall x :: q(x) == !p(x)
    ensures Merge(Flags(s, p), Filter(s, p), Filter(s, q)) == s
    ensures multiset(Filter(s, p)) + multiset(Filter(s, q)) == multiset(s)
  {
    FilterMerge(s, p, q);
    FilterMultiset(s, p, q);
  }

  /** Merging by the match flags takes each element back from the filter it went to. */
  lemma {:induction false} FilterMerge<T>(s: Stream<T>, p: T -> bool, q: T -> bool)
    requires forall x :: q(x) == !p(x)
    ensures Merge(Flags(s, p), Filter(s, p), Filter(s, q)) == s
  {
    if s != [] {
      FilterMerge(s[1..], p, q);
      assert Flags(s, p)[1..] == Flags(s[1..], p);
    }
  }

  /** Every element goes to exactly one of the two filters. */
  lemma {:induction false} FilterMultiset<T>(s: Stream<T>, p: T -> bool, q: T -> bool)
    requires forall x :: q(x) == !p(x)
    ensures multiset(Filter(s, p)) + multiset(Filter(s, q)) == multiset(s)
  {
    if s != [] {
      var x, rest := s[0], s[1..];
      FilterMultiset(rest, p, q);
      assert s == [x] + rest;
      assert multiset(s) == multiset{x} + multiset(rest);
      if p(x.value) {
        assert multiset(Filter(s, p)) == multiset{x} + multiset(Filter(rest, p));
        assert Filter(s, q) == Filter(rest, q);
      } else {
        assert Filter(s, p) == Filter(rest, p);
        assert multiset(Filter(s, q)) == multiset{x} + multiset(Filter(rest, q));
      }
    }
  }

  /** No element passes both a predicate and its negation. */
  lemma {:induction false} FilterDisjoint<T>(s: Stream<T>, p: T -> bool, q: T -> bool)
    requires forall x :: q(x) == !p(x)
    ensures Filter(Filter(s, p), q) == []
  {
    if s != [] {
      FilterDisjoint(s[1..], p, q);
    }
  }

  /** Filtering twice by the same predicate is filtering once. */
  lemma {:induction false} FilterIdempotent<T>(s: Stream<T>, p: T -> bool)
    ensures Filter(Filter(s, p), p) == Filter(s, p)
  {
    if s != [] {
      FilterIdempotent(s[1..], p);
    }
  }

  /** Filtering by `p` and then by `q` is filtering once by their conjunction. */
  lemma {:induction false} FilterOfFilter<T>(s: Stream<T>, p: T -> bool, q: T -> bool, r: T -> bool)
    requires forall x :: r(x) == (p(x) && q(x))
    ensures Filter(Filter(s, p), q) == Filter(s, r)
  {
    if s != [] {
      FilterOfFilter(s[1..], p, q, r);
    }
  }

  /** Filtering by two predicates that agree everywhere gives the same stream. */
  lemma {:induction false} FilterCongruent<T>(s: Stream<T>, p: T -> bool, q: T -> bool)
    requires forall x :: p(x) == q(x)
    ensures Filter(s, p) == Filter(s, q)
  {
    if s != [] {
      FilterCongruent(s[1..], p, q);
    }
  }

  /** A selection at ascending indices keeps a time-ordered stream time-ordered. */
  lemma FilterKeepsTimeOrder<T>(s: Stream<T>, p: T -> bool)
    requires TimeOrdered(s)
    ensures TimeOrdered(Filter(s, p))
  {
    FilterSelects(s, p);
    var idx := Positions(s, p);
    var r := Filter(s, p);
    forall i, j | 0 <= i < j < |r| ensures r[i].time <= r[j].time {
      assert r[i] == s[idx[i]] && r[j] == s[idx[j]];
    }
  }

  /**
   * `CompactMap` is one-to-one with the `Filter` that keeps the elements
   * for which `f` yields a value: the k-th output carries the same time as
   * the k-th kept element and the value `f` yields for it.
   */
  lemma {:induction false} CompactMapFollowsFilter<T, U>(s: Stream<T>, f: T -> Option<U>, p: T -> bool)
    requires forall x :: p(x) == f(x).Some?
    ensures |CompactMap(s, f)| == |Filter(s, p)|
    ensures forall k | 0 <= k < |Filter(s, p)| ::
              CompactMap(s, f)[k].time == Filter(s, p)[k].time
              && f(Filter(s, p)[k].value) == Some(CompactMap(s, f)[k].value)
  {
    if s != [] {
      CompactMapFollowsFilter(s[1..], f, p);
    }
  }

  /** `compactMap(f)` is `map(f)` followed by dropping the absent results. */
  lemma {:induction false} CompactMapIsMapThenDrop<T, U>(s: Stream<T>, f: T -> Option<U>)
    ensures CompactMap(s, f) == CompactMap(Map(s, f), o => o)
  {
    if s != [] {
      CompactMapIsMapThenDrop(s[1..], f);
      var m := Map(s, f);
      assert m[1..] == Map(s[1..], f);
      assert m[0] == Recorded(s[0].time, f(s[0].value));
    }
  }

  /** `compactMap` works element by element, so it distributes over concatenation. */
  lemma {:induction false} CompactMapAppend<T, U>(s1: Stream<T>, s2: Stream<T>, f: T -> Option<U>)
    ensures CompactMap(s1 + s2, f) == CompactMap(s1, f) + CompactMap(s2, f)
  {
    if s1 == [] {
      assert s1 + s2 == s2;
    } else {
      var x, rest := s1[0], s1[1..];
      assert s1 == [x] + rest;
      assert s1 + s2 == [x] + (rest + s2);
      CompactMapAppend(rest, s2, f);
      CompactMapCons(x, rest + s2, f);
      CompactMapCons(x, rest, f);
    }
  }

  /** `compactMap` on a stream with a first element: that element's output, then the rest's. */
  lemma CompactMapCons<T, U>(x: Recorded<T>, t: Stream<T>, f: T -> Option<U>)
    ensures CompactMap([x] + t, f) == CompactMap([x], f) + CompactMap(t, f)
  {
    assert ([x] + t)[1..] == t;
    assert [x][1..] == [];
  }

  /** A `compactMap` that undoes a `map` gives back the original stream. */
  lemma {:induction false} CompactMapUndoesMap<T, U>(s: Stream<T>, g: T -> U, f: U -> Option<T>)
    requires forall x :: f(g(x)) == Some(x)
    ensures CompactMap(Map(s, g), f) == s
  {
    if s != [] {
      CompactMapUndoesMap(s[1..], g, f);
      assert Map(s, g)[1..] == Map(s[1..], g);
    }
  }

  /**
   * Narrowing with `f`, filtering by `p` and mapping back with `g` (an
   * inverse of `f` where `f` yields a value) selects, from the original
   * stream, exactly the elements that narrow to a value satisfying `p`.
   */
  lemma {:induction false} NarrowFilterWiden<T, U>(s: Stream<T>, f: T -> Option<U>, p: U -> bool, g: U -> T, q: T -> bool)
    requires forall x :: f(x).Some? ==> g(f(x).value) == x
    requires forall x :: q(x) == (f(x).Some? && p(f(x).value))
    ensures Map(Filter(CompactMap(s, f), p), g) == Filter(s, q)
  {
    if s != [] {
      NarrowFilterWiden(s[1..], f, p, g, q);
    }
  }

  /** Narrowing with `f` and widening back with `g` keeps exactly the elements `f` accepts. */
  lemma {:induction false} CompactMapWiden<T, U>(s: Stream<T>, f: T -> Option<U>, g: U -> T, q: T -> bool)
    requires forall x :: f(x).Some? ==> g(f(x).value) == x
    requires forall x :: q(x) == f(x).Some?
    ensures Map(CompactMap(s, f), g) == Filter(s, q)
  {
    if s != [] {
      CompactMapWiden(s[1..], f, g, q);
    }
  }

  /** A `compactMap` whose transform ignores its argument keeps nothing or keeps every time. */
  lemma {:induction false} CompactMapConstant<T, U>(s: Stream<T>, f: T -> Option<U>, o: Option<U>)
    requires forall x :: f(x) == o
    ensures o.None? ==> CompactMap(s, f) == []
    ensures o.Some? ==>
              |CompactMap(s, f)| == |s|
              && forall k | 0 <= k < |s| :: CompactMap(s, f)[k] == Recorded(s[k].time, o.value)
  {
    if s != [] {
      CompactMapConstant(s[1..], f, o);
      assert f(s[0].value) == o;
    }
  }

  /** When no element satisfies `p`, `Filter` emits nothing. */
  lemma {:induction false} FilterNone<T>(s: Stream<T>, p: T -> bool)
    requires forall i | 0 <= i < |s| :: !p(s[i].value)
    ensures Filter(s, p) == []
  {
    if s != [] {
      FilterNone(s[1..], p);
    }
  }

  /** An element for which `f` yields nothing leaves no trace in `compactMap`, wherever it arrives. */
  lemma CompactMapSkips<T, U>(s1: Stream<T>, x: Recorded<T>, s2: Stream<T>, f: T -> Option<U>)
    requires f(x.value).None?
    ensures CompactMap(s1 + [x] + s2, f) == CompactMap(s1 + s2, f)
  {
    calc {
      CompactMap(s1 + [x] + s2, f);
      { CompactMapAppend(s1 + [x], s2, f); }
      CompactMap(s1 + [x], f) + CompactMap(s2, f);
      { CompactMapAppend(s1, [x], f); assert [x][1..] == []; }
      CompactMap(s1, f) + CompactMap(s2, f);
      { CompactMapAppend(s1, s2, f); }
      CompactMap(s1 + s2, f);
    }
  }
}
