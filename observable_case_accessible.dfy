/**
 * The case-matching operators on an observable stream.
 *
 * Each operator is built from the host's `filter`, `map` and `compactMap`,
 * applied with a case predicate or a payload extractor, either directly or
 * through another operator (`map(case:)` is `capture(case:)` then `map`). The
 * overloads that take a case value match by case label; those that take a
 * constructor pattern match by extraction. The heterogeneous overloads, on
 * streams typed as the `CaseAccessible` existential, first narrow the stream
 * to the fixture enum and then apply the same-type operator.
 */
module ObservableCaseAccessible {
  import opened Wrappers
  import opened CaseAccessible
  import Rx

  type Observable<T> = Rx.Stream<T>

  // ---------------------------------------------------------------------
  // Same-type operators
  // ---------------------------------------------------------------------

  /** `filter(case:)` with a case value: exactly the elements of that case, by position. */
  function Filter(s: Observable<MockEnum>, c: MockEnum): (r: Observable<MockEnum>)
    ensures r == Rx.Select(s, Rx.Positions(s, v => Matches(v, c)))
  {
    Rx.FilterSelects(s, v => Matches(v, c));
    Rx.Filter(s, v => Matches(v, c))
  }

  /** `filter(case:)` with a constructor pattern: exactly the elements of that case, by position. */
  function FilterPattern<P>(s: Observable<MockEnum>, pat: Pattern<P>): (r: Observable<MockEnum>)
    ensures r == Rx.Select(s, Rx.Positions(s, v => MatchesPattern(v, pat)))
  {
    Rx.FilterSelects(s, v => MatchesPattern(v, pat));
    Rx.Filter(s, v => MatchesPattern(v, pat))
  }

  /** `exclude(case:)` with a case value: exactly the elements of every other case, by position. */
  function Exclude(s: Observable<MockEnum>, c: MockEnum): (r: Observable<MockEnum>)
    ensures r == Rx.Select(s, Rx.Positions(s, v => !Matches(v, c)))
  {
    Rx.FilterSelects(s, v => !Matches(v, c));
    Rx.Filter(s, v => !Matches(v, c))
  }

  /** `exclude(case:)` with a constructor pattern: exactly the elements that do not match it. */
  function ExcludePattern<P>(s: Observable<MockEnum>, pat: Pattern<P>): (r: Observable<MockEnum>)
    ensures r == Rx.Select(s, Rx.Positions(s, v => !MatchesPattern(v, pat)))
  {
    Rx.FilterSelects(s, v => !MatchesPattern(v, pat));
    Rx.Filter(s, v => !MatchesPattern(v, pat))
  }

  /** `capture(case:)` with a case value: one unit marker per match, at the match's time. */
  function CaptureUnit(s: Observable<MockEnum>, c: MockEnum): (r: Observable<()>)
    ensures |r| == |Filter(s, c)|
    ensures forall k | 0 <= k < |r| :: r[k].time == Filter(s, c)[k].time
  {
    Rx.Map(Rx.Filter(s, v => Matches(v, c)), v => ())
  }

  /**
   * `capture(case:)` with a constructor pattern: one payload per match, in
   * the order and at the times of `FilterPattern`'s output, each the payload
   * extracted from the corresponding matching element.
   */
  function Capture<P>(s: Observable<MockEnum>, pat: Pattern<P>): (r: Observable<P>)
    ensures |r| == |FilterPattern(s, pat)|
    ensures forall k | 0 <= k < |r| ::
              r[k].time == FilterPattern(s, pat)[k].time
              && Extract(FilterPattern(s, pat)[k].value, pat) == Some(r[k].value)
  {
    Rx.CompactMapFollowsFilter(s, v => Extract(v, pat), v => MatchesPattern(v, pat));
    Rx.CompactMap(s, v => Extract(v, pat))
  }

  /** `map(case:, transform)` with a case value: `transform()` once per match, at its time. */
  function MapUnit<T>(s: Observable<MockEnum>, c: MockEnum, transform: () -> T): (r: Observable<T>)
    ensures |r| == |Filter(s, c)|
    ensures forall k | 0 <= k < |r| :: r[k] == Rx.Recorded(Filter(s, c)[k].time, transform())
  {
    Rx.Map(CaptureUnit(s, c), u => transform())
  }

  /** `map(case:, transform)` with a constructor pattern: `transform(payload)` once per match. */
  function Map<P, T>(s: Observable<MockEnum>, pat: Pattern<P>, transform: P -> T): (r: Observable<T>)
    ensures |r| == |FilterPattern(s, pat)|
    ensures forall k | 0 <= k < |r| ::
              var m := FilterPattern(s, pat)[k];
              Extract(m.value, pat).Some? && r[k] == Rx.Recorded(m.time, transform(Extract(m.value, pat).value))
  {
    Rx.Map(Capture(s, pat), transform)
  }

  /**
   * `compactMap(case:, transform)` with a case value: when `transform()`
   * yields a value, that value once per match; otherwise nothing.
   */
  function CompactMapUnit<T>(s: Observable<MockEnum>, c: MockEnum, transform: () -> Option<T>): (r: Observable<T>)
    ensures transform().None? ==> r == []
    ensures transform().Some? ==>
              |r| == |Filter(s, c)|
              && forall k | 0 <= k < |r| :: r[k] == Rx.Recorded(Filter(s, c)[k].time, transform().value)
  {
    Rx.CompactMapConstant(CaptureUnit(s, c), u => transform(), transform());
    Rx.CompactMap(CaptureUnit(s, c), u => transform())
  }

  /**
   * `compactMap(case:, transform)` with a constructor pattern: `map` followed
   * by dropping the absent results, so at most one element per match.
   */
  function CompactMap<P, T>(s: Observable<MockEnum>, pat: Pattern<P>, transform: P -> Option<T>): (r: Observable<T>)
    ensures r == Rx.CompactMap(Map(s, pat, transform), o => o)
    ensures |r| <= |FilterPattern(s, pat)|
  {
    Rx.CompactMapIsMapThenDrop(Capture(s, pat), transform);
    Rx.CompactMap(Capture(s, pat), transform)
  }

  // ---------------------------------------------------------------------
  // Laws of the same-type operators
  // ---------------------------------------------------------------------

  /**
   * `filter` and `exclude` by a case value split the stream: no element is in
   * both, every element is in one, and merging them by the input's match
   * pattern rebuilds the input.
   */
  lemma FilterExcludePartition(s: Observable<MockEnum>, c: MockEnum)
    ensures Merge(s, c, Filter(s, c), Exclude(s, c)) == s
    ensures multiset(Filter(s, c)) + multiset(Exclude(s, c)) == multiset(s)
    ensures Exclude(Filter(s, c), c) == [] && Filter(Exclude(s, c), c) == []
  {
    Rx.FilterPartition(s, v => Matches(v, c), v => !Matches(v, c));
    Rx.FilterDisjoint(s, v => Matches(v, c), v => !Matches(v, c));
    Rx.FilterDisjoint(s, v => !Matches(v, c), v => Matches(v, c));
  }

  /** Interleaves the outputs of `filter` and `exclude` by which input elements match `c`. */
  function Merge(s: Observable<MockEnum>, c: MockEnum, matching: Observable<MockEnum>, other: Observable<MockEnum>): Observable<MockEnum>
  {
    Rx.Merge(Rx.Flags(s, v => Matches(v, c)), matching, other)
  }

  /** Interleaves the outputs of `filter` and `exclude` by which input elements match `pat`. */
  function MergePattern<P>(s: Observable<MockEnum>, pat: Pattern<P>, matching: Observable<MockEnum>, other: Observable<MockEnum>): Observable<MockEnum>
  {
    Rx.Merge(Rx.Flags(s, v => MatchesPattern(v, pat)), matching, other)
  }

  /** The same split for a constructor pattern. */
  lemma FilterExcludePatternPartition<P>(s: Observable<MockEnum>, pat: Pattern<P>)
    ensures MergePattern(s, pat, FilterPattern(s, pat), ExcludePattern(s, pat)) == s
    ensures multiset(FilterPattern(s, pat)) + multiset(ExcludePattern(s, pat)) == multiset(s)
    ensures ExcludePattern(FilterPattern(s, pat), pat) == [] && FilterPattern(ExcludePattern(s, pat), pat) == []
  {
    Rx.FilterPartition(s, v => MatchesPattern(v, pat), v => !MatchesPattern(v, pat));
    Rx.FilterDisjoint(s, v => MatchesPattern(v, pat), v => !MatchesPattern(v, pat));
    Rx.FilterDisjoint(s, v => !MatchesPattern(v, pat), v => MatchesPattern(v, pat));
  }

  /** Filtering again by the same case changes nothing. */
  lemma FilterIdempotent<P>(s: Observable<MockEnum>, c: MockEnum, pat: Pattern<P>)
    ensures Filter(Filter(s, c), c) == Filter(s, c)
    ensures FilterPattern(FilterPattern(s, pat), pat) == FilterPattern(s, pat)
    ensures Exclude(Exclude(s, c), c) == Exclude(s, c)
    ensures ExcludePattern(ExcludePattern(s, pat), pat) == ExcludePattern(s, pat)
  {
    Rx.FilterIdempotent(s, v => Matches(v, c));
    Rx.FilterIdempotent(s, v => MatchesPattern(v, pat));
    Rx.FilterIdempotent(s, v => !Matches(v, c));
    Rx.FilterIdempotent(s, v => !MatchesPattern(v, pat));
  }

  /** A time-ordered input gives time-ordered outputs. */
  lemma FilterKeepsTimeOrder<P>(s: Observable<MockEnum>, c: MockEnum, pat: Pattern<P>)
    requires Rx.TimeOrdered(s)
    ensures Rx.TimeOrdered(Filter(s, c)) && Rx.TimeOrdered(Exclude(s, c))
    ensures Rx.TimeOrdered(FilterPattern(s, pat)) && Rx.TimeOrdered(ExcludePattern(s, pat))
  {
    Rx.FilterKeepsTimeOrder(s, v => Matches(v, c));
    Rx.FilterKeepsTimeOrder(s, v => !Matches(v, c));
    Rx.FilterKeepsTimeOrder(s, v => MatchesPattern(v, pat));
    Rx.FilterKeepsTimeOrder(s, v => !MatchesPattern(v, pat));
  }

  /**
   * For a lawful pattern the two overloads agree: filtering by the
   * constructor is filtering by any one value it builds, whatever its payload.
   */
  lemma PatternOverloadsAgree<P(!new)>(s: Observable<MockEnum>, pat: Pattern<P>, p: P)
    requires Lawful(pat)
    ensures FilterPattern(s, pat) == Filter(s, pat.make(p))
    ensures ExcludePattern(s, pat) == Exclude(s, pat.make(p))
  {
    forall v ensures MatchesPattern(v, pat) == Matches(v, pat.make(p)) {
      PatternAgreesWithSample(pat, p, v);
    }
    Rx.FilterCongruent(s, v => MatchesPattern(v, pat), v => Matches(v, pat.make(p)));
    Rx.FilterCongruent(s, v => !MatchesPattern(v, pat), v => !Matches(v, pat.make(p)));
  }

  /**
   * For a lawful pattern the captured payloads round-trip: rebuilding each
   * with the constructor gives back exactly `FilterPattern`'s output.
   */
  lemma CaptureRoundTrip<P(!new)>(s: Observable<MockEnum>, pat: Pattern<P>)
    requires Lawful(pat)
    ensures Rx.Map(Capture(s, pat), p => pat.make(p)) == FilterPattern(s, pat)
  {
    var m := FilterPattern(s, pat);
    var r := Rx.Map(Capture(s, pat), p => pat.make(p));
    forall k | 0 <= k < |m| ensures r[k] == m[k] {
      assert Extract(m[k].value, pat) == Some(Capture(s, pat)[k].value);
    }
  }

  /**
   * Every payload of the pattern's case is accepted: capturing a stream built
   * with the constructor gives back the payloads, and the pattern lets no
   * value of another case through.
   */
  lemma CaptureOfConstructed<P(!new)>(ps: Observable<P>, pat: Pattern<P>, c: MockEnum)
    requires Lawful(pat)
    ensures Capture(Rx.Map(ps, p => pat.make(p)), pat) == ps
    ensures Label(c) != pat.caseLabel ==> Filter(Rx.Map(ps, p => pat.make(p)), c) == []
  {
    Rx.CompactMapUndoesMap(ps, p => pat.make(p), v => Extract(v, pat));
    if Label(c) != pat.caseLabel {
      var built := Rx.Map(ps, p => pat.make(p));
      Rx.FilterNone(built, v => Matches(v, c));
    }
  }

  // ---------------------------------------------------------------------
  // Heterogeneous streams
  // ---------------------------------------------------------------------

  /** A fixture-enum stream seen as a stream of the `CaseAccessible` existential. */
  function Upcast(s: Observable<MockEnum>): Observable<AnyCaseAccessible>
  {
    Rx.Map(s, v => OfMock(v))
  }

  /**
   * The private `model(_:)`: keeps the elements whose dynamic type is the
   * fixture enum, cast to it, and silently drops every other element.
   */
  function Narrow(s: Observable<AnyCaseAccessible>): (r: Observable<MockEnum>)
    ensures Upcast(r) == Rx.Filter(s, a => IsMock(a))
  {
    Rx.CompactMapWiden(s, a => AsMock(a), v => OfMock(v), a => IsMock(a));
    Rx.CompactMap(s, a => AsMock(a))
  }

  /** Narrowing undoes the widening of a fixture-enum stream. */
  lemma NarrowUpcastRoundTrip(t: Observable<MockEnum>)
    ensures Narrow(Upcast(t)) == t
  {
    Rx.CompactMapUndoesMap(t, v => OfMock(v), a => AsMock(a));
  }

  /** An element of another type, wherever it arrives, changes nothing after narrowing. */
  lemma NarrowDropsForeign(s1: Observable<AnyCaseAccessible>, s2: Observable<AnyCaseAccessible>,
                           time: nat, typeName: string)
    ensures Narrow(s1 + [Rx.Recorded(time, OfOther(typeName))] + s2) == Narrow(s1 + s2)
  {
    Rx.CompactMapSkips(s1, Rx.Recorded(time, OfOther(typeName)), s2, a => AsMock(a));
  }

  /** `filter(case:)` on a heterogeneous stream: the fixture-enum elements of that case. */
  function FilterAny(s: Observable<AnyCaseAccessible>, c: MockEnum): (r: Observable<MockEnum>)
    ensures Upcast(r) == Rx.Filter(s, a => IsMock(a) && Matches(a.mock, c))
  {
    Rx.NarrowFilterWiden(s, a => AsMock(a), v => Matches(v, c), v => OfMock(v), a => IsMock(a) && Matches(a.mock, c));
    Filter(Narrow(s), c)
  }

  /** `filter(case:)` with a pattern on a heterogeneous stream. */
  function FilterPatternAny<P>(s: Observable<AnyCaseAccessible>, pat: Pattern<P>): (r: Observable<MockEnum>)
    ensures Upcast(r) == Rx.Filter(s, a => IsMock(a) && MatchesPattern(a.mock, pat))
  {
    Rx.NarrowFilterWiden(s, a => AsMock(a), v => MatchesPattern(v, pat), v => OfMock(v), a => IsMock(a) && MatchesPattern(a.mock, pat));
    FilterPattern(Narrow(s), pat)
  }

  /**
   * `exclude(case:)` on a heterogeneous stream: the fixture-enum elements of
   * every other case; elements of other types are dropped, not kept.
   */
  function ExcludeAny(s: Observable<AnyCaseAccessible>, c: MockEnum): (r: Observable<MockEnum>)
    ensures Upcast(r) == Rx.Filter(s, a => IsMock(a) && !Matches(a.mock, c))
  {
    Rx.NarrowFilterWiden(s, a => AsMock(a), v => !Matches(v, c), v => OfMock(v), a => IsMock(a) && !Matches(a.mock, c));
    Exclude(Narrow(s), c)
  }

  /** `exclude(case:)` with a pattern on a heterogeneous stream. */
  function ExcludePatternAny<P>(s: Observable<AnyCaseAccessible>, pat: Pattern<P>): (r: Observable<MockEnum>)
    ensures Upcast(r) == Rx.Filter(s, a => IsMock(a) && !MatchesPattern(a.mock, pat))
  {
    Rx.NarrowFilterWiden(s, a => AsMock(a), v => !MatchesPattern(v, pat), v => OfMock(v), a => IsMock(a) && !MatchesPattern(a.mock, pat));
    ExcludePattern(Narrow(s), pat)
  }

  /** `capture(case:)` on a heterogeneous stream: one unit per element of `FilterAny`. */
  function CaptureUnitAny(s: Observable<AnyCaseAccessible>, c: MockEnum): (r: Observable<()>)
    ensures |r| == |FilterAny(s, c)|
    ensures forall k | 0 <= k < |r| :: r[k].time == FilterAny(s, c)[k].time
  {
    CaptureUnit(Narrow(s), c)
  }

  /** `capture(case:)` with a pattern on a heterogeneous stream: one payload per element of `FilterPatternAny`. */
  function CaptureAny<P>(s: Observable<AnyCaseAccessible>, pat: Pattern<P>): (r: Observable<P>)
    ensures |r| == |FilterPatternAny(s, pat)|
    ensures forall k | 0 <= k < |r| ::
              r[k].time == FilterPatternAny(s, pat)[k].time
              && Extract(FilterPatternAny(s, pat)[k].value, pat) == Some(r[k].value)
  {
    Capture(Narrow(s), pat)
  }

  /** `map(case:, transform)` on a heterogeneous stream. */
  function MapUnitAny<T>(s: Observable<AnyCaseAccessible>, c: MockEnum, transform: () -> T): (r: Observable<T>)
    ensures |r| == |FilterAny(s, c)|
    ensures forall k | 0 <= k < |r| :: r[k] == Rx.Recorded(FilterAny(s, c)[k].time, transform())
  {
    MapUnit(Narrow(s), c, transform)
  }

  /** `map(case:, transform)` with a pattern on a heterogeneous stream. */
  function MapAny<P, T>(s: Observable<AnyCaseAccessible>, pat: Pattern<P>, transform: P -> T): (r: Observable<T>)
    ensures |r| == |FilterPatternAny(s, pat)|
    ensures forall k | 0 <= k < |r| ::
              var m := FilterPatternAny(s, pat)[k];
              Extract(m.value, pat).Some? && r[k] == Rx.Recorded(m.time, transform(Extract(m.value, pat).value))
  {
    Map(Narrow(s), pat, transform)
  }

  /** `compactMap(case:, transform)` on a heterogeneous stream. */
  function CompactMapUnitAny<T>(s: Observable<AnyCaseAccessible>, c: MockEnum, transform: () -> Option<T>): (r: Observable<T>)
    ensures transform().None? ==> r == []
    ensures transform().Some? ==>
              |r| == |FilterAny(s, c)|
              && forall k | 0 <= k < |r| :: r[k] == Rx.Recorded(FilterAny(s, c)[k].time, transform().value)
  {
    CompactMapUnit(Narrow(s), c, transform)
  }

  /** `compactMap(case:, transform)` with a pattern on a heterogeneous stream. */
  function CompactMapAny<P, T>(s: Observable<AnyCaseAccessible>, pat: Pattern<P>, transform: P -> Option<T>): (r: Observable<T>)
    ensures r == Rx.CompactMap(MapAny(s, pat, transform), o => o)
    ensures |r| <= |FilterPatternAny(s, pat)|
  {
    CompactMap(Narrow(s), pat, transform)
  }

  /**
   * On a heterogeneous stream, `filter` and `exclude` split the narrowed
   * stream, not the input: an element of another type reaches neither.
   */
  lemma HeterogeneousPartition(s: Observable<AnyCaseAccessible>, c: MockEnum)
    ensures Merge(Narrow(s), c, FilterAny(s, c), ExcludeAny(s, c)) == Narrow(s)
    ensures multiset(Upcast(FilterAny(s, c))) + multiset(Upcast(ExcludeAny(s, c)))
              + multiset(Rx.Filter(s, a => !IsMock(a))) == multiset(s)
    ensures |FilterAny(s, c)| + |ExcludeAny(s, c)| + |Rx.Filter(s, a => !IsMock(a))| == |s|
  {
    FilterExcludePartition(Narrow(s), c);
    var n := Narrow(s);
    assert |multiset(Filter(n, c))| + |multiset(Exclude(n, c))| == |multiset(n)|;
    Rx.FilterPartition(s, a => IsMock(a), a => !IsMock(a));
    assert |multiset(Rx.Filter(s, a => IsMock(a)))| + |multiset(Rx.Filter(s, a => !IsMock(a)))| == |multiset(s)|;
    assert |Upcast(n)| == |n|;
    var mock := Rx.Filter(s, a => IsMock(a));
    Rx.FilterMultiset(mock, a => IsMock(a) && Matches(a.mock, c), a => !(IsMock(a) && Matches(a.mock, c)));
    Rx.FilterOfFilter(s, a => IsMock(a), a => IsMock(a) && Matches(a.mock, c), a => IsMock(a) && Matches(a.mock, c));
    Rx.FilterOfFilter(s, a => IsMock(a), a => !(IsMock(a) && Matches(a.mock, c)), a => IsMock(a) && !Matches(a.mock, c));
    Rx.FilterMultiset(s, a => IsMock(a), a => !IsMock(a));
  }

  /** On a stream whose elements all have the fixture type, every heterogeneous overload is the same-type one. */
  lemma HeterogeneousOnUpcast<P, T>(t: Observable<MockEnum>, c: MockEnum, pat: Pattern<P>,
                                    unit: () -> Option<T>, transform: P -> Option<T>,
                                    u: () -> T, f: P -> T)
    ensures FilterAny(Upcast(t), c) == Filter(t, c)
    ensures FilterPatternAny(Upcast(t), pat) == FilterPattern(t, pat)
    ensures ExcludeAny(Upcast(t), c) == Exclude(t, c)
    ensures ExcludePatternAny(Upcast(t), pat) == ExcludePattern(t, pat)
    ensures CaptureUnitAny(Upcast(t), c) == CaptureUnit(t, c)
    ensures CaptureAny(Upcast(t), pat) == Capture(t, pat)
    ensures MapUnitAny(Upcast(t), c, u) == MapUnit(t, c, u)
    ensures MapAny(Upcast(t), pat, f) == Map(t, pat, f)
    ensures CompactMapUnitAny(Upcast(t), c, unit) == CompactMapUnit(t, c, unit)
    ensures CompactMapAny(Upcast(t), pat, transform) == CompactMap(t, pat, transform)
  {
    Rx.CompactMapUndoesMap(t, v => OfMock(v), a => AsMock(a));
  }
}
