/**
 * The same case-matching operators on a shared sequence (a `Driver` or a
 * `Signal`), a stream that cannot fail.
 *
 * Each operator follows its own definition: the shared sequence's `filter`
 * and `map`, or a detour through `asObservable()`, the observable's
 * `compactMap`, and back with `asSharedSequence(onErrorRecover:)`. Each is
 * proved to yield the same events as the observable operator.
 */
module SharedSequenceCaseAccessible {
  import opened Wrappers
  import opened CaseAccessible
  import Rx
  import Obs = ObservableCaseAccessible

  /** A shared sequence, by the events it delivers. */
  datatype SharedSequence<T> = SharedSequence(events: Rx.Stream<T>)

  /** `asObservable()`. */
  function AsObservable<T>(d: SharedSequence<T>): Rx.Stream<T>
  {
    d.events
  }

  /**
   * `asSharedSequence(onErrorRecover: { _ in .empty() })`. The recovery runs
   * only on an error event; the streams here carry none, because every
   * predicate, extractor and transform is total, so the events pass unchanged.
   */
  function AsSharedSequence<T>(o: Rx.Stream<T>): SharedSequence<T>
  {
    SharedSequence(o)
  }

  /** `filter(case:)` with a case value. */
  function Filter(d: SharedSequence<MockEnum>, c: MockEnum): (r: SharedSequence<MockEnum>)
    ensures r.events == Obs.Filter(d.events, c)
  {
    SharedSequence(Rx.Filter(d.events, v => Matches(v, c)))
  }

  /** `filter(case:)` with a constructor pattern. */
  function FilterPattern<P>(d: SharedSequence<MockEnum>, pat: Pattern<P>): (r: SharedSequence<MockEnum>)
    ensures r.events == Obs.FilterPattern(d.events, pat)
  {
    SharedSequence(Rx.Filter(d.events, v => MatchesPattern(v, pat)))
  }

  /** `exclude(case:)` with a case value. */
  function Exclude(d: SharedSequence<MockEnum>, c: MockEnum): (r: SharedSequence<MockEnum>)
    ensures r.events == Obs.Exclude(d.events, c)
  {
    SharedSequence(Rx.Filter(d.events, v => !Matches(v, c)))
  }

  /** `exclude(case:)` with a constructor pattern. */
  function ExcludePattern<P>(d: SharedSequence<MockEnum>, pat: Pattern<P>): (r: SharedSequence<MockEnum>)
    ensures r.events == Obs.ExcludePattern(d.events, pat)
  {
    SharedSequence(Rx.Filter(d.events, v => !MatchesPattern(v, pat)))
  }

  /** `capture(case:)` with a case value. */
  function CaptureUnit(d: SharedSequence<MockEnum>, c: MockEnum): (r: SharedSequence<()>)
    ensures r.events == Obs.CaptureUnit(d.events, c)
  {
    SharedSequence(Rx.Map(Filter(d, c).events, v => ()))
  }

  /** `capture(case:)` with a constructor pattern, through the observable's `compactMap`. */
  function Capture<P>(d: SharedSequence<MockEnum>, pat: Pattern<P>): (r: SharedSequence<P>)
    ensures r.events == Obs.Capture(d.events, pat)
  {
    AsSharedSequence(Rx.CompactMap(AsObservable(d), v => Extract(v, pat)))
  }

  /** `map(case:, transform)` with a case value. */
  function MapUnit<T>(d: SharedSequence<MockEnum>, c: MockEnum, transform: () -> T): (r: SharedSequence<T>)
    ensures r.events == Obs.MapUnit(d.events, c, transform)
  {
    SharedSequence(Rx.Map(CaptureUnit(d, c).events, u => transform()))
  }

  /** `map(case:, transform)` with a constructor pattern. */
  function Map<P, T>(d: SharedSequence<MockEnum>, pat: Pattern<P>, transform: P -> T): (r: SharedSequence<T>)
    ensures r.events == Obs.Map(d.events, pat, transform)
  {
    SharedSequence(Rx.Map(Capture(d, pat).events, transform))
  }

  /** `compactMap(case:, transform)` with a case value, through the observable's `compactMap`. */
  function CompactMapUnit<T>(d: SharedSequence<MockEnum>, c: MockEnum, transform: () -> Option<T>): (r: SharedSequence<T>)
    ensures r.events == Obs.CompactMapUnit(d.events, c, transform)
  {
    AsSharedSequence(Rx.CompactMap(AsObservable(CaptureUnit(d, c)), u => transform()))
  }

  /** `compactMap(case:, transform)` with a constructor pattern, through the observable's `compactMap`. */
  function CompactMap<P, T>(d: SharedSequence<MockEnum>, pat: Pattern<P>, transform: P -> Option<T>): (r: SharedSequence<T>)
    ensures r.events == Obs.CompactMap(d.events, pat, transform)
  {
    AsSharedSequence(Rx.CompactMap(AsObservable(Capture(d, pat)), transform))
  }

  /** `filter` and `exclude` on a shared sequence split it exactly as on an observable. */
  lemma FilterExcludePartition(d: SharedSequence<MockEnum>, c: MockEnum)
    ensures Obs.Merge(d.events, c, Filter(d, c).events, Exclude(d, c).events) == d.events
    ensures multiset(Filter(d, c).events) + multiset(Exclude(d, c).events) == multiset(d.events)
  {
    Obs.FilterExcludePartition(d.events, c);
  }

  /** The same split for a constructor pattern. */
  lemma FilterExcludePatternPartition<P>(d: SharedSequence<MockEnum>, pat: Pattern<P>)
    ensures Obs.MergePattern(d.events, pat, FilterPattern(d, pat).events, ExcludePattern(d, pat).events) == d.events
    ensures multiset(FilterPattern(d, pat).events) + multiset(ExcludePattern(d, pat).events) == multiset(d.events)
  {
    Obs.FilterExcludePatternPartition(d.events, pat);
  }

  // ---------------------------------------------------------------------
  // Heterogeneous shared sequences
  // ---------------------------------------------------------------------

  /** The private `model(_:)`: the observable's cast-and-drop, back as a shared sequence. */
  function Narrow(d: SharedSequence<AnyCaseAccessible>): (r: SharedSequence<MockEnum>)
    ensures r.events == Obs.Narrow(d.events)
  {
    AsSharedSequence(Rx.CompactMap(AsObservable(d), a => AsMock(a)))
  }

  /** `filter(case:)` on a heterogeneous shared sequence. */
  function FilterAny(d: SharedSequence<AnyCaseAccessible>, c: MockEnum): (r: SharedSequence<MockEnum>)
    ensures r.events == Obs.FilterAny(d.events, c)
  {
    Filter(Narrow(d), c)
  }

  /** `filter(case:)` with a pattern on a heterogeneous shared sequence. */
  function FilterPatternAny<P>(d: SharedSequence<AnyCaseAccessible>, pat: Pattern<P>): (r: SharedSequence<MockEnum>)
    ensures r.events == Obs.FilterPatternAny(d.events, pat)
  {
    FilterPattern(Narrow(d), pat)
  }

  /** `exclude(case:)` on a heterogeneous shared sequence. */
  function ExcludeAny(d: SharedSequence<AnyCaseAccessible>, c: MockEnum): (r: SharedSequence<MockEnum>)
    ensures r.events == Obs.ExcludeAny(d.events, c)
  {
    Exclude(Narrow(d), c)
  }

  /** `exclude(case:)` with a pattern on a heterogeneous shared sequence. */
  function ExcludePatternAny<P>(d: SharedSequence<AnyCaseAccessible>, pat: Pattern<P>): (r: SharedSequence<MockEnum>)
    ensures r.events == Obs.ExcludePatternAny(d.events, pat)
  {
    ExcludePattern(Narrow(d), pat)
  }

  /** `capture(case:)` on a heterogeneous shared sequence. */
  function CaptureUnitAny(d: SharedSequence<AnyCaseAccessible>, c: MockEnum): (r: SharedSequence<()>)
    ensures r.events == Obs.CaptureUnitAny(d.events, c)
  {
    CaptureUnit(Narrow(d), c)
  }

  /** `capture(case:)` with a pattern on a heterogeneous shared sequence. */
  function CaptureAny<P>(d: SharedSequence<AnyCaseAccessible>, pat: Pattern<P>): (r: SharedSequence<P>)
    ensures r.events == Obs.CaptureAny(d.events, pat)
  {
    Capture(Narrow(d), pat)
  }

  /** `map(case:, transform)` on a heterogeneous shared sequence. */
  function MapUnitAny<T>(d: SharedSequence<AnyCaseAccessible>, c: MockEnum, transform: () -> T): (r: SharedSequence<T>)
    ensures r.events == Obs.MapUnitAny(d.events, c, transform)
  {
    MapUnit(Narrow(d), c, transform)
  }

  /** `map(case:, transform)` with a pattern on a heterogeneous shared sequence. */
  function MapAny<P, T>(d: SharedSequence<AnyCaseAccessible>, pat: Pattern<P>, transform: P -> T): (r: SharedSequence<T>)
    ensures r.events == Obs.MapAny(d.events, pat, transform)
  {
    Map(Narrow(d), pat, transform)
  }

  /** `compactMap(case:, transform)` on a heterogeneous shared sequence. */
  function CompactMapUnitAny<T>(d: SharedSequence<AnyCaseAccessible>, c: MockEnum, transform: () -> Option<T>): (r: SharedSequence<T>)
    ensures r.events == Obs.CompactMapUnitAny(d.events, c, transform)
  {
    CompactMapUnit(Narrow(d), c, transform)
  }

  /** `compactMap(case:, transform)` with a pattern on a heterogeneous shared sequence. */
  function CompactMapAny<P, T>(d: SharedSequence<AnyCaseAccessible>, pat: Pattern<P>, transform: P -> Option<T>): (r: SharedSequence<T>)
    ensures r.events == Obs.CompactMapAny(d.events, pat, transform)
  {
    CompactMap(Narrow(d), pat, transform)
  }
}
