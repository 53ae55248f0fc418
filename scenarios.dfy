/**
 * The tests' fixtures as concrete streams, with the outputs the tests expect.
 *
 * The tests feed hot observables whose fixture lists are not sorted by time
 * (an event at 300 is listed after one at 400); the scheduler delivers them
 * in time order, ties in listed order, and that delivery order is the one
 * written here. Every fixture is typed as the `CaseAccessible` existential,
 * so the heterogeneous overloads are the ones exercised.
 */
module Scenarios {
  import opened Wrappers
  import opened CaseAccessible
  import Rx
  import opened ObservableCaseAccessible
  import Shared = SharedSequenceCaseAccessible

  function Next<T>(time: nat, value: T): Rx.Recorded<T>
  {
    Rx.Recorded(time, value)
  }

  /** Swift's `Int.init(_: String)`: an optional sign, then decimal digits, within 64 bits. */
  function ParseInt(s: string): Option<int>
  {
    if |s| > 0 && (s[0] == '+' || s[0] == '-') then
      match ParseDigits(s[1..])
      case Some(n) =>
        var v: int := if s[0] == '-' then -(n as int) else n;
        if -0x8000_0000_0000_0000 <= v <= 0x7fff_ffff_ffff_ffff then Some(v) else None
      case None => None
    else
      match ParseDigits(s)
      case Some(n) => if n <= 0x7fff_ffff_ffff_ffff then Some(n) else None
      case None => None
  }

  /** A non-empty run of decimal digits, read as a number. */
  function ParseDigits(s: string): Option<nat>
  {
    if s == [] then None
    else if !('0' <= s[|s| - 1] <= '9') then None
    else if |s| == 1 then Some(s[0] as int - '0' as int)
    else match ParseDigits(s[..|s| - 1])
      case Some(n) => Some(10 * n + (s[|s| - 1] as int - '0' as int))
      case None => None
  }

  /** A digit followed by two zeros reads as that many hundreds. */
  lemma ParseHundreds(d: char)
    requires '1' <= d <= '9'
    ensures ParseInt([d, '0', '0']) == Some(100 * (d as int - '0' as int))
  {
    var n := d as int - '0' as int;
    assert [d, '0'][..1] == [d];
    assert ParseDigits([d, '0']) == Some(10 * n);
    assert [d, '0', '0'][..2] == [d, '0'];
    assert ParseDigits([d, '0', '0']) == Some(100 * n);
  }

  /** The events of the filter, capture and map tests, in delivery order. */
  function Mixed(): Observable<MockEnum>
  {
    [ Next(100, WithAnonymousAssociatedValue("100")),
      Next(200, WithAnonymousAssociatedValue("200")),
      Next(300, WithNamedAssociatedValue("100")),
      Next(300, NoAssociatedValue),
      Next(400, WithAnonymousAssociatedValue("400")) ]
  }

  /** The events of the exclude tests and of the capture test by a case value, in delivery order. */
  function Unpaired(): Observable<MockEnum>
  {
    [ Next(100, NoAssociatedValue),
      Next(200, NoAssociatedValue),
      Next(300, WithNamedAssociatedValue("100")),
      Next(300, NoAssociatedValue),
      Next(400, WithAnonymousAssociatedValue("400")) ]
  }

  /** The events of the second exclude test, in delivery order. */
  function Bracketed(): Observable<MockEnum>
  {
    [ Next(100, NoAssociatedValue),
      Next(200, NoAssociatedValue),
      Next(300, WithNamedAssociatedValue("100")),
      Next(400, WithAnonymousAssociatedValue("400")),
      Next(500, NoAssociatedValue) ]
  }

  /** The events of the capture test by the named constructor, in delivery order. */
  function NamedFirst(): Observable<MockEnum>
  {
    [ Next(100, WithNamedAssociatedValue("100")),
      Next(200, WithAnonymousAssociatedValue("200")),
      Next(300, WithNamedAssociatedValue("100")),
      Next(300, NoAssociatedValue),
      Next(400, WithAnonymousAssociatedValue("400")) ]
  }

  /** The events of the map tests, in delivery order: those of the filter tests and one payload that is no number. */
  function WithName(): Observable<MockEnum>
  {
    Mixed() + [Next(450, WithAnonymousAssociatedValue("David Bowie"))]
  }

  // The scenario lemmas below take the delivered stream as a parameter equal
  // to the upcast fixture, rather than the literal, to keep each proof
  // obligation small.

  /** A hot observable typed as the existential delivers the fixture's values, narrowed back unchanged. */
  lemma Delivered(events: Observable<AnyCaseAccessible>, s: Observable<MockEnum>)
    requires events == Upcast(s)
    ensures Narrow(events) == s
  {
    NarrowUpcastRoundTrip(s);
  }

  // ---------------------------------------------------------------------
  // Filter
  // ---------------------------------------------------------------------

  /** The events of the filter tests, filtered on the observable of the fixture type. */
  lemma FilterMixedAnonymous()
    ensures Rx.Filter(Mixed(), v => MatchesPattern(v, AnonymousString)) ==
            [ Next(100, WithAnonymousAssociatedValue("100")),
              Next(200, WithAnonymousAssociatedValue("200")),
              Next(400, WithAnonymousAssociatedValue("400")) ]
  {
    var s := Mixed();
    assert Rx.Filter(s, v => MatchesPattern(v, AnonymousString)) == [s[0], s[1], s[4]];
  }

  lemma FilterMixedNamed()
    ensures Rx.Filter(Mixed(), v => MatchesPattern(v, NamedString)) == [ Next(300, WithNamedAssociatedValue("100")) ]
  {
    var s := Mixed();
    assert Rx.Filter(s, v => MatchesPattern(v, NamedString)) == [s[2]];
  }

  lemma FilterMixedUnpaired()
    ensures Rx.Filter(Mixed(), v => Matches(v, NoAssociatedValue)) == [ Next(300, NoAssociatedValue) ]
  {
    var s := Mixed();
    assert Rx.Filter(s, v => Matches(v, NoAssociatedValue)) == [s[3]];
  }

  /** The filter tests: by the anonymous and the named constructor, and by a case value. */
  lemma FilterTests(events: Observable<AnyCaseAccessible>)
    requires events == Upcast(Mixed())
    ensures FilterPatternAny(events, AnonymousString) ==
            [ Next(100, WithAnonymousAssociatedValue("100")),
              Next(200, WithAnonymousAssociatedValue("200")),
              Next(400, WithAnonymousAssociatedValue("400")) ]
    ensures FilterPatternAny(events, NamedString) == [ Next(300, WithNamedAssociatedValue("100")) ]
    ensures FilterAny(events, NoAssociatedValue) == [ Next(300, NoAssociatedValue) ]
  {
    Delivered(events, Mixed());
    FilterMixedAnonymous();
    FilterMixedNamed();
    FilterMixedUnpaired();
  }

  // ---------------------------------------------------------------------
  // Exclude
  // ---------------------------------------------------------------------

  /** The events of the exclude tests, excluded on the observable of the fixture type. */
  lemma ExcludeUnpaired()
    ensures Rx.Filter(Unpaired(), v => !Matches(v, NoAssociatedValue)) ==
            [ Next(300, WithNamedAssociatedValue("100")),
              Next(400, WithAnonymousAssociatedValue("400")) ]
  {
    var s := Unpaired();
    assert Rx.Filter(s, v => !Matches(v, NoAssociatedValue)) == [s[2], s[4]];
  }

  lemma ExcludeBracketedNamed()
    ensures Rx.Filter(Bracketed(), v => !MatchesPattern(v, NamedString)) ==
            [ Next(100, NoAssociatedValue),
              Next(200, NoAssociatedValue),
              Next(400, WithAnonymousAssociatedValue("400")),
              Next(500, NoAssociatedValue) ]
  {
    var s := Bracketed();
    assert Rx.Filter(s, v => !MatchesPattern(v, NamedString)) == [s[0], s[1], s[3], s[4]];
  }

  /** The first exclude test, on an observable and on a driver: by a case value. */
  lemma ExcludeCaseTests(events: Observable<AnyCaseAccessible>)
    requires events == Upcast(Unpaired())
    ensures ExcludeAny(events, NoAssociatedValue) ==
            [ Next(300, WithNamedAssociatedValue("100")),
              Next(400, WithAnonymousAssociatedValue("400")) ]
    ensures Shared.ExcludeAny(Shared.AsSharedSequence(events), NoAssociatedValue).events ==
            [ Next(300, WithNamedAssociatedValue("100")),
              Next(400, WithAnonymousAssociatedValue("400")) ]
  {
    Delivered(events, Unpaired());
    ExcludeUnpaired();
  }

  /** The second exclude test, on an observable and on a driver: by the named constructor. */
  lemma ExcludePatternTests(events: Observable<AnyCaseAccessible>)
    requires events == Upcast(Bracketed())
    ensures ExcludePatternAny(events, NamedString) ==
            [ Next(100, NoAssociatedValue),
              Next(200, NoAssociatedValue),
              Next(400, WithAnonymousAssociatedValue("400")),
              Next(500, NoAssociatedValue) ]
    ensures Shared.ExcludePatternAny(Shared.AsSharedSequence(events), NamedString).events ==
            [ Next(100, NoAssociatedValue),
              Next(200, NoAssociatedValue),
              Next(400, WithAnonymousAssociatedValue("400")),
              Next(500, NoAssociatedValue) ]
  {
    Delivered(events, Bracketed());
    ExcludeBracketedNamed();
  }

  // ---------------------------------------------------------------------
  // Capture
  // ---------------------------------------------------------------------

  /** The events of the capture tests, captured on the observable of the fixture type. */
  lemma CaptureMixedAnonymous()
    ensures Rx.CompactMap(Mixed(), v => Extract(v, AnonymousString)) == [ Next(100, "100"), Next(200, "200"), Next(400, "400") ]
  {
    var s := Mixed();
    assert Rx.CompactMap(s, v => Extract(v, AnonymousString)) == [ Next(100, "100"), Next(200, "200"), Next(400, "400") ];
  }

  lemma CaptureNamedFirst()
    ensures Rx.CompactMap(NamedFirst(), v => Extract(v, NamedString)) == [ Next(100, "100"), Next(300, "100") ]
  {
    var s := NamedFirst();
    assert Rx.CompactMap(s, v => Extract(v, NamedString)) == [ Next(100, "100"), Next(300, "100") ];
  }

  /** The occurrences of the case without payload in the third capture test. */
  lemma FilterUnpaired()
    ensures Rx.Filter(Unpaired(), v => Matches(v, NoAssociatedValue)) ==
            [ Next(100, NoAssociatedValue), Next(200, NoAssociatedValue), Next(300, NoAssociatedValue) ]
  {
    var s := Unpaired();
    assert Rx.Filter(s, v => Matches(v, NoAssociatedValue)) == [s[0], s[1], s[3]];
  }

  /** Capturing a case value yields one unit per event the filter keeps, at its time. */
  lemma CaptureUnitOf(s: Observable<MockEnum>, m: Observable<MockEnum>)
    requires m == Rx.Filter(s, v => Matches(v, NoAssociatedValue))
    requires m == [ Next(100, NoAssociatedValue), Next(200, NoAssociatedValue), Next(300, NoAssociatedValue) ]
    ensures CaptureUnit(s, NoAssociatedValue) == [ Next(100, ()), Next(200, ()), Next(300, ()) ]
  {
  }

  /** The test's `map { _ in "" }`. */
  lemma Blank(u: Observable<()>)
    requires u == [ Next(100, ()), Next(200, ()), Next(300, ()) ]
    ensures Rx.Map(u, v => "") == [ Next(100, ""), Next(200, ""), Next(300, "") ]
  {
  }

  /** The first capture test: the anonymous payloads, with their times. */
  lemma CaptureAnonymousTest(events: Observable<AnyCaseAccessible>)
    requires events == Upcast(Mixed())
    ensures CaptureAny(events, AnonymousString) == [ Next(100, "100"), Next(200, "200"), Next(400, "400") ]
  {
    Delivered(events, Mixed());
    CaptureMixedAnonymous();
  }

  /** The second capture test: the named payloads, with their times. */
  lemma CaptureNamedTest(events: Observable<AnyCaseAccessible>)
    requires events == Upcast(NamedFirst())
    ensures CaptureAny(events, NamedString) == [ Next(100, "100"), Next(300, "100") ]
  {
    Delivered(events, NamedFirst());
    CaptureNamedFirst();
  }

  /** The third capture test: one event per occurrence of a case without payload. */
  lemma CaptureCaseTest(events: Observable<AnyCaseAccessible>)
    requires events == Upcast(Unpaired())
    ensures Rx.Map(CaptureUnitAny(events, NoAssociatedValue), u => "") == [ Next(100, ""), Next(200, ""), Next(300, "") ]
  {
    Delivered(events, Unpaired());
    FilterUnpaired();
    CaptureUnitOf(Unpaired(), Rx.Filter(Unpaired(), v => Matches(v, NoAssociatedValue)));
    Blank(CaptureUnitAny(events, NoAssociatedValue));
  }

  // ---------------------------------------------------------------------
  // Map and compactMap
  // ---------------------------------------------------------------------

  /** The payloads of the map tests' events, captured by each string constructor. */
  lemma CaptureWithName()
    ensures Rx.CompactMap(WithName(), v => Extract(v, AnonymousString)) ==
            [ Next(100, "100"), Next(200, "200"), Next(400, "400"), Next(450, "David Bowie") ]
    ensures Rx.CompactMap(WithName(), v => Extract(v, NamedString)) == [ Next(300, "100") ]
  {
    var s := WithName();
    assert Rx.CompactMap(s, v => Extract(v, AnonymousString)) ==
           [ Next(100, "100"), Next(200, "200"), Next(400, "400"), Next(450, "David Bowie") ];
    assert Rx.CompactMap(s, v => Extract(v, NamedString)) == [ Next(300, "100") ];
  }

  /** `Int.init` on those payloads, followed by dropping the failures. */
  lemma ParseWithName()
    ensures Rx.CompactMap([ Next(100, "100"), Next(200, "200"), Next(400, "400"), Next(450, "David Bowie") ], ParseInt) ==
            [ Next(100, 100), Next(200, 200), Next(400, 400) ]
    ensures Rx.CompactMap(Rx.Map([ Next(100, "100"), Next(200, "200"), Next(400, "400"), Next(450, "David Bowie") ], ParseInt), o => o) ==
            [ Next(100, 100), Next(200, 200), Next(400, 400) ]
    ensures Rx.CompactMap([ Next(300, "100") ], ParseInt) == [ Next(300, 100) ]
    ensures Rx.CompactMap(Rx.Map([ Next(300, "100") ], ParseInt), o => o) == [ Next(300, 100) ]
  {
    ParseHundreds('1');
    ParseHundreds('2');
    ParseHundreds('4');
    assert ParseInt("David Bowie") == None;
    assert Rx.Map([ Next(100, "100"), Next(200, "200"), Next(400, "400"), Next(450, "David Bowie") ], ParseInt) ==
           [ Next(100, Some(100)), Next(200, Some(200)), Next(400, Some(400)), Next(450, None) ];
    assert Rx.CompactMap([ Next(100, Some(100)), Next(200, Some(200)), Next(400, Some(400)), Next(450, None) ], o => o) ==
           [ Next(100, 100), Next(200, 200), Next(400, 400) ];
  }

  /** The map and compactMap tests by the anonymous constructor: the payloads that read as numbers. */
  lemma MapAnonymousTests(events: Observable<AnyCaseAccessible>)
    requires events == Upcast(WithName())
    ensures Rx.CompactMap(MapAny(events, AnonymousString, ParseInt), o => o) ==
            [ Next(100, 100), Next(200, 200), Next(400, 400) ]
    ensures CompactMapAny(events, AnonymousString, ParseInt) ==
            [ Next(100, 100), Next(200, 200), Next(400, 400) ]
  {
    Delivered(events, WithName());
    CaptureWithName();
    ParseWithName();
  }

  /** The map and compactMap tests by the named constructor. */
  lemma MapNamedTests(events: Observable<AnyCaseAccessible>)
    requires events == Upcast(WithName())
    ensures Rx.CompactMap(MapAny(events, NamedString, ParseInt), o => o) == [ Next(300, 100) ]
    ensures CompactMapAny(events, NamedString, ParseInt) == [ Next(300, 100) ]
  {
    Delivered(events, WithName());
    CaptureWithName();
    ParseWithName();
  }

  /** The one occurrence of the case without payload in the map tests. */
  lemma FilterWithNameUnpaired()
    ensures Rx.Filter(WithName(), v => Matches(v, NoAssociatedValue)) == [ Next(300, NoAssociatedValue) ]
  {
    var s := WithName();
    assert Rx.Filter(s, v => Matches(v, NoAssociatedValue)) == [s[3]];
  }

  /** The map and compactMap tests by a case value: the transform's value at each occurrence. */
  lemma MapCaseTests(events: Observable<AnyCaseAccessible>)
    requires events == Upcast(WithName())
    ensures MapUnitAny(events, NoAssociatedValue, () => "Frank Sinatra") == [ Next(300, "Frank Sinatra") ]
    ensures CompactMapUnitAny(events, NoAssociatedValue, () => Some("Frank Sinatra")) == [ Next(300, "Frank Sinatra") ]
  {
    Delivered(events, WithName());
    FilterWithNameUnpaired();
  }
}
