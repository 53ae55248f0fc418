# RxEnumKit case matching, modelled in Dafny

RxEnumKit adds case-matching operators to RxSwift streams whose elements
are enums conforming to EnumKit's `CaseAccessible`. Five operators are
modelled; the `flatMap` family (`flatMap`, `flatMapFirst`,
`flatMapLatest`) is left out, see below. Each modelled operator is built
from the host's `filter`, `map` and `compactMap`, applied with a case
predicate (`~=` or `!~=`) or a payload extractor (`[case:]`), either
directly or through another of the five (`map(case:)` is `capture(case:)`
followed by `map`, for instance):

- `filter(case:)` and `exclude(case:)` keep, or drop, the elements of one case.
- `capture(case:)` emits a unit marker per match for a case value. For a
  constructor it emits the match's associated value.
- `map(case:, transform)` applies `transform` to each captured value.
- `compactMap(case:, transform)` does the same, then drops the absent results.

Each operator comes in two overloads. One takes a case value, such as
`.noAssociatedValue`. The other takes a constructor used as a pattern,
such as `.withAnonymousAssociatedValue`. The operators exist on
`ObservableType` and again on RxCocoa's `SharedSequence` (`Driver`,
`Signal`). For streams typed as the `CaseAccessible` existential there are
also heterogeneous overloads. These first narrow the stream to one
concrete type with `compactMap { $0 as? T }` (the private `model(_:)`),
then apply the same-type operator.

Modules:

- `Rx` (rx.dfy) is the host library, reduced to what the operators use.
  - A finished stream is its recording: the delivered `next` events, in
    delivery order, each with its virtual time.
  - `Filter`, `Map` and `CompactMap` are the host primitives.
  - `Positions`/`Select`, `Flags`/`Merge` and `TimeOrdered` are reference
    definitions that the laws are stated against.
- `CaseAccessible` (case_accessible.dfy) covers matching.
  - It defines the tests' `MockEnum` and its case labels.
  - `Matches` is matching by case value: the labels are equal.
  - `Pattern` is a constructor pattern: a label, the constructor and the
    payload extractor. `Extract` is `[case:]`, and `MatchesPattern` is `~=`
    with a pattern.
  - `AnyCaseAccessible` is an element of the existential stream.
- `ObservableCaseAccessible` (observable_case_accessible.dfy) holds the
  operators on observables, `Narrow` (that is `model(_:)`), the
  heterogeneous overloads, and their laws.
- `SharedSequenceCaseAccessible` (shared_sequence_case_accessible.dfy)
  redefines every operator by the shared sequence's own body. That includes
  the detours through `asObservable()` and
  `asSharedSequence(onErrorRecover:)`. Each one is proved to deliver the
  same events as the observable operator.
- `Scenarios` (scenarios.dfy) holds the test fixtures and the outputs the
  tests expect.

EnumKit's `~=` and `[case:]` work by runtime reflection, and EnumKit is not
part of this model. Here a case value matches every value built with the
same case, whatever the payload. A constructor pattern matches exactly where
its extractor yields a payload. `Lawful` states what reflection guarantees
of a constructor pattern: the label, the constructor and the extractor
agree. `FixturePatternsLawful` proves it for the fixture's five constructors.

## Model

| member | source | states |
|---|---|---|
| `ObservableCaseAccessible.Filter` | RxEnumKit/ObservableType+CaseAccessible.swift:10-12 | the output is exactly the input elements whose case matches the case value, selected at the ascending positions of the matches, with their times and values |
| `ObservableCaseAccessible.FilterPattern` | RxEnumKit/ObservableType+CaseAccessible.swift:18-20 | the output is exactly the input elements the pattern's extractor accepts, at the ascending positions of the matches |
| `ObservableCaseAccessible.Exclude` | RxEnumKit/ObservableType+CaseAccessible.swift:26-28 | the output is exactly the input elements whose case does not match, at their ascending positions |
| `ObservableCaseAccessible.ExcludePattern` | RxEnumKit/ObservableType+CaseAccessible.swift:34-36 | the output is exactly the input elements the pattern does not match, at their ascending positions |
| `ObservableCaseAccessible.CaptureUnit` | RxEnumKit/ObservableType+CaseAccessible.swift:42-44 | one unit marker per element `Filter` keeps, at the same time |
| `ObservableCaseAccessible.Capture` | RxEnumKit/ObservableType+CaseAccessible.swift:49-51 | one-to-one and in order with `FilterPattern`'s output: the k-th payload has the k-th match's time and is the payload extracted from it |
| `ObservableCaseAccessible.MapUnit` | RxEnumKit/ObservableType+CaseAccessible.swift:59-61 | one `transform()` per match of the case value, at the match's time |
| `ObservableCaseAccessible.Map` | RxEnumKit/ObservableType+CaseAccessible.swift:69-72 | one element per pattern match: `transform` of the match's extracted payload, at the match's time |
| `ObservableCaseAccessible.CompactMapUnit` | RxEnumKit/ObservableType+CaseAccessible.swift:80-82 | nothing when `transform()` is absent; otherwise its value once per match, at the match's time |
| `ObservableCaseAccessible.CompactMap` | RxEnumKit/ObservableType+CaseAccessible.swift:90-93 | equals `Map` followed by dropping the absent results; at most one element per pattern match |
| `ObservableCaseAccessible.FilterExcludePartition` | RxEnumKit/ObservableType+CaseAccessible.swift:10-28 | `filter` and `exclude` by a case value split the input: merging them by the match flags rebuilds it, their multisets add up to the input's, and excluding `filter`'s output (or filtering `exclude`'s) leaves nothing |
| `ObservableCaseAccessible.FilterExcludePatternPartition` | RxEnumKit/ObservableType+CaseAccessible.swift:18-36 | the same partition for a constructor pattern |
| `ObservableCaseAccessible.FilterIdempotent` | RxEnumKit/ObservableType+CaseAccessible.swift:10-36 | filtering twice, or excluding twice, by the same case value or the same pattern equals doing it once |
| `ObservableCaseAccessible.FilterKeepsTimeOrder` | RxEnumKit/ObservableType+CaseAccessible.swift:10-36 | on a time-ordered input, all four filtering operators give time-ordered outputs |
| `ObservableCaseAccessible.PatternOverloadsAgree` | RxEnumKit/ObservableType+CaseAccessible.swift:10-36 | for a lawful pattern, filtering or excluding by the pattern equals doing it by any value built with the pattern's constructor |
| `ObservableCaseAccessible.CaptureRoundTrip` | RxEnumKit/ObservableType+CaseAccessible.swift:49-51 | for a lawful pattern, rebuilding each captured payload with the constructor gives back `FilterPattern`'s output |
| `ObservableCaseAccessible.CaptureOfConstructed` | RxEnumKit/ObservableType+CaseAccessible.swift:49-51 | capturing a stream built with the constructor gives back the payloads; filtering it by a value of another case gives nothing |
| `ObservableCaseAccessible.Narrow` | RxEnumKit/ObservableType+CaseAccessible.swift:180-182 | widening the result back to the existential gives exactly the input elements that are fixture-enum values, in order and at their times |
| `ObservableCaseAccessible.NarrowUpcastRoundTrip` | RxEnumKit/ObservableType+CaseAccessible.swift:180-182 | narrowing a stream of fixture-enum values typed as the existential gives the stream back |
| `ObservableCaseAccessible.NarrowDropsForeign` | RxEnumKit/ObservableType+CaseAccessible.swift:180-182 | an element of another conforming type, wherever it arrives, leaves no trace and raises no error |
| `ObservableCaseAccessible.FilterAny` | RxEnumKit/ObservableType+CaseAccessible.swift:188-190 | widened back, the output is exactly the input elements that are fixture-enum values matching the case value |
| `ObservableCaseAccessible.FilterPatternAny` | RxEnumKit/ObservableType+CaseAccessible.swift:196-198 | widened back, the output is exactly the fixture-enum elements the pattern matches |
| `ObservableCaseAccessible.ExcludeAny` | RxEnumKit/ObservableType+CaseAccessible.swift:204-206 | widened back, the output is exactly the fixture-enum elements not of the case; elements of other types are dropped too |
| `ObservableCaseAccessible.ExcludePatternAny` | RxEnumKit/ObservableType+CaseAccessible.swift:212-214 | widened back, the output is exactly the fixture-enum elements that the pattern does not match |
| `ObservableCaseAccessible.CaptureUnitAny` | RxEnumKit/ObservableType+CaseAccessible.swift:220-222 | one unit marker per element `FilterAny` keeps, at the same time |
| `ObservableCaseAccessible.CaptureAny` | RxEnumKit/ObservableType+CaseAccessible.swift:227-229 | one-to-one with `FilterPatternAny`'s output, each payload extracted from the corresponding match |
| `ObservableCaseAccessible.MapUnitAny` | RxEnumKit/ObservableType+CaseAccessible.swift:237-239 | one `transform()` per element `FilterAny` keeps, at its time |
| `ObservableCaseAccessible.MapAny` | RxEnumKit/ObservableType+CaseAccessible.swift:247-250 | one `transform(payload)` per element `FilterPatternAny` keeps, at its time |
| `ObservableCaseAccessible.CompactMapUnitAny` | RxEnumKit/ObservableType+CaseAccessible.swift:258-260 | nothing when `transform()` is absent; otherwise its value once per element `FilterAny` keeps |
| `ObservableCaseAccessible.CompactMapAny` | RxEnumKit/ObservableType+CaseAccessible.swift:268-271 | equals `MapAny` followed by dropping the absent results; at most one element per match |
| `ObservableCaseAccessible.HeterogeneousPartition` | RxEnumKit/ObservableType+CaseAccessible.swift:188-206 | on the existential, `filter` and `exclude` split the narrowed stream, and with the dropped foreign elements they account for every input element: the multisets of the widened filter output, the widened exclude output and the foreign elements add up to the input's, and so do their lengths |
| `ObservableCaseAccessible.HeterogeneousOnUpcast` | RxEnumKit/ObservableType+CaseAccessible.swift:188-271 | on a stream of fixture-enum values typed as the existential, each of the ten heterogeneous overloads equals its same-type operator |
| `SharedSequenceCaseAccessible.Filter` | RxEnumKit/SharedSequence+CaseAccessible.swift:17-19 | delivers the same events as the observable `filter(case:)` |
| `SharedSequenceCaseAccessible.FilterPattern` | RxEnumKit/SharedSequence+CaseAccessible.swift:24-26 | delivers the same events as the observable `filter(case:)` with a pattern |
| `SharedSequenceCaseAccessible.Exclude` | RxEnumKit/SharedSequence+CaseAccessible.swift:31-33 | delivers the same events as the observable `exclude(case:)` |
| `SharedSequenceCaseAccessible.ExcludePattern` | RxEnumKit/SharedSequence+CaseAccessible.swift:38-40 | delivers the same events as the observable `exclude(case:)` with a pattern |
| `SharedSequenceCaseAccessible.CaptureUnit` | RxEnumKit/SharedSequence+CaseAccessible.swift:45-47 | delivers the same events as the observable `capture(case:)`: a unit per match |
| `SharedSequenceCaseAccessible.Capture` | RxEnumKit/SharedSequence+CaseAccessible.swift:52-56 | the detour through the observable's `compactMap` and back, whose recovery never fires, delivers the observable `capture`'s payloads |
| `SharedSequenceCaseAccessible.MapUnit` | RxEnumKit/SharedSequence+CaseAccessible.swift:63-65 | delivers the same events as the observable `map(case:)` with a case value |
| `SharedSequenceCaseAccessible.Map` | RxEnumKit/SharedSequence+CaseAccessible.swift:72-75 | delivers the same events as the observable `map(case:)` with a pattern |
| `SharedSequenceCaseAccessible.CompactMapUnit` | RxEnumKit/SharedSequence+CaseAccessible.swift:83-88 | delivers the same events as the observable `compactMap(case:)` with a case value |
| `SharedSequenceCaseAccessible.CompactMap` | RxEnumKit/SharedSequence+CaseAccessible.swift:96-102 | delivers the same events as the observable `compactMap(case:)` with a pattern |
| `SharedSequenceCaseAccessible.FilterExcludePartition` | RxEnumKit/SharedSequence+CaseAccessible.swift:17-33 | on a shared sequence, `filter` and `exclude` by a case value split the events: the merge rebuilds them and the multisets add up |
| `SharedSequenceCaseAccessible.FilterExcludePatternPartition` | RxEnumKit/SharedSequence+CaseAccessible.swift:24-40 | the same split for a constructor pattern: merging by the pattern's match flags rebuilds the events and the multisets add up |
| `SharedSequenceCaseAccessible.Narrow` | RxEnumKit/SharedSequence+CaseAccessible.swift:108-111 | the shared sequence's `model(_:)` delivers the same events as the observable's |
| `SharedSequenceCaseAccessible.FilterAny` | RxEnumKit/SharedSequence+CaseAccessible.swift:117-119 | delivers the same events as the observable heterogeneous `filter(case:)` |
| `SharedSequenceCaseAccessible.FilterPatternAny` | RxEnumKit/SharedSequence+CaseAccessible.swift:124-126 | delivers the same events as the observable heterogeneous `filter(case:)` with a pattern |
| `SharedSequenceCaseAccessible.ExcludeAny` | RxEnumKit/SharedSequence+CaseAccessible.swift:131-133 | delivers the same events as the observable heterogeneous `exclude(case:)` |
| `SharedSequenceCaseAccessible.ExcludePatternAny` | RxEnumKit/SharedSequence+CaseAccessible.swift:138-140 | delivers the same events as the observable heterogeneous `exclude(case:)` with a pattern |
| `SharedSequenceCaseAccessible.CaptureUnitAny` | RxEnumKit/SharedSequence+CaseAccessible.swift:146-148 | delivers the same events as the observable heterogeneous `capture(case:)` |
| `SharedSequenceCaseAccessible.CaptureAny` | RxEnumKit/SharedSequence+CaseAccessible.swift:153-155 | delivers the same events as the observable heterogeneous `capture(case:)` with a pattern |
| `SharedSequenceCaseAccessible.MapUnitAny` | RxEnumKit/SharedSequence+CaseAccessible.swift:162-164 | delivers the same events as the observable heterogeneous `map(case:)` |
| `SharedSequenceCaseAccessible.MapAny` | RxEnumKit/SharedSequence+CaseAccessible.swift:171-174 | delivers the same events as the observable heterogeneous `map(case:)` with a pattern |
| `SharedSequenceCaseAccessible.CompactMapUnitAny` | RxEnumKit/SharedSequence+CaseAccessible.swift:182-184 | delivers the same events as the observable heterogeneous `compactMap(case:)` |
| `SharedSequenceCaseAccessible.CompactMapAny` | RxEnumKit/SharedSequence+CaseAccessible.swift:192-195 | delivers the same events as the observable heterogeneous `compactMap(case:)` with a pattern |
| `CaseAccessible.MatchesIsSameConstructor` | Tests/RxEnumKitTests/Mocks/MockCaseAccessible.swift:11-19 | two fixture values match by case value exactly when they were built with the same constructor |
| `CaseAccessible.MatchingIgnoresPayload` | Tests/RxEnumKitTests/Mocks/MockCaseAccessible.swift:11-19 | every payload of a case matches every other payload of it; distinct cases never match, even with the same payload |
| `CaseAccessible.FixturePatternsLawful` | Tests/RxEnumKitTests/Mocks/MockCaseAccessible.swift:14-18 | the five constructor patterns of the fixture are lawful: label, constructor and extractor agree |
| `CaseAccessible.PatternAgreesWithSample` | RxEnumKit/ObservableType+CaseAccessible.swift:18-20 | a lawful pattern matches every value of its case and agrees with matching against any value it builds |
| `Scenarios.FilterTests` | RxEnumKitTests/FilterTests.swift:18-82 | the three filter tests' outputs on their existential fixture, with times |
| `Scenarios.ExcludeCaseTests` | RxEnumKitTests/ExcludeTests.swift:18-94 | the first exclude test's output, on the observable and on the driver |
| `Scenarios.ExcludePatternTests` | RxEnumKitTests/ExcludeTests.swift:43-122 | the second exclude test's output, on the observable and on the driver |
| `Scenarios.CaptureAnonymousTest` | Tests/RxEnumKitTests/CaptureTests.swift:10-33 | the anonymous payloads, with their times |
| `Scenarios.CaptureNamedTest` | Tests/RxEnumKitTests/CaptureTests.swift:36-58 | the named payloads, with their times |
| `Scenarios.CaptureCaseTest` | Tests/RxEnumKitTests/CaptureTests.swift:61-85 | one marker per no-payload occurrence, mapped to the empty string |
| `Scenarios.MapAnonymousTests` | Tests/RxEnumKitTests/MapTests.swift:18-106 | `map` then dropping absent results, and `compactMap`, keep the anonymous payloads that `Int.init` reads; "David Bowie" is dropped |
| `Scenarios.MapNamedTests` | Tests/RxEnumKitTests/MapTests.swift:49-125 | the same for the named payload |
| `Scenarios.MapCaseTests` | Tests/RxEnumKitTests/MapTests.swift:69-144 | `map` and `compactMap` by a case value give the transform's value at each occurrence |

## Left out

- `flatMap`, `flatMapFirst` and `flatMapLatest` (RxEnumKit/ObservableType+CaseAccessible.swift:102-175 and 280-353) are not modelled. Their merge, ignore-while-busy and switch-to-latest policies belong to RxSwift and depend on inner-subscription timing. So the three `flatMap` tests (Tests/RxEnumKitTests/MapTests.swift:147-204) are not modelled either.
- Subscription, scheduling, disposal and the test scheduler's virtual clock are not modelled. A stream is its recording in delivery order, and the times are inert data.
- The fixtures list an event at 300 after one at 400. The test scheduler delivers in time order, with ties in listed order. The fixtures in `Scenarios` are written in that delivery order.
- Terminal events are not modelled: completion carries no element, and none of the operators creates one.
- Throwing transforms are not modelled. The observable `map` and `compactMap` accept throwing transforms, and an error there would become a terminal error event. Here transforms are total and pure (side-effect free) functions. So a `() -> T` or `() -> Option<T>` transform is one fixed value: `MapUnit` gives the same value at every match, and `CompactMapUnit` emits either nothing or one element per match. A stateful Swift closure (RxEnumKit/ObservableType+CaseAccessible.swift:59 and 80, RxEnumKit/SharedSequence+CaseAccessible.swift:63 and 83) could return a different value on each call; the model does not capture that.
- The `onErrorRecover: { _ in .empty() }` of the shared-sequence detours never fires, and `AsSharedSequence` passes the events unchanged. The shared-sequence transforms are non-throwing closures (RxEnumKit/SharedSequence+CaseAccessible.swift:63, 72, 83, 96), and a shared sequence never errors upstream, so the detour through `asObservable()` has no error to recover from.
- `.debug("MATCH")` in the heterogeneous pattern `filter` (RxEnumKit/ObservableType+CaseAccessible.swift:197 and RxEnumKit/SharedSequence+CaseAccessible.swift:125) only logs. It is left out because it does not change the elements.
- EnumKit's reflection is not part of this model. It is replaced by the fixture enum's case labels and explicit constructor patterns.
- The element type is the tests' `MockEnum`, not an arbitrary `CaseAccessible` type. Other conforming types appear only as `OfOther` elements of the existential stream, which narrowing drops.
- The only shared-sequence strategy modelled is one that cannot fail. `Driver`'s delivery on the main thread and `Signal`'s not replaying are sharing behaviour, which is left out.
- `Int.init(_: String)` is modelled in `Scenarios` as `ParseInt`, only for the map tests: an optional sign, decimal digits, and the 64-bit range.
- Package.swift, Tests/RxEnumKitTests/XCTestManifests.swift and the XCTest harness are build and test plumbing. They are left out.
