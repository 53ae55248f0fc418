/**
 * Case matching on a tagged union, standing in for EnumKit's reflection.
 *
 * The element type is the tests' fixture enum. A case is identified by its
 * label, the case name that EnumKit reads by reflection; two values match
 * when their labels are equal, whatever their payloads. A constructor such
 * as `MockEnum.withAnonymousAssociatedValue`, used as a case pattern, is a
 * `Pattern`: its case label, the constructor itself, and the payload extractor
 * behind EnumKit's `value[case: pattern]` subscript.
 */
module CaseAccessible {
  import opened Wrappers

  /** The fixture enum: two cases without payload, two `String` cases, three `Int` cases. */
  datatype MockEnum =
    | NoAssociatedValue
    | AnotherWithoutAssociatedValue
    | WithAnonymousAssociatedValue(string)
    | WithNamedAssociatedValue(value: string)
    | AnInt(int)
    | AnotherInt(int)
    | NamedInt(integer: int)

  /** The label of the case a value was built with. */
  function Label(v: MockEnum): string
  {
    match v
    case NoAssociatedValue => "noAssociatedValue"
    case AnotherWithoutAssociatedValue => "anotherWithoutAssociatedValue"
    case WithAnonymousAssociatedValue(_) => "withAnonymousAssociatedValue"
    case WithNamedAssociatedValue(_) => "withNamedAssociatedValue"
    case AnInt(_) => "anInt"
    case AnotherInt(_) => "anotherInt"
    case NamedInt(_) => "namedInt"
  }

  /** `v ~= c` for a case value `c`: `v` was built with the same case as `c`. */
  predicate Matches(v: MockEnum, c: MockEnum)
  {
    Label(v) == Label(c)
  }

  /** Both values were built with the same constructor (payloads not compared). */
  predicate SameConstructor(v: MockEnum, w: MockEnum)
  {
    || (v.NoAssociatedValue? && w.NoAssociatedValue?)
    || (v.AnotherWithoutAssociatedValue? && w.AnotherWithoutAssociatedValue?)
    || (v.WithAnonymousAssociatedValue? && w.WithAnonymousAssociatedValue?)
    || (v.WithNamedAssociatedValue? && w.WithNamedAssociatedValue?)
    || (v.AnInt? && w.AnInt?)
    || (v.AnotherInt? && w.AnotherInt?)
    || (v.NamedInt? && w.NamedInt?)
  }

  /** Matching is by case: equal labels exactly when the constructors are the same. */
  lemma MatchesIsSameConstructor(v: MockEnum, w: MockEnum)
    ensures Matches(v, w) <==> SameConstructor(v, w)
  {
  }

  /**
   * Matching looks at the case only: every payload of a case matches every
   * other payload of it, and a case never matches another case, even when
   * both carry the same payload.
   */
  lemma MatchingIgnoresPayload(x: string, y: string, i: int, j: int)
    ensures Matches(WithAnonymousAssociatedValue(x), WithAnonymousAssociatedValue(y))
    ensures Matches(WithNamedAssociatedValue(x), WithNamedAssociatedValue(y))
    ensures Matches(AnInt(i), AnInt(j)) && Matches(AnotherInt(i), AnotherInt(j)) && Matches(NamedInt(i), NamedInt(j))
    ensures !Matches(WithNamedAssociatedValue(x), WithAnonymousAssociatedValue(x))
    ensures !Matches(AnInt(i), AnotherInt(i)) && !Matches(AnInt(i), NamedInt(i)) && !Matches(AnotherInt(i), NamedInt(i))
    ensures !Matches(NoAssociatedValue, AnotherWithoutAssociatedValue)
  {
  }

  /** A payload-carrying case used as a pattern. */
  datatype Pattern<!P> = Pattern(caseLabel: string, make: P -> MockEnum, extract: MockEnum -> Option<P>)

  /** `v[case: pattern]`: the payload of `v` when it was built with the pattern's case. */
  function Extract<P>(v: MockEnum, pat: Pattern<P>): Option<P>
  {
    pat.extract(v)
  }

  /** `v ~= pattern`: the pattern's payload can be extracted from `v`. */
  predicate MatchesPattern<P>(v: MockEnum, pat: Pattern<P>)
  {
    Extract(v, pat).Some?
  }

  /**
   * What EnumKit's reflection guarantees of a constructor pattern: the
   * constructor always builds the pattern's case, extraction succeeds
   * exactly on that case, and constructor and extractor invert each other.
   */
  ghost predicate Lawful<P(!new)>(pat: Pattern<P>)
  {
    && (forall p :: Label(pat.make(p)) == pat.caseLabel)
    && (forall p :: pat.extract(pat.make(p)) == Some(p))
    && (forall v :: pat.extract(v).Some? <==> Label(v) == pat.caseLabel)
    && (forall v :: pat.extract(v).Some? ==> pat.make(pat.extract(v).value) == v)
  }

  /** `MockEnum.withAnonymousAssociatedValue` as a pattern. */
  const AnonymousString: Pattern<string> :=
    Pattern("withAnonymousAssociatedValue",
            p => WithAnonymousAssociatedValue(p),
            (v: MockEnum) => match v case WithAnonymousAssociatedValue(p) => Some(p) case _ => None)

  /** `MockEnum.withNamedAssociatedValue` as a pattern. */
  const NamedString: Pattern<string> :=
    Pattern("withNamedAssociatedValue",
            p => WithNamedAssociatedValue(p),
            (v: MockEnum) => match v case WithNamedAssociatedValue(p) => Some(p) case _ => None)

  /** `MockEnum.anInt` as a pattern. */
  const AnIntPattern: Pattern<int> :=
    Pattern("anInt", p => AnInt(p), (v: MockEnum) => match v case AnInt(p) => Some(p) case _ => None)

  /** `MockEnum.anotherInt` as a pattern. */
  const AnotherIntPattern: Pattern<int> :=
    Pattern("anotherInt", p => AnotherInt(p), (v: MockEnum) => match v case AnotherInt(p) => Some(p) case _ => None)

  /** `MockEnum.namedInt` as a pattern. */
  const NamedIntPattern: Pattern<int> :=
    Pattern("namedInt", p => NamedInt(p), (v: MockEnum) => match v case NamedInt(p) => Some(p) case _ => None)

  /** The fixture's five constructor patterns all behave as EnumKit's reflection does. */
  lemma FixturePatternsLawful()
    ensures Lawful(AnonymousString) && Lawful(NamedString)
    ensures Lawful(AnIntPattern) && Lawful(AnotherIntPattern) && Lawful(NamedIntPattern)
  {
    AnonymousStringLawful();
    NamedStringLawful();
    AnIntPatternLawful();
    AnotherIntPatternLawful();
    NamedIntPatternLawful();
  }

  // One lemma per pattern keeps each proof obligation small.

  lemma AnonymousStringLawful()
    ensures Lawful(AnonymousString)
  {
    LawfulByCases(AnonymousString, WithAnonymousAssociatedValue(""));
  }

  lemma NamedStringLawful()
    ensures Lawful(NamedString)
  {
    LawfulByCases(NamedString, WithNamedAssociatedValue(""));
  }

  lemma AnIntPatternLawful()
    ensures Lawful(AnIntPattern)
  {
    LawfulByCases(AnIntPattern, AnInt(0));
  }

  lemma AnotherIntPatternLawful()
    ensures Lawful(AnotherIntPattern)
  {
    LawfulByCases(AnotherIntPattern, AnotherInt(0));
  }

  lemma NamedIntPatternLawful()
    ensures Lawful(NamedIntPattern)
  {
    LawfulByCases(NamedIntPattern, NamedInt(0));
  }

  /**
   * A pattern is lawful when its label is that of a sample value of its case,
   * its constructor builds that case and inverts the extractor, and the
   * extractor succeeds exactly on that case.
   */
  lemma LawfulByCases<P(!new)>(pat: Pattern<P>, sample: MockEnum)
    requires pat.caseLabel == Label(sample)
    requires forall p :: SameConstructor(pat.make(p), sample) && pat.extract(pat.make(p)) == Some(p)
    requires forall v :: pat.extract(v).Some? <==> SameConstructor(v, sample)
    requires forall v :: pat.extract(v).Some? ==> pat.make(pat.extract(v).value) == v
    ensures Lawful(pat)
  {
    forall p ensures Label(pat.make(p)) == pat.caseLabel {
      MatchesIsSameConstructor(pat.make(p), sample);
    }
    forall v ensures pat.extract(v).Some? <==> Label(v) == pat.caseLabel {
      MatchesIsSameConstructor(v, sample);
    }
  }

  /**
   * A pattern matches every value built with its constructor, whatever the
   * payload, and agrees with matching against any one such value.
   */
  lemma PatternAgreesWithSample<P(!new)>(pat: Pattern<P>, p: P, v: MockEnum)
    requires Lawful(pat)
    ensures MatchesPattern(pat.make(p), pat)
    ensures MatchesPattern(v, pat) <==> Matches(v, pat.make(p))
  {
  }

  /**
   * An element of a stream typed as the `CaseAccessible` existential: either
   * a value of the fixture enum, or a value of some other conforming type,
   * known here only by the name of that type. The operators never look
   * inside such a value: narrowing drops it.
   */
  datatype AnyCaseAccessible = OfMock(mock: MockEnum) | OfOther(typeName: string)

  /** `a as? MockEnum`. */
  function AsMock(a: AnyCaseAccessible): Option<MockEnum>
  {
    match a
    case OfMock(v) => Some(v)
    case OfOther(_) => None
  }

  /** `a is MockEnum`. */
  predicate IsMock(a: AnyCaseAccessible)
  {
    a.OfMock?
  }
}
