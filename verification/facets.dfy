/**
 * Constraining facets of XML Schema simple types: the facet nodes a
 * restriction may hold, and `Facet`, the read-only view that unifies them.
 */
module Facets {
  import opened Wrappers
  import opened Basics
  import opened Annotations

  /**
   * One facet of a restriction, wrapping its node. The three length facets
   * share the `Length` node, the four bounds share `BoundaryFacet`, and the
   * two digit counts share `Digits`.
   */
  datatype Facet =
    | Length(Length)
    | MinLength(Length)
    | MaxLength(Length)
    | Pattern(Pattern)
    | WhiteSpace(WhiteSpace)
    | Enumeration(Enumeration)
    | MinInclusive(BoundaryFacet)
    | MaxInclusive(BoundaryFacet)
    | MinExclusive(BoundaryFacet)
    | MaxExclusive(BoundaryFacet)
    | TotalDigits(Digits)
    | FractionDigits(Digits)
    | Assertion(Assertion)
    | ExplicitTimezone(ExplicitTimezone)
  {
    /** The name of the facet this case stands for, as XML Schema spells its element. */
    function Name(): string
    {
      match this
      case Length(_) => "length"
      case MinLength(_) => "minLength"
      case MaxLength(_) => "maxLength"
      case Pattern(_) => "pattern"
      case WhiteSpace(_) => "whiteSpace"
      case Enumeration(_) => "enumeration"
      case MinInclusive(_) => "minInclusive"
      case MaxInclusive(_) => "maxInclusive"
      case MinExclusive(_) => "minExclusive"
      case MaxExclusive(_) => "maxExclusive"
      case TotalDigits(_) => "totalDigits"
      case FractionDigits(_) => "fractionDigits"
      case Assertion(_) => "assertion"
      case ExplicitTimezone(_) => "explicitTimezone"
    }
  }

  /** An `enumeration` facet: one permitted value. */
  datatype Enumeration = Enumeration(id: Option<ID>, value: string, body: Option<Annotation>)
  {
    /** The facet's annotation, if it was declared with one. */
    function Annotation(): (r: Option<Annotation>)
      ensures Enumeration.Enumeration(id, value, r) == this
    {
      body
    }
  }

  /** A `whiteSpace` facet. It has no annotation accessor. */
  datatype WhiteSpace = WhiteSpace(id: Option<ID>, fixed: Option<bool>, value: WhiteSpaceValue, body: Option<Annotation>)

  /** How whitespace in a value is normalised. */
  datatype WhiteSpaceValue = Preserve | Collapse | Replace

  /** A `pattern` facet: a regular expression values must match. */
  datatype Pattern = Pattern(id: Option<string>, value: string, body: Option<Annotation>)
  {
    /** The facet's annotation, if it was declared with one. */
    function Annotation(): (r: Option<Annotation>)
      ensures Pattern.Pattern(id, value, r) == this
    {
      body
    }
  }

  /** A `totalDigits` or `fractionDigits` facet. */
  datatype Digits = Digits(id: Option<ID>, fixed: Option<bool>, value: U32, body: Option<Annotation>)
  {
    /** The facet's annotation, if it was declared with one. */
    function Annotation(): (r: Option<Annotation>)
      ensures Digits.Digits(id, fixed, value, r) == this
    {
      body
    }
  }

  /** A `length`, `minLength` or `maxLength` facet. */
  datatype Length = Length(id: Option<string>, fixed: Option<bool>, value: U32, body: Option<Annotation>)
  {
    /** The facet's annotation, if it was declared with one. */
    function Annotation(): (r: Option<Annotation>)
      ensures Length.Length(id, fixed, value, r) == this
    {
      body
    }
  }

  /** A `minInclusive`, `maxInclusive`, `minExclusive` or `maxExclusive` facet. */
  datatype BoundaryFacet = BoundaryFacet(id: Option<string>, fixed: Option<bool>, value: string, body: Option<Annotation>)
  {
    /** The facet's annotation, if it was declared with one. */
    function Annotation(): (r: Option<Annotation>)
      ensures BoundaryFacet.BoundaryFacet(id, fixed, value, r) == this
    {
      body
    }
  }

  /** An `assertion` facet: an XPath test on the value. */
  datatype Assertion = Assertion(id: Option<string>, test: string, xpathDefaultNamespace: Option<AnyURI>, body: Option<Annotation>)
  {
    /** The facet's annotation, if it was declared with one. */
    function Annotation(): (r: Option<Annotation>)
      ensures Assertion.Assertion(id, test, xpathDefaultNamespace, r) == this
    {
      body
    }
  }

  /**
   * An `explicitTimezone` facet. Unlike the other facets, `fixed` is a plain
   * boolean: an absent attribute reads as false.
   */
  datatype ExplicitTimezone = ExplicitTimezone(id: Option<string>, fixed: bool, value: ExplicitTimezoneValue, body: Option<Annotation>)
  {
    /** The facet's annotation, if it was declared with one. */
    function Annotation(): (r: Option<Annotation>)
      ensures ExplicitTimezone.ExplicitTimezone(id, fixed, value, r) == this
    {
      body
    }

    /** The `fixed` value read from the attribute, defaulting to false when it is absent. */
    static function FixedFromAttribute(attribute: Option<bool>): (fixed: bool)
      ensures fixed <==> attribute == Some(true)
    {
      match attribute
      case Some(b) => b
      case None => false
    }
  }

  /** Whether a timezone is optional, required or prohibited in a value. */
  datatype ExplicitTimezoneValue = Optional | Required | Prohibited
}
