/**
 * The node types of an XML Schema document below the schema root, and the
 * accessors that read a node's body.
 *
 * Simple types, complex types, restrictions, extensions, attributes,
 * particles and identity constraints refer to one another recursively
 * (a sequence holds elements, an element holds a complex type, a complex
 * type holds a sequence, ...), so they form one family of datatypes and
 * live in one module. Every container keeps its children in `body`, an
 * ordered list of tagged variants; the accessors are read-only.
 */
module Ast {
  import opened Wrappers
  import opened Basics
  import opened Annotations
  import opened Facets
  import opened Body

  // ---------------------------------------------------------------------
  // Attribute value enumerations
  // ---------------------------------------------------------------------

  /** A derivation method a `final` attribute can forbid (`#all` is `All`). */
  datatype Final = All | Extension | Restriction | List | Union

  /** A substitution or derivation a `block` attribute can forbid (`#all` is `All`). */
  datatype Block = All | Extension | Restriction | Substitution

  /** Whether local names are namespace-qualified. */
  datatype FormChoice = Qualified | Unqualified

  /** The `use` of an attribute. */
  datatype AttributeUse = Optional | Prohibited | Required

  /** How a wildcard's matches are validated. */
  datatype ProcessContents = Lax | Strict | Skip

  /** Where open content may appear. */
  datatype OpenContentMode = Interleave | Suffix

  // ---------------------------------------------------------------------
  // Attributes and attribute groups
  // ---------------------------------------------------------------------

  /** An `attributeGroup` definition or reference. It has no accessors. */
  datatype AttributeGroup = AttributeGroup(id: Option<ID>, name: Option<NCName>, ref: Option<QName>,
                                           body: seq<AttributeGroupBody>)

  datatype AttributeGroupBody =
    | Annotation(Annotation)
    | Attribute(Attribute)
    | AnyAttribute(AnyAttribute)
    | AttributeGroup(AttributeGroup)

  /** An `attribute` declaration or reference. */
  datatype Attribute = Attribute(id: Option<ID>, name: Option<NCName>, typeName: Option<QName>,
                                 use: Option<AttributeUse>, ref: Option<QName>, default: Option<string>,
                                 fixed: Option<string>, form: Option<FormChoice>,
                                 targetNamespace: Option<AnyURI>, inheritable: Option<bool>,
                                 body: seq<AttributeBody>)
  {
    /** The annotation child, if there is exactly one. */
    method Annotation() returns (r: Option<Annotation>)
      ensures r == Singleton(body, AttributeBody.AnnotationOf)
    {
      r := ElementFromBody(body, AttributeBody.AnnotationOf);
    }

    /** The anonymous simple type child, if there is exactly one. */
    method SimpleType() returns (r: Option<SimpleType>)
      ensures r == Singleton(body, AttributeBody.SimpleTypeOf)
    {
      r := ElementFromBody(body, AttributeBody.SimpleTypeOf);
    }
  }

  datatype AttributeBody = Annotation(Annotation) | SimpleType(SimpleType)
  {
    static function AnnotationOf(b: AttributeBody): Option<Annotation>
    {
      match b
      case Annotation(a) => Some(a)
      case _ => None
    }

    static function SimpleTypeOf(b: AttributeBody): Option<SimpleType>
    {
      match b
      case SimpleType(s) => Some(s)
      case _ => None
    }
  }

  /** An `anyAttribute` wildcard. Its annotation is stored directly. */
  datatype AnyAttribute = AnyAttribute(id: Option<ID>, namespace: Option<string>, notNamespace: Option<string>,
                                       notQName: Option<string>, processContents: Option<ProcessContents>,
                                       body: Option<Annotation>)
  {
    /** The wildcard's annotation, if it was declared with one. */
    function Annotation(): (r: Option<Annotation>)
      ensures AnyAttribute.AnyAttribute(id, namespace, notNamespace, notQName, processContents, r) == this
    {
      body
    }
  }

  // ---------------------------------------------------------------------
  // Open content
  // ---------------------------------------------------------------------

  /** A schema-wide `defaultOpenContent`. */
  datatype DefaultOpenContent = DefaultOpenContent(id: Option<ID>, mode: Option<OpenContentMode>,
                                                   appliesToEmpty: Option<bool>, body: seq<OpenContentBody>)
  {
    /** The annotation child, if there is exactly one. */
    method Annotations() returns (r: Option<Annotation>)
      ensures r == Singleton(body, OpenContentBody.AnnotationOf)
    {
      r := ElementFromBody(body, OpenContentBody.AnnotationOf);
    }

    /** The `any` wildcard child, if there is exactly one. */
    method Any() returns (r: Option<Any>)
      ensures r == Singleton(body, OpenContentBody.AnyOf)
    {
      r := ElementFromBody(body, OpenContentBody.AnyOf);
    }
  }

  /** An `openContent` of one complex type. */
  datatype OpenContent = OpenContent(id: Option<ID>, mode: Option<OpenContentMode>, body: seq<OpenContentBody>)
  {
    /** The annotation child, if there is exactly one. */
    method Annotations() returns (r: Option<Annotation>)
      ensures r == Singleton(body, OpenContentBody.AnnotationOf)
    {
      r := ElementFromBody(body, OpenContentBody.AnnotationOf);
    }

    /** The `any` wildcard child, if there is exactly one. */
    method Any() returns (r: Option<Any>)
      ensures r == Singleton(body, OpenContentBody.AnyOf)
    {
      r := ElementFromBody(body, OpenContentBody.AnyOf);
    }
  }

  datatype OpenContentBody = Any(Any) | Annotation(Annotation)
  {
    static function AnnotationOf(b: OpenContentBody): Option<Annotation>
    {
      match b
      case Annotation(a) => Some(a)
      case _ => None
    }

    static function AnyOf(b: OpenContentBody): Option<Any>
    {
      match b
      case Any(a) => Some(a)
      case _ => None
    }
  }

  // ---------------------------------------------------------------------
  // Simple types
  // ---------------------------------------------------------------------

  /** The error a simple type without restriction, union or list reports. */
  const NoContentError: string := "SimpleType has no valid content (restriction, union, or list)"

  /** A `simpleType` definition. */
  datatype SimpleType = SimpleType(id: Option<ID>, final: Option<Final>, name: Option<NCName>,
                                   body: seq<SimpleTypeBody>)
  {
    /** The annotation child, if there is exactly one. */
    method Annotation() returns (r: Option<Annotation>)
      ensures r == Singleton(body, SimpleTypeBody.AnnotationOf)
    {
      r := ElementFromBody(body, SimpleTypeBody.AnnotationOf);
    }

    /**
     * The defining restriction, union or list: the first such child, after
     * any annotations. Fails when the body holds nothing but annotations.
     */
    method Content() returns (content: Result<SimpleTypeContent, string>)
      ensures content.Failure? <==> forall i | 0 <= i < |body| :: body[i].Annotation?
      ensures content.Failure? ==> content.error == NoContentError
      ensures content.Success? ==>
                exists i | 0 <= i < |body| ::
                  (forall j | 0 <= j < i :: body[j].Annotation?)
                  && SimpleTypeBody.ContentOf(body[i]) == Some(content.value)
    {
      for i := 0 to |body|
        invariant forall j | 0 <= j < i :: body[j].Annotation?
      {
        match body[i] {
          case Annotation(_) =>
          case Restriction(e) => return Success(SimpleTypeContent.Restriction(e));
          case Union(e) => return Success(SimpleTypeContent.Union(e));
          case List(e) => return Success(SimpleTypeContent.List(e));
        }
      }
      return Failure(NoContentError);
    }
  }

  datatype SimpleTypeBody = Annotation(Annotation) | Restriction(Restriction) | Union(Union) | List(List)
  {
    static function AnnotationOf(b: SimpleTypeBody): Option<Annotation>
    {
      match b
      case Annotation(a) => Some(a)
      case _ => None
    }

    /** The content a child defines; annotations define none. */
    static function ContentOf(b: SimpleTypeBody): Option<SimpleTypeContent>
    {
      match b
      case Annotation(_) => None
      case Restriction(r) => Some(SimpleTypeContent.Restriction(r))
      case Union(u) => Some(SimpleTypeContent.Union(u))
      case List(l) => Some(SimpleTypeContent.List(l))
    }
  }

  /** What a simple type is defined by. */
  datatype SimpleTypeContent = Restriction(Restriction) | Union(Union) | List(List)

  /** A `union` of simple types. */
  datatype Union = Union(id: Option<ID>, memberTypes: Option<seq<QName>>, body: seq<UnionBody>)
  {
    /** The annotation child, if there is exactly one. */
    method Annotation() returns (r: Option<Annotation>)
      ensures r == Singleton(body, UnionBody.AnnotationOf)
    {
      r := ElementFromBody(body, UnionBody.AnnotationOf);
    }

    /** The anonymous member types, in order. */
    method SimpleTypes() returns (r: seq<SimpleType>)
      ensures r == Project(body, UnionBody.SimpleTypeOf)
    {
      r := ElementsFromBody(body, UnionBody.SimpleTypeOf);
    }
  }

  datatype UnionBody = SimpleType(SimpleType) | Annotation(Annotation)
  {
    static function AnnotationOf(b: UnionBody): Option<Annotation>
    {
      match b
      case Annotation(a) => Some(a)
      case _ => None
    }

    static function SimpleTypeOf(b: UnionBody): Option<SimpleType>
    {
      match b
      case SimpleType(s) => Some(s)
      case _ => None
    }
  }

  /** A `list` of a simple type. */
  datatype List = List(id: Option<ID>, itemType: Option<QName>, body: seq<ListBody>)
  {
    /** The annotation child, if there is exactly one. */
    method Annotation() returns (r: Option<Annotation>)
      ensures r == Singleton(body, ListBody.AnnotationOf)
    {
      r := ElementFromBody(body, ListBody.AnnotationOf);
    }

    /** The anonymous item types, in order. */
    method SimpleTypes() returns (r: seq<SimpleType>)
      ensures r == Project(body, ListBody.SimpleTypeOf)
    {
      r := ElementsFromBody(body, ListBody.SimpleTypeOf);
    }
  }

  datatype ListBody = SimpleType(SimpleType) | Annotation(Annotation)
  {
    static function AnnotationOf(b: ListBody): Option<Annotation>
    {
      match b
      case Annotation(a) => Some(a)
      case _ => None
    }

    static function SimpleTypeOf(b: ListBody): Option<SimpleType>
    {
      match b
      case SimpleType(s) => Some(s)
      case _ => None
    }
  }

  // ---------------------------------------------------------------------
  // Restriction
  // ---------------------------------------------------------------------

  /** A `restriction` of a base type, by facets or by content. */
  datatype Restriction = Restriction(id: Option<ID>, base: Option<QName>, body: seq<RestrictionBody>)
  {
    /** The annotation child, if there is exactly one. */
    method Annotation() returns (r: Option<Annotation>)
      ensures r == Singleton(body, RestrictionBody.AnnotationOf)
    {
      r := ElementFromBody(body, RestrictionBody.AnnotationOf);
    }

    /** The anonymous base simple type, if there is exactly one. */
    method SimpleType() returns (r: Option<SimpleType>)
      ensures r == Singleton(body, RestrictionBody.SimpleTypeOf)
    {
      r := ElementFromBody(body, RestrictionBody.SimpleTypeOf);
    }

    /** The `assert` children, in order. */
    method Asserts() returns (r: seq<Assert>)
      ensures r == Project(body, RestrictionBody.AssertOf)
    {
      r := ElementsFromBody(body, RestrictionBody.AssertOf);
    }

    /**
     * The facet children as `Facet` values, in order, skipping every other
     * child. A `minInclusive` child is reported as `Facet.MinExclusive`.
     */
    method Facets() returns (facets: seq<Facet>)
      ensures facets == Project(body, RestrictionBody.FacetOf)
    {
      facets := [];
      for i := 0 to |body|
        invariant facets == Project(body[..i], RestrictionBody.FacetOf)
      {
        var pushed: Option<Facet>;
        match body[i] {
          case Pattern(e) => pushed := Some(Facet.Pattern(e));
          case Length(e) => pushed := Some(Facet.Length(e));
          case Annotation(_) => pushed := None;
          case WhiteSpace(e) => pushed := Some(Facet.WhiteSpace(e));
          case SimpleType(_) => pushed := None;
          case AnyAttribute(_) => pushed := None;
          case MinInclusive(e) => pushed := Some(Facet.MinExclusive(e));
          case MaxInclusive(e) => pushed := Some(Facet.MaxInclusive(e));
          case MinExclusive(e) => pushed := Some(Facet.MinExclusive(e));
          case MaxExclusive(e) => pushed := Some(Facet.MaxExclusive(e));
          case MinLength(e) => pushed := Some(Facet.MinLength(e));
          case MaxLength(e) => pushed := Some(Facet.MaxLength(e));
          case FractionDigits(e) => pushed := Some(Facet.FractionDigits(e));
          case TotalDigits(e) => pushed := Some(Facet.TotalDigits(e));
          case Enumeration(e) => pushed := Some(Facet.Enumeration(e));
          case Sequence(_) => pushed := None;
          case Attribute(_) => pushed := None;
          case AttributeGroup(_) => pushed := None;
          case Group(_) => pushed := None;
          case All(_) => pushed := None;
          case Choice(_) => pushed := None;
          case Assertion(e) => pushed := Some(Facet.Assertion(e));
          case ExplicitTimezone(e) => pushed := Some(Facet.ExplicitTimezone(e));
          case Assert(_) => pushed := None;
        }
        ProjectStep(body, RestrictionBody.FacetOf, i);
        assert pushed == RestrictionBody.FacetOf(body[i]);
        if pushed.Some? {
          facets := facets + [pushed.value];
        }
      }
      assert body[..|body|] == body;
    }
  }

  datatype RestrictionBody =
    | Pattern(Pattern)
    | Length(Length)
    | Annotation(Annotation)
    | WhiteSpace(WhiteSpace)
    | SimpleType(SimpleType)
    | AnyAttribute(AnyAttribute)
    | MinInclusive(BoundaryFacet)
    | MaxInclusive(BoundaryFacet)
    | MinExclusive(BoundaryFacet)
    | MaxExclusive(BoundaryFacet)
    | MinLength(Length)
    | MaxLength(Length)
    | FractionDigits(Digits)
    | TotalDigits(Digits)
    | Enumeration(Enumeration)
    | Sequence(Sequence)
    | Attribute(Attribute)
    | AttributeGroup(AttributeGroup)
    | Group(Group)
    | All(All)
    | Choice(Choice)
    | Assertion(Assertion)
    | ExplicitTimezone(ExplicitTimezone)
    | Assert(Assert)
  {
    /** The element name the child is read from. */
    function Tag(): string
    {
      match this
      case Pattern(_) => "pattern"
      case Length(_) => "length"
      case Annotation(_) => "annotation"
      case WhiteSpace(_) => "whiteSpace"
      case SimpleType(_) => "simpleType"
      case AnyAttribute(_) => "anyAttribute"
      case MinInclusive(_) => "minInclusive"
      case MaxInclusive(_) => "maxInclusive"
      case MinExclusive(_) => "minExclusive"
      case MaxExclusive(_) => "maxExclusive"
      case MinLength(_) => "minLength"
      case MaxLength(_) => "maxLength"
      case FractionDigits(_) => "fractionDigits"
      case TotalDigits(_) => "totalDigits"
      case Enumeration(_) => "enumeration"
      case Sequence(_) => "sequence"
      case Attribute(_) => "attribute"
      case AttributeGroup(_) => "attributeGroup"
      case Group(_) => "group"
      case All(_) => "all"
      case Choice(_) => "choice"
      case Assertion(_) => "assertion"
      case ExplicitTimezone(_) => "explicitTimezone"
      case Assert(_) => "assert"
    }

    /** The children that carry a facet. */
    static predicate IsFacetChild(b: RestrictionBody)
    {
      || b.Pattern? || b.Length? || b.WhiteSpace? || b.Enumeration?
      || b.MinInclusive? || b.MaxInclusive? || b.MinExclusive? || b.MaxExclusive?
      || b.MinLength? || b.MaxLength? || b.FractionDigits? || b.TotalDigits?
      || b.Assertion? || b.ExplicitTimezone?
    }

    static function AnnotationOf(b: RestrictionBody): Option<Annotation>
    {
      match b
      case Annotation(a) => Some(a)
      case _ => None
    }

    static function SimpleTypeOf(b: RestrictionBody): Option<SimpleType>
    {
      match b
      case SimpleType(s) => Some(s)
      case _ => None
    }

    static function AssertOf(b: RestrictionBody): Option<Assert>
    {
      match b
      case Assert(a) => Some(a)
      case _ => None
    }

    /**
     * The facet a child contributes to the facet view, as the facet view
     * computes it: a `minInclusive` child becomes `Facet.MinExclusive`.
     */
    static function FacetOf(b: RestrictionBody): (r: Option<Facet>)
      ensures r.Some? <==> IsFacetChild(b)
      ensures r.None? <==> || b.Annotation? || b.SimpleType? || b.AnyAttribute? || b.Sequence?
                           || b.Attribute? || b.AttributeGroup? || b.Group? || b.All? || b.Choice?
                           || b.Assert?
    {
      match b
      case Pattern(e) => Some(Facet.Pattern(e))
      case Length(e) => Some(Facet.Length(e))
      case Annotation(_) => None
      case WhiteSpace(e) => Some(Facet.WhiteSpace(e))
      case SimpleType(_) => None
      case AnyAttribute(_) => None
      case MinInclusive(e) => Some(Facet.MinExclusive(e))
      case MaxInclusive(e) => Some(Facet.MaxInclusive(e))
      case MinExclusive(e) => Some(Facet.MinExclusive(e))
      case MaxExclusive(e) => Some(Facet.MaxExclusive(e))
      case MinLength(e) => Some(Facet.MinLength(e))
      case MaxLength(e) => Some(Facet.MaxLength(e))
      case FractionDigits(e) => Some(Facet.FractionDigits(e))
      case TotalDigits(e) => Some(Facet.TotalDigits(e))
      case Enumeration(e) => Some(Facet.Enumeration(e))
      case Sequence(_) => None
      case Attribute(_) => None
      case AttributeGroup(_) => None
      case Group(_) => None
      case All(_) => None
      case Choice(_) => None
      case Assertion(e) => Some(Facet.Assertion(e))
      case ExplicitTimezone(e) => Some(Facet.ExplicitTimezone(e))
      case Assert(_) => None
    }

    /**
     * The facet a child evidently should contribute: the facet named like
     * the child, wrapping the child's node.
     */
    static function IntendedFacetOf(b: RestrictionBody): (r: Option<Facet>)
      ensures r.Some? <==> IsFacetChild(b)
      ensures r.Some? ==> r.value.Name() == b.Tag()
    {
      match b
      case MinInclusive(e) => Some(Facet.MinInclusive(e))
      case _ => FacetOf(b)
    }
  }

  // ---------------------------------------------------------------------
  // Complex types
  // ---------------------------------------------------------------------

  /** A `complexType` definition. */
  datatype ComplexType = ComplexType(id: Option<ID>, name: Option<NCName>, mixed: Option<bool>,
                                     final: Option<seq<Final>>, block: Option<seq<Block>>,
                                     isAbstract: Option<bool>, typeName: Option<string>,
                                     defaultAttributesApply: Option<bool>, body: seq<ComplexTypeBody>)
  {
    /** The annotation child, if there is exactly one. */
    method Annotation() returns (r: Option<Annotation>)
      ensures r == Singleton(body, ComplexTypeBody.AnnotationOf)
    {
      r := ElementFromBody(body, ComplexTypeBody.AnnotationOf);
    }

    /** The `all` child, if there is exactly one. */
    method All() returns (r: Option<All>)
      ensures r == Singleton(body, ComplexTypeBody.AllOf)
    {
      r := ElementFromBody(body, ComplexTypeBody.AllOf);
    }

    /** The `assert` children, in order. */
    method Asserts() returns (r: seq<Assert>)
      ensures r == Project(body, ComplexTypeBody.AssertOf)
    {
      r := ElementsFromBody(body, ComplexTypeBody.AssertOf);
    }

    /** The `sequence` child, if there is exactly one. */
    method Sequence() returns (r: Option<Sequence>)
      ensures r == Singleton(body, ComplexTypeBody.SequenceOf)
    {
      r := ElementFromBody(body, ComplexTypeBody.SequenceOf);
    }

    /** The `attribute` children, in order. */
    method Attributes() returns (r: seq<Attribute>)
      ensures r == Project(body, ComplexTypeBody.AttributeOf)
    {
      r := ElementsFromBody(body, ComplexTypeBody.AttributeOf);
    }

    /** The `attributeGroup` children, in order. */
    method AttributeGroups() returns (r: seq<AttributeGroup>)
      ensures r == Project(body, ComplexTypeBody.AttributeGroupOf)
    {
      r := ElementsFromBody(body, ComplexTypeBody.AttributeGroupOf);
    }

    /** The `anyAttribute` child, if there is exactly one. */
    method AnyAttribute() returns (r: Option<AnyAttribute>)
      ensures r == Singleton(body, ComplexTypeBody.AnyAttributeOf)
    {
      r := ElementFromBody(body, ComplexTypeBody.AnyAttributeOf);
    }

    /** The `group` child, if there is exactly one. */
    method Group() returns (r: Option<Group>)
      ensures r == Singleton(body, ComplexTypeBody.GroupOf)
    {
      r := ElementFromBody(body, ComplexTypeBody.GroupOf);
    }

    /** The `complexContent` child, if there is exactly one. */
    method ComplexContent() returns (r: Option<ComplexContent>)
      ensures r == Singleton(body, ComplexTypeBody.ComplexContentOf)
    {
      r := ElementFromBody(body, ComplexTypeBody.ComplexContentOf);
    }

    /** The `simpleContent` child, if there is exactly one. */
    method SimpleContent() returns (r: Option<SimpleContent>)
      ensures r == Singleton(body, ComplexTypeBody.SimpleContentOf)
    {
      r := ElementFromBody(body, ComplexTypeBody.SimpleContentOf);
    }

    /** The `choice` child, if there is exactly one. */
    method Choice() returns (r: Option<Choice>)
      ensures r == Singleton(body, ComplexTypeBody.ChoiceOf)
    {
      r := ElementFromBody(body, ComplexTypeBody.ChoiceOf);
    }
  }

  datatype ComplexTypeBody =
    | Annotation(Annotation)
    | All(All)
    | Assert(Assert)
    | Sequence(Sequence)
    | Attribute(Attribute)
    | AttributeGroup(AttributeGroup)
    | AnyAttribute(AnyAttribute)
    | Group(Group)
    | ComplexContent(ComplexContent)
    | SimpleContent(SimpleContent)
    | OpenContent(OpenContent)
    | Choice(Choice)
  {
    static function AnnotationOf(b: ComplexTypeBody): Option<Annotation>
    {
      match b
      case Annotation(x) => Some(x)
      case _ => None
    }

    static function AllOf(b: ComplexTypeBody): Option<All>
    {
      match b
      case All(x) => Some(x)
      case _ => None
    }

    static function AssertOf(b: ComplexTypeBody): Option<Assert>
    {
      match b
      case Assert(x) => Some(x)
      case _ => None
    }

    static function SequenceOf(b: ComplexTypeBody): Option<Sequence>
    {
      match b
      case Sequence(x) => Some(x)
      case _ => None
    }

    static function AttributeOf(b: ComplexTypeBody): Option<Attribute>
    {
      match b
      case Attribute(x) => Some(x)
      case _ => None
    }

    static function AttributeGroupOf(b: ComplexTypeBody): Option<AttributeGroup>
    {
      match b
      case AttributeGroup(x) => Some(x)
      case _ => None
    }

    static function AnyAttributeOf(b: ComplexTypeBody): Option<AnyAttribute>
    {
      match b
      case AnyAttribute(x) => Some(x)
      case _ => None
    }

    static function GroupOf(b: ComplexTypeBody): Option<Group>
    {
      match b
      case Group(x) => Some(x)
      case _ => None
    }

    static function ComplexContentOf(b: ComplexTypeBody): Option<ComplexContent>
    {
      match b
      case ComplexContent(x) => Some(x)
      case _ => None
    }

    static function SimpleContentOf(b: ComplexTypeBody): Option<SimpleContent>
    {
      match b
      case SimpleContent(x) => Some(x)
      case _ => None
    }

    static function ChoiceOf(b: ComplexTypeBody): Option<Choice>
    {
      match b
      case Choice(x) => Some(x)
      case _ => None
    }
  }

  /** A `simpleContent` of a complex type. */
  datatype SimpleContent = SimpleContent(id: Option<ID>, body: seq<ContentBody>)
  {
    /** The annotation child, if there is exactly one. */
    method Annotation() returns (r: Option<Annotation>)
      ensures r == Singleton(body, ContentBody.AnnotationOf)
    {
      r := ElementFromBody(body, ContentBody.AnnotationOf);
    }
  }

  /** A `complexContent` of a complex type. */
  datatype ComplexContent = ComplexContent(id: Option<ID>, mixed: Option<bool>, body: seq<ContentBody>)
  {
    /** The annotation child, if there is exactly one. */
    method Annotation() returns (r: Option<Annotation>)
      ensures r == Singleton(body, ContentBody.AnnotationOf)
    {
      r := ElementFromBody(body, ContentBody.AnnotationOf);
    }
  }

  datatype ContentBody = Annotation(Annotation) | Restriction(Restriction) | Extension(Extension)
  {
    static function AnnotationOf(b: ContentBody): Option<Annotation>
    {
      match b
      case Annotation(a) => Some(a)
      case _ => None
    }
  }

  /** An `extension` of a base type. */
  datatype Extension = Extension(id: Option<string>, base: QName, body: seq<ExtensionBody>)
  {
    /** The annotation child, if there is exactly one. */
    method Annotation() returns (r: Option<Annotation>)
      ensures r == Singleton(body, ExtensionBody.AnnotationOf)
    {
      r := ElementFromBody(body, ExtensionBody.AnnotationOf);
    }

    /** The `openContent` child, if there is exactly one. */
    method OpenContent() returns (r: Option<OpenContent>)
      ensures r == Singleton(body, ExtensionBody.OpenContentOf)
    {
      r := ElementFromBody(body, ExtensionBody.OpenContentOf);
    }

    /** The `assert` children, in order. */
    method Asserts() returns (r: seq<Assert>)
      ensures r == Project(body, ExtensionBody.AssertOf)
    {
      r := ElementsFromBody(body, ExtensionBody.AssertOf);
    }
  }

  datatype ExtensionBody =
    | All(All)
    | Assert(Assert)
    | Group(Group)
    | Attribute(Attribute)
    | AnyAttribute(AnyAttribute)
    | AttributeGroup(AttributeGroup)
    | Sequence(Sequence)
    | Choice(Choice)
    | Annotation(Annotation)
    | OpenContent(OpenContent)
  {
    static function AnnotationOf(b: ExtensionBody): Option<Annotation>
    {
      match b
      case Annotation(x) => Some(x)
      case _ => None
    }

    static function OpenContentOf(b: ExtensionBody): Option<OpenContent>
    {
      match b
      case OpenContent(x) => Some(x)
      case _ => None
    }

    static function AssertOf(b: ExtensionBody): Option<Assert>
    {
      match b
      case Assert(x) => Some(x)
      case _ => None
    }
  }

  /** An `assert` on a complex type, with its public annotation. */
  datatype Assert = Assert(id: Option<ID>, test: Option<string>, annotation: Option<Annotation>)

  // ---------------------------------------------------------------------
  // Identity constraints
  // ---------------------------------------------------------------------

  /** A `unique` constraint. */
  datatype Unique = Unique(id: Option<ID>, name: NCName, ref: Option<QName>, body: seq<UniqueBody>)
  {
    /** The annotation child, if there is exactly one. */
    method Annotation() returns (r: Option<Annotation>)
      ensures r == Singleton(body, UniqueBody.AnnotationOf)
    {
      r := ElementFromBody(body, UniqueBody.AnnotationOf);
    }
  }

  datatype UniqueBody = Annotation(Annotation) | Selector(Selector) | Field(Field)
  {
    static function AnnotationOf(b: UniqueBody): Option<Annotation>
    {
      match b
      case Annotation(a) => Some(a)
      case _ => None
    }
  }

  /** The `selector` path of an identity constraint. Its annotation is stored directly. */
  datatype Selector = Selector(id: Option<string>, xpath: string, xpathDefaultNamespace: Option<AnyURI>,
                               body: Option<Annotation>)
  {
    /** The selector's annotation, if it was declared with one. */
    function Annotation(): (r: Option<Annotation>)
      ensures Selector.Selector(id, xpath, xpathDefaultNamespace, r) == this
    {
      body
    }
  }

  /** A `key` constraint. It has no accessors. */
  datatype Key = Key(id: Option<string>, name: Option<string>, body: seq<KeyBody>)

  datatype KeyBody = Annotation(Annotation) | Selector(Selector) | Field(Field)

  /** A `keyref` constraint, referring to a key by name. It has no accessors. */
  datatype Keyref = Keyref(id: Option<string>, name: NCName, refer: QName, body: seq<KeyrefBody>)

  datatype KeyrefBody = Annotation(Annotation) | Selector(Selector) | Field(Field)

  /** A `field` path of an identity constraint. Its annotation is stored directly. */
  datatype Field = Field(id: Option<ID>, xpath: string, xpathDefaultNamespace: Option<AnyURI>,
                         body: Option<Annotation>)
  {
    /** The field's annotation, if it was declared with one. */
    function Annotation(): (r: Option<Annotation>)
      ensures Field.Field(id, xpath, xpathDefaultNamespace, r) == this
    {
      body
    }
  }

  // ---------------------------------------------------------------------
  // Particles
  // ---------------------------------------------------------------------

  /** One unit of a content model, as the particle view reports it. */
  datatype Particle =
    | Element(Element)
    | Choice(Choice)
    | Group(Group)
    | Sequence(Sequence)
    | Any(Any)

  /** A `maxOccurs` value: a bound, or the text standing for no bound. */
  datatype MaxOccurs = Bounded(U32) | Unbounded(string)

  /** A `sequence` compositor: its particles in the required order. */
  datatype Sequence = Sequence(id: Option<ID>, minOccurs: Option<U32>, maxOccurs: Option<MaxOccurs>,
                               body: seq<SequenceBody>)
  {
    /** The annotation child, if there is exactly one. */
    method Annotation() returns (r: Option<Annotation>)
      ensures r == Singleton(body, SequenceBody.AnnotationOf)
    {
      r := ElementFromBody(body, SequenceBody.AnnotationOf);
    }

    /** Every child but the annotations, as a particle, in order. */
    method Items() returns (particles: seq<Particle>)
      ensures particles == Project(body, SequenceBody.ParticleOf)
    {
      particles := [];
      for i := 0 to |body|
        invariant particles == Project(body[..i], SequenceBody.ParticleOf)
      {
        assert body[..i + 1][..i] == body[..i];
        match body[i] {
          case Any(e) => particles := particles + [Particle.Any(e)];
          case Annotation(_) =>
          case Element(e) => particles := particles + [Particle.Element(e)];
          case Group(e) => particles := particles + [Particle.Group(e)];
          case Sequence(e) => particles := particles + [Particle.Sequence(e)];
          case Choice(e) => particles := particles + [Particle.Choice(e)];
        }
      }
      assert body[..|body|] == body;
    }
  }

  datatype SequenceBody =
    | Any(Any)
    | Annotation(Annotation)
    | Element(Element)
    | Group(Group)
    | Sequence(Sequence)
    | Choice(Choice)
  {
    static function AnnotationOf(b: SequenceBody): Option<Annotation>
    {
      match b
      case Annotation(a) => Some(a)
      case _ => None
    }

    /** The particle a child stands for; an annotation stands for none. */
    static function ParticleOf(b: SequenceBody): (r: Option<Particle>)
      ensures r.None? <==> b.Annotation?
      ensures r.Some? ==> && (r.value.Any? <==> b.Any?) && (r.value.Element? <==> b.Element?)
                          && (r.value.Group? <==> b.Group?) && (r.value.Sequence? <==> b.Sequence?)
                          && (r.value.Choice? <==> b.Choice?)
    {
      match b
      case Any(e) => Some(Particle.Any(e))
      case Annotation(_) => None
      case Element(e) => Some(Particle.Element(e))
      case Group(e) => Some(Particle.Group(e))
      case Sequence(e) => Some(Particle.Sequence(e))
      case Choice(e) => Some(Particle.Choice(e))
    }
  }

  /** An `all` compositor: element, wildcard and group particles in any order. */
  datatype All = All(id: Option<ID>, minOccurs: Option<U32>, maxOccurs: Option<U32>, body: seq<AllBody>)
  {
    /** The annotation child, if there is exactly one. */
    method Annotation() returns (r: Option<Annotation>)
      ensures r == Singleton(body, AllBody.AnnotationOf)
    {
      r := ElementFromBody(body, AllBody.AnnotationOf);
    }

    /** Every child but the annotations, as a particle, in order. */
    method Items() returns (particles: seq<Particle>)
      ensures particles == Project(body, AllBody.ParticleOf)
    {
      particles := [];
      for i := 0 to |body|
        invariant particles == Project(body[..i], AllBody.ParticleOf)
      {
        assert body[..i + 1][..i] == body[..i];
        match body[i] {
          case Annotation(_) =>
          case Element(e) => particles := particles + [Particle.Element(e)];
          case Any(e) => particles := particles + [Particle.Any(e)];
          case Group(e) => particles := particles + [Particle.Group(e)];
        }
      }
      assert body[..|body|] == body;
    }
  }

  datatype AllBody = Annotation(Annotation) | Element(Element) | Any(Any) | Group(Group)
  {
    static function AnnotationOf(b: AllBody): Option<Annotation>
    {
      match b
      case Annotation(a) => Some(a)
      case _ => None
    }

    /** The particle a child stands for; an annotation stands for none. */
    static function ParticleOf(b: AllBody): (r: Option<Particle>)
      ensures r.None? <==> b.Annotation?
      ensures r.Some? ==> && (r.value.Any? <==> b.Any?) && (r.value.Element? <==> b.Element?)
                          && (r.value.Group? <==> b.Group?) && !r.value.Sequence? && !r.value.Choice?
    {
      match b
      case Annotation(_) => None
      case Element(e) => Some(Particle.Element(e))
      case Any(e) => Some(Particle.Any(e))
      case Group(e) => Some(Particle.Group(e))
    }
  }

  /** A `group` definition or reference. It has no accessors. */
  datatype Group = Group(id: Option<ID>, name: Option<NCName>, ref: Option<QName>, minOccurs: Option<U32>,
                         maxOccurs: Option<MaxOccurs>, body: seq<GroupBody>)

  datatype GroupBody = All(All) | Annotation(Annotation) | Assert(Assert) | Choice(Choice) | Sequence(Sequence)

  /** A `choice` compositor: exactly one of its particles is used. */
  datatype Choice = Choice(id: Option<ID>, minOccurs: Option<U32>, maxOccurs: Option<MaxOccurs>,
                           body: seq<ChoiceBody>)
  {
    /** The annotation child, if there is exactly one. */
    method Annotation() returns (r: Option<Annotation>)
      ensures r == Singleton(body, ChoiceBody.AnnotationOf)
    {
      r := ElementFromBody(body, ChoiceBody.AnnotationOf);
    }

    /** Every child but the annotations, as a particle, in order. */
    method Items() returns (particles: seq<Particle>)
      ensures particles == Project(body, ChoiceBody.ParticleOf)
    {
      particles := [];
      for i := 0 to |body|
        invariant particles == Project(body[..i], ChoiceBody.ParticleOf)
      {
        assert body[..i + 1][..i] == body[..i];
        match body[i] {
          case Any(e) => particles := particles + [Particle.Any(e)];
          case Annotation(_) =>
          case Element(e) => particles := particles + [Particle.Element(e)];
          case Group(e) => particles := particles + [Particle.Group(e)];
          case Sequence(e) => particles := particles + [Particle.Sequence(e)];
          case Choice(e) => particles := particles + [Particle.Choice(e)];
        }
      }
      assert body[..|body|] == body;
    }
  }

  datatype ChoiceBody =
    | Any(Any)
    | Annotation(Annotation)
    | Element(Element)
    | Group(Group)
    | Choice(Choice)
    | Sequence(Sequence)
  {
    static function AnnotationOf(b: ChoiceBody): Option<Annotation>
    {
      match b
      case Annotation(a) => Some(a)
      case _ => None
    }

    /** The particle a child stands for; an annotation stands for none. */
    static function ParticleOf(b: ChoiceBody): (r: Option<Particle>)
      ensures r.None? <==> b.Annotation?
      ensures r.Some? ==> && (r.value.Any? <==> b.Any?) && (r.value.Element? <==> b.Element?)
                          && (r.value.Group? <==> b.Group?) && (r.value.Sequence? <==> b.Sequence?)
                          && (r.value.Choice? <==> b.Choice?)
    {
      match b
      case Any(e) => Some(Particle.Any(e))
      case Annotation(_) => None
      case Element(e) => Some(Particle.Element(e))
      case Group(e) => Some(Particle.Group(e))
      case Choice(e) => Some(Particle.Choice(e))
      case Sequence(e) => Some(Particle.Sequence(e))
    }
  }

  /** An `any` element wildcard. Its annotation is stored directly. */
  datatype Any = Any(id: Option<ID>, namespace: Option<string>, notNamespace: Option<string>,
                     notQName: Option<string>, processContents: Option<ProcessContents>,
                     minOccurs: Option<U32>, maxOccurs: Option<MaxOccurs>, body: Option<Annotation>)
  {
    /** The wildcard's annotation, if it was declared with one. */
    function Annotation(): (r: Option<Annotation>)
      ensures Any.Any(id, namespace, notNamespace, notQName, processContents, minOccurs, maxOccurs, r) == this
    {
      body
    }
  }

  /** An `element` declaration or reference. It has no accessors. */
  datatype Element = Element(id: Option<ID>, name: Option<NCName>, nillable: Option<bool>,
                             default: Option<string>, final: Option<Final>, block: Option<seq<Block>>,
                             fixed: Option<string>, form: Option<FormChoice>, isAbstract: Option<bool>,
                             typeName: Option<QName>, substitutionGroup: Option<QName>,
                             minOccurs: Option<U32>, maxOccurs: Option<MaxOccurs>, ref: Option<QName>,
                             body: seq<ElementBody>)

  datatype ElementBody =
    | Annotation(Annotation)
    | SimpleType(SimpleType)
    | ComplexType(ComplexType)
    | Unique(Unique)
    | Key(Key)
    | Keyref(Keyref)
    | Alternative
}
