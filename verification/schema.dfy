/**
 * The schema root: its attributes, its top-level children and the
 * accessors that list the top-level children of one kind.
 */
module Schemas {
  import opened Wrappers
  import opened Basics
  import opened Annotations
  import opened Body
  import opened Ast

  /** An `xs:schema` document root. */
  datatype Schema = Schema(id: Option<ID>, xmlns: Option<string>,
                           attributeFormDefault: Option<FormChoice>, elementFormDefault: Option<FormChoice>,
                           blockDefault: Option<Block>, finalDefault: Option<seq<Final>>,
                           targetNamespace: AnyURI, version: Option<Token>,
                           defaultAttributes: Option<string>, xpathDefaultNamespace: Option<AnyURI>,
                           minVersion: Option<string>, xmlLang: Option<string>,
                           body: seq<SchemaBody>)
  {
    /** The top-level element declarations, in document order. */
    method Elements() returns (elements: seq<Element>)
      ensures elements == Project(body, SchemaBody.ElementOf)
    {
      elements := [];
      for i := 0 to |body|
        invariant elements == Project(body[..i], SchemaBody.ElementOf)
      {
        assert body[..i + 1][..i] == body[..i];
        if body[i].Element? {
          elements := elements + [body[i].element];
        }
      }
      assert body[..|body|] == body;
    }

    /** The top-level simple type definitions, in document order. */
    method SimpleTypes() returns (r: seq<SimpleType>)
      ensures r == Project(body, SchemaBody.SimpleTypeOf)
    {
      r := ElementsFromBody(body, SchemaBody.SimpleTypeOf);
    }

    /** The top-level complex type definitions, in document order. */
    method ComplexTypes() returns (r: seq<ComplexType>)
      ensures r == Project(body, SchemaBody.ComplexTypeOf)
    {
      r := ElementsFromBody(body, SchemaBody.ComplexTypeOf);
    }

    /** The top-level annotations, in document order. */
    method Annotations() returns (r: seq<Annotation>)
      ensures r == Project(body, SchemaBody.AnnotationOf)
    {
      r := ElementsFromBody(body, SchemaBody.AnnotationOf);
    }

    /** The `include` children, in document order. */
    method Includes() returns (r: seq<Include>)
      ensures r == Project(body, SchemaBody.IncludeOf)
    {
      r := ElementsFromBody(body, SchemaBody.IncludeOf);
    }

    /** The `import` children, in document order. */
    method Imports() returns (r: seq<Import>)
      ensures r == Project(body, SchemaBody.ImportOf)
    {
      r := ElementsFromBody(body, SchemaBody.ImportOf);
    }

    /** The `redefine` children, in document order. */
    method Redefines() returns (r: seq<Redefine>)
      ensures r == Project(body, SchemaBody.RedefineOf)
    {
      r := ElementsFromBody(body, SchemaBody.RedefineOf);
    }

    /** The top-level model group definitions, in document order. */
    method Groups() returns (r: seq<Group>)
      ensures r == Project(body, SchemaBody.GroupOf)
    {
      r := ElementsFromBody(body, SchemaBody.GroupOf);
    }

    /** The top-level attribute group definitions, in document order. */
    method AttributeGroups() returns (r: seq<AttributeGroup>)
      ensures r == Project(body, SchemaBody.AttributeGroupOf)
    {
      r := ElementsFromBody(body, SchemaBody.AttributeGroupOf);
    }

    /** The top-level attribute declarations, in document order. */
    method Attributes() returns (r: seq<Attribute>)
      ensures r == Project(body, SchemaBody.AttributeOf)
    {
      r := ElementsFromBody(body, SchemaBody.AttributeOf);
    }

    /** The `notation` declarations, in document order. */
    method Notations() returns (r: seq<Notation>)
      ensures r == Project(body, SchemaBody.NotationOf)
    {
      r := ElementsFromBody(body, SchemaBody.NotationOf);
    }

    /** The `defaultOpenContent` children, in document order. */
    method DefaultOpenContents() returns (r: seq<DefaultOpenContent>)
      ensures r == Project(body, SchemaBody.DefaultOpenContentOf)
    {
      r := ElementsFromBody(body, SchemaBody.DefaultOpenContentOf);
    }
  }

  /** A top-level child of the schema. An `override` carries no content. */
  datatype SchemaBody =
    | Include(Include)
    | Import(Import)
    | Override
    | Redefine(Redefine)
    | Annotation(Annotation)
    | DefaultOpenContent(DefaultOpenContent)
    | SimpleType(SimpleType)
    | ComplexType(ComplexType)
    | Group(Group)
    | AttributeGroup(AttributeGroup)
    | Element(element: Element)
    | Attribute(Attribute)
    | Notation(Notation)
  {
    static function ElementOf(b: SchemaBody): Option<Element>
    {
      match b
      case Element(x) => Some(x)
      case _ => None
    }

    static function SimpleTypeOf(b: SchemaBody): Option<SimpleType>
    {
      match b
      case SimpleType(x) => Some(x)
      case _ => None
    }

    static function ComplexTypeOf(b: SchemaBody): Option<ComplexType>
    {
      match b
      case ComplexType(x) => Some(x)
      case _ => None
    }

    static function AnnotationOf(b: SchemaBody): Option<Annotation>
    {
      match b
      case Annotation(x) => Some(x)
      case _ => None
    }

    static function IncludeOf(b: SchemaBody): Option<Include>
    {
      match b
      case Include(x) => Some(x)
      case _ => None
    }

    static function ImportOf(b: SchemaBody): Option<Import>
    {
      match b
      case Import(x) => Some(x)
      case _ => None
    }

    static function RedefineOf(b: SchemaBody): Option<Redefine>
    {
      match b
      case Redefine(x) => Some(x)
      case _ => None
    }

    static function GroupOf(b: SchemaBody): Option<Group>
    {
      match b
      case Group(x) => Some(x)
      case _ => None
    }

    static function AttributeGroupOf(b: SchemaBody): Option<AttributeGroup>
    {
      match b
      case AttributeGroup(x) => Some(x)
      case _ => None
    }

    static function AttributeOf(b: SchemaBody): Option<Attribute>
    {
      match b
      case Attribute(x) => Some(x)
      case _ => None
    }

    static function NotationOf(b: SchemaBody): Option<Notation>
    {
      match b
      case Notation(x) => Some(x)
      case _ => None
    }

    static function DefaultOpenContentOf(b: SchemaBody): Option<DefaultOpenContent>
    {
      match b
      case DefaultOpenContent(x) => Some(x)
      case _ => None
    }
  }

  /** An `include` of a schema document of the same target namespace. */
  datatype Include = Include(id: Option<ID>, schemaLocation: AnyURI, annotations: seq<Annotation>)

  /** An `import` of a schema document of another namespace. */
  datatype Import = Import(id: Option<ID>, namespace: Option<AnyURI>, schemaLocation: AnyURI,
                           annotations: seq<Annotation>)

  /** A `redefine` of components of an included schema document. It has no accessors. */
  datatype Redefine = Redefine(id: Option<ID>, schemaLocation: AnyURI, body: seq<RedefineBody>)

  datatype RedefineBody =
    | Annotation(Annotation)
    | SimpleType(SimpleType)
    | ComplexType(ComplexType)
    | Group(Group)
    | AttributeGroup(AttributeGroup)

  /** A `notation` declaration. */
  datatype Notation = Notation(id: Option<ID>, name: string, public: string, system: Option<string>)
}
