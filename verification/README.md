# XML Schema AST query layer, in Dafny

This project models the read-only query layer of a typed abstract syntax
tree for W3C XML Schema (XSD 1.1) documents, and proves what that layer
returns.

Every container node of the tree (the schema root, simple and complex
types, restrictions, extensions, compositors, identity constraints, ...)
keeps its children in `body`: an ordered sequence of tagged variants. The
accessors turn that sequence into the views callers use:

- **Singleton extraction** (`Body.ElementFromBody`, specified by
  `Body.Singleton`). It collects every child of one kind, pops the last
  one, and returns it only if nothing is left. So it finds a child exactly
  when there is one child of that kind. No child, or two or more, both give
  `None`.
- **Multi extraction** (`Body.ElementsFromBody`, specified by
  `Body.Project`). It returns every child of one kind, in body order.
- **`SimpleType.Content`**: the first restriction, union or list child,
  after any annotations. It fails with a fixed message when there is none.
- **`Restriction.Facets`**: the facet children, mapped in order into the
  unified `Facet` view. Every other child is skipped.
- **`Sequence.Items`, `All.Items` and `Choice.Items`**: the non-annotation
  children, mapped in order into `Particle`. A nested compositor becomes
  one particle wrapping the nested node.

Modules:

- `Wrappers`: `Option` and `Result`.
- `Basics`: the string aliases and `U32`, the unsigned 32-bit range.
- `Annotations`: `annotation`, `appinfo` and `documentation`.
- `Body`: the generic extraction loops and their specification functions
  `Project`, `Count` and `Singleton`, with the lemmas about them.
- `Facets`: the facet nodes and `Facet`.
- `Ast`: every other node type, with their accessors. These types are
  mutually recursive, so they share one module.
- `Schemas`: the schema root and its top-level children.
- `FacetViews`, `ParticleViews` and `TypeViews`: properties of the facet
  view, the particle views and the complex type accessors.

An extractor is a static function of a body type, such as
`ComplexTypeBody.SequenceOf`. It gives the payload of a child of the
requested kind and `None` for any other child. This plays the part of the
`if let Body::Variant(e)` test in the two extraction macros. Each accessor
is a method whose `ensures` ties its result to `Singleton` or `Project`
over its own body and extractor. Every property of those two functions
proved in `Body` therefore holds for every accessor.

In three places the system's design description and its code disagree.
The model follows the code each time:

- **Mutual exclusion.** The description says the query layer enforces,
  at read time, that a complex type holds only one content model. The code
  does not: each singleton accessor looks at one kind of child only
  (`TypeViews.SequenceAndChoiceCoexist`).
- **Order of `all` children.** The description calls them unordered.
  `All.Items` keeps body order, like the other two compositors.
- **`maxOccurs`.** The description says the "unbounded" keyword is
  recognised literally. The code decodes `MaxOccurs` as an untagged union
  of a number and any string, with no keyword check (see "## Left out").

## Model

| member | source | states |
|---|---|---|
| Body.Project | src/lib.rs:38-48 | the payloads of the selected entries in body order; never longer than the body |
| Body.ElementsFromBody | src/lib.rs:38-48 | the push loop returns exactly `Project` of the body: every selected payload, in order |
| Body.ElementFromBody | src/lib.rs:21-35 | the push-then-pop loop returns exactly `Singleton`: the payload when one entry is selected, otherwise nothing |
| Body.ProjectLength | src/lib.rs:38-48 | the extracted list has one payload per selected entry (length equals the independent front-to-back count) |
| Body.ProjectAt | src/lib.rs:38-48 | order, entry to payload: a selected entry's payload stands at the index given by the number of selected entries before it |
| Body.ProjectFrom | src/lib.rs:38-48 | order, payload to entry: the k-th payload is that of a selected entry with exactly k selected entries before it |
| Body.ProjectNone | src/lib.rs:38-48 | no selected entry gives the empty list |
| Body.ProjectAppend | src/lib.rs:38-48 | extracting from two concatenated bodies concatenates the extractions |
| Body.SingletonIffOne | src/lib.rs:21-35 | singleton extraction finds something if and only if exactly one entry is selected |
| Body.SingletonExactlyOne | src/lib.rs:21-35 | when exactly one entry is selected, its payload is returned |
| Body.SingletonAbsent | src/lib.rs:21-35 | no selected entry gives `None` |
| Body.SingletonAmbiguous | src/lib.rs:21-35 | two selected entries give `None`, the same as none |
| Body.SingletonFound | src/lib.rs:21-35 | a returned value is the payload of the one selected entry, and every other entry is unselected |
| Body.CountTwo | src/lib.rs:28-33 | two distinct selected entries make at least two matches, so the pop leaves a remainder |
| Facets.Enumeration.Annotation | src/facets.rs:83-85 | returns the stored optional annotation unchanged: rebuilding the node with it gives the node back |
| Facets.Pattern.Annotation | src/facets.rs:214-216 | returns the stored optional annotation unchanged |
| Facets.Digits.Annotation | src/facets.rs:293-295 | returns the stored optional annotation unchanged |
| Facets.Length.Annotation | src/facets.rs:379-381 | returns the stored optional annotation unchanged |
| Facets.BoundaryFacet.Annotation | src/facets.rs:463-465 | returns the stored optional annotation unchanged |
| Facets.Assertion.Annotation | src/facets.rs:536-538 | returns the stored optional annotation unchanged |
| Facets.ExplicitTimezone.Annotation | src/facets.rs:604-606 | returns the stored optional annotation unchanged |
| Facets.ExplicitTimezone.FixedFromAttribute | src/facets.rs:574-575 | `fixed` is true exactly when the attribute is present and true; an absent attribute reads as false |
| Ast.Attribute.Annotation | src/lib.rs:783-785 | singleton extraction of the annotation children |
| Ast.Attribute.SimpleType | src/lib.rs:795-797 | singleton extraction of the simple type children |
| Ast.AnyAttribute.Annotation | src/lib.rs:1408-1410 | returns the stored optional annotation unchanged |
| Ast.DefaultOpenContent.Annotations | src/lib.rs:881-883 | singleton extraction of the annotation children (a single value despite the plural name) |
| Ast.DefaultOpenContent.Any | src/lib.rs:894-896 | singleton extraction of the `any` children |
| Ast.OpenContent.Annotations | src/lib.rs:1804-1806 | singleton extraction of the annotation children |
| Ast.OpenContent.Any | src/lib.rs:1817-1819 | singleton extraction of the `any` children |
| Ast.SimpleType.Annotation | src/lib.rs:986-988 | singleton extraction of the annotation children |
| Ast.SimpleType.Content | src/lib.rs:1008-1019 | fails if and only if every child is an annotation, with the fixed "no valid content" message; otherwise returns the content of a child preceded only by annotations, i.e. the first non-annotation child, so later content children are ignored |
| Ast.Union.Annotation | src/lib.rs:1082-1084 | singleton extraction of the annotation children |
| Ast.Union.SimpleTypes | src/lib.rs:1094-1096 | multi extraction of the member simple types, in order |
| Ast.List.Annotation | src/lib.rs:1163-1165 | singleton extraction of the annotation children |
| Ast.List.SimpleTypes | src/lib.rs:1175-1177 | multi extraction of the item simple types, in order |
| Ast.Restriction.Annotation | src/lib.rs:1241-1243 | singleton extraction of the annotation children |
| Ast.Restriction.SimpleType | src/lib.rs:1255-1257 | singleton extraction of the base simple type children |
| Ast.Restriction.Asserts | src/lib.rs:1270-1272 | multi extraction of the `assert` children, in order |
| Ast.Restriction.Facets | src/lib.rs:1286-1317 | the 24-way loop returns exactly the facet view: one facet per facet-bearing child, in body order |
| Ast.RestrictionBody.FacetOf | src/lib.rs:1286-1317 | as written: a child contributes a facet if and only if it is one of the 14 facet kinds; it is skipped if and only if it is an annotation, simple type, anyAttribute, sequence, attribute, attributeGroup, group, all, choice or assert |
| Ast.RestrictionBody.IntendedFacetOf | src/lib.rs:1286-1317 | corrected: the same children contribute facets, and each facet's name equals the child's element name |
| Ast.ComplexType.Annotation | src/lib.rs:1507-1509 | singleton extraction of the annotation children |
| Ast.ComplexType.All | src/lib.rs:1529-1531 | singleton extraction of the `all` children |
| Ast.ComplexType.Asserts | src/lib.rs:1549-1551 | multi extraction of the `assert` children, in order |
| Ast.ComplexType.Sequence | src/lib.rs:1571-1573 | singleton extraction of the `sequence` children |
| Ast.ComplexType.Attributes | src/lib.rs:1591-1593 | multi extraction of the attribute children, in order |
| Ast.ComplexType.AttributeGroups | src/lib.rs:1610-1612 | multi extraction of the attribute group children, in order |
| Ast.ComplexType.AnyAttribute | src/lib.rs:1632-1634 | singleton extraction of the `anyAttribute` children |
| Ast.ComplexType.Group | src/lib.rs:1652-1654 | singleton extraction of the `group` children |
| Ast.ComplexType.ComplexContent | src/lib.rs:1674-1676 | singleton extraction of the `complexContent` children |
| Ast.ComplexType.SimpleContent | src/lib.rs:1696-1698 | singleton extraction of the `simpleContent` children |
| Ast.ComplexType.Choice | src/lib.rs:1717-1719 | singleton extraction of the `choice` children |
| Ast.SimpleContent.Annotation | src/lib.rs:1853-1855 | singleton extraction of the annotation children |
| Ast.ComplexContent.Annotation | src/lib.rs:1896-1898 | singleton extraction of the annotation children |
| Ast.Extension.Annotation | src/lib.rs:2003-2005 | singleton extraction of the annotation children |
| Ast.Extension.OpenContent | src/lib.rs:2007-2009 | singleton extraction of the `openContent` children |
| Ast.Extension.Asserts | src/lib.rs:2011-2013 | multi extraction of the `assert` children, in order |
| Ast.Unique.Annotation | src/lib.rs:2119-2121 | singleton extraction of the annotation children |
| Ast.Selector.Annotation | src/lib.rs:2188-2190 | returns the stored optional annotation unchanged |
| Ast.Field.Annotation | src/lib.rs:2293-2295 | returns the stored optional annotation unchanged |
| Ast.SequenceBody.ParticleOf | src/particles.rs:96-109 | an annotation gives no particle; every other child gives a particle of its own kind |
| Ast.Sequence.Annotation | src/particles.rs:82-84 | singleton extraction of the annotation children: `None` for zero or several |
| Ast.Sequence.Items | src/particles.rs:96-109 | the push loop returns exactly the particle view of the body |
| Ast.AllBody.ParticleOf | src/particles.rs:182-193 | an annotation gives no particle; an element, wildcard or group gives a particle of the same kind, never a sequence or choice |
| Ast.All.Annotation | src/particles.rs:168-170 | singleton extraction of the annotation children |
| Ast.All.Items | src/particles.rs:182-193 | the push loop returns exactly the particle view of the body |
| Ast.ChoiceBody.ParticleOf | src/particles.rs:295-308 | an annotation gives no particle; every other child gives a particle of its own kind |
| Ast.Choice.Annotation | src/particles.rs:281-283 | singleton extraction of the annotation children |
| Ast.Choice.Items | src/particles.rs:295-308 | the push loop returns exactly the particle view of the body |
| Ast.Any.Annotation | src/particles.rs:400-402 | returns the stored optional annotation unchanged |
| Schemas.Schema.Elements | src/lib.rs:196-205 | its own push loop returns exactly the element declarations in body order, unboxed |
| Schemas.Schema.SimpleTypes | src/lib.rs:223-225 | multi extraction of the top-level simple types |
| Schemas.Schema.ComplexTypes | src/lib.rs:243-245 | multi extraction of the top-level complex types |
| Schemas.Schema.Annotations | src/lib.rs:267-269 | multi extraction of the top-level annotations |
| Schemas.Schema.Includes | src/lib.rs:289-291 | multi extraction of the `include` children |
| Schemas.Schema.Imports | src/lib.rs:312-314 | multi extraction of the `import` children |
| Schemas.Schema.Redefines | src/lib.rs:336-338 | multi extraction of the `redefine` children |
| Schemas.Schema.Groups | src/lib.rs:360-362 | multi extraction of the top-level groups |
| Schemas.Schema.AttributeGroups | src/lib.rs:384-386 | multi extraction of the top-level attribute groups |
| Schemas.Schema.Attributes | src/lib.rs:409-411 | multi extraction of the top-level attributes |
| Schemas.Schema.Notations | src/lib.rs:439-441 | multi extraction of the `notation` children |
| Schemas.Schema.DefaultOpenContents | src/lib.rs:470-472 | multi extraction of the `defaultOpenContent` children |
| FacetViews.FacetCount | src/lib.rs:1286-1317 | the facet view's length is the number of facet-bearing children |
| FacetViews.FacetOfChild | src/lib.rs:1286-1317 | order: a facet-bearing child's facet stands at the index given by the number of facet-bearing children before it |
| FacetViews.ChildOfFacet | src/lib.rs:1286-1317 | order: the k-th facet comes from the k-th facet-bearing child; nothing else reaches the view |
| FacetViews.NoFacets | src/lib.rs:1286-1317 | a body with no facet-bearing child has an empty facet view |
| FacetViews.NoMinInclusive | src/lib.rs:1296 | no body's facet view contains a `MinInclusive` facet |
| FacetViews.MinInclusiveReadAsMinExclusive | src/lib.rs:1296 | a `minInclusive` child yields `MinExclusive` wrapping the same node, at its ordered position, under a name that differs from the child's |
| FacetViews.MinInclusiveCounterexample | src/lib.rs:1296 | `<minInclusive value="0"/>` alone is reported as `MinExclusive`; the corrected view reports `MinInclusive` |
| FacetViews.IntendedFacetsKeepNames | src/lib.rs:1286-1317 | corrected view: the k-th facet is named like the k-th facet-bearing child |
| FacetViews.IntendedFacetCount | src/lib.rs:1286-1317 | the corrected view has the same length as the written one |
| FacetViews.FacetsCorrectWithoutMinInclusive | src/lib.rs:1286-1317 | with no `minInclusive` child the written and corrected views coincide |
| FacetViews.AssertionsAndAssertsDisjoint | src/lib.rs:1270-1317 | `assertion` children reach only `Facets`, `assert` children only `Asserts`; together the two views never exceed the body |
| FacetViews.PatternAnnotationEnumeration | src/lib.rs:1286-1317 | pattern, annotation, enumeration gives exactly the pattern facet followed by the enumeration facet |
| ParticleViews.SequenceItemsCount | src/particles.rs:96-109 | one particle per non-annotation child |
| ParticleViews.SequenceItemAt | src/particles.rs:96-109 | the child at i, if not an annotation, gives the particle at i minus the annotations before it, of the same kind and wrapping the same node |
| ParticleViews.SequenceItemFrom | src/particles.rs:96-109 | the k-th particle comes from the k-th non-annotation child |
| ParticleViews.SequenceItemsEmpty | src/particles.rs:96-109 | only annotations (or nothing) give no particles |
| ParticleViews.SequenceNestedIsOneParticle | src/particles.rs:104-105 | a nested sequence is one particle wrapping the nested node, not its children |
| ParticleViews.ChoiceItemsCount | src/particles.rs:295-308 | one particle per non-annotation child |
| ParticleViews.ChoiceItemAt | src/particles.rs:295-308 | the child at i, if not an annotation, gives the particle at i minus the annotations before it, of the same kind and wrapping the same node |
| ParticleViews.ChoiceItemFrom | src/particles.rs:295-308 | the k-th particle comes from the k-th non-annotation child |
| ParticleViews.ChoiceItemsEmpty | src/particles.rs:295-308 | only annotations (or nothing) give no particles |
| ParticleViews.ChoiceNestedIsOneParticle | src/particles.rs:303-304 | a nested choice is one particle wrapping the nested node, followed by the next child's particle |
| ParticleViews.AllItemsCount | src/particles.rs:182-193 | one particle per non-annotation child |
| ParticleViews.AllItemAt | src/particles.rs:182-193 | the child at i, if not an annotation, gives the particle at i minus the annotations before it, of the same kind and wrapping the same node |
| ParticleViews.AllItemsKinds | src/particles.rs:182-204 | every particle of an `all` is an element, wildcard or group, never a sequence or choice |
| ParticleViews.AllItemsEmpty | src/particles.rs:182-193 | only annotations (or nothing) give no particles |
| TypeViews.SequenceAndChoiceCoexist | src/lib.rs:1571-1573 | the accessors do not enforce one content model: one sequence and one choice child make both `Sequence` and `Choice` return their node |
| TypeViews.RepeatedSequenceHidesBoth | src/lib.rs:1571-1573 | two sequence children make `Sequence` return nothing while `Choice` still returns its node |

## Left out

- Parsing a schema from a reader (src/lib.rs:176-179) is left out. It is I/O through an XML deserializer followed by a panic on error. Bodies are modelled as already-built sequences.
- The deserializer's derive machinery is left out: element and attribute renaming, rejection of unknown children, and default empty bodies. Binding a child's tag to its variant happens inside that library. The model starts from the variants.
- `MaxOccurs` is a datatype only. Which case an untagged decode picks is up to the deserializer, and the code has no check for the keyword "unbounded".
- The aliases of src/basics.rs (`ID`, `NCName`, `QName`, `AnyURI`, `Token`) are plain strings, with no lexical validation, as in the source.
- Unsigned 32-bit fields (`minOccurs`, the `value` of `Length` and `Digits`) use the subset type `U32`. Rejecting out-of-range text is the deserializer's job.
- Accessors in the source return references into the tree. The model returns the node values: it does not distinguish sharing from copying, and no accessor mutates anything.
- The end-to-end counts over a real schema file (tests/mod.rs:15-26) are left out. They depend on an input file and the real parser.
- `Debug` output, documentation attributes and the derived `Default` of `Schema` are left out.
- `Key`, `Keyref`, `Group`, `GroupBody`, `Element`, `ElementBody`, `AttributeGroup`, `Redefine`, `Notation`, `Documentation`, `AppInfo` and `WhiteSpace` have no accessors in the source. They are datatypes only. The source gives `WhiteSpace` no `annotation()`.
- `Ast.Restriction.Facets` follows the code as written, including the `minInclusive` defect under "## Findings". The corrected mapping is `Ast.RestrictionBody.IntendedFacetOf` and its view, `FacetViews.IntendedFacetView`.

## Findings

| source | as written | input that shows it | evidently intended | confidence | as-written member | corrected member |
|---|---|---|---|---|---|---|
| src/lib.rs:1296 | a `minInclusive` restriction child is pushed into the facet view as `Facet::MinExclusive` | a restriction whose only child is `<minInclusive value="0"/>`: the view reports an exclusive lower bound of 0, and no body ever yields `Facet::MinInclusive` | `Facet::MinInclusive` wrapping the same node, as for the other 13 facet kinds | high; not executed | FacetViews.MinInclusiveReadAsMinExclusive, FacetViews.MinInclusiveCounterexample, FacetViews.NoMinInclusive | Ast.RestrictionBody.IntendedFacetOf, FacetViews.IntendedFacetsKeepNames |
