/**
 * Properties of the facet view of a restriction: which children it keeps,
 * in which order, how `minInclusive` children come out of it, and how it
 * relates to the `assert` view.
 */
module FacetViews {
  import opened Wrappers
  import opened Annotations
  import opened Facets
  import opened Body
  import opened Ast

  /** The facet view of a restriction body, as `Restriction.Facets` computes it. */
  function FacetView(body: seq<RestrictionBody>): seq<Facet>
  {
    Project(body, RestrictionBody.FacetOf)
  }

  /** The facet view with every facet named after the child it comes from. */
  function IntendedFacetView(body: seq<RestrictionBody>): seq<Facet>
  {
    Project(body, RestrictionBody.IntendedFacetOf)
  }

  /** The view holds one facet per facet-bearing child. */
  lemma FacetCount(body: seq<RestrictionBody>)
    ensures |FacetView(body)| == CountWhere(body, RestrictionBody.IsFacetChild)
  {
    ProjectLength(body, RestrictionBody.FacetOf);
    CountAsCountWhere(body, RestrictionBody.FacetOf, RestrictionBody.IsFacetChild);
  }

  /**
   * Order, child to facet: a facet-bearing child's facet stands at the
   * position given by the number of facet-bearing children before it.
   */
  lemma FacetOfChild(body: seq<RestrictionBody>, i: nat)
    requires i < |body| && RestrictionBody.IsFacetChild(body[i])
    ensures CountWhere(body[..i], RestrictionBody.IsFacetChild) < |FacetView(body)|
    ensures FacetView(body)[CountWhere(body[..i], RestrictionBody.IsFacetChild)]
            == RestrictionBody.FacetOf(body[i]).value
  {
    ProjectAt(body, RestrictionBody.FacetOf, i);
    CountAsCountWhere(body[..i], RestrictionBody.FacetOf, RestrictionBody.IsFacetChild);
  }

  /**
   * Order, facet to child: the k-th facet is the facet of the k-th
   * facet-bearing child; nothing else reaches the view.
   */
  lemma ChildOfFacet(body: seq<RestrictionBody>, k: nat)
    requires k < |FacetView(body)|
    ensures exists i :: 0 <= i < |body| && RestrictionBody.IsFacetChild(body[i])
                        && CountWhere(body[..i], RestrictionBody.IsFacetChild) == k
                        && FacetView(body)[k] == RestrictionBody.FacetOf(body[i]).value
  {
    ProjectFrom(body, RestrictionBody.FacetOf, k);
    var i :| 0 <= i < |body| && RestrictionBody.FacetOf(body[i]).Some?
              && Count(body[..i], RestrictionBody.FacetOf) == k
              && FacetView(body)[k] == RestrictionBody.FacetOf(body[i]).value;
    CountAsCountWhere(body[..i], RestrictionBody.FacetOf, RestrictionBody.IsFacetChild);
  }

  /** A body with no facet-bearing child has an empty facet view. */
  lemma NoFacets(body: seq<RestrictionBody>)
    requires forall i :: 0 <= i < |body| ==> !RestrictionBody.IsFacetChild(body[i])
    ensures FacetView(body) == []
  {
    ProjectNone(body, RestrictionBody.FacetOf);
  }

  /** The facet view never holds a `MinInclusive` facet, whatever the body. */
  lemma NoMinInclusive(body: seq<RestrictionBody>)
    ensures forall k :: 0 <= k < |FacetView(body)| ==> !FacetView(body)[k].MinInclusive?
  {
    forall k | 0 <= k < |FacetView(body)|
      ensures !FacetView(body)[k].MinInclusive?
    {
      ChildOfFacet(body, k);
    }
  }

  /**
   * A `minInclusive` child comes out as a `MinExclusive` facet wrapping the
   * same node, so the facet's name differs from the child's element name.
   */
  lemma MinInclusiveReadAsMinExclusive(body: seq<RestrictionBody>, i: nat, x: BoundaryFacet)
    requires i < |body| && body[i] == RestrictionBody.MinInclusive(x)
    ensures CountWhere(body[..i], RestrictionBody.IsFacetChild) < |FacetView(body)|
    ensures FacetView(body)[CountWhere(body[..i], RestrictionBody.IsFacetChild)] == Facet.MinExclusive(x)
    ensures FacetView(body)[CountWhere(body[..i], RestrictionBody.IsFacetChild)].Name() != body[i].Tag()
  {
    FacetOfChild(body, i);
  }

  /**
   * A one-child restriction `<minInclusive value="0"/>` is reported as an
   * exclusive lower bound of 0: the value 0 itself would be excluded.
   */
  lemma MinInclusiveCounterexample()
    ensures var x := BoundaryFacet.BoundaryFacet(None, None, "0", None);
            FacetView([RestrictionBody.MinInclusive(x)]) == [Facet.MinExclusive(x)]
            && IntendedFacetView([RestrictionBody.MinInclusive(x)]) == [Facet.MinInclusive(x)]
  {
    var x := BoundaryFacet.BoundaryFacet(None, None, "0", None);
    ProjectSingle(RestrictionBody.MinInclusive(x), RestrictionBody.FacetOf);
    ProjectSingle(RestrictionBody.MinInclusive(x), RestrictionBody.IntendedFacetOf);
  }

  /**
   * The corrected view names every facet after its child: the k-th facet
   * carries the element name of the k-th facet-bearing child.
   */
  lemma IntendedFacetsKeepNames(body: seq<RestrictionBody>, k: nat)
    requires k < |IntendedFacetView(body)|
    ensures exists i :: 0 <= i < |body| && RestrictionBody.IsFacetChild(body[i])
                        && CountWhere(body[..i], RestrictionBody.IsFacetChild) == k
                        && IntendedFacetView(body)[k].Name() == body[i].Tag()
  {
    ProjectFrom(body, RestrictionBody.IntendedFacetOf, k);
    var i :| 0 <= i < |body| && RestrictionBody.IntendedFacetOf(body[i]).Some?
              && Count(body[..i], RestrictionBody.IntendedFacetOf) == k
              && IntendedFacetView(body)[k] == RestrictionBody.IntendedFacetOf(body[i]).value;
    CountAsCountWhere(body[..i], RestrictionBody.IntendedFacetOf, RestrictionBody.IsFacetChild);
  }

  /** The two views have the same length: the correction only renames. */
  lemma IntendedFacetCount(body: seq<RestrictionBody>)
    ensures |IntendedFacetView(body)| == |FacetView(body)|
  {
    ProjectLength(body, RestrictionBody.IntendedFacetOf);
    CountAsCountWhere(body, RestrictionBody.IntendedFacetOf, RestrictionBody.IsFacetChild);
    FacetCount(body);
  }

  /** Without a `minInclusive` child the written view is already the corrected one. */
  lemma FacetsCorrectWithoutMinInclusive(body: seq<RestrictionBody>)
    requires forall i :: 0 <= i < |body| ==> !body[i].MinInclusive?
    ensures FacetView(body) == IntendedFacetView(body)
  {
    ProjectCongruent(body, RestrictionBody.FacetOf, RestrictionBody.IntendedFacetOf);
  }

  /**
   * `assertion` children reach only the facet view and `assert` children
   * only the assert view; together the two views never outnumber the body.
   */
  lemma AssertionsAndAssertsDisjoint(body: seq<RestrictionBody>)
    ensures forall i :: 0 <= i < |body| && body[i].Assertion? ==>
              RestrictionBody.FacetOf(body[i]).Some? && RestrictionBody.AssertOf(body[i]).None?
    ensures forall i :: 0 <= i < |body| && body[i].Assert? ==>
              RestrictionBody.FacetOf(body[i]).None? && RestrictionBody.AssertOf(body[i]).Some?
    ensures |FacetView(body)| + |Project(body, RestrictionBody.AssertOf)| <= |body|
  {
    ProjectLength(body, RestrictionBody.FacetOf);
    ProjectLength(body, RestrictionBody.AssertOf);
    CountDisjoint(body, RestrictionBody.FacetOf, RestrictionBody.AssertOf);
  }

  /**
   * A pattern, an annotation and an enumeration: the annotation is
   * skipped and the two facets keep their order.
   */
  lemma PatternAnnotationEnumeration(p: Pattern, a: Annotation, e: Enumeration)
    ensures FacetView([RestrictionBody.Pattern(p), RestrictionBody.Annotation(a), RestrictionBody.Enumeration(e)])
            == [Facet.Pattern(p), Facet.Enumeration(e)]
  {
    var body := [RestrictionBody.Pattern(p), RestrictionBody.Annotation(a), RestrictionBody.Enumeration(e)];
    ProjectSingle(body[0], RestrictionBody.FacetOf);
    ProjectSingle(body[1], RestrictionBody.FacetOf);
    ProjectSingle(body[2], RestrictionBody.FacetOf);
    ProjectAppend([body[0]], [body[1]], RestrictionBody.FacetOf);
    assert body[..2] == [body[0]] + [body[1]];
    assert Project(body[..2], RestrictionBody.FacetOf) == [Facet.Pattern(p)];
    ProjectAppend(body[..2], [body[2]], RestrictionBody.FacetOf);
    assert body == body[..2] + [body[2]];
  }
}
