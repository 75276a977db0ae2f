/**
 * Properties of the particle views of the three compositors: each view
 * holds one particle per non-annotation child, in body order, of the same
 * kind and wrapping the same node as that child. A nested compositor is
 * one particle; its own children are not spliced into the parent's view.
 */
module ParticleViews {
  import opened Wrappers
  import opened Annotations
  import opened Body
  import opened Ast

  // ---------------------------------------------------------------------
  // Sequence
  // ---------------------------------------------------------------------

  /** The particles of a `sequence` body, as `Sequence.Items` computes them. */
  function SequenceItems(body: seq<SequenceBody>): seq<Particle>
  {
    Project(body, SequenceBody.ParticleOf)
  }

  /** One particle per non-annotation child. */
  lemma SequenceItemsCount(body: seq<SequenceBody>)
    ensures |SequenceItems(body)| == |body| - Count(body, SequenceBody.AnnotationOf)
  {
    ProjectLength(body, SequenceBody.ParticleOf);
    CountComplement(body, SequenceBody.ParticleOf, SequenceBody.AnnotationOf);
  }

  /**
   * Child to particle: the child at `i` that is not an annotation becomes
   * the particle at `i` minus the annotations before it, of the same kind
   * and wrapping the same node.
   */
  lemma SequenceItemAt(body: seq<SequenceBody>, i: nat)
    requires i < |body| && !body[i].Annotation?
    ensures i - Count(body[..i], SequenceBody.AnnotationOf) < |SequenceItems(body)|
    ensures var p := SequenceItems(body)[i - Count(body[..i], SequenceBody.AnnotationOf)];
            match body[i]
            case Any(x) => p == Particle.Any(x)
            case Annotation(_) => false
            case Element(x) => p == Particle.Element(x)
            case Group(x) => p == Particle.Group(x)
            case Sequence(x) => p == Particle.Sequence(x)
            case Choice(x) => p == Particle.Choice(x)
  {
    ProjectAt(body, SequenceBody.ParticleOf, i);
    CountComplement(body[..i], SequenceBody.ParticleOf, SequenceBody.AnnotationOf);
  }

  /** Particle to child: the k-th particle comes from the k-th non-annotation child. */
  lemma SequenceItemFrom(body: seq<SequenceBody>, k: nat)
    requires k < |SequenceItems(body)|
    ensures exists i :: 0 <= i < |body| && !body[i].Annotation?
                        && i - Count(body[..i], SequenceBody.AnnotationOf) == k
                        && SequenceItems(body)[k] == SequenceBody.ParticleOf(body[i]).value
  {
    ProjectFrom(body, SequenceBody.ParticleOf, k);
    var i :| 0 <= i < |body| && SequenceBody.ParticleOf(body[i]).Some?
              && Count(body[..i], SequenceBody.ParticleOf) == k
              && SequenceItems(body)[k] == SequenceBody.ParticleOf(body[i]).value;
    CountComplement(body[..i], SequenceBody.ParticleOf, SequenceBody.AnnotationOf);
  }

  /** A body of annotations only has no particles. */
  lemma SequenceItemsEmpty(body: seq<SequenceBody>)
    requires forall i :: 0 <= i < |body| ==> body[i].Annotation?
    ensures SequenceItems(body) == []
  {
    ProjectNone(body, SequenceBody.ParticleOf);
  }

  /**
   * A sequence holding an annotation and a nested sequence has one
   * particle: the nested sequence itself, whatever it holds.
   */
  lemma SequenceNestedIsOneParticle(a: Annotation, inner: Sequence)
    ensures SequenceItems([SequenceBody.Annotation(a), SequenceBody.Sequence(inner)])
            == [Particle.Sequence(inner)]
  {
    var body := [SequenceBody.Annotation(a), SequenceBody.Sequence(inner)];
    ProjectSingle(body[0], SequenceBody.ParticleOf);
    ProjectSingle(body[1], SequenceBody.ParticleOf);
    ProjectAppend([body[0]], [body[1]], SequenceBody.ParticleOf);
    assert body == [body[0]] + [body[1]];
  }

  // ---------------------------------------------------------------------
  // Choice
  // ---------------------------------------------------------------------

  /** The particles of a `choice` body, as `Choice.Items` computes them. */
  function ChoiceItems(body: seq<ChoiceBody>): seq<Particle>
  {
    Project(body, ChoiceBody.ParticleOf)
  }

  /** One particle per non-annotation child. */
  lemma ChoiceItemsCount(body: seq<ChoiceBody>)
    ensures |ChoiceItems(body)| == |body| - Count(body, ChoiceBody.AnnotationOf)
  {
    ProjectLength(body, ChoiceBody.ParticleOf);
    CountComplement(body, ChoiceBody.ParticleOf, ChoiceBody.AnnotationOf);
  }

  /**
   * Child to particle: the child at `i` that is not an annotation becomes
   * the particle at `i` minus the annotations before it, of the same kind
   * and wrapping the same node.
   */
  lemma ChoiceItemAt(body: seq<ChoiceBody>, i: nat)
    requires i < |body| && !body[i].Annotation?
    ensures i - Count(body[..i], ChoiceBody.AnnotationOf) < |ChoiceItems(body)|
    ensures var p := ChoiceItems(body)[i - Count(body[..i], ChoiceBody.AnnotationOf)];
            match body[i]
            case Any(x) => p == Particle.Any(x)
            case Annotation(_) => false
            case Element(x) => p == Particle.Element(x)
            case Group(x) => p == Particle.Group(x)
            case Choice(x) => p == Particle.Choice(x)
            case Sequence(x) => p == Particle.Sequence(x)
  {
    ProjectAt(body, ChoiceBody.ParticleOf, i);
    CountComplement(body[..i], ChoiceBody.ParticleOf, ChoiceBody.AnnotationOf);
  }

  /** Particle to child: the k-th particle comes from the k-th non-annotation child. */
  lemma ChoiceItemFrom(body: seq<ChoiceBody>, k: nat)
    requires k < |ChoiceItems(body)|
    ensures exists i :: 0 <= i < |body| && !body[i].Annotation?
                        && i - Count(body[..i], ChoiceBody.AnnotationOf) == k
                        && ChoiceItems(body)[k] == ChoiceBody.ParticleOf(body[i]).value
  {
    ProjectFrom(body, ChoiceBody.ParticleOf, k);
    var i :| 0 <= i < |body| && ChoiceBody.ParticleOf(body[i]).Some?
              && Count(body[..i], ChoiceBody.ParticleOf) == k
              && ChoiceItems(body)[k] == ChoiceBody.ParticleOf(body[i]).value;
    CountComplement(body[..i], ChoiceBody.ParticleOf, ChoiceBody.AnnotationOf);
  }

  /** A body of annotations only has no particles. */
  lemma ChoiceItemsEmpty(body: seq<ChoiceBody>)
    requires forall i :: 0 <= i < |body| ==> body[i].Annotation?
    ensures ChoiceItems(body) == []
  {
    ProjectNone(body, ChoiceBody.ParticleOf);
  }

  /**
   * A choice between a nested choice and an element has two particles:
   * the nested choice itself, whatever it holds, and the element.
   */
  lemma ChoiceNestedIsOneParticle(inner: Choice, e: Element)
    ensures ChoiceItems([ChoiceBody.Choice(inner), ChoiceBody.Element(e)])
            == [Particle.Choice(inner), Particle.Element(e)]
  {
    var body := [ChoiceBody.Choice(inner), ChoiceBody.Element(e)];
    ProjectSingle(body[0], ChoiceBody.ParticleOf);
    ProjectSingle(body[1], ChoiceBody.ParticleOf);
    ProjectAppend([body[0]], [body[1]], ChoiceBody.ParticleOf);
    assert body == [body[0]] + [body[1]];
  }

  // ---------------------------------------------------------------------
  // All
  // ---------------------------------------------------------------------

  /** The particles of an `all` body, as `All.Items` computes them. */
  function AllItems(body: seq<AllBody>): seq<Particle>
  {
    Project(body, AllBody.ParticleOf)
  }

  /** One particle per non-annotation child. */
  lemma AllItemsCount(body: seq<AllBody>)
    ensures |AllItems(body)| == |body| - Count(body, AllBody.AnnotationOf)
  {
    ProjectLength(body, AllBody.ParticleOf);
    CountComplement(body, AllBody.ParticleOf, AllBody.AnnotationOf);
  }

  /**
   * Child to particle: the child at `i` that is not an annotation becomes
   * the particle at `i` minus the annotations before it, of the same kind
   * and wrapping the same node.
   */
  lemma AllItemAt(body: seq<AllBody>, i: nat)
    requires i < |body| && !body[i].Annotation?
    ensures i - Count(body[..i], AllBody.AnnotationOf) < |AllItems(body)|
    ensures var p := AllItems(body)[i - Count(body[..i], AllBody.AnnotationOf)];
            match body[i]
            case Annotation(_) => false
            case Element(x) => p == Particle.Element(x)
            case Any(x) => p == Particle.Any(x)
            case Group(x) => p == Particle.Group(x)
  {
    ProjectAt(body, AllBody.ParticleOf, i);
    CountComplement(body[..i], AllBody.ParticleOf, AllBody.AnnotationOf);
  }

  /** An `all` yields only element, wildcard and group particles, never a compositor. */
  lemma AllItemsKinds(body: seq<AllBody>)
    ensures forall k :: 0 <= k < |AllItems(body)| ==>
              AllItems(body)[k].Element? || AllItems(body)[k].Any? || AllItems(body)[k].Group?
  {
    forall k | 0 <= k < |AllItems(body)|
      ensures AllItems(body)[k].Element? || AllItems(body)[k].Any? || AllItems(body)[k].Group?
    {
      ProjectFrom(body, AllBody.ParticleOf, k);
    }
  }

  /** A body of annotations only has no particles. */
  lemma AllItemsEmpty(body: seq<AllBody>)
    requires forall i :: 0 <= i < |body| ==> body[i].Annotation?
    ensures AllItems(body) == []
  {
    ProjectNone(body, AllBody.ParticleOf);
  }
}
