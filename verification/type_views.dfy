/**
 * Properties of the complex type accessors taken together.
 */
module TypeViews {
  import opened Wrappers
  import opened Body
  import opened Ast

  /**
   * The singleton accessors look at one kind of child each and do not
   * enforce that a complex type has only one content model: a body with
   * one `sequence` and one `choice` child reports both.
   */
  lemma SequenceAndChoiceCoexist(s: Sequence, c: Choice)
    ensures var body := [ComplexTypeBody.Sequence(s), ComplexTypeBody.Choice(c)];
            Singleton(body, ComplexTypeBody.SequenceOf) == Some(s)
            && Singleton(body, ComplexTypeBody.ChoiceOf) == Some(c)
  {
    var body := [ComplexTypeBody.Sequence(s), ComplexTypeBody.Choice(c)];
    SingletonExactlyOne(body, ComplexTypeBody.SequenceOf, 0);
    SingletonExactlyOne(body, ComplexTypeBody.ChoiceOf, 1);
  }

  /**
   * A second `sequence` child hides the first: the accessor reports no
   * sequence at all, while the `choice` accessor is unaffected.
   */
  lemma RepeatedSequenceHidesBoth(s1: Sequence, s2: Sequence, c: Choice)
    ensures var body := [ComplexTypeBody.Sequence(s1), ComplexTypeBody.Choice(c), ComplexTypeBody.Sequence(s2)];
            Singleton(body, ComplexTypeBody.SequenceOf) == None
            && Singleton(body, ComplexTypeBody.ChoiceOf) == Some(c)
  {
    var body := [ComplexTypeBody.Sequence(s1), ComplexTypeBody.Choice(c), ComplexTypeBody.Sequence(s2)];
    SingletonAmbiguous(body, ComplexTypeBody.SequenceOf, 0, 2);
    SingletonExactlyOne(body, ComplexTypeBody.ChoiceOf, 1);
  }
}
