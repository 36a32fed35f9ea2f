/**
 * The dropout node (also registered for "dropout2d"): the shape and its
 * order pass through unchanged, `p` is a probability field and `inplace` a
 * flag that does not touch the shape.
 */
module DropoutLayerNode {
  import opened Numbers
  import opened Values
  import opened Fields

  /** `validateProbability` and the field it guards. */
  const PField: Binding := Binding("p", Probability, "Probability must be between 0 and 1.")

  /** A typed `p` is committed exactly when it is empty or a number between 0 and 1. */
  lemma ProbabilityAccepted(text: string)
    ensures CheckField(PField.rule, text).Accepted?
            <==> text == "" || (JsNumber(text).Num? && 0.0 <= ToReal(JsNumber(text)) <= 1.0)
  {
    AcceptsMeansBounds(Probability, JsNumber(text));
  }
}
