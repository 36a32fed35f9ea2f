/**
 * The layer-normalisation node: shape and order pass through
 * (`PassThrough`), the start dimension is picked from one option per axis
 * letter of the input order, and `eps` is a positive field.
 */
module LayerNormLayerNode {
  import opened Numbers
  import opened Values
  import opened Fields

  /** `validatePositiveNumber` and the field it guards. */
  const EpsField: Binding := Binding("eps", PositiveValue, "Epsilon must be a positive number.")

  /** One `<option>` of the start-dimension select: its value attribute and the letter it shows. */
  datatype DimOption = DimOption(value: string, letter: char)

  /**
   * `inputShapeOrder.split("").map((dim, index) => <option value={index}>{dim}</option>)`,
   * shown only when the order is present.
   */
  function DimensionOptions(inputShapeOrder: Value): (opts: seq<DimOption>)
    ensures !Values.Truthy(inputShapeOrder) || !inputShapeOrder.Str? ==> opts == []
    ensures inputShapeOrder.Str? ==> |opts| == |inputShapeOrder.s|
    ensures inputShapeOrder.Str? ==>
              forall i :: 0 <= i < |opts| ==> opts[i] == DimOption(IntText(i), inputShapeOrder.s[i])
  {
    if inputShapeOrder.Str? then
      var s := inputShapeOrder.s;
      seq(|s|, i requires 0 <= i < |s| => DimOption(IntText(i), s[i]))
    else []
  }

  /** `handleNormalizeShapeChange`: `parseInt(value, 10)` stored as `normalizedShape`, NaN for no digits. */
  function NormalizeShapePatch(value: string): (patch: Data)
    ensures patch.Keys == {"normalizedShape"}
  {
    match JsParseInt(value)
    case Some(n) => map["normalizedShape" := Number(Int(n))]
    case None => map["normalizedShape" := Number(NaN)]
  }

  /** Choosing the option of axis `i` stores `i`, and no shape key is written. */
  lemma ChoosingOptionStoresIndex(inputShapeOrder: Value, i: int)
    requires 0 <= i < |DimensionOptions(inputShapeOrder)|
    ensures NormalizeShapePatch(DimensionOptions(inputShapeOrder)[i].value) == map["normalizedShape" := Number(Int(i))]
  {
    ParseIntOfIntText(i, "");
    assert IntText(i) + "" == IntText(i);
  }

  /** A typed `eps` is committed exactly when it is empty or a positive number. */
  lemma EpsAccepted(text: string)
    ensures CheckField(EpsField.rule, text).Accepted?
            <==> text == "" || (JsNumber(text).Num? && ToReal(JsNumber(text)) > 0.0)
  {
    AcceptsMeansBounds(PositiveValue, JsNumber(text));
  }
}
