/**
 * The LSTM node. Its shape effect splits the input shape on commas (the
 * parentheses left on the outer tokens), keeps the first two tokens and
 * appends the feature size and ")": the projection size when it is positive,
 * else the hidden size (doubled when bidirectional), else "Hout". A missing
 * token reads as "undefined", as indexing past the end of an array does.
 */
module LSTMLayerNode {
  import opened Wrappers
  import opened Numbers
  import opened Values
  import opened Shapes
  import opened Fields
  import Text

  const HiddenSizeField: Binding := Binding("hiddenSize", PositiveValue, "Hidden size must be a positive number.")
  const NumLayersField: Binding := Binding("numLayers", PositiveValue, "Number of layers must be a positive number.")
  const DropoutField: Binding := Binding("dropout", NonNegativeValue, "Dropout must be a non-negative number.")
  const ProjSizeField: Binding := Binding("projSize", NonNegativeValue, "Projection size must be a non-negative number.")

  /** `bidirectional ? 2 : 1`. */
  function Multiplier(bidirectional: bool): int {
    if bidirectional then 2 else 1
  }

  /** `projSize && projSize > 0 ? projSize : hiddenSize !== null ? hiddenSize * multiplier : 'Hout'`, as text. */
  function FeatureText(hiddenSize: Option<JsNum>, projSize: Option<JsNum>, bidirectional: bool): (t: string)
  {
    if projSize.Some? && Positive(projSize.value) then NumberText(projSize.value)
    else if hiddenSize.Some? then NumberText(MulInt(hiddenSize.value, Multiplier(bidirectional)))
    else "Hout"
  }

  /** `arr[i]` inside a template literal: past the end it is `undefined`. */
  function TokenAt(ts: seq<string>, i: nat): string {
    if i < |ts| then ts[i] else "undefined"
  }

  /** The shape effect's result for a given input shape text. */
  function OutputShape(inputShape: string, hiddenSize: Option<JsNum>, projSize: Option<JsNum>, bidirectional: bool): (r: string)
    ensures inputShape == "" <==> r == NotConnected
  {
    if inputShape == "" then NotConnected
    else
      var ts := RawTokens(inputShape);
      var r := TokenAt(ts, 0) + ", " + TokenAt(ts, 1) + ", " + FeatureText(hiddenSize, projSize, bidirectional) + ")";
      assert r[|r| - 1] == ')';
      r
  }

  /** The shape effect: one `outputShape` write, with `bidirectional` read from the node's data. */
  function ShapeEffect(data: Data, hiddenSize: Option<JsNum>, projSize: Option<JsNum>): (patch: Data)
    ensures patch.Keys == {"outputShape"}
    ensures patch["outputShape"]
            == Str(OutputShape(ShapeText(Get(data, "inputShape")), hiddenSize, projSize, Values.Truthy(Get(data, "bidirectional"))))
  {
    map["outputShape" := Str(OutputShape(ShapeText(Get(data, "inputShape")), hiddenSize, projSize,
                                         Values.Truthy(Get(data, "bidirectional"))))]
  }

  /** The feature size in numbers: a positive projection wins and is never doubled. */
  lemma FeatureSize(hiddenSize: Option<JsNum>, projSize: Option<JsNum>, bidirectional: bool, n: int)
    ensures projSize == Some(Int(n)) && n > 0 ==> FeatureText(hiddenSize, projSize, bidirectional) == IntText(n)
    ensures (projSize.None? || projSize == Some(Int(0))) && hiddenSize == Some(Int(n))
            ==> FeatureText(hiddenSize, projSize, bidirectional) == IntText(n * Multiplier(bidirectional))
    ensures (projSize.None? || projSize == Some(Int(0))) && hiddenSize.None?
            ==> FeatureText(hiddenSize, projSize, bidirectional) == "Hout"
  {
    if (projSize.None? || projSize == Some(Int(0))) && hiddenSize == Some(Int(n)) {
      assert MulInt(Int(n), Multiplier(bidirectional)) == Int(n * Multiplier(bidirectional));
    }
  }

  /** The rule on a non-empty shape text, spelled out on its raw tokens. */
  lemma OutputShapeOf(s: string, hiddenSize: Option<JsNum>, projSize: Option<JsNum>, bidirectional: bool)
    requires s != ""
    ensures OutputShape(s, hiddenSize, projSize, bidirectional)
            == TokenAt(RawTokens(s), 0) + ", " + TokenAt(RawTokens(s), 1) + ", "
               + FeatureText(hiddenSize, projSize, bidirectional) + ")"
  {
  }

  /** On a rendered shape of rank three or more the result is the first two axes and the feature size. */
  lemma KeepsFirstTwoAxes(ts: seq<string>, hiddenSize: Option<JsNum>, projSize: Option<JsNum>, bidirectional: bool)
    requires |ts| >= 3 && WellFormedTokens(ts)
    ensures OutputShape(RenderTexts(ts), hiddenSize, projSize, bidirectional)
            == RenderTexts([ts[0], ts[1], FeatureText(hiddenSize, projSize, bidirectional)])
  {
    var s := RenderTexts(ts);
    RawTokensAt(ts);
    OutputShapeOf(s, hiddenSize, projSize, bidirectional);
    assert TokenAt(RawTokens(s), 0) == "(" + ts[0];
    assert TokenAt(RawTokens(s), 1) == ts[1];
    RenderThree(ts[0], ts[1], FeatureText(hiddenSize, projSize, bidirectional));
  }

  /** Three tokens rendered. */
  lemma RenderThree(a: string, b: string, c: string)
    ensures RenderTexts([a, b, c]) == "(" + a + ", " + b + ", " + c + ")"
  {
    assert [a, b, c][1..] == [b, c];
    assert [b, c][1..] == [c];
    assert Text.Join([b, c], CommaSpace) == b + ", " + c;
  }

  /** The result always has three tokens: a rank-two input keeps its ")" inside, "(N, L)" gives "(N, L), H)". */
  lemma RankTwo(t0: string, t1: string, hiddenSize: Option<JsNum>, projSize: Option<JsNum>, bidirectional: bool)
    requires WellFormedToken(t0) && WellFormedToken(t1)
    ensures OutputShape(RenderTexts([t0, t1]), hiddenSize, projSize, bidirectional)
            == "(" + t0 + ", " + (t1 + ")") + ", " + FeatureText(hiddenSize, projSize, bidirectional) + ")"
  {
    var s := RenderTexts([t0, t1]);
    RawTokensAt([t0, t1]);
    OutputShapeOf(s, hiddenSize, projSize, bidirectional);
    assert TokenAt(RawTokens(s), 0) == "(" + t0;
    assert TokenAt(RawTokens(s), 1) == t1 + ")";
  }

  /** A rank-one input has no second token: "(L)" gives "(L), undefined, H)". */
  lemma RankOne(t0: string, hiddenSize: Option<JsNum>, projSize: Option<JsNum>, bidirectional: bool)
    requires WellFormedToken(t0)
    ensures OutputShape(RenderTexts([t0]), hiddenSize, projSize, bidirectional)
            == "(" + t0 + ")" + ", " + "undefined" + ", " + FeatureText(hiddenSize, projSize, bidirectional) + ")"
  {
    var s := RenderTexts([t0]);
    RawTokensOfRankOne(t0);
    OutputShapeOf(s, hiddenSize, projSize, bidirectional);
    assert TokenAt(RawTokens(s), 0) == "(" + t0 + ")";
    assert TokenAt(RawTokens(s), 1) == "undefined";
  }

  /** Hidden size and layer count are committed only when positive, dropout and projection only when not negative. */
  lemma ParameterFieldsAccept(text: string)
    ensures var x := JsNumber(text);
            (CheckField(HiddenSizeField.rule, text).Accepted? <==> text == "" || (x.Num? && ToReal(x) > 0.0))
            && (CheckField(NumLayersField.rule, text).Accepted? <==> text == "" || (x.Num? && ToReal(x) > 0.0))
            && (CheckField(DropoutField.rule, text).Accepted? <==> text == "" || (x.Num? && ToReal(x) >= 0.0))
            && (CheckField(ProjSizeField.rule, text).Accepted? <==> text == "" || (x.Num? && ToReal(x) >= 0.0))
  {
    AcceptsMeansBounds(PositiveValue, JsNumber(text));
    AcceptsMeansBounds(NonNegativeValue, JsNumber(text));
  }
}

/**
 * The GRU node: the LSTM rule without a projection. The feature size is the
 * hidden size, doubled when bidirectional, or "Hout".
 */
module GRULayerNode {
  import opened Wrappers
  import opened Numbers
  import opened Values
  import opened Shapes
  import opened Fields
  import LSTM = LSTMLayerNode

  const HiddenSizeField: Binding := Binding("hiddenSize", PositiveValue, "Hidden size must be a positive number.")
  const NumLayersField: Binding := Binding("numLayers", PositiveValue, "Number of layers must be a positive number.")
  const DropoutField: Binding := Binding("dropout", NonNegativeValue, "Dropout must be a non-negative number.")

  /** `hiddenSize !== null ? hiddenSize * multiplier : 'Hout'`, as text. */
  function FeatureText(hiddenSize: Option<JsNum>, bidirectional: bool): (t: string)
    ensures hiddenSize.None? <==> t == "Hout"
  {
    match hiddenSize
    case Some(h) =>
      var t := NumberText(MulInt(h, LSTM.Multiplier(bidirectional)));
      assert t != "Hout" by {
        var x := MulInt(h, LSTM.Multiplier(bidirectional));
        if x.Num? {
          NumberTextShape(x.m, x.e);
          assert IsDigit(t[|t| - 1]);
        }
      }
      t
    case None => "Hout"
  }

  /** The shape effect's result for a given input shape text. */
  function OutputShape(inputShape: string, hiddenSize: Option<JsNum>, bidirectional: bool): (r: string)
    ensures inputShape == "" <==> r == NotConnected
  {
    if inputShape == "" then NotConnected
    else
      var ts := RawTokens(inputShape);
      var r := LSTM.TokenAt(ts, 0) + ", " + LSTM.TokenAt(ts, 1) + ", " + FeatureText(hiddenSize, bidirectional) + ")";
      assert r[|r| - 1] == ')';
      r
  }

  /** The shape effect: one `outputShape` write. */
  function ShapeEffect(data: Data, hiddenSize: Option<JsNum>): (patch: Data)
    ensures patch.Keys == {"outputShape"}
    ensures patch["outputShape"]
            == Str(OutputShape(ShapeText(Get(data, "inputShape")), hiddenSize, Values.Truthy(Get(data, "bidirectional"))))
  {
    map["outputShape" := Str(OutputShape(ShapeText(Get(data, "inputShape")), hiddenSize,
                                         Values.Truthy(Get(data, "bidirectional"))))]
  }

  /** A GRU shapes its output like an LSTM without a projection, or with projection size 0. */
  lemma SameAsLSTMWithoutProjection(inputShape: string, hiddenSize: Option<JsNum>, bidirectional: bool)
    ensures OutputShape(inputShape, hiddenSize, bidirectional) == LSTM.OutputShape(inputShape, hiddenSize, None, bidirectional)
    ensures OutputShape(inputShape, hiddenSize, bidirectional) == LSTM.OutputShape(inputShape, hiddenSize, Some(Int(0)), bidirectional)
  {
    assert FeatureText(hiddenSize, bidirectional) == LSTM.FeatureText(hiddenSize, None, bidirectional);
    assert FeatureText(hiddenSize, bidirectional) == LSTM.FeatureText(hiddenSize, Some(Int(0)), bidirectional);
  }

  /** On a rendered shape of rank three or more the result is the first two axes and the hidden size. */
  lemma KeepsFirstTwoAxes(ts: seq<string>, hiddenSize: Option<JsNum>, bidirectional: bool)
    requires |ts| >= 3 && WellFormedTokens(ts)
    ensures OutputShape(RenderTexts(ts), hiddenSize, bidirectional)
            == RenderTexts([ts[0], ts[1], FeatureText(hiddenSize, bidirectional)])
  {
    SameAsLSTMWithoutProjection(RenderTexts(ts), hiddenSize, bidirectional);
    LSTM.KeepsFirstTwoAxes(ts, hiddenSize, None, bidirectional);
    assert FeatureText(hiddenSize, bidirectional) == LSTM.FeatureText(hiddenSize, None, bidirectional);
  }

  /** Hidden size and layer count are committed only when positive, dropout only when not negative. */
  lemma ParameterFieldsAccept(text: string)
    ensures var x := JsNumber(text);
            (CheckField(HiddenSizeField.rule, text).Accepted? <==> text == "" || (x.Num? && ToReal(x) > 0.0))
            && (CheckField(NumLayersField.rule, text).Accepted? <==> text == "" || (x.Num? && ToReal(x) > 0.0))
            && (CheckField(DropoutField.rule, text).Accepted? <==> text == "" || (x.Num? && ToReal(x) >= 0.0))
  {
    AcceptsMeansBounds(PositiveValue, JsNumber(text));
    AcceptsMeansBounds(NonNegativeValue, JsNumber(text));
  }
}
