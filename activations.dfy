/**
 * The rules shared by the kinds whose output shape is their input shape
 * (ReLU, Tanh, Sigmoid, Dropout, LayerNorm), the order copy of the kinds
 * that keep the axis letters, and the checkbox handlers that write one flag.
 */
module PassThrough {
  import opened Values
  import opened Shapes

  /** `input ? {out: input} : {out: 'Not Connected'}`, for the input and output keys of the kind. */
  function ForwardEffect(inKey: string, outKey: string, data: Data): (patch: Data)
    ensures patch.Keys == {outKey} && patch[outKey] == Forward(Get(data, inKey))
  {
    map[outKey := Forward(Get(data, inKey))]
  }

  /** `{outputShapeOrder: data.inputShapeOrder}`: the order copied as it is, null and undefined included. */
  function CopyOrderEffect(data: Data): (patch: Data)
    ensures patch.Keys == {"outputShapeOrder"} && patch["outputShapeOrder"] == Get(data, "inputShapeOrder")
  {
    map["outputShapeOrder" := Get(data, "inputShapeOrder")]
  }

  /** A checkbox handler: `{key: checked}`. */
  function FlagPatch(key: string, checked: bool): (patch: Data)
    ensures patch.Keys == {key} && patch[key] == Bool(checked)
  {
    map[key := Bool(checked)]
  }

  /**
   * Once the shape and order effects are merged, a kind that has both shows
   * its input as its output, and one without an input shows "Not Connected".
   */
  lemma PassesThrough(data: Data)
    ensures var d := Merge(Merge(data, ForwardEffect("inputShape", "outputShape", data)), CopyOrderEffect(data));
            (Truthy(Get(data, "inputShape")) ==> Get(d, "outputShape") == Get(d, "inputShape"))
            && (!Truthy(Get(data, "inputShape")) ==> Get(d, "outputShape") == Str(NotConnected))
            && Get(d, "outputShapeOrder") == Get(d, "inputShapeOrder")
  {
  }

  /** A kind with no order effect (Tanh, Sigmoid) keeps whatever order its data holds, its default null. */
  lemma OrderUntouched(data: Data)
    ensures var d := Merge(data, ForwardEffect("inputShape", "outputShape", data));
            Get(d, "outputShapeOrder") == Get(data, "outputShapeOrder") && Truthy(Get(d, "outputShape"))
  {
  }

  /** A flag handler never writes a shape, an order or a size. */
  lemma FlagLeavesShape(data: Data, key: string, checked: bool)
    requires key !in {"inputShape", "outputShape", "inputShapeOrder", "outputShapeOrder", "inputSize", "outputSize"}
    ensures var d := Merge(data, FlagPatch(key, checked));
            forall k :: k in {"inputShape", "outputShape", "inputShapeOrder", "outputShapeOrder", "inputSize", "outputSize"}
              ==> Get(d, k) == Get(data, k)
  {
  }
}

/**
 * The linear layer: the last axis of `inputSize` becomes the neuron count.
 * It is bound to the older store (`inputSize`/`outputSize` keys).
 */
module LinearLayerNode {
  import opened Wrappers
  import opened Numbers
  import opened Values
  import opened Shapes
  import Text
  import Fields

  /** `numNeurons !== null ? numNeurons.toString() : 'H'`. */
  function NeuronText(numNeurons: Option<JsNum>): (t: string)
    ensures numNeurons.None? ==> t == "H"
  {
    match numNeurons
    case Some(x) => NumberText(x)
    case None => "H"
  }

  /**
   * The output size: the raw tokens of the input with the last one replaced
   * by the neuron text and ")" appended; no input gives "Not Connected".
   */
  function OutputSize(inputSize: string, numNeurons: Option<JsNum>): (r: string)
    ensures inputSize == "" <==> r == NotConnected
  {
    if inputSize == "" then NotConnected
    else
      var r := Text.Join(ReplaceLast(RawTokens(inputSize), NeuronText(numNeurons)), CommaSpace) + ")";
      assert r[|r| - 1] == ')';
      r
  }

  /** The effect on `inputSize` and `numNeurons`: one `outputSize` write. */
  function Effect(data: Data): (patch: Data)
    ensures patch.Keys == {"outputSize"}
    ensures patch["outputSize"]
            == Str(OutputSize(ShapeText(Get(data, "inputSize")), NumberField(Get(data, "numNeurons"))))
  {
    map["outputSize" := Str(OutputSize(ShapeText(Get(data, "inputSize")), NumberField(Get(data, "numNeurons"))))]
  }

  /** On a rendered shape of rank two or more only the last axis changes. */
  lemma ReplacesLastAxis(ts: seq<string>, numNeurons: Option<JsNum>)
    requires |ts| >= 2 && WellFormedTokens(ts)
    ensures OutputSize(RenderTexts(ts), numNeurons) == RenderTexts(ReplaceLast(ts, NeuronText(numNeurons)))
  {
    ReplaceLastOfRender(ts, NeuronText(numNeurons));
  }

  /** In dimension terms: a whole neuron count becomes the size of the last axis. */
  lemma ReplacesLastDim(ds: seq<Dim>, n: int)
    requires |ds| >= 2 && ValidDims(ds)
    ensures OutputSize(Render(ds), Some(Int(n))) == Render(ReplaceLast(ds, Size(n)))
  {
    DimTextsWellFormed(ds);
    ReplacesLastAxis(DimTexts(ds), Some(Int(n)));
    assert NeuronText(Some(Int(n))) == IntText(n);
    DimTextsReplaceLast(ds, Size(n));
  }

  /** A rank-one input keeps neither parenthesis: "(32)" with 64 neurons gives "64)". */
  lemma RankOneOutput(t0: string, numNeurons: Option<JsNum>)
    requires WellFormedToken(t0)
    ensures OutputSize(RenderTexts([t0]), numNeurons) == NeuronText(numNeurons) + ")"
  {
    ReplaceLastOfRankOne(t0, NeuronText(numNeurons));
  }

  /** `handleNumNeuronsChange`: empty text stores null, anything else `Number(text)`, with no range check. */
  function NumNeuronsPatch(text: string): (patch: Data)
    ensures patch.Keys == {"numNeurons"}
    ensures text == "" <==> patch["numNeurons"] == Null
    ensures text != "" ==> patch["numNeurons"] == Number(JsNumber(text))
  {
    map["numNeurons" := OfNumber(Fields.ParseField(text))]
  }

  /** Every number typed into the field is stored as it is, negative or zero included. */
  lemma AnyNeuronCountStored(x: JsNum)
    requires Canonical(x)
    ensures NumNeuronsPatch(NumberText(x)) == map["numNeurons" := Number(x)]
  {
    NumberOfNumberText(x);
    assert NumberText(x) != "" by {
      if x.Num? {
        NumberTextShape(x.m, x.e);
      }
    }
  }
}
