/**
 * The input nodes, which start every graph. Each one renders its output shape
 * from its committed values, a missing value showing its axis letter:
 * `(${batchSize ?? 'N'}, ${numFeatures ?? 'C'})` for tabular data,
 * `(N, C, L)` for time series and `(N, C, H, W)` for images. The tabular and
 * time-series nodes validate their fields inline with `value !== null && value < 1`;
 * the image node uses the shared field with `value > 0`. The older tabular
 * node writes `outputSize` and commits whatever is typed.
 */
module InputNodes {
  import opened Wrappers
  import opened Numbers
  import opened Values
  import opened Shapes
  import opened Fields
  import Text

  /** `${x ?? name}`: the value's text, or the axis letter when there is none. */
  function Placeholder(x: Option<JsNum>, name: string): string {
    match x
    case Some(v) => NumberText(v)
    case None => name
  }

  /** A committed value the shape can show as a dimension: absent, or a whole number. */
  predicate Whole(x: Option<JsNum>) {
    x.Some? ==> x.value.Num? && x.value.e == 0
  }

  /** The dimension a committed value stands for. */
  function AxisOf(x: Option<JsNum>, name: string): (d: Dim)
    requires Whole(x)
  {
    match x
    case Some(v) => Size(v.m)
    case None => Sym(name)
  }

  /** A whole value is shown as its dimension's text. */
  lemma PlaceholderOfWhole(x: Option<JsNum>, name: string)
    requires Whole(x) && ValidSym(name)
    ensures Placeholder(x, name) == DimText(AxisOf(x, name)) && ValidDim(AxisOf(x, name))
  {
  }

  /** `${batchSize ?? 'N'}, ${numFeatures ?? 'C'}` in parentheses. */
  function TabularShape(batchSize: Option<JsNum>, numFeatures: Option<JsNum>): string {
    "(" + Placeholder(batchSize, "N") + ", " + Placeholder(numFeatures, "C") + ")"
  }

  /** The time-series shape, with the sequence length last. */
  function TimeseriesShape(batchSize: Option<JsNum>, numFeatures: Option<JsNum>,
                           sequenceLength: Option<JsNum>): string {
    "(" + Placeholder(batchSize, "N") + ", " + Placeholder(numFeatures, "C") + ", "
    + Placeholder(sequenceLength, "L") + ")"
  }

  /** The image shape, channels before height and width. */
  function ImageShape(batchSize: Option<JsNum>, numChannels: Option<JsNum>,
                      height: Option<JsNum>, width: Option<JsNum>): string {
    "(" + Placeholder(batchSize, "N") + ", " + Placeholder(numChannels, "C") + ", "
    + Placeholder(height, "H") + ", " + Placeholder(width, "W") + ")"
  }

  /** What the shape effect of the current nodes writes into the node's data. */
  function ShapePatch(shape: string): (patch: Data)
    ensures patch.Keys == {"outputShape"} && patch["outputShape"] == Str(shape)
  {
    map["outputShape" := Str(shape)]
  }

  /** The older tabular node writes the same text under `outputSize`. */
  function LegacyShapePatch(batchSize: Option<JsNum>, numFeatures: Option<JsNum>): (patch: Data)
    ensures patch.Keys == {"outputSize"}
    ensures patch["outputSize"] == Str(TabularShape(batchSize, numFeatures))
  {
    map["outputSize" := Str(TabularShape(batchSize, numFeatures))]
  }

  /** The value a node starts from: `props.data[key] ?? null`. */
  function Stored(data: Data, key: string): (x: Option<JsNum>)
    ensures x.Some? <==> key in data && data[key].Number?
  {
    NumberField(Get(data, key))
  }

  /** The tabular node's two inline-validated fields. */
  const TabularBindings: seq<Binding> := [
    Binding("numFeatures", NotBelowOne, "Number of features must be a positive number."),
    Binding("batchSize", NotBelowOne, "Batch size must be a positive number.")
  ]

  /** The time-series node adds the sequence length. */
  const TimeseriesBindings: seq<Binding> := TabularBindings + [
    Binding("sequenceLength", NotBelowOne, "Sequence length must be a positive number.")
  ]

  /** The image node's shared fields (the channel count comes from the image-type selector). */
  const ImageBindings: seq<Binding> := [
    Binding("batchSize", PositiveValue, "Batch size must be a positive number."),
    Binding("height", PositiveValue, "Height must be a positive number."),
    Binding("width", PositiveValue, "Width must be a positive number.")
  ]

  /** No two fields of a node write the same key. */
  predicate DistinctKeys(bs: seq<Binding>) {
    forall i, j :: 0 <= i < j < |bs| ==> bs[i].dataKey != bs[j].dataKey
  }

  /** Each node's fields write distinct keys, with the node's own check. */
  lemma BindingsDistinct()
    ensures DistinctKeys(TabularBindings) && DistinctKeys(TimeseriesBindings) && DistinctKeys(ImageBindings)
    ensures forall i :: 0 <= i < |ImageBindings| ==> ImageBindings[i].dataKey != "numChannels"
    ensures forall i :: 0 <= i < |TimeseriesBindings| ==> TimeseriesBindings[i].rule == NotBelowOne
    ensures forall i :: 0 <= i < |ImageBindings| ==> ImageBindings[i].rule == PositiveValue
  {
  }

  /** The texts of several committed values, each with its axis letter. */
  function Placeholders(xs: seq<Option<JsNum>>, names: seq<string>): (ts: seq<string>)
    requires |xs| == |names|
    ensures |ts| == |xs| && forall i :: 0 <= i < |xs| ==> ts[i] == Placeholder(xs[i], names[i])
  {
    seq(|xs|, i requires 0 <= i < |xs| => Placeholder(xs[i], names[i]))
  }

  /** The dimensions several whole committed values stand for. */
  function Axes(xs: seq<Option<JsNum>>, names: seq<string>): (ds: seq<Dim>)
    requires |xs| == |names| && forall i :: 0 <= i < |xs| ==> Whole(xs[i])
    ensures |ds| == |xs| && forall i :: 0 <= i < |xs| ==> ds[i] == AxisOf(xs[i], names[i])
  {
    seq(|xs|, i requires 0 <= i < |xs| => AxisOf(xs[i], names[i]))
  }

  /** Whole values with letter names are valid dimensions whose texts are the placeholders. */
  lemma AxesTexts(xs: seq<Option<JsNum>>, names: seq<string>)
    requires |xs| == |names| && forall i :: 0 <= i < |xs| ==> Whole(xs[i]) && ValidSym(names[i])
    ensures ValidDims(Axes(xs, names)) && DimTexts(Axes(xs, names)) == Placeholders(xs, names)
  {
    forall i | 0 <= i < |xs|
      ensures ValidDim(Axes(xs, names)[i]) && DimText(Axes(xs, names)[i]) == Placeholders(xs, names)[i]
    {
      PlaceholderOfWhole(xs[i], names[i]);
    }
  }

  /** A shape rendered from whole values reads back as their placeholders. */
  lemma TokensOfAxes(xs: seq<Option<JsNum>>, names: seq<string>, shape: string)
    requires 1 <= |xs| == |names| && forall i :: 0 <= i < |xs| ==> Whole(xs[i]) && ValidSym(names[i])
    requires shape == Render(Axes(xs, names))
    ensures Tokens(shape) == Placeholders(xs, names)
  {
    AxesTexts(xs, names);
    TokensOfRenderDims(Axes(xs, names));
  }

  /** `Join` of two texts. */
  lemma RenderTwo(a: string, b: string)
    ensures RenderTexts([a, b]) == "(" + a + ", " + b + ")"
  {
    assert [a, b][1..] == [b];
    assert Text.Join([a, b], CommaSpace) == a + ", " + b;
  }

  /** `Join` of three texts. */
  lemma JoinThree(a: string, b: string, c: string)
    ensures Text.Join([a, b, c], CommaSpace) == a + ", " + b + ", " + c
  {
    assert [a, b, c][1..] == [b, c];
    assert [b, c][1..] == [c];
    assert Text.Join([b, c], CommaSpace) == b + ", " + c;
  }

  lemma RenderThreeTexts(a: string, b: string, c: string)
    ensures RenderTexts([a, b, c]) == "(" + a + ", " + b + ", " + c + ")"
  {
    JoinThree(a, b, c);
  }

  lemma RenderFour(a: string, b: string, c: string, d: string)
    ensures RenderTexts([a, b, c, d]) == "(" + a + ", " + b + ", " + c + ", " + d + ")"
  {
    assert [a, b, c, d][1..] == [b, c, d];
    JoinThree(b, c, d);
  }

  /** The axis letters of the three nodes. */
  const TabularAxes: seq<string> := ["N", "C"]
  const TimeseriesAxes: seq<string> := ["N", "C", "L"]
  const ImageAxes: seq<string> := ["N", "C", "H", "W"]

  /** Whole committed values make the tabular shape a rendered two-axis shape. */
  lemma TabularShapeOfDims(batchSize: Option<JsNum>, numFeatures: Option<JsNum>)
    requires Whole(batchSize) && Whole(numFeatures)
    ensures var ds := Axes([batchSize, numFeatures], TabularAxes);
            ValidDims(ds) && TabularShape(batchSize, numFeatures) == Render(ds)
            && Tokens(TabularShape(batchSize, numFeatures)) == Placeholders([batchSize, numFeatures], TabularAxes)
  {
    var xs := [batchSize, numFeatures];
    var ts := Placeholders(xs, TabularAxes);
    AxesTexts(xs, TabularAxes);
    assert ts == [ts[0], ts[1]];
    RenderTwo(ts[0], ts[1]);
    TokensOfRenderDims(Axes(xs, TabularAxes));
  }

  /** Whole committed values make the time-series shape a rendered three-axis shape. */
  lemma TimeseriesShapeOfDims(batchSize: Option<JsNum>, numFeatures: Option<JsNum>,
                              sequenceLength: Option<JsNum>)
    requires Whole(batchSize) && Whole(numFeatures) && Whole(sequenceLength)
    ensures var ds := Axes([batchSize, numFeatures, sequenceLength], TimeseriesAxes);
            ValidDims(ds) && TimeseriesShape(batchSize, numFeatures, sequenceLength) == Render(ds)
  {
    TimeseriesAxesValid();
    AxesTexts([batchSize, numFeatures, sequenceLength], TimeseriesAxes);
    TimeseriesShapeOfTexts(batchSize, numFeatures, sequenceLength);
  }

  /** The time-series shape is the rendered list of its three placeholders. */
  lemma TimeseriesShapeOfTexts(batchSize: Option<JsNum>, numFeatures: Option<JsNum>,
                               sequenceLength: Option<JsNum>)
    ensures TimeseriesShape(batchSize, numFeatures, sequenceLength)
            == RenderTexts(Placeholders([batchSize, numFeatures, sequenceLength], TimeseriesAxes))
  {
    var ts := Placeholders([batchSize, numFeatures, sequenceLength], TimeseriesAxes);
    assert ts == [ts[0], ts[1], ts[2]];
    RenderThreeTexts(ts[0], ts[1], ts[2]);
  }

  /** Splitting the displayed time-series shape gives one token per axis. */
  lemma TimeseriesTokens(batchSize: Option<JsNum>, numFeatures: Option<JsNum>,
                         sequenceLength: Option<JsNum>)
    requires Whole(batchSize) && Whole(numFeatures) && Whole(sequenceLength)
    ensures Tokens(TimeseriesShape(batchSize, numFeatures, sequenceLength))
            == Placeholders([batchSize, numFeatures, sequenceLength], TimeseriesAxes)
  {
    TimeseriesAxesValid();
    TimeseriesShapeOfDims(batchSize, numFeatures, sequenceLength);
    TokensOfAxes([batchSize, numFeatures, sequenceLength], TimeseriesAxes,
                 TimeseriesShape(batchSize, numFeatures, sequenceLength));
  }

  /** The time-series axis letters are valid symbolic dimensions. */
  lemma TimeseriesAxesValid()
    ensures |TimeseriesAxes| == 3 && forall i :: 0 <= i < 3 ==> ValidSym(TimeseriesAxes[i])
  {
    assert ValidSym("N") && ValidSym("C") && ValidSym("L");
  }

  /** Whole committed values make the image shape a rendered four-axis shape. */
  lemma ImageShapeOfDims(batchSize: Option<JsNum>, numChannels: Option<JsNum>,
                         height: Option<JsNum>, width: Option<JsNum>)
    requires Whole(batchSize) && Whole(numChannels) && Whole(height) && Whole(width)
    ensures var ds := Axes([batchSize, numChannels, height, width], ImageAxes);
            ValidDims(ds) && ImageShape(batchSize, numChannels, height, width) == Render(ds)
  {
    ImageAxesValid();
    AxesTexts([batchSize, numChannels, height, width], ImageAxes);
    ImageShapeOfTexts(batchSize, numChannels, height, width);
  }

  /** The image axis letters are valid symbolic dimensions. */
  lemma ImageAxesValid()
    ensures |ImageAxes| == 4 && forall i :: 0 <= i < 4 ==> ValidSym(ImageAxes[i])
  {
    assert ValidSym("N") && ValidSym("C") && ValidSym("H") && ValidSym("W");
  }

  /** The image shape is the rendered list of its four placeholders. */
  lemma ImageShapeOfTexts(batchSize: Option<JsNum>, numChannels: Option<JsNum>,
                          height: Option<JsNum>, width: Option<JsNum>)
    ensures ImageShape(batchSize, numChannels, height, width)
            == RenderTexts(Placeholders([batchSize, numChannels, height, width], ImageAxes))
  {
    var ts := Placeholders([batchSize, numChannels, height, width], ImageAxes);
    assert ts == [ts[0], ts[1], ts[2], ts[3]];
    RenderFour(ts[0], ts[1], ts[2], ts[3]);
  }

  /**
   * The downstream nodes read back one token per image axis, as many as the
   * letters of the default order "NCHW".
   */
  lemma ImageTokens(batchSize: Option<JsNum>, numChannels: Option<JsNum>,
                    height: Option<JsNum>, width: Option<JsNum>)
    requires Whole(batchSize) && Whole(numChannels) && Whole(height) && Whole(width)
    ensures Tokens(ImageShape(batchSize, numChannels, height, width))
            == Placeholders([batchSize, numChannels, height, width], ImageAxes)
    ensures |Tokens(ImageShape(batchSize, numChannels, height, width))| == |"NCHW"|
  {
    ImageAxesValid();
    ImageShapeOfDims(batchSize, numChannels, height, width);
    TokensOfAxes([batchSize, numChannels, height, width], ImageAxes, ImageShape(batchSize, numChannels, height, width));
  }

  /** A freshly placed node, no value stored yet, shows the axis letters. */
  lemma UnsetShapes()
    ensures TabularShape(None, None) == "(N, C)"
    ensures TimeseriesShape(None, None, None) == "(N, C, L)"
    ensures ImageShape(None, None, None, None) == "(N, C, H, W)"
  {
  }

  /**
   * The inline check compares with `< 1`, which NaN fails: text that is not a
   * number is committed as NaN and the shape shows "NaN".
   */
  lemma InlineCommitsNaN(text: string)
    requires text != "" && JsNumber(text).NaN?
    ensures CheckField(NotBelowOne, text) == Accepted(Some(NaN))
    ensures CheckField(PositiveValue, text) == Rejected
    ensures TabularShape(Some(NaN), None) == "(NaN, C)"
  {
    NaNShape();
  }

  /** A NaN batch size is shown as "NaN". */
  lemma NaNShape()
    ensures TabularShape(Some(NaN), None) == "(NaN, C)"
  {
  }

  /** A numeric text is rejected by the inline check exactly when it is below one. */
  lemma InlineRejectsBelowOne(text: string)
    requires text != "" && JsNumber(text).Num?
    ensures CheckField(NotBelowOne, text).Rejected? <==> ToReal(JsNumber(text)) < 1.0
  {
    AcceptsMeansBounds(NotBelowOne, JsNumber(text));
  }

  /** "abc" is such a text. */
  lemma LettersCommitNaN()
    ensures CheckField(NotBelowOne, "abc") == Accepted(Some(NaN))
  {
    NaNWhenLastNotNumeral("abc");
    InlineCommitsNaN("abc");
  }

  /**
   * On numbers the inline check is stricter than `value > 0`: a fraction below
   * one passes the image node's check and fails the inline one; on whole
   * numbers the two agree.
   */
  lemma InlineVersusPositive(x: JsNum)
    requires x.Num?
    ensures Accepts(NotBelowOne, x) ==> Accepts(PositiveValue, x)
    ensures x.e == 0 ==> (Accepts(NotBelowOne, x) <==> Accepts(PositiveValue, x))
    ensures Accepts(PositiveValue, Num(5, 1)) && !Accepts(NotBelowOne, Num(5, 1))
  {
    AcceptsMeansBounds(NotBelowOne, x);
    AcceptsMeansBounds(PositiveValue, x);
    assert Pow10(1) == 10;
  }

  /**
   * The older tabular node's `onChange`: the typed text is parsed
   * (`text ? Number(text) : null`) and assigned into the node's data with no
   * check and no delay; the same value becomes the local state it returns.
   */
  method LegacyOnChange(data: DataObject, key: string, text: string) returns (v: Option<JsNum>)
    modifies data
    ensures v == ParseField(text)
    ensures data.fields == old(data.fields)[key := OfNumber(v)]
  {
    v := ParseField(text);
    data.fields := data.fields[key := OfNumber(v)];
  }

  /** Without validation the older node commits values the current nodes reject. */
  lemma LegacyCommitsZero()
    ensures ParseField("0") == Some(Int(0)) && CheckField(NotBelowOne, "0") == Rejected
    ensures TabularShape(None, ParseField("0")) == "(N, 0)"
  {
    assert Text.Trim("0") == "0" by {
      Text.TrimNoSpace("0");
    }
    assert JsNumber("0") == Int(0) by {
      assert Text.IndexOf("0", '.') == -1;
      assert DigitsValue("0") == 0;
    }
    assert NatText(0) == "0";
  }
}
