/**
 * The 1-D max-pooling node. Its shape effect splits the input shape on
 * commas, replaces the last token by the pooled length and appends ")"; the
 * length comes from the floor formula when the whitespace-free last token is
 * numeric and all four parameters are set, and is "Lout" otherwise. The
 * parameters are the node's local field values; `ceilMode` is stored but
 * never read.
 */
module MaxPool1DLayerNode {
  import opened Wrappers
  import opened Numbers
  import opened Values
  import opened Shapes
  import opened Fields
  import Text

  const KernelSizeField: Binding := Binding("kernelSize", PositiveValue, "Kernel size must be a positive number.")
  const StrideField: Binding := Binding("stride", PositiveValue, "Stride must be a positive number.")
  const PaddingField: Binding := Binding("padding", NonNegativeValue, "Padding cannot be less than 0.")
  const DilationField: Binding := Binding("dilation", PositiveValue, "Dilation must be a positive number.")

  /** The four local field values; null until a value is committed. */
  datatype Params = Params(kernelSize: Option<JsNum>, stride: Option<JsNum>,
                           padding: Option<JsNum>, dilation: Option<JsNum>)
  {
    predicate Complete() {
      kernelSize.Some? && stride.Some? && padding.Some? && dilation.Some?
    }
  }

  /** `calculateOutputLength`. */
  function CalculateOutputLength(inputLength: string, p: Params): (r: string)
    ensures JsNumber(Text.Remove(inputLength, Text.Spaces)).NaN? || !p.Complete() ==> r == "Lout"
  {
    var cleaned := Text.Remove(inputLength, Text.Spaces);
    if JsNumber(cleaned).NaN? || !p.Complete() then "Lout"
    else
      var len := match JsParseInt(cleaned) case Some(n) => Int(n) case None => NaN;
      LengthText(OutputLength(len, p.kernelSize.value, p.stride.value, p.padding.value, p.dilation.value))
  }

  /** A whole length with all parameters set is put through the floor formula. */
  lemma LengthOfWholeNumber(len: int, p: Params)
    requires p.Complete()
    ensures CalculateOutputLength(IntText(len), p)
            == LengthText(OutputLength(Int(len), p.kernelSize.value, p.stride.value, p.padding.value, p.dilation.value))
  {
    var t := IntText(len);
    assert Text.Remove(t, Text.Spaces) == t;
    assert NumberText(Int(len)) == t;
    NumberOfNumberText(Int(len));
    ParseIntOfIntText(len, "");
    assert t + "" == t;
  }

  /** A last token that still ends with ")" is never numeric, so its length is "Lout". */
  predicate ClosedToken(t: string) { |t| >= 1 && t[|t| - 1] == ')' }

  lemma ClosedTokenIsLout(t: string, p: Params)
    requires ClosedToken(t)
    ensures CalculateOutputLength(t, p) == "Lout"
  {
    var front := t[..|t| - 1];
    assert t == front + ")";
    Text.RemoveAppend(front, ")", Text.Spaces);
    assert Text.Remove(")", Text.Spaces) == ")";
    NaNWhenLastNotNumeral(Text.Remove(t, Text.Spaces));
  }

  /** The output shape as the component computes it, on the raw comma-split tokens. */
  function OutputShape(inputShape: string, p: Params): (r: string)
    ensures inputShape == "" <==> r == NotConnected
  {
    if inputShape == "" then NotConnected
    else
      var ts := RawTokens(inputShape);
      var r := Text.Join(ReplaceLast(ts, CalculateOutputLength(ts[|ts| - 1], p)), CommaSpace) + ")";
      assert r[|r| - 1] == ')';
      r
  }

  /** As written, every rendered shape of rank two or more gets "Lout" as its last axis. */
  lemma AsWrittenAlwaysLout(ts: seq<string>, p: Params)
    requires |ts| >= 2 && WellFormedTokens(ts)
    ensures OutputShape(RenderTexts(ts), p) == RenderTexts(ReplaceLast(ts, "Lout"))
  {
    var s := RenderTexts(ts);
    LoutOfRendered(ts, p);
    OutputShapeOf(s, p);
    ReplaceLastOfRender(ts, "Lout");
  }

  /** The last raw token of a rendered shape of rank two or more has length "Lout". */
  lemma LoutOfRendered(ts: seq<string>, p: Params)
    requires |ts| >= 2 && WellFormedTokens(ts)
    ensures CalculateOutputLength(LastRaw(ts), p) == "Lout"
  {
    LastRawToken(ts);
    ClosedTokenIsLout(LastRaw(ts), p);
  }

  /** The rule as written on a shape whose raw tokens are known. */
  lemma OutputShapeOf(s: string, p: Params)
    requires s != ""
    ensures OutputShape(s, p)
            == Text.Join(ReplaceLast(RawTokens(s), CalculateOutputLength(RawTokens(s)[|RawTokens(s)| - 1], p)), CommaSpace) + ")"
  {
  }

  function LastRaw(ts: seq<string>): string
    requires |ts| >= 1
  {
    var raw := RawTokens(RenderTexts(ts)); raw[|raw| - 1]
  }

  /** The last raw token of a rendered shape ends with the closing parenthesis. */
  lemma LastRawToken(ts: seq<string>)
    requires |ts| >= 2 && WellFormedTokens(ts)
    ensures ClosedToken(LastRaw(ts))
  {
    RawTokensOfRender(ts);
    assert Bracketed(ts)[|ts| - 1] == "" + ts[|ts| - 1] + ")";
  }

  /** As written, a rank-one shape loses both parentheses: "(20)" becomes "Lout)". */
  lemma AsWrittenRankOne(t0: string, p: Params)
    requires WellFormedToken(t0)
    ensures OutputShape(RenderTexts([t0]), p) == "Lout)"
  {
    var s := RenderTexts([t0]);
    var raw := RawTokens(s);
    RawTokensOfRender([t0]);
    assert |raw| == 1 && raw[0] == "(" + t0 + ")";
    ClosedTokenIsLout(raw[0], p);
    assert s[0] == '(';
    ReplaceLastOfRankOne(t0, "Lout");
    assert OutputShape(s, p) == Text.Join(ReplaceLast(raw, "Lout"), CommaSpace) + ")";
  }

  /**
   * The rule as evidently intended: the parentheses stripped before the
   * split (as the other shape readers do), so the last token is the length.
   */
  function CorrectedOutputShape(inputShape: string, p: Params): (r: string)
    ensures inputShape == "" <==> r == NotConnected
  {
    if inputShape == "" then NotConnected
    else
      var ts := Tokens(inputShape);
      var r := RenderTexts(ReplaceLast(ts, CalculateOutputLength(ts[|ts| - 1], p)));
      assert r[0] == '(';
      r
  }

  /** With the correction, the last axis takes the length computed from its text and the other axes are kept. */
  lemma CorrectedComputesLength(ds: seq<Dim>, p: Params)
    requires |ds| >= 1 && ValidDims(ds)
    ensures CorrectedOutputShape(Render(ds), p)
            == RenderTexts(ReplaceLast(DimTexts(ds), CalculateOutputLength(DimText(ds[|ds| - 1]), p)))
  {
    TokensOfRenderDims(ds);
    LastDimText(ds);
  }

  /** A whole length with whole parameters and a positive stride gets the integer floor length. */
  lemma WholeLength(len: int, kernel: int, stride: int, padding: int, dilation: int)
    requires stride > 0
    ensures CalculateOutputLength(IntText(len), Params(Some(Int(kernel)), Some(Int(stride)), Some(Int(padding)), Some(Int(dilation))))
            == IntText(FloorDiv(len + 2 * padding - dilation * (kernel - 1) - 1, stride) + 1)
  {
    LengthOfWholeNumber(len, Params(Some(Int(kernel)), Some(Int(stride)), Some(Int(padding)), Some(Int(dilation))));
    OutputLengthOfIntegers(len, kernel, stride, padding, dilation);
  }

  /** When the last axis's length text is a whole number, that number becomes the last size. */
  lemma CorrectedSetsLength(ds: seq<Dim>, p: Params, len: int, n: int)
    requires |ds| >= 1 && ValidDims(ds) && ds[|ds| - 1] == Size(len)
    requires CalculateOutputLength(IntText(len), p) == IntText(n)
    ensures CorrectedOutputShape(Render(ds), p) == Render(ReplaceLast(ds, Size(n)))
  {
    CorrectedComputesLength(ds, p);
    DimTextsReplaceLast(ds, Size(n));
  }

  /** "(32, 3, 20)" pooled with kernel 2 and stride 2: as written the last axis is "Lout". */
  lemma PoolingExampleAsWritten()
    ensures OutputShape(Render([Size(32), Size(3), Size(20)]), Params(Some(Int(2)), Some(Int(2)), Some(Int(0)), Some(Int(1))))
            == Render([Size(32), Size(3), Sym("Lout")])
  {
    var ds := [Size(32), Size(3), Size(20)];
    assert ReplaceLast(ds, Sym("Lout")) == [Size(32), Size(3), Sym("Lout")];
    AsWrittenLoutOfDims(ds, Params(Some(Int(2)), Some(Int(2)), Some(Int(0)), Some(Int(1))));
  }

  /** On a rendered list of axes of rank two or more, the code as written names the last axis "Lout". */
  lemma AsWrittenLoutOfDims(ds: seq<Dim>, p: Params)
    requires |ds| >= 2 && ValidDims(ds)
    ensures OutputShape(Render(ds), p) == Render(ReplaceLast(ds, Sym("Lout")))
  {
    DimTextsWellFormed(ds);
    AsWrittenAlwaysLout(DimTexts(ds), p);
    DimTextsReplaceLast(ds, Sym("Lout"));
  }

  /** The shape effect as written; the parameters are the local field values. */
  function ShapeEffect(data: Data, p: Params): (patch: Data)
    ensures patch.Keys == {"outputShape"}
    ensures patch["outputShape"] == Str(OutputShape(ShapeText(Get(data, "inputShape")), p))
  {
    map["outputShape" := Str(OutputShape(ShapeText(Get(data, "inputShape")), p))]
  }

  /** The shape effect with the corrected rule, the intended half of the pooling finding. */
  function CorrectedShapeEffect(data: Data, p: Params): (patch: Data)
    ensures patch.Keys == {"outputShape"}
    ensures patch["outputShape"] == Str(CorrectedOutputShape(ShapeText(Get(data, "inputShape")), p))
  {
    map["outputShape" := Str(CorrectedOutputShape(ShapeText(Get(data, "inputShape")), p))]
  }

  /**
   * As written, the effect on a connected node whose input is a rendered
   * shape of rank two or more writes that shape with "Lout" as its last axis.
   */
  lemma ShapeEffectWritesLout(data: Data, ds: seq<Dim>, p: Params)
    requires |ds| >= 2 && ValidDims(ds) && Get(data, "inputShape") == Str(Render(ds))
    ensures ShapeEffect(data, p)["outputShape"] == Str(Render(ReplaceLast(ds, Sym("Lout"))))
  {
    AsWrittenLoutOfDims(ds, p);
  }

  /** `ceilMode` takes no part in the length: toggling it leaves both shape effects unchanged. */
  lemma CeilModeIgnored(data: Data, p: Params, checked: bool)
    ensures ShapeEffect(Merge(data, map["ceilMode" := Bool(checked)]), p) == ShapeEffect(data, p)
    ensures CorrectedShapeEffect(Merge(data, map["ceilMode" := Bool(checked)]), p) == CorrectedShapeEffect(data, p)
  {
    assert Get(Merge(data, map["ceilMode" := Bool(checked)]), "inputShape") == Get(data, "inputShape");
  }

  /** Kernel size, stride and dilation are committed only when positive, padding only when not negative. */
  lemma ParameterFieldsAccept(text: string)
    ensures var x := JsNumber(text);
            (CheckField(KernelSizeField.rule, text).Accepted? <==> text == "" || (x.Num? && ToReal(x) > 0.0))
            && (CheckField(StrideField.rule, text).Accepted? <==> text == "" || (x.Num? && ToReal(x) > 0.0))
            && (CheckField(DilationField.rule, text).Accepted? <==> text == "" || (x.Num? && ToReal(x) > 0.0))
            && (CheckField(PaddingField.rule, text).Accepted? <==> text == "" || (x.Num? && ToReal(x) >= 0.0))
  {
    AcceptsMeansBounds(PositiveValue, JsNumber(text));
    AcceptsMeansBounds(NonNegativeValue, JsNumber(text));
  }
}
