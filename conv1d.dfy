/**
 * The 1-D convolution node. Its effect computes
 * `Math.floor((inputSize + 2 * padding - dilation * (kernelSize - 1) - 1) / stride + 1)`
 * from `data.inputSize` and the panel's local parameter values, and the
 * panel shows `(${inputSize}, ${outputSize})`. The values are JavaScript
 * values: `null` counts as 0, `undefined` as NaN, and a text input size is
 * concatenated with `2 * padding` by `+` before `-` turns it into a number.
 */
module Conv1DLayerNode {
  import opened Numbers
  import opened Values
  import opened Shapes
  import Text

  /** The local state the effect reads, and the two fields it does not. */
  datatype ConvParams = ConvParams(filters: Value, kernelSize: Value, stride: Value,
                                   padding: Value, dilation: Value, bias: Value)

  /** `inputSize + 2 * padding` and the rest of the formula, with JavaScript's `+`. */
  function ConvLength(inputSize: Value, p: ConvParams): (l: Length)
    ensures !inputSize.Str? && !inputSize.Items? ==>
              l == OutputLength(ToNumber(inputSize), ToNumber(p.kernelSize), ToNumber(p.stride),
                                ToNumber(p.padding), ToNumber(p.dilation))
  {
    var twoPadding := MulInt(ToNumber(p.padding), 2);
    if inputSize.Str? || inputSize.Items? then
      // text + number concatenates; the following `-` reads the text back as a number
      OutputLength(JsNumber(ValueText(inputSize) + NumberText(twoPadding)), ToNumber(p.kernelSize),
                   ToNumber(p.stride), Int(0), ToNumber(p.dilation))
    else
      OutputLength(ToNumber(inputSize), ToNumber(p.kernelSize), ToNumber(p.stride),
                   ToNumber(p.padding), ToNumber(p.dilation))
  }

  /** The "Output Size" text of the panel. */
  function Display(inputSize: Value, p: ConvParams): (t: string)
    ensures |t| >= 2 && t[0] == '(' && t[|t| - 1] == ')'
  {
    "(" + ValueText(inputSize) + ", " + LengthText(ConvLength(inputSize, p)) + ")"
  }

  /** Whole-number parameters, as the panel holds them once committed. */
  function WholeParams(kernel: int, stride: int, padding: int, dilation: int): ConvParams {
    ConvParams(Null, Number(Int(kernel)), Number(Int(stride)), Number(Int(padding)), Number(Int(dilation)), Bool(true))
  }

  /** On whole numbers the length is the integer floor of the convolution formula. */
  lemma WholeLength(L: int, kernel: int, stride: int, padding: int, dilation: int)
    requires stride != 0
    ensures ConvLength(Number(Int(L)), WholeParams(kernel, stride, padding, dilation))
            == Finite(FloorDiv(L + 2 * padding - dilation * (kernel - 1) - 1, stride) + 1)
  {
    OutputLengthOfIntegers(L, kernel, stride, padding, dilation);
  }

  /** Length 10, kernel 3, stride 1, no padding, dilation 1: eight output positions. */
  lemma ConvExample()
    ensures ConvLength(Number(Int(10)), WholeParams(3, 1, 0, 1)) == Finite(8)
  {
    WholeLength(10, 3, 1, 0, 1);
  }

  /** With stride 1, no padding and dilation 1 a kernel of size k removes k - 1 positions. */
  lemma UnitStride(L: int, kernel: int)
    ensures ConvLength(Number(Int(L)), WholeParams(kernel, 1, 0, 1)) == Finite(L - kernel + 1)
  {
    UnitStrideLength(L, kernel);
  }

  /** The filter count and the bias flag take no part in the length. */
  lemma FiltersAndBiasIgnored(inputSize: Value, p: ConvParams, filters: Value, bias: Value)
    ensures ConvLength(inputSize, p.(filters := filters, bias := bias)) == ConvLength(inputSize, p)
    ensures Display(inputSize, p.(filters := filters, bias := bias)) == Display(inputSize, p)
  {
  }

  /**
   * The stores never write `inputSize` for this kind, so on the canvas it is
   * `undefined`: the length is NaN and the panel shows "(undefined, NaN)".
   */
  lemma UnsetInputSize(p: ConvParams)
    ensures ConvLength(Undefined, p) == NotANumber
    ensures Display(Undefined, p) == "(undefined, NaN)"
  {
  }

  /** A whole input size and length are shown as a rendered two-axis shape. */
  lemma DisplayOfWhole(L: int, kernel: int, stride: int, padding: int, dilation: int)
    requires stride != 0
    ensures Display(Number(Int(L)), WholeParams(kernel, stride, padding, dilation))
            == Render([Size(L), Size(FloorDiv(L + 2 * padding - dilation * (kernel - 1) - 1, stride) + 1)])
  {
    var out := FloorDiv(L + 2 * padding - dilation * (kernel - 1) - 1, stride) + 1;
    WholeLength(L, kernel, stride, padding, dilation);
    assert NumberText(Int(L)) == IntText(L);
    var texts := [IntText(L), IntText(out)];
    assert DimTexts([Size(L), Size(out)]) == texts;
    assert texts[1..] == [IntText(out)];
    assert Text.Join(texts, CommaSpace) == IntText(L) + ", " + IntText(out);
  }
}
