/**
 * The node kinds of the editor: the registry from a kind's key to the
 * component that renders it, and the data record a newly placed node of each
 * kind starts from. A kind is an enumeration here and its key the string the
 * registry uses; numbers are written as `JsNum` (`1e-5` is 1 / 10^5).
 */
module NodeCatalog {
  import opened Wrappers
  import opened Numbers
  import opened Values
  import Shapes
  import InputNodes

  /** Every key of the component registry. */
  datatype Kind =
    | PositionLogger
    | TextUpdater
    | FullyConnected
    | RegressionOutput
    | Tanh
    | Relu
    | Sigmoid
    | Linear
    | TabularInput
    | TimeseriesInput
    | ImageInput
    | Conv1D
    | Conv2D
    | LSTM
    | GRU
    | MaxPool1D
    | MaxPool2D
    | LayerNorm
    | BatchNorm1D
    | BatchNorm2D
    | Dropout
    | Dropout1D
    | Dropout2D
    | Permute
    | Concat
    | Flatten

  /** The registry key of a kind. */
  function KindName(k: Kind): string {
    match k
    case PositionLogger => "position-logger"
    case TextUpdater => "text-updater"
    case FullyConnected => "fully-connected-layer"
    case RegressionOutput => "regression-output"
    case Tanh => "tanh"
    case Relu => "relu"
    case Sigmoid => "sigmoid"
    case Linear => "linear"
    case TabularInput => "tabular-input"
    case TimeseriesInput => "timeseries-input"
    case ImageInput => "image-input"
    case Conv1D => "conv1d"
    case Conv2D => "conv2d"
    case LSTM => "lstm"
    case GRU => "gru"
    case MaxPool1D => "maxpool1d"
    case MaxPool2D => "maxpool2d"
    case LayerNorm => "layernorm"
    case BatchNorm1D => "batchnorm1d"
    case BatchNorm2D => "batchnorm2d"
    case Dropout => "dropout"
    case Dropout1D => "dropout1d"
    case Dropout2D => "dropout2d"
    case Permute => "permute"
    case Concat => "concat"
    case Flatten => "flatten"
  }

  /** Looking a key up in the registry. */
  function ParseKind(s: string): Option<Kind> {
    match s
    case "position-logger" => Some(PositionLogger)
    case "text-updater" => Some(TextUpdater)
    case "fully-connected-layer" => Some(FullyConnected)
    case "regression-output" => Some(RegressionOutput)
    case "tanh" => Some(Tanh)
    case "relu" => Some(Relu)
    case "sigmoid" => Some(Sigmoid)
    case "linear" => Some(Linear)
    case "tabular-input" => Some(TabularInput)
    case "timeseries-input" => Some(TimeseriesInput)
    case "image-input" => Some(ImageInput)
    case "conv1d" => Some(Conv1D)
    case "conv2d" => Some(Conv2D)
    case "lstm" => Some(LSTM)
    case "gru" => Some(GRU)
    case "maxpool1d" => Some(MaxPool1D)
    case "maxpool2d" => Some(MaxPool2D)
    case "layernorm" => Some(LayerNorm)
    case "batchnorm1d" => Some(BatchNorm1D)
    case "batchnorm2d" => Some(BatchNorm2D)
    case "dropout" => Some(Dropout)
    case "dropout1d" => Some(Dropout1D)
    case "dropout2d" => Some(Dropout2D)
    case "permute" => Some(Permute)
    case "concat" => Some(Concat)
    case "flatten" => Some(Flatten)
    case _ => None
  }

  /** The component registered under each key. */
  function Component(k: Kind): string {
    match k
    case PositionLogger => "PositionLoggerNode"
    case TextUpdater => "TextUpdaterNode"
    case FullyConnected => "FullyConnectedLayerNode"
    case RegressionOutput => "RegressionOutputNode"
    case Tanh => "TanhNode"
    case Relu => "ReLULayerNode"
    case Sigmoid => "SigmoidNode"
    case Linear => "LinearLayerNode"
    case TabularInput => "TabularInputNode"
    case TimeseriesInput => "TimeseriesInputNode"
    case ImageInput => "ImageInputNode"
    case Conv1D => "Conv1DLayerNode"
    case Conv2D => "Conv2DLayerNode"
    case LSTM => "LSTMLayerNode"
    case GRU => "GRULayerNode"
    case MaxPool1D => "MaxPool1DLayerNode"
    case MaxPool2D => "MaxPool2DLayerNode"
    case LayerNorm => "LayerNormLayerNode"
    case BatchNorm1D => "BatchNorm1DLayerNode"
    case BatchNorm2D => "BatchNorm2DLayerNode"
    case Dropout => "DropoutLayerNode"
    case Dropout1D => "Dropout1DLayerNode"
    case Dropout2D => "DropoutLayerNode"
    case Permute => "PermuteNode"
    case Concat => "ConcatNode"
    case Flatten => "FlattenNode"
  }

  /** `inputShape`, `outputShape` and both orders, all null: what most kinds start with. */
  function ShapeFields(): Data {
    map["inputShape" := Null, "outputShape" := Null, "inputShapeOrder" := Null, "outputShapeOrder" := Null]
  }

  /** The kernel, stride, padding and dilation defaults the convolution and pooling kinds share. */
  function WindowFields(): Data {
    map["kernelSize" := Null, "stride" := Number(Int(1)), "padding" := Number(Int(0)), "dilation" := Number(Int(1))]
  }

  /** The recurrent parameters both recurrent kinds share; LSTM adds `projSize`. */
  function RecurrentFields(): Data {
    map["hiddenSize" := Null, "numLayers" := Number(Int(1)), "dropout" := Number(Int(0)), "bidirectional" := Bool(false)]
  }

  function BatchNormFields(): Data {
    map["eps" := Number(Num(1, 5)), "momentum" := Number(Num(1, 1)), "affine" := Bool(true),
        "trackRunningStats" := Bool(true)]
  }

  function DropoutFields(): Data {
    map["p" := Number(Num(5, 1)), "inplace" := Bool(false)]
  }

  function ReluData(): Data {
    map["inputShape" := Null, "outputShape" := Null, "inpalce" := Bool(false), "outputShapeOrder" := Null]
  }

  function TabularInputData(): Data {
    map["numFeatures" := Null, "batchSize" := Null, "outputShape" := Null, "outputShapeOrder" := Str("NC")]
  }

  function TimeseriesInputData(): Data {
    map["numFeatures" := Null, "batchSize" := Number(Int(32)), "sequenceLength" := Null,
        "outputShapeOrder" := Str("NCL")]
  }

  function ImageInputData(): Data {
    map["numChannels" := Null, "batchSize" := Null, "height" := Null, "width" := Null, "outputShape" := Null,
        "outputShapeOrder" := Str("NCHW")]
  }

  function ConcatData(): Data {
    map["outputShape" := Null, "dim" := Null, "outputShapeOrder" := Null]
  }

  /** The fields each kind adds to the shape fields. */
  function ExtraFields(k: Kind): Data {
    match k
    case Linear => map["numNeurons" := Null, "bias" := Bool(true)]
    case Conv1D | Conv2D => WindowFields() + map["numFilters" := Null]
    case MaxPool1D | MaxPool2D => WindowFields()
    case LSTM => RecurrentFields() + map["projSize" := Number(Int(0))]
    case GRU => RecurrentFields()
    case LayerNorm =>
      map["normalizedShape" := Items([]), "eps" := Number(Num(1, 5)), "elementwiseAffine" := Bool(true),
          "bias" := Bool(true)]
    case BatchNorm1D | BatchNorm2D => BatchNormFields()
    case Dropout | Dropout1D | Dropout2D => DropoutFields()
    case Flatten => map["flattenStart" := Number(Int(0)), "flattenEnd" := Number(Int(0))]
    case _ => map[]
  }

  /** The record a new node of each kind starts from; the four oldest kinds have none. */
  function InitialData(k: Kind): Option<Data> {
    match k
    case PositionLogger | TextUpdater | FullyConnected | RegressionOutput => None
    case Relu => Some(ReluData())
    case TabularInput => Some(TabularInputData())
    case TimeseriesInput => Some(TimeseriesInputData())
    case ImageInput => Some(ImageInputData())
    case Concat => Some(ConcatData())
    case _ => Some(ShapeFields() + ExtraFields(k))
  }

  /** The kinds whose record is the four shape fields followed by fields of their own. */
  predicate SpreadsShapeFields(k: Kind) {
    k !in {PositionLogger, TextUpdater, FullyConnected, RegressionOutput, Relu, TabularInput, TimeseriesInput,
           ImageInput, Concat}
  }

  /** A key of `initialData`: a kind a node can be created as. */
  predicate HasDefaults(s: string) {
    ParseKind(s).Some? && InitialData(ParseKind(s).value).Some?
  }

  /** The data a new node gets from its key. */
  function DefaultData(s: string): Data
    requires HasDefaults(s)
  {
    InitialData(ParseKind(s).value).value
  }

  /** The order text a kind starts with, or "" when it starts with none. */
  function DefaultOrder(k: Kind): (order: string)
    requires InitialData(k).Some?
    ensures order != "" <==> var v := Get(InitialData(k).value, "outputShapeOrder"); v.Str? && v.s != ""
  {
    ShapeText(Get(InitialData(k).value, "outputShapeOrder"))
  }

  /** Each kind is found under its own key, and a key finds only the kind it names. */
  lemma ParseKindOfName(k: Kind)
    ensures ParseKind(KindName(k)) == Some(k)
  {
    match k
    case PositionLogger | TextUpdater | FullyConnected | RegressionOutput
       | Tanh | Relu | Sigmoid | Linear | TabularInput =>
      ParseEarlyKindName(k);
    case TimeseriesInput | ImageInput | Conv1D | Conv2D | LSTM | GRU | MaxPool1D | MaxPool2D | LayerNorm =>
      ParseLayerKindName(k);
    case _ =>
      ParseLateKindName(k);
  }

  /** `ParseKindOfName` for the first nine keys of the registry. */
  lemma ParseEarlyKindName(k: Kind)
    requires k in {PositionLogger, TextUpdater, FullyConnected, RegressionOutput, Tanh, Relu, Sigmoid, Linear,
                   TabularInput}
    ensures ParseKind(KindName(k)) == Some(k)
  {
  }

  /** `ParseKindOfName` for the next nine keys. */
  lemma ParseLayerKindName(k: Kind)
    requires k in {TimeseriesInput, ImageInput, Conv1D, Conv2D, LSTM, GRU, MaxPool1D, MaxPool2D, LayerNorm}
    ensures ParseKind(KindName(k)) == Some(k)
  {
  }

  /** `ParseKindOfName` for the last eight keys. */
  lemma ParseLateKindName(k: Kind)
    requires k in {BatchNorm1D, BatchNorm2D, Dropout, Dropout1D, Dropout2D, Permute, Concat, Flatten}
    ensures ParseKind(KindName(k)) == Some(k)
  {
  }

  lemma KindNameOfParse(s: string)
    ensures ParseKind(s).Some? ==> KindName(ParseKind(s).value) == s
  {
  }

  /**
   * Every key of `initialData` has a registered component; the registry has
   * exactly four more kinds, and the 2-D dropout reuses the dropout component.
   */
  lemma EveryKindRegistered(k: Kind)
    ensures InitialData(k).None? <==> k in {PositionLogger, TextUpdater, FullyConnected, RegressionOutput}
    ensures HasDefaults(KindName(k)) <==> InitialData(k).Some?
    ensures Component(Dropout2D) == Component(Dropout) == "DropoutLayerNode"
  {
    ParseKindOfName(k);
  }

  /** A registry key has a default record exactly when its kind is not a legacy one. */
  lemma RegisteredKinds()
    ensures forall k :: HasDefaults(KindName(k)) <==> k !in {PositionLogger, TextUpdater, FullyConnected, RegressionOutput}
  {
    forall k {
      EveryKindRegistered(k);
    }
  }

  /** The input kinds start with the orders "NC", "NCL" and "NCHW". */
  lemma InputOrders()
    ensures DefaultOrder(TabularInput) == "NC" && |DefaultOrder(TabularInput)| == 2
    ensures DefaultOrder(TimeseriesInput) == "NCL" && |DefaultOrder(TimeseriesInput)| == 3
    ensures DefaultOrder(ImageInput) == "NCHW" && |DefaultOrder(ImageInput)| == 4
  {
  }

  /** No field a kind adds is an order. */
  lemma ExtraFieldsHaveNoOrder(k: Kind)
    ensures "outputShapeOrder" !in ExtraFields(k)
  {
  }

  /** Every other kind starts without an order. */
  lemma NoOtherOrders(k: Kind)
    requires InitialData(k).Some? && k !in {TabularInput, TimeseriesInput, ImageInput}
    ensures DefaultOrder(k) == ""
  {
    if k != Relu && k != Concat {
      ExtraFieldsHaveNoOrder(k);
      assert Get(InitialData(k).value, "outputShapeOrder") == Null;
    }
  }

  /** No field a kind adds is an output shape. */
  lemma ExtraFieldsHaveNoOutput(k: Kind)
    ensures "outputShape" !in ExtraFields(k)
  {
  }

  /**
   * Every kind starts with no output shape (null, or absent for the
   * time-series input), so a new node forwards nothing until its rule runs.
   */
  lemma NoInitialOutput(k: Kind)
    requires InitialData(k).Some?
    ensures !Values.Truthy(Get(InitialData(k).value, "outputShape"))
    ensures k == TimeseriesInput <==> "outputShape" !in InitialData(k).value
  {
    if SpreadsShapeFields(k) {
      ShapeFieldsRecord(k);
      ExtraFieldsHaveNoOutput(k);
      NullAfterShapeFields(ExtraFields(k), "outputShape");
    } else {
      OwnRecordOutput(k);
    }
  }

  /** A kind that spreads the shape fields starts from them and its own fields. */
  lemma ShapeFieldsRecord(k: Kind)
    requires SpreadsShapeFields(k)
    ensures InitialData(k) == Some(ShapeFields() + ExtraFields(k))
  {
  }

  /** A shape field that the own fields do not override stays null. */
  lemma NullAfterShapeFields(extra: Data, key: string)
    requires key in ShapeFields() && key !in extra
    ensures key in ShapeFields() + extra && (ShapeFields() + extra)[key] == Null
  {
  }

  /** `NoInitialOutput` for the kinds with a record of their own. */
  lemma OwnRecordOutput(k: Kind)
    requires InitialData(k).Some? && !SpreadsShapeFields(k)
    ensures k == TimeseriesInput ==> "outputShape" !in InitialData(k).value
    ensures k != TimeseriesInput ==> "outputShape" in InitialData(k).value && InitialData(k).value["outputShape"] == Null
  {
  }

  /** The window parameters a record holds: stride 1, padding 0, dilation 1, no kernel size. */
  predicate WindowDefaultsIn(d: Data) {
    Get(d, "stride") == Number(Int(1)) && Get(d, "padding") == Number(Int(0))
    && Get(d, "dilation") == Number(Int(1)) && Get(d, "kernelSize") == Null
  }

  /** The convolution and pooling kinds start with the same window parameters. */
  lemma WindowDefaults(k: Kind)
    requires k in {Conv1D, Conv2D, MaxPool1D, MaxPool2D}
    ensures WindowDefaultsIn(InitialData(k).value)
  {
    assert WindowDefaultsIn(ShapeFields() + WindowFields());
    if k == Conv1D || k == Conv2D {
      assert WindowDefaultsIn(ShapeFields() + (WindowFields() + map["numFilters" := Null]));
    }
  }

  /** Spreading is associative. */
  lemma SpreadAssociative(a: Data, b: Data, c: Data)
    ensures (a + b) + c == a + (b + c)
  {
  }

  /** LSTM starts with one layer, no dropout and no projection. */
  lemma RecurrentDefaults()
    ensures var d := InitialData(LSTM).value;
            Get(d, "numLayers") == Number(Int(1)) && Get(d, "dropout") == Number(Int(0))
            && Get(d, "projSize") == Number(Int(0))
  {
  }

  /** LSTM starts one-directional and without a hidden size. */
  lemma RecurrentUnsetDefaults()
    ensures var d := InitialData(LSTM).value;
            Get(d, "bidirectional") == Bool(false) && Get(d, "hiddenSize") == Null
  {
  }

  /** GRU starts from the same record as LSTM without the projection size. */
  lemma GRUIsLSTMWithoutProjection()
    ensures InitialData(LSTM).value == InitialData(GRU).value + map["projSize" := Number(Int(0))]
    ensures "projSize" !in InitialData(GRU).value
  {
    SpreadAssociative(ShapeFields(), RecurrentFields(), map["projSize" := Number(Int(0))]);
  }

  /** A new flatten node flattens the axes from 0 to 0. */
  lemma FlattenDefaults()
    ensures Get(InitialData(Flatten).value, "flattenStart") == Number(Int(0))
    ensures Get(InitialData(Flatten).value, "flattenEnd") == Number(Int(0))
  {
  }

  /**
   * The concat kind has no input-shape field and no axis; the relu kind has no
   * input order and spells its flag "inpalce".
   */
  lemma RecordQuirks()
    ensures "inputShape" !in InitialData(Concat).value && Get(InitialData(Concat).value, "dim") == Null
    ensures "inputShapeOrder" !in InitialData(Relu).value
    ensures "inpalce" in InitialData(Relu).value && "inplace" !in InitialData(Relu).value
  {
  }

  /** A new time-series node's shape shows its default batch size. */
  lemma TimeseriesShapeFromDefaults()
    ensures var d := InitialData(TimeseriesInput).value;
            InputNodes.TimeseriesShape(InputNodes.Stored(d, "batchSize"), InputNodes.Stored(d, "numFeatures"),
                                       InputNodes.Stored(d, "sequenceLength")) == "(32, C, L)"
  {
    TimeseriesShapeOfRecord(InitialData(TimeseriesInput).value);
  }

  /** `TimeseriesShapeFromDefaults` on the time-series record itself. */
  lemma TimeseriesShapeOfRecord(d: Data)
    requires d == TimeseriesInputData()
    ensures InputNodes.TimeseriesShape(InputNodes.Stored(d, "batchSize"), InputNodes.Stored(d, "numFeatures"),
                                       InputNodes.Stored(d, "sequenceLength")) == "(32, C, L)"
  {
    assert InputNodes.Stored(d, "batchSize") == Some(Int(32));
    assert InputNodes.Stored(d, "numFeatures") == None && InputNodes.Stored(d, "sequenceLength") == None;
    assert NumberText(Int(32)) == "32" by {
      assert NatText(3) == "3";
    }
  }

  /** A new tabular node shows both axis letters. */
  lemma TabularShapeFromDefaults()
    ensures var d := InitialData(TabularInput).value;
            InputNodes.TabularShape(InputNodes.Stored(d, "batchSize"), InputNodes.Stored(d, "numFeatures")) == "(N, C)"
  {
    var d := InitialData(TabularInput).value;
    assert InputNodes.Stored(d, "batchSize") == None && InputNodes.Stored(d, "numFeatures") == None;
  }

  /** A new image node's shape has one axis per letter of its default order. */
  lemma ImageShapeFitsOrder()
    ensures var d := InitialData(ImageInput).value;
            |Shapes.Tokens(InputNodes.ImageShape(InputNodes.Stored(d, "batchSize"), InputNodes.Stored(d, "numChannels"),
                                                 InputNodes.Stored(d, "height"), InputNodes.Stored(d, "width")))|
            == |DefaultOrder(ImageInput)|
  {
    var d := InitialData(ImageInput).value;
    assert InputNodes.Stored(d, "batchSize") == None && InputNodes.Stored(d, "numChannels") == None;
    assert InputNodes.Stored(d, "height") == None && InputNodes.Stored(d, "width") == None;
    InputNodes.ImageTokens(None, None, None, None);
    InputOrders();
  }
}
