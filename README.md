# TensorCraft shape propagation and PyTorch generation, in Dafny

TensorCraft is a node editor for neural networks. The user places layer
nodes on a canvas and wires them together. Each node computes an output
tensor shape from its input shape and its parameters. The graph store
pushes that shape along every edge to the downstream nodes. A small
Python service then turns the graph into a PyTorch `nn.Module`.

This project models that core and proves properties of it:

- **Values and shapes** (`values`, `text`, `numbers`, `shapes`): the
  JavaScript values a node's `data` holds, with truthiness, shallow
  merge, `split`/`join`/`trim`/`replace`, `parseInt`, `Number` and
  `toString`. Shapes stay the display strings the editor stores, such as
  `"(N, 3, 224, 224)"`. A dimension view (`Size(n)` or a symbolic name)
  is tied to them by round-trip lemmas.
- **Node rules**, one module per component: the pass-through kinds,
  linear, dropout, layer norm, 1-D max pooling, 1-D convolution, LSTM,
  GRU, concat, flatten, permute, and the input nodes. Each shape rule is
  a function. Each effect is a patch of node data. Each handler that
  writes local state or `props.data` is a method on a small class.
- **Parameter fields** (`fields`): the debounced parse, validate and
  commit of the single and double numeric fields, and the validators.
- **Tables** (`nodecatalog`, `toolbox`, `selectimagetype`): the
  component registry and default records, the toolbox catalog with its
  search, and the image-type table.
- **Stores** (`propagation`, `edgelists`, `graphstore`, `legacystore`,
  `edgedeletion`):
  - the graph store and the legacy store are classes over a node list
    and an edge list;
  - their mutually recursive `updateNodeData`/`updateChildren` methods
    are proved against specification functions;
  - termination rests on a ghost rank that decreases along every edge;
  - the edge delete button acts on the legacy store;
  - the tabular and time-series input nodes, the relu node and the
    linear node also write to the legacy store. That store holds only its
    three seed nodes, so none of their writes reaches a node on the
    canvas, which runs on the graph store.
- **Code generation** (`compiler`, `generator`):
  - `process_node_data`, the layer table and the permute indexes;
  - the generator loop, as a method proved equal to a step function,
    with invariants about variable naming, layer numbering and the
    `x1` → `x` rename.

## Model

| member | source | states |
|---|---|---|
| PassThrough.ForwardEffect | src/nodes/ActivationFunctions/ReluNode.tsx:19-26 | the effect writes only the output key, and writes the forwarded input value (the input when truthy, "Not Connected" otherwise) |
| PassThrough.CopyOrderEffect | src/nodes/Dropout/DropoutLayerNode.tsx:44-46 | the order effect writes only `outputShapeOrder`, and writes the input order as it is, null and undefined included |
| PassThrough.FlagPatch | src/nodes/ActivationFunctions/ReluNode.tsx:28-30 | a checkbox handler writes its one key and nothing else, with the checked value |
| PassThrough.PassesThrough | src/nodes/Dropout/DropoutLayerNode.tsx:35-46 | once both effects are merged, a connected node shows its input shape as its output shape; an unconnected one shows "Not Connected"; the output order equals the input order |
| PassThrough.OrderUntouched | src/nodes/ActivationFunctions/TanhNode.tsx:18-25 | a kind with no order effect keeps its stored output order, and its output shape is always truthy after the effect |
| PassThrough.FlagLeavesShape | src/nodes/Normalization/LayerNormLayerNode.tsx:38-44 | a flag handler changes no shape, order or size key |
| LinearLayerNode.NeuronText | src/nodes/ActivationFunctions/LinearLayerNode.tsx:24 | a missing neuron count is shown as "H" |
| LinearLayerNode.OutputSize | src/nodes/ActivationFunctions/LinearLayerNode.tsx:20-30 | the output size is "Not Connected" exactly when there is no input size |
| LinearLayerNode.Effect | src/nodes/ActivationFunctions/LinearLayerNode.tsx:20-30 | the effect writes only `outputSize`, computed from `inputSize` and `numNeurons` |
| LinearLayerNode.ReplacesLastAxis | src/nodes/ActivationFunctions/LinearLayerNode.tsx:23-25 | on a rendered shape of rank two or more, only the last axis is replaced, by the neuron text |
| LinearLayerNode.ReplacesLastDim | src/nodes/ActivationFunctions/LinearLayerNode.tsx:23-25 | in dimension terms, a whole neuron count n turns the shape into the same shape with last axis n |
| LinearLayerNode.RankOneOutput | src/nodes/ActivationFunctions/LinearLayerNode.tsx:23-25 | a rank-one input loses its "(" and keeps a ")": the output is the neuron text followed by ")" |
| LinearLayerNode.NumNeuronsPatch | src/nodes/ActivationFunctions/LinearLayerNode.tsx:32-35 | the handler writes only `numNeurons`; it is null exactly for empty text, and otherwise `Number(text)` |
| LinearLayerNode.AnyNeuronCountStored | src/nodes/ActivationFunctions/LinearLayerNode.tsx:32-35 | any number typed is stored as it is, zero and negative included (there is no range check) |
| DropoutLayerNode.ProbabilityAccepted | src/nodes/Dropout/DropoutLayerNode.tsx:19 | a typed `p` is committed exactly when it is empty or a number in [0, 1] |
| LayerNormLayerNode.DimensionOptions | src/nodes/Normalization/LayerNormLayerNode.tsx:92-95 | there is one option per letter of the input order, and option i has value i and shows letter i; there are none without an order |
| LayerNormLayerNode.NormalizeShapePatch | src/nodes/Normalization/LayerNormLayerNode.tsx:46-50 | the handler writes only `normalizedShape` |
| LayerNormLayerNode.ChoosingOptionStoresIndex | src/nodes/Normalization/LayerNormLayerNode.tsx:92-95 | choosing the option of axis i stores the integer i |
| LayerNormLayerNode.EpsAccepted | src/nodes/Normalization/LayerNormLayerNode.tsx:21 | a typed `eps` is committed exactly when it is empty or a positive number |
| Conv1DLayerNode.ConvLength | src/nodes/Convolutions/Conv1DLayerNode.tsx:27 | for a non-text input size the length is the convolution formula on the numeric values |
| Conv1DLayerNode.Display | src/nodes/Convolutions/Conv1DLayerNode.tsx:211 | the output text is parenthesised |
| Conv1DLayerNode.WholeLength | src/nodes/Convolutions/Conv1DLayerNode.tsx:27 | on whole numbers the length is floor((L + 2p - d(k - 1) - 1) / s) + 1 |
| Conv1DLayerNode.ConvExample | src/nodes/Convolutions/Conv1DLayerNode.tsx:27 | length 10 with kernel 3, stride 1, no padding and dilation 1 gives 8 |
| Conv1DLayerNode.UnitStride | src/nodes/Convolutions/Conv1DLayerNode.tsx:27 | with stride 1, no padding and dilation 1, a kernel of size k removes k - 1 positions |
| Conv1DLayerNode.FiltersAndBiasIgnored | src/nodes/Convolutions/Conv1DLayerNode.tsx:25-29 | the filter count and the bias flag change neither the length nor the display |
| Conv1DLayerNode.UnsetInputSize | src/nodes/Convolutions/Conv1DLayerNode.tsx:27 | with no input size the length is NaN and the panel shows "(undefined, NaN)" |
| Conv1DLayerNode.DisplayOfWhole | src/nodes/Convolutions/Conv1DLayerNode.tsx:211 | whole sizes are shown as the rendered two-axis shape (L, length) |
| MaxPool1DLayerNode.CalculateOutputLength | src/nodes/Pooling/MaxPool1DLayerNode.tsx:58-64 | the length is "Lout" when the whitespace-free token is not numeric or any parameter is unset |
| MaxPool1DLayerNode.LengthOfWholeNumber | src/nodes/Pooling/MaxPool1DLayerNode.tsx:58-64 | with all parameters set, a whole length goes through the floor formula |
| MaxPool1DLayerNode.ClosedTokenIsLout | src/nodes/Pooling/MaxPool1DLayerNode.tsx:58-64 | a token that still ends with ")" is not numeric, so its length is "Lout" |
| MaxPool1DLayerNode.OutputShape | src/nodes/Pooling/MaxPool1DLayerNode.tsx:66-76 | the output shape as written is "Not Connected" exactly when there is no input shape |
| MaxPool1DLayerNode.AsWrittenAlwaysLout | src/nodes/Pooling/MaxPool1DLayerNode.tsx:69-71 | as written, every rendered shape of rank two or more gets "Lout" as its last axis, whatever the parameters |
| MaxPool1DLayerNode.AsWrittenLoutOfDims | src/nodes/Pooling/MaxPool1DLayerNode.tsx:69-71 | as written, a rendered shape of rank two or more keeps all its axes but the last, which becomes "Lout" |
| MaxPool1DLayerNode.LoutOfRendered | src/nodes/Pooling/MaxPool1DLayerNode.tsx:69-70 | the last raw token of a rendered shape always gets the length "Lout" |
| MaxPool1DLayerNode.LastRawToken | src/nodes/Pooling/MaxPool1DLayerNode.tsx:69 | the last comma-split token of a rendered shape ends with ")" |
| MaxPool1DLayerNode.AsWrittenRankOne | src/nodes/Pooling/MaxPool1DLayerNode.tsx:69-71 | as written, a rank-one shape loses both parentheses and becomes "Lout)" |
| MaxPool1DLayerNode.CorrectedOutputShape | src/nodes/Pooling/MaxPool1DLayerNode.tsx:66-76 | the corrected rule is "Not Connected" exactly when there is no input shape |
| MaxPool1DLayerNode.CorrectedComputesLength | src/nodes/Pooling/MaxPool1DLayerNode.tsx:69-71 | with the correction, the last axis becomes the length computed from its own text, and the other axes are kept |
| MaxPool1DLayerNode.WholeLength | src/nodes/Pooling/MaxPool1DLayerNode.tsx:63 | whole parameters with a positive stride give floor((L + 2p - d(k - 1) - 1) / s) + 1 |
| MaxPool1DLayerNode.CorrectedSetsLength | src/nodes/Pooling/MaxPool1DLayerNode.tsx:69-71 | with the correction, a whole last size whose length text is n becomes the size n, and the other axes are kept |
| MaxPool1DLayerNode.PoolingExampleAsWritten | src/nodes/Pooling/MaxPool1DLayerNode.tsx:69-71 | as written, "(32, 3, 20)" pooled with kernel 2 and stride 2 gives "(32, 3, Lout)" |
| MaxPool1DLayerNode.ShapeEffect | src/nodes/Pooling/MaxPool1DLayerNode.tsx:66-76 | the effect writes only `outputShape`, by the rule as written |
| MaxPool1DLayerNode.CorrectedShapeEffect | src/nodes/Pooling/MaxPool1DLayerNode.tsx:66-76 | the corrected effect writes only `outputShape`, by the corrected rule |
| MaxPool1DLayerNode.ShapeEffectWritesLout | src/nodes/Pooling/MaxPool1DLayerNode.tsx:66-76 | as written, the effect on a rendered input shape of rank two or more writes that shape with "Lout" as its last axis |
| MaxPool1DLayerNode.CeilModeIgnored | src/nodes/Pooling/MaxPool1DLayerNode.tsx:54-56 | toggling `ceilMode` changes neither the as-written nor the corrected shape effect |
| MaxPool1DLayerNode.ParameterFieldsAccept | src/nodes/Pooling/MaxPool1DLayerNode.tsx:23-24 | kernel size, stride and dilation are committed only when positive, padding only when not negative, and empty text always |
| LSTMLayerNode.OutputShape | src/nodes/RNN/LSTMLayerNode.tsx:51-65 | the output shape is "Not Connected" exactly when there is no input shape |
| LSTMLayerNode.ShapeEffect | src/nodes/RNN/LSTMLayerNode.tsx:51-65 | the effect writes only `outputShape`, with `bidirectional` read from the node's data |
| LSTMLayerNode.FeatureSize | src/nodes/RNN/LSTMLayerNode.tsx:55-58 | in numbers: a positive projection wins and is never doubled; otherwise the hidden size is doubled when bidirectional; with neither, "Hout" |
| LSTMLayerNode.KeepsFirstTwoAxes | src/nodes/RNN/LSTMLayerNode.tsx:54-60 | on a rendered shape of rank three or more, the output is the first two axes and the feature size |
| LSTMLayerNode.RankTwo | src/nodes/RNN/LSTMLayerNode.tsx:54-60 | a rank-two input keeps its ")" inside: "(N, L)" gives "(N, L), H)" |
| LSTMLayerNode.RankOne | src/nodes/RNN/LSTMLayerNode.tsx:54-60 | a rank-one input reads the missing token as "undefined": "(L)" gives "(L), undefined, H)" |
| LSTMLayerNode.ParameterFieldsAccept | src/nodes/RNN/LSTMLayerNode.tsx:22-23 | hidden size and layer count are committed only when positive, dropout and projection only when not negative |
| GRULayerNode.FeatureText | src/nodes/RNN/GRULayerNode.tsx:51 | the feature size is "Hout" exactly when there is no hidden size |
| GRULayerNode.OutputShape | src/nodes/RNN/GRULayerNode.tsx:46-58 | the output shape is "Not Connected" exactly when there is no input shape |
| GRULayerNode.ShapeEffect | src/nodes/RNN/GRULayerNode.tsx:46-58 | the effect writes only `outputShape` |
| GRULayerNode.SameAsLSTMWithoutProjection | src/nodes/RNN/GRULayerNode.tsx:46-58 | a GRU computes the same output shape as an LSTM with no projection, or with projection size 0 |
| GRULayerNode.KeepsFirstTwoAxes | src/nodes/RNN/GRULayerNode.tsx:49-53 | on a rendered shape of rank three or more, the output is the first two axes and the hidden-size feature |
| GRULayerNode.ParameterFieldsAccept | src/nodes/RNN/GRULayerNode.tsx:21-22 | hidden size and layer count are committed only when positive, dropout only when not negative |
| ConcatNode.FirstIncoming | src/nodes/TensorOperations/ConcatNode.tsx:35-37 | the result is -1 exactly when no edge enters the node on that handle; otherwise it is the position of the first such edge |
| ConcatNode.PortSource | src/nodes/TensorOperations/ConcatNode.tsx:36-37 | a port's source is a non-empty source of some edge into the node on that handle; with no such edge the port is null |
| ConcatNode.PortPatch | src/nodes/TensorOperations/ConcatNode.tsx:42-44 | the port effect writes the placeholder exactly when an operand is missing |
| ConcatNode.FirstChar | src/nodes/TensorOperations/ConcatNode.tsx:73 | the result is the first character of a non-empty token, and "" for the empty one |
| ConcatNode.AxisRules | src/nodes/TensorOperations/ConcatNode.tsx:67-86 | there is one axis result per axis, and axis i follows the rule at index i |
| ConcatNode.Kept | src/nodes/TensorOperations/ConcatNode.tsx:86 | the filter never lengthens the list |
| ConcatNode.ConcatTokens | src/nodes/TensorOperations/ConcatNode.tsx:60-93 | the rank error is reported exactly when the token counts differ |
| ConcatNode.Concat | src/nodes/TensorOperations/ConcatNode.tsx:56-93 | the rank error is reported exactly when the parsed shapes have different lengths |
| ConcatNode.UpdateOutputShape | src/nodes/TensorOperations/ConcatNode.tsx:47-97 | a missing operand shape gives the placeholder with no error; any error comes with the placeholder and a null order; only the shape and order keys are written |
| ConcatNode.DimOptions | src/nodes/TensorOperations/ConcatNode.tsx:145-148 | there is one option per token of operand 1's shape, none while it is not connected, and option i has value i |
| ConcatNode.ConcatDims | src/nodes/TensorOperations/ConcatNode.tsx:60-93 | a joined result has the operands' common rank |
| ConcatNode.AxisRuleOfSizes | src/nodes/TensorOperations/ConcatNode.tsx:78-85 | two sizes add on the concatenation axis; elsewhere they are kept when equal and clash otherwise |
| ConcatNode.TextsEqualIff | src/nodes/TensorOperations/ConcatNode.tsx:78-85 | two numbers have equal texts exactly when they are equal |
| ConcatNode.AxisRuleOfParsed | src/nodes/TensorOperations/ConcatNode.tsx:78-85 | two texts that parse to numbers add on the concatenation axis; elsewhere they are kept when equal and clash otherwise |
| ConcatNode.AxisRuleOfNumbers | src/nodes/TensorOperations/ConcatNode.tsx:78-85 | the same rule stated on the parse results |
| ConcatNode.AxisRuleOfDims | src/nodes/TensorOperations/ConcatNode.tsx:67-86 | on the texts of valid dimensions, the token rule is the dimension rule, and a kept axis is a valid dimension |
| ConcatNode.AxisRuleOfSizeDims | src/nodes/TensorOperations/ConcatNode.tsx:78-85 | on two sizes, the token rule and the dimension rule agree |
| ConcatNode.AxisRuleWithName | src/nodes/TensorOperations/ConcatNode.tsx:67-86 | when either dimension is a name, the token rule and the dimension rule agree |
| ConcatNode.ConcatTokensOfDims | src/nodes/TensorOperations/ConcatNode.tsx:60-93 | on dimension texts, the token rule gives the outcome of the dimension rule |
| ConcatNode.ConcatOfRender | src/nodes/TensorOperations/ConcatNode.tsx:56-93 | on two rendered shapes, the node reports rank and axis mismatches as the dimension rule does, and otherwise renders its result |
| ConcatNode.ConcatExample | src/nodes/TensorOperations/ConcatNode.tsx:67-86 | (N, 3, L) and (N, 5, L) on dimension 1 give (N, 8, L) |
| ConcatNode.ConcatExampleRendered | src/nodes/TensorOperations/ConcatNode.tsx:56-93 | the same example on the shape texts the node reads and writes |
| ConcatNode.ClashExample | src/nodes/TensorOperations/ConcatNode.tsx:80-85 | (N, 3, 20) and (N, 3, 10) on dimension 1 clash on the last axis |
| ConcatNode.MissingOperand | src/nodes/TensorOperations/ConcatNode.tsx:42-44 | without both operands, both effects write "Not Connected" with a null order and no error |
| ConcatNode.SuccessTakesFirstOrder | src/nodes/TensorOperations/ConcatNode.tsx:91-93 | on success the output is the joined shape, the order is operand 1's order, and no error is shown |
| ConcatNode.DimOptionsParseBack | src/nodes/TensorOperations/ConcatNode.tsx:102-104 | each offered option's value parses back to its own index |
| FlattenNode.Clamp | src/nodes/TensorOperations/FlattenNode.tsx:25-34 | a slice position resolves to a position within the length, and a position already inside is kept |
| FlattenNode.JsSlice | src/nodes/TensorOperations/FlattenNode.tsx:25-34 | with in-range bounds a slice is the plain subsequence, and a slice is never longer than its list |
| FlattenNode.Product | src/nodes/TensorOperations/FlattenNode.tsx:25 | the product is NaN exactly when some part is NaN; the empty product is 1 |
| FlattenNode.Parts | src/nodes/TensorOperations/FlattenNode.tsx:22-24 | there is one part per shape token, and each part is parseInt of that token |
| FlattenNode.LetterAt | src/nodes/TensorOperations/FlattenNode.tsx:33 | an order letter read at the start position is at most one character |
| FlattenNode.PartTexts | src/nodes/TensorOperations/FlattenNode.tsx:30 | there is one text per part, in order |
| FlattenNode.UpdateOutputShape | src/nodes/TensorOperations/FlattenNode.tsx:21-45 | the update writes the shape, the order and both positions; without a shape or an order all four are null |
| FlattenNode.Effect | src/nodes/TensorOperations/FlattenNode.tsx:47-58 | the effect runs exactly when both the input shape and its order are present, and then it is the update with the stored positions |
| FlattenNode.Max | src/nodes/TensorOperations/FlattenNode.tsx:62 | Math.max is NaN when either side is NaN; otherwise it is the larger of the two |
| FlattenNode.StartDimPatch | src/nodes/TensorOperations/FlattenNode.tsx:60-63 | choosing a start writes both positions and nothing else |
| FlattenNode.NaNOr | src/nodes/TensorOperations/FlattenNode.tsx:61 | a parsed position is written as that integer, and a failed parse as NaN |
| FlattenNode.EndDimPatch | src/nodes/TensorOperations/FlattenNode.tsx:65-68 | choosing an end writes only the end position |
| FlattenNode.Choices | src/nodes/TensorOperations/FlattenNode.tsx:70-80 | there is one choice per order letter from the start on, and each choice shows the letter at its own position |
| FlattenNode.StartDimKeepsRange | src/nodes/TensorOperations/FlattenNode.tsx:60-63 | choosing start s stores s, and an end that is at least s |
| FlattenNode.FlattenDims | src/nodes/TensorOperations/FlattenNode.tsx:25-30 | the reference rule removes end - start axes and keeps only sizes |
| FlattenNode.PartsOfRender | src/nodes/TensorOperations/FlattenNode.tsx:22-24 | parseInt of a rendered shape gives its sizes, and NaN for each name |
| FlattenNode.ProductOfSizes | src/nodes/TensorOperations/FlattenNode.tsx:25 | sizes multiply to their product |
| FlattenNode.FlattenPartsInRange | src/nodes/TensorOperations/FlattenNode.tsx:25-30 | with 0 <= start <= end < rank, the parts outside the range are kept and the range's product takes its place |
| FlattenNode.FlattenPartsAt | src/nodes/TensorOperations/FlattenNode.tsx:25-30 | inside the bounds, the slices are plain subsequences |
| FlattenNode.NameInRangeIsNaN | src/nodes/TensorOperations/FlattenNode.tsx:24-25 | the flattened part is NaN exactly when a name lies in the range |
| FlattenNode.FlattenPartsOfSizes | src/nodes/TensorOperations/FlattenNode.tsx:25-30 | on all-size input, the output parts are the sizes of the reference result |
| FlattenNode.FlattenOfSizes | src/nodes/TensorOperations/FlattenNode.tsx:21-41 | on a rendered all-size shape and an in-range start..end, the output is the rendered reference result, and the order keeps only the letter at start from the range |
| FlattenNode.PresentPatch | src/nodes/TensorOperations/FlattenNode.tsx:21-41 | with an input shape and order present, the effect writes the flattened parts and the cut order |
| FlattenNode.ShapeOfSizes | src/nodes/TensorOperations/FlattenNode.tsx:25-30 | on an all-size shape and an in-range start..end, the flattened text is the rendered reference result |
| FlattenNode.FlattenOrderInRange | src/nodes/TensorOperations/FlattenNode.tsx:31-35 | inside the range, the order keeps only the range's first letter |
| FlattenNode.SingleAxisIsIdentity | src/nodes/TensorOperations/FlattenNode.tsx:25-35 | a one-axis range leaves an all-size shape and its order unchanged |
| PermuteNode.Gather | src/nodes/TensorOperations/PermuteNode.tsx:22-26 | the result has one token per letter of the output order, and token i is the input token at that letter's position in the input order |
| PermuteNode.UpdateOutputShape | src/nodes/TensorOperations/PermuteNode.tsx:19-34 | without a shape or an input order, the update writes "Not Connected" and a null order; it throws exactly when a letter of the output order is missing from the input order; otherwise it writes the shape and the given order |
| PermuteNode.InputOrderEffect | src/nodes/TensorOperations/PermuteNode.tsx:36-44 | the input-order effect runs exactly when an input order is present |
| PermuteNode.InputShapeEffect | src/nodes/TensorOperations/PermuteNode.tsx:46-54 | the input-shape effect runs exactly when an output order is present, and then it updates with that order |
| PermuteNode.MoveIsAdjacentSwap | src/nodes/TensorOperations/PermuteNode.tsx:56-63 | moving a letter up or down swaps it with its neighbour |
| PermuteNode.MoveIsPermutation | src/nodes/TensorOperations/PermuteNode.tsx:56-63 | a move keeps the multiset of letters |
| PermuteNode.MoveKeepsReordering | src/nodes/TensorOperations/PermuteNode.tsx:56-63 | a move of a distinct-letter reordering of the input order is still one |
| PermuteNode.IndexOfDistinct | src/nodes/TensorOperations/PermuteNode.tsx:24 | in an order of distinct letters, indexOf finds each letter at its own position |
| PermuteNode.ReorderGatherable | src/nodes/TensorOperations/PermuteNode.tsx:22-26 | gathering by a reordering of the input order never reads past the tokens |
| PermuteNode.GatherIdentity | src/nodes/TensorOperations/PermuteNode.tsx:36-39 | with the input order as the output order, gathering changes nothing |
| PermuteNode.GatherRoundTrip | src/nodes/TensorOperations/PermuteNode.tsx:22-26 | gathering by o and then back by the input order restores the tokens |
| PermuteNode.GatherDimTexts | src/nodes/TensorOperations/PermuteNode.tsx:22-26 | gathering dimension texts gives the texts of the gathered dimensions |
| PermuteNode.GatherValid | src/nodes/TensorOperations/PermuteNode.tsx:22-26 | gathered valid dimensions are valid |
| PermuteNode.PermuteOfRender | src/nodes/TensorOperations/PermuteNode.tsx:19-30 | on a rendered input, the node writes the rendered gathered dimensions and the order it was given |
| PermuteNode.MissingLetterThrows | src/nodes/TensorOperations/PermuteNode.tsx:24-25 | a letter missing from the input order makes the update throw |
| PermuteNode.FirstConnectionIsIdentity | src/nodes/TensorOperations/PermuteNode.tsx:36-39 | on a first connection, the input shape passes through with its own order |
| PermuteNode.PermuteRoundTrip | src/nodes/TensorOperations/PermuteNode.tsx:19-34 | a second permute node fed the first one's output, with the orders swapped, writes back the original shape and order |
| InputNodes.PlaceholderOfWhole | src/nodes/Input/TabularInputNode.tsx:29 | a whole committed value is shown as its dimension's text, and an absent one as the axis letter |
| InputNodes.ShapePatch | src/nodes/Input/TabularInputNode.tsx:28-32 | the shape effect writes only `outputShape` |
| InputNodes.LegacyShapePatch | src/nodes/Input/TabularInputLayerNode.tsx:20-24 | the older node writes only `outputSize`, with the tabular shape text |
| InputNodes.Stored | src/nodes/Input/TabularInputNode.tsx:18 | a stored value is read exactly when the key holds a number, and null otherwise |
| InputNodes.BindingsDistinct | src/nodes/Input/ImageInputNode.tsx:17-33 | within each node, no two fields write the same key; the image node's fields never write `numChannels`; the time-series node checks "not below one" and the image node checks "positive" |
| InputNodes.Placeholders | src/nodes/Input/TimeseriesInputNode.tsx:30 | there is one placeholder per value, in order |
| InputNodes.Axes | src/nodes/Input/TimeseriesInputNode.tsx:30 | there is one dimension per whole value, in order |
| InputNodes.AxesTexts | src/nodes/Input/TimeseriesInputNode.tsx:30 | whole values with letter names are valid dimensions whose texts are the placeholders |
| InputNodes.TabularShapeOfDims | src/nodes/Input/TabularInputNode.tsx:29 | whole values make the tabular shape a rendered two-axis shape, and its tokens read back as the placeholders |
| InputNodes.TimeseriesShapeOfDims | src/nodes/Input/TimeseriesInputNode.tsx:30 | whole values make the time-series shape a rendered three-axis shape |
| InputNodes.TimeseriesShapeOfTexts | src/nodes/Input/TimeseriesInputNode.tsx:30 | the time-series shape is the three axis texts, with a letter for each missing value, rendered in order |
| InputNodes.TimeseriesTokens | src/nodes/Input/TimeseriesInputNode.tsx:30 | splitting the shape the node displays gives one token per time-series axis, the value's text or the axis letter; the node writes it through the legacy store, where it is dropped (`LegacyStore.CanvasWriteDropped`) |
| InputNodes.ImageShapeOfDims | src/nodes/Input/ImageInputNode.tsx:38 | whole values make the image shape a rendered four-axis shape |
| InputNodes.ImageShapeOfTexts | src/nodes/Input/ImageInputNode.tsx:38 | the image shape is the four axis texts, with a letter for each missing value, rendered in order |
| InputNodes.TokensOfAxes | src/nodes/Input/ImageInputNode.tsx:38 | a shape rendered from whole values and axis letters reads back as one token per axis, value or letter |
| InputNodes.ImageTokens | src/nodes/Input/ImageInputNode.tsx:38 | downstream nodes read back one token per image axis, as many as the letters of "NCHW" |
| InputNodes.UnsetShapes | src/nodes/Input/ImageInputNode.tsx:38 | a fresh node shows "(N, C)", "(N, C, L)" or "(N, C, H, W)" |
| InputNodes.InlineCommitsNaN | src/nodes/Input/TabularInputNode.tsx:34-47 | text that is not a number passes the inline "< 1" check, so NaN is committed and shown; the image node's check rejects it |
| InputNodes.InlineRejectsBelowOne | src/nodes/Input/TabularInputNode.tsx:36-38 | a numeric text is rejected exactly when it is below one |
| InputNodes.LettersCommitNaN | src/nodes/Input/TabularInputNode.tsx:34-47 | "abc" is committed as NaN |
| InputNodes.InlineVersusPositive | src/nodes/Input/ImageInputNode.tsx:17 | the inline check accepts only numbers "value > 0" accepts; on whole numbers the two agree; 0.5 separates them |
| InputNodes.LegacyOnChange | src/nodes/Input/TabularInputLayerNode.tsx:52-54 | the typed text is parsed and assigned at once into the node's data under its key, with nothing else changed |
| InputNodes.LegacyCommitsZero | src/nodes/Input/TabularInputLayerNode.tsx:52-54 | the older node commits 0, which the inline check rejects, and shows "(N, 0)" |
| ImageTypeSelector.Find | src/components/SelectImageType.tsx:29 | the result is null exactly when no type has the channel count; otherwise it is the first type that has it |
| ImageTypeSelector.OnSelectedItemChange | src/components/SelectImageType.tsx:30-33 | choosing a type writes only `numChannels`, the same count it sets locally |
| ImageTypeSelector.TableChannels | src/components/SelectImageType.tsx:6-9 | the table holds black-and-white with 1 channel and colour with 3 |
| ImageTypeSelector.SelectedExactly | src/components/SelectImageType.tsx:29 | a type is shown exactly when the channel count is 1 or 3; with no count the prompt is shown |
| ImageTypeSelector.SelectRoundTrip | src/components/SelectImageType.tsx:29-33 | after a type is chosen, the selector shows that type, and only 1 or 3 channels are ever written |
| NodeCatalog.DefaultOrder | src/nodes/index.ts:86-104 | a kind starts with an order exactly when its default record holds a non-empty order text |
| NodeCatalog.ParseKindOfName | src/nodes/index.ts:29-57 | every kind is found under its own registry key |
| NodeCatalog.KindNameOfParse | src/nodes/index.ts:29-57 | a key finds only the kind it names |
| NodeCatalog.EveryKindRegistered | src/nodes/index.ts:29-243 | exactly the four oldest kinds have no default record; a key has defaults exactly when its kind has a record; "dropout2d" shares the dropout component |
| NodeCatalog.RegisteredKinds | src/nodes/index.ts:29-243 | a registry key has a default record exactly when its kind is not one of the four oldest kinds |
| NodeCatalog.InputOrders | src/nodes/index.ts:86-104 | the input kinds start with the orders "NC", "NCL" and "NCHW" |
| NodeCatalog.ExtraFieldsHaveNoOrder | src/nodes/index.ts:59-243 | no field a kind adds to the shape fields is an order |
| NodeCatalog.NoOtherOrders | src/nodes/index.ts:59-243 | every non-input kind starts without an order |
| NodeCatalog.ExtraFieldsHaveNoOutput | src/nodes/index.ts:59-243 | no field a kind adds to the shape fields is an output shape |
| NodeCatalog.NoInitialOutput | src/nodes/index.ts:59-243 | every kind starts with no output shape, and only the time-series input lacks the key |
| NodeCatalog.ShapeFieldsRecord | src/nodes/index.ts:107-243 | every layer and operator kind but concat starts from the four null shape keys plus its own parameters |
| NodeCatalog.OwnRecordOutput | src/nodes/index.ts:59-105 | of the kinds with their own records, the time-series input lacks `outputShape` and every other one holds it as null |
| NodeCatalog.TimeseriesShapeOfRecord | src/nodes/index.ts:92-97 | the time-series defaults display the shape "(32, C, L)" |
| NodeCatalog.WindowDefaults | src/nodes/index.ts:106-168 | the convolution and pooling kinds start with stride 1, padding 0, dilation 1 and no kernel size |
| NodeCatalog.SpreadAssociative | src/nodes/index.ts:128-148 | spreading records is associative |
| NodeCatalog.RecurrentDefaults | src/nodes/index.ts:128-138 | LSTM starts with one layer, no dropout and projection size 0 |
| NodeCatalog.RecurrentUnsetDefaults | src/nodes/index.ts:128-138 | LSTM starts one-directional and without a hidden size |
| NodeCatalog.GRUIsLSTMWithoutProjection | src/nodes/index.ts:128-148 | GRU starts from LSTM's record without the projection size |
| NodeCatalog.FlattenDefaults | src/nodes/index.ts:234-243 | a new flatten node flattens from axis 0 to axis 0 |
| NodeCatalog.RecordQuirks | src/nodes/index.ts:66-71 | the relu record has no input order and spells its flag "inpalce"; the concat record has no input shape and a null `dim` |
| NodeCatalog.TimeseriesShapeFromDefaults | src/nodes/index.ts:92-97 | a new time-series node shows "(32, C, L)" |
| NodeCatalog.TabularShapeFromDefaults | src/nodes/index.ts:86-91 | a new tabular node shows "(N, C)" |
| NodeCatalog.ImageShapeFitsOrder | src/nodes/index.ts:98-104 | a new image node's shape has one axis per letter of its default order |
| Fields.AcceptsMeansBounds | src/components/InputField.tsx:23 | the validators mean value > 0, value >= 0, 0 <= value <= 1 and "not < 1"; NaN passes only the last |
| Fields.ParseField | src/components/InputField.tsx:22 | the parsed value is null exactly for empty text |
| Fields.CheckField | src/components/InputField.tsx:22-29 | a field commits exactly when its text is empty or the validator accepts the number, and it commits the parsed value |
| Fields.CheckPair | src/components/DoubleInputField.tsx:46-57 | the two values commit together or not at all, exactly when both pass, and then they commit as two single fields would |
| Fields.NonNumericRejected | src/components/InputField.tsx:22-24 | text that is not a number is rejected by every validator except the inline one |
| Fields.StoredValueRecommits | src/components/InputField.tsx:20-33 | a stored value's own text, committed again, gives the same value |
| Fields.DataObject.constructor | src/components/InputField.tsx:27 | the data object starts from the node's record |
| Fields.InputField.constructor | src/components/InputField.tsx:18-33 | mounting shows the stored value's text, has no error, and arms the timer |
| Fields.InputField.Edit | src/components/InputField.tsx:44 | typing replaces the text and restarts the timer, and commits nothing |
| Fields.InputField.TimerFires | src/components/InputField.tsx:20-33 | when the timer fires, a rejected value sets the error and commits nothing; an accepted one clears the error and writes the value into the node's data under its key and into the local state |
| Fields.DoubleInputField.constructor | src/components/DoubleInputField.tsx:24-61 | mounting shows both stored texts, has no error, and arms the timer |
| Fields.DoubleInputField.Edit | src/components/DoubleInputField.tsx:24-61 | editing either text restarts the one timer and changes only that text |
| Fields.DoubleInputField.TimerFires | src/components/DoubleInputField.tsx:44-61 | when the timer fires, both values are written, or neither is and the shared error is set |
| Propagation.Forwarded | src/state/graphStore.ts:95 | the forwarded patch writes exactly the channel's input keys, and never the guard key |
| Propagation.RankedAppend | src/state/graphStore.ts:53-63 | appending an edge that keeps the ranking keeps the graph acyclic |
| Propagation.Merged | src/state/graphStore.ts:75-83 | the node with that id gets its data spread with the patch; every other node, and every id and kind, is unchanged |
| Propagation.ChildEdges | src/state/graphStore.ts:91 | the child edges are exactly the edges whose source is the parent |
| Propagation.Push | src/state/graphStore.ts:75-85 | an update keeps the number of nodes |
| Propagation.Children | src/state/graphStore.ts:86-98 | pushing to the children keeps the number of nodes |
| Propagation.PushEach | src/state/graphStore.ts:92-97 | the loop over child edges keeps the number of nodes |
| Propagation.PushAll | src/state/graphStore.ts:118-120 | updating several ids in turn keeps the number of nodes |
| Propagation.ChildrenFrame | src/state/graphStore.ts:86-98 | pushing to the children changes only input keys, and only of nodes fed from below the parent's rank |
| Propagation.UpdateMergesTarget | src/state/graphStore.ts:75-85 | after an update, the node itself holds exactly its data spread with the patch; every other node keeps its id, its kind and every key but the input keys; a node not fed from the updated node's rank is untouched |
| Propagation.OutputsUnchanged | src/state/graphStore.ts:75-98 | a pass never changes an output key of any node other than the one updated |
| Propagation.MergeTwice | src/state/graphStore.ts:79 | merging the same patch twice is merging it once |
| Propagation.ChildrenDeliver | src/state/graphStore.ts:86-98 | a child whose only parent is a parent with a truthy output ends with its data spread with the forwarded shape and order |
| Propagation.UpdateReachesChild | src/state/graphStore.ts:75-98 | an update that gives the parent a truthy output delivers it to each child whose only parent it is |
| Propagation.NotConnectedForwarded | src/state/graphStore.ts:89-96 | the "Not Connected" placeholder is truthy, so it is forwarded to a sole child like any shape |
| Propagation.FalsyOutputStops | src/state/graphStore.ts:89 | a falsy output stops propagation: only the merge happens |
| Propagation.PushAllUnfed | src/state/graphStore.ts:118-120 | a node no edge feeds ends merged with the patch if its id is among the ids, and untouched otherwise |
| EdgeLists.EdgeOf | src/state/graphStore.ts:54-59 | the appended edge carries the connection's endpoints and handles, under the given id |
| EdgeLists.Reconnected | src/state/graphStore.ts:66-70 | reconnecting keeps the length, and a connection without both endpoints changes nothing |
| EdgeLists.WithoutEdge | src/edges/DeletableShapeTrackingEdge.tsx:37 | the remaining edges are exactly the old ones without that id |
| EdgeLists.EdgeIds | src/state/graphStore.ts:66-70 | there is one id per edge, in order |
| EdgeLists.ReconnectRewires | src/state/graphStore.ts:66-70 | reconnecting keeps every edge's id and position; the edges with the old id take the connection's endpoints and handles, and the others are kept |
| EdgeLists.WithoutEdgeKeepsOthers | src/edges/DeletableShapeTrackingEdge.tsx:37 | removing an id that no edge has changes nothing |
| EdgeLists.WithoutEdgeIdempotent | src/edges/DeletableShapeTrackingEdge.tsx:37 | removing an edge by id twice is removing it once |
| GraphStore.WithoutNode | src/state/graphStore.ts:113 | the remaining nodes are exactly the old ones without that id |
| GraphStore.WithoutEdgesOf | src/state/graphStore.ts:114 | the remaining edges are exactly those that do not touch the node |
| GraphStore.Targets | src/state/graphStore.ts:109 | there is one target per edge, in order |
| GraphStore.NewNode | src/pages/Craft.tsx:68-75 | a dropped node gets its kind's default record, or an empty one for a kind without defaults; either way it has no output shape |
| GraphStore.Store.constructor | src/state/graphStore.ts:32-36 | the store starts with no nodes and no edges |
| GraphStore.Store.AddNode | src/state/graphStore.ts:99-103 | the node is appended, and nothing is propagated |
| GraphStore.Store.UpdateNodeData | src/state/graphStore.ts:75-85 | the edges are unchanged, and the nodes are the update's merge followed by its push to the children |
| GraphStore.Store.UpdateChildren | src/state/graphStore.ts:86-98 | the edges are unchanged, and each child edge forwards the parent's shape and order, reading the node list from before the loop |
| GraphStore.Store.ForEachChild | src/state/graphStore.ts:91-97 | the edges are unchanged, and the listed child edges are pushed one after another from the snapshot |
| GraphStore.Store.OnConnect | src/state/graphStore.ts:48-65 | when both endpoints exist, the edge is appended, the graph stays acyclic, and the source's shape is pushed along its edges; otherwise nothing changes |
| GraphStore.Store.OnReconnect | src/state/graphStore.ts:66-70 | the edge list is rewired and no node changes |
| GraphStore.Store.DeleteNode | src/state/graphStore.ts:104-121 | the node and every edge touching it are removed, then each former child gets a null input shape, which it pushes on |
| GraphStore.Store.ClearInputs | src/state/graphStore.ts:117-120 | the edges are unchanged, and each listed child gets a null input shape, pushed on in turn |
| GraphStore.OnDrop | src/pages/Craft.tsx:47-77 | an empty kind is ignored; any other kind appends a new node with that kind's defaults; the edges are unchanged |
| GraphStore.DeleteRemoves | src/state/graphStore.ts:104-121 | after the delete, no node has that id and no edge touches it |
| GraphStore.DeleteClearsSoleChild | src/state/graphStore.ts:118-120 | a former child whose only parent was the deleted node ends with a null input shape, and keeps its input order and every other key |
| GraphStore.DeleteLeavesUpstream | src/state/graphStore.ts:104-121 | the deleted node's parents, and every other node ranked at least as high that was not its child, are unchanged |
| GraphStore.ParentRankedAbove | src/state/graphStore.ts:104-121 | a parent of the deleted node is ranked above it and is not its child |
| GraphStore.ConnectFromNewNode | src/state/graphStore.ts:48-65 | connecting from a node that was just dropped changes no node |
| GraphStore.ConnectDelivers | src/state/graphStore.ts:48-65 | connecting a source whose output is set delivers its shape and order to a target with no other parent, and changes nothing else of the target |
| LegacyStore.SeedNodes | src/state/store.ts:31-50 | the seed graph has three nodes |
| LegacyStore.Store.constructor | src/state/store.ts:30-55 | the store starts from the seed graph with no edges |
| LegacyStore.Store.SetEdges | src/state/store.ts:91-93 | the edges are replaced and the nodes kept |
| LegacyStore.Store.UpdateNodeData | src/state/store.ts:94-104 | the edges are unchanged, and the nodes are the merge followed by the push of the output size |
| LegacyStore.Store.UpdateChildren | src/state/store.ts:105-117 | the edges are unchanged, and each child edge forwards the parent's `outputSize` as `inputSize` |
| LegacyStore.Store.ForEachChild | src/state/store.ts:111-116 | the edges are unchanged, and the listed child edges are pushed one after another from the snapshot |
| LegacyStore.Store.OnConnect | src/state/store.ts:66-84 | when both endpoints exist, the edge is appended and the source's size is pushed; otherwise nothing changes |
| LegacyStore.Store.OnReconnect | src/state/store.ts:85-89 | the edge list is rewired and no node changes |
| LegacyStore.SeedGraph | src/state/store.ts:31-50 | the seed ids are distinct, no seed node has an output size, and "linear-layer" is not a registered kind |
| LegacyStore.SeedConnectQuiet | src/state/store.ts:105-108 | in the seed graph, connecting any source forwards nothing |
| LegacyStore.SizePushLeavesShapeKeys | src/state/store.ts:105-117 | a legacy push never touches a shape or order key of another node |
| LegacyStore.AbsentIdUnchanged | src/state/store.ts:94-108 | an update for an id no node has changes no node |
| LegacyStore.CanvasWriteDropped | src/nodes/Input/TimeseriesInputNode.tsx:16-32 | a write from a canvas node, whose id is never a seed id, leaves the legacy store's seed graph unchanged |
| EdgeDeletion.HandleDelete | src/edges/DeletableShapeTrackingEdge.tsx:35-38 | the target is updated with a null `inputSize` through the legacy store, then the edge is removed |
| EdgeDeletion.DeleteClearsTarget | src/edges/DeletableShapeTrackingEdge.tsx:36 | after the delete, the target's `inputSize` is null; no node changes any key but `inputSize` |
| EdgeDeletion.ClearedData | src/edges/DeletableShapeTrackingEdge.tsx:36 | merging the cleared patch nulls `inputSize` and keeps every other key |
| EdgeDeletion.DeleteRemovesOnlyThatEdge | src/edges/DeletableShapeTrackingEdge.tsx:37 | the remaining edges are exactly the old ones without that id, and an absent id changes nothing |
| Toolbox.AllItems | src/components/ToolBoxContent.tsx:114-118 | every item of every category is listed, and nothing else |
| Toolbox.FilterItems | src/components/ToolBoxContent.tsx:115-117 | an item is kept exactly when it is in the list and its lowercased kind contains the term; the filter never lengthens the list |
| Toolbox.Filtered | src/components/ToolBoxContent.tsx:114-118 | the search result is exactly the catalog items whose lowercased kind contains the term |
| Toolbox.Toggled | src/components/ToolBoxContent.tsx:106-108 | toggling closes the category exactly when that category was the open one |
| Toolbox.ToolBoxState.constructor | src/components/ToolBoxContent.tsx:103-104 | no category is open and the search term is empty |
| Toolbox.ToolBoxState.ToggleDropdown | src/components/ToolBoxContent.tsx:106-108 | the open category is toggled and the search term kept |
| Toolbox.ToolBoxState.HandleSearch | src/components/ToolBoxContent.tsx:110-112 | the typed text is stored lowercased and the open category kept |
| Toolbox.FilterAppend | src/components/ToolBoxContent.tsx:114-118 | filtering goes item by item, so it keeps catalog order across any split of the list |
| Toolbox.EmptyTermKeepsAll | src/components/ToolBoxContent.tsx:156 | the empty term keeps every item |
| Toolbox.FilterKeepsMatching | src/components/ToolBoxContent.tsx:115-117 | a list whose every item matches comes through unchanged |
| Toolbox.FilterIdempotent | src/components/ToolBoxContent.tsx:115-117 | filtering twice with the same term is filtering once |
| Text.IncludesAt | src/components/ToolBoxContent.tsx:115-117 | a text that holds the term at some position includes it |
| Toolbox.ToggleTwice | src/components/ToolBoxContent.tsx:106-108 | toggling the same key twice restores the state when that key or nothing was open, and otherwise leaves nothing open |
| Toolbox.InputKindsRegistered | src/components/ToolBoxContent.tsx:6-26 | every input item creates a kind that has a default record |
| Toolbox.ActivationKindsRegistered | src/components/ToolBoxContent.tsx:27-44 | every activation item creates a kind that has a default record |
| Toolbox.ConvKindsRegistered | src/components/ToolBoxContent.tsx:45-53 | both convolution items create kinds that have default records |
| Toolbox.RecurrentKindsRegistered | src/components/ToolBoxContent.tsx:54-61 | both recurrent items create kinds that have default records |
| Toolbox.PoolingKindsRegistered | src/components/ToolBoxContent.tsx:62-72 | both pooling items create kinds that have default records |
| Toolbox.NormKindsRegistered | src/components/ToolBoxContent.tsx:73-81 | every normalization item creates a kind that has a default record |
| Toolbox.DropoutKindsRegistered | src/components/ToolBoxContent.tsx:82-90 | every dropout item creates a kind that has a default record |
| Toolbox.TensorKindsRegistered | src/components/ToolBoxContent.tsx:91-100 | every tensor-operator item creates a kind that has a default record |
| Toolbox.CategoriesRegistered | src/components/ToolBoxContent.tsx:5-100 | every category of the catalog offers only kinds with default records |
| Toolbox.AllItemsRegistered | src/components/ToolBoxContent.tsx:114-118 | the flattened list offers only registered kinds when every category does |
| Toolbox.CatalogKindsHaveDefaults | src/components/ToolBoxContent.tsx:5-100 | every item of the flattened catalog creates a kind that is a key of the default records, so a dropped node gets its defaults |
| PyTorchCompiler.KnownKinds | lambda_dev/pytorchcompiler.py:4-27 | every kind the editor creates with a default record has a layer class other than "UnknownLayer", and exactly the three input kinds map to `nn.Identity` |
| PyTorchCompiler.LegacyKindsUnknown | lambda_dev/pytorchcompiler.py:84 | the kinds without a default record fall back to "UnknownLayer" |
| PyTorchCompiler.LayerClassOfKind | lambda_dev/pytorchcompiler.py:4-27 | the mapping looked up by a kind's registry key is the layer class the kind table assigns that kind |
| PyTorchCompiler.Dropout1dIsPlainDropout | lambda_dev/pytorchcompiler.py:21-23 | "dropout1d" maps to plain `nn.Dropout`, so no node type reaches the `nn.Dropout1d` branch |
| PyTorchCompiler.ParseInts | lambda_dev/pytorchcompiler.py:46 | each part is read by Python's `int`, in order; the list is absent exactly when some part is not an integer literal |
| PyTorchCompiler.ParseShape | lambda_dev/pytorchcompiler.py:42-47 | a shape that parses has at least one axis |
| PyTorchCompiler.ProcessNodeData | lambda_dev/pytorchcompiler.py:37-50 | a record holding a null value gives no shape; a parsed shape has at least one axis |
| PyTorchCompiler.PermuteIndexes | lambda_dev/pytorchcompiler.py:229 | one index per output letter, each the first position of that letter in the input order; it fails exactly when some output letter is missing from the input order |
| PyTorchCompiler.ParseIntsOf | lambda_dev/pytorchcompiler.py:46 | parts that `int` reads one by one give the list of those integers |
| PyTorchCompiler.ParseSizeTexts | lambda_dev/pytorchcompiler.py:44-46 | the dimension texts of concrete sizes read back as those sizes |
| PyTorchCompiler.ShapeRoundTrip | lambda_dev/pytorchcompiler.py:42-47 | a shape the editor renders from concrete sizes parses back to exactly those sizes |
| PyTorchCompiler.RecordRoundTrip | lambda_dev/pytorchcompiler.py:37-50 | a record without nulls whose input shape is rendered from sizes gives those sizes |
| PyTorchCompiler.SymbolNotInt | lambda_dev/pytorchcompiler.py:46 | a symbolic axis name such as N or Lout is not an integer literal |
| PyTorchCompiler.SymbolicShapeRejected | lambda_dev/pytorchcompiler.py:42-50 | a rendered shape with any symbolic axis raises `ValueError`, the bad-request outcome |
| PyTorchCompiler.NoShapeSkipsNonInput | lambda_dev/pytorchcompiler.py:86-88 | a missing, null or empty input shape gives no shape, and then the node is skipped exactly when its type does not contain "input" |
| PyTorchCompiler.PermuteIndexesMatchNode | lambda_dev/pytorchcompiler.py:227-230 | for a reordering of the input order the indexes are a permutation of the axes, and permuting by them moves the axes exactly as the permute node's displayed shape does |
| PyTorchCompiler.PermuteMissingLetter | lambda_dev/pytorchcompiler.py:229 | an output letter missing from the input order makes the index lookup fail |
| PyTorchCompiler.ReplaceAbsent | lambda_dev/pytorchcompiler.py:280-281 | the rename changes nothing in a text where the pattern does not occur |
| PyTorchCompiler.RenameSingleInput | lambda_dev/pytorchcompiler.py:280-281 | "x1" is renamed "x" |
| ModelGenerator.Bump | lambda_dev/pytorchcompiler.py:117-119 | a layer moves its own family's counter on by one and leaves every other counter alone |
| ModelGenerator.RequiredKeysAsWritten | lambda_dev/pytorchcompiler.py:174-189 | the batch-norm lines read the key `track_running_stats` |
| ModelGenerator.RequiredKeys | lambda_dev/pytorchcompiler.py:117-230 | with the record's own key name no class reads `track_running_stats` |
| ModelGenerator.PermuteForward | lambda_dev/pytorchcompiler.py:227-230 | a permute node that succeeds adds no constructor line and one permute line assigning its variable from `parent_var` |
| ModelGenerator.Emit | lambda_dev/pytorchcompiler.py:117-235 | a forward line assigns the node's variable and reads only `parent_var` or mapped variables; a constructor line is numbered with its family's counter before the node; the class branches read the batch-norm flag as `track_running_stats`, as the code does |
| ModelGenerator.CatForward | lambda_dev/pytorchcompiler.py:223-227 | the concat line succeeds exactly when every predecessor is mapped and `dim` is present; it assigns the node variable from mapped variables only |
| ModelGenerator.EmitModule | lambda_dev/pytorchcompiler.py:117-219 | a module kind whose keys, read as the code reads them, and shape are readable emits its numbered constructor and a call on the parent |
| ModelGenerator.ClassForward | lambda_dev/pytorchcompiler.py:117-222 | formatting succeeds exactly when the keys and axes the lines read exist, with the batch-norm flag read under the given key, and `parent_var` is set; then one forward line reads `parent_var` and a family layer gets one numbered constructor line |
| ModelGenerator.Preds | lambda_dev/pytorchcompiler.py:94 | the predecessors are exactly the sources of the edges into the node, each once |
| ModelGenerator.Dedup | lambda_dev/pytorchcompiler.py:94 | each element not already seen is kept once and nothing else |
| ModelGenerator.Name | lambda_dev/pytorchcompiler.py:94-115 | a named node is entered in the variable map under the name it got, and the input counter never goes back |
| ModelGenerator.NameNode | lambda_dev/pytorchcompiler.py:94-115 | the naming steps compute the naming function |
| ModelGenerator.NameAmong | lambda_dev/pytorchcompiler.py:94-115 | a named node is entered in the variable map under its name, and the input counter never goes back |
| ModelGenerator.Registered | lambda_dev/pytorchcompiler.py:108-115 | the node is mapped to its variable, and the counter never goes back |
| ModelGenerator.NameNodeAmong | lambda_dev/pytorchcompiler.py:94-115 | the naming steps on given predecessors, siblings and children compute the naming function |
| ModelGenerator.Generate | lambda_dev/pytorchcompiler.py:52-282 | the loop over the topological order computes the model of the walk function, or its first exception |
| ModelGenerator.RecordLines | lambda_dev/pytorchcompiler.py:117-240 | the family counter moves on, the import flags are raised and the emitted lines are appended, as the step function records them |
| ModelGenerator.StepOfParts | lambda_dev/pytorchcompiler.py:81-240 | a kept node whose naming and lines succeed is recorded after them |
| ModelGenerator.NameWellNamed | lambda_dev/pytorchcompiler.py:98-115 | naming keeps every variable numbered below the input counter and leaves lines and counters alone |
| ModelGenerator.NameAmongWellNamed | lambda_dev/pytorchcompiler.py:94-115 | naming keeps every variable below the input counter, names the node below it, and leaves lines and counters alone |
| ModelGenerator.TakenWellNamed | lambda_dev/pytorchcompiler.py:98-105 | taking an input or parent variable keeps every variable below the counter and leaves lines and counters alone |
| ModelGenerator.KeptWellNamed | lambda_dev/pytorchcompiler.py:108-115 | registering a fresh or inherited name keeps every variable below the counter |
| ModelGenerator.StepWellNamed | lambda_dev/pytorchcompiler.py:81-240 | one node keeps every variable of the state numbered below the input counter |
| ModelGenerator.RunWellNamed | lambda_dev/pytorchcompiler.py:81-240 | the whole walk keeps every variable numbered below the input counter |
| ModelGenerator.FirstVarRenamed | lambda_dev/pytorchcompiler.py:99 | the first variable is spelled "x1" and the rename makes it "x" |
| ModelGenerator.SpellAllX | lambda_dev/pytorchcompiler.py:280-281 | variables numbered below 2 are all spelled "x" after the rename |
| ModelGenerator.SpellForwardsX | lambda_dev/pytorchcompiler.py:280-281 | forward lines whose variables are numbered below 2 mention only "x" after the rename |
| ModelGenerator.SingleInputSpelledX | lambda_dev/pytorchcompiler.py:280-281 | when the input counter ends at most 2, the model has at most one input and every variable of its signature, forward lines and return is "x" |
| ModelGenerator.VarTextInjective | lambda_dev/pytorchcompiler.py:108-110 | different variables are spelled differently |
| ModelGenerator.StepNumbered | lambda_dev/pytorchcompiler.py:117-219 | one node keeps the layer numbering: counters at least 1, every module below its family's counter, numbers increasing within a family |
| ModelGenerator.RecordNumbered | lambda_dev/pytorchcompiler.py:117-219 | recording a module numbered with its family counter keeps the numbering |
| ModelGenerator.NameWellNamedFrame | lambda_dev/pytorchcompiler.py:94-115 | naming does not touch the lines or the counters |
| ModelGenerator.RunNumbered | lambda_dev/pytorchcompiler.py:63-240 | the whole walk keeps the layer numbering |
| ModelGenerator.LayerNameInjective | lambda_dev/pytorchcompiler.py:117-219 | two attribute names `self.<prefix>_<n>` are equal only for the same family and number |
| ModelGenerator.LayerNamesDistinct | lambda_dev/pytorchcompiler.py:117-219 | no two module lines of a generated model define the same attribute |
| ModelGenerator.NullRecordSkipped | lambda_dev/pytorchcompiler.py:86-88 | a non-input node whose record holds a null adds nothing to the state |
| ModelGenerator.SkippedParentFailsChild | lambda_dev/pytorchcompiler.py:86-103 | a node skipped for a null value gets no variable, so the next node whose one parent it is fails with the 500 outcome when it looks that variable up |
| ModelGenerator.BatchNormKeyMissing | lambda_dev/pytorchcompiler.py:178-188 | as written, a batch-norm record without `track_running_stats` (every default record) lacks a key the lines read |
| ModelGenerator.DefaultsHaveRequiredKeys | lambda_dev/pytorchcompiler.py:117-230 | with the record's own key name, every kind's default record holds every key its lines read |
| ModelGenerator.LayerRecord | src/nodes/index.ts:107-243 | every layer kind with lines starts from the shape keys plus its own parameters |
| ModelGenerator.ExtraFieldsHaveKeys | lambda_dev/pytorchcompiler.py:117-219 | the parameters each layer kind adds hold every key its constructor line reads under the record's own flag name; under the flag name as written (`track_running_stats`) they hold them exactly for the kinds other than batch norm |
| ModelGenerator.KeysAgreeOffBatchNorm | lambda_dev/pytorchcompiler.py:117-219 | only the batch-norm lines read the running-stats flag, so every other class reads the same keys under either name |
| ModelGenerator.BatchNormFieldsLackFlag | lambda_dev/pytorchcompiler.py:174-189 | the batch-norm parameters lack `track_running_stats`, so as written their keys are not all present |
| ModelGenerator.DefaultsReadableAsWritten | lambda_dev/pytorchcompiler.py:117-230 | as written, a default record holds every key its lines read exactly when its kind is not batch norm |
| ModelGenerator.BatchNormLinesRaise | lambda_dev/pytorchcompiler.py:174-189 | as written, the batch-norm branch fails with the 500 outcome on every record without `track_running_stats`, whatever its shape and parent |
| ModelGenerator.BatchNormLinesCorrected | lambda_dev/pytorchcompiler.py:174-189 | with the flag read under the record's own name, a batch-norm record holding its keys on a shape with a channel axis emits its numbered module and its call on the parent |
| ModelGenerator.ExampleGraph | lambda_dev/pytorchcompiler.py:94-96 | in the input→linear graph the input has no parent and a child, the linear node has one parent and no child, and neither has siblings |
| ModelGenerator.ExampleInputRecord | lambda_dev/pytorchcompiler.py:37-48 | the input record gives no shape and its type contains "input" |
| ModelGenerator.ExampleLinearRecord | lambda_dev/pytorchcompiler.py:37-47 | the linear record parses to its sizes and holds the keys its lines read |
| ModelGenerator.InputNodeStep | lambda_dev/pytorchcompiler.py:98-101 | the input node makes variable `x1` and moves the input counter to 2 |
| ModelGenerator.LinearNaming | lambda_dev/pytorchcompiler.py:102-115 | the linear node takes its parent's `x1`, sets `parent_var` and is an output |
| ModelGenerator.LinearRecorded | lambda_dev/pytorchcompiler.py:237-240 | recording the linear lines appends them and moves the linear counter to 2 |
| ModelGenerator.LinearClass | lambda_dev/pytorchcompiler.py:11 | "linear" maps to `nn.Linear` |
| ModelGenerator.LinearNodeStep | lambda_dev/pytorchcompiler.py:117-122 | the linear node adds `self.linear_1` and `x1 = self.linear_1(x1)` |
| ModelGenerator.LinearFieldsReadable | lambda_dev/pytorchcompiler.py:37-50 | a linear record with a string shape holds no null and every key the linear lines read |
| ModelGenerator.ExampleRun | lambda_dev/pytorchcompiler.py:81-240 | the walk over the two nodes ends in the state after the linear node |
| ModelGenerator.ExampleFinish | lambda_dev/pytorchcompiler.py:242-281 | that state formats with every "x1" renamed "x" and no extra import |
| ModelGenerator.InputLinearModel | lambda_dev/pytorchcompiler.py:52-282 | input→linear generates one `nn.Linear` module, the line `x = self.linear_1(x)`, input `x`, output `x` and no extra import |
| Values.Merge | src/state/graphStore.ts:79 | the merged record has the keys of both; the patch's values win and every other old value stays |
| Values.FindNode | src/nodes/TensorOperations/ConcatNode.tsx:28-29 | no node is found exactly when no node has the id; otherwise it is the first node with that id |
| Text.Split | src/nodes/ActivationFunctions/LinearLayerNode.tsx:23 | the pieces hold no separator and join back to the original string |
| Text.SplitJoin | src/nodes/ActivationFunctions/LinearLayerNode.tsx:23-25 | splitting undoes joining when no piece contains the separator |
| Text.Remove | src/nodes/TensorOperations/FlattenNode.tsx:22 | the result holds none of the removed characters, and a string without them is unchanged |
| Text.IndexOf | src/nodes/TensorOperations/PermuteNode.tsx:24 | the first position of the character, or -1 exactly when it does not occur |
| Text.ToLowerIdempotent | src/components/ToolBoxContent.tsx:111-116 | lowering an already lowered term changes nothing |
| Shapes.TokensOfRender | src/nodes/TensorOperations/ConcatNode.tsx:57 | stripping the parentheses of a rendered shape, splitting at commas and trimming gives back its tokens |
| Shapes.RawTokensOfRender | src/nodes/RNN/LSTMLayerNode.tsx:54 | splitting a rendered shape without stripping it keeps "(" on the first token and ")" on the last |
| Numbers.ParseIntOfIntText | src/nodes/Pooling/MaxPool1DLayerNode.tsx:63 | `parseInt` reads back an integer's text, whatever non-digit text follows it |
| Numbers.NumberOfNumberText | src/components/InputField.tsx:22 | `Number` reads back the text `toString` renders for a number |
| Numbers.PyIntOfIntText | lambda_dev/pytorchcompiler.py:46 | Python's `int` reads back a rendered integer |

## Left out

- Rendering, JSX, collapse toggles, icons, tooltips and every page and panel: none affects a shape.
- Timer timing and React effect scheduling: a debounced commit is a method run when the timer fires, and each effect is a function the caller applies. Re-render order is not modelled.
- React Flow internals: `addEdge` is an append, `reconnectEdge` rewrites the target of the edge with that id, and `applyNodeChanges`/`applyEdgeChanges` are not part of this model.
- Generated ids (`uuidv4`) and drop positions: the id is a parameter of `GraphStore.OnDrop`.
- Cycles in the edge list: the store methods require an acyclic edge list, witnessed by a ghost rank, because the source has no cycle check and would not terminate on a cycle.
- The cross-wiring of the delete-node button between the two stores: each store is modelled on its own.
- InputNodes.ShapePatch: the tabular and time-series input nodes send this patch to the legacy store, not the graph store. The legacy store holds only its seed nodes, so the write is dropped (`LegacyStore.CanvasWriteDropped`). The model states the patch and what a reader would make of it, not a delivery to downstream nodes; only the image input node reaches them.
- InputNodes.TimeseriesTokens: states how the displayed shape splits into tokens. No downstream node on the canvas receives that shape, for the reason above.
- PassThrough.ForwardEffect: for the relu node, the effect's `outputSize` patch goes to the legacy store and is dropped (`LegacyStore.CanvasWriteDropped`). The relu node reads `inputSize`, which the graph store never writes, and it never gets an `outputShape`, so graph-store propagation stops at a relu node. The tanh and sigmoid instances write through the graph store.
- PassThrough.FlagPatch: for the relu node, the `inplace` patch goes to the legacy store and is dropped, so the canvas record keeps its default flag.
- LinearLayerNode.Effect: the `outputSize` patch goes to the legacy store and is dropped. A linear node on the canvas never gets an `outputShape`, so graph-store propagation stops there.
- LinearLayerNode.NumNeuronsPatch: the `numNeurons` and `bias` patches go to the legacy store and are dropped. The canvas record keeps `numNeurons` null, so the generator skips the node (`ModelGenerator.NullRecordSkipped`). A later node whose one parent it is then raises (`ModelGenerator.SkippedParentFailsChild`).
- LinearLayerNode.AnyNeuronCountStored: states what the patch would store. On the canvas the patch is dropped, for the reason above.
- GraphStore.NewNode and GraphStore.OnDrop: the model copies the kind's default record into each new node. In the source every node of a kind shares the one `initialData[type]` object (Craft.tsx:68). The tabular and time-series input nodes assign into `props.data` in place (TabularInputNode.tsx:41,56; TimeseriesInputNode.tsx:42,57,72), which writes into that shared record. So a node dropped later starts from the last committed values, and all nodes of that kind share them. This aliasing is not modelled.
- Text.Trim and Text.ToLower: restricted to ASCII whitespace and ASCII letters. JavaScript `trim`, Python `strip` and `toLowerCase` also act on other Unicode whitespace and letters.
- The authentication store, the sign-in pages, the HTTP client and the Supabase calls: they only wrap remote calls.
- Floating-point arithmetic: a JavaScript number is a finite decimal `m / 10^e` or NaN. Exponent notation, hexadecimal literals, Infinity and rounding are not modelled. The parameters that are only compared (eps, momentum, dropout, p) are compared exactly.
- Python's `int` is modelled on optional whitespace, an optional sign and decimal digits. Underscores, other bases and non-ASCII digits are not modelled.
- `lambda_handler` and `parse_json`: the HTTP envelope is left out. An exception is kept as an outcome: `BadInput` for `ValueError` (status 400) and `Crash` for any other exception (status 500).
- `nx.topological_sort`: the order is a parameter of `ModelGenerator.Generate`. A graph with a cycle, which makes networkx raise, is not modelled.
- The generated code text: the model keeps each constructor and forward line as the values it formats (family, number, operation, variables, permute indexes). It does not keep the f-string text, the keyword arguments copied from the record, or `print` calls.
- ModelGenerator.Spell: the `x1` → `x` rename is applied to each variable name, not to the whole code text. An "x1" inside a record value or inside a longer name such as "x10" or "x12" is therefore not renamed as the source would rename it.
- ModelGenerator.PermuteForward: an order held as a list rather than a string, which Python's `index` would also accept, is treated as an exception.
- Conv2D, MaxPool2D, BatchNorm, Dropout1D and the other components whose source is not part of this model: only their registry keys and default records are modelled.
- LSTMLayerNode.FeatureText has no contract of its own: its behaviour is stated by the LSTM shape lemmas.

## Findings

| source | as written | input that shows it | evidently intended | confidence | as-written member | corrected member |
|---|---|---|---|---|---|---|
| src/nodes/Pooling/MaxPool1DLayerNode.tsx:69-71 | the shape is split at commas without stripping the parentheses, so the last token keeps ")" and is never numeric | input shape "(32, 3, 20)" with kernel 2 and stride 2 gives "(32, 3, Lout)" | the parentheses are stripped first, as the other shape readers do, so the last axis becomes floor((20 + 0 - 1 - 1) / 2 + 1) = 10 | not executed | MaxPool1DLayerNode.AsWrittenAlwaysLout | MaxPool1DLayerNode.CorrectedSetsLength |
| lambda_dev/pytorchcompiler.py:180 | the batch-norm lines read the key `track_running_stats`, but the editor's default record names it `trackRunningStats` | a batch-norm record with no null value, such as eps, momentum, affine, trackRunningStats and inputShape "(32, 3)", raises `KeyError`, so the request fails with status 500 (an untouched editor record still holds nulls and is skipped) | the lines read `trackRunningStats`, and every default record holds every key its lines read | not executed | ModelGenerator.BatchNormLinesRaise | ModelGenerator.DefaultsHaveRequiredKeys |
