/**
 * The toolbox beside the canvas: the catalog of node kinds grouped in
 * categories, the search that filters it, and the one category whose list is
 * open.
 */
module Toolbox {
  import opened Wrappers
  import Text
  import NodeCatalog

  /** One entry of the toolbox: its label, its icon and the node kind it creates. */
  datatype Item = Item(caption: string, img: string, nodeClass: string)

  datatype Category = Category(title: string, key: string, items: seq<Item>)

  /**
   * An entry that creates nodes of kind `k`. Its node class is the text the
   * toolbox writes out, which is the registry key of `k`.
   */
  function Offer(caption: string, img: string, k: NodeCatalog.Kind): Item {
    Item(caption, img, NodeCatalog.KindName(k))
  }

  /** The catalog, in the order the toolbox lists it. */
  function Categories(): seq<Category> {
    [InputCategory(), ActivationCategory(), ConvCategory(), RecurrentCategory(),
     PoolingCategory(), NormCategory(), DropoutCategory(), TensorCategory()]
  }

  function InputCategory(): Category {
    Category("Input Layers", "input", [
      Offer("Tabular Input", "input/tabular.png", NodeCatalog.TabularInput),
      Offer("Time Series Input", "input/timeseries.png", NodeCatalog.TimeseriesInput),
      Offer("Image Input", "input/image.png", NodeCatalog.ImageInput)])
  }

  function ActivationCategory(): Category {
    Category("Activation Functions", "activation", [
      Offer("Linear", "activationfunctions/linear.png", NodeCatalog.Linear),
      Offer("ReLU", "activationfunctions/relu.png", NodeCatalog.Relu),
      Offer("Sigmoid", "activationfunctions/sigmoid.png", NodeCatalog.Sigmoid),
      Offer("Tanh", "activationfunctions/tanh.png", NodeCatalog.Tanh)])
  }

  function ConvCategory(): Category {
    Category("Conv Layers", "conv", [
      Offer("Conv1D", "convolutions/conv1d.png", NodeCatalog.Conv1D),
      Offer("Conv2D", "convolutions/conv2d.png", NodeCatalog.Conv2D)])
  }

  function RecurrentCategory(): Category {
    Category("RNN Layers", "rnn", [
      Offer("LSTM", "rnn/lstm.png", NodeCatalog.LSTM),
      Offer("GRU", "rnn/gru.png", NodeCatalog.GRU)])
  }

  function PoolingCategory(): Category {
    Category("Pooling", "pool", [
      Offer("MaxPool1D", "pooling/maxpool1d.png", NodeCatalog.MaxPool1D),
      Offer("MaxPool2D", "pooling/maxpool2d.png", NodeCatalog.MaxPool2D)])
  }

  function NormCategory(): Category {
    Category("Normalization", "norm", [
      Offer("LayerNorm", "normalization/layernorm.png", NodeCatalog.LayerNorm),
      Offer("BatchNorm1D", "normalization/batchnorm.png", NodeCatalog.BatchNorm1D),
      Offer("BatchNorm2D", "normalization/batchnorm.png", NodeCatalog.BatchNorm2D)])
  }

  function DropoutCategory(): Category {
    Category("Dropout", "dropout", [
      Offer("Dropout", "dropout/dropout.png", NodeCatalog.Dropout),
      Offer("Dropout1D", "dropout/dropout.png", NodeCatalog.Dropout1D),
      Offer("Dropout2D", "dropout/dropout.png", NodeCatalog.Dropout2D)])
  }

  function TensorCategory(): Category {
    Category("Tensor Operators", "tensor", [
      Offer("Permute", "tensor/tensor.png", NodeCatalog.Permute),
      Offer("Concat", "tensor/concat.png", NodeCatalog.Concat),
      Offer("Flatten", "tensor/flatten.png", NodeCatalog.Flatten)])
  }

  /** `categories.flatMap(c => c.items)`: every item, category by category. */
  function AllItems(cats: seq<Category>): (items: seq<Item>)
    ensures forall c, it :: c in cats && it in c.items ==> it in items
    ensures forall it :: it in items ==> exists c :: c in cats && it in c.items
  {
    if cats == [] then [] else cats[0].items + AllItems(cats[1..])
  }

  /** An item matches a search term when its lowercased node class contains the term. */
  predicate Matches(it: Item, term: string) {
    Text.Includes(Text.ToLower(it.nodeClass), term)
  }

  /** `items.filter(item => item.nodeClass.toLowerCase().includes(term))`. */
  function FilterItems(items: seq<Item>, term: string): (r: seq<Item>)
    ensures |r| <= |items|
    ensures forall it :: it in r <==> it in items && Matches(it, term)
  {
    if items == [] then []
    else (if Matches(items[0], term) then [items[0]] else []) + FilterItems(items[1..], term)
  }

  /** `filteredCategories`: the flat list shown while a search term is set. */
  function Filtered(term: string): (r: seq<Item>)
    ensures forall it :: it in r <==> it in AllItems(Categories()) && Matches(it, term)
  {
    FilterItems(AllItems(Categories()), term)
  }

  /** `activeDropdown === key ? null : key`. */
  function Toggled(active: Option<string>, key: string): (r: Option<string>)
    ensures r == None <==> active == Some(key)
  {
    if active == Some(key) then None else Some(key)
  }

  /** The toolbox's own state: the open category and the stored search term. */
  class ToolBoxState {
    var activeDropdown: Option<string>
    var searchTerm: string

    /** No category is open and the search term is empty, so the grouped view shows. */
    constructor ()
      ensures activeDropdown == None && searchTerm == ""
    {
      activeDropdown := None;
      searchTerm := "";
    }

    /** `toggleDropdown(key)`: close the open category, or open this one instead. */
    method ToggleDropdown(key: string)
      modifies this
      ensures activeDropdown == Toggled(old(activeDropdown), key)
      ensures searchTerm == old(searchTerm)
    {
      activeDropdown := if activeDropdown == Some(key) then None else Some(key);
    }

    /** `handleSearch`: the typed text is stored lowercased. */
    method HandleSearch(value: string)
      modifies this
      ensures searchTerm == Text.ToLower(value)
      ensures activeDropdown == old(activeDropdown)
    {
      searchTerm := Text.ToLower(value);
    }

    /** The grouped category view shows exactly when the search term is empty. */
    function ShowsGroups(): bool
      reads this
    {
      searchTerm == ""
    }
  }

  // ---------------------------------------------------------------------
  // Properties

  /** Filtering goes item by item, so it keeps catalog order across any split of the list. */
  lemma {:induction false} FilterAppend(a: seq<Item>, b: seq<Item>, term: string)
    ensures FilterItems(a + b, term) == FilterItems(a, term) + FilterItems(b, term)
  {
    if a == [] {
      assert a + b == b;
    } else {
      assert (a + b)[0] == a[0] && (a + b)[1..] == a[1..] + b;
      FilterAppend(a[1..], b, term);
      var head := if Matches(a[0], term) then [a[0]] else [];
      calc {
        FilterItems(a + b, term);
        head + FilterItems(a[1..] + b, term);
        head + (FilterItems(a[1..], term) + FilterItems(b, term));
        (head + FilterItems(a[1..], term)) + FilterItems(b, term);
      }
    }
  }

  /** The empty term matches every item: the filtered list is then the whole catalog. */
  lemma {:induction false} EmptyTermKeepsAll(items: seq<Item>)
    ensures FilterItems(items, "") == items
  {
    if items != [] {
      assert [] <= Text.ToLower(items[0].nodeClass);
      EmptyTermKeepsAll(items[1..]);
    }
  }

  /** A list whose every item matches comes through the filter unchanged. */
  lemma {:induction false} FilterKeepsMatching(items: seq<Item>, term: string)
    requires forall j :: 0 <= j < |items| ==> Matches(items[j], term)
    ensures FilterItems(items, term) == items
  {
    if items != [] {
      FilterKeepsMatching(items[1..], term);
      assert [items[0]] + items[1..] == items;
    }
  }

  /** Filtering twice with the same term is filtering once. */
  lemma FilterIdempotent(items: seq<Item>, term: string)
    ensures FilterItems(FilterItems(items, term), term) == FilterItems(items, term)
  {
    var once := FilterItems(items, term);
    forall j | 0 <= j < |once| ensures Matches(once[j], term) {
      assert once[j] in once;
    }
    FilterKeepsMatching(once, term);
  }

  /**
   * Toggling the same key twice returns to the start when that key was open
   * or nothing was; when another category was open it ends with none open.
   */
  lemma ToggleTwice(active: Option<string>, key: string)
    ensures active == None || active == Some(key) ==> Toggled(Toggled(active, key), key) == active
    ensures active != None && active != Some(key) ==> Toggled(Toggled(active, key), key) == None
  {
  }

  /** Every item of the list creates a kind that has a default record. */
  predicate AllRegistered(items: seq<Item>) {
    forall it :: it in items ==> NodeCatalog.HasDefaults(it.nodeClass)
  }

  /** Each category offers only kinds with default records, one lemma per category. */
  lemma InputKindsRegistered()
    ensures AllRegistered(InputCategory().items)
  {
    NodeCatalog.RegisteredKinds();
  }

  lemma ActivationKindsRegistered()
    ensures AllRegistered(ActivationCategory().items)
  {
    NodeCatalog.RegisteredKinds();
  }

  lemma ConvKindsRegistered()
    ensures AllRegistered(ConvCategory().items)
  {
    NodeCatalog.RegisteredKinds();
  }

  lemma RecurrentKindsRegistered()
    ensures AllRegistered(RecurrentCategory().items)
  {
    NodeCatalog.RegisteredKinds();
  }

  lemma PoolingKindsRegistered()
    ensures AllRegistered(PoolingCategory().items)
  {
    NodeCatalog.RegisteredKinds();
  }

  lemma NormKindsRegistered()
    ensures AllRegistered(NormCategory().items)
  {
    NodeCatalog.RegisteredKinds();
  }

  lemma DropoutKindsRegistered()
    ensures AllRegistered(DropoutCategory().items)
  {
    NodeCatalog.RegisteredKinds();
  }

  lemma TensorKindsRegistered()
    ensures AllRegistered(TensorCategory().items)
  {
    NodeCatalog.RegisteredKinds();
  }

  /** The flat list is registered when every category's list is. */
  lemma AllItemsRegistered(cats: seq<Category>)
    requires forall c :: c in cats ==> AllRegistered(c.items)
    ensures AllRegistered(AllItems(cats))
  {
  }

  /** Every category offers only kinds with default records. */
  lemma CategoriesRegistered()
    ensures forall c :: c in Categories() ==> AllRegistered(c.items)
  {
    InputKindsRegistered();
    ActivationKindsRegistered();
    ConvKindsRegistered();
    RecurrentKindsRegistered();
    PoolingKindsRegistered();
    NormKindsRegistered();
    DropoutKindsRegistered();
    TensorKindsRegistered();
  }

  /** Every kind the toolbox offers is a key of the default records, so a dropped node gets its defaults. */
  lemma CatalogKindsHaveDefaults()
    ensures AllRegistered(AllItems(Categories()))
  {
    CategoriesRegistered();
    AllItemsRegistered(Categories());
  }
}
