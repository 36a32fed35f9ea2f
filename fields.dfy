/**
 * The numeric parameter fields of the node panels. A field keeps the text
 * being typed; 200 ms after the last edit a timer parses it (empty text is
 * null, anything else `Number(text)`), checks it with the field's validator
 * and either sets the field's error or clears it and commits the value by
 * assigning it straight into the node's `data` object. The timer is a flag
 * here: an edit arms it (clearing any pending one) and `TimerFires` is the
 * callback running once the field has been quiet.
 */
module Fields {
  import opened Wrappers
  import opened Numbers
  import opened Values
  import Text

  /** The validator predicates the panels pass to their fields. */
  datatype Validator =
    | PositiveValue     // `value > 0`
    | NonNegativeValue  // `value >= 0`
    | Probability       // `value >= 0 && value <= 1`
    | NotBelowOne       // the input nodes' inline check: rejected only when `value < 1`

  /** Whether a parsed number passes the validator; NaN passes none of them. */
  predicate Accepts(rule: Validator, x: JsNum) {
    match rule
    case PositiveValue => Positive(x)
    case NonNegativeValue => NonNegative(x)
    case Probability => NonNegative(x) && AtMostOne(x)
    case NotBelowOne => !LessThanOne(x)
  }

  /**
   * What the validators mean on the values numbers denote. NaN fails every
   * comparison, so the inline check, which rejects `value < 1`, lets it through.
   */
  lemma AcceptsMeansBounds(rule: Validator, x: JsNum)
    ensures x.NaN? ==> (Accepts(rule, x) <==> rule == NotBelowOne)
    ensures x.Num? ==> (Accepts(rule, x) <==>
              match rule
              case PositiveValue => ToReal(x) > 0.0
              case NonNegativeValue => ToReal(x) >= 0.0
              case Probability => 0.0 <= ToReal(x) && !(ToReal(x) > 1.0)
              case NotBelowOne => ToReal(x) >= 1.0)
  {
    if x.Num? {
      ComparisonsMeanValues(x);
    }
  }

  /** How a panel wires one field: the `data` key it writes, its validator and its error text. */
  datatype Binding = Binding(dataKey: string, rule: Validator, errorMessage: string)

  /** `text ? Number(text) : null`. */
  function ParseField(text: string): (v: Option<JsNum>)
    ensures v.None? <==> text == ""
  {
    if text == "" then None else Some(JsNumber(text))
  }

  /** The outcome of a timer callback: an error, or the value committed. */
  datatype Commit = Rejected | Accepted(value: Option<JsNum>)

  /** An empty field commits null; a number commits only when the validator accepts it. */
  function CheckField(rule: Validator, text: string): (c: Commit)
    ensures c.Accepted? <==> text == "" || Accepts(rule, JsNumber(text))
    ensures c.Accepted? ==> c.value == ParseField(text)
  {
    var v := ParseField(text);
    if v.Some? && !Accepts(rule, v.value) then Rejected else Accepted(v)
  }

  /** Both texts are parsed; one failing value rejects the pair with a shared error. */
  function CheckPair(rule: Validator, text1: string, text2: string): (c: (Commit, Commit))
    ensures c.0.Accepted? <==> c.1.Accepted?
    ensures c.0.Accepted? <==> CheckField(rule, text1).Accepted? && CheckField(rule, text2).Accepted?
    ensures c.0.Accepted? ==> c == (CheckField(rule, text1), CheckField(rule, text2))
  {
    var c1, c2 := CheckField(rule, text1), CheckField(rule, text2);
    if c1.Rejected? || c2.Rejected? then (Rejected, Rejected) else (c1, c2)
  }

  /** Text that does not parse as a number is rejected by every validator but the inline one. */
  lemma NonNumericRejected(rule: Validator, text: string)
    requires text != "" && JsNumber(text).NaN? && rule != NotBelowOne
    ensures CheckField(rule, text) == Rejected
  {
  }

  /**
   * A field starts with the text of the stored value (`x.toString()`), and the
   * mount-time callback commits that same value back.
   */
  lemma StoredValueRecommits(rule: Validator, x: JsNum)
    requires Canonical(x) && Accepts(rule, x)
    ensures CheckField(rule, NumberText(x)) == Accepted(Some(x))
  {
    NumberOfNumberText(x);
    assert NumberText(x) != "" by {
      if x.Num? {
        NumberTextShape(x.m, x.e);
      }
    }
  }

  /** The text a field starts with: the stored value's `toString()`, or empty for null. */
  function InitialText(stored: Option<JsNum>): string {
    match stored
    case Some(x) => NumberText(x)
    case None => ""
  }

  /** A node's `data` object, which the fields assign into directly. */
  class DataObject {
    var fields: Data

    constructor(d: Data)
      ensures fields == d
    {
      fields := d;
    }
  }

  /** One validated, debounced numeric field bound to `target[dataKey]`. */
  class InputField {
    const dataKey: string
    const rule: Validator
    const errorMessage: string
    const target: DataObject
    var valueInput: string
    var valueError: Option<string>
    var value: Option<JsNum>
    var pending: bool

    /** Mounting shows the stored value's text and arms the timer (the effect runs on mount). */
    constructor(key: string, validator: Validator, message: string, data: DataObject, stored: Option<JsNum>)
      ensures dataKey == key && rule == validator && errorMessage == message && target == data
      ensures valueInput == InitialText(stored) && valueError.None? && value == stored && pending
    {
      dataKey, rule, errorMessage, target := key, validator, message, data;
      valueInput := InitialText(stored);
      valueError := None;
      value := stored;
      pending := true;
    }

    /** Typing replaces the text and restarts the timer; nothing is committed yet. */
    method Edit(text: string)
      modifies this
      ensures valueInput == text && pending
      ensures valueError == old(valueError) && value == old(value)
    {
      valueInput := text;
      pending := true;
    }

    /**
     * The timer callback: a rejected value sets the error and commits nothing;
     * an accepted one clears the error, writes `target[dataKey]` and the
     * local value. Without a pending timer nothing happens.
     */
    method TimerFires()
      modifies this, target
      ensures !pending && valueInput == old(valueInput)
      ensures !old(pending) ==> valueError == old(valueError) && value == old(value)
                                && target.fields == old(target.fields)
      ensures old(pending) ==>
        match CheckField(rule, valueInput)
        case Rejected =>
          valueError == Some(errorMessage) && value == old(value) && target.fields == old(target.fields)
        case Accepted(v) =>
          valueError.None? && value == v && target.fields == old(target.fields)[dataKey := OfNumber(v)]
    {
      if pending {
        match CheckField(rule, valueInput)
        case Rejected =>
          valueError := Some(errorMessage);
        case Accepted(v) =>
          valueError := None;
          target.fields := target.fields[dataKey := OfNumber(v)];
          value := v;
      }
      pending := false;
    }
  }

  /** Two debounced fields validated and committed together, with one shared error. */
  class DoubleInputField {
    const dataKey1: string
    const dataKey2: string
    const rule: Validator
    const errorMessage: string
    const target: DataObject
    var value1Input: string
    var value2Input: string
    var error: Option<string>
    var value1: Option<JsNum>
    var value2: Option<JsNum>
    var pending: bool

    constructor(key1: string, key2: string, validator: Validator, message: string, data: DataObject,
                stored1: Option<JsNum>, stored2: Option<JsNum>)
      ensures dataKey1 == key1 && dataKey2 == key2 && rule == validator && errorMessage == message
      ensures target == data
      ensures value1Input == InitialText(stored1) && value2Input == InitialText(stored2)
      ensures error.None? && value1 == stored1 && value2 == stored2 && pending
    {
      dataKey1, dataKey2, rule, errorMessage, target := key1, key2, validator, message, data;
      value1Input, value2Input := InitialText(stored1), InitialText(stored2);
      error := None;
      value1, value2 := stored1, stored2;
      pending := true;
    }

    /** Editing either text restarts the one timer. */
    method Edit(first: bool, text: string)
      modifies this
      ensures pending && error == old(error) && value1 == old(value1) && value2 == old(value2)
      ensures if first then value1Input == text && value2Input == old(value2Input)
              else value2Input == text && value1Input == old(value1Input)
    {
      if first {
        value1Input := text;
      } else {
        value2Input := text;
      }
      pending := true;
    }

    /** The timer callback: both values are committed, or neither and the shared error is set. */
    method TimerFires()
      modifies this, target
      ensures !pending && value1Input == old(value1Input) && value2Input == old(value2Input)
      ensures !old(pending) ==> error == old(error) && value1 == old(value1) && value2 == old(value2)
                                && target.fields == old(target.fields)
      ensures old(pending) ==>
        var (c1, c2) := CheckPair(rule, value1Input, value2Input);
        if c1.Accepted? then
          error.None? && value1 == c1.value && value2 == c2.value
          && target.fields == old(target.fields)[dataKey1 := OfNumber(c1.value)][dataKey2 := OfNumber(c2.value)]
        else
          error == Some(errorMessage) && value1 == old(value1) && value2 == old(value2)
          && target.fields == old(target.fields)
    {
      if pending {
        var (c1, c2) := CheckPair(rule, value1Input, value2Input);
        if c1.Accepted? {
          error := None;
          target.fields := target.fields[dataKey1 := OfNumber(c1.value)];
          target.fields := target.fields[dataKey2 := OfNumber(c2.value)];
          value1, value2 := c1.value, c2.value;
        } else {
          error := Some(errorMessage);
        }
      }
      pending := false;
    }
  }

  /** Two quick edits followed by one quiet period commit only the last text. */
  method DebounceExample()
  {
    var data := new DataObject(map[]);
    var field := new InputField("p", Probability, "Probability must be between 0 and 1.", data, None);
    HalfText();
    assert Accepts(Probability, Num(5, 1));
    assert CheckField(Probability, "0.5") == Accepted(Some(Num(5, 1)));
    field.Edit("2");
    field.Edit("0.5");
    field.TimerFires();
    assert data.fields == map["p" := Number(Num(5, 1))];
    assert field.valueError.None?;
    field.TimerFires();
    assert data.fields == map["p" := Number(Num(5, 1))];
  }
}
