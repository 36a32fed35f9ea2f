/**
 * The image-type selector of the image input node. Its table holds a
 * black-and-white type with one channel and a colour type with three; the
 * shown selection is the type whose channel count is the node's
 * `numChannels`, and choosing a type sets the node's local channel count and
 * writes `numChannels` into the graph store.
 */
module ImageTypeSelector {
  import opened Wrappers
  import opened Numbers
  import opened Values

  /** One row of the selector's table. */
  datatype ImageType = ImageType(value: string, caption: string, channels: int)

  const ImageTypes: seq<ImageType> := [
    ImageType("BW", "Black and White", 1),
    ImageType("Color", "Color", 3)
  ]

  /** `type.channels === numChannels`: false for null and for NaN. */
  predicate HasChannels(t: ImageType, numChannels: Option<JsNum>) {
    numChannels.Some? && numChannels.value.Num? && ToReal(numChannels.value) == t.channels as real
  }

  /** `types.find(...)`: the first type with that channel count. */
  function Find(types: seq<ImageType>, numChannels: Option<JsNum>): (r: Option<ImageType>)
    ensures r.None? <==> forall i :: 0 <= i < |types| ==> !HasChannels(types[i], numChannels)
    ensures r.Some? ==> exists i :: (0 <= i < |types| && types[i] == r.value && HasChannels(r.value, numChannels)
                                     && forall j :: 0 <= j < i ==> !HasChannels(types[j], numChannels))
  {
    if types == [] then None
    else if HasChannels(types[0], numChannels) then
      assert types[0] == types[0];
      Some(types[0])
    else
      var r := Find(types[1..], numChannels);
      if r.Some? then
        var i :| 0 <= i < |types[1..]| && types[1..][i] == r.value && HasChannels(r.value, numChannels)
                 && forall j :: 0 <= j < i ==> !HasChannels(types[1..][j], numChannels);
        assert types[i + 1] == r.value;
        assert forall j :: 0 < j <= i ==> types[j] == types[1..][j - 1];
        r
      else
        assert forall i :: 0 < i < |types| ==> types[i] == types[1..][i - 1];
        r
  }

  /** The item the selector shows for the node's channel count. */
  function SelectedItem(numChannels: Option<JsNum>): Option<ImageType> {
    Find(ImageTypes, numChannels)
  }

  /** The shown caption, or the prompt when no type matches. */
  function Shown(numChannels: Option<JsNum>): string {
    match SelectedItem(numChannels)
    case Some(t) => t.caption
    case None => "Select an image type"
  }

  /** What choosing a type writes: the local channel count and the node's data patch. */
  function OnSelectedItemChange(t: ImageType): (r: (int, Data))
    ensures r.1.Keys == {"numChannels"} && r.1["numChannels"] == Number(Int(r.0))
  {
    (t.channels, map["numChannels" := Number(Int(t.channels))])
  }

  /** Black and white is one channel and colour is three. */
  lemma TableChannels()
    ensures |ImageTypes| == 2
    ensures ImageTypes[0].value == "BW" && ImageTypes[0].channels == 1
    ensures ImageTypes[1].value == "Color" && ImageTypes[1].channels == 3
  {
  }

  /** A type is shown exactly when the channel count is 1 or 3. */
  lemma SelectedExactly(numChannels: Option<JsNum>)
    ensures SelectedItem(numChannels).Some? <==>
            numChannels.Some? && numChannels.value.Num? &&
            (ToReal(numChannels.value) == 1.0 || ToReal(numChannels.value) == 3.0)
    ensures SelectedItem(Some(Int(1))) == Some(ImageTypes[0])
    ensures SelectedItem(Some(Int(3))) == Some(ImageTypes[1])
    ensures SelectedItem(None).None? && Shown(None) == "Select an image type"
  {
    assert ImageTypes[1..] == [ImageTypes[1]];
    assert Find(ImageTypes, numChannels) == if HasChannels(ImageTypes[0], numChannels) then Some(ImageTypes[0])
                                            else Find([ImageTypes[1]], numChannels);
    assert ToReal(Int(1)) == 1.0 && ToReal(Int(3)) == 3.0;
  }

  /** Choosing a type shows that type afterwards, and only 1 or 3 channels are ever written. */
  lemma SelectRoundTrip(t: ImageType)
    requires t in ImageTypes
    ensures var (channels, patch) := OnSelectedItemChange(t);
            (channels == 1 || channels == 3)
            && SelectedItem(Some(Int(channels))) == Some(t)
            && SelectedItem(NumberField(patch["numChannels"])) == Some(t)
  {
    SelectedExactly(Some(Int(t.channels)));
  }
}
