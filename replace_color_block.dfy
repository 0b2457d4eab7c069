/**
 * `ReplaceColorBlock` (src/ImageProcessor.Web.Episerver.UI.Blocks/Models/Blocks/ReplaceColorBlock.cs):
 * a method block that replaces `ColorFrom` with `ColorTo`, both normalised,
 * with an optional `Fuziness`.
 */
module ReplaceColorBlocks {
  import opened Wrappers
  import opened Text
  import opened Urls
  import opened ExtensionCalls
  import opened ColorProperties
  import Current = UrlBuilderExtensions

  class ReplaceColorBlock {
    /** The stored property values behind `ColorFrom` and `ColorTo`; null as `None`. */
    var colorFrom: Option<string>
    var colorTo: Option<string>
    var fuziness: int

    /** A block as loaded from the content repository, with the stored values. */
    constructor (storedFrom: Option<string>, storedTo: Option<string>, fuziness: int)
      ensures colorFrom == storedFrom && colorTo == storedTo && this.fuziness == fuziness
    {
      colorFrom := storedFrom;
      colorTo := storedTo;
      this.fuziness := fuziness;
    }

    /** The `ColorFrom` getter. */
    function ColorFrom(): string
      reads this
    {
      ReadColor(colorFrom)
    }

    /** The `ColorTo` getter. */
    function ColorTo(): string
      reads this
    {
      ReadColor(colorTo)
    }

    /** The `ColorFrom` setter: a null value throws and stores nothing. */
    method SetColorFrom(value: Option<string>) returns (thrown: Option<ColorProperties.Error>)
      modifies this
      ensures StoreColor(value).Err? ==> thrown == Some(NullReference) && colorFrom == old(colorFrom)
      ensures StoreColor(value).Ok? ==> thrown.None? && colorFrom == Some(StoreColor(value).value)
      ensures colorTo == old(colorTo) && fuziness == old(fuziness)
    {
      if value.None? {
        return Some(NullReference);
      }
      colorFrom := Some(StoreColor(value).value);
      thrown := None;
    }

    /** The `ColorTo` setter: a null value throws and stores nothing. */
    method SetColorTo(value: Option<string>) returns (thrown: Option<ColorProperties.Error>)
      modifies this
      ensures StoreColor(value).Err? ==> thrown == Some(NullReference) && colorTo == old(colorTo)
      ensures StoreColor(value).Ok? ==> thrown.None? && colorTo == Some(StoreColor(value).value)
      ensures colorFrom == old(colorFrom) && fuziness == old(fuziness)
    {
      if value.None? {
        return Some(NullReference);
      }
      colorTo := Some(StoreColor(value).value);
      thrown := None;
    }

    /** `GetMethod(url)`: `url.ReplaceColor(ColorFrom, ColorTo, Fuziness)`. */
    method GetMethod(url: UrlBuilder?) returns (r: Result<UrlBuilder, ExtensionCalls.Error>)
      modifies url
      ensures url == null ==> r == Err(ArgumentNull)
      ensures url != null ==> url.path == old(url.path)
      ensures url != null ==>
        r.Ok? && r.value == url
        && url.query == old(url.query) + Effect(Current.ReplaceColor(ColorFrom(), ColorTo(), fuziness), url.isEmpty).value
    {
      r := Apply(url, Current.ReplaceColor(ColorFrom(), ColorTo(), fuziness));
    }
  }

  /** The `replace` value: both colours, normalised and lower-cased, joined by a comma. */
  function ReplaceValue(storedFrom: Option<string>, storedTo: Option<string>): string
  {
    ToLower(ReadColor(storedFrom)) + "," + ToLower(ReadColor(storedTo))
  }

  /**
   * A non-empty builder gets `replace=from,to` and then `fuzziness` exactly
   * when the fuzziness is positive; an empty builder gets only the
   * fuzziness.  Neither colour in the value starts with `#`.
   */
  lemma ReplacePairs(storedFrom: Option<string>, storedTo: Option<string>, fuziness: int, isEmpty: bool)
    ensures var call := Current.ReplaceColor(ReadColor(storedFrom), ReadColor(storedTo), fuziness);
      var fuzziness: seq<Pair> := if fuziness > 0 then [("fuzziness", IntToString(fuziness))] else [];
      Effect(call, isEmpty) == Ok(if isEmpty then fuzziness else [("replace", ReplaceValue(storedFrom, storedTo))] + fuzziness)
    ensures var v := ReplaceValue(storedFrom, storedTo); |v| > 0 && (v[0] == ',' || v[0] != '#')
    ensures ReplaceValue(storedFrom, storedTo)[|ToLower(ReadColor(storedFrom))|] == ','
  {
  }

  /** The default fuzziness 0 adds no `fuzziness` pair; a negative one adds none either. */
  lemma NoFuzzinessUnlessPositive(storedFrom: Option<string>, storedTo: Option<string>, fuziness: int)
    requires fuziness <= 0
    ensures Effect(Current.ReplaceColor(ReadColor(storedFrom), ReadColor(storedTo), fuziness), false)
      == Ok([("replace", ReplaceValue(storedFrom, storedTo))])
    ensures Effect(Current.ReplaceColor(ReadColor(storedFrom), ReadColor(storedTo), fuziness), true) == Ok([])
  {
    ReplacePairs(storedFrom, storedTo, fuziness, false);
    assert [("replace", ReplaceValue(storedFrom, storedTo))] + [] == [("replace", ReplaceValue(storedFrom, storedTo))];
  }
}
