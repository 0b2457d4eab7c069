/**
 * `VignetteBlock` (src/ImageProcessor.Web.Episerver.UI.Blocks/Models/Blocks/VignetteBlock.cs):
 * a method block that adds `vignette=<colour>` from its normalised `Color`.
 */
module VignetteBlocks {
  import opened Wrappers
  import opened Text
  import opened Urls
  import opened ExtensionCalls
  import opened ColorProperties
  import Current = UrlBuilderExtensions

  class VignetteBlock {
    /** The stored property value behind `Color`; null as `None`. */
    var color: Option<string>

    /** A block as loaded from the content repository, with the stored value. */
    constructor (stored: Option<string>)
      ensures color == stored
    {
      color := stored;
    }

    /** The `Color` getter. */
    function Color(): string
      reads this
    {
      ReadColor(color)
    }

    /** The `Color` setter: a null value throws and stores nothing. */
    method SetColor(value: Option<string>) returns (thrown: Option<ColorProperties.Error>)
      modifies this
      ensures StoreColor(value).Err? ==> thrown == Some(NullReference) && color == old(color)
      ensures StoreColor(value).Ok? ==> thrown.None? && color == Some(StoreColor(value).value)
    {
      if value.None? {
        return Some(NullReference);
      }
      color := Some(StoreColor(value).value);
      thrown := None;
    }

    /** `GetMethod(url)`: `url.Vignette(Color)`. */
    method GetMethod(url: UrlBuilder?) returns (r: Result<UrlBuilder, ExtensionCalls.Error>)
      modifies url
      ensures url == null ==> r == Err(ArgumentNull)
      ensures url != null ==> url.path == old(url.path)
      ensures url != null ==>
        r.Ok? && r.value == url
        && url.query == old(url.query) + Effect(Current.VignetteName(Color()), url.isEmpty).value
    {
      r := Apply(url, Current.VignetteName(Color()));
    }

    /** `SetDefaultValues`: the colour `000000`. */
    method SetDefaultValues()
      modifies this
      ensures color == Some("000000")
    {
      StoreBlack();
      var _ := SetColor(Some("000000"));
    }
  }

  /**
   * The vignette pair carries the stored colour lower-cased, without its
   * leading `#`, and `""` for a stored null; an empty builder gets nothing.
   */
  lemma VignettePairs(stored: Option<string>, isEmpty: bool)
    ensures Effect(Current.VignetteName(ReadColor(stored)), isEmpty)
      == Ok(if isEmpty then [] else [("vignette", ToLower(ReadColor(stored)))])
    ensures stored.None? ==> Effect(Current.VignetteName(ReadColor(stored)), false) == Ok([("vignette", "")])
    ensures var v := ToLower(ReadColor(stored)); |v| == 0 || v[0] != '#'
  {
    Current.GuardedEffect([("vignette", ToLower(ReadColor(stored)))]);
  }

  /** The default block adds `vignette=000000`. */
  lemma DefaultVignette()
    ensures Effect(Current.VignetteName(ReadColor(Some("000000"))), false) == Ok([("vignette", "000000")])
  {
    ReadKeepsExactlyUnhashed("000000");
    assert ToLower("000000") == "000000";
    VignettePairs(Some("000000"), false);
  }
}
