/**
 * `WatermarkBlock` (src/ImageProcessor.Web.Episerver.UI.Blocks/Models/Blocks/WatermarkBlock.cs):
 * a method block that writes its `Text` on the image at `(X, Y)` in its
 * normalised `Color`, forwarding every other field to
 * `UrlBuilderExtensions.Watermark` in declaration order.
 */
module WatermarkBlocks {
  import opened Wrappers
  import opened Text
  import opened Urls
  import opened ExtensionCalls
  import opened ColorProperties
  import I = Imaging
  import Current = UrlBuilderExtensions
  import Sequences

  /** The stored fields of a block; `color` is the stored value behind `Color`, null as `None`. */
  datatype WatermarkSettings = WatermarkSettings(
    text: Option<string>, x: int, y: int, color: Option<string>, fontFamily: Option<string>,
    size: int, style: I.FontStyle, opacity: int, dropshadow: bool, vertical: bool, rtl: bool)

  /** The call `GetMethod` makes: the position is `(X, Y)` and the colour the getter's value. */
  function WatermarkMethod(s: WatermarkSettings): Call
  {
    Current.Watermark(s.text, Some(I.Point(s.x, s.y)), Current.ColorText(Some(ReadColor(s.color))), s.fontFamily,
                      s.size, s.style, s.opacity, s.dropshadow, s.vertical, s.rtl)
  }

  /** The fields `SetDefaultValues` leaves a block with; `X` and `Y` keep their values. */
  function DefaultSettings(x: int, y: int): WatermarkSettings
  {
    WatermarkSettings(Some(""), x, y, Some("ffffff"), None, 48, I.Bold, 100, false, false, false)
  }

  class WatermarkBlock {
    var position: Option<I.Point>
    var text: Option<string>
    var x: int
    var y: int
    var color: Option<string>
    var fontFamily: Option<string>
    var size: int
    var style: I.FontStyle
    var opacity: int
    var dropshadow: bool
    var vertical: bool
    var rtl: bool

    function Settings(): WatermarkSettings
      reads this
    {
      WatermarkSettings(text, x, y, color, fontFamily, size, style, opacity, dropshadow, vertical, rtl)
    }

    /** A block as loaded from the content repository; the private position starts null. */
    constructor (s: WatermarkSettings)
      ensures Settings() == s && position.None?
    {
      position := None;
      text := s.text;
      x := s.x;
      y := s.y;
      color := s.color;
      fontFamily := s.fontFamily;
      size := s.size;
      style := s.style;
      opacity := s.opacity;
      dropshadow := s.dropshadow;
      vertical := s.vertical;
      rtl := s.rtl;
    }

    /** The `Color` getter. */
    function Color(): string
      reads this
    {
      ReadColor(color)
    }

    /** The `Color` setter: a null value throws and stores nothing. */
    method SetColor(value: Option<string>) returns (thrown: Option<ColorProperties.Error>)
      modifies this`color
      ensures StoreColor(value).Err? ==> thrown == Some(NullReference) && color == old(color)
      ensures StoreColor(value).Ok? ==> thrown.None? && color == Some(StoreColor(value).value)
    {
      if value.None? {
        return Some(NullReference);
      }
      color := Some(StoreColor(value).value);
      thrown := None;
    }

    /**
     * `GetMethod(url)`: the position is set to `(X, Y)` first, then the
     * watermark is added to the same builder, or its exception thrown.
     */
    method GetMethod(url: UrlBuilder?) returns (r: Result<UrlBuilder, ExtensionCalls.Error>)
      modifies this, url
      ensures position == Some(I.Point(x, y)) && Settings() == old(Settings())
      ensures url == null ==> r == Err(ArgumentNull)
      ensures url != null ==> url.path == old(url.path)
      ensures url != null ==>
        match Effect(WatermarkMethod(Settings()), url.isEmpty)
        case Err(e) => r == Err(e) && url.query == old(url.query)
        case Ok(pairs) => r.Ok? && r.value == url && url.query == old(url.query) + pairs
    {
      position := Some(I.Point(x, y));
      r := Apply(url, Current.Watermark(text, position, Current.ColorText(Some(Color())), fontFamily,
                                        size, style, opacity, dropshadow, vertical, rtl));
    }

    /** The font fields `SetDefaultValues` sets: no family, bold 48, opaque, no shadow, horizontal, left to right. */
    method SetFontDefaults()
      modifies this`fontFamily, this`size, this`style, this`opacity, this`dropshadow, this`vertical, this`rtl
      ensures fontFamily.None? && size == 48 && style == I.Bold && opacity == 100
      ensures !dropshadow && !vertical && !rtl
    {
      fontFamily := None;
      size := 48;
      style := I.Bold;
      opacity := 100;
      dropshadow := false;
      vertical := false;
      rtl := false;
    }

    /** `SetDefaultValues`; the colour goes through the setter, which stores `ffffff`. */
    method SetDefaultValues()
      modifies this
      ensures Settings() == DefaultSettings(old(x), old(y))
      ensures position == Some(I.Point(x, y))
    {
      text := Some("");
      var _ := SetColor(Some("#ffffff"));
      position := Some(I.Point(x, y));
      SetFontDefaults();
      StoreWhite();
    }
  }

  /** The pairs a watermark with a usable text adds. */
  function WatermarkPairs(s: WatermarkSettings, isEmpty: bool): seq<Pair>
    requires s.text.Some?
  {
    (if isEmpty then [] else [("watermark", s.text.value)])
    + Opt(s.fontFamily.Some?, "fontfamily", s.fontFamily.GetOr(""))
    + [("color", ToLower(ReadColor(s.color))),
       ("textposition", Current.Csv([IntToString(s.x), IntToString(s.y)]))]
    + Current.FontPairs(s.size, s.style, s.opacity, s.dropshadow, s.vertical, s.rtl)
  }

  /**
   * A block throws `ArgumentNullException` exactly when its text is null or
   * white space.  Otherwise it adds the text (to a non-empty builder only),
   * the font family when set, then always the colour, because the getter never
   * returns null, and the position `X,Y`, and last the six font pairs.
   */
  lemma WatermarkRule(s: WatermarkSettings, isEmpty: bool)
    ensures Effect(WatermarkMethod(s), isEmpty).Err? <==> IsNullOrWhiteSpace(s.text)
    ensures IsNullOrWhiteSpace(s.text) ==> Effect(WatermarkMethod(s), isEmpty) == Err(ArgumentNull)
    ensures !IsNullOrWhiteSpace(s.text) ==> Effect(WatermarkMethod(s), isEmpty) == Ok(WatermarkPairs(s, isEmpty))
  {
    if !IsNullOrWhiteSpace(s.text) {
      var guarded := [("watermark", s.text.value)];
      var options := Current.WatermarkOptions(Some(I.Point(s.x, s.y)), Current.ColorText(Some(ReadColor(s.color))), s.fontFamily);
      var font := Current.FontPairs(s.size, s.style, s.opacity, s.dropshadow, s.vertical, s.rtl);
      var family := Opt(s.fontFamily.Some?, "fontfamily", s.fontFamily.GetOr(""));
      var rest := [("color", ToLower(ReadColor(s.color))), ("textposition", Current.Csv([IntToString(s.x), IntToString(s.y)]))];
      OptionsOfBlock(s);
      var before: seq<Pair> := if isEmpty then [] else guarded;
      assert WatermarkMethod(s) == Appends(guarded, options + font);
      assert (if isEmpty then options + font else guarded + (options + font)) == before + (options + font);
      assert Effect(WatermarkMethod(s), isEmpty) == Ok(before + (options + font));
      assert options + font == family + rest + font;
      Sequences.Regroup4(before, family, rest, font);
      assert WatermarkPairs(s, isEmpty) == before + family + rest + font;
    }
  }

  /** The block always passes a colour and a position, so both pairs follow the optional font family. */
  lemma OptionsOfBlock(s: WatermarkSettings)
    ensures Current.WatermarkOptions(Some(I.Point(s.x, s.y)), Current.ColorText(Some(ReadColor(s.color))), s.fontFamily)
      == Opt(s.fontFamily.Some?, "fontfamily", s.fontFamily.GetOr(""))
         + [("color", ToLower(ReadColor(s.color))), ("textposition", Current.Csv([IntToString(s.x), IntToString(s.y)]))]
  {
    var c := ("color", ToLower(ReadColor(s.color)));
    var p := ("textposition", Current.Csv([IntToString(s.x), IntToString(s.y)]));
    assert Current.ColorText(Some(ReadColor(s.color))).QueryValue() == Some(c.1);
    assert Opt(true, "color", c.1) == [c];
    assert Opt(true, "textposition", p.1) == [p];
    var f := Opt(s.fontFamily.Some?, "fontfamily", s.fontFamily.GetOr(""));
    assert f + [c] + [p] == f + [c, p];
  }

  /** A block with the default values throws: its text is empty. */
  lemma DefaultWatermarkThrows(x: int, y: int, isEmpty: bool)
    ensures Effect(WatermarkMethod(DefaultSettings(x, y)), isEmpty) == Err(ArgumentNull)
  {
    WatermarkRule(DefaultSettings(x, y), isEmpty);
  }
}
