/**
 * The fluent `UrlBuilder` extension methods of the ImageProcessor query
 * language (src/ImageProcessor.Web.Episerver/Extensions/UrlBuilderExtensions.cs).
 *
 * Each extension method is a function giving its `Call`: the exception its
 * argument checks throw, or the pairs it appends inside and outside its
 * `IsEmpty` test.  `ExtensionCalls.Apply` runs a call on a builder in place.
 * Overloads get distinct names (`...Name` for the string overloads,
 * `...Known` for the `KnownColor` ones).
 */
module UrlBuilderExtensions {
  import opened Wrappers
  import opened Text
  import opened Urls
  import opened ExtensionCalls
  import I = Imaging
  import Sequences

  function Csv(parts: seq<string>): string
  {
    Join(",", parts)
  }

  /** A call whose pairs all sit inside the `IsEmpty` test. */
  function Guarded(pairs: seq<Pair>): Call
  {
    Appends(pairs, [])
  }

  lemma GuardedEffect(pairs: seq<Pair>)
    ensures Effect(Guarded(pairs), false) == Ok(pairs)
    ensures Effect(Guarded(pairs), true) == Ok([])
  {
    assert pairs + [] == pairs;
  }

  /** `$"{c.R},{c.G},{c.B},{c.A}"` */
  function Rgba(c: I.Color): string
  {
    Csv([IntToString(c.r), IntToString(c.g), IntToString(c.b), IntToString(c.a)])
  }

  function Add(key: string, value: string): Call
  {
    Guarded([(key, value)])
  }

  function AddCollection(collection: seq<Pair>): Call
  {
    Guarded(collection)
  }

  function Alpha(percentage: int): Call
  {
    if percentage < 0 || percentage > 100 then Throws(ArgumentOutOfRange)
    else Guarded([("alpha", IntToString(percentage))])
  }

  function AnimationProcessMode(mode: I.AnimationProcessMode): Call
  {
    Guarded([("animationprocessmode", ToLower(mode.Name()))])
  }

  function Autorotate(rotate: bool): Call
  {
    Guarded([("autorotate", LowerBool(rotate))])
  }

  function BackgroundColorName(color: string): Call
  {
    Guarded([("bgcolor", ToLower(color))])
  }

  function BackgroundColor(r: int, g: int, b: int, a: int): Call
  {
    if r < 0 || g < 0 || b < 0 || a < 0 || r > 255 || g > 255 || b > 255 || a > 55 then Throws(ArgumentOutOfRange)
    else Guarded([("bgcolor", Csv([IntToString(r), IntToString(g), IntToString(b), IntToString(a)]))])
  }

  function Contrast(contrast: int): Call
  {
    if contrast < 0 || contrast > 100 then Throws(ArgumentOutOfRange)
    else Guarded([("contrast", IntToString(contrast))])
  }

  function Crop(x: int, y: int, width: int, height: int, mode: I.CropMode): Call
  {
    Appends([("crop", Csv([IntToString(x), IntToString(y), IntToString(width), IntToString(height)]))],
            if mode == I.Percentage then [("cropmode", ToLower(mode.Name()))] else [])
  }

  function DetectEdgesName(filter: string, greyscale: bool): Call
  {
    Guarded([("detectedges", filter), ("greyscale", LowerBool(greyscale))])
  }

  function DetectEdges(filter: I.DetectEdgesFilter, greyscale: bool): Call
  {
    Guarded([("detectedges", ToLower(filter.Name())), ("greyscale", LowerBool(greyscale))])
  }

  function EntropyCrop(entropy: int): Call
  {
    Guarded([("entropycrop", IntToString(entropy))])
  }

  function FilterName(filter: string): Call
  {
    Guarded([("filter", filter)])
  }

  function Filter(filter: I.Filter): Call
  {
    Guarded([("filter", ToLower(filter.Name()))])
  }

  function FlipName(direction: string): Call
  {
    Guarded([("flip", direction)])
  }

  function Flip(direction: I.FlipDirection): Call
  {
    Guarded([("flip", ToLower(direction.Name()))])
  }

  function FormatName(format: string): Call
  {
    Guarded([("format", format)])
  }

  function Format(format: I.ImageFormat): Call
  {
    Guarded([("format", ToLower(format.Name()))])
  }

  function Gamma(gamma: I.Float): Call
  {
    Guarded([("gamma", gamma.text)])
  }

  /** `Blur` and `Sharpen` share their checks: kernel size 0..22, sigma 0..5.1, threshold 0..100. */
  function KernelFilter(key: string, kernelsize: int, sigma: I.Float, threshold: int): Call
  {
    if kernelsize < 0 || kernelsize > 22 then Throws(ArgumentOutOfRange)
    else if sigma.value < 0.0 || sigma.value > 5.1 then Throws(ArgumentOutOfRange)
    else if threshold < 0 || threshold > 100 then Throws(ArgumentOutOfRange)
    else Guarded([(key, IntToString(kernelsize)), ("sigma", sigma.text), ("threshold", IntToString(threshold))])
  }

  function Blur(kernelsize: int, sigma: I.Float, threshold: int): Call
  {
    KernelFilter("blur", kernelsize, sigma, threshold)
  }

  function Sharpen(kernelsize: int, sigma: I.Float, threshold: int): Call
  {
    KernelFilter("sharpen", kernelsize, sigma, threshold)
  }

  function Halftone(comicMode: bool): Call
  {
    Guarded([("halftone", if comicMode then "comic" else "")])
  }

  function Hue(angle: int, rotate: bool): Call
  {
    if angle < 0 || angle > 360 then Throws(ArgumentOutOfRange)
    else Guarded([("hue", IntToString(angle)), ("hue.rotate", LowerBool(rotate))])
  }

  function Mask(mask: Option<string>, x: int, y: int): Call
  {
    if IsNullOrWhiteSpace(mask) then Throws(ArgumentNull)
    else Guarded([("mask", mask.value), ("mask.position", Csv([IntToString(x), IntToString(y)]))])
  }

  function Meta(preserve: bool): Call
  {
    Guarded([("metadata", LowerBool(preserve))])
  }

  function Overlay(overlay: Option<string>, x: int, y: int, width: int, height: int, opacity: int): Call
  {
    if IsNullOrWhiteSpace(overlay) then Throws(ArgumentNull)
    else if x < 0 || y < 0 || width <= 0 || height <= 0 || opacity < 0 then Throws(ArgumentOutOfRange)
    else Guarded([("overlay", overlay.value), ("overlay.position", Csv([IntToString(x), IntToString(y)])),
                  ("overlay.size", Csv([IntToString(width), IntToString(height)])),
                  ("overlay.opacity", IntToString(opacity))])
  }

  function Pixelate(size: int): Call
  {
    if size <= 0 then Throws(ArgumentOutOfRange) else Guarded([("pixelate", IntToString(size))])
  }

  function Quality(quality: int): Call
  {
    if quality <= 0 || quality > 100 then Throws(ArgumentOutOfRange) else Guarded([("quality", IntToString(quality))])
  }

  /** A pair added only when `cond` holds. */
  function Fuzziness(fuzziness: int): seq<Pair>
  {
    if fuzziness > 0 then [("fuzziness", IntToString(fuzziness))] else []
  }

  function ReplaceKnownColor(colorFrom: I.KnownColor, colorTo: I.KnownColor, fuzziness: int): Call
  {
    Appends([("replace", ToLower(colorFrom.name) + "," + ToLower(colorTo.name))], Fuzziness(fuzziness))
  }

  function ReplaceColor(colorFrom: string, colorTo: string, fuzziness: int): Call
  {
    Appends([("replace", ToLower(colorFrom) + "," + ToLower(colorTo))], Fuzziness(fuzziness))
  }

  /** `(float?)0`, put in place of a missing centre coordinate. */
  const Zero := I.Float(0.0, "0")

  /** The full `Resize` overload, which the other three forward to. */
  function Resize(width: Option<int>, height: Option<int>, widthratio: Option<I.Float>, heightratio: Option<I.Float>,
                  centerX: Option<I.Float>, centerY: Option<I.Float>, mode: I.ResizeMode, anchor: I.AnchorPosition,
                  upscale: bool): Call
  {
    Guarded(ResizePairs(width, height, widthratio, heightratio, centerX, centerY, mode, anchor, upscale))
  }

  function ResizePairs(width: Option<int>, height: Option<int>, widthratio: Option<I.Float>, heightratio: Option<I.Float>,
                       centerX: Option<I.Float>, centerY: Option<I.Float>, mode: I.ResizeMode, anchor: I.AnchorPosition,
                       upscale: bool): seq<Pair>
  {
    ResizeLayout(width.Some?, IntToString(width.GetOr(0)),
                 height.Some?, IntToString(height.GetOr(0)),
                 widthratio.Some?, widthratio.GetOr(Zero).text,
                 heightratio.Some?, heightratio.GetOr(Zero).text,
                 mode != I.Pad, ToLower(mode.Name()),
                 anchor != I.Center, ToLower(anchor.Name()),
                 !upscale, LowerBool(upscale),
                 centerX.Some? || centerY.Some?, Csv([centerX.GetOr(Zero).text, centerY.GetOr(Zero).text]))
  }

  /** The order in which `Resize` writes its eight optional parameters. */
  function ResizeLayout(onWidth: bool, width: string, onHeight: bool, height: string,
                        onWidthRatio: bool, widthratio: string, onHeightRatio: bool, heightratio: string,
                        onMode: bool, mode: string, onAnchor: bool, anchor: string,
                        onUpscale: bool, upscale: string, onCenter: bool, center: string): seq<Pair>
  {
    Opt(onWidth, "width", width) + Opt(onHeight, "height", height)
    + Opt(onWidthRatio, "widthratio", widthratio) + Opt(onHeightRatio, "heightratio", heightratio)
    + Opt(onMode, "mode", mode) + Opt(onAnchor, "anchor", anchor)
    + Opt(onUpscale, "upscale", upscale) + Opt(onCenter, "center", center)
  }

  function ResizeCrop(width: Option<int>, height: Option<int>, centerX: Option<I.Float>, centerY: Option<I.Float>,
                      anchor: I.AnchorPosition, upscale: bool): Call
  {
    Resize(width, height, None, None, centerX, centerY, I.ResizeMode.Crop, anchor, upscale)
  }

  function ResizeCropRatio(widthratio: Option<I.Float>, heightratio: Option<I.Float>, centerX: Option<I.Float>,
                           centerY: Option<I.Float>, anchor: I.AnchorPosition, upscale: bool): Call
  {
    Resize(None, None, widthratio, heightratio, centerX, centerY, I.ResizeMode.Crop, anchor, upscale)
  }

  function ResizeTo(width: Option<int>, height: Option<int>, mode: I.ResizeMode, anchor: I.AnchorPosition, upscale: bool): Call
  {
    Resize(width, height, None, None, None, None, mode, anchor, upscale)
  }

  function Width(width: int): Call
  {
    Guarded([("width", IntToString(width))])
  }

  function Height(height: int): Call
  {
    Guarded([("height", IntToString(height))])
  }

  function Rotate(angle: I.Float): Call
  {
    Guarded([("rotate", angle.text)])
  }

  function RotateBounded(angle: I.Float, keepSize: bool): Call
  {
    Appends([("rotatebounded", angle.text)], if keepSize then [("rotatebounded.keepsize", LowerBool(keepSize))] else [])
  }

  /** The corner pair added for a corner that is switched off. */
  function Corner(key: string, on: bool): seq<Pair>
  {
    if !on then [(key, LowerBool(on))] else []
  }

  function RoundedCorners(radius: int, topLeft: bool, topRight: bool, bottomLeft: bool, bottomRight: bool): Call
  {
    if radius < 0 then Throws(ArgumentOutOfRange)
    else Appends([("roundedcorners", IntToString(radius))],
                 Corner("tl", topLeft) + Corner("tr", topRight) + Corner("bl", bottomLeft) + Corner("br", bottomRight))
  }

  function Saturation(saturation: int): Call
  {
    if saturation < -100 || saturation > 100 then Throws(ArgumentOutOfRange)
    else Guarded([("saturation", IntToString(saturation))])
  }

  function TintName(color: string): Call
  {
    Guarded([("tint", ToLower(color))])
  }

  function TintKnown(color: I.KnownColor): Call
  {
    Guarded([("tint", ToLower(color.name))])
  }

  function Tint(color: I.Color): Call
  {
    Guarded([("tint", Rgba(color))])
  }

  function Vignette(vignette: bool): Call
  {
    Guarded([("vignette", LowerBool(vignette))])
  }

  function VignetteName(color: string): Call
  {
    Guarded([("vignette", ToLower(color))])
  }

  function VignetteKnown(color: I.KnownColor): Call
  {
    Guarded([("vignette", ToLower(color.name))])
  }

  function VignetteColor(color: I.Color): Call
  {
    Guarded([("vignette", Rgba(color))])
  }

  /** The colour argument of the three `Watermark` overloads (null as `None`). */
  datatype WatermarkColor =
    | ColorText(text: Option<string>)
    | ColorKnown(known: Option<I.KnownColor>)
    | ColorValue(color: Option<I.Color>)
  {
    /** The value of the `color` pair, when one is added. */
    function QueryValue(): Option<string>
    {
      match this
      case ColorText(t) => if t.Some? then Some(ToLower(t.value)) else None
      case ColorKnown(k) => if k.Some? then Some(ToLower(k.value.name)) else None
      case ColorValue(c) => if c.Some? then Some(ToLower(c.value.knownName)) else None
    }
  }

  /** The three `Watermark` overloads; `font` is the font family's name. */
  function Watermark(text: Option<string>, position: Option<I.Point>, color: WatermarkColor, font: Option<string>,
                     size: int, style: I.FontStyle, opacity: int, dropshadow: bool, vertical: bool, rtl: bool): Call
  {
    if IsNullOrWhiteSpace(text) then Throws(ArgumentNull)
    else Appends([("watermark", text.value)],
                 WatermarkOptions(position, color, font) + FontPairs(size, style, opacity, dropshadow, vertical, rtl))
  }

  /** `fontfamily`, `color` and `textposition`, each only when given. */
  function WatermarkOptions(position: Option<I.Point>, color: WatermarkColor, font: Option<string>): seq<Pair>
  {
    Opt(font.Some?, "fontfamily", font.GetOr(""))
    + Opt(color.QueryValue().Some?, "color", color.QueryValue().GetOr(""))
    + Opt(position.Some?, "textposition", Csv([IntToString(position.GetOr(I.Point(0, 0)).x), IntToString(position.GetOr(I.Point(0, 0)).y)]))
  }

  function FontPairs(size: int, style: I.FontStyle, opacity: int, dropshadow: bool, vertical: bool, rtl: bool): seq<Pair>
  {
    [("fontsize", IntToString(size)), ("fontstyle", style.text), ("fontopacity", IntToString(opacity)),
     ("dropshadow", LowerBool(dropshadow)), ("vertical", LowerBool(vertical)), ("rtl", LowerBool(rtl))]
  }

  // ---------------------------------------------------------------------------------------------
  // Properties

  /** `Alpha` throws `ArgumentOutOfRangeException` outside 0..100 and otherwise adds one `alpha` pair. */
  lemma AlphaRange(percentage: int)
    ensures Alpha(percentage).Throws? <==> percentage < 0 || percentage > 100
    ensures Alpha(percentage).Throws? ==> Alpha(percentage).error == ArgumentOutOfRange
    ensures Alpha(percentage).Appends? ==> Effect(Alpha(percentage), false) == Ok([("alpha", IntToString(percentage))])
  {
    GuardedEffect([("alpha", IntToString(percentage))]);
  }

  /** `Contrast` throws outside 0..100 and otherwise adds one `contrast` pair. */
  lemma ContrastRange(contrast: int)
    ensures Contrast(contrast).Throws? <==> contrast < 0 || contrast > 100
    ensures Contrast(contrast).Throws? ==> Contrast(contrast).error == ArgumentOutOfRange
    ensures Contrast(contrast).Appends? ==> Effect(Contrast(contrast), false) == Ok([("contrast", IntToString(contrast))])
  {
    GuardedEffect([("contrast", IntToString(contrast))]);
  }

  /** `Hue` throws outside 0..360 and otherwise adds `hue` and `hue.rotate`. */
  lemma HueRange(angle: int, rotate: bool)
    ensures Hue(angle, rotate).Throws? <==> angle < 0 || angle > 360
    ensures Hue(angle, rotate).Throws? ==> Hue(angle, rotate).error == ArgumentOutOfRange
    ensures Hue(angle, rotate).Appends? ==>
      Effect(Hue(angle, rotate), false) == Ok([("hue", IntToString(angle)), ("hue.rotate", if rotate then "true" else "false")])
  {
    GuardedEffect([("hue", IntToString(angle)), ("hue.rotate", LowerBool(rotate))]);
  }

  /** `Pixelate` throws for a size below 1 and otherwise adds one `pixelate` pair. */
  lemma PixelateRange(size: int)
    ensures Pixelate(size).Throws? <==> size < 1
    ensures Pixelate(size).Throws? ==> Pixelate(size).error == ArgumentOutOfRange
    ensures Pixelate(size).Appends? ==> Effect(Pixelate(size), false) == Ok([("pixelate", IntToString(size))])
  {
    GuardedEffect([("pixelate", IntToString(size))]);
  }

  /** `Quality` throws outside 1..100 and otherwise adds one `quality` pair. */
  lemma QualityRange(quality: int)
    ensures Quality(quality).Throws? <==> quality < 1 || quality > 100
    ensures Quality(quality).Throws? ==> Quality(quality).error == ArgumentOutOfRange
    ensures Quality(quality).Appends? ==> Effect(Quality(quality), false) == Ok([("quality", IntToString(quality))])
  {
    GuardedEffect([("quality", IntToString(quality))]);
  }

  /** `Saturation` throws outside -100..100 and otherwise adds one `saturation` pair. */
  lemma SaturationRange(saturation: int)
    ensures Saturation(saturation).Throws? <==> saturation < -100 || saturation > 100
    ensures Saturation(saturation).Throws? ==> Saturation(saturation).error == ArgumentOutOfRange
    ensures Saturation(saturation).Appends? ==> Effect(Saturation(saturation), false) == Ok([("saturation", IntToString(saturation))])
  {
    GuardedEffect([("saturation", IntToString(saturation))]);
  }

  /** `RoundedCorners` throws for a negative radius and otherwise starts with one `roundedcorners` pair. */
  lemma RoundedCornersRange(radius: int, tl: bool, tr: bool, bl: bool, br: bool)
    ensures RoundedCorners(radius, tl, tr, bl, br).Throws? <==> radius < 0
    ensures RoundedCorners(radius, tl, tr, bl, br).Throws? ==> RoundedCorners(radius, tl, tr, bl, br).error == ArgumentOutOfRange
    ensures RoundedCorners(radius, tl, tr, bl, br).Appends? ==>
      RoundedCorners(radius, tl, tr, bl, br).guarded == [("roundedcorners", IntToString(radius))]
  {
  }

  /** `BackgroundColor(r, g, b, a)` rejects a negative channel, r/g/b above 255 and a above 55; otherwise one `bgcolor`. */
  lemma BackgroundColorRange(r: int, g: int, b: int, a: int)
    ensures BackgroundColor(r, g, b, a).Throws? <==> !(0 <= r <= 255 && 0 <= g <= 255 && 0 <= b <= 255 && 0 <= a <= 55)
    ensures BackgroundColor(r, g, b, a).Appends? ==>
      Effect(BackgroundColor(r, g, b, a), false)
      == Ok([("bgcolor", IntToString(r) + "," + IntToString(g) + "," + IntToString(b) + "," + IntToString(a))])
  {
    JoinFour(",", IntToString(r), IntToString(g), IntToString(b), IntToString(a));
    GuardedEffect([("bgcolor", Csv([IntToString(r), IntToString(g), IntToString(b), IntToString(a)]))]);
  }

  const ResizeKeys: set<string> := {"width", "height", "widthratio", "heightratio", "mode", "anchor", "upscale", "center"}

  /** `Resize` emits `width` exactly when a width is given. */
  lemma ResizeWidth(width: Option<int>, height: Option<int>, widthratio: Option<I.Float>, heightratio: Option<I.Float>,
      centerX: Option<I.Float>, centerY: Option<I.Float>, mode: I.ResizeMode, anchor: I.AnchorPosition, upscale: bool)
    ensures Values(ResizePairs(width, height, widthratio, heightratio, centerX, centerY, mode, anchor, upscale), "width")
      == (if width.Some? then [IntToString(width.value)] else [])
  {
    ResizeLayoutWidth(width.Some?, IntToString(width.GetOr(0)), height.Some?, IntToString(height.GetOr(0)),
      widthratio.Some?, widthratio.GetOr(Zero).text, heightratio.Some?, heightratio.GetOr(Zero).text,
      mode != I.Pad, ToLower(mode.Name()), anchor != I.Center, ToLower(anchor.Name()),
      !upscale, LowerBool(upscale),
      centerX.Some? || centerY.Some?, Csv([centerX.GetOr(Zero).text, centerY.GetOr(Zero).text]));
  }

  /** `Resize` emits `height` exactly when a height is given. */
  lemma ResizeHeight(width: Option<int>, height: Option<int>, widthratio: Option<I.Float>, heightratio: Option<I.Float>,
      centerX: Option<I.Float>, centerY: Option<I.Float>, mode: I.ResizeMode, anchor: I.AnchorPosition, upscale: bool)
    ensures Values(ResizePairs(width, height, widthratio, heightratio, centerX, centerY, mode, anchor, upscale), "height")
      == (if height.Some? then [IntToString(height.value)] else [])
  {
    ResizeLayoutHeight(width.Some?, IntToString(width.GetOr(0)), height.Some?, IntToString(height.GetOr(0)),
      widthratio.Some?, widthratio.GetOr(Zero).text, heightratio.Some?, heightratio.GetOr(Zero).text,
      mode != I.Pad, ToLower(mode.Name()), anchor != I.Center, ToLower(anchor.Name()),
      !upscale, LowerBool(upscale),
      centerX.Some? || centerY.Some?, Csv([centerX.GetOr(Zero).text, centerY.GetOr(Zero).text]));
  }

  /** `Resize` emits `widthratio` exactly when it is given, as the float's text. */
  lemma ResizeWidthRatio(width: Option<int>, height: Option<int>, widthratio: Option<I.Float>, heightratio: Option<I.Float>,
      centerX: Option<I.Float>, centerY: Option<I.Float>, mode: I.ResizeMode, anchor: I.AnchorPosition, upscale: bool)
    ensures Values(ResizePairs(width, height, widthratio, heightratio, centerX, centerY, mode, anchor, upscale), "widthratio")
      == (if widthratio.Some? then [widthratio.value.text] else [])
  {
    ResizeLayoutWidthRatio(width.Some?, IntToString(width.GetOr(0)), height.Some?, IntToString(height.GetOr(0)),
      widthratio.Some?, widthratio.GetOr(Zero).text, heightratio.Some?, heightratio.GetOr(Zero).text,
      mode != I.Pad, ToLower(mode.Name()), anchor != I.Center, ToLower(anchor.Name()),
      !upscale, LowerBool(upscale),
      centerX.Some? || centerY.Some?, Csv([centerX.GetOr(Zero).text, centerY.GetOr(Zero).text]));
  }

  /** `Resize` emits `heightratio` exactly when it is given, as the float's text. */
  lemma ResizeHeightRatio(width: Option<int>, height: Option<int>, widthratio: Option<I.Float>, heightratio: Option<I.Float>,
      centerX: Option<I.Float>, centerY: Option<I.Float>, mode: I.ResizeMode, anchor: I.AnchorPosition, upscale: bool)
    ensures Values(ResizePairs(width, height, widthratio, heightratio, centerX, centerY, mode, anchor, upscale), "heightratio")
      == (if heightratio.Some? then [heightratio.value.text] else [])
  {
    ResizeLayoutHeightRatio(width.Some?, IntToString(width.GetOr(0)), height.Some?, IntToString(height.GetOr(0)),
      widthratio.Some?, widthratio.GetOr(Zero).text, heightratio.Some?, heightratio.GetOr(Zero).text,
      mode != I.Pad, ToLower(mode.Name()), anchor != I.Center, ToLower(anchor.Name()),
      !upscale, LowerBool(upscale),
      centerX.Some? || centerY.Some?, Csv([centerX.GetOr(Zero).text, centerY.GetOr(Zero).text]));
  }

  /** `Resize` emits the lower-cased `mode` unless it is Pad. */
  lemma ResizeMode(width: Option<int>, height: Option<int>, widthratio: Option<I.Float>, heightratio: Option<I.Float>,
      centerX: Option<I.Float>, centerY: Option<I.Float>, mode: I.ResizeMode, anchor: I.AnchorPosition, upscale: bool)
    ensures Values(ResizePairs(width, height, widthratio, heightratio, centerX, centerY, mode, anchor, upscale), "mode")
      == (if mode == I.Pad then [] else [ToLower(mode.Name())])
  {
    ResizeLayoutMode(width.Some?, IntToString(width.GetOr(0)), height.Some?, IntToString(height.GetOr(0)),
      widthratio.Some?, widthratio.GetOr(Zero).text, heightratio.Some?, heightratio.GetOr(Zero).text,
      mode != I.Pad, ToLower(mode.Name()), anchor != I.Center, ToLower(anchor.Name()),
      !upscale, LowerBool(upscale),
      centerX.Some? || centerY.Some?, Csv([centerX.GetOr(Zero).text, centerY.GetOr(Zero).text]));
  }

  /** `Resize` emits the lower-cased `anchor` unless it is Center. */
  lemma ResizeAnchor(width: Option<int>, height: Option<int>, widthratio: Option<I.Float>, heightratio: Option<I.Float>,
      centerX: Option<I.Float>, centerY: Option<I.Float>, mode: I.ResizeMode, anchor: I.AnchorPosition, upscale: bool)
    ensures Values(ResizePairs(width, height, widthratio, heightratio, centerX, centerY, mode, anchor, upscale), "anchor")
      == (if anchor == I.Center then [] else [ToLower(anchor.Name())])
  {
    ResizeLayoutAnchor(width.Some?, IntToString(width.GetOr(0)), height.Some?, IntToString(height.GetOr(0)),
      widthratio.Some?, widthratio.GetOr(Zero).text, heightratio.Some?, heightratio.GetOr(Zero).text,
      mode != I.Pad, ToLower(mode.Name()), anchor != I.Center, ToLower(anchor.Name()),
      !upscale, LowerBool(upscale),
      centerX.Some? || centerY.Some?, Csv([centerX.GetOr(Zero).text, centerY.GetOr(Zero).text]));
  }

  /** `Resize` emits `upscale=false` when upscaling is off and nothing when it is on. */
  lemma ResizeUpscale(width: Option<int>, height: Option<int>, widthratio: Option<I.Float>, heightratio: Option<I.Float>,
      centerX: Option<I.Float>, centerY: Option<I.Float>, mode: I.ResizeMode, anchor: I.AnchorPosition, upscale: bool)
    ensures Values(ResizePairs(width, height, widthratio, heightratio, centerX, centerY, mode, anchor, upscale), "upscale")
      == (if upscale then [] else ["false"])
  {
    ResizeLayoutUpscale(width.Some?, IntToString(width.GetOr(0)), height.Some?, IntToString(height.GetOr(0)),
      widthratio.Some?, widthratio.GetOr(Zero).text, heightratio.Some?, heightratio.GetOr(Zero).text,
      mode != I.Pad, ToLower(mode.Name()), anchor != I.Center, ToLower(anchor.Name()),
      !upscale, LowerBool(upscale),
      centerX.Some? || centerY.Some?, Csv([centerX.GetOr(Zero).text, centerY.GetOr(Zero).text]));
  }

  /** `Resize` emits one `center` pair when either coordinate is given, with 0 for the missing one. */
  lemma ResizeCenter(width: Option<int>, height: Option<int>, widthratio: Option<I.Float>, heightratio: Option<I.Float>,
      centerX: Option<I.Float>, centerY: Option<I.Float>, mode: I.ResizeMode, anchor: I.AnchorPosition, upscale: bool)
    ensures Values(ResizePairs(width, height, widthratio, heightratio, centerX, centerY, mode, anchor, upscale), "center")
      == (if centerX.None? && centerY.None? then []
        else [(if centerX.Some? then centerX.value.text else "0") + "," + (if centerY.Some? then centerY.value.text else "0")])
  {
    ResizeLayoutCenter(width.Some?, IntToString(width.GetOr(0)), height.Some?, IntToString(height.GetOr(0)),
      widthratio.Some?, widthratio.GetOr(Zero).text, heightratio.Some?, heightratio.GetOr(Zero).text,
      mode != I.Pad, ToLower(mode.Name()), anchor != I.Center, ToLower(anchor.Name()),
      !upscale, LowerBool(upscale),
      centerX.Some? || centerY.Some?, Csv([centerX.GetOr(Zero).text, centerY.GetOr(Zero).text]));
    JoinTwo(",", centerX.GetOr(Zero).text, centerY.GetOr(Zero).text);
  }

  /** Each key of the layout holds the value of its own optional pair and nothing else. */
  lemma ResizeLayoutWidth(onWidth: bool, width: string, onHeight: bool, height: string,
                              onWidthRatio: bool, widthratio: string, onHeightRatio: bool, heightratio: string,
                              onMode: bool, mode: string, onAnchor: bool, anchor: string,
                              onUpscale: bool, upscale: string, onCenter: bool, center: string)
    ensures Values(ResizeLayout(onWidth, width, onHeight, height, onWidthRatio, widthratio, onHeightRatio, heightratio, onMode, mode, onAnchor, anchor, onUpscale, upscale, onCenter, center), "width") == (if onWidth then [width] else [])
  {
    ResizeLayoutAt(onWidth, width, onHeight, height, onWidthRatio, widthratio, onHeightRatio, heightratio, onMode, mode, onAnchor, anchor, onUpscale, upscale, onCenter, center, "width");
    ValuesOptSame(onWidth, "width", width);
    ValuesOptOther(onHeight, "height", height, "width", 0);
    ValuesOptOther(onWidthRatio, "widthratio", widthratio, "width", 5);
    ValuesOptOther(onHeightRatio, "heightratio", heightratio, "width", 0);
    ValuesOptOther(onMode, "mode", mode, "width", 0);
    ValuesOptOther(onAnchor, "anchor", anchor, "width", 0);
    ValuesOptOther(onUpscale, "upscale", upscale, "width", 0);
    ValuesOptOther(onCenter, "center", center, "width", 0);
  }

  lemma ResizeLayoutHeight(onWidth: bool, width: string, onHeight: bool, height: string,
                              onWidthRatio: bool, widthratio: string, onHeightRatio: bool, heightratio: string,
                              onMode: bool, mode: string, onAnchor: bool, anchor: string,
                              onUpscale: bool, upscale: string, onCenter: bool, center: string)
    ensures Values(ResizeLayout(onWidth, width, onHeight, height, onWidthRatio, widthratio, onHeightRatio, heightratio, onMode, mode, onAnchor, anchor, onUpscale, upscale, onCenter, center), "height") == (if onHeight then [height] else [])
  {
    ResizeLayoutAt(onWidth, width, onHeight, height, onWidthRatio, widthratio, onHeightRatio, heightratio, onMode, mode, onAnchor, anchor, onUpscale, upscale, onCenter, center, "height");
    ValuesOptOther(onWidth, "width", width, "height", 0);
    ValuesOptSame(onHeight, "height", height);
    ValuesOptOther(onWidthRatio, "widthratio", widthratio, "height", 0);
    ValuesOptOther(onHeightRatio, "heightratio", heightratio, "height", 6);
    ValuesOptOther(onMode, "mode", mode, "height", 0);
    ValuesOptOther(onAnchor, "anchor", anchor, "height", 0);
    ValuesOptOther(onUpscale, "upscale", upscale, "height", 0);
    ValuesOptOther(onCenter, "center", center, "height", 0);
  }

  lemma ResizeLayoutWidthRatio(onWidth: bool, width: string, onHeight: bool, height: string,
                              onWidthRatio: bool, widthratio: string, onHeightRatio: bool, heightratio: string,
                              onMode: bool, mode: string, onAnchor: bool, anchor: string,
                              onUpscale: bool, upscale: string, onCenter: bool, center: string)
    ensures Values(ResizeLayout(onWidth, width, onHeight, height, onWidthRatio, widthratio, onHeightRatio, heightratio, onMode, mode, onAnchor, anchor, onUpscale, upscale, onCenter, center), "widthratio") == (if onWidthRatio then [widthratio] else [])
  {
    ResizeLayoutAt(onWidth, width, onHeight, height, onWidthRatio, widthratio, onHeightRatio, heightratio, onMode, mode, onAnchor, anchor, onUpscale, upscale, onCenter, center, "widthratio");
    ValuesOptOther(onWidth, "width", width, "widthratio", 5);
    ValuesOptOther(onHeight, "height", height, "widthratio", 0);
    ValuesOptSame(onWidthRatio, "widthratio", widthratio);
    ValuesOptOther(onHeightRatio, "heightratio", heightratio, "widthratio", 0);
    ValuesOptOther(onMode, "mode", mode, "widthratio", 0);
    ValuesOptOther(onAnchor, "anchor", anchor, "widthratio", 0);
    ValuesOptOther(onUpscale, "upscale", upscale, "widthratio", 0);
    ValuesOptOther(onCenter, "center", center, "widthratio", 0);
  }

  lemma ResizeLayoutHeightRatio(onWidth: bool, width: string, onHeight: bool, height: string,
                              onWidthRatio: bool, widthratio: string, onHeightRatio: bool, heightratio: string,
                              onMode: bool, mode: string, onAnchor: bool, anchor: string,
                              onUpscale: bool, upscale: string, onCenter: bool, center: string)
    ensures Values(ResizeLayout(onWidth, width, onHeight, height, onWidthRatio, widthratio, onHeightRatio, heightratio, onMode, mode, onAnchor, anchor, onUpscale, upscale, onCenter, center), "heightratio") == (if onHeightRatio then [heightratio] else [])
  {
    ResizeLayoutAt(onWidth, width, onHeight, height, onWidthRatio, widthratio, onHeightRatio, heightratio, onMode, mode, onAnchor, anchor, onUpscale, upscale, onCenter, center, "heightratio");
    ValuesOptOther(onWidth, "width", width, "heightratio", 0);
    ValuesOptOther(onHeight, "height", height, "heightratio", 6);
    ValuesOptOther(onWidthRatio, "widthratio", widthratio, "heightratio", 0);
    ValuesOptSame(onHeightRatio, "heightratio", heightratio);
    ValuesOptOther(onMode, "mode", mode, "heightratio", 0);
    ValuesOptOther(onAnchor, "anchor", anchor, "heightratio", 0);
    ValuesOptOther(onUpscale, "upscale", upscale, "heightratio", 0);
    ValuesOptOther(onCenter, "center", center, "heightratio", 0);
  }

  lemma ResizeLayoutMode(onWidth: bool, width: string, onHeight: bool, height: string,
                              onWidthRatio: bool, widthratio: string, onHeightRatio: bool, heightratio: string,
                              onMode: bool, mode: string, onAnchor: bool, anchor: string,
                              onUpscale: bool, upscale: string, onCenter: bool, center: string)
    ensures Values(ResizeLayout(onWidth, width, onHeight, height, onWidthRatio, widthratio, onHeightRatio, heightratio, onMode, mode, onAnchor, anchor, onUpscale, upscale, onCenter, center), "mode") == (if onMode then [mode] else [])
  {
    ResizeLayoutAt(onWidth, width, onHeight, height, onWidthRatio, widthratio, onHeightRatio, heightratio, onMode, mode, onAnchor, anchor, onUpscale, upscale, onCenter, center, "mode");
    ValuesOptOther(onWidth, "width", width, "mode", 0);
    ValuesOptOther(onHeight, "height", height, "mode", 0);
    ValuesOptOther(onWidthRatio, "widthratio", widthratio, "mode", 0);
    ValuesOptOther(onHeightRatio, "heightratio", heightratio, "mode", 0);
    ValuesOptSame(onMode, "mode", mode);
    ValuesOptOther(onAnchor, "anchor", anchor, "mode", 0);
    ValuesOptOther(onUpscale, "upscale", upscale, "mode", 0);
    ValuesOptOther(onCenter, "center", center, "mode", 0);
  }

  lemma ResizeLayoutAnchor(onWidth: bool, width: string, onHeight: bool, height: string,
                              onWidthRatio: bool, widthratio: string, onHeightRatio: bool, heightratio: string,
                              onMode: bool, mode: string, onAnchor: bool, anchor: string,
                              onUpscale: bool, upscale: string, onCenter: bool, center: string)
    ensures Values(ResizeLayout(onWidth, width, onHeight, height, onWidthRatio, widthratio, onHeightRatio, heightratio, onMode, mode, onAnchor, anchor, onUpscale, upscale, onCenter, center), "anchor") == (if onAnchor then [anchor] else [])
  {
    ResizeLayoutAt(onWidth, width, onHeight, height, onWidthRatio, widthratio, onHeightRatio, heightratio, onMode, mode, onAnchor, anchor, onUpscale, upscale, onCenter, center, "anchor");
    ValuesOptOther(onWidth, "width", width, "anchor", 0);
    ValuesOptOther(onHeight, "height", height, "anchor", 0);
    ValuesOptOther(onWidthRatio, "widthratio", widthratio, "anchor", 0);
    ValuesOptOther(onHeightRatio, "heightratio", heightratio, "anchor", 0);
    ValuesOptOther(onMode, "mode", mode, "anchor", 0);
    ValuesOptSame(onAnchor, "anchor", anchor);
    ValuesOptOther(onUpscale, "upscale", upscale, "anchor", 0);
    ValuesOptOther(onCenter, "center", center, "anchor", 0);
  }

  lemma ResizeLayoutUpscale(onWidth: bool, width: string, onHeight: bool, height: string,
                              onWidthRatio: bool, widthratio: string, onHeightRatio: bool, heightratio: string,
                              onMode: bool, mode: string, onAnchor: bool, anchor: string,
                              onUpscale: bool, upscale: string, onCenter: bool, center: string)
    ensures Values(ResizeLayout(onWidth, width, onHeight, height, onWidthRatio, widthratio, onHeightRatio, heightratio, onMode, mode, onAnchor, anchor, onUpscale, upscale, onCenter, center), "upscale") == (if onUpscale then [upscale] else [])
  {
    ResizeLayoutAt(onWidth, width, onHeight, height, onWidthRatio, widthratio, onHeightRatio, heightratio, onMode, mode, onAnchor, anchor, onUpscale, upscale, onCenter, center, "upscale");
    ValuesOptOther(onWidth, "width", width, "upscale", 0);
    ValuesOptOther(onHeight, "height", height, "upscale", 0);
    ValuesOptOther(onWidthRatio, "widthratio", widthratio, "upscale", 0);
    ValuesOptOther(onHeightRatio, "heightratio", heightratio, "upscale", 0);
    ValuesOptOther(onMode, "mode", mode, "upscale", 0);
    ValuesOptOther(onAnchor, "anchor", anchor, "upscale", 0);
    ValuesOptSame(onUpscale, "upscale", upscale);
    ValuesOptOther(onCenter, "center", center, "upscale", 0);
  }

  lemma ResizeLayoutCenter(onWidth: bool, width: string, onHeight: bool, height: string,
                              onWidthRatio: bool, widthratio: string, onHeightRatio: bool, heightratio: string,
                              onMode: bool, mode: string, onAnchor: bool, anchor: string,
                              onUpscale: bool, upscale: string, onCenter: bool, center: string)
    ensures Values(ResizeLayout(onWidth, width, onHeight, height, onWidthRatio, widthratio, onHeightRatio, heightratio, onMode, mode, onAnchor, anchor, onUpscale, upscale, onCenter, center), "center") == (if onCenter then [center] else [])
  {
    ResizeLayoutAt(onWidth, width, onHeight, height, onWidthRatio, widthratio, onHeightRatio, heightratio, onMode, mode, onAnchor, anchor, onUpscale, upscale, onCenter, center, "center");
    ValuesOptOther(onWidth, "width", width, "center", 0);
    ValuesOptOther(onHeight, "height", height, "center", 0);
    ValuesOptOther(onWidthRatio, "widthratio", widthratio, "center", 0);
    ValuesOptOther(onHeightRatio, "heightratio", heightratio, "center", 0);
    ValuesOptOther(onMode, "mode", mode, "center", 0);
    ValuesOptOther(onAnchor, "anchor", anchor, "center", 0);
    ValuesOptOther(onUpscale, "upscale", upscale, "center", 0);
    ValuesOptSame(onCenter, "center", center);
  }

  lemma ResizeLayoutAt(onWidth: bool, width: string, onHeight: bool, height: string,
                              onWidthRatio: bool, widthratio: string, onHeightRatio: bool, heightratio: string,
                              onMode: bool, mode: string, onAnchor: bool, anchor: string,
                              onUpscale: bool, upscale: string, onCenter: bool, center: string, key: string)
    ensures Values(ResizeLayout(onWidth, width, onHeight, height, onWidthRatio, widthratio, onHeightRatio, heightratio, onMode, mode, onAnchor, anchor, onUpscale, upscale, onCenter, center), key)
      == Values(Opt(onWidth, "width", width), key) + Values(Opt(onHeight, "height", height), key)
       + Values(Opt(onWidthRatio, "widthratio", widthratio), key) + Values(Opt(onHeightRatio, "heightratio", heightratio), key)
       + Values(Opt(onMode, "mode", mode), key) + Values(Opt(onAnchor, "anchor", anchor), key)
       + Values(Opt(onUpscale, "upscale", upscale), key) + Values(Opt(onCenter, "center", center), key)
  {
    ValuesOfEight(Opt(onWidth, "width", width), Opt(onHeight, "height", height),
                  Opt(onWidthRatio, "widthratio", widthratio), Opt(onHeightRatio, "heightratio", heightratio),
                  Opt(onMode, "mode", mode), Opt(onAnchor, "anchor", anchor),
                  Opt(onUpscale, "upscale", upscale), Opt(onCenter, "center", center), key);
  }

  lemma ValuesOfEight(p0: seq<Pair>, p1: seq<Pair>, p2: seq<Pair>, p3: seq<Pair>,
                      p4: seq<Pair>, p5: seq<Pair>, p6: seq<Pair>, p7: seq<Pair>, key: string)
    ensures Values(p0 + p1 + p2 + p3 + p4 + p5 + p6 + p7, key) == Values(p0, key) + Values(p1, key) + Values(p2, key)
      + Values(p3, key) + Values(p4, key) + Values(p5, key) + Values(p6, key) + Values(p7, key)
  {
    ValuesAppend(p0 + p1 + p2 + p3 + p4 + p5 + p6, p7, key);
    ValuesAppend(p0 + p1 + p2 + p3 + p4 + p5, p6, key);
    ValuesAppend(p0 + p1 + p2 + p3 + p4, p5, key);
    ValuesAppend(p0 + p1 + p2 + p3, p4, key);
    ValuesAppend(p0 + p1 + p2, p3, key);
    ValuesAppend(p0 + p1, p2, key);
    ValuesAppend(p0, p1, key);
  }

  /** `Blur` and `Sharpen` reject kernel size, sigma and threshold out of range, and otherwise add key, `sigma`, `threshold`. */
  lemma KernelFilters(kernelsize: int, sigma: I.Float, threshold: int)
    ensures Blur(kernelsize, sigma, threshold).Throws? <==>
      !(0 <= kernelsize <= 22 && 0.0 <= sigma.value <= 5.1 && 0 <= threshold <= 100)
    ensures Sharpen(kernelsize, sigma, threshold).Throws? <==> Blur(kernelsize, sigma, threshold).Throws?
    ensures Blur(kernelsize, sigma, threshold).Appends? ==>
      Keys(Effect(Blur(kernelsize, sigma, threshold), false).value) == ["blur", "sigma", "threshold"]
      && Keys(Effect(Sharpen(kernelsize, sigma, threshold), false).value) == ["sharpen", "sigma", "threshold"]
      && Effect(Blur(kernelsize, sigma, threshold), true) == Ok([])
  {
    if Blur(kernelsize, sigma, threshold).Appends? {
      GuardedEffect(Blur(kernelsize, sigma, threshold).guarded);
      GuardedEffect(Sharpen(kernelsize, sigma, threshold).guarded);
    }
  }

  /**
   * `Watermark` throws `ArgumentNullException` exactly when the text is blank.
   * Otherwise the keys come in the source's order: `watermark` (only on a
   * non-empty builder), then `fontfamily`, `color` and `textposition` when
   * given, then the six font keys, always.
   */
  lemma WatermarkLayout(text: Option<string>, position: Option<I.Point>, color: WatermarkColor, font: Option<string>,
                        size: int, style: I.FontStyle, opacity: int, dropshadow: bool, vertical: bool, rtl: bool, isEmpty: bool)
    ensures var e := Effect(Watermark(text, position, color, font, size, style, opacity, dropshadow, vertical, rtl), isEmpty);
      e.Ok? ==>
        Keys(e.value)
        == (if isEmpty then [] else ["watermark"])
           + (if font.Some? then ["fontfamily"] else [])
           + (if color.QueryValue().Some? then ["color"] else [])
           + (if position.Some? then ["textposition"] else [])
           + ["fontsize", "fontstyle", "fontopacity", "dropshadow", "vertical", "rtl"]
  {
    if !IsNullOrWhiteSpace(text) {
      var options := WatermarkOptions(position, color, font);
      var fonts := FontPairs(size, style, opacity, dropshadow, vertical, rtl);
      var head: seq<Pair> := if isEmpty then [] else [("watermark", text.value)];
      assert Effect(Watermark(text, position, color, font, size, style, opacity, dropshadow, vertical, rtl), isEmpty).value
        == head + (options + fonts) by {
        if isEmpty {
          assert head + (options + fonts) == options + fonts;
        }
      }
      KeysAppend(head, options + fonts);
      KeysAppend(options, fonts);
      WatermarkOptionKeys(position, color, font);
      FontPairKeys(size, style, opacity, dropshadow, vertical, rtl);
      var hk := if isEmpty then [] else ["watermark"];
      var fk: seq<string> := if font.Some? then ["fontfamily"] else [];
      var ck: seq<string> := if color.QueryValue().Some? then ["color"] else [];
      var pk: seq<string> := if position.Some? then ["textposition"] else [];
      var sk := ["fontsize", "fontstyle", "fontopacity", "dropshadow", "vertical", "rtl"];
      assert Keys(head) == hk;
      Sequences.Regroup5(hk, fk, ck, pk, sk);
    }
  }

  /** `Watermark` throws `ArgumentNullException` exactly when the text is null, empty or white space. */
  lemma WatermarkRejectsBlank(text: Option<string>, position: Option<I.Point>, color: WatermarkColor, font: Option<string>,
                              size: int, style: I.FontStyle, opacity: int, dropshadow: bool, vertical: bool, rtl: bool)
    ensures Watermark(text, position, color, font, size, style, opacity, dropshadow, vertical, rtl).Throws?
      <==> IsNullOrWhiteSpace(text)
    ensures Watermark(text, position, color, font, size, style, opacity, dropshadow, vertical, rtl).Throws?
      ==> Watermark(text, position, color, font, size, style, opacity, dropshadow, vertical, rtl).error == ArgumentNull
  {
  }

  lemma FontPairKeys(size: int, style: I.FontStyle, opacity: int, dropshadow: bool, vertical: bool, rtl: bool)
    ensures Keys(FontPairs(size, style, opacity, dropshadow, vertical, rtl))
      == ["fontsize", "fontstyle", "fontopacity", "dropshadow", "vertical", "rtl"]
  {
  }

  lemma WatermarkOptionKeys(position: Option<I.Point>, color: WatermarkColor, font: Option<string>)
    ensures Keys(WatermarkOptions(position, color, font))
      == (if font.Some? then ["fontfamily"] else [])
         + (if color.QueryValue().Some? then ["color"] else [])
         + (if position.Some? then ["textposition"] else [])
  {
    var f := Opt(font.Some?, "fontfamily", font.GetOr(""));
    var c := Opt(color.QueryValue().Some?, "color", color.QueryValue().GetOr(""));
    var t := Opt(position.Some?, "textposition", Csv([IntToString(position.GetOr(I.Point(0, 0)).x), IntToString(position.GetOr(I.Point(0, 0)).y)]));
    KeysAppend(f + c, t);
    KeysAppend(f, c);
  }

  /** A percentage crop adds `cropmode` even to an empty builder; a pixel crop adds nothing there. */
  lemma CropModeOnEmptyBuilder(x: int, y: int, w: int, h: int)
    ensures Effect(Crop(x, y, w, h, I.Percentage), true) == Ok([("cropmode", "percentage")])
    ensures Effect(Crop(x, y, w, h, I.Pixels), true) == Ok([])
  {
    assert ToLower("Percentage") == "percentage";
  }

  /** `fuzziness` (when positive) and `rotatebounded.keepsize` (when set) reach even an empty builder. */
  lemma UnguardedPairsOnEmptyBuilder(colorFrom: string, colorTo: string, fuzziness: int, angle: I.Float)
    ensures Effect(ReplaceColor(colorFrom, colorTo, fuzziness), true)
      == Ok(if fuzziness > 0 then [("fuzziness", IntToString(fuzziness))] else [])
    ensures Effect(RotateBounded(angle, true), true) == Ok([("rotatebounded.keepsize", "true")])
    ensures Effect(RotateBounded(angle, false), true) == Ok([])
  {
  }

  /** On an empty builder `RoundedCorners` adds exactly one key per switched-off corner, in the order tl, tr, bl, br. */
  lemma CornersOnEmptyBuilder(radius: int, tl: bool, tr: bool, bl: bool, br: bool)
    requires radius >= 0
    ensures Keys(Effect(RoundedCorners(radius, tl, tr, bl, br), true).value)
      == (if tl then [] else ["tl"]) + (if tr then [] else ["tr"]) + (if bl then [] else ["bl"]) + (if br then [] else ["br"])
  {
    var a, b, c, d := Corner("tl", tl), Corner("tr", tr), Corner("bl", bl), Corner("br", br);
    assert Effect(RoundedCorners(radius, tl, tr, bl, br), true).value == a + b + c + d;
    KeysAppend(a + b + c, d);
    KeysAppend(a + b, c);
    KeysAppend(a, b);
    CornerKeys("tl", tl);
    CornerKeys("tr", tr);
    CornerKeys("bl", bl);
    CornerKeys("br", br);
  }

  lemma CornerKeys(key: string, on: bool)
    ensures Keys(Corner(key, on)) == if on then [] else [key]
  {
  }

  /** Enum values are written lower-cased. */
  lemma LowerCasedEnums(greyscale: bool)
    ensures Effect(AnimationProcessMode(I.All), false) == Ok([("animationprocessmode", "all")])
    ensures Effect(DetectEdges(I.Sobel, greyscale), false)
      == Ok([("detectedges", "sobel"), ("greyscale", if greyscale then "true" else "false")])
    ensures Effect(Flip(I.Both), false) == Ok([("flip", "both")])
    ensures Effect(Format(I.Png8), false) == Ok([("format", "png8")])
  {
    assert ToLower("All") == "all";
    assert ToLower("Sobel") == "sobel";
    assert ToLower("Both") == "both";
    assert ToLower("Png8") == "png8";
    GuardedEffect([("animationprocessmode", "all")]);
    GuardedEffect([("detectedges", "sobel"), ("greyscale", LowerBool(greyscale))]);
    GuardedEffect([("flip", "both")]);
    GuardedEffect([("format", "png8")]);
  }

  /** `Width` and `Height` each append exactly one pair to a non-empty builder and nothing to an empty one. */
  lemma WidthHeightSinglePair(n: int)
    ensures Effect(Width(n), false) == Ok([("width", IntToString(n))])
    ensures Effect(Height(n), false) == Ok([("height", IntToString(n))])
    ensures Effect(Width(n), true) == Ok([]) && Effect(Height(n), true) == Ok([])
  {
    GuardedEffect([("width", IntToString(n))]);
    GuardedEffect([("height", IntToString(n))]);
  }
}
