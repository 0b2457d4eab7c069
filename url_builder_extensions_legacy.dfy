/**
 * The older, smaller set of `UrlBuilder` extension methods
 * (src/ImageProcessor.Web.Episerver/UrlBuilderExtensions.cs).  It shares the
 * `Call` shape of `ExtensionCalls`; its string overloads take the value as
 * given, and `Blur`/`Sharpen` check no ranges.
 */
module UrlBuilderExtensionsLegacy {
  import opened Wrappers
  import opened Text
  import opened Urls
  import opened ExtensionCalls
  import I = Imaging
  import Current = UrlBuilderExtensions

  function Guarded(pairs: seq<Pair>): Call
  {
    Appends(pairs, [])
  }

  lemma GuardedEffect(pairs: seq<Pair>)
    ensures Effect(Guarded(pairs), false) == Ok(pairs)
    ensures Effect(Guarded(pairs), true) == Ok([])
  {
    assert pairs + [] == pairs;
  }

  function Add(key: string, value: string): Call
  {
    Guarded([(key, value)])
  }

  function AddCollection(collection: seq<Pair>): Call
  {
    Guarded(collection)
  }

  function Alpha(percentage: int): Call
  {
    if percentage < 0 || percentage > 100 then Throws(ArgumentOutOfRange)
    else Guarded([("alpha", IntToString(percentage))])
  }

  function AnimationProcessMode(mode: I.AnimationProcessMode): Call
  {
    Guarded([("animationprocessmode", ToLower(mode.Name()))])
  }

  function Autorotate(rotate: bool): Call
  {
    Guarded([("autorotate", LowerBool(rotate))])
  }

  function BackgroundColorName(color: string): Call
  {
    Guarded([("bgcolor", ToLower(color))])
  }

  /** The last test is written with the non-short-circuit `|`, which gives the same value. */
  function BackgroundColor(r: int, g: int, b: int, a: int): Call
  {
    if r < 0 || g < 0 || b < 0 || a < 0 || r > 255 || g > 255 || (b > 255 || a > 55) then Throws(ArgumentOutOfRange)
    else Guarded([("bgcolor", Join(",", [IntToString(r), IntToString(g), IntToString(b), IntToString(a)]))])
  }

  function Contrast(contrast: int): Call
  {
    if contrast < 0 || contrast > 100 then Throws(ArgumentOutOfRange)
    else Guarded([("contrast", IntToString(contrast))])
  }

  function Crop(x: int, y: int, width: int, height: int, mode: I.CropMode): Call
  {
    Appends([("crop", Join(",", [IntToString(x), IntToString(y), IntToString(width), IntToString(height)]))],
            if mode == I.Percentage then [("cropmode", ToLower(mode.Name()))] else [])
  }

  function DetectEdges(filter: string, greyscale: bool): Call
  {
    Guarded([("detectedges", filter), ("greyscale", LowerBool(greyscale))])
  }

  function EntropyCrop(entropy: int): Call
  {
    Guarded([("entropycrop", IntToString(entropy))])
  }

  function Filter(filter: string): Call
  {
    Guarded([("filter", filter)])
  }

  function Flip(direction: string): Call
  {
    Guarded([("flip", direction)])
  }

  function Format(format: string): Call
  {
    Guarded([("format", format)])
  }

  function Blur(kernelsize: int, sigma: I.Float, threshold: int): Call
  {
    Guarded([("blur", IntToString(kernelsize)), ("sigma", sigma.text), ("threshold", IntToString(threshold))])
  }

  function Sharpen(kernelsize: int, sigma: I.Float, threshold: int): Call
  {
    Guarded([("sharpen", IntToString(kernelsize)), ("sigma", sigma.text), ("threshold", IntToString(threshold))])
  }

  function Hue(angle: int, rotate: bool): Call
  {
    if angle < 0 || angle > 360 then Throws(ArgumentOutOfRange)
    else Guarded([("hue", IntToString(angle)), ("hue.rotate", LowerBool(rotate))])
  }

  function Width(width: int): Call
  {
    Guarded([("width", IntToString(width))])
  }

  function Height(height: int): Call
  {
    Guarded([("height", IntToString(height))])
  }

  // ---------------------------------------------------------------------------------------------
  // Properties

  /** On an empty builder every guarded method appends nothing (a null target throws in `Apply`). */
  lemma EmptyTargetUnchanged(key: string, value: string, collection: seq<Pair>, v: int, b: bool)
    ensures Effect(Add(key, value), true) == Ok([])
    ensures Effect(AddCollection(collection), true) == Ok([])
    ensures Effect(Width(v), true) == Ok([]) && Effect(Height(v), true) == Ok([])
    ensures Effect(Autorotate(b), true) == Ok([])
    ensures Effect(Blur(v, I.Float(1.4, "1.4"), 0), true) == Ok([])
    ensures 0 <= v <= 100 ==> Effect(Alpha(v), true) == Ok([])
  {
  }

  /** `Alpha` throws `ArgumentOutOfRangeException` outside 0..100 and otherwise adds one `alpha` pair. */
  lemma AlphaRange(percentage: int)
    ensures Alpha(percentage).Throws? <==> percentage < 0 || percentage > 100
    ensures Alpha(percentage).Throws? ==> Alpha(percentage).error == ArgumentOutOfRange
    ensures Alpha(percentage).Appends? ==> Effect(Alpha(percentage), false) == Ok([("alpha", IntToString(percentage))])
  {
    GuardedEffect([("alpha", IntToString(percentage))]);
  }

  /** `Contrast` throws outside 0..100 and otherwise adds one `contrast` pair. */
  lemma ContrastRange(contrast: int)
    ensures Contrast(contrast).Throws? <==> contrast < 0 || contrast > 100
    ensures Contrast(contrast).Throws? ==> Contrast(contrast).error == ArgumentOutOfRange
    ensures Contrast(contrast).Appends? ==> Effect(Contrast(contrast), false) == Ok([("contrast", IntToString(contrast))])
  {
    GuardedEffect([("contrast", IntToString(contrast))]);
  }

  /** `Hue` throws outside 0..360 and otherwise adds `hue` and `hue.rotate`. */
  lemma HueRange(angle: int, rotate: bool)
    ensures Hue(angle, rotate).Throws? <==> angle < 0 || angle > 360
    ensures Hue(angle, rotate).Throws? ==> Hue(angle, rotate).error == ArgumentOutOfRange
    ensures Hue(angle, rotate).Appends? ==>
      Effect(Hue(angle, rotate), false) == Ok([("hue", IntToString(angle)), ("hue.rotate", if rotate then "true" else "false")])
  {
    GuardedEffect([("hue", IntToString(angle)), ("hue.rotate", LowerBool(rotate))]);
  }

  /** `Blur` and `Sharpen` never throw here, and add their own key, `sigma` and `threshold`, in that order. */
  lemma KernelFiltersUnchecked(kernelsize: int, sigma: I.Float, threshold: int)
    ensures Blur(kernelsize, sigma, threshold).Appends? && Sharpen(kernelsize, sigma, threshold).Appends?
    ensures Keys(Effect(Blur(kernelsize, sigma, threshold), false).value) == ["blur", "sigma", "threshold"]
    ensures Keys(Effect(Sharpen(kernelsize, sigma, threshold), false).value) == ["sharpen", "sigma", "threshold"]
  {
    GuardedEffect(Blur(kernelsize, sigma, threshold).guarded);
    GuardedEffect(Sharpen(kernelsize, sigma, threshold).guarded);
  }

  /** The same alpha bound of 55 as the current version. */
  lemma BackgroundColorRange(r: int, g: int, b: int, a: int)
    ensures BackgroundColor(r, g, b, a).Throws? <==> !(0 <= r <= 255 && 0 <= g <= 255 && 0 <= b <= 255 && 0 <= a <= 55)
    ensures BackgroundColor(r, g, b, a).Appends? ==>
      Effect(BackgroundColor(r, g, b, a), false)
      == Ok([("bgcolor", IntToString(r) + "," + IntToString(g) + "," + IntToString(b) + "," + IntToString(a))])
  {
    JoinFour(",", IntToString(r), IntToString(g), IntToString(b), IntToString(a));
    GuardedEffect([("bgcolor", Join(",", [IntToString(r), IntToString(g), IntToString(b), IntToString(a)]))]);
  }

  /** `cropmode=percentage` is added even to an empty builder, after `crop` on a non-empty one. */
  lemma CropModeUnguarded(x: int, y: int, w: int, h: int)
    ensures Effect(Crop(x, y, w, h, I.Percentage), true) == Ok([("cropmode", "percentage")])
    ensures Keys(Effect(Crop(x, y, w, h, I.Percentage), false).value) == ["crop", "cropmode"]
    ensures Effect(Crop(x, y, w, h, I.Pixels), true) == Ok([])
  {
    assert ToLower("Percentage") == "percentage";
  }

  /** Enum and bool values are lower-cased. */
  lemma LowerCasedValues(rotate: bool, greyscale: bool, filter: string)
    ensures Effect(AnimationProcessMode(I.First), false) == Ok([("animationprocessmode", "first")])
    ensures Effect(Autorotate(rotate), false) == Ok([("autorotate", if rotate then "true" else "false")])
    ensures Effect(DetectEdges(filter, greyscale), false)
      == Ok([("detectedges", filter), ("greyscale", if greyscale then "true" else "false")])
  {
    assert ToLower("First") == "first";
    GuardedEffect([("animationprocessmode", "first")]);
    GuardedEffect([("autorotate", LowerBool(rotate))]);
    GuardedEffect([("detectedges", filter), ("greyscale", LowerBool(greyscale))]);
  }

  /** `Width` and `Height` each append exactly one pair. */
  lemma WidthHeightSinglePair(n: int)
    ensures Effect(Width(n), false) == Ok([("width", IntToString(n))])
    ensures Effect(Height(n), false) == Ok([("height", IntToString(n))])
  {
    GuardedEffect([("width", IntToString(n))]);
    GuardedEffect([("height", IntToString(n))]);
  }

  /**
   * Where both versions have a method, they make the same call, except that
   * the current `Blur` and `Sharpen` check their ranges: a kernel size of 23
   * throws there and not here.
   */
  lemma AgreesWithCurrentVersion(v: int, x: int, y: int, w: int, h: int, mode: I.CropMode, rotate: bool,
                                 r: int, g: int, b: int, a: int, sigma: I.Float, threshold: int)
    ensures Alpha(v) == Current.Alpha(v) && Contrast(v) == Current.Contrast(v)
    ensures Hue(v, rotate) == Current.Hue(v, rotate)
    ensures Width(v) == Current.Width(v) && Height(v) == Current.Height(v) && EntropyCrop(v) == Current.EntropyCrop(v)
    ensures Crop(x, y, w, h, mode) == Current.Crop(x, y, w, h, mode)
    ensures BackgroundColor(r, g, b, a) == Current.BackgroundColor(r, g, b, a)
    ensures Autorotate(rotate) == Current.Autorotate(rotate)
    ensures Blur(23, sigma, threshold).Appends? && Current.Blur(23, sigma, threshold).Throws?
    ensures 0.0 <= sigma.value <= 5.1 && 0 <= threshold <= 100 && 0 <= v <= 22 ==>
      Blur(v, sigma, threshold) == Current.Blur(v, sigma, threshold)
  {
  }
}
