/**
 * The query strings of the newer picture helpers
 * (src/ImageProcessor.Web.Episerver/Extensions/Picture/PictureUtils.cs):
 * the format taken from a file name, the pairs one image candidate asks
 * for, and the debug watermark that prints the chosen format and size on
 * the image.  The pairs are merged into a copy of the image's builder.
 */
module PictureUtils {
  import opened Wrappers
  import opened Text
  import opened Urls
  import I = Imaging

  /** The `ImageType` of src/ImageProcessor.Web.Episerver/Extensions/Picture/ImageType.cs; null arrays are `None`. */
  datatype ImageType = ImageType(defaultImgWidth: Option<int>, srcSetWidths: Option<seq<int>>,
                                 srcSetSizes: Option<seq<string>>, heightRatio: I.Float, quality: int,
                                 createWebpForFormat: Option<seq<I.ImageFormat>>)

  /** `new ImageType()`: quality 80, webp versions for jpg and jpeg, nothing else set. */
  function NewImageType(): (t: ImageType)
    ensures t.quality == 80 && t.createWebpForFormat == Some([I.Jpg, I.Jpeg])
    ensures t.defaultImgWidth.None? && t.srcSetWidths.None? && t.srcSetSizes.None? && t.heightRatio.value == 0.0
  {
    ImageType(None, None, None, I.Float(0.0, "0"), 80, Some([I.Jpg, I.Jpeg]))
  }

  // ---------------------------------------------------------------------------------------------
  // The format of a file

  /** The directory and volume separators `Path.GetExtension` stops at. */
  predicate IsSeparator(c: char)
  {
    c == '/' || c == '\\' || c == ':'
  }

  /** Scanning `path[..i]` backwards, the first `.` met before any separator. */
  function LastDot(path: string, i: nat): (r: Option<nat>)
    requires i <= |path|
    ensures r.Some? ==> r.value < i && path[r.value] == '.'
    ensures r.Some? ==> forall k :: r.value < k < i ==> path[k] != '.' && !IsSeparator(path[k])
    ensures r.None? ==> forall k :: 0 <= k < i && path[k] == '.' ==> exists m :: k < m < i && IsSeparator(path[m])
    decreases i
  {
    if i == 0 then None
    else if path[i - 1] == '.' then Some(i - 1)
    else if IsSeparator(path[i - 1]) then None
    else LastDot(path, i - 1)
  }

  /** `Path.GetExtension(path)`: from the last dot of the file name on, or `""` when there is none or it ends the path. */
  function GetExtension(path: string): string
  {
    match LastDot(path, |path|)
    case None => ""
    case Some(d) => if d == |path| - 1 then "" else path[d..]
  }

  /** `GetFormatFromExtension`: the extension without its dot, `jpeg` spelt `jpg`, and `""` for a null path. */
  function GetFormatFromExtension(filePath: Option<string>): string
  {
    var format := if filePath.Some? then Some(TrimStart(GetExtension(filePath.value), {'.'})) else None;
    if format == Some("jpeg") then "jpg" else format.GetOr("")
  }

  lemma {:induction false} LastDotSkips(path: string, d: nat, i: nat)
    requires d < i <= |path| && path[d] == '.'
    requires forall k :: d < k < i ==> path[k] != '.' && !IsSeparator(path[k])
    ensures LastDot(path, i) == Some(d)
    decreases i
  {
    if i - 1 != d {
      LastDotSkips(path, d, i - 1);
    }
  }

  /** What the extension gives once its dot is trimmed: the text after the last dot of the file name. */
  lemma {:induction false} TrimmedExtension(path: string)
    ensures LastDot(path, |path|).None? ==> TrimStart(GetExtension(path), {'.'}) == ""
    ensures LastDot(path, |path|).Some? ==> TrimStart(GetExtension(path), {'.'}) == path[LastDot(path, |path|).value + 1..]
  {
    match LastDot(path, |path|)
    case None =>
    case Some(d) =>
      if d < |path| - 1 {
        assert path[d..][0] == '.' && path[d..][1..] == path[d + 1..];
        assert path[d + 1..][0] == path[d + 1];
      }
  }

  /** The format never holds a dot or a separator: it is `jpg` or what follows the last dot of the file name. */
  lemma FormatCharacters(filePath: Option<string>)
    ensures '.' !in GetFormatFromExtension(filePath)
    ensures forall i :: 0 <= i < |GetFormatFromExtension(filePath)| ==> !IsSeparator(GetFormatFromExtension(filePath)[i])
    ensures GetFormatFromExtension(filePath) == "jpg"
      || EndsWith(filePath.GetOr(""), GetFormatFromExtension(filePath))
  {
    var f := GetFormatFromExtension(filePath);
    if filePath.Some? {
      var path := filePath.value;
      TrimmedExtension(path);
      if LastDot(path, |path|).Some? {
        var d := LastDot(path, |path|).value;
        assert f == "jpg" || f == path[d + 1..];
        assert path[|path| - |path[d + 1..]|..] == path[d + 1..];
      } else {
        assert f == "";
        assert path[|path|..] == "";
      }
    }
  }

  /** `name.ext` gives `ext`, and `name.jpeg` gives `jpg`. */
  lemma FormatOfFileName(name: string, ext: string)
    requires ext != []
    requires forall k :: 0 <= k < |ext| ==> ext[k] != '.' && !IsSeparator(ext[k])
    ensures GetFormatFromExtension(Some(name + "." + ext)) == if ext == "jpeg" then "jpg" else ext
  {
    var path := name + "." + ext;
    assert path[|name|] == '.';
    assert forall k :: |name| < k < |path| ==> path[k] == ext[k - |name| - 1];
    LastDotSkips(path, |name|, |path|);
    TrimmedExtension(path);
    assert path[|name| + 1..] == ext;
  }

  /** No dot in the path, a dot that ends it, or a null path: the format is empty. */
  lemma NoExtensionNoFormat(path: string)
    requires '.' !in path || (|path| > 0 && path[|path| - 1] == '.')
    ensures GetFormatFromExtension(Some(path)) == ""
    ensures GetFormatFromExtension(None) == ""
  {
    TrimmedExtension(path);
    if '.' in path {
      assert LastDot(path, |path|) == Some(|path| - 1);
    }
  }

  // ---------------------------------------------------------------------------------------------
  // The debug watermark

  /** `Convert.ToInt32(imageWidth * HeightRatio)`; for a null width the product is null and converts to 0. */
  function DebugHeight(heightRatio: I.Float, imageWidth: Option<int>): int
  {
    if imageWidth.Some? then I.ConvertToInt32(imageWidth.value as real * heightRatio.value) else 0
  }

  /** Where the debug text starts: half the width less 150, or 10 when that is negative; null for a null width. */
  function TextX(imageWidth: Option<int>): (r: Option<int>)
    ensures r.Some? <==> imageWidth.Some?
    ensures r.Some? ==> r.value >= 0
    ensures r.Some? && imageWidth.value >= 300 ==> r.value == HalfTowardZero(imageWidth.value) - 150
    ensures r.Some? && imageWidth.value < 300 ==> r.value == 10
  {
    if imageWidth.None? then None
    else
      var x := HalfTowardZero(imageWidth.value) - 150;
      Some(if x < 0 then 10 else x)
  }

  /** The text of the debug watermark. */
  function WatermarkText(format: string, imageWidth: Option<int>, height: int): string
  {
    "format:%20" + (if format == "" then "original" else format) + ";%20width:%20" + NullableToString(imageWidth) + ";"
    + (if height > 0 then "%20height:%20" + IntToString(height) else "")
  }

  /** The four debug pairs, in the order `BuildInfoCollection` adds them. */
  function InfoLayout(watermark: string, fontsize: string, textposition: string): seq<Pair>
  {
    [("watermark", watermark), ("color", "000000"), ("fontsize", fontsize), ("textposition", textposition)]
  }

  /** `BuildInfoCollection`: black text of size 35 above 700 pixels (17 otherwise), placed by `TextX`. */
  function BuildInfoCollection(imageType: ImageType, imageWidth: Option<int>, format: string): seq<Pair>
  {
    var height := DebugHeight(imageType.heightRatio, imageWidth);
    var fontsize := if imageWidth.Some? && imageWidth.value > 700 then 35 else 17;
    InfoLayout(WatermarkText(format, imageWidth, height), IntToString(fontsize),
               Join(",", [NullableToString(TextX(imageWidth)), IntToString(HalfTowardZero(height))]))
  }

  /** The debug pairs are the watermark text, the colour black, the font size and the position, in that order. */
  lemma InfoKeys(imageType: ImageType, imageWidth: Option<int>, format: string)
    ensures Keys(BuildInfoCollection(imageType, imageWidth, format)) == ["watermark", "color", "fontsize", "textposition"]
    ensures BuildInfoCollection(imageType, imageWidth, format)[1].1 == "000000"
  {
  }

  /** The font size is 35 for widths above 700 and 17 otherwise, a null width included. */
  lemma InfoFontSize(imageType: ImageType, imageWidth: Option<int>, format: string)
    ensures BuildInfoCollection(imageType, imageWidth, format)[2].1
      == if imageWidth.Some? && imageWidth.value > 700 then "35" else "17"
  {
    assert NatToString(35) == NatToString(3) + [DigitChar(5)];
    assert NatToString(17) == NatToString(1) + [DigitChar(7)];
  }

  /** The text sits at `TextX` across and half the (truncated) height down. */
  lemma InfoTextPosition(imageType: ImageType, imageWidth: Option<int>, format: string)
    ensures BuildInfoCollection(imageType, imageWidth, format)[3].1
      == NullableToString(TextX(imageWidth)) + "," + IntToString(HalfTowardZero(DebugHeight(imageType.heightRatio, imageWidth)))
  {
    JoinTwo(",", NullableToString(TextX(imageWidth)), IntToString(HalfTowardZero(DebugHeight(imageType.heightRatio, imageWidth))));
  }

  /** The watermark names the format (`original` for none) and the width, and the height only when it is positive. */
  lemma InfoWatermark(format: string, imageWidth: Option<int>, height: int)
    ensures StartsWith(WatermarkText(format, imageWidth, height),
                       "format:%20" + (if format == "" then "original" else format) + ";%20width:%20" + NullableToString(imageWidth) + ";")
    ensures height <= 0 ==>
      WatermarkText(format, imageWidth, height)
      == "format:%20" + (if format == "" then "original" else format) + ";%20width:%20" + NullableToString(imageWidth) + ";"
  {
    var prefix := "format:%20" + (if format == "" then "original" else format) + ";%20width:%20" + NullableToString(imageWidth) + ";";
    var suffix := if height > 0 then "%20height:%20" + IntToString(height) else "";
    assert WatermarkText(format, imageWidth, height) == prefix + suffix;
    assert (prefix + suffix)[..|prefix|] == prefix;
  }

  /** A null width shows as empty and puts the text at an empty x with no height. */
  lemma InfoWithoutWidth(imageType: ImageType, format: string)
    ensures BuildInfoCollection(imageType, None, format)[0].1
      == "format:%20" + (if format == "" then "original" else format) + ";%20width:%20;"
    ensures BuildInfoCollection(imageType, None, format)[3].1 == ",0"
  {
    JoinTwo(",", "", "0");
  }

  // ---------------------------------------------------------------------------------------------
  // The query string of one image candidate

  /** The order `BuildQueryString` adds its pairs in: format, quality, width, the crop pair, then the debug pairs. */
  function QueryLayout(onFormat: bool, format: string, onQuality: bool, quality: string, width: string,
                       onRatio: bool, ratio: string, info: seq<Pair>): seq<Pair>
  {
    Opt(onFormat, "format", format) + Opt(onQuality, "quality", quality) + [("width", width)]
    + Opt(onRatio, "mode", "crop") + Opt(onRatio, "heightratio", ratio) + info
  }

  /** Whether the `ImageProcessorDebug` app setting turns the debug watermark on. */
  predicate ShowDebugInfo(setting: Option<string>)
  {
    TryParseBool(setting) == Some(true)
  }

  /** The collection `BuildQueryString` fills. */
  function QueryCollection(imageType: ImageType, imageWidth: Option<int>, format: string,
                           overrideQuality: Option<int>, showDebugInfo: bool): seq<Pair>
  {
    QueryLayout(format == "webp" || format == "png8", format,
                format != "png" && format != "png8", IntToString(overrideQuality.GetOr(imageType.quality)),
                NullableToString(imageWidth),
                imageType.heightRatio.value > 0.0, imageType.heightRatio.text,
                if showDebugInfo then BuildInfoCollection(imageType, imageWidth, format) else [])
  }

  /**
   * `BuildQueryString`: the pairs are merged into a new builder made from
   * the image URL's text, so the builder passed in is left as it was.
   */
  method BuildQueryString(imageUrlbuilder: UrlBuilder, imageType: ImageType, imageWidth: Option<int>, format: string,
                          overrideQuality: Option<int>, debugSetting: Option<string>) returns (r: string)
    ensures r == Render(PathPart(imageUrlbuilder.ToString()),
                        Merge(QueryPart(imageUrlbuilder.ToString()),
                              QueryCollection(imageType, imageWidth, format, overrideQuality, ShowDebugInfo(debugSetting))))
  {
    var qc := QueryCollection(imageType, imageWidth, format, overrideQuality, ShowDebugInfo(debugSetting));
    var newTarget := new UrlBuilder(imageUrlbuilder.ToString());
    newTarget.MergeQueryCollection(qc);
    r := newTarget.ToString();
  }

  // ---------------------------------------------------------------------------------------------
  // Properties of the layout, over any values

  lemma ValuesOfSix(p0: seq<Pair>, p1: seq<Pair>, p2: seq<Pair>, p3: seq<Pair>, p4: seq<Pair>, p5: seq<Pair>, key: string)
    ensures Values(p0 + p1 + p2 + p3 + p4 + p5, key)
      == Values(p0, key) + Values(p1, key) + Values(p2, key) + Values(p3, key) + Values(p4, key) + Values(p5, key)
  {
    ValuesAppend(p0 + p1 + p2 + p3 + p4, p5, key);
    ValuesAppend(p0 + p1 + p2 + p3, p4, key);
    ValuesAppend(p0 + p1 + p2, p3, key);
    ValuesAppend(p0 + p1, p2, key);
    ValuesAppend(p0, p1, key);
  }

  /** A key no pair of `q` has has no values there. */
  lemma {:induction false} ValuesAbsent(q: seq<Pair>, key: string)
    requires forall i :: 0 <= i < |q| ==> q[i].0 != key
    ensures Values(q, key) == []
  {
    if q != [] {
      ValuesAbsent(q[1..], key);
    }
  }

  /** None of the query keys of `BuildQueryString` is a debug key. */
  lemma InfoHasNoQueryKeys(watermark: string, fontsize: string, textposition: string, key: string)
    requires key in {"format", "quality", "width", "mode", "heightratio"}
    ensures Values(InfoLayout(watermark, fontsize, textposition), key) == []
  {
    ValuesAbsent(InfoLayout(watermark, fontsize, textposition), key);
  }

  lemma QueryLayoutValues(onFormat: bool, format: string, onQuality: bool, quality: string, width: string,
                          onRatio: bool, ratio: string, info: seq<Pair>, key: string)
    ensures Values(QueryLayout(onFormat, format, onQuality, quality, width, onRatio, ratio, info), key)
      == Values(Opt(onFormat, "format", format), key) + Values(Opt(onQuality, "quality", quality), key)
      + Values(Opt(true, "width", width), key) + Values(Opt(onRatio, "mode", "crop"), key)
      + Values(Opt(onRatio, "heightratio", ratio), key) + Values(info, key)
  {
    ValuesOfSix(Opt(onFormat, "format", format), Opt(onQuality, "quality", quality), Opt(true, "width", width),
                Opt(onRatio, "mode", "crop"), Opt(onRatio, "heightratio", ratio), info, key);
  }

  lemma LayoutFormat(onFormat: bool, format: string, onQuality: bool, quality: string, width: string,
                     onRatio: bool, ratio: string, info: seq<Pair>)
    requires Values(info, "format") == []
    ensures Values(QueryLayout(onFormat, format, onQuality, quality, width, onRatio, ratio, info), "format")
      == if onFormat then [format] else []
  {
    QueryLayoutValues(onFormat, format, onQuality, quality, width, onRatio, ratio, info, "format");
    ValuesOptSame(onFormat, "format", format);
    ValuesOptOther(onQuality, "quality", quality, "format", 0);
    ValuesOptOther(true, "width", width, "format", 0);
    ValuesOptOther(onRatio, "mode", "crop", "format", 0);
    ValuesOptOther(onRatio, "heightratio", ratio, "format", 0);
  }

  lemma LayoutQuality(onFormat: bool, format: string, onQuality: bool, quality: string, width: string,
                      onRatio: bool, ratio: string, info: seq<Pair>)
    requires Values(info, "quality") == []
    ensures Values(QueryLayout(onFormat, format, onQuality, quality, width, onRatio, ratio, info), "quality")
      == if onQuality then [quality] else []
  {
    QueryLayoutValues(onFormat, format, onQuality, quality, width, onRatio, ratio, info, "quality");
    ValuesOptOther(onFormat, "format", format, "quality", 0);
    ValuesOptSame(onQuality, "quality", quality);
    ValuesOptOther(true, "width", width, "quality", 0);
    ValuesOptOther(onRatio, "mode", "crop", "quality", 0);
    ValuesOptOther(onRatio, "heightratio", ratio, "quality", 0);
  }

  lemma LayoutWidth(onFormat: bool, format: string, onQuality: bool, quality: string, width: string,
                    onRatio: bool, ratio: string, info: seq<Pair>)
    requires Values(info, "width") == []
    ensures Values(QueryLayout(onFormat, format, onQuality, quality, width, onRatio, ratio, info), "width") == [width]
  {
    QueryLayoutValues(onFormat, format, onQuality, quality, width, onRatio, ratio, info, "width");
    ValuesOptOther(onFormat, "format", format, "width", 0);
    ValuesOptOther(onQuality, "quality", quality, "width", 0);
    ValuesOptSame(true, "width", width);
    ValuesOptOther(onRatio, "mode", "crop", "width", 0);
    ValuesOptOther(onRatio, "heightratio", ratio, "width", 0);
  }

  lemma LayoutMode(onFormat: bool, format: string, onQuality: bool, quality: string, width: string,
                   onRatio: bool, ratio: string, info: seq<Pair>)
    requires Values(info, "mode") == []
    ensures Values(QueryLayout(onFormat, format, onQuality, quality, width, onRatio, ratio, info), "mode")
      == if onRatio then ["crop"] else []
  {
    QueryLayoutValues(onFormat, format, onQuality, quality, width, onRatio, ratio, info, "mode");
    ValuesOptOther(onFormat, "format", format, "mode", 0);
    ValuesOptOther(onQuality, "quality", quality, "mode", 0);
    ValuesOptOther(true, "width", width, "mode", 0);
    ValuesOptSame(onRatio, "mode", "crop");
    ValuesOptOther(onRatio, "heightratio", ratio, "mode", 0);
  }

  lemma LayoutHeightRatio(onFormat: bool, format: string, onQuality: bool, quality: string, width: string,
                          onRatio: bool, ratio: string, info: seq<Pair>)
    requires Values(info, "heightratio") == []
    ensures Values(QueryLayout(onFormat, format, onQuality, quality, width, onRatio, ratio, info), "heightratio")
      == if onRatio then [ratio] else []
  {
    QueryLayoutValues(onFormat, format, onQuality, quality, width, onRatio, ratio, info, "heightratio");
    ValuesOptOther(onFormat, "format", format, "heightratio", 0);
    ValuesOptOther(onQuality, "quality", quality, "heightratio", 0);
    ValuesOptOther(true, "width", width, "heightratio", 0);
    ValuesOptOther(onRatio, "mode", "crop", "heightratio", 0);
    ValuesOptSame(onRatio, "heightratio", ratio);
  }

  /** The debug pairs, when they are added, are the last four. */
  lemma LayoutInfoLast(onFormat: bool, format: string, onQuality: bool, quality: string, width: string,
                       onRatio: bool, ratio: string, info: seq<Pair>)
    ensures |QueryLayout(onFormat, format, onQuality, quality, width, onRatio, ratio, info)| >= |info|
    ensures QueryLayout(onFormat, format, onQuality, quality, width, onRatio, ratio, info)
      [|QueryLayout(onFormat, format, onQuality, quality, width, onRatio, ratio, info)| - |info|..] == info
    ensures |QueryLayout(onFormat, format, onQuality, quality, width, onRatio, ratio, info)| <= 5 + |info|
  {
    var main := Opt(onFormat, "format", format) + Opt(onQuality, "quality", quality) + [("width", width)]
      + Opt(onRatio, "mode", "crop") + Opt(onRatio, "heightratio", ratio);
    assert QueryLayout(onFormat, format, onQuality, quality, width, onRatio, ratio, info) == main + info;
    assert (main + info)[|main|..] == info;
  }

  // ---------------------------------------------------------------------------------------------
  // Properties of the query of one image candidate

  lemma InfoOrNothingHasNoQueryKeys(imageType: ImageType, imageWidth: Option<int>, format: string, showDebugInfo: bool, key: string)
    requires key in {"format", "quality", "width", "mode", "heightratio"}
    ensures Values(if showDebugInfo then BuildInfoCollection(imageType, imageWidth, format) else [], key) == []
  {
    if showDebugInfo {
      var height := DebugHeight(imageType.heightRatio, imageWidth);
      var fontsize := if imageWidth.Some? && imageWidth.value > 700 then 35 else 17;
      InfoHasNoQueryKeys(WatermarkText(format, imageWidth, height), IntToString(fontsize),
                         Join(",", [NullableToString(TextX(imageWidth)), IntToString(HalfTowardZero(height))]), key);
    }
  }

  /** `format` is asked for only for `webp` and `png8`, and then as the first pair. */
  lemma QueryFormat(imageType: ImageType, imageWidth: Option<int>, format: string, overrideQuality: Option<int>, showDebugInfo: bool)
    ensures Values(QueryCollection(imageType, imageWidth, format, overrideQuality, showDebugInfo), "format")
      == if format == "webp" || format == "png8" then [format] else []
    ensures format == "webp" || format == "png8" ==>
      QueryCollection(imageType, imageWidth, format, overrideQuality, showDebugInfo)[0] == ("format", format)
  {
    InfoOrNothingHasNoQueryKeys(imageType, imageWidth, format, showDebugInfo, "format");
    LayoutFormat(format == "webp" || format == "png8", format,
                 format != "png" && format != "png8", IntToString(overrideQuality.GetOr(imageType.quality)),
                 NullableToString(imageWidth),
                 imageType.heightRatio.value > 0.0, imageType.heightRatio.text,
                 if showDebugInfo then BuildInfoCollection(imageType, imageWidth, format) else []);
  }

  /** `quality` is asked for unless the format is `png` or `png8`: the override when there is one, else the image type's. */
  lemma QueryQuality(imageType: ImageType, imageWidth: Option<int>, format: string, overrideQuality: Option<int>, showDebugInfo: bool)
    ensures Values(QueryCollection(imageType, imageWidth, format, overrideQuality, showDebugInfo), "quality")
      == if format != "png" && format != "png8"
         then [IntToString(if overrideQuality.Some? then overrideQuality.value else imageType.quality)]
         else []
  {
    InfoOrNothingHasNoQueryKeys(imageType, imageWidth, format, showDebugInfo, "quality");
    LayoutQuality(format == "webp" || format == "png8", format,
                  format != "png" && format != "png8", IntToString(overrideQuality.GetOr(imageType.quality)),
                  NullableToString(imageWidth),
                  imageType.heightRatio.value > 0.0, imageType.heightRatio.text,
                  if showDebugInfo then BuildInfoCollection(imageType, imageWidth, format) else []);
  }

  /** `width` is always asked for, empty for a null width. */
  lemma QueryWidth(imageType: ImageType, imageWidth: Option<int>, format: string, overrideQuality: Option<int>, showDebugInfo: bool)
    ensures Values(QueryCollection(imageType, imageWidth, format, overrideQuality, showDebugInfo), "width")
      == [NullableToString(imageWidth)]
  {
    InfoOrNothingHasNoQueryKeys(imageType, imageWidth, format, showDebugInfo, "width");
    LayoutWidth(format == "webp" || format == "png8", format,
                format != "png" && format != "png8", IntToString(overrideQuality.GetOr(imageType.quality)),
                NullableToString(imageWidth),
                imageType.heightRatio.value > 0.0, imageType.heightRatio.text,
                if showDebugInfo then BuildInfoCollection(imageType, imageWidth, format) else []);
  }

  /** `mode=crop` and `heightratio` are asked for exactly when the height ratio is positive. */
  lemma QueryCrop(imageType: ImageType, imageWidth: Option<int>, format: string, overrideQuality: Option<int>, showDebugInfo: bool)
    ensures Values(QueryCollection(imageType, imageWidth, format, overrideQuality, showDebugInfo), "mode")
      == if imageType.heightRatio.value > 0.0 then ["crop"] else []
    ensures Values(QueryCollection(imageType, imageWidth, format, overrideQuality, showDebugInfo), "heightratio")
      == if imageType.heightRatio.value > 0.0 then [imageType.heightRatio.text] else []
  {
    var info := if showDebugInfo then BuildInfoCollection(imageType, imageWidth, format) else [];
    InfoOrNothingHasNoQueryKeys(imageType, imageWidth, format, showDebugInfo, "mode");
    InfoOrNothingHasNoQueryKeys(imageType, imageWidth, format, showDebugInfo, "heightratio");
    LayoutMode(format == "webp" || format == "png8", format,
               format != "png" && format != "png8", IntToString(overrideQuality.GetOr(imageType.quality)),
               NullableToString(imageWidth), imageType.heightRatio.value > 0.0, imageType.heightRatio.text, info);
    LayoutHeightRatio(format == "webp" || format == "png8", format,
                      format != "png" && format != "png8", IntToString(overrideQuality.GetOr(imageType.quality)),
                      NullableToString(imageWidth), imageType.heightRatio.value > 0.0, imageType.heightRatio.text, info);
  }

  /** The debug pairs end the collection when the setting is on; without it there are at most five pairs. */
  lemma QueryDebug(imageType: ImageType, imageWidth: Option<int>, format: string, overrideQuality: Option<int>, showDebugInfo: bool)
    ensures showDebugInfo ==>
      var qc := QueryCollection(imageType, imageWidth, format, overrideQuality, showDebugInfo);
      |qc| >= 4 && qc[|qc| - 4..] == BuildInfoCollection(imageType, imageWidth, format)
    ensures !showDebugInfo ==> |QueryCollection(imageType, imageWidth, format, overrideQuality, showDebugInfo)| <= 5
  {
    LayoutInfoLast(format == "webp" || format == "png8", format,
                   format != "png" && format != "png8", IntToString(overrideQuality.GetOr(imageType.quality)),
                   NullableToString(imageWidth), imageType.heightRatio.value > 0.0, imageType.heightRatio.text,
                   if showDebugInfo then BuildInfoCollection(imageType, imageWidth, format) else []);
  }

  /**
   * The URL `BuildQueryString` returns asks for exactly the candidate's
   * width, for its format when that is `webp` or `png8` and for its quality
   * unless the format is a png; every parameter it does not set keeps the
   * value the image URL had.
   */
  lemma MergedQuery(q: seq<Pair>, imageType: ImageType, imageWidth: Option<int>, format: string,
                    overrideQuality: Option<int>, showDebugInfo: bool)
    ensures Values(Merge(q, QueryCollection(imageType, imageWidth, format, overrideQuality, showDebugInfo)), "width")
      == [NullableToString(imageWidth)]
    ensures Values(Merge(q, QueryCollection(imageType, imageWidth, format, overrideQuality, showDebugInfo)), "format")
      == if format == "webp" || format == "png8" then [format] else Values(q, "format")
    ensures Values(Merge(q, QueryCollection(imageType, imageWidth, format, overrideQuality, showDebugInfo)), "quality")
      == if format != "png" && format != "png8" then [IntToString(overrideQuality.GetOr(imageType.quality))] else Values(q, "quality")
  {
    var qc := QueryCollection(imageType, imageWidth, format, overrideQuality, showDebugInfo);
    QueryWidth(imageType, imageWidth, format, overrideQuality, showDebugInfo);
    QueryFormat(imageType, imageWidth, format, overrideQuality, showDebugInfo);
    QueryQuality(imageType, imageWidth, format, overrideQuality, showDebugInfo);
    MergeByValues(q, qc, "width");
    MergeByValues(q, qc, "format");
    MergeByValues(q, qc, "quality");
  }
}
