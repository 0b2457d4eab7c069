/**
 * The crop URL of an image reference picked in the crop editor
 * (src/ImageProcessor.Web.Episerver.UI.Crop/ExtensionMethods/ImageReferenceExtensions.cs).
 * The stored crop is `x, y, width, height`; the URL asks for its corners,
 * `crop=x,y,x+width,y+height`.  EPiServer's `UrlResolver` is the parameter
 * `resolve`: `None` stands for both a null URL and an exception while the
 * content link is parsed or resolved, which the method treats alike.
 */
module ImageReferenceExtensions {
  import opened Wrappers
  import opened Text
  import opened Urls
  import opened ExtensionCalls
  import Current = UrlBuilderExtensions

  /** The crop rectangle the editor stores. */
  datatype CropDetails = CropDetails(x: int, y: int, width: int, height: int)

  /** The parts of an `ImageReference` the method reads; a null link or crop is `None`. */
  datatype ImageReference = ImageReference(contentLink: Option<string>, cropDetails: Option<CropDetails>)

  /** The corner form of a crop rectangle: left, top, right, bottom. */
  function CornerForm(c: CropDetails): string
  {
    Join(",", [IntToString(c.x), IntToString(c.y), IntToString(c.x + c.width), IntToString(c.y + c.height)])
  }


  /** The text of a nullable size, when it is positive. */
  function PositiveText(size: Option<int>): string
  {
    if size.Some? then IntToString(size.value) else ""
  }

  predicate IsPositive(size: Option<int>)
  {
    size.Some? && size.value > 0
  }

  function CropText(cropDetails: Option<CropDetails>): string
  {
    if cropDetails.Some? then CornerForm(cropDetails.value) else ""
  }

  /** The pairs `GetCropUrl` adds: the crop, then a positive width, then a positive height. */
  function CropPairs(cropDetails: Option<CropDetails>, width: Option<int>, height: Option<int>): seq<Pair>
  {
    Opt(cropDetails.Some?, "crop", CropText(cropDetails)) + Opt(IsPositive(width), "width", PositiveText(width))
    + Opt(IsPositive(height), "height", PositiveText(height))
  }

  /** What `GetCropUrl` builds: the URL of the new builder and the pairs added to it. */
  datatype CropUrl = CropUrl(url: string, added: seq<Pair>)

  /** `GetFallback`: a null or empty fallback throws, anything else is the URL of a new builder with nothing added. */
  function Fallback(fallback: Option<string>): Result<CropUrl, Error>
  {
    if IsNullOrEmpty(fallback) then Err(ArgumentNull) else Ok(CropUrl(fallback.value, []))
  }

  function GetCropUrlSpec(imageReference: Option<ImageReference>, width: Option<int>, height: Option<int>,
                          fallback: Option<string>, resolve: Option<string> -> Option<string>): Result<CropUrl, Error>
  {
    if imageReference.None? then Fallback(fallback)
    else
      var url := resolve(imageReference.value.contentLink);
      if IsNullOrEmpty(url) then Fallback(fallback)
      else Ok(CropUrl(url.value, CropPairs(imageReference.value.cropDetails, width, height)))
  }

  /** `GetFallback` */
  method GetFallback(fallback: Option<string>) returns (r: Result<UrlBuilder, Error>)
    ensures Fallback(fallback).Err? ==> r == Err(Fallback(fallback).error)
    ensures Fallback(fallback).Ok? ==>
      r.Ok? && fresh(r.value) && r.value.path == PathPart(fallback.value) && r.value.query == QueryPart(fallback.value)
      && Fallback(fallback).value.added == []
  {
    if IsNullOrEmpty(fallback) {
      return Err(ArgumentNull);
    }
    var builder := new UrlBuilder(fallback.value);
    r := Ok(builder);
  }

  /** `GetCropUrl`: a builder for the resolved URL with the crop, width and height added in place. */
  method GetCropUrl(imageReference: Option<ImageReference>, width: Option<int>, height: Option<int>, fallback: Option<string>,
                    resolve: Option<string> -> Option<string>) returns (r: Result<UrlBuilder, Error>)
    ensures GetCropUrlSpec(imageReference, width, height, fallback, resolve).Err? ==>
      r == Err(GetCropUrlSpec(imageReference, width, height, fallback, resolve).error)
    ensures GetCropUrlSpec(imageReference, width, height, fallback, resolve).Ok? ==>
      var spec := GetCropUrlSpec(imageReference, width, height, fallback, resolve).value;
      r.Ok? && fresh(r.value) && r.value.path == PathPart(spec.url) && r.value.query == QueryPart(spec.url) + spec.added
  {
    if imageReference.None? {
      r := GetFallback(fallback);
      return;
    }
    var url := resolve(imageReference.value.contentLink);
    if IsNullOrEmpty(url) {
      r := GetFallback(fallback);
      return;
    }
    var urlBuilder := new UrlBuilder(url.value);
    AddCropPairs(urlBuilder, imageReference.value.cropDetails, width, height);
    r := Ok(urlBuilder);
  }

  /** The three additions of `GetCropUrl`, on a builder of a non-empty URL. */
  method AddCropPairs(urlBuilder: UrlBuilder, cropDetails: Option<CropDetails>, width: Option<int>, height: Option<int>)
    requires !urlBuilder.isEmpty
    modifies urlBuilder
    ensures urlBuilder.path == old(urlBuilder.path)
    ensures urlBuilder.query == old(urlBuilder.query) + CropPairs(cropDetails, width, height)
  {
    AddCrop(urlBuilder, cropDetails);
    AddWidth(urlBuilder, width);
    AddHeight(urlBuilder, height);
  }

  /** The `Add("crop", ...)` step of `GetCropUrl`. */
  method AddCrop(urlBuilder: UrlBuilder, cropDetails: Option<CropDetails>)
    modifies urlBuilder
    ensures urlBuilder.path == old(urlBuilder.path)
    ensures urlBuilder.query == old(urlBuilder.query) + Opt(cropDetails.Some?, "crop", CropText(cropDetails))
  {
    if cropDetails.Some? {
      urlBuilder.Add("crop", CornerForm(cropDetails.value));
    } else {
      assert old(urlBuilder.query) + [] == old(urlBuilder.query);
    }
  }

  /** The `Width` step of `GetCropUrl`, on a builder of a non-empty URL. */
  method AddWidth(urlBuilder: UrlBuilder, width: Option<int>)
    requires !urlBuilder.isEmpty
    modifies urlBuilder
    ensures urlBuilder.path == old(urlBuilder.path)
    ensures urlBuilder.query == old(urlBuilder.query) + Opt(IsPositive(width), "width", PositiveText(width))
  {
    if IsPositive(width) {
      Current.GuardedEffect([("width", IntToString(width.value))]);
      var _ := Apply(urlBuilder, Current.Width(width.value));
    } else {
      assert old(urlBuilder.query) + [] == old(urlBuilder.query);
    }
  }

  /** The `Height` step of `GetCropUrl`, on a builder of a non-empty URL. */
  method AddHeight(urlBuilder: UrlBuilder, height: Option<int>)
    requires !urlBuilder.isEmpty
    modifies urlBuilder
    ensures urlBuilder.path == old(urlBuilder.path)
    ensures urlBuilder.query == old(urlBuilder.query) + Opt(IsPositive(height), "height", PositiveText(height))
  {
    if IsPositive(height) {
      Current.GuardedEffect([("height", IntToString(height.value))]);
      var _ := Apply(urlBuilder, Current.Height(height.value));
    } else {
      assert old(urlBuilder.query) + [] == old(urlBuilder.query);
    }
  }

  // ---------------------------------------------------------------------------------------------
  // Properties

  /** The corner form holds the left and top edge, then the right and bottom edge. */
  lemma CornerFormParts(c: CropDetails)
    ensures CornerForm(c) == IntToString(c.x) + "," + IntToString(c.y) + "," + IntToString(c.x + c.width) + ","
                             + IntToString(c.y + c.height)
  {
    JoinFour(",", IntToString(c.x), IntToString(c.y), IntToString(c.x + c.width), IntToString(c.y + c.height));
  }

  lemma ValuesOfThree(p0: seq<Pair>, p1: seq<Pair>, p2: seq<Pair>, key: string)
    ensures Values(p0 + p1 + p2, key) == Values(p0, key) + Values(p1, key) + Values(p2, key)
  {
    ValuesAppend(p0 + p1, p2, key);
    ValuesAppend(p0, p1, key);
  }

  /**
   * The pairs come in the order crop, width, height; each is there exactly
   * when its value is (a width or height only when positive).
   */
  lemma CropPairsShape(cropDetails: Option<CropDetails>, width: Option<int>, height: Option<int>)
    ensures Values(CropPairs(cropDetails, width, height), "crop")
      == if cropDetails.Some? then [CornerForm(cropDetails.value)] else []
    ensures Values(CropPairs(cropDetails, width, height), "width")
      == if width.Some? && width.value > 0 then [IntToString(width.value)] else []
    ensures Values(CropPairs(cropDetails, width, height), "height")
      == if height.Some? && height.value > 0 then [IntToString(height.value)] else []
    ensures Keys(CropPairs(cropDetails, width, height))
      == (if cropDetails.Some? then ["crop"] else []) + (if width.Some? && width.value > 0 then ["width"] else [])
         + (if height.Some? && height.value > 0 then ["height"] else [])
  {
    CropValues(cropDetails, width, height);
    WidthValues(cropDetails, width, height);
    HeightValues(cropDetails, width, height);
    CropPairsKeys(cropDetails, width, height);
  }

  lemma CropPairsKeys(cropDetails: Option<CropDetails>, width: Option<int>, height: Option<int>)
    ensures Keys(CropPairs(cropDetails, width, height))
      == (if cropDetails.Some? then ["crop"] else []) + (if width.Some? && width.value > 0 then ["width"] else [])
         + (if height.Some? && height.value > 0 then ["height"] else [])
  {
    KeysAppend(Opt(cropDetails.Some?, "crop", CropText(cropDetails)) + Opt(IsPositive(width), "width", PositiveText(width)),
               Opt(IsPositive(height), "height", PositiveText(height)));
    KeysAppend(Opt(cropDetails.Some?, "crop", CropText(cropDetails)), Opt(IsPositive(width), "width", PositiveText(width)));
    KeysOpt(cropDetails.Some?, "crop", CropText(cropDetails));
    KeysOpt(IsPositive(width), "width", PositiveText(width));
    KeysOpt(IsPositive(height), "height", PositiveText(height));
  }

  lemma KeysOpt(cond: bool, key: string, value: string)
    ensures Keys(Opt(cond, key, value)) == if cond then [key] else []
  {
  }

  lemma CropValues(cropDetails: Option<CropDetails>, width: Option<int>, height: Option<int>)
    ensures Values(CropPairs(cropDetails, width, height), "crop") == Values(Opt(cropDetails.Some?, "crop", CropText(cropDetails)), "crop")
  {
    ValuesOfThree(Opt(cropDetails.Some?, "crop", CropText(cropDetails)), Opt(IsPositive(width), "width", PositiveText(width)),
                  Opt(IsPositive(height), "height", PositiveText(height)), "crop");
    ValuesOptOther(IsPositive(width), "width", PositiveText(width), "crop", 0);
    ValuesOptOther(IsPositive(height), "height", PositiveText(height), "crop", 0);
  }

  lemma WidthValues(cropDetails: Option<CropDetails>, width: Option<int>, height: Option<int>)
    ensures Values(CropPairs(cropDetails, width, height), "width") == Values(Opt(IsPositive(width), "width", PositiveText(width)), "width")
  {
    ValuesOfThree(Opt(cropDetails.Some?, "crop", CropText(cropDetails)), Opt(IsPositive(width), "width", PositiveText(width)),
                  Opt(IsPositive(height), "height", PositiveText(height)), "width");
    ValuesOptOther(cropDetails.Some?, "crop", CropText(cropDetails), "width", 0);
    ValuesOptOther(IsPositive(height), "height", PositiveText(height), "width", 0);
  }

  lemma HeightValues(cropDetails: Option<CropDetails>, width: Option<int>, height: Option<int>)
    ensures Values(CropPairs(cropDetails, width, height), "height") == Values(Opt(IsPositive(height), "height", PositiveText(height)), "height")
  {
    ValuesOfThree(Opt(cropDetails.Some?, "crop", CropText(cropDetails)), Opt(IsPositive(width), "width", PositiveText(width)),
                  Opt(IsPositive(height), "height", PositiveText(height)), "height");
    ValuesOptOther(cropDetails.Some?, "crop", CropText(cropDetails), "height", 0);
    ValuesOptOther(IsPositive(width), "width", PositiveText(width), "height", 0);
  }

  /**
   * A null reference, a null or empty resolved URL all give the fallback,
   * which throws exactly when it is null or empty; a resolved URL adds the
   * crop pairs to it.
   */
  lemma FallbackRules(imageReference: Option<ImageReference>, width: Option<int>, height: Option<int>, fallback: Option<string>,
                      resolve: Option<string> -> Option<string>)
    ensures var spec := GetCropUrlSpec(imageReference, width, height, fallback, resolve);
      var resolved := imageReference.Some? && !IsNullOrEmpty(resolve(imageReference.value.contentLink));
      && (!resolved ==> (spec.Err? <==> IsNullOrEmpty(fallback)))
      && (!resolved && spec.Ok? ==> spec.value == CropUrl(fallback.value, []))
      && (spec.Err? ==> spec.error == ArgumentNull)
      && (resolved ==>
            spec == Ok(CropUrl(resolve(imageReference.value.contentLink).value, CropPairs(imageReference.value.cropDetails, width, height))))
  {
  }
}
