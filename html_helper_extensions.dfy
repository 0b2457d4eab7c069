/**
 * The `ProcessImage` entry points of the view helpers
 * (src/ImageProcessor.Web.Episerver/Extensions/HtmlHelperExtensions.cs):
 * each picks the URL a new `UrlBuilder` is made from, or throws.  The URL of
 * a content reference comes from EPiServer's `UrlResolver`, which is the
 * parameter `resolve` here.
 */
module HtmlHelperExtensions {
  import opened Wrappers
  import opened Text
  import opened Urls

  /** The exception the strict overloads throw. */
  datatype Error = ArgumentNull

  /** The `ImageType` declared in this file; null arrays are `None`. */
  datatype ImageType = ImageType(defaultImgWidth: Option<int>, srcSetWidths: Option<seq<int>>,
                                 srcSetSizes: Option<seq<string>>, heightRatio: real, quality: int)

  /** `new ImageType()`: the default quality is 80 and nothing else is set. */
  function NewImageType(): (t: ImageType)
    ensures t.quality == 80
    ensures t.defaultImgWidth.None? && t.srcSetWidths.None? && t.srcSetSizes.None? && t.heightRatio == 0.0
  {
    ImageType(None, None, None, 0.0, 80)
  }

  /** An EPiServer content reference; two references are equal when all three parts are. */
  datatype ContentReference = ContentReference(id: int, workId: int, providerName: string)

  /** `ContentReference.EmptyReference` */
  const EmptyReference := ContentReference(0, 0, "")

  /** `image == null || image == ContentReference.EmptyReference` */
  predicate IsMissing(image: Option<ContentReference>)
  {
    image.None? || image.value == EmptyReference
  }

  /** The URL `ProcessImage(ContentReference)` builds from, or its exception. */
  function ProcessImageUrl(image: Option<ContentReference>, resolve: ContentReference -> Option<string>)
    : Result<Option<string>, Error>
  {
    if IsMissing(image) then Err(ArgumentNull) else Ok(resolve(image.value))
  }

  /** The URL `ProcessImageWithFallback(ContentReference, string)` builds from. */
  function ProcessImageWithFallbackUrl(image: Option<ContentReference>, imageFallback: Option<string>,
                                       resolve: ContentReference -> Option<string>): Option<string>
  {
    if IsMissing(image) then imageFallback else resolve(image.value)
  }

  /** The URL `ProcessImage(string)` builds from, or its exception. */
  function ProcessImageUrlOfString(imageUrl: Option<string>): Result<Option<string>, Error>
  {
    if IsNullOrEmpty(imageUrl) then Err(ArgumentNull) else Ok(imageUrl)
  }

  /** The URL `ProcessImageWithFallback(string, string)` builds from. */
  function ProcessImageWithFallbackUrlOfString(imageUrl: Option<string>, imageFallback: Option<string>): Option<string>
  {
    if IsNullOrEmpty(imageUrl) then imageFallback else imageUrl
  }

  /** `ConstructUrl`: a new builder for the URL; a null URL is taken as the empty one. */
  method ConstructUrl(url: Option<string>) returns (builder: UrlBuilder)
    ensures fresh(builder)
    ensures builder.isEmpty == (url.GetOr("") == "")
    ensures builder.path == PathPart(url.GetOr("")) && builder.query == QueryPart(url.GetOr(""))
  {
    builder := new UrlBuilder(url.GetOr(""));
  }

  /** `ProcessImage(ContentReference)` */
  method ProcessImage(image: Option<ContentReference>, resolve: ContentReference -> Option<string>)
    returns (r: Result<UrlBuilder, Error>)
    ensures ProcessImageUrl(image, resolve).Err? ==> r == Err(ProcessImageUrl(image, resolve).error)
    ensures ProcessImageUrl(image, resolve).Ok? ==>
      var url := ProcessImageUrl(image, resolve).value.GetOr("");
      r.Ok? && fresh(r.value) && r.value.path == PathPart(url) && r.value.query == QueryPart(url)
  {
    if IsMissing(image) {
      return Err(ArgumentNull);
    }
    var url := resolve(image.value);
    var builder := ConstructUrl(url);
    r := Ok(builder);
  }

  /** `ProcessImageWithFallback(ContentReference, string)` */
  method ProcessImageWithFallback(image: Option<ContentReference>, imageFallback: Option<string>,
                                  resolve: ContentReference -> Option<string>) returns (r: UrlBuilder)
    ensures fresh(r)
    ensures r.path == PathPart(ProcessImageWithFallbackUrl(image, imageFallback, resolve).GetOr(""))
    ensures r.query == QueryPart(ProcessImageWithFallbackUrl(image, imageFallback, resolve).GetOr(""))
  {
    var url := if IsMissing(image) then imageFallback else resolve(image.value);
    r := ConstructUrl(url);
  }

  /** `ProcessImage(string)` */
  method ProcessImageOfString(imageUrl: Option<string>) returns (r: Result<UrlBuilder, Error>)
    ensures IsNullOrEmpty(imageUrl) ==> r == Err(ArgumentNull)
    ensures !IsNullOrEmpty(imageUrl) ==>
      r.Ok? && fresh(r.value) && r.value.path == PathPart(imageUrl.value) && r.value.query == QueryPart(imageUrl.value)
  {
    if IsNullOrEmpty(imageUrl) {
      return Err(ArgumentNull);
    }
    var builder := ConstructUrl(imageUrl);
    r := Ok(builder);
  }

  /** `ProcessImageWithFallback(string, string)` */
  method ProcessImageWithFallbackOfString(imageUrl: Option<string>, imageFallback: Option<string>) returns (r: UrlBuilder)
    ensures fresh(r)
    ensures r.path == PathPart(ProcessImageWithFallbackUrlOfString(imageUrl, imageFallback).GetOr(""))
    ensures r.query == QueryPart(ProcessImageWithFallbackUrlOfString(imageUrl, imageFallback).GetOr(""))
  {
    var url := if IsNullOrEmpty(imageUrl) then imageFallback else imageUrl;
    r := ConstructUrl(url);
  }

  // ---------------------------------------------------------------------------------------------
  // Properties

  /**
   * The strict overload throws exactly for a null or empty reference; the
   * fallback overload uses the fallback exactly then, and otherwise builds
   * from the same resolved URL as the strict one.
   */
  lemma ReferenceOverloads(image: Option<ContentReference>, imageFallback: Option<string>,
                           resolve: ContentReference -> Option<string>)
    ensures ProcessImageUrl(image, resolve).Err? <==> image.None? || image.value == ContentReference(0, 0, "")
    ensures ProcessImageUrl(image, resolve).Ok? ==>
      ProcessImageWithFallbackUrl(image, imageFallback, resolve) == ProcessImageUrl(image, resolve).value
    ensures ProcessImageUrl(image, resolve).Err? ==> ProcessImageWithFallbackUrl(image, imageFallback, resolve) == imageFallback
  {
  }

  /**
   * The string overloads: the strict one throws exactly for null or "", the
   * fallback one falls back exactly then.  Any other URL, white space
   * included, is kept as given by both.
   */
  lemma StringOverloads(imageUrl: Option<string>, imageFallback: Option<string>)
    ensures ProcessImageUrlOfString(imageUrl).Err? <==> imageUrl.None? || imageUrl.value == ""
    ensures ProcessImageUrlOfString(imageUrl).Ok? ==>
      ProcessImageUrlOfString(imageUrl).value == imageUrl
      && ProcessImageWithFallbackUrlOfString(imageUrl, imageFallback) == imageUrl
    ensures ProcessImageUrlOfString(imageUrl).Err? ==> ProcessImageWithFallbackUrlOfString(imageUrl, imageFallback) == imageFallback
    ensures ProcessImageWithFallbackUrlOfString(Some(" "), imageFallback) == Some(" ")
  {
  }
}
