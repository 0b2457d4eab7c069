/**
 * The current `<picture>` helper (src/ImageProcessor.Web.Episerver/Extensions/Picture/PictureHelper.cs).
 * It no longer builds URLs itself: `PictureUtils.GetPictureData` hands it
 * every `srcset` and `src` text at once, and the helper only chooses the
 * attributes.  `GetPictureData` is not part of this model; it is the
 * parameter `getPictureData`, given the builder's text, the image type and
 * whether quality-1 URLs are wanted.
 */
module PictureHelper {
  import opened Wrappers
  import opened Text
  import opened Urls
  import opened Html
  import Utils = PictureUtils

  /** `LazyLoadType`; `NoLazyLoad` is its `None`. */
  datatype LazyLoadType = NoLazyLoad | Custom | CustomProgressive | Native | Hybrid

  /** The obsolete names are aliases: `Regular = Custom`, `Progressive = CustomProgressive`. */
  const Regular: LazyLoadType := Custom
  const Progressive: LazyLoadType := CustomProgressive

  /** `PictureData`; a null text is `None`. */
  datatype PictureData = PictureData(srcSet: Option<string>, srcSetWebp: Option<string>, srcSetLowQuality: Option<string>,
                                     srcSetLowQualityWebp: Option<string>, sizesAttribute: Option<string>,
                                     imgSrc: Option<string>, imgSrcLowQuality: Option<string>)

  /** What the helper asks `GetPictureData` for. */
  datatype PictureRequest = PictureRequest(url: string, imageType: Utils.ImageType, includeLowQuality: bool)

  /** A tag builder writes an attribute added with a null value as an empty one. */
  function AttributeText(value: Option<string>): string
  {
    value.GetOr("")
  }

  /** The attributes of the `img` element. */
  function ImgAttributes(data: PictureData, lazyLoadType: LazyLoadType, cssClass: Option<string>): (r: map<string, string>)
    ensures "alt" in r && r["alt"] == ""
    ensures "src" in r <==> lazyLoadType != Custom
    ensures "data-src" in r <==> lazyLoadType in {Custom, CustomProgressive}
    ensures "class" in r <==> !IsNullOrEmpty(cssClass)
    ensures "src" in r ==>
      r["src"] == AttributeText(if lazyLoadType == CustomProgressive then data.imgSrcLowQuality else data.imgSrc)
    ensures "data-src" in r ==> r["data-src"] == AttributeText(data.imgSrc)
    ensures "class" in r ==> r["class"] == cssClass.value
    ensures r.Keys <= {"alt", "src", "data-src", "class"}
  {
    var attributes := match lazyLoadType
      case Custom => map["alt" := "", "data-src" := AttributeText(data.imgSrc)]
      case CustomProgressive => map["alt" := "", "src" := AttributeText(data.imgSrcLowQuality), "data-src" := AttributeText(data.imgSrc)]
      case _ => map["alt" := "", "src" := AttributeText(data.imgSrc)];
    if IsNullOrEmpty(cssClass) then attributes else attributes["class" := cssClass.value]
  }

  /**
   * The attributes of a `source` element.  The webp source takes
   * `SrcSetWebp` and a `type`; under CustomProgressive every source,
   * the webp one included, shows `SrcSetLowQuality` first.
   */
  function SourceAttributes(data: PictureData, lazyLoadType: LazyLoadType, format: string): (r: map<string, string>)
    ensures "sizes" in r && r["sizes"] == AttributeText(data.sizesAttribute)
    ensures "type" in r <==> format == "webp"
    ensures "type" in r ==> r["type"] == "image/webp"
    ensures "srcset" in r <==> lazyLoadType != Custom
    ensures "data-srcset" in r <==> lazyLoadType in {Custom, CustomProgressive}
    ensures "srcset" in r ==>
      r["srcset"] == AttributeText(if lazyLoadType == CustomProgressive then data.srcSetLowQuality
                                   else if format == "webp" then data.srcSetWebp else data.srcSet)
    ensures "data-srcset" in r ==> r["data-srcset"] == AttributeText(if format == "webp" then data.srcSetWebp else data.srcSet)
    ensures r.Keys <= {"type", "srcset", "data-srcset", "sizes"}
  {
    var srcset := if format == "webp" then data.srcSetWebp else data.srcSet;
    var typed: map<string, string> := if format == "webp" then map["type" := "image/" + format] else map[];
    var sets := match lazyLoadType
      case Custom => typed["data-srcset" := AttributeText(srcset)]
      case CustomProgressive => typed["srcset" := AttributeText(data.srcSetLowQuality)]["data-srcset" := AttributeText(srcset)]
      case _ => typed["srcset" := AttributeText(srcset)];
    sets["sizes" := AttributeText(data.sizesAttribute)]
  }

  /** `BuildImgElement` */
  method BuildImgElement(data: PictureData, lazyLoadType: LazyLoadType, cssClass: Option<string>) returns (img: Element)
    ensures img == Element("img", ImgAttributes(data, lazyLoadType, cssClass))
  {
    var attributes: map<string, string> := map["alt" := ""];
    match lazyLoadType {
      case Custom =>
        attributes := attributes["data-src" := AttributeText(data.imgSrc)];
      case CustomProgressive =>
        attributes := attributes["src" := AttributeText(data.imgSrcLowQuality)];
        attributes := attributes["data-src" := AttributeText(data.imgSrc)];
      case _ =>
        attributes := attributes["src" := AttributeText(data.imgSrc)];
    }
    if !IsNullOrEmpty(cssClass) {
      attributes := attributes["class" := cssClass.value];
    }
    img := Element("img", attributes);
  }

  /** `BuildSourceElement` */
  method BuildSourceElement(data: PictureData, lazyLoadType: LazyLoadType, format: string) returns (source: Element)
    ensures source == Element("source", SourceAttributes(data, lazyLoadType, format))
  {
    var attributes: map<string, string> := map[];
    var srcset := data.srcSet;
    if format == "webp" {
      srcset := data.srcSetWebp;
      attributes := attributes["type" := "image/" + format];
    }
    match lazyLoadType {
      case Custom =>
        attributes := attributes["data-srcset" := AttributeText(srcset)];
      case CustomProgressive =>
        attributes := attributes["srcset" := AttributeText(data.srcSetLowQuality)];
        attributes := attributes["data-srcset" := AttributeText(srcset)];
      case _ =>
        attributes := attributes["srcset" := AttributeText(srcset)];
    }
    attributes := attributes["sizes" := AttributeText(data.sizesAttribute)];
    source := Element("source", attributes);
  }

  /** The children of the `picture` element for the given data. */
  function PictureChildren(data: PictureData, lazyLoadType: LazyLoadType, cssClass: Option<string>): seq<Element>
  {
    (if data.srcSet.None? then []
     else (if data.srcSetWebp.Some? then [Element("source", SourceAttributes(data, lazyLoadType, "webp"))] else [])
          + [Element("source", SourceAttributes(data, lazyLoadType, ""))])
    + [Element("img", ImgAttributes(data, lazyLoadType, cssClass))]
  }

  /** The request `Picture` makes: quality-1 texts only under CustomProgressive. */
  function Request(url: string, imageType: Utils.ImageType, lazyLoadType: LazyLoadType): (r: PictureRequest)
    ensures r.includeLowQuality <==> lazyLoadType == CustomProgressive
    ensures r.url == url && r.imageType == imageType
  {
    PictureRequest(url, imageType, lazyLoadType == CustomProgressive)
  }

  /**
   * `Picture` over a builder: the empty markup for null; otherwise a
   * `picture` element filled one child at a time.
   */
  method Picture(imageUrl: UrlBuilder?, imageType: Utils.ImageType, cssClass: Option<string>, lazyLoadType: LazyLoadType,
                 getPictureData: PictureRequest -> PictureData) returns (r: Markup)
    ensures imageUrl == null ==> r == NoMarkup
    ensures imageUrl != null ==>
      r == PictureElement(PictureChildren(getPictureData(Request(imageUrl.ToString(), imageType, lazyLoadType)), lazyLoadType, cssClass))
  {
    if imageUrl == null {
      return NoMarkup;
    }
    var data := getPictureData(Request(imageUrl.ToString(), imageType, lazyLoadType));
    var innerHtml: seq<Element> := [];
    if data.srcSet.Some? {
      if data.srcSetWebp.Some? {
        var webp := BuildSourceElement(data, lazyLoadType, "webp");
        innerHtml := innerHtml + [webp];
      }
      var source := BuildSourceElement(data, lazyLoadType, "");
      innerHtml := innerHtml + [source];
    }
    ghost var sources := innerHtml;
    var img := BuildImgElement(data, lazyLoadType, cssClass);
    innerHtml := innerHtml + [img];
    SourcesThenImg(data, lazyLoadType, cssClass, sources, innerHtml);
    r := PictureElement(innerHtml);
  }

  /** The children `Picture` appends: its sources, then the `img` element. */
  lemma SourcesThenImg(data: PictureData, lazyLoadType: LazyLoadType, cssClass: Option<string>, sources: seq<Element>,
                       children: seq<Element>)
    requires sources == if data.srcSet.None? then []
      else (if data.srcSetWebp.Some? then [] + [Element("source", SourceAttributes(data, lazyLoadType, "webp"))] else [])
           + [Element("source", SourceAttributes(data, lazyLoadType, ""))]
    requires children == sources + [Element("img", ImgAttributes(data, lazyLoadType, cssClass))]
    ensures children == PictureChildren(data, lazyLoadType, cssClass)
  {
    assert [] + [Element("source", SourceAttributes(data, lazyLoadType, "webp"))]
      == [Element("source", SourceAttributes(data, lazyLoadType, "webp"))];
  }

  /** `Picture` over a URL string: null gives the empty markup, anything else a builder made from it. */
  method PictureOfUrl(imageUrl: Option<string>, imageType: Utils.ImageType, cssClass: Option<string>, lazyLoadType: LazyLoadType,
                      getPictureData: PictureRequest -> PictureData) returns (r: Markup)
    ensures imageUrl.None? ==> r == NoMarkup
    ensures imageUrl.Some? ==>
      r == PictureElement(PictureChildren(getPictureData(Request(Render(PathPart(imageUrl.value), QueryPart(imageUrl.value)),
                                                                 imageType, lazyLoadType)), lazyLoadType, cssClass))
  {
    if imageUrl.None? {
      return NoMarkup;
    }
    var urlBuilder := new UrlBuilder(imageUrl.value);
    r := Picture(urlBuilder, imageType, cssClass, lazyLoadType, getPictureData);
  }

  // ---------------------------------------------------------------------------------------------
  // Properties

  /**
   * The `img` element is always last; there are sources only with a
   * `SrcSet`, and a `webp` source (the only one with a `type`) comes first
   * exactly when there is a `SrcSetWebp` too.
   */
  lemma PictureShape(data: PictureData, lazyLoadType: LazyLoadType, cssClass: Option<string>)
    ensures var children := PictureChildren(data, lazyLoadType, cssClass);
      && |children| == (if data.srcSet.None? then 1 else if data.srcSetWebp.Some? then 3 else 2)
      && children[|children| - 1].tag == "img"
      && (forall k :: 0 <= k < |children| - 1 ==> children[k].tag == "source")
      && (|children| > 1 ==> ("type" in children[0].attributes <==> data.srcSetWebp.Some?))
      && (|children| == 3 ==> children[0].attributes["type"] == "image/webp" && "type" !in children[1].attributes)
  {
  }

  /**
   * The data-srcset of the webp source is `SrcSetWebp` and that of the
   * default source `SrcSet`, whenever the lazy type writes one.
   */
  lemma SourceTexts(data: PictureData, lazyLoadType: LazyLoadType)
    requires lazyLoadType in {Custom, CustomProgressive}
    ensures SourceAttributes(data, lazyLoadType, "webp")["data-srcset"] == AttributeText(data.srcSetWebp)
    ensures SourceAttributes(data, lazyLoadType, "")["data-srcset"] == AttributeText(data.srcSet)
  {
  }

  /** Native and Hybrid write the same elements as no lazy loading: a plain `src` and `srcset`. */
  lemma NativeAndHybridAsNone(data: PictureData, cssClass: Option<string>)
    ensures PictureChildren(data, Native, cssClass) == PictureChildren(data, NoLazyLoad, cssClass)
    ensures PictureChildren(data, Hybrid, cssClass) == PictureChildren(data, NoLazyLoad, cssClass)
  {
  }

  /**
   * The `source` attributes as evidently intended: under CustomProgressive
   * each source shows the low-quality texts of its own format, so the
   * webp source shows `SrcSetLowQualityWebp`.
   */
  function CorrectedSourceAttributes(data: PictureData, lazyLoadType: LazyLoadType, format: string): map<string, string>
  {
    var attributes := SourceAttributes(data, lazyLoadType, format);
    if lazyLoadType == CustomProgressive && format == "webp"
    then attributes["srcset" := AttributeText(data.srcSetLowQualityWebp)]
    else attributes
  }

  /**
   * As written, under CustomProgressive the webp source shows
   * `SrcSetLowQuality`, the low-quality texts of the original format,
   * although the data carries `SrcSetLowQualityWebp` for it.
   */
  lemma WebpSourceShowsOriginalLowQuality(data: PictureData)
    requires data.srcSetLowQuality == Some("a.jpg?quality=1 100w") && data.srcSetLowQualityWebp == Some("a.jpg?format=webp&quality=1 100w")
    ensures SourceAttributes(data, CustomProgressive, "webp")["srcset"] == "a.jpg?quality=1 100w"
    ensures SourceAttributes(data, CustomProgressive, "webp")["srcset"] != AttributeText(data.srcSetLowQualityWebp)
  {
  }

  /**
   * As evidently intended, every low-quality `srcset` is of its source's
   * own format, and in nothing else does the intended definition differ
   * from the source as written.
   */
  lemma CorrectedLowQualitySources(data: PictureData, lazyLoadType: LazyLoadType, format: string)
    ensures CorrectedSourceAttributes(data, CustomProgressive, "webp")["srcset"] == AttributeText(data.srcSetLowQualityWebp)
    ensures CorrectedSourceAttributes(data, CustomProgressive, "")["srcset"] == AttributeText(data.srcSetLowQuality)
    ensures CorrectedSourceAttributes(data, lazyLoadType, format).Keys == SourceAttributes(data, lazyLoadType, format).Keys
    ensures forall key :: key in SourceAttributes(data, lazyLoadType, format) && key != "srcset" ==>
      CorrectedSourceAttributes(data, lazyLoadType, format)[key] == SourceAttributes(data, lazyLoadType, format)[key]
    ensures !(lazyLoadType == CustomProgressive && format == "webp") ==>
      CorrectedSourceAttributes(data, lazyLoadType, format) == SourceAttributes(data, lazyLoadType, format)
  {
  }
}
