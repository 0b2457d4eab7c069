/**
 * The first `<picture>` helper (src/ImageProcessor.Web.Episerver/Extensions/PictureHelper.cs).
 * Every URL it writes comes from merging a query collection into the one
 * `UrlBuilder` it was given, so each URL starts from the parameters the
 * previous one left behind.
 */
module PictureHelperLegacy {
  import opened Wrappers
  import opened Text
  import opened Urls
  import opened Html
  import I = Imaging
  import Utils = PictureUtils
  import Sequences

  /** The exception a helper call ends in: `string.Join` over a null `SrcSetSizes`. */
  datatype Error = ArgumentNull

  /** The `ImageType` declared next to this helper; null arrays are `None`. */
  datatype ImageType = ImageType(defaultImgWidth: Option<int>, srcSetWidths: Option<seq<int>>,
                                 srcSetSizes: Option<seq<string>>, heightRatio: I.Float, quality: int)

  /** `new ImageType()`: the default quality is 80 and nothing else is set. */
  function NewImageType(): (t: ImageType)
    ensures t.quality == 80
    ensures t.defaultImgWidth.None? && t.srcSetWidths.None? && t.srcSetSizes.None? && t.heightRatio.value == 0.0
  {
    ImageType(None, None, None, I.Float(0.0, "0"), 80)
  }

  /** `LazyLoadType`; `NotLazy` is its `None`. */
  datatype LazyLoadType = NotLazy | Regular | Progressive

  // ---------------------------------------------------------------------------------------------
  // The query of one URL

  /** `BuildInfoCollection`: as in `PictureUtils`, except that the large font starts above 800 pixels. */
  function BuildInfoCollection(imageType: ImageType, imageWidth: Option<int>, format: string): seq<Pair>
  {
    var height := Utils.DebugHeight(imageType.heightRatio, imageWidth);
    var fontsize := if imageWidth.Some? && imageWidth.value > 800 then 35 else 17;
    Utils.InfoLayout(Utils.WatermarkText(format, imageWidth, height), IntToString(fontsize),
                     Join(",", [NullableToString(Utils.TextX(imageWidth)), IntToString(HalfTowardZero(height))]))
  }

  /** The collection `BuildQueryString` fills: any non-empty format, then the quality, always. */
  function QueryCollection(imageType: ImageType, imageWidth: Option<int>, format: string,
                           overrideQuality: Option<int>, showDebugInfo: bool): seq<Pair>
  {
    Utils.QueryLayout(format != "", format, true, IntToString(overrideQuality.GetOr(imageType.quality)),
                      NullableToString(imageWidth),
                      imageType.heightRatio.value > 0.0, imageType.heightRatio.text,
                      if showDebugInfo then BuildInfoCollection(imageType, imageWidth, format) else [])
  }

  /** `BuildQueryString`: merges the collection into `target` itself and returns its text. */
  method BuildQueryString(target: UrlBuilder, imageType: ImageType, imageWidth: Option<int>, format: string,
                          overrideQuality: Option<int>, showDebugInfo: bool) returns (r: string)
    modifies target
    ensures target.path == old(target.path)
    ensures target.query == Merge(old(target.query), QueryCollection(imageType, imageWidth, format, overrideQuality, showDebugInfo))
    ensures r == target.ToString()
  {
    var qc := QueryCollection(imageType, imageWidth, format, overrideQuality, showDebugInfo);
    target.MergeQueryCollection(qc);
    r := target.ToString();
  }

  // ---------------------------------------------------------------------------------------------
  // The img element

  /** The attributes of the `img` element for the given URLs. */
  function ImgAttributes(lazyLoadType: LazyLoadType, imgSrc: string, imgSrcLowQuality: string, cssClass: Option<string>)
    : (r: map<string, string>)
    ensures "alt" in r && r["alt"] == ""
    ensures "src" in r <==> lazyLoadType != Regular
    ensures "data-src" in r <==> lazyLoadType != NotLazy
    ensures "class" in r <==> !IsNullOrEmpty(cssClass)
    ensures "src" in r ==> r["src"] == if lazyLoadType == Progressive then imgSrcLowQuality else imgSrc
    ensures "data-src" in r ==> r["data-src"] == imgSrc
    ensures "class" in r ==> r["class"] == cssClass.value
    ensures r.Keys <= {"alt", "src", "data-src", "class"}
  {
    var attributes := match lazyLoadType
      case Regular => map["alt" := "", "data-src" := imgSrc]
      case Progressive => map["alt" := "", "src" := imgSrcLowQuality, "data-src" := imgSrc]
      case NotLazy => map["alt" := "", "src" := imgSrc];
    if IsNullOrEmpty(cssClass) then attributes else attributes["class" := cssClass.value]
  }

  /** The query of the `img` URL: the default width merged into the builder as it stands. */
  function ImgQuery(q: seq<Pair>, imageType: ImageType, showDebugInfo: bool): seq<Pair>
  {
    Merge(q, QueryCollection(imageType, imageType.defaultImgWidth, "", None, showDebugInfo))
  }

  /** The query of the quality-1 `img` URL, merged on top of `ImgQuery`. */
  function ImgLowQualityQuery(q: seq<Pair>, imageType: ImageType, showDebugInfo: bool): seq<Pair>
  {
    Merge(ImgQuery(q, imageType, showDebugInfo), QueryCollection(imageType, imageType.defaultImgWidth, "", Some(1), showDebugInfo))
  }

  /** The builder's query once the `img` element is built. */
  function QueryAfterImg(q: seq<Pair>, imageType: ImageType, lazyLoadType: LazyLoadType, showDebugInfo: bool): seq<Pair>
  {
    if lazyLoadType == Progressive then ImgLowQualityQuery(q, imageType, showDebugInfo) else ImgQuery(q, imageType, showDebugInfo)
  }

  function ImgElement(path: string, q: seq<Pair>, imageType: ImageType, lazyLoadType: LazyLoadType,
                      cssClass: Option<string>, showDebugInfo: bool): Element
  {
    Element("img", ImgAttributes(lazyLoadType, Render(path, ImgQuery(q, imageType, showDebugInfo)),
                                 Render(path, ImgLowQualityQuery(q, imageType, showDebugInfo)), cssClass))
  }

  /** `BuildImgElement` */
  method BuildImgElement(imageUrl: UrlBuilder, imageType: ImageType, lazyLoadType: LazyLoadType, cssClass: Option<string>,
                         showDebugInfo: bool) returns (img: Element)
    modifies imageUrl
    ensures imageUrl.path == old(imageUrl.path)
    ensures imageUrl.query == QueryAfterImg(old(imageUrl.query), imageType, lazyLoadType, showDebugInfo)
    ensures img == ImgElement(imageUrl.path, old(imageUrl.query), imageType, lazyLoadType, cssClass, showDebugInfo)
  {
    ghost var q0 := imageUrl.query;
    var imgSrc := BuildQueryString(imageUrl, imageType, imageType.defaultImgWidth, "", None, showDebugInfo);
    var attributes: map<string, string> := map["alt" := ""];
    match lazyLoadType {
      case Regular =>
        attributes := attributes["data-src" := imgSrc];
      case Progressive =>
        var imgSrcLowQuality := BuildQueryString(imageUrl, imageType, imageType.defaultImgWidth, "", Some(1), showDebugInfo);
        attributes := attributes["src" := imgSrcLowQuality];
        attributes := attributes["data-src" := imgSrc];
      case NotLazy =>
        attributes := attributes["src" := imgSrc];
    }
    if !IsNullOrEmpty(cssClass) {
      attributes := attributes["class" := cssClass.value];
    }
    img := Element("img", attributes);
  }

  // ---------------------------------------------------------------------------------------------
  // The source elements

  /** One candidate of a `srcset`: the query its URL was rendered from, and its width. */
  datatype Candidate = Candidate(query: seq<Pair>, width: int)

  /** What the loop over `SrcSetWidths` produces: the candidates, the quality-1 candidates and the builder's final query. */
  datatype SrcSetRun = SrcSetRun(candidates: seq<Candidate>, lowQuality: seq<Candidate>, query: seq<Pair>)

  /** The builder's query after the URL for width `w`. */
  function FirstQuery(q: seq<Pair>, imageType: ImageType, w: int, format: string, showDebugInfo: bool): seq<Pair>
  {
    Merge(q, QueryCollection(imageType, Some(w), format, None, showDebugInfo))
  }

  /** The builder's query after width `w`: under Progressive the quality-1 URL is merged in as well. */
  function NextQuery(q: seq<Pair>, imageType: ImageType, w: int, format: string, lazyLoadType: LazyLoadType,
                     showDebugInfo: bool): seq<Pair>
  {
    var q1 := FirstQuery(q, imageType, w, format, showDebugInfo);
    if lazyLoadType == Progressive then Merge(q1, QueryCollection(imageType, Some(w), format, Some(1), showDebugInfo)) else q1
  }

  /** The loop over `SrcSetWidths`, one width after the other on the shared builder's query `q`. */
  function RunSrcSet(q: seq<Pair>, imageType: ImageType, widths: seq<int>, format: string, lazyLoadType: LazyLoadType,
                     showDebugInfo: bool): (r: SrcSetRun)
    ensures |r.candidates| == |widths|
    ensures |r.lowQuality| == if lazyLoadType == Progressive then |widths| else 0
    ensures forall k :: 0 <= k < |widths| ==> r.candidates[k].width == widths[k]
    ensures forall k :: 0 <= k < |r.lowQuality| ==> r.lowQuality[k].width == widths[k]
    decreases |widths|
  {
    if widths == [] then SrcSetRun([], [], q)
    else
      var q1 := FirstQuery(q, imageType, widths[0], format, showDebugInfo);
      var q2 := NextQuery(q, imageType, widths[0], format, lazyLoadType, showDebugInfo);
      var rest := RunSrcSet(q2, imageType, widths[1..], format, lazyLoadType, showDebugInfo);
      SrcSetRun([Candidate(q1, widths[0])] + rest.candidates,
                (if lazyLoadType == Progressive then [Candidate(q2, widths[0])] else []) + rest.lowQuality,
                rest.query)
  }

  /** The first candidates of a run, and the others as the run from the next query. */
  lemma RunHead(q: seq<Pair>, imageType: ImageType, widths: seq<int>, format: string, lazyLoadType: LazyLoadType,
                showDebugInfo: bool)
    requires widths != []
    ensures var run := RunSrcSet(q, imageType, widths, format, lazyLoadType, showDebugInfo);
      var q2 := NextQuery(q, imageType, widths[0], format, lazyLoadType, showDebugInfo);
      var rest := RunSrcSet(q2, imageType, widths[1..], format, lazyLoadType, showDebugInfo);
      && run.candidates[0] == Candidate(FirstQuery(q, imageType, widths[0], format, showDebugInfo), widths[0])
      && (forall k :: 0 < k < |widths| ==> run.candidates[k] == rest.candidates[k - 1] && widths[k] == widths[1..][k - 1])
      && (lazyLoadType == Progressive ==> run.lowQuality[0] == Candidate(q2, widths[0]))
      && (forall k :: 0 < k < |run.lowQuality| ==> run.lowQuality[k] == rest.lowQuality[k - 1])
      && run.query == rest.query
  {
    var run := RunSrcSet(q, imageType, widths, format, lazyLoadType, showDebugInfo);
    var q1 := FirstQuery(q, imageType, widths[0], format, showDebugInfo);
    var q2 := NextQuery(q, imageType, widths[0], format, lazyLoadType, showDebugInfo);
    var rest := RunSrcSet(q2, imageType, widths[1..], format, lazyLoadType, showDebugInfo);
    var low := if lazyLoadType == Progressive then [Candidate(q2, widths[0])] else [];
    assert run == SrcSetRun([Candidate(q1, widths[0])] + rest.candidates, low + rest.lowQuality, rest.query);
    forall k | 0 < k < |run.lowQuality|
      ensures run.lowQuality[k] == rest.lowQuality[k - 1]
    {
      assert |low| == 1;
      assert (low + rest.lowQuality)[k] == rest.lowQuality[k - 1];
    }
  }

  /** `url + " " + width + "w"`: the `srcset` entry of a candidate. */
  function CandidateText(path: string, c: Candidate): string
  {
    Render(path, c.query) + " " + IntToString(c.width) + "w"
  }

  /**
   * The quality-1 entry `imageUrl + BuildQueryString(...) + " " + width + "w"`.
   * The builder is rendered by the concatenation, after the call has merged
   * into it, so its text comes before the candidate's entry: the URL twice.
   */
  function LowQualityText(path: string, c: Candidate): string
  {
    Render(path, c.query) + CandidateText(path, c)
  }

  function CandidateTexts(path: string, cs: seq<Candidate>): (r: seq<string>)
    ensures |r| == |cs| && forall i :: 0 <= i < |cs| ==> r[i] == CandidateText(path, cs[i])
  {
    seq(|cs|, i requires 0 <= i < |cs| => CandidateText(path, cs[i]))
  }

  function LowQualityTexts(path: string, cs: seq<Candidate>): (r: seq<string>)
    ensures |r| == |cs| && forall i :: 0 <= i < |cs| ==> r[i] == LowQualityText(path, cs[i])
  {
    seq(|cs|, i requires 0 <= i < |cs| => LowQualityText(path, cs[i]))
  }

  /** The attributes of a `source` element for the given `srcset` texts and sizes. */
  function SourceAttributes(format: string, lazyLoadType: LazyLoadType, srcset: string, srcsetLowQuality: string,
                            sizes: string): (r: map<string, string>)
    ensures "sizes" in r && r["sizes"] == sizes
    ensures "type" in r <==> format != ""
    ensures "type" in r ==> r["type"] == "image/" + format
    ensures "srcset" in r <==> lazyLoadType != Regular
    ensures "data-srcset" in r <==> lazyLoadType != NotLazy
    ensures "srcset" in r ==> r["srcset"] == if lazyLoadType == Progressive then srcsetLowQuality else srcset
    ensures "data-srcset" in r ==> r["data-srcset"] == srcset
    ensures r.Keys <= {"type", "srcset", "data-srcset", "sizes"}
  {
    var typed: map<string, string> := if format != "" then map["type" := "image/" + format] else map[];
    var sets := match lazyLoadType
      case Regular => typed["data-srcset" := srcset]
      case Progressive => typed["srcset" := srcsetLowQuality]["data-srcset" := srcset]
      case NotLazy => typed["srcset" := srcset];
    sets["sizes" := sizes]
  }

  /** The `source` element for a run of the loop, or the exception of a null `SrcSetSizes`. */
  function SourceElement(path: string, run: SrcSetRun, imageType: ImageType, lazyLoadType: LazyLoadType, format: string)
    : Result<Element, Error>
  {
    if imageType.srcSetSizes.None? then Err(ArgumentNull)
    else Ok(Element("source", SourceAttributes(format, lazyLoadType,
                                               Join(", ", CandidateTexts(path, run.candidates)),
                                               Join(", ", LowQualityTexts(path, run.lowQuality)),
                                               Join(", ", imageType.srcSetSizes.value))))
  }

  lemma TerminatedAppend(parts: seq<string>, last: string)
    ensures Terminated(parts + [last]) == Terminated(parts) + last + ", "
    decreases |parts|
  {
    if parts != [] {
      assert (parts + [last])[1..] == parts[1..] + [last];
      TerminatedAppend(parts[1..], last);
    } else {
      assert [last][1..] == [];
    }
  }

  lemma TextsAppend(path: string, cs: seq<Candidate>, c: Candidate)
    ensures CandidateTexts(path, cs + [c]) == CandidateTexts(path, cs) + [CandidateText(path, c)]
  {
  }

  lemma LowQualityTextsAppend(path: string, cs: seq<Candidate>, c: Candidate)
    ensures LowQualityTexts(path, cs + [c]) == LowQualityTexts(path, cs) + [LowQualityText(path, c)]
  {
  }

  /** Every entry ends in `w`, so trimming commas and spaces off the terminated list leaves the list joined by `", "`. */
  lemma TrimmedTexts(path: string, cs: seq<Candidate>)
    ensures TrimEnd(Terminated(CandidateTexts(path, cs)), {',', ' '}) == Join(", ", CandidateTexts(path, cs))
  {
    var texts := CandidateTexts(path, cs);
    forall i | 0 <= i < |cs|
      ensures |texts[i]| > 0 && texts[i][|texts[i]| - 1] == 'w'
    {
      EndsInW(Render(path, cs[i].query) + " " + IntToString(cs[i].width));
    }
    TrimTerminated(texts);
  }

  /** The same for the quality-1 entries. */
  lemma TrimmedLowQualityTexts(path: string, cs: seq<Candidate>)
    ensures TrimEnd(Terminated(LowQualityTexts(path, cs)), {',', ' '}) == Join(", ", LowQualityTexts(path, cs))
  {
    var texts := LowQualityTexts(path, cs);
    forall i | 0 <= i < |cs|
      ensures |texts[i]| > 0 && texts[i][|texts[i]| - 1] == 'w'
    {
      EndsInW(Render(path, cs[i].query) + Render(path, cs[i].query) + " " + IntToString(cs[i].width));
    }
    TrimTerminated(texts);
  }

  lemma EndsInW(s: string)
    ensures |s + "w"| > 0 && (s + "w")[|s + "w"| - 1] == 'w'
  {
  }

  /** One unfolding of `RunSrcSet` at position `i` of the widths. */
  lemma RunStep(q: seq<Pair>, imageType: ImageType, widths: seq<int>, i: nat, format: string, lazyLoadType: LazyLoadType,
                showDebugInfo: bool)
    requires i < |widths|
    ensures
      var q1 := Merge(q, QueryCollection(imageType, Some(widths[i]), format, None, showDebugInfo));
      var q2 := if lazyLoadType == Progressive
        then Merge(q1, QueryCollection(imageType, Some(widths[i]), format, Some(1), showDebugInfo))
        else q1;
      var rest := RunSrcSet(q2, imageType, widths[i + 1..], format, lazyLoadType, showDebugInfo);
      RunSrcSet(q, imageType, widths[i..], format, lazyLoadType, showDebugInfo)
      == SrcSetRun([Candidate(q1, widths[i])] + rest.candidates,
                   (if lazyLoadType == Progressive then [Candidate(q2, widths[i])] else []) + rest.lowQuality,
                   rest.query)
  {
    assert widths[i..][0] == widths[i] && widths[i..][1..] == widths[i + 1..];
  }

  /**
   * The body of the loop for width `i`: the candidate, then (under
   * Progressive) the quality-1 candidate, each the first of what the rest of
   * the loop produces.
   */
  method BuildCandidates(imageUrl: UrlBuilder, imageType: ImageType, widths: seq<int>, i: nat, lazyLoadType: LazyLoadType,
                         format: string, showDebugInfo: bool) returns (entry: string, entryLowQuality: string)
    requires i < |widths|
    modifies imageUrl
    ensures imageUrl.path == old(imageUrl.path)
    ensures
      var rest := RunSrcSet(old(imageUrl.query), imageType, widths[i..], format, lazyLoadType, showDebugInfo);
      var next := RunSrcSet(imageUrl.query, imageType, widths[i + 1..], format, lazyLoadType, showDebugInfo);
      && rest.candidates == [rest.candidates[0]] + next.candidates
      && entry == CandidateText(imageUrl.path, rest.candidates[0])
      && rest.query == next.query
      && (lazyLoadType != Progressive ==> rest.lowQuality == next.lowQuality)
      && (lazyLoadType == Progressive ==>
            rest.lowQuality == [rest.lowQuality[0]] + next.lowQuality
            && entryLowQuality == LowQualityText(imageUrl.path, rest.lowQuality[0]))
  {
    RunStep(imageUrl.query, imageType, widths, i, format, lazyLoadType, showDebugInfo);
    var width := widths[i];
    var url := BuildQueryString(imageUrl, imageType, Some(width), format, None, showDebugInfo);
    entry := url + " " + IntToString(width) + "w";
    entryLowQuality := "";
    if lazyLoadType == Progressive {
      var urlLowQuality := BuildQueryString(imageUrl, imageType, Some(width), format, Some(1), showDebugInfo);
      entryLowQuality := imageUrl.ToString() + urlLowQuality + " " + IntToString(width) + "w";
    }
  }

  /**
   * How far the loop has come after `i` widths: the texts written so far are
   * those of the first candidates of the whole run, and the run from the
   * builder's current query `q` supplies the others.
   */
  ghost predicate Progress(q0: seq<Pair>, q: seq<Pair>, imageType: ImageType, widths: seq<int>, i: nat,
                           lazyLoadType: LazyLoadType, format: string, showDebugInfo: bool, path: string,
                           srcset: string, srcsetLowQuality: string, done: seq<Candidate>, doneLowQuality: seq<Candidate>)
  {
    && i <= |widths|
    && RunProgress(RunSrcSet(q0, imageType, widths, format, lazyLoadType, showDebugInfo),
                   RunSrcSet(q, imageType, widths[i..], format, lazyLoadType, showDebugInfo),
                   path, srcset, srcsetLowQuality, done, doneLowQuality)
  }

  /** The whole run is the candidates built so far followed by the remaining run, whose texts are still to come. */
  ghost predicate RunProgress(run: SrcSetRun, rest: SrcSetRun, path: string, srcset: string, srcsetLowQuality: string,
                              done: seq<Candidate>, doneLowQuality: seq<Candidate>)
  {
    && run.candidates == done + rest.candidates
    && run.lowQuality == doneLowQuality + rest.lowQuality
    && run.query == rest.query
    && srcset == Terminated(CandidateTexts(path, done))
    && srcsetLowQuality == Terminated(LowQualityTexts(path, doneLowQuality))
  }

  /** One turn of the loop of `BuildSourceElement`. */
  method SrcSetStep(imageUrl: UrlBuilder, ghost q0: seq<Pair>, imageType: ImageType, widths: seq<int>, i: nat,
                    lazyLoadType: LazyLoadType, format: string, showDebugInfo: bool, srcset: string, srcsetLowQuality: string,
                    ghost done: seq<Candidate>, ghost doneLowQuality: seq<Candidate>)
    returns (srcset': string, srcsetLowQuality': string, ghost done': seq<Candidate>, ghost doneLowQuality': seq<Candidate>)
    requires i < |widths|
    requires Progress(q0, imageUrl.query, imageType, widths, i, lazyLoadType, format, showDebugInfo, imageUrl.path,
                      srcset, srcsetLowQuality, done, doneLowQuality)
    modifies imageUrl
    ensures imageUrl.path == old(imageUrl.path)
    ensures Progress(q0, imageUrl.query, imageType, widths, i + 1, lazyLoadType, format, showDebugInfo, imageUrl.path,
                     srcset', srcsetLowQuality', done', doneLowQuality')
  {
    ghost var q1 := imageUrl.query;
    var entry, entryLowQuality := BuildCandidates(imageUrl, imageType, widths, i, lazyLoadType, format, showDebugInfo);
    srcset' := srcset + entry + ", ";
    srcsetLowQuality' := if lazyLoadType == Progressive then srcsetLowQuality + entryLowQuality + ", " else srcsetLowQuality;
    done', doneLowQuality' := ProgressAdvance(q0, q1, imageUrl.query, imageType, widths, i, lazyLoadType, format, showDebugInfo,
                                              imageUrl.path, srcset, srcsetLowQuality, done, doneLowQuality, entry, entryLowQuality);
  }

  /** The candidates of one width, appended to those already built, keep the loop's progress. */
  lemma ProgressAdvance(q0: seq<Pair>, q1: seq<Pair>, q2: seq<Pair>, imageType: ImageType, widths: seq<int>, i: nat,
                        lazyLoadType: LazyLoadType, format: string, showDebugInfo: bool, path: string,
                        srcset: string, srcsetLowQuality: string, done: seq<Candidate>, doneLowQuality: seq<Candidate>,
                        entry: string, entryLowQuality: string)
    returns (done': seq<Candidate>, doneLowQuality': seq<Candidate>)
    requires i < |widths|
    requires Progress(q0, q1, imageType, widths, i, lazyLoadType, format, showDebugInfo, path,
                      srcset, srcsetLowQuality, done, doneLowQuality)
    requires
      var rest := RunSrcSet(q1, imageType, widths[i..], format, lazyLoadType, showDebugInfo);
      var next := RunSrcSet(q2, imageType, widths[i + 1..], format, lazyLoadType, showDebugInfo);
      && rest.candidates == [rest.candidates[0]] + next.candidates
      && entry == CandidateText(path, rest.candidates[0])
      && rest.query == next.query
      && (lazyLoadType != Progressive ==> rest.lowQuality == next.lowQuality)
      && (lazyLoadType == Progressive ==>
            rest.lowQuality == [rest.lowQuality[0]] + next.lowQuality
            && entryLowQuality == LowQualityText(path, rest.lowQuality[0]))
    ensures Progress(q0, q2, imageType, widths, i + 1, lazyLoadType, format, showDebugInfo, path, srcset + entry + ", ",
                     if lazyLoadType == Progressive then srcsetLowQuality + entryLowQuality + ", " else srcsetLowQuality,
                     done', doneLowQuality')
  {
    var run := RunSrcSet(q0, imageType, widths, format, lazyLoadType, showDebugInfo);
    var rest := RunSrcSet(q1, imageType, widths[i..], format, lazyLoadType, showDebugInfo);
    var next := RunSrcSet(q2, imageType, widths[i + 1..], format, lazyLoadType, showDebugInfo);
    done', doneLowQuality' := RunAdvance(run, rest, next, lazyLoadType == Progressive, path, srcset, srcsetLowQuality,
                                         done, doneLowQuality, entry, entryLowQuality);
  }

  /** `ProgressAdvance` on the runs themselves. */
  lemma RunAdvance(run: SrcSetRun, rest: SrcSetRun, next: SrcSetRun, progressive: bool, path: string,
                   srcset: string, srcsetLowQuality: string, done: seq<Candidate>, doneLowQuality: seq<Candidate>,
                   entry: string, entryLowQuality: string)
    returns (done': seq<Candidate>, doneLowQuality': seq<Candidate>)
    requires RunProgress(run, rest, path, srcset, srcsetLowQuality, done, doneLowQuality)
    requires rest.candidates != [] && rest.candidates == [rest.candidates[0]] + next.candidates
    requires entry == CandidateText(path, rest.candidates[0])
    requires rest.query == next.query
    requires !progressive ==> rest.lowQuality == next.lowQuality
    requires progressive ==>
      rest.lowQuality != [] && rest.lowQuality == [rest.lowQuality[0]] + next.lowQuality
      && entryLowQuality == LowQualityText(path, rest.lowQuality[0])
    ensures RunProgress(run, next, path, srcset + entry + ", ",
                        if progressive then srcsetLowQuality + entryLowQuality + ", " else srcsetLowQuality,
                        done', doneLowQuality')
  {
    CandidatesAdvance(path, done, rest.candidates, next.candidates, entry);
    done' := done + [rest.candidates[0]];
    doneLowQuality' := doneLowQuality;
    if progressive {
      LowQualityAdvance(path, doneLowQuality, rest.lowQuality, next.lowQuality, entryLowQuality);
      doneLowQuality' := doneLowQuality + [rest.lowQuality[0]];
    }
  }

  /** Moving the first remaining candidate to those built appends its text to the `srcset`. */
  lemma CandidatesAdvance(path: string, done: seq<Candidate>, rest: seq<Candidate>, next: seq<Candidate>, entry: string)
    requires rest != [] && rest == [rest[0]] + next && entry == CandidateText(path, rest[0])
    ensures done + rest == (done + [rest[0]]) + next
    ensures Terminated(CandidateTexts(path, done)) + entry + ", " == Terminated(CandidateTexts(path, done + [rest[0]]))
  {
    Sequences.Associative(done, [rest[0]], next);
    TerminatedAppend(CandidateTexts(path, done), entry);
    TextsAppend(path, done, rest[0]);
  }

  /** The same for the quality-1 entries. */
  lemma LowQualityAdvance(path: string, done: seq<Candidate>, rest: seq<Candidate>, next: seq<Candidate>, entry: string)
    requires rest != [] && rest == [rest[0]] + next && entry == LowQualityText(path, rest[0])
    ensures done + rest == (done + [rest[0]]) + next
    ensures Terminated(LowQualityTexts(path, done)) + entry + ", " == Terminated(LowQualityTexts(path, done + [rest[0]]))
  {
    Sequences.Associative(done, [rest[0]], next);
    TerminatedAppend(LowQualityTexts(path, done), entry);
    LowQualityTextsAppend(path, done, rest[0]);
  }

  /** Before the loop nothing is built and the whole run remains. */
  lemma ProgressStart(q0: seq<Pair>, imageType: ImageType, widths: seq<int>, lazyLoadType: LazyLoadType, format: string,
                      showDebugInfo: bool, path: string)
    ensures Progress(q0, q0, imageType, widths, 0, lazyLoadType, format, showDebugInfo, path, "", "", [], [])
  {
    var run := RunSrcSet(q0, imageType, widths, format, lazyLoadType, showDebugInfo);
    assert widths[0..] == widths;
    assert [] + run.candidates == run.candidates && [] + run.lowQuality == run.lowQuality;
    assert RunProgress(run, run, path, "", "", [], []);
  }

  /** After the loop the candidates built are the whole run's. */
  lemma ProgressEnd(q0: seq<Pair>, q: seq<Pair>, imageType: ImageType, widths: seq<int>, lazyLoadType: LazyLoadType,
                    format: string, showDebugInfo: bool, path: string, srcset: string, srcsetLowQuality: string,
                    done: seq<Candidate>, doneLowQuality: seq<Candidate>)
    requires Progress(q0, q, imageType, widths, |widths|, lazyLoadType, format, showDebugInfo, path,
                      srcset, srcsetLowQuality, done, doneLowQuality)
    ensures var run := RunSrcSet(q0, imageType, widths, format, lazyLoadType, showDebugInfo);
      run.candidates == done && run.lowQuality == doneLowQuality && run.query == q
      && srcset == Terminated(CandidateTexts(path, done))
      && srcsetLowQuality == Terminated(LowQualityTexts(path, doneLowQuality))
  {
    assert widths[|widths|..] == [];
  }

  /** The loop of `BuildSourceElement` and the trimming after it. */
  method BuildSrcSets(imageUrl: UrlBuilder, imageType: ImageType, widths: seq<int>, lazyLoadType: LazyLoadType, format: string,
                      showDebugInfo: bool) returns (srcset: string, srcsetLowQuality: string)
    modifies imageUrl
    ensures imageUrl.path == old(imageUrl.path)
    ensures imageUrl.query == RunSrcSet(old(imageUrl.query), imageType, widths, format, lazyLoadType, showDebugInfo).query
    ensures srcset
      == Join(", ", CandidateTexts(imageUrl.path, RunSrcSet(old(imageUrl.query), imageType, widths, format, lazyLoadType, showDebugInfo).candidates))
    ensures srcsetLowQuality
      == Join(", ", LowQualityTexts(imageUrl.path, RunSrcSet(old(imageUrl.query), imageType, widths, format, lazyLoadType, showDebugInfo).lowQuality))
  {
    ghost var path := imageUrl.path;
    ghost var q0 := imageUrl.query;
    ghost var done: seq<Candidate> := [];
    ghost var doneLowQuality: seq<Candidate> := [];
    srcset := "";
    srcsetLowQuality := "";
    ProgressStart(q0, imageType, widths, lazyLoadType, format, showDebugInfo, path);
    var i := 0;
    while i < |widths|
      invariant i <= |widths|
      invariant imageUrl.path == path
      invariant Progress(q0, imageUrl.query, imageType, widths, i, lazyLoadType, format, showDebugInfo, path,
                         srcset, srcsetLowQuality, done, doneLowQuality)
    {
      srcset, srcsetLowQuality, done, doneLowQuality :=
        SrcSetStep(imageUrl, q0, imageType, widths, i, lazyLoadType, format, showDebugInfo, srcset, srcsetLowQuality,
                   done, doneLowQuality);
      i := i + 1;
    }
    ProgressEnd(q0, imageUrl.query, imageType, widths, lazyLoadType, format, showDebugInfo, path,
                srcset, srcsetLowQuality, done, doneLowQuality);
    TrimmedTexts(path, done);
    TrimmedLowQualityTexts(path, doneLowQuality);
    srcset := TrimEnd(srcset, {',', ' '});
    srcsetLowQuality := TrimEnd(srcsetLowQuality, {',', ' '});
  }

  /** `BuildSourceElement`; it is only called with `SrcSetWidths` set. */
  method BuildSourceElement(imageUrl: UrlBuilder, imageType: ImageType, lazyLoadType: LazyLoadType, format: string,
                            showDebugInfo: bool) returns (r: Result<Element, Error>)
    requires imageType.srcSetWidths.Some?
    modifies imageUrl
    ensures imageUrl.path == old(imageUrl.path)
    ensures imageUrl.query
      == RunSrcSet(old(imageUrl.query), imageType, imageType.srcSetWidths.value, format, lazyLoadType, showDebugInfo).query
    ensures r == SourceElement(imageUrl.path,
                               RunSrcSet(old(imageUrl.query), imageType, imageType.srcSetWidths.value, format, lazyLoadType, showDebugInfo),
                               imageType, lazyLoadType, format)
  {
    var srcset, srcsetLowQuality := BuildSrcSets(imageUrl, imageType, imageType.srcSetWidths.value, lazyLoadType, format, showDebugInfo);
    if imageType.srcSetSizes.None? {
      return Err(ArgumentNull);
    }
    var attributes: map<string, string> := map[];
    if format != "" {
      attributes := attributes["type" := "image/" + format];
    }
    match lazyLoadType {
      case Regular =>
        attributes := attributes["data-srcset" := srcset];
      case Progressive =>
        attributes := attributes["srcset" := srcsetLowQuality];
        attributes := attributes["data-srcset" := srcset];
      case NotLazy =>
        attributes := attributes["srcset" := srcset];
    }
    attributes := attributes["sizes" := Join(", ", imageType.srcSetSizes.value)];
    r := Ok(Element("source", attributes));
  }

  // ---------------------------------------------------------------------------------------------
  // The picture element

  /** The `source` elements and the builder's query after them. */
  datatype Sources = Sources(elements: Result<seq<Element>, Error>, query: seq<Pair>)

  /**
   * The sources `Picture` writes on a builder with path `path` and query `q`:
   * none without `SrcSetWidths`; otherwise a webp source when the path ends in
   * `.jpg`, then the default source, each from the builder as the previous
   * one left it.  A null `SrcSetSizes` throws in the first source built.
   */
  function BuildSources(path: string, q: seq<Pair>, imageType: ImageType, lazyLoadType: LazyLoadType, showDebugInfo: bool)
    : Sources
  {
    if imageType.srcSetWidths.None? then Sources(Ok([]), q)
    else
      var widths := imageType.srcSetWidths.value;
      var webp := EndsWith(path, ".jpg");
      var webpRun := RunSrcSet(q, imageType, widths, "webp", lazyLoadType, showDebugInfo);
      var run := RunSrcSet(if webp then webpRun.query else q, imageType, widths, "", lazyLoadType, showDebugInfo);
      var webpSource := SourceElement(path, webpRun, imageType, lazyLoadType, "webp");
      var source := SourceElement(path, run, imageType, lazyLoadType, "");
      if webp && webpSource.Err? then Sources(Err(webpSource.error), webpRun.query)
      else if source.Err? then Sources(Err(source.error), run.query)
      else Sources(Ok((if webp then [webpSource.value] else []) + [source.value]), run.query)
  }

  /** The part of `Picture` that writes the sources into `imageUrl`. */
  method BuildSourceElements(imageUrl: UrlBuilder, imageType: ImageType, lazyLoadType: LazyLoadType, showDebugInfo: bool)
    returns (r: Result<seq<Element>, Error>)
    modifies imageUrl
    ensures imageUrl.path == old(imageUrl.path)
    ensures r == BuildSources(imageUrl.path, old(imageUrl.query), imageType, lazyLoadType, showDebugInfo).elements
    ensures imageUrl.query == BuildSources(imageUrl.path, old(imageUrl.query), imageType, lazyLoadType, showDebugInfo).query
  {
    r := Ok([]);
    if imageType.srcSetWidths.Some? {
      var children: seq<Element> := [];
      if EndsWith(imageUrl.path, ".jpg") {
        var webp := BuildSourceElement(imageUrl, imageType, lazyLoadType, "webp", showDebugInfo);
        if webp.Err? {
          return Err(webp.error);
        }
        children := [webp.value];
      }
      var source := BuildSourceElement(imageUrl, imageType, lazyLoadType, "", showDebugInfo);
      if source.Err? {
        return Err(source.error);
      }
      r := Ok(children + [source.value]);
    }
  }

  /** What `Picture` returns for a non-null builder: the sources, then the `img` element. */
  function PictureMarkup(path: string, q: seq<Pair>, imageType: ImageType, lazyLoadType: LazyLoadType,
                         cssClass: Option<string>, showDebugInfo: bool): Result<Markup, Error>
  {
    var sources := BuildSources(path, q, imageType, lazyLoadType, showDebugInfo);
    match sources.elements
    case Err(e) => Err(e)
    case Ok(elements) => Ok(PictureElement(elements + [ImgElement(path, sources.query, imageType, lazyLoadType, cssClass, showDebugInfo)]))
  }

  /** The query `Picture` leaves in the builder it was given. */
  function PictureQuery(path: string, q: seq<Pair>, imageType: ImageType, lazyLoadType: LazyLoadType, showDebugInfo: bool)
    : seq<Pair>
  {
    var sources := BuildSources(path, q, imageType, lazyLoadType, showDebugInfo);
    if sources.elements.Err? then sources.query else QueryAfterImg(sources.query, imageType, lazyLoadType, showDebugInfo)
  }

  /**
   * `Picture` over a builder.  A null builder gives the empty markup; otherwise
   * the builder itself is rewritten by every URL the helper writes.  The
   * `ImageProcessorDebug` app setting is `debugSetting`.
   */
  method Picture(imageUrl: UrlBuilder?, imageType: ImageType, cssClass: Option<string>, lazyLoadType: LazyLoadType,
                 debugSetting: Option<string>) returns (r: Result<Markup, Error>)
    modifies imageUrl
    ensures imageUrl == null ==> r == Ok(NoMarkup)
    ensures imageUrl != null ==>
      && imageUrl.path == old(imageUrl.path)
      && r == PictureMarkup(imageUrl.path, old(imageUrl.query), imageType, lazyLoadType, cssClass, Utils.ShowDebugInfo(debugSetting))
      && imageUrl.query == PictureQuery(imageUrl.path, old(imageUrl.query), imageType, lazyLoadType, Utils.ShowDebugInfo(debugSetting))
  {
    if imageUrl == null {
      return Ok(NoMarkup);
    }
    var showDebugInfo := Utils.ShowDebugInfo(debugSetting);
    var sources := BuildSourceElements(imageUrl, imageType, lazyLoadType, showDebugInfo);
    if sources.Err? {
      return Err(sources.error);
    }
    var img := BuildImgElement(imageUrl, imageType, lazyLoadType, cssClass, showDebugInfo);
    r := Ok(PictureElement(sources.value + [img]));
  }

  /** `Picture` over a URL string: null gives the empty markup, anything else a new builder for it. */
  method PictureOfUrl(imageUrl: Option<string>, imageType: ImageType, cssClass: Option<string>, lazyLoadType: LazyLoadType,
                      debugSetting: Option<string>) returns (r: Result<Markup, Error>)
    ensures imageUrl.None? ==> r == Ok(NoMarkup)
    ensures imageUrl.Some? ==>
      r == PictureMarkup(PathPart(imageUrl.value), QueryPart(imageUrl.value), imageType, lazyLoadType, cssClass,
                         Utils.ShowDebugInfo(debugSetting))
  {
    if imageUrl.None? {
      return Ok(NoMarkup);
    }
    var urlBuilder := new UrlBuilder(imageUrl.value);
    r := Picture(urlBuilder, imageType, cssClass, lazyLoadType, debugSetting);
  }

  // ---------------------------------------------------------------------------------------------
  // Properties

  /** The `format` a URL asks for once `format` is merged into a builder with query `q`. */
  function FormatAfter(q: seq<Pair>, format: string): seq<string>
  {
    if format != "" then [format] else Values(q, "format")
  }

  /**
   * After one merge the builder holds the width given, the override quality
   * (else the type's), and any non-empty format; an empty format leaves the
   * builder's `format` as it was.
   */
  lemma MergedQuery(q: seq<Pair>, imageType: ImageType, imageWidth: Option<int>, format: string,
                    overrideQuality: Option<int>, showDebugInfo: bool)
    ensures Values(Merge(q, QueryCollection(imageType, imageWidth, format, overrideQuality, showDebugInfo)), "format")
      == FormatAfter(q, format)
    ensures Values(Merge(q, QueryCollection(imageType, imageWidth, format, overrideQuality, showDebugInfo)), "quality")
      == [IntToString(overrideQuality.GetOr(imageType.quality))]
    ensures Values(Merge(q, QueryCollection(imageType, imageWidth, format, overrideQuality, showDebugInfo)), "width")
      == [NullableToString(imageWidth)]
  {
    var info := if showDebugInfo then BuildInfoCollection(imageType, imageWidth, format) else [];
    if showDebugInfo {
      var height := Utils.DebugHeight(imageType.heightRatio, imageWidth);
      var fontsize := if imageWidth.Some? && imageWidth.value > 800 then 35 else 17;
      var watermark := Utils.WatermarkText(format, imageWidth, height);
      var position := Join(",", [NullableToString(Utils.TextX(imageWidth)), IntToString(HalfTowardZero(height))]);
      Utils.InfoHasNoQueryKeys(watermark, IntToString(fontsize), position, "format");
      Utils.InfoHasNoQueryKeys(watermark, IntToString(fontsize), position, "quality");
      Utils.InfoHasNoQueryKeys(watermark, IntToString(fontsize), position, "width");
    }
    var onFormat := format != "";
    var quality := IntToString(overrideQuality.GetOr(imageType.quality));
    var onRatio := imageType.heightRatio.value > 0.0;
    var ratio := imageType.heightRatio.text;
    var width := NullableToString(imageWidth);
    var qc := QueryCollection(imageType, imageWidth, format, overrideQuality, showDebugInfo);
    Utils.LayoutFormat(onFormat, format, true, quality, width, onRatio, ratio, info);
    Utils.LayoutQuality(onFormat, format, true, quality, width, onRatio, ratio, info);
    Utils.LayoutWidth(onFormat, format, true, quality, width, onRatio, ratio, info);
    MergeByValues(q, qc, "format");
    MergeByValues(q, qc, "quality");
    MergeByValues(q, qc, "width");
  }

  /** What the two queries of one width ask for. */
  lemma StepValues(q: seq<Pair>, imageType: ImageType, w: int, format: string, lazyLoadType: LazyLoadType,
                   showDebugInfo: bool)
    ensures var q1 := FirstQuery(q, imageType, w, format, showDebugInfo);
      && Values(q1, "format") == FormatAfter(q, format)
      && Values(q1, "quality") == [IntToString(imageType.quality)]
      && Values(q1, "width") == [IntToString(w)]
    ensures var q2 := NextQuery(q, imageType, w, format, lazyLoadType, showDebugInfo);
      && Values(q2, "format") == FormatAfter(q, format)
      && (lazyLoadType == Progressive ==> Values(q2, "quality") == ["1"] && Values(q2, "width") == [IntToString(w)])
  {
    var q1 := FirstQuery(q, imageType, w, format, showDebugInfo);
    MergedQuery(q, imageType, Some(w), format, None, showDebugInfo);
    MergedQuery(q1, imageType, Some(w), format, Some(1), showDebugInfo);
    assert IntToString(1) == "1";
  }

  /**
   * The `format` of every URL of a `srcset`: the format of the source when it
   * has one, else whatever the builder held before the loop; the builder is
   * left asking for the same.
   */
  lemma {:induction false} RunFormat(q: seq<Pair>, imageType: ImageType, widths: seq<int>, format: string,
                                     lazyLoadType: LazyLoadType, showDebugInfo: bool)
    ensures var run := RunSrcSet(q, imageType, widths, format, lazyLoadType, showDebugInfo);
      && AllAskFor(run.candidates, FormatAfter(q, format))
      && AllAskFor(run.lowQuality, FormatAfter(q, format))
      && Values(run.query, "format") == if widths == [] then Values(q, "format") else FormatAfter(q, format)
    decreases |widths|
  {
    if widths != [] {
      var q1 := FirstQuery(q, imageType, widths[0], format, showDebugInfo);
      var q2 := NextQuery(q, imageType, widths[0], format, lazyLoadType, showDebugInfo);
      var low := if lazyLoadType == Progressive then [Candidate(q2, widths[0])] else [];
      var rest := RunSrcSet(q2, imageType, widths[1..], format, lazyLoadType, showDebugInfo);
      RunUnfold(q, imageType, widths, format, lazyLoadType, showDebugInfo);
      StepValues(q, imageType, widths[0], format, lazyLoadType, showDebugInfo);
      assert FormatAfter(q2, format) == FormatAfter(q, format);
      RunFormat(q2, imageType, widths[1..], format, lazyLoadType, showDebugInfo);
      if widths[1..] == [] {
        assert rest.query == q2;
      }
      PrependAskFor(RunSrcSet(q, imageType, widths, format, lazyLoadType, showDebugInfo), rest,
                    Candidate(q1, widths[0]), low, FormatAfter(q, format));
    }
  }

  /** The first unfolding of `RunSrcSet`. */
  lemma RunUnfold(q: seq<Pair>, imageType: ImageType, widths: seq<int>, format: string, lazyLoadType: LazyLoadType,
                  showDebugInfo: bool)
    requires widths != []
    ensures var q2 := NextQuery(q, imageType, widths[0], format, lazyLoadType, showDebugInfo);
      var rest := RunSrcSet(q2, imageType, widths[1..], format, lazyLoadType, showDebugInfo);
      RunSrcSet(q, imageType, widths, format, lazyLoadType, showDebugInfo)
      == SrcSetRun([Candidate(FirstQuery(q, imageType, widths[0], format, showDebugInfo), widths[0])] + rest.candidates,
                   (if lazyLoadType == Progressive then [Candidate(q2, widths[0])] else []) + rest.lowQuality,
                   rest.query)
  {
  }

  /** A run that starts with candidates asking for `f`, followed by a run whose candidates all do, has only such candidates. */
  lemma PrependAskFor(run: SrcSetRun, rest: SrcSetRun, first: Candidate, low: seq<Candidate>, f: seq<string>)
    requires run == SrcSetRun([first] + rest.candidates, low + rest.lowQuality, rest.query)
    requires Values(first.query, "format") == f && AllAskFor(low, f)
    requires AllAskFor(rest.candidates, f) && AllAskFor(rest.lowQuality, f)
    ensures AllAskFor(run.candidates, f) && AllAskFor(run.lowQuality, f)
  {
    assert AllAskFor([first], f);
    AllAskForAppend([first], rest.candidates, f);
    AllAskForAppend(low, rest.lowQuality, f);
  }

  /** Every candidate's query asks for the format `f`. */
  ghost predicate AllAskFor(cs: seq<Candidate>, f: seq<string>)
  {
    forall k :: 0 <= k < |cs| ==> Values(cs[k].query, "format") == f
  }

  lemma AllAskForAppend(a: seq<Candidate>, b: seq<Candidate>, f: seq<string>)
    requires AllAskFor(a, f) && AllAskFor(b, f)
    ensures AllAskFor(a + b, f)
  {
    forall k | 0 <= k < |a + b|
      ensures Values((a + b)[k].query, "format") == f
    {
      if k >= |a| {
        assert (a + b)[k] == b[k - |a|];
      }
    }
  }

  /**
   * Every URL of a `srcset` asks for its own width, in `SrcSetWidths` order,
   * at the type's quality; the quality-1 URLs ask for quality 1.
   */
  lemma {:induction false} RunQualityAndWidth(q: seq<Pair>, imageType: ImageType, widths: seq<int>, format: string,
                                              lazyLoadType: LazyLoadType, showDebugInfo: bool)
    ensures var run := RunSrcSet(q, imageType, widths, format, lazyLoadType, showDebugInfo);
      && (forall k :: 0 <= k < |run.candidates| ==>
            Values(run.candidates[k].query, "width") == [IntToString(widths[k])]
            && Values(run.candidates[k].query, "quality") == [IntToString(imageType.quality)])
      && (forall k :: 0 <= k < |run.lowQuality| ==>
            Values(run.lowQuality[k].query, "width") == [IntToString(widths[k])]
            && Values(run.lowQuality[k].query, "quality") == ["1"])
    decreases |widths|
  {
    if widths != [] {
      var run := RunSrcSet(q, imageType, widths, format, lazyLoadType, showDebugInfo);
      var q2 := NextQuery(q, imageType, widths[0], format, lazyLoadType, showDebugInfo);
      var rest := RunSrcSet(q2, imageType, widths[1..], format, lazyLoadType, showDebugInfo);
      StepValues(q, imageType, widths[0], format, lazyLoadType, showDebugInfo);
      RunQualityAndWidth(q2, imageType, widths[1..], format, lazyLoadType, showDebugInfo);
      RunHead(q, imageType, widths, format, lazyLoadType, showDebugInfo);
      forall k | 0 <= k < |run.candidates|
        ensures Values(run.candidates[k].query, "width") == [IntToString(widths[k])]
        ensures Values(run.candidates[k].query, "quality") == [IntToString(imageType.quality)]
      {
        if k > 0 {
          assert run.candidates[k] == rest.candidates[k - 1] && widths[k] == widths[1..][k - 1];
        }
      }
      forall k | 0 <= k < |run.lowQuality|
        ensures Values(run.lowQuality[k].query, "width") == [IntToString(widths[k])]
        ensures Values(run.lowQuality[k].query, "quality") == ["1"]
      {
        if k > 0 {
          assert run.lowQuality[k] == rest.lowQuality[k - 1] && widths[k] == widths[1..][k - 1];
        } else {
          assert lazyLoadType == Progressive;
        }
      }
    }
  }

  /** Any `source` element, whatever the run it was written from. */
  lemma SourceElementShape(path: string, run: SrcSetRun, imageType: ImageType, lazyLoadType: LazyLoadType, format: string)
    ensures SourceElement(path, run, imageType, lazyLoadType, format).Ok? <==> imageType.srcSetSizes.Some?
    ensures SourceElement(path, run, imageType, lazyLoadType, format).Ok? ==>
      var e := SourceElement(path, run, imageType, lazyLoadType, format).value;
      && e.tag == "source"
      && ("type" in e.attributes <==> format != "")
      && ("type" in e.attributes ==> e.attributes["type"] == "image/" + format)
  {
  }

  /**
   * Without `SrcSetWidths` there is no source; otherwise one source, after a
   * `webp` one when the path ends in `.jpg`.  Only widths without sizes throw.
   */
  lemma SourcesShape(path: string, q: seq<Pair>, imageType: ImageType, lazyLoadType: LazyLoadType, showDebugInfo: bool)
    ensures BuildSources(path, q, imageType, lazyLoadType, showDebugInfo).elements.Err?
      <==> imageType.srcSetWidths.Some? && imageType.srcSetSizes.None?
    ensures BuildSources(path, q, imageType, lazyLoadType, showDebugInfo).elements.Ok? ==>
      var sources := BuildSources(path, q, imageType, lazyLoadType, showDebugInfo).elements.value;
      && |sources| == (if imageType.srcSetWidths.None? then 0 else if EndsWith(path, ".jpg") then 2 else 1)
      && (forall k :: 0 <= k < |sources| ==> sources[k].tag == "source")
      && (|sources| > 0 ==> ("type" in sources[0].attributes <==> EndsWith(path, ".jpg")))
      && (|sources| == 2 ==> sources[0].attributes["type"] == "image/webp" && "type" !in sources[1].attributes)
  {
    if imageType.srcSetWidths.Some? {
      var widths := imageType.srcSetWidths.value;
      var webpRun := RunSrcSet(q, imageType, widths, "webp", lazyLoadType, showDebugInfo);
      var run := RunSrcSet(if EndsWith(path, ".jpg") then webpRun.query else q, imageType, widths, "", lazyLoadType, showDebugInfo);
      var webpSource := SourceElement(path, webpRun, imageType, lazyLoadType, "webp");
      var source := SourceElement(path, run, imageType, lazyLoadType, "");
      SourceElementShape(path, webpRun, imageType, lazyLoadType, "webp");
      SourceElementShape(path, run, imageType, lazyLoadType, "");
      SourcesOfElements(BuildSources(path, q, imageType, lazyLoadType, showDebugInfo).elements, webpSource, source,
                        EndsWith(path, ".jpg"), imageType.srcSetSizes.None?);
    }
  }

  /** `SourcesShape` once the two `source` elements are known. */
  lemma SourcesOfElements(elements: Result<seq<Element>, Error>, webpSource: Result<Element, Error>,
                          source: Result<Element, Error>, webp: bool, sizesMissing: bool)
    requires webpSource.Ok? <==> !sizesMissing
    requires source.Ok? <==> !sizesMissing
    requires webpSource.Ok? ==> webpSource.value.tag == "source" && "type" in webpSource.value.attributes
                                && webpSource.value.attributes["type"] == "image/webp"
    requires source.Ok? ==> source.value.tag == "source" && "type" !in source.value.attributes
    requires elements == if webp && webpSource.Err? then Err(webpSource.error)
                         else if source.Err? then Err(source.error)
                         else Ok((if webp then [webpSource.value] else []) + [source.value])
    ensures elements.Err? <==> sizesMissing
    ensures elements.Ok? ==>
      && |elements.value| == (if webp then 2 else 1)
      && (forall k :: 0 <= k < |elements.value| ==> elements.value[k].tag == "source")
      && ("type" in elements.value[0].attributes <==> webp)
      && (|elements.value| == 2 ==> elements.value[0].attributes["type"] == "image/webp" && "type" !in elements.value[1].attributes)
  {
  }

  /**
   * A non-null builder gives a `picture` element whose last child is the
   * `img` element, after the sources; the helper throws exactly when there
   * are widths but no sizes.
   */
  lemma PictureShape(path: string, q: seq<Pair>, imageType: ImageType, lazyLoadType: LazyLoadType, cssClass: Option<string>,
                     showDebugInfo: bool)
    ensures PictureMarkup(path, q, imageType, lazyLoadType, cssClass, showDebugInfo).Err?
      <==> imageType.srcSetWidths.Some? && imageType.srcSetSizes.None?
    ensures PictureMarkup(path, q, imageType, lazyLoadType, cssClass, showDebugInfo).Ok? ==>
      var sources := BuildSources(path, q, imageType, lazyLoadType, showDebugInfo);
      var children := PictureMarkup(path, q, imageType, lazyLoadType, cssClass, showDebugInfo).value.children;
      && PictureMarkup(path, q, imageType, lazyLoadType, cssClass, showDebugInfo).value.PictureElement?
      && children[..|children| - 1] == sources.elements.value
      && children[|children| - 1] == ImgElement(path, sources.query, imageType, lazyLoadType, cssClass, showDebugInfo)
      && children[|children| - 1].tag == "img"
  {
    var sources := BuildSources(path, q, imageType, lazyLoadType, showDebugInfo);
    SourcesShape(path, q, imageType, lazyLoadType, showDebugInfo);
    if sources.elements.Ok? {
      var children := sources.elements.value + [ImgElement(path, sources.query, imageType, lazyLoadType, cssClass, showDebugInfo)];
      assert children[..|children| - 1] == sources.elements.value;
    }
  }

  /**
   * The webp source leaks into the rest: once a `.jpg` picture with widths
   * has built its webp source, every URL of the default source and the `img`
   * URL still ask for `format=webp`, since they are merged into the same
   * builder and an empty format merges nothing.
   */
  lemma WebpLeaks(path: string, q: seq<Pair>, imageType: ImageType, lazyLoadType: LazyLoadType, showDebugInfo: bool)
    requires EndsWith(path, ".jpg") && imageType.srcSetWidths.Some? && imageType.srcSetWidths.value != []
    ensures var webpRun := RunSrcSet(q, imageType, imageType.srcSetWidths.value, "webp", lazyLoadType, showDebugInfo);
      var run := RunSrcSet(webpRun.query, imageType, imageType.srcSetWidths.value, "", lazyLoadType, showDebugInfo);
      && BuildSources(path, q, imageType, lazyLoadType, showDebugInfo).query
         == (if imageType.srcSetSizes.None? then webpRun.query else run.query)
      && (forall k :: 0 <= k < |run.candidates| ==> Values(run.candidates[k].query, "format") == ["webp"])
      && Values(ImgQuery(run.query, imageType, showDebugInfo), "format") == ["webp"]
  {
    var widths := imageType.srcSetWidths.value;
    var webpRun := RunSrcSet(q, imageType, widths, "webp", lazyLoadType, showDebugInfo);
    var run := RunSrcSet(webpRun.query, imageType, widths, "", lazyLoadType, showDebugInfo);
    RunFormat(q, imageType, widths, "webp", lazyLoadType, showDebugInfo);
    assert Values(webpRun.query, "format") == ["webp"];
    RunFormat(webpRun.query, imageType, widths, "", lazyLoadType, showDebugInfo);
    assert FormatAfter(webpRun.query, "") == ["webp"];
    assert AllAskFor(run.candidates, ["webp"]);
    MergedQuery(run.query, imageType, imageType.defaultImgWidth, "", None, showDebugInfo);
    WebpSourcesQuery(path, q, imageType, lazyLoadType, showDebugInfo);
  }

  /** With a webp source the builder ends at the default run, or at the webp run when the sizes are missing. */
  lemma WebpSourcesQuery(path: string, q: seq<Pair>, imageType: ImageType, lazyLoadType: LazyLoadType, showDebugInfo: bool)
    requires EndsWith(path, ".jpg") && imageType.srcSetWidths.Some?
    ensures var webpRun := RunSrcSet(q, imageType, imageType.srcSetWidths.value, "webp", lazyLoadType, showDebugInfo);
      var run := RunSrcSet(webpRun.query, imageType, imageType.srcSetWidths.value, "", lazyLoadType, showDebugInfo);
      BuildSources(path, q, imageType, lazyLoadType, showDebugInfo).query
      == (if imageType.srcSetSizes.None? then webpRun.query else run.query)
  {
    var widths := imageType.srcSetWidths.value;
    var webpRun := RunSrcSet(q, imageType, widths, "webp", lazyLoadType, showDebugInfo);
    var run := RunSrcSet(webpRun.query, imageType, widths, "", lazyLoadType, showDebugInfo);
    if imageType.srcSetSizes.None? {
      assert SourceElement(path, webpRun, imageType, lazyLoadType, "webp").Err?;
    } else {
      assert SourceElement(path, webpRun, imageType, lazyLoadType, "webp").Ok?;
      assert SourceElement(path, run, imageType, lazyLoadType, "").Ok?;
    }
  }

  lemma Hundred()
    ensures IntToString(100) == "100"
  {
    assert NatToString(10) == NatToString(1) + [DigitChar(0)];
    assert NatToString(100) == NatToString(10) + [DigitChar(0)];
  }

  /** The quality-1 URL of width 100 for `/a.jpg`. */
  lemma ExampleUrl()
    ensures Render("/a.jpg", [("quality", "1"), ("width", "100")]) == "/a.jpg?quality=1&width=100"
    ensures IntToString(100) == "100"
  {
    RenderTwo("/a.jpg", ("quality", "1"), ("width", "100"));
    Hundred();
  }

  /**
   * The quality-1 entry as written: `imageUrl + BuildQueryString(...)`
   * renders the builder after the call has merged into it, so the entry is
   * the URL twice, run together, before its width.
   */
  lemma LowQualityEntryDoubled()
    ensures LowQualityText("/a.jpg", Candidate([("quality", "1"), ("width", "100")], 100))
      == "/a.jpg?quality=1&width=100" + "/a.jpg?quality=1&width=100" + " 100w"
  {
    ExampleUrl();
  }

  /**
   * The entry as evidently intended is the quality-1 URL once: the same text
   * as any other candidate, "<url> <width>w", whose URL asks for quality 1 at
   * that width.  The entry as written is that text after the URL.
   */
  lemma CorrectedLowQualityEntries(path: string, q: seq<Pair>, imageType: ImageType, widths: seq<int>, format: string,
                                   showDebugInfo: bool)
    ensures var run := RunSrcSet(q, imageType, widths, format, Progressive, showDebugInfo);
      && |CandidateTexts(path, run.lowQuality)| == |widths|
      && forall k :: 0 <= k < |widths| ==>
        && CandidateTexts(path, run.lowQuality)[k] == Render(path, run.lowQuality[k].query) + " " + IntToString(widths[k]) + "w"
        && Values(run.lowQuality[k].query, "quality") == ["1"]
        && Values(run.lowQuality[k].query, "width") == [IntToString(widths[k])]
        && LowQualityTexts(path, run.lowQuality)[k] == Render(path, run.lowQuality[k].query) + CandidateTexts(path, run.lowQuality)[k]
  {
    var run := RunSrcSet(q, imageType, widths, format, Progressive, showDebugInfo);
    RunQualityAndWidth(q, imageType, widths, format, Progressive, showDebugInfo);
    var texts := CandidateTexts(path, run.lowQuality);
    assert |run.lowQuality| == |widths|;
    forall k | 0 <= k < |widths|
      ensures texts[k] == Render(path, run.lowQuality[k].query) + " " + IntToString(widths[k]) + "w"
    {
      assert run.lowQuality[k].width == widths[k];
    }
  }

  /** The `source` element as evidently intended: its quality-1 entries are written like every other entry. */
  function CorrectedSourceElement(path: string, run: SrcSetRun, imageType: ImageType, lazyLoadType: LazyLoadType, format: string)
    : Result<Element, Error>
  {
    if imageType.srcSetSizes.None? then Err(ArgumentNull)
    else Ok(Element("source", SourceAttributes(format, lazyLoadType,
                                               Join(", ", CandidateTexts(path, run.candidates)),
                                               Join(", ", CandidateTexts(path, run.lowQuality)),
                                               Join(", ", imageType.srcSetSizes.value))))
  }

  /**
   * The intended `source` element differs from the one written only in the
   * `srcset` of progressive loading, which joins the corrected entries.
   */
  lemma CorrectedSourceAgrees(path: string, run: SrcSetRun, imageType: ImageType, lazyLoadType: LazyLoadType, format: string)
    ensures CorrectedSourceElement(path, run, imageType, lazyLoadType, format).Ok?
      <==> SourceElement(path, run, imageType, lazyLoadType, format).Ok?
    ensures lazyLoadType != Progressive ==>
      CorrectedSourceElement(path, run, imageType, lazyLoadType, format) == SourceElement(path, run, imageType, lazyLoadType, format)
    ensures lazyLoadType == Progressive && imageType.srcSetSizes.Some? ==>
      var corrected := CorrectedSourceElement(path, run, imageType, lazyLoadType, format).value.attributes;
      var written := SourceElement(path, run, imageType, lazyLoadType, format).value.attributes;
      && corrected.Keys == written.Keys
      && corrected["srcset"] == Join(", ", CandidateTexts(path, run.lowQuality))
      && written["srcset"] == Join(", ", LowQualityTexts(path, run.lowQuality))
      && (forall key :: key in written && key != "srcset" ==> corrected[key] == written[key])
  {
  }

  /** The same example entry, written once. */
  lemma CorrectedLowQualityExample()
    ensures CandidateText("/a.jpg", Candidate([("quality", "1"), ("width", "100")], 100)) == "/a.jpg?quality=1&width=100" + " 100w"
  {
    ExampleUrl();
  }

  /**
   * The debug pairs of this helper and of `PictureUtils` differ only in the
   * font size, and only for widths above 700 up to 800: 17 here, 35 there.
   */
  lemma InfoAgreesWithPictureUtils(imageType: ImageType, other: Utils.ImageType, imageWidth: Option<int>, format: string)
    requires imageType.heightRatio == other.heightRatio
    ensures |BuildInfoCollection(imageType, imageWidth, format)| == |Utils.BuildInfoCollection(other, imageWidth, format)| == 4
    ensures forall k :: 0 <= k < 4 && k != 2 ==>
      BuildInfoCollection(imageType, imageWidth, format)[k] == Utils.BuildInfoCollection(other, imageWidth, format)[k]
    ensures BuildInfoCollection(imageType, imageWidth, format) == Utils.BuildInfoCollection(other, imageWidth, format)
      <==> imageWidth.None? || imageWidth.value <= 700 || imageWidth.value > 800
  {
    assert NatToString(35) == NatToString(3) + [DigitChar(5)];
    assert NatToString(17) == NatToString(1) + [DigitChar(7)];
    if imageWidth.Some? && 700 < imageWidth.value <= 800 {
      assert BuildInfoCollection(imageType, imageWidth, format)[2].1 == "17";
      assert Utils.BuildInfoCollection(other, imageWidth, format)[2].1 == "35";
    }
  }
}
