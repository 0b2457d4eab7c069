/**
 * The browser half of the crop editor
 * (build/content/ImageProcessor.Web.Episerver.UI.Crop/Scripts/Helpers.js):
 * the record an image is stored as, and the preview URL of a stored image.
 * Numbers are integers here; `new Date().getTime()` is the parameter `now`,
 * and `preloadImage` only hands a URL to the browser.
 */
module CropHelpers {
  import opened Wrappers
  import opened Text
  import opened Urls
  import Crop = ImageReferenceExtensions

  /** The crop data a JavaScript image record holds under `cropDetails`. */
  datatype JsCrop = Null | Undefined | Present(details: Crop.CropDetails)

  /** The exception raised by reading a property of `undefined`. */
  datatype JsError = TypeError

  /** The fields of a selected image that `serializeImage` reads; a missing `id` is `None`. */
  datatype Image = Image(id: Option<int>, contentLink: string, contentGuid: string, previewUrl: string)

  /** The record `serializeImage` returns. */
  datatype StoredImage = StoredImage(id: int, contentLink: string, contentReferenceId: string, previewUrl: string,
                                     cropDetails: JsCrop)

  /** JavaScript truthiness of a numeric `id`: present and not zero. */
  predicate Truthy(id: Option<int>)
  {
    id.Some? && id.value != 0
  }

  /** `serializeImage(image, cropperData)` at time `now`. */
  function SerializeImage(image: Image, cropperData: JsCrop, now: int): StoredImage
  {
    StoredImage(if Truthy(image.id) then image.id.value else now, image.contentLink, image.contentGuid,
                image.previewUrl, cropperData)
  }

  /** `imageUrl.indexOf('?') === -1 ? "?" : "&"` */
  function Separator(url: string): (r: string)
    ensures r == (if '?' in url then "&" else "?")
  {
    if '?' in url then "&" else "?"
  }

  /** The corner text the crop branch writes out piece by piece. */
  function CornerText(c: Crop.CropDetails): string
  {
    IntToString(c.x) + "," + IntToString(c.y) + "," + IntToString(c.x + c.width) + "," + IntToString(c.y + c.height)
  }

  /**
   * `getImageUrl(item, imageWidth)`: only `null` takes the no-crop branch,
   * which always appends `?width=`; `undefined` throws in the crop branch,
   * which chooses its separator by the URL's query.
   */
  function GetImageUrl(previewUrl: string, cropDetails: JsCrop, imageWidth: int): (r: Result<string, JsError>)
    ensures r.Err? <==> cropDetails.Undefined?
    ensures r.Ok? ==> |r.value| > |previewUrl| && r.value[..|previewUrl|] == previewUrl
    ensures r.Ok? ==> r.value[|previewUrl|] == (if cropDetails.Null? || '?' !in previewUrl then '?' else '&')
  {
    match cropDetails
    case Null => Ok(previewUrl + ("?" + WidthQuery(imageWidth)))
    case Undefined => Err(TypeError)
    case Present(c) => Ok(previewUrl + (Separator(previewUrl) + CropQuery(c, imageWidth)))
  }

  /** `"width=" + imageWidth` */
  function WidthQuery(imageWidth: int): string
  {
    "width=" + IntToString(imageWidth)
  }

  /** `"crop=" + x + "," + y + "," + (x + width) + "," + (y + height) + "&width=" + imageWidth` */
  function CropQuery(c: Crop.CropDetails, imageWidth: int): string
  {
    "crop=" + CornerText(c) + "&width=" + IntToString(imageWidth)
  }

  /** `getImageUrl` as evidently intended: the no-crop branch chooses its separator as the crop branch does. */
  function CorrectedGetImageUrl(previewUrl: string, cropDetails: JsCrop, imageWidth: int): Result<string, JsError>
  {
    match cropDetails
    case Null => Ok(previewUrl + (Separator(previewUrl) + WidthQuery(imageWidth)))
    case _ => GetImageUrl(previewUrl, cropDetails, imageWidth)
  }

  // ---------------------------------------------------------------------------------------------
  // Properties

  /**
   * A truthy `id` is kept and the time is not used; otherwise the id is the
   * time.  The other fields are copied, the content GUID under its new name.
   */
  lemma SerializeImageFields(image: Image, cropperData: JsCrop, now: int, later: int)
    ensures Truthy(image.id) ==>
      SerializeImage(image, cropperData, now).id == image.id.value
      && SerializeImage(image, cropperData, now) == SerializeImage(image, cropperData, later)
    ensures !Truthy(image.id) ==> SerializeImage(image, cropperData, now).id == now
    ensures SerializeImage(Image(Some(0), "", "", ""), cropperData, now).id == now
    ensures var r := SerializeImage(image, cropperData, now);
      r.contentLink == image.contentLink && r.contentReferenceId == image.contentGuid
      && r.previewUrl == image.previewUrl && r.cropDetails == cropperData
  {
  }

  /** The preview of a stored image depends on its preview URL and crop only. */
  lemma StoredImageUrl(image: Image, cropperData: JsCrop, now: int, imageWidth: int)
    ensures var r := SerializeImage(image, cropperData, now);
      GetImageUrl(r.previewUrl, r.cropDetails, imageWidth) == GetImageUrl(image.previewUrl, cropperData, imageWidth)
  {
  }

  /** The browser writes the same corner form as `GetCropUrl`. */
  lemma CornerTextIsCornerForm(c: Crop.CropDetails)
    ensures CornerText(c) == Crop.CornerForm(c)
  {
    Crop.CornerFormParts(c);
  }

  lemma CropAndWidthPairs(c: Crop.CropDetails, w: int)
    requires w > 0
    ensures Crop.CropPairs(Some(c), Some(w), None) == [("crop", Crop.CornerForm(c)), ("width", IntToString(w))]
  {
    assert Opt(false, "height", Crop.PositiveText(None)) == [];
  }

  /**
   * For a URL without a query and a positive width, the crop branch gives
   * exactly the text of the builder `GetCropUrl(reference, width)` returns
   * for that URL and crop: `url?crop=x,y,x+w,y+h&width=N`.
   */
  lemma PreviewMatchesCropUrl(url: string, c: Crop.CropDetails, w: int)
    requires '?' !in url && w > 0
    ensures GetImageUrl(url, Present(c), w)
      == Ok(Render(PathPart(url), QueryPart(url) + Crop.CropPairs(Some(c), Some(w), None)))
  {
    PreviewStartsQuery(url, c, w);
    CropUrlText(url, c, w);
  }

  lemma PreviewStartsQuery(url: string, c: Crop.CropDetails, w: int)
    requires '?' !in url
    ensures GetImageUrl(url, Present(c), w) == Ok(url + "?" + CropQuery(c, w))
  {
    var q := CropQuery(c, w);
    assert Separator(url) == "?";
    assert url + ("?" + q) == url + "?" + q;
  }

  /** The text of the builder `GetCropUrl` makes for a URL without a query, a crop and a positive width. */
  lemma CropUrlText(url: string, c: Crop.CropDetails, w: int)
    requires '?' !in url && w > 0
    ensures Render(PathPart(url), QueryPart(url) + Crop.CropPairs(Some(c), Some(w), None)) == url + "?" + CropQuery(c, w)
  {
    NoQuery(url);
    CropAndWidthPairs(c, w);
    var a, b := ("crop", Crop.CornerForm(c)), ("width", IntToString(w));
    assert QueryPart(url) + Crop.CropPairs(Some(c), Some(w), None) == [a, b];
    RenderTwo(url, a, b);
    CropQueryForm(c, w);
  }

  lemma CropQueryForm(c: Crop.CropDetails, w: int)
    ensures CropQuery(c, w) == ("crop" + "=" + Crop.CornerForm(c)) + "&" + ("width" + "=" + IntToString(w))
  {
    CornerTextIsCornerForm(c);
    assert "crop" + "=" == "crop=" && "&" + "width" + "=" == "&width=";
  }

  /** With a query already present, the crop pairs are appended after `&`. */
  lemma PreviewAppendsToQuery(url: string, c: Crop.CropDetails, w: int)
    requires '?' in url
    ensures GetImageUrl(url, Present(c), w) == Ok(url + "&crop=" + Crop.CornerForm(c) + "&width=" + IntToString(w))
  {
    CornerTextIsCornerForm(c);
    var f, n := Crop.CornerForm(c), IntToString(w);
    assert Separator(url) == "&";
    assert GetImageUrl(url, Present(c), w) == Ok(url + ("&" + ("crop=" + f + "&width=" + n)));
    assert url + ("&" + ("crop=" + f + "&width=" + n)) == url + "&crop=" + f + "&width=" + n;
  }

  lemma {:induction false} CountAbsent(s: string, c: char)
    requires c !in s
    ensures Count(s, c) == 0
  {
    if s != [] {
      assert forall i :: 0 <= i < |s[1..]| ==> s[1..][i] == s[i + 1];
      CountAbsent(s[1..], c);
    }
  }

  lemma NumberHasNoQuestionMark(i: int)
    ensures Count(IntToString(i), '?') == 0
  {
    var n: nat := if i < 0 then -i else i;
    NatToStringDigits(n);
    assert '?' !in NatToString(n);
    CountAbsent(IntToString(i), '?');
  }

  lemma NoneAppended(a: string, b: string)
    requires Count(a, '?') == 0 && Count(b, '?') == 0
    ensures Count(a + b, '?') == 0
  {
    CountAppend(a, b, '?');
  }

  lemma CropQueryHasNoQuestionMark(c: Crop.CropDetails, w: int)
    ensures Count(CropQuery(c, w), '?') == 0
  {
    CornerTextHasNoQuestionMark(c);
    NumberHasNoQuestionMark(w);
    CountAbsent("crop=", '?');
    CountAbsent("&width=", '?');
    NoneAppended("crop=", CornerText(c));
    NoneAppended("crop=" + CornerText(c), "&width=");
    NoneAppended("crop=" + CornerText(c) + "&width=", IntToString(w));
  }

  /** The four corner numbers and their commas hold no `?`. */
  lemma CornerTextHasNoQuestionMark(c: Crop.CropDetails)
    ensures Count(CornerText(c), '?') == 0
  {
    var x, y, right, bottom := IntToString(c.x), IntToString(c.y), IntToString(c.x + c.width), IntToString(c.y + c.height);
    NumberHasNoQuestionMark(c.x);
    NumberHasNoQuestionMark(c.y);
    NumberHasNoQuestionMark(c.x + c.width);
    NumberHasNoQuestionMark(c.y + c.height);
    CountAbsent(",", '?');
    NoneAppended(x, ",");
    NoneAppended(x + ",", y);
    NoneAppended(x + "," + y, ",");
    NoneAppended(x + "," + y + ",", right);
    NoneAppended(x + "," + y + "," + right, ",");
    NoneAppended(x + "," + y + "," + right + ",", bottom);
    assert CornerText(c) == x + "," + y + "," + right + "," + bottom;
  }

  /** The question marks of `url + (separator + rest)` when `rest` has none. */
  lemma SeparatedQuestionMarks(url: string, rest: string)
    requires Count(rest, '?') == 0
    ensures Count(url + (Separator(url) + rest), '?') == if '?' in url then Count(url, '?') else 1
  {
    CountAppend(Separator(url), rest, '?');
    CountAppend(url, Separator(url) + rest, '?');
    if '?' !in url {
      CountAbsent(url, '?');
    }
    assert Count("&", '?') == 0 && Count("?", '?') == 1;
  }

  /** The crop branch leaves a URL with exactly one `?` once there was at most one. */
  lemma CropBranchQuestionMarks(url: string, c: Crop.CropDetails, w: int)
    ensures GetImageUrl(url, Present(c), w).Ok?
    ensures Count(GetImageUrl(url, Present(c), w).value, '?') == if '?' in url then Count(url, '?') else 1
  {
    CropQueryHasNoQuestionMark(c, w);
    SeparatedQuestionMarks(url, CropQuery(c, w));
  }

  /**
   * As written, the no-crop branch adds a second `?` to a URL that already
   * has a query: `/a.jpg?v=1` becomes `/a.jpg?v=1?width=N`, whose width is
   * then part of the value of `v`.
   */
  lemma NoCropBranchSecondQuestionMark(url: string, w: int)
    requires '?' in url
    ensures GetImageUrl(url, Null, w).Ok?
    ensures Count(GetImageUrl(url, Null, w).value, '?') == Count(url, '?') + 1 >= 2
  {
    NumberHasNoQuestionMark(w);
    CountAbsent("width=", '?');
    NoneAppended("width=", IntToString(w));
    CountAppend("?", WidthQuery(w), '?');
    CountAppend(url, "?" + WidthQuery(w), '?');
    assert Count("?", '?') == 1;
    var k :| 0 <= k < |url| && url[k] == '?';
    CountPositive(url, k);
  }

  lemma {:induction false} CountPositive(s: string, k: nat)
    requires k < |s| && s[k] == '?'
    ensures Count(s, '?') > 0
  {
    if k > 0 {
      CountPositive(s[1..], k - 1);
    }
  }

  /**
   * With the separator chosen in both branches, no branch adds a second
   * `?`; the intended function agrees with the written one except on the
   * no-crop branch of a URL that already has a query.
   */
  lemma CorrectedQuestionMarks(url: string, cropDetails: JsCrop, w: int)
    ensures cropDetails.Undefined? <==> CorrectedGetImageUrl(url, cropDetails, w).Err?
    ensures CorrectedGetImageUrl(url, cropDetails, w).Ok? ==>
      Count(CorrectedGetImageUrl(url, cropDetails, w).value, '?') == if '?' in url then Count(url, '?') else 1
    ensures !cropDetails.Null? || '?' !in url ==> CorrectedGetImageUrl(url, cropDetails, w) == GetImageUrl(url, cropDetails, w)
  {
    match cropDetails
    case Present(c) => CropBranchQuestionMarks(url, c, w);
    case Undefined =>
    case Null =>
      NumberHasNoQuestionMark(w);
      CountAbsent("width=", '?');
      NoneAppended("width=", IntToString(w));
      SeparatedQuestionMarks(url, WidthQuery(w));
  }
}
