/**
 * The older request-URL rewrite (src/ImageProcessor.Web.Episerver/ImageProcessingModuleEpiserver.cs):
 * the version markers are deleted from the path and query, and nothing else
 * is changed.
 */
module ImageProcessingModuleEpiserver {
  import opened Text
  import opened VersionMarkers

  /** `GetRequestUrl`, always from `PathAndQuery` (the absolute URI is never used). */
  function GetRequestUrl(pathAndQuery: string, absoluteUri: string): string
  {
    RemoveVersionMarkers(pathAndQuery)
  }

  /**
   * The result is never longer than the path and query, a path and query
   * without a marker is returned unchanged, and question marks and
   * ampersands are not rewritten: their counts are those of the input.
   */
  lemma RequestUrlShape(pathAndQuery: string, absoluteUri: string)
    ensures |GetRequestUrl(pathAndQuery, absoluteUri)| <= |pathAndQuery|
    ensures !HasMarker(pathAndQuery) ==> GetRequestUrl(pathAndQuery, absoluteUri) == pathAndQuery
    ensures Count(GetRequestUrl(pathAndQuery, absoluteUri), '?') == Count(pathAndQuery, '?')
    ensures Count(GetRequestUrl(pathAndQuery, absoluteUri), '&') == Count(pathAndQuery, '&')
    ensures GetRequestUrl(pathAndQuery, absoluteUri) == GetRequestUrl(pathAndQuery, "")
  {
    if !HasMarker(pathAndQuery) {
      NoMarkerUnchanged(pathAndQuery);
    }
    OtherCharactersKept(pathAndQuery, '?');
    OtherCharactersKept(pathAndQuery, '&');
  }

  /** `/globalassets/a.jpg,,123?width=10` is served as `/globalassets/a.jpg?width=10`; a lone `,,x` is kept. */
  lemma MarkerExamples(rest: string)
    requires rest == [] || !IsDigit(rest[0])
    ensures GetRequestUrl(",,123" + rest, "") == GetRequestUrl(rest, "")
    ensures GetRequestUrl(",,x" + rest, "") == "," + GetRequestUrl(",x" + rest, "")
  {
    MarkerDeleted("123", rest);
    assert ",,123" + rest == ",," + "123" + rest;
    DoubleCommaKept('x', rest);
    assert ",,x" + rest == ",," + ['x'] + rest;
    assert ",x" + rest == "," + ['x'] + rest;
  }
}
