/**
 * `BlobCache` (src/ImageProcessor.Web.Episerver/BlobCache.cs): an image
 * cache kept beside the media's own Episerver blob.  Only the freshness check
 * is implemented; adding, rewriting and trimming throw.
 */
module BlobCaches {
  import opened Wrappers
  import opened CacheIndex
  import Sequences

  /** The prefix of every cached file name. */
  const Prefix := "3p!_"

  datatype Error = NotImplemented | IndexOutOfRange

  /**
   * `blob?.BinaryDataContainer?.Segments[1]`: `segments` is `None` when the
   * routed content is not binary or has no container; a container URI with
   * fewer than two segments makes the indexer throw.
   */
  function BlobFolder(segments: Option<seq<string>>): (r: Result<Option<string>, Error>)
    ensures r.Err? <==> segments.Some? && |segments.value| < 2
    ensures r.Ok? && r.value.Some? ==> segments.Some? && r.value.value == segments.value[1]
    ensures r == Ok(None) <==> segments.None?
  {
    match segments
    case None => Ok(None)
    case Some(s) => if |s| < 2 then Err(IndexOutOfRange) else Ok(Some(s[1]))
  }

  /** `string.Join("/", blobFolder, prefix + name)` */
  function BlobCachedPath(blobFolder: string, name: string): string
  {
    blobFolder + "/" + Prefix + name
  }

  /** `IsUpdatedAsync`: its whole body is commented out, so it answers `false`. */
  function IsUpdated(creationDate: int): bool
  {
    false
  }

  class BlobCache {
    const requestPath: string
    const fullPath: string
    const querystring: string
    /** `CachedPath`; `None` until a check sets it. */
    var cachedPath: Option<string>
    var cachedImageCreationTimeUtc: int

    constructor (requestPath: string, fullPath: string, querystring: string)
      ensures this.requestPath == requestPath && this.fullPath == fullPath && this.querystring == querystring
      ensures cachedPath.None? && cachedImageCreationTimeUtc == MinValue
    {
      this.requestPath := requestPath;
      this.fullPath := fullPath;
      this.querystring := querystring;
      cachedPath := None;
      cachedImageCreationTimeUtc := MinValue;
    }

    /**
     * `IsNewOrUpdatedAsync`.  `name` is what `CreateCachedFileNameAsync`
     * returns, `segments` the routed media's container segments, `stored`
     * whether a blob answers at a path and its creation time, `isExpired`
     * the base class's expiry rule.
     */
    method IsNewOrUpdated(index: CacheIndexer, name: string, segments: Option<seq<string>>,
                          stored: string -> Option<int>, isExpired: int -> bool)
      returns (r: Result<bool, Error>)
      modifies this, index
      ensures BlobFolder(segments).Err? ==>
        r == Err(IndexOutOfRange) && index.entries == old(index.entries)
        && cachedPath == old(cachedPath) && cachedImageCreationTimeUtc == old(cachedImageCreationTimeUtc)
      ensures BlobFolder(segments) == Ok(None) ==>
        r == Ok(true) && index.entries == old(index.entries)
        && cachedPath == old(cachedPath) && cachedImageCreationTimeUtc == old(cachedImageCreationTimeUtc)
      ensures BlobFolder(segments).Ok? && BlobFolder(segments).value.Some? ==>
        var path := BlobCachedPath(BlobFolder(segments).value.value, name);
        var c := Freshness(old(index.entries), path, stored(path), isExpired, IsUpdated);
        && cachedPath == Some(path)
        && r == Ok(c.isNewOrUpdated)
        && index.entries == c.entries
        && cachedImageCreationTimeUtc == c.kept.GetOr(old(cachedImageCreationTimeUtc))
    {
      var folder := BlobFolder(segments);
      if folder.Err? {
        return Err(folder.error);
      }
      if folder.value.None? {
        return Ok(true);
      }
      var path := BlobCachedPath(folder.value.value, name);
      cachedPath := Some(path);
      var isNew, kept := CheckFreshness(index, path, stored(path), isExpired, IsUpdated);
      r := Ok(isNew);
      if kept.Some? {
        cachedImageCreationTimeUtc := kept.value;
      }
    }

    /** `AddImageToCacheAsync` */
    method AddImageToCache(stream: seq<bv8>, contentType: string) returns (r: Result<(), Error>)
      ensures r == Err(NotImplemented)
    {
      r := Err(NotImplemented);
    }

    /** `RewritePath` */
    method RewritePath() returns (r: Result<(), Error>)
      ensures r == Err(NotImplemented)
    {
      r := Err(NotImplemented);
    }

    /** `TrimCacheAsync` */
    method TrimCache() returns (r: Result<(), Error>)
      ensures r == Err(NotImplemented)
    {
      r := Err(NotImplemented);
    }
  }

  // ---------------------------------------------------------------------------------------------
  // Properties

  /**
   * With an updated-check that never fires, an image that is found or
   * recorded is stale exactly when it is expired: a cached blob is served
   * until the expiry rule says otherwise, whatever happened to the media.
   */
  lemma OnlyExpiryIsStale(entries: map<string, CachedImage>, blobFolder: string, name: string,
                          stored: Option<int>, isExpired: int -> bool)
    ensures var path := BlobCachedPath(blobFolder, name);
      var image := LazyFill(entries, path, stored).image;
      var c := Freshness(entries, path, stored, isExpired, IsUpdated);
      image.Some? ==> (c.isNewOrUpdated <==> isExpired(image.value.creationTimeUtc))
  {
    var path := BlobCachedPath(blobFolder, name);
    FreshnessRule(entries, path, stored, isExpired, IsUpdated);
  }

  /**
   * The cached path is the blob folder, a slash and the prefixed name, and
   * it is indexed under the prefixed name without its extension.
   */
  lemma CachedPathShape(blobFolder: string, stem: string, ext: string)
    requires '.' !in ext
    requires forall i :: 0 <= i < |stem| ==> !IsSeparator(stem[i])
    requires forall i :: 0 <= i < |ext| ==> !IsSeparator(ext[i])
    ensures var name := stem + "." + ext;
      BlobCachedPath(blobFolder, name) == blobFolder + ['/'] + (Prefix + name)
    ensures FileNameWithoutExtension(BlobCachedPath(blobFolder, stem + "." + ext)) == Prefix + stem
  {
    var name := stem + "." + ext;
    var prefixed := Prefix + stem;
    assert forall i :: 0 <= i < |Prefix| ==> !IsSeparator(Prefix[i]);
    ConcatWithoutSeparator(Prefix, stem);
    KeyOfPath(blobFolder, '/', prefixed, ext);
    Sequences.Regroup4(Prefix, stem, ".", ext);
    assert Prefix + name == prefixed + "." + ext;
    assert BlobCachedPath(blobFolder, name) == blobFolder + ['/'] + (Prefix + name);
  }
}
