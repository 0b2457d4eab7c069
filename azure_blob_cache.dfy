/**
 * `AzureBlobCache` (src/ImageProcessor.Web.Episerver.Azure/AzureBlobCache.cs):
 * cached images are block blobs named `<container>/3p!_<file>` in the
 * Episerver blob container, served by redirect to a signed blob URL or by
 * streaming.  The storage SDK's answers, the web requests, the clock and
 * the shared-access signature are parameters.
 */
module AzureBlobCaches {
  import opened Wrappers
  import opened Text
  import opened CacheIndex
  import opened Sorting
  import opened Cancellation
  import opened AzureBlobs

  /** The cached blob as a check finds it: missing, or present with its last-modified time if it has one. */
  datatype BlobState = Missing | Present(lastModified: Option<int>)

  /** The creation time the lazy fill records: the last-modified time of an existing blob. */
  function StoredTime(blob: BlobState): Option<int>
  {
    if blob.Present? then blob.lastModified else None
  }

  /**
   * `IsUpdatedAsync`: an existing cached blob is updated when it was
   * modified after the creation time (never, without a time); a missing one
   * asks the request path with a HEAD request, `head` being its
   * last-modified time, `None` when the request throws.
   */
  function BlobUpdated(blob: BlobState, head: Option<int>, creationDate: int): bool
  {
    match blob
    case Present(lastModified) => lastModified.Some? && lastModified.value > creationDate
    case Missing => head.Some? && head.value > creationDate
  }

  /** The `isUpdated` test the check hands to the freshness decision. */
  function UpdateCheck(blob: BlobState, head: Option<int>): int -> bool
  {
    t => BlobUpdated(blob, head, t)
  }

  /** The blobs the delete loop removes: not dated and unexpired, and named with the prefix. */
  predicate Deletable(b: BlobItem, isExpired: int -> bool)
  {
    !DatedUnexpired(b, isExpired) && Contains(b.name, Prefix)
  }

  /** The deletable blobs, in order. */
  function Candidates(blobs: seq<BlobItem>, isExpired: int -> bool): (r: seq<BlobItem>)
    ensures forall b :: b in r ==> b in blobs && Deletable(b, isExpired)
  {
    if blobs == [] then []
    else if Deletable(blobs[0], isExpired) then [blobs[0]] + Candidates(blobs[1..], isExpired)
    else Candidates(blobs[1..], isExpired)
  }

  /**
   * The delete loop of a trim over the blobs oldest first: it stops at a
   * cancelled check, passes over blobs dated and unexpired or without the
   * prefix, and removes every other one from the index and the container.
   */
  function AzureSweep(blobs: seq<BlobItem>, checks: nat, budget: nat, isExpired: int -> bool): BlobSweep
    decreases |blobs|
  {
    if blobs == [] then BlobSweep([], checks)
    else if checks >= budget then BlobSweep([], checks + 1)
    else if !Deletable(blobs[0], isExpired) then AzureSweep(blobs[1..], checks + 1, budget, isExpired)
    else
      var rest := AzureSweep(blobs[1..], checks + 1, budget, isExpired);
      BlobSweep([blobs[0].name] + rest.deleted, rest.checks)
  }

  /**
   * Redirect mode after a HEAD request to the signed blob URL: to that URL
   * when it answers; to the cached path when it fails without a response or
   * with an accepted one; nowhere (a log line) otherwise.
   */
  function AzureRedirect(cachedPath: string, blobWithSas: string, probe: Probe): Redirected
  {
    match probe
    case Answered(_) => RedirectTo(blobWithSas)
    case Failed(None) => RedirectTo(cachedPath)
    case Failed(Some(_)) => if Accepted(probe, cachedPath).Some? then RedirectTo(cachedPath) else RedirectLogged
  }

  /** The metadata value an upload carries. */
  function ProcessedBy(assemblyVersion: string): string
  {
    "ImageProcessor.Web.Episerver.Azure" + assemblyVersion
  }

  class AzureBlobCache {
    const requestPath: string
    const fullPath: string
    const querystring: string
    /** The cache's settings from configuration. */
    const settings: map<string, string>
    /** `rootContainer.Uri` */
    const rootUri: string
    const timeout: int
    const streamCachedImage: bool
    /** The base class's `TrimCache` setting. */
    const trimCache: bool
    /** `CachedPath` and `blobPath`; `None` until a check sets them. */
    var cachedPath: Option<string>
    var blobPath: Option<string>

    constructor (requestPath: string, fullPath: string, querystring: string, settings: map<string, string>,
                 rootUri: string, trimCache: bool)
      ensures this.requestPath == requestPath && this.fullPath == fullPath && this.querystring == querystring
      ensures this.settings == settings && this.rootUri == rootUri && this.trimCache == trimCache
      ensures timeout == Timeout(settings, "CDNTimeout")
      ensures streamCachedImage == SettingIsTrue(settings, "StreamCachedImage")
      ensures cachedPath.None? && blobPath.None?
    {
      this.requestPath := requestPath;
      this.fullPath := fullPath;
      this.querystring := querystring;
      this.settings := settings;
      this.rootUri := rootUri;
      this.trimCache := trimCache;
      timeout := Timeout(settings, "CDNTimeout");
      streamCachedImage := SettingIsTrue(settings, "StreamCachedImage");
      cachedPath := None;
      blobPath := None;
    }

    /**
     * `IsNewOrUpdatedAsync`.  `name` is what `CreateCachedFileNameAsync`
     * returns, `segments` the routed media's container segments, `blob` the
     * state of a blob by name, `head` the last-modified time of the request
     * path, `isExpired` the base class's expiry rule.
     */
    method IsNewOrUpdated(index: CacheIndexer, name: string, segments: Option<seq<string>>,
                          blob: string -> BlobState, head: Option<int>, isExpired: int -> bool)
      returns (r: Result<bool, Error>)
      modifies this, index
      ensures ContainerName(segments).Err? ==>
        r == Err(IndexOutOfRange) && index.entries == old(index.entries)
        && cachedPath == old(cachedPath) && blobPath == old(blobPath)
      ensures ContainerName(segments).Ok? ==>
        var container := ContainerName(segments).value;
        var file := Prefix + name;
        var path := rootUri + "/" + container + "/" + file;
        var state := blob(container + "/" + file);
        var c := Freshness(old(index.entries), path, StoredTime(state), isExpired, UpdateCheck(state, head));
        && blobPath == Some(container + "/" + file)
        && cachedPath == Some(path)
        && r == Ok(c.isNewOrUpdated)
        && index.entries == c.entries
    {
      var container := ContainerName(segments);
      if container.Err? {
        return Err(container.error);
      }
      var file := Prefix + name;
      blobPath := Some(container.value + "/" + file);
      var path := rootUri + "/" + container.value + "/" + file;
      cachedPath := Some(path);
      var state := blob(container.value + "/" + file);
      var isNew, kept := CheckFreshness(index, path, StoredTime(state), isExpired, UpdateCheck(state, head));
      r := Ok(isNew);
    }

    /**
     * `AddImageToCacheAsync`: the blob at `blobPath`, with the content type,
     * the browser `Cache-Control` and the "ImageProcessedBy" metadata.
     */
    function AddImageToCache(contentType: string, browserMaxDays: int, assemblyVersion: string): (r: Result<BlobUpload, Error>)
      reads this
      ensures r.Err? <==> blobPath.None?
      ensures r.Ok? ==>
        && r.value.blob == blobPath.value
        && r.value.contentType == contentType
        && r.value.metadata == ("ImageProcessedBy", "ImageProcessor.Web.Episerver.Azure" + assemblyVersion)
    {
      if blobPath.None? then Err(ArgumentNull)
      else Ok(BlobUpload(blobPath.value, contentType, CacheControl(browserMaxDays), ("ImageProcessedBy", ProcessedBy(assemblyVersion))))
    }

    /**
     * `TrimCacheAsync`, run as the scheduled trimmer would run it: `pages`
     * is what listing the whole container returns, segment by segment; the
     * result is the names deleted, in order.
     */
    method TrimCache(index: CacheIndexer, token: CancellationToken, pages: seq<seq<BlobItem>>, isExpired: int -> bool)
      returns (deleted: seq<string>)
      modifies index, token
      ensures !trimCache ==> deleted == [] && index.entries == old(index.entries) && token.checks == old(token.checks)
      ensures trimCache ==>
        var listing := Listing(pages, 0, old(token.checks), token.budget);
        var s := AzureSweep(ByAge(listing.0), listing.1, token.budget, isExpired);
        deleted == s.deleted && index.entries == old(index.entries) - KeysOf(deleted) && token.checks == s.checks
    {
      if !trimCache {
        return [];
      }
      var results := ListBlobs(token, pages);
      deleted := SweepBlobs(index, token, ByAge(results), isExpired);
    }

    /**
     * `RewritePath`.  `sas` signs a blob for reading (`GetSaSForBlob`),
     * `probe` is how the request to the signed URL ends: the GET of stream
     * mode, the HEAD of redirect mode; `parse` is `DateTime.TryParse`.
     */
    function RewritePath(requestHeaders: map<string, string>, parse: string -> Option<int>, sas: string -> string,
                         probe: Probe): Result<Rewrite, Error>
      reads this
    {
      if blobPath.None? || cachedPath.None? then Err(ArgumentNull)
      else
        var target := sas(blobPath.value);
        if streamCachedImage then
          Ok(Streaming(target, PrepareStreamRequest(requestHeaders, parse, timeout), StreamResponse(probe, cachedPath.value, true)))
        else Ok(Redirecting(target, AzureRedirect(cachedPath.value, target, probe)))
    }
  }

  /** The delete loop of `TrimCacheAsync`. */
  method SweepBlobs(index: CacheIndexer, token: CancellationToken, blobs: seq<BlobItem>, isExpired: int -> bool)
    returns (deleted: seq<string>)
    modifies index, token
    ensures BlobSweep(deleted, token.checks) == AzureSweep(blobs, old(token.checks), token.budget, isExpired)
    ensures index.entries == old(index.entries) - KeysOf(deleted)
  {
    ghost var whole := AzureSweep(blobs, token.checks, token.budget, isExpired);
    deleted := [];
    var i := 0;
    ResumeStart(blobs, token.checks, token.budget, isExpired);
    while i < |blobs|
      invariant 0 <= i <= |blobs|
      invariant Resumes(blobs, i, deleted, token.checks, token.budget, isExpired, whole)
      invariant index.entries == old(index.entries) - KeysOf(deleted)
      decreases |blobs| - i
    {
      var blob := blobs[i];
      ghost var before := token.checks;
      var cancelled := token.IsCancellationRequested();
      if cancelled {
        ResumeStop(blobs, i, deleted, before, token.budget, isExpired, whole);
        return;
      }
      var deletable := Deletable(blob, isExpired);
      if deletable {
        ResumeStep(blobs, i, deleted, before, token.budget, isExpired, whole);
        index.Remove(blob.name);
        RemoveOneMore(old(index.entries), deleted, blob.name);
        deleted := deleted + [blob.name];
      } else {
        ResumeSkip(blobs, i, deleted, before, token.budget, isExpired, whole);
      }
      i := i + 1;
    }
    ResumeEnd(blobs, deleted, token.checks, token.budget, isExpired, whole);
  }

  /** The loop has deleted `deleted` and made `checks` checks, and the rest of the sweep from blob `i` completes `whole`. */
  ghost predicate Resumes(blobs: seq<BlobItem>, i: nat, deleted: seq<string>, checks: nat, budget: nat,
                          isExpired: int -> bool, whole: BlobSweep)
  {
    i <= |blobs| &&
    var rest := AzureSweep(blobs[i..], checks, budget, isExpired);
    BlobSweep(deleted + rest.deleted, rest.checks) == whole
  }

  lemma ResumeStart(blobs: seq<BlobItem>, checks: nat, budget: nat, isExpired: int -> bool)
    ensures Resumes(blobs, 0, [], checks, budget, isExpired, AzureSweep(blobs, checks, budget, isExpired))
  {
    assert blobs[0..] == blobs;
    assert [] + AzureSweep(blobs, checks, budget, isExpired).deleted == AzureSweep(blobs, checks, budget, isExpired).deleted;
  }

  lemma ResumeStep(blobs: seq<BlobItem>, i: nat, deleted: seq<string>, checks: nat, budget: nat,
                   isExpired: int -> bool, whole: BlobSweep)
    requires Resumes(blobs, i, deleted, checks, budget, isExpired, whole) && i < |blobs|
    requires checks < budget && Deletable(blobs[i], isExpired)
    ensures Resumes(blobs, i + 1, deleted + [blobs[i].name], checks + 1, budget, isExpired, whole)
  {
    assert blobs[i..][0] == blobs[i] && blobs[i..][1..] == blobs[i + 1..];
    var rest := AzureSweep(blobs[i + 1..], checks + 1, budget, isExpired);
    assert deleted + ([blobs[i].name] + rest.deleted) == (deleted + [blobs[i].name]) + rest.deleted;
  }

  lemma ResumeSkip(blobs: seq<BlobItem>, i: nat, deleted: seq<string>, checks: nat, budget: nat,
                   isExpired: int -> bool, whole: BlobSweep)
    requires Resumes(blobs, i, deleted, checks, budget, isExpired, whole) && i < |blobs|
    requires checks < budget && !Deletable(blobs[i], isExpired)
    ensures Resumes(blobs, i + 1, deleted, checks + 1, budget, isExpired, whole)
  {
    assert blobs[i..][0] == blobs[i] && blobs[i..][1..] == blobs[i + 1..];
  }

  lemma ResumeStop(blobs: seq<BlobItem>, i: nat, deleted: seq<string>, checks: nat, budget: nat,
                   isExpired: int -> bool, whole: BlobSweep)
    requires Resumes(blobs, i, deleted, checks, budget, isExpired, whole) && i < |blobs|
    requires checks >= budget
    ensures BlobSweep(deleted, checks + 1) == whole
  {
    assert blobs[i..][0] == blobs[i];
    assert deleted + [] == deleted;
  }

  lemma ResumeEnd(blobs: seq<BlobItem>, deleted: seq<string>, checks: nat, budget: nat,
                  isExpired: int -> bool, whole: BlobSweep)
    requires Resumes(blobs, |blobs|, deleted, checks, budget, isExpired, whole)
    ensures BlobSweep(deleted, checks) == whole
  {
    assert blobs[|blobs|..] == [];
    assert deleted + [] == deleted;
  }

  // ---------------------------------------------------------------------------------------------
  // Properties

  /**
   * A blob the check has just recorded is never updated against itself: on
   * an index miss with the blob present and dated, the answer is "new"
   * exactly when its time has expired.
   */
  lemma RecordedBlobRule(entries: map<string, CachedImage>, cachedPath: string, t: int, head: Option<int>,
                         isExpired: int -> bool)
    requires Lookup(entries, cachedPath).None?
    ensures var blob := Present(Some(t));
      Freshness(entries, cachedPath, StoredTime(blob), isExpired, UpdateCheck(blob, head)).isNewOrUpdated <==>
        isExpired(t)
  {
    var blob := Present(Some(t));
    var fill := LazyFill(entries, cachedPath, Some(t));
    assert fill.image == Some(Recorded(cachedPath, t));
    assert !BlobUpdated(blob, head, t);
  }

  /**
   * On an index hit the image is stale exactly when it has expired or the
   * cached blob was modified after the recorded creation time; a missing
   * blob asks the request path instead.
   */
  lemma IndexedBlobRule(entries: map<string, CachedImage>, cachedPath: string, blob: BlobState, head: Option<int>,
                        isExpired: int -> bool)
    requires Lookup(entries, cachedPath).Some?
    ensures var created := Lookup(entries, cachedPath).value.creationTimeUtc;
      var updated := if blob.Present? then blob.lastModified.Some? && blob.lastModified.value > created
                     else head.Some? && head.value > created;
      Freshness(entries, cachedPath, StoredTime(blob), isExpired, UpdateCheck(blob, head)).isNewOrUpdated <==>
        (isExpired(created) || updated)
  {
    var image := Lookup(entries, cachedPath).value;
    assert LazyFill(entries, cachedPath, StoredTime(blob)) == Fill(entries, Some(image));
    assert UpdateCheck(blob, head)(image.creationTimeUtc) == BlobUpdated(blob, head, image.creationTimeUtc);
  }

  /**
   * Cancelled or not, what a sweep deletes is a prefix of the names of the
   * deletable blobs in order; never cancelled, it deletes all of them.
   */
  lemma {:induction false} AzureSweepRule(blobs: seq<BlobItem>, checks: nat, budget: nat, isExpired: int -> bool)
    ensures var s := AzureSweep(blobs, checks, budget, isExpired);
      var all := Names(Candidates(blobs, isExpired));
      && |s.deleted| <= |all| && s.deleted == all[..|s.deleted|]
      && (checks + |blobs| <= budget ==> s.deleted == all)
    decreases |blobs|
  {
    if blobs != [] && checks < budget {
      AzureSweepRule(blobs[1..], checks + 1, budget, isExpired);
      if Deletable(blobs[0], isExpired) {
        var rest := AzureSweep(blobs[1..], checks + 1, budget, isExpired);
        var tail := Names(Candidates(blobs[1..], isExpired));
        assert Names(Candidates(blobs, isExpired)) == [blobs[0].name] + tail by {
          NamesOfCons(blobs[0], Candidates(blobs[1..], isExpired));
        }
        assert ([blobs[0].name] + tail)[..|rest.deleted| + 1] == [blobs[0].name] + tail[..|rest.deleted|];
      }
    }
  }

  lemma NamesOfCons(b: BlobItem, blobs: seq<BlobItem>)
    ensures Names([b] + blobs) == [b.name] + Names(blobs)
  {
    assert ([b] + blobs)[1..] == blobs;
  }

  /** Only cached images are deleted: every deleted name carries the prefix. */
  lemma OnlyCachedImagesDeleted(blobs: seq<BlobItem>, checks: nat, budget: nat, isExpired: int -> bool)
    ensures forall n :: n in AzureSweep(blobs, checks, budget, isExpired).deleted ==> Contains(n, Prefix)
  {
    var s := AzureSweep(blobs, checks, budget, isExpired);
    var c := Candidates(blobs, isExpired);
    AzureSweepRule(blobs, checks, budget, isExpired);
    forall n | n in s.deleted ensures Contains(n, Prefix) {
      var k :| 0 <= k < |s.deleted| && s.deleted[k] == n;
      assert Names(c)[k] == c[k].name;
      assert c[k] in c;
    }
  }

  /**
   * Redirect mode sends the browser to the signed blob URL exactly when its
   * HEAD request answers, and otherwise to the cached path or nowhere.
   */
  lemma AzureRedirectRule(cachedPath: string, blobWithSas: string, probe: Probe)
    requires cachedPath != blobWithSas
    ensures AzureRedirect(cachedPath, blobWithSas, probe) == RedirectTo(blobWithSas) <==> probe.Answered?
    ensures probe == Failed(None) ==> AzureRedirect(cachedPath, blobWithSas, probe) == RedirectTo(cachedPath)
    ensures probe.Failed? && probe.errorResponse.Some? ==>
      (AzureRedirect(cachedPath, blobWithSas, probe) == RedirectTo(cachedPath) <==>
         probe.errorResponse.value.statusCode == 304
         || ToLower(probe.errorResponse.value.responseUri) == ToLower(cachedPath))
    ensures AzureRedirect(cachedPath, blobWithSas, probe).RedirectTo? ==>
      AzureRedirect(cachedPath, blobWithSas, probe).url in {blobWithSas, cachedPath}
  {
  }

  /**
   * Every request goes to the signed URL of the checked blob; stream mode
   * clears the response's headers before copying, and accepts an error
   * response that comes from the cached path.
   */
  lemma AzureRewriteRule(cache: AzureBlobCache, requestHeaders: map<string, string>, parse: string -> Option<int>,
                         sas: string -> string, probe: Probe)
    requires cache.cachedPath.Some? && cache.blobPath.Some?
    ensures var r := cache.RewritePath(requestHeaders, parse, sas, probe);
      && r.Ok? && r.value.target == sas(cache.blobPath.value)
      && (cache.streamCachedImage <==> r.value.Streaming?)
      && (r.value.Streaming? ==>
            && r.value.request.timeout == cache.timeout
            && (r.value.streamed.Streamed? ==> r.value.streamed.clearedHeaders)
            && (r.value.streamed.LoggedOnly? <==> Accepted(probe, cache.cachedPath.value).None?))
  {
  }

  /** The upload goes to the blob the check looked at, with the browser's max-age. */
  lemma UploadTargetsCheckedBlob(cache: AzureBlobCache, contentType: string, browserMaxDays: int, assemblyVersion: string)
    requires cache.blobPath.Some? && 0 <= browserMaxDays <= 24855
    ensures var r := cache.AddImageToCache(contentType, browserMaxDays, assemblyVersion);
      && r == Ok(r.value) && r.value.blob == cache.blobPath.value
      && r.value.cacheControl == "public, max-age=" + IntToString(browserMaxDays * 86400)
  {
    CacheControlRule(browserMaxDays);
  }
}
