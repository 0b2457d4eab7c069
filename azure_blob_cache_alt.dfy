/**
 * `AzureBlobCacheAlt` (src/ImageProcessor.Web.Episerver.Azure/AzureBlobCacheAlt.cs):
 * cached images are block blobs named `<container>/3p!_<file>` in the
 * Episerver blob container, served through a CDN root by redirect or by
 * streaming.  The storage SDK's answers, the local file system, the web
 * requests and the clock are parameters.
 */
module AzureBlobCachesAlt {
  import opened Wrappers
  import opened Text
  import opened CacheIndex
  import opened Sorting
  import opened Cancellation
  import opened AzureBlobs
  import FileBlobCaches

  /** `cachedCdnRoot`: the "CachedCDNRoot" setting, else the container URI with the container name's characters trimmed from its end. */
  function CdnRoot(settings: map<string, string>, containerUri: string, containerName: string): string
  {
    if "CachedCDNRoot" in settings then settings["CachedCDNRoot"]
    else TrimEnd(containerUri, set c | c in containerName)
  }

  /** `cachedRewritePath`: the CDN root, with the container combined in when "UseCachedContainerInUrl" is set and not `false`, then the request path. */
  function RewriteTarget(settings: map<string, string>, cdnRoot: string, container: string, requestPath: string): string
  {
    (if SettingIsNotFalse(settings, "UseCachedContainerInUrl") then FileBlobCaches.Combine(cdnRoot, container) else cdnRoot)
    + requestPath
  }

  /** `CachedPath`: the container URI, the container and the cached file name, `/`-separated. */
  function CachedPathOf(containerUri: string, container: string, cachedFileName: string): string
  {
    containerUri + "/" + container + "/" + cachedFileName
  }

  /** `blobPath`: the blob's name inside the container. */
  function BlobPathOf(container: string, cachedFileName: string): string
  {
    container + "/" + cachedFileName
  }

  /**
   * The fill of this cache: when the cached path is a local file, an image
   * with the file's creation time is recorded whatever the index held;
   * otherwise the lazy fill from the blob's last-modified time.
   */
  function AltFill(entries: map<string, CachedImage>, cachedPath: string, localFile: Option<int>, stored: Option<int>): Fill
  {
    match localFile
    case Some(t) =>
      var image := Recorded(cachedPath, t);
      Fill(entries[image.key := image], Some(image))
    case None => LazyFill(entries, cachedPath, stored)
  }

  /** `IsNewOrUpdatedAsync` from the lookup on: this cache's fill, then the decision. */
  function AltFreshness(entries: map<string, CachedImage>, cachedPath: string, localFile: Option<int>, stored: Option<int>,
                        isExpired: int -> bool, isUpdated: int -> bool): Check
  {
    var fill := AltFill(entries, cachedPath, localFile, stored);
    Decide(fill.entries, cachedPath, fill.image, isExpired, isUpdated)
  }

  /** `uri.GetLeftPart(UriPartial.Path)`: the text before any query or fragment. */
  function LeftPart(uri: string): (r: string)
    ensures |r| <= |uri| && r == uri[..|r|]
    ensures forall i :: 0 <= i < |r| ==> r[i] != '?' && r[i] != '#'
  {
    if uri == [] || uri[0] == '?' || uri[0] == '#' then [] else [uri[0]] + LeftPart(uri[1..])
  }

  /**
   * The prefix a trim lists: nothing when `FolderDepth` is not positive,
   * else the first two characters of the cached path after the container
   * URI and its slash.  A null cached path or one too short throws.
   */
  function TrimPrefix(folderDepth: int, cachedPath: Option<string>, containerUri: string): Result<string, Error>
  {
    if folderDepth <= 0 then Ok("")
    else if cachedPath.None? then Err(ArgumentNull)
    else
      var left := LeftPart(cachedPath.value);
      if |left| < |containerUri| + 1 then Err(ArgumentOutOfRange)
      else
        var path := left[|containerUri| + 1..];
        if |path| < 2 then Err(ArgumentOutOfRange) else Ok(path[..2])
  }

  /**
   * The delete loop of a trim over the blobs oldest first, as the source
   * writes it: it stops at a cancelled check or at the first blob with a
   * last-modified time that has not expired; every other blob leaves the
   * index and is deleted, whatever its name.
   */
  function AltSweep(blobs: seq<BlobItem>, checks: nat, budget: nat, isExpired: int -> bool): BlobSweep
    decreases |blobs|
  {
    if blobs == [] then BlobSweep([], checks)
    else if checks >= budget || DatedUnexpired(blobs[0], isExpired) then BlobSweep([], checks + 1)
    else
      var rest := AltSweep(blobs[1..], checks + 1, budget, isExpired);
      BlobSweep([blobs[0].name] + rest.deleted, rest.checks)
  }

  /**
   * The delete loop as evidently intended: the stops of the loop as
   * written, with the `3p!_` test that `AzureBlobCache` makes added, so
   * that blobs which are not cached images are passed over.  It keeps the
   * stop at the first dated unexpired blob, where `AzureBlobCache` passes
   * over such a blob and goes on.
   */
  function CorrectedAltSweep(blobs: seq<BlobItem>, checks: nat, budget: nat, isExpired: int -> bool): BlobSweep
    decreases |blobs|
  {
    if blobs == [] then BlobSweep([], checks)
    else if checks >= budget || DatedUnexpired(blobs[0], isExpired) then BlobSweep([], checks + 1)
    else if !Contains(blobs[0].name, Prefix) then CorrectedAltSweep(blobs[1..], checks + 1, budget, isExpired)
    else
      var rest := CorrectedAltSweep(blobs[1..], checks + 1, budget, isExpired);
      BlobSweep([blobs[0].name] + rest.deleted, rest.checks)
  }

  /**
   * Redirect mode: to the cached path at once when it is the rewrite path;
   * else after a HEAD request to the rewrite path, to the rewrite path when
   * it answers or fails with an accepted response, to the cached path when
   * it fails without one, and nowhere (a log line) otherwise.
   */
  function AltRedirect(cachedPath: string, target: string, probe: Probe): Redirected
  {
    if cachedPath == target then RedirectTo(cachedPath)
    else
      match probe
      case Answered(_) => RedirectTo(target)
      case Failed(None) => RedirectTo(cachedPath)
      case Failed(Some(_)) => if Accepted(probe, target).Some? then RedirectTo(target) else RedirectLogged
  }

  /** The metadata value an upload carries. */
  function ProcessedBy(assemblyVersion: string): string
  {
    "ImageProcessor.Web.Episerver/" + assemblyVersion
  }

  class AzureBlobCacheAlt {
    const requestPath: string
    const fullPath: string
    const querystring: string
    /** The cache's settings from configuration. */
    const settings: map<string, string>
    /** `cloudCachedBlobContainer.Uri` */
    const containerUri: string
    const cachedCdnRoot: string
    const timeout: int
    const streamCachedImage: bool
    /** The base class's `TrimCache` and `FolderDepth` settings. */
    const trimCache: bool
    const folderDepth: int
    /** `CachedPath`, `cachedRewritePath` and `blobPath`; `None` until a check sets them. */
    var cachedPath: Option<string>
    var cachedRewritePath: Option<string>
    var blobPath: Option<string>

    /** `containerName` is `cloudCachedBlobContainer.Name`. */
    constructor (requestPath: string, fullPath: string, querystring: string, settings: map<string, string>,
                 containerUri: string, containerName: string, trimCache: bool, folderDepth: int)
      ensures this.requestPath == requestPath && this.fullPath == fullPath && this.querystring == querystring
      ensures this.settings == settings && this.containerUri == containerUri
      ensures this.trimCache == trimCache && this.folderDepth == folderDepth
      ensures cachedCdnRoot == CdnRoot(settings, containerUri, containerName)
      ensures timeout == Timeout(settings, "CachedCDNTimeout")
      ensures streamCachedImage == SettingIsTrue(settings, "StreamCachedImage")
      ensures cachedPath.None? && cachedRewritePath.None? && blobPath.None?
    {
      this.requestPath := requestPath;
      this.fullPath := fullPath;
      this.querystring := querystring;
      this.settings := settings;
      this.containerUri := containerUri;
      this.trimCache := trimCache;
      this.folderDepth := folderDepth;
      cachedCdnRoot := CdnRoot(settings, containerUri, containerName);
      timeout := Timeout(settings, "CachedCDNTimeout");
      streamCachedImage := SettingIsTrue(settings, "StreamCachedImage");
      cachedPath := None;
      cachedRewritePath := None;
      blobPath := None;
    }

    /**
     * `IsNewOrUpdatedAsync`.  `name` is what `CreateCachedFileNameAsync`
     * returns, `segments` the routed media's container segments, `localFile`
     * the creation time of a local file at a path (when the path is a file
     * URI and the file exists), `stored` the last-modified time of an
     * existing blob, `source` where the request path leads.
     */
    method IsNewOrUpdated(index: CacheIndexer, name: string, segments: Option<seq<string>>,
                          localFile: string -> Option<int>, stored: string -> Option<int>,
                          isExpired: int -> bool, source: Source)
      returns (r: Result<bool, Error>)
      modifies this, index
      ensures ContainerName(segments).Err? ==>
        r == Err(IndexOutOfRange) && index.entries == old(index.entries) && cachedPath == old(cachedPath)
        && cachedRewritePath == old(cachedRewritePath) && blobPath == old(blobPath)
      ensures ContainerName(segments).Ok? ==>
        var container := ContainerName(segments).value;
        var file := Prefix + name;
        var path := CachedPathOf(containerUri, container, file);
        var c := AltFreshness(old(index.entries), path, localFile(path), stored(BlobPathOf(container, file)),
                              isExpired, t => SourceUpdated(source, t));
        && blobPath == Some(BlobPathOf(container, file))
        && cachedPath == Some(path)
        && cachedRewritePath == Some(RewriteTarget(settings, cachedCdnRoot, container, requestPath))
        && r == Ok(c.isNewOrUpdated)
        && index.entries == c.entries
    {
      var container := ContainerName(segments);
      if container.Err? {
        return Err(container.error);
      }
      var file := Prefix + name;
      blobPath := Some(BlobPathOf(container.value, file));
      var path := CachedPathOf(containerUri, container.value, file);
      cachedPath := Some(path);
      cachedRewritePath := Some(RewriteTarget(settings, cachedCdnRoot, container.value, requestPath));
      BlobOfCachedPath(containerUri, container.value, file);
      var image := FillIndex(index, path, localFile(path), stored(path[|containerUri| + 1..]));
      var isNew, kept := ApplyDecision(index, path, image, isExpired, t => SourceUpdated(source, t));
      r := Ok(isNew);
    }

    /**
     * `AddImageToCacheAsync`: the blob named by the cached path after the
     * container URI and its slash, with the content type, the browser
     * `Cache-Control` and the "ImageProcessedBy" metadata.
     */
    function AddImageToCache(contentType: string, browserMaxDays: int, assemblyVersion: string): (r: Result<BlobUpload, Error>)
      reads this
      ensures cachedPath.None? ==> r == Err(ArgumentNull)
      ensures cachedPath.Some? ==> (r.Ok? <==> |containerUri| + 1 <= |cachedPath.value|)
      ensures r.Ok? ==>
        && r.value.blob == cachedPath.value[|containerUri| + 1..]
        && r.value.contentType == contentType
        && r.value.metadata == ("ImageProcessedBy", "ImageProcessor.Web.Episerver/" + assemblyVersion)
    {
      if cachedPath.None? then Err(ArgumentNull)
      else if |cachedPath.value| < |containerUri| + 1 then Err(ArgumentOutOfRange)
      else Ok(BlobUpload(cachedPath.value[|containerUri| + 1..], contentType, CacheControl(browserMaxDays),
                         ("ImageProcessedBy", ProcessedBy(assemblyVersion))))
    }

    /**
     * `TrimCacheAsync`, run as the scheduled trimmer would run it:
     * `pagesFor` is what listing the container under a prefix returns,
     * segment by segment; the result is the names deleted, in order.
     */
    method TrimCache(index: CacheIndexer, token: CancellationToken, pagesFor: string -> seq<seq<BlobItem>>,
                     isExpired: int -> bool) returns (r: Result<seq<string>, Error>)
      modifies index, token
      ensures !trimCache ==> r == Ok([]) && index.entries == old(index.entries) && token.checks == old(token.checks)
      ensures trimCache && TrimPrefix(folderDepth, cachedPath, containerUri).Err? ==>
        r == Err(TrimPrefix(folderDepth, cachedPath, containerUri).error)
        && index.entries == old(index.entries) && token.checks == old(token.checks)
      ensures trimCache && TrimPrefix(folderDepth, cachedPath, containerUri).Ok? ==>
        var listing := Listing(pagesFor(TrimPrefix(folderDepth, cachedPath, containerUri).value), 0, old(token.checks), token.budget);
        var s := AltSweep(ByAge(listing.0), listing.1, token.budget, isExpired);
        r == Ok(s.deleted) && index.entries == old(index.entries) - KeysOf(s.deleted) && token.checks == s.checks
    {
      if !trimCache {
        return Ok([]);
      }
      var parent := TrimPrefix(folderDepth, cachedPath, containerUri);
      if parent.Err? {
        return Err(parent.error);
      }
      var results := ListBlobs(token, pagesFor(parent.value));
      var deleted := SweepBlobs(index, token, ByAge(results), isExpired);
      r := Ok(deleted);
    }

    /**
     * `RewritePath`.  `probe` is how the request the mode sends ends: the
     * GET of stream mode, the HEAD of redirect mode; `parse` is
     * `DateTime.TryParse`.  A null rewrite path makes the request throw.
     */
    function RewritePath(requestHeaders: map<string, string>, parse: string -> Option<int>, probe: Probe): Result<Rewrite, Error>
      reads this
    {
      if cachedRewritePath.None? || cachedPath.None? then Err(ArgumentNull)
      else
        var target := cachedRewritePath.value;
        if streamCachedImage then
          Ok(Streaming(target, PrepareStreamRequest(requestHeaders, parse, timeout), StreamResponse(probe, target, false)))
        else Ok(Redirecting(target, AltRedirect(cachedPath.value, target, probe)))
    }
  }

  /**
   * The lookup and fill against the index: `Get`, then `Add` of the local
   * file's image, then, when there is still no image, `Add` of the blob's.
   */
  method FillIndex(index: CacheIndexer, cachedPath: string, localFile: Option<int>, stored: Option<int>)
    returns (image: Option<CachedImage>)
    modifies index
    ensures Fill(index.entries, image) == AltFill(old(index.entries), cachedPath, localFile, stored)
  {
    image := index.Get(cachedPath);
    if localFile.Some? {
      image := Some(Recorded(cachedPath, localFile.value));
      index.Add(image.value);
    }
    if image.None? && stored.Some? {
      image := Some(Recorded(cachedPath, stored.value));
      index.Add(image.value);
    }
  }

  /** The delete loop of `TrimCacheAsync`: every blob before the first stop leaves the index and is deleted. */
  method SweepBlobs(index: CacheIndexer, token: CancellationToken, blobs: seq<BlobItem>, isExpired: int -> bool)
    returns (deleted: seq<string>)
    modifies index, token
    ensures BlobSweep(deleted, token.checks) == AltSweep(blobs, old(token.checks), token.budget, isExpired)
    ensures index.entries == old(index.entries) - KeysOf(deleted)
  {
    ghost var whole := AltSweep(blobs, token.checks, token.budget, isExpired);
    deleted := [];
    var i := 0;
    assert blobs[0..] == blobs;
    while i < |blobs|
      invariant 0 <= i <= |blobs|
      invariant Resumes(blobs, i, deleted, token.checks, token.budget, isExpired, whole)
      invariant index.entries == old(index.entries) - KeysOf(deleted)
      decreases |blobs| - i
    {
      var blob := blobs[i];
      var cancelled := token.IsCancellationRequested();
      if cancelled || DatedUnexpired(blob, isExpired) {
        ResumeStop(blobs, i, deleted, token.checks - 1, token.budget, isExpired, whole);
        return;
      }
      ResumeStep(blobs, i, deleted, token.checks - 1, token.budget, isExpired, whole);
      index.Remove(blob.name);
      RemoveOneMore(old(index.entries), deleted, blob.name);
      deleted := deleted + [blob.name];
      i := i + 1;
    }
    ResumeEnd(blobs, deleted, token.checks, token.budget, isExpired, whole);
  }

  /** The loop has deleted `deleted` and made `checks` checks, and the rest of the sweep from blob `i` completes `whole`. */
  ghost predicate Resumes(blobs: seq<BlobItem>, i: nat, deleted: seq<string>, checks: nat, budget: nat,
                          isExpired: int -> bool, whole: BlobSweep)
  {
    i <= |blobs| &&
    var rest := AltSweep(blobs[i..], checks, budget, isExpired);
    BlobSweep(deleted + rest.deleted, rest.checks) == whole
  }

  lemma ResumeStep(blobs: seq<BlobItem>, i: nat, deleted: seq<string>, checks: nat, budget: nat,
                   isExpired: int -> bool, whole: BlobSweep)
    requires Resumes(blobs, i, deleted, checks, budget, isExpired, whole) && i < |blobs|
    requires checks < budget && !DatedUnexpired(blobs[i], isExpired)
    ensures Resumes(blobs, i + 1, deleted + [blobs[i].name], checks + 1, budget, isExpired, whole)
  {
    assert blobs[i..][0] == blobs[i] && blobs[i..][1..] == blobs[i + 1..];
    var rest := AltSweep(blobs[i + 1..], checks + 1, budget, isExpired);
    assert deleted + ([blobs[i].name] + rest.deleted) == (deleted + [blobs[i].name]) + rest.deleted;
  }

  lemma ResumeStop(blobs: seq<BlobItem>, i: nat, deleted: seq<string>, checks: nat, budget: nat,
                   isExpired: int -> bool, whole: BlobSweep)
    requires Resumes(blobs, i, deleted, checks, budget, isExpired, whole) && i < |blobs|
    requires checks >= budget || DatedUnexpired(blobs[i], isExpired)
    ensures BlobSweep(deleted, checks + 1) == whole
  {
    assert blobs[i..][0] == blobs[i];
    assert deleted + [] == deleted;
  }

  lemma ResumeEnd(blobs: seq<BlobItem>, deleted: seq<string>, checks: nat, budget: nat,
                  isExpired: int -> bool, whole: BlobSweep)
    requires Resumes(blobs, |blobs|, deleted, checks, budget, isExpired, whole)
    ensures BlobSweep(deleted, checks) == whole
  {
    assert blobs[|blobs|..] == [];
    assert deleted + [] == deleted;
  }

  // ---------------------------------------------------------------------------------------------
  // Properties

  /** The blob an existing cached path names is the blob path it was made from. */
  lemma BlobOfCachedPath(containerUri: string, container: string, cachedFileName: string)
    ensures |containerUri| + 1 <= |CachedPathOf(containerUri, container, cachedFileName)|
    ensures CachedPathOf(containerUri, container, cachedFileName)[|containerUri| + 1..] == BlobPathOf(container, cachedFileName)
  {
    var path := CachedPathOf(containerUri, container, cachedFileName);
    assert path == containerUri + "/" + BlobPathOf(container, cachedFileName);
  }

  /** Without a local file the fill is the lazy fill every cache performs. */
  lemma AltFreshnessWithoutFile(entries: map<string, CachedImage>, cachedPath: string, stored: Option<int>,
                                isExpired: int -> bool, isUpdated: int -> bool)
    ensures AltFreshness(entries, cachedPath, None, stored, isExpired, isUpdated) == Freshness(entries, cachedPath, stored, isExpired, isUpdated)
  {
  }

  /**
   * With a local file, its creation time decides whatever the index held,
   * and the index then holds the file's image unless it is stale.
   */
  lemma AltFreshnessWithFile(entries: map<string, CachedImage>, cachedPath: string, t: int, stored: Option<int>,
                             isExpired: int -> bool, isUpdated: int -> bool)
    ensures var c := AltFreshness(entries, cachedPath, Some(t), stored, isExpired, isUpdated);
      var key := FileNameWithoutExtension(cachedPath);
      && (c.isNewOrUpdated <==> isExpired(t) || isUpdated(t))
      && (c.isNewOrUpdated ==> c.entries == entries - {key})
      && (!c.isNewOrUpdated ==> c.entries == entries[key := CachedImage(key, cachedPath, t)])
  {
    var key := FileNameWithoutExtension(cachedPath);
    var image := Recorded(cachedPath, t);
    assert entries[key := image] - {key} == entries - {key};
  }

  /**
   * Without "CachedCDNRoot", a container URI that ends in a slash and the
   * container's name gives the CDN root up to that slash.
   */
  lemma {:induction false} CdnRootRule(settings: map<string, string>, base: string, containerName: string)
    requires "CachedCDNRoot" !in settings
    requires '/' !in containerName
    ensures CdnRoot(settings, base + "/" + containerName, containerName) == base + "/"
  {
    var chars := set c | c in containerName;
    assert forall i :: 0 <= i < |containerName| ==> containerName[i] in chars;
    assert (base + "/")[|base + "/"| - 1] == '/';
    TrimEndSuffix(base + "/", containerName, chars);
  }

  lemma {:induction false} TrimEndSuffix(a: string, b: string, chars: set<char>)
    requires forall i :: 0 <= i < |b| ==> b[i] in chars
    requires |a| > 0 && a[|a| - 1] !in chars
    ensures TrimEnd(a + b, chars) == a
    decreases |b|
  {
    if b == [] {
      assert a + b == a;
      assert TrimEnd(a, chars) == a;
    } else {
      var ab := a + b;
      assert ab[|ab| - 1] == b[|b| - 1];
      assert ab[..|ab| - 1] == a + b[..|b| - 1];
      TrimEndSuffix(a, b[..|b| - 1], chars);
    }
  }

  /**
   * The rewrite path: with "UseCachedContainerInUrl" absent or `false`, the
   * CDN root and the request path; otherwise the container comes between,
   * directly after a root that ends in a slash.
   */
  lemma RewriteTargetRule(settings: map<string, string>, cdnRoot: string, container: string, requestPath: string)
    requires cdnRoot != "" && cdnRoot[|cdnRoot| - 1] == '/' && container != "" && !FileBlobCaches.IsPathRooted(container)
    ensures "UseCachedContainerInUrl" !in settings ==> RewriteTarget(settings, cdnRoot, container, requestPath) == cdnRoot + requestPath
    ensures SettingIsNotFalse(settings, "UseCachedContainerInUrl") ==>
      RewriteTarget(settings, cdnRoot, container, requestPath) == cdnRoot + container + requestPath
  {
  }

  /** With folders in use, a trim lists the blobs whose names start as the cached image's container does. */
  lemma TrimPrefixRule(folderDepth: int, containerUri: string, container: string, cachedFileName: string)
    requires folderDepth > 0 && |container| >= 2
    requires '?' !in containerUri + container + cachedFileName && '#' !in containerUri + container + cachedFileName
    ensures TrimPrefix(folderDepth, Some(CachedPathOf(containerUri, container, cachedFileName)), containerUri) == Ok(container[..2])
  {
    var path := CachedPathOf(containerUri, container, cachedFileName);
    assert forall i :: 0 <= i < |path| ==> path[i] != '?' && path[i] != '#' by {
      forall i | 0 <= i < |path| ensures path[i] != '?' && path[i] != '#' {
        if i < |containerUri| {
          assert path[i] == (containerUri + container + cachedFileName)[i];
        } else if i == |containerUri| {
        } else if i < |containerUri| + 1 + |container| {
          assert path[i] == (containerUri + container + cachedFileName)[i - 1];
        } else if i == |containerUri| + 1 + |container| {
        } else {
          assert path[i] == (containerUri + container + cachedFileName)[i - 2];
        }
      }
    }
    NoQueryLeftPart(path);
    BlobOfCachedPath(containerUri, container, cachedFileName);
    assert (container + "/" + cachedFileName)[..2] == container[..2];
  }

  lemma {:induction false} NoQueryLeftPart(uri: string)
    requires forall i :: 0 <= i < |uri| ==> uri[i] != '?' && uri[i] != '#'
    ensures LeftPart(uri) == uri
  {
    if uri != [] {
      NoQueryLeftPart(uri[1..]);
    }
  }

  /** What a sweep deletes, cancelled or not, is the names of a prefix of the blobs. */
  lemma {:induction false} AltSweepDeletesPrefix(blobs: seq<BlobItem>, checks: nat, budget: nat,
                                                 isExpired: int -> bool)
    ensures var s := AltSweep(blobs, checks, budget, isExpired);
      |s.deleted| <= |blobs| && s.deleted == Names(blobs[..|s.deleted|])
    decreases |blobs|
  {
    if blobs != [] && checks < budget && !DatedUnexpired(blobs[0], isExpired) {
      AltSweepDeletesPrefix(blobs[1..], checks + 1, budget, isExpired);
      var rest := AltSweep(blobs[1..], checks + 1, budget, isExpired);
      var pre := blobs[..|rest.deleted| + 1];
      assert pre[0] == blobs[0] && pre[1..] == blobs[1..][..|rest.deleted|];
      NamesOfTail(pre);
    }
  }

  /**
   * None of the blobs a sweep deletes is dated and unexpired; uncancelled,
   * it stops only at the end or at a dated unexpired blob.
   */
  lemma {:induction false} AltSweepStops(blobs: seq<BlobItem>, checks: nat, budget: nat,
                                         isExpired: int -> bool)
    ensures var s := AltSweep(blobs, checks, budget, isExpired);
      && |s.deleted| <= |blobs|
      && (forall i :: 0 <= i < |s.deleted| ==> !DatedUnexpired(blobs[i], isExpired))
      && (checks + |blobs| <= budget && |s.deleted| < |blobs| ==> DatedUnexpired(blobs[|s.deleted|], isExpired))
    decreases |blobs|
  {
    if blobs != [] && checks < budget && !DatedUnexpired(blobs[0], isExpired) {
      AltSweepStops(blobs[1..], checks + 1, budget, isExpired);
      assert forall i :: 0 < i < |blobs| ==> blobs[i] == blobs[1..][i - 1];
    }
  }

  /**
   * With the blobs oldest first and an expiry rule that expires anything
   * older than an expired time, an uncancelled sweep leaves no blob that
   * has a last-modified time and has expired.
   */
  lemma NoExpiredBlobSurvives(blobs: seq<BlobItem>, checks: nat, budget: nat,
                              isExpired: int -> bool)
    requires SortedBy(blobs, LastModifiedOrMin) && MonotoneExpiry(isExpired)
    requires checks + |blobs| <= budget
    ensures var s := AltSweep(blobs, checks, budget, isExpired);
      forall j :: |s.deleted| <= j < |blobs| && blobs[j].BlockBlob? && blobs[j].lastModified.Some? ==>
        !isExpired(blobs[j].lastModified.value)
  {
    var s := AltSweep(blobs, checks, budget, isExpired);
    AltSweepStops(blobs, checks, budget, isExpired);
    var m := |s.deleted|;
    forall j | m <= j < |blobs| && blobs[j].BlockBlob? && blobs[j].lastModified.Some?
      ensures !isExpired(blobs[j].lastModified.value)
    {
      var t := blobs[m].lastModified.value;
      SortedOrdered(blobs, LastModifiedOrMin, m, j);
      assert !isExpired(t) && t <= blobs[j].lastModified.value;
    }
  }

  /**
   * As written, the sweep deletes any expired blob the listing returned,
   * such as an Episerver media blob of the same container whose name has
   * no "3p!_" prefix.
   */
  lemma SweepDeletesMediaBlob()
    ensures var s := AltSweep([BlockBlob("0a1b/photo.jpg", Some(1))], 0, 5, t => true);
      s.deleted == ["0a1b/photo.jpg"] && !Contains("0a1b/photo.jpg", Prefix)
  {
    var blobs := [BlockBlob("0a1b/photo.jpg", Some(1))];
    assert blobs[1..] == [];
    assert '3' !in "0a1b/photo.jpg";
    FirstCharMissing("0a1b/photo.jpg", Prefix);
  }

  /** A text without the first character of `sub` does not contain it. */
  lemma {:induction false} FirstCharMissing(s: string, sub: string)
    requires |sub| > 0 && sub[0] !in s
    ensures !Contains(s, sub)
    decreases |s|
  {
    if |s| > 0 {
      assert s[1..] == s[1..] && forall c :: c in s[1..] ==> c in s;
      FirstCharMissing(s[1..], sub);
    }
  }

  /**
   * The sweep as evidently intended deletes only cached images: every name
   * it deletes carries the prefix and is the name of a listed blob.
   */
  lemma {:induction false} CorrectedSweepRule(blobs: seq<BlobItem>, checks: nat, budget: nat,
                                              isExpired: int -> bool)
    ensures var s := CorrectedAltSweep(blobs, checks, budget, isExpired);
      forall n :: n in s.deleted ==> Contains(n, Prefix) && n in Names(blobs)
    decreases |blobs|
  {
    if blobs != [] && checks < budget && !DatedUnexpired(blobs[0], isExpired) {
      CorrectedSweepRule(blobs[1..], checks + 1, budget, isExpired);
      NamesOfTail(blobs);
    }
  }

  lemma NamesOfTail(blobs: seq<BlobItem>)
    requires blobs != []
    ensures Names(blobs) == [blobs[0].name] + Names(blobs[1..])
  {
  }

  /** The names that carry the cached-image prefix, in order. */
  function WithPrefix(names: seq<string>): (r: seq<string>)
    ensures forall n :: n in r <==> n in names && Contains(n, Prefix)
  {
    if names == [] then []
    else
      assert forall n :: n in names <==> n == names[0] || n in names[1..];
      (if Contains(names[0], Prefix) then [names[0]] else []) + WithPrefix(names[1..])
  }

  /**
   * The corrected loop stops where the loop as written stops, after the
   * same checks, and deletes exactly the cached images among what the loop
   * as written deletes.
   */
  lemma {:induction false} CorrectedSweepAgrees(blobs: seq<BlobItem>, checks: nat, budget: nat,
                                                isExpired: int -> bool)
    ensures var s := AltSweep(blobs, checks, budget, isExpired);
      CorrectedAltSweep(blobs, checks, budget, isExpired) == BlobSweep(WithPrefix(s.deleted), s.checks)
    decreases |blobs|
  {
    if blobs != [] && checks < budget && !DatedUnexpired(blobs[0], isExpired) {
      CorrectedSweepAgrees(blobs[1..], checks + 1, budget, isExpired);
      var rest := AltSweep(blobs[1..], checks + 1, budget, isExpired);
      var names := [blobs[0].name] + rest.deleted;
      assert names[0] == blobs[0].name && names[1..] == rest.deleted;
    }
  }

  /**
   * With the blobs oldest first and a monotone expiry, an uncancelled
   * corrected trim deletes every cached image that has a last-modified time
   * and has expired.
   */
  lemma NoExpiredCachedImageSurvives(blobs: seq<BlobItem>, checks: nat, budget: nat, isExpired: int -> bool)
    requires SortedBy(blobs, LastModifiedOrMin) && MonotoneExpiry(isExpired)
    requires checks + |blobs| <= budget
    ensures forall j :: 0 <= j < |blobs| && blobs[j].BlockBlob? && blobs[j].lastModified.Some?
                        && isExpired(blobs[j].lastModified.value) && Contains(blobs[j].name, Prefix) ==>
      blobs[j].name in CorrectedAltSweep(blobs, checks, budget, isExpired).deleted
  {
    var s := AltSweep(blobs, checks, budget, isExpired);
    NoExpiredBlobSurvives(blobs, checks, budget, isExpired);
    AltSweepDeletesPrefix(blobs, checks, budget, isExpired);
    CorrectedSweepAgrees(blobs, checks, budget, isExpired);
    forall j | 0 <= j < |blobs| && blobs[j].BlockBlob? && blobs[j].lastModified.Some?
               && isExpired(blobs[j].lastModified.value) && Contains(blobs[j].name, Prefix)
      ensures blobs[j].name in WithPrefix(s.deleted)
    {
      assert j < |s.deleted|;
      assert s.deleted[j] == blobs[..|s.deleted|][j].name;
    }
  }

  /**
   * Redirect mode sends the browser to the rewrite path or the cached path
   * and nowhere else; it does so without consulting any answer when the
   * two are equal.
   */
  lemma AltRedirectRule(cachedPath: string, target: string, probe: Probe)
    ensures AltRedirect(cachedPath, target, probe).RedirectTo? ==>
      AltRedirect(cachedPath, target, probe).url == target || AltRedirect(cachedPath, target, probe).url == cachedPath
    ensures cachedPath == target ==> AltRedirect(cachedPath, target, probe) == RedirectTo(cachedPath)
    ensures cachedPath != target ==>
      && (probe.Answered? ==> AltRedirect(cachedPath, target, probe) == RedirectTo(target))
      && (probe == Failed(None) ==> AltRedirect(cachedPath, target, probe) == RedirectTo(cachedPath))
      && (probe.Failed? && probe.errorResponse.Some? ==>
            (AltRedirect(cachedPath, target, probe) == RedirectTo(target) <==>
               probe.errorResponse.value.statusCode == 304
               || ToLower(probe.errorResponse.value.responseUri) == ToLower(target)))
  {
  }

  /**
   * Stream mode requests the rewrite path, accepts an error response from
   * it, and leaves the response's other headers in place.
   */
  lemma AltRewriteRule(cache: AzureBlobCacheAlt, requestHeaders: map<string, string>, parse: string -> Option<int>, probe: Probe)
    requires cache.cachedPath.Some? && cache.cachedRewritePath.Some?
    ensures var r := cache.RewritePath(requestHeaders, parse, probe);
      && r.Ok? && r.value.target == cache.cachedRewritePath.value
      && (cache.streamCachedImage <==> r.value.Streaming?)
      && (r.value.Streaming? ==>
            && r.value.request.timeout == cache.timeout
            && r.value.request.headers == ForwardedHeaders(requestHeaders)
            && (r.value.streamed.Streamed? ==> !r.value.streamed.clearedHeaders)
            && (r.value.streamed.LoggedOnly? <==> Accepted(probe, cache.cachedRewritePath.value).None?))
  {
  }

  /** An upload after a check goes to the blob the check looked at, with the browser's max-age. */
  lemma UploadTargetsCheckedBlob(cache: AzureBlobCacheAlt, container: string, cachedFileName: string, contentType: string,
                                 browserMaxDays: int, assemblyVersion: string)
    requires cache.cachedPath == Some(CachedPathOf(cache.containerUri, container, cachedFileName))
    requires 0 <= browserMaxDays <= 24855
    ensures var r := cache.AddImageToCache(contentType, browserMaxDays, assemblyVersion);
      && r.Ok? && r.value.blob == BlobPathOf(container, cachedFileName)
      && r.value.cacheControl == "public, max-age=" + IntToString(browserMaxDays * 86400)
  {
    BlobOfCachedPath(cache.containerUri, container, cachedFileName);
    CacheControlRule(browserMaxDays);
  }
}
