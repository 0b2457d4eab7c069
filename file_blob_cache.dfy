/**
 * `FileBlobCache` (src/ImageProcessor.Web.Episerver/FileBlobCache.cs): the
 * image cache kept in the folders of Episerver's file blob provider.  The
 * cache keeps its paths and the cached image's creation time in fields; the
 * file system, the routed media, the web request and the host's clock are
 * parameters.  Times are ticks; `CacheIndex.MinValue` is `DateTime.MinValue`.
 */
module FileBlobCaches {
  import opened Wrappers
  import opened Text
  import opened CacheIndex
  import opened Sorting
  import opened Cancellation

  datatype Error =
    | NullReference          // the routed content is not a binary
    | IndexOutOfRange        // its container URI has fewer than two segments
    | ArgumentException      // a blank extension, or `Replace` with an empty pattern
    | ArgumentOutOfRange     // `ToFileTime` of a time before 1601
    | ConfigurationErrors    // the configured cache folder is unusable

  /** `blob.BinaryDataContainer.Segments[1]`, without the null checks `BlobCache` has. */
  function BlobFolder(segments: Option<seq<string>>): (r: Result<string, Error>)
    ensures r.Ok? <==> segments.Some? && |segments.value| >= 2
    ensures r.Ok? ==> r.value == segments.value[1]
    ensures segments.None? ==> r == Err(NullReference)
  {
    match segments
    case None => Err(NullReference)
    case Some(s) => if |s| < 2 then Err(IndexOutOfRange) else Ok(s[1])
  }

  // ---------------------------------------------------------------------------------------------
  // Paths

  /** `Path.IsPathRooted`: a leading separator or a drive letter. */
  predicate IsPathRooted(p: string)
  {
    (|p| >= 1 && (p[0] == '\\' || p[0] == '/')) || (|p| >= 2 && p[1] == ':')
  }

  /** `Path.Combine(a, b)` */
  function Combine(a: string, b: string): string
  {
    if b == "" then a
    else if a == "" || IsPathRooted(b) then b
    else if IsSeparator(a[|a| - 1]) then a + b
    else a + "\\" + b
  }

  /** The `/`-joined virtual path of the cached file, every `//` made `/` in one pass. */
  function VirtualCachedFilePath(virtualCachePath: string, blobFolder: string, name: string): string
  {
    Replace(Join("/", [virtualCachePath, blobFolder, name]), "//", "/")
  }

  /** `"~/" + BasePath + "/blobs"`, the folder the constructor validates. */
  function ConfiguredPath(basePath: string): (r: string)
    ensures StartsWith(r, "~/") && EndsWith(r, "/blobs")
    ensures |r| == |basePath| + 8 && r[2..|r| - 6] == basePath
  {
    "~/" + basePath + "/blobs"
  }

  /** The virtual path the constructor keeps: the validated one when it is not blank, else the absolute one. */
  function ChosenVirtualPath(validatedVirtualCachePath: Option<string>, absoluteCachePath: string): (r: string)
    ensures IsNullOrWhiteSpace(validatedVirtualCachePath) ==> r == absoluteCachePath
    ensures !IsNullOrWhiteSpace(validatedVirtualCachePath) ==> r == validatedVirtualCachePath.value
  {
    if IsNullOrWhiteSpace(validatedVirtualCachePath) then absoluteCachePath else validatedVirtualCachePath.value
  }

  // ---------------------------------------------------------------------------------------------
  // ETag

  /** `DateTime.ToFileTime`: ticks since 1601-01-01, the tick count of that day. */
  const FileTimeEpoch := 504911232000000000

  /** Three seconds in ticks: the age under which the ETag is weak. */
  const WeakWindow := 30000000

  predicate IsHexDigit(c: char)
  {
    '0' <= c <= '9' || 'A' <= c <= 'F'
  }

  /** The digit `0`-`9`, `A`-`F` of a value below 16. */
  function HexDigit(d: nat): (c: char)
    requires d < 16
    ensures IsHexDigit(c) && HexDigitValue(c) == d
  {
    if d < 10 then ('0' as int + d) as char else ('A' as int + d - 10) as char
  }

  function HexDigitValue(c: char): nat
  {
    if '0' <= c <= '9' then c as int - '0' as int
    else if 'A' <= c <= 'F' then c as int - 'A' as int + 10
    else 0
  }

  /** Upper-case hexadecimal digits, most significant first, no leading zeros. */
  function Hex(n: nat): (r: string)
    ensures |r| >= 1
    ensures forall i :: 0 <= i < |r| ==> IsHexDigit(r[i])
    decreases n
  {
    if n < 16 then [HexDigit(n)] else Hex(n / 16) + [HexDigit(n % 16)]
  }

  /** `ToString("X8")`: hexadecimal, padded with zeros to at least 8 digits. */
  function HexX8(n: nat): (r: string)
    ensures |r| >= 8
  {
    var h := Hex(n);
    if |h| >= 8 then h else seq(8 - |h|, _ => '0') + h
  }

  /** The number a string of hexadecimal digits denotes. */
  function HexValue(s: string): nat
  {
    if s == [] then 0 else HexValue(s[..|s| - 1]) * 16 + HexDigitValue(s[|s| - 1])
  }

  /**
   * `GetETag` at the clock reading `now`: no tag before a creation time is
   * known, a weak tag for an image younger than three seconds, a strong one
   * otherwise; `ToFileTime` throws for a time before 1601.
   */
  function ETag(creationTimeUtc: int, now: int): Result<Option<string>, Error>
  {
    if creationTimeUtc == MinValue then Ok(None)
    else if creationTimeUtc < FileTimeEpoch || now < FileTimeEpoch then Err(ArgumentOutOfRange)
    else
      var last := creationTimeUtc - FileTimeEpoch;
      var hex := HexX8(last);
      if (now - FileTimeEpoch) - last <= WeakWindow then Ok(Some("W/\"" + hex + "\""))
      else Ok(Some("\"" + hex + "\""))
  }

  // ---------------------------------------------------------------------------------------------
  // Content type

  /** A format ImageProcessor supports: its mime type and file extensions. */
  datatype ImageFormat = ImageFormat(mimeType: string, fileExtensions: seq<string>)

  const JpegMimeType := "image/jpeg"

  predicate Supports(format: ImageFormat, extension: string)
  {
    exists j :: 0 <= j < |format.fileExtensions| && EqualsIgnoreCase(format.fileExtensions[j], extension)
  }

  /** The index of the first format that lists the extension. */
  function FirstFormat(formats: seq<ImageFormat>, extension: string): (r: Option<nat>)
    ensures r.Some? ==>
      r.value < |formats| && Supports(formats[r.value], extension)
      && forall k :: 0 <= k < r.value ==> !Supports(formats[k], extension)
    ensures r.None? ==> forall k :: 0 <= k < |formats| ==> !Supports(formats[k], extension)
  {
    if |formats| == 0 then None
    else if Supports(formats[0], extension) then Some(0)
    else match FirstFormat(formats[1..], extension)
      case None => None
      case Some(i) => Some(i + 1)
  }

  /** `GetContentTypeForExtension`; `extension` may carry leading dots. */
  function ContentTypeForExtension(extension: Option<string>, formats: seq<ImageFormat>): Result<string, Error>
  {
    if IsNullOrWhiteSpace(extension) then Err(ArgumentException)
    else match FirstFormat(formats, TrimStart(extension.value, {'.'}))
      case Some(i) => Ok(formats[i].mimeType)
      case None => Ok(JpegMimeType)
  }

  // ---------------------------------------------------------------------------------------------
  // Cache folder validation

  /** What `getDirectoryInfo` reports about a path. */
  datatype DirectoryInfo = DirectoryInfo(fullName: string, present: bool)

  /** The absolute folder, the virtual one when it is in the web root, and whether it had to be created. */
  datatype ValidatedPaths = ValidatedPaths(absolute: string, virtual: Option<string>, created: bool)

  /** `Path.GetInvalidPathChars()` of .NET Framework. */
  predicate IsInvalidPathChar(c: char)
  {
    c == '"' || c == '<' || c == '>' || c == '|' || c < ' '
  }

  /** The absolute path the validation starts from; `""` when the path passes neither check. */
  function AbsolutePathOf(originalPath: string, isValidVirtualPathName: bool,
                          mapPath: string -> string, getFullPath: string -> string): string
  {
    if isValidVirtualPathName then getFullPath(mapPath(originalPath))
    else if IsPathRooted(originalPath) && forall i :: 0 <= i < |originalPath| ==> !IsInvalidPathChar(originalPath[i]) then
      originalPath
    else ""
  }

  /** `FullName.TrimEnd('/').StartsWith(webRoot.TrimEnd('/'))` */
  predicate InWebRoot(fullName: string, webRoot: string)
  {
    StartsWith(TrimEnd(fullName, {'/'}), TrimEnd(webRoot, {'/'}))
  }

  /**
   * `GetValidatedCachePathsImpl`.  `isValidVirtualPathName` is ImageProcessor's
   * test of `originalPath`; `mapPath`, `getFullPath` and `getDirectoryInfo`
   * stand for the host's path mapping, `Path.GetFullPath` and the file system.
   */
  function ValidatedCachePaths(originalPath: string, isValidVirtualPathName: bool, mapPath: string -> string,
                               getFullPath: string -> string, getDirectoryInfo: string -> DirectoryInfo)
    : Result<ValidatedPaths, Error>
  {
    var webRoot := mapPath("~/");
    var absPath := AbsolutePathOf(originalPath, isValidVirtualPathName, mapPath, getFullPath);
    if absPath == "" then Err(ConfigurationErrors)
    else
      var dirInfo := getDirectoryInfo(absPath);
      var isInWebRoot := InWebRoot(dirInfo.fullName, webRoot);
      if !dirInfo.present && !isInWebRoot then Err(ConfigurationErrors)
      else if !isInWebRoot then Ok(ValidatedPaths(dirInfo.fullName, None, false))
      else if webRoot == "" then Err(ArgumentException)
      else
        var virtual := Replace(Replace(dirInfo.fullName, webRoot, "~/"), "\\", "/");
        Ok(ValidatedPaths(dirInfo.fullName, Some(virtual), !dirInfo.present))
  }

  // ---------------------------------------------------------------------------------------------
  // The trim's view of the file system

  /** A cached file: its name and creation time. */
  datatype FileRecord = FileRecord(name: string, creationTimeUtc: int)

  /** The existing directories and, per directory, its files in enumeration order. */
  datatype Disk = Disk(directories: set<string>, files: map<string, seq<FileRecord>>)

  function FilesOf(disk: Disk, directory: string): seq<FileRecord>
  {
    if directory in disk.files then disk.files[directory] else []
  }

  predicate Has(disk: Disk, directory: string, file: FileRecord)
  {
    file in FilesOf(disk, directory)
  }

  function Without(files: seq<FileRecord>, file: FileRecord): (r: seq<FileRecord>)
    ensures forall f :: f in r <==> f in files && f != file
  {
    if files == [] then []
    else if files[0] == file then Without(files[1..], file)
    else [files[0]] + Without(files[1..], file)
  }

  /** `fileInfo.Delete()` */
  function DeleteFile(disk: Disk, directory: string, file: FileRecord): Disk
  {
    if directory in disk.files then disk.(files := disk.files[directory := Without(disk.files[directory], file)])
    else disk
  }

  /** The index of the last separator of a path, if any. */
  function LastSeparator(path: string): (r: Option<nat>)
    ensures r.Some? ==> r.value < |path| && IsSeparator(path[r.value])
  {
    if |path| == 0 then None
    else if IsSeparator(path[|path| - 1]) then Some(|path| - 1)
    else LastSeparator(path[..|path| - 1])
  }

  /** `Directory.GetParent(directory)`: what precedes the last separator; `None` for a top-level path. */
  function ParentDirectory(directory: string): (r: Option<string>)
    ensures r.Some? ==> |r.value| < |directory|
  {
    match LastSeparator(directory)
    case None => None
    case Some(i) => if i == 0 then None else Some(directory[..i])
  }

  predicate HasSubdirectory(disk: Disk, directory: string)
  {
    exists d :: d in disk.directories && ParentDirectory(d) == Some(directory)
  }

  /** `Directory.Delete(directory)` */
  function DeleteDirectory(disk: Disk, directory: string): Disk
  {
    Disk(disk.directories - {directory}, disk.files - {directory})
  }

  /** The file name part of the trim's stop rule. */
  const Thumbnail := "_Thumbnail"

  /** What a trim step works on: the disk, the index and the number of cancellation checks made. */
  datatype Sweep = Sweep(disk: Disk, entries: map<string, CachedImage>, checks: nat)

  /**
   * `RecursivelyDeleteEmptyDirectories`: stop once cancelled (a check is made
   * first), at the root, or when the directory is gone (`GetFiles` throws
   * and the exception is logged); otherwise delete the directory if it holds
   * no files and no directories, and go on with its parent.
   */
  function DeleteEmpty(directory: string, root: string, disk: Disk, checks: nat, budget: nat): (r: (Disk, nat))
    decreases |directory|
  {
    if checks >= budget || directory == root || directory !in disk.directories then (disk, checks + 1)
    else
      var next := if |FilesOf(disk, directory)| == 0 && !HasSubdirectory(disk, directory) then DeleteDirectory(disk, directory) else disk;
      match ParentDirectory(directory)
      case None => (next, checks + 1)
      case Some(parent) => DeleteEmpty(parent, root, next, checks + 1, budget)
  }

  /**
   * One file of a directory's loop, and whether the loop goes on: stop once
   * cancelled, at a file that is not expired, or at a thumbnail; a file that
   * is not an Episerver blob loses its index entry (by bare name) and is
   * deleted, unless the deletion throws, which is logged and skipped.
   * `isBlob` stands for `FileIsEpiserverBlob`; an exception there also skips
   * the file, as answering "blob" does.
   */
  function SweepStep(f: FileRecord, directory: string, s: Sweep, budget: nat, isExpired: int -> bool,
                     isBlob: (string, string) -> bool, deleteFails: (string, FileRecord) -> bool): (Sweep, bool)
  {
    var checked := s.(checks := s.checks + 1);
    if s.checks >= budget || !isExpired(f.creationTimeUtc) || Contains(f.name, Thumbnail) then (checked, false)
    else if isBlob(f.name, directory) then (checked, true)
    else
      var removed := checked.(entries := checked.entries - {FileNameWithoutExtension(f.name)});
      if deleteFails(directory, f) then (removed, true)
      else (removed.(disk := DeleteFile(removed.disk, directory, f)), true)
  }

  /** The file loop of one directory over its files in creation order. */
  function SweepFiles(files: seq<FileRecord>, directory: string, s: Sweep, budget: nat, isExpired: int -> bool,
                      isBlob: (string, string) -> bool, deleteFails: (string, FileRecord) -> bool): Sweep
    decreases |files|
  {
    if |files| == 0 then s
    else
      var step := SweepStep(files[0], directory, s, budget, isExpired, isBlob, deleteFails);
      if step.1 then SweepFiles(files[1..], directory, step.0, budget, isExpired, isBlob, deleteFails) else step.0
  }

  function ByCreation(f: FileRecord): int
  {
    f.creationTimeUtc
  }

  /**
   * The directory loop: a directory that no longer exists is skipped without
   * a check; a cancelled check stops; otherwise the directory's files are
   * swept in creation order and the empty directories above it deleted.
   */
  function TrimDirectories(directories: seq<string>, root: string, s: Sweep, budget: nat, isExpired: int -> bool,
                           isBlob: (string, string) -> bool, deleteFails: (string, FileRecord) -> bool): Sweep
    decreases |directories|
  {
    if |directories| == 0 then s
    else
      var directory := directories[0];
      if directory !in s.disk.directories then TrimDirectories(directories[1..], root, s, budget, isExpired, isBlob, deleteFails)
      else if s.checks >= budget then s.(checks := s.checks + 1)
      else
        var files := SortBy(FilesOf(s.disk, directory), ByCreation);
        var swept := SweepFiles(files, directory, s.(checks := s.checks + 1), budget, isExpired, isBlob, deleteFails);
        var cleaned := DeleteEmpty(directory, root, swept.disk, swept.checks, budget);
        TrimDirectories(directories[1..], root, Sweep(cleaned.0, swept.entries, cleaned.1), budget, isExpired, isBlob, deleteFails)
  }

  function Reverse<T>(s: seq<T>): (r: seq<T>)
    ensures |r| == |s| && forall i :: 0 <= i < |s| ==> r[i] == s[|s| - 1 - i]
  {
    if s == [] then [] else Reverse(s[1..]) + [s[0]]
  }

  // ---------------------------------------------------------------------------------------------
  // The cache

  /** What `RewritePath` does with the response. */
  datatype Rewrite =
    | RewriteTo(virtualPath: Option<string>)                           // `context.RewritePath`
    | NotModified                                                      // a 304 and `Response.End`
    | Transmit(contentType: string, eTag: Option<string>, file: Option<string>)  // `TransmitFile`

  class FileBlobCache {
    const requestPath: string
    const fullPath: string
    const querystring: string
    /** The validated folder and, when it is in the web root, its virtual path (statics of the class). */
    const validatedAbsoluteCachePath: string
    const validatedVirtualCachePath: Option<string>
    const absoluteCachePath: string
    const virtualCachePath: string
    /** `TrimCache` of the base class. */
    const trimCache: bool
    /** `CachedPath`; `None` until a check sets it. */
    var cachedPath: Option<string>
    var virtualCachedFilePath: Option<string>
    var cachedImageCreationTimeUtc: int

    /**
     * The constructor, given what validating `ConfiguredPath` produced once
     * for the application.
     */
    constructor (requestPath: string, fullPath: string, querystring: string, trimCache: bool,
                 validatedAbsoluteCachePath: string, validatedVirtualCachePath: Option<string>)
      ensures this.requestPath == requestPath && this.fullPath == fullPath && this.querystring == querystring
      ensures this.trimCache == trimCache
      ensures this.validatedAbsoluteCachePath == validatedAbsoluteCachePath
      ensures this.validatedVirtualCachePath == validatedVirtualCachePath
      ensures absoluteCachePath == validatedAbsoluteCachePath
      ensures virtualCachePath == ChosenVirtualPath(validatedVirtualCachePath, validatedAbsoluteCachePath)
      ensures cachedPath.None? && virtualCachedFilePath.None? && cachedImageCreationTimeUtc == MinValue
    {
      this.requestPath := requestPath;
      this.fullPath := fullPath;
      this.querystring := querystring;
      this.trimCache := trimCache;
      this.validatedAbsoluteCachePath := validatedAbsoluteCachePath;
      this.validatedVirtualCachePath := validatedVirtualCachePath;
      absoluteCachePath := validatedAbsoluteCachePath;
      virtualCachePath := ChosenVirtualPath(validatedVirtualCachePath, validatedAbsoluteCachePath);
      cachedPath := None;
      virtualCachedFilePath := None;
      cachedImageCreationTimeUtc := MinValue;
    }

    /** The cached file's path for a blob folder and cached name. */
    function CachedPathFor(blobFolder: string, name: string): string
      reads this
    {
      Combine(Combine(absoluteCachePath, blobFolder), name)
    }

    /**
     * `IsNewOrUpdatedAsync`.  `name` is what `CreateCachedFileNameAsync`
     * returns, `segments` the routed media's container segments, `stored`
     * the creation time of a file that exists at a path, `isExpired` the base
     * class's expiry rule and `source` where `RequestPath` leads.
     */
    method IsNewOrUpdated(index: CacheIndexer, name: string, segments: Option<seq<string>>,
                          stored: string -> Option<int>, isExpired: int -> bool, source: Source)
      returns (r: Result<bool, Error>)
      modifies this, index
      ensures BlobFolder(segments).Err? ==>
        r == Err(BlobFolder(segments).error) && index.entries == old(index.entries)
        && cachedPath == old(cachedPath) && virtualCachedFilePath == old(virtualCachedFilePath)
        && cachedImageCreationTimeUtc == old(cachedImageCreationTimeUtc)
      ensures BlobFolder(segments).Ok? ==>
        var path := CachedPathFor(BlobFolder(segments).value, name);
        var c := Freshness(old(index.entries), path, stored(path), isExpired, t => SourceUpdated(source, t));
        && cachedPath == Some(path)
        && virtualCachedFilePath == Some(VirtualCachedFilePath(virtualCachePath, BlobFolder(segments).value, name))
        && r == Ok(c.isNewOrUpdated)
        && index.entries == c.entries
        && cachedImageCreationTimeUtc == c.kept.GetOr(old(cachedImageCreationTimeUtc))
    {
      var folder := BlobFolder(segments);
      if folder.Err? {
        return Err(folder.error);
      }
      var path := CachedPathFor(folder.value, name);
      cachedPath := Some(path);
      virtualCachedFilePath := Some(VirtualCachedFilePath(virtualCachePath, folder.value, name));
      var isNew, kept := CheckFreshness(index, path, stored(path), isExpired, t => SourceUpdated(source, t));
      r := Ok(isNew);
      if kept.Some? {
        cachedImageCreationTimeUtc := kept.value;
      }
    }

    /**
     * `TrimCacheAsync`, run as the scheduled trimmer would run it.
     * `directories` is what enumerating the cache folder returned, in
     * enumeration order; the disk is handed in and the disk left behind is
     * returned.
     */
    method TrimCache(index: CacheIndexer, token: CancellationToken, directories: seq<string>, disk: Disk,
                     isExpired: int -> bool, isBlob: (string, string) -> bool,
                     deleteFails: (string, FileRecord) -> bool) returns (after: Disk)
      modifies index, token
      ensures !trimCache || cachedPath.None? ==>
        after == disk && index.entries == old(index.entries) && token.checks == old(token.checks)
      ensures trimCache && cachedPath.Some? ==>
        Sweep(after, index.entries, token.checks)
        == TrimDirectories(Reverse(directories), validatedAbsoluteCachePath, Sweep(disk, old(index.entries), old(token.checks)),
                           token.budget, isExpired, isBlob, deleteFails)
    {
      after := disk;
      if !trimCache || cachedPath.None? {
        return;
      }
      var ordered := Reverse(directories);
      ghost var start := Sweep(disk, index.entries, token.checks);
      var i := 0;
      while i < |ordered|
        invariant 0 <= i <= |ordered|
        invariant TrimDirectories(ordered[i..], validatedAbsoluteCachePath, Sweep(after, index.entries, token.checks),
                                  token.budget, isExpired, isBlob, deleteFails)
                  == TrimDirectories(ordered, validatedAbsoluteCachePath, start, token.budget, isExpired, isBlob, deleteFails)
        decreases |ordered| - i
      {
        var directory := ordered[i];
        if directory !in after.directories {
          i := i + 1;
          continue;
        }
        var cancelled := token.IsCancellationRequested();
        if cancelled {
          break;
        }
        var files := SortBy(FilesOf(after, directory), ByCreation);
        after := SweepDirectory(index, token, files, directory, after, isExpired, isBlob, deleteFails);
        after := RecursivelyDeleteEmptyDirectories(token, directory, validatedAbsoluteCachePath, after);
        i := i + 1;
      }
    }

    /** `GetETag` at the clock reading `now`. */
    function GetETag(now: int): Result<Option<string>, Error>
      reads this
    {
      ETag(cachedImageCreationTimeUtc, now)
    }

    /**
     * `RewritePath`: inside the web root the request is rewritten to the
     * cached file's virtual path; outside it a matching `If-None-Match`
     * answers 304 and anything else transmits the file with the mime type of
     * the request's extension.  The source calls `GetETag` twice, once for
     * the `If-None-Match` test and once in `SetETagHeader`, each reading the
     * clock; the model reads the tag once, at `now`, so the two calls are
     * taken to see the same tag (they differ only when the three-second
     * weak window ends between them).
     */
    function RewritePath(ifNoneMatch: Option<string>, now: int, extension: Option<string>,
                         formats: seq<ImageFormat>): Result<Rewrite, Error>
      reads this
    {
      if !IsNullOrWhiteSpace(validatedVirtualCachePath) then Ok(RewriteTo(virtualCachedFilePath))
      else match GetETag(now)
        case Err(e) => Err(e)
        case Ok(eTag) =>
          if !IsNullOrEmpty(ifNoneMatch) && !IsNullOrEmpty(eTag) && ifNoneMatch == eTag then Ok(NotModified)
          else match ContentTypeForExtension(extension, formats)
            case Err(e) => Err(e)
            case Ok(mimeType) => Ok(Transmit(mimeType, eTag, cachedPath))
    }
  }

  /** The body of a directory's file loop for one file; `goOn` is false where the loop breaks. */
  method SweepFile(index: CacheIndexer, token: CancellationToken, file: FileRecord, directory: string,
                   disk: Disk, isExpired: int -> bool, isBlob: (string, string) -> bool,
                   deleteFails: (string, FileRecord) -> bool) returns (after: Disk, goOn: bool)
    modifies index, token
    ensures (Sweep(after, index.entries, token.checks), goOn)
      == SweepStep(file, directory, Sweep(disk, old(index.entries), old(token.checks)), token.budget, isExpired, isBlob, deleteFails)
  {
    after := disk;
    var cancelled := token.IsCancellationRequested();
    if cancelled || !isExpired(file.creationTimeUtc) || Contains(file.name, Thumbnail) {
      return disk, false;
    }
    goOn := true;
    if !isBlob(file.name, directory) {
      index.Remove(file.name);
      if !deleteFails(directory, file) {
        after := DeleteFile(after, directory, file);
      }
    }
  }

  /** The file loop of one directory. */
  method SweepDirectory(index: CacheIndexer, token: CancellationToken, files: seq<FileRecord>, directory: string,
                        disk: Disk, isExpired: int -> bool, isBlob: (string, string) -> bool,
                        deleteFails: (string, FileRecord) -> bool) returns (after: Disk)
    modifies index, token
    ensures Sweep(after, index.entries, token.checks)
      == SweepFiles(files, directory, Sweep(disk, old(index.entries), old(token.checks)), token.budget, isExpired, isBlob, deleteFails)
  {
    after := disk;
    ghost var start := Sweep(disk, index.entries, token.checks);
    var i := 0;
    while i < |files|
      invariant 0 <= i <= |files|
      invariant SweepFiles(files[i..], directory, Sweep(after, index.entries, token.checks), token.budget, isExpired, isBlob, deleteFails)
                == SweepFiles(files, directory, start, token.budget, isExpired, isBlob, deleteFails)
    {
      var goOn;
      assert files[i..][1..] == files[i + 1..];
      after, goOn := SweepFile(index, token, files[i], directory, after, isExpired, isBlob, deleteFails);
      if !goOn {
        break;
      }
      i := i + 1;
    }
  }

  /** `RecursivelyDeleteEmptyDirectories` */
  method RecursivelyDeleteEmptyDirectories(token: CancellationToken, directory: string, root: string, disk: Disk)
    returns (after: Disk)
    modifies token
    ensures (after, token.checks) == DeleteEmpty(directory, root, disk, old(token.checks), token.budget)
    decreases |directory|
  {
    var cancelled := token.IsCancellationRequested();
    if cancelled || directory == root || directory !in disk.directories {
      return disk;
    }
    after := disk;
    if |FilesOf(disk, directory)| == 0 && !HasSubdirectory(disk, directory) {
      after := DeleteDirectory(disk, directory);
    }
    var parent := ParentDirectory(directory);
    if parent.Some? {
      after := RecursivelyDeleteEmptyDirectories(token, parent.value, root, after);
    }
  }

  // ---------------------------------------------------------------------------------------------
  // Properties

  /** The hexadecimal digits denote the number they were made from. */
  lemma {:induction false} HexRoundTrip(n: nat)
    ensures HexValue(Hex(n)) == n
    decreases n
  {
    if n >= 16 {
      var h := Hex(n);
      assert h[..|h| - 1] == Hex(n / 16);
      HexRoundTrip(n / 16);
    }
  }

  lemma {:induction false} ZerosDenoteZero(k: nat)
    ensures HexValue(seq(k, _ => '0')) == 0
  {
    if k > 0 {
      assert seq(k, _ => '0')[..k - 1] == seq(k - 1, _ => '0');
      ZerosDenoteZero(k - 1);
    }
  }

  /** Leading zeros do not change the number. */
  lemma {:induction false} LeadingZerosIgnored(k: nat, s: string)
    ensures HexValue(seq(k, _ => '0') + s) == HexValue(s)
  {
    var z := seq(k, _ => '0');
    if s == [] {
      assert z + s == z;
      ZerosDenoteZero(k);
    } else {
      assert (z + s)[..|z + s| - 1] == z + s[..|s| - 1];
      LeadingZerosIgnored(k, s[..|s| - 1]);
    }
  }

  /** `X8` is at least eight upper-case hexadecimal digits denoting the number. */
  lemma HexX8RoundTrip(n: nat)
    ensures |HexX8(n)| >= 8 && HexValue(HexX8(n)) == n
    ensures forall i :: 0 <= i < |HexX8(n)| ==> IsHexDigit(HexX8(n)[i])
  {
    var h := Hex(n);
    HexRoundTrip(n);
    if |h| < 8 {
      LeadingZerosIgnored(8 - |h|, h);
      var x := HexX8(n);
      forall i | 0 <= i < |x| ensures IsHexDigit(x[i]) {
        if i >= 8 - |h| { assert x[i] == h[i - (8 - |h|)]; }
      }
    }
  }

  /**
   * `GetETag`: no tag exactly while no creation time is recorded; a time
   * before 1601 throws; otherwise the tag quotes the `X8` digits of the file
   * time, which denote it, and is weak (`W/` in front) exactly when the
   * image is at most three seconds old.
   */
  lemma ETagRule(creationTimeUtc: int, now: int)
    ensures ETag(creationTimeUtc, now) == Ok(None) <==> creationTimeUtc == MinValue
    ensures ETag(creationTimeUtc, now).Err? <==>
      creationTimeUtc != MinValue && (creationTimeUtc < FileTimeEpoch || now < FileTimeEpoch)
    ensures creationTimeUtc != MinValue && creationTimeUtc >= FileTimeEpoch && now >= FileTimeEpoch ==>
      var hex := HexX8(creationTimeUtc - FileTimeEpoch);
      && HexValue(hex) == creationTimeUtc - FileTimeEpoch
      && (now - creationTimeUtc <= WeakWindow ==> ETag(creationTimeUtc, now) == Ok(Some("W/" + ("\"" + hex + "\""))))
      && (now - creationTimeUtc > WeakWindow ==> ETag(creationTimeUtc, now) == Ok(Some("\"" + hex + "\"")))
  {
    if creationTimeUtc != MinValue && creationTimeUtc >= FileTimeEpoch && now >= FileTimeEpoch {
      var hex := HexX8(creationTimeUtc - FileTimeEpoch);
      HexX8RoundTrip(creationTimeUtc - FileTimeEpoch);
      assert "W/\"" + hex + "\"" == "W/" + ("\"" + hex + "\"");
    }
  }

  /**
   * `GetContentTypeForExtension` throws exactly for a blank extension;
   * otherwise it answers the mime type of the first format listing the
   * extension without its leading dots, ignoring case, and the JPEG type
   * when no format lists it.
   */
  lemma ContentTypeRule(extension: Option<string>, formats: seq<ImageFormat>)
    ensures ContentTypeForExtension(extension, formats).Err? <==> IsNullOrWhiteSpace(extension)
    ensures !IsNullOrWhiteSpace(extension) ==>
      var e := TrimStart(extension.value, {'.'});
      && ((forall k :: 0 <= k < |formats| ==> !Supports(formats[k], e)) ==>
            ContentTypeForExtension(extension, formats) == Ok(JpegMimeType))
      && (forall i :: 0 <= i < |formats| && Supports(formats[i], e) && (forall k :: 0 <= k < i ==> !Supports(formats[k], e)) ==>
            ContentTypeForExtension(extension, formats) == Ok(formats[i].mimeType))
  {
  }

  /** A leading dot makes no difference: `.jpg` and `jpg` find the same type. */
  lemma LeadingDotIgnored(extension: string, formats: seq<ImageFormat>)
    requires !IsNullOrWhiteSpace(Some(extension))
    ensures ContentTypeForExtension(Some("." + extension), formats) == ContentTypeForExtension(Some(extension), formats)
  {
    var i :| 0 <= i < |extension| && !IsWhiteSpace(extension[i]);
    assert ("." + extension)[i + 1] == extension[i];
    assert ("." + extension)[1..] == extension;
  }

  /** `Replace` of a character by a text without it leaves no such character. */
  lemma {:induction false} ReplaceRemovesChar(s: string, c: char, replacement: string)
    requires c !in replacement
    ensures c !in Replace(s, [c], replacement)
    decreases |s|
  {
    if |s| >= 1 {
      ReplaceRemovesChar(s[1..], c, replacement);
    }
  }

  /**
   * Cache folder validation: it fails exactly for a path that passes neither
   * check, a missing folder outside the web root, or an empty web root that
   * cannot be replaced; otherwise the folder is the directory's full name, a
   * virtual path exists exactly inside the web root and then uses forward
   * slashes only, and the folder is created exactly when it is missing.
   */
  lemma ValidationRule(originalPath: string, isValidVirtualPathName: bool, mapPath: string -> string,
                       getFullPath: string -> string, getDirectoryInfo: string -> DirectoryInfo)
    ensures var r := ValidatedCachePaths(originalPath, isValidVirtualPathName, mapPath, getFullPath, getDirectoryInfo);
      var absPath := AbsolutePathOf(originalPath, isValidVirtualPathName, mapPath, getFullPath);
      var dirInfo := getDirectoryInfo(absPath);
      var inRoot := InWebRoot(dirInfo.fullName, mapPath("~/"));
      && (r.Err? <==> absPath == "" || (!dirInfo.present && !inRoot) || (inRoot && mapPath("~/") == ""))
      && (r.Ok? ==>
            && r.value.absolute == dirInfo.fullName
            && (r.value.virtual.Some? <==> inRoot)
            && (r.value.created <==> !dirInfo.present)
            && (r.value.virtual.Some? ==> '\\' !in r.value.virtual.value))
  {
    var absPath := AbsolutePathOf(originalPath, isValidVirtualPathName, mapPath, getFullPath);
    var dirInfo := getDirectoryInfo(absPath);
    var webRoot := mapPath("~/");
    if absPath != "" && InWebRoot(dirInfo.fullName, webRoot) && webRoot != "" {
      ReplaceRemovesChar(Replace(dirInfo.fullName, webRoot, "~/"), '\\', "/");
    }
  }

  /** The two ways validation starts: a valid virtual path is mapped, a clean rooted path is taken as it is. */
  lemma AbsolutePathRule(originalPath: string, isValidVirtualPathName: bool, mapPath: string -> string,
                         getFullPath: string -> string)
    ensures isValidVirtualPathName ==>
      AbsolutePathOf(originalPath, isValidVirtualPathName, mapPath, getFullPath) == getFullPath(mapPath(originalPath))
    ensures !isValidVirtualPathName && IsPathRooted(originalPath)
            && (forall i :: 0 <= i < |originalPath| ==> !IsInvalidPathChar(originalPath[i])) ==>
      AbsolutePathOf(originalPath, isValidVirtualPathName, mapPath, getFullPath) == originalPath
    ensures !isValidVirtualPathName && !IsPathRooted(originalPath) ==>
      AbsolutePathOf(originalPath, isValidVirtualPathName, mapPath, getFullPath) == ""
  {
  }

  /**
   * `RewritePath`: inside the web root it always rewrites to the virtual
   * cached path; outside, once the tag is read, it answers 304 exactly when
   * `If-None-Match` is present, non-empty and equal to the tag, and it
   * otherwise transmits the cached file with the extension's content type.
   */
  lemma RewriteRule(cache: FileBlobCache, ifNoneMatch: Option<string>, now: int, extension: Option<string>,
                    formats: seq<ImageFormat>)
    ensures var r := cache.RewritePath(ifNoneMatch, now, extension, formats);
      && (!IsNullOrWhiteSpace(cache.validatedVirtualCachePath) ==> r == Ok(RewriteTo(cache.virtualCachedFilePath)))
      && (IsNullOrWhiteSpace(cache.validatedVirtualCachePath) && cache.GetETag(now).Err? ==>
            r == Err(cache.GetETag(now).error))
      && (IsNullOrWhiteSpace(cache.validatedVirtualCachePath) && cache.GetETag(now).Ok? ==>
            && (r == Ok(NotModified) <==> ifNoneMatch.Some? && ifNoneMatch.value != "" && ifNoneMatch == cache.GetETag(now).value)
            && (r.Ok? && r.value.Transmit? ==>
                  && Ok(r.value.contentType) == ContentTypeForExtension(extension, formats)
                  && r.value.eTag == cache.GetETag(now).value
                  && r.value.file == cache.cachedPath))
  {
  }

  /** A name that is not rooted, combined with a non-empty folder, keeps its key. */
  lemma CombineKey(directory: string, stem: string, ext: string)
    requires directory != "" && '.' !in ext
    requires forall i :: 0 <= i < |stem| ==> !IsSeparator(stem[i])
    requires forall i :: 0 <= i < |ext| ==> !IsSeparator(ext[i])
    ensures FileNameWithoutExtension(Combine(directory, stem + "." + ext)) == stem
  {
    var name := stem + "." + ext;
    NameWithoutSeparator(stem, ext);
    assert !IsPathRooted(name) by {
      assert !IsSeparator(name[0]);
      assert |name| >= 2 ==> !IsSeparator(name[1]);
    }
    if IsSeparator(directory[|directory| - 1]) {
      var front := directory[..|directory| - 1];
      assert directory + name == front + [directory[|directory| - 1]] + name;
      KeyOfPath(front, directory[|directory| - 1], stem, ext);
    } else {
      assert directory + "\\" + name == directory + ['\\'] + name;
      KeyOfPath(directory, '\\', stem, ext);
    }
  }

  /**
   * The index key of the cached file is the cached name without its
   * extension, wherever the cache folder is: a lookup and a trim's removal
   * by bare name agree.
   */
  lemma CachedPathKey(cache: FileBlobCache, blobFolder: string, stem: string, ext: string)
    requires cache.absoluteCachePath != "" && '.' !in ext
    requires forall i :: 0 <= i < |stem| ==> !IsSeparator(stem[i])
    requires forall i :: 0 <= i < |ext| ==> !IsSeparator(ext[i])
    ensures FileNameWithoutExtension(cache.CachedPathFor(blobFolder, stem + "." + ext)) == stem
  {
    var d := Combine(cache.absoluteCachePath, blobFolder);
    assert d != "";
    CombineKey(d, stem, ext);
  }

  // ---------------------------------------------------------------------------------------------
  // Properties of the trim

  /** The only files a trim may delete: expired, not an Episerver blob, not a thumbnail. */
  predicate Deletable(f: FileRecord, directory: string, isExpired: int -> bool, isBlob: (string, string) -> bool)
  {
    isExpired(f.creationTimeUtc) && !isBlob(f.name, directory) && !Contains(f.name, Thumbnail)
  }

  /** `after` holds no file `before` did not, and lacks only deletable ones. */
  ghost predicate Trimmed(before: Disk, after: Disk, isExpired: int -> bool, isBlob: (string, string) -> bool)
  {
    && (forall directory, f :: Has(after, directory, f) ==> Has(before, directory, f))
    && (forall directory, f :: Has(before, directory, f) && !Has(after, directory, f) ==> Deletable(f, directory, isExpired, isBlob))
  }

  /** The index only loses entries. */
  ghost predicate Shrunk(before: map<string, CachedImage>, after: map<string, CachedImage>)
  {
    forall k :: k in after ==> k in before && after[k] == before[k]
  }

  lemma TrimmedTransitive(a: Disk, b: Disk, c: Disk, isExpired: int -> bool, isBlob: (string, string) -> bool)
    requires Trimmed(a, b, isExpired, isBlob) && Trimmed(b, c, isExpired, isBlob)
    ensures Trimmed(a, c, isExpired, isBlob)
  {
  }

  lemma DeleteFileTrimmed(disk: Disk, directory: string, f: FileRecord, isExpired: int -> bool, isBlob: (string, string) -> bool)
    requires Deletable(f, directory, isExpired, isBlob)
    ensures Trimmed(disk, DeleteFile(disk, directory, f), isExpired, isBlob)
  {
    var after := DeleteFile(disk, directory, f);
    forall d, g | Has(disk, d, g) && !Has(after, d, g)
      ensures Deletable(g, d, isExpired, isBlob)
    {
      assert d == directory && g == f;
    }
  }

  /**
   * Empty-directory cleanup never loses a file and never deletes the root;
   * every directory it deletes held no files and has no subdirectory left;
   * a cancelled token stops it before it changes anything.
   */
  lemma {:induction false} DeleteEmptyRule(directory: string, root: string, disk: Disk, checks: nat, budget: nat)
    ensures var r := DeleteEmpty(directory, root, disk, checks, budget);
      && (forall d, f :: Has(r.0, d, f) <==> Has(disk, d, f))
      && r.0.directories <= disk.directories
      && (forall d :: d in disk.directories && d !in r.0.directories ==> d != root && FilesOf(disk, d) == [])
      && (forall d, e :: d in disk.directories && d !in r.0.directories && e in r.0.directories ==>
            ParentDirectory(e) != Some(d))
      && r.1 > checks
      && (checks >= budget ==> r.0 == disk)
    decreases |directory|
  {
    if !(checks >= budget || directory == root || directory !in disk.directories) {
      var next := if |FilesOf(disk, directory)| == 0 && !HasSubdirectory(disk, directory) then DeleteDirectory(disk, directory) else disk;
      assert forall d, f :: Has(next, d, f) <==> Has(disk, d, f);
      assert forall d :: d in disk.directories && d !in next.directories ==> d == directory;
      match ParentDirectory(directory)
      case None =>
      case Some(parent) =>
        DeleteEmptyRule(parent, root, next, checks + 1, budget);
        assert forall d :: d in next.directories ==> FilesOf(next, d) == FilesOf(disk, d);
    }
  }

  lemma SweepStepRule(f: FileRecord, directory: string, s: Sweep, budget: nat, isExpired: int -> bool,
                      isBlob: (string, string) -> bool, deleteFails: (string, FileRecord) -> bool)
    ensures var r := SweepStep(f, directory, s, budget, isExpired, isBlob, deleteFails).0;
      Trimmed(s.disk, r.disk, isExpired, isBlob) && Shrunk(s.entries, r.entries) && r.checks == s.checks + 1
  {
    if !(s.checks >= budget || !isExpired(f.creationTimeUtc) || Contains(f.name, Thumbnail)) && !isBlob(f.name, directory) {
      DeleteFileTrimmed(s.disk, directory, f, isExpired, isBlob);
    }
  }

  /** A directory's file loop deletes only deletable files and only removes index entries. */
  lemma {:induction false} SweepFilesRule(files: seq<FileRecord>, directory: string, s: Sweep, budget: nat, isExpired: int -> bool,
                                          isBlob: (string, string) -> bool, deleteFails: (string, FileRecord) -> bool)
    ensures var r := SweepFiles(files, directory, s, budget, isExpired, isBlob, deleteFails);
      && Trimmed(s.disk, r.disk, isExpired, isBlob) && Shrunk(s.entries, r.entries) && r.checks >= s.checks
      && (s.checks >= budget ==> r.disk == s.disk && r.entries == s.entries)
    decreases |files|
  {
    if |files| > 0 {
      var step := SweepStep(files[0], directory, s, budget, isExpired, isBlob, deleteFails);
      SweepStepRule(files[0], directory, s, budget, isExpired, isBlob, deleteFails);
      if step.1 {
        var r := SweepFiles(files[1..], directory, step.0, budget, isExpired, isBlob, deleteFails);
        SweepFilesRule(files[1..], directory, step.0, budget, isExpired, isBlob, deleteFails);
        TrimmedTransitive(s.disk, step.0.disk, r.disk, isExpired, isBlob);
      }
    }
  }

  /**
   * A directory's file loop never gets past the first file that is not
   * expired or is a thumbnail: what follows it is left alone.
   */
  lemma {:induction false} SweepStopsAt(files: seq<FileRecord>, more: seq<FileRecord>, directory: string, s: Sweep, budget: nat,
                                        isExpired: int -> bool, isBlob: (string, string) -> bool,
                                        deleteFails: (string, FileRecord) -> bool)
    requires exists i :: 0 <= i < |files| && (!isExpired(files[i].creationTimeUtc) || Contains(files[i].name, Thumbnail))
    ensures SweepFiles(files + more, directory, s, budget, isExpired, isBlob, deleteFails)
         == SweepFiles(files, directory, s, budget, isExpired, isBlob, deleteFails)
    decreases |files|
  {
    var i :| 0 <= i < |files| && (!isExpired(files[i].creationTimeUtc) || Contains(files[i].name, Thumbnail));
    assert (files + more)[0] == files[0];
    var step := SweepStep(files[0], directory, s, budget, isExpired, isBlob, deleteFails);
    SweepFilesUnfold(files, directory, s, budget, isExpired, isBlob, deleteFails);
    SweepFilesUnfold(files + more, directory, s, budget, isExpired, isBlob, deleteFails);
    if step.1 {
      assert i > 0;
      assert (files + more)[1..] == files[1..] + more;
      assert files[1..][i - 1] == files[i];
      SweepStopsAt(files[1..], more, directory, step.0, budget, isExpired, isBlob, deleteFails);
    }
  }

  lemma SweepFilesUnfold(files: seq<FileRecord>, directory: string, s: Sweep, budget: nat, isExpired: int -> bool,
                         isBlob: (string, string) -> bool, deleteFails: (string, FileRecord) -> bool)
    requires |files| > 0
    ensures var step := SweepStep(files[0], directory, s, budget, isExpired, isBlob, deleteFails);
      SweepFiles(files, directory, s, budget, isExpired, isBlob, deleteFails)
      == if step.1 then SweepFiles(files[1..], directory, step.0, budget, isExpired, isBlob, deleteFails) else step.0
  {
  }

  /**
   * The whole trim deletes only expired files that are neither Episerver
   * blobs nor thumbnails (so a blob is never deleted) and only removes index
   * entries; with the token already cancelled it changes nothing.
   */
  lemma {:induction false} TrimRule(directories: seq<string>, root: string, s: Sweep, budget: nat, isExpired: int -> bool,
                                    isBlob: (string, string) -> bool, deleteFails: (string, FileRecord) -> bool)
    ensures var r := TrimDirectories(directories, root, s, budget, isExpired, isBlob, deleteFails);
      && Trimmed(s.disk, r.disk, isExpired, isBlob) && Shrunk(s.entries, r.entries)
      && (s.checks >= budget ==> r.disk == s.disk && r.entries == s.entries)
    decreases |directories|
  {
    if |directories| > 0 {
      var directory := directories[0];
      if directory !in s.disk.directories {
        TrimRule(directories[1..], root, s, budget, isExpired, isBlob, deleteFails);
      } else if s.checks < budget {
        var files := SortBy(FilesOf(s.disk, directory), ByCreation);
        var swept := SweepFiles(files, directory, s.(checks := s.checks + 1), budget, isExpired, isBlob, deleteFails);
        SweepFilesRule(files, directory, s.(checks := s.checks + 1), budget, isExpired, isBlob, deleteFails);
        var cleaned := DeleteEmpty(directory, root, swept.disk, swept.checks, budget);
        DeleteEmptyRule(directory, root, swept.disk, swept.checks, budget);
        var next := Sweep(cleaned.0, swept.entries, cleaned.1);
        assert Trimmed(swept.disk, cleaned.0, isExpired, isBlob);
        TrimmedTransitive(s.disk, swept.disk, cleaned.0, isExpired, isBlob);
        TrimRule(directories[1..], root, next, budget, isExpired, isBlob, deleteFails);
        TrimmedTransitive(s.disk, cleaned.0, TrimDirectories(directories[1..], root, next, budget, isExpired, isBlob, deleteFails).disk,
                          isExpired, isBlob);
      }
    }
  }

  /** An Episerver blob present before a trim is present after it. */
  lemma BlobsKept(directories: seq<string>, root: string, s: Sweep, budget: nat, isExpired: int -> bool,
                  isBlob: (string, string) -> bool, deleteFails: (string, FileRecord) -> bool, directory: string, f: FileRecord)
    requires Has(s.disk, directory, f) && isBlob(f.name, directory)
    ensures Has(TrimDirectories(directories, root, s, budget, isExpired, isBlob, deleteFails).disk, directory, f)
  {
    TrimRule(directories, root, s, budget, isExpired, isBlob, deleteFails);
  }
}
