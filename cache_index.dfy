/**
 * The soft cache index every cache adapter consults (ImageProcessor's
 * `CacheIndexer`, which is not part of this model): an in-memory map from a
 * key to the `CachedImage` recorded for it.  `Get` and `Remove` take a path
 * and look up its file name without extension; `Add` stores under the
 * image's own `Key`.  The freshness decision the adapters share is stated
 * here once.  Times are ticks; 0 is `DateTime.MinValue`.
 */
module CacheIndex {
  import opened Wrappers

  datatype CachedImage = CachedImage(key: string, path: string, creationTimeUtc: int)

  /** `DateTime.MinValue` */
  const MinValue := 0

  predicate IsSeparator(c: char)
  {
    c == '\\' || c == '/' || c == ':'
  }

  /** `Path.GetFileName`: what follows the last separator. */
  function FileName(path: string): (r: string)
    ensures |r| <= |path| && r == path[|path| - |r|..]
    ensures forall i :: 0 <= i < |r| ==> !IsSeparator(r[i])
    ensures |r| < |path| ==> IsSeparator(path[|path| - |r| - 1])
  {
    if |path| == 0 || IsSeparator(path[|path| - 1]) then ""
    else FileName(path[..|path| - 1]) + [path[|path| - 1]]
  }

  /** The index of the last `.` of a name, if any. */
  function LastDot(name: string): (r: Option<nat>)
    ensures r.Some? ==> r.value < |name| && name[r.value] == '.' && '.' !in name[r.value + 1..]
    ensures r.None? ==> '.' !in name
  {
    if |name| == 0 then None
    else if name[|name| - 1] == '.' then Some(|name| - 1)
    else
      var r := LastDot(name[..|name| - 1]);
      assert name == name[..|name| - 1] + [name[|name| - 1]];
      r
  }

  /** `Path.GetFileNameWithoutExtension` */
  function FileNameWithoutExtension(path: string): string
  {
    var name := FileName(path);
    match LastDot(name)
    case None => name
    case Some(i) => name[..i]
  }

  /** The index keeps at most one image per key. */
  class CacheIndexer {
    var entries: map<string, CachedImage>

    constructor ()
      ensures entries == map[]
    {
      entries := map[];
    }

    /** `CacheIndexer.Get(cachedPath)` */
    method Get(cachedPath: string) returns (r: Option<CachedImage>)
      ensures r == Lookup(entries, cachedPath)
    {
      var key := FileNameWithoutExtension(cachedPath);
      r := if key in entries then Some(entries[key]) else None;
    }

    /** `CacheIndexer.Add(cachedImage)`; the entry's own expiry is not modelled. */
    method Add(image: CachedImage)
      modifies this
      ensures entries == old(entries)[image.key := image]
    {
      entries := entries[image.key := image];
    }

    /** `CacheIndexer.Remove(cachedPath)` */
    method Remove(cachedPath: string)
      modifies this
      ensures entries == old(entries) - {FileNameWithoutExtension(cachedPath)}
    {
      entries := entries - {FileNameWithoutExtension(cachedPath)};
    }
  }

  function Lookup(entries: map<string, CachedImage>, cachedPath: string): Option<CachedImage>
  {
    var key := FileNameWithoutExtension(cachedPath);
    if key in entries then Some(entries[key]) else None
  }

  /** The image an adapter records on an index miss, keyed by the cached path's file name. */
  function Recorded(cachedPath: string, creationTimeUtc: int): CachedImage
  {
    CachedImage(FileNameWithoutExtension(cachedPath), cachedPath, creationTimeUtc)
  }

  /** What `IsNewOrUpdatedAsync` ends with: its result, the index, and the creation time it keeps. */
  datatype Check = Check(isNewOrUpdated: bool, entries: map<string, CachedImage>, kept: Option<int>)

  /**
   * The decision once the image is known: no image means new; an expired or
   * updated one is removed from the index and means new; any other is kept
   * and its creation time remembered.
   */
  function Decide(entries: map<string, CachedImage>, cachedPath: string, image: Option<CachedImage>,
                  isExpired: int -> bool, isUpdated: int -> bool): Check
  {
    if image.None? then Check(true, entries, None)
    else if isExpired(image.value.creationTimeUtc) || isUpdated(image.value.creationTimeUtc) then
      Check(true, entries - {FileNameWithoutExtension(cachedPath)}, None)
    else Check(false, entries, Some(image.value.creationTimeUtc))
  }

  /** What an adapter knows after its lookup: the index and the image found or recorded. */
  datatype Fill = Fill(entries: map<string, CachedImage>, image: Option<CachedImage>)

  /**
   * The lazy fill every adapter performs after `CacheIndexer.Get`: on a miss,
   * an image the backend still holds (created at `stored`) is recorded under
   * the path's key; a hit, or a miss with nothing stored, changes nothing.
   */
  function LazyFill(entries: map<string, CachedImage>, cachedPath: string, stored: Option<int>): Fill
  {
    match Lookup(entries, cachedPath)
    case Some(image) => Fill(entries, Some(image))
    case None =>
      if stored.None? then Fill(entries, None)
      else
        var image := Recorded(cachedPath, stored.value);
        Fill(entries[image.key := image], Some(image))
  }

  /** `IsNewOrUpdatedAsync` from the lookup on: the lazy fill, then the decision. */
  function Freshness(entries: map<string, CachedImage>, cachedPath: string, stored: Option<int>,
                     isExpired: int -> bool, isUpdated: int -> bool): Check
  {
    var fill := LazyFill(entries, cachedPath, stored);
    Decide(fill.entries, cachedPath, fill.image, isExpired, isUpdated)
  }

  /**
   * The lookup, lazy fill and decision as the adapters run them against the
   * index: `Get`, then `Add` of the recorded image on a miss, then `Remove`
   * when the image is stale.  `kept` is the creation time the adapter stores.
   */
  method CheckFreshness(index: CacheIndexer, cachedPath: string, stored: Option<int>,
                        isExpired: int -> bool, isUpdated: int -> bool)
    returns (isNewOrUpdated: bool, kept: Option<int>)
    modifies index
    ensures var c := Freshness(old(index.entries), cachedPath, stored, isExpired, isUpdated);
      isNewOrUpdated == c.isNewOrUpdated && index.entries == c.entries && kept == c.kept
  {
    var image := index.Get(cachedPath);
    if image.None? && stored.Some? {
      image := Some(CachedImage(FileNameWithoutExtension(cachedPath), cachedPath, stored.value));
      index.Add(image.value);
    }
    isNewOrUpdated, kept := ApplyDecision(index, cachedPath, image, isExpired, isUpdated);
  }

  /** The decision run against the index: `Remove` of the path when the image is stale. */
  method ApplyDecision(index: CacheIndexer, cachedPath: string, image: Option<CachedImage>,
                       isExpired: int -> bool, isUpdated: int -> bool)
    returns (isNewOrUpdated: bool, kept: Option<int>)
    modifies index
    ensures var c := Decide(old(index.entries), cachedPath, image, isExpired, isUpdated);
      isNewOrUpdated == c.isNewOrUpdated && index.entries == c.entries && kept == c.kept
  {
    if image.None? {
      isNewOrUpdated, kept := true, None;
    } else if isExpired(image.value.creationTimeUtc) || isUpdated(image.value.creationTimeUtc) {
      index.Remove(cachedPath);
      isNewOrUpdated, kept := true, None;
    } else {
      isNewOrUpdated, kept := false, Some(image.value.creationTimeUtc);
    }
  }

  /** Where a cache's `RequestPath` leads when its age is read. */
  datatype Source =
    | LocalFile(lastWriteUtc: Option<int>)   // a `file:` URI; `None` when the file does not exist
    | Remote(lastModified: Option<int>)      // a HEAD request; `None` when it throws
    | Unreadable                             // `new Uri(RequestPath)` throws

  /**
   * `IsUpdatedAsync` of the file caches: a source is updated when it is
   * newer than the creation time; a missing file or any exception is "not
   * updated".
   */
  function SourceUpdated(source: Source, creationDate: int): bool
  {
    match source
    case LocalFile(t) => t.Some? && t.value > creationDate
    case Remote(t) => t.Some? && t.value > creationDate
    case Unreadable => false
  }

  /** The time a source's age is read as; `None` when it cannot be read. */
  function SourceTime(source: Source): Option<int>
  {
    match source
    case LocalFile(t) => t
    case Remote(t) => t
    case Unreadable => None
  }

  /**
   * A source is updated exactly when its time can be read and is later than
   * the creation time, so a source updated since a time is updated since
   * any earlier one, and one that cannot be read never is.
   */
  lemma SourceUpdatedRule(source: Source, creationDate: int, earlier: int)
    ensures SourceUpdated(source, creationDate) <==> SourceTime(source).Some? && SourceTime(source).value > creationDate
    ensures earlier <= creationDate && SourceUpdated(source, creationDate) ==> SourceUpdated(source, earlier)
    ensures !SourceUpdated(Unreadable, creationDate)
  {
  }

  // ---------------------------------------------------------------------------------------------
  // Properties

  /**
   * The answer is "new or updated" exactly when there is no image or it is
   * stale; the index loses exactly the path's key when stale and is otherwise
   * untouched; a creation time is kept exactly when the answer is "not new".
   */
  lemma DecideRule(entries: map<string, CachedImage>, cachedPath: string, image: Option<CachedImage>,
                   isExpired: int -> bool, isUpdated: int -> bool)
    ensures var c := Decide(entries, cachedPath, image, isExpired, isUpdated);
      var stale := image.Some? && (isExpired(image.value.creationTimeUtc) || isUpdated(image.value.creationTimeUtc));
      && (c.isNewOrUpdated <==> image.None? || stale)
      && c.entries == (if stale then entries - {FileNameWithoutExtension(cachedPath)} else entries)
      && (c.kept.Some? <==> !c.isNewOrUpdated)
      && (c.kept.Some? ==> c.kept == Some(image.value.creationTimeUtc))
  {
  }

  /** A path without separators is its own file name. */
  lemma {:induction false} FileNameOfName(name: string)
    requires forall i :: 0 <= i < |name| ==> !IsSeparator(name[i])
    ensures FileName(name) == name
  {
    if |name| > 0 {
      FileNameOfName(name[..|name| - 1]);
      assert name == name[..|name| - 1] + [name[|name| - 1]];
    }
  }

  /** A directory in front of a name does not change its file name. */
  lemma {:induction false} FileNameAfterDirectory(directory: string, sep: char, name: string)
    requires IsSeparator(sep)
    ensures FileName(directory + [sep] + name) == FileName(name)
  {
    var p := directory + [sep] + name;
    if |name| == 0 {
      assert p[|p| - 1] == sep;
      assert FileName(p) == "" == FileName(name);
    } else if IsSeparator(name[|name| - 1]) {
      assert p[|p| - 1] == name[|name| - 1];
      assert FileName(p) == "" == FileName(name);
    } else {
      var last := name[|name| - 1];
      assert p[..|p| - 1] == directory + [sep] + name[..|name| - 1];
      assert p[|p| - 1] == last;
      FileNameAfterDirectory(directory, sep, name[..|name| - 1]);
      FileNameStep(p);
      FileNameStep(name);
    }
  }

  lemma FileNameStep(path: string)
    requires |path| > 0 && !IsSeparator(path[|path| - 1])
    ensures FileName(path) == FileName(path[..|path| - 1]) + [path[|path| - 1]]
  {
  }

  /**
   * Removing by a file's bare name removes what a lookup by its full path
   * finds: both use the same key.
   */
  lemma SameKeyInDirectory(directory: string, sep: char, name: string, entries: map<string, CachedImage>)
    requires IsSeparator(sep)
    ensures FileNameWithoutExtension(directory + [sep] + name) == FileNameWithoutExtension(name)
    ensures Lookup(entries - {FileNameWithoutExtension(name)}, directory + [sep] + name) == None
  {
    FileNameAfterDirectory(directory, sep, name);
  }

  /** The key of an image recorded on a miss is the one a later lookup of the same path uses. */
  lemma RecordedFound(entries: map<string, CachedImage>, cachedPath: string, creationTimeUtc: int)
    ensures Lookup(entries[Recorded(cachedPath, creationTimeUtc).key := Recorded(cachedPath, creationTimeUtc)], cachedPath)
      == Some(Recorded(cachedPath, creationTimeUtc))
  {
  }

  /** The last `.` of `stem.ext` is the one before an extension without dots. */
  lemma {:induction false} LastDotBeforeExtension(stem: string, ext: string)
    requires '.' !in ext
    ensures LastDot(stem + "." + ext) == Some(|stem|)
  {
    var n := stem + "." + ext;
    if |ext| > 0 {
      assert n[..|n| - 1] == stem + "." + ext[..|ext| - 1];
      assert n[|n| - 1] == ext[|ext| - 1];
      LastDotBeforeExtension(stem, ext[..|ext| - 1]);
    }
  }

  /** Two parts without separators make a whole without one. */
  lemma ConcatWithoutSeparator(a: string, b: string)
    requires forall i :: 0 <= i < |a| ==> !IsSeparator(a[i])
    requires forall i :: 0 <= i < |b| ==> !IsSeparator(b[i])
    ensures forall i :: 0 <= i < |a + b| ==> !IsSeparator((a + b)[i])
  {
    forall i | 0 <= i < |a + b| ensures !IsSeparator((a + b)[i]) {
      if i >= |a| { assert (a + b)[i] == b[i - |a|]; }
    }
  }

  lemma NameWithoutSeparator(stem: string, ext: string)
    requires forall i :: 0 <= i < |stem| ==> !IsSeparator(stem[i])
    requires forall i :: 0 <= i < |ext| ==> !IsSeparator(ext[i])
    ensures forall i :: 0 <= i < |stem + "." + ext| ==> !IsSeparator((stem + "." + ext)[i])
  {
    var name := stem + "." + ext;
    forall i | 0 <= i < |name| ensures !IsSeparator(name[i]) {
      if i < |stem| { assert name[i] == stem[i]; }
      else if i > |stem| { assert name[i] == ext[i - |stem| - 1]; }
    }
  }

  /**
   * A file `stem.ext` in any directory is indexed under `stem`, provided the
   * extension has no dot and neither part a separator.
   */
  lemma KeyOfPath(directory: string, sep: char, stem: string, ext: string)
    requires IsSeparator(sep) && '.' !in ext
    requires forall i :: 0 <= i < |stem| ==> !IsSeparator(stem[i])
    requires forall i :: 0 <= i < |ext| ==> !IsSeparator(ext[i])
    ensures FileNameWithoutExtension(directory + [sep] + (stem + "." + ext)) == stem
  {
    FileNameInDirectory(directory, sep, stem, ext);
    KeyOfFileName(directory + [sep] + (stem + "." + ext), stem, ext);
  }

  lemma FileNameInDirectory(directory: string, sep: char, stem: string, ext: string)
    requires IsSeparator(sep)
    requires forall i :: 0 <= i < |stem| ==> !IsSeparator(stem[i])
    requires forall i :: 0 <= i < |ext| ==> !IsSeparator(ext[i])
    ensures FileName(directory + [sep] + (stem + "." + ext)) == stem + "." + ext
  {
    NameWithoutSeparator(stem, ext);
    FileNameOfName(stem + "." + ext);
    FileNameAfterDirectory(directory, sep, stem + "." + ext);
  }

  lemma KeyOfFileName(path: string, stem: string, ext: string)
    requires '.' !in ext && FileName(path) == stem + "." + ext
    ensures FileNameWithoutExtension(path) == stem
  {
    LastDotBeforeExtension(stem, ext);
    assert (stem + "." + ext)[..|stem|] == stem;
  }

  /**
   * After the lazy fill, a later lookup of the same path finds exactly the
   * image the adapter goes on with, and only the path's key can have changed.
   */
  lemma LazyFillRule(entries: map<string, CachedImage>, cachedPath: string, stored: Option<int>)
    ensures var f := LazyFill(entries, cachedPath, stored);
      && Lookup(f.entries, cachedPath) == f.image
      && (Lookup(entries, cachedPath).Some? ==> f == Fill(entries, Lookup(entries, cachedPath)))
      && (Lookup(entries, cachedPath).None? && stored.None? ==> f == Fill(entries, None))
      && (Lookup(entries, cachedPath).None? && stored.Some? ==>
            f.image == Some(CachedImage(FileNameWithoutExtension(cachedPath), cachedPath, stored.value)))
      && (forall k :: k != FileNameWithoutExtension(cachedPath) ==>
            (k in f.entries <==> k in entries) && (k in entries ==> f.entries[k] == entries[k]))
  {
  }

  /**
   * The freshness state machine: nothing known means new and no index change;
   * a stale image means new and the path's key gone from the index, whether
   * it was there before or was just recorded; a fresh image means "not new",
   * its creation time kept, and a later lookup finding it.
   */
  lemma FreshnessRule(entries: map<string, CachedImage>, cachedPath: string, stored: Option<int>,
                      isExpired: int -> bool, isUpdated: int -> bool)
    ensures var c := Freshness(entries, cachedPath, stored, isExpired, isUpdated);
      var image := LazyFill(entries, cachedPath, stored).image;
      var key := FileNameWithoutExtension(cachedPath);
      && (image.None? ==> c == Check(true, entries, None))
      && (image.Some? && (isExpired(image.value.creationTimeUtc) || isUpdated(image.value.creationTimeUtc)) ==>
            c == Check(true, entries - {key}, None))
      && (image.Some? && !isExpired(image.value.creationTimeUtc) && !isUpdated(image.value.creationTimeUtc) ==>
            !c.isNewOrUpdated && c.kept == Some(image.value.creationTimeUtc) && Lookup(c.entries, cachedPath) == image)
  {
    var key := FileNameWithoutExtension(cachedPath);
    if key in entries {
      FillOnHit(entries, cachedPath, stored);
    } else if stored.Some? {
      FillOnRecord(entries, cachedPath, stored.value);
      RecordThenRemove(entries, key, Recorded(cachedPath, stored.value));
    }
  }

  /** An index hit fills nothing and finds the indexed image. */
  lemma FillOnHit(entries: map<string, CachedImage>, cachedPath: string, stored: Option<int>)
    requires FileNameWithoutExtension(cachedPath) in entries
    ensures LazyFill(entries, cachedPath, stored) == Fill(entries, Some(entries[FileNameWithoutExtension(cachedPath)]))
  {
  }

  /** A miss with a stored copy records it, and a later lookup finds the recorded image. */
  lemma FillOnRecord(entries: map<string, CachedImage>, cachedPath: string, stored: int)
    requires FileNameWithoutExtension(cachedPath) !in entries
    ensures var image := Recorded(cachedPath, stored);
      && LazyFill(entries, cachedPath, Some(stored)) == Fill(entries[image.key := image], Some(image))
      && Lookup(entries[image.key := image], cachedPath) == Some(image)
  {
  }

  /** Recording a key and removing it again leaves the other keys as they were. */
  lemma RecordThenRemove(entries: map<string, CachedImage>, key: string, image: CachedImage)
    ensures entries[key := image] - {key} == entries - {key}
  {
    assert entries[key := image] - {key} == entries - {key};
  }
}
