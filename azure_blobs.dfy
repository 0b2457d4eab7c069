/**
 * What the two Azure blob caches (src/ImageProcessor.Web.Episerver.Azure/
 * AzureBlobCache.cs and AzureBlobCacheAlt.cs) share, written once: the
 * container fallback, the settings they read, `int.TryParse`, the paged
 * blob listing, the upload's `Cache-Control`, the answers a request to
 * blob storage can get, and the `If-Modified-Since` mapping.  The storage
 * SDK, the web requests and the date parser are parameters.
 */
module AzureBlobs {
  import opened Wrappers
  import opened Text
  import opened CacheIndex
  import opened Cancellation
  import opened Sorting

  /** The prefix of every cached blob name. */
  const Prefix := "3p!_"

  /** The container of images that are not Episerver media. */
  const StaticContainer := "_3p!_static"

  datatype Error = IndexOutOfRange | ArgumentOutOfRange | ArgumentNull

  /**
   * `media?.BinaryDataContainer?.Segments[1]`, falling back to the static
   * container: `segments` is `None` when the routed content is not media or
   * has no container; fewer than two segments make the indexer throw.
   */
  function ContainerName(segments: Option<seq<string>>): (r: Result<string, Error>)
    ensures segments.None? ==> r == Ok(StaticContainer)
    ensures segments.Some? ==> (r.Ok? <==> |segments.value| >= 2) && (r.Ok? ==> r.value == segments.value[1])
  {
    match segments
    case None => Ok(StaticContainer)
    case Some(s) => if |s| < 2 then Err(IndexOutOfRange) else Ok(s[1])
  }

  // ---------------------------------------------------------------------------------------------
  // Settings

  /** `Settings.ContainsKey(key) && Settings[key].ToLower() == "true"` */
  predicate SettingIsTrue(settings: map<string, string>, key: string)
  {
    key in settings && ToLower(settings[key]) == "true"
  }

  /** `Settings.ContainsKey(key) && Settings[key].ToLower() != "false"` */
  predicate SettingIsNotFalse(settings: map<string, string>, key: string)
  {
    key in settings && ToLower(settings[key]) != "false"
  }

  const Int32Min := -0x8000_0000
  const Int32Max := 0x7FFF_FFFF

  /** A C# `int` result of an unchecked computation. */
  function Wrap32(x: int): (r: int)
    ensures Int32Min <= r <= Int32Max
    ensures Int32Min <= x <= Int32Max ==> r == x
    ensures (x - r) % 0x1_0000_0000 == 0
  {
    var m := x % 0x1_0000_0000;
    if m > Int32Max then m - 0x1_0000_0000 else m
  }

  /** The white space `int.Parse` skips around a number. */
  const ParseWhite: set<char> := {' ', '\t', '\n', '\U{000B}', '\U{000C}', '\r'}

  predicate AllDigits(s: string)
  {
    forall i :: 0 <= i < |s| ==> IsDigit(s[i])
  }

  function DigitsValue(s: string): nat
    requires AllDigits(s)
  {
    if s == [] then 0 else DigitsValue(s[..|s| - 1]) * 10 + (s[|s| - 1] as int - '0' as int)
  }

  /**
   * The number an integer text denotes, whatever its size: optional white
   * space around an optional sign and at least one decimal digit; `None`
   * for any other text.
   */
  function ParsedNumber(s: string): Option<int>
  {
    var t := TrimStart(TrimEnd(s, ParseWhite), ParseWhite);
    var signed := |t| > 0 && (t[0] == '-' || t[0] == '+');
    var digits := if signed then t[1..] else t;
    if digits == [] || !AllDigits(digits) then None
    else Some(if |t| > 0 && t[0] == '-' then 0 - DigitsValue(digits) else DigitsValue(digits))
  }

  /** `int.TryParse(s, out t)`: a well-formed integer text within the range of `int`. */
  function TryParseInt32(s: string): (r: Option<int>)
    ensures r.Some? ==> Int32Min <= r.value <= Int32Max
    ensures r.Some? <==> ParsedNumber(s).Some? && Int32Min <= ParsedNumber(s).value <= Int32Max
    ensures r.Some? ==> r == ParsedNumber(s)
  {
    match ParsedNumber(s)
    case None => None
    case Some(v) => if Int32Min <= v <= Int32Max then Some(v) else None
  }

  /** The timeout before a request gives up when no setting is given. */
  const DefaultTimeout := 1000

  /** The constructor's timeout: the setting when present, parsed, `0` when it does not parse. */
  function Timeout(settings: map<string, string>, key: string): int
  {
    if key in settings then TryParseInt32(settings[key]).GetOr(0) else DefaultTimeout
  }

  /** `"public, max-age=" + BrowserMaxDays * 86400`, multiplied as C# `int`s. */
  function CacheControl(browserMaxDays: int): string
  {
    "public, max-age=" + IntToString(Wrap32(browserMaxDays * 86400))
  }

  // ---------------------------------------------------------------------------------------------
  // Listing

  /** An item of a listing: a block blob with its last-modified time, or anything else. */
  datatype BlobItem = BlockBlob(name: string, lastModified: Option<int>) | OtherItem(name: string)

  /** `results.Where(item is CloudBlockBlob)` */
  function BlockBlobs(items: seq<BlobItem>): (r: seq<BlobItem>)
    ensures forall b :: b in r <==> b in items && b.BlockBlob?
  {
    if items == [] then []
    else if items[0].BlockBlob? then [items[0]] + BlockBlobs(items[1..])
    else BlockBlobs(items[1..])
  }

  /** The sort key `b.Properties.LastModified?.UtcDateTime ?? new DateTime()`. */
  function LastModifiedOrMin(b: BlobItem): int
  {
    if b.BlockBlob? && b.lastModified.Some? then b.lastModified.value else MinValue
  }

  /** The segment the listing's `k`-th request returns; `pages` is what the container holds, segment by segment. */
  function Page(pages: seq<seq<BlobItem>>, k: nat): seq<BlobItem>
  {
    if k < |pages| then pages[k] else []
  }

  function Flatten(pages: seq<seq<BlobItem>>): seq<BlobItem>
  {
    if pages == [] then [] else pages[0] + Flatten(pages[1..])
  }

  /**
   * The listing from request `k` on, and the checks it has made: a segment
   * is fetched, then the loop goes on only while the token is not cancelled
   * and a continuation remains.
   */
  function Listing(pages: seq<seq<BlobItem>>, k: nat, checks: nat, budget: nat): (seq<BlobItem>, nat)
    decreases |pages| - k
  {
    if checks >= budget || k + 1 >= |pages| then (Page(pages, k), checks + 1)
    else
      var rest := Listing(pages, k + 1, checks + 1, budget);
      (Page(pages, k) + rest.0, rest.1)
  }

  /** The `do … while` listing loop of a trim. */
  method ListBlobs(token: CancellationToken, pages: seq<seq<BlobItem>>) returns (results: seq<BlobItem>)
    modifies token
    ensures (results, token.checks) == Listing(pages, 0, old(token.checks), token.budget)
  {
    ghost var whole := Listing(pages, 0, token.checks, token.budget);
    results := [];
    var k := 0;
    while true
      invariant results + Listing(pages, k, token.checks, token.budget).0 == whole.0
      invariant Listing(pages, k, token.checks, token.budget).1 == whole.1
      decreases |pages| - k
    {
      var segment := Page(pages, k);
      var more := k + 1 < |pages|;
      var cancelled := token.IsCancellationRequested();
      if cancelled || !more {
        results := results + segment;
        return;
      }
      ghost var rest := Listing(pages, k + 1, token.checks, token.budget);
      assert results + (segment + rest.0) == (results + segment) + rest.0;
      results := results + segment;
      k := k + 1;
    }
  }

  /** What a blob trim's delete loop leaves: the names deleted in order and the checks made. */
  datatype BlobSweep = BlobSweep(deleted: seq<string>, checks: nat)

  /** The blobs a trim keeps on age: those with a last-modified time that has not expired. */
  predicate DatedUnexpired(b: BlobItem, isExpired: int -> bool)
  {
    b.BlockBlob? && b.lastModified.Some? && !isExpired(b.lastModified.value)
  }

  /** An expiry rule under which anything older than an expired time is expired too. */
  ghost predicate MonotoneExpiry(isExpired: int -> bool)
  {
    forall t, u :: t <= u && isExpired(u) ==> isExpired(t)
  }

  function Names(blobs: seq<BlobItem>): (r: seq<string>)
    ensures |r| == |blobs| && forall i :: 0 <= i < |blobs| ==> r[i] == blobs[i].name
  {
    if blobs == [] then [] else [blobs[0].name] + Names(blobs[1..])
  }

  /** The index keys `CacheIndexer.Remove` drops for these blob names. */
  function KeysOf(names: seq<string>): set<string>
  {
    if names == [] then {} else KeysOf(names[..|names| - 1]) + {FileNameWithoutExtension(names[|names| - 1])}
  }

  /** Removing one more name's key removes the keys of the longer list. */
  lemma RemoveOneMore(entries: map<string, CachedImage>, names: seq<string>, name: string)
    ensures (entries - KeysOf(names)) - {FileNameWithoutExtension(name)} == entries - KeysOf(names + [name])
  {
    assert (names + [name])[..|names|] == names;
  }

  /** The blocks of a trim, oldest first: the block blobs sorted on their last-modified time. */
  function ByAge(listing: seq<BlobItem>): (r: seq<BlobItem>)
    ensures SortedBy(r, LastModifiedOrMin) && multiset(r) == multiset(BlockBlobs(listing))
    ensures forall b :: b in r <==> b in listing && b.BlockBlob?
  {
    var r := SortBy(BlockBlobs(listing), LastModifiedOrMin);
    assert forall b :: b in r <==> b in BlockBlobs(listing) by {
      forall b ensures b in r <==> b in BlockBlobs(listing) {
        assert b in r <==> b in multiset(r);
        assert b in BlockBlobs(listing) <==> b in multiset(BlockBlobs(listing));
      }
    }
    r
  }

  // ---------------------------------------------------------------------------------------------
  // Requests to blob storage

  const NotModifiedStatus := 304

  /** A response: its status, URI, the two headers copied on, its content type, and whether it has a stream. */
  datatype HttpResponse = HttpResponse(statusCode: int, responseUri: string, eTag: Option<string>,
                                       lastModified: Option<string>, contentType: string, hasStream: bool)

  /** How `GetResponse` ends: with a response, or with a `WebException` that may carry one. */
  datatype Probe = Answered(response: HttpResponse) | Failed(errorResponse: Option<HttpResponse>)

  /**
   * The response a request goes on with: a success, or an error response
   * that is a 304 or comes from `expected` (case ignored).
   */
  function Accepted(probe: Probe, expected: string): Option<HttpResponse>
  {
    match probe
    case Answered(r) => Some(r)
    case Failed(None) => None
    case Failed(Some(r)) => if r.statusCode == NotModifiedStatus || EqualsIgnoreCase(r.responseUri, expected) then Some(r) else None
  }

  /** The `ETag` and `Last-Modified` headers of a streamed response that are not blank. */
  function CopiedHeaders(r: HttpResponse): seq<(string, string)>
  {
    (if IsNullOrWhiteSpace(r.eTag) then [] else [("ETag", r.eTag.value)])
    + (if IsNullOrWhiteSpace(r.lastModified) then [] else [("Last-Modified", r.lastModified.value)])
  }

  /** What stream mode writes: nothing but a log line, nothing at all, or the stream with its headers. */
  datatype Streamed =
    | LoggedOnly
    | NoStream
    | Streamed(clearedHeaders: bool, headers: seq<(string, string)>, contentType: Option<string>, statusCode: int)

  /** Stream mode once the response is known; `expected` is the URI an error response may come from. */
  function StreamResponse(probe: Probe, expected: string, clearsHeaders: bool): Streamed
  {
    match Accepted(probe, expected)
    case None => LoggedOnly
    case Some(r) =>
      if !r.hasStream then NoStream
      else Streamed(clearsHeaders, CopiedHeaders(r), if r.statusCode == NotModifiedStatus then None else Some(r.contentType), r.statusCode)
  }

  /** The request headers stream mode copies onto its request, when present. */
  function ForwardedHeaders(requestHeaders: map<string, string>): seq<(string, string)>
  {
    (if "Cache-Control" in requestHeaders then [("Cache-Control", requestHeaders["Cache-Control"])] else [])
    + (if "If-None-Match" in requestHeaders then [("If-None-Match", requestHeaders["If-None-Match"])] else [])
  }

  /** How redirect mode ends: a redirect to a URL, or a log line and no redirect. */
  datatype Redirected = RedirectTo(url: string) | RedirectLogged

  /** `RewritePath`: the URL its request is made for, and what stream or redirect mode writes. */
  datatype Rewrite =
    | Streaming(target: string, request: StreamRequest, streamed: Streamed)
    | Redirecting(target: string, redirect: Redirected)

  /** What an upload sets on the blob: its name, content type, `Cache-Control` and one metadata pair. */
  datatype BlobUpload = BlobUpload(blob: string, contentType: string, cacheControl: string, metadata: (string, string))

  /** What `TrySetIfModifiedSinceDate` leaves: the date set on the request, and whether it logged. */
  datatype IfModifiedSince = IfModifiedSince(date: Option<int>, logged: bool)

  /**
   * `TrySetIfModifiedSinceDate`, with `parse` for `DateTime.TryParse`: the
   * header's date when it parses; else, when it mentions "utc" in any case,
   * the date of the lower-cased header with "utc" removed, if that parses;
   * else a log line.
   */
  function TrySetIfModifiedSince(header: string, parse: string -> Option<int>): IfModifiedSince
  {
    if parse(header).Some? then IfModifiedSince(parse(header), false)
    else if Contains(ToLower(header), "utc") then IfModifiedSince(parse(Replace(ToLower(header), "utc", "")), false)
    else IfModifiedSince(None, true)
  }

  /** The request stream mode sends: its `If-Modified-Since`, the headers copied on, its timeout. */
  datatype StreamRequest = StreamRequest(ifModifiedSince: IfModifiedSince, headers: seq<(string, string)>, timeout: int)

  function PrepareStreamRequest(requestHeaders: map<string, string>, parse: string -> Option<int>, timeout: int): StreamRequest
  {
    var since := if "If-Modified-Since" in requestHeaders then TrySetIfModifiedSince(requestHeaders["If-Modified-Since"], parse)
                 else IfModifiedSince(None, false);
    StreamRequest(since, ForwardedHeaders(requestHeaders), timeout)
  }

  // ---------------------------------------------------------------------------------------------
  // Properties

  lemma {:induction false} DigitsRoundTrip(n: nat)
    ensures AllDigits(NatToString(n)) && DigitsValue(NatToString(n)) == n
    decreases n
  {
    NatToStringDigits(n);
    if n >= 10 {
      DigitsRoundTrip(n / 10);
      var s := NatToString(n);
      assert s[..|s| - 1] == NatToString(n / 10);
    }
  }

  /** `int.TryParse` reads back every `int` that `ToString` wrote. */
  lemma ParseRoundTrip(i: int)
    requires Int32Min <= i <= Int32Max
    ensures TryParseInt32(IntToString(i)) == Some(i)
  {
    var s := IntToString(i);
    var n := if i < 0 then -i else i;
    DigitsRoundTrip(n);
    var d := NatToString(n);
    assert d[|d| - 1] !in ParseWhite;
    assert s[|s| - 1] == d[|d| - 1];
    assert TrimEnd(s, ParseWhite) == s;
    assert s[0] == '-' || s[0] == d[0];
    assert TrimStart(s, ParseWhite) == s;
    if i < 0 {
      assert s[1..] == d;
    }
  }

  /** The timeout: absent, the default; present, what it parses to; `0` when it does not parse. */
  lemma TimeoutRule(settings: map<string, string>, key: string)
    ensures key !in settings ==> Timeout(settings, key) == 1000
    ensures key in settings && TryParseInt32(settings[key]).None? ==> Timeout(settings, key) == 0
    ensures forall i :: Int32Min <= i <= Int32Max && key in settings && settings[key] == IntToString(i) ==> Timeout(settings, key) == i
  {
    forall i | Int32Min <= i <= Int32Max && key in settings && settings[key] == IntToString(i)
      ensures Timeout(settings, key) == i
    {
      ParseRoundTrip(i);
    }
  }

  /**
   * The settings flags ignore case: two settings whose values differ only
   * in the case of their letters agree on both flags.  Streaming is on
   * exactly for the four letters of `true`, each in either case, and then
   * the container flag is on too; an absent setting turns both off.
   */
  lemma SettingRules(settings: map<string, string>, other: map<string, string>, key: string)
    requires key in settings <==> key in other
    requires key in settings ==> ToLower(settings[key]) == ToLower(other[key])
    ensures SettingIsTrue(settings, key) <==> SettingIsTrue(other, key)
    ensures SettingIsNotFalse(settings, key) <==> SettingIsNotFalse(other, key)
    ensures SettingIsTrue(settings, key) <==> key in settings && IsTrueInAnyCase(settings[key])
    ensures SettingIsTrue(settings, key) ==> SettingIsNotFalse(settings, key)
    ensures key !in settings ==> !SettingIsTrue(settings, key) && !SettingIsNotFalse(settings, key)
  {
    if key in settings {
      TrueInAnyCase(settings[key]);
    }
  }

  /** Each of the four letters of `true`, lower or upper case. */
  predicate IsTrueInAnyCase(v: string)
  {
    |v| == 4 && forall i :: 0 <= i < 4 ==> v[i] == "true"[i] || v[i] == "TRUE"[i]
  }

  lemma TrueInAnyCase(v: string)
    ensures ToLower(v) == "true" <==> IsTrueInAnyCase(v)
  {
    if IsTrueInAnyCase(v) {
      forall i | 0 <= i < 4
        ensures ToLower(v)[i] == "true"[i]
      {
        assert LowerChar("TRUE"[i]) == "true"[i];
      }
    }
    if ToLower(v) == "true" {
      forall i | 0 <= i < 4
        ensures v[i] == "true"[i] || v[i] == "TRUE"[i]
      {
        assert LowerChar(v[i]) == "true"[i];
      }
    }
  }

  /**
   * Up to a week and more of days (below 24856) the max-age is the number of
   * seconds in them, and it reads back as that number; beyond, the C# `int`
   * product wraps around.
   */
  lemma CacheControlRule(browserMaxDays: int)
    requires 0 <= browserMaxDays <= 24855
    ensures CacheControl(browserMaxDays) == "public, max-age=" + IntToString(browserMaxDays * 86400)
    ensures TryParseInt32(CacheControl(browserMaxDays)[16..]) == Some(browserMaxDays * 86400)
  {
    ParseRoundTrip(browserMaxDays * 86400);
    assert CacheControl(browserMaxDays)[16..] == IntToString(browserMaxDays * 86400);
  }

  /** `25000` days overflow: the header then carries a negative age. */
  lemma CacheControlWraps()
    ensures Wrap32(25000 * 86400) < 0
  {
  }

  /**
   * The listing fetches the first segment even when already cancelled, and
   * every segment while never cancelled.
   */
  lemma {:induction false} ListingRule(pages: seq<seq<BlobItem>>, k: nat, checks: nat, budget: nat)
    requires k <= |pages|
    ensures checks >= budget ==> Listing(pages, k, checks, budget).0 == Page(pages, k)
    ensures checks + (|pages| - k) <= budget && k < |pages| ==> Listing(pages, k, checks, budget).0 == Flatten(pages[k..])
    decreases |pages| - k
  {
    if checks + (|pages| - k) <= budget && k < |pages| {
      if k + 1 >= |pages| {
        assert pages[k..] == [pages[k]];
        assert Flatten(pages[k..][1..]) == [];
      } else {
        ListingRule(pages, k + 1, checks + 1, budget);
        assert pages[k..][1..] == pages[k + 1..];
        assert Flatten(pages[k..]) == pages[k] + Flatten(pages[k + 1..]);
      }
    }
  }

  /**
   * The error answers a request accepts: a 304 or one from the expected URI,
   * in any case; anything else, and no answer at all, is not accepted.
   */
  lemma AcceptedRule(probe: Probe, expected: string)
    ensures probe.Answered? ==> Accepted(probe, expected) == Some(probe.response)
    ensures probe.Failed? && probe.errorResponse.Some? ==>
      (Accepted(probe, expected).Some? <==>
         probe.errorResponse.value.statusCode == 304 || ToLower(probe.errorResponse.value.responseUri) == ToLower(expected))
    ensures probe == Failed(None) ==> Accepted(probe, expected).None?
  {
  }

  /**
   * Stream mode copies only non-blank `ETag` and `Last-Modified` values,
   * drops the content type of a 304, and writes nothing without an accepted
   * response.
   */
  lemma StreamRule(probe: Probe, expected: string, clearsHeaders: bool)
    ensures var s := StreamResponse(probe, expected, clearsHeaders);
      && (s.LoggedOnly? <==> Accepted(probe, expected).None?)
      && (s.Streamed? ==>
            var r := Accepted(probe, expected).value;
            && s.clearedHeaders == clearsHeaders
            && (("ETag", r.eTag.GetOr("")) in s.headers <==> !IsNullOrWhiteSpace(r.eTag))
            && (forall h :: h in s.headers ==> h.1 != "" && (h.0 == "ETag" || h.0 == "Last-Modified"))
            && (s.contentType.None? <==> r.statusCode == 304))
  {
    match Accepted(probe, expected)
    case None =>
    case Some(r) =>
      if r.hasStream {
        var h := CopiedHeaders(r);
        if IsNullOrWhiteSpace(r.eTag) {
          assert forall x :: x in h ==> x.0 == "Last-Modified";
        }
      }
  }

  /**
   * `If-Modified-Since`: a date is set exactly when the header parses, or it
   * mentions "utc" and parses without it; a log line is written exactly
   * when it neither parses nor mentions "utc"; a header that mentions "utc"
   * and still does not parse is dropped silently.
   */
  lemma IfModifiedSinceRule(header: string, parse: string -> Option<int>)
    ensures var r := TrySetIfModifiedSince(header, parse);
      var retry := parse(Replace(ToLower(header), "utc", ""));
      && (r.date.Some? <==> parse(header).Some? || (Contains(ToLower(header), "utc") && retry.Some?))
      && (r.logged <==> parse(header).None? && !Contains(ToLower(header), "utc"))
      && (parse(header).Some? ==> r.date == parse(header))
  {
  }
}
