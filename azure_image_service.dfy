/**
 * The image service for Episerver on Azure
 * (src/ImageProcessor.Web.Episerver.Azure/AzureImageService.cs): it routes
 * the requested URL to a content item and downloads that item's blob from
 * the storage account.  The blob host and container are process-wide
 * statics, set by the first service constructed; the routing, the URI
 * resolution and the download are parameters.
 */
module AzureImageServices {
  import opened Wrappers
  import opened Text
  import AzureBlobs

  /** The exceptions `GetImage` throws. */
  datatype Error = ArgumentNull | KeyNotFound | Format | Overflow | NotFound(uri: string)

  /**
   * What the blob configuration gives the first constructor: the default
   * provider's "container" parameter and the blob client's base URI.
   */
  datatype BlobConfiguration = BlobConfiguration(container: Option<string>, baseUri: string)

  /**
   * A routed content item: whether the current user may read it, and for
   * binary content the absolute path of its blob's ID.
   */
  datatype Content = Content(readable: bool, binaryPath: Option<string>)

  const DefaultMaxBytes := 4194304
  const DefaultTimeout := 30000

  /** The settings each service starts with. */
  function DefaultSettings(hostName: Option<string>, containerName: Option<string>): map<string, Option<string>>
  {
    map["MaxBytes" := Some("4194304"), "Timeout" := Some("30000"), "Host" := hostName, "Container" := containerName]
  }

  /**
   * `int.Parse(Settings[key])`, with the exceptions it throws: a missing
   * key, a null value, text that is not an integer (`FormatException`) and
   * an integer outside the range of `int` (`OverflowException`).
   */
  function SettingValue(settings: map<string, Option<string>>, key: string): (r: Result<int, Error>)
    ensures r.Err? ==> r.error in {KeyNotFound, ArgumentNull, Format, Overflow}
    ensures r == Err(KeyNotFound) <==> key !in settings
    ensures r == Err(ArgumentNull) <==> key in settings && settings[key].None?
    ensures r == Err(Format) <==> key in settings && settings[key].Some? && AzureBlobs.ParsedNumber(settings[key].value).None?
    ensures r == Err(Overflow) <==>
      key in settings && settings[key].Some? && AzureBlobs.ParsedNumber(settings[key].value).Some?
      && !(AzureBlobs.Int32Min <= AzureBlobs.ParsedNumber(settings[key].value).value <= AzureBlobs.Int32Max)
    ensures r.Ok? <==> key in settings && settings[key].Some? && AzureBlobs.TryParseInt32(settings[key].value).Some?
    ensures r.Ok? ==> AzureBlobs.TryParseInt32(settings[key].value) == Some(r.value)
  {
    if key !in settings then Err(KeyNotFound)
    else if settings[key].None? then Err(ArgumentNull)
    else match AzureBlobs.ParsedNumber(settings[key].value)
      case None => Err(Format)
      case Some(v) => if AzureBlobs.Int32Min <= v <= AzureBlobs.Int32Max then Ok(v) else Err(Overflow)
  }

  /** The container with its trailing slashes replaced by one. */
  function NormalizedContainer(container: string): (r: string)
    ensures |r| > 0 && r[|r| - 1] == '/'
  {
    TrimEnd(container, {'/'}) + "/"
  }

  /**
   * The relative URL of a blob in the normalised container `c`.  The test
   * is against the container followed by one more slash, so only a URL
   * with a double slash after the container name is kept; any other gets
   * the container in front of it, without its leading slashes.
   */
  function Prefixed(relative: string, c: string): (r: string)
    ensures StartsWith(r, c)
    ensures r == relative <==> StartsWith(relative, c + "/") || relative == c + TrimStart(relative, {'/'})
  {
    if !StartsWith(relative, c + "/") then
      assert (c + TrimStart(relative, {'/'}))[..|c|] == c;
      c + TrimStart(relative, {'/'})
    else
      assert (c + "/")[..|c|] == c;
      relative
  }

  /**
   * The test as evidently intended: a URL already under the container is
   * kept, any other gets the container in front of it.
   */
  function CorrectedPrefixed(relative: string, c: string): string
  {
    if !StartsWith(relative, c) then c + TrimStart(relative, {'/'}) else relative
  }

  /** Whether the routed content is served: there is one and the user may read it. */
  predicate Servable(content: Option<Content>)
  {
    content.Some? && content.value.readable
  }

  /** The relative URL requested for servable content, given the container static. */
  function RelativeResourceUrl(content: Content, containerName: Option<string>): string
  {
    var relative := content.binaryPath.GetOr("");
    if IsNullOrEmpty(containerName) then relative else Prefixed(relative, NormalizedContainer(containerName.value))
  }

  /** The container static after a served request: normalised when it is set. */
  function ContainerAfter(containerName: Option<string>): (r: Option<string>)
    ensures IsNullOrEmpty(containerName) <==> IsNullOrEmpty(r)
  {
    if IsNullOrEmpty(containerName) then containerName else Some(NormalizedContainer(containerName.value))
  }

  /** The download from `uri` with the limits from the settings; a response without a stream is a 404. */
  function Download(uri: string, settings: map<string, Option<string>>, fetch: (string, int, int) -> Option<seq<bv8>>)
    : (r: Result<Option<seq<bv8>>, Error>)
    ensures r.Ok? ==> r.value.Some?
  {
    var maxBytes := SettingValue(settings, "MaxBytes");
    if maxBytes.Err? then Err(maxBytes.error)
    else
      var timeout := SettingValue(settings, "Timeout");
      if timeout.Err? then Err(timeout.error)
      else match fetch(uri, maxBytes.value, timeout.value)
        case None => Err(NotFound(uri))
        case Some(buffer) => Ok(Some(buffer))
  }

  /** The process-wide statics `hostName` and `containerName`. */
  class ImageServiceStatics {
    var hostName: Option<string>
    var containerName: Option<string>

    constructor ()
      ensures hostName.None? && containerName.None?
    {
      hostName := None;
      containerName := None;
    }
  }

  class ImageService {
    const statics: ImageServiceStatics
    const isFileLocalService: bool
    var prefix: string
    var settings: map<string, Option<string>>

    /**
     * The constructor: the first one (while the host is null or white
     * space) reads the host and container from the configuration.
     */
    constructor (statics: ImageServiceStatics, config: BlobConfiguration)
      modifies statics
      ensures this.statics == statics && !isFileLocalService && prefix == ""
      ensures IsNullOrWhiteSpace(old(statics.hostName)) ==>
        statics.hostName == Some(config.baseUri) && statics.containerName == config.container
      ensures !IsNullOrWhiteSpace(old(statics.hostName)) ==>
        statics.hostName == old(statics.hostName) && statics.containerName == old(statics.containerName)
      ensures settings == DefaultSettings(statics.hostName, statics.containerName)
    {
      this.statics := statics;
      isFileLocalService := false;
      prefix := "";
      new;
      if IsNullOrWhiteSpace(statics.hostName) {
        statics.containerName := config.container;
        statics.hostName := Some(config.baseUri);
      }
      settings := DefaultSettings(statics.hostName, statics.containerName);
    }

    /**
     * `GetImage`.  `route` is the URL resolver's routing, `resolve` combines
     * the host's URI with the relative URL, and `fetch(uri, maxBytes,
     * timeout)` is the remote file's response stream, `None` when it has
     * none.  `Ok(None)` is the source's `null`.
     */
    method GetImage(id: string, route: string -> Option<Content>, resolve: (string, string) -> string,
                    fetch: (string, int, int) -> Option<seq<bv8>>) returns (r: Result<Option<seq<bv8>>, Error>)
      modifies statics
      ensures statics.hostName == old(statics.hostName)
      ensures old(statics.hostName).None? ==> r == Err(ArgumentNull) && statics.containerName == old(statics.containerName)
      ensures old(statics.hostName).Some? && !Servable(route(id)) ==>
        r == Ok(None) && statics.containerName == old(statics.containerName)
      ensures old(statics.hostName).Some? && Servable(route(id)) ==>
        var uri := resolve(old(statics.hostName).value, RelativeResourceUrl(route(id).value, old(statics.containerName)));
        r == Download(uri, settings, fetch) && statics.containerName == ContainerAfter(old(statics.containerName))
    {
      if statics.hostName.None? {
        return Err(ArgumentNull);
      }
      var baseUri := statics.hostName.value;
      var content := route(id);
      if content.None? || !content.value.readable {
        return Ok(None);
      }
      var relative := content.value.binaryPath.GetOr("");
      if !IsNullOrEmpty(statics.containerName) {
        var c := NormalizedContainer(statics.containerName.value);
        statics.containerName := Some(c);
        relative := Prefixed(relative, c);
      }
      var uri := resolve(baseUri, relative);
      r := Download(uri, settings, fetch);
    }
  }

  // ---------------------------------------------------------------------------------------------
  // Properties

  /** Normalising twice changes nothing more: the static settles after the first served request. */
  lemma NormalizedContainerIdempotent(container: string)
    ensures NormalizedContainer(NormalizedContainer(container)) == NormalizedContainer(container)
    ensures ContainerAfter(ContainerAfter(Some(container))) == ContainerAfter(Some(container))
  {
    var t := TrimEnd(container, {'/'});
    TrimEndShape(container, {'/'});
    assert (t + "/")[..|t|] == t;
    assert TrimEnd(t + "/", {'/'}) == TrimEnd(t, {'/'});
    if |t| > 0 {
      assert t[|t| - 1] != '/';
    }
    assert TrimEnd(t, {'/'}) == t;
  }

  /**
   * The relative URL is always under the normalised container, keeps a URL
   * already under it, and is the same on a second request, once the static
   * has been normalised.
   */
  lemma RelativeResourceUrlRule(content: Content, containerName: Option<string>)
    ensures !IsNullOrEmpty(containerName) ==>
      StartsWith(RelativeResourceUrl(content, containerName), NormalizedContainer(containerName.value))
    ensures IsNullOrEmpty(containerName) ==> RelativeResourceUrl(content, containerName) == content.binaryPath.GetOr("")
    ensures RelativeResourceUrl(content, ContainerAfter(containerName)) == RelativeResourceUrl(content, containerName)
  {
    if !IsNullOrEmpty(containerName) {
      NormalizedContainerIdempotent(containerName.value);
    }
  }

  /**
   * The intended prefixing is idempotent and always under the container,
   * and it agrees with the test as written except on a URL that starts
   * with the container but not with the container and a second slash.
   */
  lemma PrefixedRule(relative: string, c: string)
    ensures StartsWith(CorrectedPrefixed(relative, c), c)
    ensures CorrectedPrefixed(CorrectedPrefixed(relative, c), c) == CorrectedPrefixed(relative, c)
    ensures StartsWith(relative, c) ==> CorrectedPrefixed(relative, c) == relative
    ensures !StartsWith(relative, c) || StartsWith(relative, c + "/") ==>
      CorrectedPrefixed(relative, c) == Prefixed(relative, c)
  {
    if !StartsWith(relative, c) {
      assert (c + TrimStart(relative, {'/'}))[..|c|] == c;
    }
    if StartsWith(relative, c + "/") {
      assert (c + "/")[..|c|] == c;
    }
  }

  /**
   * As written, a path already under the container "/media" gets it a
   * second time, so the test is not idempotent.
   */
  lemma WrittenPrefixTwice()
    ensures Prefixed("/media/x.jpg", NormalizedContainer("/media")) == "/media/media/x.jpg"
    ensures Prefixed(Prefixed("x.jpg", "/media/"), "/media/") != Prefixed("x.jpg", "/media/")
  {
    assert TrimEnd("/media", {'/'}) == "/media";
    assert "/media/x.jpg"[7] == 'x';
    assert !StartsWith("/media/x.jpg", "/media//") by {
      assert "/media/x.jpg"[7] != "/media//"[7];
    }
    assert TrimStart("/media/x.jpg", {'/'}) == "media/x.jpg" by {
      assert "/media/x.jpg"[1..] == "media/x.jpg";
      assert TrimStart("media/x.jpg", {'/'}) == "media/x.jpg";
    }
    assert TrimStart("x.jpg", {'/'}) == "x.jpg";
    assert !StartsWith("x.jpg", "/media//") by {
      assert |"x.jpg"| < |"/media//"|;
    }
    assert Prefixed("x.jpg", "/media/") == "/media/x.jpg";
    assert !StartsWith("/media/x.jpg", "/media//") by {
      assert "/media/x.jpg"[7] != "/media//"[7];
    }
    assert TrimStart("/media/x.jpg", {'/'}) == "media/x.jpg" by {
      assert "/media/x.jpg"[1..] == "media/x.jpg";
      assert TrimStart("media/x.jpg", {'/'}) == "media/x.jpg";
    }
  }

  /**
   * A new service's limits parse to 4194304 bytes and 30000 milliseconds,
   * so its download fails only with the 404 of a missing stream.
   */
  lemma DefaultDownloadRule(hostName: Option<string>, containerName: Option<string>, uri: string,
                            fetch: (string, int, int) -> Option<seq<bv8>>)
    ensures SettingValue(DefaultSettings(hostName, containerName), "MaxBytes") == Ok(DefaultMaxBytes)
    ensures SettingValue(DefaultSettings(hostName, containerName), "Timeout") == Ok(DefaultTimeout)
    ensures var r := Download(uri, DefaultSettings(hostName, containerName), fetch);
      && (r == Err(NotFound(uri)) <==> fetch(uri, DefaultMaxBytes, DefaultTimeout).None?)
      && (r.Ok? ==> r.value == fetch(uri, DefaultMaxBytes, DefaultTimeout))
  {
    DefaultLimitsParse();
    var settings := DefaultSettings(hostName, containerName);
    assert settings["MaxBytes"] == Some("4194304") && settings["Timeout"] == Some("30000");
  }

  lemma DefaultLimitsParse()
    ensures AzureBlobs.TryParseInt32("4194304") == Some(DefaultMaxBytes)
    ensures AzureBlobs.TryParseInt32("30000") == Some(DefaultTimeout)
  {
    DefaultLimitsText();
    AzureBlobs.ParseRoundTrip(DefaultMaxBytes);
    AzureBlobs.ParseRoundTrip(DefaultTimeout);
  }

  lemma DefaultLimitsText()
    ensures IntToString(DefaultMaxBytes) == "4194304" && IntToString(DefaultTimeout) == "30000"
  {
    assert NatToString(4) == "4";
    assert NatToString(41) == "41";
    assert NatToString(419) == "419";
    assert NatToString(4194) == "4194";
    assert NatToString(41943) == "41943";
    assert NatToString(419430) == "419430";
    assert NatToString(4194304) == "4194304";
    assert NatToString(3) == "3";
    assert NatToString(30) == "30";
    assert NatToString(300) == "300";
    assert NatToString(3000) == "3000";
    assert NatToString(30000) == "30000";
  }
}
