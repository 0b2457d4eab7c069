# ImageProcessor.Web.Episerver, modelled in Dafny

ImageProcessor.Web.Episerver connects the ImageProcessor image library to the
Episerver CMS. Editors and views build image URLs whose query strings ask
ImageProcessor for resizing, cropping, filters and watermarks. HTTP modules
clean Episerver's request URLs before ImageProcessor reads them. Cache
adapters keep the processed images beside Episerver's media blobs, on disk
or in Azure blob storage.

This project models the logic of those parts and proves what it promises:

- **Query-string builder** (`Urls`, `ExtensionCalls`, `UrlBuilderExtensions`,
  `UrlBuilderExtensionsLegacy`). Episerver's `UrlBuilder` is a class whose
  query collection is appended to in place. Each fluent extension method is a
  function giving its `Call`: the exception its argument checks throw, or the
  pairs it appends inside and outside its `IsEmpty` test. `ExtensionCalls.Apply`
  runs a call on a builder. Lemmas state the range guards, the pairs and their
  order, and which pairs escape the `IsEmpty` test.
- **Request-URL rewriting** (`VersionMarkers`, `EpiserverImageProcessingModule`,
  `ImageProcessingModuleEpiserver`). Episerver's `,,<digits>` version markers
  are deleted. The newer module also turns every second `?` into `&`; its
  `SecondOccuranceFinder` is a class with a match counter.
- **Picture markup** (`PictureUtils`, `PictureHelperLegacy`, `PictureHelper`,
  `HtmlHelperExtensions`, `Html`). An element is a tag name and an attribute
  map, and a `<picture>` is the sequence of its children. The `srcset`
  loops are methods, proved against specification functions.
- **Crop URLs** (`ImageReferenceExtensions` in C#, `CropHelpers` for the
  editor's JavaScript) and the JSON naming of the crop editor
  (`LowercaseContractResolver`). A stored crop `x,y,width,height` is asked for
  by its corners `x,y,x+width,y+height`.
- **Method blocks** (`MethodCollections`, `ProcessImageBlocks`, `CropBlocks`,
  `WatermarkBlocks`, `ReplaceColorBlocks`, `VignetteBlocks`,
  `ColorProperties`) and the edit UI's enum choices
  (`EnumSelectionFactory`). A content area of method blocks is folded over one
  shared builder. Nested collections are applied in depth-first order.
- **Cache adapters** (`CacheIndex`, `Cancellation`, `Sorting`, `AzureBlobs`,
  `FileBlobCaches`, `BlobCaches`, `AzureBlobCaches`, `AzureBlobCachesAlt`).
  Each cache is a class with the fields the source updates. The soft
  `CacheIndexer` is a class over a map. The freshness decision they share is
  `CacheIndex.Freshness`: look up, lazily fill on a miss, then keep or drop
  the image. Trims are loops over sorted listings, with a cancellation token,
  and each is proved against a sweep function.
- **Azure image service** (`AzureImageServices`). It composes the blob URL of
  a routed content item, and its host and container are process-wide statics.

The file system, blob storage, web requests, the clock, Episerver's routing
and content repository, and the library's own `CacheIndexer` expiry are not
run. Each is a parameter: a value such as `Disk`, a listing or a probe answer,
or a function such as `resolve`, `isExpired` or `getPictureData`. A method
that reads the file system takes it as a value and returns the new value.

The first `<picture>` helper (`PictureHelperLegacy`) merges every URL's
parameters into the one builder it is given. So after the webp `<source>`,
the default `<source>` and the `<img>` still ask for `format=webp` when the
image is a `.jpg`. The model keeps this as written; `PictureHelperLegacy.WebpLeaks`
states it.

The `BackgroundColor` extension methods accept an alpha of at most 55, while
red, green and blue may go up to 255. The model keeps that bound as written.

Times are .NET ticks, and `DateTime.MinValue` is 0. Integers are unbounded
in the model. The one 32-bit overflow it writes out is the `max-age`
product, which `AzureBlobs.Wrap32` wraps as the source does; the other
places where the source's fixed-width or floating-point numbers could
differ from unbounded integers (the crop corner sums, the numbers of the
crop editor's JavaScript) are listed under "## Left out".

## Model

| member | source | states |
|---|---|---|
| ExtensionCalls.Apply | src/ImageProcessor.Web.Episerver/Extensions/UrlBuilderExtensions.cs:13-22 | a null target throws `ArgumentNullException`; a failed argument check throws and leaves the query as it was; otherwise the guarded pairs (only on a non-empty builder) and then the unguarded ones are appended, the path is kept and the same builder is returned |
| UrlBuilderExtensions.GuardedEffect | src/ImageProcessor.Web.Episerver/Extensions/UrlBuilderExtensions.cs:24-33 | a call whose appends all sit inside the `IsEmpty` test adds every pair to a non-empty builder and nothing to an empty one |
| UrlBuilderExtensions.AlphaRange | src/ImageProcessor.Web.Episerver/Extensions/UrlBuilderExtensions.cs:41-53 | `Alpha` throws `ArgumentOutOfRangeException` exactly outside 0..100, and otherwise adds the single pair `alpha=<percentage>` |
| UrlBuilderExtensions.BackgroundColorRange | src/ImageProcessor.Web.Episerver/Extensions/UrlBuilderExtensions.cs:115-127 | the four-channel `BackgroundColor` throws exactly when a channel is negative, r, g or b is above 255 or a is above 55, and otherwise adds `bgcolor=r,g,b,a` |
| UrlBuilderExtensions.ContrastRange | src/ImageProcessor.Web.Episerver/Extensions/UrlBuilderExtensions.cs:135-147 | `Contrast` throws exactly outside 0..100, and otherwise adds the single pair `contrast=<value>` |
| UrlBuilderExtensions.CropModeOnEmptyBuilder | src/ImageProcessor.Web.Episerver/Extensions/UrlBuilderExtensions.cs:162-175 | the `cropmode=percentage` pair sits outside the `IsEmpty` test, so a percentage crop adds it even to an empty builder, while a pixel crop adds nothing there |
| UrlBuilderExtensions.KernelFilters | src/ImageProcessor.Web.Episerver/Extensions/UrlBuilderExtensions.cs:370-427 | `Blur` and `Sharpen` throw exactly when the kernel size is outside 0..22, sigma outside 0..5.1 or the threshold outside 0..100, and otherwise add the kernel key, `sigma` and `threshold` in that order |
| UrlBuilderExtensions.HueRange | src/ImageProcessor.Web.Episerver/Extensions/UrlBuilderExtensions.cs:455-471 | `Hue` throws exactly outside 0..360, and otherwise adds `hue=<angle>` and then `hue.rotate=true|false` |
| UrlBuilderExtensions.PixelateRange | src/ImageProcessor.Web.Episerver/Extensions/UrlBuilderExtensions.cs:560-574 | `Pixelate` throws exactly for a size below 1, and otherwise adds the single pair `pixelate=<size>` |
| UrlBuilderExtensions.QualityRange | src/ImageProcessor.Web.Episerver/Extensions/UrlBuilderExtensions.cs:582-596 | `Quality` throws exactly outside 1..100, and otherwise adds the single pair `quality=<value>` |
| UrlBuilderExtensions.UnguardedPairsOnEmptyBuilder | src/ImageProcessor.Web.Episerver/Extensions/UrlBuilderExtensions.cs:655-667 | a positive `fuzziness` is added even to an empty builder, and so is `rotatebounded.keepsize=true` when the size is kept; without them nothing is added there |
| UrlBuilderExtensions.ResizeWidth | src/ImageProcessor.Web.Episerver/Extensions/UrlBuilderExtensions.cs:745-746 | the full `Resize` writes exactly one `width` value when a width is given, and none otherwise |
| UrlBuilderExtensions.ResizeHeight | src/ImageProcessor.Web.Episerver/Extensions/UrlBuilderExtensions.cs:747-748 | exactly one `height` value when a height is given, none otherwise |
| UrlBuilderExtensions.ResizeWidthRatio | src/ImageProcessor.Web.Episerver/Extensions/UrlBuilderExtensions.cs:749-750 | exactly one `widthratio` value, the float's text, when a ratio is given |
| UrlBuilderExtensions.ResizeHeightRatio | src/ImageProcessor.Web.Episerver/Extensions/UrlBuilderExtensions.cs:751-752 | exactly one `heightratio` value, the float's text, when a ratio is given |
| UrlBuilderExtensions.ResizeMode | src/ImageProcessor.Web.Episerver/Extensions/UrlBuilderExtensions.cs:754-755 | the lower-cased mode name, unless the mode is the default `Pad` |
| UrlBuilderExtensions.ResizeAnchor | src/ImageProcessor.Web.Episerver/Extensions/UrlBuilderExtensions.cs:756-757 | the lower-cased anchor name, unless the anchor is the default `Center` |
| UrlBuilderExtensions.ResizeUpscale | src/ImageProcessor.Web.Episerver/Extensions/UrlBuilderExtensions.cs:758-759 | `upscale=false` when upscaling is off, and no `upscale` key when it is on |
| UrlBuilderExtensions.ResizeCenter | src/ImageProcessor.Web.Episerver/Extensions/UrlBuilderExtensions.cs:761-766 | one `center=x,y` value when either coordinate is given, the missing one written as 0, and none when both are missing |
| UrlBuilderExtensions.RoundedCornersRange | src/ImageProcessor.Web.Episerver/Extensions/UrlBuilderExtensions.cs:862-872 | `RoundedCorners` throws exactly for a negative radius, and otherwise starts with `roundedcorners=<radius>` inside the `IsEmpty` test |
| UrlBuilderExtensions.CornersOnEmptyBuilder | src/ImageProcessor.Web.Episerver/Extensions/UrlBuilderExtensions.cs:873-883 | the corner flags sit outside the `IsEmpty` test: an empty builder gets exactly one key per switched-off corner, in the order tl, tr, bl, br |
| UrlBuilderExtensions.SaturationRange | src/ImageProcessor.Web.Episerver/Extensions/UrlBuilderExtensions.cs:894-906 | `Saturation` throws exactly outside -100..100, and otherwise adds the single pair `saturation=<value>` |
| UrlBuilderExtensions.WatermarkRejectsBlank | src/ImageProcessor.Web.Episerver/Extensions/UrlBuilderExtensions.cs:1049-1050 | all three `Watermark` overloads throw `ArgumentNullException` exactly when the text is null, empty or white space |
| UrlBuilderExtensions.WatermarkLayout | src/ImageProcessor.Web.Episerver/Extensions/UrlBuilderExtensions.cs:1052-1070 | otherwise the keys come as `watermark` (only on a non-empty builder), then `fontfamily`, `color` and `textposition` when given, then the six font keys on every builder |
| UrlBuilderExtensions.LowerCasedEnums | src/ImageProcessor.Web.Episerver/Extensions/UrlBuilderExtensions.cs:62-71 | enum arguments are written with their names lower-cased (`all`, `sobel`, `both`, `png8`, ...) |
| UrlBuilderExtensions.WidthHeightSinglePair | src/ImageProcessor.Web.Episerver/Extensions/UrlBuilderExtensions.cs:778-804 | `Width` and `Height` each add exactly one pair to a non-empty builder and nothing to an empty one |
| UrlBuilderExtensionsLegacy.EmptyTargetUnchanged | src/ImageProcessor.Web.Episerver/UrlBuilderExtensions.cs:10-30 | in the older builder every append sits inside the `IsEmpty` test: on an empty builder `Add`, `Add(collection)`, `Width`, `Height`, `Autorotate`, `Blur` and an accepted `Alpha` append nothing |
| UrlBuilderExtensionsLegacy.AlphaRange | src/ImageProcessor.Web.Episerver/UrlBuilderExtensions.cs:38-50 | `Alpha` throws `ArgumentOutOfRangeException` exactly outside 0..100, and otherwise adds the single pair `alpha=<percentage>` |
| UrlBuilderExtensionsLegacy.ContrastRange | src/ImageProcessor.Web.Episerver/UrlBuilderExtensions.cs:132-144 | `Contrast` throws exactly outside 0..100, and otherwise adds the single pair `contrast=<value>` |
| UrlBuilderExtensionsLegacy.HueRange | src/ImageProcessor.Web.Episerver/UrlBuilderExtensions.cs:322-338 | `Hue` throws exactly outside 0..360, and otherwise adds `hue=<angle>` then `hue.rotate=true|false` |
| UrlBuilderExtensionsLegacy.BackgroundColorRange | src/ImageProcessor.Web.Episerver/UrlBuilderExtensions.cs:112-124 | the four-channel overload throws exactly when a channel is negative, r, g or b is above 255 or a is above 55, and otherwise adds `bgcolor=r,g,b,a` |
| UrlBuilderExtensionsLegacy.CropModeUnguarded | src/ImageProcessor.Web.Episerver/UrlBuilderExtensions.cs:159-172 | `cropmode=percentage` is added even to an empty builder, and after `crop` on a non-empty one; a pixel crop adds nothing to an empty builder |
| UrlBuilderExtensionsLegacy.LowerCasedValues | src/ImageProcessor.Web.Episerver/UrlBuilderExtensions.cs:59-86 | enum and bool values are written lower-cased (`first`, `true`/`false`), and `DetectEdges` adds the filter name as given |
| UrlBuilderExtensionsLegacy.KernelFiltersUnchecked | src/ImageProcessor.Web.Episerver/UrlBuilderExtensions.cs:275-313 | the older `Blur` and `Sharpen` never throw, and add their own key, `sigma` and `threshold` in that order |
| UrlBuilderExtensionsLegacy.WidthHeightSinglePair | src/ImageProcessor.Web.Episerver/UrlBuilderExtensions.cs:340-360 | `Width` and `Height` each add exactly one pair |
| UrlBuilderExtensionsLegacy.AgreesWithCurrentVersion | src/ImageProcessor.Web.Episerver/UrlBuilderExtensions.cs:38-360 | where both versions have a method they make the same call, except that only the current `Blur` and `Sharpen` check their ranges (a kernel size of 23 throws in one and not the other) |
| VersionMarkers.RemoveVersionMarkers | src/ImageProcessor.Web.Episerver/EpiserverImageProcessingModule.cs:28 | deleting the `,,<digits>` version markers never makes the URL longer |
| VersionMarkers.NoMarkerUnchanged | src/ImageProcessor.Web.Episerver/EpiserverImageProcessingModule.cs:28 | a URL without a `,,` followed by a digit comes back unchanged |
| VersionMarkers.MarkerDeleted | src/ImageProcessor.Web.Episerver/EpiserverImageProcessingModule.cs:12 | a marker is deleted together with its whole digit run (`\d+` is greedy), leaving only what follows |
| VersionMarkers.DoubleCommaKept | src/ImageProcessor.Web.Episerver/EpiserverImageProcessingModule.cs:12 | a `,,` not followed by a digit is not a marker and stays in the URL |
| VersionMarkers.OtherCharactersKept | src/ImageProcessor.Web.Episerver/EpiserverImageProcessingModule.cs:28 | only commas and digits are ever deleted: every other character keeps its number of occurrences |
| VersionMarkers.SinglePass | src/ImageProcessor.Web.Episerver/EpiserverImageProcessingModule.cs:28 | the replacement is one left-to-right pass and not a fixpoint: `,,,12,3` becomes `,,3`, which still holds a marker |
| EpiserverImageProcessingModule.SecondOccuranceFinder.constructor | src/ImageProcessor.Web.Episerver/EpiserverImageProcessingModule.cs:37-41 | a new finder keeps its replacement text and has seen no match |
| EpiserverImageProcessingModule.SecondOccuranceFinder.IsSecondOccurance | src/ImageProcessor.Web.Episerver/EpiserverImageProcessingModule.cs:47-54 | each call counts one match; the second, fourth, ... match is replaced and every other one is returned as it was |
| EpiserverImageProcessingModule.ReplaceQuestionMarks | src/ImageProcessor.Web.Episerver/EpiserverImageProcessingModule.cs:29 | running the finder over every `?` left to right gives the recursive rewrite of the whole string, and the finder's count grows by the number of `?` |
| EpiserverImageProcessingModule.GetRequestUrl | src/ImageProcessor.Web.Episerver/EpiserverImageProcessingModule.cs:15-32 | the request URL is the chosen base URL with its markers deleted and then every second `?` turned into `&` by a fresh finder |
| EpiserverImageProcessingModule.BaseUrlChoice | src/ImageProcessor.Web.Episerver/EpiserverImageProcessingModule.cs:19-26 | a first image service with no settings (local blob storage) selects the path and query; no service, or one with settings (Azure), selects the absolute URI |
| EpiserverImageProcessingModule.AlternateShape | src/ImageProcessor.Web.Episerver/EpiserverImageProcessingModule.cs:29 | the `?` rewrite keeps the length and every other character; the `?` preceded by `k` question marks becomes `&` exactly when `k` plus the matches already seen is odd |
| EpiserverImageProcessingModule.AtMostOneQuestionMarkUnchanged | src/ImageProcessor.Web.Episerver/EpiserverImageProcessingModule.cs:29 | a URL with at most one `?`, rewritten by a fresh finder, is left as it is |
| EpiserverImageProcessingModule.EverySecondQuestionMark | src/ImageProcessor.Web.Episerver/EpiserverImageProcessingModule.cs:47-54 | example only: `?x?y?` becomes `?x&y?`: the first and third `?` stay and the second turns into `&` |
| ImageProcessingModuleEpiserver.RequestUrlShape | src/ImageProcessor.Web.Episerver/ImageProcessingModuleEpiserver.cs:16-20 | the older module only deletes markers from the path and query: the result is never longer, a URL without marker is unchanged, the counts of `?` and `&` are kept and the absolute URI plays no part |
| ImageProcessingModuleEpiserver.MarkerExamples | src/ImageProcessor.Web.Episerver/ImageProcessingModuleEpiserver.cs:14 | example only: `,,123` before a non-digit is deleted, while `,,x` is kept |
| PictureUtils.NewImageType | src/ImageProcessor.Web.Episerver/Extensions/Picture/ImageType.cs:36-40 | a new image type has quality 80, creates webp versions for jpg and jpeg, and sets nothing else |
| PictureUtils.LastDot | src/ImageProcessor.Web.Episerver/Extensions/Picture/PictureUtils.cs:18 | the dot that starts the extension is the last dot of the path with no directory or volume separator after it; when there is none, every dot is followed by a separator |
| PictureUtils.TrimmedExtension | src/ImageProcessor.Web.Episerver/Extensions/Picture/PictureUtils.cs:18-19 | with its leading dot trimmed, the extension is the text after the last dot of the file name, and empty when the file name has no dot |
| PictureUtils.FormatCharacters | src/ImageProcessor.Web.Episerver/Extensions/Picture/PictureUtils.cs:16-23 | the format never holds a dot or a separator, and is either `jpg` or a suffix of the path |
| PictureUtils.FormatOfFileName | src/ImageProcessor.Web.Episerver/Extensions/Picture/PictureUtils.cs:16-23 | `name.ext` gives `ext`, and `name.jpeg` gives `jpg` |
| PictureUtils.NoExtensionNoFormat | src/ImageProcessor.Web.Episerver/Extensions/Picture/PictureUtils.cs:22 | a null path, a path without a dot or a path ending in a dot gives the empty format |
| PictureUtils.TextX | src/ImageProcessor.Web.Episerver/Extensions/Picture/PictureUtils.cs:73-74 | the debug text starts at half the width (truncated toward zero) less 150, or at 10 when that is negative; a null width gives null |
| PictureUtils.InfoKeys | src/ImageProcessor.Web.Episerver/Extensions/Picture/PictureUtils.cs:76-79 | the debug pairs are `watermark`, `color`, `fontsize` and `textposition`, in that order, the colour being `000000` |
| PictureUtils.InfoFontSize | src/ImageProcessor.Web.Episerver/Extensions/Picture/PictureUtils.cs:72 | the debug font size is 35 for widths above 700 and 17 otherwise, a null width included |
| PictureUtils.InfoTextPosition | src/ImageProcessor.Web.Episerver/Extensions/Picture/PictureUtils.cs:79 | the debug text sits at `TextX` across and at half the rounded debug height, truncated, down |
| PictureUtils.InfoWatermark | src/ImageProcessor.Web.Episerver/Extensions/Picture/PictureUtils.cs:65-71 | the debug text names the format (`original` when none is given) and the width, and the height only when it is positive |
| PictureUtils.InfoWithoutWidth | src/ImageProcessor.Web.Episerver/Extensions/Picture/PictureUtils.cs:70-79 | a null width shows as empty in the text, and puts the text at an empty x and a height of 0 |
| PictureUtils.QueryFormat | src/ImageProcessor.Web.Episerver/Extensions/Picture/PictureUtils.cs:29-32 | `format` is asked for exactly for `webp` and `png8`, and then as the first pair |
| PictureUtils.QueryQuality | src/ImageProcessor.Web.Episerver/Extensions/Picture/PictureUtils.cs:34-38 | `quality` is asked for unless the format is `png` or `png8`: the override when one is given, else the image type's quality |
| PictureUtils.QueryWidth | src/ImageProcessor.Web.Episerver/Extensions/Picture/PictureUtils.cs:40 | `width` is always asked for, once, and empty for a null width |
| PictureUtils.QueryCrop | src/ImageProcessor.Web.Episerver/Extensions/Picture/PictureUtils.cs:42-46 | `mode=crop` and `heightratio` are asked for exactly when the height ratio is positive |
| PictureUtils.QueryDebug | src/ImageProcessor.Web.Episerver/Extensions/Picture/PictureUtils.cs:48-52 | with the debug setting on, the four debug pairs end the collection; without it the collection has at most five pairs |
| PictureUtils.BuildQueryString | src/ImageProcessor.Web.Episerver/Extensions/Picture/PictureUtils.cs:25-59 | the result is the image URL's text with the collection merged into its query, through a new builder, so the builder passed in is not changed |
| PictureUtils.MergedQuery | src/ImageProcessor.Web.Episerver/Extensions/Picture/PictureUtils.cs:54-58 | the URL asks for exactly the candidate's width, for its format only when that is `webp` or `png8` and for its quality unless the format is a png; a parameter the collection does not set keeps the value the image URL had |
| PictureHelper.ImgAttributes | src/ImageProcessor.Web.Episerver/Extensions/Picture/PictureHelper.cs:55-77 | the `img` element always has an empty `alt`; it has `src` unless the lazy type is Regular (the low-quality image under Progressive, the image otherwise), `data-src` with the image exactly under Regular and Progressive, and `class` exactly for a non-empty CSS class; nothing else |
| PictureHelper.SourceAttributes | src/ImageProcessor.Web.Episerver/Extensions/Picture/PictureHelper.cs:84-108 | a `source` always has `sizes`; it has `type=image/webp` exactly for the webp source; `srcset` unless the lazy type is Regular and `data-srcset` exactly under Regular and Progressive; `data-srcset` and the non-progressive `srcset` are the webp texts for the webp source and the default ones otherwise, while the progressive `srcset` is `SrcSetLowQuality` for every source, the webp one included, as line 98 writes it; nothing else |
| PictureHelper.BuildImgElement | src/ImageProcessor.Web.Episerver/Extensions/Picture/PictureHelper.cs:53-80 | the element built is an `img` with exactly the attributes `ImgAttributes` gives |
| PictureHelper.BuildSourceElement | src/ImageProcessor.Web.Episerver/Extensions/Picture/PictureHelper.cs:82-111 | the element built is a `source` with exactly the attributes `SourceAttributes` gives, so under Progressive both sources show `SrcSetLowQuality` first |
| PictureHelper.Request | src/ImageProcessor.Web.Episerver/Extensions/Picture/PictureHelper.cs:30 | the picture data is asked for the builder's URL and the image type, with quality-1 texts exactly under Progressive |
| PictureHelper.Picture | src/ImageProcessor.Web.Episerver/Extensions/Picture/PictureHelper.cs:23-51 | a null builder gives empty markup; otherwise the `picture` element holds the webp source (when there is a webp srcset), the default source (both only when there is a srcset) and then the `img`, in that order, each with the attributes the code writes, from the data `GetPictureData` returns for the builder's URL |
| PictureHelper.PictureOfUrl | src/ImageProcessor.Web.Episerver/Extensions/Picture/PictureHelper.cs:11-21 | a null URL gives empty markup; any other URL gives the `picture` element of a builder made from it |
| PictureHelper.PictureShape | src/ImageProcessor.Web.Episerver/Extensions/Picture/PictureHelper.cs:35-48 | the `img` element is always last; sources exist only with a `SrcSet`, and a webp source, the only one with a `type`, comes first exactly when there is a `SrcSetWebp` too |
| PictureHelper.SourceTexts | src/ImageProcessor.Web.Episerver/Extensions/Picture/PictureHelper.cs:86-100 | whenever the lazy type writes a `data-srcset`, it is `SrcSetWebp` for the webp source and `SrcSet` for the default one |
| PictureHelper.NativeAndHybridAsNone | src/ImageProcessor.Web.Episerver/Extensions/Picture/PictureHelper.cs:102-104 | the Native and Hybrid lazy types write the same elements as no lazy loading |
| PictureHelper.WebpSourceShowsOriginalLowQuality | src/ImageProcessor.Web.Episerver/Extensions/Picture/PictureHelper.cs:98-99 | example of the code as written: under Progressive the webp source's `srcset` is `SrcSetLowQuality` and not `SrcSetLowQualityWebp` |
| PictureHelper.CorrectedLowQualitySources | src/ImageProcessor.Web.Episerver/Extensions/Picture/PictureHelper.cs:98-99 | in the intended `CorrectedSourceAttributes` each source's low-quality `srcset` is of its own format, and it differs from the code as written only in the webp source's `srcset` under Progressive |
| PictureHelperLegacy.NewImageType | src/ImageProcessor.Web.Episerver/Extensions/PictureHelper.cs:19-22 | the older image type defaults to quality 80 and sets nothing else |
| PictureHelperLegacy.BuildQueryString | src/ImageProcessor.Web.Episerver/Extensions/PictureHelper.cs:148-176 | the collection is merged into the builder passed in, which keeps its path; the text returned is that builder after the merge |
| PictureHelperLegacy.MergedQuery | src/ImageProcessor.Web.Episerver/Extensions/PictureHelper.cs:150-173 | after one merge the builder asks for exactly the width given and the override quality (else the type's), and for the format when one is given; an empty format leaves its `format` as it was |
| PictureHelperLegacy.ImgAttributes | src/ImageProcessor.Web.Episerver/Extensions/PictureHelper.cs:76-100 | the `img` element always has an empty `alt`; `src` unless the lazy type is Regular (the quality-1 URL under Progressive), `data-src` exactly under Regular and Progressive, `class` exactly for a non-empty CSS class |
| PictureHelperLegacy.BuildImgElement | src/ImageProcessor.Web.Episerver/Extensions/PictureHelper.cs:74-103 | the `img` element is written from the default-width URL (and its quality-1 URL under Progressive), and the shared builder is left with the query of the last URL built |
| PictureHelperLegacy.RunSrcSet | src/ImageProcessor.Web.Episerver/Extensions/PictureHelper.cs:118-125 | the loop writes one candidate per width, in order, and a quality-1 candidate per width exactly under Progressive |
| PictureHelperLegacy.SourceAttributes | src/ImageProcessor.Web.Episerver/Extensions/PictureHelper.cs:107-143 | given the two `srcset` texts, a `source` always has `sizes`; `type=image/<format>` exactly for a non-empty format; `srcset` unless the lazy type is Regular (the low-quality list under Progressive) and `data-srcset` exactly under Regular and Progressive; nothing else |
| PictureHelperLegacy.TrimmedTexts | src/ImageProcessor.Web.Episerver/Extensions/PictureHelper.cs:126-127 | since every entry ends in `w`, trimming commas and spaces off the list of entries leaves them joined by `", "` |
| PictureHelperLegacy.BuildCandidates | src/ImageProcessor.Web.Episerver/Extensions/PictureHelper.cs:120-124 | one turn of the loop writes the width's entry and, under Progressive, its quality-1 entry as line 123 writes it (the builder's URL, then the URL again and the width), each from the first candidate of what the rest of the loop produces |
| PictureHelperLegacy.SrcSetStep | src/ImageProcessor.Web.Episerver/Extensions/PictureHelper.cs:118-125 | one turn of the loop keeps the loop's progress: the texts built so far are the entries, and the quality-1 entries as written, of the first `i + 1` widths |
| PictureHelperLegacy.BuildSrcSets | src/ImageProcessor.Web.Episerver/Extensions/PictureHelper.cs:116-127 | after the loop and the trim, `srcset` is the run's entries and `srcsetLowQuality` its quality-1 entries as written (URL twice), each joined by `", "`, and the builder holds the run's last query |
| PictureHelperLegacy.BuildSourceElement | src/ImageProcessor.Web.Episerver/Extensions/PictureHelper.cs:105-146 | the `source` element is written from the run over `SrcSetWidths` on the shared builder, with the quality-1 entries as line 123 writes them; the builder is left with the run's last query |
| PictureHelperLegacy.BuildSourceElements | src/ImageProcessor.Web.Episerver/Extensions/PictureHelper.cs:56-66 | the sources are the webp source (for a path ending in `.jpg`) then the default source, only when there are widths, each run on the builder the previous one left and written as `SourceElement` writes it |
| PictureHelperLegacy.Picture | src/ImageProcessor.Web.Episerver/Extensions/PictureHelper.cs:46-72 | a null builder gives empty markup; otherwise the `picture` element holds the sources (quality-1 entries as written) and then the `img` element, and the builder passed in ends with the query of the last URL written |
| PictureHelperLegacy.PictureOfUrl | src/ImageProcessor.Web.Episerver/Extensions/PictureHelper.cs:34-44 | a null URL gives empty markup; any other URL gives the markup `Picture` writes for a new builder made from it |
| PictureHelperLegacy.StepValues | src/ImageProcessor.Web.Episerver/Extensions/PictureHelper.cs:120-123 | both URLs of one width ask for the format after the merge, the first at the type's quality and the quality-1 one at quality 1, both at that width |
| PictureHelperLegacy.RunFormat | src/ImageProcessor.Web.Episerver/Extensions/PictureHelper.cs:118-125 | every URL of a `srcset` asks for the source's format when it has one, and otherwise for whatever format the builder held before the loop; the builder is left asking for the same |
| PictureHelperLegacy.RunQualityAndWidth | src/ImageProcessor.Web.Episerver/Extensions/PictureHelper.cs:118-125 | every URL of a `srcset` asks for its own width, in `SrcSetWidths` order, at the type's quality, and every quality-1 URL asks for quality 1 |
| PictureHelperLegacy.SourceElementShape | src/ImageProcessor.Web.Episerver/Extensions/PictureHelper.cs:105-146 | a `source` element is written exactly when there are sizes (without them `string.Join` throws), with a `type` exactly for a non-empty format |
| PictureHelperLegacy.SourcesShape | src/ImageProcessor.Web.Episerver/Extensions/PictureHelper.cs:56-66 | without `SrcSetWidths` there is no source; otherwise one default source, after a webp source when the path ends in `.jpg`; only widths without sizes throw |
| PictureHelperLegacy.PictureShape | src/ImageProcessor.Web.Episerver/Extensions/PictureHelper.cs:46-72 | a non-null builder gives a `picture` element whose children are the sources and then the `img` element; the helper throws exactly when there are widths but no sizes |
| PictureHelperLegacy.WebpSourcesQuery | src/ImageProcessor.Web.Episerver/Extensions/PictureHelper.cs:59-65 | with a webp source the builder ends at the default run's query, or at the webp run's when the sizes are missing |
| PictureHelperLegacy.WebpLeaks | src/ImageProcessor.Web.Episerver/Extensions/PictureHelper.cs:59-69 | once a `.jpg` picture with widths has built its webp source, every URL of the default source and the `img` URL still ask for `format=webp` |
| PictureHelperLegacy.LowQualityEntryDoubled | src/ImageProcessor.Web.Episerver/Extensions/PictureHelper.cs:123 | example of the code as written: the quality-1 entry for `/a.jpg` at width 100 is the URL twice, run together, before its width |
| PictureHelperLegacy.CorrectedLowQualityEntries | src/ImageProcessor.Web.Episerver/Extensions/PictureHelper.cs:123 | as evidently intended, each quality-1 entry is its URL once followed by its width, and that URL asks for quality 1 at that width; the entry as written is that text after the URL |
| PictureHelperLegacy.CorrectedSourceAgrees | src/ImageProcessor.Web.Episerver/Extensions/PictureHelper.cs:116-133 | the intended `source` element throws exactly when the written one does, is the same without progressive loading, and otherwise differs only in its `srcset`, which joins the intended quality-1 entries where the written one joins the doubled ones |
| PictureHelperLegacy.CorrectedLowQualityExample | src/ImageProcessor.Web.Episerver/Extensions/PictureHelper.cs:123 | example only: the intended entry for `/a.jpg` at width 100 is `/a.jpg?quality=1&width=100 100w` |
| PictureHelperLegacy.InfoAgreesWithPictureUtils | src/ImageProcessor.Web.Episerver/Extensions/PictureHelper.cs:178-199 | the debug pairs of the two helpers differ only in the font size, and exactly for widths above 700 up to 800 |
| HtmlHelperExtensions.NewImageType | src/ImageProcessor.Web.Episerver/Extensions/HtmlHelperExtensions.cs:21-24 | the image type declared beside the view helpers defaults to quality 80 and sets nothing else |
| HtmlHelperExtensions.ConstructUrl | src/ImageProcessor.Web.Episerver/Extensions/HtmlHelperExtensions.cs:57-62 | a new builder whose path and query are those of the URL, and which is empty exactly for an empty (or null) URL |
| HtmlHelperExtensions.ProcessImage | src/ImageProcessor.Web.Episerver/Extensions/HtmlHelperExtensions.cs:29-37 | a null or empty content reference throws `ArgumentNullException`; otherwise a new builder for the resolved URL |
| HtmlHelperExtensions.ProcessImageWithFallback | src/ImageProcessor.Web.Episerver/Extensions/HtmlHelperExtensions.cs:39-42 | a new builder for the fallback when the reference is null or empty, and for the resolved URL otherwise |
| HtmlHelperExtensions.ProcessImageOfString | src/ImageProcessor.Web.Episerver/Extensions/HtmlHelperExtensions.cs:44-50 | a null or empty URL throws `ArgumentNullException`; otherwise a new builder for that URL |
| HtmlHelperExtensions.ProcessImageWithFallbackOfString | src/ImageProcessor.Web.Episerver/Extensions/HtmlHelperExtensions.cs:52-55 | a new builder for the fallback when the URL is null or empty, and for the URL otherwise |
| HtmlHelperExtensions.ReferenceOverloads | src/ImageProcessor.Web.Episerver/Extensions/HtmlHelperExtensions.cs:29-42 | the strict overload throws exactly for a null or empty reference; the fallback overload uses the fallback exactly then, and otherwise builds from the same resolved URL as the strict one |
| HtmlHelperExtensions.StringOverloads | src/ImageProcessor.Web.Episerver/Extensions/HtmlHelperExtensions.cs:44-55 | the strict string overload throws exactly for null or `""`, the fallback one falls back exactly then; any other URL, white space included, is used as given by both |
| ImageReferenceExtensions.GetFallback | src/ImageProcessor.Web.Episerver.UI.Crop/ExtensionMethods/ImageReferenceExtensions.cs:54-60 | a null or empty fallback throws `ArgumentNullException`; otherwise a new builder for the fallback, with nothing added |
| ImageReferenceExtensions.GetCropUrl | src/ImageProcessor.Web.Episerver.UI.Crop/ExtensionMethods/ImageReferenceExtensions.cs:19-52 | a null reference or a null or empty resolved URL gives the fallback; otherwise a new builder for the resolved URL with the crop, width and height pairs appended |
| ImageReferenceExtensions.AddCropPairs | src/ImageProcessor.Web.Episerver.UI.Crop/ExtensionMethods/ImageReferenceExtensions.cs:35-43 | the three additions append exactly the crop pairs to the builder and keep its path |
| ImageReferenceExtensions.AddCrop | src/ImageProcessor.Web.Episerver.UI.Crop/ExtensionMethods/ImageReferenceExtensions.cs:35-37 | `crop` is appended exactly when the reference has crop details |
| ImageReferenceExtensions.AddWidth | src/ImageProcessor.Web.Episerver.UI.Crop/ExtensionMethods/ImageReferenceExtensions.cs:39-40 | `width` is appended exactly for a positive width |
| ImageReferenceExtensions.AddHeight | src/ImageProcessor.Web.Episerver.UI.Crop/ExtensionMethods/ImageReferenceExtensions.cs:42-43 | `height` is appended exactly for a positive height |
| ImageReferenceExtensions.CornerFormParts | src/ImageProcessor.Web.Episerver.UI.Crop/ExtensionMethods/ImageReferenceExtensions.cs:36-37 | the crop is written as the left and top edge, then the right and bottom edge (`x,y,x+width,y+height`) |
| ImageReferenceExtensions.CropPairsShape | src/ImageProcessor.Web.Episerver.UI.Crop/ExtensionMethods/ImageReferenceExtensions.cs:35-43 | the pairs come in the order crop, width, height; each is there exactly when its value is (a width or height only when positive), with that value |
| ImageReferenceExtensions.FallbackRules | src/ImageProcessor.Web.Episerver.UI.Crop/ExtensionMethods/ImageReferenceExtensions.cs:22-30 | without a resolved URL the result is the fallback with nothing added, which throws `ArgumentNullException` exactly when it is null or empty; with one, the crop pairs are added to it |
| CropHelpers.Separator | build/content/ImageProcessor.Web.Episerver.UI.Crop/Scripts/Helpers.js:19 | the crop branch joins with `&` when the URL already has a `?` and with `?` otherwise |
| CropHelpers.GetImageUrl | build/content/ImageProcessor.Web.Episerver.UI.Crop/Scripts/Helpers.js:15-33 | an undefined crop throws and nothing else does; the result starts with the preview URL, followed by `?` without a crop or for a URL without a query, and by `&` for a crop on a URL with a query |
| CropHelpers.SerializeImageFields | build/content/ImageProcessor.Web.Episerver.UI.Crop/Scripts/Helpers.js:5-13 | a truthy `id` is kept and the time is not used; a missing or zero `id` becomes the time; the other fields are copied, the content GUID as `contentReferenceId` |
| CropHelpers.StoredImageUrl | build/content/ImageProcessor.Web.Episerver.UI.Crop/Scripts/Helpers.js:5-13 | the preview URL of a stored image depends only on its preview URL and crop |
| CropHelpers.CornerTextIsCornerForm | build/content/ImageProcessor.Web.Episerver.UI.Crop/Scripts/Helpers.js:19-26 | the browser writes the same corner form as the server's `GetCropUrl` |
| CropHelpers.PreviewMatchesCropUrl | build/content/ImageProcessor.Web.Episerver.UI.Crop/Scripts/Helpers.js:18-28 | for a URL without a query and a positive width, the crop branch gives exactly the text of the builder `GetCropUrl(reference, width)` returns |
| CropHelpers.PreviewAppendsToQuery | build/content/ImageProcessor.Web.Episerver.UI.Crop/Scripts/Helpers.js:19 | with a query already present, the crop and width are appended after `&` |
| CropHelpers.CropQueryHasNoQuestionMark | build/content/ImageProcessor.Web.Episerver.UI.Crop/Scripts/Helpers.js:19-28 | the crop and width text holds no `?` |
| CropHelpers.SeparatedQuestionMarks | build/content/ImageProcessor.Web.Episerver.UI.Crop/Scripts/Helpers.js:19 | the separator keeps a URL at its own `?` when it has one and gives it exactly one otherwise |
| CropHelpers.CropBranchQuestionMarks | build/content/ImageProcessor.Web.Episerver.UI.Crop/Scripts/Helpers.js:18-28 | the crop branch never adds a second `?` |
| CropHelpers.NoCropBranchSecondQuestionMark | build/content/ImageProcessor.Web.Episerver.UI.Crop/Scripts/Helpers.js:29-30 | the no-crop branch adds a `?` to a URL that already has one, so its query holds two |
| CropHelpers.CorrectedQuestionMarks | build/content/ImageProcessor.Web.Episerver.UI.Crop/Scripts/Helpers.js:29-30 | in the intended `CorrectedGetImageUrl`, with the separator chosen in both branches, no branch adds a second `?`; only an undefined crop throws, and it agrees with the code as written except on the no-crop branch of a URL that has a query |
| LowercaseContractResolver.ResolvedShape | src/ImageProcessor.Web.Episerver.UI.Crop/Serialization/LowercaseContractResolver.cs:8-11 | only the empty name throws; otherwise the name keeps its length, its first character is lower-cased and every later one is kept |
| LowercaseContractResolver.ResolveIdempotent | src/ImageProcessor.Web.Episerver.UI.Crop/Serialization/LowercaseContractResolver.cs:8-11 | resolving a resolved name changes nothing |
| LowercaseContractResolver.ResolveExamples | src/ImageProcessor.Web.Episerver.UI.Crop/Serialization/LowercaseContractResolver.cs:10 | example only: `CropDetails` becomes `cropDetails`, `X` becomes `x` and `id` is kept |
| EnumSelectionFactory.GetSelections | src/ImageProcessor.Web.Episerver.UI/Business/EnumSelectionFactory.cs:10-28 | the choices are the blank one followed by one per member, built by the loop |
| EnumSelectionFactory.SelectionsShape | src/ImageProcessor.Web.Episerver.UI/Business/EnumSelectionFactory.cs:13-27 | there is one choice more than members: the first is blank in text and value, and choice `k + 1` is member `k`'s value with its name |
| EnumSelectionFactory.ValueNameRule | src/ImageProcessor.Web.Episerver.UI/Business/EnumSelectionFactory.cs:30-47 | the text is the string stored under `/property/enum/<type>/<member>`, both lower-cased, when there is one, and the member's name otherwise; the path does not depend on the case of the names |
| EnumSelectionFactory.SelectionsExample | src/ImageProcessor.Web.Episerver.UI/Business/EnumSelectionFactory.cs:10-28 | example only: `ImageFormat` with no translations offers a blank choice, then `Jpg` and `Png` |
| MethodCollections.GetMethod | src/ImageProcessor.Web.Episerver.UI.Blocks/Models/Blocks/MethodCollectionBlock.cs:25-39 | a method block's `GetMethod` keeps the builder's path, appends exactly the pairs of its calls run depth first, and returns the builder, or the exception of the first call that throws |
| MethodCollections.RunArea | src/ImageProcessor.Web.Episerver.UI.Blocks/Models/Blocks/MethodCollectionBlock.cs:31-37 | the loop over an area's items runs every method block's calls on the same builder, skips other content, and stops at the first exception with the pairs added so far kept |
| MethodCollections.RunItem | src/ImageProcessor.Web.Episerver.UI.Blocks/Models/Blocks/MethodCollectionBlock.cs:33-36 | one item appends the pairs of its method block's calls and nothing for other content |
| MethodCollections.CollectionGetMethod | src/ImageProcessor.Web.Episerver.UI.Blocks/Models/Blocks/MethodCollectionBlock.cs:25-39 | a null `Methods` area returns the builder unchanged; otherwise the area's run is appended |
| MethodCollections.StoppedRun | src/ImageProcessor.Web.Episerver.UI.Blocks/Models/Blocks/MethodCollectionBlock.cs:31-37 | once an exception is thrown, the calls after it add nothing and do not change the exception |
| MethodCollections.RunCallsThrows | src/ImageProcessor.Web.Episerver.UI.Blocks/Models/Blocks/MethodCollectionBlock.cs:31-37 | a run ends with an exception exactly when one of its calls throws |
| MethodCollections.SplitArea | src/ImageProcessor.Web.Episerver.UI.Blocks/Models/Blocks/MethodCollectionBlock.cs:31-37 | the calls of two areas one after the other are those of the first, then those of the second |
| MethodCollections.Flattening | src/ImageProcessor.Web.Episerver.UI.Blocks/Models/Blocks/MethodCollectionBlock.cs:25-39 | a nested collection runs as if its items stood in its place; other content and a collection with a null area run nothing; a single method makes its one call in place |
| ProcessImageBlocks.AddSizes | src/ImageProcessor.Web.Episerver.UI.Blocks/Models/Blocks/ProcessImageBaseBlock.cs:31-38 | the size step appends `width` when the width is positive, then `height` when the height is positive, and keeps the path |
| ProcessImageBlocks.BaseMethodBuilder | src/ImageProcessor.Web.Episerver.UI.Blocks/Models/Blocks/ProcessImageBaseBlock.cs:28-51 | `MethodBuilder` keeps the path, appends the run of width, height and then the methods, and returns the builder or the first exception |
| ProcessImageBlocks.RunMethods | src/ImageProcessor.Web.Episerver.UI.Blocks/Models/Blocks/ProcessImageBaseBlock.cs:40-49 | a block's area is run on the shared builder when there is one, and nothing is done when it is null |
| ProcessImageBlocks.MethodBuilder | src/ImageProcessor.Web.Episerver.UI/Models/Blocks/ProcessImageBlock.cs:51-72 | the older `MethodBuilder` appends the methods' run and then width and height, and returns the builder or the first exception |
| ProcessImageBlocks.GetMethods | src/ImageProcessor.Web.Episerver.UI/Models/Blocks/ProcessImageBlock.cs:45-49 | a new builder for the image's resolved URL (null taken as the empty URL) goes through `MethodBuilder` |
| ProcessImageBlocks.BaseBlockSteps | src/ImageProcessor.Web.Episerver.UI.Blocks/Models/Blocks/ProcessImageBaseBlock.cs:31-49 | the size step followed by the methods' run is the block's whole run, and ends with the methods' exception |
| ProcessImageBlocks.MethodsThrow | src/ImageProcessor.Web.Episerver.UI/Models/Blocks/ProcessImageBlock.cs:53-70 | a method that throws ends `MethodBuilder` with the pairs added so far; width and height are not added |
| ProcessImageBlocks.ProcessImageSteps | src/ImageProcessor.Web.Episerver.UI/Models/Blocks/ProcessImageBlock.cs:53-70 | when no method throws, the methods' run followed by the size step is the block's whole run |
| ProcessImageBlocks.SizesRun | src/ImageProcessor.Web.Episerver.UI.Blocks/Models/Blocks/ProcessImageBaseBlock.cs:31-38 | width and height never throw; each adds one pair when positive (a null size counts as not positive), and an empty builder gets none |
| ProcessImageBlocks.BaseBlockRun | src/ImageProcessor.Web.Episerver.UI.Blocks/Models/Blocks/ProcessImageBaseBlock.cs:28-51 | the width and height pairs come before every method's pairs and only the methods can throw; with a null area only the sizes are added |
| ProcessImageBlocks.ProcessImageRun | src/ImageProcessor.Web.Episerver.UI/Models/Blocks/ProcessImageBlock.cs:51-72 | the methods' pairs come first and width and height follow; a method that throws leaves width and height out |
| ProcessImageBlocks.OppositeOrders | src/ImageProcessor.Web.Episerver.UI/Models/Blocks/ProcessImageBlock.cs:51-72 | when no method throws, the two blocks add the same pairs in opposite orders |
| ColorProperties.ReadColor | src/ImageProcessor.Web.Episerver.UI.Blocks/Models/Blocks/WatermarkBlock.cs:28-37 | a stored null reads as `""`; otherwise the result is the stored value's longest suffix that does not start with `#`, everything before it being `#` |
| ColorProperties.StoreColor | src/ImageProcessor.Web.Episerver.UI.Blocks/Models/Blocks/WatermarkBlock.cs:38-41 | the setter throws `NullReferenceException` exactly for a null value, and never stores a value that starts with `#` |
| ColorProperties.SetThenGet | src/ImageProcessor.Web.Episerver.UI.Blocks/Models/Blocks/ReplaceColorBlock.cs:20-33 | the getter returns what the setter stored, unchanged, and that is what the getter would have made of the value given |
| ColorProperties.ReadKeepsExactlyUnhashed | src/ImageProcessor.Web.Episerver.UI.Blocks/Models/Blocks/VignetteBlock.cs:20-30 | the getter returns a stored value unchanged exactly when it does not start with `#` |
| ColorProperties.LeadingHashesIgnored | src/ImageProcessor.Web.Episerver.UI.Blocks/Models/Blocks/ReplaceColorBlock.cs:38-52 | any number of leading `#` make no difference to the getter or the setter |
| ColorProperties.StoreExamples | src/ImageProcessor.Web.Episerver.UI.Blocks/Models/Blocks/VignetteBlock.cs:33 | example only: `#ffffff` is stored as `ffffff`, `##000000` as `000000`, and a value without a hash as given |
| ColorProperties.StoreWhite | src/ImageProcessor.Web.Episerver.UI.Blocks/Models/Blocks/WatermarkBlock.cs:72 | example only: the watermark's default colour `#ffffff` is stored without its hash |
| ColorProperties.StoreBlack | src/ImageProcessor.Web.Episerver.UI.Blocks/Models/Blocks/VignetteBlock.cs:49 | example only: the vignette's default colour `000000` is stored as given |
| CropBlocks.CropBlock.constructor | src/ImageProcessor.Web.Episerver.UI.Blocks/Models/Blocks/CropBlock.cs:19-34 | a block holds exactly the mode and the eight stored values it was loaded with |
| CropBlocks.CropBlock.GetMethod | src/ImageProcessor.Web.Episerver.UI.Blocks/Models/Blocks/CropBlock.cs:36-42 | the crop of the block's mode is appended to the same builder, whose path is kept, and that builder is returned; a null builder throws `ArgumentNullException` |
| CropBlocks.CropBlock.SetDefaultValues | src/ImageProcessor.Web.Episerver.UI.Blocks/Models/Blocks/CropBlock.cs:44-48 | the mode becomes Pixels and no other field changes |
| CropBlocks.CropModes | src/ImageProcessor.Web.Episerver.UI.Blocks/Models/Blocks/CropBlock.cs:36-42 | Pixels mode adds `crop=x,y,width,height` and nothing else (nothing to an empty builder); Percentage mode adds `crop=left,top,right,bottom` (not to an empty builder) and then, always, `cropmode=percentage`; the 0..100 range of the percentages is not checked, so the block never throws |
| CropBlocks.DefaultCropsByPixels | src/ImageProcessor.Web.Episerver.UI.Blocks/Models/Blocks/CropBlock.cs:38-47 | in the default Pixels mode the percentages make no difference and `crop=x,y,width,height` is the one pair added |
| VignetteBlocks.VignetteBlock.constructor | src/ImageProcessor.Web.Episerver.UI.Blocks/Models/Blocks/VignetteBlock.cs:20-35 | a block holds the stored colour it was loaded with |
| VignetteBlocks.VignetteBlock.SetColor | src/ImageProcessor.Web.Episerver.UI.Blocks/Models/Blocks/VignetteBlock.cs:31-34 | a null value throws `NullReferenceException` and changes nothing; any other value is stored with its leading `#` stripped |
| VignetteBlocks.VignetteBlock.GetMethod | src/ImageProcessor.Web.Episerver.UI.Blocks/Models/Blocks/VignetteBlock.cs:37-40 | `vignette` with the colour the getter returns is appended to the same builder, which is returned; a null builder throws |
| VignetteBlocks.VignetteBlock.SetDefaultValues | src/ImageProcessor.Web.Episerver.UI.Blocks/Models/Blocks/VignetteBlock.cs:46-50 | the stored colour becomes `000000` |
| VignetteBlocks.VignettePairs | src/ImageProcessor.Web.Episerver.UI.Blocks/Models/Blocks/VignetteBlock.cs:20-40 | the vignette value is the stored colour lower-cased without its leading `#`, `""` for a stored null, and never starts with `#` |
| VignetteBlocks.DefaultVignette | src/ImageProcessor.Web.Episerver.UI.Blocks/Models/Blocks/VignetteBlock.cs:37-49 | a block with the default colour adds `vignette=000000` |
| ReplaceColorBlocks.ReplaceColorBlock.constructor | src/ImageProcessor.Web.Episerver.UI.Blocks/Models/Blocks/ReplaceColorBlock.cs:20-55 | a block holds the two stored colours and the fuzziness it was loaded with |
| ReplaceColorBlocks.ReplaceColorBlock.SetColorFrom | src/ImageProcessor.Web.Episerver.UI.Blocks/Models/Blocks/ReplaceColorBlock.cs:30-33 | a null value throws `NullReferenceException` and changes nothing; any other value is stored without its leading `#`; the other fields are kept |
| ReplaceColorBlocks.ReplaceColorBlock.SetColorTo | src/ImageProcessor.Web.Episerver.UI.Blocks/Models/Blocks/ReplaceColorBlock.cs:49-52 | the same for `ColorTo`, keeping `ColorFrom` and the fuzziness |
| ReplaceColorBlocks.ReplaceColorBlock.GetMethod | src/ImageProcessor.Web.Episerver.UI.Blocks/Models/Blocks/ReplaceColorBlock.cs:57-60 | `ReplaceColor` with both colours as the getters return them and the fuzziness is applied to the same builder, which is returned; a null builder throws |
| ReplaceColorBlocks.ReplacePairs | src/ImageProcessor.Web.Episerver.UI.Blocks/Models/Blocks/ReplaceColorBlock.cs:20-60 | a non-empty builder gets `replace=from,to`, both colours lower-cased without `#`, and then `fuzziness` exactly when it is positive; an empty builder gets only the fuzziness |
| ReplaceColorBlocks.NoFuzzinessUnlessPositive | src/ImageProcessor.Web.Episerver.UI.Blocks/Models/Blocks/ReplaceColorBlock.cs:55-59 | a fuzziness of 0, the default, or below adds no `fuzziness` pair |
| WatermarkBlocks.WatermarkBlock.constructor | src/ImageProcessor.Web.Episerver.UI.Blocks/Models/Blocks/WatermarkBlock.cs:17-56 | a block holds the stored settings it was loaded with, and its private position starts null |
| WatermarkBlocks.WatermarkBlock.SetColor | src/ImageProcessor.Web.Episerver.UI.Blocks/Models/Blocks/WatermarkBlock.cs:38-41 | a null value throws `NullReferenceException` and changes nothing; any other value is stored without its leading `#` |
| WatermarkBlocks.WatermarkBlock.GetMethod | src/ImageProcessor.Web.Episerver.UI.Blocks/Models/Blocks/WatermarkBlock.cs:58-62 | the position becomes `(X, Y)` before the watermark is applied to the same builder, with every setting forwarded in order; the settings are kept |
| WatermarkBlocks.WatermarkBlock.SetFontDefaults | src/ImageProcessor.Web.Episerver.UI.Blocks/Models/Blocks/WatermarkBlock.cs:74-80 | no font family, size 48, bold, opacity 100, no shadow, horizontal, left to right |
| WatermarkBlocks.WatermarkBlock.SetDefaultValues | src/ImageProcessor.Web.Episerver.UI.Blocks/Models/Blocks/WatermarkBlock.cs:68-81 | the text becomes `""`, the stored colour `ffffff` (through the setter), the position `(X, Y)`, and the font fields their defaults; `X` and `Y` are kept |
| WatermarkBlocks.WatermarkRule | src/ImageProcessor.Web.Episerver.UI.Blocks/Models/Blocks/WatermarkBlock.cs:58-62 | a block throws `ArgumentNullException` exactly when its text is null or white space; otherwise it adds the text (to a non-empty builder only), the font family when set, then always the colour and the position `X,Y`, and last the font pairs |
| WatermarkBlocks.OptionsOfBlock | src/ImageProcessor.Web.Episerver.UI.Blocks/Models/Blocks/WatermarkBlock.cs:60-61 | because the getter never returns null and the position is always set, the colour and position pairs are always present, after the optional font family |
| WatermarkBlocks.DefaultWatermarkThrows | src/ImageProcessor.Web.Episerver.UI.Blocks/Models/Blocks/WatermarkBlock.cs:68-81 | a block with only the default values throws `ArgumentNullException`, because its text is empty |
| Sorting.InsertBy | src/ImageProcessor.Web.Episerver/FileBlobCache.cs:222-223 | inserting into a sorted sequence keeps it sorted by the key and adds exactly the one element |
| Sorting.SortBy | src/ImageProcessor.Web.Episerver/FileBlobCache.cs:222-223 | `OrderBy(key)` returns the same elements, as a multiset, sorted by the key |
| Sorting.InsertByStable | src/ImageProcessor.Web.Episerver/FileBlobCache.cs:222-223 | for every key, inserting puts the new element ahead of the elements with its key and keeps their order |
| Sorting.SortByStable | src/ImageProcessor.Web.Episerver/FileBlobCache.cs:222-223 | `OrderBy` is stable: for every key, the elements with that key come out in the order they had in the input |
| Sorting.SortedOrdered | src/ImageProcessor.Web.Episerver.Azure/AzureBlobCache.cs:238-239 | in a sorted listing every earlier key is at most every later one |
| CacheIndex.FileName | src/ImageProcessor.Web.Episerver/BlobCache.cs:71 | `Path.GetFileName` is the longest suffix without a separator, and it follows a separator when it is not the whole path |
| CacheIndex.LastDot | src/ImageProcessor.Web.Episerver/BlobCache.cs:71 | the extension starts at the last `.`, and there is none when the name has no `.` |
| CacheIndex.CacheIndexer.constructor | src/ImageProcessor.Web.Episerver/BlobCache.cs:63 | the index starts empty |
| CacheIndex.CacheIndexer.Get | src/ImageProcessor.Web.Episerver/BlobCache.cs:63 | a lookup finds the image stored under the path's file name without extension, if one is |
| CacheIndex.CacheIndexer.Add | src/ImageProcessor.Web.Episerver/BlobCache.cs:76 | the image is stored under its own key, replacing what was there, and nothing else changes |
| CacheIndex.CacheIndexer.Remove | src/ImageProcessor.Web.Episerver/BlobCache.cs:112 | exactly the path's key, its file name without extension, is removed |
| CacheIndex.CheckFreshness | src/ImageProcessor.Web.Episerver/BlobCache.cs:62-122 | the lookup, the lazy fill on a miss and the decision, run against the index, end with the answer, index and kept creation time of `Freshness` |
| CacheIndex.ApplyDecision | src/ImageProcessor.Web.Episerver/BlobCache.cs:101-120 | the decision against the index removes the path's key exactly when the image is stale, and returns the answer and the kept time of `Decide` |
| CacheIndex.DecideRule | src/ImageProcessor.Web.Episerver/BlobCache.cs:101-122 | the answer is "new or updated" exactly when there is no image or it is expired or updated; the index loses exactly the path's key when it is stale and is otherwise untouched; a creation time is kept exactly when the answer is "not new", and it is the image's |
| CacheIndex.SameKeyInDirectory | src/ImageProcessor.Web.Episerver/FileBlobCache.cs:249 | removing by a file's bare name removes what a lookup by its full path finds, since both use the same key |
| CacheIndex.RecordedFound | src/ImageProcessor.Web.Episerver/BlobCache.cs:69-76 | the image recorded on a miss is under the key a later lookup of the same path uses |
| CacheIndex.KeyOfPath | src/ImageProcessor.Web.Episerver/BlobCache.cs:71 | a file `stem.ext` in any directory is indexed under `stem`, when the extension holds no dot and neither part a separator |
| CacheIndex.LazyFillRule | src/ImageProcessor.Web.Episerver/BlobCache.cs:63-77 | after the lazy fill a lookup of the path finds exactly the image the adapter goes on with: the indexed one on a hit, nothing on a miss with nothing stored, and the image recorded from the stored copy otherwise; no other key changes |
| CacheIndex.FreshnessRule | src/ImageProcessor.Web.Episerver/BlobCache.cs:62-122 | nothing known means new and no change to the index; a stale image means new and its key gone from the index, whether it was indexed before or just recorded; a fresh image means "not new", its creation time kept and a later lookup finding it |
| Cancellation.CancellationToken.constructor | src/ImageProcessor.Web.Episerver/FileBlobCache.cs:216 | a token starts with no checks made, with the given number of checks before it is cancelled |
| Cancellation.CancellationToken.IsCancellationRequested | src/ImageProcessor.Web.Episerver/FileBlobCache.cs:216 | each check is counted, and the answer is "cancelled" exactly from the check numbered `budget` on |
| CacheIndex.SourceUpdatedRule | src/ImageProcessor.Web.Episerver/FileBlobCache.cs:518-550 | the source counts as updated exactly when its time (last write of a local file, `Last-Modified` of a remote one) can be read and is later than the creation time; so an image updated since a time is updated since any earlier one, and an unreadable source (a missing file, a failed request) never counts as updated |
| FileBlobCaches.BlobFolder | src/ImageProcessor.Web.Episerver/FileBlobCache.cs:115-116 | the blob folder is the second segment of the routed media's container; media that is not a binary throws `NullReferenceException` and a container with fewer than two segments `IndexOutOfRangeException` |
| FileBlobCaches.ConfiguredPath | src/ImageProcessor.Web.Episerver/FileBlobCache.cs:95 | the configured folder is `~/`, the application data base path and `/blobs`, with the base path kept as given |
| FileBlobCaches.ChosenVirtualPath | src/ImageProcessor.Web.Episerver/FileBlobCache.cs:464-474 | the virtual cache path is the validated virtual one when that is not blank, and the absolute path otherwise |
| FileBlobCaches.FirstFormat | src/ImageProcessor.Web.Episerver/FileBlobCache.cs:330-331 | the format chosen is the first one listing the extension, and there is none exactly when no format lists it |
| FileBlobCaches.Hex | src/ImageProcessor.Web.Episerver/FileBlobCache.cs:612 | hexadecimal rendering gives at least one digit, every one an upper-case hexadecimal digit |
| FileBlobCaches.HexX8 | src/ImageProcessor.Web.Episerver/FileBlobCache.cs:612 | `ToString("X8")` gives at least eight digits |
| FileBlobCaches.ParentDirectory | src/ImageProcessor.Web.Episerver/FileBlobCache.cs:578 | the parent of a directory is a shorter path, which is what makes the upward walk end |
| FileBlobCaches.Reverse | src/ImageProcessor.Web.Episerver/FileBlobCache.cs:207 | the directories are visited in the reverse of their enumeration order |
| FileBlobCaches.FileBlobCache.constructor | src/ImageProcessor.Web.Episerver/FileBlobCache.cs:92-100 | a cache keeps its request, its paths and the validated folder; its virtual path is the validated virtual path when there is one and the absolute path otherwise |
| FileBlobCaches.FileBlobCache.IsNewOrUpdated | src/ImageProcessor.Web.Episerver/FileBlobCache.cs:108-162 | without a blob folder it throws and changes nothing; otherwise it sets the cached path and the virtual cached path in that folder, answers and updates the index as the shared freshness check does, with the request's source deciding "updated", and keeps the creation time only when the image is fresh |
| FileBlobCaches.FileBlobCache.TrimCache | src/ImageProcessor.Web.Episerver/FileBlobCache.cs:192-269 | with trimming off or no cached path nothing changes; otherwise the disk, the index and the token end as the specification of the trim over the directories in reverse order says |
| FileBlobCaches.SweepFile | src/ImageProcessor.Web.Episerver/FileBlobCache.cs:225-258 | one file: a cancelled token, a file that is not expired or a thumbnail ends the loop; an expired file that is not an Episerver blob leaves the index and is deleted, and a failed delete is skipped |
| FileBlobCaches.SweepDirectory | src/ImageProcessor.Web.Episerver/FileBlobCache.cs:221-259 | the file loop of a directory ends with the disk, index and checks of its specification |
| FileBlobCaches.RecursivelyDeleteEmptyDirectories | src/ImageProcessor.Web.Episerver/FileBlobCache.cs:558-586 | the upward walk ends with the disk and the token checks of its specification, stopping at a cancelled token, at the root or at a missing directory |
| FileBlobCaches.HexRoundTrip | src/ImageProcessor.Web.Episerver/FileBlobCache.cs:612 | the hexadecimal digits denote the number they were made from |
| FileBlobCaches.HexX8RoundTrip | src/ImageProcessor.Web.Episerver/FileBlobCache.cs:612 | `X8` is at least eight upper-case hexadecimal digits, which denote the number |
| FileBlobCaches.ETagRule | src/ImageProcessor.Web.Episerver/FileBlobCache.cs:605-621 | there is no tag exactly while no creation time is recorded; a time before 1601 throws; otherwise the tag quotes the `X8` digits of the file time, which denote it, with `W/` in front exactly when the image is at most three seconds old |
| FileBlobCaches.ContentTypeRule | src/ImageProcessor.Web.Episerver/FileBlobCache.cs:321-340 | only a null or blank extension throws; otherwise the answer is the mime type of the first format listing the extension without its leading dots, ignoring case, and the JPEG type when none lists it |
| FileBlobCaches.LeadingDotIgnored | src/ImageProcessor.Web.Episerver/FileBlobCache.cs:318-328 | `.jpg` and `jpg` find the same mime type |
| FileBlobCaches.ValidationRule | src/ImageProcessor.Web.Episerver/FileBlobCache.cs:362-413 | validation fails exactly for a path that passes neither check, for a missing folder outside the web root, or when the web root is empty so it cannot be replaced; otherwise the folder is the directory's full name, it is created exactly when missing, and there is a virtual path exactly inside the web root, with forward slashes only |
| FileBlobCaches.AbsolutePathRule | src/ImageProcessor.Web.Episerver/FileBlobCache.cs:364-379 | a valid virtual path is mapped and made full; a rooted path with no invalid character is used as it is; any other path gives no folder |
| FileBlobCaches.RewriteRule | src/ImageProcessor.Web.Episerver/FileBlobCache.cs:277-312 | inside the web root the request is always rewritten to the virtual cached path; outside, an ETag error throws, 304 is answered exactly when `If-None-Match` is present, non-empty and equal to the tag, and otherwise the cached file is sent with its extension's mime type and the tag |
| FileBlobCaches.CachedPathKey | src/ImageProcessor.Web.Episerver/FileBlobCache.cs:119-151 | the index key of the cached file is its name without extension, wherever the cache folder is, so a lookup by full path and a trim's removal by bare name agree |
| FileBlobCaches.DeleteEmptyRule | src/ImageProcessor.Web.Episerver/FileBlobCache.cs:558-586 | the cleanup never loses a file and never deletes the root; every directory it deletes held no files and has no subdirectory left afterwards; each call checks the token, and once the token is cancelled it changes nothing |
| FileBlobCaches.SweepFilesRule | src/ImageProcessor.Web.Episerver/FileBlobCache.cs:225-259 | a directory's file loop deletes only expired files that are neither blobs nor thumbnails, only removes index entries, and changes nothing with the token already cancelled |
| FileBlobCaches.SweepStopsAt | src/ImageProcessor.Web.Episerver/FileBlobCache.cs:237-244 | the loop never gets past the first file that is not expired or is a thumbnail, even when older expired files follow it |
| FileBlobCaches.TrimRule | src/ImageProcessor.Web.Episerver/FileBlobCache.cs:207-263 | the whole trim deletes only expired files that are neither Episerver blobs nor thumbnails, only removes index entries, and with the token already cancelled changes nothing |
| FileBlobCaches.BlobsKept | src/ImageProcessor.Web.Episerver/FileBlobCache.cs:246-251 | an Episerver blob present before a trim is present after it |
| BlobCaches.BlobFolder | src/ImageProcessor.Web.Episerver/BlobCache.cs:53-57 | the blob folder is the container's second segment; content that is not binary, or has no container, gives none, and a container with fewer than two segments throws `IndexOutOfRangeException` |
| BlobCaches.BlobCache.constructor | src/ImageProcessor.Web.Episerver/BlobCache.cs:19-39 | a cache keeps its request, has no cached path yet, and records no creation time (`DateTime.MinValue`) |
| BlobCaches.BlobCache.IsNewOrUpdated | src/ImageProcessor.Web.Episerver/BlobCache.cs:47-123 | without a blob folder the image is new and nothing changes; with one the cached path is the folder, `/` and the prefixed name, and the answer, the index and the kept creation time are those of the shared freshness check |
| BlobCaches.BlobCache.AddImageToCache | src/ImageProcessor.Web.Episerver/BlobCache.cs:125-128 | adding an image always throws `NotImplementedException` |
| BlobCaches.BlobCache.RewritePath | src/ImageProcessor.Web.Episerver/BlobCache.cs:130-133 | rewriting always throws `NotImplementedException` |
| BlobCaches.BlobCache.TrimCache | src/ImageProcessor.Web.Episerver/BlobCache.cs:135-138 | trimming always throws `NotImplementedException` |
| BlobCaches.OnlyExpiryIsStale | src/ImageProcessor.Web.Episerver/BlobCache.cs:108-182 | because the updated-check has its whole body commented out, a found or recorded image is stale exactly when it is expired |
| BlobCaches.CachedPathShape | src/ImageProcessor.Web.Episerver/BlobCache.cs:21-71 | the cached path is the blob folder, a `/` and the name with prefix `3p!_`, and it is indexed under the prefixed name without its extension |
| AzureBlobs.ContainerName | src/ImageProcessor.Web.Episerver.Azure/AzureBlobCache.cs:120-128 | media stored in a container uses that container's second segment; content that is not media, or has no container, falls back to `_3p!_static`; a container with fewer than two segments throws `IndexOutOfRangeException` |
| AzureBlobs.Wrap32 | src/ImageProcessor.Web.Episerver.Azure/AzureBlobCache.cs:199 | a C# `int` product is within the range of `int`, equals the exact value when that fits, and otherwise differs from it by a multiple of 2^32 |
| AzureBlobs.TryParseInt32 | src/ImageProcessor.Web.Episerver.Azure/AzureBlobCache.cs:100 | `int.TryParse` succeeds exactly for a well-formed integer text whose number is within the range of `int`, and then gives that number |
| AzureBlobs.BlockBlobs | src/ImageProcessor.Web.Episerver.Azure/AzureBlobCache.cs:237-238 | the trim keeps exactly the block blobs of the listing |
| AzureBlobs.ListBlobs | src/ImageProcessor.Web.Episerver.Azure/AzureBlobCache.cs:222-232 | the listing loop ends with the segments and the token checks of its specification |
| AzureBlobs.Names | src/ImageProcessor.Web.Episerver.Azure/AzureBlobCache.cs:256 | the names the trim removes are those of the blobs it deletes, in order |
| AzureBlobs.ByAge | src/ImageProcessor.Web.Episerver.Azure/AzureBlobCache.cs:235-239 | the trim visits exactly the block blobs of the listing, each as often as listed, sorted by last-modified time with a missing time first |
| AzureBlobs.ParseRoundTrip | src/ImageProcessor.Web.Episerver.Azure/AzureBlobCache.cs:98-102 | `int.TryParse` reads back every `int` that `ToString` writes |
| AzureBlobs.TimeoutRule | src/ImageProcessor.Web.Episerver.Azure/AzureBlobCache.cs:54-102 | without the setting the timeout is 1000; a setting that parses gives its value; one that does not parse gives 0 |
| AzureBlobs.SettingRules | src/ImageProcessor.Web.Episerver.Azure/AzureBlobCacheAlt.cs:142-168 | the two settings flags ignore case: settings that differ only in the case of their letters agree on both; streaming is on exactly for the letters of `true`, each in either case, and then the container flag is on too; an absent setting turns both off |
| AzureBlobs.CacheControlRule | src/ImageProcessor.Web.Episerver.Azure/AzureBlobCache.cs:199 | for up to 24855 days the max-age is the number of seconds in them, and it reads back as that number |
| AzureBlobs.CacheControlWraps | src/ImageProcessor.Web.Episerver.Azure/AzureBlobCache.cs:199 | 25000 days overflow the C# `int` product, and the header then carries a negative age |
| AzureBlobs.ListingRule | src/ImageProcessor.Web.Episerver.Azure/AzureBlobCache.cs:226-232 | the loop fetches the first segment even when the token is already cancelled, and every segment while it is not |
| AzureBlobs.AcceptedRule | src/ImageProcessor.Web.Episerver.Azure/AzureBlobCache.cs:342-362 | a response is kept; an error response is kept exactly when it is a 304 or comes from the cached path, case ignored; an error without a response is not kept |
| AzureBlobs.StreamRule | src/ImageProcessor.Web.Episerver.Azure/AzureBlobCache.cs:364-396 | stream mode only logs exactly when no response is kept; when it streams, it copies only the `ETag` and `Last-Modified` values that are not blank, and passes no content type exactly for a 304 |
| AzureBlobs.IfModifiedSinceRule | src/ImageProcessor.Web.Episerver.Azure/AzureBlobCache.cs:462-487 | a date is set exactly when the header parses, or when it mentions `utc` in any case and parses without it; a log line is written exactly when it neither parses nor mentions `utc`; so a header that mentions `utc` and still does not parse is dropped without a log line |
| AzureBlobCaches.Candidates | src/ImageProcessor.Web.Episerver.Azure/AzureBlobCache.cs:246-256 | the blobs the loop would delete are all listed and deletable, in their order |
| AzureBlobCaches.AzureBlobCache.constructor | src/ImageProcessor.Web.Episerver.Azure/AzureBlobCache.cs:72-108 | a cache keeps its request, settings and container; its timeout is read from `CDNTimeout` (1000 without it, 0 when it does not parse); stream mode is on exactly for `StreamCachedImage` set to `true` in any case; no path is set yet |
| AzureBlobCaches.AzureBlobCache.IsNewOrUpdated | src/ImageProcessor.Web.Episerver.Azure/AzureBlobCache.cs:116-178 | a container with fewer than two segments throws and changes nothing; otherwise the blob path is `<container>/3p!_<file>`, the cached path that under the container's URI, and the answer and the index are those of the freshness check, with the blob's own time recorded on a miss and the blob or the request path deciding "updated" |
| AzureBlobCaches.AzureBlobCache.AddImageToCache | src/ImageProcessor.Web.Episerver.Azure/AzureBlobCache.cs:192-205 | the upload goes to the checked blob path, with the content type given and the `ImageProcessedBy` metadata naming the assembly; without a blob path the SDK throws `ArgumentNullException` |
| AzureBlobCaches.AzureBlobCache.TrimCache | src/ImageProcessor.Web.Episerver.Azure/AzureBlobCache.cs:213-262 | with trimming off nothing changes; otherwise the names deleted, the index and the token checks are those of the listing loop followed by the delete loop over the block blobs oldest first, and exactly the deleted names leave the index |
| AzureBlobCaches.SweepBlobs | src/ImageProcessor.Web.Episerver.Azure/AzureBlobCache.cs:235-258 | the delete loop ends with the names and the checks of its specification, and the index loses exactly the keys of the deleted names |
| AzureBlobCaches.RecordedBlobRule | src/ImageProcessor.Web.Episerver.Azure/AzureBlobCache.cs:137-175 | a blob the check has just recorded is never newer than itself, so on an index miss with the blob present and dated the answer is "new" exactly when its time has expired |
| AzureBlobCaches.IndexedBlobRule | src/ImageProcessor.Web.Episerver.Azure/AzureBlobCache.cs:135-305 | on an index hit the image is stale exactly when it has expired or the cached blob was modified after the recorded time; when the blob is missing, the request path's `Last-Modified` decides instead |
| AzureBlobCaches.AzureSweepRule | src/ImageProcessor.Web.Episerver.Azure/AzureBlobCache.cs:235-258 | cancelled or not, what the loop deletes is a prefix of the names of the deletable blobs in order; never cancelled, it deletes all of them |
| AzureBlobCaches.OnlyCachedImagesDeleted | src/ImageProcessor.Web.Episerver.Azure/AzureBlobCache.cs:251-254 | every deleted name carries the prefix `3p!_`, so only cached images are deleted |
| AzureBlobCaches.AzureRedirectRule | src/ImageProcessor.Web.Episerver.Azure/AzureBlobCache.cs:409-450 | redirect mode sends the browser to the signed blob URL exactly when the HEAD request answers; with no response it goes to the cached path; with an error response it goes there exactly when that is a 304 or comes from the cached path, and logs otherwise |
| AzureBlobCaches.AzureRewriteRule | src/ImageProcessor.Web.Episerver.Azure/AzureBlobCache.cs:313-397 | every request goes to the signed URL of the checked blob; stream mode is used exactly when the setting is on, with the configured timeout; it clears the response's headers before copying and only logs exactly when no response is kept |
| AzureBlobCaches.UploadTargetsCheckedBlob | src/ImageProcessor.Web.Episerver.Azure/AzureBlobCache.cs:194-199 | the upload goes to the blob the check looked at, and its `Cache-Control` carries the browser's max-age in seconds |
| AzureBlobCachesAlt.LeftPart | src/ImageProcessor.Web.Episerver.Azure/AzureBlobCacheAlt.cs:283 | the left part of a URI is a prefix of it that holds no `?` and no `#` |
| AzureBlobCachesAlt.AzureBlobCacheAlt.constructor | src/ImageProcessor.Web.Episerver.Azure/AzureBlobCacheAlt.cs:93-143 | a cache keeps its request, settings and container URI; the CDN root is `CachedCDNRoot` or the container URI with the container name's characters trimmed from its end; the timeout is read from `CachedCDNTimeout`; streaming is on exactly for `StreamCachedImage` equal to `true` in any case; no path is set yet |
| AzureBlobCachesAlt.AzureBlobCacheAlt.IsNewOrUpdated | src/ImageProcessor.Web.Episerver.Azure/AzureBlobCacheAlt.cs:151-233 | a container with fewer than two segments throws and changes nothing; otherwise the blob path, the cached path and the rewrite path are set from the container and `3p!_<file>`, and the answer and the index are those of this cache's freshness check, in which a local file at the cached path decides by its creation time and otherwise the blob's time is recorded on a miss |
| AzureBlobCachesAlt.AzureBlobCacheAlt.AddImageToCache | src/ImageProcessor.Web.Episerver.Azure/AzureBlobCacheAlt.cs:247-260 | without a cached path the upload throws `ArgumentNullException`; it succeeds exactly when the cached path is longer than the container URI, and then goes to the blob after the URI and its slash, with the content type and `ImageProcessedBy` = `ImageProcessor.Web.Episerver/<version>` |
| AzureBlobCachesAlt.AzureBlobCacheAlt.TrimCache | src/ImageProcessor.Web.Episerver.Azure/AzureBlobCacheAlt.cs:268-318 | with trimming off nothing changes; a cached path that cannot give a listing prefix throws and changes nothing; otherwise the names deleted, the index and the token's checks are those of the paged listing under the prefix followed by the delete loop as written (no name test) over the blobs oldest first |
| AzureBlobCachesAlt.FillIndex | src/ImageProcessor.Web.Episerver.Azure/AzureBlobCacheAlt.cs:175-214 | the lookup records a local file's image whatever the index held, and only when there is still no image records the blob's; the index and the image found are exactly those of this cache's fill |
| AzureBlobCachesAlt.SweepBlobs | src/ImageProcessor.Web.Episerver.Azure/AzureBlobCacheAlt.cs:300-314 | the names deleted and the checks made are those of `AltSweep` (stop at a cancelled check or at the first dated blob that has not expired, delete every other blob whatever its name), and exactly the deleted names leave the index |
| AzureBlobCachesAlt.BlobOfCachedPath | src/ImageProcessor.Web.Episerver.Azure/AzureBlobCacheAlt.cs:170-249 | the text after the container URI and its slash in a cached path is the blob path it was made from, so the lookup, the fill and the upload name the same blob |
| AzureBlobCachesAlt.AltFreshnessWithoutFile | src/ImageProcessor.Web.Episerver.Azure/AzureBlobCacheAlt.cs:175-230 | without a local file this cache's check is the freshness check every cache shares |
| AzureBlobCachesAlt.AltFreshnessWithFile | src/ImageProcessor.Web.Episerver.Azure/AzureBlobCacheAlt.cs:177-230 | with a local file its creation time decides: the image is new or updated exactly when that time has expired or the source is newer, and the index then drops the key or holds the file's image |
| AzureBlobCachesAlt.CdnRootRule | src/ImageProcessor.Web.Episerver.Azure/AzureBlobCacheAlt.cs:128-130 | without `CachedCDNRoot`, a container URI `<base>/<name>` gives the CDN root `<base>/` |
| AzureBlobCachesAlt.RewriteTargetRule | src/ImageProcessor.Web.Episerver.Azure/AzureBlobCacheAlt.cs:168-172 | the rewrite path is the CDN root and the request path, with the container put between them when `UseCachedContainerInUrl` is set and not `false` |
| AzureBlobCachesAlt.TrimPrefixRule | src/ImageProcessor.Web.Episerver.Azure/AzureBlobCacheAlt.cs:280-285 | with folders in use a trim lists the blobs whose names start with the first two characters of the cached image's container |
| AzureBlobCachesAlt.AltSweepDeletesPrefix | src/ImageProcessor.Web.Episerver.Azure/AzureBlobCacheAlt.cs:300-314 | what the loop as written deletes, cancelled or not, is the names of a leading run of the blobs in listing order |
| AzureBlobCachesAlt.AltSweepStops | src/ImageProcessor.Web.Episerver.Azure/AzureBlobCacheAlt.cs:300-314 | in the loop as written no deleted blob is dated and unexpired, and an uncancelled loop stops early only at a dated blob that has not expired |
| AzureBlobCachesAlt.NoExpiredBlobSurvives | src/ImageProcessor.Web.Episerver.Azure/AzureBlobCacheAlt.cs:300-314 | with the blobs oldest first and an expiry that holds for anything older than an expired time, the loop as written, uncancelled, leaves no dated block blob that has expired |
| AzureBlobCachesAlt.SweepDeletesMediaBlob | src/ImageProcessor.Web.Episerver.Azure/AzureBlobCacheAlt.cs:300-314 | example of the code as written: an expired blob `0a1b/photo.jpg`, which has no `3p!_` prefix, is deleted |
| AzureBlobCachesAlt.CorrectedSweepRule | src/ImageProcessor.Web.Episerver.Azure/AzureBlobCacheAlt.cs:300-314 | the intended delete loop, with the prefix test of `AzureBlobCache`, deletes only listed names that carry the `3p!_` prefix |
| AzureBlobCachesAlt.WithPrefix | src/ImageProcessor.Web.Episerver.Azure/AzureBlobCacheAlt.cs:300-314 | the names kept are exactly those of the list that carry the `3p!_` prefix |
| AzureBlobCachesAlt.CorrectedSweepAgrees | src/ImageProcessor.Web.Episerver.Azure/AzureBlobCacheAlt.cs:300-314 | the corrected loop stops where the loop as written stops, after the same checks, and deletes exactly the cached images among what the loop as written deletes |
| AzureBlobCachesAlt.NoExpiredCachedImageSurvives | src/ImageProcessor.Web.Episerver.Azure/AzureBlobCacheAlt.cs:300-314 | with the blobs oldest first and a monotone expiry, an uncancelled corrected trim deletes every dated cached image that has expired |
| AzureBlobCachesAlt.AltRedirectRule | src/ImageProcessor.Web.Episerver.Azure/AzureBlobCacheAlt.cs:406-459 | redirect mode sends the browser only to the rewrite path or the cached path; when they are equal, at once to the cached path; else to the rewrite path when the HEAD answers, to the cached path when it fails without a response, and to the rewrite path for an error response exactly when it is a 304 or came from the rewrite path |
| AzureBlobCachesAlt.AltRewriteRule | src/ImageProcessor.Web.Episerver.Azure/AzureBlobCacheAlt.cs:326-405 | a checked cache always rewrites to the rewrite path; it streams exactly when streaming is on, with the configured timeout and the forwarded headers; a streamed answer keeps the response's other headers, and nothing is streamed exactly when the response is not accepted |
| AzureBlobCachesAlt.UploadTargetsCheckedBlob | src/ImageProcessor.Web.Episerver.Azure/AzureBlobCacheAlt.cs:249-255 | an upload after a check goes to the blob the check looked at, with `Cache-Control: public, max-age=<days × 86400>` |
| AzureImageServices.SettingValue | src/ImageProcessor.Web.Episerver.Azure/AzureImageService.cs:139-140 | `int.Parse` of a setting fails with `KeyNotFoundException` exactly for a missing key, `ArgumentNullException` for a null value, `FormatException` for text that is not an integer and `OverflowException` for an integer outside the range of `int`; otherwise its value is the setting parsed |
| AzureImageServices.NormalizedContainer | src/ImageProcessor.Web.Episerver.Azure/AzureImageService.cs:129 | the normalised container ends in exactly the slash put after it |
| AzureImageServices.Prefixed | src/ImageProcessor.Web.Episerver.Azure/AzureImageService.cs:130-133 | the relative URL always starts with the normalised container; it is kept exactly when it starts with the container and a second slash (the test as written), or when prefixing would give it back unchanged |
| AzureImageServices.ContainerAfter | src/ImageProcessor.Web.Episerver.Azure/AzureImageService.cs:126-129 | the container static stays null or empty exactly when it was |
| AzureImageServices.Download | src/ImageProcessor.Web.Episerver.Azure/AzureImageService.cs:136-171 | a download that does not throw always yields a buffer |
| AzureImageServices.ImageServiceStatics.constructor | src/ImageProcessor.Web.Episerver.Azure/AzureImageService.cs:27-28 | the host and container statics start null |
| AzureImageServices.ImageService.constructor | src/ImageProcessor.Web.Episerver.Azure/AzureImageService.cs:33-78 | the first service (host null or white space) sets the host from the blob client's base URI and the container from the provider's `container` parameter, later ones leave both; every service is remote, has an empty prefix and starts with `MaxBytes` 4194304, `Timeout` 30000 and the two statics as settings |
| AzureImageServices.ImageService.GetImage | src/ImageProcessor.Web.Episerver.Azure/AzureImageService.cs:108-172 | the host never changes; with a null host the request throws; content that is missing or that the user may not read gives null and leaves the container; otherwise the answer is the download from the host combined with the relative URL the line-130 test gives, and the container static is normalised |
| AzureImageServices.NormalizedContainerIdempotent | src/ImageProcessor.Web.Episerver.Azure/AzureImageService.cs:129 | normalising a normalised container changes nothing, so the static settles after the first request |
| AzureImageServices.RelativeResourceUrlRule | src/ImageProcessor.Web.Episerver.Azure/AzureImageService.cs:121-134 | with a container the relative URL lies under its normalised form, without one it is the blob's path; a second request with the normalised static asks for the same URL |
| AzureImageServices.PrefixedRule | src/ImageProcessor.Web.Episerver.Azure/AzureImageService.cs:130-133 | the intended `CorrectedPrefixed` is idempotent, always under the container and keeps a URL already under it; it agrees with the test as written on every URL not under the container and every URL under it followed by a second slash |
| AzureImageServices.WrittenPrefixTwice | src/ImageProcessor.Web.Episerver.Azure/AzureImageService.cs:130 | example of the code as written: `/media/x.jpg` with the container `/media` becomes `/media/media/x.jpg`, and applying the test twice prefixes twice |
| AzureImageServices.DefaultDownloadRule | src/ImageProcessor.Web.Episerver.Azure/AzureImageService.cs:52-166 | a new service's limits parse to 4194304 bytes and 30000 milliseconds, so its download fails only with the 404 of a missing response stream, and otherwise returns the stream's bytes |
| Urls.UrlBuilder.constructor | src/ImageProcessor.Web.Episerver/Extensions/HtmlHelperExtensions.cs:59 | a builder is empty exactly for the empty URL, and holds the URL's path and its query pairs in order |
| Urls.UrlBuilder.Add | src/ImageProcessor.Web.Episerver/Extensions/UrlBuilderExtensions.cs:19 | adding a pair appends it to the query and leaves the path |
| Urls.UrlBuilder.AddAll | src/ImageProcessor.Web.Episerver/Extensions/UrlBuilderExtensions.cs:30 | adding a collection appends its pairs in order and leaves the path |
| Urls.UrlBuilder.MergeQueryCollection | src/ImageProcessor.Web.Episerver/Extensions/Picture/PictureUtils.cs:55-56 | a merge leaves the path and sets the query to the merge of the old query with the collection |
| Urls.MergeValues | src/ImageProcessor.Web.Episerver/Extensions/Picture/PictureUtils.cs:56 | a merge overwrites exactly the keys of the merged collection, each with its last value there, and leaves every other key as it was |
| Urls.SetValueValues | src/ImageProcessor.Web.Episerver/Extensions/Picture/PictureUtils.cs:56 | after a set the key holds exactly the new value and every other key is unchanged |
| Text.TryParseBool | src/ImageProcessor.Web.Episerver/Extensions/Picture/PictureUtils.cs:48 | parsing a flag fails for null, and yields `true` or `false` only for that word in any case, padded or not |
| Text.HalfTowardZero | src/ImageProcessor.Web.Episerver/Extensions/Picture/PictureUtils.cs:73 | integer halving truncates toward zero, on negative widths as well |
| Imaging.ConvertToInt32 | src/ImageProcessor.Web.Episerver/Extensions/Picture/PictureUtils.cs:70 | the conversion of a real gives the nearest integer, halves going to the even neighbour |
| Text.LowerBool | src/ImageProcessor.Web.Episerver/Extensions/UrlBuilderExtensions.cs:86 | a flag's lower-case text is `true` or `false` |

## Left out

- Real I/O is not run. The file system, the Azure storage SDK (listing, upload, metadata, existence), `HttpWebRequest` HEAD and GET, `TransmitFile`, `Redirect` and `RewritePath` become parameters or results: a `Disk` value, a page listing, a `Probe` answer, a `Redirected` or `Streamed` outcome.
- The clock is a parameter `now`. `DateTime.TryParse` is a parse function given as a parameter. The `CacheIndexer`'s `IsExpired` (its `MaxDays` setting) is the parameter `isExpired`.
- Cancellation inside an SDK call is not modelled. A trim asks its `CancellationToken` only where the source calls `IsCancellationRequested`.
- Concurrency is not modelled: `LazyInitializer` in `FileBlobCache`, the lazily created static clients and containers of the Azure caches, and `ScheduleCacheTrimmer`'s background run. A trim is one sequential loop.
- The shared-access signature of `AzureBlobCache` is crypto inside the SDK. The signed URL is a parameter.
- `Dispose`, `SetHeaders` and the CORS settings of the caches carry no logic of the repository. They are not modelled.
- `Uri` parsing, normalisation and combination are taken as text operations on the given strings. A `UriFormatException` is not modelled.
- `UrlBuilder.ToString` is its path followed by its query text. EPiServer's own encoding of keys and values is not modelled.
- `Urls.Render`: a key added twice is written as two pairs, in the order they were added. EPiServer's query is backed by a `NameValueCollection`, which may group the values of one key at that key's first position. The model assumes no grouping.
- `UrlBuilder.IsEmpty` is fixed when the builder is built: it is true exactly when the URL it was given is `""`. Later changes to the query do not change it.
- `UrlBuilder.MergeQueryCollection` is taken to set each key of the merged collection to its value there, as a `NameValueCollection` set per key.
- `ProcessImageBlocks.GetMethods`: `new UrlBuilder(null)`, for an image the resolver cannot find, is taken as a builder of `""`.
- UrlBuilderExtensions: string arguments the source uses without a null test are plain strings in the model. These are the colour texts of `BackgroundColor` (UrlBuilderExtensions.cs:103), `ReplaceColor` (:662), `Tint` (:920) and `Vignette` (:988), which the source lower-cases. On a non-empty builder a null there throws `NullReferenceException` in the source, which the model does not have.
- CropHelpers: the numbers of Helpers.js are integers in the model. The crop fields and `imageWidth` could be fractional JavaScript numbers, and the model does not have floating-point addition. `image.id` is an optional integer, whatever other value the source could test for truthiness. `item.previewUrl` is never null.
- `ImageReferenceExtensions.CornerForm`: the sums `x + width` and `y + height` (ImageReferenceExtensions.cs:37) are unbounded. The 32-bit C# overflow of those sums is not modelled.
- `StringComparison.OrdinalIgnoreCase` and `ToLower`/`ToLowerInvariant` are ASCII case mapping. Other letters keep their case.
- `Float` arguments (`Gamma`, rotation angles, `sigma`, ratios, centre points) are a value and the text `ToString` gives. Only comparisons use the value. Floating-point rounding of `Convert.ToInt32(width * HeightRatio)` is taken on the exact real product.
- The regex engine is not modelled. `,,\d+` deletion and the alternate-`?` rewrite are direct string functions with leftmost, greedy, non-overlapping matches.
- `Text.IsDigit` is ASCII `0`-`9`. In .NET, `\d` matches every Unicode decimal digit, so on non-ASCII digits the `,,\d+` deletion of the source removes more than the model does. This is probably unreachable, because the text comes from a URL that `Uri` has already escaped.
- JSON (de)serialisation (`PropertyMediaReferenceBase`, `MediaReferenceConverter`) is Newtonsoft's. Only the property names `LowercaseContractResolver` gives are modelled.
- The Dojo editor widgets (`ImageReferenceSelector.js`, `ImageReferenceListSelector.js`, `ColorPicker.js`), the sample `lazyImages.js` and `Helpers.preloadImage` are browser UI. They are not modelled.
- `PictureUtils.GetPictureData` is not part of this model. The newer `PictureHelper` takes it as the parameter `getPictureData`.
- The newer `PictureHelper` ends with `HttpUtility.HtmlDecode` of the rendered markup. The model stops at the element tree, so rendering and decoding are left out.
- `ImageReferenceExtensions.GetCropUrl`: every exception inside its `try` (parsing or resolving a content link) is one `None` from `resolve`. Which exception it was does not matter to the source, which answers with the fallback either way.
- `FileIsEpiserverBlob` in `FileBlobCache` queries Episerver's blob provider. It is a predicate parameter.
- `FileBlobCache.AddImageToCacheAsync` only creates the cached file's directory and copies the stream into the file. It is I/O and is not modelled.
- `AzureBlobCacheAlt`'s `IsValidRequest` only calls `ImageHelpers.IsValidImageExtension` of ImageProcessor. It is not modelled.
- The constructor of `AzureBlobCacheAlt` gets its container references from the SDK. The model keeps only the names and settings it computes.
- `FileBlobCache.RewritePath`: a null cached or virtual path is not modelled. Those paths are plain strings there. The Azure caches do model a missing path, as `ArgumentNull`.
- `FileBlobCache.RewritePath`: the source calls `GetETag` twice, each reading the clock. The model reads the tag once, at `now`, so both see the same tag. They can differ only when the weak three-second window ends between the two reads.
- `AzureImageServices.Content`: binary content whose `BinaryData` is null throws `NullReferenceException` at `binary.BinaryData.ID.AbsolutePath` (AzureImageService.cs:123). `binaryPath` is an optional string that cannot express that case. A missing path stands only for content that is not binary.
- `Imaging.ConvertToInt32`: the result is an unbounded integer. The `OverflowException` of `Convert.ToInt32` for a product outside the 32-bit range is not modelled.
- `MethodCollections`: a collection whose content area holds the collection itself, a cycle the CMS allows, makes MethodCollectionBlock.cs:25-39 recurse until the stack overflows. The model's method trees are finite datatypes, so such a cycle cannot be expressed.
- `AzureImageService`: the length check of `MemoryStream.GetBuffer` and the exceptions of the underlying `RemoteFile` download are not modelled. The download is a parameter giving the stream or none.
- Exceptions the configuration classes throw for missing settings are not modelled. A missing setting is `None`.
- Date parsing: `If-Modified-Since` parsing is the parameter `parse`. Only the retry without `utc` is modelled.
- ImageService.cs (the local image service) only dispatches I/O. StringExtensions.cs only wraps `Uri.TryCreate`. IconAttribute.cs is a single expression over host settings. None of them is modelled.
- The method blocks that forward one field set to one extension method (Alpha, Hue, RoundedCorners, Blur, Sharpen, Overlay, Flip and the like) are not modelled one by one. `MethodCollections.SingleMethod` stands for any such block, given by the call it makes, and the extension method itself is modelled.
- The CMS scaffolding is not modelled: content types, editor descriptors, controllers, `EnumAttribute`, the grouping headers, default-value initialisation, data-only classes (`PictureData`, `ImageReference`, `MediaReference`, Enums.cs) and the samples.
- The historical duplicates (two request-URL modules, two sets of extension methods, two picture helpers, three `ImageType`s) are modelled in separate modules. They are not reconciled.
- `CacheIndex.CacheIndexer` stands for ImageProcessor's `CacheIndexer`, which is not part of this model. It is assumed to look up and remove by the file name without extension, and to add under the image's `Key`.

## Findings

Each row names a lemma about the code as written that shows the discrepancy. The model itself follows the code as written. Beside it stands a corrected definition, with the intended property proved about it and its relation to the code as written over all inputs.

| source | as written | input that shows it | evidently intended | confidence | as-written member | corrected member |
|---|---|---|---|---|---|---|
| src/ImageProcessor.Web.Episerver/Extensions/PictureHelper.cs:123 | the quality-1 `srcset` entry is `imageUrl + BuildQueryString(...)`, and `BuildQueryString` already returns the whole URL, so the URL is written twice | path `/a.jpg`, quality 1, width 100 gives `/a.jpg?quality=1&width=100/a.jpg?quality=1&width=100 100w` | the entry is `<url> <width>w` with the quality-1 URL written once, like every other candidate | not executed; high | PictureHelperLegacy.LowQualityEntryDoubled | PictureHelperLegacy.CorrectedLowQualityEntries |
| build/content/ImageProcessor.Web.Episerver.UI.Crop/Scripts/Helpers.js:29-30 | without crop details `getImageUrl` always appends `?width=N` | preview URL `/a.jpg?v=1` with width 100 gives `/a.jpg?v=1?width=100` | `&` when the URL already holds a `?`, as the crop branch does, so the URL has at most one `?` | not executed; high | CropHelpers.NoCropBranchSecondQuestionMark | CropHelpers.CorrectedQuestionMarks |
| src/ImageProcessor.Web.Episerver/Extensions/Picture/PictureHelper.cs:98-99 | under progressive lazy loading the webp `<source>` gets `srcset = SrcSetLowQuality`, the low-quality set of the original format, and `SrcSetLowQualityWebp` is never used | `SrcSetLowQuality = "a.jpg?quality=1 100w"`, `SrcSetLowQualityWebp = "a.jpg?format=webp&quality=1 100w"`; the webp source shows the first | the webp source shows `SrcSetLowQualityWebp` | not executed; medium | PictureHelper.WebpSourceShowsOriginalLowQuality | PictureHelper.CorrectedLowQualitySources |
| src/ImageProcessor.Web.Episerver.Azure/AzureBlobCacheAlt.cs:300-314 | the trim deletes every expired block blob it lists, with no test for the cached-image prefix `3p!_` | an expired media blob `0a1b/photo.jpg` in the listing is deleted | only cached images (names holding `3p!_`) are deleted, as `AzureBlobCache` does | not executed; medium | AzureBlobCachesAlt.SweepDeletesMediaBlob | AzureBlobCachesAlt.CorrectedSweepRule |
| src/ImageProcessor.Web.Episerver.Azure/AzureImageService.cs:130 | the test is `StartsWith(containerName + "/")`, but `containerName` already ends in `/`, so it looks for `/media//` | container `/media`, relative URL `/media/x.jpg` gives `/media/media/x.jpg`; this needs a container setting that starts with `/`, since `AbsolutePath` always does and a setting such as `media` matches it under neither test | a relative URL that already starts with the container is kept, so prefixing is idempotent | not executed; medium | AzureImageServices.WrittenPrefixTwice | AzureImageServices.PrefixedRule |
