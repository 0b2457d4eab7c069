/**
 * The blocks that process one image with a content area of method blocks:
 * `ProcessImageBaseBlock`
 * (src/ImageProcessor.Web.Episerver.UI.Blocks/Models/Blocks/ProcessImageBaseBlock.cs)
 * adds width and height first and then runs the methods; the older
 * `ProcessImageBlock`
 * (src/ImageProcessor.Web.Episerver.UI/Models/Blocks/ProcessImageBlock.cs)
 * runs the methods first.  Both work on one shared builder and return it.
 */
module ProcessImageBlocks {
  import opened Wrappers
  import opened Text
  import opened Urls
  import opened ExtensionCalls
  import opened MethodCollections
  import Current = UrlBuilderExtensions
  import H = HtmlHelperExtensions

  /** `ProcessImageBaseBlock`: its `Methods` area and its nullable `Width` and `Height`. */
  datatype ProcessImageBaseBlock = ProcessImageBaseBlock(methods: ContentArea, width: Option<int>, height: Option<int>)

  /** `ProcessImageBlock`: its `Image`, its `Methods` area and its `Width` and `Height`. */
  datatype ProcessImageBlock = ProcessImageBlock(image: Option<H.ContentReference>, methods: ContentArea, width: int, height: int)

  /** `if (Width > 0) url.Width(...)` then `if (Height > 0) url.Height(...)`; a null size is not greater than 0. */
  function SizeCalls(width: Option<int>, height: Option<int>): seq<Call>
  {
    (if width.Some? && width.value > 0 then [Current.Width(width.value)] else [])
    + (if height.Some? && height.value > 0 then [Current.Height(height.value)] else [])
  }

  /** The calls of `ProcessImageBaseBlock.MethodBuilder`: width and height, then the methods. */
  function BaseBlockCalls(block: ProcessImageBaseBlock): seq<Call>
  {
    SizeCalls(block.width, block.height) + AreaCalls(block.methods)
  }

  /** The calls of `ProcessImageBlock.MethodBuilder`: the methods, then width and height. */
  function ProcessImageCalls(block: ProcessImageBlock): seq<Call>
  {
    AreaCalls(block.methods) + SizeCalls(Some(block.width), Some(block.height))
  }

  /** The pairs width and height add to a builder. */
  function SizePairs(isEmpty: bool, width: Option<int>, height: Option<int>): seq<Pair>
  {
    if isEmpty then []
    else Opt(width.Some? && width.value > 0, "width", IntToString(width.GetOr(0)))
         + Opt(height.Some? && height.value > 0, "height", IntToString(height.GetOr(0)))
  }

  /** The size step of both blocks: `Width` when positive, then `Height` when positive. */
  method AddSizes(width: Option<int>, height: Option<int>, url: UrlBuilder)
    modifies url
    ensures url.path == old(url.path)
    ensures url.query == old(url.query) + SizePairs(url.isEmpty, width, height)
  {
    SizesRun(url.isEmpty, width, height);
    if width.Some? && width.value > 0 {
      Current.GuardedEffect([("width", IntToString(width.value))]);
      var _ := Apply(url, Current.Width(width.value));
    } else {
      assert old(url.query) + [] == url.query;
    }
    ghost var q1 := url.query;
    if height.Some? && height.value > 0 {
      Current.GuardedEffect([("height", IntToString(height.value))]);
      var _ := Apply(url, Current.Height(height.value));
    } else {
      assert q1 + [] == url.query;
    }
    assert url.query == old(url.query) + SizePairs(url.isEmpty, width, height);
  }

  /** `ProcessImageBaseBlock.MethodBuilder` */
  method BaseMethodBuilder(block: ProcessImageBaseBlock, url: UrlBuilder) returns (r: Result<UrlBuilder, Error>)
    modifies url
    ensures url.path == old(url.path)
    ensures url.query == old(url.query) + RunCalls(url.isEmpty, BaseBlockCalls(block)).pairs
    ensures r == Returned(RunCalls(url.isEmpty, BaseBlockCalls(block)), url)
  {
    ghost var q0 := url.query;
    AddSizes(block.width, block.height, url);
    ghost var q1 := url.query;
    r := RunMethods(block.methods, url);
    BaseBlockSteps(block, url.isEmpty, q0, q1, url.query);
  }

  /** The two steps of `BaseMethodBuilder` make up its run. */
  lemma BaseBlockSteps(block: ProcessImageBaseBlock, isEmpty: bool, q0: seq<Pair>, q1: seq<Pair>, q2: seq<Pair>)
    requires q1 == q0 + SizePairs(isEmpty, block.width, block.height)
    requires q2 == q1 + RunCalls(isEmpty, AreaCalls(block.methods)).pairs
    ensures q2 == q0 + RunCalls(isEmpty, BaseBlockCalls(block)).pairs
    ensures RunCalls(isEmpty, BaseBlockCalls(block)).error == RunCalls(isEmpty, AreaCalls(block.methods)).error
  {
    var methods := RunCalls(isEmpty, AreaCalls(block.methods));
    var sizes := SizePairs(isEmpty, block.width, block.height);
    BaseBlockRun(block, isEmpty);
    assert q2 == q0 + (sizes + methods.pairs);
  }

  /** The methods of a block's area, when it has one, on the shared builder. */
  method RunMethods(methods: ContentArea, url: UrlBuilder) returns (r: Result<UrlBuilder, Error>)
    modifies url
    ensures url.path == old(url.path)
    ensures url.query == old(url.query) + RunCalls(url.isEmpty, AreaCalls(methods)).pairs
    ensures r == Returned(RunCalls(url.isEmpty, AreaCalls(methods)), url)
  {
    if methods.NoArea? {
      assert old(url.query) + [] == url.query;
      return Ok(url);
    }
    r := RunArea(methods, url);
  }

  /** `ProcessImageBlock.MethodBuilder` */
  method MethodBuilder(block: ProcessImageBlock, url: UrlBuilder) returns (r: Result<UrlBuilder, Error>)
    modifies url
    ensures url.path == old(url.path)
    ensures url.query == old(url.query) + RunCalls(url.isEmpty, ProcessImageCalls(block)).pairs
    ensures r == Returned(RunCalls(url.isEmpty, ProcessImageCalls(block)), url)
  {
    ghost var q0 := url.query;
    var methods := RunMethods(block.methods, url);
    if methods.Err? {
      MethodsThrow(block, url.isEmpty);
      return methods;
    }
    ghost var q1 := url.query;
    AddSizes(Some(block.width), Some(block.height), url);
    ProcessImageSteps(block, url.isEmpty, q0, q1, url.query);
    r := Ok(url);
  }

  /** A method that throws ends `MethodBuilder` with the pairs added so far. */
  lemma MethodsThrow(block: ProcessImageBlock, isEmpty: bool)
    requires RunCalls(isEmpty, AreaCalls(block.methods)).error.Some?
    ensures RunCalls(isEmpty, ProcessImageCalls(block)) == RunCalls(isEmpty, AreaCalls(block.methods))
  {
    ProcessImageRun(block, isEmpty);
  }

  /** The two steps of `MethodBuilder` make up its run when no method throws. */
  lemma ProcessImageSteps(block: ProcessImageBlock, isEmpty: bool, q0: seq<Pair>, q1: seq<Pair>, q2: seq<Pair>)
    requires RunCalls(isEmpty, AreaCalls(block.methods)).error.None?
    requires q1 == q0 + RunCalls(isEmpty, AreaCalls(block.methods)).pairs
    requires q2 == q1 + SizePairs(isEmpty, Some(block.width), Some(block.height))
    ensures q2 == q0 + RunCalls(isEmpty, ProcessImageCalls(block)).pairs
    ensures RunCalls(isEmpty, ProcessImageCalls(block)).error.None?
  {
    var methods := RunCalls(isEmpty, AreaCalls(block.methods));
    var sizes := SizePairs(isEmpty, Some(block.width), Some(block.height));
    ProcessImageRun(block, isEmpty);
    assert RunCalls(isEmpty, ProcessImageCalls(block)) == Outcome(methods.pairs + sizes, None);
    assert q2 == q0 + (methods.pairs + sizes);
  }

  /** `ProcessImageBlock.GetMethods`: a new builder for the image's URL (null taken as ""), run through `MethodBuilder`. */
  method GetMethods(block: ProcessImageBlock, resolve: Option<H.ContentReference> -> Option<string>)
    returns (r: Result<UrlBuilder, Error>, url: UrlBuilder)
    ensures fresh(url)
    ensures url.path == PathPart(resolve(block.image).GetOr(""))
    ensures url.query == QueryPart(resolve(block.image).GetOr("")) + RunCalls(url.isEmpty, ProcessImageCalls(block)).pairs
    ensures r == Returned(RunCalls(url.isEmpty, ProcessImageCalls(block)), url)
  {
    url := new UrlBuilder(resolve(block.image).GetOr(""));
    r := MethodBuilder(block, url);
  }

  // ---------------------------------------------------------------------------------------------
  // Properties

  /** Width and height never throw, and add a pair each when positive (nothing to an empty builder). */
  lemma SizesRun(isEmpty: bool, width: Option<int>, height: Option<int>)
    ensures RunCalls(isEmpty, SizeCalls(width, height)) == Outcome(SizePairs(isEmpty, width, height), None)
  {
    var w: seq<Call> := if width.Some? && width.value > 0 then [Current.Width(width.value)] else [];
    var h: seq<Call> := if height.Some? && height.value > 0 then [Current.Height(height.value)] else [];
    RunCallsAppend(isEmpty, w, h);
    if width.Some? && width.value > 0 {
      RunOne(isEmpty, Current.Width(width.value));
      Current.GuardedEffect([("width", IntToString(width.value))]);
    }
    if height.Some? && height.value > 0 {
      RunOne(isEmpty, Current.Height(height.value));
      Current.GuardedEffect([("height", IntToString(height.value))]);
    }
    if isEmpty {
      assert RunCalls(isEmpty, w).pairs + RunCalls(isEmpty, h).pairs == [];
    }
  }

  /**
   * `ProcessImageBaseBlock`: the width and height pairs come before every
   * method's pairs, and only the methods can throw.
   */
  lemma BaseBlockRun(block: ProcessImageBaseBlock, isEmpty: bool)
    ensures RunCalls(isEmpty, BaseBlockCalls(block))
      == Outcome(SizePairs(isEmpty, block.width, block.height) + RunCalls(isEmpty, AreaCalls(block.methods)).pairs,
                 RunCalls(isEmpty, AreaCalls(block.methods)).error)
    ensures block.methods.NoArea? ==>
      RunCalls(isEmpty, BaseBlockCalls(block)) == Outcome(SizePairs(isEmpty, block.width, block.height), None)
  {
    SizesRun(isEmpty, block.width, block.height);
    RunCallsAppend(isEmpty, SizeCalls(block.width, block.height), AreaCalls(block.methods));
    if block.methods.NoArea? {
      assert SizePairs(isEmpty, block.width, block.height) + [] == SizePairs(isEmpty, block.width, block.height);
    }
  }

  /**
   * `ProcessImageBlock`: the methods' pairs come first and width and height
   * follow; a method that throws leaves width and height out.
   */
  lemma ProcessImageRun(block: ProcessImageBlock, isEmpty: bool)
    ensures var methods := RunCalls(isEmpty, AreaCalls(block.methods));
      RunCalls(isEmpty, ProcessImageCalls(block))
      == if methods.error.Some? then methods
         else Outcome(methods.pairs + SizePairs(isEmpty, Some(block.width), Some(block.height)), None)
  {
    SizesRun(isEmpty, Some(block.width), Some(block.height));
    RunCallsAppend(isEmpty, AreaCalls(block.methods), SizeCalls(Some(block.width), Some(block.height)));
  }

  /** The two blocks add the same pairs in opposite orders when no method throws. */
  lemma OppositeOrders(methods: ContentArea, width: int, height: int, image: Option<H.ContentReference>, isEmpty: bool)
    requires RunCalls(isEmpty, AreaCalls(methods)).error.None?
    ensures var m := RunCalls(isEmpty, AreaCalls(methods)).pairs;
      var s := SizePairs(isEmpty, Some(width), Some(height));
      RunCalls(isEmpty, BaseBlockCalls(ProcessImageBaseBlock(methods, Some(width), Some(height)))).pairs == s + m
      && RunCalls(isEmpty, ProcessImageCalls(ProcessImageBlock(image, methods, width, height))).pairs == m + s
  {
    BaseBlockRun(ProcessImageBaseBlock(methods, Some(width), Some(height)), isEmpty);
    ProcessImageRun(ProcessImageBlock(image, methods, width, height), isEmpty);
  }
}
