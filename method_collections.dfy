/**
 * Content areas of method blocks and the reusable `MethodCollectionBlock`
 * (src/ImageProcessor.Web.Episerver.UI.Blocks/Models/Blocks/MethodCollectionBlock.cs).
 * An item of a content area is what `item.GetContent()` loads from the
 * content repository: an image-processing method block or any other
 * content.  A method block is either a method collection, whose `GetMethod`
 * runs its own area on the same builder, or a single method, given by the
 * one extension call its `GetMethod` makes.  An exception thrown by a call
 * ends the run, with the pairs added so far kept in the builder.
 */
module MethodCollections {
  import opened Wrappers
  import opened Urls
  import opened ExtensionCalls

  /** A method block: one extension call, or a collection with its own `Methods` area. */
  datatype MethodBlock = SingleMethod(call: Call) | MethodCollection(methods: ContentArea)

  /** A content area; a null `ContentArea` property is `NoArea`. */
  datatype ContentArea = NoArea | Area(items: seq<Item>)

  /** What an item of `FilteredItems` loads as. */
  datatype Item = Method(block: MethodBlock) | OtherContent

  /** The pairs a run of calls appends, and the exception that ended it, if one did. */
  datatype Outcome = Outcome(pairs: seq<Pair>, error: Option<Error>)

  /** The calls in a run, one after another on a builder with the given `IsEmpty`. */
  function RunCalls(isEmpty: bool, calls: seq<Call>): Outcome
  {
    if calls == [] then Outcome([], None)
    else match Effect(calls[0], isEmpty)
      case Err(e) => Outcome([], Some(e))
      case Ok(pairs) => var rest := RunCalls(isEmpty, calls[1..]); Outcome(pairs + rest.pairs, rest.error)
  }

  /** The calls `GetMethod` of a method block makes, depth first. */
  function BlockCalls(block: MethodBlock): seq<Call>
  {
    match block
    case SingleMethod(call) => [call]
    case MethodCollection(methods) => AreaCalls(methods)
  }

  /** The calls a loop over the whole area makes; a null area makes none. */
  function AreaCalls(area: ContentArea): seq<Call>
  {
    if area.NoArea? then [] else ItemsCalls(area, |area.items|)
  }

  /** The calls of the first `n` items of an area; other content is skipped. */
  function ItemsCalls(area: ContentArea, n: nat): seq<Call>
    requires area.Area? && n <= |area.items|
    decreases area, n
  {
    if n == 0 then []
    else ItemsCalls(area, n - 1) + ItemCalls(area.items[n - 1])
  }

  /** The calls of one item: those of a method block, none for other content. */
  function ItemCalls(item: Item): seq<Call>
  {
    if item.Method? then BlockCalls(item.block) else []
  }

  /** The outcome of a run as the result `GetMethod` returns. */
  function Returned(outcome: Outcome, url: UrlBuilder): Result<UrlBuilder, Error>
  {
    if outcome.error.Some? then Err(outcome.error.value) else Ok(url)
  }

  // ---------------------------------------------------------------------------------------------
  // Runs of calls

  lemma {:induction false} RunCallsAppend(isEmpty: bool, a: seq<Call>, b: seq<Call>)
    ensures RunCalls(isEmpty, a + b)
      == if RunCalls(isEmpty, a).error.Some? then RunCalls(isEmpty, a)
         else Outcome(RunCalls(isEmpty, a).pairs + RunCalls(isEmpty, b).pairs, RunCalls(isEmpty, b).error)
  {
    if a == [] {
      assert a + b == b;
    } else {
      assert (a + b)[0] == a[0] && (a + b)[1..] == a[1..] + b;
      RunCallsAppend(isEmpty, a[1..], b);
    }
  }

  lemma RunOne(isEmpty: bool, call: Call)
    ensures RunCalls(isEmpty, [call])
      == match Effect(call, isEmpty)
         case Err(e) => Outcome([], Some(e))
         case Ok(pairs) => Outcome(pairs, None)
  {
    assert [call][1..] == [];
    if Effect(call, isEmpty).Ok? {
      assert Effect(call, isEmpty).value + [] == Effect(call, isEmpty).value;
    }
  }

  lemma {:induction false} ItemsCallsPrefix(area: ContentArea, k: nat, n: nat)
    requires area.Area? && k <= n <= |area.items|
    ensures ItemsCalls(area, k) <= ItemsCalls(area, n)
    decreases n
  {
    if k < n {
      ItemsCallsPrefix(area, k, n - 1);
    }
  }

  /** A run stopped by an exception stops there however many calls follow. */
  lemma {:induction false} StoppedRun(isEmpty: bool, a: seq<Call>, b: seq<Call>)
    requires RunCalls(isEmpty, a).error.Some? && a <= b
    ensures RunCalls(isEmpty, b) == RunCalls(isEmpty, a)
  {
    assert b == a + b[|a|..];
    RunCallsAppend(isEmpty, a, b[|a|..]);
  }

  // ---------------------------------------------------------------------------------------------
  // The builder

  /** `GetMethod` of a method block, on the shared builder. */
  method GetMethod(block: MethodBlock, url: UrlBuilder) returns (r: Result<UrlBuilder, Error>)
    modifies url
    decreases block
    ensures url.path == old(url.path)
    ensures url.query == old(url.query) + RunCalls(url.isEmpty, BlockCalls(block)).pairs
    ensures r == Returned(RunCalls(url.isEmpty, BlockCalls(block)), url)
  {
    match block
    case SingleMethod(call) =>
      RunOne(url.isEmpty, call);
      r := Apply(url, call);
    case MethodCollection(methods) =>
      if methods.NoArea? {
        return Ok(url);
      }
      r := RunArea(methods, url);
  }

  /** The `foreach` over `Methods.FilteredItems`: each method block's `GetMethod` on the same builder. */
  method RunArea(area: ContentArea, url: UrlBuilder) returns (r: Result<UrlBuilder, Error>)
    requires area.Area?
    modifies url
    decreases area
    ensures url.path == old(url.path)
    ensures url.query == old(url.query) + RunCalls(url.isEmpty, AreaCalls(area)).pairs
    ensures r == Returned(RunCalls(url.isEmpty, AreaCalls(area)), url)
  {
    ghost var q0 := url.query;
    assert q0 + [] == q0;
    for k := 0 to |area.items|
      invariant url.path == old(url.path)
      invariant Progress(area, k, q0, url.query, url.isEmpty)
    {
      var step := AreaStep(area, k, url, q0);
      if step.Err? {
        return step;
      }
    }
    r := Ok(url);
  }

  /** The first `k` items of the area have run without an exception, appending their pairs to `q0`. */
  ghost predicate Progress(area: ContentArea, k: nat, q0: seq<Pair>, q: seq<Pair>, isEmpty: bool)
  {
    area.Area? && k <= |area.items|
    && q == q0 + RunCalls(isEmpty, ItemsCalls(area, k)).pairs
    && RunCalls(isEmpty, ItemsCalls(area, k)).error.None?
  }

  /** One turn of the `foreach`; an exception ends the whole area's run. */
  method AreaStep(area: ContentArea, k: nat, url: UrlBuilder, ghost q0: seq<Pair>) returns (step: Result<UrlBuilder, Error>)
    requires area.Area? && k < |area.items| && Progress(area, k, q0, url.query, url.isEmpty)
    modifies url
    decreases area, 0
    ensures url.path == old(url.path)
    ensures step.Ok? ==> step.value == url && Progress(area, k + 1, q0, url.query, url.isEmpty)
    ensures step.Err? ==>
      url.query == q0 + RunCalls(url.isEmpty, AreaCalls(area)).pairs && step == Returned(RunCalls(url.isEmpty, AreaCalls(area)), url)
  {
    ghost var q1 := url.query;
    step := RunItem(area.items[k], url);
    ItemStep(area, k, q0, q1, url.query, url.isEmpty);
  }

  /** The run of item `k` extends the progress, or ends the area's run with its exception. */
  lemma ItemStep(area: ContentArea, k: nat, q0: seq<Pair>, q1: seq<Pair>, q2: seq<Pair>, isEmpty: bool)
    requires area.Area? && k < |area.items| && Progress(area, k, q0, q1, isEmpty)
    requires q2 == q1 + RunCalls(isEmpty, ItemCalls(area.items[k])).pairs
    ensures RunCalls(isEmpty, ItemCalls(area.items[k])).error.None? ==> Progress(area, k + 1, q0, q2, isEmpty)
    ensures RunCalls(isEmpty, ItemCalls(area.items[k])).error.Some? ==>
      q2 == q0 + RunCalls(isEmpty, AreaCalls(area)).pairs
      && RunCalls(isEmpty, AreaCalls(area)).error == RunCalls(isEmpty, ItemCalls(area.items[k])).error
  {
    var done := ItemsCalls(area, k);
    var item := RunCalls(isEmpty, ItemCalls(area.items[k]));
    RunCallsAppend(isEmpty, done, ItemCalls(area.items[k]));
    assert ItemsCalls(area, k + 1) == done + ItemCalls(area.items[k]);
    assert RunCalls(isEmpty, ItemsCalls(area, k + 1)) == Outcome(RunCalls(isEmpty, done).pairs + item.pairs, item.error);
    assert q2 == q0 + (RunCalls(isEmpty, done).pairs + item.pairs);
    if item.error.Some? {
      ItemsCallsPrefix(area, k + 1, |area.items|);
      StoppedRun(isEmpty, ItemsCalls(area, k + 1), ItemsCalls(area, |area.items|));
    }
  }

  /** The body of the `foreach`: `GetMethod` of a method block, nothing for other content. */
  method RunItem(item: Item, url: UrlBuilder) returns (r: Result<UrlBuilder, Error>)
    modifies url
    decreases item
    ensures url.path == old(url.path)
    ensures url.query == old(url.query) + RunCalls(url.isEmpty, ItemCalls(item)).pairs
    ensures r == Returned(RunCalls(url.isEmpty, ItemCalls(item)), url)
  {
    if item.Method? {
      r := GetMethod(item.block, url);
    } else {
      assert old(url.query) + [] == url.query;
      r := Ok(url);
    }
  }

  /** `MethodCollectionBlock.GetMethod`: a null area returns the builder unchanged. */
  method CollectionGetMethod(methods: ContentArea, url: UrlBuilder) returns (r: Result<UrlBuilder, Error>)
    modifies url
    ensures url.path == old(url.path)
    ensures url.query == old(url.query) + RunCalls(url.isEmpty, AreaCalls(methods)).pairs
    ensures r == Returned(RunCalls(url.isEmpty, AreaCalls(methods)), url)
  {
    r := GetMethod(MethodCollection(methods), url);
  }

  // ---------------------------------------------------------------------------------------------
  // Properties

  /** A run ends with an exception exactly when one of its calls throws. */
  lemma {:induction false} RunCallsThrows(isEmpty: bool, calls: seq<Call>)
    ensures RunCalls(isEmpty, calls).error.None? <==> forall i :: 0 <= i < |calls| ==> calls[i].Appends?
  {
    if calls != [] {
      RunCallsThrows(isEmpty, calls[1..]);
      assert forall i :: 1 <= i < |calls| ==> calls[i] == calls[1..][i - 1];
    }
  }

  lemma {:induction false} ItemsCallsSame(s: seq<Item>, t: seq<Item>, n: nat)
    requires n <= |s| && n <= |t| && s[..n] == t[..n]
    ensures ItemsCalls(Area(s), n) == ItemsCalls(Area(t), n)
  {
    if n > 0 {
      assert s[..n - 1] == s[..n][..n - 1] && t[..n - 1] == t[..n][..n - 1];
      assert s[n - 1] == s[..n][n - 1] && t[n - 1] == t[..n][n - 1];
      ItemsCallsSame(s, t, n - 1);
    }
  }

  lemma {:induction false} ItemsCallsSplit(x: seq<Item>, y: seq<Item>, m: nat)
    requires m <= |y|
    ensures ItemsCalls(Area(x + y), |x| + m) == AreaCalls(Area(x)) + ItemsCalls(Area(y), m)
  {
    if m == 0 {
      assert (x + y)[..|x|] == x[..|x|];
      ItemsCallsSame(x + y, x, |x|);
    } else {
      ItemsCallsSplit(x, y, m - 1);
      assert (x + y)[|x| + m - 1] == y[m - 1];
    }
  }

  /** The calls of two areas one after the other are those of the first, then those of the second. */
  lemma SplitArea(x: seq<Item>, y: seq<Item>)
    ensures AreaCalls(Area(x + y)) == AreaCalls(Area(x)) + AreaCalls(Area(y))
  {
    ItemsCallsSplit(x, y, |y|);
  }

  lemma SingleItemArea(item: Item)
    ensures AreaCalls(Area([item])) == ItemCalls(item)
  {
    assert ItemsCalls(Area([item]), 1) == ItemsCalls(Area([item]), 0) + ItemCalls([item][0]);
    assert ItemsCalls(Area([item]), 0) == [];
  }

  /**
   * A nested collection runs as if its items stood in its place (the
   * depth-first flattening), a collection with a null area and any other
   * content run nothing, and a single method makes its one call.
   */
  lemma Flattening(x: seq<Item>, inner: seq<Item>, y: seq<Item>, call: Call)
    ensures AreaCalls(Area(x + [Method(MethodCollection(Area(inner)))] + y)) == AreaCalls(Area(x + inner + y))
    ensures AreaCalls(Area(x + [OtherContent] + y)) == AreaCalls(Area(x + y))
    ensures AreaCalls(Area(x + [Method(MethodCollection(NoArea))] + y)) == AreaCalls(Area(x + y))
    ensures AreaCalls(Area(x + [Method(SingleMethod(call))] + y)) == AreaCalls(Area(x)) + [call] + AreaCalls(Area(y))
  {
    var nested := Method(MethodCollection(Area(inner)));
    SplitArea(x + [nested], y);
    SplitArea(x, [nested]);
    SingleItemArea(nested);
    SplitArea(x + inner, y);
    SplitArea(x, inner);
    SplitArea(x + [OtherContent], y);
    SplitArea(x, [OtherContent]);
    SingleItemArea(OtherContent);
    SplitArea(x, y);
    var empty := Method(MethodCollection(NoArea));
    SplitArea(x + [empty], y);
    SplitArea(x, [empty]);
    SingleItemArea(empty);
    var single := Method(SingleMethod(call));
    SplitArea(x + [single], y);
    SplitArea(x, [single]);
    SingleItemArea(single);
  }
}
