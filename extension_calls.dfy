/**
 * The shape every `UrlBuilder` extension method shares: throw
 * `ArgumentNullException` on a null target, run the method's own argument
 * checks, append the pairs that sit inside `if (!target.IsEmpty)`, then the
 * pairs (if any) that sit outside it, and return the same builder.
 */
module ExtensionCalls {
  import opened Wrappers
  import opened Urls

  /** The exceptions the extension methods throw. */
  datatype Error = ArgumentNull | ArgumentOutOfRange

  /**
   * What one extension-method call does once its target is known to be
   * non-null: it throws, or it appends `guarded` (only to a non-empty
   * builder) followed by `unguarded` (to any builder).
   */
  datatype Call = Throws(error: Error) | Appends(guarded: seq<Pair>, unguarded: seq<Pair>)

  /** The exception, or the pairs appended, for a non-null builder with the given `IsEmpty`. */
  function Effect(call: Call, isEmpty: bool): Result<seq<Pair>, Error>
  {
    match call
    case Throws(e) => Err(e)
    case Appends(guarded, unguarded) => Ok(if isEmpty then unguarded else guarded + unguarded)
  }

  /**
   * Runs one call on `target` in place.  A null target throws
   * `ArgumentNullException` and a failed argument check throws before
   * anything is added; otherwise the pairs are appended and the same builder
   * is returned.
   */
  method Apply(target: UrlBuilder?, call: Call) returns (r: Result<UrlBuilder, Error>)
    modifies target
    ensures target == null ==> r == Err(ArgumentNull)
    ensures target != null ==> target.path == old(target.path)
    ensures target != null ==> match Effect(call, target.isEmpty)
      case Err(e) => r == Err(e) && target.query == old(target.query)
      case Ok(pairs) => r.Ok? && r.value == target && target.query == old(target.query) + pairs
  {
    if target == null {
      return Err(ArgumentNull);
    }
    match call
    case Throws(e) =>
      return Err(e);
    case Appends(guarded, unguarded) =>
      if !target.isEmpty {
        target.AddAll(guarded);
      }
      target.AddAll(unguarded);
      assert target.query == old(target.query) + (if target.isEmpty then unguarded else guarded + unguarded);
      return Ok(target);
  }
}
