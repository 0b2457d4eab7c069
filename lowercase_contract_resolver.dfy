/**
 * The JSON property names of the crop editor's serializer
 * (src/ImageProcessor.Web.Episerver.UI.Crop/Serialization/LowercaseContractResolver.cs):
 * the first character of a property name is lower-cased, the rest kept.
 */
module LowercaseContractResolver {
  import opened Wrappers
  import opened Text

  /** `propertyName[0]` on the empty name throws. */
  datatype Error = IndexOutOfRange

  /** `ResolvePropertyName` */
  function ResolvePropertyName(propertyName: string): Result<string, Error>
  {
    if propertyName == [] then Err(IndexOutOfRange) else Ok([LowerChar(propertyName[0])] + propertyName[1..])
  }

  /**
   * Only the empty name throws.  Otherwise the name keeps its length, its
   * first character is lower-cased and every later one is kept.
   */
  lemma ResolvedShape(propertyName: string)
    ensures ResolvePropertyName(propertyName).Err? <==> propertyName == []
    ensures ResolvePropertyName(propertyName).Ok? ==>
      var r := ResolvePropertyName(propertyName).value;
      |r| == |propertyName| && r[0] == LowerChar(propertyName[0])
      && forall i :: 1 <= i < |r| ==> r[i] == propertyName[i]
  {
  }

  /** Resolving a resolved name changes nothing. */
  lemma ResolveIdempotent(propertyName: string)
    requires ResolvePropertyName(propertyName).Ok?
    ensures ResolvePropertyName(ResolvePropertyName(propertyName).value) == ResolvePropertyName(propertyName)
  {
    var r := ResolvePropertyName(propertyName).value;
    assert r[1..] == propertyName[1..];
  }

  /** `CropDetails` is written as `cropDetails`, `X` as `x`, and a lower-case name is kept. */
  lemma ResolveExamples()
    ensures ResolvePropertyName("CropDetails") == Ok("cropDetails")
    ensures ResolvePropertyName("X") == Ok("x")
    ensures ResolvePropertyName("id") == Ok("id")
  {
    assert LowerChar('C') == 'c' && LowerChar('X') == 'x' && LowerChar('i') == 'i';
    assert "CropDetails"[1..] == "ropDetails" && ['c'] + "ropDetails" == "cropDetails";
    assert "X"[1..] == "" && ['x'] + "" == "x";
    assert "id"[1..] == "d" && ['i'] + "d" == "id";
  }
}
