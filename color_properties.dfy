/**
 * The colour properties of the method blocks (`WatermarkBlock.Color`,
 * `ReplaceColorBlock.ColorFrom`/`ColorTo`, `VignetteBlock.Color` in
 * src/ImageProcessor.Web.Episerver.UI.Blocks/Models/Blocks): the getter reads
 * a stored null as "" and strips every leading `#`; the setter stores the
 * value with every leading `#` stripped and dereferences it, so a null value
 * throws `NullReferenceException`.
 */
module ColorProperties {
  import opened Wrappers
  import opened Text

  /** The exception the setter throws on a null value. */
  datatype Error = NullReference

  /** `TrimStart('#')` trims the one character `#`. */
  const Hash: set<char> := {'#'}

  /** The getter, from the stored property value. */
  function ReadColor(stored: Option<string>): (r: string)
    ensures stored.None? ==> r == ""
    ensures |r| > 0 ==> r[0] != '#'
    ensures stored.Some? ==> |r| <= |stored.value| && r == stored.value[|stored.value| - |r|..]
    ensures stored.Some? ==> forall i :: 0 <= i < |stored.value| - |r| ==> stored.value[i] == '#'
  {
    if stored.None? then ""
    else
      TrimStartShape(stored.value, Hash);
      TrimStart(stored.value, Hash)
  }

  /** The value the setter stores, or its exception. */
  function StoreColor(value: Option<string>): (r: Result<string, Error>)
    ensures r.Err? <==> value.None?
    ensures r.Ok? ==> |r.value| == 0 || r.value[0] != '#'
  {
    if value.None? then Err(NullReference)
    else
      TrimStartShape(value.value, Hash);
      Ok(TrimStart(value.value, Hash))
  }

  /**
   * Set then get: the getter returns the value given to the setter with its
   * leading `#` stripped, and reading what was stored strips nothing more.
   */
  lemma SetThenGet(value: string)
    ensures StoreColor(Some(value)).Ok?
    ensures ReadColor(Some(StoreColor(Some(value)).value)) == StoreColor(Some(value)).value
    ensures ReadColor(Some(StoreColor(Some(value)).value)) == ReadColor(Some(value))
  {
    TrimStartIdempotent(value, Hash);
  }

  /** The getter returns a stored value unchanged exactly when it does not start with `#`. */
  lemma ReadKeepsExactlyUnhashed(s: string)
    ensures ReadColor(Some(s)) == s <==> |s| == 0 || s[0] != '#'
  {
  }

  /** Any number of leading `#` make no difference to the getter or the setter. */
  lemma {:induction false} LeadingHashesIgnored(s: string, n: nat)
    ensures ReadColor(Some(seq(n, _ => '#') + s)) == ReadColor(Some(s))
    ensures StoreColor(Some(seq(n, _ => '#') + s)) == StoreColor(Some(s))
  {
    if n > 0 {
      var t := seq(n, _ => '#') + s;
      assert t[0] == '#';
      assert t[1..] == seq(n - 1, _ => '#') + s;
      LeadingHashesIgnored(s, n - 1);
    } else {
      assert seq(n, _ => '#') + s == s;
    }
  }

  /** `"#ffffff"` is stored as `"ffffff"`, `"#000000"` as `"000000"`, and a hash-free value as given. */
  lemma StoreExamples()
    ensures StoreColor(Some("#ffffff")) == Ok("ffffff")
    ensures StoreColor(Some("##000000")) == Ok("000000")
    ensures StoreColor(Some("000000")) == Ok("000000")
  {
    StoreWhite();
    StoreBlack();
    assert "##000000"[0] == '#' && "##000000"[1..] == "#000000";
    assert TrimStart("##000000", Hash) == TrimStart("#000000", Hash);
  }

  /** The default colour of the blocks is stored without its hash. */
  lemma StoreWhite()
    ensures StoreColor(Some("#ffffff")) == Ok("ffffff")
  {
    assert "ffffff"[0] !in Hash;
    assert TrimStart("ffffff", Hash) == "ffffff";
    assert "#ffffff"[0] == '#' && "#ffffff"[1..] == "ffffff";
    assert TrimStart("#ffffff", Hash) == "ffffff";
  }

  lemma StoreBlack()
    ensures StoreColor(Some("#000000")) == Ok("000000") && StoreColor(Some("000000")) == Ok("000000")
  {
    assert "000000"[0] !in Hash;
    assert TrimStart("000000", Hash) == "000000";
    assert "#000000"[0] == '#' && "#000000"[1..] == "000000";
    assert TrimStart("#000000", Hash) == "000000";
  }
}
