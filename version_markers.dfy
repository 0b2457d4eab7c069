/**
 * Deletion of Episerver's version markers: every match of the regular
 * expression `,,\d+` is removed from a request URL, scanning left to right
 * with greedy, non-overlapping matches (`Regex.Replace(url, string.Empty)`).
 * Shared by both request-URL modules.
 */
module VersionMarkers {
  import opened Text

  /** The length of the run of digits at the start of `t`. */
  function DigitRun(t: string): (n: nat)
    ensures n <= |t|
    ensures forall i :: 0 <= i < n ==> IsDigit(t[i])
    ensures n == |t| || !IsDigit(t[n])
  {
    if t == [] || !IsDigit(t[0]) then 0 else 1 + DigitRun(t[1..])
  }

  /** A match of `,,\d+` starts at the front of `s`. */
  predicate MarkerAtStart(s: string)
  {
    |s| >= 3 && s[0] == ',' && s[1] == ',' && IsDigit(s[2])
  }

  /** A match of `,,\d+` starts somewhere in `s`. */
  predicate HasMarker(s: string)
  {
    exists i :: 0 <= i < |s| && MarkerAtStart(s[i..])
  }

  /** `Regex.Replace(s, ",,\d+", "")`: each match, with its whole digit run, is deleted. */
  function RemoveVersionMarkers(s: string): (r: string)
    ensures |r| <= |s|
    decreases |s|
  {
    if MarkerAtStart(s) then RemoveVersionMarkers(s[2 + DigitRun(s[2..])..])
    else if s == [] then []
    else [s[0]] + RemoveVersionMarkers(s[1..])
  }

  /** A URL without a marker comes back unchanged. */
  lemma {:induction false} NoMarkerUnchanged(s: string)
    requires !HasMarker(s)
    ensures RemoveVersionMarkers(s) == s
  {
    if s != [] {
      assert s[0..] == s;
      assert !MarkerAtStart(s);
      assert !HasMarker(s[1..]) by {
        forall i | 0 <= i < |s[1..]|
          ensures !MarkerAtStart(s[1..][i..])
        {
          assert s[1..][i..] == s[i + 1..];
        }
      }
      NoMarkerUnchanged(s[1..]);
      assert s == [s[0]] + s[1..];
    }
  }

  /** A marker goes together with all of its digits: `,,` + digits + a non-digit tail leaves only the tail. */
  lemma MarkerDeleted(digits: string, rest: string)
    requires |digits| > 0 && forall i :: 0 <= i < |digits| ==> IsDigit(digits[i])
    requires rest == [] || !IsDigit(rest[0])
    ensures RemoveVersionMarkers(",," + digits + rest) == RemoveVersionMarkers(rest)
  {
    var s := ",," + digits + rest;
    assert s[2..] == digits + rest;
    DigitRunOfDigits(digits, rest);
    assert s[2 + |digits|..] == rest;
  }

  lemma {:induction false} DigitRunOfDigits(digits: string, rest: string)
    requires forall i :: 0 <= i < |digits| ==> IsDigit(digits[i])
    requires rest == [] || !IsDigit(rest[0])
    ensures DigitRun(digits + rest) == |digits|
  {
    if digits == [] {
      assert digits + rest == rest;
    } else {
      assert (digits + rest)[1..] == digits[1..] + rest;
      DigitRunOfDigits(digits[1..], rest);
    }
  }

  /** A `,,` not followed by a digit is kept: the scan moves on past its first comma. */
  lemma DoubleCommaKept(c: char, rest: string)
    requires !IsDigit(c)
    ensures RemoveVersionMarkers(",," + [c] + rest) == "," + RemoveVersionMarkers("," + [c] + rest)
  {
    assert (",," + [c] + rest)[1..] == "," + [c] + rest;
  }

  /** Only commas and digits are ever deleted: every other character keeps its count. */
  lemma {:induction false} OtherCharactersKept(s: string, c: char)
    requires c != ',' && !IsDigit(c)
    ensures Count(RemoveVersionMarkers(s), c) == Count(s, c)
    decreases |s|
  {
    if MarkerAtStart(s) {
      var n := DigitRun(s[2..]);
      assert s == s[..2 + n] + s[2 + n..];
      CountAppend(s[..2 + n], s[2 + n..], c);
      NoOtherInMarker(s[..2 + n], c);
      OtherCharactersKept(s[2 + n..], c);
    } else if s != [] {
      assert ([s[0]] + RemoveVersionMarkers(s[1..]))[1..] == RemoveVersionMarkers(s[1..]);
      OtherCharactersKept(s[1..], c);
    }
  }

  lemma {:induction false} NoOtherInMarker(m: string, c: char)
    requires forall i :: 0 <= i < |m| ==> m[i] == ',' || IsDigit(m[i])
    requires c != ',' && !IsDigit(c)
    ensures Count(m, c) == 0
  {
    if m != [] {
      NoOtherInMarker(m[1..], c);
    }
  }

  /**
   * One pass is not a fixpoint: deleting a marker can join a kept comma with
   * a later `,<digits>` into a new marker, which stays in the result.
   */
  lemma SinglePass()
    ensures RemoveVersionMarkers(",,,12,3") == ",,3"
    ensures HasMarker(",,3")
  {
    var s := ",,,12,3";
    assert !MarkerAtStart(s);
    assert s[1..] == ",,12,3";
    assert MarkerAtStart(s[1..]);
    assert DigitRun(s[1..][2..]) == 2 by {
      assert s[1..][2..] == "12,3";
      assert "12,3"[1..] == "2,3";
      assert "2,3"[1..] == ",3";
    }
    assert s[1..][4..] == ",3";
    assert !MarkerAtStart(",3");
    assert ",3"[1..] == "3";
    assert !MarkerAtStart("3");
    assert "3"[1..] == [];
    assert ",,3"[0..] == ",,3";
  }
}
