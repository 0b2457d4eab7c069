/**
 * The request-URL rewrite of the HTTP module that serves both local and
 * Azure blob storage (src/ImageProcessor.Web.Episerver/EpiserverImageProcessingModule.cs).
 * The marker deletion comes from `VersionMarkers`; the second regular
 * expression, `\?`, is replaced match by match through a
 * `SecondOccuranceFinder`, which counts the matches it has seen and turns
 * every second one into `&`.
 */
module EpiserverImageProcessingModule {
  import opened Wrappers
  import opened Text
  import opened VersionMarkers
  import Sequences

  /** The text the evaluator returns for one `?` match, given how many matches came before it. */
  function Evaluate(replaceWith: string, before: nat): string
  {
    if (before + 1) % 2 == 0 then replaceWith else "?"
  }

  /**
   * `Regex.Replace(s, @"\?", evaluator)` for an evaluator that has already
   * seen `seen` matches.
   */
  function Alternate(s: string, replaceWith: string, seen: nat): string
  {
    if s == [] then []
    else if s[0] == '?' then Evaluate(replaceWith, seen) + Alternate(s[1..], replaceWith, seen + 1)
    else [s[0]] + Alternate(s[1..], replaceWith, seen)
  }

  /** What the character `c` becomes after `seen` earlier matches. */
  function Piece(c: char, replaceWith: string, seen: nat): string
  {
    if c == '?' then Evaluate(replaceWith, seen) else [c]
  }

  lemma AlternateStep(s: string, i: nat, replaceWith: string, seen: nat)
    requires i < |s|
    ensures Alternate(s[i..], replaceWith, seen)
      == Piece(s[i], replaceWith, seen) + Alternate(s[i + 1..], replaceWith, if s[i] == '?' then seen + 1 else seen)
  {
    assert s[i..][1..] == s[i + 1..];
  }

  /** The match evaluator; `matchIndex` is the number of matches seen so far. */
  class SecondOccuranceFinder {
    const replaceWith: string
    var matchIndex: nat

    constructor (replaceWith: string)
      ensures this.replaceWith == replaceWith && matchIndex == 0
    {
      this.replaceWith := replaceWith;
      matchIndex := 0;
    }

    /** Counts the match; the second, fourth, ... match is replaced, the others are kept. */
    method IsSecondOccurance(m: string) returns (r: string)
      modifies this
      ensures matchIndex == old(matchIndex) + 1
      ensures r == (if matchIndex % 2 == 0 then replaceWith else m)
    {
      matchIndex := matchIndex + 1;
      if matchIndex % 2 == 0 {
        r := replaceWith;
      } else {
        r := m;
      }
    }
  }

  /** Runs `finder` over every `?` of `s`, left to right, as `Regex.Replace` does. */
  method ReplaceQuestionMarks(s: string, finder: SecondOccuranceFinder) returns (r: string)
    modifies finder
    ensures r == Alternate(s, finder.replaceWith, old(finder.matchIndex))
    ensures finder.matchIndex == old(finder.matchIndex) + Count(s, '?')
  {
    r := "";
    var i := 0;
    while i < |s|
      invariant 0 <= i <= |s|
      invariant r + Alternate(s[i..], finder.replaceWith, finder.matchIndex)
             == Alternate(s, finder.replaceWith, old(finder.matchIndex))
      invariant finder.matchIndex == old(finder.matchIndex) + Count(s[..i], '?')
    {
      ghost var before := finder.matchIndex;
      AlternateStep(s, i, finder.replaceWith, before);
      assert s[..i + 1] == s[..i] + [s[i]];
      CountAppend(s[..i], [s[i]], '?');
      var piece: string;
      if s[i] == '?' {
        piece := finder.IsSecondOccurance("?");
      } else {
        piece := [s[i]];
      }
      assert piece == Piece(s[i], finder.replaceWith, before);
      Sequences.Associative(r, piece, Alternate(s[i + 1..], finder.replaceWith, finder.matchIndex));
      r := r + piece;
      i := i + 1;
    }
    assert s[..i] == s;
  }

  /**
   * The first image service with no settings means local blob storage and the
   * server-relative `PathAndQuery`; otherwise (no service, or one with
   * settings: Azure) the `AbsoluteUri`.
   */
  function BaseUrl(firstServiceSettings: Option<nat>, pathAndQuery: string, absoluteUri: string): string
  {
    if firstServiceSettings == Some(0) then pathAndQuery else absoluteUri
  }

  /** What `GetRequestUrl` returns. */
  function RequestUrl(firstServiceSettings: Option<nat>, pathAndQuery: string, absoluteUri: string): string
  {
    Alternate(RemoveVersionMarkers(BaseUrl(firstServiceSettings, pathAndQuery, absoluteUri)), "&", 0)
  }

  /**
   * `GetRequestUrl`: deletes the markers, then rewrites the question marks
   * with a finder built for this request, so its count starts at 0.
   * `firstServiceSettings` is the settings count of the first configured
   * image service, `None` when there is none.
   */
  method GetRequestUrl(firstServiceSettings: Option<nat>, pathAndQuery: string, absoluteUri: string) returns (r: string)
    ensures r == RequestUrl(firstServiceSettings, pathAndQuery, absoluteUri)
  {
    var requestUrl := "";
    if firstServiceSettings.Some? && firstServiceSettings.value == 0 {
      requestUrl := pathAndQuery;
    } else {
      requestUrl := absoluteUri;
    }
    requestUrl := RemoveVersionMarkers(requestUrl);
    var finder := new SecondOccuranceFinder("&");
    r := ReplaceQuestionMarks(requestUrl, finder);
  }

  // ---------------------------------------------------------------------------------------------
  // Properties

  /**
   * With a one-character replacement the rewrite keeps the length and every
   * character other than `?`; the `?` with `k` earlier question marks becomes
   * `&` exactly when `seen + k` is odd.
   */
  lemma {:induction false} AlternateShape(s: string, seen: nat)
    ensures |Alternate(s, "&", seen)| == |s|
    ensures forall i :: 0 <= i < |s| ==>
      Alternate(s, "&", seen)[i]
      == if s[i] != '?' then s[i] else if (seen + Count(s[..i], '?')) % 2 == 1 then '&' else '?'
  {
    if s != [] {
      var next := if s[0] == '?' then seen + 1 else seen;
      AlternateShape(s[1..], next);
      var head := if s[0] == '?' then Evaluate("&", seen) else [s[0]];
      assert |head| == 1;
      assert Alternate(s, "&", seen) == head + Alternate(s[1..], "&", next);
      forall i | 0 <= i < |s|
        ensures Alternate(s, "&", seen)[i]
          == if s[i] != '?' then s[i] else if (seen + Count(s[..i], '?')) % 2 == 1 then '&' else '?'
      {
        if i > 0 {
          CountAfterHead(s, i);
          assert s[1..][i - 1] == s[i];
          assert Alternate(s, "&", seen)[i] == Alternate(s[1..], "&", next)[i - 1];
          assert next + Count(s[1..][..i - 1], '?') == seen + Count(s[..i], '?');
        } else {
          assert s[..0] == [];
          assert Alternate(s, "&", seen)[0] == head[0];
        }
      }
    }
  }

  /** The question marks before position `i` are those of the head and those before `i - 1` in the tail. */
  lemma CountAfterHead(s: string, i: nat)
    requires 0 < i <= |s|
    ensures Count(s[..i], '?') == (if s[0] == '?' then 1 else 0) + Count(s[1..][..i - 1], '?')
  {
    assert s[..i] == [s[0]] + s[1..][..i - 1];
    CountAppend([s[0]], s[1..][..i - 1], '?');
  }

  /** A URL with at most one `?` (from a fresh finder) is left as it is. */
  lemma {:induction false} AtMostOneQuestionMarkUnchanged(s: string, seen: nat)
    requires seen % 2 == 0
    requires Count(s, '?') <= 1
    ensures Alternate(s, "&", seen) == s
  {
    if s != [] {
      if s[0] == '?' {
        NoQuestionMarkUnchanged(s[1..], seen + 1);
        assert Evaluate("&", seen) == "?";
      } else {
        AtMostOneQuestionMarkUnchanged(s[1..], seen);
      }
      assert s == [s[0]] + s[1..];
    }
  }

  lemma {:induction false} NoQuestionMarkUnchanged(s: string, seen: nat)
    requires Count(s, '?') == 0
    ensures Alternate(s, "&", seen) == s
  {
    if s != [] {
      NoQuestionMarkUnchanged(s[1..], seen);
      assert s == [s[0]] + s[1..];
    }
  }

  /** `?x?y?` becomes `?x&y?`: the first and third `?` stay, the second turns into `&`. */
  lemma EverySecondQuestionMark()
    ensures Alternate("?x?y?", "&", 0) == "?x&y?"
  {
    var s := "?x?y?";
    assert s[1..] == "x?y?";
    assert s[1..][1..] == "?y?";
    assert s[1..][1..][1..] == "y?";
    assert s[1..][1..][1..][1..] == "?";
    assert "?"[1..] == [];
  }

  /** Local blob storage (a first service with no settings) uses the path and query; anything else the absolute URI. */
  lemma BaseUrlChoice(firstServiceSettings: Option<nat>, pathAndQuery: string, absoluteUri: string)
    ensures BaseUrl(firstServiceSettings, pathAndQuery, absoluteUri)
      == (if firstServiceSettings.Some? && firstServiceSettings.value == 0 then pathAndQuery else absoluteUri)
    ensures firstServiceSettings.None? ==> BaseUrl(firstServiceSettings, pathAndQuery, absoluteUri) == absoluteUri
  {
  }
}
