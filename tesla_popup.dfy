/**
 * `extractCode` of the Tesla sign-in pop-up: the authorization code pasted
 * back by the user is pulled out of the redirect URL with the regular
 * expression `[?&]code=([^&]+)`, the first match and its first group. The
 * value is returned as written, with no percent-decoding.
 */
module TeslaPopup {
  import opened Wrappers

  /** The literal text the pattern expects after `?` or `&`. */
  const CodeKey := "code="

  /**
   * The pattern can start matching at `p`: a `?` or `&`, then `code=`, then
   * at least one character that is not `&`.
   */
  predicate MatchesAt(url: string, p: int)
    ensures MatchesAt(url, p) ==>
              0 <= p && p + 6 < |url| && (url[p..p + 6] == "?code=" || url[p..p + 6] == "&code=")
  {
    && 0 <= p && p + 7 <= |url|
    && (url[p] == '?' || url[p] == '&')
    && url[p + 1..p + 6] == CodeKey
    && url[p + 6] != '&'
  }

  /** `p` is the first position where the pattern matches. */
  predicate FirstMatch(url: string, p: int)
  {
    MatchesAt(url, p) && forall q :: 0 <= q < p ==> !MatchesAt(url, q)
  }

  /** The end of the run of non-`&` characters that starts at `j`. */
  function RunEnd(url: string, j: nat): (e: nat)
    requires j <= |url|
    ensures j <= e <= |url|
    ensures forall k :: j <= k < e ==> url[k] != '&'
    ensures e < |url| ==> url[e] == '&'
    decreases |url| - j
  {
    if j == |url| || url[j] == '&' then j else RunEnd(url, j + 1)
  }

  /**
   * `v` is what `([^&]+)` captures after the match at `p`: a non-empty run of
   * characters other than `&`, ending at `&` or at the end of the URL.
   */
  predicate CapturedAt(url: string, p: int, v: string)
    ensures CapturedAt(url, p, v) ==> 0 <= p && p + 6 <= |url| && v == url[p + 6..RunEnd(url, p + 6)]
  {
    && MatchesAt(url, p)
    && p + 6 + |v| <= |url|
    && url[p + 6..p + 6 + |v|] == v
    && v != []
    && (forall k :: 0 <= k < |v| ==> v[k] != '&')
    && (p + 6 + |v| == |url| || url[p + 6 + |v|] == '&')
  }

  /** The regular-expression engine's scan: try each start position in turn. */
  function Search(url: string, i: nat): (r: Option<nat>)
    requires i <= |url|
    ensures r.Some? ==> i <= r.value && MatchesAt(url, r.value)
    ensures r.Some? ==> forall q :: i <= q < r.value ==> !MatchesAt(url, q)
    ensures r.None? ==> forall q :: i <= q ==> !MatchesAt(url, q)
    decreases |url| - i
  {
    if i == |url| then None
    else if MatchesAt(url, i) then Some(i)
    else Search(url, i + 1)
  }

  /** `extractCode`: the group of the first match, or null when there is none. */
  function ExtractCode(url: string): (r: Option<string>)
    ensures r.None? <==> forall p :: !MatchesAt(url, p)
    ensures r.Some? ==> exists p :: FirstMatch(url, p) && CapturedAt(url, p, r.value)
  {
    match Search(url, 0)
    case None => None
    case Some(p) =>
      var e := RunEnd(url, p + 6);
      var v := url[p + 6..e];
      assert CapturedAt(url, p, v);
      Some(v)
  }

  /** A returned code is never empty and holds no `&`. */
  lemma CodeIsNonEmptyWithoutAmpersand(url: string)
    requires ExtractCode(url).Some?
    ensures ExtractCode(url).value != []
    ensures forall k :: 0 <= k < |ExtractCode(url).value| ==> ExtractCode(url).value[k] != '&'
  {
  }

  /** Only one value is captured after a given match: the run stops at the first `&`. */
  lemma CaptureIsUnique(url: string, p: int, v: string, w: string)
    requires CapturedAt(url, p, v) && CapturedAt(url, p, w)
    ensures v == w
  {
  }

  /** There is at most one first match. */
  lemma FirstMatchIsUnique(url: string, p: int, q: int)
    requires FirstMatch(url, p) && FirstMatch(url, q)
    ensures p == q
  {
  }

  /**
   * The result is exactly the value captured at the first match: the
   * function and the declarative reading of the pattern agree both ways.
   */
  lemma ExtractCodeIsFirstCapture(url: string, v: string)
    ensures ExtractCode(url) == Some(v) <==> exists p :: FirstMatch(url, p) && CapturedAt(url, p, v)
  {
    if p :| FirstMatch(url, p) && CapturedAt(url, p, v) {
      var r := ExtractCode(url);
      assert r.Some?;
      var p' :| FirstMatch(url, p') && CapturedAt(url, p', r.value);
      FirstMatchIsUnique(url, p, p');
      CaptureIsUnique(url, p, v, r.value);
    }
  }

  // ------------------------------------------------------------ examples

  /** With two `code` parameters the first wins. */
  lemma FirstParameterWins()
    ensures ExtractCode("?code=a&code=b") == Some("a")
  {
    var url := "?code=a&code=b";
    assert url[1..6] == CodeKey;
    assert CapturedAt(url, 0, "a");
    ExtractCodeIsFirstCapture(url, "a");
  }

  /** An empty first `code` does not match; the next one does. */
  lemma EmptyParameterIsSkipped()
    ensures ExtractCode("?code=&code=b") == Some("b")
  {
    var url := "?code=&code=b";
    assert url[7..12] == CodeKey;
    assert !MatchesAt(url, 0);
    assert CapturedAt(url, 6, "b");
    assert forall q :: 0 <= q < 6 ==> !MatchesAt(url, q);
    ExtractCodeIsFirstCapture(url, "b");
  }

  /** A parameter whose name merely ends in `code` is not the code. */
  lemma LongerNameDoesNotMatch()
    ensures ExtractCode("?xcode=1") == None
  {
    var url := "?xcode=1";
    assert forall p :: !MatchesAt(url, p) by {
      assert forall p :: 0 <= p < |url| && p != 0 ==> url[p] != '?' && url[p] != '&';
      assert url[1..6] != CodeKey by {
        assert url[1] != CodeKey[0];
      }
    }
  }

  /** The parameter name is matched case-sensitively. */
  lemma UpperCaseNameDoesNotMatch()
    ensures ExtractCode("?CODE=1") == None
  {
    var url := "?CODE=1";
    assert url[1..6] != CodeKey by {
      assert url[1] != CodeKey[0];
    }
  }
}
