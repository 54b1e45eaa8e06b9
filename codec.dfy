/**
 * The landing identifier codec: the path `landing-{slug}/{username}/{id}`
 * that generate-url and the human redirect build, and the pattern
 * `/\/landing-([^/]+)\/([^/]+)\/([^/]+)$/` that preview-data matches
 * against a URL (anchored at the end of the string only).
 */
module Codec {
  import opened Wrappers
  import opened Text

  const LandingPrefix := "landing-"

  /**
   * `landing-${slug}/${username}/${id}`: when the three parts have no `/`,
   * the path has exactly two, the one after the slug and the one after the
   * username, so it is three path segments.
   */
  function LandingPath(slug: string, username: string, id: string): (path: string)
    ensures |path| == |LandingPrefix| + |slug| + |username| + |id| + 2
    ensures path[..|LandingPrefix|] == LandingPrefix
    ensures SlashFree(slug) && SlashFree(username) && SlashFree(id) ==>
      forall i :: 0 <= i < |path| ==>
        (path[i] == '/' <==> i == |LandingPrefix| + |slug| || i == |LandingPrefix| + |slug| + 1 + |username|)
  {
    var path := LandingPrefix + slug + "/" + username + "/" + id;
    var first := |LandingPrefix| + |slug|;
    var second := first + 1 + |username|;
    forall i | 0 <= i < |path|
      ensures SlashFree(slug) && SlashFree(username) && SlashFree(id) ==>
        (path[i] == '/' <==> i == first || i == second)
    {
      if i < |LandingPrefix| {
        assert path[i] == LandingPrefix[i];
      } else if i < first {
        assert path[i] == slug[i - |LandingPrefix|];
      } else if first < i < second {
        assert path[i] == username[i - first - 1];
      } else if second < i {
        assert path[i] == id[i - second - 1];
      }
    }
    path
  }

  /**
   * `${baseUrl}/landing-${slug}/${username}/${id}`. For non-empty slash-free
   * parts, preview-data's pattern gives the three back, whatever the base URL.
   */
  function EncodeUrl(baseUrl: string, slug: string, username: string, id: string): (url: string)
    ensures IsToken(slug) && IsToken(username) && IsToken(id) ==>
      Decode(url) == Some((slug, username, id))
  {
    var url := baseUrl + "/" + LandingPath(slug, username, id);
    if IsToken(slug) && IsToken(username) && IsToken(id) then
      assert PatternMatches(url, slug, username, id);
      DecodeComplete(url, slug, username, id);
      url
    else
      url
  }

  /**
   * The language of the pattern, with its three captures: `url` ends in
   * `/landing-` + slug + `/` + username + `/` + id, the three being non-empty
   * and free of `/`; anything may come before.
   */
  ghost predicate PatternMatches(url: string, slug: string, username: string, id: string) {
    IsToken(slug) && IsToken(username) && IsToken(id)
    && exists pre :: url == pre + "/" + LandingPath(slug, username, id)
  }

  /** The position of the last `/` in `s`, if any. */
  function LastSlash(s: string): (r: Option<nat>)
    ensures r.None? ==> SlashFree(s)
    ensures r.Some? ==> r.value < |s| && s[r.value] == '/' && SlashFree(s[r.value + 1..])
  {
    if s == [] then None
    else if s[|s| - 1] == '/' then Some(|s| - 1)
    else LastSlash(s[..|s| - 1])
  }

  /** `s` cut at its last `/` into what comes before and the slash-free rest. */
  function SplitLast(s: string): (r: Option<(string, string)>)
    ensures r.None? ==> SlashFree(s)
    ensures r.Some? ==> s == r.value.0 + "/" + r.value.1 && SlashFree(r.value.1)
  {
    match LastSlash(s)
    case None => None
    case Some(k) =>
      assert s == s[..k] + "/" + s[k + 1..];
      Some((s[..k], s[k + 1..]))
  }

  /**
   * `url.match(urlPattern)`: the last three `/`-separated segments of `url`,
   * of which the first must be `landing-` followed by the slug; all three must
   * be non-empty. Returns the captures (slug, username, id).
   */
  function Decode(url: string): (r: Option<(string, string, string)>)
    ensures r.Some? ==> PatternMatches(url, r.value.0, r.value.1, r.value.2)
  {
    match SplitLast(url)
    case None => None
    case Some((rest, id)) =>
      match SplitLast(rest)
      case None => None
      case Some((front, username)) =>
        match SplitLast(front)
        case None => None
        case Some((pre, segment)) =>
          if |id| > 0 && |username| > 0 && |segment| > |LandingPrefix|
             && segment[..|LandingPrefix|] == LandingPrefix
          then
            SegmentsMatch(pre, segment, username, id);
            Some((segment[|LandingPrefix|..], username, id))
          else None
  }

  /** The last `/` of `a + "/" + t` is the one after `a` when `t` has none. */
  lemma {:induction false} LastSlashAfter(a: string, t: string)
    requires SlashFree(t)
    ensures LastSlash(a + "/" + t) == Some(|a|)
  {
    if t != [] {
      var s := a + "/" + t;
      assert s[|s| - 1] == t[|t| - 1];
      assert s[..|s| - 1] == a + "/" + t[..|t| - 1];
      LastSlashAfter(a, t[..|t| - 1]);
    }
  }

  /** Cutting `a + "/" + t` at its last `/` gives back `a` and `t` when `t` has none. */
  lemma SplitLastAfter(a: string, t: string)
    requires SlashFree(t)
    ensures SplitLast(a + "/" + t) == Some((a, t))
  {
    LastSlashAfter(a, t);
    var s := a + "/" + t;
    assert s[..|a|] == a && s[|a| + 1..] == t;
  }

  /** A matching URL is its prefix followed by the three segments the decoder cuts off. */
  lemma UrlShape(pre: string, slug: string, username: string, id: string)
    ensures pre + "/" + LandingPath(slug, username, id)
         == ((pre + "/" + (LandingPrefix + slug)) + "/" + username) + "/" + id
  {
  }

  /** Every match the pattern admits is the one `Decode` returns. */
  lemma DecodeComplete(url: string, slug: string, username: string, id: string)
    requires PatternMatches(url, slug, username, id)
    ensures Decode(url) == Some((slug, username, id))
  {
    var pre :| url == pre + "/" + LandingPath(slug, username, id);
    var segment := LandingPrefix + slug;
    var front := pre + "/" + segment;
    var rest := front + "/" + username;
    assert url == rest + "/" + id;
    assert SlashFree(segment) by {
      assert SlashFree(LandingPrefix);
      SlashFreeConcat(LandingPrefix, slug);
    }
    SplitLastAfter(rest, id);
    SplitLastAfter(front, username);
    SplitLastAfter(pre, segment);
    assert segment[..|LandingPrefix|] == LandingPrefix && segment[|LandingPrefix|..] == slug;
  }

  /** Three slash-free segments, the first `landing-` and a slug, make a match after any prefix. */
  lemma SegmentsMatch(pre: string, segment: string, username: string, id: string)
    requires SlashFree(segment) && |segment| > |LandingPrefix| && segment[..|LandingPrefix|] == LandingPrefix
    requires IsToken(username) && IsToken(id)
    ensures PatternMatches(((pre + "/" + segment) + "/" + username) + "/" + id,
                           segment[|LandingPrefix|..], username, id)
  {
    var slug := segment[|LandingPrefix|..];
    assert segment == LandingPrefix + slug;
    assert SlashFree(slug) by {
      forall i | 0 <= i < |slug| ensures slug[i] != '/' {
        assert slug[i] == segment[|LandingPrefix| + i];
      }
    }
    UrlShape(pre, slug, username, id);
  }

  /** `Decode` is the pattern, in both directions, and its captures are unique. */
  lemma DecodeIff(url: string, slug: string, username: string, id: string)
    ensures Decode(url) == Some((slug, username, id)) <==> PatternMatches(url, slug, username, id)
  {
    if PatternMatches(url, slug, username, id) {
      DecodeComplete(url, slug, username, id);
    }
  }

  /** A URL with no `/landing-` segment, or fewer than three segments after it, does not decode. */
  lemma DecodeRejects(url: string)
    requires forall s, u, i :: !PatternMatches(url, s, u, i)
    ensures Decode(url).None?
  {
  }
}
