/** Turning a stored image path into a URL the app can load (frontend/src/utils/assetUrl.ts). */
module AssetUrl {
  import opened Wrappers
  import opened Strings

  /** `/^https?:/i`: the path starts with `http:` or `https:` in any letter case. */
  predicate IsHttpUrl(path: string) {
    StartsWith(ToLower(path), "http:") || StartsWith(ToLower(path), "https:")
  }

  /**
   * `resolveAssetUrl`: nothing for a missing or empty path, an http(s) URL
   * as it is, and any other path below the API's base URL.
   */
  function ResolveAssetUrl(path: Option<string>, apiBase: string): (r: Option<string>)
    ensures r.None? <==> path.None? || path.value == ""
    ensures r.Some? && IsHttpUrl(path.value) ==> r.value == path.value
    ensures r.Some? && !IsHttpUrl(path.value) ==>
      r.value == apiBase + "/" + StripLeadingSlashes(path.value)
  {
    if path.None? || path.value == "" then None
    else if IsHttpUrl(path.value) then Some(path.value)
    else Some(apiBase + "/" + StripLeadingSlashes(path.value))
  }

  /** A lower-cased string starts with a prefix exactly when its lower-cased prefix matches. */
  lemma ToLowerPrefix(s: string, t: string)
    requires |t| <= |s|
    ensures ToLower(s)[..|t|] == ToLower(s[..|t|])
  {
  }

  /** Text appended to an http(s) URL keeps it an http(s) URL. */
  lemma HttpUrlExtends(base: string, tail: string)
    requires IsHttpUrl(base)
    ensures IsHttpUrl(base + tail)
  {
    var s := base + tail;
    if StartsWith(ToLower(base), "http:") {
      assert ToLower(s)[..5] == ToLower(base)[..5];
    } else {
      assert ToLower(s)[..6] == ToLower(base)[..6];
    }
  }

  /** Resolving is idempotent on its own output when the base is an http(s) URL. */
  lemma ResolveIdempotent(path: string, apiBase: string)
    requires IsHttpUrl(apiBase) && path != ""
    ensures var r := ResolveAssetUrl(Some(path), apiBase);
      ResolveAssetUrl(r, apiBase) == r
  {
    if IsHttpUrl(path) {
      assert ResolveAssetUrl(Some(path), apiBase) == Some(path);
    } else {
      var u := apiBase + "/" + StripLeadingSlashes(path);
      assert ResolveAssetUrl(Some(path), apiBase) == Some(u);
      assert u == apiBase + ("/" + StripLeadingSlashes(path));
      HttpUrlExtends(apiBase, "/" + StripLeadingSlashes(path));
      assert u != "" && IsHttpUrl(u);
      assert ResolveAssetUrl(Some(u), apiBase) == Some(u);
    }
  }

  /** A relative path is joined to the base with exactly one slash. */
  lemma RelativeOneSlash(path: string, apiBase: string)
    requires path != "" && !IsHttpUrl(path)
    ensures var r := ResolveAssetUrl(Some(path), apiBase).value;
      && r[..|apiBase| + 1] == apiBase + "/"
      && (|r| == |apiBase| + 1 || r[|apiBase| + 1] != '/')
  {
    var rest := StripLeadingSlashes(path);
    var r := apiBase + "/" + rest;
    assert r == (apiBase + "/") + rest;
    if rest != [] {
      assert r[|apiBase| + 1] == rest[0];
    }
  }

  /** Upper-case schemes count as http(s) URLs too. */
  lemma UpperCaseScheme(rest: string)
    ensures IsHttpUrl("HTTPS:" + rest)
  {
    var p := "HTTPS:" + rest;
    ToLowerPrefix(p, "https:");
    assert p[..6] == "HTTPS:";
    var l := ToLower("HTTPS:");
    assert l[0] == 'h' && l[1] == 't' && l[2] == 't' && l[3] == 'p' && l[4] == 's' && l[5] == ':';
    assert l == "https:";
  }
}
