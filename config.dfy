/**
 * The CORS origin list of the backend settings (backend/app/config.py):
 * `ALLOWED_ORIGINS` split on commas, each piece stripped.
 */
module Config {
  import opened Strings

  const DefaultAllowedOrigins: string := "http://localhost:3000,http://localhost:5173"

  /** `[origin.strip() for origin in ALLOWED_ORIGINS.split(",")]`. */
  function CorsOrigins(allowed: string): (origins: seq<string>)
    ensures |origins| == Count(allowed, ',') + 1 == |Split(allowed, ',')|
    ensures forall k :: 0 <= k < |origins| ==> origins[k] == Strip(Split(allowed, ',')[k])
  {
    SplitLength(allowed, ',');
    var pieces := Split(allowed, ',');
    seq(|pieces|, k requires 0 <= k < |pieces| => Strip(pieces[k]))
  }

  /** No origin has surrounding whitespace or a comma. */
  lemma OriginsClean(allowed: string)
    ensures forall k :: 0 <= k < |CorsOrigins(allowed)| ==>
      ',' !in CorsOrigins(allowed)[k] && CorsOrigins(allowed)[k] == Strip(CorsOrigins(allowed)[k])
  {
    SplitPiecesFree(allowed, ',');
    var pieces := Split(allowed, ',');
    forall k | 0 <= k < |pieces|
      ensures ',' !in Strip(pieces[k]) && Strip(Strip(pieces[k])) == Strip(pieces[k])
    {
      StripIdempotent(pieces[k]);
      StripInside(pieces[k], ',');
    }
  }

  /** Stripping only removes characters. */
  lemma StripInside(s: string, c: char)
    requires c !in s
    ensures c !in Strip(s)
  {
    var a := DropWhileStart(s, IsSpace);
    var b := DropWhileEnd(a, IsSpace);
    assert forall i :: 0 <= i < |a| ==> a[i] == s[|s| - |a| + i];
    assert forall i :: 0 <= i < |b| ==> b[i] == a[i];
  }

  /** An empty setting gives one empty origin. */
  lemma EmptySetting()
    ensures CorsOrigins("") == [""]
  {
  }

  /** Two origins without commas or surrounding whitespace, joined by a comma, come back as they were. */
  lemma TwoOrigins(a: string, b: string)
    requires ',' !in a && ',' !in b && a != [] && b != []
    requires !IsSpace(a[0]) && !IsSpace(a[|a| - 1]) && !IsSpace(b[0]) && !IsSpace(b[|b| - 1])
    ensures CorsOrigins(a + "," + b) == [a, b]
  {
    assert a + "," + b == a + [','] + b;
    SplitAround(a, ',', b);
  }

  /** The default setting gives the two local development origins. */
  lemma DefaultOrigins()
    ensures CorsOrigins(DefaultAllowedOrigins) == ["http://localhost:3000", "http://localhost:5173"]
  {
    var a, b := "http://localhost:3000", "http://localhost:5173";
    assert ',' !in a && ',' !in b by {
      assert forall i :: 0 <= i < |a| ==> a[i] != ',';
      assert forall i :: 0 <= i < |b| ==> b[i] != ',';
    }
    assert DefaultAllowedOrigins == a + "," + b;
    TwoOrigins(a, b);
  }
}
