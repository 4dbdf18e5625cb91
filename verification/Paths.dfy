/** `clients/web/src/proxy.ts`, the pure part: country prefixes and the classification of paths.
    A pathname begins with a slash and holds no line end, as every parsed URL does. */
module Paths {
  import opened Sql
  import opened Text

  predicate IsLetter(c: char) {
    'a' <= c <= 'z' || 'A' <= c <= 'Z'
  }

  predicate IsDigit(c: char) {
    '0' <= c <= '9'
  }

  /** The characters that `.` does not match. */
  predicate IsLineEnd(c: char) {
    c == '\n' || c == '\r' || c == '\U{2028}' || c == '\U{2029}'
  }

  predicate OneLine(s: string) {
    forall c :: c in s ==> !IsLineEnd(c)
  }

  predicate ValidPath(p: string) {
    p != "" && p[0] == '/' && OneLine(p)
  }

  // ---------------------------------------------------------------- country prefixes

  predicate IsCountry(c: string) {
    |c| == 2 && 'a' <= c[0] <= 'z' && 'a' <= c[1] <= 'z'
  }

  datatype Locale = Locale(country: string, rest: string)

  /** `extractLocaleSegment`. Every two letters are a supported country. */
  function ExtractLocale(p: string): (segment: Option<Locale>) {
    if |p| >= 3 && p[0] == '/' && IsLetter(p[1]) && IsLetter(p[2]) && (|p| == 3 || (p[3] == '/' && OneLine(p[4..])))
    then Some(Locale(Lower(p[1..3]), if |p| == 3 then "/" else p[3..]))
    else None
  }

  /** The path that the geographic redirect goes to. */
  function Prefixed(country: string, p: string): string {
    "/" + country + if p == "/" then "" else p
  }

  /** The prefix that is printed is the prefix that is parsed. */
  lemma ExtractPrefixed(country: string, p: string)
    requires IsCountry(country) && ValidPath(p)
    ensures ExtractLocale(Prefixed(country, p)) == Some(Locale(country, p))
    ensures ValidPath(Prefixed(country, p))
  {
    hide Lower;
    var q := Prefixed(country, p);
    LowerCountry(country);
    assert q[1..3] == country;
    if p != "/" {
      assert q[3..] == p && q[4..] == p[1..];
    }
  }

  /** Of all texts that are one segment, exactly those of two letters are parsed again as a prefix. The
      country of a cookie may be another one: it is accepted with blanks around it, which are kept. */
  lemma PrefixIsParsedIff(country: string, p: string)
    requires country != "" && '/' !in country && OneLine(country) && ValidPath(p)
    ensures ExtractLocale(Prefixed(country, p)).Some?
       <==> |country| == 2 && IsLetter(country[0]) && IsLetter(country[1])
    ensures ValidPath(Prefixed(country, p))
  {
    hide Lower;
    var q := Prefixed(country, p);
    if p == "/" {
      assert q == "/" + country && q[1..] == country;
    } else {
      assert q == "/" + country + p && q[1..] == country + p;
    }
    if |country| == 2 && p != "/" {
      assert q[4..] == p[1..];
    }
    if |country| == 1 && p != "/" {
      assert q[2] == '/';
    }
    if |country| > 2 {
      assert q[3] == country[2];
    }
  }

  lemma LowerCountry(country: string)
    requires IsCountry(country)
    ensures Lower(country) == country
  {
  }

  /** What is parsed prints again as the same path, in lower case up to the prefix and without a slash
      that only ends the prefix. */
  lemma PrefixedExtract(p: string)
    requires ExtractLocale(p).Some?
    ensures var l := ExtractLocale(p).value;
      IsCountry(l.country) && Prefixed(l.country, l.rest) == "/" + Lower(p[1..3]) + if p[3..] == "/" then "" else p[3..]
    ensures ValidPath(p) ==> ValidPath(ExtractLocale(p).value.rest)
  {
    assert p[1..3][0] == p[1] && p[1..3][1] == p[2];
    if |p| > 3 {
      assert p[3..][0] == p[3];
    }
  }

  // ---------------------------------------------------------------- classification

  /** `^name(\/|$)`. */
  predicate Under(p: string, name: string) {
    p == name || name + "/" <= p
  }

  /** `^\/[^/]+\/portal(\/|$)`. */
  predicate IsPortal(p: string) {
    && p != "" && p[0] == '/'
    && var i := IndexOf(p[1..], '/'); i > 0 && Under(p[1 + i..], "/portal")
  }

  /** `\.[a-z0-9]{2,5}$`, ignoring case. */
  predicate HasExtension(p: string) {
    exists k :: 2 <= k <= 5 && ExtensionOf(p, k)
  }

  predicate ExtensionOf(p: string, k: nat) {
    && k < |p| && p[|p| - k - 1] == '.'
    && forall i :: |p| - k <= i < |p| ==> IsLetter(p[i]) || IsDigit(p[i])
  }

  lemma PortalIs(org: string, rest: string)
    requires '/' !in org && (rest == "" || rest[0] == '/')
    ensures IsPortal("/" + org + rest) <==> org != "" && Under(rest, "/portal")
  {
    hide Under;
    var p := "/" + org + rest;
    IndexOfIs(org, '/', if rest == "" then "" else rest[1..]);
    assert p[1..] == org + rest && p[1 + |org|..] == rest;
    if rest == "" {
      assert org + rest == org;
    } else {
      assert org + rest == org + "/" + rest[1..];
    }
  }

  /** A path lies under a name of one segment only if that is its first segment. */
  lemma UnderIsFirstSegment(segment: string, more: string, name: string)
    requires '/' !in segment && '/' !in name && (more == "" || more[0] == '/')
    ensures Under("/" + segment + more, "/" + name) ==> segment == name
  {
    var p := "/" + segment + more;
    var rest := if more == "" then "" else more[1..];
    IndexOfIs(segment, '/', rest);
    assert p[1..] == if more == "" then segment else segment + "/" + rest;
    if Under(p, "/" + name) {
      var after := if p == "/" + name then "" else p[|name| + 2..];
      IndexOfIs(name, '/', after);
      assert p[1..] == if p == "/" + name then name else name + "/" + after;
      assert p[1..][..|segment|] == segment && p[1..][..|name|] == name;
    }
  }

  function InternalRoots(): seq<string> {
    ["/dashboard", "/finance", "/settings", "/onboarding", "/oauth2", "/api", "/_next", "/_buy", "/_my",
     "/checkout", "/ingest", "/monitoring", "/docs", "/_mintlify", "/mintlify-assets"]
  }

  /** Some pattern of `INTERNAL_PATH_PATTERNS` matches. */
  predicate MatchesInternal(p: string) {
    || (exists i :: 0 <= i < |InternalRoots()| && Under(p, InternalRoots()[i]))
    || IsPortal(p)
    || "/favicon." <= p
    || p == "/robots.txt" || p == "/sitemap.xml" || p == "/manifest.webmanifest"
    || HasExtension(p)
  }

  /** The path without a country prefix. */
  function Effective(p: string): string {
    match ExtractLocale(p)
    case Some(l) => l.rest
    case None => p
  }

  predicate IsInternalPath(p: string) {
    MatchesInternal(Effective(p))
  }

  predicate IsForwarded(p: string) {
    "/docs/" <= p || "/mintlify-assets/" <= p || "/_mintlify/" <= p || "/ingest/" <= p
  }

  /** The patterns `^/dashboard(/.*)?` and the like match every path that begins so. */
  predicate RequiresAuthentication(p: string) {
    !IsForwarded(p) && ("/dashboard" <= p || "/finance" <= p || "/settings" <= p || "/oauth2" <= p)
  }

  /** A page of the part that only users may see. */
  predicate IsProtected(p: string) {
    Under(p, "/dashboard") || Under(p, "/finance") || Under(p, "/settings") || Under(p, "/oauth2")
  }

  /** A path of the public part, which lives under a country. */
  predicate IsPublic(p: string) {
    !IsInternalPath(p) && !IsForwarded(p)
  }

  /** A path whose fourth character continues its first segment has no country prefix. */
  lemma LongNameIsNoCountry(p: string, name: string)
    requires name <= p && |name| >= 4 && name[3] != '/'
    ensures ExtractLocale(p) == None
  {
    assert p[3] == name[3];
  }

  lemma RootIsInternal(p: string, i: nat)
    requires i < |InternalRoots()| && Under(p, InternalRoots()[i])
    ensures MatchesInternal(p)
  {
    hide InternalRoots, IsPortal, HasExtension, Under;
  }

  /** The second test of the guard `!isInternalPath(p) && !isForwardedRoute(request)` never decides. */
  lemma ForwardedIsInternal(p: string)
    requires IsForwarded(p)
    ensures IsInternalPath(p) && ExtractLocale(p) == None
  {
    hide MatchesInternal, IsPortal, HasExtension, Lower;
    var i := if "/docs/" <= p then 12 else if "/mintlify-assets/" <= p then 14 else if "/_mintlify/" <= p then 13
      else 10;
    var root := InternalRoots()[i];
    UnderStarts(p, root);
    LongNameIsNoCountry(p, root);
    RootIsInternal(p, i);
  }

  lemma UnderStarts(p: string, name: string)
    requires name + "/" <= p
    ensures Under(p, name) && name <= p
  {
    assert name == (name + "/")[..|name|] == p[..|name|];
  }

  lemma LongRoot(p: string, i: nat)
    requires i < |InternalRoots()| && |InternalRoots()[i]| >= 4 && InternalRoots()[i][3] != '/'
    requires Under(p, InternalRoots()[i])
    ensures MatchesInternal(p) && IsInternalPath(p) && ExtractLocale(p) == None
    ensures InternalRoots()[i] <= p && p[1] == InternalRoots()[i][1]
  {
    hide MatchesInternal, InternalRoots, ExtractLocale;
    var root := InternalRoots()[i];
    if root + "/" <= p {
      UnderStarts(p, root);
    }
    assert root[1] == p[1];
    LongNameIsNoCountry(p, root);
    RootIsInternal(p, i);
  }

  lemma ProtectedIsInternal(p: string)
    requires IsProtected(p)
    ensures IsInternalPath(p) && MatchesInternal(p) && ExtractLocale(p) == None && RequiresAuthentication(p)
  {
    hide MatchesInternal, IsInternalPath, ExtractLocale, Under;
    if Under(p, "/dashboard") {
      assert InternalRoots()[0] == "/dashboard";
      LongRoot(p, 0);
      assert !("/docs/" <= p) by {
        assert p[3] == "/dashboard"[3];
      }
    } else if Under(p, "/finance") {
      assert InternalRoots()[1] == "/finance";
      LongRoot(p, 1);
    } else if Under(p, "/settings") {
      assert InternalRoots()[2] == "/settings";
      LongRoot(p, 2);
    } else {
      assert InternalRoots()[4] == "/oauth2";
      LongRoot(p, 4);
    }
  }

  /** A prefixed path is never forwarded, and it is internal exactly when the path itself, with whatever
      prefix it already has, matches a pattern. So a prefix keeps the class of every path that has none,
      forwarded ones apart. */
  lemma PrefixKeepsClass(country: string, p: string)
    requires IsCountry(country) && ValidPath(p)
    ensures !IsForwarded(Prefixed(country, p))
    ensures IsInternalPath(Prefixed(country, p)) <==> MatchesInternal(p)
    ensures ExtractLocale(p) == None ==> (IsInternalPath(Prefixed(country, p)) <==> IsInternalPath(p))
    ensures ExtractLocale(p) == None ==> (IsPublic(Prefixed(country, p)) <==> IsPublic(p))
  {
    hide MatchesInternal, Prefixed, ValidPath, ExtractLocale, IsForwarded;
    ExtractPrefixed(country, p);
    if IsForwarded(Prefixed(country, p)) {
      ForwardedIsInternal(Prefixed(country, p));
    }
    if IsForwarded(p) {
      ForwardedIsInternal(p);
    }
  }

  /** A path without dots whose first segment has another initial and is not followed by `portal`
      matches no pattern. */
  lemma MatchesNothing(p: string)
    requires |p| > 1 && p[1] !in "acdfimnors_" && '.' !in p && !IsPortal(p)
    ensures !MatchesInternal(p)
  {
    hide IsPortal, InternalRoots, Under;
    forall i | 0 <= i < |InternalRoots()| ensures !Under(p, InternalRoots()[i]) {
      OtherInitial(p, i);
    }
    UnderNothing(p);
  }

  lemma UnderNothing(p: string)
    requires (forall i :: 0 <= i < |InternalRoots()| ==> !Under(p, InternalRoots()[i])) && '.' !in p && !IsPortal(p)
    ensures !MatchesInternal(p)
  {
    hide IsPortal, InternalRoots, Under;
    forall k: nat | 2 <= k <= 5 ensures !ExtensionOf(p, k) {
    }
    assert "/favicon."[8] == '.' && "/robots.txt"[7] == '.' && "/sitemap.xml"[8] == '.';
    assert "/manifest.webmanifest"[9] == '.';
  }

  lemma RootIsOneSegment(i: nat)
    requires i < |InternalRoots()|
    ensures var root := InternalRoots()[i]; root != "" && root == "/" + root[1..] && '/' !in root[1..]
  {
    hide InternalRoots;
    RootLetters(i);
  }

  lemma RootLetters(i: nat)
    requires i < |InternalRoots()|
    ensures var root := InternalRoots()[i];
      |root| > 1 && root[0] == '/' && forall j :: 1 <= j < |root| ==> root[j] != '/' && root[j] != '%'
  {
  }

  lemma OtherInitial(p: string, i: nat)
    requires |p| > 1 && p[1] !in "acdfimnors_" && i < |InternalRoots()|
    ensures !Under(p, InternalRoots()[i])
  {
    assert InternalRoots()[i][1] in "acdfimnors_";
  }

  lemma OtherName(p: string, name: string)
    requires |p| > 1 && |name| > 1 && p[1] != name[1]
    ensures !Under(p, name)
  {
    assert (name + "/")[1] == name[1];
  }

  /** A path that only begins like an internal one. */
  lemma CheckoutNowIsPublic()
    ensures var p := "/checkout-now"; IsPublic(p) && ValidPath(p) && ExtractLocale(p) == None && "/checkout" <= p
  {
    hide MatchesInternal, IsPortal, InternalRoots;
    var p := "/checkout-now";
    LongNameIsNoCountry(p, p);
    PortalIs("checkout-now", "");
    assert p == "/" + "checkout-now" + "";
    CheckoutNowMatchesNothing();
  }

  lemma CheckoutNowMatchesNothing()
    requires !IsPortal("/checkout-now")
    ensures !MatchesInternal("/checkout-now")
  {
    hide IsPortal, InternalRoots, MatchesInternal;
    var p := "/checkout-now";
    forall i | 0 <= i < |InternalRoots()| ensures !Under(p, InternalRoots()[i]) {
      OnlyCheckoutHasItsInitial(i);
      if InternalRoots()[i] == "/checkout" {
        assert ("/checkout" + "/")[9] != p[9];
      } else {
        OtherName(p, InternalRoots()[i]);
      }
    }
    UnderNothing(p);
  }

  lemma OnlyCheckoutHasItsInitial(i: nat)
    requires i < |InternalRoots()|
    ensures InternalRoots()[i] == "/checkout" || (|InternalRoots()[i]| > 1 && InternalRoots()[i][1] != 'c')
  {
  }

  function Twice(): string { "/us/dashboard" }

  /** A second prefix hides an internal path. */
  lemma SecondPrefixHidesInternal()
    ensures IsInternalPath(Twice()) && !IsInternalPath(Prefixed("ke", Twice()))
  {
    hide MatchesInternal, InternalRoots, ExtractLocale, ValidPath, Twice, IsForwarded, Prefixed, Under, IsPortal;
    DashboardIsValid();
    TwiceMatchesNothing();
    ExtractPrefixed("us", "/dashboard");
    PrefixKeepsClass("ke", Twice());
  }

  lemma TwiceMatchesNothing()
    ensures Twice() == Prefixed("us", "/dashboard") && !MatchesInternal(Twice())
  {
    hide MatchesInternal, InternalRoots, IsPortal;
    var p := "/us/dashboard";
    PortalIs("us", "/dashboard");
    OtherName("/dashboard", "/portal");
    assert p == "/" + "us" + "/dashboard";
    MatchesNothing(p);
  }

  lemma DashboardIsValid()
    ensures ValidPath("/dashboard") && MatchesInternal("/dashboard")
  {
    hide MatchesInternal, IsPortal, HasExtension;
    RootIsInternal("/dashboard", 0);
  }

  lemma LoginIsPublic()
    ensures IsPublic("/login") && ValidPath("/login") && ExtractLocale("/login") == None
    ensures !RequiresAuthentication("/login")
  {
    hide MatchesInternal, InternalRoots, IsPortal;
    var p := "/login";
    LongNameIsNoCountry(p, p);
    PortalIs("login", "");
    assert p == "/" + "login" + "";
    MatchesNothing(p);
  }

  lemma RootIsPublic()
    ensures IsPublic("/") && ExtractLocale("/") == None
  {
    var p := "/";
    assert p[1..] == "";
    forall i | 0 <= i < |InternalRoots()| ensures !Under(p, InternalRoots()[i]) {
    }
  }
}
