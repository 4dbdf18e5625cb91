/** The answers of `clients/web/src/proxy.ts` written out: hosts, paths, headers and statuses as they stand
    in the addresses. */
module ProxyAnswers {
  import opened Sql
  import opened Text
  import opened Paths
  import opened Proxy

  // ---------------------------------------------------------------- classes of paths

  /** The path is the name, or lies under it. */
  ghost predicate Begins(p: string, name: string) {
    p == name || name + "/" <= p
  }

  /** `/{org}/portal` and what lies under it. */
  ghost predicate IsPortalOf(p: string, org: string, rest: string) {
    org != "" && '/' !in org && Begins(rest, "/portal") && p == "/" + org + rest
  }

  /** `name.ext` with two to five letters or digits. */
  ghost predicate IsFile(p: string, name: string, ext: string) {
    p == name + "." + ext && 2 <= |ext| <= 5 && forall c :: c in ext ==>
      'a' <= c <= 'z' || 'A' <= c <= 'Z' || '0' <= c <= '9'
  }

  ghost predicate IsOwn(p: string) {
    || Begins(p, "/dashboard") || Begins(p, "/finance") || Begins(p, "/settings") || Begins(p, "/onboarding")
    || Begins(p, "/oauth2") || Begins(p, "/api") || Begins(p, "/_next") || Begins(p, "/_buy") || Begins(p, "/_my")
    || Begins(p, "/checkout") || Begins(p, "/ingest") || Begins(p, "/monitoring") || Begins(p, "/docs")
    || Begins(p, "/_mintlify") || Begins(p, "/mintlify-assets")
  }

  /** The patterns match exactly these paths. */
  lemma MatchesInternalIff(p: string)
    ensures MatchesInternal(p) <==>
      || IsOwn(p) || (exists org, rest :: IsPortalOf(p, org, rest)) || (exists name, ext :: IsFile(p, name, ext))
      || "/favicon." <= p || p == "/robots.txt" || p == "/sitemap.xml" || p == "/manifest.webmanifest"
  {
    hide IsPortal, HasExtension, InternalRoots, Under, IsOwn, IsPortalOf, IsFile;
    RootsIff(p);
    PortalIff(p);
    ExtensionIff(p);
  }

  lemma RootsIff(p: string)
    ensures (exists i :: 0 <= i < |InternalRoots()| && Under(p, InternalRoots()[i])) <==> IsOwn(p)
  {
    hide Under, Begins, InternalRoots;
    forall name ensures Under(p, name) <==> Begins(p, name) {
      UnderBegins(p, name);
    }
    RootsAre();
    var roots := InternalRoots();
    if i :| 0 <= i < |roots| && Under(p, roots[i]) {
      assert i == 0 || i == 1 || i == 2 || i == 3 || i == 4 || i == 5 || i == 6 || i == 7 || i == 8 || i == 9 || i == 10
        || i == 11 || i == 12 || i == 13 || i == 14;
    }
  }

  lemma UnderBegins(p: string, name: string)
    ensures Under(p, name) <==> Begins(p, name)
  {
  }

  lemma RootsAre()
    ensures |InternalRoots()| == 15
    ensures InternalRoots()[0] == "/dashboard" && InternalRoots()[1] == "/finance" && InternalRoots()[2] == "/settings"
    ensures InternalRoots()[3] == "/onboarding" && InternalRoots()[4] == "/oauth2" && InternalRoots()[5] == "/api"
    ensures InternalRoots()[6] == "/_next" && InternalRoots()[7] == "/_buy" && InternalRoots()[8] == "/_my"
    ensures InternalRoots()[9] == "/checkout" && InternalRoots()[10] == "/ingest"
    ensures InternalRoots()[11] == "/monitoring" && InternalRoots()[12] == "/docs"
    ensures InternalRoots()[13] == "/_mintlify" && InternalRoots()[14] == "/mintlify-assets"
  {
  }

  lemma PortalIff(p: string)
    ensures IsPortal(p) <==> exists org, rest :: IsPortalOf(p, org, rest)
  {
    hide IsPortal, IsPortalOf;
    if IsPortal(p) {
      var org, rest := PortalHasForm(p);
    }
    if org, rest :| IsPortalOf(p, org, rest) {
      FormIsPortal(p, org, rest);
    }
  }

  lemma PortalHasForm(p: string) returns (org: string, rest: string)
    requires IsPortal(p)
    ensures IsPortalOf(p, org, rest)
  {
    hide Under;
    var i := IndexOf(p[1..], '/');
    NotBefore(p[1..], '/');
    org, rest := p[1..][..i], p[1 + i..];
    UnderBegins(rest, "/portal");
    assert p == "/" + org + rest;
  }

  lemma FormIsPortal(p: string, org: string, rest: string)
    requires IsPortalOf(p, org, rest)
    ensures IsPortal(p)
  {
    hide Under;
    UnderBegins(rest, "/portal");
    BeginsWithSlash(rest);
    PortalIs(org, rest);
  }

  lemma BeginsWithSlash(rest: string)
    requires Begins(rest, "/portal")
    ensures rest != "" && rest[0] == '/'
  {
  }

  lemma ExtensionIff(p: string)
    ensures HasExtension(p) <==> exists name, ext :: IsFile(p, name, ext)
  {
    if k :| 2 <= k <= 5 && ExtensionOf(p, k) {
      var name, ext := p[..|p| - k - 1], p[|p| - k..];
      assert p == name + "." + ext;
      forall c | c in ext ensures 'a' <= c <= 'z' || 'A' <= c <= 'Z' || '0' <= c <= '9' {
        var j :| 0 <= j < |ext| && ext[j] == c;
        assert ext[j] == p[|p| - k + j];
      }
      assert IsFile(p, name, ext);
    }
    if name, ext :| IsFile(p, name, ext) {
      forall i | |p| - |ext| <= i < |p| ensures IsLetter(p[i]) || IsDigit(p[i]) {
        assert p[i] == ext[i - (|p| - |ext|)] && p[i] in ext;
      }
      assert ExtensionOf(p, |ext|);
    }
  }

  /** Two letters of either case between slashes, or at the end, are a country; the rest is the path. */
  lemma ExtractLocaleIff(p: string, country: string, rest: string)
    ensures ExtractLocale(p) == Some(Locale(country, rest)) <==>
      exists ab, more :: IsLocale(p, ab, more) && country == Lower(ab) && rest == if more == "" then "/" else more
  {
    hide Lower, ExtractLocale, IsLocale;
    if ExtractLocale(p).Some? {
      var ab, more := LocaleHasForm(p);
    }
    if ab, more :| IsLocale(p, ab, more) && country == Lower(ab) && rest == if more == "" then "/" else more {
      FormIsLocale(p, ab, more);
    }
  }

  lemma LocaleHasForm(p: string) returns (ab: string, more: string)
    requires ExtractLocale(p).Some?
    ensures IsLocale(p, ab, more)
    ensures ExtractLocale(p).value == Locale(Lower(ab), if more == "" then "/" else more)
  {
    hide Lower;
    ab, more := p[1..3], p[3..];
    assert p == "/" + ab + more;
    assert ab[0] == p[1] && ab[1] == p[2];
    assert |p| > 3 ==> more[0] == p[3] && more[1..] == p[4..];
  }

  lemma FormIsLocale(p: string, ab: string, more: string)
    requires IsLocale(p, ab, more)
    ensures ExtractLocale(p) == Some(Locale(Lower(ab), if more == "" then "/" else more))
  {
    hide Lower;
    assert p[1..3] == ab && p[3..] == more;
    assert p[1] == ab[0] && p[1] in ab && p[2] == ab[1] && p[2] in ab;
    assert more != "" ==> p[3] == more[0] && p[4..] == more[1..];
  }

  ghost predicate IsLocale(p: string, ab: string, more: string) {
    && p == "/" + ab + more && |ab| == 2
    && (forall c :: c in ab ==> 'a' <= c <= 'z' || 'A' <= c <= 'Z')
    && (more == "" || (more[0] == '/' && forall c :: c in more[1..] ==>
         c != '\n' && c != '\r' && c != '\U{2028}' && c != '\U{2029}'))
  }

  lemma ForwardedIff(p: string)
    ensures IsForwarded(p) <==> exists rest :: IsForwardedAs(p, rest)
  {
    if "/docs/" <= p {
      assert IsForwardedAs(p, p[6..]);
    } else if "/mintlify-assets/" <= p {
      assert IsForwardedAs(p, p[17..]);
    } else if "/_mintlify/" <= p {
      assert IsForwardedAs(p, p[11..]);
    } else if "/ingest/" <= p {
      assert IsForwardedAs(p, p[8..]);
    }
  }

  ghost predicate IsForwardedAs(p: string, rest: string) {
    || p == "/docs/" + rest || p == "/mintlify-assets/" + rest || p == "/_mintlify/" + rest || p == "/ingest/" + rest
  }

  /** Whatever begins with one of four names asks for a login, unless it is forwarded. */
  lemma RequiresAuthenticationIff(p: string)
    ensures RequiresAuthentication(p) <==> !IsForwarded(p) && exists rest :: IsGuardedAs(p, rest)
  {
    hide IsForwarded;
    if "/dashboard" <= p {
      assert IsGuardedAs(p, p[10..]);
    } else if "/finance" <= p {
      assert IsGuardedAs(p, p[8..]);
    } else if "/settings" <= p {
      assert IsGuardedAs(p, p[9..]);
    } else if "/oauth2" <= p {
      assert IsGuardedAs(p, p[7..]);
    }
  }

  ghost predicate IsGuardedAs(p: string, rest: string) {
    p == "/dashboard" + rest || p == "/finance" + rest || p == "/settings" + rest || p == "/oauth2" + rest
  }

  lemma SandboxAllowsIff(p: string)
    ensures SandboxAllows(p) <==>
      || Begins(p, "/login") || Begins(p, "/dashboard") || Begins(p, "/start") || Begins(p, "/onboarding")
      || Begins(p, "/finance") || Begins(p, "/settings") || Begins(p, "/oauth2") || Begins(p, "/checkout")
      || Begins(p, "/verify-email") || Begins(p, "/api") || exists org, rest :: IsPortalOf(p, org, rest)
  {
    hide Under, Begins, IsPortal, IsPortalOf, SandboxNames;
    PortalIff(p);
    forall name ensures Under(p, name) <==> Begins(p, name) {
      UnderBegins(p, name);
    }
    SandboxNamesAre();
    var names := SandboxNames();
    if i :| 0 <= i < |names| && Under(p, names[i]) {
      assert i == 0 || i == 1 || i == 2 || i == 3 || i == 4 || i == 5 || i == 6 || i == 7 || i == 8 || i == 9;
    }
  }

  lemma SandboxNamesAre()
    ensures |SandboxNames()| == 10
    ensures SandboxNames()[0] == "/login" && SandboxNames()[1] == "/dashboard" && SandboxNames()[2] == "/start"
    ensures SandboxNames()[3] == "/onboarding" && SandboxNames()[4] == "/finance" && SandboxNames()[5] == "/settings"
    ensures SandboxNames()[6] == "/oauth2" && SandboxNames()[7] == "/checkout" && SandboxNames()[8] == "/verify-email"
    ensures SandboxNames()[9] == "/api"
  {
  }

  // ---------------------------------------------------------------- hosts

  /** The `www` host in any letter case, with or without a port. */
  lemma WwwIff(host: string)
    ensures IsWww(host) <==> Lower(host) == "www.blyss.co.ke" || exists port :: IsPort(host, port)
  {
    hide Lower;
    LowerLength(host);
    if IsWww(host) {
      LowerTail(host, 15);
      var port := host[15..];
      assert Lower(host) == "www.blyss.co.ke" + Lower(port);
      if port != "" {
        PortIsLower(port);
        assert Lower(host) == "www.blyss.co.ke" + ":" + port[1..];
        assert IsPort(host, port[1..]);
      }
    }
    if Lower(host) == "www.blyss.co.ke" {
      assert host[15..] == "";
    }
    if port :| IsPort(host, port) {
      LowerTail(host, 15);
      assert Lower(host)[15..] == ":" + port;
      LowerOfPort(host[15..], port);
    }
  }

  ghost predicate IsPort(host: string, port: string) {
    Lower(host) == "www.blyss.co.ke" + ":" + port && port != "" && forall c :: c in port ==> '0' <= c <= '9'
  }

  lemma LowerLength(s: string)
    ensures |Lower(s)| == |s|
  {
  }

  lemma LowerTail(s: string, k: nat)
    requires k <= |s|
    ensures |Lower(s)| == |s| && Lower(s)[k..] == Lower(s[k..])
  {
  }

  lemma PortIsLower(port: string)
    requires |port| > 1 && port[0] == ':' && forall i :: 1 <= i < |port| ==> IsDigit(port[i])
    ensures Lower(port) == ":" + port[1..]
  {
  }

  lemma LowerOfPort(tail: string, port: string)
    requires Lower(tail) == ":" + port && port != "" && forall c :: c in port ==> '0' <= c <= '9'
    ensures |tail| > 1 && tail[0] == ':' && forall i :: 1 <= i < |tail| ==> IsDigit(tail[i])
  {
    forall i | 1 <= i < |tail| ensures IsDigit(tail[i]) {
      assert Lower(tail)[i] == port[i - 1] && port[i - 1] in port;
    }
    assert Lower(tail)[0] == ':';
  }

  lemma HostIff(host: string)
    ensures IsHost(host, "buy") <==> "buy." <= host || "buy.blyss." <= Lower(host)
    ensures IsHost(host, "my") <==> "my." <= host || "my.blyss." <= Lower(host)
    ensures IsHost(host, "cdn") <==> "cdn." <= host || "cdn.blyss." <= Lower(host)
  {
    assert "buy" + "." == "buy." && "buy" + ".blyss." == "buy.blyss.";
    assert "my" + "." == "my." && "my" + ".blyss." == "my.blyss.";
    assert "cdn" + "." == "cdn." && "cdn" + ".blyss." == "cdn.blyss.";
  }

  /** The first four answers depend on the host only, and on paths that the shop hosts pass through. */
  lemma HostAnswers(c: Client, r: Request)
    ensures IsWww(r.host) ==> Route(c, r) == Redirect(Request("blyss.co.ke", r.pathname, r.query), WwwHost, 308)
    ensures !IsWww(r.host) && IsHost(r.host, "buy") && !("/checkout" <= r.pathname) && !("/_buy" <= r.pathname) ==>
      Route(c, r) == Rewrite(
        Request(r.host, "/checkout" + (if r.pathname == "/" then "" else r.pathname), r.query),
          Headers(None, None, false))
    ensures !IsWww(r.host) && !IsHost(r.host, "buy") && IsHost(r.host, "my") && !("/_my" <= r.pathname) ==>
      Route(c, r) == Rewrite(
        Request(r.host, "/_my" + (if r.pathname == "/" then "" else r.pathname), r.query), Headers(None, None, false))
    ensures !IsWww(r.host) && !IsHost(r.host, "buy") && !IsHost(r.host, "my") && IsHost(r.host, "cdn") ==>
      Route(c, r) == NotFound
  {
    hide IsWww, IsHost, IsPublic, LocaleRoute, InternalRoute;
    assert "/checkout" + "" == "/checkout";
  }

  /** These are all requests that are answered by the host. */
  lemma HostPassesIff(r: Request)
    ensures HostRoute(r) == None <==>
      && !IsWww(r.host) && !IsHost(r.host, "cdn")
      && (IsHost(r.host, "buy") ==> "/checkout" <= r.pathname || "/_buy" <= r.pathname)
      && (IsHost(r.host, "my") ==> "/_my" <= r.pathname)
  {
    hide IsWww, IsHost;
    OneHost(r.host);
  }

  /** The hosts exclude each other. */
  lemma OneHost(host: string)
    ensures IsHost(host, "buy") ==> !IsHost(host, "my") && !IsHost(host, "cdn") && !IsWww(host)
    ensures IsHost(host, "my") ==> !IsHost(host, "cdn") && !IsWww(host)
    ensures IsHost(host, "cdn") ==> !IsWww(host)
  {
    hide IsWww, IsHost;
    HostInitial(host, "buy");
    HostInitial(host, "my");
    HostInitial(host, "cdn");
    WwwInitial(host);
  }

  lemma HostInitial(host: string, name: string)
    requires name != "" && 'a' <= name[0] <= 'z'
    ensures IsHost(host, name) ==> host != "" && Lower(host)[0] == name[0]
  {
    if name + "." <= host {
      assert host[0] == (name + ".")[0];
    } else if name + ".blyss." <= Lower(host) {
      assert Lower(host)[0] == (name + ".blyss.")[0];
    }
  }

  lemma WwwInitial(host: string)
    ensures IsWww(host) ==> host != "" && Lower(host)[0] == 'w'
  {
    hide Lower;
    LowerLength(host);
    if IsWww(host) {
      assert Lower(host)[0] == "www.blyss.co.ke"[0];
    }
  }

  // ---------------------------------------------------------------- public paths

  /** A path is public if none of the patterns matches what follows its country, if it has one, and it is
      not forwarded. */
  lemma IsPublicIff(p: string)
    ensures (exists ab, more :: IsLocale(p, ab, more)) <==> ExtractLocale(p).Some?
    ensures ExtractLocale(p) == None ==> (IsPublic(p) <==> !MatchesInternal(p) && !IsForwarded(p))
    ensures forall ab, more | IsLocale(p, ab, more) ::
      IsPublic(p) <==> !MatchesInternal(if more == "" then "/" else more)
  {
    hide MatchesInternal, IsLocale, IsForwarded, ExtractLocale, Lower;
    if ExtractLocale(p).Some? {
      var ab, more := LocaleHasForm(p);
    }
    forall ab, more | IsLocale(p, ab, more)
      ensures ExtractLocale(p) == Some(Locale(Lower(ab), if more == "" then "/" else more)) && !IsForwarded(p)
    {
      FormIsLocale(p, ab, more);
      LocaleIsNotForwarded(p, ab, more);
    }
  }

  lemma LocaleIsNotForwarded(p: string, ab: string, more: string)
    requires IsLocale(p, ab, more)
    ensures !IsForwarded(p)
  {
    assert p == "/" + ab + more;
    assert more != "" ==> p[3] == '/';
  }

  /** The answers to a public path that the host rules let through: without the prefix, as it is for a
      crawler, or with the client's country put in front. */
  lemma PublicAnswers(c: Client, r: Request)
    requires HostRoute(r) == None && IsPublic(r.pathname)
    ensures ExtractLocale(r.pathname).Some? ==>
      var l := ExtractLocale(r.pathname).value;
      Route(c, r) == Rewrite(
        Request(r.host, l.rest, r.query), Headers(Some(l.country), Some(l.rest), c.session == User))
    ensures ExtractLocale(r.pathname) == None && c.crawler ==>
      Route(c, r) == Next(r, Headers(Some("ke"), Some(r.pathname), false))
    ensures ExtractLocale(r.pathname) == None && !c.crawler ==>
      Route(c, r) == Redirect(
        Request(r.host, "/" + c.country + (if r.pathname == "/" then "" else r.pathname), r.query), Country, 307)
  {
    hide HostRoute, IsPublic, ExtractLocale, InternalRoute;
  }

  // ---------------------------------------------------------------- old dashboard addresses

  /** `/{org}` under the dashboard, and what follows. */
  ghost predicate IsDashboard(p: string, org: string, tail: string) {
    org != "" && '/' !in org && (tail == "" || tail[0] == '/') && p == "/dashboard/" + org + tail
  }

  /** Nothing, or a slash and a text without line ends. */
  ghost predicate IsMore(more: string) {
    more == "" || (more[0] == '/' && OneLine(more[1..]))
  }

  lemma ParseIs(p: string, org: string, tail: string)
    requires IsDashboard(p, org, tail)
    ensures ParseDashboard(p) == Some(DashboardPath(org, tail))
  {
    var rest := org + tail;
    assert p[11..] == rest && "/dashboard/" <= p;
    IndexOfIs(org, '/', if tail == "" then "" else tail[1..]);
    if tail == "" {
      assert rest == org && rest[|org|..] == "";
    } else {
      assert rest == org + "/" + tail[1..];
    }
  }

  lemma MoveAnswer(r: Request, org: string, tail: string)
    requires IsDashboard(r.pathname, org, tail)
    ensures LegacyRoute(r) ==
      match LegacyMove(tail, r.query)
      case None => None
      case Some(m) =>
        Some(Redirect(Request(r.host, "/dashboard/" + org + m.tail, m.query), LegacyAddress, m.status))
  {
    hide LegacyMove, ParseDashboard;
    ParseIs(r.pathname, org, tail);
  }

  /** The four addresses with an id in the query: the id goes to the end of the path and out of the query. */
  lemma IdAnswers(r: Request, org: string, id: string)
    ensures IsDashboard(r.pathname, org, "/customers") && Get(r.query, "customerId") == Some(id) ==>
      LegacyRoute(r) == Some(Redirect(
        Request(r.host, "/dashboard/" + org + ("/customers/" + id), Without(r.query, "customerId")), LegacyAddress,
          307))
    ensures IsDashboard(r.pathname, org, "/benefits") && Get(r.query, "benefitId") == Some(id) ==>
      LegacyRoute(r) == Some(Redirect(
        Request(r.host, "/dashboard/" + org + ("/products/benefits/" + id), Without(r.query, "benefitId")),
        LegacyAddress, 307))
    ensures IsDashboard(r.pathname, org, "/products/checkout-links") && Get(r.query, "checkoutLinkId") == Some(id) ==>
      LegacyRoute(r) == Some(Redirect(
        Request(r.host, "/dashboard/" + org + ("/products/checkout-links/" + id), Without(r.query, "checkoutLinkId")),
        LegacyAddress, 307))
    ensures IsDashboard(r.pathname, org, "/usage-billing/meters") && Get(r.query, "selectedMeter") == Some(id) ==>
      LegacyRoute(r) == Some(Redirect(
        Request(r.host, "/dashboard/" + org + ("/products/meters/" + id), Without(r.query, "selectedMeter")),
        LegacyAddress, 307))
  {
    hide LegacyRoute, IsDashboard, Get, Without, LegacyMove;
    IdMoves(r.query, id);
    if IsDashboard(r.pathname, org, "/customers") {
      MoveAnswer(r, org, "/customers");
    }
    if IsDashboard(r.pathname, org, "/benefits") {
      MoveAnswer(r, org, "/benefits");
    }
    if IsDashboard(r.pathname, org, "/products/checkout-links") {
      MoveAnswer(r, org, "/products/checkout-links");
    }
    if IsDashboard(r.pathname, org, "/usage-billing/meters") {
      MoveAnswer(r, org, "/usage-billing/meters");
    }
  }

  lemma IdMoves(q: Query, id: string)
    ensures Get(q, "customerId") == Some(id) ==>
      LegacyMove("/customers", q) == Some(Move("/customers/" + id, Without(q, "customerId"), 307))
    ensures Get(q, "benefitId") == Some(id) ==>
      LegacyMove("/benefits", q) == Some(Move("/products/benefits/" + id, Without(q, "benefitId"), 307))
    ensures Get(q, "checkoutLinkId") == Some(id) ==>
      LegacyMove("/products/checkout-links", q)
        == Some(Move("/products/checkout-links/" + id, Without(q, "checkoutLinkId"), 307))
    ensures Get(q, "selectedMeter") == Some(id) ==>
      LegacyMove("/usage-billing/meters", q) == Some(Move("/products/meters/" + id, Without(q, "selectedMeter"), 307))
  {
    hide Get, Without, After;
    TailsDiffer();
  }

  lemma TailsDiffer()
    ensures "/customers" != "/benefits" && "/customers" != "/products/checkout-links"
    ensures "/customers" != "/usage-billing/meters" && "/benefits" != "/products/checkout-links"
    ensures "/benefits" != "/usage-billing/meters" && "/products/checkout-links" != "/usage-billing/meters"
  {
    assert "/customers"[1] == 'c' && "/benefits"[1] == 'b' && "/products/checkout-links"[1] == 'p';
    assert "/usage-billing/meters"[1] == 'u';
  }

  /** The three addresses by path: what follows is kept, and so is the query. */
  lemma PathAnswers(r: Request, org: string, more: string)
    requires IsMore(more)
    ensures IsDashboard(r.pathname, org, "/usage-billing/events" + more) ==>
      LegacyRoute(r) == Some(Redirect(
        Request(r.host, "/dashboard/" + org + ("/analytics/events" + more), r.query), LegacyAddress, 308))
    ensures IsDashboard(r.pathname, org, "/benefits" + more) && (more == "" ==> Get(r.query, "benefitId") == None) ==>
      LegacyRoute(r) == Some(Redirect(
        Request(r.host, "/dashboard/" + org + ("/products/benefits" + more), r.query), LegacyAddress, 308))
    ensures IsDashboard(r.pathname, org, "/usage-billing/meters" + more) ==>
      (more == "" ==> Get(r.query, "selectedMeter") == None) ==>
      LegacyRoute(r) == Some(Redirect(
        Request(r.host, "/dashboard/" + org + ("/products/meters" + more), r.query), LegacyAddress, 308))
  {
    hide LegacyRoute, IsDashboard, Get, LegacyMove, IsMore;
    if IsDashboard(r.pathname, org, "/usage-billing/events" + more) {
      EventsMove(r.query, more);
      MoveAnswer(r, org, "/usage-billing/events" + more);
    }
    if IsDashboard(r.pathname, org, "/benefits" + more) && (more == "" ==> Get(r.query, "benefitId") == None) {
      BenefitsMove(r.query, more);
      MoveAnswer(r, org, "/benefits" + more);
    }
    if IsDashboard(r.pathname, org, "/usage-billing/meters" + more)
        && (more == "" ==> Get(r.query, "selectedMeter") == None) {
      MetersMove(r.query, more);
      MoveAnswer(r, org, "/usage-billing/meters" + more);
    }
  }

  lemma AfterIs(name: string, more: string)
    requires IsMore(more)
    ensures After(name + more, name) == Some(more)
  {
    assert (name + more)[|name|..] == more;
    assert more != "" ==> (name + more)[|name| + 1..] == more[1..];
  }

  lemma NotThatTail(tail: string, start: string, name: string, i: nat)
    requires start <= tail && i < |start| && i < |name| && start[i] != name[i]
    ensures tail != name && After(tail, name) == None
  {
    OtherTail(tail, start, name, i);
  }

  lemma EventsMove(q: Query, more: string)
    requires IsMore(more)
    ensures LegacyMove("/usage-billing/events" + more, q) == Some(Move("/analytics/events" + more, q, 308))
  {
    hide After, Get, IsMore;
    var start := "/usage-billing/events";
    var tail := start + more;
    assert start <= tail && start[1] == 'u' && start[15] == 'e';
    NotThatTail(tail, start, "/customers", 1);
    NotThatTail(tail, start, "/benefits", 1);
    NotThatTail(tail, start, "/products/checkout-links", 1);
    NotThatTail(tail, start, "/usage-billing/meters", 15);
    AfterIs(start, more);
  }

  lemma BenefitsMove(q: Query, more: string)
    requires IsMore(more) && (more == "" ==> Get(q, "benefitId") == None)
    ensures LegacyMove("/benefits" + more, q) == Some(Move("/products/benefits" + more, q, 308))
  {
    hide After, Get, IsMore;
    var start := "/benefits";
    var tail := start + more;
    assert start <= tail && start[1] == 'b';
    NotThatTail(tail, start, "/customers", 1);
    NotThatTail(tail, start, "/products/checkout-links", 1);
    NotThatTail(tail, start, "/usage-billing/meters", 1);
    NotThatTail(tail, start, "/usage-billing/events", 1);
    AfterIs(start, more);
    assert tail == start ==> more == "";
  }

  lemma MetersMove(q: Query, more: string)
    requires IsMore(more) && (more == "" ==> Get(q, "selectedMeter") == None)
    ensures LegacyMove("/usage-billing/meters" + more, q) == Some(Move("/products/meters" + more, q, 308))
  {
    hide After, Get, IsMore;
    var start := "/usage-billing/meters";
    var tail := start + more;
    assert start <= tail && start[1] == 'u' && start[15] == 'm';
    NotThatTail(tail, start, "/customers", 1);
    NotThatTail(tail, start, "/benefits", 1);
    NotThatTail(tail, start, "/products/checkout-links", 1);
    NotThatTail(tail, start, "/usage-billing/events", 15);
    AfterIs(start, more);
    assert tail == start ==> more == "";
  }

  /** No other path is redirected so: not outside the dashboard of an organization, and not within it
      unless its tail is one of the seven. */
  lemma NoOtherAnswer(r: Request)
    requires LegacyRoute(r).Some?
    ensures exists org, tail :: IsDashboard(r.pathname, org, tail) && IsOldTail(tail, r.query)
  {
    hide LegacyMove;
    var d := ParseDashboard(r.pathname).value;
    ParseThenPrint(r.pathname);
    assert IsDashboard(r.pathname, d.org, d.tail);
    OldTailMoves(d.tail, r.query);
  }

  ghost predicate IsOldTail(tail: string, q: Query) {
    || (tail == "/customers" && Get(q, "customerId").Some?)
    || (tail == "/benefits" && Get(q, "benefitId").Some?)
    || (tail == "/products/checkout-links" && Get(q, "checkoutLinkId").Some?)
    || (tail == "/usage-billing/meters" && Get(q, "selectedMeter").Some?)
    || exists more :: IsMore(more)
         && (tail == "/usage-billing/events" + more || tail == "/benefits" + more ||
           tail == "/usage-billing/meters" + more)
  }

  lemma OldTailMoves(tail: string, q: Query)
    requires LegacyMove(tail, q).Some?
    ensures IsOldTail(tail, q)
  {
    hide After, Get, Without;
    if After(tail, "/usage-billing/events").Some? {
      AfterGives(tail, "/usage-billing/events");
    } else if After(tail, "/benefits").Some? {
      AfterGives(tail, "/benefits");
    } else if After(tail, "/usage-billing/meters").Some? {
      AfterGives(tail, "/usage-billing/meters");
    }
  }

  lemma AfterGives(tail: string, name: string)
    requires After(tail, name).Some?
    ensures IsMore(After(tail, name).value) && tail == name + After(tail, name).value
  {
    var more := After(tail, name).value;
    assert more != "" ==> more[1..] == tail[|name| + 1..];
  }

  // ---------------------------------------------------------------- the application

  /** The answers to an internal path that the host rules let through, in order. */
  lemma InternalAnswers(c: Client, r: Request)
    requires HostRoute(r) == None && !IsPublic(r.pathname)
    ensures IsForwarded(r.pathname) ==> Route(c, r) == Next(r, Headers(None, None, false))
    ensures !IsForwarded(r.pathname) && c.sandbox && !SandboxAllows(r.pathname) ==> Route(c, r) == Blocked
    ensures !IsForwarded(r.pathname) && (c.sandbox ==> SandboxAllows(r.pathname)) ==>
      && (LegacyRoute(r).Some? ==> Route(c, r) == LegacyRoute(r).value)
      && (LegacyRoute(r) == None && c.session == Failing ==> Route(c, r) == Failed)
      && (LegacyRoute(r) == None && c.session == Anonymous && RequiresAuthentication(r.pathname) ==>
           Route(c, r) == Redirect(
             Request(r.host, "/login", [Param("return_to", r.pathname + Search(r.query))]), Login, 307))
      && (LegacyRoute(r) == None && c.session == Anonymous && !RequiresAuthentication(r.pathname) ==>
           Route(c, r) == Next(r, Headers(Some(c.country), Some(r.pathname), false)))
      && (LegacyRoute(r) == None && c.session == User ==>
           Route(c, r) == Next(r, Headers(Some(c.country), Some(r.pathname), true)))
  {
    hide HostRoute, IsPublic, IsForwarded, SandboxAllows, LegacyRoute, RequiresAuthentication, Search, LocaleRoute;
    RootIsPublic();
  }

  // ---------------------------------------------------------------- queries

  /** The first value of a name counts. */
  lemma GetIs(p: Param, q: Query, name: string)
    ensures Get([], name) == None
    ensures Get([p] + q, name) == if p.name == name then Some(p.value) else Get(q, name)
  {
    assert ([p] + q)[1..] == q;
  }

  /** Deleting keeps the order. */
  lemma WithoutIs(p: Param, q: Query, name: string)
    ensures Without([], name) == []
    ensures Without([p] + q, name) == (if p.name == name then [] else [p]) + Without(q, name)
  {
    assert ([p] + q)[1..] == q;
  }

  /** A question mark, and `name=value` with ampersands between. */
  lemma SearchIs(p: Param, q: Query)
    ensures Search([]) == ""
    ensures Search([p]) == "?" + (p.name + "=" + p.value + "")
    ensures q != [] ==> Search([p] + q) == "?" + (p.name + "=" + p.value + ("&" + Search(q)[1..]))
  {
    assert ([p] + q)[1..] == q;
    assert q != [] ==> Search(q)[1..] == Joined(q);
  }
}
