/** `clients/web/src/proxy.ts`: how one request is answered, and where a client that follows the
    redirects ends up. */
module Proxy {
  import opened Sql
  import opened Text
  import opened Paths

  // ---------------------------------------------------------------- requests and answers

  datatype Param = Param(name: string, value: string)

  type Query = seq<Param>

  /** The host and the address that the proxy sees. */
  datatype Request = Request(host: string, pathname: string, query: Query)

  /** `/v1/users/me` answers with no user, with a user, or unexpectedly. */
  datatype Session = Anonymous | User | Failing

  /** What stays the same while one client follows redirects. */
  datatype Client = Client(sandbox: bool, session: Session, crawler: bool, country: string)

  datatype Reason = WwwHost | LegacyAddress | Login | Country | SandboxRoot

  datatype Headers = Headers(country: Option<string>, pathname: Option<string>, user: bool)

  datatype Response =
    | Redirect(to: Request, reason: Reason, status: int)
    | Rewrite(to: Request, headers: Headers)
    | Next(page: Request, headers: Headers)
    | NotFound
    | Blocked
    | Failed

  function NoHeaders(): Headers { Headers(None, None, false) }

  // ---------------------------------------------------------------- queries

  function Get(q: Query, name: string): Option<string> {
    if q == [] then None else if q[0].name == name then Some(q[0].value) else Get(q[1..], name)
  }

  /** `searchParams.delete`. */
  function Without(q: Query, name: string): Query {
    if q == [] then [] else (if q[0].name == name then [] else [q[0]]) + Without(q[1..], name)
  }

  /** `search`, as the parser read it. */
  function Search(q: Query): string {
    if q == [] then "" else "?" + Joined(q)
  }

  function Joined(q: Query): string
    requires q != []
  {
    q[0].name + "=" + q[0].value + if |q| == 1 then "" else "&" + Joined(q[1..])
  }

  lemma WithoutRemoves(q: Query, name: string)
    ensures Get(Without(q, name), name) == None
    ensures forall p :: p in Without(q, name) <==> p in q && p.name != name
  {
    forall p: Param ensures p in Without(q, name) <==> p in q && p.name != name {
      WithoutContains(q, name, p);
    }
    if Get(Without(q, name), name).Some? {
      GetIsIn(Without(q, name), name);
    }
  }

  lemma {:induction false} WithoutContains(q: Query, name: string, p: Param)
    ensures p in Without(q, name) <==> p in q && p.name != name
  {
    if q != [] {
      WithoutContains(q[1..], name, p);
      assert p in q <==> p == q[0] || p in q[1..];
      var first := if q[0].name == name then [] else [q[0]];
      assert p in Without(q, name) <==> p in first || p in Without(q[1..], name);
    }
  }

  /** All other parameters keep their values. */
  lemma {:induction false} WithoutKeepsOthers(q: Query, name: string, other: string)
    requires other != name
    ensures Get(Without(q, name), other) == Get(q, other)
  {
    if q != [] {
      WithoutKeepsOthers(q[1..], name, other);
      var rest := Without(q[1..], name);
      assert ([q[0]] + rest)[1..] == rest && [] + rest == rest;
    }
  }

  lemma {:induction false} GetIsIn(q: Query, name: string)
    requires Get(q, name).Some?
    ensures Param(name, Get(q, name).value) in q
  {
    if q[0].name != name {
      GetIsIn(q[1..], name);
    }
  }

  // ---------------------------------------------------------------- hosts

  predicate IsWww(host: string) {
    && "www.blyss.co.ke" <= Lower(host)
    && var port := host[15..];
      port == "" || (|port| > 1 && port[0] == ':' && forall i :: 1 <= i < |port| ==> IsDigit(port[i]))
  }

  predicate IsHost(host: string, name: string) {
    name + "." <= host || name + ".blyss." <= Lower(host)
  }

  function MainHost(): string { "blyss.co.ke" }

  // ---------------------------------------------------------------- old dashboard addresses

  /** `/dashboard/{org}` and what follows. */
  datatype DashboardPath = DashboardPath(org: string, tail: string)

  function ParseDashboard(p: string): Option<DashboardPath> {
    if "/dashboard/" <= p then
      var rest := p[11..];
      var i := IndexOf(rest, '/');
      if i > 0 then Some(DashboardPath(rest[..i], rest[i..])) else None
    else None
  }

  function PrintDashboard(d: DashboardPath): string {
    "/dashboard/" + d.org + d.tail
  }

  /** `name(\/.*)?$`. */
  function After(tail: string, name: string): Option<string> {
    if name <= tail && (|tail| == |name| || (tail[|name|] == '/' && OneLine(tail[|name| + 1..])))
    then Some(tail[|name|..])
    else None
  }

  datatype Move = Move(tail: string, query: Query, status: int)

  /** The seven redirects of old dashboard addresses, in order: four by a query parameter, three by path. */
  function LegacyMove(tail: string, q: Query): Option<Move> {
    if tail == "/customers" && Get(q, "customerId").Some? then
      Some(Move("/customers/" + Get(q, "customerId").value, Without(q, "customerId"), 307))
    else if tail == "/benefits" && Get(q, "benefitId").Some? then
      Some(Move("/products/benefits/" + Get(q, "benefitId").value, Without(q, "benefitId"), 307))
    else if tail == "/products/checkout-links" && Get(q, "checkoutLinkId").Some? then
      Some(Move("/products/checkout-links/" + Get(q, "checkoutLinkId").value, Without(q, "checkoutLinkId"), 307))
    else if tail == "/usage-billing/meters" && Get(q, "selectedMeter").Some? then
      Some(Move("/products/meters/" + Get(q, "selectedMeter").value, Without(q, "selectedMeter"), 307))
    else if After(tail, "/usage-billing/events").Some? then
      Some(Move("/analytics/events" + After(tail, "/usage-billing/events").value, q, 308))
    else if After(tail, "/benefits").Some? then
      Some(Move("/products/benefits" + After(tail, "/benefits").value, q, 308))
    else if After(tail, "/usage-billing/meters").Some? then
      Some(Move("/products/meters" + After(tail, "/usage-billing/meters").value, q, 308))
    else None
  }

  // ---------------------------------------------------------------- the answer

  function HostRoute(r: Request): Option<Response> {
    if IsWww(r.host) then Some(Redirect(r.(host := MainHost()), WwwHost, 308))
    else if IsHost(r.host, "buy") && !("/checkout" <= r.pathname) && !("/_buy" <= r.pathname) then
      Some(Rewrite(r.(pathname := if r.pathname == "/" then "/checkout" else "/checkout" + r.pathname), NoHeaders()))
    else if IsHost(r.host, "my") && !("/_my" <= r.pathname) then
      Some(Rewrite(r.(pathname := "/_my" + if r.pathname == "/" then "" else r.pathname), NoHeaders()))
    else if IsHost(r.host, "cdn") then Some(NotFound)
    else None
  }

  function LocaleRoute(c: Client, r: Request): Response {
    match ExtractLocale(r.pathname)
    case Some(l) => Rewrite(r.(pathname := l.rest), Headers(Some(l.country), Some(l.rest), c.session.User?))
    case None =>
      if c.crawler then Next(r, Headers(Some("ke"), Some(r.pathname), false))
      else Redirect(r.(pathname := Prefixed(c.country, r.pathname)), Country, 307)
  }

  function SandboxNames(): seq<string> {
    ["/login", "/dashboard", "/start", "/onboarding", "/finance", "/settings", "/oauth2", "/checkout",
     "/verify-email", "/api"]
  }

  predicate SandboxAllows(p: string) {
    (exists i :: 0 <= i < |SandboxNames()| && Under(p, SandboxNames()[i])) || IsPortal(p)
  }

  function LegacyRoute(r: Request): (answer: Option<Response>)
    ensures answer.Some? ==> answer.value.Redirect? && answer.value.to.host == r.host
  {
    match ParseDashboard(r.pathname)
    case None => None
    case Some(d) =>
      match LegacyMove(d.tail, r.query)
      case None => None
      case Some(m) =>
        Some(Redirect(Request(r.host, PrintDashboard(d.(tail := m.tail)), m.query), LegacyAddress, m.status))
  }

  /** `getLoginResponse`. */
  function LoginResponse(r: Request): Response {
    Redirect(Request(r.host, "/login", [Param("return_to", r.pathname + Search(r.query))]), Login, 307)
  }

  function UserRoute(c: Client, r: Request): Response {
    if c.session.Failing? then Failed
    else if RequiresAuthentication(r.pathname) && !c.session.User? then LoginResponse(r)
    else Next(r, Headers(Some(c.country), Some(r.pathname), c.session.User?))
  }

  function InternalRoute(c: Client, r: Request): Response {
    if IsForwarded(r.pathname) then Next(r, NoHeaders())
    else if c.sandbox && r.pathname == "/" then Redirect(Request(r.host, "/login", []), SandboxRoot, 307)
    else if c.sandbox && !SandboxAllows(r.pathname) then Blocked
    else if LegacyRoute(r).Some? then LegacyRoute(r).value
    else UserRoute(c, r)
  }

  /** The answer to one request. */
  function Route(c: Client, r: Request): Response {
    if HostRoute(r).Some? then HostRoute(r).value
    else if IsPublic(r.pathname) then LocaleRoute(c, r)
    else InternalRoute(c, r)
  }

  // ---------------------------------------------------------------- valid requests

  /** An id that is one plain path segment. */
  predicate Plain(id: string) {
    forall i :: 0 <= i < |id| ==> IsLetter(id[i]) || IsDigit(id[i]) || id[i] == '-' || id[i] == '_'
  }

  predicate IsLegacyName(name: string) {
    name == "customerId" || name == "benefitId" || name == "checkoutLinkId" || name == "selectedMeter"
  }

  predicate PlainIds(q: Query) {
    forall p :: p in q && IsLegacyName(p.name) ==> Plain(p.value)
  }

  predicate Valid(r: Request) {
    ValidPath(r.pathname) && PlainIds(r.query)
  }

  // ---------------------------------------------------------------- one redirect

  lemma PrintThenParse(org: string, tail: string)
    requires org != "" && '/' !in org && tail != "" && tail[0] == '/'
    ensures ParseDashboard(PrintDashboard(DashboardPath(org, tail))) == Some(DashboardPath(org, tail))
  {
    var p := PrintDashboard(DashboardPath(org, tail));
    assert p[11..] == org + tail;
    IndexOfIs(org, '/', tail[1..]);
    assert org + tail == org + "/" + tail[1..];
  }

  lemma ParseThenPrint(p: string)
    requires ParseDashboard(p).Some?
    ensures var d := ParseDashboard(p).value;
      PrintDashboard(d) == p && d.org != "" && '/' !in d.org && (d.tail == "" || d.tail[0] == '/')
  {
    NotBefore(p[11..], '/');
  }

  lemma OtherTail(tail: string, start: string, name: string, i: nat)
    requires start <= tail && i < |start| && i < |name| && start[i] != name[i]
    ensures tail != name && After(tail, name) == None
  {
    assert tail[i] == start[i];
  }

  function NewTails(): seq<string> {
    ["/customers/", "/analytics/", "/products/benefits", "/products/meters", "/products/checkout-links/"]
  }

  /** New addresses are not old ones. */
  lemma Settled(tail: string, k: nat, q: Query)
    requires k < |NewTails()| && NewTails()[k] <= tail
    ensures LegacyMove(tail, q) == None
  {
    hide After;
    var start := NewTails()[k];
    assert start[1] != 'b' && start[1] != 'u';
    OtherTail(tail, start, "/benefits", 1);
    OtherTail(tail, start, "/usage-billing/events", 1);
    OtherTail(tail, start, "/usage-billing/meters", 1);
    if k != 0 {
      OtherTail(tail, start, "/customers", 1);
    }
    if k == 2 || k == 3 {
      OtherTail(tail, start, "/products/checkout-links", 10);
    } else if k < 2 {
      OtherTail(tail, start, "/products/checkout-links", 1);
    }
  }

  lemma MoveSettles(tail: string, q: Query, again: Query)
    requires LegacyMove(tail, q).Some?
    ensures var m := LegacyMove(tail, q).value; m.tail != "" && m.tail[0] == '/' && LegacyMove(m.tail, again) == None
  {
    var m := LegacyMove(tail, q).value;
    var k := if NewTails()[0] <= m.tail then 0 else if NewTails()[1] <= m.tail then 1
      else if NewTails()[2] <= m.tail then 2 else if NewTails()[3] <= m.tail then 3 else 4;
    Settled(m.tail, k, again);
  }

  lemma PlainIsOneLine(q: Query, name: string)
    requires PlainIds(q) && IsLegacyName(name) && Get(q, name).Some?
    ensures OneLine(Get(q, name).value) && PlainIds(Without(q, name))
  {
    GetIsIn(q, name);
    WithoutRemoves(q, name);
  }

  lemma JoinIsOneLine(a: string, b: string)
    requires OneLine(a) && OneLine(b)
    ensures OneLine(a + b)
  {
  }

  lemma AfterIsOneLine(tail: string, name: string)
    requires OneLine(tail) && After(tail, name).Some?
    ensures OneLine(After(tail, name).value)
  {
  }

  lemma NewTailsAreOneLine()
    ensures OneLine("/customers/") && OneLine("/products/benefits/") && OneLine("/products/checkout-links/")
    ensures OneLine("/products/meters/") && OneLine("/analytics/events")
    ensures OneLine("/products/benefits") && OneLine("/products/meters")
  {
  }

  lemma QueryMoveIsValid(start: string, q: Query, name: string)
    requires OneLine(start) && PlainIds(q) && IsLegacyName(name) && Get(q, name).Some?
    ensures OneLine(start + Get(q, name).value) && PlainIds(Without(q, name))
  {
    hide OneLine, PlainIds, IsLegacyName, Get, Without;
    PlainIsOneLine(q, name);
    JoinIsOneLine(start, Get(q, name).value);
  }

  lemma PathMoveIsValid(start: string, tail: string, name: string)
    requires OneLine(start) && OneLine(tail) && After(tail, name).Some?
    ensures OneLine(start + After(tail, name).value)
  {
    hide OneLine, After;
    AfterIsOneLine(tail, name);
    JoinIsOneLine(start, After(tail, name).value);
  }

  lemma MoveIsValid(tail: string, q: Query)
    requires OneLine(tail) && PlainIds(q) && LegacyMove(tail, q).Some?
    ensures var m := LegacyMove(tail, q).value; OneLine(m.tail) && PlainIds(m.query)
  {
    hide PlainIds, Get, Without, OneLine, After;
    NewTailsAreOneLine();
    if tail == "/customers" && Get(q, "customerId").Some? {
      QueryMoveIsValid("/customers/", q, "customerId");
    } else if tail == "/benefits" && Get(q, "benefitId").Some? {
      QueryMoveIsValid("/products/benefits/", q, "benefitId");
    } else if tail == "/products/checkout-links" && Get(q, "checkoutLinkId").Some? {
      QueryMoveIsValid("/products/checkout-links/", q, "checkoutLinkId");
    } else if tail == "/usage-billing/meters" && Get(q, "selectedMeter").Some? {
      QueryMoveIsValid("/products/meters/", q, "selectedMeter");
    } else if After(tail, "/usage-billing/events").Some? {
      PathMoveIsValid("/analytics/events", tail, "/usage-billing/events");
    } else if After(tail, "/benefits").Some? {
      PathMoveIsValid("/products/benefits", tail, "/benefits");
    } else {
      PathMoveIsValid("/products/meters", tail, "/usage-billing/meters");
    }
  }

  lemma DashboardIsProtected(d: DashboardPath)
    ensures IsProtected(PrintDashboard(d)) && SandboxAllows(PrintDashboard(d)) && PrintDashboard(d) != "/"
  {
    assert "/dashboard/" <= PrintDashboard(d);
    assert Under(PrintDashboard(d), "/dashboard");
    assert SandboxNames()[1] == "/dashboard";
  }

  /** An old dashboard address moves, once, to another address of the dashboard. */
  lemma LegacyHop(r: Request)
    requires LegacyRoute(r).Some?
    ensures IsProtected(r.pathname) && SandboxAllows(r.pathname)
    ensures LegacyRoute(r).value.Redirect? && LegacyRoute(r).value.reason == LegacyAddress
    ensures var to := LegacyRoute(r).value.to;
      to.host == r.host && IsProtected(to.pathname) && SandboxAllows(to.pathname) && LegacyRoute(to) == None
    ensures Valid(r) ==> Valid(LegacyRoute(r).value.to)
  {
    hide LegacyMove, IsProtected, SandboxAllows, ParseDashboard, PlainIds, OneLine, Plain;
    var d := ParseDashboard(r.pathname).value;
    var m := LegacyMove(d.tail, r.query).value;
    var to := LegacyRoute(r).value.to;
    ParseThenPrint(r.pathname);
    DashboardIsProtected(d);
    DashboardIsProtected(d.(tail := m.tail));
    MoveSettles(d.tail, r.query, m.query);
    PrintThenParse(d.org, m.tail);
    if Valid(r) {
      PartsOfLine("/dashboard/" + d.org, d.tail, m.tail);
      MoveIsValid(d.tail, r.query);
      DashboardStarts(d.(tail := m.tail));
    }
  }

  lemma PartsOfLine(a: string, b: string, more: string)
    requires OneLine(a + b)
    ensures OneLine(b) && (OneLine(more) ==> OneLine(a + more))
  {
    forall c | c in a ensures !IsLineEnd(c) {
      assert c in a + b;
    }
    forall c | c in b ensures !IsLineEnd(c) {
      assert c in a + b;
    }
  }

  lemma DashboardStarts(d: DashboardPath)
    ensures PrintDashboard(d) != "" && PrintDashboard(d)[0] == '/'
  {
  }

  lemma MainHostIsPlain(r: Request)
    requires r.host == MainHost()
    ensures HostRoute(r) == None
  {
    assert Lower(r.host)[0] == 'b' && Lower(r.host)[1] == 'l' && r.host[1] == 'l';
    assert "buy."[1] == 'u' && "buy.blyss."[1] == 'u' && "my."[0] == 'm' && "my.blyss."[0] == 'm';
    assert "cdn."[0] == 'c' && "cdn.blyss."[0] == 'c' && "www.blyss.co.ke"[0] == 'w';
  }

  predicate IsShop(host: string) {
    IsHost(host, "buy") || IsHost(host, "my")
  }

  /** On a host that is not rewritten, the path does not matter to the host rules. */
  lemma OrdinaryHost(r: Request, to: Request)
    requires HostRoute(r) == None && !IsShop(r.host) && to.host == r.host
    ensures HostRoute(to) == None
  {
    hide IsWww, IsHost;
  }

  /** Only paths of their own are passed through on the hosts `buy` and `my`. */
  lemma ProtectedIsNotOnShop(r: Request)
    requires HostRoute(r) == None && RequiresAuthentication(r.pathname)
    ensures !IsShop(r.host)
  {
    hide IsWww, IsHost;
    var p := r.pathname;
    assert p[1] == 'd' || p[1] == 'f' || p[1] == 's' || p[1] == 'o';
    assert !("/checkout" <= p) && !("/_buy" <= p) && !("/_my" <= p);
  }

  // ---------------------------------------------------------------- whole journeys

  function Rank(reason: Reason): nat {
    match reason
    case WwwHost => 4
    case LegacyAddress => 3
    case Login => 2
    case Country => 1
    case SandboxRoot => 1
  }

  function RankOf(c: Client, r: Request): nat {
    match Route(c, r)
    case Redirect(_, reason, _) => Rank(reason)
    case _ => 0
  }

  /** A prefixed address is not redirected. */
  lemma AfterCountry(c: Client, r: Request)
    requires IsCountry(c.country) && ValidPath(r.pathname)
    requires IsPublic(r.pathname) && ExtractLocale(r.pathname) == None && !IsWww(r.host)
    ensures var to := r.(pathname := Prefixed(c.country, r.pathname));
      ValidPath(to.pathname) && HostRoute(to).Some? ==> !HostRoute(to).value.Redirect?
    ensures var to := r.(pathname := Prefixed(c.country, r.pathname));
      HostRoute(to) == None ==> Route(c, to) == Rewrite(r, Headers(Some(c.country), Some(r.pathname), c.session.User?))
    ensures ValidPath(Prefixed(c.country, r.pathname))
  {
    hide IsPublic, Prefixed, ExtractLocale, ValidPath, IsWww, IsHost;
    PrefixKeepsClass(c.country, r.pathname);
    ExtractPrefixed(c.country, r.pathname);
  }

  /** The login page lives under a country. */
  lemma AfterLogin(c: Client, host: string, q: Query)
    ensures var to := Request(host, "/login", q); HostRoute(to) == None ==> Route(c, to) == LocaleRoute(c, to)
    ensures LocaleRoute(c, Request(host, "/login", q)).Redirect? ==> !c.crawler
  {
    hide IsPublic, HostRoute;
    LoginIsPublic();
  }

  /** Every redirect leads to a request of lower rank, and none is the sandbox's root redirect. */
  lemma HopDecreases(c: Client, r: Request)
    requires Valid(r) && IsCountry(c.country)
    ensures var hop := Route(c, r);
      hop.Redirect? ==> Valid(hop.to) && RankOf(c, hop.to) < RankOf(c, r) && hop.reason != SandboxRoot
  {
    hide IsWww, IsHost, IsPublic, ExtractLocale, Prefixed, LegacyRoute, RequiresAuthentication, SandboxAllows,
      IsForwarded, ValidPath, PlainIds;
    if !Route(c, r).Redirect? {
      return;
    }
    var to := Route(c, r).to;
    RootIsPublic();
    if IsWww(r.host) {
      MainHostIsPlain(to);
      NotWww(c, to);
    } else if HostRoute(r) == None {
      if IsPublic(r.pathname) {
        AfterCountry(c, r);
      } else if LegacyRoute(r).Some? {
        LegacyHop(r);
        AfterLegacy(c, to);
      } else {
        AfterLogin(c, r.host, to.query);
        LoginIsPublic();
        LoginIsValid(r);
      }
    }
  }

  lemma NotWww(c: Client, r: Request)
    requires !IsWww(r.host)
    ensures Route(c, r).Redirect? ==> Route(c, r).reason != WwwHost
    ensures RankOf(c, r) < 4
  {
    hide IsWww, IsHost, IsPublic, ExtractLocale, RequiresAuthentication, SandboxAllows, IsForwarded, LegacyRoute,
      Prefixed, Search;
    if LegacyRoute(r).Some? {
      LegacyHop(r);
    }
  }

  lemma AfterLegacy(c: Client, r: Request)
    requires !IsWww(r.host) && IsProtected(r.pathname) && LegacyRoute(r) == None
    ensures RankOf(c, r) < 3
  {
    hide IsWww, IsHost, IsPublic, LegacyRoute, RequiresAuthentication, SandboxAllows, IsForwarded, IsProtected;
    ProtectedIsNotPublic(r.pathname);
  }

  lemma ProtectedIsNotPublic(p: string)
    requires IsProtected(p)
    ensures !IsPublic(p) && !IsForwarded(p) && RequiresAuthentication(p) && p != "/"
  {
    hide IsProtected, IsInternalPath;
    ProtectedIsInternal(p);
  }

  lemma LoginIsValid(r: Request)
    ensures Valid(LoginResponse(r).to)
  {
    LoginIsPublic();
  }

  datatype Trip = Trip(reasons: seq<Reason>, answer: Response)

  /** What a client meets that follows every redirect. */
  function Follow(c: Client, r: Request): Trip
    requires Valid(r) && IsCountry(c.country)
    decreases RankOf(c, r)
  {
    match Route(c, r)
    case Redirect(to, reason, _) =>
      HopDecreases(c, r);
      var trip := Follow(c, to);
      Trip([reason] + trip.reasons, trip.answer)
    case answer => Trip([], answer)
  }

  /** Whoever is not logged in is sent to the login page from here. */
  predicate AsksForLogin(c: Client, p: string) {
    c.session.Anonymous? && RequiresAuthentication(p) && (!c.sandbox || SandboxAllows(p))
  }

  predicate NeedsCountry(c: Client, p: string) {
    !c.crawler && ExtractLocale(p) == None
  }

  /** The redirects on a host other than the `www` host, told from the request alone. */
  function RedirectsHere(c: Client, r: Request): seq<Reason> {
    if HostRoute(r).Some? then []
    else if IsPublic(r.pathname) then if NeedsCountry(c, r.pathname) then [Country] else []
    else
      (if LegacyRoute(r).Some? then [LegacyAddress] else [])
      + if AsksForLogin(c, r.pathname) then [Login] + if c.crawler then [] else [Country] else []
  }

  function Redirects(c: Client, r: Request): seq<Reason> {
    if IsWww(r.host) then [WwwHost] + RedirectsHere(c, r.(host := MainHost())) else RedirectsHere(c, r)
  }

  /** The country redirect ends the journey: on a shop host the host rule answers, elsewhere the
      prefix is taken off again. */
  lemma CountryJourney(c: Client, r: Request)
    requires Valid(r) && IsCountry(c.country)
    requires HostRoute(r) == None && IsPublic(r.pathname) && NeedsCountry(c, r.pathname)
    ensures Follow(c, r).reasons == [Country] && !Follow(c, r).answer.Redirect?
    ensures !IsShop(r.host) ==>
      Follow(c, r).answer == Rewrite(r, Headers(Some(c.country), Some(r.pathname), c.session.User?))
    ensures IsShop(r.host) ==> Follow(c, r).answer.Rewrite? && Follow(c, r).answer.headers == NoHeaders()
  {
    hide IsPublic, Prefixed, ExtractLocale, PlainIds, IsWww, ValidPath, IsHost;
    AfterCountry(c, r);
    var to := r.(pathname := Prefixed(c.country, r.pathname));
    assert Route(c, r) == Redirect(to, Country, 307);
    assert Follow(c, r) == Trip([Country] + Follow(c, to).reasons, Follow(c, to).answer);
    if IsShop(r.host) {
      PrefixedIsNotOnShop(c.country, r);
    } else {
      OrdinaryHost(r, to);
    }
  }

  /** A prefixed path is not one of the paths that the shop hosts pass through. */
  lemma PrefixedIsNotOnShop(country: string, r: Request)
    requires IsShop(r.host) && !IsWww(r.host) && IsCountry(country) && ValidPath(r.pathname)
    ensures var answer := HostRoute(r.(pathname := Prefixed(country, r.pathname)));
      answer.Some? && answer.value.Rewrite? && answer.value.headers == NoHeaders()
  {
    hide IsWww, IsHost, ValidPath;
    var p := Prefixed(country, r.pathname);
    PrefixShape(country, r.pathname);
    assert "/checkout"[3] != '/' && "/_buy"[1] == '_' && "/_my"[1] == '_';
  }

  lemma PrefixShape(country: string, p: string)
    requires IsCountry(country) && ValidPath(p)
    ensures var q := Prefixed(country, p); |q| >= 3 && q[1] != '_' && (|q| > 3 ==> q[3] == '/')
  {
  }

  /** Who must log in ends at the login page, which is told where to return to. */
  lemma LoginJourney(c: Client, r: Request)
    requires Valid(r) && IsCountry(c.country)
    requires HostRoute(r) == None && !IsPublic(r.pathname) && LegacyRoute(r) == None && AsksForLogin(c, r.pathname)
    ensures Follow(c, r).reasons == [Login] + if c.crawler then [] else [Country]
    ensures Page(Follow(c, r).answer)
         == Some(Request(r.host, "/login", [Param("return_to", r.pathname + Search(r.query))]))
    ensures Seen(Follow(c, r).answer) == Some(View("/login", Some("/login")))
  {
    hide IsPublic, ExtractLocale, PlainIds, IsWww, ValidPath, IsHost, LegacyRoute, RequiresAuthentication,
      SandboxAllows, Search;
    var to := LoginResponse(r).to;
    RootIsPublic();
    AuthenticatedIsNotForwarded(r.pathname);
    assert Route(c, r) == Redirect(to, Login, 307);
    LoginIsValid(r);
    assert Follow(c, r) == Trip([Login] + Follow(c, to).reasons, Follow(c, to).answer);
    ProtectedIsNotOnShop(r);
    OrdinaryHost(r, to);
    LoginIsPublic();
    if !c.crawler {
      CountryJourney(c, to);
    }
  }

  lemma AuthenticatedIsNotForwarded(p: string)
    requires RequiresAuthentication(p)
    ensures !IsForwarded(p)
  {
  }

  /** Inside the application there are no other redirects. */
  lemma InternalJourney(c: Client, r: Request)
    requires Valid(r) && IsCountry(c.country)
    requires HostRoute(r) == None && !IsPublic(r.pathname) && LegacyRoute(r) == None && !AsksForLogin(c, r.pathname)
    ensures Follow(c, r) == Trip([], InternalRoute(c, r)) && !InternalRoute(c, r).Redirect?
  {
    hide IsPublic, PlainIds, ValidPath, LegacyRoute, RequiresAuthentication, SandboxAllows;
    RootIsPublic();
  }

  /** An old dashboard address moves and then needs a login or not, as it did before. */
  lemma LegacyJourney(c: Client, r: Request)
    requires Valid(r) && IsCountry(c.country)
    requires HostRoute(r) == None && LegacyRoute(r).Some?
    ensures var to := LegacyRoute(r).value.to;
      Valid(to) && HostRoute(to) == None && !IsPublic(to.pathname) && LegacyRoute(to) == None
      && Follow(c, r) == Trip([LegacyAddress] + Follow(c, to).reasons, Follow(c, to).answer)
    ensures !IsPublic(r.pathname)
    ensures AsksForLogin(c, LegacyRoute(r).value.to.pathname) <==> AsksForLogin(c, r.pathname)
    ensures AsksForLogin(c, r.pathname) <==> c.session.Anonymous?
  {
    hide IsPublic, PlainIds, IsWww, ValidPath, IsHost, LegacyRoute, RequiresAuthentication, SandboxAllows, IsProtected;
    var to := LegacyRoute(r).value.to;
    LegacyHop(r);
    ProtectedIsNotPublic(r.pathname);
    ProtectedIsNotPublic(to.pathname);
    ProtectedIsNotOnShop(r);
    OrdinaryHost(r, to);
    assert Route(c, r) == LegacyRoute(r).value;
  }

  /** On any host but the `www` host, the redirects met are exactly those told from the request. */
  lemma RedirectsHereAre(c: Client, r: Request)
    requires Valid(r) && IsCountry(c.country) && !IsWww(r.host)
    ensures Follow(c, r).reasons == RedirectsHere(c, r) && !Follow(c, r).answer.Redirect?
  {
    hide IsPublic, PlainIds, IsWww, ValidPath, IsHost, LegacyRoute, AsksForLogin, ExtractLocale, Prefixed,
      InternalRoute;
    if HostRoute(r).Some? {
      HostAnswers(c, r);
    } else if IsPublic(r.pathname) {
      if NeedsCountry(c, r.pathname) {
        CountryJourney(c, r);
      }
    } else if LegacyRoute(r).Some? {
      LegacyJourney(c, r);
      UserJourney(c, LegacyRoute(r).value.to);
    } else {
      UserJourney(c, r);
    }
  }

  lemma HostAnswers(c: Client, r: Request)
    requires Valid(r) && IsCountry(c.country) && !IsWww(r.host) && HostRoute(r).Some?
    ensures Follow(c, r) == Trip([], HostRoute(r).value) && !HostRoute(r).value.Redirect?
  {
    hide PlainIds, IsWww, ValidPath, IsHost;
  }

  lemma UserJourney(c: Client, r: Request)
    requires Valid(r) && IsCountry(c.country)
    requires HostRoute(r) == None && !IsPublic(r.pathname) && LegacyRoute(r) == None
    ensures !Follow(c, r).answer.Redirect?
    ensures Follow(c, r).reasons
         == if AsksForLogin(c, r.pathname) then [Login] + (if c.crawler then [] else [Country]) else []
  {
    hide IsPublic, HostRoute, LegacyRoute, AsksForLogin, InternalRoute;
    if AsksForLogin(c, r.pathname) {
      LoginJourney(c, r);
    } else {
      InternalJourney(c, r);
    }
  }

  lemma WwwJourney(c: Client, r: Request)
    requires Valid(r) && IsCountry(c.country) && IsWww(r.host)
    ensures var to := r.(host := MainHost());
      Valid(to) && HostRoute(to) == None && !IsWww(to.host)
      && Follow(c, r) == Trip([WwwHost] + Follow(c, to).reasons, Follow(c, to).answer)
  {
    hide PlainIds, IsWww, ValidPath, IsHost, IsPublic;
    var to := r.(host := MainHost());
    MainHostIsPlain(to);
    assert Route(c, r) == Redirect(to, WwwHost, 308);
  }

  /** Every journey ends. Its redirects are told from the request alone, there are at most four of them,
      and there are four for exactly those who ask the `www` host for an old dashboard address, are not
      logged in and are no crawler. The sandbox's root redirect is never met. */
  lemma RedirectsAre(c: Client, r: Request)
    requires Valid(r) && IsCountry(c.country)
    ensures Follow(c, r).reasons == Redirects(c, r) && !Follow(c, r).answer.Redirect?
    ensures |Redirects(c, r)| <= 4 && SandboxRoot !in Redirects(c, r)
    ensures |Redirects(c, r)| == 4
       <==> IsWww(r.host) && LegacyRoute(r.(host := MainHost())).Some? && c.session.Anonymous? && !c.crawler
  {
    hide IsPublic, PlainIds, IsWww, ValidPath, IsHost, LegacyRoute, AsksForLogin, InternalRoute, HostRoute, MainHost;
    if IsWww(r.host) {
      WwwJourney(c, r);
      var to := r.(host := MainHost());
      RedirectsHereAre(c, to);
      if LegacyRoute(to).Some? {
        LegacyJourney(c, to);
      }
    } else {
      RedirectsHereAre(c, r);
    }
  }

  // ---------------------------------------------------------------- a country that is none

  /** The path after `n` redirects to one country. */
  function PrefixedTimes(country: string, n: nat): string {
    if n == 0 then "/" else Prefixed(country, PrefixedTimes(country, n - 1))
  }

  /** A text that is no country: neither two letters nor the name of an internal path. The country of a
      cookie with a blank in front or behind is one, as an address spells it. */
  predicate IsOdd(country: string) {
    && country != "" && '/' !in country && '.' !in country && OneLine(country)
    && !(|country| == 2 && IsLetter(country[0]) && IsLetter(country[1]))
    && country != "portal" && "/" + country !in InternalRoots()
  }

  lemma {:induction false} PrefixedTimesIsPublic(country: string, n: nat)
    requires IsOdd(country)
    ensures var p := PrefixedTimes(country, n); ValidPath(p) && ExtractLocale(p) == None && IsPublic(p) && '.' !in p
  {
    hide MatchesInternal, InternalRoots, IsPortal, ExtractLocale, ValidPath, OneLine, IsForwarded, IsLetter;
    if n == 0 {
      RootIsPublic();
      RootIsValid();
    } else {
      var before := PrefixedTimes(country, n - 1);
      PrefixedTimesIsPublic(country, n - 1);
      PrefixIsParsedIff(country, before);
      PrefixedTimesShape(country, n - 1);
      OddPathIsPublic(country, if n == 1 then "" else before);
      assert "/" + country + "" == "/" + country;
    }
  }

  /** After the first redirect the path is the country and then nothing or such a path again. */
  lemma PrefixedTimesShape(country: string, n: nat)
    requires country != ""
    ensures n == 0 ==> PrefixedTimes(country, n) == "/"
    ensures n > 0 ==> IsRepeated(PrefixedTimes(country, n), country) && |PrefixedTimes(country, n)| > 1
  {
    if n > 0 {
      PrefixedTimesStarts(country, n - 1);
      var more := if PrefixedTimes(country, n - 1) == "/" then "" else PrefixedTimes(country, n - 1);
      assert PrefixedTimes(country, n) == "/" + country + more;
    }
  }

  lemma {:induction false} PrefixedTimesStarts(country: string, n: nat)
    ensures PrefixedTimes(country, n) != "" && PrefixedTimes(country, n)[0] == '/'
  {
  }

  ghost predicate IsRepeated(p: string, country: string) {
    exists more :: (more == "" || more[0] == '/') && p == "/" + country + more
  }

  lemma RootIsValid()
    ensures ValidPath("/")
  {
  }

  lemma OddPathIsPublic(country: string, rest: string)
    requires IsOdd(country) && '.' !in rest && (rest == "" || IsRepeated(rest, country))
    requires ExtractLocale("/" + country + rest) == None
    ensures IsPublic("/" + country + rest) && '.' !in "/" + country + rest
  {
    hide MatchesInternal, InternalRoots, IsPortal, ExtractLocale, Under, OneLine, IsLetter;
    var p := "/" + country + rest;
    PortalIs(country, rest);
    if rest == "" {
      NoPortal();
    } else {
      var more :| (more == "" || more[0] == '/') && rest == "/" + country + more;
      UnderIsFirstSegment(country, more, "portal");
      PortalIsOneSegment();
    }
    forall i | 0 <= i < |InternalRoots()| ensures !Under(p, InternalRoots()[i]) {
      RootIsOneSegment(i);
      UnderIsFirstSegment(country, rest, InternalRoots()[i][1..]);
    }
    UnderNothing(p);
    if IsForwarded(p) {
      ForwardedIsInternal(p);
    }
  }

  lemma PortalIsOneSegment()
    ensures '/' !in "portal" && "/portal" == "/" + "portal"
  {
  }

  lemma NoPortal()
    ensures !Under("", "/portal")
  {
  }

  /** With such a country a browser is redirected again and again, and never answered otherwise. */
  lemma RedirectsNeverEnd(c: Client, host: string, q: Query, n: nat)
    requires !c.crawler && IsOdd(c.country)
    requires !IsShop(host) && HostRoute(Request(host, "/", q)) == None
    ensures Route(c, Request(host, PrefixedTimes(c.country, n), q))
         == Redirect(Request(host, PrefixedTimes(c.country, n + 1), q), Country, 307)
  {
    hide IsPublic, IsShop, HostRoute, ExtractLocale, Prefixed, IsOdd;
    var r := Request(host, PrefixedTimes(c.country, n), q);
    PrefixedTimesIsPublic(c.country, n);
    OrdinaryHost(Request(host, "/", q), r);
  }

  /** The countries ` us` and `us `, as an address spells them. */
  lemma BlankBesideCountryIsOdd()
    ensures IsOdd("%20us") && IsOdd("us%20")
  {
    NoRootHasAPercent("%20us", 0);
    NoRootHasAPercent("us%20", 2);
  }

  lemma NoRootHasAPercent(country: string, i: nat)
    requires i < |country| && country[i] == '%'
    ensures "/" + country !in InternalRoots()
  {
    hide InternalRoots;
    assert ("/" + country)[i + 1] == '%';
    forall k | 0 <= k < |InternalRoots()| ensures InternalRoots()[k] != "/" + country {
      RootLetters(k);
    }
  }

  // ---------------------------------------------------------------- what is served

  /** The page that an answer shows. */
  function Page(answer: Response): Option<Request> {
    match answer
    case Rewrite(to, _) => Some(to)
    case Next(page, _) => Some(page)
    case _ => None
  }

  /** The path of that page, and the `x-blyss-pathname` that it is told. */
  datatype View = View(pathname: string, header: Option<string>)

  function Seen(answer: Response): Option<View> {
    match answer
    case Rewrite(to, h) => Some(View(to.pathname, h.pathname))
    case Next(page, h) => Some(View(page.pathname, h.pathname))
    case _ => None
  }

  /** A public path without a country on a host that is rewritten: the browser's detour by way of the
      country prefix runs into the host rule. */
  predicate Misrouted(r: Request) {
    HostRoute(r) == None && IsPublic(r.pathname) && ExtractLocale(r.pathname) == None && IsShop(r.host)
  }

  /** A browser and a crawler are shown the same page under the same name if and only if the request is
      not misrouted. */
  lemma SamePage(c: Client, r: Request)
    requires Valid(r) && IsCountry(c.country)
    ensures Seen(Follow(c.(crawler := false), r).answer) == Seen(Follow(c.(crawler := true), r).answer) <==>
      !Misrouted(r)
  {
    hide IsPublic, PlainIds, IsWww, ValidPath, IsHost, LegacyRoute, ExtractLocale, MainHost, Follow;
    if IsWww(r.host) {
      var to := r.(host := MainHost());
      WwwJourney(c.(crawler := false), r);
      WwwJourney(c.(crawler := true), r);
      SamePageHere(c, to);
      WwwIsNotMisrouted(r);
    } else {
      SamePageHere(c, r);
    }
  }

  function BuyNow(): Request { Request("buy.blyss.co.ke", "/checkout-now", []) }

  /** A request that a browser and a crawler see answered differently. */
  lemma BuyNowIsMisrouted(c: Client)
    requires IsCountry(c.country)
    ensures Valid(BuyNow()) && Misrouted(BuyNow())
    ensures Seen(Follow(c.(crawler := false), BuyNow()).answer) != Seen(Follow(c.(crawler := true), BuyNow()).answer)
  {
    hide IsPublic, ValidPath, ExtractLocale, Follow, Seen;
    CheckoutNowIsPublic();
    BuyHostPasses();
    SamePage(c, BuyNow());
  }

  lemma BuyHostPasses()
    ensures HostRoute(BuyNow()) == None && IsShop(BuyNow().host)
  {
    var host := BuyNow().host;
    assert Lower(host)[0] == 'b' && host[0] == 'b';
    assert "my."[0] == 'm' && "my.blyss."[0] == 'm' && "cdn."[0] == 'c' && "cdn.blyss."[0] == 'c';
    assert "www.blyss.co.ke"[0] == 'w' && "buy" + "." <= host;
    assert "/checkout" <= BuyNow().pathname;
  }

  lemma WwwIsNotMisrouted(r: Request)
    requires IsWww(r.host)
    ensures !Misrouted(r) && !Misrouted(r.(host := MainHost()))
  {
    hide IsPublic, ExtractLocale, IsWww;
    assert Lower(MainHost())[1] == 'l' && "buy."[1] == 'u' && "my."[0] == 'm';
    assert "buy.blyss."[1] == 'u' && "my.blyss."[0] == 'm' && Lower(MainHost())[0] == 'b';
  }

  lemma SamePageHere(c: Client, r: Request)
    requires Valid(r) && IsCountry(c.country) && !IsWww(r.host)
    ensures Seen(Follow(c.(crawler := false), r).answer) == Seen(Follow(c.(crawler := true), r).answer) <==>
      !Misrouted(r)
  {
    hide IsPublic, PlainIds, IsWww, ValidPath, IsHost, LegacyRoute, AsksForLogin, ExtractLocale, Prefixed, IsShop,
      HostRoute, Follow;
    var browser, crawler := c.(crawler := false), c.(crawler := true);
    if HostRoute(r).Some? {
      HostAnswers(browser, r);
      HostAnswers(crawler, r);
    } else if IsPublic(r.pathname) {
      LocalePage(crawler, r);
      if ExtractLocale(r.pathname) == None {
        CountryJourney(browser, r);
      } else {
        LocalePage(browser, r);
      }
    } else {
      if LegacyRoute(r).Some? {
        LegacyJourney(browser, r);
        LegacyJourney(crawler, r);
        SameInside(c, LegacyRoute(r).value.to);
      } else {
        SameInside(c, r);
      }
    }
  }

  lemma LocalePage(c: Client, r: Request)
    requires Valid(r) && IsCountry(c.country) && HostRoute(r) == None && IsPublic(r.pathname)
    requires !NeedsCountry(c, r.pathname)
    ensures Follow(c, r) == Trip([], LocaleRoute(c, r))
  {
    hide IsPublic, ExtractLocale, PlainIds, ValidPath, HostRoute;
  }

  lemma SameInside(c: Client, r: Request)
    requires Valid(r) && IsCountry(c.country)
    requires HostRoute(r) == None && !IsPublic(r.pathname) && LegacyRoute(r) == None
    ensures Seen(Follow(c.(crawler := false), r).answer) == Seen(Follow(c.(crawler := true), r).answer)
  {
    hide IsPublic, LegacyRoute, RequiresAuthentication, SandboxAllows, HostRoute, Follow, Seen;
    var browser, crawler := c.(crawler := false), c.(crawler := true);
    if AsksForLogin(c, r.pathname) {
      LoginJourney(browser, r);
      LoginJourney(crawler, r);
    } else {
      InternalJourney(browser, r);
      InternalJourney(crawler, r);
    }
  }

  // ---------------------------------------------------------------- who sees what

  /** A page of the protected part is only ever the answer to a user. */
  lemma ProtectedOnlyForUsersHere(c: Client, r: Request)
    ensures var page := Page(Route(c, r)); page.Some? && IsProtected(page.value.pathname) ==> c.session.User?
  {
    hide IsWww, IsHost, SandboxAllows, LegacyRoute, ExtractLocale, MatchesInternal, IsForwarded, RequiresAuthentication,
      IsProtected;
    if Page(Route(c, r)).None? || !IsProtected(Page(Route(c, r)).value.pathname) {
      return;
    }
    var p := Page(Route(c, r)).value.pathname;
    ProtectedIsInternal(p);
    ProtectedIsNotPublic(p);
    ProtectedInitial(p);
    assert "/checkout"[1] == 'c' && "/_my"[1] == '_';
  }

  lemma ProtectedInitial(p: string)
    requires IsProtected(p)
    ensures |p| > 1 && p[1] != 'c' && p[1] != '_'
  {
  }

  lemma {:induction false} ProtectedOnlyForUsers(c: Client, r: Request)
    requires Valid(r) && IsCountry(c.country)
    ensures var page := Page(Follow(c, r).answer); page.Some? && IsProtected(page.value.pathname) ==> c.session.User?
    decreases RankOf(c, r)
  {
    hide IsProtected, Route, Valid;
    match Route(c, r)
    case Redirect(to, _, _) =>
      HopDecreases(c, r);
      ProtectedOnlyForUsers(c, to);
    case _ => ProtectedOnlyForUsersHere(c, r);
  }

  /** An internal path under a country prefix is passed on as it stands, prefix and all, without a login
      and without a redirect: to the rest of the handler it is no dashboard address and no page that asks
      for authentication. The sandbox blocks it unless it looks like a portal. */
  lemma PrefixedInternalPath(c: Client, r: Request)
    requires HostRoute(r) == None && ExtractLocale(r.pathname).Some? && IsInternalPath(r.pathname)
    ensures !IsProtected(r.pathname)
    ensures Route(c, r) ==
      if c.sandbox && !IsPortal(r.pathname) then Blocked
      else if c.session.Failing? then Failed
      else Next(r, Headers(Some(c.country), Some(r.pathname), c.session.User?))
  {
    hide HostRoute, IsInternalPath, IsPortal, ExtractLocale, IsProtected, IsForwarded, RequiresAuthentication,
      LegacyMove, SandboxAllows, SandboxNames, ParseDashboard;
    RootIsPublic();
    if IsForwarded(r.pathname) {
      ForwardedIsInternal(r.pathname);
    }
    if IsProtected(r.pathname) {
      ProtectedIsInternal(r.pathname);
    }
    PrefixedIsNoAppPath(r.pathname);
  }

  lemma PrefixedIsNoAppPath(p: string)
    requires ExtractLocale(p).Some?
    ensures !RequiresAuthentication(p) && ParseDashboard(p) == None
    ensures SandboxAllows(p) <==> IsPortal(p)
  {
    hide IsPortal, ExtractLocale, IsForwarded, SandboxNames;
    NoLongStart(p, "/dashboard");
    NoLongStart(p, "/dashboard/");
    NoLongStart(p, "/finance");
    NoLongStart(p, "/settings");
    NoLongStart(p, "/oauth2");
    forall i | 0 <= i < |SandboxNames()| ensures !Under(p, SandboxNames()[i]) {
      SandboxNameIsLong(i);
      var name := SandboxNames()[i];
      NoLongStart(p, name);
      assert name <= name + "/";
    }
  }

  lemma NoLongStart(p: string, name: string)
    requires ExtractLocale(p).Some? && |name| >= 4 && name[3] != '/'
    ensures !(name <= p) && !Under(p, name)
  {
    hide ExtractLocale;
    if name + "/" <= p {
      UnderStarts(p, name);
    }
    if name <= p {
      LongNameIsNoCountry(p, name);
    }
  }

  lemma SandboxNameIsLong(i: nat)
    requires i < |SandboxNames()|
    ensures |SandboxNames()[i]| >= 4 && SandboxNames()[i][3] != '/'
  {
  }

  // ---------------------------------------------------------------- the handler

  /** The address that the handler clones and then changes. */
  class NextUrl {
    var host: string
    var pathname: string
    var query: Query

    constructor (r: Request)
      ensures Value() == r
    {
      host, pathname, query := r.host, r.pathname, r.query;
    }

    function Value(): (r: Request)
      reads this
    {
      Request(host, pathname, query)
    }

    method Clone() returns (url: NextUrl)
      ensures fresh(url) && url.Value() == Value()
    {
      url := new NextUrl(Value());
    }
  }

  method GetLoginResponse(request: NextUrl) returns (answer: Response)
    ensures answer == LoginResponse(request.Value())
  {
    var redirectUrl := request.Clone();
    redirectUrl.pathname := "/login";
    redirectUrl.query := [];
    var returnTo := request.pathname + Search(request.query);
    redirectUrl.query := redirectUrl.query + [Param("return_to", returnTo)];
    return Redirect(redirectUrl.Value(), Login, 307);
  }

  method RouteByHost(request: NextUrl) returns (answer: Option<Response>)
    ensures answer == HostRoute(request.Value())
  {
    hide IsWww, IsHost;
    var host, pathname := request.host, request.pathname;
    if IsWww(host) {
      var url := request.Clone();
      url.host := MainHost();
      return Some(Redirect(url.Value(), WwwHost, 308));
    }
    if IsHost(host, "buy") {
      if !("/checkout" <= pathname) && !("/_buy" <= pathname) {
        var url := request.Clone();
        url.pathname := if pathname == "/" then "/checkout" else "/checkout" + pathname;
        return Some(Rewrite(url.Value(), NoHeaders()));
      }
    }
    if IsHost(host, "my") {
      if !("/_my" <= pathname) {
        var url := request.Clone();
        url.pathname := "/_my" + if pathname == "/" then "" else pathname;
        return Some(Rewrite(url.Value(), NoHeaders()));
      }
    }
    if IsHost(host, "cdn") {
      return Some(NotFound);
    }
    return None;
  }

  method RouteByLocale(c: Client, request: NextUrl) returns (answer: Response)
    ensures answer == LocaleRoute(c, request.Value())
  {
    var segment := ExtractLocale(request.pathname);
    if segment.Some? {
      var url := request.Clone();
      url.pathname := segment.value.rest;
      var user := c.session.User?;
      return Rewrite(url.Value(), Headers(Some(segment.value.country), Some(segment.value.rest), user));
    }
    if c.crawler {
      return Next(request.Value(), Headers(Some("ke"), Some(request.pathname), false));
    }
    var url := request.Clone();
    url.pathname := Prefixed(c.country, request.pathname);
    return Redirect(url.Value(), Country, 307);
  }

  method RedirectLegacy(request: NextUrl) returns (answer: Option<Response>)
    ensures answer == LegacyRoute(request.Value())
  {
    hide LegacyMove, ParseDashboard;
    var found := ParseDashboard(request.pathname);
    if found.None? {
      return None;
    }
    var move := LegacyMove(found.value.tail, request.query);
    if move.None? {
      return None;
    }
    var url := request.Clone();
    url.pathname := PrintDashboard(found.value.(tail := move.value.tail));
    url.query := move.value.query;
    return Some(Redirect(url.Value(), LegacyAddress, move.value.status));
  }

  /** `proxy`: it answers as the rules above say and leaves the request as it is. */
  method Handle(c: Client, request: NextUrl) returns (answer: Response)
    ensures answer == Route(c, request.Value())
  {
    hide HostRoute, LocaleRoute, LegacyRoute, LoginResponse, IsPublic, IsForwarded, RequiresAuthentication,
      SandboxAllows;
    var pathname := request.pathname;
    var byHost := RouteByHost(request);
    if byHost.Some? {
      return byHost.value;
    }
    if IsPublic(pathname) {
      answer := RouteByLocale(c, request);
      return;
    }
    if IsForwarded(pathname) {
      return Next(request.Value(), NoHeaders());
    }
    if c.sandbox {
      if pathname == "/" {
        var url := request.Clone();
        url.pathname := "/login";
        url.query := [];
        return Redirect(url.Value(), SandboxRoot, 307);
      }
      if !SandboxAllows(pathname) {
        return Blocked;
      }
    }
    var legacy := RedirectLegacy(request);
    if legacy.Some? {
      return legacy.value;
    }
    if c.session.Failing? {
      return Failed;
    }
    if RequiresAuthentication(pathname) && !c.session.User? {
      answer := GetLoginResponse(request);
      return;
    }
    return Next(request.Value(), Headers(Some(c.country), Some(pathname), c.session.User?));
  }
}
