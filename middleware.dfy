/** The request middleware (middleware.ts): public pages and public API prefixes pass through,
    admin pages need a session, everything else passes. The session lookup is a network call;
    its outcome is an input here. */
module Middleware {
  import opened Js

  const PublicRoutes: seq<string> := ["/login", "/signup", "/", "/carrinho", "/categoria"]
  const PublicApiRoutes: seq<string> := ["/api/banners", "/api/categorias", "/api/produtos"]

  /** What the session lookup gave: a session, no session, or a thrown error. */
  datatype SessionLookup = Present | Absent | LookupFailed

  datatype Decision = Next | RedirectToLogin

  /** `routes.some(route => pathname === route || pathname.startsWith(route + "/"))` */
  predicate SomeRouteOrBelow(routes: seq<string>, pathname: string) {
    routes != [] && (pathname == routes[0] || StartsWith(pathname, routes[0] + "/") || SomeRouteOrBelow(routes[1..], pathname))
  }

  /** `routes.some(route => pathname.startsWith(route))` */
  predicate SomePrefix(routes: seq<string>, pathname: string) {
    routes != [] && (StartsWith(pathname, routes[0]) || SomePrefix(routes[1..], pathname))
  }

  predicate IsPublicRoute(pathname: string) {
    SomeRouteOrBelow(PublicRoutes, pathname)
  }

  predicate IsPublicApi(pathname: string) {
    SomePrefix(PublicApiRoutes, pathname)
  }

  /** `middleware(request)`, with the session lookup's outcome as an input; the lookup is
      consulted only for admin pages. */
  function Decide(pathname: string, session: SessionLookup): Decision {
    if IsPublicRoute(pathname) then Next
    else if IsPublicApi(pathname) then Next
    else if StartsWith(pathname, "/painel") then (if session == Present then Next else RedirectToLogin)
    else Next
  }

  /** The public pages, written out: the five paths themselves and everything below them.
      Because "/" is among them, every path that starts with "//" is public. */
  lemma PublicRouteIff(p: string)
    ensures IsPublicRoute(p) <==>
      || p == "/login" || p == "/signup" || p == "/" || p == "/carrinho" || p == "/categoria"
      || StartsWith(p, "/login/") || StartsWith(p, "/signup/") || StartsWith(p, "//")
      || StartsWith(p, "/carrinho/") || StartsWith(p, "/categoria/")
  {
    var r1: seq<string> := ["/signup", "/", "/carrinho", "/categoria"];
    var r2: seq<string> := ["/", "/carrinho", "/categoria"];
    var r3: seq<string> := ["/carrinho", "/categoria"];
    var r4: seq<string> := ["/categoria"];
    assert PublicRoutes[1..] == r1 && r1[1..] == r2 && r2[1..] == r3 && r3[1..] == r4 && r4[1..] == [];
    assert IsPublicRoute(p) == (p == "/login" || StartsWith(p, "/login/") || SomeRouteOrBelow(r1, p));
    assert SomeRouteOrBelow(r1, p) == (p == "/signup" || StartsWith(p, "/signup/") || SomeRouteOrBelow(r2, p));
    assert SomeRouteOrBelow(r2, p) == (p == "/" || StartsWith(p, "//") || SomeRouteOrBelow(r3, p));
    assert SomeRouteOrBelow(r3, p) == (p == "/carrinho" || StartsWith(p, "/carrinho/") || SomeRouteOrBelow(r4, p));
    assert SomeRouteOrBelow(r4, p) == (p == "/categoria" || StartsWith(p, "/categoria/"));
  }

  /** The public API prefixes match with no "/" after them, so "/api/bannersX" is public too. */
  lemma PublicApiIff(p: string)
    ensures IsPublicApi(p) <==>
      StartsWith(p, "/api/banners") || StartsWith(p, "/api/categorias") || StartsWith(p, "/api/produtos")
  {
    var r1: seq<string> := ["/api/categorias", "/api/produtos"];
    var r2: seq<string> := ["/api/produtos"];
    assert PublicApiRoutes[1..] == r1 && r1[1..] == r2 && r2[1..] == [];
    assert IsPublicApi(p) == (StartsWith(p, "/api/banners") || SomePrefix(r1, p));
    assert SomePrefix(r1, p) == (StartsWith(p, "/api/categorias") || SomePrefix(r2, p));
  }

  /** The only redirect: an admin page that is not public, reached without a session or with
      a failed lookup. */
  lemma RedirectIff(p: string, session: SessionLookup)
    ensures Decide(p, session) == RedirectToLogin <==>
      !IsPublicRoute(p) && !IsPublicApi(p) && StartsWith(p, "/painel") && session != Present
  {
  }

  /** Public paths pass whatever the session is. */
  lemma PublicPassesAnySession(p: string, s1: SessionLookup, s2: SessionLookup)
    requires IsPublicRoute(p) || IsPublicApi(p)
    ensures Decide(p, s1) == Decide(p, s2) == Next
  {
  }

  /** Every path under the "/painel" prefix, "/painelX" included, is guarded: it passes only
      with a session, and a missing session or a failed lookup redirects to the login page. */
  lemma PainelGuarded(p: string, session: SessionLookup)
    requires StartsWith(p, "/painel")
    ensures Decide(p, session) == (if session == Present then Next else RedirectToLogin)
  {
    PublicRouteIff(p);
    PublicApiIff(p);
    assert p[1] == 'p';
  }

  /** Any path that starts with "//" is public, whatever follows. */
  lemma DoubleSlashPublic(p: string, session: SessionLookup)
    requires StartsWith(p, "//")
    ensures Decide(p, session) == Next
  {
    PublicRouteIff(p);
  }

  /** The order API is neither public nor under "/painel": it passes with no session. */
  lemma OrderApiUnguarded(p: string, session: SessionLookup)
    requires StartsWith(p, "/api/pedidos")
    ensures Decide(p, session) == Next
  {
    PublicRouteIff(p);
    PublicApiIff(p);
    assert p[1] == 'a' && p[6] == 'e';
  }
}
