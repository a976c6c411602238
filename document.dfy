/**
 * The Traefik dynamic-configuration document the charm publishes
 * (src/charm.py, `_build_traefik_config`), as a datatype rather than JSON.
 */
module RouteDocument {

  import opened Wrappers
  import opened Strings
  import opened RegexEscape

  datatype Router = Router(rule: string, service: string, middlewares: seq<string>)

  datatype RedirectRegex = RedirectRegex(regex: string, replacement: string, permanent: bool)

  datatype Middleware = Middleware(redirectRegex: RedirectRegex)

  datatype HttpSection = HttpSection(routers: map<string, Router>, middlewares: map<string, Middleware>)

  /** The whole document: `{"http": {"routers": ..., "middlewares": ...}}`. */
  datatype TraefikConfig = TraefikConfig(http: HttpSection)

  /** The two paths a published document redirects between. */
  datatype Redirect = Redirect(fromPath: string, toPath: string)

  /** Traefik's built-in service that answers nothing; the middleware does all the work. */
  const NoopService := "noop@internal"

  const RuleHead := "PathPrefix(`"
  const RuleTail := "`)"
  /** Group 1 captures scheme and host; group 2 whatever follows the matched path. */
  const RegexHead := "^(https?://[^/]+)"
  const RegexTail := "(.*)$"
  const ReplacementHead := "${1}"
  const ReplacementTail := "${2}"

  function RouterName(app: string): string {
    app + "-path-redirect"
  }

  function MiddlewareName(app: string): string {
    app + "-path-redirect-middleware"
  }

  /**
   * Every router sends to the no-op service and references only middlewares
   * the document defines, and every middleware is a permanent redirect.
   */
  predicate WellFormed(doc: TraefikConfig) {
    && (forall name :: name in doc.http.routers ==>
          && doc.http.routers[name].service == NoopService
          && (forall m :: m in doc.http.routers[name].middlewares ==> m in doc.http.middlewares))
    && (forall name :: name in doc.http.middlewares ==> doc.http.middlewares[name].redirectRegex.permanent)
  }

  /**
   * The document for one redirect: exactly one router, named after the
   * application, whose only middleware is the one redirect middleware.
   */
  function BuildTraefikConfig(app: string, fromPath: string, toPath: string): (doc: TraefikConfig)
    ensures doc.http.routers.Keys == {RouterName(app)}
    ensures doc.http.middlewares.Keys == {MiddlewareName(app)}
    ensures doc.http.routers[RouterName(app)].middlewares == [MiddlewareName(app)]
    ensures WellFormed(doc)
  {
    var routerName := RouterName(app);
    var middlewareName := MiddlewareName(app);
    var redirectRegex := RegexHead + Escape(fromPath) + RegexTail;
    var replacement := ReplacementHead + toPath + ReplacementTail;
    TraefikConfig(HttpSection(
      map[routerName := Router(RuleHead + fromPath + RuleTail, NoopService, [middlewareName])],
      map[middlewareName := Middleware(RedirectRegex(redirectRegex, replacement, true))]))
  }

  /**
   * Reads back which paths a document redirects between; `None` unless the
   * document has exactly the shape the charm publishes for `app`: one
   * well-formed router using only the one middleware, a prefix rule, a
   * literal redirect regex for the same path as the rule, and a replacement
   * that keeps the host and the rest of the path.
   */
  function RedirectOf(app: string, doc: TraefikConfig): (r: Option<Redirect>)
    ensures r.Some? ==> WellFormed(doc)
    ensures r.Some? ==> doc.http.routers.Keys == {RouterName(app)} && doc.http.middlewares.Keys == {MiddlewareName(app)}
  {
    var routerName := RouterName(app);
    var middlewareName := MiddlewareName(app);
    if doc.http.routers.Keys != {routerName} || doc.http.middlewares.Keys != {middlewareName} || !WellFormed(doc) then None
    else
      var router := doc.http.routers[routerName];
      var redirect := doc.http.middlewares[middlewareName].redirectRegex;
      if router.middlewares != [middlewareName] then None
      else
        match (Unwrap(RuleHead, router.rule, RuleTail), Unwrap(ReplacementHead, redirect.replacement, ReplacementTail))
        case (Some(fromPath), Some(toPath)) =>
          if RegexPath(redirect.regex) == Some(fromPath) then Some(Redirect(fromPath, toPath)) else None
        case _ => None
  }

  /**
   * The path a redirect regex of the charm's shape matches after the host,
   * read back from its escaped form.
   */
  function RegexPath(regex: string): (r: Option<string>)
  {
    match Unwrap(RegexHead, regex, RegexTail)
    case Some(escaped) => if IsLiteralPattern(escaped) then Some(Unescape(escaped)) else None
    case None => None
  }

  /**
   * The router rule and the middleware regex of a built document both read
   * back to the from-path it was built from.
   */
  lemma RegexReadsBackFromPath(app: string, fromPath: string, toPath: string)
    ensures var doc := BuildTraefikConfig(app, fromPath, toPath);
      && Unwrap(RuleHead, doc.http.routers[RouterName(app)].rule, RuleTail) == Some(fromPath)
      && RegexPath(doc.http.middlewares[MiddlewareName(app)].redirectRegex.regex) == Some(fromPath)
  {
    UnwrapWrap(RuleHead, fromPath, RuleTail);
    UnwrapWrap(RegexHead, Escape(fromPath), RegexTail);
    UnescapeEscape(fromPath);
  }

  /** A built document reads back to exactly the paths it was built from. */
  lemma BuildRoundTrip(app: string, fromPath: string, toPath: string)
    ensures RedirectOf(app, BuildTraefikConfig(app, fromPath, toPath)) == Some(Redirect(fromPath, toPath))
  {
    RegexReadsBackFromPath(app, fromPath, toPath);
    UnwrapWrap(ReplacementHead, toPath, ReplacementTail);
  }

  /**
   * Conversely, the only document that reads back to a pair of paths is the
   * one built from them: rule, service, middleware list, regex, replacement
   * and permanence are all fixed by the two paths.
   */
  lemma OnlyBuiltDocumentReadsBack(app: string, doc: TraefikConfig, fromPath: string, toPath: string)
    requires RedirectOf(app, doc) == Some(Redirect(fromPath, toPath))
    ensures doc == BuildTraefikConfig(app, fromPath, toPath)
  {
    var routerName := RouterName(app);
    var middlewareName := MiddlewareName(app);
    var built := BuildTraefikConfig(app, fromPath, toPath);
    var router := doc.http.routers[routerName];
    var redirect := doc.http.middlewares[middlewareName].redirectRegex;
    assert Unwrap(RuleHead, router.rule, RuleTail) == Some(fromPath);
    assert Unwrap(ReplacementHead, redirect.replacement, ReplacementTail) == Some(toPath);
    var escaped := Unwrap(RegexHead, redirect.regex, RegexTail).value;
    assert IsLiteralPattern(escaped) && Unescape(escaped) == fromPath;
    EscapeUnescape(escaped);
    assert router == built.http.routers[routerName];
    assert redirect == built.http.middlewares[middlewareName].redirectRegex;
    assert doc.http.routers == built.http.routers;
    assert doc.http.middlewares == built.http.middlewares;
  }

  /** Building is injective in the two paths. */
  lemma BuildInjective(app: string, f1: string, t1: string, f2: string, t2: string)
    requires BuildTraefikConfig(app, f1, t1) == BuildTraefikConfig(app, f2, t2)
    ensures f1 == f2 && t1 == t2
  {
    BuildRoundTrip(app, f1, t1);
    BuildRoundTrip(app, f2, t2);
  }

  /**
   * The names the charm's own application, traefik-k8s-path-redirector, gives
   * its router and middleware.
   */
  lemma CharmNames()
    ensures RouterName("traefik-k8s-path-redirector") == "traefik-k8s-path-redirector-path-redirect"
    ensures MiddlewareName("traefik-k8s-path-redirector") == "traefik-k8s-path-redirector-path-redirect-middleware"
  {
  }

  /** For a `/from` to `/to` redirect the router matches the prefix `/from`. */
  lemma RouterExample(app: string)
    ensures BuildTraefikConfig(app, "/from", "/to").http.routers[RouterName(app)] ==
      Router("PathPrefix(`/from`)", "noop@internal", [MiddlewareName(app)])
  {
    assert RuleHead + "/from" + RuleTail == "PathPrefix(`/from`)";
  }

  /**
   * For a `/from` to `/to` redirect the middleware's regex holds `/from`
   * unescaped and its replacement keeps the host and the rest of the path.
   */
  lemma MiddlewareExample(app: string)
    ensures BuildTraefikConfig(app, "/from", "/to").http.middlewares[MiddlewareName(app)].redirectRegex ==
      RedirectRegex("^(https?://[^/]+)/from(.*)$", "${1}/to${2}", true)
  {
    var s := "/from";
    forall i | 0 <= i < |s| ensures !IsSpecial(s[i]) {
      PlainCharacters(s[i]);
    }
    EscapeKeepsPlain(s);
    assert RegexHead + "/from" + RegexTail == "^(https?://[^/]+)/from(.*)$";
    assert ReplacementHead + "/to" + ReplacementTail == "${1}/to${2}";
  }
}
