# Traefik path redirector charm, modelled in Dafny

The charm (`src/charm.py`) is a Kubernetes operator that publishes one
path redirect to Traefik. Whenever the host dispatches one of its events, it
runs a single reconcile:

1. It reads the `from_path` and `to_path` options and strips the whitespace
   around them.
2. It validates them. Each path must be non-empty and start with `/`. The
   from-path is checked first.
3. An invalid path sets the unit `Blocked`, with the error as the message.
4. With no `traefik-route` relation, the unit is set `Waiting`.
5. A unit that is not the leader is set `Waiting`.
6. Otherwise the charm builds the Traefik dynamic-configuration document. It
   writes the document under the `config` key of its application databag on
   the relation, and sets the unit `Active`.

The document has one router, `<app>-path-redirect`. The router's rule is
``PathPrefix(`<from>`)``, its service is `noop@internal`, and it uses one
middleware, `<app>-path-redirect-middleware`. That middleware is a permanent
`redirectRegex`. Its regex is `^(https?://[^/]+)<re.escape(from)>(.*)$` and its
replacement is `${1}<to>${2}`.

Modules:

- `Wrappers` (wrappers.dfy): `Option`.
- `Strings` (strings.dfy): Python's `str.strip()` with its exact whitespace
  set, `startswith` and `in`. Also `Unwrap`, which cuts a known head and
  tail off a string.
- `Validation` (validation.dfy): `_validate_paths`.
- `RegexEscape` (escape.dfy): Python's `re.escape` (Python 3.7 and later
  special set). `Unescape` is its inverse, and `IsLiteralPattern` says that
  an escaped pattern has no live metacharacter.
- `RouteDocument` (document.dfy): the document as datatypes, and
  `_build_traefik_config`. `RedirectOf` reads back the two paths from a
  document of exactly the charm's shape. It checks the router and middleware
  names, the no-op service, the middleware list, permanence, the prefix rule,
  the redirect regex and the replacement. It is the builder's inverse:
  `BuildRoundTrip` proves one direction and `OnlyBuiltDocumentReadsBack` the
  other.
- `Charm` (charm.dfy): the host state seen by one reconcile (`Host`). The
  pure function `Reconciled` says what one reconcile leaves behind. The class
  `RedirectorCharm` holds the fields the handler updates in place. Its method
  `Reconcile` is the handler, with the source's early returns, and is proved
  equal to `Reconciled`. `Handle` is the event dispatch table.
- `CharmScenarios` (scenarios.dfy): the three unit-test scenarios the source
  supports, stated over `Reconciled`.

## Model

| member | source | states |
|---|---|---|
| `Strings.Strip` | src/charm.py:42-43 | the stripped value has no whitespace at either end, is no longer than the input, and a value with no surrounding whitespace is returned unchanged |
| `Strings.StripIgnoresPadding` | src/charm.py:42-43 | padding a value with whitespace on either side does not change its stripped form |
| `Strings.StripsToEmptyIffAllSpace` | src/charm.py:42-43 | stripping the leading whitespace removes a value entirely exactly when it is all whitespace |
| `Strings.StripIdempotent` | src/charm.py:42-43 | stripping twice is the same as stripping once |
| `Validation.ValidatePaths` | src/charm.py:63-68 | no error exactly when both paths are non-empty and start with `/`; a bad from-path gives the from-path error whatever the to-path is; otherwise a bad to-path gives the to-path error |
| `Validation.ErrorsNameTheirField` | src/charm.py:64-67 | the from-path error message contains `from_path` and the to-path message contains `to_path` |
| `RegexEscape.Escape` | src/charm.py:73 | the escaped from-path is a literal pattern: every special character carries a backslash, and every backslash escapes a special character |
| `RegexEscape.UnescapeEscape` | src/charm.py:73 | escaping loses nothing: unescaping the escaped path gives the path back |
| `RegexEscape.EscapeUnescape` | src/charm.py:73 | every literal pattern is the escape of what it reads back to, so `Escape` is onto the literal patterns |
| `RegexEscape.EscapeInjective` | src/charm.py:73 | distinct from-paths give distinct escaped patterns |
| `RegexEscape.EscapeKeepsPlain` | src/charm.py:73 | a path with no special character is its own escape |
| `RegexEscape.PlainCharacters` | src/charm.py:73 | `/`, letters and digits are never escaped |
| `RouteDocument.BuildTraefikConfig` | src/charm.py:70-95 | the document has exactly one router, named `<app>-path-redirect`, and exactly one middleware, named `<app>-path-redirect-middleware`; the router's middleware list is exactly that middleware; every router uses `noop@internal` and only defined middlewares; every middleware is permanent |
| `RouteDocument.BuildRoundTrip` | src/charm.py:70-95 | a built document passes every shape check of `RedirectOf` and reads back to exactly the from-path and to-path it was built from |
| `RouteDocument.OnlyBuiltDocumentReadsBack` | src/charm.py:70-95 | the only document that reads back to a pair of paths is the one built from them: its router, rule, service, middleware list, regex, replacement and permanence are all fixed by the two paths |
| `RouteDocument.RegexReadsBackFromPath` | src/charm.py:73-88 | in a built document, the router rule with its `PathPrefix` wrapper taken off, and the middleware regex with its host group and tail group taken off and unescaped, both give the from-path |
| `RouteDocument.BuildInjective` | src/charm.py:70-95 | two equal documents for the same application were built from the same pair of paths |
| `RouteDocument.CharmNames` | src/charm.py:71-72 | for the application `traefik-k8s-path-redirector` the names are `traefik-k8s-path-redirector-path-redirect` and `traefik-k8s-path-redirector-path-redirect-middleware` |
| `RouteDocument.RouterExample` | src/charm.py:78-84 | for `/from` the router is ``PathPrefix(`/from`)`` to `noop@internal` through the one middleware |
| `RouteDocument.MiddlewareExample` | src/charm.py:73-92 | for `/from` to `/to` the regex is `^(https?://[^/]+)/from(.*)$`, the replacement `${1}/to${2}`, and the redirect is permanent |
| `Charm.MissingKey` | src/charm.py:42-43 | the lookup fails exactly when an option is absent, and it names an absent option; when `from_path` is absent it names `from_path`, since that option is read first |
| `Charm.ConfiguredPaths` | src/charm.py:42-43 | both stripped paths exist exactly when both options are set, and neither has whitespace at its ends |
| `Charm.Reconciled` | src/charm.py:41-61 | a reconcile never changes the configuration, the leadership or which relations exist |
| `Charm.ReconciledWith` | src/charm.py:44-61 | the same, for the part of the reconcile after the paths are read |
| `Charm.InvalidConfigBlocks` | src/charm.py:44-47 | invalid paths set `Blocked` with the validation error and leave all relation data unchanged, with or without the relation and leadership |
| `Charm.NoRelationWaits` | src/charm.py:49-52 | valid paths without the traefik-route relation set `Waiting("waiting for traefik-route relation")` and publish nothing |
| `Charm.NonLeaderWaits` | src/charm.py:54-56 | valid paths, the relation, but no leadership set `Waiting("waiting for leader")` and leave relation data unchanged |
| `Charm.LeaderPublishes` | src/charm.py:58-61 | on the success path the status is `Active("")`; only the `config` key of the traefik-route databag is written; it holds exactly the document built from the two stripped paths, which reads back to those paths; every other key and every other relation is unchanged |
| `Charm.MissingKeyChangesNothing` | src/charm.py:42-43 | when an option lookup raises, nothing changes |
| `Charm.ActiveIff` | src/charm.py:44-61 | with both options set, the unit ends up active exactly when the paths are valid, the relation exists and the unit leads; relation data changes only when it ends up active |
| `Charm.ReconcileIdempotent` | src/charm.py:41-61 | reconciling twice leaves the same state, including the same published document, as reconciling once |
| `Charm.PaddingIgnored` | src/charm.py:42-43 | whitespace around either option changes neither the resulting status nor the relation data |
| `Charm.OnlyStrippedPathsMatter` | src/charm.py:42-61 | the reconcile sees the configuration only through the two stripped paths |
| `Charm.RedirectorCharm.constructor` | src/charm.py:30-31 | a new charm holds the given configuration, relations and leadership, with status `Unknown` |
| `Charm.RedirectorCharm.Reconcile` | src/charm.py:41-61 | the handler, with its early returns, leaves the charm in exactly the state `Reconciled` gives for the old state, and reports the option whose lookup raised |
| `Charm.RedirectorCharm.Handle` | src/charm.py:32-39 | config-changed, leader-elected, upgrade-charm and the four traefik-route relation events run the reconcile; every other event changes nothing |
| `CharmScenarios.WaitingWithoutRelation` | tests/unit/test_charm.py:13-19 | valid paths without the relation give a `Waiting` status |
| `CharmScenarios.InvalidConfigBlocksScenario` | tests/unit/test_charm.py:22-31 | the from-path `from` gives a `Blocked` status whose message contains `from_path`, whatever the relations and leadership |
| `CharmScenarios.RelationDataPublished` | tests/unit/test_charm.py:34-56 | the leader with the relation goes `Active` and its databag holds exactly the `/from` to `/to` document |

## Left out

- Event wiring through `framework.observe` and `ops.main` (src/charm.py:30-39, 98-99) is host dispatch. It is modelled only as the table in `RedirectorCharm.Handle`. What `get_relation` returns during relation-broken is decided by the host and is not modelled.
- `str(...)` applied to the option values (src/charm.py:42-43) is not modelled. Options are strings already, so a boolean or number option and its Python rendering are outside the model.
- `json.dumps` (src/charm.py:58) is not modelled. The databag holds the document as a `Document` value, and any other string there is a `Text` value.
- Regex matching by Traefik's engine is not modelled. Only the produced regex string is modelled, with `IsLiteralPattern` as the structural guarantee that the escaped path has no live metacharacter.
- `get_relation` raising when an endpoint has more than one relation is not modelled. The model gives each endpoint at most one databag.
- Logging is left out. The `ops` status classes are reduced to `Unknown`, `Active`, `Blocked` and `Waiting`, each with a message.
- The tests in tests/unit/test_charm.py:59-103 expect a `from_path_is_regex` option, a regex from-path with its anchors stripped, and an absolute-URL to-path. src/charm.py implements none of these: it ignores `from_path_is_regex`, and its validation blocks `^/old(/.*)?$` and `https://ubuntu.net/hello`. The model follows the source, so those two tests are not modelled. Multiple redirects and a duplicated TLS router are not in this source either.
- `RegexEscape.Escape` follows the special-character set of Python 3.7 and later. The escaping of earlier Python versions is not modelled.
