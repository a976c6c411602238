/**
 * The charm's reconcile handler (src/charm.py, `_on_reconcile`) and the
 * events that trigger it. `Reconciled` says, as a function of the host state,
 * what one reconcile leaves behind; `RedirectorCharm.Reconcile` is the
 * step-by-step handler, proved to do exactly that.
 */
module Charm {

  import opened Wrappers
  import opened Strings
  import opened Validation
  import opened RouteDocument

  /** The relation endpoint the route is published on. */
  const RelationName := "traefik-route"

  const FromPathKey := "from_path"
  const ToPathKey := "to_path"
  /** The key of the application databag that holds the published document. */
  const ConfigKey := "config"

  const WaitingForRelation := "waiting for traefik-route relation"
  const WaitingForLeader := "waiting for leader"

  /** The unit status; `Unknown` is what the host shows before the charm sets one. */
  datatype Status = Unknown | Active(message: string) | Blocked(message: string) | Waiting(message: string)

  /** A databag value: the published document, or any other string already there. */
  datatype DataValue = Text(text: string) | Document(doc: TraefikConfig)

  type Databag = map<string, DataValue>

  /**
   * What one reconcile reads and may change: the configuration, this
   * application's databag on each related endpoint, leadership and the status.
   */
  datatype Host = Host(
    config: map<string, string>,
    relations: map<string, Databag>,
    leader: bool,
    status: Status)

  /** The configuration key whose lookup raises `KeyError`, if any; `from_path` is read first. */
  function MissingKey(config: map<string, string>): (key: Option<string>)
    ensures key == None <==> FromPathKey in config && ToPathKey in config
    ensures key.Some? ==> key.value !in config
    ensures FromPathKey !in config ==> key == Some(FromPathKey)
  {
    if FromPathKey !in config then Some(FromPathKey)
    else if ToPathKey !in config then Some(ToPathKey)
    else None
  }

  /** The configured paths, stripped, when both options are set. */
  function ConfiguredPaths(config: map<string, string>): (r: Option<Redirect>)
    ensures r.Some? <==> MissingKey(config) == None
    ensures r.Some? ==> Trimmed(r.value.fromPath) && Trimmed(r.value.toPath)
  {
    if MissingKey(config).Some? then None
    else Some(Redirect(Strip(config[FromPathKey]), Strip(config[ToPathKey])))
  }

  /** The host state after one reconcile of application `app`. */
  function Reconciled(app: string, h: Host): (r: Host)
    ensures r.config == h.config && r.leader == h.leader
    ensures r.relations.Keys == h.relations.Keys
  {
    match ConfiguredPaths(h.config)
    case None => h
    case Some(paths) => ReconciledWith(app, paths, h)
  }

  /** The rest of a reconcile once the stripped paths are known; it reads nothing else of the configuration. */
  function ReconciledWith(app: string, paths: Redirect, h: Host): (r: Host)
    ensures r.config == h.config && r.leader == h.leader
    ensures r.relations.Keys == h.relations.Keys
  {
    match ValidatePaths(paths.fromPath, paths.toPath)
    case Some(error) => h.(status := Blocked(error))
    case None =>
      if RelationName !in h.relations then h.(status := Waiting(WaitingForRelation))
      else if !h.leader then h.(status := Waiting(WaitingForLeader))
      else
        var bag := h.relations[RelationName];
        var doc := BuildTraefikConfig(app, paths.fromPath, paths.toPath);
        h.(relations := h.relations[RelationName := bag[ConfigKey := Document(doc)]],
           status := Active(""))
  }

  /**
   * Invalid configuration blocks with the validation error and publishes
   * nothing, whether or not the relation exists and whoever leads.
   */
  lemma InvalidConfigBlocks(app: string, h: Host, paths: Redirect, error: string)
    requires ConfiguredPaths(h.config) == Some(paths)
    requires ValidatePaths(paths.fromPath, paths.toPath) == Some(error)
    ensures Reconciled(app, h).status == Blocked(error)
    ensures Reconciled(app, h).relations == h.relations
  {
  }

  /** Valid configuration without the relation waits for it and publishes nothing. */
  lemma NoRelationWaits(app: string, h: Host, paths: Redirect)
    requires ConfiguredPaths(h.config) == Some(paths)
    requires ValidatePaths(paths.fromPath, paths.toPath) == None
    requires RelationName !in h.relations
    ensures Reconciled(app, h).status == Waiting(WaitingForRelation)
    ensures Reconciled(app, h).relations == h.relations
  {
  }

  /** A unit that does not lead waits, and leaves the relation data as it was. */
  lemma NonLeaderWaits(app: string, h: Host, paths: Redirect)
    requires ConfiguredPaths(h.config) == Some(paths)
    requires ValidatePaths(paths.fromPath, paths.toPath) == None
    requires RelationName in h.relations && !h.leader
    ensures Reconciled(app, h).status == Waiting(WaitingForLeader)
    ensures Reconciled(app, h).relations == h.relations
  {
  }

  /**
   * On the success path only the `config` key of this application's databag
   * on the traefik-route relation changes: it holds the document built from
   * the stripped configured paths, which is the one document that reads back
   * to exactly those paths, and the unit is active.
   */
  lemma LeaderPublishes(app: string, h: Host, paths: Redirect)
    requires ConfiguredPaths(h.config) == Some(paths)
    requires ValidatePaths(paths.fromPath, paths.toPath) == None
    requires RelationName in h.relations && h.leader
    ensures var r := Reconciled(app, h);
      && r.status == Active("")
      && r.relations[RelationName].Keys == h.relations[RelationName].Keys + {ConfigKey}
      && r.relations[RelationName][ConfigKey] == Document(BuildTraefikConfig(app, paths.fromPath, paths.toPath))
      && RedirectOf(app, r.relations[RelationName][ConfigKey].doc) == Some(paths)
      && (forall k :: k in h.relations[RelationName] && k != ConfigKey ==>
            r.relations[RelationName][k] == h.relations[RelationName][k])
      && (forall e :: e in h.relations && e != RelationName ==> r.relations[e] == h.relations[e])
  {
    var doc := BuildTraefikConfig(app, paths.fromPath, paths.toPath);
    var bag := h.relations[RelationName];
    assert Reconciled(app, h) == ReconciledWith(app, paths, h);
    assert Reconciled(app, h).relations == h.relations[RelationName := bag[ConfigKey := Document(doc)]];
    BuildRoundTrip(app, paths.fromPath, paths.toPath);
  }

  /** A missing option raises before anything is changed. */
  lemma MissingKeyChangesNothing(app: string, h: Host)
    requires MissingKey(h.config).Some?
    ensures Reconciled(app, h) == h
  {
  }

  /**
   * The unit ends up active exactly when both options are set and valid, the
   * relation exists and the unit leads; relation data changes only then.
   */
  lemma ActiveIff(app: string, h: Host, paths: Redirect)
    requires ConfiguredPaths(h.config) == Some(paths)
    ensures Reconciled(app, h).status.Active? <==>
      && ValidatePaths(paths.fromPath, paths.toPath) == None
      && RelationName in h.relations
      && h.leader
    ensures Reconciled(app, h).relations != h.relations ==> Reconciled(app, h).status.Active?
  {
  }

  /** Reconciling twice leaves the same state, and publishes the same document, as reconciling once. */
  lemma {:induction false} ReconcileIdempotent(app: string, h: Host)
    ensures Reconciled(app, Reconciled(app, h)) == Reconciled(app, h)
  {
    var r := Reconciled(app, h);
    if ConfiguredPaths(h.config).Some? {
      var paths := ConfiguredPaths(h.config).value;
      assert Reconciled(app, r) == ReconciledWith(app, paths, r);
      if ValidatePaths(paths.fromPath, paths.toPath) == None && RelationName in h.relations && h.leader {
        var bag := r.relations[RelationName];
        assert bag[ConfigKey := bag[ConfigKey]] == bag;
        assert r.relations[RelationName := bag] == r.relations;
      }
    }
  }

  /**
   * Whitespace around either configured path changes neither the status nor
   * what is published.
   */
  lemma PaddingIgnored(app: string, h: Host, lead1: string, trail1: string, lead2: string, trail2: string)
    requires MissingKey(h.config) == None
    requires AllSpace(lead1) && AllSpace(trail1) && AllSpace(lead2) && AllSpace(trail2)
    ensures
      var padded := h.(config := h.config[FromPathKey := lead1 + h.config[FromPathKey] + trail1]
                                         [ToPathKey := lead2 + h.config[ToPathKey] + trail2]);
      && Reconciled(app, padded).status == Reconciled(app, h).status
      && Reconciled(app, padded).relations == Reconciled(app, h).relations
  {
    var padded := h.(config := h.config[FromPathKey := lead1 + h.config[FromPathKey] + trail1]
                                       [ToPathKey := lead2 + h.config[ToPathKey] + trail2]);
    StripIgnoresPadding(lead1, h.config[FromPathKey], trail1);
    StripIgnoresPadding(lead2, h.config[ToPathKey], trail2);
    assert ConfiguredPaths(padded.config) == ConfiguredPaths(h.config);
    OnlyStrippedPathsMatter(app, padded, h);
  }

  /** A reconcile reads the configuration only through the stripped paths. */
  lemma OnlyStrippedPathsMatter(app: string, h1: Host, h2: Host)
    requires ConfiguredPaths(h1.config) == ConfiguredPaths(h2.config)
    requires h1.relations == h2.relations && h1.leader == h2.leader && h1.status == h2.status
    ensures Reconciled(app, h1).status == Reconciled(app, h2).status
    ensures Reconciled(app, h1).relations == Reconciled(app, h2).relations
  {
    if ConfiguredPaths(h1.config).Some? {
      var paths := ConfiguredPaths(h1.config).value;
      var h2' := h2.(config := h1.config);
      assert h2' == h1;
      assert ReconciledWith(app, paths, h2) == ReconciledWith(app, paths, h2').(config := h2.config);
    }
  }

  /** The hooks the charm registers a handler for; each one runs the reconcile. */
  datatype Event =
    | ConfigChanged
    | RelationCreated(endpoint: string)
    | RelationJoined(endpoint: string)
    | RelationChanged(endpoint: string)
    | RelationBroken(endpoint: string)
    | LeaderElected
    | UpgradeCharm
    | OtherEvent(name: string)

  /** Configuration, leadership and upgrade events, and lifecycle events of the traefik-route relation. */
  predicate Observed(e: Event) {
    match e
    case ConfigChanged => true
    case RelationCreated(endpoint) => endpoint == RelationName
    case RelationJoined(endpoint) => endpoint == RelationName
    case RelationChanged(endpoint) => endpoint == RelationName
    case RelationBroken(endpoint) => endpoint == RelationName
    case LeaderElected => true
    case UpgradeCharm => true
    case OtherEvent(_) => false
  }

  /** The host's view of one unit of the application, as the handler sees and updates it. */
  class RedirectorCharm {
    const app: string
    var config: map<string, string>
    var relations: map<string, Databag>
    var leader: bool
    var status: Status

    function State(): Host
      reads this
    {
      Host(config, relations, leader, status)
    }

    constructor (app: string, config: map<string, string>, relations: map<string, Databag>, leader: bool)
      ensures this.app == app
      ensures State() == Host(config, relations, leader, Unknown)
    {
      this.app := app;
      this.config := config;
      this.relations := relations;
      this.leader := leader;
      this.status := Unknown;
    }

    /**
     * `_on_reconcile`: strip and validate the paths, then give up early when
     * the relation is absent or the unit does not lead; otherwise publish the
     * document and go active. Returns the option whose lookup raised, if any.
     */
    method Reconcile() returns (raised: Option<string>)
      modifies this
      ensures State() == Reconciled(app, old(State()))
      ensures raised == MissingKey(old(config))
    {
      if FromPathKey !in config {
        return Some(FromPathKey);
      }
      var fromPath := Strip(config[FromPathKey]);
      if ToPathKey !in config {
        return Some(ToPathKey);
      }
      var toPath := Strip(config[ToPathKey]);
      var error := ValidatePaths(fromPath, toPath);
      if error.Some? {
        status := Blocked(error.value);
        return None;
      }

      if RelationName !in relations {
        status := Waiting(WaitingForRelation);
        return None;
      }

      if !leader {
        status := Waiting(WaitingForLeader);
        return None;
      }

      var bag := relations[RelationName];
      bag := bag[ConfigKey := Document(BuildTraefikConfig(app, fromPath, toPath))];
      relations := relations[RelationName := bag];
      status := Active("");
      return None;
    }

    /** Dispatches one event: observed events run the reconcile, others change nothing. */
    method Handle(e: Event) returns (raised: Option<string>)
      modifies this
      ensures Observed(e) ==> State() == Reconciled(app, old(State())) && raised == MissingKey(old(config))
      ensures !Observed(e) ==> State() == old(State()) && raised == None
    {
      if Observed(e) {
        raised := Reconcile();
      } else {
        raised := None;
      }
    }
  }
}

