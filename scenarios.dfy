/** The unit tests' scenarios, stated over the reconcile function. */
module CharmScenarios {

  import opened Strings
  import opened Validation
  import opened RouteDocument
  import opened Charm

  const App := "traefik-k8s-path-redirector"

  /** Valid paths and no traefik-route relation: the unit waits. */
  lemma WaitingWithoutRelation()
    ensures Reconciled(App, Host(map[FromPathKey := "/from", ToPathKey := "/to"], map[], false, Unknown)).status.Waiting?
  {
  }

  /** A from-path without its leading slash blocks, and the message names `from_path`. */
  lemma InvalidConfigBlocksScenario(relations: map<string, Databag>, leader: bool)
    ensures
      var config := map[FromPathKey := "from", ToPathKey := "/to", "from_path_is_regex" := "False"];
      var status := Reconciled(App, Host(config, relations, leader, Unknown)).status;
      status.Blocked? && Contains(status.message, "from_path")
  {
    assert Strip("from") == "from" && Strip("/to") == "/to";
    ErrorsNameTheirField("from", "/to");
  }

  /** The leader with the relation publishes the `/from` to `/to` document and goes active. */
  lemma RelationDataPublished()
    ensures
      var config := map[FromPathKey := "/from", ToPathKey := "/to", "from_path_is_regex" := "False"];
      var r := Reconciled(App, Host(config, map[RelationName := map[]], true, Unknown));
      && r.status == Active("")
      && r.relations[RelationName] == map[ConfigKey := Document(BuildTraefikConfig(App, "/from", "/to"))]
  {
    assert Strip("/from") == "/from" && Strip("/to") == "/to";
  }
}
