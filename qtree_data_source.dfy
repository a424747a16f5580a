/** The `ontap_qtree` data source (internal/provider/qtree_data_source.go). */
module QtreeDataSource {
  import opened QtreeWire
  import opened Http
  import opened QtreeClient
  import opened ProviderModels

  datatype QtreeDataSourceModel = QtreeDataSourceModel(
    uuid: TfString,
    volumeUuid: TfString,
    name: TfString,
    id: TfInt,
    path: TfString,
    securityStyle: TfString,
    unixPermission: TfInt)

  /** `Read`: fetch the configured identity and store every attribute of the
      record the client returns; the identity is kept as configured. */
  method Read(config: QtreeDataSourceModel, script: seq<Reply>)
    returns (effect: Effect<QtreeDataSourceModel>, rest: seq<Reply>, sent: seq<Request>)
    ensures var g := GetQtreeSpec(Text(config.uuid), script);
      && rest == g.rest && sent == g.sent
      && Reports(effect, g.outcome, "read example")
      && (effect.Stored? <==> g.outcome.Ok?)
      && (g.outcome.Ok? ==> var q := g.outcome.value;
            effect.state == QtreeDataSourceModel(
              StringValue(q.uuid), StringValue(q.volumeUuid), StringValue(q.name), IntValue(q.id),
              StringValue(q.path), StringValue(q.securityStyle), IntValue(q.unixPermission)))
    ensures sent[0] == QtreeClient.FetchRequest(Text(config.uuid))
    ensures effect.Stored? ==> effect.state.uuid == StringValue(Text(config.uuid))
  {
    var fetched;
    fetched, rest, sent := GetQtree(Text(config.uuid), script);
    if !fetched.Ok? {
      effect := Surfaced(fetched, "read example");
      return;
    }
    var q := fetched.value;
    var data := config;
    data := data.(uuid := StringValue(q.uuid));
    data := data.(id := IntValue(q.id));
    data := data.(name := StringValue(q.name));
    data := data.(volumeUuid := StringValue(q.volumeUuid));
    data := data.(path := StringValue(q.path));
    data := data.(securityStyle := StringValue(q.securityStyle));
    data := data.(unixPermission := IntValue(q.unixPermission));
    effect := Stored(data);
  }
}
