/** The `ontap_qtree` resource (internal/provider/qtree_resource.go): plan and
    state handling around the qtree client calls. */
module QtreeResource {
  import opened Wrappers
  import opened QtreeWire
  import opened Http
  import opened QtreeClient
  import opened ProviderModels

  /** `QtreeResourceModel`; `uuid` is the `<volume uuid>/<qtree id>` identity. */
  datatype QtreeResourceModel = QtreeResourceModel(
    uuid: TfString,
    svmUuid: TfString,
    volumeUuid: TfString,
    name: TfString,
    qtreeId: TfInt,
    path: TfString,
    securityStyle: TfString,
    unixPermission: TfInt)

  /** Every attribute as the client's record has it. */
  function StateOf(q: Qtree): (m: QtreeResourceModel)
    ensures m.uuid == StringValue(q.uuid) && m.svmUuid == StringValue(q.svmUuid)
    ensures m.volumeUuid == StringValue(q.volumeUuid) && m.name == StringValue(q.name)
    ensures m.qtreeId == IntValue(q.id) && m.path == StringValue(q.path)
    ensures m.securityStyle == StringValue(q.securityStyle) && m.unixPermission == IntValue(q.unixPermission)
  {
    QtreeResourceModel(
      StringValue(q.uuid), StringValue(q.svmUuid), StringValue(q.volumeUuid), StringValue(q.name),
      IntValue(q.id), StringValue(q.path), StringValue(q.securityStyle), IntValue(q.unixPermission))
  }

  /** The record `Create` hands to the client: the plan's name, SVM, volume,
      security style and permissions, every other field at its zero value. */
  function CreateRecord(plan: QtreeResourceModel): (q: Qtree)
    ensures q.uuid == "" && q.id == 0 && q.path == ""
    ensures q.svm == NoRef && q.volume == NoRef
    ensures q.name == Text(plan.name) && q.svmUuid == Text(plan.svmUuid) && q.volumeUuid == Text(plan.volumeUuid)
    ensures q.securityStyle == Text(plan.securityStyle) && q.unixPermission == Number(plan.unixPermission)
  {
    ZeroQtree.(name := Text(plan.name), svmUuid := Text(plan.svmUuid), volumeUuid := Text(plan.volumeUuid),
               securityStyle := Text(plan.securityStyle), unixPermission := Number(plan.unixPermission))
  }

  /** `Create`: the state is the created qtree as the server reports it, and
      its identity is `<volume uuid>/<id>` for the planned volume. */
  method Create(plan: QtreeResourceModel, script: seq<Reply>)
    returns (effect: Effect<QtreeResourceModel>, rest: seq<Reply>, sent: seq<Request>)
    ensures var c := CreateQtreeSpec(CreateRecord(plan), script);
      && rest == c.rest && sent == c.sent
      && Reports(effect, c.outcome, "create qtree")
      && (effect.Stored? <==> c.outcome.Ok?)
      && (c.outcome.Ok? ==> effect.state == StateOf(c.outcome.value))
    ensures sent[0] == QtreeClient.CreateRequest(CreateRecord(plan))
    ensures effect.Stored? ==> exists id :: effect.state.uuid == StringValue(Identity(Text(plan.volumeUuid), id))
  {
    var qtree := ZeroQtree;
    qtree := qtree.(name := Text(plan.name));
    qtree := qtree.(svmUuid := Text(plan.svmUuid));
    qtree := qtree.(volumeUuid := Text(plan.volumeUuid));
    qtree := qtree.(securityStyle := Text(plan.securityStyle));
    qtree := qtree.(unixPermission := Number(plan.unixPermission));
    var created;
    created, rest, sent := CreateQtree(qtree, script);
    if !created.Ok? {
      effect := Surfaced(created, "create qtree");
      return;
    }
    effect := Stored(StateOf(created.value));
  }

  /** `Read`: refresh every attribute from the server except `svm_uuid`,
      which keeps its prior value. */
  method Read(state: QtreeResourceModel, script: seq<Reply>)
    returns (effect: Effect<QtreeResourceModel>, rest: seq<Reply>, sent: seq<Request>)
    ensures var g := GetQtreeSpec(Text(state.uuid), script);
      && rest == g.rest && sent == g.sent
      && Reports(effect, g.outcome, "read qtree")
      && (effect.Stored? <==> g.outcome.Ok?)
      && (g.outcome.Ok? ==> effect.state == StateOf(g.outcome.value).(svmUuid := state.svmUuid))
    ensures sent[0] == QtreeClient.FetchRequest(Text(state.uuid))
    ensures effect.Stored? ==> effect.state.uuid == StringValue(Text(state.uuid)) && effect.state.svmUuid == state.svmUuid
  {
    var fetched;
    fetched, rest, sent := GetQtree(Text(state.uuid), script);
    if !fetched.Ok? {
      effect := Surfaced(fetched, "read qtree");
      return;
    }
    var data := state;
    var q := fetched.value;
    data := data.(uuid := StringValue(q.uuid), qtreeId := IntValue(q.id), name := StringValue(q.name));
    data := data.(volumeUuid := StringValue(q.volumeUuid), path := StringValue(q.path));
    data := data.(securityStyle := StringValue(q.securityStyle), unixPermission := IntValue(q.unixPermission));
    effect := Stored(data);
  }

  /** The record `Update` hands to the client: the state's identity with the
      plan's name, security style and permissions. */
  function UpdateRecord(plan: QtreeResourceModel, state: QtreeResourceModel): (q: Qtree)
    ensures q.uuid == Text(state.uuid) && q.name == Text(plan.name)
    ensures q.securityStyle == Text(plan.securityStyle) && q.unixPermission == Number(plan.unixPermission)
    ensures q.svmUuid == "" && q.volumeUuid == "" && q.id == 0 && q.path == ""
  {
    ZeroQtree.(uuid := Text(state.uuid), name := Text(plan.name),
               securityStyle := Text(plan.securityStyle), unixPermission := Number(plan.unixPermission))
  }

  /** `Update`: PATCH the state's qtree with the plan's attributes; the new
      state is the record the server returns, under the same identity. */
  method Update(plan: QtreeResourceModel, state: QtreeResourceModel, script: seq<Reply>)
    returns (effect: Effect<QtreeResourceModel>, rest: seq<Reply>, sent: seq<Request>)
    ensures var u := UpdateQtreeSpec(UpdateRecord(plan, state), script);
      && rest == u.rest && sent == u.sent
      && Reports(effect, u.outcome, "update qtree")
      && (effect.Stored? <==> u.outcome.Ok?)
      && (u.outcome.Ok? ==> effect.state == StateOf(u.outcome.value))
    ensures sent[0] == Request(Patch, QtreePath(Text(state.uuid)), QtreePayload(RestMarshall(UpdateRecord(plan, state))))
    ensures effect.Stored? ==> effect.state.uuid == StringValue(Text(state.uuid))
  {
    var qtree := ZeroQtree;
    qtree := qtree.(uuid := Text(state.uuid));
    qtree := qtree.(name := Text(plan.name));
    qtree := qtree.(securityStyle := Text(plan.securityStyle));
    qtree := qtree.(unixPermission := Number(plan.unixPermission));
    var updated;
    updated, rest, sent := UpdateQtree(qtree, script);
    if !updated.Ok? {
      effect := Surfaced(updated, "update qtree");
      return;
    }
    effect := Stored(StateOf(updated.value));
  }

  /** `Delete`: DELETE the state's qtree and discard the client's error, so
      no diagnostic is ever reported and Terraform drops the state once the
      call returns, whether or not the qtree went away. */
  method Delete(state: QtreeResourceModel, script: seq<Reply>)
    returns (effect: Effect<()>, rest: seq<Reply>, sent: seq<Request>)
    ensures var q := ZeroQtree.(uuid := Text(state.uuid), volumeUuid := Text(state.volumeUuid));
      var d := DeleteQtreeSpec(q, script);
      && rest == d.rest && sent == d.sent
      && (effect == Done <==> d.outcome.Ok? || d.outcome.Fail?)
      && (d.outcome.Unfinished? ==> effect == Pending)
      && (d.outcome.Crashed? ==> effect == Panicked(d.outcome.reason))
      && sent[0] == QtreeClient.DeleteRequest(q)
    ensures !effect.Diagnosed?
  {
    var qtree := ZeroQtree;
    qtree := qtree.(uuid := Text(state.uuid));
    qtree := qtree.(volumeUuid := Text(state.volumeUuid));
    var deleted;
    deleted, rest, sent := DeleteQtree(qtree, script);
    // the error is discarded
    effect := if deleted.Unfinished? || deleted.Crashed? then Surfaced(deleted, "delete qtree") else Done;
  }
}
