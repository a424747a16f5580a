/** The `ontap_svm` resource (internal/provider/svm_resource.go).  Only the
    name, the comment and the DNS block reach the server; every other planned
    attribute is stored as planned. */
module SvmResource {
  import opened Wrappers
  import opened SvmWire
  import opened Http
  import opened SvmClient
  import opened ProviderModels

  /** `SVMResourceModel`; the nested models have the same shapes as the data
      source's. */
  datatype SvmResourceModel = SvmResourceModel(
    uuid: TfString,
    cifs: Option<CifsModel>,
    comment: TfString,
    dns: Option<DnsModel>,
    ipInterfaces: Option<seq<IpInterfaceModel>>,
    ipspace: Option<IpSpaceModel>,
    name: TfString,
    nfs: TfBool,
    routes: Option<seq<RouteModel>>,
    subtype: TfString)

  /** A planned CIFS block without `ad_domain` or `name` makes `Create`
      dereference a nil pointer. */
  predicate CreatePanics(plan: SvmResourceModel) {
    plan.cifs.Some? && (plan.cifs.value.adDomain.None? || plan.cifs.value.name.None?)
  }

  /** The record `Create` sends: the planned name, comment and DNS lists; the
      CIFS block is built but never attached. */
  function CreateRecord(plan: SvmResourceModel): (s: Svm)
    ensures s.name == Text(plan.name) && s.comment == Text(plan.comment)
    ensures s.uuid.None? && s.cifs.None?
    ensures s.dns.Some? <==> plan.dns.Some?
    ensures plan.dns.Some? ==>
      && s.dns.value.domains == MapSeq(plan.dns.value.domains.GetOr([]), Text)
      && s.dns.value.servers == MapSeq(plan.dns.value.servers.GetOr([]), Text)
    ensures s == ZeroSvm.(name := s.name, comment := s.comment, dns := s.dns)
  {
    var dns := if plan.dns.None? then None
      else Some(SvmDns(MapSeq(plan.dns.value.domains.GetOr([]), Text), MapSeq(plan.dns.value.servers.GetOr([]), Text)));
    ZeroSvm.(name := Text(plan.name), comment := Text(plan.comment), dns := dns)
  }

  /** `Create`: create the SVM and store the plan with the server's uuid. */
  method Create(plan: SvmResourceModel, script: seq<Reply>)
    returns (effect: Effect<SvmResourceModel>, rest: seq<Reply>, sent: seq<Request>)
    ensures CreatePanics(plan) ==> effect.Panicked? && rest == script && sent == []
    ensures !CreatePanics(plan) ==>
      var c := CreateSvmSpec(CreateRecord(plan), script);
      && rest == c.rest && sent == c.sent
      && sent[0] == SvmClient.CreateRequest(CreateRecord(plan))
      && Reports(effect, c.outcome, "create SVM")
      && (c.outcome.Ok? ==> effect == if c.outcome.value.uuid.Some?
                                    then Stored(plan.(uuid := StringValue(c.outcome.value.uuid.value)))
                                    else Panicked("nil pointer dereference: created_svm.UUID"))
    ensures effect.Stored? ==> effect.state.(uuid := plan.uuid) == plan
  {
    var svm := ZeroSvm;
    svm := svm.(name := Text(plan.name));
    if plan.cifs.Some? {
      var planned := plan.cifs.value;
      if planned.adDomain.None? {
        effect, rest, sent := Panicked("nil pointer dereference: cifs.ad_domain"), script, [];
        return;
      }
      var domain := AdDomain(Text(planned.adDomain.value.fqdn), Text(planned.adDomain.value.organizationalUnit));
      var enabled := Flag(planned.enabled);
      if planned.name.None? {
        effect, rest, sent := Panicked("nil pointer dereference: cifs.name"), script, [];
        return;
      }
      // built and then dropped: `svm.cifs` is never set
      var cifs := SvmCifs(Some(domain), enabled, Some(Text(planned.name.value)));
    }
    svm := svm.(comment := Text(plan.comment));
    if plan.dns.Some? {
      var domains := AppendEach(Some([]), plan.dns.value.domains.GetOr([]), Text);
      var servers := AppendEach(Some([]), plan.dns.value.servers.GetOr([]), Text);
      svm := svm.(dns := Some(SvmDns(domains.value, servers.value)));
      assert [] + MapSeq(plan.dns.value.domains.GetOr([]), Text) == MapSeq(plan.dns.value.domains.GetOr([]), Text);
      assert [] + MapSeq(plan.dns.value.servers.GetOr([]), Text) == MapSeq(plan.dns.value.servers.GetOr([]), Text);
    }
    assert svm == CreateRecord(plan);
    var created;
    created, rest, sent := CreateSVM(svm, script);
    if !created.Ok? {
      effect := Surfaced(created, "create SVM");
      return;
    }
    if created.value.uuid.None? {
      effect := Panicked("nil pointer dereference: created_svm.UUID");
      return;
    }
    effect := Stored(plan.(uuid := StringValue(created.value.uuid.value)));
  }

  /** `Read`: fetch the SVM by the state's uuid and refresh the uuid and the
      name; every other attribute keeps its prior value. */
  method Read(state: SvmResourceModel, script: seq<Reply>)
    returns (effect: Effect<SvmResourceModel>, rest: seq<Reply>, sent: seq<Request>)
    ensures var g := FetchSpec(Text(state.uuid), script);
      && rest == g.rest && sent == g.sent
      && Reports(effect, g.outcome, "read SVM")
      && (g.outcome.Ok? ==> effect == if g.outcome.value.uuid.Some?
                                    then Stored(state.(uuid := StringValue(g.outcome.value.uuid.value),
                                                       name := StringValue(g.outcome.value.name)))
                                    else Panicked("nil pointer dereference: SVM.UUID"))
    ensures sent[0] == SvmClient.FetchRequest(Text(state.uuid))
    ensures effect.Stored? ==> effect.state.(uuid := state.uuid, name := state.name) == state
  {
    var fetched;
    fetched, rest, sent := GetSVM(Some(Text(state.uuid)), None, script);
    if !fetched.Ok? {
      effect := Surfaced(fetched, "read SVM");
      return;
    }
    if fetched.value.uuid.None? {
      effect := Panicked("nil pointer dereference: SVM.UUID");
      return;
    }
    var data := state;
    data := data.(uuid := StringValue(fetched.value.uuid.value));
    data := data.(name := StringValue(fetched.value.name));
    effect := Stored(data);
  }

  /** The record `Update` hands to the client: the state's uuid and the
      planned name. */
  function UpdateRecord(plan: SvmResourceModel, state: SvmResourceModel): (s: Svm)
    ensures s.uuid == Some(Text(state.uuid)) && s.name == Text(plan.name)
    ensures s.(uuid := None, name := "") == ZeroSvm
  {
    ZeroSvm.(uuid := Some(Text(state.uuid)), name := Text(plan.name))
  }

  /** The JSON members of the PATCH body `Update` sends: the three struct
      members, which `omitempty` never drops, and the name unless it is empty. */
  lemma UpdateBodyEmits(plan: SvmResourceModel, state: SvmResourceModel)
    ensures PatchBody(UpdateRecord(plan, state)) == ZeroSvm.(name := Text(plan.name))
    ensures forall k :: Emits(PatchBody(UpdateRecord(plan, state)), k) <==>
      k == "certificate" || k == "ipspace" || k == "iscsi" || (k == "name" && Text(plan.name) != "")
  {
  }

  /** `Update`: PATCH the new name only, then store the plan with the uuid and
      name the server reports. */
  method Update(plan: SvmResourceModel, state: SvmResourceModel, script: seq<Reply>)
    returns (effect: Effect<SvmResourceModel>, rest: seq<Reply>, sent: seq<Request>)
    ensures var u := UpdateSvmSpec(UpdateRecord(plan, state), script);
      && rest == u.rest && sent == u.sent
      && Reports(effect, u.outcome, "update SVM")
      && (u.outcome.Ok? ==> effect == if u.outcome.value.uuid.Some?
                                    then Stored(plan.(uuid := StringValue(u.outcome.value.uuid.value),
                                                      name := StringValue(u.outcome.value.name)))
                                    else Panicked("nil pointer dereference: updated_SVM.UUID"))
    ensures sent[0] == Request(Patch, SvmPath(Text(state.uuid)), SvmPayload(ZeroSvm.(name := Text(plan.name))))
    ensures effect.Stored? ==> effect.state.(uuid := plan.uuid, name := plan.name) == plan
  {
    var svm := ZeroSvm;
    svm := svm.(uuid := Some(Text(state.uuid)));
    svm := svm.(name := Text(plan.name));
    var box := new SvmBox(svm);
    var updated;
    updated, rest, sent := UpdateSVM(box, script);
    if !updated.Ok? {
      effect := Surfaced(updated, "update SVM");
      return;
    }
    if updated.value.uuid.None? {
      effect := Panicked("nil pointer dereference: updated_SVM.UUID");
      return;
    }
    var data := plan;
    data := data.(uuid := StringValue(updated.value.uuid.value));
    data := data.(name := StringValue(updated.value.name));
    effect := Stored(data);
  }

  /** `Delete`: DELETE the state's uuid and discard the client's error; no
      diagnostic is ever reported. */
  method Delete(state: SvmResourceModel, script: seq<Reply>)
    returns (effect: Effect<()>, rest: seq<Reply>, sent: seq<Request>)
    ensures var d := DeleteSvmSpec(ZeroSvm.(uuid := Some(Text(state.uuid))), script);
      && rest == d.rest && sent == d.sent
      && (effect == Done <==> d.outcome.Ok? || d.outcome.Fail?)
      && (d.outcome.Unfinished? ==> effect == Pending)
    ensures sent[0] == Request(Verb.Delete, SvmPath(Text(state.uuid)), NoPayload)
    ensures !effect.Diagnosed?
  {
    var svm := ZeroSvm;
    svm := svm.(uuid := Some(Text(state.uuid)));
    var deleted;
    deleted, rest, sent := DeleteSVM(svm, script);
    // the error is discarded
    effect := if deleted.Unfinished? || deleted.Crashed? then Surfaced(deleted, "delete SVM") else Done;
  }
}
