/** The `ontap_svm` data source (internal/provider/svm_data_source.go): the
    SVM record the client returns, copied attribute by attribute into the
    Terraform state. */
module SvmDataSource {
  import opened Wrappers
  import opened QtreeWire
  import opened SvmWire
  import opened Http
  import opened SvmClient
  import opened ProviderModels

  /** `SVMDataSourceModel`.  The `s3`, `snapmirror` and `snapshot_policy`
      blocks are empty structs that `Read` never writes. */
  datatype SvmDataSourceModel = SvmDataSourceModel(
    uuid: TfString,
    aggregates: Option<seq<AggregateModel>>,
    aggregatesDelegated: TfBool,
    certificate: TfString,
    cifs: Option<CifsModel>,
    comment: TfString,
    dns: Option<DnsModel>,
    fcInterfaces: Option<seq<FcInterfaceModel>>,
    fcp: TfBool,
    ipInterfaces: Option<seq<IpInterfaceModel>>,
    ipspace: Option<IpSpaceModel>,
    iscsi: TfBool,
    language: TfString,
    ldap: Option<LdapModel>,
    name: TfString,
    nfs: TfBool,
    nis: Option<NisModel>,
    nvme: TfBool,
    nsswitch: Option<NsSwitchModel>,
    routes: Option<seq<RouteModel>>,
    state: TfString,
    subtype: TfString)

  /** An aggregate reference: both its name and its uuid are copied. */
  function AggregateOf(r: UUIDRef): (m: AggregateModel)
    ensures m.name == StringValue(r.name) && m.uuid == StringValue(r.uuid)
  {
    AggregateModel(StringValue(r.name), StringValue(r.uuid))
  }

  /** `NewCIFSDataSourceModel` filled from the wire: a missing name is a null
      name (not a missing block), a missing AD domain a missing block. */
  function CifsOf(c: SvmCifs): (m: CifsModel)
    ensures m.enabled == BoolValue(c.enabled)
    ensures m.name.Some? && (m.name.value.NullString? <==> c.name.None?)
    ensures c.name.Some? ==> m.name.value == StringValue(c.name.value)
    ensures m.adDomain.Some? <==> c.adDomain.Some?
    ensures c.adDomain.Some? ==>
      && m.adDomain.value.fqdn == StringValue(c.adDomain.value.fqdn)
      && m.adDomain.value.organizationalUnit == StringValue(c.adDomain.value.organizationalUnit)
  {
    CifsModel(
      if c.adDomain.Some?
      then Some(AdDomainModel(StringValue(c.adDomain.value.fqdn), StringValue(c.adDomain.value.organizationalUnit)))
      else None,
      BoolValue(c.enabled),
      Some(OptionalString(c.name)))
  }

  /** An FC interface: protocol, name and uuid are copied. */
  function FcInterfaceOf(i: FcInterface): (m: FcInterfaceModel)
    ensures m.dataProtocol == StringValue(i.dataProtocol)
    ensures m.name == StringValue(i.name) && m.uuid == StringValue(i.uuid)
  {
    FcInterfaceModel(StringValue(i.dataProtocol), StringValue(i.name), StringValue(i.uuid))
  }

  /** `NewIPInterfaceDataSourceModel` filled from the wire: optional netmask
      and service policy stay null when absent; no services is a nil list. */
  function IpInterfaceOf(i: IpInterface): (m: IpInterfaceModel)
    ensures m.ip.address == StringValue(i.ip.address)
    ensures m.name == StringValue(i.name) && m.uuid == StringValue(i.uuid)
    ensures m.ip.netmask.NullString? <==> i.ip.netmask.None?
    ensures i.ip.netmask.Some? ==> m.ip.netmask == StringValue(i.ip.netmask.value)
    ensures m.servicePolicy.NullString? <==> i.servicePolicy.None?
    ensures i.servicePolicy.Some? ==> m.servicePolicy == StringValue(i.servicePolicy.value)
    ensures m.services == StringList(i.services)
  {
    IpInterfaceModel(
      IpInterfaceIpModel(StringValue(i.ip.address), OptionalString(i.ip.netmask)),
      StringValue(i.name),
      OptionalString(i.servicePolicy),
      Appended(None, MapSeq(i.services, StringOf)),
      StringValue(i.uuid))
  }

  /** A route: the destination is copied; the gateway is never copied and
      keeps the zero string. */
  function RouteOf(r: Route): (m: RouteModel)
    ensures m.destination.address == StringValue(r.destination.address)
    ensures m.destination.family == StringValue(r.destination.family)
    ensures m.destination.netmask == StringValue(r.destination.netmask)
    ensures m.gateway == StringValue("")
  {
    RouteModel(
      RouteDestinationModel(StringValue(r.destination.address), StringValue(r.destination.family),
                            StringValue(r.destination.netmask)),
      StringValue(""))
  }

  /** Strings as a list appended to a nil slice: nil when there are none,
      otherwise each string in order. */
  function StringList(xs: seq<string>): (l: Option<seq<TfString>>)
    ensures l.None? <==> xs == []
    ensures l.Some? ==> |l.value| == |xs| && forall k :: 0 <= k < |xs| ==> l.value[k] == StringValue(xs[k])
  {
    Appended(None, MapSeq(xs, StringOf))
  }

  /** The DNS block: domains and servers, each a list that is nil when empty. */
  function DnsOf(d: SvmDns): (m: DnsModel)
    ensures m.domains == StringList(d.domains) && m.servers == StringList(d.servers)
  {
    DnsModel(StringList(d.domains), StringList(d.servers))
  }

  /** The LDAP block: optional strings stay null when absent. */
  function LdapOf(l: Ldap): (m: LdapModel)
    ensures m.adDomain == OptionalString(l.adDomain) && m.baseDn == OptionalString(l.baseDn)
    ensures m.bindDn == OptionalString(l.bindDn)
    ensures m.enabled == BoolValue(l.enabled) && m.servers == StringList(l.servers)
  {
    LdapModel(OptionalString(l.adDomain), OptionalString(l.baseDn), OptionalString(l.bindDn),
              BoolValue(l.enabled), StringList(l.servers))
  }

  /** The NIS block takes its domain from the NIS record but its servers from
      the LDAP record, and never sets `enabled`. */
  function NisOf(n: Nis, ldap: Ldap): (m: NisModel)
    ensures m.domain == OptionalString(n.domain)
    ensures m.servers == LdapOf(ldap).servers && m.enabled == BoolValue(false)
  {
    NisModel(OptionalString(n.domain), BoolValue(false), StringList(ldap.servers))
  }

  /** The name-service switch block: five source lists, each nil when empty. */
  function NsSwitchOf(ns: NsSwitch): (m: NsSwitchModel)
    ensures m.group == StringList(ns.group) && m.hosts == StringList(ns.hosts)
    ensures m.namemap == StringList(ns.namemap) && m.netgroup == StringList(ns.netgroup)
    ensures m.passwd == StringList(ns.passwd)
  {
    NsSwitchModel(StringList(ns.group), StringList(ns.hosts), StringList(ns.namemap),
                  StringList(ns.netgroup), StringList(ns.passwd))
  }

  /** The blocks `Read` dereferences without a nil check. */
  predicate MissingBlock(s: Svm) {
    s.uuid.None? || s.dns.None? || s.fcp.None? || s.ldap.None? || s.nfs.None? || s.nis.None?
    || s.nsswitch.None? || s.nvme.None?
  }

  /** What `Read` stores for a fetched SVM, in terms of the configuration. */
  function Project(config: SvmDataSourceModel, s: Svm): (r: Effect<SvmDataSourceModel>)
    ensures r.Panicked? <==> MissingBlock(s)
    ensures r.Stored? || r.Panicked?
    ensures r.Stored? ==>
      var m := r.state;
      && m.uuid == StringValue(s.uuid.value) && m.name == StringValue(s.name)
      && m.aggregates.Some? && |m.aggregates.value| == |s.aggregates|
      && (forall k :: 0 <= k < |s.aggregates| ==> m.aggregates.value[k].uuid == StringValue(s.aggregates[k].uuid))
      && (s.cifs.None? ==> m.cifs == config.cifs)
      && (s.cifs.Some? ==> m.cifs == Some(CifsOf(s.cifs.value)))
      && m.ldap.Some? && m.nis.Some? && m.nis.value.servers == m.ldap.value.servers
      && m.nis.value.enabled == BoolValue(false)
      && m.routes.Some? && |m.routes.value| == |s.routes|
      && m.state == config.state && m.subtype == config.subtype
  {
    if s.uuid.None? then Panicked("nil pointer dereference: SVM.UUID")
    else if s.dns.None? then Panicked("nil pointer dereference: SVM.DNS")
    else if s.fcp.None? then Panicked("nil pointer dereference: SVM.FCP")
    else if s.ldap.None? then Panicked("nil pointer dereference: SVM.LDAP")
    else if s.nfs.None? then Panicked("nil pointer dereference: SVM.NFS")
    else if s.nis.None? then Panicked("nil pointer dereference: SVM.NIS")
    else if s.nsswitch.None? then Panicked("nil pointer dereference: SVM.NSSwitch")
    else if s.nvme.None? then Panicked("nil pointer dereference: SVM.NVME")
    else
      Stored(config.(
        uuid := StringValue(s.uuid.value),
        aggregates := Some(MapSeq(s.aggregates, AggregateOf)),
        aggregatesDelegated := BoolValue(s.aggregatesDelegated),
        cifs := if s.cifs.Some? then Some(CifsOf(s.cifs.value)) else config.cifs,
        certificate := StringValue(s.certificate.uuid),
        comment := StringValue(s.comment),
        dns := Some(DnsOf(s.dns.value)),
        fcInterfaces := Appended(config.fcInterfaces, MapSeq(s.fcInterfaces, FcInterfaceOf)),
        fcp := BoolValue(s.fcp.value.enabled),
        name := StringValue(s.name),
        ipInterfaces := Appended(config.ipInterfaces, MapSeq(s.ipInterfaces, IpInterfaceOf)),
        ipspace := Some(IpSpaceModel(StringValue(s.ipspace.name), StringValue(s.ipspace.uuid))),
        iscsi := BoolValue(s.iscsi.enabled),
        language := StringValue(s.language),
        ldap := Some(LdapOf(s.ldap.value)),
        nfs := BoolValue(s.nfs.value.enabled),
        nis := Some(NisOf(s.nis.value, s.ldap.value)),
        nsswitch := Some(NsSwitchOf(s.nsswitch.value)),
        nvme := BoolValue(s.nvme.value.enabled),
        routes := Some(MapSeq(s.routes, RouteOf))))
  }

  /** Every field a successful read stores: each attribute is the wire
      value, each block its element function, the interface lists are
      appended to the configured ones, and only state and subtype are left
      as configured. */
  lemma ProjectStoresEveryField(config: SvmDataSourceModel, s: Svm)
    requires !MissingBlock(s)
    ensures Project(config, s).Stored?
    ensures var m := Project(config, s).state;
      && m.uuid == StringValue(s.uuid.value) && m.name == StringValue(s.name)
      && m.aggregates == Some(MapSeq(s.aggregates, AggregateOf))
      && (forall k :: 0 <= k < |s.aggregates| ==>
            m.aggregates.value[k].name == StringValue(s.aggregates[k].name)
            && m.aggregates.value[k].uuid == StringValue(s.aggregates[k].uuid))
      && m.aggregatesDelegated == BoolValue(s.aggregatesDelegated)
      && m.certificate == StringValue(s.certificate.uuid) && m.comment == StringValue(s.comment)
      && m.cifs == (if s.cifs.Some? then Some(CifsOf(s.cifs.value)) else config.cifs)
      && m.dns == Some(DnsOf(s.dns.value))
      && m.fcInterfaces == Appended(config.fcInterfaces, MapSeq(s.fcInterfaces, FcInterfaceOf))
      && m.ipInterfaces == Appended(config.ipInterfaces, MapSeq(s.ipInterfaces, IpInterfaceOf))
      && m.ipspace == Some(IpSpaceModel(StringValue(s.ipspace.name), StringValue(s.ipspace.uuid)))
      && m.iscsi == BoolValue(s.iscsi.enabled) && m.language == StringValue(s.language)
      && m.ldap == Some(LdapOf(s.ldap.value))
      && m.nis == Some(NisOf(s.nis.value, s.ldap.value))
      && m.nsswitch == Some(NsSwitchOf(s.nsswitch.value))
      && m.fcp == BoolValue(s.fcp.value.enabled) && m.nfs == BoolValue(s.nfs.value.enabled)
      && m.nvme == BoolValue(s.nvme.value.enabled)
      && m.routes == Some(MapSeq(s.routes, RouteOf))
      && m.state == config.state && m.subtype == config.subtype
  {
  }

  method CopyCifs(c: SvmCifs) returns (m: CifsModel)
    ensures m == CifsOf(c)
  {
    m := CifsModel(None, NullBool, Some(NullString));
    if c.name.Some? {
      m := m.(name := Some(StringValue(c.name.value)));
    }
    if c.adDomain.Some? {
      m := m.(adDomain := Some(AdDomainModel(StringValue(c.adDomain.value.fqdn),
                                             StringValue(c.adDomain.value.organizationalUnit))));
    }
    m := m.(enabled := BoolValue(c.enabled));
  }

  method CopyDns(d: SvmDns) returns (m: DnsModel)
    ensures m == DnsOf(d)
  {
    m := DnsModel(None, None);
    var domains := AppendEach(m.domains, d.domains, StringOf);
    m := m.(domains := domains);
    var servers := AppendEach(m.servers, d.servers, StringOf);
    m := m.(servers := servers);
  }

  method CopyLdap(l: Ldap) returns (m: LdapModel)
    ensures m == LdapOf(l)
  {
    m := LdapModel(NullString, NullString, NullString, BoolValue(false), None);
    if l.adDomain.Some? {
      m := m.(adDomain := StringValue(l.adDomain.value));
    }
    if l.baseDn.Some? {
      m := m.(baseDn := StringValue(l.baseDn.value));
    }
    if l.bindDn.Some? {
      m := m.(bindDn := StringValue(l.bindDn.value));
    }
    m := m.(enabled := BoolValue(l.enabled));
    var servers := AppendEach(m.servers, l.servers, StringOf);
    m := m.(servers := servers);
  }

  method CopyNis(n: Nis, ldap: Ldap) returns (m: NisModel)
    ensures m == NisOf(n, ldap)
  {
    m := NisModel(NullString, BoolValue(false), None);
    if n.domain.Some? {
      m := m.(domain := StringValue(n.domain.value));
    }
    var servers := AppendEach(m.servers, ldap.servers, StringOf);
    m := m.(servers := servers);
  }

  method CopyNsSwitch(ns: NsSwitch) returns (m: NsSwitchModel)
    ensures m == NsSwitchOf(ns)
  {
    m := NsSwitchModel(None, None, None, None, None);
    var group := AppendEach(m.group, ns.group, StringOf);
    m := m.(group := group);
    var hosts := AppendEach(m.hosts, ns.hosts, StringOf);
    m := m.(hosts := hosts);
    var namemap := AppendEach(m.namemap, ns.namemap, StringOf);
    m := m.(namemap := namemap);
    var netgroup := AppendEach(m.netgroup, ns.netgroup, StringOf);
    m := m.(netgroup := netgroup);
    var passwd := AppendEach(m.passwd, ns.passwd, StringOf);
    m := m.(passwd := passwd);
  }

  /** The IP interface loop, with its inner loop over the services. */
  method AppendIpInterfaces(list: Option<seq<IpInterfaceModel>>, xs: seq<IpInterface>)
    returns (r: Option<seq<IpInterfaceModel>>)
    ensures r == Appended(list, MapSeq(xs, IpInterfaceOf))
  {
    r := list;
    for k := 0 to |xs|
      invariant r == Appended(list, MapSeq(xs[..k], IpInterfaceOf))
    {
      var i := xs[k];
      var iface := IpInterfaceModel(IpInterfaceIpModel(NullString, NullString), NullString, NullString, None, NullString);
      iface := iface.(ip := iface.ip.(address := StringValue(i.ip.address)));
      if i.ip.netmask.Some? {
        iface := iface.(ip := iface.ip.(netmask := StringValue(i.ip.netmask.value)));
      }
      iface := iface.(name := StringValue(i.name));
      if i.servicePolicy.Some? {
        iface := iface.(servicePolicy := StringValue(i.servicePolicy.value));
      }
      iface := iface.(uuid := StringValue(i.uuid));
      var services := AppendEach(iface.services, i.services, StringOf);
      iface := iface.(services := services);
      MapSeqSnoc(xs, k, IpInterfaceOf);
      AppendedSnoc(list, MapSeq(xs[..k], IpInterfaceOf), IpInterfaceOf(xs[k]));
      r := Some(r.GetOr([]) + [iface]);
    }
    assert xs[..|xs|] == xs;
  }

  /** `Read`: fetch the configured SVM and copy it block by block.  The data
      source calls a one-argument `GetSVM`; the client's lookup by uuid is
      what it stands for. */
  method Read(config: SvmDataSourceModel, script: seq<Reply>)
    returns (effect: Effect<SvmDataSourceModel>, rest: seq<Reply>, sent: seq<Request>)
    ensures var g := FetchSpec(Text(config.uuid), script);
      && rest == g.rest && sent == g.sent
      && Reports(effect, g.outcome, "read SVM")
      && (g.outcome.Ok? ==> effect == Project(config, g.outcome.value))
    ensures sent[0] == SvmClient.FetchRequest(Text(config.uuid))
  {
    var fetched;
    fetched, rest, sent := GetSVM(Some(Text(config.uuid)), None, script);
    if !fetched.Ok? {
      effect := Surfaced(fetched, "read SVM");
      return;
    }
    effect := Copy(config, fetched.value);
  }

  /** The body of `Read` after the fetch: copy the record into the
      configuration block by block, dereferencing each block as it comes. */
  method Copy(config: SvmDataSourceModel, s: Svm) returns (effect: Effect<SvmDataSourceModel>)
    ensures effect == Project(config, s)
  {
    var data := config;
    if s.uuid.None? {
      effect := Panicked("nil pointer dereference: SVM.UUID");
      return;
    }
    data := data.(uuid := StringValue(s.uuid.value));
    var aggregates := AppendEach(Some([]), s.aggregates, AggregateOf);
    data := data.(aggregates := aggregates);
    data := data.(aggregatesDelegated := BoolValue(s.aggregatesDelegated));
    if s.cifs.Some? {
      var cifs := CopyCifs(s.cifs.value);
      data := data.(cifs := Some(cifs));
    }
    data := data.(certificate := StringValue(s.certificate.uuid));
    data := data.(comment := StringValue(s.comment));
    if s.dns.None? {
      effect := Panicked("nil pointer dereference: SVM.DNS");
      return;
    }
    var dns := CopyDns(s.dns.value);
    data := data.(dns := Some(dns));
    var fcInterfaces := AppendEach(data.fcInterfaces, s.fcInterfaces, FcInterfaceOf);
    data := data.(fcInterfaces := fcInterfaces);
    if s.fcp.None? {
      effect := Panicked("nil pointer dereference: SVM.FCP");
      return;
    }
    data := data.(fcp := BoolValue(s.fcp.value.enabled));
    data := data.(name := StringValue(s.name));
    var ipInterfaces := AppendIpInterfaces(data.ipInterfaces, s.ipInterfaces);
    data := data.(ipInterfaces := ipInterfaces);
    data := data.(ipspace := Some(IpSpaceModel(StringValue(s.ipspace.name), StringValue(s.ipspace.uuid))));
    data := data.(iscsi := BoolValue(s.iscsi.enabled));
    data := data.(language := StringValue(s.language));
    if s.ldap.None? {
      effect := Panicked("nil pointer dereference: SVM.LDAP");
      return;
    }
    var ldap := CopyLdap(s.ldap.value);
    data := data.(ldap := Some(ldap));
    if s.nfs.None? {
      effect := Panicked("nil pointer dereference: SVM.NFS");
      return;
    }
    data := data.(nfs := BoolValue(s.nfs.value.enabled));
    if s.nis.None? {
      effect := Panicked("nil pointer dereference: SVM.NIS");
      return;
    }
    var nis := CopyNis(s.nis.value, s.ldap.value);
    data := data.(nis := Some(nis));
    if s.nsswitch.None? {
      effect := Panicked("nil pointer dereference: SVM.NSSwitch");
      return;
    }
    var nsswitch := CopyNsSwitch(s.nsswitch.value);
    data := data.(nsswitch := Some(nsswitch));
    if s.nvme.None? {
      effect := Panicked("nil pointer dereference: SVM.NVME");
      return;
    }
    data := data.(nvme := BoolValue(s.nvme.value.enabled));
    var routes := AppendEach(Some([]), s.routes, RouteOf);
    data := data.(routes := routes);
    assert [] + MapSeq(s.aggregates, AggregateOf) == MapSeq(s.aggregates, AggregateOf);
    assert [] + MapSeq(s.routes, RouteOf) == MapSeq(s.routes, RouteOf);
    effect := Stored(data);
  }
}
