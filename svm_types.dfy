/** The SVM wire record (ontap_client_go/svm.go) with Go's nil pointers as
    `Option` and Go slices as sequences. */
module SvmWire {
  import opened Wrappers
  import opened QtreeWire

  datatype AdDomain = AdDomain(fqdn: string, organizationalUnit: string)
  datatype SvmCifs = SvmCifs(adDomain: Option<AdDomain>, enabled: bool, name: Option<string>)
  datatype SvmDns = SvmDns(domains: seq<string>, servers: seq<string>)
  datatype FcInterface = FcInterface(dataProtocol: string, name: string, uuid: string)
  datatype Fcp = Fcp(enabled: bool)
  datatype IpInterfaceIp = IpInterfaceIp(address: string, netmask: Option<string>)
  datatype IpInterface = IpInterface(
    ip: IpInterfaceIp, name: string, servicePolicy: Option<string>, services: seq<string>, uuid: string)
  datatype Iscsi = Iscsi(enabled: bool)
  datatype Ldap = Ldap(
    adDomain: Option<string>, baseDn: Option<string>, bindDn: Option<string>, enabled: bool, servers: seq<string>)
  datatype Nfs = Nfs(enabled: bool)
  datatype Nis = Nis(domain: Option<string>, enabled: bool, servers: seq<string>)
  datatype NsSwitch = NsSwitch(
    group: seq<string>, hosts: seq<string>, namemap: seq<string>, netgroup: seq<string>, passwd: seq<string>)
  datatype Nvme = Nvme(enabled: bool)
  datatype RouteDestination = RouteDestination(address: string, family: string, netmask: string)
  datatype Route = Route(destination: RouteDestination, gateway: string)
  datatype S3 = S3(enabled: bool, name: Option<string>)
  datatype Snapmirror = Snapmirror(isProtected: bool, protectedVolumesCount: int)
  datatype SnapshotPolicy = SnapshotPolicy(name: string, uuid: string)

  datatype Svm = Svm(
    uuid: Option<string>,
    name: string,
    aggregates: seq<UUIDRef>,
    aggregatesDelegated: bool,
    certificate: UUIDRef,
    cifs: Option<SvmCifs>,
    comment: string,
    dns: Option<SvmDns>,
    fcInterfaces: seq<FcInterface>,
    fcp: Option<Fcp>,
    ipInterfaces: seq<IpInterface>,
    ipspace: UUIDRef,
    iscsi: Iscsi,
    language: string,
    ldap: Option<Ldap>,
    nfs: Option<Nfs>,
    nis: Option<Nis>,
    nsswitch: Option<NsSwitch>,
    nvme: Option<Nvme>,
    routes: seq<Route>,
    s3: Option<S3>,
    snapmirror: Option<Snapmirror>,
    snapshotPolicy: Option<SnapshotPolicy>,
    state: string,
    subtype: string)

  /** `ontap.SVM{}`: every field at its Go zero value. */
  const ZeroSvm := Svm(
    None, "", [], false, NoRef, None, "", None, [], None, [], NoRef, Iscsi(false), "",
    None, None, None, None, None, [], None, None, None, "", "")

  /** One entry of the `?name=` search result. */
  datatype SvmRecord = SvmRecord(uuid: string, name: string)

  /** Whether `json.Marshal` emits the top-level JSON member `key` for an SVM:
      nil pointers, empty strings and slices and a false flag are left out; the
      three struct members (certificate, ipspace, iscsi) are always emitted. */
  predicate Emits(s: Svm, key: string) {
    if key == "uuid" then s.uuid.Some?
    else if key == "name" then s.name != ""
    else if key == "aggregates" then s.aggregates != []
    else if key == "aggregates_delegated" then s.aggregatesDelegated
    else if key == "certificate" then true
    else if key == "cifs" then s.cifs.Some?
    else if key == "comment" then s.comment != ""
    else if key == "dns" then s.dns.Some?
    else if key == "fc_interfaces" then s.fcInterfaces != []
    else if key == "fcp" then s.fcp.Some?
    else if key == "ip_interfaces" then s.ipInterfaces != []
    else if key == "ipspace" then true
    else if key == "iscsi" then true
    else if key == "language" then s.language != ""
    else if key == "ldap" then s.ldap.Some?
    else if key == "nfs" then s.nfs.Some?
    else if key == "nis" then s.nis.Some?
    else if key == "nsswitch" then s.nsswitch.Some?
    else if key == "nvme" then s.nvme.Some?
    else if key == "routes" then s.routes != []
    else if key == "s3" then s.s3.Some?
    else if key == "snapmirror" then s.snapmirror.Some?
    else if key == "snapshot_policy" then s.snapshotPolicy.Some?
    else if key == "state" then s.state != ""
    else if key == "subtype" then s.subtype != ""
    else false
  }

  /** The `omitempty` rule for a bool member: a false value is dropped only
      when the member's tag carries `omitempty`. */
  predicate EmitsFlag(value: bool, omitEmpty: bool) {
    value || !omitEmpty
  }

  /** Whether `json.Marshal` emits `<block>.enabled` for an SVM: the block must
      be emitted, and then its `enabled` tag decides.  The fcp and nvme tags
      are plain `json:"enabled"`; those of iscsi, ldap, nfs and nis carry
      `omitempty`. */
  predicate EmitsEnabled(s: Svm, block: string) {
    if block == "fcp" then s.fcp.Some? && EmitsFlag(s.fcp.value.enabled, false)
    else if block == "nvme" then s.nvme.Some? && EmitsFlag(s.nvme.value.enabled, false)
    else if block == "iscsi" then EmitsFlag(s.iscsi.enabled, true)
    else if block == "ldap" then s.ldap.Some? && EmitsFlag(s.ldap.value.enabled, true)
    else if block == "nfs" then s.nfs.Some? && EmitsFlag(s.nfs.value.enabled, true)
    else if block == "nis" then s.nis.Some? && EmitsFlag(s.nis.value.enabled, true)
    else false
  }

  /** A nested `enabled` is only ever emitted inside an emitted block. */
  lemma EnabledNeedsBlock(s: Svm, block: string)
    requires EmitsEnabled(s, block)
    ensures Emits(s, block)
  {
  }

  /** A present fcp or nvme block always carries `enabled`, true or false; a
      present iscsi, ldap, nfs or nis block carries it only when it is true. */
  lemma EnabledTagRules(s: Svm)
    ensures s.fcp.Some? ==> EmitsEnabled(s, "fcp")
    ensures s.nvme.Some? ==> EmitsEnabled(s, "nvme")
    ensures EmitsEnabled(s, "iscsi") <==> s.iscsi.enabled
    ensures s.ldap.Some? ==> (EmitsEnabled(s, "ldap") <==> s.ldap.value.enabled)
    ensures s.nfs.Some? ==> (EmitsEnabled(s, "nfs") <==> s.nfs.value.enabled)
    ensures s.nis.Some? ==> (EmitsEnabled(s, "nis") <==> s.nis.value.enabled)
  {
  }
}
