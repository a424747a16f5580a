/** Terraform attribute values and the nested plan/state models shared by the
    provider's resources and data sources (internal/provider). */
module ProviderModels {
  import opened Wrappers
  import opened Http

  /** `types.String`.  Go's zero value `types.String{}` is the known empty
      string `StringValue("")`, not null. */
  datatype TfString = NullString | StringValue(value: string)
  datatype TfBool = NullBool | BoolValue(value: bool)
  datatype TfInt = NullInt | IntValue(value: int)

  /** `.Value` of a plan or state attribute: the zero value when null. */
  function Text(s: TfString): string {
    if s.StringValue? then s.value else ""
  }

  function Flag(b: TfBool): bool {
    b.BoolValue? && b.value
  }

  function Number(i: TfInt): int {
    if i.IntValue? then i.value else 0
  }

  function StringOf(s: string): TfString {
    StringValue(s)
  }

  /** A wire `*string` as an attribute: null exactly when absent. */
  function OptionalString(o: Option<string>): (t: TfString)
    ensures t.NullString? <==> o.None?
    ensures o.Some? ==> t == StringValue(o.value)
  {
    if o.Some? then StringValue(o.value) else NullString
  }

  /** What a provider operation leaves behind: the state written, a return
      with no state and no diagnostic (after which Terraform drops the
      resource), an error diagnostic with nothing written, a job still
      running when the replies ran out, or a Go panic. */
  datatype Effect<M> =
    | Stored(state: M)
    | Done
    | Diagnosed(summary: string, detail: string)
    | Pending
    | Panicked(reason: string)

  /** The diagnostic a failed client call adds. */
  function ClientError<M>(action: string, e: Error): Effect<M> {
    Diagnosed("Client Error", "Unable to " + action + ", got error: " + ErrorText(e))
  }

  /** How a client call that did not return a value surfaces: its error as a
      diagnostic, a run-out script as a pending call, a panic as a panic. */
  predicate Reports<T, M(==)>(effect: Effect<M>, o: Outcome<T>, action: string) {
    && (o.Fail? ==> effect == ClientError(action, o.error))
    && (o.Unfinished? ==> effect == Pending)
    && (o.Crashed? ==> effect == Panicked(o.reason))
  }

  /** The effect of returning early on a client call that gave no value. */
  function Surfaced<T, M(==)>(o: Outcome<T>, action: string): (effect: Effect<M>)
    requires !o.Ok?
    ensures Reports(effect, o, action)
    ensures !effect.Stored? && !effect.Done?
  {
    match o
    case Fail(e) => ClientError(action, e)
    case Unfinished => Pending
    case Crashed(reason) => Panicked(reason)
  }

  /** A model list is a Go slice: None is a nil slice, which Terraform stores
      as null.  `append` of no items leaves a nil slice nil. */
  function Appended<T>(list: Option<seq<T>>, items: seq<T>): (r: Option<seq<T>>)
    ensures items == [] ==> r == list
    ensures items != [] ==> r.Some? && r.value == list.GetOr([]) + items
  {
    if items == [] then list else Some(list.GetOr([]) + items)
  }

  /** Element-wise image of a sequence: same length, same order. */
  function MapSeq<A, B>(xs: seq<A>, f: A -> B): (ys: seq<B>)
    ensures |ys| == |xs|
    ensures forall i :: 0 <= i < |xs| ==> ys[i] == f(xs[i])
  {
    if xs == [] then [] else [f(xs[0])] + MapSeq(xs[1..], f)
  }

  lemma MapSeqSnoc<A, B>(xs: seq<A>, i: nat, f: A -> B)
    requires i < |xs|
    ensures MapSeq(xs[..i + 1], f) == MapSeq(xs[..i], f) + [f(xs[i])]
  {
    var l, r := MapSeq(xs[..i + 1], f), MapSeq(xs[..i], f) + [f(xs[i])];
    assert |l| == |r|;
    forall k | 0 <= k < |l| ensures l[k] == r[k] {
    }
  }

  /** One more `append` extends the slice, nil or not. */
  lemma AppendedSnoc<T>(list: Option<seq<T>>, done: seq<T>, x: T)
    ensures Appended(list, done + [x]) == Some(Appended(list, done).GetOr([]) + [x])
  {
    if done == [] {
      assert done + [x] == [x];
    } else {
      assert (list.GetOr([]) + done) + [x] == list.GetOr([]) + (done + [x]);
    }
  }

  /** A `for ... range` loop that appends the image of every item. */
  method AppendEach<A, B>(list: Option<seq<B>>, xs: seq<A>, f: A -> B) returns (r: Option<seq<B>>)
    ensures r == Appended(list, MapSeq(xs, f))
  {
    r := list;
    for i := 0 to |xs|
      invariant r == Appended(list, MapSeq(xs[..i], f))
    {
      MapSeqSnoc(xs, i, f);
      AppendedSnoc(list, MapSeq(xs[..i], f), f(xs[i]));
      r := Some(r.GetOr([]) + [f(xs[i])]);
    }
    assert xs[..|xs|] == xs;
  }

  datatype AggregateModel = AggregateModel(name: TfString, uuid: TfString)
  datatype AdDomainModel = AdDomainModel(fqdn: TfString, organizationalUnit: TfString)
  datatype CifsModel = CifsModel(adDomain: Option<AdDomainModel>, enabled: TfBool, name: Option<TfString>)
  datatype DnsModel = DnsModel(domains: Option<seq<TfString>>, servers: Option<seq<TfString>>)
  datatype FcInterfaceModel = FcInterfaceModel(dataProtocol: TfString, name: TfString, uuid: TfString)
  datatype IpInterfaceIpModel = IpInterfaceIpModel(address: TfString, netmask: TfString)
  datatype IpInterfaceModel = IpInterfaceModel(
    ip: IpInterfaceIpModel, name: TfString, servicePolicy: TfString, services: Option<seq<TfString>>, uuid: TfString)
  datatype IpSpaceModel = IpSpaceModel(name: TfString, uuid: TfString)
  datatype LdapModel = LdapModel(
    adDomain: TfString, baseDn: TfString, bindDn: TfString, enabled: TfBool, servers: Option<seq<TfString>>)
  datatype NisModel = NisModel(domain: TfString, enabled: TfBool, servers: Option<seq<TfString>>)
  datatype NsSwitchModel = NsSwitchModel(
    group: Option<seq<TfString>>, hosts: Option<seq<TfString>>, namemap: Option<seq<TfString>>,
    netgroup: Option<seq<TfString>>, passwd: Option<seq<TfString>>)
  datatype RouteDestinationModel = RouteDestinationModel(address: TfString, family: TfString, netmask: TfString)
  datatype RouteModel = RouteModel(destination: RouteDestinationModel, gateway: TfString)
}
