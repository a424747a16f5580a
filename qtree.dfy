/** The qtree wire record (ontap_client_go/qtree.go) and the rewrites between
    the flat parent uuids callers use and the `{"uuid": …}` reference objects
    the REST API expects. */
module QtreeWire {

  /** A reference object naming a related entity. */
  datatype UUIDRef = UUIDRef(uuid: string, name: string)

  const NoRef := UUIDRef("", "")

  /** A reference carrying only a uuid, as the client builds them. */
  function RefTo(uuid: string): UUIDRef {
    UUIDRef(uuid, "")
  }

  /** Identity `uuid` is the composite "<volume uuid>/<qtree id>". */
  datatype Qtree = Qtree(
    uuid: string,
    svm: UUIDRef,
    volume: UUIDRef,
    volumeUuid: string,
    svmUuid: string,
    name: string,
    id: int,
    path: string,
    securityStyle: string,
    unixPermission: int)

  const ZeroQtree := Qtree("", NoRef, NoRef, "", "", "", 0, "", "", 0)

  /** Whether `json.Marshal` emits the top-level JSON member `key` for a qtree:
      every `omitempty` member is left out at its zero value, while the two
      reference objects are structs and are always emitted. */
  predicate Emits(q: Qtree, key: string) {
    if key == "uuid" then q.uuid != ""
    else if key == "svm" then true
    else if key == "volume" then true
    else if key == "volume_uuid" then q.volumeUuid != ""
    else if key == "svm_uuid" then q.svmUuid != ""
    else if key == "name" then q.name != ""
    else if key == "id" then q.id != 0
    else if key == "path" then q.path != ""
    else if key == "security_style" then q.securityStyle != ""
    else if key == "unix_permissions" then q.unixPermission != 0
    else false
  }

  /** The fields of a qtree that no rewrite touches. */
  predicate SameAttributes(a: Qtree, b: Qtree) {
    && a.name == b.name
    && a.id == b.id
    && a.path == b.path
    && a.securityStyle == b.securityStyle
    && a.unixPermission == b.unixPermission
  }

  /** The record `RestMarshall` hands to `json.Marshal` (PATCH bodies): a set
      flat uuid becomes the reference object, an unset one leaves the existing
      reference alone, and neither the flat uuids nor the identity is sent.
      The receiver is a value copy, so the caller's record is not changed. */
  function RestMarshall(q: Qtree): (w: Qtree)
    ensures !Emits(w, "uuid")
    ensures !Emits(w, "svm_uuid") && !Emits(w, "volume_uuid")
    ensures w.svm == (if q.svmUuid != "" then RefTo(q.svmUuid) else q.svm)
    ensures w.volume == (if q.volumeUuid != "" then RefTo(q.volumeUuid) else q.volume)
    ensures SameAttributes(w, q)
  {
    var withSvm := if q.svmUuid != "" then q.(svm := RefTo(q.svmUuid)) else q;
    var withVolume :=
      if withSvm.volumeUuid != "" then withSvm.(volume := RefTo(withSvm.volumeUuid)) else withSvm;
    withVolume.(svmUuid := "", volumeUuid := "", uuid := "")
  }

  lemma RestMarshallIdempotent(q: Qtree)
    ensures RestMarshall(RestMarshall(q)) == RestMarshall(q)
  {
  }

  /** The record `CreateQtree` posts: both references are built from the flat
      uuids unconditionally, the flat uuids are cleared, the identity is kept. */
  function CreateBody(q: Qtree): (w: Qtree)
    ensures w.svm == RefTo(q.svmUuid) && w.volume == RefTo(q.volumeUuid)
    ensures !Emits(w, "svm_uuid") && !Emits(w, "volume_uuid")
    ensures w.uuid == q.uuid && SameAttributes(w, q)
  {
    q.(svm := RefTo(q.svmUuid), volume := RefTo(q.volumeUuid), volumeUuid := "", svmUuid := "")
  }

  /** Both write paths agree when the caller sets both parents and no identity. */
  lemma CreateBodyIsRestMarshall(q: Qtree)
    requires q.uuid == "" && q.svmUuid != "" && q.volumeUuid != ""
    ensures CreateBody(q) == RestMarshall(q)
  {
  }

  /** The record `GetQtree` and `GetQtreeInVolume` return for a decoded wire
      record: the reference uuids are flattened, the references reset, and the
      identity forced to the one that was requested. */
  function FromWire(w: Qtree, identity: string): (q: Qtree)
    ensures q.uuid == identity
    ensures q.volumeUuid == w.volume.uuid && q.svmUuid == w.svm.uuid
    ensures q.svm == NoRef && q.volume == NoRef
    ensures SameAttributes(q, w)
  {
    w.(volumeUuid := w.volume.uuid, svmUuid := w.svm.uuid, svm := NoRef, volume := NoRef, uuid := identity)
  }

  /** Reading back what was written restores the caller's flat record. */
  lemma FromWireUndoesRestMarshall(q: Qtree)
    requires q.svm == NoRef && q.volume == NoRef
    requires q.svmUuid != "" && q.volumeUuid != ""
    ensures FromWire(RestMarshall(q), q.uuid) == q
  {
  }

  /** Writing what was read sends the references the server returned. */
  lemma RestMarshallUndoesFromWire(w: Qtree, identity: string)
    requires w.svm == RefTo(w.svm.uuid) && w.svm.uuid != ""
    requires w.volume == RefTo(w.volume.uuid) && w.volume.uuid != ""
    ensures RestMarshall(FromWire(w, identity)) == w.(uuid := "", svmUuid := "", volumeUuid := "")
  {
  }
}
