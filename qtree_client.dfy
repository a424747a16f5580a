/** The qtree operations of the client (ontap_client_go/client.go:168-331).
    Each operation is a specification function over the script of server
    replies and a method that performs the same steps as the source. */
module QtreeClient {
  import opened Wrappers
  import opened Format
  import opened QtreeWire
  import opened Http

  const CreatePath := "/api/storage/qtrees?return_records=true"

  function QtreePath(identity: string): string {
    "/api/storage/qtrees/" + identity
  }

  function LookupPath(volumeUuid: string, name: string): string {
    "/api/storage/qtrees?volume.uuid=" + volumeUuid + "&name=" + name
  }

  function FetchRequest(identity: string): Request {
    Request(Get, QtreePath(identity), NoPayload)
  }

  function LookupRequest(volumeUuid: string, name: string): Request {
    Request(Get, LookupPath(volumeUuid, name), NoPayload)
  }

  /** The composite identity "<volume uuid>/<qtree id>"; it splits back into
      the volume uuid and the id whenever the volume uuid has no '/'. */
  function Identity(volumeUuid: string, id: int): (identity: string)
    ensures '/' !in volumeUuid ==>
      var (volume, qtreeId) := SplitFirst(identity, '/');
      volume == volumeUuid && qtreeId.Some? && ParseDecimal(qtreeId.value) == Some(id)
  {
    if '/' !in volumeUuid then
      SplitFirstJoin(volumeUuid, '/', Decimal(id));
      DecimalRoundTrip(id);
      volumeUuid + "/" + Decimal(id)
    else volumeUuid + "/" + Decimal(id)
  }

  /** json.Unmarshal into a Qtree. */
  function QtreeOf(d: Doc): (o: Outcome<Qtree>)
    ensures o.Ok? <==> !d.Malformed?
    ensures d.QtreeDoc? ==> o == Ok(d.qtree)
  {
    match d
    case Malformed(reason) => Fail(Decode(reason))
    case QtreeDoc(q) => Ok(q)
    case _ => Ok(ZeroQtree)
  }

  /** json.Unmarshal into the search result. */
  function ListingsOf(d: Doc): (o: Outcome<seq<QtreeListing>>)
    ensures o.Ok? <==> !d.Malformed?
    ensures d.QtreeListDoc? ==> o == Ok(d.listings)
  {
    match d
    case Malformed(reason) => Fail(Decode(reason))
    case QtreeListDoc(ls) => Ok(ls)
    case _ => Ok([])
  }

  /** `GetQtree`: fetch by identity, flatten the references, and force the
      identity to the requested one. */
  function GetQtreeSpec(identity: string, script: seq<Reply>): (x: Step<Qtree>)
    ensures x.sent != [] && x.sent[0] == FetchRequest(identity)
    ensures |x.rest| <= |script|
    ensures var e := Perform(FetchRequest(identity), script);
      && (x.outcome.Ok? <==> e.outcome.Ok? && QtreeOf(e.outcome.value.doc).Ok?)
      && x.rest == e.rest && x.sent == e.sent
      && (x.outcome.Ok? ==> x.outcome.value == FromWire(QtreeOf(e.outcome.value.doc).value, identity))
      && (!e.outcome.Ok? ==> x.outcome == e.outcome.Forward())
      && (e.outcome.Ok? && e.outcome.value.doc.Malformed? ==>
            x.outcome == Fail(Decode(e.outcome.value.doc.reason)))
    ensures x.outcome.Ok? ==> x.outcome.value.uuid == identity
    ensures !x.outcome.Crashed?
  {
    var e := Perform(FetchRequest(identity), script);
    if !e.outcome.Ok? then Step(e.outcome.Forward(), e.rest, e.sent)
    else
      match QtreeOf(e.outcome.value.doc)
      case Ok(w) => Step(Ok(FromWire(w, identity)), e.rest, e.sent)
      case Fail(err) => Step(Fail(err), e.rest, e.sent)
  }

  method GetQtree(identity: string, script: seq<Reply>) returns (out: Outcome<Qtree>, rest: seq<Reply>, sent: seq<Request>)
    ensures Step(out, rest, sent) == GetQtreeSpec(identity, script)
  {
    var response;
    response, rest, sent := DoRequest(FetchRequest(identity), script);
    if !response.Ok? {
      out := response.Forward();
      return;
    }
    var decoded := QtreeOf(response.value.doc);
    if !decoded.Ok? {
      out := decoded;
      return;
    }
    var qtree := decoded.value;
    qtree := qtree.(volumeUuid := qtree.volume.uuid);
    qtree := qtree.(svmUuid := qtree.svm.uuid);
    qtree := qtree.(svm := NoRef);
    qtree := qtree.(volume := NoRef);
    qtree := qtree.(uuid := identity);
    out := Ok(qtree);
  }

  /** `GetQtreeInVolume`: look the qtree up by volume and name, compose the
      identity from the first listing's id, then fetch it as `GetQtree` does.
      An empty listing is indexed anyway: the source panics. */
  function GetQtreeInVolumeSpec(volumeUuid: string, name: string, script: seq<Reply>): (x: Step<Qtree>)
    ensures x.sent != [] && x.sent[0] == LookupRequest(volumeUuid, name)
    ensures |x.rest| <= |script|
    ensures var e := Perform(LookupRequest(volumeUuid, name), script);
      && (!e.outcome.Ok? ==> x == Step(e.outcome.Forward(), e.rest, e.sent))
      && (e.outcome.Ok? && ListingsOf(e.outcome.value.doc).Fail? ==>
            x == Step(Fail(ListingsOf(e.outcome.value.doc).error), e.rest, e.sent))
      && (e.outcome.Ok? && ListingsOf(e.outcome.value.doc) == Ok([]) ==>
            x.outcome.Crashed? && x.rest == e.rest && x.sent == e.sent)
      && (e.outcome.Ok? && ListingsOf(e.outcome.value.doc).Ok? && ListingsOf(e.outcome.value.doc).value != [] ==>
            var f := GetQtreeSpec(Identity(volumeUuid, ListingsOf(e.outcome.value.doc).value[0].id), e.rest);
            x == Step(f.outcome, f.rest, e.sent + f.sent))
      && (x.outcome.Ok? ==>
            && e.outcome.Ok? && ListingsOf(e.outcome.value.doc).Ok?
            && var listings := ListingsOf(e.outcome.value.doc).value;
            && listings != []
            && x.outcome.value.uuid == Identity(volumeUuid, listings[0].id))
  {
    var e := Perform(LookupRequest(volumeUuid, name), script);
    if !e.outcome.Ok? then Step(e.outcome.Forward(), e.rest, e.sent)
    else
      match ListingsOf(e.outcome.value.doc)
      case Fail(err) => Step(Fail(err), e.rest, e.sent)
      case Ok(listings) =>
        if listings == [] then Step(Crashed("index out of range: no qtree listed"), e.rest, e.sent)
        else
          var fetched := GetQtreeSpec(Identity(volumeUuid, listings[0].id), e.rest);
          Step(fetched.outcome, fetched.rest, e.sent + fetched.sent)
  }

  method GetQtreeInVolume(volumeUuid: string, name: string, script: seq<Reply>)
    returns (out: Outcome<Qtree>, rest: seq<Reply>, sent: seq<Request>)
    ensures Step(out, rest, sent) == GetQtreeInVolumeSpec(volumeUuid, name, script)
  {
    var found;
    found, rest, sent := DoRequest(LookupRequest(volumeUuid, name), script);
    if !found.Ok? {
      out := found.Forward();
      return;
    }
    var listed := ListingsOf(found.value.doc);
    if !listed.Ok? {
      out := listed.Forward();
      return;
    }
    if listed.value == [] {
      out := Crashed("index out of range: no qtree listed");
      return;
    }
    var identity := Identity(volumeUuid, listed.value[0].id);
    var response, left, fetches := DoRequest(FetchRequest(identity), rest);
    rest, sent := left, sent + fetches;
    if !response.Ok? {
      out := response.Forward();
      return;
    }
    var decoded := QtreeOf(response.value.doc);
    if !decoded.Ok? {
      out := decoded;
      return;
    }
    var qtree := decoded.value;
    qtree := qtree.(uuid := identity);
    qtree := qtree.(volumeUuid := qtree.volume.uuid);
    qtree := qtree.(svmUuid := qtree.svm.uuid);
    qtree := qtree.(svm := NoRef);
    qtree := qtree.(volume := NoRef);
    out := Ok(qtree);
  }

  function CreateRequest(q: Qtree): Request {
    Request(Post, CreatePath, QtreePayload(CreateBody(q)))
  }

  /** `CreateQtree`: post the record with reference objects built from the
      caller's flat uuids, then find the new qtree by volume and name. */
  function CreateQtreeSpec(q: Qtree, script: seq<Reply>): (x: Step<Qtree>)
    ensures x.sent != [] && x.sent[0] == CreateRequest(q)
    ensures var e := Perform(CreateRequest(q), script);
      && (!e.outcome.Ok? ==> x == Step(e.outcome.Forward(), e.rest, e.sent))
      && (e.outcome.Ok? ==>
            var f := GetQtreeInVolumeSpec(q.volumeUuid, q.name, e.rest); x == Step(f.outcome, f.rest, e.sent + f.sent))
    ensures x.outcome.Ok? ==> exists id :: x.outcome.value.uuid == Identity(q.volumeUuid, id)
  {
    var e := Perform(CreateRequest(q), script);
    if !e.outcome.Ok? then Step(e.outcome.Forward(), e.rest, e.sent)
    else
      var found := GetQtreeInVolumeSpec(CreateBody(q).volume.uuid, q.name, e.rest);
      Step(found.outcome, found.rest, e.sent + found.sent)
  }

  method CreateQtree(q: Qtree, script: seq<Reply>) returns (out: Outcome<Qtree>, rest: seq<Reply>, sent: seq<Request>)
    ensures Step(out, rest, sent) == CreateQtreeSpec(q, script)
  {
    var copy := q;
    copy := copy.(svm := RefTo(copy.svmUuid));
    copy := copy.(volume := RefTo(copy.volumeUuid));
    copy := copy.(volumeUuid := "");
    copy := copy.(svmUuid := "");
    var posted;
    posted, rest, sent := DoRequest(Request(Post, CreatePath, QtreePayload(copy)), script);
    if !posted.Ok? {
      out := posted.Forward();
      return;
    }
    var found, left, lookups := GetQtreeInVolume(copy.volume.uuid, q.name, rest);
    out, rest, sent := found, left, sent + lookups;
  }

  function UpdateRequest(q: Qtree): Request {
    Request(Patch, QtreePath(q.uuid), QtreePayload(RestMarshall(q)))
  }

  /** `UpdateQtree`: PATCH the identity with the `RestMarshall` body, then
      read the qtree back by the same identity. */
  function UpdateQtreeSpec(q: Qtree, script: seq<Reply>): (x: Step<Qtree>)
    ensures x.sent != [] && x.sent[0] == UpdateRequest(q)
    ensures var e := Perform(UpdateRequest(q), script);
      && (!e.outcome.Ok? ==> x == Step(e.outcome.Forward(), e.rest, e.sent))
      && (e.outcome.Ok? ==>
            var f := GetQtreeSpec(q.uuid, e.rest); x == Step(f.outcome, f.rest, e.sent + f.sent))
    ensures x.outcome.Ok? ==> x.outcome.value.uuid == q.uuid
  {
    var e := Perform(UpdateRequest(q), script);
    if !e.outcome.Ok? then Step(e.outcome.Forward(), e.rest, e.sent)
    else
      var fetched := GetQtreeSpec(q.uuid, e.rest);
      Step(fetched.outcome, fetched.rest, e.sent + fetched.sent)
  }

  method UpdateQtree(q: Qtree, script: seq<Reply>) returns (out: Outcome<Qtree>, rest: seq<Reply>, sent: seq<Request>)
    ensures Step(out, rest, sent) == UpdateQtreeSpec(q, script)
  {
    var body := RestMarshall(q);
    var patched;
    patched, rest, sent := DoRequest(Request(Patch, QtreePath(q.uuid), QtreePayload(body)), script);
    if !patched.Ok? {
      out := patched.Forward();
      return;
    }
    var fetched, left, fetches := GetQtree(q.uuid, rest);
    out, rest, sent := fetched, left, sent + fetches;
  }

  function DeleteRequest(q: Qtree): Request {
    Request(Delete, QtreePath(q.uuid), NoPayload)
  }

  /** `DeleteQtree`: DELETE the identity; any error is returned. */
  function DeleteQtreeSpec(q: Qtree, script: seq<Reply>): (x: Step<()>)
    ensures x.sent != [] && x.sent[0] == DeleteRequest(q)
    ensures var e := Perform(DeleteRequest(q), script);
      && (x.outcome.Ok? <==> e.outcome.Ok?)
      && (e.outcome.Ok? ==> x == Step(Ok(()), e.rest, e.sent))
      && (!e.outcome.Ok? ==> x == Step(e.outcome.Forward(), e.rest, e.sent))
  {
    var e := Perform(DeleteRequest(q), script);
    if e.outcome.Ok? then Step(Ok(()), e.rest, e.sent)
    else Step(e.outcome.Forward(), e.rest, e.sent)
  }

  method DeleteQtree(q: Qtree, script: seq<Reply>) returns (out: Outcome<()>, rest: seq<Reply>, sent: seq<Request>)
    ensures Step(out, rest, sent) == DeleteQtreeSpec(q, script)
  {
    var response;
    response, rest, sent := DoRequest(Request(Delete, QtreePath(q.uuid), NoPayload), script);
    if !response.Ok? {
      out := response.Forward();
      return;
    }
    out := Ok(());
  }
}
