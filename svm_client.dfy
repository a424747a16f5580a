/** The SVM operations of the client (ontap_client_go/svm.go:144-264), as
    specification functions over the script of server replies and methods that
    take the same steps as the source. */
module SvmClient {
  import opened Wrappers
  import opened SvmWire
  import opened Http

  const CreatePath := "/api/svm/svms?return_records=true"

  function SvmPath(uuid: string): string {
    "/api/svm/svms/" + uuid
  }

  function SearchRequest(name: string): Request {
    Request(Get, "/api/svm/svms?name=" + name, NoPayload)
  }

  function FetchRequest(uuid: string): Request {
    Request(Get, SvmPath(uuid), NoPayload)
  }

  /** json.Unmarshal into an SVM. */
  function SvmOf(d: Doc): (o: Outcome<Svm>)
    ensures o.Ok? <==> !d.Malformed?
    ensures d.SvmDoc? ==> o == Ok(d.svm)
  {
    match d
    case Malformed(reason) => Fail(Decode(reason))
    case SvmDoc(s) => Ok(s)
    case _ => Ok(ZeroSvm)
  }

  /** json.Unmarshal into the search result, whose error the source ignores:
      a body that does not parse lists no records. */
  function SearchRecordsOf(d: Doc): (records: seq<SvmRecord>)
    ensures d.SvmListDoc? ==> records == d.records
    ensures !d.SvmListDoc? ==> records == []
  {
    if d.SvmListDoc? then d.records else []
  }

  /** The fetch by uuid that ends `GetSVM`. */
  function FetchSpec(uuid: string, script: seq<Reply>): (x: Step<Svm>)
    ensures x.sent != [] && x.sent[0] == FetchRequest(uuid)
    ensures var e := Perform(FetchRequest(uuid), script);
      && x.rest == e.rest && x.sent == e.sent
      && (!e.outcome.Ok? ==> x.outcome == e.outcome.Forward())
      && (x.outcome.Ok? <==> e.outcome.Ok? && SvmOf(e.outcome.value.doc).Ok?)
      && (e.outcome.Ok? && e.outcome.value.doc.Malformed? ==>
            x.outcome == Fail(Decode(e.outcome.value.doc.reason)))
      && (x.outcome.Ok? ==> x.outcome == SvmOf(e.outcome.value.doc))
    ensures !x.outcome.Crashed?
  {
    var e := Perform(FetchRequest(uuid), script);
    if !e.outcome.Ok? then Step(e.outcome.Forward(), e.rest, e.sent)
    else Step(SvmOf(e.outcome.value.doc), e.rest, e.sent)
  }

  /** `GetSVM`: with a name, the uuid is taken from the first record of the
      name search (overriding any uuid given); without one, the given uuid is
      fetched.  No record, or neither name nor uuid, panics in the source. */
  function GetSvmSpec(uuid: Option<string>, name: Option<string>, script: seq<Reply>): (x: Step<Svm>)
    ensures name.Some? ==> x.sent != [] && x.sent[0] == SearchRequest(name.value)
    ensures name.Some? ==>
      var e := Perform(SearchRequest(name.value), script);
      && (!e.outcome.Ok? ==> x == Step(e.outcome.Forward(), e.rest, e.sent))
      && (e.outcome.Ok? && SearchRecordsOf(e.outcome.value.doc) == [] ==>
            x.outcome.Crashed? && x.rest == e.rest && x.sent == e.sent)
      && (e.outcome.Ok? && SearchRecordsOf(e.outcome.value.doc) != [] ==>
            var f := FetchSpec(SearchRecordsOf(e.outcome.value.doc)[0].uuid, e.rest);
            x == Step(f.outcome, f.rest, e.sent + f.sent))
    ensures name.None? && uuid.None? ==> x.outcome.Crashed? && x.sent == []
    ensures name.None? && uuid.Some? ==> x == FetchSpec(uuid.value, script)
  {
    if name.Some? then
      var e := Perform(SearchRequest(name.value), script);
      if !e.outcome.Ok? then Step(e.outcome.Forward(), e.rest, e.sent)
      else
        var records := SearchRecordsOf(e.outcome.value.doc);
        if records == [] then Step(Crashed("index out of range: no SVM listed"), e.rest, e.sent)
        else
          var fetched := FetchSpec(records[0].uuid, e.rest);
          Step(fetched.outcome, fetched.rest, e.sent + fetched.sent)
    else if uuid.None? then Step(Crashed("nil pointer dereference: no uuid"), script, [])
    else FetchSpec(uuid.value, script)
  }

  /** A name makes the uuid argument irrelevant. */
  lemma NameTakesPrecedence(uuid: Option<string>, name: string, script: seq<Reply>)
    ensures GetSvmSpec(uuid, Some(name), script) == GetSvmSpec(None, Some(name), script)
  {
  }

  method GetSVM(uuid: Option<string>, name: Option<string>, script: seq<Reply>)
    returns (out: Outcome<Svm>, rest: seq<Reply>, sent: seq<Request>)
    ensures Step(out, rest, sent) == GetSvmSpec(uuid, name, script)
  {
    var target := uuid;
    rest, sent := script, [];
    if name.Some? {
      var found;
      found, rest, sent := DoRequest(SearchRequest(name.value), script);
      if !found.Ok? {
        out := found.Forward();
        return;
      }
      var records := SearchRecordsOf(found.value.doc);
      if records == [] {
        out := Crashed("index out of range: no SVM listed");
        return;
      }
      target := Some(records[0].uuid);
    }
    if target.None? {
      out := Crashed("nil pointer dereference: no uuid");
      return;
    }
    var response, left, fetches := DoRequest(FetchRequest(target.value), rest);
    rest, sent := left, sent + fetches;
    if !response.Ok? {
      out := response.Forward();
      return;
    }
    out := SvmOf(response.value.doc);
  }

  function CreateRequest(s: Svm): Request {
    Request(Post, CreatePath, SvmPayload(s))
  }

  /** `CreateSVM`: post the record as given, then return the SVM found by
      its name.  Any error aborts. */
  function CreateSvmSpec(s: Svm, script: seq<Reply>): (x: Step<Svm>)
    ensures x.sent != [] && x.sent[0] == CreateRequest(s)
    ensures var e := Perform(CreateRequest(s), script);
      && (!e.outcome.Ok? ==> x == Step(e.outcome.Forward(), e.rest, e.sent))
      && (e.outcome.Ok? ==>
            var f := GetSvmSpec(None, Some(s.name), e.rest); x == Step(f.outcome, f.rest, e.sent + f.sent))
  {
    var e := Perform(CreateRequest(s), script);
    if !e.outcome.Ok? then Step(e.outcome.Forward(), e.rest, e.sent)
    else
      var found := GetSvmSpec(None, Some(s.name), e.rest);
      Step(found.outcome, found.rest, e.sent + found.sent)
  }

  method CreateSVM(s: Svm, script: seq<Reply>) returns (out: Outcome<Svm>, rest: seq<Reply>, sent: seq<Request>)
    ensures Step(out, rest, sent) == CreateSvmSpec(s, script)
  {
    var posted;
    posted, rest, sent := DoRequest(CreateRequest(s), script);
    if !posted.Ok? {
      out := posted.Forward();
      return;
    }
    var found, left, lookups := GetSVM(None, Some(s.name), rest);
    out, rest, sent := found, left, sent + lookups;
  }

  /** The record `UpdateSVM` leaves in the caller's struct and marshals: the
      uuid and the fcp block are set to nil, everything else is kept. */
  function PatchBody(s: Svm): (b: Svm)
    ensures !Emits(b, "uuid") && !Emits(b, "fcp") && !EmitsEnabled(b, "fcp")
    ensures b.(uuid := s.uuid, fcp := s.fcp) == s
  {
    s.(uuid := None, fcp := None)
  }

  /** `UpdateSVM`: PATCH the saved uuid with the patch body, then return
      `GetSVM` of that same uuid.  A PATCH error aborts before the read; a
      nil uuid panics when the path is built. */
  function UpdateSvmSpec(s: Svm, script: seq<Reply>): (x: Step<Svm>)
    ensures s.uuid.None? ==> x.outcome.Crashed? && x.sent == []
    ensures s.uuid.Some? ==>
      var patch := Request(Patch, SvmPath(s.uuid.value), SvmPayload(PatchBody(s)));
      var e := Perform(patch, script);
      && x.sent != [] && x.sent[0] == patch
      && (!e.outcome.Ok? ==> x == Step(e.outcome.Forward(), e.rest, e.sent))
      && (e.outcome.Ok? ==> x == (var r := FetchSpec(s.uuid.value, e.rest); Step(r.outcome, r.rest, e.sent + r.sent)))
  {
    if s.uuid.None? then Step(Crashed("nil pointer dereference: no uuid"), script, [])
    else
      var e := Perform(Request(Patch, SvmPath(s.uuid.value), SvmPayload(PatchBody(s))), script);
      if !e.outcome.Ok? then Step(e.outcome.Forward(), e.rest, e.sent)
      else
        var fetched := GetSvmSpec(s.uuid, None, e.rest);
        Step(fetched.outcome, fetched.rest, e.sent + fetched.sent)
  }

  /** The caller's `*SVM`, which `UpdateSVM` changes in place. */
  class SvmBox {
    var svm: Svm

    constructor (s: Svm)
      ensures svm == s
    {
      svm := s;
    }
  }

  method UpdateSVM(box: SvmBox, script: seq<Reply>) returns (out: Outcome<Svm>, rest: seq<Reply>, sent: seq<Request>)
    modifies box
    ensures box.svm == PatchBody(old(box.svm))
    ensures box.svm.uuid.None? && box.svm.fcp.None?
    ensures Step(out, rest, sent) == UpdateSvmSpec(old(box.svm), script)
  {
    var uuid := box.svm.uuid;
    box.svm := box.svm.(uuid := None);
    box.svm := box.svm.(fcp := None);
    var body := box.svm;
    if uuid.None? {
      out, rest, sent := Crashed("nil pointer dereference: no uuid"), script, [];
      return;
    }
    var patched;
    patched, rest, sent := DoRequest(Request(Patch, SvmPath(uuid.value), SvmPayload(body)), script);
    if !patched.Ok? {
      out := patched.Forward();
      return;
    }
    var fetched, left, fetches := GetSVM(uuid, None, rest);
    out, rest, sent := fetched, left, sent + fetches;
  }

  /** `DeleteSVM`: DELETE the record's uuid and return any client error. */
  function DeleteSvmSpec(s: Svm, script: seq<Reply>): (x: Step<()>)
    ensures s.uuid.None? ==> x.outcome.Crashed? && x.sent == []
    ensures s.uuid.Some? ==>
      var e := Perform(Request(Delete, SvmPath(s.uuid.value), NoPayload), script);
      && x.sent == e.sent && x.sent[0] == Request(Delete, SvmPath(s.uuid.value), NoPayload)
      && (x.outcome.Ok? <==> e.outcome.Ok?)
      && (e.outcome.Ok? ==> x == Step(Ok(()), e.rest, e.sent))
      && (!e.outcome.Ok? ==> x == Step(e.outcome.Forward(), e.rest, e.sent))
  {
    if s.uuid.None? then Step(Crashed("nil pointer dereference: no uuid"), script, [])
    else
      var e := Perform(Request(Delete, SvmPath(s.uuid.value), NoPayload), script);
      if e.outcome.Ok? then Step(Ok(()), e.rest, e.sent) else Step(e.outcome.Forward(), e.rest, e.sent)
  }

  method DeleteSVM(s: Svm, script: seq<Reply>) returns (out: Outcome<()>, rest: seq<Reply>, sent: seq<Request>)
    ensures Step(out, rest, sent) == DeleteSvmSpec(s, script)
  {
    if s.uuid.None? {
      out, rest, sent := Crashed("nil pointer dereference: no uuid"), script, [];
      return;
    }
    var response;
    response, rest, sent := DoRequest(Request(Delete, SvmPath(s.uuid.value), NoPayload), script);
    if !response.Ok? {
      out := response.Forward();
      return;
    }
    out := Ok(());
  }
}
