/** `doRequest` (ontap_client_go/client.go): one authenticated exchange with
    the management API, with the asynchronous-job indirection hidden.

    The server is an oracle: a finite script of replies, consumed one per HTTP
    exchange in the order the client issues them.  When the script runs out
    before the client is done, the outcome is `Unfinished`: the source would
    still be waiting or polling. */
module Http {
  import opened Wrappers
  import opened Format
  import opened QtreeWire
  import opened SvmWire

  datatype Verb = Get | Post | Patch | Delete

  /** The record a request body marshals. */
  datatype Payload = NoPayload | QtreePayload(qtree: Qtree) | SvmPayload(svm: Svm)

  /** A request: verb, path below the host, and body. */
  datatype Request = Request(verb: Verb, path: string, payload: Payload)

  /** One entry of the qtree `?volume.uuid=&name=` search result. */
  datatype QtreeListing = QtreeListing(name: string, id: int)

  /** What a response body holds once parsed as JSON. */
  datatype Doc =
    | Malformed(reason: string)                     // not JSON: every decode fails with `reason`
    | JobAccepted(href: string)                     // {"job": {"_links": {"self": {"href": …}}}}
    | JobReport(state: string, message: string)     // a job-status document
    | ErrorReport(code: string, message: string)    // {"error": {"code": …, "message": …}}
    | QtreeDoc(qtree: Qtree)
    | QtreeListDoc(listings: seq<QtreeListing>)
    | SvmDoc(svm: Svm)
    | SvmListDoc(records: seq<SvmRecord>)

  /** A response body: its raw text and what it parses to. */
  datatype Body = Body(raw: string, doc: Doc)

  /** What the server (or the transport) answers to one request. */
  datatype Reply = TransportFailure(reason: string) | Response(status: int, body: Body)

  datatype Error =
    | Transport(reason: string)             // http.Client.Do or reading the body failed
    | Decode(reason: string)                // json.Unmarshal failed
    | NotFound(code: string, message: string)   // Error404
    | BadStatus(status: int, body: string)  // any other status
    | JobFailed(message: string)            // the job ended in state "failure"

  /** How a client operation ends. `Crashed` is a Go panic the source does not
      handle; `Unfinished` means the script ran out first. */
  datatype Outcome<+T> = Ok(value: T) | Fail(error: Error) | Unfinished | Crashed(reason: string)
  {
    /** A non-value outcome carried over to another value type. */
    function Forward<U>(): (o: Outcome<U>)
      requires !Ok?
      ensures o.Fail? == Fail? && o.Unfinished? == Unfinished? && o.Crashed? == Crashed?
      ensures Fail? ==> o.error == error
      ensures Crashed? ==> o.reason == reason
    {
      match this
      case Fail(e) => Fail(e)
      case Unfinished => Unfinished
      case Crashed(r) => Crashed(r)
    }
  }

  /** An outcome, the replies left after it, and the requests issued for it. */
  datatype Step<+T> = Step(outcome: Outcome<T>, rest: seq<Reply>, sent: seq<Request>)

  /** `Error404.Error` and the `fmt` texts of the other errors. */
  function ErrorText(e: Error): (text: string)
    ensures e.NotFound? ==> text == e.code + ": " + e.message
    ensures e.NotFound? && ':' !in e.code ==> SplitFirst(text, ':') == (e.code, Some(" " + e.message))
    ensures e.BadStatus? ==> text == "status: " + Decimal(e.status) + ", body: " + e.body
    ensures e.JobFailed? ==> text == e.message
  {
    match e
    case Transport(reason) => reason
    case Decode(reason) => reason
    case NotFound(code, message) =>
      assert code + ": " + message == code + [':'] + (" " + message);
      if ':' !in code then SplitFirstJoin(code, ':', " " + message); code + ": " + message
      else code + ": " + message
    case BadStatus(status, raw) => "status: " + Decimal(status) + ", body: " + raw
    case JobFailed(message) => message
  }

  /** The GET that polls a job through its self link. */
  function JobRequest(href: string): Request {
    Request(Get, href, NoPayload)
  }

  /** The self link of a 202 body; a body of another shape decodes to the zero
      record, as `encoding/json` ignores members it does not know. */
  function JobHrefOf(d: Doc): (o: Outcome<string>)
    ensures o.Ok? <==> !d.Malformed?
    ensures d.JobAccepted? ==> o == Ok(d.href)
  {
    match d
    case Malformed(reason) => Fail(Decode(reason))
    case JobAccepted(href) => Ok(href)
    case _ => Ok("")
  }

  /** The state and message of a job-status body.  The source ignores the
      decode error here, so an unreadable body has the empty state. */
  function JobStatusOf(d: Doc): (s: (string, string))
    ensures d.JobReport? ==> s == (d.state, d.message)
    ensures !d.JobReport? ==> s.0 == ""
  {
    if d.JobReport? then (d.state, d.message) else ("", "")
  }

  predicate Terminal(state: string) {
    state == "success" || state == "failure"
  }

  /** The classification of a response that is not 202. */
  function Classify(status: int, body: Body): (o: Outcome<Body>)
    requires status != 202
    ensures o.Ok? <==> status == 200
    ensures o.Ok? ==> o.value == body
    ensures status == 404 && body.doc.Malformed? ==> o == Fail(Decode(body.doc.reason))
    ensures status == 404 && body.doc.ErrorReport? ==> o == Fail(NotFound(body.doc.code, body.doc.message))
    ensures status == 404 && !body.doc.Malformed? && !body.doc.ErrorReport? ==> o == Fail(NotFound("", ""))
    ensures status != 200 && status != 404 ==> o == Fail(BadStatus(status, body.raw))
  {
    if status == 200 then Ok(body)
    else if status == 404 then
      match body.doc
      case Malformed(reason) => Fail(Decode(reason))
      case ErrorReport(code, message) => Fail(NotFound(code, message))
      case _ => Fail(NotFound("", ""))
    else Fail(BadStatus(status, body.raw))
  }

  /** The exchange `doRequest(req)` performs against the script. */
  function Perform(req: Request, script: seq<Reply>): (x: Step<Body>)
    decreases |script|, 0
    ensures x.sent != [] && x.sent[0] == req
    ensures |x.rest| <= |script|
    ensures x.outcome.Unfinished? || |x.rest| < |script|
    ensures !x.outcome.Crashed?
  {
    if script == [] then Step(Unfinished, [], [req])
    else
      match script[0]
      case TransportFailure(reason) => Step(Fail(Transport(reason)), script[1..], [req])
      case Response(status, body) =>
        if status == 202 then
          match JobHrefOf(body.doc)
          case Ok(href) =>
            var p := Poll(href, script[1..]);
            Step(p.outcome, p.rest, [req] + p.sent)
          case Fail(e) => Step(Fail(e), script[1..], [req])
        else Step(Classify(status, body), script[1..], [req])
  }

  /** The job loop: poll the self link until the job reports "success" (the
      job-status body is the result) or "failure" (an error with the job's
      message).  The state "error", and every other state, polls again; there
      is no delay and no bound. */
  function Poll(href: string, script: seq<Reply>): (x: Step<Body>)
    decreases |script|, 1
    ensures x.sent != [] && x.sent[0] == JobRequest(href)
    ensures |x.rest| <= |script|
    ensures x.outcome.Unfinished? || |x.rest| < |script|
    ensures !x.outcome.Crashed?
  {
    var e := Perform(JobRequest(href), script);
    if !e.outcome.Ok? then e
    else
      var (state, message) := JobStatusOf(e.outcome.value.doc);
      if state == "failure" then Step(Fail(JobFailed(message)), e.rest, e.sent)
      else if state == "success" then e
      else
        var p := Poll(href, e.rest);
        Step(p.outcome, p.rest, e.sent + p.sent)
  }

  /** `doRequest`, step by step as the source runs it. */
  method DoRequest(req: Request, script: seq<Reply>) returns (out: Outcome<Body>, rest: seq<Reply>, sent: seq<Request>)
    decreases |script|
    ensures Step(out, rest, sent) == Perform(req, script)
  {
    sent := [req];
    if script == [] {
      out, rest := Unfinished, [];
      return;
    }
    var reply := script[0];
    rest := script[1..];
    if reply.TransportFailure? {
      out := Fail(Transport(reply.reason));
      return;
    }
    var status, body := reply.status, reply.body;
    if status == 202 {
      var job := JobHrefOf(body.doc);
      if !job.Ok? {
        out := job.Forward();
        return;
      }
      var href := job.value;
      while true
        invariant |rest| < |script|
        invariant var p := Poll(href, rest); Perform(req, script) == Step(p.outcome, p.rest, sent + p.sent)
        decreases |rest|
      {
        ghost var before, polledFrom := sent, rest;
        var polled, left, polls := DoRequest(JobRequest(href), rest);
        sent, rest := sent + polls, left;
        if !polled.Ok? {
          out := polled;
          return;
        }
        body := polled.value;
        var (state, message) := JobStatusOf(body.doc);
        if state == "failure" {
          out := Fail(JobFailed(message));
          return;
        }
        if state == "success" {
          break;
        }
        // "error", and any other state: poll again
        assert before + (polls + Poll(href, left).sent) == sent + Poll(href, left).sent;
      }
    }
    if status != 200 && status != 202 {
      if status == 404 {
        if body.doc.Malformed? {
          out := Fail(Decode(body.doc.reason));
        } else if body.doc.ErrorReport? {
          out := Fail(NotFound(body.doc.code, body.doc.message));
        } else {
          out := Fail(NotFound("", ""));
        }
      } else {
        out := Fail(BadStatus(status, body.raw));
      }
    } else {
      out := Ok(body);
    }
  }
}
