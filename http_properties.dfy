/** What the status classification and the job loop of `doRequest` promise,
    for every script of server replies. */
module HttpProperties {
  import opened Format
  import opened Http

  /** Only 200 and 202 ever yield a body; every other status, other 2xx codes
      included, ends in an error. */
  lemma OnlySuccessStatusesYieldBody(req: Request, script: seq<Reply>)
    requires script != [] && script[0].Response?
    requires Perform(req, script).outcome.Ok?
    ensures script[0].status == 200 || script[0].status == 202
  {
  }

  /** A 200 returns its body verbatim after one exchange. */
  lemma OkReturnsBody(req: Request, body: Body, tail: seq<Reply>)
    ensures Perform(req, [Response(200, body)] + tail) == Step(Ok(body), tail, [req])
  {
  }

  /** A 404 with a structured body becomes the not-found error with its code
      and message, whose text is "<code>: <message>"; a 404 body that does not
      parse returns the parse error instead. */
  lemma NotFoundCarriesCodeAndMessage(req: Request, raw: string, code: string, message: string, tail: seq<Reply>)
    ensures var x := Perform(req, [Response(404, Body(raw, ErrorReport(code, message)))] + tail);
      && x.outcome == Fail(NotFound(code, message))
      && ErrorText(x.outcome.error) == code + ": " + message
      && x.rest == tail
  {
  }

  lemma NotFoundUnparsable(req: Request, raw: string, reason: string, tail: seq<Reply>)
    ensures Perform(req, [Response(404, Body(raw, Malformed(reason)))] + tail).outcome == Fail(Decode(reason))
  {
  }

  /** Any other status is a generic error whose text embeds the status code
      and the raw body. */
  lemma OtherStatusIsGeneric(req: Request, status: int, body: Body, tail: seq<Reply>)
    requires status != 200 && status != 202 && status != 404
    ensures var x := Perform(req, [Response(status, body)] + tail);
      && x.outcome == Fail(BadStatus(status, body.raw))
      && ErrorText(x.outcome.error) == "status: " + Decimal(status) + ", body: " + body.raw
  {
  }

  /** A transport failure ends the exchange at once, on the first request as
      on any poll. */
  lemma TransportFailureEndsExchange(req: Request, reason: string, tail: seq<Reply>)
    ensures Perform(req, [TransportFailure(reason)] + tail) == Step(Fail(Transport(reason)), tail, [req])
  {
  }

  lemma TransportFailureEndsPolling(href: string, reason: string, tail: seq<Reply>)
    ensures Poll(href, [TransportFailure(reason)] + tail) == Step(Fail(Transport(reason)), tail, [JobRequest(href)])
  {
  }

  /** A job-status reply as the server sends it while a job runs. */
  datatype JobUpdate = JobUpdate(raw: string, state: string, message: string)

  function JobBody(u: JobUpdate): Body {
    Body(u.raw, JobReport(u.state, u.message))
  }

  function JobReplies(us: seq<JobUpdate>): (rs: seq<Reply>)
    ensures |rs| == |us|
    ensures forall i :: 0 <= i < |us| ==> rs[i] == Response(200, JobBody(us[i]))
  {
    seq(|us|, i requires 0 <= i < |us| => Response(200, JobBody(us[i])))
  }

  /** n polls of the same self link. */
  function Polls(href: string, n: nat): (rs: seq<Request>)
    ensures |rs| == n
    ensures forall i :: 0 <= i < n ==> rs[i] == JobRequest(href)
  {
    seq(n, i => JobRequest(href))
  }

  /** The loop follows the first terminal state among the job reports: on
      "success" it returns that last job-status body, on "failure" an error with
      that job's message, after exactly one poll per report up to it. */
  lemma {:induction false} PollFollowsFirstTerminalState(href: string, us: seq<JobUpdate>, k: nat, tail: seq<Reply>)
    requires k < |us|
    requires forall i :: 0 <= i < k ==> !Terminal(us[i].state)
    requires Terminal(us[k].state)
    ensures var x := Poll(href, JobReplies(us) + tail);
      && x.rest == JobReplies(us[k + 1..]) + tail
      && x.sent == Polls(href, k + 1)
      && (us[k].state == "success" ==> x.outcome == Ok(JobBody(us[k])))
      && (us[k].state == "failure" ==> x.outcome == Fail(JobFailed(us[k].message)))
  {
    var s := JobReplies(us) + tail;
    assert s[0] == Response(200, JobBody(us[0]));
    assert s[1..] == JobReplies(us[1..]) + tail;
    assert Perform(JobRequest(href), s) == Step(Ok(JobBody(us[0])), s[1..], [JobRequest(href)]);
    if k == 0 {
      assert us[1..] == us[k + 1..];
      assert Polls(href, 1) == [JobRequest(href)];
    } else {
      PollFollowsFirstTerminalState(href, us[1..], k - 1, tail);
      assert us[1..][k..] == us[k + 1..];
      assert [JobRequest(href)] + Polls(href, k) == Polls(href, k + 1);
    }
  }

  /** Without a terminal state ("error" included) the loop never ends: it
      polls once per report and is still polling when the replies run out. */
  lemma {:induction false} NonTerminalStatesKeepPolling(href: string, us: seq<JobUpdate>)
    requires forall i :: 0 <= i < |us| ==> !Terminal(us[i].state)
    ensures var x := Poll(href, JobReplies(us));
      x.outcome == Unfinished && x.sent == Polls(href, |us| + 1)
  {
    var s := JobReplies(us);
    if us == [] {
      assert Polls(href, 1) == [JobRequest(href)];
    } else {
      assert s[1..] == JobReplies(us[1..]);
      assert Perform(JobRequest(href), s) == Step(Ok(JobBody(us[0])), s[1..], [JobRequest(href)]);
      NonTerminalStatesKeepPolling(href, us[1..]);
      assert [JobRequest(href)] + Polls(href, |us|) == Polls(href, |us| + 1);
    }
  }

  /** A 202 hands back the job-status body of the successful job, not the
      resource, or the failure message of the failed job. */
  lemma AcceptedFollowsJob(req: Request, raw: string, href: string, us: seq<JobUpdate>, k: nat, tail: seq<Reply>)
    requires k < |us|
    requires forall i :: 0 <= i < k ==> !Terminal(us[i].state)
    requires Terminal(us[k].state)
    ensures var x := Perform(req, [Response(202, Body(raw, JobAccepted(href)))] + JobReplies(us) + tail);
      && x.rest == JobReplies(us[k + 1..]) + tail
      && x.sent == [req] + Polls(href, k + 1)
      && (us[k].state == "success" ==> x.outcome == Ok(JobBody(us[k])))
      && (us[k].state == "failure" ==> x.outcome == Fail(JobFailed(us[k].message)))
  {
    var s := [Response(202, Body(raw, JobAccepted(href)))] + JobReplies(us) + tail;
    assert s[1..] == JobReplies(us) + tail;
    PollFollowsFirstTerminalState(href, us, k, tail);
  }
}
