/** The response hook of the `ChangeHTTPCode` proxy addon, as a pure function
    from one finished exchange to the hook's outcome.

    The hook receives a flow (request URL and, once the upstream answered, a
    response). Without a response it fails. Otherwise it first records a
    diagnostic event when the upstream status is an error (400 or above) and
    then, in two independent rules, overwrites the status with 400 when the
    URL mentions the package index ("pypi", "pythonhosted") or "numpy". */
module Intercept {
  import opened Wrappers
  import opened Substring

  newtype byte = x: int | 0 <= x < 256

  /** An upstream response: its status code and its opaque body. */
  datatype Response = Response(status: int, body: seq<byte>)

  /** One intercepted exchange. `url` is the request's pretty URL, taken as
      given; `response` is None until the upstream has answered. */
  datatype Flow = Flow(url: string, response: Option<Response>)

  /** The diagnostic line the hook writes to the error stream. */
  datatype LogEvent = LogEvent(tag: string, status: int, body: seq<byte>)

  /** The only failure: the hook ran on a flow without a response. */
  datatype HookError = NoResponse

  /** What one hook call amounts to: a failure, or the flow as the hook left
      it together with the diagnostic event it emitted, if any. */
  datatype HookResult = Failed(error: HookError) | Done(flow: Flow, log: Option<LogEvent>)

  const LogTag: string := "pypi_intercept"

  /** Statuses at or above this are reported on the error stream. */
  const ErrorThreshold: int := 400

  /** The status a blocked request is answered with. */
  const BlockedStatus: int := 400

  /** The URL substrings that get a request blocked, in the order the source
      tests them. */
  const BlockPatterns: seq<string> := ["pypi", "pythonhosted", "numpy"]

  /** The URL mentions at least one blocked pattern. */
  predicate Blocked(url: string) {
    exists p :: p in BlockPatterns && Contains(url, p)
  }

  /** Diagnostic step: an event carrying the status as the upstream sent it. */
  function ErrorLog(resp: Response): Option<LogEvent> {
    if resp.status >= ErrorThreshold then Some(LogEvent(LogTag, resp.status, resp.body)) else None
  }

  /** First rule: requests to the package index or its file host. */
  function IndexRule(url: string, resp: Response): Response {
    if Contains(url, "pypi") || Contains(url, "pythonhosted") then resp.(status := BlockedStatus) else resp
  }

  /** Second rule, applied after the first: requests involving numpy. */
  function NumpyRule(url: string, resp: Response): Response {
    if Contains(url, "numpy") then resp.(status := BlockedStatus) else resp
  }

  /** The hook: fail without a response, else log, then apply both rules. */
  function Hook(flow: Flow): (r: HookResult)
    // A missing response is the one failure, and it leaves no flow and no event.
    ensures r.Failed? <==> flow.response.None?
    // Only the response status may change: URL and body are untouched.
    ensures r.Done? ==> (r.flow.response.Some?
      && r.flow == flow.(response := Some(flow.response.value.(status := r.flow.response.value.status))))
    // Blocked URLs end at 400 whatever the upstream said; others pass through.
    ensures r.Done? ==> (r.flow.response.value.status
      == if Blocked(flow.url) then BlockedStatus else flow.response.value.status)
    // An event is emitted exactly for upstream error statuses and carries the
    // status from before any rewrite.
    ensures r.Done? ==> (r.log.Some? <==> flow.response.value.status >= ErrorThreshold)
    ensures r.Done? && r.log.Some? ==>
      r.log.value == LogEvent(LogTag, flow.response.value.status, flow.response.value.body)
  {
    match flow.response
    case None => Failed(NoResponse)
    case Some(resp) =>
      var log := ErrorLog(resp);
      var resp' := NumpyRule(flow.url, IndexRule(flow.url, resp));
      Done(flow.(response := Some(resp')), log)
  }

  /** Blocking, stated by position: the URL is blocked exactly when one of
      the patterns occurs in it at some index. */
  lemma BlockedIffOccurs(url: string)
    ensures Blocked(url) <==> exists p, i :: p in BlockPatterns && OccursAt(url, p, i)
  {
    forall p | p in BlockPatterns
      ensures Contains(url, p) <==> exists i :: OccursAt(url, p, i)
    {
      ContainsIffOccurs(url, p);
    }
  }

  /** An occurrence of "pypi" or "pythonhosted" anywhere in the URL forces
      status 400, whatever the upstream status was. */
  lemma IndexOccurrenceBlocks(flow: Flow, p: string, i: int)
    requires flow.response.Some?
    requires p == "pypi" || p == "pythonhosted"
    requires OccursAt(flow.url, p, i)
    ensures Hook(flow).Done? && Hook(flow).flow.response.value.status == BlockedStatus
  {
    OccursAtContains(flow.url, p, i);
  }

  /** An occurrence of "numpy" anywhere in the URL forces status 400,
      whatever the upstream status was. */
  lemma NumpyOccurrenceBlocks(flow: Flow, i: int)
    requires flow.response.Some?
    requires OccursAt(flow.url, "numpy", i)
    ensures Hook(flow).Done? && Hook(flow).flow.response.value.status == BlockedStatus
  {
    OccursAtContains(flow.url, "numpy", i);
  }

  /** When no pattern occurs anywhere in the URL, the hook hands back the
      flow exactly as it received it. */
  lemma NoOccurrencePassesThrough(flow: Flow)
    requires flow.response.Some?
    requires forall p, i :: p in BlockPatterns ==> !OccursAt(flow.url, p, i)
    ensures Hook(flow).Done? && Hook(flow).flow == flow
  {
    BlockedIffOccurs(flow.url);
  }

  /** Whether an event is emitted, and what it says, depends only on the
      response and never on the URL the rules look at. */
  lemma LogIndependentOfUrl(f: Flow, g: Flow)
    requires f.response == g.response
    ensures Hook(f).Done? <==> Hook(g).Done?
    ensures Hook(f).Done? ==> Hook(f).log == Hook(g).log
  {
  }

  /** Running the hook again on its own output changes nothing more: the URL
      is the same, so the same rules fire, and 400 is a fixed point. The second
      run reports an error exactly when the first run's final status is one. */
  lemma HookIdempotent(flow: Flow)
    requires Hook(flow).Done?
    ensures Hook(Hook(flow).flow).Done?
    ensures Hook(Hook(flow).flow).flow == Hook(flow).flow
    ensures Hook(Hook(flow).flow).log.Some? <==> Hook(flow).flow.response.value.status >= ErrorThreshold
  {
  }

  /** Matching is case-sensitive: an upper-case spelling of the index host
      does not get the request blocked. */
  lemma UpperCaseNotBlocked(status: int, body: seq<byte>)
    ensures !Contains("PyPI", "pypi")
    ensures Hook(Flow("https://PYPI.ORG/SIMPLE/NUMPY/", Some(Response(status, body))))
      == Done(Flow("https://PYPI.ORG/SIMPLE/NUMPY/", Some(Response(status, body))),
              ErrorLog(Response(status, body)))
  {
    MissingCharNotContained("PyPI", "pypi", 'p');
    var url := "https://PYPI.ORG/SIMPLE/NUMPY/";
    assert 'y' !in url;
    forall p | p in BlockPatterns
      ensures !Contains(url, p)
    {
      assert 'y' in p;
      MissingCharNotContained(url, p, 'y');
    }
  }

  /** A request to the index for numpy with a 200 answer: blocked, no event. */
  lemma ScenarioIndexOk(body: seq<byte>)
    ensures Hook(Flow("https://pypi.org/simple/numpy/", Some(Response(200, body))))
      == Done(Flow("https://pypi.org/simple/numpy/", Some(Response(400, body))), None)
  {
    var url := "https://pypi.org/simple/numpy/";
    assert url[8..12] == "pypi" by {
      assert url[8] == 'p' && url[9] == 'y' && url[10] == 'p' && url[11] == 'i';
    }
    OccursAtContains(url, "pypi", 8);
  }

  /** A wheel download answered 404: blocked, and the event reports 404. */
  lemma ScenarioFileHostNotFound(body: seq<byte>)
    ensures Hook(Flow("https://files.pythonhosted.org/packages/x.whl", Some(Response(404, body))))
      == Done(Flow("https://files.pythonhosted.org/packages/x.whl", Some(Response(400, body))),
              Some(LogEvent(LogTag, 404, body)))
  {
    var url := "https://files.pythonhosted.org/packages/x.whl";
    assert url[14..26] == "pythonhosted" by {
      assert url[14] == 'p' && url[15] == 'y' && url[16] == 't' && url[17] == 'h' && url[18] == 'o' && url[19] == 'n'
        && url[20] == 'h' && url[21] == 'o' && url[22] == 's' && url[23] == 't' && url[24] == 'e' && url[25] == 'd';
    }
    OccursAtContains(url, "pythonhosted", 14);
  }

  /** "numpy" anywhere in the path blocks, even on an unrelated host. */
  lemma ScenarioNumpyPath(body: seq<byte>)
    ensures Hook(Flow("https://example.com/numpy-info", Some(Response(200, body))))
      == Done(Flow("https://example.com/numpy-info", Some(Response(400, body))), None)
  {
    var url := "https://example.com/numpy-info";
    assert OccursAt(url, "numpy", 20);
    OccursAtContains(url, "numpy", 20);
  }

  /** An unrelated URL answered 500: status kept, and the event reports 500. */
  lemma ScenarioUnrelatedServerError(body: seq<byte>)
    ensures Hook(Flow("https://example.com/other", Some(Response(500, body))))
      == Done(Flow("https://example.com/other", Some(Response(500, body))),
              Some(LogEvent(LogTag, 500, body)))
  {
    var url := "https://example.com/other";
    assert 'y' !in url;
    forall p | p in BlockPatterns
      ensures !Contains(url, p)
    {
      assert 'y' in p;
      MissingCharNotContained(url, p, 'y');
    }
  }

  /** No response: the hook fails, whatever the URL. */
  lemma ScenarioNoResponse(url: string)
    ensures Hook(Flow(url, None)) == Failed(NoResponse)
  {
  }
}
