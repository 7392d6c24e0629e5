/**
 Classification of one HTTP probe (TestURL in runall.go). The GET itself is
 not modelled: its outcome is an input.
 */
module Probing {
  import opened Model

  /** What http.Get handed back: an error (possibly together with a
      response, whose status code is then known), or a response. */
  datatype Outcome =
    | Failed(response: Option<int>, message: string)
    | Responded(statusCode: int)

  /** The one outcome the monitor counts as healthy. */
  predicate Healthy(o: Outcome) {
    o.Responded? && o.statusCode == 200
  }

  /** One timed probe: the outcome, when it started and how long it took. */
  datatype Observation = Observation(outcome: Outcome, start: nat, elapsed: nat)

  /** The reason phrases of Go's net/http status table (http.StatusText);
      the empty string for a code it does not know. */
  function StatusText(code: int): (phrase: string)
    ensures phrase != "" ==> 100 <= code <= 511
  {
    match code
    case 100 => "Continue"
    case 101 => "Switching Protocols"
    case 102 => "Processing"
    case 103 => "Early Hints"
    case 200 => "OK"
    case 201 => "Created"
    case 202 => "Accepted"
    case 203 => "Non-Authoritative Information"
    case 204 => "No Content"
    case 205 => "Reset Content"
    case 206 => "Partial Content"
    case 207 => "Multi-Status"
    case 208 => "Already Reported"
    case 226 => "IM Used"
    case 300 => "Multiple Choices"
    case 301 => "Moved Permanently"
    case 302 => "Found"
    case 303 => "See Other"
    case 304 => "Not Modified"
    case 305 => "Use Proxy"
    case 307 => "Temporary Redirect"
    case 308 => "Permanent Redirect"
    case 400 => "Bad Request"
    case 401 => "Unauthorized"
    case 402 => "Payment Required"
    case 403 => "Forbidden"
    case 404 => "Not Found"
    case 405 => "Method Not Allowed"
    case 406 => "Not Acceptable"
    case 407 => "Proxy Authentication Required"
    case 408 => "Request Timeout"
    case 409 => "Conflict"
    case 410 => "Gone"
    case 411 => "Length Required"
    case 412 => "Precondition Failed"
    case 413 => "Request Entity Too Large"
    case 414 => "Request URI Too Long"
    case 415 => "Unsupported Media Type"
    case 416 => "Requested Range Not Satisfiable"
    case 417 => "Expectation Failed"
    case 418 => "I'm a teapot"
    case 421 => "Misdirected Request"
    case 422 => "Unprocessable Entity"
    case 423 => "Locked"
    case 424 => "Failed Dependency"
    case 425 => "Too Early"
    case 426 => "Upgrade Required"
    case 428 => "Precondition Required"
    case 429 => "Too Many Requests"
    case 431 => "Request Header Fields Too Large"
    case 451 => "Unavailable For Legal Reasons"
    case 500 => "Internal Server Error"
    case 501 => "Not Implemented"
    case 502 => "Bad Gateway"
    case 503 => "Service Unavailable"
    case 504 => "Gateway Timeout"
    case 505 => "HTTP Version Not Supported"
    case 506 => "Variant Also Negotiates"
    case 507 => "Insufficient Storage"
    case 508 => "Loop Detected"
    case 510 => "Not Extended"
    case 511 => "Network Authentication Required"
    case _ => ""
  }

  /** TestURL: classify an outcome into a copy of `test`. Only a healthy
      response marks it successful; on that path the previous status code
      and error text are kept as they were. */
  function TestURL(test: TestResult, o: Outcome): (r: TestResult)
    ensures r.name == test.name && r.url == test.url
    ensures r.tested == test.tested && r.duration == test.duration && r.durationMS == test.durationMS
    ensures r.success <==> Healthy(o)
    ensures Healthy(o) ==> r.statusCode == test.statusCode && r.errorMsg == test.errorMsg
    ensures o.Failed? ==> r.errorMsg == o.message
    ensures o.Failed? && o.response.Some? ==> r.statusCode == o.response.value
    ensures o.Failed? && o.response.None? ==> r.statusCode == -1
    ensures o.Responded? && !Healthy(o) ==> r.statusCode == o.statusCode && r.errorMsg == StatusText(o.statusCode)
  {
    match o
    case Failed(response, message) =>
      var code := if response.Some? then response.value else -1;
      test.(statusCode := code, success := false, errorMsg := message)
    case Responded(code) =>
      if code == 200 then test.(success := true)
      else test.(statusCode := code, success := false, errorMsg := StatusText(code))
  }

  /** An endpoint that recovers keeps the status code and error text of its
      last failure: the success path does not reset them. */
  lemma RecoveryKeepsStaleFields()
    ensures var failed := TestURL(TestResult("b", "https://b/", 200, 0, true, 0, 0, ""), Responded(500));
            var recovered := TestURL(failed, Responded(200));
            recovered.success && recovered.statusCode == 500 && recovered.errorMsg == "Internal Server Error"
  {
  }

  /** One iteration of the probe loop: classify, then stamp the start time,
      the elapsed nanoseconds and the elapsed milliseconds (integer division). */
  function Measure(test: TestResult, obs: Observation): (r: TestResult)
    ensures r.name == test.name && r.url == test.url
    ensures r.tested == obs.start && r.duration == obs.elapsed
    ensures r.durationMS == obs.elapsed / 1_000_000
    ensures r.success <==> Healthy(obs.outcome)
  {
    TestURL(test, obs.outcome).(duration := obs.elapsed, durationMS := obs.elapsed / 1_000_000, tested := obs.start)
  }
}
