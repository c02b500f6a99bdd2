/**
 * The fetch / back-off / forward loop of the exporter's `main`.
 *
 * The billing API is a finite sequence of mocked responses, one consumed per
 * GET; the effects the loop has on the outside world (GETs, sleeps, forwards
 * to the event collector, printed error lines) are recorded in a trace.
 */
module ExportLoop {
  import opened Wrappers
  import opened Params
  import opened BillingRecord

  /** A status code the loop neither accepts, nor backs off on, nor reads errors from. */
  type OtherCode = c: int | c != 200 && c != 429 && c != 400 witness 500

  /** One response of the billing API, as the loop classifies it. */
  datatype Response =
    | Ok(data: seq<Record>, next: Option<string>)  // 200: `data` and `metadata.next` (null is None)
    | RateLimited                                   // 429
    | BadRequest(errors: seq<string>)               // 400: the body's `errors` entries
    | OtherStatus(code: OtherCode)                  // any other status
    | Malformed                                     // 200 whose body is not JSON

  /** What a GET asks for: the first request with its query, or a URL as it stands. */
  datatype Target = FirstPage(url: string, params: Params) | Page(url: string)

  /** The lines the loop prints about the API. */
  datatype Message =
    | BackingOff(seconds: nat)
    | HttpErrorEntry(entry: string)
    | HttpErrorCode(code: int)
    | PayloadError   // `Value Error`: a 200 body that is not JSON
    | InvalidUrl     // `Value Error`: `requests` refuses a URL with no scheme before sending anything

  /**
   * What `next_url` holds. Before the loop it is a fixed non-empty sentence,
   * so that the loop runs at least once; that sentence has no URL scheme, so
   * a GET of it is refused. Only a 200 reassigns it, to `metadata.next`.
   */
  datatype NextUrl =
    | Placeholder          // the initial sentence
    | Link(url: string)    // a `metadata.next` string
    | Null                 // a `metadata.next` of null

  datatype Event =
    | Get(target: Target)
    | Sleep(seconds: nat)
    | Forward(record: Record)
    | Report(message: Message)

  /** Fetching: a GET is outstanding. Done: no next page. Failed: a fatal response, or a refused URL. */
  datatype Phase = Fetching | Done | Failed

  /** The loop's variables and the effects so far. */
  datatype LoopState = LoopState(
    phase: Phase,
    nextUrl: NextUrl,
    backoff: nat,
    apiRequests: nat,
    dataRows: nat,
    trace: seq<Event>)

  /** Python truthiness of `next_url`: the placeholder, or a non-empty link. */
  predicate Truthy(u: NextUrl) {
    u.Placeholder? || (u.Link? && u.url != "")
  }

  /** A `next_url` the loop goes on with: a non-empty link, which is GET as it stands. */
  predicate Continues(u: NextUrl) {
    u.Link? && u.url != ""
  }

  /** The value `metadata.next` gives `next_url`. */
  function FromMetadata(next: Option<string>): NextUrl {
    if next.Some? then Link(next.value) else Null
  }

  /** One Forward per record, in order. */
  function Forwards(records: seq<Record>): (evs: seq<Event>)
    ensures |evs| == |records|
  {
    if records == [] then []
    else Forwards(records[..|records| - 1]) + [Forward(records[|records| - 1])]
  }

  /** One printed line per entry of a 400 body's `errors`, in order. */
  function ErrorReports(errors: seq<string>): (evs: seq<Event>)
    ensures |evs| == |errors|
  {
    if errors == [] then []
    else ErrorReports(errors[..|errors| - 1]) + [Report(HttpErrorEntry(errors[|errors| - 1]))]
  }

  /** The state right after the initial GET and before the loop. */
  function Start(restUrl: string, params: Params): LoopState {
    LoopState(Fetching, Placeholder, 0, 1, 0, [Get(FirstPage(restUrl, params))])
  }

  /**
   * What `if next_url: requests.get(next_url, ...)` adds to the trace: a GET
   * of a non-empty link; for the placeholder, the line printed when `requests`
   * refuses it as a `ValueError`; nothing for a falsy value.
   */
  function Follow(u: NextUrl): seq<Event> {
    match u
    case Placeholder => [Report(InvalidUrl)]
    case Link(url) => if url != "" then [Get(Page(url))] else []
    case Null => []
  }

  /**
   * The end of an iteration: a non-empty link is fetched and counted; the
   * refused placeholder breaks out of the loop; a falsy value ends it.
   */
  function IssueNext(h: LoopState): LoopState {
    var h' := h.(trace := h.trace + Follow(h.nextUrl));
    match h.nextUrl
    case Placeholder => h'.(phase := Failed)
    case Link(url) => if url != "" then h'.(apiRequests := h.apiRequests + 1) else h'.(phase := Done)
    case Null => h'.(phase := Done)
  }

  /** What the `try` body prints, sleeps and forwards for a response, before `if next_url`. */
  function Body(s: LoopState, response: Response): seq<Event> {
    match response
    case Ok(data, _) => Forwards(data)
    case RateLimited => [Report(BackingOff(s.backoff + 1)), Sleep(s.backoff + 1)]
    case BadRequest(errors) => ErrorReports(errors)
    case OtherStatus(code) => [Report(HttpErrorCode(code))]
    case Malformed => [Report(PayloadError)]
  }

  /** The `try` body up to `if next_url`: what the response to the outstanding GET does. */
  function Handle(s: LoopState, response: Response): LoopState
    requires s.phase == Fetching
  {
    var s' := s.(trace := s.trace + Body(s, response));
    match response
    case Ok(data, next) => s'.(backoff := 0, nextUrl := FromMetadata(next), dataRows := s.dataRows + |data|)
    case RateLimited => s'.(backoff := s.backoff + 1)
    case BadRequest(_) => s'.(phase := Failed)
    case OtherStatus(_) => s'.(phase := Failed)
    case Malformed => s'.(phase := Failed, backoff := 0)
  }

  /** One iteration of the loop: handle the response, then GET `next_url` unless a fatal response broke out. */
  function Step(s: LoopState, response: Response): LoopState
    requires s.phase == Fetching
  {
    var h := Handle(s, response);
    if h.phase == Fetching then IssueNext(h) else h
  }

  /** Iterations until the loop ends or the mocked responses run out. */
  function Run(s: LoopState, responses: seq<Response>): LoopState
    decreases |responses|
  {
    if s.phase != Fetching || responses == [] then s
    else Run(Step(s, responses[0]), responses[1..])
  }

  /** How many of the mocked responses the loop consumes. */
  function Answered(s: LoopState, responses: seq<Response>): (n: nat)
    ensures n <= |responses|
    decreases |responses|
  {
    if s.phase != Fetching || responses == [] then 0
    else 1 + Answered(Step(s, responses[0]), responses[1..])
  }

  /** `main` from resolving the request parameters to leaving the loop. */
  function ExportSpec(restUrl: string, args: Args, responses: seq<Response>): Result<LoopState, ConfigError> {
    match RequestParams(args)
    case Failure(e) => Failure(e)
    case Success(params) => Success(Run(Start(restUrl, params), responses))
  }

  /**
   * The `for data in billing_data` loop: computes each record's key, which
   * goes unused, and forwards the record to the event collector.
   */
  method ForwardPage(trace: seq<Event>, data: seq<Record>) returns (t: seq<Event>)
    ensures t == trace + Forwards(data)
  {
    t := trace;
    for j := 0 to |data|
      invariant t == trace + Forwards(data[..j])
    {
      var key := KeyBillingData(data[j]);  // computed and never used
      assert data[..j + 1][..j] == data[..j];
      t := t + [Forward(data[j])];
    }
    assert data[..|data|] == data;
  }

  /** The `for e in r['errors']` loop: prints each entry of a 400 body. */
  method ReportErrors(trace: seq<Event>, errors: seq<string>) returns (t: seq<Event>)
    ensures t == trace + ErrorReports(errors)
  {
    t := trace;
    for j := 0 to |errors|
      invariant t == trace + ErrorReports(errors[..j])
    {
      assert errors[..j + 1][..j] == errors[..j];
      t := t + [Report(HttpErrorEntry(errors[j]))];
    }
    assert errors[..|errors|] == errors;
  }

  /**
   * The loop as the exporter runs it. The request parameters are resolved
   * before the first GET, so a configuration error issues nothing.
   */
  method Export(restUrl: string, args: Args, responses: seq<Response>) returns (r: Result<LoopState, ConfigError>)
    ensures r == ExportSpec(restUrl, args, responses)
  {
    var params := RequestParams(args);
    if params.Failure? {
      return Failure(params.error);
    }
    var trace := [Get(FirstPage(restUrl, params.value))];
    var apiRequests: nat := 1;
    var dataRows: nat := 0;
    var nextUrl := Placeholder;
    var backoff: nat := 0;
    var phase := Fetching;
    var i := 0;
    while phase == Fetching && i < |responses|
      invariant i <= |responses|
      invariant Run(LoopState(phase, nextUrl, backoff, apiRequests, dataRows, trace), responses[i..])
             == Run(Start(restUrl, params.value), responses)
      decreases |responses| - i
    {
      ghost var before := LoopState(phase, nextUrl, backoff, apiRequests, dataRows, trace);
      var response := responses[i];
      assert responses[i..][1..] == responses[i + 1..];
      i := i + 1;
      match response {
        case Ok(data, next) =>
          backoff := 0;
          nextUrl := FromMetadata(next);
          dataRows := dataRows + |data|;
          trace := ForwardPage(trace, data);
        case RateLimited =>
          backoff := backoff + 1;
          trace := trace + [Report(BackingOff(backoff)), Sleep(backoff)];
        case BadRequest(errors) =>
          trace := ReportErrors(trace, errors);
          phase := Failed;
        case OtherStatus(code) =>
          trace := trace + [Report(HttpErrorCode(code))];
          phase := Failed;
        case Malformed =>
          backoff := 0;
          trace := trace + [Report(PayloadError)];
          phase := Failed;
      }
      ghost var handled := LoopState(phase, nextUrl, backoff, apiRequests, dataRows, trace);
      assert handled == Handle(before, response);
      if phase == Fetching {
        match nextUrl {
          case Placeholder =>
            trace := trace + [Report(InvalidUrl)];
            phase := Failed;
          case Link(url) =>
            if url != "" {
              trace := trace + [Get(Page(url))];
              apiRequests := apiRequests + 1;
            } else {
              phase := Done;
            }
          case Null =>
            phase := Done;
        }
        assert LoopState(phase, nextUrl, backoff, apiRequests, dataRows, trace) == IssueNext(handled);
      }
      assert LoopState(phase, nextUrl, backoff, apiRequests, dataRows, trace) == Step(before, response);
    }
    r := Success(LoopState(phase, nextUrl, backoff, apiRequests, dataRows, trace));
  }
}
