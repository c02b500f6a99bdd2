/**
 * What the export loop guarantees, stated over its trace: which GETs it
 * issues, how long it sleeps, which records it forwards and what it reports.
 */
module ExportProperties {
  import opened Wrappers
  import opened Params
  import opened BillingRecord
  import opened ExportLoop

  /** The kinds of event a trace is split into. */
  datatype Kind = GetKind | SleepKind | ForwardKind

  predicate IsKind(e: Event, k: Kind) {
    match k
    case GetKind => e.Get?
    case SleepKind => e.Sleep?
    case ForwardKind => e.Forward?
  }

  /** The events of one kind in a trace, in trace order. */
  function Only(trace: seq<Event>, k: Kind): (r: seq<Event>)
    ensures |r| <= |trace|
  {
    if trace == [] then []
    else Only(trace[..|trace| - 1], k) + (if IsKind(trace[|trace| - 1], k) then [trace[|trace| - 1]] else [])
  }

  /** The GETs of a trace. */
  function Gets(trace: seq<Event>): seq<Event> {
    Only(trace, GetKind)
  }

  /** The sleeps of a trace. */
  function Sleeps(trace: seq<Event>): seq<Event> {
    Only(trace, SleepKind)
  }

  /** The forwards of a trace, in the order they were sent. */
  function Forwarded(trace: seq<Event>): seq<Event> {
    Only(trace, ForwardKind)
  }

  /** The records a response carries: a 200's `data`, nothing for any other response. */
  function PageOf(r: Response): seq<Record> {
    if r.Ok? then r.data else []
  }

  /** The records of the 200 responses in a response sequence, page after page. */
  function PageRecords(responses: seq<Response>): seq<Record> {
    if responses == [] then [] else PageOf(responses[0]) + PageRecords(responses[1..])
  }

  /** The records of the first n + 1 responses: the first page, then those of the next n. */
  lemma PageRecordsFirst(responses: seq<Response>, n: nat)
    requires n < |responses|
    ensures PageRecords(responses[..n + 1]) == PageOf(responses[0]) + PageRecords(responses[1..][..n])
  {
    var consumed := responses[..n + 1];
    assert consumed[0] == responses[0] && consumed[1..] == responses[1..][..n];
  }

  /** Sleeps of `from`, `from + 1`, ..., `from + k - 1` seconds. */
  function SleepRamp(from: nat, k: nat): (r: seq<Event>)
    ensures |r| == k
    decreases k
  {
    if k == 0 then [] else [Sleep(from)] + SleepRamp(from + 1, k - 1)
  }

  function Repeat<T>(x: T, k: nat): (r: seq<T>)
    ensures |r| == k
  {
    if k == 0 then [] else [x] + Repeat(x, k - 1)
  }

  /** Regrouping a concatenation, called where the surrounding context is too large for the solver to see it unaided. */
  lemma AppendAssoc<T>(a: seq<T>, b: seq<T>, c: seq<T>)
    ensures a + b + c == a + (b + c)
  {
  }

  lemma {:induction false} OnlyAppend(t: seq<Event>, u: seq<Event>, k: Kind)
    ensures Only(t + u, k) == Only(t, k) + Only(u, k)
  {
    if u == [] {
      assert t + u == t;
    } else {
      assert (t + u)[..|t + u| - 1] == t + u[..|u| - 1];
      OnlyAppend(t, u[..|u| - 1], k);
    }
  }

  lemma OnlyOne(e: Event, k: Kind)
    ensures Only([e], k) == (if IsKind(e, k) then [e] else [])
  {
    assert [e][..0] == [];
  }

  lemma {:induction false} OnlyNone(t: seq<Event>, k: Kind)
    requires forall i :: 0 <= i < |t| ==> !IsKind(t[i], k)
    ensures Only(t, k) == []
  {
    if t != [] {
      OnlyNone(t[..|t| - 1], k);
    }
  }

  lemma {:induction false} OnlyAll(t: seq<Event>, k: Kind)
    requires forall i :: 0 <= i < |t| ==> IsKind(t[i], k)
    ensures Only(t, k) == t
  {
    if t != [] {
      OnlyAll(t[..|t| - 1], k);
      assert t[..|t| - 1] + [t[|t| - 1]] == t;
    }
  }

  /** Forwarding two pages one after the other forwards their concatenation. */
  lemma {:induction false} ForwardsAppend(a: seq<Record>, b: seq<Record>)
    ensures Forwards(a + b) == Forwards(a) + Forwards(b)
  {
    if b == [] {
      assert a + b == a;
    } else {
      assert (a + b)[..|a + b| - 1] == a + b[..|b| - 1];
      ForwardsAppend(a, b[..|b| - 1]);
    }
  }

  /** Printed lines alone issue no GET, sleep or forward. */
  lemma {:induction false} ReportsOnly(evs: seq<Event>)
    requires forall i :: 0 <= i < |evs| ==> evs[i].Report?
    ensures Gets(evs) == [] && Sleeps(evs) == [] && Forwarded(evs) == []
  {
    OnlyNone(evs, GetKind);
    OnlyNone(evs, SleepKind);
    OnlyNone(evs, ForwardKind);
  }

  /** The lines printed for a 400 issue no GET, sleep or forward. */
  lemma {:induction false} ErrorReportsOnly(errors: seq<string>)
    ensures Gets(ErrorReports(errors)) == [] && Sleeps(ErrorReports(errors)) == []
    ensures Forwarded(ErrorReports(errors)) == []
  {
    if errors != [] {
      var init := errors[..|errors| - 1];
      var last := Report(HttpErrorEntry(errors[|errors| - 1]));
      ErrorReportsOnly(init);
      OnlyAppend(ErrorReports(init), [last], GetKind);
      OnlyAppend(ErrorReports(init), [last], SleepKind);
      OnlyAppend(ErrorReports(init), [last], ForwardKind);
      ReportsOnly([last]);
    }
  }

  /** Forwarding a page issues no GET or sleep, only the page's forwards, one per record. */
  lemma {:induction false} ForwardsOnly(data: seq<Record>)
    ensures Gets(Forwards(data)) == [] && Sleeps(Forwards(data)) == []
    ensures Forwarded(Forwards(data)) == Forwards(data)
  {
    if data != [] {
      var init := data[..|data| - 1];
      var last := Forward(data[|data| - 1]);
      ForwardsOnly(init);
      OnlyAppend(Forwards(init), [last], GetKind);
      OnlyAppend(Forwards(init), [last], SleepKind);
      OnlyAppend(Forwards(init), [last], ForwardKind);
      OnlyOne(last, GetKind);
      OnlyOne(last, SleepKind);
      OnlyOne(last, ForwardKind);
    }
  }

  /** Backing off prints a line and sleeps once. */
  lemma BackoffOnly(seconds: nat)
    ensures var evs := [Report(BackingOff(seconds)), Sleep(seconds)];
      Gets(evs) == [] && Sleeps(evs) == [Sleep(seconds)] && Forwarded(evs) == []
  {
    var evs := [Report(BackingOff(seconds)), Sleep(seconds)];
    assert evs[..1] == [Report(BackingOff(seconds))];
    ReportsOnly(evs[..1]);
  }

  /** An iteration's body issues no GET, sleeps only on a 429 and forwards only a 200's records. */
  lemma BodyEffects(s: LoopState, r: Response)
    ensures Gets(Body(s, r)) == []
    ensures Sleeps(Body(s, r)) == (if r.RateLimited? then [Sleep(s.backoff + 1)] else [])
    ensures Forwarded(Body(s, r)) == (if r.Ok? then Forwards(r.data) else [])
  {
    match r {
      case Ok(data, _) => ForwardsOnly(data);
      case RateLimited => BackoffOnly(s.backoff + 1);
      case BadRequest(errors) => ErrorReportsOnly(errors);
      case _ => ReportsOnly(Body(s, r));
    }
  }

  /** The trace of an iteration: the body, then what following `next_url` adds unless the body broke out. */
  lemma StepTrace(s: LoopState, r: Response)
    requires s.phase == Fetching
    ensures var h := Handle(s, r); var t := Step(s, r);
      && t.nextUrl == h.nextUrl
      && (t.phase == Fetching <==> h.phase == Fetching && Continues(t.nextUrl))
      && t.apiRequests == s.apiRequests + (if t.phase == Fetching then 1 else 0)
      && t.dataRows == s.dataRows + (if r.Ok? then |r.data| else 0)
      && t.trace == s.trace + Body(s, r) + (if h.phase == Fetching then Follow(t.nextUrl) else [])
  {
  }

  /** Splitting a trace made of three parts by kind. */
  lemma OnlyThree(pre: seq<Event>, body: seq<Event>, tail: seq<Event>, k: Kind)
    ensures Only(pre + body + tail, k) == Only(pre, k) + Only(body, k) + Only(tail, k)
  {
    OnlyAppend(pre + body, tail, k);
    OnlyAppend(pre, body, k);
  }

  /** Following `next_url` GETs a non-empty link and nothing else; it never sleeps or forwards. */
  lemma FollowKinds(u: NextUrl)
    ensures Gets(Follow(u)) == (if Continues(u) then [Get(Page(u.url))] else [])
    ensures Sleeps(Follow(u)) == [] && Forwarded(Follow(u)) == []
  {
    if Follow(u) != [] {
      var e := Follow(u)[0];
      assert Follow(u) == [e];
      OnlyOne(e, GetKind);
      OnlyOne(e, SleepKind);
      OnlyOne(e, ForwardKind);
    }
  }

  /** Gets of a trace extended by a body without GETs and a tail. */
  lemma GetsAfter(pre: seq<Event>, body: seq<Event>, tail: seq<Event>)
    requires Gets(body) == []
    ensures Gets(pre + body + tail) == Gets(pre) + Gets(tail)
  {
    OnlyThree(pre, body, tail, GetKind);
  }

  /** An iteration GETs `next_url` exactly when the loop goes on, and only then counts a request. */
  lemma StepGets(s: LoopState, r: Response)
    requires s.phase == Fetching
    ensures var t := Step(s, r);
      && (t.phase == Fetching ==> Continues(t.nextUrl))
      && t.apiRequests == s.apiRequests + (if t.phase == Fetching then 1 else 0)
      && Gets(t.trace) == Gets(s.trace) + (if t.phase == Fetching then [Get(Page(t.nextUrl.url))] else [])
  {
    var h := Handle(s, r);
    var t := Step(s, r);
    var tail := if h.phase == Fetching then Follow(t.nextUrl) else [];
    StepTrace(s, r);
    BodyEffects(s, r);
    assert Gets(tail) == (if t.phase == Fetching then [Get(Page(t.nextUrl.url))] else []) by {
      FollowKinds(t.nextUrl);
    }
    GetsAfter(s.trace, Body(s, r), tail);
  }

  /** The sleeps and forwards of a trace extended by a body and a tail that neither sleeps nor forwards. */
  lemma SleepsForwardsAfter(pre: seq<Event>, body: seq<Event>, tail: seq<Event>)
    requires Sleeps(tail) == [] && Forwarded(tail) == []
    ensures Sleeps(pre + body + tail) == Sleeps(pre) + Sleeps(body)
    ensures Forwarded(pre + body + tail) == Forwarded(pre) + Forwarded(body)
  {
    OnlyThree(pre, body, tail, SleepKind);
    OnlyThree(pre, body, tail, ForwardKind);
  }

  /** An iteration sleeps once, for the grown back-off, exactly on a 429. */
  lemma StepSleeps(s: LoopState, r: Response)
    requires s.phase == Fetching
    ensures Sleeps(Step(s, r).trace) == Sleeps(s.trace) + (if r.RateLimited? then [Sleep(s.backoff + 1)] else [])
  {
    var h := Handle(s, r);
    var tail := if h.phase == Fetching then Follow(h.nextUrl) else [];
    StepTrace(s, r);
    BodyEffects(s, r);
    FollowKinds(h.nextUrl);
    SleepsForwardsAfter(s.trace, Body(s, r), tail);
  }

  /** An iteration forwards the records of a 200, in page order, and counts them; nothing otherwise. */
  lemma StepForwards(s: LoopState, r: Response)
    requires s.phase == Fetching
    ensures var t := Step(s, r);
      && t.dataRows == s.dataRows + (if r.Ok? then |r.data| else 0)
      && Forwarded(t.trace) == Forwarded(s.trace) + (if r.Ok? then Forwards(r.data) else [])
  {
    var h := Handle(s, r);
    var tail := if h.phase == Fetching then Follow(h.nextUrl) else [];
    StepTrace(s, r);
    BodyEffects(s, r);
    FollowKinds(h.nextUrl);
    SleepsForwardsAfter(s.trace, Body(s, r), tail);
  }

  /** The loop consumes the responses in order: the first, then the rest. */
  lemma RunFirst(s: LoopState, r: Response, rest: seq<Response>)
    requires s.phase == Fetching
    ensures Run(s, [r] + rest) == Run(Step(s, r), rest)
    ensures Answered(s, [r] + rest) == 1 + Answered(Step(s, r), rest)
  {
    assert ([r] + rest)[0] == r && ([r] + rest)[1..] == rest;
  }

  /** The loop's counters agree with its trace, and it only waits on a response with a truthy `next_url`. */
  ghost predicate Consistent(s: LoopState) {
    && s.apiRequests == |Gets(s.trace)|
    && s.dataRows == |Forwarded(s.trace)|
    && (s.phase == Fetching ==> Truthy(s.nextUrl))
  }

  lemma {:induction false} RunConsistent(s: LoopState, responses: seq<Response>)
    requires Consistent(s)
    ensures Consistent(Run(s, responses))
    decreases |responses|
  {
    if s.phase == Fetching && responses != [] {
      StepGets(s, responses[0]);
      StepForwards(s, responses[0]);
      RunConsistent(Step(s, responses[0]), responses[1..]);
    }
  }

  /** Feeding responses in two batches is feeding them at once. */
  lemma {:induction false} RunAppend(s: LoopState, a: seq<Response>, b: seq<Response>)
    ensures Run(s, a + b) == Run(Run(s, a), b)
    ensures Answered(s, a + b) == Answered(s, a) + Answered(Run(s, a), b)
    decreases |a|
  {
    if a == [] {
      assert a + b == b;
    } else if s.phase == Fetching {
      assert (a + b)[0] == a[0];
      assert (a + b)[1..] == a[1..] + b;
      RunAppend(Step(s, a[0]), a[1..], b);
    }
  }

  /**
   * Every GET consumes exactly one response: when the loop has ended, there
   * were as many GETs as responses consumed; while it is still waiting, one more.
   */
  lemma {:induction false} RunAnswersEachGet(s: LoopState, responses: seq<Response>)
    requires s.phase == Fetching
    ensures var t := Run(s, responses);
      && |Gets(t.trace)| + (if t.phase == Fetching then 0 else 1) == |Gets(s.trace)| + Answered(s, responses)
      && (t.phase == Fetching ==> Answered(s, responses) == |responses|)
    decreases |responses|
  {
    if responses != [] {
      var t := Step(s, responses[0]);
      StepGets(s, responses[0]);
      if t.phase == Fetching {
        RunAnswersEachGet(t, responses[1..]);
      }
    }
  }

  /** The loop only appends GETs; it never takes one back. */
  lemma {:induction false} GetsOnlyGrow(s: LoopState, responses: seq<Response>)
    ensures Gets(s.trace) <= Gets(Run(s, responses).trace)
    decreases |responses|
  {
    if s.phase == Fetching && responses != [] {
      StepGets(s, responses[0]);
      GetsOnlyGrow(Step(s, responses[0]), responses[1..]);
    }
  }

  /** The forwarded stream is the records of the consumed pages, in page and record order. */
  lemma {:induction false} RunForwardsPagesInOrder(s: LoopState, responses: seq<Response>)
    ensures Forwarded(Run(s, responses).trace)
         == Forwarded(s.trace) + Forwards(PageRecords(responses[..Answered(s, responses)]))
    decreases |responses|
  {
    if s.phase != Fetching || responses == [] {
      assert responses[..0] == [];
    } else {
      var r := responses[0];
      var t := Step(s, r);
      var rest := responses[1..];
      var n := Answered(t, rest);
      StepForwards(s, r);
      RunForwardsPagesInOrder(t, rest);
      PageRecordsFirst(responses, n);
      ForwardsAppend(PageOf(r), PageRecords(rest[..n]));
      AppendAssoc(Forwarded(s.trace), Forwards(PageOf(r)), Forwards(PageRecords(rest[..n])));
    }
  }

  /**
   * A 200 resets the back-off, counts its records, forwards each of them in
   * page order and only then issues the GET for a non-empty `metadata.next`;
   * without one the loop is done.
   */
  lemma OkPage(s: LoopState, data: seq<Record>, next: Option<string>)
    requires s.phase == Fetching
    ensures var t := Step(s, Ok(data, next));
      && t.backoff == 0
      && t.dataRows == s.dataRows + |data|
      && t.nextUrl == FromMetadata(next)
      && t.trace == s.trace + Forwards(data) + (if Continues(FromMetadata(next)) then [Get(Page(next.value))] else [])
      && t.phase == (if Continues(FromMetadata(next)) then Fetching else Done)
  {
  }

  /** A 200 without a non-empty next link ends the loop: nothing further is fetched. */
  lemma LastPageEndsLoop(s: LoopState, data: seq<Record>, next: Option<string>, rest: seq<Response>)
    requires s.phase == Fetching && !Continues(FromMetadata(next))
    ensures var t := Run(s, [Ok(data, next)] + rest);
      && t.phase == Done
      && t.backoff == 0
      && t.apiRequests == s.apiRequests
      && Gets(t.trace) == Gets(s.trace)
      && Sleeps(t.trace) == Sleeps(s.trace)
      && Forwarded(t.trace) == Forwarded(s.trace) + Forwards(data)
      && Answered(s, [Ok(data, next)] + rest) == 1
  {
    StepGets(s, Ok(data, next));
    StepSleeps(s, Ok(data, next));
    StepForwards(s, Ok(data, next));
  }

  /** One 429 while `next_url` is a continuation link: a longer back-off, one sleep of it, and a retry of that link. */
  lemma RateLimitedStep(s: LoopState)
    requires s.phase == Fetching && Continues(s.nextUrl)
    ensures var t := Step(s, RateLimited);
      && t.phase == Fetching && t.nextUrl == s.nextUrl
      && t.backoff == s.backoff + 1 && t.apiRequests == s.apiRequests + 1
      && Gets(t.trace) == Gets(s.trace) + [Get(Page(s.nextUrl.url))]
      && Sleeps(t.trace) == Sleeps(s.trace) + [Sleep(s.backoff + 1)]
      && Forwarded(t.trace) == Forwarded(s.trace)
  {
    StepGets(s, RateLimited);
    StepSleeps(s, RateLimited);
    StepForwards(s, RateLimited);
  }

  /** A ramp of k > 0 sleeps after a prefix: its first sleep, then the rest of the ramp. */
  lemma RampFirst(pre: seq<Event>, from: nat, k: nat)
    requires k > 0
    ensures pre + [Sleep(from)] + SleepRamp(from + 1, k - 1) == pre + SleepRamp(from, k)
  {
    AppendAssoc(pre, [Sleep(from)], SleepRamp(from + 1, k - 1));
  }

  /** k > 0 copies after a prefix: the first copy, then the other k - 1. */
  lemma RepeatFirst<T>(pre: seq<T>, x: T, k: nat)
    requires k > 0
    ensures pre + [x] + Repeat(x, k - 1) == pre + Repeat(x, k)
  {
    AppendAssoc(pre, [x], Repeat(x, k - 1));
  }

  /** k > 0 copies of a response: the loop takes the first, then the other k - 1. */
  lemma RunRepeat(s: LoopState, r: Response, k: nat)
    requires s.phase == Fetching && k > 0
    ensures Run(s, Repeat(r, k)) == Run(Step(s, r), Repeat(r, k - 1))
  {
    RunFirst(s, r, Repeat(r, k - 1));
  }

  /**
   * k consecutive 429s while `next_url` is a continuation link add 1 to the
   * back-off each and retry the very same link each time, counting each
   * retry; nothing is forwarded.
   */
  lemma {:induction false} RateLimitedRetries(s: LoopState, k: nat)
    requires s.phase == Fetching && Continues(s.nextUrl)
    ensures var t := Run(s, Repeat(RateLimited, k));
      && t.phase == Fetching
      && t.nextUrl == s.nextUrl
      && t.backoff == s.backoff + k
      && t.apiRequests == s.apiRequests + k
      && Gets(t.trace) == Gets(s.trace) + Repeat(Get(Page(s.nextUrl.url)), k)
      && Forwarded(t.trace) == Forwarded(s.trace)
    decreases k
  {
    if k > 0 {
      var get := Get(Page(s.nextUrl.url));
      var t := Step(s, RateLimited);
      assert t.phase == Fetching && t.nextUrl == s.nextUrl && t.backoff == s.backoff + 1
        && t.apiRequests == s.apiRequests + 1 && Forwarded(t.trace) == Forwarded(s.trace)
        && Sleeps(t.trace) == Sleeps(s.trace) + [Sleep(s.backoff + 1)]
        && Gets(t.trace) == Gets(s.trace) + [get] by {
        RateLimitedStep(s);
      }
      var u := Run(t, Repeat(RateLimited, k - 1));
      RunRepeat(s, RateLimited, k);
      RateLimitedRetries(t, k - 1);
      RepeatFirst(Gets(s.trace), get, k);
    } else {
      assert Run(s, Repeat(RateLimited, 0)) == s;
    }
  }

  /**
   * k consecutive 429s while `next_url` is a continuation link sleep the
   * grown back-off each time: 1 second more than the last, starting one
   * above the back-off reached so far.
   */
  lemma {:induction false} RateLimitedSleeps(s: LoopState, k: nat)
    requires s.phase == Fetching && Continues(s.nextUrl)
    ensures Sleeps(Run(s, Repeat(RateLimited, k)).trace) == Sleeps(s.trace) + SleepRamp(s.backoff + 1, k)
    decreases k
  {
    if k > 0 {
      var t := Step(s, RateLimited);
      assert t.phase == Fetching && Continues(t.nextUrl) && t.backoff == s.backoff + 1
        && Sleeps(t.trace) == Sleeps(s.trace) + [Sleep(s.backoff + 1)] by {
        RateLimitedStep(s);
      }
      RunRepeat(s, RateLimited, k);
      RateLimitedSleeps(t, k - 1);
      RampFirst(Sleeps(s.trace), s.backoff + 1, k);
    } else {
      assert Run(s, Repeat(RateLimited, 0)) == s;
    }
  }

  /**
   * After a 200 with a non-empty next link, the following 429s sleep 1, 2,
   * ..., k seconds and retry that link each time; the page is forwarded once.
   */
  lemma BackoffRestartsAfterPage(s: LoopState, data: seq<Record>, url: string, k: nat)
    requires s.phase == Fetching && url != ""
    ensures var t := Run(s, [Ok(data, Some(url))] + Repeat(RateLimited, k));
      && t.phase == Fetching
      && t.nextUrl == Link(url)
      && t.backoff == k
      && t.apiRequests == s.apiRequests + k + 1
      && Sleeps(t.trace) == Sleeps(s.trace) + SleepRamp(1, k)
      && Gets(t.trace) == Gets(s.trace) + Repeat(Get(Page(url)), k + 1)
      && Forwarded(t.trace) == Forwarded(s.trace) + Forwards(data)
  {
    var rs := [Ok(data, Some(url))] + Repeat(RateLimited, k);
    var page := Step(s, Ok(data, Some(url)));
    var get := Get(Page(url));
    assert Run(s, rs) == Run(page, Repeat(RateLimited, k)) by {
      assert rs[0] == Ok(data, Some(url)) && rs[1..] == Repeat(RateLimited, k);
    }
    assert page.phase == Fetching && page.backoff == 0 && page.nextUrl == Link(url)
      && page.apiRequests == s.apiRequests + 1
      && Sleeps(page.trace) == Sleeps(s.trace)
      && Forwarded(page.trace) == Forwarded(s.trace) + Forwards(data)
      && Gets(page.trace) == Gets(s.trace) + [get] by {
      StepGets(s, Ok(data, Some(url)));
      StepSleeps(s, Ok(data, Some(url)));
      StepForwards(s, Ok(data, Some(url)));
    }
    RateLimitedRetries(page, k);
    RateLimitedSleeps(page, k);
    assert Repeat(get, k + 1) == [get] + Repeat(get, k);
    AppendAssoc(Gets(s.trace), [get], Repeat(get, k));
  }

  /**
   * Before any 200, `next_url` still holds the placeholder sentence: a 429
   * prints and sleeps the grown back-off, then the retry is refused for want
   * of a URL scheme, so the loop fails with no request sent or counted.
   */
  lemma RateLimitedOnPlaceholder(s: LoopState)
    requires s.phase == Fetching && s.nextUrl == Placeholder
    ensures var t := Step(s, RateLimited);
      && t.phase == Failed
      && t.backoff == s.backoff + 1
      && t.apiRequests == s.apiRequests
      && t.dataRows == s.dataRows
      && t.trace == s.trace + [Report(BackingOff(s.backoff + 1)), Sleep(s.backoff + 1), Report(InvalidUrl)]
  {
  }

  /**
   * A 429 on the first request: one request counted, a sleep of 1 second,
   * the refused retry reported, and the loop over whatever would follow.
   */
  lemma RateLimitedFirstRequestFails(restUrl: string, params: Params, rest: seq<Response>)
    ensures var t := Run(Start(restUrl, params), [RateLimited] + rest);
      && t.phase == Failed
      && t.apiRequests == 1
      && t.dataRows == 0
      && t.trace == [Get(FirstPage(restUrl, params)), Report(BackingOff(1)), Sleep(1), Report(InvalidUrl)]
      && Answered(Start(restUrl, params), [RateLimited] + rest) == 1
  {
    RunFirst(Start(restUrl, params), RateLimited, rest);
    RateLimitedOnPlaceholder(Start(restUrl, params));
  }

  /**
   * A 400, any other unexpected status or an unparseable 200 body ends the
   * loop in Failed with no further GET, whatever responses would follow.
   */
  lemma FatalEndsLoop(s: LoopState, r: Response, rest: seq<Response>)
    requires s.phase == Fetching
    requires r.BadRequest? || r.OtherStatus? || r.Malformed?
    ensures var t := Run(s, [r] + rest);
      && t.phase == Failed
      && t.apiRequests == s.apiRequests
      && Gets(t.trace) == Gets(s.trace)
      && Forwarded(t.trace) == Forwarded(s.trace)
      && Answered(s, [r] + rest) == 1
  {
    StepGets(s, r);
    StepForwards(s, r);
  }

  /**
   * What a fatal response prints, and that nothing else happens: a 400 one
   * line per entry of the body's `errors`, any other unexpected status its
   * code, an unparseable 200 body the payload error.
   */
  lemma FatalReports(s: LoopState, r: Response, rest: seq<Response>)
    requires s.phase == Fetching
    ensures r.BadRequest? ==> Run(s, [r] + rest).trace == s.trace + ErrorReports(r.errors)
    ensures r.OtherStatus? ==> Run(s, [r] + rest).trace == s.trace + [Report(HttpErrorCode(r.code))]
    ensures r.Malformed? ==> Run(s, [r] + rest).trace == s.trace + [Report(PayloadError)]
  {
    RunFirst(s, r, rest);
  }

  /**
   * The whole of `main`: a configuration error issues no request at all;
   * otherwise the first GET is the billing endpoint with the resolved parameter map,
   * the counters equal the GETs issued and the records forwarded, every GET
   * consumes one response, and the forwarded stream is the pages' records in order.
   */
  lemma ExportGuarantees(restUrl: string, args: Args, responses: seq<Response>)
    ensures ExportSpec(restUrl, args, responses).Failure? <==> RequestParams(args).Failure?
    ensures RequestParams(args).Failure? ==>
      ExportSpec(restUrl, args, responses) == Failure(RequestParams(args).error)
    ensures RequestParams(args).Success? ==>
      var t := ExportSpec(restUrl, args, responses).value;
      var n := Answered(Start(restUrl, RequestParams(args).value), responses);
      && Consistent(t)
      && [Get(FirstPage(restUrl, RequestParams(args).value))] <= Gets(t.trace)
      && |Gets(t.trace)| == n + (if t.phase == Fetching then 1 else 0)
      && Forwarded(t.trace) == Forwards(PageRecords(responses[..n]))
  {
    if RequestParams(args).Success? {
      var s := Start(restUrl, RequestParams(args).value);
      OnlyAll(s.trace, GetKind);
      OnlyNone(s.trace, ForwardKind);
      RunConsistent(s, responses);
      RunAnswersEachGet(s, responses);
      RunForwardsPagesInOrder(s, responses);
      GetsOnlyGrow(s, responses);
    }
  }

  /**
   * A page with a next link followed by a last page: one continuation GET,
   * both pages forwarded in order, the back-off reset, and the loop done.
   */
  lemma {:induction false} TwoPagesThenDone(s: LoopState, page1: seq<Record>, url: string, page2: seq<Record>)
    requires s.phase == Fetching && url != ""
    ensures var t := Run(s, [Ok(page1, Some(url)), Ok(page2, None)]);
      && t.phase == Done
      && t.apiRequests == s.apiRequests + 1
      && Gets(t.trace) == Gets(s.trace) + [Get(Page(url))]
      && Sleeps(t.trace) == Sleeps(s.trace)
      && Forwarded(t.trace) == Forwarded(s.trace) + Forwards(page1 + page2)
      && t.backoff == 0
  {
    var pages := [Ok(page1, Some(url)), Ok(page2, None)];
    var s1 := Step(s, pages[0]);
    StepGets(s, pages[0]);
    StepSleeps(s, pages[0]);
    StepForwards(s, pages[0]);
    var s2 := Step(s1, pages[1]);
    StepGets(s1, pages[1]);
    StepSleeps(s1, pages[1]);
    StepForwards(s1, pages[1]);
    assert Run(s, pages) == Run(s1, pages[1..]);
    assert Run(s1, pages[1..]) == Run(s2, []);
    ForwardsAppend(page1, page2);
  }

  /**
   * A 200 with a next link, k 429s on that link, then a 200 without a next
   * link: the first request and k + 1 GETs of the link; sleeps of 1, 2, ...,
   * k seconds; both pages forwarded in order; the loop ends in Done with the
   * back-off reset.
   */
  lemma PageRateLimitedThenLastPage(restUrl: string, params: Params, page1: seq<Record>, url: string, k: nat, page2: seq<Record>)
    requires url != ""
    ensures var t := Run(Start(restUrl, params), [Ok(page1, Some(url))] + Repeat(RateLimited, k) + [Ok(page2, None)]);
      && t.phase == Done
      && t.apiRequests == k + 2
      && Gets(t.trace) == [Get(FirstPage(restUrl, params))] + Repeat(Get(Page(url)), k + 1)
      && Sleeps(t.trace) == SleepRamp(1, k)
      && Forwarded(t.trace) == Forwards(page1 + page2)
      && t.backoff == 0
  {
    var s := Start(restUrl, params);
    var first := [Ok(page1, Some(url))] + Repeat(RateLimited, k);
    var s2 := Run(s, first);
    assert Run(s, first + [Ok(page2, None)]) == Run(s2, [Ok(page2, None)] + []) by {
      RunAppend(s, first, [Ok(page2, None)]);
    }
    assert s2.phase == Fetching && s2.apiRequests == k + 2
      && Gets(s2.trace) == [Get(FirstPage(restUrl, params))] + Repeat(Get(Page(url)), k + 1)
      && Sleeps(s2.trace) == SleepRamp(1, k) && Forwarded(s2.trace) == Forwards(page1) by {
      OnlyAll(s.trace, GetKind);
      OnlyNone(s.trace, SleepKind);
      OnlyNone(s.trace, ForwardKind);
      BackoffRestartsAfterPage(s, page1, url, k);
    }
    LastPageEndsLoop(s2, page2, None, []);
    ForwardsAppend(page1, page2);
  }

  /** A 400 with one error entry reports that entry and ends the loop without a retry. */
  lemma SingleBadRequestExample(restUrl: string, params: Params, detail: string, rest: seq<Response>)
    ensures var t := Run(Start(restUrl, params), [BadRequest([detail])] + rest);
      && t.phase == Failed
      && t.apiRequests == 1
      && t.trace == [Get(FirstPage(restUrl, params)), Report(HttpErrorEntry(detail))]
  {
    assert ErrorReports([detail]) == [Report(HttpErrorEntry(detail))];
  }
}
