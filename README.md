# Confluent Cloud billing exporter: request parameters and export loop

This project models the core of the exporter script
`ccloud-billing-exporter/ccloud-billing-export.py`. The script reads billing
line items from the Confluent Cloud billing REST API page by page and forwards
each item to an event collector.

Three pieces are modelled:

- **`request_params`** (module `Params`). A pure function turns the
  configured options into the query of the first API request. Both
  `start_date` and `end_date` are passed through verbatim when both are set.
  Otherwise a `--month` of year Y and month M becomes `Y-M-01` through the
  first day of the following month, with December rolling over into January
  of Y+1. With neither, resolution fails. `page_size` is added to the
  parameter map whenever the options object has that attribute, even when
  its value is None. Module
  `DateFormat` holds the zero-padded `YYYY-MM-DD` formatter and a reader that
  serves as its inverse.
- **`key_billing_data`** (module `BillingRecord`). It returns the key triple
  of a line item: resource id, start date and granularity.
- **The `while next_url` loop of `main`** (module `ExportLoop`). The API is a
  finite sequence of mocked responses; each GET consumes the next one. The
  responses are:
  - 200 with `data` and `metadata.next`;
  - 429;
  - 400 with an `errors` list;
  - any other status;
  - a 200 whose body is not JSON.

  The loop's effects are recorded in a trace of GETs, sleeps, forwards and
  printed error lines. `ExportLoop.Export` is the imperative loop: mutable
  locals, an inner `for` loop per page, and an inner `for` loop per 400
  error entry. It is proved equal to the step function `Step` iterated by
  `Run`. Module `ExportProperties` states what the loop guarantees about its
  trace and counters.

`next_url` is modelled as one of three values: the placeholder, a link, or
null. The script sets it to a fixed non-empty sentence before the loop, so that
the loop runs at least once. Only a 200 reassigns it, to `metadata.next`. A 429
therefore re-issues a GET of `next_url` as it stands:

- on a continuation page, that GET retries the same page;
- when the very first response is a 429, `next_url` still holds the
  sentence. `requests` refuses it as a `ValueError` before sending anything,
  because it has no URL scheme. The loop prints the `Value Error` line and
  breaks. So the loop sleeps 1 second and ends in `Failed`, with one request
  counted and nothing fetched.

`ExportProperties.RateLimitedOnPlaceholder` and
`ExportProperties.RateLimitedFirstRequestFails` state this.

`page_size` goes into the parameter map whenever the attribute exists, even
with a None value. `requests` leaves None-valued parameters out of the query
string it builds.

## Model

| member | source | states |
|---|---|---|
| DateFormat.ReadPad | ccloud-billing-exporter/ccloud-billing-export.py:23-24 | zero-padding a number below 10^w to w digits and reading the digits back gives the number |
| DateFormat.ParseFormat | ccloud-billing-exporter/ccloud-billing-export.py:23-24 | a date whose year fits 4 digits and whose month and day fit 2 formats as `YYYY-MM-DD`, which reads back as the same date |
| DateFormat.FormatInjective | ccloud-billing-exporter/ccloud-billing-export.py:23-24 | two such dates have the same `%Y-%m-%d` text exactly when they are equal |
| DateFormat.FormatMarch2024 | ccloud-billing-exporter/ccloud-billing-export.py:23 | the first of March 2024 formats as `2024-03-01` (month zero-padded) |
| DateFormat.FormatApril2024 | ccloud-billing-exporter/ccloud-billing-export.py:24 | the first of April 2024 formats as `2024-04-01` |
| DateFormat.FormatDecember2023 | ccloud-billing-exporter/ccloud-billing-export.py:23 | the first of December 2023 formats as `2023-12-01` |
| DateFormat.FormatJanuary2024 | ccloud-billing-exporter/ccloud-billing-export.py:24 | the first of January 2024 formats as `2024-01-01` |
| Params.NextMonth | ccloud-billing-exporter/ccloud-billing-export.py:22 | adding one month to a valid month gives a valid month whose index (year * 12 + month - 1) is one higher |
| Params.NextMonthUnique | ccloud-billing-exporter/ccloud-billing-export.py:22 | a valid month one index later than another is that month's `NextMonth`, so December goes to January of the next year |
| Params.MonthRange | ccloud-billing-exporter/ccloud-billing-export.py:20-24 | resolution succeeds exactly for a valid month other than 9999-12; an invalid month is `InvalidMonth`; 9999-12 is `YearOutOfRange`; on success the two strings read back as the first of the month and the first of the next month |
| Params.MonthRangeOrdered | ccloud-billing-exporter/ccloud-billing-export.py:20-24 | the resolved start date is strictly before the resolved end date |
| Params.RequestParams | ccloud-billing-exporter/ccloud-billing-export.py:16-38 | succeeds exactly when both dates are set or the month resolves; with neither it fails with `MissingDateRange`; a month that does not resolve fails with that month's own error (`InvalidMonth` or `YearOutOfRange`), not `MissingDateRange`; both dates pass through verbatim and override the month; otherwise the month decides; the keys are exactly `start_date`, `end_date`, plus `page_size` whenever the attribute exists, and its value is the attribute's value |
| Params.MarchExample | ccloud-billing-exporter/ccloud-billing-export.py:20-32 | month 2024-03 with no `page_size` attribute gives exactly `{start_date: 2024-03-01, end_date: 2024-04-01}` |
| Params.DecemberExample | ccloud-billing-exporter/ccloud-billing-export.py:17-38 | a lone start date does not override month 2023-12, which rolls over to `2024-01-01`; the parameter map holds `page_size: None` for an attribute holding None |
| BillingRecord.KeyIdentifiesLineItem | ccloud-billing-exporter/ccloud-billing-export.py:10-14 | two line items have the same key exactly when their resource id, start date and granularity agree; the other fields play no part |
| ExportLoop.ForwardPage | ccloud-billing-exporter/ccloud-billing-export.py:75-80 | the per-record loop appends exactly one forward per record, in page order |
| ExportLoop.ReportErrors | ccloud-billing-exporter/ccloud-billing-export.py:97-100 | the 400 loop appends exactly one printed line per `errors` entry, in order |
| ExportLoop.Export | ccloud-billing-exporter/ccloud-billing-export.py:55-106 | the imperative loop ends in the same state (phase, `next_url`, back-off, both counters and the whole trace) as the step function run over the responses, and fails before any GET exactly when parameter resolution fails |
| ExportProperties.StepGets | ccloud-billing-exporter/ccloud-billing-export.py:64-106 | one iteration issues a GET of `next_url`, and counts one request, exactly when the loop goes on, which requires a non-empty link in `next_url`; otherwise it issues none, the refused placeholder included |
| ExportProperties.StepSleeps | ccloud-billing-exporter/ccloud-billing-export.py:82-86 | one iteration sleeps once, for the grown back-off, exactly when the response is a 429 |
| ExportProperties.StepForwards | ccloud-billing-exporter/ccloud-billing-export.py:67-80 | one iteration forwards the records of a 200 in page order and adds their number to the data-row counter; other responses forward nothing |
| ExportProperties.RunConsistent | ccloud-billing-exporter/ccloud-billing-export.py:59-92 | any number of iterations preserve these facts: the request counter equals the GETs in the trace, the data-row counter equals the forwards, and the loop only goes on with a truthy `next_url` |
| ExportProperties.RunAppend | ccloud-billing-exporter/ccloud-billing-export.py:64-92 | feeding two batches of responses one after the other is the same as feeding their concatenation |
| ExportProperties.RunAnswersEachGet | ccloud-billing-exporter/ccloud-billing-export.py:59-92 | every GET consumes one response: once the loop has ended, the GETs equal the responses consumed; while it still waits, there is one more GET and every response has been consumed |
| ExportProperties.GetsOnlyGrow | ccloud-billing-exporter/ccloud-billing-export.py:64-92 | the GETs so far stay a prefix of the GETs after any further iterations |
| ExportProperties.RunForwardsPagesInOrder | ccloud-billing-exporter/ccloud-billing-export.py:67-80 | the forwarded stream is the records of the consumed 200 pages, in page and record order |
| ExportProperties.OkPage | ccloud-billing-exporter/ccloud-billing-export.py:67-92 | a 200 resets the back-off to 0, sets `next_url` to `metadata.next`, adds `len(data)` to the data-row counter, forwards every record before the GET of `metadata.next`, continues exactly when that is a non-empty link, and is otherwise Done |
| ExportProperties.LastPageEndsLoop | ccloud-billing-exporter/ccloud-billing-export.py:71-92 | a 200 with no next page ends the loop in Done after consuming one response, with the back-off at 0, no further GET or sleep, no request counted, and its records forwarded |
| ExportProperties.RateLimitedStep | ccloud-billing-exporter/ccloud-billing-export.py:82-92 | while `next_url` is a continuation link, a 429 leaves it unchanged, adds 1 to the back-off, sleeps that many seconds, GETs the same link again and counts the request |
| ExportProperties.RateLimitedRetries | ccloud-billing-exporter/ccloud-billing-export.py:82-92 | while `next_url` is a continuation link, k consecutive 429s keep the loop going, raise the back-off by k, GET the same link k more times, count k requests and forward nothing |
| ExportProperties.RateLimitedSleeps | ccloud-billing-exporter/ccloud-billing-export.py:82-86 | while `next_url` is a continuation link, k consecutive 429s from back-off b sleep b+1, ..., b+k seconds |
| ExportProperties.BackoffRestartsAfterPage | ccloud-billing-exporter/ccloud-billing-export.py:67-92 | after a 200 with a non-empty next link, the following k 429s sleep 1, 2, ..., k seconds and GET that link k + 1 times in all; the loop still waits on that link with back-off k, k + 1 more requests counted and the page forwarded once |
| ExportProperties.RateLimitedOnPlaceholder | ccloud-billing-exporter/ccloud-billing-export.py:61-106 | while `next_url` still holds the placeholder, a 429 prints the back-off line and sleeps, then the retry is refused as a `ValueError` and reported; the loop fails with no request sent or counted |
| ExportProperties.RateLimitedFirstRequestFails | ccloud-billing-exporter/ccloud-billing-export.py:56-106 | a 429 on the first request leaves exactly the initial GET, the 1-second back-off line and sleep, and the `Value Error` line; the loop ends in Failed after one response with one request counted |
| ExportProperties.FatalEndsLoop | ccloud-billing-exporter/ccloud-billing-export.py:87-106 | a 400, any other unexpected status, or an unparseable 200 body ends the loop in Failed after one response, with no further GET and no forward |
| ExportProperties.FatalReports | ccloud-billing-exporter/ccloud-billing-export.py:96-106 | a 400 prints one line per `errors` entry, another status prints its code, an unparseable body prints the payload error, and nothing else is added to the trace |
| ExportProperties.ExportGuarantees | ccloud-billing-exporter/ccloud-billing-export.py:55-106 | `main` fails exactly when parameter resolution fails, and then issues nothing; otherwise the first GET is the endpoint with the resolved parameter map, the counters match the trace, the GETs are the responses consumed plus one while still waiting, and the forwarded stream is the records of the consumed pages in order |
| ExportProperties.TwoPagesThenDone | ccloud-billing-exporter/ccloud-billing-export.py:64-92 | a 200 with a next page followed by a 200 without one issues one continuation GET, forwards both pages in order, sleeps nothing and ends in Done with the back-off at 0 |
| ExportProperties.PageRateLimitedThenLastPage | ccloud-billing-exporter/ccloud-billing-export.py:56-92 | a 200 with a next link, k 429s on that link, then a last 200: k + 2 requests (the initial one, then k + 1 GETs of the link), sleeps of 1, ..., k seconds, both pages forwarded in order, Done with the back-off at 0 |
| ExportProperties.SingleBadRequestExample | ccloud-billing-exporter/ccloud-billing-export.py:56-103 | a first response that is a 400 with one error entry leaves exactly the initial GET and that entry's line in the trace, with one request counted |

## Left out

- The HTTP calls are not modelled. This covers the GET to the billing API and the POST to the event collector, the credentials, the collector's URL, index and authorisation header, `verify=False`, and the collector's discarded response. Each GET becomes a `Get` event answered by the next mocked response. Each POST becomes a `Forward` event.
- `time.sleep` becomes a `Sleep` event; no time passes.
- `datetime.now()`, the duration and every `print` outside the loop (start and end lines, the summary) are left out. The loop's printed lines become `Report` events.
- `KeyboardInterrupt` is an asynchronous signal and is left out.
- Command-line, config-file and environment parsing with `configargparse` is left out. The options arrive as an `Args` value.
- The `strptime` grammar for `--month` is not modelled. The month arrives already parsed as a year and month number. A month `strptime` would reject, including years outside 1..9999 and months outside 1..12, is the `InvalidMonth` error.
- Month 9999-12 is the `YearOutOfRange` error, because the next month lies past the last year a date can carry.
- DateFormat.FormatDate: always pads the year to four digits. Whether the script does the same for a year below 1000 depends on the interpreter. One that passes `%Y` straight to glibc's `strftime` prints such a year without padding (`999-03-01`), and the model's text then differs from the script's. Other interpreters pad the year themselves and agree with the model.
- Params.MonthRange: for a year below 1000, the strings it promises are four-digit `YYYY-MM-DD` dates. An interpreter that passes `%Y` straight to glibc sends the shorter unpadded text instead (see `DateFormat.FormatDate`).
- BillingRecord.KeyBillingData: returns the key triple rather than its `json.dumps` text. JSON serialisation is not modelled. The key is computed and never used in the loop.
- These exceptions escape the loop uncaught and are not modelled: a `KeyError` from a response or record missing `data`, `metadata`, `next`, `resource` or `id`; a `KeyError` from a 400 whose JSON body has no `errors`; a 400 whose body is not JSON; forwarding transport errors. Records are assumed well formed. `metadata.next` is a string or null.
- A 200 whose body is not JSON is the `Malformed` response. It resets the back-off, because the reset precedes the parse, and it ends the loop.
- `Get(FirstPage(url, params))` records the parameter map, not the query string `requests` builds from it. Turning the map into a query string, which leaves out None values, is not modelled.
- A continuation link from `metadata.next` is assumed to be a URL `requests` accepts. A link without a scheme would be refused as a `ValueError`, as the placeholder is; the model fetches it instead.
- When the mocked responses run out while a GET is still outstanding, the run stops in phase `Fetching`. The real loop would go on waiting for that response.
- `produce_to_kafka_counter` is never updated, so it is not modelled.
