# readable: article fetch proxy, modelled in Dafny

The repository is a small HTTP proxy. A request names a target page in its
`url` query parameter. The proxy fetches that page, runs a readability
extractor over it, and answers with a JSON object: either
`{status: "success", title, content}` or `{status: "fail", error, detail}`.
Here `error` is `FETCH_FAILURE` or `PARSE_FAILURE`. A request without a `url`
gets a bare 400.

The program exists twice: a Node original (`app.js`) and a Go port
(`main.go`). This project models the logic that both versions write out
themselves:

- `formatDigits`, which left-pads a number with `'0'`;
- the log timestamp layout `[Y/M/D H:mm:ss.mmm] message`, with the month
  counted from 0;
- the shape of the error payload;
- the ladder of early returns that picks the one response a request gets.

Each version is modelled on its own terms. The Node callback receives the
triple (error, response, body) and checks the error, the presence of a
response, the status code and an empty body, in that order. The Go handler
checks `url.Parse`, `http.NewRequest` and `client.Do`. It then reads the
content type but acts on neither the content type nor the status code: the
block that would check the content type is empty.

## Layout

- `wrappers.dfy`: `Option` and `Result`.
- `text.dfy`, module `Text`: the decimal form of a non-negative integer,
  padding with zeros (`ZeroPad`), and reading a digit string back.
- `http.dfy`, module `Http`. A handler is modelled as the sequence of effects
  it performs on the response: set status, set header, write body, end.
  `Observe` gives the reply the client sees. `SingleResponse` states
  "exactly one response": the response is ended once, as the last step, and
  the body is written at most once. `ToJson`/`FromJson` give the two payload
  shapes.
- `js_app.dfy`, module `JsApp`: `app.js`.
- `go_app.dfy`, module `GoApp`: `main.go`.
- `log_parse.dfy`, module `LogParse`: a reader for the log line layout,
  proved to be its inverse.
- `ports.dfy`, module `Ports`: the Go port compared with the Node original.

Both `formatDigits` functions are loops, so they are modelled as methods with
loop invariants. Each is proved equal to `Text.ZeroPad` applied to the
decimal form of the number. The timestamps and the handlers are pure
decisions once the clock and I/O are abstracted away, so they are modelled as
functions. The outcome of the fetch enters as a value. Extraction (JSDOM with
Readability, or go-readability) enters as a function of the fetched body.

An earlier version of the fetch rejected responses whose content type was not
`text/html` (the comments at `main.go:99-104` describe it). Neither `app.js`
nor `main.go` checks the content type or the size of the body: the block at
`main.go:106-110` is empty. The model follows the code.

## Model

| member | source | states |
|---|---|---|
| Text.DecimalString | app.js:15 | the decimal form of n is non-empty, all digits, and starts with '0' only when n is 0 |
| Text.ParseDecimalString | main.go:17 | reading the decimal form of n back gives n, so the rendering is injective |
| Text.DecimalStringWidth | app.js:24 | a number below 10^k has at most k digits, so an in-range minute or second fits in 2 characters and a millisecond count in 3 |
| Text.ZeroPad | app.js:16-18 | the padded string has length max(len(s), width), ends with s, and holds only '0' before it; a string already at least width long is returned unchanged |
| Text.ZeroPadUnique | app.js:15-19 | any string with those three properties is the padded string, so the contract fixes the result |
| Text.ZeroPadIdempotent | app.js:16 | padding twice to the same width equals padding once |
| Text.ParseZeroPad | main.go:18-20 | padding the decimal form of n gives a digit string whose value is still n |
| Http.ToJson | app.js:28-32 | a failure object has exactly the members status="fail", error and detail; a success object has exactly status="success", title and content; FromJson reads each back to the same payload |
| JsApp.FormatDigits | app.js:14-20 | the loop returns ZeroPad of the decimal form: length max(len(str(num)), digit), ends with str(num), only '0' before it |
| JsApp.Timestamp | app.js:24 | the bracketed `[Y/M/D H:mm:ss.mmm]` prefix is at least 19 characters; its field widths are fixed by JsApp.LogLineWidth and its readability by LogParse.ParseJsLogLine |
| JsApp.LogLine | app.js:22-25 | the line is the timestamp, "] " and then the message verbatim as its suffix; JsApp.LogLineWidth gives its exact length and LogParse.ParseJsLogLine reads it back |
| JsApp.LogLineWidth | app.js:24 | for an in-range date, only year, month, day and hour vary in width; minutes and seconds take 2 characters and milliseconds 3 |
| LogParse.ParseJsLogLine | app.js:22-25 | reading back the line logMessage prints gives the date fields (month counted from 0) and the message: the layout is unambiguous and loses nothing |
| JsApp.RespondError | app.js:27-35 | the response ends exactly once; the client sees status 200, content-type application/json, and the failure object with the given error and detail |
| JsApp.HandleHtml | app.js:37-62 | one response; a missing article sends PARSE_FAILURE / "Readability returned empty"; otherwise a success carrying the article's title and content verbatim |
| JsApp.ServeReadability | app.js:73-100 | every fetch outcome ends the response exactly once, with status 200, the JSON content type and a readable payload |
| JsApp.RequestHandler | app.js:103-114 | one response per request; the status is 400 exactly when the url query is missing or empty; otherwise the status is 200, the JSON content type is set and the payload is the one serveReadability sends |
| JsApp.ServeReadabilityOutcome | app.js:74-99 | FETCH_FAILURE iff some fetch check fails; PARSE_FAILURE iff the fetch passes and no article is found; success iff the fetch passes and an article is found, with its title and content; every failure detail is non-empty |
| JsApp.FetchFailureDetail | app.js:74-96 | the first failing check sets the detail: "Error: e" for a transport error whatever else came with it, then "No response object", then "Response <code>" whatever the body, then "Empty response" |
| JsApp.ExtractionOnlyAfterFetch | app.js:92-99 | when a fetch check fails, the reply does not depend on the extractor, so HTML handling runs only for status 200 with a non-empty body |
| JsApp.MissingUrl | app.js:107-111 | a missing or empty url gives status 400, no header set by the handler and no body, whatever the fetch or the extractor would give |
| GoApp.FormatDigits | main.go:16-22 | the loop returns ZeroPad of the decimal form: length max(len(str(num)), digits), ends with str(num), only '0' before it |
| GoApp.Timestamp | main.go:27-32 | the bracketed prefix, with the month shifted to count from 0 and nanoseconds cut to milliseconds, is at least 19 characters; Ports.GoLogLineMatchesJs shows it equals the Node prefix for the same instant |
| GoApp.LogLine | main.go:27-33 | the line is the timestamp, "] " and then the message verbatim as its suffix; GoApp.LogLineWidth gives its length and Ports.ParseGoLogLine reads it back |
| GoApp.LogLineWidth | main.go:27-32 | for an in-range time, minutes and seconds take 2 characters and milliseconds (nanoseconds / 10^6) take 3 |
| Ports.UtcOf | main.go:28-32 | the printed month is Month()-1 and the printed milliseconds are the whole part of nanoseconds / 10^6 |
| Ports.GoLogLineMatchesJs | main.go:27-33 | the Go port prints the same log line as the Node code for the same instant |
| Ports.ParseGoLogLine | main.go:28 | a Go log line reads back to the instant's fields with the month counted from 0, so January reads as 0 |
| GoApp.RespondError | main.go:36-44 | once the handler returns, the response is single; the client sees status 200, Content-Type application/json and the failure object with the given error and detail |
| GoApp.HandleReadability | main.go:46-146 | one response per request; status 400 exactly when the url query is empty; otherwise status 200, Content-Type application/json and a readable payload |
| GoApp.HandleReadabilityOutcome | main.go:58-142 | for a non-empty url: FETCH_FAILURE iff url.Parse, http.NewRequest or client.Do failed; PARSE_FAILURE iff they all worked and readability or rendering failed; success iff everything worked, carrying Title() and the rendered HTML; a readability error gives the detail "Error: <err>" and a rendering error "Error rendering: <err>" |
| GoApp.FetchFailureDetail | main.go:58-95 | the three fetch errors are checked in order (parse, then request construction, then transport) and give the detail "Error: <err>" |
| GoApp.StatusAndContentTypeIgnored | main.go:98-120 | after client.Do succeeds, two responses with the same body are handled identically, whatever their status code and content type |
| GoApp.MissingUrl | main.go:49-53 | an empty url gives status 400 with no header set by the handler and no body, whatever the later steps would give |
| Ports.MissingUrlAgrees | main.go:50-53 | both variants answer a missing or empty url with the same bare 400 |
| Ports.StatusAndEmptyBodyDiverge | main.go:98-120 | a non-200 status or an empty body is a FETCH_FAILURE in the Node variant, while the Go port passes the body to readability and can succeed |
| Ports.CleanFetchAgrees | main.go:138-142 | on a clean 200 fetch where both extractors find the same article, both variants send the same success payload |

## Left out

- The inbound HTTP server and routing are not modelled: express, `http.HandleFunc`, `ListenAndServe`, the `/ok` handler, the port taken from `PORT`, and `keepAlive`. They are framework plumbing with no decisions in them.
- The outbound fetch is not modelled: `request` with gzip, `http.Client` with its 30 s timeout, and the user-agent headers. Only its outcome enters, as the callback's (error, response, body) triple, or as the errors and response of the Go calls.
- JSDOM, Readability and go-readability are opaque. They enter as a function from the fetched body to an optional article (Node), or to an article or an error (Go). A go-readability article is represented by what `Title()` and `RenderHTML` return for it. The `parsedURL` that go-readability receives is folded into that function.
- JSON serialisation is not modelled, nor the trailing newline that Go's encoder writes. A body is the flat object that would be serialised.
- `encodeURI` and `url.parse` are not modelled. Also not modelled: a repeated `url` parameter, which Node's query parser turns into an array, and `encodeURI` throwing on a malformed string. The Node model takes the `url` query as an optional string.
- Reading the clock and writing to the console are not modelled. The timestamp takes the date fields as parameters. The log calls inside the handlers are omitted because they do not affect the response.
- In Go, a handler's return completes the response. The model writes this as a final `End` effect.
- Concurrency between requests is not modelled: the handlers share no state.
- JsApp.FormatDigits: takes a non-negative integer. A negative number (which would pad as "0-5") and a non-integer JavaScript number are not modelled; the code only passes date fields.
- GoApp.FormatDigits: takes a non-negative integer. Negative numbers are not modelled; the code only passes time fields.
- JsApp.LogLine: years before year 0 (negative years) are not modelled. Date fields are natural numbers.
- GoApp.LogLine: negative years, which Go's `Year()` can return, are not modelled. `GoApp.Time.year` is a natural number.
