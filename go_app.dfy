/**
  The Go port of the proxy (main.go): digit padding, the log timestamp, the
  error payload and the early-return chain of handleReadability. URL parsing,
  request construction, the HTTP client and go-readability are outside the
  model: their errors enter as values, and extraction as a function from the
  fetched body to an article or an error.
 */
module GoApp {
  import opened Wrappers
  import opened Text
  import opened Http

  /** formatDigits: the decimal form of num, left-padded with '0' to at least `digits` characters. */
  method FormatDigits(num: nat, digits: int) returns (s: string)
    ensures s == ZeroPad(DecimalString(num), digits)
    ensures |s| == Max(|DecimalString(num)|, digits)
    ensures s[|s| - |DecimalString(num)|..] == DecimalString(num)
    ensures forall i | 0 <= i < |s| - |DecimalString(num)| :: s[i] == '0'
  {
    s := DecimalString(num);
    ghost var printed := s;
    while |s| < digits
      invariant |printed| <= |s| <= Max(|printed|, digits)
      invariant s[|s| - |printed|..] == printed
      invariant forall i | 0 <= i < |s| - |printed| :: s[i] == '0'
      decreases digits - |s|
    {
      s := "0" + s;
    }
    ZeroPadUnique(printed, digits, s);
  }

  /** time.Month: January is 1. */
  type Month = m: int | 1 <= m <= 12 witness 1

  /** The fields of a UTC time.Time that logMessage reads. */
  datatype Time = Time(
    year: nat, month: Month, day: nat,
    hour: nat, minute: nat, second: nat, nanosecond: nat)

  predicate InRange(t: Time) {
    1 <= t.day <= 31 && t.hour < 24 && t.minute < 60 && t.second < 60
    && t.nanosecond < 1000000000
  }

  /**
    `[Y/M/D H:mm:ss.mmm]` with the month shifted to count from 0 and the
    milliseconds taken as whole nanoseconds divided by 10^6.
   */
  function Timestamp(t: Time): (r: string)
    ensures |r| >= 19 && r[0] == '[' && r[|r| - 1] == ']'
  {
    "[" + DecimalString(t.year) + "/" + DecimalString(t.month - 1) + "/" + DecimalString(t.day)
    + " " + DecimalString(t.hour) + ":" + ZeroPad(DecimalString(t.minute), 2)
    + ":" + ZeroPad(DecimalString(t.second), 2) + "." + ZeroPad(DecimalString(t.nanosecond / 1000000), 3) + "]"
  }

  /** The line logMessage prints: the timestamp, a space and the message (without the line feed). */
  function LogLine(t: Time, message: string): (r: string)
    ensures |r| >= 20 + |message| && r[0] == '['
    ensures r[|r| - |message| - 2..|r| - |message|] == "] " && r[|r| - |message|..] == message
  {
    Timestamp(t) + " " + message
  }

  /**
    For a time in range, minutes and seconds take 2 characters and
    milliseconds 3.
   */
  lemma LogLineWidth(t: Time, message: string)
    requires InRange(t)
    ensures |LogLine(t, message)|
      == |DecimalString(t.year)| + |DecimalString(t.month - 1)| + |DecimalString(t.day)|
         + |DecimalString(t.hour)| + 2 + 2 + 3 + 9 + |message|
  {
    DecimalStringWidth(t.minute, 2);
    DecimalStringWidth(t.second, 2);
    assert t.nanosecond / 1000000 < 1000;
    DecimalStringWidth(t.nanosecond / 1000000, 3);
  }

  const JsonHeaders: map<string, string> := map["Content-Type" := ApplicationJson]

  /**
    respondError: the JSON content type and the failure object as the body.
    The response is completed when the handler returns right after it.
   */
  function RespondError(error: string, detail: string): (effects: seq<Effect>)
    ensures forall i | 0 <= i < |effects| :: effects[i] != End
    ensures SingleResponse(effects + [End])
    ensures Observe(effects + [End]) == Reply(200, JsonHeaders, Some(ToJson(Fail(error, detail))))
    ensures Sent(effects + [End]) == Some(Fail(error, detail))
  {
    var effects := [SetHeader("Content-Type", ApplicationJson), Write(ToJson(Fail(error, detail)))];
    assert effects + [End] == [SetHeader("Content-Type", ApplicationJson), Write(ToJson(Fail(error, detail))), End];
    ObserveJsonReply("Content-Type", ApplicationJson, ToJson(Fail(error, detail)));
    effects
  }

  /** What client.Do returns on success; the body is read by go-readability. */
  datatype ClientResponse = ClientResponse(statusCode: nat, contentType: string, body: string)

  /** A go-readability article, given by what Title() and RenderHTML return for it. */
  datatype GoArticle = GoArticle(title: string, rendered: Result<string, string>)

  /** URL parsing, request construction and client.Do all succeeded. */
  predicate Fetched(parseError: Option<string>, requestError: Option<string>, doResult: Result<ClientResponse, string>) {
    parseError.None? && requestError.None? && doResult.Ok?
  }

  /**
    handleReadability: an empty `url` gives a bare 400; errors from url.Parse,
    http.NewRequest and client.Do are FETCH_FAILUREs; the status code and the
    content type of the response are read but never acted on; a readability
    or rendering error is a PARSE_FAILURE; otherwise the title and the
    rendered HTML are sent as a success.
   */
  function HandleReadability(
    queryUrl: string,
    parseError: Option<string>,
    requestError: Option<string>,
    doResult: Result<ClientResponse, string>,
    fromReader: string -> Result<GoArticle, string>): (effects: seq<Effect>)
    ensures SingleResponse(effects)
    ensures (Observe(effects).status == 400) <==> queryUrl == ""
    ensures queryUrl != "" ==>
      Observe(effects).status == 200 && Observe(effects).headers == JsonHeaders && Sent(effects).Some?
  {
    if queryUrl == "" then
      ObserveStatusOnly(400);
      [SetStatus(400), End]
    else if parseError.Some? then
      RespondError(FetchFailure, "Error: " + parseError.value) + [End]
    else if requestError.Some? then
      RespondError(FetchFailure, "Error: " + requestError.value) + [End]
    else if doResult.Err? then
      RespondError(FetchFailure, "Error: " + doResult.error) + [End]
    else
      // The content type is fetched, but the block that would check it is empty.
      match fromReader(doResult.value.body)
      case Err(e) => RespondError(ParseFailure, "Error: " + e) + [End]
      case Ok(article) =>
        match article.rendered
        case Err(e) => RespondError(ParseFailure, "Error rendering: " + e) + [End]
        case Ok(html) =>
          ObserveJsonReply("Content-Type", ApplicationJson, ToJson(Success(article.title, html)));
          [SetHeader("Content-Type", ApplicationJson), Write(ToJson(Success(article.title, html))), End]
  }

  /**
    For a non-empty `url`: a FETCH_FAILURE exactly when parsing, building or
    sending the request failed; a PARSE_FAILURE exactly when the fetch worked
    and readability or rendering failed; a success otherwise, carrying the
    article's title and its rendered HTML.
   */
  lemma HandleReadabilityOutcome(
    queryUrl: string, parseError: Option<string>, requestError: Option<string>,
    doResult: Result<ClientResponse, string>, fromReader: string -> Result<GoArticle, string>)
    requires queryUrl != ""
    ensures var p := Sent(HandleReadability(queryUrl, parseError, requestError, doResult, fromReader)).value;
      var fetched := Fetched(parseError, requestError, doResult);
      && ((p.Fail? && p.error == FetchFailure) <==> !fetched)
      && ((p.Fail? && p.error == ParseFailure) <==>
            fetched && (fromReader(doResult.value.body).Err? || fromReader(doResult.value.body).value.rendered.Err?))
      && (p.Success? <==> fetched && fromReader(doResult.value.body).Ok? && fromReader(doResult.value.body).value.rendered.Ok?)
      && (p.Success? ==> p == Success(fromReader(doResult.value.body).value.title,
                                      fromReader(doResult.value.body).value.rendered.value))
      && (fetched && fromReader(doResult.value.body).Err? ==>
            p == Fail(ParseFailure, "Error: " + fromReader(doResult.value.body).error))
      && (fetched && fromReader(doResult.value.body).Ok? && fromReader(doResult.value.body).value.rendered.Err? ==>
            p == Fail(ParseFailure, "Error rendering: " + fromReader(doResult.value.body).value.rendered.error))
  {
    if Fetched(parseError, requestError, doResult) {
      var article := fromReader(doResult.value.body);
      if article.Ok? && article.value.rendered.Ok? {
        ObserveJsonReply("Content-Type", ApplicationJson,
                         ToJson(Success(article.value.title, article.value.rendered.value)));
      }
    }
  }

  /**
    The three fetch errors are checked in order and their text is the detail:
    a URL parse error first, then a request construction error, then a
    transport error.
   */
  lemma FetchFailureDetail(
    queryUrl: string, parseError: Option<string>, requestError: Option<string>,
    doResult: Result<ClientResponse, string>, fromReader: string -> Result<GoArticle, string>)
    requires queryUrl != ""
    ensures var p := Sent(HandleReadability(queryUrl, parseError, requestError, doResult, fromReader));
      && (parseError.Some? ==> p == Some(Fail(FetchFailure, "Error: " + parseError.value)))
      && (parseError.None? && requestError.Some? ==> p == Some(Fail(FetchFailure, "Error: " + requestError.value)))
      && (parseError.None? && requestError.None? && doResult.Err? ==>
            p == Some(Fail(FetchFailure, "Error: " + doResult.error)))
  {
  }

  /**
    Once client.Do has returned a response, its status code and content type
    make no difference: two responses with the same body are handled alike.
   */
  lemma StatusAndContentTypeIgnored(
    queryUrl: string, r1: ClientResponse, r2: ClientResponse,
    fromReader: string -> Result<GoArticle, string>)
    requires r1.body == r2.body
    ensures HandleReadability(queryUrl, None, None, Ok(r1), fromReader)
         == HandleReadability(queryUrl, None, None, Ok(r2), fromReader)
  {
  }

  /**
    An empty `url` gives status 400 with no header set and no body, whatever the
    fetch and the extraction would have given.
   */
  lemma MissingUrl(
    parseError: Option<string>, requestError: Option<string>,
    doResult: Result<ClientResponse, string>, fromReader: string -> Result<GoArticle, string>)
    ensures HandleReadability("", parseError, requestError, doResult, fromReader) == [SetStatus(400), End]
    ensures Observe(HandleReadability("", parseError, requestError, doResult, fromReader)) == Reply(400, map[], None)
  {
    ObserveStatusOnly(400);
  }
}
