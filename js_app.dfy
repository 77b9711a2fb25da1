/**
  The Node variant of the proxy (app.js): digit padding, the log timestamp,
  the error payload and the early-return ladder of the request handler.
  The outbound fetch, JSDOM and Readability are outside the model: the fetch
  enters as the three values its callback receives, and extraction as a
  function from the fetched body to an optional article.
 */
module JsApp {
  import opened Wrappers
  import opened Text
  import opened Http

  /** formatDigits: the decimal form of num, left-padded with '0' to at least `digit` characters. */
  method FormatDigits(num: nat, digit: int) returns (ans: string)
    ensures ans == ZeroPad(DecimalString(num), digit)
    ensures |ans| == Max(|DecimalString(num)|, digit)
    ensures ans[|ans| - |DecimalString(num)|..] == DecimalString(num)
    ensures forall i | 0 <= i < |ans| - |DecimalString(num)| :: ans[i] == '0'
  {
    ans := DecimalString(num);
    ghost var s := ans;
    while |ans| < digit
      invariant |s| <= |ans| <= Max(|s|, digit)
      invariant ans[|ans| - |s|..] == s
      invariant forall i | 0 <= i < |ans| - |s| :: ans[i] == '0'
      decreases digit - |ans|
    {
      ans := "0" + ans;
    }
    ZeroPadUnique(s, digit, ans);
  }

  /** The UTC fields of a Date, as its getUTC* accessors give them (the month counts from 0). */
  datatype UtcDate = UtcDate(
    fullYear: nat, month: nat, date: nat,
    hours: nat, minutes: nat, seconds: nat, milliseconds: nat)

  /** The ranges a Date's accessors stay in. */
  predicate InRange(d: UtcDate) {
    d.month < 12 && 1 <= d.date <= 31 && d.hours < 24
    && d.minutes < 60 && d.seconds < 60 && d.milliseconds < 1000
  }

  /** `[Y/M/D H:mm:ss.mmm]`: minutes and seconds padded to 2, milliseconds to 3, the rest unpadded. */
  function Timestamp(d: UtcDate): (r: string)
    ensures |r| >= 19 && r[0] == '[' && r[|r| - 1] == ']'
  {
    "[" + DecimalString(d.fullYear) + "/" + DecimalString(d.month) + "/" + DecimalString(d.date)
    + " " + DecimalString(d.hours) + ":" + ZeroPad(DecimalString(d.minutes), 2)
    + ":" + ZeroPad(DecimalString(d.seconds), 2) + "." + ZeroPad(DecimalString(d.milliseconds), 3) + "]"
  }

  /** The line logMessage writes to the console (without the line terminator). */
  function LogLine(d: UtcDate, message: string): (r: string)
    ensures |r| >= 20 + |message| && r[0] == '['
    ensures r[|r| - |message| - 2..|r| - |message|] == "] " && r[|r| - |message|..] == message
  {
    Timestamp(d) + " " + message
  }

  /**
    For a date in range only the year, month, day and hour vary in width:
    minutes and seconds always take 2 characters and milliseconds 3.
   */
  lemma LogLineWidth(d: UtcDate, message: string)
    requires InRange(d)
    ensures |LogLine(d, message)|
      == |DecimalString(d.fullYear)| + |DecimalString(d.month)| + |DecimalString(d.date)|
         + |DecimalString(d.hours)| + 2 + 2 + 3 + 9 + |message|
  {
    DecimalStringWidth(d.minutes, 2);
    DecimalStringWidth(d.seconds, 2);
    DecimalStringWidth(d.milliseconds, 3);
  }

  const JsonHeaders: map<string, string> := map["content-type" := ApplicationJson]

  /** respondError: the JSON content type, then the failure object as the body, ending the response. */
  function RespondError(error: string, detail: string): (effects: seq<Effect>)
    ensures SingleResponse(effects)
    ensures Observe(effects) == Reply(200, JsonHeaders, Some(ToJson(Fail(error, detail))))
    ensures Sent(effects) == Some(Fail(error, detail))
  {
    ObserveJsonReply("content-type", ApplicationJson, ToJson(Fail(error, detail)));
    [SetHeader("content-type", ApplicationJson), Write(ToJson(Fail(error, detail))), End]
  }

  /** What Readability's parse() yields when it finds an article. */
  datatype Article = Article(title: string, content: string)

  /**
    handleHtml: a missing article is a PARSE_FAILURE; otherwise the title and
    content are sent verbatim as a success.
   */
  function HandleHtml(body: string, extract: string -> Option<Article>): (effects: seq<Effect>)
    ensures SingleResponse(effects)
    ensures Observe(effects).status == 200 && Observe(effects).headers == JsonHeaders
    ensures extract(body).None? ==> Sent(effects) == Some(Fail(ParseFailure, "Readability returned empty"))
    ensures extract(body).Some? ==>
      Sent(effects) == Some(Success(extract(body).value.title, extract(body).value.content))
  {
    match extract(body)
    case None => RespondError(ParseFailure, "Readability returned empty")
    case Some(article) =>
      ObserveJsonReply("content-type", ApplicationJson, ToJson(Success(article.title, article.content)));
      [SetHeader("content-type", ApplicationJson),
       Write(ToJson(Success(article.title, article.content))),
       End]
  }

  datatype FetchResponse = FetchResponse(statusCode: nat)

  /**
    The three arguments of the fetch callback: an error (as it prints in a
    template string), the response object and the decoded body, each possibly
    missing.
   */
  datatype FetchCallback = FetchCallback(
    error: Option<string>, response: Option<FetchResponse>, body: Option<string>)

  /** The fetch passed all four checks. */
  predicate FetchAccepted(cb: FetchCallback) {
    && cb.error.None?
    && cb.response.Some? && cb.response.value.statusCode == 200
    && cb.body.Some? && cb.body.value != ""
  }

  /** The callback of serveReadability: four fetch checks in order, then handleHtml. */
  function ServeReadability(cb: FetchCallback, extract: string -> Option<Article>): (effects: seq<Effect>)
    ensures SingleResponse(effects)
    ensures Observe(effects).status == 200 && Observe(effects).headers == JsonHeaders
    ensures Sent(effects).Some?
  {
    if cb.error.Some? then
      RespondError(FetchFailure, "Error: " + cb.error.value)
    else if cb.response.None? then
      RespondError(FetchFailure, "No response object")
    else if cb.response.value.statusCode != 200 then
      RespondError(FetchFailure, "Response " + DecimalString(cb.response.value.statusCode))
    else if cb.body.None? || |cb.body.value| == 0 then
      RespondError(FetchFailure, "Empty response")
    else
      HandleHtml(cb.body.value, extract)
  }

  /**
    requestHandler: a missing or empty `url` query gives a bare 400; any other
    value is fetched and served.
   */
  function RequestHandler(query: Option<string>, cb: FetchCallback, extract: string -> Option<Article>)
    : (effects: seq<Effect>)
    ensures SingleResponse(effects)
    ensures (Observe(effects).status == 400) <==> (query.None? || query.value == "")
    ensures !(query.None? || query.value == "") ==>
      && Observe(effects).status == 200 && Observe(effects).headers == JsonHeaders
      && Sent(effects) == Sent(ServeReadability(cb, extract))
  {
    if query.None? || query.value == "" then
      ObserveStatusOnly(400);
      [SetStatus(400), End]
    else
      ServeReadability(cb, extract)
  }

  /**
    The outcome of a served request: a FETCH_FAILURE exactly when a fetch check
    fails, a PARSE_FAILURE exactly when the fetch passed and no article was
    found, and otherwise a success carrying the article's title and content.
   */
  lemma ServeReadabilityOutcome(cb: FetchCallback, extract: string -> Option<Article>)
    ensures var p := Sent(ServeReadability(cb, extract)).value;
      && ((p.Fail? && p.error == FetchFailure) <==> !FetchAccepted(cb))
      && ((p.Fail? && p.error == ParseFailure) <==> FetchAccepted(cb) && extract(cb.body.value).None?)
      && (p.Success? <==> FetchAccepted(cb) && extract(cb.body.value).Some?)
      && (p.Success? ==> p == Success(extract(cb.body.value).value.title, extract(cb.body.value).value.content))
      && (p.Fail? ==> p.detail != "")
  {
  }

  /**
    The first failing fetch check decides the detail: a transport error wins
    whatever response came with it, a missing response comes next, then a
    status other than 200 (whatever the body), and last an empty body.
   */
  lemma FetchFailureDetail(cb: FetchCallback, extract: string -> Option<Article>)
    ensures var p := Sent(ServeReadability(cb, extract));
      && (cb.error.Some? ==> p == Some(Fail(FetchFailure, "Error: " + cb.error.value)))
      && (cb.error.None? && cb.response.None? ==> p == Some(Fail(FetchFailure, "No response object")))
      && (cb.error.None? && cb.response.Some? && cb.response.value.statusCode != 200 ==>
            p == Some(Fail(FetchFailure, "Response " + DecimalString(cb.response.value.statusCode))))
      && (cb.error.None? && cb.response == Some(FetchResponse(200)) && (cb.body.None? || cb.body.value == "") ==>
            p == Some(Fail(FetchFailure, "Empty response")))
  {
  }

  /** The article extraction is only reached after all four fetch checks pass. */
  lemma ExtractionOnlyAfterFetch(cb: FetchCallback, e1: string -> Option<Article>, e2: string -> Option<Article>)
    requires !FetchAccepted(cb)
    ensures ServeReadability(cb, e1) == ServeReadability(cb, e2)
  {
  }

  /**
    A missing or empty `url` gives status 400 with no header set by the handler and no body, and
    neither the fetch nor the extraction is consulted.
   */
  lemma MissingUrl(query: Option<string>, cb: FetchCallback, extract: string -> Option<Article>)
    requires query.None? || query.value == ""
    ensures RequestHandler(query, cb, extract) == [SetStatus(400), End]
    ensures Observe(RequestHandler(query, cb, extract)) == Reply(400, map[], None)
  {
    ObserveStatusOnly(400);
  }
}
