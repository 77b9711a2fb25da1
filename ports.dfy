/**
  The Go port beside the Node original: the log lines they print for the same
  instant are identical, a missing `url` is treated alike, and they part ways
  on the status code and on an empty body, which only the Node variant checks.
 */
module Ports {
  import opened Wrappers
  import opened Text
  import opened Http
  import JsApp
  import GoApp
  import LogParse

  /**
    The Date fields the Node code would read at the instant a Go time stands
    for: the month counted from 0 and the milliseconds the whole part of the
    nanoseconds.
   */
  function UtcOf(t: GoApp.Time): (d: JsApp.UtcDate)
    ensures d.month + 1 == t.month
    ensures d.milliseconds * 1000000 <= t.nanosecond < (d.milliseconds + 1) * 1000000
  {
    JsApp.UtcDate(t.year, t.month - 1, t.day, t.hour, t.minute, t.second, t.nanosecond / 1000000)
  }

  /** The Go port prints the same log line as the Node code for the same instant. */
  lemma GoLogLineMatchesJs(t: GoApp.Time, message: string)
    ensures GoApp.LogLine(t, message) == JsApp.LogLine(UtcOf(t), message)
  {
  }

  /**
    Reading back a Go log line gives the instant's fields with the month
    counted from 0 (January reads as 0), and the message.
   */
  lemma ParseGoLogLine(t: GoApp.Time, message: string)
    ensures LogParse.ParseLogLine(GoApp.LogLine(t, message)) == Some((UtcOf(t), message))
    ensures LogParse.ParseLogLine(GoApp.LogLine(t, message)).value.0.month == t.month - 1
  {
    GoLogLineMatchesJs(t, message);
    LogParse.ParseJsLogLine(UtcOf(t), message);
  }

  /** Both variants answer a missing or empty `url` with the same bare 400. */
  lemma MissingUrlAgrees(
    query: Option<string>, cb: JsApp.FetchCallback, extract: string -> Option<JsApp.Article>,
    parseError: Option<string>, requestError: Option<string>,
    doResult: Result<GoApp.ClientResponse, string>, fromReader: string -> Result<GoApp.GoArticle, string>)
    requires query.None? || query.value == ""
    ensures JsApp.RequestHandler(query, cb, extract)
         == GoApp.HandleReadability("", parseError, requestError, doResult, fromReader)
  {
    JsApp.MissingUrl(query, cb, extract);
    GoApp.MissingUrl(parseError, requestError, doResult, fromReader);
  }

  /**
    A response whose status is not 200, or whose body is empty, is a
    FETCH_FAILURE in the Node variant, while the Go port hands it to
    readability and can answer with a success.
   */
  lemma StatusAndEmptyBodyDiverge(
    queryUrl: string, status: nat, contentType: string, body: string,
    extract: string -> Option<JsApp.Article>, fromReader: string -> Result<GoApp.GoArticle, string>,
    title: string, content: string)
    requires queryUrl != ""
    requires status != 200 || body == ""
    requires fromReader(body) == Ok(GoApp.GoArticle(title, Ok(content)))
    ensures var js := Sent(JsApp.ServeReadability(
              JsApp.FetchCallback(None, Some(JsApp.FetchResponse(status)), Some(body)), extract));
      js.Some? && js.value.Fail? && js.value.error == FetchFailure
    ensures Sent(GoApp.HandleReadability(
              queryUrl, None, None, Ok(GoApp.ClientResponse(status, contentType, body)), fromReader))
         == Some(Success(title, content))
  {
    JsApp.ServeReadabilityOutcome(
      JsApp.FetchCallback(None, Some(JsApp.FetchResponse(status)), Some(body)), extract);
    GoApp.HandleReadabilityOutcome(
      queryUrl, None, None, Ok(GoApp.ClientResponse(status, contentType, body)), fromReader);
  }

  /**
    On a clean fetch (status 200, non-empty body) where both extractors find
    the same article, both variants send the same success payload.
   */
  lemma CleanFetchAgrees(
    queryUrl: string, contentType: string, body: string,
    extract: string -> Option<JsApp.Article>, fromReader: string -> Result<GoApp.GoArticle, string>,
    title: string, content: string)
    requires body != ""
    requires extract(body) == Some(JsApp.Article(title, content))
    requires fromReader(body) == Ok(GoApp.GoArticle(title, Ok(content)))
    ensures Sent(JsApp.RequestHandler(
              Some(queryUrl), JsApp.FetchCallback(None, Some(JsApp.FetchResponse(200)), Some(body)), extract))
         == Sent(GoApp.HandleReadability(
              queryUrl, None, None, Ok(GoApp.ClientResponse(200, contentType, body)), fromReader))
         == if queryUrl == "" then None else Some(Success(title, content))
  {
    if queryUrl == "" {
      ObserveStatusOnly(400);
    } else {
      GoApp.HandleReadabilityOutcome(
        queryUrl, None, None, Ok(GoApp.ClientResponse(200, contentType, body)), fromReader);
    }
  }
}
