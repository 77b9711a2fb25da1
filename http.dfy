/**
  What a handler does to the response of the inbound request, and what the
  client sees once it is done. The handlers are modelled as the sequence of
  effects they perform on the response object; JSON serialisation is not part
  of this model, so a body is the flat JSON object (all values strings) that
  would be serialised.
 */
module Http {
  import opened Wrappers

  /** A JSON object whose members are all strings: the only kind either variant writes. */
  type Json = map<string, string>

  datatype Effect =
    | SetStatus(code: nat)                    // response.statusCode = code; w.WriteHeader(code)
    | SetHeader(name: string, value: string)  // response.setHeader; w.Header().Set
    | Write(body: Json)                       // the serialised object is written as the body
    | End                                     // the response is complete

  /** What the client receives. */
  datatype Reply = Reply(status: nat, headers: map<string, string>, body: Option<Json>)

  /** The two payloads the proxy sends as JSON. */
  datatype Payload =
    | Success(title: string, content: string)
    | Fail(error: string, detail: string)

  const FetchFailure: string := "FETCH_FAILURE"
  const ParseFailure: string := "PARSE_FAILURE"
  const ApplicationJson: string := "application/json"

  /** Reads a JSON object back as a payload, when it has one of the two shapes. */
  function FromJson(j: Json): Option<Payload> {
    if j.Keys == {"status", "title", "content"} && j["status"] == "success" then
      Some(Success(j["title"], j["content"]))
    else if j.Keys == {"status", "error", "detail"} && j["status"] == "fail" then
      Some(Fail(j["error"], j["detail"]))
    else
      None
  }

  /**
    The JSON object of a payload: a success carries exactly status "success",
    title and content; a failure exactly status "fail", error and detail.
   */
  function ToJson(p: Payload): (j: Json)
    ensures p.Success? ==> j.Keys == {"status", "title", "content"} && j["status"] == "success"
    ensures p.Fail? ==> j.Keys == {"status", "error", "detail"} && j["status"] == "fail"
    ensures FromJson(j) == Some(p)
  {
    match p
    case Success(title, content) => map["status" := "success", "title" := title, "content" := content]
    case Fail(error, detail) => map["status" := "fail", "error" := error, "detail" := detail]
  }

  function Apply(r: Reply, e: Effect): Reply {
    match e
    case SetStatus(code) => r.(status := code)
    case SetHeader(name, value) => r.(headers := r.headers[name := value])
    case Write(body) => r.(body := Some(body))
    case End => r
  }

  /**
    The reply after the effects have run, starting from the default status
    200, no headers set by the handler and no body.
   */
  function Observe(effects: seq<Effect>): Reply {
    if effects == [] then Reply(200, map[], None)
    else Apply(Observe(effects[..|effects| - 1]), effects[|effects| - 1])
  }

  /** The payload the client can read from the reply, if any. */
  function Sent(effects: seq<Effect>): Option<Payload> {
    match Observe(effects).body
    case None => None
    case Some(j) => FromJson(j)
  }

  /**
    Exactly one response per request: the effects end the response exactly
    once, as their last step, and write a body at most once.
   */
  predicate SingleResponse(effects: seq<Effect>) {
    && |effects| > 0
    && effects[|effects| - 1] == End
    && (forall i | 0 <= i < |effects| - 1 :: effects[i] != End)
    && (forall i, j | 0 <= i < j < |effects| :: !(effects[i].Write? && effects[j].Write?))
  }

  /** A header, a JSON body and the end: the client sees status 200, that header and that body. */
  lemma ObserveJsonReply(name: string, value: string, j: Json)
    ensures Observe([SetHeader(name, value), Write(j), End]) == Reply(200, map[name := value], Some(j))
  {
    var es := [SetHeader(name, value), Write(j), End];
    assert es[..1][..0] == [];
    assert Observe(es[..1]) == Reply(200, map[name := value], None);
    assert es[..2][..1] == es[..1];
    assert Observe(es[..2]) == Reply(200, map[name := value], Some(j));
    assert es[..2] == es[..|es| - 1];
  }

  /** A status and the end: the client sees that status, no header set by the handler and no body. */
  lemma ObserveStatusOnly(code: nat)
    ensures Observe([SetStatus(code), End]) == Reply(code, map[], None)
  {
    var es := [SetStatus(code), End];
    assert es[..1][..0] == [];
    assert Observe(es[..1]) == Reply(code, map[], None);
  }
}
