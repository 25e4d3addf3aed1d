/** The JSON-RPC 2.0 envelope as the exchange client uses it: request objects
    (section 4 of the JSON-RPC 2.0 specification) with a numeric id and
    by-name parameters, and the classification of a reply into its `error`
    or `result` member (section 5 of that specification). */
module JsonRpc {
  import opened Wrappers
  import opened Json

  const Version: string := "2.0"

  /** What a request carries besides the constant protocol version. */
  datatype Call = Call(id: int, name: string, params: map<string, Json>)

  /** The four member names of every request the client builds. */
  const RequestKeys: set<string> := {"jsonrpc", "id", "method", "params"}

  /** The request object `{"jsonrpc": "2.0", "id": id, "method": method, "params": {...}}`. */
  function Request(id: int, name: string, params: map<string, Json>): Json
  {
    JObject(map["jsonrpc" := JString(Version), "id" := JInt(id),
                "method" := JString(name), "params" := JObject(params)])
  }

  /** Section 4 of JSON-RPC 2.0: an object whose `jsonrpc` member is exactly
      "2.0", whose `method` is a string, whose `params`, when present, is a
      structured value, whose `id`, when present, is a string, a number or
      null, and which has no other members. */
  predicate WellFormedRequest(j: Json)
  {
    && j.JObject?
    && j.fields.Keys <= RequestKeys
    && "jsonrpc" in j.fields && j.fields["jsonrpc"] == JString(Version)
    && "method" in j.fields && j.fields["method"].JString?
    && ("params" in j.fields ==> j.fields["params"].JObject? || j.fields["params"].JArray?)
    && ("id" in j.fields ==> j.fields["id"].JInt? || j.fields["id"].JString? || j.fields["id"].JNull?)
  }

  /** Reads a request object of the client's shape back into its parts;
      `None` for anything else. */
  function DecodeRequest(j: Json): Option<Call>
  {
    if && j.JObject?
       && j.fields.Keys == RequestKeys
       && j.fields["jsonrpc"] == JString(Version)
       && j.fields["id"].JInt?
       && j.fields["method"].JString?
       && j.fields["params"].JObject?
    then Some(Call(j.fields["id"].i, j.fields["method"].s, j.fields["params"].fields))
    else None
  }

  /** A built request is a well-formed JSON-RPC 2.0 request and reads back as
      the id, method name and parameters it was built from. */
  lemma RequestRoundTrip(id: int, name: string, params: map<string, Json>)
    ensures WellFormedRequest(Request(id, name, params))
    ensures DecodeRequest(Request(id, name, params)) == Some(Call(id, name, params))
  {

  }

  /** Conversely, every value the reader accepts is exactly the request built
      from what it read: the reader loses nothing. */
  lemma DecodeRequestExact(j: Json)
    requires DecodeRequest(j).Some?
    ensures var c := DecodeRequest(j).value; j == Request(c.id, c.name, c.params)
  {

  }

  /** The reply as the client reads it: `contains("error")` first, and only
      otherwise `reply["result"]`, which is null when the member is absent and
      a type error when the reply is neither an object nor null. */
  datatype Reply = Rejected(error: Json) | Accepted(result: Json) | NotAnObject

  function Classify(resp: Json): Reply
  {
    if Contains(resp, "error") then Rejected(resp.fields["error"])
    else match Member(resp, "result")
      case Some(r) => Accepted(r)
      case None => NotAnObject
  }

  /** The core of section 5 of JSON-RPC 2.0: a response object holds exactly
      one of `result` and `error`. (Section 5 also asks for the version and
      the id, which classification never reads.) */
  predicate OneOfResultOrError(j: Json)
  {
    j.JObject? && (("result" in j.fields) != ("error" in j.fields))
  }

  /** For every `{"result": ...}` or `{"error": ...}` object, classification
      picks the member that is present and hands its payload over untouched. */
  lemma ClassifyWellFormed(j: Json)
    requires OneOfResultOrError(j)
    ensures "error" in j.fields ==> Classify(j) == Rejected(j.fields["error"])
    ensures "result" in j.fields ==> Classify(j) == Accepted(j.fields["result"])
  {
  }

  /** Exactly the replies that hold an `error` member are rejected, whatever
      else they hold; a reply with neither member is accepted with a null
      result; non-object, non-null replies are the only unreadable ones. */
  lemma ClassifyCases(j: Json)
    ensures Classify(j).Rejected? <==> Contains(j, "error")
    ensures Classify(j).NotAnObject? <==> !(j.JObject? || j.JNull?)
    ensures j.JObject? && "error" !in j.fields && "result" !in j.fields ==> Classify(j) == Accepted(JNull)
    ensures j.JNull? ==> Classify(j) == Accepted(JNull)
  {
  }
}
