/** The request/response half of the exchange client (`DeribitClient`): the
    envelopes it builds for authentication, order placement, order
    cancellation and the instrument query, the HTTPS POST it makes of them,
    and how it reads each reply. The HTTP transfer and the parsing of the
    reply body are supplied by the caller as a `Transfer` value. */
module DeribitRest {
  import opened Wrappers
  import opened Json
  import opened JsonRpc

  const BaseUrl: string := "https://test.deribit.com"
  const ContentTypeHeader: string := "Content-Type: application/json"
  const BearerPrefix: string := "Authorization: Bearer "

  /** libcurl's CURLE_OK. */
  const CurlOk: int := 0

  const AuthPath: string := "/api/v2/public/auth"
  const OrderPathPrefix: string := "/api/v2/private/"
  const CancelPath: string := "/api/v2/private/cancel"
  const InstrumentsPath: string := "/api/v2/public/get_instruments"

  const AuthId: int := 1
  const OrderId: int := 2
  const CancelId: int := 3
  const InstrumentsId: int := 4

  const BuyMethod: string := "private/buy"
  const SellMethod: string := "private/sell"

  /** The failures the client raises, one per thrown exception. */
  datatype Error =
    | InvalidArgument            // the quantity check of place_order
    | TransportError(code: int)  // curl_easy_perform did not return CURLE_OK
    | MalformedResponse          // json::parse rejected the reply body
    | JsonTypeError              // operator[] or string conversion on the wrong kind of value
    | AuthFailed(response: Json) // carries the whole reply
    | OrderFailed(error: Json)   // carries the reply's error member
    | CancelFailed(error: Json)  // carries the reply's error member

  /** What one HTTPS exchange delivers: libcurl's status code and, when the
      body is parsable JSON, its parsed value. */
  datatype Transfer = Transfer(status: int, body: Option<Json>)

  /** What goes on the wire: URL, header list in order, and the JSON body. */
  datatype HttpRequest = HttpRequest(url: string, headers: seq<string>, body: Json)

  // ---------------------------------------------------------------- headers

  predicate IsPrefix(p: string, s: string)
  {
    |p| <= |s| && s[..|p|] == p
  }

  /** The bearer token of the first `Authorization: Bearer` header, if any:
      what the server reads off the header list. */
  function BearerToken(headers: seq<string>): Option<string>
  {
    if headers == [] then None
    else if IsPrefix(BearerPrefix, headers[0]) then Some(headers[0][|BearerPrefix|..])
    else BearerToken(headers[1..])
  }

  /** The request http_post makes of a path, a body and the token it holds. */
  function PostRequest(path: string, body: Json, token: string): HttpRequest
  {
    HttpRequest(BaseUrl + path,
                [ContentTypeHeader] + (if token == "" then [] else [BearerPrefix + token]),
                body)
  }

  /** Every request is sent to the exchange host with the given path and the
      JSON content type first, and carries a bearer token exactly when the
      client holds a non-empty one, and then that very token. */
  lemma {:induction false} PostRequestHeaders(path: string, body: Json, token: string)
    ensures var req := PostRequest(path, body, token);
      && req.url == BaseUrl + path
      && req.headers[0] == ContentTypeHeader
      && req.body == body
      && BearerToken(req.headers) == (if token == "" then None else Some(token))
  {
    var req := PostRequest(path, body, token);
    assert req.headers[0][0] == 'C' != 'A' == BearerPrefix[0];
    assert !IsPrefix(BearerPrefix, req.headers[0]);
    assert req.headers[1..] == (if token == "" then [] else [BearerPrefix + token]);
    if token != "" {
      var h := BearerPrefix + token;
      assert h[..|BearerPrefix|] == BearerPrefix;
      assert h[|BearerPrefix|..] == token;
    }
  }

  /** How http_post turns the transfer into a value: a non-OK status fails
      without looking at the body; an unparsable body fails; otherwise the
      parsed body. */
  function PostOutcome(reply: Transfer): (r: Result<Json, Error>)
    ensures reply.status != CurlOk ==> r == Failure(TransportError(reply.status))
    ensures reply.status == CurlOk && reply.body.None? ==> r == Failure(MalformedResponse)
    ensures r.Success? <==> reply.status == CurlOk && reply.body.Some?
    ensures r.Success? ==> r.value == reply.body.value
  {
    if reply.status != CurlOk then Failure(TransportError(reply.status))
    else match reply.body
      case None => Failure(MalformedResponse)
      case Some(j) => Success(j)
  }

  /** Feeds a successfully parsed reply to the reading of one operation. */
  function AndThen<T>(r: Result<Json, Error>, read: Json -> Result<T, Error>): Result<T, Error>
  {
    match r
    case Failure(e) => Failure(e)
    case Success(resp) => read(resp)
  }

  // --------------------------------------------------------------- requests

  function AuthRequest(clientId: string, clientSecret: string): Json
  {
    Request(AuthId, "public/auth",
            map["grant_type" := JString("client_credentials"),
                "client_id" := JString(clientId),
                "client_secret" := JString(clientSecret)])
  }

  /** `direction == "buy" ? "private/buy" : "private/sell"`. */
  function OrderMethod(direction: string): string
  {
    if direction == "buy" then BuyMethod else SellMethod
  }

  function OrderPath(direction: string): string
  {
    OrderPathPrefix + direction
  }

  function OrderRequest(instrument: string, direction: string, amount: int, price: real, orderType: string): Json
  {
    Request(OrderId, OrderMethod(direction),
            map["instrument_name" := JString(instrument),
                "amount" := JInt(amount),
                "price" := JReal(price),
                "type" := JString(orderType)])
  }

  function CancelRequest(orderId: string): Json
  {
    Request(CancelId, "private/cancel", map["order_id" := JString(orderId)])
  }

  function InstrumentsRequest(currency: string, kind: string, expired: bool): Json
  {
    Request(InstrumentsId, "public/get_instruments",
            map["currency" := JString(currency), "kind" := JString(kind), "expired" := JBool(expired)])
  }

  /** The authentication request is a JSON-RPC 2.0 call with id 1 to
      `public/auth` whose parameters are the client-credentials grant and
      exactly the stored credentials. */
  lemma AuthRequestReadsBack(clientId: string, clientSecret: string)
    ensures WellFormedRequest(AuthRequest(clientId, clientSecret))
    ensures var c := DecodeRequest(AuthRequest(clientId, clientSecret));
      && c.Some? && c.value.id == 1 && c.value.name == "public/auth"
      && c.value.params.Keys == {"grant_type", "client_id", "client_secret"}
      && c.value.params["grant_type"] == JString("client_credentials")
      && c.value.params["client_id"] == JString(clientId)
      && c.value.params["client_secret"] == JString(clientSecret)
  {

  }

  /** The order request is a call with id 2 whose method is `private/buy`
      exactly when the direction is "buy" and `private/sell` for every other
      direction, and whose parameters are the four order fields as given. */
  lemma OrderRequestReadsBack(instrument: string, direction: string, amount: int, price: real, orderType: string)
    ensures WellFormedRequest(OrderRequest(instrument, direction, amount, price, orderType))
    ensures var c := DecodeRequest(OrderRequest(instrument, direction, amount, price, orderType));
      && c.Some? && c.value.id == 2
      && (c.value.name == BuyMethod <==> direction == "buy")
      && (c.value.name == SellMethod <==> direction != "buy")
      && c.value.params.Keys == {"instrument_name", "amount", "price", "type"}
      && c.value.params["instrument_name"] == JString(instrument)
      && c.value.params["amount"] == JInt(amount)
      && c.value.params["price"] == JReal(price)
      && c.value.params["type"] == JString(orderType)
  {

  }

  /** The cancel request is a call with id 3 to `private/cancel` whose only
      parameter is the order id. */
  lemma CancelRequestReadsBack(orderId: string)
    ensures WellFormedRequest(CancelRequest(orderId))
    ensures DecodeRequest(CancelRequest(orderId))
         == Some(Call(3, "private/cancel", map["order_id" := JString(orderId)]))
  {

  }

  /** The instrument query is a call with id 4 to `public/get_instruments`
      with exactly the currency, kind and expired flag given. */
  lemma InstrumentsRequestReadsBack(currency: string, kind: string, expired: bool)
    ensures WellFormedRequest(InstrumentsRequest(currency, kind, expired))
    ensures var c := DecodeRequest(InstrumentsRequest(currency, kind, expired));
      && c.Some? && c.value.id == 4 && c.value.name == "public/get_instruments"
      && c.value.params.Keys == {"currency", "kind", "expired"}
      && c.value.params["currency"] == JString(currency)
      && c.value.params["kind"] == JString(kind)
      && c.value.params["expired"] == JBool(expired)
  {

  }

  /** The order path takes the direction verbatim while the method collapses
      every direction but "buy" to a sell: the path names the same method as
      the body exactly when the direction is "buy" or "sell". */
  lemma {:induction false} OrderPathMatchesMethod(direction: string)
    ensures OrderPath(direction) == "/api/v2/" + OrderMethod(direction)
        <==> direction == "buy" || direction == "sell"
  {
    var m := OrderMethod(direction);
    if OrderPath(direction) == "/api/v2/" + m {
      var p := OrderPath(direction);
      assert |p| == |OrderPathPrefix| + |direction|;
      assert p[|OrderPathPrefix|..] == direction;
      assert ("/api/v2/" + m)[|OrderPathPrefix|..] == m[8..];
      assert direction == m[8..];
      assert BuyMethod[8..] == "buy" && SellMethod[8..] == "sell";
    }
  }

  // --------------------------------------------------------------- quantity

  /** `static_cast<int>` of a finite value: truncation toward zero. */
  function Truncate(q: real): int
  {
    if q >= 0.0 then q.Floor else -((-q).Floor)
  }

  /** The negation of `quantity <= 0 || static_cast<int>(quantity) != quantity`. */
  predicate ValidQuantity(q: real)
  {
    !(q <= 0.0 || Truncate(q) as real != q)
  }

  /** The quantity check admits exactly the positive whole numbers. */
  lemma ValidQuantityIsPositiveWhole(q: real)
    ensures ValidQuantity(q) <==> 0.0 < q && q.Floor as real == q
  {
  }

  /** On an admitted quantity the amount sent is that quantity, as a
      positive integer. */
  lemma AmountIsQuantity(q: real)
    requires ValidQuantity(q)
    ensures Truncate(q) > 0 && Truncate(q) as real == q
  {
  }

  // ---------------------------------------------------------- reply reading

  /** authenticate: an error reply fails with the whole reply; otherwise the
      token is `result.access_token`, which must be a string. */
  function AuthResult(resp: Json): Result<string, Error>
  {
    match Classify(resp)
    case Rejected(_) => Failure(AuthFailed(resp))
    case NotAnObject => Failure(JsonTypeError)
    case Accepted(result) =>
      match Member(result, "access_token")
      case None => Failure(JsonTypeError)
      case Some(t) =>
        match AsString(t)
        case None => Failure(JsonTypeError)
        case Some(token) => Success(token)
  }

  /** place_order: an error reply fails with its error member; otherwise the
      result member, null when absent. */
  function OrderResult(resp: Json): Result<Json, Error>
  {
    match Classify(resp)
    case Rejected(e) => Failure(OrderFailed(e))
    case NotAnObject => Failure(JsonTypeError)
    case Accepted(result) => Success(result)
  }

  /** cancel_order: an error reply fails with its error member; any other
      reply, of any shape, is success (the result is never read). */
  function CancelResult(resp: Json): Result<(), Error>
  {
    if Contains(resp, "error") then Failure(CancelFailed(resp.fields["error"])) else Success(())
  }

  /** get_instruments: the result member, with no error check. */
  function InstrumentsResult(resp: Json): Result<Json, Error>
  {
    match Member(resp, "result")
    case None => Failure(JsonTypeError)
    case Some(r) => Success(r)
  }

  /** Authentication succeeds exactly on an object reply without an error
      member whose result is an object with a string `access_token`, and
      then yields that string. */
  lemma AuthResultSucceedsIff(resp: Json, token: string)
    ensures AuthResult(resp) == Success(token) <==>
      && resp.JObject? && "error" !in resp.fields && "result" in resp.fields
      && resp.fields["result"].JObject?
      && "access_token" in resp.fields["result"].fields
      && resp.fields["result"].fields["access_token"] == JString(token)
  {

  }

  /** A reply holding an error member makes authentication, order placement
      and cancellation fail with that error, and never yields a value. */
  lemma ErrorReplyFails(resp: Json)
    requires Contains(resp, "error")
    ensures AuthResult(resp) == Failure(AuthFailed(resp))
    ensures OrderResult(resp) == Failure(OrderFailed(resp.fields["error"]))
    ensures CancelResult(resp) == Failure(CancelFailed(resp.fields["error"]))
  {
  }

  /** Without an error member, place_order returns exactly the result
      member (null when absent) and cancel_order succeeds. */
  lemma ResultReplySucceeds(resp: Json)
    requires resp.JObject? && "error" !in resp.fields
    ensures OrderResult(resp) == Success(if "result" in resp.fields then resp.fields["result"] else JNull)
    ensures CancelResult(resp).Success?
  {
  }

  /** get_instruments does not check for an error: a reply holding only an
      error member yields a null result instead of a failure. */
  lemma InstrumentsIgnoresError(resp: Json)
    requires resp.JObject? && "result" !in resp.fields
    ensures InstrumentsResult(resp) == Success(JNull)
  {
  }

  // ------------------------------------------------------------------ client

  /** The client: immutable credentials and the access token, which only
      `Authenticate` writes. */
  class DeribitClient {
    const clientId: string
    const clientSecret: string
    var accessToken: string

    /** The fields as the constructor sets them before it authenticates. */
    constructor (clientId: string, clientSecret: string)
      ensures this.clientId == clientId && this.clientSecret == clientSecret
      ensures accessToken == ""
    {
      this.clientId := clientId;
      this.clientSecret := clientSecret;
      accessToken := "";
    }

    /** The constructor as a whole: set the credentials, then authenticate;
        the client exists only when authentication succeeded, and otherwise
        the authentication error is what construction raises. */
    static method Open(clientId: string, clientSecret: string, reply: Transfer)
      returns (sent: HttpRequest, client: Result<DeribitClient, Error>)
      ensures sent == PostRequest(AuthPath, AuthRequest(clientId, clientSecret), "")
      ensures client.Success? <==> AndThen(PostOutcome(reply), AuthResult).Success?
      ensures client.Failure? ==> client.error == AndThen(PostOutcome(reply), AuthResult).error
      ensures client.Success? ==>
        && fresh(client.value)
        && client.value.clientId == clientId
        && client.value.clientSecret == clientSecret
        && client.value.accessToken == AndThen(PostOutcome(reply), AuthResult).value
    {
      var c := new DeribitClient(clientId, clientSecret);
      var r;
      sent, r := c.Authenticate(reply);
      client := if r.Pass? then Success(c) else Failure(r.error);
    }

    /** The header list and URL step by step, then the transfer. */
    method HttpPost(path: string, body: Json, reply: Transfer) returns (sent: HttpRequest, r: Result<Json, Error>)
      ensures sent.url == BaseUrl + path
      ensures sent.body == body
      ensures |sent.headers| > 0 && sent.headers[0] == ContentTypeHeader
      ensures BearerToken(sent.headers) == (if accessToken == "" then None else Some(accessToken))
      ensures sent == PostRequest(path, body, accessToken)
      ensures reply.status != CurlOk ==> r == Failure(TransportError(reply.status))
      ensures r == PostOutcome(reply)
    {
      var url := BaseUrl + path;
      var headers: seq<string> := [];
      headers := headers + [ContentTypeHeader];
      if accessToken != "" {
        headers := headers + [BearerPrefix + accessToken];
      }
      sent := HttpRequest(url, headers, body);
      PostRequestHeaders(path, body, accessToken);
      if reply.status != CurlOk {
        return sent, Failure(TransportError(reply.status));
      }
      match reply.body
      case None => r := Failure(MalformedResponse);
      case Some(j) => r := Success(j);
    }

    /** Sends the credentials; on success stores `result.access_token`, on
        any failure leaves the token as it was. */
    method Authenticate(reply: Transfer) returns (sent: HttpRequest, r: Outcome<Error>)
      modifies this`accessToken
      ensures sent == PostRequest(AuthPath, AuthRequest(clientId, clientSecret), old(accessToken))
      ensures var a := AndThen(PostOutcome(reply), AuthResult);
        && (r.Pass? <==> a.Success?)
        && (a.Failure? ==> r == Fail(a.error) && accessToken == old(accessToken))
        && (a.Success? ==> accessToken == a.value)
    {
      var resp;
      sent, resp := HttpPost(AuthPath, AuthRequest(clientId, clientSecret), reply);
      match resp
      case Failure(e) => r := Fail(e);
      case Success(j) =>
        match AuthResult(j)
        case Failure(e) => r := Fail(e);
        case Success(token) =>
          accessToken := token;
          r := Pass;
    }

    /** Rejects a quantity that is not a positive whole number before anything
        is sent; otherwise posts the order with the integer amount and reads
        the reply. `orderType` is "limit" unless given. */
    method PlaceOrder(instrument: string, direction: string, quantity: real, price: real,
                      reply: Transfer, orderType: string := "limit")
      returns (sent: Option<HttpRequest>, r: Result<Json, Error>)
      ensures sent.None? <==> !ValidQuantity(quantity)
      ensures !ValidQuantity(quantity) ==> r == Failure(InvalidArgument)
      ensures ValidQuantity(quantity) ==>
        && Truncate(quantity) as real == quantity
        && sent == Some(PostRequest(OrderPath(direction),
                                    OrderRequest(instrument, direction, Truncate(quantity), price, orderType),
                                    accessToken))
        && r == AndThen(PostOutcome(reply), OrderResult)
    {
      if quantity <= 0.0 || Truncate(quantity) as real != quantity {
        return None, Failure(InvalidArgument);
      }
      var body := OrderRequest(instrument, direction, Truncate(quantity), price, orderType);
      var req, resp := HttpPost(OrderPath(direction), body, reply);
      sent := Some(req);
      match resp
      case Failure(e) => r := Failure(e);
      case Success(j) => r := OrderResult(j);
    }

    method CancelOrder(orderId: string, reply: Transfer) returns (sent: HttpRequest, r: Outcome<Error>)
      ensures sent == PostRequest(CancelPath, CancelRequest(orderId), accessToken)
      ensures var c := AndThen(PostOutcome(reply), CancelResult);
        (r.Pass? <==> c.Success?) && (c.Failure? ==> r == Fail(c.error))
    {
      var resp;
      sent, resp := HttpPost(CancelPath, CancelRequest(orderId), reply);
      match resp
      case Failure(e) => r := Fail(e);
      case Success(j) =>
        if Contains(j, "error") {
          r := Fail(CancelFailed(j.fields["error"]));
        } else {
          r := Pass;
        }
    }

    method GetInstruments(currency: string, kind: string, expired: bool, reply: Transfer)
      returns (sent: HttpRequest, r: Result<Json, Error>)
      ensures sent == PostRequest(InstrumentsPath, InstrumentsRequest(currency, kind, expired), accessToken)
      ensures r == AndThen(PostOutcome(reply), InstrumentsResult)
    {
      var resp;
      sent, resp := HttpPost(InstrumentsPath, InstrumentsRequest(currency, kind, expired), reply);
      match resp
      case Failure(e) => r := Failure(e);
      case Success(j) => r := InstrumentsResult(j);
    }
  }
}
