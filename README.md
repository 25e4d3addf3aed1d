# Deribit connectivity layer — a Dafny model

This project models the exchange client of a small trading system that talks
to the Deribit test exchange. The client has two halves:

- `DeribitClient` is the request/response half. It authenticates with client
  credentials, keeps the access token, and posts JSON-RPC 2.0 requests over
  HTTPS: place an order, cancel an order, list instruments. It then reads
  each reply as an error or a result.
- `DeribitWebSocket` is the streaming half. It connects in layers (TCP, then
  TLS, then WebSocket), subscribes to order-book channels, and reads frames.

JSON is an abstract datatype (`Json.Json`) with the library operations the
client relies on: `contains`, the non-const `operator[]`, and conversion to a
string. Every call into libcurl, the JSON parser or Boost.Beast is an input
that the caller supplies:

- a `Transfer` is the curl status plus the parsed body, or `None` when the
  body does not parse;
- a `Step -> StepResult` function gives the outcome of each connect step;
- a `StepResult` gives the outcome of a frame write;
- a `WsRead` gives the outcome of a frame read.

Every method also returns what it put on the wire: the `HttpRequest`, the
connect steps it attempted, or the frame it wrote.

Files:
- `wrappers.dfy`: `Option`, `Result` and `Outcome`.
- `json.dfy`: the JSON value and its library operations.
- `jsonrpc.dfy`: the request envelope (section 4 of the JSON-RPC 2.0
  specification), a reader that is its inverse, and how a reply is
  classified (section 5).
- `deribit_rest.dfy`: the request builders, how each reply is read, and the
  class `DeribitClient`.
- `deribit_stream.dfy`: the channel name, the subscribe frame, the stage
  machine, and the class `DeribitWebSocket`.

The model follows the code, including where the code is more lenient than
the protocol or than the names of its operations suggest:
- JSON-RPC 2.0 expects exactly one of `result` and `error` in a reply, but a
  reply with neither is not treated as malformed. The code reads
  `resp["result"]`, which is null, so operations that return a result
  return null (`JsonRpc.ClassifyCases`).
- `get_instruments` never checks for an error reply. An error reply yields a
  null result, not a failure (`DeribitRest.InstrumentsIgnoresError`).
- `cancel_order` reads nothing but the `error` member, so any other reply,
  of any shape, counts as success.
- The code cannot refresh the token. `authenticate` is private
  (src/deribit_api.h:37) and its only caller is the constructor
  (src/deribit_api.cpp:25), which runs it while the token is still empty,
  so the auth request never carries a bearer header (`Open`). The model
  makes `Authenticate` a public method, so it can also be called with a
  non-empty token. Only the model can make that call; it then sends the
  held token as a bearer header, because `http_post` adds the header
  whenever the token is non-empty.
- The direction string is not restricted to buy/sell. Any direction other
  than `"buy"` becomes `private/sell`, but the path takes the direction
  verbatim. The path and the method agree only for `"buy"` and `"sell"`
  (`DeribitRest.OrderPathMatchesMethod`).

## Model

| member | source | states |
|---|---|---|
| `JsonRpc.RequestRoundTrip` | src/deribit_api.cpp:29-38 | every envelope the client builds is a well-formed JSON-RPC 2.0 request (version "2.0", string method, structured params, numeric id, no other members) and reads back as exactly its id, method and params |
| `JsonRpc.DecodeRequestExact` | src/deribit_api.cpp:107-112 | conversely, any value the reader accepts is exactly the envelope built from what it read |
| `JsonRpc.ClassifyCases` | src/deribit_api.cpp:100-103 | a reply is rejected exactly when it holds an `error` member, whatever else it holds; an object without either member or a null reply is accepted with a null result; only non-object, non-null replies are unreadable |
| `JsonRpc.ClassifyWellFormed` | src/deribit_api.cpp:43-46 | for every object holding exactly one of `result` and `error`, classification picks the member that is present and hands its payload over untouched |
| `DeribitRest.PostRequestHeaders` | src/deribit_api.cpp:51-57 | the request goes to `"https://test.deribit.com" + path`, its first header is `Content-Type: application/json`, and it carries a bearer token exactly when the token is non-empty, and then that very token |
| `DeribitRest.PostOutcome` | src/deribit_api.cpp:73-76 | a non-OK curl status fails with a transport error whatever the body is; an OK status with an unparsable body fails as malformed; a value comes back exactly when the status is OK and the body parsed, and it is that parsed body |
| `DeribitRest.AuthRequestReadsBack` | src/deribit_api.cpp:29-38 | the auth request is id 1, method `public/auth`, and params exactly `grant_type "client_credentials"` and the stored `client_id` and `client_secret` |
| `DeribitRest.OrderRequestReadsBack` | src/deribit_api.cpp:86-96 | the order request is id 2; its method is `private/buy` if and only if the direction is "buy", and `private/sell` if and only if it is anything else; its params are exactly `instrument_name`, `amount`, `price` and `type` as given |
| `DeribitRest.CancelRequestReadsBack` | src/deribit_api.cpp:107-112 | the cancel request is id 3, method `private/cancel`, and params holding only `order_id` |
| `DeribitRest.InstrumentsRequestReadsBack` | src/deribit_api.cpp:123-132 | the instrument query is id 4, method `public/get_instruments`, and params exactly `currency`, `kind` and `expired` |
| `DeribitRest.OrderPathMatchesMethod` | src/deribit_api.cpp:89-98 | the path `/api/v2/private/<direction>` names the same method as the body if and only if the direction is "buy" or "sell" |
| `DeribitRest.ValidQuantityIsPositiveWhole` | src/deribit_api.cpp:82-84 | the quantity check admits a quantity if and only if it is positive and whole (truncation toward zero, as `static_cast<int>` does) |
| `DeribitRest.AmountIsQuantity` | src/deribit_api.cpp:92 | for an admitted quantity, the `amount` sent is a positive integer equal to the quantity |
| `DeribitRest.AuthResultSucceedsIff` | src/deribit_api.cpp:43-46 | authentication yields token `t` if and only if the reply is an object with no `error` member whose `result` is an object with `access_token` equal to the string `t` |
| `DeribitRest.ErrorReplyFails` | src/deribit_api.cpp:100-117 | a reply with an `error` member makes authentication fail with the whole reply, and order placement and cancellation fail with that error member |
| `DeribitRest.ResultReplySucceeds` | src/deribit_api.cpp:100-103 | when an object reply has no `error` member, order placement returns exactly its `result` member (null when absent), and cancellation succeeds |
| `DeribitRest.InstrumentsIgnoresError` | src/deribit_api.cpp:133 | an object reply without `result` yields a null instrument list rather than a failure, even when it carries an error |
| `DeribitRest.DeribitClient.constructor` | src/deribit_api.cpp:21-24 | the credentials are stored as given and the token starts empty |
| `DeribitRest.DeribitClient.Open` | src/deribit_api.cpp:21-26 | construction sends the auth request without a bearer header; a client exists exactly when authentication succeeds, and it holds the credentials and the extracted token; otherwise construction fails with the authentication error itself (transport, parse, error reply or wrong shape) |
| `DeribitRest.DeribitClient.HttpPost` | src/deribit_api.cpp:49-77 | the request is the one built from path, body and current token, with the URL, the content-type header and the bearer-header property above; the outcome is the transfer status check followed by the parse |
| `DeribitRest.DeribitClient.Authenticate` | src/deribit_api.cpp:28-47 | it sends the credentials to `/api/v2/public/auth`; on success the token becomes `result.access_token`; on every failure (transport, parse, error reply, wrong shape) it fails and the token is unchanged |
| `DeribitRest.DeribitClient.PlaceOrder` | src/deribit_api.cpp:79-104 | a quantity that is not positive and whole fails with invalid-argument and sends nothing; otherwise exactly one order request is sent to `/api/v2/private/<direction>` with the integer amount, and the reply is read as place_order reads it |
| `DeribitRest.DeribitClient.CancelOrder` | src/deribit_api.cpp:106-118 | it sends the cancel request to `/api/v2/private/cancel`; it succeeds exactly when the transfer and parse succeed and the reply has no `error` member |
| `DeribitRest.DeribitClient.GetInstruments` | src/deribit_api.cpp:120-134 | it sends the instrument query to `/api/v2/public/get_instruments` and returns the reply's `result` member with no error check |
| `DeribitStream.ChannelNameRoundTrip` | src/deribit_api.cpp:198 | the instrument can be read back out of `"orderbook." + instrument + ".100ms"` |
| `DeribitStream.InstrumentOfExact` | src/deribit_api.cpp:198 | every name the channel reader accepts is the channel name of the instrument it reads |
| `DeribitStream.ChannelNameInjective` | src/deribit_api.cpp:198 | distinct instruments give distinct channel names |
| `DeribitStream.SubscribeFrameReadsBack` | src/deribit_api.cpp:161-167 | the subscribe frame is a well-formed request with id 9000, method `public/subscribe`, and params holding only a `channels` list of exactly that one channel |
| `DeribitStream.FirstFailureIff` | src/deribit_api.cpp:144-159 | the fail-fast count is the unique count such that every earlier step succeeded and the step at that count, if there is one, failed |
| `DeribitStream.ReadOutcomeCases` | src/deribit_api.cpp:171-183 | a frame's text is returned verbatim, a graceful close reads as "", and exactly the other errors are raised, each with its own code |
| `DeribitStream.EmptyFrameReadsAsClose` | src/deribit_api.cpp:175-178 | an empty text frame and a graceful close give the caller the same outcome |
| `DeribitStream.DeribitWebSocket.constructor` | src/deribit_api.cpp:188-189 | a new session is unconnected |
| `DeribitStream.DeribitWebSocket.Connect` | src/deribit_api.cpp:144-159 | the steps run in the order resolve, TCP connect, server name, TLS handshake, WebSocket handshake on `/ws/api/v2`; the steps attempted are those up to and including the first failure; it succeeds exactly when all five succeed, otherwise it fails with the first failing step and its code; the stage reached is the layer the successful steps established |
| `DeribitStream.DeribitWebSocket.Subscribe` | src/deribit_api.cpp:161-169 | it writes one frame that reads back as id 9000, `public/subscribe`, and the given channel; it fails exactly when the write fails, with the write's code |
| `DeribitStream.DeribitWebSocket.SubscribeOrderbook` | src/deribit_api.cpp:197-199 | the frame written is the subscribe frame for exactly the channel `orderbook.<instrument>.100ms`, and that channel names the instrument back; it fails exactly when the write fails, with the write's code |
| `DeribitStream.DeribitWebSocket.Read` | src/deribit_api.cpp:171-183 | the outcome is the read outcome above; after a close or an error the session is `Closed`, otherwise its stage is unchanged |

## Left out

- Configuration loading (`read_file` and the constructor's `cfg.at(...)`, src/deribit_api.cpp:9-13, 21-24): this is file I/O. `Open` takes the credentials directly.
- The libcurl transfer (`curl_easy_*`, `curl_write_cb`, peer verification) and `json::parse`/`dump`: these are foreign library calls. Their combined effect is the `Transfer` input. The model keeps status and parsed body only, not bytes.
- Boost.Asio/Beast internals (resolver, `tcp_stream`, the TLS handshake, the WebSocket upgrade): these are library calls. Each is an abstract step whose result the caller supplies. Only the step order and the stop at the first failure are modelled.
- `DeribitStream.DeribitWebSocket.Connect`: requires a fresh, unconnected session. That is how the program uses it (src/main.cpp:36-38). Reconnecting an open Beast stream is the library's behaviour and is not modelled.
- `DeribitStream.DeribitWebSocket.Subscribe`: the session's stage is neither checked nor changed. The source does not check it, and Beast alone decides whether a write on a stream that is not open fails. That decision is the `write` input.
- `DeribitStream.DeribitWebSocket.Read`: the `Closed` stage after an error stands for Beast's own stream state. The source keeps no stage field.
- `DeribitStream.DeribitWebSocket.Read`: reads after `Closed` are not constrained. Beast fails any read on a closed stream, but the model takes the read's result from the `incoming` input whatever the stage is.
- `DeribitRest.DeribitClient.constructor`: only sets the fields. Only `Open` corresponds to the C++ constructor, which always authenticates (src/deribit_api.cpp:25). A client made with the bare constructor has never authenticated, something the program cannot produce.
- `price` is carried as an opaque `real`. IEEE doubles are not modelled. The quantity is a `real`, and the overflow of `static_cast<int>` for quantities beyond the `int` range is not modelled.
- Console output of the auth reply (src/deribit_api.cpp:41) is not modelled.
- `get_positions` is declared (src/deribit_api.h:21) but never defined, so there is nothing to model.
- `src/main.cpp` is not modelled: orchestration, console output, and the thread with its atomic shutdown flag. These are glue and concurrency.
- Fixed request ids mean responses cannot be correlated by id. Each operation uses its own constant id, and the model records those constants. It does not model id matching.
