/** The streaming half of the exchange client (`DeribitWebSocket`): the order
    in which connecting establishes its layers, the subscription frame and
    its channel name, and how one read is reported. Every library step
    (resolver, TCP connect, server-name indication, TLS handshake, WebSocket
    handshake, frame write, frame read) is an abstract call whose result the
    caller supplies. */
module DeribitStream {
  import opened Wrappers
  import opened Json
  import opened JsonRpc

  const WsPath: string := "/ws/api/v2"
  const SubscribeId: int := 9000
  const SubscribeMethod: string := "public/subscribe"
  const ChannelPrefix: string := "orderbook."
  const ChannelSuffix: string := ".100ms"

  // ------------------------------------------------------------ subscribing

  /** `"orderbook." + instrument + ".100ms"`. */
  function ChannelName(instrument: string): string
  {
    ChannelPrefix + instrument + ChannelSuffix
  }

  /** Reads the instrument back out of an order-book channel name. */
  function InstrumentOf(channel: string): Option<string>
  {
    if && |ChannelPrefix| + |ChannelSuffix| <= |channel|
       && channel[..|ChannelPrefix|] == ChannelPrefix
       && channel[|channel| - |ChannelSuffix|..] == ChannelSuffix
    then Some(channel[|ChannelPrefix|..|channel| - |ChannelSuffix|])
    else None
  }

  /** Every channel name names the instrument it was built from. */
  lemma ChannelNameRoundTrip(instrument: string)
    ensures InstrumentOf(ChannelName(instrument)) == Some(instrument)
  {

  }

  /** Every name the reader accepts is the channel of what it read. */
  lemma InstrumentOfExact(channel: string)
    requires InstrumentOf(channel).Some?
    ensures ChannelName(InstrumentOf(channel).value) == channel
  {

  }

  /** Distinct instruments subscribe to distinct channels. */
  lemma ChannelNameInjective(a: string, b: string)
    requires ChannelName(a) == ChannelName(b)
    ensures a == b
  {
    ChannelNameRoundTrip(a);
    ChannelNameRoundTrip(b);
  }

  /** `{"jsonrpc": "2.0", "id": 9000, "method": "public/subscribe", "params": {"channels": [channel]}}`. */
  function SubscribeFrame(channel: string): Json
  {
    Request(SubscribeId, SubscribeMethod, map["channels" := JArray([JString(channel)])])
  }

  /** The subscription frame is a JSON-RPC 2.0 call with id 9000 to
      `public/subscribe` whose only parameter lists exactly one channel. */
  lemma SubscribeFrameReadsBack(channel: string)
    ensures WellFormedRequest(SubscribeFrame(channel))
    ensures DecodeRequest(SubscribeFrame(channel))
         == Some(Call(9000, "public/subscribe", map["channels" := JArray([JString(channel)])]))
  {

  }

  // ------------------------------------------------------------- connecting

  /** The layers of the stream: TCP, then TLS, then the WebSocket protocol;
      `Closed` once a read has seen the peer close or an error. */
  datatype Stage = Unconnected | TcpConnected | TlsEstablished | Open | Closed

  /** One library step of `connect`. */
  datatype Step =
    | Resolve(host: string, port: string)
    | TcpConnect
    | SetServerName(host: string)
    | TlsHandshake
    | WsHandshake(host: string, target: string)

  datatype StepResult = Done | Failed(code: int)

  datatype StreamError =
    | ConnectFailed(step: Step, code: int)
    | WriteFailed(code: int)
    | ReadFailed(code: int)

  /** The order `connect` runs its steps in. */
  function ConnectSteps(host: string, port: string): seq<Step>
  {
    [Resolve(host, port), TcpConnect, SetServerName(host), TlsHandshake, WsHandshake(host, WsPath)]
  }

  /** The layer that stands once the first `done` connect steps succeeded:
      resolving and naming the server establish nothing of their own. */
  function StageAfter(done: nat): Stage
  {
    if done < 2 then Unconnected
    else if done < 4 then TcpConnected
    else if done < 5 then TlsEstablished
    else Open
  }

  /** The number of steps that succeed before the first one that fails. */
  function FirstFailure(steps: seq<Step>, lib: Step -> StepResult): (k: nat)
    ensures k <= |steps|
  {
    if steps == [] || lib(steps[0]).Failed? then 0 else 1 + FirstFailure(steps[1..], lib)
  }

  /** `FirstFailure` is the one count such that every step before it
      succeeds and the step at it, if any, fails. */
  lemma {:induction false} FirstFailureIff(steps: seq<Step>, lib: Step -> StepResult, k: nat)
    ensures FirstFailure(steps, lib) == k <==>
      && k <= |steps|
      && (forall i :: 0 <= i < k ==> lib(steps[i]).Done?)
      && (k < |steps| ==> lib(steps[k]).Failed?)
  {
    if steps != [] && lib(steps[0]).Done? && k > 0 {
      FirstFailureIff(steps[1..], lib, k - 1);
      if k <= |steps| {
        assert forall i :: 1 <= i < k ==> steps[1..][i - 1] == steps[i];
      }
    }
  }

  // ---------------------------------------------------------------- reading

  /** The error a frame read can end with: Beast's `websocket::error::closed`
      (the peer's close frame) or any other error code. */
  datatype WsError = ClosedByPeer | OtherError(code: int)

  /** What one `ws_.read` delivers. */
  datatype WsRead = Message(payload: string) | ReadError(error: WsError)

  /** What `read` hands its caller: the frame's text, or a raised error. */
  datatype ReadOutcome = Text(text: string) | Raised(error: StreamError)

  function ReadOutcomeOf(incoming: WsRead): ReadOutcome
  {
    match incoming
    case Message(payload) => Text(payload)
    case ReadError(ClosedByPeer) => Text("")
    case ReadError(OtherError(code)) => Raised(ReadFailed(code))
  }

  /** A frame's text is returned verbatim, a graceful close reads as the
      empty string, and every other error is raised with its own code. */
  lemma ReadOutcomeCases(incoming: WsRead)
    ensures ReadOutcomeOf(incoming).Raised? <==> incoming.ReadError? && incoming.error.OtherError?
    ensures incoming.Message? ==> ReadOutcomeOf(incoming) == Text(incoming.payload)
    ensures incoming == ReadError(ClosedByPeer) ==> ReadOutcomeOf(incoming) == Text("")
    ensures incoming.ReadError? && incoming.error.OtherError? ==>
      ReadOutcomeOf(incoming) == Raised(ReadFailed(incoming.error.code))
  {
  }

  /** A caller cannot tell an empty text frame from a graceful close. */
  lemma EmptyFrameReadsAsClose()
    ensures ReadOutcomeOf(Message("")) == ReadOutcomeOf(ReadError(ClosedByPeer))
  {
  }

  // ----------------------------------------------------------------- session

  class DeribitWebSocket {
    var stage: Stage

    constructor ()
      ensures stage == Unconnected
    {
      stage := Unconnected;
    }

    /** Resolve, TCP connect, set the server name, TLS handshake, WebSocket
        handshake against `/ws/api/v2`, in that order, stopping at the first
        failing step; the layers that step's predecessors established stay. */
    method Connect(host: string, port: string, lib: Step -> StepResult)
      returns (attempted: seq<Step>, r: Outcome<StreamError>)
      requires stage == Unconnected
      modifies this`stage
      ensures var steps := ConnectSteps(host, port);
        var k := FirstFailure(steps, lib);
        && attempted == steps[..if k < |steps| then k + 1 else k]
        && (r.Pass? <==> k == |steps|)
        && (r.Fail? ==> k < |steps| && lib(steps[k]).Failed? && r.error == ConnectFailed(steps[k], lib(steps[k]).code))
        && stage == StageAfter(k)
    {
      var steps := ConnectSteps(host, port);
      var k: nat := 0;
      attempted := [steps[0]];
      var res := lib(steps[0]);
      if res.Done? {
        k := 1;
        attempted := attempted + [steps[1]];
        res := lib(steps[1]);
        if res.Done? {
          k := 2;
          stage := TcpConnected;
          attempted := attempted + [steps[2]];
          res := lib(steps[2]);
          if res.Done? {
            k := 3;
            attempted := attempted + [steps[3]];
            res := lib(steps[3]);
            if res.Done? {
              k := 4;
              stage := TlsEstablished;
              attempted := attempted + [steps[4]];
              res := lib(steps[4]);
              if res.Done? {
                k := 5;
                stage := Open;
              }
            }
          }
        }
      }
      FirstFailureIff(steps, lib, k);
      r := if k == 5 then Pass else Fail(ConnectFailed(steps[k], lib(steps[k]).code));
    }

    /** Writes one subscription frame for `channel`; no acknowledgement is
        awaited. */
    method Subscribe(channel: string, write: StepResult) returns (frame: Json, r: Outcome<StreamError>)
      ensures DecodeRequest(frame) == Some(Call(SubscribeId, SubscribeMethod, map["channels" := JArray([JString(channel)])]))
      ensures frame == SubscribeFrame(channel)
      ensures r.Pass? <==> write.Done?
      ensures write.Failed? ==> r == Fail(WriteFailed(write.code))
    {
      frame := SubscribeFrame(channel);
      SubscribeFrameReadsBack(channel);
      r := if write.Done? then Pass else Fail(WriteFailed(write.code));
    }

    /** Subscribes to the 100 ms order-book channel of one instrument. */
    method SubscribeOrderbook(instrument: string, write: StepResult) returns (frame: Json, r: Outcome<StreamError>)
      ensures DecodeRequest(frame) == Some(Call(9000, "public/subscribe",
                                                map["channels" := JArray([JString(ChannelName(instrument))])]))
      ensures frame == SubscribeFrame(ChannelName(instrument))
      ensures InstrumentOf(ChannelName(instrument)) == Some(instrument)
      ensures r.Pass? <==> write.Done?
      ensures write.Failed? ==> r == Fail(WriteFailed(write.code))
    {
      ChannelNameRoundTrip(instrument);
      frame, r := Subscribe(ChannelName(instrument), write);
    }

    /** Reads one frame: its text, or "" after a graceful close; every other
        error is raised again. After an error or a close the stream is
        closed. */
    method Read(incoming: WsRead) returns (out: ReadOutcome)
      modifies this`stage
      ensures out == ReadOutcomeOf(incoming)
      ensures stage == if incoming.ReadError? then Closed else old(stage)
    {
      match incoming
      case Message(payload) =>
        out := Text(payload);
      case ReadError(e) =>
        stage := Closed;
        if e == ClosedByPeer {
          out := Text("");
        } else {
          out := Raised(ReadFailed(e.code));
        }
    }
  }
}
