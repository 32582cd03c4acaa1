/**
  The application's direct-method callback of main.c (`directMethodCallback`) and the UART
  write of a motor command (`MotorDriveOrder`).

  The callback is a decision on the method name and the payload's JSON shape; its one side
  effect is at most one write to the UART, recorded here as a `UartEffect`. JSON parsing is
  the `Parser` input, and the value `write` returns is the `writeResult` input.

  `DirectMethodCallbackAsWritten` is the code as it stands; `DirectMethodCallback` is the
  behaviour the code evidently intends (see the findings in README.md), and is the one the
  rest of the model uses.
*/
module DirectMethod {
  import opened Wrappers
  import opened CString
  import opened JsonValue
  import IoTHub

  /** What reaches the UART during one callback: nothing, one write of these bytes, or a
      `strlen` of a NULL command, whose behaviour C leaves undefined. */
  datatype UartEffect = NoWrite | Write(bytes: seq<char>) | NullCommandStrlen

  const MotorDriveMethod: string := "MotorDrive"
  const LeafOrderMethod: string := "SendOrderToLeafDevice"
  const CommandKey: string := "command"

  const EmptyObjectResponse: string := "{}"
  const InvalidMotorDriveResponse: string := "\"Invalid MotorDrive Order\""
  const StringStyleResponse: string := "\"Received MotorDrive invocation - string style\""
  const JsonStyleResponse: string := "\"Received MotorDrive invocation - json style\""
  const InvalidOrderResponse: string := "\"Invalid Order\""
  const LeafFailedResponse: string := "\"Failed to send order to leaf device\""
  const LeafSucceededResponse: string := "\"Succeeded\""
  const NeedPayloadResponse: string := "\"need payload\""

  const StatusOk: int := 200
  const StatusBadRequest: int := 400
  const StatusNotFound: int := 404
  const StatusServerError: int := 500

  /** `MotorDriveOrder(command)` as written: `strlen(command) + 1` bytes, the command and its
      terminator; a NULL command reaches `strlen` all the same. */
  function MotorDriveOrderAsWritten(command: Option<string>): (e: UartEffect)
    ensures command.None? <==> e.NullCommandStrlen?
    ensures command.Some? ==> e.Write? && |e.bytes| == |CStr(command.value)| + 1
                              && CStr(e.bytes) == CStr(command.value) && e.bytes[|e.bytes| - 1] == Nul
  {
    match command
    case None => NullCommandStrlen
    case Some(c) =>
      CStrTerminated(CStr(c), []);
      assert CStr(c) + [Nul] + [] == CStr(c) + [Nul];
      Write(CStr(c) + [Nul])
  }

  /** `MotorDriveOrder` as intended: a missing command is not written. */
  function MotorDriveOrder(command: Option<string>): (e: UartEffect)
    ensures !e.NullCommandStrlen?
    ensures command.None? <==> e.NoWrite?
    ensures command.Some? ==> e == MotorDriveOrderAsWritten(command)
  {
    match command
    case None => NoWrite
    case Some(_) => MotorDriveOrderAsWritten(command)
  }

  /** What the `MotorDrive` branch decides: whether `MotorDriveOrder` is called and with which
      command (`Some(None)` is a call with NULL), and the response literal it ends with. */
  datatype MotorDriveDecision = MotorDriveDecision(order: Option<Option<string>>, response: string)

  /** The payload is parsed; a JSON string is parsed again as an object, an object is used
      directly, and `command` is read from the object. */
  function MotorDriveBranch(parse: Parser, text: string): (d: MotorDriveDecision)
  {
    match parse(text)
    case Some(JString(inner)) =>
      (match parse(CStr(inner))
       case Some(JObject(members)) => MotorDriveDecision(Some(GetString(members, CommandKey)), StringStyleResponse)
       case _ => MotorDriveDecision(None, InvalidMotorDriveResponse))
    case Some(JObject(members)) => MotorDriveDecision(Some(GetString(members, CommandKey)), JsonStyleResponse)
    case _ => MotorDriveDecision(None, InvalidMotorDriveResponse)
  }

  /** The object a payload carries its command in, directly or as a JSON string holding it. */
  function CommandObject(parse: Parser, text: string): Option<map<string, Json>> {
    match parse(text)
    case Some(JObject(members)) => Some(members)
    case Some(JString(inner)) =>
      (match parse(CStr(inner))
       case Some(JObject(members)) => Some(members)
       case _ => None)
    case _ => None
  }

  /** `MotorDriveOrder` is called exactly when the payload carries a command object, and then
      with that object's `command` string (NULL when it has none). */
  lemma MotorDriveCallsOrderIffObject(parse: Parser, text: string)
    ensures MotorDriveBranch(parse, text).order.Some? <==> CommandObject(parse, text).Some?
    ensures CommandObject(parse, text).Some? ==>
              MotorDriveBranch(parse, text).order == Some(GetString(CommandObject(parse, text).value, CommandKey))
  {
  }

  /** What one callback produces: the status and stored response the SDK sees, the UART
      effect, and the `responseString` literal the code ended with. */
  datatype MethodOutcome = MethodOutcome(result: IoTHub.CallbackResult, uart: UartEffect, responseText: string)

  /** `directMethodCallback` as written. `payload` is the terminated buffer the SDK wrapper
      passes; `writeResult` is what `write` returns on the leaf path. The 500/200 of the leaf
      path go to the local `response` pointer, and `response`/`response_size` are the
      callback's own parameters, so the caller's out-parameters are never written. */
  function DirectMethodCallbackAsWritten(parse: Parser, writeResult: int, methodName: string, payload: string): (o: MethodOutcome)
    ensures o.result.response.None?
  {
    var name, text := CStr(methodName), CStr(payload);
    if name == MotorDriveMethod then
      var d := MotorDriveBranch(parse, text);
      var uart := match d.order case None => NoWrite case Some(c) => MotorDriveOrderAsWritten(c);
      MethodOutcome(IoTHub.CallbackResult(StatusOk, None), uart, d.response)
    else if name == LeafOrderMethod then
      if |text| > 0 then
        // `order_result` is a size_t.
        var reply := if SizeT(writeResult) == 0 then LeafFailedResponse else LeafSucceededResponse;
        MethodOutcome(IoTHub.CallbackResult(StatusNotFound, None), Write(text), reply)
      else MethodOutcome(IoTHub.CallbackResult(StatusBadRequest, None), NoWrite, NeedPayloadResponse)
    else MethodOutcome(IoTHub.CallbackResult(StatusNotFound, None), NoWrite, EmptyObjectResponse)
  }

  /** The response buffer the code means to hand back: the literal and its terminator
      (`response_size = strlen(responseString) + 1`). */
  function ResponseBytes(text: string): (b: seq<char>)
    ensures |b| == |text| + 1 && b[..|text|] == text && b[|text|] == Nul
  {
    text + [Nul]
  }

  /** The response literals of the callback. */
  predicate IsResponseLiteral(t: string) {
    || t == EmptyObjectResponse || t == InvalidMotorDriveResponse || t == StringStyleResponse
    || t == JsonStyleResponse || t == LeafFailedResponse || t == LeafSucceededResponse || t == NeedPayloadResponse
  }

  /** `directMethodCallback` as intended: the leaf path reports 500 when `write` wrote
      nothing or failed and 200 otherwise, a NULL command is not written, and the chosen
      response literal is stored for the SDK. */
  function DirectMethodCallback(parse: Parser, writeResult: int, methodName: string, payload: string): (o: MethodOutcome)
    ensures IsResponseLiteral(o.responseText)
    ensures o.result.response == Some(ResponseBytes(o.responseText))
  {
    var name, text := CStr(methodName), CStr(payload);
    if name == MotorDriveMethod then
      var d := MotorDriveBranch(parse, text);
      var uart := match d.order case None => NoWrite case Some(c) => MotorDriveOrder(c);
      MethodOutcome(IoTHub.CallbackResult(StatusOk, Some(ResponseBytes(d.response))), uart, d.response)
    else if name == LeafOrderMethod then
      if |text| > 0 then
        var failed := writeResult <= 0;
        var reply := if failed then LeafFailedResponse else LeafSucceededResponse;
        MethodOutcome(IoTHub.CallbackResult(if failed then StatusServerError else StatusOk, Some(ResponseBytes(reply))),
                      Write(text), reply)
      else MethodOutcome(IoTHub.CallbackResult(StatusBadRequest, Some(ResponseBytes(NeedPayloadResponse))),
                         NoWrite, NeedPayloadResponse)
    else MethodOutcome(IoTHub.CallbackResult(StatusNotFound, Some(ResponseBytes(EmptyObjectResponse))),
                       NoWrite, EmptyObjectResponse)
  }

  /** `MotorDrive` always answers 200. It writes to the UART exactly when the payload carries a
      command object: the command and its NUL, read back as the command; any other payload
      writes nothing. */
  lemma MotorDriveOutcome(parse: Parser, writeResult: int, methodName: string, payload: string)
    requires CStr(methodName) == MotorDriveMethod
    ensures var o := DirectMethodCallback(parse, writeResult, methodName, payload);
            var obj := CommandObject(parse, CStr(payload));
            && o.result.status == StatusOk
            && (o.uart.Write? <==> obj.Some? && GetString(obj.value, CommandKey).Some?)
            && (obj.None? ==> o.uart == NoWrite && o.responseText == InvalidMotorDriveResponse)
            && (o.uart.Write? ==> CStr(o.uart.bytes) == CStr(GetString(obj.value, CommandKey).value)
                                  && |o.uart.bytes| == |CStr(GetString(obj.value, CommandKey).value)| + 1)
  {
    MotorDriveCallsOrderIffObject(parse, CStr(payload));
  }

  /** The same holds of the code as written, except that an object without a string `command`
      makes it take `strlen` of NULL. */
  lemma MotorDriveOutcomeAsWritten(parse: Parser, writeResult: int, methodName: string, payload: string)
    requires CStr(methodName) == MotorDriveMethod
    ensures var o := DirectMethodCallbackAsWritten(parse, writeResult, methodName, payload);
            var obj := CommandObject(parse, CStr(payload));
            && o.result.status == StatusOk
            && (obj.None? <==> o.uart == NoWrite)
            && (obj.Some? && GetString(obj.value, CommandKey).Some? ==>
                  o.uart == MotorDriveOrder(GetString(obj.value, CommandKey)))
            && (o.uart != NoWrite ==> o.uart == MotorDriveOrderAsWritten(GetString(obj.value, CommandKey)))
  {
    MotorDriveCallsOrderIffObject(parse, CStr(payload));
  }

  /** A payload that parses to an object whose `command` is a NUL-free string: the callback
      answers 200 with the JSON-style acknowledgement and writes exactly the command and one
      NUL, as intended and as written. */
  lemma JsonCommandOutcome(parse: Parser, writeResult: int, methodName: string, payload: string,
                           members: map<string, Json>, cmd: string)
    requires CStr(methodName) == MotorDriveMethod
    requires parse(CStr(payload)) == Some(JObject(members))
    requires GetString(members, CommandKey) == Some(cmd) && Nul !in cmd
    ensures var o := DirectMethodCallback(parse, writeResult, methodName, payload);
            && o.result.status == StatusOk && o.responseText == JsonStyleResponse
            && o.uart == Write(cmd + [Nul])
    ensures var w := DirectMethodCallbackAsWritten(parse, writeResult, methodName, payload);
            && w.result.status == StatusOk && w.responseText == JsonStyleResponse
            && w.uart == Write(cmd + [Nul])
  {
    assert MotorDriveBranch(parse, CStr(payload)) == MotorDriveDecision(Some(Some(cmd)), JsonStyleResponse);
    CStrOfNulFree(cmd);
    assert MotorDriveOrderAsWritten(Some(cmd)) == Write(cmd + [Nul]);
  }

  /** A payload that parses to a JSON string which itself parses to an object whose
      `command` is a NUL-free string: the callback answers 200 with the string-style
      acknowledgement and writes exactly the command and one NUL, as intended and as written. */
  lemma StringCommandOutcome(parse: Parser, writeResult: int, methodName: string, payload: string,
                             inner: string, members: map<string, Json>, cmd: string)
    requires CStr(methodName) == MotorDriveMethod
    requires parse(CStr(payload)) == Some(JString(inner))
    requires parse(CStr(inner)) == Some(JObject(members))
    requires GetString(members, CommandKey) == Some(cmd) && Nul !in cmd
    ensures var o := DirectMethodCallback(parse, writeResult, methodName, payload);
            && o.result.status == StatusOk && o.responseText == StringStyleResponse
            && o.uart == Write(cmd + [Nul])
    ensures var w := DirectMethodCallbackAsWritten(parse, writeResult, methodName, payload);
            && w.result.status == StatusOk && w.responseText == StringStyleResponse
            && w.uart == Write(cmd + [Nul])
  {
    assert MotorDriveBranch(parse, CStr(payload)) == MotorDriveDecision(Some(Some(cmd)), StringStyleResponse);
    CStrOfNulFree(cmd);
    assert MotorDriveOrderAsWritten(Some(cmd)) == Write(cmd + [Nul]);
  }

  /** An unknown method name answers 404 and writes nothing; `SendOrderToLeafDevice` with an
      empty payload answers 400 and writes nothing; any other payload of it is written to the
      UART verbatim, without a terminator. As written and as intended alike. */
  lemma OtherMethodsOutcome(parse: Parser, writeResult: int, methodName: string, payload: string)
    requires CStr(methodName) != MotorDriveMethod
    ensures var o := DirectMethodCallback(parse, writeResult, methodName, payload);
            var w := DirectMethodCallbackAsWritten(parse, writeResult, methodName, payload);
            && o.uart == w.uart
            && (!(CStr(methodName) == LeafOrderMethod && CStr(payload) != []) ==>
                  o.result.status == w.result.status && o.responseText == w.responseText)
    ensures var o := DirectMethodCallback(parse, writeResult, methodName, payload);
            && (CStr(methodName) != LeafOrderMethod ==> o.result.status == StatusNotFound && o.uart == NoWrite)
            && (CStr(methodName) == LeafOrderMethod && CStr(payload) == [] ==>
                  o.result.status == StatusBadRequest && o.uart == NoWrite)
            && (CStr(methodName) == LeafOrderMethod && CStr(payload) != [] ==> o.uart == Write(CStr(payload)))
  {
  }

  /** The leaf path as written: whatever `write` returns, the status is 404 (the 500 or 200
      goes to the local `response`), and a failed `write` (-1) is reported as "Succeeded",
      since `order_result` is unsigned. */
  lemma LeafStatusAsWritten(parse: Parser, writeResult: int, methodName: string, payload: string)
    requires CStr(methodName) == LeafOrderMethod && CStr(payload) != []
    ensures DirectMethodCallbackAsWritten(parse, writeResult, methodName, payload).result.status == StatusNotFound
    ensures DirectMethodCallbackAsWritten(parse, -1, methodName, payload).responseText == LeafSucceededResponse
  {
    assert SizeT(-1) == 0xFFFF_FFFF;
  }

  /** The leaf path as intended: 200 exactly when `write` reports bytes written, 500 otherwise,
      with the matching response literal. */
  lemma IntendedLeafStatus(parse: Parser, writeResult: int, methodName: string, payload: string)
    requires CStr(methodName) == LeafOrderMethod && CStr(payload) != []
    ensures var o := DirectMethodCallback(parse, writeResult, methodName, payload);
            && (o.result.status == StatusOk <==> writeResult > 0)
            && (o.result.status == StatusServerError <==> writeResult <= 0)
            && (o.responseText == LeafSucceededResponse <==> writeResult > 0)
  {
  }

  /** As written, the SDK wrapper hands back an empty response whatever the method: the
      callback never stores its response. */
  lemma ResponseNeverDeliveredAsWritten(parse: Parser, writeResult: int, methodName: string, payload: seq<char>)
    ensures var app := (name: string, text: string) => DirectMethodCallbackAsWritten(parse, writeResult, name, text).result;
            IoTHub.DeviceMethodCallback(methodName, payload, app).body == []
  {
  }

  /** As intended, the SDK receives the status the callback chose and the chosen response
      literal followed by its terminator. */
  lemma IntendedResponseDelivered(parse: Parser, writeResult: int, methodName: string, payload: seq<char>)
    ensures var app := (name: string, text: string) => DirectMethodCallback(parse, writeResult, name, text).result;
            var o := DirectMethodCallback(parse, writeResult, methodName, CStr(payload));
            var r := IoTHub.DeviceMethodCallback(methodName, payload, app);
            && r.status == o.result.status
            && r.body == ResponseBytes(o.responseText)
            && IsResponseLiteral(o.responseText)
  {
  }

  /** As written, an object payload without a string `command` reaches `strlen(NULL)`; the
      intended dispatcher writes nothing for it. */
  lemma NullCommandAsWritten(parse: Parser, writeResult: int, methodName: string, payload: string)
    requires CStr(methodName) == MotorDriveMethod && parse(CStr(payload)) == Some(JObject(map[]))
    ensures DirectMethodCallbackAsWritten(parse, writeResult, methodName, payload).uart == NullCommandStrlen
    ensures DirectMethodCallback(parse, writeResult, methodName, payload).uart == NoWrite
  {
  }
}
