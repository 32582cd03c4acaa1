/**
  From the web button to the leaf device's UART: the command `invokeMotorDrive` encodes for a
  button reaches the device's `MotorDrive` direct method, which writes it, terminated, to the
  UART. The IoT Hub service and the device SDK carry the method name and payload text
  unchanged; the JSON parser is an input, required to read a command payload as the object
  holding that command.
*/
module EndToEnd {
  import opened Wrappers
  import opened CString
  import opened JsonValue
  import RemoteController
  import IoTHub
  import DirectMethod

  /** What the end-to-end lemmas require of the JSON parser: any text that reads back as a
      command payload (`ParseCommandPayload`) around a command text is parsed as the object
      whose only member `command` is that command. */
  ghost predicate ReadsCommandPayloads(parse: Parser) {
    forall p :: RemoteController.ParseCommandPayload(p).Some? &&
                RemoteController.IsCommandText(RemoteController.ParseCommandPayload(p).value) ==>
                  parse(p) == Some(JObject(map[DirectMethod.CommandKey := JString(RemoteController.ParseCommandPayload(p).value)]))
  }

  /** Such a parser reads the payload the web app builds for a command as that command's
      object: no escaping is needed, since the payload reads back as the command. */
  lemma ParserReadsCommandPayload(parse: Parser, cmd: string)
    requires ReadsCommandPayloads(parse) && RemoteController.IsCommandText(cmd)
    ensures parse(RemoteController.CommandPayload(cmd)) == Some(JObject(map[DirectMethod.CommandKey := JString(cmd)]))
  {
    RemoteController.CommandPayloadRoundTrip(cmd);
  }

  /** A command payload holds no NUL, so the device sees all of it. */
  lemma CommandPayloadIsNulFree(cmd: string)
    requires RemoteController.IsCommandText(cmd)
    ensures Nul !in RemoteController.CommandPayload(cmd)
  {
    var p := RemoteController.CommandPayload(cmd);
    var n := |RemoteController.PayloadPrefix|;
    forall i | 0 <= i < |p|
      ensures p[i] != Nul
    {
      if i < n {
        assert p[i] == RemoteController.PayloadPrefix[i];
      } else if i < n + |cmd| {
        assert p[i] == cmd[i - n];
        assert RemoteController.IsCommandChar(cmd[i - n]);
      } else {
        assert p[i] == RemoteController.PayloadSuffix[i - n - |cmd|];
      }
    }
  }

  /** The command text the device's parser is handed is the payload the web app built. */
  lemma DeviceSeesCommandPayload(cmd: string)
    requires RemoteController.IsCommandText(cmd)
    ensures CStr(CStr(IoTHub.PayloadCopy(RemoteController.CommandPayload(cmd)))) == RemoteController.CommandPayload(cmd)
  {
    var p := RemoteController.CommandPayload(cmd);
    CommandPayloadIsNulFree(cmd);
    CStrOfNulFree(p);
    IoTHub.PayloadCopyReadsPayload(p);
    CStrOfNulFree(CStr(IoTHub.PayloadCopy(p)));
  }

  /** The characters of a command text are letters, digits and `;`, none of them NUL. */
  lemma CommandTextIsNulFree(cmd: string)
    requires RemoteController.IsCommandText(cmd)
    ensures Nul !in cmd
  {
  }

  /** A command sent as method "MotorDrive" in its payload: the device answers 200 with its
      JSON-style acknowledgement and writes exactly that command and a NUL to the leaf device,
      both as intended and as written. */
  lemma CommandReachesUart(parse: Parser, writeResult: int, cmd: string)
    requires RemoteController.IsCommandText(cmd) && ReadsCommandPayloads(parse)
    ensures var text := CStr(IoTHub.PayloadCopy(RemoteController.CommandPayload(cmd)));
            var o := DirectMethod.DirectMethodCallback(parse, writeResult, RemoteController.MotorDriveMethodName, text);
            var w := DirectMethod.DirectMethodCallbackAsWritten(parse, writeResult, RemoteController.MotorDriveMethodName, text);
            && o.result.status == DirectMethod.StatusOk
            && o.responseText == DirectMethod.JsonStyleResponse
            && o.uart == DirectMethod.Write(cmd + [Nul])
            && w.result.status == DirectMethod.StatusOk
            && w.uart == DirectMethod.Write(cmd + [Nul])
  {
    var members := map[DirectMethod.CommandKey := JString(cmd)];
    var text := CStr(IoTHub.PayloadCopy(RemoteController.CommandPayload(cmd)));
    ParserReadsCommandPayload(parse, cmd);
    DeviceSeesCommandPayload(cmd);
    CommandTextIsNulFree(cmd);
    CStrOfNulFree(RemoteController.MotorDriveMethodName);
    DirectMethod.JsonCommandOutcome(parse, writeResult, RemoteController.MotorDriveMethodName, text, members, cmd);
  }

  /** Pressing a button: the web app sends method "MotorDrive" with the payload for the
      button's command, and the device writes exactly that command and a NUL to the leaf
      device, as intended and as written; the UART therefore carries the button's wheel
      orders joined with `;`. */
  lemma ButtonCommandReachesUart(parse: Parser, writeResult: int, button: Option<string>)
    requires ReadsCommandPayloads(parse)
    ensures var cmd := RemoteController.MotorCommand(button);
            var text := CStr(IoTHub.PayloadCopy(RemoteController.CommandPayload(cmd)));
            var o := DirectMethod.DirectMethodCallback(parse, writeResult, RemoteController.MotorDriveMethodName, text);
            var w := DirectMethod.DirectMethodCallbackAsWritten(parse, writeResult, RemoteController.MotorDriveMethodName, text);
            && o.result.status == DirectMethod.StatusOk
            && o.responseText == DirectMethod.JsonStyleResponse
            && o.uart == DirectMethod.Write(cmd + [Nul])
            && w.uart == DirectMethod.Write(cmd + [Nul])
            && CStr(o.uart.bytes) == cmd
  {
    var cmd := RemoteController.MotorCommand(button);
    RemoteController.MotorCommandIsCommandText(button);
    CommandReachesUart(parse, writeResult, cmd);
    CommandTextIsNulFree(cmd);
    CStrTerminated(cmd, []);
    assert cmd + [Nul] + [] == cmd + [Nul];
  }

  /** What the device answers the SDK for that call: the 200 status and, as intended, the
      acknowledgement and its terminator; as written, an empty body. How that answer travels
      back to the web app and what the entry then stores is not modelled. */
  lemma ButtonAnswer(parse: Parser, writeResult: int, button: Option<string>)
    requires ReadsCommandPayloads(parse)
    ensures var payload := RemoteController.CommandPayload(RemoteController.MotorCommand(button));
            var app := (name: string, text: string) => DirectMethod.DirectMethodCallback(parse, writeResult, name, text).result;
            var asWritten := (name: string, text: string) => DirectMethod.DirectMethodCallbackAsWritten(parse, writeResult, name, text).result;
            var r := IoTHub.DeviceMethodCallback(RemoteController.MotorDriveMethodName, payload, app);
            var rw := IoTHub.DeviceMethodCallback(RemoteController.MotorDriveMethodName, payload, asWritten);
            && r == IoTHub.MethodResponse(DirectMethod.StatusOk, DirectMethod.ResponseBytes(DirectMethod.JsonStyleResponse))
            && rw == IoTHub.MethodResponse(DirectMethod.StatusOk, [])
  {
    var cmd := RemoteController.MotorCommand(button);
    ButtonCommandReachesUart(parse, writeResult, button);
    IoTHub.PayloadCopyReadsPayload(RemoteController.CommandPayload(cmd));
  }
}
