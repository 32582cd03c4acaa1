/**
  The web application's `DeviceRegistriesController`: the motor-drive encoder that turns a
  button's method name into a command string and a `{"command":"…"}` payload, the actions
  that invoke a direct method and store its result on the listed registry entry, and the
  GET/POST actions whose early branches never touch the registry.

  The IoT Hub service call `db.Invoke` is the `Invoker` input; the registry list is the
  static list `AzureIoTHubContext.ToList` filled, held here as a sequence of entries.
*/
module RemoteController {
  import opened Wrappers

  /** `speed` in `invokeMotorDrive`. */
  const Speed: string := "150"
  const MotorDriveMethodName: string := "MotorDrive"
  const TriggerAlarmMethodName: string := "TriggerAlarm"
  const AlarmPayload: string := "{\"msg\":\"hello\"}"
  const PayloadPrefix: string := "{\"command\":\""
  const PayloadSuffix: string := "\"}"

  /** The motor codes a button can send: the front and rear wheels forward (sent with the
      speed) and the two backward codes (sent without). */
  predicate IsForwardCode(code: string) {
    code == "LF" || code == "RF" || code == "LR" || code == "RR"
  }

  predicate IsBackwardCode(code: string) {
    code == "LB" || code == "RB"
  }

  /** The order for one wheel code: forward codes carry the speed, backward codes none. */
  function WheelOrder(code: string): string {
    if IsForwardCode(code) then code + Speed else code
  }

  /** The button names `invokeMotorDrive` knows, and the wheel codes each stands for. */
  function ButtonCodes(name: string): Option<seq<string>> {
    if name == "LF" || name == "RF" || name == "LR" || name == "RR" || name == "LB" || name == "RB" then Some([name])
    else if name == "LFRF" then Some(["LF", "RF"])
    else if name == "LRRR" then Some(["LR", "RR"])
    else if name == "LBRB" then Some(["LB", "RB"])
    else None
  }

  /** Orders joined with `;`. */
  function JoinOrders(orders: seq<string>): string {
    if orders == [] then ""
    else if |orders| == 1 then orders[0]
    else orders[0] + ";" + JoinOrders(orders[1..])
  }

  /** The `switch` of `invokeMotorDrive` (`MethodName` may be null, which no case matches). */
  function MotorCommand(methodName: Option<string>): string {
    match methodName
    case None => ""
    case Some(name) =>
      if name == "LF" then "LF" + Speed
      else if name == "LFRF" then "LF" + Speed + ";" + "RF" + Speed
      else if name == "RF" then "RF" + Speed
      else if name == "LB" then "LB"
      else if name == "LBRB" then "LB;RB"
      else if name == "RB" then "RB"
      else if name == "LR" then "LR" + Speed
      else if name == "LRRR" then "LR" + Speed + ";" + "RR" + Speed
      else if name == "RR" then "RR" + Speed
      else ""
  }

  /** The table agrees with its reading as wheel orders: each known button sends the orders of
      its wheel codes joined with `;`, forward codes with the speed, backward codes without;
      every other name (and null) sends the empty command. */
  lemma MotorCommandIsJoinedWheelOrders(methodName: Option<string>)
    ensures match methodName
            case None => MotorCommand(methodName) == ""
            case Some(name) =>
              match ButtonCodes(name)
              case None => MotorCommand(methodName) == ""
              case Some(codes) => MotorCommand(methodName) == JoinOrders(seq(|codes|, i requires 0 <= i < |codes| => WheelOrder(codes[i])))
  {
    if methodName.Some? && ButtonCodes(methodName.value).Some? {
      var codes := ButtonCodes(methodName.value).value;
      var orders := seq(|codes|, i requires 0 <= i < |codes| => WheelOrder(codes[i]));
      if |codes| == 2 {
        assert orders == [WheelOrder(codes[0]), WheelOrder(codes[1])];
        assert orders[1..] == [WheelOrder(codes[1])];
      } else {
        assert orders == [WheelOrder(codes[0])];
      }
    }
  }

  /** The characters a command is made of: upper-case letters, digits and `;`. */
  predicate IsCommandChar(c: char) {
    'A' <= c <= 'Z' || '0' <= c <= '9' || c == ';'
  }

  predicate IsCommandText(s: string) {
    forall i :: 0 <= i < |s| ==> IsCommandChar(s[i])
  }

  lemma {:induction false} JoinOrdersIsCommandText(orders: seq<string>)
    requires forall i :: 0 <= i < |orders| ==> IsCommandText(orders[i])
    ensures IsCommandText(JoinOrders(orders))
    decreases |orders|
  {
    if |orders| > 1 {
      JoinOrdersIsCommandText(orders[1..]);
      var rest := JoinOrders(orders[1..]);
      assert JoinOrders(orders) == orders[0] + ";" + rest;
      forall i | 0 <= i < |JoinOrders(orders)|
        ensures IsCommandChar(JoinOrders(orders)[i])
      {
        if i < |orders[0]| {
          assert JoinOrders(orders)[i] == orders[0][i];
        } else if i > |orders[0]| {
          assert JoinOrders(orders)[i] == rest[i - |orders[0]| - 1];
        }
      }
    }
  }

  /** Every command is made of letters, digits and `;` only, so it needs no escaping inside a
      JSON string. */
  lemma MotorCommandIsCommandText(methodName: Option<string>)
    ensures IsCommandText(MotorCommand(methodName))
  {
    MotorCommandIsJoinedWheelOrders(methodName);
    if methodName.Some? && ButtonCodes(methodName.value).Some? {
      var codes := ButtonCodes(methodName.value).value;
      var orders := seq(|codes|, i requires 0 <= i < |codes| => WheelOrder(codes[i]));
      forall i | 0 <= i < |orders|
        ensures IsCommandText(orders[i])
      {
        var code := codes[i];
        assert IsForwardCode(code) || IsBackwardCode(code);
        assert |code| == 2 && IsCommandChar(code[0]) && IsCommandChar(code[1]);
        if IsForwardCode(code) {
          assert orders[i] == code + Speed;
          assert IsCommandText(Speed);
        }
      }
      JoinOrdersIsCommandText(orders);
    }
  }

  /** `order` in `invokeMotorDrive`. */
  function CommandPayload(cmd: string): (p: string)
    ensures |p| == |PayloadPrefix| + |cmd| + |PayloadSuffix|
  {
    PayloadPrefix + cmd + PayloadSuffix
  }

  /** Reading a payload back: the text between `{"command":"` and `"}`, provided it holds no
      quote or backslash (which would need escaping). */
  function ParseCommandPayload(p: string): (r: Option<string>)
    ensures r.Some? ==> CommandPayload(r.value) == p
  {
    if |p| >= |PayloadPrefix| + |PayloadSuffix| && p[..|PayloadPrefix|] == PayloadPrefix
       && p[|p| - |PayloadSuffix|..] == PayloadSuffix
       && (forall i :: |PayloadPrefix| <= i < |p| - |PayloadSuffix| ==> p[i] != '"' && p[i] != '\\')
    then Some(p[|PayloadPrefix|..|p| - |PayloadSuffix|])
    else None
  }

  /** Every command reads back from the payload it is sent in; in particular two buttons
      that send different commands send different payloads. */
  lemma CommandPayloadRoundTrip(cmd: string)
    requires IsCommandText(cmd)
    ensures ParseCommandPayload(CommandPayload(cmd)) == Some(cmd)
  {
    var p := CommandPayload(cmd);
    assert p[..|PayloadPrefix|] == PayloadPrefix;
    assert p[|p| - |PayloadSuffix|..] == PayloadSuffix;
    assert p[|PayloadPrefix|..|p| - |PayloadSuffix|] == cmd;
    forall i | |PayloadPrefix| <= i < |p| - |PayloadSuffix|
      ensures p[i] != '"' && p[i] != '\\'
    {
      assert p[i] == cmd[i - |PayloadPrefix|];
    }
  }

  /** What a controller action answers. */
  datatype ActionResult =
    | BadRequest
    | ShowEntry(index: nat)
    | ShowPosted
    | ShowCreateForm
    | RedirectToIndex
    | RedirectToDetails(id: int)
    /** An exception the action does not catch: `List<T>`'s indexer rejects an id outside
        the list. */
    | Unhandled

  /** `db.Invoke(item)`: the device id, method name and payload to the text the service call
      reports. */
  type Invoker = (string, Option<string>, Option<string>) -> string

  /** A `DeviceRegistry` model object, as bound from a form or held in the static list. */
  class DeviceRegistry {
    var Id: int
    var DeviceId: string
    var MethodName: Option<string>
    var MethodPayload: Option<string>

    constructor (id: int, deviceId: string, methodName: Option<string>, methodPayload: Option<string>)
      ensures Id == id && DeviceId == deviceId && MethodName == methodName && MethodPayload == methodPayload
    {
      Id, DeviceId, MethodName, MethodPayload := id, deviceId, methodName, methodPayload;
    }
  }

  class DeviceRegistriesController {
    /** `deviceRegistries` as the last listing left it; `Find(id)` is the entry at position `id`. */
    var registries: seq<DeviceRegistry>

    ghost predicate Valid()
      reads this, registries
    {
      forall i, j :: 0 <= i < j < |registries| ==> registries[i] != registries[j]
    }

    constructor (entries: seq<DeviceRegistry>)
      ensures registries == entries
    {
      registries := entries;
    }

    /** `Details(id)`, `Edit(id)` and `Delete(id)` (GET): a missing id is a bad request and
        looks nothing up; otherwise `db.Find(id.Value)` indexes the list, which throws for an
        id outside it. (`Find` never returns null, so their `HttpNotFound` branch is never
        taken.) */
    function ShowById(id: Option<int>): (r: ActionResult)
      reads this
      ensures r == BadRequest <==> id.None?
      ensures r.ShowEntry? <==> id.Some? && 0 <= id.value < |registries|
      ensures r.ShowEntry? ==> r.index == id.value
      ensures r == BadRequest || r.ShowEntry? || r == Unhandled
    {
      match id
      case None => BadRequest
      case Some(i) => if 0 <= i < |registries| then ShowEntry(i) else Unhandled
    }

    /** `Create()` (GET) shows the empty form; `Create(deviceRegistry)` (POST) redirects to the
        list when the bound model is valid and shows it again otherwise. Neither changes any
        registry data: the method may modify nothing. */
    method Create(posted: Option<bool>) returns (r: ActionResult)
      ensures posted == None ==> r == ShowCreateForm
      ensures posted == Some(true) ==> r == RedirectToIndex
      ensures posted == Some(false) ==> r == ShowPosted
    {
      match posted {
        case None => r := ShowCreateForm;
        case Some(modelStateValid) => r := if modelStateValid then RedirectToIndex else ShowPosted;
      }
    }

    /** `DeleteConfirmed(id)`: the removal is commented out, so it only redirects. */
    method DeleteConfirmed(id: int) returns (r: ActionResult)
      ensures r == RedirectToIndex
    {
      r := RedirectToIndex;
    }

    /** `listedDR.MethodPayload = result` on the entry `db.Find(id)` returns. */
    method StoreResult(id: int, result: string) returns (r: ActionResult)
      requires Valid()
      modifies registries
      ensures r == if 0 <= id < |registries| then RedirectToDetails(id) else Unhandled
      ensures 0 <= id < |registries| ==> registries[id].MethodPayload == Some(result)
      ensures forall j :: 0 <= j < |registries| && j != id ==> registries[j].MethodPayload == old(registries[j].MethodPayload)
      ensures forall j :: 0 <= j < |registries| ==>
                registries[j].Id == old(registries[j].Id) && registries[j].DeviceId == old(registries[j].DeviceId)
                && registries[j].MethodName == old(registries[j].MethodName)
    {
      if 0 <= id < |registries| {
        var listed := registries[id];
        listed.MethodPayload := Some(result);
        r := RedirectToDetails(id);
      } else {
        r := Unhandled;
      }
    }

    /** `invokeMotorDrive(deviceRegistry)`: the command for the button, the payload, the
        method name overwritten with "MotorDrive", and the service call. */
    method InvokeMotorDrive(dr: DeviceRegistry, invoke: Invoker) returns (result: string)
      modifies dr
      ensures dr.MethodName == Some(MotorDriveMethodName)
      ensures dr.MethodPayload == Some(CommandPayload(MotorCommand(old(dr.MethodName))))
      ensures dr.Id == old(dr.Id) && dr.DeviceId == old(dr.DeviceId)
      ensures result == invoke(dr.DeviceId, dr.MethodName, dr.MethodPayload)
    {
      var cmd := MotorCommand(dr.MethodName);
      var order := CommandPayload(cmd);
      dr.MethodName := Some(MotorDriveMethodName);
      dr.MethodPayload := Some(order);
      result := invoke(dr.DeviceId, dr.MethodName, dr.MethodPayload);
    }

    /** `MotorDrive(deviceRegistry)` (POST). The bound object is not a listed entry. */
    method MotorDrive(posted: DeviceRegistry, invoke: Invoker) returns (r: ActionResult)
      requires Valid() && posted !in registries
      modifies posted, registries
      ensures posted.MethodName == Some(MotorDriveMethodName)
      ensures posted.MethodPayload == Some(CommandPayload(MotorCommand(old(posted.MethodName))))
      ensures posted.Id == old(posted.Id) && posted.DeviceId == old(posted.DeviceId)
      ensures r == if 0 <= posted.Id < |registries| then RedirectToDetails(posted.Id) else Unhandled
      ensures 0 <= posted.Id < |registries| ==>
                registries[posted.Id].MethodPayload == Some(invoke(posted.DeviceId, posted.MethodName, posted.MethodPayload))
      ensures forall j :: 0 <= j < |registries| && j != posted.Id ==> registries[j].MethodPayload == old(registries[j].MethodPayload)
      ensures forall j :: 0 <= j < |registries| ==>
                registries[j].Id == old(registries[j].Id) && registries[j].DeviceId == old(registries[j].DeviceId)
                && registries[j].MethodName == old(registries[j].MethodName)
    {
      var invocationResult := InvokeMotorDrive(posted, invoke);
      r := StoreResult(posted.Id, invocationResult);
    }

    /** `TriggerAlarm(deviceRegistry)` (POST): method "TriggerAlarm" with `{"msg":"hello"}`. */
    method TriggerAlarm(posted: DeviceRegistry, invoke: Invoker) returns (r: ActionResult)
      requires Valid() && posted !in registries
      modifies posted, registries
      ensures posted.MethodName == Some(TriggerAlarmMethodName) && posted.MethodPayload == Some(AlarmPayload)
      ensures posted.Id == old(posted.Id) && posted.DeviceId == old(posted.DeviceId)
      ensures r == if 0 <= posted.Id < |registries| then RedirectToDetails(posted.Id) else Unhandled
      ensures 0 <= posted.Id < |registries| ==>
                registries[posted.Id].MethodPayload == Some(invoke(posted.DeviceId, Some(TriggerAlarmMethodName), Some(AlarmPayload)))
      ensures forall j :: 0 <= j < |registries| && j != posted.Id ==> registries[j].MethodPayload == old(registries[j].MethodPayload)
      ensures forall j :: 0 <= j < |registries| ==>
                registries[j].Id == old(registries[j].Id) && registries[j].DeviceId == old(registries[j].DeviceId)
                && registries[j].MethodName == old(registries[j].MethodName)
    {
      posted.MethodName := Some(TriggerAlarmMethodName);
      posted.MethodPayload := Some(AlarmPayload);
      var result := invoke(posted.DeviceId, posted.MethodName, posted.MethodPayload);
      r := StoreResult(posted.Id, result);
    }

    /** `Invoke(deviceRegistry)` (POST): the posted method name and payload as they are. */
    method Invoke(posted: DeviceRegistry, invoke: Invoker) returns (r: ActionResult)
      requires Valid() && posted !in registries
      modifies registries
      ensures unchanged(posted)
      ensures r == if 0 <= posted.Id < |registries| then RedirectToDetails(posted.Id) else Unhandled
      ensures 0 <= posted.Id < |registries| ==>
                registries[posted.Id].MethodPayload == Some(invoke(posted.DeviceId, posted.MethodName, posted.MethodPayload))
      ensures forall j :: 0 <= j < |registries| && j != posted.Id ==> registries[j].MethodPayload == old(registries[j].MethodPayload)
      ensures forall j :: 0 <= j < |registries| ==>
                registries[j].Id == old(registries[j].Id) && registries[j].DeviceId == old(registries[j].DeviceId)
                && registries[j].MethodName == old(registries[j].MethodName)
    {
      var result := invoke(posted.DeviceId, posted.MethodName, posted.MethodPayload);
      r := StoreResult(posted.Id, result);
    }
  }
}
