/**
  The IoT Hub session of azureiothub.c: provisioning and client set-up, the connection-status
  callback, the one-second timer, telemetry sending, and the twin and direct-method callbacks
  that sit between the SDK and the application.

  Every call into the Azure IoT / Azure Sphere SDK, GPIO or the network is an input here: its
  outcome is a parameter of the operation that makes the call.
*/
module IoTHub {
  import opened Wrappers
  import opened CString
  import opened JsonValue

  /** AZURE_SPHERE_PROV_RETURN_VALUE.result. */
  datatype ProvResult =
    | ProvOk
    | ProvInvalidParam
    | ProvNetworkNotReady
    | ProvDeviceAuthNotReady
    | ProvDeviceError
    | ProvGenericError
    | ProvUnknown(code: int)

  const UnknownReturnValue: string := "UNKNOWN_RETURN_VALUE"

  /** `GetAzureSphereProvisioningResultString`. */
  function ProvisioningResultString(r: ProvResult): string {
    match r
    case ProvOk => "AZURE_SPHERE_PROV_RESULT_OK"
    case ProvInvalidParam => "AZURE_SPHERE_PROV_RESULT_INVALID_PARAM"
    case ProvNetworkNotReady => "AZURE_SPHERE_PROV_RESULT_NETWORK_NOT_READY"
    case ProvDeviceAuthNotReady => "AZURE_SPHERE_PROV_RESULT_DEVICEAUTH_NOT_READY"
    case ProvDeviceError => "AZURE_SPHERE_PROV_RESULT_PROV_DEVICE_ERROR"
    case ProvGenericError => "AZURE_SPHERE_PROV_RESULT_GENERIC_ERROR"
    case ProvUnknown(_) => UnknownReturnValue
  }

  /** Reading a logged name back: the named result it stands for, if any. */
  function NamedProvisioningResult(name: string): Option<ProvResult> {
    if name == "AZURE_SPHERE_PROV_RESULT_OK" then Some(ProvOk)
    else if name == "AZURE_SPHERE_PROV_RESULT_INVALID_PARAM" then Some(ProvInvalidParam)
    else if name == "AZURE_SPHERE_PROV_RESULT_NETWORK_NOT_READY" then Some(ProvNetworkNotReady)
    else if name == "AZURE_SPHERE_PROV_RESULT_DEVICEAUTH_NOT_READY" then Some(ProvDeviceAuthNotReady)
    else if name == "AZURE_SPHERE_PROV_RESULT_PROV_DEVICE_ERROR" then Some(ProvDeviceError)
    else if name == "AZURE_SPHERE_PROV_RESULT_GENERIC_ERROR" then Some(ProvGenericError)
    else None
  }

  /** Every named result logs a name of its own, and every other value logs
      "UNKNOWN_RETURN_VALUE", which names none of them. */
  lemma ProvisioningResultStringRoundTrip(r: ProvResult)
    ensures NamedProvisioningResult(ProvisioningResultString(r)) == if r.ProvUnknown? then None else Some(r)
    ensures r.ProvUnknown? <==> ProvisioningResultString(r) == UnknownReturnValue
  {
  }

  /** IOTHUB_CLIENT_CONNECTION_STATUS. */
  datatype ConnectionStatus = ConnectionAuthenticated | ConnectionUnauthenticated

  /** IOTHUB_CLIENT_CONNECTION_STATUS_REASON. */
  datatype ConnectionReason =
    | ReasonExpiredSasToken
    | ReasonDeviceDisabled
    | ReasonBadCredential
    | ReasonRetryExpired
    | ReasonNoNetwork
    | ReasonCommunicationError
    | ReasonOk
    | ReasonNoPingResponse

  /** What the SDK answers during one `AzureIoTHub_SetupAzureClient`: the provisioning result,
      whether setting the keep-alive option succeeded, and whether the periodic timer could
      be created. */
  datatype SetupOutcome = SetupOutcome(prov: ProvResult, keepAliveOk: bool, timerOk: bool)

  /** `waitForSending`: every `waitForSending`-th created message is submitted. */
  const WaitForSending: int := 1
  /** `AzureIoTDefaultPollPeriodSeconds`. */
  const DefaultPollPeriodSeconds: int := 1

  /** The status LEDs this module drives, as levels (true is `GPIO_Value_High`); for the retry
      LED every level written is kept, in order. */
  datatype Leds = Leds(dps: bool, iotHub: bool, network: bool, sending: bool, retryWrites: seq<bool>)

  /** The module's globals: `scopeId` (NULL is `None`), `iothubAuthenticated`, whether the
      four SDK callbacks were ever registered (on some client handle; the handle itself is not
      modelled, so a later set-up whose keep-alive fails leaves this set although its new
      handle has none), whether `eventLoop` is set, `azureIoTPollPeriodSeconds`,
      how often a periodic timer was requested and how many were created, how often the
      client was set up (each time a provisioning call) and `DoWork` ran, `loopIndex`, the
      messages handed to `SendEventAsync`, and the LEDs. */
  datatype HubState = HubState(
    scopeId: Option<string>,
    authenticated: bool,
    callbacksEverRegistered: bool,
    eventLoopSet: bool,
    pollPeriod: int,
    timerRequests: nat,
    timersCreated: nat,
    setupCalls: nat,
    doWorkCalls: nat,
    loopIndex: int,
    submitted: seq<string>,
    leds: Leds)

  /** What the module keeps true: at most one periodic timer exists, and only once the event
      loop is set; the poll period is only set with a timer request; every created message
      was submitted (`waitForSending` is 1); callbacks are only registered by a set-up. */
  predicate HubInvariant(s: HubState) {
    && s.timersCreated <= 1
    && (s.timersCreated == 1 ==> s.eventLoopSet)
    && s.timersCreated <= s.timerRequests
    && (s.pollPeriod == -1 <==> s.timerRequests == 0)
    && (s.pollPeriod == -1 || s.pollPeriod == DefaultPollPeriodSeconds)
    && s.loopIndex == |s.submitted|
    && (s.callbacksEverRegistered ==> s.setupCalls > 0)
  }

  /** The state before anything ran. */
  function InitialHub(leds: Leds): (s: HubState)
    ensures HubInvariant(s) && !s.authenticated && s.scopeId == None && s.timersCreated == 0
  {
    HubState(None, false, false, false, -1, 0, 0, 0, 0, 0, [], leds)
  }

  /** The first half of a set-up: the scope id is stored, provisioning is attempted and the DPS
      LED set; on success the IoT Hub LED is set and the session is authenticated. */
  function Provisioned(s: HubState, scopeIdReq: Option<string>, prov: ProvResult): (r: HubState)
  {
    if prov == ProvOk then
      s.(scopeId := scopeIdReq, setupCalls := s.setupCalls + 1, leds := s.leds.(dps := true, iotHub := true), authenticated := true)
    else
      s.(scopeId := scopeIdReq, setupCalls := s.setupCalls + 1, leds := s.leds.(dps := true))
  }

  /** The first set-up to get this far records the event loop, sets the poll period and asks for
      the periodic timer, which a NULL event loop cannot have. */
  function TimerStarted(s: HubState, appEventLoop: bool, timerOk: bool): (r: HubState)
  {
    if s.eventLoopSet then s
    else
      s.(eventLoopSet := appEventLoop, pollPeriod := DefaultPollPeriodSeconds,
         timerRequests := s.timerRequests + 1,
         timersCreated := s.timersCreated + if appEventLoop && timerOk then 1 else 0)
  }

  /** `AzureIoTHub_SetupAzureClient(scopeIdReq, appEventLoop, ...)`, where `appEventLoop`
      says whether the loop passed in is non-NULL. */
  function Setup(s: HubState, scopeIdReq: Option<string>, appEventLoop: bool, o: SetupOutcome): (r: HubState)
    requires HubInvariant(s)
    ensures HubInvariant(r)
    ensures r.submitted == s.submitted && r.loopIndex == s.loopIndex
  {
    var p := Provisioned(s, scopeIdReq, o.prov);
    if o.prov != ProvOk || !o.keepAliveOk then p
    else TimerStarted(p.(callbacksEverRegistered := true), appEventLoop, o.timerOk)
  }

  /** `ConnectionStatusCallback(result, reason, ...)`. */
  function ConnectionStatusChanged(s: HubState, result: ConnectionStatus, reason: ConnectionReason): (r: HubState)
    requires HubInvariant(s)
    ensures HubInvariant(r)
    ensures r.submitted == s.submitted && r.loopIndex == s.loopIndex
  {
    var noted := if reason != ReasonOk then s.(leds := s.leds.(dps := false)) else s;
    if result == ConnectionUnauthenticated then noted.(authenticated := false, leds := noted.leds.(iotHub := false))
    else noted
  }

  /** `AzureIoTHub_CheckNetworkStatus` once it returns: the network LED is high. */
  function NetworkChecked(s: HubState): (r: HubState)
    requires HubInvariant(s)
    ensures HubInvariant(r)
  {
    s.(leds := s.leds.(network := true))
  }

  /** `IoTHubDeviceClient_LL_DoWork` runs only for an authenticated session. */
  function Worked(s: HubState): (r: HubState)
    requires HubInvariant(s)
    ensures HubInvariant(r)
  {
    if s.authenticated then s.(doWorkCalls := s.doWorkCalls + 1) else s
  }

  /** `AzureTimerEventHandler`: `consumeOk` is `ConsumeEventLoopTimerEvent` succeeding,
      `networkReady` the network probe's answer, `o` the SDK's answers if a set-up runs. */
  function TimerTick(s: HubState, consumeOk: bool, networkReady: bool, o: SetupOutcome): (r: HubState)
    requires HubInvariant(s)
    ensures HubInvariant(r)
    ensures r.submitted == s.submitted && r.loopIndex == s.loopIndex
  {
    if !consumeOk then s
    else
      var ready := networkReady && s.scopeId.Some?;
      Worked(if ready && !s.authenticated then Setup(s, s.scopeId, s.eventLoopSet, o) else s)
  }

  /** A created message counts towards `loopIndex` and, every `waitForSending`-th time, is
      handed to `SendEventAsync`. */
  function Submitted(s: HubState, body: string, created: bool): (r: HubState)
    requires HubInvariant(s)
    ensures HubInvariant(r)
  {
    if !created then s
    else if s.loopIndex % WaitForSending == 0 then s.(loopIndex := s.loopIndex + 1, submitted := s.submitted + [body])
    else s.(loopIndex := s.loopIndex + 1)
  }

  /** The sending LED flips when its level could be read. */
  function SendingToggled(s: HubState, gpioReadOk: bool): (r: HubState)
    requires HubInvariant(s)
    ensures HubInvariant(r)
  {
    if gpioReadOk then s.(leds := s.leds.(sending := !s.leds.sending)) else s
  }

  /** A write of `level` to the retry LED. */
  function RetryLedWritten(s: HubState, level: bool): (r: HubState)
    requires HubInvariant(s)
    ensures HubInvariant(r)
  {
    s.(leds := s.leds.(retryWrites := s.leds.retryWrites + [level]))
  }

  /** `AzureIoTHub_SendMessage(body, ...)`: `created` is `IoTHubMessage_CreateFromString`
      returning a handle, `gpioReadOk` is `GPIO_GetValue` succeeding on the sending LED, `o`
      the SDK's answers if a set-up runs. */
  function SendMessage(s: HubState, body: string, created: bool, gpioReadOk: bool, o: SetupOutcome): (r: HubState)
    requires HubInvariant(s)
    ensures HubInvariant(r)
    ensures s.submitted <= r.submitted
  {
    if s.authenticated then SendingToggled(Submitted(s, body, created), gpioReadOk)
    else RetryLedWritten(Setup(NetworkChecked(RetryLedWritten(s, false)), s.scopeId, s.eventLoopSet, o), true)
  }

  /** Set-up authenticates exactly when provisioning succeeds; when it fails nothing but the
      stored scope id, the call count and the DPS LED changes, so no callback is registered. */
  lemma SetupAuthenticatesOnlyOnSuccess(s: HubState, scopeIdReq: Option<string>, appEventLoop: bool, o: SetupOutcome)
    requires HubInvariant(s)
    ensures var r := Setup(s, scopeIdReq, appEventLoop, o);
            && r.authenticated == (o.prov == ProvOk || s.authenticated)
            && (o.prov != ProvOk ==> r == s.(scopeId := scopeIdReq, setupCalls := s.setupCalls + 1, leds := s.leds.(dps := true)))
  {
  }

  /** After a successful provisioning, a failed keep-alive option leaves the session
      authenticated but registers no callback and requests no timer. */
  lemma KeepAliveFailureRegistersNothing(s: HubState, scopeIdReq: Option<string>, appEventLoop: bool, o: SetupOutcome)
    requires HubInvariant(s) && o.prov == ProvOk && !o.keepAliveOk
    ensures var r := Setup(s, scopeIdReq, appEventLoop, o);
            && r.authenticated && r.leds.iotHub
            && r.callbacksEverRegistered == s.callbacksEverRegistered
            && r.timerRequests == s.timerRequests && r.eventLoopSet == s.eventLoopSet
  {
  }

  /** Once the event loop is set, no set-up requests another timer. */
  lemma TimerRequestedOnlyBeforeEventLoop(s: HubState, scopeIdReq: Option<string>, appEventLoop: bool, o: SetupOutcome)
    requires HubInvariant(s) && s.eventLoopSet
    ensures Setup(s, scopeIdReq, appEventLoop, o).timerRequests == s.timerRequests
    ensures Setup(s, scopeIdReq, appEventLoop, o).timersCreated == s.timersCreated
  {
  }

  /** Only an "unauthenticated" status clears `iothubAuthenticated`; every other status keeps it. */
  lemma ConnectionStatusClearsOnlyOnUnauthenticated(s: HubState, result: ConnectionStatus, reason: ConnectionReason)
    requires HubInvariant(s)
    ensures var r := ConnectionStatusChanged(s, result, reason);
            && r.authenticated == (s.authenticated && result != ConnectionUnauthenticated)
            && r.setupCalls == s.setupCalls && r.submitted == s.submitted
  {
  }

  /** The timer sets the client up exactly when its event was consumed, the network is ready,
      a scope id is known and the session is unauthenticated; it runs `DoWork` exactly when
      the session is authenticated after that. */
  lemma TimerTickSetupAndWork(s: HubState, consumeOk: bool, networkReady: bool, o: SetupOutcome)
    requires HubInvariant(s)
    ensures var r := TimerTick(s, consumeOk, networkReady, o);
            var attempted := consumeOk && networkReady && s.scopeId.Some? && !s.authenticated;
            && r.setupCalls == s.setupCalls + (if attempted then 1 else 0)
            && (s.scopeId.None? ==> r.setupCalls == s.setupCalls)
            && r.doWorkCalls == s.doWorkCalls + (if consumeOk && r.authenticated then 1 else 0)
            && r.submitted == s.submitted
  {
  }

  /** Sending while authenticated: `loopIndex` counts the created messages, each of them is
      submitted, no set-up happens, and the sending LED flips whenever it could be read. */
  lemma SendWhileAuthenticated(s: HubState, body: string, created: bool, gpioReadOk: bool, o: SetupOutcome)
    requires HubInvariant(s) && s.authenticated
    ensures var r := SendMessage(s, body, created, gpioReadOk, o);
            && r.loopIndex == s.loopIndex + (if created then 1 else 0)
            && r.submitted == s.submitted + (if created then [body] else [])
            && r.leds.sending == (if gpioReadOk then !s.leds.sending else s.leds.sending)
            && r.setupCalls == s.setupCalls && r.authenticated
  {
  }

  /** Sending while unauthenticated submits nothing, sets the client up exactly once, and
      writes the retry LED low before and high after. */
  lemma SendWhileUnauthenticated(s: HubState, body: string, created: bool, gpioReadOk: bool, o: SetupOutcome)
    requires HubInvariant(s) && !s.authenticated
    ensures var r := SendMessage(s, body, created, gpioReadOk, o);
            && r.submitted == s.submitted && r.loopIndex == s.loopIndex
            && r.setupCalls == s.setupCalls + 1
            && r.leds.retryWrites == s.leds.retryWrites + [false, true]
            && r.authenticated == (o.prov == ProvOk)
  {
  }

  /** Everything that can happen to the session, one callback or call at a time. */
  datatype HubEvent =
    | SetupCall(scopeIdReq: Option<string>, appEventLoop: bool, o: SetupOutcome)
    | StatusChange(result: ConnectionStatus, reason: ConnectionReason)
    | Tick(consumeOk: bool, networkReady: bool, o: SetupOutcome)
    | Send(body: string, created: bool, gpioReadOk: bool, o: SetupOutcome)

  function Apply(s: HubState, e: HubEvent): (r: HubState)
    requires HubInvariant(s)
    ensures HubInvariant(r)
    ensures s.submitted <= r.submitted
  {
    match e
    case SetupCall(scope, loop, o) => Setup(s, scope, loop, o)
    case StatusChange(result, reason) => ConnectionStatusChanged(s, result, reason)
    case Tick(consumeOk, ready, o) => TimerTick(s, consumeOk, ready, o)
    case Send(body, created, gpioOk, o) => SendMessage(s, body, created, gpioOk, o)
  }

  function Replay(s: HubState, es: seq<HubEvent>): HubState
    requires HubInvariant(s)
    decreases |es|
  {
    if es == [] then s else Replay(Apply(s, es[0]), es[1..])
  }

  /** Whatever happens, in whatever order: at most one periodic timer is ever created, the
      messages submitted only grow, and each created message was submitted. */
  lemma {:induction false} ReplayKeepsInvariant(s: HubState, es: seq<HubEvent>)
    requires HubInvariant(s)
    ensures HubInvariant(Replay(s, es))
    ensures Replay(s, es).timersCreated <= 1
    ensures s.submitted <= Replay(s, es).submitted
    decreases |es|
  {
    if es != [] {
      ReplayKeepsInvariant(Apply(s, es[0]), es[1..]);
    }
  }

  /** The IoT Hub module's globals, updated in place by its entry points. */
  class IoTHubSession {
    var scopeId: Option<string>
    var iothubAuthenticated: bool
    var callbacksEverRegistered: bool
    var eventLoopSet: bool
    var azureIoTPollPeriodSeconds: int
    var timerRequests: nat
    var timersCreated: nat
    var setupCalls: nat
    var doWorkCalls: nat
    var loopIndex: int
    var submitted: seq<string>
    var leds: Leds

    function State(): HubState
      reads this
    {
      HubState(scopeId, iothubAuthenticated, callbacksEverRegistered, eventLoopSet, azureIoTPollPeriodSeconds,
               timerRequests, timersCreated, setupCalls, doWorkCalls, loopIndex, submitted, leds)
    }

    ghost predicate Valid()
      reads this
    {
      HubInvariant(State())
    }

    /** The static initialisers, with the LED levels main.c left behind. */
    constructor (initialLeds: Leds)
      ensures Valid() && State() == InitialHub(initialLeds)
    {
      scopeId, iothubAuthenticated, callbacksEverRegistered, eventLoopSet := None, false, false, false;
      azureIoTPollPeriodSeconds, timerRequests, timersCreated := -1, 0, 0;
      setupCalls, doWorkCalls, loopIndex, submitted, leds := 0, 0, 0, [], initialLeds;
    }

    method Provision(scopeIdReq: Option<string>, prov: ProvResult)
      modifies this
      ensures State() == Provisioned(old(State()), scopeIdReq, prov)
    {
      scopeId := scopeIdReq;
      setupCalls := setupCalls + 1;
      // IoTHubDeviceClient_LL_CreateWithAzureSphereDeviceAuthProvisioning
      leds := leds.(dps := true);
      if prov == ProvOk {
        leds := leds.(iotHub := true);
        iothubAuthenticated := true;
      }
    }

    method StartTimer(appEventLoop: bool, timerOk: bool)
      modifies this
      ensures State() == TimerStarted(old(State()), appEventLoop, timerOk)
    {
      if !eventLoopSet {
        eventLoopSet := appEventLoop;
        azureIoTPollPeriodSeconds := DefaultPollPeriodSeconds;
        timerRequests := timerRequests + 1;
        // CreateEventLoopPeriodicTimer
        if appEventLoop && timerOk {
          timersCreated := timersCreated + 1;
        }
      }
    }

    method SetupAzureClient(scopeIdReq: Option<string>, appEventLoop: bool, o: SetupOutcome)
      requires Valid()
      modifies this
      ensures State() == Setup(old(State()), scopeIdReq, appEventLoop, o)
      ensures Valid()
    {
      Provision(scopeIdReq, o.prov);
      if o.prov != ProvOk || !o.keepAliveOk {
        return;
      }
      callbacksEverRegistered := true;
      StartTimer(appEventLoop, o.timerOk);
    }

    method ConnectionStatusCallback(result: ConnectionStatus, reason: ConnectionReason)
      requires Valid()
      modifies this
      ensures Valid() && State() == ConnectionStatusChanged(old(State()), result, reason)
    {
      if reason != ReasonOk {
        leds := leds.(dps := false);
      }
      if result == ConnectionUnauthenticated {
        iothubAuthenticated := false;
        leds := leds.(iotHub := false);
      }
    }

    /** `AzureIoTHub_CheckNetworkStatus`: polls until the probe reports the network ready.
        `probes` are the probe's answers in order; the wait only returns once one of them is
        true, and it returns true. */
    method CheckNetworkStatus(probes: seq<bool>) returns (isNetworkingReady: bool, polls: nat)
      requires Valid() && true in probes
      modifies this
      ensures Valid() && State() == NetworkChecked(old(State()))
      ensures isNetworkingReady
      ensures 0 < polls <= |probes| && probes[polls - 1] && true !in probes[..polls - 1]
    {
      ghost var ready :| 0 <= ready < |probes| && probes[ready];
      isNetworkingReady := false;
      polls := 0;
      while !isNetworkingReady
        invariant 0 <= polls <= |probes|
        invariant !isNetworkingReady ==> polls <= ready && true !in probes[..polls]
        invariant isNetworkingReady ==> 0 < polls && probes[polls - 1] && true !in probes[..polls - 1]
        decreases |probes| - polls
      {
        isNetworkingReady := probes[polls];
        assert probes[..polls + 1] == probes[..polls] + [probes[polls]];
        polls := polls + 1;
        // sleep(1000) between probes
      }
      leds := leds.(network := true);
    }

    method DoWork()
      requires Valid()
      modifies this
      ensures Valid() && State() == Worked(old(State()))
    {
      if iothubAuthenticated {
        // IoTHubDeviceClient_LL_DoWork
        doWorkCalls := doWorkCalls + 1;
      }
    }

    method AzureTimerEventHandler(consumeOk: bool, networkReady: bool, o: SetupOutcome)
      requires Valid()
      modifies this
      ensures Valid() && State() == TimerTick(old(State()), consumeOk, networkReady, o)
    {
      if !consumeOk {
        return;
      }
      var isNetworkingReady := networkReady;
      if scopeId == None {
        isNetworkingReady := false;
      }
      if isNetworkingReady && !iothubAuthenticated {
        SetupAzureClient(scopeId, eventLoopSet, o);
      }
      DoWork();
    }

    method SubmitMessage(body: string, created: bool)
      requires Valid()
      modifies this
      ensures Valid() && State() == Submitted(old(State()), body, created)
    {
      if created {
        var index := loopIndex;
        loopIndex := loopIndex + 1;
        if index % WaitForSending == 0 {
          // IoTHubDeviceClient_LL_SendEventAsync; its result is only logged.
          submitted := submitted + [body];
        }
      }
    }

    method ToggleSendingLed(gpioReadOk: bool)
      requires Valid()
      modifies this
      ensures Valid() && State() == SendingToggled(old(State()), gpioReadOk)
    {
      if gpioReadOk {
        leds := leds.(sending := !leds.sending);
      }
    }

    method SetRetryLed(level: bool)
      requires Valid()
      modifies this
      ensures Valid() && State() == RetryLedWritten(old(State()), level)
    {
      leds := leds.(retryWrites := leds.retryWrites + [level]);
    }

    method AzureIoTHubSendMessage(body: string, created: bool, gpioReadOk: bool, probes: seq<bool>, o: SetupOutcome)
      requires Valid() && true in probes
      modifies this
      ensures Valid() && State() == SendMessage(old(State()), body, created, gpioReadOk, o)
    {
      if iothubAuthenticated {
        SubmitMessage(body, created);
        ToggleSendingLed(gpioReadOk);
      } else {
        SetRetryLed(false);
        var ready, _ := CheckNetworkStatus(probes);
        if ready {
          SetupAzureClient(scopeId, eventLoopSet, o);
        }
        SetRetryLed(true);
      }
    }
  }

  /** What the application's twin callback receives: not called at all, or called with the
      chosen object (`None` is a NULL object pointer). */
  datatype TwinDelivery = NoCallback | Callback(props: Option<map<string, Json>>)

  /** The object `DeviceTwinCallback` hands on: the `desired` member when it is an object,
      otherwise the root object (NULL when the root is not an object). */
  function DesiredOrRoot(root: Json): Option<map<string, Json>> {
    if !root.JObject? then None
    else match GetObject(root.members, "desired")
      case Some(desired) => Some(desired)
      case None => Some(root.members)
  }

  /** `DeviceTwinCallback`: copy the payload into a NUL-terminated buffer, parse it, and call
      the application with the desired properties, or nothing if it does not parse. */
  function DeviceTwinCallback(parse: Parser, payload: seq<char>): (d: TwinDelivery)
    ensures parse(CStr(payload + [Nul])).None? <==> d.NoCallback?
  {
    match parse(CStr(payload + [Nul]))
    case None => NoCallback
    case Some(root) => Callback(DesiredOrRoot(root))
  }

  /** A full twin document (with a `desired` object) delivers just its desired part; a patch
      (no `desired` object) is delivered whole. */
  lemma TwinDeliversDesiredOrWhole(parse: Parser, payload: seq<char>, members: map<string, Json>)
    requires Nul !in payload && parse(payload) == Some(JObject(members))
    ensures "desired" in members && members["desired"].JObject? ==>
              DeviceTwinCallback(parse, payload) == Callback(Some(members["desired"].members))
    ensures !("desired" in members && members["desired"].JObject?) ==>
              DeviceTwinCallback(parse, payload) == Callback(Some(members))
  {
    CStrTerminated(payload, []);
    assert payload + [Nul] + [] == payload + [Nul];
  }

  /** A byte of a C buffer: a defined character, or one nothing has written. */
  datatype Cell = Byte(c: char) | Indeterminate

  /** `strncpy(dst, src, n)`: the string in `src[..n]`, padded with NUL up to `n`. */
  function StrNCpy(src: seq<char>, n: nat): (r: seq<char>)
    requires n <= |src|
    ensures |r| == n
  {
    var text := CStr(src[..n]);
    text + seq(n - |text|, _ => Nul)
  }

  /** The string a reader of a cell buffer sees, or `None` when it reaches a byte nothing wrote
      (or the end) before a NUL. */
  function CellString(cells: seq<Cell>): Option<string> {
    if cells == [] || cells[0].Indeterminate? then None
    else if cells[0].c == Nul then Some([])
    else match CellString(cells[1..])
      case None => None
      case Some(rest) => Some([cells[0].c] + rest)
  }

  /** `payloadJson` in `DeviceMethodCallback` as written: `strncpy` of the payload into a
      `payloadSize + 1` array, then the terminator, but only when `payloadSize > 0`. */
  function PayloadCopyAsWritten(payload: seq<char>): (cells: seq<Cell>)
    ensures |cells| == |payload| + 1
  {
    seq(|payload|, i requires 0 <= i < |payload| => Byte(StrNCpy(payload, |payload|)[i]))
      + [if |payload| > 0 then Byte(Nul) else Indeterminate]
  }

  /** The input that shows it: an empty payload leaves the only byte of `payloadJson`
      unwritten, so the application reads an indeterminate string. */
  lemma EmptyPayloadUnterminatedAsWritten()
    ensures PayloadCopyAsWritten([]) == [Indeterminate]
    ensures CellString(PayloadCopyAsWritten([])).None?
  {
  }

  /** `payloadJson` as intended: the `strncpy` copy, always followed by a NUL. */
  function PayloadCopy(payload: seq<char>): (buf: seq<char>)
    ensures |buf| == |payload| + 1 && buf[|payload|] == Nul
  {
    StrNCpy(payload, |payload|) + [Nul]
  }

  /** The application reads exactly the payload's text (up to an embedded NUL), an empty
      payload included. */
  lemma PayloadCopyReadsPayload(payload: seq<char>)
    ensures CStr(PayloadCopy(payload)) == CStr(payload)
  {
    var text := CStr(payload);
    assert payload[..|payload|] == payload;
    var pad := seq(|payload| - |text|, _ => Nul);
    assert pad + [Nul] == [Nul] + pad;
    assert PayloadCopy(payload) == text + [Nul] + pad;
    CStrTerminated(text, pad);
  }

  /** Where the written and the intended copy agree: every non-empty payload. */
  lemma {:induction false} PayloadCopiesAgreeWhenNonEmpty(payload: seq<char>)
    requires |payload| > 0
    ensures CellString(PayloadCopyAsWritten(payload)) == Some(CStr(PayloadCopy(payload)))
  {
    CellsOfText(PayloadCopy(payload));
    var cells := PayloadCopyAsWritten(payload);
    var buf := PayloadCopy(payload);
    assert cells == seq(|buf|, i requires 0 <= i < |buf| => Byte(buf[i]));
  }

  /** A buffer of defined bytes that holds a NUL reads as its C string. */
  lemma {:induction false} CellsOfText(buf: seq<char>)
    requires Nul in buf
    ensures CellString(seq(|buf|, i requires 0 <= i < |buf| => Byte(buf[i]))) == Some(CStr(buf))
  {
    var cells := seq(|buf|, i requires 0 <= i < |buf| => Byte(buf[i]));
    if buf[0] != Nul {
      assert Nul in buf[1..];
      CellsOfText(buf[1..]);
      assert cells[1..] == seq(|buf[1..]|, i requires 0 <= i < |buf[1..]| => Byte(buf[1..][i]));
    }
  }

  /** What an application method callback returns, and what it stored through its `response`
      and `response_size` out-parameters (`None`: it stored nothing). */
  datatype CallbackResult = CallbackResult(status: int, response: Option<seq<char>>)

  /** The application's direct-method callback: method name and payload text to a result. */
  type MethodCallback = (string, string) -> CallbackResult

  /** The answer the SDK gets: a status and the response bytes. */
  datatype MethodResponse = MethodResponse(status: int, body: seq<char>)

  /** `DeviceMethodCallback`: copy the payload into a terminated buffer, call the application,
      and copy `resSize` bytes of its response; `resSize` stays 0 unless the application set it.
      The copy is the intended `PayloadCopy`, which is terminated also for an empty payload;
      as written an empty payload leaves the buffer unterminated (`PayloadCopyAsWritten`),
      and for a non-empty one the two copies read the same (`PayloadCopiesAgreeWhenNonEmpty`). */
  function DeviceMethodCallback(methodName: string, payload: seq<char>, app: MethodCallback): (r: MethodResponse)
    ensures r.status == app(methodName, CStr(payload)).status
    ensures r.body == match app(methodName, CStr(payload)).response
                      case None => []
                      case Some(bytes) => bytes
  {
    PayloadCopyReadsPayload(payload);
    var out := app(methodName, CStr(PayloadCopy(payload)));
    var resSize := match out.response case None => 0 case Some(bytes) => |bytes|;
    var response := match out.response case None => [] case Some(bytes) => bytes;
    MethodResponse(out.status, response[..resSize])
  }
}
