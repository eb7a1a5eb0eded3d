/** actions.js: the `relay_control` and `relay_toggle` actions of the legacy
    command API (`/api/xdevices.json`), and the status reset they schedule
    after a failure. Actions address relays by number 1..32, a key space
    separate from the device `_id`s of the state store. */
module Actions {
  import opened Strings
  import opened Device
  import opened Companion
  import opened Variables

  /** The relay option: a number field with `min: 1`, `max: 32`. */
  type RelayNumber = n: int | 1 <= n <= 32 witness 1

  /** `state === 'on' ? 1 : 0`. */
  function CommandValue(state: string): nat {
    if state == "on" then 1 else 0
  }

  /** `http://${host}/api/xdevices.json?key=${apiKey}`, the part both command
      URLs share. */
  function CommandBase(c: Config): string {
    "http://" + Interpolate(c.host) + "/api/xdevices.json?key=" + Interpolate(c.apiKey)
  }

  /** The set command: `...&SetR${relay}=${value}`. */
  function SetUrl(c: Config, relay: RelayNumber, state: string): string {
    CommandBase(c) + "&SetR" + NatToString(relay) + "=" + NatToString(CommandValue(state))
  }

  /** The toggle command: `...&ToggleR${relay}=1`. */
  function ToggleUrl(c: Config, relay: RelayNumber): string {
    CommandBase(c) + "&ToggleR" + NatToString(relay) + "=1"
  }

  // ---------------------------------------------------------------------------
  // What the command URLs encode

  /** A set URL starts with the command base and "&SetR", and ends in "=1"
      exactly when the requested state is 'on', in "=0" otherwise. */
  lemma SetUrlEncodesValue(c: Config, relay: RelayNumber, state: string)
    ensures var u := SetUrl(c, relay, state);
      && StartsWith(u, CommandBase(c) + "&SetR")
      && u[|u| - 2..] == (if state == "on" then "=1" else "=0")
  {
    var u := SetUrl(c, relay, state);
    assert u == (CommandBase(c) + "&SetR") + (NatToString(relay) + "=" + NatToString(CommandValue(state)));
  }

  /** The URL determines the command: two set URLs for the same configuration
      are equal only for the same relay and the same value. */
  lemma SetUrlInjective(c: Config, r1: RelayNumber, s1: string, r2: RelayNumber, s2: string)
    requires SetUrl(c, r1, s1) == SetUrl(c, r2, s2)
    ensures r1 == r2
    ensures CommandValue(s1) == CommandValue(s2)
  {
    var p := CommandBase(c) + "&SetR";
    var u := SetUrl(c, r1, s1);
    var d1, d2 := NatToString(r1), NatToString(r2);
    var v1, v2 := NatToString(CommandValue(s1)), NatToString(CommandValue(s2));
    assert |v1| == 1 && |v2| == 1;
    assert u == p + d1 + "=" + v1;
    assert u == p + d2 + "=" + v2;
    assert |d1| == |d2|;
    assert d1 == u[|p|..|p| + |d1|];
    assert d2 == u[|p|..|p| + |d2|];
    NatToStringInjective(r1, r2);
    assert v1 == u[|u| - 1..];
    assert v2 == u[|u| - 1..];
  }

  /** Two toggle URLs for the same configuration are equal only for the same
      relay. */
  lemma ToggleUrlInjective(c: Config, r1: RelayNumber, r2: RelayNumber)
    requires ToggleUrl(c, r1) == ToggleUrl(c, r2)
    ensures r1 == r2
  {
    var p := CommandBase(c) + "&ToggleR";
    var u := ToggleUrl(c, r1);
    var d1, d2 := NatToString(r1), NatToString(r2);
    assert u == p + d1 + "=1";
    assert u == p + d2 + "=1";
    assert d1 == u[|p|..|p| + |d1|];
    assert d2 == u[|p|..|p| + |d2|];
    NatToStringInjective(r1, r2);
  }

  /** A set command is never mistaken for a toggle command. */
  lemma SetUrlIsNotToggleUrl(c: Config, r1: RelayNumber, state: string, r2: RelayNumber)
    ensures SetUrl(c, r1, state) != ToggleUrl(c, r2)
  {
    var b := CommandBase(c);
    assert SetUrl(c, r1, state)[|b| + 1] == 'S';
    assert ToggleUrl(c, r2)[|b| + 1] == 'T';
  }

  /** Every relay number an action accepts names a variable of the catalogue,
      the one a successful `relay_control` writes. */
  lemma RelayNumberHasVariable(relay: RelayNumber)
    ensures exists i :: 0 <= i < |Catalogue()| && Catalogue()[i].variableId == RelayVariableId(relay)
  {
    CatalogueLayout();
    assert Catalogue()[relay - 1].variableId == RelayVariableId(relay);
  }

  // ---------------------------------------------------------------------------
  // Outcomes of a command request

  /** `relay_control` succeeds on an ok response whose body parses as JSON. */
  predicate ControlSucceeded(reply: Reply) {
    reply.Ok() && !reply.body.NotJson?
  }

  /** The message of the error a failed request throws: the rejection's own
      message, or `HTTP ${status}: ${statusText}` for a non-ok response. */
  function RequestError(reply: Reply): string
    requires !reply.Ok()
  {
    match reply
    case Threw(message) => message
    case Response(status, statusText, _) => "HTTP " + NatToString(status) + ": " + statusText
  }

  /** The error `relay_control` catches: a failed request, or the parse error
      of an ok response whose body is not JSON. */
  function ControlError(reply: Reply): string
    requires !ControlSucceeded(reply)
  {
    if reply.Ok() then reply.body.parseError else RequestError(reply)
  }

  /** The status a failed command reports. */
  function FailureStatus(error: string): Status {
    Status(ConnectionFailure, Some("Request failed: " + error))
  }

  // ---------------------------------------------------------------------------
  // The actions on the instance

  /** The exported function of actions.js: defines the two actions. */
  method UpdateActions(self: ModuleInstance)
    modifies self`actionsDefined
    ensures self.actionsDefined
  {
    self.actionsDefined := true;
  }

  /** The `catch` of both callbacks: ConnectionFailure now, and an `Ok` reset
      scheduled for 5000 ms later. */
  method ReportFailure(self: ModuleInstance, error: string)
    modifies self`statusLog, self`pendingStatusResets
    ensures self.statusLog == old(self.statusLog) + [FailureStatus(error)]
    ensures self.pendingStatusResets == old(self.pendingStatusResets) + 1
  {
    self.UpdateStatus(FailureStatus(error));
    self.pendingStatusResets := self.pendingStatusResets + 1;
  }

  /** The `relay_control` callback. On success only `relay_${relay}_state`
      changes, to the upper-cased state; on failure no variable changes, the
      status goes to ConnectionFailure and a reset to Ok is pending. */
  method RelayControl(self: ModuleInstance, relay: RelayNumber, state: string, net: Network)
    modifies self`requests, self`variables, self`statusLog, self`pendingStatusResets
    ensures self.requests == old(self.requests) + [SetUrl(self.config, relay, state)]
    ensures var reply := net(SetUrl(self.config, relay, state));
      if ControlSucceeded(reply) then
        && self.variables == old(self.variables)[RelayVariableId(relay) := ToUpper(state)]
        && self.statusLog == old(self.statusLog)
        && self.pendingStatusResets == old(self.pendingStatusResets)
      else
        && self.variables == old(self.variables)
        && self.statusLog == old(self.statusLog) + [FailureStatus(ControlError(reply))]
        && self.pendingStatusResets == old(self.pendingStatusResets) + 1
  {
    var reply := self.Fetch(SetUrl(self.config, relay, state), net);
    if ControlSucceeded(reply) {
      self.SetVariableValues(map[RelayVariableId(relay) := ToUpper(state)]);
    } else {
      ReportFailure(self, ControlError(reply));
    }
  }

  /** The `relay_toggle` callback. Success needs only an ok response and sets
      no variable; failure is handled as in `relay_control`. */
  method RelayToggle(self: ModuleInstance, relay: RelayNumber, net: Network)
    modifies self`requests, self`statusLog, self`pendingStatusResets
    ensures self.requests == old(self.requests) + [ToggleUrl(self.config, relay)]
    ensures var reply := net(ToggleUrl(self.config, relay));
      if reply.Ok() then
        self.statusLog == old(self.statusLog) && self.pendingStatusResets == old(self.pendingStatusResets)
      else
        && self.statusLog == old(self.statusLog) + [FailureStatus(RequestError(reply))]
        && self.pendingStatusResets == old(self.pendingStatusResets) + 1
  {
    var reply := self.Fetch(ToggleUrl(self.config, relay), net);
    if !reply.Ok() {
      ReportFailure(self, RequestError(reply));
    }
  }

  /** A scheduled reset firing, 5000 ms after a failure: `updateStatus(Ok)`
      with no message. */
  method StatusResetTimer(self: ModuleInstance)
    requires self.pendingStatusResets > 0
    modifies self`statusLog, self`pendingStatusResets
    ensures self.statusLog == old(self.statusLog) + [Status(Ok, None)]
    ensures self.pendingStatusResets == old(self.pendingStatusResets) - 1
  {
    self.UpdateStatus(Status(Ok, None));
    self.pendingStatusResets := self.pendingStatusResets - 1;
  }
}
