/** The state of one module instance as main.js's `ModuleInstance` holds it,
    together with the host framework calls the module makes on it. The
    framework's own behaviour is not visible, so each call is recorded:
    `updateStatus` appends to `statusLog`, `setVariableValues` merges into
    `variables`, and every `fetch` appends its URL to `requests`. */
module Companion {
  import opened Strings
  import opened Device

  /** The `InstanceStatus` values the module reports. */
  datatype StatusKind = Ok | Connecting | BadConfig | ConnectionFailure

  /** One `updateStatus(kind, message)` call; the message is optional. */
  datatype Status = Status(kind: StatusKind, message: Option<string>)

  /** One entry of the list given to `setVariableDefinitions`. */
  datatype VariableDefinition = VariableDefinition(variableId: string, name: string)

  /** Every value the relay state store holds is "ON" or "OFF". */
  predicate StoreValid(store: map<string, string>) {
    forall k :: k in store ==> store[k] == "ON" || store[k] == "OFF"
  }

  class ModuleInstance {
    /** `this.config`. */
    var config: Config
    /** Every `updateStatus` call, oldest first; the last one is the status shown. */
    var statusLog: seq<Status>
    /** The variable values published with `setVariableValues`. */
    var variables: map<string, string>
    /** The list last given to `setVariableDefinitions`. */
    var variableDefinitions: seq<VariableDefinition>
    /** Whether `setActionDefinitions` / `setFeedbackDefinitions` have run. */
    var actionsDefined: bool
    var feedbacksDefined: bool
    /** `self.relayStates`: last known state per device `_id` (as a string key). */
    var relayStates: map<string, string>
    /** Number of `setInterval(pollRelayStates, 500)` timers created. */
    var pollIntervals: nat
    /** Status resets scheduled with `setTimeout(..., 5000)` and not yet run. */
    var pendingStatusResets: nat
    /** Every URL fetched, oldest first. */
    var requests: seq<string>

    /** At most one poll timer exists, and the store holds only "ON"/"OFF". */
    ghost predicate Valid()
      reads this
    {
      pollIntervals <= 1 && StoreValid(relayStates)
    }

    /** A fresh instance, before `init`: no configuration, nothing published. */
    constructor ()
      ensures Valid()
      ensures config == Config(None, None, map[])
      ensures statusLog == [] && variables == map[] && variableDefinitions == []
      ensures !actionsDefined && !feedbacksDefined
      ensures relayStates == map[] && pollIntervals == 0 && pendingStatusResets == 0
      ensures requests == []
    {
      config := Config(None, None, map[]);
      statusLog := [];
      variables := map[];
      variableDefinitions := [];
      actionsDefined := false;
      feedbacksDefined := false;
      relayStates := map[];
      pollIntervals := 0;
      pendingStatusResets := 0;
      requests := [];
    }

    /** `updateStatus(kind, message)`. */
    method UpdateStatus(s: Status)
      modifies this`statusLog
      ensures statusLog == old(statusLog) + [s]
    {
      statusLog := statusLog + [s];
    }

    /** `setVariableValues(values)`: the given values replace earlier ones,
        every other variable keeps its value. */
    method SetVariableValues(values: map<string, string>)
      modifies this`variables
      ensures variables == old(variables) + values
    {
      variables := variables + values;
    }

    /** `await fetch(url)`: the request is issued and the device answers. */
    method Fetch(url: string, net: Network) returns (reply: Reply)
      modifies this`requests
      ensures requests == old(requests) + [url]
      ensures reply == net(url)
    {
      requests := requests + [url];
      reply := net(url);
    }
  }
}
