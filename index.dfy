/** index.js: the earlier single-file module. It stores the configuration as
    given, defines one `relay_control` action on the command API, and reports
    failures with its own two status values. It has no feedbacks, no
    variables, no polling, no status reset and no configuration checks. */
module Index {
  import opened Strings
  import opened Device
  import opened Actions

  /** `this.STATUS_OK`, and `this.STATUS_ERROR` with its message. */
  datatype LegacyStatus = StatusOk | StatusError(message: string)

  /** The legacy callback treats only a non-ok or rejected request as a
      failure; it never reads the body. */
  predicate LegacyFails(reply: Reply) {
    !reply.Ok()
  }

  /** Every failure the legacy action reports is also a failure of the current
      `relay_control`, but not the other way round: an ok response whose body
      is not JSON passes the legacy check and fails the current one. */
  lemma LegacyIgnoresBody(reply: Reply)
    ensures LegacyFails(reply) ==> !ControlSucceeded(reply)
    ensures reply.Ok() && reply.body.NotJson? ==> !LegacyFails(reply) && !ControlSucceeded(reply)
    ensures !LegacyFails(reply) <==> ControlSucceeded(reply) || (reply.Ok() && reply.body.NotJson?)
  {
  }

  class IPX800Instance {
    /** `this.config`, stored as given: it may be absent. */
    var config: Option<Config>
    /** Every `updateStatus` call, oldest first. */
    var statusLog: seq<LegacyStatus>
    /** Whether `setActionDefinitions` has run. */
    var actionsDefined: bool
    /** Every URL fetched, oldest first. */
    var requests: seq<string>

    /** A fresh instance, before `init`. */
    constructor ()
      ensures config.None? && statusLog == [] && !actionsDefined && requests == []
    {
      config := None;
      statusLog := [];
      actionsDefined := false;
      requests := [];
    }

    /** `init(config)`: stores the configuration unchecked, reports OK and
        defines the action. */
    method Init(config: Option<Config>)
      modifies this`config, this`statusLog, this`actionsDefined
      ensures this.config == config
      ensures statusLog == old(statusLog) + [StatusOk]
      ensures actionsDefined
    {
      this.config := config;
      statusLog := statusLog + [StatusOk];
      actionsDefined := true;
    }

    /** The `relay_control` callback. The URL is the set command of the
        current module. Without a configuration, reading its host throws
        before the `try`, so the callback is rejected with no request and no
        status; otherwise a failed request reports 'Request failed' and
        nothing is scheduled to clear it. */
    method RelayControl(relay: RelayNumber, state: string, net: Network) returns (rejected: bool)
      modifies this`requests, this`statusLog
      ensures rejected <==> config.None?
      ensures rejected ==> requests == old(requests) && statusLog == old(statusLog)
      ensures !rejected ==>
        && requests == old(requests) + [SetUrl(config.value, relay, state)]
        && statusLog == old(statusLog)
          + (if LegacyFails(net(SetUrl(config.value, relay, state))) then [StatusError("Request failed")] else [])
    {
      if config.None? {
        return true;
      }
      var url := SetUrl(config.value, relay, state);
      requests := requests + [url];
      var reply := net(url);
      if LegacyFails(reply) {
        statusLog := statusLog + [StatusError("Request failed")];
      }
      return false;
    }

    /** `configUpdated(config)`: only stores the new configuration. */
    method ConfigUpdated(config: Option<Config>)
      modifies this`config
      ensures this.config == config
    {
      this.config := config;
    }
  }
}
