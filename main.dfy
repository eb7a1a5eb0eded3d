/** main.js: the lifecycle of a module instance. `init` and `configUpdated`
    check the configuration, test the connection and (re)define actions,
    feedbacks and variables; `testConnection` probes three endpoints in order;
    `getRelayList` builds the relay directory from the I/O table; `destroy`
    and `forceEnable` are the two remaining entry points. */
module Main {
  import opened Strings
  import opened Device
  import opened Relays
  import opened Companion
  import opened Variables
  import opened Feedbacks
  import opened Actions

  const ConfigRequired := "Configuration required - please set IP address and API key"
  const HostRequired := "IP address is required"
  const ApiKeyRequired := "API Key is required"
  const ConfigIncomplete := "Configuration incomplete"
  const NoEndpoint := "Ready - No working endpoint found"

  // ---------------------------------------------------------------------------
  // Checking the configuration

  /** `!config || Object.keys(config).length === 0`: no configuration object,
      or one without any key. */
  predicate IsMissing(config: Option<Config>) {
    config.None? ||
    (config.value.host.None? && config.value.apiKey.None? && config.value.others == map[])
  }

  /** The configuration `init` keeps: a missing one is replaced by an empty
      host and an empty apiKey. */
  function InitConfig(config: Option<Config>): Config {
    if IsMissing(config) then Config(Some(""), Some(""), map[]) else config.value
  }

  /** The configuration `configUpdated` keeps: `config || {}`. */
  function UpdatedConfig(config: Option<Config>): Config {
    if config.Some? then config.value else Config(None, None, map[])
  }

  /** `!field || field.trim() === ''`. */
  predicate Blank(field: Option<string>) {
    !Truthy(field) || Trim(field.value) == ""
  }

  /** The checks `init` and `configUpdated` run before testing the connection:
      the host first, then the apiKey. */
  function Validate(c: Config): Option<Status> {
    if Blank(c.host) then Some(Status(BadConfig, Some(HostRequired)))
    else if Blank(c.apiKey) then Some(Status(BadConfig, Some(ApiKeyRequired)))
    else None
  }

  /** A field is blank exactly when it is absent or holds only whitespace. */
  lemma BlankIffWhitespace(field: Option<string>)
    ensures Blank(field) <==> field.None? || AllWhitespace(field.value)
  {
    if field.Some? {
      TrimEmptyIffWhitespace(field.value);
    }
  }

  /** A configuration passes the checks exactly when host and apiKey both hold
      a non-whitespace character; a blank host is reported even when the apiKey
      is blank too. A configuration that passes is complete. */
  lemma ValidateAccepts(c: Config)
    ensures Validate(c).None? <==>
      && c.host.Some? && !AllWhitespace(c.host.value)
      && c.apiKey.Some? && !AllWhitespace(c.apiKey.value)
    ensures Validate(c).None? ==> Complete(c)
    ensures Blank(c.host) ==> Validate(c) == Some(Status(BadConfig, Some(HostRequired)))
  {
    BlankIffWhitespace(c.host);
    BlankIffWhitespace(c.apiKey);
  }

  /** A host of spaces only is refused by the checks, yet it is truthy, so the
      poll that the feedback setup runs right after still requests the I/O
      table from it. */
  lemma WhitespaceHostStillPolled(c: Config)
    requires Truthy(c.host) && AllWhitespace(c.host.value)
    requires Truthy(c.apiKey)
    ensures Validate(c) == Some(Status(BadConfig, Some(HostRequired)))
    ensures IoRequests(c) == [IoUrl(c)]
  {
    BlankIffWhitespace(c.host);
  }

  // ---------------------------------------------------------------------------
  // The connection test

  /** An error that escapes the per-probe handler: `name` and `message`. */
  datatype JsError = JsError(name: string, message: string)

  /** The three endpoints probed, in order: info, io, devices. */
  function TestUrls(c: Config): seq<string> {
    [ "http://" + Interpolate(c.host) + "/api/core/info?ApiKey=" + Interpolate(c.apiKey),
      "http://" + Interpolate(c.host) + "/api/core/io?ApiKey=" + Interpolate(c.apiKey),
      "http://" + Interpolate(c.host) + "/api/core/devices?ApiKey=" + Interpolate(c.apiKey) ]
  }

  /** The three probes are different requests, and the second is the request
      the poll and the relay directory use. */
  lemma TestUrlsDistinct(c: Config)
    ensures TestUrls(c)[1] == IoUrl(c)
    ensures TestUrls(c)[0] != TestUrls(c)[1]
    ensures TestUrls(c)[0] != TestUrls(c)[2]
    ensures TestUrls(c)[1] != TestUrls(c)[2]
  {
    var u := TestUrls(c);
    var n := |"http://" + Interpolate(c.host) + "/api/core/"|;
    assert u[0][n + 1] == 'n';
    assert u[1][n + 1] == 'o';
    assert u[2][n] == 'd';
    assert u[0][n] == 'i';
  }

  /** The index of the first URL whose request gets an ok response, or the
      number of URLs when none does. */
  function FirstOk(urls: seq<string>, net: Network): (k: nat)
    ensures k <= |urls|
    ensures forall j :: 0 <= j < k ==> !net(urls[j]).Ok()
    ensures k < |urls| ==> net(urls[k]).Ok()
    decreases |urls|
  {
    if urls == [] then 0
    else if net(urls[0]).Ok() then 0
    else 1 + FirstOk(urls[1..], net)
  }

  /** `Ready - ${errorMessage}`, where an `AbortError` reads as a timeout. */
  function ReadyMessage(e: JsError): string {
    "Ready - " + (if e.name == "AbortError" then "Connection timeout" else e.message)
  }

  /** The statuses one connection test reports. `outerError` is an error
      thrown after the Connecting status and before the first probe (setting up
      the AbortController and its timer), if any: the outer handler turns it
      into Ok "Ready - ...", and no request is made. */
  function ConnectionStatuses(c: Config, net: Network, outerError: Option<JsError>): seq<Status> {
    if !Complete(c) then [Status(BadConfig, Some(ConfigIncomplete))]
    else
      [Status(Connecting, Some("Testing connection..."))] +
      [if outerError.Some? then Status(Ok, Some(ReadyMessage(outerError.value)))
       else if FirstOk(TestUrls(c), net) < 3 then Status(Ok, Some("Connected")) else Status(Ok, Some(NoEndpoint))]
  }

  /** The requests one connection test issues: the probes up to and including
      the first that gets an ok response. */
  function ConnectionRequests(c: Config, net: Network, outerError: Option<JsError>): seq<string> {
    if !Complete(c) || outerError.Some? then []
    else
      var k := FirstOk(TestUrls(c), net);
      TestUrls(c)[..if k < 3 then k + 1 else 3]
  }

  /** The variables one connection test sets: only after a successful probe. */
  function ConnectionVariables(c: Config, net: Network, outerError: Option<JsError>): map<string, string> {
    if Complete(c) && outerError.None? && FirstOk(TestUrls(c), net) < 3 then
      map["connection_status" := "Connected", "ipx800_host" := c.host.value]
    else map[]
  }

  /** With host and apiKey set, the test never leaves the module in an error
      state: it starts with Connecting, every status it reports is Connecting
      or Ok, and it ends on Ok; an escaping error ends it on Ok "Ready - ..."
      with no probe. Without host and apiKey it reports BadConfig and requests
      nothing. */
  lemma ConnectionTestKeepsModuleActive(c: Config, net: Network, outerError: Option<JsError>)
    ensures var s := ConnectionStatuses(c, net, outerError);
      && |s| >= 1
      && (Complete(c) ==>
            && s[0] == Status(Connecting, Some("Testing connection..."))
            && s[|s| - 1].kind == Ok
            && forall i :: 0 <= i < |s| ==> s[i].kind in {Ok, Connecting})
      && (!Complete(c) ==> s == [Status(BadConfig, Some(ConfigIncomplete))])
    ensures !Complete(c) ==> ConnectionRequests(c, net, outerError) == [] && ConnectionVariables(c, net, outerError) == map[]
    ensures Complete(c) && outerError.Some? ==>
      && ConnectionStatuses(c, net, outerError)
         == [Status(Connecting, Some("Testing connection...")), Status(Ok, Some(ReadyMessage(outerError.value)))]
      && ConnectionRequests(c, net, outerError) == []
      && ConnectionVariables(c, net, outerError) == map[]
  {
  }

  /** The probes run in order and stop at the first ok response: the test
      gives up only after all three, every probe before the last one failed,
      and an ok endpoint anywhere in the list means "Connected". The test
      reports "Connected" and sets the variables exactly when the last probe
      got an ok response. */
  lemma ProbeStopsAtFirstOk(c: Config, net: Network)
    requires Complete(c)
    ensures var rs := ConnectionRequests(c, net, None);
      var s := ConnectionStatuses(c, net, None);
      && 1 <= |rs| <= 3 && rs == TestUrls(c)[..|rs|]
      && (forall j :: 0 <= j < |rs| - 1 ==> !net(rs[j]).Ok())
      && (s[|s| - 1] == Status(Ok, Some("Connected")) <==> net(rs[|rs| - 1]).Ok())
      && (s[|s| - 1] == Status(Ok, Some(NoEndpoint)) <==> !net(rs[|rs| - 1]).Ok())
      && (ConnectionVariables(c, net, None) != map[] <==> net(rs[|rs| - 1]).Ok())
      && (|rs| < 3 ==> net(rs[|rs| - 1]).Ok())
      && ((exists j :: 0 <= j < 3 && net(TestUrls(c)[j]).Ok()) <==> s[|s| - 1] == Status(Ok, Some("Connected")))
  {
    var urls := TestUrls(c);
    var k := FirstOk(urls, net);
    var rs := ConnectionRequests(c, net, None);
    var s := ConnectionStatuses(c, net, None);
    assert forall j :: 0 <= j < |rs| ==> rs[j] == urls[j];
    if k < 3 {
      assert |rs| == k + 1 && rs[k] == urls[k];
      assert s[|s| - 1] == Status(Ok, Some("Connected"));
      assert "connection_status" in ConnectionVariables(c, net, None);
    } else {
      assert |rs| == 3 && rs[2] == urls[2];
      assert s[|s| - 1] == Status(Ok, Some(NoEndpoint));
      assert Status(Ok, Some("Connected")).message.value[0] == 'C';
    }
  }

  /** `testConnection`: the probes are made one by one, each awaited, and the
      loop returns on the first ok response. */
  method TestConnection(self: ModuleInstance, net: Network, outerError: Option<JsError>)
    modifies self`statusLog, self`requests, self`variables
    ensures self.statusLog == old(self.statusLog) + ConnectionStatuses(self.config, net, outerError)
    ensures self.requests == old(self.requests) + ConnectionRequests(self.config, net, outerError)
    ensures self.variables == old(self.variables) + ConnectionVariables(self.config, net, outerError)
  {
    if !Complete(self.config) {
      self.UpdateStatus(Status(BadConfig, Some(ConfigIncomplete)));
      return;
    }
    self.UpdateStatus(Status(Connecting, Some("Testing connection...")));
    if outerError.Some? {
      self.UpdateStatus(Status(Ok, Some(ReadyMessage(outerError.value))));
      return;
    }
    var urls := TestUrls(self.config);
    var i := 0;
    while i < |urls|
      invariant 0 <= i <= |urls|
      invariant self.requests == old(self.requests) + urls[..i]
      invariant forall j :: 0 <= j < i ==> !net(urls[j]).Ok()
      invariant self.statusLog == old(self.statusLog) + [Status(Connecting, Some("Testing connection..."))]
      invariant self.variables == old(self.variables)
    {
      var reply := self.Fetch(urls[i], net);
      assert urls[..i + 1] == urls[..i] + [urls[i]];
      if reply.Ok() {
        assert FirstOk(urls, net) == i;
        self.UpdateStatus(Status(Ok, Some("Connected")));
        self.SetVariableValues(map["connection_status" := "Connected", "ipx800_host" := self.config.host.value]);
        return;
      }
      i := i + 1;
    }
    assert FirstOk(urls, net) == 3;
    assert urls[..i] == urls;
    self.UpdateStatus(Status(Ok, Some(NoEndpoint)));
  }

  // ---------------------------------------------------------------------------
  // The relay directory

  /** One dropdown choice: the id and the text of its label. */
  datatype RelayChoice = RelayChoice(id: string, text: string)

  /** `{ id: _id.toString(), label: `${name || `Relay ${_id}`} (ID: ${_id})` }`. */
  function ChoiceOf(r: IoRecord): RelayChoice {
    var id := NatToString(r.id);
    RelayChoice(id, (if Truthy(r.name) then r.name.value else "Relay " + id) + " (ID: " + id + ")")
  }

  /** The directory of an I/O table: its command relays, in order, as choices. */
  function RelayDirectory(items: seq<IoRecord>): seq<RelayChoice> {
    var relays := CommandRelays(items);
    seq(|relays|, i requires 0 <= i < |relays| => ChoiceOf(relays[i]))
  }

  /** The directory a reply yields: empty unless it carries an I/O array. */
  function Directory(reply: Reply): seq<RelayChoice> {
    match IoTable(reply)
    case Some(items) => RelayDirectory(items)
    case None => []
  }

  /** The directory keeps the order of the table: the directory of two tables
      joined is the two directories joined. */
  lemma DirectoryAppend(a: seq<IoRecord>, b: seq<IoRecord>)
    ensures RelayDirectory(a + b) == RelayDirectory(a) + RelayDirectory(b)
  {
    CommandRelaysAppend(a, b);
  }

  /** Every label in the directory is the device's own name followed by the id:
      a kept record always has a non-empty name, so the `Relay ${_id}`
      fallback is never used. */
  lemma DirectoryLabelsUseNames(items: seq<IoRecord>)
    ensures forall i :: 0 <= i < |RelayDirectory(items)| ==>
      var r := CommandRelays(items)[i];
      && r.name.Some?
      && RelayDirectory(items)[i].id == StoreKey(r.id)
      && RelayDirectory(items)[i].text == r.name.value + " (ID: " + StoreKey(r.id) + ")"
  {
    var relays := CommandRelays(items);
    forall i | 0 <= i < |relays|
      ensures relays[i].name.Some? && Truthy(relays[i].name)
    {
      assert relays[i] in relays;
      AcceptedNameMentionsRelay(relays[i].name);
    }
  }

  /** The ids the directory offers are the store keys of the command relays. */
  lemma DirectoryIds(items: seq<IoRecord>)
    ensures (set c | c in RelayDirectory(items) :: c.id)
      == set r | r in CommandRelays(items) :: StoreKey(r.id)
  {
    var relays := CommandRelays(items);
    var d := RelayDirectory(items);
    var ids := set c | c in d :: c.id;
    var keys := set r | r in relays :: StoreKey(r.id);
    forall k | k in keys
      ensures k in ids
    {
      var r :| r in relays && StoreKey(r.id) == k;
      var i :| 0 <= i < |relays| && relays[i] == r;
      assert d[i] in d && d[i].id == k;
    }
    forall k | k in ids
      ensures k in keys
    {
      var c :| c in d && c.id == k;
      var i :| 0 <= i < |d| && d[i] == c;
      assert relays[i] in relays && StoreKey(relays[i].id) == k;
    }
  }

  /** The directory offers exactly the ids that a poll of the same table adds
      to the state store, so a feedback chosen from it reads a polled key. */
  lemma DirectoryIdsAreStoreKeys(store: map<string, string>, items: seq<IoRecord>)
    ensures ApplyRelays(store, CommandRelays(items)).Keys
      == store.Keys + set c | c in RelayDirectory(items) :: c.id
  {
    ApplyRelaysKeys(store, CommandRelays(items));
    DirectoryIds(items);
  }

  /** `getRelayList`: one read of the I/O table when host and apiKey are set;
      any failure gives an empty list. */
  method GetRelayList(self: ModuleInstance, net: Network) returns (relays: seq<RelayChoice>)
    modifies self`requests
    ensures self.requests == old(self.requests) + IoRequests(self.config)
    ensures relays == if Complete(self.config) then Directory(net(IoUrl(self.config))) else []
  {
    if !Complete(self.config) {
      return [];
    }
    var reply := self.Fetch(IoUrl(self.config), net);
    relays := Directory(reply);
  }

  // ---------------------------------------------------------------------------
  // Lifecycle

  /** `updateActions(); updateFeedbacks(); updateVariableDefinitions()`. */
  method DefineAll(self: ModuleInstance, net: Network)
    requires self.Valid()
    modifies self`actionsDefined, self`feedbacksDefined, self`relayStates, self`pollIntervals,
      self`requests, self`variableDefinitions, self`variables
    ensures self.Valid()
    ensures self.actionsDefined && self.feedbacksDefined && self.pollIntervals == 1
    ensures self.relayStates == Poll(map[], self.config, net)
    ensures self.requests == old(self.requests) + IoRequests(self.config)
    ensures self.variableDefinitions == Catalogue()
    ensures self.variables == old(self.variables) + InitialValues(self.config)
  {
    UpdateActions(self);
    UpdateFeedbacks(self, net);
    UpdateVariableDefinitions(self);
  }

  /** The statuses of the checks and, when they pass, the connection test. */
  function CheckStatuses(c: Config, net: Network, outerError: Option<JsError>): seq<Status> {
    match Validate(c)
    case Some(s) => [s]
    case None => ConnectionStatuses(c, net, outerError)
  }

  /** The requests of the checks: only the connection test makes any. */
  function CheckRequests(c: Config, net: Network, outerError: Option<JsError>): seq<string> {
    if Validate(c).Some? then [] else ConnectionRequests(c, net, outerError)
  }

  /** The variables set by the checks: only the connection test sets any. */
  function CheckVariables(c: Config, net: Network, outerError: Option<JsError>): map<string, string> {
    if Validate(c).Some? then map[] else ConnectionVariables(c, net, outerError)
  }

  /** The status the checks leave is BadConfig exactly when the configuration
      fails them, with the host reported before the apiKey; otherwise it is
      Ok. A configuration that fails them causes no probe. */
  lemma CheckOutcome(c: Config, net: Network, outerError: Option<JsError>)
    ensures var s := CheckStatuses(c, net, outerError);
      && |s| >= 1
      && (s[|s| - 1].kind == BadConfig <==> Validate(c).Some?)
      && (Validate(c).None? ==> s[|s| - 1].kind == Ok)
    ensures Blank(c.host) ==> CheckStatuses(c, net, outerError) == [Status(BadConfig, Some(HostRequired))]
    ensures !Blank(c.host) && Blank(c.apiKey) ==>
      CheckStatuses(c, net, outerError) == [Status(BadConfig, Some(ApiKeyRequired))]
    ensures Validate(c).Some? ==> CheckRequests(c, net, outerError) == [] && CheckVariables(c, net, outerError) == map[]
  {
    if Validate(c).None? {
      ConnectionTestKeepsModuleActive(c, net, outerError);
    }
  }

  /** The shared tail of `init` and `configUpdated`: the checks, the
      connection test when they pass, then the definitions. */
  method CheckAndDefine(self: ModuleInstance, net: Network, outerError: Option<JsError>)
    requires self.Valid()
    modifies self`statusLog, self`actionsDefined, self`feedbacksDefined, self`relayStates,
      self`pollIntervals, self`requests, self`variableDefinitions, self`variables
    ensures self.Valid()
    ensures self.statusLog == old(self.statusLog) + CheckStatuses(self.config, net, outerError)
    ensures self.requests == old(self.requests) + CheckRequests(self.config, net, outerError) + IoRequests(self.config)
    ensures self.variables == old(self.variables) + CheckVariables(self.config, net, outerError) + InitialValues(self.config)
    ensures self.actionsDefined && self.feedbacksDefined && self.pollIntervals == 1
    ensures self.relayStates == Poll(map[], self.config, net)
    ensures self.variableDefinitions == Catalogue()
  {
    var gate := Validate(self.config);
    if gate.Some? {
      self.UpdateStatus(gate.value);
    } else {
      TestConnection(self, net, outerError);
    }
    DefineAll(self, net);
  }

  /** `init(config)`. A missing configuration is replaced by empty fields and
      reported as BadConfig; nothing is requested then, since the poll needs a
      host. Otherwise the checks and the test run. Either way everything is
      defined and the poll timer exists. */
  method Init(self: ModuleInstance, config: Option<Config>, net: Network, outerError: Option<JsError>)
    requires self.Valid()
    modifies self`config, self`statusLog, self`actionsDefined, self`feedbacksDefined, self`relayStates,
      self`pollIntervals, self`requests, self`variableDefinitions, self`variables
    ensures self.Valid()
    ensures self.config == InitConfig(config)
    ensures IsMissing(config) ==>
      && self.statusLog == old(self.statusLog) + [Status(BadConfig, Some(ConfigRequired))]
      && self.requests == old(self.requests)
      && self.relayStates == map[]
      && self.variables == old(self.variables) + InitialValues(self.config)
    ensures !IsMissing(config) ==>
      && self.statusLog == old(self.statusLog) + CheckStatuses(self.config, net, outerError)
      && self.requests == old(self.requests) + CheckRequests(self.config, net, outerError) + IoRequests(self.config)
      && self.relayStates == Poll(map[], self.config, net)
      && self.variables == old(self.variables) + CheckVariables(self.config, net, outerError) + InitialValues(self.config)
    ensures self.actionsDefined && self.feedbacksDefined && self.pollIntervals == 1
    ensures self.variableDefinitions == Catalogue()
  {
    self.config := InitConfig(config);
    if IsMissing(config) {
      self.UpdateStatus(Status(BadConfig, Some(ConfigRequired)));
      DefineAll(self, net);
      return;
    }
    CheckAndDefine(self, net, outerError);
  }

  /** `configUpdated(config)`: the new configuration (or `{}`) replaces the
      old one, then the same checks, test and definitions as `init`, without
      the missing-configuration branch. The poll timer is not duplicated. */
  method ConfigUpdated(self: ModuleInstance, config: Option<Config>, net: Network, outerError: Option<JsError>)
    requires self.Valid()
    modifies self`config, self`statusLog, self`actionsDefined, self`feedbacksDefined, self`relayStates,
      self`pollIntervals, self`requests, self`variableDefinitions, self`variables
    ensures self.Valid()
    ensures self.config == UpdatedConfig(config)
    ensures self.statusLog == old(self.statusLog) + CheckStatuses(self.config, net, outerError)
    ensures self.requests == old(self.requests) + CheckRequests(self.config, net, outerError) + IoRequests(self.config)
    ensures self.variables == old(self.variables) + CheckVariables(self.config, net, outerError) + InitialValues(self.config)
    ensures self.actionsDefined && self.feedbacksDefined && self.pollIntervals == 1
    ensures self.relayStates == Poll(map[], self.config, net)
    ensures self.variableDefinitions == Catalogue()
  {
    self.config := UpdatedConfig(config);
    CheckAndDefine(self, net, outerError);
  }

  /** `destroy`: only `connection_status` changes, to 'Disconnected'. */
  method Destroy(self: ModuleInstance)
    modifies self`variables
    ensures self.variables == old(self.variables)["connection_status" := "Disconnected"]
  {
    self.SetVariableValues(map["connection_status" := "Disconnected"]);
  }

  /** `forceEnable`: Ok 'Force enabled', the definitions, and then the
      connection test when host and apiKey are set (without the whitespace
      checks). */
  method ForceEnable(self: ModuleInstance, net: Network, outerError: Option<JsError>)
    requires self.Valid()
    modifies self`statusLog, self`actionsDefined, self`feedbacksDefined, self`relayStates,
      self`pollIntervals, self`requests, self`variableDefinitions, self`variables
    ensures self.Valid()
    ensures self.statusLog == old(self.statusLog) + [Status(Ok, Some("Force enabled"))]
      + (if Complete(self.config) then ConnectionStatuses(self.config, net, outerError) else [])
    ensures self.requests == old(self.requests) + IoRequests(self.config)
      + (if Complete(self.config) then ConnectionRequests(self.config, net, outerError) else [])
    ensures self.variables == old(self.variables) + InitialValues(self.config)
      + ConnectionVariables(self.config, net, outerError)
    ensures self.actionsDefined && self.feedbacksDefined && self.pollIntervals == 1
    ensures self.relayStates == Poll(map[], self.config, net)
    ensures self.variableDefinitions == Catalogue()
  {
    self.UpdateStatus(Status(Ok, Some("Force enabled")));
    DefineAll(self, net);
    if Complete(self.config) {
      TestConnection(self, net, outerError);
    }
  }
}
