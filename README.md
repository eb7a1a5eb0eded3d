# IPX800 relay module for Companion, modelled in Dafny

This project models the device-facing logic of the IPX800 module for
Bitfocus Companion. It covers:

- the lifecycle of a module instance: `init`, `configUpdated`,
  `testConnection`, `getRelayList`, `destroy` and `forceEnable`;
- the relay state store and its poll, with the two boolean feedbacks that
  read it;
- the `relay_control` and `relay_toggle` actions on the device's command API;
- the variable catalogue;
- the configuration upgrade script;
- the older single-file entry point `index.js`.

The device's HTTP API is abstracted as a `Network`, a function from URL to
`Reply`. A reply is a response with a status and a body (a JSON array of I/O
records, other JSON, or an unparsable body), or a rejected request. Framework
calls on the instance are recorded on `Companion.ModuleInstance`:

- `updateStatus` appends to a status log;
- `setVariableValues` merges into a variable map;
- every `fetch` appends its URL to a request log.

The two timers are counters: the poll interval (at most one exists), and the
pending 5-second status resets.

Module layout:

| module | contents |
|---|---|
| `Strings` | JavaScript truthiness, template interpolation, `toLowerCase`/`toUpperCase`, `includes`, `trim`, number-to-text |
| `Device` | the configuration, I/O records, replies, and the I/O table URL |
| `Relays` | the command-relay name classifier shared by main.js and feedbacks.js; sample names live in `RelaySamples` |
| `Companion` | the state of a `ModuleInstance` and the framework calls |
| `Variables` | variables.js |
| `Feedbacks` | feedbacks.js |
| `Actions` | actions.js |
| `Upgrades` | upgrades.js |
| `Main` | main.js |
| `Index` | index.js |

Relay numbers 1..32 (actions and variables) and device `_id`s (the state
store and the feedbacks) are kept as separate key spaces.

The proofs bring out three behaviours of the code that are easy to miss:

- A host made only of spaces is refused by the `init` checks, but it is
  truthy. The feedback setup that runs right after the refusal still polls
  that host (`Main.WhitespaceHostStillPolled`).
- A record without a name is never classified as a relay. The
  `Relay ${_id}` label fallback of `getRelayList` is therefore never used
  (`Main.DirectoryLabelsUseNames`).
- The legacy `index.js` action accepts an ok response whose body is not
  JSON. The current `relay_control` reports that as a failure
  (`Index.LegacyIgnoresBody`).

## Model

| member | source | states |
|---|---|---|
| Relays.IsCommandRelayName | main.js:157-161 | definition of the classifier: the name, or '' when missing, lower-cased, contains "relay cmd" or "relay command", or contains "relay" and neither "state" nor "input" |
| Strings.ToLower | main.js:158 | definition of `toLowerCase`, character by character (ASCII letters only) |
| Strings.Contains | main.js:159-161 | definition of `includes`: the substring is a prefix of some suffix |
| Strings.Trim | main.js:39 | definition of `trim`: leading and trailing JavaScript whitespace and line terminators are removed |
| Strings.NatToString | feedbacks.js:21 | the decimal text of an `_id`: non-empty and all digits |
| Device.Complete | feedbacks.js:10 | definition of the guard: host and apiKey are both truthy |
| Device.IoUrl | feedbacks.js:12 | definition of the I/O table URL `http://${host}/api/core/io?ApiKey=${apiKey}` |
| Device.IoTable | feedbacks.js:14-16 | definition: an ok response whose body is a JSON array yields its records; anything else yields none |
| Feedbacks.ApplyRelays | feedbacks.js:20-22 | definition of the `forEach`: each relay, in order, writes 'ON' or 'OFF' under `String(_id)` |
| Feedbacks.Polled | feedbacks.js:14-27 | definition: an ok array reply applies its command relays to the store; any other reply leaves the store as it was |
| Feedbacks.Poll | feedbacks.js:10-22 | definition: without host or apiKey nothing changes; otherwise the reply to the I/O table URL is applied |
| Feedbacks.RelayStatus | feedbacks.js:56-59 | definition of `relay_status`: the stored state of the id is 'ON' |
| Feedbacks.ExpectedState | feedbacks.js:91 | definition: 'on' expects 'ON', anything else 'OFF' |
| Feedbacks.RelayStateMatches | feedbacks.js:89-93 | definition of `relay_state`: the stored state of the id equals the expected state |
| Actions.CommandValue | actions.js:29 | definition: 1 when the state is 'on', 0 otherwise |
| Actions.SetUrl | actions.js:30 | definition of the set URL `...xdevices.json?key=${apiKey}&SetR${relay}=${value}` |
| Actions.ToggleUrl | actions.js:69 | definition of the toggle URL `...&ToggleR${relay}=1` |
| Actions.ControlSucceeded | actions.js:36-45 | definition: `relay_control` succeeds on an ok response whose body parses as JSON |
| Actions.RequestError | actions.js:36-37 | definition: the message of the rejection, or `HTTP ${status}: ${statusText}` for a non-ok response |
| Actions.ControlError | actions.js:36-47 | definition: the parse error of an ok response, otherwise the request error |
| Actions.FailureStatus | actions.js:48 | definition: ConnectionFailure with "Request failed: " and the error message |
| Upgrades.NeedsDefaults | upgrades.js:19-29 | definition: host or apiKey is falsy |
| Upgrades.WithDefaults | upgrades.js:16-27 | definition of the edited copy: a falsy host becomes '192.168.1.100', a falsy apiKey becomes '', every other field is copied |
| Variables.RelayVariableId | variables.js:7 | definition of `relay_${i}_state` |
| Variables.Catalogue | variables.js:3-17 | definition of the list: relays 1..32 in ascending order, then the three general variables |
| Variables.InitialValues | variables.js:22-25 | definition: `connection_status` 'Connected' and `ipx800_host` the host or 'Not configured' |
| Main.IsMissing | main.js:25 | definition: no configuration object, or one without any key |
| Main.InitConfig | main.js:21-30 | definition: a missing configuration is replaced by an empty host and apiKey; otherwise it is kept |
| Main.UpdatedConfig | main.js:82 | definition of `config \|\| {}` |
| Main.Blank | main.js:39 | definition: `!field \|\| field.trim() === ''` |
| Main.Validate | main.js:39-53 | definition of the checks: a blank host gives BadConfig "IP address is required", then a blank apiKey gives BadConfig "API Key is required" |
| Main.TestUrls | main.js:194-198 | definition of the three probe URLs: info, io and devices |
| Main.ReadyMessage | main.js:237-242 | definition: "Ready - " and the error message, or "Connection timeout" for an `AbortError` |
| Main.ConnectionStatuses | main.js:183-243 | definition: BadConfig "Configuration incomplete" without host or apiKey; otherwise Connecting, then Ok with "Ready - ..." for an escaping error, "Connected" after an ok probe, or "Ready - No working endpoint found" |
| Main.ConnectionRequests | main.js:194-229 | definition: the probes up to and including the first ok one; none without host or apiKey or after an escaping error |
| Main.ConnectionVariables | main.js:212-223 | definition: `connection_status` 'Connected' and `ipx800_host` the host, only after an ok probe |
| Main.CheckStatuses | main.js:38-56 | definition: the failed check's status, or the statuses of the connection test |
| Main.ChoiceOf | main.js:163-166 | definition of one choice: the id is `String(_id)`; the label is the name, or "Relay " and the id when the name is falsy, followed by " (ID: ", the id and ")" |
| Main.RelayDirectory | main.js:156-166 | definition: the choices of the command relays, in table order |
| Main.Directory | main.js:151-177 | definition: the directory of an ok array reply; [] for any other reply |
| Strings.Truthy | main.js:39 | definition of JavaScript truthiness for a string field: present and non-empty |
| Strings.Interpolate | feedbacks.js:12 | definition of `${field}` in a template: the text, or "undefined" when the field is absent |
| Strings.ToUpper | actions.js:44 | definition of `toUpperCase`, character by character (ASCII letters only) |
| Device.IoRequests | feedbacks.js:10-13 | definition: no request without host or apiKey, otherwise the one request for the I/O table URL |
| Feedbacks.StateText | feedbacks.js:21 | definition: 'ON' for a truthy `on`, 'OFF' otherwise |
| Variables.RelayVariableName | variables.js:8 | definition of `Relay ${i} State` |
| Main.CheckRequests | main.js:38-56 | definition: no request when a check fails, otherwise the requests of the connection test |
| Main.CheckVariables | main.js:38-56 | definition: no variable when a check fails, otherwise the variables of the connection test |
| Index.LegacyFails | index.js:42-44 | definition: the legacy callback fails exactly on a non-ok or rejected request |
| Strings.TrimEmptyIffWhitespace | main.js:39 | `s.trim() === ''` holds exactly when every character of `s` is JavaScript whitespace |
| Strings.ContainsIffOccurs | main.js:158-161 | `includes` holds exactly when the substring occurs at some offset |
| Strings.LowerForgetsCase | main.js:158 | lower-casing ignores earlier case changes and is idempotent |
| Strings.ParseNatToString | feedbacks.js:21 | the decimal text a numeric `_id` is coerced to reads back as the same number |
| Strings.NatToStringInjective | feedbacks.js:21 | different ids give different store keys |
| Relays.CommandRelays | main.js:156-162 | the filter keeps exactly the records whose name passes the classifier, and is no longer than its input |
| Relays.CommandRelaysAppend | main.js:156-162 | filtering keeps the order of the table: filtering two tables joined gives the two results joined |
| Relays.ExclusionRejects | main.js:159-161 | a name with neither "relay cmd" nor "relay command" but with "state" or "input" is rejected |
| Relays.MissingNameRejected | main.js:158 | a record without a name (read as '') or with an empty one is never a command relay |
| Relays.AcceptedNameMentionsRelay | main.js:158-161 | every accepted name, lower-cased, contains "relay", whichever clause accepted it |
| Relays.ClassificationIgnoresCase | main.js:158 | a name and its upper-cased form are classified alike |
| RelaySamples.CommandRelayNameKept | feedbacks.js:16-19 | "Relay Cmd 1" is a command relay |
| RelaySamples.InputNameRejected | feedbacks.js:16-19 | "Input 1" is not a command relay |
| RelaySamples.StateNameRejected | feedbacks.js:16-19 | "Relay State 1" is not a command relay |
| RelaySamples.CommandClauseWinsOverState | main.js:159 | "Relay Cmd State" is kept: the "relay cmd" clause wins over the "state" exclusion |
| Feedbacks.PollRelayStates | feedbacks.js:8-28 | the poll requests the I/O table only when host and apiKey are set; it updates the store in place, relay by relay, to the specification function `Poll`, and keeps every stored value "ON" or "OFF" |
| Feedbacks.UpdateFeedbacks | feedbacks.js:3-34 | the setup empties the store and creates the poll timer only when none exists, so a rerun never adds a second timer; it then polls once and defines the feedbacks |
| Feedbacks.ApplyRelaysValid | feedbacks.js:20-22 | a poll stores only "ON" or "OFF" |
| Feedbacks.ApplyRelaysUntouched | feedbacks.js:20-22 | a key that no listed relay has keeps its value, or stays absent |
| Feedbacks.ApplyRelaysLastWins | feedbacks.js:20-22 | when a payload repeats an id, the last occurrence decides the stored state |
| Feedbacks.ApplyRelaysKeys | feedbacks.js:20-22 | the keys after a poll are the old keys plus the keys of the listed relays |
| Feedbacks.FailedPollKeepsStore | feedbacks.js:14-27 | a non-ok response, a body that is not an array, or a rejected request leaves the store as it was |
| Feedbacks.PollKeepsUnlistedIds | feedbacks.js:16-22 | an id that no command relay of the payload carries keeps its previous value; non-relay records never touch the store |
| Feedbacks.UnknownIdMatchesNothing | feedbacks.js:56-93 | an id never polled is neither on nor off for both feedbacks: unknown is not "OFF" |
| Feedbacks.PolledIdMatchesExactlyOne | feedbacks.js:89-93 | for a polled id exactly one of the expectations 'on' and 'off' matches, and `relay_status` agrees with 'on' |
| Feedbacks.FeedbackReflectsDevice | feedbacks.js:20-93 | after a successful poll both feedbacks show the state the device reported for that id |
| Feedbacks.DefaultRelayReportedOff | feedbacks.js:51-93 | with the default choice '65536' reported off, `relay_state` matches 'off' and not 'on', and `relay_status` is false |
| Actions.SetUrlEncodesValue | actions.js:29-30 | the set URL carries the command prefix and ends in "=1" exactly when the state is 'on', "=0" otherwise |
| Actions.SetUrlInjective | actions.js:30 | the set URL determines the relay number and the value |
| Actions.ToggleUrlInjective | actions.js:69 | the toggle URL determines the relay number |
| Actions.SetUrlIsNotToggleUrl | actions.js:30-69 | a set command is never a toggle command |
| Actions.RelayNumberHasVariable | actions.js:12-44 | every relay number an action accepts names a variable of the catalogue |
| Actions.RelayControl | actions.js:27-53 | one request to the set URL; on an ok response with a JSON body only `relay_N_state` changes, to the upper-cased state; otherwise no variable changes, the status becomes ConnectionFailure "Request failed: …" and a reset is pending |
| Actions.RelayToggle | actions.js:67-86 | one request to the toggle URL; success sets no variable; failure is handled as in `relay_control` |
| Actions.ReportFailure | actions.js:46-51 | the failure status is appended and one reset is scheduled |
| Actions.StatusResetTimer | actions.js:49-51 | a pending reset sets the status to Ok with no message |
| Actions.UpdateActions | actions.js:3-4 | the actions are defined |
| Variables.BuildDefinitions | variables.js:3-17 | the loop builds exactly the catalogue |
| Variables.CatalogueLayout | variables.js:5-17 | 35 entries: relay i at position i-1, with id `relay_i_state` and name "Relay i State", then the three general variables |
| Variables.RelayVariableIdInjective | variables.js:7 | different relays have different variable ids |
| Variables.GeneralIdIsNotRelayId | variables.js:7-17 | no general variable id looks like a relay variable id |
| Variables.CatalogueIdsDistinct | variables.js:5-17 | all 35 variable ids are distinct |
| Variables.UpdateVariableDefinitions | variables.js:19-25 | the catalogue is defined; only `connection_status` ('Connected') and `ipx800_host` (the host, or 'Not configured') are set |
| Upgrades.UpgradeConfig | upgrades.js:6-35 | without a configuration the result is null with empty lists; otherwise the result holds the defaulted copy exactly when a field was falsy |
| Upgrades.WithDefaultsFields | upgrades.js:16-27 | the copy has a truthy host and an apiKey; truthy fields and all other fields are kept |
| Upgrades.ReapplyingDefaults | upgrades.js:19-31 | rerunning on the output gives the same fields, and flags it again exactly when the apiKey is '' |
| Main.BlankIffWhitespace | main.js:39-47 | a field fails the check exactly when it is absent or whitespace only |
| Main.ValidateAccepts | main.js:39-53 | the checks pass exactly when host and apiKey both hold a non-whitespace character; the host is reported first; a configuration that passes is complete |
| Main.WhitespaceHostStillPolled | main.js:39-44 | a whitespace-only host is refused, yet the feedback setup still requests the I/O table from it |
| Main.TestUrlsDistinct | main.js:194-198 | the three probe URLs differ, and the second is the I/O table URL |
| Main.FirstOk | main.js:203-225 | the index of the first URL with an ok response: every earlier one failed |
| Main.ConnectionTestKeepsModuleActive | main.js:183-243 | with host and apiKey set the test starts with Connecting, reports only Connecting or Ok, and ends on Ok; an error reaching the outer handler gives Connecting then Ok "Ready - ..." with no probe; without host or apiKey it is BadConfig "Configuration incomplete" with no request |
| Main.ProbeStopsAtFirstOk | main.js:194-234 | probes go in order and stop at the first ok response; the test gives up only after all three; it ends on "Connected" exactly when some endpoint answers ok, and then the last probe is the first ok one and the variables are set; otherwise it ends on "Ready - No working endpoint found" |
| Main.TestConnection | main.js:180-245 | the loop issues exactly the probes of `ConnectionRequests`, reports `ConnectionStatuses` and sets `ConnectionVariables` |
| Main.DirectoryAppend | main.js:156-166 | the directory keeps the order of the table |
| Main.DirectoryLabelsUseNames | main.js:163-166 | every choice has id `String(_id)` and label "<name> (ID: <_id>)" |
| Main.DirectoryIds | main.js:164 | the directory's ids are the store keys of the command relays |
| Main.DirectoryIdsAreStoreKeys | main.js:156-166 | the directory offers exactly the ids a poll of the same table adds to the store |
| Main.GetRelayList | main.js:134-178 | no request and `[]` without host or apiKey; otherwise one request, and `[]` on any failure |
| Main.DefineAll | main.js:58-60 | actions, feedbacks and variables are defined; one poll timer exists |
| Main.CheckOutcome | main.js:39-60 | the final status is BadConfig exactly when the checks fail (host before apiKey), and Ok otherwise; a failed check causes no probe |
| Main.CheckAndDefine | main.js:38-60 | checks, then the test only when they pass, then the definitions |
| Main.Init | main.js:20-61 | a missing or empty configuration becomes empty host and apiKey, with BadConfig and no request; otherwise the checks and the test; everything is defined in both cases |
| Main.ConfigUpdated | main.js:81-107 | stores `config` or `{}`, then the same checks, test and definitions as `init` |
| Main.Destroy | main.js:64-79 | only `connection_status` changes, to 'Disconnected' |
| Main.ForceEnable | main.js:248-260 | Ok "Force enabled", the definitions, then the test when host and apiKey are set |
| Index.LegacyIgnoresBody | index.js:42-45 | a legacy failure is also a current failure; an ok response with a non-JSON body is accepted by the legacy action only |
| Index.IPX800Instance.Init | index.js:5-11 | stores the configuration unchecked, reports OK and defines the action |
| Index.IPX800Instance.RelayControl | index.js:34-50 | without a configuration the callback is rejected with no request; otherwise one request to the set URL, and "Request failed" on a non-ok or rejected request, with no reset |
| Index.IPX800Instance.ConfigUpdated | index.js:81-84 | stores the configuration with no check and no status change |

## Left out

- Real HTTP is not modelled: `node-fetch`, the AbortController, the 2 and 5 second timeouts, and `response.json()`. A reply is an abstract value. A timeout or an abort shows up as a rejected request.
- A failure to load `node-fetch` is not modelled. actions.js:1 loads it at module scope, outside any `try`, and main.js:3 loads actions.js, so such a failure stops the module from loading at all. Once it has loaded, the module cache means the later `require` calls (main.js:141, main.js:188, feedbacks.js:11) cannot fail.
- Main.TestConnection: the error that reaches the outer handler (main.js:236-243) is an input, `outerError`. It is raised after the Connecting status and before the first probe, where main.js:200-201 sets up the AbortController and its timer. An error escaping from a probe is caught per probe at main.js:226-228 and is modelled as a failed probe.
- Timers run no code on their own. The poll interval is a counter. The 5-second reset is a pending count that `Actions.StatusResetTimer` consumes. The 500 ms repetition of the poll is not modelled.
- `updateFeedbacks` is not awaited in main.js. The model runs its first poll to completion before the variables are defined, so the interleaving of that poll with the rest of `init` is not modelled.
- The framework classes and `runEntrypoint` are not modelled, and neither are `log`, `checkFeedbacks`, `combineRgb`, `Regex.IP`, the dropdown `choices` and the config-field descriptions. The status constants are taken by name.
- Actions.ReportFailure: actions.js:48, 50, 81 and 83 read `self.InstanceStatus`, which no file of the module defines. main.js:1 imports `InstanceStatus` as a module binding and never assigns it to the instance. The model assumes the instance provides it. If it does not, the handler throws a TypeError and the callback rejects, so neither the ConnectionFailure status nor the 5-second reset happens. index.js:9, 48 and 57 (`this.STATUS_OK`, `this.STATUS_ERROR`) rest on the same assumption, which `Index.IPX800Instance.Init` and `Index.IPX800Instance.RelayControl` make too.
- The import sanity check at main.js:8-10 is not modelled.
- `Strings.ToLower` and `Strings.ToUpper` map ASCII letters only. JavaScript case mapping of other scripts is not modelled.
- Strings.LowerForgetsCase: holds for the ASCII mapping only. In JavaScript, `'ß'.toUpperCase()` is "SS", so lower-casing after upper-casing gives "ss", not "ß".
- Relays.ClassificationIgnoresCase: holds for the ASCII mapping only. In JavaScript, 'ı' (U+0131) upper-cases to 'I', so main.js:161 accepts "Relay ınput" but rejects its upper-cased form "RELAY INPUT".
- Device.Config merges an absent key and a key whose value is `undefined`. `Object.keys` counts the second one, so `Main.IsMissing` treats such a configuration as empty when main.js would not.
- Device.IoRecord: every item of the I/O array is an object with a numeric `_id`. The model leaves out three other kinds of item:
  - A primitive item other than null and undefined has no `name`. The filters at main.js:158 and feedbacks.js:17 read it as '' and drop it silently, which is what the model does for a record without a name.
  - A null or undefined item makes the filter throw. The poll then changes nothing, and `getRelayList` returns [].
  - A kept record without `_id` is not modelled. The poll stores it under the key "undefined" (feedbacks.js:21), and `getRelayList` throws at main.js:164 and returns [].
  A non-boolean `on` is taken by its truthiness.
- Device.DeviceId: `_id` is a non-negative integer below 2^53. In that range `String(_id)` is the plain decimal text that `Strings.NatToString` gives. Larger ids are merged by JSON parsing, and JavaScript writes ids from 10^21 up as "1e+21". So `Strings.NatToStringInjective` speaks about store keys only for ids in this range.
- The `Init failed` status of index.js:55-58 is not modelled: nothing the model can see throws there.
- The `last_command` variable is defined but never written by the code, and the model reflects that.
- Device.Network: the device is one fixed function from URL to reply. Two requests for the same URL within one call therefore get the same reply: the probe at main.js:196 and the poll at feedbacks.js:12 during one `init`, for example. A real device may answer them differently. The contracts imply such facts, for example that after "No working endpoint found" the store is empty at the end of `init`, but no lemma relies on them.
- create-github-release.js and create-companion-package.js are not part of this model. They are release tooling.
