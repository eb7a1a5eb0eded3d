/** feedbacks.js: the relay state store `self.relayStates`, the poll that
    fills it, the guard around the poll timer, and the two boolean feedbacks
    that read it. The store is keyed by the device `_id` written as a decimal
    string, not by the relay number 1..32 the actions use. */
module Feedbacks {
  import opened Strings
  import opened Device
  import opened Relays
  import RelaySamples
  import opened Companion

  /** The text stored for a relay: `relay.on ? 'ON' : 'OFF'`. */
  function StateText(on: bool): string {
    if on then "ON" else "OFF"
  }

  /** `self.relayStates[relay._id]` coerces the numeric `_id` to its decimal
      text. */
  function StoreKey(id: nat): string {
    NatToString(id)
  }

  /** The `forEach` over the filtered relays: each one, in order, overwrites
      its own key. */
  function ApplyRelays(store: map<string, string>, relays: seq<IoRecord>): map<string, string>
    decreases |relays|
  {
    if relays == [] then store
    else ApplyRelays(store[StoreKey(relays[0].id) := StateText(relays[0].on)], relays[1..])
  }

  /** The store after a reply to the poll request: an ok response carrying an
      I/O array updates the command relays it lists; any other reply (non-ok
      status, unparsable or non-array body, rejected request) leaves it as it
      was. */
  function Polled(store: map<string, string>, reply: Reply): map<string, string> {
    match IoTable(reply)
    case Some(items) => ApplyRelays(store, CommandRelays(items))
    case None => store
  }

  /** A whole poll: nothing is requested and nothing changes when host or
      apiKey is missing. */
  function Poll(store: map<string, string>, c: Config, net: Network): map<string, string> {
    if Complete(c) then Polled(store, net(IoUrl(c))) else store
  }

  // ---------------------------------------------------------------------------
  // Properties of the store update

  /** Polling stores only "ON" and "OFF". */
  lemma {:induction false} ApplyRelaysValid(store: map<string, string>, relays: seq<IoRecord>)
    requires StoreValid(store)
    ensures StoreValid(ApplyRelays(store, relays))
    decreases |relays|
  {
    if relays != [] {
      ApplyRelaysValid(store[StoreKey(relays[0].id) := StateText(relays[0].on)], relays[1..]);
    }
  }

  /** A key that no listed relay has keeps its previous value, or stays
      absent. */
  lemma {:induction false} ApplyRelaysUntouched(store: map<string, string>, relays: seq<IoRecord>, k: string)
    requires forall r :: r in relays ==> StoreKey(r.id) != k
    ensures k in ApplyRelays(store, relays) <==> k in store
    ensures k in store ==> ApplyRelays(store, relays)[k] == store[k]
    decreases |relays|
  {
    if relays != [] {
      assert relays[0] in relays;
      assert forall r :: r in relays[1..] ==> r in relays;
      ApplyRelaysUntouched(store[StoreKey(relays[0].id) := StateText(relays[0].on)], relays[1..], k);
    }
  }

  /** The key of the last listed relay with that key holds that relay's state:
      when a payload repeats an id, the last occurrence wins. */
  lemma {:induction false} ApplyRelaysLastWins(store: map<string, string>, relays: seq<IoRecord>, j: nat)
    requires j < |relays|
    requires forall i :: j < i < |relays| ==> StoreKey(relays[i].id) != StoreKey(relays[j].id)
    ensures StoreKey(relays[j].id) in ApplyRelays(store, relays)
    ensures ApplyRelays(store, relays)[StoreKey(relays[j].id)] == StateText(relays[j].on)
    decreases |relays|
  {
    var next := store[StoreKey(relays[0].id) := StateText(relays[0].on)];
    if j == 0 {
      forall r | r in relays[1..]
        ensures StoreKey(r.id) != StoreKey(relays[0].id)
      {
        var i :| 0 <= i < |relays[1..]| && relays[1..][i] == r;
        assert relays[i + 1] == r;
      }
      ApplyRelaysUntouched(next, relays[1..], StoreKey(relays[0].id));
    } else {
      assert relays[1..][j - 1] == relays[j];
      ApplyRelaysLastWins(next, relays[1..], j - 1);
    }
  }

  /** The keys after polling are the previous keys plus the keys of the listed
      relays. */
  lemma {:induction false} ApplyRelaysKeys(store: map<string, string>, relays: seq<IoRecord>)
    ensures ApplyRelays(store, relays).Keys == store.Keys + set r | r in relays :: StoreKey(r.id)
    decreases |relays|
  {
    if relays != [] {
      var next := store[StoreKey(relays[0].id) := StateText(relays[0].on)];
      ApplyRelaysKeys(next, relays[1..]);
      assert (set r | r in relays :: StoreKey(r.id))
          == {StoreKey(relays[0].id)} + set r | r in relays[1..] :: StoreKey(r.id);
    }
  }

  /** A poll that does not deliver an I/O array changes nothing. */
  lemma FailedPollKeepsStore(store: map<string, string>, reply: Reply)
    requires IoTable(reply).None?
    ensures Polled(store, reply) == store
  {
  }

  // ---------------------------------------------------------------------------
  // The two boolean feedbacks

  /** `relay_status`: the stored state of the chosen id is 'ON'. */
  function RelayStatus(store: map<string, string>, relayId: string): bool {
    relayId in store && store[relayId] == "ON"
  }

  /** The expected-state option: 'on' means 'ON', anything else 'OFF'. */
  function ExpectedState(option: string): string {
    if option == "on" then "ON" else "OFF"
  }

  /** `relay_state`: the stored state of the chosen id equals the expected
      state. */
  function RelayStateMatches(store: map<string, string>, relayId: string, option: string): bool {
    relayId in store && store[relayId] == ExpectedState(option)
  }

  /** An id the store has never seen is neither on nor off: unknown is not
      'OFF'. */
  lemma UnknownIdMatchesNothing(store: map<string, string>, relayId: string, option: string)
    requires relayId !in store
    ensures !RelayStatus(store, relayId)
    ensures !RelayStateMatches(store, relayId, option)
  {
  }

  /** For a polled id exactly one of the expectations 'on' and 'off' matches,
      and `relay_status` agrees with the expectation 'on'. */
  lemma PolledIdMatchesExactlyOne(store: map<string, string>, relayId: string)
    requires StoreValid(store) && relayId in store
    ensures RelayStateMatches(store, relayId, "on") != RelayStateMatches(store, relayId, "off")
    ensures RelayStatus(store, relayId) == RelayStateMatches(store, relayId, "on")
  {
  }

  /** After a successful poll, both feedbacks show what the device reported
      for the last command relay listed with that id. */
  lemma FeedbackReflectsDevice(store: map<string, string>, reply: Reply, j: nat)
    requires IoTable(reply).Some?
    requires j < |CommandRelays(IoTable(reply).value)|
    requires var relays := CommandRelays(IoTable(reply).value);
      forall i :: j < i < |relays| ==> StoreKey(relays[i].id) != StoreKey(relays[j].id)
    ensures var r := CommandRelays(IoTable(reply).value)[j];
      && RelayStatus(Polled(store, reply), StoreKey(r.id)) == r.on
      && RelayStateMatches(Polled(store, reply), StoreKey(r.id), if r.on then "on" else "off")
  {
    ApplyRelaysLastWins(store, CommandRelays(IoTable(reply).value), j);
  }

  /** An id that no command relay of the reply carries keeps what the store
      said before; records that are not command relays never touch the
      store. */
  lemma PollKeepsUnlistedIds(store: map<string, string>, reply: Reply, k: string)
    requires IoTable(reply).Some? ==>
      forall r :: r in IoTable(reply).value && IsCommandRelay(r) ==> StoreKey(r.id) != k
    ensures k in Polled(store, reply) <==> k in store
    ensures k in store ==> Polled(store, reply)[k] == store[k]
  {
    if IoTable(reply).Some? {
      ApplyRelaysUntouched(store, CommandRelays(IoTable(reply).value), k);
    }
  }

  /** The device reports its first command relay, `_id` 65536, as off: the
      feedbacks' default choice '65536' then matches the expectation 'off' and
      neither 'on' nor `relay_status`. */
  lemma DefaultRelayReportedOff()
    ensures var store := Polled(map[], Response(200, "OK", JsonArray([IoRecord(65536, Some("Relay Cmd 1"), false)])));
      && RelayStateMatches(store, "65536", "off")
      && !RelayStateMatches(store, "65536", "on")
      && !RelayStatus(store, "65536")
  {
    var reply := Response(200, "OK", JsonArray([IoRecord(65536, Some("Relay Cmd 1"), false)]));
    var r := IoRecord(65536, Some("Relay Cmd 1"), false);
    RelaySamples.CommandRelayNameKept();
    assert CommandRelays([r]) == [r];
    assert StoreKey(65536) == "65536";
    FeedbackReflectsDevice(map[], reply, 0);
  }

  // ---------------------------------------------------------------------------
  // The poll and the setup, on the instance

  /** `pollRelayStates`: the request, then the in-place update of the store,
      relay by relay. */
  method PollRelayStates(self: ModuleInstance, net: Network)
    requires self.Valid()
    modifies self`relayStates, self`requests
    ensures self.Valid()
    ensures self.relayStates == Poll(old(self.relayStates), self.config, net)
    ensures self.requests == old(self.requests) + IoRequests(self.config)
  {
    if !Complete(self.config) {
      return;
    }
    var reply := self.Fetch(IoUrl(self.config), net);
    if IoTable(reply).Some? {
      var relays := CommandRelays(IoTable(reply).value);
      var i := 0;
      while i < |relays|
        modifies self`relayStates
        invariant 0 <= i <= |relays|
        invariant ApplyRelays(self.relayStates, relays[i..]) == ApplyRelays(old(self.relayStates), relays)
      {
        assert relays[i..][1..] == relays[i + 1..];
        self.relayStates := self.relayStates[StoreKey(relays[i].id) := StateText(relays[i].on)];
        i := i + 1;
      }
      assert relays[i..] == [];
      ApplyRelaysValid(old(self.relayStates), relays);
    }
  }

  /** The exported function of feedbacks.js: empties the store, creates the
      poll timer only when none exists, polls once, then defines the two
      feedbacks. Running it again never adds a second timer. */
  method UpdateFeedbacks(self: ModuleInstance, net: Network)
    requires self.Valid()
    modifies self`relayStates, self`pollIntervals, self`requests, self`feedbacksDefined
    ensures self.Valid()
    ensures self.pollIntervals == 1
    ensures self.relayStates == Poll(map[], self.config, net)
    ensures self.requests == old(self.requests) + IoRequests(self.config)
    ensures self.feedbacksDefined
  {
    self.relayStates := map[];
    if self.pollIntervals == 0 {
      self.pollIntervals := 1;
    }
    PollRelayStates(self, net);
    self.feedbacksDefined := true;
  }
}
