/** The name test that decides which records of the I/O table are command
    relays. main.js (the relay directory) and feedbacks.js (the state poll)
    apply the same test; it is defined once here. */
module Relays {
  import opened Strings
  import opened Device

  /** A name marks a command relay when, lower-cased, it mentions "relay cmd"
      or "relay command", or mentions "relay" and neither "state" nor "input".
      A missing name is read as the empty string. */
  predicate IsCommandRelayName(name: Option<string>) {
    var n := ToLower(if name.Some? then name.value else "");
    Contains(n, "relay cmd") || Contains(n, "relay command")
    || (Contains(n, "relay") && !Contains(n, "state") && !Contains(n, "input"))
  }

  predicate IsCommandRelay(r: IoRecord) {
    IsCommandRelayName(r.name)
  }

  /** `data.filter(...)` with the relay test: the command relays of a table,
      in table order. */
  function CommandRelays(items: seq<IoRecord>): (relays: seq<IoRecord>)
    ensures |relays| <= |items|
    ensures forall r :: r in relays <==> r in items && IsCommandRelay(r)
  {
    if items == [] then []
    else (if IsCommandRelay(items[0]) then [items[0]] else []) + CommandRelays(items[1..])
  }

  /** Filtering keeps table order: the relays of a concatenation are the
      relays of the first part followed by those of the second. */
  lemma {:induction false} CommandRelaysAppend(a: seq<IoRecord>, b: seq<IoRecord>)
    ensures CommandRelays(a + b) == CommandRelays(a) + CommandRelays(b)
    decreases |a|
  {
    if a == [] {
      assert a + b == b;
    } else {
      assert (a + b)[1..] == a[1..] + b;
      CommandRelaysAppend(a[1..], b);
    }
  }

  /** "state" and "input" exclude a name unless it mentions "relay cmd" or
      "relay command". */
  lemma ExclusionRejects(name: string)
    requires !Contains(ToLower(name), "relay cmd") && !Contains(ToLower(name), "relay command")
    requires Contains(ToLower(name), "state") || Contains(ToLower(name), "input")
    ensures !IsCommandRelayName(Some(name))
  {
  }

  /** A record without a name, or with an empty one, is never a relay. */
  lemma MissingNameRejected()
    ensures !IsCommandRelayName(None)
    ensures !IsCommandRelayName(Some(""))
  {
  }

  /** Every accepted name mentions "relay", whichever clause accepted it. */
  lemma AcceptedNameMentionsRelay(name: Option<string>)
    requires IsCommandRelayName(name)
    ensures Contains(ToLower(if name.Some? then name.value else ""), "relay")
  {
    var n := ToLower(if name.Some? then name.value else "");
    assert StartsWith("relay cmd", "relay");
    assert StartsWith("relay command", "relay");
    if Contains(n, "relay cmd") {
      ContainsTransitive(n, "relay cmd", "relay");
    } else if Contains(n, "relay command") {
      ContainsTransitive(n, "relay command", "relay");
    }
  }

  /** The test ignores letter case: a name and its upper-cased form are
      classified alike. */
  lemma ClassificationIgnoresCase(s: string)
    ensures IsCommandRelayName(Some(ToUpper(s))) == IsCommandRelayName(Some(s))
  {
    LowerForgetsCase(s);
  }
}

/** The relay test on names as the device reports them. */
module RelaySamples {
  import opened Strings
  import opened Relays

  /** Sample names as the device reports them: the command relay is kept, the
      input and the relay state are not, and "relay cmd" wins over the
      exclusion of "state". */
  lemma CommandRelayNameKept()
    ensures IsCommandRelayName(Some("Relay Cmd 1"))
  {
    assert ToLower("Relay Cmd 1") == "relay cmd 1";
    assert StartsWith("relay cmd 1", "relay cmd");
  }

  lemma InputNameRejected()
    ensures !IsCommandRelayName(Some("Input 1"))
  {
    assert ToLower("Input 1") == "input 1";
    AbsentCharExcludes("input 1", "relay cmd", 0);
    AbsentCharExcludes("input 1", "relay command", 0);
    AbsentCharExcludes("input 1", "relay", 0);
  }

  lemma StateNameRejected()
    ensures !IsCommandRelayName(Some("Relay State 1"))
  {
    var name := "Relay State 1";
    var n := ToLower(name);
    assert n == "relay state 1";
    assert n[6] == 's';
    assert !Contains(n, "relay cmd") by {
      AbsentCharExcludes(n, "relay cmd", 6);
    }
    assert !Contains(n, "relay command") by {
      AbsentCharExcludes(n, "relay command", 6);
    }
    assert Contains(n, "state") by {
      assert StartsWith(n[6..], "state");
      ContainsIffOccurs(n, "state");
    }
    ExclusionRejects(name);
  }

  lemma CommandClauseWinsOverState()
    ensures IsCommandRelayName(Some("Relay Cmd State"))
  {
    assert ToLower("Relay Cmd State") == "relay cmd state";
    assert StartsWith("relay cmd state", "relay cmd");
  }
}
