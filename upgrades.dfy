/** upgrades.js: the single upgrade script, which fills in a default host and
    an empty apiKey on a copy of a stored configuration. */
module Upgrades {
  import opened Strings
  import opened Device

  const DefaultHost := "192.168.1.100"

  /** What an upgrade script returns. The action and feedback lists hold the
      ids of upgraded actions and feedbacks; this script never upgrades any. */
  datatype UpgradeResult = UpgradeResult(
    updatedConfig: Option<Config>,
    updatedActions: seq<string>,
    updatedFeedbacks: seq<string>)

  /** A configuration needs the script when host or apiKey is falsy. */
  predicate NeedsDefaults(c: Config) {
    !Truthy(c.host) || !Truthy(c.apiKey)
  }

  /** The copy with defaults: a falsy host becomes the default address, a
      falsy apiKey becomes ''; every other field is copied. */
  function WithDefaults(c: Config): Config {
    c.(host := if Truthy(c.host) then c.host else Some(DefaultHost),
       apiKey := if Truthy(c.apiKey) then c.apiKey else Some(""))
  }

  /** The upgrade script. `props` is `props.config`, absent when null or
      undefined. The configuration is a value, so the caller's object is never
      changed: the script edits its own copy field by field. */
  method UpgradeConfig(props: Option<Config>) returns (result: UpgradeResult)
    ensures result.updatedActions == [] && result.updatedFeedbacks == []
    ensures props.None? ==> result.updatedConfig.None?
    ensures props.Some? ==>
      (result.updatedConfig.Some? <==> NeedsDefaults(props.value))
    ensures result.updatedConfig.Some? ==> result.updatedConfig.value == WithDefaults(props.value)
  {
    result := UpgradeResult(None, [], []);
    if props.Some? {
      var needsUpdate := false;
      var config := props.value;
      if !Truthy(config.host) {
        config := config.(host := Some(DefaultHost));
        needsUpdate := true;
      }
      if !Truthy(config.apiKey) {
        config := config.(apiKey := Some(""));
        needsUpdate := true;
      }
      if needsUpdate {
        result := result.(updatedConfig := Some(config));
      }
    }
  }

  /** After the script the host is set, the apiKey is present, truthy fields
      are kept and the other fields are untouched. */
  lemma WithDefaultsFields(c: Config)
    ensures Truthy(WithDefaults(c).host)
    ensures WithDefaults(c).apiKey.Some?
    ensures Truthy(c.host) ==> WithDefaults(c).host == c.host
    ensures Truthy(c.apiKey) ==> WithDefaults(c).apiKey == c.apiKey
    ensures WithDefaults(c).others == c.others
  {
  }

  /** Running the script on its own output gives the same fields again, and
      the output is flagged again exactly when its apiKey is '' (an empty
      string is falsy). */
  lemma ReapplyingDefaults(c: Config)
    ensures WithDefaults(WithDefaults(c)) == WithDefaults(c)
    ensures NeedsDefaults(WithDefaults(c)) <==> WithDefaults(c).apiKey == Some("")
    ensures NeedsDefaults(WithDefaults(c)) <==> !Truthy(c.apiKey)
  {
  }
}
