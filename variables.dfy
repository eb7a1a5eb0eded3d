/** variables.js: the catalogue of published variables and their initial
    values. */
module Variables {
  import opened Strings
  import opened Device
  import opened Companion

  /** `relay_${i}_state`. */
  function RelayVariableId(i: nat): string {
    "relay_" + NatToString(i) + "_state"
  }

  /** `Relay ${i} State`. */
  function RelayVariableName(i: nat): string {
    "Relay " + NatToString(i) + " State"
  }

  const RelayCount: nat := 32

  /** The three general variables, in the order they are pushed. */
  const GeneralVariables: seq<VariableDefinition> := [
    VariableDefinition("connection_status", "Connection Status"),
    VariableDefinition("last_command", "Last Command Sent"),
    VariableDefinition("ipx800_host", "IPX800 Host IP")
  ]

  /** The full catalogue: relays 1..32 in ascending order, then the general
      variables. */
  function Catalogue(): seq<VariableDefinition> {
    seq(RelayCount, i requires 0 <= i < RelayCount =>
      VariableDefinition(RelayVariableId(i + 1), RelayVariableName(i + 1)))
    + GeneralVariables
  }

  /** The loop of variables.js: 32 relay entries pushed one by one, then the
      three general entries. */
  method BuildDefinitions() returns (variables: seq<VariableDefinition>)
    ensures variables == Catalogue()
  {
    variables := [];
    for i := 1 to RelayCount + 1
      invariant variables == Catalogue()[..i - 1]
    {
      variables := variables + [VariableDefinition(RelayVariableId(i), RelayVariableName(i))];
    }
    variables := variables + GeneralVariables;
  }

  /** The catalogue has 35 entries: relay i at position i - 1 with id
      `relay_i_state` and name "Relay i State", then the general variables. */
  lemma CatalogueLayout()
    ensures |Catalogue()| == 35
    ensures forall i :: 1 <= i <= 32 ==>
      Catalogue()[i - 1] == VariableDefinition(RelayVariableId(i), RelayVariableName(i))
    ensures Catalogue()[32..] == GeneralVariables
  {
  }

  /** Relay variable ids of different relays differ. */
  lemma RelayVariableIdInjective(i: nat, j: nat)
    requires RelayVariableId(i) == RelayVariableId(j)
    ensures i == j
  {
    var a, b := NatToString(i), NatToString(j);
    assert |a| == |b|;
    assert a == RelayVariableId(i)[6..6 + |a|];
    assert b == RelayVariableId(j)[6..6 + |b|];
    NatToStringInjective(i, j);
  }

  /** No general variable id has the shape of a relay variable id. */
  lemma GeneralIdIsNotRelayId(g: VariableDefinition, i: nat)
    requires g in GeneralVariables
    ensures g.variableId != RelayVariableId(i)
  {
    assert RelayVariableId(i)[0] == 'r';
    assert g.variableId[0] in {'c', 'l', 'i'};
  }

  /** All 35 variable ids are distinct. */
  lemma CatalogueIdsDistinct()
    ensures forall p, q :: 0 <= p < q < |Catalogue()| ==> Catalogue()[p].variableId != Catalogue()[q].variableId
  {
    var c := Catalogue();
    CatalogueLayout();
    forall p, q | 0 <= p < q < |c|
      ensures c[p].variableId != c[q].variableId
    {
      if q < 32 {
        if c[p].variableId == c[q].variableId {
          RelayVariableIdInjective(p + 1, q + 1);
        }
      } else if p < 32 {
        GeneralIdIsNotRelayId(c[q], p + 1);
      }
    }
  }

  /** `ipx800_host` shows the host, or 'Not configured' when it is falsy;
      `connection_status` starts as 'Connected'. No other variable is set. */
  function InitialValues(c: Config): map<string, string> {
    map["connection_status" := "Connected",
        "ipx800_host" := if Truthy(c.host) then c.host.value else "Not configured"]
  }

  /** The exported function of variables.js: defines the catalogue, then sets
      the initial values. */
  method UpdateVariableDefinitions(self: ModuleInstance)
    modifies self`variableDefinitions, self`variables
    ensures self.variableDefinitions == Catalogue()
    ensures self.variables == old(self.variables) + InitialValues(self.config)
    ensures self.variables["connection_status"] == "Connected"
    ensures self.variables["ipx800_host"] == (if Truthy(self.config.host) then self.config.host.value else "Not configured")
    ensures forall k :: k != "connection_status" && k != "ipx800_host" ==>
      (k in self.variables <==> k in old(self.variables)) && (k in self.variables ==> self.variables[k] == old(self.variables)[k])
  {
    var defs := BuildDefinitions();
    self.variableDefinitions := defs;
    self.SetVariableValues(InitialValues(self.config));
  }
}
