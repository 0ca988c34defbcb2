/** The ConfigMap that publishes the add-on's deployment configuration. */
module AddonConfigMap {
  import opened Basics
  import opened DiscoveryConfig

  type Data = map<string, string>

  const CREATED := "created-at"
  const UPDATED := "last-updated"
  const IMPORT := "configureMceImport"
  const VAR := "var-"

  datatype Addon = Addon(name: string, namespace: string, spec: Spec)

  predicate IsTimestamp(key: string) {
    key == CREATED || key == UPDATED
  }

  /** getConfigureMceImportValue: the first entry of that name */
  function ImportValue(variables: seq<Variable>): string {
    if variables == [] then "not-set"
    else if variables[0].name == IMPORT then variables[0].value
    else ImportValue(variables[1..])
  }

  /** The fixed entries */
  function Fixed(a: Addon): Data {
    var importValue := ImportValue(a.spec.variables);
    map["config-name" := a.name, "config-namespace" := a.namespace, "install-namespace" := a.spec.installNamespace,
        IMPORT := importValue, "import-enabled" := if importValue == "true" then "true" else "false"]
  }

  function WithVariables(d: Data, variables: seq<Variable>): Data {
    if variables == [] then d
    else
      var last := variables[|variables| - 1];
      WithVariables(d, variables[..|variables| - 1])[VAR + last.name := last.value]
  }

  function Desired(a: Addon): Data {
    WithVariables(Fixed(a), a.spec.variables)
  }

  /** The entries other than the timestamps */
  function Plain(d: Data): Data {
    map k <- d | !IsTimestamp(k) :: d[k]
  }

  /** What is written over existing data that is not as desired */
  function Refreshed(was: Data, desired: Data, now: string): Data {
    (map k <- was | IsTimestamp(k) :: was[k]) + desired + map[UPDATED := now]
  }

  /** The hub's ConfigMap, and how often it was written */
  class Hub {
    var stored: Option<Data>
    var writes: nat

    method Write(d: Data, fails: bool) returns (ok: bool)
      modifies this
      ensures ok == !fails && writes == old(writes) + 1 && stored == if ok then Some(d) else old(stored)
    {
      writes := writes + 1;
      if !fails { stored := Some(d); }
      ok := !fails;
    }

    /** createOrUpdateAddonConfigMap */
    method CreateOrUpdate(a: Addon, getFails: bool, writeFails: bool, now: string) returns (ok: bool)
      modifies this
      ensures var current := old(stored).Some? && Plain(old(stored.value)) == Desired(a);
        && (ok <==> !getFails && (current || !writeFails))
        && writes == old(writes) + (if getFails || current then 0 else 1)
        && stored == if !ok || current then old(stored)
             else if old(stored).None? then Some(Desired(a)[CREATED := now])
             else Some(Refreshed(old(stored.value), Desired(a), now))
    {
      var desired := DesiredData(a);
      if getFails { return false; }
      if stored.None? {
        ok := Write(desired[CREATED := now], writeFails);
        return;
      }
      DesiredHasNoTimestamp(a);
      hide Desired;
      var data := new ConfigMap(stored.value);
      var needsUpdate := data.Differs(desired);
      if !needsUpdate { return true; }
      data.Replace(desired, now);
      ok := Write(data.data, writeFails);
    }
  }

  method ImportValueOf(variables: seq<Variable>) returns (value: string)
    ensures value == ImportValue(variables)
  {
    for i := 0 to |variables|
      invariant ImportValue(variables) == ImportValue(variables[i..])
    {
      assert variables[i..][1..] == variables[i + 1..];
      if variables[i].name == IMPORT { return variables[i].value; }
    }
    value := "not-set";
  }

  method DesiredData(a: Addon) returns (desired: Data)
    ensures desired == Desired(a)
  {
    var importValue := ImportValueOf(a.spec.variables);
    desired := map["config-name" := a.name, "config-namespace" := a.namespace,
                   "install-namespace" := a.spec.installNamespace,
                   IMPORT := importValue, "import-enabled" := if importValue == "true" then "true" else "false"];
    assert desired == Fixed(a);
    hide Fixed;
    for i := 0 to |a.spec.variables|
      invariant desired == WithVariables(Fixed(a), a.spec.variables[..i])
    {
      assert a.spec.variables[..i + 1][..i] == a.spec.variables[..i];
      desired := desired[VAR + a.spec.variables[i].name := a.spec.variables[i].value];
    }
    assert a.spec.variables[..|a.spec.variables|] == a.spec.variables;
  }

  /** The object as fetched, edited in place. The two maps are walked in arbitrary order. */
  class ConfigMap {
    var data: Data

    constructor (data: Data)
      ensures this.data == data
    {
      this.data := data;
    }

    method Differs(desired: Data) returns (needsUpdate: bool)
      requires forall k <- desired :: !IsTimestamp(k)
      ensures needsUpdate <==> Plain(data) != desired
    {
      hide IsTimestamp;
      needsUpdate := false;
      var rest := desired.Keys;
      while rest != {}
        invariant rest <= desired.Keys
        invariant forall k <- desired.Keys - rest :: k in data && data[k] == desired[k]
      {
        var key :| key in rest;
        if key !in data || data[key] != desired[key] {
          assert key !in Plain(data) || Plain(data)[key] != desired[key];
          return true;
        }
        rest := rest - {key};
      }
      rest := data.Keys;
      while rest != {}
        invariant rest <= data.Keys
        invariant forall k <- data.Keys - rest :: IsTimestamp(k) || k in desired
      {
        var key :| key in rest;
        if !IsTimestamp(key) && key !in desired {
          assert key in Plain(data);
          return true;
        }
        rest := rest - {key};
      }
      assert Plain(data) == desired;
    }

    method Replace(desired: Data, now: string)
      modifies this
      ensures data == Refreshed(old(data), desired, now)
    {
      hide IsTimestamp;
      var was := data;
      var rest := data.Keys;
      while rest != {}
        invariant rest <= data.Keys <= was.Keys
        invariant forall k <- data :: data[k] == was[k]
        invariant forall k <- was :: k in data <==> k in rest || IsTimestamp(k)
      {
        var key :| key in rest;
        if !IsTimestamp(key) {
          data := data - {key};
        }
        rest := rest - {key};
      }
      ghost var kept := map k <- was | IsTimestamp(k) :: was[k];
      assert data == kept;
      rest := desired.Keys;
      while rest != {}
        invariant rest <= desired.Keys
        invariant data.Keys == kept.Keys + (desired.Keys - rest)
        invariant forall k <- data :: data[k] == if k in desired.Keys - rest then desired[k] else kept[k]
      {
        var key :| key in rest;
        data := data[key := desired[key]];
        rest := rest - {key};
      }
      assert data == kept + desired;
      data := data[UPDATED := now];
    }
  }

  // ---- what is published ----

  /** The variables are published under keys of their own, each with its last value; the fixed entries
      are not overridden. */
  lemma {:induction false} VariablesPublished(d: Data, variables: seq<Variable>, name: string, key: string)
    ensures var r := WithVariables(d, variables);
      && (LastValue(variables, name).Some? ==> VAR + name in r && r[VAR + name] == LastValue(variables, name).value)
      && (!(VAR <= key) ==> (key in r <==> key in d) && (key in d ==> r[key] == d[key]))
  {
    if variables != [] {
      var front, last := variables[..|variables| - 1], variables[|variables| - 1];
      VariablesPublished(d, front, name, key);
      assert (VAR + last.name)[|VAR|..] == last.name && (VAR + name)[|VAR|..] == name;
      assert VAR <= VAR + last.name;
    }
  }

  lemma DesiredHasNoTimestamp(a: Addon)
    ensures forall k <- Desired(a) :: !IsTimestamp(k)
  {
    forall k | IsTimestamp(k) ensures k !in Desired(a) {
      var created, updated := "created-at", "last-updated";
      assert created[0] != VAR[0] && updated[0] != VAR[0];
      VariablesPublished(Fixed(a), a.spec.variables, "", k);
    }
  }

  /** After a successful call the ConfigMap is as desired outside its two timestamps, and a second call
      for the same configuration writes nothing, whatever the time. */
  lemma PublishedIsDesired(a: Addon, was: Data, now: string)
    ensures Plain(Desired(a)[CREATED := now]) == Desired(a)
    ensures Plain(Refreshed(was, Desired(a), now)) == Desired(a)
    ensures UPDATED in Refreshed(was, Desired(a), now) && Refreshed(was, Desired(a), now)[UPDATED] == now
    ensures CREATED in was ==>
      CREATED in Refreshed(was, Desired(a), now) && Refreshed(was, Desired(a), now)[CREATED] == was[CREATED]
  {
    DesiredHasNoTimestamp(a);
    hide Desired;
    var created, updated := "created-at", "last-updated";
    assert created[0] != updated[0];
  }
}
