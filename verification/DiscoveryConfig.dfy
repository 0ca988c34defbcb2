/** The edits the discovery controller makes when cluster import is enabled and disabled: to the
    variables of the add-on's deployment configuration, to the placements of the other add-ons, and to
    the ConfigMap that publishes the configuration. */
module DiscoveryConfig {
  import opened Basics

  datatype Variable = Variable(name: string, value: string)

  /** The spec of an AddOnDeploymentConfig, as far as it is edited */
  datatype Spec = Spec(variables: seq<Variable>, installNamespace: string)

  const NO_METRICS := "disableMetrics"
  const NO_OPERATOR := "disableHOManagement"
  const DEFAULT_NAMESPACE := "open-cluster-management-agent-addon"
  const DISCOVERY_NAMESPACE := DEFAULT_NAMESPACE + "-discovery"

  predicate Required(name: string) {
    name == NO_METRICS || name == NO_OPERATOR
  }

  /** The value a list gives a name: that of its last entry, as in a map filled from the list */
  function LastValue(variables: seq<Variable>, name: string): Option<string> {
    if variables == [] then None
    else
      var last := variables[|variables| - 1];
      if last.name == name then Some(last.value) else LastValue(variables[..|variables| - 1], name)
  }

  /** The entries of other names, in order */
  function Without(variables: seq<Variable>, name: string): seq<Variable> {
    if variables == [] then []
    else
      var rest, last := Without(variables[..|variables| - 1], name), variables[|variables| - 1];
      if last.name == name then rest else rest + [last]
  }

  /** The entries that are not required ones, in order */
  function Others(variables: seq<Variable>): seq<Variable> {
    if variables == [] then []
    else
      var rest, last := Others(variables[..|variables| - 1]), variables[|variables| - 1];
      if Required(last.name) then rest else rest + [last]
  }

  predicate IsTrue(variables: seq<Variable>, name: string) {
    LastValue(variables, name) == Some("true")
  }

  function EnsureOne(variables: seq<Variable>, was: seq<Variable>, name: string): seq<Variable> {
    if IsTrue(was, name) then variables else Without(variables, name) + [Variable(name, "true")]
  }

  /** The two required names in the order the map yields them */
  predicate IsOrder(order: seq<string>) {
    order == [NO_METRICS, NO_OPERATOR] || order == [NO_OPERATOR, NO_METRICS]
  }

  /** ensureHypershiftAddonCustomizedVariables on the spec */
  function Ensured(s: Spec, order: seq<string>): Spec
    requires IsOrder(order)
  {
    Spec(EnsureOne(EnsureOne(s.variables, s.variables, order[0]), s.variables, order[1]), DISCOVERY_NAMESPACE)
  }

  /** removeHypershiftAddonCustomizedVariables on the spec */
  function Removed(s: Spec): Spec {
    Spec(Others(s.variables), DEFAULT_NAMESPACE)
  }

  // ---- the controller's own loops ----

  /** The hub's copy of the configuration, and how often it was written */
  class Hub {
    var spec: Spec
    var updates: nat

    method Update(c: DeploymentConfig, fails: bool) returns (ok: bool)
      modifies this
      ensures ok == !fails && updates == old(updates) + 1 && spec == if ok then c.View() else old(spec)
    {
      updates := updates + 1;
      if !fails { spec := c.View(); }
      ok := !fails;
    }
  }

  /** The object as fetched, edited in place */
  class DeploymentConfig {
    var variables: seq<Variable>
    var installNamespace: string

    function View(): Spec
      reads this
    {
      Spec(variables, installNamespace)
    }

    constructor (s: Spec)
      ensures View() == s
    {
      variables, installNamespace := s.variables, s.installNamespace;
    }

    method EnsureVariables(hub: Hub, fails: bool) returns (ok: bool)
      requires hub.spec == View()
      modifies this, hub
      ensures exists order | IsOrder(order) :: View() == Ensured(old(View()), order)
      ensures hub.updates == old(hub.updates) + (if View() != old(View()) then 1 else 0)
      ensures ok == (View() == old(View()) || !fails)
      ensures hub.spec == if ok then View() else old(hub.spec)
    {
      ghost var s := View();
      var first := *;
      var order := if first then [NO_METRICS, NO_OPERATOR] else [NO_OPERATOR, NO_METRICS];
      var updated, needsUpdate := EnsureRequired(variables, order);
      EnsuredChanges(s, order);
      hide EnsureOne, LastValue;
      if installNamespace != DISCOVERY_NAMESPACE {
        needsUpdate := true;
        installNamespace := DISCOVERY_NAMESPACE;
      }
      if !needsUpdate {
        return true;
      }
      variables := updated;
      ok := hub.Update(this, fails);
    }

    method RemoveVariables(hub: Hub, fails: bool) returns (ok: bool)
      requires hub.spec == View()
      modifies this, hub
      ensures View() == Removed(old(View()))
      ensures hub.updates == old(hub.updates) + (if View() != old(View()) then 1 else 0)
      ensures ok == (View() == old(View()) || !fails)
      ensures hub.spec == if ok then View() else old(hub.spec)
    {
      var found, updated := false, [];
      for i := 0 to |variables|
        invariant View() == old(View())
        invariant updated == Others(variables[..i])
        invariant |updated| <= i && (found <==> |updated| < i) && (!found ==> updated == variables[..i])
      {
        assert variables[..i + 1][..i] == variables[..i];
        if !Required(variables[i].name) {
          updated := updated + [variables[i]];
        } else {
          found := true;
        }
      }
      assert variables[..|variables|] == variables;
      var reset := installNamespace != DEFAULT_NAMESPACE;
      if !found && !reset {
        return true;
      }
      variables := updated;
      if reset {
        installNamespace := DEFAULT_NAMESPACE;
      }
      ok := hub.Update(this, fails);
    }
  }

  /** The map filled from the list */
  method ValuesOf(variables: seq<Variable>) returns (values: map<string, string>)
    ensures forall n :: LastValue(variables, n) == if n in values then Some(values[n]) else None
  {
    values := map[];
    for i := 0 to |variables|
      invariant forall n :: LastValue(variables[..i], n) == if n in values then Some(values[n]) else None
    {
      assert variables[..i + 1][..i] == variables[..i];
      values := values[variables[i].name := variables[i].value];
    }
    assert variables[..|variables|] == variables;
  }

  method EnsureRequired(variables: seq<Variable>, order: seq<string>)
    returns (updated: seq<Variable>, needsUpdate: bool)
    requires IsOrder(order)
    ensures updated == EnsureOne(EnsureOne(variables, variables, order[0]), variables, order[1])
    ensures !needsUpdate <==> IsTrue(variables, order[0]) && IsTrue(variables, order[1])
  {
    var existing := ValuesOf(variables);
    hide LastValue, Without;
    updated, needsUpdate := variables, false;
    for i := 0 to 2
      invariant i == 0 ==> updated == variables && !needsUpdate
      invariant i == 1 ==> updated == EnsureOne(variables, variables, order[0])
      invariant i == 1 ==> (needsUpdate <==> !IsTrue(variables, order[0]))
      invariant i == 2 ==> updated == EnsureOne(EnsureOne(variables, variables, order[0]), variables, order[1])
      invariant i == 2 ==> (needsUpdate <==> !IsTrue(variables, order[0]) || !IsTrue(variables, order[1]))
    {
      var name := order[i];
      if name !in existing || existing[name] != "true" {
        needsUpdate := true;
        var filtered := Filter(updated, name);
        updated := filtered + [Variable(name, "true")];
      }
    }
  }

  method Filter(variables: seq<Variable>, name: string) returns (kept: seq<Variable>)
    ensures kept == Without(variables, name)
  {
    kept := [];
    for i := 0 to |variables|
      invariant kept == Without(variables[..i], name)
    {
      assert variables[..i + 1][..i] == variables[..i];
      if variables[i].name != name {
        kept := kept + [variables[i]];
      }
    }
    assert variables[..|variables|] == variables;
  }

  // ---- the variables ----

  lemma {:induction false} WithoutValues(variables: seq<Variable>, name: string, other: string)
    ensures LastValue(Without(variables, name), other) == if other == name then None else LastValue(variables, other)
  {
    if variables != [] {
      var front, last := variables[..|variables| - 1], variables[|variables| - 1];
      WithoutValues(front, name, other);
      assert last.name != name ==> (Without(front, name) + [last])[..|Without(front, name)|] == Without(front, name);
    }
  }

  lemma {:induction false} WithoutOthers(variables: seq<Variable>, name: string)
    requires Required(name)
    ensures Others(Without(variables, name)) == Others(variables)
  {
    if variables != [] {
      var front, last := variables[..|variables| - 1], variables[|variables| - 1];
      WithoutOthers(front, name);
      assert last.name != name ==> (Without(front, name) + [last])[..|Without(front, name)|] == Without(front, name);
    }
  }

  lemma Appended(variables: seq<Variable>, v: Variable, name: string)
    ensures LastValue(variables + [v], name) == if v.name == name then Some(v.value) else LastValue(variables, name)
    ensures Others(variables + [v]) == Others(variables) + (if Required(v.name) then [] else [v])
  {
    assert (variables + [v])[..|variables|] == variables;
  }

  lemma EnsureOneFacts(variables: seq<Variable>, was: seq<Variable>, name: string, other: string)
    requires Required(name)
    ensures var r := EnsureOne(variables, was, name);
      && Others(r) == Others(variables)
      && (other != name ==> LastValue(r, other) == LastValue(variables, other))
      && (LastValue(was, name) != Some("true") ==> LastValue(r, name) == Some("true"))
  {
    WithoutValues(variables, name, other);
    WithoutOthers(variables, name);
    Appended(Without(variables, name), Variable(name, "true"), other);
    Appended(Without(variables, name), Variable(name, "true"), name);
  }

  /** Ensuring gives both required variables the value true and leaves every other entry where it was
      among the others. */
  lemma EnsureMeaning(s: Spec, order: seq<string>, name: string)
    requires IsOrder(order)
    ensures var r := Ensured(s, order);
      && LastValue(r.variables, name) == (if Required(name) then Some("true") else LastValue(s.variables, name))
      && Others(r.variables) == Others(s.variables) && r.installNamespace == DISCOVERY_NAMESPACE
  {
    var mid := EnsureOne(s.variables, s.variables, order[0]);
    EnsureOneFacts(s.variables, s.variables, order[0], name);
    EnsureOneFacts(s.variables, s.variables, order[0], order[0]);
    EnsureOneFacts(mid, s.variables, order[1], name);
    EnsureOneFacts(mid, s.variables, order[1], order[0]);
  }

  /** It changes the spec exactly when a required variable or the namespace was not as required. */
  lemma EnsuredChanges(s: Spec, order: seq<string>)
    requires IsOrder(order)
    ensures Ensured(s, order).variables == s.variables
      <==> IsTrue(s.variables, order[0]) && IsTrue(s.variables, order[1])
  {
    EnsureMeaning(s, order, order[0]);
    EnsureMeaning(s, order, order[1]);
  }

  /** Ensuring twice, whatever the two map orders, is ensuring once. */
  lemma EnsureIdempotent(s: Spec, order: seq<string>, order': seq<string>)
    requires IsOrder(order) && IsOrder(order')
    ensures Ensured(Ensured(s, order), order') == Ensured(s, order)
  {
    EnsureMeaning(s, order, order'[0]);
    EnsureMeaning(s, order, order'[1]);
  }

  /** Removing after ensuring leaves what removing alone leaves: the same list, in the same order. */
  lemma RemoveUndoesEnsure(s: Spec, order: seq<string>)
    requires IsOrder(order)
    ensures Removed(Ensured(s, order)) == Removed(s)
  {
    EnsureMeaning(s, order, order[0]);
  }

  lemma {:induction false} RemoveMeaning(variables: seq<Variable>, name: string)
    ensures LastValue(Others(variables), name) == if Required(name) then None else LastValue(variables, name)
    ensures Others(Others(variables)) == Others(variables)
  {
    if variables != [] {
      var front, last := variables[..|variables| - 1], variables[|variables| - 1];
      RemoveMeaning(front, name);
      if !Required(last.name) {
        Appended(Others(front), last, name);
      }
    }
  }

  /** Removing and ensuring again is the same as ensuring, but for where the two required entries stand. */
  lemma EnsureAfterRemove(s: Spec, order: seq<string>, name: string)
    requires IsOrder(order)
    ensures var r, r' := Ensured(Removed(s), order), Ensured(s, order);
      && Others(r.variables) == Others(r'.variables) && r.installNamespace == r'.installNamespace
      && LastValue(r.variables, name) == LastValue(r'.variables, name)
  {
    EnsureMeaning(s, order, name);
    EnsureMeaning(Removed(s), order, name);
    RemoveMeaning(s.variables, name);
  }
}
