/** The edits of the discovery controller, with the names and values themselves. */
module ConfigLaws {
  import opened Basics
  import DiscoveryConfig
  import AddonConfigMap
  import opened AddonPlacements

  // ---- the deployment configuration ----

  /** Enabling: the two variables are true and the agent goes to the discovery namespace. */
  lemma EnabledIs(s: DiscoveryConfig.Spec, order: seq<string>)
    requires DiscoveryConfig.IsOrder(order)
    ensures var r := DiscoveryConfig.Ensured(s, order);
      && r.installNamespace == "open-cluster-management-agent-addon-discovery"
      && DiscoveryConfig.LastValue(r.variables, "disableMetrics") == Some("true")
      && DiscoveryConfig.LastValue(r.variables, "disableHOManagement") == Some("true")
  {
    DiscoveryConfig.EnsureMeaning(s, order, "disableMetrics");
    DiscoveryConfig.EnsureMeaning(s, order, "disableHOManagement");
    NamespaceIs();
  }

  lemma NamespaceIs()
    ensures DiscoveryConfig.DISCOVERY_NAMESPACE == "open-cluster-management-agent-addon-discovery"
  {
  }

  /** Disabling: the two are gone, every other variable is as it was, and the agent goes to the default namespace. */
  lemma DisabledIs(s: DiscoveryConfig.Spec, name: string)
    ensures var r := DiscoveryConfig.Removed(s);
      && r.installNamespace == "open-cluster-management-agent-addon"
      && DiscoveryConfig.LastValue(r.variables, name)
           == if name == "disableMetrics" || name == "disableHOManagement" then None
              else DiscoveryConfig.LastValue(s.variables, name)
  {
    DiscoveryConfig.RemoveMeaning(s.variables, name);
  }

  // ---- the published ConfigMap ----

  /** Every entry that is published: the five fixed ones, and one for each variable. */
  lemma PublishedIs(a: AddonConfigMap.Addon, name: string)
    ensures var d := AddonConfigMap.Desired(a); var value := AddonConfigMap.ImportValue(a.spec.variables);
      && "config-name" in d && d["config-name"] == a.name
      && "config-namespace" in d && d["config-namespace"] == a.namespace
      && "install-namespace" in d && d["install-namespace"] == a.spec.installNamespace
      && "configureMceImport" in d && d["configureMceImport"] == value
      && "import-enabled" in d && d["import-enabled"] == (if value == "true" then "true" else "false")
      && (DiscoveryConfig.LastValue(a.spec.variables, name).Some? ==>
            "var-" + name in d && d["var-" + name] == DiscoveryConfig.LastValue(a.spec.variables, name).value)
  {
    var fixed := AddonConfigMap.Fixed(a);
    assert "config-name"[0] == 'c' && "config-namespace"[0] == 'c' && "install-namespace"[0] == 'i';
    assert "configureMceImport"[0] == 'c' && "import-enabled"[0] == 'i' && "var-"[0] == 'v';
    AddonConfigMap.VariablesPublished(fixed, a.spec.variables, name, "config-name");
    AddonConfigMap.VariablesPublished(fixed, a.spec.variables, name, "config-namespace");
    AddonConfigMap.VariablesPublished(fixed, a.spec.variables, name, "install-namespace");
    AddonConfigMap.VariablesPublished(fixed, a.spec.variables, name, "configureMceImport");
    AddonConfigMap.VariablesPublished(fixed, a.spec.variables, name, "import-enabled");
    hide AddonConfigMap.WithVariables, AddonConfigMap.ImportValue;
  }

  /** The import variable is the first of its name; not-set without one. */
  lemma {:induction false} ImportIs(a: seq<DiscoveryConfig.Variable>, value: string, b: seq<DiscoveryConfig.Variable>)
    requires forall v <- a :: v.name != "configureMceImport"
    ensures AddonConfigMap.ImportValue(a + [DiscoveryConfig.Variable("configureMceImport", value)] + b) == value
    ensures AddonConfigMap.ImportValue(a) == "not-set"
  {
    var v := DiscoveryConfig.Variable("configureMceImport", value);
    if a != [] {
      assert (a + [v] + b)[1..] == a[1..] + [v] + b;
      ImportIs(a[1..], value, b);
    }
  }

  // ---- the placements ----

  /** Enabling appends the reference, spelled out, to the first placement of the global set, if it is not there
      already; disabling drops it there. No other placement changes. */
  lemma GlobalPlacementOnly(ps: seq<Placement>, i: nat)
    requires i < |ps| && ps[i].name == "global" && ps[i].namespace == "open-cluster-management-global-set"
    requires forall j | 0 <= j < i :: ps[j].name != "global" || ps[j].namespace != "open-cluster-management-global-set"
    ensures var reference := Config(
                "addon.open-cluster-management.io", "addondeploymentconfigs", "addon-ns-config", "multicluster-engine");
      && Added(ps) == (if reference in ps[i].configs then ps
                       else ps[i := ps[i].(configs := ps[i].configs + [reference])])
      && |Removed(ps)| == |ps| && (forall j | 0 <= j < |ps| && j != i :: Removed(ps)[j] == ps[j])
      && (forall c :: c in Removed(ps)[i].configs <==> c in ps[i].configs && c != reference)
  {
    assert forall j | 0 <= j < i :: !IsGlobal(ps[j]);
    assert IsGlobal(ps[i]) && GlobalIndex(ps) == i;
    DisableMeaning(ps);
  }

  /** The two timestamps */
  lemma TimestampsAre(a: AddonConfigMap.Addon, was: map<string, string>, now: string)
    ensures var created, refreshed := AddonConfigMap.Desired(a)[AddonConfigMap.CREATED := now],
                AddonConfigMap.Refreshed(was, AddonConfigMap.Desired(a), now);
      && "created-at" in created && created["created-at"] == now
      && "last-updated" in refreshed && refreshed["last-updated"] == now
      && ("created-at" in was ==> "created-at" in refreshed && refreshed["created-at"] == was["created-at"])
  {
    AddonConfigMap.PublishedIsDesired(a, was, now);
    hide AddonConfigMap.Desired;
  }
}
