/** The reference to the discovery configuration in the global placement of an add-on. */
module AddonPlacements {
  import opened Basics

  datatype Config = Config(group: string, resource: string, name: string, namespace: string)

  datatype Placement = Placement(name: string, namespace: string, configs: seq<Config>)

  const REFERENCE := Config(
    "addon.open-cluster-management.io", "addondeploymentconfigs", "addon-ns-config", "multicluster-engine")

  predicate IsGlobal(p: Placement) {
    p.name == "global" && p.namespace == "open-cluster-management-global-set"
  }

  /** The index of the first global placement, or the length if there is none */
  function GlobalIndex(ps: seq<Placement>): (i: nat)
    ensures i <= |ps|
    ensures i < |ps| ==> IsGlobal(ps[i])
    ensures forall j | 0 <= j < i :: !IsGlobal(ps[j])
  {
    if ps == [] || IsGlobal(ps[0]) then 0 else
      var i := GlobalIndex(ps[1..]);
      assert forall j | 1 <= j <= i :: ps[j] == ps[1..][j - 1];
      1 + i
  }

  predicate Refers(ps: seq<Placement>) {
    var i := GlobalIndex(ps);
    i < |ps| && REFERENCE in ps[i].configs
  }

  /** updateSingleClusterManagementAddOn on the placements */
  function Added(ps: seq<Placement>): seq<Placement> {
    var i := GlobalIndex(ps);
    if i == |ps| || Refers(ps) then ps else ps[i := ps[i].(configs := ps[i].configs + [REFERENCE])]
  }

  function Drop(configs: seq<Config>): (r: seq<Config>)
    ensures forall c :: c in r <==> c in configs && c != REFERENCE
    ensures |r| <= |configs| && (REFERENCE !in configs <==> |r| == |configs|)
    ensures REFERENCE !in configs ==> r == configs
  {
    if configs == [] then []
    else
      var rest, last := Drop(configs[..|configs| - 1]), configs[|configs| - 1];
      assert configs == configs[..|configs| - 1] + [last];
      if last == REFERENCE then rest else rest + [last]
  }

  /** removeSingleClusterManagementAddOnConfig on the placements */
  function Removed(ps: seq<Placement>): seq<Placement> {
    var i := GlobalIndex(ps);
    if i == |ps| then ps else ps[i := ps[i].(configs := Drop(ps[i].configs))]
  }

  // ---- the controller's own loops ----

  /** The hub's copy of an add-on's placements, none if there is no such add-on, and how often it was written */
  class Hub {
    var stored: Option<seq<Placement>>
    var updates: nat

    method Update(a: AddOn, fails: bool) returns (ok: bool)
      requires stored.Some?
      modifies this
      ensures ok == !fails && updates == old(updates) + 1 && stored == if ok then Some(a.placements) else old(stored)
    {
      updates := updates + 1;
      if !fails { stored := Some(a.placements); }
      ok := !fails;
    }

    /** updateSingleClusterManagementAddOn. An update is sent unless the reference is there already. */
    method Enable(getFails: bool, updateFails: bool) returns (ok: bool)
      modifies this
      ensures ok <==> !getFails && (old(stored).None? || Refers(old(stored.value)) || !updateFails)
      ensures stored == if ok && old(stored).Some? then Some(Added(old(stored.value))) else old(stored)
      ensures updates == old(updates) + (if getFails || old(stored).None? || Refers(old(stored.value)) then 0 else 1)
    {
      if getFails { return false; }
      if stored.None? { return true; }
      var addon := new AddOn(stored.value);
      var present := addon.HasReference();
      if present { return true; }
      addon.AddReference();
      ok := Update(addon, updateFails);
    }

    /** removeSingleClusterManagementAddOnConfig. An update is sent only if a reference was dropped. */
    method Disable(getFails: bool, updateFails: bool) returns (ok: bool)
      modifies this
      ensures ok <==> !getFails && (old(stored).None? || !Refers(old(stored.value)) || !updateFails)
      ensures stored == if ok && old(stored).Some? then Some(Removed(old(stored.value))) else old(stored)
      ensures updates == old(updates) + (if getFails || old(stored).None? || !Refers(old(stored.value)) then 0 else 1)
    {
      if getFails { return false; }
      if stored.None? { return true; }
      var addon := new AddOn(stored.value);
      var removed := addon.RemoveReference();
      if !removed {
        RemovedNothing(stored.value);
        return true;
      }
      ok := Update(addon, updateFails);
    }
  }

  /** The object as fetched, edited in place */
  class AddOn {
    var placements: seq<Placement>

    constructor (placements: seq<Placement>)
      ensures this.placements == placements
    {
      this.placements := placements;
    }

    method HasReference() returns (found: bool)
      ensures found == Refers(placements)
    {
      found := false;
      for i := 0 to |placements|
        invariant !found && GlobalIndex(placements) >= i
      {
        if IsGlobal(placements[i]) {
          var configs := placements[i].configs;
          for j := 0 to |configs|
            invariant !found && forall k | 0 <= k < j :: configs[k] != REFERENCE
          {
            if configs[j] == REFERENCE {
              found := true;
              break;
            }
          }
          break;
        }
      }
    }

    method AddReference()
      requires !Refers(placements)
      modifies this
      ensures placements == Added(old(placements))
    {
      for i := 0 to |placements|
        invariant placements == old(placements) && GlobalIndex(placements) >= i
      {
        if IsGlobal(placements[i]) {
          placements := placements[i := placements[i].(configs := placements[i].configs + [REFERENCE])];
          break;
        }
      }
    }

    method RemoveReference() returns (removed: bool)
      modifies this
      ensures placements == Removed(old(placements)) && removed == Refers(old(placements))
    {
      removed := false;
      for i := 0 to |placements|
        invariant placements == old(placements) && GlobalIndex(placements) >= i && !removed
      {
        if IsGlobal(placements[i]) {
          var kept;
          kept, removed := KeepOthers(placements[i].configs);
          placements := placements[i := placements[i].(configs := kept)];
          break;
        }
      }
    }
  }

  method KeepOthers(configs: seq<Config>) returns (kept: seq<Config>, removed: bool)
    ensures kept == Drop(configs) && (removed <==> REFERENCE in configs)
  {
    kept, removed := [], false;
    for j := 0 to |configs|
      invariant kept == Drop(configs[..j]) && (removed <==> exists k | 0 <= k < j :: configs[k] == REFERENCE)
    {
      assert configs[..j + 1][..j] == configs[..j];
      if configs[j] != REFERENCE {
        kept := kept + [configs[j]];
      } else {
        removed := true;
      }
    }
    assert configs[..|configs|] == configs;
  }

  // ---- enabling and disabling ----

  lemma SameGlobal(ps: seq<Placement>, i: nat, configs: seq<Config>)
    requires i == GlobalIndex(ps) < |ps|
    ensures GlobalIndex(ps[i := ps[i].(configs := configs)]) == i
  {
    var q := ps[i := ps[i].(configs := configs)];
    assert IsGlobal(q[i]) && forall j | 0 <= j < i :: q[j] == ps[j];
  }

  /** Removing nothing changes nothing. */
  lemma RemovedNothing(ps: seq<Placement>)
    requires !Refers(ps)
    ensures Removed(ps) == ps
  {
  }

  /** Enabling adds the reference to the first global placement, once, and touches no other placement. */
  lemma EnableMeaning(ps: seq<Placement>)
    ensures var q, i := Added(ps), GlobalIndex(ps);
      && |q| == |ps| && (forall j | 0 <= j < |ps| && j != i :: q[j] == ps[j])
      && (i < |ps| ==> Refers(q) && q[i].configs == ps[i].configs + (if Refers(ps) then [] else [REFERENCE]))
      && Added(q) == q
  {
    var i := GlobalIndex(ps);
    if i < |ps| {
      SameGlobal(ps, i, ps[i].configs + [REFERENCE]);
    }
  }

  lemma {:induction false} DropAppended(configs: seq<Config>)
    ensures Drop(configs + [REFERENCE]) == Drop(configs)
  {
    assert (configs + [REFERENCE])[..|configs|] == configs;
  }

  /** Disabling after enabling leaves what disabling alone leaves; where the reference was not there
      to begin with, that is the add-on as it was. */
  lemma DisableUndoesEnable(ps: seq<Placement>)
    ensures Removed(Added(ps)) == Removed(ps)
    ensures Removed(Added(ps)) == ps <==> !Refers(ps)
  {
    var i := GlobalIndex(ps);
    if i < |ps| {
      SameGlobal(ps, i, ps[i].configs + [REFERENCE]);
      DropAppended(ps[i].configs);
    }
    if !Refers(ps) {
      RemovedNothing(ps);
    } else {
      assert Removed(ps)[i].configs != ps[i].configs;
    }
  }

  /** Disabling leaves no reference in that placement, and everything else as it was. */
  lemma DisableMeaning(ps: seq<Placement>)
    ensures var q, i := Removed(ps), GlobalIndex(ps);
      && !Refers(q) && |q| == |ps| && (forall j | 0 <= j < |ps| && j != i :: q[j] == ps[j])
      && (i < |ps| ==> forall c :: c in q[i].configs <==> c in ps[i].configs && c != REFERENCE)
      && Removed(q) == q
  {
    var i := GlobalIndex(ps);
    if i < |ps| {
      SameGlobal(ps, i, Drop(ps[i].configs));
    }
  }

  /** An update that changes nothing: an add-on without a global placement is written each time. */
  lemma UselessUpdate(ps: seq<Placement>)
    ensures !Refers(ps) && Added(ps) == ps <==> forall j | 0 <= j < |ps| :: !IsGlobal(ps[j])
  {
    var i := GlobalIndex(ps);
    if i < |ps| && !Refers(ps) {
      assert |Added(ps)[i].configs| == |ps[i].configs| + 1;
    }
  }
}
