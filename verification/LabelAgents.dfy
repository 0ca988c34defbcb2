/** The label agent: the controller's own loops and in-place updates, refining Reconciling. */
module LabelAgents {
  import opened Tracking
  import opened Labels
  import opened HostedClusters
  import opened Names
  import opened Reconciling

  /** An object as fetched: the methods below change it before they send it back. */
  class ManagedCluster {
    var labels: LabelMap
    var annotations: Annotations

    function Value(): Meta
      reads this
    {
      Meta(labels, annotations)
    }

    constructor (m: Meta)
      ensures Value() == m
    {
      labels, annotations := m.labels, m.annotations;
    }

    /** setOrDeleteAnnotation */
    method SetOrDeleteAnnotation(key: AnnoKey, value: string)
      modifies this`annotations
      ensures annotations == SetOrDelete(old(annotations), key, value)
    {
      if value != "" {
        annotations := annotations[key := value];
      } else {
        annotations := annotations - {key};
      }
    }
  }

  datatype Status = Present(mc: ManagedCluster) | NotFound | Failed

  /** An API server as a client sees it, with a count of the patches it was sent. */
  class ApiServer {
    var objects: map<string, Meta>
    var patches: nat

    method Get(name: string, fails: bool) returns (r: Status)
      ensures r.Failed? <==> fails
      ensures !fails ==> (r.Present? <==> name in objects)
      ensures r.Present? ==> fresh(r.mc) && name in objects && r.mc.Value() == objects[name]
    {
      if fails {
        return Failed;
      } else if name in objects {
        var mc := new ManagedCluster(objects[name]);
        return Present(mc);
      } else {
        return NotFound;
      }
    }

    /** A merge patch sent right after the Get leaves the stored object equal to the local one. */
    method Patch(name: string, mc: ManagedCluster, fault: PatchFault) returns (ok: bool)
      modifies this
      ensures ok == fault.Fine? && patches == old(patches) + 1
      ensures objects == if fault.Refused? then old(objects) else old(objects)[name := mc.Value()]
    {
      patches := patches + 1;
      if !fault.Refused? {
        objects := objects[name := mc.Value()];
      }
      ok := fault.Fine?;
    }
  }

  lemma OverlayDrop(target: LabelMap, managed: set<string>, source: LabelMap, drop: set<string>, stale: set<string>)
    requires managed <= source.Keys
    requires stale - managed <= drop <= stale && drop !! managed
    ensures Overlay(target, managed, source, {}) - drop == Overlay(target, managed, source, stale)
  {
  }

  lemma OverlayAdd(target: LabelMap, managed: set<string>, source: LabelMap, key: string)
    requires managed <= source.Keys && key in source && key !in managed
    ensures Overlay(target, managed + {key}, source, {}) == Overlay(target, managed, source, {})[key := source[key]]
    ensures key in Overlay(target, managed, source, {}) <==> key in target
    ensures key in target ==> Overlay(target, managed, source, {})[key] == target[key]
  {
  }

  /** The loop shared by the three sync functions: walk the source in the map's own order,
      skipping system labels and the keys in skip. */
  method PropagateLabels(target: LabelMap, tracked: set<string>, source: LabelMap, skip: set<string>)
    returns (labels: LabelMap, managed: set<string>, changed: bool)
    ensures managed == Managed(target, tracked, Eligible(source) - skip)
    ensures labels == Overlay(target, managed, Eligible(source) - skip, {})
    ensures changed <==> labels != target
  {
    hide IsSystemLabel;
    ghost var eligible: LabelMap := Eligible(source) - skip;
    ghost var goal := Managed(target, tracked, eligible);
    labels, managed, changed := target, {}, false;
    var rest := source.Keys;
    while rest != {}
      invariant rest <= source.Keys
      invariant managed == goal - rest
      invariant labels == Overlay(target, managed, eligible, {})
      invariant changed <==> labels != target
    {
      var key :| key in rest;
      rest := rest - {key};
      if !IsSystemLabel(key) && key !in skip {
        var value := source[key];
        assert key in eligible && eligible[key] == value;
        OverlayAdd(target, managed, eligible, key);
        if key !in labels {
          labels, changed, managed := labels[key := value], true, managed + {key};
        } else if labels[key] != value {
          if key in tracked {
            labels, changed, managed := labels[key := value], true, managed + {key};
          }
        } else {
          managed := managed + {key};
        }
      }
    }
  }

  /** delete for every key in drop, in the set's own order */
  method DeleteKeys(labels: LabelMap, drop: set<string>) returns (r: LabelMap)
    ensures r == labels - drop
  {
    r := labels;
    var rest := drop;
    while rest != {}
      invariant rest <= drop && r == labels - (drop - rest)
    {
      var key :| key in rest;
      r, rest := r - {key}, rest - {key};
    }
  }

  /** The server holds what the caller fetched. */
  predicate InSync(server: ApiServer, name: string, mc: ManagedCluster)
    reads server, mc
  {
    name in server.objects && server.objects[name] == mc.Value()
  }

  class LabelAgent {
    const hub: ApiServer
    const spoke: ApiServer
    const cfg: Config
    var hcs: seq<HostedCluster>

    constructor (hub: ApiServer, spoke: ApiServer, cfg: Config, hcs: seq<HostedCluster>)
      ensures this.hub == hub && this.spoke == spoke && this.cfg == cfg && this.hcs == hcs
    {
      this.hub, this.spoke, this.cfg, this.hcs := hub, spoke, cfg, hcs;
    }

    function Now(): World
      reads this, hub, spoke
    {
      World(spoke.objects, hub.objects, hcs)
    }

    /** syncHCLabelsToSpoke */
    method SyncHCLabelsToSpoke(spokeMC: ManagedCluster, name: string, hc: HostedCluster, fault: PatchFault)
      returns (ok: bool)
      requires InSync(spoke, name, spokeMC)
      modifies spokeMC, spoke
      ensures var p := HCToSpoke(old(spokeMC.Value()), Eligible(hc.labels));
        && ok == (p.patched ==> fault.Fine?)
        && spoke.patches == old(spoke.patches) + Count(p.patched)
        && spoke.objects
           == if p.patched && fault.Refused? then old(spoke.objects) else old(spoke.objects)[name := p.meta]
    {
      hide IsSystemLabel, Encode, Parse;
      var previousHC := ParseAnnotation(Anno(spokeMC.annotations, HCPropagatedLabels));
      var labels, toTrack, changed := PropagateLabels(spokeMC.labels, previousHC, hc.labels, {});
      assert Eligible(hc.labels) - {} == Eligible(hc.labels);

      // Remove labels previously tracked but no longer on the HostedCluster.
      var gone := previousHC - toTrack;
      OverlayDrop(spokeMC.labels, toTrack, Eligible(hc.labels), gone, previousHC);
      labels := DeleteKeys(labels, gone);
      changed := changed || gone != {};

      // Keys taken over leave the hub's tracking.
      var previousHub := ParseAnnotation(Anno(spokeMC.annotations, PropagatedLabels));
      var updatedHub, hubModified := previousHub - toTrack, previousHub * toTrack != {};

      if !changed && toTrack == previousHC && !hubModified {
        return true;
      }
      spokeMC.labels := labels;
      var value := JoinSortedKeys(toTrack);
      spokeMC.SetOrDeleteAnnotation(HCPropagatedLabels, value);
      if hubModified {
        value := JoinSortedKeys(updatedHub);
        spokeMC.SetOrDeleteAnnotation(PropagatedLabels, value);
      }
      ok := spoke.Patch(name, spokeMC, fault);
    }

    /** syncHCLabelsToHub */
    method SyncHCLabelsToHub(hubMC: ManagedCluster, name: string, hc: HostedCluster, fault: PatchFault)
      returns (ok: bool)
      requires InSync(hub, name, hubMC)
      modifies hubMC, hub
      ensures var p := HCToHub(old(hubMC.Value()), Eligible(hc.labels));
        && ok == (p.patched ==> fault.Fine?)
        && hub.patches == old(hub.patches) + Count(p.patched)
        && hub.objects
           == if p.patched && fault.Refused? then old(hub.objects) else old(hub.objects)[name := p.meta]
    {
      hide IsSystemLabel, Encode, Parse;
      var previousHC := ParseAnnotation(Anno(hubMC.annotations, HCPropagatedLabels));
      var labels, toTrack, changed := PropagateLabels(hubMC.labels, previousHC, hc.labels, {});
      assert Eligible(hc.labels) - {} == Eligible(hc.labels);
      var gone := previousHC - toTrack;
      OverlayDrop(hubMC.labels, toTrack, Eligible(hc.labels), gone, previousHC);
      labels := DeleteKeys(labels, gone);
      changed := changed || gone != {};
      if !changed && toTrack == previousHC {
        return true;
      }
      hubMC.labels := labels;
      var value := JoinSortedKeys(toTrack);
      hubMC.SetOrDeleteAnnotation(HCPropagatedLabels, value);
      ok := hub.Patch(name, hubMC, fault);
    }

    /** syncHubLabelsToSpoke */
    method SyncHubLabelsToSpoke(spokeMC: ManagedCluster, name: string, hubMC: ManagedCluster, fault: PatchFault)
      returns (ok: bool)
      requires InSync(spoke, name, spokeMC) && hubMC != spokeMC
      modifies spokeMC, spoke
      ensures var p := HubToSpoke(old(spokeMC.Value()), old(hubMC.Value()));
        && ok == (p.patched ==> fault.Fine?)
        && spoke.patches == old(spoke.patches) + Count(p.patched)
        && spoke.objects
           == if p.patched && fault.Refused? then old(spoke.objects) else old(spoke.objects)[name := p.meta]
    {
      hide IsSystemLabel, Encode, Parse;
      var previous := ParseAnnotation(Anno(spokeMC.annotations, PropagatedLabels));
      var hcOwnedOnHub := ParseAnnotation(Anno(hubMC.annotations, HCPropagatedLabels));
      var labels, toPropagate, changed := PropagateLabels(spokeMC.labels, previous, hubMC.labels, hcOwnedOnHub);

      // Remove labels previously tracked that left the hub or now belong to a HostedCluster there.
      var kept := hubMC.labels.Keys - hcOwnedOnHub;
      var gone := previous - kept;
      OverlayDrop(spokeMC.labels, toPropagate, EligibleFromHub(hubMC.Value()), gone, gone);
      labels := DeleteKeys(labels, gone);
      changed := changed || gone != {};
      if !changed && toPropagate == previous {
        return true;
      }
      spokeMC.labels := labels;
      var value := JoinSortedKeys(toPropagate);
      spokeMC.annotations := spokeMC.annotations[PropagatedLabels := value];
      ok := spoke.Patch(name, spokeMC, fault);
    }

    /** removeHubPropagatedLabels and removeHCPropagatedLabels on the spoke,
        removeHCPropagatedLabelsFromHub on the hub: one function each in the source, alike
        but for the client and the annotation */
    method RemovePropagatedLabels(server: ApiServer, mc: ManagedCluster, name: string, anno: AnnoKey, fault: PatchFault)
      returns (ok: bool)
      requires InSync(server, name, mc)
      modifies mc, server
      ensures var p := Cleared(old(mc.Value()), anno);
        && ok == (p.patched ==> fault.Fine?)
        && server.patches == old(server.patches) + Count(p.patched)
        && server.objects
           == if p.patched && fault.Refused? then old(server.objects) else old(server.objects)[name := p.meta]
    {
      if Anno(mc.annotations, anno) == "" {
        return true;
      }
      var keys := ParseAnnotation(Anno(mc.annotations, anno));
      mc.labels := DeleteKeys(mc.labels, keys);
      mc.annotations := mc.annotations - {anno};
      ok := server.Patch(name, mc, fault);
    }

    /** The part of Reconcile for a HostedCluster that was found */
    method SyncFromHostedCluster(spokeMC: ManagedCluster, name: string, hc: HostedCluster, f: Faults)
      returns (ok: bool)
      requires hub != spoke && InSync(spoke, name, spokeMC)
      modifies spokeMC, hub, spoke
      ensures var r := HCPhases(cfg, old(Now()), name, Eligible(hc.labels), f);
        && Now() == r.world && ok == r.ok
        && spoke.patches + hub.patches == old(spoke.patches + hub.patches) + r.patches
    {
      hide IsSystemLabel, HCToSpoke, HCToHub, HubName;
      ok := SyncHCLabelsToSpoke(spokeMC, name, hc, f.patchSpokeHC);
      if !ok {
        return;
      }
      var got := hub.Get(HubOf(cfg, name), f.getHub);
      if got.Failed? {
        return false;
      } else if got.Present? {
        ok := SyncHCLabelsToHub(got.mc, HubOf(cfg, name), hc, f.patchHub);
      }
    }

    /** The part of Reconcile for a cluster without HostedCluster */
    method RemoveHostedClusterLabels(spokeMC: ManagedCluster, name: string, f: Faults)
      returns (ok: bool)
      requires hub != spoke && InSync(spoke, name, spokeMC)
      modifies spokeMC, hub, spoke
      ensures var r := HCPhases(cfg, old(Now()), name, map[], f);
        && Now() == r.world && ok == r.ok
        && spoke.patches + hub.patches == old(spoke.patches + hub.patches) + r.patches
    {
      hide IsSystemLabel, HCToSpoke, HCToHub, Cleared, HubName;
      ClearHCIsEmptySync(spokeMC.Value());
      ok := RemovePropagatedLabels(spoke, spokeMC, name, HCPropagatedLabels, f.patchSpokeHC);
      if !ok {
        return;
      }
      var got := hub.Get(HubOf(cfg, name), f.getHub);
      if got.Failed? {
        return false;
      } else if got.Present? {
        ClearHCIsEmptySync(got.mc.Value());
        ok := RemovePropagatedLabels(hub, got.mc, HubOf(cfg, name), HCPropagatedLabels, f.patchHub);
      }
    }

    /** The rest of Reconcile: fetch the spoke object again, then follow the hub object */
    method FollowHub(name: string, f: Faults) returns (ok: bool)
      requires hub != spoke && name in spoke.objects
      modifies spoke
      ensures var r := HubPhase(cfg, old(Now()), name, f);
        && Now() == r.world && ok == r.ok
        && spoke.patches == old(spoke.patches) + r.patches
    {
      hide IsSystemLabel, HubToSpoke, Cleared, HubName;
      var got := spoke.Get(name, f.regetSpoke);
      if got.Failed? {
        return false;
      }
      var hubGot := hub.Get(HubOf(cfg, name), f.regetHub);
      if hubGot.Failed? {
        return false;
      } else if hubGot.NotFound? {
        ok := RemovePropagatedLabels(spoke, got.mc, name, PropagatedLabels, f.patchSpokeHub);
      } else {
        ok := SyncHubLabelsToSpoke(got.mc, name, hubGot.mc, f.patchSpokeHub);
      }
    }

    /** Reconcile */
    method Reconcile(name: string, f: Faults) returns (ok: bool)
      requires hub != spoke
      modifies hub, spoke
      ensures var r := Reconciled(cfg, old(Now()), name, f);
        && Now() == r.world && ok == r.ok
        && spoke.patches + hub.patches == old(spoke.patches + hub.patches) + r.patches
    {
      hide IsSystemLabel, MatchOf, HCPhases, HubPhase;
      if cfg.discoveryDisabled || cfg.localAgent {
        return true;
      }
      var got := spoke.Get(name, f.getSpoke);
      if !got.Present? {
        return got.NotFound?;
      }
      var spokeMC := got.mc;
      if Anno(spokeMC.annotations, CreatedVia) != "hypershift" {
        return true;
      }
      if f.listHCs {
        return false;
      }
      var infraID := if AUTO_INFRA_LABEL in spokeMC.labels then spokeMC.labels[AUTO_INFRA_LABEL] else "";
      var found := FindHostedCluster(hcs, name, infraID);
      ok := true;
      if found.Found? {
        ok := SyncFromHostedCluster(spokeMC, name, found.hc, f);
      } else if found.NoMatch? {
        ok := RemoveHostedClusterLabels(spokeMC, name, f);
      }
      if ok {
        ok := FollowHub(name, f);
      }
    }
  }
}
