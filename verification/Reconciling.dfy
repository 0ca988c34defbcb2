/** What one Reconcile does to the world: the specification that LabelAgent refines. */
module Reconciling {
  import opened Labels
  import opened HostedClusters
  import opened Names

  /** The ManagedClusters of the spoke and of the hub by name, and the spoke's HostedClusters. */
  datatype World = World(spokes: map<string, Meta>, hubs: map<string, Meta>, hcs: seq<HostedCluster>)

  /** The agent's settings that Reconcile reads. */
  datatype Config = Config(discoveryDisabled: bool, localAgent: bool, clusterName: string, prefix: Prefix)

  /** What befalls a patch: nothing, a failure without effect, or the loss of the reply after it took effect. */
  datatype PatchFault = Fine | Refused | Lost

  /** Which of the calls to the API servers fail in this run (being absent is not failing). */
  datatype Faults = Faults(
    getSpoke: bool, listHCs: bool, patchSpokeHC: PatchFault, getHub: bool, patchHub: PatchFault,
    regetSpoke: bool, regetHub: bool, patchSpokeHub: PatchFault)

  const NoFaults := Faults(false, false, Fine, false, Fine, false, false, Fine)

  /** The world after a Reconcile, whether it returned without error, how many patches it sent,
      and how many of its three phases took effect. */
  datatype Outcome = Outcome(world: World, ok: bool, patches: nat, phases: nat)

  predicate IsHosted(m: Meta) {
    Anno(m.annotations, CreatedVia) == "hypershift"
  }

  function InfraID(m: Meta): string {
    if AUTO_INFRA_LABEL in m.labels then m.labels[AUTO_INFRA_LABEL] else ""
  }

  function HubOf(cfg: Config, name: string): string {
    HubName(cfg.prefix, cfg.clusterName, name)
  }

  function Count(patched: bool): nat {
    if patched then 1 else 0
  }

  /** The labels of the matched HostedCluster that may travel; none when there is no match. */
  function SourceOf(m: Match): LabelMap
    requires !m.Ambiguous?
  {
    if m.Found? then Eligible(m.hc.labels) else map[]
  }

  /** The two HostedCluster phases: the spoke object, then the hub object if there is one. */
  ghost function HCPhases(cfg: Config, w: World, name: string, source: LabelMap, f: Faults): (r: Outcome)
    requires name in w.spokes
    ensures name in r.world.spokes
  {
    var p := HCToSpoke(w.spokes[name], source);
    var w1 := w.(spokes := w.spokes[name := p.meta]);
    if p.patched && f.patchSpokeHC.Refused? then Outcome(w, false, 1, 0)
    else if p.patched && f.patchSpokeHC.Lost? then Outcome(w1, false, 1, 1)
    else
      var hub := HubOf(cfg, name);
      if f.getHub then Outcome(w1, false, Count(p.patched), 1)
      else if hub !in w.hubs then Outcome(w1, true, Count(p.patched), 2)
      else
        var q := HCToHub(w.hubs[hub], source);
        if q.patched && f.patchHub.Refused? then Outcome(w1, false, Count(p.patched) + 1, 1)
        else
          var w2 := w1.(hubs := w.hubs[hub := q.meta]);
          Outcome(w2, !(q.patched && f.patchHub.Lost?), Count(p.patched) + Count(q.patched), 2)
  }

  ghost function HubToSpokeOrClear(m: Meta, hubs: map<string, Meta>, hub: string): Phase {
    if hub in hubs then HubToSpoke(m, hubs[hub]) else Cleared(m, PropagatedLabels)
  }

  /** The hub phase. */
  ghost function HubPhase(cfg: Config, w: World, name: string, f: Faults): Outcome
    requires name in w.spokes
  {
    if f.regetSpoke || f.regetHub then Outcome(w, false, 0, 0)
    else
      var p := HubToSpokeOrClear(w.spokes[name], w.hubs, HubOf(cfg, name));
      if p.patched && f.patchSpokeHub.Refused? then Outcome(w, false, 1, 0)
      else
        Outcome(w.(spokes := w.spokes[name := p.meta]), !(p.patched && f.patchSpokeHub.Lost?), Count(p.patched), 3)
  }

  predicate Active(cfg: Config, w: World, name: string) {
    !cfg.discoveryDisabled && !cfg.localAgent && name in w.spokes && IsHosted(w.spokes[name])
  }

  function MatchFor(w: World, name: string): Match
    requires name in w.spokes
  {
    MatchOf(w.hcs, name, InfraID(w.spokes[name]))
  }

  ghost function Reconciled(cfg: Config, w: World, name: string, f: Faults): Outcome {
    if cfg.discoveryDisabled || cfg.localAgent then Outcome(w, true, 0, 0)
    else if f.getSpoke then Outcome(w, false, 0, 0)
    else if !Active(cfg, w, name) then Outcome(w, true, 0, 0)
    else if f.listHCs then Outcome(w, false, 0, 0)
    else
      var found := MatchFor(w, name);
      var mid := if found.Ambiguous? then Outcome(w, true, 0, 2) else HCPhases(cfg, w, name, SourceOf(found), f);
      if mid.ok then
        var last := HubPhase(cfg, mid.world, name, f);
        Outcome(last.world, last.ok, mid.patches + last.patches, if last.phases == 3 then 3 else mid.phases)
      else mid
  }
}
