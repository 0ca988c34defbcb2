/** What one Reconcile guarantees, whichever of its calls fail. */
module LabelTheorems {
  import opened Basics
  import opened Tracking
  import opened Labels
  import opened HostedClusters
  import opened Names
  import opened Reconciling
  import opened LabelCells

  function HubMeta(cfg: Config, w: World, name: string): Option<Meta> {
    if HubOf(cfg, name) in w.hubs then Some(w.hubs[HubOf(cfg, name)]) else None
  }

  function CellOf(cfg: Config, w: World, name: string, k: string): Cell
    requires name in w.spokes
  {
    CellAt(w.spokes[name], HubMeta(cfg, w, name), k)
  }

  /** What key k meets when the match is found. */
  function AroundWith(cfg: Config, w: World, name: string, found: Match, k: string): Surroundings {
    Surroundings(!found.Ambiguous?, if found.Ambiguous? then None else At(SourceOf(found), k),
                 IsSystemLabel(k), HubOf(cfg, name) in w.hubs)
  }

  function Around(cfg: Config, w: World, name: string, k: string): Surroundings
    requires name in w.spokes
  {
    AroundWith(cfg, w, name, MatchFor(w, name), k)
  }

  // ---- what a Reconcile leaves alone ----

  /** Only the named object and its hub object differ, and they only in labels and in the two
      tracking annotations; no object comes or goes. */
  ghost predicate OnlyTouches(cfg: Config, w: World, name: string, w': World) {
    && w'.hcs == w.hcs && w'.spokes.Keys == w.spokes.Keys && w'.hubs.Keys == w.hubs.Keys
    && (forall n <- w.spokes :: n != name ==> w'.spokes[n] == w.spokes[n])
    && (forall n <- w.hubs :: n != HubOf(cfg, name) ==> w'.hubs[n] == w.hubs[n])
    && (name in w.spokes ==>
          SameBut(w'.spokes[name].annotations, w.spokes[name].annotations, {HCPropagatedLabels, PropagatedLabels}))
    && (HubOf(cfg, name) in w.hubs ==>
          SameBut(w'.hubs[HubOf(cfg, name)].annotations, w.hubs[HubOf(cfg, name)].annotations,
                  {HCPropagatedLabels, PropagatedLabels}))
  }

  lemma NothingTouched(cfg: Config, w: World, name: string)
    ensures OnlyTouches(cfg, w, name, w)
  {
    hide HubOf;
  }

  lemma SpokeTouched(cfg: Config, w: World, name: string, m: Meta)
    requires name in w.spokes
    requires SameBut(m.annotations, w.spokes[name].annotations, {HCPropagatedLabels, PropagatedLabels})
    ensures OnlyTouches(cfg, w, name, w.(spokes := w.spokes[name := m]))
  {
    hide HubOf;
  }

  lemma HubTouched(cfg: Config, w: World, name: string, w1: World, m: Meta)
    requires OnlyTouches(cfg, w, name, w1) && HubOf(cfg, name) in w.hubs && w1.hubs == w.hubs
    requires SameBut(m.annotations, w.hubs[HubOf(cfg, name)].annotations, {HCPropagatedLabels, PropagatedLabels})
    ensures OnlyTouches(cfg, w, name, w1.(hubs := w.hubs[HubOf(cfg, name) := m]))
  {
    hide HubOf, SameBut;
  }

  lemma HCPhasesFrame(cfg: Config, w: World, name: string, source: LabelMap, f: Faults)
    requires name in w.spokes
    ensures OnlyTouches(cfg, w, name, HCPhases(cfg, w, name, source, f).world)
  {
    hide HCToSpoke, HCToHub, HubOf, OnlyTouches, SameBut;
    HCToSpokeFrame(w.spokes[name], source);
    NothingTouched(cfg, w, name);
    var m := HCToSpoke(w.spokes[name], source).meta;
    SpokeTouched(cfg, w, name, m);
    if HubOf(cfg, name) in w.hubs {
      var hub := w.hubs[HubOf(cfg, name)];
      HCToHubFrame(hub, source);
      HubTouched(cfg, w, name, w.(spokes := w.spokes[name := m]), HCToHub(hub, source).meta);
    }
  }

  lemma HCToSpokeFrame(m: Meta, source: LabelMap)
    ensures SameBut(HCToSpoke(m, source).meta.annotations, m.annotations, {HCPropagatedLabels, PropagatedLabels})
  {
    hide HCSync, Parse, Overlay, Managed;
    HCSyncView(m, source, Tracked(m, PropagatedLabels));
  }

  lemma HCToHubFrame(m: Meta, source: LabelMap)
    ensures SameBut(HCToHub(m, source).meta.annotations, m.annotations, {HCPropagatedLabels, PropagatedLabels})
  {
    hide HCSync, Parse, Overlay, Managed;
    HCSyncView(m, source, {});
  }

  lemma HubPhaseFrame(cfg: Config, w: World, name: string, f: Faults)
    requires name in w.spokes
    ensures OnlyTouches(cfg, w, name, HubPhase(cfg, w, name, f).world)
  {
    hide HubToSpokeOrClear, HubOf, OnlyTouches, SameBut;
    HubToSpokeFrame(w.spokes[name], w.hubs, HubOf(cfg, name));
    NothingTouched(cfg, w, name);
    SpokeTouched(cfg, w, name, HubToSpokeOrClear(w.spokes[name], w.hubs, HubOf(cfg, name)).meta);
  }

  lemma HubToSpokeFrame(m: Meta, hubs: map<string, Meta>, name: string)
    ensures SameBut(
      HubToSpokeOrClear(m, hubs, name).meta.annotations, m.annotations, {HCPropagatedLabels, PropagatedLabels})
  {
    hide HubSync, Parse, Cleared, Overlay, Managed, EligibleFromHub, KeptByHub;
    ClearedView(m, PropagatedLabels);
    if name in hubs {
      HubSyncView(m, EligibleFromHub(hubs[name]), KeptByHub(hubs[name]));
    }
  }

  /** Whatever fails, a Reconcile touches nothing but its own spoke object and hub object. */
  lemma OutcomeFrame(cfg: Config, w: World, name: string, f: Faults)
    ensures OnlyTouches(cfg, w, name, Reconciled(cfg, w, name, f).world)
  {
    hide HCPhases, HubPhase, IsSystemLabel, MatchOf, HubName;
    if Active(cfg, w, name) && !f.getSpoke && !f.listHCs {
      var found := MatchFor(w, name);
      if found.Ambiguous? {
        HubPhaseFrame(cfg, w, name, f);
      } else {
        var mid := HCPhases(cfg, w, name, SourceOf(found), f);
        HCPhasesFrame(cfg, w, name, SourceOf(found), f);
        HubPhaseFrame(cfg, mid.world, name, f);
      }
    }
  }

  // ---- one Reconcile, key by key ----

  lemma HCPhasesCells(cfg: Config, w: World, name: string, source: LabelMap, f: Faults, k: string, e: Surroundings)
    requires name in w.spokes && IsLabelKey(k)
    requires e.matched && e.c == At(source, k) && e.hubPresent == (HubOf(cfg, name) in w.hubs)
    ensures var r := HCPhases(cfg, w, name, source, f);
      && CellOf(cfg, r.world, name, k) == AfterPhases(CellOf(cfg, w, name, k), e, r.phases)
      && r.phases <= 2 && (r.ok ==> r.phases == 2)
  {
    hide HCToSpoke, HCToHub, IsSystemLabel, HubName;
    HCToSpokeCell(w.spokes[name], source, HubMeta(cfg, w, name), k, e);
    if e.hubPresent {
      HCToHubCell(w.hubs[HubOf(cfg, name)], source, HCToSpoke(w.spokes[name], source).meta, k, e);
    }
  }

  lemma HubPhaseCells(cfg: Config, w: World, name: string, f: Faults, k: string, e: Surroundings)
    requires name in w.spokes && IsLabelKey(k)
    requires e.system == IsSystemLabel(k) && e.hubPresent == (HubOf(cfg, name) in w.hubs)
    ensures var r := HubPhase(cfg, w, name, f);
      && name in r.world.spokes
      && CellOf(cfg, r.world, name, k)
         == (if r.phases == 3 then HubSpokeKey(CellOf(cfg, w, name, k), e) else CellOf(cfg, w, name, k))
      && (r.ok ==> r.phases == 3)
  {
    hide HubToSpoke, Cleared, IsSystemLabel, HubName;
    if e.hubPresent {
      HubToSpokeCell(w.spokes[name], w.hubs[HubOf(cfg, name)], k, e);
    } else {
      ClearHubCell(w.spokes[name], k, e);
    }
  }

  /** Every outcome of a Reconcile is a prefix of its three phases, the same for every key. */
  lemma OutcomeCells(cfg: Config, w: World, name: string, f: Faults, k: string)
    requires Active(cfg, w, name) && IsLabelKey(k)
    ensures var r := Reconciled(cfg, w, name, f);
      && name in r.world.spokes
      && CellOf(cfg, r.world, name, k) == AfterPhases(CellOf(cfg, w, name, k), Around(cfg, w, name, k), r.phases)
      && (r.ok ==> r.phases == 3)
  {
    hide HCPhases, HubPhase, IsSystemLabel, MatchOf, HubName;
    if !f.getSpoke && !f.listHCs {
      var found, e := MatchFor(w, name), Around(cfg, w, name, k);
      if found.Ambiguous? {
        HubPhaseCells(cfg, w, name, f, k, e);
      } else {
        HCPhasesCells(cfg, w, name, SourceOf(found), f, k, e);
        var mid := HCPhases(cfg, w, name, SourceOf(found), f);
        HCPhasesFrame(cfg, w, name, SourceOf(found), f);
        HubPhaseCells(cfg, mid.world, name, f, k, e);
      }
    }
  }

  /** After the HostedCluster phases the spoke tracks labels of the HostedCluster only. */
  lemma HCPhasesTracking(cfg: Config, w: World, name: string, source: LabelMap)
    requires name in w.spokes
    ensures var mid := HCPhases(cfg, w, name, source, NoFaults);
      && mid.ok
      && Tracked(mid.world.spokes[name], HCPropagatedLabels) <= source.Keys
  {
    hide HCSync, Parse, HubName;
    HCSyncView(w.spokes[name], source, Tracked(w.spokes[name], PropagatedLabels));
  }

  // ---- where labels come from ----

  lemma KeyProvenance(x: Cell, e: Surroundings, n: nat)
    requires Possible(x, e)
    ensures var x' := AfterPhases(x, e, n);
      && (!x.th && !x.tb && x.s.Some? ==> x'.s == x.s)
      && (x'.s.Some? && x'.s != x.s ==> !e.system && (x'.s == e.c || x'.s == x'.h))
  {
  }

  /** In every outcome a spoke label under an untracked key keeps its value, and a value that is
      new or changed is the HostedCluster's, or the hub's as the Reconcile leaves it, and its key
      is no system label. */
  lemma LocalLabelsAndProvenance(cfg: Config, w: World, name: string, f: Faults, k: string)
    requires Active(cfg, w, name) && IsLabelKey(k)
    ensures var w' := Reconciled(cfg, w, name, f).world;
      name in w'.spokes &&
      var before, after := w.spokes[name], w'.spokes[name];
      && (k in before.labels && k !in Tracked(before, HCPropagatedLabels) && k !in Tracked(before, PropagatedLabels)
          ==> k in after.labels && after.labels[k] == before.labels[k])
      && (k in after.labels && (k !in before.labels || after.labels[k] != before.labels[k])
          ==> !IsSystemLabel(k) &&
              (Around(cfg, w, name, k).c == Some(after.labels[k]) ||
               (HubMeta(cfg, w', name).Some? && At(HubMeta(cfg, w', name).value.labels, k) == Some(after.labels[k]))))
  {
    hide Reconciled, Parse, MatchOf, HubName;
    OutcomeCells(cfg, w, name, f, k);
    var r, e := Reconciled(cfg, w, name, f), Around(cfg, w, name, k);
    var x, x' := CellOf(cfg, w, name, k), CellOf(cfg, r.world, name, k);
    assert e.system == IsSystemLabel(k) && Possible(x, e);
    hide *;
    KeyProvenance(x, e, r.phases);
  }

  /** A system label that is not tracked is never added, changed or deleted, on the spoke or on
      the hub, and never becomes tracked; after a Reconcile that ran all its phases with a
      decided match no system label is tracked at all. */
  lemma SystemLabelsKept(cfg: Config, w: World, name: string, f: Faults, k: string)
    requires Active(cfg, w, name) && IsLabelKey(k) && IsSystemLabel(k)
    ensures var r := Reconciled(cfg, w, name, f);
      name in r.world.spokes &&
      var x, x' := CellOf(cfg, w, name, k), CellOf(cfg, r.world, name, k);
      && (!x.th && !x.tb && !x.uh ==> x' == x)
      && (r.ok && !MatchFor(w, name).Ambiguous? ==> !x'.th && !x'.tb && !x'.uh)
  {
    hide Reconciled, Parse, MatchOf, HubName, AfterPhases;
    assert HubMeta(cfg, w, name).None? ==> !CellOf(cfg, w, name, k).uh;
    hide CellAt;
    OutcomeCells(cfg, w, name, f, k);
    assert Around(cfg, w, name, k).system;
    assert Around(cfg, w, name, k).c.None?;
    hide IsSystemLabel;
    SystemKeyPhases(CellOf(cfg, w, name, k), Around(cfg, w, name, k), Reconciled(cfg, w, name, f).phases);
  }

  lemma SystemKeyPhases(x: Cell, e: Surroundings, n: nat)
    requires e.system && e.c.None? && (!e.hubPresent ==> !x.uh)
    ensures var x' := AfterPhases(x, e, n);
      && (!x.th && !x.tb && !x.uh ==> x' == x)
      && (n == 3 && e.matched ==> !x'.th && !x'.tb && !x'.uh)
  {
  }

  // ---- the HostedCluster's claim on a key ----

  /** Keys the HostedCluster owns on the spoke after its phase, also those it took over from the
      hub, are neither changed nor dropped by the hub phase of the same Reconcile. */
  lemma OwnershipSurvivesHubPhase(cfg: Config, w: World, name: string, source: LabelMap, k: string)
    requires name in w.spokes && (forall k <- source :: !IsSystemLabel(k))
    ensures var mid := HCPhases(cfg, w, name, source, NoFaults).world;
      var last := HubPhase(cfg, mid, name, NoFaults).world;
      name in last.spokes &&
      var spoke, spoke' := mid.spokes[name], last.spokes[name];
      k in Tracked(spoke, HCPropagatedLabels) ==>
        k in source && k in spoke.labels && k in spoke'.labels
        && spoke'.labels[k] == spoke.labels[k] == source[k] && k in Tracked(spoke', HCPropagatedLabels)
  {
    hide HCPhases, HubPhase, Parse, HubOf, IsSystemLabel, SameBut;
    var mid := HCPhases(cfg, w, name, source, NoFaults).world;
    HCPhasesTracking(cfg, w, name, source);
    HCPhasesFrame(cfg, w, name, source, NoFaults);
    var last := HubPhase(cfg, mid, name, NoFaults).world;
    HubPhaseFrame(cfg, mid, name, NoFaults);
    if k in Tracked(mid.spokes[name], HCPropagatedLabels) {
      var e := Surroundings(true, At(source, k), IsSystemLabel(k), HubOf(cfg, name) in w.hubs);
      HCPhasesCells(cfg, w, name, source, NoFaults, k, e);
      HubPhaseCells(cfg, mid, name, NoFaults, k, e);
    }
  }
}
