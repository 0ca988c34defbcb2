/** Whole runs: Reconciles of any clusters, with any failures, between arbitrary user edits. */
module LabelRuns {
  import opened Tracking
  import opened Labels
  import opened HostedClusters
  import opened Names
  import opened Reconciling
  import opened LabelCells
  import opened LabelTheorems

  datatype Event = Reconcile(name: string, f: Faults) | Edit(after: World)

  ghost function After(cfg: Config, w: World, e: Event): World {
    match e
    case Reconcile(name, f) => Reconciled(cfg, w, name, f).world
    case Edit(w') => w'
  }

  ghost function Run(cfg: Config, w: World, events: seq<Event>): World
    decreases |events|
  {
    if events == [] then w else Run(cfg, After(cfg, w, events[0]), events[1..])
  }

  /** Users change labels, other annotations and HostedClusters, and create and delete objects,
      but do not add system keys to what is tracked. */
  predicate EditAllowed(w: World, w': World) {
    && (forall n <- w'.spokes, k <- TrackedOnSpoke(w'.spokes[n]) | IsSystemLabel(k) ::
          n in w.spokes && k in TrackedOnSpoke(w.spokes[n]))
    && (forall n <- w'.hubs, k <- Tracked(w'.hubs[n], HCPropagatedLabels) | IsSystemLabel(k) ::
          n in w.hubs && k in Tracked(w.hubs[n], HCPropagatedLabels))
  }

  function TrackedOnSpoke(m: Meta): set<string> {
    Tracked(m, HCPropagatedLabels) + Tracked(m, PropagatedLabels)
  }

  ghost predicate RunAllowed(cfg: Config, w: World, events: seq<Event>)
    decreases |events|
  {
    events == [] ||
    ((events[0].Edit? ==> EditAllowed(w, events[0].after)) && RunAllowed(cfg, After(cfg, w, events[0]), events[1..]))
  }

  predicate NoSystemKey(keys: set<string>) {
    forall k <- keys :: !IsSystemLabel(k)
  }

  /** No object anywhere tracks a system label. */
  predicate NoSystemTracked(w: World) {
    && (forall n <- w.spokes :: NoSystemKey(TrackedOnSpoke(w.spokes[n])))
    && (forall n <- w.hubs :: NoSystemKey(Tracked(w.hubs[n], HCPropagatedLabels)))
  }

  predicate SameSystemLabels(a: LabelMap, b: LabelMap) {
    forall k <- a.Keys + b.Keys | IsSystemLabel(k) :: At(a, k) == At(b, k)
  }

  /** Every object still exists and has exactly the system labels it had. */
  predicate SystemLabelsSame(w: World, w': World) {
    && w'.spokes.Keys == w.spokes.Keys && w'.hubs.Keys == w.hubs.Keys
    && (forall n <- w.spokes :: SameSystemLabels(w.spokes[n].labels, w'.spokes[n].labels))
    && (forall n <- w.hubs :: SameSystemLabels(w.hubs[n].labels, w'.hubs[n].labels))
  }

  lemma TrackedKeyIsLabelKey(m: Meta, anno: AnnoKey, k: string)
    requires k in Tracked(m, anno) && IsSystemLabel(k)
    ensures IsLabelKey(k)
  {
    ParsedKeys(Anno(m.annotations, anno));
    NotASystemLabel("");
  }

  /** One system key across a Reconcile: still not tracked, same value, on the spoke and the hub. */
  lemma SystemKeyIsSafe(cfg: Config, w: World, name: string, f: Faults, k: string)
    requires Active(cfg, w, name) && IsLabelKey(k) && IsSystemLabel(k)
    requires k !in TrackedOnSpoke(w.spokes[name])
    requires HubMeta(cfg, w, name).Some? ==> k !in Tracked(HubMeta(cfg, w, name).value, HCPropagatedLabels)
    ensures var w' := Reconciled(cfg, w, name, f).world;
      && name in w'.spokes
      && k !in TrackedOnSpoke(w'.spokes[name])
      && At(w'.spokes[name].labels, k) == At(w.spokes[name].labels, k)
      && (HubMeta(cfg, w', name).Some? && HubMeta(cfg, w, name).Some? ==>
            && k !in Tracked(HubMeta(cfg, w', name).value, HCPropagatedLabels)
            && At(HubMeta(cfg, w', name).value.labels, k) == At(HubMeta(cfg, w, name).value.labels, k))
  {
    hide Reconciled, Parse, HubName, IsSystemLabel, MatchOf, SourceOf;
    SystemLabelsKept(cfg, w, name, f, k);
  }

  lemma ReconcileSafeForSpoke(cfg: Config, w: World, name: string, f: Faults)
    requires NoSystemTracked(w) && Active(cfg, w, name)
    ensures var w' := Reconciled(cfg, w, name, f).world;
      name in w'.spokes &&
      NoSystemKey(TrackedOnSpoke(w'.spokes[name])) && SameSystemLabels(w.spokes[name].labels, w'.spokes[name].labels)
  {
    OutcomeFrame(cfg, w, name, f);
    assert name in w.spokes;
    hide Reconciled, Active, Parse, HubName, IsSystemLabel, IsLabelKey;
    var m, m' := w.spokes[name], Reconciled(cfg, w, name, f).world.spokes[name];
    forall k | IsSystemLabel(k) && (k in TrackedOnSpoke(m') || k in m.labels || k in m'.labels)
      ensures k !in TrackedOnSpoke(m') && At(m.labels, k) == At(m'.labels, k)
    {
      if k in Tracked(m', HCPropagatedLabels) { TrackedKeyIsLabelKey(m', HCPropagatedLabels, k); }
      if k in Tracked(m', PropagatedLabels) { TrackedKeyIsLabelKey(m', PropagatedLabels, k); }
      assert NoSystemKey(TrackedOnSpoke(m));
      SystemKeyIsSafe(cfg, w, name, f, k);
    }
  }

  lemma ReconcileSafeForHub(cfg: Config, w: World, name: string, f: Faults)
    requires NoSystemTracked(w) && Active(cfg, w, name) && HubOf(cfg, name) in w.hubs
    ensures var w', hub := Reconciled(cfg, w, name, f).world, HubOf(cfg, name);
      && hub in w'.hubs
      && NoSystemKey(Tracked(w'.hubs[hub], HCPropagatedLabels))
      && SameSystemLabels(w.hubs[hub].labels, w'.hubs[hub].labels)
  {
    OutcomeFrame(cfg, w, name, f);
    assert name in w.spokes;
    hide Reconciled, Active, Parse, HubName, IsSystemLabel, IsLabelKey;
    var hub := HubOf(cfg, name);
    var m, m' := w.hubs[hub], Reconciled(cfg, w, name, f).world.hubs[hub];
    forall k | IsSystemLabel(k) && (k in Tracked(m', HCPropagatedLabels) || k in m.labels || k in m'.labels)
      ensures k !in Tracked(m', HCPropagatedLabels) && At(m.labels, k) == At(m'.labels, k)
    {
      if k in Tracked(m', HCPropagatedLabels) { TrackedKeyIsLabelKey(m', HCPropagatedLabels, k); }
      assert NoSystemKey(TrackedOnSpoke(w.spokes[name]));
      assert NoSystemKey(Tracked(m, HCPropagatedLabels));
      SystemKeyIsSafe(cfg, w, name, f, k);
    }
  }

  lemma Inactive(cfg: Config, w: World, name: string, f: Faults)
    requires !Active(cfg, w, name)
    ensures Reconciled(cfg, w, name, f).world == w && Reconciled(cfg, w, name, f).patches == 0
  {
  }

  /** A Reconcile, whatever fails in it, keeps system labels and starts tracking none. */
  lemma ReconcileIsSafe(cfg: Config, w: World, name: string, f: Faults)
    requires NoSystemTracked(w)
    ensures var w' := Reconciled(cfg, w, name, f).world;
      NoSystemTracked(w') && SystemLabelsSame(w, w')
  {
    hide Reconciled, Parse, HubName, IsSystemLabel, Active, NoSystemKey, TrackedOnSpoke, Tracked;
    OutcomeFrame(cfg, w, name, f);
    if Active(cfg, w, name) {
      ReconcileSafeForSpoke(cfg, w, name, f);
      if HubOf(cfg, name) in w.hubs {
        ReconcileSafeForHub(cfg, w, name, f);
      }
    } else {
      Inactive(cfg, w, name, f);
    }
  }

  lemma EditIsSafe(w: World, w': World)
    requires NoSystemTracked(w) && EditAllowed(w, w')
    ensures NoSystemTracked(w')
  {
    hide Tracked, IsSystemLabel;
    forall n <- w'.spokes ensures NoSystemKey(TrackedOnSpoke(w'.spokes[n])) {
      assert n in w.spokes ==> NoSystemKey(TrackedOnSpoke(w.spokes[n]));
    }
    forall n <- w'.hubs ensures NoSystemKey(Tracked(w'.hubs[n], HCPropagatedLabels)) {
      assert n in w.hubs ==> NoSystemKey(Tracked(w.hubs[n], HCPropagatedLabels));
    }
  }

  /** Safety over whole runs: from a world that tracks no system label, in particular one without
      tracking annotations, no run ever tracks one, and no Reconcile in it adds, changes or
      deletes a system label anywhere. */
  lemma {:induction false} RunsAreSafe(cfg: Config, w: World, events: seq<Event>, i: nat)
    requires NoSystemTracked(w) && RunAllowed(cfg, w, events) && i < |events|
    ensures var before := Run(cfg, w, events[..i]);
      var after := After(cfg, before, events[i]);
      && NoSystemTracked(before) && NoSystemTracked(after)
      && (events[i].Reconcile? ==> SystemLabelsSame(before, after))
    decreases |events|
  {
    hide Reconciled, NoSystemTracked, SystemLabelsSame, EditAllowed;
    if events[0].Reconcile? {
      ReconcileIsSafe(cfg, w, events[0].name, events[0].f);
    } else {
      EditIsSafe(w, events[0].after);
    }
    if i == 0 {
      assert events[..0] == [];
    } else {
      RunsAreSafe(cfg, After(cfg, w, events[0]), events[1..], i - 1);
      assert events[..i][1..] == events[1..][..i - 1];
    }
  }

  // ---- different clusters ----

  /** The two worlds agree on all that a Reconcile of this cluster reads. */
  predicate SameFor(cfg: Config, w: World, v: World, name: string) {
    && w.hcs == v.hcs
    && (name in w.spokes <==> name in v.spokes)
    && (name in w.spokes ==> w.spokes[name] == v.spokes[name])
    && HubMeta(cfg, w, name) == HubMeta(cfg, v, name)
  }

  lemma HCPhasesLocal(cfg: Config, w: World, v: World, name: string, source: LabelMap, f: Faults)
    requires SameFor(cfg, w, v, name) && name in w.spokes
    ensures var r, q := HCPhases(cfg, w, name, source, f), HCPhases(cfg, v, name, source, f);
      q == r.(world := q.world) && SameFor(cfg, r.world, q.world, name)
  {
    hide HCToSpoke, HCToHub, HubName;
  }

  lemma HubPhaseLocal(cfg: Config, w: World, v: World, name: string, f: Faults)
    requires SameFor(cfg, w, v, name) && name in w.spokes
    ensures var r, q := HubPhase(cfg, w, name, f), HubPhase(cfg, v, name, f);
      q == r.(world := q.world) && SameFor(cfg, r.world, q.world, name)
  {
    hide HubToSpoke, Cleared, HubName;
  }

  /** What a Reconcile does depends only on its own two objects and the HostedClusters. */
  lemma ReconcileLocal(cfg: Config, w: World, v: World, name: string, f: Faults)
    requires SameFor(cfg, w, v, name)
    ensures var r, q := Reconciled(cfg, w, name, f), Reconciled(cfg, v, name, f);
      q == r.(world := q.world) && SameFor(cfg, r.world, q.world, name)
  {
    hide HCPhases, HubPhase, HubName, MatchOf, IsSystemLabel;
    if Active(cfg, w, name) {
      var found := MatchFor(w, name);
      var mid, mid' := w, v;
      if !found.Ambiguous? {
        HCPhasesLocal(cfg, w, v, name, SourceOf(found), f);
        mid, mid' := HCPhases(cfg, w, name, SourceOf(found), f).world, HCPhases(cfg, v, name, SourceOf(found), f).world;
      }
      HubPhaseLocal(cfg, mid, mid', name, f);
    }
  }

  lemma TouchedElsewhere(cfg: Config, w: World, w': World, a: string, b: string)
    requires OnlyTouches(cfg, w, a, w') && a != b && HubOf(cfg, a) != HubOf(cfg, b)
    ensures SameFor(cfg, w, w', b)
  {
    hide HubName;
  }

  lemma EitherOrder(cfg: Config, w: World, wa: World, wb: World, wab: World, wba: World, a: string, b: string)
    requires a != b && HubOf(cfg, a) != HubOf(cfg, b)
    requires OnlyTouches(cfg, w, a, wa) && OnlyTouches(cfg, w, b, wb)
    requires OnlyTouches(cfg, wa, b, wab) && OnlyTouches(cfg, wb, a, wba)
    requires SameFor(cfg, wb, wab, b) && SameFor(cfg, wa, wba, a)
    ensures wab == wba
  {
    hide HubOf, SameBut, OnlyTouches, SameFor;
    EitherOrderSpokes(cfg, w, wa, wb, wab, wba, a, b);
    EitherOrderHubs(cfg, w, wa, wb, wab, wba, a, b);
    SameHostedClusters(cfg, w, wa, wab, a, b);
    SameHostedClusters(cfg, w, wb, wba, b, a);
  }

  lemma SameHostedClusters(cfg: Config, w: World, w1: World, w2: World, a: string, b: string)
    requires OnlyTouches(cfg, w, a, w1) && OnlyTouches(cfg, w1, b, w2)
    ensures w2.hcs == w.hcs
  {
  }

  lemma EitherOrderSpokes(cfg: Config, w: World, wa: World, wb: World, wab: World, wba: World, a: string, b: string)
    requires a != b
    requires OnlyTouches(cfg, w, a, wa) && OnlyTouches(cfg, w, b, wb)
    requires OnlyTouches(cfg, wa, b, wab) && OnlyTouches(cfg, wb, a, wba)
    requires SameFor(cfg, wb, wab, b) && SameFor(cfg, wa, wba, a)
    ensures wab.spokes == wba.spokes
  {
    hide HubOf, SameBut, HubMeta;
    forall n <- w.spokes ensures wab.spokes[n] == wba.spokes[n] {
    }
  }

  lemma EitherOrderHubs(cfg: Config, w: World, wa: World, wb: World, wab: World, wba: World, a: string, b: string)
    requires HubOf(cfg, a) != HubOf(cfg, b)
    requires OnlyTouches(cfg, w, a, wa) && OnlyTouches(cfg, w, b, wb)
    requires OnlyTouches(cfg, wa, b, wab) && OnlyTouches(cfg, wb, a, wba)
    requires SameFor(cfg, wb, wab, b) && SameFor(cfg, wa, wba, a)
    ensures wab.hubs == wba.hubs
  {
    hide HubOf, SameBut;
    forall n <- w.hubs ensures wab.hubs[n] == wba.hubs[n] {
    }
  }

  /** Reconciles of different clusters work on different objects, so their order does not matter,
      whatever fails in either: the same world, the same results, the same patches. */
  lemma ReconcilesCommute(cfg: Config, w: World, a: string, fa: Faults, b: string, fb: Faults)
    requires a != b
    ensures var ra, rb := Reconciled(cfg, w, a, fa), Reconciled(cfg, w, b, fb);
      var rab, rba := Reconciled(cfg, ra.world, b, fb), Reconciled(cfg, rb.world, a, fa);
      && rab.world == rba.world
      && rab == rb.(world := rab.world) && rba == ra.(world := rba.world)
  {
    var ra, rb := Reconciled(cfg, w, a, fa), Reconciled(cfg, w, b, fb);
    var rab, rba := Reconciled(cfg, ra.world, b, fb), Reconciled(cfg, rb.world, a, fa);
    if HubOf(cfg, a) == HubOf(cfg, b) {
      HubNameInjective(cfg.prefix, cfg.clusterName, a, b);
      assert false;
    }
    hide Reconciled, HubOf, OnlyTouches, SameFor;
    OutcomeFrame(cfg, w, a, fa);
    OutcomeFrame(cfg, w, b, fb);
    OutcomeFrame(cfg, ra.world, b, fb);
    OutcomeFrame(cfg, rb.world, a, fa);
    TouchedElsewhere(cfg, w, ra.world, a, b);
    TouchedElsewhere(cfg, w, rb.world, b, a);
    ReconcileLocal(cfg, w, ra.world, b, fb);
    ReconcileLocal(cfg, w, rb.world, a, fa);
    EitherOrder(cfg, w, ra.world, rb.world, rab.world, rba.world, a, b);
  }
}
