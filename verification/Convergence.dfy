/** Repeated Reconciles without outside edits: where they end, and after how many. */
module Convergence {
  import opened Basics
  import opened Strings
  import opened Tracking
  import opened Labels
  import opened HostedClusters
  import opened Names
  import opened Reconciling
  import opened LabelCells
  import opened LabelTheorems

  // ---- one key ----

  /** The hub's key was dropped or taken by the HostedCluster while the spoke still follows the
      hub with another value than the HostedCluster's: the HostedCluster phase must skip the key,
      and the hub phase then deletes it. */
  predicate Orphaned(x: Cell, e: Surroundings) {
    && e.matched && e.c.Some?
    && x.tb && !x.th && x.s.Some? && x.s != e.c
    && (x.h.None? || x.h == e.c || x.uh)
  }

  /** After two steps a key is quiet, even when the HostedCluster changed or the match was decided
      between the two. */
  lemma KeySettlesInTwo(x: Cell, e: Surroundings, e': Surroundings)
    requires Possible(x, e) && Possible(x, e')
    requires e.system == e'.system && e.hubPresent == e'.hubPresent
    ensures Quiet(Step(Step(x, e), e'), e')
  {
  }

  /** One step is enough for a key exactly when it is not orphaned. */
  lemma KeySettlesInOne(x: Cell, e: Surroundings)
    requires Possible(x, e)
    ensures Quiet(Step(x, e), e) <==> !Orphaned(x, e)
  {
  }

  /** What a key has on the hub and on the spoke after a step that does not set it to the
      HostedCluster's value. */
  function LeftOnHub(x: Cell): Option<string> {
    if x.uh then None else x.h
  }

  function LeftOnSpoke(x: Cell, e: Surroundings): Option<string> {
    var s, h := if x.th then None else x.s, LeftOnHub(x);
    if !e.system && h.Some? && (s.None? || s == h || x.tb) then h
    else if x.tb && h.None? then None
    else s
  }

  /** One step under e is enough for a key that meets e' from then on: the match has become ambiguous;
      or the HostedCluster's value is the same and the key is not orphaned; or it is another, but the
      first was taken over neither on the spoke nor on the hub, and the second will not be either. */
  predicate EnoughInOne(x: Cell, e: Surroundings, e': Surroundings) {
    if !e'.matched then true
    else if e'.c == e.c then !Orphaned(x, e)
    else
      && (e.c.Some? ==>
            && x.s.Some? && x.s != e.c && !x.th
            && (e.hubPresent ==> x.h.Some? && x.h != e.c && !x.uh))
      && (e'.c.Some? ==>
            && LeftOnSpoke(x, e).Some? && LeftOnSpoke(x, e) != e'.c
            && (e.hubPresent ==> LeftOnHub(x).Some? && LeftOnHub(x) != e'.c))
  }

  lemma KeyEnoughInOne(x: Cell, e: Surroundings, e': Surroundings)
    requires Possible(x, e) && Possible(x, e')
    requires e.system == e'.system && e.hubPresent == e'.hubPresent && (!e.matched ==> !e'.matched)
    ensures Quiet(Step(x, e), e') <==> EnoughInOne(x, e, e')
  {
  }

  // ---- the whole object ----

  /** The empty key, which names no label, is not tracked. */
  predicate Clean(cfg: Config, w: World, name: string)
    requires name in w.spokes
  {
    && "" !in Tracked(w.spokes[name], PropagatedLabels)
    && (!MatchFor(w, name).Ambiguous? ==>
          && "" !in Tracked(w.spokes[name], HCPropagatedLabels)
          && (HubMeta(cfg, w, name).Some? ==> "" !in Tracked(HubMeta(cfg, w, name).value, HCPropagatedLabels)))
  }

  ghost predicate AllQuiet(cfg: Config, w: World, name: string)
    requires name in w.spokes
  {
    forall k | IsLabelKey(k) :: Quiet(CellOf(cfg, w, name, k), Around(cfg, w, name, k))
  }

  /** A Reconcile without faults. */
  ghost function Pass(cfg: Config, w: World, name: string): Outcome {
    Reconciled(cfg, w, name, NoFaults)
  }

  lemma PassCells(cfg: Config, w: World, name: string)
    requires Active(cfg, w, name)
    ensures var r := Pass(cfg, w, name);
      && r.ok && Active(cfg, r.world, name) && OnlyTouches(cfg, w, name, r.world)
      && (forall k | IsLabelKey(k) ::
            CellOf(cfg, r.world, name, k) == Step(CellOf(cfg, w, name, k), Around(cfg, w, name, k)))
  {
    hide HubToSpoke, HCToSpoke, HCToHub, Cleared, MatchOf, IsSystemLabel, HubName, Parse;
    var r := Pass(cfg, w, name);
    OutcomeFrame(cfg, w, name, NoFaults);
    assert SameBut(
        r.world.spokes[name].annotations, w.spokes[name].annotations, {HCPropagatedLabels, PropagatedLabels});
    assert CreatedVia !in {HCPropagatedLabels, PropagatedLabels};
    assert r.ok;
    forall k | IsLabelKey(k)
      ensures CellOf(cfg, r.world, name, k) == Step(CellOf(cfg, w, name, k), Around(cfg, w, name, k))
    {
      OutcomeCells(cfg, w, name, NoFaults, k);
    }
  }

  lemma NothingPatched(cfg: Config, w: World, name: string)
    requires Active(cfg, w, name)
    ensures var r, found := Pass(cfg, w, name), MatchFor(w, name);
      && (r.patches == 0 <==>
            && (!found.Ambiguous? ==>
                  && !HCToSpoke(w.spokes[name], SourceOf(found)).patched
                  && (HubOf(cfg, name) in w.hubs ==> !HCToHub(w.hubs[HubOf(cfg, name)], SourceOf(found)).patched))
            && !HubToSpokeOrClear(w.spokes[name], w.hubs, HubOf(cfg, name)).patched)
      && (r.patches == 0 ==> r.world == w)
  {
    hide Encode, Parse, MatchOf, IsSystemLabel, HubName, Overlay, Managed, Eligible;
    var found := MatchFor(w, name);
    var m := w.spokes[name];
    if !found.Ambiguous? && !HCToSpoke(m, SourceOf(found)).patched {
      assert HCToSpoke(m, SourceOf(found)).meta == m;
      assert w.spokes[name := m] == w.spokes;
    }
  }

  /** One key is quiet exactly when each phase, as the key meets it, leaves it alone. */
  lemma KeyQuiet(cfg: Config, w: World, name: string, k: string)
    requires name in w.spokes
    ensures var x, found, h := CellOf(cfg, w, name, k), MatchFor(w, name), HubMeta(cfg, w, name);
      Quiet(x, Around(cfg, w, name, k)) <==>
        && HubSpokeKey(x, FromHub(k, h.Some?)) == x
        && (!found.Ambiguous? ==> HCSpokeKey(x, FromHC(SourceOf(found), k)) == x)
        && (!found.Ambiguous? && h.Some? ==> HCHubKey(x, FromHC(SourceOf(found), k)) == x)
  {
    hide CellAt, MatchOf, IsSystemLabel, HubName, SourceOf;
  }

  lemma AllQuietByPhase(cfg: Config, w: World, name: string)
    requires name in w.spokes
    ensures var found, h := MatchFor(w, name), HubMeta(cfg, w, name);
      AllQuiet(cfg, w, name) <==>
        && (forall k | IsLabelKey(k) ::
              HubSpokeKey(CellAt(w.spokes[name], h, k), FromHub(k, h.Some?)) == CellAt(w.spokes[name], h, k))
        && (!found.Ambiguous? ==> forall k | IsLabelKey(k) ::
              HCSpokeKey(CellAt(w.spokes[name], h, k), FromHC(SourceOf(found), k)) == CellAt(w.spokes[name], h, k))
        && (!found.Ambiguous? && h.Some? ==> forall k | IsLabelKey(k) ::
              HCHubKey(CellAt(w.spokes[name], h, k), FromHC(SourceOf(found), k)) == CellAt(w.spokes[name], h, k))
  {
    hide CellAt, MatchFor, IsSystemLabel, HubName, SourceOf, Around, HubMeta, FromHC, FromHub,
      HCSpokeKey, HCHubKey, HubSpokeKey, Quiet, IsLabelKey;
    forall k {
      KeyQuiet(cfg, w, name, k);
    }
  }

  /** A Reconcile sends no patch exactly when every key is quiet (and no empty key is tracked),
      and then the world stays as it is. */
  lemma QuietPass(cfg: Config, w: World, name: string)
    requires Active(cfg, w, name)
    ensures Pass(cfg, w, name).patches == 0 <==> AllQuiet(cfg, w, name) && Clean(cfg, w, name)
    ensures Pass(cfg, w, name).patches == 0 ==> Pass(cfg, w, name).world == w
  {
    NothingPatched(cfg, w, name);
    AllQuietByPhase(cfg, w, name);
    hide Reconciled, HCToSpoke, HCToHub, HubToSpokeOrClear, MatchOf, IsSystemLabel, HubName, Parse,
      CellAt, Quiet, HCSpokeKey, HCHubKey, HubSpokeKey, FromHC, FromHub, AllQuiet, IsLabelKey;
    var found, h, m := MatchFor(w, name), HubMeta(cfg, w, name), w.spokes[name];
    HubToSpokeQuiet(m, w.hubs, HubOf(cfg, name));
    if !found.Ambiguous? {
      HCToSpokeQuiet(m, SourceOf(found), h);
      if h.Some? {
        HCToHubQuiet(h.value, SourceOf(found), m);
      }
    }
  }

  // ---- the match from one Reconcile to the next ----

  lemma {:induction false} LosingTheInfraID(hcs: seq<HostedCluster>, mcName: string, infraID: string)
    requires MatchOf(hcs, mcName, infraID).Ambiguous?
    ensures MatchOf(hcs, mcName, "").Ambiguous?
  {
    ClaimantsElements(hcs, mcName, infraID);
    ClaimantsElements(hcs, mcName, "");
    assert Claimants(hcs, mcName, infraID) == [];
    assert forall hc <- hcs :: !Claims(hc, mcName, infraID);
    var bare := Claimants(hcs, mcName, "");
    assert bare != [] ==> bare[0] in bare;
    SameNamesakes(hcs, mcName, infraID);
  }

  lemma {:induction false} SameNamesakes(hcs: seq<HostedCluster>, mcName: string, infraID: string)
    requires forall hc <- hcs :: !Claims(hc, mcName, infraID)
    ensures Namesakes(hcs, mcName, infraID) == Namesakes(hcs, mcName, "")
  {
    if hcs != [] {
      SameNamesakes(hcs[..|hcs| - 1], mcName, infraID);
    }
  }

  /** The label that names the infrastructure survives the next Reconcile. */
  predicate InfraSafe(cfg: Config, w: World, name: string)
    requires name in w.spokes
  {
    var x := CellOf(cfg, w, name, AUTO_INFRA_LABEL);
    x.s.Some? ==> !(x.th && !MatchFor(w, name).Ambiguous?) && !(x.tb && (x.h.None? || x.uh))
  }

  /** The match that the Reconcile after the next one will find. */
  function NextMatch(cfg: Config, w: World, name: string): Match
    requires name in w.spokes
  {
    if InfraSafe(cfg, w, name) then MatchFor(w, name) else MatchOf(w.hcs, name, "")
  }

  /** Nobody tracks that label any more, so that it survives every Reconcile. */
  predicate Steady(cfg: Config, w: World, name: string)
    requires name in w.spokes
  {
    var x := CellOf(cfg, w, name, AUTO_INFRA_LABEL);
    !x.tb && (!x.th || MatchFor(w, name).Ambiguous?)
  }

  lemma SystemKeyStep(x: Cell, e: Surroundings)
    requires Possible(x, e) && e.system
    ensures var x' := Step(x, e); var lost := (x.th && e.matched) || (x.tb && (x.h.None? || x.uh));
      && x'.s == (if lost then None else x.s)
      && !x'.tb && (e.matched ==> !x'.th)
  {
  }

  /** A Reconcile decides the match for good: it can lose the infrastructure ID only when a user
      wrote that label's key into a tracking annotation, and then only the first time. */
  lemma MatchKept(cfg: Config, w: World, name: string)
    requires Active(cfg, w, name)
    ensures var w' := Pass(cfg, w, name).world;
      && name in w'.spokes
      && MatchFor(w', name) == NextMatch(cfg, w, name)
      && (MatchFor(w, name).Ambiguous? ==> MatchFor(w', name).Ambiguous?)
      && Steady(cfg, w', name) && InfraSafe(cfg, w', name)
  {
    PassCells(cfg, w, name);
    InfraLabelIsSystem();
    var w', k := Pass(cfg, w, name).world, AUTO_INFRA_LABEL;
    var x, e := CellOf(cfg, w, name, k), Around(cfg, w, name, k);
    var x' := CellOf(cfg, w', name, k);
    assert Possible(x, e) && e.system && x' == Step(x, e);
    assert e.matched == !MatchFor(w, name).Ambiguous?;
    assert x.s == At(w.spokes[name].labels, k) && x'.s == At(w'.spokes[name].labels, k);
    assert w'.hcs == w.hcs;
    hide Reconciled, MatchOf, IsSystemLabel, HubName, Parse, SourceOf, Step, Around;
    SystemKeyStep(x, e);
    assert x'.s == x.s ==> InfraID(w'.spokes[name]) == InfraID(w.spokes[name]);
    assert x'.s == None ==> InfraID(w'.spokes[name]) == "";
    if x'.s != x.s && MatchFor(w, name).Ambiguous? {
      LosingTheInfraID(w.hcs, name, InfraID(w.spokes[name]));
    }
  }

  lemma CleanAfterHC(cfg: Config, w: World, name: string, source: LabelMap)
    requires name in w.spokes
    ensures var w' := HCPhases(cfg, w, name, source, NoFaults).world;
      && "" !in Tracked(w'.spokes[name], HCPropagatedLabels)
      && (HubMeta(cfg, w', name).Some? ==> "" !in Tracked(HubMeta(cfg, w', name).value, HCPropagatedLabels))
  {
    hide HCSync, HubName, Parse;
    HCSyncView(w.spokes[name], source, Tracked(w.spokes[name], PropagatedLabels));
    if HubOf(cfg, name) in w.hubs {
      HCSyncView(w.hubs[HubOf(cfg, name)], source, {});
    }
  }

  lemma CleanAfterHub(cfg: Config, w: World, name: string)
    requires name in w.spokes
    ensures var w' := HubPhase(cfg, w, name, NoFaults).world;
      && name in w'.spokes && w'.hubs == w.hubs
      && "" !in Tracked(w'.spokes[name], PropagatedLabels)
      && Tracked(w'.spokes[name], HCPropagatedLabels) == Tracked(w.spokes[name], HCPropagatedLabels)
  {
    hide HubSync, Cleared, HubName, Parse, IsSystemLabel;
    ClearedView(w.spokes[name], PropagatedLabels);
    if HubOf(cfg, name) in w.hubs {
      var hub := w.hubs[HubOf(cfg, name)];
      HubSyncView(w.spokes[name], EligibleFromHub(hub), KeptByHub(hub));
    }
  }

  /** After a Reconcile no empty key is tracked any more. */
  lemma CleanAfter(cfg: Config, w: World, name: string)
    requires Active(cfg, w, name)
    ensures var w' := Pass(cfg, w, name).world;
      && name in w'.spokes && Clean(cfg, w', name)
      && "" !in Tracked(w'.spokes[name], PropagatedLabels)
      && (!MatchFor(w, name).Ambiguous? ==>
            && "" !in Tracked(w'.spokes[name], HCPropagatedLabels)
            && (HubMeta(cfg, w', name).Some? ==> "" !in Tracked(HubMeta(cfg, w', name).value, HCPropagatedLabels)))
  {
    MatchKept(cfg, w, name);
    hide HCPhases, HubPhase, MatchOf, IsSystemLabel, HubName, Parse;
    var found := MatchFor(w, name);
    if found.Ambiguous? {
      CleanAfterHub(cfg, w, name);
    } else {
      HCPhasesTracking(cfg, w, name, SourceOf(found));
      CleanAfterHC(cfg, w, name, SourceOf(found));
      CleanAfterHub(cfg, HCPhases(cfg, w, name, SourceOf(found), NoFaults).world, name);
    }
  }

  // ---- the theorems ----

  /** Convergence: from any world, whatever the annotations hold, with the hub object present or
      absent and the match found, absent or ambiguous, a third Reconcile sends no patch and
      changes nothing. */
  lemma SettlesInTwo(cfg: Config, w: World, name: string)
    ensures var w2 := Pass(cfg, Pass(cfg, w, name).world, name).world;
      var r := Pass(cfg, w2, name);
      r.ok && r.patches == 0 && r.world == w2
  {
    hide HCPhases, HubPhase, MatchFor, CellOf, Around, IsSystemLabel, HubOf, HubMeta, IsLabelKey;
    if Active(cfg, w, name) {
      var w1 := Pass(cfg, w, name).world;
      PassCells(cfg, w, name);
      var w2 := Pass(cfg, w1, name).world;
      PassCells(cfg, w1, name);
      PassCells(cfg, w2, name);
      SecondPassQuiet(cfg, w, name);
      CleanAfter(cfg, w1, name);
      QuietPass(cfg, w2, name);
    }
  }

  lemma SecondPassQuiet(cfg: Config, w: World, name: string)
    requires Active(cfg, w, name)
    ensures var w2 := Pass(cfg, Pass(cfg, w, name).world, name).world;
      name in w2.spokes && AllQuiet(cfg, w2, name)
  {
    var w1 := Pass(cfg, w, name).world;
    PassCells(cfg, w, name);
    var w2 := Pass(cfg, w1, name).world;
    PassCells(cfg, w1, name);
    MatchKept(cfg, w, name);
    MatchKept(cfg, w1, name);
    hide Reconciled, MatchOf, IsSystemLabel, HubName, Parse, SourceOf, Step, Quiet;
    forall k | IsLabelKey(k) ensures Quiet(CellOf(cfg, w2, name, k), Around(cfg, w2, name, k)) {
      var x, e := CellOf(cfg, w, name, k), Around(cfg, w, name, k);
      var e' := Around(cfg, w1, name, k);
      assert Around(cfg, w2, name, k) == e';
      AroundPossible(cfg, w, name, k);
      AroundPossible(cfg, w1, name, k);
      KeySettlesInTwo(x, e, e');
    }
  }

  lemma AroundPossible(cfg: Config, w: World, name: string, k: string)
    requires name in w.spokes
    ensures Possible(CellOf(cfg, w, name, k), Around(cfg, w, name, k))
  {
    hide MatchOf, IsSystemLabel, HubName, Parse;
  }

  /** What key k will meet from the Reconcile after the next one on. */
  function NextAround(cfg: Config, w: World, name: string, k: string): Surroundings
    requires name in w.spokes
  {
    AroundWith(cfg, w, name, NextMatch(cfg, w, name), k)
  }

  lemma AroundNext(cfg: Config, w: World, name: string, k: string)
    requires Active(cfg, w, name)
    ensures var w', x := Pass(cfg, w, name).world, CellOf(cfg, w, name, k);
      var e, e' := Around(cfg, w, name, k), NextAround(cfg, w, name, k);
      && name in w'.spokes && Around(cfg, w', name, k) == e'
      && Possible(x, e) && Possible(x, e')
      && e.system == e'.system && e.hubPresent == e'.hubPresent && (!e.matched ==> !e'.matched)
  {
    PassCells(cfg, w, name);
    MatchKept(cfg, w, name);
    AroundPossible(cfg, w, name, k);
    AroundPossible(cfg, Pass(cfg, w, name).world, name, k);
    hide Reconciled, MatchOf, IsSystemLabel, HubName, Parse, SourceOf, CellAt, NextMatch, MatchFor;
  }

  /** When one Reconcile is enough, exactly: from any world, whatever the annotations hold. */
  lemma SettlesInOneExactly(cfg: Config, w: World, name: string)
    ensures Pass(cfg, Pass(cfg, w, name).world, name).patches == 0 <==>
      (Active(cfg, w, name) ==> forall k | IsLabelKey(k) ::
         EnoughInOne(CellOf(cfg, w, name, k), Around(cfg, w, name, k), NextAround(cfg, w, name, k)))
  {
    hide HCPhases, HubPhase, MatchFor, CellOf, Around, NextAround, IsSystemLabel, HubOf, HubMeta, IsLabelKey, Step,
      Quiet, EnoughInOne;
    if Active(cfg, w, name) {
      var w1 := Pass(cfg, w, name).world;
      PassCells(cfg, w, name);
      CleanAfter(cfg, w, name);
      QuietPass(cfg, w1, name);
      hide Reconciled, Clean;
      forall k | IsLabelKey(k)
        ensures Quiet(CellOf(cfg, w1, name, k), Around(cfg, w1, name, k))
           <==> EnoughInOne(CellOf(cfg, w, name, k), Around(cfg, w, name, k), NextAround(cfg, w, name, k))
      {
        AroundNext(cfg, w, name, k);
        KeyEnoughInOne(CellOf(cfg, w, name, k), Around(cfg, w, name, k), NextAround(cfg, w, name, k));
      }
    }
  }

  /** As long as the infrastructure label is not lost, that is: exactly when no key is orphaned. */
  lemma SettlesInOne(cfg: Config, w: World, name: string)
    requires Active(cfg, w, name) && InfraSafe(cfg, w, name)
    ensures Pass(cfg, Pass(cfg, w, name).world, name).patches == 0 <==>
      forall k | IsLabelKey(k) :: !Orphaned(CellOf(cfg, w, name, k), Around(cfg, w, name, k))
  {
    SettlesInOneExactly(cfg, w, name);
    hide Pass, MatchFor, CellOf, AroundWith, IsLabelKey, InfraSafe;
    forall k | IsLabelKey(k)
      ensures EnoughInOne(CellOf(cfg, w, name, k), Around(cfg, w, name, k), NextAround(cfg, w, name, k))
         <==> !Orphaned(CellOf(cfg, w, name, k), Around(cfg, w, name, k))
    {
      assert NextAround(cfg, w, name, k) == Around(cfg, w, name, k);
    }
  }

  lemma OrphanedKeySteps(x: Cell, e: Surroundings, e': Surroundings)
    requires Possible(x, e) && Possible(x, e') && Orphaned(x, e)
    requires e.system == e'.system && e.hubPresent == e'.hubPresent && (!e'.matched ==> e'.c.None?)
    ensures Step(x, e).s == None && !Step(x, e).tb
    ensures Step(Step(x, e), e').s == e'.c && (Step(Step(x, e), e').th <==> e'.c.Some?)
  {
  }

  /** An orphaned key is gone from the spoke after one Reconcile. After two it has the value of the
      HostedCluster that then matches, tracked as its own, or is still gone if there is none. */
  lemma OrphanedKey(cfg: Config, w: World, name: string, k: string)
    requires Active(cfg, w, name) && IsLabelKey(k)
    requires Orphaned(CellOf(cfg, w, name, k), Around(cfg, w, name, k))
    ensures var w1 := Pass(cfg, w, name).world;
      var w2, c := Pass(cfg, w1, name).world, NextAround(cfg, w, name, k).c;
      && name in w1.spokes && name in w2.spokes
      && k !in w1.spokes[name].labels
      && At(w2.spokes[name].labels, k) == c
      && (k in Tracked(w2.spokes[name], HCPropagatedLabels) <==> c.Some?)
      && (InfraSafe(cfg, w, name) ==> c == Around(cfg, w, name, k).c)
  {
    var w1 := Pass(cfg, w, name).world;
    PassCells(cfg, w, name);
    PassCells(cfg, w1, name);
    AroundNext(cfg, w, name, k);
    assert !NextAround(cfg, w, name, k).matched ==> NextAround(cfg, w, name, k).c.None?;
    hide Reconciled, MatchOf, IsSystemLabel, HubName, Parse, SourceOf, Step, Orphaned, Around, NextAround;
    OrphanedKeySteps(CellOf(cfg, w, name, k), Around(cfg, w, name, k), NextAround(cfg, w, name, k));
  }

  /** The regression case ACM-33069: the spoke follows the hub's env=staging, the hub drops env,
      and the HostedCluster has env=prod. */
  function Acm33069(cfg: Config, name: string): World {
    World(map[name := Meta(map["env" := "staging"], map[CreatedVia := "hypershift", PropagatedLabels := "env"])],
          map[HubOf(cfg, name) := Meta(map[], map[])],
          [HostedCluster(name, "clusters", map[], "", map["env" := "prod"])])
  }

  lemma Acm33069Match(cfg: Config, name: string)
    ensures MatchFor(Acm33069(cfg, name), name) == Found(Acm33069(cfg, name).hcs[0])
  {
    var w := Acm33069(cfg, name);
    assert "env" != AUTO_INFRA_LABEL by { assert |AUTO_INFRA_LABEL| > 3; }
    var hc := w.hcs[0];
    assert w.hcs[..0] == [];
    assert AnnotatedFor(hc) == "" && !Claims(hc, name, "") && MatchesByName(hc, name, "");
    hide Claims, MatchesByName;
    assert Claimants(w.hcs[..0], name, "") == [] && Namesakes(w.hcs[..0], name, "") == [];
    assert |w.hcs| == 1;
    assert Claimants(w.hcs, name, "") == [];
    assert Namesakes(w.hcs, name, "") == [hc];
  }

  lemma Acm33069Cell(cfg: Config, name: string)
    ensures CellOf(cfg, Acm33069(cfg, name), name, "env") == Cell(Some("staging"), false, true, None, false)
  {
    var w := Acm33069(cfg, name);
    assert Parse("env") == {"env"} by { SplitWhole("env", ','); }
    assert Parse("") == {};
    hide HubName, Parse;
    assert HubMeta(cfg, w, name) == Some(Meta(map[], map[]));
  }

  lemma Acm33069Facts(cfg: Config, name: string)
    requires !cfg.discoveryDisabled && !cfg.localAgent
    ensures var w := Acm33069(cfg, name);
      && Active(cfg, w, name) && InfraSafe(cfg, w, name)
      && Orphaned(CellOf(cfg, w, name, "env"), Around(cfg, w, name, "env"))
      && Around(cfg, w, name, "env").c == Some("prod")
  {
    var w := Acm33069(cfg, name);
    NotASystemLabel("env");
    Acm33069Match(cfg, name);
    Acm33069Cell(cfg, name);
    hide MatchFor, IsSystemLabel, HubName, Parse, CellOf;
    assert AUTO_INFRA_LABEL !in w.spokes[name].labels by { assert |AUTO_INFRA_LABEL| > 3; }
  }

  lemma OnePassIsNotEnough(cfg: Config, name: string)
    requires !cfg.discoveryDisabled && !cfg.localAgent
    ensures var w := Acm33069(cfg, name);
      var w1 := Pass(cfg, w, name).world;
      var w2 := Pass(cfg, w1, name).world;
      && name in w1.spokes && "env" !in w1.spokes[name].labels
      && Pass(cfg, w1, name).patches > 0
      && name in w2.spokes && "env" in w2.spokes[name].labels && w2.spokes[name].labels["env"] == "prod"
      && "env" in Tracked(w2.spokes[name], HCPropagatedLabels)
  {
    Acm33069Facts(cfg, name);
    assert IsLabelKey("env");
    hide *;
    OrphanedKey(cfg, Acm33069(cfg, name), name, "env");
    SettlesInOne(cfg, Acm33069(cfg, name), name);
  }

  /** Another state for which one pass is not enough, with no orphaned key in it: the HostedCluster is
      found by infrastructure ID, and a user wrote that label's key into the tracking annotation. */
  function InfraTracked(cfg: Config, name: string): World {
    InfraLabelIsSystem();
    World(map[name := Meta(map[AUTO_INFRA_LABEL := "x"],
                           map[CreatedVia := "hypershift", HCPropagatedLabels := AUTO_INFRA_LABEL])],
          map[],
          [HostedCluster(name + "-hc", "clusters", map[], "x", map["env" := "prod"])])
  }

  lemma InfraTrackedMatches(cfg: Config, name: string)
    ensures var w := InfraTracked(cfg, name);
      MatchOf(w.hcs, name, "x") == Found(w.hcs[0]) && MatchOf(w.hcs, name, "") == NoMatch
  {
    var w := InfraTracked(cfg, name);
    var hc := w.hcs[0];
    assert |hc.name| != |name|;
    assert w.hcs[..0] == [] && |w.hcs| == 1;
    assert Claims(hc, name, "x") && !Claims(hc, name, "") && !MatchesByName(hc, name, "");
    hide Claims, MatchesByName;
    assert Claimants(w.hcs[..0], name, "x") == [] && Claimants(w.hcs[..0], name, "") == [];
    assert Namesakes(w.hcs[..0], name, "") == [];
    assert Claimants(w.hcs, name, "x") == [hc];
    assert Claimants(w.hcs, name, "") == [] && Namesakes(w.hcs, name, "") == [];
  }

  lemma InfraTrackedIsNotOrphaned(cfg: Config, name: string)
    ensures var w := InfraTracked(cfg, name);
      && (forall k :: !CellOf(cfg, w, name, k).tb)
      && CellOf(cfg, w, name, "env").s == None
      && CellOf(cfg, w, name, AUTO_INFRA_LABEL).s == Some("x") && CellOf(cfg, w, name, AUTO_INFRA_LABEL).th
  {
    InfraLabelIsSystem();
    assert Parse(AUTO_INFRA_LABEL) == {AUTO_INFRA_LABEL} by { SplitWhole(AUTO_INFRA_LABEL, ','); }
    assert Parse("") == {};
    assert "env" != AUTO_INFRA_LABEL by { assert |AUTO_INFRA_LABEL| > 3; }
    hide HubName, Parse, AUTO_INFRA_LABEL;
  }

  lemma InfraTrackedSource(cfg: Config, name: string)
    ensures At(SourceOf(Found(InfraTracked(cfg, name).hcs[0])), "env") == Some("prod")
    ensures At(SourceOf(NoMatch), "env") == None && IsLabelKey("env") && !IsSystemLabel("env")
  {
    NotASystemLabel("env");
    hide IsSystemLabel;
  }

  lemma InfraTrackedSpoke(cfg: Config, name: string)
    ensures var w := InfraTracked(cfg, name);
      && name in w.spokes && w.hubs == map[] && IsHosted(w.spokes[name]) && InfraID(w.spokes[name]) == "x"
  {
  }

  lemma InfraTrackedMeets(cfg: Config, name: string)
    requires !cfg.discoveryDisabled && !cfg.localAgent
    ensures var w := InfraTracked(cfg, name);
      && Active(cfg, w, name) && IsLabelKey("env")
      && Around(cfg, w, name, "env") == Surroundings(true, Some("prod"), false, false)
      && NextAround(cfg, w, name, "env") == Surroundings(true, None, false, false)
  {
    var w := InfraTracked(cfg, name);
    InfraTrackedIsNotOrphaned(cfg, name);
    InfraTrackedMatches(cfg, name);
    InfraTrackedSource(cfg, name);
    InfraTrackedSpoke(cfg, name);
    hide InfraTracked, MatchOf, IsSystemLabel, HubOf, CellOf, AUTO_INFRA_LABEL, SourceOf, IsHosted, InfraID, IsLabelKey;
  }

  lemma TheMatchCanBeLost(cfg: Config, name: string)
    requires !cfg.discoveryDisabled && !cfg.localAgent
    ensures var w := InfraTracked(cfg, name);
      && (forall k :: !Orphaned(CellOf(cfg, w, name, k), Around(cfg, w, name, k)))
      && Pass(cfg, Pass(cfg, w, name).world, name).patches > 0
  {
    var w, k := InfraTracked(cfg, name), "env";
    InfraTrackedIsNotOrphaned(cfg, name);
    InfraTrackedMeets(cfg, name);
    hide InfraTracked, CellOf, Around, NextAround, Active, Pass;
    assert !EnoughInOne(CellOf(cfg, w, name, k), Around(cfg, w, name, k), NextAround(cfg, w, name, k));
    SettlesInOneExactly(cfg, w, name);
  }

  // ---- whether the HostedCluster wins ----

  /** The HostedCluster's value is set on the spoke. */
  predicate TakenOver(x: Cell, e: Surroundings) {
    x.s.None? || x.s == e.c || x.th
  }

  /** What one step makes of the spoke's value of a key for which the HostedCluster has one. */
  function AfterOne(x: Cell, e: Surroundings): Option<string> {
    if TakenOver(x, e) then e.c
    else if Orphaned(x, e) then None
    else if x.tb then x.h
    else x.s
  }

  /** What two steps make of it, when the key meets e' in the second. */
  function AfterTwo(x: Cell, e: Surroundings, e': Surroundings): Option<string> {
    if Orphaned(x, e) then e'.c
    else if !TakenOver(x, e) then if x.tb then x.h else x.s
    else if e'.c.Some? then e'.c
    else if !e'.matched then e.c
    else if x.h.Some? && x.h != e.c && !x.uh then x.h
    else None
  }

  lemma KeyAfterOne(x: Cell, e: Surroundings)
    requires Possible(x, e) && e.matched && e.c.Some?
    ensures Step(x, e).s == AfterOne(x, e)
  {
  }

  lemma KeyAfterTwo(x: Cell, e: Surroundings, e': Surroundings)
    requires Possible(x, e) && Possible(x, e') && e.matched && e.c.Some? && (!e'.matched ==> e'.c.None?)
    requires e.system == e'.system && e.hubPresent == e'.hubPresent
    ensures Step(Step(x, e), e').s == AfterTwo(x, e, e')
  {
  }

  lemma KeyWinner(x: Cell, e: Surroundings)
    requires Possible(x, e) && e.matched && e.c.Some?
    ensures AfterOne(x, e) == e.c <==> TakenOver(x, e)
    ensures AfterTwo(x, e, e) == e.c <==> TakenOver(x, e) || Orphaned(x, e)
  {
  }

  /** The spoke's value after one Reconcile, exactly. A HostedCluster's label does not always override:
      its value is there exactly when the spoke lacked the key, had that value, or tracked the key as the
      HostedCluster's. Otherwise an untracked value stands, and one tracked as the hub's becomes the
      hub's, or goes when it is orphaned. */
  lemma WhenTheHostedClusterWins(cfg: Config, w: World, name: string, k: string)
    requires Active(cfg, w, name) && IsLabelKey(k) && Around(cfg, w, name, k).c.Some?
    ensures var x, e := CellOf(cfg, w, name, k), Around(cfg, w, name, k); var w' := Pass(cfg, w, name).world;
      && name in w'.spokes
      && At(w'.spokes[name].labels, k) == AfterOne(x, e)
      && (At(w'.spokes[name].labels, k) == e.c <==> TakenOver(x, e))
  {
    hide Reconciled, MatchOf, HubName, Parse, Step, IsSystemLabel, SourceOf, Orphaned, TakenOver, AfterOne;
    PassCells(cfg, w, name);
    AroundPossible(cfg, w, name, k);
    KeyAfterOne(CellOf(cfg, w, name, k), Around(cfg, w, name, k));
    KeyWinner(CellOf(cfg, w, name, k), Around(cfg, w, name, k));
    hide Possible, HCSpokeKey, HCHubKey, HubSpokeKey;
  }

  /** Its value after two Reconciles, which is where it settles, exactly. As long as the infrastructure
      label is not lost, the HostedCluster has also won the orphaned keys by then. */
  lemma WhatStands(cfg: Config, w: World, name: string, k: string)
    requires Active(cfg, w, name) && IsLabelKey(k) && Around(cfg, w, name, k).c.Some?
    ensures var x, e := CellOf(cfg, w, name, k), Around(cfg, w, name, k);
      var w2 := Pass(cfg, Pass(cfg, w, name).world, name).world;
      && name in w2.spokes
      && At(w2.spokes[name].labels, k) == AfterTwo(x, e, NextAround(cfg, w, name, k))
      && (InfraSafe(cfg, w, name) ==>
            (At(w2.spokes[name].labels, k) == e.c <==> TakenOver(x, e) || Orphaned(x, e)))
  {
    var w1 := Pass(cfg, w, name).world;
    PassCells(cfg, w, name);
    PassCells(cfg, w1, name);
    AroundNext(cfg, w, name, k);
    var x, e, e' := CellOf(cfg, w, name, k), Around(cfg, w, name, k), NextAround(cfg, w, name, k);
    assert e.matched && (!e'.matched ==> e'.c.None?);
    assert InfraSafe(cfg, w, name) ==> e' == e;
    hide Reconciled, MatchOf, HubName, Parse, Step, IsSystemLabel, SourceOf, Orphaned, TakenOver, AfterTwo, Around,
      NextAround, InfraSafe;
    KeyAfterTwo(x, e, e');
    KeyWinner(x, e);
    assert CellOf(cfg, Pass(cfg, w1, name).world, name, k) == Step(Step(x, e), e');
    hide Possible, HCSpokeKey, HCHubKey, HubSpokeKey;
  }

  // ---- where it ends ----

  lemma KeyNormalForm(x: Cell, e: Surroundings)
    requires Possible(x, e) && e.matched
    ensures var y := Step(x, e);
      && (y.th <==> e.c.Some? && y.s == e.c)
      && (e.hubPresent ==> (y.uh <==> e.c.Some? && y.h == e.c) && (e.c.Some? ==> y.h.Some?))
      && (y.tb <==> !e.system && y.h.Some? && !y.uh && y.s == y.h)
      && (e.c.Some? ==> Step(y, e).s.Some?)
  {
  }

  /** The keys under which two label maps agree. */
  function Agree(a: LabelMap, b: LabelMap): set<string> {
    set k | k in a && k in b && a[k] == b[k]
  }

  lemma NormalFormKey(cfg: Config, w: World, name: string, k: string)
    requires Active(cfg, w, name) && !MatchFor(w, name).Ambiguous? && HubOf(cfg, name) in w.hubs && IsLabelKey(k)
    ensures var w' := Pass(cfg, w, name).world;
      name in w'.spokes && HubOf(cfg, name) in w'.hubs &&
      var spoke, hub, source := w'.spokes[name], w'.hubs[HubOf(cfg, name)], SourceOf(MatchFor(w, name));
      && (k in Tracked(hub, HCPropagatedLabels) <==> k in Agree(source, hub.labels))
      && (k in Tracked(spoke, HCPropagatedLabels) <==> k in Agree(source, spoke.labels))
      && (k in Tracked(spoke, PropagatedLabels) <==> k in Agree(EligibleFromHub(hub), spoke.labels))
      && (k in Tracked(spoke, PropagatedLabels) ==> k !in Tracked(spoke, HCPropagatedLabels))
      && (k in source ==> k in hub.labels)
  {
    hide Reconciled, MatchOf, HubName, Parse, Step, IsSystemLabel, SourceOf;
    PassCells(cfg, w, name);
    AroundPossible(cfg, w, name, k);
    var x, e := CellOf(cfg, w, name, k), Around(cfg, w, name, k);
    KeyNormalForm(x, e);
    hide Possible, HCSpokeKey, HCHubKey, HubSpokeKey;
    var y := CellOf(cfg, Pass(cfg, w, name).world, name, k);
    assert y == Step(x, e);
    assert e.system == IsSystemLabel(k) && e.hubPresent;
    assert e.c == At(SourceOf(MatchFor(w, name)), k);
  }

  /** Normal form: after any Reconcile with a decided match and a hub object, from any start, the
      three tracking sets are functions of the labels alone, and no key is tracked twice on the
      spoke; and the hub has every label the HostedCluster may send. */
  lemma NormalForm(cfg: Config, w: World, name: string)
    requires Active(cfg, w, name) && !MatchFor(w, name).Ambiguous? && HubOf(cfg, name) in w.hubs
    ensures var w' := Pass(cfg, w, name).world;
      name in w'.spokes && HubOf(cfg, name) in w'.hubs &&
      var spoke, hub, source := w'.spokes[name], w'.hubs[HubOf(cfg, name)], SourceOf(MatchFor(w, name));
      && Tracked(hub, HCPropagatedLabels) == Agree(source, hub.labels)
      && Tracked(spoke, HCPropagatedLabels) == Agree(source, spoke.labels)
      && Tracked(spoke, PropagatedLabels) == Agree(EligibleFromHub(hub), spoke.labels)
      && Tracked(spoke, HCPropagatedLabels) !! Tracked(spoke, PropagatedLabels)
      && source.Keys <= hub.labels.Keys
  {
    var w' := Pass(cfg, w, name).world;
    PassCells(cfg, w, name);
    CleanAfter(cfg, w, name);
    var spoke, hub, source := w'.spokes[name], w'.hubs[HubOf(cfg, name)], SourceOf(MatchFor(w, name));
    ParsedKeys(Anno(hub.annotations, HCPropagatedLabels));
    ParsedKeys(Anno(spoke.annotations, HCPropagatedLabels));
    ParsedKeys(Anno(spoke.annotations, PropagatedLabels));
    forall k | IsLabelKey(k) {
      NormalFormKey(cfg, w, name, k);
    }
    hide Reconciled, MatchOf, HubName, Parse, IsSystemLabel, Active;
  }
}
