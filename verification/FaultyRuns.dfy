/** Runs of Reconciles of one cluster without outside edits, any of which may fail half-way. */
module FaultyRuns {
  import opened Tracking
  import opened Labels
  import opened HostedClusters
  import opened Names
  import opened Reconciling
  import opened LabelCells
  import opened LabelTheorems
  import opened Convergence

  /** The world after the first n Reconciles, with the given faults. */
  ghost function WorldAt(cfg: Config, w: World, name: string, fs: seq<Faults>, n: nat): World
    requires n <= |fs|
  {
    if n == 0 then w else Reconciled(cfg, WorldAt(cfg, w, name, fs, n - 1), name, fs[n - 1]).world
  }

  /** Reconcile i of the run returns without error. */
  ghost predicate Completes(cfg: Config, w: World, name: string, fs: seq<Faults>, i: nat)
    requires i < |fs|
  {
    Reconciled(cfg, WorldAt(cfg, w, name, fs, i), name, fs[i]).ok
  }

  /** A Reconcile in which no call fails is a complete one. */
  lemma NoFaultsCompletes(cfg: Config, w: World, name: string, fs: seq<Faults>, i: nat)
    requires i < |fs| && fs[i] == NoFaults
    ensures Completes(cfg, w, name, fs, i)
  {
    var before := WorldAt(cfg, w, name, fs, i);
    hide WorldAt, HCPhases, HubPhase, MatchFor;
    if Active(cfg, before, name) {
      PassCells(cfg, before, name);
    }
  }

  // ---- one key ----

  /** Part of a step does not orphan a key. */
  lemma KeyStaysUnorphaned(x: Cell, e: Surroundings, n: nat)
    requires Possible(x, e) && !Orphaned(x, e)
    ensures !Orphaned(AfterPhases(x, e, n), e)
  {
  }

  /** A step orphans no key, whatever the match is then. */
  lemma KeyIsUnorphaned(x: Cell, e: Surroundings, e': Surroundings)
    requires Possible(x, e) && Possible(x, e') && e.system == e'.system && e.hubPresent == e'.hubPresent
    ensures !Orphaned(Step(x, e), e')
  {
  }

  lemma SteadyKeyPhases(x: Cell, e: Surroundings, n: nat)
    requires e.system && e.c.None? && !x.tb && (!x.th || !e.matched)
    ensures var x' := AfterPhases(x, e, n);
      x'.s == x.s && x'.tb == x.tb && x'.th == x.th
  {
  }

  // ---- the two stages ----

  /** After one complete Reconcile: the match is decided for good, and no key is orphaned. */
  ghost predicate Ripe(cfg: Config, w: World, name: string) {
    Active(cfg, w, name) ==>
      && Steady(cfg, w, name)
      && forall k | IsLabelKey(k) :: !Orphaned(CellOf(cfg, w, name, k), Around(cfg, w, name, k))
  }

  /** After two: nothing is left to do. */
  ghost predicate Done(cfg: Config, w: World, name: string) {
    Active(cfg, w, name) ==> AllQuiet(cfg, w, name) && Clean(cfg, w, name)
  }

  /** A Reconcile that returns without error did what one without faults does. */
  lemma CompleteIsPass(cfg: Config, w: World, name: string, f: Faults)
    requires Active(cfg, w, name) && Reconciled(cfg, w, name, f).ok
    ensures Reconciled(cfg, w, name, f) == Pass(cfg, w, name)
  {
    hide HCToSpoke, HCToHub, HubToSpokeOrClear, MatchFor, HubOf, SourceOf;
  }

  lemma StaysActive(cfg: Config, w: World, name: string, f: Faults)
    ensures Active(cfg, Reconciled(cfg, w, name, f).world, name) <==> Active(cfg, w, name)
  {
    OutcomeFrame(cfg, w, name, f);
    hide Reconciled, HubOf;
    assert CreatedVia !in {HCPropagatedLabels, PropagatedLabels};
  }

  /** When nobody tracks the infrastructure label the match stays, whatever fails. */
  lemma SteadyMatch(cfg: Config, w: World, name: string, f: Faults)
    requires Active(cfg, w, name) && Steady(cfg, w, name)
    ensures var w' := Reconciled(cfg, w, name, f).world;
      && name in w'.spokes && MatchFor(w', name) == MatchFor(w, name) && Steady(cfg, w', name)
      && forall k :: Around(cfg, w', name, k) == Around(cfg, w, name, k)
  {
    InfraLabelIsSystem();
    var r, k := Reconciled(cfg, w, name, f), AUTO_INFRA_LABEL;
    OutcomeCells(cfg, w, name, f, k);
    OutcomeFrame(cfg, w, name, f);
    var x, e := CellOf(cfg, w, name, k), Around(cfg, w, name, k);
    AroundPossible(cfg, w, name, k);
    hide Reconciled, MatchOf, IsSystemLabel, HubName, Parse, SourceOf, AUTO_INFRA_LABEL;
    SteadyKeyPhases(x, e, r.phases);
    hide AfterPhases;
    assert At(r.world.spokes[name].labels, k) == At(w.spokes[name].labels, k);
    assert InfraID(r.world.spokes[name]) == InfraID(w.spokes[name]);
  }

  lemma RipeAfterOne(cfg: Config, w: World, name: string, f: Faults)
    requires Reconciled(cfg, w, name, f).ok
    ensures Ripe(cfg, Reconciled(cfg, w, name, f).world, name)
  {
    StaysActive(cfg, w, name, f);
    if Active(cfg, w, name) {
      CompleteIsPass(cfg, w, name, f);
      PassCells(cfg, w, name);
      MatchKept(cfg, w, name);
      hide Reconciled, MatchOf, IsSystemLabel, HubName, Parse, SourceOf, Step, Orphaned, Around, NextAround, CellAt;
      var w' := Pass(cfg, w, name).world;
      forall k | IsLabelKey(k) ensures !Orphaned(CellOf(cfg, w', name, k), Around(cfg, w', name, k)) {
        AroundNext(cfg, w, name, k);
        KeyIsUnorphaned(CellOf(cfg, w, name, k), Around(cfg, w, name, k), NextAround(cfg, w, name, k));
      }
    }
  }

  lemma StaysRipe(cfg: Config, w: World, name: string, f: Faults)
    requires Ripe(cfg, w, name)
    ensures Ripe(cfg, Reconciled(cfg, w, name, f).world, name)
  {
    hide Reconciled, IsHosted, IsLabelKey, Orphaned, Around, CellOf, Steady, AfterPhases, Possible, MatchFor;
    StaysActive(cfg, w, name, f);
    if Active(cfg, w, name) {
      SteadyMatch(cfg, w, name, f);
      var w' := Reconciled(cfg, w, name, f).world;
      forall k | IsLabelKey(k) ensures !Orphaned(CellOf(cfg, w', name, k), Around(cfg, w', name, k)) {
        OutcomeCells(cfg, w, name, f, k);
        AroundPossible(cfg, w, name, k);
        KeyStaysUnorphaned(CellOf(cfg, w, name, k), Around(cfg, w, name, k), Reconciled(cfg, w, name, f).phases);
      }
    }
  }

  lemma DoneAfterTwo(cfg: Config, w: World, name: string, f: Faults)
    requires Ripe(cfg, w, name) && Reconciled(cfg, w, name, f).ok
    ensures Done(cfg, Reconciled(cfg, w, name, f).world, name)
  {
    StaysActive(cfg, w, name, f);
    if Active(cfg, w, name) {
      SteadyMatch(cfg, w, name, f);
      CompleteIsPass(cfg, w, name, f);
      PassCells(cfg, w, name);
      CleanAfter(cfg, w, name);
      hide Reconciled, MatchOf, IsSystemLabel, HubName, Parse, SourceOf, Orphaned, Around, CellOf, Step, Quiet, Clean;
      var w' := Pass(cfg, w, name).world;
      forall k | IsLabelKey(k) ensures Quiet(CellOf(cfg, w', name, k), Around(cfg, w', name, k)) {
        AroundPossible(cfg, w, name, k);
        KeySettlesInOne(CellOf(cfg, w, name, k), Around(cfg, w, name, k));
      }
    }
  }

  /** When nothing is left to do, no Reconcile sends a patch or changes anything, whatever fails in it. */
  lemma DoneForGood(cfg: Config, w: World, name: string, f: Faults)
    requires Done(cfg, w, name)
    ensures var r := Reconciled(cfg, w, name, f); r.world == w && r.patches == 0
  {
    if Active(cfg, w, name) {
      QuietPass(cfg, w, name);
      NothingPatched(cfg, w, name);
      FaultsDoNotMatter(cfg, w, name, f);
    }
  }

  lemma FaultsDoNotMatter(cfg: Config, w: World, name: string, f: Faults)
    requires Active(cfg, w, name) && Pass(cfg, w, name).patches == 0
    ensures var r := Reconciled(cfg, w, name, f); r.world == w && r.patches == 0
  {
    hide Encode, Parse, MatchOf, IsSystemLabel, HubName, Overlay, Managed, Eligible;
    NothingPatched(cfg, w, name);
    var found := MatchFor(w, name);
    var m := w.spokes[name];
    if !found.Ambiguous? {
      assert HCToSpoke(m, SourceOf(found)).meta == m;
      assert w.spokes[name := m] == w.spokes;
    }
  }

  // ---- whole runs ----

  lemma {:induction false} RipeFrom(cfg: Config, w: World, name: string, fs: seq<Faults>, i: nat, n: nat)
    requires i < n <= |fs| && Completes(cfg, w, name, fs, i)
    ensures Ripe(cfg, WorldAt(cfg, w, name, fs, n), name)
  {
    hide Ripe, Reconciled;
    var before := WorldAt(cfg, w, name, fs, n - 1);
    if n == i + 1 {
      RipeAfterOne(cfg, before, name, fs[i]);
    } else {
      RipeFrom(cfg, w, name, fs, i, n - 1);
      StaysRipe(cfg, before, name, fs[n - 1]);
    }
  }

  lemma {:induction false} DoneFrom(cfg: Config, w: World, name: string, fs: seq<Faults>, i: nat, j: nat, n: nat)
    requires i < j < n <= |fs| && Completes(cfg, w, name, fs, i) && Completes(cfg, w, name, fs, j)
    ensures Done(cfg, WorldAt(cfg, w, name, fs, n), name)
  {
    hide Ripe, Done, Reconciled;
    var before := WorldAt(cfg, w, name, fs, n - 1);
    if n == j + 1 {
      RipeFrom(cfg, w, name, fs, i, j);
      DoneAfterTwo(cfg, before, name, fs[j]);
    } else {
      DoneFrom(cfg, w, name, fs, i, j, n - 1);
      DoneForGood(cfg, before, name, fs[n - 1]);
    }
  }

  /** Convergence with failures: from any world, once two of the Reconciles of a run have returned without
      error, however many others failed before, between and after them and at whichever calls, every
      later Reconcile, failing or not, sends no patch and changes nothing. */
  lemma SettlesThroughFailures(
    cfg: Config, w: World, name: string, fs: seq<Faults>, i: nat, j: nat, n: nat, f: Faults)
    requires i < j < n <= |fs| && Completes(cfg, w, name, fs, i) && Completes(cfg, w, name, fs, j)
    ensures var w' := WorldAt(cfg, w, name, fs, n); var r := Reconciled(cfg, w', name, f);
      r.world == w' && r.patches == 0
  {
    hide Done, Reconciled, WorldAt, Completes;
    DoneFrom(cfg, w, name, fs, i, j, n);
    DoneForGood(cfg, WorldAt(cfg, w, name, fs, n), name, f);
  }
}
