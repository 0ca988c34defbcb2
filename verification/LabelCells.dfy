/** The synchroniser seen one label key at a time: every key evolves on its own. */
module LabelCells {
  import opened Basics
  import opened Tracking
  import opened Labels
  import opened Reconciling

  /** All that concerns one key: its value on the spoke and on the hub, and whether it is tracked
      on the spoke as the HostedCluster's (th), as the hub's (tb), on the hub as the HostedCluster's (uh). */
  datatype Cell = Cell(s: Option<string>, th: bool, tb: bool, h: Option<string>, uh: bool)

  /** What the key meets: whether the HostedCluster phases run at all (they do not when the match
      is ambiguous), the key's value on the HostedCluster if it may travel, whether it is a system
      label, and whether there is a hub object. */
  datatype Surroundings = Surroundings(matched: bool, c: Option<string>, system: bool, hubPresent: bool)

  function At(labels: LabelMap, k: string): Option<string> {
    if k in labels then Some(labels[k]) else None
  }

  function CellAt(spoke: Meta, hub: Option<Meta>, k: string): Cell {
    Cell(At(spoke.labels, k), k in Tracked(spoke, HCPropagatedLabels), k in Tracked(spoke, PropagatedLabels),
         if hub.Some? then At(hub.value.labels, k) else None,
         hub.Some? && k in Tracked(hub.value, HCPropagatedLabels))
  }

  /** A cell as it can occur. */
  predicate Possible(x: Cell, e: Surroundings) {
    && (e.system ==> e.c.None?)
    && (!e.hubPresent ==> x.h.None? && !x.uh)
  }

  // ---- the phases on one key ----

  function HCSpokeKey(x: Cell, e: Surroundings): Cell {
    if !e.matched then x
    else if e.c.Some? && (x.s.None? || x.s == e.c || x.th) then x.(s := e.c, th := true, tb := false)
    else if x.th then x.(s := None, th := false)
    else x
  }

  function HCHubKey(x: Cell, e: Surroundings): Cell {
    if !e.matched || !e.hubPresent then x
    else if e.c.Some? && (x.h.None? || x.h == e.c || x.uh) then x.(h := e.c, uh := true)
    else if x.uh then x.(h := None, uh := false)
    else x
  }

  function HubSpokeKey(x: Cell, e: Surroundings): Cell {
    if !e.system && x.h.Some? && !x.uh && (x.s.None? || x.s == x.h || x.tb) then x.(s := x.h, tb := true)
    else if x.tb && (x.h.None? || x.uh) then x.(s := None, tb := false)
    else x.(tb := false)
  }

  /** The cell after the first n phases. */
  function AfterPhases(x: Cell, e: Surroundings, n: nat): Cell {
    if n == 0 then x
    else if n == 1 then HCSpokeKey(x, e)
    else if n == 2 then HCHubKey(HCSpokeKey(x, e), e)
    else HubSpokeKey(HCHubKey(HCSpokeKey(x, e), e), e)
  }

  function Step(x: Cell, e: Surroundings): Cell {
    AfterPhases(x, e, 3)
  }

  /** No phase would touch the cell. */
  predicate Quiet(x: Cell, e: Surroundings) {
    HCSpokeKey(x, e) == x && HCHubKey(x, e) == x && HubSpokeKey(x, e) == x
  }

  // ---- the phases on whole objects are the phases on every key ----

  lemma HCToSpokeCell(m: Meta, source: LabelMap, hub: Option<Meta>, k: string, e: Surroundings)
    requires IsLabelKey(k) && e.matched && e.c == At(source, k)
    ensures CellAt(HCToSpoke(m, source).meta, hub, k) == HCSpokeKey(CellAt(m, hub, k), e)
  {
    hide HCSync, Parse;
    HCSyncView(m, source, Tracked(m, PropagatedLabels));
    var p := HCToSpoke(m, source).meta;
    assert k in Tracked(p, PropagatedLabels) <==> k in Tracked(p, PropagatedLabels) - {""};
  }

  lemma HCToHubCell(m: Meta, source: LabelMap, spoke: Meta, k: string, e: Surroundings)
    requires IsLabelKey(k) && e.matched && e.c == At(source, k) && e.hubPresent
    ensures CellAt(spoke, Some(HCToHub(m, source).meta), k) == HCHubKey(CellAt(spoke, Some(m), k), e)
  {
    hide HCSync, Parse;
    HCSyncView(m, source, {});
  }

  lemma HubToSpokeCell(m: Meta, hub: Meta, k: string, e: Surroundings)
    requires IsLabelKey(k) && e.system == IsSystemLabel(k)
    ensures CellAt(HubToSpoke(m, hub).meta, Some(hub), k) == HubSpokeKey(CellAt(m, Some(hub), k), e)
  {
    hide HubSync, Parse, IsSystemLabel;
    HubSyncView(m, EligibleFromHub(hub), KeptByHub(hub));
  }

  lemma ClearHubCell(m: Meta, k: string, e: Surroundings)
    requires IsLabelKey(k)
    ensures CellAt(Cleared(m, PropagatedLabels).meta, None, k) == HubSpokeKey(CellAt(m, None, k), e)
  {
    hide Cleared, Parse;
    ClearedView(m, PropagatedLabels);
  }

  // ---- when a phase sends a patch ----

  ghost predicate SameCells(m: Meta, m': Meta) {
    forall k | IsLabelKey(k) :: CellAt(m, None, k) == CellAt(m', None, k)
  }

  lemma SameLabels(m: Meta, m': Meta)
    requires SameCells(m, m')
    ensures m.labels == m'.labels
  {
    hide Parse;
    forall k ensures At(m.labels, k) == At(m'.labels, k) {
      if IsLabelKey(k) {
        assert CellAt(m, None, k) == CellAt(m', None, k);
      }
    }
    assert forall k :: At(m.labels, k).Some? <==> k in m.labels;
    assert forall k <- m.labels :: At(m.labels, k) == At(m'.labels, k);
  }

  lemma SameTracked(m: Meta, m': Meta, anno: AnnoKey)
    requires anno == HCPropagatedLabels || anno == PropagatedLabels
    requires SameCells(m, m') && "" !in Tracked(m, anno) && "" !in Tracked(m', anno)
    ensures Tracked(m, anno) == Tracked(m', anno)
  {
    hide Parse;
    ParsedKeys(Anno(m.annotations, anno));
    ParsedKeys(Anno(m'.annotations, anno));
    forall k ensures k in Tracked(m, anno) <==> k in Tracked(m', anno) {
      if IsLabelKey(k) {
        assert CellAt(m, None, k) == CellAt(m', None, k);
      }
    }
  }

  /** The HostedCluster phases send a patch exactly when they change a label or a tracked key
      (the empty key, which a user may have written into the annotation, counts as one). */
  lemma HCSyncPatched(m: Meta, source: LabelMap, hubTracked: set<string>)
    requires hubTracked == {} || hubTracked == Tracked(m, PropagatedLabels)
    ensures var p := HCSync(m, source, hubTracked);
      p.patched <==> "" in Tracked(m, HCPropagatedLabels) || !SameCells(m, p.meta)
  {
    hide HCSync, Parse;
    HCSyncView(m, source, hubTracked);
    var p := HCSync(m, source, hubTracked);
    if "" !in Tracked(m, HCPropagatedLabels) && SameCells(m, p.meta) {
      SameLabels(m, p.meta);
      SameTracked(m, p.meta, HCPropagatedLabels);
      var managed := Managed(m.labels, Tracked(m, HCPropagatedLabels), source);
      forall k | k in managed ensures k !in hubTracked {
        assert CellAt(m, None, k) == CellAt(p.meta, None, k);
        assert k in Tracked(p.meta, PropagatedLabels) <==> k in Tracked(p.meta, PropagatedLabels) - {""};
      }
      assert hubTracked * managed == {};
    }
    if !p.patched {
      forall k | IsLabelKey(k) ensures CellAt(m, None, k) == CellAt(p.meta, None, k) {
        assert k in Tracked(p.meta, PropagatedLabels) <==> k in Tracked(p.meta, PropagatedLabels) - {""};
      }
    }
  }

  lemma HubSyncPatched(m: Meta, source: LabelMap, kept: set<string>)
    ensures var p := HubSync(m, source, kept);
      p.patched <==> "" in Tracked(m, PropagatedLabels) || !SameCells(m, p.meta)
  {
    hide HubSync, Parse;
    HubSyncView(m, source, kept);
    var p := HubSync(m, source, kept);
    if "" !in Tracked(m, PropagatedLabels) && SameCells(m, p.meta) {
      SameLabels(m, p.meta);
      SameTracked(m, p.meta, PropagatedLabels);
    }
  }

  lemma ClearedPatched(m: Meta)
    ensures var p := Cleared(m, PropagatedLabels);
      p.patched <==> "" in Tracked(m, PropagatedLabels) || !SameCells(m, p.meta)
  {
    hide Cleared, Parse;
    ClearedView(m, PropagatedLabels);
    var p := Cleared(m, PropagatedLabels);
    if "" !in Tracked(m, PropagatedLabels) && SameCells(m, p.meta) {
      SameTracked(m, p.meta, PropagatedLabels);
    }
  }

  /** The HostedCluster phases as a key meets them. */
  function FromHC(source: LabelMap, k: string): Surroundings {
    Surroundings(true, At(source, k), false, true)
  }

  /** A phase sends no patch exactly when it leaves every key alone and the empty key is not tracked. */
  lemma HCToSpokeQuiet(m: Meta, source: LabelMap, hub: Option<Meta>)
    ensures !HCToSpoke(m, source).patched <==>
      "" !in Tracked(m, HCPropagatedLabels) &&
      forall k | IsLabelKey(k) :: HCSpokeKey(CellAt(m, hub, k), FromHC(source, k)) == CellAt(m, hub, k)
  {
    hide HCSync, Parse;
    var p := HCToSpoke(m, source).meta;
    HCSyncPatched(m, source, Tracked(m, PropagatedLabels));
    forall k | IsLabelKey(k)
      ensures CellAt(m, None, k) == CellAt(p, None, k)
         <==> HCSpokeKey(CellAt(m, hub, k), FromHC(source, k)) == CellAt(m, hub, k)
    {
      HCToSpokeCell(m, source, hub, k, FromHC(source, k));
    }
  }

  lemma HCToHubQuiet(m: Meta, source: LabelMap, spoke: Meta)
    ensures !HCToHub(m, source).patched <==>
      "" !in Tracked(m, HCPropagatedLabels) &&
      forall k | IsLabelKey(k) :: HCHubKey(CellAt(spoke, Some(m), k), FromHC(source, k)) == CellAt(spoke, Some(m), k)
  {
    hide HCSync, Parse;
    var p := HCToHub(m, source).meta;
    HCSyncPatched(m, source, {});
    HCSyncView(m, source, {});
    forall k | IsLabelKey(k)
      ensures CellAt(m, None, k) == CellAt(p, None, k)
         <==> HCHubKey(CellAt(spoke, Some(m), k), FromHC(source, k)) == CellAt(spoke, Some(m), k)
    {
      HCToHubCell(m, source, spoke, k, FromHC(source, k));
      assert k in Tracked(p, PropagatedLabels) <==> k in Tracked(p, PropagatedLabels) - {""};
    }
  }

  function FromHub(k: string, hubPresent: bool): Surroundings {
    Surroundings(false, None, IsSystemLabel(k), hubPresent)
  }

  lemma HubToSpokeQuiet(m: Meta, hubs: map<string, Meta>, hub: string)
    ensures var h := if hub in hubs then Some(hubs[hub]) else None;
      !HubToSpokeOrClear(m, hubs, hub).patched <==>
      "" !in Tracked(m, PropagatedLabels) &&
      forall k | IsLabelKey(k) :: HubSpokeKey(CellAt(m, h, k), FromHub(k, h.Some?)) == CellAt(m, h, k)
  {
    hide HubSync, Cleared, Parse, IsSystemLabel;
    var h := if hub in hubs then Some(hubs[hub]) else None;
    var p := HubToSpokeOrClear(m, hubs, hub).meta;
    if h.Some? {
      HubSyncPatched(m, EligibleFromHub(h.value), KeptByHub(h.value));
    } else {
      ClearedPatched(m);
    }
    forall k | IsLabelKey(k)
      ensures CellAt(m, None, k) == CellAt(p, None, k)
         <==> HubSpokeKey(CellAt(m, h, k), FromHub(k, h.Some?)) == CellAt(m, h, k)
    {
      if h.Some? {
        HubToSpokeCell(m, h.value, k, FromHub(k, true));
      } else {
        ClearHubCell(m, k, FromHub(k, false));
      }
    }
  }
}
