/** What a Reconcile does, in terms of the label keys, annotations and fields themselves. */
module LabelLaws {
  import opened Basics
  import opened Strings
  import opened Tracking
  import opened Labels
  import opened HostedClusters
  import opened Names
  import opened Reconciling
  import opened LabelCells
  import opened LabelTheorems
  import opened Convergence
  import opened LabelRuns

  // ---- system labels ----

  lemma ContainsAround(a: string, sub: string, b: string)
    ensures Contains(a + sub + b, sub)
  {
    assert (a + sub + b)[|a|..|a| + |sub|] == sub;
    assert OccursAt(a + sub + b, sub, |a|);
  }

  lemma ContainsSplits(key: string, sub: string) returns (a: string, b: string)
    requires Contains(key, sub)
    ensures key == a + sub + b
  {
    var i: nat :| i <= |key| && OccursAt(key, sub, i);
    a, b := key[..i], key[i + |sub|..];
    assert key == key[..i] + key[i..i + |sub|] + key[i + |sub|..];
  }

  predicate OfTheTen(k: string) {
    k in {"name", "vendor", "cloud", "openshiftVersion", "openshiftVersion-major", "openshiftVersion-major-minor",
          "clusterID", "local-cluster", "velero.io/exclude-from-backup", "region"}
  }

  /** The key holds one of the four domains. */
  ghost predicate HoldsADomain(k: string) {
    exists a: string, domain: string, b: string ::
      domain in {"open-cluster-management.io/", "kubernetes.io/", "openshift.io/", "k8s.io/"} && k == a + domain + b
  }

  /** The labels of the clusters themselves: the ten, and those of the four domains but for one prefix */
  ghost predicate BelongsToTheSystem(k: string) {
    OfTheTen(k) || (HoldsADomain(k) && !("cluster.open-cluster-management.io/" <= k))
  }

  lemma SystemLabelsAre(k: string)
    ensures IsSystemLabel(k) <==> BelongsToTheSystem(k)
  {
    hide Contains;
    assert CLUSTER_PREFIX == "cluster.open-cluster-management.io/";
    DomainsAre(k);
    hide HoldsADomain;
  }

  lemma DomainsAre(k: string)
    ensures HoldsADomain(k) <==>
      || Contains(k, "open-cluster-management.io/") || Contains(k, "kubernetes.io/")
      || Contains(k, "openshift.io/") || Contains(k, "k8s.io/")
  {
    hide Contains;
    forall a: string, domain: string, b: string | k == a + domain + b ensures Contains(k, domain) {
      ContainsAround(a, domain, b);
    }
    forall domain: string | Contains(k, domain) ensures exists a: string, b: string :: k == a + domain + b {
      var a, b := ContainsSplits(k, domain);
    }
  }

  /** Whatever fails, such a label that nobody tracks keeps its value on the spoke and on the hub, and
      nobody tracks it afterwards. */
  lemma SystemLabelIsLeftAlone(
    cfg: Config, w: World, name: string, f: Faults, k: string)
    requires BelongsToTheSystem(k) && IsLabelKey(k) && Untracked(w, k)
    ensures var w' := Reconciled(cfg, w, name, f).world;
      Untracked(w', k) && SameEverywhere(w, w', k)
  {
    SystemLabelsAre(k);
    hide IsSystemLabel, Reconciled, HubOf, Tracked, MatchFor, IsLabelKey, At;
    if Active(cfg, w, name) {
      OutcomeFrame(cfg, w, name, f);
      SystemKeyIsSafe(cfg, w, name, f, k);
      TouchedObjects(cfg, w, name, Reconciled(cfg, w, name, f).world, k);
    } else {
      Inactive(cfg, w, name, f);
    }
  }

  /** Only the two touched objects need to be looked at. */
  lemma TouchedObjects(cfg: Config, w: World, name: string, w': World, k: string)
    requires Untracked(w, k) && name in w.spokes && OnlyTouches(cfg, w, name, w')
    requires k !in TrackedOnSpoke(w'.spokes[name]) && At(w'.spokes[name].labels, k) == At(w.spokes[name].labels, k)
    requires HubOf(cfg, name) in w.hubs ==>
      && k !in Tracked(w'.hubs[HubOf(cfg, name)], HCPropagatedLabels)
      && At(w'.hubs[HubOf(cfg, name)].labels, k) == At(w.hubs[HubOf(cfg, name)].labels, k)
    ensures Untracked(w', k) && SameEverywhere(w, w', k)
  {
    hide HubOf, Tracked, At, SameBut;
  }

  /** No object tracks k. */
  predicate Untracked(w: World, k: string) {
    && (forall n <- w.spokes ::
          k !in Tracked(w.spokes[n], HCPropagatedLabels) && k !in Tracked(w.spokes[n], PropagatedLabels))
    && (forall n <- w.hubs :: k !in Tracked(w.hubs[n], HCPropagatedLabels))
  }

  /** Every object is still there with the same value of k, or still without it. */
  predicate SameEverywhere(w: World, w': World, k: string) {
    && w'.spokes.Keys == w.spokes.Keys && w'.hubs.Keys == w.hubs.Keys
    && (forall n <- w.spokes :: At(w'.spokes[n].labels, k) == At(w.spokes[n].labels, k))
    && (forall n <- w.hubs :: At(w'.hubs[n].labels, k) == At(w.hubs[n].labels, k))
  }

  /** Over whole runs: as long as no user starts tracking such a label, no Reconcile changes it anywhere. */
  lemma {:induction false} SystemLabelInRuns(
    cfg: Config, w: World, events: seq<Event>, i: nat, k: string)
    requires BelongsToTheSystem(k) && IsLabelKey(k) && Untracked(w, k) && i < |events|
    requires forall j | 0 <= j < |events| && events[j].Edit? :: Untracked(events[j].after, k)
    ensures var before := Run(cfg, w, events[..i]);
      && Untracked(before, k)
      && (events[i].Reconcile? ==> SameEverywhere(before, After(cfg, before, events[i]), k))
    decreases |events|
  {
    hide Reconciled, Untracked, SameEverywhere, IsLabelKey, BelongsToTheSystem;
    if i == 0 {
      assert events[..0] == [];
      if events[0].Reconcile? {
        SystemLabelIsLeftAlone(cfg, w, events[0].name, events[0].f, k);
      }
    } else {
      if events[0].Reconcile? {
        SystemLabelIsLeftAlone(cfg, w, events[0].name, events[0].f, k);
      } else {
        assert Untracked(events[0].after, k);
      }
      SystemLabelInRuns(cfg, After(cfg, w, events[0]), events[1..], i - 1, k);
      assert events[..i][1..] == events[1..][..i - 1];
    }
  }

  // ---- all other labels ----

  /** A HostedCluster's label of any other key reaches a spoke that lacks it, and a hub object that lacks
      it, in one Reconcile without failures. */
  lemma OtherLabelsArrive(cfg: Config, w: World, name: string, k: string)
    requires !cfg.discoveryDisabled && !cfg.localAgent && name in w.spokes
    requires CreatedVia in w.spokes[name].annotations && w.spokes[name].annotations[CreatedVia] == "hypershift"
    requires MatchFor(w, name).Found? && k in MatchFor(w, name).hc.labels && k !in w.spokes[name].labels
    requires !BelongsToTheSystem(k)
    ensures var w', value, hub := Pass(cfg, w, name).world, MatchFor(w, name).hc.labels[k], HubOf(cfg, name);
      && name in w'.spokes && At(w'.spokes[name].labels, k) == Some(value)
      && (hub in w.hubs && k !in w.hubs[hub].labels ==> hub in w'.hubs && At(w'.hubs[hub].labels, k) == Some(value))
  {
    SystemLabelsAre(k);
    hide IsSystemLabel, Reconciled, HubName, Parse, MatchOf, Step;
    PassCells(cfg, w, name);
    var x, e := CellOf(cfg, w, name, k), Around(cfg, w, name, k);
    assert e.matched && e.c == Some(MatchFor(w, name).hc.labels[k]) && x.s.None?;
    KeyArrives(x, e);
    assert CellOf(cfg, Pass(cfg, w, name).world, name, k) == Step(x, e);
    hide HCSpokeKey, HCHubKey, HubSpokeKey;
  }

  lemma KeyArrives(x: Cell, e: Surroundings)
    requires e.matched && e.c.Some? && !e.system && x.s.None?
    ensures Step(x, e).s == e.c
    ensures e.hubPresent && x.h.None? ==> Step(x, e).h == e.c
  {
  }

  /** The allowed prefix: the cluster set travels although its key contains one of the four domains. */
  lemma ClusterSetArrives(cfg: Config, w: World, name: string)
    requires !cfg.discoveryDisabled && !cfg.localAgent && name in w.spokes
    requires CreatedVia in w.spokes[name].annotations && w.spokes[name].annotations[CreatedVia] == "hypershift"
    requires MatchFor(w, name).Found? && "cluster.open-cluster-management.io/clusterset" in MatchFor(w, name).hc.labels
    requires "cluster.open-cluster-management.io/clusterset" !in w.spokes[name].labels
    ensures var w', k := Pass(cfg, w, name).world, "cluster.open-cluster-management.io/clusterset";
      name in w'.spokes && At(w'.spokes[name].labels, k) == Some(MatchFor(w, name).hc.labels[k])
  {
    var k := "cluster.open-cluster-management.io/clusterset";
    ClusterSetIsAllowed(k);
    hide Pass, MatchFor;
    OtherLabelsArrive(cfg, w, name, k);
  }

  lemma ClusterSetIsAllowed(k: string)
    requires k == "cluster.open-cluster-management.io/clusterset"
    ensures !BelongsToTheSystem(k)
  {
    assert k == "cluster.open-cluster-management.io/" + "clusterset";
    assert |k| == 45;
  }

  // ---- which clusters ----

  /** A ManagedCluster that was not created for a hosted cluster is left alone, and so are its hub object
      and all others. */
  lemma OtherClustersAreLeftAlone(cfg: Config, w: World, name: string, f: Faults)
    requires name in w.spokes
    requires CreatedVia !in w.spokes[name].annotations || w.spokes[name].annotations[CreatedVia] != "hypershift"
    ensures Reconciled(cfg, w, name, f).world == w && Reconciled(cfg, w, name, f).patches == 0
  {
  }

  /** The match is sought by name and by the value of the infrastructure label. */
  lemma MatchIsSoughtBy(w: World, name: string)
    requires name in w.spokes
    ensures var labels, k := w.spokes[name].labels, "hypershift.openshift.io/auto-created-for-infra";
      MatchFor(w, name) == MatchOf(w.hcs, name, if k in labels then labels[k] else "")
  {
  }

  // ---- the other values ----

  /** The hub's value after one Reconcile, exactly: the HostedCluster's where the hub lacked the key, agreed
      or had it from the HostedCluster; nothing where it had it from the HostedCluster that no longer has
      it; and otherwise the hub's own. */
  lemma WhatTheHubHas(cfg: Config, w: World, name: string, k: string)
    requires Active(cfg, w, name) && !MatchFor(w, name).Ambiguous? && HubOf(cfg, name) in w.hubs && IsLabelKey(k)
    ensures var hub, w' := w.hubs[HubOf(cfg, name)], Pass(cfg, w, name).world;
      var c, had := At(SourceOf(MatchFor(w, name)), k), k in Tracked(hub, HCPropagatedLabels);
      && HubOf(cfg, name) in w'.hubs
      && At(w'.hubs[HubOf(cfg, name)].labels, k)
           == if c.Some? && (k !in hub.labels || Some(hub.labels[k]) == c || had) then c
              else if had then None
              else At(hub.labels, k)
  {
    hide IsSystemLabel, Reconciled, HubName, Parse, MatchOf, Step, SourceOf;
    PassCells(cfg, w, name);
    KeyOnHub(CellOf(cfg, w, name, k), Around(cfg, w, name, k));
    assert CellOf(cfg, Pass(cfg, w, name).world, name, k) == Step(CellOf(cfg, w, name, k), Around(cfg, w, name, k));
    hide HCSpokeKey, HCHubKey, HubSpokeKey;
  }

  lemma KeyOnHub(x: Cell, e: Surroundings)
    requires e.matched && e.hubPresent
    ensures Step(x, e).h
         == if e.c.Some? && (x.h.None? || x.h == e.c || x.uh) then e.c else if x.uh then None else x.h
  {
  }

  /** The spoke's value of a key that the HostedCluster does not send, or that no HostedCluster is known to
      send: its own labels go first where a match was decided; then the hub's value comes where the hub may
      send it and the spoke lacks it, agrees or follows the hub, and what it followed goes where not. */
  lemma WithoutTheHostedCluster(cfg: Config, w: World, name: string, k: string)
    requires Active(cfg, w, name) && IsLabelKey(k) && Around(cfg, w, name, k).c.None?
    ensures var x, decided := CellOf(cfg, w, name, k), !MatchFor(w, name).Ambiguous?;
      var s, h := if decided && x.th then None else x.s, if decided && x.uh then None else x.h;
      var w' := Pass(cfg, w, name).world;
      && name in w'.spokes
      && At(w'.spokes[name].labels, k)
           == if !IsSystemLabel(k) && h.Some? && (x.uh ==> decided) && (s.None? || s == h || x.tb) then h
              else if x.tb && (h.None? || x.uh) then None
              else s
  {
    hide IsSystemLabel, Reconciled, HubName, Parse, MatchOf, Step, SourceOf;
    PassCells(cfg, w, name);
    AroundPossible(cfg, w, name, k);
    KeyWithoutTheHostedCluster(CellOf(cfg, w, name, k), Around(cfg, w, name, k));
    assert CellOf(cfg, Pass(cfg, w, name).world, name, k) == Step(CellOf(cfg, w, name, k), Around(cfg, w, name, k));
    hide HCSpokeKey, HCHubKey, HubSpokeKey, Possible;
  }

  lemma KeyWithoutTheHostedCluster(x: Cell, e: Surroundings)
    requires Possible(x, e) && e.c.None?
    ensures
      var s, h := if e.matched && x.th then None else x.s, if e.matched && x.uh then None else x.h;
      Step(x, e).s
        == if !e.system && h.Some? && (x.uh ==> e.matched) && (s.None? || s == h || x.tb) then h
           else if x.tb && (h.None? || x.uh) then None
           else s
  {
  }

  /** Nothing happens either when discovery is disabled, on the agent of the local cluster, and for a name that
      is not there. */
  lemma NothingToReconcile(cfg: Config, w: World, name: string, f: Faults)
    requires cfg.discoveryDisabled || cfg.localAgent || name !in w.spokes
    ensures var r := Reconciled(cfg, w, name, f);
      && r.world == w && r.patches == 0
      && (r.ok <==> cfg.discoveryDisabled || cfg.localAgent || !f.getSpoke)
  {
  }

  /** The hub's name of a spoke cluster: the prefix, a dash and the name. The prefix is the one configured, or the
      hosting cluster's name if none is; and there is no prefix at all if the one configured is empty. */
  lemma HubNames(clusterName: string, prefix: string, spokeName: string)
    ensures HubName(Unset, clusterName, spokeName) == clusterName + "-" + spokeName
    ensures HubName(Set(prefix), clusterName, spokeName)
         == if prefix == "" then spokeName else prefix + "-" + spokeName
  {
  }

  /** Keys are written in ascending order of their characters. */
  lemma {:induction false} AscendingOrder(a: string, b: string)
    ensures Le(a, b) <==>
      || a <= b
      || exists i :: 0 <= i < |a| && i < |b| && a[..i] == b[..i] && a[i] < b[i]
  {
    if a != "" && b != "" {
      if a[0] == b[0] {
        AscendingOrder(a[1..], b[1..]);
        assert a[1..] <= b[1..] <==> a <= b by {
          assert a == [a[0]] + a[1..] && b == [b[0]] + b[1..];
        }
        FirstDifference(a, b);
      } else {
        if a[0] < b[0] {
          assert a[..0] == b[..0];
        }
        assert forall i | 0 < i < |a| && i < |b| :: a[..i][0] == a[0] && b[..i][0] == b[0];
      }
    }
  }

  lemma FirstDifference(a: string, b: string)
    requires a != "" && b != "" && a[0] == b[0]
    ensures (exists i :: 0 <= i < |a| && i < |b| && a[..i] == b[..i] && a[i] < b[i])
       <==> (exists i :: 0 <= i < |a| - 1 && i < |b| - 1 && a[1..][..i] == b[1..][..i] && a[1..][i] < b[1..][i])
  {
    if i :| 0 <= i < |a| && i < |b| && a[..i] == b[..i] && a[i] < b[i] {
      assert a[1..][..i - 1] == a[..i][1..] && b[1..][..i - 1] == b[..i][1..];
      assert a[1..][i - 1] < b[1..][i - 1];
    }
    if i :| 0 <= i < |a| - 1 && i < |b| - 1 && a[1..][..i] == b[1..][..i] && a[1..][i] < b[1..][i] {
      assert a[..i + 1] == [a[0]] + a[1..][..i] && b[..i + 1] == [b[0]] + b[1..][..i];
      assert a[i + 1] < b[i + 1];
    }
  }

  lemma WrittenInOrder(m: set<string>)
    requires m != {} && forall k <- m :: ',' !in k
    ensures Sorted(Split(Encode(m), ','))
  {
    var keys := Sort(Listing(m));
    assert multiset(keys) == multiset(m);
    var k :| k in m;
    assert k in multiset(keys);
    forall p | p in keys ensures ',' !in p {
      assert p in multiset(keys);
    }
    SplitJoin(keys, ',');
    SortSorts(Listing(m));
  }
}
