/** Reading, putting back and deleting a hosted cluster through the proxy. */
module Bundles {
  import opened Basics
  import opened Strings
  import opened ProxyPaths
  import opened SpokeApi
  import opened HcpProxy
  import opened CreateRetries

  // ---- reading ----

  /** Reading changes nothing on the spoke. */
  lemma GetChangesNothing(st: State, f: nat -> Fault, ns: string, name: string)
    ensures GetBundle(st, f, ns, name).0.store == st.store
    ensures |st.log| <= |GetBundle(st, f, ns, name).0.log|
  {
    hide Listing, Sane;
  }

  /** o is stored in namespace ns as a resource of the given kind. */
  ghost predicate Stored(s: Store, resource: Resource, ns: string, o: Obj) {
    var k := Key(resource, ns, o.name);
    k in s && s[k] == o && o.namespace == ns && Sane(o.name)
  }

  /** What a bundle holds is on the spoke. */
  ghost predicate Live(s: Store, ns: string, name: string, b: Bundle) {
    && b.hostedCluster.Some? && b.hostedCluster.value.name == name
    && Stored(s, HostedClusters, ns, b.hostedCluster.value)
    && forall i | 0 <= i < |b.nodePools| :: Stored(s, NodePools, ns, b.nodePools[i])
  }

  lemma FetchedPoolsAreStored(st: State, f: nat -> Fault, ns: string, hc: string)
    requires Valid(st.store)
    ensures forall o <- FetchPools(st, f, ns, hc).1 :: Stored(st.store, NodePools, ns, o) && o.clusterName == hc
  {
    ListingIsExact(st.store, NodePools, ns);
    hide Listing, Sane;
  }

  lemma GetIsLive(st: State, f: nat -> Fault, ns: string, name: string)
    requires Valid(st.store) && GetBundle(st, f, ns, name).1.Success?
    ensures Sane(ns) && Sane(name) && Live(st.store, ns, name, GetBundle(st, f, ns, name).1.bundle)
  {
    hide Listing, Sane, FetchPools;
    var (st1, _) := FetchNamespace(st, f, ns);
    var (st2, _) := Send(st1, f, Get(HostedClusters, ns, name));
    FetchedPoolsAreStored(st2, f, ns, name);
  }

  /** Without faults the answer depends on the store alone. */
  lemma CleanGet(st: State, f: nat -> Fault, st': State, f': nat -> Fault, ns: string, name: string)
    requires st.store == st'.store && Faultless(f, |st.log|) && Faultless(f', |st'.log|)
    ensures GetBundle(st, f, ns, name).1 == GetBundle(st', f', ns, name).1
  {
    hide Listing, Sane, Matching;
  }

  // ---- putting back ----

  /** Putting an object where it already is. */
  lemma PutStored(st: State, f: nat -> Fault, resource: Resource, ns: string, o: Obj)
    requires Stored(st.store, resource, ns, o) && Sane(ns)
    ensures var (st', error) := PutOn(st, f, resource, ns, o.name, o);
      && st'.store == st.store && |st.log| <= |st'.log|
      && (Faultless(f, |st.log|) ==> error.None?)
  {
    hide Listing, Sane;
    assert st.store[Key(resource, ns, o.name) := o] == st.store;
  }

  lemma {:induction false} PutPoolsStored(st: State, f: nat -> Fault, ns: string, pools: seq<Obj>)
    requires Sane(ns) && forall i | 0 <= i < |pools| :: Stored(st.store, NodePools, ns, pools[i])
    ensures var (st', error) := PutPools(st, f, ns, pools);
      && st'.store == st.store && |st.log| <= |st'.log|
      && (Faultless(f, |st.log|) ==> error.None?)
  {
    hide Sane, PutOn;
    if pools != [] {
      PutPoolsStored(st, f, ns, pools[..|pools| - 1]);
      var (st1, _) := PutPools(st, f, ns, pools[..|pools| - 1]);
      PutStored(st1, f, NodePools, ns, pools[|pools| - 1]);
    }
  }

  lemma PutAllLive(st: State, f: nat -> Fault, ns: string, name: string, b: Bundle)
    requires Sane(ns) && Live(st.store, ns, name, b)
    ensures var (st', error) := PutAll(st, f, ns, name, b);
      && st'.store == st.store && |st.log| <= |st'.log|
      && (Faultless(f, |st.log|) ==> error.None?)
  {
    hide Sane, PutOn, PutPools;
    PutStored(st, f, HostedClusters, ns, b.hostedCluster.value);
    var (st1, _) := PutOn(st, f, HostedClusters, ns, name, b.hostedCluster.value);
    PutPoolsStored(st1, f, ns, b.nodePools);
  }

  /** A bundle that was read and is put back unmodified changes nothing, whatever goes wrong in either. */
  lemma PutBackChangesNothing(st: State, f: nat -> Fault, ns: string, name: string, f': nat -> Fault)
    requires Valid(st.store) && GetBundle(st, f, ns, name).1.Success?
    ensures var (st1, answer) := GetBundle(st, f, ns, name);
      PutBundle(st1, f', ns, name, answer.bundle).0.store == st.store
  {
    hide Sane, GetBundle, PutAll, Live;
    var (st1, answer) := GetBundle(st, f, ns, name);
    GetIsLive(st, f, ns, name);
    GetChangesNothing(st, f, ns, name);
    PutAllLive(st1, f', ns, name, answer.bundle);
    GetChangesNothing(PutAll(st1, f', ns, name, answer.bundle).0, f', ns, name);
  }

  /** And when nothing goes wrong, it is what comes back. */
  lemma PutBackReturnsTheBundle(st: State, f: nat -> Fault, ns: string, name: string, f': nat -> Fault)
    requires Valid(st.store) && GetBundle(st, f, ns, name).1.Success? && Faultless(f, |st.log|)
    requires Faultless(f', |GetBundle(st, f, ns, name).0.log|)
    ensures var (st1, answer) := GetBundle(st, f, ns, name);
      PutBundle(st1, f', ns, name, answer.bundle).1 == answer
  {
    hide Sane, GetBundle, PutAll, Live;
    var (st1, answer) := GetBundle(st, f, ns, name);
    GetIsLive(st, f, ns, name);
    GetChangesNothing(st, f, ns, name);
    PutAllLive(st1, f', ns, name, answer.bundle);
    CleanGet(st, f, PutAll(st1, f', ns, name, answer.bundle).0, f', ns, name);
  }

  // ---- putting an edited bundle ----

  lemma PutOne(st: State, f: nat -> Fault, resource: Resource, ns: string, name: string, o: Obj)
    ensures var (st', error) := PutOn(st, f, resource, ns, name, o); var k := Key(resource, ns, name);
        var s, s' := st.store, st'.store;
      && (s' == s || (k in s && name == o.name && s' == s[k := o.(namespace := ns)]))
      && (error.None? ==> k in s && name == o.name && s' == s[k := o.(namespace := ns)])
  {
    hide Listing, Sane;
  }

  /** Object o at k is one the bundle holds. */
  ghost predicate InBundle(ns: string, name: string, b: Bundle, k: Key, o: Obj) {
    || (b.hostedCluster.Some? && k == Key(HostedClusters, ns, name) && o == b.hostedCluster.value.(namespace := ns))
    || (exists p <- b.nodePools :: p.name != "" && k == Key(NodePools, ns, p.name) && o == p.(namespace := ns))
  }

  ghost predicate OnlyFromBundle(s: Store, s': Store, ns: string, name: string, b: Bundle) {
    s'.Keys == s.Keys && forall k <- s :: s'[k] == s[k] || InBundle(ns, name, b, k, s'[k])
  }

  lemma {:induction false} PutPoolsFrame(st: State, f: nat -> Fault, ns: string, name: string, b: Bundle, n: nat)
    requires n <= |b.nodePools|
    ensures OnlyFromBundle(st.store, PutPools(st, f, ns, b.nodePools[..n]).0.store, ns, name, b)
  {
    hide PutOn;
    if n > 0 {
      assert b.nodePools[..n][..n - 1] == b.nodePools[..n - 1];
      PutPoolsFrame(st, f, ns, name, b, n - 1);
      var (st1, _) := PutPools(st, f, ns, b.nodePools[..n - 1]);
      var p := b.nodePools[n - 1];
      assert p.name != "" ==> InBundle(ns, name, b, Key(NodePools, ns, p.name), p.(namespace := ns));
      hide InBundle;
      PutOne(st1, f, NodePools, ns, p.name, p);
    }
  }

  /** Whatever goes wrong, a PUT adds and removes no object, and changes one only to what the bundle says. */
  lemma PutChangesOnlyTheBundle(st: State, f: nat -> Fault, ns: string, name: string, b: Bundle)
    ensures OnlyFromBundle(st.store, PutBundle(st, f, ns, name, b).0.store, ns, name, b)
  {
    hide PutOn, PutPools, GetBundle;
    var st1 := if b.hostedCluster.None? then st else PutOn(st, f, HostedClusters, ns, name, b.hostedCluster.value).0;
    assert b.hostedCluster.Some?
        ==> InBundle(ns, name, b, Key(HostedClusters, ns, name), b.hostedCluster.value.(namespace := ns));
    hide InBundle;
    if b.hostedCluster.Some? {
      PutOne(st, f, HostedClusters, ns, name, b.hostedCluster.value);
    }
    assert b.nodePools[..|b.nodePools|] == b.nodePools;
    PutPoolsFrame(st1, f, ns, name, b, |b.nodePools|);
    GetChangesNothing(PutAll(st, f, ns, name, b).0, f, ns, name);
  }

  /** Node pool i is the last of its name in the list, and it has a name. */
  ghost predicate LastOfItsName(pools: seq<Obj>, i: nat) {
    i < |pools| && pools[i].name != "" && forall j | i < j < |pools| :: pools[j].name != pools[i].name
  }

  lemma {:induction false} PutPoolsStores(st: State, f: nat -> Fault, ns: string, pools: seq<Obj>, i: nat)
    requires PutPools(st, f, ns, pools).1.None? && LastOfItsName(pools, i)
    ensures var s', k := PutPools(st, f, ns, pools).0.store, Key(NodePools, ns, pools[i].name);
      k in s' && s'[k] == pools[i].(namespace := ns)
  {
    hide PutOn;
    var front, last := pools[..|pools| - 1], pools[|pools| - 1];
    var (st1, _) := PutPools(st, f, ns, front);
    PutOne(st1, f, NodePools, ns, last.name, last);
    if i < |front| {
      assert LastOfItsName(front, i);
      PutPoolsStores(st, f, ns, front, i);
    }
  }

  lemma {:induction false} PutPoolsKeepsOthers(st: State, f: nat -> Fault, ns: string, pools: seq<Obj>, k: Key)
    requires !k.resource.NodePools?
    ensures SameAt(st.store, PutPools(st, f, ns, pools).0.store, k)
  {
    hide PutOn;
    if pools != [] {
      var front, last := pools[..|pools| - 1], pools[|pools| - 1];
      PutPoolsKeepsOthers(st, f, ns, front, k);
      PutOne(PutPools(st, f, ns, front).0, f, NodePools, ns, last.name, last);
    }
  }

  /** A successful PUT leaves the whole bundle on the spoke. */
  lemma PutStoresTheBundle(st: State, f: nat -> Fault, ns: string, name: string, b: Bundle)
    requires PutBundle(st, f, ns, name, b).1.Success?
    ensures var s', hc := PutBundle(st, f, ns, name, b).0.store, Key(HostedClusters, ns, name);
      && (b.hostedCluster.Some? ==> hc in s' && s'[hc] == b.hostedCluster.value.(namespace := ns))
      && forall i | 0 <= i < |b.nodePools| && LastOfItsName(b.nodePools, i) ::
           var k := Key(NodePools, ns, b.nodePools[i].name);
           k in s' && s'[k] == b.nodePools[i].(namespace := ns)
  {
    hide PutOn, PutPools, GetBundle, LastOfItsName;
    var st1 := if b.hostedCluster.None? then st else PutOn(st, f, HostedClusters, ns, name, b.hostedCluster.value).0;
    if b.hostedCluster.Some? {
      PutOne(st, f, HostedClusters, ns, name, b.hostedCluster.value);
    }
    PutPoolsKeepsOthers(st1, f, ns, b.nodePools, Key(HostedClusters, ns, name));
    GetChangesNothing(PutAll(st, f, ns, name, b).0, f, ns, name);
    forall i | 0 <= i < |b.nodePools| && LastOfItsName(b.nodePools, i)
      ensures var s', k := PutPools(st1, f, ns, b.nodePools).0.store, Key(NodePools, ns, b.nodePools[i].name);
        k in s' && s'[k] == b.nodePools[i].(namespace := ns)
    {
      PutPoolsStores(st1, f, ns, b.nodePools, i);
    }
  }

  // ---- deleting ----

  /** The node pools of a hosted cluster */
  ghost predicate PoolOf(s: Store, ns: string, name: string, k: Key)
    requires k in s
  {
    k.resource.NodePools? && k.ns == ns && s[k].clusterName == name
  }

  /** What a DELETE is for: the hosted cluster and its node pools */
  ghost predicate Own(s: Store, ns: string, name: string, k: Key) {
    k in s && (k == Key(HostedClusters, ns, name) || PoolOf(s, ns, name, k))
  }

  /** Whether a request is served */
  predicate Served(fault: Fault) {
    fault.Ok? || fault.Lost?
  }

  /** k is the key of one of the pools, and its DELETE request, if they start at n, is served. */
  ghost predicate Deleted(f: nat -> Fault, n: nat, ns: string, pools: seq<Obj>, k: Key) {
    exists i :: 0 <= i < |pools| && k == Key(NodePools, ns, pools[i].name) && Served(f(n + i))
  }

  lemma {:induction false} DeletePoolsExactly(st: State, f: nat -> Fault, ns: string, pools: seq<Obj>)
    requires Sane(ns) && forall i | 0 <= i < |pools| :: Sane(pools[i].name)
    ensures var st' := DeletePools(st, f, ns, pools);
      && |st'.log| == |st.log| + |pools|
      && forall k ::
           && (k in st'.store <==> k in st.store && !Deleted(f, |st.log|, ns, pools, k))
           && (k in st'.store ==> st'.store[k] == st.store[k])
  {
    hide Sane, Listing;
    if pools != [] {
      var front, last := pools[..|pools| - 1], pools[|pools| - 1];
      DeletePoolsExactly(st, f, ns, front);
      var st1, st' := DeletePools(st, f, ns, front), DeletePools(st, f, ns, pools);
      var key := Key(NodePools, ns, last.name);
      DeleteOne(st1, f, NodePools, ns, last.name);
      forall k
        ensures Deleted(f, |st.log|, ns, pools, k)
           <==> Deleted(f, |st.log|, ns, front, k) || (k == key && Served(f(|st1.log|)))
      {
        OneMoreDeleted(f, |st.log|, ns, pools, k);
      }
    }
  }

  lemma OneMoreDeleted(f: nat -> Fault, n: nat, ns: string, pools: seq<Obj>, k: Key)
    requires pools != []
    ensures var front, m := pools[..|pools| - 1], |pools| - 1;
      Deleted(f, n, ns, pools, k)
      <==> Deleted(f, n, ns, front, k) || (k == Key(NodePools, ns, pools[m].name) && Served(f(n + m)))
  {
    hide Served;
    var front, m := pools[..|pools| - 1], |pools| - 1;
    if Deleted(f, n, ns, front, k) {
      var i :| 0 <= i < |front| && k == Key(NodePools, ns, front[i].name) && Served(f(n + i));
      assert pools[i] == front[i];
    }
    if Deleted(f, n, ns, pools, k) {
      var i :| 0 <= i < |pools| && k == Key(NodePools, ns, pools[i].name) && Served(f(n + i));
      assert i < m ==> front[i] == pools[i];
    }
  }

  lemma DeleteOne(st: State, f: nat -> Fault, resource: Resource, ns: string, name: string)
    ensures var (st', reply) := Send(st, f, Delete(resource, ns, name)); var k := Key(resource, ns, name);
      && st'.store == (if Served(f(|st.log|)) then st.store - {k} else st.store)
      && (f(|st.log|).Ok? ==> reply == if k in st.store then Done else NotFound)
  {
    hide Listing;
  }

  /** Deleting, exactly: the node pools are found when the list request is answered; each is removed
      when its own request is served, and the hosted cluster when its is. Nothing else is touched. */
  lemma DeleteExactly(st: State, f: nat -> Fault, ns: string, name: string)
    requires Valid(st.store) && Sane(ns) && Sane(name)
    ensures var pools, s' := FetchPools(st, f, ns, name).1, DeleteCluster(st, f, ns, name).0.store;
      var hc, n := Key(HostedClusters, ns, name), |st.log| + 1;
      forall k ::
        && (k in s' <==>
              k in st.store && !Deleted(f, n, ns, pools, k) && !(k == hc && Served(f(n + |pools|))))
        && (k in s' ==> s'[k] == st.store[k])
  {
    hide Sane, Deleted, Served, DeletePools, FetchPools, Valid, Send;
    var (st1, pools) := FetchPools(st, f, ns, name);
    FetchKeeps(st, f, ns, name);
    DeletePoolsExactly(st1, f, ns, pools);
    var st2 := DeletePools(st1, f, ns, pools);
    DeleteOne(st2, f, HostedClusters, ns, name);
  }

  lemma FetchKeeps(st: State, f: nat -> Fault, ns: string, name: string)
    requires Sane(ns) && Valid(st.store)
    ensures var (st1, pools) := FetchPools(st, f, ns, name);
      && st1.store == st.store && |st1.log| == |st.log| + 1
      && forall i | 0 <= i < |pools| :: Sane(pools[i].name)
  {
    FetchedPoolsAreStored(st, f, ns, name);
    hide Sane, Listing, Matching;
    var pools := FetchPools(st, f, ns, name).1;
    forall i | 0 <= i < |pools| ensures Sane(pools[i].name) {
      assert pools[i] in pools;
    }
  }

  /** Filtering keeps every object that names the cluster as often as it is listed, and no other. */
  lemma {:induction false} MatchingCounts(objs: seq<Obj>, hc: string, o: Obj)
    ensures multiset(Matching(objs, hc))[o] == if o.clusterName == hc then multiset(objs)[o] else 0
  {
    if objs != [] {
      var front, last := objs[..|objs| - 1], objs[|objs| - 1];
      MatchingCounts(front, hc, o);
      CountAppended(front, last, o);
      CountAppended(Matching(front, hc), last, o);
      assert objs == front + [last];
    }
  }

  lemma MatchingOneMore(objs: seq<Obj>, o: Obj, hc: string)
    ensures Matching(objs + [o], hc) == Matching(objs, hc) + (if o.clusterName == hc then [o] else [])
  {
    assert (objs + [o])[..|objs|] == objs;
  }

  /** Filtering keeps the order: the filter of a list is that of its parts, one after the other. */
  lemma {:induction false} MatchingInOrder(a: seq<Obj>, b: seq<Obj>, hc: string)
    ensures Matching(a + b, hc) == Matching(a, hc) + Matching(b, hc)
  {
    assert Matching([], hc) == [];
    hide Matching;
    if b == [] {
      assert a + b == a;
    } else {
      var front, last := b[..|b| - 1], b[|b| - 1];
      MatchingInOrder(a, front, hc);
      MatchingOneMore(a + front, last, hc);
      MatchingOneMore(front, last, hc);
      assert b == front + [last];
      Associative(a, front, [last]);
      Associative(Matching(a, hc), Matching(front, hc), if last.clusterName == hc then [last] else []);
    }
  }

  ghost predicate DistinctNames(objs: seq<Obj>) {
    forall i, j | 0 <= i < j < |objs| :: objs[i].name != objs[j].name
  }

  lemma {:induction false} MatchingDistinct(objs: seq<Obj>, hc: string)
    requires DistinctNames(objs)
    ensures DistinctNames(Matching(objs, hc))
  {
    if objs != [] {
      var front, last := objs[..|objs| - 1], objs[|objs| - 1];
      MatchingDistinct(front, hc);
      var r := Matching(front, hc);
      forall i | 0 <= i < |r| ensures r[i].name != last.name {
        assert r[i] in front;
      }
    }
  }

  /** The node pools of a hosted cluster, in the order in which they are listed */
  ghost function OwnPools(s: Store, ns: string, name: string): seq<Obj> {
    Matching(Listing(s, NodePools, ns), name)
  }

  lemma OwnPoolsAreAll(s: Store, ns: string, name: string)
    requires Valid(s)
    ensures var own := OwnPools(s, ns, name);
      && DistinctNames(own)
      && (forall i | 0 <= i < |own| ::
            var k := Key(NodePools, ns, own[i].name); k in s && PoolOf(s, ns, name, k))
      && (forall k <- s | PoolOf(s, ns, name, k) :: s[k] in own && k == Key(NodePools, ns, s[k].name))
  {
    ListingIsExact(s, NodePools, ns);
    hide ValidName, Listing;
    MatchingDistinct(Listing(s, NodePools, ns), name);
    var own := OwnPools(s, ns, name);
    forall i | 0 <= i < |own|
      ensures var k := Key(NodePools, ns, own[i].name); k in s && PoolOf(s, ns, name, k)
    {
      assert own[i] in own;
    }
  }

  /** What is left behind, exactly: the i-th node pool of the hosted cluster stays when the list request
      goes wrong, or when its own request, the i-th after it, is not served. */
  lemma LeftBehindExactly(st: State, f: nat -> Fault, ns: string, name: string, i: nat)
    requires Valid(st.store) && Sane(ns) && Sane(name) && i < |OwnPools(st.store, ns, name)|
    ensures Key(NodePools, ns, OwnPools(st.store, ns, name)[i].name) in DeleteCluster(st, f, ns, name).0.store
       <==> !f(|st.log|).Ok? || !Served(f(|st.log| + 1 + i))
  {
    hide *;
    var own, n := OwnPools(st.store, ns, name), |st.log|;
    OwnPoolsAreAll(st.store, ns, name);
    var k := Key(NodePools, ns, own[i].name);
    DeleteExactly(st, f, ns, name);
    WhatIsFetched(st, f, ns, name);
    if f(n).Ok? {
      TheOnlyOne(f, n + 1, ns, own, i);
    } else {
      NoneDeleted(f, n + 1, ns, k);
    }
  }

  lemma NoneDeleted(f: nat -> Fault, n: nat, ns: string, k: Key)
    ensures !Deleted(f, n, ns, [], k)
  {
  }

  lemma WhatIsFetched(st: State, f: nat -> Fault, ns: string, name: string)
    requires Sane(ns)
    ensures FetchPools(st, f, ns, name).1 == if f(|st.log|).Ok? then OwnPools(st.store, ns, name) else []
  {
    hide Sane, Listing, Matching;
  }

  lemma TheOnlyOne(f: nat -> Fault, n: nat, ns: string, pools: seq<Obj>, i: nat)
    requires i < |pools| && DistinctNames(pools)
    ensures Deleted(f, n, ns, pools, Key(NodePools, ns, pools[i].name)) <==> Served(f(n + i))
  {
    hide Served;
  }

  /** A success may leave node pools behind: the list request is refused, all others are served. */
  lemma SuccessMayLeavePools(st: State, f: nat -> Fault, ns: string, name: string, pool: string)
    requires Valid(st.store) && Sane(ns) && Sane(name)
    requires Key(HostedClusters, ns, name) in st.store
    requires var k := Key(NodePools, ns, pool); k in st.store && st.store[k].clusterName == name
    requires f(|st.log|).Refused? && Faultless(f, |st.log| + 1)
    ensures var (st', answer) := DeleteCluster(st, f, ns, name);
      && answer == Forwarded(Done)
      && Key(HostedClusters, ns, name) !in st'.store && Key(NodePools, ns, pool) in st'.store
  {
    WhatIsFetched(st, f, ns, name);
    FetchKeeps(st, f, ns, name);
    DeleteExactly(st, f, ns, name);
    var (st1, pools) := FetchPools(st, f, ns, name);
    assert pools == [] && DeletePools(st1, f, ns, pools) == st1;
    hide Sane, FetchPools, DeletePools, Send, Valid, OwnPools;
    assert f(|st1.log|).Ok?;
    DeleteOne(st1, f, HostedClusters, ns, name);
  }

  /** Such a spoke: namespace a, hosted cluster b, and its node pool c. */
  function OnePool(): Store {
    map[NamespaceKey("a") := Obj("a", "", map[], "v1", "Namespace", "", ""),
        Key(HostedClusters, "a", "b") := Obj("b", "a", map[], GROUP_VERSION, "HostedCluster", "", ""),
        Key(NodePools, "a", "c") := Obj("c", "a", map[], GROUP_VERSION, "NodePool", "b", "")]
  }

  /** The first request is refused and no other goes wrong. */
  function FirstRefused(i: nat): Fault {
    if i == 0 then Refused else Fault.Ok
  }

  lemma OneLetterIsValid(name: string)
    requires |name| == 1 && LowerAlnum(name[0])
    ensures Sane(name) && IsLabel(name)
  {
    SplitWhole(name, '.');
  }

  lemma PoolLeftBehind()
    ensures var (st', answer) := DeleteCluster(State(OnePool(), []), FirstRefused, "a", "b");
      answer == Forwarded(Done) && Key(NodePools, "a", "c") in st'.store && Key(HostedClusters, "a", "b") !in st'.store
  {
    OneLetterIsValid("a");
    OneLetterIsValid("b");
    OneLetterIsValid("c");
    assert Valid(OnePool()) by {
      hide Sane, IsLabel;
    }
    hide Sane, IsLabel, Valid, DeleteCluster;
    SuccessMayLeavePools(State(OnePool(), []), FirstRefused, "a", "b", "c");
  }

  /** Whatever goes wrong, a DELETE removes nothing but the hosted cluster and the node pools in its
      namespace that name it, and changes nothing. */
  lemma DeleteRemovesOnlyItsOwn(st: State, f: nat -> Fault, ns: string, name: string)
    requires Valid(st.store) && Sane(ns) && Sane(name)
    ensures var s' := DeleteCluster(st, f, ns, name).0.store;
      && (forall k <- s' :: k in st.store && s'[k] == st.store[k])
      && (forall k <- st.store | k !in s' :: Own(st.store, ns, name, k))
  {
    hide Sane, DeleteCluster, FetchPools, Valid;
    DeleteExactly(st, f, ns, name);
    FetchedPoolsAreStored(st, f, ns, name);
  }

  /** When nothing goes wrong, a DELETE removes the hosted cluster and every node pool in its namespace
      that names it, nothing else, and is answered as the request for the hosted cluster was. */
  lemma DeleteRemovesAllItsOwn(st: State, f: nat -> Fault, ns: string, name: string)
    requires Valid(st.store) && Sane(ns) && Sane(name) && Faultless(f, |st.log|)
    ensures var (st', answer) := DeleteCluster(st, f, ns, name); var hc := Key(HostedClusters, ns, name);
      && (forall k :: k in st'.store <==> k in st.store && !Own(st.store, ns, name, k))
      && (forall k <- st'.store :: st'.store[k] == st.store[k])
      && answer == Forwarded(if hc in st.store then Done else NotFound)
  {
    DeleteRemovesOnlyItsOwn(st, f, ns, name);
    CleanDeleteAnswer(st, f, ns, name);
    var s, s' := st.store, DeleteCluster(st, f, ns, name).0.store;
    hide Own, DeleteCluster, Valid, Sane;
    forall k | Own(s, ns, name, k) ensures k !in s' {
      OwnIsDeleted(st, f, ns, name, k);
    }
    assert forall k | k in s && k !in s' :: Own(s, ns, name, k);
  }

  lemma OwnIsDeleted(st: State, f: nat -> Fault, ns: string, name: string, k: Key)
    requires Valid(st.store) && Sane(ns) && Sane(name) && Faultless(f, |st.log|) && Own(st.store, ns, name, k)
    ensures k !in DeleteCluster(st, f, ns, name).0.store
  {
    DeleteExactly(st, f, ns, name);
    if k != Key(HostedClusters, ns, name) {
      EveryPoolIsDeleted(st, f, ns, name, k);
    }
    hide Sane, FetchPools, DeleteCluster, Deleted, Valid;
    assert Served(f(|st.log| + 1 + |FetchPools(st, f, ns, name).1|));
  }

  lemma EveryPoolIsDeleted(st: State, f: nat -> Fault, ns: string, name: string, k: Key)
    requires Valid(st.store) && Sane(ns) && Faultless(f, |st.log|) && k in st.store && PoolOf(st.store, ns, name, k)
    ensures Deleted(f, |st.log| + 1, ns, FetchPools(st, f, ns, name).1, k)
  {
    hide Sane, Listing, FetchPools, ValidName;
    var pools, o := FetchPools(st, f, ns, name).1, st.store[k];
    ListedPools(st, f, ns, name, o);
    ListingIsExact(st.store, NodePools, ns);
    var i :| 0 <= i < |pools| && pools[i] == o;
    assert Served(f(|st.log| + 1 + i)) by {
      assert f(|st.log| + 1 + i).Ok?;
    }
  }

  lemma ListedPools(st: State, f: nat -> Fault, ns: string, name: string, o: Obj)
    requires Sane(ns) && Faultless(f, |st.log|)
    ensures o in FetchPools(st, f, ns, name).1 <==> o in Listing(st.store, NodePools, ns) && o.clusterName == name
  {
    hide Sane, Listing;
  }

  lemma CleanDeleteAnswer(st: State, f: nat -> Fault, ns: string, name: string)
    requires Valid(st.store) && Sane(ns) && Sane(name) && Faultless(f, |st.log|)
    ensures DeleteCluster(st, f, ns, name).1
         == Forwarded(if Key(HostedClusters, ns, name) in st.store then Done else NotFound)
  {
    var (st1, pools) := FetchPools(st, f, ns, name);
    FetchKeeps(st, f, ns, name);
    hide Sane, FetchPools, DeletePools, Send, Valid;
    DeletePoolsExactly(st1, f, ns, pools);
    DeleteOne(DeletePools(st1, f, ns, pools), f, HostedClusters, ns, name);
    var hc := Key(HostedClusters, ns, name);
    assert hc in st1.store ==> !Deleted(f, |st1.log|, ns, pools, hc);
  }

  // ---- runs ----

  lemma {:induction false} SecretsKeepValid(st: State, f: nat -> Fault, ns: string, hc: string, secrets: seq<Obj>)
    requires Valid(st.store)
    ensures Valid(CreateSecrets(st, f, ns, hc, secrets).0.store)
  {
    if secrets != [] {
      SecretsKeepValid(st, f, ns, hc, secrets[..|secrets| - 1]);
      hide Send, Sane, Valid;
      var st1 := CreateSecrets(st, f, ns, hc, secrets[..|secrets| - 1]).0;
      var o := StampSecret(secrets[|secrets| - 1], ns, hc);
      var post := Post(Secrets, ns, o);
      SendKeepsValid(st1, f, post);
      SendKeepsValid(Send(st1, f, post).0, f, Put(Secrets, ns, o.name, o));
    }
  }

  lemma {:induction false} PoolsKeepValid(st: State, f: nat -> Fault, ns: string, hc: string, pools: seq<Option<Obj>>)
    requires Valid(st.store)
    ensures Valid(CreatePools(st, f, ns, hc, pools).st.store)
  {
    if pools != [] {
      var front, last := pools[..|pools| - 1], pools[|pools| - 1];
      PoolsKeepValid(st, f, ns, hc, front);
      hide Send, Sane, Valid;
      if last.Some? {
        SendKeepsValid(CreatePools(st, f, ns, hc, front).st, f, Post(NodePools, ns, StampNodePool(last.value, ns, hc)));
      }
    }
  }

  lemma CreateKeepsValid(st: State, f: nat -> Fault, ns: string, req: CreateRequest)
    requires Valid(st.store)
    ensures Valid(Create(st, f, ns, req).0.store)
  {
    hide Send, Sane, Valid, CreateSecrets, CreatePools;
    if req.hostedCluster.Some? {
      var hc := req.hostedCluster.value;
      SendKeepsValid(st, f, Post(Namespaces, "", BuildNamespace(ns, hc.name)));
      var (st1, _) := PostOn(st, f, ns, Namespaces, BuildNamespace(ns, hc.name));
      SecretsKeepValid(st1, f, ns, hc.name, req.secrets);
      var (st2, _) := CreateSecrets(st1, f, ns, hc.name, req.secrets);
      SendKeepsValid(st2, f, Post(HostedClusters, ns, StampHostedCluster(hc, ns)));
      var (st3, _) := CreateCluster(st, f, ns, hc, req.secrets);
      assert Valid(st3.store);
      PoolsKeepValid(st3, f, ns, hc.name, req.nodePools);
    }
  }

  lemma {:induction false} PutPoolsKeepValid(st: State, f: nat -> Fault, ns: string, pools: seq<Obj>)
    requires Valid(st.store)
    ensures Valid(PutPools(st, f, ns, pools).0.store)
  {
    if pools != [] {
      var front, o := pools[..|pools| - 1], pools[|pools| - 1];
      PutPoolsKeepValid(st, f, ns, front);
      hide Send, Sane, Valid;
      SendKeepsValid(PutPools(st, f, ns, front).0, f, Put(NodePools, ns, o.name, o.(namespace := ns)));
    }
  }

  lemma PutKeepsValid(st: State, f: nat -> Fault, ns: string, name: string, b: Bundle)
    requires Valid(st.store)
    ensures Valid(PutBundle(st, f, ns, name, b).0.store)
  {
    hide Send, Sane, Valid, GetBundle, PutPools;
    if b.hostedCluster.Some? {
      SendKeepsValid(st, f, Put(HostedClusters, ns, name, b.hostedCluster.value.(namespace := ns)));
    }
    var st1 := if b.hostedCluster.None? then st else PutOn(st, f, HostedClusters, ns, name, b.hostedCluster.value).0;
    PutPoolsKeepValid(st1, f, ns, b.nodePools);
    GetChangesNothing(PutAll(st, f, ns, name, b).0, f, ns, name);
  }

  /** An event on the spoke: a caller's request to the proxy, or a request somebody else sends directly */
  datatype Event = ByProxy(op: Operation) | Direct(call: Call)

  ghost function After(st: State, f: nat -> Fault, events: seq<Event>): State {
    if events == [] then st
    else
      var st1, e := After(st, f, events[..|events| - 1]), events[|events| - 1];
      if e.ByProxy? then Dispatched(st1, f, e.op).0 else Send(st1, f, e.call).0
  }

  /** Every reachable state of the spoke is one the theorems above apply to. */
  lemma {:induction false} RunsKeepValid(st: State, f: nat -> Fault, events: seq<Event>)
    requires Valid(st.store)
    ensures Valid(After(st, f, events).store)
  {
    if events != [] {
      RunsKeepValid(st, f, events[..|events| - 1]);
      var st1, e := After(st, f, events[..|events| - 1]), events[|events| - 1];
      hide Send, Sane, Create, GetBundle, PutBundle, DeleteCluster;
      if e.Direct? {
        SendKeepsValid(st1, f, e.call);
      } else if Sane(e.op.ns) && (!e.op.CreateOp? ==> Sane(e.op.name)) {
        match e.op {
          case CreateOp(ns, req) => CreateKeepsValid(st1, f, ns, req);
          case GetOp(ns, name) => GetChangesNothing(st1, f, ns, name);
          case PutOp(ns, name, bundle) => PutKeepsValid(st1, f, ns, name, bundle);
          case DeleteOp(ns, name) =>
            DeleteRemovesOnlyItsOwn(st1, f, ns, name);
            hide Own, ValidName;
        }
      }
    }
  }
}
