/** A hosted cluster from its creation through the proxy to its deletion. */
module Lifecycle {
  import opened Basics
  import opened ProxyPaths
  import opened SpokeApi
  import opened HcpProxy
  import opened CreateRetries
  import opened Bundles

  /** The stamps of an object created through the proxy for hosted cluster hc */
  predicate BearsLabels(o: Obj, hc: string) {
    && CREATED_VIA in o.labels && o.labels[CREATED_VIA] == FROM_HUB
    && HOSTED_CLUSTER in o.labels && o.labels[HOSTED_CLUSTER] == hc
  }

  lemma ProxyLabelsBoth(labels: map<string, string>, hc: string)
    ensures var r := ProxyLabels(labels, hc);
      && CREATED_VIA in r && r[CREATED_VIA] == FROM_HUB && HOSTED_CLUSTER in r && r[HOSTED_CLUSTER] == hc
      && forall l <- labels :: l in r && (l != CREATED_VIA && l != HOSTED_CLUSTER ==> r[l] == labels[l])
  {
    assert |CREATED_VIA| != |HOSTED_CLUSTER|;
  }

  /** Whatever goes wrong, every object a creation adds or overwrites bears the proxy's labels and
      stands in the namespace of the request; a node pool among them names a cluster, the one created
      unless the request says otherwise. */
  lemma NewObjectsBearLabels(st: State, f: nat -> Fault, ns: string, req: CreateRequest, k: Key)
    requires Sane(ns) && req.hostedCluster.Some?
    requires var s' := Create(st, f, ns, req).0.store; k in s' && (k !in st.store || s'[k] != st.store[k])
    ensures var o, hc := Create(st, f, ns, req).0.store[k], req.hostedCluster.value.name;
      && BearsLabels(o, hc)
      && (if k.resource.Namespaces? then k == NamespaceKey(ns) else k.ns == ns == o.namespace)
      && (k.resource.NodePools? && hc != "" ==> o.clusterName != "")
  {
    CreateChangesOnlyRequested(st, f, ns, req);
    hide Create, ProxyLabels, Sane;
    var o, hc := Create(st, f, ns, req).0.store[k], req.hostedCluster.value;
    assert Requested(ns, req, k, o);
    match k.resource {
      case Namespaces => ProxyLabelsBoth(map[], hc.name);
      case Secrets =>
        var s :| s in req.secrets && k == Key(Secrets, ns, s.name) && o == StampSecret(s, ns, hc.name);
        ProxyLabelsBoth(s.labels, hc.name);
      case HostedClusters => ProxyLabelsBoth(hc.labels, hc.name);
      case NodePools =>
        var p :| p in req.nodePools && p.Some? && o == StampNodePool(p.value, ns, hc.name);
        ProxyLabelsBoth(p.value.labels, hc.name);
    }
  }

  lemma PoolPost(st: State, f: nat -> Fault, ns: string, o: Obj)
    ensures var (st', reply) := PostOn(st, f, ns, NodePools, o); var k := Key(NodePools, ns, o.name);
      && (reply.Done? ==> k in st'.store && st'.store[k] == o)
      && (forall k' <- st.store :: k' in st'.store && st'.store[k'] == st.store[k'])
  {
    hide Listing, Sane;
  }

  /** The node pools reported as created are on the spoke. */
  lemma {:induction false} CreatedPoolsAreStored(
    st: State, f: nat -> Fault, ns: string, hc: string, pools: seq<Option<Obj>>)
    ensures var p := CreatePools(st, f, ns, hc, pools);
      && (forall o <- p.created ::
            Key(NodePools, ns, o.name) in p.st.store && p.st.store[Key(NodePools, ns, o.name)] == o)
      && (forall k <- st.store :: k in p.st.store && p.st.store[k] == st.store[k])
  {
    hide PostOn, StampNodePool;
    if pools != [] {
      var front, last := pools[..|pools| - 1], pools[|pools| - 1];
      CreatedPoolsAreStored(st, f, ns, hc, front);
      if last.Some? {
        PoolPost(CreatePools(st, f, ns, hc, front).st, f, ns, StampNodePool(last.value, ns, hc));
      }
    }
  }

  /** What an answer of 201 reports is on the spoke, whatever went wrong meanwhile. */
  lemma CreatedIsStored(st: State, f: nat -> Fault, ns: string, req: CreateRequest)
    requires Sane(ns) && Create(st, f, ns, req).1.Created?
    ensures var (st', answer) := Create(st, f, ns, req); var s', b := st'.store, answer.bundle;
      var hc := HostedClusterKey(ns, req.hostedCluster.value);
      && hc in s' && b.hostedCluster == Some(s'[hc])
      && forall o <- b.nodePools :: Key(NodePools, ns, o.name) in s' && s'[Key(NodePools, ns, o.name)] == o
  {
    CreatedIsThere(st, f, ns, req);
    CreateChangesOnlyRequested(st, f, ns, req);
    var hc := req.hostedCluster.value;
    assert Requested(ns, req, HostedClusterKey(ns, hc), Create(st, f, ns, req).0.store[HostedClusterKey(ns, hc)]);
    hide CreateCluster, CreatePools, Sane;
    CreatedPoolsAreStored(CreateCluster(st, f, ns, hc, req.secrets).0, f, ns, hc.name, req.nodePools);
  }

  /** The log when the node pools are asked for */
  ghost function LogBeforePools(st: State, f: nat -> Fault, ns: string, name: string): (log: seq<Request>)
    requires Sane(ns) && Sane(name) && Faultless(f, |st.log|) && Key(HostedClusters, ns, name) in st.store
    ensures |log| >= |st.log|
    ensures var (st3, pools) := FetchPools(State(st.store, log), f, ns, name);
      GetBundle(st, f, ns, name) == (st3, Success(Bundle(FetchNamespace(st, f, ns).1,
          Some(st.store[Key(HostedClusters, ns, name)]), pools, [])))
  {
    hide Sane, Listing, FetchPools;
    var st1 := FetchNamespace(st, f, ns).0;
    assert f(|st1.log|).Ok?;
    Send(st1, f, Get(HostedClusters, ns, name)).0.log
  }

  lemma GetFinds(st: State, f: nat -> Fault, ns: string, name: string)
    requires Valid(st.store) && Sane(ns) && Sane(name) && Faultless(f, |st.log|)
    requires Key(HostedClusters, ns, name) in st.store
    ensures var answer := GetBundle(st, f, ns, name).1;
      && answer.Success? && answer.bundle.hostedCluster == Some(st.store[Key(HostedClusters, ns, name)])
      && forall k <- st.store | PoolOf(st.store, ns, name, k) :: st.store[k] in answer.bundle.nodePools
  {
    hide Sane, Listing, FetchPools, Valid;
    var st2 := State(st.store, LogBeforePools(st, f, ns, name));
    ListingIsExact(st.store, NodePools, ns);
    forall k <- st.store | PoolOf(st.store, ns, name, k) ensures st.store[k] in FetchPools(st2, f, ns, name).1 {
      ListedPools(st2, f, ns, name, st.store[k]);
    }
  }

  /** After a creation answered with 201, reading gives back the hosted cluster it reported, and every
      node pool it reported that belongs to it. */
  lemma CreatedIsFound(st: State, f: nat -> Fault, ns: string, req: CreateRequest, f': nat -> Fault)
    requires Valid(st.store) && Sane(ns) && Create(st, f, ns, req).1.Created?
    requires Faultless(f', |Create(st, f, ns, req).0.log|)
    ensures var (st', answer) := Create(st, f, ns, req); var name := req.hostedCluster.value.name;
      var found := GetBundle(st', f', ns, name).1;
      && found.Success? && found.bundle.hostedCluster == answer.bundle.hostedCluster
      && forall o <- answer.bundle.nodePools :: o.clusterName == name ==> o in found.bundle.nodePools
  {
    CreateKeepsValid(st, f, ns, req);
    CreatedIsStored(st, f, ns, req);
    hide Create, GetBundle, Sane;
    var (st', answer) := Create(st, f, ns, req);
    var name := req.hostedCluster.value.name;
    assert Sane(name) by {
      assert ValidName(HostedClusters, name);
    }
    GetFinds(st', f', ns, name);
    forall o <- answer.bundle.nodePools | o.clusterName == name ensures o in GetBundle(st', f', ns,
        name).1.bundle.nodePools {
      assert PoolOf(st'.store, ns, name, Key(NodePools, ns, o.name));
    }
  }

  /** What a deletion leaves of a creation */
  predicate Remains(ns: string, name: string, k: Key, o: Obj) {
    k == NamespaceKey(ns) || k.resource.Secrets? || (k.resource.NodePools? && o.clusterName != name)
  }

  /** A creation, whatever went wrong in it, followed by a deletion in which nothing does: of what the
      creation added, only the namespace, secrets, and node pools that name another cluster remain; and
      of what was there before, all but the hosted cluster itself and its node pools remain. */
  lemma CreateThenDelete(st: State, f: nat -> Fault, ns: string, req: CreateRequest, f': nat -> Fault)
    requires Valid(st.store) && Sane(ns) && req.hostedCluster.Some? && Sane(req.hostedCluster.value.name)
    requires Faultless(f', |Create(st, f, ns, req).0.log|)
    ensures var name := req.hostedCluster.value.name;
      var s, created := st.store, Create(st, f, ns, req).0;
      var s' := DeleteCluster(created, f', ns, name).0.store;
      && (forall k <- s' | k !in s :: Remains(ns, name, k, s'[k]))
      && (forall k <- s | !Own(s, ns, name, k) :: k in s' && (k.resource.Secrets? || s'[k] == s[k]))
  {
    var name := req.hostedCluster.value.name;
    var created := Create(st, f, ns, req).0;
    var s, s' := st.store, DeleteCluster(created, f', ns, name).0.store;
    CreateKeepsValid(st, f, ns, req);
    CreateChangesOnlyRequested(st, f, ns, req);
    DeleteRemovesAllItsOwn(created, f', ns, name);
    hide Create, DeleteCluster, Sane, Valid;
    forall k <- s' | k !in s ensures Remains(ns, name, k, s'[k]) {
      assert Requested(ns, req, k, created.store[k]);
    }
  }

  /** Only the answer to the second request is lost. */
  function SecondLost(i: nat): Fault {
    if i == 1 then Lost else Fault.Ok
  }

  function JustB(): CreateRequest {
    CreateRequest(Some(Obj("b", "", map[], "", "", "", "")), [], [])
  }

  /** A creation that succeeds on the spoke without being confirmed: on an empty spoke, in namespace a, the
      answer to the POST of hosted cluster b is lost. The caller is told of a failure, the hosted cluster
      is there, and no retry, whatever befalls it, is ever answered otherwise. */
  lemma CreatedButNotConfirmed(n: nat, f: nat -> Fault)
    ensures var (st, answer) := Create(State(map[], []), SecondLost, "a", JustB());
      && answer == Error(INTERNAL) && Key(HostedClusters, "a", "b") in st.store
      && Create(Attempts(st, f, "a", JustB(), n), f, "a", JustB()).1 == Error(INTERNAL)
  {
    OneLetterIsValid("a");
    OneLetterIsValid("b");
    NotConfirmed();
    var st := Create(State(map[], []), SecondLost, "a", JustB()).0;
    hide Create, Sane, Prepared;
    AttemptsPrepare(st, f, "a", JustB(), n);
    NoSecondCreation(Attempts(st, f, "a", JustB(), n), f, "a", JustB());
  }

  lemma NotConfirmed()
    ensures var (st, answer) := Create(State(map[], []), SecondLost, "a", JustB());
      answer == Error(INTERNAL) && Key(HostedClusters, "a", "b") in st.store
  {
    OneLetterIsValid("a");
    OneLetterIsValid("b");
    hide Sane, IsLabel, Listing, ProxyLabels;
    var hc := JustB().hostedCluster.value;
    var (st1, reply1) := PostOn(State(map[], []), SecondLost, "a", Namespaces, BuildNamespace("a", "b"));
    assert reply1.Done? && NamespaceKey("a") in st1.store && |st1.log| == 1;
    assert Key(HostedClusters, "a", "b") !in st1.store;
    assert CreateSecrets(st1, SecondLost, "a", "b", []) == (st1, true);
    var (st2, reply2) := PostOn(st1, SecondLost, "a", HostedClusters, StampHostedCluster(hc, "a"));
    assert reply2.Unreachable? && Key(HostedClusters, "a", "b") in st2.store;
  }
}
