/** What a creation puts on the spoke and answers, field by field, and what becomes of it afterwards. */
module CreateLaws {
  import opened Basics
  import opened ProxyPaths
  import opened SpokeApi
  import opened HcpProxy
  import opened CreateRetries
  import opened Bundles
  import opened Lifecycle

  /** The labels given, with the two of the proxy added or replaced */
  ghost predicate Labelled(labels: map<string, string>, given: map<string, string>, hc: string) {
    && "hcp.ocm.io/created-via" in labels && labels["hcp.ocm.io/created-via"] == "hcp-from-hub"
    && "hcp.ocm.io/hostedcluster" in labels && labels["hcp.ocm.io/hostedcluster"] == hc
    && forall l | l != "hcp.ocm.io/created-via" && l != "hcp.ocm.io/hostedcluster" ::
         (l in labels <==> l in given) && (l in labels ==> labels[l] == given[l])
  }

  ghost predicate NamespaceMade(o: Obj, ns: string, hc: string) {
    && o.name == ns && o.namespace == "" && o.apiVersion == "v1" && o.kind == "Namespace"
    && Labelled(o.labels, map[], hc)
  }

  ghost predicate SecretMade(o: Obj, given: Obj, ns: string, hc: string) {
    && o.name == given.name && o.payload == given.payload && o.apiVersion == given.apiVersion && o.kind == given.kind
    && o.namespace == ns && Labelled(o.labels, given.labels, hc)
  }

  ghost predicate HostedClusterMade(o: Obj, given: Obj, ns: string) {
    && o.name == given.name && o.payload == given.payload && o.namespace == ns
    && o.apiVersion == "hypershift.openshift.io/v1beta1" && o.kind == "HostedCluster"
    && Labelled(o.labels, given.labels, given.name)
  }

  /** A node pool given without a cluster gets the one that is created, and keeps its own otherwise. */
  ghost predicate NodePoolMade(o: Obj, given: Obj, ns: string, hc: string) {
    && o.name == given.name && o.payload == given.payload && o.namespace == ns
    && o.apiVersion == "hypershift.openshift.io/v1beta1" && o.kind == "NodePool"
    && o.clusterName == (if given.clusterName == "" then hc else given.clusterName)
    && Labelled(o.labels, given.labels, hc)
  }

  lemma LabelsAre(given: map<string, string>, hc: string)
    ensures Labelled(ProxyLabels(given, hc), given, hc)
  {
    assert |CREATED_VIA| != |HOSTED_CLUSTER|;
  }

  lemma StampsAre(o: Obj, ns: string, hc: string)
    ensures NamespaceMade(BuildNamespace(ns, hc), ns, hc)
    ensures SecretMade(StampSecret(o, ns, hc), o, ns, hc)
    ensures HostedClusterMade(StampHostedCluster(o, ns), o, ns)
    ensures NodePoolMade(StampNodePool(o, ns, hc), o, ns, hc)
  {
    LabelsAre(map[], hc);
    LabelsAre(o.labels, hc);
    LabelsAre(o.labels, o.name);
    hide Labelled, ProxyLabels;
  }

  // ---- what is on the spoke ----

  /** Whatever goes wrong, everything a creation adds to the spoke or changes there is made from what was
      given: the namespace, a secret, the hosted cluster, or a node pool. */
  lemma NewObjectsAreMade(st: State, f: nat -> Fault, ns: string, req: CreateRequest, k: Key)
    requires Sane(ns) && req.hostedCluster.Some?
    requires var s' := Create(st, f, ns, req).0.store; k in s' && (k !in st.store || s'[k] != st.store[k])
    ensures var o, hc := Create(st, f, ns, req).0.store[k], req.hostedCluster.value;
      match k.resource
      case Namespaces => NamespaceMade(o, ns, hc.name)
      case Secrets => k.ns == ns && exists s <- req.secrets :: k.name == s.name && SecretMade(o, s, ns, hc.name)
      case HostedClusters => k.ns == ns && k.name == hc.name && HostedClusterMade(o, hc, ns)
      case NodePools => k.ns == ns && exists p <- req.nodePools ::
        p.Some? && k.name == p.value.name && NodePoolMade(o, p.value, ns, hc.name)
  {
    CreateChangesOnlyRequested(st, f, ns, req);
    var o, hc := Create(st, f, ns, req).0.store[k], req.hostedCluster.value;
    assert Requested(ns, req, k, o);
    hide Create, Sane, SecretMade, NodePoolMade, NamespaceMade, HostedClusterMade, StampSecret, StampNodePool,
      StampHostedCluster, BuildNamespace;
    StampsAre(hc, ns, hc.name);
    match k.resource {
      case Namespaces =>
      case Secrets =>
        var s :| s in req.secrets && k == Key(Secrets, ns, s.name) && o == StampSecret(s, ns, hc.name);
        StampsAre(s, ns, hc.name);
      case HostedClusters =>
      case NodePools =>
        var p :| p in req.nodePools && p.Some?
          && k == Key(NodePools, ns, p.value.name) && o == StampNodePool(p.value, ns, hc.name);
        StampsAre(p.value, ns, hc.name);
    }
  }

  // ---- what is answered ----

  /** The answers of a creation: 400 without a hosted cluster, and otherwise 201 or 500. */
  lemma CreateAnswers(st: State, f: nat -> Fault, ns: string, req: CreateRequest)
    ensures var answer := Create(st, f, ns, req).1;
      if req.hostedCluster.None? then answer == Error(400) else answer.Created? || answer == Error(500)
  {
    hide CreateCluster, CreatePools;
  }

  lemma {:induction false} CreatedPoolsAreMade(
    st: State, f: nat -> Fault, ns: string, hc: string, pools: seq<Option<Obj>>, o: Obj)
    requires o in CreatePools(st, f, ns, hc, pools).created
    ensures exists p <- pools :: p.Some? && NodePoolMade(o, p.value, ns, hc)
  {
    var front, last := pools[..|pools| - 1], pools[|pools| - 1];
    hide PostOn, NodePoolMade, StampNodePool;
    if o in CreatePools(st, f, ns, hc, front).created {
      CreatedPoolsAreMade(st, f, ns, hc, front, o);
    } else {
      assert last.Some? && o == StampNodePool(last.value, ns, hc);
      StampsAre(last.value, ns, hc);
    }
  }

  /** A 201 reports the namespace, the hosted cluster and node pools made from what was given. */
  lemma BundleIsMade(st: State, f: nat -> Fault, ns: string, req: CreateRequest)
    requires Create(st, f, ns, req).1.Created?
    ensures var b, hc := Create(st, f, ns, req).1.bundle, req.hostedCluster.value;
      && b.namespace.Some? && NamespaceMade(b.namespace.value, ns, hc.name)
      && b.hostedCluster.Some? && HostedClusterMade(b.hostedCluster.value, hc, ns)
      && forall o <- b.nodePools :: exists p <- req.nodePools :: p.Some? && NodePoolMade(o, p.value, ns, hc.name)
  {
    var hc := req.hostedCluster.value;
    var st1 := CreateCluster(st, f, ns, hc, req.secrets).0;
    var b := Create(st, f, ns, req).1.bundle;
    StampsAre(hc, ns, hc.name);
    hide CreateCluster, CreatePools, NodePoolMade, NamespaceMade, HostedClusterMade;
    forall o | o in b.nodePools ensures exists p <- req.nodePools :: p.Some? && NodePoolMade(o, p.value, ns, hc.name) {
      CreatedPoolsAreMade(st1, f, ns, hc.name, req.nodePools, o);
    }
  }

  // ---- afterwards ----

  /** A node pool reported by a 201 that was given without a cluster, or with the one created: it belongs to the
      hosted cluster, a clean read finds it, and a clean deletion removes it. */
  lemma PoolsOfTheCluster(st: State, f: nat -> Fault, ns: string, req: CreateRequest, f': nat -> Fault, o: Obj)
    requires Valid(st.store) && Sane(ns) && Create(st, f, ns, req).1.Created?
    requires Faultless(f', |Create(st, f, ns, req).0.log|)
    requires o in Create(st, f, ns, req).1.bundle.nodePools
    ensures var st', name := Create(st, f, ns, req).0, req.hostedCluster.value.name;
      var found, left := GetBundle(st', f', ns, name).1, DeleteCluster(st', f', ns, name).0.store;
      && found.Success? && found.bundle.hostedCluster == Create(st, f, ns, req).1.bundle.hostedCluster
      && Key(HostedClusters, ns, name) !in left
      && exists p <- req.nodePools ::
           && p.Some? && NodePoolMade(o, p.value, ns, name)
           && (p.value.clusterName == "" || p.value.clusterName == name ==>
                 o.clusterName == name && o in found.bundle.nodePools && Key(NodePools, ns, o.name) !in left)
  {
    var st', name := Create(st, f, ns, req).0, req.hostedCluster.value.name;
    BundleIsMade(st, f, ns, req);
    CreatedIsFound(st, f, ns, req, f');
    CreatedIsStored(st, f, ns, req);
    CreateKeepsValid(st, f, ns, req);
    hide Create, Sane, GetBundle, DeleteCluster, Labelled, ValidName;
    assert Sane(name) by {
      CreatedNameIsSane(st', ns, name);
    }
    DeleteRemovesAllItsOwn(st', f', ns, name);
    hide Valid;
    var p :| p in req.nodePools && p.Some? && NodePoolMade(o, p.value, ns, name);
  }

  lemma CreatedNameIsSane(st: State, ns: string, name: string)
    requires Valid(st.store) && Key(HostedClusters, ns, name) in st.store
    ensures Sane(name)
  {
    assert ValidName(HostedClusters, name);
  }
}
