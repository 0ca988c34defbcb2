/** What a caller of the proxy gets for reading, putting and deleting, and what each request does. */
module ProxyLaws {
  import opened Basics
  import opened ProxyPaths
  import opened SpokeApi
  import opened HcpProxy
  import opened CreateRetries
  import opened Bundles

  // ---- reading ----

  /** Reading sends three requests. The second decides: 404 when the hosted cluster is not there, 502 when the
      request goes wrong, and otherwise the bundle, with the namespace and the node pools as far as their own
      requests went well. */
  lemma GetAnswers(st: State, f: nat -> Fault, ns: string, name: string)
    requires Sane(ns) && Sane(name)
    ensures var answer, s, n := GetBundle(st, f, ns, name).1, st.store, |st.log|;
      var hc := Key(HostedClusters, ns, name);
      if !f(n + 1).Ok? then answer == Error(502)
      else if hc !in s then answer == Error(404)
      else
        && answer.Success? && answer.bundle.hostedCluster == Some(s[hc]) && answer.bundle.warnings == []
        && answer.bundle.namespace
             == (if f(n).Ok? && Key(Namespaces, "", ns) in s then Some(s[Key(Namespaces, "", ns)]) else None)
        && answer.bundle.nodePools == (if f(n + 2).Ok? then OwnPools(s, ns, name) else [])
  {
    hide Sane, Listing, Matching;
  }

  // ---- putting ----

  /** A hosted cluster that is not there, or goes by another name, or whose request goes wrong: 502, and no
      node pool is sent. */
  lemma PutFailsFirst(st: State, f: nat -> Fault, ns: string, name: string, b: Bundle)
    requires Sane(ns) && Sane(name) && b.hostedCluster.Some?
    requires f(|st.log|).Ok? ==> Key(HostedClusters, ns, name) !in st.store || b.hostedCluster.value.name != name
    ensures var (st', answer) := PutBundle(st, f, ns, name, b);
      answer == Error(502) && |st'.log| == |st.log| + 1
  {
    hide Sane, Listing, PutPools, GetBundle;
  }

  /** A node pool with an invalid name: 400, and nothing is sent for it; one without a name is passed over. */
  lemma PutNodePoolNames(st: State, f: nat -> Fault, ns: string, pools: seq<Obj>, o: Obj)
    requires Sane(ns) && PutPools(st, f, ns, pools).1.None? && !Sane(o.name)
    ensures var (st', error) := PutPools(st, f, ns, pools + [o]);
      st' == PutPools(st, f, ns, pools).0 && error == (if o.name == "" then None else Some(400))
  {
    assert (pools + [o])[..|pools|] == pools;
    hide Sane, Send;
  }

  /** A node pool that is not there, or whose request goes wrong: 502. One that is there is replaced. */
  lemma PutNodePoolAnswers(st: State, f: nat -> Fault, ns: string, pools: seq<Obj>, o: Obj)
    requires Sane(ns) && PutPools(st, f, ns, pools).1.None? && Sane(o.name) && o.name != ""
    ensures var (st1, _) := PutPools(st, f, ns, pools); var (st', error) := PutPools(st, f, ns, pools + [o]);
      var k, fault := Key(NodePools, ns, o.name), f(|st1.log|);
      && error == (if fault.Ok? && k in st1.store then None else Some(502))
      && (fault.Ok? && k in st1.store ==> st'.store == st1.store[k := o.(namespace := ns)])
  {
    assert (pools + [o])[..|pools|] == pools;
    hide Sane, Listing;
  }

  // ---- deleting ----

  /** The last request decides: 502 when there is no answer, and otherwise the spoke's own. */
  lemma DeleteAnswers(st: State, f: nat -> Fault, ns: string, name: string)
    requires Valid(st.store) && Sane(ns) && Sane(name)
    ensures var answer := DeleteCluster(st, f, ns, name).1;
      var fault := f(|st.log| + 1 + |FetchPools(st, f, ns, name).1|);
      match fault
      case Ok => answer == Forwarded(if Key(HostedClusters, ns, name) in st.store then Done else NotFound)
      case Refused => answer == Forwarded(Rejected)
      case _ => answer == Error(502)
  {
    hide Sane, FetchPools, DeletePools, Valid, Send, Deleted;
    var (st1, pools) := FetchPools(st, f, ns, name);
    FetchKeeps(st, f, ns, name);
    DeletePoolsExactly(st1, f, ns, pools);
    var hc := Key(HostedClusters, ns, name);
    NotAPool(f, |st1.log|, ns, pools, hc);
    DeleteReply(DeletePools(st1, f, ns, pools), f, ns, name);
  }

  lemma DeleteReply(st: State, f: nat -> Fault, ns: string, name: string)
    ensures var reply := Send(st, f, Delete(HostedClusters, ns, name)).1;
      match f(|st.log|)
      case Ok => reply == if Key(HostedClusters, ns, name) in st.store then Done else NotFound
      case Refused => reply == Rejected
      case _ => reply == Unreachable
  {
    hide Listing;
  }

  lemma NotAPool(f: nat -> Fault, n: nat, ns: string, pools: seq<Obj>, k: Key)
    requires !k.resource.NodePools?
    ensures !Deleted(f, n, ns, pools, k)
  {
  }

  // ---- each kind of request ----

  /** An invalid namespace or name is answered with 400, and nothing is sent. */
  lemma InvalidNamesAreRefused(st: State, f: nat -> Fault, op: Operation)
    requires !Sane(op.ns) || (!op.CreateOp? && !Sane(op.name))
    ensures Dispatched(st, f, op) == (st, Error(400))
  {
    hide Sane;
  }

  /** When nothing goes wrong a GET of a hosted cluster returns it and changes nothing, */
  lemma GetReturns(st: State, f: nat -> Fault, ns: string, name: string)
    requires Sane(ns) && Sane(name) && Faultless(f, |st.log|) && Key(HostedClusters, ns, name) in st.store
    ensures var (st', answer) := Dispatched(st, f, GetOp(ns, name));
      && st'.store == st.store
      && answer.Success? && answer.bundle.hostedCluster == Some(st.store[Key(HostedClusters, ns, name)])
  {
    hide Sane, GetBundle;
    GetAnswers(st, f, ns, name);
    GetChangesNothing(st, f, ns, name);
  }

  /** a PUT of a changed hosted cluster leaves the change on the spoke, */
  lemma PutChanges(st: State, f: nat -> Fault, ns: string, name: string, o: Obj)
    requires Sane(ns) && Sane(name) && Faultless(f, |st.log|) && Key(HostedClusters, ns, name) in st.store
    requires o.name == name
    ensures var (st', answer) := Dispatched(st, f, PutOp(ns, name, Bundle(None, Some(o), [], [])));
      answer.Success? && st'.store == st.store[Key(HostedClusters, ns, name) := o.(namespace := ns)]
  {
    var b := Bundle(None, Some(o), [], []);
    var (st1, error) := PutAll(st, f, ns, name, b);
    assert error.None? && st1.store == st.store[Key(HostedClusters, ns, name) := o.(namespace := ns)]
        && |st1.log| == |st.log| + 1 by {
      hide Sane, Listing;
    }
    hide Sane, PutAll, GetBundle;
    GetAnswers(st1, f, ns, name);
    GetChangesNothing(st1, f, ns, name);
  }

  /** a DELETE removes the hosted cluster, */
  lemma DeleteRemoves(st: State, f: nat -> Fault, ns: string, name: string)
    requires Valid(st.store) && Sane(ns) && Sane(name) && Faultless(f, |st.log|)
    requires Key(HostedClusters, ns, name) in st.store
    ensures var (st', answer) := Dispatched(st, f, DeleteOp(ns, name));
      answer == Forwarded(Done) && Key(HostedClusters, ns, name) !in st'.store
  {
    hide Sane, DeleteCluster, Valid;
    DeleteRemovesAllItsOwn(st, f, ns, name);
  }

  /** and a POST creates one that is not there. */
  lemma PostCreates(st: State, f: nat -> Fault, ns: string, o: Obj)
    requires Sane(ns) && Sane(o.name) && Faultless(f, |st.log|)
    requires Key(Namespaces, "", ns) in st.store && Key(HostedClusters, ns, o.name) !in st.store
    ensures var (st', answer) := Dispatched(st, f, CreateOp(ns, CreateRequest(Some(o), [], [])));
      answer.Created? && Key(HostedClusters, ns, o.name) in st'.store
  {
    assert Usable([]) == [] && WriteAll(st.store, ns, o.name, []) == st.store;
    hide Sane, CreateCluster, StampHostedCluster, BuildNamespace;
    CleanRun(st, f, ns, o, []);
  }
}
