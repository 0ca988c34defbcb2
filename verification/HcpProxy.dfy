/** The HCP proxy: what its handlers send to the spoke and answer to the caller. */
module HcpProxy {
  import opened Basics
  import opened ProxyPaths
  import opened SpokeApi

  datatype Bundle = Bundle(
    namespace: Option<Obj>, hostedCluster: Option<Obj>, nodePools: seq<Obj>, warnings: seq<string>)

  /** CreateRequest; a node pool may be missing from its slot. */
  datatype CreateRequest = CreateRequest(hostedCluster: Option<Obj>, nodePools: seq<Option<Obj>>, secrets: seq<Obj>)

  /** What the caller gets: 201 or 200 with a bundle, an error status, or the spoke's own answer. */
  datatype Answer = Created(bundle: Bundle) | Success(bundle: Bundle) | Error(status: nat) | Forwarded(reply: Reply)

  const BAD_REQUEST: nat := 400
  const NOT_FOUND: nat := 404
  const INTERNAL: nat := 500
  const BAD_GATEWAY: nat := 502

  const CREATED_VIA := "hcp.ocm.io/created-via"
  const FROM_HUB := "hcp-from-hub"
  const HOSTED_CLUSTER := "hcp.ocm.io/hostedcluster"
  const GROUP_VERSION := "hypershift.openshift.io/v1beta1"

  /** addProxyLabels */
  function ProxyLabels(labels: map<string, string>, hc: string): map<string, string> {
    labels[CREATED_VIA := FROM_HUB][HOSTED_CLUSTER := hc]
  }

  /** buildNamespace */
  function BuildNamespace(ns: string, hc: string): Obj {
    Obj(ns, "", ProxyLabels(map[], hc), "v1", "Namespace", "", "")
  }

  function StampSecret(o: Obj, ns: string, hc: string): Obj {
    o.(namespace := ns, labels := ProxyLabels(o.labels, hc))
  }

  function StampHostedCluster(o: Obj, ns: string): Obj {
    o.(namespace := ns, apiVersion := GROUP_VERSION, kind := "HostedCluster", labels := ProxyLabels(o.labels, o.name))
  }

  function StampNodePool(o: Obj, ns: string, hc: string): Obj {
    o.(namespace := ns, apiVersion := GROUP_VERSION, kind := "NodePool",
       clusterName := if o.clusterName == "" then hc else o.clusterName, labels := ProxyLabels(o.labels, hc))
  }

  // ---- what the handlers do, as functions of the spoke's state ----

  /** createOnSpoke */
  ghost function PostOn(st: State, f: nat -> Fault, ns: string, resource: Resource, o: Obj): (State, Reply) {
    if resource.Namespaces? then Send(st, f, Post(resource, "", o))
    else if !Sane(ns) then (st, Rejected)
    else Send(st, f, Post(resource, ns, o))
  }

  /** createOrUpdateSecretOnSpoke */
  ghost function CreateOrUpdateSecret(st: State, f: nat -> Fault, ns: string, o: Obj): (State, bool) {
    var (st1, reply) := PostOn(st, f, ns, Secrets, o);
    if reply.Done? then (st1, true)
    else if !reply.Conflict? || !Sane(o.name) then (st1, false)
    else
      var (st2, reply2) := Send(st1, f, Put(Secrets, ns, o.name, o));
      (st2, reply2.Done?)
  }

  /** The secrets in turn, until one fails */
  ghost function CreateSecrets(st: State, f: nat -> Fault, ns: string, hc: string, secrets: seq<Obj>): (State, bool) {
    if secrets == [] then (st, true)
    else
      var (st1, ok) := CreateSecrets(st, f, ns, hc, secrets[..|secrets| - 1]);
      if ok then CreateOrUpdateSecret(st1, f, ns, StampSecret(secrets[|secrets| - 1], ns, hc)) else (st1, false)
  }

  /** The node pools in turn: those created, and the names of those that were not */
  datatype Pools = Pools(st: State, created: seq<Obj>, failed: seq<string>)

  ghost function CreatePool(p: Pools, f: nat -> Fault, ns: string, hc: string, pool: Option<Obj>): Pools {
    if pool.None? then p
    else
      var o := StampNodePool(pool.value, ns, hc);
      var (st, reply) := PostOn(p.st, f, ns, NodePools, o);
      if reply.Done? then Pools(st, p.created + [o], p.failed) else Pools(st, p.created, p.failed + [o.name])
  }

  ghost function CreatePools(st: State, f: nat -> Fault, ns: string, hc: string, pools: seq<Option<Obj>>): Pools {
    if pools == [] then Pools(st, [], [])
    else CreatePool(CreatePools(st, f, ns, hc, pools[..|pools| - 1]), f, ns, hc, pools[|pools| - 1])
  }

  /** handleCreate up to the hosted cluster: whether all of it succeeded */
  ghost function CreateCluster(st: State, f: nat -> Fault, ns: string, hc: Obj, secrets: seq<Obj>): (State, bool) {
    var (st1, reply1) := PostOn(st, f, ns, Namespaces, BuildNamespace(ns, hc.name));
    if !reply1.Done? && !reply1.Conflict? then (st1, false)
    else
      var (st2, ok) := CreateSecrets(st1, f, ns, hc.name, secrets);
      if !ok then (st2, false)
      else
        var (st3, reply3) := PostOn(st2, f, ns, HostedClusters, StampHostedCluster(hc, ns));
        (st3, reply3.Done?)
  }

  /** handleCreate */
  ghost function Create(st: State, f: nat -> Fault, ns: string, req: CreateRequest): (State, Answer) {
    if req.hostedCluster.None? then (st, Error(BAD_REQUEST))
    else
      var hc := req.hostedCluster.value;
      var (st1, ok) := CreateCluster(st, f, ns, hc, req.secrets);
      if !ok then (st1, Error(INTERNAL))
      else
        var p := CreatePools(st1, f, ns, hc.name, req.nodePools);
        var bundle := Bundle(
          Some(BuildNamespace(ns, hc.name)), Some(StampHostedCluster(hc, ns)), p.created, p.failed);
        (p.st, Created(bundle))
  }

  function Matching(objs: seq<Obj>, hc: string): (r: seq<Obj>)
    ensures forall o :: o in r <==> o in objs && o.clusterName == hc
  {
    if objs == [] then []
    else
      var rest, last := Matching(objs[..|objs| - 1], hc), objs[|objs| - 1];
      assert forall o :: o in objs <==> o in objs[..|objs| - 1] || o == last;
      if last.clusterName == hc then rest + [last] else rest
  }

  /** fetchNodePoolsForHC */
  ghost function FetchPools(st: State, f: nat -> Fault, ns: string, hc: string): (State, seq<Obj>) {
    if !Sane(ns) then (st, [])
    else
      var (st1, reply) := Send(st, f, List(NodePools, ns));
      (st1, if reply.Listed? then Matching(reply.objs, hc) else [])
  }

  /** fetchNamespaceBestEffort */
  ghost function FetchNamespace(st: State, f: nat -> Fault, ns: string): (State, Option<Obj>) {
    if !Sane(ns) then (st, None)
    else
      var (st1, reply) := Send(st, f, Get(Namespaces, "", ns));
      (st1, if reply.Found? then Some(reply.obj) else None)
  }

  /** handleGetResources */
  ghost function GetBundle(st: State, f: nat -> Fault, ns: string, name: string): (State, Answer) {
    var (st1, namespace) := FetchNamespace(st, f, ns);
    if !Sane(ns) || !Sane(name) then (st1, Error(BAD_REQUEST))
    else
      var (st2, reply) := Send(st1, f, Get(HostedClusters, ns, name));
      if reply.NotFound? then (st2, Error(NOT_FOUND))
      else if !reply.Found? then (st2, Error(BAD_GATEWAY))
      else
        var (st3, pools) := FetchPools(st2, f, ns, name);
        (st3, Success(Bundle(namespace, Some(reply.obj), pools, [])))
  }

  /** One object put at its path: the error status, if any */
  ghost function PutOn(st: State, f: nat -> Fault, resource: Resource, ns: string, name: string, o: Obj): (State,
      Option<nat>) {
    if !Sane(ns) || !Sane(name) then (st, Some(BAD_REQUEST))
    else
      var (st1, reply) := Send(st, f, Put(resource, ns, name, o.(namespace := ns)));
      (st1, if reply.Done? then None else Some(BAD_GATEWAY))
  }

  /** The node pools of the bundle in turn, until one fails; one without a name is skipped. */
  ghost function PutPools(st: State, f: nat -> Fault, ns: string, pools: seq<Obj>): (State, Option<nat>) {
    if pools == [] then (st, None)
    else
      var (st1, error) := PutPools(st, f, ns, pools[..|pools| - 1]);
      var o := pools[|pools| - 1];
      if error.Some? || o.name == "" then (st1, error) else PutOn(st1, f, NodePools, ns, o.name, o)
  }

  ghost function PutAll(st: State, f: nat -> Fault, ns: string, name: string, b: Bundle): (State, Option<nat>) {
    var (st1, error) :=
      if b.hostedCluster.None? then (st, None) else PutOn(st, f, HostedClusters, ns, name, b.hostedCluster.value);
    if error.Some? then (st1, error) else PutPools(st1, f, ns, b.nodePools)
  }

  /** handlePatchResources */
  ghost function PutBundle(st: State, f: nat -> Fault, ns: string, name: string, b: Bundle): (State, Answer) {
    var (st1, error) := PutAll(st, f, ns, name, b);
    if error.Some? then (st1, Error(error.value)) else GetBundle(st1, f, ns, name)
  }

  /** deleteNodePool for each of the pools */
  ghost function DeletePools(st: State, f: nat -> Fault, ns: string, pools: seq<Obj>): State {
    if pools == [] then st
    else
      var st1, name := DeletePools(st, f, ns, pools[..|pools| - 1]), pools[|pools| - 1].name;
      if Sane(ns) && Sane(name) then Send(st1, f, Delete(NodePools, ns, name)).0 else st1
  }

  /** handleDelete */
  ghost function DeleteCluster(st: State, f: nat -> Fault, ns: string, name: string): (State, Answer) {
    var (st1, pools) := FetchPools(st, f, ns, name);
    var st2 := DeletePools(st1, f, ns, pools);
    if !Sane(ns) || !Sane(name) then (st2, Error(BAD_REQUEST))
    else
      var (st3, reply) := Send(st2, f, Delete(HostedClusters, ns, name));
      (st3, if reply.Unreachable? then Error(BAD_GATEWAY) else Forwarded(reply))
  }

  /** A request of a caller, with the namespace and name as they stand in its path */
  datatype Operation =
    | CreateOp(ns: string, req: CreateRequest)
    | GetOp(ns: string, name: string)
    | PutOp(ns: string, name: string, bundle: Bundle)
    | DeleteOp(ns: string, name: string)

  /** dispatchCollection and dispatchNamed */
  ghost function Dispatched(st: State, f: nat -> Fault, op: Operation): (State, Answer) {
    if !Sane(op.ns) || (!op.CreateOp? && !Sane(op.name)) then (st, Error(BAD_REQUEST))
    else
      match op
      case CreateOp(ns, req) => Create(st, f, ns, req)
      case GetOp(ns, name) => GetBundle(st, f, ns, name)
      case PutOp(ns, name, bundle) => PutBundle(st, f, ns, name, bundle)
      case DeleteOp(ns, name) => DeleteCluster(st, f, ns, name)
  }

  // ---- the handlers ----

  class Proxy {
    const spoke: Spoke

    constructor (spoke: Spoke)
      ensures this.spoke == spoke
    {
      this.spoke := spoke;
    }

    method CreateOnSpoke(ns: string, resource: Resource, o: Obj) returns (reply: Reply)
      modifies spoke
      ensures (spoke.View(), reply) == PostOn(old(spoke.View()), spoke.faults, ns, resource, o)
    {
      var at := if resource.Namespaces? then "" else ns;
      if !resource.Namespaces? && !Sane(ns) {
        return Rejected;
      }
      reply := spoke.Call(Post(resource, at, o));
    }

    method CreateOrUpdateSecretOnSpoke(ns: string, o: Obj) returns (ok: bool)
      modifies spoke
      ensures (spoke.View(), ok) == CreateOrUpdateSecret(old(spoke.View()), spoke.faults, ns, o)
    {
      hide Send;
      var reply := CreateOnSpoke(ns, Secrets, o);
      if reply.Done? {
        return true;
      }
      if !reply.Conflict? || !Sane(o.name) {
        return false;
      }
      reply := spoke.Call(Put(Secrets, ns, o.name, o));
      ok := reply.Done?;
    }

    method HandleCreate(ns: string, req: CreateRequest) returns (answer: Answer)
      modifies spoke
      ensures (spoke.View(), answer) == Create(old(spoke.View()), spoke.faults, ns, req)
    {
      hide PostOn, CreateOrUpdateSecret, Send;
      if req.hostedCluster.None? {
        return Error(BAD_REQUEST);
      }
      var hc := req.hostedCluster.value;
      var hcName := hc.name;
      ghost var st := spoke.View();

      var nsObj := BuildNamespace(ns, hcName);
      var reply := CreateOnSpoke(ns, Namespaces, nsObj);
      if !reply.Done? && !reply.Conflict? {
        return Error(INTERNAL);
      }
      ghost var st1 := spoke.View();

      for i := 0 to |req.secrets|
        invariant CreateSecrets(st1, spoke.faults, ns, hcName, req.secrets[..i]) == (spoke.View(), true)
      {
        assert req.secrets[..i + 1][..i] == req.secrets[..i];
        var secret := StampSecret(req.secrets[i], ns, hcName);
        var ok := CreateOrUpdateSecretOnSpoke(ns, secret);
        if !ok {
          CreateSecretsStops(st1, spoke.faults, ns, hcName, req.secrets, i + 1);
          return Error(INTERNAL);
        }
      }
      assert req.secrets[..|req.secrets|] == req.secrets;

      hc := StampHostedCluster(hc, ns);
      reply := CreateOnSpoke(ns, HostedClusters, hc);
      if !reply.Done? {
        return Error(INTERNAL);
      }
      ghost var st3 := spoke.View();

      var created, warnings := [], [];
      for i := 0 to |req.nodePools|
        invariant CreatePools(st3, spoke.faults, ns, hcName, req.nodePools[..i])
               == Pools(spoke.View(), created, warnings)
      {
        assert req.nodePools[..i + 1][..i] == req.nodePools[..i];
        if req.nodePools[i].Some? {
          var np := StampNodePool(req.nodePools[i].value, ns, hcName);
          reply := CreateOnSpoke(ns, NodePools, np);
          if reply.Done? {
            created := created + [np];
          } else {
            warnings := warnings + [np.name];
          }
        }
      }
      assert req.nodePools[..|req.nodePools|] == req.nodePools;
      answer := Created(Bundle(Some(nsObj), Some(hc), created, warnings));
    }

    method FetchNodePoolsForHC(ns: string, hcName: string) returns (out: seq<Obj>)
      modifies spoke
      ensures (spoke.View(), out) == FetchPools(old(spoke.View()), spoke.faults, ns, hcName)
    {
      hide Send;
      out := [];
      if !Sane(ns) {
        return;
      }
      var reply := spoke.Call(List(NodePools, ns));
      if reply.Listed? {
        var items := reply.objs;
        for i := 0 to |items|
          invariant out == Matching(items[..i], hcName)
        {
          assert items[..i + 1][..i] == items[..i];
          if items[i].clusterName == hcName {
            out := out + [items[i]];
          }
        }
        assert items[..|items|] == items;
      }
    }

    method HandleGetResources(ns: string, name: string) returns (answer: Answer)
      modifies spoke
      ensures (spoke.View(), answer) == GetBundle(old(spoke.View()), spoke.faults, ns, name)
    {
      hide Send, FetchPools;
      var namespace := None;
      if Sane(ns) {
        var nsReply := spoke.Call(Get(Namespaces, "", ns));
        namespace := if nsReply.Found? then Some(nsReply.obj) else None;
      }
      if !Sane(ns) || !Sane(name) {
        return Error(BAD_REQUEST);
      }
      var reply := spoke.Call(Get(HostedClusters, ns, name));
      if reply.NotFound? {
        return Error(NOT_FOUND);
      }
      if !reply.Found? {
        return Error(BAD_GATEWAY);
      }
      var pools := FetchNodePoolsForHC(ns, name);
      answer := Success(Bundle(namespace, Some(reply.obj), pools, []));
    }

    method PutOnSpoke(resource: Resource, ns: string, name: string, o: Obj) returns (error: Option<nat>)
      modifies spoke
      ensures (spoke.View(), error) == PutOn(old(spoke.View()), spoke.faults, resource, ns, name, o)
    {
      hide Send;
      if !Sane(ns) || !Sane(name) {
        return Some(BAD_REQUEST);
      }
      var reply := spoke.Call(Put(resource, ns, name, o.(namespace := ns)));
      error := if reply.Done? then None else Some(BAD_GATEWAY);
    }

    method HandlePatchResources(ns: string, name: string, bundle: Bundle) returns (answer: Answer)
      modifies spoke
      ensures (spoke.View(), answer) == PutBundle(old(spoke.View()), spoke.faults, ns, name, bundle)
    {
      hide Send, PutOn, GetBundle;
      var error := None;
      if bundle.hostedCluster.Some? {
        error := PutOnSpoke(HostedClusters, ns, name, bundle.hostedCluster.value);
        if error.Some? {
          return Error(error.value);
        }
      }
      ghost var st1 := spoke.View();
      for i := 0 to |bundle.nodePools|
        invariant PutPools(st1, spoke.faults, ns, bundle.nodePools[..i]) == (spoke.View(), None)
      {
        assert bundle.nodePools[..i + 1][..i] == bundle.nodePools[..i];
        var np := bundle.nodePools[i];
        if np.name != "" {
          error := PutOnSpoke(NodePools, ns, np.name, np);
          if error.Some? {
            PutPoolsStops(st1, spoke.faults, ns, bundle.nodePools, i + 1);
            return Error(error.value);
          }
        }
      }
      assert bundle.nodePools[..|bundle.nodePools|] == bundle.nodePools;
      answer := HandleGetResources(ns, name);
    }

    method DeleteMatchingNodePools(ns: string, hcName: string)
      modifies spoke
      ensures var (st, pools) := FetchPools(old(spoke.View()), spoke.faults, ns, hcName);
        spoke.View() == DeletePools(st, spoke.faults, ns, pools)
    {
      hide Send, FetchPools;
      var pools := FetchNodePoolsForHC(ns, hcName);
      ghost var st := spoke.View();
      for i := 0 to |pools|
        invariant spoke.View() == DeletePools(st, spoke.faults, ns, pools[..i])
      {
        assert pools[..i + 1][..i] == pools[..i];
        if Sane(ns) && Sane(pools[i].name) {
          var _ := spoke.Call(Delete(NodePools, ns, pools[i].name));
        }
      }
      assert pools[..|pools|] == pools;
    }

    method HandleDelete(ns: string, name: string) returns (answer: Answer)
      modifies spoke
      ensures (spoke.View(), answer) == DeleteCluster(old(spoke.View()), spoke.faults, ns, name)
    {
      hide Send, FetchPools, DeletePools;
      DeleteMatchingNodePools(ns, name);
      if !Sane(ns) || !Sane(name) {
        return Error(BAD_REQUEST);
      }
      var reply := spoke.Call(Delete(HostedClusters, ns, name));
      answer := if reply.Unreachable? then Error(BAD_GATEWAY) else Forwarded(reply);
    }

    method Dispatch(op: Operation) returns (answer: Answer)
      modifies spoke
      ensures (spoke.View(), answer) == Dispatched(old(spoke.View()), spoke.faults, op)
    {
      hide Create, GetBundle, PutBundle, DeleteCluster, Sane;
      if !Sane(op.ns) || (!op.CreateOp? && !Sane(op.name)) {
        return Error(BAD_REQUEST);
      }
      match op {
        case CreateOp(ns, req) => answer := HandleCreate(ns, req);
        case GetOp(ns, name) => answer := HandleGetResources(ns, name);
        case PutOp(ns, name, bundle) => answer := HandlePatchResources(ns, name, bundle);
        case DeleteOp(ns, name) => answer := HandleDelete(ns, name);
      }
    }
  }

  /** Once a secret has failed, the later ones are not tried. */
  lemma {:induction false} CreateSecretsStops(
    st: State, f: nat -> Fault, ns: string, hc: string, secrets: seq<Obj>, i: nat)
    requires i <= |secrets| && !CreateSecrets(st, f, ns, hc, secrets[..i]).1
    ensures CreateSecrets(st, f, ns, hc, secrets) == CreateSecrets(st, f, ns, hc, secrets[..i])
  {
    if i == |secrets| {
      assert secrets[..i] == secrets;
    } else {
      var front := secrets[..|secrets| - 1];
      assert front[..i] == secrets[..i];
      CreateSecretsStops(st, f, ns, hc, front, i);
    }
  }

  lemma {:induction false} PutPoolsStops(st: State, f: nat -> Fault, ns: string, pools: seq<Obj>, i: nat)
    requires i <= |pools| && PutPools(st, f, ns, pools[..i]).1.Some?
    ensures PutPools(st, f, ns, pools) == PutPools(st, f, ns, pools[..i])
  {
    if i == |pools| {
      assert pools[..i] == pools;
    } else {
      var front := pools[..|pools| - 1];
      assert front[..i] == pools[..i];
      PutPoolsStops(st, f, ns, front, i);
    }
  }
}
