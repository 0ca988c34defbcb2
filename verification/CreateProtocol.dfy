/** Creating a hosted cluster through the proxy: the order of the requests, what is answered, and
    what a retry makes of what a failed attempt left behind. */
module CreateProtocol {
  import opened Basics
  import opened ProxyPaths
  import opened SpokeApi
  import opened HcpProxy

  // ---- the order of the requests ----

  /** b is reached from a by requests about one kind of resource. */
  ghost predicate OnlyAbout(a: State, b: State, resource: Resource) {
    a.log <= b.log && forall i | |a.log| <= i < |b.log| :: b.log[i].call.resource == resource
  }

  /** The request that left secret o on the spoke */
  ghost predicate Wrote(r: Request, ns: string, o: Obj) {
    r.reply.Done? && (r.call == Post(Secrets, ns, o) || r.call == Put(Secrets, ns, o.name, o))
  }

  ghost predicate WroteBetween(log: seq<Request>, from: nat, to: nat, ns: string, o: Obj) {
    exists j :: from <= j < to <= |log| && Wrote(log[j], ns, o)
  }

  lemma OneSecretLog(st: State, f: nat -> Fault, ns: string, o: Obj)
    ensures var (st1, ok) := CreateOrUpdateSecret(st, f, ns, o);
      OnlyAbout(st, st1, Secrets) && (ok ==> WroteBetween(st1.log, |st.log|, |st1.log|, ns, o))
  {
    var (st1, ok) := CreateOrUpdateSecret(st, f, ns, o);
    if ok {
      assert Wrote(st1.log[|st1.log| - 1], ns, o);
    }
  }

  lemma {:induction false} SecretsLog(st: State, f: nat -> Fault, ns: string, hc: string, secrets: seq<Obj>)
    ensures var (st1, ok) := CreateSecrets(st, f, ns, hc, secrets);
      && OnlyAbout(st, st1, Secrets)
      && (ok ==> forall s <- secrets :: WroteBetween(st1.log, |st.log|, |st1.log|, ns, StampSecret(s, ns, hc)))
  {
    hide CreateOrUpdateSecret, StampSecret, Wrote;
    if secrets != [] {
      var front, last := secrets[..|secrets| - 1], secrets[|secrets| - 1];
      SecretsLog(st, f, ns, hc, front);
      var (st1, ok1) := CreateSecrets(st, f, ns, hc, front);
      if ok1 {
        OneSecretLog(st1, f, ns, StampSecret(last, ns, hc));
        var (st2, ok2) := CreateSecrets(st, f, ns, hc, secrets);
        if ok2 {
          forall s | s in secrets ensures WroteBetween(st2.log, |st.log|, |st2.log|, ns, StampSecret(s, ns, hc)) {
            if s in front {
              LaterLog(st1.log, st2.log, |st.log|, |st1.log|, |st2.log|, ns, StampSecret(s, ns, hc));
            } else {
              assert s == last;
            }
          }
        }
      }
    }
  }

  lemma LaterLog(log: seq<Request>, log': seq<Request>, from: nat, to: nat, to': nat, ns: string, o: Obj)
    requires log <= log' && WroteBetween(log, from, to, ns, o) && to <= to' <= |log'|
    ensures WroteBetween(log', from, to', ns, o)
  {
    var j :| from <= j < to <= |log| && Wrote(log[j], ns, o);
    assert log'[j] == log[j];
  }

  /** The node pool requests account for every pool created and every warning. */
  lemma {:induction false} PoolsLog(st: State, f: nat -> Fault, ns: string, hc: string, pools: seq<Option<Obj>>)
    requires Sane(ns)
    ensures var p := CreatePools(st, f, ns, hc, pools);
      && OnlyAbout(st, p.st, NodePools)
      && |p.st.log| == |st.log| + |p.created| + |p.failed|
      && |p.created| + |p.failed| == Given(pools)
      && p.created == DonePosts(p.st.log[|st.log|..])
      && p.failed == FailedPosts(p.st.log[|st.log|..])
      && Posts(p.st.log[|st.log|..]) == Stamped(pools, ns, hc)
  {
    hide StampNodePool, Sane, CreatePool, Posts, DonePosts, FailedPosts;
    if pools == [] {
      assert st.log[|st.log|..] == [];
      NothingSent();
    } else {
      var front := pools[..|pools| - 1];
      PoolsLog(st, f, ns, hc, front);
      var p, q, last := CreatePools(st, f, ns, hc, front), CreatePools(st, f, ns, hc, pools), pools[|pools| - 1];
      if last.Some? {
        PoolSent(p, f, ns, hc, last.value);
        var a, r := p.st.log[|st.log|..], q.st.log[|p.st.log|];
        assert q.st.log[|st.log|..] == a + [r];
        OneMoreRequest(a, r);
      } else {
        assert q == p by { NoPool(p, f, ns, hc); }
      }
    }
  }

  lemma NothingSent()
    ensures Posts([]) == DonePosts([]) == [] && FailedPosts([]) == []
  {
  }

  lemma NoPool(p: Pools, f: nat -> Fault, ns: string, hc: string)
    ensures CreatePool(p, f, ns, hc, None) == p
  {
  }

  lemma PoolSent(p: Pools, f: nat -> Fault, ns: string, hc: string, pool: Obj)
    requires Sane(ns)
    ensures var q, o := CreatePool(p, f, ns, hc, Some(pool)), StampNodePool(pool, ns, hc);
      && |q.st.log| == |p.st.log| + 1
      && var r := q.st.log[|p.st.log|];
      && q.st.log == p.st.log + [r] && r.call == Post(NodePools, ns, o)
      && q.created == (if r.reply.Done? then p.created + [o] else p.created)
      && q.failed == (if r.reply.Done? then p.failed else p.failed + [o.name])
  {
    hide StampNodePool, Sane, ReplyTo, Effect;
  }

  lemma OneMoreRequest(log: seq<Request>, r: Request)
    requires r.call.Post?
    ensures Posts(log + [r]) == Posts(log) + [r.call.obj]
    ensures DonePosts(log + [r]) == DonePosts(log) + (if r.reply.Done? then [r.call.obj] else [])
    ensures FailedPosts(log + [r]) == FailedPosts(log) + (if r.reply.Done? then [] else [r.call.obj.name])
  {
    assert (log + [r])[..|log|] == log;
  }

  function Given(pools: seq<Option<Obj>>): nat {
    if pools == [] then 0
    else Given(pools[..|pools| - 1]) + (if pools[|pools| - 1].Some? then 1 else 0)
  }

  /** The node pools asked for, as they are sent */
  function Stamped(pools: seq<Option<Obj>>, ns: string, hc: string): seq<Obj> {
    if pools == [] then []
    else
      var last := pools[|pools| - 1];
      Stamped(pools[..|pools| - 1], ns, hc) + (if last.Some? then [StampNodePool(last.value, ns, hc)] else [])
  }

  function Posts(log: seq<Request>): seq<Obj> {
    if log == [] then []
    else
      var r := log[|log| - 1];
      Posts(log[..|log| - 1]) + (if r.call.Post? then [r.call.obj] else [])
  }

  /** The names of the objects of the POST requests that were not answered with success */
  function FailedPosts(log: seq<Request>): seq<string> {
    if log == [] then []
    else
      var r := log[|log| - 1];
      FailedPosts(log[..|log| - 1]) + (if r.call.Post? && !r.reply.Done? then [r.call.obj.name] else [])
  }

  /** The objects of the POST requests that were answered with success */
  function DonePosts(log: seq<Request>): seq<Obj> {
    if log == [] then []
    else
      var r := log[|log| - 1];
      DonePosts(log[..|log| - 1]) + (if r.call.Post? && r.reply.Done? then [r.call.obj] else [])
  }

  ghost predicate NamespaceEnsured(r: Request, ns: string, hc: string) {
    r.call == Post(Namespaces, "", BuildNamespace(ns, hc)) && (r.reply.Done? || r.reply.Conflict?)
  }

  ghost predicate HostedClusterCreated(r: Request, ns: string, hc: Obj) {
    r == Request(Post(HostedClusters, ns, StampHostedCluster(hc, ns)), Done)
  }

  /** Up to the hosted cluster: the request that creates it is the last, if it is sent at all, and it
      is sent only when the namespace and every secret are in place. */
  lemma ClusterLog(st: State, f: nat -> Fault, ns: string, hc: Obj, secrets: seq<Obj>)
    requires Sane(ns)
    ensures var (st', ok) := CreateCluster(st, f, ns, hc, secrets); var n := |st.log|;
      && n < |st'.log| && st.log <= st'.log
      && (forall i | n <= i < |st'.log| :: !st'.log[i].call.resource.NodePools?)
      && (forall i | n <= i < |st'.log| && st'.log[i].call.resource.HostedClusters? ::
            && i == |st'.log| - 1 && NamespaceEnsured(st'.log[n], ns, hc.name)
            && forall s <- secrets :: WroteBetween(st'.log, n + 1, i, ns, StampSecret(s, ns, hc.name)))
      && (ok <==> HostedClusterCreated(st'.log[|st'.log| - 1], ns, hc))
  {
    hide WroteBetween, StampSecret, StampHostedCluster, ReplyTo, Effect;
    var (st1, reply1) := PostOn(st, f, ns, Namespaces, BuildNamespace(ns, hc.name));
    if reply1.Done? || reply1.Conflict? {
      SecretsLog(st1, f, ns, hc.name, secrets);
      var (st2, ok) := CreateSecrets(st1, f, ns, hc.name, secrets);
      if ok {
        var (st3, _) := PostOn(st2, f, ns, HostedClusters, StampHostedCluster(hc, ns));
        forall s | s in secrets ensures WroteBetween(st3.log, |st1.log|, |st2.log|, ns, StampSecret(s, ns, hc.name)) {
          LaterLog(st2.log, st3.log, |st1.log|, |st2.log|, |st2.log|, ns, StampSecret(s, ns, hc.name));
        }
      }
    }
  }

  /** The order of a creation: the hosted cluster is sent only after the namespace is ensured and every
      secret is written; a node pool only after the hosted cluster was created; and the answer is 201
      exactly when it was. */
  lemma CreateOrder(st: State, f: nat -> Fault, ns: string, req: CreateRequest)
    requires Sane(ns) && req.hostedCluster.Some?
    ensures var (st', answer) := Create(st, f, ns, req); var n, hc := |st.log|, req.hostedCluster.value;
      && n < |st'.log| && st.log <= st'.log
      && (forall i | n <= i < |st'.log| && st'.log[i].call.resource.HostedClusters? ::
            && NamespaceEnsured(st'.log[n], ns, hc.name)
            && forall s <- req.secrets :: WroteBetween(st'.log, n + 1, i, ns, StampSecret(s, ns, hc.name)))
      && (forall i | n <= i < |st'.log| && st'.log[i].call.resource.NodePools? ::
            answer.Created? && exists j | n <= j < i :: HostedClusterCreated(st'.log[j], ns, hc))
      && (answer.Created? <==> exists j | n <= j < |st'.log| :: HostedClusterCreated(st'.log[j], ns, hc))
  {
    hide WroteBetween, StampSecret, StampHostedCluster, ReplyTo, Effect, CreateCluster;
    var hc := req.hostedCluster.value;
    var (st1, ok) := CreateCluster(st, f, ns, hc, req.secrets);
    ClusterLog(st, f, ns, hc, req.secrets);
    if ok {
      PoolsLog(st1, f, ns, hc.name, req.nodePools);
      var st' := Create(st, f, ns, req).0;
      assert HostedClusterCreated(st'.log[|st1.log| - 1], ns, hc);
      forall s, i | s in req.secrets && |st.log| <= i < |st1.log| && st1.log[i].call.resource.HostedClusters?
        ensures WroteBetween(st'.log, |st.log| + 1, i, ns, StampSecret(s, ns, hc.name))
      {
        LaterLog(st1.log, st'.log, |st.log| + 1, i, i, ns, StampSecret(s, ns, hc.name));
      }
    }
  }

  /** An answer of 201 accounts for every node pool asked for: each was sent once, in order; the bundle
      holds those the spoke confirmed, and a warning for each of the others. */
  lemma CreateAccounts(st: State, f: nat -> Fault, ns: string, req: CreateRequest)
    requires Sane(ns) && Create(st, f, ns, req).1.Created?
    ensures var (st', answer) := Create(st, f, ns, req); var b := answer.bundle; var n := |b.nodePools| + |b.warnings|;
      && n == Given(req.nodePools) && n < |st'.log|
      && Posts(st'.log[|st'.log| - n..]) == Stamped(req.nodePools, ns, req.hostedCluster.value.name)
      && b.nodePools == DonePosts(st'.log[|st'.log| - n..]) && b.warnings == FailedPosts(st'.log[|st'.log| - n..])
      && (forall i | |st'.log| - n <= i < |st'.log| :: st'.log[i].call.resource.NodePools?)
  {
    hide ReplyTo, Effect, CreateCluster;
    var hc := req.hostedCluster.value;
    ClusterLog(st, f, ns, hc, req.secrets);
    PoolsLog(CreateCluster(st, f, ns, hc, req.secrets).0, f, ns, hc.name, req.nodePools);
  }
}
