/** What a creation may change on the spoke, and why a retry is safe. */
module CreateRetries {
  import opened Basics
  import opened ProxyPaths
  import opened SpokeApi
  import opened HcpProxy
  import opened CreateProtocol

  function HostedClusterKey(ns: string, hc: Obj): Key {
    Key(HostedClusters, ns, hc.name)
  }

  // ---- what a creation may change ----

  /** Object o at k is one the request asks for. */
  ghost predicate Requested(ns: string, req: CreateRequest, k: Key, o: Obj)
    requires req.hostedCluster.Some?
  {
    var hc := req.hostedCluster.value;
    match k.resource
    case Namespaces => k == NamespaceKey(ns) && o == BuildNamespace(ns, hc.name)
    case Secrets => exists s <- req.secrets :: k == Key(Secrets, ns, s.name) && o == StampSecret(s, ns, hc.name)
    case HostedClusters => k == HostedClusterKey(ns, hc) && o == StampHostedCluster(hc, ns)
    case NodePools => exists p <- req.nodePools ::
      p.Some? && k == Key(NodePools, ns, p.value.name) && o == StampNodePool(p.value, ns, hc.name)
  }

  /** Nothing is removed, only secrets are overwritten, and what is new or changed was asked for. */
  ghost predicate OnlyRequested(s: Store, s': Store, ns: string, req: CreateRequest)
    requires req.hostedCluster.Some?
  {
    && (forall k <- s :: k in s' && (!k.resource.Secrets? ==> s'[k] == s[k]))
    && (forall k <- s' :: (k in s && s'[k] == s[k]) || Requested(ns, req, k, s'[k]))
  }

  lemma OneRequested(st: State, f: nat -> Fault, ns: string, req: CreateRequest, resource: Resource, o: Obj)
    requires req.hostedCluster.Some?
    requires Requested(ns, req, Key(resource, if resource.Namespaces? then "" else ns, o.name), o)
    ensures OnlyRequested(st.store, PostOn(st, f, ns, resource, o).0.store, ns, req)
  {
    hide Requested, Listing, ValidName, Sane;
  }

  /** What one secret may change. */
  lemma OneSecret(st: State, f: nat -> Fault, ns: string, o: Obj)
    requires Sane(ns) && o.namespace == ns
    ensures var (st1, ok) := CreateOrUpdateSecret(st, f, ns, o); var written := st.store[Key(Secrets, ns, o.name) := o];
      && (st1.store == st.store || st1.store == written)
      && (st1.store != st.store || ok ==> NamespaceKey(ns) in st.store && Sane(o.name))
      && (NamespaceKey(ns) in st.store && Sane(o.name) && Faultless(f, |st.log|) ==> ok && st1.store == written)
  {
    hide Listing, IsLabel, IsSubdomain, SanitizeProxyName;
  }

  /** No request from the n-th on goes wrong. */
  ghost predicate Faultless(f: nat -> Fault, n: nat) {
    forall i: nat :: n <= i ==> f(i).Ok?
  }

  lemma Requests(st: State, f: nat -> Fault, ns: string, req: CreateRequest, s: Store, s': Store)
    requires req.hostedCluster.Some?
    requires OnlyRequested(st.store, s, ns, req) && OnlyRequested(s, s', ns, req)
    ensures OnlyRequested(st.store, s', ns, req)
  {
    hide Requested;
  }

  lemma Nothing(s: Store, ns: string, req: CreateRequest)
    requires req.hostedCluster.Some?
    ensures OnlyRequested(s, s, ns, req)
  {
  }

  lemma SecretRequested(st: State, f: nat -> Fault, ns: string, req: CreateRequest, s: Obj)
    requires Sane(ns) && req.hostedCluster.Some? && s in req.secrets
    ensures var o := StampSecret(s, ns, req.hostedCluster.value.name);
      OnlyRequested(st.store, CreateOrUpdateSecret(st, f, ns, o).0.store, ns, req)
  {
    hide CreateOrUpdateSecret, Sane;
    var o := StampSecret(s, ns, req.hostedCluster.value.name);
    OneSecret(st, f, ns, o);
    assert Requested(ns, req, Key(Secrets, ns, o.name), o);
    hide Requested;
  }

  lemma {:induction false} SecretsRequested(st: State, f: nat -> Fault, ns: string, req: CreateRequest, n: nat)
    requires Sane(ns) && req.hostedCluster.Some? && n <= |req.secrets|
    ensures OnlyRequested(st.store, CreateSecrets(st, f, ns, req.hostedCluster.value.name,
        req.secrets[..n]).0.store, ns, req)
  {
    var hc := req.hostedCluster.value.name;
    hide CreateOrUpdateSecret, Sane, StampSecret, OnlyRequested;
    assert n == 0 ==> OnlyRequested(st.store, st.store, ns, req) by {
      Nothing(st.store, ns, req);
    }
    if n > 0 {
      assert req.secrets[..n][..n - 1] == req.secrets[..n - 1];
      SecretsRequested(st, f, ns, req, n - 1);
      var (st1, ok) := CreateSecrets(st, f, ns, hc, req.secrets[..n - 1]);
      if ok {
        SecretRequested(st1, f, ns, req, req.secrets[n - 1]);
        Requests(st, f, ns, req, st1.store, CreateOrUpdateSecret(st1, f, ns, StampSecret(req.secrets[n - 1], ns,
            hc)).0.store);
      }
    }
  }

  lemma {:induction false} PoolsRequested(st: State, f: nat -> Fault, ns: string, req: CreateRequest, n: nat)
    requires Sane(ns) && req.hostedCluster.Some? && n <= |req.nodePools|
    ensures OnlyRequested(st.store, CreatePools(st, f, ns, req.hostedCluster.value.name,
        req.nodePools[..n]).st.store, ns, req)
  {
    var hc := req.hostedCluster.value.name;
    hide PostOn, Sane;
    if n > 0 {
      assert req.nodePools[..n][..n - 1] == req.nodePools[..n - 1];
      PoolsRequested(st, f, ns, req, n - 1);
      var p := CreatePools(st, f, ns, hc, req.nodePools[..n - 1]);
      if req.nodePools[n - 1].Some? {
        var o := StampNodePool(req.nodePools[n - 1].value, ns, hc);
        assert Requested(ns, req, Key(NodePools, ns, o.name), o);
        OneRequested(p.st, f, ns, req, NodePools, o);
        Requests(st, f, ns, req, p.st.store, PostOn(p.st, f, ns, NodePools, o).0.store);
      }
    }
  }

  lemma ClusterRequested(st: State, f: nat -> Fault, ns: string, req: CreateRequest)
    requires Sane(ns) && req.hostedCluster.Some?
    ensures OnlyRequested(st.store, CreateCluster(st, f, ns, req.hostedCluster.value, req.secrets).0.store, ns, req)
  {
    var hc := req.hostedCluster.value;
    assert req.secrets[..|req.secrets|] == req.secrets;
    assert Requested(ns, req, NamespaceKey(ns), BuildNamespace(ns, hc.name));
    assert Requested(ns, req, HostedClusterKey(ns, hc), StampHostedCluster(hc, ns));
    hide PostOn, Sane, CreateSecrets, Requested, OnlyRequested;
    OneRequested(st, f, ns, req, Namespaces, BuildNamespace(ns, hc.name));
    var (st1, _) := PostOn(st, f, ns, Namespaces, BuildNamespace(ns, hc.name));
    SecretsRequested(st1, f, ns, req, |req.secrets|);
    var (st2, _) := CreateSecrets(st1, f, ns, hc.name, req.secrets);
    Requests(st, f, ns, req, st1.store, st2.store);
    OneRequested(st2, f, ns, req, HostedClusters, StampHostedCluster(hc, ns));
    Requests(st, f, ns, req, st2.store, PostOn(st2, f, ns, HostedClusters, StampHostedCluster(hc, ns)).0.store);
  }

  /** Whatever goes wrong, a creation removes nothing, overwrites nothing but the secrets it was given,
      and leaves nothing new that was not asked for. */
  lemma CreateChangesOnlyRequested(st: State, f: nat -> Fault, ns: string, req: CreateRequest)
    requires Sane(ns) && req.hostedCluster.Some?
    ensures OnlyRequested(st.store, Create(st, f, ns, req).0.store, ns, req)
  {
    var hc := req.hostedCluster.value;
    assert req.nodePools[..|req.nodePools|] == req.nodePools;
    hide CreateCluster, CreatePools, Sane, Requested, OnlyRequested;
    ClusterRequested(st, f, ns, req);
    var (st1, _) := CreateCluster(st, f, ns, hc, req.secrets);
    PoolsRequested(st1, f, ns, req, |req.nodePools|);
    Requests(st, f, ns, req, st1.store, CreatePools(st1, f, ns, hc.name, req.nodePools).st.store);
  }

  // ---- runs in which nothing goes wrong ----

  /** The secrets up to the first whose name the server refuses */
  function Usable(secrets: seq<Obj>): (u: seq<Obj>)
    ensures u <= secrets
  {
    if secrets == [] then []
    else
      var front, last := secrets[..|secrets| - 1], secrets[|secrets| - 1];
      if Usable(front) == front && Sane(last.name) then secrets else Usable(front)
  }

  function WriteAll(s: Store, ns: string, hc: string, secrets: seq<Obj>): Store {
    if secrets == [] then s
    else
      var last := secrets[|secrets| - 1];
      WriteAll(s, ns, hc, secrets[..|secrets| - 1])[Key(Secrets, ns, last.name) := StampSecret(last, ns, hc)]
  }

  /** What remains to be done when nothing goes wrong: the store, and whether the hosted cluster was created. */
  function CleanCluster(s: Store, ns: string, hc: Obj, secrets: seq<Obj>): (Store, bool) {
    if NamespaceKey(ns) !in s && !ValidName(Namespaces, ns) then (s, false)
    else
      var s1 := if NamespaceKey(ns) in s then s else s[NamespaceKey(ns) := BuildNamespace(ns, hc.name)];
      var s2 := WriteAll(s1, ns, hc.name, Usable(secrets));
      if Usable(secrets) != secrets || !Sane(hc.name) || HostedClusterKey(ns, hc) in s2 then (s2, false)
      else (s2[HostedClusterKey(ns, hc) := StampHostedCluster(hc, ns)], true)
  }

  lemma {:induction false} CleanSecrets(st: State, f: nat -> Fault, ns: string, hc: string, secrets: seq<Obj>)
    requires Sane(ns) && NamespaceKey(ns) in st.store && Faultless(f, |st.log|)
    ensures var (st', ok) := CreateSecrets(st, f, ns, hc, secrets);
      && st'.store == WriteAll(st.store, ns, hc, Usable(secrets)) && (ok <==> Usable(secrets) == secrets)
      && NamespaceKey(ns) in st'.store && |st.log| <= |st'.log|
  {
    hide Sane, CreateOrUpdateSecret;
    if secrets != [] {
      var front, last := secrets[..|secrets| - 1], secrets[|secrets| - 1];
      CleanSecrets(st, f, ns, hc, front);
      var (st1, ok) := CreateSecrets(st, f, ns, hc, front);
      if ok {
        OneSecret(st1, f, ns, StampSecret(last, ns, hc));
        OneSecretLog(st1, f, ns, StampSecret(last, ns, hc));
      }
    }
  }

  lemma CleanRun(st: State, f: nat -> Fault, ns: string, hc: Obj, secrets: seq<Obj>)
    requires Sane(ns) && Faultless(f, |st.log|)
    ensures var (st', ok) := CreateCluster(st, f, ns, hc, secrets);
      (st'.store, ok) == CleanCluster(st.store, ns, hc, secrets)
  {
    hide Sane, CreateSecrets, WriteAll, Usable, Listing, IsLabel, StampHostedCluster;
    NamespaceFirst(st, f, ns, BuildNamespace(ns, hc.name));
    var (st1, reply1) := PostOn(st, f, ns, Namespaces, BuildNamespace(ns, hc.name));
    if NamespaceKey(ns) in st1.store {
      CleanSecrets(st1, f, ns, hc.name, secrets);
      var (st2, ok) := CreateSecrets(st1, f, ns, hc.name, secrets);
      if ok {
        HostedClusterLast(st2, f, ns, hc);
      }
    }
  }

  lemma NamespaceFirst(st: State, f: nat -> Fault, ns: string, o: Obj)
    requires Faultless(f, |st.log|) && o.name == ns && o.namespace == ""
    ensures var (st1, reply) := PostOn(st, f, ns, Namespaces, o);
      && |st.log| <= |st1.log|
      && (reply.Done? || reply.Conflict? <==> NamespaceKey(ns) in st1.store)
      && (NamespaceKey(ns) in st1.store <==> NamespaceKey(ns) in st.store || ValidName(Namespaces, ns))
      && st1.store == if NamespaceKey(ns) in st1.store
          && NamespaceKey(ns) !in st.store then st.store[NamespaceKey(ns) := o] else st.store
  {
    hide Listing, IsLabel;
  }

  lemma HostedClusterLast(st: State, f: nat -> Fault, ns: string, hc: Obj)
    requires Sane(ns) && NamespaceKey(ns) in st.store && Faultless(f, |st.log|)
    ensures var k := HostedClusterKey(ns, hc); var o := StampHostedCluster(hc, ns);
      var (st1, reply) := PostOn(st, f, ns, HostedClusters, o);
      && (reply.Done? <==> Sane(hc.name) && k !in st.store)
      && st1.store == if reply.Done? then st.store[k := o] else st.store
  {
    hide Listing, Sane;
  }

  /** Without faults the node pools depend on the store alone, not on what was sent before. */
  lemma {:induction false} CleanPools(st: State, f: nat -> Fault, st': State, f': nat -> Fault, ns: string,
      hc: string, pools: seq<Option<Obj>>)
    requires Sane(ns) && Faultless(f, |st.log|) && Faultless(f', |st'.log|) && st.store == st'.store
    ensures var p, q := CreatePools(st, f, ns, hc, pools), CreatePools(st', f', ns, hc, pools);
      && (p.st.store, p.created, p.failed) == (q.st.store, q.created, q.failed)
      && |st.log| <= |p.st.log| && |st'.log| <= |q.st.log|
  {
    hide StampNodePool, Sane, Listing;
    if pools != [] {
      CleanPools(st, f, st', f', ns, hc, pools[..|pools| - 1]);
      var p, q := CreatePools(st, f, ns, hc, pools[..|pools| - 1]), CreatePools(st', f', ns, hc, pools[..|pools| - 1]);
      assert f(|p.st.log|).Ok? && f'(|q.st.log|).Ok?;
    }
  }

  /** Without faults a creation depends on the store alone. */
  lemma CleanCreate(st: State, f: nat -> Fault, st': State, f': nat -> Fault, ns: string, req: CreateRequest)
    requires Sane(ns) && req.hostedCluster.Some? && Faultless(f, |st.log|) && Faultless(f', |st'.log|)
    requires CleanCluster(st.store, ns, req.hostedCluster.value, req.secrets) == CleanCluster(st'.store, ns,
        req.hostedCluster.value, req.secrets)
    ensures Create(st, f, ns, req).0.store == Create(st', f', ns, req).0.store
    ensures Create(st, f, ns, req).1 == Create(st', f', ns, req).1
  {
    hide CleanCluster, CreateCluster, CreatePools, Sane;
    var hc := req.hostedCluster.value;
    CleanRun(st, f, ns, hc, req.secrets);
    CleanRun(st', f', ns, hc, req.secrets);
    var (st1, ok) := CreateCluster(st, f, ns, hc, req.secrets);
    var (st2, _) := CreateCluster(st', f', ns, hc, req.secrets);
    ClusterLog(st, f, ns, hc, req.secrets);
    ClusterLog(st', f', ns, hc, req.secrets);
    if ok {
      CleanPools(st1, f, st2, f', ns, hc.name, req.nodePools);
    }
  }

  // ---- retries ----

  function SecretKeys(ns: string, secrets: seq<Obj>): set<Key> {
    set o <- secrets :: Key(Secrets, ns, o.name)
  }

  function UsableKeys(ns: string, secrets: seq<Obj>): set<Key> {
    SecretKeys(ns, Usable(secrets))
  }

  ghost predicate SameAt(s: Store, s': Store, k: Key) {
    (k in s <==> k in s') && (k in s ==> s'[k] == s[k])
  }

  /** s' is what failed attempts may make of s: the namespace may have been added, and secrets that the
      request can write may have been written. */
  ghost predicate Prepared(s: Store, s': Store, ns: string, hc: Obj, secrets: seq<Obj>) {
    && (forall k | k !in UsableKeys(ns, secrets) && k != NamespaceKey(ns) :: SameAt(s, s', k))
    && (NamespaceKey(ns) in s ==> SameAt(s, s', NamespaceKey(ns)))
    && (NamespaceKey(ns) in s' && NamespaceKey(ns) !in s ==>
          ValidName(Namespaces, ns) && s'[NamespaceKey(ns)] == BuildNamespace(ns, hc.name))
    && (NamespaceKey(ns) !in s' ==> s' == s)
  }

  lemma {:induction false} SecretsPrepare(st: State, f: nat -> Fault, ns: string, hc: string, secrets: seq<Obj>)
    requires Sane(ns)
    ensures var (st', ok) := CreateSecrets(st, f, ns, hc, secrets);
      && (forall k | k !in UsableKeys(ns, secrets) :: SameAt(st.store, st'.store, k))
      && (NamespaceKey(ns) !in st.store ==> st'.store == st.store)
      && (ok ==> Usable(secrets) == secrets)
  {
    hide Sane, CreateOrUpdateSecret;
    if secrets != [] {
      var front, last := secrets[..|secrets| - 1], secrets[|secrets| - 1];
      SecretsPrepare(st, f, ns, hc, front);
      var (st1, ok) := CreateSecrets(st, f, ns, hc, front);
      assert UsableKeys(ns, front) <= UsableKeys(ns, secrets);
      if ok {
        OneSecret(st1, f, ns, StampSecret(last, ns, hc));
        assert Sane(last.name) ==> last in Usable(secrets);
      }
    }
  }

  lemma NamespacePrepares(st: State, f: nat -> Fault, ns: string, o: Obj)
    requires o.name == ns
    ensures var s, s' := st.store, PostOn(st, f, ns, Namespaces, o).0.store;
      s' == s || (NamespaceKey(ns) !in s && ValidName(Namespaces, ns) && s' == s[NamespaceKey(ns) := o])
  {
    hide Listing, IsLabel;
  }

  lemma HostedClusterNotCreated(st: State, f: nat -> Fault, ns: string, o: Obj)
    ensures var s, s' := st.store, PostOn(st, f, ns, HostedClusters, o).0.store;
      var k := Key(HostedClusters, ns, o.name);
      SameAt(s, s', k) ==> s' == s
  {
    hide Listing, Sane;
  }

  lemma StepsPrepare(s: Store, s1: Store, s2: Store, ns: string, hc: Obj, secrets: seq<Obj>)
    requires s1 == s || (NamespaceKey(ns) !in s && ValidName(Namespaces, ns)
        && s1 == s[NamespaceKey(ns) := BuildNamespace(ns, hc.name)])
    requires forall k | k !in UsableKeys(ns, secrets) :: SameAt(s1, s2, k)
    requires NamespaceKey(ns) !in s1 ==> s2 == s1
    ensures Prepared(s, s2, ns, hc, secrets)
  {
    hide Usable, IsLabel;
    assert NamespaceKey(ns) !in UsableKeys(ns, secrets);
    assert SameAt(s1, s2, NamespaceKey(ns));
    forall k | k !in UsableKeys(ns, secrets) && k != NamespaceKey(ns) ensures SameAt(s, s2, k) {
      assert SameAt(s1, s2, k);
    }
  }

  /** An attempt that did not create the hosted cluster only prepares. */
  lemma AttemptPrepares(st: State, f: nat -> Fault, ns: string, hc: Obj, secrets: seq<Obj>)
    requires Sane(ns)
    requires SameAt(st.store, CreateCluster(st, f, ns, hc, secrets).0.store, HostedClusterKey(ns, hc))
    ensures Prepared(st.store, CreateCluster(st, f, ns, hc, secrets).0.store, ns, hc, secrets)
  {
    assert StampHostedCluster(hc, ns).name == hc.name;
    hide Sane, CreateSecrets, Usable, PostOn, StampHostedCluster, IsLabel, Prepared;
    var (st1, reply) := PostOn(st, f, ns, Namespaces, BuildNamespace(ns, hc.name));
    NamespacePrepares(st, f, ns, BuildNamespace(ns, hc.name));
    StepsPrepare(st.store, st1.store, st1.store, ns, hc, secrets);
    if reply.Done? || reply.Conflict? {
      SecretsPrepare(st1, f, ns, hc.name, secrets);
      var (st2, ok) := CreateSecrets(st1, f, ns, hc.name, secrets);
      StepsPrepare(st.store, st1.store, st2.store, ns, hc, secrets);
      if ok {
        SecretsOnly(st1, f, ns, hc.name, secrets, HostedClusterKey(ns, hc));
        assert SameAt(st2.store, CreateCluster(st, f, ns, hc, secrets).0.store, HostedClusterKey(ns, hc));
        HostedClusterNotCreated(st2, f, ns, StampHostedCluster(hc, ns));
      }
    }
  }

  lemma PreparedTransitive(s: Store, s': Store, s'': Store, ns: string, hc: Obj, secrets: seq<Obj>)
    requires Prepared(s, s', ns, hc, secrets) && Prepared(s', s'', ns, hc, secrets)
    ensures Prepared(s, s'', ns, hc, secrets)
  {
    hide UsableKeys;
  }

  lemma {:induction false} WriteAllForgets(s: Store, s': Store, ns: string, hc: string, secrets: seq<Obj>, k: Key)
    requires k !in SecretKeys(ns, secrets) ==> SameAt(s, s', k)
    ensures SameAt(WriteAll(s, ns, hc, secrets), WriteAll(s', ns, hc, secrets), k)
  {
    hide StampSecret;
    if secrets != [] {
      var front, last := secrets[..|secrets| - 1], secrets[|secrets| - 1];
      if k != Key(Secrets, ns, last.name) {
        assert secrets == front + [last];
        WriteAllForgets(s, s', ns, hc, front, k);
      }
    }
  }

  lemma SameEverywhere(s: Store, s': Store)
    requires forall k :: SameAt(s, s', k)
    ensures s == s'
  {
    forall k ensures (k in s <==> k in s') && (k in s ==> s[k] == s'[k]) {
      assert SameAt(s, s', k);
    }
  }

  /** What remains to be done comes out the same after failed attempts. */
  lemma PreparedEndsTheSame(s: Store, s': Store, ns: string, hc: Obj, secrets: seq<Obj>)
    requires Prepared(s, s', ns, hc, secrets)
    ensures CleanCluster(s', ns, hc, secrets) == CleanCluster(s, ns, hc, secrets)
  {
    hide Sane, IsLabel, Usable, StampHostedCluster, WriteAll;
    if NamespaceKey(ns) in s' {
      var added := BuildNamespace(ns, hc.name);
      var s1 := if NamespaceKey(ns) in s then s else s[NamespaceKey(ns) := added];
      var w, w' := WriteAll(s1, ns, hc.name, Usable(secrets)), WriteAll(s', ns, hc.name, Usable(secrets));
      assert SameAt(s1, s', NamespaceKey(ns));
      forall k ensures SameAt(w, w', k) {
        assert k !in UsableKeys(ns, secrets) && k != NamespaceKey(ns) ==> SameAt(s, s', k);
        WriteAllForgets(s1, s', ns, hc.name, Usable(secrets), k);
      }
      SameEverywhere(w, w');
    }
  }

  /** The secrets phase touches only secrets. */
  lemma SecretsOnly(st: State, f: nat -> Fault, ns: string, hc: string, secrets: seq<Obj>, k: Key)
    requires Sane(ns) && !k.resource.Secrets?
    ensures SameAt(st.store, CreateSecrets(st, f, ns, hc, secrets).0.store, k)
  {
    SecretsPrepare(st, f, ns, hc, secrets);
    assert k !in UsableKeys(ns, secrets);
  }

  /** Up to the hosted cluster no node pool is touched; the hosted cluster is created only if it was not
      there, and then it is there. */
  lemma ClusterOnce(st: State, f: nat -> Fault, ns: string, hc: Obj, secrets: seq<Obj>)
    requires Sane(ns)
    ensures var (st', ok) := CreateCluster(st, f, ns, hc, secrets);
      && (forall k: Key | k.resource.NodePools? :: SameAt(st.store, st'.store, k))
      && (ok ==> HostedClusterKey(ns, hc) !in st.store && HostedClusterKey(ns, hc) in st'.store)
      && (HostedClusterKey(ns, hc) in st.store ==> SameAt(st.store, st'.store, HostedClusterKey(ns, hc)))
  {
    assert StampHostedCluster(hc, ns).name == hc.name;
    hide Sane, CreateSecrets, Usable, PostOn, StampHostedCluster;
    var (st1, reply) := PostOn(st, f, ns, Namespaces, BuildNamespace(ns, hc.name));
    NamespacePrepares(st, f, ns, BuildNamespace(ns, hc.name));
    if reply.Done? || reply.Conflict? {
      SecretsPrepare(st1, f, ns, hc.name, secrets);
      var (st2, ok) := CreateSecrets(st1, f, ns, hc.name, secrets);
      forall k: Key | !k.resource.Secrets? ensures SameAt(st1.store, st2.store, k) {
        SecretsOnly(st1, f, ns, hc.name, secrets, k);
      }
      assert SameAt(st1.store, st2.store, HostedClusterKey(ns, hc));
      if ok {
        HostedClusterPost(st2, f, ns, StampHostedCluster(hc, ns));
        var (st3, _) := PostOn(st2, f, ns, HostedClusters, StampHostedCluster(hc, ns));
        assert forall k: Key | k.resource.NodePools? :: SameAt(st2.store, st3.store, k);
      }
    }
  }

  lemma HostedClusterPost(st: State, f: nat -> Fault, ns: string, o: Obj)
    ensures var (st', reply) := PostOn(st, f, ns, HostedClusters, o); var k := Key(HostedClusters, ns, o.name);
      && (reply.Done? ==> k !in st.store && k in st'.store)
      && (k in st.store ==> st'.store == st.store)
      && (forall k' | k' != k :: SameAt(st.store, st'.store, k'))
  {
    hide Listing, Sane;
  }

  /** Once the hosted cluster is there, no attempt is answered with 201 and none touches a node pool. So
      a creation whose hosted cluster was created but not confirmed is never completed. */
  lemma NoSecondCreation(st: State, f: nat -> Fault, ns: string, req: CreateRequest)
    requires Sane(ns) && req.hostedCluster.Some? && HostedClusterKey(ns, req.hostedCluster.value) in st.store
    ensures var (st', answer) := Create(st, f, ns, req);
      && answer == Error(INTERNAL)
      && (forall k: Key | k.resource.NodePools? :: SameAt(st.store, st'.store, k))
      && SameAt(st.store, st'.store, HostedClusterKey(ns, req.hostedCluster.value))
  {
    hide CreateCluster;
    ClusterOnce(st, f, ns, req.hostedCluster.value, req.secrets);
  }

  lemma KeysStay(st: State, f: nat -> Fault, ns: string, req: CreateRequest, k: Key)
    requires Sane(ns) && req.hostedCluster.Some? && k in st.store
    ensures k in Create(st, f, ns, req).0.store
  {
    hide Create, Requested;
    CreateChangesOnlyRequested(st, f, ns, req);
  }

  /** The hosted cluster is on the spoke after an answer of 201. */
  lemma CreatedIsThere(st: State, f: nat -> Fault, ns: string, req: CreateRequest)
    requires Sane(ns) && req.hostedCluster.Some? && Create(st, f, ns, req).1.Created?
    ensures HostedClusterKey(ns, req.hostedCluster.value) !in st.store
    ensures HostedClusterKey(ns, req.hostedCluster.value) in Create(st, f, ns, req).0.store
  {
    hide CreateCluster, CreatePools, Requested;
    var hc := req.hostedCluster.value;
    ClusterOnce(st, f, ns, hc, req.secrets);
    assert req.nodePools[..|req.nodePools|] == req.nodePools;
    PoolsRequested(CreateCluster(st, f, ns, hc, req.secrets).0, f, ns, req, |req.nodePools|);
  }

  /** The state after n attempts at the same creation */
  ghost function Attempts(st: State, f: nat -> Fault, ns: string, req: CreateRequest, n: nat): State {
    if n == 0 then st else Create(Attempts(st, f, ns, req, n - 1), f, ns, req).0
  }

  lemma {:induction false} AttemptsPrepare(st: State, f: nat -> Fault, ns: string, req: CreateRequest, n: nat)
    requires Sane(ns) && req.hostedCluster.Some?
    ensures var k, s := HostedClusterKey(ns, req.hostedCluster.value), Attempts(st, f, ns, req, n).store;
      && (k in st.store ==> k in s)
      && ((k in s ==> k in st.store) ==> Prepared(st.store, s, ns, req.hostedCluster.value, req.secrets))
  {
    hide Create, Prepared, Sane;
    var hc := req.hostedCluster.value;
    var k := HostedClusterKey(ns, hc);
    if n == 0 {
      PreparedAtFirst(st.store, ns, hc, req.secrets);
    } else {
      var a := Attempts(st, f, ns, req, n - 1);
      AttemptsPrepare(st, f, ns, req, n - 1);
      var b := Create(a, f, ns, req).0;
      if k in a.store {
        KeysStay(a, f, ns, req, k);
      }
      if k in b.store ==> k in st.store {
        OneMoreAttempt(a, f, ns, req);
        PreparedTransitive(st.store, a.store, b.store, ns, hc, req.secrets);
      }
    }
  }

  lemma PreparedAtFirst(s: Store, ns: string, hc: Obj, secrets: seq<Obj>)
    ensures Prepared(s, s, ns, hc, secrets)
  {
    hide UsableKeys;
  }

  lemma OneMoreAttempt(st: State, f: nat -> Fault, ns: string, req: CreateRequest)
    requires Sane(ns) && req.hostedCluster.Some?
    requires var k := HostedClusterKey(ns, req.hostedCluster.value);
      k in Create(st, f, ns, req).0.store ==> k in st.store
    ensures Prepared(st.store, Create(st, f, ns, req).0.store, ns, req.hostedCluster.value, req.secrets)
  {
    hide CreateCluster, CreatePools, Prepared, Sane;
    var hc := req.hostedCluster.value;
    if Create(st, f, ns, req).1.Created? {
      CreatedIsThere(st, f, ns, req);
    }
    ClusterOnce(st, f, ns, hc, req.secrets);
    AttemptPrepares(st, f, ns, hc, req.secrets);
  }

  /** Failed attempts leave no trace: however many there were and whatever went wrong in them, if none
      of them created the hosted cluster then a run in which nothing goes wrong ends with the store and the
      answer it would have given without them. */
  lemma RetryLeavesNoTrace(st: State, f: nat -> Fault, ns: string, req: CreateRequest, n: nat, f1: nat -> Fault,
      f0: nat -> Fault)
    requires Sane(ns) && req.hostedCluster.Some?
    requires var k, s := HostedClusterKey(ns, req.hostedCluster.value), Attempts(st, f, ns, req, n).store;
        k in s ==> k in st.store
    requires Faultless(f1, |Attempts(st, f, ns, req, n).log|) && Faultless(f0, |st.log|)
    ensures var retried, alone := Create(Attempts(st, f, ns, req, n), f1, ns, req), Create(st, f0, ns, req);
      retried.0.store == alone.0.store && retried.1 == alone.1
  {
    hide Create, Prepared, Sane, CleanCluster;
    var hc, after := req.hostedCluster.value, Attempts(st, f, ns, req, n);
    AttemptsPrepare(st, f, ns, req, n);
    PreparedEndsTheSame(st.store, after.store, ns, hc, req.secrets);
    CleanCreate(after, f1, st, f0, ns, req);
  }

  /** A retry in which nothing goes wrong is answered with 201 exactly when the first attempt could have
      been and no attempt so far created the hosted cluster. */
  lemma RetrySucceeds(
    st: State, f: nat -> Fault, ns: string, req: CreateRequest, n: nat, f1: nat -> Fault, f0: nat -> Fault)
    requires Sane(ns) && req.hostedCluster.Some?
    requires Faultless(f1, |Attempts(st, f, ns, req, n).log|) && Faultless(f0, |st.log|)
    ensures Create(Attempts(st, f, ns, req, n), f1, ns, req).1.Created?
      <==>
      && Create(st, f0, ns, req).1.Created?
      && HostedClusterKey(ns, req.hostedCluster.value) !in Attempts(st, f, ns, req, n).store
  {
    hide Create, Sane;
    var k, after := HostedClusterKey(ns, req.hostedCluster.value), Attempts(st, f, ns, req, n);
    if k in after.store {
      NoSecondCreation(after, f1, ns, req);
    } else {
      RetryLeavesNoTrace(st, f, ns, req, n, f1, f0);
    }
  }
}
