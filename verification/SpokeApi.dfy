/** The API server of a spoke as the HCP proxy sees it: a map of objects, and a log of the requests it
    was sent with the replies the proxy got. */
module SpokeApi {
  import opened Strings
  import opened ProxyPaths
  import Tracking

  datatype Resource = Namespaces | Secrets | HostedClusters | NodePools

  /** Where an object is stored; namespaces themselves are stored in the namespace "". */
  datatype Key = Key(resource: Resource, ns: string, name: string)

  /** An object: its metadata, spec.clusterName (of node pools), and everything else in payload. */
  datatype Obj = Obj(
    name: string, namespace: string, labels: map<string, string>, apiVersion: string, kind: string,
    clusterName: string, payload: string)

  type Store = map<Key, Obj>

  datatype Call =
    | Post(resource: Resource, ns: string, obj: Obj)
    | Put(resource: Resource, ns: string, name: string, obj: Obj)
    | Delete(resource: Resource, ns: string, name: string)
    | Get(resource: Resource, ns: string, name: string)
    | List(resource: Resource, ns: string)

  /** Rejected is any error status other than 404 and 409; Unreachable is no answer at all. */
  datatype Reply = Done | Found(obj: Obj) | Listed(objs: seq<Obj>) | Conflict | NotFound | Rejected | Unreachable

  /** What befalls a request: nothing, an error status, the connection breaking before the request
      is served, or the connection breaking after it. */
  datatype Fault = Ok | Refused | Cut | Lost

  datatype Request = Request(call: Call, reply: Reply)

  datatype State = State(store: Store, log: seq<Request>)

  /** The names the server accepts for new objects */
  predicate ValidName(resource: Resource, name: string) {
    if resource.Namespaces? then IsLabel(name) && |name| <= 63 else Sane(name)
  }

  function NamespaceKey(ns: string): Key {
    Key(Namespaces, "", ns)
  }

  function KeyOf(c: Call): Key
    requires !c.List?
  {
    Key(c.resource, c.ns, if c.Post? then c.obj.name else c.name)
  }

  function NamesIn(s: Store, resource: Resource, ns: string): set<string> {
    set k <- s | k.resource == resource && k.ns == ns :: k.name
  }

  function Objects(s: Store, resource: Resource, ns: string, names: seq<string>): seq<Obj>
    requires forall i | 0 <= i < |names| :: Key(resource, ns, names[i]) in s
  {
    seq(|names|, i requires 0 <= i < |names| => s[Key(resource, ns, names[i])])
  }

  lemma NamesAreIn(s: Store, resource: Resource, ns: string, names: seq<string>)
    requires multiset(names) == multiset(NamesIn(s, resource, ns))
    ensures forall i | 0 <= i < |names| :: Key(resource, ns, names[i]) in s
  {
    forall i | 0 <= i < |names| ensures Key(resource, ns, names[i]) in s {
      assert names[i] in multiset(names);
    }
  }

  ghost function SortedNames(s: Store, resource: Resource, ns: string): (names: seq<string>)
    ensures multiset(names) == multiset(NamesIn(s, resource, ns))
    ensures forall i | 0 <= i < |names| :: Key(resource, ns, names[i]) in s
  {
    NamesAreIn(s, resource, ns, Sort(Tracking.Listing(NamesIn(s, resource, ns))));
    Sort(Tracking.Listing(NamesIn(s, resource, ns)))
  }

  /** The server lists a collection in the order of the names. */
  ghost function Listing(s: Store, resource: Resource, ns: string): seq<Obj> {
    Objects(s, resource, ns, SortedNames(s, resource, ns))
  }

  ghost function ReplyTo(s: Store, c: Call): Reply {
    match c
    case Post(resource, ns, obj) =>
      if !resource.Namespaces? && NamespaceKey(ns) !in s then NotFound
      else if KeyOf(c) in s then Conflict
      else if !ValidName(resource, obj.name) || obj.namespace != ns then Rejected
      else Done
    case Put(_, ns, name, obj) =>
      if obj.name != name || obj.namespace != ns then Rejected
      else if KeyOf(c) in s then Done
      else NotFound
    case Delete(_, _, _) => if KeyOf(c) in s then Done else NotFound
    case Get(_, _, _) => if KeyOf(c) in s then Found(s[KeyOf(c)]) else NotFound
    case List(resource, ns) => Listed(Listing(s, resource, ns))
  }

  ghost function Effect(s: Store, c: Call): Store {
    if ReplyTo(s, c).Done? then
      if c.Delete? then s - {KeyOf(c)} else s[KeyOf(c) := c.obj]
    else s
  }

  /** One request: the new state and the reply the proxy gets. */
  ghost function Send(st: State, f: nat -> Fault, c: Call): (State, Reply) {
    var fault := f(|st.log|);
    var store := if fault.Ok? || fault.Lost? then Effect(st.store, c) else st.store;
    var reply := match fault case Ok => ReplyTo(st.store, c) case Refused => Rejected case _ => Unreachable;
    (State(store, st.log + [Request(c, reply)]), reply)
  }

  class Spoke {
    var store: Store
    var log: seq<Request>
    const faults: nat -> Fault

    function View(): State
      reads this
    {
      State(store, log)
    }

    method NamesOf(resource: Resource, ns: string) returns (names: seq<string>)
      ensures names == SortedNames(store, resource, ns)
    {
      var all := NamesIn(store, resource, ns);
      var keys, rest := [], all;
      while rest != {}
        invariant rest <= all && multiset(keys) == multiset(all - rest)
      {
        var k :| k in rest;
        keys, rest := keys + [k], rest - {k};
        assert all - rest == (all - rest - {k}) + {k};
      }
      assert all - rest == all;
      SortSorts(keys);
      SortSorts(Tracking.Listing(all));
      SortedUnique(Sort(keys), Sort(Tracking.Listing(all)));
      names := Sort(keys);
    }

    method Serve(c: Call) returns (reply: Reply)
      modifies this`store
      ensures reply == ReplyTo(old(store), c) && store == Effect(old(store), c)
    {
      hide SortedNames;
      match c {
        case Post(resource, ns, obj) =>
          if !resource.Namespaces? && NamespaceKey(ns) !in store { return NotFound; }
          if KeyOf(c) in store { return Conflict; }
          if !ValidName(resource, obj.name) || obj.namespace != ns { return Rejected; }
          store := store[KeyOf(c) := obj];
          return Done;
        case Put(_, ns, name, obj) =>
          if obj.name != name || obj.namespace != ns { return Rejected; }
          if KeyOf(c) !in store { return NotFound; }
          store := store[KeyOf(c) := obj];
          return Done;
        case Delete(_, _, _) =>
          if KeyOf(c) !in store { return NotFound; }
          store := store - {KeyOf(c)};
          return Done;
        case Get(_, _, _) =>
          if KeyOf(c) !in store { return NotFound; }
          return Found(store[KeyOf(c)]);
        case List(resource, ns) =>
          var names := NamesOf(resource, ns);
          return Listed(Objects(store, resource, ns, names));
      }
    }

    method Call(c: Call) returns (reply: Reply)
      modifies this
      ensures (View(), reply) == Send(old(View()), faults, c)
    {
      var fault := faults(|log|);
      reply := Rejected;
      if fault.Ok? || fault.Lost? {
        reply := Serve(c);
      }
      if fault.Cut? || fault.Lost? {
        reply := Unreachable;
      }
      log := log + [Request(c, reply)];
    }
  }

  // ---- what the server keeps ----

  /** Every object is stored under its own name and namespace, and the name is a valid one. */
  ghost predicate Valid(s: Store) {
    forall k <- s :: s[k].name == k.name && s[k].namespace == k.ns && ValidName(k.resource, k.name)
  }

  lemma SendKeepsValid(st: State, f: nat -> Fault, c: Call)
    requires Valid(st.store)
    ensures Valid(Send(st, f, c).0.store)
  {
    hide IsLabel, Sane, Listing;
  }

  /** A collection is listed in full and without repetition. */
  lemma ListingIsExact(s: Store, resource: Resource, ns: string)
    requires Valid(s)
    ensures var l := Listing(s, resource, ns);
      && (forall i, j | 0 <= i < j < |l| :: l[i].name != l[j].name)
      && (forall i | 0 <= i < |l| :: Key(resource, ns, l[i].name) in s && s[Key(resource, ns, l[i].name)] == l[i])
      && (forall k <- s | k.resource == resource && k.ns == ns :: s[k] in l)
  {
    hide ValidName;
    var names := SortedNames(s, resource, ns);
    assert multiset(names) == multiset(NamesIn(s, resource, ns));
    hide SortedNames;
    var l := Listing(s, resource, ns);
    forall i, j | 0 <= i < j < |l| ensures l[i].name != l[j].name {
      Twice(names, i, j);
    }
    forall k <- s | k.resource == resource && k.ns == ns ensures s[k] in l {
      NothingMissed(s, names, k);
    }
  }

  lemma NothingMissed(s: Store, names: seq<string>, k: Key)
    requires k in s && multiset(names) == multiset(NamesIn(s, k.resource, k.ns))
    requires forall i | 0 <= i < |names| :: Key(k.resource, k.ns, names[i]) in s
    ensures s[k] in Objects(s, k.resource, k.ns, names)
  {
    assert k.name in multiset(names);
    var i :| 0 <= i < |names| && names[i] == k.name;
    assert k == Key(k.resource, k.ns, names[i]) && Objects(s, k.resource, k.ns, names)[i] == s[k];
  }

  lemma Twice(names: seq<string>, i: nat, j: nat)
    requires i < j < |names|
    requires forall n :: multiset(names)[n] <= 1
    ensures names[i] != names[j]
  {
    var front, back := names[..j], names[j + 1..];
    assert names == front + [names[j]] + back;
    assert multiset(names) == multiset(front) + multiset{names[j]} + multiset(back);
    assert names[i] == front[i];
    assert multiset(front)[names[i]] >= 1;
    assert multiset(names)[names[j]] == multiset(front)[names[j]] + 1 + multiset(back)[names[j]];
  }
}
