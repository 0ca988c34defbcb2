/** The mapping between the names of a ManagedCluster on the spoke and on the hub. */
module Names {
  import opened Strings

  /** DISCOVERY_PREFIX: not set, or set to a possibly empty string */
  datatype Prefix = Unset | Set(value: string)

  /** strings.CutPrefix, with the empty string for "not found" as the callers use it */
  function CutOrEmpty(s: string, prefix: string): string {
    if HasPrefix(s, prefix) then s[|prefix|..] else ""
  }

  /** getDiscoveredClusterName and getHubMCName */
  function HubName(prefix: Prefix, clusterName: string, spokeName: string): string {
    match prefix
    case Unset => clusterName + "-" + spokeName
    case Set(value) => if value != "" then value + "-" + spokeName else spokeName
  }

  /** getSpokeMCName */
  function SpokeName(prefix: Prefix, clusterName: string, hubName: string): string {
    match prefix
    case Unset => CutOrEmpty(hubName, clusterName + "-")
    case Set(value) => if value != "" then CutOrEmpty(hubName, value + "-") else hubName
  }

  /** The spoke name of the hub name of a cluster is the cluster, in every mode. */
  lemma SpokeOfHub(prefix: Prefix, clusterName: string, spokeName: string)
    ensures SpokeName(prefix, clusterName, HubName(prefix, clusterName, spokeName)) == spokeName
  {
    var p := (if prefix.Unset? then clusterName else prefix.value) + "-";
    assert (p + spokeName)[|p|..] == spokeName;
  }

  /** A hub event is mapped to a spoke cluster exactly when that cluster's hub name is the
      object's name; any other hub object maps to the empty name. */
  lemma HubOfSpoke(prefix: Prefix, clusterName: string, hubName: string)
    ensures var spokeName := SpokeName(prefix, clusterName, hubName);
      && (spokeName != "" ==> HubName(prefix, clusterName, spokeName) == hubName)
      && (forall s :: s != "" && HubName(prefix, clusterName, s) == hubName ==> s == spokeName)
  {
    forall s | HubName(prefix, clusterName, s) == hubName
      ensures s == SpokeName(prefix, clusterName, hubName)
    {
      SpokeOfHub(prefix, clusterName, s);
    }
  }

  /** Different spoke clusters never share a hub object. */
  lemma HubNameInjective(prefix: Prefix, clusterName: string, a: string, b: string)
    requires HubName(prefix, clusterName, a) == HubName(prefix, clusterName, b)
    ensures a == b
  {
    SpokeOfHub(prefix, clusterName, a);
    SpokeOfHub(prefix, clusterName, b);
  }
}
