/** The objects of the label synchroniser as values, and what each of its phases does to them. */
module Labels {
  import opened Strings
  import opened Tracking

  /** What the API server demands of a label key, as far as the annotations rely on it. */
  predicate IsLabelKey(k: string) {
    k != "" && ',' !in k
  }

  type LabelMap = m: map<string, string> | forall k <- m :: IsLabelKey(k)

  /** Annotation keys, by what the code uses them for. */
  datatype AnnoKey =
    | PropagatedLabels      // hypershift.open-cluster-management.io/propagated-labels
    | HCPropagatedLabels    // hypershift.open-cluster-management.io/hc-propagated-labels
    | CreatedVia            // open-cluster-management/created-via
    | ManagedClusterName    // cluster.open-cluster-management.io/managedcluster-name
    | OtherAnnotation(key: string)

  type Annotations = map<AnnoKey, string>

  /** The part of a ManagedCluster that the synchroniser reads and writes. */
  datatype Meta = Meta(labels: LabelMap, annotations: Annotations)

  const AUTO_INFRA_LABEL := "hypershift.openshift.io/auto-created-for-infra"

  const SYSTEM_LABEL_KEYS: set<string> := {
    "name", "vendor", "cloud", "openshiftVersion", "openshiftVersion-major",
    "openshiftVersion-major-minor", "clusterID", "local-cluster",
    "velero.io/exclude-from-backup", "region" }

  const CLUSTER_PREFIX := "cluster.open-cluster-management.io/"

  /** isSystemLabel */
  predicate IsSystemLabel(key: string) {
    key in SYSTEM_LABEL_KEYS ||
    (!HasPrefix(key, CLUSTER_PREFIX) &&
     (Contains(key, "open-cluster-management.io/") || Contains(key, "kubernetes.io/") ||
      Contains(key, "openshift.io/") || Contains(key, "k8s.io/")))
  }

  /** The label that identifies a cluster's infrastructure is itself a system label. */
  lemma InfraLabelIsSystem()
    ensures IsSystemLabel(AUTO_INFRA_LABEL) && IsLabelKey(AUTO_INFRA_LABEL)
  {
    hide AUTO_INFRA_LABEL;
    InfraLabelPieces();
    assert ',' !in "hypershift." && ',' !in "openshift.io/" && ',' !in "auto-created-for-infra";
    assert AUTO_INFRA_LABEL[0] == 'h' != CLUSTER_PREFIX[0];
    assert OccursAt(AUTO_INFRA_LABEL, "openshift.io/", 11);
  }

  lemma InfraLabelPieces()
    ensures AUTO_INFRA_LABEL == "hypershift." + "openshift.io/" + "auto-created-for-infra"
  {
  }

  lemma NotASystemLabel(key: string)
    requires |key| < 7 && key !in SYSTEM_LABEL_KEYS
    ensures !IsSystemLabel(key)
  {
  }

  // ---- annotations ----

  /** Reading a missing key of a Go map gives the zero value. */
  function Anno(annotations: Annotations, key: AnnoKey): string {
    if key in annotations then annotations[key] else ""
  }

  function Tracked(m: Meta, anno: AnnoKey): set<string> {
    Parse(Anno(m.annotations, anno))
  }

  function SetOrDelete(annotations: Annotations, key: AnnoKey, value: string): Annotations {
    if value != "" then annotations[key := value] else annotations - {key}
  }

  /** The two agree on every key but those given. */
  ghost predicate SameBut(a: Annotations, b: Annotations, keys: set<AnnoKey>) {
    forall k | k !in keys :: (k in a <==> k in b) && (k in a ==> a[k] == b[k])
  }

  // ---- merging a source of labels into a target ----

  /** The labels that may travel: all but the system's. */
  function Eligible(labels: LabelMap): LabelMap {
    map k | k in labels && !IsSystemLabel(k) :: labels[k]
  }

  /** The hub's labels that may travel to the spoke: those a HostedCluster put there may not. */
  function EligibleFromHub(hub: Meta): LabelMap {
    Eligible(hub.labels) - Tracked(hub, HCPropagatedLabels)
  }

  /** The keys still present on the hub and not owned by a HostedCluster there. */
  function KeptByHub(hub: Meta): set<string> {
    hub.labels.Keys - Tracked(hub, HCPropagatedLabels)
  }

  /** The keys of source that the target takes over: those it lacks, those it agrees on,
      and those it already tracks. */
  function Managed(target: LabelMap, tracked: set<string>, source: LabelMap): set<string> {
    set k | k in source && (k !in target || target[k] == source[k] || k in tracked)
  }

  /** The target after the merge: managed keys take the source's value, other stale keys go. */
  function Overlay(target: LabelMap, managed: set<string>, source: LabelMap, stale: set<string>): LabelMap
    requires managed <= source.Keys
  {
    map k | k in target.Keys + managed && (k in managed || k !in stale) ::
      if k in managed then source[k] else target[k]
  }

  /** What a phase leaves behind, and whether it sent a patch. */
  datatype Phase = Phase(meta: Meta, patched: bool)

  /** Labels of a HostedCluster merged into an object; keys it takes over leave hubTracked. */
  ghost function HCSync(m: Meta, source: LabelMap, hubTracked: set<string>): Phase {
    var tracked := Tracked(m, HCPropagatedLabels);
    var managed := Managed(m.labels, tracked, source);
    var labels := Overlay(m.labels, managed, source, tracked);
    var taken := hubTracked * managed;
    if labels == m.labels && managed == tracked && taken == {} then Phase(m, false)
    else
      var a := SetOrDelete(m.annotations, HCPropagatedLabels, Encode(managed));
      Phase(Meta(labels, if taken == {} then a else SetOrDelete(a, PropagatedLabels, Encode(hubTracked - managed))),
            true)
  }

  /** syncHCLabelsToSpoke, for the eligible labels of the HostedCluster */
  ghost function HCToSpoke(m: Meta, source: LabelMap): Phase {
    HCSync(m, source, Tracked(m, PropagatedLabels))
  }

  /** syncHCLabelsToHub, for the eligible labels of the HostedCluster */
  ghost function HCToHub(m: Meta, source: LabelMap): Phase {
    HCSync(m, source, {})
  }

  /** syncHubLabelsToSpoke, for the labels the hub may send and the keys it keeps */
  ghost function HubSync(m: Meta, source: LabelMap, kept: set<string>): Phase {
    var tracked := Tracked(m, PropagatedLabels);
    var managed := Managed(m.labels, tracked, source);
    var labels := Overlay(m.labels, managed, source, tracked - kept);
    if labels == m.labels && managed == tracked then Phase(m, false)
    else Phase(Meta(labels, m.annotations[PropagatedLabels := Encode(managed)]), true)
  }

  ghost function HubToSpoke(m: Meta, hub: Meta): Phase {
    HubSync(m, EligibleFromHub(hub), KeptByHub(hub))
  }

  /** The three clean-up functions: drop the tracked labels and the annotation. */
  function Cleared(m: Meta, anno: AnnoKey): Phase {
    if Anno(m.annotations, anno) == "" then Phase(m, false)
    else Phase(Meta(m.labels - Tracked(m, anno), m.annotations - {anno}), true)
  }

  // ---- what the annotations hold afterwards ----

  /** Writing a set of comma-free keys and reading the annotation back. */
  lemma WriteRead(annotations: Annotations, anno: AnnoKey, m: set<string>)
    requires forall k <- m :: ',' !in k
    ensures Parse(Anno(SetOrDelete(annotations, anno, Encode(m)), anno)) == (if m == {""} then {} else m)
    ensures Parse(Anno(annotations[anno := Encode(m)], anno)) == (if m == {""} then {} else m)
  {
    ParseEncode(m);
  }

  lemma HCSyncView(m: Meta, source: LabelMap, hubTracked: set<string>)
    requires hubTracked == {} || hubTracked == Tracked(m, PropagatedLabels)
    ensures var p, tracked := HCSync(m, source, hubTracked), Tracked(m, HCPropagatedLabels);
      var managed := Managed(m.labels, tracked, source);
      && p.meta.labels == Overlay(m.labels, managed, source, tracked)
      && Tracked(p.meta, HCPropagatedLabels) == managed
      && Tracked(p.meta, PropagatedLabels) - {""} == Tracked(m, PropagatedLabels) - hubTracked * managed - {""}
      && (p.patched <==> p.meta.labels != m.labels || managed != tracked || hubTracked * managed != {})
      && SameBut(p.meta.annotations, m.annotations, {HCPropagatedLabels, PropagatedLabels})
  {
    var managed := Managed(m.labels, Tracked(m, HCPropagatedLabels), source);
    hide Parse, Encode;
    var p := HCSync(m, source, hubTracked);
    var left := hubTracked - managed;
    ParsedKeys(Anno(m.annotations, PropagatedLabels));
    var a := SetOrDelete(m.annotations, HCPropagatedLabels, Encode(managed));
    WriteRead(m.annotations, HCPropagatedLabels, managed);
    WriteRead(a, PropagatedLabels, left);
    if p.patched && hubTracked * managed != {} {
      assert Tracked(p.meta, PropagatedLabels) == (if left == {""} then {} else left);
      assert hubTracked - hubTracked * managed == left;
    } else {
      assert Anno(p.meta.annotations, PropagatedLabels) == Anno(m.annotations, PropagatedLabels);
    }
  }

  lemma HubSyncView(m: Meta, source: LabelMap, kept: set<string>)
    ensures var p, tracked := HubSync(m, source, kept), Tracked(m, PropagatedLabels);
      var managed := Managed(m.labels, tracked, source);
      && p.meta.labels == Overlay(m.labels, managed, source, tracked - kept)
      && Tracked(p.meta, PropagatedLabels) == managed
      && (p.patched <==> p.meta.labels != m.labels || managed != tracked)
      && SameBut(p.meta.annotations, m.annotations, {PropagatedLabels})
  {
    hide Parse, Encode;
    var managed := Managed(m.labels, Tracked(m, PropagatedLabels), source);
    var p := HubSync(m, source, kept);
    WriteRead(m.annotations, PropagatedLabels, managed);
    if p.patched {
      assert Tracked(p.meta, PropagatedLabels) == managed;
    } else {
      assert p.meta == m;
    }
  }

  lemma ClearedView(m: Meta, anno: AnnoKey)
    ensures var p := Cleared(m, anno);
      && p.meta.labels == m.labels - Tracked(m, anno)
      && Tracked(p.meta, anno) == {}
      && (p.patched <==> Tracked(m, anno) != {})
      && SameBut(p.meta.annotations, m.annotations, {anno})
  {
    TrackedNothing(m, anno);
  }

  // ---- clean-up is a merge from nothing ----

  lemma TrackedNothing(m: Meta, anno: AnnoKey)
    ensures Tracked(m, anno) == {} <==> Anno(m.annotations, anno) == ""
    ensures Encode({}) == ""
  {
    var value := Anno(m.annotations, anno);
    if value != "" {
      assert Split(value, ',')[0] in Tracked(m, anno);
    }
  }

  /** Removing the HostedCluster's labels is merging a HostedCluster without labels: the same
      object, annotations included, and a patch in the same cases. */
  lemma ClearHCIsEmptySync(m: Meta)
    ensures Cleared(m, HCPropagatedLabels) == HCToSpoke(m, map[]) == HCToHub(m, map[])
  {
    TrackedNothing(m, HCPropagatedLabels);
    hide Parse, Encode;
    var tracked := Tracked(m, HCPropagatedLabels);
    assert Managed(m.labels, tracked, map[]) == {};
    assert Overlay(m.labels, {}, map[], tracked) == m.labels - tracked;
  }

  /** Removing the hub's labels is merging a hub object without labels: the same labels and
      tracking sets, and a patch in the same cases; only an emptied annotation is written as
      the empty string by one and removed by the other. */
  lemma ClearHubIsEmptySync(m: Meta, hub: Meta)
    requires hub.labels == map[]
    ensures var a, b := Cleared(m, PropagatedLabels), HubToSpoke(m, hub);
      && a.patched == b.patched
      && a.meta.labels == b.meta.labels
      && (forall anno :: Tracked(a.meta, anno) == Tracked(b.meta, anno))
  {
    var tracked := Tracked(m, PropagatedLabels);
    hide Parse, Encode;
    ClearedView(m, PropagatedLabels);
    assert EligibleFromHub(hub) == map[] && KeptByHub(hub) == {};
    HubSyncView(m, map[], {});
    assert Managed(m.labels, tracked, map[]) == {};
    assert Overlay(m.labels, {}, map[], tracked - {}) == m.labels - tracked;
  }
}
