/** Which HostedCluster is found, in terms of the annotations, infrastructure IDs and names themselves. */
module MatchLaws {
  import opened Labels
  import opened HostedClusters

  /** The first HostedCluster in the list that is annotated for the cluster, or that is not annotated and has
      the cluster's infrastructure ID, is the match, whatever else the list holds. */
  lemma FirstOfItsKind(hcs: seq<HostedCluster>, mcName: string, infraID: string, i: nat)
    requires i < |hcs|
    requires var anno := Annotations(hcs);
      && ((anno[i] != "" && anno[i] == mcName) || (anno[i] == "" && infraID != "" && hcs[i].infraID == infraID))
      && forall j | 0 <= j < i ::
           (anno[j] != "" ==> anno[j] != mcName) && (anno[j] == "" ==> infraID == "" || hcs[j].infraID != infraID)
    ensures MatchOf(hcs, mcName, infraID) == Found(hcs[i])
  {
    var anno := Annotations(hcs);
    forall j | 0 <= j <= i ensures Claims(hcs[j], mcName, infraID) <==> j == i {
      assert anno[j] == AnnotatedFor(hcs[j]);
    }
    hide Claims;
    NoClaimantsBefore(hcs, mcName, infraID, i);
    assert hcs[..i + 1][..i] == hcs[..i];
    assert Claimants(hcs[..i + 1], mcName, infraID) == [hcs[i]];
    ClaimantsPrefix(hcs, i + 1, mcName, infraID);
  }

  /** The value of the annotation that names a ManagedCluster, for each of the list; "" where there is none */
  function Annotations(hcs: seq<HostedCluster>): (anno: seq<string>)
    ensures |anno| == |hcs|
  {
    seq(|hcs|, i requires 0 <= i < |hcs| =>
      if ManagedClusterName in hcs[i].annotations then hcs[i].annotations[ManagedClusterName] else "")
  }

  lemma {:induction false} NoClaimantsBefore(hcs: seq<HostedCluster>, mcName: string, infraID: string, n: nat)
    requires n <= |hcs| && forall j | 0 <= j < n :: !Claims(hcs[j], mcName, infraID)
    ensures Claimants(hcs[..n], mcName, infraID) == []
  {
    hide Claims;
    if n > 0 {
      assert hcs[..n][..n - 1] == hcs[..n - 1];
      NoClaimantsBefore(hcs, mcName, infraID, n - 1);
    }
  }

  /** With no such HostedCluster the names decide, among those that are not annotated: one of the name is the
      match, none is no match, and two or more are ambiguous. */
  lemma NamesDecideOtherwise(hcs: seq<HostedCluster>, mcName: string, infraID: string)
    requires var anno := Annotations(hcs);
      forall j | 0 <= j < |hcs| ::
        (anno[j] != "" ==> anno[j] != mcName) && (anno[j] == "" ==> infraID == "" || hcs[j].infraID != infraID)
    ensures var anno, m := Annotations(hcs), MatchOf(hcs, mcName, infraID);
      && (m.NoMatch? <==> forall j | 0 <= j < |hcs| :: !(anno[j] == "" && hcs[j].name == mcName))
      && (m.Ambiguous? <==> exists i, j ::
            0 <= i < j < |hcs| && anno[i] == anno[j] == "" && hcs[i].name == hcs[j].name == mcName)
      && (m.Found? <==> exists i ::
            && 0 <= i < |hcs| && anno[i] == "" && hcs[i].name == mcName && m == Found(hcs[i])
            && forall j | 0 <= j < |hcs| && j != i :: !(anno[j] == "" && hcs[j].name == mcName))
  {
    var anno := Annotations(hcs);
    forall j | 0 <= j < |hcs|
      ensures !Claims(hcs[j], mcName, infraID)
      ensures MatchesByName(hcs[j], mcName, infraID) <==> anno[j] == "" && hcs[j].name == mcName
    {
      assert anno[j] == AnnotatedFor(hcs[j]);
    }
    hide Claims, MatchesByName;
    NoClaimantsBefore(hcs, mcName, infraID, |hcs|);
    assert hcs[..|hcs|] == hcs;
    NamesakesAre(hcs, mcName, infraID);
  }

  /** None, one or more namesakes, by index */
  lemma {:induction false} NamesakesAre(hcs: seq<HostedCluster>, mcName: string, infraID: string)
    ensures var r := Namesakes(hcs, mcName, infraID);
      && (r == [] <==> forall j | 0 <= j < |hcs| :: !MatchesByName(hcs[j], mcName, infraID))
      && (|r| >= 2 <==> exists i, j ::
            0 <= i < j < |hcs| && MatchesByName(hcs[i], mcName, infraID) && MatchesByName(hcs[j], mcName, infraID))
      && (|r| == 1 ==> exists i ::
            && 0 <= i < |hcs| && MatchesByName(hcs[i], mcName, infraID) && r[0] == hcs[i]
            && forall j | 0 <= j < |hcs| && j != i :: !MatchesByName(hcs[j], mcName, infraID))
  {
    hide MatchesByName;
    if hcs != [] {
      var front, last := hcs[..|hcs| - 1], |hcs| - 1;
      NamesakesAre(front, mcName, infraID);
      assert forall j | 0 <= j < last :: front[j] == hcs[j];
    }
  }
}
