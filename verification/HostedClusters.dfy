/** Which HostedCluster a ManagedCluster on the spoke belongs to. */
module HostedClusters {
  import opened Basics
  import opened Labels

  datatype HostedCluster = HostedCluster(
    name: string, namespace: string, annotations: Annotations, infraID: string, labels: LabelMap)

  datatype Match = Found(hc: HostedCluster) | NoMatch | Ambiguous

  /** The cluster the HostedCluster is annotated for; empty when it is not. */
  function AnnotatedFor(hc: HostedCluster): string {
    Anno(hc.annotations, ManagedClusterName)
  }

  /** An authoritative match: by annotation, or by infrastructure ID when there is no annotation. */
  predicate Claims(hc: HostedCluster, mcName: string, infraID: string) {
    if AnnotatedFor(hc) != "" then AnnotatedFor(hc) == mcName
    else infraID != "" && hc.infraID == infraID
  }

  predicate MatchesByName(hc: HostedCluster, mcName: string, infraID: string) {
    AnnotatedFor(hc) == "" && !Claims(hc, mcName, infraID) && hc.name == mcName
  }

  function Claimants(hcs: seq<HostedCluster>, mcName: string, infraID: string): seq<HostedCluster> {
    if hcs == [] then []
    else
      var last := |hcs| - 1;
      Claimants(hcs[..last], mcName, infraID) + if Claims(hcs[last], mcName, infraID) then [hcs[last]] else []
  }

  function Namesakes(hcs: seq<HostedCluster>, mcName: string, infraID: string): seq<HostedCluster> {
    if hcs == [] then []
    else
      var last := |hcs| - 1;
      Namesakes(hcs[..last], mcName, infraID) + if MatchesByName(hcs[last], mcName, infraID) then [hcs[last]] else []
  }

  function MatchOf(hcs: seq<HostedCluster>, mcName: string, infraID: string): Match {
    var claimants := Claimants(hcs, mcName, infraID);
    var namesakes := Namesakes(hcs, mcName, infraID);
    if claimants != [] then Found(claimants[0])
    else if namesakes == [] then NoMatch
    else if |namesakes| == 1 then Found(namesakes[0])
    else Ambiguous
  }

  lemma {:induction false} ClaimantsPrefix(hcs: seq<HostedCluster>, n: nat, mcName: string, infraID: string)
    requires n <= |hcs|
    ensures Claimants(hcs[..n], mcName, infraID) <= Claimants(hcs, mcName, infraID)
  {
    var last := |hcs| - 1;
    if n < |hcs| {
      ClaimantsPrefix(hcs[..last], n, mcName, infraID);
      assert hcs[..last][..n] == hcs[..n];
    } else {
      assert hcs[..n] == hcs;
    }
  }

  /** findHostedCluster, for the list the API server returned */
  method FindHostedCluster(hcs: seq<HostedCluster>, mcName: string, infraID: string) returns (m: Match)
    ensures m == MatchOf(hcs, mcName, infraID)
  {
    var nameMatches := [];
    for i := 0 to |hcs|
      invariant Claimants(hcs[..i], mcName, infraID) == []
      invariant nameMatches == Namesakes(hcs[..i], mcName, infraID)
    {
      var hc := hcs[i];
      assert hcs[..i + 1][..i] == hcs[..i];
      ClaimantsPrefix(hcs, i + 1, mcName, infraID);
      var annoName := Anno(hc.annotations, ManagedClusterName);
      if |annoName| > 0 {
        if annoName == mcName {
          return Found(hc);
        }
      } else if |infraID| > 0 && hc.infraID == infraID {
        return Found(hc);
      } else if hc.name == mcName {
        nameMatches := nameMatches + [hc];
      }
    }
    assert hcs[..|hcs|] == hcs;
    if |nameMatches| == 0 {
      return NoMatch;
    } else if |nameMatches| == 1 {
      return Found(nameMatches[0]);
    } else {
      return Ambiguous;
    }
  }

  // ---- what a match means ----

  lemma {:induction false} ClaimantsElements(hcs: seq<HostedCluster>, mcName: string, infraID: string)
    ensures forall hc :: hc in Claimants(hcs, mcName, infraID) <==> hc in hcs && Claims(hc, mcName, infraID)
    ensures forall hc :: hc in Namesakes(hcs, mcName, infraID) <==> hc in hcs && MatchesByName(hc, mcName, infraID)
  {
    hide Claims, MatchesByName;
    if hcs != [] {
      var last := |hcs| - 1;
      ClaimantsElements(hcs[..last], mcName, infraID);
      assert hcs == hcs[..last] + [hcs[last]];
    }
  }

  lemma {:induction false} ListCounts(hcs: seq<HostedCluster>, mcName: string, infraID: string, hc: HostedCluster)
    ensures multiset(Claimants(hcs, mcName, infraID))[hc]
         == if Claims(hc, mcName, infraID) then multiset(hcs)[hc] else 0
    ensures multiset(Namesakes(hcs, mcName, infraID))[hc]
         == if MatchesByName(hc, mcName, infraID) then multiset(hcs)[hc] else 0
  {
    hide Claims, MatchesByName;
    if hcs != [] {
      var front, last := hcs[..|hcs| - 1], hcs[|hcs| - 1];
      ListCounts(front, mcName, infraID, hc);
      CountAppended(front, last, hc);
      CountAppended(Claimants(front, mcName, infraID), last, hc);
      CountAppended(Namesakes(front, mcName, infraID), last, hc);
      assert hcs == front + [last];
    }
  }

  /** A HostedCluster annotated for another ManagedCluster is never returned; one found by name
      alone is the only one of that name, in a list with no authoritative match; the name is
      ambiguous exactly when there is no authoritative match and at least two HostedClusters
      carry the name. */
  lemma MatchMeaning(hcs: seq<HostedCluster>, mcName: string, infraID: string)
    ensures var m := MatchOf(hcs, mcName, infraID);
      var authoritative := exists hc <- hcs :: Claims(hc, mcName, infraID);
      && (m.Found? ==> m.hc in hcs && (AnnotatedFor(m.hc) == "" || AnnotatedFor(m.hc) == mcName))
      && (m.Found? && !Claims(m.hc, mcName, infraID)
          ==> !authoritative && m.hc.name == mcName && Namesakes(hcs, mcName, infraID) == [m.hc])
      && (m.Ambiguous? <==> !authoritative && |Namesakes(hcs, mcName, infraID)| >= 2)
      && (m.NoMatch? <==> !authoritative && !exists hc <- hcs :: MatchesByName(hc, mcName, infraID))
  {
    ClaimantsElements(hcs, mcName, infraID);
    var claimants, namesakes := Claimants(hcs, mcName, infraID), Namesakes(hcs, mcName, infraID);
    if claimants != [] { assert claimants[0] in claimants; }
    if namesakes != [] { assert namesakes[0] in namesakes; }
  }

  lemma SmallListUnique(a: seq<HostedCluster>, b: seq<HostedCluster>)
    requires multiset(a) == multiset(b) && |a| <= 1
    ensures a == b
  {
    assert |multiset(a)| == |a| && |multiset(b)| == |b|;
    if |a| == 1 {
      assert a[0] in multiset(b);
    }
  }

  /** The result does not depend on the order of the list, as long as no two different
      HostedClusters match authoritatively. */
  lemma OrderDoesNotMatter(a: seq<HostedCluster>, b: seq<HostedCluster>, mcName: string, infraID: string)
    requires multiset(a) == multiset(b)
    requires forall x, y :: x in a && y in a && Claims(x, mcName, infraID) && Claims(y, mcName, infraID) ==> x == y
    ensures MatchOf(a, mcName, infraID) == MatchOf(b, mcName, infraID)
  {
    forall hc ensures
      multiset(Claimants(a, mcName, infraID))[hc] == multiset(Claimants(b, mcName, infraID))[hc] &&
      multiset(Namesakes(a, mcName, infraID))[hc] == multiset(Namesakes(b, mcName, infraID))[hc]
    {
      ListCounts(a, mcName, infraID, hc);
      ListCounts(b, mcName, infraID, hc);
    }
    var ca, cb := Claimants(a, mcName, infraID), Claimants(b, mcName, infraID);
    var na, nb := Namesakes(a, mcName, infraID), Namesakes(b, mcName, infraID);
    assert multiset(ca) == multiset(cb) && multiset(na) == multiset(nb);
    assert |ca| == |multiset(ca)| == |cb| && |na| == |multiset(na)| == |nb|;
    if ca != [] {
      ClaimantsElements(a, mcName, infraID);
      assert cb[0] in multiset(ca);
      assert ca[0] in ca && cb[0] in ca;
    } else if |na| <= 1 {
      SmallListUnique(na, nb);
    }
  }

  lemma FirstClaimantWins(hc: HostedCluster, rest: seq<HostedCluster>, mcName: string, infraID: string)
    requires Claims(hc, mcName, infraID)
    ensures MatchOf([hc] + rest, mcName, infraID) == Found(hc)
  {
    var b := [hc] + rest;
    assert b[..1] == [hc] && [hc][..0] == [];
    assert Claimants(b[..1], mcName, infraID) == [hc];
    ClaimantsPrefix(b, 1, mcName, infraID);
  }

  lemma MoveToFront<T>(a: seq<T>, i: nat)
    requires i < |a|
    ensures multiset([a[i]] + (a[..i] + a[i + 1..])) == multiset(a)
  {
    assert a == a[..i] + ([a[i]] + a[i + 1..]);
  }

  /** And otherwise it does: of two different authoritative matches the earlier in the list wins,
      so an annotation does not beat an infrastructure ID except by its place. */
  lemma OrderMattersOtherwise(a: seq<HostedCluster>, x: HostedCluster, y: HostedCluster,
                              mcName: string, infraID: string)
    requires x in a && y in a && x != y && Claims(x, mcName, infraID) && Claims(y, mcName, infraID)
    ensures exists b :: multiset(a) == multiset(b) && MatchOf(a, mcName, infraID) != MatchOf(b, mcName, infraID)
  {
    hide Claims, MatchOf;
    var other := if MatchOf(a, mcName, infraID) == Found(x) then y else x;
    var b := InFront(a, other);
    FirstClaimantWins(other, b[1..], mcName, infraID);
    assert b == [other] + b[1..];
  }

  ghost function InFront<T>(a: seq<T>, x: T): (b: seq<T>)
    requires x in a
    ensures multiset(a) == multiset(b) && b != [] && b[0] == x
  {
    var i :| 0 <= i < |a| && a[i] == x;
    MoveToFront(a, i);
    [x] + (a[..i] + a[i + 1..])
  }
}
