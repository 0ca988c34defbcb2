/** The tracking annotations: a set of label keys written as a sorted, comma-separated list. */
module Tracking {
  import opened Strings

  /** What an annotation value says: no value and the empty value both mean the empty set. */
  function Parse(anno: string): set<string> {
    if anno == "" then {} else set k <- Split(anno, ',')
  }

  /** parseAnnotation */
  method ParseAnnotation(anno: string) returns (result: set<string>)
    ensures result == Parse(anno)
  {
    result := {};
    if anno != "" {
      var pieces := Split(anno, ',');
      for i := 0 to |pieces|
        invariant result == set k <- pieces[..i]
      {
        result := result + {pieces[i]};
      }
      assert pieces[..|pieces|] == pieces;
    }
  }

  /** The members of m in some order. */
  ghost function Listing(m: set<string>): (keys: seq<string>)
    ensures multiset(keys) == multiset(m)
  {
    if m == {} then []
    else
      var k :| k in m;
      [k] + Listing(m - {k})
  }

  /** The annotation value written for a set of keys. */
  ghost function Encode(m: set<string>): string {
    Join(Sort(Listing(m)), ',')
  }

  /** The printed string does not depend on the order in which the map yields its keys. */
  lemma OrderIndependent(keys: seq<string>, keys': seq<string>)
    requires multiset(keys) == multiset(keys')
    ensures Join(Sort(keys), ',') == Join(Sort(keys'), ',')
  {
    SortSorts(keys);
    SortSorts(keys');
    SortedUnique(Sort(keys), Sort(keys'));
  }

  /** joinSortedKeys: the keys are collected in the map's own order, which is arbitrary. */
  method JoinSortedKeys(m: set<string>) returns (s: string)
    ensures s == Encode(m)
  {
    var keys, rest := [], m;
    while rest != {}
      invariant rest <= m && multiset(keys) == multiset(m - rest)
    {
      var k :| k in rest;
      keys, rest := keys + [k], rest - {k};
      assert m - rest == (m - rest - {k}) + {k};
    }
    assert m - rest == m;
    OrderIndependent(keys, Listing(m));
    s := Join(Sort(keys), ',');
  }

  /** Reading back what was written gives the same set, for every set of comma-free keys but
      one: the set of just the empty key is written like the empty set. */
  lemma ParseEncode(m: set<string>)
    requires forall k <- m :: ',' !in k
    ensures Parse(Encode(m)) == (if m == {""} then {} else m)
  {
    var keys := Sort(Listing(m));
    assert forall k :: k in keys <==> k in multiset(m);
    if m != {} {
      var k :| k in m;
      assert k in keys;
      SplitJoin(keys, ',');
      assert keys[0] in keys;
      assert |keys| == |multiset(m)| == |m|;
      if |keys| == 1 {
        assert m == {keys[0]};
      }
    }
  }

  /** Two sets of label keys with the same annotation value are the same set. */
  lemma EncodeInjective(m: set<string>, m': set<string>)
    requires forall k <- m :: k != "" && ',' !in k
    requires forall k <- m' :: k != "" && ',' !in k
    requires Encode(m) == Encode(m')
    ensures m == m'
  {
    ParseEncode(m);
    ParseEncode(m');
  }

  /** Whatever a user writes into an annotation, the keys read from it hold no comma. */
  lemma ParsedKeys(anno: string)
    ensures forall k <- Parse(anno) :: ',' !in k
  {
    SplitPieces(anno, ',');
  }
}
