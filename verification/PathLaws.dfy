/** The names and paths the proxy accepts and builds, character by character. */
module PathLaws {
  import opened Strings
  import opened ProxyPaths

  /** A lower-case letter or a digit */
  predicate Plainest(c: char) {
    c in {'a', 'b', 'c', 'd', 'e', 'f', 'g', 'h', 'i', 'j', 'k', 'l', 'm', 'n', 'o', 'p', 'q', 'r', 's', 't', 'u', 'v',
          'w', 'x', 'y', 'z', '0', '1', '2', '3', '4', '5', '6', '7', '8', '9'}
  }

  /** Letters, digits, dashes and dots, with a letter or digit at both ends and on both sides of every dot */
  predicate WellShaped(s: string) {
    && s != "" && Plainest(s[0]) && Plainest(s[|s| - 1])
    && (forall i | 0 <= i < |s| :: Plainest(s[i]) || s[i] == '-' || s[i] == '.')
    && (forall i | 0 < i < |s| - 1 && s[i] == '.' :: Plainest(s[i - 1]) && Plainest(s[i + 1]))
  }

  lemma PlainestIs(c: char)
    ensures Plainest(c) <==> LowerAlnum(c)
  {
  }

  /** A label is a well-shaped text without a dot. */
  lemma LabelIs(s: string)
    requires '.' !in s
    ensures IsLabel(s) <==> WellShaped(s)
  {
    forall c ensures Plainest(c) <==> LowerAlnum(c) {
      PlainestIs(c);
    }
    hide Plainest, LowerAlnum;
    if WellShaped(s) {
      forall c | c in s ensures LabelChar(c) {
        var i :| 0 <= i < |s| && s[i] == c;
      }
    }
    if IsLabel(s) {
      forall i | 0 <= i < |s| ensures Plainest(s[i]) || s[i] == '-' {
        assert s[i] in s;
      }
    }
  }

  lemma DotIsNot()
    ensures !Plainest('.')
  {
  }

  /** Both sides of a dot in a well-shaped text are well-shaped, */
  lemma SidesOfADot(a: string, b: string)
    requires '.' !in a && WellShaped(a + "." + b)
    ensures WellShaped(a) && WellShaped(b)
  {
    DotIsNot();
    hide Plainest;
    var s := a + "." + b;
    assert s[|a|] == '.';
    assert forall i | 0 <= i < |a| :: s[i] == a[i] && a[i] != '.';
    assert forall i | 0 <= i < |b| :: s[|a| + 1 + i] == b[i];
    assert a != "" && b != "";
    assert Plainest(s[|a| - 1]) && Plainest(s[|a| + 1]);
    forall i | 0 < i < |b| - 1 && b[i] == '.' ensures Plainest(b[i - 1]) && Plainest(b[i + 1]) {
      assert s[|a| + 1 + i] == '.' && s[|a| + i] == b[i - 1] && s[|a| + 2 + i] == b[i + 1];
    }
  }

  /** and a dot between well-shaped texts makes one. */
  lemma JoinedByADot(a: string, b: string)
    requires '.' !in a && WellShaped(a) && WellShaped(b)
    ensures WellShaped(a + "." + b)
  {
    DotIsNot();
    hide Plainest;
    var s := a + "." + b;
    assert forall i | 0 <= i < |a| :: s[i] == a[i] && a[i] in a;
    forall i | 0 <= i < |s| ensures Plainest(s[i]) || s[i] == '-' || s[i] == '.' {
      assert s[i] == if i < |a| then a[i] else if i == |a| then '.' else b[i - |a| - 1];
    }
    forall i | 0 < i < |s| - 1 && s[i] == '.' ensures Plainest(s[i - 1]) && Plainest(s[i + 1]) {
      assert i >= |a|;
      if i == |a| {
        assert s[i - 1] == a[|a| - 1] && s[i + 1] == b[0];
      } else {
        var j := i - |a| - 1;
        assert b[j] == '.' && j != 0 && s[i - 1] == b[j - 1] && s[i + 1] == b[j + 1];
      }
    }
    assert s[0] == a[0] && s[|s| - 1] == b[|b| - 1];
  }

  lemma {:induction false} SubdomainIs(s: string)
    ensures (forall l <- Split(s, '.') :: IsLabel(l)) <==> WellShaped(s)
  {
    SplitHead(s, '.');
    SplitPieces(s, '.');
    var labels := Split(s, '.');
    var l := labels[0];
    assert l in labels;
    LabelIs(l);
    if |labels| > 1 {
      var t := s[|l| + 1..];
      SubdomainIs(t);
      assert s == l + "." + t;
      if WellShaped(s) {
        SidesOfADot(l, t);
      } else if WellShaped(l) && WellShaped(t) {
        JoinedByADot(l, t);
      }
      assert labels == [l] + labels[1..];
      hide IsLabel, WellShaped, Split;
    } else {
      assert labels == [l];
    }
  }

  /** The names that are accepted, exactly: well-shaped and of at most 253 characters. */
  lemma SaneExactly(name: string)
    ensures Sane(name) <==> WellShaped(name) && |name| <= 253
  {
    SubdomainIs(name);
    hide Split, IsLabel;
  }

  /** The paths that are let out, exactly */
  lemma ValidExactly(path: string)
    ensures ValidateAPIPath(path) <==>
      && path != "" && path[0] == '/'
      && (forall i | 0 <= i < |path| - 1 :: !(path[i] == '.' && path[i + 1] == '.'))
      && (forall i | 0 <= i < |path| - 2 :: !(path[i] == ':' && path[i + 1] == '/' && path[i + 2] == '/'))
      && (forall i | 0 <= i < |path| :: path[i] !in {' ', '\t', '\r', '\n', '\\'})
  {
    TwoDots(path);
    Scheme(path);
    hide Contains;
    assert forall i | 0 <= i < |path| :: path[i] in path;
  }

  lemma TwoDots(path: string)
    ensures Contains(path, "..") <==> exists i :: 0 <= i < |path| - 1 && path[i] == '.' && path[i + 1] == '.'
  {
    var two := "..";
    if Contains(path, two) {
      var i: nat :| i <= |path| && OccursAt(path, two, i);
      assert path[i..i + 2][0] == '.' && path[i..i + 2][1] == '.';
    }
    if exists i :: 0 <= i < |path| - 1 && path[i] == '.' && path[i + 1] == '.' {
      var i :| 0 <= i < |path| - 1 && path[i] == '.' && path[i + 1] == '.';
      assert path[i..i + 2] == two;
      assert OccursAt(path, two, i);
    }
  }

  lemma Scheme(path: string)
    ensures Contains(path, "://") <==>
      exists i :: 0 <= i < |path| - 2 && path[i] == ':' && path[i + 1] == '/' && path[i + 2] == '/'
  {
    var scheme := "://";
    if Contains(path, scheme) {
      var i: nat :| i <= |path| && OccursAt(path, scheme, i);
      assert path[i..i + 3][0] == ':' && path[i..i + 3][1] == '/' && path[i..i + 3][2] == '/';
    }
    if exists i :: 0 <= i < |path| - 2 && path[i] == ':' && path[i + 1] == '/' && path[i + 2] == '/' {
      var i :| 0 <= i < |path| - 2 && path[i] == ':' && path[i + 1] == '/' && path[i + 2] == '/';
      assert path[i..i + 3] == scheme;
      assert OccursAt(path, scheme, i);
    }
  }

  /** The paths of the objects */
  lemma PathsAre(ns: string, name: string)
    requires Sane(ns) && Sane(name)
    ensures NamespacePath(ns) == Ok("/api/v1/namespaces/" + ns)
    ensures CollectionPath(ns, "secrets") == Ok("/api/v1/namespaces/" + ns + "/secrets")
    ensures CollectionPath(ns, "hostedclusters")
         == Ok("/apis/hypershift.openshift.io/v1beta1/namespaces/" + ns + "/hostedclusters")
    ensures CollectionPath(ns, "nodepools")
         == Ok("/apis/hypershift.openshift.io/v1beta1/namespaces/" + ns + "/nodepools")
    ensures NamedPath(ns, "secrets", name) == Ok("/api/v1/namespaces/" + ns + "/secrets/" + name)
    ensures NamedPath(ns, "hostedclusters", name)
         == Ok("/apis/hypershift.openshift.io/v1beta1/namespaces/" + ns + "/hostedclusters/" + name)
    ensures NamedPath(ns, "nodepools", name)
         == Ok("/apis/hypershift.openshift.io/v1beta1/namespaces/" + ns + "/nodepools/" + name)
  {
    hide IsSubdomain, CORE, HYPERSHIFT;
    BasesAre();
    var core, hypershift := CORE + "/", HYPERSHIFT + "/";
    assert "/" + "secrets" == "/secrets" && "/" + "secrets" + "/" == "/secrets/";
    assert "/" + "hostedclusters" == "/hostedclusters" && "/" + "nodepools" == "/nodepools";
    assert "/" + "hostedclusters" + "/" == "/hostedclusters/" && "/" + "nodepools" + "/" == "/nodepools/";
    Slashed(core + ns, "secrets", name);
    Slashed(hypershift + ns, "hostedclusters", name);
    Slashed(hypershift + ns, "nodepools", name);
  }

  lemma BasesAre()
    ensures CORE + "/" == "/api/v1/namespaces/"
    ensures HYPERSHIFT + "/" == "/apis/hypershift.openshift.io/v1beta1/namespaces/"
  {
  }

  lemma Slashed(a: string, b: string, c: string)
    ensures a + "/" + b == a + ("/" + b) && a + "/" + b + "/" + c == a + ("/" + b + "/") + c
  {
  }
}
