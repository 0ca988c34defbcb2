/** The paths the HCP proxy builds for the spoke's API server, and the checks on their parts. */
module ProxyPaths {
  import opened Strings

  datatype Result<T> = Ok(value: T) | Err

  predicate LowerAlnum(c: char) {
    'a' <= c <= 'z' || '0' <= c <= '9'
  }

  predicate LabelChar(c: char) {
    LowerAlnum(c) || c == '-'
  }

  /** A label of RFC 1123 in lower case, without its limit of 63 characters */
  predicate IsLabel(s: string) {
    s != "" && LowerAlnum(s[0]) && LowerAlnum(s[|s| - 1]) && forall c <- s :: LabelChar(c)
  }

  /** validation.IsDNS1123Subdomain: dot-separated labels, 253 characters at most */
  predicate IsSubdomain(s: string) {
    |s| <= 253 && forall l <- Split(s, '.') :: IsLabel(l)
  }

  /** sanitizeProxyName */
  function SanitizeProxyName(name: string): Result<string> {
    if name == "" then Err
    else if !IsSubdomain(name) then Err
    else Ok(name)
  }

  predicate Sane(name: string) {
    SanitizeProxyName(name).Ok?
  }

  predicate IsUnsafe(c: char) {
    c == ' ' || c == '\t' || c == '\r' || c == '\n' || c == '\\'
  }

  /** validateAPIPath */
  predicate ValidateAPIPath(path: string) {
    && HasPrefix(path, "/") && !Contains(path, "..") && !Contains(path, "://")
    && forall c <- path :: !IsUnsafe(c)
  }

  const CORE: string := "/api/v1/namespaces"
  const HYPERSHIFT: string := "/apis/hypershift.openshift.io/v1beta1/namespaces"
  const SECRETS := "secrets"
  const HOSTEDCLUSTERS := "hostedclusters"
  const NODEPOOLS := "nodepools"

  /** coreNamespaceAPIPath */
  function NamespacePath(ns: string): Result<string> {
    match SanitizeProxyName(ns)
    case Err => Err
    case Ok(ns) => Ok(CORE + "/" + ns)
  }

  /** hsCollectionAPIPath */
  function CollectionPath(ns: string, resource: string): Result<string> {
    match SanitizeProxyName(ns)
    case Err => Err
    case Ok(ns) =>
      if resource != HOSTEDCLUSTERS && resource != NODEPOOLS && resource != SECRETS then Err
      else if resource == SECRETS then Ok(CORE + "/" + ns + "/" + SECRETS)
      else Ok(HYPERSHIFT + "/" + ns + "/" + resource)
  }

  /** hsNamedAPIPath */
  function NamedPath(ns: string, resource: string, name: string): Result<string> {
    match CollectionPath(ns, resource)
    case Err => Err
    case Ok(base) =>
      match SanitizeProxyName(name)
      case Err => Err
      case Ok(name) => Ok(base + "/" + name)
  }

  // ---- every path built is valid ----

  predicate PathChar(c: char) {
    LabelChar(c) || c == '.' || c == '/'
  }

  /** Only path characters, and no two dots in a row. */
  predicate Plain(s: string) {
    && (forall c <- s :: PathChar(c))
    && forall i | 0 <= i < |s| - 1 :: s[i] == '.' ==> s[i + 1] != '.'
  }

  lemma PlainAppend(a: string, b: string)
    requires Plain(a) && Plain(b) && (b == "" || b[0] != '.')
    ensures Plain(a + b)
  {
    var s := a + b;
    forall i | 0 <= i < |s| - 1 && s[i] == '.' ensures s[i + 1] != '.' {
      if i + 1 < |a| {
        assert s[i] == a[i] && s[i + 1] == a[i + 1];
      } else if i + 1 > |a| {
        assert s[i] == b[i - |a|] && s[i + 1] == b[i + 1 - |a|];
      } else {
        assert s[i + 1] == b[0];
      }
    }
  }

  /** A plain path that starts with a slash passes the check. */
  lemma PlainIsValid(path: string)
    requires Plain(path) && path != "" && path[0] == '/'
    ensures ValidateAPIPath(path)
  {
    var two, scheme := "..", "://";
    forall i: nat, sub: string, j: nat | OccursAt(path, sub, i) && j < |sub| ensures path[i + j] == sub[j] {
      assert path[i..i + |sub|][j] == path[i + j];
    }
    assert forall i: nat | i < |path| :: path[i] in path;
    forall i: nat | i <= |path| ensures !OccursAt(path, two, i) && !OccursAt(path, scheme, i) {
      assert two[0] == two[1] == '.' && scheme[0] == ':';
    }
  }

  /** The shape of a valid name, without reference to its labels. */
  lemma {:induction false} LabelsArePlain(s: string)
    requires forall l <- Split(s, '.') :: IsLabel(l)
    ensures Plain(s) && s != "" && LowerAlnum(s[0])
  {
    var labels := Split(s, '.');
    var l := labels[0];
    assert IsLabel(l);
    SplitHead(s, '.');
    forall i | 0 <= i < |l| ensures l[i] != '.' {
      assert l[i] in l;
    }
    assert Plain(l);
    if |labels| > 1 {
      var t := s[|l| + 1..];
      LabelsArePlain(t);
      hide IsLabel, Split;
      assert s == l + "." + t;
      var dot := ".";
      PlainAppend(dot, t);
      AppendDotted(l, dot + t);
      assert l + "." + t == l + (dot + t);
    }
  }

  /** A string is its first piece, and what follows the separator splits into the other pieces. */
  lemma {:induction false} SplitHead(s: string, sep: char)
    ensures var pieces := Split(s, sep); var p := pieces[0];
      && p <= s && (|pieces| == 1 ==> s == p)
      && (|pieces| > 1 ==>
            && |p| < |s| && s[|p|] == sep && s == p + [sep] + s[|p| + 1..]
            && Split(s[|p| + 1..], sep) == pieces[1..])
  {
    if s != "" && s[0] != sep {
      SplitHead(s[1..], sep);
      var p := Split(s[1..], sep)[0];
      assert Split(s, sep)[0] == [s[0]] + p;
      assert s == [s[0]] + s[1..];
      if |Split(s, sep)| > 1 {
        assert s[1..][|p| + 1..] == s[|p| + 2..];
      }
    }
  }

  lemma NameIsPlain(name: string)
    requires Sane(name)
    ensures Plain("/" + name) && '/' !in name && name != ""
  {
    LabelsArePlain(name);
    var slash := "/";
    PlainAppend(slash, name);
    SubdomainHasNoSlash(name);
  }

  lemma {:induction false} SubdomainHasNoSlash(s: string)
    requires forall l <- Split(s, '.') :: IsLabel(l)
    ensures '/' !in s
  {
    SplitHead(s, '.');
    var l := Split(s, '.')[0];
    assert IsLabel(l);
    assert '/' !in l;
    if |Split(s, '.')| > 1 {
      SubdomainHasNoSlash(s[|l| + 1..]);
      assert s == l + "." + s[|l| + 1..];
    }
  }

  lemma CoreIsPlain()
    ensures Plain(CORE) && CORE[0] == '/'
  {
    var x, y := "/api/v1", "/namespaces";
    assert Plain(x) && Plain(y);
    PlainAppend(x, y);
  }

  lemma HypershiftIsPlain()
    ensures Plain(HYPERSHIFT) && HYPERSHIFT[0] == '/'
  {
    var a, b, c, d, e := "/apis/", "hypershift", ".openshift", ".io/v1beta1", "/namespaces";
    hide HYPERSHIFT;
    HypershiftPieces();
    PiecesArePlain(a, b, c, d, e);
    hide Plain;
    PlainAppend(a, b);
    AppendDotted(a + b, c);
    AppendDotted(a + b + c, d);
    PlainAppend(a + b + c + d, e);
  }

  lemma HypershiftPieces()
    ensures HYPERSHIFT == "/apis/" + "hypershift" + ".openshift" + ".io/v1beta1" + "/namespaces"
  {
  }

  lemma PiecesArePlain(a: string, b: string, c: string, d: string, e: string)
    requires a == "/apis/" && b == "hypershift" && c == ".openshift" && d == ".io/v1beta1" && e == "/namespaces"
    ensures Plain(a) && Plain(b) && Plain(c) && Plain(d) && Plain(e)
  {
  }

  lemma AppendDotted(a: string, b: string)
    requires Plain(a) && Plain(b) && a != "" && a[|a| - 1] != '.'
    ensures Plain(a + b)
  {
    var s := a + b;
    forall i | 0 <= i < |s| - 1 && s[i] == '.' ensures s[i + 1] != '.' {
      if i + 1 < |a| {
        assert s[i] == a[i] && s[i + 1] == a[i + 1];
      } else if i >= |a| {
        assert s[i] == b[i - |a|] && s[i + 1] == b[i + 1 - |a|];
      }
    }
  }

  lemma ResourcesArePlain(resource: string)
    requires resource == HOSTEDCLUSTERS || resource == NODEPOOLS || resource == SECRETS
    ensures Plain("/" + resource) && '/' !in resource
  {
    var a, b, c, d := "hosted", "clusters", "nodepools", "secrets";
    assert Plain(a) && Plain(b) && Plain(c) && Plain(d) && '/' !in a && '/' !in b;
    PlainAppend(a, b);
    var slash := "/";
    assert resource[0] != '.';
    PlainAppend(slash, resource);
  }

  /** What a path names on the spoke */
  datatype Target =
    | Namespace(ns: string)
    | Collection(ns: string, resource: string)
    | Named(ns: string, resource: string, name: string)

  function PathOf(t: Target): Result<string> {
    match t
    case Namespace(ns) => NamespacePath(ns)
    case Collection(ns, resource) => CollectionPath(ns, resource)
    case Named(ns, resource, name) => NamedPath(ns, resource, name)
  }

  /** A path is built exactly for valid names and the three known resources. */
  lemma PathIsBuilt(t: Target)
    ensures PathOf(t).Ok? <==>
      && Sane(t.ns) && (t.Named? ==> Sane(t.name))
      && (t.Collection? || t.Named? ==>
            t.resource == HOSTEDCLUSTERS || t.resource == NODEPOOLS || t.resource == SECRETS)
  {
  }

  function Base(t: Target): string {
    if t.Namespace? || t.resource == SECRETS then CORE else HYPERSHIFT
  }

  function Segments(t: Target): seq<string> {
    match t
    case Namespace(ns) => [ns]
    case Collection(ns, resource) => [ns, resource]
    case Named(ns, resource, name) => [ns, resource, name]
  }

  lemma JoinTwo(a: string, b: string)
    ensures Join([a, b], '/') == a + "/" + b
  {
    assert [a, b][1..] == [b];
  }

  lemma JoinThree(a: string, b: string, c: string)
    ensures Join([a, b, c], '/') == a + "/" + b + "/" + c
  {
    assert [a, b, c][1..] == [b, c];
    JoinTwo(b, c);
    assert a + "/" + b + "/" + c == a + "/" + (b + "/" + c);
  }

  lemma JoinFour(a: string, b: string, c: string, d: string)
    ensures Join([a, b, c, d], '/') == a + "/" + b + "/" + c + "/" + d
  {
    assert [a, b, c, d][1..] == [b, c, d];
    JoinThree(b, c, d);
    assert a + "/" + b + "/" + c + "/" + d == a + "/" + (b + "/" + c + "/" + d);
  }

  lemma NamespacePathSegments(base: string, ns: string)
    ensures base + "/" + ns == base + Join(["", ns], '/')
  {
    JoinTwo("", ns);
    assert "" + "/" + ns == "/" + ns;
    assert base + "/" + ns == base + ("/" + ns);
  }

  lemma CollectionPathSegments(base: string, ns: string, resource: string)
    ensures base + "/" + ns + "/" + resource == base + Join(["", ns, resource], '/')
  {
    JoinThree("", ns, resource);
    assert "" + "/" + ns == "/" + ns;
    assert base + "/" + ns + "/" + resource == base + ("/" + ns + "/" + resource);
  }

  lemma NamedPathSegments(base: string, ns: string, resource: string, name: string)
    ensures base + "/" + ns + "/" + resource + "/" + name == base + Join(["", ns, resource, name], '/')
  {
    JoinFour("", ns, resource, name);
    assert "" + "/" + ns == "/" + ns;
    assert base + "/" + ns + "/" + resource + "/" + name == base + ("/" + ns + "/" + resource + "/" + name);
  }

  /** A path is its base followed by its segments. */
  lemma PathSegments(t: Target)
    requires PathOf(t).Ok?
    ensures PathOf(t).value == Base(t) + Join([""] + Segments(t), '/')
  {
    hide Sane, IsSubdomain, Join;
    var base, ns := Base(t), t.ns;
    match t {
      case Namespace(_) =>
        NamespacePathSegments(base, ns);
        assert [""] + Segments(t) == ["", ns];
      case Collection(_, resource) =>
        CollectionPathSegments(base, ns, resource);
        assert [""] + Segments(t) == ["", ns, resource];
      case Named(_, resource, name) =>
        NamedPathSegments(base, ns, resource, name);
        assert [""] + Segments(t) == ["", ns, resource, name];
    }
  }

  lemma PlainStep(base: string, name: string)
    requires Plain(base) && HasPrefix(base, "/") && Plain("/" + name)
    ensures Plain(base + "/" + name) && HasPrefix(base + "/" + name, "/")
  {
    PlainAppend(base, "/" + name);
    assert base + "/" + name == base + ("/" + name);
  }

  /** Every path that is built passes the check on its way out. */
  lemma PathsAreValid(t: Target)
    requires PathOf(t).Ok?
    ensures ValidateAPIPath(PathOf(t).value)
  {
    var base := Base(t);
    assert Plain(base) && base[0] == '/' by {
      CoreIsPlain();
      HypershiftIsPlain();
    }
    NameIsPlain(t.ns);
    if !t.Namespace? {
      ResourcesArePlain(t.resource);
    }
    if t.Named? {
      NameIsPlain(t.name);
    }
    hide Plain, Sane, IsSubdomain, ValidateAPIPath;
    PlainStep(base, t.ns);
    if !t.Namespace? {
      PlainStep(base + "/" + t.ns, t.resource);
    }
    if t.Named? {
      PlainStep(base + "/" + t.ns + "/" + t.resource, t.name);
    }
    PlainIsValid(PathOf(t).value);
  }

  lemma SegmentsHaveNoSlash(t: Target)
    requires PathOf(t).Ok?
    ensures forall s <- [""] + Segments(t) :: '/' !in s
  {
    NameIsPlain(t.ns);
    if !t.Namespace? {
      ResourcesArePlain(t.resource);
    }
    if t.Named? {
      NameIsPlain(t.name);
    }
  }

  lemma BasesDiffer(a: string, b: string)
    ensures CORE + a != HYPERSHIFT + b
  {
    var core, hypershift := "/api/v1", "/apis/";
    assert (CORE + a)[4] == core[4] == '/';
    assert (HYPERSHIFT + b)[4] == hypershift[4] == 's';
  }

  /** No two targets share a path. */
  lemma PathsAreInjective(t: Target, u: Target)
    requires PathOf(t).Ok? && PathOf(u).Ok? && PathOf(t) == PathOf(u)
    ensures t == u
  {
    hide Sane, IsSubdomain, Split;
    var a, b := Join([""] + Segments(t), '/'), Join([""] + Segments(u), '/');
    PathSegments(t);
    PathSegments(u);
    BasesDiffer(a, b);
    BasesDiffer(b, a);
    assert Base(t) == Base(u);
    assert a == (Base(t) + a)[|Base(t)|..] == (Base(u) + b)[|Base(u)|..] == b;
    SegmentsHaveNoSlash(t);
    SegmentsHaveNoSlash(u);
    SplitJoin([""] + Segments(t), '/');
    SplitJoin([""] + Segments(u), '/');
    assert ([""] + Segments(t))[1..] == Segments(t) && ([""] + Segments(u))[1..] == Segments(u);
    assert |Segments(t)| == |Segments(u)|;
    SameSegments(t, u);
  }

  lemma SameSegments(t: Target, u: Target)
    requires Segments(t) == Segments(u)
    ensures t == u
  {
    var a, b := Segments(t), Segments(u);
    assert a[0] == b[0];
    assert |a| > 1 ==> a[1] == b[1];
    assert |a| > 2 ==> a[2] == b[2];
  }
}
