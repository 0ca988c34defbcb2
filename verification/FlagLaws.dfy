/** What the install job's flags are, in terms of the text of the ConfigMap and the flags themselves. */
module FlagLaws {
  import opened InstallFlags
  import opened Upgrade
  import opened UpgradeRuns

  // ---- words ----

  /** Below 128 the spaces are the six of ASCII. */
  lemma Spaces(c: char)
    ensures c < '\U{80}' ==> (IsSpace(c) <==> c in {' ', '\t', '\n', '\U{B}', '\U{C}', '\r'})
  {
  }

  lemma {:induction false} FieldsFromWord(word: string, w: string)
    requires (forall c <- w :: !IsSpace(c)) && word + w != ""
    ensures FieldsFrom(word, w) == [word + w]
    decreases |w|
  {
    hide IsSpace;
    if w != "" {
      assert word + [w[0]] + w[1..] == word + w;
      FieldsFromWord(word + [w[0]], w[1..]);
    } else {
      assert word + w == word;
    }
  }

  lemma {:induction false} FieldsFromAround(word: string, a: string, c: char, b: string)
    requires IsSpace(c)
    ensures FieldsFrom(word, a + [c] + b) == FieldsFrom(word, a) + Fields(b)
    decreases |a|
  {
    var s := a + [c] + b;
    if a == "" {
      assert s[1..] == b && s[0] == c;
    } else {
      assert s[1..] == a[1..] + [c] + b && s[0] == a[0];
      hide IsSpace;
      FieldsFromAround(if IsSpace(a[0]) then "" else word + [a[0]], a[1..], c, b);
    }
  }

  /** A text is cut at every space into its words: none in the empty text, one in a text without spaces, and
      around a space those before it and those after it. */
  lemma WordsOf(w: string, a: string, c: char, b: string)
    requires w != "" && (forall x <- w :: !IsSpace(x)) && IsSpace(c)
    ensures Fields("") == [] && Fields(w) == [w] && Fields(a + [c] + b) == Fields(a) + Fields(b)
  {
    FieldsFromWord("", w);
    FieldsFromAround("", a, c, b);
    assert "" + w == w;
    hide FieldsFrom, IsSpace;
  }

  /** Equal but for the case of ASCII letters */
  lemma EqualFoldExactly(a: string, b: string)
    ensures EqualFold(a, b) <==> |a| == |b| && forall i | 0 <= i < |a| ::
      || a[i] == b[i]
      || ('a' <= a[i] <= 'z' && b[i] as int == a[i] as int - 32)
      || ('a' <= b[i] <= 'z' && a[i] as int == b[i] as int - 32)
  {
  }

  // ---- values ----

  /** The value of a flag in a list: the token after its first occurrence, but none if that token starts with
      two dashes or there is none. */
  lemma ValueExactly(a: seq<string>, flag: string, value: string, b: seq<string>)
    requires flag !in a
    ensures ValueIn(a + [flag, value] + b, flag) == if "--" <= value then "" else value
    ensures ValueIn(a + [flag], flag) == "" && ValueIn(a, flag) == ""
  {
    ValueOfAbsent(a, flag);
    SkipPrefix(a, [flag, value] + b, flag);
    SkipPrefix(a, [flag], flag);
    assert a + [flag, value] + b == a + ([flag, value] + b);
  }

  // ---- reserved flags ----

  /** The flags that the controller derives itself, by what they are about */
  predicate IsImageFlag(name: string) {
    name in {"--hypershift-image", "--image-refs", "--namespace", "--pull-secret", "--additional-trust-bundle"}
  }

  predicate IsOidcSecretFlag(name: string) {
    name in {"--oidc-storage-provider-s3-secret", "--oidc-storage-provider-s3-credentials"}
  }

  predicate IsOidcBucketFlag(name: string) {
    name in {"--oidc-storage-provider-s3-bucket-name", "--oidc-storage-provider-s3-region"}
  }

  predicate IsPrivateFlag(name: string) {
    name in {"--aws-private-secret", "--aws-private-region", "--azure-private-secret"}
  }

  predicate IsDnsFlag(name: string) {
    name in {"--external-dns-secret", "--external-dns-domain-filter", "--external-dns-provider",
             "--external-dns-txt-owner-id"}
  }

  /** The sixteen flags that a ConfigMap may not set */
  predicate OfTheSixteen(name: string) {
    IsImageFlag(name) || IsOidcSecretFlag(name) || IsOidcBucketFlag(name) || IsPrivateFlag(name) || IsDnsFlag(name)
  }

  lemma TheSixteen(name: string)
    ensures OfTheSixteen(name) <==> name in RESERVED
  {
  }

  lemma NoEqualsInImageFlag(name: string)
    requires IsImageFlag(name)
    ensures '=' !in name && name != ""
  {
  }

  lemma NoEqualsInOidcSecretFlag(name: string)
    requires IsOidcSecretFlag(name)
    ensures '=' !in name && name != ""
  {
  }

  lemma NoEqualsInOidcBucketFlag(name: string)
    requires IsOidcBucketFlag(name)
    ensures '=' !in name && name != ""
  {
  }

  lemma NoEqualsInPrivateFlag(name: string)
    requires IsPrivateFlag(name)
    ensures '=' !in name && name != ""
  {
  }

  lemma NoEqualsInDnsFlag(name: string)
    requires IsDnsFlag(name)
    ensures '=' !in name && name != ""
  {
  }

  lemma NoEquals(name: string)
    requires OfTheSixteen(name)
    ensures '=' !in name && name != ""
  {
    hide IsImageFlag, IsOidcSecretFlag, IsOidcBucketFlag, IsPrivateFlag, IsDnsFlag;
    if IsImageFlag(name) {
      NoEqualsInImageFlag(name);
    } else if IsOidcSecretFlag(name) {
      NoEqualsInOidcSecretFlag(name);
    } else if IsOidcBucketFlag(name) {
      NoEqualsInOidcBucketFlag(name);
    } else if IsPrivateFlag(name) {
      NoEqualsInPrivateFlag(name);
    } else {
      NoEqualsInDnsFlag(name);
    }
  }

  lemma {:induction false} IndexOfFirst(a: string, c: char, b: string)
    requires c !in a
    ensures IndexOf(a + [c] + b, c) == |a| && IndexOf(a, c) == |a|
  {
    if a != "" {
      assert (a + [c] + b)[1..] == a[1..] + [c] + b;
      IndexOfFirst(a[1..], c, b);
    }
  }

  /** One of the sixteen, alone or with a value after an equals sign, is reserved. */
  lemma ReservedForms(name: string, value: string)
    requires OfTheSixteen(name)
    ensures IsReserved(name) && IsReserved(name + "=" + value)
  {
    hide OfTheSixteen, RESERVED, FlagName;
    TheSixteen(name);
    NoEquals(name);
    NameOfForms(name, value);
  }

  lemma NameOfForms(name: string, value: string)
    requires name != "" && '=' !in name
    ensures FlagName(name) == name && FlagName(name + "=" + value) == name
  {
    IndexOfFirst(name, '=', value);
    hide IndexOf;
    assert (name + "=" + value)[..|name|] == name;
  }

  /** And nothing else is. */
  lemma ReservedOnly(flag: string) returns (name: string, value: string)
    requires IsReserved(flag)
    ensures OfTheSixteen(name) && (flag == name || flag == name + "=" + value)
  {
    name, value := FlagName(flag), "";
    TheSixteen(name);
    hide OfTheSixteen, RESERVED;
    var i := IndexOf(flag, '=');
    if 0 < i < |flag| {
      value := flag[i + 1..];
      assert flag == name + "=" + value;
    }
  }

  /** None of the sixteen, alone or with a value after an equals sign, is ever among the other flags that the
      job gets, whatever the ConfigMap says. */
  lemma TheSixteenNeverPass(toAdd: seq<string>, toRemove: seq<string>, rhobs: bool, name: string, value: string)
    requires OfTheSixteen(name)
    ensures var out := Flatten(AllEntries(toAdd, toRemove, rhobs)); name !in out && name + "=" + value !in out
  {
    ReservedForms(name, value);
    hide OfTheSixteen, IsReserved, AllEntries, Flatten;
    NothingReservedNothingTwice(toAdd, toRemove, rhobs, name);
    NothingReservedNothingTwice(toAdd, toRemove, rhobs, name + "=" + value);
  }

  /** Every other token of the list that starts with two dashes is. */
  lemma AllOthersPass(toAdd: seq<string>, toRemove: seq<string>, rhobs: bool, flag: string)
    requires flag in toAdd && "--" <= flag
    requires !OfTheSixteen(flag) && forall name, value :: OfTheSixteen(name) ==> flag != name + "=" + value
    ensures flag in Flatten(AllEntries(toAdd, toRemove, rhobs))
  {
    hide OfTheSixteen, IsReserved, AllEntries, Flatten;
    if IsReserved(flag) {
      var name, value := ReservedOnly(flag);
      assert false;
    }
    FlagsOfResult(toAdd, toRemove, rhobs, flag);
  }

  /** The same for the whole install: the job gets none of the sixteen from the ConfigMap, in either form. What
      it gets of them are the controller's own arguments. */
  lemma TenantsCannotSetTheSixteen(
    cfg: Config, s: State, atStartup: bool, io: InstallIO, name: string, value: string)
    requires Install(cfg, s, atStartup, io).1.Installed? && OfTheSixteen(name)
    ensures var args, own := Install(cfg, s, atStartup, io).1.args, OwnArgs(cfg, io);
      && own <= args && name !in args[|own|..] && name + "=" + value !in args[|own|..]
  {
    InstalledArgs(cfg, s, atStartup, io);
    hide Install, OwnArgs, AllEntries, Flatten, OfTheSixteen, ToAdd, ToRemove;
    TheSixteenNeverPass(ToAdd(Got(io.flags)), ToRemove(Got(io.flags)), cfg.rhobs, name, value);
    var own, other := OwnArgs(cfg, io), OtherArgs(cfg, Got(io.flags));
    assert (own + other)[|own|..] == other;
  }

  /** The defaults, when the ConfigMap says nothing */
  lemma DefaultsAlone()
    ensures Flatten(AllEntries([], [], false)) == [
      "--platform-monitoring", "OperatorOnly", "--enable-uwm-telemetry-remote-write",
      "--enable-defaulting-webhook", "--enable-validating-webhook"]
  {
    var a, b := Entry("--platform-monitoring", "OperatorOnly"), Entry("--enable-uwm-telemetry-remote-write", "");
    var c, d := Entry("--enable-defaulting-webhook", ""), Entry("--enable-validating-webhook", "");
    assert TelemetryDefault([], []) == [a];
    assert NotRemoved([], 0) == [] && NotRemoved([], 1) == [b] && NotRemoved([], 2) == [b, c];
    assert NotRemoved([], 3) == [b, c, d];
    assert AllEntries([], [], false) == [a] + [b, c, d] == [a, b, c] + [d];
    FlattenOf(a, b, c);
    FlattenAppend([a, b, c], d);
  }

  lemma DefaultsForRhobs()
    ensures Flatten(AllEntries([], [], true)) == [
      "--platform-monitoring", "OperatorOnly", "--rhobs-monitoring", "true", "--metrics-set", "SRE"]
  {
    var a, b := Entry("--platform-monitoring", "OperatorOnly"), Entry("--rhobs-monitoring", "true");
    var c := Entry("--metrics-set", "SRE");
    assert TelemetryDefault([], []) == [a] && MonitoringDefault([], true) == [b, c];
    assert AllEntries([], [], true) == [a, b, c];
    FlattenOf(a, b, c);
  }

  lemma FlattenOf(a: Entry, b: Entry, c: Entry)
    ensures Flatten([a, b, c]) == Tokens(a) + Tokens(b) + Tokens(c)
  {
    FlattenTwo(a, b);
    FlattenAppend([a, b], c);
    assert [a, b] + [c] == [a, b, c];
  }

  /** Which flags the job gets beside the controller's own, in full */
  lemma FlagsInFull(toAdd: seq<string>, toRemove: seq<string>, rhobs: bool, flag: string)
    requires "--" <= flag
    ensures flag in Flatten(AllEntries(toAdd, toRemove, rhobs)) <==>
      || (flag in toAdd && !IsReserved(flag))
      || (flag == "--platform-monitoring" && flag !in toRemove)
      || (rhobs && (flag == "--rhobs-monitoring" || flag == "--metrics-set"))
      || (!rhobs && flag !in toRemove
          && (flag == "--enable-uwm-telemetry-remote-write" || flag == "--enable-defaulting-webhook"
              || flag == "--enable-validating-webhook"))
  {
    FlagsOfResult(toAdd, toRemove, rhobs, flag);
    hide IsReserved, AllEntries, Flatten;
  }

  /** The telemetry default gives way to a value in the ConfigMap. */
  lemma TelemetryGiven(toAdd: seq<string>, toRemove: seq<string>, rhobs: bool)
    requires "--platform-monitoring" !in toRemove
    ensures var given := ValueIn(toAdd, "--platform-monitoring");
      ValueIn(Flatten(AllEntries(toAdd, toRemove, rhobs)), "--platform-monitoring")
        == if given == "" then "OperatorOnly" else given
  {
    assert IsFlag("--platform-monitoring");
    hide ValueIn, IsReserved, AllEntries, Flatten;
    FlagsOfResult(toAdd, toRemove, rhobs, "--platform-monitoring");
    ValuesOfResult(toAdd, toRemove, rhobs, "--platform-monitoring");
  }
}
