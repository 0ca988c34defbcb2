/** The operator's install flags: the controller's defaults merged with those of a ConfigMap that
    tenants may write. */
module InstallFlags {
  import opened Basics
  import opened Strings

  const PLATFORM_MONITORING := "--platform-monitoring"
  const RHOBS_MONITORING := "--rhobs-monitoring"
  const METRICS_SET := "--metrics-set"
  const UWM_TELEMETRY := "--enable-uwm-telemetry-remote-write"
  const DEFAULTING_WEBHOOK := "--enable-defaulting-webhook"
  const VALIDATING_WEBHOOK := "--enable-validating-webhook"

  const SELF_MANAGED: seq<string> := [UWM_TELEMETRY, DEFAULTING_WEBHOOK, VALIDATING_WEBHOOK]

  /** Flags the controller derives itself: the ConfigMap may not set them. */
  const RESERVED: set<string> := {
    "--hypershift-image", "--image-refs", "--namespace", "--pull-secret",
    "--additional-trust-bundle",
    "--oidc-storage-provider-s3-secret", "--oidc-storage-provider-s3-credentials",
    "--oidc-storage-provider-s3-bucket-name", "--oidc-storage-provider-s3-region",
    "--aws-private-secret", "--aws-private-region", "--azure-private-secret",
    "--external-dns-secret", "--external-dns-domain-filter",
    "--external-dns-provider", "--external-dns-txt-owner-id" }

  predicate IsFlag(token: string) {
    HasPrefix(token, "--")
  }

  /** strings.Index for one character; the length of the string when there is none */
  function IndexOf(s: string, c: char): (i: nat)
    ensures i <= |s|
    ensures forall j | 0 <= j < i :: s[j] != c
    ensures i < |s| ==> s[i] == c
  {
    if s == "" || s[0] == c then 0 else 1 + IndexOf(s[1..], c)
  }

  /** The flag's name, without a value given after an equals sign */
  function FlagName(flag: string): string {
    var i := IndexOf(flag, '=');
    if 0 < i < |flag| then flag[..i] else flag
  }

  /** isReservedInstallFlag */
  predicate IsReserved(flag: string) {
    FlagName(flag) in RESERVED
  }

  /** contains */
  method Contains(list: seq<string>, flagToFind: string) returns (found: bool)
    ensures found <==> flagToFind in list
  {
    for i := 0 to |list|
      invariant flagToFind !in list[..i]
    {
      if list[i] == flagToFind {
        return true;
      }
    }
    return false;
  }

  /** What a flag's value is in a token list: the token after its first occurrence, unless that is
      itself a flag or there is none. */
  function ValueIn(s: seq<string>, e: string): string {
    if s == [] then ""
    else if s[0] == e then if |s| > 1 && !IsFlag(s[1]) then s[1] else ""
    else ValueIn(s[1..], e)
  }

  /** getParamValue */
  method GetParamValue(s: seq<string>, e: string) returns (value: string)
    ensures value == ValueIn(s, e)
  {
    assert s[0..] == s;
    for i := 0 to |s|
      invariant ValueIn(s, e) == ValueIn(s[i..], e)
    {
      if s[i] == e {
        if i == |s| - 1 {
          return "";
        }
        return if !IsFlag(s[i + 1]) then s[i + 1] else "";
      }
      assert s[i..][1..] == s[i + 1..];
    }
    return "";
  }

  // ---- the list as flags with their values ----

  /** A flag and its value; no value is the empty one. */
  datatype Entry = Entry(flag: string, value: string)

  function Tokens(e: Entry): seq<string> {
    if e.value == "" then [e.flag] else [e.flag, e.value]
  }

  function Flatten(entries: seq<Entry>): seq<string> {
    if entries == [] then []
    else Flatten(entries[..|entries| - 1]) + Tokens(entries[|entries| - 1])
  }

  predicate HasFlag(entries: seq<Entry>, flag: string) {
    exists i | 0 <= i < |entries| :: entries[i].flag == flag
  }

  /** Control plane telemetry, unless the ConfigMap removes it, with the ConfigMap's value if any. */
  function TelemetryDefault(toAdd: seq<string>, toRemove: seq<string>): seq<Entry> {
    var given := ValueIn(toAdd, PLATFORM_MONITORING);
    if PLATFORM_MONITORING in toRemove then []
    else [Entry(PLATFORM_MONITORING, if given == "" then "OperatorOnly" else given)]
  }

  /** The defaults, as the ConfigMap changes them. */
  function Defaults(toAdd: seq<string>, toRemove: seq<string>, rhobs: bool): seq<Entry> {
    TelemetryDefault(toAdd, toRemove) + MonitoringDefault(toRemove, rhobs)
  }

  function MonitoringDefault(toRemove: seq<string>, rhobs: bool): seq<Entry> {
    if rhobs then [Entry(RHOBS_MONITORING, "true"), Entry(METRICS_SET, "SRE")] else NotRemoved(toRemove, 3)
  }

  /** The first n self-managed flags without those to be removed. */
  function NotRemoved(toRemove: seq<string>, n: nat): seq<Entry>
    requires n <= 3
  {
    if n == 0 then []
    else NotRemoved(toRemove, n - 1) + if SELF_MANAGED[n - 1] in toRemove then [] else [Entry(SELF_MANAGED[n - 1], "")]
  }

  /** After the first n tokens of the ConfigMap's list. */
  function Extended(entries: seq<Entry>, toAdd: seq<string>, n: nat): seq<Entry>
    requires n <= |toAdd|
  {
    if n == 0 then entries
    else
      var before, flag := Extended(entries, toAdd, n - 1), toAdd[n - 1];
      if IsFlag(flag) && !HasFlag(before, flag) && !IsReserved(flag)
      then before + [Entry(flag, ValueIn(toAdd, flag))] else before
  }

  function AllEntries(toAdd: seq<string>, toRemove: seq<string>, rhobs: bool): seq<Entry> {
    Extended(Defaults(toAdd, toRemove, rhobs), toAdd, |toAdd|)
  }

  method TelemetryArgs(toAdd: seq<string>, toRemove: seq<string>) returns (args: seq<string>)
    ensures args == Flatten(TelemetryDefault(toAdd, toRemove))
  {
    hide IsFlag;
    args := [];
    var found := Contains(toRemove, PLATFORM_MONITORING);
    if !found {
      var value := "";
      found := Contains(toAdd, PLATFORM_MONITORING);
      if found {
        value := GetParamValue(toAdd, PLATFORM_MONITORING);
      } else {
        ValueOfAbsent(toAdd, PLATFORM_MONITORING);
      }
      if value == "" {
        value := "OperatorOnly";
      }
      args := [PLATFORM_MONITORING, value];
      FlattenAppend([], Entry(PLATFORM_MONITORING, value));
    }
  }

  method MonitoringArgs(toRemove: seq<string>, rhobs: bool) returns (args: seq<string>)
    ensures args == Flatten(MonitoringDefault(toRemove, rhobs))
  {
    hide IsFlag, Flatten, NotRemoved, RHOBS_MONITORING, METRICS_SET, SELF_MANAGED;
    if rhobs {
      args := [RHOBS_MONITORING, "true"];
      args := args + [METRICS_SET, "SRE"];
      FlattenTwo(Entry(RHOBS_MONITORING, "true"), Entry(METRICS_SET, "SRE"));
    } else {
      args := SelfManagedArgs(toRemove);
    }
  }

  method SelfManagedArgs(toRemove: seq<string>) returns (args: seq<string>)
    ensures args == Flatten(NotRemoved(toRemove, 3))
  {
    assert |SELF_MANAGED| == 3 && Flatten(NotRemoved(toRemove, 0)) == [];
    hide Flatten, NotRemoved, SELF_MANAGED;
    args := [];
    for i := 0 to |SELF_MANAGED|
      invariant args == Flatten(NotRemoved(toRemove, i))
    {
      var flag := SELF_MANAGED[i];
      NotRemovedStep(toRemove, i);
      var found := Contains(toRemove, flag);
      if !found {
        args := args + [flag];
      }
    }
  }

  lemma NotRemovedStep(toRemove: seq<string>, i: nat)
    requires i < 3 == |SELF_MANAGED|
    ensures var flag, before, after := SELF_MANAGED[i], NotRemoved(toRemove, i), NotRemoved(toRemove, i + 1);
      Flatten(after) == if flag in toRemove then Flatten(before) else Flatten(before) + [flag]
  {
    hide Flatten, SELF_MANAGED;
    var before := NotRemoved(toRemove, i);
    FlattenAppend(before, Entry(SELF_MANAGED[i], ""));
    assert before + [] == before;
  }

  /** The first half of buildOtherInstallFlags: the controller's defaults */
  method DefaultFlagArgs(toAdd: seq<string>, toRemove: seq<string>, rhobs: bool) returns (args: seq<string>)
    ensures args == Flatten(Defaults(toAdd, toRemove, rhobs))
  {
    hide TelemetryDefault, MonitoringDefault;
    args := TelemetryArgs(toAdd, toRemove);
    var more := MonitoringArgs(toRemove, rhobs);
    args := args + more;
    FlattenConcat(TelemetryDefault(toAdd, toRemove), MonitoringDefault(toRemove, rhobs));
  }

  /** buildOtherInstallFlags, for the two token lists of the ConfigMap */
  method BuildOtherInstallFlags(toAdd: seq<string>, toRemove: seq<string>, rhobs: bool) returns (args: seq<string>)
    ensures args == Flatten(AllEntries(toAdd, toRemove, rhobs))
  {
    hide IsReserved, IsFlag, HasFlag, Defaults, WellFormed;
    args := DefaultFlagArgs(toAdd, toRemove, rhobs);
    ghost var defaults := Defaults(toAdd, toRemove, rhobs);
    DefaultsWellFormed(toAdd, toRemove, rhobs);
    for i := 0 to |toAdd|
      invariant args == Flatten(Extended(defaults, toAdd, i))
    {
      var flag := toAdd[i];
      ghost var entries := Extended(defaults, toAdd, i);
      ExtendedWellFormed(defaults, toAdd, i);
      if IsFlag(flag) {
        FlattenFlags(entries, flag);
        var found := Contains(args, flag);
        if !found && !IsReserved(flag) {
          var flagVal := GetParamValue(toAdd, flag);
          args := args + if flagVal == "" then [flag] else [flag, flagVal];
          FlattenAppend(entries, Entry(flag, flagVal));
        }
      }
    }
  }

  lemma {:induction false} ValueOfAbsent(s: seq<string>, e: string)
    requires e !in s
    ensures ValueIn(s, e) == ""
  {
    if s != [] {
      ValueOfAbsent(s[1..], e);
    }
  }

  lemma FlattenAppend(entries: seq<Entry>, e: Entry)
    ensures Flatten(entries + [e]) == Flatten(entries) + Tokens(e)
  {
    assert (entries + [e])[..|entries|] == entries;
  }

  lemma FlattenTwo(a: Entry, b: Entry)
    ensures Flatten([a, b]) == Tokens(a) + Tokens(b)
  {
    assert Flatten([]) == [];
    hide Flatten, Tokens;
    FlattenAppend([], a);
    FlattenAppend([a], b);
    assert [] + [a] == [a] && [a] + [b] == [a, b];
  }

  lemma {:induction false} FlattenConcat(a: seq<Entry>, b: seq<Entry>)
    ensures Flatten(a + b) == Flatten(a) + Flatten(b)
  {
    assert Flatten([]) == [];
    hide *;
    if b == [] {
      assert a + b == a;
    } else {
      var front, last := b[..|b| - 1], b[|b| - 1];
      FlattenConcat(a, front);
      FlattenAppend(a + front, last);
      FlattenAppend(front, last);
      assert front + [last] == b;
      Associative(a, front, [last]);
      Associative(Flatten(a), Flatten(front), Tokens(last));
    }
  }

  // ---- well-formed lists ----

  /** Flags are flags, values are not, and no flag occurs twice. */
  predicate WellFormed(entries: seq<Entry>) {
    && (forall e <- entries :: IsFlag(e.flag) && !IsFlag(e.value))
    && (forall i, j | 0 <= i < j < |entries| :: entries[i].flag != entries[j].flag)
  }

  lemma {:induction false} ValueIsNoFlag(s: seq<string>, e: string)
    ensures !IsFlag(ValueIn(s, e))
  {
    if s != [] {
      ValueIsNoFlag(s[1..], e);
    }
  }

  lemma DefaultFlags()
    ensures forall f <- SELF_MANAGED + [PLATFORM_MONITORING, RHOBS_MONITORING, METRICS_SET] :: IsFlag(f)
    ensures PLATFORM_MONITORING != RHOBS_MONITORING && PLATFORM_MONITORING != METRICS_SET
    ensures RHOBS_MONITORING != METRICS_SET
    ensures PLATFORM_MONITORING !in SELF_MANAGED
    ensures UWM_TELEMETRY != DEFAULTING_WEBHOOK && UWM_TELEMETRY != VALIDATING_WEBHOOK
    ensures DEFAULTING_WEBHOOK != VALIDATING_WEBHOOK
    ensures !IsFlag("OperatorOnly") && !IsFlag("true") && !IsFlag("SRE") && !IsFlag("")
  {
    assert "OperatorOnly"[0] == 'O' && "true"[0] == 't' && "SRE"[0] == 'S' && "--"[0] == '-';
    assert PLATFORM_MONITORING[2] == 'p' && RHOBS_MONITORING[2] == 'r' && METRICS_SET[2] == 'm';
    assert UWM_TELEMETRY[2] == DEFAULTING_WEBHOOK[2] == VALIDATING_WEBHOOK[2] == 'e';
    assert UWM_TELEMETRY[9] == 'u' && DEFAULTING_WEBHOOK[9] == 'd' && VALIDATING_WEBHOOK[9] == 'v';
  }

  lemma SelfManagedDiffer(n: nat)
    requires 0 < n <= 3
    ensures SELF_MANAGED[..n] == SELF_MANAGED[..n - 1] + [SELF_MANAGED[n - 1]]
        && SELF_MANAGED[n - 1] !in SELF_MANAGED[..n - 1]
  {
    DefaultFlags();
  }

  lemma {:induction false} NotRemovedFlags(toRemove: seq<string>, n: nat)
    requires n <= 3
    ensures forall e <- NotRemoved(toRemove, n) :: e.value == "" && e.flag !in toRemove && e.flag in SELF_MANAGED[..n]
    ensures forall i, j | 0 <= i < j < |NotRemoved(toRemove, n)| ::
      NotRemoved(toRemove, n)[i].flag != NotRemoved(toRemove, n)[j].flag
    ensures forall f <- SELF_MANAGED[..n] :: f !in toRemove ==> HasFlag(NotRemoved(toRemove, n), f)
  {
    assert |SELF_MANAGED| == 3;
    hide SELF_MANAGED;
    if n > 0 {
      SelfManagedDiffer(n);
      NotRemovedFlags(toRemove, n - 1);
      var before, f := NotRemoved(toRemove, n - 1), SELF_MANAGED[n - 1];
      assert NotRemoved(toRemove, n) == before + if f in toRemove then [] else [Entry(f, "")];
      forall g | g in SELF_MANAGED[..n] && g !in toRemove ensures HasFlag(NotRemoved(toRemove, n), g) {
        if g == f {
          assert NotRemoved(toRemove, n)[|before|].flag == f;
        } else {
          var i :| 0 <= i < |before| && before[i].flag == g;
          assert NotRemoved(toRemove, n)[i].flag == g;
        }
      }
    }
  }

  lemma TelemetryWellFormed(toAdd: seq<string>, toRemove: seq<string>)
    ensures WellFormed(TelemetryDefault(toAdd, toRemove))
  {
    DefaultFlags();
    ValueIsNoFlag(toAdd, PLATFORM_MONITORING);
    hide IsFlag, ValueIn;
  }

  lemma MonitoringWellFormed(toRemove: seq<string>, rhobs: bool)
    ensures WellFormed(MonitoringDefault(toRemove, rhobs))
        && !HasFlag(MonitoringDefault(toRemove, rhobs), PLATFORM_MONITORING)
  {
    DefaultFlags();
    hide IsFlag, NotRemoved;
    NotRemovedFlags(toRemove, 3);
    assert SELF_MANAGED[..3] == SELF_MANAGED;
  }

  lemma DefaultsWellFormed(toAdd: seq<string>, toRemove: seq<string>, rhobs: bool)
    ensures WellFormed(Defaults(toAdd, toRemove, rhobs))
  {
    hide IsFlag, MonitoringDefault;
    TelemetryWellFormed(toAdd, toRemove);
    MonitoringWellFormed(toRemove, rhobs);
    WellFormedConcat(TelemetryDefault(toAdd, toRemove), MonitoringDefault(toRemove, rhobs));
  }

  lemma WellFormedConcat(a: seq<Entry>, b: seq<Entry>)
    requires WellFormed(a) && WellFormed(b) && forall i | 0 <= i < |a| :: !HasFlag(b, a[i].flag)
    ensures WellFormed(a + b)
  {
    hide IsFlag;
    var r := a + b;
    forall i, j | 0 <= i < j < |r| ensures r[i].flag != r[j].flag {
      assert i < |a| <= j ==> !HasFlag(b, a[i].flag);
    }
  }

  lemma {:induction false} ExtendedWellFormed(entries: seq<Entry>, toAdd: seq<string>, n: nat)
    requires WellFormed(entries) && n <= |toAdd|
    ensures WellFormed(Extended(entries, toAdd, n))
  {
    if n > 0 {
      ExtendedWellFormed(entries, toAdd, n - 1);
      ValueIsNoFlag(toAdd, toAdd[n - 1]);
    }
  }

  lemma TokensFlag(e: Entry, flag: string)
    requires IsFlag(flag) && !IsFlag(e.value)
    ensures multiset(Tokens(e))[flag] == if e.flag == flag then 1 else 0
  {
  }

  /** The flags among the tokens are the entries' flags, each exactly once. */
  lemma {:induction false} FlattenFlags(entries: seq<Entry>, flag: string)
    requires WellFormed(entries) && IsFlag(flag)
    ensures multiset(Flatten(entries))[flag] == if HasFlag(entries, flag) then 1 else 0
    ensures flag in Flatten(entries) <==> HasFlag(entries, flag)
  {
    if entries != [] {
      var last := |entries| - 1;
      var before := entries[..last];
      HasFlagLast(entries, flag);
      FlattenFlags(before, flag);
      TokensFlag(entries[last], flag);
      hide HasFlag, WellFormed, IsFlag;
    }
  }

  lemma HasFlagLast(entries: seq<Entry>, flag: string)
    requires WellFormed(entries) && entries != []
    ensures var before, last := entries[..|entries| - 1], entries[|entries| - 1];
      && WellFormed(before) && !IsFlag(last.value)
      && (HasFlag(entries, flag) <==> HasFlag(before, flag) || last.flag == flag)
      && (HasFlag(before, flag) ==> last.flag != flag)
  {
    hide IsFlag;
    assert entries[|entries| - 1] in entries;
  }

  // ---- what the result holds ----

  /** Reserved flags are told by the two characters after the dashes. */
  predicate Stem(c: char, d: char) {
    [c, d] in {"hy", "im", "na", "pu", "ad", "oi", "aw", "az", "ex"}
  }

  lemma NameStem(name: string)
    requires name in RESERVED
    ensures |name| >= 4 && name[0] == name[1] == '-' && Stem(name[2], name[3])
  {
  }

  lemma ReservedStem(flag: string)
    requires IsReserved(flag)
    ensures |flag| >= 4 && Stem(flag[2], flag[3]) && IsFlag(flag)
  {
    var name := FlagName(flag);
    NameStem(name);
    hide Stem, RESERVED;
    assert name <= flag && flag[0] == name[0] && flag[1] == name[1] && flag[2] == name[2] && flag[3] == name[3];
  }

  lemma OtherStem(f: string, stem: string)
    requires |f| >= 4 && |stem| == 2 && f[2] == stem[0] && f[3] == stem[1] && !Stem(stem[0], stem[1])
    ensures !IsReserved(f)
  {
    hide Stem, IsReserved;
    if IsReserved(f) {
      ReservedStem(f);
    }
  }

  lemma DefaultsNotReserved()
    ensures forall f <- SELF_MANAGED + [PLATFORM_MONITORING, RHOBS_MONITORING, METRICS_SET] :: !IsReserved(f)
  {
    hide IsReserved;
    OtherStem(PLATFORM_MONITORING, "pl");
    OtherStem(RHOBS_MONITORING, "rh");
    OtherStem(METRICS_SET, "me");
    OtherStem(UWM_TELEMETRY, "en");
    OtherStem(DEFAULTING_WEBHOOK, "en");
    OtherStem(VALIDATING_WEBHOOK, "en");
  }

  lemma HasFlagAppend(entries: seq<Entry>, e: Entry, flag: string)
    ensures HasFlag(entries + [e], flag) <==> HasFlag(entries, flag) || e.flag == flag
  {
    if e.flag == flag {
      assert (entries + [e])[|entries|].flag == flag;
    } else if HasFlag(entries, flag) {
      var i :| 0 <= i < |entries| && entries[i].flag == flag;
      assert (entries + [e])[i].flag == flag;
    }
  }

  /** Exactly the defaults and the ConfigMap's flags that are not reserved are there. */
  lemma {:induction false} FlagsPresent(entries: seq<Entry>, toAdd: seq<string>, n: nat, flag: string)
    requires n <= |toAdd|
    ensures HasFlag(Extended(entries, toAdd, n), flag)
       <==> HasFlag(entries, flag) || (flag in toAdd[..n] && IsFlag(flag) && !IsReserved(flag))
  {
    if n > 0 {
      FlagsPresent(entries, toAdd, n - 1, flag);
      var before := Extended(entries, toAdd, n - 1);
      assert toAdd[..n] == toAdd[..n - 1] + [toAdd[n - 1]];
      hide IsReserved, IsFlag, HasFlag;
      HasFlagAppend(before, Entry(toAdd[n - 1], ValueIn(toAdd, toAdd[n - 1])), flag);
    }
  }

  predicate IsDefault(toRemove: seq<string>, rhobs: bool, flag: string) {
    || (flag == PLATFORM_MONITORING && flag !in toRemove)
    || (rhobs && (flag == RHOBS_MONITORING || flag == METRICS_SET))
    || (!rhobs && flag in SELF_MANAGED && flag !in toRemove)
  }

  lemma DefaultsPresent(toAdd: seq<string>, toRemove: seq<string>, rhobs: bool, flag: string)
    ensures HasFlag(Defaults(toAdd, toRemove, rhobs), flag) <==> IsDefault(toRemove, rhobs, flag)
  {
    NotRemovedFlags(toRemove, 3);
    assert SELF_MANAGED[..3] == SELF_MANAGED;
    var telemetry := TelemetryDefault(toAdd, toRemove);
    var rest := if rhobs then [Entry(RHOBS_MONITORING, "true"), Entry(METRICS_SET, "SRE")] else NotRemoved(toRemove, 3);
    HasFlagConcat(telemetry, rest, flag);
    if rhobs {
      assert rest[0].flag == RHOBS_MONITORING && rest[1].flag == METRICS_SET;
    } else if HasFlag(rest, flag) {
      var i :| 0 <= i < |rest| && rest[i].flag == flag;
      assert rest[i] in rest;
    }
    if telemetry != [] {
      assert telemetry[0].flag == PLATFORM_MONITORING;
    }
  }

  lemma HasFlagConcat(a: seq<Entry>, b: seq<Entry>, flag: string)
    ensures HasFlag(a + b, flag) <==> HasFlag(a, flag) || HasFlag(b, flag)
  {
    if i :| 0 <= i < |b| && b[i].flag == flag {
      assert (a + b)[|a| + i].flag == flag;
    }
    if i :| 0 <= i < |a| && a[i].flag == flag {
      assert (a + b)[i].flag == flag;
    }
  }

  // ---- values ----

  lemma {:induction false} SkipPrefix(a: seq<string>, b: seq<string>, e: string)
    requires e !in a
    ensures ValueIn(a + b, e) == ValueIn(b, e)
  {
    if a == [] {
      assert a + b == b;
    } else {
      SkipPrefix(a[1..], b, e);
      assert (a + b)[1..] == a[1..] + b;
    }
  }

  lemma HeadValue(x: Entry, rest: seq<string>)
    requires IsFlag(x.flag) && !IsFlag(x.value) && (rest == [] || IsFlag(rest[0]))
    ensures ValueIn(Tokens(x) + rest, x.flag) == x.value
  {
    var t := Tokens(x) + rest;
    assert t[0] == x.flag;
  }

  /** In a well-formed list each flag has its entry's value, whatever flag follows the list. */
  lemma {:induction false} FlattenValue(entries: seq<Entry>, rest: seq<string>, e: Entry)
    requires WellFormed(entries) && e in entries
    requires rest == [] || IsFlag(rest[0])
    ensures ValueIn(Flatten(entries) + rest, e.flag) == e.value
  {
    var last := |entries| - 1;
    var before, x := entries[..last], entries[last];
    assert x in entries && IsFlag(x.flag);
    HasFlagLast(entries, x.flag);
    hide WellFormed, HasFlag, IsFlag, ValueIn;
    assert e != x ==> e in before by {
      assert entries == before + [x];
    }
    assert Flatten(entries) == Flatten(before) + Tokens(x);
    assert rest == [] || IsFlag((Tokens(x) + rest)[0]) by { hide Flatten; }
    hide Flatten, Tokens;
    Associative(Flatten(before), Tokens(x), rest);
    if e != x {
      FlattenValue(before, Tokens(x) + rest, e);
    } else {
      FlattenFlags(before, x.flag);
      SkipPrefix(Flatten(before), Tokens(x) + rest, x.flag);
      HeadValue(x, rest);
    }
  }

  lemma {:induction false} AddedEntries(entries: seq<Entry>, toAdd: seq<string>, n: nat, e: Entry)
    requires n <= |toAdd|
    ensures e in Extended(entries, toAdd, n) ==> e in entries || e.value == ValueIn(toAdd, e.flag)
    ensures e in entries ==> e in Extended(entries, toAdd, n)
  {
    if n > 0 {
      AddedEntries(entries, toAdd, n - 1, e);
    }
  }

  // ---- the properties ----

  /** No token of the result is reserved, and no flag occurs twice. */
  lemma NothingReservedNothingTwice(toAdd: seq<string>, toRemove: seq<string>, rhobs: bool, token: string)
    ensures var out := Flatten(AllEntries(toAdd, toRemove, rhobs));
      && (token in out ==> !IsReserved(token))
      && (IsFlag(token) ==> multiset(out)[token] <= 1)
  {
    var entries := AllEntries(toAdd, toRemove, rhobs);
    DefaultsWellFormed(toAdd, toRemove, rhobs);
    ExtendedWellFormed(Defaults(toAdd, toRemove, rhobs), toAdd, |toAdd|);
    hide Defaults, IsReserved;
    if IsFlag(token) {
      FlattenFlags(entries, token);
      FlagsPresent(Defaults(toAdd, toRemove, rhobs), toAdd, |toAdd|, token);
      DefaultsPresent(toAdd, toRemove, rhobs, token);
      DefaultsNotReserved();
    } else if IsReserved(token) {
      ReservedStem(token);
      assert false;
    }
  }

  /** A flag is in the result exactly when it is one of the defaults that apply or an unreserved flag
      the ConfigMap adds; so removing a flag does not undo adding it. */
  lemma FlagsOfResult(toAdd: seq<string>, toRemove: seq<string>, rhobs: bool, flag: string)
    requires IsFlag(flag)
    ensures flag in Flatten(AllEntries(toAdd, toRemove, rhobs))
       <==> IsDefault(toRemove, rhobs, flag) || (flag in toAdd && !IsReserved(flag))
  {
    DefaultsWellFormed(toAdd, toRemove, rhobs);
    ExtendedWellFormed(Defaults(toAdd, toRemove, rhobs), toAdd, |toAdd|);
    FlattenFlags(AllEntries(toAdd, toRemove, rhobs), flag);
    FlagsPresent(Defaults(toAdd, toRemove, rhobs), toAdd, |toAdd|, flag);
    assert toAdd[..|toAdd|] == toAdd;
    DefaultsPresent(toAdd, toRemove, rhobs, flag);
  }

  lemma EntryFor(toAdd: seq<string>, toRemove: seq<string>, rhobs: bool, e: Entry)
    requires e in AllEntries(toAdd, toRemove, rhobs)
    ensures ValueIn(Flatten(AllEntries(toAdd, toRemove, rhobs)), e.flag) == e.value
  {
    hide Defaults, IsReserved, ValueIn;
    var entries := AllEntries(toAdd, toRemove, rhobs);
    DefaultsWellFormed(toAdd, toRemove, rhobs);
    ExtendedWellFormed(Defaults(toAdd, toRemove, rhobs), toAdd, |toAdd|);
    FlattenValue(entries, [], e);
    assert Flatten(entries) + [] == Flatten(entries);
  }

  function DefaultValue(toAdd: seq<string>, flag: string): string {
    if flag == PLATFORM_MONITORING then
      if ValueIn(toAdd, flag) == "" then "OperatorOnly" else ValueIn(toAdd, flag)
    else if flag == RHOBS_MONITORING then "true"
    else if flag == METRICS_SET then "SRE"
    else ""
  }

  lemma DefaultEntry(toAdd: seq<string>, toRemove: seq<string>, rhobs: bool, flag: string)
    requires IsDefault(toRemove, rhobs, flag)
    ensures Entry(flag, DefaultValue(toAdd, flag)) in Defaults(toAdd, toRemove, rhobs)
  {
    hide ValueIn, IsFlag;
    DefaultFlags();
    if !rhobs && flag != PLATFORM_MONITORING {
      NotRemovedFlags(toRemove, 3);
      assert SELF_MANAGED[..3] == SELF_MANAGED;
      assert flag != RHOBS_MONITORING && flag != METRICS_SET by {
        assert flag[2] == 'e' && RHOBS_MONITORING[2] == 'r' && METRICS_SET[2] == 'm';
      }
      var rest := NotRemoved(toRemove, 3);
      var i :| 0 <= i < |rest| && rest[i].flag == flag;
      assert rest[i] in rest;
      assert rest[i] == Entry(flag, "");
    }
  }

  /** The values: a flag outside the defaults keeps the value it has in the ConfigMap's list; the
      telemetry default takes the ConfigMap's value if there is one; the other defaults keep theirs. */
  lemma ValuesOfResult(toAdd: seq<string>, toRemove: seq<string>, rhobs: bool, flag: string)
    requires flag in Flatten(AllEntries(toAdd, toRemove, rhobs)) && IsFlag(flag)
    ensures ValueIn(Flatten(AllEntries(toAdd, toRemove, rhobs)), flag)
         == if IsDefault(toRemove, rhobs, flag) then DefaultValue(toAdd, flag) else ValueIn(toAdd, flag)
  {
    var defaults, entries := Defaults(toAdd, toRemove, rhobs), AllEntries(toAdd, toRemove, rhobs);
    DefaultsWellFormed(toAdd, toRemove, rhobs);
    ExtendedWellFormed(defaults, toAdd, |toAdd|);
    FlattenFlags(entries, flag);
    DefaultsPresent(toAdd, toRemove, rhobs, flag);
    hide Defaults, IsReserved, ValueIn, Flatten, DefaultValue, IsDefault, IsFlag, WellFormed;
    if IsDefault(toRemove, rhobs, flag) {
      var e := Entry(flag, DefaultValue(toAdd, flag));
      DefaultEntry(toAdd, toRemove, rhobs, flag);
      AddedEntries(defaults, toAdd, |toAdd|, e);
      EntryFor(toAdd, toRemove, rhobs, e);
    } else {
      var i :| 0 <= i < |entries| && entries[i].flag == flag;
      AddedEntries(defaults, toAdd, |toAdd|, entries[i]);
      assert entries[i] in defaults ==> HasFlag(defaults, flag);
      EntryFor(toAdd, toRemove, rhobs, entries[i]);
    }
  }
}
