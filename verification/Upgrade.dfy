/** The operator install and upgrade controller: its cached hub inputs, its flags, and the install. */
module Upgrade {
  import opened Basics
  import opened Strings
  import opened InstallFlags

  /** The data of a Secret or ConfigMap: nil, or a map. */
  type Data = Option<map<string, string>>

  datatype Object = Object(name: string, data: Data)

  const NOTHING := Object("", None)

  /** The answer of a read. */
  datatype Read = Present(obj: Object) | NotFound | Unreadable

  /** What the reader is left with when it ignores why a read failed. */
  function Got(r: Read): Object {
    if r.Present? then r.obj else NOTHING
  }

  function Value(o: Object, key: string): string {
    if o.data.Some? && key in o.data.value then o.data.value[key] else ""
  }

  predicate Has(o: Object, key: string) {
    o.data.Some? && key in o.data.value
  }

  // ---- strings.Fields and strings.EqualFold ----

  predicate IsSpace(c: char) {
    c in {'\t', '\n', '\U{B}', '\U{C}', '\r', ' ', '\U{85}', '\U{A0}', '\U{1680}', '\U{2028}', '\U{2029}',
          '\U{202F}', '\U{205F}', '\U{3000}'}
    || '\U{2000}' <= c <= '\U{200A}'
  }

  /** The words of s after the unfinished word given */
  function FieldsFrom(word: string, s: string): seq<string>
    decreases |s|
  {
    if s == "" then if word == "" then [] else [word]
    else if IsSpace(s[0]) then (if word == "" then [] else [word]) + FieldsFrom("", s[1..])
    else FieldsFrom(word + [s[0]], s[1..])
  }

  function Fields(s: string): seq<string> {
    FieldsFrom("", s)
  }

  function Lower(c: char): char {
    if 'A' <= c <= 'Z' then c - 'A' + 'a' else c
  }

  /** strings.EqualFold, for words whose letters have no case variant outside ASCII */
  predicate EqualFold(a: string, b: string) {
    |a| == |b| && forall i | 0 <= i < |a| :: Lower(a[i]) == Lower(b[i])
  }

  // ---- the inputs and the state ----

  /** All that an install takes from the hub. */
  datatype Inputs = Inputs(bucket: Object, privateLink: Object, azure: Object, extDns: Object, flags: Object,
                           images: Object)

  /** The controller's settings. */
  datatype Config = Config(pullSecret: bool, withOverride: bool, operatorImage: string, imageRefsFile: string,
                           rhobs: bool)

  /** The controller's fields, and in applied the inputs of the last install that got past the
      ownership check and returned without error. */
  datatype State = State(cached: Inputs, startup: bool, installFailed: bool, reinstallNeeded: bool,
                         awsPlatform: bool, applied: Option<Inputs>)

  /** The operator's deployment as found: whether it is marked as not managed here, and its arguments. */
  datatype Operator = Missing | OperatorUnreadable | Deployed(notByMCE: bool, args: seq<string>)

  datatype Namespace = Exists | Created | NotCreated | NamespaceUnreadable

  /** The answers to all calls of one install. */
  datatype InstallIO = InstallIO(
    operator: Operator, ns: Namespace, pullSecretCopied: bool,
    bucket: Read, privateLink: Read, azure: Read, extDns: Read, flags: Read, images: Read,
    bucketCopied: bool, privateLinkCopied: bool, azureCopied: bool, extDnsCopied: bool,
    imageStreamRead: bool, imagesApplied: bool, imagesDiffer: bool,
    local: Inputs, jobStarted: bool, jobSucceeded: bool,
    bucketSaved: bool, privateLinkSaved: bool, azureSaved: bool, extDnsSaved: bool, flagsSaved: bool)

  /** How an install ends. */
  datatype Outcome = NotOurs | Skipped | Installed(args: seq<string>) | Failed

  // ---- the parts of an install ----

  /** The credentials check of createAwsSpokeSecret */
  predicate ValidAws(secret: Object, regionRequired: bool) {
    && (Has(secret, "credentials") || (Has(secret, "aws-access-key-id") && Has(secret, "aws-secret-access-key")))
    && (regionRequired ==> Has(secret, "region"))
  }

  predicate BucketRejected(io: InstallIO) {
    io.bucket.Present? && (Value(io.bucket.obj, "bucket") == "" || !ValidAws(io.bucket.obj, true) || !io.bucketCopied)
  }

  predicate PrivateLinkRejected(io: InstallIO) {
    io.privateLink.Present? && (!ValidAws(io.privateLink.obj, true) || !io.privateLinkCopied)
  }

  predicate IsAws(io: InstallIO) {
    io.bucket.Present? || io.privateLink.Present?
  }

  predicate ExtDnsRejected(io: InstallIO) {
    io.extDns.Present? && ((IsAws(io) && !ValidAws(io.extDns.obj, false)) || !io.extDnsCopied)
  }

  function ToAdd(flags: Object): seq<string> {
    Fields(Value(flags, "installFlagsToAdd"))
  }

  function ToRemove(flags: Object): seq<string> {
    Fields(Value(flags, "installFlagsToRemove"))
  }

  predicate WantsAzure(flags: Object) {
    EqualFold(ValueIn(ToAdd(flags), "--private-platform"), "Azure")
  }

  predicate AzureRejected(io: InstallIO) {
    WantsAzure(Got(io.flags)) &&
    (ValueIn(ToAdd(Got(io.flags)), "--azure-pls-resource-group") == "" || !io.azure.Present? || !io.azureCopied)
  }

  predicate ImagesRejected(io: InstallIO) {
    !io.imageStreamRead || (Got(io.images).data.Some? && !io.imagesApplied)
  }

  /** The inputs an install works with. */
  function Used(cfg: Config, io: InstallIO): Inputs {
    Inputs(Got(io.bucket), Got(io.privateLink), Got(io.azure), Got(io.extDns), Got(io.flags),
           if cfg.withOverride then Got(io.images) else NOTHING)
  }

  /** The data of the secrets and of the install flags is what was saved after the last install. */
  predicate SameAsLocal(io: InstallIO) {
    && io.local.bucket.data == Got(io.bucket).data && io.local.privateLink.data == Got(io.privateLink).data
    && io.local.azure.data == Got(io.azure).data && io.local.extDns.data == Got(io.extDns).data
    && io.local.flags.data == Got(io.flags).data
  }

  const OIDC_BUCKET := "--oidc-storage-provider-s3-bucket-name"
  const OIDC_REGION := "--oidc-storage-provider-s3-region"
  const OIDC_SECRET := "--oidc-storage-provider-s3-secret"
  const OIDC_CREDENTIALS := "--oidc-storage-provider-s3-credentials"

  /** oidcFlagMatch */
  predicate OidcFlagMatch(arg: string, flag: string) {
    arg == flag || HasPrefix(arg, flag + "=")
  }

  predicate AnyMatch(args: seq<string>, flag: string) {
    exists arg <- args :: OidcFlagMatch(arg, flag)
  }

  predicate HasOidcArgs(args: seq<string>) {
    AnyMatch(args, OIDC_BUCKET) && AnyMatch(args, OIDC_REGION) &&
    (AnyMatch(args, OIDC_SECRET) || AnyMatch(args, OIDC_CREDENTIALS))
  }

  /** An argument matches at most one of the flags that are looked for separately. */
  lemma OidcFlagsDistinct(arg: string)
    ensures !(OidcFlagMatch(arg, OIDC_BUCKET) && OidcFlagMatch(arg, OIDC_REGION))
    ensures OidcFlagMatch(arg, OIDC_SECRET) || OidcFlagMatch(arg, OIDC_CREDENTIALS) ==>
      !OidcFlagMatch(arg, OIDC_BUCKET) && !OidcFlagMatch(arg, OIDC_REGION)
  {
    if OidcFlagMatch(arg, OIDC_BUCKET) { assert arg[27] == 'b'; }
    if OidcFlagMatch(arg, OIDC_REGION) { assert arg[27] == 'r'; }
    if OidcFlagMatch(arg, OIDC_SECRET) { assert arg[27] == 's'; }
    if OidcFlagMatch(arg, OIDC_CREDENTIALS) { assert arg[27] == 'c'; }
  }

  /** deploymentHasOIDCArgs: a bucket name, a region, and a secret in either form, in any order */
  method DeploymentHasOidcArgs(args: seq<string>) returns (r: bool)
    ensures r <==> HasOidcArgs(args)
  {
    var hasBucket, hasRegion, hasSecret := false, false, false;
    for i := 0 to |args|
      invariant hasBucket <==> AnyMatch(args[..i], OIDC_BUCKET)
      invariant hasRegion <==> AnyMatch(args[..i], OIDC_REGION)
      invariant hasSecret <==> AnyMatch(args[..i], OIDC_SECRET) || AnyMatch(args[..i], OIDC_CREDENTIALS)
    {
      var arg := args[i];
      OidcFlagsDistinct(arg);
      forall flag ensures AnyMatch(args[..i + 1], flag) <==> AnyMatch(args[..i], flag) || OidcFlagMatch(arg, flag) {
        AnyMatchAppend(args[..i], arg, flag);
        assert args[..i + 1] == args[..i] + [arg];
      }
      if OidcFlagMatch(arg, OIDC_BUCKET) {
        hasBucket := true;
      } else if OidcFlagMatch(arg, OIDC_REGION) {
        hasRegion := true;
      } else if OidcFlagMatch(arg, OIDC_SECRET) || OidcFlagMatch(arg, OIDC_CREDENTIALS) {
        hasSecret := true;
      }
    }
    assert args[..|args|] == args;
    return hasBucket && hasRegion && hasSecret;
  }

  lemma AnyMatchAppend(args: seq<string>, arg: string, flag: string)
    ensures AnyMatch(args + [arg], flag) <==> AnyMatch(args, flag) || OidcFlagMatch(arg, flag)
  {
    assert forall a :: a in args + [arg] <==> a in args || a == arg;
  }

  // ---- one install ----

  /** The arguments the controller builds itself. */
  function OwnArgs(cfg: Config, io: InstallIO): seq<string> {
    CredentialArgs(io) + AzureArgs(Got(io.flags)) + ImageArgs(cfg)
  }

  function CredentialArgs(io: InstallIO): seq<string> {
    ["--namespace", "hypershift"] + BucketArgs(io.bucket) + PrivateLinkArgs(io.privateLink) + ExtDnsArgs(io.extDns)
  }

  const AZURE_SECRET_NAME := "hypershift-operator-azure-credentials"

  function AzureArgs(flags: Object): seq<string> {
    if WantsAzure(flags) then ["--azure-private-secret", AZURE_SECRET_NAME] else []
  }

  function ImageArgs(cfg: Config): seq<string> {
    if cfg.withOverride then ["--image-refs", cfg.imageRefsFile] else ["--hypershift-image", cfg.operatorImage]
  }

  function BucketArgs(r: Read): seq<string> {
    if !r.Present? then []
    else [OIDC_BUCKET, Value(r.obj, "bucket"), OIDC_REGION, Value(r.obj, "region"),
          OIDC_SECRET, "hypershift-operator-oidc-provider-s3-credentials"]
  }

  function PrivateLinkArgs(r: Read): seq<string> {
    if !r.Present? then []
    else ["--aws-private-secret", "hypershift-operator-private-link-credentials",
          "--aws-private-region", Value(r.obj, "region"), "--private-platform", "AWS"]
  }

  function ExtDnsArgs(r: Read): seq<string> {
    if !r.Present? then []
    else ["--external-dns-secret", "hypershift-operator-external-dns-credentials",
          "--external-dns-domain-filter", Value(r.obj, "domain-filter"),
          "--external-dns-provider", Value(r.obj, "provider")]
         + if Has(r.obj, "txt-owner-id") then ["--external-dns-txt-owner-id", Value(r.obj, "txt-owner-id")] else []
  }

  function OtherArgs(cfg: Config, flags: Object): seq<string> {
    Flatten(AllEntries(ToAdd(flags), ToRemove(flags), cfg.rhobs))
  }

  /** A fresh start over an existing operator may find that nothing has to be done. */
  predicate CheckRequired(s: State, atStartup: bool, io: InstallIO) {
    io.operator.Deployed? && atStartup && !s.installFailed && io.ns.Exists?
  }

  predicate NothingToDo(io: InstallIO) {
    io.operator.Deployed? && !io.imagesDiffer && SameAsLocal(io) &&
    (!io.bucket.Present? || HasOidcArgs(io.operator.args))
  }

  /** The calls before the hub inputs are read. */
  predicate Prepared(cfg: Config, io: InstallIO) {
    && !io.operator.OperatorUnreadable?
    && !io.ns.NotCreated? && !io.ns.NamespaceUnreadable?
    && (cfg.pullSecret ==> io.pullSecretCopied)
  }

  predicate JobDone(io: InstallIO) {
    && io.jobStarted && io.jobSucceeded
    && (Got(io.bucket).name != "" ==> io.bucketSaved) && (Got(io.privateLink).name != "" ==> io.privateLinkSaved)
    && (Got(io.azure).name != "" ==> io.azureSaved) && (Got(io.extDns).name != "" ==> io.extDnsSaved)
    && (Got(io.flags).name != "" ==> io.flagsSaved)
  }

  function FirstSecretsCached(cfg: Config, s: State, io: InstallIO): State {
    s.(awsPlatform := IsAws(io),
       cached := s.cached.(bucket := Used(cfg, io).bucket, privateLink := Used(cfg, io).privateLink,
           azure := Used(cfg, io).azure))
  }

  function OthersCached(cfg: Config, s: State, io: InstallIO): State {
    s.(cached := s.cached.(extDns := Used(cfg, io).extDns, flags := Used(cfg, io).flags))
  }

  /** runHypershiftInstall */
  function Install(cfg: Config, s: State, atStartup: bool, io: InstallIO): (State, Outcome) {
    if io.operator.Deployed? && io.operator.notByMCE then (s, NotOurs)
    else if !Prepared(cfg, io) then (s, Failed)
    else
      var s1 := FirstSecretsCached(cfg, s, io);
      if BucketRejected(io) || PrivateLinkRejected(io) || ExtDnsRejected(io) then (s1, Failed)
      else
        var s2 := OthersCached(cfg, s1, io);
        if AzureRejected(io) then (s2, Failed)
        else Finish(cfg, s2, CheckRequired(s, atStartup, io), io)
  }

  /** The rest of an install, once the inputs are accepted */
  function Finish(cfg: Config, s: State, checkRequired: bool, io: InstallIO): (State, Outcome) {
    if cfg.withOverride && ImagesRejected(io) then (s, Failed)
    else
      var s' := if cfg.withOverride then s.(cached := s.cached.(images := Got(io.images))) else s;
      if cfg.withOverride && checkRequired && NothingToDo(io) then (s'.(applied := Some(Used(cfg, io))), Skipped)
      else if JobDone(io) then
        (s'.(applied := Some(Used(cfg, io))), Installed(OwnArgs(cfg, io) + OtherArgs(cfg, Got(io.flags))))
      else (s', Failed)
  }

  // ---- one tick ----

  /** The answers to all calls of one tick: the polls, and those of the install if it comes to one. */
  datatype TickIO = TickIO(
    disabled: bool, pollBucket: Read, pollExtDns: Read, pollPrivateLink: Read, pollAzure: Read, pollFlags: Read,
    pollImages: Read, install: InstallIO)

  datatype TickOutcome = Disabled | Idle | Attempt(outcome: Outcome)

  /** A poll shows a change when the read did not fail and the data differs. */
  predicate Differs(r: Read, cached: Object) {
    !r.Unreadable? && Got(r).data != cached.data
  }

  /** Some install option differs from what is cached. */
  predicate OptionsDiffer(c: Inputs, io: TickIO) {
    Differs(io.pollBucket, c.bucket) || Differs(io.pollExtDns, c.extDns) || Differs(io.pollPrivateLink, c.privateLink)
    || Differs(io.pollAzure, c.azure) || Differs(io.pollFlags, c.flags)
  }

  /** installOptionsChanged caches the first change it finds and looks no further. */
  function FirstChangeCached(c: Inputs, io: TickIO): Inputs {
    if Differs(io.pollBucket, c.bucket) then c.(bucket := Got(io.pollBucket))
    else if Differs(io.pollExtDns, c.extDns) then c.(extDns := Got(io.pollExtDns))
    else if Differs(io.pollPrivateLink, c.privateLink) then c.(privateLink := Got(io.pollPrivateLink))
    else if Differs(io.pollAzure, c.azure) then c.(azure := Got(io.pollAzure))
    else if Differs(io.pollFlags, c.flags) then c.(flags := Got(io.pollFlags))
    else c
  }

  /** The state after the polls, and whether an install is due. */
  function Polled(s: State, io: TickIO): (State, bool) {
    if s.startup || s.installFailed then (s, true)
    else if OptionsDiffer(s.cached, io) then (s.(cached := FirstChangeCached(s.cached, io)), true)
    else if Differs(io.pollImages, s.cached.images) then
      (s.(cached := s.cached.(images := Got(io.pollImages))), true)
    else (s, false)
  }

  /** The body of the loop in Start */
  function Tick(cfg: Config, s: State, io: TickIO): (State, TickOutcome) {
    if io.disabled then (s, Disabled)
    else
      var (s1, due) := Polled(s, io);
      if !due then (s1.(reinstallNeeded := false), Idle)
      else
        var (s2, outcome) := Install(cfg, s1.(reinstallNeeded := true), s.startup, io.install);
        if outcome.Failed? then (s2.(installFailed := true), Attempt(outcome))
        else (s2.(installFailed := false, startup := false), Attempt(outcome))
  }

  // ---- the controller ----

  class UpgradeController {
    const cfg: Config
    var bucketSecret: Object
    var extDnsSecret: Object
    var privateLinkSecret: Object
    var azurePrivateSecret: Object
    var imageOverrideConfigmap: Object
    var installFlagsConfigmap: Object
    var reinstallNeeded: bool
    var awsPlatform: bool
    var startup: bool
    var installfailed: bool
    ghost var applied: Option<Inputs>

    ghost function Now(): State
      reads this
    {
      State(Inputs(bucketSecret, privateLinkSecret, azurePrivateSecret, extDnsSecret, installFlagsConfigmap,
                   imageOverrideConfigmap),
            startup, installfailed, reinstallNeeded, awsPlatform, applied)
    }

    /** NewUpgradeController */
    constructor (cfg: Config)
      ensures this.cfg == cfg && Now() == Initial()
    {
      this.cfg := cfg;
      bucketSecret, extDnsSecret, privateLinkSecret := NOTHING, NOTHING, NOTHING;
      azurePrivateSecret, imageOverrideConfigmap, installFlagsConfigmap := NOTHING, NOTHING, NOTHING;
      reinstallNeeded, awsPlatform, startup, installfailed := false, false, true, false;
      applied := None;
    }

    /** installOptionsChanged */
    method InstallOptionsChanged(io: TickIO) returns (changed: bool)
      modifies this
      ensures changed == OptionsDiffer(old(Now()).cached, io)
      ensures Now() == old(Now()).(cached := FirstChangeCached(old(Now()).cached, io))
    {
      if Differs(io.pollBucket, bucketSecret) {
        bucketSecret := Got(io.pollBucket);
        return true;
      }
      if Differs(io.pollExtDns, extDnsSecret) {
        extDnsSecret := Got(io.pollExtDns);
        return true;
      }
      if Differs(io.pollPrivateLink, privateLinkSecret) {
        privateLinkSecret := Got(io.pollPrivateLink);
        return true;
      }
      if Differs(io.pollAzure, azurePrivateSecret) {
        azurePrivateSecret := Got(io.pollAzure);
        return true;
      }
      if Differs(io.pollFlags, installFlagsConfigmap) {
        installFlagsConfigmap := Got(io.pollFlags);
        return true;
      }
      return false;
    }

    /** upgradeImageCheck */
    method UpgradeImageCheck(io: TickIO) returns (changed: bool)
      modifies this
      ensures changed == Differs(io.pollImages, old(imageOverrideConfigmap))
      ensures Now() == if changed then old(Now()).(cached := old(Now()).cached.(images := Got(io.pollImages)))
                       else old(Now())
    {
      changed := Differs(io.pollImages, imageOverrideConfigmap);
      if changed {
        imageOverrideConfigmap := Got(io.pollImages);
      }
    }

    /** runHypershiftInstall from the first hub read to the caching of the external DNS secret */
    method CacheCredentials(io: InstallIO) returns (ok: bool, args: seq<string>)
      modifies this
      ensures ok == !(BucketRejected(io) || PrivateLinkRejected(io) || ExtDnsRejected(io))
      ensures ok ==> args == CredentialArgs(io)
      ensures var s := FirstSecretsCached(cfg, old(Now()), io);
        Now() == if ok then s.(cached := s.cached.(extDns := Got(io.extDns))) else s
    {
      hide ValidAws, BucketArgs, PrivateLinkArgs, ExtDnsArgs;
      bucketSecret := Got(io.bucket);
      privateLinkSecret := Got(io.privateLink);
      azurePrivateSecret := Got(io.azure);
      awsPlatform := io.bucket.Present? || io.privateLink.Present?;
      args := ["--namespace", "hypershift"];
      if io.bucket.Present? {
        if Value(io.bucket.obj, "bucket") == "" || !ValidAws(io.bucket.obj, true) || !io.bucketCopied {
          return false, [];
        }
      }
      args := args + BucketArgs(io.bucket);
      if io.privateLink.Present? {
        if !ValidAws(io.privateLink.obj, true) || !io.privateLinkCopied {
          return false, [];
        }
      }
      args := args + PrivateLinkArgs(io.privateLink);
      if io.extDns.Present? {
        if awsPlatform && !ValidAws(io.extDns.obj, false) {
          return false, [];
        }
        if !io.extDnsCopied {
          return false, [];
        }
      }
      args := args + ExtDnsArgs(io.extDns);
      extDnsSecret := Got(io.extDns);
      return true, args;
    }

    /** The part of runHypershiftInstall that reads the install flags */
    method CacheInstallFlags(io: InstallIO) returns (ok: bool, args: seq<string>)
      modifies this
      ensures ok == !AzureRejected(io)
      ensures ok ==> args == AzureArgs(Got(io.flags))
      ensures Now() == old(Now()).(cached := old(Now()).cached.(flags := Got(io.flags)))
    {
      installFlagsConfigmap := Got(io.flags);
      var installFlagsToAdd := ToAdd(Got(io.flags));
      var platform := GetParamValue(installFlagsToAdd, "--private-platform");
      if !EqualFold(platform, "Azure") {
        return true, [];
      }
      var group := GetParamValue(installFlagsToAdd, "--azure-pls-resource-group");
      if group == "" || !io.azure.Present? || !io.azureCopied {
        return false, [];
      }
      return true, ["--azure-private-secret", AZURE_SECRET_NAME];
    }

    /** The end of runHypershiftInstall: the job, and the local copies for the next start */
    method RunJob(io: InstallIO) returns (ok: bool)
      ensures ok == JobDone(io)
    {
      if !io.jobStarted || !io.jobSucceeded {
        return false;
      }
      if Got(io.bucket).name != "" && !io.bucketSaved {
        return false;
      }
      if Got(io.privateLink).name != "" && !io.privateLinkSaved {
        return false;
      }
      if Got(io.azure).name != "" && !io.azureSaved {
        return false;
      }
      if Got(io.extDns).name != "" && !io.extDnsSaved {
        return false;
      }
      return Got(io.flags).name == "" || io.flagsSaved;
    }

    /** runHypershiftInstall from the image override on */
    method FinishInstall(args: seq<string>, reinstallCheckRequired: bool, io: InstallIO) returns (outcome: Outcome)
      requires args == OwnArgs(cfg, io)
      requires reinstallCheckRequired ==> io.operator.Deployed?
      modifies this
      ensures (Now(), outcome) == Finish(cfg, old(Now()), reinstallCheckRequired, io)
    {
      hide JobDone, OwnArgs, HasOidcArgs, SameAsLocal, ToAdd, ToRemove, AllEntries, Flatten, Used;
      if cfg.withOverride {
        if ImagesRejected(io) {
          return Failed;
        }
        imageOverrideConfigmap := Got(io.images);
        if reinstallCheckRequired {
          var hasOidc := DeploymentHasOidcArgs(io.operator.args);
          if !(io.imagesDiffer || !SameAsLocal(io)) && (!io.bucket.Present? || hasOidc) {
            applied := Some(Used(cfg, io));
            return Skipped;
          }
        }
      }
      var others := BuildOtherInstallFlags(ToAdd(Got(io.flags)), ToRemove(Got(io.flags)), cfg.rhobs);
      var ok := RunJob(io);
      if !ok {
        return Failed;
      }
      applied := Some(Used(cfg, io));
      return Installed(args + others);
    }

    /** runHypershiftInstall */
    method RunHypershiftInstall(controllerStartup: bool, io: InstallIO) returns (outcome: Outcome)
      modifies this
      ensures (Now(), outcome) == Install(cfg, old(Now()), controllerStartup, io)
    {
      hide BucketRejected, PrivateLinkRejected, ExtDnsRejected, AzureRejected, CredentialArgs, AzureArgs, Finish;
      if io.operator.OperatorUnreadable? {
        return Failed;
      }
      if io.operator.Deployed? && io.operator.notByMCE {
        return NotOurs;
      }
      var reinstallCheckRequired := io.operator.Deployed? && controllerStartup && !installfailed;
      if io.ns.NotCreated? || io.ns.NamespaceUnreadable? {
        return Failed;
      } else if io.ns.Created? {
        reinstallCheckRequired := false;
      }
      if cfg.pullSecret && !io.pullSecretCopied {
        return Failed;
      }

      var ok, args := CacheCredentials(io);
      if !ok {
        return Failed;
      }
      var azureArgs;
      ok, azureArgs := CacheInstallFlags(io);
      if !ok {
        return Failed;
      }
      args := args + azureArgs + ImageArgs(cfg);
      outcome := FinishInstall(args, reinstallCheckRequired, io);
    }

    /** The body of the loop in Start */
    method RunTick(io: TickIO) returns (outcome: TickOutcome)
      modifies this
      ensures (Now(), outcome) == Tick(cfg, old(Now()), io)
    {
      if io.disabled {
        return Disabled;
      }
      reinstallNeeded := false;
      var due := startup || installfailed;
      if !due {
        due := InstallOptionsChanged(io);
      }
      if !due {
        due := UpgradeImageCheck(io);
      }
      if !due {
        return Idle;
      }
      reinstallNeeded := true;
      var r := RunHypershiftInstall(startup, io.install);
      if r.Failed? {
        installfailed := true;
      } else {
        installfailed := false;
        startup := false;
      }
      return Attempt(r);
    }
  }

  function Initial(): State {
    State(Inputs(NOTHING, NOTHING, NOTHING, NOTHING, NOTHING, NOTHING), true, false, false, false, None)
  }
}
