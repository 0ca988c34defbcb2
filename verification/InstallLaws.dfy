/** When an install succeeds, fails or is skipped, and what the job is given, in terms of the answers of
    the calls and the data of the inputs themselves. */
module InstallLaws {
  import opened Basics
  import opened InstallFlags
  import opened Upgrade
  import opened UpgradeRuns

  // ---- how an install ends ----

  /** The value of a key in the data of an input that is there */
  function In(r: Read, key: string): Option<string> {
    if r.Present? && r.obj.data.Some? && key in r.obj.data.value then Some(r.obj.data.value[key]) else None
  }

  /** AWS credentials, in either form */
  predicate AwsCredentials(r: Read) {
    In(r, "credentials").Some? || (In(r, "aws-access-key-id").Some? && In(r, "aws-secret-access-key").Some?)
  }

  function FlagsToAdd(io: InstallIO): seq<string> {
    var text := In(io.flags, "installFlagsToAdd");
    if text.Some? then Fields(text.value) else []
  }

  /** Every call before the job succeeds, and every input that is there is well-formed. */
  predicate Accepted(cfg: Config, io: InstallIO) {
    && !io.operator.OperatorUnreadable? && (io.ns.Exists? || io.ns.Created?) && (cfg.pullSecret ==> io.pullSecretCopied)
    && (io.bucket.Present? ==>
          && In(io.bucket, "bucket").Some? && In(io.bucket, "bucket").value != ""
          && In(io.bucket, "region").Some? && AwsCredentials(io.bucket) && io.bucketCopied)
    && (io.privateLink.Present? ==>
          In(io.privateLink, "region").Some? && AwsCredentials(io.privateLink) && io.privateLinkCopied)
    && (io.extDns.Present? ==>
          (io.bucket.Present? || io.privateLink.Present? ==> AwsCredentials(io.extDns)) && io.extDnsCopied)
    && (EqualFold(ValueIn(FlagsToAdd(io), "--private-platform"), "Azure") ==>
          ValueIn(FlagsToAdd(io), "--azure-pls-resource-group") != "" && io.azure.Present? && io.azureCopied)
    && (cfg.withOverride ==>
          io.imageStreamRead && (io.images.Present? && io.images.obj.data.Some? ==> io.imagesApplied))
  }

  /** The data of an input, none if it is not there */
  function DataOf(r: Read): Data {
    if r.Present? then r.obj.data else None
  }

  /** The operator runs the images wanted, the inputs are those saved last, and the operator has the arguments
      for the bucket if there is one. */
  predicate UpToDate(io: InstallIO) {
    && io.operator.Deployed? && !io.imagesDiffer
    && io.local.bucket.data == DataOf(io.bucket) && io.local.privateLink.data == DataOf(io.privateLink)
    && io.local.azure.data == DataOf(io.azure) && io.local.extDns.data == DataOf(io.extDns)
    && io.local.flags.data == DataOf(io.flags)
    && (io.bucket.Present? ==>
          && (exists a <- io.operator.args ::
                a == "--oidc-storage-provider-s3-bucket-name" || "--oidc-storage-provider-s3-bucket-name=" <= a)
          && (exists a <- io.operator.args ::
                a == "--oidc-storage-provider-s3-region" || "--oidc-storage-provider-s3-region=" <= a)
          && (exists a <- io.operator.args ::
                || a == "--oidc-storage-provider-s3-secret" || "--oidc-storage-provider-s3-secret=" <= a
                || a == "--oidc-storage-provider-s3-credentials" || "--oidc-storage-provider-s3-credentials=" <= a))
  }

  /** An input with a name needs to be saved. */
  predicate Named(r: Read) {
    r.Present? && r.obj.name != ""
  }

  /** The job starts and succeeds, and a copy of every input that is there is saved. */
  predicate Completed(io: InstallIO) {
    && io.jobStarted && io.jobSucceeded
    && (Named(io.bucket) ==> io.bucketSaved) && (Named(io.privateLink) ==> io.privateLinkSaved)
    && (Named(io.azure) ==> io.azureSaved) && (Named(io.extDns) ==> io.extDnsSaved)
    && (Named(io.flags) ==> io.flagsSaved)
  }

  lemma SecretsAccepted(io: InstallIO)
    ensures !BucketRejected(io) <==> (io.bucket.Present? ==>
      && In(io.bucket, "bucket").Some? && In(io.bucket, "bucket").value != ""
      && In(io.bucket, "region").Some? && AwsCredentials(io.bucket) && io.bucketCopied)
    ensures !PrivateLinkRejected(io) <==> (io.privateLink.Present? ==>
      In(io.privateLink, "region").Some? && AwsCredentials(io.privateLink) && io.privateLinkCopied)
    ensures !ExtDnsRejected(io) <==> (io.extDns.Present? ==>
      (io.bucket.Present? || io.privateLink.Present? ==> AwsCredentials(io.extDns)) && io.extDnsCopied)
  {
  }

  lemma AzureAccepted(io: InstallIO)
    ensures FlagsToAdd(io) == ToAdd(Got(io.flags))
    ensures !AzureRejected(io) <==>
      (EqualFold(ValueIn(FlagsToAdd(io), "--private-platform"), "Azure") ==>
         ValueIn(FlagsToAdd(io), "--azure-pls-resource-group") != "" && io.azure.Present? && io.azureCopied)
  {
    assert Fields("") == [];
    hide Fields, EqualFold, ValueIn;
  }

  lemma AcceptedIs(cfg: Config, io: InstallIO)
    ensures Accepted(cfg, io) <==>
      && Prepared(cfg, io) && !BucketRejected(io) && !PrivateLinkRejected(io) && !ExtDnsRejected(io)
      && !AzureRejected(io) && !(cfg.withOverride && ImagesRejected(io))
  {
    hide In, AwsCredentials, FlagsToAdd, ValueIn, EqualFold, BucketRejected, PrivateLinkRejected, ExtDnsRejected,
      AzureRejected;
    SecretsAccepted(io);
    AzureAccepted(io);
  }

  lemma UpToDateIs(io: InstallIO)
    ensures UpToDate(io) <==> NothingToDo(io)
  {
    if io.operator.Deployed? {
      OidcArgsAre(io.operator);
    }
    hide HasOidcArgs;
  }

  lemma OidcArgsAre(operator: Operator)
    requires operator.Deployed?
    ensures HasOidcArgs(operator.args) <==>
      && (exists a <- operator.args ::
            a == "--oidc-storage-provider-s3-bucket-name" || "--oidc-storage-provider-s3-bucket-name=" <= a)
      && (exists a <- operator.args ::
            a == "--oidc-storage-provider-s3-region" || "--oidc-storage-provider-s3-region=" <= a)
      && (exists a <- operator.args ::
            || a == "--oidc-storage-provider-s3-secret" || "--oidc-storage-provider-s3-secret=" <= a
            || a == "--oidc-storage-provider-s3-credentials" || "--oidc-storage-provider-s3-credentials=" <= a)
  {
  }

  lemma CompletedIs(io: InstallIO)
    ensures Completed(io) <==> JobDone(io)
  {
  }

  /** How an install ends, exactly: it is left to others when the operator is marked; skipped when it is the
      first attempt of a start over an existing operator that is up to date; done when its job and all the
      copies are; and failed in every other case. */
  lemma InstallEndsExactly(cfg: Config, s: State, atStartup: bool, io: InstallIO)
    ensures var outcome := Install(cfg, s, atStartup, io).1;
      var marked := io.operator.Deployed? && io.operator.notByMCE;
      var skip := cfg.withOverride && atStartup && !s.installFailed && io.ns.Exists? && UpToDate(io);
      && (outcome.NotOurs? <==> marked)
      && (outcome.Skipped? <==> !marked && Accepted(cfg, io) && skip)
      && (outcome.Installed? <==> !marked && Accepted(cfg, io) && !skip && Completed(io))
  {
    AcceptedIs(cfg, io);
    UpToDateIs(io);
    CompletedIs(io);
    assert UpToDate(io) ==> io.operator.Deployed?;
    hide Accepted, UpToDate, Completed, Prepared, BucketRejected, PrivateLinkRejected, ExtDnsRejected, AzureRejected,
      ImagesRejected, NothingToDo, JobDone, OwnArgs, OtherArgs;
  }

  /** So a tick never counts as a success when the job did not start or did not succeed, unless it was marked
      or there was nothing to do; it is then failed, and the inputs it applied last stay as they were. */
  lemma FailedJobIsFailure(cfg: Config, s: State, io: TickIO)
    requires (s.startup || s.installFailed) && !io.disabled && !(io.install.jobStarted && io.install.jobSucceeded)
    requires !(io.install.operator.Deployed? && io.install.operator.notByMCE)
    requires !(cfg.withOverride && s.startup && !s.installFailed && io.install.ns.Exists? && UpToDate(io.install))
    ensures var (s', outcome) := Tick(cfg, s, io);
      outcome == Attempt(Failed) && s'.installFailed && s'.applied == s.applied
  {
    var s1 := s.(reinstallNeeded := true);
    InstallEndsExactly(cfg, s1, s.startup, io.install);
    FailureAppliesNothing(cfg, s1, s.startup, io.install);
    hide Install, Accepted, UpToDate;
  }

  lemma FailureAppliesNothing(cfg: Config, s: State, atStartup: bool, io: InstallIO)
    ensures Install(cfg, s, atStartup, io).1.Failed? ==> Install(cfg, s, atStartup, io).0.applied == s.applied
  {
    hide Prepared, BucketRejected, PrivateLinkRejected, ExtDnsRejected, AzureRejected, ImagesRejected, NothingToDo,
      JobDone, OwnArgs, OtherArgs, CheckRequired, Used;
  }

  // ---- when a tick attempts an install ----

  /** A poll of one input finds other data than are cached: it is there with other data, or it is gone. A read
      that fails finds nothing. */
  predicate FindsChange(r: Read, cached: Object) {
    (r.Present? && r.obj.data != cached.data) || (r.NotFound? && cached.data.Some?)
  }

  /** An enabled tick attempts an install exactly when the controller is starting, has failed, or polls a
      change of one of the six inputs. */
  lemma AttemptsExactly(cfg: Config, s: State, io: TickIO)
    ensures Tick(cfg, s, io).1.Attempt? <==>
      && !io.disabled
      && (|| s.startup || s.installFailed
          || FindsChange(io.pollBucket, s.cached.bucket) || FindsChange(io.pollExtDns, s.cached.extDns)
          || FindsChange(io.pollPrivateLink, s.cached.privateLink) || FindsChange(io.pollAzure, s.cached.azure)
          || FindsChange(io.pollFlags, s.cached.flags) || FindsChange(io.pollImages, s.cached.images))
  {
    hide Install;
  }

  // ---- what the job is given ----

  /** The flag stands in the list with the value right after it. */
  predicate Given(args: seq<string>, flag: string, value: string) {
    exists i :: 0 <= i < |args| - 1 && args[i] == flag && args[i + 1] == value
  }

  lemma GivenAt(args: seq<string>, i: nat)
    requires i + 1 < |args|
    ensures Given(args, args[i], args[i + 1])
  {
  }

  function Concat(parts: seq<seq<string>>): seq<string> {
    if parts == [] then [] else Concat(parts[..|parts| - 1]) + parts[|parts| - 1]
  }

  lemma {:induction false} GivenInPart(parts: seq<seq<string>>, k: nat, flag: string, value: string)
    requires k < |parts| && Given(parts[k], flag, value)
    ensures Given(Concat(parts), flag, value)
  {
    var front, last := parts[..|parts| - 1], parts[|parts| - 1];
    var args := Concat(parts);
    if k == |parts| - 1 {
      var i :| 0 <= i < |last| - 1 && last[i] == flag && last[i + 1] == value;
      GivenAt(args, |Concat(front)| + i);
    } else {
      GivenInPart(front, k, flag, value);
      var i :| 0 <= i < |Concat(front)| - 1 && Concat(front)[i] == flag && Concat(front)[i + 1] == value;
      GivenAt(args, i);
    }
  }

  function Parts(cfg: Config, io: InstallIO): seq<seq<string>> {
    [["--namespace", "hypershift"], BucketArgs(io.bucket), PrivateLinkArgs(io.privateLink), ExtDnsArgs(io.extDns),
     AzureArgs(Got(io.flags)), ImageArgs(cfg), OtherArgs(cfg, Got(io.flags))]
  }

  lemma ConcatOneMore(parts: seq<seq<string>>, last: seq<string>)
    ensures Concat(parts + [last]) == Concat(parts) + last
  {
    assert (parts + [last])[..|parts|] == parts;
  }

  lemma ConcatOfThree(a: seq<string>, b: seq<string>, c: seq<string>)
    ensures Concat([a, b, c]) == a + b + c
  {
    assert Concat([]) == [];
    ConcatOneMore([], a);
    ConcatOneMore([a], b);
    ConcatOneMore([a, b], c);
    hide Concat;
    assert [] + [a] == [a] && [a] + [b] == [a, b] && [a, b] + [c] == [a, b, c];
  }

  lemma ConcatOfSeven(
    a: seq<string>, b: seq<string>, c: seq<string>, d: seq<string>, e: seq<string>, f: seq<string>, g: seq<string>)
    ensures Concat([a, b, c, d, e, f, g]) == a + b + c + d + e + f + g
  {
    hide Concat;
    ConcatOfThree(a, b, c);
    ConcatOneMore([a, b, c], d);
    ConcatOneMore([a, b, c, d], e);
    ConcatOneMore([a, b, c, d, e], f);
    ConcatOneMore([a, b, c, d, e, f], g);
    assert [a, b, c] + [d] == [a, b, c, d] && [a, b, c, d] + [e] == [a, b, c, d, e];
    assert [a, b, c, d, e] + [f] == [a, b, c, d, e, f] && [a, b, c, d, e, f] + [g] == [a, b, c, d, e, f, g];
  }

  lemma ArgumentsInParts(cfg: Config, s: State, atStartup: bool, io: InstallIO)
    requires Install(cfg, s, atStartup, io).1.Installed?
    ensures Install(cfg, s, atStartup, io).1.args == Concat(Parts(cfg, io))
  {
    InstalledArgs(cfg, s, atStartup, io);
    hide Install, BucketArgs, PrivateLinkArgs, ExtDnsArgs, AzureArgs, ImageArgs, OtherArgs, Concat;
    ConcatOfSeven(
      ["--namespace", "hypershift"], BucketArgs(io.bucket), PrivateLinkArgs(io.privateLink), ExtDnsArgs(io.extDns),
      AzureArgs(Got(io.flags)), ImageArgs(cfg), OtherArgs(cfg, Got(io.flags)));
  }

  lemma BucketGiven(io: InstallIO)
    requires In(io.bucket, "bucket").Some? && In(io.bucket, "region").Some?
    ensures var args := BucketArgs(io.bucket);
      && Given(args, "--oidc-storage-provider-s3-bucket-name", In(io.bucket, "bucket").value)
      && Given(args, "--oidc-storage-provider-s3-region", In(io.bucket, "region").value)
      && Given(args, "--oidc-storage-provider-s3-secret", "hypershift-operator-oidc-provider-s3-credentials")
  {
    var args := BucketArgs(io.bucket);
    GivenAt(args, 0);
    GivenAt(args, 2);
    GivenAt(args, 4);
  }

  lemma PrivateLinkGiven(io: InstallIO)
    requires In(io.privateLink, "region").Some?
    ensures var args := PrivateLinkArgs(io.privateLink);
      && Given(args, "--aws-private-secret", "hypershift-operator-private-link-credentials")
      && Given(args, "--aws-private-region", In(io.privateLink, "region").value)
      && Given(args, "--private-platform", "AWS")
  {
    var args := PrivateLinkArgs(io.privateLink);
    GivenAt(args, 0);
    GivenAt(args, 2);
    GivenAt(args, 4);
  }

  lemma ExtDnsGiven(io: InstallIO)
    requires io.extDns.Present?
    ensures var args, r := ExtDnsArgs(io.extDns), io.extDns;
      && Given(args, "--external-dns-secret", "hypershift-operator-external-dns-credentials")
      && (In(r, "domain-filter").Some? ==> Given(args, "--external-dns-domain-filter", In(r, "domain-filter").value))
      && (In(r, "provider").Some? ==> Given(args, "--external-dns-provider", In(r, "provider").value))
      && (In(r, "txt-owner-id").Some? ==> Given(args, "--external-dns-txt-owner-id", In(r, "txt-owner-id").value))
  {
    var args := ExtDnsArgs(io.extDns);
    GivenAt(args, 0);
    GivenAt(args, 2);
    GivenAt(args, 4);
    if Has(io.extDns.obj, "txt-owner-id") {
      GivenAt(args, 6);
    }
  }

  lemma ImageGiven(cfg: Config)
    ensures var args := ImageArgs(cfg);
      if cfg.withOverride then Given(args, "--image-refs", cfg.imageRefsFile)
      else Given(args, "--hypershift-image", cfg.operatorImage)
  {
    GivenAt(ImageArgs(cfg), 0);
  }

  lemma AzureGiven(io: InstallIO)
    requires EqualFold(ValueIn(FlagsToAdd(io), "--private-platform"), "Azure")
    ensures Given(AzureArgs(Got(io.flags)), "--azure-private-secret", "hypershift-operator-azure-credentials")
  {
    assert Fields("") == [];
    assert FlagsToAdd(io) == ToAdd(Got(io.flags));
    hide Fields, EqualFold, ValueIn;
    GivenAt(AzureArgs(Got(io.flags)), 0);
  }

  /** The job of an install gets the operator's namespace, and the image or the image stream. */
  lemma JobImage(cfg: Config, s: State, atStartup: bool, io: InstallIO)
    requires Install(cfg, s, atStartup, io).1.Installed?
    ensures var args := Install(cfg, s, atStartup, io).1.args;
      && Given(args, "--namespace", "hypershift")
      && if cfg.withOverride then Given(args, "--image-refs", cfg.imageRefsFile)
         else Given(args, "--hypershift-image", cfg.operatorImage)
  {
    ArgumentsInParts(cfg, s, atStartup, io);
    ImageGiven(cfg);
    var p := Parts(cfg, io);
    GivenAt(p[0], 0);
    hide Install, Given, Concat, BucketArgs, PrivateLinkArgs, ExtDnsArgs, AzureArgs, ImageArgs, OtherArgs;
    GivenInPart(p, 0, "--namespace", "hypershift");
    if cfg.withOverride {
      GivenInPart(p, 5, "--image-refs", cfg.imageRefsFile);
    } else {
      GivenInPart(p, 5, "--hypershift-image", cfg.operatorImage);
    }
  }

  /** For a bucket it gets the bucket's name and region, and the name of the secret. */
  lemma JobBucket(cfg: Config, s: State, atStartup: bool, io: InstallIO)
    requires Install(cfg, s, atStartup, io).1.Installed? && io.bucket.Present?
    ensures var args := Install(cfg, s, atStartup, io).1.args;
      && In(io.bucket, "bucket").Some? && In(io.bucket, "region").Some?
      && Given(args, "--oidc-storage-provider-s3-bucket-name", In(io.bucket, "bucket").value)
      && Given(args, "--oidc-storage-provider-s3-region", In(io.bucket, "region").value)
      && Given(args, "--oidc-storage-provider-s3-secret", "hypershift-operator-oidc-provider-s3-credentials")
  {
    hide Install, UpToDate, Given, Concat, In, Fields, AwsCredentials, BucketArgs, PrivateLinkArgs, ExtDnsArgs,
      AzureArgs, ImageArgs, OtherArgs;
    InstallEndsExactly(cfg, s, atStartup, io);
    assert In(io.bucket, "bucket").Some? && In(io.bucket, "region").Some?;
    hide Accepted;
    ArgumentsInParts(cfg, s, atStartup, io);
    BucketGiven(io);
    var p := Parts(cfg, io);
    GivenInPart(p, 1, "--oidc-storage-provider-s3-bucket-name", In(io.bucket, "bucket").value);
    GivenInPart(p, 1, "--oidc-storage-provider-s3-region", In(io.bucket, "region").value);
    GivenInPart(p, 1, "--oidc-storage-provider-s3-secret", "hypershift-operator-oidc-provider-s3-credentials");
  }

  /** For a private link it gets the secret's name, the region and the platform. */
  lemma JobPrivateLink(cfg: Config, s: State, atStartup: bool, io: InstallIO)
    requires Install(cfg, s, atStartup, io).1.Installed? && io.privateLink.Present?
    ensures var args := Install(cfg, s, atStartup, io).1.args;
      && In(io.privateLink, "region").Some?
      && Given(args, "--aws-private-secret", "hypershift-operator-private-link-credentials")
      && Given(args, "--aws-private-region", In(io.privateLink, "region").value)
      && Given(args, "--private-platform", "AWS")
  {
    hide Install, UpToDate, Given, Concat, In, Fields, AwsCredentials, BucketArgs, PrivateLinkArgs, ExtDnsArgs,
      AzureArgs, ImageArgs, OtherArgs;
    InstallEndsExactly(cfg, s, atStartup, io);
    assert In(io.privateLink, "region").Some?;
    hide Accepted;
    ArgumentsInParts(cfg, s, atStartup, io);
    PrivateLinkGiven(io);
    var p := Parts(cfg, io);
    GivenInPart(p, 2, "--aws-private-secret", "hypershift-operator-private-link-credentials");
    GivenInPart(p, 2, "--aws-private-region", In(io.privateLink, "region").value);
    GivenInPart(p, 2, "--private-platform", "AWS");
  }

  /** For an external DNS it gets the secret's name, and what the secret says of the domain filter, the
      provider and the owner. */
  lemma JobExternalDns(cfg: Config, s: State, atStartup: bool, io: InstallIO)
    requires Install(cfg, s, atStartup, io).1.Installed? && io.extDns.Present?
    ensures var args, r := Install(cfg, s, atStartup, io).1.args, io.extDns;
      && Given(args, "--external-dns-secret", "hypershift-operator-external-dns-credentials")
      && (In(r, "domain-filter").Some? ==> Given(args, "--external-dns-domain-filter", In(r, "domain-filter").value))
      && (In(r, "provider").Some? ==> Given(args, "--external-dns-provider", In(r, "provider").value))
      && (In(r, "txt-owner-id").Some? ==> Given(args, "--external-dns-txt-owner-id", In(r, "txt-owner-id").value))
  {
    ArgumentsInParts(cfg, s, atStartup, io);
    ExtDnsGiven(io);
    var p, r := Parts(cfg, io), io.extDns;
    hide Install, Given, Concat, In, BucketArgs, PrivateLinkArgs, ExtDnsArgs, AzureArgs, ImageArgs, OtherArgs;
    GivenInPart(p, 3, "--external-dns-secret", "hypershift-operator-external-dns-credentials");
    if In(r, "domain-filter").Some? {
      GivenInPart(p, 3, "--external-dns-domain-filter", In(r, "domain-filter").value);
    }
    if In(r, "provider").Some? {
      GivenInPart(p, 3, "--external-dns-provider", In(r, "provider").value);
    }
    if In(r, "txt-owner-id").Some? {
      GivenInPart(p, 3, "--external-dns-txt-owner-id", In(r, "txt-owner-id").value);
    }
  }

  /** For the Azure platform it gets the name of the secret. */
  lemma JobAzure(cfg: Config, s: State, atStartup: bool, io: InstallIO)
    requires Install(cfg, s, atStartup, io).1.Installed?
    requires EqualFold(ValueIn(FlagsToAdd(io), "--private-platform"), "Azure")
    ensures var args := Install(cfg, s, atStartup, io).1.args;
      Given(args, "--azure-private-secret", "hypershift-operator-azure-credentials")
  {
    ArgumentsInParts(cfg, s, atStartup, io);
    AzureGiven(io);
    var p := Parts(cfg, io);
    hide Install, Given, Concat, BucketArgs, PrivateLinkArgs, ExtDnsArgs, AzureArgs, ImageArgs, OtherArgs;
    GivenInPart(p, 4, "--azure-private-secret", "hypershift-operator-azure-credentials");
  }

  // ---- what is cached ----

  /** A new controller is starting, has not failed, has cached nothing and applied nothing. */
  lemma StartsWithNothing()
    ensures var s := Initial();
      && s.startup && !s.installFailed && s.applied == None
      && s.cached.bucket.data == None && s.cached.privateLink.data == None && s.cached.azure.data == None
      && s.cached.extDns.data == None && s.cached.flags.data == None && s.cached.images.data == None
  {
  }

  /** What an install caches, also when it fails: the bucket, private link and Azure secrets as soon as they are
      read; the others once those read before them are accepted; and nothing before the reads. */
  lemma InstallCaches(cfg: Config, s: State, atStartup: bool, io: InstallIO)
    requires !(io.operator.Deployed? && io.operator.notByMCE)
    ensures var c := Install(cfg, s, atStartup, io).0.cached;
      var started := !io.operator.OperatorUnreadable? && (io.ns.Exists? || io.ns.Created?)
                     && (cfg.pullSecret ==> io.pullSecretCopied);
      && (!started ==> c == s.cached)
      && (started ==>
            && c.bucket.data == DataOf(io.bucket) && c.privateLink.data == DataOf(io.privateLink)
            && c.azure.data == DataOf(io.azure))
      && (Accepted(cfg, io) ==> c.extDns.data == DataOf(io.extDns) && c.flags.data == DataOf(io.flags))
      && (Accepted(cfg, io) && cfg.withOverride ==> c.images.data == DataOf(io.images))
  {
    AcceptedIs(cfg, io);
    hide Accepted, BucketRejected, PrivateLinkRejected, ExtDnsRejected, AzureRejected, NothingToDo, JobDone, OwnArgs,
      OtherArgs, CheckRequired;
  }

  /** The polls of a settled controller cache the first change they find, and no other. */
  lemma PollsCacheTheFirst(cfg: Config, s: State, io: TickIO)
    requires !s.startup && !s.installFailed && !io.disabled
    requires io.install.operator.Deployed? && io.install.operator.notByMCE
    ensures var c, was := Tick(cfg, s, io).0.cached, s.cached;
      if FindsChange(io.pollBucket, was.bucket) then c == was.(bucket := Got(io.pollBucket))
      else if FindsChange(io.pollExtDns, was.extDns) then c == was.(extDns := Got(io.pollExtDns))
      else if FindsChange(io.pollPrivateLink, was.privateLink) then c == was.(privateLink := Got(io.pollPrivateLink))
      else if FindsChange(io.pollAzure, was.azure) then c == was.(azure := Got(io.pollAzure))
      else if FindsChange(io.pollFlags, was.flags) then c == was.(flags := Got(io.pollFlags))
      else if FindsChange(io.pollImages, was.images) then c == was.(images := Got(io.pollImages))
      else c == was
  {
    MarkedOutcome(cfg, Polled(s, io).0.(reinstallNeeded := true), s.startup, io.install);
    hide Install;
  }

  function FlagsToRemove(io: InstallIO): seq<string> {
    var text := In(io.flags, "installFlagsToRemove");
    if text.Some? then Fields(text.value) else []
  }

  /** After the controller's own arguments it gets those that the words of the two texts of the ConfigMap and
      the defaults make. */
  lemma JobOtherFlags(cfg: Config, s: State, atStartup: bool, io: InstallIO)
    requires Install(cfg, s, atStartup, io).1.Installed?
    ensures Install(cfg, s, atStartup, io).1.args
         == OwnArgs(cfg, io) + Flatten(AllEntries(FlagsToAdd(io), FlagsToRemove(io), cfg.rhobs))
  {
    InstalledArgs(cfg, s, atStartup, io);
    assert Fields("") == [];
    assert FlagsToAdd(io) == ToAdd(Got(io.flags)) && FlagsToRemove(io) == ToRemove(Got(io.flags));
    hide Install, OwnArgs, Flatten, AllEntries, Fields;
  }
}
