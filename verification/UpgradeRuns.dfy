/** Whole runs of the upgrade controller within one process. */
module UpgradeRuns {
  import opened Basics
  import opened InstallFlags
  import opened Upgrade

  /** The state after the first n ticks of a process. */
  function StateAt(cfg: Config, ticks: seq<TickIO>, n: nat): State
    requires n <= |ticks|
  {
    if n == 0 then Initial() else Tick(cfg, StateAt(cfg, ticks, n - 1), ticks[n - 1]).0
  }

  function OutcomeAt(cfg: Config, ticks: seq<TickIO>, i: nat): TickOutcome
    requires i < |ticks|
  {
    Tick(cfg, StateAt(cfg, ticks, i), ticks[i]).1
  }

  /** The operator is marked as not managed by this controller. */
  predicate Marked(io: InstallIO) {
    io.operator.Deployed? && io.operator.notByMCE
  }

  // ---- no forgotten change ----

  /** The image overrides are an input of installs only when the image stream is overridden. */
  function Relevant(cfg: Config, c: Inputs): Inputs {
    if cfg.withOverride then c else c.(images := NOTHING)
  }

  predicate Settled(s: State) {
    !s.startup && !s.installFailed
  }

  /** When the controller sees nothing to do, what it has cached is what it last installed with. */
  predicate Remembers(cfg: Config, s: State) {
    Settled(s) ==> s.applied == Some(Relevant(cfg, s.cached))
  }

  lemma InstallRemembers(cfg: Config, s: State, atStartup: bool, io: InstallIO)
    requires !Marked(io)
    ensures var (s', outcome) := Install(cfg, s, atStartup, io);
      && (!outcome.Failed? ==> s'.applied == Some(Used(cfg, io)) && Relevant(cfg, s'.cached) == Used(cfg, io))
      && s'.startup == s.startup && s'.installFailed == s.installFailed && !outcome.NotOurs?
  {
    hide BucketRejected, PrivateLinkRejected, ExtDnsRejected, AzureRejected, NothingToDo, JobDone, OwnArgs, OtherArgs;
  }

  lemma TickRemembers(cfg: Config, s: State, io: TickIO)
    requires Remembers(cfg, s)
    requires OutcomeOf(cfg, s, io) != Attempt(NotOurs)
    ensures Remembers(cfg, Tick(cfg, s, io).0)
  {
    hide Install;
    if !io.disabled && Polled(s, io).1 {
      var s1 := Polled(s, io).0.(reinstallNeeded := true);
      MarkedOutcome(cfg, s1, s.startup, io.install);
      InstallRemembers(cfg, s1, s.startup, io.install);
    }
  }

  function OutcomeOf(cfg: Config, s: State, io: TickIO): TickOutcome {
    Tick(cfg, s, io).1
  }

  lemma MarkedOutcome(cfg: Config, s: State, atStartup: bool, io: InstallIO)
    ensures Install(cfg, s, atStartup, io).1.NotOurs? <==> Marked(io)
    ensures Marked(io) ==> Install(cfg, s, atStartup, io).0 == s
  {
  }

  /** No forgotten change: over every run, whatever the hub holds and whichever reads and steps fail,
      as long as no install finds the operator marked, a controller that is neither starting nor
      failed has cached exactly the inputs of its last accepted install. */
  lemma {:induction false} NoForgottenChange(cfg: Config, ticks: seq<TickIO>, n: nat)
    requires n <= |ticks|
    requires forall i | 0 <= i < n :: OutcomeAt(cfg, ticks, i) != Attempt(NotOurs)
    ensures Remembers(cfg, StateAt(cfg, ticks, n))
  {
    if n > 0 {
      NoForgottenChange(cfg, ticks, n - 1);
      assert OutcomeAt(cfg, ticks, n - 1) != Attempt(NotOurs);
      TickRemembers(cfg, StateAt(cfg, ticks, n - 1), ticks[n - 1]);
    }
  }

  /** Every read of the tick succeeds and shows the same hub. */
  predicate ReadsCleanly(io: TickIO, hub: Inputs) {
    && !io.disabled
    && Shows(io.pollBucket, hub.bucket) && Shows(io.install.bucket, hub.bucket)
    && Shows(io.pollPrivateLink, hub.privateLink) && Shows(io.install.privateLink, hub.privateLink)
    && Shows(io.pollAzure, hub.azure) && Shows(io.install.azure, hub.azure)
    && Shows(io.pollExtDns, hub.extDns) && Shows(io.install.extDns, hub.extDns)
    && Shows(io.pollFlags, hub.flags) && Shows(io.install.flags, hub.flags)
    && Shows(io.pollImages, hub.images) && Shows(io.install.images, hub.images)
  }

  predicate Shows(r: Read, obj: Object) {
    !r.Unreadable? && Got(r) == obj
  }

  predicate SameData(a: Inputs, b: Inputs) {
    && a.bucket.data == b.bucket.data && a.privateLink.data == b.privateLink.data && a.azure.data == b.azure.data
    && a.extDns.data == b.extDns.data && a.flags.data == b.flags.data && a.images.data == b.images.data
  }

  /** Any tick that reads the hub cleanly and ends without failure leaves the last accepted install
      equal, in its data, to the hub. */
  lemma CatchesUp(cfg: Config, ticks: seq<TickIO>, n: nat, hub: Inputs)
    requires n < |ticks| && ReadsCleanly(ticks[n], hub)
    requires forall i | 0 <= i <= n :: OutcomeAt(cfg, ticks, i) != Attempt(NotOurs)
    ensures var s := StateAt(cfg, ticks, n + 1);
      Settled(s) ==> s.applied.Some? && SameData(s.applied.value, Relevant(cfg, hub))
  {
    var s, io := StateAt(cfg, ticks, n), ticks[n];
    NoForgottenChange(cfg, ticks, n);
    assert OutcomeAt(cfg, ticks, n) != Attempt(NotOurs);
    hide Install;
    if Polled(s, io).1 {
      var s1 := Polled(s, io).0.(reinstallNeeded := true);
      MarkedOutcome(cfg, s1, s.startup, io.install);
      InstallRemembers(cfg, s1, s.startup, io.install);
    }
  }

  /** And ends without failure it does, unless the install itself fails: a clean tick is never left
      starting up. */
  lemma NotLeftStarting(cfg: Config, s: State, io: TickIO)
    requires !io.disabled
    ensures var s' := Tick(cfg, s, io).0;
      && (!Settled(s') <==> Tick(cfg, s, io).1 == Attempt(Failed))
      && (Tick(cfg, s, io).1 == Attempt(Failed) ==> s'.installFailed)
  {
    InstallKeepsFlags(cfg, Polled(s, io).0.(reinstallNeeded := true), s.startup, io.install);
    hide Install;
  }

  lemma InstallKeepsFlags(cfg: Config, s: State, atStartup: bool, io: InstallIO)
    ensures var s' := Install(cfg, s, atStartup, io).0;
      s'.startup == s.startup && s'.installFailed == s.installFailed
  {
    hide Prepared, BucketRejected, PrivateLinkRejected, ExtDnsRejected, AzureRejected, ImagesRejected, CheckRequired,
      NothingToDo, JobDone, Used, OwnArgs, OtherArgs;
  }

  /** The polls find a change of an input that installs use. */
  predicate ShowsChange(cfg: Config, s: State, io: TickIO) {
    OptionsDiffer(s.cached, io) || (cfg.withOverride && Differs(io.pollImages, s.cached.images))
  }

  /** The tick forgets a change: it meets the mark, and either the controller was settled and the polls
      find a change, or an attempt is due and what is cached is not what was applied. */
  predicate Forgets(cfg: Config, s: State, io: TickIO) {
    && !io.disabled && Marked(io.install)
    && if Settled(s) then ShowsChange(cfg, s, io) else s.applied != Some(Relevant(cfg, s.cached))
  }

  /** Meeting the mark counts as a success. So a change is forgotten in exactly these cases. */
  lemma ForgetsExactly(cfg: Config, s: State, io: TickIO)
    requires Remembers(cfg, s)
    ensures Remembers(cfg, Tick(cfg, s, io).0) <==> !Forgets(cfg, s, io)
  {
    if !Marked(io.install) || io.disabled {
      if !io.disabled && Polled(s, io).1 {
        MarkedOutcome(cfg, Polled(s, io).0.(reinstallNeeded := true), s.startup, io.install);
      }
      TickRemembers(cfg, s, io);
    } else if Polled(s, io).1 {
      MarkedOutcome(cfg, Polled(s, io).0.(reinstallNeeded := true), s.startup, io.install);
    }
    hide Install;
  }

  predicate AllRemember(cfg: Config, ticks: seq<TickIO>, n: nat)
    requires n <= |ticks|
  {
    forall m: nat | m <= n :: Remembers(cfg, StateAt(cfg, ticks, m))
  }

  predicate NoneForgets(cfg: Config, ticks: seq<TickIO>, n: nat)
    requires n <= |ticks|
  {
    forall i: nat | i < n :: !Forgets(cfg, StateAt(cfg, ticks, i), ticks[i])
  }

  /** Over whole runs, marks included: the controller remembers after each of the first n ticks exactly
      when none of them forgets. */
  lemma {:induction false} RemembersExactly(cfg: Config, ticks: seq<TickIO>, n: nat)
    requires n <= |ticks|
    ensures AllRemember(cfg, ticks, n) <==> NoneForgets(cfg, ticks, n)
  {
    assert Remembers(cfg, StateAt(cfg, ticks, 0));
    if n > 0 {
      var s, s' := StateAt(cfg, ticks, n - 1), StateAt(cfg, ticks, n);
      if Remembers(cfg, s) {
        ForgetsExactly(cfg, s, ticks[n - 1]);
      }
      hide Tick, Forgets, Remembers, StateAt;
      RemembersExactly(cfg, ticks, n - 1);
      assert AllRemember(cfg, ticks, n) <==> AllRemember(cfg, ticks, n - 1) && Remembers(cfg, s');
      assert NoneForgets(cfg, ticks, n) <==> NoneForgets(cfg, ticks, n - 1) && !Forgets(cfg, s, ticks[n - 1]);
      assert AllRemember(cfg, ticks, n - 1) ==> Remembers(cfg, s);
    }
  }

  /** A change can be forgotten although no poll finds one: after an attempt that failed with new inputs,
      the next enabled tick settles on them if it meets the mark, and they were never applied. */
  lemma FailedThenMarked(cfg: Config, s: State, io: TickIO)
    requires s.installFailed && !io.disabled && Marked(io.install)
    ensures var s' := Tick(cfg, s, io).0;
      && Settled(s') && s'.cached == s.cached && s'.applied == s.applied
      && (Remembers(cfg, s') <==> s.applied == Some(Relevant(cfg, s.cached)))
  {
    MarkedOutcome(cfg, Polled(s, io).0.(reinstallNeeded := true), s.startup, io.install);
    hide Install;
  }

  /** The polls find the data that the controller has cached, or fail. */
  predicate ShowsNothingNew(s: State, io: TickIO) {
    !OptionsDiffer(s.cached, io) && !Differs(io.pollImages, s.cached.images)
  }

  /** A settled controller attempts an install exactly when it is enabled and a poll finds a change of
      what it has cached, and is otherwise left as it is. */
  lemma IdleExactly(cfg: Config, s: State, io: TickIO)
    requires Settled(s)
    ensures var (s', outcome) := Tick(cfg, s, io);
      && (outcome.Attempt? <==> !io.disabled && !ShowsNothingNew(s, io))
      && (!outcome.Attempt? ==> s' == s.(reinstallNeeded := s'.reinstallNeeded))
  {
    hide Install;
  }

  /** A start that meets the mark counts as done. From then on, with or without the mark, the controller
      stays idle for as long as the hub holds none of the inputs or they cannot be read, without ever
      having installed; the next attempt comes with the first tick that reads one. */
  lemma {:induction false} MarkedStartIsForgotten(cfg: Config, ticks: seq<TickIO>, first: nat, n: nat)
    requires first < n <= |ticks| && !ticks[first].disabled && Marked(ticks[first].install)
    requires forall i: nat | i < first :: ticks[i].disabled
    requires forall i: nat | first < i < n :: ticks[i].disabled || ShowsNothingNew(Initial(), ticks[i])
    ensures var s := StateAt(cfg, ticks, n);
      && Settled(s) && s.applied == None && s.cached == Initial().cached
      && (forall i: nat | first < i < n :: !OutcomeAt(cfg, ticks, i).Attempt?)
      && (n < |ticks| ==>
            (OutcomeAt(cfg, ticks, n).Attempt? <==> !ticks[n].disabled && !ShowsNothingNew(Initial(), ticks[n])))
    decreases n
  {
    if n == first + 1 {
      DisabledStart(cfg, ticks, first);
      MarkedOutcome(cfg, Initial().(reinstallNeeded := true), true, ticks[first].install);
      assert StateAt(cfg, ticks, n) == Tick(cfg, Initial(), ticks[first]).0;
      hide Install;
    } else {
      MarkedStartIsForgotten(cfg, ticks, first, n - 1);
      IdleExactly(cfg, StateAt(cfg, ticks, n - 1), ticks[n - 1]);
      hide Tick;
      assert StateAt(cfg, ticks, n) == Tick(cfg, StateAt(cfg, ticks, n - 1), ticks[n - 1]).0;
    }
    if n < |ticks| {
      IdleExactly(cfg, StateAt(cfg, ticks, n), ticks[n]);
    }
  }

  lemma {:induction false} DisabledStart(cfg: Config, ticks: seq<TickIO>, n: nat)
    requires n <= |ticks| && forall i: nat | i < n :: ticks[i].disabled
    ensures StateAt(cfg, ticks, n) == Initial()
  {
    if n > 0 {
      DisabledStart(cfg, ticks, n - 1);
    }
  }

  // ---- an unchanged hub ----

  /** All cached inputs but the image overrides hold the hub's data. */
  predicate SameButImages(a: Inputs, b: Inputs) {
    && a.bucket.data == b.bucket.data && a.privateLink.data == b.privateLink.data && a.azure.data == b.azure.data
    && a.extDns.data == b.extDns.data && a.flags.data == b.flags.data
  }

  /** A tick in which the hub is as given: disabled, or reading it cleanly. */
  predicate HubIs(io: TickIO, hub: Inputs) {
    io.disabled || ReadsCleanly(io, hub)
  }

  /** An install that reads the hub cleanly caches nothing but the hub's data. */
  lemma InstallCachesTheHub(cfg: Config, s: State, atStartup: bool, io: InstallIO, hub: Inputs)
    requires SameData(s.cached, hub)
    requires Shows(io.bucket, hub.bucket) && Shows(io.privateLink, hub.privateLink) && Shows(io.azure, hub.azure)
    requires Shows(io.extDns, hub.extDns) && Shows(io.flags, hub.flags) && Shows(io.images, hub.images)
    ensures SameData(Install(cfg, s, atStartup, io).0.cached, hub)
  {
    hide BucketRejected, PrivateLinkRejected, ExtDnsRejected, AzureRejected, CheckRequired, Prepared, Finish;
    var s2 := OthersCached(cfg, FirstSecretsCached(cfg, s, io), io);
    assert SameData(s2.cached, hub);
    FinishCachesTheHub(cfg, s2, CheckRequired(s, atStartup, io), io, hub);
  }

  lemma FinishCachesTheHub(cfg: Config, s: State, checkRequired: bool, io: InstallIO, hub: Inputs)
    requires SameData(s.cached, hub) && Shows(io.images, hub.images)
    ensures SameData(Finish(cfg, s, checkRequired, io).0.cached, hub)
  {
    hide ImagesRejected, NothingToDo, JobDone, OwnArgs, OtherArgs, Used;
  }

  /** A clean tick that ends settled without meeting the mark has cached the hub's data, but for the image
      overrides where they are not an input of installs. */
  lemma CachesTheHub(cfg: Config, s: State, io: TickIO, hub: Inputs)
    requires ReadsCleanly(io, hub) && Tick(cfg, s, io).1 != Attempt(NotOurs) && Settled(Tick(cfg, s, io).0)
    ensures var c := Tick(cfg, s, io).0.cached;
      SameButImages(c, hub) && (cfg.withOverride ==> SameData(c, hub))
  {
    var s1 := Polled(s, io).0.(reinstallNeeded := true);
    MarkedOutcome(cfg, s1, s.startup, io.install);
    NotLeftStarting(cfg, s, io);
    if !Marked(io.install) {
      InstallRemembers(cfg, s1, s.startup, io.install);
    }
    hide Install, Marked;
  }

  /** Once all cached inputs hold the hub's data they stay so, and a settled controller stays idle. */
  lemma UnchangedHubIsIdle(cfg: Config, s: State, io: TickIO, hub: Inputs)
    requires HubIs(io, hub) && SameData(s.cached, hub)
    ensures SameData(Tick(cfg, s, io).0.cached, hub)
    ensures Settled(s) ==> !Tick(cfg, s, io).1.Attempt? && Settled(Tick(cfg, s, io).0)
  {
    if !io.disabled {
      InstallCachesTheHub(cfg, Polled(s, io).0.(reinstallNeeded := true), s.startup, io.install, hub);
    }
    hide Install;
  }

  /** When only the cached image overrides differ, the next enabled tick attempts an install and then all
      cached inputs hold the hub's data. */
  lemma OneMoreAttempt(cfg: Config, s: State, io: TickIO, hub: Inputs)
    requires HubIs(io, hub) && Settled(s) && SameButImages(s.cached, hub) && s.cached.images.data != hub.images.data
    ensures Tick(cfg, s, io).1.Attempt? <==> !io.disabled
    ensures if io.disabled then Tick(cfg, s, io).0 == s else SameData(Tick(cfg, s, io).0.cached, hub)
  {
    if !io.disabled {
      InstallCachesTheHub(cfg, Polled(s, io).0.(reinstallNeeded := true), s.startup, io.install, hub);
    }
    hide Install;
  }

  /** From tick i on the hub is the same: tick i reads it cleanly and ends settled, without the mark. */
  predicate HubStays(cfg: Config, ticks: seq<TickIO>, i: nat, hub: Inputs)
    requires i < |ticks|
  {
    && ReadsCleanly(ticks[i], hub) && OutcomeAt(cfg, ticks, i) != Attempt(NotOurs)
    && Settled(StateAt(cfg, ticks, i + 1))
    && forall j: nat | i < j < |ticks| :: HubIs(ticks[j], hub)
  }

  /** Nothing is missing after tick i: the image overrides are an input of installs, or cached as they are. */
  predicate NothingMissing(cfg: Config, ticks: seq<TickIO>, i: nat, hub: Inputs)
    requires i < |ticks|
  {
    cfg.withOverride || StateAt(cfg, ticks, i + 1).cached.images.data == hub.images.data
  }

  /** No tick after tick i, up to the n-th, is enabled. */
  predicate AllDisabled(ticks: seq<TickIO>, i: nat, n: nat)
    requires n <= |ticks|
  {
    forall j: nat | i < j < n :: ticks[j].disabled
  }

  lemma {:induction false} StaysCached(cfg: Config, ticks: seq<TickIO>, i: nat, n: nat, hub: Inputs)
    requires i < n <= |ticks| && HubStays(cfg, ticks, i, hub)
    ensures var s := StateAt(cfg, ticks, n);
      if NothingMissing(cfg, ticks, i, hub) then Settled(s) && SameData(s.cached, hub)
      else if AllDisabled(ticks, i, n) then s == StateAt(cfg, ticks, i + 1) && SameButImages(s.cached, hub)
      else SameData(s.cached, hub)
    decreases n
  {
    hide Tick, ReadsCleanly, SameData, SameButImages;
    if n == i + 1 {
      CachesTheHub(cfg, StateAt(cfg, ticks, i), ticks[i], hub);
      ButForImages(StateAt(cfg, ticks, n).cached, hub);
    } else {
      StaysCached(cfg, ticks, i, n - 1, hub);
      var s, io := StateAt(cfg, ticks, n - 1), ticks[n - 1];
      assert HubIs(io, hub);
      assert AllDisabled(ticks, i, n) <==> AllDisabled(ticks, i, n - 1) && io.disabled;
      if SameData(s.cached, hub) {
        UnchangedHubIsIdle(cfg, s, io, hub);
        ButForImages(s.cached, hub);
      } else {
        OneMoreAttempt(cfg, s, io, hub);
      }
    }
  }

  lemma ButForImages(a: Inputs, b: Inputs)
    ensures SameData(a, b) <==> SameButImages(a, b) && a.images.data == b.images.data
  {
  }

  lemma {:induction false} StaysIdle(cfg: Config, ticks: seq<TickIO>, m: nat, n: nat, hub: Inputs)
    requires m <= n <= |ticks| && Settled(StateAt(cfg, ticks, m)) && SameData(StateAt(cfg, ticks, m).cached, hub)
    requires forall j: nat | m <= j < n :: HubIs(ticks[j], hub)
    ensures Settled(StateAt(cfg, ticks, n)) && SameData(StateAt(cfg, ticks, n).cached, hub)
    ensures n < |ticks| && HubIs(ticks[n], hub) ==> !OutcomeAt(cfg, ticks, n).Attempt?
    decreases n
  {
    hide Tick, HubIs, SameData;
    if m < n {
      StaysIdle(cfg, ticks, m, n - 1, hub);
      UnchangedHubIsIdle(cfg, StateAt(cfg, ticks, n - 1), ticks[n - 1], hub);
    }
    if n < |ticks| && HubIs(ticks[n], hub) {
      UnchangedHubIsIdle(cfg, StateAt(cfg, ticks, n), ticks[n], hub);
    }
  }

  /** An unchanged hub stops causing installs. If nothing is missing after tick i, no later tick attempts
      one. Otherwise the first enabled one attempts; and after an attempt that does not fail none follows. */
  lemma IdleOnAnUnchangedHub(cfg: Config, ticks: seq<TickIO>, i: nat, k: nat, hub: Inputs)
    requires i < k < |ticks| && HubStays(cfg, ticks, i, hub)
    ensures NothingMissing(cfg, ticks, i, hub) ==> !OutcomeAt(cfg, ticks, k).Attempt?
    ensures !NothingMissing(cfg, ticks, i, hub) && AllDisabled(ticks, i, k) ==>
      (OutcomeAt(cfg, ticks, k).Attempt? <==> !ticks[k].disabled)
    ensures forall j: nat | i < j < k && OutcomeAt(cfg, ticks, j).Attempt? ::
      OutcomeAt(cfg, ticks, j) == Attempt(Failed) || !OutcomeAt(cfg, ticks, k).Attempt?
  {
    hide Tick, ReadsCleanly, SameData, SameButImages;
    StaysCached(cfg, ticks, i, k, hub);
    assert HubIs(ticks[k], hub);
    var s := StateAt(cfg, ticks, k);
    if NothingMissing(cfg, ticks, i, hub) {
      StaysIdle(cfg, ticks, k, k, hub);
    } else if AllDisabled(ticks, i, k) {
      OneMoreAttempt(cfg, s, ticks[k], hub);
    }
    forall j: nat | i < j < k && OutcomeAt(cfg, ticks, j).Attempt? && OutcomeAt(cfg, ticks, j) != Attempt(Failed)
      ensures !OutcomeAt(cfg, ticks, k).Attempt?
    {
      AttemptIsEnabled(cfg, StateAt(cfg, ticks, j), ticks[j]);
      NotLeftStarting(cfg, StateAt(cfg, ticks, j), ticks[j]);
      StaysCached(cfg, ticks, i, j + 1, hub);
      assert !AllDisabled(ticks, i, j + 1);
      StaysIdle(cfg, ticks, j + 1, k, hub);
    }
  }

  /** So a hub that holds image overrides which are no input of installs causes a second install right
      after a start. */
  lemma StartInstallsTwice(cfg: Config, first: TickIO, next: TickIO, hub: Inputs)
    requires !cfg.withOverride && hub.images.data.Some? && ReadsCleanly(first, hub) && ReadsCleanly(next, hub)
    requires Tick(cfg, Initial(), first).1 != Attempt(NotOurs) && Tick(cfg, Initial(), first).1 != Attempt(Failed)
    ensures Tick(cfg, Tick(cfg, Initial(), first).0, next).1.Attempt?
  {
    NotLeftStarting(cfg, Initial(), first);
    CachesTheHub(cfg, Initial(), first, hub);
    ImagesNotCached(cfg, Initial().(reinstallNeeded := true), true, first.install);
    hide Install, ReadsCleanly;
    OneMoreAttempt(cfg, Tick(cfg, Initial(), first).0, next, hub);
  }

  lemma ImagesNotCached(cfg: Config, s: State, atStartup: bool, io: InstallIO)
    requires !cfg.withOverride
    ensures Install(cfg, s, atStartup, io).0.cached.images == s.cached.images
  {
    hide BucketRejected, PrivateLinkRejected, ExtDnsRejected, AzureRejected, JobDone, OwnArgs, OtherArgs, CheckRequired,
      Prepared, Used;
  }

  lemma AttemptIsEnabled(cfg: Config, s: State, io: TickIO)
    ensures Tick(cfg, s, io).1.Attempt? ==> !io.disabled
  {
  }

  // ---- skipping and retrying ----

  /** Nothing was attempted yet. */
  predicate Fresh(s: State) {
    s.startup && !s.installFailed
  }

  lemma FreshTick(cfg: Config, s: State, io: TickIO)
    ensures Fresh(Tick(cfg, s, io).0) <==> Fresh(s) && Tick(cfg, s, io).1 == Disabled
    ensures Tick(cfg, s, io).1 == Attempt(Skipped) ==> Fresh(s)
    ensures Tick(cfg, s, io).1 == Attempt(Failed) ==> Tick(cfg, s, io).0.installFailed
    ensures s.installFailed ==>
      if io.disabled then Tick(cfg, s, io) == (s, Disabled)
      else Tick(cfg, s, io).1.Attempt? && Tick(cfg, s, io).1 != Attempt(Skipped)
  {
    InstallKeepsFlags(cfg, Polled(s, io).0.(reinstallNeeded := true), s.startup, io.install);
    SkippedInstall(cfg, Polled(s, io).0.(reinstallNeeded := true), s.startup, io.install);
    hide Install;
  }

  lemma SkippedInstall(cfg: Config, s: State, atStartup: bool, io: InstallIO)
    ensures Install(cfg, s, atStartup, io).1.Skipped? ==>
      atStartup && !s.installFailed && cfg.withOverride && io.ns.Exists? && NothingToDo(io)
  {
    hide NothingToDo, BucketRejected, PrivateLinkRejected, ExtDnsRejected, AzureRejected, JobDone;
  }

  lemma {:induction false} FreshMeansNoAttempt(cfg: Config, ticks: seq<TickIO>, n: nat)
    requires n <= |ticks|
    ensures Fresh(StateAt(cfg, ticks, n)) <==> forall i | 0 <= i < n :: OutcomeAt(cfg, ticks, i) == Disabled
  {
    if n > 0 {
      FreshMeansNoAttempt(cfg, ticks, n - 1);
      FreshTick(cfg, StateAt(cfg, ticks, n - 1), ticks[n - 1]);
      assert OutcomeAt(cfg, ticks, n - 1) == Tick(cfg, StateAt(cfg, ticks, n - 1), ticks[n - 1]).1;
      hide Tick;
    }
  }

  /** The "nothing to do" path is taken only by the first tick that is not disabled, hence at most
      once in a run. */
  lemma SkipsOnlyFirst(cfg: Config, ticks: seq<TickIO>, i: nat)
    requires i < |ticks| && OutcomeAt(cfg, ticks, i) == Attempt(Skipped)
    ensures forall j | 0 <= j < i :: OutcomeAt(cfg, ticks, j) == Disabled
    ensures forall j | i < j < |ticks| :: OutcomeAt(cfg, ticks, j) != Attempt(Skipped)
  {
    FreshMeansNoAttempt(cfg, ticks, i);
    FreshTick(cfg, StateAt(cfg, ticks, i), ticks[i]);
    forall j | i < j < |ticks| ensures OutcomeAt(cfg, ticks, j) != Attempt(Skipped) {
      FreshTick(cfg, StateAt(cfg, ticks, j), ticks[j]);
      FreshMeansNoAttempt(cfg, ticks, j);
      assert OutcomeAt(cfg, ticks, i) != Disabled;
    }
  }

  /** After a failed attempt every later enabled tick attempts an install and does not skip, until
      one attempt does not fail. */
  lemma {:induction false} RetriesUntilDone(cfg: Config, ticks: seq<TickIO>, i: nat, j: nat)
    requires i < j < |ticks| && OutcomeAt(cfg, ticks, i) == Attempt(Failed)
    requires forall k | i < k < j ::
      OutcomeAt(cfg, ticks, k) == Disabled || OutcomeAt(cfg, ticks, k) == Attempt(Failed)
    ensures StateAt(cfg, ticks, j).installFailed
    ensures !ticks[j].disabled ==>
      OutcomeAt(cfg, ticks, j).Attempt? && OutcomeAt(cfg, ticks, j) != Attempt(Skipped)
    decreases j
  {
    FreshTick(cfg, StateAt(cfg, ticks, j - 1), ticks[j - 1]);
    if j > i + 1 {
      RetriesUntilDone(cfg, ticks, i, j - 1);
      assert OutcomeAt(cfg, ticks, j - 1) == Disabled || OutcomeAt(cfg, ticks, j - 1) == Attempt(Failed);
    }
    FreshTick(cfg, StateAt(cfg, ticks, j), ticks[j]);
    hide Tick;
  }

  // ---- what tenants can reach ----

  /** A reserved flag among the arguments of the install job is one the controller put there itself:
      the install flags ConfigMap reaches the job only through its unreserved flags and their values. */
  lemma TenantsCannotReserve(cfg: Config, s: State, atStartup: bool, io: InstallIO, token: string)
    requires var outcome := Install(cfg, s, atStartup, io).1;
      outcome.Installed? && token in outcome.args && IsReserved(token)
    ensures token in OwnArgs(cfg, io)
    ensures token in OwnArgs(cfg, io.(flags := NotFound)) || token == "--azure-private-secret"
  {
    NothingReservedNothingTwice(ToAdd(Got(io.flags)), ToRemove(Got(io.flags)), cfg.rhobs, token);
    ReservedStem(token);
    InstalledArgs(cfg, s, atStartup, io);
    hide Install, AllEntries, Flatten, ToAdd, ToRemove, IsReserved, CredentialArgs, ImageArgs, WantsAzure;
    assert token[0] == '-' != AZURE_SECRET_NAME[0] by { assert "--"[0] == '-'; }
  }

  lemma InstalledArgs(cfg: Config, s: State, atStartup: bool, io: InstallIO)
    requires Install(cfg, s, atStartup, io).1.Installed?
    ensures Install(cfg, s, atStartup, io).1.args == OwnArgs(cfg, io) + OtherArgs(cfg, Got(io.flags))
  {
    hide OwnArgs, OtherArgs, BucketRejected, PrivateLinkRejected, ExtDnsRejected, AzureRejected, NothingToDo, JobDone;
  }
}
