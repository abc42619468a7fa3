/** What a whole reconciliation does when nothing disturbs it: it is decided by the disk alone. */
module UndisturbedLaws {
  import opened Wrappers
  import opened Host
  import opened Status
  import opened Cluster
  import opened X509
  import opened Generator
  import opened Detector
  import opened Expiry
  import opened BackupLaws
  import opened Renewal
  import opened RenewalLaws
  import opened PodRestart
  import opened Reconcile
  import opened ReconcileLaws
  import opened RecoveryLaws
  import opened RotationLaws
  import opened ProgressLaws
  import opened StatusLaws
  import opened PairLaws
  import opened OutcomeLaws

  /** At most k calls were made, and none of those to come is disturbed. */
  predicate Uses(fates: seq<Fate>, k: nat, rest: seq<Fate>) {
    Undisturbed(rest) && |rest| + k >= |fates|
  }

  // ---- nothing dies ----

  lemma {:induction false} UndisturbedDetection(codec: Codec, d: Disk, cfg: Config, now: int, certs: seq<CertInfo>, order: seq<CertName>,
                                                fates: seq<Fate>)
    requires Undisturbed(fates) && |fates| >= |order|
    ensures var s := DetectFrom(codec, d, cfg, now, certs, order, fates);
      s.out in {Ok, Err} && Uses(fates, |order|, s.fates) && |s.certs| <= |certs| + |order|
    decreases |order|
  {
    if order != [] {
      var name, rest := order[0], order[1..];
      var s := ReadFile(d, PathOf(cfg, name), fates);
      assert fates[0] in fates;
      UndisturbedRest(fates, 1);
      if s.out == NotExist && CertFile(name).None? {
        UndisturbedDetection(codec, d, cfg, now, certs, rest, fates[1..]);
      } else if s.out == Ok && Decoded(codec, name, s.bytes).Some? {
        UndisturbedDetection(codec, d, cfg, now, certs + [Info(cfg, name, Decoded(codec, name, s.bytes).value, now)], rest, fates[1..]);
      }
    }
  }

  lemma LoadLives<T>(decode: Bytes -> Option<T>, d: Disk, path: string, fates: seq<Fate>)
    requires Undisturbed(fates) && fates != []
    ensures Load(decode, d, path, fates).out in {Ok, Err} && Load(decode, d, path, fates).fates == fates[1..]
    ensures Undisturbed(fates[1..])
  {
    assert fates[0] in fates;
    UndisturbedRest(fates, 1);
  }

  lemma AskLives(fates: seq<Fate>)
    requires Undisturbed(fates) && fates != []
    ensures Ask(fates) == (Ok, fates[1..]) && Undisturbed(fates[1..])
  {
    assert fates[0] in fates;
    UndisturbedRest(fates, 1);
  }

  lemma RenewOneLives(env: Env, d: Disk, info: CertInfo, fates: seq<Fate>)
    requires Undisturbed(fates) && |fates| >= 8
    ensures var s := RenewOne(env, d, info, fates); s.out in {Ok, Err} && Uses(fates, 8, s.fates)
  {
    var f1, f2, f3, f4 := fates[1..], fates[1..][1..], fates[1..][1..][1..], fates[1..][1..][1..][1..];
    var existing := Load(env.codec.decodeCert, d, info.path, fates);
    var ca := Load(env.codec.decodeCert, d, CAForCert(info.name).0, f1);
    var caKey := Load(env.codec.decodeKey, d, CAForCert(info.name).1, f2);
    LoadLives(env.codec.decodeCert, d, info.path, fates);
    LoadLives(env.codec.decodeCert, d, CAForCert(info.name).0, f1);
    LoadLives(env.codec.decodeKey, d, CAForCert(info.name).1, f2);
    AskLives(f3);
    if existing.out == Ok && ca.out == Ok && caKey.out == Ok {
      var cert := SignWithSelfKey(existing.value.value, ca.value.value, caKey.value.value, env.seeds(info.name));
      if cert.Some? && CertPaths(info.name).Some? {
        var paths := CertPaths(info.name).value;
        var crt, key := Join(env.pkiDir, paths.0), Join(env.pkiDir, paths.1);
        UndisturbedPair(d, crt, key, env.codec.encodeCert(cert.value), env.codec.encodeKey(env.seeds(info.name).key), f4);
        UndisturbedRest(f4, 4);
      }
    }
  }

  lemma {:induction false} RenewAllLives(env: Env, d: Disk, certs: seq<CertInfo>, fates: seq<Fate>)
    requires Undisturbed(fates) && |fates| >= 8 * |certs|
    ensures var s := RenewAll(env, d, certs, fates); s.out in {Ok, Err} && Uses(fates, 8 * |certs|, s.fates)
    decreases |certs|
  {
    if certs != [] {
      if certs[0].health == OK {
        RenewAllLives(env, d, certs[1..], fates);
      } else {
        var s := RenewOne(env, d, certs[0], fates);
        RenewOneLives(env, d, certs[0], fates);
        if s.out == Ok { RenewAllLives(env, s.disk, certs[1..], s.fates); }
      }
    }
  }

  lemma RestartLives(su: Setup, d: Disk, name: string, fates: seq<Fate>)
    requires Undisturbed(fates) && |fates| >= 3
    ensures var s := Restart(su, d, name, fates); s.out != Crash && Uses(fates, 3, s.fates)
  {
    assert fates[0] in fates && fates[1] in fates && fates[2] in fates;
    assert fates[1..][1..] == fates[2..] && fates[2..][1..] == fates[3..];
    UndisturbedRest(fates, 1);
    UndisturbedRest(fates, 2);
    UndisturbedRest(fates, 3);
  }

  lemma {:induction false} RestartsLive(su: Setup, d: Disk, names: seq<string>, fates: seq<Fate>)
    requires Undisturbed(fates) && |fates| >= 3 * |names|
    ensures var s := RestartFrom(su, d, names, fates); s.out != Crash && Uses(fates, 3 * |names|, s.fates)
    decreases |names|
  {
    if names != [] {
      var s := Restart(su, d, names[0], fates);
      RestartLives(su, d, names[0], fates);
      if s.out == Ok { RestartsLive(su, s.disk, names[1..], s.fates); }
    }
  }

  lemma PatchLives(w: World, node: string, h: Helper)
    requires !h.UpdateConditions? && Synced(w) && Undisturbed(w.fates) && w.fates != []
    ensures var r := PatchOwn(w, node, h);
      && r.out == Ok && Synced(r.w) && r.w.local == MutateOwn(w.local, node, h) && r.w.disk == w.disk
      && r.w.fates == w.fates[1..] && Undisturbed(r.w.fates) && r.w.attempts == w.attempts + Attempted(h)
  {
    assert w.fates[0] in w.fates;
    UndisturbedRest(w.fates, 1);
    PatchLaw(w, node, h);
  }

  // ---- the renewal ----

  lemma BackupLives(sp: Spec, w: World)
    requires Synced(w) && Undisturbed(w.fates) && |w.fates| >= 2 * LISTED + 3
    ensures Backed(sp, w).out == Ok && Noted(sp, w).out == Ok && Synced(Noted(sp, w).w) && Noted(sp, w).w.attempts == w.attempts
    ensures Noted(sp, w).w.local == MutateOwn(w.local, sp.node, SetBackupPath(sp.Path()))
    ensures Uses(w.fates, 2 * LISTED + 3, Noted(sp, w).w.fates)
  {
    UndisturbedRunsComplete(sp.dirs, w.disk, sp.Path(), w.fates);
    PatchLives(Backed(sp, w).w, sp.node, SetBackupPath(sp.Path()));
    assert w.attempts + [] == w.attempts;
  }

  lemma RunLives(sp: Spec, w: World, certs: seq<CertInfo>)
    requires Synced(w) && Undisturbed(w.fates) && |w.fates| >= ENOUGH + 8 * |certs|
    ensures var r := RunRenewal(sp, w, certs);
      && r.out != Crash && Uses(w.fates, ENOUGH + 8 * |certs|, r.w.fates) && Synced(r.w) && r.w.attempts == w.attempts
      && r.w.local == MutateOwn(w.local, sp.node, SetBackupPath(sp.Path()))
      && (sp.dryRun ==> r.out == Ok)
  {
    var noted, looped, bounced := Noted(sp, w).w, Looped(sp, w, certs), Bounced(sp, w, certs);
    BackupLives(sp, w);
    if !sp.dryRun {
      RenewAllLives(sp.RenewalEnv(), noted.disk, certs, noted.fates);
      RestartsLive(sp.Restarts(false), looped.w.disk, RESTART_ORDER, looped.w.fates);
      if looped.out == Ok && bounced.out == Ok {
        AskLives(bounced.w.fates);
      }
    }
  }

  // ---- from the renewal on ----

  /** The last word of the server. */
  predicate Shows(w: World, phase: NodePhase, reason: string, renewedAt: Option<int>) {
    w.server.Some? && w.server.value.phase == phase && Tells(w.server, reason, renewedAt)
  }

  predicate ComesBack(sp: Spec, e: Reconciled) {
    e.result == Requeue(RequeueWithJitter(sp.checkIntervalHours, sp.nameHash))
  }

  lemma ConditionsLive(w: World)
    requires Undisturbed(w.fates) && w.fates != []
    ensures PatchConditions(w).out == Ok && PatchConditions(w).w.server == w.server
    ensures PatchConditions(w).w.disk == w.disk && PatchConditions(w).w.attempts == w.attempts
  {
    AskLives(w.fates);
  }

  lemma SuccessEnds(sp: Spec, st: Stages, w: World, certs: seq<CertInfo>)
    requires st.renew(w, certs).out == Ok && Synced(st.renew(w, certs).w) && st.renew(w, certs).w.attempts == [Detecting, Renewing]
    requires Undisturbed(st.renew(w, certs).w.fates) && |st.renew(w, certs).w.fates| >= 2
    ensures var r, e := st.renew(w, certs), FromRenewing(sp, st, w, certs);
      e.w.attempts == [Detecting, Renewing, Idle] && Shows(e.w, Idle, "", Some(sp.renewedAt)) && ComesBack(sp, e) && e.w.disk == r.w.disk
  {
    var r := st.renew(w, certs);
    PatchLives(r.w, sp.node, SetRenewed(sp.renewedAt));
    ConditionsLive(PatchOwn(r.w, sp.node, SetRenewed(sp.renewedAt)).w);
    assert [Detecting, Renewing] + [Idle] == [Detecting, Renewing, Idle];
  }

  lemma FailureEnds(sp: Spec, st: Stages, w: World, certs: seq<CertInfo>)
    requires ReportsError(st.renew(w, certs)) && Synced(st.renew(w, certs).w) && st.renew(w, certs).w.attempts == [Detecting, Renewing]
    requires Undisturbed(st.renew(w, certs).w.fates) && st.renew(w, certs).w.fates != []
    requires KnowsPath(st.renew(w, certs).w) && forall v: World :: st.rollBack(v) == RunRollback(sp, v, None)
    ensures var r, e := st.renew(w, certs), FromRenewing(sp, st, w, certs);
      && e.result == Panicked && e.w.server.Some? && e.w.disk == r.w.disk
      && e.w.attempts == [Detecting, Renewing, RollingBack] && e.w.server.value.phase == RollingBack
  {
    var r, h := st.renew(w, certs), SetPhase(RollingBack, sp.renewError);
    PatchLives(r.w, sp.node, h);
    ShippedRollbackNeverReturns(sp, PatchOwn(r.w, sp.node, h).w);
    assert [Detecting, Renewing] + [RollingBack] == [Detecting, Renewing, RollingBack];
  }

  lemma RenewingEnds(sp: Spec, w: World, certs: seq<CertInfo>)
    requires Synced(w) && w.attempts == [Detecting, Renewing] && w.server.Some? && w.server.value.phase == Renewing
    requires Undisturbed(w.fates) && |w.fates| >= ENOUGH + 8 * |certs| + 2
    ensures var r, e := RunRenewal(sp, w, certs), FromRenewing(sp, StagesOf(sp, None), w, certs);
      if r.out == Ok then
        && e.w.attempts == [Detecting, Renewing, Idle] && Shows(e.w, Idle, "", Some(sp.renewedAt)) && ComesBack(sp, e) && e.w.disk == r.w.disk
      else
        && e.result == Panicked && e.w.server.Some? && e.w.disk == r.w.disk
        && (if r.out == Panic then e.w.attempts == [Detecting, Renewing] && e.w.server.value.phase == Renewing
            else e.w.attempts == [Detecting, Renewing, RollingBack] && e.w.server.value.phase == RollingBack)
  {
    var r := RunRenewal(sp, w, certs);
    RunLives(sp, w, certs);
    assert |sp.Path()| > 0;
    if r.out == Ok {
      SuccessEnds(sp, StagesOf(sp, None), w, certs);
    } else if r.out != Panic {
      FailureEnds(sp, StagesOf(sp, None), w, certs);
    }
  }

  // ---- what the disk decides ----

  /** The certificate of this name lies on the disk, and less than a day is left of it, or less than the
      threshold and a day. */
  predicate DueFile(sp: Spec, d: Disk, n: CertName) {
    var path := PathOf(sp.DetectorConfig(), n);
    && path in d.files && Decoded(sp.codec, n, d.files[path]).Some?
    && var left := Decoded(sp.codec, n, d.files[path]).value.notAfter - sp.now;
    left < DAY || left < (sp.thresholdDays + 1) * DAY
  }

  ghost predicate AllLegible(sp: Spec, d: Disk) {
    forall n: CertName :: Legible(sp.codec, d, sp.DetectorConfig(), n)
  }

  ghost predicate SomeDue(sp: Spec, d: Disk) {
    exists n: CertName :: DueFile(sp, d, n)
  }

  /** Everything due has its files and a CA with its key, and the manifests are mappings. */
  ghost predicate Rotatable(sp: Spec, d: Disk) {
    && (forall n: CertName :: DueFile(sp, d, n) ==> Renewable(sp.RenewalEnv(), d, n))
    && AllRestartable(sp.Restarts(false), d)
  }

  lemma DueIsListed(sp: Spec, d: Disk, certs: seq<CertInfo>, c: CertInfo)
    requires Finds(sp.codec, d, sp.DetectorConfig(), sp.now, certs) && c in certs
    ensures c.health != OK <==> DueFile(sp, d, c.name)
  {
    Windows(sp.thresholdDays, c.expiry, sp.now);
  }

  lemma FoundByName(sp: Spec, d: Disk, certs: seq<CertInfo>, n: CertName) returns (c: CertInfo)
    requires Finds(sp.codec, d, sp.DetectorConfig(), sp.now, certs) && PathOf(sp.DetectorConfig(), n) in d.files
    ensures c in certs && c.name == n
  {
    c :| c in certs && c.name == n;
  }

  lemma NeedIsDue(sp: Spec, d: Disk, certs: seq<CertInfo>)
    requires Finds(sp.codec, d, sp.DetectorConfig(), sp.now, certs)
    ensures NeedsRenewal(certs) <==> SomeDue(sp, d)
  {
    if NeedsRenewal(certs) {
      var i :| 0 <= i < |certs| && certs[i].health != OK;
      assert certs[i] in certs;
      DueIsListed(sp, d, certs, certs[i]);
      assert DueFile(sp, d, certs[i].name);
    }
    if n: CertName :| DueFile(sp, d, n) {
      var c := FoundByName(sp, d, certs, n);
      DueIsListed(sp, d, certs, c);
      DueMeansNeeded(certs, c);
    }
  }

  lemma RenewableIsRotatable(sp: Spec, d: Disk, certs: seq<CertInfo>)
    requires Finds(sp.codec, d, sp.DetectorConfig(), sp.now, certs)
    ensures AllRenewable(sp.RenewalEnv(), d, certs) && AllRestartable(sp.Restarts(false), d) <==> Rotatable(sp, d)
  {
    forall c | c in certs ensures c.health != OK <==> DueFile(sp, d, c.name) {
      DueIsListed(sp, d, certs, c);
    }
    if AllRenewable(sp.RenewalEnv(), d, certs) {
      forall n: CertName | DueFile(sp, d, n) ensures Renewable(sp.RenewalEnv(), d, n) {
        var c := FoundByName(sp, d, certs, n);
      }
    }
  }

  // ---- the whole reconciliation ----

  /** Detection fails: a certificate file is missing or does not decode, or a kubeconfig does not. */
  predicate EndsFailed(sp: Spec, start: World, e: Reconciled) {
    && e.w.attempts == [Detecting, Failed] && e.w.disk == start.disk && e.result == Requeue(RequeueInterval(sp.checkIntervalHours))
    && Shows(e.w, Failed, if sp.detectError != "" then sp.detectError else ReasonOf(start.server), RenewedAt(start.server))
  }

  /** Nothing is due. */
  predicate EndsAtRest(sp: Spec, start: World, e: Reconciled) {
    && e.w.attempts == [Detecting, Idle] && e.w.disk == start.disk && ComesBack(sp, e)
    && Shows(e.w, Idle, ReasonOf(start.server), RenewedAt(start.server))
  }

  /** What was due is renewed, or would be in a live run. */
  ghost predicate EndsRenewed(sp: Spec, start: World, e: Reconciled) {
    && e.w.attempts == [Detecting, Renewing, Idle] && ComesBack(sp, e) && Shows(e.w, Idle, "", Some(sp.renewedAt))
    && (if sp.dryRun then OnlyBackup(sp, start.disk, e.w.disk) else RenewsTheDue(sp, start.disk, e.w.disk))
  }

  /** Every pair whose certificate was due is renewed, and every other pair is untouched. */
  ghost predicate RenewsTheDue(sp: Spec, d: Disk, e: Disk) {
    forall a :: IsPem(a) ==> if DueFile(sp, d, a) then Renewed(sp.RenewalEnv(), d, e, a) else SamePair(d, e, sp.dirs.pki, a)
  }

  lemma DueByName(sp: Spec, d: Disk, certs: seq<CertInfo>, a: CertName)
    requires IsPem(a) && Finds(sp.codec, d, sp.DetectorConfig(), sp.now, certs)
    ensures NotDue(certs, a) <==> !DueFile(sp, d, a)
  {
    assert CertFile(a).Some?;
    var c :| c in certs && c.name == a;
    forall x | x in certs && x.name == a ensures x.health != OK <==> DueFile(sp, d, a) {
      DueIsListed(sp, d, certs, x);
    }
  }

  /** What `LiveRotation` says of one pair. */
  lemma PairOfLiveRotation(sp: Spec, w: World, certs: seq<CertInfo>, a: CertName)
    requires Installed(sp, w.disk) && FromDetection(sp.RenewalEnv(), certs) && !sp.dryRun && RunRenewal(sp, w, certs).out == Ok && IsPem(a)
    ensures if NotDue(certs, a) then SamePair(w.disk, RunRenewal(sp, w, certs).w.disk, sp.dirs.pki, a)
            else Renewed(sp.RenewalEnv(), w.disk, RunRenewal(sp, w, certs).w.disk, a)
  {
    LiveRotation(sp, w, certs);
  }

  lemma RunRenewsTheDue(sp: Spec, w: World, certs: seq<CertInfo>)
    requires Installed(sp, w.disk) && FromDetection(sp.RenewalEnv(), certs) && Finds(sp.codec, w.disk, sp.DetectorConfig(), sp.now, certs)
    requires !sp.dryRun && RunRenewal(sp, w, certs).out == Ok
    ensures RenewsTheDue(sp, w.disk, RunRenewal(sp, w, certs).w.disk)
  {
    forall a | IsPem(a)
      ensures if DueFile(sp, w.disk, a) then Renewed(sp.RenewalEnv(), w.disk, RunRenewal(sp, w, certs).w.disk, a)
              else SamePair(w.disk, RunRenewal(sp, w, certs).w.disk, sp.dirs.pki, a)
    {
      DueByName(sp, w.disk, certs, a);
      PairOfLiveRotation(sp, w, certs, a);
    }
  }

  /** The renewal fails, and its rollback, or an empty manifest, takes the process down. */
  predicate EndsDown(e: Reconciled) {
    && e.result == Panicked && e.w.server.Some?
    && (|| (e.w.attempts == [Detecting, Renewing] && e.w.server.value.phase == Renewing)
        || (e.w.attempts == [Detecting, Renewing, RollingBack] && e.w.server.value.phase == RollingBack))
  }

  const PATIENCE := ENOUGH + 5

  lemma DetectionFails(sp: Spec, w: World, certs: seq<CertInfo>, out: Outcome)
    requires Synced(w) && w.attempts == [Detecting] && out == Err && Undisturbed(w.fates) && w.fates != []
    ensures var e := AfterDetection(sp, StagesOf(sp, None), w, certs, out);
      && e.w.attempts == [Detecting, Failed] && e.w.disk == w.disk && e.result == Requeue(RequeueInterval(sp.checkIntervalHours))
      && Shows(e.w, Failed, if sp.detectError != "" then sp.detectError else ReasonOf(w.server), RenewedAt(w.server))
  {
    PatchLives(w, sp.node, SetPhase(Failed, sp.detectError));
    assert [Detecting] + [Failed] == [Detecting, Failed];
  }

  lemma CheckLives(sp: Spec, w: World, certs: seq<CertInfo>)
    requires Synced(w) && w.attempts == [Detecting] && Undisturbed(w.fates) && w.fates != []
    ensures var c := Checked(sp, w, certs);
      && c.out == Ok && Synced(c.w) && c.w.disk == w.disk && c.w.attempts == [Detecting] && c.w.fates == w.fates[1..] && Undisturbed(c.w.fates)
      && c.w.server.Some? && Tells(c.w.server, ReasonOf(w.server), RenewedAt(w.server))
  {
    PatchLives(w, sp.node, SetCertStatus(CertStatuses(certs), sp.checkedAt));
    assert [Detecting] + [] == [Detecting];
  }

  lemma RestsLive(sp: Spec, w: World, certs: seq<CertInfo>)
    requires Synced(w) && w.attempts == [Detecting] && Undisturbed(w.fates) && |w.fates| >= 3 && !NeedsRenewal(certs)
    ensures var e := AfterDetection(sp, StagesOf(sp, None), w, certs, Ok);
      && e.w.attempts == [Detecting, Idle] && e.w.disk == w.disk && ComesBack(sp, e)
      && Shows(e.w, Idle, ReasonOf(w.server), RenewedAt(w.server))
  {
    var c := Checked(sp, w, certs).w;
    CheckLives(sp, w, certs);
    PatchLives(c, sp.node, SetPhase(Idle, ""));
    ConditionsLive(PatchOwn(c, sp.node, SetPhase(Idle, "")).w);
    assert [Detecting] + [Idle] == [Detecting, Idle];
  }

  lemma MovesLive(sp: Spec, w: World, certs: seq<CertInfo>)
    requires Synced(w) && w.attempts == [Detecting] && Undisturbed(w.fates) && |w.fates| >= 2 && NeedsRenewal(certs)
    ensures var v := Moved(sp, w, certs).w;
      && AfterDetection(sp, StagesOf(sp, None), w, certs, Ok) == FromRenewing(sp, StagesOf(sp, None), v, certs)
      && Synced(v) && v.disk == w.disk && v.attempts == [Detecting, Renewing] && v.server.Some? && v.server.value.phase == Renewing
      && Undisturbed(v.fates) && |v.fates| == |w.fates| - 2
  {
    var c := Checked(sp, w, certs).w;
    CheckLives(sp, w, certs);
    PatchLives(c, sp.node, SetPhase(Renewing, ""));
    assert [Detecting] + [Renewing] == [Detecting, Renewing];
  }

  lemma DueLives(sp: Spec, w: World, certs: seq<CertInfo>)
    requires Installed(sp, w.disk) && FromDetection(sp.RenewalEnv(), certs) && Finds(sp.codec, w.disk, sp.DetectorConfig(), sp.now, certs)
    requires Synced(w) && w.attempts == [Detecting] && Undisturbed(w.fates) && |w.fates| >= ENOUGH + 8 * |certs| + 4 && NeedsRenewal(certs)
    ensures var e := AfterDetection(sp, StagesOf(sp, None), w, certs, Ok);
      if sp.dryRun || Rotatable(sp, w.disk) then EndsRenewed(sp, w, e) else EndsDown(e)
  {
    var v := Moved(sp, w, certs).w;
    MovesLive(sp, w, certs);
    RenewingEnds(sp, v, certs);
    if sp.dryRun {
      RunLives(sp, v, certs);
      DryRunKeeps(sp, v, certs);
    } else {
      RenewableIsRotatable(sp, w.disk, certs);
      WhenRotationSucceeds(sp, v, certs);
      if RunRenewal(sp, v, certs).out == Ok { RunRenewsTheDue(sp, v, certs); }
    }
  }

  lemma DryRunKeeps(sp: Spec, w: World, certs: seq<CertInfo>)
    requires sp.dryRun
    ensures OnlyBackup(sp, w.disk, RunRenewal(sp, w, certs).w.disk)
  {
    RunIsStages(sp, w, certs);
    BackedIsOnlyBackup(sp, w);
  }

  lemma StartLives(sp: Spec, start: World)
    requires start.attempts == [] && FreeOfMarks(start) && Undisturbed(start.fates) && start.fates != []
    ensures var w := PatchOwn(start.(local := start.server), sp.node, SetPhase(Detecting, "")).w;
      && ReconcileEffect(sp, StagesOf(sp, None), Found(start.server), start) == FromDetecting(sp, StagesOf(sp, None), w)
      && Synced(w) && w.disk == start.disk && w.attempts == [Detecting] && w.fates == start.fates[1..] && Undisturbed(w.fates)
      && Tells(w.server, ReasonOf(start.server), RenewedAt(start.server))
  {
    PatchLives(start.(local := start.server), sp.node, SetPhase(Detecting, ""));
    assert [] + [Detecting] == [Detecting];
  }

  lemma AllLegibleInOrder(sp: Spec, d: Disk)
    requires IsVisit(sp.order)
    ensures AllLegible(sp, d) <==> forall n :: n in sp.order ==> Legible(sp.codec, d, sp.DetectorConfig(), n)
  {
  }

  /** A reconciliation of the shipped controller that nothing disturbs, from a fresh read of a node that was
      not given up, is decided by the disk: detection fails if a file is missing or does not decode;
      nothing happens if nothing is due; otherwise a dry run reports a renewal, and a live one renews if
      everything due can be renewed and all manifests can be stamped, and else goes down. */
  lemma UndisturbedReconcile(sp: Spec, start: World)
    requires Installed(sp, start.disk) && IsVisit(sp.order) && start.attempts == [] && FreeOfMarks(start)
    requires Undisturbed(start.fates) && |start.fates| >= PATIENCE + 9 * |sp.order|
    ensures var e := ReconcileEffect(sp, StagesOf(sp, None), Found(start.server), start);
      if !AllLegible(sp, start.disk) then EndsFailed(sp, start, e)
      else if !SomeDue(sp, start.disk) then EndsAtRest(sp, start, e)
      else if sp.dryRun || Rotatable(sp, start.disk) then EndsRenewed(sp, start, e)
      else EndsDown(e)
  {
    var w := PatchOwn(start.(local := start.server), sp.node, SetPhase(Detecting, "")).w;
    var d := DetectFrom(sp.codec, w.disk, sp.DetectorConfig(), sp.now, [], sp.order, w.fates);
    StartLives(sp, start);
    UndisturbedDetection(sp.codec, w.disk, sp.DetectorConfig(), sp.now, [], sp.order, w.fates);
    WhenDetectionSucceeds(sp.codec, w.disk, sp.DetectorConfig(), sp.now, [], sp.order, w.fates);
    AllLegibleInOrder(sp, start.disk);
    DetectedIsFromDetection(sp, w);
    var u := w.(fates := d.fates);
    if d.out != Ok {
      DetectionFails(sp, u, d.certs, d.out);
    } else {
      NeedIsDue(sp, start.disk, d.certs);
      if NeedsRenewal(d.certs) {
        DueLives(sp, u, d.certs);
      } else {
        RestsLive(sp, u, d.certs);
      }
    }
  }
}
