/** Certificates and keys across reconciliations: when a pair matches at the end, how a foreign key
    comes to lie beside a certificate, and that nothing takes it away again. */
module PairLaws {
  import opened Wrappers
  import opened Host
  import opened Status
  import opened Cluster
  import opened X509
  import opened Generator
  import opened Detector
  import opened Expiry
  import opened Backup
  import opened BackupLaws
  import opened Renewal
  import opened RenewalLaws
  import opened Reconcile
  import opened ReconcileLaws
  import opened RecoveryLaws
  import opened RotationLaws
  import opened ProgressLaws
  import opened StatusLaws

  // ---- a reconciliation that ends idle ----

  /** The disk at the end is the one at the start, and nothing was due, or the one that a renewal left
      that succeeded on what detection had found. */
  ghost predicate IdleRun(sp: Spec, st: Stages, d0: Disk, d: Disk, v: World, certs: seq<CertInfo>) {
    && FromDetection(sp.RenewalEnv(), certs) && Finds(sp.codec, d0, sp.DetectorConfig(), sp.now, certs)
    && if NeedsRenewal(certs) then v.disk == d0 && d == st.renew(v, certs).w.disk && st.renew(v, certs).out == Ok else d == d0
  }

  lemma IdleRenewing(sp: Spec, st: Stages, w: World, certs: seq<CertInfo>)
    requires Silent(st) && w.attempts == [Detecting, Renewing] && EndsIdle(FromRenewing(sp, st, w, certs))
    ensures st.renew(w, certs).out == Ok && FromRenewing(sp, st, w, certs).w.disk == st.renew(w, certs).w.disk
  {
    var r := st.renew(w, certs);
    assert r.w.attempts == w.attempts;
    PatchLaw(r.w, sp.node, SetRenewed(sp.renewedAt));
    if r.out != Ok && !Dies(r) {
      var rolling := PatchOwn(r.w, sp.node, SetPhase(RollingBack, sp.renewError));
      PatchLaw(r.w, sp.node, SetPhase(RollingBack, sp.renewError));
      if !Dies(rolling) {
        RollingBackAttempts(sp, st, rolling.w);
      }
    }
  }

  function Checked(sp: Spec, w: World, certs: seq<CertInfo>): Ran {
    PatchOwn(w, sp.node, SetCertStatus(CertStatuses(certs), sp.checkedAt))
  }

  function Moved(sp: Spec, w: World, certs: seq<CertInfo>): Ran {
    PatchOwn(Checked(sp, w, certs).w, sp.node, SetPhase(Renewing, ""))
  }

  lemma IdleWithoutRenewal(sp: Spec, st: Stages, w: World, certs: seq<CertInfo>)
    requires !NeedsRenewal(certs)
    ensures AfterDetection(sp, st, w, certs, Ok).w.disk == w.disk
  {
    PatchLaw(w, sp.node, SetCertStatus(CertStatuses(certs), sp.checkedAt));
    PatchLaw(Checked(sp, w, certs).w, sp.node, SetPhase(Idle, ""));
  }

  lemma IdleWithRenewal(sp: Spec, st: Stages, w: World, certs: seq<CertInfo>)
    requires Silent(st) && w.attempts == [Detecting] && NeedsRenewal(certs) && EndsIdle(AfterDetection(sp, st, w, certs, Ok))
    ensures var v := Moved(sp, w, certs).w;
      v.disk == w.disk && st.renew(v, certs).out == Ok && AfterDetection(sp, st, w, certs, Ok).w.disk == st.renew(v, certs).w.disk
  {
    PatchAttempts(w, sp.node, SetCertStatus(CertStatuses(certs), sp.checkedAt));
    PatchAttempts(Checked(sp, w, certs).w, sp.node, SetPhase(Renewing, ""));
    if Checked(sp, w, certs).out == Ok && Moved(sp, w, certs).out == Ok {
      IdleRenewing(sp, st, Moved(sp, w, certs).w, certs);
    }
  }

  lemma IdleMeansDetected(sp: Spec, st: Stages, w: World, certs: seq<CertInfo>, out: Outcome)
    requires w.attempts == [Detecting] && EndsIdle(AfterDetection(sp, st, w, certs, out))
    ensures out == Ok
  {
    PatchAttempts(w, sp.node, SetPhase(Failed, sp.detectError));
  }

  lemma IdleDetection(sp: Spec, st: Stages, w: World, certs: seq<CertInfo>, out: Outcome) returns (v: World)
    requires Silent(st) && w.attempts == [Detecting] && EndsIdle(AfterDetection(sp, st, w, certs, out))
    requires out == Ok ==> FromDetection(sp.RenewalEnv(), certs) && Finds(sp.codec, w.disk, sp.DetectorConfig(), sp.now, certs)
    ensures out == Ok && IdleRun(sp, st, w.disk, AfterDetection(sp, st, w, certs, out).w.disk, v, certs)
  {
    v := Moved(sp, w, certs).w;
    IdleMeansDetected(sp, st, w, certs, out);
    if NeedsRenewal(certs) {
      IdleWithRenewal(sp, st, w, certs);
    } else {
      IdleWithoutRenewal(sp, st, w, certs);
    }
  }

  lemma IdleRuns(sp: Spec, st: Stages, start: World) returns (v: World, certs: seq<CertInfo>)
    requires Silent(st) && IsVisit(sp.order) && start.attempts == [] && EndsIdle(ReconcileEffect(sp, st, Found(start.server), start))
    ensures IdleRun(sp, st, start.disk, ReconcileEffect(sp, st, Found(start.server), start).w.disk, v, certs)
  {
    var w := start.(local := start.server);
    var detecting := PatchOwn(w, sp.node, SetPhase(Detecting, ""));
    PatchLaw(w, sp.node, SetPhase(Detecting, ""));
    assert [] + [Detecting] == [Detecting];
    var u := detecting.w;
    var d := DetectFrom(sp.codec, u.disk, sp.DetectorConfig(), sp.now, [], sp.order, u.fates);
    certs := d.certs;
    DetectedIsFromDetection(sp, u);
    v := IdleDetection(sp, st, u.(fates := d.fates), d.certs, d.out);
  }

  lemma RotatedPair(sp: Spec, w: World, certs: seq<CertInfo>, a: CertName)
    requires Lawful(sp.codec) && Installed(sp, w.disk) && FromDetection(sp.RenewalEnv(), certs) && !sp.dryRun && IsPem(a)
    requires RunRenewal(sp, w, certs).out == Ok
    ensures PairMatches(sp.codec, RunRenewal(sp, w, certs).w.disk, sp.dirs.pki, a) <==>
            !NotDue(certs, a) || PairMatches(sp.codec, w.disk, sp.dirs.pki, a)
  {
    LiveRotation(sp, w, certs);
    if NotDue(certs, a) {
      SamePairMatches(sp.codec, w.disk, RunRenewal(sp, w, certs).w.disk, sp.dirs.pki, a);
    } else {
      RenewedMeans(sp.RenewalEnv(), w.disk, RunRenewal(sp, w, certs).w.disk, a);
    }
  }

  /** After a live reconciliation that ends idle, a certificate lies beside its own key exactly when it
      was due on the disk, or lay beside it before. */
  lemma WhenIdlePairMatches(sp: Spec, start: World, state: Option<State.Snapshot>, a: CertName)
    requires Lawful(sp.codec) && Installed(sp, start.disk) && IsVisit(sp.order) && !sp.dryRun && IsPem(a) && start.attempts == []
    requires EndsIdle(ReconcileEffect(sp, StagesOf(sp, state), Found(start.server), start))
    ensures PairMatches(sp.codec, ReconcileEffect(sp, StagesOf(sp, state), Found(start.server), start).w.disk, sp.dirs.pki, a) <==>
            !OkOnDisk(sp, start.disk, a) || PairMatches(sp.codec, start.disk, sp.dirs.pki, a)
  {
    StagesAreSilent(sp, state);
    var v, certs := IdleRuns(sp, StagesOf(sp, state), start);
    NotDueIsOk(sp, start.disk, certs, a);
    if NeedsRenewal(certs) {
      RotatedPair(sp, v, certs, a);
    } else {
      NothingDue(certs, a);
    }
  }

  lemma NothingDue(certs: seq<CertInfo>, a: CertName)
    requires !NeedsRenewal(certs)
    ensures NotDue(certs, a)
  {
    forall c | c in certs && c.name == a ensures c.health == OK {
      if c.health != OK { DueMeansNeeded(certs, c); }
    }
  }

  // ---- a pair whose certificate is OK ----

  lemma BackupKeepsPair(sp: Spec, w: World, a: CertName)
    requires Separate(sp.dirs.backup, sp.dirs.pki) && IsPem(a)
    ensures SamePair(w.disk, Backed(sp, w).w.disk, sp.dirs.pki, a) && Noted(sp, w).w.disk == Backed(sp, w).w.disk
  {
    BackedIsOnlyBackup(sp, w);
    SeparateBelow(sp.dirs, sp.node, sp.stamp, sp.dirs.pki);
    SavedIsElsewhere(sp.Path(), sp.dirs.pki, CertPaths(a).value.0);
    SavedIsElsewhere(sp.Path(), sp.dirs.pki, CertPaths(a).value.1);
  }

  lemma NotDueStays(env: Env, d: Disk, certs: seq<CertInfo>, fates: seq<Fate>, a: CertName)
    requires FromDetection(env, certs) && IsPem(a) && NotDue(certs, a)
    ensures SamePair(d, RenewAll(env, d, certs, fates).disk, env.pkiDir, a)
  {
    var n := RenewAllProgress(env, d, certs, fates);
    assert !DueWithin(certs, Upto(certs, n), a);
  }

  lemma OkPairInRenewal(sp: Spec, w: World, certs: seq<CertInfo>, a: CertName)
    requires Separate(sp.dirs.backup, sp.dirs.pki) && FromDetection(sp.RenewalEnv(), certs) && IsPem(a) && NotDue(certs, a)
    ensures SamePair(w.disk, RunRenewal(sp, w, certs).w.disk, sp.dirs.pki, a)
  {
    var env, pki := sp.RenewalEnv(), sp.dirs.pki;
    var d0, d1, d2, d3 := w.disk, Backed(sp, w).w.disk, Looped(sp, w, certs).w.disk, Bounced(sp, w, certs).w.disk;
    RunIsStages(sp, w, certs);
    BackupKeepsPair(sp, w, a);
    NotDueStays(env, d1, certs, Noted(sp, w).w.fates, a);
    RestartIsNoMatter(sp.Restarts(false), pki, d2, Looped(sp, w, certs).w.fates);
    assert SamePair(d2, d3, pki, a);
  }

  /** However a reconciliation ends, it leaves a pair alone whose certificate is OK, matching or not. */
  lemma OkPairIsLeft(sp: Spec, start: World, a: CertName)
    requires Separate(sp.dirs.backup, sp.dirs.pki) && IsVisit(sp.order) && IsPem(a) && OkOnDisk(sp, start.disk, a)
    ensures SamePair(start.disk, ReconcileEffect(sp, StagesOf(sp, None), Found(start.server), start).w.disk, sp.dirs.pki, a)
  {
    ShippedRollbackKeepsDisk(sp);
    var v, certs := ReconcileRuns(sp, StagesOf(sp, None), start);
    if ReconcileEffect(sp, StagesOf(sp, None), Found(start.server), start).w.disk != start.disk {
      OkIsNotDue(sp, start.disk, certs, a);
      OkPairInRenewal(sp, v, certs, a);
    }
  }

  /** The reconciliations of one installation. */
  ghost predicate SameSite(specs: seq<Spec>, dirs: Dirs, codec: Codec) {
    forall sp :: sp in specs ==> sp.dirs == dirs && sp.codec == codec && IsVisit(sp.order)
  }

  /** No number of reconciliations touches a pair whose certificate stays OK. */
  lemma {:induction false} OkPairIsNeverTouched(specs: seq<Spec>, scripts: seq<seq<Fate>>, w: World, dirs: Dirs, codec: Codec, a: CertName)
    requires |specs| == |scripts| && SameSite(specs, dirs, codec) && Separate(dirs.backup, dirs.pki) && IsPem(a)
    requires forall sp :: sp in specs ==> OkOnDisk(sp, w.disk, a)
    ensures SamePair(w.disk, ReconcileMany(specs, scripts, w, None).disk, dirs.pki, a)
    decreases |specs|
  {
    if specs != [] {
      var sp := specs[0];
      var r := ReconcileEffect(sp, StagesOf(sp, None), Found(w.server), w.(fates := scripts[0], attempts := []));
      assert sp in specs && forall x :: x in specs[1..] ==> x in specs;
      OkPairIsLeft(sp, w.(fates := scripts[0], attempts := []), a);
      OkPairIsNeverTouched(specs[1..], scripts[1..], r.w, dirs, codec, a);
    }
  }

  // ---- a torn certificate file ----

  /** The certificate file of this pair is missing or does not decode. */
  predicate TornOnDisk(sp: Spec, d: Disk, a: CertName)
    requires IsPem(a)
  {
    var crt := CrtPath(sp.dirs.pki, a);
    crt in d.files ==> sp.codec.decodeCert(d.files[crt]).None?
  }

  lemma FoundIsNotTorn(sp: Spec, d: Disk, certs: seq<CertInfo>, a: CertName)
    requires IsPem(a) && Finds(sp.codec, d, sp.DetectorConfig(), sp.now, certs)
    ensures !TornOnDisk(sp, d, a)
  {
    assert CertFile(a).Some? && PathOf(sp.DetectorConfig(), a) == CrtPath(sp.dirs.pki, a);
    var c :| c in certs && c.name == a;
  }

  lemma TornStopsDetection(sp: Spec, w: World, a: CertName)
    requires IsVisit(sp.order) && IsPem(a) && TornOnDisk(sp, w.disk, a)
    ensures DetectFrom(sp.codec, w.disk, sp.DetectorConfig(), sp.now, [], sp.order, w.fates).out != Ok
  {
    DetectedIsFromDetection(sp, w);
    var d := DetectFrom(sp.codec, w.disk, sp.DetectorConfig(), sp.now, [], sp.order, w.fates);
    if d.out == Ok {
      FoundIsNotTorn(sp, w.disk, d.certs, a);
    }
  }

  lemma TornStopsReconcile(sp: Spec, st: Stages, start: World, a: CertName)
    requires IsVisit(sp.order) && IsPem(a) && TornOnDisk(sp, start.disk, a)
    ensures ReconcileEffect(sp, st, Found(start.server), start).w.disk == start.disk
  {
    var w := start.(local := start.server);
    var detecting := PatchOwn(w, sp.node, SetPhase(Detecting, ""));
    PatchLaw(w, sp.node, SetPhase(Detecting, ""));
    if detecting.out == Ok {
      var u := detecting.w;
      var d := DetectFrom(sp.codec, u.disk, sp.DetectorConfig(), sp.now, [], sp.order, u.fates);
      TornStopsDetection(sp, u, a);
      PatchLaw(u.(fates := d.fates), sp.node, SetPhase(Failed, sp.detectError));
    }
  }

  /** A certificate file that a dying write left torn stops the rotation for good: no number of
      reconciliations writes any file again. */
  lemma {:induction false} TornCertificateStopsEverything(specs: seq<Spec>, scripts: seq<seq<Fate>>, w: World, dirs: Dirs, codec: Codec,
                                                          a: CertName, state: Option<State.Snapshot>)
    requires |specs| == |scripts| && SameSite(specs, dirs, codec) && IsPem(a)
    requires forall sp :: sp in specs ==> TornOnDisk(sp, w.disk, a)
    ensures ReconcileMany(specs, scripts, w, state).disk == w.disk
    decreases |specs|
  {
    if specs != [] {
      var sp := specs[0];
      var start := w.(fates := scripts[0], attempts := []);
      assert sp in specs && forall x :: x in specs[1..] ==> x in specs;
      TornStopsReconcile(sp, StagesOf(sp, state), start, a);
      TornCertificateStopsEverything(specs[1..], scripts[1..], ReconcileEffect(sp, StagesOf(sp, state), Found(w.server), start).w,
                                     dirs, codec, a, state);
    }
  }

  // ---- when detection succeeds ----

  /** Detection gets past the file of this certificate: it decodes, or it is a kubeconfig that is not
      there. */
  predicate Legible(codec: Codec, d: Disk, cfg: Config, n: CertName) {
    if PathOf(cfg, n) in d.files then Decoded(codec, n, d.files[PathOf(cfg, n)]).Some? else CertFile(n).None?
  }

  /** A detection that nothing disturbs succeeds exactly when it gets past every file. */
  lemma {:induction false} WhenDetectionSucceeds(codec: Codec, d: Disk, cfg: Config, now: int, certs: seq<CertInfo>, order: seq<CertName>,
                                                 fates: seq<Fate>)
    requires Undisturbed(fates) && |fates| >= |order|
    ensures DetectFrom(codec, d, cfg, now, certs, order, fates).out == Ok <==> forall n :: n in order ==> Legible(codec, d, cfg, n)
    decreases |order|
  {
    if order != [] {
      var name, rest := order[0], order[1..];
      assert fates[0] in fates && forall n :: n in order <==> n == name || n in rest;
      UndisturbedRest(fates, 1);
      if Legible(codec, d, cfg, name) {
        var more := if PathOf(cfg, name) !in d.files then []
                    else [Info(cfg, name, Decoded(codec, name, d.files[PathOf(cfg, name)]).value, now)];
        assert certs + [] == certs;
        WhenDetectionSucceeds(codec, d, cfg, now, certs + more, rest, fates[1..]);
      }
    }
  }

  // ---- how a foreign key comes about ----

  predicate DoneFor(fates: seq<Fate>, n: nat) {
    n <= |fates| && forall i :: 0 <= i < n ==> fates[i].Done?
  }

  lemma DoneAfter(fates: seq<Fate>, n: nat, k: nat)
    requires k <= n && DoneFor(fates, n)
    ensures DoneFor(fates[k..], n - k)
  {
  }

  function Cost(items: seq<Item>): nat {
    if items == [] then 0 else (if items[0].mkdir then 2 else 1) + Cost(items[1..])
  }

  lemma {:induction false} DoneCopy(d: Disk, items: seq<Item>, fates: seq<Fate>)
    requires DoneFor(fates, Cost(items))
    ensures var s := CopyItems(d, items, fates); s.out == Ok && s.fates == fates[Cost(items)..]
    decreases |items|
  {
    if items != [] {
      var one := if items[0].mkdir then 2 else 1;
      var s := CopyItem(d, items[0], fates);
      if items[0].mkdir { assert fates[1..][1..] == fates[2..]; }
      assert s.fates == fates[one..];
      DoneAfter(fates, Cost(items), one);
      DoneCopy(s.disk, items[1..], s.fates);
      assert fates[one..][Cost(items[1..])..] == fates[Cost(items)..];
    }
  }

  lemma {:induction false} CostOf(items: seq<Item>, n: nat)
    requires n <= |items| && forall i :: 0 <= i < |items| ==> (items[i].mkdir <==> i < n)
    ensures Cost(items) == |items| + n
    decreases |items|
  {
    if items != [] {
      CostOf(items[1..], if n > 0 then n - 1 else 0);
    }
  }

  const BACKUP_COST: nat := 46

  lemma DoneCreate(dirs: Dirs, d: Disk, path: string, fates: seq<Fate>)
    requires DoneFor(fates, BACKUP_COST)
    ensures var s := CreateEffect(dirs, d, path, fates); s.out == Ok && s.fates == fates[BACKUP_COST..]
  {
    var items := CreateItems(dirs, path);
    var a := MkdirAll(d, Join(path, "pki"), fates);
    var b := MkdirAll(a.disk, Join(path, "kubeconfigs"), a.fates);
    TheItems(dirs, path);
    CostOf(items, 20);
    assert fates[1..][1..] == fates[2..];
    DoneAfter(fates, BACKUP_COST, 2);
    DoneCopy(b.disk, items, b.fates);
    assert fates[2..][44..] == fates[46..];
  }

  /** The key on disk is not the one that the renewal draws. */
  predicate FreshKeyDiffers(env: Env, d: Disk, name: CertName)
    requires IsPem(name)
  {
    var key := KeyPath(env.pkiDir, name);
    key in d.files && env.codec.decodeKey(d.files[key]).Some? ==>
      env.codec.decodeKey(d.files[key]).value.public != env.seeds(name).key.public
  }

  /** One certificate, when the process dies after it was written and before its key is. */
  lemma DiesBetween(env: Env, d: Disk, info: CertInfo, fates: seq<Fate>)
    requires Lawful(env.codec) && Renewable(env, d, info.name) && info.path == CrtPath(env.pkiDir, info.name)
    requires FreshKeyDiffers(env, d, info.name)
    requires |fates| > 6 && DoneFor(fates, 6) && fates[6].Killed?
    ensures var s := RenewOne(env, d, info, fates);
      var crt := CrtPath(env.pkiDir, info.name);
      && s.out == Crash && !PairMatches(env.codec, s.disk, env.pkiDir, info.name)
      && crt in s.disk.files && env.codec.decodeCert(s.disk.files[crt]).Some?
      && env.codec.decodeCert(s.disk.files[crt]).value.notAfter == env.seeds(info.name).now + CERT_VALIDITY
  {
    var ca, paths, seed := CAForCert(info.name), CertPaths(info.name).value, env.seeds(info.name);
    UndisturbedLoad(env.codec.decodeCert, d, info.path, fates);
    UndisturbedLoad(env.codec.decodeCert, d, ca.0, fates[1..]);
    assert fates[1..][1..] == fates[2..];
    UndisturbedLoad(env.codec.decodeKey, d, ca.1, fates[2..]);
    assert fates[2..][1..] == fates[3..] && fates[3..][1..] == fates[4..];
    var existing := env.codec.decodeCert(d.files[info.path]).value;
    var caCert, caKey := env.codec.decodeCert(d.files[ca.0]).value, env.codec.decodeKey(d.files[ca.1]).value;
    var cert := SignWithSelfKey(existing, caCert, caKey, seed).value;
    RenewalMirrors(existing, caCert, caKey, seed);
    HalfPair(env, d, info.name, cert, fates[4..]);
  }

  lemma HalfPair(env: Env, d: Disk, name: CertName, cert: Certificate, fates: seq<Fate>)
    requires Lawful(env.codec) && IsPem(name) && FreshKeyDiffers(env, d, name) && cert.publicKey == env.seeds(name).key.public
    requires |fates| > 2 && fates[0].Done? && fates[1].Done? && fates[2].Killed?
    ensures var crt, key := CrtPath(env.pkiDir, name), KeyPath(env.pkiDir, name);
      var s := WritePair(d, crt, key, env.codec.encodeCert(cert), env.codec.encodeKey(env.seeds(name).key), fates);
      && s.out == Crash && !PairMatches(env.codec, s.disk, env.pkiDir, name)
      && crt in s.disk.files && env.codec.decodeCert(s.disk.files[crt]) == Some(cert)
  {
    var crt, key := CrtPath(env.pkiDir, name), KeyPath(env.pkiDir, name);
    var s := WriteInto(d, crt, env.codec.encodeCert(cert), fates);
    UndisturbedWrite(d, crt, env.codec.encodeCert(cert), fates);
    WriteIntoLaw(d, crt, env.codec.encodeCert(cert), fates);
    TargetsDiffer(env.pkiDir, name, name);
    assert SameAt(d, s.disk, key) && fates[2..][0] == fates[2];
  }

  lemma FirstDies(env: Env, d: Disk, certs: seq<CertInfo>, fates: seq<Fate>)
    requires certs != [] && certs[0].health != OK && RenewOne(env, d, certs[0], fates).out == Crash
    ensures RenewAll(env, d, certs, fates) == RenewOne(env, d, certs[0], fates)
  {
  }

  lemma DoneNoted(sp: Spec, w: World)
    requires Synced(w) && DoneFor(w.fates, BACKUP_COST + 1)
    ensures Backed(sp, w).out == Ok && Noted(sp, w).out == Ok && Noted(sp, w).w.fates == w.fates[BACKUP_COST + 1..]
    ensures Noted(sp, w).w.disk == Backed(sp, w).w.disk
  {
    DoneCreate(sp.dirs, w.disk, sp.Path(), w.fates);
    BackedIsOnlyBackup(sp, w);
    assert w.fates[BACKUP_COST..][1..] == w.fates[BACKUP_COST + 1..];
  }

  predicate Mismatched(codec: Codec, d: Disk, pkiDir: string, name: CertName) {
    IsPem(name) && !PairMatches(codec, d, pkiDir, name)
  }

  /** The certificate on disk is valid to `notAfter`, and the key beside it is not its own. */
  predicate Foreign(codec: Codec, d: Disk, pkiDir: string, name: CertName, notAfter: int) {
    Mismatched(codec, d, pkiDir, name)
    && var crt := CrtPath(pkiDir, name);
    crt in d.files && codec.decodeCert(d.files[crt]).Some? && codec.decodeCert(d.files[crt]).value.notAfter == notAfter
  }

  /** The first certificate that is due can be renewed. */
  ghost predicate FirstIsRenewable(sp: Spec, w: World, certs: seq<CertInfo>) {
    && Lawful(sp.codec) && Installed(sp, w.disk) && Synced(w) && FromDetection(sp.RenewalEnv(), certs) && !sp.dryRun
    && certs != [] && certs[0].health != OK && Renewable(sp.RenewalEnv(), w.disk, certs[0].name)
  }

  /** And with a key that is not the old one. */
  ghost predicate AboutToRenew(sp: Spec, w: World, certs: seq<CertInfo>) {
    FirstIsRenewable(sp, w, certs) && FreshKeyDiffers(sp.RenewalEnv(), w.disk, certs[0].name)
  }

  /** Nothing disturbs the backup, its record and the first certificate; then the process dies. */
  predicate DiesAfterFirst(fates: seq<Fate>) {
    |fates| > 53 && DoneFor(fates, 53) && fates[53].Killed?
  }

  lemma LoopDiesBetween(sp: Spec, w: World, certs: seq<CertInfo>)
    requires AboutToRenew(sp, w, certs) && DiesAfterFirst(w.fates)
    ensures Looped(sp, w, certs).out == Crash
    ensures Foreign(sp.codec, Looped(sp, w, certs).w.disk, sp.dirs.pki, certs[0].name, sp.seeds(certs[0].name).now + CERT_VALIDITY)
  {
    var env, a := sp.RenewalEnv(), certs[0].name;
    var d1, fates := Backed(sp, w).w.disk, w.fates;
    DoneNoted(sp, w);
    BackedIsOnlyBackup(sp, w);
    BackupIsNoMatter(sp, w.disk, d1);
    assert SamePair(w.disk, d1, sp.dirs.pki, a);
    RenewableFrom(env, w.disk, d1, a);
    DoneAfter(fates, 53, 47);
    assert certs[0] in certs && fates[47..][6] == fates[53];
    DiesBetween(env, d1, certs[0], fates[47..]);
    FirstDies(env, d1, certs, fates[47..]);
  }

  /** A renewal can leave a foreign key behind: nothing disturbs it until the first certificate that is
      due was written, and then the process dies. */
  lemma RotationDiesBetween(sp: Spec, w: World, certs: seq<CertInfo>)
    requires AboutToRenew(sp, w, certs) && DiesAfterFirst(w.fates)
    ensures RunRenewal(sp, w, certs).out == Crash
    ensures Foreign(sp.codec, RunRenewal(sp, w, certs).w.disk, sp.dirs.pki, certs[0].name, sp.seeds(certs[0].name).now + CERT_VALIDITY)
  {
    DoneNoted(sp, w);
    LoopDiesBetween(sp, w, certs);
    RunIsStages(sp, w, certs);
  }

  /** Each of these reconciliations comes while a certificate with this expiry is OK: a day, and its
      threshold and a day, before. */
  ghost predicate AllOkAt(specs: seq<Spec>, notAfter: int) {
    forall s :: s in specs ==> s.now + DAY <= notAfter && s.now + (s.thresholdDays + 1) * DAY <= notAfter
  }

  lemma ForeignIsOk(s: Spec, d: Disk, a: CertName, notAfter: int)
    requires Foreign(s.codec, d, s.dirs.pki, a, notAfter)
    requires s.now + DAY <= notAfter && s.now + (s.thresholdDays + 1) * DAY <= notAfter
    ensures OkOnDisk(s, d, a)
  {
    Windows(s.thresholdDays, notAfter, s.now);
  }

  lemma ForeignIsOkForAll(specs: seq<Spec>, d: Disk, dirs: Dirs, codec: Codec, a: CertName, notAfter: int)
    requires SameSite(specs, dirs, codec) && Foreign(codec, d, dirs.pki, a, notAfter) && AllOkAt(specs, notAfter)
    ensures forall s :: s in specs ==> OkOnDisk(s, d, a)
  {
    forall s | s in specs ensures OkOnDisk(s, d, a) {
      ForeignIsOk(s, d, a, notAfter);
    }
  }

  lemma ForeignIsNeverRepaired(specs: seq<Spec>, scripts: seq<seq<Fate>>, w: World, dirs: Dirs, codec: Codec, a: CertName,
                               notAfter: int)
    requires |specs| == |scripts| && SameSite(specs, dirs, codec) && Separate(dirs.backup, dirs.pki)
    requires Foreign(codec, w.disk, dirs.pki, a, notAfter)
    requires AllOkAt(specs, notAfter)
    ensures Mismatched(codec, ReconcileMany(specs, scripts, w, None).disk, dirs.pki, a)
  {
    ForeignIsOkForAll(specs, w.disk, dirs, codec, a, notAfter);
    OkPairIsNeverTouched(specs, scripts, w, dirs, codec, a);
    SamePairMatches(codec, w.disk, ReconcileMany(specs, scripts, w, None).disk, dirs.pki, a);
  }

  lemma BackupsAreSeparate(sp: Spec, w: World, certs: seq<CertInfo>)
    requires AboutToRenew(sp, w, certs)
    ensures Separate(sp.dirs.backup, sp.dirs.pki)
  {
  }

  /** And it stays: while the new certificate is OK, no number of later reconciliations repairs it. */
  lemma ForeignKeyStays(sp: Spec, w: World, certs: seq<CertInfo>, specs: seq<Spec>, scripts: seq<seq<Fate>>)
    requires AboutToRenew(sp, w, certs) && DiesAfterFirst(w.fates)
    requires |specs| == |scripts| && SameSite(specs, sp.dirs, sp.codec)
    requires AllOkAt(specs, sp.seeds(certs[0].name).now + CERT_VALIDITY)
    ensures Mismatched(sp.codec, ReconcileMany(specs, scripts, RunRenewal(sp, w, certs).w, None).disk, sp.dirs.pki, certs[0].name)
  {
    BackupsAreSeparate(sp, w, certs);
    RotationDiesBetween(sp, w, certs);
    ForeignIsNeverRepaired(specs, scripts, RunRenewal(sp, w, certs).w, sp.dirs, sp.codec, certs[0].name,
                           sp.seeds(certs[0].name).now + CERT_VALIDITY);
  }

  lemma SameListedSamePair(dirs: Dirs, d: Disk, e: Disk, a: CertName)
    requires SameListed(dirs, d, e) && IsPem(a)
    ensures SamePair(d, e, dirs.pki, a)
  {
    TargetsAreListed(dirs, a);
    var i: nat :| i < LISTED && CrtPath(dirs.pki, a) == Live(dirs, i);
    var j: nat :| j < LISTED && KeyPath(dirs.pki, a) == Live(dirs, j);
    assert SameAt(d, e, Live(dirs, i)) && SameAt(d, e, Live(dirs, j));
  }

  lemma HalfRenewedDiffers(sp: Spec, w: World, certs: seq<CertInfo>)
    requires AboutToRenew(sp, w, certs) && DiesAfterFirst(w.fates)
    requires PairMatches(sp.codec, w.disk, sp.dirs.pki, certs[0].name)
    ensures !SameListed(sp.dirs, w.disk, RunRenewal(sp, w, certs).w.disk)
    ensures !SamePair(w.disk, RunRenewal(sp, w, certs).w.disk, sp.dirs.pki, certs[0].name)
  {
    var e, a := RunRenewal(sp, w, certs).w.disk, certs[0].name;
    RotationDiesBetween(sp, w, certs);
    if SamePair(w.disk, e, sp.dirs.pki, a) {
      SamePairMatches(sp.codec, w.disk, e, sp.dirs.pki, a);
    }
    if SameListed(sp.dirs, w.disk, e) {
      SameListedSamePair(sp.dirs, w.disk, e, a);
    }
  }

  lemma HalfRenewedIsNamed(sp: Spec, w: World, certs: seq<CertInfo>)
    requires AboutToRenew(sp, w, certs) && DiesAfterFirst(w.fates) && Ready(sp, w.disk)
    requires PairMatches(sp.codec, w.disk, sp.dirs.pki, certs[0].name)
    ensures Recoverable(sp, w.disk, RunRenewal(sp, w, certs).w)
  {
    var r, a := RunRenewal(sp, w, certs).w, certs[0].name;
    RenewalWritesAhead(sp, w, certs);
    HalfRenewedDiffers(sp, w, certs);
    if OnlyBackup(sp, w.disk, r.disk) {
      PathIsSeparate(sp, w.disk);
      SavedIsElsewhere(sp.Path(), sp.dirs.pki, CertPaths(a).value.0);
      SavedIsElsewhere(sp.Path(), sp.dirs.pki, CertPaths(a).value.1);
    }
  }

  /** After such a death the server names a backup of the files as they were when the pair matched. From
      the next reconciliation that records a backup of its own, it no longer does. */
  lemma NextBackupHoldsForeignKey(sp: Spec, w: World, certs: seq<CertInfo>, next: Spec, script: seq<Fate>)
    requires AboutToRenew(sp, w, certs) && DiesAfterFirst(w.fates) && Ready(sp, w.disk)
    requires PairMatches(sp.codec, w.disk, sp.dirs.pki, certs[0].name)
    requires next.dirs == sp.dirs && IsVisit(next.order) && OutOfTheWay(next, sp.Path())
    requires Ready(next, RunRenewal(sp, w, certs).w.disk)
    ensures Holds(RunRenewal(sp, w, certs).w.disk, Named(RunRenewal(sp, w, certs).w.server), sp.dirs, w.disk)
    ensures var r := RunRenewal(sp, w, certs).w;
      var e := ReconcileEffect(next, StagesOf(next, None), Found(r.server), r.(fates := script, attempts := [])).w;
      && Named(e.server) in {sp.Path(), next.Path()}
      && (Holds(e.disk, Named(e.server), sp.dirs, w.disk) <==> Named(e.server) == sp.Path())
  {
    var r := RunRenewal(sp, w, certs).w;
    HalfRenewedDiffers(sp, w, certs);
    HalfRenewedIsNamed(sp, w, certs);
    WhenOldBackupIsNamed(next, r.(fates := script, attempts := []), sp.Path(), w.disk);
  }

  // ---- how a torn certificate comes about ----

  /** The certificate that a renewal from this disk writes. */
  function NewCert(env: Env, d: Disk, name: CertName): Certificate
    requires Renewable(env, d, name)
  {
    SignWithSelfKey(env.codec.decodeCert(d.files[CrtPath(env.pkiDir, name)]).value, env.codec.decodeCert(d.files[CAForCert(name).0]).value,
                    env.codec.decodeKey(d.files[CAForCert(name).1]).value, env.seeds(name)).value
  }

  lemma DiesInside(env: Env, d: Disk, info: CertInfo, fates: seq<Fate>)
    requires Renewable(env, d, info.name) && info.path == CrtPath(env.pkiDir, info.name)
    requires |fates| > 5 && DoneFor(fates, 5) && fates[5].Killed?
    ensures var s, crt := RenewOne(env, d, info, fates), CrtPath(env.pkiDir, info.name);
      && s.out == Crash && crt in s.disk.files
      && s.disk.files[crt] == Take(fates[5].n, env.codec.encodeCert(NewCert(env, d, info.name)))
  {
    var ca, crt, cert := CAForCert(info.name), CrtPath(env.pkiDir, info.name), NewCert(env, d, info.name);
    UndisturbedLoad(env.codec.decodeCert, d, info.path, fates);
    UndisturbedLoad(env.codec.decodeCert, d, ca.0, fates[1..]);
    assert fates[1..][1..] == fates[2..];
    UndisturbedLoad(env.codec.decodeKey, d, ca.1, fates[2..]);
    assert fates[2..][1..] == fates[3..] && fates[3..][1..] == fates[4..];
    DiesWriting(d, crt, env.codec.encodeCert(cert), fates[4..]);
  }

  lemma DiesWriting(d: Disk, path: string, data: Bytes, fates: seq<Fate>)
    requires |fates| > 1 && fates[0].Done? && fates[1].Killed?
    ensures var s := WriteInto(d, path, data, fates);
      s.out == Crash && path in s.disk.files && s.disk.files[path] == Take(fates[1].n, data)
  {
    assert Dir(path)[..|Dir(path)|] == Dir(path);
    assert Dir(path) in Ancestors(Dir(path), |Dir(path)|);
  }

  lemma NewCertFrom(env: Env, d: Disk, e: Disk, name: CertName)
    requires Renewable(env, d, name)
    requires SameAt(d, e, CrtPath(env.pkiDir, name)) && SameAt(d, e, CAForCert(name).0) && SameAt(d, e, CAForCert(name).1)
    ensures Renewable(env, e, name) && NewCert(env, e, name) == NewCert(env, d, name)
  {
  }

  /** A renewal can leave a torn certificate behind: nothing disturbs it until the first certificate
      that is due is being written, and then the process dies. The file is torn exactly when the
      bytes that were written do not decode. */
  lemma RotationDiesInside(sp: Spec, w: World, certs: seq<CertInfo>)
    requires FirstIsRenewable(sp, w, certs)
    requires |w.fates| > 52 && DoneFor(w.fates, 52) && w.fates[52].Killed?
    ensures IsPem(certs[0].name) && RunRenewal(sp, w, certs).out == Crash
    ensures TornOnDisk(sp, RunRenewal(sp, w, certs).w.disk, certs[0].name) <==>
            sp.codec.decodeCert(Take(w.fates[52].n, sp.codec.encodeCert(NewCert(sp.RenewalEnv(), w.disk, certs[0].name)))).None?
  {
    var env, a := sp.RenewalEnv(), certs[0].name;
    var d1, fates := Backed(sp, w).w.disk, w.fates;
    DoneNoted(sp, w);
    BackedIsOnlyBackup(sp, w);
    BackupIsNoMatter(sp, w.disk, d1);
    assert SamePair(w.disk, d1, sp.dirs.pki, a);
    NewCertFrom(env, w.disk, d1, a);
    DoneAfter(fates, 52, 47);
    assert certs[0] in certs && fates[47..][5] == fates[52];
    DiesInside(env, d1, certs[0], fates[47..]);
    FirstDies(env, d1, certs, fates[47..]);
    RunIsStages(sp, w, certs);
  }

  lemma TornEverywhere(sp: Spec, specs: seq<Spec>, d: Disk, a: CertName)
    requires IsPem(a) && TornOnDisk(sp, d, a) && SameSite(specs, sp.dirs, sp.codec)
    ensures forall s :: s in specs ==> TornOnDisk(s, d, a)
  {
  }

  /** And then no number of later reconciliations writes any file. */
  lemma TornRotationStopsEverything(sp: Spec, w: World, certs: seq<CertInfo>, specs: seq<Spec>, scripts: seq<seq<Fate>>,
                                    state: Option<State.Snapshot>)
    requires FirstIsRenewable(sp, w, certs)
    requires |w.fates| > 52 && DoneFor(w.fates, 52) && w.fates[52].Killed?
    requires sp.codec.decodeCert(Take(w.fates[52].n, sp.codec.encodeCert(NewCert(sp.RenewalEnv(), w.disk, certs[0].name)))).None?
    requires |specs| == |scripts| && SameSite(specs, sp.dirs, sp.codec)
    ensures ReconcileMany(specs, scripts, RunRenewal(sp, w, certs).w, state).disk == RunRenewal(sp, w, certs).w.disk
  {
    var r, a := RunRenewal(sp, w, certs).w, certs[0].name;
    RotationDiesInside(sp, w, certs);
    TornEverywhere(sp, specs, r.disk, a);
    TornCertificateStopsEverything(specs, scripts, r, sp.dirs, sp.codec, a, state);
  }
}
