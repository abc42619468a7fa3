/** What a reader of the status and of the disk may conclude about a whole rotation. */
module RotationLaws {
  import opened Wrappers
  import opened Host
  import opened Status
  import opened Cluster
  import opened X509
  import opened Detector
  import opened Backup
  import opened BackupLaws
  import opened Renewal
  import opened RenewalLaws
  import opened PodRestart
  import opened Reconcile
  import opened ReconcileLaws
  import opened RecoveryLaws

  /** Where the CA files are looked up, whatever PKI directory is configured. */
  const CA_DIR := "/etc/kubernetes/pki"

  ghost predicate Installed(sp: Spec, d: Disk) {
    Ready(sp, d) && Separate(sp.dirs.backup, CA_DIR)
  }

  // ---- which files can be told apart ----

  /** The three CAs, by the base of their file names. */
  function CaBase(a: CertName): string {
    match a
    case EtcdServer => "/etcd/ca"
    case EtcdPeer => "/etcd/ca"
    case EtcdHealthcheckClient => "/etcd/ca"
    case ApiServerEtcdClient => "/etcd/ca"
    case FrontProxyClient => "/front-proxy-ca"
    case _ => "/ca"
  }

  lemma CaPaths(a: CertName)
    ensures CAForCert(a).0 == CA_DIR + CaBase(a) + ".crt" && CAForCert(a).1 == CA_DIR + CaBase(a) + ".key"
  {
    assert "/etc/kubernetes/pki/etcd/ca.crt" == CA_DIR + "/etcd/ca" + ".crt";
    assert "/etc/kubernetes/pki/etcd/ca.key" == CA_DIR + "/etcd/ca" + ".key";
    assert "/etc/kubernetes/pki/front-proxy-ca.crt" == CA_DIR + "/front-proxy-ca" + ".crt";
    assert "/etc/kubernetes/pki/front-proxy-ca.key" == CA_DIR + "/front-proxy-ca" + ".key";
    assert "/etc/kubernetes/pki/ca.crt" == CA_DIR + "/ca" + ".crt";
    assert "/etc/kubernetes/pki/ca.key" == CA_DIR + "/ca" + ".key";
  }

  lemma PathParts(dir: string, base: string, suffix: string)
    requires base != "" && base[0] == '/' && suffix != ""
    ensures dir + base + suffix == dir + "/" + (base[1..] + suffix)
    ensures (dir + base + suffix)[|dir + base + suffix| - 1] == suffix[|suffix| - 1]
  {
    assert base == "/" + base[1..];
  }

  lemma CaFile(a: CertName) returns (crt: string, key: string)
    ensures CAForCert(a).0 == CA_DIR + "/" + crt && CAForCert(a).1 == CA_DIR + "/" + key
    ensures !EndsLikeManifest(CAForCert(a).0) && !EndsLikeManifest(CAForCert(a).1)
  {
    crt, key := CaBase(a)[1..] + ".crt", CaBase(a)[1..] + ".key";
    CaPaths(a);
    PathParts(CA_DIR, CaBase(a), ".crt");
    PathParts(CA_DIR, CaBase(a), ".key");
  }

  lemma CaFilesAreNotSaved(sp: Spec, d: Disk, a: CertName)
    requires Installed(sp, d)
    ensures !IsSaved(sp.Path(), CAForCert(a).0) && !IsSaved(sp.Path(), CAForCert(a).1)
  {
    var crt, key := CaFile(a);
    SeparateBelow(sp.dirs, sp.node, sp.stamp, CA_DIR);
    SavedIsElsewhere(sp.Path(), CA_DIR, crt);
    SavedIsElsewhere(sp.Path(), CA_DIR, key);
  }

  lemma SavedIsElsewhere(path: string, dir: string, x: string)
    requires Separate(path, dir)
    ensures !IsSaved(path, dir + "/" + x)
  {
    forall i: nat | i < LISTED ensures Saved(path, i) != dir + "/" + x {
      JoinedIsElsewhere(path, if i < 20 then "pki" else "kubeconfigs", Name(i), dir, x);
    }
  }

  lemma TargetIsNotSaved(sp: Spec, d: Disk, a: CertName)
    requires Ready(sp, d) && IsPem(a)
    ensures !IsSaved(sp.Path(), CrtPath(sp.dirs.pki, a)) && !IsSaved(sp.Path(), KeyPath(sp.dirs.pki, a))
  {
    PathIsSeparate(sp, d);
    SavedIsElsewhere(sp.Path(), sp.dirs.pki, CertPaths(a).value.0);
    SavedIsElsewhere(sp.Path(), sp.dirs.pki, CertPaths(a).value.1);
  }

  lemma ManifestIsNoTarget(dirs: Dirs, path: string, p: string)
    requires EndsLikeManifest(p)
    ensures !IsSaved(path, p) && !IsTarget(dirs.pki, p)
  {
    if i: nat :| i < LISTED && p == Saved(path, i) {
      PathsEnd(dirs, path, i);
    }
    if a :| IsPem(a) && (p == CrtPath(dirs.pki, a) || p == KeyPath(dirs.pki, a)) {
      TargetsEnd(dirs.pki, a);
    }
  }

  lemma ManifestNames(su: Setup, i: nat)
    requires i < 4
    ensures EndsLikeManifest(Join(su.dir, RESTART_ORDER[i] + ".yaml")) && EndsLikeManifest(Join(su.dir, RESTART_ORDER[i] + ".yml"))
  {
    assert RESTART_ORDER[i] + ".yaml" != "" && RESTART_ORDER[i] + ".yml" != "";
  }

  // ---- from the backed up disk to the original one ----

  /** Everything a renewal reads or writes is the same on both disks. */
  ghost predicate SameForRenewal(pkiDir: string, d: Disk, e: Disk) {
    forall a :: SameAt(d, e, CAForCert(a).0) && SameAt(d, e, CAForCert(a).1) && (IsPem(a) ==> SamePair(d, e, pkiDir, a))
  }

  lemma BackupIsNoMatter(sp: Spec, d: Disk, e: Disk)
    requires Installed(sp, d) && OnlyBackup(sp, d, e)
    ensures SameForRenewal(sp.dirs.pki, d, e)
    ensures forall p :: EndsLikeManifest(p) ==> SameAt(d, e, p)
  {
    forall a ensures SameAt(d, e, CAForCert(a).0) && SameAt(d, e, CAForCert(a).1) {
      CaFilesAreNotSaved(sp, d, a);
    }
    forall a | IsPem(a) ensures SamePair(d, e, sp.dirs.pki, a) {
      TargetIsNotSaved(sp, d, a);
    }
    forall p | EndsLikeManifest(p) ensures SameAt(d, e, p) {
      ManifestIsNoTarget(sp.dirs, sp.Path(), p);
    }
  }

  lemma RestartIsNoMatter(su: Setup, pkiDir: string, d: Disk, fates: seq<Fate>)
    requires !su.dryRun
    ensures SameForRenewal(pkiDir, d, RestartAllEffect(su, d, fates).disk)
  {
    var e := RestartAllEffect(su, d, fates).disk;
    var n := RestartAllLaw(su, d, fates);
    forall a ensures SameAt(d, e, CAForCert(a).0) && SameAt(d, e, CAForCert(a).1) {
      var crt, key := CaFile(a);
      NoManifest(su.dir, CAForCert(a).0);
      NoManifest(su.dir, CAForCert(a).1);
    }
    forall a | IsPem(a) ensures SamePair(d, e, pkiDir, a) {
      TargetsEnd(pkiDir, a);
      NoManifest(su.dir, CrtPath(pkiDir, a));
      NoManifest(su.dir, KeyPath(pkiDir, a));
    }
  }

  lemma RenewedBetween(env: Env, d0: Disk, d1: Disk, d2: Disk, d3: Disk, a: CertName)
    requires IsPem(a) && Renewed(env, d1, d2, a)
    requires SameForRenewal(env.pkiDir, d0, d1) && SameForRenewal(env.pkiDir, d2, d3)
    ensures Renewed(env, d0, d3, a)
  {
    assert SamePair(d0, d1, env.pkiDir, a) && SamePair(d2, d3, env.pkiDir, a);
  }

  lemma RestartedFrom(su: Setup, d: Disk, e: Disk, f: Disk, i: nat)
    requires i < 4 && Restarted(su, e, f, RESTART_ORDER[i])
    requires forall p :: EndsLikeManifest(p) ==> SameAt(d, e, p)
    ensures Restarted(su, d, f, RESTART_ORDER[i])
  {
    ManifestNames(su, i);
    SameManifest(su, d, e, RESTART_ORDER[i]);
  }

  // ---- a live rotation that completes ----

  /** The disks after the backup, the renewal loop and the restarts. */
  function Backed(sp: Spec, w: World): Ran {
    OnDisk(w, CreateEffect(sp.dirs, w.disk, sp.Path(), w.fates))
  }

  function Noted(sp: Spec, w: World): Ran {
    PatchOwn(Backed(sp, w).w, sp.node, SetBackupPath(sp.Path()))
  }

  function Looped(sp: Spec, w: World, certs: seq<CertInfo>): Ran {
    OnDisk(Noted(sp, w).w, RenewAll(sp.RenewalEnv(), Noted(sp, w).w.disk, certs, Noted(sp, w).w.fates))
  }

  function Bounced(sp: Spec, w: World, certs: seq<CertInfo>): Ran {
    var l := Looped(sp, w, certs).w;
    OnDisk(l, RestartAllEffect(sp.Restarts(false), l.disk, l.fates))
  }

  lemma RunIsStages(sp: Spec, w: World, certs: seq<CertInfo>)
    ensures var r := RunRenewal(sp, w, certs);
      r.w.disk ==
        if Backed(sp, w).out != Ok then Backed(sp, w).w.disk
        else if Noted(sp, w).out != Ok || sp.dryRun then Backed(sp, w).w.disk
        else if Looped(sp, w, certs).out != Ok then Looped(sp, w, certs).w.disk
        else Bounced(sp, w, certs).w.disk
    ensures RunRenewal(sp, w, certs).out == Ok ==> Backed(sp, w).out == Ok && Noted(sp, w).out == Ok
    ensures RunRenewal(sp, w, certs).out == Ok && !sp.dryRun ==> Looped(sp, w, certs).out == Ok && Bounced(sp, w, certs).out == Ok
  {
    PatchLaw(Backed(sp, w).w, sp.node, SetBackupPath(sp.Path()));
  }

  lemma RunIsRest(sp: Spec, w: World, certs: seq<CertInfo>)
    ensures Backed(sp, w).out != Ok ==> RunRenewal(sp, w, certs) == Backed(sp, w)
    ensures Backed(sp, w).out == Ok && (Noted(sp, w).out != Ok || sp.dryRun) ==> RunRenewal(sp, w, certs) == Noted(sp, w)
    ensures Backed(sp, w).out == Ok && Noted(sp, w).out == Ok && !sp.dryRun ==>
      RunRenewal(sp, w, certs) == RenewAndRestart(sp, Noted(sp, w).w, certs)
  {
  }

  lemma WhenRestSucceeds(sp: Spec, w: World, certs: seq<CertInfo>)
    ensures RenewAndRestart(sp, Noted(sp, w).w, certs).out == Ok <==>
            Looped(sp, w, certs).out == Ok && Bounced(sp, w, certs).out == Ok && Passes(Bounced(sp, w, certs).w.fates)
  {
  }

  /** A renewal succeeds exactly when the backup was made and recorded and, unless it is a dry run,
      everything due was renewed, the components were restarted, and the health check after the
      restarts passes. */
  lemma WhenRenewalSucceeds(sp: Spec, w: World, certs: seq<CertInfo>)
    ensures RunRenewal(sp, w, certs).out == Ok <==>
            && Backed(sp, w).out == Ok && Noted(sp, w).out == Ok
            && (sp.dryRun || (Looped(sp, w, certs).out == Ok && Bounced(sp, w, certs).out == Ok && Passes(Bounced(sp, w, certs).w.fates)))
  {
    RunIsRest(sp, w, certs);
    WhenRestSucceeds(sp, w, certs);
  }

  lemma BackedIsOnlyBackup(sp: Spec, w: World)
    ensures OnlyBackup(sp, w.disk, Backed(sp, w).w.disk) && Noted(sp, w).w.disk == Backed(sp, w).w.disk
  {
    CreateFrame(sp.dirs, w.disk, sp.Path(), w.fates);
    PatchLaw(Backed(sp, w).w, sp.node, SetBackupPath(sp.Path()));
  }

  predicate NotDue(certs: seq<CertInfo>, a: CertName) {
    forall c :: c in certs && c.name == a ==> c.health == OK
  }

  /** A live renewal that reports success renewed every certificate that was due, each from the
      certificate and the CA found before, left the pairs of the others and all CA files alone, and
      restarted all four components. */
  lemma LiveRotation(sp: Spec, w: World, certs: seq<CertInfo>)
    requires Installed(sp, w.disk) && FromDetection(sp.RenewalEnv(), certs) && !sp.dryRun
    requires RunRenewal(sp, w, certs).out == Ok
    ensures var e := RunRenewal(sp, w, certs).w.disk;
      && (forall c :: c in certs && c.health != OK ==> IsPem(c.name) && Renewed(sp.RenewalEnv(), w.disk, e, c.name))
      && (forall a :: IsPem(a) && NotDue(certs, a) ==> SamePair(w.disk, e, sp.dirs.pki, a))
      && (forall a :: SameAt(w.disk, e, CAForCert(a).0) && SameAt(w.disk, e, CAForCert(a).1))
      && (forall i :: 0 <= i < 4 ==> Restarted(sp.Restarts(false), w.disk, e, RESTART_ORDER[i]))
  {
    var env, su := sp.RenewalEnv(), sp.Restarts(false);
    var d0, d1, d2, d3 := w.disk, Backed(sp, w).w.disk, Looped(sp, w, certs).w.disk, Bounced(sp, w, certs).w.disk;
    RunIsStages(sp, w, certs);
    BackedIsOnlyBackup(sp, w);
    BackupIsNoMatter(sp, d0, d1);
    CompleteRenewal(env, d1, certs, Noted(sp, w).w.fates);
    RestartIsNoMatter(su, sp.dirs.pki, d2, Looped(sp, w, certs).w.fates);
    forall c | c in certs && c.health != OK ensures IsPem(c.name) && Renewed(env, d0, d3, c.name) {
      RenewedBetween(env, d0, d1, d2, d3, c.name);
    }
    forall a | IsPem(a) && NotDue(certs, a) ensures SamePair(d0, d3, sp.dirs.pki, a) {
      assert SamePair(d0, d1, sp.dirs.pki, a) && SamePair(d1, d2, sp.dirs.pki, a) && SamePair(d2, d3, sp.dirs.pki, a);
    }
    forall a ensures SameAt(d0, d3, CAForCert(a).0) && SameAt(d0, d3, CAForCert(a).1) {
      CaFilesLookLikeCa(a);
      assert SameAt(d1, d2, CAForCert(a).0) && SameAt(d1, d2, CAForCert(a).1);
    }
    AllRestarted(sp, d0, d1, certs, d2, Looped(sp, w, certs).w.fates);
  }

  lemma AllRestarted(sp: Spec, d0: Disk, d1: Disk, certs: seq<CertInfo>, d2: Disk, fates: seq<Fate>)
    requires forall p :: EndsLikeManifest(p) ==> SameAt(d0, d1, p)
    requires forall p :: !IsTarget(sp.dirs.pki, p) ==> SameAt(d1, d2, p)
    requires RestartAllEffect(sp.Restarts(false), d2, fates).out == Ok
    ensures forall i :: 0 <= i < 4 ==> Restarted(sp.Restarts(false), d0, RestartAllEffect(sp.Restarts(false), d2, fates).disk, RESTART_ORDER[i])
  {
    var su := sp.Restarts(false);
    var d3 := RestartAllEffect(su, d2, fates).disk;
    var n := RestartAllLaw(su, d2, fates);
    forall p | EndsLikeManifest(p) ensures SameAt(d0, d2, p) {
      ManifestIsNoTarget(sp.dirs, sp.Path(), p);
      assert SameAt(d0, d1, p) && SameAt(d1, d2, p);
    }
    forall i | 0 <= i < 4 ensures Restarted(su, d0, d3, RESTART_ORDER[i]) {
      assert Restarted(su, d2, d3, RESTART_ORDER[i]);
      RestartedFrom(su, d0, d2, d3, i);
    }
  }

  // ---- which CA signs ----

  /** The file of the configured directory that holds the CA's certificate. */
  function OwnCaPath(pkiDir: string, a: CertName): string {
    pkiDir + CaBase(a) + ".crt"
  }

  predicate IsSignedBy(c: Certificate, ca: Certificate) {
    c.signedBy == ca.publicKey && c.issuer == ca.subject
  }

  /** The certificate in this file. */
  function CertIn(codec: Codec, d: Disk, p: string): Option<Certificate> {
    if p in d.files then codec.decodeCert(d.files[p]) else None
  }

  predicate SameBytes(d: Disk, p: string, q: string) {
    p in d.files && q in d.files && d.files[p] == d.files[q]
  }

  /** The CA is looked up in a fixed directory. A renewed certificate is signed by the CA of the
      configured directory exactly when the CAs of both directories have the same name and key; with
      the same bytes in both they do, and if the configured directory is the fixed one. */
  lemma WhenConfiguredCaSigns(sp: Spec, w: World, certs: seq<CertInfo>, a: CertName)
    requires Lawful(sp.codec) && Installed(sp, w.disk) && FromDetection(sp.RenewalEnv(), certs) && !sp.dryRun && IsPem(a)
    requires RunRenewal(sp, w, certs).out == Ok && !NotDue(certs, a)
    requires CertIn(sp.codec, w.disk, OwnCaPath(sp.dirs.pki, a)).Some?
    ensures var own, fixed := CertIn(sp.codec, w.disk, OwnCaPath(sp.dirs.pki, a)).value, CertIn(sp.codec, w.disk, CAForCert(a).0);
      var renewed := CertIn(sp.codec, RunRenewal(sp, w, certs).w.disk, CrtPath(sp.dirs.pki, a));
      && renewed.Some? && fixed.Some?
      && (IsSignedBy(renewed.value, own) <==> own.subject == fixed.value.subject && own.publicKey == fixed.value.publicKey)
      && (SameBytes(w.disk, OwnCaPath(sp.dirs.pki, a), CAForCert(a).0) || sp.dirs.pki == CA_DIR ==> IsSignedBy(renewed.value, own))
  {
    LiveRotation(sp, w, certs);
    RenewedMeans(sp.RenewalEnv(), w.disk, RunRenewal(sp, w, certs).w.disk, a);
    CaPaths(a);
  }

  // ---- a rotation that stops anywhere ----

  lemma SamePairMatches(codec: Codec, d: Disk, e: Disk, pkiDir: string, a: CertName)
    requires IsPem(a) && SamePair(d, e, pkiDir, a)
    ensures PairMatches(codec, d, pkiDir, a) <==> PairMatches(codec, e, pkiDir, a)
  {
  }

  /** Wherever a renewal stops, at most one certificate lies beside a foreign key; it is one that
      was due, and the renewal did not report success. */
  lemma RotationBreaksAtMostOne(sp: Spec, w: World, certs: seq<CertInfo>, a: CertName, b: CertName)
    requires Lawful(sp.codec) && Installed(sp, w.disk) && FromDetection(sp.RenewalEnv(), certs) && IsPem(a) && IsPem(b)
    requires PairMatches(sp.codec, w.disk, sp.dirs.pki, a) && PairMatches(sp.codec, w.disk, sp.dirs.pki, b)
    ensures var r := RunRenewal(sp, w, certs);
      !PairMatches(sp.codec, r.w.disk, sp.dirs.pki, a) ==>
        && !NotDue(certs, a) && r.out != Ok
        && (!PairMatches(sp.codec, r.w.disk, sp.dirs.pki, b) ==> a == b)
  {
    var env, su := sp.RenewalEnv(), sp.Restarts(false);
    var d0, d1, d2 := w.disk, Backed(sp, w).w.disk, Looped(sp, w, certs).w.disk;
    RunIsStages(sp, w, certs);
    BackedIsOnlyBackup(sp, w);
    BackupIsNoMatter(sp, d0, d1);
    SamePairMatches(sp.codec, d0, d1, sp.dirs.pki, a);
    SamePairMatches(sp.codec, d0, d1, sp.dirs.pki, b);
    AtMostOneBrokenPair(env, d1, certs, Noted(sp, w).w.fates, a, b);
    RestartIsNoMatter(su, sp.dirs.pki, d2, Looped(sp, w, certs).w.fates);
    SamePairMatches(sp.codec, d2, Bounced(sp, w, certs).w.disk, sp.dirs.pki, a);
    SamePairMatches(sp.codec, d2, Bounced(sp, w, certs).w.disk, sp.dirs.pki, b);
  }

  // ---- the whole reconciliation ----

  /** A reconciliation changes files in its renewal only: its disk is the one it started with, or
      the one that a renewal left, run under the phase Renewing on what detection had found. */
  ghost predicate FromRenewalRun(sp: Spec, st: Stages, d0: Disk, d: Disk, v: World, certs: seq<CertInfo>) {
    d == d0 ||
    (&& d == st.renew(v, certs).w.disk && v.disk == d0 && Synced(v) && v.server.Some? && v.server.value.phase == Renewing
     && NeedsRenewal(certs) && FromDetection(sp.RenewalEnv(), certs)
     && Finds(sp.codec, d0, sp.DetectorConfig(), sp.now, certs))
  }

  lemma DetectionRuns(sp: Spec, st: Stages, w: World, certs: seq<CertInfo>, out: Outcome) returns (v: World)
    requires RollbackKeepsDisk(st) && Synced(w)
    requires out == Ok ==> FromDetection(sp.RenewalEnv(), certs) && Finds(sp.codec, w.disk, sp.DetectorConfig(), sp.now, certs)
    ensures FromRenewalRun(sp, st, w.disk, AfterDetection(sp, st, w, certs, out).w.disk, v, certs)
  {
    var h := SetCertStatus(CertStatuses(certs), sp.checkedAt);
    var checked := PatchOwn(w, sp.node, h);
    var renewing := PatchOwn(checked.w, sp.node, SetPhase(Renewing, ""));
    v := renewing.w;
    PatchLaw(w, sp.node, SetPhase(Failed, sp.detectError));
    PatchLaw(w, sp.node, h);
    PatchLaw(checked.w, sp.node, SetPhase(Idle, ""));
    PatchLaw(checked.w, sp.node, SetPhase(Renewing, ""));
    if out == Ok && checked.out == Ok && NeedsRenewal(certs) && renewing.out == Ok {
      RenewingRuns(sp, st, v, certs);
    }
  }

  lemma ReconcileRuns(sp: Spec, st: Stages, start: World) returns (v: World, certs: seq<CertInfo>)
    requires RollbackKeepsDisk(st) && IsVisit(sp.order)
    ensures FromRenewalRun(sp, st, start.disk, ReconcileEffect(sp, st, Found(start.server), start).w.disk, v, certs)
  {
    var w := start.(local := start.server);
    var detecting := PatchOwn(w, sp.node, SetPhase(Detecting, ""));
    v, certs := w, [];
    PatchLaw(w, sp.node, SetPhase(Detecting, ""));
    if detecting.out == Ok && !(start.server.Some? && start.server.value.phase == Critical) {
      var u := detecting.w;
      var d := DetectFrom(sp.codec, u.disk, sp.DetectorConfig(), sp.now, [], sp.order, u.fates);
      certs := d.certs;
      DetectedIsFromDetection(sp, u);
      v := DetectionRuns(sp, st, u.(fates := d.fates), d.certs, d.out);
    }
  }

  /** If every certificate lies beside its own key when a reconciliation starts, then wherever it
      fails or dies at most one does not. */
  lemma ReconcileBreaksAtMostOne(sp: Spec, start: World, a: CertName, b: CertName)
    requires Lawful(sp.codec) && Installed(sp, start.disk) && IsVisit(sp.order) && IsPem(a) && IsPem(b)
    requires PairMatches(sp.codec, start.disk, sp.dirs.pki, a) && PairMatches(sp.codec, start.disk, sp.dirs.pki, b)
    ensures var d := ReconcileEffect(sp, StagesOf(sp, None), Found(start.server), start).w.disk;
      PairMatches(sp.codec, d, sp.dirs.pki, a) || PairMatches(sp.codec, d, sp.dirs.pki, b) || a == b
  {
    ShippedRollbackKeepsDisk(sp);
    var v, certs := ReconcileRuns(sp, StagesOf(sp, None), start);
    if ReconcileEffect(sp, StagesOf(sp, None), Found(start.server), start).w.disk != start.disk {
      RotationBreaksAtMostOne(sp, v, certs, a, b);
    }
  }
}
