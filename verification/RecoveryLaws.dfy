/** Write-ahead and recovery: from any point at which a live reconciliation may die, the status on
    the server leads to a backup that brings the node's files back. */
module RecoveryLaws {
  import opened Wrappers
  import opened Host
  import opened Status
  import opened Cluster
  import opened Detector
  import opened Backup
  import opened BackupLaws
  import opened Renewal
  import opened RenewalLaws
  import opened PodRestart
  import opened Rollback
  import opened RollbackLaws
  import opened Reconcile
  import opened ReconcileLaws

  /** What the installation guarantees: backups live apart from the files they save, and no earlier
      backup carries this reconciliation's time stamp. */
  ghost predicate Ready(sp: Spec, d: Disk) {
    && Separate(sp.dirs.backup, sp.dirs.pki) && Separate(sp.dirs.backup, sp.dirs.kubeconfig)
    && Fresh(d, sp.Path()) && Sound(d)
  }

  /** Nothing but this reconciliation's backup differs. */
  ghost predicate OnlyBackup(sp: Spec, d0: Disk, d: Disk) {
    forall p :: !IsSaved(sp.Path(), p) ==> SameAt(d0, d, p)
  }

  /** Nothing but the backup, listed live files and manifests differs. */
  ghost predicate Footprint(sp: Spec, d0: Disk, d: Disk) {
    && (forall p :: !IsSaved(sp.Path(), p) && !IsLive(sp.dirs, p) && !IsManifest(sp.manifestsDir, p) ==> SameAt(d0, d, p))
    && d0.dirs <= d.dirs && Sound(d)
  }

  /** The server's entry names a complete backup of d0. */
  predicate Recoverable(sp: Spec, d0: Disk, w: World) {
    && w.server.Some? && w.server.value.backupPath == sp.Path()
    && Holds(w.disk, sp.Path(), sp.dirs, d0)
  }

  /** The backup that an entry names. */
  function Named(entry: Option<NodeStatus>): string {
    if entry.Some? then entry.value.backupPath else ""
  }

  /** `prior` is what the server named when the disk was d0. */
  ghost predicate WriteAhead(sp: Spec, d0: Disk, prior: string, w: World) {
    && Footprint(sp, d0, w.disk)
    && (OnlyBackup(sp, d0, w.disk) || Recoverable(sp, d0, w))
    && (Named(w.server) == prior || Recoverable(sp, d0, w))
  }

  lemma PathIsSeparate(sp: Spec, d: Disk)
    requires Ready(sp, d)
    ensures Separate(sp.Path(), sp.dirs.pki) && Separate(sp.Path(), sp.dirs.kubeconfig)
  {
    SeparateBelow(sp.dirs, sp.node, sp.stamp, sp.dirs.pki);
    SeparateBelow(sp.dirs, sp.node, sp.stamp, sp.dirs.kubeconfig);
  }

  /** Writing live files and manifests cannot harm a backup. */
  lemma ConfinedKeepsBackup(dirs: Dirs, manifests: string, path: string, d0: Disk, d: Disk, e: Disk)
    requires Separate(path, dirs.pki) && Separate(path, dirs.kubeconfig)
    requires Holds(d, path, dirs, d0) && Confined(dirs, manifests, d, e)
    ensures Holds(e, path, dirs, d0)
  {
    forall i: nat | i < LISTED ensures SameAt(d, e, Saved(path, i)) {
      SavedIsNoLive(dirs, path, i);
      SavedIsNoManifest(manifests, path, i);
    }
  }

  lemma RenewalConfined(sp: Spec, w: World, certs: seq<CertInfo>)
    requires FromDetection(sp.RenewalEnv(), certs)
    ensures Confined(sp.dirs, sp.manifestsDir, w.disk, RenewAndRestart(sp, w, certs).w.disk)
  {
    var env := sp.RenewalEnv();
    var s := RenewAll(env, w.disk, certs, w.fates);
    var n := RenewAllProgress(env, w.disk, certs, w.fates);
    forall p | IsTarget(env.pkiDir, p) ensures IsLive(sp.dirs, p) {
      var a :| IsPem(a) && (p == CrtPath(env.pkiDir, a) || p == KeyPath(env.pkiDir, a));
      TargetsAreListed(sp.dirs, a);
    }
    assert Confined(sp.dirs, sp.manifestsDir, w.disk, s.disk);
    if s.out == Ok {
      RestartConfined(sp.dirs, sp.Restarts(false), s.disk, s.fates);
      ConfinedTransitive(sp.dirs, sp.manifestsDir, w.disk, s.disk, RestartAllEffect(sp.Restarts(false), s.disk, s.fates).disk);
    }
  }

  /** The part of the renewal up to the recorded backup. */
  lemma BackupComesFirst(sp: Spec, w: World)
    requires Ready(sp, w.disk) && Synced(w)
    ensures var backup := OnDisk(w, CreateEffect(sp.dirs, w.disk, sp.Path(), w.fates));
      var recorded := PatchOwn(backup.w, sp.node, SetBackupPath(sp.Path()));
      && OnlyBackup(sp, w.disk, backup.w.disk) && Footprint(sp, w.disk, backup.w.disk)
      && backup.w.server == w.server && backup.w.local == w.local
      && recorded.w.disk == backup.w.disk
      && (backup.out == Ok && recorded.out == Ok ==> Recoverable(sp, w.disk, recorded.w))
      && (backup.out == Ok && recorded.w.server != w.server ==> Recoverable(sp, w.disk, recorded.w))
  {
    PathIsSeparate(sp, w.disk);
    CreateFrame(sp.dirs, w.disk, sp.Path(), w.fates);
    var backup := OnDisk(w, CreateEffect(sp.dirs, w.disk, sp.Path(), w.fates));
    PatchLaw(backup.w, sp.node, SetBackupPath(sp.Path()));
    if backup.out == Ok {
      CreateHolds(sp.dirs, w.disk, sp.Path(), w.fates);
    }
  }

  lemma FootprintGrows(sp: Spec, d0: Disk, d: Disk, e: Disk)
    requires Footprint(sp, d0, d) && Confined(sp.dirs, sp.manifestsDir, d, e)
    ensures Footprint(sp, d0, e)
  {
    forall p | !IsSaved(sp.Path(), p) && !IsLive(sp.dirs, p) && !IsManifest(sp.manifestsDir, p) ensures SameAt(d0, e, p) {
      assert SameAt(d0, d, p) && SameAt(d, e, p);
    }
  }

  /** Write-ahead, inside the renewal: wherever it stops, either no file of the node was written
      yet, or the server's entry names a complete backup of what the files were; and the server
      still reports the phase the renewal started in. */
  lemma RenewalWritesAhead(sp: Spec, w: World, certs: seq<CertInfo>)
    requires Ready(sp, w.disk) && Synced(w) && FromDetection(sp.RenewalEnv(), certs)
    ensures var r := RunRenewal(sp, w, certs).w;
      WriteAhead(sp, w.disk, Named(w.server), r)
      && (w.server.Some? ==> r.server.Some? && r.server.value.phase == w.server.value.phase)
  {
    var backup := OnDisk(w, CreateEffect(sp.dirs, w.disk, sp.Path(), w.fates));
    BackupComesFirst(sp, w);
    if backup.out == Ok {
      var recorded := PatchOwn(backup.w, sp.node, SetBackupPath(sp.Path()));
      PatchLaw(backup.w, sp.node, SetBackupPath(sp.Path()));
      if recorded.out == Ok && !sp.dryRun {
        var r := RenewAndRestart(sp, recorded.w, certs);
        RenewAndRestartIsLocal(sp, recorded.w, certs);
        RenewalConfined(sp, recorded.w, certs);
        PathIsSeparate(sp, w.disk);
        ConfinedKeepsBackup(sp.dirs, sp.manifestsDir, sp.Path(), w.disk, recorded.w.disk, r.w.disk);
        FootprintGrows(sp, w.disk, recorded.w.disk, r.w.disk);
      }
    }
  }

  // ---- the whole reconciliation ----

  /** What the whole reconciliation needs of its two stages. */
  ghost predicate Careful(sp: Spec, st: Stages) {
    && (forall w: World, certs: seq<CertInfo> :: Ready(sp, w.disk) && Synced(w) && FromDetection(sp.RenewalEnv(), certs) ==>
          WriteAhead(sp, w.disk, Named(w.server), st.renew(w, certs).w))
    && (forall w: World :: st.rollBack(w).w.disk == w.disk && st.rollBack(w).w.server == w.server)
  }

  /** As the controller calls it, without a state, the rollback never touches a file. */
  lemma ShippedStagesAreCareful(sp: Spec)
    ensures Careful(sp, StagesOf(sp, None))
  {
    var st := StagesOf(sp, None);
    forall w: World, certs: seq<CertInfo> | Ready(sp, w.disk) && Synced(w) && FromDetection(sp.RenewalEnv(), certs)
      ensures WriteAhead(sp, w.disk, Named(w.server), st.renew(w, certs).w)
    {
      RenewalWritesAhead(sp, w, certs);
    }
    forall w: World ensures st.rollBack(w).w.disk == w.disk && st.rollBack(w).w.server == w.server {
      ShippedRollbackNeverReturns(sp, w);
    }
  }

  lemma PatchKeepsName(w: World, node: string, h: Helper)
    requires !h.UpdateConditions? && !h.SetBackupPath?
    ensures Named(PatchOwn(w, node, h).w.server) == Named(w.server)
  {
  }

  lemma PatchKeepsWriteAhead(sp: Spec, d0: Disk, prior: string, w: World, h: Helper)
    requires !h.UpdateConditions? && !h.SetBackupPath? && WriteAhead(sp, d0, prior, w)
    ensures WriteAhead(sp, d0, prior, PatchOwn(w, sp.node, h).w)
  {
    PatchLaw(w, sp.node, h);
    PatchKeepsName(w, sp.node, h);
    SameRecordKeepsWriteAhead(sp, d0, prior, w, PatchOwn(w, sp.node, h).w);
  }

  /** Disk and recorded backup are the same. */
  predicate SameRecord(w: World, v: World) {
    v.disk == w.disk && Named(v.server) == Named(w.server) && (w.server.Some? ==> v.server.Some?)
  }

  lemma SameRecordKeepsWriteAhead(sp: Spec, d0: Disk, prior: string, w: World, v: World)
    requires WriteAhead(sp, d0, prior, w) && SameRecord(w, v)
    ensures WriteAhead(sp, d0, prior, v)
  {
  }

  lemma RollingBackKeepsRecord(sp: Spec, st: Stages, w: World)
    requires st.rollBack(w).w.disk == w.disk && st.rollBack(w).w.server == w.server
    ensures SameRecord(w, FromRollingBack(sp, st, w).w)
  {
    var b := st.rollBack(w);
    var h := if b.out != Ok then SetPhase(Critical, sp.criticalError) else SetPhase(Failed, sp.renewError);
    PatchLaw(b.w, sp.node, h);
    PatchKeepsName(b.w, sp.node, h);
  }

  lemma RenewingWritesAhead(sp: Spec, st: Stages, w: World, certs: seq<CertInfo>)
    requires Careful(sp, st) && Ready(sp, w.disk) && Synced(w) && FromDetection(sp.RenewalEnv(), certs)
    ensures WriteAhead(sp, w.disk, Named(w.server), FromRenewing(sp, st, w, certs).w)
  {
    var r := st.renew(w, certs);
    var prior := Named(w.server);
    assert WriteAhead(sp, w.disk, prior, r.w);
    if r.out == Ok {
      PatchKeepsWriteAhead(sp, w.disk, prior, r.w, SetRenewed(sp.renewedAt));
    } else if !Dies(r) {
      var rolling := PatchOwn(r.w, sp.node, SetPhase(RollingBack, sp.renewError));
      PatchKeepsWriteAhead(sp, w.disk, prior, r.w, SetPhase(RollingBack, sp.renewError));
      if !Dies(rolling) {
        RollingBackKeepsRecord(sp, st, rolling.w);
        SameRecordKeepsWriteAhead(sp, w.disk, prior, rolling.w, FromRollingBack(sp, st, rolling.w).w);
      }
    }
  }

  lemma NoWriteIsWriteAhead(sp: Spec, d0: Disk, prior: string, w: World)
    requires w.disk == d0 && Sound(d0) && Named(w.server) == prior
    ensures WriteAhead(sp, d0, prior, w)
  {
  }

  lemma DetectionWritesAhead(sp: Spec, st: Stages, w: World, certs: seq<CertInfo>, out: Outcome)
    requires Careful(sp, st) && Ready(sp, w.disk) && Synced(w)
    requires out == Ok ==> FromDetection(sp.RenewalEnv(), certs)
    ensures WriteAhead(sp, w.disk, Named(w.server), AfterDetection(sp, st, w, certs, out).w)
  {
    var h := SetCertStatus(CertStatuses(certs), sp.checkedAt);
    var checked := PatchOwn(w, sp.node, h);
    var renewing := PatchOwn(checked.w, sp.node, SetPhase(Renewing, ""));
    PatchLaw(w, sp.node, SetPhase(Failed, sp.detectError));
    PatchLaw(w, sp.node, h);
    PatchLaw(checked.w, sp.node, SetPhase(Idle, ""));
    PatchLaw(checked.w, sp.node, SetPhase(Renewing, ""));
    PatchKeepsName(w, sp.node, SetPhase(Failed, sp.detectError));
    PatchKeepsName(w, sp.node, h);
    PatchKeepsName(checked.w, sp.node, SetPhase(Idle, ""));
    PatchKeepsName(checked.w, sp.node, SetPhase(Renewing, ""));
    if out == Ok && checked.out == Ok && renewing.out == Ok && NeedsRenewal(certs) {
      RenewingWritesAhead(sp, st, renewing.w, certs);
    } else {
      NoWriteIsWriteAhead(sp, w.disk, Named(w.server), AfterDetection(sp, st, w, certs, out).w);
    }
  }

  lemma DetectedIsFromDetection(sp: Spec, w: World)
    requires IsVisit(sp.order)
    ensures var d := DetectFrom(sp.codec, w.disk, sp.DetectorConfig(), sp.now, [], sp.order, w.fates);
      d.out == Ok ==> FromDetection(sp.RenewalEnv(), d.certs) && Finds(sp.codec, w.disk, sp.DetectorConfig(), sp.now, d.certs)
  {
    var cfg := sp.DetectorConfig();
    var d := DetectFrom(sp.codec, w.disk, cfg, sp.now, [], sp.order, w.fates);
    if d.out == Ok {
      DetectIsFaithful(sp.codec, w.disk, cfg, sp.now, [], sp.order, w.fates);
      forall c | c in d.certs && IsPem(c.name) ensures c.path == CrtPath(sp.dirs.pki, c.name) {
      }
      forall n: CertName | CertFile(n).Some? || PathOf(cfg, n) in w.disk.files ensures exists c :: c in d.certs && c.name == n {
        assert n in sp.order;
      }
    }
  }

  // ---- the phase while files are written ----

  /** The phases that the server can show once a file of the node was written. */
  predicate WritingPhase(entry: Option<NodeStatus>) {
    entry.Some? && entry.value.phase in {Renewing, RollingBack, Idle}
  }

  lemma PatchKeepsWritingPhase(w: World, node: string, h: Helper)
    requires h.SetBackupPath? || h.SetRenewed? || (h.SetPhase? && h.phase == RollingBack)
    requires WritingPhase(w.server) && w.local.Some?
    ensures WritingPhase(PatchOwn(w, node, h).w.server)
  {
  }

  lemma NotedFailurePhase(sp: Spec, st: Stages, w: World, certs: seq<CertInfo>)
    requires Notes(st.renew(w, certs).w, sp.Path()) && WritingPhase(st.renew(w, certs).w.server)
    requires forall v: World :: st.rollBack(v) == RunRollback(sp, v, None)
    ensures WritingPhase(FromRenewing(sp, st, w, certs).w.server)
  {
    var r := st.renew(w, certs);
    NotedRollbackPanics(sp, r.w);
    PatchKeepsWritingPhase(r.w, sp.node, SetRenewed(sp.renewedAt));
    PatchKeepsWritingPhase(r.w, sp.node, SetPhase(RollingBack, sp.renewError));
  }

  lemma RenewalPhase(sp: Spec, w: World, certs: seq<CertInfo>)
    requires Synced(w) && WritingPhase(w.server)
    ensures var r := RunRenewal(sp, w, certs).w;
      OnlyBackup(sp, w.disk, r.disk) || (Notes(r, sp.Path()) && WritingPhase(r.server))
  {
    var backup := OnDisk(w, CreateEffect(sp.dirs, w.disk, sp.Path(), w.fates));
    CreateFrame(sp.dirs, w.disk, sp.Path(), w.fates);
    if backup.out == Ok {
      var recorded := PatchOwn(backup.w, sp.node, SetBackupPath(sp.Path()));
      PatchLaw(backup.w, sp.node, SetBackupPath(sp.Path()));
      PatchKeepsWritingPhase(backup.w, sp.node, SetBackupPath(sp.Path()));
      if recorded.out == Ok {
        NoteStays(sp, w, certs);
        RenewAndRestartIsLocal(sp, recorded.w, certs);
      }
    }
  }

  lemma RenewingPhase(sp: Spec, st: Stages, w: World, certs: seq<CertInfo>)
    requires Synced(w) && WritingPhase(w.server) && st.renew(w, certs) == RunRenewal(sp, w, certs)
    requires forall v: World :: st.rollBack(v) == RunRollback(sp, v, None)
    requires RollbackKeepsDisk(st)
    ensures var e := FromRenewing(sp, st, w, certs).w; OnlyBackup(sp, w.disk, e.disk) || WritingPhase(e.server)
  {
    var r := st.renew(w, certs);
    RenewalPhase(sp, w, certs);
    if OnlyBackup(sp, w.disk, r.w.disk) {
      RenewingRuns(sp, st, w, certs);
    } else {
      NotedFailurePhase(sp, st, w, certs);
    }
  }

  ghost predicate RollbackKeepsDisk(st: Stages) {
    forall w: World :: st.rollBack(w).w.disk == w.disk
  }

  lemma RenewingRuns(sp: Spec, st: Stages, w: World, certs: seq<CertInfo>)
    requires RollbackKeepsDisk(st)
    ensures FromRenewing(sp, st, w, certs).w.disk == st.renew(w, certs).w.disk
  {
    var r := st.renew(w, certs);
    PatchLaw(r.w, sp.node, SetRenewed(sp.renewedAt));
    PatchLaw(r.w, sp.node, SetPhase(RollingBack, sp.renewError));
    var rolling := PatchOwn(r.w, sp.node, SetPhase(RollingBack, sp.renewError));
    if !Dies(rolling) {
      var b := st.rollBack(rolling.w);
      PatchLaw(b.w, sp.node, if b.out != Ok then SetPhase(Critical, sp.criticalError) else SetPhase(Failed, sp.renewError));
    }
  }

  lemma ShippedRollbackKeepsDisk(sp: Spec)
    ensures RollbackKeepsDisk(StagesOf(sp, None))
  {
    forall w: World ensures RunRollback(sp, w, None).w.disk == w.disk {
      ShippedRollbackNeverReturns(sp, w);
    }
  }

  /** What the phases need of the two stages. */
  ghost predicate Orderly(sp: Spec, st: Stages) {
    forall w: World, certs: seq<CertInfo> :: Synced(w) && WritingPhase(w.server) ==>
      var e := FromRenewing(sp, st, w, certs).w; OnlyBackup(sp, w.disk, e.disk) || WritingPhase(e.server)
  }

  lemma ShippedStagesAreOrderly(sp: Spec)
    ensures Orderly(sp, StagesOf(sp, None))
  {
    var st := StagesOf(sp, None);
    ShippedRollbackKeepsDisk(sp);
    forall w: World, certs: seq<CertInfo> | Synced(w) && WritingPhase(w.server)
      ensures var e := FromRenewing(sp, st, w, certs).w; OnlyBackup(sp, w.disk, e.disk) || WritingPhase(e.server)
    {
      RenewingPhase(sp, st, w, certs);
    }
  }

  lemma DetectionPhase(sp: Spec, st: Stages, w: World, certs: seq<CertInfo>, out: Outcome)
    requires Orderly(sp, st) && Synced(w)
    ensures var e := AfterDetection(sp, st, w, certs, out).w; OnlyBackup(sp, w.disk, e.disk) || WritingPhase(e.server)
  {
    var h := SetCertStatus(CertStatuses(certs), sp.checkedAt);
    var checked := PatchOwn(w, sp.node, h);
    var renewing := PatchOwn(checked.w, sp.node, SetPhase(Renewing, ""));
    PatchLaw(w, sp.node, SetPhase(Failed, sp.detectError));
    PatchLaw(w, sp.node, h);
    PatchLaw(checked.w, sp.node, SetPhase(Idle, ""));
    PatchLaw(checked.w, sp.node, SetPhase(Renewing, ""));
    if out == Ok && checked.out == Ok && renewing.out == Ok && NeedsRenewal(certs) {
      assert WritingPhase(renewing.w.server);
    }
  }

  lemma ReconcilePhase(sp: Spec, st: Stages, start: World)
    requires Orderly(sp, st)
    ensures var e := ReconcileEffect(sp, st, Found(start.server), start).w; OnlyBackup(sp, start.disk, e.disk) || WritingPhase(e.server)
  {
    var w := start.(local := start.server);
    var detecting := PatchOwn(w, sp.node, SetPhase(Detecting, ""));
    PatchLaw(w, sp.node, SetPhase(Detecting, ""));
    if detecting.out == Ok {
      var v := detecting.w;
      var d := DetectFrom(sp.codec, v.disk, sp.DetectorConfig(), sp.now, [], sp.order, v.fates);
      DetectionPhase(sp, st, v.(fates := d.fates), d.certs, d.out);
    }
  }

  /** Write-ahead, over a whole reconciliation of a pod that read its own entry freshly: at every
      failure and every crash point, either no file of the node was written, or the server's entry
      names a complete backup of what the files were before and says that the node is renewing or
      rolling back, or that it has finished. */
  lemma ReconcileWritesAhead(sp: Spec, start: World)
    requires Ready(sp, start.disk) && IsVisit(sp.order)
    ensures var e := ReconcileEffect(sp, StagesOf(sp, None), Found(start.server), start).w;
      WriteAhead(sp, start.disk, Named(start.server), e) && (OnlyBackup(sp, start.disk, e.disk) || WritingPhase(e.server))
  {
    ShippedStagesAreCareful(sp);
    AnyReconcileWritesAhead(sp, StagesOf(sp, None), start);
    ShippedStagesAreOrderly(sp);
    ReconcilePhase(sp, StagesOf(sp, None), start);
  }

  lemma AnyReconcileWritesAhead(sp: Spec, st: Stages, start: World)
    requires Careful(sp, st) && Ready(sp, start.disk) && IsVisit(sp.order)
    ensures WriteAhead(sp, start.disk, Named(start.server), ReconcileEffect(sp, st, Found(start.server), start).w)
  {
    var w := start.(local := start.server);
    var detecting := PatchOwn(w, sp.node, SetPhase(Detecting, ""));
    PatchLaw(w, sp.node, SetPhase(Detecting, ""));
    PatchKeepsName(w, sp.node, SetPhase(Detecting, ""));
    NoWriteIsWriteAhead(sp, start.disk, Named(start.server), w);
    NoWriteIsWriteAhead(sp, start.disk, Named(start.server), detecting.w);
    if detecting.out == Ok {
      var v := detecting.w;
      var d := DetectFrom(sp.codec, v.disk, sp.DetectorConfig(), sp.now, [], sp.order, v.fates);
      DetectedIsFromDetection(sp, v);
      DetectionWritesAhead(sp, st, v.(fates := d.fates), d.certs, d.out);
    }
  }

  /** The earlier backup at `prior` cannot be harmed by this reconciliation. */
  ghost predicate OutOfTheWay(sp: Spec, prior: string) {
    Separate(prior, sp.Path()) && Separate(prior, sp.dirs.pki) && Separate(prior, sp.dirs.kubeconfig)
  }

  lemma SavedApart(a: string, b: string, i: nat, j: nat)
    requires Separate(a, b) && i < LISTED && j < LISTED
    ensures Saved(a, i) != Saved(b, j)
  {
    assert a + "/" <= Saved(a, i) && b + "/" <= Saved(b, j);
    if Saved(a, i) == Saved(b, j) {
      PrefixesOfOne(a + "/", b + "/", Saved(a, i));
    }
  }

  lemma FootprintKeepsOld(sp: Spec, prior: string, d0: Disk, d: Disk, e: Disk)
    requires OutOfTheWay(sp, prior) && Footprint(sp, d, e)
    ensures Holds(e, prior, sp.dirs, d0) <==> Holds(d, prior, sp.dirs, d0)
  {
    forall i: nat | i < LISTED ensures SameAt(d, e, Saved(prior, i)) {
      SavedIsNoLive(sp.dirs, prior, i);
      SavedIsNoManifest(sp.manifestsDir, prior, i);
      if j: nat :| j < LISTED && Saved(prior, i) == Saved(sp.Path(), j) {
        SavedApart(prior, sp.Path(), i, j);
      }
    }
  }

  /** All listed files are the same on both disks. */
  ghost predicate SameListed(dirs: Dirs, d: Disk, e: Disk) {
    forall i: nat :: i < LISTED ==> SameAt(d, e, Live(dirs, i))
  }

  lemma HoldsTwice(d: Disk, path: string, dirs: Dirs, d0: Disk, d1: Disk)
    requires Holds(d, path, dirs, d1)
    ensures Holds(d, path, dirs, d0) <==> SameListed(dirs, d0, d1)
  {
    if Holds(d, path, dirs, d0) {
      forall i: nat | i < LISTED ensures SameAt(d0, d1, Live(dirs, i)) {
        assert Saved(path, i) in d.files <==> Live(dirs, i) in d0.files;
        assert Saved(path, i) in d.files <==> Live(dirs, i) in d1.files;
      }
    }
    if SameListed(dirs, d0, d1) {
      forall i: nat | i < LISTED
        ensures (Saved(path, i) in d.files <==> Live(dirs, i) in d0.files) &&
                (Live(dirs, i) in d0.files ==> Saved(path, i) in d.files && d.files[Saved(path, i)] == d0.files[Live(dirs, i)])
      {
        assert SameAt(d0, d1, Live(dirs, i));
      }
    }
  }

  /** The guarantee is for one reconciliation. Let the server name a backup of some earlier disk. After
      the next reconciliation it names that backup or the new one, and what it names still is a backup
      of the earlier disk exactly when the name is the earlier one, or none of the listed files had
      changed since. */
  lemma WhenOldBackupIsNamed(sp: Spec, start: World, prior: string, d0: Disk)
    requires Ready(sp, start.disk) && IsVisit(sp.order) && OutOfTheWay(sp, prior)
    requires Named(start.server) == prior && Holds(start.disk, prior, sp.dirs, d0)
    ensures var e := ReconcileEffect(sp, StagesOf(sp, None), Found(start.server), start).w;
      && Named(e.server) in {prior, sp.Path()}
      && (Holds(e.disk, Named(e.server), sp.dirs, d0) <==> Named(e.server) == prior || SameListed(sp.dirs, d0, start.disk))
  {
    var e := ReconcileEffect(sp, StagesOf(sp, None), Found(start.server), start).w;
    ReconcileWritesAhead(sp, start);
    FootprintKeepsOld(sp, prior, d0, start.disk, e.disk);
    if Named(e.server) != prior {
      HoldsTwice(e.disk, sp.Path(), sp.dirs, d0, start.disk);
    }
  }

  /** Recovery: let a reconciliation fail or die anywhere. If it wrote any file of the node, then
      restoring from the path found on the server, interrupted any number of times and finally
      completed, gives every file that existed before its old bytes, except the restarted
      manifests, which are not part of a backup. */
  lemma ReconcileIsRecoverable(sp: Spec, start: World, tries: seq<seq<Fate>>, last: seq<Fate>)
    requires Ready(sp, start.disk) && IsVisit(sp.order)
    requires var w := ReconcileEffect(sp, StagesOf(sp, None), Found(start.server), start).w;
      !OnlyBackup(sp, start.disk, w.disk)
    ensures var w := ReconcileEffect(sp, StagesOf(sp, None), Found(start.server), start).w;
      && w.server.Some? && w.server.value.backupPath == sp.Path()
      && var r := RestoreEffect(sp.dirs, RestoreTries(sp.dirs, w.disk, sp.Path(), tries), sp.Path(), last);
      r.out == Ok ==> forall p :: p in start.disk.files && !IsManifest(sp.manifestsDir, p) && !IsSaved(sp.Path(), p) ==>
        p in r.disk.files && r.disk.files[p] == start.disk.files[p]
  {
    var w := ReconcileEffect(sp, StagesOf(sp, None), Found(start.server), start).w;
    ReconcileWritesAhead(sp, start);
    RestoreAfter(sp, start.disk, w, tries, last);
  }

  lemma RestoreAfter(sp: Spec, d0: Disk, w: World, tries: seq<seq<Fate>>, last: seq<Fate>)
    requires Ready(sp, d0) && Footprint(sp, d0, w.disk) && Recoverable(sp, d0, w)
    ensures var r := RestoreEffect(sp.dirs, RestoreTries(sp.dirs, w.disk, sp.Path(), tries), sp.Path(), last);
      r.out == Ok ==> forall p :: p in d0.files && !IsManifest(sp.manifestsDir, p) && !IsSaved(sp.Path(), p) ==>
        p in r.disk.files && r.disk.files[p] == d0.files[p]
  {
    var mid := RestoreTries(sp.dirs, w.disk, sp.Path(), tries);
    var r := RestoreEffect(sp.dirs, mid, sp.Path(), last);
    PathIsSeparate(sp, d0);
    if r.out == Ok {
      RestoreRecovers(sp.dirs, w.disk, d0, sp.Path(), tries, last);
      TriesTouchOnlyLive(sp.dirs, w.disk, sp.Path(), tries);
      RestoreFrame(sp.dirs, mid, sp.Path(), last);
      forall p | p in d0.files && !IsManifest(sp.manifestsDir, p) && !IsSaved(sp.Path(), p)
        ensures p in r.disk.files && r.disk.files[p] == d0.files[p]
      {
        if !IsLive(sp.dirs, p) {
          assert SameAt(d0, w.disk, p) && SameAt(w.disk, mid, p) && SameAt(mid, r.disk, p);
        }
      }
    }
  }

  /** With a state, too, a rollback cannot harm the backup it may need again. */
  lemma RollbackKeepsBackup(sp: Spec, d0: Disk, w: World, state: Option<State.Snapshot>)
    requires Ready(sp, d0) && Footprint(sp, d0, w.disk) && Recoverable(sp, d0, w)
    ensures var r := RunRollback(sp, w, state).w; Footprint(sp, d0, r.disk) && Recoverable(sp, d0, r)
  {
    RollbackIsLocal(sp, w, state);
    if state.None? {
      ShippedRollbackNeverReturns(sp, w);
    } else if w.local.Some? && w.local.value.backupPath != "" {
      RollbackConfined(sp.RollbackPlan(), state.value, State.Absent, w.disk, [], sp.node, w.fates);
      var e := RunRollback(sp, w, state).w.disk;
      PathIsSeparate(sp, d0);
      ConfinedKeepsBackup(sp.dirs, sp.manifestsDir, sp.Path(), d0, w.disk, e);
      FootprintGrows(sp, d0, w.disk, e);
    }
  }

  lemma OnlyTheFailedNode(failed: string)
    ensures RollbackOrder([], failed) == [failed]
  {
    var one := [failed] + Reversed([]);
    assert one == [failed] && one[1..] == [];
    assert DedupFrom({}, one) == [one[0]] + DedupFrom({} + {one[0]}, one[1..]);
  }

  /** Handed a state that knows this backup, a rollback that succeeds undoes whatever the renewal
      did to the listed files, wherever it had stopped. */
  lemma RollbackUndoesRenewal(sp: Spec, d0: Disk, w: World, state: State.Snapshot, i: nat)
    requires Ready(sp, d0) && Footprint(sp, d0, w.disk) && Recoverable(sp, d0, w) && !sp.dryRun && i < LISTED
    requires w.local.Some? && w.local.value.backupPath != ""
    requires sp.node in state.nodes && state.nodes[sp.node].backupPath == sp.Path()
    requires RunRollback(sp, w, Some(state)).out == Ok && Live(sp.dirs, i) in d0.files
    ensures var e := RunRollback(sp, w, Some(state)).w.disk;
      Live(sp.dirs, i) in e.files && e.files[Live(sp.dirs, i)] == d0.files[Live(sp.dirs, i)]
  {
    var plan := sp.RollbackPlan();
    var r := RollbackAllEffect(plan, Some(state), State.Absent, w.disk, [], sp.node, w.fates);
    PathIsSeparate(sp, d0);
    OnlyTheFailedNode(sp.node);
    assert |sp.Path()| > 0;
    assert Dir(Live(sp.dirs, i)) in d0.dirs;
    LastRestoreWins(plan, state, State.Absent, w.disk, [], sp.node, w.fates, i);
    assert r.results[|r.results| - 1].success;
  }

  // ---- what the shipped rollback does ----

  /** The controller hands `RollbackAll` no state: whenever a backup path is known the call panics
      before it restores anything, and otherwise it reports an error. It never succeeds. */
  lemma ShippedRollbackNeverReturns(sp: Spec, w: World)
    ensures RunRollback(sp, w, None).w == w
    ensures RunRollback(sp, w, None).out == Panic <==> w.local.Some? && w.local.value.backupPath != ""
    ensures RunRollback(sp, w, None).out == Err <==> !(w.local.Some? && w.local.value.backupPath != "")
  {
    NilStatePanics(sp.RollbackPlan(), State.Absent, w.disk, [], sp.node, w.fates);
  }

  /** Server and copy name this backup. */
  predicate Notes(w: World, path: string) {
    w.local.Some? && w.local.value.backupPath == path && w.server.Some? && w.server.value.backupPath == path
  }

  lemma NoteStays(sp: Spec, w: World, certs: seq<CertInfo>)
    requires Synced(w)
    requires var backup := OnDisk(w, CreateEffect(sp.dirs, w.disk, sp.Path(), w.fates));
      backup.out == Ok && PatchOwn(backup.w, sp.node, SetBackupPath(sp.Path())).out == Ok
    ensures Notes(RunRenewal(sp, w, certs).w, sp.Path())
  {
    var backup := OnDisk(w, CreateEffect(sp.dirs, w.disk, sp.Path(), w.fates));
    PatchLaw(backup.w, sp.node, SetBackupPath(sp.Path()));
    RenewAndRestartIsLocal(sp, PatchOwn(backup.w, sp.node, SetBackupPath(sp.Path())).w, certs);
  }

  lemma NotedRollbackPanics(sp: Spec, w: World)
    requires Notes(w, sp.Path())
    ensures var rolling := PatchOwn(w, sp.node, SetPhase(RollingBack, sp.renewError));
      rolling.w.disk == w.disk && (Dies(rolling) ==> rolling.out == Crash)
      && RunRollback(sp, rolling.w, None) == Ran(rolling.w, Panic)
  {
    assert |sp.Path()| > 0;
    ShippedRollbackNeverReturns(sp, PatchOwn(w, sp.node, SetPhase(RollingBack, sp.renewError)).w);
  }

  /** So a live renewal that fails after its backup was recorded leaves the node's files as the
      failure left them, and the reconciliation does not return. */
  lemma FailedRenewalIsLeftBehind(sp: Spec, w: World, certs: seq<CertInfo>)
    requires Synced(w) && RunRenewal(sp, w, certs).out == Err
    requires var backup := OnDisk(w, CreateEffect(sp.dirs, w.disk, sp.Path(), w.fates));
      backup.out == Ok && PatchOwn(backup.w, sp.node, SetBackupPath(sp.Path())).out == Ok
    ensures var end := FromRenewing(sp, StagesOf(sp, None), w, certs);
      && end.w.disk == RunRenewal(sp, w, certs).w.disk
      && end.result in {Panicked, Crashed}
  {
    NoteStays(sp, w, certs);
    FailedRunDies(sp, StagesOf(sp, None), w, certs);
  }

  lemma FailedRunDies(sp: Spec, st: Stages, w: World, certs: seq<CertInfo>)
    requires st.renew(w, certs).out == Err && Notes(st.renew(w, certs).w, sp.Path())
    requires forall v: World :: st.rollBack(v) == RunRollback(sp, v, None)
    ensures var end := FromRenewing(sp, st, w, certs);
      end.w.disk == st.renew(w, certs).w.disk && end.result in {Panicked, Crashed}
  {
    NotedRollbackPanics(sp, st.renew(w, certs).w);
  }
}
