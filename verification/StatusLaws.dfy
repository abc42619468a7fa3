/** When the status reports a renewal, and what the report is worth in live mode, in a dry run and
    on a node whose kubeconfig certificates are due. */
module StatusLaws {
  import opened Wrappers
  import opened Host
  import opened Status
  import opened Conditions
  import opened Cluster
  import opened Generator
  import opened Detector
  import opened Expiry
  import opened BackupLaws
  import opened Renewal
  import opened RenewalLaws
  import opened PodRestart
  import State
  import opened Rollback
  import opened Reconcile
  import opened ReconcileLaws
  import opened RecoveryLaws
  import opened RotationLaws

  // ---- the report ----

  function RenewedAt(entry: Option<NodeStatus>): Option<int> {
    if entry.Some? then entry.value.lastRenewedAt else None
  }

  predicate Reported(w: World, t: Option<int>) {
    RenewedAt(w.server) == t && RenewedAt(w.local) == t
  }

  lemma PatchKeepsReport(w: World, node: string, h: Helper, t: Option<int>)
    requires (h.SetPhase? || h.SetBackupPath? || h.SetCertStatus?) && Reported(w, t)
    ensures Reported(PatchOwn(w, node, h).w, t)
  {
  }

  /** The stages leave the report alone, and a renewal that succeeds ends with a current copy. */
  ghost predicate KeepsReports(st: Stages) {
    && (forall w: World, certs: seq<CertInfo>, t: Option<int> :: Reported(w, t) ==> Reported(st.renew(w, certs).w, t))
    && (forall w: World, certs: seq<CertInfo> :: Synced(w) && st.renew(w, certs).out == Ok ==> Synced(st.renew(w, certs).w))
    && (forall w: World :: st.rollBack(w).w.server == w.server && st.rollBack(w).w.local == w.local)
  }

  lemma RunKeepsReport(sp: Spec, w: World, certs: seq<CertInfo>)
    ensures forall t :: Reported(w, t) ==> Reported(RunRenewal(sp, w, certs).w, t)
    ensures Synced(w) && RunRenewal(sp, w, certs).out == Ok ==> Synced(RunRenewal(sp, w, certs).w)
  {
    var backed := Backed(sp, w);
    if backed.out == Ok {
      PatchLaw(backed.w, sp.node, SetBackupPath(sp.Path()));
      forall t | Reported(w, t) ensures Reported(Noted(sp, w).w, t) {
        PatchKeepsReport(backed.w, sp.node, SetBackupPath(sp.Path()), t);
      }
      RenewAndRestartIsLocal(sp, Noted(sp, w).w, certs);
    }
  }

  lemma StagesKeepReports(sp: Spec, state: Option<State.Snapshot>)
    ensures KeepsReports(StagesOf(sp, state))
  {
    var st := StagesOf(sp, state);
    forall w: World, certs: seq<CertInfo>, t: Option<int> | Reported(w, t) ensures Reported(st.renew(w, certs).w, t) {
      RunKeepsReport(sp, w, certs);
    }
    forall w: World, certs: seq<CertInfo> | Synced(w) && st.renew(w, certs).out == Ok ensures Synced(st.renew(w, certs).w) {
      RunKeepsReport(sp, w, certs);
    }
    forall w: World ensures st.rollBack(w).w.server == w.server && st.rollBack(w).w.local == w.local {
      RollbackIsLocal(sp, w, state);
    }
  }

  /** The patch that reports the renewal reaches the server unless it is refused. */
  predicate Reaches(w: World) {
    w.fates != [] && !w.fates[0].Refused?
  }

  lemma AfterRollbackReport(sp: Spec, st: Stages, w: World, t: Option<int>)
    requires KeepsReports(st) && Reported(w, t)
    ensures RenewedAt(FromRollingBack(sp, st, w).w.server) == t
  {
    var b := st.rollBack(w);
    if !Dies(b) {
      PatchKeepsReport(b.w, sp.node, if b.out != Ok then SetPhase(Critical, sp.criticalError) else SetPhase(Failed, sp.renewError), t);
    }
  }

  lemma RenewingReports(sp: Spec, st: Stages, w: World, certs: seq<CertInfo>)
    requires KeepsReports(st) && Synced(w) && RenewedAt(w.server) != Some(sp.renewedAt)
    ensures var r := st.renew(w, certs);
      RenewedAt(FromRenewing(sp, st, w, certs).w.server) == Some(sp.renewedAt) <==> r.out == Ok && Reaches(r.w)
  {
    var r := st.renew(w, certs);
    var t := RenewedAt(w.server);
    assert Reported(w, t);
    assert Reported(r.w, t);
    if r.out == Ok {
      PatchLaw(r.w, sp.node, SetRenewed(sp.renewedAt));
    } else if !Dies(r) {
      var rolling := PatchOwn(r.w, sp.node, SetPhase(RollingBack, sp.renewError));
      PatchKeepsReport(r.w, sp.node, SetPhase(RollingBack, sp.renewError), t);
      if !Dies(rolling) {
        AfterRollbackReport(sp, st, rolling.w, t);
      }
    }
  }

  /** The renewal is reported exactly when it returned without an error and the report reached the
      server. In a dry run it returns without an error as soon as the backup is recorded. */
  lemma WhenRenewalIsReported(sp: Spec, w: World, certs: seq<CertInfo>, state: Option<State.Snapshot>)
    requires Synced(w) && RenewedAt(w.server) != Some(sp.renewedAt)
    ensures var r := RunRenewal(sp, w, certs);
      && (RenewedAt(FromRenewing(sp, StagesOf(sp, state), w, certs).w.server) == Some(sp.renewedAt) <==> r.out == Ok && Reaches(r.w))
      && (sp.dryRun ==> (r.out == Ok <==> Backed(sp, w).out == Ok && Noted(sp, w).out == Ok))
  {
    StagesKeepReports(sp, state);
    RenewingReports(sp, StagesOf(sp, state), w, certs);
    RunIsStages(sp, w, certs);
  }

  lemma DetectionReports(sp: Spec, st: Stages, w: World, certs: seq<CertInfo>, out: Outcome) returns (v: World)
    requires KeepsReports(st) && RollbackKeepsDisk(st) && Synced(w) && RenewedAt(w.server) != Some(sp.renewedAt)
    ensures var e := AfterDetection(sp, st, w, certs, out);
      RenewedAt(e.w.server) == Some(sp.renewedAt) ==>
        && out == Ok && NeedsRenewal(certs) && v.disk == w.disk && e.w.disk == st.renew(v, certs).w.disk && st.renew(v, certs).out == Ok
        && e == FromRenewing(sp, st, v, certs)
  {
    var t := RenewedAt(w.server);
    var h := SetCertStatus(CertStatuses(certs), sp.checkedAt);
    var checked := PatchOwn(w, sp.node, h);
    var renewing := PatchOwn(checked.w, sp.node, SetPhase(Renewing, ""));
    v := renewing.w;
    PatchKeepsReport(w, sp.node, SetPhase(Failed, sp.detectError), t);
    PatchKeepsReport(w, sp.node, h, t);
    PatchKeepsReport(checked.w, sp.node, SetPhase(Idle, ""), t);
    PatchKeepsReport(checked.w, sp.node, SetPhase(Renewing, ""), t);
    PatchLaw(w, sp.node, h);
    PatchLaw(checked.w, sp.node, SetPhase(Renewing, ""));
    if out == Ok && checked.out == Ok && NeedsRenewal(certs) && renewing.out == Ok {
      RenewingReports(sp, st, v, certs);
      RenewingRuns(sp, st, v, certs);
    }
  }

  lemma ReconcileReports(sp: Spec, st: Stages, start: World) returns (v: World, certs: seq<CertInfo>)
    requires KeepsReports(st) && RollbackKeepsDisk(st) && IsVisit(sp.order) && RenewedAt(start.server) != Some(sp.renewedAt)
    requires RenewedAt(ReconcileEffect(sp, st, Found(start.server), start).w.server) == Some(sp.renewedAt)
    ensures FromDetection(sp.RenewalEnv(), certs) && Finds(sp.codec, start.disk, sp.DetectorConfig(), sp.now, certs) && NeedsRenewal(certs)
    ensures v.disk == start.disk && st.renew(v, certs).out == Ok
    ensures ReconcileEffect(sp, st, Found(start.server), start).w.disk == st.renew(v, certs).w.disk
    ensures ReconcileEffect(sp, st, Found(start.server), start) == FromRenewing(sp, st, v, certs)
  {
    var w := start.(local := start.server);
    var detecting := PatchOwn(w, sp.node, SetPhase(Detecting, ""));
    PatchLaw(w, sp.node, SetPhase(Detecting, ""));
    PatchKeepsReport(w, sp.node, SetPhase(Detecting, ""), RenewedAt(start.server));
    var u := detecting.w;
    var d := DetectFrom(sp.codec, u.disk, sp.DetectorConfig(), sp.now, [], sp.order, u.fates);
    certs := d.certs;
    DetectedIsFromDetection(sp, u);
    v := DetectionReports(sp, st, u.(fates := d.fates), d.certs, d.out);
  }

  /** Detection finds the certificate of this pair OK. */
  predicate OkOnDisk(sp: Spec, d: Disk, a: CertName)
    requires IsPem(a)
  {
    var crt := CrtPath(sp.dirs.pki, a);
    crt in d.files && sp.codec.decodeCert(d.files[crt]).Some?
    && Info(sp.DetectorConfig(), a, sp.codec.decodeCert(d.files[crt]).value, sp.now).health == OK
  }

  lemma NotDueIsOk(sp: Spec, d: Disk, certs: seq<CertInfo>, a: CertName)
    requires IsPem(a) && Finds(sp.codec, d, sp.DetectorConfig(), sp.now, certs)
    ensures NotDue(certs, a) <==> OkOnDisk(sp, d, a)
  {
    assert CertFile(a).Some? && PathOf(sp.DetectorConfig(), a) == CrtPath(sp.dirs.pki, a);
    var c :| c in certs && c.name == a;
    if OkOnDisk(sp, d, a) {
      OkIsNotDue(sp, d, certs, a);
    }
  }

  lemma OkIsNotDue(sp: Spec, d: Disk, certs: seq<CertInfo>, a: CertName)
    requires IsPem(a) && OkOnDisk(sp, d, a) && Finds(sp.codec, d, sp.DetectorConfig(), sp.now, certs)
    ensures NotDue(certs, a)
  {
    forall c | c in certs && c.name == a ensures c.health == OK {
      assert PathOf(sp.DetectorConfig(), a) == CrtPath(sp.dirs.pki, a);
    }
  }

  /** A renewal that the server reports did happen: in live mode, if the time stamp of this
      reconciliation appears in the own entry, then what detection had found to be due on the disk
      is renewed on the disk, the rest is untouched, the four components were restarted, and then passed
      their health check. */
  lemma ReportedRenewalHappened(sp: Spec, start: World) returns (v: World, certs: seq<CertInfo>)
    requires Installed(sp, start.disk) && IsVisit(sp.order) && !sp.dryRun && RenewedAt(start.server) != Some(sp.renewedAt)
    requires RenewedAt(ReconcileEffect(sp, StagesOf(sp, None), Found(start.server), start).w.server) == Some(sp.renewedAt)
    ensures Finds(sp.codec, start.disk, sp.DetectorConfig(), sp.now, certs) && NeedsRenewal(certs)
    ensures v.disk == start.disk && ReconcileEffect(sp, StagesOf(sp, None), Found(start.server), start) == FromRenewing(sp, StagesOf(sp, None), v, certs)
    ensures Bounced(sp, v, certs).out == Ok && Passes(Bounced(sp, v, certs).w.fates)
    ensures var e := ReconcileEffect(sp, StagesOf(sp, None), Found(start.server), start).w.disk;
      && (forall c :: c in certs && c.health != OK ==> IsPem(c.name) && Renewed(sp.RenewalEnv(), start.disk, e, c.name))
      && (forall a :: IsPem(a) && NotDue(certs, a) ==> SamePair(start.disk, e, sp.dirs.pki, a))
      && (forall a :: SameAt(start.disk, e, CAForCert(a).0) && SameAt(start.disk, e, CAForCert(a).1))
      && (forall i :: 0 <= i < 4 ==> Restarted(sp.Restarts(false), start.disk, e, RESTART_ORDER[i]))
      && (forall a :: IsPem(a) ==> if OkOnDisk(sp, start.disk, a) then SamePair(start.disk, e, sp.dirs.pki, a)
                                   else Renewed(sp.RenewalEnv(), start.disk, e, a))
  {
    StagesKeepReports(sp, None);
    ShippedRollbackKeepsDisk(sp);
    v, certs := ReconcileReports(sp, StagesOf(sp, None), start);
    WhenRenewalSucceeds(sp, v, certs);
    LiveRotation(sp, v, certs);
    forall a | IsPem(a) ensures NotDue(certs, a) <==> OkOnDisk(sp, start.disk, a) {
      NotDueIsOk(sp, start.disk, certs, a);
    }
  }

  // ---- the reason of a failure ----

  function ReasonOf(entry: Option<NodeStatus>): string {
    if entry.Some? then entry.value.failureReason else ""
  }

  /** Server and copy have an entry that gives this reason. */
  predicate Gives(w: World, reason: string) {
    w.server.Some? && w.local.Some? && ReasonOf(w.server) == reason && ReasonOf(w.local) == reason
  }

  lemma RunKeepsReason(sp: Spec, w: World, certs: seq<CertInfo>)
    requires Synced(w) && w.server.Some?
    ensures Gives(RunRenewal(sp, w, certs).w, ReasonOf(w.server))
  {
    var backed := Backed(sp, w);
    if backed.out == Ok {
      PatchKeepsReason(backed.w, sp.node, SetBackupPath(sp.Path()), ReasonOf(w.server));
      RenewAndRestartIsLocal(sp, Noted(sp, w).w, certs);
    }
  }

  lemma PatchKeepsReason(w: World, node: string, h: Helper, reason: string)
    requires h.SetBackupPath? && Gives(w, reason)
    ensures Gives(PatchOwn(w, node, h).w, reason)
  {
  }

  /** A patch that names a new reason puts it on the server exactly when it arrives; the copy has it in
      any case. */
  lemma PatchGivesReason(w: World, node: string, phase: NodePhase, reason: string)
    requires w.server.Some? && w.local.Some? && reason != "" && ReasonOf(w.local) != reason
    ensures var r := PatchOwn(w, node, SetPhase(phase, reason)).w;
      && r.server.Some? && ReasonOf(r.local) == reason && r.local.Some?
      && ReasonOf(r.server) == if Reaches(w) then reason else ReasonOf(w.server)
  {
  }

  /** A patch that names the reason the copy has already does not send it. */
  lemma PatchOmitsReason(w: World, node: string, phase: NodePhase, reason: string)
    requires w.server.Some? && w.local.Some? && ReasonOf(w.local) == reason
    ensures ReasonOf(PatchOwn(w, node, SetPhase(phase, reason)).w.server) == ReasonOf(w.server)
  {
  }

  /** A Critical patch follows a rollback that reports an error, and it arrives. */
  predicate SaysCritical(rolling: Ran, b: Ran) {
    !Dies(rolling) && !Dies(b) && b.out != Ok && Reaches(b.w)
  }

  lemma RollingBackGivesReason(sp: Spec, st: Stages, w: World)
    requires w.server.Some? && w.local.Some? && ReasonOf(w.local) == sp.renewError
    requires sp.criticalError != "" && sp.renewError != sp.criticalError
    requires st.rollBack(w).w.server == w.server && st.rollBack(w).w.local == w.local
    ensures var b := st.rollBack(w);
      ReasonOf(FromRollingBack(sp, st, w).w.server) ==
        if !Dies(b) && b.out != Ok && Reaches(b.w) then sp.criticalError else ReasonOf(w.server)
  {
    var b := st.rollBack(w);
    if !Dies(b) {
      if b.out != Ok {
        PatchGivesReason(b.w, sp.node, Critical, sp.criticalError);
      } else {
        PatchOmitsReason(b.w, sp.node, Failed, sp.renewError);
      }
    }
  }

  lemma FailureGivesReason(sp: Spec, st: Stages, w: World, certs: seq<CertInfo>, before: string)
    requires st.renew(w, certs).out == Err && Gives(st.renew(w, certs).w, before)
    requires sp.renewError != "" && sp.criticalError != "" && sp.renewError != sp.criticalError && before != sp.renewError
    requires forall v: World :: st.rollBack(v).w.server == v.server && st.rollBack(v).w.local == v.local
    ensures var r := st.renew(w, certs);
      var rolling := PatchOwn(r.w, sp.node, SetPhase(RollingBack, sp.renewError));
      ReasonOf(FromRenewing(sp, st, w, certs).w.server) ==
        if SaysCritical(rolling, st.rollBack(rolling.w)) then sp.criticalError
        else if Reaches(r.w) then sp.renewError else before
  {
    var r := st.renew(w, certs);
    var rolling := PatchOwn(r.w, sp.node, SetPhase(RollingBack, sp.renewError));
    PatchGivesReason(r.w, sp.node, RollingBack, sp.renewError);
    PatchLaw(r.w, sp.node, SetPhase(RollingBack, sp.renewError));
    if !Dies(rolling) {
      RollingBackGivesReason(sp, st, rolling.w);
    }
  }

  /** After a failed renewal the server gives the critical reason exactly when the rollback reports an
      error and the Critical patch arrives; otherwise the renewal's error exactly when the RollingBack
      patch arrived, and else the reason it gave before. The Failed patch after a rollback that
      succeeds never brings it: the copy has the reason already. */
  lemma WhenReasonIsReported(sp: Spec, w: World, certs: seq<CertInfo>, state: Option<State.Snapshot>)
    requires Synced(w) && w.server.Some? && RunRenewal(sp, w, certs).out == Err
    requires sp.renewError != "" && sp.criticalError != "" && sp.renewError != sp.criticalError && ReasonOf(w.server) != sp.renewError
    ensures var r := RunRenewal(sp, w, certs);
      var rolling := PatchOwn(r.w, sp.node, SetPhase(RollingBack, sp.renewError));
      ReasonOf(FromRenewing(sp, StagesOf(sp, state), w, certs).w.server) ==
        if SaysCritical(rolling, RunRollback(sp, rolling.w, state)) then sp.criticalError
        else if Reaches(r.w) then sp.renewError else ReasonOf(w.server)
  {
    var st := StagesOf(sp, state);
    RunKeepsReason(sp, w, certs);
    forall v: World ensures st.rollBack(v).w.server == v.server && st.rollBack(v).w.local == v.local {
      RollbackIsLocal(sp, v, state);
    }
    FailureGivesReason(sp, st, w, certs, ReasonOf(w.server));
  }

  /** The copy knows a backup path. */
  predicate KnowsPath(w: World) {
    w.local.Some? && w.local.value.backupPath != ""
  }

  /** As the controller is shipped, the reason of a failed renewal is lost exactly when the RollingBack
      patch does not arrive and either the process is dead, or a backup path is known, so that the
      rollback panics, or the Critical patch does not arrive either. */
  lemma WhenReasonIsLost(sp: Spec, w: World, certs: seq<CertInfo>)
    requires Synced(w) && w.server.Some? && RunRenewal(sp, w, certs).out == Err
    requires sp.renewError != "" && sp.criticalError != "" && sp.renewError != sp.criticalError
    requires ReasonOf(w.server) != sp.renewError && ReasonOf(w.server) != sp.criticalError
    ensures var r := RunRenewal(sp, w, certs).w;
      var end := FromRenewing(sp, StagesOf(sp, None), w, certs).w;
      ReasonOf(end.server) !in {sp.renewError, sp.criticalError} <==>
      r.fates == [] || (r.fates[0].Refused? && (KnowsPath(r) || !Reaches(r.(fates := r.fates[1..]))))
  {
    var r := RunRenewal(sp, w, certs).w;
    var rolling := PatchOwn(r, sp.node, SetPhase(RollingBack, sp.renewError));
    WhenReasonIsReported(sp, w, certs, None);
    ShippedRollbackNeverReturns(sp, rolling.w);
    if r.fates != [] && r.fates[0].Refused? {
      RefusedPatch(r, sp.node, sp.renewError);
    }
  }

  lemma RefusedPatch(w: World, node: string, reason: string)
    requires w.fates != [] && w.fates[0].Refused?
    ensures var rolling := PatchOwn(w, node, SetPhase(RollingBack, reason));
      rolling.out == Err && rolling.w.fates == w.fates[1..] && (w.local.Some? ==> (KnowsPath(rolling.w) <==> KnowsPath(w)))
  {
  }

  /** A phase that comes without a reason leaves the old one on the server, and a renewal that is
      reported clears it. */
  lemma PatchedReason(w: World, node: string, h: Helper)
    requires Synced(w) && (h.SetRenewed? || h.SetCertStatus? || h.SetBackupPath? || (h.SetPhase? && h.reason == ""))
    requires PatchOwn(w, node, h).out == Ok
    ensures ReasonOf(PatchOwn(w, node, h).w.server) == if h.SetRenewed? then "" else ReasonOf(w.server)
    ensures RenewedAt(PatchOwn(w, node, h).w.server) == if h.SetRenewed? then Some(h.renewedAt) else RenewedAt(w.server)
  {
    PatchLaw(w, node, h);
  }

  // ---- the published certificates ----

  /** The entry gives this reason and this time of the last renewal. */
  predicate Tells(entry: Option<NodeStatus>, reason: string, renewedAt: Option<int>) {
    ReasonOf(entry) == reason && RenewedAt(entry) == renewedAt
  }

  /** The entry shows these certificates as found by a check at that time. */
  predicate Lists(entry: Option<NodeStatus>, certs: seq<CertStatus>, at: int) {
    entry.Some? && entry.value.certs == certs && entry.value.lastCheckedAt == Some(at)
  }

  ghost predicate KeepsLists(st: Stages) {
    forall w: World, certs: seq<CertInfo>, cs: seq<CertStatus>, at: int ::
      Synced(w) && Lists(w.server, cs, at) && st.renew(w, certs).out == Ok ==>
        Synced(st.renew(w, certs).w) && Lists(st.renew(w, certs).w.server, cs, at)
  }

  lemma PatchLists(w: World, node: string, h: Helper, cs: seq<CertStatus>, at: int)
    requires !h.UpdateConditions? && Synced(w) && PatchOwn(w, node, h).out == Ok
    requires if h.SetCertStatus? then h.certs == cs && h.checkedAt == at else Lists(w.server, cs, at)
    ensures Synced(PatchOwn(w, node, h).w) && Lists(PatchOwn(w, node, h).w.server, cs, at)
  {
    PatchLaw(w, node, h);
  }

  lemma StagesKeepLists(sp: Spec, state: Option<State.Snapshot>)
    ensures KeepsLists(StagesOf(sp, state))
  {
    forall w: World, certs: seq<CertInfo>, cs: seq<CertStatus>, at: int |
      Synced(w) && Lists(w.server, cs, at) && RunRenewal(sp, w, certs).out == Ok
      ensures Synced(RunRenewal(sp, w, certs).w) && Lists(RunRenewal(sp, w, certs).w.server, cs, at)
    {
      RunIsStages(sp, w, certs);
      PatchLists(Backed(sp, w).w, sp.node, SetBackupPath(sp.Path()), cs, at);
      RenewAndRestartIsLocal(sp, Noted(sp, w).w, certs);
    }
  }

  predicate EndsIdle(e: Reconciled) {
    e.result.Requeue? && e.w.attempts != [] && e.w.attempts[|e.w.attempts| - 1] == Idle
  }

  lemma RenewingLists(sp: Spec, st: Stages, w: World, certs: seq<CertInfo>, cs: seq<CertStatus>, at: int)
    requires Silent(st) && KeepsLists(st) && Synced(w) && Lists(w.server, cs, at)
    requires w.attempts == [Detecting, Renewing] && EndsIdle(FromRenewing(sp, st, w, certs))
    ensures var e := FromRenewing(sp, st, w, certs).w;
      && Lists(e.server, cs, at) && e.server.value.phase == Idle && e.attempts == [Detecting, Renewing, Idle]
      && Tells(e.server, "", Some(sp.renewedAt))
  {
    var r := st.renew(w, certs);
    assert r.w.attempts == w.attempts;
    if r.out == Ok {
      var h := SetRenewed(sp.renewedAt);
      PatchLaw(r.w, sp.node, h);
      if PatchOwn(r.w, sp.node, h).out == Ok {
        PatchLists(r.w, sp.node, h, cs, at);
        PatchedReason(r.w, sp.node, h);
      }
      assert [Detecting, Renewing] + [Idle] == [Detecting, Renewing, Idle];
    } else if !Dies(r) {
      var rolling := PatchOwn(r.w, sp.node, SetPhase(RollingBack, sp.renewError));
      PatchLaw(r.w, sp.node, SetPhase(RollingBack, sp.renewError));
      if !Dies(rolling) {
        RollingBackAttempts(sp, st, rolling.w);
      }
    }
  }

  lemma DetectionLists(sp: Spec, st: Stages, w: World, certs: seq<CertInfo>, out: Outcome)
    requires Silent(st) && KeepsLists(st) && Synced(w) && w.attempts == [Detecting]
    requires EndsIdle(AfterDetection(sp, st, w, certs, out))
    ensures var e := AfterDetection(sp, st, w, certs, out).w;
      && out == Ok && Lists(e.server, CertStatuses(certs), sp.checkedAt) && e.server.value.phase == Idle
      && e.attempts == (if NeedsRenewal(certs) then [Detecting, Renewing, Idle] else [Detecting, Idle])
      && (if NeedsRenewal(certs) then Tells(e.server, "", Some(sp.renewedAt)) else Tells(e.server, ReasonOf(w.server), RenewedAt(w.server)))
  {
    var cs, at := CertStatuses(certs), sp.checkedAt;
    var h := SetCertStatus(cs, at);
    var checked := PatchOwn(w, sp.node, h);
    PatchAttempts(w, sp.node, h);
    PatchAttempts(w, sp.node, SetPhase(Failed, sp.detectError));
    if out == Ok && checked.out == Ok {
      PatchLists(w, sp.node, h, cs, at);
      PatchedReason(w, sp.node, h);
      var next := SetPhase(if NeedsRenewal(certs) then Renewing else Idle, "");
      var moved := PatchOwn(checked.w, sp.node, next);
      PatchAttempts(checked.w, sp.node, next);
      PatchLaw(checked.w, sp.node, next);
      if moved.out == Ok {
        PatchLists(checked.w, sp.node, next, cs, at);
        PatchedReason(checked.w, sp.node, next);
        if NeedsRenewal(certs) {
          RenewingLists(sp, st, moved.w, certs, cs, at);
        }
      }
    }
  }

  lemma ReconcileLists(sp: Spec, st: Stages, start: World) returns (certs: seq<CertInfo>)
    requires Silent(st) && KeepsLists(st) && IsVisit(sp.order) && start.attempts == []
    requires EndsIdle(ReconcileEffect(sp, st, Found(start.server), start))
    ensures Finds(sp.codec, start.disk, sp.DetectorConfig(), sp.now, certs)
    ensures var e := ReconcileEffect(sp, st, Found(start.server), start).w;
      && Lists(e.server, CertStatuses(certs), sp.checkedAt) && e.server.value.phase == Idle
      && e.attempts == (if NeedsRenewal(certs) then [Detecting, Renewing, Idle] else [Detecting, Idle])
      && (if NeedsRenewal(certs) then Tells(e.server, "", Some(sp.renewedAt))
          else Tells(e.server, ReasonOf(start.server), RenewedAt(start.server)))
  {
    var w := start.(local := start.server);
    var detecting := PatchOwn(w, sp.node, SetPhase(Detecting, ""));
    PatchLaw(w, sp.node, SetPhase(Detecting, ""));
    assert [] + [Detecting] == [Detecting];
    var u := detecting.w;
    var d := DetectFrom(sp.codec, u.disk, sp.DetectorConfig(), sp.now, [], sp.order, u.fates);
    certs := d.certs;
    DetectedIsFromDetection(sp, u);
    if detecting.out == Ok { PatchedReason(w, sp.node, SetPhase(Detecting, "")); }
    DetectionLists(sp, st, u.(fates := d.fates), d.certs, d.out);
  }

  /** Whole days, with the fraction dropped. */
  predicate IsDays(days: int, time: int) {
    if time >= 0 then days * DAY <= time < (days + 1) * DAY else (days - 1) * DAY < time <= days * DAY
  }

  /** What a reader finds of the certificate in this file: the second in which it ends, the whole days left,
      and whether less than a day is left, or less than the threshold and a day. */
  predicate ShowsFile(sp: Spec, d: Disk, n: CertName, s: CertStatus) {
    var path := PathOf(sp.DetectorConfig(), n);
    && path in d.files && Decoded(sp.codec, n, d.files[path]).Some?
    && var notAfter := Decoded(sp.codec, n, d.files[path]).value.notAfter;
    && s.name == NameText(n)
    && s.expirySeconds * SECOND <= notAfter < (s.expirySeconds + 1) * SECOND
    && IsDays(s.residualDays, notAfter - sp.now)
    && s.status == (if notAfter - sp.now < DAY then "EXPIRED"
                    else if notAfter - sp.now < (sp.thresholdDays + 1) * DAY then "APPROACHING" else "OK")
  }

  /** The names of the certificates on the disk, each once: those with files of their own, and the
      kubeconfigs that are there. */
  ghost predicate NamesOnDisk(sp: Spec, d: Disk, names: seq<CertName>) {
    && (forall n: CertName :: n in names <==> CertFile(n).Some? || PathOf(sp.DetectorConfig(), n) in d.files)
    && (forall i, j :: 0 <= i < j < |names| ==> names[i] != names[j])
  }

  /** One entry per name, and each shows the file of its name. */
  predicate ShowsFiles(sp: Spec, d: Disk, names: seq<CertName>, certs: seq<CertStatus>) {
    |certs| == |names| && forall i :: 0 <= i < |certs| ==> ShowsFile(sp, d, names[i], certs[i])
  }

  lemma DaysAre(expiry: int, now: int)
    ensures IsDays(ResidualDays(expiry, now), expiry - now)
  {
    var x := expiry - now;
    if x < 0 { assert (-x) / DAY * DAY <= -x < ((-x) / DAY + 1) * DAY; }
  }

  lemma StatusShowsFile(sp: Spec, d: Disk, certs: seq<CertInfo>, i: nat)
    requires i < |certs| && Reports(sp.codec, d, sp.DetectorConfig(), sp.now, certs)
    ensures ShowsFile(sp, d, certs[i].name, CertStatuses(certs)[i])
  {
    assert certs[i] in certs;
    DaysAre(certs[i].expiry, sp.now);
    Windows(sp.thresholdDays, certs[i].expiry, sp.now);
  }

  function NamesOf(certs: seq<CertInfo>): seq<CertName> {
    seq(|certs|, i requires 0 <= i < |certs| => certs[i].name)
  }

  lemma FoundNames(sp: Spec, d: Disk, certs: seq<CertInfo>)
    requires Finds(sp.codec, d, sp.DetectorConfig(), sp.now, certs)
    ensures NamesOnDisk(sp, d, NamesOf(certs))
  {
    var names := NamesOf(certs);
    forall n: CertName ensures n in names <==> CertFile(n).Some? || PathOf(sp.DetectorConfig(), n) in d.files {
      if n in names {
        var i :| 0 <= i < |names| && names[i] == n;
        assert certs[i] in certs;
      }
      if CertFile(n).Some? || PathOf(sp.DetectorConfig(), n) in d.files {
        var c :| c in certs && c.name == n;
        var i :| 0 <= i < |certs| && certs[i] == c;
        assert names[i] == n;
      }
    }
  }

  lemma StatusesShowFiles(sp: Spec, d: Disk, certs: seq<CertInfo>)
    requires Reports(sp.codec, d, sp.DetectorConfig(), sp.now, certs)
    ensures ShowsFiles(sp, d, NamesOf(certs), CertStatuses(certs))
  {
    forall i | 0 <= i < |certs| ensures ShowsFile(sp, d, NamesOf(certs)[i], CertStatuses(certs)[i]) {
      StatusShowsFile(sp, d, certs, i);
    }
  }

  /** A reconciliation that ends idle has published what lies on the disk when it starts. After a renewal
      these are still the certificates as they were before it, some of them not OK; the renewal is
      reported and no reason of a failure is left. Without one, an old reason stays. */
  lemma CheckIsPublished(sp: Spec, start: World, state: Option<State.Snapshot>) returns (names: seq<CertName>)
    requires IsVisit(sp.order) && start.attempts == []
    requires EndsIdle(ReconcileEffect(sp, StagesOf(sp, state), Found(start.server), start))
    ensures NamesOnDisk(sp, start.disk, names)
    ensures var e := ReconcileEffect(sp, StagesOf(sp, state), Found(start.server), start).w;
      && e.server.Some? && e.server.value.phase == Idle && e.server.value.lastCheckedAt == Some(sp.checkedAt)
      && ShowsFiles(sp, start.disk, names, e.server.value.certs)
      && (Renewing in e.attempts <==> !AllCertsOk(e.server.value))
      && (if Renewing in e.attempts then Tells(e.server, "", Some(sp.renewedAt))
          else Tells(e.server, ReasonOf(start.server), RenewedAt(start.server)))
  {
    StagesAreSilent(sp, state);
    StagesKeepLists(sp, state);
    var certs := ReconcileLists(sp, StagesOf(sp, state), start);
    names := NamesOf(certs);
    StatusesSayOk(certs);
    FoundNames(sp, start.disk, certs);
    StatusesShowFiles(sp, start.disk, certs);
  }

  lemma StatusesSayOk(certs: seq<CertInfo>)
    ensures NeedsRenewal(certs) <==> exists i :: 0 <= i < |CertStatuses(certs)| && CertStatuses(certs)[i].status != "OK"
  {
    assert |"APPROACHING"| == 11 && |"EXPIRED"| == 7 && |"OK"| == 2;
    forall i | 0 <= i < |certs| ensures CertStatuses(certs)[i].status == "OK" <==> certs[i].health == OK {
    }
    if i :| 0 <= i < |certs| && certs[i].health != OK {
      assert CertStatuses(certs)[i].status != "OK";
    }
  }

  // ---- dry runs ----

  lemma {:induction false} IdleActions(act: NodeAction, now: int, s: Option<State.Snapshot>, file: State.StateFile, d: Disk,
                                       nodes: seq<string>, fates: seq<Fate>)
    requires forall ns: Option<map<string, State.NodeState>>, e: Disk, node: string, fs: seq<Fate> :: act(ns, e, node, fs).disk == e
    ensures RollbackFrom(act, now, s, file, d, nodes, fates).disk == d
    decreases |nodes|
  {
    if nodes != [] {
      var r := act(NodesIn(s), d, nodes[0], fates);
      if r.out == Ok && s.Some? {
        var t := State.Changed(s.value, State.SetNodeRollback(nodes[0], !r.success), now);
        var saved := State.Save(t, file, r.fates);
        IdleActions(act, now, Some(t), saved.file, r.disk, nodes[1..], saved.fates);
      }
    }
  }

  lemma DryRollbackKeepsDisk(sp: Spec, state: Option<State.Snapshot>)
    requires sp.dryRun
    ensures RollbackKeepsDisk(StagesOf(sp, state))
  {
    forall w: World ensures RunRollback(sp, w, state).w.disk == w.disk {
      if w.local.Some? && w.local.value.backupPath != "" {
        IdleActions(ActionOf(sp.RollbackPlan()), sp.now, state, State.Absent, w.disk, RollbackOrder([], sp.node), w.fates);
      }
    }
  }

  /** A dry run writes nothing but its backup, in every reconciliation, whatever fails and whether
      or not it rolls back. The status may report a renewal all the same. */
  lemma DryRunWritesOnlyTheBackup(sp: Spec, start: World, state: Option<State.Snapshot>)
    requires sp.dryRun && IsVisit(sp.order)
    ensures OnlyBackup(sp, start.disk, ReconcileEffect(sp, StagesOf(sp, state), Found(start.server), start).w.disk)
  {
    DryRollbackKeepsDisk(sp, state);
    var v, certs := ReconcileRuns(sp, StagesOf(sp, state), start);
    RunIsStages(sp, v, certs);
    BackedIsOnlyBackup(sp, v);
  }

  // ---- kubeconfig certificates ----

  /** Detection will find the certificate of this kubeconfig due. */
  predicate KubeconfigDue(sp: Spec, d: Disk, name: CertName) {
    var path := PathOf(sp.DetectorConfig(), name);
    && CertFile(name).None? && path in d.files && sp.codec.decodeKubeconfig(d.files[path]).Some?
    && Info(sp.DetectorConfig(), name, sp.codec.decodeKubeconfig(d.files[path]).value, sp.now).health != OK
  }

  lemma DueIsFound(sp: Spec, w: World, name: CertName)
    requires IsVisit(sp.order) && KubeconfigDue(sp, w.disk, name)
    ensures var d := DetectFrom(sp.codec, w.disk, sp.DetectorConfig(), sp.now, [], sp.order, w.fates);
      d.out == Ok ==> exists c :: c in d.certs && c.health != OK && !IsPem(c.name)
  {
    var cfg := sp.DetectorConfig();
    var d := DetectFrom(sp.codec, w.disk, cfg, sp.now, [], sp.order, w.fates);
    if d.out == Ok {
      DetectIsFaithful(sp.codec, w.disk, cfg, sp.now, [], sp.order, w.fates);
      assert name in sp.order;
      var c :| c in d.certs && c.name == name;
      assert c.health != OK && !IsPem(c.name);
    }
  }

  lemma BlockedRun(sp: Spec, w: World, certs: seq<CertInfo>)
    requires !sp.dryRun && FromDetection(sp.RenewalEnv(), certs) && exists c :: c in certs && c.health != OK && !IsPem(c.name)
    ensures RunRenewal(sp, w, certs).out != Ok
  {
    var c :| c in certs && c.health != OK && !IsPem(c.name);
    RunIsStages(sp, w, certs);
    KubeconfigCertBlocksRenewal(sp.RenewalEnv(), Noted(sp, w).w.disk, certs, Noted(sp, w).w.fates, c);
  }

  lemma BlockedRenewing(sp: Spec, st: Stages, w: World, certs: seq<CertInfo>)
    requires Silent(st) && Idle !in w.attempts && st.renew(w, certs).out != Ok
    ensures Idle !in FromRenewing(sp, st, w, certs).w.attempts
  {
    var r := st.renew(w, certs);
    assert r.w.attempts == w.attempts;
    if !Dies(r) {
      var rolling := PatchOwn(r.w, sp.node, SetPhase(RollingBack, sp.renewError));
      assert Idle !in rolling.w.attempts;
      if !Dies(rolling) {
        RollingBackAttempts(sp, st, rolling.w);
      }
    }
  }

  lemma BlockedDetection(sp: Spec, st: Stages, w: World, certs: seq<CertInfo>, out: Outcome)
    requires Silent(st) && Idle !in w.attempts
    requires out == Ok ==> NeedsRenewal(certs) && forall v: World :: st.renew(v, certs).out != Ok
    ensures Idle !in AfterDetection(sp, st, w, certs, out).w.attempts
  {
    var h := SetCertStatus(CertStatuses(certs), sp.checkedAt);
    var checked := PatchOwn(w, sp.node, h);
    var renewing := PatchOwn(checked.w, sp.node, SetPhase(Renewing, ""));
    PatchLaw(w, sp.node, h);
    PatchLaw(checked.w, sp.node, SetPhase(Renewing, ""));
    PatchLaw(w, sp.node, SetPhase(Failed, sp.detectError));
    if out == Ok && checked.out == Ok && renewing.out == Ok {
      BlockedRenewing(sp, st, renewing.w, certs);
    }
  }

  lemma DueMeansNeeded(certs: seq<CertInfo>, c: CertInfo)
    requires c in certs && c.health != OK
    ensures NeedsRenewal(certs)
  {
    var i :| 0 <= i < |certs| && certs[i] == c;
    assert certs[i].health != OK;
  }

  /** On a node with a kubeconfig certificate that is due, no live reconciliation ever tries to
      report Idle: the renewal cannot succeed, because such a certificate has no file to renew. */
  lemma DueKubeconfigNeverSettles(sp: Spec, start: World, name: CertName, state: Option<State.Snapshot>)
    requires !sp.dryRun && IsVisit(sp.order) && KubeconfigDue(sp, start.disk, name) && start.attempts == []
    ensures Idle !in ReconcileEffect(sp, StagesOf(sp, state), Found(start.server), start).w.attempts
  {
    var st := StagesOf(sp, state);
    var w := start.(local := start.server);
    var detecting := PatchOwn(w, sp.node, SetPhase(Detecting, ""));
    StagesAreSilent(sp, state);
    PatchLaw(w, sp.node, SetPhase(Detecting, ""));
    if detecting.out == Ok {
      var u := detecting.w;
      var d := DetectFrom(sp.codec, u.disk, sp.DetectorConfig(), sp.now, [], sp.order, u.fates);
      DetectedIsFromDetection(sp, u);
      DueIsFound(sp, u, name);
      if d.out == Ok {
        var c :| c in d.certs && c.health != OK && !IsPem(c.name);
        DueMeansNeeded(d.certs, c);
        forall v: World ensures st.renew(v, d.certs).out != Ok {
          BlockedRun(sp, v, d.certs);
        }
      }
      BlockedDetection(sp, st, u.(fates := d.fates), d.certs, d.out);
    }
  }
}
