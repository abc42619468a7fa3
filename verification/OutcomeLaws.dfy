/** How a reconciliation ends: what follows a rollback, when a node is given up, and what a
    reconciliation that nothing disturbs does, by the disk alone. */
module OutcomeLaws {
  import opened Wrappers
  import opened Host
  import opened Status
  import opened Cluster
  import opened Detector
  import opened Expiry
  import opened BackupLaws
  import opened RenewalLaws
  import State
  import opened Rollback
  import opened Reconcile
  import opened ReconcileLaws
  import opened RecoveryLaws
  import opened RotationLaws
  import opened StatusLaws
  import opened PairLaws

  // ---- after a rollback ----

  /** Server and copy have an entry, and neither has given up on the node. */
  predicate StillTrying(w: World) {
    && w.server.Some? && w.server.value.phase !in {Critical, Failed}
    && w.local.Some? && w.local.value.phase !in {Critical, Failed}
  }

  lemma PhasePatch(w: World, node: string, phase: NodePhase, reason: string)
    requires w.server.Some? && w.local.Some? && w.local.value.phase != phase
    ensures var r := PatchOwn(w, node, SetPhase(phase, reason));
      && r.w.server.Some? && r.w.server.value.phase == (if Reaches(w) then phase else w.server.value.phase)
      && r.w.attempts == w.attempts + [phase] && r.out in {Ok, Err, Crash}
  {
  }

  /** The rollback returned, with or without an error. */
  predicate Returned(b: Ran) {
    !Dies(b)
  }

  /** What `FromRollingBack` makes of a rollback that ended like this. */
  predicate Follows(sp: Spec, w: World, b: Ran, e: Reconciled) {
    && e.w.attempts == w.attempts + (if !Returned(b) then [] else if b.out == Ok then [Failed] else [Critical])
    && e.w.server.Some?
    && (e.w.server.value.phase == Critical <==> Returned(b) && b.out != Ok && Reaches(b.w))
    && (e.w.server.value.phase == Failed <==> Returned(b) && b.out == Ok && Reaches(b.w))
    && (e.result == NoRequeue ==> Returned(b) && b.out != Ok)
    && (e.result.Requeue? ==> Returned(b) && b.out == Ok && e.result == Requeue(RequeueWithJitter(sp.checkIntervalHours, sp.nameHash)))
    && (e.result == Panicked <==> b.out == Panic) && e.result != Error
  }

  lemma FollowsRollback(sp: Spec, st: Stages, w: World)
    requires StillTrying(w) && st.rollBack(w).w.server == w.server && st.rollBack(w).w.local == w.local
    requires st.rollBack(w).w.attempts == w.attempts
    ensures Follows(sp, w, st.rollBack(w), FromRollingBack(sp, st, w))
  {
    var b := st.rollBack(w);
    if Returned(b) {
      if b.out == Ok {
        PhasePatch(b.w, sp.node, Failed, sp.renewError);
      } else {
        PhasePatch(b.w, sp.node, Critical, sp.criticalError);
      }
    }
  }

  /** After a rollback that reports an error the node is marked Critical and is not scheduled again; after
      one that succeeds it is marked Failed and comes back at the usual distance. The server shows the
      mark exactly when its patch arrives. If the rollback dies nothing more is tried. */
  lemma AfterRollback(sp: Spec, w: World, state: Option<State.Snapshot>)
    requires StillTrying(w)
    ensures Follows(sp, w, RunRollback(sp, w, state), FromRollingBack(sp, StagesOf(sp, state), w))
  {
    RollbackIsLocal(sp, w, state);
    FollowsRollback(sp, StagesOf(sp, state), w);
  }

  /** So the node is stopped after a rollback exactly when that reported an error and the patch that says so
      reached the server; the error of the patch is only logged. Otherwise the next reconciliation
      starts all over. */
  lemma WhenCriticalSticks(sp: Spec, w: World, state: Option<State.Snapshot>, next: Spec, script: seq<Fate>, later: Option<State.Snapshot>)
    requires StillTrying(w)
    ensures var b, e := RunRollback(sp, w, state), FromRollingBack(sp, StagesOf(sp, state), w).w;
      var again := ReconcileEffect(next, StagesOf(next, later), Found(e.server), e.(fates := script, attempts := []));
      again.w.attempts == [] <==> Returned(b) && b.out != Ok && Reaches(b.w)
  {
    var e := FromRollingBack(sp, StagesOf(sp, state), w).w;
    AfterRollback(sp, w, state);
    ReconcilePhases(next, Found(e.server), e.(fates := script, attempts := []), later);
  }

  /** Handed a state, the rollback succeeds exactly when a backup path is known, every node was rolled back,
      and, unless it is a dry run, the health check at the end passes. */
  lemma WhenRollbackSucceeds(sp: Spec, w: World, state: State.Snapshot)
    ensures var rb := RollbackAllEffect(sp.RollbackPlan(), Some(state), State.Absent, w.disk, [], sp.node, w.fates);
      RunRollback(sp, w, Some(state)).out == Ok <==>
        KnowsPath(w) && rb.out == Ok && (forall i :: 0 <= i < |rb.results| ==> rb.results[i].success) && (sp.dryRun || Passes(rb.fates))
  {
  }

  // ---- when a node is given up ----

  /** The step returned with an error. */
  predicate ReportsError(r: Ran) {
    Returned(r) && r.out != Ok
  }

  /** The server names no backup, neither an old one nor one of this renewal: the backup failed, or the patch
      that records it was refused. */
  predicate Unnamed(sp: Spec, w: World) {
    && Named(w.server) == ""
    && (Backed(sp, w).out == Err || (Backed(sp, w).out == Ok && Backed(sp, w).w.fates != [] && Backed(sp, w).w.fates[0].Refused?))
  }

  lemma PathPatch(w: World, node: string, path: string)
    requires Synced(w) && w.server.Some? && path != ""
    ensures var r := PatchOwn(w, node, SetBackupPath(path));
      && r.w.server.Some? && r.w.local.Some? && KnowsPath(r.w)
      && r.w.local.value.phase == r.w.server.value.phase == w.server.value.phase
      && (Named(r.w.server) == (if Reaches(w) then path else Named(w.server)))
      && (r.out == Ok ==> Reaches(w)) && (r.out == Err && !Reaches(w) <==> w.fates != [] && w.fates[0].Refused?)
      && (w.fates != [] && w.fates[0].Refused? ==> r.w.fates == w.fates[1..])
  {
  }

  /** How a renewal that fails can leave the server without a backup to name. */
  lemma UnnamedRun(sp: Spec, w: World, certs: seq<CertInfo>)
    requires Synced(w) && w.server.Some?
    ensures var r := RunRenewal(sp, w, certs);
      && r.w.local.Some? && r.w.server.Some? && r.w.local.value.phase == r.w.server.value.phase == w.server.value.phase
      && (ReportsError(r) && Named(r.w.server) == "" <==> Unnamed(sp, w))
      && (Unnamed(sp, w) ==> (KnowsPath(r.w) <==> Backed(sp, w).out == Ok))
      && (Named(r.w.server) != "" ==> KnowsPath(r.w))
  {
    var backed := Backed(sp, w);
    assert |sp.Path()| > 0;
    CreateFrame(sp.dirs, w.disk, sp.Path(), w.fates);
    if backed.out == Ok {
      PathPatch(backed.w, sp.node, sp.Path());
      RenewAndRestartIsLocal(sp, Noted(sp, w).w, certs);
    }
  }

  lemma RollingPatch(sp: Spec, w: World)
    requires w.server.Some? && w.local.Some? && w.server.value.phase == w.local.value.phase == Renewing
    ensures var rolling := PatchOwn(w, sp.node, SetPhase(RollingBack, sp.renewError));
      && StillTrying(rolling.w) && rolling.w.attempts == w.attempts + [RollingBack] && rolling.w.disk == w.disk
      && rolling.out != Panic && (rolling.out == Crash <==> w.fates == [] || w.fates[0].Killed?)
      && (KnowsPath(rolling.w) <==> if Passes(w.fates) then Named(w.server) != "" else KnowsPath(w))
      && (rolling.out != Crash ==> rolling.w.fates == w.fates[1..])
  {
  }

  /** The renewal failed, the RollingBack patch did not kill the process, and after it the copy names no
      backup: none was made, or the reply to that patch has taken its name away. */
  predicate GivesUp(sp: Spec, w: World, f: seq<Fate>) {
    Unnamed(sp, w) && f != [] && !f[0].Killed? && (Backed(sp, w).out == Ok ==> f[0].Done?)
  }

  lemma DonePhase(sp: Spec, w: World)
    requires w.server.Some? && w.server.value.phase != Critical
    ensures var r := PatchOwn(w, sp.node, SetRenewed(sp.renewedAt));
      && r.w.server.Some? && r.w.server.value.phase != Critical && r.w.attempts == w.attempts + [Idle]
      && FreeOfMarks(r.w)
  {
  }

  /** The server does not call the node critical. */
  predicate FreeOfMarks(w: World) {
    w.server.Some? ==> w.server.value.phase != Critical
  }

  lemma FailedRun(sp: Spec, w: World, certs: seq<CertInfo>)
    requires Synced(w) && w.server.Some? && w.server.value.phase == Renewing && w.attempts == [Detecting, Renewing]
    requires ReportsError(RunRenewal(sp, w, certs))
    ensures var f, e := RunRenewal(sp, w, certs).w.fates, FromRenewing(sp, StagesOf(sp, None), w, certs);
      && e.w.attempts == [Detecting, Renewing, RollingBack] + (if GivesUp(sp, w, f) then [Critical] else [])
      && e.w.server.Some? && (e.w.server.value.phase == Critical <==> GivesUp(sp, w, f) && f[1..] != [] && !f[1].Refused?)
      && (if GivesUp(sp, w, f) then e.result in {NoRequeue, Crashed} else e.result in {Panicked, Crashed})
  {
    var r := RunRenewal(sp, w, certs);
    var rolling := PatchOwn(r.w, sp.node, SetPhase(RollingBack, sp.renewError));
    UnnamedRun(sp, w, certs);
    RenewalIsSilent(sp, w, certs);
    RollingPatch(sp, r.w);
    assert [Detecting, Renewing] + [RollingBack] == [Detecting, Renewing, RollingBack];
    if !Dies(rolling) {
      ShippedRollbackNeverReturns(sp, rolling.w);
      AfterRollback(sp, rolling.w, None);
    }
  }

  /** What is seen of a renewal that ended like this. */
  predicate Ends(sp: Spec, w: World, r: Ran, e: Reconciled) {
    && (Critical in e.w.attempts <==> ReportsError(r) && GivesUp(sp, w, r.w.fates)) && Failed !in e.w.attempts
    && (!FreeOfMarks(e.w) <==> ReportsError(r) && GivesUp(sp, w, r.w.fates) && |r.w.fates| > 1 && !r.w.fates[1].Refused?)
    && (e.result == NoRequeue ==> ReportsError(r) && GivesUp(sp, w, r.w.fates))
    && (ReportsError(r) ==> e.result in {Panicked, Crashed, NoRequeue})
  }

  lemma RunThatIsNoError(sp: Spec, st: Stages, w: World, certs: seq<CertInfo>)
    requires !ReportsError(st.renew(w, certs)) && st.renew(w, certs).w.attempts == [Detecting, Renewing]
    requires st.renew(w, certs).w.server.Some? && st.renew(w, certs).w.server.value.phase == Renewing
    ensures Ends(sp, w, st.renew(w, certs), FromRenewing(sp, st, w, certs))
  {
    var r := st.renew(w, certs);
    DonePhase(sp, r.w);
    assert [Detecting, Renewing] + [Idle] == [Detecting, Renewing, Idle];
  }

  /** As shipped, a renewal ends with the node marked Critical exactly when it failed before the server named
      a backup and no earlier one is named, so that the rollback reports an error; then it is not
      scheduled again. Every other renewal that fails takes the process down with it. The node is never
      marked Failed. */
  lemma WhenNodeIsGivenUp(sp: Spec, w: World, certs: seq<CertInfo>)
    requires Synced(w) && w.server.Some? && w.server.value.phase == Renewing && w.attempts == [Detecting, Renewing]
    ensures Ends(sp, w, RunRenewal(sp, w, certs), FromRenewing(sp, StagesOf(sp, None), w, certs))
  {
    RenewalIsSilent(sp, w, certs);
    UnnamedRun(sp, w, certs);
    if ReportsError(RunRenewal(sp, w, certs)) {
      FailedRun(sp, w, certs);
    } else {
      RunThatIsNoError(sp, StagesOf(sp, None), w, certs);
    }
  }

  // ---- every reconciliation ----

  /** The renewal of a reconciliation begins in this world, on a list of what lies on the disk. */
  ghost predicate Begins(sp: Spec, start: World, v: World, certs: seq<CertInfo>) {
    && v.disk == start.disk && Synced(v) && v.attempts == [Detecting, Renewing]
    && v.server.Some? && v.server.value.phase == Renewing && Named(v.server) == Named(start.server)
    && FromDetection(sp.RenewalEnv(), certs) && Finds(sp.codec, start.disk, sp.DetectorConfig(), sp.now, certs) && NeedsRenewal(certs)
  }

  /** It ended before any renewal. */
  predicate EndsEarly(d: Disk, e: Reconciled) {
    && e.w.disk == d && e.result !in {NoRequeue, Panicked}
    && (|| e.w.attempts == [] || e.w.attempts == [Detecting] || e.w.attempts == [Detecting, Failed]
        || e.w.attempts == [Detecting, Idle] || e.w.attempts == [Detecting, Renewing])
  }

  lemma MovedOn(sp: Spec, w: World, certs: seq<CertInfo>)
    requires Synced(w) && w.server.Some? && w.attempts == [Detecting] && Checked(sp, w, certs).out == Ok && Moved(sp, w, certs).out == Ok
    ensures var v := Moved(sp, w, certs).w;
      && v.disk == w.disk && Synced(v) && v.attempts == [Detecting, Renewing]
      && v.server.Some? && v.server.value.phase == Renewing && Named(v.server) == Named(w.server)
  {
    var h := SetCertStatus(CertStatuses(certs), sp.checkedAt);
    PatchLaw(w, sp.node, h);
    PatchAttempts(w, sp.node, h);
    PatchLaw(Checked(sp, w, certs).w, sp.node, SetPhase(Renewing, ""));
    PatchAttempts(Checked(sp, w, certs).w, sp.node, SetPhase(Renewing, ""));
  }

  lemma EarlyEnds(sp: Spec, st: Stages, w: World, certs: seq<CertInfo>, out: Outcome)
    requires w.attempts == [Detecting]
    requires !(out == Ok && NeedsRenewal(certs) && Checked(sp, w, certs).out == Ok && Moved(sp, w, certs).out == Ok)
    ensures EndsEarly(w.disk, AfterDetection(sp, st, w, certs, out))
  {
    var h := SetCertStatus(CertStatuses(certs), sp.checkedAt);
    PatchAttempts(w, sp.node, SetPhase(Failed, sp.detectError));
    PatchLaw(w, sp.node, SetPhase(Failed, sp.detectError));
    PatchAttempts(w, sp.node, h);
    PatchLaw(w, sp.node, h);
    if Checked(sp, w, certs).out == Ok {
      PatchAttempts(Checked(sp, w, certs).w, sp.node, SetPhase(Idle, ""));
      PatchLaw(Checked(sp, w, certs).w, sp.node, SetPhase(Idle, ""));
      PatchAttempts(Checked(sp, w, certs).w, sp.node, SetPhase(Renewing, ""));
      PatchLaw(Checked(sp, w, certs).w, sp.node, SetPhase(Renewing, ""));
    }
  }

  lemma DetectingOn(sp: Spec, start: World)
    requires start.attempts == []
    ensures var r := PatchOwn(start.(local := start.server), sp.node, SetPhase(Detecting, ""));
      && r.w.disk == start.disk && r.w.attempts == [Detecting] && r.out in {Ok, Err, Crash}
      && (r.out == Ok ==> Synced(r.w) && r.w.server.Some? && Named(r.w.server) == Named(start.server))
  {
    var w := start.(local := start.server);
    PatchLaw(w, sp.node, SetPhase(Detecting, ""));
    PatchKeepsName(w, sp.node, SetPhase(Detecting, ""));
    assert [] + [Detecting] == [Detecting];
  }

  lemma SplitReconcile(sp: Spec, st: Stages, start: World) returns (v: World, certs: seq<CertInfo>, due: bool)
    requires IsVisit(sp.order) && start.attempts == []
    ensures var e := ReconcileEffect(sp, st, Found(start.server), start);
      if due then Begins(sp, start, v, certs) && e == FromRenewing(sp, st, v, certs) else EndsEarly(start.disk, e)
  {
    var detecting := PatchOwn(start.(local := start.server), sp.node, SetPhase(Detecting, ""));
    DetectingOn(sp, start);
    v, certs, due := start, [], false;
    if FreeOfMarks(start) && detecting.out == Ok {
      var d := DetectFrom(sp.codec, detecting.w.disk, sp.DetectorConfig(), sp.now, [], sp.order, detecting.w.fates);
      var u := detecting.w.(fates := d.fates);
      DetectedIsFromDetection(sp, detecting.w);
      certs := d.certs;
      due := d.out == Ok && NeedsRenewal(certs) && Checked(sp, u, certs).out == Ok && Moved(sp, u, certs).out == Ok;
      v := Moved(sp, u, certs).w;
      if due {
        MovedOn(sp, u, certs);
      } else {
        EarlyEnds(sp, st, u, certs, d.out);
      }
    }
  }

  /** Every reconciliation of the shipped controller ends before its renewal, with no file touched, or as
      its renewal makes it end. */
  lemma HowReconcileEnds(sp: Spec, start: World) returns (v: World, certs: seq<CertInfo>, due: bool)
    requires IsVisit(sp.order) && start.attempts == []
    ensures var e := ReconcileEffect(sp, StagesOf(sp, None), Found(start.server), start);
      if due then
        Begins(sp, start, v, certs) && e == FromRenewing(sp, StagesOf(sp, None), v, certs) && Ends(sp, v, RunRenewal(sp, v, certs), e)
      else EndsEarly(start.disk, e)
  {
    v, certs, due := SplitReconcile(sp, StagesOf(sp, None), start);
    if due {
      WhenNodeIsGivenUp(sp, v, certs);
    }
  }

  /** So a reconciliation that marks the node Critical found certificates due, failed before the server
      named a backup, had none named before, and left all files as they were. */
  lemma GivenUpUntouched(sp: Spec, start: World)
    requires IsVisit(sp.order) && start.attempts == []
    requires Critical in ReconcileEffect(sp, StagesOf(sp, None), Found(start.server), start).w.attempts
    ensures Named(start.server) == "" && OnlyBackup(sp, start.disk, ReconcileEffect(sp, StagesOf(sp, None), Found(start.server), start).w.disk)
    ensures exists certs :: Finds(sp.codec, start.disk, sp.DetectorConfig(), sp.now, certs) && NeedsRenewal(certs)
  {
    var v, certs, due := SplitReconcile(sp, StagesOf(sp, None), start);
    assert Critical !in [Detecting] && Critical !in [Detecting, Failed] && Critical !in [Detecting, Idle] && Critical !in [Detecting, Renewing];
    WhenNodeIsGivenUp(sp, v, certs);
    ShippedRollbackKeepsDisk(sp);
    RenewingRuns(sp, StagesOf(sp, None), v, certs);
    UnnamedTouchesNothing(sp, v, certs);
  }

  lemma UnnamedTouchesNothing(sp: Spec, w: World, certs: seq<CertInfo>)
    requires Unnamed(sp, w)
    ensures OnlyBackup(sp, w.disk, RunRenewal(sp, w, certs).w.disk)
  {
    BackedIsOnlyBackup(sp, w);
  }
}
