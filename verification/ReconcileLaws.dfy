/** What every reconciliation keeps, at every failure and every crash point. */
module ReconcileLaws {
  import opened Wrappers
  import opened Host
  import opened Status
  import opened Cluster
  import opened Detector
  import opened Expiry
  import opened Backup
  import opened RollbackLaws
  import opened Reconcile

  // ---- patches ----

  /** The pod's copy of its own entry is what the server holds. */
  predicate Synced(w: World) {
    w.server == w.local
  }

  lemma PatchLaw(w: World, node: string, h: Helper)
    requires !h.UpdateConditions?
    ensures var r := PatchOwn(w, node, h);
      && r.w.disk == w.disk && r.w.attempts == w.attempts + Attempted(h) && r.out != NotExist && r.out != Panic
      && (w.server.Some? && !h.SetBackupPath? ==> r.w.server.Some? && r.w.server.value.backupPath == w.server.value.backupPath)
      && (Synced(w) ==>
            && (r.out == Ok ==> Synced(r.w) && r.w.local == MutateOwn(w.local, node, h))
            && (r.w.server == w.server || r.w.server == MutateOwn(w.local, node, h)))
  {
  }

  // ---- phases ----

  /** The sequences of phases that one reconciliation may try to report. */
  predicate PhaseRun(a: seq<NodePhase>) {
    || a <= [Detecting, Failed]
    || a <= [Detecting, Idle]
    || a <= [Detecting, Renewing, Idle]
    || a <= [Detecting, Renewing, RollingBack, Failed]
    || a <= [Detecting, Renewing, RollingBack, Critical]
  }

  /** Neither stage reports a phase of its own. */
  ghost predicate Silent(st: Stages) {
    && (forall w, certs :: st.renew(w, certs).w.attempts == w.attempts)
    && (forall w :: st.rollBack(w).w.attempts == w.attempts)
  }

  lemma RenewAndRestartIsLocal(sp: Spec, w: World, certs: seq<CertInfo>)
    ensures var r := RenewAndRestart(sp, w, certs).w;
      r.server == w.server && r.local == w.local && r.attempts == w.attempts
  {
  }

  lemma RenewalIsSilent(sp: Spec, w: World, certs: seq<CertInfo>)
    ensures RunRenewal(sp, w, certs).w.attempts == w.attempts
  {
    var backup := OnDisk(w, CreateEffect(sp.dirs, w.disk, sp.Path(), w.fates));
    if backup.out == Ok {
      var recorded := PatchOwn(backup.w, sp.node, SetBackupPath(sp.Path()));
      PatchLaw(backup.w, sp.node, SetBackupPath(sp.Path()));
      RenewAndRestartIsLocal(sp, recorded.w, certs);
      assert w.attempts + [] == w.attempts;
    }
  }

  lemma RollbackIsLocal(sp: Spec, w: World, state: Option<State.Snapshot>)
    ensures var r := RunRollback(sp, w, state).w;
      r.server == w.server && r.local == w.local && r.attempts == w.attempts
  {
  }

  lemma StagesAreSilent(sp: Spec, state: Option<State.Snapshot>)
    ensures Silent(StagesOf(sp, state))
  {
    forall w: World, certs: seq<CertInfo> ensures StagesOf(sp, state).renew(w, certs).w.attempts == w.attempts {
      RenewalIsSilent(sp, w, certs);
    }
    forall w: World ensures StagesOf(sp, state).rollBack(w).w.attempts == w.attempts {
      RollbackIsLocal(sp, w, state);
    }
  }

  lemma RollingBackAttempts(sp: Spec, st: Stages, w: World)
    requires Silent(st)
    ensures var a := FromRollingBack(sp, st, w).w.attempts;
      a == w.attempts || a == w.attempts + [Failed] || a == w.attempts + [Critical]
  {
  }

  lemma RenewingAttempts(sp: Spec, st: Stages, w: World, certs: seq<CertInfo>)
    requires Silent(st)
    ensures var a := FromRenewing(sp, st, w, certs).w.attempts;
      || a == w.attempts || a == w.attempts + [Idle] || a == w.attempts + [RollingBack]
      || a == w.attempts + [RollingBack, Failed] || a == w.attempts + [RollingBack, Critical]
  {
    var r := st.renew(w, certs);
    if !Dies(r) && r.out != Ok {
      var rolling := PatchOwn(r.w, sp.node, SetPhase(RollingBack, sp.renewError));
      PatchLaw(r.w, sp.node, SetPhase(RollingBack, sp.renewError));
      if !Dies(rolling) {
        RollingBackAttempts(sp, st, rolling.w);
        assert w.attempts + [RollingBack] + [Failed] == w.attempts + [RollingBack, Failed];
        assert w.attempts + [RollingBack] + [Critical] == w.attempts + [RollingBack, Critical];
      }
    }
  }

  lemma DueAttempts(sp: Spec, st: Stages, w: World, certs: seq<CertInfo>)
    requires Silent(st) && w.attempts == [Detecting]
    ensures PhaseRun(FromRenewing(sp, st, w.(attempts := [Detecting, Renewing]), certs).w.attempts)
    ensures FromRenewing(sp, st, w.(attempts := [Detecting, Renewing]), certs).w.attempts != []
  {
    var a := FromRenewing(sp, st, w.(attempts := [Detecting, Renewing]), certs).w.attempts;
    RenewingAttempts(sp, st, w.(attempts := [Detecting, Renewing]), certs);
    var dr := [Detecting, Renewing];
    assert dr + [Idle] == [Detecting, Renewing, Idle] && dr + [RollingBack] == [Detecting, Renewing, RollingBack];
    assert dr + [RollingBack, Failed] == [Detecting, Renewing, RollingBack, Failed];
    assert dr + [RollingBack, Critical] == [Detecting, Renewing, RollingBack, Critical];
    LongRuns();
  }

  lemma LongRuns()
    ensures PhaseRun([Detecting, Renewing]) && PhaseRun([Detecting, Renewing, Idle]) && PhaseRun([Detecting, Renewing, RollingBack])
    ensures PhaseRun([Detecting, Renewing, RollingBack, Failed]) && PhaseRun([Detecting, Renewing, RollingBack, Critical])
  {
  }

  lemma ShortRuns()
    ensures PhaseRun([Detecting]) && PhaseRun([Detecting, Failed]) && PhaseRun([Detecting, Idle]) && PhaseRun([Detecting, Renewing])
  {
  }

  lemma DetectionAttempts(sp: Spec, st: Stages, w: World, certs: seq<CertInfo>, out: Outcome)
    requires Silent(st) && w.attempts == [Detecting]
    ensures var a := AfterDetection(sp, st, w, certs, out).w.attempts; PhaseRun(a) && a != []
  {
    ShortRuns();
    var h := SetCertStatus(CertStatuses(certs), sp.checkedAt);
    var checked := PatchOwn(w, sp.node, h);
    PatchAttempts(w, sp.node, h);
    PatchAttempts(w, sp.node, SetPhase(Failed, sp.detectError));
    PatchAttempts(checked.w, sp.node, SetPhase(Idle, ""));
    PatchAttempts(checked.w, sp.node, SetPhase(Renewing, ""));
    var renewing := PatchOwn(checked.w, sp.node, SetPhase(Renewing, ""));
    DueAttempts(sp, st, renewing.w.(attempts := [Detecting]), certs);
    assert renewing.w.(attempts := [Detecting]).(attempts := [Detecting, Renewing]) == renewing.w;
  }

  lemma PatchAttempts(w: World, node: string, h: Helper)
    requires !h.UpdateConditions? && w.attempts == [Detecting]
    ensures PatchOwn(w, node, h).w.attempts == if h.SetPhase? then [Detecting, h.phase] else if h.SetRenewed? then [Detecting, Idle] else [Detecting]
  {
    assert [Detecting] + [] == [Detecting];
  }

  lemma AnyReconcilePhases(sp: Spec, st: Stages, got: Fetched, start: World)
    requires Silent(st) && start.attempts == []
    ensures PhaseRun(ReconcileEffect(sp, st, got, start).w.attempts)
    ensures ReconcileEffect(sp, st, got, start).w.attempts == [] <==> !got.Found? || (got.own.Some? && got.own.value.phase == Critical)
  {
    if got.Found? && !(got.own.Some? && got.own.value.phase == Critical) {
      var w := start.(local := got.own);
      var detecting := PatchOwn(w, sp.node, SetPhase(Detecting, ""));
      PatchLaw(w, sp.node, SetPhase(Detecting, ""));
      assert [] + [Detecting] == [Detecting];
      if detecting.out == Ok {
        var v := detecting.w;
        var d := DetectFrom(sp.codec, v.disk, sp.DetectorConfig(), sp.now, [], sp.order, v.fates);
        DetectionAttempts(sp, st, v.(fates := d.fates), d.certs, d.out);
      }
    }
  }

  /** One reconciliation, whatever fails and wherever it dies, tries to report a prefix of one of
      five sequences of phases; and it tries none exactly when the resource is gone, unreadable, or
      the own entry was read as critical. */
  lemma ReconcilePhases(sp: Spec, got: Fetched, start: World, state: Option<State.Snapshot>)
    requires start.attempts == []
    ensures var a := ReconcileEffect(sp, StagesOf(sp, state), got, start).w.attempts;
      PhaseRun(a) && (a == [] <==> !got.Found? || (got.own.Some? && got.own.value.phase == Critical))
  {
    StagesAreSilent(sp, state);
    AnyReconcilePhases(sp, StagesOf(sp, state), got, start);
  }

  // ---- coming back ----

  /** What the result of a reconciliation says about the phases it tried to report after those in
      `before`. */
  predicate ResultFits(sp: Spec, r: Result, before: seq<NodePhase>, after: seq<NodePhase>) {
    match r
    case Requeue(t) =>
      && RequeueInterval(sp.checkIntervalHours) <= t <= RequeueInterval(sp.checkIntervalHours) + 119 * Generator.SECOND
      && before < after && after[|after| - 1] in {Idle, Failed}
    case NoRequeue => before < after && after[|after| - 1] == Critical
    case _ => true
  }

  lemma RollingBackFits(sp: Spec, st: Stages, w: World)
    requires Silent(st)
    ensures var e := FromRollingBack(sp, st, w); ResultFits(sp, e.result, w.attempts, e.w.attempts)
  {
    var b := st.rollBack(w);
    assert b.w.attempts == w.attempts;
  }

  lemma FitsLonger(sp: Spec, r: Result, a: seq<NodePhase>, b: seq<NodePhase>, c: seq<NodePhase>)
    requires a <= b && ResultFits(sp, r, b, c)
    ensures ResultFits(sp, r, a, c)
  {
  }

  lemma OneMoreFits(sp: Spec, a: seq<NodePhase>, p: NodePhase)
    requires p in {Idle, Failed}
    ensures ResultFits(sp, Requeue(RequeueInterval(sp.checkIntervalHours)), a, a + [p])
    ensures ResultFits(sp, Requeue(RequeueWithJitter(sp.checkIntervalHours, sp.nameHash)), a, a + [p])
  {
  }

  lemma RenewingFits(sp: Spec, st: Stages, w: World, certs: seq<CertInfo>)
    requires Silent(st)
    ensures var e := FromRenewing(sp, st, w, certs); ResultFits(sp, e.result, w.attempts, e.w.attempts)
  {
    var r := st.renew(w, certs);
    assert r.w.attempts == w.attempts;
    OneMoreFits(sp, w.attempts, Idle);
    if !Dies(r) && r.out != Ok {
      var rolling := PatchOwn(r.w, sp.node, SetPhase(RollingBack, sp.renewError));
      PatchLaw(r.w, sp.node, SetPhase(RollingBack, sp.renewError));
      if !Dies(rolling) {
        var e := FromRollingBack(sp, st, rolling.w);
        RollingBackFits(sp, st, rolling.w);
        FitsLonger(sp, e.result, w.attempts, rolling.w.attempts, e.w.attempts);
      }
    }
  }

  lemma DetectionFits(sp: Spec, st: Stages, w: World, certs: seq<CertInfo>, out: Outcome)
    requires Silent(st)
    ensures var e := AfterDetection(sp, st, w, certs, out); ResultFits(sp, e.result, w.attempts, e.w.attempts)
  {
    var h := SetCertStatus(CertStatuses(certs), sp.checkedAt);
    var checked := PatchOwn(w, sp.node, h);
    OneMoreFits(sp, w.attempts, Failed);
    OneMoreFits(sp, w.attempts, Idle);
    assert checked.w.attempts == w.attempts;
    if out == Ok && checked.out == Ok && NeedsRenewal(certs) {
      var renewing := PatchOwn(checked.w, sp.node, SetPhase(Renewing, ""));
      PatchLaw(checked.w, sp.node, SetPhase(Renewing, ""));
      if renewing.out == Ok {
        var e := FromRenewing(sp, st, renewing.w, certs);
        RenewingFits(sp, st, renewing.w, certs);
        FitsLonger(sp, e.result, w.attempts, renewing.w.attempts, e.w.attempts);
      }
    }
  }

  /** A reconciliation that is scheduled again either found its node critical and comes back in an
      hour, or tried to report Idle or Failed and comes back within the interval and 119 seconds.
      It is not scheduled again only if the resource is gone or it tried to report Critical. Every
      other end is an error, which the framework retries, or the death of the process. */
  lemma WhenItComesBack(sp: Spec, got: Fetched, start: World, state: Option<State.Snapshot>)
    requires start.attempts == []
    ensures var e := ReconcileEffect(sp, StagesOf(sp, state), got, start);
      && (e.w.attempts == [] && got.Found? <==> e.result == Requeue(Generator.HOUR) && e.w.attempts == [])
      && (e.w.attempts != [] ==> ResultFits(sp, e.result, [], e.w.attempts))
      && (e.result == NoRequeue && e.w.attempts == [] <==> got.NotFound?)
  {
    StagesAreSilent(sp, state);
    AnyReconcilePhases(sp, StagesOf(sp, state), got, start);
    AnyReconcileFits(sp, StagesOf(sp, state), got, start);
  }

  lemma AnyReconcileFits(sp: Spec, st: Stages, got: Fetched, start: World)
    requires Silent(st) && start.attempts == []
    ensures var e := ReconcileEffect(sp, st, got, start);
      e.w.attempts != [] ==> ResultFits(sp, e.result, [], e.w.attempts)
  {
    if got.Found? && !(got.own.Some? && got.own.value.phase == Critical) {
      var w := start.(local := got.own);
      var detecting := PatchOwn(w, sp.node, SetPhase(Detecting, ""));
      PatchLaw(w, sp.node, SetPhase(Detecting, ""));
      assert [] + [Detecting] == [Detecting];
      if detecting.out == Ok {
        DetectingFits(sp, st, detecting.w);
      }
    }
  }

  lemma DetectingFits(sp: Spec, st: Stages, w: World)
    requires Silent(st) && w.attempts == [Detecting]
    ensures var e := FromDetecting(sp, st, w); ResultFits(sp, e.result, [], e.w.attempts)
  {
    var d := DetectFrom(sp.codec, w.disk, sp.DetectorConfig(), sp.now, [], sp.order, w.fates);
    var v := w.(fates := d.fates);
    var e := AfterDetection(sp, st, v, d.certs, d.out);
    DetectionFits(sp, st, v, d.certs, d.out);
    assert FromDetecting(sp, st, w) == e;
    FitsLonger(sp, e.result, [], w.attempts, e.w.attempts);
  }

  // ---- a critical node ----

  /** One pod reconciling over and over, each time from a fresh read of its own entry. */
  function ReconcileMany(specs: seq<Spec>, scripts: seq<seq<Fate>>, w: World, state: Option<State.Snapshot>): World
    requires |specs| == |scripts|
    decreases |specs|
  {
    if specs == [] then w
    else
      var r := ReconcileEffect(specs[0], StagesOf(specs[0], state), Found(w.server), w.(fates := scripts[0], attempts := []));
      ReconcileMany(specs[1..], scripts[1..], r.w, state)
  }

  /** Once the server holds a critical entry, no later reconciliation writes a file or a status. */
  lemma {:induction false} CriticalStops(specs: seq<Spec>, scripts: seq<seq<Fate>>, w: World, state: Option<State.Snapshot>)
    requires |specs| == |scripts| && w.server.Some? && w.server.value.phase == Critical
    ensures var r := ReconcileMany(specs, scripts, w, state);
      r.disk == w.disk && r.server == w.server
    decreases |specs|
  {
    if specs != [] {
      var r := ReconcileEffect(specs[0], StagesOf(specs[0], state), Found(w.server), w.(fates := scripts[0], attempts := []));
      CriticalStops(specs[1..], scripts[1..], r.w, state);
    }
  }
}
