/** One pod's reconciliation of its node: detect, back up, renew, restart, check, roll back, and
    the status patches in between. The world is the node's disk, the server's entry for this node,
    and the pod's local copy of that entry; other pods do not touch the entry. */
module Reconcile {
  import opened Wrappers
  import opened Host
  import opened Status
  import opened Cluster
  import opened X509
  import opened Detector
  import opened Expiry
  import opened Backup
  import opened Renewal
  import opened PodRestart
  import opened Rollback

  /** The resource's spec, and what a reconciliation takes from its surroundings: the node's name
      and its hash, clocks, fresh keys, the order in which maps are visited, and error texts. */
  datatype Spec = Spec(
    node: string,
    nameHash: nat,
    codec: Codec,
    dirs: Dirs,
    manifestsDir: string,
    thresholdDays: int,
    checkIntervalHours: int,
    dryRun: bool,
    now: int,
    stamp: string,
    clock: string -> string,
    seeds: CertName -> Generator.Seed,
    order: seq<CertName>,
    checkedAt: int,
    renewedAt: int,
    detectError: string,
    renewError: string,
    criticalError: string)
  {
    function DetectorConfig(): Config { Config(dirs.pki, dirs.kubeconfig, thresholdDays) }
    function RenewalEnv(): Env { Env(codec, dirs.pki, seeds) }
    function Restarts(dry: bool): Setup { Setup(codec, manifestsDir, clock, dry) }
    function RollbackPlan(): Plan { Plan(dirs, Restarts(dryRun), dryRun, now) }
    function Path(): string { BackupPath(dirs, node, stamp) }
  }

  datatype World = World(
    disk: Disk,
    fates: seq<Fate>,
    server: Option<NodeStatus>,
    local: Option<NodeStatus>,
    attempts: seq<NodePhase>)

  datatype Ran = Ran(w: World, out: Outcome)

  function OnDisk(w: World, s: Step): Ran {
    Ran(w.(disk := s.disk, fates := s.fates), s.out)
  }

  function Asking(w: World): Ran {
    Ran(w.(fates := Ask(w.fates).1), Ask(w.fates).0)
  }

  function Attempted(h: Helper): seq<NodePhase> {
    match h
    case SetPhase(phase, _) => [phase]
    case SetRenewed(_) => [Idle]
    case _ => []
  }

  /** The server takes the patch. An entry that was deleted in the meantime cannot be patched back: the
      patch lacks required members and is rejected. */
  predicate Accepts(w: World) {
    w.local.Some? ==> w.server.Some?
  }

  /** A helper changes the local entry and sends the difference. On success the client overwrites
      its copy with the server's reply; on an error the local change stays. */
  function PatchOwn(w: World, node: string, h: Helper): Ran
    requires !h.UpdateConditions?
  {
    var after := MutateOwn(w.local, node, h).value;
    var v := w.(local := Some(after), attempts := w.attempts + Attempted(h));
    if w.fates == [] then Ran(v, Crash)
    else
      var rest := if w.fates[0].Killed? then [] else w.fates[1..];
      if w.fates[0].Refused? || !Accepts(w) then Ran(v.(fates := rest), if w.fates[0].Killed? then Crash else Err)
      else
        var stored := Some(MergeNode(w.server, w.local, after));
        match w.fates[0]
        case Done => Ran(v.(fates := rest, server := stored, local := stored), Ok)
        case Killed(_) => Ran(v.(fates := rest, server := stored), Crash)
        case _ => Ran(v.(fates := rest, server := stored), Err)
  }

  /** `updateClusterConditions` leaves all node entries alone; its reply refreshes the copy. */
  function PatchConditions(w: World): Ran {
    var r := Asking(w);
    if r.out == Ok then r.(w := r.w.(local := r.w.server)) else r
  }

  // ---- renewal ----

  function RunRenewal(sp: Spec, w: World, certs: seq<CertInfo>): Ran {
    var backup := OnDisk(w, CreateEffect(sp.dirs, w.disk, sp.Path(), w.fates));
    if backup.out != Ok then backup
    else
      var recorded := PatchOwn(backup.w, sp.node, SetBackupPath(sp.Path()));
      if recorded.out != Ok || sp.dryRun then recorded
      else RenewAndRestart(sp, recorded.w, certs)
  }

  function RenewAndRestart(sp: Spec, w: World, certs: seq<CertInfo>): Ran {
    var renewed := OnDisk(w, RenewAll(sp.RenewalEnv(), w.disk, certs, w.fates));
    if renewed.out != Ok then renewed
    else
      var restarted := OnDisk(renewed.w, RestartAllEffect(sp.Restarts(false), renewed.w.disk, renewed.w.fates));
      if restarted.out != Ok then restarted else Asking(restarted.w)
  }

  // ---- rollback ----

  /** `runRollback`. The state handed to `RollbackAll` is a parameter; the controller passes none. */
  function RunRollback(sp: Spec, w: World, state: Option<State.Snapshot>): Ran {
    if w.local.None? || w.local.value.backupPath == "" then Ran(w, Err)
    else
      var rb := RollbackAllEffect(sp.RollbackPlan(), state, State.Absent, w.disk, [], sp.node, w.fates);
      var v := w.(disk := rb.disk, fates := rb.fates);
      if rb.out != Ok then Ran(v, rb.out)
      else if IsCritical(rb.results) then Ran(v, Err)
      else if sp.dryRun then Ran(v, Ok)
      else Asking(v)
  }

  // ---- reconcile ----

  /** The two long steps of a reconciliation. */
  datatype Stages = Stages(renew: (World, seq<CertInfo>) -> Ran, rollBack: World -> Ran)

  function StagesOf(sp: Spec, state: Option<State.Snapshot>): Stages {
    Stages((w, certs) => RunRenewal(sp, w, certs), w => RunRollback(sp, w, state))
  }

  datatype Fetched = NotFound | FetchError | Found(own: Option<NodeStatus>)

  datatype Result = Requeue(after: int) | NoRequeue | Error | Crashed | Panicked

  datatype Reconciled = Reconciled(w: World, result: Result)

  /** How an error that is only logged, or a reply, lets the function go on; a death does not. */
  function Unless(r: Ran, result: Result): Reconciled {
    Reconciled(r.w, match r.out case Crash => Crashed case Panic => Panicked case _ => result)
  }

  function Dies(r: Ran): bool {
    r.out == Crash || r.out == Panic
  }

  function CertStatuses(certs: seq<CertInfo>): seq<CertStatus> {
    seq(|certs|, i requires 0 <= i < |certs| =>
      CertStatus(NameText(certs[i].name), certs[i].expiry / Generator.SECOND, certs[i].residualDays,
                 match certs[i].health case OK => "OK" case Approaching => "APPROACHING" case Expired => "EXPIRED"))
  }

  function ReconcileEffect(sp: Spec, st: Stages, got: Fetched, start: World): Reconciled {
    match got
    case NotFound => Reconciled(start, NoRequeue)
    case FetchError => Reconciled(start, Error)
    case Found(own) =>
      var w := start.(local := own);
      if own.Some? && own.value.phase == Critical then Reconciled(w, Requeue(Generator.HOUR))
      else
        var detecting := PatchOwn(w, sp.node, SetPhase(Detecting, ""));
        if detecting.out != Ok then Unless(detecting, Error) else FromDetecting(sp, st, detecting.w)
  }

  function FromDetecting(sp: Spec, st: Stages, w: World): Reconciled {
    var d := DetectFrom(sp.codec, w.disk, sp.DetectorConfig(), sp.now, [], sp.order, w.fates);
    AfterDetection(sp, st, w.(fates := d.fates), d.certs, d.out)
  }

  function AfterDetection(sp: Spec, st: Stages, w: World, certs: seq<CertInfo>, out: Outcome): Reconciled {
    if out == Crash then Reconciled(w, Crashed)
    else if out != Ok then
      Unless(PatchOwn(w, sp.node, SetPhase(Failed, sp.detectError)), Requeue(RequeueInterval(sp.checkIntervalHours)))
    else
      var checked := PatchOwn(w, sp.node, SetCertStatus(CertStatuses(certs), sp.checkedAt));
      if checked.out != Ok then Unless(checked, Error)
      else if !NeedsRenewal(certs) then
        var idle := PatchOwn(checked.w, sp.node, SetPhase(Idle, ""));
        if idle.out != Ok then Unless(idle, Error)
        else Unless(PatchConditions(idle.w), Requeue(RequeueWithJitter(sp.checkIntervalHours, sp.nameHash)))
      else
        var renewing := PatchOwn(checked.w, sp.node, SetPhase(Renewing, ""));
        if renewing.out != Ok then Unless(renewing, Error) else FromRenewing(sp, st, renewing.w, certs)
  }

  function FromRenewing(sp: Spec, st: Stages, w: World, certs: seq<CertInfo>): Reconciled {
    var r := st.renew(w, certs);
    if Dies(r) then Unless(r, Error)
    else if r.out == Ok then
      var done := PatchOwn(r.w, sp.node, SetRenewed(sp.renewedAt));
      if done.out != Ok then Unless(done, Error)
      else Unless(PatchConditions(done.w), Requeue(RequeueWithJitter(sp.checkIntervalHours, sp.nameHash)))
    else
      var rolling := PatchOwn(r.w, sp.node, SetPhase(RollingBack, sp.renewError));
      if Dies(rolling) then Unless(rolling, Error) else FromRollingBack(sp, st, rolling.w)
  }

  function FromRollingBack(sp: Spec, st: Stages, w: World): Reconciled {
    var b := st.rollBack(w);
    if Dies(b) then Unless(b, Error)
    else
      var failed := b.out != Ok;
      var last := PatchOwn(b.w, sp.node,
        if failed then SetPhase(Critical, sp.criticalError) else SetPhase(Failed, sp.renewError));
      if Dies(last) then Unless(last, Error)
      else Unless(PatchConditions(last.w),
                  if failed then NoRequeue else Requeue(RequeueWithJitter(sp.checkIntervalHours, sp.nameHash)))
  }

  // ---- the reconciler ----

  class Reconciler {
    const sp: Spec
    const m: Machine
    var server: Option<NodeStatus>
    var local: Option<NodeStatus>
    ghost var attempts: seq<NodePhase>

    constructor (sp: Spec, m: Machine, server: Option<NodeStatus>)
      ensures this.sp == sp && this.m == m && this.server == server && attempts == []
    {
      this.sp := sp;
      this.m := m;
      this.server := server;
      this.local := None;
      this.attempts := [];
    }

    ghost function Now(): World
      reads this, m
    {
      World(m.Now(), m.fates, server, local, attempts)
    }

    /** All five patch helpers: snapshot, change the own entry, send the difference. */
    method Patch(h: Helper) returns (out: Outcome)
      requires !h.UpdateConditions?
      modifies this, m`fates
      ensures Ran(Now(), out) == PatchOwn(old(Now()), sp.node, h)
    {
      var base := local;
      var ns := MutateOwn(local, sp.node, h).value;
      local := Some(ns);
      attempts := attempts + Attempted(h);
      if m.fates == [] {
        return Crash;
      }
      var fate := m.fates[0];
      m.fates := if fate.Killed? then [] else m.fates[1..];
      if fate.Refused? || (base.Some? && server.None?) {
        return if fate.Killed? then Crash else Err;
      }
      server := Some(MergeNode(server, base, ns));
      if fate.Done? {
        local := server;
        return Ok;
      }
      out := if fate.Killed? then Crash else Err;
    }

    method Conditions() returns (out: Outcome)
      modifies this`local, m`fates
      ensures Ran(Now(), out) == PatchConditions(old(Now()))
    {
      out := m.Call();
      if out == Ok {
        local := server;
      }
    }

    method Renew(certs: seq<CertInfo>) returns (out: Outcome)
      modifies this, m
      ensures Ran(Now(), out) == RunRenewal(sp, old(Now()), certs)
    {
      var backups := new Manager(sp.dirs);
      var path;
      path, out := backups.Create(m, sp.node, sp.stamp);
      if out != Ok {
        return;
      }
      out := Patch(SetBackupPath(path));
      if out != Ok || sp.dryRun {
        return;
      }
      out := RenewCerts(m, sp.RenewalEnv(), certs);
      if out != Ok {
        return;
      }
      out := RestartAll(m, sp.Restarts(false));
      if out != Ok {
        return;
      }
      out := m.Call();
    }

    method RollBack(state: Option<State.Snapshot>) returns (out: Outcome)
      modifies this, m
      ensures Ran(Now(), out) == RunRollback(sp, old(Now()), state)
    {
      if local.None? || local.value.backupPath == "" {
        return Err;
      }
      var manager := new RollbackManager(sp.RollbackPlan());
      var s: State.StateObject? := null;
      if state.Some? {
        s := new State.StateObject(state.value);
      }
      var store := new State.Store(State.Absent);
      var results;
      var none := new string[0];
      results, out := manager.RollbackAll(m, s, store, none, sp.node);
      if out != Ok {
        return;
      }
      var critical := AnyCritical(results);
      if critical {
        return Err;
      }
      if !sp.dryRun {
        out := m.Call();
      }
    }

    static method Outcome(out: Outcome, result: Result) returns (r: Result)
      ensures r == match out case Crash => Crashed case Panic => Panicked case _ => result
    {
      r := match out case Crash => Crashed case Panic => Panicked case _ => result;
    }

    method Reconcile(got: Fetched, state: Option<State.Snapshot>) returns (result: Result)
      modifies this, m
      ensures Reconciled(Now(), result) == ReconcileEffect(sp, StagesOf(sp, state), got, old(Now()))
    {
      if got.NotFound? {
        return NoRequeue;
      }
      if got.FetchError? {
        return Error;
      }
      local := got.own;
      if local.Some? && local.value.phase == Critical {
        return Requeue(Generator.HOUR);
      }
      var out := Patch(SetPhase(Detecting, ""));
      if out != Ok {
        result := Outcome(out, Error);
        return;
      }
      result := AfterDetecting(state);
    }

    method AfterDetecting(state: Option<State.Snapshot>) returns (result: Result)
      modifies this, m
      ensures Reconciled(Now(), result) == FromDetecting(sp, StagesOf(sp, state), old(Now()))
    {
      var certs, out := Detect(sp.codec, m, sp.DetectorConfig(), sp.now, sp.order);
      if out == Crash {
        return Crashed;
      }
      if out != Ok {
        out := Patch(SetPhase(Failed, sp.detectError));
        result := Outcome(out, Requeue(RequeueInterval(sp.checkIntervalHours)));
        return;
      }
      out := Patch(SetCertStatus(CertStatuses(certs), sp.checkedAt));
      if out != Ok {
        result := Outcome(out, Error);
        return;
      }
      var due := AnyNeedsRenewal(certs);
      if !due {
        out := Patch(SetPhase(Idle, ""));
        if out != Ok {
          result := Outcome(out, Error);
          return;
        }
        out := Conditions();
        result := Outcome(out, Requeue(RequeueWithJitter(sp.checkIntervalHours, sp.nameHash)));
        return;
      }
      out := Patch(SetPhase(Renewing, ""));
      if out != Ok {
        result := Outcome(out, Error);
        return;
      }
      result := AfterRenewing(certs, state);
    }

    method AfterRenewing(certs: seq<CertInfo>, state: Option<State.Snapshot>) returns (result: Result)
      modifies this, m
      ensures Reconciled(Now(), result) == FromRenewing(sp, StagesOf(sp, state), old(Now()), certs)
    {
      var out := Renew(certs);
      if out == Crash || out == Panic {
        result := Outcome(out, Error);
        return;
      }
      if out == Ok {
        out := Patch(SetRenewed(sp.renewedAt));
        if out != Ok {
          result := Outcome(out, Error);
          return;
        }
        out := Conditions();
        result := Outcome(out, Requeue(RequeueWithJitter(sp.checkIntervalHours, sp.nameHash)));
        return;
      }
      out := Patch(SetPhase(RollingBack, sp.renewError));
      if out == Crash || out == Panic {
        result := Outcome(out, Error);
        return;
      }
      result := AfterRollingBack(state);
    }

    method AfterRollingBack(state: Option<State.Snapshot>) returns (result: Result)
      modifies this, m
      ensures Reconciled(Now(), result) == FromRollingBack(sp, StagesOf(sp, state), old(Now()))
    {
      var out := RollBack(state);
      if out == Crash || out == Panic {
        result := Outcome(out, Error);
        return;
      }
      var failed := out != Ok;
      out := Patch(if failed then SetPhase(Critical, sp.criticalError) else SetPhase(Failed, sp.renewError));
      if out == Crash || out == Panic {
        result := Outcome(out, Error);
        return;
      }
      out := Conditions();
      result := Outcome(out, if failed then NoRequeue else Requeue(RequeueWithJitter(sp.checkIntervalHours, sp.nameHash)));
    }
  }
}
