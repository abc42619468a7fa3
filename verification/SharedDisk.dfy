/** Rolling back several nodes on one disk: a rollback that nothing disturbs, and two nodes of which
    the failed one ends with the other's certificate. */
module SharedDisk {
  import opened Wrappers
  import opened Host
  import opened MergePatch
  import opened X509
  import opened Backup
  import opened BackupLaws
  import opened PodRestart
  import opened State
  import opened Rollback
  import opened RollbackLaws
  import opened RotationLaws
  import opened ProgressLaws

  lemma RestoreKeepsManifests(dirs: Dirs, d: Disk, path: string, fates: seq<Fate>)
    ensures forall p :: EndsLikeManifest(p) ==> SameAt(d, RestoreEffect(dirs, d, path, fates).disk, p)
  {
    RestoreFrame(dirs, d, path, fates);
    forall p | EndsLikeManifest(p) ensures !IsLive(dirs, p) {
      forall i: nat | i < LISTED ensures Live(dirs, i) != p {
        PathsEnd(dirs, path, i);
      }
    }
  }

  /** A restart sequence writes manifests that are there, and no other files. */
  lemma {:induction false} RestartKeepsKeys(su: Setup, d: Disk, names: seq<string>, fates: seq<Fate>)
    ensures RestartFrom(su, d, names, fates).disk.files.Keys == d.files.Keys
    decreases |names|
  {
    if names != [] {
      var s := Restart(su, d, names[0], fates);
      assert s.disk.files.Keys == d.files.Keys;
      RestartKeepsKeys(su, s.disk, names[1..], s.fates);
    }
  }

  /** The backup is restored, the components are restarted, and the health check after that passes. */
  predicate Recovers(plan: Plan, d: Disk, path: string, fates: seq<Fate>) {
    var restored := RestoreEffect(plan.dirs, d, path, fates);
    var restarted := RestartAllEffect(plan.restart, restored.disk, restored.fates);
    restored.out == Ok && restarted.out == Ok && Passes(restarted.fates)
  }

  lemma RecoveredNode(plan: Plan, ns: map<string, NodeState>, d: Disk, node: string, fates: seq<Fate>)
    requires !plan.restart.dryRun && !plan.dryRun
    requires RollbackNode(plan, Some(ns), d, node, fates).out == Ok && RollbackNode(plan, Some(ns), d, node, fates).success
    ensures forall i :: 0 <= i < 4 ==> Restarted(plan.restart, d, RollbackNode(plan, Some(ns), d, node, fates).disk, RESTART_ORDER[i])
  {
    var restored := RestoreEffect(plan.dirs, d, ns[node].backupPath, fates);
    var e := RestartAllEffect(plan.restart, restored.disk, restored.fates).disk;
    RestoreKeepsManifests(plan.dirs, d, ns[node].backupPath, fates);
    RestartedOver(plan.restart, d, restored.disk, restored.fates);
    assert RollbackNode(plan, Some(ns), d, node, fates).disk == e;
  }

  lemma RestartedOver(su: Setup, d: Disk, e: Disk, fates: seq<Fate>)
    requires !su.dryRun && RestartAllEffect(su, e, fates).out == Ok && forall p :: EndsLikeManifest(p) ==> SameAt(d, e, p)
    ensures forall i :: 0 <= i < 4 ==> Restarted(su, d, RestartAllEffect(su, e, fates).disk, RESTART_ORDER[i])
  {
    var n := RestartAllLaw(su, e, fates);
    forall i | 0 <= i < 4 ensures Restarted(su, d, RestartAllEffect(su, e, fates).disk, RESTART_ORDER[i]) {
      RestartedFrom(su, d, e, RestartAllEffect(su, e, fates).disk, i);
    }
  }

  /** A live rollback of one node reports success exactly when the state knows a backup for it, the backup is
      restored, the components are restarted, and the health check after that passes. Then all four
      components carry a new stamp; a dry run reports success for every node with a backup. */
  lemma WhenNodeIsRolledBack(plan: Plan, ns: map<string, NodeState>, d: Disk, node: string, fates: seq<Fate>)
    requires !plan.restart.dryRun
    ensures var r := RollbackNode(plan, Some(ns), d, node, fates);
      && (r.out == Ok && r.success <==> node in ns && ns[node].backupPath != "" && (plan.dryRun || Recovers(plan, d, ns[node].backupPath, fates)))
      && (plan.dryRun ==> r.disk == d)
      && (!plan.dryRun && r.out == Ok && r.success ==> forall i :: 0 <= i < 4 ==> Restarted(plan.restart, d, r.disk, RESTART_ORDER[i]))
  {
    if !plan.dryRun && RollbackNode(plan, Some(ns), d, node, fates).out == Ok && RollbackNode(plan, Some(ns), d, node, fates).success {
      RecoveredNode(plan, ns, d, node, fates);
    }
  }

  lemma RestartedAgain(su: Setup, d: Disk, e: Disk)
    requires Lawful(su.codec) && e.files.Keys == d.files.Keys && forall i :: 0 <= i < 4 ==> Restarted(su, d, e, RESTART_ORDER[i])
    ensures AllRestartable(su, e)
  {
    forall i | 0 <= i < 4 ensures Restartable(su, e, RESTART_ORDER[i]) {
      assert Restarted(su, d, e, RESTART_ORDER[i]);
      assert Join(su.dir, RESTART_ORDER[i] + ".yaml") in e.files <==> Join(su.dir, RESTART_ORDER[i] + ".yaml") in d.files;
      assert ManifestPath(e, su.dir, RESTART_ORDER[i]) == ManifestPath(d, su.dir, RESTART_ORDER[i]);
    }
  }

  lemma UndisturbedNode(plan: Plan, ns: map<string, NodeState>, d: Disk, node: string, fates: seq<Fate>)
    requires !plan.dryRun && !plan.restart.dryRun && node in ns && ns[node].backupPath != "" && Lawful(plan.restart.codec)
    requires Sound(d) && AllRestartable(plan.restart, d) && Undisturbed(fates) && |fates| >= 61
    ensures var r := RollbackNode(plan, Some(ns), d, node, fates);
      && r.out == Ok && r.success && Sound(r.disk) && AllRestartable(plan.restart, r.disk)
      && Undisturbed(r.fates) && |r.fates| >= |fates| - 61
  {
    var path := ns[node].backupPath;
    var restored := RestoreEffect(plan.dirs, d, path, fates);
    TheItems(plan.dirs, path);
    UndisturbedCopy(d, RestoreItems(plan.dirs, path), fates);
    RestoreFrame(plan.dirs, d, path, fates);
    RestoreKeepsManifests(plan.dirs, d, path, fates);
    RestartableElsewhere(plan.restart, d, restored.disk);
    assert RESTART_ORDER[0..] == RESTART_ORDER;
    UndisturbedRestarts(plan.restart, restored.disk, 0, restored.fates);
    var restarted := RestartAllEffect(plan.restart, restored.disk, restored.fates);
    var n := RestartAllLaw(plan.restart, restored.disk, restored.fates);
    RestartKeepsKeys(plan.restart, restored.disk, RESTART_ORDER, restored.fates);
    RestartedAgain(plan.restart, restored.disk, restarted.disk);
    UndisturbedRest(restarted.fates, 0);
    UndisturbedRest(restarted.fates, 1);
  }

  lemma UndisturbedSave(s: Snapshot, file: StateFile, fates: seq<Fate>)
    requires |fates| >= 2 && fates[0].Done? && fates[1].Done?
    ensures Save(s, file, fates) == SaveStep(Intact(s), fates[2..], Ok)
  {
    assert fates[1..][1..] == fates[2..];
  }

  lemma RollbackFromCons(act: NodeAction, now: int, s: Snapshot, file: StateFile, d: Disk, nodes: seq<string>,
                         fates: seq<Fate>, r: NodeStep,
                         t: Snapshot, saved: SaveStep)
    requires nodes != [] && r == act(Some(s.nodes), d, nodes[0], fates) && r.out == Ok
    requires t == Changed(s, SetNodeRollback(nodes[0], !r.success), now) && saved == Save(t, file, r.fates) && saved.out == Ok
    ensures RollbackFrom(act, now, Some(s), file, d, nodes, fates) ==
      Prefixed([RollbackResult(nodes[0], r.success)], RollbackFrom(act, now, Some(t), saved.file, r.disk, nodes[1..], saved.fates))
  {
  }

  predicate KnowsAll(s: Snapshot, nodes: seq<string>) {
    forall n :: n in nodes ==> n in s.nodes && s.nodes[n].backupPath != ""
  }

  lemma StillKnowsAll(s: Snapshot, nodes: seq<string>, now: int)
    requires nodes != [] && KnowsAll(s, nodes)
    ensures KnowsAll(Changed(s, SetNodeRollback(nodes[0], false), now), nodes[1..])
  {
    assert forall n :: n in nodes[1..] ==> n in nodes;
  }

  /** A rollback that nothing disturbs succeeds for every node that has a backup. */
  lemma {:induction false} UndisturbedRollback(plan: Plan, s: Snapshot, file: StateFile, d: Disk, nodes: seq<string>, fates: seq<Fate>)
    requires !plan.dryRun && !plan.restart.dryRun && Lawful(plan.restart.codec) && KnowsAll(s, nodes)
    requires Sound(d) && AllRestartable(plan.restart, d) && Undisturbed(fates) && |fates| >= 63 * |nodes|
    ensures var r := RollbackFrom(ActionOf(plan), plan.now, Some(s), file, d, nodes, fates);
      && r.out == Ok && !IsCritical(r.results)
      && r.state.Some? && r.file == (if nodes == [] then file else Intact(r.state.value))
    decreases |nodes|
  {
    if nodes != [] {
      var r := RollbackNode(plan, Some(s.nodes), d, nodes[0], fates);
      var t := Changed(s, SetNodeRollback(nodes[0], false), plan.now);
      assert nodes[0] in nodes;
      UndisturbedNode(plan, s.nodes, d, nodes[0], fates);
      UndisturbedRest(r.fates, 0);
      UndisturbedRest(r.fates, 1);
      UndisturbedRest(r.fates, 2);
      UndisturbedSave(t, file, r.fates);
      StillKnowsAll(s, nodes, plan.now);
      UndisturbedRollback(plan, t, Intact(t), r.disk, nodes[1..], r.fates[2..]);
      RollbackFromCons(ActionOf(plan), plan.now, s, file, d, nodes, fates, r, t, SaveStep(Intact(t), r.fates[2..], Ok));
      ConsCritical(RollbackResult(nodes[0], true), RollbackFrom(ActionOf(plan), plan.now, Some(t), Intact(t), r.disk, nodes[1..], r.fates[2..]).results);
    }
  }

  // ---- two nodes ----

  const DIRS := Dirs("/backup", "/pki", "/conf")

  function PlanOf(codec: Codec): Plan {
    Plan(DIRS, Setup(codec, "/manifests", _ => "now", false), false, 0)
  }

  const BACKUP_A := "/backup/a/1"
  const BACKUP_B := "/backup/b/1"

  /** The third listed file, the certificate of the API server. */
  const CRT: nat := 2

  function BackedUpAt(path: string): NodeState {
    NodeState("", path, 0, 0, false, false)
  }

  const KNOWN := Snapshot(PhaseIdle, 0, 0, map["a" := BackedUpAt(BACKUP_A), "b" := BackedUpAt(BACKUP_B)], "", "", false)

  function Manifest(i: nat): string
    requires i < 4
  {
    Join("/manifests", RESTART_ORDER[i] + ".yaml")
  }

  /** Four manifests and the certificates that the two nodes saved. */
  function Files(codec: Codec): map<string, Bytes> {
    var empty := codec.encodeManifest(Obj(map[]));
    map[Manifest(0) := empty, Manifest(1) := empty, Manifest(2) := empty, Manifest(3) := empty,
        Saved(BACKUP_A, CRT) := [1], Saved(BACKUP_B, CRT) := [2]]
  }

  function DiskOf(codec: Codec): Disk {
    Disk(Files(codec), (set p | p in Files(codec) :: Dir(p)) + {Dir(Live(DIRS, CRT))})
  }

  lemma DiskIsReady(codec: Codec)
    requires Lawful(codec)
    ensures Sound(DiskOf(codec)) && AllRestartable(PlanOf(codec).restart, DiskOf(codec))
  {
    var files := Files(codec);
    FilesDiffer();
    assert codec.decodeManifest(codec.encodeManifest(Obj(map[]))) == Some(Obj(map[]));
    forall i: nat | i < 4 ensures Restartable(PlanOf(codec).restart, DiskOf(codec), RESTART_ORDER[i]) {
      assert Manifest(i) in files && files[Manifest(i)] == codec.encodeManifest(Obj(map[]));
    }
  }

  lemma BackupsAreApart()
    ensures Apart(DIRS, BACKUP_A) && Apart(DIRS, BACKUP_B)
  {
    assert (BACKUP_A + "/")[1] == 'b' && (BACKUP_B + "/")[1] == 'b' && ("/pki" + "/")[1] == 'p' && ("/conf" + "/")[1] == 'c';
  }

  lemma FilesDiffer()
    ensures Saved(BACKUP_A, CRT) != Saved(BACKUP_B, CRT)
    ensures forall i: nat :: i < 4 ==> Manifest(i) != Saved(BACKUP_A, CRT) && Manifest(i) != Saved(BACKUP_B, CRT)
  {
    assert Saved(BACKUP_A, CRT)[8] == 'a' && Saved(BACKUP_B, CRT)[8] == 'b';
    forall i: nat | i < 4 ensures Manifest(i) != Saved(BACKUP_A, CRT) && Manifest(i) != Saved(BACKUP_B, CRT) {
      assert Manifest(i)[1] == 'm' && Saved(BACKUP_A, CRT)[1] == 'b' && Saved(BACKUP_B, CRT)[1] == 'b';
    }
  }

  lemma TwoSaved(codec: Codec)
    ensures FileAt(DiskOf(codec), Saved(BACKUP_A, CRT)) == Some([1]) && FileAt(DiskOf(codec), Saved(BACKUP_B, CRT)) == Some([2])
  {
    FilesDiffer();
  }

  lemma OrderOfTwo(a: string, b: string)
    requires a != b
    ensures RollbackOrder([b], a) == [a, b]
  {
    var s := [a] + Reversed([b]);
    assert s == [a, b] && s[1..] == [b] && s[1..][1..] == [];
    assert DedupFrom({}, s) == [a] + DedupFrom({} + {a}, s[1..]);
    assert DedupFrom({} + {a}, s[1..]) == [b] + DedupFrom({} + {a} + {b}, s[1..][1..]);
  }

  lemma WinnerOfTwo(paths: map<string, string>, d: Disk, a: string, b: string, i: nat)
    requires i < LISTED && b in paths && Saved(paths[b], i) in d.files
    ensures Winner(paths, d, [a, b], i) == Some(b)
  {
    assert [a, b][1..] == [b] && [b][1..] == [];
    assert Winner(paths, d, [b], i) == Some(b);
  }

  /** Node a failed after node b was renewed: a rollback that nothing disturbs succeeds and leaves the
      files of node b's backup where those of node a were. */
  lemma OtherNodeWins(plan: Plan, s: Snapshot, d: Disk, a: string, b: string, script: seq<Fate>, i: nat)
    requires i < LISTED && !plan.dryRun && !plan.restart.dryRun && Lawful(plan.restart.codec)
    requires a != b && KnowsAll(s, [a, b]) && Apart(plan.dirs, s.nodes[a].backupPath) && Apart(plan.dirs, s.nodes[b].backupPath)
    requires Sound(d) && AllRestartable(plan.restart, d) && Dir(Live(plan.dirs, i)) in d.dirs && Saved(s.nodes[b].backupPath, i) in d.files
    requires Undisturbed(script) && |script| >= 126
    ensures var r := RollbackAllEffect(plan, Some(s), Absent, d, [b], a, script);
      r.out == Ok && !IsCritical(r.results) && FileAt(r.disk, Live(plan.dirs, i)) == FileAt(d, Saved(s.nodes[b].backupPath, i))
  {
    OrderOfTwo(a, b);
    UndisturbedRollback(plan, s, Absent, d, [a, b], script);
    WinnerRestores(plan, s, Absent, d, [b], a, script, i);
    WinnerOfTwo(OrderPaths(s, [a, b]), d, a, b, i);
  }

  /** Concretely, whatever the encodings: the failed node saved certificate 1, and ends with
      certificate 2. */
  lemma FailedNodeGetsTheOthersCertificate(codec: Codec, script: seq<Fate>)
    requires Lawful(codec) && Undisturbed(script) && |script| >= 126
    ensures var r := RollbackAllEffect(PlanOf(codec), Some(KNOWN), Absent, DiskOf(codec), ["b"], "a", script);
      && r.out == Ok && !IsCritical(r.results)
      && FileAt(DiskOf(codec), Saved(BACKUP_A, CRT)) == Some([1]) && FileAt(r.disk, Live(DIRS, CRT)) == Some([2])
  {
    DiskIsReady(codec);
    BackupsAreApart();
    TwoSaved(codec);
    OtherNodeWins(PlanOf(codec), KNOWN, DiskOf(codec), "a", "b", script, CRT);
  }
}
