/** What a rollback records and what it does to the disk. */
module RollbackLaws {
  import opened Wrappers
  import opened Host
  import opened Backup
  import opened BackupLaws
  import opened PodRestart
  import opened State
  import opened Rollback

  /** Only listed live files and manifests are ever written. */
  ghost predicate Confined(dirs: Dirs, manifests: string, d: Disk, e: Disk) {
    && (forall p :: !IsLive(dirs, p) && !IsManifest(manifests, p) ==> SameAt(d, e, p))
    && d.dirs <= e.dirs && (Sound(d) ==> Sound(e))
  }

  lemma ConfinedTransitive(dirs: Dirs, manifests: string, a: Disk, b: Disk, c: Disk)
    requires Confined(dirs, manifests, a, b) && Confined(dirs, manifests, b, c)
    ensures Confined(dirs, manifests, a, c)
  {
    forall p | !IsLive(dirs, p) && !IsManifest(manifests, p) ensures SameAt(a, c, p) {
      assert SameAt(a, b, p) && SameAt(b, c, p);
    }
  }

  lemma RestartConfined(dirs: Dirs, su: Setup, d: Disk, fates: seq<Fate>)
    ensures Confined(dirs, su.dir, d, RestartAllEffect(su, d, fates).disk)
  {
    if su.dryRun {
      DryRestartChangesNothing(su, d, RESTART_ORDER, fates);
    } else {
      var n := RestartAllLaw(su, d, fates);
    }
  }

  lemma RollbackNodeConfined(plan: Plan, nodes: map<string, NodeState>, d: Disk, node: string, fates: seq<Fate>)
    ensures Confined(plan.dirs, plan.restart.dir, d, RollbackNode(plan, Some(nodes), d, node, fates).disk)
  {
    if node in nodes && nodes[node].backupPath != "" && !plan.dryRun {
      var s := RestoreEffect(plan.dirs, d, nodes[node].backupPath, fates);
      RestoreFrame(plan.dirs, d, nodes[node].backupPath, fates);
      if s.out == Ok {
        RestartConfined(plan.dirs, plan.restart, s.disk, s.fates);
        ConfinedTransitive(plan.dirs, plan.restart.dir, d, s.disk, RestartAllEffect(plan.restart, s.disk, s.fates).disk);
      }
    }
  }

  ghost predicate ActsConfined(dirs: Dirs, manifests: string, act: NodeAction) {
    forall ns: map<string, NodeState>, e: Disk, node: string, fs: seq<Fate> :: Confined(dirs, manifests, e, act(Some(ns), e, node, fs).disk)
  }

  lemma ActionsConfined(plan: Plan)
    ensures ActsConfined(plan.dirs, plan.restart.dir, ActionOf(plan))
  {
    var act := ActionOf(plan);
    forall ns: map<string, NodeState>, e: Disk, node: string, fs: seq<Fate> ensures Confined(plan.dirs, plan.restart.dir, e, act(Some(ns), e, node, fs).disk) {
      RollbackNodeConfined(plan, ns, e, node, fs);
    }
  }

  lemma {:induction false} RollbackFromConfined(dirs: Dirs, manifests: string, act: NodeAction, now: int, s: Snapshot, file: StateFile,
                                                d: Disk, nodes: seq<string>, fates: seq<Fate>)
    requires ActsConfined(dirs, manifests, act)
    ensures Confined(dirs, manifests, d, RollbackFrom(act, now, Some(s), file, d, nodes, fates).disk)
    decreases |nodes|
  {
    if nodes != [] {
      var r := act(Some(s.nodes), d, nodes[0], fates);
      if r.out == Ok {
        var t := Changed(s, SetNodeRollback(nodes[0], !r.success), now);
        var saved := Save(t, file, r.fates);
        if saved.out != Crash {
          RollbackFromConfined(dirs, manifests, act, now, t, saved.file, r.disk, nodes[1..], saved.fates);
          ConfinedTransitive(dirs, manifests, d, r.disk, RollbackFrom(act, now, Some(t), saved.file, r.disk, nodes[1..], saved.fates).disk);
        }
      }
    }
  }

  lemma RollbackConfined(plan: Plan, s: Snapshot, file: StateFile, d: Disk, renewed: seq<string>, failed: string, fates: seq<Fate>)
    ensures Confined(plan.dirs, plan.restart.dir, d, RollbackAllEffect(plan, Some(s), file, d, renewed, failed, fates).disk)
  {
    ActionsConfined(plan);
    RollbackFromConfined(plan.dirs, plan.restart.dir, ActionOf(plan), plan.now, s, file, d, RollbackOrder(renewed, failed), fates);
  }

  /** Handed a nil state, `RollbackAll` panics at its first node, whatever the plan and the nodes,
      before it restores or records anything. */
  lemma NilStatePanics(plan: Plan, file: StateFile, d: Disk, renewed: seq<string>, failed: string, fates: seq<Fate>)
    ensures RollbackAllEffect(plan, None, file, d, renewed, failed, fates) == RB(d, fates, None, file, [], Panic)
  {
    RollbackOrderLaw(renewed, failed);
  }

  // ---- the record ----

  predicate DistinctNodes(nodes: seq<string>) {
    forall i, j :: 0 <= i < j < |nodes| ==> nodes[i] != nodes[j]
  }

  lemma PrefixDistinct(a: seq<string>, nodes: seq<string>)
    requires a <= nodes && DistinctNodes(nodes)
    ensures DistinctNodes(a)
  {
    forall i, j | 0 <= i < j < |a| ensures a[i] != a[j] {
      assert a[i] == nodes[i] && a[j] == nodes[j];
    }
  }

  /** The results say of each node what the state says of it, and nothing else in the state moved
      except the critical flag. */
  ghost predicate Agree(s: Snapshot, t: Snapshot, nodes: seq<string>, results: seq<RollbackResult>) {
    && |results| == |nodes|
    && (forall i :: 0 <= i < |nodes| ==>
          && results[i].node == nodes[i] && nodes[i] in t.nodes
          && t.nodes[nodes[i]].rollbackFailed == !results[i].success)
    && (forall n :: n !in nodes ==> (n in t.nodes <==> n in s.nodes) && (n in s.nodes ==> t.nodes[n] == s.nodes[n]))
    && (forall n :: Entry(t.nodes, n).backupPath == Entry(s.nodes, n).backupPath)
    && (t.critical <==> s.critical || IsCritical(results))
  }

  /** The state after the outcomes of some nodes were recorded, one after the other. */
  function Recorded(s: Snapshot, results: seq<RollbackResult>, now: int): Snapshot
    decreases |results|
  {
    if results == [] then s
    else Recorded(Changed(s, SetNodeRollback(results[0].node, !results[0].success), now), results[1..], now)
  }

  function NodesOf(results: seq<RollbackResult>): seq<string> {
    seq(|results|, i requires 0 <= i < |results| => results[i].node)
  }

  /** The outcomes recorded are those of the nodes that were reached, all of them if nothing died. */
  predicate Records(s: Snapshot, nodes: seq<string>, now: int, r: RB) {
    && r.state == Some(Recorded(s, r.results, now))
    && NodesOf(r.results) <= nodes && (r.out == Ok ==> NodesOf(r.results) == nodes)
  }

  lemma {:induction false} RollbackFromRecords(act: NodeAction, now: int, s: Snapshot, file: StateFile, d: Disk,
                                               nodes: seq<string>, fates: seq<Fate>)
    ensures Records(s, nodes, now, RollbackFrom(act, now, Some(s), file, d, nodes, fates))
    decreases |nodes|
  {
    if nodes != [] {
      var first := act(Some(s.nodes), d, nodes[0], fates);
      var one := RollbackResult(nodes[0], first.success);
      var t := Changed(s, SetNodeRollback(nodes[0], !first.success), now);
      var saved := Save(t, file, first.fates);
      if first.out == Ok {
        ConsRecorded(s, one, [], now);
        if saved.out != Crash {
          RollbackFromRecords(act, now, t, saved.file, first.disk, nodes[1..], saved.fates);
          var rest := RollbackFrom(act, now, Some(t), saved.file, first.disk, nodes[1..], saved.fates);
          ConsRecorded(s, one, rest.results, now);
          assert nodes == [nodes[0]] + nodes[1..];
        }
      }
    }
  }

  lemma ConsRecorded(s: Snapshot, one: RollbackResult, rest: seq<RollbackResult>, now: int)
    ensures Recorded(s, [one] + rest, now) == Recorded(Changed(s, SetNodeRollback(one.node, !one.success), now), rest, now)
    ensures NodesOf([one] + rest) == [one.node] + NodesOf(rest)
  {
    assert ([one] + rest)[1..] == rest;
  }

  lemma {:induction false} RecordedAgrees(s: Snapshot, results: seq<RollbackResult>, now: int)
    requires DistinctNodes(NodesOf(results))
    ensures Agree(s, Recorded(s, results, now), NodesOf(results), results)
    decreases |results|
  {
    if results != [] {
      var one, rest := results[0], results[1..];
      assert results == [one] + rest;
      ConsRecorded(s, one, rest, now);
      var nodes := NodesOf(results);
      assert nodes[1..] == NodesOf(rest);
      var t := Changed(s, SetNodeRollback(one.node, !one.success), now);
      assert DistinctNodes(NodesOf(rest)) by {
        assert forall i :: 0 <= i < |rest| ==> NodesOf(rest)[i] == nodes[i + 1];
      }
      RecordedAgrees(t, rest, now);
      RecordOne(s, one.node, !one.success, now);
      ConsAgree(s, t, Recorded(s, results, now), nodes, one, rest);
    }
  }

  lemma ConsCritical(one: RollbackResult, rest: seq<RollbackResult>)
    ensures IsCritical([one] + rest) <==> !one.success || IsCritical(rest)
  {
    var all := [one] + rest;
    if IsCritical(rest) { var i :| 0 <= i < |rest| && !rest[i].success; assert all[i + 1] == rest[i]; }
    if i :| 0 <= i < |all| && !all[i].success { if i > 0 { assert rest[i - 1] == all[i]; } }
    if !one.success { assert all[0] == one; }
  }

  lemma RecordOne(s: Snapshot, node: string, failed: bool, now: int)
    ensures var t := Changed(s, SetNodeRollback(node, failed), now);
      && node in t.nodes && t.nodes[node].rollbackFailed == failed && (t.critical <==> s.critical || failed)
      && (forall n :: n != node ==> (n in t.nodes <==> n in s.nodes) && (n in s.nodes ==> t.nodes[n] == s.nodes[n]))
      && (forall n :: Entry(t.nodes, n).backupPath == Entry(s.nodes, n).backupPath)
  {
  }

  lemma ConsAgree(s: Snapshot, t: Snapshot, u: Snapshot, nodes: seq<string>, one: RollbackResult, rest: seq<RollbackResult>)
    requires nodes != [] && DistinctNodes(nodes) && one.node == nodes[0]
    requires nodes[0] in t.nodes && t.nodes[nodes[0]].rollbackFailed == !one.success && (t.critical <==> s.critical || !one.success)
    requires forall n :: n != nodes[0] ==> (n in t.nodes <==> n in s.nodes) && (n in s.nodes ==> t.nodes[n] == s.nodes[n])
    requires forall n :: Entry(t.nodes, n).backupPath == Entry(s.nodes, n).backupPath
    requires Agree(t, u, nodes[1..], rest)
    ensures Agree(s, u, nodes, [one] + rest)
  {
    var all := [one] + rest;
    assert nodes[0] !in nodes[1..];
    forall i | 0 <= i < |nodes|
      ensures all[i].node == nodes[i] && nodes[i] in u.nodes && u.nodes[nodes[i]].rollbackFailed == !all[i].success
    {
      if i > 0 { assert nodes[i] == nodes[1..][i - 1]; }
    }
    forall n | n !in nodes ensures (n in u.nodes <==> n in s.nodes) && (n in s.nodes ==> u.nodes[n] == s.nodes[n]) {
      assert n !in nodes[1..] && n != nodes[0];
    }
    ConsCritical(one, rest);
  }

  lemma AgreementMeans(s: Snapshot, t: Snapshot, order: seq<string>, results: seq<RollbackResult>)
    requires Agree(s, t, order, results)
    ensures IsCritical(results) <==> exists n :: n in order && n in t.nodes && t.nodes[n].rollbackFailed
    ensures Honest(s) ==> Honest(t)
  {
    if IsCritical(results) {
      var i :| 0 <= i < |results| && !results[i].success;
      assert order[i] in order && t.nodes[order[i]].rollbackFailed;
    }
    if n :| n in order && n in t.nodes && t.nodes[n].rollbackFailed {
      var i :| 0 <= i < |order| && order[i] == n;
      assert !results[i].success;
    }
    if Honest(s) {
      forall n | n in t.nodes && t.nodes[n].rollbackFailed ensures t.critical {
        if n in order {
          var i :| 0 <= i < |order| && order[i] == n;
          assert !results[i].success;
        } else {
          assert s.nodes[n].rollbackFailed;
        }
      }
    }
  }

  ghost predicate ReturnsOrDies(act: NodeAction) {
    forall ns: map<string, NodeState>, e: Disk, node: string, fs: seq<Fate> :: act(Some(ns), e, node, fs).out in {Ok, Crash, Panic}
  }

  /** No error of a node or of a save stops the loop; only a death does. */
  lemma {:induction false} NoErrorStopsRollback(act: NodeAction, now: int, s: Snapshot, file: StateFile, d: Disk,
                                                nodes: seq<string>, fates: seq<Fate>)
    requires ReturnsOrDies(act)
    ensures RollbackFrom(act, now, Some(s), file, d, nodes, fates).out in {Ok, Crash, Panic}
    decreases |nodes|
  {
    if nodes != [] {
      var first := act(Some(s.nodes), d, nodes[0], fates);
      if first.out == Ok {
        var t := Changed(s, SetNodeRollback(nodes[0], !first.success), now);
        var saved := Save(t, file, first.fates);
        NoErrorStopsRollback(act, now, t, saved.file, first.disk, nodes[1..], saved.fates);
      }
    }
  }

  /** The file holds the state as it was after the first k of these outcomes were recorded. */
  predicate HoldsRecord(file: StateFile, s: Snapshot, results: seq<RollbackResult>, now: int, k: nat) {
    k <= |results| && file == Intact(Recorded(s, results[..k], now))
  }

  /** Torn, never written, or the state after some of the outcomes. */
  predicate FileFits(file: StateFile, before: StateFile, s: Snapshot, results: seq<RollbackResult>, now: int) {
    file == Torn || file == before || exists k: nat :: k <= |results| && HoldsRecord(file, s, results, now, k)
  }

  lemma ShiftRecord(file: StateFile, s: Snapshot, one: RollbackResult, rest: seq<RollbackResult>, now: int, k: nat)
    requires HoldsRecord(file, Changed(s, SetNodeRollback(one.node, !one.success), now), rest, now, k)
    ensures HoldsRecord(file, s, [one] + rest, now, k + 1)
  {
    assert ([one] + rest)[..k + 1] == [one] + rest[..k];
    ConsRecorded(s, one, rest[..k], now);
  }

  /** Whatever the saves of a rollback do, the state file is torn, as before, or a state that the rollback
      had reached. */
  lemma {:induction false} RollbackFileFits(act: NodeAction, now: int, s: Snapshot, file: StateFile, d: Disk,
                                            nodes: seq<string>, fates: seq<Fate>)
    ensures var r := RollbackFrom(act, now, Some(s), file, d, nodes, fates); FileFits(r.file, file, s, r.results, now)
    decreases |nodes|
  {
    if nodes != [] {
      var first := act(Some(s.nodes), d, nodes[0], fates);
      if first.out == Ok {
        var one := RollbackResult(nodes[0], first.success);
        var t := Changed(s, SetNodeRollback(nodes[0], !first.success), now);
        var saved := Save(t, file, first.fates);
        ConsRecorded(s, one, [], now);
        assert [one][..1] == [one] && [one] + [] == [one];
        if saved.out == Crash {
          assert saved.file == Intact(t) ==> HoldsRecord(saved.file, s, [one], now, 1);
        } else {
          var rest := RollbackFrom(act, now, Some(t), saved.file, first.disk, nodes[1..], saved.fates);
          RollbackFileFits(act, now, t, saved.file, first.disk, nodes[1..], saved.fates);
          FileFitsLonger(rest.file, file, saved.file, s, one, rest.results, now);
        }
      }
    }
  }

  lemma FileFitsLonger(file: StateFile, before: StateFile, saved: StateFile, s: Snapshot, one: RollbackResult,
                       rest: seq<RollbackResult>, now: int)
    requires FileFits(file, saved, Changed(s, SetNodeRollback(one.node, !one.success), now), rest, now)
    requires saved in {before, Torn, Intact(Changed(s, SetNodeRollback(one.node, !one.success), now))}
    ensures FileFits(file, before, s, [one] + rest, now)
  {
    var t := Changed(s, SetNodeRollback(one.node, !one.success), now);
    if k: nat :| k <= |rest| && HoldsRecord(file, t, rest, now, k) {
      ShiftRecord(file, s, one, rest, now, k);
    } else if file == Intact(t) {
      assert rest[..0] == [];
      ShiftRecord(file, s, one, rest, now, 0);
    }
  }

  /** For every outcome of every restore, restart, health check and save, and wherever the process
      dies: the results list the nodes of the rollback order that were reached, all of them when
      `RollbackAll` returns, `IsCritical` holds exactly when the state marks one of them as failed,
      the critical flag is raised by exactly that, all backup paths survive, and no other entry
      changed. */
  lemma RollbackAllAgrees(plan: Plan, s: Snapshot, file: StateFile, d: Disk, renewed: seq<string>, failed: string, fates: seq<Fate>)
    ensures var r := RollbackAllEffect(plan, Some(s), file, d, renewed, failed, fates);
      var reached := NodesOf(r.results);
      && reached <= RollbackOrder(renewed, failed) && (r.out == Ok ==> reached == RollbackOrder(renewed, failed))
      && r.state.Some? && Agree(s, r.state.value, reached, r.results)
      && (IsCritical(r.results) <==> exists n :: n in reached && n in r.state.value.nodes && r.state.value.nodes[n].rollbackFailed)
      && (Honest(s) ==> Honest(r.state.value))
      && FileFits(r.file, file, s, r.results, plan.now) && r.out in {Ok, Crash, Panic}
  {
    assert ReturnsOrDies(ActionOf(plan));
    NoErrorStopsRollback(ActionOf(plan), plan.now, s, file, d, RollbackOrder(renewed, failed), fates);
    RollbackFileFits(ActionOf(plan), plan.now, s, file, d, RollbackOrder(renewed, failed), fates);
    var r := RollbackAllEffect(plan, Some(s), file, d, renewed, failed, fates);
    var order := RollbackOrder(renewed, failed);
    RollbackOrderLaw(renewed, failed);
    RollbackFromRecords(ActionOf(plan), plan.now, s, file, d, order, fates);
    PrefixDistinct(NodesOf(r.results), order);
    RecordedAgrees(s, r.results, plan.now);
    AgreementMeans(s, r.state.value, NodesOf(r.results), r.results);
  }

  // ---- several nodes, one disk ----

  lemma SavedIsNoManifest(manifests: string, path: string, i: nat)
    requires i < LISTED
    ensures !IsManifest(manifests, Saved(path, i))
  {
    PathsEnd(Dirs("", "", ""), path, i);
    NoManifest(manifests, Saved(path, i));
  }

  lemma RestartKeepsLive(dirs: Dirs, su: Setup, d: Disk, fates: seq<Fate>, i: nat)
    requires i < LISTED
    ensures SameAt(d, RestartAllEffect(su, d, fates).disk, Live(dirs, i))
  {
    PathsEnd(dirs, "", i);
    NoManifest(su.dir, Live(dirs, i));
    if su.dryRun {
      DryRestartChangesNothing(su, d, RESTART_ORDER, fates);
    } else {
      var n := RestartAllLaw(su, d, fates);
    }
  }

  /** If the action reports success for a node with this backup, the i-th live file is the
      backup's. */
  predicate RestoresHere(dirs: Dirs, act: NodeAction, path: string, i: nat, ns: map<string, NodeState>, e: Disk,
                         node: string, fs: seq<Fate>)
    requires i < LISTED
  {
    var r := act(Some(ns), e, node, fs);
    (node in ns && ns[node].backupPath == path && Saved(path, i) in e.files && Dir(Live(dirs, i)) in e.dirs && r.out == Ok && r.success)
    ==> (Live(dirs, i) in r.disk.files && r.disk.files[Live(dirs, i)] == e.files[Saved(path, i)])
  }

  ghost predicate Restores(dirs: Dirs, act: NodeAction, path: string, i: nat)
    requires i < LISTED
  {
    forall ns: map<string, NodeState>, e: Disk, node: string, fs: seq<Fate> :: RestoresHere(dirs, act, path, i, ns, e, node, fs)
  }

  lemma NodeRestores(plan: Plan, path: string, i: nat)
    requires i < LISTED && path != "" && !plan.dryRun
    requires Separate(path, plan.dirs.pki) && Separate(path, plan.dirs.kubeconfig)
    ensures Restores(plan.dirs, ActionOf(plan), path, i)
  {
    var act := ActionOf(plan);
    forall ns: map<string, NodeState>, e: Disk, node: string, fs: seq<Fate>
      ensures RestoresHere(plan.dirs, act, path, i, ns, e, node, fs)
    {
      var r := act(Some(ns), e, node, fs);
      if node in ns && ns[node].backupPath == path && Saved(path, i) in e.files && Dir(Live(plan.dirs, i)) in e.dirs && r.out == Ok && r.success {
        OneNodeRestores(plan, ns, e, node, fs, path, i);
      }
    }
  }

  lemma OneNodeRestores(plan: Plan, ns: map<string, NodeState>, e: Disk, node: string, fs: seq<Fate>, path: string, i: nat)
    requires i < LISTED && path != "" && !plan.dryRun
    requires Separate(path, plan.dirs.pki) && Separate(path, plan.dirs.kubeconfig)
    requires node in ns && ns[node].backupPath == path && Saved(path, i) in e.files && Dir(Live(plan.dirs, i)) in e.dirs
    requires RollbackNode(plan, Some(ns), e, node, fs).out == Ok && RollbackNode(plan, Some(ns), e, node, fs).success
    ensures var f := RollbackNode(plan, Some(ns), e, node, fs).disk; Live(plan.dirs, i) in f.files && f.files[Live(plan.dirs, i)] == e.files[Saved(path, i)]
  {
    var restored := RestoreEffect(plan.dirs, e, path, fs);
    RestoreGivesBack(plan.dirs, e, path, fs);
    assert Delivered(e, Item(Saved(path, i), Live(plan.dirs, i), i < 20), restored.disk);
    RestartKeepsLive(plan.dirs, plan.restart, restored.disk, restored.fates, i);
  }

  lemma LaterNodes(s: Snapshot, nodes: seq<string>, failed: bool, now: int)
    requires |nodes| > 1 && DistinctNodes(nodes) && nodes[|nodes| - 1] in s.nodes
    ensures var t, last := Changed(s, SetNodeRollback(nodes[0], failed), now), nodes[|nodes| - 1];
      && DistinctNodes(nodes[1..]) && nodes[1..] != [] && nodes[1..][|nodes[1..]| - 1] == last
      && last in t.nodes && t.nodes[last].backupPath == s.nodes[last].backupPath
  {
  }

  lemma ActionKeepsSaved(dirs: Dirs, manifests: string, act: NodeAction, ns: map<string, NodeState>, d: Disk, node: string,
                         fates: seq<Fate>, path: string, i: nat)
    requires i < LISTED && ActsConfined(dirs, manifests, act) && !IsLive(dirs, Saved(path, i)) && !IsManifest(manifests, Saved(path, i))
    ensures SameAt(d, act(Some(ns), d, node, fates).disk, Saved(path, i)) && d.dirs <= act(Some(ns), d, node, fates).disk.dirs
  {
    assert Confined(dirs, manifests, d, act(Some(ns), d, node, fates).disk);
  }

  lemma RollbackFromTail(act: NodeAction, now: int, s: Snapshot, file: StateFile, d: Disk, nodes: seq<string>, fates: seq<Fate>)
    requires nodes != [] && RollbackFrom(act, now, Some(s), file, d, nodes, fates).out == Ok
    ensures var r, first := RollbackFrom(act, now, Some(s), file, d, nodes, fates), act(Some(s.nodes), d, nodes[0], fates);
      var t := Changed(s, SetNodeRollback(nodes[0], !first.success), now);
      var saved := Save(t, file, first.fates);
      var rest := RollbackFrom(act, now, Some(t), saved.file, first.disk, nodes[1..], saved.fates);
      first.out == Ok && rest.out == Ok && r.disk == rest.disk && r.results == [RollbackResult(nodes[0], first.success)] + rest.results
  {
  }

  lemma {:induction false} LastActionWins(dirs: Dirs, manifests: string, act: NodeAction, now: int, s: Snapshot, file: StateFile, d: Disk,
                                          nodes: seq<string>, fates: seq<Fate>, path: string, i: nat)
    requires i < LISTED && Restores(dirs, act, path, i) && !IsLive(dirs, Saved(path, i)) && !IsManifest(manifests, Saved(path, i))
    requires ActsConfined(dirs, manifests, act) && nodes != [] && DistinctNodes(nodes)
    requires nodes[|nodes| - 1] in s.nodes && path == s.nodes[nodes[|nodes| - 1]].backupPath
    requires Saved(path, i) in d.files && Dir(Live(dirs, i)) in d.dirs
    requires RollbackFrom(act, now, Some(s), file, d, nodes, fates).out == Ok
    ensures var r := RollbackFrom(act, now, Some(s), file, d, nodes, fates);
      |r.results| > 0 && (r.results[|r.results| - 1].success ==>
        Live(dirs, i) in r.disk.files && r.disk.files[Live(dirs, i)] == d.files[Saved(path, i)])
    decreases |nodes|
  {
    var first := act(Some(s.nodes), d, nodes[0], fates);
    var t := Changed(s, SetNodeRollback(nodes[0], !first.success), now);
    var saved := Save(t, file, first.fates);
    RollbackFromTail(act, now, s, file, d, nodes, fates);
    if |nodes| == 1 {
      assert RestoresHere(dirs, act, path, i, s.nodes, d, nodes[0], fates);
      assert nodes[1..] == [];
    } else {
      ActionKeepsSaved(dirs, manifests, act, s.nodes, d, nodes[0], fates, path, i);
      LaterNodes(s, nodes, !first.success, now);
      LastActionWins(dirs, manifests, act, now, t, saved.file, first.disk, nodes[1..], saved.fates, path, i);
    }
  }

  /** The backup of the last of these nodes, which no rollback touches, has the i-th listed file. */
  predicate LastHas(dirs: Dirs, s: Snapshot, d: Disk, order: seq<string>, i: nat)
    requires i < LISTED
  {
    && order != [] && order[|order| - 1] in s.nodes && s.nodes[order[|order| - 1]].backupPath != ""
    && Separate(s.nodes[order[|order| - 1]].backupPath, dirs.pki) && Separate(s.nodes[order[|order| - 1]].backupPath, dirs.kubeconfig)
    && Saved(s.nodes[order[|order| - 1]].backupPath, i) in d.files && Dir(Live(dirs, i)) in d.dirs
  }

  /** If the last of these nodes was rolled back, the i-th live file is the one of its backup. */
  predicate LastIsLive(dirs: Dirs, s: Snapshot, d: Disk, order: seq<string>, i: nat, r: RB)
    requires i < LISTED && LastHas(dirs, s, d, order, i)
  {
    && |r.results| > 0
    && (r.results[|r.results| - 1].success ==>
          && Live(dirs, i) in r.disk.files
          && r.disk.files[Live(dirs, i)] == d.files[Saved(s.nodes[order[|order| - 1]].backupPath, i)])
  }

  /** Every node's backup is restored into the same local directories. When `RollbackAll` returns
      with the last node of the order rolled back, the live files are that node's, whoever was
      restored before, the failed node included. */
  lemma LastRestoreWins(plan: Plan, s: Snapshot, file: StateFile, d: Disk, renewed: seq<string>, failed: string, fates: seq<Fate>, i: nat)
    requires i < LISTED && !plan.dryRun && LastHas(plan.dirs, s, d, RollbackOrder(renewed, failed), i)
    requires RollbackAllEffect(plan, Some(s), file, d, renewed, failed, fates).out == Ok
    ensures LastIsLive(plan.dirs, s, d, RollbackOrder(renewed, failed), i,
                       RollbackAllEffect(plan, Some(s), file, d, renewed, failed, fates))
  {
    RollbackOrderLaw(renewed, failed);
    LastOfOrderWins(plan, s, file, d, RollbackOrder(renewed, failed), fates, i);
  }

  lemma LastOfOrderWins(plan: Plan, s: Snapshot, file: StateFile, d: Disk, order: seq<string>, fates: seq<Fate>, i: nat)
    requires i < LISTED && !plan.dryRun && DistinctNodes(order) && LastHas(plan.dirs, s, d, order, i)
    requires RollbackFrom(ActionOf(plan), plan.now, Some(s), file, d, order, fates).out == Ok
    ensures LastIsLive(plan.dirs, s, d, order, i, RollbackFrom(ActionOf(plan), plan.now, Some(s), file, d, order, fates))
  {
    var path := s.nodes[order[|order| - 1]].backupPath;
    NodeRestores(plan, path, i);
    SavedIsNoLive(plan.dirs, path, i);
    SavedIsNoManifest(plan.restart.dir, path, i);
    ActionsConfined(plan);
    LastActionWins(plan.dirs, plan.restart.dir, ActionOf(plan), plan.now, s, file, d, order, fates, path, i);
  }

  // ---- who wins, file by file ----

  function FileAt(d: Disk, p: string): Option<Bytes> {
    if p in d.files then Some(d.files[p]) else None
  }

  predicate Apart(dirs: Dirs, path: string) {
    Separate(path, dirs.pki) && Separate(path, dirs.kubeconfig)
  }

  /** The last of these nodes whose backup has the i-th listed file. */
  function Winner(paths: map<string, string>, d: Disk, nodes: seq<string>, i: nat): (w: Option<string>)
    requires i < LISTED
    ensures w.Some? ==> w.value in nodes && w.value in paths && Saved(paths[w.value], i) in d.files
    decreases |nodes|
  {
    if nodes == [] then None
    else
      var later := Winner(paths, d, nodes[1..], i);
      if later.None? && nodes[0] in paths && Saved(paths[nodes[0]], i) in d.files then Some(nodes[0]) else later
  }

  /** The k-th of these nodes has the i-th listed file in its backup, and no later one has. */
  predicate LastWith(paths: map<string, string>, d: Disk, nodes: seq<string>, i: nat, k: nat)
    requires i < LISTED && k < |nodes|
  {
    && nodes[k] in paths && Saved(paths[nodes[k]], i) in d.files
    && forall n :: n in nodes[k + 1..] && n in paths ==> Saved(paths[n], i) !in d.files
  }

  lemma {:induction false} WinnerLaw(paths: map<string, string>, d: Disk, nodes: seq<string>, i: nat)
    requires i < LISTED
    ensures match Winner(paths, d, nodes, i)
      case None => (forall n :: n in nodes && n in paths ==> Saved(paths[n], i) !in d.files)
      case Some(w) => (exists k: nat :: k < |nodes| && nodes[k] == w && LastWith(paths, d, nodes, i, k))
    decreases |nodes|
  {
    if nodes != [] {
      var rest := nodes[1..];
      WinnerLaw(paths, d, rest, i);
      assert nodes == [nodes[0]] + rest;
      var later := Winner(paths, d, rest, i);
      if later.Some? {
        var k: nat :| k < |rest| && rest[k] == later.value && LastWith(paths, d, rest, i, k);
        assert nodes[k + 1] == later.value && nodes[k + 1 + 1..] == rest[k + 1..];
        assert LastWith(paths, d, nodes, i, k + 1);
      } else if Winner(paths, d, nodes, i).Some? {
        assert nodes[0 + 1..] == rest && LastWith(paths, d, nodes, i, 0);
      }
    }
  }

  /** A rollback of one node that reports success brings the i-th file of its backup, if it has one. */
  ghost predicate Brings(dirs: Dirs, act: NodeAction, i: nat)
    requires i < LISTED
  {
    forall ns: map<string, NodeState>, e: Disk, node: string, fs: seq<Fate> :: BringsHere(dirs, act, i, ns, e, node, fs)
  }

  predicate BringsHere(dirs: Dirs, act: NodeAction, i: nat, ns: map<string, NodeState>, e: Disk, node: string, fs: seq<Fate>)
    requires i < LISTED
  {
    var r := act(Some(ns), e, node, fs);
    r.out == Ok && r.success && node in ns && Apart(dirs, ns[node].backupPath) && Dir(Live(dirs, i)) in e.dirs ==>
      var saved := Saved(ns[node].backupPath, i);
      FileAt(r.disk, Live(dirs, i)) == FileAt(e, if saved in e.files then saved else Live(dirs, i))
  }

  lemma NodeBrings(plan: Plan, i: nat)
    requires i < LISTED && !plan.dryRun
    ensures Brings(plan.dirs, ActionOf(plan), i)
  {
    forall ns: map<string, NodeState>, e: Disk, node: string, fs: seq<Fate>
      ensures BringsHere(plan.dirs, ActionOf(plan), i, ns, e, node, fs)
    {
      var r := RollbackNode(plan, Some(ns), e, node, fs);
      if r.out == Ok && r.success && node in ns && Apart(plan.dirs, ns[node].backupPath) && Dir(Live(plan.dirs, i)) in e.dirs {
        OneNodeBrings(plan, ns, e, node, fs, i);
      }
    }
  }

  lemma OneNodeBrings(plan: Plan, ns: map<string, NodeState>, e: Disk, node: string, fs: seq<Fate>, i: nat)
    requires i < LISTED && !plan.dryRun && node in ns && Apart(plan.dirs, ns[node].backupPath) && Dir(Live(plan.dirs, i)) in e.dirs
    requires RollbackNode(plan, Some(ns), e, node, fs).out == Ok && RollbackNode(plan, Some(ns), e, node, fs).success
    ensures var f, saved := RollbackNode(plan, Some(ns), e, node, fs).disk, Saved(ns[node].backupPath, i);
      FileAt(f, Live(plan.dirs, i)) == FileAt(e, if saved in e.files then saved else Live(plan.dirs, i))
  {
    var path := ns[node].backupPath;
    var restored := RestoreEffect(plan.dirs, e, path, fs);
    RestoreGivesBack(plan.dirs, e, path, fs);
    assert Delivered(e, Item(Saved(path, i), Live(plan.dirs, i), i < 20), restored.disk);
    RestartKeepsLive(plan.dirs, plan.restart, restored.disk, restored.fates, i);
  }

  /** The i-th file of the winner's backup, or what was there if no backup has it. */
  function Restored(dirs: Dirs, paths: map<string, string>, d: Disk, nodes: seq<string>, i: nat): Option<Bytes>
    requires i < LISTED
  {
    match Winner(paths, d, nodes, i)
    case None => FileAt(d, Live(dirs, i))
    case Some(w) => FileAt(d, Saved(paths[w], i))
  }

  /** The state knows these backup paths. */
  predicate Knows(s: Snapshot, paths: map<string, string>) {
    forall n :: n in paths ==> n in s.nodes && s.nodes[n].backupPath == paths[n]
  }

  /** Backups that no rollback can touch, for the i-th listed file. */
  predicate OutOfReach(dirs: Dirs, manifests: string, paths: map<string, string>, i: nat)
    requires i < LISTED
  {
    forall n :: n in paths ==> Apart(dirs, paths[n]) && !IsLive(dirs, Saved(paths[n], i)) && !IsManifest(manifests, Saved(paths[n], i))
  }

  lemma {:induction false} WinnerSame(paths: map<string, string>, d: Disk, e: Disk, nodes: seq<string>, i: nat)
    requires i < LISTED && forall n :: n in paths ==> SameAt(d, e, Saved(paths[n], i))
    ensures Winner(paths, d, nodes, i) == Winner(paths, e, nodes, i)
    decreases |nodes|
  {
    if nodes != [] {
      WinnerSame(paths, d, e, nodes[1..], i);
    }
  }

  lemma BackupsStay(dirs: Dirs, manifests: string, act: NodeAction, ns: map<string, NodeState>, d: Disk, node: string,
                    fates: seq<Fate>, paths: map<string, string>, i: nat)
    requires i < LISTED && ActsConfined(dirs, manifests, act) && OutOfReach(dirs, manifests, paths, i)
    ensures d.dirs <= act(Some(ns), d, node, fates).disk.dirs
    ensures forall n :: n in paths ==> SameAt(d, act(Some(ns), d, node, fates).disk, Saved(paths[n], i))
  {
    assert Confined(dirs, manifests, d, act(Some(ns), d, node, fates).disk);
  }

  lemma StillKnows(s: Snapshot, paths: map<string, string>, node: string, failed: bool, now: int)
    requires Knows(s, paths)
    ensures Knows(Changed(s, SetNodeRollback(node, failed), now), paths)
  {
  }

  lemma {:induction false} WinnerBrings(dirs: Dirs, manifests: string, act: NodeAction, now: int, s: Snapshot, file: StateFile, d: Disk,
                                        nodes: seq<string>, fates: seq<Fate>, paths: map<string, string>, i: nat)
    requires i < LISTED && Brings(dirs, act, i) && ActsConfined(dirs, manifests, act) && OutOfReach(dirs, manifests, paths, i)
    requires Knows(s, paths) && (forall n :: n in nodes ==> n in paths) && Dir(Live(dirs, i)) in d.dirs
    requires var r := RollbackFrom(act, now, Some(s), file, d, nodes, fates); r.out == Ok && !IsCritical(r.results)
    ensures FileAt(RollbackFrom(act, now, Some(s), file, d, nodes, fates).disk, Live(dirs, i)) == Restored(dirs, paths, d, nodes, i)
    decreases |nodes|
  {
    if nodes != [] {
      var first := act(Some(s.nodes), d, nodes[0], fates);
      var t := Changed(s, SetNodeRollback(nodes[0], !first.success), now);
      var saved := Save(t, file, first.fates);
      var rest := RollbackFrom(act, now, Some(t), saved.file, first.disk, nodes[1..], saved.fates);
      RollbackFromTail(act, now, s, file, d, nodes, fates);
      ConsCritical(RollbackResult(nodes[0], first.success), rest.results);
      assert nodes[0] in nodes && forall n :: n in nodes[1..] ==> n in nodes;
      assert BringsHere(dirs, act, i, s.nodes, d, nodes[0], fates);
      BackupsStay(dirs, manifests, act, s.nodes, d, nodes[0], fates, paths, i);
      StillKnows(s, paths, nodes[0], !first.success, now);
      WinnerSame(paths, d, first.disk, nodes[1..], i);
      WinnerLaw(paths, d, nodes[1..], i);
      WinnerBrings(dirs, manifests, act, now, t, saved.file, first.disk, nodes[1..], saved.fates, paths, i);
    }
  }

  function OrderPaths(s: Snapshot, order: seq<string>): map<string, string> {
    map n | n in order && n in s.nodes :: s.nodes[n].backupPath
  }

  /** When every node was rolled back, each listed file is the one in the backup of the last node, in
      the order of the rollback, whose backup has it; a file that no backup has is as before. */
  lemma WinnerRestores(plan: Plan, s: Snapshot, file: StateFile, d: Disk, renewed: seq<string>, failed: string, fates: seq<Fate>, i: nat)
    requires i < LISTED && !plan.dryRun && Dir(Live(plan.dirs, i)) in d.dirs
    requires forall n :: n in RollbackOrder(renewed, failed) ==> n in s.nodes && Apart(plan.dirs, s.nodes[n].backupPath)
    requires var r := RollbackAllEffect(plan, Some(s), file, d, renewed, failed, fates); r.out == Ok && !IsCritical(r.results)
    ensures var paths := OrderPaths(s, RollbackOrder(renewed, failed));
      FileAt(RollbackAllEffect(plan, Some(s), file, d, renewed, failed, fates).disk, Live(plan.dirs, i)) ==
      Restored(plan.dirs, paths, d, RollbackOrder(renewed, failed), i)
  {
    var order := RollbackOrder(renewed, failed);
    var paths := OrderPaths(s, order);
    NodeBrings(plan, i);
    ActionsConfined(plan);
    forall n | n in paths ensures !IsLive(plan.dirs, Saved(paths[n], i)) && !IsManifest(plan.restart.dir, Saved(paths[n], i)) {
      SavedIsNoLive(plan.dirs, paths[n], i);
      SavedIsNoManifest(plan.restart.dir, paths[n], i);
    }
    WinnerLaw(paths, d, order, i);
    WinnerBrings(plan.dirs, plan.restart.dir, ActionOf(plan), plan.now, s, file, d, order, fates, paths, i);
  }

  /** So the failed node, which is rolled back first, gets a file of its own back exactly when the
      last node whose backup has that file saved the same bytes. */
  lemma WhenFailedNodeIsRestored(plan: Plan, s: Snapshot, file: StateFile, d: Disk, renewed: seq<string>, failed: string,
                                 fates: seq<Fate>, i: nat) returns (last: string)
    requires i < LISTED && !plan.dryRun && Dir(Live(plan.dirs, i)) in d.dirs
    requires forall n :: n in RollbackOrder(renewed, failed) ==> n in s.nodes && Apart(plan.dirs, s.nodes[n].backupPath)
    requires failed in s.nodes && Saved(s.nodes[failed].backupPath, i) in d.files
    requires var r := RollbackAllEffect(plan, Some(s), file, d, renewed, failed, fates); r.out == Ok && !IsCritical(r.results)
    ensures last in s.nodes && Winner(OrderPaths(s, RollbackOrder(renewed, failed)), d, RollbackOrder(renewed, failed), i) == Some(last)
    ensures var own := FileAt(d, Saved(s.nodes[failed].backupPath, i));
      FileAt(RollbackAllEffect(plan, Some(s), file, d, renewed, failed, fates).disk, Live(plan.dirs, i)) == own <==>
      FileAt(d, Saved(s.nodes[last].backupPath, i)) == own
  {
    var order := RollbackOrder(renewed, failed);
    var paths := OrderPaths(s, order);
    RollbackOrderLaw(renewed, failed);
    WinnerLaw(paths, d, order, i);
    assert failed in order && failed in paths;
    last := Winner(paths, d, order, i).value;
    WinnerRestores(plan, s, file, d, renewed, failed, fates, i);
  }
}
