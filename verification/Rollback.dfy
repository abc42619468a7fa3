/** Rolling back a set of nodes: order, restoration, and the record of what succeeded. */
module Rollback {
  import opened Wrappers
  import opened Host
  import opened Backup
  import opened PodRestart
  import opened State

  datatype RollbackResult = RollbackResult(node: string, success: bool)

  // ---- the order ----

  function Reversed(s: seq<string>): seq<string> {
    seq(|s|, i requires 0 <= i < |s| => s[|s| - 1 - i])
  }

  function DedupFrom(seen: set<string>, s: seq<string>): seq<string>
    decreases |s|
  {
    if s == [] then []
    else if s[0] in seen then DedupFrom(seen, s[1..])
    else [s[0]] + DedupFrom(seen + {s[0]}, s[1..])
  }

  function RollbackOrder(renewed: seq<string>, failed: string): seq<string> {
    DedupFrom({}, [failed] + Reversed(renewed))
  }

  /** Swaps in place on a copy; the caller's list stays as it is. */
  method Reverse(nodes: array<string>) returns (cp: array<string>)
    ensures fresh(cp) && cp[..] == Reversed(nodes[..]) && nodes[..] == old(nodes[..])
  {
    var n := nodes.Length;
    ghost var s := nodes[..];
    cp := new string[n](i requires 0 <= i < n reads nodes => nodes[i]);
    assert cp[..] == s;
    SwapEnds(cp, s);
  }

  method SwapEnds(cp: array<string>, ghost s: seq<string>)
    requires cp[..] == s
    modifies cp
    ensures cp[..] == Reversed(s)
  {
    var n := cp.Length;
    var i, j := 0, n - 1;
    while i < j
      invariant 0 <= i && i + j == n - 1
      invariant forall k :: i <= k <= j ==> cp[k] == s[k]
      invariant forall k :: 0 <= k < i && k < n ==> cp[k] == s[n - 1 - k]
      invariant forall k :: j < k < n && k >= 0 ==> cp[k] == s[n - 1 - k]
    {
      cp[i], cp[j] := cp[j], cp[i];
      i, j := i + 1, j - 1;
    }
  }

  method Order(renewed: array<string>, failed: string) returns (unique: seq<string>)
    ensures unique == RollbackOrder(renewed[..], failed)
  {
    var rev := Reverse(renewed);
    var todo := [failed] + rev[..];
    var seen: set<string> := {};
    unique := [];
    for i := 0 to |todo|
      invariant unique + DedupFrom(seen, todo[i..]) == RollbackOrder(renewed[..], failed)
    {
      assert todo[i..][0] == todo[i] && todo[i..][1..] == todo[i + 1..];
      if todo[i] !in seen {
        seen := seen + {todo[i]};
        unique := unique + [todo[i]];
      }
    }
  }

  function FirstIndex(s: seq<string>, x: string): (i: nat)
    requires x in s
    ensures i < |s| && s[i] == x && x !in s[..i]
  {
    if s[0] == x then 0
    else
      assert s == [s[0]] + s[1..];
      var i := FirstIndex(s[1..], x);
      assert s[..i + 1] == [s[0]] + s[1..][..i];
      i + 1
  }

  /** The position of the last occurrence. */
  function LastIndex(s: seq<string>, x: string): (i: nat)
    requires x in s
    ensures i < |s| && s[i] == x && x !in s[i + 1..]
  {
    var n := |s| - 1;
    if s[n] == x then n
    else
      assert s == s[..n] + [s[n]];
      var i := LastIndex(s[..n], x);
      assert s[i + 1..] == s[..n][i + 1..] + [s[n]];
      i
  }

  /** The elements of d are distinct and sorted by where they first occur in s. */
  predicate ByFirst(d: seq<string>, s: seq<string>) {
    forall i, j :: 0 <= i < j < |d| ==> d[i] in s && d[j] in s && FirstIndex(s, d[i]) < FirstIndex(s, d[j])
  }

  lemma {:induction false} DedupMembers(seen: set<string>, s: seq<string>)
    ensures forall x :: x in DedupFrom(seen, s) <==> x in s && x !in seen
    decreases |s|
  {
    if s != [] {
      assert s == [s[0]] + s[1..];
      DedupMembers(if s[0] in seen then seen else seen + {s[0]}, s[1..]);
    }
  }

  lemma FirstLater(s: seq<string>, x: string)
    requires s != [] && x in s[1..] && x != s[0]
    ensures x in s && FirstIndex(s, x) == FirstIndex(s[1..], x) + 1
  {
  }

  lemma {:induction false} DedupByFirst(seen: set<string>, s: seq<string>)
    ensures ByFirst(DedupFrom(seen, s), s)
    decreases |s|
  {
    if s != [] {
      var rest := s[1..];
      var later := if s[0] in seen then seen else seen + {s[0]};
      var tail := DedupFrom(later, rest);
      DedupByFirst(later, rest);
      DedupMembers(later, rest);
      forall i | 0 <= i < |tail| ensures tail[i] in s && tail[i] in rest && FirstIndex(s, tail[i]) == FirstIndex(rest, tail[i]) + 1 {
        assert tail[i] in tail;
        FirstLater(s, tail[i]);
      }
      assert ByFirst(tail, s);
      if s[0] !in seen {
        var d := [s[0]] + tail;
        forall i, j | 0 <= i < j < |d| ensures d[i] in s && d[j] in s && FirstIndex(s, d[i]) < FirstIndex(s, d[j]) {
          assert d[j] == tail[j - 1];
          if i > 0 { assert d[i] == tail[i - 1]; }
        }
      }
    }
  }

  lemma {:induction false} FirstIsLeast(s: seq<string>, x: string, k: nat)
    requires k < |s| && s[k] == x
    ensures x in s && FirstIndex(s, x) <= k
    decreases k
  {
    if s[0] != x {
      FirstIsLeast(s[1..], x, k - 1);
    }
  }

  lemma {:induction false} LastIsGreatest(s: seq<string>, x: string, k: nat)
    requires k < |s| && s[k] == x
    ensures x in s && LastIndex(s, x) >= k
    decreases |s|
  {
    if s[|s| - 1] != x {
      LastIsGreatest(s[..|s| - 1], x, k);
    }
  }

  lemma ReversedAt(renewed: seq<string>, failed: string, k: nat)
    requires k <= |renewed|
    ensures ([failed] + Reversed(renewed))[k] == if k == 0 then failed else renewed[|renewed| - k]
  {
  }

  lemma FirstOfReversed(renewed: seq<string>, failed: string, x: string)
    requires x in renewed && x != failed
    ensures x in [failed] + Reversed(renewed)
    ensures FirstIndex([failed] + Reversed(renewed), x) == |renewed| - LastIndex(renewed, x)
  {
    var s, n := [failed] + Reversed(renewed), |renewed|;
    var last := LastIndex(renewed, x);
    ReversedAt(renewed, failed, n - last);
    FirstIsLeast(s, x, n - last);
    var first := FirstIndex(s, x);
    ReversedAt(renewed, failed, first);
    LastIsGreatest(renewed, x, n - first);
  }

  /** The failed node comes first; the others follow in reverse order of their last renewal; every
      node that was renewed or failed comes exactly once. */
  lemma RollbackOrderLaw(renewed: seq<string>, failed: string)
    ensures var r := RollbackOrder(renewed, failed);
      && r != [] && r[0] == failed
      && (forall x :: x in r <==> x == failed || x in renewed)
      && (forall i, j :: 0 <= i < j < |r| ==> r[i] != r[j])
      && (forall i, j :: 1 <= i < j < |r| ==> r[i] in renewed && r[j] in renewed && LastIndex(renewed, r[i]) > LastIndex(renewed, r[j]))
  {
    var s, r := [failed] + Reversed(renewed), RollbackOrder(renewed, failed);
    DedupMembers({}, s);
    DedupByFirst({}, s);
    assert s[0] == failed;
    forall x ensures x in Reversed(renewed) <==> x in renewed {
      if x in renewed { var i :| 0 <= i < |renewed| && renewed[i] == x; assert Reversed(renewed)[|renewed| - 1 - i] == x; }
    }
    forall i, j | 0 <= i < j < |r| ensures r[i] != r[j] {
      assert FirstIndex(s, r[i]) < FirstIndex(s, r[j]);
    }
    forall i, j | 1 <= i < j < |r|
      ensures r[i] in renewed && r[j] in renewed && LastIndex(renewed, r[i]) > LastIndex(renewed, r[j])
    {
      assert r[i] in r && r[j] in r && r[0] != r[i] && r[0] != r[j];
      FirstOfReversed(renewed, failed, r[i]);
      FirstOfReversed(renewed, failed, r[j]);
    }
  }

  // ---- one node ----

  datatype Plan = Plan(dirs: Dirs, restart: Setup, dryRun: bool, now: int)

  datatype NodeStep = NodeStep(disk: Disk, fates: seq<Fate>, out: Outcome, success: bool)

  /** The node map of a state that may be nil. */
  function NodesIn(s: Option<Snapshot>): Option<map<string, NodeState>> {
    if s.Some? then Some(s.value.nodes) else None
  }

  /** `rollbackNode`: out is Ok when the function returns, with or without success. It begins by
      reading the node map of the state, which panics if the state is nil. */
  function RollbackNode(plan: Plan, known: Option<map<string, NodeState>>, d: Disk, node: string, fates: seq<Fate>): NodeStep {
    if known.None? then NodeStep(d, fates, Panic, false) else RollbackKnown(plan, known.value, d, node, fates)
  }

  function RollbackKnown(plan: Plan, nodes: map<string, NodeState>, d: Disk, node: string, fates: seq<Fate>): NodeStep {
    if node !in nodes || nodes[node].backupPath == "" then NodeStep(d, fates, Ok, false)
    else if plan.dryRun then NodeStep(d, fates, Ok, true)
    else
      var restored := RestoreEffect(plan.dirs, d, nodes[node].backupPath, fates);
      if restored.out != Ok then NodeStep(restored.disk, restored.fates, if restored.out == Crash then Crash else Ok, false)
      else
        var restarted := RestartAllEffect(plan.restart, restored.disk, restored.fates);
        if restarted.out != Ok
        then NodeStep(restarted.disk, restarted.fates, if restarted.out in {Crash, Panic} then restarted.out else Ok, false)
        else
          var health := Ask(restarted.fates);
          NodeStep(restarted.disk, health.1, if health.0 == Crash then Crash else Ok, health.0 == Ok)
  }

  datatype RB = RB(disk: Disk, fates: seq<Fate>, state: Option<Snapshot>, file: StateFile, results: seq<RollbackResult>, out: Outcome)

  function Prefixed(results: seq<RollbackResult>, rest: RB): RB {
    RB(rest.disk, rest.fates, rest.state, rest.file, results + rest.results, rest.out)
  }

  lemma PrefixedTwice(a: seq<RollbackResult>, b: seq<RollbackResult>, rest: RB)
    ensures Prefixed(a, Prefixed(b, rest)) == Prefixed(a + b, rest)
  {
  }

  type NodeAction = (Option<map<string, NodeState>>, Disk, string, seq<Fate>) -> NodeStep

  function ActionOf(plan: Plan): NodeAction {
    (nodes, d, node, fates) => RollbackNode(plan, nodes, d, node, fates)
  }

  /** The loop of `RollbackAll` over the nodes that are left. A failing save is only logged; recording
      in a nil state panics. */
  function RollbackFrom(act: NodeAction, now: int, s: Option<Snapshot>, file: StateFile, d: Disk, nodes: seq<string>, fates: seq<Fate>): RB
    decreases |nodes|
  {
    if nodes == [] then RB(d, fates, s, file, [], Ok)
    else
      var r := act(NodesIn(s), d, nodes[0], fates);
      if r.out != Ok then RB(r.disk, r.fates, s, file, [], r.out)
      else if s.None? then RB(r.disk, r.fates, s, file, [], Panic)
      else
        var t := Changed(s.value, SetNodeRollback(nodes[0], !r.success), now);
        var saved := Save(t, file, r.fates);
        if saved.out == Crash then RB(r.disk, saved.fates, Some(t), saved.file, [RollbackResult(nodes[0], r.success)], Crash)
        else
          Prefixed([RollbackResult(nodes[0], r.success)], RollbackFrom(act, now, Some(t), saved.file, r.disk, nodes[1..], saved.fates))
  }

  function RollbackAllEffect(plan: Plan, s: Option<Snapshot>, file: StateFile, d: Disk, renewed: seq<string>, failed: string,
                             fates: seq<Fate>): RB {
    RollbackFrom(ActionOf(plan), plan.now, s, file, d, RollbackOrder(renewed, failed), fates)
  }

  predicate IsCritical(results: seq<RollbackResult>) {
    exists i :: 0 <= i < |results| && !results[i].success
  }

  method AnyCritical(results: seq<RollbackResult>) returns (r: bool)
    ensures r <==> IsCritical(results)
  {
    for i := 0 to |results|
      invariant forall j :: 0 <= j < i ==> results[j].success
    {
      if !results[i].success {
        return true;
      }
    }
    r := false;
  }

  /** The value behind a pointer to a state. */
  function ValueOf(s: StateObject?): Option<Snapshot>
    reads s
  {
    if s == null then None else Some(s.Value())
  }

  class RollbackManager {
    const plan: Plan
    const backups: Manager

    constructor (plan: Plan)
      ensures this.plan == plan && backups.dirs == plan.dirs
    {
      this.plan := plan;
      this.backups := new Manager(plan.dirs);
    }

    method RollbackOne(m: Machine, s: StateObject?, node: string) returns (success: bool, out: Outcome)
      requires backups.dirs == plan.dirs
      modifies m
      ensures NodeStep(m.Now(), m.fates, out, success) == RollbackNode(plan, NodesIn(ValueOf(s)), old(m.Now()), node, old(m.fates))
    {
      if s == null {
        return false, Panic;
      }
      if node !in s.nodes || s.nodes[node].backupPath == "" {
        return false, Ok;
      }
      if plan.dryRun {
        return true, Ok;
      }
      out := backups.Restore(m, s.nodes[node].backupPath);
      if out != Ok {
        return false, if out == Crash then Crash else Ok;
      }
      out := RestartAll(m, plan.restart);
      if out != Ok {
        return false, if out in {Crash, Panic} then out else Ok;
      }
      out := m.Call();
      return out == Ok, if out == Crash then Crash else Ok;
    }

    method RollbackAll(m: Machine, s: StateObject?, store: Store, renewed: array<string>, failed: string)
      returns (results: seq<RollbackResult>, out: Outcome)
      requires backups.dirs == plan.dirs
      modifies m, s, store
      ensures RB(m.Now(), m.fates, ValueOf(s), store.file, results, out)
           == RollbackAllEffect(plan, old(ValueOf(s)), old(store.file), old(m.Now()), renewed[..], failed, old(m.fates))
    {
      var unique := Order(renewed, failed);
      results := [];
      for i := 0 to |unique|
        invariant Prefixed(results, RollbackFrom(ActionOf(plan), plan.now, ValueOf(s), store.file, m.Now(), unique[i..], m.fates))
               == RollbackAllEffect(plan, old(ValueOf(s)), old(store.file), old(m.Now()), renewed[..], failed, old(m.fates))
      {
        assert unique[i..][0] == unique[i] && unique[i..][1..] == unique[i + 1..];
        var success;
        success, out := RollbackOne(m, s, unique[i]);
        if out != Ok {
          return;
        }
        out := s.RolledBack(m, store, unique[i], !success, plan.now);
        if out != Crash {
          PrefixedTwice(results, [RollbackResult(unique[i], success)],
                        RollbackFrom(ActionOf(plan), plan.now, ValueOf(s), store.file, m.Now(), unique[i + 1..], m.fates));
        }
        results := results + [RollbackResult(unique[i], success)];
        if out == Crash {
          return;
        }
      }
      out := Ok;
    }
  }
}
