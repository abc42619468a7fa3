/** The rotation state that is kept in memory and overwritten on disk after every change. */
module State {
  import opened Wrappers
  import opened Host

  datatype Phase = PhaseIdle | PhaseDetecting | PhaseRenewing(n: nat) | PhaseRollback(n: nat) | PhaseNotifying

  datatype NodeState = NodeState(
    node: string,
    backupPath: string,
    renewedAt: int,
    rolledBackAt: int,
    renewalFailed: bool,
    rollbackFailed: bool)

  datatype Snapshot = Snapshot(
    phase: Phase,
    startedAt: int,
    updatedAt: int,
    nodes: map<string, NodeState>,
    failedNode: string,
    failureStep: string,
    critical: bool)

  /** The file: a write that dies in the middle leaves bytes that do not parse. */
  datatype StateFile = Absent | Intact(snapshot: Snapshot) | Torn

  datatype Op =
    | SetPhase(phase: Phase)
    | SetNodeBackup(node: string, path: string)
    | SetNodeRenewed(node: string)
    | SetNodeRollback(node: string, failed: bool)
    | Reset

  const FRESH := Snapshot(PhaseIdle, 0, 0, map[], "", "", false)

  /** Reading a missing key of a Go map yields the zero value. */
  function Entry(nodes: map<string, NodeState>, node: string): NodeState {
    if node in nodes then nodes[node] else NodeState("", "", 0, 0, false, false)
  }

  /** The state in memory after a setter, with the time stamp that saving puts on it. */
  function Changed(s: Snapshot, op: Op, now: int): Snapshot {
    var t := match op
      case SetPhase(phase) => s.(phase := phase)
      case SetNodeBackup(node, path) =>
        s.(nodes := s.nodes[node := Entry(s.nodes, node).(node := node, backupPath := path)])
      case SetNodeRenewed(node) =>
        s.(nodes := s.nodes[node := Entry(s.nodes, node).(renewedAt := now)])
      case SetNodeRollback(node, failed) =>
        s.(nodes := s.nodes[node := Entry(s.nodes, node).(rolledBackAt := now, rollbackFailed := failed)],
           critical := s.critical || failed)
      case Reset =>
        s.(phase := PhaseIdle, nodes := map[], failedNode := "", failureStep := "", critical := false, startedAt := 0);
    t.(updatedAt := now)
  }

  datatype SaveStep = SaveStep(file: StateFile, fates: seq<Fate>, out: Outcome)

  /** The length of the encoded state. It matters only that a write can stop before it. */
  function Size(s: Snapshot): nat {
    1 + |s.nodes| + |s.failedNode| + |s.failureStep|
  }

  /** The file after a write of s that got as far as n bytes. */
  function Stopped(s: Snapshot, n: nat): StateFile {
    if n < Size(s) then Torn else Intact(s)
  }

  /** `Save`: create the directory, then overwrite the file. */
  function Save(s: Snapshot, file: StateFile, fates: seq<Fate>): SaveStep {
    var dir := Ask(fates);
    if dir.0 != Ok then SaveStep(file, dir.1, dir.0)
    else if dir.1 == [] then SaveStep(file, [], Crash)
    else match dir.1[0]
      case Done => SaveStep(Intact(s), dir.1[1..], Ok)
      case Refused => SaveStep(file, dir.1[1..], Err)
      case Partial(n) => SaveStep(Stopped(s, n), dir.1[1..], Err)
      case Killed(n) => SaveStep(Stopped(s, n), [], Crash)
  }

  datatype LoadStep = Readable(s: Snapshot) | Unreadable

  /** `Load`: a missing file means a fresh state, a torn one is an error. */
  function Load(file: StateFile): LoadStep {
    match file
    case Absent => Readable(FRESH)
    case Intact(s) => Readable(s)
    case Torn => Unreadable
  }

  /** The file object that survives the process. */
  class Store {
    var file: StateFile

    constructor (file: StateFile)
      ensures this.file == file
    {
      this.file := file;
    }

    method Write(m: Machine, s: Snapshot) returns (out: Outcome)
      modifies this, m`fates
      ensures SaveStep(file, m.fates, out) == Save(s, old(file), old(m.fates))
    {
      out := m.Call();
      if out != Ok {
        return;
      }
      if m.fates == [] {
        return Crash;
      }
      var fate := m.fates[0];
      m.fates := if fate.Killed? then [] else m.fates[1..];
      match fate {
        case Done =>
          file := Intact(s);
          out := Ok;
        case Refused =>
          out := Err;
        case Partial(n) =>
          file := Stopped(s, n);
          out := Err;
        case Killed(n) =>
          file := Stopped(s, n);
          out := Crash;
      }
    }
  }

  class StateObject {
    var phase: Phase
    var startedAt: int
    var updatedAt: int
    var nodes: map<string, NodeState>
    var failedNode: string
    var failureStep: string
    var critical: bool

    constructor (s: Snapshot)
      ensures Value() == s
    {
      phase, startedAt, updatedAt, nodes := s.phase, s.startedAt, s.updatedAt, s.nodes;
      failedNode, failureStep, critical := s.failedNode, s.failureStep, s.critical;
    }

    function Value(): Snapshot
      reads this
    {
      Snapshot(phase, startedAt, updatedAt, nodes, failedNode, failureStep, critical)
    }

    method SaveTo(m: Machine, store: Store, now: int) returns (out: Outcome)
      modifies this`updatedAt, store, m`fates
      ensures updatedAt == now
      ensures SaveStep(store.file, m.fates, out) == Save(Value(), old(store.file), old(m.fates))
    {
      updatedAt := now;
      out := store.Write(m, Value());
    }

    method Phased(m: Machine, store: Store, p: Phase, now: int) returns (out: Outcome)
      modifies this, store, m`fates
      ensures Value() == Changed(old(Value()), SetPhase(p), now)
      ensures SaveStep(store.file, m.fates, out) == Save(Value(), old(store.file), old(m.fates))
    {
      phase := p;
      out := SaveTo(m, store, now);
    }

    method BackedUp(m: Machine, store: Store, node: string, path: string, now: int) returns (out: Outcome)
      modifies this, store, m`fates
      ensures Value() == Changed(old(Value()), SetNodeBackup(node, path), now)
      ensures SaveStep(store.file, m.fates, out) == Save(Value(), old(store.file), old(m.fates))
    {
      var ns := Entry(nodes, node);
      nodes := nodes[node := ns.(node := node, backupPath := path)];
      out := SaveTo(m, store, now);
    }

    method Renewed(m: Machine, store: Store, node: string, now: int) returns (out: Outcome)
      modifies this, store, m`fates
      ensures Value() == Changed(old(Value()), SetNodeRenewed(node), now)
      ensures SaveStep(store.file, m.fates, out) == Save(Value(), old(store.file), old(m.fates))
    {
      var ns := Entry(nodes, node);
      nodes := nodes[node := ns.(renewedAt := now)];
      out := SaveTo(m, store, now);
    }

    method RolledBack(m: Machine, store: Store, node: string, failed: bool, now: int) returns (out: Outcome)
      modifies this, store, m`fates
      ensures Value() == Changed(old(Value()), SetNodeRollback(node, failed), now)
      ensures SaveStep(store.file, m.fates, out) == Save(Value(), old(store.file), old(m.fates))
    {
      var ns := Entry(nodes, node);
      nodes := nodes[node := ns.(rolledBackAt := now, rollbackFailed := failed)];
      if failed {
        critical := true;
      }
      out := SaveTo(m, store, now);
    }

    method Clear(m: Machine, store: Store, now: int) returns (out: Outcome)
      modifies this, store, m`fates
      ensures Value() == Changed(old(Value()), Reset, now)
      ensures SaveStep(store.file, m.fates, out) == Save(Value(), old(store.file), old(m.fates))
    {
      phase, nodes, failedNode, failureStep, critical, startedAt := PhaseIdle, map[], "", "", false, 0;
      out := SaveTo(m, store, now);
    }
  }

  // ---- runs of setters ----

  /** A failed rollback is never forgotten by the critical flag. */
  predicate Honest(s: Snapshot) {
    (exists n :: n in s.nodes && s.nodes[n].rollbackFailed) ==> s.critical
  }

  datatype Call = Call(op: Op, now: int)

  /** How far a save gets with the bytes of the state, if it gets to write. */
  function Reach(s: Snapshot, fates: seq<Fate>): Option<nat> {
    if Ask(fates).0 != Ok || Ask(fates).1 == [] then None
    else match Ask(fates).1[0]
      case Done => Some(Size(s))
      case Refused => None
      case Partial(n) => Some(n)
      case Killed(n) => Some(n)
  }

  predicate WritesAll(s: Snapshot, fates: seq<Fate>) {
    Reach(s, fates).Some? && Reach(s, fates).value >= Size(s)
  }

  predicate WritesPart(s: Snapshot, fates: seq<Fate>) {
    Reach(s, fates).Some? && Reach(s, fates).value < Size(s)
  }

  /** The state in memory and the file; and, read off the calls and the script alone, the memory at the
      last save that succeeded and at the last one that wrote all of it, and whether a later save
      wrote a part. */
  datatype Run = Run(memory: Snapshot, file: StateFile, saved: Option<Snapshot>, written: Option<Snapshot>, cut: bool,
                     fates: seq<Fate>, alive: bool)

  function Start(script: seq<Fate>): Run {
    Run(FRESH, Absent, None, None, false, script, true)
  }

  function Step(r: Run, c: Call): Run {
    if !r.alive then r
    else
      var s := Changed(r.memory, c.op, c.now);
      var w := Save(s, r.file, r.fates);
      Run(s, w.file,
          if w.out == Ok then Some(s) else r.saved,
          if WritesAll(s, r.fates) then Some(s) else r.written,
          if WritesAll(s, r.fates) then false else r.cut || WritesPart(s, r.fates),
          w.fates, w.out != Crash)
  }

  function RunAll(r: Run, calls: seq<Call>): Run
    decreases |calls|
  {
    if calls == [] then r else RunAll(Step(r, calls[0]), calls[1..])
  }

  /** The file is torn after a partial write, and else holds the last state written in full; that
      state is honest, as the memory is. */
  predicate Consistent(r: Run) {
    && Honest(r.memory) && Honest(r.written.GetOr(FRESH))
    && r.file == (if r.cut then Torn else if r.written.Some? then Intact(r.written.value) else Absent)
    && (r.written.None? ==> r.saved.None?)
  }

  lemma ChangedStaysHonest(s: Snapshot, op: Op, now: int)
    requires Honest(s)
    ensures Honest(Changed(s, op, now))
  {
    var t := Changed(s, op, now);
    if n :| n in t.nodes && t.nodes[n].rollbackFailed {
      if op.SetNodeRollback? && op.node == n {
      } else if n in s.nodes {
        assert s.nodes[n].rollbackFailed;
      }
    }
  }

  /** Over any run of setters, with any saves failing or dying, the file is torn or holds the memory at
      the last save that wrote all of it. Memory and file both show a failed rollback as critical. */
  lemma {:induction false} FileRefinesMemory(r: Run, calls: seq<Call>)
    requires Consistent(r)
    ensures Consistent(RunAll(r, calls))
    decreases |calls|
  {
    if calls != [] {
      ChangedStaysHonest(r.memory, calls[0].op, calls[0].now);
      FileRefinesMemory(Step(r, calls[0]), calls[1..]);
    }
  }

  /** Whatever happened, a process that restarts finds a state that is honest, or, exactly after a
      partial write, an error. What it finds is the last state that was saved successfully exactly when
      no other state was written in full since. */
  lemma RestartFindsHonestState(script: seq<Fate>, calls: seq<Call>)
    ensures var r := RunAll(Start(script), calls);
      && (Load(r.file).Unreadable? <==> r.cut)
      && (Load(r.file).Readable? ==> Honest(Load(r.file).s))
      && (Load(r.file) == Readable(r.saved.GetOr(FRESH)) <==> !r.cut && r.written.GetOr(FRESH) == r.saved.GetOr(FRESH))
  {
    FileRefinesMemory(Start(script), calls);
  }

  /** The two can differ: a save that dies after its last byte leaves a state that no successful save
      wrote. */
  lemma LateFailureIsRead(first: Call, second: Call)
    requires Changed(FRESH, first.op, first.now) != Changed(Changed(FRESH, first.op, first.now), second.op, second.now)
    ensures var s := Changed(FRESH, first.op, first.now);
      var t := Changed(s, second.op, second.now);
      var r := RunAll(Start([Done, Done, Done, Killed(Size(t))]), [first, second]);
      r.saved == Some(s) && r.written == Some(t) && Load(r.file) == Readable(t) && s != t
  {
    var s := Changed(FRESH, first.op, first.now);
    var t := Changed(s, second.op, second.now);
    var script := [Done, Done, Done, Killed(Size(t))];
    var start := Start(script);
    assert script[1..][1..] == [Done, Killed(Size(t))] && [Done, Killed(Size(t))][1..] == [Killed(Size(t))];
    assert [first, second][1..] == [second] && [second][1..] == [];
    assert Step(start, first) == Run(s, Intact(s), Some(s), Some(s), false, [Done, Killed(Size(t))], true);
    assert RunAll(Step(Step(start, first), second), []) == Step(Step(start, first), second);
  }

  /** Only a reset clears the critical flag. */
  lemma {:induction false} CriticalIsSticky(r: Run, calls: seq<Call>)
    requires r.memory.critical && forall c :: c in calls ==> !c.op.Reset?
    ensures RunAll(r, calls).memory.critical
    decreases |calls|
  {
    if calls != [] {
      assert calls[0] in calls && forall c :: c in calls[1..] ==> c in calls;
      CriticalIsSticky(Step(r, calls[0]), calls[1..]);
    }
  }

  // ---- what a run of setters leaves ----

  /** What the last call that says something about a node says. A reset is the last word on all of it. */
  function Last<T>(calls: seq<Call>, node: string, says: (Call, string) -> Option<T>): Option<T> {
    if calls == [] then None
    else
      var later := Last(calls[1..], node, says);
      if later.Some? then later else says(calls[0], node)
  }

  function SaysPath(c: Call, node: string): Option<string> {
    if c.op.SetNodeBackup? && c.op.node == node then Some(c.op.path) else if c.op.Reset? then Some("") else None
  }

  function SaysRenewedAt(c: Call, node: string): Option<int> {
    if c.op.SetNodeRenewed? && c.op.node == node then Some(c.now) else if c.op.Reset? then Some(0) else None
  }

  function SaysRolledBackAt(c: Call, node: string): Option<int> {
    if c.op.SetNodeRollback? && c.op.node == node then Some(c.now) else if c.op.Reset? then Some(0) else None
  }

  function SaysRollbackFailed(c: Call, node: string): Option<bool> {
    if c.op.SetNodeRollback? && c.op.node == node then Some(c.op.failed) else if c.op.Reset? then Some(false) else None
  }

  function SaysKnown(c: Call, node: string): Option<bool> {
    if c.op.Reset? then Some(false) else if !c.op.SetPhase? && c.op.node == node then Some(true) else None
  }

  function SaysPhase(c: Call, node: string): Option<Phase> {
    if c.op.SetPhase? then Some(c.op.phase) else if c.op.Reset? then Some(PhaseIdle) else None
  }

  /** A rollback that failed, of any node, makes the state critical. */
  function SaysCritical(c: Call, node: string): Option<bool> {
    if c.op.SetNodeRollback? && c.op.failed then Some(true) else if c.op.Reset? then Some(false) else None
  }

  function MemoryAfter(s: Snapshot, calls: seq<Call>): Snapshot
    decreases |calls|
  {
    if calls == [] then s else MemoryAfter(Changed(s, calls[0].op, calls[0].now), calls[1..])
  }

  /** Every field of the state, and of this node in it, is the last write to it, and else what it was. */
  predicate HoldsLastWrites(s: Snapshot, t: Snapshot, calls: seq<Call>, node: string) {
    && t.phase == Last(calls, "", SaysPhase).GetOr(s.phase)
    && t.critical == Last(calls, "", SaysCritical).GetOr(s.critical)
    && (node in t.nodes) == Last(calls, node, SaysKnown).GetOr(node in s.nodes)
    && Entry(t.nodes, node).backupPath == Last(calls, node, SaysPath).GetOr(Entry(s.nodes, node).backupPath)
    && Entry(t.nodes, node).renewedAt == Last(calls, node, SaysRenewedAt).GetOr(Entry(s.nodes, node).renewedAt)
    && Entry(t.nodes, node).rolledBackAt == Last(calls, node, SaysRolledBackAt).GetOr(Entry(s.nodes, node).rolledBackAt)
    && Entry(t.nodes, node).rollbackFailed == Last(calls, node, SaysRollbackFailed).GetOr(Entry(s.nodes, node).rollbackFailed)
  }

  lemma FirstLast<T>(c: Call, rest: seq<Call>, node: string, says: (Call, string) -> Option<T>, before: T)
    ensures Last([c] + rest, node, says).GetOr(before) == Last(rest, node, says).GetOr(says(c, node).GetOr(before))
  {
    assert ([c] + rest)[1..] == rest;
  }

  /** One call, field by field. */
  predicate HoldsOneWrite(s: Snapshot, t: Snapshot, c: Call, node: string) {
    && t.phase == SaysPhase(c, "").GetOr(s.phase)
    && t.critical == SaysCritical(c, "").GetOr(s.critical)
    && (node in t.nodes) == SaysKnown(c, node).GetOr(node in s.nodes)
    && Entry(t.nodes, node).backupPath == SaysPath(c, node).GetOr(Entry(s.nodes, node).backupPath)
    && Entry(t.nodes, node).renewedAt == SaysRenewedAt(c, node).GetOr(Entry(s.nodes, node).renewedAt)
    && Entry(t.nodes, node).rolledBackAt == SaysRolledBackAt(c, node).GetOr(Entry(s.nodes, node).rolledBackAt)
    && Entry(t.nodes, node).rollbackFailed == SaysRollbackFailed(c, node).GetOr(Entry(s.nodes, node).rollbackFailed)
  }

  lemma ChangedHoldsOneWrite(s: Snapshot, c: Call, node: string)
    ensures HoldsOneWrite(s, Changed(s, c.op, c.now), c, node)
  {
  }

  lemma FirstCall(s: Snapshot, next: Snapshot, t: Snapshot, c: Call, rest: seq<Call>, node: string)
    requires HoldsOneWrite(s, next, c, node) && HoldsLastWrites(next, t, rest, node)
    ensures HoldsLastWrites(s, t, [c] + rest, node)
  {
    FirstLast(c, rest, "", SaysPhase, s.phase);
    FirstLast(c, rest, "", SaysCritical, s.critical);
    FirstLast(c, rest, node, SaysKnown, node in s.nodes);
    FirstLast(c, rest, node, SaysPath, Entry(s.nodes, node).backupPath);
    FirstLast(c, rest, node, SaysRenewedAt, Entry(s.nodes, node).renewedAt);
    FirstLast(c, rest, node, SaysRolledBackAt, Entry(s.nodes, node).rolledBackAt);
    FirstLast(c, rest, node, SaysRollbackFailed, Entry(s.nodes, node).rollbackFailed);
  }

  /** After any run of setters every field is the last write to it. */
  lemma {:induction false} MemoryIsTheLastWrite(s: Snapshot, calls: seq<Call>, node: string)
    ensures HoldsLastWrites(s, MemoryAfter(s, calls), calls, node)
    ensures MemoryAfter(s, calls).updatedAt == if calls == [] then s.updatedAt else calls[|calls| - 1].now
    decreases |calls|
  {
    if calls != [] {
      var next, rest := Changed(s, calls[0].op, calls[0].now), calls[1..];
      MemoryIsTheLastWrite(next, rest, node);
      ChangedHoldsOneWrite(s, calls[0], node);
      FirstCall(s, next, MemoryAfter(next, rest), calls[0], rest, node);
      assert calls == [calls[0]] + rest;
    }
  }

  /** That is the memory of a process that lives on, whatever its saves did. */
  lemma {:induction false} RunKeepsMemory(r: Run, calls: seq<Call>)
    requires RunAll(r, calls).alive
    ensures r.alive && RunAll(r, calls).memory == MemoryAfter(r.memory, calls)
    decreases |calls|
  {
    if calls != [] {
      RunKeepsMemory(Step(r, calls[0]), calls[1..]);
    }
  }
}
