/** The resource as the controller holds it in memory: a structure of pointers, maps and slices
    that the helpers change in place, after setting a deep copy aside as the base of their patch. */
module ConfigObject {
  import opened Wrappers
  import opened Status
  import opened Conditions
  import opened Cluster

  class Time {
    var seconds: int

    constructor (seconds: int)
      ensures this.seconds == seconds
    {
      this.seconds := seconds;
    }

    method DeepCopy() returns (r: Time)
      ensures fresh(r) && r.seconds == seconds
    {
      r := new Time(seconds);
    }
  }

  /** The backing array of a slice. */
  class Slice<T> {
    var items: seq<T>

    constructor (items: seq<T>)
      ensures this.items == items
    {
      this.items := items;
    }
  }

  /** A struct in the node map: copying it copies its pointers and its slice header. */
  datatype NodeRecord = NodeRecord(
    node: string,
    phase: NodePhase,
    lastCheckedAt: Time?,
    lastRenewedAt: Time?,
    backupPath: string,
    failureReason: string,
    certs: Slice?<CertStatus>)

  function Seconds(t: Time?): Option<int>
    reads t
  {
    if t == null then None else Some(t.seconds)
  }

  function Items<T>(a: Slice?<T>): seq<T>
    reads a
  {
    if a == null then [] else a.items
  }

  /** Everything that a record points to belongs to a set. */
  predicate Within(r: NodeRecord, repr: set<object>) {
    && (r.lastCheckedAt != null ==> r.lastCheckedAt in repr)
    && (r.lastRenewedAt != null ==> r.lastRenewedAt in repr)
    && (r.certs != null ==> r.certs in repr)
  }

  function RecordValue(r: NodeRecord): NodeStatus
    reads r.lastCheckedAt, r.lastRenewedAt, r.certs
  {
    NodeStatus(r.node, r.phase, Seconds(r.lastCheckedAt), Seconds(r.lastRenewedAt), r.backupPath, r.failureReason, Items(r.certs))
  }

  method CopyTime(t: Time?) returns (r: Time?, ghost parts: set<object>)
    ensures fresh(parts) && (r != null ==> r in parts)
    ensures Seconds(r) == Seconds(t)
  {
    r, parts := null, {};
    if t != null {
      r := t.DeepCopy();
      parts := {r};
    }
  }

  method CopyItems<T>(a: Slice?<T>) returns (r: Slice?<T>, ghost parts: set<object>)
    ensures fresh(parts) && (r != null ==> r in parts)
    ensures Items(r) == Items(a)
  {
    r, parts := null, {};
    if a != null {
      r := new Slice(a.items);
      parts := {r};
    }
  }

  method CopyRecord(r: NodeRecord) returns (c: NodeRecord, ghost targets: set<object>)
    ensures fresh(targets) && Within(c, targets) && RecordValue(c) == RecordValue(r)
  {
    var checked, parts1 := CopyTime(r.lastCheckedAt);
    var renewed, parts2 := CopyTime(r.lastRenewedAt);
    var certs, parts3 := CopyItems(r.certs);
    c := NodeRecord(r.node, r.phase, checked, renewed, r.backupPath, r.failureReason, certs);
    targets := parts1 + parts2 + parts3;
  }

  /** The records consist of objects in repr, and their values are those of a status. */
  ghost predicate Shows(entries: map<string, NodeRecord>, values: map<string, NodeStatus>, repr: set<object>)
    reads repr
  {
    values.Keys == entries.Keys && forall n :: n in entries ==> Within(entries[n], repr) && RecordValue(entries[n]) == values[n]
  }

  /** The loop over the node map, record by record. */
  method CopyEntries(entries: map<string, NodeRecord>, ghost values: map<string, NodeStatus>, ghost leaves: set<object>)
    returns (copies: map<string, NodeRecord>, ghost targets: set<object>)
    requires Shows(entries, values, leaves)
    ensures fresh(targets) && Shows(copies, values, targets)
  {
    copies, targets := map[], {};
    var todo := entries.Keys;
    while todo != {}
      invariant todo <= entries.Keys && copies.Keys == entries.Keys - todo && fresh(targets)
      invariant forall n :: n in copies ==> Within(copies[n], targets) && RecordValue(copies[n]) == values[n]
    {
      var n :| n in todo;
      var c, more := CopyRecord(entries[n]);
      copies, targets := copies[n := c], targets + more;
      todo := todo - {n};
    }
  }

  /** A Go map is a reference: two structs that hold the same map see each other's changes. */
  class NodeTable {
    var entries: map<string, NodeRecord>

    constructor (entries: map<string, NodeRecord>)
      ensures this.entries == entries
    {
      this.entries := entries;
    }
  }

  lemma {:induction false} SetConditionAt(s: seq<Condition>, c: Condition, i: nat)
    requires i <= |s| && forall j :: 0 <= j < i ==> s[j].kind != c.kind
    ensures i == |s| ==> SetCondition(s, c) == s + [c]
    ensures i < |s| && s[i].kind == c.kind ==>
      SetCondition(s, c) == s[i := c.(lastTransition := if s[i].holds == c.holds then s[i].lastTransition else c.lastTransition)]
    decreases i
  {
    if i > 0 {
      SetConditionAt(s[1..], c, i - 1);
    }
  }

  /** `meta.SetStatusCondition`: overwrite the condition of the same kind in place, or append. */
  method SetStatusCondition(conditions: Slice?<Condition>, c: Condition) returns (r: Slice<Condition>)
    modifies conditions
    ensures r.items == SetCondition(old(Items(conditions)), c)
    ensures r == conditions || fresh(r)
  {
    var items := Items(conditions);
    for i := 0 to |items|
      invariant Items(conditions) == items
      invariant forall j :: 0 <= j < i ==> items[j].kind != c.kind
    {
      if items[i].kind == c.kind {
        SetConditionAt(items, c, i);
        var stamp := if items[i].holds == c.holds then items[i].lastTransition else c.lastTransition;
        conditions.items := conditions.items[i := c.(lastTransition := stamp)];
        return conditions;
      }
    }
    SetConditionAt(items, c, |items|);
    r := new Slice(items + [c]);
  }

  method AllOk(certs: seq<CertStatus>) returns (ok: bool)
    ensures ok <==> forall i :: 0 <= i < |certs| ==> certs[i].status == "OK"
  {
    ok := true;
    for i := 0 to |certs|
      invariant ok <==> forall j :: 0 <= j < i ==> certs[j].status == "OK"
    {
      if certs[i].status != "OK" {
        ok := false;
      }
    }
  }

  lemma ShowsWithin(entries: map<string, NodeRecord>, values: map<string, NodeStatus>, leaves: set<object>, more: set<object>)
    requires Shows(entries, values, leaves) && leaves <= more
    ensures Shows(entries, values, more)
  {
  }

  lemma ShowsOneMore(entries: map<string, NodeRecord>, values: map<string, NodeStatus>, leaves: set<object>, n: string, r: NodeRecord)
    requires Shows(entries, values, leaves) && Within(r, leaves)
    ensures Shows(entries[n := r], values[n := RecordValue(r)], leaves)
  {
  }

  class Config {
    var phase: Option<ClusterPhase>
    var lastCheckedAt: Time?
    var lastRenewedAt: Time?
    var nodes: NodeTable?
    var conditions: Slice?<Condition>
    ghost var View: ClusterStatus
    ghost var Leaves: set<object>

    /** The resource shows the status View; times and certificate lists are among the Leaves. */
    ghost predicate Valid()
      reads this, nodes, conditions, Leaves
    {
      && this !in Leaves && nodes !in Leaves && conditions !in Leaves
      && (lastCheckedAt != null ==> lastCheckedAt in Leaves)
      && (lastRenewedAt != null ==> lastRenewedAt in Leaves)
      && View.phase == phase && View.lastCheckedAt == Seconds(lastCheckedAt)
      && View.lastRenewedAt == Seconds(lastRenewedAt) && View.conditions == Items(conditions)
      && (if nodes == null then View.nodes == map[] else Shows(nodes.entries, View.nodes, Leaves))
    }

    constructor (phase: Option<ClusterPhase>, lastCheckedAt: Time?, lastRenewedAt: Time?, nodes: NodeTable?, conditions: Slice?<Condition>,
                 ghost view: ClusterStatus, ghost leaves: set<object>)
      requires lastCheckedAt != null ==> lastCheckedAt in leaves
      requires lastRenewedAt != null ==> lastRenewedAt in leaves
      requires nodes !in leaves && conditions !in leaves
      requires view.phase == phase && view.lastCheckedAt == Seconds(lastCheckedAt)
      requires view.lastRenewedAt == Seconds(lastRenewedAt) && view.conditions == Items(conditions)
      requires if nodes == null then view.nodes == map[] else Shows(nodes.entries, view.nodes, leaves)
      ensures Valid() && View == view && Leaves == leaves && this.nodes == nodes && this.conditions == conditions
    {
      this.phase, this.lastCheckedAt, this.lastRenewedAt, this.nodes, this.conditions :=
        phase, lastCheckedAt, lastRenewedAt, nodes, conditions;
      this.View, this.Leaves := view, leaves;
    }

    method Put(node: string, r: NodeRecord)
      requires Valid() && nodes != null && Within(r, Leaves)
      modifies this`View, nodes
      ensures Valid() && nodes.entries == old(nodes.entries)[node := r]
      ensures View == old(View).(nodes := old(View).nodes[node := RecordValue(r)])
    {
      ghost var entries, values := nodes.entries, View.nodes;
      nodes.entries := nodes.entries[node := r];
      View := View.(nodes := View.nodes[node := RecordValue(r)]);
      ShowsOneMore(entries, values, Leaves, node, r);
    }

    method DeepCopy() returns (out: Config)
      requires Valid()
      ensures out.Valid() && out.View == View && Apart(this, out) && fresh(out) && fresh(out.Leaves)
      ensures (out.nodes != null ==> fresh(out.nodes)) && (out.conditions != null ==> fresh(out.conditions))
    {
      var checked, parts1 := CopyTime(lastCheckedAt);
      var renewed, parts2 := CopyTime(lastRenewedAt);
      var conds, _ := CopyItems(conditions);
      ghost var leaves := parts1 + parts2;
      if nodes == null {
        out := new Config(phase, checked, renewed, null, conds, View, leaves);
      } else {
        var copies, targets := CopyEntries(nodes.entries, View.nodes, Leaves);
        var table := new NodeTable(copies);
        ShowsWithin(copies, View.nodes, targets, leaves + targets);
        out := new Config(phase, checked, renewed, table, conds, View, leaves + targets);
      }
    }

    method EnsureNodes(node: string)
      requires Valid()
      modifies this`View, this`nodes, nodes
      ensures Valid() && nodes != null && node in nodes.entries && (nodes == old(nodes) || fresh(nodes))
      ensures View == old(View).(nodes := old(View).nodes[node := Ensured(Lookup(old(View).nodes, node), node)])
    {
      if nodes == null {
        nodes := new NodeTable(map[]);
      }
      if node !in nodes.entries {
        Put(node, NodeRecord(node, Idle, null, null, "", "", null));
      }
    }

    method OwnRecord(node: string) returns (ns: NodeRecord)
      requires Valid()
      modifies this`View, this`nodes, nodes
      ensures Valid() && nodes != null && (nodes == old(nodes) || fresh(nodes)) && Within(ns, Leaves)
      ensures View == old(View).(nodes := old(View).nodes[node := RecordValue(ns)])
      ensures RecordValue(ns) == Ensured(Lookup(old(View).nodes, node), node)
    {
      EnsureNodes(node);
      ns := nodes.entries[node];
    }

    /** Storing the changed record completes what a helper does to the own entry. */
    method Replace(node: string, r: NodeRecord, ghost before: ClusterStatus, ghost h: Helper)
      requires Valid() && nodes != null && Within(r, Leaves) && !h.UpdateConditions?
      requires View == before.(nodes := before.nodes[node := Ensured(Lookup(before.nodes, node), node)])
      requires RecordValue(r) == Entered(before, node, h)
      modifies this`View, nodes
      ensures Valid() && View == before.(nodes := before.nodes[node := Entered(before, node, h)])
    {
      Put(node, r);
      StoredTwice(before.nodes, node, Ensured(Lookup(before.nodes, node), node), RecordValue(r));
    }

    method ChangePhase(node: string, h: Helper)
      requires Valid() && (h.SetPhase? || h.SetBackupPath?)
      modifies this`View, this`nodes, nodes
      ensures Valid() && (nodes == old(nodes) || fresh(nodes)) && View == Mutate(old(View), node, h)
    {
      ghost var before := View;
      var ns := OwnRecord(node);
      ValueWith(ns, before, node, h, ns.lastRenewedAt, ns.lastCheckedAt, ns.certs);
      Replace(node, With(ns, node, h, ns.lastRenewedAt, ns.lastCheckedAt, ns.certs), before, h);
    }

    /** The entry and the status get the same pointer. */
    method ChangeRenewed(node: string, h: Helper)
      requires Valid() && h.SetRenewed?
      modifies this`View, this`nodes, this`lastRenewedAt, this`Leaves, nodes
      ensures Valid() && (nodes == old(nodes) || fresh(nodes)) && fresh(Leaves - old(Leaves)) && View == Mutate(old(View), node, h)
    {
      var t := NewTime(h.renewedAt);
      StoreRenewed(node, h, t);
      PointRenewed(t);
    }

    method StoreRenewed(node: string, h: Helper, t: Time)
      requires Valid() && h.SetRenewed? && t in Leaves && t.seconds == h.renewedAt
      modifies this`View, this`nodes, nodes
      ensures Valid() && (nodes == old(nodes) || fresh(nodes))
      ensures View == old(View).(nodes := old(View).nodes[node := Entered(old(View), node, h)])
    {
      ghost var before := View;
      var ns := OwnRecord(node);
      ValueWith(ns, before, node, h, t, ns.lastCheckedAt, ns.certs);
      Replace(node, With(ns, node, h, t, ns.lastCheckedAt, ns.certs), before, h);
    }

    method PointRenewed(t: Time)
      requires Valid() && t in Leaves
      modifies this`lastRenewedAt, this`View
      ensures Valid() && View == old(View).(lastRenewedAt := Some(t.seconds))
    {
      lastRenewedAt := t;
      View := View.(lastRenewedAt := Some(t.seconds));
    }

    /** The caller's slice is stored as it is, and the time twice. */
    method ChangeCerts(node: string, h: Helper)
      requires Valid() && h.SetCertStatus?
      modifies this`View, this`nodes, this`lastCheckedAt, this`Leaves, nodes
      ensures Valid() && (nodes == old(nodes) || fresh(nodes)) && fresh(Leaves - old(Leaves)) && View == Mutate(old(View), node, h)
    {
      var certs := NewCerts(h.certs);
      var t := NewTime(h.checkedAt);
      StoreCerts(node, h, certs, t);
      PointChecked(t);
    }

    method StoreCerts(node: string, h: Helper, certs: Slice<CertStatus>, t: Time)
      requires Valid() && h.SetCertStatus? && t in Leaves && t.seconds == h.checkedAt && certs in Leaves && certs.items == h.certs
      modifies this`View, this`nodes, nodes
      ensures Valid() && (nodes == old(nodes) || fresh(nodes))
      ensures View == old(View).(nodes := old(View).nodes[node := Entered(old(View), node, h)])
    {
      ghost var before := View;
      var ns := OwnRecord(node);
      ValueWith(ns, before, node, h, ns.lastRenewedAt, t, certs);
      Replace(node, With(ns, node, h, ns.lastRenewedAt, t, certs), before, h);
    }

    method PointChecked(t: Time)
      requires Valid() && t in Leaves
      modifies this`lastCheckedAt, this`View
      ensures Valid() && View == old(View).(lastCheckedAt := Some(t.seconds))
    {
      lastCheckedAt := t;
      View := View.(lastCheckedAt := Some(t.seconds));
    }

    method NewTime(seconds: int) returns (t: Time)
      requires Valid()
      modifies this`Leaves
      ensures Valid() && fresh(t) && t.seconds == seconds && Leaves == old(Leaves) + {t}
    {
      t := new Time(seconds);
      Adopt({t});
    }

    method NewCerts(certs: seq<CertStatus>) returns (slice: Slice<CertStatus>)
      requires Valid()
      modifies this`Leaves
      ensures Valid() && fresh(slice) && slice.items == certs && Leaves == old(Leaves) + {slice}
    {
      slice := new Slice(certs);
      Adopt({slice});
    }

    /** The flags are found in a loop over the entries; the conditions are overwritten in place. */
    method ChangeConditions(h: Helper)
      requires Valid() && h.UpdateConditions?
      modifies this`View, this`conditions, this`phase, conditions
      ensures Valid() && (conditions == old(conditions) || fresh(conditions)) && View == Summarised(old(View), h.now)
    {
      ghost var v0 := View;
      var healthy, renewing, critical := ScanEntries();
      SetTwo(HealthyCondition(healthy, h.now), RenewingCondition(renewing, h.now));
      ghost var v2 := View;
      SetPhaseAnd(if critical then ClusterFailed else if renewing then ClusterRenewing else ClusterIdle, CriticalCondition(critical, h.now));
      SummaryInSteps(v0, v2, View, h.now);
    }

    method SetTwo(c: Condition, d: Condition)
      requires Valid()
      modifies this`View, this`conditions, conditions
      ensures Valid() && (conditions == old(conditions) || fresh(conditions))
      ensures View == old(View).(conditions := SetCondition(SetCondition(old(View).conditions, c), d))
    {
      SetOne(c);
      SetOne(d);
    }

    method SetPhaseAnd(p: ClusterPhase, c: Condition)
      requires Valid()
      modifies this`View, this`phase, this`conditions, conditions
      ensures Valid() && (conditions == old(conditions) || fresh(conditions))
      ensures View == old(View).(phase := Some(p), conditions := SetCondition(old(View).conditions, c))
    {
      phase := Some(p);
      View := View.(phase := Some(p));
      SetOne(c);
    }

    method SetOne(c: Condition)
      requires Valid()
      modifies this`View, this`conditions, conditions
      ensures Valid() && (conditions == old(conditions) || fresh(conditions))
      ensures View == old(View).(conditions := SetCondition(old(View).conditions, c))
    {
      conditions := SetStatusCondition(conditions, c);
      View := View.(conditions := SetCondition(View.conditions, c));
    }

    /** Go visits a map in no particular order; the flags come out the same for every order. */
    method ScanEntries() returns (healthy: bool, renewing: bool, critical: bool)
      requires Valid()
      ensures critical <==> AnyCritical(View.nodes)
      ensures renewing <==> AnyRenewing(View.nodes)
      ensures healthy <==> AllHealthy(View.nodes)
    {
      healthy, renewing, critical := true, false, false;
      if nodes == null {
        return;
      }
      var todo := nodes.entries.Keys;
      ghost var seen: map<string, NodeStatus> := map[];
      while todo != {}
        invariant todo <= nodes.entries.Keys && seen.Keys == nodes.entries.Keys - todo
        invariant forall n :: n in seen ==> seen[n] == View.nodes[n]
        invariant critical == AnyCritical(seen) && renewing == AnyRenewing(seen) && healthy == AllHealthy(seen)
      {
        var n :| n in todo;
        var ns := nodes.entries[n];
        SeeOneMore(seen, n, View.nodes[n]);
        match ns.phase {
          case Critical => critical, healthy := true, false;
          case Renewing => renewing := true;
          case RollingBack => renewing := true;
          case Failed => healthy := false;
          case _ =>
        }
        var ok := AllOk(Items(ns.certs));
        healthy := healthy && ok;
        seen := seen[n := View.nodes[n]];
        todo := todo - {n};
      }
      assert seen == View.nodes;
    }

    method Change(node: string, h: Helper)
      requires Valid()
      modifies this, nodes, conditions
      ensures Valid() && View == Mutate(old(View), node, h)
      ensures (nodes == old(nodes) || fresh(nodes)) && (conditions == old(conditions) || fresh(conditions)) && fresh(Leaves - old(Leaves))
    {
      match h {
        case SetPhase(_, _) => ChangePhase(node, h);
        case SetBackupPath(_) => ChangePhase(node, h);
        case SetRenewed(_) => ChangeRenewed(node, h);
        case SetCertStatus(_, _) => ChangeCerts(node, h);
        case UpdateConditions(_) => ChangeConditions(h);
      }
    }

    /** A resource that shares nothing with this one does not notice. */
    method ChangeBeside(node: string, h: Helper, ghost base: Config)
      requires Valid() && base.Valid() && Apart(this, base)
      modifies this, nodes, conditions
      ensures base.Valid() && base.View == old(base.View) && Apart(this, base)
      ensures Valid() && View == Mutate(old(View), node, h)
      ensures (nodes == old(nodes) || fresh(nodes)) && (conditions == old(conditions) || fresh(conditions))
    {
      Change(node, h);
    }

    /** What each of the five helpers does before it sends its patch: the base that is set aside
        and the changed resource are the two documents whose difference travels. */
    method Prepare(node: string, h: Helper) returns (base: Config)
      requires Valid()
      modifies this, nodes, conditions
      ensures base.Valid() && base.View == old(View) && Apart(this, base)
      ensures Valid() && View == Mutate(old(View), node, h)
    {
      base := DeepCopy();
      ChangeBeside(node, h, base);
    }

    /** A snapshot is not affected by any sequence of changes. */
    method PrepareAll(node: string, hs: seq<Helper>) returns (base: Config)
      requires Valid()
      modifies this, nodes, conditions
      ensures base.Valid() && base.View == old(View) && Apart(this, base)
      ensures Valid() && View == MutateAll(old(View), node, hs)
    {
      base := DeepCopy();
      for i := 0 to |hs|
        invariant base.Valid() && base.View == old(View) && Apart(this, base)
        invariant Valid() && MutateAll(View, node, hs[i..]) == MutateAll(old(View), node, hs)
        invariant (nodes == old(nodes) || fresh(nodes)) && (conditions == old(conditions) || fresh(conditions))
      {
        assert hs[i..][0] == hs[i] && hs[i..][1..] == hs[i + 1..];
        ChangeBeside(node, hs[i], base);
      }
    }

    /** New leaves, not yet pointed to. */
    ghost method Adopt(more: set<object>)
      requires Valid() && this !in more && nodes !in more && conditions !in more
      modifies this`Leaves
      ensures Valid() && Leaves == old(Leaves) + more
    {
      if nodes != null {
        ShowsWithin(nodes.entries, View.nodes, Leaves, Leaves + more);
      }
      Leaves := Leaves + more;
    }
  }

  /** Two resources that have no object in common. */
  ghost predicate Apart(a: Config, b: Config)
    reads a, b
  {
    && a != b && (a.nodes == b.nodes ==> a.nodes == null) && (a.conditions == b.conditions ==> a.conditions == null)
    && a !in b.Leaves && a.nodes !in b.Leaves && a.conditions !in b.Leaves
    && b !in a.Leaves && b.nodes !in a.Leaves && b.conditions !in a.Leaves && a.Leaves !! b.Leaves
  }

  lemma SummaryInSteps(v0: ClusterStatus, v2: ClusterStatus, v3: ClusterStatus, now: int)
    requires v2 == v0.(conditions := SetCondition(SetCondition(v0.conditions, HealthyCondition(AllHealthy(v0.nodes), now)), RenewingCondition(AnyRenewing(v0.nodes), now)))
    requires v3 == v2.(phase := Some(SummaryPhase(v0.nodes)), conditions := SetCondition(v2.conditions, CriticalCondition(AnyCritical(v0.nodes), now)))
    ensures v3 == Summarised(v0, now)
  {
  }

  /** The own entry after a helper. */
  function Entered(st: ClusterStatus, node: string, h: Helper): NodeStatus
    requires !h.UpdateConditions?
  {
    MutateOwn(Lookup(st.nodes, node), node, h).value
  }

  /** The struct that a helper stores; renewed, checked and certs are the pointers it stores. */
  function With(ns: NodeRecord, node: string, h: Helper, renewed: Time?, checked: Time?, certs: Slice?<CertStatus>): NodeRecord {
    match h
    case SetPhase(phase, reason) =>
      NodeRecord(node, phase, checked, renewed, ns.backupPath, if reason != "" then reason else ns.failureReason, certs)
    case SetBackupPath(path) => NodeRecord(ns.node, ns.phase, checked, renewed, path, ns.failureReason, certs)
    case SetRenewed(_) => NodeRecord(ns.node, Idle, checked, renewed, ns.backupPath, "", certs)
    case _ => NodeRecord(ns.node, ns.phase, checked, renewed, ns.backupPath, ns.failureReason, certs)
  }

  lemma ValueWith(ns: NodeRecord, st: ClusterStatus, node: string, h: Helper, renewed: Time?, checked: Time?, certs: Slice?<CertStatus>)
    requires !h.UpdateConditions? && RecordValue(ns) == Ensured(Lookup(st.nodes, node), node)
    requires Seconds(renewed) == if h.SetRenewed? then Some(h.renewedAt) else Seconds(ns.lastRenewedAt)
    requires Seconds(checked) == if h.SetCertStatus? then Some(h.checkedAt) else Seconds(ns.lastCheckedAt)
    requires Items(certs) == if h.SetCertStatus? then h.certs else Items(ns.certs)
    ensures RecordValue(With(ns, node, h, renewed, checked, certs)) == Entered(st, node, h)
  {
  }

  lemma StoredTwice(nodes: map<string, NodeStatus>, node: string, first: NodeStatus, second: NodeStatus)
    ensures nodes[node := first][node := second] == nodes[node := second]
  {
  }
}
