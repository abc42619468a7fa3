/** Many pods, one status object. Every pod changes its own copy of the whole status with one of
    five helpers and sends the difference; the copies may be arbitrarily stale. */
module Cluster {
  import opened Wrappers
  import opened MergePatch
  import opened Status
  import opened Conditions

  datatype Helper =
    | SetPhase(phase: NodePhase, reason: string)
    | SetBackupPath(path: string)
    | SetRenewed(renewedAt: int)
    | SetCertStatus(certs: seq<CertStatus>, checkedAt: int)
    | UpdateConditions(now: int)

  function Lookup(nodes: map<string, NodeStatus>, node: string): Option<NodeStatus> {
    if node in nodes then Some(nodes[node]) else None
  }

  /** `ensureNodes`: the pod's entry, created idle when it is missing. */
  function Ensured(own: Option<NodeStatus>, node: string): NodeStatus {
    own.GetOr(NodeStatus(node, Idle, None, None, "", "", []))
  }

  /** The pod's own entry after a helper changed it. */
  function MutateOwn(own: Option<NodeStatus>, node: string, h: Helper): Option<NodeStatus> {
    var ns := Ensured(own, node);
    match h
    case SetPhase(phase, reason) =>
      Some(ns.(phase := phase, node := node, failureReason := if reason != "" then reason else ns.failureReason))
    case SetBackupPath(path) => Some(ns.(backupPath := path))
    case SetRenewed(at) => Some(ns.(phase := Idle, lastRenewedAt := Some(at), failureReason := ""))
    case SetCertStatus(certs, at) => Some(ns.(certs := certs, lastCheckedAt := Some(at)))
    case UpdateConditions(_) => own
  }

  /** The pod's whole copy after a helper changed it. */
  function Mutate(st: ClusterStatus, node: string, h: Helper): ClusterStatus {
    if h.UpdateConditions? then Summarised(st, h.now)
    else
      var nodes := st.nodes[node := MutateOwn(Lookup(st.nodes, node), node, h).value];
      match h
      case SetRenewed(at) => st.(nodes := nodes, lastRenewedAt := Some(at))
      case SetCertStatus(_, at) => st.(nodes := nodes, lastCheckedAt := Some(at))
      case _ => st.(nodes := nodes)
  }

  function MutateAll(st: ClusterStatus, node: string, hs: seq<Helper>): ClusterStatus
    decreases |hs|
  {
    if hs == [] then st else MutateAll(Mutate(st, node, hs[0]), node, hs[1..])
  }

  function ClusterPhaseName(p: ClusterPhase): string {
    match p
    case ClusterIdle => "Idle"
    case ClusterRenewing => "Renewing"
    case ClusterFailed => "Failed"
  }

  function EncodeCondition(c: Condition): Json {
    Obj(map["type" := Str(c.kind), "status" := Str(if c.holds then "True" else "False"),
            "reason" := Str(c.reason), "lastTransitionTime" := Num(c.lastTransition)])
  }

  function EncodeConditions(conditions: seq<Condition>): Option<Json> {
    if conditions == [] then None
    else Some(Arr(seq(|conditions|, i requires 0 <= i < |conditions| => EncodeCondition(conditions[i]))))
  }

  function EncodeNodes(nodes: map<string, NodeStatus>): Option<Json> {
    if nodes == map[] then None else Some(Obj(map n | n in nodes :: EncodeNode(nodes[n])))
  }

  function StatusMember(st: ClusterStatus, key: string): Option<Json> {
    if key == "nodes" then EncodeNodes(st.nodes)
    else if key == "phase" then (if st.phase.Some? then Some(Str(ClusterPhaseName(st.phase.value))) else None)
    else if key == "lastCheckedAt" then EncodeTime(st.lastCheckedAt)
    else if key == "lastRenewedAt" then EncodeTime(st.lastRenewedAt)
    else if key == "conditions" then EncodeConditions(st.conditions)
    else None
  }

  const STATUS_KEYS: set<string> := {"nodes", "phase", "lastCheckedAt", "lastRenewedAt", "conditions"}

  /** The part of the resource that status patches can differ in. */
  function Encode(st: ClusterStatus): Json {
    Obj(map["status" := Obj(map k | k in STATUS_KEYS && StatusMember(st, k).Some? :: StatusMember(st, k).value)])
  }

  function Entry(node: string): seq<string> {
    ["status", "nodes", node]
  }

  datatype Event = Patch(pod: string, view: ClusterStatus, helper: Helper)

  /** The server takes one status patch. */
  function Serve(doc: Json, e: Event): Json {
    Apply(doc, Diff(Encode(e.view), Encode(Mutate(e.view, e.pod, e.helper))))
  }

  function ServeAll(doc: Json, events: seq<Event>): Json
    decreases |events|
  {
    if events == [] then doc else ServeAll(Serve(doc, events[0]), events[1..])
  }

  /** What an event means for the entry of `node`, seen from that entry alone. */
  function OwnStep(here: Option<Json>, node: string, e: Event): Option<Json> {
    if e.pod != node then here
    else
      var own := Lookup(e.view.nodes, node);
      PatchAt(here, EncodeEntry(own), EncodeEntry(MutateOwn(own, node, e.helper)))
  }

  function OwnRun(here: Option<Json>, node: string, events: seq<Event>): Option<Json>
    decreases |events|
  {
    if events == [] then here else OwnRun(OwnStep(here, node, events[0]), node, events[1..])
  }

  function OwnEvents(events: seq<Event>, node: string): seq<Event> {
    if events == [] then []
    else (if events[0].pod == node then [events[0]] else []) + OwnEvents(events[1..], node)
  }

  lemma AtNodes(doc: Json, node: string)
    ensures At(doc, ["status", "nodes"]) == match Get(doc, "status") case None => None case Some(s) => Get(s, "nodes")
    ensures At(doc, Entry(node)) == match At(doc, ["status", "nodes"]) case None => None case Some(all) => Get(all, node)
  {
    assert Entry(node)[1..] == ["nodes", node] && ["nodes", node][1..] == [node] && [node][1..] == [];
    assert ["status", "nodes"][1..] == ["nodes"] && ["nodes"][1..] == [];
    if Get(doc, "status").Some? {
      var s := Get(doc, "status").value;
      assert At(s, ["nodes"]) == match Get(s, "nodes") case None => None case Some(all) => At(all, []);
      assert At(s, ["nodes", node]) == match Get(s, "nodes") case None => None case Some(all) => At(all, [node]);
      if Get(s, "nodes").Some? {
        var all := Get(s, "nodes").value;
        assert At(all, [node]) == match Get(all, node) case None => None case Some(x) => At(x, []);
      }
    }
  }

  lemma EntryOf(st: ClusterStatus, node: string)
    ensures At(Encode(st), Entry(node)) == EncodeEntry(Lookup(st.nodes, node))
    ensures At(Encode(st), ["status", "nodes"]) == EncodeNodes(st.nodes)
    ensures Leads(Encode(st), ["status", "nodes"])
    ensures st.nodes != map[] ==> Leads(Encode(st), Entry(node))
  {
    AtNodes(Encode(st), node);
    var s := Encode(st).fields["status"];
    assert Get(s, "nodes") == EncodeNodes(st.nodes);
    assert Entry(node)[1..] == ["nodes", node] && ["nodes", node][1..] == [node];
    assert ["status", "nodes"][1..] == ["nodes"];
    if st.nodes != map[] {
      assert Leads(s, ["nodes", node]);
    }
  }

  /** One patch acts on the entry of `node` as the entry alone predicts; a patch of another pod
      not at all. */
  lemma ServeIsOwnStep(doc: Json, node: string, e: Event)
    requires doc.Obj?
    ensures Serve(doc, e).Obj?
    ensures At(Serve(doc, e), Entry(node)) == OwnStep(At(doc, Entry(node)), node, e)
  {
    var after := Mutate(e.view, e.pod, e.helper);
    EntryOf(e.view, node);
    EntryOf(after, node);
    if e.helper.UpdateConditions? {
      PatchIsLocal(doc, Encode(e.view), Encode(after), ["status", "nodes"]);
      AtNodes(doc, node);
      AtNodes(Serve(doc, e), node);
    } else {
      assert e.pod in after.nodes;
      PatchIsLocal(doc, Encode(e.view), Encode(after), Entry(node));
    }
  }

  /** Projection: for any number of pods, any interleaving and any staleness of their copies, the
      entry of a node after the run is what that node's own patches make of it in their order. */
  lemma {:induction false} EntriesEvolveIndependently(doc: Json, node: string, events: seq<Event>)
    requires doc.Obj?
    ensures At(ServeAll(doc, events), Entry(node)) == OwnRun(At(doc, Entry(node)), node, OwnEvents(events, node))
    decreases |events|
  {
    if events != [] {
      var e := events[0];
      ServeIsOwnStep(doc, node, e);
      EntriesEvolveIndependently(Serve(doc, e), node, events[1..]);
      var mine := OwnEvents(events, node);
      if e.pod == node {
        assert mine[0] == e && mine[1..] == OwnEvents(events[1..], node);
      } else {
        assert mine == OwnEvents(events[1..], node);
      }
    }
  }

  /** Every own patch of `node` was computed from the entry its previous one left behind, starting
      from `own`. Nothing is asked about any other part of the copies. */
  predicate FreshChain(events: seq<Event>, node: string, own: Option<NodeStatus>) {
    events != [] ==>
      if events[0].pod == node
      then Lookup(events[0].view.nodes, node) == own && FreshChain(events[1..], node, MutateOwn(own, node, events[0].helper))
      else FreshChain(events[1..], node, own)
  }

  function FoldOwn(events: seq<Event>, node: string, own: Option<NodeStatus>): Option<NodeStatus> {
    if events == [] then own
    else FoldOwn(events[1..], node, if events[0].pod == node then MutateOwn(own, node, events[0].helper) else own)
  }

  /** A pod that read its own entry freshly finds on the server exactly what it has locally after
      all its patches, whatever the other pods did in between. */
  lemma {:induction false} FreshPodIsObeyed(doc: Json, node: string, events: seq<Event>, own: Option<NodeStatus>)
    requires doc.Obj? && At(doc, Entry(node)) == EncodeEntry(own)
    requires FreshChain(events, node, own)
    ensures At(ServeAll(doc, events), Entry(node)) == EncodeEntry(FoldOwn(events, node, own))
    decreases |events|
  {
    if events != [] {
      var e := events[0];
      ServeIsOwnStep(doc, node, e);
      var next := if e.pod == node then MutateOwn(own, node, e.helper) else own;
      if e.pod == node {
        if next.Some? { EncodeNodeNullFree(next.value); }
        FreshPatchStores(EncodeEntry(own), EncodeEntry(next));
      }
      FreshPodIsObeyed(Serve(doc, e), node, events[1..], next);
    }
  }

  // ---- what a run of helpers leaves in an entry ----

  /** What the last helper that says something about a field says. */
  function Last<T>(hs: seq<Helper>, says: Helper -> Option<T>): Option<T> {
    if hs == [] then None
    else
      var later := Last(hs[1..], says);
      if later.Some? then later else says(hs[0])
  }

  function SaysPhase(h: Helper): Option<NodePhase> {
    if h.SetPhase? then Some(h.phase) else if h.SetRenewed? then Some(Idle) else None
  }

  /** A phase comes with a reason or leaves the old one; a renewal clears it. */
  function SaysReason(h: Helper): Option<string> {
    if h.SetPhase? && h.reason != "" then Some(h.reason) else if h.SetRenewed? then Some("") else None
  }

  function SaysPath(h: Helper): Option<string> {
    if h.SetBackupPath? then Some(h.path) else None
  }

  function SaysRenewedAt(h: Helper): Option<int> {
    if h.SetRenewed? then Some(h.renewedAt) else None
  }

  function SaysCheckedAt(h: Helper): Option<int> {
    if h.SetCertStatus? then Some(h.checkedAt) else None
  }

  function SaysCerts(h: Helper): Option<seq<CertStatus>> {
    if h.SetCertStatus? then Some(h.certs) else None
  }

  predicate Newer(now: Option<int>, said: Option<int>, before: Option<int>) {
    now == if said.Some? then said else before
  }

  /** The entry holds in every field what the last helper that speaks of it said, and else what it held
      before; a missing entry starts out idle and empty. */
  predicate HoldsLastWrites(after: NodeStatus, own: Option<NodeStatus>, node: string, hs: seq<Helper>) {
    && after.phase == Last(hs, SaysPhase).GetOr(if own.Some? then own.value.phase else Idle)
    && after.failureReason == Last(hs, SaysReason).GetOr(if own.Some? then own.value.failureReason else "")
    && after.backupPath == Last(hs, SaysPath).GetOr(if own.Some? then own.value.backupPath else "")
    && after.certs == Last(hs, SaysCerts).GetOr(if own.Some? then own.value.certs else [])
    && Newer(after.lastRenewedAt, Last(hs, SaysRenewedAt), if own.Some? then own.value.lastRenewedAt else None)
    && Newer(after.lastCheckedAt, Last(hs, SaysCheckedAt), if own.Some? then own.value.lastCheckedAt else None)
    && after.node == (if own.None? || exists h :: h in hs && h.SetPhase? then node else own.value.node)
  }

  function RunHelpers(own: Option<NodeStatus>, node: string, hs: seq<Helper>): Option<NodeStatus>
    decreases |hs|
  {
    if hs == [] then own else RunHelpers(MutateOwn(own, node, hs[0]), node, hs[1..])
  }

  lemma FirstWrite(own: Option<NodeStatus>, node: string, h: Helper, rest: seq<Helper>, after: NodeStatus)
    requires HoldsLastWrites(after, MutateOwn(own, node, h), node, rest)
    ensures HoldsLastWrites(after, own, node, [h] + rest)
  {
    var hs := [h] + rest;
    assert hs[1..] == rest && h in hs && forall x :: x in hs <==> x == h || x in rest;
  }

  predicate OnlyConditions(hs: seq<Helper>) {
    forall h :: h in hs ==> h.UpdateConditions?
  }

  /** After any run of helpers each field of the entry is the last write to it. */
  lemma {:induction false} EachFieldIsTheLastWrite(own: Option<NodeStatus>, node: string, hs: seq<Helper>)
    ensures OnlyConditions(hs) ==> RunHelpers(own, node, hs) == own
    ensures own.Some? || !OnlyConditions(hs) ==>
      RunHelpers(own, node, hs).Some? && HoldsLastWrites(RunHelpers(own, node, hs).value, own, node, hs)
    decreases |hs|
  {
    if hs != [] {
      var next, rest := MutateOwn(own, node, hs[0]), hs[1..];
      assert hs == [hs[0]] + rest && (OnlyConditions(hs) <==> hs[0].UpdateConditions? && OnlyConditions(rest));
      EachFieldIsTheLastWrite(next, node, rest);
      if own.Some? || !OnlyConditions(hs) {
        FirstWrite(own, node, hs[0], rest, RunHelpers(next, node, rest).value);
      }
    }
  }

  /** The copy of the status after any run of a pod's helpers that leaves the conditions alone: the own
      entry and the two times on top are the last writes, all else is as before. */
  lemma {:induction false} CopyHoldsLastWrites(st: ClusterStatus, node: string, hs: seq<Helper>)
    requires forall h :: h in hs ==> !h.UpdateConditions?
    ensures var r := MutateAll(st, node, hs);
      && Lookup(r.nodes, node) == RunHelpers(Lookup(st.nodes, node), node, hs)
      && (forall m :: m != node ==> Lookup(r.nodes, m) == Lookup(st.nodes, m))
      && Newer(r.lastRenewedAt, Last(hs, SaysRenewedAt), st.lastRenewedAt)
      && Newer(r.lastCheckedAt, Last(hs, SaysCheckedAt), st.lastCheckedAt)
      && r.phase == st.phase && r.conditions == st.conditions
    decreases |hs|
  {
    if hs != [] {
      assert hs[0] in hs && forall h :: h in hs[1..] ==> h in hs;
      CopyHoldsLastWrites(Mutate(st, node, hs[0]), node, hs[1..]);
    }
  }

  function Mine(events: seq<Event>, node: string): seq<Helper> {
    if events == [] then []
    else (if events[0].pod == node then [events[0].helper] else []) + Mine(events[1..], node)
  }

  lemma {:induction false} FoldIsRun(events: seq<Event>, node: string, own: Option<NodeStatus>)
    ensures FoldOwn(events, node, own) == RunHelpers(own, node, Mine(events, node))
    decreases |events|
  {
    if events != [] {
      if events[0].pod == node {
        FoldIsRun(events[1..], node, MutateOwn(own, node, events[0].helper));
        assert Mine(events, node)[1..] == Mine(events[1..], node);
      } else {
        FoldIsRun(events[1..], node, own);
        assert Mine(events, node) == Mine(events[1..], node);
      }
    }
  }

  /** So what the server shows of a fresh pod is, field by field, the last thing the pod wrote. */
  lemma FreshPodShowsLastWrites(doc: Json, node: string, events: seq<Event>, own: Option<NodeStatus>)
    requires doc.Obj? && At(doc, Entry(node)) == EncodeEntry(own)
    requires FreshChain(events, node, own)
    requires own.Some? || !OnlyConditions(Mine(events, node))
    ensures FoldOwn(events, node, own).Some?
    ensures At(ServeAll(doc, events), Entry(node)) == Some(EncodeNode(FoldOwn(events, node, own).value))
    ensures HoldsLastWrites(FoldOwn(events, node, own).value, own, node, Mine(events, node))
  {
    FreshPodIsObeyed(doc, node, events, own);
    FoldIsRun(events, node, own);
    EachFieldIsTheLastWrite(own, node, Mine(events, node));
  }
}
