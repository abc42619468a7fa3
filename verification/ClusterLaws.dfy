/** The server's document against the typed values the pods compute with. */
module ClusterLaws {
  import opened Wrappers
  import opened MergePatch
  import opened Status
  import opened Conditions
  import opened Cluster
  import opened Reconcile

  // ---- the own entry ----

  lemma ServedEntry(doc: Json, view: ClusterStatus, server: Option<NodeStatus>, local: Option<NodeStatus>, node: string, h: Helper)
    requires doc.Obj? && At(doc, Entry(node)) == EncodeEntry(server) && Lookup(view.nodes, node) == local
    requires !h.UpdateConditions? && (local.Some? ==> server.Some?)
    ensures At(Serve(doc, Patch(node, view, h)), Entry(node)) == Some(EncodeNode(MergeNode(server, local, MutateOwn(local, node, h).value)))
  {
    ServeIsOwnStep(doc, node, Patch(node, view, h));
    MergeNodeIsThePatch(server, local, MutateOwn(local, node, h).value);
  }

  /** The entry that one reconciliation step leaves on the server is the one found in the server's
      document, whatever else the pod's copy of the status holds and however stale that is. */
  lemma PatchOwnIsServed(doc: Json, view: ClusterStatus, w: World, node: string, h: Helper)
    requires doc.Obj? && At(doc, Entry(node)) == EncodeEntry(w.server) && Lookup(view.nodes, node) == w.local
    requires !h.UpdateConditions?
    ensures var r := PatchOwn(w, node, h);
      var reached := w.fates != [] && !w.fates[0].Refused? && Accepts(w);
      At(if reached then Serve(doc, Patch(node, view, h)) else doc, Entry(node)) == EncodeEntry(r.w.server)
  {
    if Accepts(w) {
      ServedEntry(doc, view, w.server, w.local, node, h);
    }
    PatchOwnServer(At(doc, Entry(node)), At(Serve(doc, Patch(node, view, h)), Entry(node)), w, node, h);
  }

  lemma PatchOwnServer(here: Option<Json>, there: Option<Json>, w: World, node: string, h: Helper)
    requires !h.UpdateConditions? && here == EncodeEntry(w.server)
    requires Accepts(w) ==> there == Some(EncodeNode(MergeNode(w.server, w.local, MutateOwn(w.local, node, h).value)))
    ensures EncodeEntry(PatchOwn(w, node, h).w.server) == if w.fates != [] && !w.fates[0].Refused? && Accepts(w) then there else here
  {
  }

  lemma ConditionsAreNoOwnStep(here: Option<Json>, view: ClusterStatus, pod: string, now: int, node: string)
    ensures OwnStep(here, node, Patch(pod, view, UpdateConditions(now))) == here
  {
  }

  /** Updating the cluster conditions leaves every node entry of the document alone. */
  lemma ConditionsKeepEntries(doc: Json, view: ClusterStatus, pod: string, now: int, node: string)
    requires doc.Obj?
    ensures At(Serve(doc, Patch(pod, view, UpdateConditions(now))), Entry(node)) == At(doc, Entry(node))
  {
    ServeIsOwnStep(doc, node, Patch(pod, view, UpdateConditions(now)));
    ConditionsAreNoOwnStep(At(doc, Entry(node)), view, pod, now, node);
  }

  // ---- the summary ----

  const PHASE_PATH: seq<string> := ["status", "phase"]

  function EncodePhase(p: Option<ClusterPhase>): Option<Json> {
    if p.Some? then Some(Str(ClusterPhaseName(p.value))) else None
  }

  lemma PhaseNamesDiffer(p: ClusterPhase, q: ClusterPhase)
    ensures ClusterPhaseName(p) == ClusterPhaseName(q) <==> p == q
  {
    assert |ClusterPhaseName(ClusterIdle)| == 4 && |ClusterPhaseName(ClusterRenewing)| == 8 && |ClusterPhaseName(ClusterFailed)| == 6;
  }

  lemma PhaseOf(st: ClusterStatus)
    ensures At(Encode(st), PHASE_PATH) == EncodePhase(st.phase) && Leads(Encode(st), PHASE_PATH)
  {
    var s := Encode(st).fields["status"];
    assert PHASE_PATH[1..] == ["phase"] && ["phase"][1..] == [];
    assert Get(s, "phase") == StatusMember(st, "phase");
    assert At(s, ["phase"]) == match Get(s, "phase") case None => None case Some(x) => At(x, []);
  }

  /** The cluster phase on the server after some pod updated the conditions from its own copy. */
  function PhaseServed(server: ClusterStatus, pod: string, view: ClusterStatus, now: int): Option<Json> {
    At(Serve(Encode(server), Patch(pod, view, UpdateConditions(now))), PHASE_PATH)
  }

  lemma SummaryServed(server: ClusterStatus, pod: string, view: ClusterStatus, now: int)
    ensures PhaseServed(server, pod, view, now)
         == EncodePhase(if view.phase == Some(SummaryPhase(view.nodes)) then server.phase else Some(SummaryPhase(view.nodes)))
  {
    var after := Summarised(view, now);
    PhaseOf(server);
    PhaseOf(view);
    PhaseOf(after);
    PatchIsLocal(Encode(server), Encode(view), Encode(after), PHASE_PATH);
    if view.phase.Some? {
      PhaseNamesDiffer(view.phase.value, SummaryPhase(view.nodes));
    }
  }

  /** The published phase is right about the server's own entries exactly when the copy calls for
      the right phase, or calls for no change while the server's phase is right already. */
  lemma WhenSummaryIsRight(server: ClusterStatus, pod: string, view: ClusterStatus, now: int)
    ensures PhaseServed(server, pod, view, now) == EncodePhase(Some(SummaryPhase(server.nodes))) <==>
            if view.phase == Some(SummaryPhase(view.nodes)) then server.phase == Some(SummaryPhase(server.nodes))
            else SummaryPhase(view.nodes) == SummaryPhase(server.nodes)
  {
    SummaryServed(server, pod, view, now);
    var p := if view.phase == Some(SummaryPhase(view.nodes)) then server.phase else Some(SummaryPhase(view.nodes));
    if p.Some? {
      PhaseNamesDiffer(p.value, SummaryPhase(server.nodes));
    }
  }

  /** A pod whose copy is current always publishes the right phase. */
  lemma FreshSummaryIsRight(server: ClusterStatus, pod: string, now: int)
    ensures PhaseServed(server, pod, server, now) == EncodePhase(Some(SummaryPhase(server.nodes)))
  {
    WhenSummaryIsRight(server, pod, server, now);
  }

  // ---- the conditions ----

  const CONDITIONS_PATH: seq<string> := ["status", "conditions"]

  lemma ConditionsOf(st: ClusterStatus)
    ensures At(Encode(st), CONDITIONS_PATH) == EncodeConditions(st.conditions) && Leads(Encode(st), CONDITIONS_PATH)
  {
    var s := Encode(st).fields["status"];
    assert CONDITIONS_PATH[1..] == ["conditions"] && ["conditions"][1..] == [];
    assert Get(s, "conditions") == StatusMember(st, "conditions");
    assert At(s, ["conditions"]) == match Get(s, "conditions") case None => None case Some(x) => At(x, []);
  }

  lemma ConditionsDiffer(a: seq<Condition>, b: seq<Condition>)
    ensures EncodeConditions(a) == EncodeConditions(b) <==> a == b
  {
    if EncodeConditions(a) == EncodeConditions(b) && a != [] {
      forall i | 0 <= i < |a| ensures a[i] == b[i] {
        var x, y := EncodeConditions(a).value.items[i], EncodeConditions(b).value.items[i];
        assert x.fields["type"] == y.fields["type"] && x.fields["reason"] == y.fields["reason"];
        assert x.fields["status"] == y.fields["status"] && x.fields["lastTransitionTime"] == y.fields["lastTransitionTime"];
        assert |"True"| != |"False"|;
      }
    }
  }

  /** What the server's conditions become: a list is replaced as a whole or not at all. */
  function ConditionsAfter(server: ClusterStatus, view: ClusterStatus, now: int): seq<Condition> {
    var after := Summarised(view, now).conditions;
    if view.conditions == after then server.conditions else after
  }

  lemma ConditionsServed(server: ClusterStatus, pod: string, view: ClusterStatus, now: int)
    ensures At(Serve(Encode(server), Patch(pod, view, UpdateConditions(now))), CONDITIONS_PATH)
         == EncodeConditions(ConditionsAfter(server, view, now))
  {
    var after := Summarised(view, now);
    ConditionsOf(server);
    ConditionsOf(view);
    ConditionsOf(after);
    PatchIsLocal(Encode(server), Encode(view), Encode(after), CONDITIONS_PATH);
    ConditionsDiffer(view.conditions, after.conditions);
  }

  /** The published CriticalFailure condition tells the truth about the server's own entries exactly
      when the copy has the right answer, or calls for no change while the server has it already. */
  lemma WhenCriticalConditionIsRight(server: ClusterStatus, pod: string, view: ClusterStatus, now: int)
    ensures At(Serve(Encode(server), Patch(pod, view, UpdateConditions(now))), CONDITIONS_PATH)
         == EncodeConditions(ConditionsAfter(server, view, now))
    ensures Truth(ConditionsAfter(server, view, now), CRITICAL_FAILURE) == Some(AnyCritical(server.nodes)) <==>
            if view.conditions == Summarised(view, now).conditions
            then Truth(server.conditions, CRITICAL_FAILURE) == Some(AnyCritical(server.nodes))
            else AnyCritical(view.nodes) == AnyCritical(server.nodes)
  {
    ConditionsServed(server, pod, view, now);
    SummaryMeaning(view, now);
  }

  // ---- a stale copy ----

  /** An entry after a check that found the one certificate OK, or else expired. */
  function InPhase(node: string, phase: NodePhase, at: int): NodeStatus {
    NodeStatus(node, phase, Some(at), None, "", "",
               [if phase == Idle then CertStatus("apiserver", 0, 300, "OK") else CertStatus("apiserver", 0, 0, "EXPIRED")])
  }

  function Blank(nodes: map<string, NodeStatus>): ClusterStatus {
    ClusterStatus(None, None, None, nodes, [])
  }

  /** A copy that saw the cluster idle and a node rolling back, but no critical node, publishes a
      renewing cluster without a critical failure over whatever the server holds. */
  lemma StaleViewIsPublished(server: ClusterStatus, pod: string, view: ClusterStatus, now: int)
    requires !AnyCritical(view.nodes) && AnyRenewing(view.nodes) && view.phase == Some(ClusterIdle)
    requires Truth(view.conditions, RENEWAL_IN_PROGRESS) == Some(false)
    ensures PhaseServed(server, pod, view, now) == EncodePhase(Some(ClusterRenewing))
    ensures Truth(ConditionsAfter(server, view, now), CRITICAL_FAILURE) == Some(false)
  {
    SummaryMeaning(view, now);
    SummaryServed(server, pod, view, now);
  }

  lemma CriticalIsSummarised(nodes: map<string, NodeStatus>, n: string, now: int)
    requires n in nodes && nodes[n].phase == Critical
    ensures var st := Summarised(Blank(nodes), now);
      st.nodes == nodes && AnyCritical(nodes) && st.phase == Some(ClusterFailed) && Truth(st.conditions, CRITICAL_FAILURE) == Some(true)
  {
    SummaryMeaning(Blank(nodes), now);
  }

  lemma CalmIsSummarised(nodes: map<string, NodeStatus>, now: int)
    requires forall n :: n in nodes ==> nodes[n].phase == Idle
    ensures var st := Summarised(Blank(nodes), now); st.phase == Some(ClusterIdle) && Truth(st.conditions, RENEWAL_IN_PROGRESS) == Some(false)
  {
    SummaryMeaning(Blank(nodes), now);
  }

  /** Node a in some phase, node b idle. */
  function TwoNodes(a: NodePhase, at: int): map<string, NodeStatus> {
    map["a" := InPhase("a", a, at), "b" := InPhase("b", Idle, at)]
  }

  /** A copy that holds these entries and the summary of a cluster that was idle. */
  function CalmView(nodes: map<string, NodeStatus>, now: int): ClusterStatus {
    Summarised(Blank(TwoNodes(Idle, now)), now).(nodes := nodes)
  }

  lemma CalmViewOf(a: NodePhase, now: int)
    requires a == RollingBack
    ensures var view := CalmView(TwoNodes(a, now), now);
      && !AnyCritical(view.nodes) && AnyRenewing(view.nodes) && view.phase == Some(ClusterIdle)
      && Truth(view.conditions, RENEWAL_IN_PROGRESS) == Some(false)
  {
    CalmIsSummarised(TwoNodes(Idle, now), now);
    assert TwoNodes(a, now)["a"].phase == RollingBack;
  }

  lemma CriticalServer(now: int) returns (server: ClusterStatus)
    ensures AnyCritical(server.nodes) && server.phase == Some(ClusterFailed) && Truth(server.conditions, CRITICAL_FAILURE) == Some(true)
    ensures server.nodes == TwoNodes(Critical, now)
  {
    server := Summarised(Blank(TwoNodes(Critical, now)), now);
    CriticalIsSummarised(TwoNodes(Critical, now), "a", now);
  }

  /** A stale copy can hide a critical node: the pod of node b last saw node a rolling back, and
      publishes that over the failure that node a has reported since, in the phase and in the
      CriticalFailure condition. */
  lemma StaleSummaryHidesCritical(now: int) returns (server: ClusterStatus, view: ClusterStatus)
    ensures AnyCritical(server.nodes) && server.phase == Some(ClusterFailed) && Truth(server.conditions, CRITICAL_FAILURE) == Some(true)
    ensures "b" in view.nodes && "b" in server.nodes && view.nodes["b"] == server.nodes["b"]
    ensures forall n :: n in server.nodes ==> server.nodes[n].lastCheckedAt == Some(now) && server.nodes[n].certs != []
    ensures PhaseServed(server, "b", view, now) == EncodePhase(Some(ClusterRenewing))
    ensures At(Serve(Encode(server), Patch("b", view, UpdateConditions(now))), CONDITIONS_PATH)
         == EncodeConditions(ConditionsAfter(server, view, now))
    ensures Truth(ConditionsAfter(server, view, now), CRITICAL_FAILURE) == Some(false)
  {
    server := CriticalServer(now);
    view := CalmView(TwoNodes(RollingBack, now), now);
    CalmViewOf(RollingBack, now);
    StaleViewIsPublished(server, "b", view, now);
    ConditionsServed(server, "b", view, now);
  }
}
