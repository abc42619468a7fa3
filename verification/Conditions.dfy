/** The cluster summary that every pod derives from its own copy of all node entries. */
module Conditions {
  import opened Wrappers
  import opened Status

  datatype Condition = Condition(kind: string, holds: bool, reason: string, lastTransition: int)

  datatype ClusterStatus = ClusterStatus(
    phase: Option<ClusterPhase>,
    lastCheckedAt: Option<int>,
    lastRenewedAt: Option<int>,
    nodes: map<string, NodeStatus>,
    conditions: seq<Condition>)

  const CERTS_HEALTHY := "CertsHealthy"
  const RENEWAL_IN_PROGRESS := "RenewalInProgress"
  const CRITICAL_FAILURE := "CriticalFailure"

  predicate AnyCritical(nodes: map<string, NodeStatus>) {
    exists n :: n in nodes && nodes[n].phase == Critical
  }

  predicate AnyRenewing(nodes: map<string, NodeStatus>) {
    exists n :: n in nodes && (nodes[n].phase == Renewing || nodes[n].phase == RollingBack)
  }

  predicate AllCertsOk(ns: NodeStatus) {
    forall i :: 0 <= i < |ns.certs| ==> ns.certs[i].status == "OK"
  }

  predicate AllHealthy(nodes: map<string, NodeStatus>) {
    forall n :: n in nodes ==> nodes[n].phase != Failed && nodes[n].phase != Critical && AllCertsOk(nodes[n])
  }

  function SummaryPhase(nodes: map<string, NodeStatus>): ClusterPhase {
    if AnyCritical(nodes) then ClusterFailed
    else if AnyRenewing(nodes) then ClusterRenewing
    else ClusterIdle
  }

  /** Replace the condition of the same kind, keeping its transition time unless its truth
      changes, or append it. */
  function SetCondition(conditions: seq<Condition>, c: Condition): seq<Condition> {
    if conditions == [] then [c]
    else if conditions[0].kind == c.kind then
      var stamp := if conditions[0].holds == c.holds then conditions[0].lastTransition else c.lastTransition;
      [c.(lastTransition := stamp)] + conditions[1..]
    else
      [conditions[0]] + SetCondition(conditions[1..], c)
  }

  /** The reported truth of a condition. */
  function Truth(conditions: seq<Condition>, kind: string): Option<bool> {
    if conditions == [] then None
    else if conditions[0].kind == kind then Some(conditions[0].holds)
    else Truth(conditions[1..], kind)
  }

  /** The condition of this kind that a reader finds. */
  function Found(conditions: seq<Condition>, kind: string): Option<Condition> {
    if conditions == [] then None
    else if conditions[0].kind == kind then Some(conditions[0])
    else Found(conditions[1..], kind)
  }

  /** Setting a condition replaces its truth and its reason. The time of the transition stays as long as
      the truth does; the conditions of the other kinds stay as they are. */
  lemma {:induction false} SetConditionFound(conditions: seq<Condition>, c: Condition, kind: string)
    ensures kind != c.kind ==> Found(SetCondition(conditions, c), kind) == Found(conditions, kind)
    ensures var before, after := Found(conditions, c.kind), Found(SetCondition(conditions, c), c.kind);
      && after.Some? && after.value.holds == c.holds && after.value.reason == c.reason && after.value.kind == c.kind
      && after.value.lastTransition ==
         if before.Some? && before.value.holds == c.holds then before.value.lastTransition else c.lastTransition
    decreases |conditions|
  {
    if conditions != [] && conditions[0].kind != c.kind {
      SetConditionFound(conditions[1..], c, kind);
      assert SetCondition(conditions, c)[1..] == SetCondition(conditions[1..], c);
    } else if conditions != [] {
      assert SetCondition(conditions, c)[1..] == conditions[1..];
    }
  }

  /** No kind is listed twice. */
  predicate OneEach(conditions: seq<Condition>) {
    forall i, j :: 0 <= i < j < |conditions| ==> conditions[i].kind != conditions[j].kind
  }

  lemma {:induction false} SetConditionOneEach(conditions: seq<Condition>, c: Condition)
    requires OneEach(conditions)
    ensures OneEach(SetCondition(conditions, c))
    ensures forall k :: 0 <= k < |SetCondition(conditions, c)| ==>
      SetCondition(conditions, c)[k].kind == c.kind || exists i :: 0 <= i < |conditions| && conditions[i].kind == SetCondition(conditions, c)[k].kind
    decreases |conditions|
  {
    if conditions != [] && conditions[0].kind != c.kind {
      var rest, tail := conditions[1..], SetCondition(conditions[1..], c);
      SetConditionOneEach(rest, c);
      forall k | 0 <= k < |tail|
        ensures tail[k].kind == c.kind || exists i :: 1 <= i < |conditions| && conditions[i].kind == tail[k].kind
      {
        if tail[k].kind != c.kind {
          var i :| 0 <= i < |rest| && rest[i].kind == tail[k].kind;
          assert conditions[i + 1] == rest[i];
        }
      }
      assert SetCondition(conditions, c) == [conditions[0]] + tail;
    }
  }

  lemma {:induction false} SetConditionTruth(conditions: seq<Condition>, c: Condition, kind: string)
    ensures Truth(SetCondition(conditions, c), kind) == if kind == c.kind then Some(c.holds) else Truth(conditions, kind)
  {
    if conditions != [] && conditions[0].kind != c.kind {
      SetConditionTruth(conditions[1..], c, kind);
      assert SetCondition(conditions, c)[1..] == SetCondition(conditions[1..], c);
    }
  }

  function HealthyCondition(healthy: bool, now: int): Condition {
    Condition(CERTS_HEALTHY, healthy, if healthy then "AllCertsValid" else "CertsExpiring", now)
  }

  function RenewingCondition(renewing: bool, now: int): Condition {
    Condition(RENEWAL_IN_PROGRESS, renewing, if renewing then "RenewalActive" else "NoRenewalInProgress", now)
  }

  function CriticalCondition(critical: bool, now: int): Condition {
    Condition(CRITICAL_FAILURE, critical, if critical then "RollbackFailed" else "NoCriticalFailure", now)
  }

  function Summarised(st: ClusterStatus, now: int): ClusterStatus {
    var c1 := SetCondition(st.conditions, HealthyCondition(AllHealthy(st.nodes), now));
    var c2 := SetCondition(c1, RenewingCondition(AnyRenewing(st.nodes), now));
    var c3 := SetCondition(c2, CriticalCondition(AnyCritical(st.nodes), now));
    st.(conditions := c3, phase := Some(SummaryPhase(st.nodes)))
  }

  lemma SeeOneMore(seen: map<string, NodeStatus>, n: string, ns: NodeStatus)
    requires n !in seen
    ensures AnyCritical(seen[n := ns]) <==> AnyCritical(seen) || ns.phase == Critical
    ensures AnyRenewing(seen[n := ns]) <==> AnyRenewing(seen) || ns.phase == Renewing || ns.phase == RollingBack
    ensures AllHealthy(seen[n := ns]) <==> AllHealthy(seen) && ns.phase != Failed && ns.phase != Critical && AllCertsOk(ns)
  {
    var more := seen[n := ns];
    assert more[n] == ns;
    assert forall m :: m in seen ==> m in more && more[m] == seen[m];
    if AnyCritical(seen) { var m :| m in seen && seen[m].phase == Critical; assert more[m].phase == Critical; }
    if AnyRenewing(seen) {
      var m :| m in seen && (seen[m].phase == Renewing || seen[m].phase == RollingBack);
      assert more[m] == seen[m];
    }
    if AllHealthy(more) {
      forall m | m in seen ensures seen[m].phase != Failed && seen[m].phase != Critical && AllCertsOk(seen[m]) {
        assert m in more;
      }
    }
  }

  /** The condition that a summary leaves: this truth and reason, and the old time of transition as long
      as the truth was the same. */
  predicate Says(before: seq<Condition>, after: seq<Condition>, kind: string, holds: bool, reason: string, now: int) {
    && Found(after, kind).Some? && Found(after, kind).value.holds == holds && Found(after, kind).value.reason == reason
    && Found(after, kind).value.lastTransition ==
       if Found(before, kind).Some? && Found(before, kind).value.holds == holds then Found(before, kind).value.lastTransition else now
  }

  lemma SetThree(cs: seq<Condition>, d1: Condition, d2: Condition, d3: Condition, kind: string)
    requires |d1.kind| == 12 && |d2.kind| == 17 && |d3.kind| == 15
    ensures var after := SetCondition(SetCondition(SetCondition(cs, d1), d2), d3);
      && (forall d :: d in [d1, d2, d3] ==> Found(after, d.kind) == Found(SetCondition(cs, d), d.kind))
      && (kind !in {d1.kind, d2.kind, d3.kind} ==> Found(after, kind) == Found(cs, kind))
  {
    var c1 := SetCondition(cs, d1);
    var c2 := SetCondition(c1, d2);
    SetConditionFound(c1, d2, d1.kind);
    SetConditionFound(c2, d3, d1.kind);
    SetConditionFound(cs, d1, d2.kind);
    SetConditionFound(c2, d3, d2.kind);
    SetConditionFound(cs, d1, d3.kind);
    SetConditionFound(c1, d2, d3.kind);
    SetConditionFound(cs, d1, kind);
    SetConditionFound(c1, d2, kind);
    SetConditionFound(c2, d3, kind);
    SetConditionSame(cs, c1, d2);
    SetConditionSame(cs, c2, d3);
  }

  lemma SetConditionSame(cs: seq<Condition>, es: seq<Condition>, d: Condition)
    requires Found(cs, d.kind) == Found(es, d.kind)
    ensures Found(SetCondition(cs, d), d.kind) == Found(SetCondition(es, d), d.kind)
  {
    SetConditionFound(cs, d, d.kind);
    SetConditionFound(es, d, d.kind);
  }

  /** The three conditions of a summary; every other condition stays, and none comes to be listed twice. */
  lemma SummaryConditions(st: ClusterStatus, now: int, kind: string)
    ensures var healthy, after := AllHealthy(st.nodes), Summarised(st, now).conditions;
      Says(st.conditions, after, CERTS_HEALTHY, healthy, if healthy then "AllCertsValid" else "CertsExpiring", now)
    ensures var renewing, after := AnyRenewing(st.nodes), Summarised(st, now).conditions;
      Says(st.conditions, after, RENEWAL_IN_PROGRESS, renewing, if renewing then "RenewalActive" else "NoRenewalInProgress", now)
    ensures var critical, after := AnyCritical(st.nodes), Summarised(st, now).conditions;
      Says(st.conditions, after, CRITICAL_FAILURE, critical, if critical then "RollbackFailed" else "NoCriticalFailure", now)
    ensures kind !in {CERTS_HEALTHY, RENEWAL_IN_PROGRESS, CRITICAL_FAILURE} ==>
      Found(Summarised(st, now).conditions, kind) == Found(st.conditions, kind)
    ensures OneEach(st.conditions) ==> OneEach(Summarised(st, now).conditions)
  {
    var d1, d2 := HealthyCondition(AllHealthy(st.nodes), now), RenewingCondition(AnyRenewing(st.nodes), now);
    var d3 := CriticalCondition(AnyCritical(st.nodes), now);
    SetThree(st.conditions, d1, d2, d3, kind);
    SetConditionFound(st.conditions, d1, d1.kind);
    SetConditionFound(st.conditions, d2, d2.kind);
    SetConditionFound(st.conditions, d3, d3.kind);
    if OneEach(st.conditions) {
      SetConditionOneEach(st.conditions, d1);
      SetConditionOneEach(SetCondition(st.conditions, d1), d2);
      SetConditionOneEach(SetCondition(SetCondition(st.conditions, d1), d2), d3);
    }
  }

  /** What a reader of the resource may conclude from the three conditions and the phase. */
  lemma SummaryMeaning(st: ClusterStatus, now: int)
    ensures Truth(Summarised(st, now).conditions, CERTS_HEALTHY) == Some(AllHealthy(st.nodes))
    ensures Truth(Summarised(st, now).conditions, RENEWAL_IN_PROGRESS) == Some(AnyRenewing(st.nodes))
    ensures Truth(Summarised(st, now).conditions, CRITICAL_FAILURE) == Some(AnyCritical(st.nodes))
    ensures AllHealthy(st.nodes) <==> forall n :: n in st.nodes ==>
      st.nodes[n].phase !in {Failed, Critical} && forall i :: 0 <= i < |st.nodes[n].certs| ==> st.nodes[n].certs[i].status == "OK"
    ensures AnyRenewing(st.nodes) <==> exists n :: n in st.nodes && st.nodes[n].phase in {Renewing, RollingBack}
    ensures AnyCritical(st.nodes) <==> exists n :: n in st.nodes && st.nodes[n].phase == Critical
    ensures !(AllHealthy(st.nodes) && AnyCritical(st.nodes))
    ensures Summarised(st, now).phase == Some(ClusterFailed) <==> AnyCritical(st.nodes)
    ensures Summarised(st, now).phase == Some(ClusterIdle) <==> !AnyCritical(st.nodes) && !AnyRenewing(st.nodes)
    ensures Summarised(st, now).nodes == st.nodes
  {
    var k1, k2, k3 := CERTS_HEALTHY, RENEWAL_IN_PROGRESS, CRITICAL_FAILURE;
    assert |k1| == 12 && |k2| == 17 && |k3| == 15;
    var d1, d2, d3 := HealthyCondition(AllHealthy(st.nodes), now), RenewingCondition(AnyRenewing(st.nodes), now), CriticalCondition(AnyCritical(st.nodes), now);
    var c1 := SetCondition(st.conditions, d1);
    var c2 := SetCondition(c1, d2);
    SetConditionTruth(st.conditions, d1, k1);
    SetConditionTruth(c1, d2, k1);
    SetConditionTruth(c2, d3, k1);
    SetConditionTruth(c1, d2, k2);
    SetConditionTruth(c2, d3, k2);
    SetConditionTruth(c2, d3, k3);
  }
}
