/** The status of the CertRotationConfig resource: the typed values the controller works on, and
    the JSON the API server stores. Optional members follow the `omitempty` rule of the struct
    tags: an absent time, an empty string and an empty list are not written at all. */
module Status {
  import opened Wrappers
  import opened MergePatch

  datatype NodePhase = Idle | Detecting | Renewing | RollingBack | Failed | Critical

  datatype ClusterPhase = ClusterIdle | ClusterRenewing | ClusterFailed

  datatype CertStatus = CertStatus(name: string, expirySeconds: int, residualDays: int, status: string)

  datatype NodeStatus = NodeStatus(
    node: string,
    phase: NodePhase,
    lastCheckedAt: Option<int>,
    lastRenewedAt: Option<int>,
    backupPath: string,
    failureReason: string,
    certs: seq<CertStatus>)

  function PhaseName(p: NodePhase): string {
    match p
    case Idle => "Idle"
    case Detecting => "Detecting"
    case Renewing => "Renewing"
    case RollingBack => "RollingBack"
    case Failed => "Failed"
    case Critical => "Critical"
  }

  function EncodeCert(c: CertStatus): Json {
    Obj(map["name" := Str(c.name), "expiryTime" := Num(c.expirySeconds),
            "residualDays" := Num(c.residualDays), "status" := Str(c.status)])
  }

  function EncodeTime(t: Option<int>): Option<Json> {
    if t.Some? then Some(Num(t.value)) else None
  }

  function EncodeText(s: string): Option<Json> {
    if s == "" then None else Some(Str(s))
  }

  function EncodeCerts(certs: seq<CertStatus>): Option<Json> {
    if certs == [] then None else Some(Arr(seq(|certs|, i requires 0 <= i < |certs| => EncodeCert(certs[i]))))
  }

  const NODE_KEYS: set<string> :=
    {"node", "phase", "lastCheckedAt", "lastRenewedAt", "backupPath", "failureReason", "certs"}

  /** The member of the node's JSON object stored under `key`. */
  function Member(ns: NodeStatus, key: string): Option<Json> {
    if key == "node" then Some(Str(ns.node))
    else if key == "phase" then Some(Str(PhaseName(ns.phase)))
    else if key == "lastCheckedAt" then EncodeTime(ns.lastCheckedAt)
    else if key == "lastRenewedAt" then EncodeTime(ns.lastRenewedAt)
    else if key == "backupPath" then EncodeText(ns.backupPath)
    else if key == "failureReason" then EncodeText(ns.failureReason)
    else if key == "certs" then EncodeCerts(ns.certs)
    else None
  }

  function EncodeNode(ns: NodeStatus): Json {
    Obj(map k | k in NODE_KEYS && Member(ns, k).Some? :: Member(ns, k).value)
  }

  function EncodeEntry(entry: Option<NodeStatus>): Option<Json> {
    if entry.Some? then Some(EncodeNode(entry.value)) else None
  }

  function Pick<T(==)>(here: T, before: T, after: T): T {
    if before == after then here else after
  }

  function Overlay<T(==)>(here: T, after: T, empty: T): T {
    if after == empty then here else after
  }

  /** The server's entry for one node after a patch computed from the local values `before` and
      `after`. A client that had no entry sends all of its own. */
  function MergeNode(here: Option<NodeStatus>, before: Option<NodeStatus>, after: NodeStatus): NodeStatus
    requires before.Some? ==> here.Some?
  {
    if here.None? then after
    else if before.None? then
      var h := here.value;
      NodeStatus(after.node, after.phase,
                 Overlay(h.lastCheckedAt, after.lastCheckedAt, None),
                 Overlay(h.lastRenewedAt, after.lastRenewedAt, None),
                 Overlay(h.backupPath, after.backupPath, ""),
                 Overlay(h.failureReason, after.failureReason, ""),
                 Overlay(h.certs, after.certs, []))
    else
      var h, b := here.value, before.value;
      NodeStatus(Pick(h.node, b.node, after.node),
                 Pick(h.phase, b.phase, after.phase),
                 Pick(h.lastCheckedAt, b.lastCheckedAt, after.lastCheckedAt),
                 Pick(h.lastRenewedAt, b.lastRenewedAt, after.lastRenewedAt),
                 Pick(h.backupPath, b.backupPath, after.backupPath),
                 Pick(h.failureReason, b.failureReason, after.failureReason),
                 Pick(h.certs, b.certs, after.certs))
  }

  lemma KeysDiffer()
    ensures "phase" != "certs" && "lastCheckedAt" != "lastRenewedAt"
    ensures "failureReason" != "lastRenewedAt" && "failureReason" != "lastCheckedAt"
  {
    assert "phase"[0] != "certs"[0] && "lastCheckedAt"[4] != "lastRenewedAt"[4];
    assert "failureReason"[0] != "lastRenewedAt"[0] && "failureReason"[0] != "lastCheckedAt"[0];
  }

  lemma PhaseNamesDiffer(p: NodePhase, q: NodePhase)
    ensures PhaseName(p) == PhaseName(q) <==> p == q
  {
    assert "Renewing"[0] != "Critical"[0];
  }

  lemma CertsDiffer(a: seq<CertStatus>, b: seq<CertStatus>)
    ensures EncodeCerts(a) == EncodeCerts(b) <==> a == b
  {
    if EncodeCerts(a) == EncodeCerts(b) && a != [] {
      forall i | 0 <= i < |a| ensures a[i] == b[i] {
        var x, y := EncodeCerts(a).value.items[i], EncodeCerts(b).value.items[i];
        assert x.fields["name"] == y.fields["name"] && x.fields["expiryTime"] == y.fields["expiryTime"];
        assert x.fields["residualDays"] == y.fields["residualDays"] && x.fields["status"] == y.fields["status"];
      }
    }
  }

  /** Nothing is lost on the wire. */
  lemma EncodeNodeInjective(a: NodeStatus, b: NodeStatus)
    ensures EncodeNode(a) == EncodeNode(b) <==> a == b
  {
    if EncodeNode(a) == EncodeNode(b) {
      KeysDiffer();
      forall k | k in NODE_KEYS ensures Member(a, k) == Member(b, k) {
        assert Get(EncodeNode(a), k) == Member(a, k) && Get(EncodeNode(b), k) == Member(b, k);
      }
      assert Member(a, "node") == Member(b, "node") && Member(a, "phase") == Member(b, "phase");
      assert Member(a, "lastCheckedAt") == Member(b, "lastCheckedAt") && Member(a, "lastRenewedAt") == Member(b, "lastRenewedAt");
      assert Member(a, "backupPath") == Member(b, "backupPath") && Member(a, "failureReason") == Member(b, "failureReason");
      assert Member(a, "certs") == Member(b, "certs");
      PhaseNamesDiffer(a.phase, b.phase);
      CertsDiffer(a.certs, b.certs);
    }
  }

  lemma EncodeNodeNullFree(ns: NodeStatus)
    ensures NullFree(EncodeNode(ns))
  {
  }

  lemma MemberMerges(h: NodeStatus, b: NodeStatus, m: NodeStatus, key: string)
    ensures Member(MergeNode(Some(h), Some(b), m), key)
         == if Member(b, key) == Member(m, key) then Member(h, key) else Member(m, key)
  {
    KeysDiffer();
    PhaseNamesDiffer(b.phase, m.phase);
    CertsDiffer(b.certs, m.certs);
  }

  lemma MemberOverlays(h: NodeStatus, m: NodeStatus, key: string)
    ensures Member(MergeNode(Some(h), None, m), key)
         == if Member(m, key).None? then Member(h, key) else Member(m, key)
  {
    KeysDiffer();
  }

  lemma GetMember(ns: NodeStatus, key: string)
    ensures Get(EncodeNode(ns), key) == Member(ns, key)
    ensures Member(ns, key).Some? ==> !Member(ns, key).value.Obj? && !Member(ns, key).value.Null?
  {
  }

  lemma PatchedMember(h: NodeStatus, b: NodeStatus, m: NodeStatus, key: string)
    ensures Get(Apply(EncodeNode(h), Diff(EncodeNode(b), EncodeNode(m))), key)
         == if Member(b, key) == Member(m, key) then Member(h, key) else Member(m, key)
  {
    GetMember(h, key);
    GetMember(b, key);
    GetMember(m, key);
  }

  lemma OverlaidMember(h: NodeStatus, m: NodeStatus, key: string)
    ensures Get(Apply(EncodeNode(h), EncodeNode(m)), key)
         == if Member(m, key).None? then Member(h, key) else Member(m, key)
  {
    GetMember(h, key);
    GetMember(m, key);
  }

  lemma MergeIsDiff(h: NodeStatus, b: NodeStatus, m: NodeStatus)
    ensures Apply(EncodeNode(h), Diff(EncodeNode(b), EncodeNode(m))) == EncodeNode(MergeNode(Some(h), Some(b), m))
  {
    var got, merged := Apply(EncodeNode(h), Diff(EncodeNode(b), EncodeNode(m))), MergeNode(Some(h), Some(b), m);
    forall k ensures Get(got, k) == Get(EncodeNode(merged), k) {
      PatchedMember(h, b, m, k);
      MemberMerges(h, b, m, k);
      GetMember(merged, k);
    }
    SameMembers(got, EncodeNode(merged));
  }

  lemma OverlayIsApply(h: NodeStatus, m: NodeStatus)
    ensures Apply(EncodeNode(h), EncodeNode(m)) == EncodeNode(MergeNode(Some(h), None, m))
  {
    var got, merged := Apply(EncodeNode(h), EncodeNode(m)), MergeNode(Some(h), None, m);
    forall k ensures Get(got, k) == Get(EncodeNode(merged), k) {
      OverlaidMember(h, m, k);
      MemberOverlays(h, m, k);
      GetMember(merged, k);
    }
    SameMembers(got, EncodeNode(merged));
  }

  /** The typed merge is exactly what the server computes on JSON. */
  lemma MergeNodeIsThePatch(here: Option<NodeStatus>, before: Option<NodeStatus>, after: NodeStatus)
    requires before.Some? ==> here.Some?
    ensures PatchAt(EncodeEntry(here), EncodeEntry(before), Some(EncodeNode(after)))
         == Some(EncodeNode(MergeNode(here, before, after)))
  {
    EncodeNodeNullFree(after);
    if here.None? {
      ApplyToNothing(Null, EncodeNode(after));
    } else if before.None? {
      OverlayIsApply(here.value, after);
    } else {
      EncodeNodeInjective(before.value, after);
      MergeIsDiff(here.value, before.value, after);
      if before.value == after {
        assert MergeNode(here, before, after) == here.value;
      }
    }
  }

  lemma SameMembers(x: Json, y: Json)
    requires x.Obj? && y.Obj?
    requires forall k :: Get(x, k) == Get(y, k)
    ensures x == y
  {
    forall k ensures k in x.fields <==> k in y.fields { assert Get(x, k) == Get(y, k); }
    forall k | k in x.fields ensures x.fields[k] == y.fields[k] { assert Get(x, k) == Get(y, k); }
    assert x.fields == y.fields;
  }
}
