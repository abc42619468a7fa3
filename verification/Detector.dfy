/** Reading the certificates of one node and classifying how long they remain valid. */
module Detector {
  import opened Wrappers
  import opened Host
  import opened X509
  import opened Generator

  datatype CertName =
    | ApiServer | ApiServerEtcdClient | ApiServerKubeletClient | FrontProxyClient
    | EtcdServer | EtcdPeer | EtcdHealthcheckClient
    | AdminConf | ControllerManagerConf | SchedulerConf | SuperAdminConf

  datatype Health = OK | Approaching | Expired

  datatype CertInfo = CertInfo(name: CertName, path: string, expiry: int, residualDays: int, health: Health)

  function CertFile(name: CertName): Option<string> {
    match name
    case ApiServer => Some("apiserver.crt")
    case ApiServerEtcdClient => Some("apiserver-etcd-client.crt")
    case ApiServerKubeletClient => Some("apiserver-kubelet-client.crt")
    case FrontProxyClient => Some("front-proxy-client.crt")
    case EtcdServer => Some("etcd/server.crt")
    case EtcdPeer => Some("etcd/peer.crt")
    case EtcdHealthcheckClient => Some("etcd/healthcheck-client.crt")
    case _ => None
  }

  function KubeconfigFile(name: CertName): string {
    match name
    case AdminConf => "admin.conf"
    case ControllerManagerConf => "controller-manager.conf"
    case SchedulerConf => "scheduler.conf"
    case SuperAdminConf => "super-admin.conf"
    case _ => ""
  }

  /** The text under which a certificate is reported. */
  function NameText(name: CertName): string {
    match name
    case ApiServer => "apiserver"
    case ApiServerEtcdClient => "apiserver-etcd-client"
    case ApiServerKubeletClient => "apiserver-kubelet-client"
    case FrontProxyClient => "front-proxy-client"
    case EtcdServer => "etcd-server"
    case EtcdPeer => "etcd-peer"
    case EtcdHealthcheckClient => "etcd-healthcheck-client"
    case _ => KubeconfigFile(name)
  }

  datatype Config = Config(pkiDir: string, kubeconfigDir: string, thresholdDays: int)

  function PathOf(cfg: Config, name: CertName): string {
    if CertFile(name).Some? then Join(cfg.pkiDir, CertFile(name).value)
    else Join(cfg.kubeconfigDir, KubeconfigFile(name))
  }

  /** Go's conversion to int drops the fraction: division rounds toward zero. */
  function TruncDiv(a: int, b: int): int
    requires b > 0
  {
    if a >= 0 then a / b else -((-a) / b)
  }

  function ResidualDays(expiry: int, now: int): int {
    TruncDiv(expiry - now, DAY)
  }

  function Classify(thresholdDays: int, residualDays: int): Health {
    if residualDays <= 0 then Expired
    else if residualDays <= thresholdDays then Approaching
    else OK
  }

  function Info(cfg: Config, name: CertName, c: Certificate, now: int): CertInfo {
    var days := ResidualDays(c.notAfter, now);
    CertInfo(name, PathOf(cfg, name), c.notAfter, days, Classify(cfg.thresholdDays, days))
  }

  function Decoded(codec: Codec, name: CertName, bytes: Bytes): Option<Certificate> {
    if CertFile(name).Some? then codec.decodeCert(bytes) else codec.decodeKubeconfig(bytes)
  }

  datatype DetectStep = DetectStep(certs: seq<CertInfo>, fates: seq<Fate>, out: Outcome)

  /** `Detect` from the point where `certs` were found and the files of `order` are still to be
      read. A missing kubeconfig file is skipped, a missing PEM file is an error. */
  function DetectFrom(codec: Codec, d: Disk, cfg: Config, now: int, certs: seq<CertInfo>, order: seq<CertName>,
                      fates: seq<Fate>): DetectStep
    decreases |order|
  {
    if order == [] then DetectStep(certs, fates, Ok)
    else
      var name, rest := order[0], order[1..];
      var r := ReadFile(d, PathOf(cfg, name), fates);
      if r.out == Crash then DetectStep(certs, [], Crash)
      else if r.out == NotExist && CertFile(name).None? then DetectFrom(codec, d, cfg, now, certs, rest, r.fates)
      else if r.out != Ok || Decoded(codec, name, r.bytes).None? then DetectStep(certs, r.fates, Err)
      else DetectFrom(codec, d, cfg, now, certs + [Info(cfg, name, Decoded(codec, name, r.bytes).value, now)], rest, r.fates)
  }

  /** The order in which the two tables happen to be visited: every name once. */
  predicate IsVisit(order: seq<CertName>) {
    (forall n :: n in order) && forall i, j :: 0 <= i < j < |order| ==> order[i] != order[j]
  }

  predicate NeedsRenewal(certs: seq<CertInfo>) {
    exists i :: 0 <= i < |certs| && certs[i].health != OK
  }

  method Detect(codec: Codec, m: Machine, cfg: Config, now: int, order: seq<CertName>)
    returns (certs: seq<CertInfo>, out: Outcome)
    modifies m`fates
    ensures DetectStep(certs, m.fates, out) == DetectFrom(codec, old(m.Now()), cfg, now, [], order, old(m.fates))
  {
    certs := [];
    ghost var whole := DetectFrom(codec, m.Now(), cfg, now, [], order, m.fates);
    for i := 0 to |order|
      invariant m.Now() == old(m.Now())
      invariant DetectFrom(codec, m.Now(), cfg, now, certs, order[i..], m.fates) == whole
    {
      var name := order[i];
      assert order[i..][0] == name && order[i..][1..] == order[i + 1..];
      var bytes;
      bytes, out := m.Read(PathOf(cfg, name));
      if out == Crash {
        return;
      }
      if out == NotExist && CertFile(name).None? {
        continue;
      }
      var c := Decoded(codec, name, bytes);
      if out != Ok || c.None? {
        return certs, Err;
      }
      certs := certs + [Info(cfg, name, c.value, now)];
    }
    out := Ok;
  }

  method AnyNeedsRenewal(certs: seq<CertInfo>) returns (r: bool)
    ensures r <==> NeedsRenewal(certs)
  {
    for i := 0 to |certs|
      invariant forall j :: 0 <= j < i ==> certs[j].health == OK
    {
      if certs[i].health != OK {
        return true;
      }
    }
    r := false;
  }

  /** What a list of certificates says about a disk: every entry was read from its own file. */
  predicate Reports(codec: Codec, d: Disk, cfg: Config, now: int, certs: seq<CertInfo>) {
    forall c :: c in certs ==>
      && PathOf(cfg, c.name) in d.files
      && Decoded(codec, c.name, d.files[PathOf(cfg, c.name)]).Some?
      && c == Info(cfg, c.name, Decoded(codec, c.name, d.files[PathOf(cfg, c.name)]).value, now)
  }

  /** Nothing is left out: every certificate with a file of its own, and every kubeconfig that is
      there. */
  ghost predicate Complete(d: Disk, cfg: Config, certs: seq<CertInfo>) {
    forall n: CertName :: CertFile(n).Some? || PathOf(cfg, n) in d.files ==> exists c :: c in certs && c.name == n
  }

  predicate Distinct(certs: seq<CertInfo>) {
    forall i, j :: 0 <= i < j < |certs| ==> certs[i].name != certs[j].name
  }

  /** The list is what detection has to find on the disk. */
  ghost predicate Finds(codec: Codec, d: Disk, cfg: Config, now: int, certs: seq<CertInfo>) {
    Reports(codec, d, cfg, now, certs) && Complete(d, cfg, certs) && Distinct(certs)
  }

  lemma {:induction false} DetectIsFaithful(codec: Codec, d: Disk, cfg: Config, now: int, certs: seq<CertInfo>,
                                            order: seq<CertName>, fates: seq<Fate>)
    requires DetectFrom(codec, d, cfg, now, certs, order, fates).out == Ok
    requires Reports(codec, d, cfg, now, certs) && Distinct(certs)
    requires forall i, j :: 0 <= i < j < |order| ==> order[i] != order[j]
    requires forall c :: c in certs ==> c.name !in order
    ensures var r := DetectFrom(codec, d, cfg, now, certs, order, fates).certs;
      && Reports(codec, d, cfg, now, r) && Distinct(r)
      && (forall c :: c in certs ==> c in r)
      && (forall n :: n in order && (CertFile(n).Some? || PathOf(cfg, n) in d.files) ==> exists c :: c in r && c.name == n)
    decreases |order|
  {
    if order != [] {
      var name, rest := order[0], order[1..];
      var s := ReadFile(d, PathOf(cfg, name), fates);
      if s.out == Ok {
        var c := Info(cfg, name, Decoded(codec, name, s.bytes).value, now);
        DetectIsFaithful(codec, d, cfg, now, certs + [c], rest, s.fates);
        assert c in certs + [c];
      } else {
        DetectIsFaithful(codec, d, cfg, now, certs, rest, s.fates);
      }
    }
  }
}
