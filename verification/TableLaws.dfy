/** How the tables of the detector, the signer, the writer and the backup agree: one name per
    certificate, and the file, the CA and the backup that belong to the name. */
module TableLaws {
  import opened Wrappers
  import opened Detector
  import opened Renewal
  import opened RenewalLaws
  import opened Backup
  import opened BackupLaws
  import opened RotationLaws

  /** The file of a certificate without its suffix: the certificates of etcd have a directory of their
      own. */
  function Base(text: string): string {
    if "etcd-" <= text then "etcd/" + text[5..] else text
  }

  lemma PlainFile(n: CertName)
    requires n in {ApiServer, ApiServerEtcdClient, ApiServerKubeletClient, FrontProxyClient}
    ensures CertPaths(n) == Some((Base(NameText(n)) + ".crt", Base(NameText(n)) + ".key"))
  {
    var text := NameText(n);
    assert text[0] != "etcd-"[0];
    assert CertPaths(n).value.0 == text + ".crt";
    assert CertPaths(n).value.1 == text + ".key";
  }

  predicate LivesWithEtcd(n: CertName) {
    n in {EtcdServer, EtcdPeer, EtcdHealthcheckClient}
  }

  function Stem(n: CertName): string {
    match n
    case EtcdServer => "server"
    case EtcdPeer => "peer"
    case _ => "healthcheck-client"
  }

  lemma EtcdName(n: CertName)
    requires LivesWithEtcd(n)
    ensures "etcd-" <= NameText(n) && NameText(n)[5..] == Stem(n)
  {
    assert NameText(n) == "etcd-" + Stem(n);
  }

  lemma EtcdCertFile(n: CertName)
    requires LivesWithEtcd(n)
    ensures CertPaths(n).Some? && CertPaths(n).value.0 == "etcd/" + Stem(n) + ".crt"
  {
    var path := "etcd/" + Stem(n) + ".crt";
    match n
    case EtcdServer => assert path == "etcd/server.crt";
    case EtcdPeer => assert path == "etcd/peer.crt";
    case EtcdHealthcheckClient => assert path == "etcd/healthcheck-client.crt";
  }

  lemma EtcdKeyFile(n: CertName)
    requires LivesWithEtcd(n)
    ensures CertPaths(n).Some? && CertPaths(n).value.1 == "etcd/" + Stem(n) + ".key"
  {
    var path := "etcd/" + Stem(n) + ".key";
    match n
    case EtcdServer => assert path == "etcd/server.key";
    case EtcdPeer => assert path == "etcd/peer.key";
    case EtcdHealthcheckClient => assert path == "etcd/healthcheck-client.key";
  }

  /** A certificate is reported under the name of its file, and kubeconfigs under their own. The tables
      of the detector and of the writer name the same file, and the writer's the key beside it. */
  lemma NamesFollowFiles(n: CertName)
    ensures CertFile(n) == match CertPaths(n) case Some(paths) => Some(paths.0) case None => None
    ensures CertFile(n).Some? ==> CertPaths(n) == Some((Base(NameText(n)) + ".crt", Base(NameText(n)) + ".key"))
    ensures CertFile(n).None? ==> NameText(n) == KubeconfigFile(n) != ""
  {
    if LivesWithEtcd(n) {
      EtcdName(n);
      EtcdCertFile(n);
      EtcdKeyFile(n);
    } else if CertFile(n).Some? {
      PlainFile(n);
    }
  }

  /** No two certificates are reported under one name. */
  lemma NamesAreDistinct(a: CertName, b: CertName)
    requires a != b
    ensures NameText(a) != NameText(b)
  {
    assert NameText(ApiServer)[0] != NameText(EtcdPeer)[0];
    assert NameText(EtcdHealthcheckClient)[0] != NameText(ControllerManagerConf)[0];
  }

  predicate OccursAt(text: string, word: string, i: nat) {
    i + |word| <= |text| && text[i..i + |word|] == word
  }

  predicate Mentions(text: string, word: string) {
    exists i: nat :: i <= |text| && OccursAt(text, word, i)
  }

  lemma MentionsEtcd(text: string)
    ensures Mentions(text, "etcd") ==> 'd' in text && 't' in text
  {
    if i: nat :| i <= |text| && OccursAt(text, "etcd", i) {
      assert text[i + 1] == text[i..i + 4][1] && text[i + 3] == text[i..i + 4][3];
    }
  }

  lemma EtcdAt(text: string, i: nat)
    requires i + 4 <= |text| && text[i] == 'e' && text[i + 1] == 't' && text[i + 2] == 'c' && text[i + 3] == 'd'
    ensures Mentions(text, "etcd")
  {
    assert text[i..i + 4] == "etcd";
    assert OccursAt(text, "etcd", i);
  }

  predicate UsesEtcd(n: CertName) {
    n in {ApiServerEtcdClient, EtcdServer, EtcdPeer, EtcdHealthcheckClient}
  }

  lemma WhoMentionsEtcd(n: CertName)
    ensures Mentions(NameText(n), "etcd") <==> UsesEtcd(n)
  {
    if UsesEtcd(n) {
      EtcdAt(NameText(n), if n == ApiServerEtcdClient then 10 else 0);
    } else {
      MentionsEtcd(NameText(n));
      NoEtcd(n);
    }
  }

  lemma NoEtcd(n: CertName)
    requires !UsesEtcd(n)
    ensures if n in {AdminConf, SchedulerConf, SuperAdminConf} then 't' !in NameText(n) else 'd' !in NameText(n)
  {
  }

  /** Certificates whose name mentions etcd are signed by the CA of etcd, the front proxy's by its own CA,
      and all others by the cluster's. */
  lemma CaFollowsName(n: CertName)
    ensures CAForCert(n) ==
      if Mentions(NameText(n), "etcd") then ("/etc/kubernetes/pki/etcd/ca.crt", "/etc/kubernetes/pki/etcd/ca.key")
      else if "front-proxy" <= NameText(n) then ("/etc/kubernetes/pki/front-proxy-ca.crt", "/etc/kubernetes/pki/front-proxy-ca.key")
      else ("/etc/kubernetes/pki/ca.crt", "/etc/kubernetes/pki/ca.key")
  {
    WhoMentionsEtcd(n);
    if n == FrontProxyClient {
      assert "front-proxy" <= NameText(n);
    } else {
      assert NameText(n)[0] != "front-proxy"[0];
    }
  }

  /** Everything that detection reads and, where the PKI directory is the usual one, every CA file that
      signing reads, is backed up. */
  lemma FilesReadAreListed(dirs: Dirs, thresholdDays: int, n: CertName)
    ensures IsLive(dirs, PathOf(Config(dirs.pki, dirs.kubeconfig, thresholdDays), n))
    ensures dirs.pki == CA_DIR ==> IsLive(dirs, CAForCert(n).0) && IsLive(dirs, CAForCert(n).1)
  {
    if IsPem(n) {
      TargetsAreListed(dirs, n);
    } else {
      var i := if n == AdminConf then 20 else if n == ControllerManagerConf then 21 else if n == SchedulerConf then 22 else 23;
      assert Live(dirs, i) == PathOf(Config(dirs.pki, dirs.kubeconfig, thresholdDays), n);
    }
    if dirs.pki == CA_DIR {
      CaIsListed(dirs, n);
    }
  }

  function CaIndex(n: CertName): nat {
    if CaBase(n) == "/etcd/ca" then 12 else if CaBase(n) == "/front-proxy-ca" then 8 else 0
  }

  lemma CaCertNames(n: CertName)
    ensures Name(CaIndex(n)) == CaBase(n)[1..] + ".crt"
  {
    assert |"/etcd/ca"| == 8 && |"/front-proxy-ca"| == 15 && |"/ca"| == 3;
  }

  lemma CaKeyNames(n: CertName)
    ensures Name(CaIndex(n) + 1) == CaBase(n)[1..] + ".key"
  {
    assert |"/etcd/ca"| == 8 && |"/front-proxy-ca"| == 15 && |"/ca"| == 3;
    var key := CaBase(n)[1..] + ".key";
    if CaIndex(n) == 12 {
      assert key == "etcd/ca.key";
    } else if CaIndex(n) == 8 {
      assert key == "front-proxy-ca.key";
    } else {
      assert key == "ca.key";
    }
  }

  lemma CaIsListed(dirs: Dirs, n: CertName)
    requires dirs.pki == CA_DIR
    ensures IsLive(dirs, CAForCert(n).0) && IsLive(dirs, CAForCert(n).1)
  {
    CaPaths(n);
    CaCertNames(n);
    CaKeyNames(n);
    PathParts(CA_DIR, CaBase(n), ".crt");
    PathParts(CA_DIR, CaBase(n), ".key");
    assert CAForCert(n).0 == Live(dirs, CaIndex(n)) && CAForCert(n).1 == Live(dirs, CaIndex(n) + 1);
  }

  /** A name of a node or a time stamp. */
  predicate Plain(s: string) {
    forall i :: 0 <= i < |s| ==> s[i] != '/'
  }

  lemma SplitAtSlash(a: string, b: string, x: string, y: string)
    requires Plain(a) && Plain(b) && a + "/" + x == b + "/" + y
    ensures a == b && x == y
  {
    var s := a + "/" + x;
    assert s[|a|] == '/' && s[|b|] == '/';
    assert (forall i :: 0 <= i < |a| ==> s[i] == a[i]) && (forall i :: 0 <= i < |b| ==> s[i] == b[i]);
    assert a == s[..|a|] == b && x == s[|a| + 1..] == y;
  }

  /** No two backups share a path: not those of two nodes, and not those of two times. */
  lemma BackupPathsDiffer(dirs: Dirs, node: string, stamp: string, other: string, later: string)
    requires Plain(node) && Plain(other) && (node != other || stamp != later)
    ensures BackupPath(dirs, node, stamp) != BackupPath(dirs, other, later)
  {
    if BackupPath(dirs, node, stamp) == BackupPath(dirs, other, later) {
      var p, home := BackupPath(dirs, node, stamp), dirs.backup + "/";
      assert p[|home|..] == node + "/" + stamp && p[|home|..] == other + "/" + later;
      SplitAtSlash(node, other, stamp, later);
    }
  }
}
