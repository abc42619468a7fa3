/** What the renewal loop keeps at every step: however it ends, whole pairs before the current
    certificate, untouched pairs after it. */
module RenewalLaws {
  import opened Host
  import opened X509
  import opened Generator
  import opened Detector
  import opened Renewal
  import opened Backup
  import opened BackupLaws

  predicate IsPem(name: CertName) {
    CertPaths(name).Some?
  }

  function CrtPath(pkiDir: string, name: CertName): string
    requires IsPem(name)
  {
    Join(pkiDir, CertPaths(name).value.0)
  }

  function KeyPath(pkiDir: string, name: CertName): string
    requires IsPem(name)
  {
    Join(pkiDir, CertPaths(name).value.1)
  }

  /** The key on disk belongs to the certificate on disk. */
  predicate PairMatches(codec: Codec, d: Disk, pkiDir: string, name: CertName)
    requires IsPem(name)
  {
    var crt, key := CrtPath(pkiDir, name), KeyPath(pkiDir, name);
    crt in d.files && key in d.files &&
    codec.decodeCert(d.files[crt]).Some? && codec.decodeKey(d.files[key]).Some? &&
    codec.decodeCert(d.files[crt]).value.publicKey == codec.decodeKey(d.files[key]).value.public
  }

  predicate SamePair(d: Disk, e: Disk, pkiDir: string, name: CertName)
    requires IsPem(name)
  {
    SameAt(d, e, CrtPath(pkiDir, name)) && SameAt(d, e, KeyPath(pkiDir, name))
  }

  /** `e` holds the renewal of the certificate that `d` holds: mirrored from it, signed by the CA
      it is routed to as found on `d`, with the freshly drawn key beside it. */
  predicate Renewed(env: Env, d: Disk, e: Disk, name: CertName)
    requires IsPem(name)
  {
    var crt, key, ca := CrtPath(env.pkiDir, name), KeyPath(env.pkiDir, name), CAForCert(name);
    && crt in d.files && ca.0 in d.files && ca.1 in d.files && crt in e.files && key in e.files
    && var existing, caCert, caKey := env.codec.decodeCert(d.files[crt]), env.codec.decodeCert(d.files[ca.0]), env.codec.decodeKey(d.files[ca.1]);
    && existing.Some? && caCert.Some? && caKey.Some?
    && var renewed := SignWithSelfKey(existing.value, caCert.value, caKey.value, env.seeds(name));
    && renewed.Some? && e.files[crt] == env.codec.encodeCert(renewed.value) && e.files[key] == env.codec.encodeKey(env.seeds(name).key)
  }

  lemma RenewedMeans(env: Env, d: Disk, e: Disk, name: CertName)
    requires IsPem(name) && Lawful(env.codec) && Renewed(env, d, e, name)
    ensures PairMatches(env.codec, e, env.pkiDir, name)
    ensures var c := env.codec.decodeCert(e.files[CrtPath(env.pkiDir, name)]).value;
      var ca := env.codec.decodeCert(d.files[CAForCert(name).0]).value;
      && c.signedBy == ca.publicKey && c.issuer == ca.subject
      && c.serial == env.seeds(name).serial && c.publicKey == env.seeds(name).key.public
      && c.notBefore == env.seeds(name).now - 10 * MINUTE && c.notAfter == env.seeds(name).now + 365 * DAY
      && Mirrors(c, env.codec.decodeCert(d.files[CrtPath(env.pkiDir, name)]).value)
  {
    var crt, ca := CrtPath(env.pkiDir, name), CAForCert(name);
    RenewalMirrors(env.codec.decodeCert(d.files[crt]).value, env.codec.decodeCert(d.files[ca.0]).value,
                   env.codec.decodeKey(d.files[ca.1]).value, env.seeds(name));
  }

  // ---- geometry of the targets ----

  lemma NamesDiffer(a: CertName, b: CertName)
    requires IsPem(a) && IsPem(b) && a != b
    ensures CertPaths(a).value.0 != CertPaths(b).value.0 && CertPaths(a).value.1 != CertPaths(b).value.1
  {
    assert "apiserver.crt"[0] != "etcd/peer.crt"[0] && "apiserver.key"[0] != "etcd/peer.key"[0];
  }

  lemma TargetsEnd(pkiDir: string, a: CertName)
    requires IsPem(a)
    ensures var c, k := CrtPath(pkiDir, a), KeyPath(pkiDir, a);
      c != "" && k != "" && c[|c| - 1] == 't' && k[|k| - 1] == 'y'
  {
    var x := CertPaths(a).value;
    assert x.0 != "" && x.0[|x.0| - 1] == 't' && x.1 != "" && x.1[|x.1| - 1] == 'y';
  }

  /** The fourteen targets are fourteen different files. */
  lemma TargetsDiffer(pkiDir: string, a: CertName, b: CertName)
    requires IsPem(a) && IsPem(b)
    ensures CrtPath(pkiDir, a) != KeyPath(pkiDir, b)
    ensures a != b ==> CrtPath(pkiDir, a) != CrtPath(pkiDir, b) && KeyPath(pkiDir, a) != KeyPath(pkiDir, b)
  {
    TargetsEnd(pkiDir, a);
    TargetsEnd(pkiDir, b);
    if a != b {
      NamesDiffer(a, b);
      JoinDiffers(pkiDir, CertPaths(a).value.0, CertPaths(b).value.0);
      JoinDiffers(pkiDir, CertPaths(a).value.1, CertPaths(b).value.1);
    }
  }

  lemma JoinDiffers(dir: string, x: string, y: string)
    requires x != y
    ensures Join(dir, x) != Join(dir, y)
  {
    if Join(dir, x) == Join(dir, y) { SameDirSameName(dir, x, y); }
  }

  /** The fifth character from the end: 'a' for every CA file, never for a target. */
  predicate LooksLikeCa(p: string) {
    |p| >= 5 && p[|p| - 5] == 'a'
  }

  lemma TargetsAreNoCaFiles(pkiDir: string, a: CertName)
    requires IsPem(a)
    ensures !LooksLikeCa(CrtPath(pkiDir, a)) && !LooksLikeCa(KeyPath(pkiDir, a))
  {
    var x := CertPaths(a).value;
    assert CrtPath(pkiDir, a)[|CrtPath(pkiDir, a)| - 5] == x.0[|x.0| - 5];
    assert KeyPath(pkiDir, a)[|KeyPath(pkiDir, a)| - 5] == x.1[|x.1| - 5];
  }

  lemma CaFilesLookLikeCa(a: CertName)
    ensures LooksLikeCa(CAForCert(a).0) && LooksLikeCa(CAForCert(a).1)
  {
  }

  /** Every target is one of the files that are backed up. */
  lemma TargetsAreListed(dirs: Dirs, a: CertName)
    requires IsPem(a)
    ensures IsLive(dirs, CrtPath(dirs.pki, a)) && IsLive(dirs, KeyPath(dirs.pki, a))
  {
    var i := if a == ApiServer then 2 else if a == ApiServerEtcdClient then 4 else if a == ApiServerKubeletClient then 6
      else if a == FrontProxyClient then 10 else if a == EtcdServer then 14 else if a == EtcdPeer then 16 else 18;
    assert Name(i) == CertPaths(a).value.0 && Name(i + 1) == CertPaths(a).value.1;
    assert Live(dirs, i) == CrtPath(dirs.pki, a) && Live(dirs, i + 1) == KeyPath(dirs.pki, a);
  }

  predicate IsTarget(pkiDir: string, p: string) {
    exists a :: IsPem(a) && (p == CrtPath(pkiDir, a) || p == KeyPath(pkiDir, a))
  }

  // ---- one certificate ----

  lemma WriteIntoLaw(d: Disk, path: string, data: Bytes, fates: seq<Fate>)
    ensures var s := WriteInto(d, path, data, fates);
      && d.dirs <= s.disk.dirs && (forall p :: p != path ==> SameAt(d, s.disk, p)) && (Sound(d) ==> Sound(s.disk))
      && s.out != NotExist && s.out != Panic
      && (s.out == Ok ==> path in s.disk.files && s.disk.files[path] == data)
  {
    assert Dir(path)[..|Dir(path)|] == Dir(path);
    assert Dir(path) in Ancestors(Dir(path), |Dir(path)|);
  }

  lemma RenewOneLaw(env: Env, d: Disk, info: CertInfo, fates: seq<Fate>)
    ensures var s := RenewOne(env, d, info, fates);
      && d.dirs <= s.disk.dirs && (Sound(d) ==> Sound(s.disk)) && s.out != NotExist && s.out != Panic
      && (!IsPem(info.name) ==> s.disk == d && s.out != Ok)
      && (IsPem(info.name) ==> forall p :: p != CrtPath(env.pkiDir, info.name) && p != KeyPath(env.pkiDir, info.name) ==> SameAt(d, s.disk, p))
      && (s.out == Ok && info.path == CrtPath(env.pkiDir, info.name) ==> Renewed(env, d, s.disk, info.name))
  {
    var s := RenewOne(env, d, info, fates);
    var existing := Load(env.codec.decodeCert, d, info.path, fates);
    var ca := Load(env.codec.decodeCert, d, CAForCert(info.name).0, existing.fates);
    var caKey := Load(env.codec.decodeKey, d, CAForCert(info.name).1, ca.fates);
    if existing.out == Ok && ca.out == Ok && caKey.out == Ok && Ask(caKey.fates).0 == Ok && IsPem(info.name) {
      var seed := env.seeds(info.name);
      var cert := SignWithSelfKey(existing.value.value, ca.value.value, caKey.value.value, seed);
      if cert.Some? {
        var crt, key := CrtPath(env.pkiDir, info.name), KeyPath(env.pkiDir, info.name);
        var w := WriteInto(d, crt, env.codec.encodeCert(cert.value), Ask(caKey.fates).1);
        WriteIntoLaw(d, crt, env.codec.encodeCert(cert.value), Ask(caKey.fates).1);
        if w.out == Ok {
          WriteIntoLaw(w.disk, key, env.codec.encodeKey(seed.key), w.fates);
          TargetsDiffer(env.pkiDir, info.name, info.name);
          forall p | p != crt && p != key ensures SameAt(d, s.disk, p) {
            assert SameAt(d, w.disk, p) && SameAt(w.disk, s.disk, p);
          }
          assert SameAt(w.disk, s.disk, crt);
        }
      }
    }
  }

  // ---- the loop ----

  /** The list comes from detection: names are distinct, paths are those of the table. */
  predicate FromDetection(env: Env, certs: seq<CertInfo>) {
    Distinct(certs) && forall c :: c in certs && IsPem(c.name) ==> c.path == CrtPath(env.pkiDir, c.name)
  }

  /** The first n certificates were dealt with: those due are renewed, the rest of the disk is as
      before, except possibly the pair of the n-th. */
  ghost predicate Progress(env: Env, d: Disk, e: Disk, certs: seq<CertInfo>, n: nat)
    requires n <= |certs|
  {
    && (forall j :: 0 <= j < n && certs[j].health != OK ==> IsPem(certs[j].name) && Renewed(env, d, e, certs[j].name))
    && (forall a :: IsPem(a) && !DueWithin(certs, Upto(certs, n), a) ==> SamePair(d, e, env.pkiDir, a))
    && (forall p :: !IsTarget(env.pkiDir, p) ==> SameAt(d, e, p))
    && d.dirs <= e.dirs && (Sound(d) ==> Sound(e))
  }

  function Upto(certs: seq<CertInfo>, n: nat): nat
    requires n <= |certs|
    ensures Upto(certs, n) <= |certs|
  {
    if n < |certs| then n + 1 else n
  }

  predicate DueWithin(certs: seq<CertInfo>, n: nat, a: CertName)
    requires n <= |certs|
  {
    exists j :: 0 <= j < n && certs[j].health != OK && certs[j].name == a
  }

  lemma RestFromDetection(env: Env, certs: seq<CertInfo>)
    requires FromDetection(env, certs) && certs != []
    ensures FromDetection(env, certs[1..])
  {
    assert forall c :: c in certs[1..] ==> c in certs;
  }

  lemma {:induction false} RenewAllProgress(env: Env, d: Disk, certs: seq<CertInfo>, fates: seq<Fate>) returns (n: nat)
    requires FromDetection(env, certs)
    ensures n <= |certs| && Progress(env, d, RenewAll(env, d, certs, fates).disk, certs, n)
    ensures RenewAll(env, d, certs, fates).out == Ok ==> n == |certs|
    ensures RenewAll(env, d, certs, fates).out != NotExist && RenewAll(env, d, certs, fates).out != Panic
    decreases |certs|
  {
    var r := RenewAll(env, d, certs, fates);
    if certs == [] {
      n := 0;
    } else {
      var info, rest := certs[0], certs[1..];
      RestFromDetection(env, certs);
      if info.health == OK {
        var k := RenewAllProgress(env, d, rest, fates);
        n := k + 1;
        ShiftOk(env, d, r.disk, certs, k);
      } else {
        var s := RenewOne(env, d, info, fates);
        RenewOneLaw(env, d, info, fates);
        if s.out != Ok {
          n := 0;
          StopAtFirst(env, d, s.disk, certs);
        } else {
          assert info in certs;
          var k := RenewAllProgress(env, s.disk, rest, s.fates);
          n := k + 1;
          ShiftRenewed(env, d, s.disk, r.disk, certs, k);
        }
      }
    }
  }

  lemma ShiftDue(certs: seq<CertInfo>, k: nat, a: CertName)
    requires certs != [] && k <= |certs| - 1
    ensures DueWithin(certs, Upto(certs, k + 1), a) <==>
            (certs[0].health != OK && certs[0].name == a) || DueWithin(certs[1..], Upto(certs[1..], k), a)
  {
    var rest := certs[1..];
    if DueWithin(rest, Upto(rest, k), a) {
      var j :| 0 <= j < Upto(rest, k) && rest[j].health != OK && rest[j].name == a;
      assert certs[j + 1] == rest[j];
    }
    if j :| 0 <= j < Upto(certs, k + 1) && certs[j].health != OK && certs[j].name == a {
      if j > 0 { assert rest[j - 1] == certs[j]; }
    }
  }

  lemma ShiftOk(env: Env, d: Disk, e: Disk, certs: seq<CertInfo>, k: nat)
    requires certs != [] && certs[0].health == OK && k <= |certs| - 1
    requires Progress(env, d, e, certs[1..], k)
    ensures Progress(env, d, e, certs, k + 1)
  {
    forall a ensures DueWithin(certs, Upto(certs, k + 1), a) <==> DueWithin(certs[1..], Upto(certs[1..], k), a) {
      ShiftDue(certs, k, a);
    }
    forall j | 0 <= j < k + 1 && certs[j].health != OK ensures IsPem(certs[j].name) && Renewed(env, d, e, certs[j].name) {
      assert certs[j] == certs[1..][j - 1];
    }
  }

  lemma StopAtFirst(env: Env, d: Disk, e: Disk, certs: seq<CertInfo>)
    requires certs != [] && certs[0].health != OK
    requires d.dirs <= e.dirs && (Sound(d) ==> Sound(e))
    requires !IsPem(certs[0].name) ==> e == d
    requires IsPem(certs[0].name) ==> forall p :: p != CrtPath(env.pkiDir, certs[0].name) && p != KeyPath(env.pkiDir, certs[0].name) ==> SameAt(d, e, p)
    ensures Progress(env, d, e, certs, 0)
  {
    forall a | IsPem(a) && !DueWithin(certs, Upto(certs, 0), a) ensures SamePair(d, e, env.pkiDir, a) {
      assert certs[0].name != a;
      if IsPem(certs[0].name) {
        TargetsDiffer(env.pkiDir, a, certs[0].name);
        TargetsDiffer(env.pkiDir, certs[0].name, a);
      }
    }
  }

  lemma ShiftRenewed(env: Env, d: Disk, s: Disk, e: Disk, certs: seq<CertInfo>, k: nat)
    requires certs != [] && certs[0].health != OK && k <= |certs| - 1 && Distinct(certs)
    requires IsPem(certs[0].name) && Renewed(env, d, s, certs[0].name)
    requires forall p :: p != CrtPath(env.pkiDir, certs[0].name) && p != KeyPath(env.pkiDir, certs[0].name) ==> SameAt(d, s, p)
    requires d.dirs <= s.dirs && (Sound(d) ==> Sound(s))
    requires Progress(env, s, e, certs[1..], k)
    ensures Progress(env, d, e, certs, k + 1)
  {
    var first, rest := certs[0].name, certs[1..];
    forall a ensures DueWithin(certs, Upto(certs, k + 1), a) <==> a == first || DueWithin(rest, Upto(rest, k), a) {
      ShiftDue(certs, k, a);
    }
    forall a | IsPem(a) && a != first ensures SamePair(d, s, env.pkiDir, a) {
      TargetsDiffer(env.pkiDir, a, first);
      TargetsDiffer(env.pkiDir, first, a);
    }
    forall a | IsPem(a) && !DueWithin(certs, Upto(certs, k + 1), a) ensures SamePair(d, e, env.pkiDir, a) {
      assert SamePair(d, s, env.pkiDir, a) && SamePair(s, e, env.pkiDir, a);
    }
    forall p | !IsTarget(env.pkiDir, p) ensures SameAt(d, e, p) {
      assert SameAt(d, s, p) && SameAt(s, e, p);
    }
    forall j | 0 <= j < k + 1 && certs[j].health != OK ensures IsPem(certs[j].name) && Renewed(env, d, e, certs[j].name) {
      if j == 0 {
        assert !DueWithin(rest, Upto(rest, k), first) by {
          assert forall i :: 0 <= i < |rest| ==> rest[i] == certs[i + 1];
        }
        assert SamePair(s, e, env.pkiDir, first);
      } else {
        assert certs[j] == rest[j - 1];
        RenewedEarlier(env, d, s, e, first, certs[j].name);
      }
    }
  }

  lemma RenewedFrom(env: Env, d: Disk, s: Disk, e: Disk, name: CertName)
    requires IsPem(name) && Renewed(env, s, e, name)
    requires SameAt(d, s, CrtPath(env.pkiDir, name)) && SameAt(d, s, CAForCert(name).0) && SameAt(d, s, CAForCert(name).1)
    ensures Renewed(env, d, e, name)
  {
  }

  /** The CA files and the other certificates are as on the original disk, so renewing from the
      intermediate disk is renewing from the original one. */
  lemma RenewedEarlier(env: Env, d: Disk, s: Disk, e: Disk, first: CertName, name: CertName)
    requires IsPem(first) && IsPem(name) && first != name
    requires forall p :: p != CrtPath(env.pkiDir, first) && p != KeyPath(env.pkiDir, first) ==> SameAt(d, s, p)
    requires Renewed(env, s, e, name)
    ensures Renewed(env, d, e, name)
  {
    InputsAreNoTargets(env.pkiDir, first, name);
    RenewedFrom(env, d, s, e, name);
  }

  /** What the renewal of one certificate reads, the renewal of another does not write. */
  lemma InputsAreNoTargets(pkiDir: string, first: CertName, name: CertName)
    requires IsPem(first) && IsPem(name) && first != name
    ensures CrtPath(pkiDir, first) !in {CrtPath(pkiDir, name), CAForCert(name).0, CAForCert(name).1}
    ensures KeyPath(pkiDir, first) !in {CrtPath(pkiDir, name), CAForCert(name).0, CAForCert(name).1}
  {
    TargetsDiffer(pkiDir, name, first);
    CaFilesLookLikeCa(name);
    TargetsAreNoCaFiles(pkiDir, first);
  }

  // ---- what a reader is promised ----

  /** If all pairs match before the loop, then however and wherever it stops at most one pair does
      not match, and only a certificate that was due can be affected. */
  lemma AtMostOneBrokenPair(env: Env, d: Disk, certs: seq<CertInfo>, fates: seq<Fate>, a: CertName, b: CertName)
    requires Lawful(env.codec) && FromDetection(env, certs) && IsPem(a) && IsPem(b)
    requires PairMatches(env.codec, d, env.pkiDir, a) && PairMatches(env.codec, d, env.pkiDir, b)
    ensures var e := RenewAll(env, d, certs, fates).disk;
      !PairMatches(env.codec, e, env.pkiDir, a) ==>
        && (exists c :: c in certs && c.name == a && c.health != OK)
        && RenewAll(env, d, certs, fates).out != Ok
        && (!PairMatches(env.codec, e, env.pkiDir, b) ==> a == b)
  {
    var n := RenewAllProgress(env, d, certs, fates);
    BrokenIsCurrent(env, d, RenewAll(env, d, certs, fates).disk, certs, n, a);
    BrokenIsCurrent(env, d, RenewAll(env, d, certs, fates).disk, certs, n, b);
  }

  lemma BrokenIsCurrent(env: Env, d: Disk, e: Disk, certs: seq<CertInfo>, n: nat, a: CertName)
    requires Lawful(env.codec) && n <= |certs| && Progress(env, d, e, certs, n) && IsPem(a)
    requires PairMatches(env.codec, d, env.pkiDir, a)
    ensures !PairMatches(env.codec, e, env.pkiDir, a) ==> n < |certs| && certs[n].name == a && certs[n].health != OK
  {
    if DueWithin(certs, Upto(certs, n), a) {
      var j :| 0 <= j < Upto(certs, n) && certs[j].health != OK && certs[j].name == a;
      if j < n {
        RenewedMatches(env, d, e, a);
      }
    } else {
      SameStillMatches(env, d, e, a);
    }
  }

  lemma RenewedMatches(env: Env, d: Disk, e: Disk, a: CertName)
    requires Lawful(env.codec) && IsPem(a) && Renewed(env, d, e, a)
    ensures PairMatches(env.codec, e, env.pkiDir, a)
  {
    RenewedMeans(env, d, e, a);
  }

  lemma SameStillMatches(env: Env, d: Disk, e: Disk, a: CertName)
    requires IsPem(a) && PairMatches(env.codec, d, env.pkiDir, a) && SamePair(d, e, env.pkiDir, a)
    ensures PairMatches(env.codec, e, env.pkiDir, a)
  {
  }

  /** A loop that completes renewed exactly the certificates that were due, left the files of the
      others alone, wrote nothing else, and in particular no CA file; and none of the certificates
      that were due came from a kubeconfig. */
  lemma CompleteRenewal(env: Env, d: Disk, certs: seq<CertInfo>, fates: seq<Fate>)
    requires FromDetection(env, certs) && RenewAll(env, d, certs, fates).out == Ok
    ensures var e := RenewAll(env, d, certs, fates).disk;
      && (forall c :: c in certs && c.health != OK ==> IsPem(c.name) && Renewed(env, d, e, c.name))
      && (forall a :: IsPem(a) && (forall c :: c in certs && c.name == a ==> c.health == OK) ==> SamePair(d, e, env.pkiDir, a))
      && (forall p :: !IsTarget(env.pkiDir, p) ==> SameAt(d, e, p))
      && (forall p :: LooksLikeCa(p) ==> SameAt(d, e, p))
  {
    var n := RenewAllProgress(env, d, certs, fates);
    forall p | LooksLikeCa(p) ensures !IsTarget(env.pkiDir, p) {
      if a :| IsPem(a) && (p == CrtPath(env.pkiDir, a) || p == KeyPath(env.pkiDir, a)) {
        TargetsAreNoCaFiles(env.pkiDir, a);
      }
    }
  }

  /** A kubeconfig certificate that is due makes every renewal fail. */
  lemma KubeconfigCertBlocksRenewal(env: Env, d: Disk, certs: seq<CertInfo>, fates: seq<Fate>, c: CertInfo)
    requires FromDetection(env, certs) && c in certs && c.health != OK && !IsPem(c.name)
    ensures RenewAll(env, d, certs, fates).out != Ok
  {
    var n := RenewAllProgress(env, d, certs, fates);
    var j :| 0 <= j < |certs| && certs[j] == c;
  }
}
