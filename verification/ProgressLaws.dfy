/** When a rotation succeeds: exactly what the disk must hold for a live renewal that nothing
    disturbs. */
module ProgressLaws {
  import opened Wrappers
  import opened Host
  import opened Generator
  import opened Detector
  import opened BackupLaws
  import opened Renewal
  import opened RenewalLaws
  import opened PodRestart
  import opened Reconcile
  import opened ReconcileLaws
  import opened RotationLaws

  /** The certificate has files, and its CA a certificate and the key that belongs to it. */
  predicate Renewable(env: Env, d: Disk, name: CertName) {
    IsPem(name)
    && var crt, ca := CrtPath(env.pkiDir, name), CAForCert(name);
    crt in d.files && ca.0 in d.files && ca.1 in d.files
    && var existing, caCert, caKey := env.codec.decodeCert(d.files[crt]), env.codec.decodeCert(d.files[ca.0]), env.codec.decodeKey(d.files[ca.1]);
    existing.Some? && caCert.Some? && caKey.Some? && caKey.value.public == caCert.value.publicKey
  }

  /** The component has a manifest, and that is a mapping. */
  predicate Restartable(su: Setup, d: Disk, name: string) {
    ManifestPath(d, su.dir, name).Some?
    && var parsed := su.codec.decodeManifest(d.files[ManifestPath(d, su.dir, name).value]);
    parsed.Some? && parsed.value.Obj?
  }

  lemma UndisturbedRest(fates: seq<Fate>, k: nat)
    requires Undisturbed(fates) && k <= |fates|
    ensures Undisturbed(fates[k..]) && (k < |fates| ==> fates[k].Done?)
  {
    if k < |fates| { assert fates[k] in fates; }
  }

  // ---- the renewal loop ----

  lemma UndisturbedLoad<T>(decode: Bytes -> Option<T>, d: Disk, path: string, fates: seq<Fate>)
    requires fates != [] && fates[0].Done? && path in d.files && decode(d.files[path]).Some?
    ensures Load(decode, d, path, fates) == Loaded(decode(d.files[path]), fates[1..], Ok)
  {
  }

  lemma UndisturbedWrite(d: Disk, path: string, data: Bytes, fates: seq<Fate>)
    requires |fates| >= 2 && fates[0].Done? && fates[1].Done?
    ensures var s := WriteInto(d, path, data, fates); s.out == Ok && s.fates == fates[2..]
  {
    assert Dir(path)[..|Dir(path)|] == Dir(path);
    assert Dir(path) in Ancestors(Dir(path), |Dir(path)|);
  }

  lemma UndisturbedPair(d: Disk, crt: string, key: string, cert: Bytes, secret: Bytes, fates: seq<Fate>)
    requires |fates| >= 4 && Undisturbed(fates)
    ensures var s := WritePair(d, crt, key, cert, secret, fates); s.out == Ok && s.fates == fates[4..]
  {
    assert fates[0] in fates && fates[1] in fates && fates[2] in fates && fates[3] in fates;
    UndisturbedWrite(d, crt, cert, fates);
    UndisturbedWrite(WriteInto(d, crt, cert, fates).disk, key, secret, fates[2..]);
    assert fates[2..][2..] == fates[4..];
  }

  lemma UndisturbedRenewOne(env: Env, d: Disk, info: CertInfo, fates: seq<Fate>)
    requires Renewable(env, d, info.name) && info.path == CrtPath(env.pkiDir, info.name)
    requires |fates| >= 8 && Undisturbed(fates)
    ensures var s := RenewOne(env, d, info, fates); s.out == Ok && s.fates == fates[8..]
  {
    var ca, paths, seed := CAForCert(info.name), CertPaths(info.name).value, env.seeds(info.name);
    assert fates[0] in fates && fates[1] in fates && fates[2] in fates && fates[3] in fates;
    UndisturbedLoad(env.codec.decodeCert, d, info.path, fates);
    UndisturbedLoad(env.codec.decodeCert, d, ca.0, fates[1..]);
    assert fates[1..][1..] == fates[2..];
    UndisturbedLoad(env.codec.decodeKey, d, ca.1, fates[2..]);
    assert fates[2..][1..] == fates[3..] && fates[3..][1..] == fates[4..] && fates[4..][4..] == fates[8..];
    UndisturbedRest(fates, 4);
    var cert := SignWithSelfKey(env.codec.decodeCert(d.files[info.path]).value, env.codec.decodeCert(d.files[ca.0]).value,
                                env.codec.decodeKey(d.files[ca.1]).value, seed).value;
    UndisturbedPair(d, Join(env.pkiDir, paths.0), Join(env.pkiDir, paths.1), env.codec.encodeCert(cert), env.codec.encodeKey(seed.key), fates[4..]);
  }

  predicate AllRenewable(env: Env, d: Disk, certs: seq<CertInfo>) {
    forall c :: c in certs && c.health != OK ==> Renewable(env, d, c.name)
  }

  lemma StillRenewable(env: Env, d: Disk, s: Disk, first: CertName, name: CertName)
    requires IsPem(first) && first != name && Renewable(env, d, name)
    requires forall p :: p != CrtPath(env.pkiDir, first) && p != KeyPath(env.pkiDir, first) ==> SameAt(d, s, p)
    ensures Renewable(env, s, name)
  {
    InputsAreNoTargets(env.pkiDir, first, name);
    RenewableFrom(env, d, s, name);
  }

  lemma RenewableFrom(env: Env, d: Disk, s: Disk, name: CertName)
    requires Renewable(env, d, name)
    requires SameAt(d, s, CrtPath(env.pkiDir, name)) && SameAt(d, s, CAForCert(name).0) && SameAt(d, s, CAForCert(name).1)
    ensures Renewable(env, s, name)
  {
  }

  lemma {:induction false} UndisturbedRenewAll(env: Env, d: Disk, certs: seq<CertInfo>, fates: seq<Fate>)
    requires FromDetection(env, certs) && AllRenewable(env, d, certs)
    requires Undisturbed(fates) && |fates| >= 8 * |certs|
    ensures var s := RenewAll(env, d, certs, fates);
      s.out == Ok && Undisturbed(s.fates) && |s.fates| >= |fates| - 8 * |certs|
    decreases |certs|
  {
    if certs != [] {
      var info, rest := certs[0], certs[1..];
      assert info in certs && forall c :: c in rest ==> c in certs;
      if info.health == OK {
        UndisturbedRenewAll(env, d, rest, fates);
      } else {
        var s := RenewOne(env, d, info, fates);
        UndisturbedRenewOne(env, d, info, fates);
        UndisturbedRest(fates, 8);
        RenewOneLaw(env, d, info, fates);
        forall c | c in rest && c.health != OK ensures Renewable(env, s.disk, c.name) {
          var j :| 0 <= j < |rest| && rest[j] == c;
          assert certs[j + 1].name != certs[0].name;
          StillRenewable(env, d, s.disk, info.name, c.name);
        }
        UndisturbedRenewAll(env, s.disk, rest, s.fates);
      }
    }
  }

  // ---- the restarts ----

  lemma UndisturbedRestart(su: Setup, d: Disk, name: string, fates: seq<Fate>)
    requires !su.dryRun && Sound(d) && Restartable(su, d, name) && |fates| >= 3 && Undisturbed(fates)
    ensures var s := Restart(su, d, name, fates); s.out == Ok && s.fates == fates[3..]
  {
    assert fates[0] in fates && fates[1] in fates && fates[2] in fates;
    assert fates[1..][1..] == fates[2..] && fates[2..][1..] == fates[3..];
  }

  lemma {:induction false} UndisturbedRestarts(su: Setup, d: Disk, k: nat, fates: seq<Fate>)
    requires k <= 4 && !su.dryRun && Sound(d) && Undisturbed(fates) && |fates| >= 3 * (4 - k)
    requires forall j :: k <= j < 4 ==> Restartable(su, d, RESTART_ORDER[j])
    ensures var s := RestartFrom(su, d, RESTART_ORDER[k..], fates);
      s.out == Ok && Undisturbed(s.fates) && |s.fates| >= |fates| - 3 * (4 - k)
    decreases 4 - k
  {
    if k < 4 {
      assert RESTART_ORDER[k..][0] == RESTART_ORDER[k] && RESTART_ORDER[k..][1..] == RESTART_ORDER[k + 1..];
      var s := Restart(su, d, RESTART_ORDER[k], fates);
      UndisturbedRestart(su, d, RESTART_ORDER[k], fates);
      UndisturbedRest(fates, 3);
      RestartLaw(su, d, RESTART_ORDER[k], fates);
      forall j | k + 1 <= j < 4 ensures Restartable(su, s.disk, RESTART_ORDER[j]) {
        StillRestartable(su, d, s.disk, k, j);
      }
      UndisturbedRestarts(su, s.disk, k + 1, s.fates);
    }
  }

  lemma StillRestartable(su: Setup, d: Disk, s: Disk, k: nat, j: nat)
    requires k < 4 && j < 4 && k != j && Restartable(su, d, RESTART_ORDER[j])
    requires forall p :: !NamesManifest(su.dir, RESTART_ORDER[k], p) ==> SameAt(d, s, p)
    ensures Restartable(su, s, RESTART_ORDER[j])
  {
    var yaml, yml := Join(su.dir, RESTART_ORDER[j] + ".yaml"), Join(su.dir, RESTART_ORDER[j] + ".yml");
    ManifestsDiffer(su, j, k, yaml);
    ManifestsDiffer(su, j, k, yml);
    assert SameAt(d, s, yaml) && SameAt(d, s, yml);
    SameManifest(su, d, s, RESTART_ORDER[j]);
  }

  // ---- the whole renewal ----

  predicate AllRestartable(su: Setup, d: Disk) {
    forall i :: 0 <= i < 4 ==> Restartable(su, d, RESTART_ORDER[i])
  }

  lemma RenewableElsewhere(env: Env, d: Disk, e: Disk, certs: seq<CertInfo>)
    requires SameForRenewal(env.pkiDir, d, e) && AllRenewable(env, d, certs)
    ensures AllRenewable(env, e, certs)
  {
    forall c | c in certs && c.health != OK ensures Renewable(env, e, c.name) {
      assert SamePair(d, e, env.pkiDir, c.name);
    }
  }

  lemma RestartableElsewhere(su: Setup, d: Disk, e: Disk)
    requires AllRestartable(su, d) && forall p :: EndsLikeManifest(p) ==> SameAt(d, e, p)
    ensures AllRestartable(su, e)
  {
    forall i | 0 <= i < 4 ensures Restartable(su, e, RESTART_ORDER[i]) {
      ManifestNames(su, i);
      SameManifest(su, d, e, RESTART_ORDER[i]);
    }
  }

  const ENOUGH := 2 * LISTED + 2 + 1 + 12 + 1

  lemma UndisturbedRotation(sp: Spec, w: World, certs: seq<CertInfo>)
    requires Installed(sp, w.disk) && Synced(w) && FromDetection(sp.RenewalEnv(), certs) && !sp.dryRun
    requires Undisturbed(w.fates) && |w.fates| >= ENOUGH + 8 * |certs|
    requires AllRenewable(sp.RenewalEnv(), w.disk, certs) && AllRestartable(sp.Restarts(false), w.disk)
    ensures RunRenewal(sp, w, certs).out == Ok
  {
    var env, su := sp.RenewalEnv(), sp.Restarts(false);
    var backed, noted, looped, bounced := Backed(sp, w), Noted(sp, w), Looped(sp, w, certs), Bounced(sp, w, certs);
    UndisturbedRunsComplete(sp.dirs, w.disk, sp.Path(), w.fates);
    CreateFrame(sp.dirs, w.disk, sp.Path(), w.fates);
    BackedIsOnlyBackup(sp, w);
    BackupIsNoMatter(sp, w.disk, backed.w.disk);
    UndisturbedRest(backed.w.fates, 0);
    UndisturbedRest(backed.w.fates, 1);
    assert noted.out == Ok && noted.w.fates == backed.w.fates[1..];
    RenewableElsewhere(env, w.disk, noted.w.disk, certs);
    UndisturbedRenewAll(env, noted.w.disk, certs, noted.w.fates);
    LoopKeepsManifests(sp, noted.w.disk, certs, noted.w.fates);
    RestartableElsewhere(su, w.disk, noted.w.disk);
    RestartableElsewhere(su, noted.w.disk, looped.w.disk);
    assert RESTART_ORDER[0..] == RESTART_ORDER;
    UndisturbedRestarts(su, looped.w.disk, 0, looped.w.fates);
    UndisturbedRest(bounced.w.fates, 0);
  }

  lemma LoopKeepsManifests(sp: Spec, d: Disk, certs: seq<CertInfo>, fates: seq<Fate>)
    requires FromDetection(sp.RenewalEnv(), certs)
    ensures var e := RenewAll(sp.RenewalEnv(), d, certs, fates).disk;
      (Sound(d) ==> Sound(e)) && forall p :: EndsLikeManifest(p) ==> SameAt(d, e, p)
  {
    var e := RenewAll(sp.RenewalEnv(), d, certs, fates).disk;
    var n := RenewAllProgress(sp.RenewalEnv(), d, certs, fates);
    forall p | EndsLikeManifest(p) ensures SameAt(d, e, p) {
      ManifestIsNoTarget(sp.dirs, sp.Path(), p);
    }
  }

  /** A live renewal that nothing disturbs succeeds exactly when everything that is due has files
      and a CA with its key, and all four manifests are mappings. */
  lemma WhenRotationSucceeds(sp: Spec, w: World, certs: seq<CertInfo>)
    requires Installed(sp, w.disk) && Synced(w) && FromDetection(sp.RenewalEnv(), certs) && !sp.dryRun
    requires Undisturbed(w.fates) && |w.fates| >= ENOUGH + 8 * |certs|
    ensures RunRenewal(sp, w, certs).out == Ok <==>
            AllRenewable(sp.RenewalEnv(), w.disk, certs) && AllRestartable(sp.Restarts(false), w.disk)
  {
    if RunRenewal(sp, w, certs).out == Ok {
      LiveRotation(sp, w, certs);
    } else if AllRenewable(sp.RenewalEnv(), w.disk, certs) && AllRestartable(sp.Restarts(false), w.disk) {
      UndisturbedRotation(sp, w, certs);
    }
  }
}
