/** Replacing the certificates and keys that are due: routing to the CA, signing, and writing the
    pair, one certificate after the other. */
module Renewal {
  import opened Wrappers
  import opened Host
  import opened X509
  import opened Generator
  import opened Detector

  /** `CAForCert`: the paths are fixed, whatever PKI directory is configured. */
  function CAForCert(name: CertName): (string, string) {
    match name
    case EtcdServer => ("/etc/kubernetes/pki/etcd/ca.crt", "/etc/kubernetes/pki/etcd/ca.key")
    case EtcdPeer => ("/etc/kubernetes/pki/etcd/ca.crt", "/etc/kubernetes/pki/etcd/ca.key")
    case EtcdHealthcheckClient => ("/etc/kubernetes/pki/etcd/ca.crt", "/etc/kubernetes/pki/etcd/ca.key")
    case ApiServerEtcdClient => ("/etc/kubernetes/pki/etcd/ca.crt", "/etc/kubernetes/pki/etcd/ca.key")
    case FrontProxyClient => ("/etc/kubernetes/pki/front-proxy-ca.crt", "/etc/kubernetes/pki/front-proxy-ca.key")
    case _ => ("/etc/kubernetes/pki/ca.crt", "/etc/kubernetes/pki/ca.key")
  }

  /** The table of the writer. Kubeconfig certificates have no entry. */
  function CertPaths(name: CertName): Option<(string, string)> {
    match name
    case ApiServer => Some(("apiserver.crt", "apiserver.key"))
    case ApiServerEtcdClient => Some(("apiserver-etcd-client.crt", "apiserver-etcd-client.key"))
    case ApiServerKubeletClient => Some(("apiserver-kubelet-client.crt", "apiserver-kubelet-client.key"))
    case FrontProxyClient => Some(("front-proxy-client.crt", "front-proxy-client.key"))
    case EtcdServer => Some(("etcd/server.crt", "etcd/server.key"))
    case EtcdPeer => Some(("etcd/peer.crt", "etcd/peer.key"))
    case EtcdHealthcheckClient => Some(("etcd/healthcheck-client.crt", "etcd/healthcheck-client.key"))
    case _ => None
  }

  function WriteInto(d: Disk, path: string, data: Bytes, fates: seq<Fate>): Step {
    var s := MkdirAll(d, Dir(path), fates);
    if s.out != Ok then s else WriteFile(s.disk, path, data, s.fates)
  }

  /** First the certificate, then the key. */
  function WritePair(d: Disk, certPath: string, keyPath: string, cert: Bytes, key: Bytes, fates: seq<Fate>): Step {
    var s := WriteInto(d, certPath, cert, fates);
    if s.out != Ok then s else WriteInto(s.disk, keyPath, key, s.fates)
  }

  class Writer {
    const pkiDir: string
    const dryRun: bool

    constructor (pkiDir: string, dryRun: bool)
      ensures this.pkiDir == pkiDir && this.dryRun == dryRun
    {
      this.pkiDir := pkiDir;
      this.dryRun := dryRun;
    }

    method WriteOne(m: Machine, rel: string, data: Bytes) returns (out: Outcome)
      modifies m
      ensures dryRun ==> out == Ok && m.Now() == old(m.Now()) && m.fates == old(m.fates)
      ensures !dryRun ==>
        m.Reached(WriteInto(old(m.Now()), Join(pkiDir, rel), data, old(m.fates)))
        && out == WriteInto(old(m.Now()), Join(pkiDir, rel), data, old(m.fates)).out
    {
      var path := Join(pkiDir, rel);
      if dryRun {
        return Ok;
      }
      out := m.Mkdir(Dir(path));
      if out == Ok {
        out := m.Write(path, data);
      }
    }

    method WriteCertKeyPair(m: Machine, relCert: string, relKey: string, cert: Bytes, key: Bytes) returns (out: Outcome)
      modifies m
      ensures dryRun ==> out == Ok && m.Now() == old(m.Now()) && m.fates == old(m.fates)
      ensures !dryRun ==>
        m.Reached(WritePair(old(m.Now()), Join(pkiDir, relCert), Join(pkiDir, relKey), cert, key, old(m.fates)))
        && out == WritePair(old(m.Now()), Join(pkiDir, relCert), Join(pkiDir, relKey), cert, key, old(m.fates)).out
    {
      out := WriteOne(m, relCert, cert);
      if out == Ok {
        out := WriteOne(m, relKey, key);
      }
    }
  }

  datatype Env = Env(codec: Codec, pkiDir: string, seeds: CertName -> Seed)

  datatype Loaded<T> = Loaded(value: Option<T>, fates: seq<Fate>, out: Outcome)

  /** Read a file and parse it; a file that is missing or does not parse is an error. */
  function Load<T>(decode: Bytes -> Option<T>, d: Disk, path: string, fates: seq<Fate>): (r: Loaded<T>)
    ensures r.out == Ok <==> r.value.Some?
    ensures r.out == Ok ==> path in d.files && decode(d.files[path]) == r.value
    ensures r.out in {Ok, Err, Crash}
  {
    var s := ReadFile(d, path, fates);
    if s.out == Crash then Loaded(None, s.fates, Crash)
    else if s.out != Ok || decode(s.bytes).None? then Loaded(None, s.fates, Err)
    else Loaded(decode(s.bytes), s.fates, Ok)
  }

  method LoadFile<T>(decode: Bytes -> Option<T>, m: Machine, path: string) returns (value: Option<T>, out: Outcome)
    modifies m`fates
    ensures Loaded(value, m.fates, out) == Load(decode, old(m.Now()), path, old(m.fates))
  {
    var bytes;
    bytes, out := m.Read(path);
    if out == Crash {
      return None, Crash;
    }
    if out != Ok || decode(bytes).None? {
      return None, Err;
    }
    value := decode(bytes);
  }

  /** The body of the renewal loop for one certificate that is due. */
  function RenewOne(env: Env, d: Disk, info: CertInfo, fates: seq<Fate>): Step {
    var existing := Load(env.codec.decodeCert, d, info.path, fates);
    if existing.out != Ok then Step(d, existing.fates, existing.out)
    else
      var ca := Load(env.codec.decodeCert, d, CAForCert(info.name).0, existing.fates);
      if ca.out != Ok then Step(d, ca.fates, ca.out)
      else
        var caKey := Load(env.codec.decodeKey, d, CAForCert(info.name).1, ca.fates);
        if caKey.out != Ok then Step(d, caKey.fates, caKey.out)
        else
          var asked := Ask(caKey.fates);
          if asked.0 != Ok then Step(d, asked.1, asked.0)
          else
            var seed := env.seeds(info.name);
            var cert := SignWithSelfKey(existing.value.value, ca.value.value, caKey.value.value, seed);
            if cert.None? || CertPaths(info.name).None? then Step(d, asked.1, Err)
            else
              var paths := CertPaths(info.name).value;
              WritePair(d, Join(env.pkiDir, paths.0), Join(env.pkiDir, paths.1),
                        env.codec.encodeCert(cert.value), env.codec.encodeKey(seed.key), asked.1)
  }

  function RenewAll(env: Env, d: Disk, certs: seq<CertInfo>, fates: seq<Fate>): Step
    decreases |certs|
  {
    if certs == [] then Step(d, fates, Ok)
    else if certs[0].health == OK then RenewAll(env, d, certs[1..], fates)
    else
      var s := RenewOne(env, d, certs[0], fates);
      if s.out != Ok then s else RenewAll(env, s.disk, certs[1..], s.fates)
  }

  method RenewCert(m: Machine, env: Env, info: CertInfo) returns (out: Outcome)
    modifies m
    ensures m.Reached(RenewOne(env, old(m.Now()), info, old(m.fates))) && out == RenewOne(env, old(m.Now()), info, old(m.fates)).out
  {
    var existing, ca, caKey;
    existing, out := LoadFile(env.codec.decodeCert, m, info.path);
    if out != Ok {
      return;
    }
    ca, out := LoadFile(env.codec.decodeCert, m, CAForCert(info.name).0);
    if out != Ok {
      return;
    }
    caKey, out := LoadFile(env.codec.decodeKey, m, CAForCert(info.name).1);
    if out != Ok {
      return;
    }
    out := m.Call();
    if out != Ok {
      return;
    }
    var seed := env.seeds(info.name);
    var cert := SignWithSelfKey(existing.value, ca.value, caKey.value, seed);
    var paths := CertPaths(info.name);
    if cert.None? || paths.None? {
      return Err;
    }
    var writer := new Writer(env.pkiDir, false);
    out := writer.WriteCertKeyPair(m, paths.value.0, paths.value.1, env.codec.encodeCert(cert.value), env.codec.encodeKey(seed.key));
  }

  method RenewCerts(m: Machine, env: Env, certs: seq<CertInfo>) returns (out: Outcome)
    modifies m
    ensures m.Reached(RenewAll(env, old(m.Now()), certs, old(m.fates))) && out == RenewAll(env, old(m.Now()), certs, old(m.fates)).out
  {
    ghost var whole := RenewAll(env, m.Now(), certs, m.fates);
    for i := 0 to |certs|
      invariant RenewAll(env, m.Now(), certs[i..], m.fates) == whole
    {
      assert certs[i..][0] == certs[i] && certs[i..][1..] == certs[i + 1..];
      if certs[i].health == OK {
        continue;
      }
      out := RenewCert(m, env, certs[i]);
      if out != Ok {
        return;
      }
    }
    out := Ok;
  }
}
