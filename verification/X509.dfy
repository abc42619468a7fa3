/** Certificates and keys as values. Parsing, signing and the PEM and YAML encodings belong to
    libraries; what is assumed of them is written down here: a signed certificate carries the
    template's fields, and decoding undoes encoding. Nothing is assumed of torn bytes. */
module X509 {
  import opened Wrappers
  import opened Host
  import opened MergePatch

  datatype DistinguishedName = DistinguishedName(
    commonName: string,
    organization: seq<string>,
    organizationalUnit: seq<string>,
    country: seq<string>,
    otherAttributes: seq<string>)

  datatype Extension = Extension(id: string, critical: bool, value: Bytes)

  datatype Key = Key(secret: int, public: int)

  datatype Certificate = Certificate(
    serial: nat,
    subject: DistinguishedName,
    issuer: DistinguishedName,
    notBefore: int,
    notAfter: int,
    dnsNames: seq<string>,
    ipAddresses: seq<string>,
    uris: seq<string>,
    emailAddresses: seq<string>,
    keyUsage: int,
    extKeyUsage: seq<int>,
    unknownExtKeyUsage: seq<string>,
    isCA: bool,
    maxPathLen: Option<nat>,
    basicConstraintsValid: bool,
    extensions: seq<Extension>,
    publicKey: int,
    signedBy: int)

  datatype Template = Template(
    serial: nat,
    subject: DistinguishedName,
    notBefore: int,
    notAfter: int,
    dnsNames: seq<string>,
    ipAddresses: seq<string>,
    uris: seq<string>,
    keyUsage: int,
    extKeyUsage: seq<int>,
    isCA: bool,
    basicConstraintsValid: bool,
    extraExtensions: seq<Extension>)

  const SUBJECT_ALT_NAME := "2.5.29.17"
  const KEY_USAGE := "2.5.29.15"
  const EXT_KEY_USAGE := "2.5.29.37"
  const BASIC_CONSTRAINTS := "2.5.29.19"
  const SUBJECT_KEY_ID := "2.5.29.14"
  const AUTHORITY_KEY_ID := "2.5.29.35"

  const STANDARD_IDS: seq<string> :=
    [KEY_USAGE, EXT_KEY_USAGE, BASIC_CONSTRAINTS, SUBJECT_KEY_ID, AUTHORITY_KEY_ID, SUBJECT_ALT_NAME]

  function Chosen(wanted: seq<bool>, ids: seq<string>): seq<Extension>
    requires |wanted| == |ids|
  {
    if ids == [] then []
    else (if wanted[0] then [Extension(ids[0], false, [])] else []) + Chosen(wanted[1..], ids[1..])
  }

  /** The extensions the library derives from the template's fields. */
  function StandardExtensions(t: Template, parent: Certificate): seq<Extension> {
    Chosen([t.keyUsage != 0, t.extKeyUsage != [], t.basicConstraintsValid, t.isCA,
            exists i :: 0 <= i < |parent.extensions| && parent.extensions[i].id == SUBJECT_KEY_ID,
            t.dnsNames != [] || t.ipAddresses != [] || t.uris != []],
           STANDARD_IDS)
  }

  /** `x509.CreateCertificate` followed by `x509.ParseCertificate`. The library refuses a signing
      key that is not the parent's. What the template leaves out, such as e-mail names, extended key
      usages unknown to the library and a path length, the certificate lacks. */
  function CreateCertificate(t: Template, parent: Certificate, public: int, signer: Key): Option<Certificate> {
    if signer.public != parent.publicKey then None
    else Some(Certificate(
      t.serial, t.subject, parent.subject, t.notBefore, t.notAfter,
      t.dnsNames, t.ipAddresses, t.uris, [],
      t.keyUsage, t.extKeyUsage, [], t.isCA, None, t.basicConstraintsValid,
      StandardExtensions(t, parent) + t.extraExtensions,
      public, signer.public))
  }

  /** The encodings. A kubeconfig file yields its embedded client certificate, or none. */
  datatype Codec = Codec(
    encodeCert: Certificate -> Bytes,
    decodeCert: Bytes -> Option<Certificate>,
    encodeKey: Key -> Bytes,
    decodeKey: Bytes -> Option<Key>,
    decodeKubeconfig: Bytes -> Option<Certificate>,
    encodeManifest: Json -> Bytes,
    decodeManifest: Bytes -> Option<Json>)

  ghost predicate Lawful(codec: Codec) {
    && (forall c :: codec.decodeCert(codec.encodeCert(c)) == Some(c))
    && (forall k :: codec.decodeKey(codec.encodeKey(k)) == Some(k))
    && (forall j :: codec.decodeManifest(codec.encodeManifest(j)) == Some(j))
  }
}
