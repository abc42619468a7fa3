/** Building the template of a renewed certificate from the one on disk, and signing it. */
module Generator {
  import opened Wrappers
  import opened X509

  const SECOND: int := 1_000_000_000
  const MINUTE: int := 60 * SECOND
  const HOUR: int := 60 * MINUTE
  const DAY: int := 24 * HOUR
  const CERT_VALIDITY: int := 365 * 24 * HOUR

  const HANDLED: set<string> :=
    {SUBJECT_ALT_NAME, KEY_USAGE, EXT_KEY_USAGE, BASIC_CONSTRAINTS, SUBJECT_KEY_ID, AUTHORITY_KEY_ID}

  function Extras(extensions: seq<Extension>): seq<Extension> {
    if extensions == [] then []
    else
      var rest, last := extensions[..|extensions| - 1], extensions[|extensions| - 1];
      if last.id in HANDLED then Extras(rest) else Extras(rest) + [last]
  }

  method FilterExtensions(extensions: seq<Extension>) returns (extras: seq<Extension>)
    ensures extras == Extras(extensions)
  {
    extras := [];
    for i := 0 to |extensions|
      invariant extras == Extras(extensions[..i])
    {
      assert extensions[..i + 1][..i] == extensions[..i];
      if extensions[i].id !in HANDLED {
        extras := extras + [extensions[i]];
      }
    }
    assert extensions[..|extensions|] == extensions;
  }

  function BuildTemplate(existing: Certificate, serial: nat, now: int): Template {
    Template(
      serial,
      DistinguishedName(existing.subject.commonName, existing.subject.organization,
                        existing.subject.organizationalUnit, existing.subject.country, []),
      now - 10 * MINUTE, now + CERT_VALIDITY,
      existing.dnsNames, existing.ipAddresses, existing.uris,
      existing.keyUsage, existing.extKeyUsage, existing.isCA, existing.basicConstraintsValid,
      Extras(existing.extensions))
  }

  /** What is drawn for one renewal: a new key, a serial number, and the clock. */
  datatype Seed = Seed(key: Key, serial: nat, now: int)

  /** `SignWithSelfKey`, as the certificate and key it produces. */
  function SignWithSelfKey(existing: Certificate, ca: Certificate, caKey: Key, seed: Seed): Option<Certificate> {
    CreateCertificate(BuildTemplate(existing, seed.serial, seed.now), ca, seed.key.public, caKey)
  }

  datatype Round = Round(ca: Certificate, caKey: Key, seed: Seed)

  /** A certificate renewed once per round, each time from the result of the last. */
  function RenewMany(c: Certificate, rounds: seq<Round>): Option<Certificate>
    decreases |rounds|
  {
    if rounds == [] then Some(c)
    else match SignWithSelfKey(c, rounds[0].ca, rounds[0].caKey, rounds[0].seed)
      case None => None
      case Some(next) => RenewMany(next, rounds[1..])
  }

  /** The fields that the template takes over. */
  predicate Mirrors(a: Certificate, b: Certificate) {
    && a.subject.commonName == b.subject.commonName
    && a.subject.organization == b.subject.organization
    && a.subject.organizationalUnit == b.subject.organizationalUnit
    && a.subject.country == b.subject.country
    && a.dnsNames == b.dnsNames && a.ipAddresses == b.ipAddresses && a.uris == b.uris
    && a.keyUsage == b.keyUsage && a.extKeyUsage == b.extKeyUsage
    && a.isCA == b.isCA && a.basicConstraintsValid == b.basicConstraintsValid
    && Extras(a.extensions) == Extras(b.extensions)
  }

  /** Section 4.2 of RFC 5280: no two extensions with the same identifier. */
  predicate UniqueIds(extensions: seq<Extension>) {
    forall i, j :: 0 <= i < j < |extensions| ==> extensions[i].id != extensions[j].id
  }

  lemma {:induction false} ExtrasOfSum(a: seq<Extension>, b: seq<Extension>)
    ensures Extras(a + b) == Extras(a) + Extras(b)
    decreases |b|
  {
    if b == [] {
      assert a + b == a;
    } else {
      var rest := b[..|b| - 1];
      assert (a + b)[..|a + b| - 1] == a + rest;
      ExtrasOfSum(a, rest);
    }
  }

  lemma {:induction false} ExtrasAreExtra(s: seq<Extension>)
    ensures forall e :: e in Extras(s) ==> e in s && e.id !in HANDLED
    decreases |s|
  {
    if s != [] {
      var rest, last := s[..|s| - 1], s[|s| - 1];
      ExtrasAreExtra(rest);
      assert forall e :: e in rest ==> e in s;
      assert last in s;
    }
  }

  lemma {:induction false} ExtrasOfExtras(s: seq<Extension>)
    ensures Extras(Extras(s)) == Extras(s)
    decreases |s|
  {
    if s != [] {
      var rest, last := s[..|s| - 1], s[|s| - 1];
      ExtrasOfExtras(rest);
      if last.id !in HANDLED {
        ExtrasOfSum(Extras(rest), [last]);
        assert [last][..0] == [] && Extras([last]) == [last];
      }
    }
  }

  lemma {:induction false} ExtrasAreUnique(s: seq<Extension>)
    requires UniqueIds(s)
    ensures UniqueIds(Extras(s))
    decreases |s|
  {
    if s != [] {
      var rest, last := s[..|s| - 1], s[|s| - 1];
      ExtrasAreUnique(rest);
      ExtrasAreExtra(rest);
      if last.id !in HANDLED {
        forall e | e in Extras(rest) ensures e.id != last.id {
          var k :| 0 <= k < |rest| && rest[k] == e;
          assert s[k] == e;
        }
        UniqueTogether(Extras(rest), [last]);
      }
    }
  }

  lemma HandledOnly(s: seq<Extension>)
    requires forall e :: e in s ==> e.id in HANDLED
    ensures Extras(s) == []
  {
  }

  lemma IdsDiffer()
    ensures forall i, j :: 0 <= i < j < |STANDARD_IDS| ==> STANDARD_IDS[i] != STANDARD_IDS[j]
  {
    var a, b, c, d, e, f := SUBJECT_ALT_NAME, KEY_USAGE, EXT_KEY_USAGE, BASIC_CONSTRAINTS, SUBJECT_KEY_ID, AUTHORITY_KEY_ID;
    assert a[7] == '1' && a[8] == '7' && b[7] == '1' && b[8] == '5' && c[7] == '3' && c[8] == '7';
    assert d[7] == '1' && d[8] == '9' && e[7] == '1' && e[8] == '4' && f[7] == '3' && f[8] == '5';
  }

  lemma {:induction false} ChosenAreUnique(wanted: seq<bool>, ids: seq<string>)
    requires |wanted| == |ids| && forall i, j :: 0 <= i < j < |ids| ==> ids[i] != ids[j]
    ensures forall e :: e in Chosen(wanted, ids) ==> e.id in ids
    ensures UniqueIds(Chosen(wanted, ids))
    decreases |ids|
  {
    if ids != [] {
      ChosenAreUnique(wanted[1..], ids[1..]);
      forall e | e in Chosen(wanted[1..], ids[1..]) ensures e.id in ids && e.id != ids[0] {
        var k :| 0 <= k < |ids[1..]| && ids[1..][k] == e.id;
        assert ids[k + 1] == e.id;
      }
    }
  }

  lemma StandardAreHandledAndUnique(t: Template, parent: Certificate)
    ensures forall e :: e in StandardExtensions(t, parent) ==> e.id in HANDLED
    ensures UniqueIds(StandardExtensions(t, parent))
  {
    IdsDiffer();
    ChosenAreUnique([t.keyUsage != 0, t.extKeyUsage != [], t.basicConstraintsValid, t.isCA,
                     exists i :: 0 <= i < |parent.extensions| && parent.extensions[i].id == SUBJECT_KEY_ID,
                     t.dnsNames != [] || t.ipAddresses != [] || t.uris != []], STANDARD_IDS);
  }

  lemma UniqueTogether(a: seq<Extension>, b: seq<Extension>)
    requires UniqueIds(a) && UniqueIds(b)
    requires forall x, y :: x in a && y in b ==> x.id != y.id
    ensures UniqueIds(a + b)
  {
    var all := a + b;
    forall i, j | 0 <= i < j < |all| ensures all[i].id != all[j].id {
      if i < |a| <= j {
        assert all[i] in a && all[j] in b;
      }
    }
  }

  lemma StandardThenExtras(std: seq<Extension>, original: seq<Extension>)
    requires UniqueIds(std) && forall e :: e in std ==> e.id in HANDLED
    ensures Extras(std + Extras(original)) == Extras(original)
    ensures UniqueIds(original) ==> UniqueIds(std + Extras(original))
  {
    HandledOnly(std);
    ExtrasOfSum(std, Extras(original));
    ExtrasOfExtras(original);
    ExtrasAreExtra(original);
    if UniqueIds(original) {
      ExtrasAreUnique(original);
      UniqueTogether(std, Extras(original));
    }
  }

  lemma RenewalMirrors(c: Certificate, ca: Certificate, caKey: Key, seed: Seed)
    requires SignWithSelfKey(c, ca, caKey, seed).Some?
    ensures var r := SignWithSelfKey(c, ca, caKey, seed).value;
      && Mirrors(r, c) && (UniqueIds(c.extensions) ==> UniqueIds(r.extensions))
      && r.publicKey == seed.key.public && r.signedBy == ca.publicKey && r.issuer == ca.subject
      && r.serial == seed.serial && r.notBefore <= seed.now < r.notAfter
      && seed.now - r.notBefore == 10 * MINUTE && r.notAfter - seed.now == 365 * DAY
  {
    var t := BuildTemplate(c, seed.serial, seed.now);
    StandardAreHandledAndUnique(t, ca);
    StandardThenExtras(StandardExtensions(t, ca), c.extensions);
  }

  /** Renewing any number of times mirrors the certificate the cluster started with, and never
      duplicates an extension. */
  lemma {:induction false} RepeatedRenewalMirrors(c: Certificate, rounds: seq<Round>)
    requires RenewMany(c, rounds).Some?
    ensures Mirrors(RenewMany(c, rounds).value, c)
    ensures UniqueIds(c.extensions) ==> UniqueIds(RenewMany(c, rounds).value.extensions)
    decreases |rounds|
  {
    if rounds != [] {
      var next := SignWithSelfKey(c, rounds[0].ca, rounds[0].caKey, rounds[0].seed).value;
      RenewalMirrors(c, rounds[0].ca, rounds[0].caKey, rounds[0].seed);
      RepeatedRenewalMirrors(next, rounds[1..]);
    }
  }

  /** The same names, usages, constraints and further extensions. */
  predicate ExactMirror(a: Certificate, b: Certificate) {
    && a.subject == b.subject && a.dnsNames == b.dnsNames && a.ipAddresses == b.ipAddresses && a.uris == b.uris
    && a.emailAddresses == b.emailAddresses && a.keyUsage == b.keyUsage
    && a.extKeyUsage == b.extKeyUsage && a.unknownExtKeyUsage == b.unknownExtKeyUsage
    && a.isCA == b.isCA && a.maxPathLen == b.maxPathLen && a.basicConstraintsValid == b.basicConstraintsValid
    && Extras(a.extensions) == Extras(b.extensions)
  }

  /** The renewal is announced as an exact mirror. It is one, however often it is repeated, exactly for
      certificates without e-mail names, without further subject attributes, without a path length
      and without extended key usages that the library does not list. */
  lemma {:induction false} WhenMirrorIsExact(c: Certificate, rounds: seq<Round>)
    requires rounds != [] && RenewMany(c, rounds).Some?
    ensures ExactMirror(RenewMany(c, rounds).value, c) <==>
            c.emailAddresses == [] && c.subject.otherAttributes == [] && c.unknownExtKeyUsage == [] && c.maxPathLen == None
    decreases |rounds|
  {
    var next := SignWithSelfKey(c, rounds[0].ca, rounds[0].caKey, rounds[0].seed).value;
    RenewalMirrors(c, rounds[0].ca, rounds[0].caKey, rounds[0].seed);
    if |rounds| > 1 {
      WhenMirrorIsExact(next, rounds[1..]);
      RepeatedRenewalMirrors(next, rounds[1..]);
    } else {
      assert RenewMany(next, rounds[1..]) == Some(next);
    }
  }

  /** Concretely: an e-mail name is lost at the first renewal. */
  lemma EmailNameIsLost(c: Certificate, ca: Certificate, caKey: Key, seed: Seed)
    requires c.emailAddresses == ["admin@example.org"] && caKey.public == ca.publicKey
    ensures RenewMany(c, [Round(ca, caKey, seed)]).Some?
    ensures RenewMany(c, [Round(ca, caKey, seed)]).value.emailAddresses == []
  {
    var next := SignWithSelfKey(c, ca, caKey, seed).value;
    assert RenewMany(next, [Round(ca, caKey, seed)][1..]) == Some(next);
  }
}
