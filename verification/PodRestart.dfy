/** Restarting the static pods: a timestamp annotation is written into each manifest, in a fixed
    order, so that the kubelet recreates the pod. */
module PodRestart {
  import opened Wrappers
  import opened Host
  import opened MergePatch
  import opened X509
  import opened BackupLaws

  const RESTART_ORDER: seq<string> := ["etcd", "kube-apiserver", "kube-controller-manager", "kube-scheduler"]

  const METADATA := "metadata"
  const ANNOTATIONS := "annotations"
  const RESTARTED_AT := "cert-rotator/restarted-at"

  /** The members of a mapping, or none if the value is missing or no mapping. */
  function Members(j: Option<Json>): map<string, Json> {
    if j.Some? && j.value.Obj? then j.value.fields else map[]
  }

  function Stamped(manifest: Json, stamp: string): Json
    requires manifest.Obj?
  {
    var metadata := Members(Get(manifest, METADATA));
    var annotations := Members(Get(Obj(metadata), ANNOTATIONS));
    Obj(manifest.fields[METADATA := Obj(metadata[ANNOTATIONS := Obj(annotations[RESTARTED_AT := Str(stamp)])])])
  }

  datatype Injected = Updated(manifest: Json) | ParseError | NilMap

  /** `injectRestartAnnotation`. An empty document leaves the Go map nil, and storing into a nil
      map panics. */
  function Inject(parsed: Option<Json>, stamp: string): Injected {
    if parsed.None? then ParseError
    else if parsed.value.Null? then NilMap
    else if !parsed.value.Obj? then ParseError
    else Updated(Stamped(parsed.value, stamp))
  }

  function ManifestPath(d: Disk, dir: string, name: string): Option<string> {
    if Join(dir, name + ".yaml") in d.files then Some(Join(dir, name + ".yaml"))
    else if Join(dir, name + ".yml") in d.files then Some(Join(dir, name + ".yml"))
    else None
  }

  /** What a restart needs besides the disk: the codec, the manifest directory and the time at
      which each component is stamped. */
  datatype Setup = Setup(codec: Codec, dir: string, clock: string -> string, dryRun: bool)

  function Restart(su: Setup, d: Disk, name: string, fates: seq<Fate>): Step {
    var path := ManifestPath(d, su.dir, name);
    if path.None? then Step(d, fates, Err)
    else if su.dryRun then Step(d, fates, Ok)
    else
      var r := ReadFile(d, path.value, fates);
      if r.out != Ok then Step(d, r.fates, if r.out == Crash then Crash else Err)
      else match Inject(su.codec.decodeManifest(r.bytes), su.clock(name))
        case ParseError => Step(d, r.fates, Err)
        case NilMap => Step(d, r.fates, Panic)
        case Updated(manifest) =>
          var stat := Ask(r.fates);
          if stat.0 != Ok then Step(d, stat.1, stat.0)
          else
            var w := WriteFile(d, path.value, su.codec.encodeManifest(manifest), stat.1);
            w.(out := if w.out == NotExist then Err else w.out)
  }

  function RestartFrom(su: Setup, d: Disk, names: seq<string>, fates: seq<Fate>): Step
    decreases |names|
  {
    if names == [] then Step(d, fates, Ok)
    else
      var s := Restart(su, d, names[0], fates);
      if s.out != Ok then s else RestartFrom(su, s.disk, names[1..], s.fates)
  }

  function RestartAllEffect(su: Setup, d: Disk, fates: seq<Fate>): Step {
    RestartFrom(su, d, RESTART_ORDER, fates)
  }

  method RestartOne(m: Machine, su: Setup, name: string) returns (out: Outcome)
    modifies m
    ensures m.Reached(Restart(su, old(m.Now()), name, old(m.fates))) && out == Restart(su, old(m.Now()), name, old(m.fates)).out
  {
    var path := Join(su.dir, name + ".yaml");
    if path !in m.files {
      path := Join(su.dir, name + ".yml");
      if path !in m.files {
        return Err;
      }
    }
    if su.dryRun {
      return Ok;
    }
    var bytes;
    bytes, out := m.Read(path);
    if out != Ok {
      return if out == Crash then Crash else Err;
    }
    var injected := Inject(su.codec.decodeManifest(bytes), su.clock(name));
    if injected.ParseError? {
      return Err;
    }
    if injected.NilMap? {
      return Panic;
    }
    out := m.Call();
    if out != Ok {
      return;
    }
    out := m.Write(path, su.codec.encodeManifest(injected.manifest));
    if out == NotExist {
      out := Err;
    }
  }

  method RestartAll(m: Machine, su: Setup) returns (out: Outcome)
    modifies m
    ensures m.Reached(RestartAllEffect(su, old(m.Now()), old(m.fates))) && out == RestartAllEffect(su, old(m.Now()), old(m.fates)).out
  {
    for i := 0 to |RESTART_ORDER|
      invariant RestartFrom(su, m.Now(), RESTART_ORDER[i..], m.fates) == RestartAllEffect(su, old(m.Now()), old(m.fates))
    {
      assert RESTART_ORDER[i..][0] == RESTART_ORDER[i] && RESTART_ORDER[i..][1..] == RESTART_ORDER[i + 1..];
      out := RestartOne(m, su, RESTART_ORDER[i]);
      if out != Ok {
        return;
      }
    }
    out := Ok;
  }

  // ---- the annotation ----

  /** A later stamp replaces an earlier one; nothing accumulates. */
  lemma StampTwice(manifest: Json, first: string, second: string)
    requires manifest.Obj?
    ensures Stamped(Stamped(manifest, first), second) == Stamped(manifest, second)
  {
    var metadata := Members(Get(manifest, METADATA));
    var annotations := Members(Get(Obj(metadata), ANNOTATIONS));
    var once := annotations[RESTARTED_AT := Str(first)];
    assert once[RESTARTED_AT := Str(second)] == annotations[RESTARTED_AT := Str(second)];
    var m1 := metadata[ANNOTATIONS := Obj(once)];
    assert m1[ANNOTATIONS := Obj(once[RESTARTED_AT := Str(second)])]
        == metadata[ANNOTATIONS := Obj(annotations[RESTARTED_AT := Str(second)])];
    assert Get(Stamped(manifest, first), METADATA) == Some(Obj(m1));
    assert Stamped(Stamped(manifest, first), second).fields == Stamped(manifest, second).fields;
  }

  function StampPath(): seq<string> {
    [METADATA, ANNOTATIONS, RESTARTED_AT]
  }

  /** A place in the document that holds something other than a mapping. */
  predicate IsLeaf(j: Json, path: seq<string>) {
    At(j, path).Some? && !At(j, path).value.Obj?
  }

  /** The stamp is read back where the annotation belongs, whatever the manifest held there. */
  lemma StampIsRead(manifest: Json, stamp: string)
    requires manifest.Obj?
    ensures At(Stamped(manifest, stamp), StampPath()) == Some(Str(stamp))
  {
    var after, path := Stamped(manifest, stamp), StampPath();
    var meta := Get(after, METADATA).value;
    var ann := Get(meta, ANNOTATIONS).value;
    assert path[1..] == [ANNOTATIONS, RESTARTED_AT] && path[1..][1..] == [RESTARTED_AT];
    assert Get(ann, RESTARTED_AT) == Some(Str(stamp));
    assert At(ann, [RESTARTED_AT]) == Get(ann, RESTARTED_AT) by {
      assert [RESTARTED_AT][1..] == [];
    }
    assert At(meta, [ANNOTATIONS, RESTARTED_AT]) == At(ann, [RESTARTED_AT]) by {
      assert [ANNOTATIONS, RESTARTED_AT][1..] == [RESTARTED_AT];
    }
  }

  /** Every place that is not on the way to the stamp, nor below it, holds what it held: a value, a
      mapping, an empty one included, or nothing. On the way to it, a value that is no mapping stays. */
  ghost predicate OthersKept(manifest: Json, stamp: string)
    requires manifest.Obj?
  {
    forall path :: !(StampPath() <= path) && (path <= StampPath() ==> IsLeaf(manifest, path)) ==>
      At(Stamped(manifest, stamp), path) == At(manifest, path)
  }

  predicate MappingOrAbsent(j: Option<Json>) {
    j.Some? ==> j.value.Obj?
  }

  lemma AtThree(j: Json, path: seq<string>)
    requires |path| >= 1
    ensures At(j, path) == match Get(j, path[0]) case None => None case Some(c) => At(c, path[1..])
    ensures |path| == 1 ==> At(j, path) == Get(j, path[0])
  {
    if |path| == 1 { assert path[1..] == []; }
  }

  lemma PrefixesOfStamp(path: seq<string>)
    ensures path <= StampPath() <== |path| <= 2 && (|path| >= 1 ==> path[0] == METADATA) && (|path| == 2 ==> path[1] == ANNOTATIONS)
    ensures StampPath() <= path <== |path| >= 3 && path[0] == METADATA && path[1] == ANNOTATIONS && path[2] == RESTARTED_AT
  {
  }

  /** What a path finds below `annotations`, before and after. */
  lemma BelowAnnotations(manifest: Json, stamp: string, path: seq<string>)
    requires manifest.Obj? && |path| >= 3 && path[0] == METADATA && path[1] == ANNOTATIONS && path[2] != RESTARTED_AT
    requires MappingOrAbsent(Get(manifest, METADATA))
    requires MappingOrAbsent(Get(Obj(Members(Get(manifest, METADATA))), ANNOTATIONS))
    ensures At(Stamped(manifest, stamp), path) == At(manifest, path)
  {
    var after := Stamped(manifest, stamp);
    var meta, p1, p2 := Get(manifest, METADATA), path[1..], path[1..][1..];
    assert p2[0] == path[2];
    AtThree(manifest, path);
    AtThree(after, path);
    AtThree(Get(after, METADATA).value, p1);
    AtThree(Get(Get(after, METADATA).value, ANNOTATIONS).value, p2);
    if meta.Some? {
      AtThree(meta.value, p1);
      if Get(meta.value, ANNOTATIONS).Some? { AtThree(Get(meta.value, ANNOTATIONS).value, p2); }
    }
  }

  lemma OtherSurvives(manifest: Json, stamp: string, path: seq<string>)
    requires manifest.Obj? && !(StampPath() <= path) && (path <= StampPath() ==> IsLeaf(manifest, path))
    requires MappingOrAbsent(Get(manifest, METADATA))
    requires MappingOrAbsent(Get(Obj(Members(Get(manifest, METADATA))), ANNOTATIONS))
    ensures At(Stamped(manifest, stamp), path) == At(manifest, path)
  {
    var after, meta := Stamped(manifest, stamp), Get(manifest, METADATA);
    PrefixesOfStamp(path);
    if |path| >= 1 {
      AtThree(manifest, path);
      AtThree(after, path);
      if path[0] == METADATA && |path| >= 2 {
        var p1 := path[1..];
        AtThree(Get(after, METADATA).value, p1);
        if meta.Some? { AtThree(meta.value, p1); }
        if path[1] == ANNOTATIONS && |path| >= 3 {
          BelowAnnotations(manifest, stamp, path);
        }
      }
    }
  }

  /** Stamping keeps everything else in the manifest exactly when `metadata` and its `annotations`
      are mappings or absent; otherwise the value in their place is lost. */
  lemma WhenOthersAreKept(manifest: Json, stamp: string)
    requires manifest.Obj?
    ensures OthersKept(manifest, stamp) <==>
            MappingOrAbsent(Get(manifest, METADATA)) && MappingOrAbsent(Get(Obj(Members(Get(manifest, METADATA))), ANNOTATIONS))
  {
    var meta := Get(manifest, METADATA);
    var ann := Get(Obj(Members(meta)), ANNOTATIONS);
    if MappingOrAbsent(meta) && MappingOrAbsent(ann) {
      forall path | !(StampPath() <= path) && (path <= StampPath() ==> IsLeaf(manifest, path))
        ensures At(Stamped(manifest, stamp), path) == At(manifest, path)
      {
        OtherSurvives(manifest, stamp, path);
      }
    } else if !MappingOrAbsent(meta) {
      AtThree(manifest, [METADATA]);
      AtThree(Stamped(manifest, stamp), [METADATA]);
      assert IsLeaf(manifest, [METADATA]) && !(StampPath() <= [METADATA]);
    } else {
      var p := [METADATA, ANNOTATIONS];
      assert p[1..] == [ANNOTATIONS];
      AtThree(manifest, p);
      AtThree(Stamped(manifest, stamp), p);
      AtThree(meta.value, [ANNOTATIONS]);
      AtThree(Get(Stamped(manifest, stamp), METADATA).value, [ANNOTATIONS]);
      assert IsLeaf(manifest, p) && !(StampPath() <= p);
    }
  }

  // ---- the sequence ----

  predicate NamesManifest(dir: string, name: string, p: string) {
    p == Join(dir, name + ".yaml") || p == Join(dir, name + ".yml")
  }

  /** One of the paths at which the manifest of one of the four components is looked up. */
  predicate IsManifest(dir: string, p: string) {
    exists j: nat :: j < 4 && NamesManifest(dir, RESTART_ORDER[j], p)
  }

  /** The last character: 'l' for every manifest, never for a certificate, key or kubeconfig. */
  predicate EndsLikeManifest(p: string) {
    p != "" && p[|p| - 1] == 'l'
  }

  lemma ManifestsEnd(dir: string, p: string)
    requires IsManifest(dir, p)
    ensures EndsLikeManifest(p)
  {
    var j: nat :| j < 4 && NamesManifest(dir, RESTART_ORDER[j], p);
    assert RESTART_ORDER[j] + ".yaml" != "" && RESTART_ORDER[j] + ".yml" != "";
  }

  lemma NoManifest(dir: string, p: string)
    requires !EndsLikeManifest(p)
    ensures !IsManifest(dir, p)
  {
    if IsManifest(dir, p) { ManifestsEnd(dir, p); }
  }

  /** `e` holds the manifest of `name` as on `d`, with the annotation added. */
  predicate Restarted(su: Setup, d: Disk, e: Disk, name: string) {
    ManifestPath(d, su.dir, name).Some? &&
    var p := ManifestPath(d, su.dir, name).value;
    var parsed := su.codec.decodeManifest(d.files[p]);
    parsed.Some? && parsed.value.Obj? && p in e.files &&
    e.files[p] == su.codec.encodeManifest(Stamped(parsed.value, su.clock(name)))
  }

  /** Restarting a component twice leaves its manifest as the later restart alone would. */
  lemma RestartedTwice(su: Setup, later: Setup, d: Disk, e: Disk, f: Disk, name: string)
    requires Lawful(su.codec) && later.codec == su.codec && later.dir == su.dir
    requires Restarted(su, d, e, name) && Restarted(later, e, f, name)
    requires ManifestPath(e, su.dir, name) == ManifestPath(d, su.dir, name)
    ensures Restarted(later, d, f, name)
  {
    var p := ManifestPath(d, su.dir, name).value;
    StampTwice(su.codec.decodeManifest(d.files[p]).value, su.clock(name), later.clock(name));
  }

  /** A restart leaves the disk alone, or writes the manifest that is there. */
  lemma RestartFrame(su: Setup, d: Disk, name: string, fates: seq<Fate>)
    ensures var e, path := Restart(su, d, name, fates).disk, ManifestPath(d, su.dir, name);
      && (e == d || (!su.dryRun && path.Some? && e.dirs == d.dirs && (forall p :: p != path.value ==> SameAt(d, e, p)) && (Sound(d) ==> Sound(e))))
    ensures Restart(su, d, name, fates).out != NotExist
  {
  }

  lemma RestartStamps(su: Setup, d: Disk, name: string, fates: seq<Fate>)
    requires Restart(su, d, name, fates).out == Ok && !su.dryRun
    ensures Restarted(su, d, Restart(su, d, name, fates).disk, name)
  {
  }

  lemma RestartLaw(su: Setup, d: Disk, name: string, fates: seq<Fate>)
    ensures var s := Restart(su, d, name, fates);
      && d.dirs <= s.disk.dirs && (Sound(d) ==> Sound(s.disk)) && s.out != NotExist
      && (forall p :: !NamesManifest(su.dir, name, p) ==> SameAt(d, s.disk, p))
      && (s.out == Ok && !su.dryRun ==> Restarted(su, d, s.disk, name))
      && (su.dryRun ==> s.disk == d)
  {
    RestartFrame(su, d, name, fates);
    if Restart(su, d, name, fates).out == Ok && !su.dryRun {
      RestartStamps(su, d, name, fates);
    }
  }

  lemma FileNamesDiffer(i: nat, j: nat, x: string, y: string)
    requires i < 4 && j < 4 && i != j && x in {".yaml", ".yml"} && y in {".yaml", ".yml"}
    ensures RESTART_ORDER[i] + x != RESTART_ORDER[j] + y
  {
    assert |x| in {4, 5} && |y| in {4, 5};
    if i in {1, 3} && j in {1, 3} {
      assert "kube-apiserver"[5] == 'a' && "kube-scheduler"[5] == 's';
      assert (RESTART_ORDER[i] + x)[5] == RESTART_ORDER[i][5] && (RESTART_ORDER[j] + y)[5] == RESTART_ORDER[j][5];
    }
  }

  lemma ManifestsDiffer(su: Setup, i: nat, j: nat, p: string)
    requires i < 4 && j < 4 && i != j && NamesManifest(su.dir, RESTART_ORDER[i], p)
    ensures !NamesManifest(su.dir, RESTART_ORDER[j], p)
  {
    var x := if p == Join(su.dir, RESTART_ORDER[i] + ".yaml") then ".yaml" else ".yml";
    if NamesManifest(su.dir, RESTART_ORDER[j], p) {
      var y := if p == Join(su.dir, RESTART_ORDER[j] + ".yaml") then ".yaml" else ".yml";
      SameDirSameName(su.dir, RESTART_ORDER[i] + x, RESTART_ORDER[j] + y);
      FileNamesDiffer(i, j, x, y);
    }
  }

  /** The manifests of the first n components are restarted, those after the n-th are untouched,
      and so is every other file. */
  ghost predicate InOrder(su: Setup, d: Disk, e: Disk, k: nat, n: nat)
    requires k <= n <= 4
  {
    && (forall j :: k <= j < n ==> Restarted(su, d, e, RESTART_ORDER[j]))
    && (forall p :: (forall j :: k <= j < 4 && j <= n ==> !NamesManifest(su.dir, RESTART_ORDER[j], p)) ==> SameAt(d, e, p))
    && d.dirs <= e.dirs && (Sound(d) ==> Sound(e))
  }

  lemma SameManifest(su: Setup, d: Disk, e: Disk, name: string)
    requires SameAt(d, e, Join(su.dir, name + ".yaml")) && SameAt(d, e, Join(su.dir, name + ".yml"))
    ensures ManifestPath(d, su.dir, name) == ManifestPath(e, su.dir, name)
  {
  }

  lemma {:induction false} RestartInOrder(su: Setup, d: Disk, k: nat, fates: seq<Fate>) returns (n: nat)
    requires k <= 4 && !su.dryRun
    ensures k <= n <= 4 && InOrder(su, d, RestartFrom(su, d, RESTART_ORDER[k..], fates).disk, k, n)
    ensures RestartFrom(su, d, RESTART_ORDER[k..], fates).out == Ok ==> n == 4
    ensures RestartFrom(su, d, RESTART_ORDER[k..], fates).out != NotExist
    decreases 4 - k
  {
    n := k;
    if k < 4 {
      assert RESTART_ORDER[k..][0] == RESTART_ORDER[k] && RESTART_ORDER[k..][1..] == RESTART_ORDER[k + 1..];
      var s := Restart(su, d, RESTART_ORDER[k], fates);
      RestartLaw(su, d, RESTART_ORDER[k], fates);
      if s.out == Ok {
        var e := RestartFrom(su, s.disk, RESTART_ORDER[k + 1..], s.fates).disk;
        n := RestartInOrder(su, s.disk, k + 1, s.fates);
        ExtendOrder(su, d, s.disk, e, k, n);
      }
    }
  }

  lemma ExtendOrder(su: Setup, d: Disk, s: Disk, e: Disk, k: nat, n: nat)
    requires k + 1 <= n <= 4 && InOrder(su, s, e, k + 1, n)
    requires Restarted(su, d, s, RESTART_ORDER[k])
    requires d.dirs <= s.dirs && (Sound(d) ==> Sound(s))
    requires forall p :: !NamesManifest(su.dir, RESTART_ORDER[k], p) ==> SameAt(d, s, p)
    ensures InOrder(su, d, e, k, n)
  {
    forall p | forall j :: k <= j < 4 && j <= n ==> !NamesManifest(su.dir, RESTART_ORDER[j], p) ensures SameAt(d, e, p) {
      assert SameAt(d, s, p) && SameAt(s, e, p);
    }
    forall j | k <= j < n ensures Restarted(su, d, e, RESTART_ORDER[j]) {
      var name := RESTART_ORDER[j];
      var yaml, yml := Join(su.dir, name + ".yaml"), Join(su.dir, name + ".yml");
      if j == k {
        var p := ManifestPath(d, su.dir, name).value;
        forall i | k + 1 <= i < 4 && i <= n ensures !NamesManifest(su.dir, RESTART_ORDER[i], p) { ManifestsDiffer(su, k, i, p); }
        assert SameAt(s, e, p);
      } else {
        ManifestsDiffer(su, j, k, yaml);
        ManifestsDiffer(su, j, k, yml);
        assert SameAt(d, s, yaml) && SameAt(d, s, yml);
        SameManifest(su, d, s, name);
      }
    }
  }

  /** A restart sequence that completes re-stamped all four manifests. However it ends, the
      manifests are stamped in order, and nothing but manifests was written. */
  lemma RestartAllLaw(su: Setup, d: Disk, fates: seq<Fate>) returns (n: nat)
    requires !su.dryRun
    ensures n <= 4 && InOrder(su, d, RestartAllEffect(su, d, fates).disk, 0, n)
    ensures RestartAllEffect(su, d, fates).out == Ok ==> n == 4
    ensures forall p :: !IsManifest(su.dir, p) ==> SameAt(d, RestartAllEffect(su, d, fates).disk, p)
    ensures RestartAllEffect(su, d, fates).out != NotExist
  {
    assert RESTART_ORDER[0..] == RESTART_ORDER;
    n := RestartInOrder(su, d, 0, fates);
    forall p | !IsManifest(su.dir, p) ensures SameAt(d, RestartAllEffect(su, d, fates).disk, p) {
      assert forall j: nat :: j < 4 ==> !NamesManifest(su.dir, RESTART_ORDER[j], p);
    }
  }

  /** Some manifest of this component differs. */
  ghost predicate Touched(su: Setup, d: Disk, e: Disk, name: string) {
    exists p :: NamesManifest(su.dir, name, p) && !SameAt(d, e, p)
  }

  lemma TouchedInOrder(su: Setup, d: Disk, e: Disk, n: nat, i: nat)
    requires n <= 4 && i < 4 && InOrder(su, d, e, 0, n) && Touched(su, d, e, RESTART_ORDER[i])
    ensures forall j :: 0 <= j < i ==> Restarted(su, d, e, RESTART_ORDER[j])
  {
    var p :| NamesManifest(su.dir, RESTART_ORDER[i], p) && !SameAt(d, e, p);
    var j: nat :| j < 4 && j <= n && NamesManifest(su.dir, RESTART_ORDER[j], p);
    if j != i { ManifestsDiffer(su, i, j, p); }
  }

  /** Wherever a restart sequence stops: no manifest of the API server was written unless etcd was
      restarted, and none of the controller manager or the scheduler unless both were. */
  lemma RestartsFollowDependencies(su: Setup, d: Disk, fates: seq<Fate>)
    requires !su.dryRun
    ensures var e := RestartAllEffect(su, d, fates).disk;
      && (Touched(su, d, e, "kube-apiserver") ==> Restarted(su, d, e, "etcd"))
      && (Touched(su, d, e, "kube-controller-manager") || Touched(su, d, e, "kube-scheduler") ==>
            Restarted(su, d, e, "etcd") && Restarted(su, d, e, "kube-apiserver"))
  {
    var e := RestartAllEffect(su, d, fates).disk;
    var n := RestartAllLaw(su, d, fates);
    assert RESTART_ORDER[0] == "etcd" && RESTART_ORDER[1] == "kube-apiserver";
    assert RESTART_ORDER[2] == "kube-controller-manager" && RESTART_ORDER[3] == "kube-scheduler";
    forall i: nat | 1 <= i < 4 && Touched(su, d, e, RESTART_ORDER[i])
      ensures Restarted(su, d, e, RESTART_ORDER[0]) && (i >= 2 ==> Restarted(su, d, e, RESTART_ORDER[1]))
    {
      TouchedInOrder(su, d, e, n, i);
    }
  }

  /** Of two manifests of a component only the one that ends in yaml is written. */
  lemma YamlComesFirst(su: Setup, d: Disk, name: string, fates: seq<Fate>)
    requires Join(su.dir, name + ".yaml") in d.files
    ensures SameAt(d, Restart(su, d, name, fates).disk, Join(su.dir, name + ".yml"))
    ensures Restart(su, d, name, fates).disk != d ==> !SameAt(d, Restart(su, d, name, fates).disk, Join(su.dir, name + ".yaml"))
  {
    RestartFrame(su, d, name, fates);
    var yaml, yml := Join(su.dir, name + ".yaml"), Join(su.dir, name + ".yml");
    assert |yaml| == |yml| + 1;
    var e := Restart(su, d, name, fates).disk;
    if SameAt(d, e, yaml) { assert d.files == e.files; }
  }

  lemma {:induction false} DryRestartChangesNothing(su: Setup, d: Disk, names: seq<string>, fates: seq<Fate>)
    requires su.dryRun
    ensures RestartFrom(su, d, names, fates).disk == d && RestartFrom(su, d, names, fates).fates == fates
    ensures RestartFrom(su, d, names, fates).out == if forall n :: n in names ==> ManifestPath(d, su.dir, n).Some? then Ok else Err
    decreases |names|
  {
    if names != [] {
      DryRestartChangesNothing(su, d, names[1..], fates);
    }
  }

  /** A restart panics exactly when it runs live, finds and reads its manifest, and that is an empty
      document. */
  lemma WhenRestartPanics(su: Setup, d: Disk, name: string, fates: seq<Fate>)
    ensures Restart(su, d, name, fates).out == Panic <==>
            && !su.dryRun && ManifestPath(d, su.dir, name).Some? && fates != [] && fates[0].Done?
            && su.codec.decodeManifest(d.files[ManifestPath(d, su.dir, name).value]) == Some(Null)
  {
  }

  /** A write that dies right after truncating the manifest leaves an empty file. Where the decoder
      takes that for an empty document, as YAML decoders do, the next restart panics. */
  lemma TornManifestPanics(su: Setup, d: Disk, name: string, later: seq<Fate>)
    requires !su.dryRun && Sound(d) && ManifestPath(d, su.dir, name).Some?
    requires var parsed := su.codec.decodeManifest(d.files[ManifestPath(d, su.dir, name).value]);
      parsed.Some? && parsed.value.Obj?
    requires su.codec.decodeManifest([]) == Some(Null) && later != [] && later[0].Done?
    ensures var torn := Restart(su, d, name, [Done, Done, Killed(0)]);
      torn.out == Crash && Restart(su, torn.disk, name, later).out == Panic
  {
    var path := ManifestPath(d, su.dir, name).value;
    var script := [Done, Done, Killed(0)];
    assert script[1..] == [Done, Killed(0)] && script[1..][1..] == [Killed(0)];
    var torn := Restart(su, d, name, script);
    assert torn.disk.files == d.files[path := []];
  }
}
