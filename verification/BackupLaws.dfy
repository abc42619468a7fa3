/** What a backup is worth: a completed backup equals the live files, a completed restore gives
    them back from any intermediate state, and interrupted restores do no harm. */
module BackupLaws {
  import opened Host
  import opened Backup

  /** Two disks agree on one path. */
  predicate SameAt(d: Disk, e: Disk, p: string) {
    (p in d.files <==> p in e.files) && (p in d.files ==> d.files[p] == e.files[p])
  }

  /** Neither directory contains the other. */
  predicate Separate(a: string, b: string) {
    !(a + "/" <= b + "/") && !(b + "/" <= a + "/")
  }

  const LISTED := 24

  function Name(i: nat): string
    requires i < LISTED
  {
    if i < 20 then PKI_FILES[i] else KUBECONFIG_FILES[i - 20]
  }

  /** The i-th listed file where the cluster uses it, and where a backup keeps it. */
  function Live(dirs: Dirs, i: nat): string
    requires i < LISTED
  {
    Join(if i < 20 then dirs.pki else dirs.kubeconfig, Name(i))
  }

  function Saved(path: string, i: nat): string
    requires i < LISTED
  {
    Join(Join(path, if i < 20 then "pki" else "kubeconfigs"), Name(i))
  }

  predicate IsLive(dirs: Dirs, p: string) {
    exists i: nat :: i < LISTED && p == Live(dirs, i)
  }

  predicate IsSaved(path: string, p: string) {
    exists i: nat :: i < LISTED && p == Saved(path, i)
  }

  /** The backup at `path` on disk `d` is a complete copy of the listed files of `d0`. */
  predicate Holds(d: Disk, path: string, dirs: Dirs, d0: Disk) {
    forall i: nat :: i < LISTED ==>
      (Saved(path, i) in d.files <==> Live(dirs, i) in d0.files) &&
      (Live(dirs, i) in d0.files ==> Saved(path, i) in d.files && d.files[Saved(path, i)] == d0.files[Live(dirs, i)])
  }

  predicate Fresh(d: Disk, path: string) {
    forall i: nat :: i < LISTED ==> Saved(path, i) !in d.files
  }

  // ---- the copy loop ----

  lemma CopyItemFrame(d: Disk, e: Item, fates: seq<Fate>)
    ensures var s := CopyItem(d, e, fates);
      && d.dirs <= s.disk.dirs
      && (forall p :: p != e.dst ==> SameAt(d, s.disk, p))
      && (Sound(d) ==> Sound(s.disk))
      && (s.out == Ok ==> e.src in d.files && e.dst in s.disk.files && s.disk.files[e.dst] == d.files[e.src] && Dir(e.dst) in s.disk.dirs)
      && s.out != Panic
      && (s.out == NotExist ==> s.disk.files == d.files && (e.src !in d.files || (!e.mkdir && Dir(e.dst) !in d.dirs)))
  {
    assert Dir(e.dst)[..|Dir(e.dst)|] == Dir(e.dst);
    assert Dir(e.dst) in Ancestors(Dir(e.dst), |Dir(e.dst)|);
  }

  lemma {:induction false} CopyItemsFrame(d: Disk, items: seq<Item>, fates: seq<Fate>)
    ensures var s := CopyItems(d, items, fates);
      && d.dirs <= s.disk.dirs
      && (forall p :: (forall e :: e in items ==> e.dst != p) ==> SameAt(d, s.disk, p))
      && (Sound(d) ==> Sound(s.disk))
      && s.out != NotExist && s.out != Panic
    decreases |items|
  {
    if items != [] {
      var s := CopyItem(d, items[0], fates);
      CopyItemFrame(d, items[0], fates);
      if s.out == Ok || s.out == NotExist {
        CopyItemsFrame(s.disk, items[1..], s.fates);
        var r := CopyItems(s.disk, items[1..], s.fates).disk;
        forall p | forall e :: e in items ==> e.dst != p ensures SameAt(d, r, p) {
          assert items[0] in items && forall e :: e in items[1..] ==> e in items;
          assert SameAt(d, s.disk, p) && SameAt(s.disk, r, p);
        }
      }
    }
  }

  /** No destination is a source, and a destination named twice has one source. */
  predicate WellMatched(items: seq<Item>) {
    forall x, y :: x in items && y in items ==> x.dst != y.src && (x.dst == y.dst ==> x.src == y.src)
  }

  /** `r` holds the source of `e` at its destination, or what was there if there is no source. */
  predicate Delivered(d: Disk, e: Item, r: Disk) {
    && (e.src !in d.files ==> SameAt(d, r, e.dst))
    && (e.src in d.files && (e.mkdir || Dir(e.dst) in d.dirs) ==> e.dst in r.files && r.files[e.dst] == d.files[e.src])
  }

  lemma {:induction false} CopyItemsComplete(d: Disk, items: seq<Item>, fates: seq<Fate>)
    requires WellMatched(items) && CopyItems(d, items, fates).out == Ok
    ensures forall e :: e in items ==> Delivered(d, e, CopyItems(d, items, fates).disk)
    decreases |items|
  {
    if items != [] {
      var e, rest := items[0], items[1..];
      var s := CopyItem(d, e, fates);
      var r := CopyItems(d, items, fates).disk;
      CopyItemFrame(d, e, fates);
      assert e in items && forall x :: x in rest ==> x in items;
      CopyItemsComplete(s.disk, rest, s.fates);
      CopyItemsFrame(s.disk, rest, s.fates);
      forall x | x in items ensures Delivered(d, x, r) {
        assert SameAt(d, s.disk, x.src);
        if x in rest {
          assert Delivered(s.disk, x, r);
        } else if y :| y in rest && y.dst == x.dst {
          assert Delivered(s.disk, y, r);
        } else {
          assert x == e && SameAt(s.disk, r, e.dst);
        }
      }
    }
  }

  // ---- the tables ----

  lemma NamesEnd(i: nat)
    requires i < LISTED
    ensures Name(i) != "" && (i < 20 ==> Name(i)[|Name(i)| - 1] in {'t', 'y'}) && (i >= 20 ==> Name(i)[|Name(i)| - 1] == 'f')
  {
  }

  lemma PathsEnd(dirs: Dirs, path: string, i: nat)
    requires i < LISTED
    ensures var c := Name(i)[|Name(i)| - 1]; var p, q := Live(dirs, i), Saved(path, i);
      p != "" && q != "" && p[|p| - 1] == c && q[|q| - 1] == c && (i < 20 <==> c != 'f') && c in {'t', 'y', 'f'}
  {
    NamesEnd(i);
  }

  lemma SameDirSameName(dir: string, a: string, b: string)
    requires Join(dir, a) == Join(dir, b)
    ensures a == b
  {
    assert Join(dir, a)[|dir| + 1..] == a && Join(dir, b)[|dir| + 1..] == b;
  }

  lemma OnePlaceEach(dirs: Dirs, path: string, i: nat, j: nat)
    requires i < LISTED && j < LISTED
    ensures Live(dirs, i) == Live(dirs, j) <==> Saved(path, i) == Saved(path, j)
  {
    PathsEnd(dirs, path, i);
    PathsEnd(dirs, path, j);
    if i < 20 <==> j < 20 {
      if Live(dirs, i) == Live(dirs, j) {
        SameDirSameName(if i < 20 then dirs.pki else dirs.kubeconfig, Name(i), Name(j));
      }
      if Saved(path, i) == Saved(path, j) {
        SameDirSameName(Join(path, if i < 20 then "pki" else "kubeconfigs"), Name(i), Name(j));
      }
    }
  }

  lemma PrefixesOfOne(a: string, b: string, s: string)
    requires a <= s && b <= s
    ensures a <= b || b <= a
  {
    assert s[..|a|] == a && s[..|b|] == b;
    if |a| <= |b| { assert b[..|a|] == a; } else { assert a[..|b|] == b; }
  }

  lemma ApartBelow(a: string, x: string, b: string, y: string)
    requires Separate(a, b)
    ensures a + "/" + x != b + "/" + y
  {
    if a + "/" + x == b + "/" + y {
      PrefixesOfOne(a + "/", b + "/", a + "/" + x);
    }
  }

  lemma JoinedIsElsewhere(path: string, sub: string, name: string, dir: string, x: string)
    requires Separate(path, dir)
    ensures Join(Join(path, sub), name) != dir + "/" + x
  {
    assert Join(Join(path, sub), name) == path + "/" + (sub + "/" + name);
    ApartBelow(path, sub + "/" + name, dir, x);
  }

  lemma SavedIsNotLive(dirs: Dirs, path: string, i: nat, j: nat)
    requires i < LISTED && j < LISTED && Separate(path, dirs.pki) && Separate(path, dirs.kubeconfig)
    ensures Saved(path, i) != Live(dirs, j)
  {
    JoinedIsElsewhere(path, if i < 20 then "pki" else "kubeconfigs", Name(i), if j < 20 then dirs.pki else dirs.kubeconfig, Name(j));
  }

  lemma SeparateBelow(dirs: Dirs, node: string, stamp: string, home: string)
    requires Separate(dirs.backup, home)
    ensures Separate(BackupPath(dirs, node, stamp), home)
  {
    var below := BackupPath(dirs, node, stamp) + "/";
    assert below == dirs.backup + "/" + (node + "/" + stamp + "/");
    assert dirs.backup + "/" <= below;
    if home + "/" <= below {
      PrefixesOfOne(dirs.backup + "/", home + "/", below);
    }
  }

  lemma TheItems(dirs: Dirs, path: string)
    ensures |CreateItems(dirs, path)| == LISTED && |RestoreItems(dirs, path)| == LISTED
    ensures forall i: nat :: i < LISTED ==> CreateItems(dirs, path)[i] == Item(Live(dirs, i), Saved(path, i), i < 20)
    ensures forall i: nat :: i < LISTED ==> RestoreItems(dirs, path)[i] == Item(Saved(path, i), Live(dirs, i), i < 20)
  {
  }

  lemma ItemsWellMatched(dirs: Dirs, path: string)
    requires Separate(path, dirs.pki) && Separate(path, dirs.kubeconfig)
    ensures WellMatched(CreateItems(dirs, path)) && WellMatched(RestoreItems(dirs, path))
  {
    TheItems(dirs, path);
    forall i: nat, j: nat | i < LISTED && j < LISTED
      ensures Saved(path, i) != Live(dirs, j) && (Live(dirs, i) == Live(dirs, j) <==> Saved(path, i) == Saved(path, j))
    {
      SavedIsNotLive(dirs, path, i, j);
      OnePlaceEach(dirs, path, i, j);
    }
  }

  // ---- what Create and Restore promise ----

  lemma {:induction false} DirOfPlainName(dir: string, name: string)
    requires forall i :: 0 <= i < |name| ==> name[i] != '/'
    ensures Dir(Join(dir, name)) == dir
    decreases |name|
  {
    var p := Join(dir, name);
    if name == "" {
      assert p[..|p| - 1] == dir;
    } else {
      assert p[..|p| - 1] == Join(dir, name[..|name| - 1]);
      DirOfPlainName(dir, name[..|name| - 1]);
    }
  }

  lemma KubeconfigNamesArePlain(i: nat)
    requires 20 <= i < LISTED
    ensures forall k :: 0 <= k < |Name(i)| ==> Name(i)[k] != '/'
  {
  }

  lemma NoItemThere(dirs: Dirs, path: string, p: string)
    requires !IsSaved(path, p)
    ensures forall e :: e in CreateItems(dirs, path) ==> e.dst != p
  {
    TheItems(dirs, path);
  }

  /** Creating a backup changes nothing but the backup. */
  lemma CreateFrame(dirs: Dirs, d: Disk, path: string, fates: seq<Fate>)
    ensures var s := CreateEffect(dirs, d, path, fates);
      && (forall p :: !IsSaved(path, p) ==> SameAt(d, s.disk, p))
      && d.dirs <= s.disk.dirs
      && (Sound(d) ==> Sound(s.disk))
      && s.out != NotExist && s.out != Panic
  {
    var s := CreateEffect(dirs, d, path, fates);
    var a := MkdirAll(d, Join(path, "pki"), fates);
    var items := CreateItems(dirs, path);
    if a.out == Ok {
      var b := MkdirAll(a.disk, Join(path, "kubeconfigs"), a.fates);
      if b.out == Ok {
        CopyItemsFrame(b.disk, items, b.fates);
        forall p | !IsSaved(path, p) ensures SameAt(d, s.disk, p) {
          NoItemThere(dirs, path, p);
          assert SameAt(b.disk, s.disk, p);
        }
      }
    }
  }

  lemma SavedDirExists(path: string, i: nat, d: Disk)
    requires 20 <= i < LISTED && Ancestors(Join(path, "kubeconfigs"), |Join(path, "kubeconfigs")|) <= d.dirs
    ensures Dir(Saved(path, i)) in d.dirs
  {
    var sub := Join(path, "kubeconfigs");
    KubeconfigNamesArePlain(i);
    DirOfPlainName(sub, Name(i));
    assert sub[..|sub|] == sub;
    assert sub in Ancestors(sub, |sub|);
  }

  lemma HoldsWhenDelivered(dirs: Dirs, d: Disk, b: Disk, r: Disk, path: string)
    requires b.files == d.files && Fresh(d, path)
    requires forall i: nat :: i < LISTED ==> Delivered(b, Item(Live(dirs, i), Saved(path, i), i < 20), r)
    requires forall i: nat :: 20 <= i < LISTED ==> Dir(Saved(path, i)) in b.dirs
    ensures Holds(r, path, dirs, d)
  {
    forall i: nat | i < LISTED
      ensures Saved(path, i) in r.files <==> Live(dirs, i) in d.files
      ensures Live(dirs, i) in d.files ==> r.files[Saved(path, i)] == d.files[Live(dirs, i)]
    {
      assert Delivered(b, Item(Live(dirs, i), Saved(path, i), i < 20), r);
    }
  }

  /** A backup that completes at a fresh path is a copy of all listed files. */
  lemma CreateHolds(dirs: Dirs, d: Disk, path: string, fates: seq<Fate>)
    requires Separate(path, dirs.pki) && Separate(path, dirs.kubeconfig)
    requires Fresh(d, path) && CreateEffect(dirs, d, path, fates).out == Ok
    ensures Holds(CreateEffect(dirs, d, path, fates).disk, path, dirs, d)
  {
    var a := MkdirAll(d, Join(path, "pki"), fates);
    var b := MkdirAll(a.disk, Join(path, "kubeconfigs"), a.fates);
    ItemsDelivered(dirs, b.disk, path, b.fates);
    forall i: nat | 20 <= i < LISTED ensures Dir(Saved(path, i)) in b.disk.dirs {
      SavedDirExists(path, i, b.disk);
    }
    HoldsWhenDelivered(dirs, d, b.disk, CreateEffect(dirs, d, path, fates).disk, path);
  }

  lemma ItemsDelivered(dirs: Dirs, d: Disk, path: string, fates: seq<Fate>)
    requires Separate(path, dirs.pki) && Separate(path, dirs.kubeconfig)
    requires CopyItems(d, CreateItems(dirs, path), fates).out == Ok
    ensures forall i: nat :: i < LISTED ==>
              Delivered(d, Item(Live(dirs, i), Saved(path, i), i < 20), CopyItems(d, CreateItems(dirs, path), fates).disk)
  {
    var items := CreateItems(dirs, path);
    TheItems(dirs, path);
    ItemsWellMatched(dirs, path);
    CopyItemsComplete(d, items, fates);
    forall i: nat | i < LISTED ensures items[i] in items && items[i] == Item(Live(dirs, i), Saved(path, i), i < 20) {
    }
  }

  /** However a restore ends, it touches nothing but the listed live files. */
  lemma RestoreFrame(dirs: Dirs, d: Disk, path: string, fates: seq<Fate>)
    ensures var s := RestoreEffect(dirs, d, path, fates);
      && (forall p :: !IsLive(dirs, p) ==> SameAt(d, s.disk, p))
      && d.dirs <= s.disk.dirs
      && (Sound(d) ==> Sound(s.disk))
      && s.out != NotExist && s.out != Panic
  {
    TheItems(dirs, path);
    CopyItemsFrame(d, RestoreItems(dirs, path), fates);
  }

  lemma SavedIsNoLive(dirs: Dirs, path: string, i: nat)
    requires i < LISTED && Separate(path, dirs.pki) && Separate(path, dirs.kubeconfig)
    ensures !IsLive(dirs, Saved(path, i))
  {
    if j: nat :| j < LISTED && Saved(path, i) == Live(dirs, j) {
      SavedIsNotLive(dirs, path, i, j);
    }
  }

  /** Whatever state the live files are in: a restore that completes gives every listed file that
      was backed up its bytes, and it never touches the backup. */
  lemma RestoreGivesBack(dirs: Dirs, d: Disk, path: string, fates: seq<Fate>)
    requires Separate(path, dirs.pki) && Separate(path, dirs.kubeconfig)
    ensures var s := RestoreEffect(dirs, d, path, fates);
      && (forall i: nat :: i < LISTED ==> SameAt(d, s.disk, Saved(path, i)))
      && (s.out == Ok ==> forall i: nat :: i < LISTED ==> Delivered(d, Item(Saved(path, i), Live(dirs, i), i < 20), s.disk))
  {
    var items := RestoreItems(dirs, path);
    TheItems(dirs, path);
    RestoreFrame(dirs, d, path, fates);
    if RestoreEffect(dirs, d, path, fates).out == Ok {
      ItemsWellMatched(dirs, path);
      CopyItemsComplete(d, items, fates);
      assert forall i: nat :: i < LISTED ==> Delivered(d, items[i], RestoreEffect(dirs, d, path, fates).disk);
    }
    forall i: nat | i < LISTED ensures SameAt(d, RestoreEffect(dirs, d, path, fates).disk, Saved(path, i)) {
      SavedIsNoLive(dirs, path, i);
    }
  }

  /** Restores that were interrupted anywhere, one after the other. */
  function RestoreTries(dirs: Dirs, d: Disk, path: string, scripts: seq<seq<Fate>>): Disk
    decreases |scripts|
  {
    if scripts == [] then d
    else RestoreTries(dirs, RestoreEffect(dirs, d, path, scripts[0]).disk, path, scripts[1..])
  }

  lemma {:induction false} TriesTouchOnlyLive(dirs: Dirs, d: Disk, path: string, scripts: seq<seq<Fate>>)
    requires Separate(path, dirs.pki) && Separate(path, dirs.kubeconfig)
    ensures var r := RestoreTries(dirs, d, path, scripts);
      && (forall p :: !IsLive(dirs, p) ==> SameAt(d, r, p))
      && (forall i: nat :: i < LISTED ==> SameAt(d, r, Saved(path, i)))
      && (forall i: nat :: i < LISTED && Saved(path, i) !in d.files ==> SameAt(d, r, Live(dirs, i)))
      && d.dirs <= r.dirs && (Sound(d) ==> Sound(r))
    decreases |scripts|
  {
    if scripts != [] {
      var s := RestoreEffect(dirs, d, path, scripts[0]);
      RestoreFrame(dirs, d, path, scripts[0]);
      RestoreGivesBack(dirs, d, path, scripts[0]);
      NothingToRestore(dirs, d, path, scripts[0]);
      TriesTouchOnlyLive(dirs, s.disk, path, scripts[1..]);
    }
  }

  lemma {:induction false} SkippedItems(d: Disk, items: seq<Item>, fates: seq<Fate>, p: string)
    requires forall e :: e in items && e.dst == p ==> e.src !in d.files
    requires forall x, y :: x in items && y in items ==> x.dst != y.src
    ensures SameAt(d, CopyItems(d, items, fates).disk, p)
    decreases |items|
  {
    if items != [] {
      var e, rest := items[0], items[1..];
      var s := CopyItem(d, e, fates);
      CopyItemFrame(d, e, fates);
      assert e in items && forall x :: x in rest ==> x in items;
      if s.out == Ok || s.out == NotExist {
        forall x | x in rest && x.dst == p ensures x.src !in s.disk.files { assert SameAt(d, s.disk, x.src); }
        SkippedItems(s.disk, rest, s.fates, p);
      }
    }
  }

  /** A listed file that the backup lacks is never touched, however the restore ends. */
  lemma NothingToRestore(dirs: Dirs, d: Disk, path: string, fates: seq<Fate>)
    requires Separate(path, dirs.pki) && Separate(path, dirs.kubeconfig)
    ensures forall i: nat :: i < LISTED && Saved(path, i) !in d.files ==> SameAt(d, RestoreEffect(dirs, d, path, fates).disk, Live(dirs, i))
  {
    var items := RestoreItems(dirs, path);
    TheItems(dirs, path);
    ItemsWellMatched(dirs, path);
    forall i: nat | i < LISTED && Saved(path, i) !in d.files
      ensures SameAt(d, RestoreEffect(dirs, d, path, fates).disk, Live(dirs, i))
    {
      forall e | e in items && e.dst == Live(dirs, i) ensures e.src !in d.files {
        var j :| 0 <= j < LISTED && e == items[j];
        OnePlaceEach(dirs, path, i, j);
      }
      SkippedItems(d, items, fates, Live(dirs, i));
    }
  }

  predicate Undisturbed(fates: seq<Fate>) {
    forall f :: f in fates ==> f.Done?
  }

  lemma {:induction false} UndisturbedCopy(d: Disk, items: seq<Item>, fates: seq<Fate>)
    requires Undisturbed(fates) && |fates| >= 2 * |items|
    ensures var s := CopyItems(d, items, fates);
      s.out == Ok && Undisturbed(s.fates) && |s.fates| >= |fates| - 2 * |items|
    decreases |items|
  {
    if items != [] {
      var s := CopyItem(d, items[0], fates);
      assert fates[0] in fates && fates[1] in fates;
      assert forall f :: f in s.fates ==> f in fates;
      UndisturbedCopy(s.disk, items[1..], s.fates);
    }
  }

  /** Nothing on the disk can make a backup or a restore fail: if no call is disturbed, both
      complete from every state. */
  lemma UndisturbedRunsComplete(dirs: Dirs, d: Disk, path: string, fates: seq<Fate>)
    requires Undisturbed(fates) && |fates| >= 2 * LISTED + 2
    ensures CreateEffect(dirs, d, path, fates).out == Ok && RestoreEffect(dirs, d, path, fates).out == Ok
    ensures var s := CreateEffect(dirs, d, path, fates); Undisturbed(s.fates) && |s.fates| >= |fates| - (2 * LISTED + 2)
  {
    TheItems(dirs, path);
    UndisturbedCopy(d, RestoreItems(dirs, path), fates);
    assert fates[0] in fates && fates[1] in fates;
    var a := MkdirAll(d, Join(path, "pki"), fates);
    var b := MkdirAll(a.disk, Join(path, "kubeconfigs"), a.fates);
    assert b.fates == fates[2..];
    UndisturbedCopy(b.disk, CreateItems(dirs, path), b.fates);
  }

  // ---- restores that stop and start again ----

  /** The directories that a complete restore creates. */
  ghost function Made(dirs: Dirs): set<string> {
    set i: nat, dir | i < 20 && dir in Ancestors(Dir(Live(dirs, i)), |Dir(Live(dirs, i))|) :: dir
  }

  /** The i-th listed file has a directory during a complete restore that starts on `d`. */
  ghost predicate HasDir(dirs: Dirs, d: Disk, i: nat)
    requires i < LISTED
  {
    i < 20 || Dir(Live(dirs, i)) in d.dirs + Made(dirs)
  }

  lemma {:induction false} CopyItemsSplit(d: Disk, a: seq<Item>, b: seq<Item>, fates: seq<Fate>)
    ensures var s := CopyItems(d, a, fates);
      CopyItems(d, a + b, fates) == if s.out == Ok then CopyItems(s.disk, b, s.fates) else s
    decreases |a|
  {
    if a == [] {
      assert a + b == b;
    } else {
      assert (a + b)[0] == a[0] && (a + b)[1..] == a[1..] + b;
      var s := CopyItem(d, a[0], fates);
      CopyItemsSplit(s.disk, a[1..], b, s.fates);
      if s.out != Ok && s.out != NotExist { CopyItemFrame(d, a[0], fates); }
    }
  }

  /** What a copy loop may do to the directories: nothing but create those of its items, all of them
      if it completes. */
  lemma {:induction false} CopyItemsDirs(d: Disk, items: seq<Item>, fates: seq<Fate>, made: set<string>)
    requires forall e :: e in items && e.mkdir ==> Ancestors(Dir(e.dst), |Dir(e.dst)|) <= made
    ensures var s := CopyItems(d, items, fates);
      && s.disk.dirs <= d.dirs + made
      && (s.out == Ok ==> forall e :: e in items && e.mkdir ==> Ancestors(Dir(e.dst), |Dir(e.dst)|) <= s.disk.dirs)
    decreases |items|
  {
    if items != [] {
      var e := items[0];
      var s := CopyItem(d, e, fates);
      assert e in items && forall x :: x in items[1..] ==> x in items;
      CopyItemDirs(d, e, fates);
      if s.out == Ok || s.out == NotExist {
        CopyItemsDirs(s.disk, items[1..], s.fates, made);
        CopyItemsFrame(s.disk, items[1..], s.fates);
        forall x | x in items && x.mkdir && CopyItems(d, items, fates).out == Ok
          ensures Ancestors(Dir(x.dst), |Dir(x.dst)|) <= CopyItems(d, items, fates).disk.dirs
        {
          if x !in items[1..] { assert x == e; }
        }
      }
    }
  }

  lemma CopyItemDirs(d: Disk, e: Item, fates: seq<Fate>)
    ensures var s := CopyItem(d, e, fates);
      && s.disk.dirs <= d.dirs + (if e.mkdir then Ancestors(Dir(e.dst), |Dir(e.dst)|) else {})
      && ((s.out == Ok || s.out == NotExist) && e.mkdir ==> Ancestors(Dir(e.dst), |Dir(e.dst)|) <= s.disk.dirs)
  {
  }

  /** Without a directory nothing arrives. */
  lemma {:induction false} NoDirNoFile(d: Disk, items: seq<Item>, fates: seq<Fate>, p: string)
    requires forall e :: e in items && e.dst == p ==> !e.mkdir
    requires Dir(p) !in CopyItems(d, items, fates).disk.dirs
    ensures SameAt(d, CopyItems(d, items, fates).disk, p)
    decreases |items|
  {
    if items != [] {
      var e := items[0];
      var s := CopyItem(d, e, fates);
      CopyItemFrame(d, e, fates);
      assert e in items && forall x :: x in items[1..] ==> x in items;
      if s.out == Ok || s.out == NotExist {
        CopyItemsFrame(s.disk, items[1..], s.fates);
        NoDirNoFile(s.disk, items[1..], s.fates, p);
      }
    }
  }

  lemma MadeByItems(dirs: Dirs, path: string)
    ensures forall e :: e in RestoreItems(dirs, path) && e.mkdir ==> Ancestors(Dir(e.dst), |Dir(e.dst)|) <= Made(dirs)
    ensures forall i: nat :: i < 20 ==> RestoreItems(dirs, path)[i] in RestoreItems(dirs, path) && RestoreItems(dirs, path)[i].mkdir
  {
    TheItems(dirs, path);
    forall e | e in RestoreItems(dirs, path) && e.mkdir ensures Ancestors(Dir(e.dst), |Dir(e.dst)|) <= Made(dirs) {
      var i :| 0 <= i < LISTED && RestoreItems(dirs, path)[i] == e;
      assert i < 20 && e.dst == Live(dirs, i);
    }
  }

  /** A restore creates no directory but those of the certificates, and a complete one all of them. */
  lemma RestoreDirs(dirs: Dirs, d: Disk, path: string, fates: seq<Fate>)
    ensures var s := RestoreEffect(dirs, d, path, fates);
      d.dirs <= s.disk.dirs <= d.dirs + Made(dirs) && (s.out == Ok ==> s.disk.dirs == d.dirs + Made(dirs))
  {
    var items := RestoreItems(dirs, path);
    var s := RestoreEffect(dirs, d, path, fates);
    TheItems(dirs, path);
    MadeByItems(dirs, path);
    CopyItemsDirs(d, items, fates, Made(dirs));
    RestoreFrame(dirs, d, path, fates);
    if s.out == Ok {
      forall dir | dir in Made(dirs) ensures dir in s.disk.dirs {
        var i: nat :| i < 20 && dir in Ancestors(Dir(Live(dirs, i)), |Dir(Live(dirs, i))|);
        assert items[i] in items && items[i].mkdir && items[i].dst == Live(dirs, i);
      }
    }
  }

  function PkiPart(dirs: Dirs, path: string): seq<Item> {
    PkiItems(Join(path, "pki"), dirs.pki, PKI_FILES, true)
  }

  function KubeconfigPart(dirs: Dirs, path: string): seq<Item> {
    PkiItems(Join(path, "kubeconfigs"), dirs.kubeconfig, KUBECONFIG_FILES, false)
  }

  /** Exactly what a complete restore does to each listed file. */
  lemma CompleteRestore(dirs: Dirs, d: Disk, path: string, fates: seq<Fate>, i: nat)
    requires i < LISTED && Separate(path, dirs.pki) && Separate(path, dirs.kubeconfig)
    requires RestoreEffect(dirs, d, path, fates).out == Ok
    ensures var r := RestoreEffect(dirs, d, path, fates).disk;
      if Saved(path, i) in d.files && HasDir(dirs, d, i)
      then Live(dirs, i) in r.files && r.files[Live(dirs, i)] == d.files[Saved(path, i)]
      else SameAt(d, r, Live(dirs, i))
  {
    var r := RestoreEffect(dirs, d, path, fates).disk;
    RestoreGivesBack(dirs, d, path, fates);
    RestoreDirs(dirs, d, path, fates);
    assert Delivered(d, Item(Saved(path, i), Live(dirs, i), i < 20), r);
    if i >= 20 && Saved(path, i) in d.files {
      if HasDir(dirs, d, i) {
        KubeconfigArrives(dirs, d, path, fates, i);
      } else {
        KubeconfigStays(dirs, d, path, fates, i);
      }
    }
  }

  lemma KubeconfigStays(dirs: Dirs, d: Disk, path: string, fates: seq<Fate>, i: nat)
    requires 20 <= i < LISTED && !HasDir(dirs, d, i)
    ensures SameAt(d, RestoreEffect(dirs, d, path, fates).disk, Live(dirs, i))
  {
    var items := RestoreItems(dirs, path);
    TheItems(dirs, path);
    RestoreDirs(dirs, d, path, fates);
    forall e | e in items && e.dst == Live(dirs, i) ensures !e.mkdir {
      var j :| 0 <= j < LISTED && items[j] == e;
      PathsEnd(dirs, path, i);
      PathsEnd(dirs, path, j);
    }
    NoDirNoFile(d, items, fates, Live(dirs, i));
  }

  lemma KubeconfigArrives(dirs: Dirs, d: Disk, path: string, fates: seq<Fate>, i: nat)
    requires 20 <= i < LISTED && Separate(path, dirs.pki) && Separate(path, dirs.kubeconfig)
    requires RestoreEffect(dirs, d, path, fates).out == Ok && HasDir(dirs, d, i) && Saved(path, i) in d.files
    ensures var r := RestoreEffect(dirs, d, path, fates).disk;
      Live(dirs, i) in r.files && r.files[Live(dirs, i)] == d.files[Saved(path, i)]
  {
    var first, second := PkiPart(dirs, path), KubeconfigPart(dirs, path);
    var items := RestoreItems(dirs, path);
    var s := CopyItems(d, first, fates);
    CopyItemsSplit(d, first, second, fates);
    TheItems(dirs, path);
    ItemsWellMatched(dirs, path);
    PartsOfItems(dirs, path);
    SavedStays(dirs, d, path, fates, i);
    PkiPartDirs(dirs, d, path, fates);
    CopyItemsComplete(s.disk, second, s.fates);
    assert second[i - 20] in second && second[i - 20] == Item(Saved(path, i), Live(dirs, i), false);
    assert Delivered(s.disk, second[i - 20], CopyItems(s.disk, second, s.fates).disk);
  }

  lemma PartsOfItems(dirs: Dirs, path: string)
    ensures RestoreItems(dirs, path) == PkiPart(dirs, path) + KubeconfigPart(dirs, path)
    ensures forall e :: e in PkiPart(dirs, path) || e in KubeconfigPart(dirs, path) ==> e in RestoreItems(dirs, path)
    ensures WellMatched(RestoreItems(dirs, path)) ==> WellMatched(KubeconfigPart(dirs, path))
  {
  }

  lemma SavedStays(dirs: Dirs, d: Disk, path: string, fates: seq<Fate>, i: nat)
    requires i < LISTED && Separate(path, dirs.pki) && Separate(path, dirs.kubeconfig)
    ensures SameAt(d, CopyItems(d, PkiPart(dirs, path), fates).disk, Saved(path, i))
  {
    CopyItemsFrame(d, PkiPart(dirs, path), fates);
    TheItems(dirs, path);
    PartsOfItems(dirs, path);
    forall e | e in PkiPart(dirs, path) ensures e.dst != Saved(path, i) {
      var j :| 0 <= j < LISTED && RestoreItems(dirs, path)[j] == e;
      SavedIsNotLive(dirs, path, i, j);
    }
  }

  lemma PkiPartDirs(dirs: Dirs, d: Disk, path: string, fates: seq<Fate>)
    requires CopyItems(d, PkiPart(dirs, path), fates).out == Ok
    ensures d.dirs + Made(dirs) <= CopyItems(d, PkiPart(dirs, path), fates).disk.dirs
  {
    var items := PkiPart(dirs, path);
    TheItems(dirs, path);
    MadeByItems(dirs, path);
    PartsOfItems(dirs, path);
    CopyItemsDirs(d, items, fates, Made(dirs));
    CopyItemsFrame(d, items, fates);
    forall dir | dir in Made(dirs) ensures dir in CopyItems(d, items, fates).disk.dirs {
      var i: nat :| i < 20 && dir in Ancestors(Dir(Live(dirs, i)), |Dir(Live(dirs, i))|);
      assert items[i] in items && items[i] == RestoreItems(dirs, path)[i];
    }
  }

  /** Interrupted restores create no other directories, and leave a file that has none alone. */
  lemma {:induction false} TriesKeepDirs(dirs: Dirs, d: Disk, path: string, scripts: seq<seq<Fate>>)
    ensures var r := RestoreTries(dirs, d, path, scripts);
      && d.dirs <= r.dirs <= d.dirs + Made(dirs)
      && forall i: nat :: 20 <= i < LISTED && !HasDir(dirs, d, i) ==> SameAt(d, r, Live(dirs, i))
    decreases |scripts|
  {
    if scripts != [] {
      var s := RestoreEffect(dirs, d, path, scripts[0]);
      RestoreDirs(dirs, d, path, scripts[0]);
      TriesKeepDirs(dirs, s.disk, path, scripts[1..]);
      forall i: nat | 20 <= i < LISTED && !HasDir(dirs, d, i)
        ensures SameAt(d, RestoreTries(dirs, d, path, scripts), Live(dirs, i))
      {
        KubeconfigStays(dirs, d, path, scripts[0], i);
        assert !HasDir(dirs, s.disk, i);
      }
    }
  }

  /** Restoring can be repeated: from every disk, any number of interrupted restores followed by a
      complete one leave the same files as one complete restore. */
  lemma RestoreIsResumable(dirs: Dirs, d: Disk, path: string, scripts: seq<seq<Fate>>, last: seq<Fate>, single: seq<Fate>)
    requires Separate(path, dirs.pki) && Separate(path, dirs.kubeconfig)
    requires RestoreEffect(dirs, RestoreTries(dirs, d, path, scripts), path, last).out == Ok
    requires RestoreEffect(dirs, d, path, single).out == Ok
    ensures RestoreEffect(dirs, RestoreTries(dirs, d, path, scripts), path, last).disk.files
         == RestoreEffect(dirs, d, path, single).disk.files
  {
    var mid := RestoreTries(dirs, d, path, scripts);
    var a, b := RestoreEffect(dirs, mid, path, last).disk, RestoreEffect(dirs, d, path, single).disk;
    TriesTouchOnlyLive(dirs, d, path, scripts);
    TriesKeepDirs(dirs, d, path, scripts);
    RestoreFrame(dirs, mid, path, last);
    RestoreFrame(dirs, d, path, single);
    forall p ensures SameAt(a, b, p) {
      if i: nat :| i < LISTED && p == Live(dirs, i) {
        SameRestored(dirs, d, mid, path, last, single, i);
      } else {
        assert !IsLive(dirs, p);
        assert SameAt(d, mid, p) && SameAt(mid, a, p) && SameAt(d, b, p);
      }
    }
    SameFiles(a, b);
  }

  lemma SameFiles(a: Disk, b: Disk)
    requires forall p :: SameAt(a, b, p)
    ensures a.files == b.files
  {
    forall p ensures p in a.files <==> p in b.files { assert SameAt(a, b, p); }
    forall p | p in a.files ensures a.files[p] == b.files[p] { assert SameAt(a, b, p); }
  }

  lemma SameRestored(dirs: Dirs, d: Disk, mid: Disk, path: string, last: seq<Fate>, single: seq<Fate>, i: nat)
    requires i < LISTED && Separate(path, dirs.pki) && Separate(path, dirs.kubeconfig)
    requires RestoreEffect(dirs, mid, path, last).out == Ok && RestoreEffect(dirs, d, path, single).out == Ok
    requires d.dirs <= mid.dirs <= d.dirs + Made(dirs) && SameAt(d, mid, Saved(path, i))
    requires Saved(path, i) !in d.files || (20 <= i && !HasDir(dirs, d, i)) ==> SameAt(d, mid, Live(dirs, i))
    ensures SameAt(RestoreEffect(dirs, mid, path, last).disk, RestoreEffect(dirs, d, path, single).disk, Live(dirs, i))
  {
    CompleteRestore(dirs, mid, path, last, i);
    CompleteRestore(dirs, d, path, single, i);
    assert HasDir(dirs, d, i) <==> HasDir(dirs, mid, i);
  }

  /** From a disk that holds a complete backup of `d0`, whatever became of the live files, any
      number of interrupted restores and a complete one bring back every listed file of `d0`. */
  lemma RestoreRecovers(dirs: Dirs, d: Disk, d0: Disk, path: string, scripts: seq<seq<Fate>>, last: seq<Fate>)
    requires Separate(path, dirs.pki) && Separate(path, dirs.kubeconfig)
    requires Holds(d, path, dirs, d0) && Sound(d0) && d0.dirs <= d.dirs
    requires RestoreEffect(dirs, RestoreTries(dirs, d, path, scripts), path, last).out == Ok
    ensures var r := RestoreEffect(dirs, RestoreTries(dirs, d, path, scripts), path, last).disk;
      forall i: nat :: i < LISTED ==>
        if Live(dirs, i) in d0.files
        then Live(dirs, i) in r.files && r.files[Live(dirs, i)] == d0.files[Live(dirs, i)]
        else SameAt(d, r, Live(dirs, i))
  {
    var mid := RestoreTries(dirs, d, path, scripts);
    var r := RestoreEffect(dirs, mid, path, last).disk;
    TriesTouchOnlyLive(dirs, d, path, scripts);
    RestoreGivesBack(dirs, mid, path, last);
    forall i: nat | i < LISTED
      ensures if Live(dirs, i) in d0.files
              then Live(dirs, i) in r.files && r.files[Live(dirs, i)] == d0.files[Live(dirs, i)]
              else SameAt(d, r, Live(dirs, i))
    {
      assert SameAt(d, mid, Saved(path, i));
      assert Delivered(mid, Item(Saved(path, i), Live(dirs, i), i < 20), r);
      if Live(dirs, i) in d0.files {
        assert Dir(Live(dirs, i)) in d0.dirs;
      }
    }
  }
}
