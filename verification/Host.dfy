/** The node's file tree and the outside world's answers. Every call that leaves the program takes
    the next entry of a script of fates; a program whose script has run out has died. Quantifying
    over scripts is quantifying over every combination of failures and every crash point. */
module Host {

  newtype Byte = x: int | 0 <= x < 256
  type Bytes = seq<Byte>

  datatype Fate =
    | Done                 // the call succeeds
    | Refused              // the call fails before it changes anything
    | Partial(n: nat)      // it fails after n bytes, or after the change but before the answer
    | Killed(n: nat)       // the process dies there

  datatype Outcome = Ok | NotExist | Err | Crash | Panic

  datatype Disk = Disk(files: map<string, Bytes>, dirs: set<string>)

  datatype Step = Step(disk: Disk, fates: seq<Fate>, out: Outcome)

  datatype ReadStep = ReadStep(bytes: Bytes, fates: seq<Fate>, out: Outcome)

  function Join(dir: string, rel: string): string {
    dir + "/" + rel
  }

  /** `filepath.Dir`: everything before the last slash. */
  function Dir(path: string): string {
    if path == "" then ""
    else if path[|path| - 1] == '/' then path[..|path| - 1]
    else Dir(path[..|path| - 1])
  }

  /** The directories `MkdirAll(path)` leaves in place, as far as the first n characters. */
  function Ancestors(path: string, n: nat): set<string> {
    set i | 0 <= i <= |path| && i <= n && (i == |path| || path[i] == '/') :: path[..i]
  }

  function Take(n: nat, data: Bytes): Bytes {
    if n < |data| then data[..n] else data
  }

  function Put(d: Disk, path: string, data: Bytes): Disk {
    d.(files := d.files[path := data])
  }

  /** Every file lives in a directory. */
  predicate Sound(d: Disk) {
    forall p :: p in d.files ==> Dir(p) in d.dirs
  }

  function MkdirAll(d: Disk, path: string, fates: seq<Fate>): Step {
    if fates == [] then Step(d, [], Crash)
    else match fates[0]
      case Done => Step(d.(dirs := d.dirs + Ancestors(path, |path|)), fates[1..], Ok)
      case Refused => Step(d, fates[1..], Err)
      case Partial(n) => Step(d.(dirs := d.dirs + Ancestors(path, n)), fates[1..], Err)
      case Killed(n) => Step(d.(dirs := d.dirs + Ancestors(path, n)), [], Crash)
  }

  /** `os.WriteFile`: open with truncation, then write. */
  function WriteFile(d: Disk, path: string, data: Bytes, fates: seq<Fate>): Step {
    if fates == [] then Step(d, [], Crash)
    else if fates[0].Refused? then Step(d, fates[1..], Err)
    else if Dir(path) !in d.dirs then Step(d, if fates[0].Killed? then [] else fates[1..], if fates[0].Killed? then Crash else NotExist)
    else match fates[0]
      case Partial(n) => Step(Put(d, path, Take(n, data)), fates[1..], Err)
      case Killed(n) => Step(Put(d, path, Take(n, data)), [], Crash)
      case _ => Step(Put(d, path, data), fates[1..], Ok)
  }

  function ReadFile(d: Disk, path: string, fates: seq<Fate>): ReadStep {
    if fates == [] then ReadStep([], [], Crash)
    else match fates[0]
      case Done =>
        if path in d.files then ReadStep(d.files[path], fates[1..], Ok) else ReadStep([], fates[1..], NotExist)
      case Killed(_) => ReadStep([], [], Crash)
      case _ => ReadStep([], fates[1..], Err)
  }

  /** `copyFile`: a missing source, or a missing directory for the destination, is the error that
      satisfies `os.IsNotExist`. */
  function CopyFile(d: Disk, src: string, dst: string, fates: seq<Fate>): Step {
    if fates == [] then Step(d, [], Crash)
    else if fates[0].Refused? then Step(d, fates[1..], Err)
    else if src !in d.files then Step(d, if fates[0].Killed? then [] else fates[1..], if fates[0].Killed? then Crash else NotExist)
    else WriteFile(d, dst, d.files[src], fates)
  }

  /** A call without effect on the files: a patch, a probe, a key generation. */
  function Ask(fates: seq<Fate>): (r: (Outcome, seq<Fate>))
    ensures |r.1| <= |fates|
  {
    if fates == [] then (Crash, [])
    else match fates[0]
      case Done => (Ok, fates[1..])
      case Killed(_) => (Crash, [])
      case _ => (Err, fates[1..])
  }

  /** The next call is answered well. */
  predicate Passes(fates: seq<Fate>) {
    fates != [] && fates[0].Done?
  }

  /** The machine itself. */
  class Machine {
    var files: map<string, Bytes>
    var dirs: set<string>
    var fates: seq<Fate>

    constructor (d: Disk, script: seq<Fate>)
      ensures Now() == d && fates == script
    {
      files, dirs, fates := d.files, d.dirs, script;
    }

    function Now(): Disk
      reads this
    {
      Disk(files, dirs)
    }

    ghost predicate Reached(s: Step)
      reads this
    {
      Now() == s.disk && fates == s.fates
    }

    method Mkdir(path: string) returns (out: Outcome)
      modifies this
      ensures Reached(MkdirAll(old(Now()), path, old(fates))) && out == MkdirAll(old(Now()), path, old(fates)).out
    {
      if fates == [] {
        return Crash;
      }
      var fate := fates[0];
      fates := fates[1..];
      match fate {
        case Done =>
          dirs := dirs + Ancestors(path, |path|);
          out := Ok;
        case Refused =>
          out := Err;
        case Partial(n) =>
          dirs := dirs + Ancestors(path, n);
          out := Err;
        case Killed(n) =>
          dirs := dirs + Ancestors(path, n);
          fates := [];
          out := Crash;
      }
    }

    method Write(path: string, data: Bytes) returns (out: Outcome)
      modifies this
      ensures Reached(WriteFile(old(Now()), path, data, old(fates))) && out == WriteFile(old(Now()), path, data, old(fates)).out
    {
      if fates == [] {
        return Crash;
      }
      var fate := fates[0];
      fates := if fate.Killed? then [] else fates[1..];
      if fate.Refused? {
        return Err;
      }
      if Dir(path) !in dirs {
        return if fate.Killed? then Crash else NotExist;
      }
      files := files[path := []];
      if fate.Partial? {
        files := files[path := Take(fate.n, data)];
        out := Err;
      } else if fate.Killed? {
        files := files[path := Take(fate.n, data)];
        out := Crash;
      } else {
        files := files[path := data];
        out := Ok;
      }
    }

    method Read(path: string) returns (bytes: Bytes, out: Outcome)
      modifies this`fates
      ensures ReadStep(bytes, fates, out) == ReadFile(old(Now()), path, old(fates))
    {
      bytes := [];
      if fates == [] {
        return bytes, Crash;
      }
      var fate := fates[0];
      fates := if fate.Killed? then [] else fates[1..];
      match fate {
        case Done =>
          if path in files {
            return files[path], Ok;
          }
          out := NotExist;
        case Killed(_) =>
          out := Crash;
        case _ =>
          out := Err;
      }
    }

    method Copy(src: string, dst: string) returns (out: Outcome)
      modifies this
      ensures Reached(CopyFile(old(Now()), src, dst, old(fates))) && out == CopyFile(old(Now()), src, dst, old(fates)).out
    {
      if fates != [] && !fates[0].Refused? && src !in files {
        var fate := fates[0];
        fates := if fate.Killed? then [] else fates[1..];
        return if fate.Killed? then Crash else NotExist;
      }
      var data := if src in files then files[src] else [];
      out := Write(dst, data);
    }

    method Call() returns (out: Outcome)
      modifies this`fates
      ensures (out, fates) == Ask(old(fates))
    {
      if fates == [] {
        return Crash;
      }
      var fate := fates[0];
      fates := if fate.Killed? then [] else fates[1..];
      out := if fate.Done? then Ok else if fate.Killed? then Crash else Err;
    }
  }
}
