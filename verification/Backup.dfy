/** Backing up and restoring the certificate and kubeconfig files of one node. */
module Backup {
  import opened Host

  const PKI_FILES: seq<string> := [
    "ca.crt", "ca.key",
    "apiserver.crt", "apiserver.key",
    "apiserver-etcd-client.crt", "apiserver-etcd-client.key",
    "apiserver-kubelet-client.crt", "apiserver-kubelet-client.key",
    "front-proxy-ca.crt", "front-proxy-ca.key",
    "front-proxy-client.crt", "front-proxy-client.key",
    "etcd/ca.crt", "etcd/ca.key",
    "etcd/server.crt", "etcd/server.key",
    "etcd/peer.crt", "etcd/peer.key",
    "etcd/healthcheck-client.crt", "etcd/healthcheck-client.key"]

  const KUBECONFIG_FILES: seq<string> := ["admin.conf", "controller-manager.conf", "scheduler.conf", "super-admin.conf"]

  /** One file of a table: where it is read, where it is written, and whether the directory of the
      destination is created first. */
  datatype Item = Item(src: string, dst: string, mkdir: bool)

  datatype Dirs = Dirs(backup: string, pki: string, kubeconfig: string)

  function BackupPath(dirs: Dirs, node: string, stamp: string): string {
    Join(Join(dirs.backup, node), stamp)
  }

  function PkiItems(from: string, to: string, names: seq<string>, mkdir: bool): (items: seq<Item>)
    ensures |items| == |names|
    ensures forall i :: 0 <= i < |names| ==> items[i] == Item(Join(from, names[i]), Join(to, names[i]), mkdir)
  {
    seq(|names|, i requires 0 <= i < |names| => Item(Join(from, names[i]), Join(to, names[i]), mkdir))
  }

  function CreateItems(dirs: Dirs, path: string): seq<Item> {
    PkiItems(dirs.pki, Join(path, "pki"), PKI_FILES, true)
    + PkiItems(dirs.kubeconfig, Join(path, "kubeconfigs"), KUBECONFIG_FILES, false)
  }

  function RestoreItems(dirs: Dirs, path: string): seq<Item> {
    PkiItems(Join(path, "pki"), dirs.pki, PKI_FILES, true)
    + PkiItems(Join(path, "kubeconfigs"), dirs.kubeconfig, KUBECONFIG_FILES, false)
  }

  function CopyItem(d: Disk, e: Item, fates: seq<Fate>): Step {
    var s := if e.mkdir then MkdirAll(d, Dir(e.dst), fates) else Step(d, fates, Ok);
    if s.out != Ok then s else CopyFile(s.disk, e.src, e.dst, s.fates)
  }

  /** The copy loop: missing sources are skipped, any other error ends it. */
  function CopyItems(d: Disk, items: seq<Item>, fates: seq<Fate>): Step
    decreases |items|
  {
    if items == [] then Step(d, fates, Ok)
    else
      var s := CopyItem(d, items[0], fates);
      if s.out == Ok || s.out == NotExist then CopyItems(s.disk, items[1..], s.fates) else s
  }

  function CreateEffect(dirs: Dirs, d: Disk, path: string, fates: seq<Fate>): Step {
    var s := MkdirAll(d, Join(path, "pki"), fates);
    if s.out != Ok then s
    else
      var t := MkdirAll(s.disk, Join(path, "kubeconfigs"), s.fates);
      if t.out != Ok then t else CopyItems(t.disk, CreateItems(dirs, path), t.fates)
  }

  function RestoreEffect(dirs: Dirs, d: Disk, path: string, fates: seq<Fate>): Step {
    CopyItems(d, RestoreItems(dirs, path), fates)
  }

  class Manager {
    const dirs: Dirs

    constructor (dirs: Dirs)
      ensures this.dirs == dirs
    {
      this.dirs := dirs;
    }

    method CopyAll(m: Machine, items: seq<Item>) returns (out: Outcome)
      modifies m
      ensures m.Reached(CopyItems(old(m.Now()), items, old(m.fates))) && out == CopyItems(old(m.Now()), items, old(m.fates)).out
    {
      ghost var whole := CopyItems(m.Now(), items, m.fates);
      for i := 0 to |items|
        invariant CopyItems(m.Now(), items[i..], m.fates) == whole
      {
        var e := items[i];
        assert items[i..][0] == e && items[i..][1..] == items[i + 1..];
        out := Ok;
        if e.mkdir {
          out := m.Mkdir(Dir(e.dst));
          if out != Ok {
            return;
          }
        }
        out := m.Copy(e.src, e.dst);
        if out != Ok && out != NotExist {
          return;
        }
      }
      out := Ok;
    }

    method Create(m: Machine, node: string, stamp: string) returns (path: string, out: Outcome)
      modifies m
      ensures path == BackupPath(dirs, node, stamp)
      ensures m.Reached(CreateEffect(dirs, old(m.Now()), path, old(m.fates)))
      ensures out == CreateEffect(dirs, old(m.Now()), path, old(m.fates)).out
    {
      path := BackupPath(dirs, node, stamp);
      out := m.Mkdir(Join(path, "pki"));
      if out == Ok {
        out := m.Mkdir(Join(path, "kubeconfigs"));
      }
      if out == Ok {
        out := CopyAll(m, CreateItems(dirs, path));
      }
    }

    method Restore(m: Machine, path: string) returns (out: Outcome)
      modifies m
      ensures m.Reached(RestoreEffect(dirs, old(m.Now()), path, old(m.fates)))
      ensures out == RestoreEffect(dirs, old(m.Now()), path, old(m.fates)).out
    {
      out := CopyAll(m, RestoreItems(dirs, path));
    }
  }
}
