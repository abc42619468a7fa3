/** JSON values and JSON merge patches: the wire format in which every status update of the
    controller travels. `Apply` is what the API server does with a patch (section 2 of RFC 7396);
    `Diff` is the patch the client derives from the object before and after a change. */
module MergePatch {
  import opened Wrappers

  datatype Json =
    | Null
    | Bool(b: bool)
    | Num(n: int)
    | Str(s: string)
    | Arr(items: seq<Json>)
    | Obj(fields: map<string, Json>)

  /** Section 2 of RFC 7396: members that are null in the patch are removed, members that are
      objects are merged, everything else replaces. */
  function Apply(target: Json, patch: Json): Json
    decreases patch
  {
    if patch.Obj? then
      var own := if target.Obj? then target.fields else map[];
      Obj(map k | k in own.Keys + patch.fields.Keys && !(k in patch.fields && patch.fields[k].Null?) ::
            if k in patch.fields
            then Apply(if k in own then own[k] else Null, patch.fields[k])
            else own[k])
    else
      patch
  }

  /** The merge patch that turns `before` into `after`: members that agree are left out, members
      that disappear are null, two objects are compared member by member. */
  function Diff(before: Json, after: Json): Json
    requires before.Obj? && after.Obj?
    decreases after
  {
    var b, a := before.fields, after.fields;
    Obj(map k | k in b.Keys + a.Keys && !(k in b && k in a && b[k] == a[k]) ::
          if k !in a then Null
          else if k in b && b[k].Obj? && a[k].Obj? then Diff(b[k], a[k])
          else a[k])
  }

  /** No member of an object is null, at any depth that a patch can reach. RFC 7396 cannot
      express such members. */
  predicate NullFree(j: Json) {
    !j.Null? && (j.Obj? ==> forall k | k in j.fields :: NullFree(j.fields[k]))
  }

  function Get(j: Json, key: string): Option<Json> {
    if j.Obj? && key in j.fields then Some(j.fields[key]) else None
  }

  /** The value found by following `path` through nested objects. */
  function At(j: Json, path: seq<string>): Option<Json> {
    if path == [] then Some(j)
    else match Get(j, path[0])
      case None => None
      case Some(child) => At(child, path[1..])
  }

  /** Every value that `path` goes through before its last key is an object. */
  predicate Leads(j: Json, path: seq<string>) {
    path != [] ==> j.Obj? && (|path| > 1 ==> path[0] in j.fields && Leads(j.fields[path[0]], path[1..]))
  }

  /** What one patch does to a single place in the document: `here` is the server's value there,
      `before` and `after` are the client's. */
  function PatchAt(here: Option<Json>, before: Option<Json>, after: Option<Json>): Option<Json> {
    if before == after then here
    else if after.None? || after.value.Null? then None
    else
      var target := here.GetOr(Null);
      if before.Some? && before.value.Obj? && after.value.Obj?
      then Some(Apply(target, Diff(before.value, after.value)))
      else Some(Apply(target, after.value))
  }

  /** Setting a null-free value on something that is not an object gives exactly that value. */
  lemma {:induction false} ApplyToNothing(target: Json, value: Json)
    requires !target.Obj? && NullFree(value)
    ensures Apply(target, value) == value
    decreases value
  {
    if value.Obj? {
      forall k | k in value.fields ensures Apply(Null, value.fields[k]) == value.fields[k] {
        ApplyToNothing(Null, value.fields[k]);
      }
      assert Apply(target, value).fields == value.fields;
    }
  }

  /** Round trip: the server that holds what the client started from ends with what the client
      has. */
  lemma {:induction false} DiffThenApply(before: Json, after: Json)
    requires before.Obj? && after.Obj? && NullFree(after)
    ensures Apply(before, Diff(before, after)) == after
    decreases after
  {
    var b, a, r := before.fields, after.fields, Apply(before, Diff(before, after)).fields;
    forall k | k in a ensures k in r && r[k] == a[k] {
      if k in b && b[k] == a[k] {
      } else if k in b && b[k].Obj? && a[k].Obj? {
        DiffThenApply(b[k], a[k]);
      } else {
        ApplyToNonObject(if k in b then b[k] else Null, a[k]);
      }
    }
    assert r.Keys == a.Keys;
    assert r == a;
  }

  lemma ApplyToNonObject(target: Json, value: Json)
    requires NullFree(value) && !(target.Obj? && value.Obj?)
    ensures Apply(target, value) == value
  {
    if value.Obj? { ApplyToNothing(target, value); }
  }

  /** A whole value laid over the document reaches each place independently. */
  lemma {:induction false} ApplyReaches(doc: Json, value: Json, path: seq<string>)
    requires path != [] && Leads(value, path)
    ensures At(Apply(doc, value), path) == PatchAt(At(doc, path), None, At(value, path))
    decreases path
  {
    var k, rest := path[0], path[1..];
    if rest != [] {
      var child := Get(doc, k).GetOr(Null);
      ApplyReaches(child, value.fields[k], rest);
      assert At(Null, rest) == None;
    }
  }

  /** Locality: whatever the server holds elsewhere, and whatever the client believes about the
      rest of the document, the effect of a patch at one place depends on the three values at that
      place alone. */
  lemma {:induction false} PatchIsLocal(doc: Json, before: Json, after: Json, path: seq<string>)
    requires path != [] && doc.Obj? && before.Obj? && Leads(after, path)
    ensures At(Apply(doc, Diff(before, after)), path) == PatchAt(At(doc, path), At(before, path), At(after, path))
    decreases path
  {
    var k, rest := path[0], path[1..];
    var b, a := before.fields, after.fields;
    if rest != [] {
      var child := Get(doc, k).GetOr(Null);
      assert At(Null, rest) == None;
      if k in b && b[k] == a[k] {
      } else if k in b && b[k].Obj? {
        var child' := if child.Obj? then child else Obj(map[]);
        PatchIsLocal(child', b[k], a[k], rest);
        assert Apply(child, Diff(b[k], a[k])) == Apply(child', Diff(b[k], a[k]));
      } else {
        ApplyReaches(child, a[k], rest);
      }
    }
  }

  /** A client that read a place freshly leaves its own value there. */
  lemma FreshPatchStores(before: Option<Json>, after: Option<Json>)
    requires after.Some? ==> NullFree(after.value)
    requires before.Some? ==> !before.value.Null?
    ensures PatchAt(before, before, after) == after
  {
    if before != after && after.Some? {
      if before.Some? && before.value.Obj? && after.value.Obj? {
        DiffThenApply(before.value, after.value);
      } else {
        ApplyToNonObject(before.GetOr(Null), after.value);
      }
    }
  }
}
