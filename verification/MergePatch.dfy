/** JSON merge patch (section 2 of RFC 7396) and the diff that `client.MergeFrom` sends. */
module MergePatch {
  import opened Kube

  datatype Json = Null | Bool(b: bool) | Num(n: int) | Str(s: string) | Arr(items: seq<Json>) | Obj(fields: map<string, Json>)

  /** What a patch finds under a name: anything but an object counts as an empty one. */
  function Fields(j: Json): map<string, Json> {
    if j.Obj? then j.fields else map[]
  }

  function Field(j: Json, name: string): Json {
    if name in Fields(j) then Fields(j)[name] else Null
  }

  function Apply(target: Json, patch: Json): Json
    decreases patch
  {
    if !patch.Obj? then patch
    else
      Obj(map k | k in Fields(target).Keys + patch.fields.Keys && !(k in patch.fields && patch.fields[k].Null?) ::
            if k in patch.fields then Apply(Field(target, k), patch.fields[k]) else Fields(target)[k])
  }

  predicate Changed(original: Json, modified: Json, k: string) {
    !(k in Fields(original) && k in Fields(modified) && Fields(original)[k] == Fields(modified)[k])
  }

  /** Changed names only; a removed name is null and objects are compared name by name. */
  function Diff(original: Json, modified: Json): (patch: Json)
    requires original.Obj? && modified.Obj?
    ensures patch.Obj?
    decreases original
  {
    Obj(map k | k in original.fields.Keys + modified.fields.Keys && Changed(original, modified, k) ::
          if k !in modified.fields then Null
          else if k in original.fields && original.fields[k].Obj? && modified.fields[k].Obj?
          then Diff(original.fields[k], modified.fields[k])
          else modified.fields[k])
  }

  /** The diff is empty exactly when there is nothing to say. */
  lemma DiffIsEmpty(original: Json, modified: Json)
    requires original.Obj? && modified.Obj?
    ensures Diff(original, modified).fields == map[] <==> original == modified
  {
    var patch := Diff(original, modified);
    if patch.fields == map[] {
      assert forall k :: k in original.fields.Keys + modified.fields.Keys && Changed(original, modified, k) ==> k in patch.fields;
      assert original.fields.Keys == modified.fields.Keys;
      assert original.fields == modified.fields;
    }
  }

  // ---------------------------------------------------------------- applying a diff

  /** No null anywhere under names; arrays are opaque to a merge patch. */
  predicate NullFree(j: Json) {
    j.Obj? ==> forall k :: k in j.fields ==> !j.fields[k].Null? && NullFree(j.fields[k])
  }

  /** A null that is to be kept must be there already, since a patch can only spell it as a removal. */
  predicate Representable(original: Json, modified: Json)
    decreases modified
  {
    modified.Obj? ==>
      forall k :: k in modified.fields ==>
        match modified.fields[k]
        case Null => k in Fields(original) && Fields(original)[k].Null?
        case Obj(_) =>
          if Field(original, k).Obj? then Representable(Field(original, k), modified.fields[k]) else NullFree(modified.fields[k])
        case _ => true
  }

  lemma {:induction false} ApplyToNothing(target: Json, patch: Json)
    requires !target.Obj?
    ensures Apply(target, patch) == patch <==> NullFree(patch)
    decreases patch
  {
    if patch.Obj? {
      forall k | k in patch.fields
        ensures Apply(Null, patch.fields[k]) == patch.fields[k] <==> NullFree(patch.fields[k])
      {
        ApplyToNothing(Null, patch.fields[k]);
      }
      var applied := Apply(target, patch);
      if applied == patch {
        forall k | k in patch.fields
          ensures !patch.fields[k].Null? && NullFree(patch.fields[k])
        {
          assert k in applied.fields;
        }
      }
      if NullFree(patch) {
        assert applied.fields == patch.fields;
      }
    }
  }

  /** One name of the applied diff is right exactly when it is representable. */
  lemma {:induction false} DiffAppliesAt(original: Json, modified: Json, k: string)
    requires original.Obj? && modified.Obj? && k in modified.fields
    ensures var applied := Apply(original, Diff(original, modified));
            k in applied.fields && applied.fields[k] == modified.fields[k] <==>
            match modified.fields[k]
            case Null => k in original.fields && original.fields[k].Null?
            case Obj(_) =>
              if Field(original, k).Obj? then Representable(Field(original, k), modified.fields[k]) else NullFree(modified.fields[k])
            case _ => true
    decreases modified, 0
  {
    if Field(original, k).Obj? && modified.fields[k].Obj? {
      DiffApplies(original.fields[k], modified.fields[k]);
      if !Changed(original, modified, k) {
        var same := original.fields[k];
        DiffIsEmpty(same, same);
        assert Apply(same, Diff(same, same)).fields == same.fields;
      }
    } else if modified.fields[k].Obj? {
      ApplyToNothing(Field(original, k), modified.fields[k]);
    }
  }

  /** Applying the diff gives the modified object, exactly when its nulls are representable. */
  lemma {:induction false} DiffApplies(original: Json, modified: Json)
    requires original.Obj? && modified.Obj?
    ensures Apply(original, Diff(original, modified)) == modified <==> Representable(original, modified)
    decreases modified, 1
  {
    var applied := Apply(original, Diff(original, modified));
    forall k | k in modified.fields
      ensures k in applied.fields && applied.fields[k] == modified.fields[k] <==>
              match modified.fields[k]
              case Null => k in original.fields && original.fields[k].Null?
              case Obj(_) =>
                if Field(original, k).Obj? then Representable(Field(original, k), modified.fields[k]) else NullFree(modified.fields[k])
              case _ => true
    {
      DiffAppliesAt(original, modified, k);
    }
    assert forall k :: k in applied.fields ==> k in modified.fields;
    if Representable(original, modified) {
      assert applied.fields == modified.fields;
    }
  }

  lemma {:induction false} NullFreeIsRepresentable(original: Json, modified: Json)
    requires NullFree(modified)
    ensures Representable(original, modified)
    decreases modified
  {
    if modified.Obj? {
      forall k | k in modified.fields && modified.fields[k].Obj? && Field(original, k).Obj?
        ensures Representable(Field(original, k), modified.fields[k])
      {
        NullFreeIsRepresentable(Field(original, k), modified.fields[k]);
      }
    }
  }

  // ---------------------------------------------------------------- patches commute

  /** Two patches that nowhere write different values under the same names. */
  predicate Compatible(p: Json, q: Json)
    decreases p
  {
    || p == q
    || (p.Obj? && q.Obj? && forall k :: k in p.fields && k in q.fields ==> Compatible(p.fields[k], q.fields[k]))
  }

  /** What is under one name after a patch; None when the name is gone. */
  function AppliedAt(target: Json, patch: Json, k: string): Option<Json>
    requires patch.Obj?
  {
    if k in patch.fields then if patch.fields[k].Null? then None else Some(Apply(Field(target, k), patch.fields[k]))
    else if k in Fields(target) then Some(Fields(target)[k])
    else None
  }

  lemma ApplyByName(target: Json, patch: Json, k: string)
    requires patch.Obj?
    ensures var applied := Apply(target, patch);
            applied.Obj? && AppliedAt(target, patch, k) == if k in applied.fields then Some(applied.fields[k]) else None
  {
  }

  lemma {:induction false} PatchesCommute(target: Json, p: Json, q: Json)
    requires Compatible(p, q)
    ensures Apply(Apply(target, p), q) == Apply(Apply(target, q), p)
    decreases p
  {
    if p != q {
      var pq, qp := Apply(Apply(target, p), q), Apply(Apply(target, q), p);
      forall k
        ensures k in pq.fields <==> k in qp.fields
        ensures k in pq.fields ==> pq.fields[k] == qp.fields[k]
      {
        ApplyByName(target, p, k);
        ApplyByName(target, q, k);
        ApplyByName(Apply(target, p), q, k);
        ApplyByName(Apply(target, q), p, k);
        if k in p.fields && k in q.fields {
          PatchesCommute(Field(target, k), p.fields[k], q.fields[k]);
        }
      }
      assert pq.fields == qp.fields;
    }
  }

  // ---------------------------------------------------------------- one value at a path

  function Get(doc: Json, path: seq<string>): Option<Json> {
    if path == [] then Some(doc)
    else if path[0] in Fields(doc) then Get(Fields(doc)[path[0]], path[1..])
    else None
  }

  lemma {:induction false} GetFurther(doc: Json, path: seq<string>, more: seq<string>)
    requires Get(doc, path).Some?
    ensures Get(doc, path + more) == Get(Get(doc, path).value, more)
    decreases path
  {
    if path == [] {
      assert path + more == more;
    } else {
      assert (path + more)[1..] == path[1..] + more;
      GetFurther(Fields(doc)[path[0]], path[1..], more);
    }
  }

  /** Writes a value, making the objects on the way to it. */
  function Set(doc: Json, path: seq<string>, value: Json): Json
    decreases path
  {
    if path == [] then value
    else Obj(Fields(doc)[path[0] := Set(Field(doc, path[0]), path[1..], value)])
  }

  lemma {:induction false} SetThenGet(doc: Json, path: seq<string>, value: Json)
    ensures Get(Set(doc, path, value), path) == Some(value)
    decreases path
  {
    if path != [] {
      SetThenGet(Field(doc, path[0]), path[1..], value);
    }
  }

  predicate Diverge(p: seq<string>, q: seq<string>) {
    p != [] && q != [] && (p[0] != q[0] || Diverge(p[1..], q[1..]))
  }

  lemma {:induction false} SetElsewhere(doc: Json, path: seq<string>, value: Json, other: seq<string>)
    requires Diverge(path, other)
    ensures Get(Set(doc, path, value), other) == Get(doc, other)
    decreases path
  {
    if path[0] == other[0] {
      SetElsewhere(Field(doc, path[0]), path[1..], value, other[1..]);
      if path[0] !in Fields(doc) {
        GetInNothing(Null, other[1..]);
      }
    }
  }

  lemma GetInNothing(doc: Json, path: seq<string>)
    requires !doc.Obj?
    ensures path != [] ==> Get(doc, path) == None
  {
  }

  lemma {:induction false} SetSame(doc: Json, path: seq<string>, value: Json)
    requires Get(doc, path) == Some(value)
    ensures Set(doc, path, value) == doc
  {
    if path != [] {
      SetSame(Fields(doc)[path[0]], path[1..], value);
    }
  }

  /** The part of a diff that belongs to one name. */
  function ValuePatch(read: Json, modified: Json): Json {
    if read.Obj? && modified.Obj? then Diff(read, modified) else modified
  }

  /** The value was not stale, or it is a scalar that the read did not have yet. */
  predicate Timely(read: Json, now: Json, path: seq<string>, value: Json) {
    Get(read, path) == Get(now, path) || (!value.Obj? && Get(read, path) != Some(value))
  }

  lemma {:induction false} StaleValuePatch(read: Json, now: Json, path: seq<string>, value: Json)
    requires Timely(read, now, path, value)
    requires !value.Null? && NullFree(value)
    ensures Apply(now, ValuePatch(read, Set(read, path, value))) == Set(now, path, value)
    decreases path
  {
    if path == [] {
      if read.Obj? && value.Obj? {
        NullFreeIsRepresentable(read, value);
        DiffApplies(read, value);
      } else if value.Obj? {
        ApplyToNothing(now, value);
      }
    } else {
      StaleStep(read, now, path, value);
    }
  }

  lemma ApplyOneName(now: Json, k: string, patch: Json)
    requires !patch.Null?
    ensures Apply(now, Obj(map[k := patch])) == Obj(Fields(now)[k := Apply(Field(now, k), patch)])
  {
  }

  lemma PatchOfSet(read: Json, path: seq<string>, value: Json)
    requires path != [] && !value.Null?
    ensures var sub := Set(Field(read, path[0]), path[1..], value);
            !ValuePatch(Field(read, path[0]), sub).Null? &&
            ValuePatch(read, Set(read, path, value)) ==
            if path[0] in Fields(read) && Fields(read)[path[0]] == sub then Obj(map[])
            else Obj(map[path[0] := ValuePatch(Field(read, path[0]), sub)])
  {
  }

  lemma {:induction false} StaleStep(read: Json, now: Json, path: seq<string>, value: Json)
    requires path != [] && Timely(read, now, path, value)
    requires !value.Null? && NullFree(value)
    ensures Apply(now, ValuePatch(read, Set(read, path, value))) == Set(now, path, value)
    decreases path, 0
  {
    var k, rest := path[0], path[1..];
    var sub := Set(Field(read, k), rest, value);
    PatchOfSet(read, path, value);
    if k in Fields(read) && Fields(read)[k] == sub {
      SetThenGet(Field(read, k), rest, value);
      SetSame(now, path, value);
      assert Apply(now, Obj(map[])).fields == Fields(now);
    } else {
      StaleValuePatch(Field(read, k), Field(now, k), rest, value);
      ApplyOneName(now, k, ValuePatch(Field(read, k), sub));
    }
  }

  /**
   * A patch made from a stale read still writes its one value and nothing else, as long as that value was timely:
   * whatever else has changed since the read is kept.
   */
  lemma StalePatchIsExact(read: Json, now: Json, path: seq<string>, value: Json)
    requires read.Obj? && now.Obj? && path != []
    requires Timely(read, now, path, value)
    requires !value.Null? && NullFree(value)
    ensures Apply(now, Diff(read, Set(read, path, value))) == Set(now, path, value)
    ensures forall other :: Diverge(path, other) ==> Get(Set(now, path, value), other) == Get(now, other)
  {
    StaleValuePatch(read, now, path, value);
    forall other | Diverge(path, other)
      ensures Get(Set(now, path, value), other) == Get(now, other)
    {
      SetElsewhere(now, path, value, other);
    }
  }

  // ---------------------------------------------------------------- a diff carried over to another object

  function Under(j: Json, k: string): Option<Json> {
    if k in Fields(j) then Some(Fields(j)[k]) else None
  }

  predicate Objects(x: Option<Json>, y: Option<Json>) {
    x.Some? && y.Some? && x.value.Obj? && y.value.Obj?
  }

  /**
   * `now` agrees with the original wherever the modification goes, however deep that is: at a value that is replaced,
   * added or removed it is the same, and on the way there it has an object too. Elsewhere it can be anything.
   */
  ghost predicate Unmoved(original: Json, modified: Json, now: Json) {
    forall path :: Get(original, path) != Get(modified, path) ==>
      if Objects(Get(original, path), Get(modified, path)) then Get(now, path).Some? && Get(now, path).value.Obj?
      else Get(now, path) == Get(original, path)
  }

  lemma GetUnder(j: Json, k: string, path: seq<string>)
    ensures Get(j, [k] + path) == if k in Fields(j) then Get(Fields(j)[k], path) else None
  {
  }

  lemma UnmovedUnder(original: Json, modified: Json, now: Json, k: string)
    requires Unmoved(original, modified, now)
    requires k in Fields(original) && k in Fields(modified) && k in Fields(now)
    ensures Unmoved(Fields(original)[k], Fields(modified)[k], Fields(now)[k])
  {
    var from, to, at := Fields(original)[k], Fields(modified)[k], Fields(now)[k];
    forall path | Get(from, path) != Get(to, path)
      ensures if Objects(Get(from, path), Get(to, path)) then Get(at, path).Some? && Get(at, path).value.Obj?
              else Get(at, path) == Get(from, path)
    {
      GetUnder(original, k, path);
      GetUnder(modified, k, path);
      GetUnder(now, k, path);
    }
  }

  /**
   * The diff is a three-way merge. Applied to what the object has become, it gives the modified value at every path
   * where original and modified differ, and leaves the rest as it has become.
   */
  lemma {:induction false} DiffTransplants(original: Json, modified: Json, now: Json, path: seq<string>)
    requires original.Obj? && modified.Obj? && now.Obj? && Representable(original, modified)
    requires Unmoved(original, modified, now)
    ensures var applied := Apply(now, Diff(original, modified));
            && (Get(original, path) == Get(modified, path) ==> Get(applied, path) == Get(now, path))
            && (Get(original, path) != Get(modified, path) && !Objects(Get(original, path), Get(modified, path)) ==>
                  Get(applied, path) == Get(modified, path))
    decreases path
  {
    var patch := Diff(original, modified);
    if path == [] {
      if original == modified {
        DiffIsEmpty(original, modified);
        assert Apply(now, patch).fields == now.fields;
      }
    } else {
      var k := path[0];
      DiffApplies(original, modified);
      ApplyByName(now, patch, k);
      ApplyByName(original, patch, k);
      GetUnder(original, k, []);
      GetUnder(modified, k, []);
      GetUnder(now, k, []);
      if Under(original, k) != Under(modified, k) && Objects(Under(original, k), Under(modified, k)) {
        UnmovedUnder(original, modified, now, k);
        DiffTransplants(original.fields[k], modified.fields[k], now.fields[k], path[1..]);
      }
    }
  }

  // ---------------------------------------------------------------- patches of different paths commute

  /** Values set at diverging paths make compatible patches, whichever objects each was set in. */
  lemma {:induction false} DivergentPatchesAreCompatible(read: Json, path: seq<string>, value: Json,
                                                         read': Json, path': seq<string>, value': Json)
    requires Diverge(path, path') && !value.Null? && !value'.Null?
    ensures Compatible(ValuePatch(read, Set(read, path, value)), ValuePatch(read', Set(read', path', value')))
    decreases path
  {
    PatchOfSet(read, path, value);
    PatchOfSet(read', path', value');
    if path[0] == path'[0] {
      DivergentPatchesAreCompatible(Field(read, path[0]), path[1..], value, Field(read', path[0]), path'[1..], value');
    }
  }

  /** Two writers that read at different times and set values at diverging paths: the order of their patches is no matter. */
  lemma DivergentPatchesCommute(target: Json, read: Json, path: seq<string>, value: Json,
                                read': Json, path': seq<string>, value': Json)
    requires read.Obj? && read'.Obj? && Diverge(path, path') && !value.Null? && !value'.Null?
    ensures var p, q := Diff(read, Set(read, path, value)), Diff(read', Set(read', path', value'));
            Apply(Apply(target, p), q) == Apply(Apply(target, q), p)
  {
    DivergentPatchesAreCompatible(read, path, value, read', path', value');
    PatchesCommute(target, Diff(read, Set(read, path, value)), Diff(read', Set(read', path', value')));
  }
}
