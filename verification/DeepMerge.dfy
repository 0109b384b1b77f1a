/** The overlay merge of derived workflows (pkg/workflow/engine/loader/derive.go), as a
    function on JSON values. The module JsonHeap proves the in-memory code against it. */
module DeepMerge {
  import opened Json

  function Merge(base: Fields, overlay: Fields): Fields
    decreases Obj(overlay)
  {
    map k | k in base.Keys + overlay.Keys && !(k in overlay && overlay[k].Null?) ::
      if k !in overlay then base[k]
      else if overlay[k].Obj? && k in base && base[k].Obj? then
        Obj(Merge(base[k].fields, overlay[k].fields))
      else overlay[k]
  }

  /** MergePatch of section 2 of RFC 7396; an absent target member is passed as Null. */
  function MergePatch(target: Json, patch: Json): Json
    decreases patch
  {
    if !patch.Obj? then patch else
    var prior: Fields := if target.Obj? then target.fields else map[];
    Obj(map k | k in prior.Keys + patch.fields.Keys && !(k in patch.fields && patch.fields[k].Null?) ::
          if k !in patch.fields then prior[k]
          else MergePatch(if k in prior then prior[k] else Null, patch.fields[k]))
  }

  /** Every overlay object that does not meet an object in the base is null-free. */
  predicate NoKeptNull(base: Fields, overlay: Fields)
    decreases Obj(overlay)
  {
    forall k | k in overlay && overlay[k].Obj? ::
      if k in base && base[k].Obj? then NoKeptNull(base[k].fields, overlay[k].fields)
      else NullFree(overlay[k])
  }

  lemma {:induction false} PatchOfNonObject(target: Json, patch: Json)
    requires !target.Obj?
    ensures MergePatch(target, patch) == patch <==> NullFree(patch)
    decreases patch
  {
    if patch.Obj? {
      forall k | k in patch.fields
        ensures MergePatch(Null, patch.fields[k]) == patch.fields[k] <==> NullFree(patch.fields[k])
      {
        PatchOfNonObject(Null, patch.fields[k]);
      }
      var r := MergePatch(target, patch).fields;
      if NullFree(patch) {
        assert r == patch.fields;
      } else {
        var k :| k in patch.fields && (patch.fields[k].Null? || !NullFree(patch.fields[k]));
        assert !patch.fields[k].Null? ==> r[k] != patch.fields[k];
      }
    }
  }

  /** The loader's merge is RFC 7396's exactly when no null is left to be copied in. */
  lemma {:induction false} MergeIsMergePatch(base: Fields, overlay: Fields)
    ensures Obj(Merge(base, overlay)) == MergePatch(Obj(base), Obj(overlay)) <==> NoKeptNull(base, overlay)
    decreases Obj(overlay)
  {
    var l, r := Merge(base, overlay), MergePatch(Obj(base), Obj(overlay)).fields;
    assert l.Keys == r.Keys;
    forall k | k in overlay && overlay[k].Obj?
      ensures k in l && k in r
      ensures l[k] == r[k] <==>
              if k in base && base[k].Obj? then NoKeptNull(base[k].fields, overlay[k].fields)
              else NullFree(overlay[k])
    {
      if k in base && base[k].Obj? {
        MergeIsMergePatch(base[k].fields, overlay[k].fields);
      } else {
        PatchOfNonObject(if k in base then base[k] else Null, overlay[k]);
      }
    }
    if NoKeptNull(base, overlay) {
      forall k | k in l ensures l[k] == r[k] {
        if k in overlay && !overlay[k].Obj? {
          assert MergePatch(if k in base then base[k] else Null, overlay[k]) == overlay[k];
        }
      }
      assert l == r;
    }
  }

  lemma {:induction false} MergeWithItself(m: Fields)
    ensures Merge(m, m) == m <==> NullFree(Obj(m))
    decreases Obj(m)
  {
    var r := Merge(m, m);
    forall k | k in m && m[k].Obj?
      ensures k in r && (r[k] == m[k] <==> NullFree(m[k]))
    {
      MergeWithItself(m[k].fields);
    }
    if NullFree(Obj(m)) {
      assert r == m;
    }
  }

  /** Applying the same overlay twice changes nothing, exactly under the same condition. */
  lemma {:induction false} MergeIdempotent(base: Fields, overlay: Fields)
    ensures Merge(Merge(base, overlay), overlay) == Merge(base, overlay) <==> NoKeptNull(base, overlay)
    decreases Obj(overlay)
  {
    var once := Merge(base, overlay);
    var twice := Merge(once, overlay);
    assert twice.Keys == once.Keys;
    forall k | k in overlay && overlay[k].Obj?
      ensures k in once && k in twice
      ensures twice[k] == once[k] <==>
              if k in base && base[k].Obj? then NoKeptNull(base[k].fields, overlay[k].fields)
              else NullFree(overlay[k])
    {
      if k in base && base[k].Obj? {
        MergeIdempotent(base[k].fields, overlay[k].fields);
      } else {
        MergeWithItself(overlay[k].fields);
      }
    }
    if NoKeptNull(base, overlay) {
      assert twice == once;
    }
  }

  /** A null-free overlay meets the condition against every base. */
  lemma {:induction false} NullFreeOverlay(base: Fields, overlay: Fields)
    requires NullFree(Obj(overlay))
    ensures NoKeptNull(base, overlay)
    decreases Obj(overlay)
  {
    forall k | k in overlay && overlay[k].Obj? && k in base && base[k].Obj?
      ensures NoKeptNull(base[k].fields, overlay[k].fields)
    {
      NullFreeOverlay(base[k].fields, overlay[k].fields);
    }
  }
}
