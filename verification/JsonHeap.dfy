/** deepMerge and copyValue over mutable maps and slices, as the loader holds them in memory. */
module JsonHeap {
  import opened Json
  import opened DeepMerge

  datatype HValue = Scalar(j: Json) | MapRef(m: JsonMap) | SliceRef(s: JsonSlice)

  class JsonMap {
    var entries: map<string, HValue>
    constructor () ensures entries == map[] { entries := map[]; }
  }

  class JsonSlice {
    var items: seq<HValue>
    constructor () ensures items == [] { items := []; }
  }

  /** The value v stands for the tree j, and every map and slice it reaches lies in r. */
  ghost predicate Denotes(v: HValue, j: Json, r: set<object>)
    reads r
    decreases j
  {
    match v
    case Scalar(x) => x == j && !j.Obj? && !j.Arr?
    case MapRef(m) =>
      && j.Obj? && m in r && m.entries.Keys == j.fields.Keys
      && forall k | k in j.fields :: Denotes(m.entries[k], j.fields[k], r)
    case SliceRef(s) =>
      && j.Arr? && s in r && |s.items| == |j.items|
      && forall i | 0 <= i < |j.items| :: Denotes(s.items[i], j.items[i], r)
  }

  lemma {:induction false} DenotesGrows(v: HValue, j: Json, r: set<object>, wider: set<object>)
    requires Denotes(v, j, r) && r <= wider
    ensures Denotes(v, j, wider)
    decreases j
  {
    match v
    case Scalar(_) =>
    case MapRef(m) =>
      forall k | k in j.fields ensures Denotes(m.entries[k], j.fields[k], wider) {
        DenotesGrows(m.entries[k], j.fields[k], r, wider);
      }
    case SliceRef(s) =>
      forall i | 0 <= i < |j.items| ensures Denotes(s.items[i], j.items[i], wider) {
        DenotesGrows(s.items[i], j.items[i], r, wider);
      }
  }

  /** Entry by entry, the map contents es stand for the object members js. */
  ghost predicate AllDenote(es: map<string, HValue>, js: Fields, r: set<object>)
    reads r
  {
    && es.Keys == js.Keys
    && forall k | k in js :: Denotes(es[k], js[k], r)
  }

  lemma {:induction false} AllDenotePut(es: map<string, HValue>, js: Fields, r: set<object>, k: string, v: HValue, j: Json, more: set<object>)
    requires AllDenote(es, js, r) && Denotes(v, j, more)
    ensures AllDenote(es[k := v], js[k := j], r + more)
  {
    forall x | x in js ensures Denotes(es[x], js[x], r + more) {
      DenotesGrows(es[x], js[x], r, r + more);
    }
    DenotesGrows(v, j, more, r + more);
  }

  lemma {:induction false} DenotesOfEntries(m: JsonMap, js: Fields, r: set<object>)
    requires AllDenote(m.entries, js, r)
    ensures Denotes(MapRef(m), Obj(js), r + {m})
  {
    forall x | x in js ensures Denotes(m.entries[x], js[x], r + {m}) {
      DenotesGrows(m.entries[x], js[x], r, r + {m});
    }
  }

  ghost function Without(js: Fields, rest: set<string>): Fields {
    map k | k in js && k !in rest :: js[k]
  }

  lemma {:induction false} WithoutStep(js: Fields, rest: set<string>, k: string)
    requires k in js && k in rest
    ensures Without(js, rest - {k}) == Without(js, rest)[k := js[k]]
  {
  }

  lemma {:induction false} WithoutEnds(js: Fields)
    ensures Without(js, js.Keys) == map[] && Without(js, {}) == js
  {
  }

  /** A new map holding copies of m's entries; the footprint fp of the copies leaves the map out. */
  method CopyEntries(m: JsonMap, ghost j: Json, ghost r: set<object>) returns (copy: JsonMap, ghost fp: set<object>)
    requires Denotes(MapRef(m), j, r)
    ensures fresh(copy) && fresh(fp) && copy !in fp
    ensures AllDenote(copy.entries, j.fields, fp)
    decreases j, 0
  {
    var entries: map<string, HValue> := map[];
    fp := {};
    var todo, rest := m.entries, m.entries.Keys;
    ghost var done: Fields := map[];
    WithoutEnds(j.fields);
    assert AllDenote(todo, j.fields, r);
    while rest != {}
      invariant rest <= todo.Keys
      invariant fresh(fp)
      invariant AllDenote(todo, j.fields, r)
      invariant done == Without(j.fields, rest)
      invariant AllDenote(entries, done, fp)
      decreases |rest|
    {
      var k :| k in rest;
      var child, more := CopyValue(todo[k], j.fields[k], r);
      AllDenotePut(entries, done, fp, k, child, j.fields[k], more);
      WithoutStep(j.fields, rest, k);
      entries := entries[k := child];
      done, fp, rest := done[k := j.fields[k]], fp + more, rest - {k};
    }
    copy := new JsonMap();
    copy.entries := entries;
  }

  /** A copy of v made of new maps and slices only. */
  method CopyValue(v: HValue, ghost j: Json, ghost r: set<object>) returns (out: HValue, ghost fp: set<object>)
    requires Denotes(v, j, r)
    ensures fresh(fp) && Denotes(out, j, fp)
    decreases j, 1
  {
    match v
    case Scalar(_) => out, fp := v, {};
    case MapRef(m) =>
      var copy;
      copy, fp := CopyEntries(m, j, r);
      DenotesOfEntries(copy, j.fields, fp);
      out, fp := MapRef(copy), fp + {copy};
    case SliceRef(s) =>
      var copy := new JsonSlice();
      fp := {};
      for i := 0 to |s.items|
        invariant fresh(copy) && fresh(fp) && copy !in fp
        invariant Denotes(v, j, r)
        invariant |copy.items| == i
        invariant forall x | 0 <= x < i :: Denotes(copy.items[x], j.items[x], fp)
      {
        var child, more := CopyValue(s.items[i], j.items[i], r);
        forall x | 0 <= x < i ensures Denotes(copy.items[x], j.items[x], fp + more) {
          DenotesGrows(copy.items[x], j.items[x], fp, fp + more);
        }
        DenotesGrows(child, j.items[i], more, fp + more);
        fp := fp + more;
        copy.items := copy.items + [child];
      }
      forall x | 0 <= x < |j.items| ensures Denotes(copy.items[x], j.items[x], fp + {copy}) {
        DenotesGrows(copy.items[x], j.items[x], fp, fp + {copy});
      }
      out, fp := SliceRef(copy), fp + {copy};
  }

  /** The merge with the overlay keys in rest still to be applied. */
  ghost function MergedBut(base: Fields, overlay: Fields, rest: set<string>): (r: Fields) {
    map k | k in base.Keys + overlay.Keys &&
            (if k in overlay && k !in rest then !overlay[k].Null? else k in base) ::
      if k in overlay && k !in rest then Merge(base, overlay)[k] else base[k]
  }

  /** What the merge puts at one overlay key; absent base members count as Null. */
  ghost function MergedMember(base: Json, overlay: Json): Json {
    if overlay.Obj? && base.Obj? then Obj(Merge(base.fields, overlay.fields)) else overlay
  }

  lemma {:induction false} MergedButStep(base: Fields, overlay: Fields, rest: set<string>, k: string)
    requires k in overlay && k in rest
    ensures var now := MergedBut(base, overlay, rest);
            MergedBut(base, overlay, rest - {k}) ==
            if overlay[k].Null? then now - {k}
            else now[k := MergedMember(if k in now then now[k] else Null, overlay[k])]
  {
  }

  lemma {:induction false} MergedButEnds(base: Fields, overlay: Fields)
    ensures MergedBut(base, overlay, overlay.Keys) == base
    ensures MergedBut(base, overlay, {}) == Merge(base, overlay)
  {
  }

  /** The value for one overlay key: a merge of two maps, or a copy of the overlay's value. */
  method MergeMember(bv: HValue, ov: HValue, ghost jb: Json, ghost rb: set<object>, ghost jo: Json, ghost ro: set<object>)
    returns (out: HValue, ghost fp: set<object>)
    requires Denotes(bv, jb, rb) && Denotes(ov, jo, ro)
    ensures fresh(fp) && Denotes(out, MergedMember(jb, jo), fp)
    decreases jo, 2
  {
    if ov.MapRef? && bv.MapRef? {
      var merged;
      merged, fp := MergeMaps(bv.m, ov.m, jb.fields, rb, jo.fields, ro);
      out := MapRef(merged);
    } else {
      out, fp := CopyValue(ov, jo, ro);
    }
  }

  /** The merged tree, held in new maps and slices only; neither input is written. */
  method MergeMaps(base: JsonMap, overlay: JsonMap,
                   ghost jb: Fields, ghost rb: set<object>, ghost jo: Fields, ghost ro: set<object>)
    returns (out: JsonMap, ghost fp: set<object>)
    requires Denotes(MapRef(base), Obj(jb), rb) && Denotes(MapRef(overlay), Obj(jo), ro)
    ensures fresh(fp) && Denotes(MapRef(out), Obj(Merge(jb, jo)), fp)
    decreases Obj(jo), 1
  {
    out, fp := CopyEntries(base, Obj(jb), rb);
    assert AllDenote(overlay.entries, jo, ro);
    fp := ApplyOverlay(out, overlay.entries, jb, fp, jo, ro);
    DenotesOfEntries(out, Merge(jb, jo), fp);
    fp := fp + {out};
  }

  /** The overlay loop, over the overlay's entries as they were when it began. */
  method ApplyOverlay(out: JsonMap, entries: map<string, HValue>,
                      ghost jb: Fields, ghost rb: set<object>, ghost jo: Fields, ghost ro: set<object>)
    returns (ghost fp: set<object>)
    requires AllDenote(out.entries, jb, rb) && out !in rb && out !in ro && AllDenote(entries, jo, ro)
    modifies out
    ensures AllDenote(out.entries, Merge(jb, jo), fp)
    ensures forall o | o in fp :: o in rb || fresh(o)
    decreases Obj(jo), 0
  {
    var rest := entries.Keys;
    ghost var now := jb;
    fp := rb;
    MergedButEnds(jb, jo);
    while rest != {}
      invariant rest <= jo.Keys
      invariant forall o | o in fp :: o in rb || fresh(o)
      invariant AllDenote(entries, jo, ro)
      invariant now == MergedBut(jb, jo, rest)
      invariant AllDenote(out.entries, now, fp)
      decreases |rest|
    {
      var k :| k in rest;
      MergedButStep(jb, jo, rest, k);
      now, fp := MergeKey(out, k, entries[k], now, fp, jo[k], ro);
      rest := rest - {k};
    }
  }

  /** One turn of the overlay loop: a null deletes the key, anything else is merged or copied in. */
  method MergeKey(out: JsonMap, k: string, ov: HValue,
                  ghost now: Fields, ghost fp: set<object>, ghost jo: Json, ghost ro: set<object>)
    returns (ghost next: Fields, ghost fp': set<object>)
    requires AllDenote(out.entries, now, fp) && out !in fp && out !in ro && Denotes(ov, jo, ro)
    modifies out
    ensures next == if jo.Null? then now - {k}
                    else now[k := MergedMember(if k in now then now[k] else Null, jo)]
    ensures AllDenote(out.entries, next, fp')
    ensures forall o | o in fp' :: o in fp || fresh(o)
    decreases jo, 3
  {
    if ov == Scalar(Null) {
      out.entries := out.entries - {k};
      next, fp' := now - {k}, fp;
    } else {
      var bv := if k in out.entries then out.entries[k] else Scalar(Null);
      ghost var jbv := if k in now then now[k] else Null;
      var v, more := MergeMember(bv, ov, jbv, fp, jo, ro);
      AllDenotePut(out.entries, now, fp, k, v, MergedMember(jbv, jo), more);
      out.entries := out.entries[k := v];
      next, fp' := now[k := MergedMember(jbv, jo)], fp + more;
    }
  }
}
