/** The aggregation allowlist (pkg/workflow/builtin/opensearch/aggallowlist.go). */
module AggAllowlist {
  import opened Json
  import opened Text
  import opened Wrappers

  const ALLOWED: set<string> := {
    "terms", "multi_terms", "rare_terms", "date_histogram", "auto_date_histogram", "histogram",
    "range", "date_range", "filter", "filters", "missing", "composite", "nested",
    "avg", "sum", "min", "max", "stats", "extended_stats", "value_count", "cardinality",
    "percentiles", "percentile_ranks", "median_absolute_deviation", "weighted_avg", "top_hits",
    "bucket_script", "bucket_selector", "bucket_sort", "avg_bucket", "sum_bucket", "min_bucket", "max_bucket",
    "stats_bucket", "extended_stats_bucket", "percentiles_bucket", "cumulative_sum", "derivative", "moving_fn", "serial_diff"}

  const MAX_DEPTH := 10

  predicate SubKey(key: string) { key == "aggs" || key == "aggregations" }

  predicate TypeKey(key: string) { !SubKey(key) && key != "meta" }

  /** The aggregation types a body names. */
  function Types(body: Fields): set<string> { set key | key in body && TypeKey(key) }

  /** Every aggregation at every depth names exactly one type, an allowed one, and depth is bounded. */
  predicate AggsOk(allowed: set<string>, aggs: Fields, depth: nat)
    decreases Obj(aggs), 1
  {
    depth <= MAX_DEPTH && forall name | name in aggs :: aggs[name].Obj? && BodyOk(allowed, aggs[name].fields, depth)
  }

  predicate BodyOk(allowed: set<string>, body: Fields, depth: nat)
    decreases Obj(body), 0
  {
    && |Types(body)| == 1
    && Types(body) <= allowed
    && forall key | key in body && SubKey(key) :: body[key].Obj? && AggsOk(allowed, body[key].fields, depth + 1)
  }

  method WalkAggs(aggs: Fields, depth: nat) returns (ok: bool)
    ensures ok <==> AggsOk(ALLOWED, aggs, depth)
    decreases Obj(aggs), 1
  {
    if depth > MAX_DEPTH {
      return false;
    }
    var rest := aggs.Keys;
    while rest != {}
      invariant rest <= aggs.Keys
      invariant forall name | name in aggs && name !in rest :: aggs[name].Obj? && BodyOk(ALLOWED, aggs[name].fields, depth)
      decreases rest
    {
      var name :| name in rest;
      if !aggs[name].Obj? {
        return false;
      }
      var good := WalkBody(aggs[name].fields, depth);
      if !good {
        return false;
      }
      rest := rest - {name};
    }
    return true;
  }

  method WalkBody(body: Fields, depth: nat) returns (ok: bool)
    ensures ok <==> BodyOk(ALLOWED, body, depth)
    decreases Obj(body), 0
  {
    var types: set<string> := {};
    var rest := body.Keys;
    while rest != {}
      invariant rest <= body.Keys
      invariant types == set key | key in body && key !in rest && TypeKey(key)
      invariant types <= ALLOWED
      invariant forall key | key in body && key !in rest && SubKey(key) ::
                  body[key].Obj? && AggsOk(ALLOWED, body[key].fields, depth + 1)
      decreases rest
    {
      var key :| key in rest;
      if SubKey(key) {
        if !body[key].Obj? {
          return false;
        }
        var good := WalkAggs(body[key].fields, depth + 1);
        if !good {
          return false;
        }
      } else if key != "meta" {
        if key !in ALLOWED {
          assert key in Types(body);
          return false;
        }
        types := types + {key};
      }
      rest := rest - {key};
    }
    assert types == Types(body);
    return |types| == 1;
  }

  lemma {:induction false} OneTypeBody(allowed: set<string>, t: string, params: Json, key: string, v: Json, depth: nat)
    requires t in allowed && t !in {"aggs", "aggregations", "meta"} && key != t
    ensures BodyOk(allowed, map[t := params, key := v], depth) <==>
            if key in {"aggs", "aggregations"} then v.Obj? && AggsOk(allowed, v.fields, depth + 1) else key == "meta"
  {
    var body: Fields := map[t := params, key := v];
    assert body.Keys == {t, key} && body[key] == v;
    if key in {"aggs", "aggregations", "meta"} {
      assert Types(body) == {t};
    } else {
      assert Types(body) == {t, key};
    }
  }

  lemma {:induction false} OneAgg(allowed: set<string>, name: string, body: Fields, depth: nat)
    ensures AggsOk(allowed, map[name := Obj(body)], depth) <==> depth <= MAX_DEPTH && BodyOk(allowed, body, depth)
  {
    var aggs: Fields := map[name := Obj(body)];
    assert aggs[name] == Obj(body);
  }

  /** An aggregation with one allowed type is as good as its sub-aggregations, under either of their names;
      meta data does not matter, and a second type is refused. */
  lemma {:induction false} OneTypeAndSubs(allowed: set<string>, name: string, t: string, params: Json, key: string, v: Json, depth: nat)
    requires t in allowed && t !in {"aggs", "aggregations", "meta"} && key != t
    ensures AggsOk(allowed, map[name := Obj(map[t := params, key := v])], depth) <==>
            depth <= MAX_DEPTH &&
            if key in {"aggs", "aggregations"} then v.Obj? && AggsOk(allowed, v.fields, depth + 1) else key == "meta"
  {
    OneTypeBody(allowed, t, params, key, v, depth);
    OneAgg(allowed, name, map[t := params, key := v], depth);
  }

  /** decode reads one JSON value from a text, None when it does not hold exactly one. raw is None
      when the request has no aggregations. */
  method NormalizeAggregations(decode: string -> Option<Json>, raw: Option<Json>) returns (r: Option<Option<Fields>>)
    ensures r.Some? ==> r.value == Sent(decode, raw)
    ensures r.Some? && r.value.Some? ==> AggsOk(ALLOWED, r.value.value, 1)
    ensures r.None? <==> Refused(decode, raw)
  {
    if raw.None? || raw.value.Null? {
      return Some(None);
    }
    var tree := raw;
    if raw.value.Str? {
      var s := TrimSpace(raw.value.s);
      if s == "" || s == "null" {
        return Some(None);
      }
      tree := decode(s);
    }
    if tree.None? || !tree.value.Obj? {
      return None;
    }
    if tree.value.fields == map[] {
      return Some(None);
    }
    var ok := WalkAggs(tree.value.fields, 1);
    return if ok then Some(Some(tree.value.fields)) else None;
  }

  /** The tree a request means: none, an object, or an object spelled as a text. */
  function Tree(decode: string -> Option<Json>, raw: Option<Json>): Option<Json> {
    if raw.None? || raw.value.Null? then Some(Null)
    else if !raw.value.Str? then raw
    else
      var s := TrimSpace(raw.value.s);
      if s == "" || s == "null" then Some(Null) else
      var t := decode(s);
      if t.Some? && t.value.Obj? then t else None
  }

  predicate Refused(decode: string -> Option<Json>, raw: Option<Json>) {
    var t := Tree(decode, raw);
    t.None? || (!t.value.Null? && (!t.value.Obj? || (t.value.fields != map[] && !AggsOk(ALLOWED, t.value.fields, 1))))
  }

  /** What goes into the request body: nothing, or the validated tree. */
  function Sent(decode: string -> Option<Json>, raw: Option<Json>): Option<Fields> {
    var t := Tree(decode, raw);
    if t.Some? && t.value.Obj? && t.value.fields != map[] then Some(t.value.fields) else None
  }

  // ---- what aggregations are computed over

  /** Documents by number. scope(type, params, docs) is the set an aggregation of that type computes
      over when its parent computes over docs. */
  type Semantics = (string, Json, set<int>) -> set<int>

  ghost predicate Shrinks(sem: Semantics, types: set<string>) {
    forall t, params, docs | t in types :: sem(t, params, docs) <= docs
  }

  /** Every aggregation in the tree computes over a subset of base. */
  predicate AllWithin(sem: Semantics, aggs: Fields, docs: set<int>, base: set<int>)
    decreases Obj(aggs)
  {
    forall name, t | name in aggs && aggs[name].Obj? && t in aggs[name].fields && TypeKey(t) ::
      var body := aggs[name].fields;
      var mine := sem(t, body[t], docs);
      && mine <= base
      && forall key | key in body && SubKey(key) && body[key].Obj? :: AllWithin(sem, body[key].fields, mine, base)
  }

  predicate WithinAt(sem: Semantics, body: Fields, t: string, docs: set<int>, base: set<int>)
    requires t in body
  {
    var mine := sem(t, body[t], docs);
    && mine <= base
    && forall key | key in body && SubKey(key) && body[key].Obj? :: AllWithin(sem, body[key].fields, mine, base)
  }

  /** Some aggregation, at some depth, names a type outside allowed. */
  predicate NamesOther(allowed: set<string>, aggs: Fields)
    decreases Obj(aggs)
  {
    exists name, t | name in aggs && aggs[name].Obj? && t in aggs[name].fields && TypeKey(t) ::
      t !in allowed
      || exists key | key in aggs[name].fields && SubKey(key) && aggs[name].fields[key].Obj? ::
           NamesOther(allowed, aggs[name].fields[key].fields)
  }

  /** The worst semantics: listed types keep their parent's documents, others see document 1 as well. */
  function Escaping(allowed: set<string>): Semantics {
    (t: string, params: Json, docs: set<int>) => if t in allowed then docs else docs + {1}
  }

  lemma {:induction false} OtherTypesEscape(allowed: set<string>, aggs: Fields, docs: set<int>)
    requires NamesOther(allowed, aggs) && 1 !in docs
    ensures !AllWithin(Escaping(allowed), aggs, docs, docs)
    decreases Obj(aggs)
  {
    var name, t :| name in aggs && aggs[name].Obj? && t in aggs[name].fields && TypeKey(t)
      && (t !in allowed
          || exists key | key in aggs[name].fields && SubKey(key) && aggs[name].fields[key].Obj? ::
               NamesOther(allowed, aggs[name].fields[key].fields));
    var body := aggs[name].fields;
    var mine := Escaping(allowed)(t, body[t], docs);
    if t in allowed {
      var key :| key in body && SubKey(key) && body[key].Obj? && NamesOther(allowed, body[key].fields);
      OtherTypesEscape(allowed, body[key].fields, docs);
      assert mine == docs;
    } else {
      assert 1 in mine;
    }
    assert !WithinAt(Escaping(allowed), body, t, docs, docs);
  }

  /** The list is as tight as it can be: a tree is safe under every semantics in which the listed types
      shrink exactly when it names listed types only. */
  lemma {:induction false} SafeIffListed(allowed: set<string>, aggs: Fields)
    ensures (forall sem: Semantics, docs | Shrinks(sem, allowed) :: AllWithin(sem, aggs, docs, docs))
            <==> !NamesOther(allowed, aggs)
  {
    if NamesOther(allowed, aggs) {
      OtherTypesEscape(allowed, aggs, {0});
      assert Shrinks(Escaping(allowed), allowed);
    } else {
      forall sem: Semantics, docs | Shrinks(sem, allowed) ensures AllWithin(sem, aggs, docs, docs) {
        ListedStaysWithin(sem, allowed, aggs, docs, docs);
      }
    }
  }

  lemma {:induction false} ListedStaysWithin(sem: Semantics, allowed: set<string>, aggs: Fields, docs: set<int>, base: set<int>)
    requires !NamesOther(allowed, aggs) && Shrinks(sem, allowed) && docs <= base
    ensures AllWithin(sem, aggs, docs, base)
    decreases Obj(aggs)
  {
    forall name, t | name in aggs && aggs[name].Obj? && t in aggs[name].fields && TypeKey(t)
      ensures WithinAt(sem, aggs[name].fields, t, docs, base)
    {
      var body := aggs[name].fields;
      var mine := sem(t, body[t], docs);
      forall key | key in body && SubKey(key) && body[key].Obj?
        ensures AllWithin(sem, body[key].fields, mine, base)
      {
        ListedStaysWithin(sem, allowed, body[key].fields, mine, base);
      }
    }
  }

  /** Accepted trees name listed types only. */
  lemma {:induction false} AcceptedNamesListed(allowed: set<string>, aggs: Fields, depth: nat)
    requires AggsOk(allowed, aggs, depth)
    ensures !NamesOther(allowed, aggs)
    decreases Obj(aggs)
  {
    forall name, t | name in aggs && aggs[name].Obj? && t in aggs[name].fields && TypeKey(t)
      ensures t in allowed
      ensures forall key | key in aggs[name].fields && SubKey(key) && aggs[name].fields[key].Obj? ::
                !NamesOther(allowed, aggs[name].fields[key].fields)
    {
      var body := aggs[name].fields;
      assert t in Types(body);
      forall key | key in body && SubKey(key) && body[key].Obj? ensures !NamesOther(allowed, body[key].fields) {
        AcceptedNamesListed(allowed, body[key].fields, depth + 1);
      }
    }
  }

  /** An accepted tree stays inside the query's documents, whatever unlisted types would do. */
  lemma {:induction false} AcceptedStaysWithin(sem: Semantics, allowed: set<string>, aggs: Fields, depth: nat, docs: set<int>, base: set<int>)
    requires AggsOk(allowed, aggs, depth) && Shrinks(sem, allowed) && docs <= base
    ensures AllWithin(sem, aggs, docs, base)
  {
    AcceptedNamesListed(allowed, aggs, depth);
    ListedStaysWithin(sem, allowed, aggs, docs, base);
  }
}
