/** The document-read guard (pkg/workflow/builtin/opensearch/docread.go). */
module DocRead {
  import opened Json
  import opened Wrappers

  /** A terms value that points at a stored document. */
  predicate IsTermsLookup(value: Json) {
    value.Obj? && ("index" in value.fields || "id" in value.fields || "path" in value.fields)
  }

  /** A like or unlike value that holds a document reference. */
  predicate NamesDocument(value: Json) {
    value.Obj? || (value.Arr? && exists item | item in value.items :: item.Obj?)
  }

  function Member(m: Fields, key: string): Json { if key in m then m[key] else Null }

  /** The object itself is a terms lookup or names a more_like_this document. */
  predicate Violates(node: Json) {
    node.Obj? &&
    var terms, mlt := Member(node.fields, "terms"), Member(node.fields, "more_like_this");
    || (terms.Obj? && exists k | k in terms.fields :: IsTermsLookup(terms.fields[k]))
    || (mlt.Obj? && (NamesDocument(Member(mlt.fields, "like")) || NamesDocument(Member(mlt.fields, "unlike"))))
  }

  predicate ReadsOtherDocument(node: Json)
    decreases node
  {
    || Violates(node)
    || (match node
        case Obj(m) => exists k | k in m :: ReadsOtherDocument(m[k])
        case Arr(items) => exists item | item in items :: ReadsOtherDocument(item)
        case _ => false)
  }

  // ---- what it means: a place in the tree

  datatype Step = Key(k: string) | Index(i: nat)

  /** The value at a path, if the tree has one there. */
  function At(node: Json, path: seq<Step>): Option<Json> {
    if path == [] then Some(node) else
    match path[0]
    case Key(k) => if node.Obj? && k in node.fields then At(node.fields[k], path[1..]) else None
    case Index(i) => if node.Arr? && i < |node.items| then At(node.items[i], path[1..]) else None
  }

  predicate ViolationAt(node: Json, path: seq<Step>) {
    At(node, path).Some? && Violates(At(node, path).value)
  }

  lemma {:induction false} FoundAt(node: Json, path: seq<Step>)
    requires ViolationAt(node, path)
    ensures ReadsOtherDocument(node)
    decreases |path|
  {
    if path != [] {
      match path[0] {
        case Key(k) => FoundAt(node.fields[k], path[1..]);
        case Index(i) =>
          FoundAt(node.items[i], path[1..]);
          assert node.items[i] in node.items;
      }
    }
  }

  lemma {:induction false} Locate(node: Json) returns (path: seq<Step>)
    requires ReadsOtherDocument(node)
    ensures ViolationAt(node, path)
    decreases node
  {
    path := [];
    if !Violates(node) {
      match node {
        case Obj(m) =>
          var k :| k in m && ReadsOtherDocument(m[k]);
          var rest := Locate(m[k]);
          path := [Key(k)] + rest;
          assert path[1..] == rest;
        case Arr(items) =>
          var item :| item in items && ReadsOtherDocument(item);
          var i: nat :| i < |items| && items[i] == item;
          var rest := Locate(items[i]);
          path := [Index(i)] + rest;
          assert path[1..] == rest;
      }
    }
  }

  /** The guard fires exactly when some object, anywhere in the tree, points at a stored document. */
  lemma {:induction false} ReadsIff(node: Json)
    ensures ReadsOtherDocument(node) <==> exists path :: ViolationAt(node, path)
  {
    if ReadsOtherDocument(node) {
      var path := Locate(node);
    }
    if path :| ViolationAt(node, path) {
      FoundAt(node, path);
    }
  }

  // ---- what a violation is, by the places below the object

  /** A terms query over some field is given by an index, an id or a path. */
  ghost predicate LooksUpTerms(node: Json) {
    exists field, k :: k in {"index", "id", "path"} && At(node, [Key("terms"), Key(field), Key(k)]).Some?
  }

  /** A more_like_this query has an object to like or to be unlike, on its own or in a list. */
  ghost predicate LikesDocument(node: Json) {
    || (exists l :: l in {"like", "unlike"} && IsObject(At(node, [Key("more_like_this"), Key(l)])))
    || (exists l, i :: l in {"like", "unlike"} && IsObject(At(node, [Key("more_like_this"), Key(l), Index(i)])))
  }

  predicate IsObject(v: Option<Json>) { v.Some? && v.value.Obj? }

  lemma {:induction false} AtThree(node: Json, a: string, s: Step, u: Step)
    ensures At(node, [Key(a)]) == if node.Obj? && a in node.fields then Some(node.fields[a]) else None
    ensures At(node, [Key(a), s]) == if node.Obj? && a in node.fields then At(node.fields[a], [s]) else None
    ensures At(node, [Key(a), s, u]) == if node.Obj? && a in node.fields then At(node.fields[a], [s, u]) else None
  {
    assert [Key(a)][1..] == [] && [Key(a), s][1..] == [s] && [Key(a), s, u][1..] == [s, u];
  }

  lemma {:induction false} AtIndex(node: Json, i: nat)
    ensures At(node, [Index(i)]) == if node.Arr? && i < |node.items| then Some(node.items[i]) else None
  {
    assert [Index(i)][1..] == [];
  }

  lemma {:induction false} TermsMean(node: Json)
    ensures LooksUpTerms(node) <==>
            (node.Obj? && Member(node.fields, "terms").Obj? && exists f | f in Member(node.fields, "terms").fields :: IsTermsLookup(Member(node.fields, "terms").fields[f]))
  {
    forall field, k ensures At(node, [Key("terms"), Key(field), Key(k)]).Some? <==>
                            (node.Obj? && "terms" in node.fields && node.fields["terms"].Obj? && field in node.fields["terms"].fields
                             && node.fields["terms"].fields[field].Obj? && k in node.fields["terms"].fields[field].fields)
    {
      AtThree(node, "terms", Key(field), Key(k));
      if node.Obj? && "terms" in node.fields {
        AtThree(node.fields["terms"], field, Key(k), Key(k));
        if node.fields["terms"].Obj? && field in node.fields["terms"].fields {
          AtThree(node.fields["terms"].fields[field], k, Key(k), Key(k));
        }
      }
    }
    if node.Obj? && Member(node.fields, "terms").Obj? {
      var terms := Member(node.fields, "terms").fields;
      if f :| f in terms && IsTermsLookup(terms[f]) {
        var k :| k in {"index", "id", "path"} && k in terms[f].fields;
        assert At(node, [Key("terms"), Key(f), Key(k)]).Some?;
      }
    }
  }

  lemma {:induction false} LikeMeans(node: Json, l: string)
    ensures node.Obj? && Member(node.fields, "more_like_this").Obj? && NamesDocument(Member(Member(node.fields, "more_like_this").fields, l)) <==>
            IsObject(At(node, [Key("more_like_this"), Key(l)])) || exists i :: IsObject(At(node, [Key("more_like_this"), Key(l), Index(i)]))
  {
    AtThree(node, "more_like_this", Key(l), Key(l));
    forall i ensures At(node, [Key("more_like_this"), Key(l), Index(i)]) ==
                     if node.Obj? && "more_like_this" in node.fields then At(node.fields["more_like_this"], [Key(l), Index(i)]) else None
    {
      AtThree(node, "more_like_this", Key(l), Index(i));
    }
    if node.Obj? && "more_like_this" in node.fields {
      var mlt := node.fields["more_like_this"];
      forall i: nat ensures At(mlt, [Key(l), Index(i)]) == if mlt.Obj? && l in mlt.fields then At(mlt.fields[l], [Index(i)]) else None {
        AtThree(mlt, l, Index(i), Index(i));
      }
      AtThree(mlt, l, Key(l), Key(l));
      if mlt.Obj? && l in mlt.fields {
        ItemsMean(mlt.fields[l]);
      }
    }
  }

  lemma {:induction false} ItemsMean(v: Json)
    ensures NamesDocument(v) <==> v.Obj? || exists i :: IsObject(At(v, [Index(i)]))
  {
    forall i: nat ensures At(v, [Index(i)]) == if v.Arr? && i < |v.items| then Some(v.items[i]) else None {
      AtIndex(v, i);
    }
    if v.Arr? {
      if item :| item in v.items && item.Obj? {
        var i: nat :| i < |v.items| && v.items[i] == item;
        assert IsObject(At(v, [Index(i)]));
      }
    }
  }

  /** What the guard looks for, by the places below an object. */
  lemma {:induction false} ViolatesIff(node: Json)
    ensures Violates(node) <==> LooksUpTerms(node) || LikesDocument(node)
  {
    TermsMean(node);
    LikeMeans(node, "like");
    LikeMeans(node, "unlike");
  }

  /** rejectDocumentReads over the parts that are present. */
  method RejectDocumentReads(parts: seq<Option<Json>>) returns (rejected: bool)
    ensures rejected <==> exists i, path | 0 <= i < |parts| :: parts[i].Some? && ViolationAt(parts[i].value, path)
  {
    for i := 0 to |parts|
      invariant forall j, path | 0 <= j < i && parts[j].Some? :: !ViolationAt(parts[j].value, path)
    {
      if parts[i].Some? {
        ReadsIff(parts[i].value);
        if ReadsOtherDocument(parts[i].value) {
          return true;
        }
      }
    }
    return false;
  }
}
