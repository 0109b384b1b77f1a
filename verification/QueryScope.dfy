/** Rewriting a model's search into a policy-scoped one (steps 1 to 5 of Invoke, normalizeClauseList
    and buildFinalQuery in pkg/workflow/builtin/opensearch/tool.go), on decoded JSON. */
module QueryScope {
  import opened Json
  import opened Wrappers
  import opened AggAllowlist
  import opened DocRead

  const CLAUSE_KEYS: set<string> := {"must", "must_not", "filter"}

  // ---- clause lists

  /** The clauses a queryBody member stands for, if its shape is acceptable. */
  function Clauses(raw: Json): Option<seq<Json>> {
    match raw
    case Null => Some([])
    case Obj(_) => Some([raw])
    case Arr(items) => if forall j | 0 <= j < |items| :: items[j].Obj? then Some(items) else None
    case _ => None
  }

  /** A clause list, or null for none; None for anything else. */
  method NormalizeClauseList(raw: Json) returns (r: Option<Json>)
    ensures r.Some? <==> Clauses(raw).Some?
    ensures r.Some? ==> r.value == if raw.Null? then Null else Arr(Clauses(raw).value)
  {
    match raw {
      case Null => return Some(Null);
      case Obj(_) => return Some(Arr([raw]));
      case Arr(items) =>
        for i := 0 to |items|
          invariant forall j | 0 <= j < i :: items[j].Obj?
        {
          if !items[i].Obj? {
            return None;
          }
        }
        return Some(raw);
      case _ => return None;
    }
  }

  predicate BodyOk(body: Fields) {
    body.Keys <= CLAUSE_KEYS && forall k | k in body :: Clauses(body[k]).Some?
  }

  /** The model's clauses under key; none when the key is absent. */
  function ClausesOf(body: Fields, key: string): seq<Json>
    requires BodyOk(body)
  {
    if key in body then Clauses(body[key]).value else []
  }

  /** The clause list under key of a bool query, or of a normalized body. */
  function Listed(m: Fields, key: string): seq<Json> {
    if key in m && m[key].Arr? then m[key].items else []
  }

  /** Refuses other keys, then puts every member's clause list in place. */
  method NormalizeBody(body: Fields) returns (r: Option<Fields>)
    ensures r.Some? <==> BodyOk(body)
    ensures r.Some? ==> r.value.Keys == body.Keys
    ensures r.Some? ==> forall k | k in body :: r.value[k] == if body[k].Null? then Null else Arr(ClausesOf(body, k))
  {
    if !(body.Keys <= CLAUSE_KEYS) {
      return None;
    }
    var out: Fields := map[];
    var rest := body.Keys;
    while rest != {}
      invariant rest <= body.Keys && out.Keys == body.Keys - rest
      invariant forall k | k in out ::
                  Clauses(body[k]).Some? && out[k] == if body[k].Null? then Null else Arr(Clauses(body[k]).value)
      decreases rest
    {
      var k :| k in rest;
      var clauses := NormalizeClauseList(body[k]);
      if clauses.None? {
        return None;
      }
      out := out[k := clauses.value];
      rest := rest - {k};
    }
    return Some(out);
  }

  // ---- the final query

  /** Lets the policy's clauses join the model's must list; everything under one bool. */
  method BuildFinalQuery(clauses: Fields, policy: seq<Json>) returns (q: Json)
    requires forall k | k in clauses :: clauses[k].Null? || clauses[k].Arr?
    ensures IsBool(q)
    ensures Listed(BoolOf(q), "must") == Listed(clauses, "must") + policy
    ensures Listed(BoolOf(q), "must_not") == Listed(clauses, "must_not")
    ensures Listed(BoolOf(q), "filter") == Listed(clauses, "filter")
    ensures BoolOf(q).Keys <= CLAUSE_KEYS
  {
    var final: Fields := map[];
    if "must" in clauses && !clauses["must"].Null? {
      final := final["must" := Arr(clauses["must"].items + policy)];
    } else if |policy| > 0 {
      final := final["must" := Arr(policy)];
    }
    if "must_not" in clauses && !clauses["must_not"].Null? {
      final := final["must_not" := clauses["must_not"]];
    }
    if "filter" in clauses && !clauses["filter"].Null? {
      final := final["filter" := clauses["filter"]];
    }
    q := Obj(map["bool" := Obj(final)]);
  }

  predicate IsBool(q: Json) {
    q.Obj? && q.fields.Keys == {"bool"} && q.fields["bool"].Obj?
  }

  function BoolOf(q: Json): Fields
    requires IsBool(q)
  {
    q.fields["bool"].fields
  }

  /** Which documents a clause matches: any relation whatever. */
  type Sat = (Json, int) -> bool

  predicate All(sat: Sat, clauses: seq<Json>, doc: int) {
    forall c | c in clauses :: sat(c, doc)
  }

  predicate NoneOf(sat: Sat, clauses: seq<Json>, doc: int) {
    forall c | c in clauses :: !sat(c, doc)
  }

  /** What a bool query of these three lists matches. */
  predicate Matches(sat: Sat, q: Json, doc: int)
    requires IsBool(q)
  {
    var m := BoolOf(q);
    All(sat, Listed(m, "must"), doc) && All(sat, Listed(m, "filter"), doc) && NoneOf(sat, Listed(m, "must_not"), doc)
  }

  /** What the model asked for. */
  predicate Asked(sat: Sat, body: Fields, doc: int)
    requires BodyOk(body)
  {
    && All(sat, ClausesOf(body, "must"), doc)
    && NoneOf(sat, ClausesOf(body, "must_not"), doc)
    && All(sat, ClausesOf(body, "filter"), doc)
  }

  /** The query means "what the model asked for, and the policy". */
  ghost predicate MeansAskedAndPolicy(q: Json, body: Fields, policy: seq<Json>) {
    IsBool(q) && BodyOk(body) &&
    forall sat: Sat, doc: int :: Matches(sat, q, doc) <==> Asked(sat, body, doc) && All(sat, policy, doc)
  }

  lemma {:induction false} FinalQueryMeans(q: Json, body: Fields, policy: seq<Json>)
    requires IsBool(q) && BodyOk(body)
    requires Listed(BoolOf(q), "must") == ClausesOf(body, "must") + policy
    requires Listed(BoolOf(q), "must_not") == ClausesOf(body, "must_not")
    requires Listed(BoolOf(q), "filter") == ClausesOf(body, "filter")
    ensures MeansAskedAndPolicy(q, body, policy)
  {
    forall sat: Sat, doc: int
      ensures Matches(sat, q, doc) <==> Asked(sat, body, doc) && All(sat, policy, doc)
    {
      AllOfBoth(sat, ClausesOf(body, "must"), policy, doc);
    }
  }

  lemma {:induction false} AllOfBoth(sat: Sat, a: seq<Json>, b: seq<Json>, doc: int)
    ensures All(sat, a + b, doc) <==> All(sat, a, doc) && All(sat, b, doc)
  {
    if All(sat, a + b, doc) {
      forall c | c in a ensures sat(c, doc) {
        assert c in a + b;
      }
      forall c | c in b ensures sat(c, doc) {
        assert c in a + b;
      }
    }
  }

  // ---- the whole request

  datatype Request = Request(indexPath: string, queryBody: Fields, size: Option<int>, aggregations: Option<Json>, sort: Option<Json>)

  /** What the policy peer answers. */
  datatype PolicyAnswer = PolicyError | Deny | Inject(must: seq<Json>)

  /** What the tool's surroundings answer: whether every element of the index path is allowed, whether
      the context names an account, the policy, and the decoder of a text that should be JSON. */
  datatype Context = Context(indexAllowed: bool, account: bool, policy: PolicyAnswer, maxResultSize: int, decode: string -> Option<Json>)

  datatype Rejection =
    | IndexPathRequired | BadQueryBody | BadAggregations | ReadsDocument | IndexNotAllowed | NoAccount | PolicyFailed | PolicyDenied

  datatype Decision = Rejected(why: Rejection) | Send(query: Json, size: int, aggs: Option<Fields>, sort: Option<Json>)

  /** No part the model supplied points at a stored document. */
  ghost predicate ReadsNoDocument(ctx: Context, r: Request)
    requires BodyOk(r.queryBody)
  {
    var aggs := AggAllowlist.Sent(ctx.decode, r.aggregations);
    && (aggs.Some? ==> Clean(Obj(aggs.value)))
    && (r.sort.Some? ==> Clean(r.sort.value))
    && forall k | k in r.queryBody && r.queryBody[k] != Null :: Clean(Arr(ClausesOf(r.queryBody, k)))
  }

  ghost predicate Clean(part: Json) {
    forall path :: !ViolationAt(part, path)
  }

  ghost predicate Acceptable(ctx: Context, r: Request) {
    && r.indexPath != "" && BodyOk(r.queryBody)
    && !AggAllowlist.Refused(ctx.decode, r.aggregations)
    && ReadsNoDocument(ctx, r)
    && ctx.indexAllowed && ctx.account && ctx.policy.Inject?
  }

  /** The first guard that fails, in the order they are tried. */
  ghost predicate FirstFailure(ctx: Context, r: Request, why: Rejection) {
    if r.indexPath == "" then why.IndexPathRequired?
    else if !BodyOk(r.queryBody) then why.BadQueryBody?
    else if AggAllowlist.Refused(ctx.decode, r.aggregations) then why.BadAggregations?
    else if !ReadsNoDocument(ctx, r) then why.ReadsDocument?
    else if !ctx.indexAllowed then why.IndexNotAllowed?
    else if !ctx.account then why.NoAccount?
    else if ctx.policy.PolicyError? then why.PolicyFailed?
    else ctx.policy.Deny? && why.PolicyDenied?
  }

  /** The parts to check, in any order of the body's keys. */
  method Parts(clauses: Fields, aggs: Option<Fields>, sort: Option<Json>) returns (parts: seq<Option<Json>>)
    ensures forall p | p in parts && p.Some? ::
              (aggs.Some? && p.value == Obj(aggs.value)) || p == sort || exists k | k in clauses :: clauses[k] == p.value && p.value != Null
    ensures aggs.Some? ==> Some(Obj(aggs.value)) in parts
    ensures sort in parts
    ensures forall k | k in clauses && clauses[k] != Null :: Some(clauses[k]) in parts
  {
    parts := [if aggs.Some? then Some(Obj(aggs.value)) else None, sort];
    var rest := clauses.Keys;
    assert parts[0] in parts && parts[1] in parts;
    while rest != {}
      invariant rest <= clauses.Keys
      invariant forall p | p in parts && p.Some? ::
                  (aggs.Some? && p.value == Obj(aggs.value)) || p == sort || exists k | k in clauses :: clauses[k] == p.value && p.value != Null
      invariant aggs.Some? ==> Some(Obj(aggs.value)) in parts
      invariant sort in parts
      invariant forall k | k in clauses && k !in rest && clauses[k] != Null :: Some(clauses[k]) in parts
      decreases rest
    {
      var k :| k in rest;
      parts := parts + [if clauses[k].Null? then None else Some(clauses[k])];
      rest := rest - {k};
    }
  }

  /** The guards that do not look at the request. */
  method CheckContext(ctx: Context) returns (why: Option<Rejection>)
    ensures why.None? <==> ctx.indexAllowed && ctx.account && ctx.policy.Inject?
    ensures why.Some? ==> why.value == if !ctx.indexAllowed then IndexNotAllowed
                                       else if !ctx.account then NoAccount
                                       else if ctx.policy.PolicyError? then PolicyFailed else PolicyDenied
  {
    if !ctx.indexAllowed {
      return Some(IndexNotAllowed);
    }
    if !ctx.account {
      return Some(NoAccount);
    }
    if ctx.policy.PolicyError? {
      return Some(PolicyFailed);
    }
    if ctx.policy.Deny? {
      return Some(PolicyDenied);
    }
    return None;
  }

  /** A request goes out exactly when it passes every guard; then its query means what the model asked
      for and the policy, its aggregations are the validated tree, and nothing in it reads a document. */
  method Invoke(ctx: Context, r: Request) returns (d: Decision)
    ensures d.Send? <==> Acceptable(ctx, r)
    ensures d.Send? ==> MeansAskedAndPolicy(d.query, r.queryBody, ctx.policy.must)
    ensures d.Send? ==> d.aggs == AggAllowlist.Sent(ctx.decode, r.aggregations) && d.sort == r.sort
    ensures d.Send? ==> (d.aggs.Some? ==> AggsOk(ALLOWED, d.aggs.value, 1))
    ensures d.Send? ==> d.size == if r.size.Some? then r.size.value else ctx.maxResultSize
    ensures d.Rejected? ==> FirstFailure(ctx, r, d.why)
  {
    if r.indexPath == "" {
      return Rejected(IndexPathRequired);
    }
    var clauses := NormalizeBody(r.queryBody);
    if clauses.None? {
      return Rejected(BadQueryBody);
    }
    var aggs := NormalizeAggregations(ctx.decode, r.aggregations);
    if aggs.None? {
      return Rejected(BadAggregations);
    }
    var parts := Parts(clauses.value, aggs.value, r.sort);
    var found := RejectDocumentReads(parts);
    PartsMean(ctx, r, clauses.value, aggs.value, parts, found);
    if found {
      return Rejected(ReadsDocument);
    }
    var why := CheckContext(ctx);
    if why.Some? {
      return Rejected(why.value);
    }
    var query := BuildFinalQuery(clauses.value, ctx.policy.must);
    FinalQueryMeans(query, r.queryBody, ctx.policy.must);
    var size := if r.size.Some? then r.size.value else ctx.maxResultSize;
    return Send(query, size, aggs.value, r.sort);
  }

  lemma {:induction false} PartsMean(ctx: Context, r: Request, clauses: Fields, aggs: Option<Fields>, parts: seq<Option<Json>>, found: bool)
    requires BodyOk(r.queryBody) && clauses.Keys == r.queryBody.Keys
    requires forall k | k in clauses :: clauses[k] == if r.queryBody[k].Null? then Null else Arr(ClausesOf(r.queryBody, k))
    requires aggs == AggAllowlist.Sent(ctx.decode, r.aggregations)
    requires forall p | p in parts && p.Some? ::
              (aggs.Some? && p.value == Obj(aggs.value)) || p == r.sort || exists k | k in clauses :: clauses[k] == p.value && p.value != Null
    requires aggs.Some? ==> Some(Obj(aggs.value)) in parts
    requires r.sort in parts
    requires forall k | k in clauses && clauses[k] != Null :: Some(clauses[k]) in parts
    requires found <==> exists i, path | 0 <= i < |parts| :: parts[i].Some? && ViolationAt(parts[i].value, path)
    ensures found <==> !ReadsNoDocument(ctx, r)
  {
    if !found {
      forall p: Json | Some(p) in parts ensures Clean(p) {
        var i :| 0 <= i < |parts| && parts[i] == Some(p);
      }
    } else {
      var i, path :| 0 <= i < |parts| && parts[i].Some? && ViolationAt(parts[i].value, path);
      assert parts[i] in parts && !Clean(parts[i].value);
    }
  }

  /** Every aggregation of a sent request, at every depth, computes over documents the request's own
      query matches, and those all satisfy the policy. */
  lemma {:induction false} SentStaysInScope(sat: Sat, sem: Semantics, index: set<int>, q: Json, body: Fields, policy: seq<Json>, aggs: Fields)
    requires MeansAskedAndPolicy(q, body, policy) && AggsOk(ALLOWED, aggs, 1) && Shrinks(sem, ALLOWED)
    ensures var hits := set doc | doc in index && Matches(sat, q, doc);
            && AllWithin(sem, aggs, hits, hits)
            && forall doc | doc in hits :: Asked(sat, body, doc) && All(sat, policy, doc)
  {
    var hits := set doc | doc in index && Matches(sat, q, doc);
    AcceptedStaysWithin(sem, ALLOWED, aggs, 1, hits, hits);
  }
}
