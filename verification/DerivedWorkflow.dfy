/** Merging a derived workflow's nodes and connections over its base
    (pkg/workflow/engine/loader/derive.go). */
module DerivedWorkflow {
  import opened Json
  import opened DeepMerge
  import opened Wrappers

  datatype MergeError =
    | MissingId
    | RemoveUnknown(id: string)
    | PromptsMissing(id: string)
    | UnknownEndpoint(node: string)

  datatype Result<T> = Ok(value: T) | Err(error: MergeError)

  type Node = Fields

  function IdOf(n: Node): string { StringField(n, "id") }

  predicate Removes(n: Node) { "$remove" in n && n["$remove"] == Bool(true) }

  function Strip(n: Node): Node { n - {"$remove"} }

  function ObjectField(m: Fields, key: string): Fields {
    if key in m && m[key].Obj? then m[key].fields else map[]
  }

  // ---- specification of the node merge

  function Ids(nodes: seq<Node>): set<string> { set n | n in nodes :: IdOf(n) }

  function Removed(overlay: seq<Node>): set<string> {
    set n | n in overlay && Removes(n) :: IdOf(n)
  }

  /** Base node n with every overlay entry of its id merged in, in order. */
  function Overlaid(n: Node, overlay: seq<Node>): Node {
    if overlay == [] then n else
    var on := overlay[|overlay| - 1];
    var sofar := Overlaid(n, overlay[..|overlay| - 1]);
    if IdOf(on) == IdOf(n) && !Removes(on) then Merge(sofar, Strip(on)) else sofar
  }

  /** The index the loader files an id under: the last base node that has it. */
  predicate IsTarget(base: seq<Node>, x: nat)
    requires x < |base|
  {
    forall y | x < y < |base| :: IdOf(base[y]) != IdOf(base[x])
  }

  function MergedBase(base: seq<Node>, overlay: seq<Node>): seq<Node> {
    seq(|base|, x requires 0 <= x < |base| => if IsTarget(base, x) then Overlaid(base[x], overlay) else base[x])
  }

  function Surviving(nodes: seq<Node>, removed: set<string>): seq<Node> {
    if nodes == [] then [] else
    var rest := Surviving(nodes[..|nodes| - 1], removed);
    var n := nodes[|nodes| - 1];
    if IdOf(n) in removed then rest else rest + [n]
  }

  function Appended(baseIds: set<string>, overlay: seq<Node>): seq<Node> {
    if overlay == [] then [] else
    var rest := Appended(baseIds, overlay[..|overlay| - 1]);
    var on := overlay[|overlay| - 1];
    if Removes(on) || IdOf(on) in baseIds then rest else rest + [Strip(on)]
  }

  function MergedNodes(base: seq<Node>, overlay: seq<Node>): seq<Node> {
    Surviving(MergedBase(base, overlay), Removed(overlay)) + Appended(Ids(base), overlay)
  }

  /** An overlay entry the node merge refuses. */
  predicate BadEntry(baseIds: set<string>, on: Node) {
    IdOf(on) == "" || (Removes(on) && IdOf(on) !in baseIds)
  }

  function StripMarker(on: Node): Node { if Removes(on) then on else Strip(on) }

  function StripKept(overlay: seq<Node>): seq<Node> {
    seq(|overlay|, i requires 0 <= i < |overlay| => StripMarker(overlay[i]))
  }

  /** Only the marker goes. */
  lemma {:induction false} StripsMarker(n: Node)
    ensures "$remove" !in Strip(n)
    ensures forall k | k != "$remove" :: (k in Strip(n) <==> k in n) && (k in n ==> Strip(n)[k] == n[k])
  {
  }

  lemma {:induction false} OverlaidUnmarked(n: Node, overlay: seq<Node>)
    requires "$remove" !in n
    ensures "$remove" !in Overlaid(n, overlay)
  {
    if overlay != [] {
      OverlaidUnmarked(n, overlay[..|overlay| - 1]);
      StripsMarker(overlay[|overlay| - 1]);
    }
  }

  lemma {:induction false} AppendedUnmarked(baseIds: set<string>, overlay: seq<Node>)
    ensures forall n | n in Appended(baseIds, overlay) :: "$remove" !in n
  {
    if overlay != [] {
      AppendedUnmarked(baseIds, overlay[..|overlay| - 1]);
      StripsMarker(overlay[|overlay| - 1]);
    }
  }

  lemma {:induction false} SurvivorsAreNodes(nodes: seq<Node>, removed: set<string>)
    ensures forall n | n in Surviving(nodes, removed) :: n in nodes && IdOf(n) !in removed
  {
    if nodes != [] {
      SurvivorsAreNodes(nodes[..|nodes| - 1], removed);
    }
  }

  /** No merged node carries the marker, unless the base did. */
  lemma {:induction false} NoMarkerLeft(base: seq<Node>, overlay: seq<Node>)
    requires forall b | b in base :: "$remove" !in b
    ensures forall n | n in MergedNodes(base, overlay) :: "$remove" !in n
  {
    var merged := MergedBase(base, overlay);
    forall x | 0 <= x < |base| ensures "$remove" !in merged[x] {
      assert base[x] in base;
      OverlaidUnmarked(base[x], overlay);
    }
    SurvivorsAreNodes(merged, Removed(overlay));
    AppendedUnmarked(Ids(base), overlay);
  }

  // ---- prompt ownership

  /** The configs the overlay gives node id, folded: the first as it is, later ones merged over it. */
  function PromptConfig(overlay: seq<Node>, id: string): Option<Fields> {
    if overlay == [] then None else
    var on := overlay[|overlay| - 1];
    var sofar := PromptConfig(overlay[..|overlay| - 1], id);
    if IdOf(on) != id then sofar
    else if sofar.None? then Some(ObjectField(on, "config"))
    else Some(Merge(sofar.value, ObjectField(on, "config")))
  }

  /** The prompt text the overlay owns for field f of node id; empty when it gives none. */
  function OwnedPrompt(overlay: seq<Node>, id: string, f: string): string {
    match PromptConfig(overlay, id)
    case None => ""
    case Some(cfg) => StringField(cfg, f)
  }

  const FIXED := "systemMessageFixed"
  const FLEX := "systemMessageFlexible"

  predicate IsAgent(n: Node) { StringField(n, "type") == "ai/agent" }

  predicate OwnsPrompts(overlay: seq<Node>, n: Node) {
    IsAgent(n) ==> OwnedPrompt(overlay, IdOf(n), FIXED) != "" && OwnedPrompt(overlay, IdOf(n), FLEX) != ""
  }

  method EnforcePromptOwnership(merged: seq<Node>, overlay: seq<Node>) returns (err: Option<MergeError>)
    ensures err.None? <==> forall n | n in merged :: OwnsPrompts(overlay, n)
    ensures err.Some? ==> exists n | n in merged :: !OwnsPrompts(overlay, n) && err.value == PromptsMissing(IdOf(n))
  {
    var prompts: map<string, Fields> := map[];
    for i := 0 to |overlay|
      invariant forall id :: (if id in prompts then Some(prompts[id]) else None) == PromptConfig(overlay[..i], id)
    {
      var on := overlay[i];
      assert overlay[..i + 1][..i] == overlay[..i];
      var cfg := ObjectField(on, "config");
      prompts := prompts[IdOf(on) := if IdOf(on) in prompts then Merge(prompts[IdOf(on)], cfg) else cfg];
    }
    assert overlay[..|overlay|] == overlay;
    for i := 0 to |merged|
      invariant forall n | n in merged[..i] :: OwnsPrompts(overlay, n)
    {
      var n := merged[i];
      if IsAgent(n) {
        var cfg := if IdOf(n) in prompts then prompts[IdOf(n)] else map[];
        if StringField(cfg, FIXED) == "" || StringField(cfg, FLEX) == "" {
          assert !OwnsPrompts(overlay, n);
          return Some(PromptsMissing(IdOf(n)));
        }
      }
      assert OwnsPrompts(overlay, n);
    }
    err := None;
  }

  // ---- the node merge itself; the overlay's kept entries lose their $remove key in place

  method IndexById(base: seq<Node>) returns (byID: map<string, nat>)
    ensures byID.Keys == Ids(base)
    ensures forall id | id in byID :: byID[id] < |base| && IdOf(base[byID[id]]) == id && IsTarget(base, byID[id])
  {
    byID := map[];
    for i := 0 to |base|
      invariant byID.Keys == Ids(base[..i])
      invariant forall id | id in byID :: byID[id] < i && IdOf(base[byID[id]]) == id && IsTarget(base[..i], byID[id])
    {
      assert base[..i + 1] == base[..i] + [base[i]];
      byID := byID[IdOf(base[i]) := i];
    }
    assert base[..|base|] == base;
  }

  method DropRemoved(nodes: seq<Node>, removed: set<string>) returns (out: seq<Node>)
    ensures out == Surviving(nodes, removed)
  {
    out := [];
    for i := 0 to |nodes|
      invariant out == Surviving(nodes[..i], removed)
    {
      assert nodes[..i + 1][..i] == nodes[..i];
      if IdOf(nodes[i]) !in removed {
        out := out + [nodes[i]];
      }
    }
    assert nodes[..|nodes|] == nodes;
  }

  datatype Merging = Merging(merged: seq<Node>, appended: seq<Node>, removed: set<string>)

  function MergingAfter(base: seq<Node>, overlay: seq<Node>): Merging {
    Merging(MergedBase(base, overlay), Appended(Ids(base), overlay), Removed(overlay))
  }

  /** One overlay entry: an error, a removal, an addition, or a merge into the base node of its id. */
  method ApplyEntry(base: seq<Node>, byID: map<string, nat>, ghost before: seq<Node>, on: Node, m: Merging)
    returns (r: Result<Merging>)
    requires byID.Keys == Ids(base)
    requires forall id | id in byID :: byID[id] < |base| && IdOf(base[byID[id]]) == id && IsTarget(base, byID[id])
    requires m == MergingAfter(base, before)
    ensures r.Ok? <==> !BadEntry(Ids(base), on)
    ensures r.Ok? ==> r.value == MergingAfter(base, before + [on])
  {
    var id := IdOf(on);
    if id == "" {
      return Err(MissingId);
    }
    if Removes(on) {
      if id !in byID {
        return Err(RemoveUnknown(id));
      }
      EntryRemoves(base, before, on);
      return Ok(m.(removed := m.removed + {id}));
    }
    if id !in byID {
      EntryAppends(base, before, on);
      return Ok(m.(appended := m.appended + [Strip(on)]));
    }
    var at := byID[id];
    EntryMerges(base, before, on, at);
    return Ok(m.(merged := m.merged[at := Merge(m.merged[at], Strip(on))]));
  }

  lemma {:induction false} EntryRemoves(base: seq<Node>, before: seq<Node>, on: Node)
    requires Removes(on)
    ensures MergingAfter(base, before + [on]) ==
            Merging(MergedBase(base, before), Appended(Ids(base), before), Removed(before) + {IdOf(on)})
  {
    MergedBaseSkips(base, before, on);
    RemovedAdd(before, on);
    assert (before + [on])[..|before|] == before;
  }

  lemma {:induction false} EntryAppends(base: seq<Node>, before: seq<Node>, on: Node)
    requires !Removes(on) && IdOf(on) !in Ids(base)
    ensures MergingAfter(base, before + [on]) ==
            Merging(MergedBase(base, before), Appended(Ids(base), before) + [Strip(on)], Removed(before))
  {
    MergedBaseSkips(base, before, on);
    RemovedAdd(before, on);
    assert (before + [on])[..|before|] == before;
  }

  lemma {:induction false} EntryMerges(base: seq<Node>, before: seq<Node>, on: Node, at: nat)
    requires at < |base| && IdOf(base[at]) == IdOf(on) && IsTarget(base, at) && !Removes(on)
    ensures MergingAfter(base, before + [on]) ==
            Merging(MergedBase(base, before)[at := Merge(MergedBase(base, before)[at], Strip(on))], Appended(Ids(base), before), Removed(before))
  {
    MergedBaseStep(base, before, on, at);
    RemovedAdd(before, on);
    assert base[at] in base;
    assert (before + [on])[..|before|] == before;
  }

  lemma {:induction false} RemovedAdd(before: seq<Node>, on: Node)
    ensures Removed(before + [on]) == Removed(before) + if Removes(on) then {IdOf(on)} else {}
  {
  }

  /** Applies overlay entry i; an entry that stays loses its marker. */
  method ApplyAt(base: seq<Node>, byID: map<string, nat>, ghost before: seq<Node>, overlay: array<Node>, i: nat, m: Merging)
    returns (r: Result<Merging>)
    requires i < overlay.Length && byID.Keys == Ids(base)
    requires forall id | id in byID :: byID[id] < |base| && IdOf(base[byID[id]]) == id && IsTarget(base, byID[id])
    requires m == MergingAfter(base, before)
    modifies overlay
    ensures r.Ok? <==> !BadEntry(Ids(base), old(overlay[i]))
    ensures r.Ok? ==> r.value == MergingAfter(base, before + [old(overlay[i])])
    ensures r.Ok? ==> overlay[..] == old(overlay[..])[i := StripMarker(old(overlay[i]))]
  {
    r := ApplyEntry(base, byID, before, overlay[i], m);
    if r.Ok? && !Removes(overlay[i]) {
      overlay[i] := Strip(overlay[i]);
    }
  }

  predicate NoneBad(baseIds: set<string>, overlay: seq<Node>) { forall on | on in overlay :: !BadEntry(baseIds, on) }

  /** The overlay with the markers of its first i entries stripped. */
  function StrippedTo(overlay: seq<Node>, i: nat): seq<Node>
    requires i <= |overlay|
  {
    StripKept(overlay[..i]) + overlay[i..]
  }

  lemma {:induction false} StripsOneMore(baseIds: set<string>, overlay: seq<Node>, i: nat)
    requires i < |overlay|
    ensures StrippedTo(overlay, i)[i] == overlay[i]
    ensures StrippedTo(overlay, i)[i := StripMarker(overlay[i])] == StrippedTo(overlay, i + 1)
    ensures NoneBad(baseIds, overlay[..i]) && !BadEntry(baseIds, overlay[i]) ==> NoneBad(baseIds, overlay[..i + 1])
    ensures overlay[..i] + [overlay[i]] == overlay[..i + 1]
  {
    assert overlay[..i + 1] == overlay[..i] + [overlay[i]];
    assert StripKept(overlay[..i + 1]) == StripKept(overlay[..i]) + [StripMarker(overlay[i])];
  }

  method ApplyEntries(base: seq<Node>, overlay: array<Node>) returns (r: Result<Merging>)
    modifies overlay
    ensures r.Ok? <==> NoneBad(Ids(base), old(overlay[..]))
    ensures r.Ok? ==> r.value == MergingAfter(base, old(overlay[..]))
    ensures r.Ok? ==> overlay[..] == StripKept(old(overlay[..]))
  {
    var byID := IndexById(base);
    ghost var ov := overlay[..];
    MergedBaseOfNothing(base);
    var m := Merging(base, [], {});
    for i := 0 to overlay.Length
      invariant NoneBad(Ids(base), ov[..i])
      invariant overlay[..] == StrippedTo(ov, i)
      invariant m == MergingAfter(base, ov[..i])
    {
      StripsOneMore(Ids(base), ov, i);
      assert overlay[i] == overlay[..][i];
      var step := ApplyAt(base, byID, ov[..i], overlay, i, m);
      if step.Err? {
        assert ov[i] in ov;
        return Err(step.error);
      }
      m := step.value;
    }
    assert ov[..|ov|] == ov;
    assert StrippedTo(ov, |ov|) == StripKept(ov);
    r := Ok(m);
  }

  method MergeNodes(base: seq<Node>, overlay: array<Node>) returns (r: Result<(seq<Node>, set<string>)>)
    modifies overlay
    ensures r.Ok? <==>
            && NoneBad(Ids(base), old(overlay[..]))
            && forall n | n in MergedNodes(base, old(overlay[..])) :: OwnsPrompts(old(overlay[..]), n)
    ensures r.Ok? ==> r.value == (MergedNodes(base, old(overlay[..])), Removed(old(overlay[..])))
    ensures r.Ok? ==> overlay[..] == StripKept(old(overlay[..]))
  {
    ghost var ov := overlay[..];
    var m := ApplyEntries(base, overlay);
    if m.Err? {
      return Err(m.error);
    }
    var out := DropRemoved(m.value.merged, m.value.removed);
    out := out + m.value.appended;
    StrippedPrompts(ov);
    var err := EnforcePromptOwnership(out, overlay[..]);
    if err.Some? {
      return Err(err.value);
    }
    r := Ok((out, m.value.removed));
  }

  lemma {:induction false} MergedBaseOfNothing(base: seq<Node>)
    ensures MergedBase(base, []) == base
  {
  }

  lemma {:induction false} MergedBaseSkips(base: seq<Node>, ov: seq<Node>, on: Node)
    requires Removes(on) || IdOf(on) !in Ids(base)
    ensures MergedBase(base, ov + [on]) == MergedBase(base, ov)
  {
    assert (ov + [on])[..|ov|] == ov;
    forall x | 0 <= x < |base| ensures Overlaid(base[x], ov + [on]) == Overlaid(base[x], ov) {
      assert base[x] in base;
    }
  }

  lemma {:induction false} MergedBaseStep(base: seq<Node>, ov: seq<Node>, on: Node, at: nat)
    requires at < |base| && IdOf(base[at]) == IdOf(on) && IsTarget(base, at) && !Removes(on)
    ensures MergedBase(base, ov + [on]) == MergedBase(base, ov)[at := Merge(MergedBase(base, ov)[at], Strip(on))]
  {
    assert (ov + [on])[..|ov|] == ov;
  }

  /** Stripping the $remove markers changes no prompt. */
  lemma {:induction false} StrippedPrompts(overlay: seq<Node>)
    ensures forall id :: PromptConfig(StripKept(overlay), id) == PromptConfig(overlay, id)
    ensures forall n :: OwnsPrompts(StripKept(overlay), n) == OwnsPrompts(overlay, n)
  {
    if overlay != [] {
      var head := overlay[..|overlay| - 1];
      assert StripKept(overlay)[..|overlay| - 1] == StripKept(head);
      StrippedPrompts(head);
    }
    forall n ensures OwnsPrompts(StripKept(overlay), n) == OwnsPrompts(overlay, n) {
      assert PromptConfig(StripKept(overlay), IdOf(n)) == PromptConfig(overlay, IdOf(n));
    }
  }
}
