/** The prompt carve-out of derived workflows (pkg/workflow/engine/loader/derive.go): what the merge of
    nodes and its ownership check add up to. */
module DerivedPrompts {
  import opened Json
  import opened DeepMerge
  import opened DerivedWorkflow
  import opened Wrappers

  /** The overlay's own condition: a config, where present, is an object. */
  predicate ConfigsAreObjects(overlay: seq<Node>) {
    forall on: Node | on in overlay && "config" in on :: on["config"].Obj?
  }

  predicate UniqueIds(nodes: seq<Node>) {
    forall i, j | 0 <= i < j < |nodes| :: IdOf(nodes[i]) != IdOf(nodes[j])
  }

  /** Field f of n's config is the text the overlay owns for it. */
  predicate PromptIsOwned(overlay: seq<Node>, n: Node, f: string) {
    && "config" in n && n["config"].Obj?
    && f in n["config"].fields
    && n["config"].fields[f] == Str(OwnedPrompt(overlay, IdOf(n), f))
  }

  /** Merging entries of its id keeps a node's id. */
  lemma {:induction false} OverlaidKeepsId(n: Node, overlay: seq<Node>)
    requires IdOf(n) != ""
    ensures IdOf(Overlaid(n, overlay)) == IdOf(n)
  {
    if overlay != [] {
      OverlaidKeepsId(n, overlay[..|overlay| - 1]);
    }
  }

  /** After the last entry of this id that mentions field f, one gives a config that is no object. */
  predicate Lost(overlay: seq<Node>, id: string, f: string) {
    overlay != [] &&
    var head, on := overlay[..|overlay| - 1], overlay[|overlay| - 1];
    if IdOf(on) != id then Lost(head, id, f)
    else if "config" in on && !on["config"].Obj? then true
    else f !in ObjectField(on, "config") && Lost(head, id, f)
  }

  /** Field f of n's config is the text the overlay owns for it, or lost; it is never the base's. */
  predicate OwnedOrLost(overlay: seq<Node>, n: Node, f: string) {
    if Lost(overlay, IdOf(n), f) then f !in ObjectField(n, "config") else PromptIsOwned(overlay, n, f)
  }

  lemma {:induction false} ObjectsLoseNothing(overlay: seq<Node>, id: string, f: string)
    requires ConfigsAreObjects(overlay)
    ensures !Lost(overlay, id, f)
  {
    if overlay != [] {
      assert overlay[|overlay| - 1] in overlay;
      ObjectsLoseNothing(overlay[..|overlay| - 1], id, f);
    }
  }

  /** One overlay entry carries a text in field f from the fold to the merged config, or loses it. */
  lemma {:induction false} OwnedStep(was: Node, on: Node, folded: Fields, f: string, lost: bool)
    requires StringField(Merge(folded, ObjectField(on, "config")), f) != ""
    requires f !in ObjectField(on, "config") ==>
               if lost then f !in ObjectField(was, "config")
               else f in ObjectField(was, "config") && ObjectField(was, "config")[f] == Str(StringField(folded, f))
    ensures var now := Merge(was, Strip(on));
            if "config" in on && !on["config"].Obj? then f !in ObjectField(now, "config")
            else if f !in ObjectField(on, "config") && lost then f !in ObjectField(now, "config")
            else f in ObjectField(now, "config") &&
                 ObjectField(now, "config")[f] == Str(StringField(Merge(folded, ObjectField(on, "config")), f))
  {
    var cfg, now := ObjectField(on, "config"), Merge(was, Strip(on));
    if "config" !in on {
      assert ObjectField(now, "config") == ObjectField(was, "config");
    } else if on["config"].Obj? {
      assert Strip(on)["config"] == Obj(cfg);
      assert now["config"] ==
             if "config" in was && was["config"].Obj? then Obj(Merge(was["config"].fields, cfg)) else Obj(cfg);
    } else {
      assert Strip(on)["config"] == on["config"];
    }
  }

  lemma {:induction false} OverlaidOwns(n: Node, overlay: seq<Node>, f: string)
    requires IdOf(n) !in Removed(overlay) && IdOf(n) != ""
    requires OwnedPrompt(overlay, IdOf(n), f) != ""
    ensures OwnedOrLost(overlay, Overlaid(n, overlay), f)
  {
    var id := IdOf(n);
    var head, on := overlay[..|overlay| - 1], overlay[|overlay| - 1];
    assert forall x | x in head :: x in overlay;
    assert on in overlay;
    OverlaidKeepsId(n, overlay);
    OverlaidKeepsId(n, head);
    if IdOf(on) != id {
      OverlaidOwns(n, head, f);
      return;
    }
    var cfg := ObjectField(on, "config");
    var folded: Fields := if PromptConfig(head, id).Some? then PromptConfig(head, id).value else map[];
    assert StringField(Merge(folded, cfg), f) == OwnedPrompt(overlay, id, f);
    if f !in cfg {
      assert StringField(folded, f) == StringField(Merge(folded, cfg), f);
      OverlaidOwns(n, head, f);
    }
    OwnedStep(Overlaid(n, head), on, folded, f, Lost(head, id, f));
  }

  lemma {:induction false} OwnedNeedsEntry(overlay: seq<Node>, id: string)
    requires PromptConfig(overlay, id).Some?
    ensures exists i :: 0 <= i < |overlay| && IdOf(overlay[i]) == id
  {
    var head := overlay[..|overlay| - 1];
    if IdOf(overlay[|overlay| - 1]) != id {
      OwnedNeedsEntry(head, id);
      var i :| 0 <= i < |head| && IdOf(head[i]) == id;
      assert IdOf(overlay[i]) == id;
    }
  }

  lemma {:induction false} SurvivingFrom(nodes: seq<Node>, removed: set<string>, n: Node)
    requires n in Surviving(nodes, removed)
    ensures n in nodes && IdOf(n) !in removed
  {
    var head := nodes[..|nodes| - 1];
    if n in Surviving(head, removed) {
      SurvivingFrom(head, removed, n);
    }
  }

  /** An appended node stands for an overlay entry of its id. */
  lemma {:induction false} AppendedFrom(baseIds: set<string>, overlay: seq<Node>, n: Node)
    requires n in Appended(baseIds, overlay)
    ensures IdOf(n) !in baseIds
    ensures exists i :: 0 <= i < |overlay| && n == Strip(overlay[i])
  {
    var head := overlay[..|overlay| - 1];
    if n in Appended(baseIds, head) {
      AppendedFrom(baseIds, head, n);
      var i :| 0 <= i < |head| && n == Strip(head[i]);
      assert n == Strip(overlay[i]);
    } else {
      assert n == Strip(overlay[|overlay| - 1]);
    }
  }

  lemma {:induction false} AppendedHas(baseIds: set<string>, overlay: seq<Node>, x: nat)
    requires x < |overlay| && !Removes(overlay[x]) && IdOf(overlay[x]) !in baseIds
    ensures exists i :: 0 <= i < |Appended(baseIds, overlay)| && Appended(baseIds, overlay)[i] == Strip(overlay[x])
  {
    var head := overlay[..|overlay| - 1];
    var rest, all := Appended(baseIds, head), Appended(baseIds, overlay);
    assert rest == all[..|rest|];
    if x < |head| {
      AppendedHas(baseIds, head, x);
      var i :| 0 <= i < |rest| && rest[i] == Strip(head[x]);
      assert all[i] == Strip(overlay[x]);
    } else {
      assert all[|rest|] == Strip(overlay[x]);
    }
  }

  /** Two overlay entries that add one id are two nodes of one id in the output. */
  lemma {:induction false} AdditionsOfOneId(baseIds: set<string>, overlay: seq<Node>, x: nat, y: nat)
    requires x < y < |overlay| && IdOf(overlay[x]) == IdOf(overlay[y]) && IdOf(overlay[x]) !in baseIds
    requires !Removes(overlay[x]) && !Removes(overlay[y])
    ensures !UniqueIds(Appended(baseIds, overlay))
  {
    var head := overlay[..|overlay| - 1];
    var rest, all := Appended(baseIds, head), Appended(baseIds, overlay);
    assert rest == all[..|rest|];
    if y == |head| {
      AppendedHas(baseIds, head, x);
      var i :| 0 <= i < |rest| && rest[i] == Strip(head[x]);
      assert IdOf(all[i]) == IdOf(all[|all| - 1]);
    } else {
      AdditionsOfOneId(baseIds, head, x, y);
    }
  }

  lemma {:induction false} PromptConfigOfOnly(overlay: seq<Node>, id: string, at: nat)
    requires at < |overlay| && forall i | 0 <= i < |overlay| :: IdOf(overlay[i]) == id <==> i == at
    ensures PromptConfig(overlay, id) == Some(ObjectField(overlay[at], "config"))
  {
    var head := overlay[..|overlay| - 1];
    if at < |head| {
      PromptConfigOfOnly(head, id, at);
    } else if PromptConfig(head, id).Some? {
      OwnedNeedsEntry(head, id);
    }
  }

  /** No id outside the base is added twice. */
  predicate NoDoubleAdd(base: seq<Node>, overlay: seq<Node>) {
    forall i, j | 0 <= i < j < |overlay| && !Removes(overlay[i]) && !Removes(overlay[j]) && IdOf(overlay[i]) == IdOf(overlay[j]) ::
      IdOf(overlay[i]) in Ids(base)
  }

  /** No id the overlay names is on two base nodes, unless it removes them. */
  predicate NoDoubleBase(base: seq<Node>, overlay: seq<Node>) {
    forall i, j, k | 0 <= i < j < |base| && 0 <= k < |overlay| && IdOf(base[i]) == IdOf(base[j]) == IdOf(overlay[k]) ::
      IdOf(base[i]) in Removed(overlay)
  }

  /** The merge accepts the overlay over the base. */
  predicate Accepted(base: seq<Node>, overlay: seq<Node>) {
    && NoneBad(Ids(base), overlay)
    && forall n | n in MergedNodes(base, overlay) :: OwnsPrompts(overlay, n)
  }

  lemma {:induction false} OnlyEntryKeeps(overlay: seq<Node>, id: string, at: nat, f: string)
    requires at < |overlay| && forall i | 0 <= i < |overlay| :: IdOf(overlay[i]) == id <==> i == at
    requires f in ObjectField(overlay[at], "config")
    ensures !Lost(overlay, id, f)
  {
    if at < |overlay| - 1 {
      OnlyEntryKeeps(overlay[..|overlay| - 1], id, at, f);
    }
  }

  /** An appended node stands for the only overlay entry of its id. */
  lemma {:induction false} AppendedIsOwned(base: seq<Node>, overlay: seq<Node>, n: Node, f: string)
    requires n in Appended(Ids(base), overlay) && NoDoubleAdd(base, overlay)
    requires NoneBad(Ids(base), overlay)
    requires OwnedPrompt(overlay, IdOf(n), f) != ""
    ensures PromptIsOwned(overlay, n, f) && !Lost(overlay, IdOf(n), f)
  {
    AppendedFrom(Ids(base), overlay, n);
    var at :| 0 <= at < |overlay| && n == Strip(overlay[at]);
    forall i | 0 <= i < |overlay| ensures IdOf(overlay[i]) == IdOf(n) <==> i == at {
      assert overlay[i] in overlay && overlay[at] in overlay;
      assert IdOf(overlay[at]) == IdOf(n);
    }
    PromptConfigOfOnly(overlay, IdOf(n), at);
    OnlyEntryKeeps(overlay, IdOf(n), at, f);
  }

  /** Whatever the base says: in an accepted merge in which no id the overlay names ends up on two
      nodes, the overlay gives both prompts of every agent, and the agent's config has them or has lost
      them to a later config that is no object; it never has the base's. */
  lemma {:induction false} PromptsNeverInherited(base: seq<Node>, overlay: seq<Node>, n: Node)
    requires NoDoubleAdd(base, overlay) && NoDoubleBase(base, overlay)
    requires Accepted(base, overlay)
    requires n in MergedNodes(base, overlay) && IsAgent(n)
    ensures OwnedPrompt(overlay, IdOf(n), FIXED) != "" && OwnedPrompt(overlay, IdOf(n), FLEX) != ""
    ensures OwnedOrLost(overlay, n, FIXED) && OwnedOrLost(overlay, n, FLEX)
    ensures ConfigsAreObjects(overlay) ==> PromptIsOwned(overlay, n, FIXED) && PromptIsOwned(overlay, n, FLEX)
  {
    var kept := Surviving(MergedBase(base, overlay), Removed(overlay));
    assert OwnsPrompts(overlay, n);
    if n in kept {
      SurvivingFrom(MergedBase(base, overlay), Removed(overlay), n);
      var x :| 0 <= x < |base| && MergedBase(base, overlay)[x] == n;
      assert PromptConfig(overlay, IdOf(n)).Some?;
      OwnedNeedsEntry(overlay, IdOf(n));
      var k :| 0 <= k < |overlay| && IdOf(overlay[k]) == IdOf(n);
      assert overlay[k] in overlay && IdOf(n) != "";
      MergedIds(base, overlay, x);
      assert IsTarget(base, x);
      OverlaidOwns(base[x], overlay, FIXED);
      OverlaidOwns(base[x], overlay, FLEX);
    } else {
      AppendedIsOwned(base, overlay, n, FIXED);
      AppendedIsOwned(base, overlay, n, FLEX);
    }
    if ConfigsAreObjects(overlay) {
      ObjectsLoseNothing(overlay, IdOf(n), FIXED);
      ObjectsLoseNothing(overlay, IdOf(n), FLEX);
    }
  }

  /** Under the same conditions every agent has its prompts exactly when none has been lost. */
  lemma {:induction false} PromptsOwnedIff(base: seq<Node>, overlay: seq<Node>)
    requires NoDoubleAdd(base, overlay) && NoDoubleBase(base, overlay) && Accepted(base, overlay)
    ensures PromptsOwned(base, overlay) <==>
            forall n | n in MergedNodes(base, overlay) && IsAgent(n) ::
              !Lost(overlay, IdOf(n), FIXED) && !Lost(overlay, IdOf(n), FLEX)
  {
    forall n | n in MergedNodes(base, overlay) && IsAgent(n)
      ensures OwnedOrLost(overlay, n, FIXED) && OwnedOrLost(overlay, n, FLEX)
    {
      PromptsNeverInherited(base, overlay, n);
    }
  }

  function AgentOnly(id: string): Node { map["id" := Str(id), "type" := Str("ai/agent")] }

  function GivesPrompts(id: string, text: string): Node { map["id" := Str(id), "config" := Obj(Prompts(text))] }

  function GivesNull(id: string): Node { map["id" := Str(id), "config" := Null] }

  lemma {:induction false} NullTakesBack(id: string, text: string)
    ensures Merge(Merge(AgentOnly(id), GivesPrompts(id, text)), GivesNull(id)) == AgentOnly(id)
  {
  }

  lemma {:induction false} OverlaidTwice(n: Node, first: Node, second: Node)
    requires !Removes(first) && !Removes(second) && IdOf(first) == IdOf(n) && IdOf(second) == IdOf(n)
    ensures Overlaid(n, [first, second]) == Merge(Merge(n, Strip(first)), Strip(second))
  {
    var ov := [first, second];
    assert ov[..1] == [first] && [first][..0] == [];
    assert Overlaid(n, []) == n && Overlaid(n, [first]) == Merge(n, Strip(first));
  }

  lemma {:induction false} NothingAppended(baseIds: set<string>, overlay: seq<Node>)
    requires forall on | on in overlay :: IdOf(on) in baseIds
    ensures Appended(baseIds, overlay) == []
  {
    if overlay != [] {
      assert overlay[|overlay| - 1] in overlay;
      NothingAppended(baseIds, overlay[..|overlay| - 1]);
    }
  }

  /** Entries of the one base node's id, none of them removing it. */
  lemma {:induction false} OneNodeMerges(n: Node, overlay: seq<Node>)
    requires IdOf(n) != "" && forall on | on in overlay :: IdOf(on) == IdOf(n) && !Removes(on)
    ensures MergedNodes([n], overlay) == [Overlaid(n, overlay)] && Ids([n]) == {IdOf(n)}
  {
    var m := Overlaid(n, overlay);
    assert n in [n] && Removed(overlay) == {};
    assert MergedBase([n], overlay) == [m];
    assert [m][..0] == [] && Surviving([m], {}) == [m];
    NothingAppended(Ids([n]), overlay);
  }

  lemma {:induction false} NullConfigMerges(id: string, text: string)
    requires id != ""
    ensures MergedNodes([AgentOnly(id)], [GivesPrompts(id, text), GivesNull(id)]) == [AgentOnly(id)]
    ensures Ids([AgentOnly(id)]) == {id}
  {
    var agent, first, second := AgentOnly(id), GivesPrompts(id, text), GivesNull(id);
    assert Strip(first) == first && Strip(second) == second;
    OneNodeMerges(agent, [first, second]);
    OverlaidTwice(agent, first, second);
    NullTakesBack(id, text);
  }

  lemma {:induction false} NullConfigFolds(id: string, text: string)
    ensures PromptConfig([GivesPrompts(id, text), GivesNull(id)], id) == Some(Prompts(text))
    ensures Lost([GivesPrompts(id, text), GivesNull(id)], id, FIXED)
  {
    var first, second := GivesPrompts(id, text), GivesNull(id);
    assert [first, second][..1] == [first] && [first][..0] == [];
    assert PromptConfig([first], id) == Some(Prompts(text));
    assert Merge(Prompts(text), map[]) == Prompts(text);
  }

  /** An agent of the base whose second entry has a null config: the check folds the first entry's
      prompts and passes, yet the merged node has no config. */
  lemma {:induction false} NullConfigDropsPrompts(id: string, text: string)
    requires id != "" && text != ""
    ensures var base, overlay := [AgentOnly(id)], [GivesPrompts(id, text), GivesNull(id)];
            && NoDoubleAdd(base, overlay) && NoDoubleBase(base, overlay)
            && Accepted(base, overlay) && MergedNodes(base, overlay) == base
            && Lost(overlay, id, FIXED) && !PromptsOwned(base, overlay)
  {
    NullConfigMerges(id, text);
    NullConfigFolds(id, text);
    assert AgentOnly(id) in [AgentOnly(id)];
    assert !PromptIsOwned([GivesPrompts(id, text), GivesNull(id)], AgentOnly(id), FIXED);
  }

  // ---- and that condition is exact

  /** Only the ids agree. */
  predicate SameIds(a: seq<Node>, b: seq<Node>) {
    |a| == |b| && forall i | 0 <= i < |a| :: IdOf(a[i]) == IdOf(b[i])
  }

  /** Only the ids and the removals agree. */
  predicate SameEntries(a: seq<Node>, b: seq<Node>) {
    SameIds(a, b) && forall i | 0 <= i < |a| :: Removes(a[i]) == Removes(b[i])
  }

  /** Every agent's prompt fields are the texts folded from the overlay. */
  predicate PromptsOwned(base: seq<Node>, overlay: seq<Node>) {
    forall n | n in MergedNodes(base, overlay) && IsAgent(n) :: PromptIsOwned(overlay, n, FIXED) && PromptIsOwned(overlay, n, FLEX)
  }

  /** They are, however the entries of these ids are filled in, as long as the merge accepts them. */
  ghost predicate AlwaysOwned(base: seq<Node>, overlay: seq<Node>) {
    forall b, o | SameIds(base, b) && SameEntries(overlay, o) && ConfigsAreObjects(o) && Accepted(b, o) :: PromptsOwned(b, o)
  }

  function Prompts(text: string): Fields { map[FIXED := Str(text), FLEX := Str(text)] }

  /** An entry of n's id and removal: an agent with both prompts this text, or nothing more for "". */
  function Filled(n: Node, text: string): Node {
    map["id" := Str(IdOf(n))]
    + (if Removes(n) then map["$remove" := Bool(true)] else map[])
    + (if text == "" then map[] else map["type" := Str("ai/agent"), "config" := Obj(Prompts(text))])
  }

  function Fill(nodes: seq<Node>, texts: nat -> string): seq<Node> {
    seq(|nodes|, i requires 0 <= i < |nodes| => Filled(nodes[i], texts(i)))
  }

  lemma {:induction false} FilledShape(n: Node, text: string)
    ensures var f := Filled(n, text);
            && IdOf(f) == IdOf(n) && Removes(f) == Removes(n) && IsAgent(f) == (text != "")
            && ("type" in f <==> text != "")
            && ObjectField(f, "config") == (if text == "" then map[] else Prompts(text))
            && ("config" in f ==> f["config"].Obj?)
            && StringField(ObjectField(f, "config"), FIXED) == text
            && IdOf(Strip(f)) == IdOf(f) && IsAgent(Strip(f)) == IsAgent(f)
            && ObjectField(Strip(f), "config") == ObjectField(f, "config")
  {
  }

  lemma {:induction false} FillShape(nodes: seq<Node>, texts: nat -> string)
    ensures SameEntries(nodes, Fill(nodes, texts)) && ConfigsAreObjects(Fill(nodes, texts))
    ensures Ids(Fill(nodes, texts)) == Ids(nodes) && Removed(Fill(nodes, texts)) == Removed(nodes)
  {
    var filled := Fill(nodes, texts);
    forall i | 0 <= i < |nodes| ensures IdOf(filled[i]) == IdOf(nodes[i]) && Removes(filled[i]) == Removes(nodes[i]) {
      FilledShape(nodes[i], texts(i));
    }
    forall n: Node | n in filled ensures IdOf(n) in Ids(nodes) && ("config" in n ==> n["config"].Obj?) && (Removes(n) ==> IdOf(n) in Removed(nodes)) {
      var i :| 0 <= i < |filled| && filled[i] == n;
      FilledShape(nodes[i], texts(i));
      assert nodes[i] in nodes;
    }
    forall n | n in nodes ensures IdOf(n) in Ids(filled) && (Removes(n) ==> IdOf(n) in Removed(filled)) {
      var i :| 0 <= i < |nodes| && nodes[i] == n;
      assert filled[i] in filled;
    }
  }

  /** The last text given for an id, or "". */
  function LastText(nodes: seq<Node>, texts: nat -> string, id: string): string {
    if nodes == [] then "" else
    var n := |nodes| - 1;
    if IdOf(nodes[n]) == id && texts(n) != "" then texts(n) else LastText(nodes[..n], texts, id)
  }

  /** A fold that owns this text, or nothing for "". */
  predicate FoldOf(cfg: Option<Fields>, text: string) {
    if text == "" then cfg.None? || cfg == Some(map[]) else cfg == Some(Prompts(text))
  }

  lemma {:induction false} FillFoldsTo(nodes: seq<Node>, texts: nat -> string, id: string)
    ensures FoldOf(PromptConfig(Fill(nodes, texts), id), LastText(nodes, texts, id))
  {
    if nodes != [] {
      var n := |nodes| - 1;
      assert Fill(nodes, texts)[..n] == Fill(nodes[..n], texts);
      FillFoldsTo(nodes[..n], texts, id);
      FilledShape(nodes[n], texts(n));
      FoldsOn(PromptConfig(Fill(nodes[..n], texts), id), LastText(nodes[..n], texts, id), texts(n));
    }
  }

  lemma {:induction false} FoldsOn(cfg: Option<Fields>, text: string, next: string)
    requires FoldOf(cfg, text)
    ensures var more: Fields := if next == "" then map[] else Prompts(next);
            FoldOf(Some(if cfg.None? then more else Merge(cfg.value, more)), if next != "" then next else text)
  {
    PromptsReplace(text, next);
  }

  /** The overlay's fold owns the last text. */
  lemma {:induction false} FillFolds(nodes: seq<Node>, texts: nat -> string, id: string)
    ensures OwnedPrompt(Fill(nodes, texts), id, FIXED) == OwnedPrompt(Fill(nodes, texts), id, FLEX) == LastText(nodes, texts, id)
  {
    FillFoldsTo(nodes, texts, id);
  }

  lemma {:induction false} PromptsReplace(a: string, b: string)
    ensures Merge(map[], Prompts(b)) == Prompts(b) && Merge(Prompts(a), map[]) == Prompts(a) && Merge(map[], map[]) == map[]
    ensures Merge(Prompts(a), Prompts(b)) == Prompts(b)
  {
  }

  lemma {:induction false} LastTextGiven(nodes: seq<Node>, texts: nat -> string, id: string, x: nat)
    requires x < |nodes| && IdOf(nodes[x]) == id && texts(x) != ""
    ensures LastText(nodes, texts, id) != ""
    ensures (forall i | x < i < |nodes| :: texts(i) == "") ==> LastText(nodes, texts, id) == texts(x)
  {
    if x < |nodes| - 1 {
      LastTextGiven(nodes[..|nodes| - 1], texts, id, x);
    }
  }

  /** A base node stays no agent when neither it nor its entries are. */
  lemma {:induction false} UntypedStays(n: Node, overlay: seq<Node>)
    requires "type" !in n && forall on | on in overlay && IdOf(on) == IdOf(n) :: "type" !in on
    ensures "type" !in Overlaid(n, overlay)
  {
    if overlay != [] {
      assert overlay[|overlay| - 1] in overlay;
      UntypedStays(n, overlay[..|overlay| - 1]);
    }
  }

  lemma {:induction false} OverlaidWithoutEntries(n: Node, overlay: seq<Node>)
    requires IdOf(n) == "" && forall on | on in overlay :: IdOf(on) != ""
    ensures Overlaid(n, overlay) == n
  {
    if overlay != [] {
      assert overlay[|overlay| - 1] in overlay;
      OverlaidWithoutEntries(n, overlay[..|overlay| - 1]);
    }
  }

  lemma {:induction false} MergedIds(base: seq<Node>, overlay: seq<Node>, x: nat)
    requires x < |base| && forall on | on in overlay :: IdOf(on) != ""
    ensures IdOf(MergedBase(base, overlay)[x]) == IdOf(base[x])
  {
    if IdOf(base[x]) == "" {
      OverlaidWithoutEntries(base[x], overlay);
    } else {
      OverlaidKeepsId(base[x], overlay);
    }
  }

  predicate TextsFor(nodes: seq<Node>, texts: nat -> string, id: string) {
    forall i | 0 <= i < |nodes| && texts(i) != "" :: IdOf(nodes[i]) == id
  }

  /** In these merges only nodes of the id filled in are agents. */
  lemma {:induction false} AgentsHaveTexts(base: seq<Node>, overlay: seq<Node>, bt: nat -> string, ot: nat -> string, id: string, n: Node)
    requires NoneBad(Ids(base), overlay)
    requires TextsFor(base, bt, id) && TextsFor(overlay, ot, id)
    requires n in MergedNodes(Fill(base, bt), Fill(overlay, ot)) && IsAgent(n)
    ensures IdOf(n) == id
  {
    var b, o := Fill(base, bt), Fill(overlay, ot);
    FillShape(base, bt);
    FillShape(overlay, ot);
    if n in Appended(Ids(b), o) {
      AppendedFrom(Ids(b), o, n);
      var i :| 0 <= i < |o| && n == Strip(o[i]);
      FilledShape(overlay[i], ot(i));
      assert IsAgent(o[i]) && IdOf(n) == IdOf(o[i]);
    } else {
      SurvivingFrom(MergedBase(b, o), Removed(o), n);
      var x :| 0 <= x < |b| && MergedBase(b, o)[x] == n;
      FillHasIds(base, overlay, ot);
      MergedIds(b, o, x);
      FilledShape(base[x], bt(x));
      if IdOf(b[x]) != id {
        forall on | on in o && IdOf(on) == IdOf(b[x]) ensures "type" !in on {
          var i :| 0 <= i < |o| && o[i] == on;
          FilledShape(overlay[i], ot(i));
        }
        UntypedStays(b[x], o);
      }
    }
  }

  lemma {:induction false} FillHasIds(base: seq<Node>, overlay: seq<Node>, ot: nat -> string)
    requires NoneBad(Ids(base), overlay)
    ensures NoneBad(Ids(base), Fill(overlay, ot))
  {
    forall on | on in Fill(overlay, ot) ensures !BadEntry(Ids(base), on) {
      var i :| 0 <= i < |overlay| && Fill(overlay, ot)[i] == on;
      FilledShape(overlay[i], ot(i));
      assert overlay[i] in overlay;
    }
  }

  /** A filled-in merge is accepted; one of its agents with another text than the last breaks the promise. */
  lemma {:induction false} FillBreaks(base: seq<Node>, overlay: seq<Node>, bt: nat -> string, ot: nat -> string, id: string, n: Node)
    requires NoneBad(Ids(base), overlay)
    requires TextsFor(base, bt, id) && TextsFor(overlay, ot, id)
    requires n in MergedNodes(Fill(base, bt), Fill(overlay, ot)) && IsAgent(n) && IdOf(n) == id
    requires LastText(overlay, ot, id) != "" && StringField(ObjectField(n, "config"), FIXED) != LastText(overlay, ot, id)
    ensures !AlwaysOwned(base, overlay)
  {
    var b, o := Fill(base, bt), Fill(overlay, ot);
    FillShape(base, bt);
    FillShape(overlay, ot);
    FillHasIds(base, overlay, ot);
    FillFolds(overlay, ot, id);
    forall m | m in MergedNodes(b, o) ensures OwnsPrompts(o, m) {
      if IsAgent(m) {
        AgentsHaveTexts(base, overlay, bt, ot, id, m);
      }
    }
    assert Accepted(b, o);
    assert !PromptIsOwned(o, n, FIXED);
  }

  lemma {:induction false} FilledAddition(base: seq<Node>, overlay: seq<Node>, bt: nat -> string, ot: nat -> string, x: nat)
    requires x < |overlay| && !Removes(overlay[x]) && IdOf(overlay[x]) !in Ids(base) && ot(x) != ""
    ensures var n := Strip(Filled(overlay[x], ot(x)));
            && n in MergedNodes(Fill(base, bt), Fill(overlay, ot)) && IsAgent(n) && IdOf(n) == IdOf(overlay[x])
            && StringField(ObjectField(n, "config"), FIXED) == ot(x)
  {
    FillShape(base, bt);
    FilledShape(overlay[x], ot(x));
    AppendedHas(Ids(base), Fill(overlay, ot), x);
  }

  lemma {:induction false} FilledSurvivor(base: seq<Node>, overlay: seq<Node>, bt: nat -> string, ot: nat -> string, i: nat, j: nat)
    requires i < j < |base| && IdOf(base[i]) == IdOf(base[j]) && IdOf(base[i]) !in Removed(overlay) && bt(i) != ""
    ensures var n := Filled(base[i], bt(i));
            && n in MergedNodes(Fill(base, bt), Fill(overlay, ot)) && IsAgent(n) && IdOf(n) == IdOf(base[i])
            && StringField(ObjectField(n, "config"), FIXED) == bt(i)
  {
    var b, o := Fill(base, bt), Fill(overlay, ot);
    FillShape(overlay, ot);
    FilledShape(base[i], bt(i));
    FilledShape(base[j], bt(j));
    assert IdOf(b[j]) == IdOf(b[i]) && !IsTarget(b, i);
    assert MergedBase(b, o)[i] == b[i];
    SurvivingHas(MergedBase(b, o), Removed(o), i);
  }

  /** One text at one place. */
  function Only(x: nat, text: string): nat -> string { (i: nat) => if i == x then text else "" }

  function Both(x: nat, first: string, y: nat, second: string): nat -> string {
    (i: nat) => if i == x then first else if i == y then second else ""
  }

  lemma {:induction false} OnlyFor(nodes: seq<Node>, x: nat, text: string, id: string)
    requires x < |nodes| ==> IdOf(nodes[x]) == id || text == ""
    ensures TextsFor(nodes, Only(x, text), id)
    ensures x < |nodes| && text != "" ==> LastText(nodes, Only(x, text), id) == text
  {
    if x < |nodes| && text != "" {
      LastTextGiven(nodes, Only(x, text), id, x);
    }
  }

  lemma {:induction false} BothFor(nodes: seq<Node>, x: nat, first: string, y: nat, second: string, id: string)
    requires x < y < |nodes| && IdOf(nodes[x]) == IdOf(nodes[y]) == id && second != ""
    ensures TextsFor(nodes, Both(x, first, y, second), id)
    ensures LastText(nodes, Both(x, first, y, second), id) == second
  {
    LastTextGiven(nodes, Both(x, first, y, second), id, y);
  }

  /** Two entries that add one agent, each with its own texts: the first keeps texts that the fold has
      replaced by the second's. */
  lemma {:induction false} DoubleAddEscapes(base: seq<Node>, overlay: seq<Node>, x: nat, y: nat, first: string, second: string)
    requires NoneBad(Ids(base), overlay)
    requires x < y < |overlay| && IdOf(overlay[x]) == IdOf(overlay[y]) && IdOf(overlay[x]) !in Ids(base)
    requires !Removes(overlay[x]) && !Removes(overlay[y]) && first != "" && second != "" && first != second
    ensures !AlwaysOwned(base, overlay)
  {
    var id := IdOf(overlay[x]);
    OnlyFor(base, 0, "", id);
    BothFor(overlay, x, first, y, second, id);
    FilledAddition(base, overlay, Only(0, ""), Both(x, first, y, second), x);
    FillBreaks(base, overlay, Only(0, ""), Both(x, first, y, second), id, Strip(Filled(overlay[x], first)));
  }

  /** An entry meets two base nodes of its id: the first keeps the base's texts. */
  lemma {:induction false} DoubleBaseEscapes(base: seq<Node>, overlay: seq<Node>, i: nat, j: nat, k: nat, inherited: string, given: string)
    requires NoneBad(Ids(base), overlay)
    requires i < j < |base| && k < |overlay| && IdOf(base[i]) == IdOf(base[j]) == IdOf(overlay[k])
    requires IdOf(base[i]) !in Removed(overlay) && inherited != "" && given != "" && inherited != given
    ensures !AlwaysOwned(base, overlay)
  {
    var id := IdOf(base[i]);
    OnlyFor(base, i, inherited, id);
    OnlyFor(overlay, k, given, id);
    FilledSurvivor(base, overlay, Only(i, inherited), Only(k, given), i, j);
    FillBreaks(base, overlay, Only(i, inherited), Only(k, given), id, Filled(base[i], inherited));
  }

  lemma {:induction false} SurvivingHas(nodes: seq<Node>, removed: set<string>, x: nat)
    requires x < |nodes| && IdOf(nodes[x]) !in removed
    ensures nodes[x] in Surviving(nodes, removed)
  {
    if x < |nodes| - 1 {
      SurvivingHas(nodes[..|nodes| - 1], removed, x);
    }
  }

  /** For given base ids, overlay ids and removals: however the entries are filled in, no agent of an
      accepted merge has a prompt the overlay did not give it, exactly when no new id is added twice
      and no id the overlay keeps is on two base nodes. */
  lemma {:induction false} PromptsNeverInheritedIff(base: seq<Node>, overlay: seq<Node>)
    requires NoneBad(Ids(base), overlay)
    ensures AlwaysOwned(base, overlay) <==> NoDoubleAdd(base, overlay) && NoDoubleBase(base, overlay)
  {
    assert |"a"| != |"bc"|;
    if !NoDoubleAdd(base, overlay) {
      var i, j :| 0 <= i < j < |overlay| && !Removes(overlay[i]) && !Removes(overlay[j]) &&
                  IdOf(overlay[i]) == IdOf(overlay[j]) && IdOf(overlay[i]) !in Ids(base);
      DoubleAddEscapes(base, overlay, i, j, "a", "bc");
    } else if !NoDoubleBase(base, overlay) {
      var i, j, k :| 0 <= i < j < |base| && 0 <= k < |overlay| &&
                     IdOf(base[i]) == IdOf(base[j]) == IdOf(overlay[k]) && IdOf(base[i]) !in Removed(overlay);
      DoubleBaseEscapes(base, overlay, i, j, k, "a", "bc");
    } else {
      forall b, o | SameIds(base, b) && SameEntries(overlay, o) && ConfigsAreObjects(o) && Accepted(b, o)
        ensures PromptsOwned(b, o)
      {
        SameOutline(base, overlay, b, o);
        forall n | n in MergedNodes(b, o) && IsAgent(n) ensures PromptIsOwned(o, n, FIXED) && PromptIsOwned(o, n, FLEX) {
          PromptsNeverInherited(b, o, n);
        }
      }
    }
  }

  /** The condition reads ids and removals only. */
  lemma {:induction false} SameOutline(base: seq<Node>, overlay: seq<Node>, b: seq<Node>, o: seq<Node>)
    requires SameIds(base, b) && SameEntries(overlay, o)
    ensures NoDoubleAdd(base, overlay) ==> NoDoubleAdd(b, o)
    ensures NoDoubleBase(base, overlay) ==> NoDoubleBase(b, o)
  {
    forall n | n in base ensures IdOf(n) in Ids(b) {
      var i :| 0 <= i < |base| && base[i] == n;
      assert b[i] in b;
    }
    forall n | n in overlay && Removes(n) ensures IdOf(n) in Removed(o) {
      var i :| 0 <= i < |overlay| && overlay[i] == n;
      assert o[i] in o;
    }
  }

  // ---- the loader's later check for distinct ids catches exactly those overlays

  lemma {:induction false} SurvivingUnique(nodes: seq<Node>, removed: set<string>)
    requires UniqueIds(nodes)
    ensures UniqueIds(Surviving(nodes, removed))
  {
    if nodes != [] {
      var head := nodes[..|nodes| - 1];
      SurvivingUnique(head, removed);
      forall n | n in Surviving(head, removed) ensures IdOf(n) != IdOf(nodes[|nodes| - 1]) {
        SurvivingFrom(head, removed, n);
      }
    }
  }

  lemma {:induction false} AppendedUnique(base: seq<Node>, overlay: seq<Node>)
    requires NoDoubleAdd(base, overlay)
    ensures UniqueIds(Appended(Ids(base), overlay))
  {
    if overlay != [] {
      var head, on := overlay[..|overlay| - 1], overlay[|overlay| - 1];
      AppendedUnique(base, head);
      if !Removes(on) {
        forall n | n in Appended(Ids(base), head) ensures IdOf(n) != IdOf(on) {
          AppendedEntry(Ids(base), head, n);
          AppendedFrom(Ids(base), head, n);
        }
      }
    }
  }

  lemma {:induction false} AppendedEntry(baseIds: set<string>, overlay: seq<Node>, n: Node)
    requires n in Appended(baseIds, overlay)
    ensures exists i :: 0 <= i < |overlay| && !Removes(overlay[i]) && IdOf(overlay[i]) == IdOf(n)
  {
    var head := overlay[..|overlay| - 1];
    if n in Appended(baseIds, head) {
      AppendedEntry(baseIds, head, n);
      var i :| 0 <= i < |head| && !Removes(head[i]) && IdOf(head[i]) == IdOf(n);
      assert overlay[i] == head[i];
    } else {
      assert n == Strip(overlay[|overlay| - 1]);
    }
  }

  /** Over a base of distinct ids the merged document has distinct ids exactly when no new id is added
      twice. */
  lemma {:induction false} DistinctIdsIff(base: seq<Node>, overlay: seq<Node>)
    requires UniqueIds(base) && NoneBad(Ids(base), overlay)
    ensures UniqueIds(MergedNodes(base, overlay)) <==> NoDoubleAdd(base, overlay)
    ensures NoDoubleBase(base, overlay)
  {
    var kept, added := Surviving(MergedBase(base, overlay), Removed(overlay)), Appended(Ids(base), overlay);
    var out := MergedNodes(base, overlay);
    assert kept == out[..|kept|] && added == out[|kept|..];
    if NoDoubleAdd(base, overlay) {
      MergedUnique(base, overlay);
      SurvivingUnique(MergedBase(base, overlay), Removed(overlay));
      AppendedUnique(base, overlay);
      forall n, m | n in kept && m in added ensures IdOf(n) != IdOf(m) {
        SurvivingFrom(MergedBase(base, overlay), Removed(overlay), n);
        AppendedFrom(Ids(base), overlay, m);
        MergedIdsAreBase(base, overlay, n);
      }
    } else {
      var i, j :| 0 <= i < j < |overlay| && !Removes(overlay[i]) && !Removes(overlay[j]) &&
                  IdOf(overlay[i]) == IdOf(overlay[j]) && IdOf(overlay[i]) !in Ids(base);
      AdditionsOfOneId(Ids(base), overlay, i, j);
    }
  }

  /** Two survivors of one id are two nodes of one id in the output. */
  lemma {:induction false} SurvivorsOfOneId(nodes: seq<Node>, removed: set<string>, x: nat, y: nat)
    requires x < y < |nodes| && IdOf(nodes[x]) == IdOf(nodes[y]) && IdOf(nodes[x]) !in removed
    ensures !UniqueIds(Surviving(nodes, removed))
  {
    var head, out := nodes[..|nodes| - 1], Surviving(nodes, removed);
    var rest := Surviving(head, removed);
    if y == |nodes| - 1 {
      SurvivingHas(head, removed, x);
      var i :| 0 <= i < |rest| && rest[i] == nodes[x];
      assert IdOf(out[i]) == IdOf(out[|out| - 1]);
    } else {
      SurvivorsOfOneId(head, removed, x, y);
      assert rest == out[..|rest|];
    }
  }

  /** Whatever the base, a merged document with distinct ids meets the condition under which prompts
      are never inherited. */
  lemma {:induction false} DistinctResultIsSafe(base: seq<Node>, overlay: seq<Node>)
    requires NoneBad(Ids(base), overlay) && UniqueIds(MergedNodes(base, overlay))
    ensures NoDoubleAdd(base, overlay) && NoDoubleBase(base, overlay)
  {
    var merged := MergedBase(base, overlay);
    var kept, added := Surviving(merged, Removed(overlay)), Appended(Ids(base), overlay);
    var out := MergedNodes(base, overlay);
    assert kept == out[..|kept|] && added == out[|kept|..];
    forall i, j | 0 <= i < j < |overlay| && !Removes(overlay[i]) && !Removes(overlay[j]) && IdOf(overlay[i]) == IdOf(overlay[j])
      ensures IdOf(overlay[i]) in Ids(base)
    {
      if IdOf(overlay[i]) !in Ids(base) {
        AdditionsOfOneId(Ids(base), overlay, i, j);
      }
    }
    forall i, j, k | 0 <= i < j < |base| && 0 <= k < |overlay| && IdOf(base[i]) == IdOf(base[j]) == IdOf(overlay[k])
      ensures IdOf(base[i]) in Removed(overlay)
    {
      MergedIds(base, overlay, i);
      MergedIds(base, overlay, j);
      if IdOf(base[i]) !in Removed(overlay) {
        SurvivorsOfOneId(merged, Removed(overlay), i, j);
      }
    }
  }

  lemma {:induction false} MergedUnique(base: seq<Node>, overlay: seq<Node>)
    requires UniqueIds(base) && forall on | on in overlay :: IdOf(on) != ""
    ensures UniqueIds(MergedBase(base, overlay))
  {
    forall i, j | 0 <= i < j < |base| ensures IdOf(MergedBase(base, overlay)[i]) != IdOf(MergedBase(base, overlay)[j]) {
      MergedIds(base, overlay, i);
      MergedIds(base, overlay, j);
    }
  }

  lemma {:induction false} MergedIdsAreBase(base: seq<Node>, overlay: seq<Node>, n: Node)
    requires n in MergedBase(base, overlay) && forall on | on in overlay :: IdOf(on) != ""
    ensures IdOf(n) in Ids(base)
  {
    var x :| 0 <= x < |base| && MergedBase(base, overlay)[x] == n;
    MergedIds(base, overlay, x);
    assert base[x] in base;
  }

  /** An example: the overlay adds one agent twice, each entry with one
      prompt. The ownership check folds the two and passes, yet neither node holds both prompts. */
  lemma {:induction false} DuplicateNewAgentEscapes(id: string, text: string)
    requires id != "" && text != ""
    ensures var one: Node := map["id" := Str(id), "type" := Str("ai/agent"), "config" := Obj(map[FIXED := Str(text)])];
            var two: Node := map["id" := Str(id), "type" := Str("ai/agent"), "config" := Obj(map[FLEX := Str(text)])];
            && MergedNodes([], [one, two]) == [one, two]
            && OwnsPrompts([one, two], one) && OwnsPrompts([one, two], two)
            && !PromptIsOwned([one, two], one, FLEX) && !PromptIsOwned([one, two], two, FIXED)
  {
    var one: Node := map["id" := Str(id), "type" := Str("ai/agent"), "config" := Obj(map[FIXED := Str(text)])];
    var two: Node := map["id" := Str(id), "type" := Str("ai/agent"), "config" := Obj(map[FLEX := Str(text)])];
    var ov := [one, two];
    assert FIXED != FLEX;
    assert ov[..1] == [one] && [one][..0] == [];
    assert Strip(one) == one && Strip(two) == two;
    assert Appended({}, [one]) == [one];
    assert Ids([]) == {};
    assert MergedBase([], ov) == [];
    assert PromptConfig([one], id) == Some(map[FIXED := Str(text)]);
    assert PromptConfig(ov, id) == Some(Merge(map[FIXED := Str(text)], map[FLEX := Str(text)]));
  }
}
