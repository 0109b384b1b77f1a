/** Merging a derived workflow's connections (pkg/workflow/engine/loader/derive.go). */
module DerivedConnections {
  import opened Json
  import opened DerivedWorkflow
  import opened JoinedKeys

  type Conn = Fields

  function End(c: Conn, side: string): Fields { ObjectField(c, side) }

  function FromNode(c: Conn): string { StringField(End(c, "from"), "node") }

  function FromPort(c: Conn): string { StringField(End(c, "from"), "port") }

  function ToNode(c: Conn): string { StringField(End(c, "to"), "node") }

  function ToPort(c: Conn): string { StringField(End(c, "to"), "port") }

  const NUL := '\0'

  function PartsOf(c: Conn): Parts { Parts(FromNode(c), FromPort(c), ToNode(c), ToPort(c)) }

  function ConnKey(c: Conn): string { Joined(NUL, PartsOf(c)) }

  /** Some endpoint is removed or not a node of the merged document. */
  predicate Dangling(c: Conn, nodes: set<string>, removed: set<string>) {
    FromNode(c) in removed || FromNode(c) !in nodes || ToNode(c) in removed || ToNode(c) !in nodes
  }

  function Kept(base: seq<Conn>, nodes: set<string>, removed: set<string>): seq<Conn> {
    if base == [] then [] else
    var rest := Kept(base[..|base| - 1], nodes, removed);
    var c := base[|base| - 1];
    if Dangling(c, nodes, removed) then rest else rest + [c]
  }

  function Keys(cs: seq<Conn>): set<string> { set c | c in cs :: ConnKey(c) }

  /** out with the overlay connections added whose key out does not have yet. */
  function Extended(out: seq<Conn>, overlay: seq<Conn>): seq<Conn> {
    if overlay == [] then out else
    var rest := Extended(out, overlay[..|overlay| - 1]);
    var c := overlay[|overlay| - 1];
    if ConnKey(c) in Keys(rest) then rest else rest + [c]
  }

  method NodeIds(nodes: seq<Node>) returns (exist: set<string>)
    ensures exist == Ids(nodes)
  {
    exist := {};
    for i := 0 to |nodes|
      invariant exist == Ids(nodes[..i])
    {
      assert nodes[..i + 1] == nodes[..i] + [nodes[i]];
      exist := exist + {IdOf(nodes[i])};
    }
    assert nodes[..|nodes|] == nodes;
  }

  method KeepBase(base: seq<Conn>, nodes: set<string>, removed: set<string>) returns (out: seq<Conn>, seen: set<string>)
    ensures out == Kept(base, nodes, removed) && seen == Keys(out)
  {
    out, seen := [], {};
    for i := 0 to |base|
      invariant out == Kept(base[..i], nodes, removed) && seen == Keys(out)
    {
      assert base[..i + 1][..i] == base[..i];
      if !Dangling(base[i], nodes, removed) {
        out := out + [base[i]];
        seen := seen + {ConnKey(base[i])};
      }
    }
    assert base[..|base|] == base;
  }

  method MergeConnections(base: seq<Conn>, overlay: seq<Conn>, nodes: seq<Node>, removed: set<string>)
    returns (r: Result<seq<Conn>>)
    ensures r.Ok? <==> forall c | c in overlay :: !Dangling(c, Ids(nodes), removed)
    ensures r.Ok? ==> r.value == Extended(Kept(base, Ids(nodes), removed), overlay)
    ensures r.Err? ==> r.error.UnknownEndpoint? &&
                       (r.error.node in removed || r.error.node !in Ids(nodes))
  {
    var exist := NodeIds(nodes);
    var out, seen := KeepBase(base, exist, removed);
    for i := 0 to |overlay|
      invariant forall c | c in overlay[..i] :: !Dangling(c, exist, removed)
      invariant out == Extended(Kept(base, exist, removed), overlay[..i]) && seen == Keys(out)
    {
      var c := overlay[i];
      assert overlay[..i + 1] == overlay[..i] + [c];
      if Dangling(c, exist, removed) {
        var bad := if FromNode(c) in removed || FromNode(c) !in exist then FromNode(c) else ToNode(c);
        return Err(UnknownEndpoint(bad));
      }
      if ConnKey(c) !in seen {
        out := out + [c];
        seen := seen + {ConnKey(c)};
      }
    }
    assert overlay[..|overlay|] == overlay;
    r := Ok(out);
  }

  lemma {:induction false} KeptAreSound(base: seq<Conn>, nodes: set<string>, removed: set<string>)
    ensures forall c | c in Kept(base, nodes, removed) :: !Dangling(c, nodes, removed)
    ensures forall c | c in base && !Dangling(c, nodes, removed) :: c in Kept(base, nodes, removed)
  {
    if base != [] {
      KeptAreSound(base[..|base| - 1], nodes, removed);
    }
  }

  /** kept lists these places of base, in order. */
  predicate Lists(base: seq<Conn>, kept: seq<Conn>, at: seq<nat>) {
    && |at| == |kept|
    && (forall i, j | 0 <= i < j < |at| :: at[i] < at[j])
    && forall i | 0 <= i < |at| :: at[i] < |base| && kept[i] == base[at[i]]
  }

  lemma {:induction false} ListsMore(base: seq<Conn>, kept: seq<Conn>, at: seq<nat>, n: nat)
    requires n == |base| - 1 && Lists(base[..n], kept, at)
    ensures Lists(base, kept, at) && Lists(base, kept + [base[n]], at + [n]) && n !in at
  {
  }

  /** These places are exactly those of the connections that do not dangle. */
  predicate AllKept(base: seq<Conn>, nodes: set<string>, removed: set<string>, at: seq<nat>) {
    forall x: nat | x < |base| :: x in at <==> !Dangling(base[x], nodes, removed)
  }

  lemma {:induction false} AllKeptMore(base: seq<Conn>, nodes: set<string>, removed: set<string>, at: seq<nat>, n: nat)
    requires n == |base| - 1 && AllKept(base[..n], nodes, removed, at) && n !in at
    ensures AllKept(base, nodes, removed, if Dangling(base[n], nodes, removed) then at else at + [n])
  {
    var more := if Dangling(base[n], nodes, removed) then at else at + [n];
    forall x: nat | x < |base| ensures x in more <==> !Dangling(base[x], nodes, removed) {
      if x < n {
        assert base[..n][x] == base[x];
      }
    }
  }

  /** Base connections keep their order, and exactly those stay that touch no missing or removed node. */
  lemma {:induction false} KeptInOrder(base: seq<Conn>, nodes: set<string>, removed: set<string>) returns (at: seq<nat>)
    ensures Lists(base, Kept(base, nodes, removed), at) && AllKept(base, nodes, removed, at)
  {
    if base == [] {
      at := [];
    } else {
      var n := |base| - 1;
      var head := KeptInOrder(base[..n], nodes, removed);
      ListsMore(base, Kept(base[..n], nodes, removed), head, n);
      AllKeptMore(base, nodes, removed, head, n);
      at := if Dangling(base[n], nodes, removed) then head else head + [n];
    }
  }

  /** Every connection of the merged document joins two of its nodes, neither of them removed. */
  lemma {:induction false} EndpointsExist(base: seq<Conn>, overlay: seq<Conn>, nodes: set<string>, removed: set<string>)
    requires forall c | c in overlay :: !Dangling(c, nodes, removed)
    ensures forall c | c in Extended(Kept(base, nodes, removed), overlay) ::
              FromNode(c) in nodes && ToNode(c) in nodes && FromNode(c) !in removed && ToNode(c) !in removed
  {
    KeptAreSound(base, nodes, removed);
    if overlay != [] {
      assert overlay[|overlay| - 1] in overlay;
      EndpointsExist(base, overlay[..|overlay| - 1], nodes, removed);
    }
  }

  /** Base connections come first, in order; each overlay connection is present once, by key. */
  lemma {:induction false} OverlayAddsOnce(out: seq<Conn>, overlay: seq<Conn>)
    ensures out <= Extended(out, overlay)
    ensures forall c | c in overlay :: ConnKey(c) in Keys(Extended(out, overlay))
    ensures forall i | |out| <= i < |Extended(out, overlay)| ::
              Extended(out, overlay)[i] in overlay &&
              ConnKey(Extended(out, overlay)[i]) !in Keys(Extended(out, overlay)[..i])
  {
    if overlay != [] {
      var head, c := overlay[..|overlay| - 1], overlay[|overlay| - 1];
      OverlayAddsOnce(out, head);
      var rest, all := Extended(out, head), Extended(out, overlay);
      assert overlay == head + [c];
      if ConnKey(c) !in Keys(rest) {
        assert all == rest + [c];
        assert forall i | 0 <= i <= |rest| :: all[..i] == rest[..i];
      }
    }
  }

  function ConnOf(p: Parts): Conn {
    map["from" := Obj(map["node" := Str(p.a), "port" := Str(p.b)]), "to" := Obj(map["node" := Str(p.c), "port" := Str(p.d)])]
  }

  /** Being dropped for a connection's key means being its duplicate, whatever the other connection is,
      exactly when no part of the key holds a NUL. */
  lemma {:induction false} KeyIsPrivateIff(c: Conn)
    ensures (forall d :: ConnKey(d) == ConnKey(c) ==> PartsOf(d) == PartsOf(c))
            <==> NUL !in FromNode(c) && NUL !in FromPort(c) && NUL !in ToNode(c) && NUL !in ToPort(c)
  {
    var p := PartsOf(c);
    PrivateIff(NUL, p);
    if !p.Free(NUL) {
      var q := Collides(NUL, p);
      assert PartsOf(ConnOf(q)) == q;
      assert ConnKey(ConnOf(q)) == ConnKey(c);
    }
  }

  /** With NUL in a name, two different connections can share a key. */
  lemma {:induction false} NulConfusesKeys()
    ensures var c: Conn := map["from" := Obj(map["node" := Str("a\0b"), "port" := Str("c")])];
            var d: Conn := map["from" := Obj(map["node" := Str("a"), "port" := Str("b\0c")])];
            ConnKey(c) == ConnKey(d) && FromNode(c) != FromNode(d)
  {
    assert "a\0b" + [NUL] + "c" == "a" + [NUL] + "b\0c";
    assert |"a\0b"| != |"a"|;
  }
}
