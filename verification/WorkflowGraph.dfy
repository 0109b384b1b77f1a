/** Connection checks and execution order of a workflow (pkg/workflow/engine/loader/validate.go). */
module WorkflowGraph {
  import opened Wrappers

  datatype Endpoint = Endpoint(node: string, port: string)

  datatype Conn = Conn(from: Endpoint, to: Endpoint)

  // ---- order

  function Elems(s: seq<string>): set<string> { set x | x in s }

  predicate NoDuplicates(s: seq<string>) {
    forall i, j | 0 <= i < j < |s| :: s[i] != s[j]
  }

  /** The connections' targets out of n, in connection order and with repetitions. */
  function Targets(conns: seq<Conn>, n: string): seq<string> {
    if conns == [] then [] else
    var c := conns[|conns| - 1];
    Targets(conns[..|conns| - 1], n) + if c.from.node == n then [c.to.node] else []
  }

  /** How many connections into m come from a node outside done. */
  function Waiting(conns: seq<Conn>, m: string, done: set<string>): nat {
    if conns == [] then 0 else
    var c := conns[|conns| - 1];
    Waiting(conns[..|conns| - 1], m, done) + if c.to.node == m && c.from.node !in done then 1 else 0
  }

  function Occurrences(s: seq<string>, m: string): nat {
    if s == [] then 0 else Occurrences(s[..|s| - 1], m) + if s[|s| - 1] == m then 1 else 0
  }

  /** Every connection into x starts in done. */
  predicate Ready(conns: seq<Conn>, x: string, done: set<string>) {
    forall c | c in conns && c.to.node == x :: c.from.node in done
  }

  predicate SourcesFirst(order: seq<string>, conns: seq<Conn>) {
    forall i | 0 <= i < |order| :: Ready(conns, order[i], Elems(order[..i]))
  }

  predicate IsTopological(order: seq<string>, nodes: set<string>, conns: seq<Conn>) {
    NoDuplicates(order) && Elems(order) == nodes && SourcesFirst(order, conns)
  }

  predicate Edge(conns: seq<Conn>, a: string, b: string) {
    exists c | c in conns :: c.from.node == a && c.to.node == b
  }

  predicate HasSource(conns: seq<Conn>, nodes: set<string>, m: string) {
    exists q | q in nodes :: Edge(conns, q, m)
  }

  predicate IsPath(conns: seq<Conn>, p: seq<string>) {
    |p| > 0 && forall i | 0 <= i < |p| - 1 :: Edge(conns, p[i], p[i + 1])
  }

  ghost predicate HasCycle(conns: seq<Conn>) {
    exists p :: IsPath(conns, p) && |p| >= 2 && p[0] == p[|p| - 1]
  }

  predicate Closed(conns: seq<Conn>, nodes: set<string>) {
    forall c | c in conns :: c.from.node in nodes && c.to.node in nodes
  }

  lemma {:induction false} WaitingIsZero(conns: seq<Conn>, m: string, done: set<string>)
    ensures Waiting(conns, m, done) == 0 <==> Ready(conns, m, done)
  {
    if conns != [] {
      var head, c := conns[..|conns| - 1], conns[|conns| - 1];
      WaitingIsZero(head, m, done);
      assert conns == head + [c];
    }
  }

  /** Marking n done releases exactly n's own connections. */
  lemma {:induction false} WaitingAfter(conns: seq<Conn>, m: string, done: set<string>, n: string)
    requires n !in done
    ensures Waiting(conns, m, done) == Waiting(conns, m, done + {n}) + Occurrences(Targets(conns, n), m)
  {
    if conns != [] {
      var head, c := conns[..|conns| - 1], conns[|conns| - 1];
      WaitingAfter(head, m, done, n);
      if c.from.node == n {
        assert (Targets(head, n) + [c.to.node])[..|Targets(head, n)|] == Targets(head, n);
      } else {
        assert Targets(conns, n) == Targets(head, n);
      }
    }
  }

  lemma {:induction false} TargetsAreTargets(conns: seq<Conn>, n: string)
    ensures forall m | m in Targets(conns, n) :: Edge(conns, n, m)
  {
    if conns != [] {
      var head, c := conns[..|conns| - 1], conns[|conns| - 1];
      TargetsAreTargets(head, n);
      forall m | m in Targets(conns, n) ensures Edge(conns, n, m) {
        if m in Targets(head, n) {
          var d :| d in head && d.from.node == n && d.to.node == m;
          assert d in conns;
        } else {
          assert c in conns;
        }
      }
    }
  }

  lemma {:induction false} OccurrencesMonotonic(s: seq<string>, j: nat, m: string)
    requires j <= |s|
    ensures Occurrences(s[..j], m) <= Occurrences(s, m)
    decreases |s| - j
  {
    if j < |s| {
      assert s[..j + 1][..j] == s[..j];
      OccurrencesMonotonic(s, j + 1, m);
    } else {
      assert s[..j] == s;
    }
  }

  lemma {:induction false} DistinctCount(s: seq<string>)
    requires NoDuplicates(s)
    ensures |Elems(s)| == |s|
  {
    if s != [] {
      var head := s[..|s| - 1];
      DistinctCount(head);
      assert Elems(s) == Elems(head) + {s[|s| - 1]};
    }
  }

  /** In-degree bookkeeping while n's connections are released: j of them are. */
  ghost predicate Counted(indeg: map<string, int>, nodes: set<string>, conns: seq<Conn>, done: set<string>, released: seq<string>) {
    && indeg.Keys == nodes
    && forall m | m in nodes :: indeg[m] == Waiting(conns, m, done) - Occurrences(released, m)
  }

  /** The nodes taken or queued are, without repetition, those with no waiting connection. */
  ghost predicate Queued(indeg: map<string, int>, taken: seq<string>) {
    && NoDuplicates(taken)
    && (forall m | m in taken :: m in indeg)
    && forall m | m in indeg :: indeg[m] == 0 <==> m in taken
  }

  /** out holds the targets of every node's connections. */
  ghost predicate Outgoing(out: map<string, seq<string>>, conns: seq<Conn>) {
    forall n :: (if n in out then out[n] else []) == Targets(conns, n)
  }

  lemma {:induction false} OneMoreConn(nodes: set<string>, conns: seq<Conn>, indeg: map<string, int>, out: map<string, seq<string>>, i: nat)
    requires Closed(conns, nodes) && i < |conns|
    requires Counted(indeg, nodes, conns[..i], {}, []) && Outgoing(out, conns[..i])
    ensures var f, t := conns[i].from.node, conns[i].to.node;
            && t in indeg && Counted(indeg[t := indeg[t] + 1], nodes, conns[..i + 1], {}, [])
            && Outgoing(out[f := (if f in out then out[f] else []) + [t]], conns[..i + 1])
  {
    assert conns[..i + 1][..i] == conns[..i];
  }

  method BuildGraph(nodes: set<string>, conns: seq<Conn>) returns (indeg: map<string, int>, out: map<string, seq<string>>)
    requires Closed(conns, nodes)
    ensures Counted(indeg, nodes, conns, {}, [])
    ensures Outgoing(out, conns)
  {
    indeg := map id | id in nodes :: 0;
    out := map[];
    for i := 0 to |conns|
      invariant Counted(indeg, nodes, conns[..i], {}, [])
      invariant Outgoing(out, conns[..i])
    {
      OneMoreConn(nodes, conns, indeg, out, i);
      var f, t := conns[i].from.node, conns[i].to.node;
      out := out[f := (if f in out then out[f] else []) + [t]];
      indeg := indeg[t := indeg[t] + 1];
    }
    assert conns[..|conns|] == conns;
  }

  /** The nodes of in-degree zero, in whatever order the map is walked. */
  method InitialQueue(indeg: map<string, int>) returns (queue: seq<string>)
    ensures Queued(indeg, queue)
  {
    queue := [];
    var rest := indeg.Keys;
    while rest != {}
      invariant rest <= indeg.Keys
      invariant NoDuplicates(queue) && forall m | m in queue :: m in indeg && m !in rest
      invariant forall m | m in indeg && m !in rest :: indeg[m] == 0 <==> m in queue
      decreases |rest|
    {
      var id :| id in rest;
      if indeg[id] == 0 {
        queue := queue + [id];
      }
      rest := rest - {id};
    }
  }

  lemma {:induction false} CountedStep(nodes: set<string>, conns: seq<Conn>, indeg: map<string, int>, done: set<string>, n: string, j: nat)
    requires Closed(conns, nodes) && n !in done && j < |Targets(conns, n)|
    requires Counted(indeg, nodes, conns, done, Targets(conns, n)[..j])
    ensures var m := Targets(conns, n)[j];
            && m in indeg && indeg[m] > 0
            && Counted(indeg[m := indeg[m] - 1], nodes, conns, done, Targets(conns, n)[..j + 1])
  {
    var targets := Targets(conns, n);
    var m := targets[j];
    TargetsAreTargets(conns, n);
    assert m in targets;
    assert targets[..j + 1][..j] == targets[..j];
    OccurrencesMonotonic(targets, j + 1, m);
    WaitingAfter(conns, m, done, n);
  }

  lemma {:induction false} CountedAll(nodes: set<string>, conns: seq<Conn>, indeg: map<string, int>, done: set<string>, n: string)
    requires n !in done && Counted(indeg, nodes, conns, done, Targets(conns, n))
    ensures Counted(indeg, nodes, conns, done + {n}, [])
  {
    forall m | m in nodes ensures indeg[m] == Waiting(conns, m, done + {n}) {
      WaitingAfter(conns, m, done, n);
    }
  }

  lemma {:induction false} QueuedAfter(indeg: map<string, int>, taken: seq<string>, queue: seq<string>, m: string)
    requires Queued(indeg, taken + queue) && m in indeg && indeg[m] > 0
    ensures Queued(indeg[m := indeg[m] - 1], taken + if indeg[m] == 1 then queue + [m] else queue)
  {
    assert taken + (queue + [m]) == taken + queue + [m];
  }

  /** Releases the connections out of the node just taken, queueing each target that reaches zero. */
  method Release(nodes: set<string>, conns: seq<Conn>, indeg0: map<string, int>, targets: seq<string>,
                 ghost done: set<string>, ghost n: string, ghost taken: seq<string>, queue0: seq<string>)
    returns (indeg: map<string, int>, queue: seq<string>)
    requires Closed(conns, nodes) && n !in done && targets == Targets(conns, n)
    requires Counted(indeg0, nodes, conns, done, []) && Queued(indeg0, taken + queue0)
    ensures Counted(indeg, nodes, conns, done + {n}, []) && Queued(indeg, taken + queue)
  {
    indeg, queue := indeg0, queue0;
    for j := 0 to |targets|
      invariant Counted(indeg, nodes, conns, done, targets[..j])
      invariant Queued(indeg, taken + queue)
    {
      var m := targets[j];
      CountedStep(nodes, conns, indeg, done, n, j);
      QueuedAfter(indeg, taken, queue, m);
      queue := if indeg[m] == 1 then queue + [m] else queue;
      indeg := indeg[m := indeg[m] - 1];
    }
    assert targets[..|targets|] == targets;
    CountedAll(nodes, conns, indeg, done, n);
  }

  /** Taking the front of the queue keeps sources first and leaves the rest of the queue in step. */
  lemma {:induction false} TakeFront(nodes: set<string>, conns: seq<Conn>, indeg: map<string, int>, order: seq<string>, queue: seq<string>)
    requires |queue| > 0 && SourcesFirst(order, conns)
    requires Counted(indeg, nodes, conns, Elems(order), []) && Queued(indeg, order + queue)
    ensures queue[0] in nodes && queue[0] !in Elems(order)
    ensures SourcesFirst(order + [queue[0]], conns)
    ensures Queued(indeg, (order + [queue[0]]) + queue[1..])
    ensures Elems(order + [queue[0]]) == Elems(order) + {queue[0]}
  {
    var n := queue[0];
    assert order + queue == (order + [n]) + queue[1..];
    assert (order + queue)[|order|] == n;
    WaitingIsZero(conns, n, Elems(order));
    assert n in order + queue;
    assert forall i | 0 <= i < |order| :: (order + queue)[i] == order[i] != n;
    assert forall i | 0 <= i <= |order| :: (order + [n])[..i] == order[..i];
  }

  method TopoOrder(nodes: set<string>, conns: seq<Conn>) returns (r: Option<seq<string>>)
    requires Closed(conns, nodes)
    ensures r.Some? ==> IsTopological(r.value, nodes, conns)
    ensures r.None? <==> HasCycle(conns)
  {
    var indeg, out := BuildGraph(nodes, conns);
    var queue := InitialQueue(indeg);
    var order: seq<string> := [];
    assert order + queue == queue && Elems(order) == {};
    while |queue| > 0
      invariant Counted(indeg, nodes, conns, Elems(order), [])
      invariant Queued(indeg, order + queue)
      invariant SourcesFirst(order, conns)
      decreases nodes - Elems(order)
    {
      var n := queue[0];
      TakeFront(nodes, conns, indeg, order, queue);
      indeg, queue := Release(nodes, conns, indeg, if n in out then out[n] else [], Elems(order), n, order + [n], queue[1..]);
      order := order + [n];
    }
    assert order + queue == order;
    DistinctCount(order);
    assert Elems(order) <= nodes;
    if |order| != |nodes| {
      StuckMeansCycle(nodes, conns, indeg, order);
      return None;
    }
    SameSize(Elems(order), nodes);
    OrderedMeansAcyclic(order, nodes, conns);
    r := Some(order);
  }

  lemma {:induction false} SameSize(a: set<string>, b: set<string>)
    requires a <= b && |a| == |b|
    ensures a == b
  {
    assert |b - a| == |b| - |a|;
  }

  lemma {:induction false} StuckMeansCycle(nodes: set<string>, conns: seq<Conn>, indeg: map<string, int>, order: seq<string>)
    requires Closed(conns, nodes) && Counted(indeg, nodes, conns, Elems(order), []) && Queued(indeg, order)
    requires Elems(order) <= nodes && |order| != |nodes| && |Elems(order)| == |order|
    ensures HasCycle(conns)
  {
    var left := nodes - Elems(order);
    forall m {:trigger HasSource(conns, left, m)} | m in left ensures HasSource(conns, left, m) {
      WaitingIsZero(conns, m, Elems(order));
      var c :| c in conns && c.to.node == m && c.from.node !in Elems(order);
      assert c.from.node in left && Edge(conns, c.from.node, m);
    }
    assert |left| == |nodes| - |Elems(order)|;
    var m :| m in left;
    FindCycle(conns, left, [m]);
  }

  lemma {:induction false} PathFrom(conns: seq<Conn>, q: string, p: seq<string>)
    requires IsPath(conns, p) && Edge(conns, q, p[0])
    ensures IsPath(conns, [q] + p)
  {
    forall i | 0 <= i < |p| ensures Edge(conns, ([q] + p)[i], ([q] + p)[i + 1]) {
      assert i > 0 ==> Edge(conns, p[i - 1], p[i]);
    }
  }

  lemma {:induction false} PathUpTo(conns: seq<Conn>, p: seq<string>, n: nat)
    requires IsPath(conns, p) && 0 < n <= |p|
    ensures IsPath(conns, p[..n])
  {
    forall i | 0 <= i < n - 1 ensures Edge(conns, p[..n][i], p[..n][i + 1]) {
      assert Edge(conns, p[i], p[i + 1]);
    }
  }

  lemma {:induction false} ClosesCycle(conns: seq<Conn>, q: string, p: seq<string>)
    requires IsPath(conns, [q] + p) && q in p
    ensures HasCycle(conns)
  {
    var i :| 0 <= i < |p| && p[i] == q;
    PathUpTo(conns, [q] + p, i + 2);
    var cycle := ([q] + p)[..i + 2];
    assert cycle[0] == cycle[|cycle| - 1];
  }

  /** In a finite set where every node has a predecessor, walking backwards closes a cycle. */
  lemma {:induction false} FindCycle(conns: seq<Conn>, left: set<string>, p: seq<string>)
    requires forall m {:trigger HasSource(conns, left, m)} | m in left :: HasSource(conns, left, m)
    requires IsPath(conns, p) && Elems(p) <= left
    ensures HasCycle(conns)
    decreases left - Elems(p)
  {
    assert p[0] in left && HasSource(conns, left, p[0]);
    var q :| q in left && Edge(conns, q, p[0]);
    PathFrom(conns, q, p);
    if q in p {
      ClosesCycle(conns, q, p);
    } else {
      assert Elems([q] + p) == {q} + Elems(p);
      FindCycle(conns, left, [q] + p);
    }
  }

  /** Along a path, positions in a topological order increase. */
  lemma {:induction false} PathGoesForward(order: seq<string>, nodes: set<string>, conns: seq<Conn>, p: seq<string>) returns (a: nat, b: nat)
    requires IsTopological(order, nodes, conns) && Closed(conns, nodes)
    requires IsPath(conns, p) && |p| >= 2
    ensures a < b < |order| && order[a] == p[0] && order[b] == p[|p| - 1]
  {
    var k := |p| - 1;
    assert Edge(conns, p[k - 1], p[k]);
    assert p[k] in Elems(order);
    b :| 0 <= b < |order| && order[b] == p[k];
    assert Ready(conns, order[b], Elems(order[..b]));
    assert p[k - 1] in order[..b];
    var c :| 0 <= c < b && order[c] == p[k - 1];
    if |p| == 2 {
      a := c;
    } else {
      var head := p[..k];
      PathUpTo(conns, p, k);
      var c';
      a, c' := PathGoesForward(order, nodes, conns, head);
      assert order[c'] == order[c];
    }
  }

  lemma {:induction false} OrderedMeansAcyclic(order: seq<string>, nodes: set<string>, conns: seq<Conn>)
    requires IsTopological(order, nodes, conns) && Closed(conns, nodes)
    ensures !HasCycle(conns)
  {
    forall p | IsPath(conns, p) && |p| >= 2 ensures p[0] != p[|p| - 1] {
      var a, b := PathGoesForward(order, nodes, conns, p);
    }
  }

  // ---- wiring

  /** Unset is the zero value, which the code does not check. */
  datatype Cardinality = Unset | One | ZeroOrOne | ZeroOrMany

  /** peerRole is empty for a port that takes any node. */
  datatype PortSpec = PortSpec(name: string, cardinality: Cardinality, required: bool, peerRole: string)

  /** role is empty for a node that declares none; ifaces are the roles whose interface it implements. */
  datatype NodeSpec = NodeSpec(inputs: seq<PortSpec>, role: string, ifaces: set<string>)

  datatype WiringError =
    | UnknownDestination(node: string)
    | UnknownSource(node: string)
    | NoSuchPort(node: string, port: string)
    | WrongCount(node: string, port: string, count: nat)
    | Unwired(node: string, port: string)
    | WrongRole(node: string, port: string, peer: string)

  predicate HasPort(ports: seq<PortSpec>, name: string) {
    exists p | p in ports :: p.name == name
  }

  predicate Implements(n: NodeSpec, role: string) {
    n.role == role || (n.role == "" && role in n.ifaces)
  }

  /** The sources wired to one input port, in connection order. */
  function Peers(conns: seq<Conn>, node: string, port: string): seq<string> {
    if conns == [] then [] else
    var c := conns[|conns| - 1];
    Peers(conns[..|conns| - 1], node, port) + if c.to == Endpoint(node, port) then [c.from.node] else []
  }

  predicate ConnOk(nodes: map<string, NodeSpec>, c: Conn) {
    c.to.node in nodes && c.from.node in nodes && HasPort(nodes[c.to.node].inputs, c.to.port)
  }

  predicate CountOk(p: PortSpec, count: nat) {
    && (p.required ==> count > 0)
    && (p.cardinality.One? || p.cardinality.ZeroOrOne? ==> count <= 1)
  }

  predicate RolesOk(nodes: map<string, NodeSpec>, p: PortSpec, peers: seq<string>) {
    p.peerRole == "" || forall s | s in peers && s in nodes :: Implements(nodes[s], p.peerRole)
  }

  predicate PortOk(nodes: map<string, NodeSpec>, conns: seq<Conn>, id: string, p: PortSpec) {
    CountOk(p, |Peers(conns, id, p.name)|) && RolesOk(nodes, p, Peers(conns, id, p.name))
  }

  predicate WellWired(nodes: map<string, NodeSpec>, conns: seq<Conn>) {
    && (forall c | c in conns :: ConnOk(nodes, c))
    && forall id, p | id in nodes && p in nodes[id].inputs :: PortOk(nodes, conns, id, p)
  }

  function Wired(incoming: map<Endpoint, seq<string>>, node: string, port: string): seq<string> {
    var e := Endpoint(node, port);
    if e in incoming then incoming[e] else []
  }

  ghost predicate Filed(incoming: map<Endpoint, seq<string>>, conns: seq<Conn>) {
    forall node, port {:trigger Peers(conns, node, port)} ::
      Wired(incoming, node, port) == Peers(conns, node, port)
  }

  ghost predicate KnownPeers(incoming: map<Endpoint, seq<string>>, nodes: set<string>) {
    forall e | e in incoming :: forall s | s in incoming[e] :: s in nodes
  }

  function File(incoming: map<Endpoint, seq<string>>, c: Conn): map<Endpoint, seq<string>> {
    incoming[c.to := Wired(incoming, c.to.node, c.to.port) + [c.from.node]]
  }

  lemma {:induction false} FiledOne(incoming: map<Endpoint, seq<string>>, conns: seq<Conn>, i: nat, nodes: set<string>)
    requires i < |conns| && KnownPeers(incoming, nodes) && conns[i].from.node in nodes
    ensures KnownPeers(File(incoming, conns[i]), nodes)
    ensures Filed(incoming, conns[..i]) ==> Filed(File(incoming, conns[i]), conns[..i + 1])
  {
    if Filed(incoming, conns[..i]) {
      assert conns[..i + 1][..i] == conns[..i];
      var after := File(incoming, conns[i]);
      forall node, port {:trigger Peers(conns[..i + 1], node, port)}
        ensures Wired(after, node, port) == Peers(conns[..i + 1], node, port)
      {
        assert Wired(incoming, node, port) == Peers(conns[..i], node, port);
      }
    }
  }

  method CheckConn(nodes: map<string, NodeSpec>, c: Conn) returns (err: Option<WiringError>)
    ensures err.None? <==> ConnOk(nodes, c)
    ensures err.Some? ==> err.value == if c.to.node !in nodes then UnknownDestination(c.to.node)
                                       else if c.from.node !in nodes then UnknownSource(c.from.node)
                                       else NoSuchPort(c.to.node, c.to.port)
  {
    if c.to.node !in nodes {
      err := Some(UnknownDestination(c.to.node));
    } else if c.from.node !in nodes {
      err := Some(UnknownSource(c.from.node));
    } else if !HasPort(nodes[c.to.node].inputs, c.to.port) {
      err := Some(NoSuchPort(c.to.node, c.to.port));
    } else {
      err := None;
    }
  }

  method CollectIncoming(nodes: map<string, NodeSpec>, conns: seq<Conn>)
    returns (incoming: map<Endpoint, seq<string>>, errs: seq<WiringError>)
    ensures errs == [] <==> forall c | c in conns :: ConnOk(nodes, c)
    ensures errs == [] ==> Filed(incoming, conns)
    ensures KnownPeers(incoming, nodes.Keys)
  {
    incoming, errs := map[], [];
    ghost var bad: nat := 0;
    for i := 0 to |conns|
      invariant errs == [] ==> forall x | 0 <= x < i :: ConnOk(nodes, conns[x])
      invariant errs != [] ==> bad < i && !ConnOk(nodes, conns[bad])
      invariant errs == [] ==> Filed(incoming, conns[..i])
      invariant KnownPeers(incoming, nodes.Keys)
    {
      var err := CheckConn(nodes, conns[i]);
      if err.Some? {
        errs := errs + [err.value];
        bad := i;
      } else {
        FiledOne(incoming, conns, i, nodes.Keys);
        incoming := File(incoming, conns[i]);
      }
    }
    assert conns[..|conns|] == conns;
  }

  method CheckCounts(id: string, p: PortSpec, n: nat) returns (errs: seq<WiringError>)
    ensures errs == [] <==> CountOk(p, n)
    ensures Unwired(id, p.name) in errs <==> p.required && n == 0
    ensures WrongCount(id, p.name, n) in errs <==>
              (n > 1 && (p.cardinality.One? || p.cardinality.ZeroOrOne?)) || (n == 0 && p.required && p.cardinality.One?)
    ensures forall e | e in errs :: !e.WrongRole?
  {
    errs := [];
    match p.cardinality {
      case One =>
        if n != 1 && (p.required || n > 1) {
          errs := errs + [WrongCount(id, p.name, n)];
        }
      case ZeroOrOne =>
        if n > 1 {
          errs := errs + [WrongCount(id, p.name, n)];
        }
      case Unset =>
      case ZeroOrMany =>
    }
    if p.required && n == 0 {
      errs := errs + [Unwired(id, p.name)];
    }
  }

  method CheckRoles(nodes: map<string, NodeSpec>, id: string, p: PortSpec, peers: seq<string>) returns (errs: seq<WiringError>)
    requires forall s | s in peers :: s in nodes
    ensures errs == [] <==> RolesOk(nodes, p, peers)
    ensures forall e :: e in errs <==> p.peerRole != "" && exists s | s in peers :: e == WrongRole(id, p.name, s) && !Implements(nodes[s], p.peerRole)
  {
    errs := [];
    if p.peerRole != "" {
      for i := 0 to |peers|
        invariant errs == [] <==> forall s | s in peers[..i] :: Implements(nodes[s], p.peerRole)
        invariant forall e :: e in errs <==> exists s | s in peers[..i] :: e == WrongRole(id, p.name, s) && !Implements(nodes[s], p.peerRole)
      {
        assert peers[..i + 1] == peers[..i] + [peers[i]];
        if !Implements(nodes[peers[i]], p.peerRole) {
          errs := errs + [WrongRole(id, p.name, peers[i])];
        }
      }
      assert peers[..|peers|] == peers;
    }
  }

  /** One input port: its count, whether it is wired at all, and the role of each peer. */
  method CheckPort(nodes: map<string, NodeSpec>, id: string, p: PortSpec, peers: seq<string>) returns (errs: seq<WiringError>)
    requires forall s | s in peers :: s in nodes
    ensures errs == [] <==> CountOk(p, |peers|) && RolesOk(nodes, p, peers)
    ensures Unwired(id, p.name) in errs <==> p.required && peers == []
    ensures WrongCount(id, p.name, |peers|) in errs <==>
              (|peers| > 1 && (p.cardinality.One? || p.cardinality.ZeroOrOne?)) || (peers == [] && p.required && p.cardinality.One?)
    ensures forall s | s in peers :: WrongRole(id, p.name, s) in errs <==>
              p.peerRole != "" && nodes[s].role != p.peerRole && (nodes[s].role != "" || p.peerRole !in nodes[s].ifaces)
  {
    var counts := CheckCounts(id, p, |peers|);
    var roles := CheckRoles(nodes, id, p, peers);
    errs := counts + roles;
  }

  method CheckNode(nodes: map<string, NodeSpec>, conns: seq<Conn>, id: string, incoming: map<Endpoint, seq<string>>, ghost filed: bool)
    returns (errs: seq<WiringError>)
    requires id in nodes
    requires filed ==> Filed(incoming, conns)
    requires KnownPeers(incoming, nodes.Keys)
    ensures filed ==> (errs == [] <==> forall p | p in nodes[id].inputs :: PortOk(nodes, conns, id, p))
  {
    errs := [];
    var ports := nodes[id].inputs;
    for i := 0 to |ports|
      invariant filed ==> (errs == [] <==> forall p | p in ports[..i] :: PortOk(nodes, conns, id, p))
    {
      assert ports[..i + 1] == ports[..i] + [ports[i]];
      assert filed ==> Wired(incoming, id, ports[i].name) == Peers(conns, id, ports[i].name);
      var more := CheckPort(nodes, id, ports[i], Wired(incoming, id, ports[i].name));
      assert filed ==> (more == []) == PortOk(nodes, conns, id, ports[i]);
      errs := errs + more;
    }
    assert ports[..|ports|] == ports;
  }

  /** No error exactly when the workflow is well wired. Connections the first pass could not file are
      missing from incoming, but then the error list is not empty anyway. */
  method ValidateConnections(nodes: map<string, NodeSpec>, conns: seq<Conn>) returns (errs: seq<WiringError>)
    ensures errs == [] <==> WellWired(nodes, conns)
    ensures errs == [] ==> Closed(conns, nodes.Keys)
  {
    var incoming;
    incoming, errs := CollectIncoming(nodes, conns);
    ghost var filed := errs == [];
    var rest := nodes.Keys;
    while rest != {}
      invariant rest <= nodes.Keys
      invariant !filed ==> errs != []
      invariant filed ==> (errs == [] <==> forall id, p | id in nodes && id !in rest && p in nodes[id].inputs :: PortOk(nodes, conns, id, p))
      decreases |rest|
    {
      var id :| id in rest;
      var more := CheckNode(nodes, conns, id, incoming, filed);
      errs, rest := errs + more, rest - {id};
    }
  }

  lemma {:induction false} PeersAreSources(conns: seq<Conn>, node: string, port: string)
    ensures forall s | s in Peers(conns, node, port) :: exists c | c in conns :: c.to.node == node && c.from.node == s
  {
    if conns != [] {
      var head, c := conns[..|conns| - 1], conns[|conns| - 1];
      PeersAreSources(head, node, port);
      forall s | s in Peers(conns, node, port) ensures exists d | d in conns :: d.to.node == node && d.from.node == s {
        if s in Peers(head, node, port) {
          var d :| d in head && d.to.node == node && d.from.node == s;
          assert d in conns;
        } else {
          assert c in conns;
        }
      }
    }
  }

  /** The order LoadOne calls Init in: when a node's turn comes, every peer that any of its ports
      can hand out has had its own. */
  method InitOrder(nodes: map<string, NodeSpec>, conns: seq<Conn>) returns (r: Option<seq<string>>)
    ensures r.None? <==> !WellWired(nodes, conns) || HasCycle(conns)
    ensures r.Some? ==> NoDuplicates(r.value) && Elems(r.value) == nodes.Keys
    ensures r.Some? ==> forall i, port, s | 0 <= i < |r.value| && s in Peers(conns, r.value[i], port) :: s in r.value[..i]
  {
    var errs := ValidateConnections(nodes, conns);
    if errs != [] {
      return None;
    }
    r := TopoOrder(nodes.Keys, conns);
    if r.Some? {
      var order := r.value;
      forall i, port, s | 0 <= i < |order| && s in Peers(conns, order[i], port) ensures s in order[..i] {
        PeersAreSources(conns, order[i], port);
        assert Ready(conns, order[i], Elems(order[..i]));
      }
    }
  }
}
