/** The knowledge map card: the lines drawn from each node to the nodes it depends on, the
    colour and text lookups, and the action button of a node's popover. */
module KnowledgeGraph {
  import opened Wrappers
  import opened Seqs
  import opened KnowledgeGraphData

  /** The nodes with a given id. */
  function NodeWithId(id: string): Node -> bool {
    (n: Node) => n.id == id
  }

  /** `nodes.find((n) => n.id === depId)`. */
  function FindNode(nodes: seq<Node>, id: string): Option<Node> {
    Find(nodes, NodeWithId(id))
  }

  /** A dependency id resolves exactly when some node has it. */
  lemma FindNodeSpec(nodes: seq<Node>, id: string)
    ensures FindNode(nodes, id).Some? <==> exists j :: 0 <= j < |nodes| && nodes[j].id == id
    ensures FindNode(nodes, id).Some? ==> FindNode(nodes, id).value.id == id
  {
    if exists j :: 0 <= j < |nodes| && nodes[j].id == id {
      var j :| 0 <= j < |nodes| && nodes[j].id == id;
      assert NodeWithId(id)(nodes[j]);
    }
    if FindNode(nodes, id).Some? {
      var i :| 0 <= i < |nodes| && nodes[i] == FindNode(nodes, id).value && NodeWithId(id)(nodes[i])
               && forall j :: 0 <= j < i ==> !NodeWithId(id)(nodes[j]);
      assert nodes[i].id == id;
    }
  }

  /** One `<line>` element: its key, its two ends, its stroke colour and its dash pattern. */
  datatype Connection = Connection(key: string, from: Position, to: Position, stroke: string, dash: string)

  /** The line from a node to a node it depends on: grey and dashed exactly when the
      dependent node is locked. */
  function Line(node: Node, dependency: Node, depId: string): (c: Connection)
    ensures c.from == node.position && c.to == dependency.position
    ensures c.stroke == "#CBD5E0" <==> node.status == Locked
    ensures c.dash == "5,5" <==> node.status == Locked
    ensures c.stroke == "#CBD5E0" <==> c.dash == "5,5"
  {
    Connection(node.id + "-" + depId, node.position, dependency.position,
      if node.status == Locked then "#CBD5E0" else "#3182CE",
      if node.status == Locked then "5,5" else "")
  }

  /** The line of a dependency id, if it resolves. */
  function DepLine(nodes: seq<Node>, node: Node, depId: string): seq<Connection> {
    match FindNode(nodes, depId)
    case Some(dependency) => [Line(node, dependency, depId)]
    case None => []
  }

  /** `node.dependencies.map(...)` with the `null`s of unresolved ids dropped. */
  function NodeLines(nodes: seq<Node>, node: Node, deps: seq<string>): seq<Connection> {
    if deps == [] then [] else DepLine(nodes, node, deps[0]) + NodeLines(nodes, node, deps[1..])
  }

  /** The lines of the nodes from position `i` on, in order. */
  function LinesFrom(nodes: seq<Node>, i: nat): seq<Connection>
    decreases |nodes| - i
  {
    if i >= |nodes| then [] else NodeLines(nodes, nodes[i], nodes[i].dependencies) + LinesFrom(nodes, i + 1)
  }

  /** `renderConnections()`: the lines of every node. */
  function RenderConnections(nodes: seq<Node>): seq<Connection> {
    LinesFrom(nodes, 0)
  }

  /** `c` is the line a node draws for the dependency id `depId`, which resolves. */
  predicate DrawsLine(nodes: seq<Node>, node: Node, depId: string, c: Connection) {
    FindNode(nodes, depId).Some? && c == Line(node, FindNode(nodes, depId).value, depId)
  }

  /** A node's lines are exactly the lines to the nodes its resolving ids name. */
  lemma {:induction false} NodeLinesMembers(nodes: seq<Node>, node: Node, deps: seq<string>)
    ensures forall c :: c in NodeLines(nodes, node, deps) <==> exists d :: d in deps && DrawsLine(nodes, node, d, c)
  {
    if deps != [] {
      NodeLinesMembers(nodes, node, deps[1..]);
      assert deps == [deps[0]] + deps[1..];
      forall c | c in NodeLines(nodes, node, deps) ensures exists d :: d in deps && DrawsLine(nodes, node, d, c) {
        if c in DepLine(nodes, node, deps[0]) {
          assert DrawsLine(nodes, node, deps[0], c);
        } else {
          assert c in NodeLines(nodes, node, deps[1..]);
          var d :| d in deps[1..] && DrawsLine(nodes, node, d, c);
          assert d in deps;
        }
      }
    }
  }

  /** One line per resolving dependency id: never more lines than ids, and as many exactly
      when every id resolves. */
  lemma {:induction false} NodeLinesCount(nodes: seq<Node>, node: Node, deps: seq<string>)
    ensures |NodeLines(nodes, node, deps)| <= |deps|
    ensures |NodeLines(nodes, node, deps)| == |deps| <==> forall d :: d in deps ==> FindNode(nodes, d).Some?
  {
    if deps != [] {
      var rest := deps[1..];
      NodeLinesCount(nodes, node, rest);
      assert NodeLines(nodes, node, deps) == DepLine(nodes, node, deps[0]) + NodeLines(nodes, node, rest);
      assert forall d :: d in deps <==> d == deps[0] || d in rest;
    }
  }

  /** The lines drawn are exactly the lines from a node to the node one of its resolving
      dependency ids names. */
  lemma {:induction false} LinesMembers(nodes: seq<Node>, i: nat)
    ensures forall c :: c in LinesFrom(nodes, i) <==>
      exists j, d :: i <= j < |nodes| && d in nodes[j].dependencies && DrawsLine(nodes, nodes[j], d, c)
    decreases |nodes| - i
  {
    if i < |nodes| {
      LinesMembers(nodes, i + 1);
      NodeLinesMembers(nodes, nodes[i], nodes[i].dependencies);
      forall c | c in LinesFrom(nodes, i)
        ensures exists j, d :: i <= j < |nodes| && d in nodes[j].dependencies && DrawsLine(nodes, nodes[j], d, c)
      {
        if c in NodeLines(nodes, nodes[i], nodes[i].dependencies) {
          var d :| d in nodes[i].dependencies && DrawsLine(nodes, nodes[i], d, c);
        } else {
          assert c in LinesFrom(nodes, i + 1);
          var j, d :| i + 1 <= j < |nodes| && d in nodes[j].dependencies && DrawsLine(nodes, nodes[j], d, c);
        }
      }
      forall c, j, d | i <= j < |nodes| && d in nodes[j].dependencies && DrawsLine(nodes, nodes[j], d, c)
        ensures c in LinesFrom(nodes, i)
      {
        if j == i {
          assert c in NodeLines(nodes, nodes[i], nodes[i].dependencies);
        } else {
          assert c in LinesFrom(nodes, i + 1);
        }
      }
    }
  }

  /** The number of dependency ids of the nodes from position `i` on. */
  function DependencyCount(nodes: seq<Node>, i: nat): nat
    decreases |nodes| - i
  {
    if i >= |nodes| then 0 else |nodes[i].dependencies| + DependencyCount(nodes, i + 1)
  }

  /** Never more lines than dependency ids, and when every dependency resolves no edge is
      dropped: one line per dependency id. */
  lemma {:induction false} LinesCount(nodes: seq<Node>, i: nat)
    ensures |LinesFrom(nodes, i)| <= DependencyCount(nodes, i)
    ensures DepsResolve(nodes) ==> |LinesFrom(nodes, i)| == DependencyCount(nodes, i)
    decreases |nodes| - i
  {
    if i < |nodes| {
      LinesCount(nodes, i + 1);
      NodeLinesCount(nodes, nodes[i], nodes[i].dependencies);
      if DepsResolve(nodes) {
        forall d | d in nodes[i].dependencies ensures FindNode(nodes, d).Some? {
          var k :| 0 <= k < |nodes[i].dependencies| && nodes[i].dependencies[k] == d;
          FindNodeSpec(nodes, d);
        }
      }
    }
  }

  /** In a map whose dependencies all resolve, `renderConnections` draws one line per dependency. */
  lemma RenderDropsNothing(nodes: seq<Node>)
    requires DepsResolve(nodes)
    ensures |RenderConnections(nodes)| == DependencyCount(nodes, 0)
  {
    LinesCount(nodes, 0);
  }

  /** The shipped maps have 12, 8 and 11 dependency ids. */
  lemma ShippedDependencyCounts()
    ensures DependencyCount(DataStructuresNodes, 0) == 12
    ensures DependencyCount(AlgorithmNodes, 0) == 8
    ensures DependencyCount(WebDevNodes, 0) == 11
  {
    assert DependencyCount(DataStructuresNodes, 5) == 7;
    assert DependencyCount(AlgorithmNodes, 4) == 4;
    assert DependencyCount(WebDevNodes, 5) == 6;
  }

  /** Every dependency of the shipped maps resolves. */
  lemma ShippedDepsResolve()
    ensures DepsResolve(DataStructuresNodes) && DepsResolve(AlgorithmNodes) && DepsResolve(WebDevNodes)
  {
    DataStructuresWellFormed();
    AlgorithmWellFormed();
    WebDevWellFormed();
  }

  /** The shipped maps draw every edge: 12, 8 and 11 lines. */
  lemma ShippedLineCounts()
    ensures |RenderConnections(DataStructuresNodes)| == 12
    ensures |RenderConnections(AlgorithmNodes)| == 8
    ensures |RenderConnections(WebDevNodes)| == 11
  {
    ShippedDepsResolve();
    ShippedDependencyCounts();
    RenderDropsNothing(DataStructuresNodes);
    RenderDropsNothing(AlgorithmNodes);
    RenderDropsNothing(WebDevNodes);
  }

  /** The string a status is written as. */
  function StatusName(status: Status): string {
    match status
    case Completed => "completed"
    case InProgress => "in-progress"
    case Locked => "locked"
  }

  /** The string a node type is written as. */
  function TypeName(kind: NodeType): string {
    match kind
    case Concept => "concept"
    case Quiz => "quiz"
    case Practice => "practice"
  }

  /** `getNodeStatusColor(status)`, with its default for any other string. */
  function NodeStatusColor(status: string): string {
    if status == "completed" then "bg-green-100 border-green-400 text-green-700"
    else if status == "in-progress" then "bg-blue-100 border-blue-400 text-blue-700"
    else if status == "locked" then "bg-gray-100 border-gray-400 text-gray-500"
    else "bg-gray-100 border-gray-400"
  }

  /** `getNodeTypeText(type)`, with its default for any other string. */
  function NodeTypeText(kind: string): string {
    if kind == "concept" then "Learning Concept"
    else if kind == "quiz" then "Knowledge Quiz"
    else if kind == "practice" then "Coding Practice"
    else "Topic"
  }

  /** The lookups are total, and the status and type of a node never fall to a default: every
      status has its own colour and every type its own text. */
  lemma LookupsDistinguish(s: Status, t: Status, a: NodeType, b: NodeType)
    ensures NodeStatusColor(StatusName(s)) != "bg-gray-100 border-gray-400"
    ensures NodeTypeText(TypeName(a)) != "Topic"
    ensures s != t ==> NodeStatusColor(StatusName(s)) != NodeStatusColor(StatusName(t))
    ensures a != b ==> NodeTypeText(TypeName(a)) != NodeTypeText(TypeName(b))
  {
  }

  /** `disabled={node.status === 'locked'}`. */
  function ButtonDisabled(status: Status): bool {
    status == Locked
  }

  /** The action button's text. */
  function ButtonLabel(status: Status): (r: string)
    ensures r in ["Review Again", "Continue", "Unlock"]
  {
    if status == Completed then "Review Again" else if status == InProgress then "Continue" else "Unlock"
  }

  /** The button is disabled exactly when it reads "Unlock": an unlock button is never clickable,
      and every clickable button reviews or continues. */
  lemma DisabledExactlyWhenUnlock(status: Status)
    ensures ButtonDisabled(status) <==> ButtonLabel(status) == "Unlock"
    ensures ButtonLabel(status) == "Review Again" <==> status == Completed
    ensures ButtonLabel(status) == "Continue" <==> status == InProgress
  {
  }
}
