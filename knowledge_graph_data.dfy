/** The knowledge maps of `src/data/knowledgeGraphData.ts`: three lists of topic nodes whose
    dependencies name other nodes of the same list, and the map from subject to list. */
module KnowledgeGraphData {
  /** `status: 'completed' | 'in-progress' | 'locked'`. */
  datatype Status = Completed | InProgress | Locked

  /** `type: 'concept' | 'quiz' | 'practice'`. */
  datatype NodeType = Concept | Quiz | Practice

  /** Where a node is drawn. */
  datatype Position = Position(x: int, y: int)

  /** A node of a knowledge map, without its title and description. */
  datatype Node = Node(id: string, status: Status, kind: NodeType, dependencies: seq<string>, position: Position)

  /** No two nodes share an id. */
  predicate UniqueIds(nodes: seq<Node>) {
    forall i, j :: 0 <= i < j < |nodes| ==> nodes[i].id != nodes[j].id
  }

  /** Every dependency names a node of the list. */
  predicate DepsResolve(nodes: seq<Node>) {
    forall i, k :: 0 <= i < |nodes| && 0 <= k < |nodes[i].dependencies| ==>
      exists j :: 0 <= j < |nodes| && nodes[j].id == nodes[i].dependencies[k]
  }

  /** `index` tells, for every dependency, the position of the node it names, and that node
      comes earlier in the list. */
  predicate Witnesses(nodes: seq<Node>, index: seq<seq<nat>>) {
    |index| == |nodes| &&
    forall i :: 0 <= i < |nodes| ==>
      |index[i]| == |nodes[i].dependencies| &&
      forall k :: 0 <= k < |index[i]| ==> index[i][k] < i && nodes[index[i][k]].id == nodes[i].dependencies[k]
  }

  /** Node `i` depends on node `j`. */
  predicate DependsOn(nodes: seq<Node>, i: nat, j: nat)
    requires i < |nodes| && j < |nodes|
  {
    nodes[j].id in nodes[i].dependencies
  }

  /** A list with witnesses resolves every dependency. */
  lemma WitnessesResolve(nodes: seq<Node>, index: seq<seq<nat>>)
    requires Witnesses(nodes, index)
    ensures DepsResolve(nodes)
  {
    forall i, k | 0 <= i < |nodes| && 0 <= k < |nodes[i].dependencies|
      ensures exists j :: 0 <= j < |nodes| && nodes[j].id == nodes[i].dependencies[k]
    {
      var j := index[i][k];
      assert nodes[j].id == nodes[i].dependencies[k];
    }
  }

  /** With unique ids and witnesses, a node depends only on nodes listed before it. */
  lemma DependencyComesFirst(nodes: seq<Node>, index: seq<seq<nat>>, i: nat, j: nat)
    requires UniqueIds(nodes) && Witnesses(nodes, index)
    requires i < |nodes| && j < |nodes| && DependsOn(nodes, i, j)
    ensures j < i
    ensures exists k :: 0 <= k < |index[i]| && index[i][k] == j
  {
    var k :| 0 <= k < |nodes[i].dependencies| && nodes[i].dependencies[k] == nodes[j].id;
    var w := index[i][k];
    assert nodes[w].id == nodes[j].id;
    assert w == j;
  }

  /** The node at step `t` of a chain depends on the node at step `t + 1`. */
  predicate StepDepends(nodes: seq<Node>, path: seq<nat>, t: int)
    requires 0 <= t < |path| - 1
  {
    path[t] < |nodes| && path[t + 1] < |nodes| && DependsOn(nodes, path[t], path[t + 1])
  }

  /** A chain of dependencies: each node depends on the next. */
  predicate DependencyChain(nodes: seq<Node>, path: seq<nat>) {
    (forall t :: 0 <= t < |path| ==> path[t] < |nodes|) &&
    forall t :: 0 <= t < |path| - 1 ==> StepDepends(nodes, path, t)
  }

  /** Along a chain of dependencies the positions strictly fall, so no chain returns to where
      it started: the dependency graph has no cycle. */
  lemma {:induction false} NoCycle(nodes: seq<Node>, index: seq<seq<nat>>, path: seq<nat>)
    requires UniqueIds(nodes) && Witnesses(nodes, index)
    requires |path| >= 2 && DependencyChain(nodes, path)
    ensures path[|path| - 1] < path[0]
    decreases |path|
  {
    assert StepDepends(nodes, path, 0);
    DependencyComesFirst(nodes, index, path[0], path[1]);
    if |path| > 2 {
      var rest := path[1..];
      forall t | 0 <= t < |rest| - 1 ensures StepDepends(nodes, rest, t) {
        assert StepDepends(nodes, path, t + 1);
      }
      NoCycle(nodes, index, rest);
    }
  }

  /** No chain of dependencies of two or more steps returns to its start. */
  ghost predicate Acyclic(nodes: seq<Node>) {
    forall path :: |path| >= 2 && DependencyChain(nodes, path) ==> path[|path| - 1] != path[0]
  }

  /** Unique ids and dependencies listed earlier make the graph acyclic. */
  lemma WitnessesAcyclic(nodes: seq<Node>, index: seq<seq<nat>>)
    requires UniqueIds(nodes) && Witnesses(nodes, index)
    ensures Acyclic(nodes)
  {
    forall path | |path| >= 2 && DependencyChain(nodes, path) ensures path[|path| - 1] != path[0] {
      NoCycle(nodes, index, path);
    }
  }

  /** The statuses respect the dependencies: a completed node depends only on completed
      nodes, and a node that is not locked only on nodes that are not locked. */
  predicate StatusesRespectDeps(nodes: seq<Node>, index: seq<seq<nat>>)
    requires Witnesses(nodes, index)
  {
    forall i, k :: 0 <= i < |nodes| && 0 <= k < |index[i]| ==>
      (nodes[i].status == Completed ==> nodes[index[i][k]].status == Completed) &&
      (nodes[i].status != Locked ==> nodes[index[i][k]].status != Locked)
  }

  /** The same, for every pair of nodes where one depends on the other. */
  lemma StatusesAlongDeps(nodes: seq<Node>, index: seq<seq<nat>>, i: nat, j: nat)
    requires UniqueIds(nodes) && Witnesses(nodes, index) && StatusesRespectDeps(nodes, index)
    requires i < |nodes| && j < |nodes| && DependsOn(nodes, i, j)
    ensures nodes[i].status == Completed ==> nodes[j].status == Completed
    ensures nodes[i].status != Locked ==> nodes[j].status != Locked
  {
    DependencyComesFirst(nodes, index, i, j);
  }

  /** The dependencies of node `i` from the `k`-th on are checked: each is listed earlier under
      the position `index` gives, and the statuses respect it. */
  function DepsCheckedFrom(nodes: seq<Node>, index: seq<seq<nat>>, i: nat, k: nat): bool
    requires i < |nodes| && i < |index|
    decreases |index[i]| - k
  {
    k >= |index[i]| ||
    (index[i][k] < i && k < |nodes[i].dependencies| && nodes[index[i][k]].id == nodes[i].dependencies[k] &&
     (nodes[i].status == Completed ==> nodes[index[i][k]].status == Completed) &&
     (nodes[i].status != Locked ==> nodes[index[i][k]].status != Locked) &&
     DepsCheckedFrom(nodes, index, i, k + 1))
  }

  /** The nodes from the `i`-th on are checked. */
  function NodesCheckedFrom(nodes: seq<Node>, index: seq<seq<nat>>, i: nat): bool
    requires |index| == |nodes|
    decreases |nodes| - i
  {
    i >= |nodes| ||
    (|index[i]| == |nodes[i].dependencies| && DepsCheckedFrom(nodes, index, i, 0) && NodesCheckedFrom(nodes, index, i + 1))
  }

  /** What checking the dependencies of one node establishes. */
  lemma {:induction false} DepsCheckedSound(nodes: seq<Node>, index: seq<seq<nat>>, i: nat, k: nat)
    requires i < |nodes| && i < |index| && DepsCheckedFrom(nodes, index, i, k)
    ensures forall m :: k <= m < |index[i]| ==>
      index[i][m] < i && m < |nodes[i].dependencies| && nodes[index[i][m]].id == nodes[i].dependencies[m] &&
      (nodes[i].status == Completed ==> nodes[index[i][m]].status == Completed) &&
      (nodes[i].status != Locked ==> nodes[index[i][m]].status != Locked)
    decreases |index[i]| - k
  {
    if k < |index[i]| {
      DepsCheckedSound(nodes, index, i, k + 1);
    }
  }

  /** What checking the nodes establishes. */
  lemma {:induction false} NodesCheckedSound(nodes: seq<Node>, index: seq<seq<nat>>, i: nat)
    requires |index| == |nodes| && NodesCheckedFrom(nodes, index, i)
    ensures forall j :: i <= j < |nodes| ==>
      (|index[j]| == |nodes[j].dependencies| &&
       forall m :: 0 <= m < |index[j]| ==>
         index[j][m] < j && nodes[index[j][m]].id == nodes[j].dependencies[m] &&
         (nodes[j].status == Completed ==> nodes[index[j][m]].status == Completed) &&
         (nodes[j].status != Locked ==> nodes[index[j][m]].status != Locked))
    decreases |nodes| - i
  {
    if i < |nodes| {
      DepsCheckedSound(nodes, index, i, 0);
      NodesCheckedSound(nodes, index, i + 1);
    }
  }

  /** Node `i`'s id differs from the ids of the nodes from the `j`-th on. */
  function IdDiffersFrom(nodes: seq<Node>, i: nat, j: nat): bool
    requires i < |nodes|
    decreases |nodes| - j
  {
    j >= |nodes| || (nodes[i].id != nodes[j].id && IdDiffersFrom(nodes, i, j + 1))
  }

  /** Every node from the `i`-th on has an id that no later node has. */
  function IdsCheckedFrom(nodes: seq<Node>, i: nat): bool
    decreases |nodes| - i
  {
    i >= |nodes| || (IdDiffersFrom(nodes, i, i + 1) && IdsCheckedFrom(nodes, i + 1))
  }

  /** What checking the ids establishes. */
  lemma {:induction false} IdsCheckedSound(nodes: seq<Node>, i: nat)
    requires IdsCheckedFrom(nodes, i)
    ensures forall a, b :: i <= a < b < |nodes| ==> nodes[a].id != nodes[b].id
    decreases |nodes| - i
  {
    if i < |nodes| {
      IdDiffersSound(nodes, i, i + 1);
      IdsCheckedSound(nodes, i + 1);
    }
  }

  /** What checking one id establishes. */
  lemma {:induction false} IdDiffersSound(nodes: seq<Node>, i: nat, j: nat)
    requires i < |nodes| && IdDiffersFrom(nodes, i, j)
    ensures forall b :: j <= b < |nodes| ==> nodes[i].id != nodes[b].id
    decreases |nodes| - j
  {
    if j < |nodes| {
      IdDiffersSound(nodes, i, j + 1);
    }
  }

  /** Every node from the `i`-th on has a dependency. */
  function HaveDepsFrom(nodes: seq<Node>, i: nat): bool
    decreases |nodes| - i
  {
    i >= |nodes| || (nodes[i].dependencies != [] && HaveDepsFrom(nodes, i + 1))
  }

  /** What checking for dependencies establishes. */
  lemma {:induction false} HaveDepsSound(nodes: seq<Node>, i: nat)
    requires HaveDepsFrom(nodes, i)
    ensures forall j :: i <= j < |nodes| ==> nodes[j].dependencies != []
    decreases |nodes| - i
  {
    if i < |nodes| {
      HaveDepsSound(nodes, i + 1);
    }
  }

  /** A map is well formed: unique ids, every dependency resolved, and no cycle. */
  ghost predicate WellFormedGraph(nodes: seq<Node>) {
    UniqueIds(nodes) && DepsResolve(nodes) && Acyclic(nodes)
  }

  /** A map that passes the checks with some index is well formed and its statuses respect
      its dependencies. */
  lemma CheckedGraphWellFormed(nodes: seq<Node>, index: seq<seq<nat>>)
    requires |index| == |nodes| && IdsCheckedFrom(nodes, 0) && NodesCheckedFrom(nodes, index, 0)
    ensures Witnesses(nodes, index) && StatusesRespectDeps(nodes, index)
    ensures WellFormedGraph(nodes)
  {
    IdsCheckedSound(nodes, 0);
    NodesCheckedSound(nodes, index, 0);
    WitnessesResolve(nodes, index);
    WitnessesAcyclic(nodes, index);
  }

  /** `dataStructuresNodes`. */
  const DataStructuresNodes: seq<Node> := [
    Node("arrays", Completed, Concept, [], Position(150, 100)),
    Node("linkedLists", Completed, Concept, ["arrays"], Position(300, 100)),
    Node("stacks", InProgress, Concept, ["arrays", "linkedLists"], Position(200, 200)),
    Node("queues", InProgress, Concept, ["linkedLists"], Position(400, 200)),
    Node("stackQuiz", Locked, Quiz, ["stacks"], Position(200, 300)),
    Node("queueQuiz", Locked, Quiz, ["queues"], Position(400, 300)),
    Node("trees", Locked, Concept, ["linkedLists"], Position(550, 150)),
    Node("graphs", Locked, Concept, ["trees"], Position(650, 250)),
    Node("stackImpl", Locked, Practice, ["stacks", "stackQuiz"], Position(200, 400)),
    Node("queueImpl", Locked, Practice, ["queues", "queueQuiz"], Position(400, 400))
  ]

  /** Where each dependency of `dataStructuresNodes` is listed. */
  const DataStructuresIndex: seq<seq<nat>> := [[], [0], [0, 1], [1], [2], [3], [1], [6], [2, 4], [3, 5]]

  /** The ids of the data structures map pass their checks, and only its first node has no dependency. */
  lemma DataStructuresIdsChecked()
    ensures IdsCheckedFrom(DataStructuresNodes, 0)
    ensures HaveDepsFrom(DataStructuresNodes, 1)
  {
    assert IdsCheckedFrom(DataStructuresNodes, 5);
    assert IdsCheckedFrom(DataStructuresNodes, 0);
  }

  /** The dependencies of the data structures map pass their checks. */
  lemma DataStructuresDepsChecked()
    ensures |DataStructuresIndex| == |DataStructuresNodes| && NodesCheckedFrom(DataStructuresNodes, DataStructuresIndex, 0)
  {
    assert NodesCheckedFrom(DataStructuresNodes, DataStructuresIndex, 0);
  }

  /** The data structures map is well formed, its statuses respect its dependencies, and `arrays` is its only root. */
  lemma DataStructuresWellFormed()
    ensures WellFormedGraph(DataStructuresNodes)
    ensures Witnesses(DataStructuresNodes, DataStructuresIndex) && StatusesRespectDeps(DataStructuresNodes, DataStructuresIndex)
    ensures forall i :: 0 <= i < |DataStructuresNodes| ==> (DataStructuresNodes[i].dependencies == [] <==> i == 0)
    ensures DataStructuresNodes[0].id == "arrays"
  {
    DataStructuresIdsChecked();
    DataStructuresDepsChecked();
    CheckedGraphWellFormed(DataStructuresNodes, DataStructuresIndex);
    HaveDepsSound(DataStructuresNodes, 1);
  }

  /** `algorithmNodes`. */
  const AlgorithmNodes: seq<Node> := [
    Node("timeComplexity", Completed, Concept, [], Position(150, 100)),
    Node("spaceComplexity", Completed, Concept, ["timeComplexity"], Position(300, 100)),
    Node("searching", InProgress, Concept, ["timeComplexity"], Position(200, 200)),
    Node("sorting", InProgress, Concept, ["timeComplexity", "spaceComplexity"], Position(400, 200)),
    Node("binarySearch", Locked, Practice, ["searching"], Position(200, 300)),
    Node("quickSort", Locked, Practice, ["sorting"], Position(400, 300)),
    Node("recursion", Locked, Concept, ["sorting"], Position(550, 150)),
    Node("dp", Locked, Concept, ["recursion"], Position(650, 250))
  ]

  /** Where each dependency of `algorithmNodes` is listed. */
  const AlgorithmIndex: seq<seq<nat>> := [[], [0], [0], [0, 1], [2], [3], [3], [6]]

  /** The ids of the algorithms map pass their checks, and only its first node has no dependency. */
  lemma AlgorithmIdsChecked()
    ensures IdsCheckedFrom(AlgorithmNodes, 0)
    ensures HaveDepsFrom(AlgorithmNodes, 1)
  {
    assert IdsCheckedFrom(AlgorithmNodes, 5);
    assert IdsCheckedFrom(AlgorithmNodes, 0);
  }

  /** The dependencies of the algorithms map pass their checks. */
  lemma AlgorithmDepsChecked()
    ensures |AlgorithmIndex| == |AlgorithmNodes| && NodesCheckedFrom(AlgorithmNodes, AlgorithmIndex, 0)
  {
    assert NodesCheckedFrom(AlgorithmNodes, AlgorithmIndex, 0);
  }

  /** The algorithms map is well formed, its statuses respect its dependencies, and `timeComplexity` is its only root. */
  lemma AlgorithmWellFormed()
    ensures WellFormedGraph(AlgorithmNodes)
    ensures Witnesses(AlgorithmNodes, AlgorithmIndex) && StatusesRespectDeps(AlgorithmNodes, AlgorithmIndex)
    ensures forall i :: 0 <= i < |AlgorithmNodes| ==> (AlgorithmNodes[i].dependencies == [] <==> i == 0)
    ensures AlgorithmNodes[0].id == "timeComplexity"
  {
    AlgorithmIdsChecked();
    AlgorithmDepsChecked();
    CheckedGraphWellFormed(AlgorithmNodes, AlgorithmIndex);
    HaveDepsSound(AlgorithmNodes, 1);
  }

  /** `webDevNodes`. */
  const WebDevNodes: seq<Node> := [
    Node("html", Completed, Concept, [], Position(150, 100)),
    Node("css", Completed, Concept, ["html"], Position(300, 100)),
    Node("htmlQuiz", Completed, Quiz, ["html"], Position(150, 200)),
    Node("cssQuiz", InProgress, Quiz, ["css"], Position(300, 200)),
    Node("javascript", InProgress, Concept, ["html", "css"], Position(450, 150)),
    Node("jsQuiz", Locked, Quiz, ["javascript"], Position(450, 250)),
    Node("responsiveDesign", Locked, Concept, ["css"], Position(300, 300)),
    Node("portfolioProject", Locked, Practice, ["javascript", "responsiveDesign"], Position(450, 350)),
    Node("react", Locked, Concept, ["javascript"], Position(600, 200)),
    Node("reactProject", Locked, Practice, ["react"], Position(600, 300))
  ]

  /** Where each dependency of `webDevNodes` is listed. */
  const WebDevIndex: seq<seq<nat>> := [[], [0], [0], [1], [0, 1], [4], [1], [4, 6], [4], [8]]

  /** The ids of the web development map pass their checks, and only its first node has no dependency. */
  lemma WebDevIdsChecked()
    ensures IdsCheckedFrom(WebDevNodes, 0)
    ensures HaveDepsFrom(WebDevNodes, 1)
  {
    assert IdsCheckedFrom(WebDevNodes, 5);
    assert IdsCheckedFrom(WebDevNodes, 0);
  }

  /** The dependencies of the web development map pass their checks. */
  lemma WebDevDepsChecked()
    ensures |WebDevIndex| == |WebDevNodes| && NodesCheckedFrom(WebDevNodes, WebDevIndex, 0)
  {
    assert NodesCheckedFrom(WebDevNodes, WebDevIndex, 0);
  }

  /** The web development map is well formed, its statuses respect its dependencies, and `html` is its only root. */
  lemma WebDevWellFormed()
    ensures WellFormedGraph(WebDevNodes)
    ensures Witnesses(WebDevNodes, WebDevIndex) && StatusesRespectDeps(WebDevNodes, WebDevIndex)
    ensures forall i :: 0 <= i < |WebDevNodes| ==> (WebDevNodes[i].dependencies == [] <==> i == 0)
    ensures WebDevNodes[0].id == "html"
  {
    WebDevIdsChecked();
    WebDevDepsChecked();
    CheckedGraphWellFormed(WebDevNodes, WebDevIndex);
    HaveDepsSound(WebDevNodes, 1);
  }

  /** `knowledgeGraphs`: subject name to node list. */
  const KnowledgeGraphs: map<string, seq<Node>> :=
    map["Data Structures" := DataStructuresNodes, "Algorithms" := AlgorithmNodes, "Web Development" := WebDevNodes]

  /** Every map of `knowledgeGraphs` is well formed. */
  lemma KnowledgeGraphsWellFormed()
    ensures forall subject :: subject in KnowledgeGraphs ==> WellFormedGraph(KnowledgeGraphs[subject])
  {
    DataStructuresWellFormed();
    AlgorithmWellFormed();
    WebDevWellFormed();
  }
}
