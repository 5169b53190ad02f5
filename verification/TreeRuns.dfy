/**
 The tree store over whole runs (crates/agent-store/src/testing.rs): any sequence of creating nodes,
 saving them, switching their versions and starting nodes with others' rows.
 */
module TreeRuns {
  import opened Wrappers
  import opened Blocks
  import opened Versions
  import opened TreeStore
  import opened TreeBranches
  import opened TreeSwitch
  import opened StoredNodes

  type NodeId = nat

  datatype Operation =
    | Create(id: NodeId, initial: Update)
    | CreateAfter(id: NodeId, source: NodeId, leaf: nat, length: nat, initial: Update)
    | Save(id: NodeId, update: Update)
    | Switch(id: NodeId, position: nat, version: nat)

  ghost predicate StoreShape(nodes: map<NodeId, Node>) {
    forall id :: id in nodes ==> Shape(nodes[id])
  }

  /** A node whose path is a copy of the rows another's prefix names. */
  function Started(copied: seq<Row>): Node {
    Node(copied, seq(|copied|, k => k), None)
  }

  lemma {:induction false} StartedShape(rows: seq<Row>, chain: seq<nat>)
    requires forall k :: 0 <= k < |chain| ==> chain[k] < |rows|
    ensures Shape(Started(CopiedRows(rows, chain)))
    ensures |PathBlocks(Started(CopiedRows(rows, chain)))| == |chain|
    ensures forall k :: 0 <= k < |chain| ==>
                          PathBlocks(Started(CopiedRows(rows, chain)))[k] == rows[chain[k]].block
  {
    var n := Started(CopiedRows(rows, chain));
    forall k | 0 <= k < |n.path| ensures n.rows[n.path[k]].follows == Parent(n.path, k) {
      assert n.path[k] == k;
      if k > 0 { assert n.path[k - 1] == k - 1; }
    }
  }

  /** The store after one operation; one that is refused leaves what the realization leaves. */
  function Step(nodes: map<NodeId, Node>, op: Operation): (after: map<NodeId, Node>)
    requires StoreShape(nodes)
    requires op.CreateAfter? && op.source in nodes ==> op.leaf < |nodes[op.source].rows|
    ensures StoreShape(after)
  {
    match op
    case Create(id, initial) =>
      if id in nodes then nodes else nodes[id := Saved(Node([], [], None), initial).0]
    case CreateAfter(id, source, leaf, length, initial) =>
      if id in nodes || source !in nodes then nodes
      else (
        match Prefix(nodes[source].rows, leaf, length)
        case Err(_) => nodes
        case Ok(copied) =>
          StartedShape(nodes[source].rows, Tail(nodes[source].rows, leaf, None));
          nodes[id := Saved(Started(copied), initial).0])
    case Save(id, update) =>
      if id in nodes then nodes[id := Saved(nodes[id], update).0] else nodes
    case Switch(id, position, version) =>
      if id !in nodes then nodes
      else (
        match Switched(nodes[id], position, version)
        case Err(_) => nodes
        case Ok(switched) =>
          SwitchKeepsTheShape(nodes[id], position, version);
          nodes[id := switched.0])
  }

  lemma {:induction false} StepGrows(nodes: map<NodeId, Node>, op: Operation, id: NodeId)
    requires StoreShape(nodes) && id in nodes
    requires op.CreateAfter? && op.source in nodes ==> op.leaf < |nodes[op.source].rows|
    ensures id in Step(nodes, op) && Grown(nodes[id].rows, Step(nodes, op)[id].rows)
  {
    if op.Switch? && op.id == id && Switched(nodes[id], op.position, op.version).Ok? {
      SwitchKeepsTheShape(nodes[id], op.position, op.version);
    }
  }

  /** A run: each operation is one its callers can ask for, a prefix being one a node of the store
      gave out. */
  ghost predicate Runs(states: seq<map<NodeId, Node>>, ops: seq<Operation>) {
    && |states| == |ops| + 1 && states[0] == map[]
    && forall i :: 0 <= i < |ops| ==>
                     && StoreShape(states[i])
                     && (ops[i].CreateAfter? && ops[i].source in states[i] ==>
                           ops[i].leaf < |states[i][ops[i].source].rows|)
                     && states[i + 1] == Step(states[i], ops[i])
  }

  /** Over every run, each node's rows follow and replace older rows only, its path is a parent chain
      from a row with no parent, and no row is removed, given another parent or made to replace
      another row. */
  lemma {:induction false} EveryRunKeepsTheTree(states: seq<map<NodeId, Node>>, ops: seq<Operation>, i: nat, j: nat)
    requires Runs(states, ops) && i <= j < |states|
    ensures StoreShape(states[j])
    ensures forall id :: id in states[i] ==> id in states[j] && Grown(states[i][id].rows, states[j][id].rows)
  {
    if i < j {
      EveryRunKeepsTheTree(states, ops, i, j - 1);
      assert states[j - 1 + 1] == Step(states[j - 1], ops[j - 1]);
      forall id | id in states[i] ensures id in states[j] && Grown(states[i][id].rows, states[j][id].rows) {
        StepGrows(states[j - 1], ops[j - 1], id);
      }
    } else if 0 < j {
      assert states[j - 1 + 1] == Step(states[j - 1], ops[j - 1]);
    }
  }

  // The row an append may stand in for.

  /** A row that was cut off stood where the path ends now, so that what is appended stands in for it there. */
  ghost predicate CutWhereThePathEnds(n: Node) {
    n.cut.Some? ==> n.cut.value < |n.rows| && n.rows[n.cut.value].follows == Parent(n.path, |n.path|)
  }

  lemma {:induction false} ACutIsWhereThePathEnds(n: Node, u: Update)
    requires Shape(n) && CutWhereThePathEnds(n)
    ensures CutWhereThePathEnds(Begin(n, u).node)
  {
    var cut := CutAt(n, u);
    if cut == |n.path| {
      assert n.path[..cut] == n.path;
    } else {
      assert Parent(n.path[..cut], cut) == Parent(n.path, cut);
      assert n.rows[n.path[cut]].follows == Parent(n.path, cut);
    }
  }

  lemma {:induction false} WritingKeepsTheCut(s: Saving, cut: nat, changed: seq<Change>)
    requires SavingShape(s) && cut <= |s.node.path| && CutWhereThePathEnds(s.node)
    ensures CutWhereThePathEnds(Write(s, cut, changed).0.node)
    decreases |changed|
  {
    if changed != [] {
      var c := changed[0];
      if c.position < cut {
        MarkShape(s, c.position, c.block);
        WritingKeepsTheCut(Mark(s, c.position, c.block), cut, changed[1..]);
      } else if c.position == |s.node.path| {
        AppendShape(s, c.block);
        WritingKeepsTheCut(Append(s, c.block), cut, changed[1..]);
      }
    }
  }

  lemma {:induction false} ASaveKeepsTheCut(n: Node, u: Update)
    requires Shape(n) && CutWhereThePathEnds(n)
    ensures CutWhereThePathEnds(Saved(n, u).0)
  {
    BeginShape(n, u);
    ACutIsWhereThePathEnds(n, u);
    WritingKeepsTheCut(Begin(n, u), CutAt(n, u), u.changed);
  }

  ghost predicate AllCutsWhereThePathsEnd(nodes: map<NodeId, Node>) {
    forall id :: id in nodes ==> CutWhereThePathEnds(nodes[id])
  }

  lemma {:induction false} ANewNodeCutsNothing(nodes: map<NodeId, Node>, op: Operation)
    requires StoreShape(nodes) && AllCutsWhereThePathsEnd(nodes) && op.CreateAfter?
    requires op.source in nodes ==> op.leaf < |nodes[op.source].rows|
    ensures AllCutsWhereThePathsEnd(Step(nodes, op))
  {
    if op.source in nodes && Prefix(nodes[op.source].rows, op.leaf, op.length).Ok? {
      var copied := Prefix(nodes[op.source].rows, op.leaf, op.length).value;
      StartedShape(nodes[op.source].rows, Tail(nodes[op.source].rows, op.leaf, None));
      ASaveKeepsTheCut(Started(copied), op.initial);
    }
  }

  lemma {:induction false} ASaveStepKeepsTheCuts(nodes: map<NodeId, Node>, op: Operation)
    requires StoreShape(nodes) && AllCutsWhereThePathsEnd(nodes) && (op.Create? || op.Save?)
    ensures AllCutsWhereThePathsEnd(Step(nodes, op))
  {
    if op.Create? {
      ASaveKeepsTheCut(Node([], [], None), op.initial);
    } else if op.id in nodes {
      ASaveKeepsTheCut(nodes[op.id], op.update);
    }
  }

  lemma {:induction false} ASwitchKeepsTheCuts(nodes: map<NodeId, Node>, op: Operation)
    requires StoreShape(nodes) && AllCutsWhereThePathsEnd(nodes) && op.Switch?
    ensures AllCutsWhereThePathsEnd(Step(nodes, op))
  {
  }

  lemma {:induction false} AStepKeepsTheCuts(nodes: map<NodeId, Node>, op: Operation)
    requires StoreShape(nodes) && AllCutsWhereThePathsEnd(nodes)
    requires op.CreateAfter? && op.source in nodes ==> op.leaf < |nodes[op.source].rows|
    ensures AllCutsWhereThePathsEnd(Step(nodes, op))
  {
    if op.CreateAfter? {
      ANewNodeCutsNothing(nodes, op);
    } else if op.Switch? {
      ASwitchKeepsTheCuts(nodes, op);
    } else {
      ASaveStepKeepsTheCuts(nodes, op);
    }
  }

  /** Over every run, refused saves included, a row that was cut off stood where its node's path ends: a save that
      only appends makes a version, or joins the cut row's, at that place. */
  lemma {:induction false} EveryRunCutsWhereThePathsEnd(states: seq<map<NodeId, Node>>, ops: seq<Operation>, j: nat)
    requires Runs(states, ops) && j < |states|
    ensures AllCutsWhereThePathsEnd(states[j])
  {
    if j > 0 {
      EveryRunCutsWhereThePathsEnd(states, ops, j - 1);
      EveryRunKeepsTheTree(states, ops, j - 1, j - 1);
      assert states[j - 1 + 1] == Step(states[j - 1], ops[j - 1]);
      AStepKeepsTheCuts(states[j - 1], ops[j - 1]);
    }
  }

  // A prefix stays what it was.

  lemma {:induction false} GrownKeepsTails(a: seq<Row>, b: seq<Row>, row: nat, parent: Option<nat>)
    requires Rooted(a) && Rooted(b) && Grown(a, b) && row < |a|
    ensures Tail(a, row, parent) == Tail(b, row, parent)
    decreases row
  {
    if a[row].follows.Some? && a[row].follows != parent {
      GrownKeepsTails(a, b, a[row].follows.value, parent);
    }
  }

  lemma {:induction false} APrefixOfAGrownNode(n: Node, rows: seq<Row>, length: nat)
    requires Shape(n) && Rooted(rows) && Grown(n.rows, rows) && 1 <= length <= |n.path|
    ensures forall k :: 0 <= k < length ==> n.path[k] < |rows|
    ensures Prefix(rows, n.path[length - 1], length) == Ok(CopiedRows(rows, n.path[..length]))
  {
    GrownKeepsTails(n.rows, rows, n.path[length - 1], None);
    APathIsItsTail(n, 0, length - 1);
    assert n.path[0..length - 1 + 1] == n.path[..length];
  }

  /** A prefix that a node gave out is taken at any later time, whatever was saved or switched
      meanwhile, and the node started with it has the prefix's rows as its path, in their order. */
  lemma {:induction false} APrefixIsTakenAtAnyLaterTime(
      states: seq<map<NodeId, Node>>, ops: seq<Operation>, i: nat, j: nat,
                                     id: NodeId, length: nat)
    requires Runs(states, ops) && i <= j < |states| && id in states[i]
    requires 1 <= length <= |states[i][id].path|
    ensures id in states[j] && Shape(states[i][id]) && Shape(states[j][id])
    ensures forall k :: 0 <= k < length ==> states[i][id].path[k] < |states[j][id].rows|
    ensures Prefix(states[j][id].rows, states[i][id].path[length - 1], length)
            == Ok(CopiedRows(states[j][id].rows, states[i][id].path[..length]))
  {
    EveryRunKeepsTheTree(states, ops, i, j);
    EveryRunKeepsTheTree(states, ops, i, i);
    APrefixOfAGrownNode(states[i][id], states[j][id].rows, length);
  }
}
