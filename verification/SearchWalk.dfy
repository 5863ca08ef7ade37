/** Walks over a search tree: all terminals by depth-first search, and the way from the root to a node. */
module SearchWalk {
  import opened Wrappers
  import opened Scorer
  import opened SearchTree

  // ----- Depth-first search -----

  ghost predicate Distinct(s: seq<nat>) { forall j, k :: 0 <= j < k < |s| ==> s[j] != s[k] }

  /** The stack holds exactly the nodes whose parent is done and that are not done themselves. */
  ghost predicate Frontier<P, M>(tree: Tree<P, M>, done: set<nat>, stack: seq<nat>) {
    && Distinct(stack)
    && (forall i :: i in done || i in stack ==> 0 <= i < |tree|)
    && (forall i :: i in stack ==> i !in done)
    && (0 in done || 0 in stack)
    && forall i :: 0 < i < |tree| ==> ((i in done || i in stack) <==> tree[i].parent.Some? && tree[i].parent.value in done)
  }

  lemma PopDistinct(stack: seq<nat>, kids: seq<nat>)
    requires stack != [] && Distinct(stack) && Distinct(kids) && forall c :: c in kids ==> c !in stack
    ensures Distinct(stack[..|stack| - 1] + kids)
  {
    var rest := stack[..|stack| - 1];
    var all := rest + kids;
    forall j, k | 0 <= j < k < |all| ensures all[j] != all[k] {
      if j < |rest| <= k { assert all[j] in stack && all[k] in kids; }
    }
  }

  lemma FrontierStep<P(!new), M(!new)>(r: Rules<P, M>, tree: Tree<P, M>, done: set<nat>, stack: seq<nat>)
    requires Linked(r, tree) && Frontier(tree, done, stack) && stack != []
    ensures var node := stack[|stack| - 1];
            node < |tree| && Frontier(tree, done + {node}, stack[..|stack| - 1] + tree[node].children)
  {
    var node := stack[|stack| - 1];
    assert node in stack;
    var kids := tree[node].children;
    var rest := stack[..|stack| - 1];
    assert NodeOk(r, tree, node);
    assert forall i :: i in stack <==> i in rest || i == node;
    assert node !in rest;
    forall c | c in kids ensures c !in stack && c !in done && c < |tree| && c > 0 && tree[c].parent == Some(node) {
    }
    PopDistinct(stack, kids);
    forall i | 0 < i < |tree|
      ensures (i in done + {node} || i in rest + kids) <==> tree[i].parent.Some? && tree[i].parent.value in done + {node}
    {
      assert NodeOk(r, tree, i);
    }
  }

  lemma {:induction false} AllDone<P(!new), M(!new)>(r: Rules<P, M>, tree: Tree<P, M>, done: set<nat>, i: nat)
    requires Linked(r, tree) && Frontier(tree, done, []) && i < |tree|
    ensures i in done
  {
    assert NodeOk(r, tree, i);
    if i > 0 { AllDone(r, tree, done, tree[i].parent.value); }
  }

  lemma {:induction false} BelowSize(n: nat, s: set<nat>)
    requires forall i :: i in s ==> i < n
    ensures |s| <= n
  {
    if n > 0 {
      BelowSize(n - 1, s - {n - 1});
    } else {
      assert s == {};
    }
  }

  /** Every terminal of the tree, each once. */
  method TerminalNodes<P(!new), M(!new)>(r: Rules<P, M>, tree: Tree<P, M>) returns (found: seq<nat>)
    requires Linked(r, tree)
    ensures forall i :: i in found <==> 0 <= i < |tree| && r.terminal(tree[i].position)
    ensures Distinct(found)
  {
    found := [];
    var stack: seq<nat> := [0];
    ghost var done: set<nat> := {};
    forall i | 0 < i < |tree| ensures tree[i].parent.Some? { assert NodeOk(r, tree, i); }
    while stack != []
      invariant Frontier(tree, done, stack)
      invariant forall i :: i in found <==> i in done && r.terminal(tree[i].position)
      invariant Distinct(found)
      decreases |tree| - |done|
    {
      var node: nat := stack[|stack| - 1];
      FrontierStep(r, tree, done, stack);
      stack := stack[..|stack| - 1] + tree[node].children;
      if r.terminal(tree[node].position) { found := found + [node]; }
      done := done + {node};
      BelowSize(|tree|, done);
    }
    forall i | 0 <= i < |tree| ensures i in done { AllDone(r, tree, done, i); }
  }

  // ----- The way to a node -----

  /** The nodes from the root to a node. */
  function Line<P, M>(tree: Tree<P, M>, i: nat): (r: seq<nat>)
    ensures r != [] && r[|r| - 1] == i
  {
    if i < |tree| && tree[i].parent.Some? && tree[i].parent.value < i then Line(tree, tree[i].parent.value) + [i] else [i]
  }

  /** The moves from the root to a node. */
  function LineMoves<P, M>(tree: Tree<P, M>, i: nat): seq<M> {
    if i < |tree| && tree[i].parent.Some? && tree[i].parent.value < i && tree[i].move.Some?
    then LineMoves(tree, tree[i].parent.value) + [tree[i].move.value] else []
  }

  lemma {:induction false} LineIsPath<P(!new), M(!new)>(r: Rules<P, M>, tree: Tree<P, M>, i: nat)
    requires Linked(r, tree) && i < |tree|
    ensures PathOk(tree, Line(tree, i)) && |Line(tree, i)| == |LineMoves(tree, i)| + 1
  {
    assert NodeOk(r, tree, i);
    if i > 0 { LineIsPath(r, tree, tree[i].parent.value); }
  }

  /** `_node_path`, climbing from the node to the root. */
  method NodePath<P(!new), M(!new)>(r: Rules<P, M>, tree: Tree<P, M>, terminal: nat) returns (nodes: seq<nat>)
    requires Linked(r, tree) && terminal < |tree|
    ensures nodes == Line(tree, terminal)
  {
    nodes := [terminal];
    var current: nat := terminal;
    assert NodeOk(r, tree, current);
    while tree[current].parent.Some?
      invariant current < |tree| && NodeOk(r, tree, current)
      invariant nodes != [] && nodes[0] == current
      invariant Line(tree, current) + nodes[1..] == Line(tree, terminal)
      decreases current
    {
      current := tree[current].parent.value;
      nodes := [current] + nodes;
      assert NodeOk(r, tree, current);
    }
    assert nodes == [current] + nodes[1..];
  }

  /** `_path_to`, climbing from the node to the root. */
  method PathTo<P(!new), M(!new)>(r: Rules<P, M>, tree: Tree<P, M>, node: nat) returns (moves: seq<M>)
    requires Linked(r, tree) && node < |tree|
    ensures moves == LineMoves(tree, node)
  {
    moves := [];
    var current: nat := node;
    assert NodeOk(r, tree, current);
    while tree[current].move.Some?
      invariant current < |tree| && NodeOk(r, tree, current)
      invariant LineMoves(tree, current) + moves == LineMoves(tree, node)
      decreases current
    {
      moves := [tree[current].move.value] + moves;
      current := tree[current].parent.value;
      assert NodeOk(r, tree, current);
    }
  }

  // ----- Backup -----

  /** The loop that gives the visit and the value to every node of the path. */
  method BackUp<P(!new), M(!new)>(r: Rules<P, M>, tree: Tree<P, M>, path: seq<nat>, value: real) returns (t: Tree<P, M>)
    requires Linked(r, tree) && PathOk(tree, path)
    ensures t == Bump(tree, path, value)
  {
    t := tree;
    for k := 0 to |path|
      invariant t == Bump(tree, path[..k], value)
    {
      var visited := path[k];
      forall j | 0 <= j < k ensures path[j] != visited { PathRises(r, tree, path, j, k); }
      assert visited !in path[..k];
      assert path[..k + 1] == path[..k] + [visited];
      t := t[visited := Bumped(t[visited], value)];
    }
    assert path[..|path|] == path;
  }
}
