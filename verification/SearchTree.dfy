/** The tree of a PUCT search: its links, its visit counts and its value sums, for any rules of play. */
module SearchTree {
  import opened Wrappers
  import opened Scorer

  /**
   The rules of play: where a step leads (if anywhere), the moves of a position in the order they are tried, and the values
   of a new leaf and of a position where play stops.
   */
  datatype Rules<!P, !M> = Rules(start: P, step: (P, M) -> Option<P>, order: P -> seq<M>, priors: P -> map<M, real>,
                                 terminal: P -> bool, leaf: P -> real, rate: P -> real)

  /** A node; `parent` and `children` are places in the arena, and `tried` holds the keys of the children. */
  datatype Node<P, M> = Node(position: P, parent: Option<nat>, move: Option<M>, prior: real, visits: nat, valueSum: real,
                             tried: seq<M>, children: seq<nat>, unexpanded: Option<seq<M>>, priors: map<M, real>)

  type Tree<P, M> = seq<Node<P, M>>

  function NewNode<P, M>(pos: P, parent: Option<nat>, move: Option<M>, prior: real): Node<P, M> {
    Node(pos, parent, move, prior, 0, 0.0, [], [], None, map[])
  }

  /** `_initialise`, without root noise. */
  function Initialised<P, M>(r: Rules<P, M>, n: Node<P, M>): Node<P, M> {
    n.(priors := r.priors(n.position), unexpanded := Some(r.order(n.position)))
  }

  predicate CanExpand<P, M>(tree: Tree<P, M>, i: nat) {
    i < |tree| && tree[i].unexpanded.Some? && tree[i].unexpanded.value != []
  }

  /** Node `i` tries its first unexpanded move, which leads to `pos`. */
  function Expand<P, M(==)>(tree: Tree<P, M>, i: nat, pos: P): Tree<P, M>
    requires CanExpand(tree, i)
  {
    var n := tree[i];
    var m := n.unexpanded.value[0];
    tree[i := n.(unexpanded := Some(n.unexpanded.value[1..]), tried := n.tried + [m], children := n.children + [|tree|])]
    + [NewNode(pos, Some(i), Some(m), if m in n.priors then n.priors[m] else 0.0)]
  }

  // ----- Links -----

  /** Expanded then unexpanded moves are exactly the moves of the position, in their order. */
  ghost predicate LocalOk<P, M>(r: Rules<P, M>, n: Node<P, M>) {
    && |n.tried| == |n.children|
    && (forall j, k :: 0 <= j < k < |n.children| ==> n.children[j] < n.children[k])
    && match n.unexpanded
       case None => n.children == []
       case Some(rest) => !r.terminal(n.position) && n.priors == r.priors(n.position) && n.tried + rest == r.order(n.position)
  }

  /** The link from a node to its parent. */
  ghost predicate LinkOk<P, M>(r: Rules<P, M>, tree: Tree<P, M>, i: nat)
    requires i < |tree|
  {
    var n := tree[i];
    if i == 0 then n.parent.None? && n.move.None? && n.position == r.start
    else
      && n.parent.Some? && n.parent.value < i && n.move.Some?
      && r.step(tree[n.parent.value].position, n.move.value) == Some(n.position)
      && i in tree[n.parent.value].children
      && n.prior == PriorIn(r.priors(tree[n.parent.value].position), n.move.value)
  }

  function PriorIn<M(==)>(priors: map<M, real>, m: M): real { if m in priors then priors[m] else 0.0 }

  /** The links from a node to its children. */
  ghost predicate KidsOk<P, M>(tree: Tree<P, M>, i: nat)
    requires i < |tree|
  {
    var n := tree[i];
    forall k :: 0 <= k < |n.children| ==>
      i < n.children[k] < |tree| && tree[n.children[k]].parent == Some(i)
      && (k < |n.tried| ==> tree[n.children[k]].move == Some(n.tried[k]))
  }

  ghost predicate NodeOk<P, M>(r: Rules<P, M>, tree: Tree<P, M>, i: nat)
    requires i < |tree|
  {
    LocalOk(r, tree[i]) && LinkOk(r, tree, i) && KidsOk(tree, i)
  }

  ghost predicate Linked<P(!new), M(!new)>(r: Rules<P, M>, tree: Tree<P, M>) {
    |tree| > 0 && forall i :: 0 <= i < |tree| ==> NodeOk(r, tree, i)
  }

  lemma ExpandOld<P(!new), M(!new)>(r: Rules<P, M>, tree: Tree<P, M>, i: nat, pos: P, j: nat)
    requires Linked(r, tree) && CanExpand(tree, i) && j < |tree|
    ensures NodeOk(r, Expand(tree, i, pos), j)
  {
    var t := Expand(tree, i, pos);
    assert NodeOk(r, tree, j) && NodeOk(r, tree, i);
    assert tree[i].tried + tree[i].unexpanded.value == t[i].tried + t[i].unexpanded.value;
    assert forall c :: c in tree[i].children ==> c in t[i].children;
  }

  lemma ExpandNew<P(!new), M(!new)>(r: Rules<P, M>, tree: Tree<P, M>, i: nat, pos: P)
    requires Linked(r, tree) && CanExpand(tree, i)
    requires r.step(tree[i].position, tree[i].unexpanded.value[0]) == Some(pos)
    ensures NodeOk(r, Expand(tree, i, pos), |tree|)
  {
    assert NodeOk(r, tree, i);
  }

  /** Growing the tree by one child keeps every link. */
  lemma ExpandKeeps<P(!new), M(!new)>(r: Rules<P, M>, tree: Tree<P, M>, i: nat, pos: P)
    requires Linked(r, tree) && CanExpand(tree, i)
    requires r.step(tree[i].position, tree[i].unexpanded.value[0]) == Some(pos)
    ensures Linked(r, Expand(tree, i, pos))
  {
    var t := Expand(tree, i, pos);
    forall j | 0 <= j < |t| ensures NodeOk(r, t, j) {
      if j < |tree| { ExpandOld(r, tree, i, pos, j); } else { ExpandNew(r, tree, i, pos); }
    }
  }

  /** Preparing a node for expansion keeps every link. */
  lemma InitialiseKeeps<P(!new), M(!new)>(r: Rules<P, M>, tree: Tree<P, M>, i: nat)
    requires Linked(r, tree) && i < |tree| && tree[i].unexpanded.None? && !r.terminal(tree[i].position)
    ensures Linked(r, tree[i := Initialised(r, tree[i])])
  {
    var t := tree[i := Initialised(r, tree[i])];
    assert NodeOk(r, tree, i);
    assert t[i].tried + t[i].unexpanded.value == r.order(t[i].position);
    forall j | 0 <= j < |t| ensures NodeOk(r, t, j) {
      assert NodeOk(r, tree, j);
    }
  }

  // ----- Counts -----

  function VisitSum<P, M>(tree: Tree<P, M>, kids: seq<nat>): nat {
    if kids == [] then 0
    else
      var c := kids[|kids| - 1];
      VisitSum(tree, kids[..|kids| - 1]) + if c < |tree| then tree[c].visits else 0
  }

  function ValueSum<P, M>(tree: Tree<P, M>, kids: seq<nat>): real {
    if kids == [] then 0.0
    else
      var c := kids[|kids| - 1];
      ValueSum(tree, kids[..|kids| - 1]) + if c < |tree| then tree[c].valueSum else 0.0
  }

  /** The visit that created a node, which the root does not have, and the value it brought. */
  function OwnVisit(i: nat): nat { if i == 0 then 0 else 1 }

  function OwnValue<P, M>(r: Rules<P, M>, tree: Tree<P, M>, i: nat): real
    requires i < |tree|
  {
    if i == 0 then 0.0 else r.leaf(tree[i].position)
  }

  /** Play stops at the node whenever it is reached again. */
  predicate Stops<P, M(==)>(r: Rules<P, M>, n: Node<P, M>) {
    n.children == [] && (r.terminal(n.position) || n.unexpanded == Some([]))
  }

  /**
   Conservation: visits and value below a node add up to its own, apart from the visit that created it; a node where play
   stops collects its rate on every later visit, and any other childless node was visited only when created.
   */
  ghost predicate CountOk<P, M>(r: Rules<P, M>, tree: Tree<P, M>, i: nat)
    requires i < |tree|
  {
    var n := tree[i];
    if n.children != [] then
      && n.visits == OwnVisit(i) + VisitSum(tree, n.children)
      && n.valueSum == OwnValue(r, tree, i) + ValueSum(tree, n.children)
    else
      && n.visits >= OwnVisit(i)
      && n.valueSum == OwnValue(r, tree, i) + Times((n.visits - OwnVisit(i)) as real, r.rate(n.position))
      && (!Stops(r, n) ==> n.visits == OwnVisit(i))
  }

  ghost predicate BalancedExcept<P(!new), M(!new)>(r: Rules<P, M>, tree: Tree<P, M>, last: int) {
    forall i :: 0 <= i < |tree| && i != last ==> CountOk(r, tree, i)
  }

  ghost predicate Balanced<P(!new), M(!new)>(r: Rules<P, M>, tree: Tree<P, M>) {
    BalancedExcept(r, tree, -1)
  }

  /** The sums do not see a change that keeps the statistics of the children. */
  lemma {:induction false} SumsAgree<P, M>(a: Tree<P, M>, b: Tree<P, M>, kids: seq<nat>)
    requires forall k :: 0 <= k < |kids| ==> kids[k] < |a| && kids[k] < |b|
    requires forall k :: 0 <= k < |kids| ==> a[kids[k]].visits == b[kids[k]].visits
                                             && a[kids[k]].valueSum == b[kids[k]].valueSum
    ensures VisitSum(a, kids) == VisitSum(b, kids) && ValueSum(a, kids) == ValueSum(b, kids)
  {
    if kids != [] {
      var init := kids[..|kids| - 1];
      assert forall k :: 0 <= k < |init| ==> init[k] == kids[k];
      SumsAgree(a, b, init);
    }
  }

  lemma InitialiseCounts<P(!new), M(!new)>(r: Rules<P, M>, tree: Tree<P, M>, i: nat)
    requires Linked(r, tree) && i < |tree| && tree[i].unexpanded.None? && !r.terminal(tree[i].position)
    requires Balanced(r, tree)
    ensures Balanced(r, tree[i := Initialised(r, tree[i])])
  {
    var t := tree[i := Initialised(r, tree[i])];
    forall j | 0 <= j < |t| ensures CountOk(r, t, j) {
      assert NodeOk(r, tree, j) && CountOk(r, tree, j);
      SumsAgree(tree, t, tree[j].children);
    }
  }

  lemma ExpandCountsAt<P(!new), M(!new)>(r: Rules<P, M>, tree: Tree<P, M>, i: nat, pos: P)
    requires Linked(r, tree) && CanExpand(tree, i) && CountOk(r, tree, i)
    ensures CountOk(r, Expand(tree, i, pos), i)
  {
    var t := Expand(tree, i, pos);
    assert NodeOk(r, tree, i);
    var kids := tree[i].children;
    assert t[i].children == kids + [|tree|] && (kids + [|tree|])[..|kids|] == kids;
    SumsAgree(tree, t, kids);
    assert VisitSum(t, t[i].children) == VisitSum(tree, kids) && ValueSum(t, t[i].children) == ValueSum(tree, kids);
    if kids == [] { assert Times(0.0, r.rate(tree[i].position)) == 0.0; }
  }

  /** A new child has not been counted yet; everything else still adds up. */
  lemma ExpandCounts<P(!new), M(!new)>(r: Rules<P, M>, tree: Tree<P, M>, i: nat, pos: P)
    requires Linked(r, tree) && CanExpand(tree, i) && Balanced(r, tree)
    ensures BalancedExcept(r, Expand(tree, i, pos), |tree|)
  {
    var t := Expand(tree, i, pos);
    forall j | 0 <= j < |t| && j != |tree| ensures CountOk(r, t, j) {
      assert NodeOk(r, tree, j) && CountOk(r, tree, j);
      if j == i { ExpandCountsAt(r, tree, i, pos); } else { SumsAgree(tree, t, tree[j].children); }
    }
  }

  // ----- Backup -----

  /** A path from the root, each node a child of the one before. */
  ghost predicate PathOk<P, M>(tree: Tree<P, M>, path: seq<nat>) {
    && path != [] && path[0] == 0
    && (forall k :: 0 <= k < |path| ==> path[k] < |tree|)
    && (forall k :: 0 < k < |path| ==> tree[path[k]].parent == Some(path[k - 1]))
  }

  function Bumped<P, M>(n: Node<P, M>, value: real): Node<P, M> { n.(visits := n.visits + 1, valueSum := n.valueSum + value) }

  /** Every node on the path receives the visit and the value. */
  function Bump<P, M>(tree: Tree<P, M>, path: seq<nat>, value: real): Tree<P, M> {
    seq(|tree|, i requires 0 <= i < |tree| => if i in path then Bumped(tree[i], value) else tree[i])
  }

  lemma {:induction false} PathRises<P(!new), M(!new)>(r: Rules<P, M>, tree: Tree<P, M>, path: seq<nat>, j: nat, k: nat)
    requires Linked(r, tree) && PathOk(tree, path) && j < k < |path|
    ensures path[j] < path[k]
  {
    assert NodeOk(r, tree, path[k]);
    if j < k - 1 { PathRises(r, tree, path, j, k - 1); }
  }

  /** One child on the path: the sums below a node grow by the visit and the value. None: they stay. */
  lemma {:induction false} BumpSums<P, M>(tree: Tree<P, M>, path: seq<nat>, value: real, kids: seq<nat>, hit: Option<nat>)
    requires forall k :: 0 <= k < |kids| ==> kids[k] < |tree|
    requires hit.Some? ==> hit.value < |kids|
    requires forall k :: 0 <= k < |kids| ==> (kids[k] in path <==> hit == Some(k))
    ensures VisitSum(Bump(tree, path, value), kids) == VisitSum(tree, kids) + if hit.Some? then 1 else 0
    ensures ValueSum(Bump(tree, path, value), kids) == ValueSum(tree, kids) + if hit.Some? then value else 0.0
  {
    if kids != [] {
      var n := |kids| - 1;
      var init := kids[..n];
      assert forall k :: 0 <= k < n ==> init[k] == kids[k];
      BumpSums(tree, path, value, init, if hit == Some(n) then None else hit);
    }
  }

  lemma Predecessor<P(!new), M(!new)>(r: Rules<P, M>, tree: Tree<P, M>, path: seq<nat>, i: nat, k: nat) returns (l: nat)
    requires Linked(r, tree) && PathOk(tree, path) && i < |tree| && k < |tree[i].children| && tree[i].children[k] in path
    ensures l + 1 < |path| && path[l] == i && path[l + 1] == tree[i].children[k]
  {
    assert NodeOk(r, tree, i);
    var j :| 0 <= j < |path| && path[j] == tree[i].children[k];
    assert tree[path[j]].parent == Some(i);
    l := j - 1;
  }

  /** Which child of a node is on the path: the one that follows it there. */
  lemma ChildOnPath<P(!new), M(!new)>(r: Rules<P, M>, tree: Tree<P, M>, path: seq<nat>, i: nat) returns (hit: Option<nat>)
    requires Linked(r, tree) && PathOk(tree, path) && i < |tree| && i != path[|path| - 1]
    ensures hit.Some? <==> i in path
    ensures hit.Some? ==> hit.value < |tree[i].children|
    ensures forall k :: 0 <= k < |tree[i].children| ==> (tree[i].children[k] in path <==> hit == Some(k))
  {
    var kids := tree[i].children;
    assert NodeOk(r, tree, i);
    if i in path {
      var j :| 0 <= j < |path| && path[j] == i;
      assert NodeOk(r, tree, path[j + 1]);
      var h :| 0 <= h < |kids| && kids[h] == path[j + 1];
      hit := Some(h);
      forall k | 0 <= k < |kids| && kids[k] in path ensures k == h {
        var l := Predecessor(r, tree, path, i, k);
        if l < j { PathRises(r, tree, path, l, j); }
        if j < l { PathRises(r, tree, path, j, l); }
        assert kids[k] == kids[h];
      }
    } else {
      hit := None;
      forall k | 0 <= k < |kids| ensures kids[k] !in path {
        if kids[k] in path { var l := Predecessor(r, tree, path, i, k); }
      }
    }
  }

  lemma BumpKeepsCount<P(!new), M(!new)>(r: Rules<P, M>, tree: Tree<P, M>, path: seq<nat>, value: real, i: nat)
    requires Linked(r, tree) && PathOk(tree, path) && i < |tree| && i != path[|path| - 1] && CountOk(r, tree, i)
    ensures CountOk(r, Bump(tree, path, value), i)
  {
    assert NodeOk(r, tree, i);
    var hit := ChildOnPath(r, tree, path, i);
    BumpSums(tree, path, value, tree[i].children, hit);
  }

  lemma BumpKeepsLinks<P(!new), M(!new)>(r: Rules<P, M>, tree: Tree<P, M>, path: seq<nat>, value: real)
    requires Linked(r, tree)
    ensures Linked(r, Bump(tree, path, value))
  {
    var t := Bump(tree, path, value);
    forall j | 0 <= j < |t| ensures NodeOk(r, t, j) { assert NodeOk(r, tree, j); }
  }

  /** Ready to back up: the path ends at a new leaf with its leaf value, or where play stops with its rate. */
  ghost predicate Ready<P(!new), M(!new)>(r: Rules<P, M>, tree: Tree<P, M>, path: seq<nat>, value: real) {
    && Linked(r, tree) && PathOk(tree, path)
    && var last := path[|path| - 1];
       && BalancedExcept(r, tree, last)
       && tree[last].children == []
       && if tree[last].visits == 0 && last > 0
          then tree[last].valueSum == 0.0 && value == r.leaf(tree[last].position)
          else CountOk(r, tree, last) && Stops(r, tree[last]) && value == r.rate(tree[last].position)
  }

  lemma OneMore(n: nat, rate: real)
    ensures Times((n + 1) as real, rate) == Times(n as real, rate) + rate
    ensures Times(0.0, rate) == 0.0
  {
    assert (n as real + 1.0) * rate == n as real * rate + rate;
  }

  /** Backing up restores the conservation laws everywhere. */
  lemma BackupBalances<P(!new), M(!new)>(r: Rules<P, M>, tree: Tree<P, M>, path: seq<nat>, value: real)
    requires Ready(r, tree, path, value)
    ensures Linked(r, Bump(tree, path, value)) && Balanced(r, Bump(tree, path, value))
    ensures Bump(tree, path, value)[0].visits == tree[0].visits + 1
  {
    var t := Bump(tree, path, value);
    var last := path[|path| - 1];
    BumpKeepsLinks(r, tree, path, value);
    forall j | 0 <= j < |t| ensures CountOk(r, t, j) {
      if j != last {
        BumpKeepsCount(r, tree, path, value, j);
      } else {
        var n := tree[last];
        if n.visits == 0 && last > 0 { OneMore(0, r.rate(n.position)); }
        else { OneMore(n.visits - OwnVisit(last), r.rate(n.position)); }
      }
    }
  }

  // ----- Consequences -----

  /** Values backed up are in [-1,1]. */
  ghost predicate UnitRules<P(!new), M>(r: Rules<P, M>, tree: Tree<P, M>) {
    forall i :: 0 <= i < |tree| ==>
      -1.0 <= r.leaf(tree[i].position) <= 1.0 && -1.0 <= r.rate(tree[i].position) <= 1.0
  }

  predicate Moderate<P, M>(n: Node<P, M>) { -(n.visits as real) <= n.valueSum <= n.visits as real }

  lemma {:induction false} SumsModerate<P, M>(tree: Tree<P, M>, kids: seq<nat>)
    requires forall k :: 0 <= k < |kids| ==> kids[k] < |tree| && Moderate(tree[kids[k]])
    ensures -(VisitSum(tree, kids) as real) <= ValueSum(tree, kids) <= VisitSum(tree, kids) as real
  {
    if kids != [] {
      var init := kids[..|kids| - 1];
      assert forall k :: 0 <= k < |init| ==> init[k] == kids[k];
      SumsModerate(tree, init);
    }
  }

  /** No value sum exceeds its visit count, by induction from the youngest node to the root. */
  lemma {:induction false} ValuesModerate<P(!new), M(!new)>(r: Rules<P, M>, tree: Tree<P, M>, i: nat)
    requires Linked(r, tree) && Balanced(r, tree) && UnitRules(r, tree) && i < |tree|
    ensures Moderate(tree[i])
    decreases |tree| - i
  {
    assert NodeOk(r, tree, i) && CountOk(r, tree, i);
    var n := tree[i];
    if n.children != [] {
      forall k | 0 <= k < |n.children| ensures Moderate(tree[n.children[k]]) { ValuesModerate(r, tree, n.children[k]); }
      SumsModerate(tree, n.children);
    } else {
      Symmetric((n.visits - OwnVisit(i)) as real, r.rate(n.position));
    }
  }
}
