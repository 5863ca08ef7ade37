/** What the PUCT selection prefers, in terms of visits, value sums and priors. */
module PuctLaws {
  import opened Wrappers
  import opened Scenario
  import opened Scorer
  import opened Order
  import opened PolicyModel
  import opened Rollout
  import opened SearchTree
  import opened SearchWalk
  import opened Search
  import opened PuctSearch

  /** The mean value of a node; an unvisited one counts as 0. */
  function Mean(tree: GameTree, c: nat): real
    requires c < |tree|
  {
    if tree[c].visits == 0 then 0.0 else tree[c].valueSum / tree[c].visits as real
  }

  /** The visits of a node as its children are weighed by them. */
  function Root(g: Game, tree: GameTree, node: nat): real
    requires node < |tree|
  {
    g.num.sqrt(if tree[node].visits >= 1 then tree[node].visits as real else 1.0)
  }

  /** Prior per visit: what the exploration term is proportional to. */
  function Thirst(tree: GameTree, c: nat): real
    requires c < |tree|
  {
    tree[c].prior / (1 + tree[c].visits) as real
  }

  function IdOf(tree: GameTree, c: nat): string
    requires c < |tree|
  {
    if tree[c].move.Some? then tree[c].move.value.id else ""
  }

  lemma BonusIs(g: Game, tree: GameTree, node: nat, c: nat)
    requires node < |tree| && c < |tree|
    ensures ChildRank(g, tree, node, c) == Rank(Mean(tree, c) + Times(Times(g.cPuct, Root(g, tree, node)), Thirst(tree, c)), IdOf(tree, c))
  {
    var d := (1 + tree[c].visits) as real;
    Regroup(g.cPuct, tree[c].prior, Root(g, tree, node), d);
  }

  lemma Regroup(a: real, b: real, c: real, d: real)
    requires d > 0.0
    ensures Over(Times(Times(a, b), c), d) == Times(Times(a, c), b / d)
  {
    calc {
      Over(Times(Times(a, b), c), d);
      a * b * c / d;
      (a * c) * b / d;
      (a * c) * (b / d);
    }
  }

  lemma Cancel(u: real, x: real, y: real)
    requires u > 0.0 && Times(u, x) <= Times(u, y)
    ensures x <= y
  {
    if x > y { Strictly(u, x, y); }
  }

  lemma Strictly(u: real, x: real, y: real)
    requires u > 0.0 && x > y
    ensures Times(u, x) > Times(u, y)
  {
    assert u * (x - y) > 0.0;
    assert u * (x - y) == u * x - u * y;
  }

  /** The pull of exploration is positive once the constant is. */
  lemma PullIsPositive(g: Game, tree: GameTree, node: nat)
    requires NumericsOk(g.num) && g.cPuct > 0.0 && node < |tree|
    ensures Times(g.cPuct, Root(g, tree, node)) > 0.0
  {
    var r := Root(g, tree, node);
    assert r > 0.0;
    assert g.cPuct * r > 0.0;
  }

  /** No child has a greater mean plus exploration bonus than the selected one, and of equals it has the last identifier. */
  lemma SelectionExactly(g: Game, tree: GameTree, node: nat, child: nat, other: nat)
    requires node < |tree| && KidsOk(tree, node) && IsSelected(g, tree, node, child) && other in tree[node].children
    ensures child < |tree| && other < |tree|
    ensures var pull := Times(g.cPuct, Root(g, tree, node));
            var mine, its := Mean(tree, child) + Times(pull, Thirst(tree, child)), Mean(tree, other) + Times(pull, Thirst(tree, other));
            its <= mine && (its == mine ==> !Before(IdOf(tree, child), IdOf(tree, other)))
  {
    var k :| 0 <= k < |tree[node].children| && tree[node].children[k] == other;
    var j :| 0 <= j < |tree[node].children| && tree[node].children[j] == child;
    BonusIs(g, tree, node, child);
    BonusIs(g, tree, node, other);
    assert !Below(ChildRank(g, tree, node, child), ChildRank(g, tree, node, other));
  }

  /**
   Among children of equal mean and visits none has a greater prior than the selected one; among equal mean and equal
   positive prior none has fewer visits; among equal prior and visits none has a greater mean. An unvisited child with a
   positive prior is passed over only for a child that earned it: one with a positive mean, or with a prior that is
   greater by as much as it has been visited more.
   */
  lemma SelectionPrefers(g: Game, tree: GameTree, node: nat, child: nat, other: nat)
    requires NumericsOk(g.num) && g.cPuct > 0.0
    requires node < |tree| && KidsOk(tree, node) && IsSelected(g, tree, node, child) && other in tree[node].children
    ensures child < |tree| && other < |tree|
    ensures var c, o := tree[child], tree[other];
            && (Mean(tree, child) == Mean(tree, other) && c.visits == o.visits ==> o.prior <= c.prior)
            && (Mean(tree, child) == Mean(tree, other) && c.prior == o.prior > 0.0 ==> o.visits >= c.visits)
            && (c.prior == o.prior && c.visits == o.visits ==> Mean(tree, other) <= Mean(tree, child))
            && (o.visits == 0 && Mean(tree, child) <= 0.0 ==> o.prior * (1 + c.visits) as real <= c.prior)
  {
    SelectionExactly(g, tree, node, child, other);
    PullIsPositive(g, tree, node);
    var pull := Times(g.cPuct, Root(g, tree, node));
    var c, o := tree[child], tree[other];
    if Mean(tree, child) == Mean(tree, other) || (o.visits == 0 && Mean(tree, child) <= 0.0) {
      Cancel(pull, Thirst(tree, other), Thirst(tree, child));
      ThirstCompares(tree, child, other);
    }
  }

  lemma ThirstCompares(tree: GameTree, child: nat, other: nat)
    requires child < |tree| && other < |tree| && Thirst(tree, other) <= Thirst(tree, child)
    ensures var c, o := tree[child], tree[other];
            && (c.visits == o.visits ==> o.prior <= c.prior)
            && (c.prior == o.prior > 0.0 ==> o.visits >= c.visits)
            && (o.visits == 0 ==> o.prior * (1 + c.visits) as real <= c.prior)
  {
    var c, o := tree[child], tree[other];
    CrossMultiply(o.prior, (1 + o.visits) as real, c.prior, (1 + c.visits) as real);
    if c.visits == o.visits { Cancel((1 + c.visits) as real, o.prior, c.prior); }
    if c.prior == o.prior > 0.0 { Cancel(c.prior, (1 + c.visits) as real, (1 + o.visits) as real); }
  }

  lemma CrossMultiply(a: real, b: real, c: real, d: real)
    requires b > 0.0 && d > 0.0 && a / b <= c / d
    ensures a * d <= c * b
  {
    var x, y := a / b, c / d;
    assert a == x * b && c == y * d;
    Scaled(x, y, b * d);
    assert x * (b * d) == a * d && y * (b * d) == c * b;
  }
}
