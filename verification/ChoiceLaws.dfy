/** What a search returns, in terms of rewards, costs, visits and paths. */
module ChoiceLaws {
  import opened Wrappers
  import opened Scenario
  import opened Scorer
  import opened Order
  import opened PolicyModel
  import opened Rollout
  import opened SearchTree
  import opened SearchWalk
  import opened Search

  /** One list of identifiers does not come before another. */
  predicate AtLeast(a: seq<string>, b: seq<string>) { !PathBefore(a, b) }

  /**
   Among the feasible terminals of the tree the chosen one has the greatest reward; among those of equal reward the least
   cost; among those of equal cost the most visits; and among those the last path.
   */
  lemma ChosenByRewardCostVisitsPath(g: Game, r: SearchResult, t: nat, j: nat)
    requires ChoiceOk(g, r) && r.terminal == Some(t) && FeasibleTerminal(g, r.tree, j)
    ensures t < |r.tree| && j < |r.tree|
    ensures var mine, its := Evaluate(g.suite, r.tree[t].position).reward, Evaluate(g.suite, r.tree[j].position).reward;
            var c, o := r.tree[t], r.tree[j];
            && its <= mine
            && (its == mine ==> c.position.cost <= o.position.cost)
            && (its == mine && c.position.cost == o.position.cost ==> o.visits <= c.visits)
            && (its == mine && c.position.cost == o.position.cost && o.visits == c.visits ==>
                  AtLeast(Ids(LineMoves(r.tree, t)), Ids(LineMoves(r.tree, j))))
  {
    assert !Worse(StandingOf(g, r.tree, t), StandingOf(g, r.tree, j));
  }

  lemma {:induction false} TotalIsVisits(tree: GameTree, kids: seq<nat>)
    requires forall k :: 0 <= k < |kids| ==> kids[k] < |tree| && tree[kids[k]].visits >= 1
    ensures PowerTotal(tree, kids) == VisitSum(tree, kids)
  {
    if kids != [] {
      var init := kids[..|kids| - 1];
      assert forall k :: 0 <= k < |init| ==> init[k] == kids[k];
      TotalIsVisits(tree, init);
    }
  }

  /** In a searched tree the target of a node gives each tried move the share of the visits that went to its child. */
  lemma TargetIsVisitShare(g: Game, tree: GameTree, i: nat, target: map<string, real>, k: nat)
    requires Linked(RulesOf(g), tree) && Balanced(RulesOf(g), tree) && i < |tree| && IsVisitTarget(tree, i, target)
    requires k < |tree[i].tried|
    ensures |tree[i].tried| == |tree[i].children| && tree[i].children[k] < |tree| && tree[i].tried[k].id in target
    ensures VisitSum(tree, tree[i].children) > 0
    ensures target[tree[i].tried[k].id]
         == Ratio(tree[tree[i].children[k]].visits as real, VisitSum(tree, tree[i].children) as real)
  {
    var n := tree[i];
    assert NodeOk(RulesOf(g), tree, i);
    forall c | 0 <= c < |n.children| ensures n.children[c] < |tree| && tree[n.children[c]].visits >= 1 {
      assert CountOk(RulesOf(g), tree, n.children[c]);
    }
    TotalIsVisits(tree, n.children);
    assert n.tried[k] in n.tried;
  }

  /**
   The value of a node without children: what it was worth as a new leaf, and for every further visit the reward of the
   finished game, or the violation reward where no move is legal.
   */
  lemma StoppedNodeValue(g: Game, tree: GameTree, i: nat)
    requires Linked(RulesOf(g), tree) && Balanced(RulesOf(g), tree) && 0 < i < |tree| && tree[i].children == []
    ensures var pos := tree[i].position;
            var leaf := LeafValue(g, pos);
            && tree[i].visits >= 1
            && tree[i].valueSum == (if leaf.Ok? then leaf.value else 0.0)
                 + Times((tree[i].visits - 1) as real, if pos.status != None then Evaluate(g.suite, pos).reward else g.suite.violationReward)
            && (tree[i].visits > 1 ==> pos.status != None || tree[i].unexpanded == Some([]))
  {
    assert CountOk(RulesOf(g), tree, i);
  }

  /** Every node but the root carries the prior the model gives its move among the legal ones. */
  lemma NodeCarriesItsPrior(g: Game, tree: GameTree, i: nat)
    requires Linked(RulesOf(g), tree) && 0 < i < |tree|
    ensures tree[i].parent.Some? && tree[i].parent.value < i && tree[i].move.Some?
    ensures var legal, m := Legal(g, tree[tree[i].parent.value].position), tree[i].move.value;
            m in legal && legal != [] && tree[i].prior == Prior(g.num, g.model, legal, m)
  {
    assert NodeOk(RulesOf(g), tree, i);
    var p := tree[i].parent.value;
    assert Step(g, tree[p].position, tree[i].move.value).Ok?;
  }
}
