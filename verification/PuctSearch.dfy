/** The search object: its score cache, its simulations and its result. */
module PuctSearch {
  import opened Wrappers
  import opened Scenario
  import opened Scorer
  import opened Order
  import opened PolicyModel
  import opened Rollout
  import opened SearchTree
  import opened SearchWalk
  import opened Search
  import opened ModelLearning
  import opened LearnerAgreement

  class PUCTSearch {
    const game: Game
    var evaluations: nat
    var cache: map<StateDigest, ScoreCard>
    var tree: GameTree
    /** Every position scored so far. */
    ghost var scored: set<Position>

    /** The cache is sound, and the evaluation count is the number of distinct positions scored. */
    ghost predicate Sane()
      reads this
    {
      CacheOk(game, cache, scored) && evaluations == |scored|
    }

    constructor (g: Game)
      requires GameValid(g)
      ensures game == g && Sane() && scored == {} && evaluations == 0
    {
      game := g;
      evaluations := 0;
      cache := map[];
      tree := [];
      scored := {};
    }

    /** A cached score always equals a fresh evaluation. */
    method ScoreOf(pos: Position) returns (card: ScoreCard)
      requires Valid(game.sc) && SuiteValid(game.suite) && Sane() && ScorableIn(game, pos)
      modifies this`evaluations, this`cache, this`scored
      ensures Sane() && card == Evaluate(game.suite, pos)
      ensures scored == old(scored) + {pos}
    {
      HitOrMiss(game, cache, scored, pos, Evaluate(game.suite, pos));
      if StateHash(pos) in cache {
        card := cache[StateHash(pos)];
      } else {
        card := Score(game.suite, pos);
        cache := cache[StateHash(pos) := card];
        evaluations := evaluations + 1;
      }
      scored := scored + {pos};
    }

    /** Follows the preferred legal moves until the game ends or no move is left. */
    method GreedyCompletion(pos: Position) returns (r: Result<Position>)
      requires ReachedIn(game, pos)
      ensures r == Greedy(game, pos)
    {
      var current := pos;
      while !current.Terminal()
        invariant Greedy(game, pos) == Greedy(game, current)
        decreases |game.sc.phases| - current.phase
      {
        var legal := Legal(game, current);
        if legal == [] { return Ok(current); }
        if exists m :: m in legal && !Predicted(game.suite, m) { return Err(Invalid); }
        var k := Greatest(Preferences(game, legal));
        var next := Step(game, current, legal[k]);
        if next.Err? { return Err(next.error); }
        current := next.value;
      }
      return Ok(current);
    }

    method EvaluateLeaf(pos: Position) returns (r: Result<real>)
      requires GameValid(game) && Sane() && ReachedIn(game, pos)
      modifies this`evaluations, this`cache, this`scored
      ensures Sane() && r == LeafValue(game, pos)
    {
      var completed := GreedyCompletion(pos);
      if completed.Err? { return Err(completed.error); }
      if !completed.value.Terminal() { return Ok(game.suite.violationReward); }
      GreedyReached(game, pos);
      var card := ScoreOf(completed.value);
      return Ok(Blend(game.num, game.model, pos, card.reward));
    }

    method SelectChild(node: nat) returns (child: nat)
      requires node < |tree| && KidsOk(tree, node) && tree[node].children != []
      ensures IsSelected(game, tree, node, child)
    {
      var kids := tree[node].children;
      var k := Greatest(ChildRanks(game, tree, node));
      child := kids[k];
      BestChild(game, tree, node, k);
    }

    /** The node tries its next move; the new child is valued but not yet counted. */
    method ExpandAt(node: nat) returns (r: Result<real>)
      requires GameValid(game) && Sane() && Searched(game, tree) && CanExpand(tree, node)
      modifies this
      ensures Sane()
      ensures r.Ok? ==> Grown(game, old(tree), tree, node, r.value)
      ensures r.Err? ==> !Playable(game)
    {
      var move := tree[node].unexpanded.value[0];
      var next := Step(game, tree[node].position, move);
      NextIsLegal(game, tree, node);
      if next.Err? { return Err(next.error); }
      GrownBy(game, tree, node, next.value);
      tree := Expand(tree, node, next.value);
      r := EvaluateLeaf(next.value);
    }

    /** Lists the moves of a node that is reached again for the first time. */
    method Initialise(path: seq<nat>)
      requires OnWay(game, tree, path) && !Last(tree, path).position.Terminal()
      modifies this`tree
      ensures OnWay(game, tree, path) && |tree| == |old(tree)| && tree[0].visits == old(tree[0].visits)
      ensures Last(tree, path).unexpanded.Some? && !Last(tree, path).position.Terminal()
    {
      var node := path[|path| - 1];
      if tree[node].unexpanded.None? {
        Prepared(game, tree, path);
        tree := tree[node := Initialised(RulesOf(game), tree[node])];
      }
    }

    /** Expands the node at the end of the path. */
    method Grow(path: seq<nat>) returns (way: seq<nat>, r: Result<real>)
      requires GameValid(game) && Sane() && OnWay(game, tree, path) && CanExpand(tree, path[|path| - 1])
      modifies this
      ensures Sane()
      ensures r.Ok? ==> Ready(RulesOf(game), tree, way, r.value) && tree[0].visits == old(tree[0].visits)
      ensures r.Err? ==> !Playable(game)
    {
      ghost var before := tree;
      way := path + [|tree|];
      r := ExpandAt(path[|path| - 1]);
      if r.Ok? { ReadyWhenGrown(game, before, path, tree, r.value); }
    }

    /** The reward of the terminal at the end of the path. */
    method Finish(path: seq<nat>) returns (value: real)
      requires GameValid(game) && Sane() && OnWay(game, tree, path) && Last(tree, path).position.Terminal()
      modifies this`evaluations, this`cache, this`scored
      ensures Sane() && Ready(RulesOf(game), tree, path, value)
    {
      NodeReached(game, tree, path[|path| - 1]);
      StopReady(game, tree, path);
      var card := ScoreOf(Last(tree, path).position);
      value := card.reward;
    }

    /** One descent from the root to a new leaf, or to where play stops. */
    method Descend() returns (path: seq<nat>, r: Result<real>)
      requires GameValid(game) && Sane() && Searched(game, tree)
      modifies this
      ensures Sane()
      ensures r.Ok? ==> Ready(RulesOf(game), tree, path, r.value) && tree[0].visits == old(tree[0].visits)
      ensures r.Err? ==> !Playable(game)
    {
      path := [0];
      while true
        invariant Sane() && OnWay(game, tree, path) && tree[0].visits == old(tree[0].visits)
        decreases |tree| - path[|path| - 1]
      {
        if Last(tree, path).position.Terminal() {
          var reward := Finish(path);
          return path, Ok(reward);
        }
        Initialise(path);
        if Last(tree, path).unexpanded.value != [] {
          path, r := Grow(path);
          return;
        }
        if Last(tree, path).children == [] {
          StopReady(game, tree, path);
          return path, Ok(game.suite.violationReward);
        }
        path := Follow(path);
      }
    }

    /** The path goes on to the selected child. */
    method Follow(path: seq<nat>) returns (way: seq<nat>)
      requires OnWay(game, tree, path) && Last(tree, path).children != []
      ensures OnWay(game, tree, way) && |way| == |path| + 1 && way[..|path|] == path
      ensures path[|path| - 1] < way[|path|]
      ensures KidsOk(tree, path[|path| - 1]) && IsSelected(game, tree, path[|path| - 1], way[|path|])
    {
      ChildFollows(game, tree, path);
      var node := SelectChild(path[|path| - 1]);
      way := path + [node];
    }

    /** One simulation: a descent and its backup. */
    method Simulate() returns (r: Result<real>)
      requires GameValid(game) && Sane() && Searched(game, tree)
      modifies this
      ensures Sane()
      ensures r.Ok? ==> Searched(game, tree) && tree[0].visits == old(tree[0].visits) + 1
      ensures r.Err? ==> !Playable(game)
    {
      var path;
      path, r := Descend();
      if r.Ok? { Reward(path, r.value); }
    }

    /** The value goes to every node of the path. */
    method Reward(path: seq<nat>, value: real)
      requires Ready(RulesOf(game), tree, path, value)
      modifies this`tree
      ensures tree == Bump(old(tree), path, value) && Searched(game, tree) && tree[0].visits == old(tree[0].visits) + 1
    {
      BackupBalances(RulesOf(game), tree, path, value);
      tree := BackUp(RulesOf(game), tree, path, value);
    }

    /** The feasible terminals of the tree with their scores. */
    method FeasibleTerminals() returns (found: seq<(nat, ScoreCard)>)
      requires GameValid(game) && Sane() && Searched(game, tree)
      modifies this`evaluations, this`cache, this`scored
      ensures Sane() && Catalogue(game, tree, found)
    {
      var nodes := TerminalNodes(RulesOf(game), tree);
      found := [];
      for k := 0 to |nodes|
        invariant Sane()
        invariant ScoredSome(game, tree, nodes[..k], found)
      {
        var node := nodes[k];
        assert node in nodes;
        NodeReached(game, tree, node);
        var card := ScoreOf(tree[node].position);
        ScoredNext(game, tree, nodes, k, found);
        if card.feasible { found := found + [(node, card)]; }
      }
      assert nodes[..|nodes|] == nodes;
      ScoredAll(game, tree, nodes, found);
    }

    /** One target receipt for every node above the terminal. */
    method PolicyTargets(terminal: nat) returns (targets: seq<TargetReceipt>)
      requires GameValid(game) && Searched(game, tree) && terminal < |tree|
      ensures TargetsOk(game, tree, Line(tree, terminal), targets) && AllIssued(targets)
    {
      var nodes := NodePath(RulesOf(game), tree, terminal);
      LineIsPath(RulesOf(game), tree, terminal);
      targets := [];
      for k := 0 to |nodes| - 1
        invariant TargetsOk(game, tree, nodes[..k + 1], targets) && AllIssued(targets)
      {
        var node := nodes[k];
        HasChild(game, tree, nodes, k);
        var target := VisitTarget(tree, node);
        TargetsNext(game, tree, nodes, k, targets, target);
        TargetIssues(game, tree, node, target);
        if target != map[] {
          targets := targets + [TargetReceipt(tree[node].position, Legal(game, tree[node].position), target)];
        }
      }
      assert nodes[..|nodes|] == nodes;
    }

    /** The result for the chosen terminal, or the system abstention. */
    method Conclude(simulations: int) returns (r: SearchResult)
      requires GameValid(game) && Sane() && Searched(game, tree) && tree[0].visits == simulations
      modifies this`evaluations, this`cache, this`scored
      ensures Sane() && r.evaluations == evaluations && r.tree == tree && r.simulations == simulations
      ensures ChoiceOk(game, r) && StampOk(game, r) && AllIssued(r.targets)
    {
      var found := FeasibleTerminals();
      var version := game.num.version(game.model);
      var final, card, terminal, trajectory, targets := InitialPosition(game.sc), EMPTY_CARD, None, [], [];
      if found != [] {
        var k := BestOf(game, tree, found);
        var t := found[k].0;
        NodeReached(game, tree, t);
        trajectory := PathTo(RulesOf(game), tree, t);
        targets := PolicyTargets(t);
        final, card, terminal := tree[t].position, found[k].1, Some(t);
      } else {
        final := SafeAbstain(game.sc, ABSTAIN_TEXT);
        trajectory := final.trajectory;
        card := ScoreOf(final);
      }
      var abstained := final.status == Some(ABSTAINED);
      var receipt := Experience(game.sc, game.suite, version, trajectory, StateHash(final), card, targets, abstained);
      r := SearchResult(tree, terminal, trajectory, final, card, simulations, evaluations, game.sc.version, game.sc, game.suite,
                        version, abstained, targets, receipt);
    }

    /**
     A run of the search. It raises only for a nonpositive simulation count or a scenario that is not playable; otherwise
     its result is sound and every target receipt passes the checks of its constructor. The evaluation count is the number of distinct positions ever scored.
     */
    method Run(simulations: int) returns (r: Result<SearchResult>)
      requires GameValid(game) && Sane()
      modifies this
      ensures Sane()
      ensures r.Ok? ==> Sound(game, r.value) && r.value.simulations == simulations && r.value.evaluations == evaluations
      ensures r.Ok? ==> AllIssued(r.value.targets)
      ensures r.Err? ==> simulations <= 0 || !Playable(game)
      ensures simulations <= 0 ==> r == Err(Invalid)
    {
      if simulations <= 0 { return Err(Invalid); }
      var failure := SimulateAll(simulations);
      if failure.Some? { return Err(failure.value); }
      var result := Conclude(simulations);
      return Ok(result);
    }

    method SimulateAll(simulations: nat) returns (failure: Option<Error>)
      requires GameValid(game) && Sane()
      modifies this
      ensures Sane()
      ensures failure.None? ==> Searched(game, tree) && tree[0].visits == simulations
      ensures failure.Some? ==> !Playable(game)
    {
      RootSearched(game);
      tree := [Initialised(RulesOf(game), NewNode(InitialPosition(game.sc), None, None, 1.0))];
      for k := 0 to simulations
        invariant Sane() && Searched(game, tree) && tree[0].visits == k
      {
        var value := Simulate();
        if value.Err? { return Some(value.error); }
      }
      return None;
    }
  }

  const EMPTY_CARD: ScoreCard := ScoreCard(map[], 0.0, 0.0, 0.0, false, [], None)

  lemma RootSearched(g: Game)
    ensures Searched(g, [Initialised(RulesOf(g), NewNode(InitialPosition(g.sc), None, None, 1.0))])
    ensures Initialised(RulesOf(g), NewNode(InitialPosition(g.sc), None, None, 1.0)).visits == 0
  {
    var r := RulesOf(g);
    var root := Initialised(r, NewNode(InitialPosition(g.sc), None, None, 1.0));
    var tree := [root];
    assert root.tried + root.unexpanded.value == r.order(root.position);
    assert NodeOk(r, tree, 0);
    assert Times(0.0, r.rate(root.position)) == 0.0;
    assert CountOk(r, tree, 0);
  }

  // ----- Choosing -----

  /** Exactly the chosen ones among some nodes, with their cards. */
  ghost predicate Listed<C(!new)>(chosen: nat -> bool, card: nat -> C, nodes: seq<nat>, found: seq<(nat, C)>) {
    && (forall k :: 0 <= k < |found| ==> chosen(found[k].0) && found[k].1 == card(found[k].0))
    && forall i :: i in nodes && chosen(i) ==> exists k :: 0 <= k < |found| && found[k].0 == i
  }

  lemma ListedNext<C(!new)>(chosen: nat -> bool, card: nat -> C, nodes: seq<nat>, k: nat, found: seq<(nat, C)>)
    requires k < |nodes| && Listed(chosen, card, nodes[..k], found)
    ensures Listed(chosen, card, nodes[..k + 1], if chosen(nodes[k]) then found + [(nodes[k], card(nodes[k]))] else found)
  {
    var more := if chosen(nodes[k]) then found + [(nodes[k], card(nodes[k]))] else found;
    assert nodes[..k + 1] == nodes[..k] + [nodes[k]];
    forall i | i in nodes[..k + 1] && chosen(i) ensures exists j :: 0 <= j < |more| && more[j].0 == i {
      if i in nodes[..k] {
        var j :| 0 <= j < |found| && found[j].0 == i;
        assert more[j].0 == i;
      } else {
        assert more[|found|].0 == i;
      }
    }
  }

  function Feasibility(g: Game, tree: GameTree): nat -> bool { (i: nat) => FeasibleTerminal(g, tree, i) }

  function Cards(g: Game, tree: GameTree): nat -> ScoreCard {
    (i: nat) => if i < |tree| then Evaluate(g.suite, tree[i].position) else EMPTY_CARD
  }

  ghost predicate ScoredSome(g: Game, tree: GameTree, nodes: seq<nat>, found: seq<(nat, ScoreCard)>) {
    Listed(Feasibility(g, tree), Cards(g, tree), nodes, found)
  }

  ghost predicate Catalogue(g: Game, tree: GameTree, found: seq<(nat, ScoreCard)>) {
    && (forall k :: 0 <= k < |found| ==>
          FeasibleTerminal(g, tree, found[k].0) && found[k].1 == Evaluate(g.suite, tree[found[k].0].position))
    && forall i: nat :: FeasibleTerminal(g, tree, i) ==> exists k :: 0 <= k < |found| && found[k].0 == i
  }

  lemma ScoredNext(g: Game, tree: GameTree, nodes: seq<nat>, k: nat, found: seq<(nat, ScoreCard)>)
    requires k < |nodes| && ScoredSome(g, tree, nodes[..k], found) && nodes[k] < |tree| && tree[nodes[k]].position.Terminal()
    ensures var card := Evaluate(g.suite, tree[nodes[k]].position);
            ScoredSome(g, tree, nodes[..k + 1], if card.feasible then found + [(nodes[k], card)] else found)
  {
    assert Cards(g, tree)(nodes[k]) == Evaluate(g.suite, tree[nodes[k]].position);
    ListedNext(Feasibility(g, tree), Cards(g, tree), nodes, k, found);
  }

  lemma ScoredAll(g: Game, tree: GameTree, nodes: seq<nat>, found: seq<(nat, ScoreCard)>)
    requires ScoredSome(g, tree, nodes, found)
    requires forall i :: i in nodes <==> 0 <= i < |tree| && tree[i].position.Terminal()
    ensures Catalogue(g, tree, found)
  {
    forall i: nat | FeasibleTerminal(g, tree, i) ensures exists k :: 0 <= k < |found| && found[k].0 == i {
      assert i in nodes;
    }
  }

  /** `max` by standing: no later or earlier entry beats it. */
  method Foremost(all: seq<Standing>) returns (best: nat)
    requires all != []
    ensures best < |all| && forall k :: 0 <= k < |all| ==> !Worse(all[best], all[k])
  {
    best := 0;
    NotWorse(all[0]);
    for i := 1 to |all|
      invariant best < i
      invariant forall k :: 0 <= k < i ==> !Worse(all[best], all[k])
    {
      if Worse(all[best], all[i]) {
        NotWorse(all[i]);
        forall k | 0 <= k < i ensures !Worse(all[i], all[k]) {
          if Worse(all[i], all[k]) { WorseTransitive(all[best], all[i], all[k]); }
        }
        best := i;
      }
    }
  }

  method Standings(g: Game, tree: GameTree, found: seq<(nat, ScoreCard)>) returns (all: seq<Standing>)
    requires Linked(RulesOf(g), tree) && forall k :: 0 <= k < |found| ==> found[k].0 < |tree|
    ensures |all| == |found| && forall k :: 0 <= k < |found| ==> all[k] == StandingBy(tree, found[k].0, found[k].1)
  {
    all := [];
    for i := 0 to |found|
      invariant |all| == i
      invariant forall k :: 0 <= k < i ==> all[k] == StandingBy(tree, found[k].0, found[k].1)
    {
      var t := found[i].0;
      var moves := PathTo(RulesOf(g), tree, t);
      all := all + [Standing(found[i].1.reward, tree[t].position.cost, tree[t].visits, Ids(moves))];
    }
  }

  /** The best of the feasible terminals. */
  method BestOf(g: Game, tree: GameTree, found: seq<(nat, ScoreCard)>) returns (best: nat)
    requires Linked(RulesOf(g), tree) && Catalogue(g, tree, found) && found != []
    ensures best < |found| && BestTerminal(g, tree, found[best].0)
  {
    var all := Standings(g, tree, found);
    best := Foremost(all);
    BestIsBest(g, tree, found, all, best);
  }

  lemma NotWorse(a: Standing)
    ensures !Worse(a, a)
  {
    PathIrreflexive(a.ids);
  }

  lemma BestIsBest(g: Game, tree: GameTree, found: seq<(nat, ScoreCard)>, all: seq<Standing>, k: nat)
    requires Catalogue(g, tree, found) && |all| == |found| && k < |found|
    requires forall j :: 0 <= j < |found| ==> all[j] == StandingBy(tree, found[j].0, found[j].1)
    requires forall j :: 0 <= j < |found| ==> !Worse(all[k], all[j])
    ensures BestTerminal(g, tree, found[k].0)
  {
    forall j: nat | FeasibleTerminal(g, tree, j) ensures !Worse(StandingOf(g, tree, found[k].0), StandingOf(g, tree, j)) {
      var l :| 0 <= l < |found| && found[l].0 == j;
      assert all[l] == StandingOf(g, tree, j);
    }
  }

  lemma HasChild(g: Game, tree: GameTree, line: seq<nat>, k: nat)
    requires Valid(g.sc) && Linked(RulesOf(g), tree) && PathOk(tree, line) && k + 1 < |line|
    ensures tree[line[k]].children != [] && tree[line[k]].tried != []
    ensures IdsDistinct(tree[line[k]].tried) && |tree[line[k]].tried| == |tree[line[k]].children|
  {
    assert NodeOk(RulesOf(g), tree, line[k + 1]);
    TriedDistinct(g, tree, line[k]);
  }

  /** The checks of `PolicyTargetReceipt.__post_init__`: distinct named candidates, and a distribution over them. */
  predicate Issued(t: TargetReceipt) {
    IdsDistinct(t.candidates) && (forall m :: m in t.candidates ==> m.id != "") && TargetFits(t.candidates, t.target)
  }

  ghost predicate AllIssued(targets: seq<TargetReceipt>) { forall k :: 0 <= k < |targets| ==> Issued(targets[k]) }

  lemma TargetIssues(g: Game, tree: GameTree, node: nat, target: map<string, real>)
    requires Valid(g.sc) && Linked(RulesOf(g), tree) && node < |tree| && tree[node].children != [] && IsVisitTarget(tree, node, target)
    ensures Issued(TargetReceipt(tree[node].position, Legal(g, tree[node].position), target))
  {
    VisitTargetFits(g, tree, node, target);
    var pos := tree[node].position;
    forall m | m in Legal(g, pos) ensures m.id != "" {
      var i :| 0 <= i < |g.sc.phases[pos.phase]| && g.sc.phases[pos.phase][i] == m;
      assert MoveValid(m);
    }
  }

  /** The next node adds its receipt; with a child it always has a target. */
  lemma TargetsNext(g: Game, tree: GameTree, nodes: seq<nat>, k: nat, targets: seq<TargetReceipt>, target: map<string, real>)
    requires k + 1 < |nodes| && TargetsOk(g, tree, nodes[..k + 1], targets)
    requires nodes[k] < |tree| && tree[nodes[k]].children != [] && tree[nodes[k]].tried != []
    requires IsVisitTarget(tree, nodes[k], target)
    ensures target != map[]
    ensures var pos := tree[nodes[k]].position;
            TargetsOk(g, tree, nodes[..k + 2], targets + [TargetReceipt(pos, Legal(g, pos), target)])
  {
    assert tree[nodes[k]].tried[0].id in target;
    assert nodes[..k + 2] == nodes[..k + 1] + [nodes[k + 1]];
  }

  // ----- Descending -----

  ghost predicate OnWay(g: Game, tree: GameTree, path: seq<nat>) { Searched(g, tree) && PathOk(tree, path) }

  function Last(tree: GameTree, path: seq<nat>): Node<Position, Move>
    requires path != [] && path[|path| - 1] < |tree|
  {
    tree[path[|path| - 1]]
  }

  ghost predicate Searched(g: Game, tree: GameTree) { Linked(RulesOf(g), tree) && Balanced(RulesOf(g), tree) }

  /** The tree grew by one child that has its leaf value and is not counted yet. */
  ghost predicate Grown(g: Game, before: GameTree, after: GameTree, node: nat, value: real) {
    && CanExpand(before, node)
    && |after| == |before| + 1
    && after == Expand(before, node, after[|before|].position)
    && Linked(RulesOf(g), after) && BalancedExcept(RulesOf(g), after, |before|)
    && value == RulesOf(g).leaf(after[|before|].position)
  }

  lemma NextIsLegal(g: Game, tree: GameTree, node: nat)
    requires GameValid(g) && Linked(RulesOf(g), tree) && CanExpand(tree, node)
    ensures var m := tree[node].unexpanded.value[0];
            && ReachedIn(g, tree[node].position) && m in Legal(g, tree[node].position)
            && (Step(g, tree[node].position, m).Err? ==> !Playable(g))
  {
    var n := tree[node];
    NodeReached(g, tree, node);
    NextInOrder(RulesOf(g), tree, node);
    assert n.unexpanded.value[0] in TryOrder(g, n.position);
    OrderDistinct(g, n.position);
    if Playable(g) { PlayableStep(g, n.position, n.unexpanded.value[0]); }
  }

  lemma NextInOrder<P(!new), M(!new)>(r: Rules<P, M>, tree: Tree<P, M>, i: nat)
    requires Linked(r, tree) && CanExpand(tree, i)
    ensures tree[i].unexpanded.value[0] in r.order(tree[i].position)
  {
    assert NodeOk(r, tree, i);
    var n := tree[i];
    assert (n.tried + n.unexpanded.value)[|n.tried|] == n.unexpanded.value[0];
  }

  /** The upper-confidence rank of a child. */
  function ChildRank(g: Game, tree: GameTree, node: nat, child: nat): Rank
    requires node < |tree| && child < |tree|
  {
    var c := tree[child];
    var q := if c.visits == 0 then 0.0 else Over(c.valueSum, c.visits as real);
    var root := g.num.sqrt(AtLeastOne(tree[node].visits) as real);
    Rank(q + Over(Times(Times(g.cPuct, c.prior), root), (1 + c.visits) as real), if c.move.Some? then c.move.value.id else "")
  }

  function ChildRanks(g: Game, tree: GameTree, node: nat): seq<Rank>
    requires node < |tree| && KidsOk(tree, node)
  {
    var kids := tree[node].children;
    seq(|kids|, k requires 0 <= k < |kids| => ChildRank(g, tree, node, kids[k]))
  }

  /** A child that no other child outranks. */
  ghost predicate IsSelected(g: Game, tree: GameTree, node: nat, child: nat)
    requires node < |tree| && KidsOk(tree, node)
  {
    && child in tree[node].children
    && forall k :: 0 <= k < |tree[node].children| ==>
         !Below(ChildRank(g, tree, node, child), ChildRank(g, tree, node, tree[node].children[k]))
  }

  lemma BestChild(g: Game, tree: GameTree, node: nat, k: nat)
    requires node < |tree| && KidsOk(tree, node) && FirstGreatest(ChildRanks(g, tree, node), k)
    ensures IsSelected(g, tree, node, tree[node].children[k])
  {
    var ranks := ChildRanks(g, tree, node);
    forall j | 0 <= j < |tree[node].children|
      ensures !Below(ChildRank(g, tree, node, tree[node].children[k]), ChildRank(g, tree, node, tree[node].children[j]))
    {
      assert !Below(ranks[k], ranks[j]);
    }
  }

  /** A hit is the score and adds no position; a miss adds one. */
  lemma HitOrMiss(g: Game, cache: map<StateDigest, ScoreCard>, scored: set<Position>, pos: Position, card: ScoreCard)
    requires Valid(g.sc) && CacheOk(g, cache, scored) && ScorableIn(g, pos) && card == Evaluate(g.suite, pos)
    ensures StateHash(pos) in cache ==> cache[StateHash(pos)] == card && scored + {pos} == scored
    ensures StateHash(pos) !in cache ==>
              CacheOk(g, cache[StateHash(pos) := card], scored + {pos}) && |scored + {pos}| == |scored| + 1
  {
    HitIsSound(g, cache, scored, pos);
  }

  /** After an expansion whose leaf is valued, everything but the new child still adds up. */
  lemma GrownBy(g: Game, tree: GameTree, node: nat, pos: Position)
    requires GameValid(g) && Searched(g, tree) && CanExpand(tree, node)
    requires Step(g, tree[node].position, tree[node].unexpanded.value[0]) == Ok(pos)
    ensures Grown(g, tree, Expand(tree, node, pos), node, Leaf(g, pos))
    ensures ReachedIn(g, pos)
    ensures LeafValue(g, pos).Err? ==> !Playable(g)
  {
    var r := RulesOf(g);
    assert r.step(tree[node].position, tree[node].unexpanded.value[0]) == Some(pos);
    ExpandKeeps(r, tree, node, pos);
    ExpandCounts(r, tree, node, pos);
    NodeReached(g, tree, node);
    StepReached(g, tree[node].position, tree[node].unexpanded.value[0]);
    if Playable(g) { PlayableNeverRaises(g, pos); }
  }

  /** Where play stops the path can be backed up with the rate of the position. */
  lemma StopReady(g: Game, tree: GameTree, path: seq<nat>)
    requires Searched(g, tree) && PathOk(tree, path)
    requires var n := tree[path[|path| - 1]]; n.position.Terminal() || (n.unexpanded == Some([]) && n.children == [])
    ensures Ready(RulesOf(g), tree, path, Rate(g, tree[path[|path| - 1]].position))
  {
    var r := RulesOf(g);
    var last := path[|path| - 1];
    assert NodeOk(r, tree, last) && CountOk(r, tree, last);
    assert r.terminal(tree[last].position) == tree[last].position.Terminal();
  }

  lemma Prepared(g: Game, tree: GameTree, path: seq<nat>)
    requires OnWay(g, tree, path) && Last(tree, path).unexpanded.None? && !Last(tree, path).position.Terminal()
    ensures OnWay(g, tree[path[|path| - 1] := Initialised(RulesOf(g), Last(tree, path))], path)
  {
    var r := RulesOf(g);
    var node := path[|path| - 1];
    assert !r.terminal(tree[node].position);
    InitialiseKeeps(r, tree, node);
    InitialiseCounts(r, tree, node);
  }

  /** A path to a node, extended by its new child, can be backed up with the leaf value. */
  lemma ReadyWhenGrown(g: Game, tree: GameTree, path: seq<nat>, after: GameTree, value: real)
    requires PathOk(tree, path) && Grown(g, tree, after, path[|path| - 1], value)
    ensures Ready(RulesOf(g), after, path + [|tree|], value) && after[0].visits == tree[0].visits
  {
    assert forall k :: 0 <= k < |tree| ==> after[k].parent == tree[k].parent && after[k].visits == tree[k].visits;
  }

  lemma ChildFollows(g: Game, tree: GameTree, path: seq<nat>)
    requires Linked(RulesOf(g), tree) && PathOk(tree, path)
    ensures var node := path[|path| - 1];
            KidsOk(tree, node) && forall c :: c in tree[node].children ==> node < c < |tree| && PathOk(tree, path + [c])
  {
    var node := path[|path| - 1];
    assert NodeOk(RulesOf(g), tree, node);
    forall c | c in tree[node].children ensures node < c < |tree| && PathOk(tree, path + [c]) {
      var k :| 0 <= k < |tree[node].children| && tree[node].children[k] == c;
      PathGrows(tree, path, c);
    }
  }

  lemma PathGrows(tree: GameTree, path: seq<nat>, c: nat)
    requires PathOk(tree, path) && c < |tree| && tree[c].parent == Some(path[|path| - 1])
    ensures PathOk(tree, path + [c])
  {
  }
}
