/** PUCT search over a scenario: cached scoring, simulations, and the choice of the best feasible terminal. */
module Search {
  import opened Wrappers
  import opened Scenario
  import opened Scorer
  import opened Order
  import opened PolicyModel
  import opened Rollout
  import opened SearchTree
  import opened SearchWalk

  type GameTree = Tree<Position, Move>

  // ----- The rules of a game -----

  function StepOf(g: Game, p: Position, m: Move): Option<Position> {
    var next := Step(g, p, m);
    if next.Ok? then Some(next.value) else None
  }

  function PriorsAt(g: Game, p: Position): map<Move, real> { Priors(g.num, g.model, Legal(g, p)) }

  function TryOrder(g: Game, p: Position): seq<Move> { Ranked(PriorsAt(g, p), Legal(g, p)) }

  function Leaf(g: Game, p: Position): real {
    var v := LeafValue(g, p);
    if v.Ok? then v.value else 0.0
  }

  /** What a visit earns where play stops: the reward of a terminal, the violation reward of a dead end. */
  function Rate(g: Game, p: Position): real {
    if p.Terminal() then Evaluate(g.suite, p).reward else g.suite.violationReward
  }

  function RulesOf(g: Game): Rules<Position, Move> {
    Rules(InitialPosition(g.sc), (p: Position, m: Move) => StepOf(g, p, m), (p: Position) => TryOrder(g, p),
          (p: Position) => PriorsAt(g, p), (p: Position) => p.Terminal(), (p: Position) => Leaf(g, p),
          (p: Position) => Rate(g, p))
  }

  /** Every node is a reachable position, and its way from the root spells its trajectory. */
  lemma {:induction false} NodeReached(g: Game, tree: GameTree, i: nat)
    requires Linked(RulesOf(g), tree) && i < |tree|
    ensures ReachedIn(g, tree[i].position) && LineMoves(tree, i) == tree[i].position.trajectory
  {
    assert NodeOk(RulesOf(g), tree, i);
    if i > 0 {
      var p := tree[i].parent.value;
      NodeReached(g, tree, p);
      StepReached(g, tree[p].position, tree[i].move.value);
    }
  }

  lemma RateBounds(g: Game, pos: Position)
    requires GameValid(g) && ReachedIn(g, pos)
    ensures -1.0 <= Leaf(g, pos) <= 1.0 && -1.0 <= Rate(g, pos) <= 1.0
  {
    ReplayShaped(g.sc, pos.trajectory, Benched(g.model));
    ScoreBounds(g.suite, pos);
    if LeafValue(g, pos).Ok? { LeafBounds(g, pos); }
  }

  lemma RulesAreUnit(g: Game, tree: GameTree)
    requires GameValid(g) && Linked(RulesOf(g), tree)
    ensures UnitRules(RulesOf(g), tree)
  {
    forall i | 0 <= i < |tree| ensures ReachedIn(g, tree[i].position) { NodeReached(g, tree, i); }
    forall i | 0 <= i < |tree|
      ensures -1.0 <= Leaf(g, tree[i].position) <= 1.0 && -1.0 <= Rate(g, tree[i].position) <= 1.0
    {
      RateBounds(g, tree[i].position);
    }
  }

  // ----- Conservation -----

  /** The laws of a searched tree, stated without the machinery that maintains them. */
  ghost predicate Conserved(g: Game, tree: GameTree, i: nat)
    requires i < |tree|
  {
    var n := tree[i];
    && (n.children != [] ==> n.visits == VisitSum(tree, n.children) + if i == 0 then 0 else 1)
    && (n.unexpanded.Some? ==> multiset(n.tried) + multiset(n.unexpanded.value) == multiset(Legal(g, n.position)))
    && (n.unexpanded.None? ==> n.children == [])
    && LineMoves(tree, i) == n.position.trajectory
    && -(n.visits as real) <= n.valueSum <= n.visits as real
    && (i > 0 ==> n.visits >= 1)
  }

  /** A tree that is linked and counted obeys them at every node. */
  lemma TreeConserves(g: Game, tree: GameTree, i: nat)
    requires GameValid(g) && Linked(RulesOf(g), tree) && Balanced(RulesOf(g), tree) && i < |tree|
    ensures Conserved(g, tree, i)
  {
    var r := RulesOf(g);
    assert NodeOk(r, tree, i) && CountOk(r, tree, i);
    NodeReached(g, tree, i);
    RulesAreUnit(g, tree);
    ValuesModerate(r, tree, i);
    var n := tree[i];
    if n.unexpanded.Some? {
      assert multiset(n.tried + n.unexpanded.value) == multiset(TryOrder(g, n.position)) == multiset(Legal(g, n.position));
    }
  }

  // ----- The score cache -----

  ghost predicate ScorableIn(g: Game, p: Position) { Scorable(g.sc, p, Benched(g.model)) }

  /** The cache holds a fresh evaluation of every position scored, and nothing else. */
  ghost predicate CacheOk(g: Game, cache: map<StateDigest, ScoreCard>, scored: set<Position>) {
    && (forall p :: p in scored ==>
          ScorableIn(g, p) && StateHash(p) in cache && cache[StateHash(p)] == Evaluate(g.suite, p))
    && cache.Keys == set p | p in scored :: StateHash(p)
  }

  /** A hit is sound: equal digests of scorable positions are equal positions. */
  lemma HitIsSound(g: Game, cache: map<StateDigest, ScoreCard>, scored: set<Position>, pos: Position)
    requires Valid(g.sc) && CacheOk(g, cache, scored) && ScorableIn(g, pos)
    ensures StateHash(pos) in cache <==> pos in scored
    ensures StateHash(pos) in cache ==> cache[StateHash(pos)] == Evaluate(g.suite, pos)
  {
    if StateHash(pos) in cache {
      var p :| p in scored && StateHash(p) == StateHash(pos);
      DigestIdentifies(g.sc, p, pos, Benched(g.model));
    }
  }

  // ----- The choice -----

  datatype Standing = Standing(reward: real, cost: real, visits: nat, ids: seq<string>)

  /** The order `max` chooses by: reward, then lower cost, then visits, then the identifiers of the path. */
  predicate Worse(a: Standing, b: Standing) {
    || a.reward < b.reward
    || (a.reward == b.reward
        && (|| a.cost > b.cost
            || (a.cost == b.cost && (a.visits < b.visits || (a.visits == b.visits && PathBefore(a.ids, b.ids))))))
  }

  lemma WorseTransitive(a: Standing, b: Standing, c: Standing)
    requires Worse(a, b) && Worse(b, c)
    ensures Worse(a, c)
  {
    if PathBefore(a.ids, b.ids) && PathBefore(b.ids, c.ids) { PathTransitive(a.ids, b.ids, c.ids); }
  }

  function StandingBy(tree: GameTree, i: nat, card: ScoreCard): Standing
    requires i < |tree|
  {
    Standing(card.reward, tree[i].position.cost, tree[i].visits, Ids(LineMoves(tree, i)))
  }

  function StandingOf(g: Game, tree: GameTree, i: nat): Standing
    requires i < |tree|
  {
    StandingBy(tree, i, Evaluate(g.suite, tree[i].position))
  }

  predicate FeasibleTerminal(g: Game, tree: GameTree, i: nat) {
    i < |tree| && tree[i].position.Terminal() && Evaluate(g.suite, tree[i].position).feasible
  }

  /** The node no feasible terminal of the tree beats. */
  ghost predicate BestTerminal(g: Game, tree: GameTree, t: nat) {
    && FeasibleTerminal(g, tree, t)
    && forall j: nat :: FeasibleTerminal(g, tree, j) ==> !Worse(StandingOf(g, tree, t), StandingOf(g, tree, j))
  }

  // ----- Targets -----

  /** The immutable learning target of one node; a candidate's identifier and content hash stand for the move. */
  datatype TargetReceipt = TargetReceipt(position: Position, candidates: seq<Move>, target: map<string, real>)

  function AtLeastOne(n: nat): nat { if n >= 1 then n else 1 }

  function PowerAt(tree: GameTree, c: nat): nat { if c < |tree| then AtLeastOne(tree[c].visits) else 1 }

  function PowerTotal(tree: GameTree, kids: seq<nat>): nat {
    if kids == [] then 0 else PowerTotal(tree, kids[..|kids| - 1]) + PowerAt(tree, kids[|kids| - 1])
  }

  lemma {:induction false} PowerTotalPositive(tree: GameTree, kids: seq<nat>)
    requires kids != []
    ensures PowerTotal(tree, kids) > 0
  {
  }

  /** `visit_target` at temperature 1: the share of the visits that went to each child. */
  ghost predicate IsVisitTarget(tree: GameTree, i: nat, target: map<string, real>)
    requires i < |tree|
  {
    var n := tree[i];
    && |n.tried| == |n.children|
    && target.Keys == (set m | m in n.tried :: m.id)
    && forall k :: 0 <= k < |n.tried| ==>
         && PowerTotal(tree, n.children) > 0
         && target[n.tried[k].id] == Ratio(PowerAt(tree, n.children[k]) as real, PowerTotal(tree, n.children) as real)
  }

  lemma TriedFirst<P(!new), M(!new)>(r: Rules<P, M>, tree: Tree<P, M>, i: nat)
    requires Linked(r, tree) && i < |tree|
    ensures |tree[i].tried| == |tree[i].children| && tree[i].tried <= r.order(tree[i].position)
  {
    assert NodeOk(r, tree, i);
  }

  lemma OrderDistinct(g: Game, pos: Position)
    requires Valid(g.sc)
    ensures IdsDistinct(TryOrder(g, pos)) && forall m :: m in TryOrder(g, pos) <==> m in Legal(g, pos)
  {
    var order, legal := TryOrder(g, pos), Legal(g, pos);
    assert IdsDistinct(legal);
    PermutedIds(order, legal);
    forall m ensures m in order <==> m in legal { assert m in multiset(order) <==> m in multiset(legal); }
  }

  lemma PrefixDistinct(a: seq<Move>, b: seq<Move>)
    requires a <= b && IdsDistinct(b)
    ensures IdsDistinct(a) && forall m :: m in a ==> m in b
  {
    assert forall k :: 0 <= k < |a| ==> a[k] == b[k];
  }

  /** The moves of a node are tried under distinct identifiers, so its dictionary of children never overwrites. */
  lemma TriedDistinct(g: Game, tree: GameTree, i: nat)
    requires Valid(g.sc) && Linked(RulesOf(g), tree) && i < |tree|
    ensures IdsDistinct(tree[i].tried) && |tree[i].tried| == |tree[i].children|
    ensures forall m :: m in tree[i].tried ==> m in Legal(g, tree[i].position)
  {
    var pos := tree[i].position;
    TriedFirst(RulesOf(g), tree, i);
    assert tree[i].tried <= TryOrder(g, pos);
    OrderDistinct(g, pos);
    PrefixDistinct(tree[i].tried, TryOrder(g, pos));
  }

  /** A permutation of moves with distinct identifiers has distinct identifiers. */
  lemma PermutedIds(a: seq<Move>, b: seq<Move>)
    requires multiset(a) == multiset(b) && IdsDistinct(b)
    ensures IdsDistinct(a)
  {
    forall j, k | 0 <= j < k < |a| ensures a[j].id != a[k].id {
      assert a[j] in multiset(a) && a[k] in multiset(a);
      if a[j].id == a[k].id {
        var p :| 0 <= p < |b| && b[p] == a[j];
        var q :| 0 <= q < |b| && b[q] == a[k];
        assert p == q;
        Twice(a, j, k);
        Once(b, p);
      }
    }
  }

  lemma Twice(a: seq<Move>, j: nat, k: nat)
    requires j < k < |a| && a[j] == a[k]
    ensures multiset(a)[a[j]] >= 2
  {
    var m := a[j];
    assert a == a[..k] + [a[k]] + a[k + 1..];
    assert a[..k][j] == m;
    assert multiset(a) == multiset(a[..k]) + multiset([m]) + multiset(a[k + 1..]);
    assert m in multiset(a[..k]);
  }

  lemma Once(b: seq<Move>, p: nat)
    requires p < |b| && IdsDistinct(b)
    ensures multiset(b)[b[p]] == 1
  {
    var m := b[p];
    assert b == b[..p] + [m] + b[p + 1..];
    assert multiset(b) == multiset(b[..p]) + multiset([m]) + multiset(b[p + 1..]);
    assert m !in b[..p] && m !in b[p + 1..];
  }

  method VisitTarget(tree: GameTree, i: nat) returns (target: map<string, real>)
    requires i < |tree| && IdsDistinct(tree[i].tried) && |tree[i].tried| == |tree[i].children|
    ensures IsVisitTarget(tree, i, target)
  {
    var n := tree[i];
    target := map[];
    if n.children == [] { return; }
    var total := 0;
    for k := 0 to |n.children|
      invariant total == PowerTotal(tree, n.children[..k])
    {
      assert n.children[..k + 1][..k] == n.children[..k];
      total := total + PowerAt(tree, n.children[k]);
    }
    assert n.children[..|n.children|] == n.children;
    PowerTotalPositive(tree, n.children);
    for k := 0 to |n.children|
      invariant target.Keys == set m | m in n.tried[..k] :: m.id
      invariant forall l :: 0 <= l < k ==> target[n.tried[l].id] == Ratio(PowerAt(tree, n.children[l]) as real, total as real)
    {
      assert n.tried[..k + 1] == n.tried[..k] + [n.tried[k]];
      target := target[n.tried[k].id := Ratio(PowerAt(tree, n.children[k]) as real, total as real)];
    }
    assert n.tried[..|n.children|] == n.tried;
  }

  // ----- Results -----

  /** The payload the learning receipt digests. */
  datatype Experience = Experience(manifest: Scenario, profile: Suite, modelVersion: string, trajectory: seq<Move>,
                                   finalState: StateDigest, score: ScoreCard, targets: seq<TargetReceipt>, abstained: bool)

  datatype SearchResult = SearchResult(tree: GameTree, terminal: Option<nat>, trajectory: seq<Move>, finalPosition: Position,
                                       score: ScoreCard, simulations: int, evaluations: nat, scenarioVersion: string,
                                       manifest: Scenario, profile: Suite, modelVersion: string, abstained: bool,
                                       targets: seq<TargetReceipt>, receipt: Experience)

  function ExperienceOf(r: SearchResult): Experience {
    Experience(r.manifest, r.profile, r.modelVersion, r.trajectory, StateHash(r.finalPosition), r.score, r.targets, r.abstained)
  }

  const ABSTAIN_TEXT: string := "No searched terminal branch passed every hard gate."

  /** One target per node above the chosen terminal. */
  ghost predicate TargetsOk(g: Game, tree: GameTree, line: seq<nat>, targets: seq<TargetReceipt>) {
    && |targets| == |line| - 1
    && forall k :: 0 <= k < |targets| ==>
         && line[k] < |tree|
         && targets[k].position == tree[line[k]].position
         && targets[k].candidates == Legal(g, tree[line[k]].position)
         && tree[line[k]].children != []
         && IsVisitTarget(tree, line[k], targets[k].target)
  }

  /** The best feasible terminal with its targets, or with none the system abstention. */
  ghost predicate ChoiceOk(g: Game, r: SearchResult) {
    && r.score == Evaluate(g.suite, r.finalPosition)
    && r.trajectory == r.finalPosition.trajectory
    && r.abstained == (r.finalPosition.status == Some(ABSTAINED))
    && match r.terminal
       case Some(t) =>
         && BestTerminal(g, r.tree, t) && r.finalPosition == r.tree[t].position
         && TargetsOk(g, r.tree, Line(r.tree, t), r.targets)
       case None =>
         && (forall j: nat :: !FeasibleTerminal(g, r.tree, j))
         && r.finalPosition == SafeAbstain(g.sc, ABSTAIN_TEXT) && r.targets == []
  }

  /** The result names what it was produced from, and its receipt covers it. */
  ghost predicate StampOk(g: Game, r: SearchResult) {
    && r.scenarioVersion == g.sc.version && r.manifest == g.sc && r.profile == g.suite
    && r.modelVersion == g.num.version(g.model)
    && r.receipt == ExperienceOf(r)
  }

  /** What a finished search promises: a conserved tree, the best feasible choice or the system abstention, and its receipt. */
  ghost predicate Sound(g: Game, r: SearchResult) {
    && Linked(RulesOf(g), r.tree) && Balanced(RulesOf(g), r.tree) && r.tree[0].visits == r.simulations
    && ChoiceOk(g, r) && StampOk(g, r)
  }

  /** The laws hold at every node of a finished search, and its root was visited once per simulation. */
  lemma SearchConserves(g: Game, r: SearchResult)
    requires GameValid(g) && Sound(g, r)
    ensures |r.tree| > 0 && r.tree[0].visits == r.simulations
    ensures forall i :: 0 <= i < |r.tree| ==> Conserved(g, r.tree, i)
  {
    forall i | 0 <= i < |r.tree| ensures Conserved(g, r.tree, i) { TreeConserves(g, r.tree, i); }
  }

  lemma BestReward(g: Game, tree: GameTree, t: nat, j: nat)
    requires BestTerminal(g, tree, t) && FeasibleTerminal(g, tree, j)
    ensures Evaluate(g.suite, tree[j].position).reward <= Evaluate(g.suite, tree[t].position).reward
  {
    assert !Worse(StandingOf(g, tree, t), StandingOf(g, tree, j));
  }

  lemma AbstentionIsFeasible(g: Game)
    ensures var pos := SafeAbstain(g.sc, ABSTAIN_TEXT); Evaluate(g.suite, pos).feasible && pos.status == Some(ABSTAINED)
  {
  }

  /**
   Safe and best: the returned score is feasible; a committed result meets every gate; its reward is the greatest over all
   feasible terminals of the searched tree; and with none, the system abstention is returned.
   */
  lemma SafeAndBest(g: Game, r: SearchResult)
    requires ChoiceOk(g, r)
    ensures r.score.feasible && r.finalPosition.Terminal()
    ensures !r.abstained ==> EveryGate(g.suite, r.finalPosition)
    ensures forall j: nat :: FeasibleTerminal(g, r.tree, j) ==> Evaluate(g.suite, r.tree[j].position).reward <= r.score.reward
    ensures r.terminal.None? ==> r.finalPosition == SafeAbstain(g.sc, ABSTAIN_TEXT) && r.abstained
  {
    AbstentionIsFeasible(g);
    match r.terminal
    case Some(t) =>
      if !r.abstained { FeasibleExactly(g.suite, r.finalPosition); }
      forall j: nat | FeasibleTerminal(g, r.tree, j)
        ensures Evaluate(g.suite, r.tree[j].position).reward <= r.score.reward
      {
        BestReward(g, r.tree, t, j);
      }
    case None =>
  }
}
