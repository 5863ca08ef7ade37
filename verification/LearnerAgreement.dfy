/** Search and learner agree: every result of a search is accepted by the learner on the unchanged model. */
module LearnerAgreement {
  import opened Wrappers
  import opened Scenario
  import opened Scorer
  import opened Order
  import opened PolicyModel
  import opened Rollout
  import opened SearchTree
  import opened SearchWalk
  import opened ModelLearning
  import opened Search
  import opened Learner
  import opened Sums

  // ----- Positions on the way -----

  /** The way to a node on the way to `i` is a prefix of it. */
  lemma {:induction false} LinePrefix<P(!new), M(!new)>(r: Rules<P, M>, tree: Tree<P, M>, i: nat, k: nat)
    requires Linked(r, tree) && i < |tree| && k < |Line(tree, i)|
    ensures Line(tree, i)[k] < |tree| && |Line(tree, i)| == |LineMoves(tree, i)| + 1
    ensures LineMoves(tree, Line(tree, i)[k]) == LineMoves(tree, i)[..k]
  {
    assert NodeOk(r, tree, i);
    if i > 0 {
      var p := tree[i].parent.value;
      LineIsPath(r, tree, i);
      LineIsPath(r, tree, p);
      if k < |Line(tree, p)| {
        LinePrefix(r, tree, p, k);
        assert Line(tree, i)[k] == Line(tree, p)[k];
        assert LineMoves(tree, i)[..k] == LineMoves(tree, p)[..k];
      } else {
        assert LineMoves(tree, i)[..k] == LineMoves(tree, i);
      }
    }
  }

  /** The replay passes through the positions of the nodes above the terminal. */
  lemma StateOnLine(g: Game, tree: GameTree, t: nat, k: nat)
    requires Linked(RulesOf(g), tree) && t < |tree| && k < |tree[t].position.trajectory|
    ensures |Line(tree, t)| == |tree[t].position.trajectory| + 1 && Line(tree, t)[k] < |tree|
    ensures StateBefore(g.sc, tree[t].position.trajectory, Benched(g.model), k) == tree[Line(tree, t)[k]].position
    ensures |tree[Line(tree, t)[k]].position.trajectory| == k
    ensures ReachedIn(g, tree[Line(tree, t)[k]].position)
  {
    LineIsPath(RulesOf(g), tree, t);
    NodeReached(g, tree, t);
    LinePrefix(RulesOf(g), tree, t, k);
    NodeReached(g, tree, Line(tree, t)[k]);
  }

  /** An index of positions with distinct digests finds each of them. */
  lemma {:induction false} IndexFinds(states: seq<Position>, k: nat)
    requires k < |states|
    requires forall i, j :: 0 <= i < j < |states| ==> StateHash(states[i]) != StateHash(states[j])
    ensures StateHash(states[k]) in Index(states) && Index(states)[StateHash(states[k])] == states[k]
  {
    if k < |states| - 1 {
      var init := states[..|states| - 1];
      assert forall i :: 0 <= i < |init| ==> init[i] == states[i];
      IndexFinds(init, k);
    }
  }

  lemma LongerDiffers(p: Position, q: Position)
    requires |p.trajectory| != |q.trajectory|
    ensures StateHash(p) != StateHash(q)
  {
  }

  // ----- Shares -----

  function ShareOf(target: map<string, real>): Move -> real { (m: Move) => TargetOf(target, m.id) }

  /** The visits the first `k` children received, as a share of all. */
  lemma {:induction false} SharesAdd(tree: GameTree, kids: seq<nat>, tried: seq<Move>, f: Move -> real, total: real, k: nat)
    requires |tried| == |kids| && k <= |tried| && total > 0.0
    requires forall j :: 0 <= j < |tried| ==> f(tried[j]) == Ratio(PowerAt(tree, kids[j]) as real, total)
    ensures SumBy(tried[..k], f) == Ratio(PowerTotal(tree, kids[..k]) as real, total)
  {
    if k > 0 {
      SharesAdd(tree, kids, tried, f, total, k - 1);
      assert tried[..k][..k - 1] == tried[..k - 1] && kids[..k][..k - 1] == kids[..k - 1];
      RatioAdds(PowerTotal(tree, kids[..k - 1]) as real, PowerAt(tree, kids[k - 1]) as real, total);
    }
  }

  lemma {:induction false} SumAtIds(moves: seq<Move>, target: map<string, real>)
    ensures SumAt(Ids(moves), target) == SumBy(moves, ShareOf(target))
  {
    if moves != [] {
      assert Ids(moves)[..|moves| - 1] == Ids(moves[..|moves| - 1]);
      SumAtIds(moves[..|moves| - 1], target);
    }
  }

  lemma {:induction false} DedupDistinct(s: seq<string>)
    requires forall i, j :: 0 <= i < j < |s| ==> s[i] != s[j]
    ensures Dedup(s) == s
  {
    if s != [] {
      var init := s[..|s| - 1];
      assert forall i :: 0 <= i < |init| ==> init[i] == s[i];
      DedupDistinct(init);
    }
  }

  lemma WholeIsOne(tree: GameTree, kids: seq<nat>, tried: seq<Move>, f: Move -> real, total: real)
    requires |tried| == |kids| && total > 0.0 && total == PowerTotal(tree, kids) as real
    requires forall j :: 0 <= j < |tried| ==> f(tried[j]) == Ratio(PowerAt(tree, kids[j]) as real, total)
    ensures SumBy(tried, f) == 1.0
  {
    SharesAdd(tree, kids, tried, f, total, |tried|);
    assert tried[..|tried|] == tried && kids[..|tried|] == kids;
    RatioSelf(total);
  }

  lemma RestAddsNothing<T>(tried: seq<T>, rest: seq<T>, f: T -> real)
    requires forall m :: m in rest ==> f(m) == 0.0
    ensures SumBy(tried + rest, f) == SumBy(tried, f)
  {
    SumAppend(tried, rest, f);
    SumOfZeros(rest, f);
  }

  lemma {:induction false} InsertSum(priors: map<Move, real>, m: Move, s: seq<Move>, f: Move -> real)
    ensures SumBy(Insert(priors, m, s), f) == SumBy(s, f) + f(m)
  {
    if s == [] || !Below(KeyOf(priors, s[0]), KeyOf(priors, m)) {
      SumCons(m, s, f);
    } else {
      InsertSum(priors, m, s[1..], f);
      SumCons(s[0], Insert(priors, m, s[1..]), f);
      SumCons(s[0], s[1..], f);
      assert s == [s[0]] + s[1..];
    }
  }

  /** Ranking candidates does not change a sum over them. */
  lemma {:induction false} RankedSum(priors: map<Move, real>, moves: seq<Move>, f: Move -> real)
    ensures SumBy(Ranked(priors, moves), f) == SumBy(moves, f)
  {
    if moves != [] {
      RankedSum(priors, moves[1..], f);
      InsertSum(priors, moves[0], Ranked(priors, moves[1..]), f);
      SumCons(moves[0], moves[1..], f);
      assert moves == [moves[0]] + moves[1..];
    }
  }

  lemma NotTried(tried: seq<Move>, rest: seq<Move>, m: Move)
    requires IdsDistinct(tried + rest) && m in rest
    ensures m.id !in set t | t in tried :: t.id
  {
    var j :| 0 <= j < |rest| && rest[j] == m;
    forall t | t in tried ensures t.id != m.id {
      var i :| 0 <= i < |tried| && tried[i] == t;
      assert (tried + rest)[i] == t && (tried + rest)[|tried| + j] == m;
    }
  }

  /** The shares of a node sum to one over all its moves. */
  lemma TargetSums(tree: GameTree, i: nat, target: map<string, real>, rest: seq<Move>)
    requires i < |tree| && IsVisitTarget(tree, i, target) && tree[i].children != []
    requires IdsDistinct(tree[i].tried + rest)
    ensures SumBy(tree[i].tried + rest, ShareOf(target)) == 1.0
  {
    var n := tree[i];
    var f := ShareOf(target);
    PowerTotalPositive(tree, n.children);
    forall m | m in rest ensures f(m) == 0.0 { NotTried(n.tried, rest, m); }
    forall j | 0 <= j < |n.tried|
      ensures f(n.tried[j]) == Ratio(PowerAt(tree, n.children[j]) as real, PowerTotal(tree, n.children) as real)
    {
      assert n.tried[j].id in target;
    }
    WholeIsOne(tree, n.children, n.tried, f, PowerTotal(tree, n.children) as real);
    RestAddsNothing(n.tried, rest, f);
  }

  lemma SumsNearOne(legal: seq<Move>, target: map<string, real>)
    requires IdsDistinct(legal) && SumBy(legal, ShareOf(target)) == 1.0
    ensures NearOne(SumAt(Dedup(Ids(legal)), target))
  {
    SumAtIds(legal, target);
    DedupDistinct(Ids(legal));
  }

  lemma TargetShape(tree: GameTree, i: nat, target: map<string, real>, legal: seq<Move>)
    requires i < |tree| && IsVisitTarget(tree, i, target) && forall m :: m in tree[i].tried ==> m in legal
    ensures forall id :: id in target ==> id in Ids(legal)
    ensures forall id :: id in target ==> target[id] >= 0.0
  {
    var n := tree[i];
    forall id | id in target ensures id in Ids(legal) && target[id] >= 0.0 {
      var k :| 0 <= k < |n.tried| && n.tried[k].id == id;
      assert n.tried[k] in legal;
      var l :| 0 <= l < |legal| && legal[l] == n.tried[k];
      assert Ids(legal)[l] == id;
      RatioSign(PowerAt(tree, n.children[k]) as real, PowerTotal(tree, n.children) as real);
    }
  }

  /** A visit target fits the legal moves of its node. */
  lemma VisitTargetFits(g: Game, tree: GameTree, i: nat, target: map<string, real>)
    requires Valid(g.sc) && Linked(RulesOf(g), tree) && i < |tree| && tree[i].children != [] && IsVisitTarget(tree, i, target)
    ensures TargetFits(Legal(g, tree[i].position), target)
  {
    var pos := tree[i].position;
    OrderSplits(RulesOf(g), tree, i);
    OrderDistinct(g, pos);
    TargetSums(tree, i, target, tree[i].unexpanded.value);
    RankedSum(PriorsAt(g, pos), Legal(g, pos), ShareOf(target));
    SumsNearOne(Legal(g, pos), target);
    TriedDistinct(g, tree, i);
    TargetShape(tree, i, target, Legal(g, pos));
  }

  lemma OrderSplits<P(!new), M(!new)>(r: Rules<P, M>, tree: Tree<P, M>, i: nat)
    requires Linked(r, tree) && i < |tree| && tree[i].children != []
    ensures tree[i].unexpanded.Some? && tree[i].tried + tree[i].unexpanded.value == r.order(tree[i].position)
  {
    assert NodeOk(r, tree, i);
  }

  // ----- The lessons can be learned -----

  lemma {:induction false} Teachable(n: Numerics, o: Overlay, lessons: seq<Lesson>, system: bool, reward: real)
    requires Within(reward, 1.0)
    requires forall k :: 0 <= k < |lessons| ==> TargetFits(lessons[k].legal, lessons[k].target)
    ensures TaughtAll(n, o, lessons, system, reward).Ok?
  {
    if lessons != [] {
      var init := lessons[..|lessons| - 1];
      assert forall k :: 0 <= k < |init| ==> init[k] == lessons[k];
      Teachable(n, o, init, system, reward);
    }
  }

  lemma ChallengerExists(n: Numerics, o: Overlay, start: Position, lessons: seq<Lesson>, system: bool, reward: real)
    requires Within(reward, 1.0)
    requires forall k :: 0 <= k < |lessons| ==> TargetFits(lessons[k].legal, lessons[k].target)
    ensures Challenger(n, o, start, lessons, system, reward).Ok?
  {
    Teachable(n, o, lessons, system, reward);
  }

  // ----- A chosen terminal -----

  /** Replaying the chosen game reaches the recorded state, which is not the system abstention. */
  lemma ChosenReplays(g: Game, r: SearchResult, t: nat)
    requires Valid(g.sc) && Linked(RulesOf(g), r.tree) && ChoiceOk(g, r) && r.terminal == Some(t)
    ensures |r.trajectory| == 4 && !SystemAbstained(r)
    ensures ReplayOf(g.sc, Benched(g.model), r) == Ok(r.finalPosition)
    ensures OutcomeMatches(g.suite, r.finalPosition, r)
  {
    NodeReached(g, r.tree, t);
    TerminalHasFourPlies(g.sc, r.finalPosition, Benched(g.model));
  }

  /** The targets of the chosen line sit on the replayed path, once each, with the candidates that replay there. */
  lemma ChosenTarget(g: Game, r: SearchResult, t: nat, k: nat)
    requires Valid(g.sc) && Linked(RulesOf(g), r.tree) && ChoiceOk(g, r) && r.terminal == Some(t) && k < |r.targets|
    ensures |r.trajectory| == |r.targets|
    ensures StateBefore(g.sc, r.trajectory, Benched(g.model), k) == r.targets[k].position
    ensures |r.targets[k].position.trajectory| == k
    ensures r.targets[k].candidates == Legal(g, r.targets[k].position)
    ensures TargetFits(r.targets[k].candidates, r.targets[k].target)
  {
    NodeReached(g, r.tree, t);
    LineIsPath(RulesOf(g), r.tree, t);
    StateOnLine(g, r.tree, t, k);
    var i := Line(r.tree, t)[k];
    VisitTargetFits(g, r.tree, i, r.targets[k].target);
  }

  lemma IndexHolds(states: seq<Position>, k: nat)
    requires k < |states| && forall j :: 0 <= j < |states| ==> |states[j].trajectory| == j
    ensures StateHash(states[k]) in Index(states) && Index(states)[StateHash(states[k])] == states[k]
  {
    forall i, j | 0 <= i < j < |states| ensures StateHash(states[i]) != StateHash(states[j]) {
      LongerDiffers(states[i], states[j]);
    }
    IndexFinds(states, k);
  }

  lemma {:induction false} TargetsHold(g: Game, states: seq<Position>, targets: seq<TargetReceipt>)
    requires |states| == |targets|
    requires forall k :: 0 <= k < |targets| ==> states[k] == targets[k].position && |targets[k].position.trajectory| == k
                                                && targets[k].candidates == Legal(g, targets[k].position)
    ensures TargetsReplay(g.sc, Benched(g.model), Index(states), targets)
  {
    var index := Index(states);
    forall k | 0 <= k < |targets| ensures TargetReplays(g.sc, Benched(g.model), index, targets[k]) {
      IndexHolds(states, k);
    }
    forall j, k | 0 <= j < k < |targets| ensures StateHash(targets[j].position) != StateHash(targets[k].position) {
      LongerDiffers(targets[j].position, targets[k].position);
    }
  }

  lemma ChosenTargets(g: Game, r: SearchResult, t: nat)
    requires Valid(g.sc) && Linked(RulesOf(g), r.tree) && ChoiceOk(g, r) && r.terminal == Some(t)
    ensures |r.targets| == 4 && !SystemAbstained(r)
    ensures TargetsReplay(g.sc, Benched(g.model), Index(SelectedStates(g.sc, Benched(g.model), r)), r.targets)
    ensures forall k :: 0 <= k < |r.targets| ==> TargetFits(r.targets[k].candidates, r.targets[k].target)
  {
    ChosenReplays(g, r, t);
    NodeReached(g, r.tree, t);
    LineIsPath(RulesOf(g), r.tree, t);
    var states := SelectedStates(g.sc, Benched(g.model), r);
    forall k | 0 <= k < |r.targets|
      ensures states[k] == r.targets[k].position && |r.targets[k].position.trajectory| == k
      ensures r.targets[k].candidates == Legal(g, r.targets[k].position)
      ensures TargetFits(r.targets[k].candidates, r.targets[k].target)
    {
      ChosenTarget(g, r, t, k);
    }
    TargetsHold(g, states, r.targets);
  }

  // ----- Agreement -----

  lemma RewardWithin(g: Game, r: SearchResult)
    requires GameValid(g) && Linked(RulesOf(g), r.tree) && ChoiceOk(g, r)
    ensures Within(r.score.reward, 1.0)
  {
    match r.terminal
    case Some(t) =>
      NodeReached(g, r.tree, t);
      ReplayShaped(g.sc, r.finalPosition.trajectory, Benched(g.model));
      ScoreBounds(g.suite, r.finalPosition);
    case None =>
      ScoreBounds(g.suite, r.finalPosition);
  }

  /** Every check passes on a sound result, and what it teaches fits. */
  lemma ResultChecks(g: Game, r: SearchResult)
    requires Valid(g.sc) && g.suite.manifest == g.sc && Linked(RulesOf(g), r.tree) && ChoiceOk(g, r) && StampOk(g, r)
    ensures var checked := Checked(g.sc, g.suite, g.num.version(g.model), Benched(g.model), r);
            && checked.Ok? && checked.value.1 == r.score.reward
            && |checked.value.0| == |r.targets|
            && forall k :: 0 <= k < |r.targets| ==> TargetFits(checked.value.0[k].legal, checked.value.0[k].target)
  {
    if r.terminal.Some? {
      ChosenReplays(g, r, r.terminal.value);
      ChosenTargets(g, r, r.terminal.value);
    }
  }

  /**
   Search and learner agree: every sound result is learned on the unchanged model. It carries four targets, one per ply, or
   none for the system abstention, and learning publishes exactly the next generation.
   */
  lemma SearchResultIsLearned(g: Game, r: SearchResult)
    requires GameValid(g) && Sound(g, r)
    ensures Learned(g.sc, g.suite, g.num, g.model, r).Ok?
    ensures Learned(g.sc, g.suite, g.num, g.model, r).value.generation == g.model.generation + 1
    ensures Learned(g.sc, g.suite, g.num, g.model, r).value.valueUpdates
         == g.model.valueUpdates + if r.terminal.Some? then 4 else 1
  {
    ResultChecks(g, r);
    RewardWithin(g, r);
    var checked := Checked(g.sc, g.suite, g.num.version(g.model), Benched(g.model), r).value;
    ChallengerExists(g.num, g.model, InitialPosition(g.sc), checked.0, SystemAbstained(r), checked.1);
    LearnedPublishes(g.sc, g.suite, g.num, g.model, r);
    if r.terminal.Some? { ChosenTargets(g, r, r.terminal.value); }
  }
}
