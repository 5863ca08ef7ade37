/** What the priors, the blended value and the rollout prefer. */
module PolicyLaws {
  import opened Wrappers
  import opened Scenario
  import opened Scorer
  import opened Order
  import opened PolicyModel
  import opened Rollout

  // ----- Logits -----

  function MeanOf(r: AgentRecord): real { if r.alpha + r.beta == 0.0 then 0.0 else r.alpha / (r.alpha + r.beta) }

  /** The odds of an agent's mean, kept away from 0 and 1. */
  function Odds(mean: real): real { Over(Max(mean, 0.0001), Max(1.0 - mean, 0.0001)) }

  /** Moves that differ in one respect differ in their logits by that respect alone. */
  lemma LogitGaps(n: Numerics, o: Overlay, a: Move, b: Move)
    ensures a.actor == b.actor && a.tags == b.tags && a.basePrior >= 0.000000001 && b.basePrior >= 0.000000001 ==>
              Logit(n, o, a) - Logit(n, o, b) == n.log(a.basePrior) - n.log(b.basePrior)
    ensures a.actor == b.actor && a.basePrior == b.basePrior ==>
              Logit(n, o, a) - Logit(n, o, b) == SumWeights(o.policyWeights, a.tags) - SumWeights(o.policyWeights, b.tags)
    ensures a.tags == b.tags && a.basePrior == b.basePrior ==>
              Logit(n, o, a) - Logit(n, o, b)
              == 0.2 * n.log(Odds(MeanOf(RecordOf(o, a.actor)))) - 0.2 * n.log(Odds(MeanOf(RecordOf(o, b.actor))))
  {
    ReliabilityIs(n, RecordOf(o, a.actor));
    ReliabilityIs(n, RecordOf(o, b.actor));
  }

  lemma ReliabilityIs(n: Numerics, r: AgentRecord)
    ensures Reliability(n, r) == 0.2 * n.log(Odds(MeanOf(r)))
  {
  }

  /** The learned part of a logit: every tag adds its weight, each time it occurs. */
  lemma WeightsAdd(weights: map<string, real>, tags: seq<string>, tag: string)
    ensures SumWeights(weights, tags + [tag]) == SumWeights(weights, tags) + if tag in weights then weights[tag] else 0.0
    ensures SumWeights(weights, []) == 0.0
  {
    assert (tags + [tag])[..|tags|] == tags;
  }

  lemma OddsRise(x: real, y: real)
    requires 0.0 <= x <= y <= 1.0
    ensures 0.0 < Odds(x) <= Odds(y)
  {
    var a, b, c, d := Max(x, 0.0001), Max(y, 0.0001), Max(1.0 - x, 0.0001), Max(1.0 - y, 0.0001);
    QuotientsRise(a, b, c, d);
  }

  lemma QuotientsRise(a: real, b: real, c: real, d: real)
    requires 0.0 < a <= b && c >= d > 0.0
    ensures 0.0 < a / c <= b / d
  {
    Divided(a, b, c);
    assert a / c > 0.0;
    var x := b / c;
    assert b == x * c;
    assert x >= 0.0;
    Scaled(d, c, x);
    assert x * c >= x * d;
    Divided(x * d, b, d);
    assert x * d / d == x;
  }

  // ----- Priors -----

  /** The exponentials the priors are proportional to. */
  lemma PriorsAreProportional(n: Numerics, o: Overlay, moves: seq<Move>, a: Move, b: Move)
    requires NumericsOk(n) && moves != []
    ensures Logit(n, o, a) <= Logit(n, o, b) ==> Prior(n, o, moves, a) <= Prior(n, o, moves, b)
    ensures var peak := Peak(n, o, moves);
            PowerSum(n, o, moves, peak) > 0.0 ==>
              Prior(n, o, moves, a) == Ratio(n.exp(Logit(n, o, a) - peak), PowerSum(n, o, moves, peak))
  {
    var peak := Peak(n, o, moves);
    var total := PowerSum(n, o, moves, peak);
    if Logit(n, o, a) <= Logit(n, o, b) && total > 0.0 { Divided(Power(n, o, a, peak), Power(n, o, b, peak), total); }
  }

  /** The peak is the greatest logit, so no exponent is positive. */
  lemma {:induction false} PeakIsGreatest(n: Numerics, o: Overlay, moves: seq<Move>)
    requires moves != []
    ensures forall m :: m in moves ==> Logit(n, o, m) <= Peak(n, o, moves)
    ensures exists m :: m in moves && Logit(n, o, m) == Peak(n, o, moves)
  {
    var last := moves[|moves| - 1];
    if |moves| > 1 {
      var init := moves[..|moves| - 1];
      PeakIsGreatest(n, o, init);
      assert moves == init + [last];
      var m :| m in init && Logit(n, o, m) == Peak(n, o, init);
      assert m in moves && last in moves;
    }
  }

  /**
   A greater base prior, a greater sum of learned weights or a more reliable actor never lowers the prior, the other two
   being equal.
   */
  lemma PriorsFollowMerit(n: Numerics, o: Overlay, moves: seq<Move>, a: Move, b: Move)
    requires NumericsOk(n) && OverlayValid(o) && moves != []
    ensures a.actor == b.actor && a.tags == b.tags && a.basePrior <= b.basePrior ==> Prior(n, o, moves, a) <= Prior(n, o, moves, b)
    ensures a.actor == b.actor && a.basePrior == b.basePrior
            && SumWeights(o.policyWeights, a.tags) <= SumWeights(o.policyWeights, b.tags) ==>
              Prior(n, o, moves, a) <= Prior(n, o, moves, b)
    ensures a.tags == b.tags && a.basePrior == b.basePrior && MeanOf(RecordOf(o, a.actor)) <= MeanOf(RecordOf(o, b.actor)) ==>
              Prior(n, o, moves, a) <= Prior(n, o, moves, b)
  {
    PriorsAreProportional(n, o, moves, a, b);
    ReliabilityIs(n, RecordOf(o, a.actor));
    ReliabilityIs(n, RecordOf(o, b.actor));
    MeanIsUnit(RecordOf(o, a.actor));
    MeanIsUnit(RecordOf(o, b.actor));
    if MeanOf(RecordOf(o, a.actor)) <= MeanOf(RecordOf(o, b.actor)) {
      OddsRise(MeanOf(RecordOf(o, a.actor)), MeanOf(RecordOf(o, b.actor)));
    }
  }

  lemma MeanIsUnit(r: AgentRecord)
    requires r.alpha > 0.0 && r.beta > 0.0
    ensures 0.0 <= MeanOf(r) <= 1.0
  {
    Quotient(r.alpha, r.alpha + r.beta);
  }

  // ----- Blended value -----

  /** An untrained model leaves the heuristic; from 60 updates on the two count equally; before, the model by its updates. */
  lemma BlendExactly(n: Numerics, o: Overlay, pos: Position, heuristic: real)
    ensures o.valueUpdates == 0 ==> Blend(n, o, pos, heuristic) == heuristic
    ensures o.valueUpdates >= 60 ==> Blend(n, o, pos, heuristic) == (heuristic + LearnedValue(n, o, pos)) / 2.0
    ensures o.valueUpdates <= 60 ==>
              Blend(n, o, pos, heuristic) == heuristic + (o.valueUpdates as real / 120.0) * (LearnedValue(n, o, pos) - heuristic)
  {
    var v, share := LearnedValue(n, o, pos), LearnedShare(o);
    Interpolates(share, heuristic, v);
    if o.valueUpdates >= 60 { assert share == 0.5; }
    if o.valueUpdates <= 60 { assert share == o.valueUpdates as real / 120.0; }
  }

  lemma Interpolates(share: real, h: real, v: real)
    ensures Times(1.0 - share, h) + Times(share, v) == h + share * (v - h)
  {
  }

  /** The learned value squashes the bias plus the mean weight of the features. */
  lemma LearnedValueIs(n: Numerics, o: Overlay, pos: Position)
    ensures Features(pos) == [] ==> LearnedValue(n, o, pos) == n.tanh(o.valueBias)
    ensures Features(pos) != [] ==>
              LearnedValue(n, o, pos) == n.tanh(o.valueBias + Ratio(SumWeights(o.valueWeights, Features(pos)), |Features(pos)| as real))
  {
  }

  // ----- Rollout -----

  /** The proposer's estimate of a move: its predicted composite less its cost, within [0,1]. */
  lemma QualityExactly(s: Suite, m: Move)
    ensures 0.0 <= Quality(s, m) <= 1.0
    ensures 0.0 < Quality(s, m) < 1.0 ==> Quality(s, m) == Composite(s.metrics, m.predicted) - s.costWeight * m.cost
    ensures Quality(s, m) == 0.0 ==> Composite(s.metrics, m.predicted) - s.costWeight * m.cost <= 0.0
    ensures Quality(s, m) == 1.0 ==> Composite(s.metrics, m.predicted) - s.costWeight * m.cost >= 1.0
  {
  }

  function Appeal(g: Game, legal: seq<Move>, m: Move): real
    requires legal != []
  {
    0.78 * Quality(g.suite, m) + 0.22 * Prior(g.num, g.model, legal, m)
  }

  lemma AppealIs(g: Game, legal: seq<Move>, m: Move)
    requires legal != []
    ensures Preference(g, legal, m) == Rank(Appeal(g, legal, m), m.id)
  {
  }

  /**
   A rollout that goes on plays the legal move with the greatest appeal, the last by identifier among equals; a position
   that is terminal or has no legal move is where it ends.
   */
  lemma RolloutPlaysTheBest(g: Game, pos: Position) returns (m: Move)
    requires ReachedIn(g, pos) && Greedy(g, pos).Ok? && !pos.Terminal() && Legal(g, pos) != []
    ensures m in Legal(g, pos) && pos.trajectory + [m] <= Greedy(g, pos).value.trajectory
    ensures forall other :: other in Legal(g, pos) ==>
              && Appeal(g, Legal(g, pos), other) <= Appeal(g, Legal(g, pos), m)
              && (Appeal(g, Legal(g, pos), other) == Appeal(g, Legal(g, pos), m) ==> !Before(m.id, other.id))
  {
    var legal := Legal(g, pos);
    var k := Top(Preferences(g, legal));
    m := legal[k];
    forall other | other in legal
      ensures Appeal(g, legal, other) <= Appeal(g, legal, m) && (Appeal(g, legal, other) == Appeal(g, legal, m) ==> !Before(m.id, other.id))
    {
      var j :| 0 <= j < |legal| && legal[j] == other;
      AppealIs(g, legal, m);
      AppealIs(g, legal, other);
      assert !Below(Preferences(g, legal)[k], Preferences(g, legal)[j]);
    }
    StepReached(g, pos, m);
    GreedyReached(g, Step(g, pos, m).value);
  }

  /** The value of a leaf: the violation reward at a dead end, else its own value blended with the reward of its completion. */
  lemma LeafExactly(g: Game, pos: Position)
    requires Greedy(g, pos).Ok?
    ensures var done := Greedy(g, pos).value;
            LeafValue(g, pos) == if done.status == None then Ok(g.suite.violationReward)
                                 else Ok(Blend(g.num, g.model, pos, Evaluate(g.suite, done).reward))
  {
  }

  /** Moves are tried by falling prior, and by identifier among equals. */
  lemma TriedByPrior(priors: map<Move, real>, moves: seq<Move>, i: nat, j: nat)
    requires i < j < |Ranked(priors, moves)| && forall m :: m in moves ==> m in priors
    ensures var s := Ranked(priors, moves);
            && s[i] in priors && s[j] in priors && priors[s[j]] <= priors[s[i]]
            && (priors[s[j]] == priors[s[i]] ==> !Before(s[j].id, s[i].id))
  {
    var s := Ranked(priors, moves);
    RankedOrdered(priors, moves);
    assert s[i] in multiset(s) && s[j] in multiset(s);
    assert s[i] in multiset(moves) && s[j] in multiset(moves);
    assert !Below(KeyOf(priors, s[j]), KeyOf(priors, s[i]));
  }
}
