/** In which direction and how far one learning step moves the model, and when an observation benches an agent. */
module ModelLaws {
  import opened Wrappers
  import opened Scenario
  import opened Scorer
  import opened PolicyModel
  import opened ModelLearning

  // ----- One weight -----

  lemma {:induction false} NudgeMisses(weights: map<string, real>, tags: seq<string>, delta: real, limit: real, tag: string)
    requires tag !in tags
    ensures WeightOf(Nudge(weights, tags, delta, limit), tag) == WeightOf(weights, tag)
  {
    if tags != [] {
      var init := tags[..|tags| - 1];
      assert tags == init + [tags[|tags| - 1]];
      NudgeMisses(weights, init, delta, limit, tag);
    }
  }

  predicate AllDistinct(tags: seq<string>) { forall i, j :: 0 <= i < j < |tags| ==> tags[i] != tags[j] }

  /** A tag that occurs once moves by the step, up to the limit. */
  lemma {:induction false} NudgeHits(weights: map<string, real>, tags: seq<string>, delta: real, limit: real, tag: string)
    requires tag in tags && AllDistinct(tags)
    ensures WeightOf(Nudge(weights, tags, delta, limit), tag) == Clip(WeightOf(weights, tag) + delta, limit)
  {
    var init, last := tags[..|tags| - 1], tags[|tags| - 1];
    assert tags == init + [last];
    if tag == last {
      NudgeMisses(weights, init, delta, limit, tag);
    } else {
      NudgeHits(weights, init, delta, limit, tag);
    }
  }

  // ----- Policy -----

  /** The tag is this move's own. */
  ghost predicate Owned(moves: seq<Move>, i: nat, tag: string) {
    i < |moves| && tag in moves[i].tags && forall j :: 0 <= j < |moves| && j != i ==> tag !in moves[j].tags
  }

  lemma {:induction false} PolicyMisses(n: Numerics, o: Overlay, moves: seq<Move>, target: map<string, real>, rate: real, from: nat, k: nat, tag: string)
    requires from <= k <= |moves| && forall j :: from <= j < k ==> tag !in moves[j].tags
    ensures WeightOf(PolicyAfter(n, o, moves, target, rate, k), tag) == WeightOf(PolicyAfter(n, o, moves, target, rate, from), tag)
  {
    if from < k {
      PolicyMisses(n, o, moves, target, rate, from, k - 1, tag);
      var m := moves[k - 1];
      NudgeMisses(PolicyAfter(n, o, moves, target, rate, k - 1), m.tags, Scale(n, o, moves, target, rate, m), o.policyLimit, tag);
    }
  }

  /** How far the policy step moves a tag of this move: the gap between target and prior, by the rate, over the tags. */
  function Push(n: Numerics, o: Overlay, moves: seq<Move>, target: map<string, real>, rate: real, m: Move): real
    requires moves != []
  {
    rate * ((if m.id in target then target[m.id] else 0.0) - Prior(n, o, moves, m)) / (if |m.tags| >= 1 then |m.tags| as real else 1.0)
  }

  /** Exactly the sums a target distribution may have. */
  lemma TargetSumsAccepted(total: real)
    ensures NearOne(total) <==> 1.0 - 0.00000001 <= total <= 1.0 + 0.00000001
  {
  }

  /** Which policy steps raise: those whose target names an unknown move, has a negative share or does not add up to 1. */
  lemma PolicyStepsExactly(n: Numerics, o: Overlay, moves: seq<Move>, target: map<string, real>, rate: real)
    requires moves != []
    ensures LearnedPolicy(n, o, moves, target, rate).Ok? <==>
              && (forall id :: id in target ==> exists i :: 0 <= i < |moves| && moves[i].id == id)
              && (forall id :: id in target ==> target[id] >= 0.0)
              && 1.0 - 0.00000001 <= SumAt(Dedup(Ids(moves)), target) <= 1.0 + 0.00000001
              && 0.0 < rate <= 1.0
    ensures LearnedPolicy(n, o, [], target, rate) == Ok(o)
  {
    TargetSumsAccepted(SumAt(Dedup(Ids(moves)), target));
    forall id | id in target ensures id in Ids(moves) <==> exists i :: 0 <= i < |moves| && moves[i].id == id {
      if i :| 0 <= i < |moves| && moves[i].id == id { assert Ids(moves)[i] == id; }
    }
  }

  /** Which value steps raise: those towards a reward outside [-1,1] or at a rate outside (0,1]. */
  lemma ValueStepsExactly(n: Numerics, o: Overlay, pos: Position, reward: real, rate: real)
    ensures LearnedValueStep(n, o, pos, reward, rate) ==
            if -1.0 <= reward <= 1.0 && 0.0 < rate <= 1.0 then Ok(ValueStep(n, o, pos, reward, rate)) else Err(Invalid)
  {
  }

  /**
   After a policy step the weight of a move's own tag has moved by exactly its push, up to the limit; so a move whose
   target share is at least its prior never loses weight, and one whose share is at most its prior never gains. A tag of
   no move keeps its weight.
   */
  lemma PolicyFollowsTarget(n: Numerics, o: Overlay, moves: seq<Move>, target: map<string, real>, rate: real, i: nat, tag: string)
    requires OverlayValid(o) && RateFits(rate) && Owned(moves, i, tag) && AllDistinct(moves[i].tags)
    requires LearnedPolicy(n, o, moves, target, rate).Ok?
    ensures var p := LearnedPolicy(n, o, moves, target, rate).value;
            var share := if moves[i].id in target then target[moves[i].id] else 0.0;
            && WeightOf(p.policyWeights, tag) == Clip(WeightOf(o.policyWeights, tag) + Push(n, o, moves, target, rate, moves[i]), o.policyLimit)
            && (share >= Prior(n, o, moves, moves[i]) ==> WeightOf(p.policyWeights, tag) >= WeightOf(o.policyWeights, tag))
            && (share <= Prior(n, o, moves, moves[i]) ==> WeightOf(p.policyWeights, tag) <= WeightOf(o.policyWeights, tag))
  {
    var m := moves[i];
    PolicyMoves(n, o, moves, target, rate, i, tag);
    PushIs(n, o, moves, target, rate, m);
    assert Within(WeightOf(o.policyWeights, tag), o.policyLimit);
  }

  lemma PolicyMoves(n: Numerics, o: Overlay, moves: seq<Move>, target: map<string, real>, rate: real, i: nat, tag: string)
    requires Owned(moves, i, tag) && AllDistinct(moves[i].tags)
    ensures WeightOf(PolicyAfter(n, o, moves, target, rate, |moves|), tag)
         == Clip(WeightOf(o.policyWeights, tag) + Scale(n, o, moves, target, rate, moves[i]), o.policyLimit)
  {
    PolicyMisses(n, o, moves, target, rate, 0, i, tag);
    NudgeHits(PolicyAfter(n, o, moves, target, rate, i), moves[i].tags, Scale(n, o, moves, target, rate, moves[i]), o.policyLimit, tag);
    PolicyMisses(n, o, moves, target, rate, i + 1, |moves|, tag);
  }

  /** The step of the original is the push, and has the sign of the gap. */
  lemma PushIs(n: Numerics, o: Overlay, moves: seq<Move>, target: map<string, real>, rate: real, m: Move)
    requires moves != [] && RateFits(rate)
    ensures var gap := (if m.id in target then target[m.id] else 0.0) - Prior(n, o, moves, m);
            && Scale(n, o, moves, target, rate, m) == Push(n, o, moves, target, rate, m)
            && (gap >= 0.0 ==> Push(n, o, moves, target, rate, m) >= 0.0) && (gap <= 0.0 ==> Push(n, o, moves, target, rate, m) <= 0.0)
  {
    PushAt(TargetOf(target, m.id) - Prior(n, o, moves, m), rate, |m.tags|);
  }

  lemma PushAt(gap: real, rate: real, tags: nat)
    requires rate >= 0.0
    ensures var d := if tags >= 1 then tags as real else 1.0;
            && d == (if tags > 1 then tags as real else 1.0) && Over(Times(rate, gap), d) == rate * gap / d
            && (gap >= 0.0 ==> rate * gap / d >= 0.0) && (gap <= 0.0 ==> rate * gap / d <= 0.0)
  {
    PushSign(gap, rate, if tags >= 1 then tags as real else 1.0);
  }

  lemma PushSign(gap: real, rate: real, d: real)
    requires rate >= 0.0 && d > 0.0
    ensures Over(Times(rate, gap), d) == rate * gap / d
    ensures (gap >= 0.0 ==> rate * gap / d >= 0.0) && (gap <= 0.0 ==> rate * gap / d <= 0.0)
  {
    SignTimes(gap, rate);
    assert Times(gap, rate) == gap * rate == rate * gap;
    OverSign(rate * gap, d);
  }

  lemma PolicyLeavesOtherTags(n: Numerics, o: Overlay, moves: seq<Move>, target: map<string, real>, rate: real, tag: string)
    requires LearnedPolicy(n, o, moves, target, rate).Ok? && forall j :: 0 <= j < |moves| ==> tag !in moves[j].tags
    ensures WeightOf(LearnedPolicy(n, o, moves, target, rate).value.policyWeights, tag) == WeightOf(o.policyWeights, tag)
  {
    PolicyMisses(n, o, moves, target, rate, 0, |moves|, tag);
  }

  // ----- Value -----

  lemma {:induction false} DedupIsDistinct(s: seq<string>)
    ensures AllDistinct(Dedup(s))
  {
    if s != [] { DedupIsDistinct(s[..|s| - 1]); }
  }

  /** The gradient of the squared error through tanh, by the rate. */
  function Slope(n: Numerics, o: Overlay, pos: Position, reward: real, rate: real): real {
    var v := LearnedValue(n, o, pos);
    rate * ((reward - v) * (1.0 - v * v))
  }

  /** A value step moves the bias by the slope, and the weight of each feature by its share of it, up to the limit. */
  lemma ValueStepExactly(n: Numerics, o: Overlay, pos: Position, reward: real, rate: real, tag: string)
    ensures var v := ValueStep(n, o, pos, reward, rate);
            && v.valueBias == Clip(o.valueBias + Slope(n, o, pos, reward, rate), o.valueLimit)
            && (tag in Features(pos) ==>
                  WeightOf(v.valueWeights, tag)
                  == Clip(WeightOf(o.valueWeights, tag) + Slope(n, o, pos, reward, rate) / |Features(pos)| as real, o.valueLimit))
            && (tag !in Features(pos) ==> WeightOf(v.valueWeights, tag) == WeightOf(o.valueWeights, tag))
  {
    SlopeIs(n, o, pos, reward, rate);
    FeatureMoves(n, o, pos, reward, rate, tag);
  }

  lemma SlopeIs(n: Numerics, o: Overlay, pos: Position, reward: real, rate: real)
    ensures Times(rate, ValueError(n, o, pos, reward)) == Slope(n, o, pos, reward, rate)
  {
  }

  lemma FeatureMoves(n: Numerics, o: Overlay, pos: Position, reward: real, rate: real, tag: string)
    ensures var v := ValueStep(n, o, pos, reward, rate);
            var step := Times(rate, ValueError(n, o, pos, reward));
            && (tag in Features(pos) ==>
                  WeightOf(v.valueWeights, tag) == Clip(WeightOf(o.valueWeights, tag) + step / |Features(pos)| as real, o.valueLimit))
            && (tag !in Features(pos) ==> WeightOf(v.valueWeights, tag) == WeightOf(o.valueWeights, tag))
  {
    var features := Features(pos);
    var step := Times(rate, ValueError(n, o, pos, reward));
    DedupIsDistinct(AllTags(pos.trajectory));
    if features != [] {
      var delta := Over(step, |features| as real);
      if tag in features {
        NudgeHits(o.valueWeights, features, delta, o.valueLimit, tag);
      } else {
        NudgeMisses(o.valueWeights, features, delta, o.valueLimit, tag);
      }
    }
  }

  /** The features are exactly the tags of the moves played. */
  lemma {:induction false} TagsOfGame(moves: seq<Move>, tag: string)
    ensures tag in AllTags(moves) <==> exists i :: 0 <= i < |moves| && tag in moves[i].tags
  {
    if moves != [] {
      var init := moves[..|moves| - 1];
      TagsOfGame(init, tag);
      if i :| 0 <= i < |init| && tag in init[i].tags { assert moves[i] == init[i]; }
      if i :| 0 <= i < |moves| && tag in moves[i].tags && i < |init| { assert init[i] == moves[i]; }
    }
  }

  lemma FeaturesAreTags(pos: Position, tag: string)
    ensures tag in Features(pos) <==> exists i :: 0 <= i < |pos.trajectory| && tag in pos.trajectory[i].tags
    ensures AllDistinct(Features(pos))
  {
    TagsOfGame(pos.trajectory, tag);
    DedupIsDistinct(AllTags(pos.trajectory));
  }

  // ----- Observations -----

  function Cube(x: real): real { x * x * (x + 1.0) }

  lemma CubePositive(x: real)
    requires x > 0.0
    ensures Cube(x) > 0.0
  {
    assert x * x > 0.0;
  }

  /** The variance of a Beta(alpha, beta) posterior. */
  function Variance(alpha: real, beta: real): real
    requires alpha > 0.0 && beta > 0.0
  {
    CubePositive(alpha + beta);
    Ratio(alpha * beta, Cube(alpha + beta))
  }

  lemma VarianceIs(product: real, cube: real, x: real, y: real)
    requires product == x && cube == y && y > 0.0
    ensures Over(product, cube) == Ratio(x, y)
  {
  }

  lemma DeviationIs(n: Numerics, r: AgentRecord)
    requires r.alpha > 0.0 && r.beta > 0.0
    ensures Deviation(n, r) == n.sqrt(Variance(r.alpha, r.beta))
  {
    var total := r.alpha + r.beta;
    CubePositive(total);
    VarianceIs(Times(r.alpha, r.beta), Times(Times(total, total), total + 1.0), r.alpha * r.beta, Cube(total));
  }

  /** Enough samples, and a mean that even with 1.64 deviations stays below the threshold. */
  ghost predicate Unreliable(n: Numerics, o: Overlay, r: AgentRecord)
    requires r.alpha > 0.0 && r.beta > 0.0
  {
    && r.alpha + r.beta - 2.0 >= o.benchMinSamples as real
    && r.alpha / (r.alpha + r.beta) + 1.64 * n.sqrt(Variance(r.alpha, r.beta)) < o.benchThreshold
  }

  lemma UnreliableIs(n: Numerics, o: Overlay, r: AgentRecord)
    requires r.alpha > 0.0 && r.beta > 0.0 && o.benchThreshold <= 1.0
    ensures Unreliable(n, o, r) <==> Samples(r) >= o.benchMinSamples as real && UpperConfidence(n, r) < o.benchThreshold
  {
    DeviationIs(n, r);
    var deviation := n.sqrt(Variance(r.alpha, r.beta));
    assert Times(1.64, deviation) == 1.64 * deviation;
  }

  /**
   An observation of quality q in [0,1] adds q to alpha and 1 - q to beta. An agent that was not benched is benched by it
   exactly when it now has enough samples and an upper confidence below the threshold; a benched agent stays benched.
   */
  lemma BenchedExactly(n: Numerics, o: Overlay, actor: string, quality: real)
    requires OverlayValid(o) && 0.0 <= quality <= 1.0
    ensures var before, after := RecordOf(o, actor), RecordOf(Observed(n, o, actor, quality), actor);
            && after.alpha == before.alpha + quality && after.beta == before.beta + 1.0 - quality
            && after.alpha > 0.0 && after.beta > 0.0
            && (after.benched <==> before.benched || Unreliable(n, o, after))
  {
    var before, after := RecordOf(o, actor), RecordOf(Observed(n, o, actor, quality), actor);
    assert Max(0.0, Min(1.0, quality)) == quality;
    var seen := AgentRecord(before.alpha + quality, before.beta + 1.0 - quality, before.benched);
    UnreliableIs(n, o, seen);
    UnreliableIs(n, o, after);
  }

  /** Beyond the range, quality counts as the nearest bound. */
  lemma QualityIsBounded(n: Numerics, o: Overlay, actor: string, quality: real)
    ensures quality > 1.0 ==> Observed(n, o, actor, quality) == Observed(n, o, actor, 1.0)
    ensures quality < 0.0 ==> Observed(n, o, actor, quality) == Observed(n, o, actor, 0.0)
  {
  }
}
