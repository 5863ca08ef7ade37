/** The model object: gradient steps on policy and value weights, clipped to their limits. */
module ModelLearning {
  import opened Wrappers
  import opened Scenario
  import opened Scorer
  import opened PolicyModel

  function Clip(x: real, limit: real): real { Max(-limit, Min(limit, x)) }

  /** Adds `delta` to every tag in turn, clipped; a repeated tag moves repeatedly. */
  function Nudge(weights: map<string, real>, tags: seq<string>, delta: real, limit: real): map<string, real> {
    if tags == [] then weights
    else
      var w := Nudge(weights, tags[..|tags| - 1], delta, limit);
      var tag := tags[|tags| - 1];
      w[tag := Clip(WeightOf(w, tag) + delta, limit)]
  }

  // ----- Policy -----

  function TargetOf(target: map<string, real>, id: string): real { if id in target then target[id] else 0.0 }

  function SumAt(ids: seq<string>, target: map<string, real>): real {
    if ids == [] then 0.0 else SumAt(ids[..|ids| - 1], target) + TargetOf(target, ids[|ids| - 1])
  }

  /** `math.isclose(total, 1.0, abs_tol=1e-8)`. */
  predicate NearOne(total: real) {
    var gap := if total >= 1.0 then total - 1.0 else 1.0 - total;
    var size := if total >= 0.0 then total else -total;
    gap <= Max(0.000000001 * Max(size, 1.0), 0.00000001)
  }

  /** Known moves only, no negative share, and shares that sum to one. */
  predicate TargetFits(moves: seq<Move>, target: map<string, real>) {
    && (forall id :: id in target ==> id in Ids(moves))
    && (forall id :: id in target ==> target[id] >= 0.0)
    && NearOne(SumAt(Dedup(Ids(moves)), target))
  }

  predicate RateFits(rate: real) { 0.0 < rate <= 1.0 }

  function Scale(n: Numerics, o: Overlay, moves: seq<Move>, target: map<string, real>, rate: real, m: Move): real
    requires moves != []
  {
    Over(Times(rate, TargetOf(target, m.id) - Prior(n, o, moves, m)), if |m.tags| > 1 then |m.tags| as real else 1.0)
  }

  /** The weights after the first `k` moves; predictions are those before the update. */
  function PolicyAfter(n: Numerics, o: Overlay, moves: seq<Move>, target: map<string, real>, rate: real, k: nat): map<string, real>
    requires k <= |moves|
  {
    if k == 0 then o.policyWeights
    else
      var m := moves[k - 1];
      Nudge(PolicyAfter(n, o, moves, target, rate, k - 1), m.tags, Scale(n, o, moves, target, rate, m), o.policyLimit)
  }

  function LearnedPolicy(n: Numerics, o: Overlay, moves: seq<Move>, target: map<string, real>, rate: real): Result<Overlay> {
    if moves == [] then Ok(o)
    else if !TargetFits(moves, target) || !RateFits(rate) then Err(Invalid)
    else Ok(o.(policyWeights := PolicyAfter(n, o, moves, target, rate, |moves|)))
  }

  // ----- Value -----

  /** The gradient of the squared error through tanh. */
  function ValueError(n: Numerics, o: Overlay, pos: Position, reward: real): real {
    var predicted := LearnedValue(n, o, pos);
    Times(reward - predicted, 1.0 - Times(predicted, predicted))
  }

  function ValueStep(n: Numerics, o: Overlay, pos: Position, reward: real, rate: real): Overlay {
    var step := Times(rate, ValueError(n, o, pos, reward));
    var features := Features(pos);
    o.(valueBias := Clip(o.valueBias + step, o.valueLimit),
       valueWeights := if features == [] then o.valueWeights
                       else Nudge(o.valueWeights, features, Over(step, |features| as real), o.valueLimit),
       valueUpdates := o.valueUpdates + 1)
  }

  function LearnedValueStep(n: Numerics, o: Overlay, pos: Position, reward: real, rate: real): Result<Overlay> {
    if !Within(reward, 1.0) || !RateFits(rate) then Err(Invalid) else Ok(ValueStep(n, o, pos, reward, rate))
  }

  // ----- Weights stay within their limits -----

  lemma {:induction false} NudgeWithin(weights: map<string, real>, tags: seq<string>, delta: real, limit: real)
    requires limit > 0.0 && AllWithin(weights, limit)
    ensures AllWithin(Nudge(weights, tags, delta, limit), limit)
  {
    if tags != [] { NudgeWithin(weights, tags[..|tags| - 1], delta, limit); }
  }

  lemma {:induction false} PolicyWithin(n: Numerics, o: Overlay, moves: seq<Move>, target: map<string, real>, rate: real, k: nat)
    requires OverlayValid(o) && k <= |moves|
    ensures AllWithin(PolicyAfter(n, o, moves, target, rate, k), o.policyLimit)
  {
    if k > 0 {
      var m := moves[k - 1];
      PolicyWithin(n, o, moves, target, rate, k - 1);
      NudgeWithin(PolicyAfter(n, o, moves, target, rate, k - 1), m.tags, Scale(n, o, moves, target, rate, m), o.policyLimit);
    }
  }

  /** A learning step keeps the model valid and touches neither its generation, its agents nor its limits. */
  lemma PolicyKeepsValid(n: Numerics, o: Overlay, moves: seq<Move>, target: map<string, real>, rate: real)
    requires OverlayValid(o) && LearnedPolicy(n, o, moves, target, rate).Ok?
    ensures var p := LearnedPolicy(n, o, moves, target, rate).value;
            OverlayValid(p) && p == o.(policyWeights := p.policyWeights)
  {
    PolicyWithin(n, o, moves, target, rate, |moves|);
  }

  lemma ValueKeepsValid(n: Numerics, o: Overlay, pos: Position, reward: real, rate: real)
    requires OverlayValid(o)
    ensures var v := ValueStep(n, o, pos, reward, rate);
            && OverlayValid(v)
            && v == o.(valueBias := v.valueBias, valueWeights := v.valueWeights, valueUpdates := o.valueUpdates + 1)
  {
    var features := Features(pos);
    NudgeWithin(o.valueWeights, features, Over(Times(rate, ValueError(n, o, pos, reward)), |features| as real), o.valueLimit);
  }

  // ----- Value learning follows the reward -----

  /** Every weight moves in the direction of `delta`, or stays at its limit. */
  lemma {:induction false} NudgeFollows(weights: map<string, real>, tags: seq<string>, delta: real, limit: real, tag: string)
    requires limit > 0.0 && AllWithin(weights, limit)
    ensures delta >= 0.0 ==> WeightOf(Nudge(weights, tags, delta, limit), tag) >= WeightOf(weights, tag)
    ensures delta <= 0.0 ==> WeightOf(Nudge(weights, tags, delta, limit), tag) <= WeightOf(weights, tag)
  {
    if tags != [] {
      NudgeFollows(weights, tags[..|tags| - 1], delta, limit, tag);
      NudgeWithin(weights, tags[..|tags| - 1], delta, limit);
    }
  }

  lemma {:induction false} SumFollows(a: map<string, real>, b: map<string, real>, tags: seq<string>)
    requires forall tag :: tag in tags ==> WeightOf(a, tag) <= WeightOf(b, tag)
    ensures SumWeights(a, tags) <= SumWeights(b, tags)
  {
    if tags != [] {
      assert forall tag :: tag in tags[..|tags| - 1] ==> tag in tags;
      SumFollows(a, b, tags[..|tags| - 1]);
      assert tags[|tags| - 1] in tags;
    }
  }

  lemma OverSign(x: real, y: real)
    requires y > 0.0
    ensures x >= 0.0 ==> Over(x, y) >= 0.0
    ensures x <= 0.0 ==> Over(x, y) <= 0.0
  {
    if x >= 0.0 { RatioSign(x, y); }
    if x <= 0.0 { RatioSign(-x, y); assert x / y == -(-x / y); }
  }

  /** The error has the sign of the gap between reward and prediction. */
  lemma ErrorSign(n: Numerics, o: Overlay, pos: Position, reward: real)
    requires NumericsOk(n)
    ensures reward >= LearnedValue(n, o, pos) ==> ValueError(n, o, pos, reward) >= 0.0
    ensures reward <= LearnedValue(n, o, pos) ==> ValueError(n, o, pos, reward) <= 0.0
  {
    var p := LearnedValue(n, o, pos);
    SquareUnit(p);
    SignTimes(reward - p, 1.0 - Times(p, p));
  }

  lemma SquareUnit(p: real)
    requires -1.0 <= p <= 1.0
    ensures Times(p, p) <= 1.0
  {
    if p >= 0.0 { Product(p, p); } else { Product(-p, -p); assert Times(-p, -p) == (-p) * (-p) == p * p; }
  }

  lemma SignTimes(x: real, y: real)
    requires y >= 0.0
    ensures x >= 0.0 ==> Times(x, y) >= 0.0
    ensures x <= 0.0 ==> Times(x, y) <= 0.0
  {
    if x >= 0.0 { Penalty(x, y); }
    if x <= 0.0 { Penalty(-x, y); assert Times(-x, y) == (-x) * y == -(x * y); }
  }

  /** One value step never moves the prediction of its position away from the reward. */
  lemma ValueStepFollowsReward(n: Numerics, o: Overlay, pos: Position, reward: real, rate: real)
    requires NumericsOk(n) && OverlayValid(o) && RateFits(rate)
    ensures var v := ValueStep(n, o, pos, reward, rate);
            && (reward >= LearnedValue(n, o, pos) ==> LearnedValue(n, v, pos) >= LearnedValue(n, o, pos))
            && (reward <= LearnedValue(n, o, pos) ==> LearnedValue(n, v, pos) <= LearnedValue(n, o, pos))
  {
    var error := ValueError(n, o, pos, reward);
    var step := Times(rate, error);
    ErrorSign(n, o, pos, reward);
    SignTimes(error, rate);
    assert Times(error, rate) == error * rate == step;
    RawFollows(o, ValueStep(n, o, pos, reward, rate), Features(pos), step);
  }

  lemma RawFollows(o: Overlay, v: Overlay, features: seq<string>, step: real)
    requires OverlayValid(o)
    requires v.valueBias == Clip(o.valueBias + step, o.valueLimit)
    requires features != [] ==>
               v.valueWeights == Nudge(o.valueWeights, features, Over(step, |features| as real), o.valueLimit)
    ensures step >= 0.0 ==> RawValue(v, features) >= RawValue(o, features)
    ensures step <= 0.0 ==> RawValue(v, features) <= RawValue(o, features)
  {
    if features != [] {
      var delta := Over(step, |features| as real);
      OverSign(step, |features| as real);
      forall tag
        ensures delta >= 0.0 ==> WeightOf(v.valueWeights, tag) >= WeightOf(o.valueWeights, tag)
        ensures delta <= 0.0 ==> WeightOf(v.valueWeights, tag) <= WeightOf(o.valueWeights, tag)
      {
        NudgeFollows(o.valueWeights, features, delta, o.valueLimit, tag);
      }
      var before, after := SumWeights(o.valueWeights, features), SumWeights(v.valueWeights, features);
      if step >= 0.0 {
        SumFollows(o.valueWeights, v.valueWeights, features);
        Divided(before, after, |features| as real);
      }
      if step <= 0.0 {
        SumFollows(v.valueWeights, o.valueWeights, features);
        Divided(after, before, |features| as real);
      }
    }
  }

  // ----- Agent records -----

  function Deviation(n: Numerics, r: AgentRecord): real {
    var total := r.alpha + r.beta;
    n.sqrt(Over(Times(r.alpha, r.beta), Times(Times(total, total), total + 1.0)))
  }

  function UpperConfidence(n: Numerics, r: AgentRecord): real {
    Min(1.0, Over(r.alpha, r.alpha + r.beta) + Times(1.64, Deviation(n, r)))
  }

  function Samples(r: AgentRecord): real { r.alpha + r.beta - 2.0 }

  /** One observation; enough samples with a low upper bound bench the agent. */
  function Observed(n: Numerics, o: Overlay, actor: string, quality: real): Overlay {
    var bounded := Max(0.0, Min(1.0, quality));
    var r := RecordOf(o, actor);
    var seen := AgentRecord(r.alpha + bounded, r.beta + 1.0 - bounded, r.benched);
    var bench := !seen.benched && Samples(seen) >= o.benchMinSamples as real && UpperConfidence(n, seen) < o.benchThreshold;
    o.(agents := o.agents[actor := seen.(benched := seen.benched || bench)])
  }

  function ObservedMove(n: Numerics, o: Overlay, suite: Suite, m: Move): Result<Overlay> {
    if m !in suite.receipts then Err(Invalid) else Ok(Observed(n, o, m.actor, Composite(suite.metrics, suite.receipts[m])))
  }

  /** Bench state is durable, every observation is exactly one sample, and no other agent is touched. */
  lemma ObservedKeeps(n: Numerics, o: Overlay, actor: string, quality: real)
    requires OverlayValid(o)
    ensures var p := Observed(n, o, actor, quality);
            && OverlayValid(p) && Benched(o) <= Benched(p) <= Benched(o) + {actor}
            && Samples(RecordOf(p, actor)) == Samples(RecordOf(o, actor)) + 1.0
            && forall other :: other != actor ==> RecordOf(p, other) == RecordOf(o, other)
  {
  }

  // ----- The model object -----

  class PolicyValueModel {
    var policyWeights: map<string, real>
    var valueWeights: map<string, real>
    var valueBias: real
    var valueUpdates: nat
    var generation: nat
    var agents: map<string, AgentRecord>
    const policyLimit: real
    const valueLimit: real
    const benchMinSamples: nat
    const benchThreshold: real

    function Contents(): Overlay
      reads this
    {
      Overlay(policyWeights, valueWeights, valueBias, valueUpdates, generation, agents, policyLimit, valueLimit,
              benchMinSamples, benchThreshold)
    }

    /** Also `frozen_copy`, applied to the contents of another model. */
    constructor (o: Overlay)
      ensures Contents() == o
    {
      policyWeights, valueWeights, valueBias := o.policyWeights, o.valueWeights, o.valueBias;
      valueUpdates, generation, agents := o.valueUpdates, o.generation, o.agents;
      policyLimit, valueLimit, benchMinSamples, benchThreshold := o.policyLimit, o.valueLimit, o.benchMinSamples, o.benchThreshold;
    }

    method LearnPolicy(n: Numerics, moves: seq<Move>, target: map<string, real>, rate: real) returns (r: Result<()>)
      modifies this`policyWeights
      ensures r.Ok? <==> LearnedPolicy(n, old(Contents()), moves, target, rate).Ok?
      ensures r.Ok? ==> Contents() == LearnedPolicy(n, old(Contents()), moves, target, rate).value
      ensures r.Err? ==> Contents() == old(Contents())
    {
      if moves == [] { return Ok(()); }
      if !TargetFits(moves, target) || !RateFits(rate) { return Err(Invalid); }
      policyWeights := NudgeMoves(n, Contents(), moves, target, rate);
      return Ok(());
    }

    method LearnValue(n: Numerics, pos: Position, reward: real, rate: real) returns (r: Result<()>)
      modifies this`valueWeights, this`valueBias, this`valueUpdates
      ensures r.Ok? <==> LearnedValueStep(n, old(Contents()), pos, reward, rate).Ok?
      ensures r.Ok? ==> Contents() == LearnedValueStep(n, old(Contents()), pos, reward, rate).value
      ensures r.Err? ==> Contents() == old(Contents())
    {
      if !Within(reward, 1.0) || !RateFits(rate) { return Err(Invalid); }
      var predicted := LearnedValue(n, Contents(), pos);
      var step := Times(rate, Times(reward - predicted, 1.0 - Times(predicted, predicted)));
      var features := Features(pos);
      valueBias := Clip(valueBias + step, valueLimit);
      if features != [] {
        valueWeights := NudgeTags(valueWeights, features, Over(step, |features| as real), valueLimit);
      }
      valueUpdates := valueUpdates + 1;
      return Ok(());
    }

    method ObserveBenchmark(n: Numerics, move: Move, suite: Suite) returns (r: Result<()>)
      modifies this`agents
      ensures r.Ok? <==> ObservedMove(n, old(Contents()), suite, move).Ok?
      ensures r.Ok? ==> Contents() == ObservedMove(n, old(Contents()), suite, move).value
      ensures r.Err? ==> forall actor :: RecordOf(Contents(), actor) == old(RecordOf(Contents(), actor))
    {
      if move.actor !in agents { agents := agents[move.actor := NEW_RECORD]; }
      if move !in suite.receipts { return Err(Invalid); }
      var bounded := Max(0.0, Min(1.0, Composite(suite.metrics, suite.receipts[move])));
      var record := agents[move.actor];
      record := record.(alpha := record.alpha + bounded, beta := record.beta + 1.0 - bounded);
      if !record.benched && Samples(record) >= benchMinSamples as real && UpperConfidence(n, record) < benchThreshold {
        record := record.(benched := true);
      }
      agents := agents[move.actor := record];
      return Ok(());
    }
  }

  /** The loop over the moves; the predictions are taken before the first update. */
  method NudgeMoves(n: Numerics, o: Overlay, moves: seq<Move>, target: map<string, real>, rate: real) returns (w: map<string, real>)
    requires moves != []
    ensures w == PolicyAfter(n, o, moves, target, rate, |moves|)
  {
    var predicted := Priors(n, o, moves);
    w := o.policyWeights;
    for i := 0 to |moves|
      invariant w == PolicyAfter(n, o, moves, target, rate, i)
    {
      var move := moves[i];
      var error := TargetOf(target, move.id) - predicted[move];
      var scale := Over(Times(rate, error), if |move.tags| > 1 then |move.tags| as real else 1.0);
      assert scale == Scale(n, o, moves, target, rate, move);
      w := NudgeTags(w, move.tags, scale, o.policyLimit);
    }
  }

  /** The loop over the tags of a move or of a trajectory. */
  method NudgeTags(weights: map<string, real>, tags: seq<string>, delta: real, limit: real) returns (w: map<string, real>)
    ensures w == Nudge(weights, tags, delta, limit)
  {
    w := weights;
    for k := 0 to |tags|
      invariant w == Nudge(weights, tags[..k], delta, limit)
    {
      assert tags[..k + 1][..k] == tags[..k];
      w := w[tags[k] := Clip(WeightOf(w, tags[k]) + delta, limit)];
    }
    assert tags[..|tags|] == tags;
  }
}
