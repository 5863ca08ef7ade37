/** The policy/value overlay: agent reliability, priors over legal moves and the blended value of a position. */
module PolicyModel {
  import opened Wrappers
  import opened Scenario
  import opened Scorer
  import opened Order

  /** The library functions, and the digest that names a model; only their ranges and signs matter. */
  datatype Numerics = Numerics(exp: real -> real, log: real -> real, tanh: real -> real, sqrt: real -> real,
                               version: Overlay -> string)

  ghost predicate NumericsOk(n: Numerics) {
    && (forall x :: n.exp(x) >= 0.0)
    && (forall x, y :: x <= y ==> n.exp(x) <= n.exp(y))
    && (forall x, y :: 0.0 < x <= y ==> n.log(x) <= n.log(y))
    && (forall x :: -1.0 <= n.tanh(x) <= 1.0)
    && (forall x, y :: x <= y ==> n.tanh(x) <= n.tanh(y))
    && (forall x :: x > 0.0 ==> n.sqrt(x) > 0.0)
  }

  datatype AgentRecord = AgentRecord(alpha: real, beta: real, benched: bool)

  const NEW_RECORD: AgentRecord := AgentRecord(1.0, 1.0, false)

  /** The contents of a model: what `frozen_copy` copies. */
  datatype Overlay = Overlay(policyWeights: map<string, real>, valueWeights: map<string, real>, valueBias: real,
                             valueUpdates: nat, generation: nat, agents: map<string, AgentRecord>, policyLimit: real,
                             valueLimit: real, benchMinSamples: nat, benchThreshold: real)

  predicate Within(x: real, limit: real) { -limit <= x <= limit }

  ghost predicate AllWithin(weights: map<string, real>, limit: real) {
    forall tag :: tag in weights ==> Within(weights[tag], limit)
  }

  /** The checks of `__post_init__`. */
  ghost predicate OverlayValid(o: Overlay) {
    && o.policyLimit > 0.0 && o.valueLimit > 0.0 && o.benchMinSamples > 0 && 0.0 <= o.benchThreshold <= 1.0
    && Within(o.valueBias, o.valueLimit)
    && AllWithin(o.policyWeights, o.policyLimit) && AllWithin(o.valueWeights, o.valueLimit)
    && forall actor :: actor in o.agents ==> o.agents[actor].alpha > 0.0 && o.agents[actor].beta > 0.0
  }

  function Benched(o: Overlay): set<string> { set actor | actor in o.agents && o.agents[actor].benched }

  function RecordOf(o: Overlay, actor: string): AgentRecord {
    if actor in o.agents then o.agents[actor] else NEW_RECORD
  }

  /** Division that the caller never makes by zero. */
  function Over(x: real, y: real): real { if y == 0.0 then 0.0 else x / y }

  // ----- Priors -----

  function WeightOf(weights: map<string, real>, tag: string): real { if tag in weights then weights[tag] else 0.0 }

  function SumWeights(weights: map<string, real>, tags: seq<string>): real {
    if tags == [] then 0.0 else SumWeights(weights, tags[..|tags| - 1]) + WeightOf(weights, tags[|tags| - 1])
  }

  function Reliability(n: Numerics, r: AgentRecord): real {
    var mean := Over(r.alpha, r.alpha + r.beta);
    Times(0.2, n.log(Over(Max(mean, 0.0001), Max(1.0 - mean, 0.0001))))
  }

  function Logit(n: Numerics, o: Overlay, m: Move): real {
    n.log(Max(m.basePrior, 0.000000001)) + SumWeights(o.policyWeights, m.tags) + Reliability(n, RecordOf(o, m.actor))
  }

  function Peak(n: Numerics, o: Overlay, moves: seq<Move>): real
    requires moves != []
  {
    var last := Logit(n, o, moves[|moves| - 1]);
    if |moves| == 1 then last else Max(Peak(n, o, moves[..|moves| - 1]), last)
  }

  function Power(n: Numerics, o: Overlay, m: Move, peak: real): real { n.exp(Logit(n, o, m) - peak) }

  function PowerSum(n: Numerics, o: Overlay, moves: seq<Move>, peak: real): real {
    if moves == [] then 0.0
    else PowerSum(n, o, moves[..|moves| - 1], peak) + Power(n, o, moves[|moves| - 1], peak)
  }

  /** The softmax of one move among its alternatives, uniform when every exponential underflows. */
  function Prior(n: Numerics, o: Overlay, moves: seq<Move>, m: Move): real
    requires moves != []
  {
    var peak := Peak(n, o, moves);
    var total := PowerSum(n, o, moves, peak);
    if total <= 0.0 then Ratio(1.0, |moves| as real) else Ratio(Power(n, o, m, peak), total)
  }

  /** The priors of moves with distinct identifiers, keyed by the move. */
  function Priors(n: Numerics, o: Overlay, moves: seq<Move>): map<Move, real> {
    map m | m in moves :: Prior(n, o, moves, m)
  }

  function SumPriors(n: Numerics, o: Overlay, all: seq<Move>, moves: seq<Move>): real
    requires all != []
  {
    if moves == [] then 0.0
    else SumPriors(n, o, all, moves[..|moves| - 1]) + Prior(n, o, all, moves[|moves| - 1])
  }

  lemma {:induction false} PowersAreNonnegative(n: Numerics, o: Overlay, moves: seq<Move>, peak: real)
    requires NumericsOk(n)
    ensures PowerSum(n, o, moves, peak) >= 0.0
  {
    if moves != [] {
      PowersAreNonnegative(n, o, moves[..|moves| - 1], peak);
    }
  }

  lemma {:induction false} PriorShares(n: Numerics, o: Overlay, all: seq<Move>, moves: seq<Move>)
    requires all != []
    ensures var peak := Peak(n, o, all);
            var total := PowerSum(n, o, all, peak);
            SumPriors(n, o, all, moves) == if total <= 0.0 then Ratio(|moves| as real, |all| as real)
                                           else Ratio(PowerSum(n, o, moves, peak), total)
  {
    var peak := Peak(n, o, all);
    var total := PowerSum(n, o, all, peak);
    if moves != [] {
      var init, last := moves[..|moves| - 1], moves[|moves| - 1];
      PriorShares(n, o, all, init);
      if total <= 0.0 {
        RatioAdds(|init| as real, 1.0, |all| as real);
      } else {
        RatioAdds(PowerSum(n, o, init, peak), Power(n, o, last, peak), total);
      }
    }
  }

  lemma RatioAdds(a: real, b: real, d: real)
    requires d > 0.0
    ensures Ratio(a, d) + Ratio(b, d) == Ratio(a + b, d)
  {
  }

  /** The priors are a probability distribution on every nonempty list of moves. */
  lemma PriorsAreADistribution(n: Numerics, o: Overlay, moves: seq<Move>)
    requires NumericsOk(n) && moves != []
    ensures SumPriors(n, o, moves, moves) == 1.0
    ensures forall m :: m in moves ==> m in Priors(n, o, moves) && Priors(n, o, moves)[m] >= 0.0
  {
    PriorShares(n, o, moves, moves);
    RatioSelf(|moves| as real);
    if PowerSum(n, o, moves, Peak(n, o, moves)) > 0.0 { RatioSelf(PowerSum(n, o, moves, Peak(n, o, moves))); }
    forall m ensures Prior(n, o, moves, m) >= 0.0 { PriorIsNonnegative(n, o, moves, m); }
  }

  lemma PriorIsNonnegative(n: Numerics, o: Overlay, moves: seq<Move>, m: Move)
    requires NumericsOk(n) && moves != []
    ensures Prior(n, o, moves, m) >= 0.0
  {
    var peak := Peak(n, o, moves);
    var total := PowerSum(n, o, moves, peak);
    if total > 0.0 { RatioSign(Power(n, o, m, peak), total); }
  }

  lemma RatioSelf(d: real)
    requires d > 0.0
    ensures Ratio(d, d) == 1.0
  {
  }

  lemma RatioSign(a: real, d: real)
    requires a >= 0.0 && d > 0.0
    ensures Ratio(a, d) >= 0.0
  {
  }

  // ----- Value -----

  function AllTags(moves: seq<Move>): seq<string> {
    if moves == [] then [] else AllTags(moves[..|moves| - 1]) + moves[|moves| - 1].tags
  }

  /** The distinct tags of a trajectory, in order of first use. */
  function Features(pos: Position): seq<string> { Dedup(AllTags(pos.trajectory)) }

  function RawValue(o: Overlay, features: seq<string>): real {
    if features == [] then o.valueBias
    else o.valueBias + Ratio(SumWeights(o.valueWeights, features), |features| as real)
  }

  function LearnedValue(n: Numerics, o: Overlay, pos: Position): real { n.tanh(RawValue(o, Features(pos))) }

  function LearnedShare(o: Overlay): real { Min(0.5, o.valueUpdates as real / 120.0) }

  function Blend(n: Numerics, o: Overlay, pos: Position, heuristic: real): real {
    Times(1.0 - LearnedShare(o), heuristic) + Times(LearnedShare(o), LearnedValue(n, o, pos))
  }

  /** A blend of two values in [-1,1] is in [-1,1]. */
  lemma BlendBounds(n: Numerics, o: Overlay, pos: Position, heuristic: real)
    requires NumericsOk(n) && -1.0 <= heuristic <= 1.0
    ensures -1.0 <= Blend(n, o, pos, heuristic) <= 1.0
  {
    var share := LearnedShare(o);
    Symmetric(1.0 - share, heuristic);
    Symmetric(share, LearnedValue(n, o, pos));
  }
}
