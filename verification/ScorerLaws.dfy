/** What a score card says, field by field, in terms of the game that was played. */
module ScorerLaws {
  import opened Wrappers
  import opened Scenario
  import opened Scorer

  // ----- Cost -----

  /** A reward that no bound cut off. */
  predicate Unclipped(reward: real) { -1.0 < reward < 1.0 }

  lemma PenaltyGap(w: real, a: real, b: real)
    requires w >= 0.0 && a <= b
    ensures Times(w, a) <= Times(w, b) && Times(w, b) - Times(w, a) == w * (b - a)
  {
    Penalty(w, b - a);
    assert w * (b - a) == w * b - w * a;
  }

  /**
   Of two feasible games with the same metrics the dearer one never earns more, and where neither reward is clipped the
   difference is exactly the cost weight times the difference in cost.
   */
  lemma CostLowersReward(s: Suite, p: Position, q: Position)
    requires s.costWeight >= 0.0 && p.status == Some(COMMITTED) && q.status == Some(COMMITTED) && p.cost <= q.cost
    requires Evaluate(s, p).feasible && Evaluate(s, q).feasible && Evaluate(s, p).metrics == Evaluate(s, q).metrics
    ensures Evaluate(s, q).reward <= Evaluate(s, p).reward
    ensures Unclipped(Evaluate(s, p).reward) && Unclipped(Evaluate(s, q).reward) ==>
              Evaluate(s, p).reward - Evaluate(s, q).reward == s.costWeight * (q.cost - p.cost)
  {
    PenaltyGap(s.costWeight, p.cost, q.cost);
  }

  /** The same for abstentions that were played, whatever their metrics; the system abstention costs nothing. */
  lemma CostLowersAbstention(s: Suite, p: Position, q: Position)
    requires s.costWeight >= 0.0 && s.abstainReward >= -1.0
    requires p.status == Some(ABSTAINED) && q.status == Some(ABSTAINED) && p.cost <= q.cost
    requires !SystemFallback(p) && !SystemFallback(q)
    ensures RewardOf(s, q) <= RewardOf(s, p)
    ensures RewardOf(s, p) > -1.0 && RewardOf(s, q) > -1.0 ==>
              RewardOf(s, p) - RewardOf(s, q) == s.costWeight * (q.cost - p.cost)
    ensures p.cost == 0.0 ==> RewardOf(s, p) == s.abstainReward
  {
    AbstentionIs(s, p);
    AbstentionIs(s, q);
    ClippedGap(s.costWeight, p.cost, q.cost, s.abstainReward, RewardOf(s, p), RewardOf(s, q));
  }

  function RewardOf(s: Suite, pos: Position): real { Evaluate(s, pos).reward }

  lemma ClippedGap(w: real, a: real, b: real, base: real, x: real, y: real)
    requires w >= 0.0 && a <= b && -1.0 <= base && x == Max(-1.0, base - Times(w, a)) && y == Max(-1.0, base - Times(w, b))
    ensures y <= x && (x > -1.0 && y > -1.0 ==> x - y == w * (b - a)) && (a == 0.0 ==> x == base)
  {
    PenaltyGap(w, a, b);
  }

  lemma AbstentionIs(s: Suite, pos: Position)
    requires pos.status == Some(ABSTAINED) && !SystemFallback(pos)
    ensures RewardOf(s, pos) == Max(-1.0, s.abstainReward - Times(s.costWeight, pos.cost))
  {
  }

  /** The reward of every card: a feasible game earns twice its composite less one and the penalty, within [-1,1]. */
  lemma RewardExactly(s: Suite, pos: Position)
    requires SuiteValid(s) && pos.cost >= 0.0
    ensures var card := Evaluate(s, pos);
            && (card.feasible && pos.status != Some(ABSTAINED) && Unclipped(card.reward) ==>
                  card.reward == 2.0 * card.composite - 1.0 - s.costWeight * pos.cost)
            && (card.feasible && pos.status != Some(ABSTAINED) && card.reward >= 1.0 ==>
                  2.0 * card.composite - 1.0 - s.costWeight * pos.cost >= 1.0)
            && (card.feasible && pos.status != Some(ABSTAINED) && card.reward <= -1.0 ==>
                  2.0 * card.composite - 1.0 - s.costWeight * pos.cost <= -1.0)
            && (!card.feasible ==> card.reward == s.violationReward)
            && (pos.status == Some(ABSTAINED) ==> card.feasible)
            && (pos.status == Some(ABSTAINED) && SystemFallback(pos) ==>
                  card.reward == s.abstainReward && card.composite == 0.0 && card.costPenalty == 0.0)
            && (!(pos.status == Some(ABSTAINED) && SystemFallback(pos)) ==> card.costPenalty == s.costWeight * pos.cost)
            && card.outcome == pos.status
  {
  }

  // ----- Metrics -----

  lemma {:induction false} TotalAt(s: Suite, moves: seq<Move>, name: string, skip: bool)
    requires moves != []
    ensures var init, m := moves[..|moves| - 1], moves[|moves| - 1];
            && Total(s, moves, name, skip) == Total(s, init, name, skip) + Part(s, m, |moves| - 1, name, skip)
            && Denominator(s, moves, skip) == Denominator(s, init, skip) + Share(s, m, |moves| - 1, skip)
  {
  }

  /** The importance of ply `i` when it counts. */
  function Weight(s: Suite, moves: seq<Move>, i: nat, abstained: bool): real
    requires i < |moves|
  {
    if moves[i] !in s.receipts || (abstained && moves[i].kind.ABSTAIN?) then 0.0
    else if i < |s.importance| then s.importance[i] else 0.0
  }

  /** The value of a metric over a four-ply game: the mean of its receipts, each weighted by the importance of its ply. */
  lemma FourPlyMetric(s: Suite, moves: seq<Move>, name: string, abstained: bool)
    requires SuiteValid(s) && |moves| == 4 && name in Names(s)
    ensures var w0, w1, w2, w3 := Weight(s, moves, 0, abstained), Weight(s, moves, 1, abstained),
                                  Weight(s, moves, 2, abstained), Weight(s, moves, 3, abstained);
            var sum := w0 + w1 + w2 + w3;
            && name in Values(s, moves, abstained)
            && (sum > 0.0 ==>
                  Values(s, moves, abstained)[name]
                  == Ratio(Times(Receipt(s, moves[0], name), w0) + Times(Receipt(s, moves[1], name), w1)
                           + Times(Receipt(s, moves[2], name), w2) + Times(Receipt(s, moves[3], name), w3), sum))
            && (sum <= 0.0 ==> Values(s, moves, abstained)[name] == 0.0)
  {
    FourPlySums(s, moves, name, abstained);
    PlyAt(s, moves, 0, name, abstained);
    PlyAt(s, moves, 1, name, abstained);
    PlyAt(s, moves, 2, name, abstained);
    PlyAt(s, moves, 3, name, abstained);
  }

  lemma FourPlySums(s: Suite, moves: seq<Move>, name: string, skip: bool)
    requires |moves| == 4
    ensures Denominator(s, moves, skip)
         == Share(s, moves[0], 0, skip) + Share(s, moves[1], 1, skip) + Share(s, moves[2], 2, skip) + Share(s, moves[3], 3, skip)
    ensures Total(s, moves, name, skip)
         == Part(s, moves[0], 0, name, skip) + Part(s, moves[1], 1, name, skip)
            + Part(s, moves[2], 2, name, skip) + Part(s, moves[3], 3, name, skip)
  {
    TotalAt(s, moves, name, skip);
    TotalAt(s, moves[..3], name, skip);
    assert moves[..3][..2] == moves[..2] && moves[..2][..1] == moves[..1] && moves[..1][..0] == [];
    TotalAt(s, moves[..2], name, skip);
    TotalAt(s, moves[..1], name, skip);
  }

  lemma PlyAt(s: Suite, moves: seq<Move>, i: nat, name: string, abstained: bool)
    requires SuiteValid(s) && i < |moves|
    ensures Share(s, moves[i], i, abstained) == Weight(s, moves, i, abstained)
    ensures Part(s, moves[i], i, name, abstained) == Times(Receipt(s, moves[i], name), Weight(s, moves, i, abstained))
  {
  }

  /** Every card of a played game carries these values, and those of the system abstention are zero. */
  lemma MetricsOfCard(s: Suite, pos: Position)
    ensures var card := Evaluate(s, pos);
            card.metrics == if pos.status == Some(ABSTAINED) && SystemFallback(pos) then map n | n in Names(s) :: 0.0
                            else Values(s, pos.trajectory, pos.status == Some(ABSTAINED))
  {
  }

  // ----- Composite -----

  lemma {:induction false} CompositeAt(metrics: seq<Metric>, values: map<string, real>, extra: map<string, real>, name: string, gain: real)
    requires values.Keys == extra.Keys && name in values && extra == values[name := values[name] + gain]
    ensures Composite(metrics, extra) == Composite(metrics, values) + Times(gain, NamedWeight(metrics, name))
  {
    if metrics != [] {
      CompositeAt(metrics[..|metrics| - 1], values, extra, name, gain);
      var m := metrics[|metrics| - 1];
      Distributes(values[name], gain, m.weight);
      Distributes(NamedWeight(metrics[..|metrics| - 1], name), m.weight, gain);
    }
  }

  lemma Distributes(x: real, y: real, z: real)
    ensures Times(x + y, z) == Times(x, z) + Times(y, z) && Times(z, x + y) == Times(z, x) + Times(z, y) && Times(y, z) == Times(z, y)
  {
  }

  /** The weight metrics of this name have together; names are distinct in a valid suite. */
  function NamedWeight(metrics: seq<Metric>, name: string): real {
    if metrics == [] then 0.0
    else NamedWeight(metrics[..|metrics| - 1], name) + if metrics[|metrics| - 1].name == name then metrics[|metrics| - 1].weight else 0.0
  }

  lemma {:induction false} ZeroComposite(metrics: seq<Metric>, values: map<string, real>)
    requires forall n :: n in values ==> values[n] == 0.0
    ensures Composite(metrics, values) == 0.0
  {
    if metrics != [] { ZeroComposite(metrics[..|metrics| - 1], values); }
  }

  /** The composite is zero for zero metrics and rises by the weight of a metric times its gain: it is the weighted sum. */
  lemma CompositeIsWeighted(s: Suite, values: map<string, real>, name: string, gain: real)
    requires name in values
    ensures Composite(s.metrics, values[name := values[name] + gain]) == Composite(s.metrics, values) + Times(gain, NamedWeight(s.metrics, name))
    ensures Composite(s.metrics, map n | n in values :: 0.0) == 0.0
  {
    CompositeAt(s.metrics, values, values[name := values[name] + gain], name, gain);
    ZeroComposite(s.metrics, map n | n in values :: 0.0);
  }

  lemma CompositeOfCard(s: Suite, pos: Position)
    ensures !(pos.status == Some(ABSTAINED) && SystemFallback(pos)) ==>
              Evaluate(s, pos).composite == Composite(s.metrics, Evaluate(s, pos).metrics)
  {
  }

  // ----- Failures -----

  /** What a failure on a card means. */
  ghost predicate Deserved(s: Suite, pos: Position, f: Failure) {
    var abstained := pos.status == Some(ABSTAINED);
    match f
    case Violation(text) => text in pos.violations
    case NoTerminal => pos.status == None
    case UnresolvedObligation => !abstained && pos.openQuestions != []
    case WrongLength(plies, expected) =>
      !abstained && plies == |pos.trajectory| && expected == |s.importance| && plies != expected
    case NoTrustedEvidence =>
      !abstained && forall i, j :: 0 <= i < |pos.evidence| && 0 <= j < |s.trustedPrefixes| ==> !(s.trustedPrefixes[j] <= pos.evidence[i])
    case MissingReceipt(id) =>
      exists i :: 0 <= i < |pos.trajectory| && pos.trajectory[i].id == id && pos.trajectory[i] !in s.receipts
                  && !(abstained && pos.trajectory[i].kind.ABSTAIN?)
    case CriticalSafety(id, safety) =>
      exists i :: 0 <= i < |pos.trajectory| && pos.trajectory[i].id == id && pos.trajectory[i] in s.receipts
                  && !(abstained && pos.trajectory[i].kind.ABSTAIN?)
                  && "safety" in s.receipts[pos.trajectory[i]] && s.receipts[pos.trajectory[i]]["safety"] == safety < s.criticalSafety
    case GateMissed(name, value) =>
      !abstained && exists i :: 0 <= i < |s.metrics| && s.metrics[i].name == name && s.metrics[i].hardMinimum.Some?
                                && name in Evaluate(s, pos).metrics && Evaluate(s, pos).metrics[name] == value < s.metrics[i].hardMinimum.value
  }

  lemma {:induction false} PlyFailuresAre(s: Suite, moves: seq<Move>, skip: bool, f: Failure)
    ensures f in TrajectoryFailures(s, moves, skip) <==> exists i :: 0 <= i < |moves| && f in PlyFailures(s, moves[i], skip)
  {
    if moves != [] {
      var init := moves[..|moves| - 1];
      PlyFailuresAre(s, init, skip, f);
      if i :| 0 <= i < |init| && f in PlyFailures(s, init[i], skip) { assert moves[i] == init[i]; }
      if i :| 0 <= i < |moves| && f in PlyFailures(s, moves[i], skip) && i < |init| { assert init[i] == moves[i]; }
    }
  }

  lemma {:induction false} GateFailuresAre(metrics: seq<Metric>, values: map<string, real>, f: Failure)
    ensures f in GateFailures(metrics, values) <==>
              exists i :: 0 <= i < |metrics| && !GateMet(metrics[i], values)
                          && f == GateMissed(metrics[i].name, if metrics[i].name in values then values[metrics[i].name] else 0.0)
  {
    if metrics != [] {
      var init := metrics[..|metrics| - 1];
      GateFailuresAre(init, values, f);
      if i :| 0 <= i < |init| && !GateMet(init[i], values)
              && f == GateMissed(init[i].name, if init[i].name in values then values[init[i].name] else 0.0)
      { assert metrics[i] == init[i]; }
      if i :| 0 <= i < |metrics| && !GateMet(metrics[i], values)
              && f == GateMissed(metrics[i].name, if metrics[i].name in values then values[metrics[i].name] else 0.0) && i < |init|
      { assert init[i] == metrics[i]; }
    }
  }

  lemma ViolationsAre(violations: seq<string>, f: Failure)
    ensures f in AsFailures(violations) <==> f.Violation? && f.text in violations
  {
    if f.Violation? && f.text in violations {
      var i :| 0 <= i < |violations| && violations[i] == f.text;
      assert AsFailures(violations)[i] == f;
    }
  }

  lemma TrustIs(s: Suite, refs: seq<string>)
    ensures !HasTrusted(s, refs) <==>
              forall i, j :: 0 <= i < |refs| && 0 <= j < |s.trustedPrefixes| ==> !(s.trustedPrefixes[j] <= refs[i])
  {
    if HasTrusted(s, refs) {
      var i :| 0 <= i < |refs| && Trusted(s, refs[i]);
      var j :| 0 <= j < |s.trustedPrefixes| && s.trustedPrefixes[j] <= refs[i];
    }
    forall i, j | 0 <= i < |refs| && 0 <= j < |s.trustedPrefixes| && s.trustedPrefixes[j] <= refs[i] ensures HasTrusted(s, refs) {
      assert Trusted(s, refs[i]);
    }
  }

  lemma JoinFive<T>(a: seq<T>, b: seq<T>, c: seq<T>, d: seq<T>, e: seq<T>, f: T)
    ensures f in a + b + c + d + e <==> f in a || f in b || f in c || f in d || f in e
  {
  }

  lemma PositionFailuresAre(s: Suite, pos: Position, f: Failure)
    requires pos.status != Some(ABSTAINED)
    ensures f.Violation? || f.NoTerminal? || f.UnresolvedObligation? || f.WrongLength? || f.NoTrustedEvidence? ==>
              (f in PositionFailures(s, pos) <==> Deserved(s, pos, f))
    ensures f.MissingReceipt? || f.CriticalSafety? || f.GateMissed? ==> f !in PositionFailures(s, pos)
  {
    ViolationsAre(pos.violations, f);
    TrustIs(s, pos.evidence);
    JoinFive(AsFailures(pos.violations), Flag(pos.status != Some(COMMITTED), NoTerminal),
             Flag(pos.openQuestions != [], UnresolvedObligation),
             Flag(|pos.trajectory| != |s.importance|, WrongLength(|pos.trajectory|, |s.importance|)),
             Flag(!HasTrusted(s, pos.evidence), NoTrustedEvidence), f);
    match f
    case NoTerminal =>
      if pos.status.Some? {
        match pos.status.value
        case COMMITTED =>
        case ABSTAINED =>
      }
    case NoTrustedEvidence => assert f in PositionFailures(s, pos) <==> !HasTrusted(s, pos.evidence);
    case _ =>
  }

  /** A failure of a ply is a missing receipt or a safety below the floor. */
  lemma TrajectoryFailuresAre(s: Suite, pos: Position, f: Failure)
    ensures f in TrajectoryFailures(s, pos.trajectory, pos.status == Some(ABSTAINED)) <==>
              (f.MissingReceipt? || f.CriticalSafety?) && Deserved(s, pos, f)
  {
    PlyFailuresAre(s, pos.trajectory, pos.status == Some(ABSTAINED), f);
  }

  lemma GatesAre(s: Suite, pos: Position, f: Failure)
    requires SuiteValid(s) && pos.status != Some(ABSTAINED)
    ensures f in GateFailures(s.metrics, Values(s, pos.trajectory, false)) <==> f.GateMissed? && Deserved(s, pos, f)
  {
    var values := Values(s, pos.trajectory, false);
    GateFailuresAre(s.metrics, values, f);
    assert Evaluate(s, pos).metrics == values;
    assert forall i :: 0 <= i < |s.metrics| ==> s.metrics[i].name in values;
  }

  lemma Join<T>(a: seq<T>, b: seq<T>, c: seq<T>, f: T)
    ensures f in a + b + c <==> f in a || f in b || f in c
  {
  }

  /** A card lists exactly the failures the game deserves. */
  lemma FailuresExactly(s: Suite, pos: Position, f: Failure)
    requires SuiteValid(s) && !(pos.status == Some(ABSTAINED) && SystemFallback(pos))
    ensures f in Evaluate(s, pos).failures <==> Deserved(s, pos, f)
  {
    TrajectoryFailuresAre(s, pos, f);
    if pos.status == Some(ABSTAINED) {
      ViolationsAre(pos.violations, f);
      assert f in Evaluate(s, pos).failures <==> f in AsFailures(pos.violations) + TrajectoryFailures(s, pos.trajectory, true);
    } else {
      PositionFailuresAre(s, pos, f);
      GatesAre(s, pos, f);
      Join(PositionFailures(s, pos), TrajectoryFailures(s, pos.trajectory, false), GateFailures(s.metrics, Values(s, pos.trajectory, false)), f);
      assert f in Evaluate(s, pos).failures <==> f in AllFailures(s, pos);
    }
  }

  // ----- Weights -----

  /** Exactly the weight sums a suite may have: from 1 - 1e-9 to 1/(1 - 1e-9). */
  lemma WeightSumsAccepted(total: real)
    ensures CloseToOne(total) <==> 1.0 - 0.000000001 <= total <= COMPOSITE_LIMIT
  {
  }
}
