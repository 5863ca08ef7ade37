/** The governed scorer: weighted receipts, hard gates, and the reward of a finished discussion. */
module Scorer {
  import opened Wrappers
  import opened Scenario

  datatype Metric = Metric(name: string, weight: real, hardMinimum: Option<real>)

  /** Receipts are keyed by the content hash of a move, that is by the move itself. */
  datatype Suite = Suite(version: string, manifest: Scenario, metrics: seq<Metric>, receipts: map<Move, map<string, real>>,
                         importance: seq<real>, costWeight: real, criticalSafety: real, violationReward: real,
                         abstainReward: real, trustedPrefixes: seq<string>)

  datatype Failure =
    | Violation(text: string)
    | NoTerminal
    | UnresolvedObligation
    | WrongLength(plies: nat, expected: nat)
    | NoTrustedEvidence
    | MissingReceipt(id: string)
    | CriticalSafety(id: string, safety: real)
    | GateMissed(name: string, value: real)

  datatype ScoreCard = ScoreCard(metrics: map<string, real>, composite: real, costPenalty: real, reward: real, feasible: bool,
                                 failures: seq<Failure>, outcome: Option<TerminalStatus>)

  function Max(a: real, b: real): real { if a >= b then a else b }

  function Min(a: real, b: real): real { if a <= b then a else b }

  function Times(x: real, y: real): real { x * y }

  function Ratio(x: real, y: real): real
    requires y > 0.0
  {
    x / y
  }

  // ----- Construction checks -----

  function WeightSum(metrics: seq<Metric>): real {
    if metrics == [] then 0.0 else WeightSum(metrics[..|metrics| - 1]) + metrics[|metrics| - 1].weight
  }

  /** `math.isclose(total, 1.0, abs_tol=1e-9)`, whose default relative tolerance is also 1e-9. */
  predicate CloseToOne(total: real) {
    var gap := if total >= 1.0 then total - 1.0 else 1.0 - total;
    var size := if total >= 0.0 then total else -total;
    gap <= Max(0.000000001 * Max(size, 1.0), 0.000000001)
  }

  ghost predicate SuiteValid(s: Suite) {
    && s.metrics != [] && CloseToOne(WeightSum(s.metrics))
    && (forall i, j :: 0 <= i < j < |s.metrics| ==> s.metrics[i].name != s.metrics[j].name)
    && (forall i :: 0 <= i < |s.metrics| ==> s.metrics[i].weight >= 0.0)
    && s.importance != [] && (forall i :: 0 <= i < |s.importance| ==> s.importance[i] > 0.0)
    && 0.0 <= s.costWeight <= 1.0 && 0.0 <= s.criticalSafety <= 1.0
    && -1.0 <= s.violationReward <= 0.0 && -1.0 <= s.abstainReward <= 0.0
    && s.trustedPrefixes != [] && (forall i :: 0 <= i < |s.trustedPrefixes| ==> s.trustedPrefixes[i] != "")
    && (forall m, i :: m in s.receipts && 0 <= i < |s.metrics| ==> s.metrics[i].name in s.receipts[m])
    && (forall m, n :: m in s.receipts && n in s.receipts[m] ==> 0.0 <= s.receipts[m][n] <= 1.0)
  }

  // ----- Meaning of the totals -----

  /** The ply enters the totals: it has a receipt, and is not the abstention of an abstained game. */
  predicate Counted(s: Suite, m: Move, skipAbstain: bool) {
    !(skipAbstain && m.kind.ABSTAIN?) && m in s.receipts
  }

  function Importance(s: Suite, phase: nat): real { if phase < |s.importance| then s.importance[phase] else 0.0 }

  function Receipt(s: Suite, m: Move, name: string): real {
    if m in s.receipts && name in s.receipts[m] then s.receipts[m][name] else 0.0
  }

  /** What one ply adds to the denominator and to the total of a metric. */
  function Share(s: Suite, m: Move, phase: nat, skip: bool): real {
    if Counted(s, m, skip) then Importance(s, phase) else 0.0
  }

  function Part(s: Suite, m: Move, phase: nat, name: string, skip: bool): real {
    if Counted(s, m, skip) then Times(Receipt(s, m, name), Importance(s, phase)) else 0.0
  }

  function Denominator(s: Suite, moves: seq<Move>, skip: bool): real {
    if moves == [] then 0.0
    else Denominator(s, moves[..|moves| - 1], skip) + Share(s, moves[|moves| - 1], |moves| - 1, skip)
  }

  function Total(s: Suite, moves: seq<Move>, name: string, skip: bool): real {
    if moves == [] then 0.0
    else Total(s, moves[..|moves| - 1], name, skip) + Part(s, moves[|moves| - 1], |moves| - 1, name, skip)
  }

  function Value(s: Suite, moves: seq<Move>, name: string, skip: bool): real {
    var d := Denominator(s, moves, skip);
    if d > 0.0 then Ratio(Total(s, moves, name, skip), d) else 0.0
  }

  function Names(s: Suite): set<string> { set i | 0 <= i < |s.metrics| :: s.metrics[i].name }

  function Values(s: Suite, moves: seq<Move>, skip: bool): map<string, real> {
    map n | n in Names(s) :: Value(s, moves, n, skip)
  }

  function Composite(metrics: seq<Metric>, values: map<string, real>): real {
    if metrics == [] then 0.0
    else
      var m := metrics[|metrics| - 1];
      Composite(metrics[..|metrics| - 1], values) + Times(if m.name in values then values[m.name] else 0.0, m.weight)
  }

  // ----- Failures -----

  function PlyFailures(s: Suite, m: Move, skip: bool): seq<Failure> {
    if skip && m.kind.ABSTAIN? then []
    else if m !in s.receipts then [MissingReceipt(m.id)]
    else if "safety" in s.receipts[m] && s.receipts[m]["safety"] < s.criticalSafety then
      [CriticalSafety(m.id, s.receipts[m]["safety"])]
    else []
  }

  function TrajectoryFailures(s: Suite, moves: seq<Move>, skip: bool): seq<Failure> {
    if moves == [] then []
    else TrajectoryFailures(s, moves[..|moves| - 1], skip) + PlyFailures(s, moves[|moves| - 1], skip)
  }

  function GateFailures(metrics: seq<Metric>, values: map<string, real>): seq<Failure> {
    if metrics == [] then []
    else
      var m := metrics[|metrics| - 1];
      var v := if m.name in values then values[m.name] else 0.0;
      GateFailures(metrics[..|metrics| - 1], values)
      + if m.hardMinimum.Some? && v < m.hardMinimum.value then [GateMissed(m.name, v)] else []
  }

  predicate Trusted(s: Suite, ref: string) {
    exists i :: 0 <= i < |s.trustedPrefixes| && s.trustedPrefixes[i] <= ref
  }

  predicate HasTrusted(s: Suite, refs: seq<string>) {
    exists i :: 0 <= i < |refs| && Trusted(s, refs[i])
  }

  function Flag(b: bool, f: Failure): seq<Failure> { if b then [f] else [] }

  function AsFailures(violations: seq<string>): seq<Failure> {
    seq(|violations|, i requires 0 <= i < |violations| => Violation(violations[i]))
  }

  function PositionFailures(s: Suite, pos: Position): seq<Failure> {
    AsFailures(pos.violations)
    + Flag(pos.status != Some(COMMITTED), NoTerminal)
    + Flag(pos.openQuestions != [], UnresolvedObligation)
    + Flag(|pos.trajectory| != |s.importance|, WrongLength(|pos.trajectory|, |s.importance|))
    + Flag(!HasTrusted(s, pos.evidence), NoTrustedEvidence)
  }

  predicate SystemFallback(pos: Position) {
    |pos.trajectory| == 1 && pos.trajectory[0].id == SYSTEM_ABSTAIN
  }

  // ----- The score -----

  function EvaluateAbstained(s: Suite, pos: Position): ScoreCard {
    if SystemFallback(pos) then
      ScoreCard(map n | n in Names(s) :: 0.0, 0.0, 0.0, s.abstainReward, true, [], pos.status)
    else
      var values := Values(s, pos.trajectory, true);
      var penalty := Times(s.costWeight, pos.cost);
      ScoreCard(values, Composite(s.metrics, values), penalty, Max(-1.0, s.abstainReward - penalty), true,
                Dedup(AsFailures(pos.violations) + TrajectoryFailures(s, pos.trajectory, true)), pos.status)
  }

  function AllFailures(s: Suite, pos: Position): seq<Failure> {
    PositionFailures(s, pos) + TrajectoryFailures(s, pos.trajectory, false)
    + GateFailures(s.metrics, Values(s, pos.trajectory, false))
  }

  function EvaluateOther(s: Suite, pos: Position): ScoreCard {
    var values := Values(s, pos.trajectory, false);
    var composite := Composite(s.metrics, values);
    var penalty := Times(s.costWeight, pos.cost);
    var failures := Dedup(AllFailures(s, pos));
    ScoreCard(values, composite, penalty,
              if failures == [] then Max(-1.0, Min(1.0, 2.0 * composite - 1.0 - penalty)) else s.violationReward,
              failures == [], failures, pos.status)
  }

  function Evaluate(s: Suite, pos: Position): ScoreCard {
    if pos.status == Some(ABSTAINED) then EvaluateAbstained(s, pos) else EvaluateOther(s, pos)
  }

  // ----- The loops of the original -----

  /** The running totals after some plies. */
  function Totals(s: Suite, moves: seq<Move>, skip: bool): map<string, real> {
    map n | n in Names(s) :: Total(s, moves, n, skip)
  }

  /** One pass over the plies, accumulating totals per metric, the denominator and the failures. */
  method Accumulate(s: Suite, moves: seq<Move>, skip: bool) returns (values: map<string, real>, failures: seq<Failure>)
    requires SuiteValid(s)
    ensures values == Values(s, moves, skip)
    ensures failures == TrajectoryFailures(s, moves, skip)
  {
    var totals := Totals(s, [], skip);
    var denominator := 0.0;
    failures := [];
    for phase := 0 to |moves|
      invariant totals == Totals(s, moves[..phase], skip)
      invariant denominator == Denominator(s, moves[..phase], skip)
      invariant failures == TrajectoryFailures(s, moves[..phase], skip)
    {
      var move := moves[phase];
      assert moves[..phase + 1][..phase] == moves[..phase] && moves[..phase + 1][phase] == move;
      if !(skip && move.kind.ABSTAIN?) {
        if move !in s.receipts {
          failures := failures + [MissingReceipt(move.id)];
          UncountedPly(s, moves, phase, skip);
        } else {
          denominator := denominator + Importance(s, phase);
          totals := AddReceipt(s, moves, phase, skip, totals);
          if "safety" in s.receipts[move] && s.receipts[move]["safety"] < s.criticalSafety {
            failures := failures + [CriticalSafety(move.id, s.receipts[move]["safety"])];
          }
        }
      } else {
        UncountedPly(s, moves, phase, skip);
      }
    }
    assert moves[..|moves|] == moves;
    values := map n | n in totals.Keys :: if denominator > 0.0 then Ratio(totals[n], denominator) else 0.0;
  }

  lemma UncountedPly(s: Suite, moves: seq<Move>, phase: nat, skip: bool)
    requires phase < |moves| && !Counted(s, moves[phase], skip)
    ensures Totals(s, moves[..phase + 1], skip) == Totals(s, moves[..phase], skip)
  {
    assert moves[..phase + 1][..phase] == moves[..phase];
  }

  /** The inner loop over the metrics. */
  method AddReceipt(s: Suite, moves: seq<Move>, phase: nat, skip: bool, totals: map<string, real>) returns (r: map<string, real>)
    requires SuiteValid(s) && phase < |moves| && Counted(s, moves[phase], skip) && totals == Totals(s, moves[..phase], skip)
    ensures r == Totals(s, moves[..phase + 1], skip)
  {
    var move := moves[phase];
    assert moves[..phase + 1][..phase] == moves[..phase];
    r := totals;
    for i := 0 to |s.metrics|
      invariant r.Keys == Names(s)
      invariant forall j :: 0 <= j < i ==> r[s.metrics[j].name] == Total(s, moves[..phase + 1], s.metrics[j].name, skip)
      invariant forall j :: i <= j < |s.metrics| ==> r[s.metrics[j].name] == Total(s, moves[..phase], s.metrics[j].name, skip)
    {
      var name := s.metrics[i].name;
      var gain := Times(s.receipts[move][name], Importance(s, phase));
      assert gain == Part(s, move, phase, name, skip);
      r := r[name := r[name] + gain];
    }
  }

  method Score(s: Suite, pos: Position) returns (card: ScoreCard)
    requires SuiteValid(s)
    ensures card == Evaluate(s, pos)
  {
    if pos.status == Some(ABSTAINED) && SystemFallback(pos) {
      return ScoreCard(map n | n in Names(s) :: 0.0, 0.0, 0.0, s.abstainReward, true, [], pos.status);
    }
    var skip := pos.status == Some(ABSTAINED);
    var values, plies := Accumulate(s, pos.trajectory, skip);
    var composite := Composite(s.metrics, values);
    var penalty := Times(s.costWeight, pos.cost);
    if skip {
      var reward := Max(-1.0, s.abstainReward - penalty);
      return ScoreCard(values, composite, penalty, reward, true, Dedup(AsFailures(pos.violations) + plies), pos.status);
    }
    var failures := Dedup(PositionFailures(s, pos) + plies + GateFailures(s.metrics, values));
    var reward := s.violationReward;
    if failures == [] { reward := Max(-1.0, Min(1.0, 2.0 * composite - 1.0 - penalty)); }
    return ScoreCard(values, composite, penalty, reward, failures == [], failures, pos.status);
  }

  // ----- Bounds -----

  lemma {:induction false} TotalBounds(s: Suite, moves: seq<Move>, name: string, skip: bool)
    requires SuiteValid(s)
    ensures 0.0 <= Total(s, moves, name, skip) <= Denominator(s, moves, skip)
  {
    if moves != [] {
      var n := |moves| - 1;
      TotalBounds(s, moves[..n], name, skip);
      PartBounds(s, moves[n], n, name, skip);
    }
  }

  lemma PartBounds(s: Suite, m: Move, phase: nat, name: string, skip: bool)
    requires SuiteValid(s)
    ensures 0.0 <= Part(s, m, phase, name, skip) <= Share(s, m, phase, skip)
  {
    Product(Receipt(s, m, name), Importance(s, phase));
  }

  lemma Product(x: real, y: real)
    requires 0.0 <= x <= 1.0 && y >= 0.0
    ensures 0.0 <= Times(x, y) <= y
  {
    Penalty(x, y);
    Penalty(1.0 - x, y);
    assert Times(1.0 - x, y) == (1.0 - x) * y == y - x * y;
  }

  lemma Symmetric(x: real, y: real)
    requires x >= 0.0 && -1.0 <= y <= 1.0
    ensures -x <= Times(x, y) <= x
  {
    Penalty(x, 1.0 - y);
    Penalty(x, 1.0 + y);
    assert Times(x, 1.0 - y) == x * (1.0 - y) == x - x * y;
    assert Times(x, 1.0 + y) == x * (1.0 + y) == x + x * y;
  }

  lemma ValueBounds(s: Suite, moves: seq<Move>, name: string, skip: bool)
    requires SuiteValid(s)
    ensures 0.0 <= Value(s, moves, name, skip) <= 1.0
  {
    TotalBounds(s, moves, name, skip);
    var d, t := Denominator(s, moves, skip), Total(s, moves, name, skip);
    if d > 0.0 { Quotient(t, d); }
  }

  lemma Quotient(t: real, d: real)
    requires 0.0 <= t <= d && d > 0.0
    ensures 0.0 <= Ratio(t, d) <= 1.0
  {
  }

  ghost predicate InUnit(values: map<string, real>) {
    forall n :: n in values ==> 0.0 <= values[n] <= 1.0
  }

  ghost predicate WeightsOk(metrics: seq<Metric>) {
    forall i :: 0 <= i < |metrics| ==> metrics[i].weight >= 0.0
  }

  lemma {:induction false} CompositeBounds(metrics: seq<Metric>, values: map<string, real>)
    requires WeightsOk(metrics) && InUnit(values)
    ensures 0.0 <= Composite(metrics, values) <= WeightSum(metrics)
  {
    if metrics != [] {
      var m := metrics[|metrics| - 1];
      CompositeBounds(metrics[..|metrics| - 1], values);
      Product(if m.name in values then values[m.name] else 0.0, m.weight);
    }
  }

  /** The largest weight sum the suite check lets through: the relative tolerance scales with the sum itself. */
  const COMPOSITE_LIMIT: real := 1000000000.0 / 999999999.0

  ghost predicate Bounded(s: Suite, card: ScoreCard) {
    && InUnit(card.metrics) && card.metrics.Keys == Names(s)
    && 0.0 <= card.composite <= COMPOSITE_LIMIT
    && -1.0 <= card.reward <= 1.0
  }

  /** For every position: metrics in [0,1], composite in [0, 1/(1-1e-9)], reward in [-1,1]. */
  lemma ScoreBounds(s: Suite, pos: Position)
    requires SuiteValid(s) && pos.cost >= 0.0
    ensures Bounded(s, Evaluate(s, pos))
    ensures pos.status == Some(ABSTAINED) ==> Evaluate(s, pos).reward <= 0.0
  {
    if pos.status == Some(ABSTAINED) { AbstainedBounds(s, pos); } else { OtherBounds(s, pos); }
  }

  lemma AbstainedBounds(s: Suite, pos: Position)
    requires SuiteValid(s) && pos.cost >= 0.0
    ensures Bounded(s, EvaluateAbstained(s, pos)) && EvaluateAbstained(s, pos).reward <= 0.0
  {
    CompositeFits(s, pos.trajectory, true);
    Penalty(s.costWeight, pos.cost);
  }

  lemma OtherBounds(s: Suite, pos: Position)
    requires SuiteValid(s) && pos.cost >= 0.0
    ensures Bounded(s, EvaluateOther(s, pos))
  {
    CompositeFits(s, pos.trajectory, false);
    Penalty(s.costWeight, pos.cost);
  }

  lemma CompositeFits(s: Suite, moves: seq<Move>, skip: bool)
    requires SuiteValid(s)
    ensures var values := Values(s, moves, skip);
            InUnit(values) && values.Keys == Names(s) && 0.0 <= Composite(s.metrics, values) <= COMPOSITE_LIMIT
  {
    ValuesInUnit(s, moves, skip);
    CompositeBounds(s.metrics, Values(s, moves, skip));
    SumLimit(WeightSum(s.metrics));
  }

  lemma ValuesInUnit(s: Suite, moves: seq<Move>, skip: bool)
    requires SuiteValid(s)
    ensures InUnit(Values(s, moves, skip))
  {
    forall n ensures 0.0 <= Value(s, moves, n, skip) <= 1.0 { ValueBounds(s, moves, n, skip); }
  }

  lemma SumLimit(total: real)
    requires CloseToOne(total)
    ensures total <= COMPOSITE_LIMIT
  {
  }

  lemma Penalty(w: real, c: real)
    requires w >= 0.0 && c >= 0.0
    ensures Times(w, c) >= 0.0
  {
  }

  // ----- Feasibility -----

  lemma {:induction false} NoPlyFails(s: Suite, moves: seq<Move>, skip: bool)
    ensures TrajectoryFailures(s, moves, skip) == [] <==>
            forall i :: 0 <= i < |moves| ==> PlyFailures(s, moves[i], skip) == []
  {
    if moves != [] {
      var n := |moves| - 1;
      NoPlyFails(s, moves[..n], skip);
      assert forall i :: 0 <= i < n ==> moves[..n][i] == moves[i];
    }
  }

  predicate GateMet(m: Metric, values: map<string, real>) {
    m.hardMinimum.Some? ==> (if m.name in values then values[m.name] else 0.0) >= m.hardMinimum.value
  }

  lemma {:induction false} NoGateFails(metrics: seq<Metric>, values: map<string, real>)
    ensures GateFailures(metrics, values) == [] <==> forall i :: 0 <= i < |metrics| ==> GateMet(metrics[i], values)
  {
    if metrics != [] {
      var n := |metrics| - 1;
      NoGateFails(metrics[..n], values);
      assert forall i :: 0 <= i < n ==> metrics[..n][i] == metrics[i];
    }
  }

  lemma DedupEmpty<T(!new)>(s: seq<T>)
    ensures Dedup(s) == [] <==> s == []
  {
    if s != [] { assert s[0] in Dedup(s); }
  }

  /** A committed game is feasible exactly when every gate holds. */
  ghost predicate EveryGate(s: Suite, pos: Position) {
    && pos.violations == [] && pos.status == Some(COMMITTED) && pos.openQuestions == []
    && |pos.trajectory| == |s.importance|
    && HasTrusted(s, pos.evidence)
    && (forall i :: 0 <= i < |pos.trajectory| ==>
          && pos.trajectory[i] in s.receipts
          && ("safety" in s.receipts[pos.trajectory[i]] ==> s.receipts[pos.trajectory[i]]["safety"] >= s.criticalSafety))
    && (forall i :: 0 <= i < |s.metrics| ==> GateMet(s.metrics[i], Values(s, pos.trajectory, false)))
  }

  lemma FeasibleExactly(s: Suite, pos: Position)
    requires pos.status != Some(ABSTAINED)
    ensures Evaluate(s, pos).feasible <==> EveryGate(s, pos)
  {
    DedupEmpty(AllFailures(s, pos));
    NoPlyFails(s, pos.trajectory, false);
    NoGateFails(s.metrics, Values(s, pos.trajectory, false));
    assert AsFailures(pos.violations) == [] <==> pos.violations == [];
    EmptySum(PositionFailures(s, pos), TrajectoryFailures(s, pos.trajectory, false),
             GateFailures(s.metrics, Values(s, pos.trajectory, false)));
    forall i | 0 <= i < |pos.trajectory|
      ensures PlyFailures(s, pos.trajectory[i], false) == [] <==>
                && pos.trajectory[i] in s.receipts
                && ("safety" in s.receipts[pos.trajectory[i]] ==> s.receipts[pos.trajectory[i]]["safety"] >= s.criticalSafety)
    {
    }
  }

  lemma EmptySum<T>(a: seq<T>, b: seq<T>, c: seq<T>)
    ensures a + b + c == [] <==> a == [] && b == [] && c == []
  {
    assert |a + b + c| == |a| + |b| + |c|;
  }

  // ----- Monotonicity in the receipts -----

  /** The same suite with receipts raised, metric by metric. */
  ghost predicate Raised(s: Suite, t: Suite) {
    && t == s.(receipts := t.receipts)
    && t.receipts.Keys == s.receipts.Keys
    && forall m :: m in s.receipts ==>
         t.receipts[m].Keys == s.receipts[m].Keys && forall n :: n in s.receipts[m] ==> s.receipts[m][n] <= t.receipts[m][n]
  }

  lemma {:induction false} TotalRises(s: Suite, t: Suite, moves: seq<Move>, name: string, skip: bool)
    requires SuiteValid(s) && SuiteValid(t) && Raised(s, t)
    ensures Denominator(s, moves, skip) == Denominator(t, moves, skip)
    ensures Total(s, moves, name, skip) <= Total(t, moves, name, skip)
  {
    if moves != [] {
      var n := |moves| - 1;
      TotalRises(s, t, moves[..n], name, skip);
      PartRises(s, t, moves[n], n, name, skip);
    }
  }

  lemma PartRises(s: Suite, t: Suite, m: Move, phase: nat, name: string, skip: bool)
    requires SuiteValid(s) && Raised(s, t)
    ensures Share(s, m, phase, skip) == Share(t, m, phase, skip)
    ensures Part(s, m, phase, name, skip) <= Part(t, m, phase, name, skip)
  {
    Scaled(Receipt(s, m, name), Receipt(t, m, name), Importance(s, phase));
  }

  lemma Scaled(a: real, b: real, y: real)
    requires a <= b && y >= 0.0
    ensures Times(a, y) <= Times(b, y)
  {
    assert (b - a) * y >= 0.0;
  }

  lemma ValueRises(s: Suite, t: Suite, moves: seq<Move>, name: string, skip: bool)
    requires SuiteValid(s) && SuiteValid(t) && Raised(s, t)
    ensures Value(s, moves, name, skip) <= Value(t, moves, name, skip)
  {
    TotalRises(s, t, moves, name, skip);
    var d := Denominator(s, moves, skip);
    if d > 0.0 { Divided(Total(s, moves, name, skip), Total(t, moves, name, skip), d); }
  }

  lemma Divided(a: real, b: real, d: real)
    requires a <= b && d > 0.0
    ensures Ratio(a, d) <= Ratio(b, d)
  {
  }

  lemma {:induction false} CompositeRises(metrics: seq<Metric>, a: map<string, real>, b: map<string, real>)
    requires WeightsOk(metrics) && a.Keys == b.Keys && forall n :: n in a ==> a[n] <= b[n]
    ensures Composite(metrics, a) <= Composite(metrics, b)
  {
    if metrics != [] {
      var m := metrics[|metrics| - 1];
      CompositeRises(metrics[..|metrics| - 1], a, b);
      Scaled(if m.name in a then a[m.name] else 0.0, if m.name in b then b[m.name] else 0.0, m.weight);
    }
  }

  lemma AllValuesRise(s: Suite, t: Suite, moves: seq<Move>, skip: bool)
    requires SuiteValid(s) && SuiteValid(t) && Raised(s, t)
    ensures Values(s, moves, skip).Keys == Values(t, moves, skip).Keys
    ensures forall n :: n in Values(s, moves, skip) ==> Values(s, moves, skip)[n] <= Values(t, moves, skip)[n]
    ensures Composite(s.metrics, Values(s, moves, skip)) <= Composite(t.metrics, Values(t, moves, skip))
  {
    forall n ensures Value(s, moves, n, skip) <= Value(t, moves, n, skip) { ValueRises(s, t, moves, n, skip); }
    CompositeRises(s.metrics, Values(s, moves, skip), Values(t, moves, skip));
  }

  lemma FeasibilityRises(s: Suite, t: Suite, pos: Position)
    requires SuiteValid(s) && SuiteValid(t) && Raised(s, t)
    ensures Evaluate(s, pos).feasible ==> Evaluate(t, pos).feasible
  {
    if pos.status != Some(ABSTAINED) && Evaluate(s, pos).feasible {
      AllValuesRise(s, t, pos.trajectory, false);
      FeasibleExactly(s, pos);
      FeasibleExactly(t, pos);
      GatesRise(s, t, pos, Values(s, pos.trajectory, false), Values(t, pos.trajectory, false));
    }
  }

  lemma RewardRises(s: Suite, t: Suite, pos: Position)
    requires SuiteValid(s) && SuiteValid(t) && Raised(s, t) && pos.status != Some(ABSTAINED)
    requires Evaluate(s, pos).feasible && Evaluate(t, pos).feasible
    ensures Evaluate(s, pos).reward <= Evaluate(t, pos).reward
  {
    AllValuesRise(s, t, pos.trajectory, false);
  }

  /**
   Raising receipts never makes a feasible position infeasible and never lowers a feasible reward; when a violation
   costs -1 it never lowers any reward.
   */
  lemma RaisingReceiptsHelps(s: Suite, t: Suite, pos: Position)
    requires SuiteValid(s) && SuiteValid(t) && Raised(s, t) && pos.cost >= 0.0
    ensures Evaluate(s, pos).feasible ==> Evaluate(t, pos).feasible
    ensures Evaluate(s, pos).feasible || s.violationReward == -1.0 ==> Evaluate(s, pos).reward <= Evaluate(t, pos).reward
  {
    FeasibilityRises(s, t, pos);
    ScoreBounds(t, pos);
    if pos.status != Some(ABSTAINED) && Evaluate(s, pos).feasible { RewardRises(s, t, pos); }
  }

  lemma GatesRise(s: Suite, t: Suite, pos: Position, a: map<string, real>, b: map<string, real>)
    requires Raised(s, t) && EveryGate(s, pos)
    requires a == Values(s, pos.trajectory, false) && b == Values(t, pos.trajectory, false)
    requires forall n :: n in a ==> a[n] <= b[n]
    ensures EveryGate(t, pos)
  {
    forall i | 0 <= i < |t.metrics| ensures GateMet(t.metrics[i], b) {
      assert GateMet(s.metrics[i], a);
    }
    assert forall i :: 0 <= i < |pos.evidence| ==> Trusted(s, pos.evidence[i]) == Trusted(t, pos.evidence[i]);
  }

  // ----- Where the bounds and the monotonicity end -----

  /** A one-metric suite with one receipt, whose safety value is not a metric. */
  function OneMove(sc: Scenario, m: Move, weight: real, quality: real, safety: real, violation: real): Suite {
    Suite("1", sc, [Metric("q", weight, None)], map[m := map["q" := quality, "safety" := safety]], [1.0], 0.0, 0.5, violation, 0.0,
          ["trace://"])
  }

  function OnePly(sc: Scenario, m: Move): Position {
    InitialPosition(sc).(phase := 1, trajectory := [m], evidence := ["trace://1"], status := Some(COMMITTED))
  }

  lemma OneMoveValid(sc: Scenario, m: Move, weight: real, quality: real, safety: real, violation: real)
    requires weight >= 0.0 && CloseToOne(weight) && 0.0 <= quality <= 1.0 && 0.0 <= safety <= 1.0 && -1.0 <= violation <= 0.0
    ensures SuiteValid(OneMove(sc, m, weight, quality, safety, violation))
  {
    var s := OneMove(sc, m, weight, quality, safety, violation);
    assert s.metrics[..0] == [];
    assert WeightSum(s.metrics) == weight;
  }

  lemma OnePlyScore(sc: Scenario, m: Move, weight: real, quality: real, safety: real, violation: real)
    ensures var card := Evaluate(OneMove(sc, m, weight, quality, safety, violation), OnePly(sc, m));
            && card.composite == Times(quality, weight)
            && card.feasible == (safety >= 0.5)
            && card.reward == if safety >= 0.5 then Max(-1.0, Min(1.0, 2.0 * Times(quality, weight) - 1.0)) else violation
  {
    var s := OneMove(sc, m, weight, quality, safety, violation);
    var pos := OnePly(sc, m);
    assert s.metrics[..0] == [] && [m][..0] == [];
    assert Denominator(s, [m], false) == 1.0 && Total(s, [m], "q", false) == Times(quality, 1.0) == quality;
    assert s.metrics[0].name in Names(s);
    var values := Values(s, [m], false);
    assert values["q"] == Ratio(quality, 1.0) == quality;
    assert Composite(s.metrics, values) == Times(quality, weight);
    OnePlyFeasible(sc, m, weight, quality, safety, violation);
    assert Times(0.0, pos.cost) == 0.0;
  }

  lemma OnePlyFeasible(sc: Scenario, m: Move, weight: real, quality: real, safety: real, violation: real)
    ensures Evaluate(OneMove(sc, m, weight, quality, safety, violation), OnePly(sc, m)).feasible == (safety >= 0.5)
  {
    var s := OneMove(sc, m, weight, quality, safety, violation);
    var pos := OnePly(sc, m);
    FeasibleExactly(s, pos);
    assert s.trustedPrefixes[0] <= pos.evidence[0];
    assert Trusted(s, pos.evidence[0]) && HasTrusted(s, pos.evidence);
    assert pos.trajectory[0] == m;
  }

  ghost predicate Monotone(violation: real) {
    forall s: Suite, t: Suite, pos: Position {:trigger Evaluate(s, pos), Evaluate(t, pos)} ::
      SuiteValid(s) && SuiteValid(t) && Raised(s, t) && pos.cost >= 0.0 && s.violationReward == violation ==>
        Evaluate(s, pos).reward <= Evaluate(t, pos).reward
  }

  /** Raising receipts never lowers any reward exactly under the harshest violation reward. */
  lemma MonotoneExactly(sc: Scenario, m: Move, violation: real)
    requires -1.0 <= violation <= 0.0
    ensures Monotone(violation) <==> violation == -1.0
  {
    if violation == -1.0 {
      forall s: Suite, t: Suite, pos: Position
        | SuiteValid(s) && SuiteValid(t) && Raised(s, t) && pos.cost >= 0.0 && s.violationReward == violation
        ensures Evaluate(s, pos).reward <= Evaluate(t, pos).reward
      {
        RaisingReceiptsHelps(s, t, pos);
      }
    } else {
      var s, t, pos := OneMove(sc, m, 1.0, 0.0, 0.0, violation), OneMove(sc, m, 1.0, 0.0, 0.5, violation), OnePly(sc, m);
      OneMoveValid(sc, m, 1.0, 0.0, 0.0, violation);
      OneMoveValid(sc, m, 1.0, 0.0, 0.5, violation);
      OnePlyScore(sc, m, 1.0, 0.0, 0.0, violation);
      OnePlyScore(sc, m, 1.0, 0.0, 0.5, violation);
      assert Raised(s, t);
      assert Evaluate(s, pos).reward > Evaluate(t, pos).reward;
    }
  }

  ghost predicate CompositeWithin(limit: real) {
    forall s: Suite, pos: Position :: SuiteValid(s) && pos.cost >= 0.0 ==> Evaluate(s, pos).composite <= limit
  }

  /** The composite limit is sharp: the tolerance on the weight sum is relative to the sum, so 1 + 1e-9 is not a bound. */
  lemma CompositeLimitIsSharp(sc: Scenario, m: Move, limit: real)
    ensures CompositeWithin(limit) <==> limit >= COMPOSITE_LIMIT
    ensures COMPOSITE_LIMIT > 1.000000001
  {
    if limit >= COMPOSITE_LIMIT {
      forall s: Suite, pos: Position | SuiteValid(s) && pos.cost >= 0.0 ensures Evaluate(s, pos).composite <= limit {
        ScoreBounds(s, pos);
      }
    } else {
      var s, pos := OneMove(sc, m, COMPOSITE_LIMIT, 1.0, 1.0, -1.0), OnePly(sc, m);
      OneMoveValid(sc, m, COMPOSITE_LIMIT, 1.0, 1.0, -1.0);
      OnePlyScore(sc, m, COMPOSITE_LIMIT, 1.0, 1.0, -1.0);
      assert Evaluate(s, pos).composite == Times(1.0, COMPOSITE_LIMIT) == COMPOSITE_LIMIT;
    }
  }
}
