/** Learning from a search result: replay every check on it, then publish one new generation. */
module Learner {
  import opened Wrappers
  import opened Scenario
  import opened Scorer
  import opened PolicyModel
  import opened ModelLearning
  import opened Search

  const POLICY_RATE: real := 0.18
  const VALUE_RATE: real := 0.12

  // ----- The checks -----

  /** The result was produced from this scenario, suite and model, and its receipt covers it. */
  predicate StampMatches(sc: Scenario, suite: Suite, version: string, r: SearchResult) {
    && r.scenarioVersion == sc.version && r.manifest == sc && suite.manifest == sc && r.profile == suite
    && r.modelVersion == version && r.receipt == ExperienceOf(r)
  }

  predicate SystemAbstained(r: SearchResult) { |r.trajectory| == 1 && r.trajectory[0].id == SYSTEM_ABSTAIN }

  function ReplayOf(sc: Scenario, benched: set<string>, r: SearchResult): Result<Position> {
    if SystemAbstained(r) then Ok(SafeAbstain(sc, ABSTAIN_TEXT)) else Replay(sc, r.trajectory, benched)
  }

  /** The replayed game has the recorded state and full score card, and ended as recorded. */
  predicate OutcomeMatches(suite: Suite, replayed: Position, r: SearchResult) {
    && StateHash(replayed) == StateHash(r.finalPosition)
    && Evaluate(suite, replayed) == r.score
    && r.abstained == (replayed.status == Some(ABSTAINED))
    && (r.abstained || replayed.status == Some(COMMITTED))
  }

  /** The positions the replay passes through, by digest. */
  function Index(states: seq<Position>): map<StateDigest, Position> {
    if states == [] then map[]
    else Index(states[..|states| - 1])[StateHash(states[|states| - 1]) := states[|states| - 1]]
  }

  function StateBefore(sc: Scenario, moves: seq<Move>, benched: set<string>, k: nat): Position
    requires k <= |moves|
  {
    var p := Replay(sc, moves[..k], benched);
    if p.Ok? then p.value else InitialPosition(sc)
  }

  function StatesBefore(sc: Scenario, moves: seq<Move>, benched: set<string>, count: nat): seq<Position>
    requires count <= |moves|
  {
    seq(count, k requires 0 <= k < count => StateBefore(sc, moves, benched, k))
  }

  function SelectedStates(sc: Scenario, benched: set<string>, r: SearchResult): seq<Position> {
    if SystemAbstained(r) then [] else StatesBefore(sc, r.trajectory, benched, |r.trajectory|)
  }

  /** A target on the selected path whose candidates replay. */
  predicate TargetReplays(sc: Scenario, benched: set<string>, index: map<StateDigest, Position>, t: TargetReceipt) {
    && StateHash(t.position) in index
    && Candidates(sc, index[StateHash(t.position)], benched) == t.candidates
  }

  predicate TargetsReplay(sc: Scenario, benched: set<string>, index: map<StateDigest, Position>, targets: seq<TargetReceipt>) {
    && (forall j, k :: 0 <= j < k < |targets| ==> StateHash(targets[j].position) != StateHash(targets[k].position))
    && forall k :: 0 <= k < |targets| ==> TargetReplays(sc, benched, index, targets[k])
  }

  // ----- The update -----

  /** One validated target: the canonical position, its legal moves, and the shares to learn. */
  datatype Lesson = Lesson(position: Position, legal: seq<Move>, target: map<string, real>)

  function Lessons(index: map<StateDigest, Position>, targets: seq<TargetReceipt>): seq<Lesson>
    requires forall k :: 0 <= k < |targets| ==> StateHash(targets[k].position) in index
  {
    seq(|targets|, k requires 0 <= k < |targets| =>
      Lesson(index[StateHash(targets[k].position)], targets[k].candidates, targets[k].target))
  }

  /** One lesson, at the given prediction rates. */
  function Taught(n: Numerics, o: Overlay, l: Lesson, system: bool, reward: real): Result<Overlay> {
    var p :- if system then Ok(o) else LearnedPolicy(n, o, l.legal, l.target, POLICY_RATE);
    LearnedValueStep(n, p, l.position, reward, VALUE_RATE)
  }

  function TaughtAll(n: Numerics, o: Overlay, lessons: seq<Lesson>, system: bool, reward: real): Result<Overlay> {
    if lessons == [] then Ok(o)
    else
      var p :- TaughtAll(n, o, lessons[..|lessons| - 1], system, reward);
      Taught(n, p, lessons[|lessons| - 1], system, reward)
  }

  /** The challenger a set of lessons makes. */
  function Challenger(n: Numerics, o: Overlay, start: Position, lessons: seq<Lesson>, system: bool, reward: real): Result<Overlay> {
    var c :- TaughtAll(n, o, lessons, system, reward);
    var d :- if lessons == [] then LearnedValueStep(n, c, start, reward, VALUE_RATE) else Ok(c);
    Ok(d.(generation := d.generation + 1))
  }

  /** Every check on a result: the lessons and the reward to learn from, if all pass. */
  function Checked(sc: Scenario, suite: Suite, version: string, benched: set<string>, r: SearchResult): Result<(seq<Lesson>, real)> {
    if !StampMatches(sc, suite, version, r) then Err(Invalid)
    else
      var replayed :- ReplayOf(sc, benched, r);
      var index := Index(SelectedStates(sc, benched, r));
      if !OutcomeMatches(suite, replayed, r) || !TargetsReplay(sc, benched, index, r.targets) then Err(Invalid)
      else Ok((Lessons(index, r.targets), r.score.reward))
  }

  /** `learn_from_result`: the model it publishes, if every check passes. */
  function Learned(sc: Scenario, suite: Suite, n: Numerics, o: Overlay, r: SearchResult): Result<Overlay> {
    var checked :- Checked(sc, suite, n.version(o), Benched(o), r);
    Challenger(n, o, InitialPosition(sc), checked.0, SystemAbstained(r), checked.1)
  }

  // ----- What learning publishes -----

  /** A learning step from `o` to `p` that made `updates` value updates. */
  ghost predicate Trained(o: Overlay, p: Overlay, updates: nat) {
    && OverlayValid(p)
    && p == o.(policyWeights := p.policyWeights, valueWeights := p.valueWeights, valueBias := p.valueBias,
               valueUpdates := o.valueUpdates + updates)
  }

  lemma TaughtTrains(n: Numerics, o: Overlay, l: Lesson, system: bool, reward: real)
    requires OverlayValid(o) && Taught(n, o, l, system, reward).Ok?
    ensures Trained(o, Taught(n, o, l, system, reward).value, 1)
  {
    var p := if system then o else LearnedPolicy(n, o, l.legal, l.target, POLICY_RATE).value;
    if !system { PolicyKeepsValid(n, o, l.legal, l.target, POLICY_RATE); }
    ValueKeepsValid(n, p, l.position, reward, VALUE_RATE);
  }

  lemma {:induction false} AllTrain(n: Numerics, o: Overlay, lessons: seq<Lesson>, system: bool, reward: real)
    requires OverlayValid(o) && TaughtAll(n, o, lessons, system, reward).Ok?
    ensures Trained(o, TaughtAll(n, o, lessons, system, reward).value, |lessons|)
  {
    if lessons != [] {
      var init := lessons[..|lessons| - 1];
      AllTrain(n, o, init, system, reward);
      TaughtTrains(n, TaughtAll(n, o, init, system, reward).value, lessons[|lessons| - 1], system, reward);
    }
  }

  function Updates(targets: nat): nat { if targets > 1 then targets else 1 }

  lemma ChallengerTrains(n: Numerics, o: Overlay, start: Position, lessons: seq<Lesson>, system: bool, reward: real)
    requires OverlayValid(o) && Challenger(n, o, start, lessons, system, reward).Ok?
    ensures var p := Challenger(n, o, start, lessons, system, reward).value;
            p.generation == o.generation + 1 && Trained(o, p.(generation := o.generation), Updates(|lessons|))
  {
    AllTrain(n, o, lessons, system, reward);
    var c := TaughtAll(n, o, lessons, system, reward).value;
    if lessons == [] { ValueKeepsValid(n, c, start, reward, VALUE_RATE); }
  }

  /**
   Learning publishes exactly the next generation: weights within their limits, value updates raised by the number of
   targets but at least one, and agents, benched set and limits unchanged.
   */
  lemma LearnedPublishes(sc: Scenario, suite: Suite, n: Numerics, o: Overlay, r: SearchResult)
    requires OverlayValid(o) && Learned(sc, suite, n, o, r).Ok?
    ensures var p := Learned(sc, suite, n, o, r).value;
            && OverlayValid(p) && p.generation == o.generation + 1
            && p.valueUpdates == o.valueUpdates + Updates(|r.targets|)
            && p.agents == o.agents && Benched(p) == Benched(o)
            && p.policyLimit == o.policyLimit && p.valueLimit == o.valueLimit
  {
    var checked := Checked(sc, suite, n.version(o), Benched(o), r).value;
    ChallengerTrains(n, o, InitialPosition(sc), checked.0, SystemAbstained(r), checked.1);
  }

  // ----- The loops of the original -----

  lemma {:induction false} PrefixReplays(sc: Scenario, moves: seq<Move>, benched: set<string>, k: nat)
    requires k <= |moves| && Replay(sc, moves[..k], benched).Err?
    ensures Replay(sc, moves, benched).Err?
    decreases |moves| - k
  {
    if k < |moves| {
      assert moves[..k + 1][..k] == moves[..k];
      PrefixReplays(sc, moves, benched, k + 1);
    } else {
      assert moves[..k] == moves;
    }
  }

  lemma ReplayNext(sc: Scenario, moves: seq<Move>, benched: set<string>, k: nat, pos: Position)
    requires k < |moves| && Replay(sc, moves[..k], benched) == Ok(pos)
    ensures Replay(sc, moves[..k + 1], benched) == Apply(sc, pos, moves[k], benched)
    ensures StatesBefore(sc, moves, benched, k + 1) == StatesBefore(sc, moves, benched, k) + [pos]
    ensures Apply(sc, pos, moves[k], benched).Err? ==> Replay(sc, moves, benched).Err?
  {
    assert moves[..k + 1][..k] == moves[..k];
    if Apply(sc, pos, moves[k], benched).Err? { PrefixReplays(sc, moves, benched, k + 1); }
  }

  /** Replays the trajectory, keeping the position before every move. */
  method ReplaySelected(sc: Scenario, benched: set<string>, moves: seq<Move>) returns (r: Result<Position>, states: seq<Position>)
    ensures r.Ok? <==> Replay(sc, moves, benched).Ok?
    ensures r.Ok? ==> r == Replay(sc, moves, benched) && states == StatesBefore(sc, moves, benched, |moves|)
  {
    var replayed := InitialPosition(sc);
    states := [];
    for k := 0 to |moves|
      invariant Replay(sc, moves[..k], benched) == Ok(replayed)
      invariant states == StatesBefore(sc, moves, benched, k)
    {
      ReplayNext(sc, moves, benched, k, replayed);
      states := states + [replayed];
      var next := Apply(sc, replayed, moves[k], benched);
      if next.Err? { return Err(next.error), states; }
      replayed := next.value;
    }
    assert moves[..|moves|] == moves;
    return Ok(replayed), states;
  }

  method BuildIndex(states: seq<Position>) returns (index: map<StateDigest, Position>)
    ensures index == Index(states)
  {
    index := map[];
    for k := 0 to |states|
      invariant index == Index(states[..k])
    {
      assert states[..k + 1][..k] == states[..k];
      index := index[StateHash(states[k]) := states[k]];
    }
    assert states[..|states|] == states;
  }

  /** Validates the targets one by one against the selected path. */
  method ValidateTargets(sc: Scenario, benched: set<string>, index: map<StateDigest, Position>, targets: seq<TargetReceipt>)
    returns (r: Result<seq<Lesson>>)
    ensures r.Ok? <==> TargetsReplay(sc, benched, index, targets)
    ensures r.Ok? ==> r.value == Lessons(index, targets)
  {
    var seen: set<StateDigest> := {};
    var lessons: seq<Lesson> := [];
    for k := 0 to |targets|
      invariant TargetsReplay(sc, benched, index, targets[..k])
      invariant seen == set t | t in targets[..k] :: StateHash(t.position)
      invariant lessons == Lessons(index, targets[..k])
    {
      var t := targets[k];
      var digest := StateHash(t.position);
      assert targets[..k + 1] == targets[..k] + [t];
      if digest in seen || digest !in index {
        assert digest in seen ==> exists j :: 0 <= j < k && StateHash(targets[j].position) == digest;
        return Err(Invalid);
      }
      assert forall j :: 0 <= j < k ==> targets[..k][j] == targets[j];
      if Candidates(sc, index[digest], benched) != t.candidates { return Err(Invalid); }
      seen := seen + {digest};
      lessons := lessons + [Lesson(index[digest], t.candidates, t.target)];
    }
    assert targets[..|targets|] == targets;
    return Ok(lessons);
  }

  /** Applies the lessons to the challenger. */
  method Teach(n: Numerics, challenger: PolicyValueModel, lessons: seq<Lesson>, system: bool, reward: real) returns (ok: bool)
    modifies challenger
    ensures ok <==> TaughtAll(n, old(challenger.Contents()), lessons, system, reward).Ok?
    ensures ok ==> challenger.Contents() == TaughtAll(n, old(challenger.Contents()), lessons, system, reward).value
  {
    ghost var o := challenger.Contents();
    for k := 0 to |lessons|
      invariant TaughtAll(n, o, lessons[..k], system, reward) == Ok(challenger.Contents())
    {
      assert lessons[..k + 1][..k] == lessons[..k];
      ghost var before := challenger.Contents();
      var fine := TeachOne(n, challenger, lessons[k], system, reward);
      if !fine {
        Unteachable(n, o, lessons, k + 1, system, reward);
        return false;
      }
    }
    assert lessons[..|lessons|] == lessons;
    return true;
  }

  lemma {:induction false} Unteachable(n: Numerics, o: Overlay, lessons: seq<Lesson>, k: nat, system: bool, reward: real)
    requires k <= |lessons| && TaughtAll(n, o, lessons[..k], system, reward).Err?
    ensures TaughtAll(n, o, lessons, system, reward).Err?
    decreases |lessons| - k
  {
    if k < |lessons| {
      assert lessons[..k + 1][..k] == lessons[..k];
      Unteachable(n, o, lessons, k + 1, system, reward);
    } else {
      assert lessons[..k] == lessons;
    }
  }

  method TeachOne(n: Numerics, challenger: PolicyValueModel, l: Lesson, system: bool, reward: real) returns (ok: bool)
    modifies challenger
    ensures ok <==> Taught(n, old(challenger.Contents()), l, system, reward).Ok?
    ensures ok ==> Taught(n, old(challenger.Contents()), l, system, reward) == Ok(challenger.Contents())
  {
    if !system {
      var r := challenger.LearnPolicy(n, l.legal, l.target, POLICY_RATE);
      if r.Err? { return false; }
    }
    var v := challenger.LearnValue(n, l.position, reward, VALUE_RATE);
    return v.Ok?;
  }

  /** The checks in the order of the original. */
  method CheckResult(sc: Scenario, suite: Suite, version: string, benched: set<string>, result: SearchResult)
    returns (r: Result<(seq<Lesson>, real)>)
    requires SuiteValid(suite)
    ensures r.Ok? <==> Checked(sc, suite, version, benched, result).Ok?
    ensures r.Ok? ==> r == Checked(sc, suite, version, benched, result)
  {
    if !StampMatches(sc, suite, version, result) { return Err(Invalid); }
    var replay, states := Ok(SafeAbstain(sc, ABSTAIN_TEXT)), [];
    if !SystemAbstained(result) { replay, states := ReplaySelected(sc, benched, result.trajectory); }
    if replay.Err? || !OutcomeMatches(suite, replay.value, result) { return Err(Invalid); }
    var index := BuildIndex(states);
    var lessons := ValidateTargets(sc, benched, index, result.targets);
    if lessons.Err? { return Err(Invalid); }
    return Ok((lessons.value, result.score.reward));
  }

  /** Learns on a copy and publishes it at the end: an error leaves the model untouched. */
  method LearnFromResult(sc: Scenario, suite: Suite, n: Numerics, model: PolicyValueModel, result: SearchResult) returns (ok: bool)
    requires SuiteValid(suite)
    modifies model
    ensures ok <==> Learned(sc, suite, n, old(model.Contents()), result).Ok?
    ensures ok ==> model.Contents() == Learned(sc, suite, n, old(model.Contents()), result).value
    ensures !ok ==> model.Contents() == old(model.Contents())
  {
    var checked := CheckResult(sc, suite, n.version(model.Contents()), Benched(model.Contents()), result);
    if checked.Err? { return false; }
    ok := Publish(n, model, InitialPosition(sc), checked.value.0, SystemAbstained(result), checked.value.1);
  }

  /** Trains a challenger and publishes it when it succeeds. */
  method Publish(n: Numerics, model: PolicyValueModel, start: Position, lessons: seq<Lesson>, system: bool, reward: real)
    returns (ok: bool)
    modifies model
    ensures ok <==> Challenger(n, old(model.Contents()), start, lessons, system, reward).Ok?
    ensures ok ==> Challenger(n, old(model.Contents()), start, lessons, system, reward) == Ok(model.Contents())
    ensures !ok ==> model.Contents() == old(model.Contents())
  {
    var challenger := new PolicyValueModel(model.Contents());
    ok := Train(n, challenger, start, lessons, system, reward);
    if ok {
      model.policyWeights, model.valueWeights, model.valueBias := challenger.policyWeights, challenger.valueWeights, challenger.valueBias;
      model.valueUpdates, model.generation, model.agents := challenger.valueUpdates, challenger.generation, challenger.agents;
    }
  }

  method Train(n: Numerics, challenger: PolicyValueModel, start: Position, lessons: seq<Lesson>, system: bool, reward: real)
    returns (ok: bool)
    modifies challenger
    ensures ok <==> Challenger(n, old(challenger.Contents()), start, lessons, system, reward).Ok?
    ensures ok ==> Challenger(n, old(challenger.Contents()), start, lessons, system, reward) == Ok(challenger.Contents())
  {
    ok := Teach(n, challenger, lessons, system, reward);
    if !ok { return; }
    if lessons == [] {
      var v := challenger.LearnValue(n, start, reward, VALUE_RATE);
      if v.Err? { return false; }
    }
    challenger.generation := challenger.generation + 1;
  }
}
