/** Exactly which results are learned, and what learning one teaches. */
module LearnerLaws {
  import opened Wrappers
  import opened Scenario
  import opened Scorer
  import opened PolicyModel
  import opened ModelLearning
  import opened Search
  import opened Learner
  import opened LearnerAgreement

  // ----- What is learned -----

  /** The result names this scenario, this suite and this model, and its receipt digests every part of it. */
  ghost predicate Stamped(sc: Scenario, suite: Suite, n: Numerics, o: Overlay, r: SearchResult) {
    && suite.manifest == sc && r.manifest == sc && r.scenarioVersion == sc.version && r.profile == suite
    && r.modelVersion == n.version(o)
    && r.receipt == Experience(sc, suite, n.version(o), r.trajectory, StateHash(r.finalPosition), r.score, r.targets, r.abstained)
  }

  /** The game ended in this position with this score, as a commitment or an abstention. */
  ghost predicate EndsIn(suite: Suite, r: SearchResult, pos: Position) {
    && StateHash(r.finalPosition) == StateHash(pos) && r.score == Evaluate(suite, pos)
    && ((pos.status == Some(COMMITTED) && !r.abstained) || (pos.status == Some(ABSTAINED) && r.abstained))
  }

  /** The target belongs to the position before move `j`: its digest, its legal moves, and a distribution over them. */
  ghost predicate Teaches(sc: Scenario, benched: set<string>, moves: seq<Move>, t: TargetReceipt, j: nat) {
    && j < |moves| && Replay(sc, moves[..j], benched).Ok?
    && var pos := Replay(sc, moves[..j], benched).value;
       && StateHash(t.position) == StateHash(pos) && t.candidates == Candidates(sc, pos, benched)
       && TargetFits(t.candidates, t.target)
  }

  ghost predicate OnPath(sc: Scenario, benched: set<string>, moves: seq<Move>, t: TargetReceipt) {
    exists j: nat :: Teaches(sc, benched, moves, t, j)
  }

  ghost predicate Distinct(targets: seq<TargetReceipt>) {
    forall j, k :: 0 <= j < k < |targets| ==> StateHash(targets[j].position) != StateHash(targets[k].position)
  }

  ghost predicate AllTeach(sc: Scenario, benched: set<string>, r: SearchResult) {
    && Distinct(r.targets)
    && forall k :: 0 <= k < |r.targets| ==> OnPath(sc, benched, r.trajectory, r.targets[k])
  }

  ghost predicate Learnable(sc: Scenario, suite: Suite, n: Numerics, o: Overlay, r: SearchResult) {
    && Stamped(sc, suite, n, o, r)
    && if |r.trajectory| == 1 && r.trajectory[0].id == SYSTEM_ABSTAIN then
         EndsIn(suite, r, SafeAbstain(sc, ABSTAIN_TEXT)) && r.targets == []
       else
         && Replay(sc, r.trajectory, Benched(o)).Ok? && EndsIn(suite, r, Replay(sc, r.trajectory, Benched(o)).value)
         && AllTeach(sc, Benched(o), r)
  }

  lemma {:induction false} IndexIs(states: seq<Position>, d: StateDigest)
    ensures d in Index(states) ==> exists j :: 0 <= j < |states| && StateHash(states[j]) == d && Index(states)[d] == states[j]
  {
    if states != [] {
      var init := states[..|states| - 1];
      IndexIs(init, d);
      if d in Index(states) {
        if StateHash(states[|states| - 1]) != d {
          var j :| 0 <= j < |init| && StateHash(init[j]) == d && Index(init)[d] == init[j];
          assert states[j] == init[j];
        }
      }
    }
  }

  /** The states of a replay, and the lengths of their games. */
  lemma ReplayedStates(sc: Scenario, moves: seq<Move>, benched: set<string>, j: nat)
    requires Valid(sc) && j < |moves| && Replay(sc, moves, benched).Ok?
    ensures Replay(sc, moves[..j], benched).Ok?
    ensures StateBefore(sc, moves, benched, j) == Replay(sc, moves[..j], benched).value
    ensures |StateBefore(sc, moves, benched, j).trajectory| == j
    ensures moves[j] in Candidates(sc, StateBefore(sc, moves, benched, j), benched)
  {
    if Replay(sc, moves[..j], benched).Err? { PrefixReplays(sc, moves, benched, j); }
    ReachedIsRecomputed(sc, moves[..j], benched);
    ReplayNext(sc, moves, benched, j, Replay(sc, moves[..j], benched).value);
  }

  /** One target passes the learner's test and can be learned exactly when it belongs to some position of the path. */
  lemma TargetPasses(sc: Scenario, benched: set<string>, moves: seq<Move>, t: TargetReceipt)
    requires Valid(sc) && Replay(sc, moves, benched).Ok?
    ensures var index := Index(StatesBefore(sc, moves, benched, |moves|));
            TargetReplays(sc, benched, index, t) && TargetFits(t.candidates, t.target)
            <==> OnPath(sc, benched, moves, t)
  {
    var states := StatesBefore(sc, moves, benched, |moves|);
    forall j | 0 <= j < |states| ensures |states[j].trajectory| == j { ReplayedStates(sc, moves, benched, j); }
    IndexIs(states, StateHash(t.position));
    if TargetReplays(sc, benched, Index(states), t) && TargetFits(t.candidates, t.target) {
      var j :| 0 <= j < |states| && StateHash(states[j]) == StateHash(t.position) && Index(states)[StateHash(t.position)] == states[j];
      ReplayedStates(sc, moves, benched, j);
      assert Teaches(sc, benched, moves, t, j);
    }
    if j: nat :| Teaches(sc, benched, moves, t, j) {
      ReplayedStates(sc, moves, benched, j);
      IndexHolds(states, j);
    }
  }

  /** The candidates of a position on the path are never empty, so each target must be a distribution over them. */
  lemma CandidatesOnPath(sc: Scenario, benched: set<string>, moves: seq<Move>, t: TargetReceipt)
    requires Valid(sc) && Replay(sc, moves, benched).Ok?
    requires TargetReplays(sc, benched, Index(StatesBefore(sc, moves, benched, |moves|)), t)
    ensures t.candidates != []
  {
    CandidatesAt(sc, benched, moves, t, StatesBefore(sc, moves, benched, |moves|));
  }

  lemma CandidatesAt(sc: Scenario, benched: set<string>, moves: seq<Move>, t: TargetReceipt, states: seq<Position>)
    requires Valid(sc) && Replay(sc, moves, benched).Ok? && |states| == |moves|
    requires forall j :: 0 <= j < |states| ==> states[j] == StateBefore(sc, moves, benched, j)
    requires TargetReplays(sc, benched, Index(states), t)
    ensures t.candidates != []
  {
    IndexIs(states, StateHash(t.position));
    var j :| 0 <= j < |states| && StateHash(states[j]) == StateHash(t.position) && Index(states)[StateHash(t.position)] == states[j];
    NonemptyAt(sc, benched, moves, t.candidates, j);
  }

  lemma NonemptyAt(sc: Scenario, benched: set<string>, moves: seq<Move>, candidates: seq<Move>, j: nat)
    requires Valid(sc) && Replay(sc, moves, benched).Ok? && j < |moves|
    requires candidates == Candidates(sc, StateBefore(sc, moves, benched, j), benched)
    ensures candidates != []
  {
    ReplayedStates(sc, moves, benched, j);
  }

  /** Teaching raises exactly when some lesson has moves and no distribution over them. */
  lemma {:induction false} TeachableExactly(n: Numerics, o: Overlay, lessons: seq<Lesson>, reward: real)
    requires Within(reward, 1.0) && forall k :: 0 <= k < |lessons| ==> lessons[k].legal != []
    ensures TaughtAll(n, o, lessons, false, reward).Ok? <==>
              forall k :: 0 <= k < |lessons| ==> TargetFits(lessons[k].legal, lessons[k].target)
  {
    if lessons != [] {
      var init := lessons[..|lessons| - 1];
      assert forall k :: 0 <= k < |init| ==> init[k] == lessons[k];
      TeachableExactly(n, o, init, reward);
      assert lessons == init + [lessons[|lessons| - 1]];
      if TaughtAll(n, o, init, false, reward).Ok? {
        OneTaught(n, TaughtAll(n, o, init, false, reward).value, lessons[|lessons| - 1], reward);
      }
    }
  }

  lemma OneTaught(n: Numerics, o: Overlay, l: Lesson, reward: real)
    requires Within(reward, 1.0) && l.legal != []
    ensures Taught(n, o, l, false, reward).Ok? <==> TargetFits(l.legal, l.target)
  {
  }

  lemma RewardFits(sc: Scenario, suite: Suite, benched: set<string>, r: SearchResult, pos: Position)
    requires Valid(sc) && SuiteValid(suite)
    requires pos == SafeAbstain(sc, ABSTAIN_TEXT) || Replay(sc, r.trajectory, benched) == Ok(pos)
    ensures Within(Evaluate(suite, pos).reward, 1.0)
  {
    if pos != SafeAbstain(sc, ABSTAIN_TEXT) { ReplayShaped(sc, r.trajectory, benched); }
    ScoreBounds(suite, pos);
  }

  lemma AbstentionLearned(sc: Scenario, suite: Suite, n: Numerics, o: Overlay, r: SearchResult)
    requires Valid(sc) && SuiteValid(suite) && SystemAbstained(r)
    ensures Learned(sc, suite, n, o, r).Ok? <==> Learnable(sc, suite, n, o, r)
  {
    RewardFits(sc, suite, Benched(o), r, SafeAbstain(sc, ABSTAIN_TEXT));
    assert Index([]) == map[];
    if r.targets != [] { assert !TargetsReplay(sc, Benched(o), map[], r.targets) by { assert !TargetReplays(sc, Benched(o), map[], r.targets[0]); } }
  }

  /** All targets pass and can be learned exactly when each belongs to a position of the path. */
  lemma TargetsPass(sc: Scenario, benched: set<string>, n: Numerics, o: Overlay, r: SearchResult)
    requires Valid(sc) && Replay(sc, r.trajectory, benched).Ok? && Within(r.score.reward, 1.0)
    ensures var index := Index(StatesBefore(sc, r.trajectory, benched, |r.trajectory|));
            TargetsReplay(sc, benched, index, r.targets) && TaughtAll(n, o, Lessons(index, r.targets), false, r.score.reward).Ok?
            <==> AllTeach(sc, benched, r)
  {
    TargetsPassAt(sc, benched, n, o, r, Index(StatesBefore(sc, r.trajectory, benched, |r.trajectory|)));
  }

  lemma TargetsPassAt(sc: Scenario, benched: set<string>, n: Numerics, o: Overlay, r: SearchResult, index: map<StateDigest, Position>)
    requires Valid(sc) && Replay(sc, r.trajectory, benched).Ok? && Within(r.score.reward, 1.0)
    requires index == Index(StatesBefore(sc, r.trajectory, benched, |r.trajectory|))
    ensures TargetsReplay(sc, benched, index, r.targets) && TaughtAll(n, o, Lessons(index, r.targets), false, r.score.reward).Ok?
            <==> AllTeach(sc, benched, r)
  {
    forall k | 0 <= k < |r.targets|
      ensures TargetReplays(sc, benched, index, r.targets[k]) && TargetFits(r.targets[k].candidates, r.targets[k].target)
              <==> OnPath(sc, benched, r.trajectory, r.targets[k])
    { TargetPasses(sc, benched, r.trajectory, r.targets[k]); }
    if TargetsReplay(sc, benched, index, r.targets) {
      PathLessonsTeach(sc, benched, n, o, r, index);
    } else if Distinct(r.targets) {
      var k :| 0 <= k < |r.targets| && !TargetReplays(sc, benched, index, r.targets[k]);
      assert !OnPath(sc, benched, r.trajectory, r.targets[k]);
    }
  }

  lemma PathLessonsTeach(sc: Scenario, benched: set<string>, n: Numerics, o: Overlay, r: SearchResult, index: map<StateDigest, Position>)
    requires Valid(sc) && Replay(sc, r.trajectory, benched).Ok? && Within(r.score.reward, 1.0)
    requires index == Index(StatesBefore(sc, r.trajectory, benched, |r.trajectory|)) && TargetsReplay(sc, benched, index, r.targets)
    ensures TaughtAll(n, o, Lessons(index, r.targets), false, r.score.reward).Ok? <==>
              forall k :: 0 <= k < |r.targets| ==> TargetFits(r.targets[k].candidates, r.targets[k].target)
  {
    forall k | 0 <= k < |r.targets| ensures r.targets[k].candidates != [] { CandidatesOnPath(sc, benched, r.trajectory, r.targets[k]); }
    LessonsTeach(sc, benched, n, o, index, r.targets, r.score.reward);
  }

  lemma LessonsTeach(sc: Scenario, benched: set<string>, n: Numerics, o: Overlay, index: map<StateDigest, Position>,
                     targets: seq<TargetReceipt>, reward: real)
    requires TargetsReplay(sc, benched, index, targets) && Within(reward, 1.0)
    requires forall k :: 0 <= k < |targets| ==> targets[k].candidates != []
    ensures TaughtAll(n, o, Lessons(index, targets), false, reward).Ok? <==>
              forall k :: 0 <= k < |targets| ==> TargetFits(targets[k].candidates, targets[k].target)
  {
    var lessons := Lessons(index, targets);
    assert forall k :: 0 <= k < |lessons| ==> lessons[k].legal == targets[k].candidates && lessons[k].target == targets[k].target;
    TeachableExactly(n, o, lessons, reward);
  }

  lemma PlayedLearned(sc: Scenario, suite: Suite, n: Numerics, o: Overlay, r: SearchResult, replayed: Position)
    requires !SystemAbstained(r) && StampMatches(sc, suite, n.version(o), r) && Within(r.score.reward, 1.0)
    requires Replay(sc, r.trajectory, Benched(o)) == Ok(replayed) && OutcomeMatches(suite, replayed, r)
    ensures var index := Index(StatesBefore(sc, r.trajectory, Benched(o), |r.trajectory|));
            Learned(sc, suite, n, o, r).Ok? <==>
              TargetsReplay(sc, Benched(o), index, r.targets) && TaughtAll(n, o, Lessons(index, r.targets), false, r.score.reward).Ok?
  {
  }

  lemma UnmatchedIsRefused(sc: Scenario, suite: Suite, n: Numerics, o: Overlay, r: SearchResult)
    requires !SystemAbstained(r)
    requires !StampMatches(sc, suite, n.version(o), r) || Replay(sc, r.trajectory, Benched(o)).Err?
             || !OutcomeMatches(suite, Replay(sc, r.trajectory, Benched(o)).value, r)
    ensures Learned(sc, suite, n, o, r).Err?
  {
  }

  /** The learner's two comparisons, in the words used here. */
  lemma StampsAgree(sc: Scenario, suite: Suite, n: Numerics, o: Overlay, r: SearchResult)
    ensures StampMatches(sc, suite, n.version(o), r) <==> Stamped(sc, suite, n, o, r)
  {
  }

  lemma OutcomesAgree(suite: Suite, pos: Position, r: SearchResult)
    ensures OutcomeMatches(suite, pos, r) <==> EndsIn(suite, r, pos)
  {
  }

  /**
   A result is learned if and only if it carries this scenario, this suite and the version of the current model, its
   receipt digests it, its final state and score are those of its replayed game, which ended, and its targets are
   distinct positions of that game, each with its legal moves and a distribution over them.
   */
  lemma LearnedExactly(sc: Scenario, suite: Suite, n: Numerics, o: Overlay, r: SearchResult)
    requires Valid(sc) && SuiteValid(suite)
    ensures Learned(sc, suite, n, o, r).Ok? <==> Learnable(sc, suite, n, o, r)
  {
    var replay := Replay(sc, r.trajectory, Benched(o));
    StampsAgree(sc, suite, n, o, r);
    if replay.Ok? { OutcomesAgree(suite, replay.value, r); }
    if SystemAbstained(r) {
      AbstentionLearned(sc, suite, n, o, r);
    } else if StampMatches(sc, suite, n.version(o), r) && replay.Ok? && OutcomeMatches(suite, replay.value, r) {
      RewardFits(sc, suite, Benched(o), r, replay.value);
      PlayedLearned(sc, suite, n, o, r, replay.value);
      TargetsPass(sc, Benched(o), n, o, r);
    } else {
      UnmatchedIsRefused(sc, suite, n, o, r);
    }
  }

  /** A model version names its generation, as the text of the original does. */
  ghost predicate VersionsNameGenerations(n: Numerics) {
    forall a, b :: n.version(a) == n.version(b) ==> a.generation == b.generation
  }

  /** A result is learned once: the model it published refuses it, and so does every later one. */
  lemma ResultsAreLearnedOnce(sc: Scenario, suite: Suite, n: Numerics, o: Overlay, r: SearchResult, later: Overlay)
    requires VersionsNameGenerations(n) && Valid(sc) && SuiteValid(suite) && OverlayValid(o) && Learned(sc, suite, n, o, r).Ok?
    requires later.generation >= Learned(sc, suite, n, o, r).value.generation
    ensures Learned(sc, suite, n, later, r).Err?
  {
    LearnedExactly(sc, suite, n, o, r);
    LearnedExactly(sc, suite, n, later, r);
    LearnedPublishes(sc, suite, n, o, r);
    assert n.version(o) == n.version(later) ==> o.generation == later.generation;
  }

  /** A receipt stands for one experience: results learned under the same receipt agree in everything that is learned from. */
  lemma ReceiptsPinResults(sc: Scenario, suite: Suite, n: Numerics, o: Overlay, r: SearchResult, q: SearchResult)
    requires Valid(sc) && SuiteValid(suite) && Learned(sc, suite, n, o, r).Ok? && Learned(sc, suite, n, o, q).Ok?
    requires r.receipt == q.receipt
    ensures r.trajectory == q.trajectory && r.score == q.score && r.targets == q.targets && r.abstained == q.abstained
    ensures Learned(sc, suite, n, o, r) == Learned(sc, suite, n, o, q)
  {
    LearnedExactly(sc, suite, n, o, r);
    LearnedExactly(sc, suite, n, o, q);
  }

  // ----- What it teaches -----

  /** The models between the lessons: each lesson is a policy step at 0.18, then a value step towards the reward at 0.12. */
  ghost predicate Curriculum(n: Numerics, models: seq<Overlay>, lessons: seq<Lesson>, system: bool, reward: real) {
    && |models| == |lessons| + 1
    && forall k {:trigger lessons[k]} :: 0 <= k < |lessons| ==> Lectured(n, models[k], models[k + 1], lessons[k], system, reward)
  }

  ghost predicate Lectured(n: Numerics, before: Overlay, after: Overlay, l: Lesson, system: bool, reward: real) {
    exists mid ::
      && (if system then mid == before else LearnedPolicy(n, before, l.legal, l.target, 0.18) == Ok(mid))
      && LearnedValueStep(n, mid, l.position, reward, 0.12) == Ok(after)
  }

  lemma {:induction false} TaughtIsCurriculum(n: Numerics, o: Overlay, lessons: seq<Lesson>, system: bool, reward: real)
    returns (models: seq<Overlay>)
    requires TaughtAll(n, o, lessons, system, reward).Ok?
    ensures Curriculum(n, models, lessons, system, reward)
    ensures models[0] == o && models[|lessons|] == TaughtAll(n, o, lessons, system, reward).value
  {
    if lessons == [] {
      models := [o];
    } else {
      var init, last := lessons[..|lessons| - 1], lessons[|lessons| - 1];
      var before := TaughtIsCurriculum(n, o, init, system, reward);
      models := before + [TaughtAll(n, o, lessons, system, reward).value];
      OneLecture(n, before[|init|], last, system, reward);
      CurriculumGrows(n, before, init, last, models[|lessons|], system, reward);
      assert init + [last] == lessons;
    }
  }

  lemma CurriculumGrows(n: Numerics, models: seq<Overlay>, lessons: seq<Lesson>, last: Lesson, next: Overlay, system: bool, reward: real)
    requires Curriculum(n, models, lessons, system, reward) && Lectured(n, models[|lessons|], next, last, system, reward)
    ensures Curriculum(n, models + [next], lessons + [last], system, reward)
  {
    var all, more := lessons + [last], models + [next];
    forall k | 0 <= k < |all| ensures Lectured(n, more[k], more[k + 1], all[k], system, reward) {
      if k < |lessons| { assert all[k] == lessons[k]; }
    }
  }

  lemma OneLecture(n: Numerics, o: Overlay, l: Lesson, system: bool, reward: real)
    requires Taught(n, o, l, system, reward).Ok?
    ensures Lectured(n, o, Taught(n, o, l, system, reward).value, l, system, reward)
  {
    var mid := if system then o else LearnedPolicy(n, o, l.legal, l.target, 0.18).value;
    assert LearnedValueStep(n, mid, l.position, reward, 0.12) == Ok(Taught(n, o, l, system, reward).value);
  }

  /**
   A learned result is taught target by target, in order, from the current model: each target is a policy step at rate
   0.18 over its legal moves and then a value step at rate 0.12 on its own position towards the reward of the game. A
   result without targets is one value step on the initial position. The last model, with the next generation number, is
   what is published. The system abstention has no targets, so it leaves the policy weights alone.
   */
  lemma LearnedIsTaughtInOrder(sc: Scenario, suite: Suite, n: Numerics, o: Overlay, r: SearchResult)
    returns (models: seq<Overlay>, lessons: seq<Lesson>)
    requires Valid(sc) && SuiteValid(suite) && Learned(sc, suite, n, o, r).Ok?
    ensures |lessons| == |r.targets|
    ensures forall k :: 0 <= k < |lessons| ==>
              && StateHash(lessons[k].position) == StateHash(r.targets[k].position)
              && lessons[k].legal == r.targets[k].candidates && lessons[k].target == r.targets[k].target
    ensures Curriculum(n, models, lessons, SystemAbstained(r), r.score.reward) && models[0] == o
    ensures var p := Learned(sc, suite, n, o, r).value;
            if r.targets == []
            then LearnedValueStep(n, o, InitialPosition(sc), r.score.reward, 0.12) == Ok(p.(generation := o.generation))
                 && p.policyWeights == o.policyWeights && p.generation == o.generation + 1
            else p == models[|lessons|].(generation := models[|lessons|].generation + 1)
    ensures SystemAbstained(r) ==> r.targets == []
  {
    LearnedExactly(sc, suite, n, o, r);
    var checked := Checked(sc, suite, n.version(o), Benched(o), r).value;
    lessons := checked.0;
    LessonsOf(sc, suite, n, o, r);
    models := TaughtIsCurriculum(n, o, lessons, SystemAbstained(r), r.score.reward);
  }

  /** The lessons are the targets, each at the position of the path that has its digest. */
  lemma LessonsOf(sc: Scenario, suite: Suite, n: Numerics, o: Overlay, r: SearchResult)
    requires Checked(sc, suite, n.version(o), Benched(o), r).Ok?
    ensures var checked := Checked(sc, suite, n.version(o), Benched(o), r).value;
            && |checked.0| == |r.targets| && checked.1 == r.score.reward
            && forall k :: 0 <= k < |r.targets| ==>
                 && StateHash(checked.0[k].position) == StateHash(r.targets[k].position)
                 && checked.0[k].legal == r.targets[k].candidates && checked.0[k].target == r.targets[k].target
  {
    var states := SelectedStates(sc, Benched(o), r);
    forall k | 0 <= k < |r.targets| ensures StateHash(Index(states)[StateHash(r.targets[k].position)]) == StateHash(r.targets[k].position) {
      assert TargetReplays(sc, Benched(o), Index(states), r.targets[k]);
      IndexIs(states, StateHash(r.targets[k].position));
    }
  }
}
