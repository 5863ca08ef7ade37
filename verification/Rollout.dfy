/** What a search plays: legal steps, rollouts to a terminal, leaf values, and the order candidates are tried in. */
module Rollout {
  import opened Wrappers
  import opened Scenario
  import opened Scorer
  import opened Order
  import opened PolicyModel

  /** What a search is opened with. */
  datatype Game = Game(sc: Scenario, suite: Suite, model: Overlay, cPuct: real, num: Numerics)

  /** The checks of the parts and of `PUCTSearch.__init__`. */
  ghost predicate GameValid(g: Game) {
    && Valid(g.sc) && SuiteValid(g.suite) && OverlayValid(g.model) && NumericsOk(g.num) && g.cPuct >= 0.0
    && g.suite.manifest == g.sc && |g.suite.importance| == |g.sc.phases|
    && forall p, i :: 0 <= p < |g.sc.phases| && 0 <= i < |g.sc.phases[p]| && !g.sc.phases[p][i].kind.ABSTAIN? ==>
         g.sc.phases[p][i] in g.suite.receipts
  }

  function Legal(g: Game, pos: Position): seq<Move> { Candidates(g.sc, pos, Benched(g.model)) }

  function Step(g: Game, pos: Position, m: Move): Result<Position> { Apply(g.sc, pos, m, Benched(g.model)) }

  ghost predicate ReachedIn(g: Game, pos: Position) { Reached(g.sc, pos, Benched(g.model)) }

  // ----- Rollouts -----

  predicate Predicted(suite: Suite, m: Move) {
    forall i :: 0 <= i < |suite.metrics| ==> suite.metrics[i].name in m.predicted
  }

  function Quality(suite: Suite, m: Move): real {
    Max(0.0, Min(1.0, Composite(suite.metrics, m.predicted) - Times(suite.costWeight, m.cost)))
  }

  /** The rollout preference of a legal move. */
  function Preference(g: Game, legal: seq<Move>, m: Move): Rank
    requires legal != []
  {
    Rank(Times(0.78, Quality(g.suite, m)) + Times(0.22, Prior(g.num, g.model, legal, m)), m.id)
  }

  function Preferences(g: Game, legal: seq<Move>): seq<Rank>
    requires legal != []
  {
    seq(|legal|, i requires 0 <= i < |legal| => Preference(g, legal, legal[i]))
  }

  /** The completion of a position by preferred moves; a missing prediction or a refused move raises. */
  function Greedy(g: Game, pos: Position): Result<Position>
    decreases |g.sc.phases| - pos.phase
  {
    var legal := Legal(g, pos);
    if pos.Terminal() || legal == [] then Ok(pos)
    else if exists m :: m in legal && !Predicted(g.suite, m) then Err(Invalid)
    else
      var next :- Step(g, pos, legal[Top(Preferences(g, legal))]);
      Greedy(g, next)
  }

  /** The value of a new leaf. */
  function LeafValue(g: Game, pos: Position): Result<real> {
    var done :- Greedy(g, pos);
    if !done.Terminal() then Ok(g.suite.violationReward)
    else Ok(Blend(g.num, g.model, pos, Evaluate(g.suite, done).reward))
  }

  lemma StepReached(g: Game, pos: Position, m: Move)
    requires ReachedIn(g, pos) && Step(g, pos, m).Ok?
    ensures ReachedIn(g, Step(g, pos, m).value) && Step(g, pos, m).value.trajectory == pos.trajectory + [m]
  {
    ApplyReaches(g.sc, pos, m, Benched(g.model));
  }

  lemma {:induction false} GreedyReached(g: Game, pos: Position)
    requires ReachedIn(g, pos) && Greedy(g, pos).Ok?
    ensures var done := Greedy(g, pos).value;
            ReachedIn(g, done) && pos.trajectory <= done.trajectory && (done.Terminal() || Legal(g, done) == [])
    decreases |g.sc.phases| - pos.phase
  {
    var legal := Legal(g, pos);
    if !pos.Terminal() && legal != [] {
      var m := legal[Top(Preferences(g, legal))];
      StepReached(g, pos, m);
      GreedyReached(g, Step(g, pos, m).value);
    }
  }

  /** The scenario and suite never make a rollout raise. */
  ghost predicate Playable(g: Game) {
    forall p, i :: 0 <= p < |g.sc.phases| && 0 <= i < |g.sc.phases[p]| ==>
      !Reopens(g.sc.phases[p][i]) && Predicted(g.suite, g.sc.phases[p][i])
  }

  lemma PlayableStep(g: Game, pos: Position, m: Move)
    requires Valid(g.sc) && Playable(g) && ReachedIn(g, pos) && m in Legal(g, pos)
    ensures Predicted(g.suite, m) && Step(g, pos, m) == Ok(After(pos, m))
  {
    var i :| 0 <= i < |g.sc.phases[pos.phase]| && g.sc.phases[pos.phase][i] == m;
    CandidateApplies(g.sc, pos, m, Benched(g.model));
  }

  lemma {:induction false} PlayableNeverRaises(g: Game, pos: Position)
    requires Valid(g.sc) && Playable(g) && ReachedIn(g, pos)
    ensures LeafValue(g, pos).Ok? && Greedy(g, pos).Ok?
    decreases |g.sc.phases| - pos.phase
  {
    var legal := Legal(g, pos);
    if !pos.Terminal() && legal != [] {
      forall m | m in legal ensures Predicted(g.suite, m) && Step(g, pos, m) == Ok(After(pos, m)) {
        PlayableStep(g, pos, m);
      }
      var m := legal[Top(Preferences(g, legal))];
      StepReached(g, pos, m);
      PlayableNeverRaises(g, After(pos, m));
    }
  }

  /** Leaf values lie in [-1,1]. */
  lemma LeafBounds(g: Game, pos: Position)
    requires GameValid(g) && ReachedIn(g, pos) && LeafValue(g, pos).Ok?
    ensures -1.0 <= LeafValue(g, pos).value <= 1.0
  {
    GreedyReached(g, pos);
    var done := Greedy(g, pos).value;
    ReplayShaped(g.sc, done.trajectory, Benched(g.model));
    ScoreBounds(g.suite, done);
    BlendBounds(g.num, g.model, pos, Evaluate(g.suite, done).reward);
  }

  // ----- Ordering of candidates -----

  function KeyOf(priors: map<Move, real>, m: Move): Rank { Rank(if m in priors then -priors[m] else 0.0, m.id) }

  function Insert(priors: map<Move, real>, m: Move, s: seq<Move>): (r: seq<Move>)
    ensures multiset(r) == multiset(s) + multiset{m}
  {
    if s == [] || !Below(KeyOf(priors, s[0]), KeyOf(priors, m)) then
      assert [m] + s == [m] + s;
      [m] + s
    else
      assert s == [s[0]] + s[1..];
      [s[0]] + Insert(priors, m, s[1..])
  }

  /** The candidates by falling prior, then by identifier. */
  function Ranked(priors: map<Move, real>, moves: seq<Move>): (r: seq<Move>)
    ensures multiset(r) == multiset(moves)
  {
    if moves == [] then []
    else
      assert moves == [moves[0]] + moves[1..];
      Insert(priors, moves[0], Ranked(priors, moves[1..]))
  }

  ghost predicate Ordered(priors: map<Move, real>, s: seq<Move>) {
    forall i, j :: 0 <= i < j < |s| ==> !Below(KeyOf(priors, s[j]), KeyOf(priors, s[i]))
  }

  lemma {:induction false} InsertOrdered(priors: map<Move, real>, m: Move, s: seq<Move>)
    requires Ordered(priors, s)
    ensures Ordered(priors, Insert(priors, m, s))
  {
    var k := KeyOf(priors, m);
    var r := Insert(priors, m, s);
    if s == [] || !Below(KeyOf(priors, s[0]), k) {
      forall j | 0 <= j < |s| ensures !Below(KeyOf(priors, s[j]), k) {
        BelowTotal(k, KeyOf(priors, s[0]));
        BelowTotal(KeyOf(priors, s[0]), KeyOf(priors, s[j]));
        if Below(KeyOf(priors, s[j]), k) {
          if KeyOf(priors, s[0]) != KeyOf(priors, s[j]) { BelowTransitive(KeyOf(priors, s[0]), KeyOf(priors, s[j]), k); }
        }
      }
    } else {
      var rest := Insert(priors, m, s[1..]);
      InsertOrdered(priors, m, s[1..]);
      forall j | 0 <= j < |rest| ensures !Below(KeyOf(priors, rest[j]), KeyOf(priors, s[0])) {
        assert rest[j] in multiset(rest);
        if rest[j] == m { BelowTotal(k, KeyOf(priors, s[0])); } else { assert rest[j] in s[1..]; }
      }
    }
  }

  lemma {:induction false} RankedOrdered(priors: map<Move, real>, moves: seq<Move>)
    ensures Ordered(priors, Ranked(priors, moves))
  {
    if moves != [] {
      RankedOrdered(priors, moves[1..]);
      InsertOrdered(priors, moves[0], Ranked(priors, moves[1..]));
    }
  }
}
