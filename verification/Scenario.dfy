/** The typed four-phase transition system of the decision engine. */
module Scenario {
  import opened Wrappers

  datatype MoveKind = PROPOSE | QUESTION | ANSWER | COMMIT | ABSTAIN
  datatype TerminalStatus = COMMITTED | ABSTAINED

  datatype Move = Move(id: string, actionKey: string, kind: MoveKind, actor: string, text: string, basePrior: real,
                       predicted: map<string, real>, cost: real, tags: seq<string>, opens: Option<string>,
                       needs: Option<string>, resolves: Option<string>, evidence: seq<string>, violations: seq<string>)

  datatype Position = Position(scenario: string, version: string, phase: nat, trajectory: seq<Move>,
                               openQuestions: seq<string>, evidence: seq<string>, cost: real, violations: seq<string>,
                               status: Option<TerminalStatus>) {
    predicate Terminal() { status.Some? }
  }

  datatype Scenario = Scenario(name: string, version: string, description: string, phases: seq<seq<Move>>)

  /** An optional text counts as absent when it is empty. */
  predicate Set(o: Option<string>) { o.Some? && o.value != "" }

  // ----- Construction checks -----

  predicate MoveValid(m: Move) {
    && m.id != "" && m.actionKey != "" && m.actor != "" && m.basePrior > 0.0 && m.cost >= 0.0
    && forall name :: name in m.predicted ==> 0.0 <= m.predicted[name] <= 1.0
  }

  predicate KindFits(phase: nat, kind: MoveKind) {
    match phase
    case 0 => kind.PROPOSE?
    case 1 => kind.QUESTION?
    case 2 => kind.ANSWER?
    case 3 => kind.COMMIT? || kind.ABSTAIN?
    case _ => false
  }

  predicate LinksFit(m: Move) {
    match m.kind
    case QUESTION => Set(m.opens) && !Set(m.needs) && !Set(m.resolves)
    case ANSWER => Set(m.needs) && m.needs == m.resolves
    case _ => !Set(m.opens) && !Set(m.needs) && !Set(m.resolves)
  }

  predicate IdsDistinct(moves: seq<Move>) {
    forall i, j :: 0 <= i < j < |moves| ==> moves[i].id != moves[j].id
  }

  function Ids(moves: seq<Move>): seq<string> { seq(|moves|, i requires 0 <= i < |moves| => moves[i].id) }

  /** The checks of `Scenario.__post_init__`, without the one on semantic signatures. An answer may open a question. */
  ghost predicate Valid(sc: Scenario) {
    && |sc.phases| == 4
    && (forall p :: 0 <= p < 4 ==> |sc.phases[p]| > 0 && IdsDistinct(sc.phases[p]))
    && (forall p, q, i, j :: 0 <= p < q < 4 && 0 <= i < |sc.phases[p]| && 0 <= j < |sc.phases[q]| ==>
          sc.phases[p][i].id != sc.phases[q][j].id)
    && (forall p, i :: 0 <= p < 4 && 0 <= i < |sc.phases[p]| ==>
          MoveValid(sc.phases[p][i]) && KindFits(p, sc.phases[p][i].kind) && LinksFit(sc.phases[p][i]))
  }

  function InitialPosition(sc: Scenario): Position {
    Position(sc.name, sc.version, 0, [], [], [], 0.0, [], None)
  }

  // ----- Legal moves -----

  predicate Eligible(m: Move, questions: seq<string>, benched: set<string>) {
    m.actor !in benched && (m.kind.ANSWER? ==> m.needs.Some? && m.needs.value in questions)
  }

  /** The head stays distinct from a selection of the tail. */
  lemma FilterDistinct(moves: seq<Move>, rest: seq<Move>)
    requires moves != [] && forall m :: m in rest ==> m in moves[1..]
    ensures IdsDistinct(moves) ==> IdsDistinct(moves[1..])
    ensures IdsDistinct(moves) && IdsDistinct(rest) ==> IdsDistinct([moves[0]] + rest)
  {
    forall i | 0 <= i < |rest| && IdsDistinct(moves) ensures moves[0].id != rest[i].id {
      assert rest[i] in rest;
      var j :| 1 <= j < |moves| && moves[j] == rest[i];
    }
  }

  function Filter(moves: seq<Move>, questions: seq<string>, benched: set<string>): (r: seq<Move>)
    ensures forall m :: m in r <==> m in moves && Eligible(m, questions, benched)
    ensures IdsDistinct(moves) ==> IdsDistinct(r)
  {
    if moves == [] then []
    else
      var rest := Filter(moves[1..], questions, benched);
      FilterDistinct(moves, rest);
      if Eligible(moves[0], questions, benched) then [moves[0]] + rest else rest
  }

  predicate Belongs(sc: Scenario, pos: Position) { pos.scenario == sc.name && pos.version == sc.version }

  /** The legal moves of a position of this scenario. */
  function Candidates(sc: Scenario, pos: Position, benched: set<string>): (r: seq<Move>)
    ensures forall m :: m in r ==> pos.phase < |sc.phases| && m in sc.phases[pos.phase] && Eligible(m, pos.openQuestions, benched)
  {
    if pos.Terminal() || pos.phase >= |sc.phases| then [] else Filter(sc.phases[pos.phase], pos.openQuestions, benched)
  }

  function LegalMoves(sc: Scenario, pos: Position, benched: set<string>): Result<seq<Move>> {
    if Belongs(sc, pos) then Ok(Candidates(sc, pos, benched)) else Err(Invalid)
  }

  /** The legal moves, exactly: a move of the current phase whose actor is not benched, an answer only to an open question. */
  lemma LegalExactly(sc: Scenario, pos: Position, benched: set<string>, m: Move)
    ensures m in Candidates(sc, pos, benched) <==>
              && pos.status == None && pos.phase < |sc.phases| && m in sc.phases[pos.phase]
              && m.actor !in benched
              && (m.kind == ANSWER ==> m.needs.Some? && m.needs.value in pos.openQuestions)
  {
  }

  /** They come in the order of the phase: what is legal among two parts of it is what is legal in the one, then in the other. */
  lemma {:induction false} LegalInOrder(a: seq<Move>, b: seq<Move>, questions: seq<string>, benched: set<string>)
    ensures Filter(a + b, questions, benched) == Filter(a, questions, benched) + Filter(b, questions, benched)
    decreases |a|
  {
    if a == [] {
      assert a + b == b;
    } else {
      var m, rest := a[0], a[1..];
      LegalInOrder(rest, b, questions, benched);
      assert a == [m] + rest;
      HeadInOrder(m, rest, b, questions, benched);
    }
  }

  lemma HeadInOrder(m: Move, rest: seq<Move>, b: seq<Move>, questions: seq<string>, benched: set<string>)
    requires Filter(rest + b, questions, benched) == Filter(rest, questions, benched) + Filter(b, questions, benched)
    ensures Filter([m] + rest + b, questions, benched) == Filter([m] + rest, questions, benched) + Filter(b, questions, benched)
  {
    var head := if Eligible(m, questions, benched) then [m] else [];
    FilterHead(m, rest + b, questions, benched);
    FilterHead(m, rest, questions, benched);
    Regroup([m], rest, b);
    Regroup(head, Filter(rest, questions, benched), Filter(b, questions, benched));
  }

  lemma Regroup<T>(a: seq<T>, b: seq<T>, c: seq<T>)
    ensures a + b + c == a + (b + c)
  {
  }

  lemma FilterHead(m: Move, rest: seq<Move>, questions: seq<string>, benched: set<string>)
    ensures Filter([m] + rest, questions, benched)
         == (if Eligible(m, questions, benched) then [m] else []) + Filter(rest, questions, benched)
  {
    assert ([m] + rest)[1..] == rest;
  }

  // ----- Transitions -----

  /** `dict.fromkeys`: the first occurrence of every element, in order. */
  function Dedup<T(==,!new)>(s: seq<T>): (r: seq<T>)
    ensures forall x :: x in r <==> x in s
  {
    if s == [] then []
    else
      var init := Dedup(s[..|s| - 1]);
      var last := s[|s| - 1];
      assert forall x :: x in s <==> x in s[..|s| - 1] || x == last;
      if last in init then init else init + [last]
  }

  /** `list.remove`: without the first occurrence. */
  function Without(s: seq<string>, x: string): seq<string> {
    if s == [] then [] else if s[0] == x then s[1..] else [s[0]] + Without(s[1..], x)
  }

  function Questions(before: seq<string>, m: Move): seq<string> {
    var opened' := if Set(m.opens) then before + [m.opens.value] else before;
    if Set(m.resolves) then Without(opened', m.resolves.value) else opened'
  }

  function StatusAfter(m: Move): Option<TerminalStatus> {
    match m.kind
    case COMMIT => Some(COMMITTED)
    case ABSTAIN => Some(ABSTAINED)
    case _ => None
  }

  /** The position after a canonical move. */
  function After(pos: Position, m: Move): Position {
    pos.(phase := pos.phase + 1, trajectory := pos.trajectory + [m], openQuestions := Questions(pos.openQuestions, m),
         evidence := Dedup(pos.evidence + m.evidence), cost := pos.cost + m.cost,
         violations := Dedup(pos.violations + m.violations), status := StatusAfter(m))
  }

  /**
   `apply`: only a legal candidate with exactly the canonical content moves the position. A content hash covers every
   field of a move, so equal hashes mean equal moves.
   */
  function Apply(sc: Scenario, pos: Position, m: Move, benched: set<string>): Result<Position> {
    if !Belongs(sc, pos) then Err(Invalid)
    else if m !in Candidates(sc, pos, benched) then Err(Invalid)
    else if Set(m.opens) && m.opens.value in pos.openQuestions then Err(Conflict)
    else if Set(m.resolves) && m.resolves.value !in pos.openQuestions
            && !(Set(m.opens) && m.opens == m.resolves) then Err(Invalid)
    else Ok(After(pos, m))
  }

  const SYSTEM_ABSTAIN: string := "SYSTEM_ABSTAIN"

  function SystemAbstainMove(sc: Scenario, reason: string): Move {
    var names := if |sc.phases| > 0 && |sc.phases[0]| > 0 then sc.phases[0][0].predicted.Keys else {};
    Move(SYSTEM_ABSTAIN, "system.safe-abstain", ABSTAIN, "Orchestrator", reason, 1.0, map n | n in names :: 0.0, 0.0,
         ["safe-abstain"], None, None, None, [], [])
  }

  function SafeAbstain(sc: Scenario, reason: string): Position {
    InitialPosition(sc).(trajectory := [SystemAbstainMove(sc, reason)], status := Some(ABSTAINED))
  }

  /** The system abstention is the initial position ended by one free move of the system that adds nothing. */
  lemma SafeAbstainIs(sc: Scenario, reason: string)
    ensures var pos := SafeAbstain(sc, reason);
            && Belongs(sc, pos) && pos.phase == 0 && pos.openQuestions == [] && pos.evidence == [] && pos.violations == []
            && pos.cost == 0.0 && pos.status == Some(ABSTAINED) && |pos.trajectory| == 1
            && var m := pos.trajectory[0];
               && m.id == "SYSTEM_ABSTAIN" && m.kind == ABSTAIN && m.text == reason && m.cost == 0.0
               && m.evidence == [] && m.violations == [] && m.opens == m.needs == m.resolves == None
               && forall name :: name in m.predicted ==> m.predicted[name] == 0.0
  {
  }

  // ----- Reachability -----

  /** Replay of a trajectory from the initial position. */
  function Replay(sc: Scenario, moves: seq<Move>, benched: set<string>): Result<Position>
    decreases |moves|
  {
    if moves == [] then Ok(InitialPosition(sc))
    else
      var pos :- Replay(sc, moves[..|moves| - 1], benched);
      Apply(sc, pos, moves[|moves| - 1], benched)
  }

  /** The position is what its own trajectory replays to. */
  ghost predicate Reached(sc: Scenario, pos: Position, benched: set<string>) {
    Replay(sc, pos.trajectory, benched) == Ok(pos)
  }

  lemma ApplyReaches(sc: Scenario, pos: Position, m: Move, benched: set<string>)
    requires Reached(sc, pos, benched) && Apply(sc, pos, m, benched).Ok?
    ensures Reached(sc, Apply(sc, pos, m, benched).value, benched)
  {
    var next := Apply(sc, pos, m, benched).value;
    assert next.trajectory[..|next.trajectory| - 1] == pos.trajectory;
  }

  // ----- Recomputation -----

  function AllEvidence(moves: seq<Move>): seq<string> {
    if moves == [] then [] else AllEvidence(moves[..|moves| - 1]) + moves[|moves| - 1].evidence
  }

  function AllViolations(moves: seq<Move>): seq<string> {
    if moves == [] then [] else AllViolations(moves[..|moves| - 1]) + moves[|moves| - 1].violations
  }

  function TotalCost(moves: seq<Move>): real {
    if moves == [] then 0.0 else TotalCost(moves[..|moves| - 1]) + moves[|moves| - 1].cost
  }

  function OpenAfter(moves: seq<Move>): seq<string> {
    if moves == [] then [] else Questions(OpenAfter(moves[..|moves| - 1]), moves[|moves| - 1])
  }

  /** The position recomputed from scratch: totals and deduplicated concatenations over the whole trajectory. */
  function Recompute(sc: Scenario, moves: seq<Move>): Position {
    Position(sc.name, sc.version, |moves|, moves, OpenAfter(moves), Dedup(AllEvidence(moves)), TotalCost(moves),
             Dedup(AllViolations(moves)), if moves == [] then None else StatusAfter(moves[|moves| - 1]))
  }

  lemma {:induction false} DedupAbsorbs<T(!new)>(a: seq<T>, b: seq<T>)
    ensures Dedup(Dedup(a) + b) == Dedup(a + b)
    decreases |b|
  {
    if b == [] {
      assert Dedup(a) + b == Dedup(a) && a + b == a;
      DedupIdempotent(a);
    } else {
      var init, last := b[..|b| - 1], b[|b| - 1];
      DedupAbsorbs(a, init);
      DedupAppend(Dedup(a) + init, a + init, last);
      LastApart(Dedup(a), b);
      LastApart(a, b);
    }
  }

  lemma DedupAppend<T(!new)>(s: seq<T>, t: seq<T>, x: T)
    requires Dedup(s) == Dedup(t)
    ensures Dedup(s + [x]) == Dedup(t + [x])
  {
    assert (s + [x])[..|s|] == s && (t + [x])[..|t|] == t;
  }

  lemma LastApart<T>(a: seq<T>, b: seq<T>)
    requires b != []
    ensures a + b == a + b[..|b| - 1] + [b[|b| - 1]]
  {
  }

  /** Deduplication keeps first occurrences, in order: going on never disturbs what is there, and nothing comes twice. */
  lemma {:induction false} DedupKeepsFirst<T(!new)>(s: seq<T>, k: nat)
    requires k <= |s|
    ensures Dedup(s[..k]) <= Dedup(s)
    ensures forall i, j :: 0 <= i < j < |Dedup(s)| ==> Dedup(s)[i] != Dedup(s)[j]
    decreases |s|
  {
    if k < |s| {
      var init := s[..|s| - 1];
      assert init[..k] == s[..k];
      DedupKeepsFirst(init, k);
    } else {
      assert s[..k] == s;
      if s != [] { DedupKeepsFirst(s[..|s| - 1], 0); }
    }
  }

  lemma {:induction false} DedupIdempotent<T(!new)>(s: seq<T>)
    ensures Dedup(Dedup(s)) == Dedup(s)
    decreases |s|
  {
    if s != [] {
      var init := Dedup(s[..|s| - 1]);
      DedupIdempotent(s[..|s| - 1]);
      if s[|s| - 1] !in init {
        assert (init + [s[|s| - 1]])[..|init|] == init;
      }
    }
  }

  lemma ReplayStep(sc: Scenario, moves: seq<Move>, benched: set<string>)
    requires moves != [] && Replay(sc, moves, benched).Ok?
    ensures var before := Replay(sc, moves[..|moves| - 1], benched);
            before.Ok? && Replay(sc, moves, benched).value == After(before.value, moves[|moves| - 1])
  {
  }

  lemma RecomputeStep(sc: Scenario, moves: seq<Move>)
    requires moves != []
    ensures Recompute(sc, moves) == After(Recompute(sc, moves[..|moves| - 1]), moves[|moves| - 1])
  {
    var init, last := moves[..|moves| - 1], moves[|moves| - 1];
    assert init + [last] == moves;
    DedupAbsorbs(AllEvidence(init), last.evidence);
    DedupAbsorbs(AllViolations(init), last.violations);
  }

  /** Every accumulated field of a reachable position equals its recomputation from the trajectory. */
  lemma {:induction false} ReachedIsRecomputed(sc: Scenario, moves: seq<Move>, benched: set<string>)
    requires Replay(sc, moves, benched).Ok?
    ensures Replay(sc, moves, benched).value == Recompute(sc, moves)
    decreases |moves|
  {
    if moves != [] {
      ReplayStep(sc, moves, benched);
      ReachedIsRecomputed(sc, moves[..|moves| - 1], benched);
      RecomputeStep(sc, moves);
    }
  }

  // ----- Shape of reachable positions -----

  /** What an answer leaves open: nothing, unless it opens a question itself. */
  function LeftOpen(m: Move): seq<string> { if Set(m.opens) then [m.opens.value] else [] }

  /** One question opens in phase 1 and is resolved in phase 2; the game ends exactly with phase 3. */
  ghost predicate Shaped(pos: Position) {
    && pos.phase == |pos.trajectory| <= 4
    && (pos.phase < 2 ==> pos.openQuestions == [])
    && (pos.phase == 2 ==> |pos.openQuestions| == 1)
    && (pos.phase > 2 ==> pos.openQuestions == LeftOpen(pos.trajectory[2]))
    && (pos.Terminal() <==> pos.phase == 4)
    && pos.cost >= 0.0
  }

  lemma StepShaped(sc: Scenario, pos: Position, m: Move, benched: set<string>)
    requires Valid(sc) && Shaped(pos) && Apply(sc, pos, m, benched).Ok?
    ensures Shaped(Apply(sc, pos, m, benched).value)
  {
    assert m in sc.phases[pos.phase];
    var i :| 0 <= i < |sc.phases[pos.phase]| && sc.phases[pos.phase][i] == m;
    assert KindFits(pos.phase, m.kind) && LinksFit(m);
    if pos.phase == 2 { AnswerCloses(pos.openQuestions, m); }
  }

  /** An answer to the one open question leaves what it opens itself. */
  lemma AnswerCloses(open: seq<string>, m: Move)
    requires |open| == 1 && Set(m.resolves) && m.resolves.value == open[0]
    ensures Questions(open, m) == LeftOpen(m)
  {
    var q := open[0];
    assert open == [q];
    assert [q] + LeftOpen(m) == if Set(m.opens) then [q, m.opens.value] else [q];
    assert ([q] + LeftOpen(m))[1..] == LeftOpen(m);
  }

  lemma {:induction false} ReplayShaped(sc: Scenario, moves: seq<Move>, benched: set<string>)
    requires Valid(sc) && Replay(sc, moves, benched).Ok?
    ensures Shaped(Replay(sc, moves, benched).value)
    decreases |moves|
  {
    if moves != [] {
      var init := moves[..|moves| - 1];
      ReplayShaped(sc, init, benched);
      StepShaped(sc, Replay(sc, init, benched).value, moves[|moves| - 1], benched);
    }
  }

  /** A finished game has four plies, and no open question exactly when its answer opened none. */
  lemma TerminalHasFourPlies(sc: Scenario, pos: Position, benched: set<string>)
    requires Valid(sc) && Reached(sc, pos, benched) && pos.Terminal()
    ensures |pos.trajectory| == 4 && pos.phase == 4
    ensures pos.openQuestions == [] <==> !Set(pos.trajectory[2].opens)
  {
    ReplayShaped(sc, pos.trajectory, benched);
  }

  /** An answer that opens the very question it answers. */
  predicate Reopens(m: Move) { m.kind.ANSWER? && Set(m.opens) && m.opens == m.needs }

  /** A legal candidate of a reachable position is applied exactly when it does not reopen its own question. */
  lemma CandidateApplies(sc: Scenario, pos: Position, m: Move, benched: set<string>)
    requires Valid(sc) && Reached(sc, pos, benched) && m in Candidates(sc, pos, benched)
    ensures Apply(sc, pos, m, benched).Ok? <==> !Reopens(m)
    ensures !Reopens(m) ==> Apply(sc, pos, m, benched) == Ok(After(pos, m))
  {
    ReplayShaped(sc, pos.trajectory, benched);
    ReachedIsRecomputed(sc, pos.trajectory, benched);
    var i :| 0 <= i < |sc.phases[pos.phase]| && sc.phases[pos.phase][i] == m;
    assert KindFits(pos.phase, m.kind) && LinksFit(m);
    if pos.phase == 2 {
      assert pos.openQuestions == [pos.openQuestions[0]];
    }
  }

  // ----- An answer that opens a question -----

  function Say(id: string, kind: MoveKind, opens: Option<string>, answers: Option<string>): Move {
    Move(id, id, kind, "agent", id, 1.0, map[], 0.0, [], opens, answers, answers, [], [])
  }

  const PROPOSAL: Move := Say("propose", PROPOSE, None, None)
  const ASKING: Move := Say("ask", QUESTION, Some("q"), None)
  const CLOSING: Move := Say("close", COMMIT, None, None)

  function Answering(opens: string): Move { Say("answer", ANSWER, Some(opens), Some("q")) }

  /** One move per phase; the answer opens a question of its own. */
  function Sample(opens: string): Scenario {
    Scenario("sample", "1", "", [[PROPOSAL], [ASKING], [Answering(opens)], [CLOSING]])
  }

  lemma SampleIsValid(opens: string)
    ensures Valid(Sample(opens))
  {
    var sc := Sample(opens);
    forall p, i | 0 <= p < 4 && 0 <= i < |sc.phases[p]|
      ensures MoveValid(sc.phases[p][i]) && KindFits(p, sc.phases[p][i].kind) && LinksFit(sc.phases[p][i])
    {
      assert i == 0;
    }
    assert PROPOSAL.id[0] == 'p' && ASKING.id[1] == 's' && Answering(opens).id[1] == 'n' && CLOSING.id[0] == 'c';
  }

  lemma OnlyCandidate(sc: Scenario, pos: Position, m: Move)
    requires pos.status == None && pos.phase < |sc.phases| && sc.phases[pos.phase] == [m] && Eligible(m, pos.openQuestions, {})
    ensures m in Candidates(sc, pos, {})
  {
  }

  /** The sample after its question was asked. */
  lemma SampleAsked(opens: string) returns (pos: Position)
    ensures Reached(Sample(opens), pos, {}) && Belongs(Sample(opens), pos)
    ensures pos.phase == 2 && pos.openQuestions == ["q"] && pos.status == None && |pos.trajectory| == 2
  {
    var sc := Sample(opens);
    var start := InitialPosition(sc);
    OnlyCandidate(sc, start, PROPOSAL);
    assert Apply(sc, start, PROPOSAL, {}) == Ok(After(start, PROPOSAL));
    ApplyReaches(sc, start, PROPOSAL, {});
    var proposed := After(start, PROPOSAL);
    OnlyCandidate(sc, proposed, ASKING);
    assert Apply(sc, proposed, ASKING, {}) == Ok(After(proposed, ASKING));
    ApplyReaches(sc, proposed, ASKING, {});
    pos := After(proposed, ASKING);
  }

  lemma AnswerOpens(before: seq<string>, m: Move)
    requires before == ["q"] && m == Answering("r")
    ensures Questions(before, m) == ["r"]
  {
    assert "q"[0] != "r"[0];
    assert before + ["r"] == ["q", "r"];
    assert Without(["q", "r"], "q") == ["r"];
  }

  lemma SampleAnswered(asked: Position) returns (pos: Position)
    requires Reached(Sample("r"), asked, {}) && Belongs(Sample("r"), asked)
    requires asked.phase == 2 && asked.openQuestions == ["q"] && asked.status == None
    ensures Reached(Sample("r"), pos, {}) && Belongs(Sample("r"), pos)
    ensures pos.phase == 3 && pos.openQuestions == ["r"] && pos.status == None
  {
    var m := Answering("r");
    OnlyCandidate(Sample("r"), asked, m);
    AnswerOpens(asked.openQuestions, m);
    assert "q"[0] != "r"[0];
    pos := After(asked, m);
    assert Apply(Sample("r"), asked, m, {}) == Ok(pos);
    ApplyReaches(Sample("r"), asked, m, {});
  }

  /** A valid scenario whose committed game has an open question: the one its answer opened. */
  lemma AnswerLeavesQuestionOpen() returns (sc: Scenario, pos: Position)
    ensures Valid(sc) && Reached(sc, pos, {}) && pos.status == Some(COMMITTED) && pos.openQuestions == ["r"]
  {
    sc := Sample("r");
    SampleIsValid("r");
    var asked := SampleAsked("r");
    var answered := SampleAnswered(asked);
    OnlyCandidate(sc, answered, CLOSING);
    assert Apply(sc, answered, CLOSING, {}) == Ok(After(answered, CLOSING));
    ApplyReaches(sc, answered, CLOSING, {});
    pos := After(answered, CLOSING);
  }

  /** A valid scenario with a reachable position that lists a legal candidate it then refuses to apply. */
  lemma LegalCandidateIsRefused() returns (sc: Scenario, pos: Position, m: Move)
    ensures Valid(sc) && Reached(sc, pos, {}) && m in Candidates(sc, pos, {}) && Apply(sc, pos, m, {}) == Err(Conflict)
  {
    sc, m := Sample("q"), Answering("q");
    SampleIsValid("q");
    pos := SampleAsked("q");
    OnlyCandidate(sc, pos, m);
  }

  // ----- State digest -----

  /** The payload `state_hash` digests: sorted lists are multisets, and move hashes identify moves. */
  datatype StateDigest = StateDigest(scenario: string, version: string, phase: nat, moves: seq<Move>,
                                     openQuestions: multiset<string>, evidence: multiset<string>, cost: real,
                                     violations: multiset<string>, status: Option<TerminalStatus>)

  function StateHash(pos: Position): StateDigest {
    StateDigest(pos.scenario, pos.version, pos.phase, pos.trajectory, multiset(pos.openQuestions), multiset(pos.evidence),
                pos.cost, multiset(pos.violations), pos.status)
  }

  /** What a search scores: a reachable position, or the system abstention. */
  ghost predicate Scorable(sc: Scenario, pos: Position, benched: set<string>) {
    Reached(sc, pos, benched) || exists reason :: pos == SafeAbstain(sc, reason)
  }

  /** The digest forgets order, yet on scorable positions it determines the position. */
  lemma DigestIdentifies(sc: Scenario, p: Position, q: Position, benched: set<string>)
    requires Valid(sc) && Scorable(sc, p, benched) && Scorable(sc, q, benched) && StateHash(p) == StateHash(q)
    ensures p == q
  {
    if Reached(sc, p, benched) { ReplayShaped(sc, p.trajectory, benched); }
    if Reached(sc, q, benched) { ReplayShaped(sc, q.trajectory, benched); }
  }

  /** The digest covers every field: positions with one digest differ in the order of their lists at most. */
  lemma DigestCovers(p: Position, q: Position)
    requires StateHash(p) == StateHash(q)
    ensures p.scenario == q.scenario && p.version == q.version && p.phase == q.phase && p.trajectory == q.trajectory
    ensures p.cost == q.cost && p.status == q.status
    ensures multiset(p.openQuestions) == multiset(q.openQuestions) && multiset(p.evidence) == multiset(q.evidence)
            && multiset(p.violations) == multiset(q.violations)
  {
  }

  /** Without reachability it does not: two orders of the same violations have one digest. */
  lemma DigestForgetsOrder(sc: Scenario, a: string, b: string)
    requires a != b
    ensures var p := InitialPosition(sc).(violations := [a, b]);
            var q := InitialPosition(sc).(violations := [b, a]);
            p != q && StateHash(p) == StateHash(q)
  {
    assert [a, b][0] != [b, a][0];
    assert multiset([a, b]) == multiset{a, b} == multiset([b, a]);
  }
}
