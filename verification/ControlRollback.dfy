/**
 The rollback operation in the protocol: it reads the champion, then the champion's audit row, and commits in a later
 transaction that compares artifact ids; anything may run in between.
 */
module ControlRollback {
  import opened Wrappers
  import opened Store
  import opened Control
  import opened ControlInvariant
  import opened ControlSteps
  import opened ControlBudget
  import opened ControlCommit
  import opened ControlTheorems
  import opened ControlLater

  // ----- What a rollback has read stays in the audit trail -----

  /** The audit row of the champion it read names that champion and, once located, the target. */
  ghost predicate ReadOk(db: Database, p: Proc) {
    p.req.scope.ROLLBACK? && (p.pc.Located? || p.pc.Working?) ==>
      && p.seen.Some?
      && var k := AuditKey(FamilyOf(p.req), p.seen.value.generation);
         && k in db.audit && db.audit[k].artifact == p.seen.value.artifact
         && (p.pc.Working? ==> db.audit[k].previous == Some(p.target))
  }

  ghost predicate Readers(s: State) { forall pid :: pid in s.procs ==> ReadOk(s.db, s.procs[pid]) }

  lemma ReadStays(db: Database, db': Database, p: Proc)
    requires AuditKept(db, db') && ReadOk(db, p)
    ensures ReadOk(db', p)
  {
  }

  /** The process keeps its identity; past its first read it keeps what it saw and never goes back. */
  ghost predicate Onward(s: State, s': State, pid: nat)
    requires pid in s.procs
  {
    && s'.used == s.used && pid in s'.procs && s'.procs == s.procs[pid := s'.procs[pid]]
    && s'.procs[pid].run == s.procs[pid].run && s'.procs[pid].req == s.procs[pid].req
    && (!s.procs[pid].pc.Start? && !s.procs[pid].pc.Opened? ==>
          s'.procs[pid].seen == s.procs[pid].seen && !s'.procs[pid].pc.Start? && !s'.procs[pid].pc.Opened?)
  }

  lemma StartOnward(s: State, pid: nat, p: Proc, c: Choice)
    requires pid in s.procs && p == s.procs[pid] && p.pc.Start?
    ensures Onward(s, StepStart(s, pid, p, c), pid) && ReadOk(StepStart(s, pid, p, c).db, StepStart(s, pid, p, c).procs[pid])
  {
  }

  lemma HandlingOnward(s: State, pid: nat, p: Proc, c: Choice)
    requires pid in s.procs && p == s.procs[pid] && p.pc.Handling?
    ensures Onward(s, StepHandling(s, pid, p, c), pid) && ReadOk(StepHandling(s, pid, p, c).db, StepHandling(s, pid, p, c).procs[pid])
  {
  }

  lemma OpenedOnward(s: State, pid: nat, p: Proc, c: Choice)
    requires pid in s.procs && p == s.procs[pid] && p.pc.Opened? && Chain(s.db)
    ensures Onward(s, StepOpened(s, pid, p, c), pid) && ReadOk(StepOpened(s, pid, p, c).db, StepOpened(s, pid, p, c).procs[pid])
  {
    if Budgetary(p.req.scope) && c.ok { CreatedOnward(s, pid, p, c); }
  }

  lemma CreatedOnward(s: State, pid: nat, p: Proc, c: Choice)
    requires pid in s.procs && p == s.procs[pid] && p.pc.Opened? && Budgetary(p.req.scope) && c.ok
    ensures Onward(s, StepOpened(s, pid, p, c), pid) && ReadOk(StepOpened(s, pid, p, c).db, StepOpened(s, pid, p, c).procs[pid])
  {
  }

  lemma LocatedOnward(s: State, pid: nat, p: Proc)
    requires pid in s.procs && p == s.procs[pid] && p.pc.Located? && ReadOk(s.db, p)
    ensures Onward(s, StepLocated(s, pid, p), pid) && ReadOk(StepLocated(s, pid, p).db, StepLocated(s, pid, p).procs[pid])
  {
  }

  lemma BudgetedOnward(s: State, pid: nat, p: Proc)
    requires pid in s.procs && p == s.procs[pid] && p.pc.Budgeted? && Budgetary(p.req.scope)
    ensures Onward(s, StepBudgeted(s, pid, p), pid) && ReadOk(StepBudgeted(s, pid, p).db, StepBudgeted(s, pid, p).procs[pid])
  {
  }

  lemma LeaseOnward(s: State, pid: nat, p: Proc, c: Choice)
    requires pid in s.procs && p == s.procs[pid] && p.pc.Working? && p.req.scope.TRAIN?
    ensures Onward(s, StepLease(s, pid, p, c), pid) && ReadOk(StepLease(s, pid, p, c).db, StepLease(s, pid, p, c).procs[pid])
  {
  }

  lemma CommitOnward(s: State, pid: nat, p: Proc, c: Choice)
    requires pid in s.procs && p == s.procs[pid] && p.pc.Working?
    ensures Onward(s, StepCommit(s, pid, p, c), pid) && ReadOk(StepCommit(s, pid, p, c).db, StepCommit(s, pid, p, c).procs[pid])
  {
  }

  lemma EndsOnward(s: State, pid: nat, p: Proc, c: Choice)
    requires pid in s.procs && p == s.procs[pid]
    requires p.pc.Undo? || p.pc.Finally? || p.pc.FinallyRelease? || p.pc.FinallyLease?
    ensures Onward(s, StepProc(s, pid, c), pid) && ReadOk(StepProc(s, pid, c).db, StepProc(s, pid, c).procs[pid])
  {
  }

  lemma SettledOnward(s: State, pid: nat, p: Proc, c: Choice)
    requires pid in s.procs && p == s.procs[pid] && p.pc.Settled?
    ensures Onward(s, StepSettled(s, pid, p, c), pid) && ReadOk(StepSettled(s, pid, p, c).db, StepSettled(s, pid, p, c).procs[pid])
  {
  }

  lemma FailingOnward(s: State, pid: nat, p: Proc, c: Choice)
    requires pid in s.procs && p == s.procs[pid] && p.pc.Failing?
    ensures Onward(s, StepFailing(s, pid, p, c), pid) && ReadOk(StepFailing(s, pid, p, c).db, StepFailing(s, pid, p, c).procs[pid])
  {
  }

  lemma StepOnward(s: State, pid: nat, c: Choice)
    requires Inv(s) && pid in s.procs && ReadOk(s.db, s.procs[pid])
    ensures Onward(s, StepProc(s, pid, c), pid) && ReadOk(StepProc(s, pid, c).db, StepProc(s, pid, c).procs[pid])
  {
    var p := s.procs[pid];
    assert ProcOk(s, p);
    match p.pc
    case Start => StartOnward(s, pid, p, c);
    case Handling => HandlingOnward(s, pid, p, c);
    case Opened => OpenedOnward(s, pid, p, c);
    case Located => LocatedOnward(s, pid, p);
    case Budgeted => BudgetedOnward(s, pid, p);
    case Working =>
      if c.ok {
        if p.req.scope.TRAIN? { LeaseOnward(s, pid, p, c); }
        CommitOnward(s, pid, p, c);
      }
    case Settled => SettledOnward(s, pid, p, c);
    case Failing => FailingOnward(s, pid, p, c);
    case Done =>
    case Dead =>
    case _ => EndsOnward(s, pid, p, c);
  }

  lemma NextReads(s: State, a: Action)
    requires Inv(s) && Readers(s)
    ensures Readers(Next(s, a))
  {
    var s' := Next(s, a);
    NextKeepsAudit(s, a);
    if a.Step? && s.up && a.who in s.procs { StepOnward(s, a.who, a.choice); }
    forall pid | pid in s'.procs ensures ReadOk(s'.db, s'.procs[pid]) {
      if pid in s.procs && s'.procs[pid] == s.procs[pid] { ReadStays(s.db, s'.db, s.procs[pid]); }
    }
  }

  lemma {:induction false} RunReads(s: State, actions: seq<Action>)
    requires Inv(s) && Readers(s)
    ensures Readers(Run(s, actions))
    decreases |actions|
  {
    if actions != [] {
      RunReads(s, actions[..|actions| - 1]);
      RunKeeps(s, actions[..|actions| - 1]);
      NextReads(Run(s, actions[..|actions| - 1]), actions[|actions| - 1]);
    }
  }

  /** Wherever this run's process is found, it has seen this champion. */
  ghost predicate Saw(s: State, run: Id, q: Request, seen: Option<Champion>) {
    && run in s.used
    && forall pid :: pid in s.procs && s.procs[pid].run == run ==>
         s.procs[pid].seen == seen && s.procs[pid].req == q && !s.procs[pid].pc.Start? && !s.procs[pid].pc.Opened?
  }

  lemma NextSaw(s: State, a: Action, run: Id, q: Request, seen: Option<Champion>)
    requires Inv(s) && Readers(s) && Saw(s, run, q, seen)
    ensures Saw(Next(s, a), run, q, seen)
  {
    if a.Step? && s.up && a.who in s.procs { StepOnward(s, a.who, a.choice); }
  }

  lemma {:induction false} RunSaw(s: State, actions: seq<Action>, run: Id, q: Request, seen: Option<Champion>)
    requires Inv(s) && Readers(s) && Saw(s, run, q, seen)
    ensures Saw(Run(s, actions), run, q, seen)
    decreases |actions|
  {
    if actions != [] {
      var before := actions[..|actions| - 1];
      RunSaw(s, before, run, q, seen);
      RunKeeps(s, before);
      RunReads(s, before);
      NextSaw(Run(s, before), actions[|actions| - 1], run, q, seen);
    }
  }

  lemma Reached(actions: seq<Action>)
    ensures Inv(Run(INITIAL, actions)) && Readers(Run(INITIAL, actions))
  {
    Reachable(actions);
    RunReads(INITIAL, actions);
  }

  // ----- The commit step -----

  /** The champion row after a rollback, and the rows it leaves alone. */
  ghost predicate RolledBack(db: Database, db': Database, f: FamilyKey)
    requires f in db.champions
  {
    var n := db.champions[f].generation;
    && n > 1 && AuditKey(f, n - 1) in db.audit
    && db'.champions == db.champions[f := Champion(db.audit[AuditKey(f, n - 1)].artifact, n + 1)]
    && forall k :: k in db.audit ==> k in db'.audit && db'.audit[k] == db.audit[k]
  }

  predicate RecordOpen(db: Database, k: IdemKey) { k in db.idempotency && db.idempotency[k].status == IN_PROGRESS }

  /** The process is about to run its rollback transaction. */
  ghost predicate Poised(s: State, pid: nat, c: Choice) {
    s.up && pid in s.procs && s.procs[pid].req.scope.ROLLBACK? && s.procs[pid].pc.Working? && c.ok
  }

  lemma NextRowIsFree(db: Database, f: FamilyKey)
    requires Chain(db) && f in db.champions
    ensures AuditKey(f, db.champions[f].generation + 1) !in db.audit
  {
    forall k | k in db.audit
      ensures k.family in db.champions && k.generation <= db.champions[k.family].generation
    { assert ChainRow(db, k); }
  }

  lemma Predecessors(db: Database, f: FamilyKey)
    requires Chain(db) && f in db.champions && db.champions[f].generation > 1
    ensures var n := db.champions[f].generation;
            && AuditKey(f, n) in db.audit && AuditKey(f, n - 1) in db.audit
            && db.audit[AuditKey(f, n)] == Promotion(db.champions[f].artifact, Some(db.audit[AuditKey(f, n - 1)].artifact))
  {
    assert ChainRow(db, AuditKey(f, db.champions[f].generation));
  }

  /** What the invariants say about a poised rollback: its target is registered, is not what it saw, and the chain went on. */
  lemma TargetStands(db: Database, p: Proc)
    requires Chain(db) && ReadOk(db, p) && p.req.scope.ROLLBACK? && p.pc.Working?
    ensures var f := FamilyOf(p.req);
            && f in db.champions && 1 < p.seen.value.generation <= db.champions[f].generation
            && p.target != p.seen.value.artifact
            && ArtifactKey(f.tenant, p.target) in db.artifacts
            && db.artifacts[ArtifactKey(f.tenant, p.target)].policy == f.policy
  {
    var f, n := FamilyOf(p.req), p.seen.value.generation;
    assert ChainRow(db, AuditKey(f, n));
    assert ChainRow(db, AuditKey(f, n - 1));
  }

  /** The tables after the rollback transaction. */
  function Swapped(db: Database, p: Proc): Database {
    var f := FamilyOf(p.req);
    if f !in db.champions then db
    else
      var n := db.champions[f].generation + 1;
      db.(champions := db.champions[f := Champion(p.target, n)],
          audit := db.audit[AuditKey(f, n) := Promotion(p.target, Some(db.champions[f].artifact))])
  }

  lemma SwapExactly(db: Database, p: Proc)
    requires Chain(db) && ReadOk(db, p) && p.req.scope.ROLLBACK? && p.pc.Working?
    ensures var f := FamilyOf(p.req);
            && f in db.champions
            && PromotePolicy(db, f, p.target, Expected(p)) ==
               if db.champions[f].artifact == p.seen.value.artifact then Ok(Swapped(db, p)) else Err(Conflict)
  {
    TargetStands(db, p);
    NextRowIsFree(db, FamilyOf(p.req));
  }

  /** Its own result is not in the record yet: a COMPLETED record belongs to another run. */
  lemma NotYetAnswered(s: State, pid: nat)
    requires Inv(s) && pid in s.procs && s.procs[pid].pc.Working? && s.procs[pid].req.scope.ROLLBACK?
    ensures var p := s.procs[pid];
            KeyOf(p.req) in s.db.idempotency && s.db.idempotency[KeyOf(p.req)].status == COMPLETED ==>
              s.db.idempotency[KeyOf(p.req)].result != Some(ResponseOf(p))
  {
    var p := s.procs[pid];
    var k := KeyOf(p.req);
    assert ProcOk(s, p);
    forall r | r in s.commits ensures s.commits[r].payload != ResponseOf(p) { assert CommitOk(s, r); }
    if k in s.db.idempotency { assert RecordOk(s, k); }
  }

  lemma CommitExactly(s: State, pid: nat)
    requires Inv(s) && Readers(s) && pid in s.procs && s.procs[pid].pc.Working? && s.procs[pid].req.scope.ROLLBACK?
    ensures var p := s.procs[pid];
            var f := FamilyOf(p.req);
            && f in s.db.champions
            && (CommitRollback(s.db, p).Ok? <==>
                  s.db.champions[f].artifact == p.seen.value.artifact && RecordOpen(s.db, KeyOf(p.req)))
            && (CommitRollback(s.db, p).Ok? ==>
                  CommitRollback(s.db, p).value.champions == Swapped(s.db, p).champions
                  && CommitRollback(s.db, p).value.audit == Swapped(s.db, p).audit)
  {
    assert ReadOk(s.db, s.procs[pid]);
    SwapExactly(s.db, s.procs[pid]);
    NotYetAnswered(s, pid);
  }

  /** A new champion row over the current one is a rollback exactly when it names the predecessor. */
  lemma SwapRestores(db: Database, db': Database, p: Proc)
    requires Chain(db) && FamilyOf(p.req) in db.champions && db.champions[FamilyOf(p.req)].generation > 1
    requires db'.champions == Swapped(db, p).champions && db'.audit == Swapped(db, p).audit
    ensures var f := FamilyOf(p.req);
            && AuditKey(f, db.champions[f].generation) in db.audit
            && (RolledBack(db, db', f) <==> db.audit[AuditKey(f, db.champions[f].generation)].previous == Some(p.target))
  {
    var f := FamilyOf(p.req);
    Predecessors(db, f);
    NextRowIsFree(db, f);
    assert db'.champions[f] == Champion(p.target, db.champions[f].generation + 1);
  }

  /** What one commit step of a rollback does, in any state. */
  ghost predicate CommitOutcome(s: State, pid: nat, s': State)
    requires pid in s.procs && s.procs[pid].seen.Some?
  {
    var p := s.procs[pid];
    var f := FamilyOf(p.req);
    && f in s.db.champions
    && var n := s.db.champions[f].generation;
       && AuditKey(f, n) in s.db.audit && p.seen.value.generation <= n
       && (p.run in s'.commits <==> s.db.champions[f].artifact == p.seen.value.artifact && RecordOpen(s.db, KeyOf(p.req)))
       && (p.run !in s'.commits ==> s'.db == s.db)
       && (p.run in s'.commits ==> (RolledBack(s.db, s'.db, f) <==> s.db.audit[AuditKey(f, n)].previous == Some(p.target)))
       && (p.run in s'.commits ==> s'.db.champions == s.db.champions[f := Champion(p.target, n + 1)])
       && (p.seen.value == s.db.champions[f] && RecordOpen(s.db, KeyOf(p.req)) ==>
             p.run in s'.commits && RolledBack(s.db, s'.db, f))
  }

  lemma CommitStep(s: State, pid: nat, c: Choice)
    requires Inv(s) && Readers(s) && Poised(s, pid, c)
    ensures s.procs[pid].seen.Some? && CommitOutcome(s, pid, Next(s, Step(pid, c)))
  {
    var p := s.procs[pid];
    assert ProcOk(s, p) && ReadOk(s.db, p);
    TargetStands(s.db, p);
    CommitExactly(s, pid);
    var s' := StepCommit(s, pid, p, c);
    assert Next(s, Step(pid, c)) == s';
    if CommitRollback(s.db, p).Ok? { SwapRestores(s.db, s'.db, p); }
  }

  // ----- Theorems -----

  /**
   A rollback reads its champion, anything runs, and then it commits. The commit takes effect exactly when the champion
   is the same artifact again and the request's record is still open. It then restores the predecessor of the current
   champion exactly when the audit rows of both generations name the same predecessor; and when no promotion ran in
   between it does, provided the record is open.
   */
  lemma RollbackAcrossInterleaving(past: seq<Action>, read: Choice, between: seq<Action>, pid: nat, commit: Choice)
    requires var s := Run(INITIAL, past);
             s.up && pid in s.procs && s.procs[pid].req.scope.ROLLBACK? && s.procs[pid].pc.Opened? && read.ok
    requires var s := Run(INITIAL, past);
             var t := Run(Next(s, Step(pid, read)), between);
             Poised(t, pid, commit) && t.procs[pid].run == s.procs[pid].run
    ensures var s := Run(INITIAL, past);
            var t := Run(Next(s, Step(pid, read)), between);
            var t' := Next(t, Step(pid, commit));
            var p := t.procs[pid];
            var f := FamilyOf(p.req);
            && p.req == s.procs[pid].req && f in s.db.champions && f in t.db.champions
            && var n, m := s.db.champions[f].generation, t.db.champions[f].generation;
               && AuditKey(f, n) in s.db.audit && AuditKey(f, m) in t.db.audit && n <= m
               && (p.run in t'.commits <==>
                     t.db.champions[f].artifact == s.db.champions[f].artifact && RecordOpen(t.db, KeyOf(p.req)))
               && (p.run !in t'.commits ==> t'.db == t.db)
               && (p.run in t'.commits ==>
                     (RolledBack(t.db, t'.db, f) <==> t.db.audit[AuditKey(f, m)].previous == s.db.audit[AuditKey(f, n)].previous))
               && (n == m && RecordOpen(t.db, KeyOf(p.req)) ==> p.run in t'.commits && RolledBack(t.db, t'.db, f))
  {
    var s := Run(INITIAL, past);
    var p := s.procs[pid];
    Reached(past);
    var s1 := Next(s, Step(pid, read));
    NextKeeps(s, Step(pid, read));
    NextReads(s, Step(pid, read));
    var seen := if FamilyOf(p.req) in s.db.champions then Some(s.db.champions[FamilyOf(p.req)]) else None;
    FirstRead(s, pid, read, seen);
    RunSaw(s1, between, p.run, p.req, seen);
    var t := Run(s1, between);
    RunKeeps(s1, between);
    RunReads(s1, between);
    RunKeepsAudit(s1, between);
    CommitStep(t, pid, commit);
    SameRow(s.db, t.db, FamilyOf(p.req));
    assert ReadOk(t.db, t.procs[pid]);
  }

  lemma FirstRead(s: State, pid: nat, c: Choice, seen: Option<Champion>)
    requires Inv(s) && s.up && pid in s.procs && s.procs[pid].req.scope.ROLLBACK? && s.procs[pid].pc.Opened? && c.ok
    requires var f := FamilyOf(s.procs[pid].req); seen == if f in s.db.champions then Some(s.db.champions[f]) else None
    ensures var s' := Next(s, Step(pid, c));
            Saw(s', s.procs[pid].run, s.procs[pid].req, seen) && s'.db == s.db
  {
    assert ProcOk(s, s.procs[pid]);
  }

  /** A champion row is the audit row of its generation, for good. */
  lemma SameRow(db: Database, db': Database, f: FamilyKey)
    requires Chain(db) && Chain(db') && AuditKept(db, db') && f in db.champions && f in db'.champions
    ensures var k := AuditKey(f, db.champions[f].generation);
            && k in db.audit && k in db'.audit && db'.audit[k] == db.audit[k] && db.audit[k].artifact == db.champions[f].artifact
    ensures db.champions[f].generation == db'.champions[f].generation ==> db.champions[f] == db'.champions[f]
  {
  }

  /** The commit step is due, against the very champion row that was read. */
  ghost predicate Current(s: State, pid: nat, c: Choice, f: FamilyKey) {
    && Poised(s, pid, c) && FamilyOf(s.procs[pid].req) == f && RecordOpen(s.db, KeyOf(s.procs[pid].req))
    && f in s.db.champions && s.procs[pid].seen == Some(s.db.champions[f])
  }

  /** With no promotion between read and commit, rollback installs the predecessor as the next generation. */
  lemma RollbackRestoresPredecessor(past: seq<Action>, pid: nat, c: Choice, f: FamilyKey)
    requires Current(Run(INITIAL, past), pid, c, f)
    ensures var s := Run(INITIAL, past);
            var s' := Next(s, Step(pid, c));
            s.procs[pid].run in s'.commits && RolledBack(s.db, s'.db, f) && TrailKept(s'.db, f)
  {
    Reached(past);
    CommitStep(Run(INITIAL, past), pid, c);
    NextKeeps(Run(INITIAL, past), Step(pid, c));
    ChainedTrail(Next(Run(INITIAL, past), Step(pid, c)).db, f);
  }

  ghost predicate TrailKept(db: Database, f: FamilyKey) { f in db.champions && TrailIsChain(db, f) }

  /** Two rollbacks, with no other promotion of the family around them, bring the original champion back two generations later. */
  lemma TwoRollbacksRestoreChampion(past: seq<Action>, i: nat, c: Choice, between: seq<Action>, j: nat, d: Choice, f: FamilyKey)
    requires Current(Run(INITIAL, past), i, c, f)
    requires var s' := Next(Run(INITIAL, past), Step(i, c));
             var t := Run(s', between);
             Current(t, j, d, f) && f in s'.db.champions && t.db.champions[f] == s'.db.champions[f]
    ensures var s := Run(INITIAL, past);
            var t' := Next(Run(Next(s, Step(i, c)), between), Step(j, d));
            && f in t'.db.champions
            && t'.db.champions[f] == Champion(s.db.champions[f].artifact, s.db.champions[f].generation + 2)
  {
    var s := Run(INITIAL, past);
    var s' := Next(s, Step(i, c));
    var t := Run(s', between);
    Reached(past);
    CommitStep(s, i, c);
    NextKeeps(s, Step(i, c));
    NextReads(s, Step(i, c));
    RunKeeps(s', between);
    RunReads(s', between);
    RunKeepsAudit(s', between);
    CommitStep(t, j, d);
    assert s'.db.champions[f].generation == s.db.champions[f].generation + 1;
    SameRow(s.db, s'.db, f);
  }

  /** A located rollback finds a target exactly when the champion it read is not of the first generation. */
  lemma FirstChampionHasNoTarget(past: seq<Action>, pid: nat, c: Choice)
    requires var s := Run(INITIAL, past); s.up && pid in s.procs && s.procs[pid].req.scope.ROLLBACK? && s.procs[pid].pc.Located?
    ensures var s := Run(INITIAL, past);
            var s' := Next(s, Step(pid, c));
            && s.procs[pid].seen.Some? && pid in s'.procs && s'.db == s.db
            && s'.procs[pid].pc == if s.procs[pid].seen.value.generation > 1 then Working else Handling
  {
    var s := Run(INITIAL, past);
    Reached(past);
    assert ReadOk(s.db, s.procs[pid]);
    assert ChainRow(s.db, AuditKey(FamilyOf(s.procs[pid].req), s.procs[pid].seen.value.generation));
  }

  // ----- Promotion -----

  /** The process is about to run its promotion transaction. */
  ghost predicate Proposing(s: State, pid: nat, c: Choice) {
    s.up && pid in s.procs && s.procs[pid].req.scope.PROMOTE? && s.procs[pid].pc.Working? && c.ok
  }

  /** Its own result and its own receipt are not there yet. */
  lemma NotYetPromoted(s: State, pid: nat)
    requires Inv(s) && pid in s.procs && s.procs[pid].pc.Working? && s.procs[pid].req.scope.PROMOTE?
    ensures var p := s.procs[pid];
            && ReceiptKey(Evidence, p.req.tenant, p.run) !in s.db.receipts
            && (KeyOf(p.req) in s.db.idempotency && s.db.idempotency[KeyOf(p.req)].status == COMPLETED ==>
                  s.db.idempotency[KeyOf(p.req)].result != Some(ResponseOf(p)))
  {
    var p := s.procs[pid];
    assert ProcOk(s, p);
    forall r | r in s.commits ensures s.commits[r].payload != ResponseOf(p) { assert CommitOk(s, r); }
    if KeyOf(p.req) in s.db.idempotency { assert RecordOk(s, KeyOf(p.req)); }
  }

  /**
   A promotion is a compare and swap: in every reachable state its commit step takes effect exactly when the artifact is
   registered in the family, the champion is still the artifact the process read (or still none) and its record is open;
   otherwise no table changes. It then makes the artifact champion, at the next generation unless it already was.
   */
  lemma PromotionComparesAndSwaps(past: seq<Action>, pid: nat, c: Choice)
    requires Proposing(Run(INITIAL, past), pid, c)
    ensures var s := Run(INITIAL, past);
            var s' := Next(s, Step(pid, c));
            var p := s.procs[pid];
            var f, a := FamilyOf(p.req), ArtifactKey(p.req.tenant, p.req.artifact);
            && (p.run in s'.commits <==>
                  && a in s.db.artifacts && s.db.artifacts[a].policy == p.req.family
                  && (if f in s.db.champions then p.seen.Some? && p.seen.value.artifact == s.db.champions[f].artifact else p.seen.None?)
                  && RecordOpen(s.db, KeyOf(p.req)))
            && (p.run !in s'.commits ==> s'.db == s.db)
            && (p.run in s'.commits ==>
                  && f in s'.db.champions && s'.db.champions[f].artifact == p.req.artifact
                  && s'.db.champions == s.db.champions[f := s'.db.champions[f]])
  {
    var s := Run(INITIAL, past);
    Reachable(past);
    assert ProcOk(s, s.procs[pid]);
    PromotionStep(s, pid, c);
  }

  lemma PromotionStep(s: State, pid: nat, c: Choice)
    requires Inv(s) && Proposing(s, pid, c) && s.procs[pid].run !in s.commits
    ensures var s' := Next(s, Step(pid, c));
            var p := s.procs[pid];
            var f, a := FamilyOf(p.req), ArtifactKey(p.req.tenant, p.req.artifact);
            && (p.run in s'.commits <==>
                  && a in s.db.artifacts && s.db.artifacts[a].policy == p.req.family
                  && (if f in s.db.champions then p.seen.Some? && p.seen.value.artifact == s.db.champions[f].artifact else p.seen.None?)
                  && RecordOpen(s.db, KeyOf(p.req)))
            && (p.run !in s'.commits ==> s'.db == s.db)
            && (p.run in s'.commits ==>
                  && f in s'.db.champions && s'.db.champions[f].artifact == p.req.artifact
                  && s'.db.champions == s.db.champions[f := s'.db.champions[f]])
  {
    var p := s.procs[pid];
    NotYetPromoted(s, pid);
    PromotionOutcome(s.db, p);
    assert Next(s, Step(pid, c)) == StepCommit(s, pid, p, c);
  }

  lemma PromotionOutcome(db: Database, p: Proc)
    requires Chain(db) && p.req.scope.PROMOTE? && ReceiptKey(Evidence, p.req.tenant, p.run) !in db.receipts
    requires KeyOf(p.req) in db.idempotency && db.idempotency[KeyOf(p.req)].status == COMPLETED ==>
               db.idempotency[KeyOf(p.req)].result != Some(ResponseOf(p))
    ensures var f, a := FamilyOf(p.req), ArtifactKey(p.req.tenant, p.req.artifact);
            var r := CommitPromotion(db, p);
            && (r.Ok? <==>
                  && a in db.artifacts && db.artifacts[a].policy == p.req.family
                  && (if f in db.champions then p.seen.Some? && p.seen.value.artifact == db.champions[f].artifact else p.seen.None?)
                  && RecordOpen(db, KeyOf(p.req)))
            && (r.Ok? ==>
                  && f in r.value.champions && r.value.champions[f].artifact == p.req.artifact
                  && r.value.champions == db.champions[f := r.value.champions[f]])
  {
    var f := FamilyOf(p.req);
    if f in db.champions { NextRowIsFree(db, f); } else { NoRows(db, f); }
  }

  lemma NoRows(db: Database, f: FamilyKey)
    requires Chain(db) && f !in db.champions
    ensures AuditKey(f, 1) !in db.audit
  {
    forall k | k in db.audit ensures k.family in db.champions { assert ChainRow(db, k); }
  }
}
