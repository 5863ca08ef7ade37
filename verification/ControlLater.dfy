/** What no later step of the control plane can take back: tombstones, fencing tokens, audit rows. */
module ControlLater {
  import opened Wrappers
  import opened Store
  import opened Control
  import opened ControlInvariant
  import opened ControlSteps
  import opened ControlBudget
  import opened ControlCommit
  import opened ControlTheorems

  // ----- Tombstones and tokens only move forward -----

  /** The tombstone row is the same, its key was not claimed again, and no effect was committed under it. */
  ghost predicate Buried(s: State, s': State, k: IdemKey) {
    IsTombstone(s.db, k) ==>
      && k in s'.db.idempotency && s'.db.idempotency[k] == s.db.idempotency[k]
      && Births(s', k) == Births(s, k)
      && forall r :: r in s'.commits && s'.commits[r].key == k ==> r in s.commits && s.commits[r] == s'.commits[r]
  }

  ghost predicate TokenKept(s: State, s': State, k: LeaseKey) {
    k in s.db.leases ==> k in s'.db.leases && s'.db.leases[k].token >= s.db.leases[k].token
  }

  ghost predicate Later(s: State, s': State) {
    && (forall k :: Buried(s, s', k))
    && (forall k :: TokenKept(s, s', k))
  }

  /** Only the idempotency and lease tables and the observations matter. */
  lemma SameLater(s: State, s1: State, s': State)
    requires Later(s, s1) && s'.db.idempotency == s1.db.idempotency && s'.db.leases == s1.db.leases
    requires s'.births == s1.births && s'.commits == s1.commits
    ensures Later(s, s')
  {
    forall k ensures Buried(s, s', k) { assert Buried(s, s1, k); }
    forall k ensures TokenKept(s, s', k) { assert TokenKept(s, s1, k); }
  }

  lemma ClaimLater(s: State, p: Proc, c: Choice)
    ensures Later(s, AfterClaim(s, p, c))
  {
  }

  lemma FinishLater(s: State, k: IdemKey, status: IdemStatus, result: Payload)
    ensures Later(s, Finished(s, k, status, result))
  {
  }

  lemma CommitLater(s: State, pid: nat, p: Proc, c: Choice)
    requires p.run !in s.commits
    ensures Later(s, StepCommit(s, pid, p, c))
  {
    if CommitEffect(s.db, p, c).Ok? {
      CommitTables(s, p, c);
    }
  }

  lemma StartLater(s: State, pid: nat, p: Proc, c: Choice)
    ensures Later(s, StepStart(s, pid, p, c))
  {
    ClaimLater(s, p, c);
    SameLater(s, AfterClaim(s, p, c), StepStart(s, pid, p, c));
  }

  lemma HandlingLater(s: State, pid: nat, p: Proc, c: Choice)
    ensures Later(s, StepHandling(s, pid, p, c))
  {
    ClaimLater(s, p, c);
    SameLater(s, AfterClaim(s, p, c), StepHandling(s, pid, p, c));
  }

  lemma SettledLater(s: State, pid: nat, p: Proc, c: Choice)
    ensures Later(s, StepSettled(s, pid, p, c))
  {
    if c.ok || p.req.scope.TRAIN? {
      FinishLater(s, KeyOf(p.req), COMPLETED, ResponseOf(p));
      SameLater(s, Finished(s, KeyOf(p.req), COMPLETED, ResponseOf(p)), StepSettled(s, pid, p, c));
    } else {
      SameLater(s, s, StepSettled(s, pid, p, c));
    }
  }

  lemma FailingLater(s: State, pid: nat, p: Proc, c: Choice)
    ensures Later(s, StepFailing(s, pid, p, c))
  {
    FinishLater(s, KeyOf(p.req), FAILED, Failure(c.errorType));
    SameLater(s, Finished(s, KeyOf(p.req), FAILED, Failure(c.errorType)), StepFailing(s, pid, p, c));
  }

  /** One lease changed, forward. */
  lemma LeasedLater(s: State, s': State)
    requires s'.db.idempotency == s.db.idempotency && s'.births == s.births && s'.commits == s.commits
    requires forall k :: TokenKept(s, s', k)
    ensures Later(s, s')
  {
  }

  lemma AcquiredLater(s: State, row: Lease, k: LeaseKey, holder: Id, ttl: int, now: int)
    requires AcquiredRow(s.db.leases, k, holder, ttl, now) == Ok(row)
    ensures Later(s, s.(db := s.db.(leases := s.db.leases[k := row])))
  {
    LeasedLater(s, s.(db := s.db.(leases := s.db.leases[k := row])));
  }

  lemma AcquireLater(s: State, pid: nat, p: Proc, c: Choice)
    requires p.token.None?
    ensures Later(s, StepLease(s, pid, p, c))
  {
    var k := LeaseOf(p.req);
    match AcquiredRow(s.db.leases, k, p.run, c.ttl, c.now)
    case Ok(row) =>
      AcquiredLater(s, row, k, p.run, c.ttl, c.now);
      SameLater(s, s.(db := s.db.(leases := s.db.leases[k := row])), StepLease(s, pid, p, c));
    case Err(_) => SameLater(s, s, StepLease(s, pid, p, c));
  }

  lemma RenewedLater(s: State, db: Database, k: LeaseKey, holder: Id, token: nat, ttl: int, now: int)
    requires RenewLease(s.db, k, holder, token, ttl, now) == Ok(db)
    ensures Later(s, s.(db := db))
  {
    LeasedLater(s, s.(db := db));
  }

  lemma RenewLater(s: State, pid: nat, p: Proc, c: Choice)
    requires p.token.Some?
    ensures Later(s, StepLease(s, pid, p, c))
  {
    match RenewLease(s.db, LeaseOf(p.req), p.run, p.token.value, c.ttl, c.now)
    case Ok(db) =>
      RenewedLater(s, db, LeaseOf(p.req), p.run, p.token.value, c.ttl, c.now);
      SameLater(s, s.(db := db), StepLease(s, pid, p, c));
    case Err(_) => SameLater(s, s, StepLease(s, pid, p, c));
  }

  lemma LeaseLater(s: State, pid: nat, p: Proc, c: Choice)
    ensures Later(s, StepLease(s, pid, p, c))
  {
    if p.token.None? { AcquireLater(s, pid, p, c); } else { RenewLater(s, pid, p, c); }
  }

  lemma FinallyLeaseLater(s: State, pid: nat, p: Proc, c: Choice)
    ensures Later(s, StepFinallyLease(s, pid, p, c))
  {
    LeasedLater(s, StepFinallyLease(s, pid, p, c));
  }

  lemma WorkingLater(s: State, pid: nat, p: Proc, c: Choice)
    requires p.run !in s.commits
    ensures Later(s, StepWorking(s, pid, p, c))
  {
    if !c.ok {
      SameLater(s, s, StepWorking(s, pid, p, c));
    } else if p.req.scope.TRAIN? && (p.token.None? || c.heartbeat) {
      LeaseLater(s, pid, p, c);
    } else {
      CommitLater(s, pid, p, c);
    }
  }

  lemma OpenedLater(s: State, pid: nat, p: Proc, c: Choice)
    ensures Later(s, StepOpened(s, pid, p, c))
  {
    SameLater(s, s, StepOpened(s, pid, p, c));
  }

  lemma LocatedLater(s: State, pid: nat, p: Proc)
    ensures Later(s, StepLocated(s, pid, p))
  {
    SameLater(s, s, StepLocated(s, pid, p));
  }

  lemma BudgetedLater(s: State, pid: nat, p: Proc)
    ensures Later(s, StepBudgeted(s, pid, p))
  {
    SameLater(s, s, StepBudgeted(s, pid, p));
  }

  lemma FreedLater(s: State, pid: nat, p: Proc, pc: Pc)
    ensures Later(s, Goto(s.(db := ReleasedBy(s.db, p)), pid, p, pc))
  {
    SameLater(s, s, Goto(s.(db := ReleasedBy(s.db, p)), pid, p, pc));
  }

  lemma StepLater(s: State, pid: nat, c: Choice)
    requires pid in s.procs && ProcOk(s, s.procs[pid])
    ensures Later(s, StepProc(s, pid, c))
  {
    var p := s.procs[pid];
    match p.pc
    case Start => StartLater(s, pid, p, c);
    case Opened => OpenedLater(s, pid, p, c);
    case Located => LocatedLater(s, pid, p);
    case Budgeted => BudgetedLater(s, pid, p);
    case Working => WorkingLater(s, pid, p, c);
    case Undo => FreedLater(s, pid, p, Handling);
    case Finally => SameLater(s, s, StepProc(s, pid, c));
    case FinallyRelease => FreedLater(s, pid, p, FinallyLease);
    case FinallyLease => FinallyLeaseLater(s, pid, p, c);
    case Settled => SettledLater(s, pid, p, c);
    case Handling => HandlingLater(s, pid, p, c);
    case Failing => FailingLater(s, pid, p, c);
    case Done =>
    case Dead =>
  }

  lemma NoneLater(s: State)
    ensures Later(s, s)
  {
  }

  lemma RecoverLater(s: State, now: int)
    requires Inv(s)
    ensures Later(s, Next(s, Recover(now)))
  {
    var s' := Next(s, Recover(now));
    forall k ensures Buried(s, s', k) { }
    forall k ensures TokenKept(s, s', k) { }
  }

  lemma NextLater(s: State, a: Action)
    requires Inv(s)
    ensures Later(s, Next(s, a))
  {
    NoneLater(s);
    match a
    case Step(pid, c) =>
      if s.up && pid in s.procs {
        assert ProcOk(s, s.procs[pid]);
        StepLater(s, pid, c);
      }
    case Recover(now) => RecoverLater(s, now);
    case _ => SameLater(s, s, Next(s, a));
  }

  lemma LaterTransitive(s: State, t: State, u: State)
    requires Later(s, t) && Later(t, u)
    ensures Later(s, u)
  {
    forall k ensures Buried(s, u, k) {
      assert Buried(s, t, k) && Buried(t, u, k);
    }
    forall k ensures TokenKept(s, u, k) {
      assert TokenKept(s, t, k) && TokenKept(t, u, k);
    }
  }

  lemma {:induction false} RunLater(s: State, actions: seq<Action>)
    requires Inv(s)
    ensures Later(s, Run(s, actions))
    decreases |actions|
  {
    if actions != [] {
      var before := actions[..|actions| - 1];
      RunLater(s, before);
      RunKeeps(s, before);
      NextLater(Run(s, before), actions[|actions| - 1]);
      LaterTransitive(s, Run(s, before), Run(s, actions));
    }
  }

  /** A key interrupted by a crash is never deleted, changed, executed or given an effect again. */
  lemma TombstonesAreForever(past: seq<Action>, future: seq<Action>, k: IdemKey)
    requires IsTombstone(Run(INITIAL, past).db, k)
    ensures var s, s' := Run(INITIAL, past), Run(Run(INITIAL, past), future);
            && k in s'.db.idempotency && s'.db.idempotency[k] == s.db.idempotency[k]
            && Births(s', k) == Births(s, k)
            && forall r :: r in s'.commits && s'.commits[r].key == k ==> r in s.commits
  {
    Reachable(past);
    RunLater(Run(INITIAL, past), future);
    assert Buried(Run(INITIAL, past), Run(Run(INITIAL, past), future), k);
  }

  // ----- Fenced training -----

  /** The lease moved on and the worker `run` still carries the old token. */
  ghost predicate Superseded(s: State, run: Id, k: LeaseKey, token: nat) {
    && run in s.used && run !in s.commits
    && k in s.db.leases && s.db.leases[k].token > token
    && forall pid :: pid in s.procs && s.procs[pid].run == run ==>
         s.procs[pid].token == Some(token) && s.procs[pid].req.scope.TRAIN? && LeaseOf(s.procs[pid].req) == k
  }

  /** The process kept its identity and its token, and nothing was committed. */
  ghost predicate Idle(s: State, s': State, pid: nat, token: Option<nat>)
    requires pid in s.procs
  {
    && s'.commits == s.commits && s'.used == s.used
    && pid in s'.procs && s'.procs == s.procs[pid := s'.procs[pid]]
    && s'.procs[pid].run == s.procs[pid].run && s'.procs[pid].req == s.procs[pid].req
    && s'.procs[pid].token == token
  }

  lemma IdleClaims(s: State, pid: nat, p: Proc, c: Choice)
    requires pid in s.procs && p == s.procs[pid]
    ensures Idle(s, StepStart(s, pid, p, c), pid, p.token)
    ensures Idle(s, StepHandling(s, pid, p, c), pid, p.token)
  {
  }

  lemma IdleFinishes(s: State, pid: nat, p: Proc, c: Choice)
    requires pid in s.procs && p == s.procs[pid]
    ensures Idle(s, StepSettled(s, pid, p, c), pid, p.token)
    ensures Idle(s, StepFailing(s, pid, p, c), pid, p.token)
  {
  }

  lemma IdleOpened(s: State, pid: nat, p: Proc, c: Choice)
    requires pid in s.procs && p == s.procs[pid]
    ensures Idle(s, StepOpened(s, pid, p, c), pid, p.token)
  {
  }

  lemma IdleReads(s: State, pid: nat, p: Proc)
    requires pid in s.procs && p == s.procs[pid]
    ensures Idle(s, StepLocated(s, pid, p), pid, p.token)
    ensures Idle(s, StepBudgeted(s, pid, p), pid, p.token)
  {
  }

  lemma IdleReleases(s: State, pid: nat, p: Proc, c: Choice, pc: Pc)
    requires pid in s.procs && p == s.procs[pid]
    ensures Idle(s, StepFinallyLease(s, pid, p, c), pid, p.token)
    ensures Idle(s, Goto(s.(db := ReleasedBy(s.db, p)), pid, p, pc), pid, p.token)
  {
  }

  /** Neither the heartbeat nor the commit passes the fencing check with an old token. */
  lemma FencedOut(s: State, pid: nat, p: Proc, c: Choice)
    requires pid in s.procs && p == s.procs[pid] && p.req.scope.TRAIN? && p.token.Some?
    requires LeaseOf(p.req) in s.db.leases && s.db.leases[LeaseOf(p.req)].token > p.token.value
    ensures Idle(s, StepWorking(s, pid, p, c), pid, p.token)
  {
    assert RenewLease(s.db, LeaseOf(p.req), p.run, TokenOf(p), c.ttl, c.now).Err?;
    assert CommitEffect(s.db, p, c).Err?;
  }

  /** Another process may gain a token or commit, under its own run. */
  ghost predicate Other(s: State, s': State, pid: nat, run: Id)
    requires pid in s.procs
  {
    && run !in s'.commits && s'.used == s.used
    && pid in s'.procs && s'.procs == s.procs[pid := s'.procs[pid]] && s'.procs[pid].run == s.procs[pid].run
  }

  lemma OthersLease(s: State, pid: nat, p: Proc, c: Choice, run: Id)
    requires pid in s.procs && p == s.procs[pid] && run !in s.commits
    ensures Other(s, StepLease(s, pid, p, c), pid, run)
  {
  }

  lemma OthersCommit(s: State, pid: nat, p: Proc, c: Choice, run: Id)
    requires pid in s.procs && p == s.procs[pid] && p.run != run && run !in s.commits
    ensures Other(s, StepCommit(s, pid, p, c), pid, run)
  {
  }

  lemma OthersWork(s: State, pid: nat, p: Proc, c: Choice, run: Id)
    requires pid in s.procs && p == s.procs[pid] && p.run != run && run !in s.commits
    ensures Other(s, StepWorking(s, pid, p, c), pid, run)
  {
    OthersLease(s, pid, p, c, run);
    OthersCommit(s, pid, p, c, run);
  }

  /** No step commits for the superseded worker or changes what it holds. */
  lemma SupersededStep(s: State, pid: nat, c: Choice, run: Id, k: LeaseKey, token: nat)
    requires Superseded(s, run, k, token) && pid in s.procs
    ensures var s' := StepProc(s, pid, c);
            && run !in s'.commits && s'.used == s.used
            && pid in s'.procs && s'.procs == s.procs[pid := s'.procs[pid]]
            && s'.procs[pid].run == s.procs[pid].run
            && (s.procs[pid].run == run ==> s'.procs[pid].token == Some(token) && s'.procs[pid].req == s.procs[pid].req)
  {
    var p := s.procs[pid];
    match p.pc
    case Start => IdleClaims(s, pid, p, c);
    case Opened => IdleOpened(s, pid, p, c);
    case Located => IdleReads(s, pid, p);
    case Budgeted => IdleReads(s, pid, p);
    case Working => if p.run == run { FencedOut(s, pid, p, c); } else { OthersWork(s, pid, p, c, run); }
    case Undo => IdleReleases(s, pid, p, c, Handling);
    case Finally =>
    case FinallyRelease => IdleReleases(s, pid, p, c, FinallyLease);
    case FinallyLease => IdleReleases(s, pid, p, c, Done);
    case Settled => IdleFinishes(s, pid, p, c);
    case Handling => IdleClaims(s, pid, p, c);
    case Failing => IdleFinishes(s, pid, p, c);
    case Done =>
    case Dead =>
  }

  lemma SupersededNext(s: State, a: Action, run: Id, k: LeaseKey, token: nat)
    requires Inv(s) && Superseded(s, run, k, token)
    ensures Superseded(Next(s, a), run, k, token)
  {
    NextLater(s, a);
    assert TokenKept(s, Next(s, a), k);
    if a.Step? && s.up && a.who in s.procs {
      SupersededStep(s, a.who, a.choice, run, k, token);
    }
  }

  lemma {:induction false} SupersededRun(s: State, actions: seq<Action>, run: Id, k: LeaseKey, token: nat)
    requires Inv(s) && Superseded(s, run, k, token)
    ensures Superseded(Run(s, actions), run, k, token)
    decreases |actions|
  {
    if actions != [] {
      var before := actions[..|actions| - 1];
      SupersededRun(s, before, run, k, token);
      RunKeeps(s, before);
      SupersededNext(Run(s, before), actions[|actions| - 1], run, k, token);
    }
  }

  /** A worker whose lease was taken over never commits, whatever happens next. */
  lemma TakenOverWorkerNeverCommits(past: seq<Action>, future: seq<Action>, pid: nat)
    requires var s := Run(INITIAL, past);
             && pid in s.procs && s.procs[pid].req.scope.TRAIN? && s.procs[pid].token.Some? && !s.procs[pid].committed
             && LeaseOf(s.procs[pid].req) in s.db.leases
             && s.db.leases[LeaseOf(s.procs[pid].req)].token > s.procs[pid].token.value
    ensures var run := Run(INITIAL, past).procs[pid].run;
            var s' := Run(Run(INITIAL, past), future);
            && run !in s'.commits && run !in s'.trainers && forall i :: 0 <= i < |s'.db.events| ==> s'.db.events[i].eventId != run
  {
    var s := Run(INITIAL, past);
    var p := s.procs[pid];
    Reachable(past);
    assert ProcOk(s, p);
    SupersededRun(s, future, p.run, LeaseOf(p.req), p.token.value);
    RunKeeps(s, future);
  }

  /** In every reachable state the training rows of one family carry strictly increasing tokens. */
  lemma TrainingIsFenced(actions: seq<Action>, i: nat, j: nat)
    requires var rows := Run(INITIAL, actions).db.training;
             i < j < |rows| && rows[i].tenant == rows[j].tenant && rows[i].policy == rows[j].policy
    ensures var rows := Run(INITIAL, actions).db.training;
            rows[i].token < rows[j].token
  {
    Reachable(actions);
  }

  // ----- Champions -----

  /** In every reachable state the audit trail of a family is the chain 1..n and ends in the champion. */
  lemma PromotionChainHolds(actions: seq<Action>, f: FamilyKey)
    requires f in Run(INITIAL, actions).db.champions
    ensures TrailIsChain(Run(INITIAL, actions).db, f)
  {
    Reachable(actions);
    ChainedTrail(Run(INITIAL, actions).db, f);
  }

  /** The generations are 1..n, each row names the row before it and differs from it, and the champion is row n. */
  ghost predicate TrailIsChain(db: Database, f: FamilyKey)
    requires f in db.champions
  {
    var n := db.champions[f].generation;
    && n >= 1
    && (forall g: nat :: AuditKey(f, g) in db.audit <==> 1 <= g <= n)
    && db.audit[AuditKey(f, n)].artifact == db.champions[f].artifact
    && db.audit[AuditKey(f, 1)].previous == None
    && (forall g :: 1 < g <= n ==>
          && db.audit[AuditKey(f, g)].previous == Some(db.audit[AuditKey(f, g - 1)].artifact)
          && db.audit[AuditKey(f, g)].artifact != db.audit[AuditKey(f, g - 1)].artifact)
  }

  lemma ChainedTrail(db: Database, f: FamilyKey)
    requires Chain(db) && f in db.champions
    ensures TrailIsChain(db, f)
  {
    var n := db.champions[f].generation;
    forall g: nat | AuditKey(f, g) in db.audit ensures 1 <= g <= n { assert ChainRow(db, AuditKey(f, g)); }
    forall g: nat | 1 <= g <= n ensures AuditKey(f, g) in db.audit { RowsGoDown(db, f, n, g); }
    forall g | 1 < g <= n
      ensures db.audit[AuditKey(f, g)].previous == Some(db.audit[AuditKey(f, g - 1)].artifact)
      ensures db.audit[AuditKey(f, g)].artifact != db.audit[AuditKey(f, g - 1)].artifact
    { assert ChainRow(db, AuditKey(f, g)); }
    assert ChainRow(db, AuditKey(f, 1));
  }

  lemma {:induction false} RowsGoDown(db: Database, f: FamilyKey, n: nat, g: nat)
    requires Chain(db) && AuditKey(f, n) in db.audit && 1 <= g <= n
    ensures AuditKey(f, g) in db.audit
    decreases n - g
  {
    if g < n {
      RowsGoDown(db, f, n, g + 1);
      assert ChainRow(db, AuditKey(f, g + 1));
    }
  }

  /** Audit rows are append-only. */
  ghost predicate AuditKept(db: Database, db': Database) {
    forall k :: k in db.audit ==> k in db'.audit && db'.audit[k] == db.audit[k]
  }

  lemma StartSkipsAudit(s: State, pid: nat, p: Proc, c: Choice)
    ensures StepStart(s, pid, p, c).db.audit == s.db.audit
  {
    match ClaimIdempotency(s.db, KeyOf(p.req), p.req.hash, c.now, CLAIM_TTL)
    case Err(_) =>
    case Ok(claim) => assert claim.db.audit == s.db.audit;
  }

  lemma HandlingSkipsAudit(s: State, pid: nat, p: Proc, c: Choice)
    ensures StepHandling(s, pid, p, c).db.audit == s.db.audit
  {
    match ClaimIdempotency(s.db, KeyOf(p.req), p.req.hash, c.now, CLAIM_TTL)
    case Err(_) =>
    case Ok(claim) => assert claim.db.audit == s.db.audit;
  }

  lemma SettledSkipsAudit(s: State, pid: nat, p: Proc, c: Choice)
    ensures StepSettled(s, pid, p, c).db.audit == s.db.audit
  {
  }

  lemma FailingSkipsAudit(s: State, pid: nat, p: Proc, c: Choice)
    ensures StepFailing(s, pid, p, c).db.audit == s.db.audit
  {
  }

  lemma OpenedSkipsAudit(s: State, pid: nat, p: Proc, c: Choice)
    ensures StepOpened(s, pid, p, c).db.audit == s.db.audit
  {
  }

  lemma LocatedSkipsAudit(s: State, pid: nat, p: Proc)
    ensures StepLocated(s, pid, p).db.audit == s.db.audit
  {
  }

  lemma BudgetedSkipsAudit(s: State, pid: nat, p: Proc)
    ensures StepBudgeted(s, pid, p).db.audit == s.db.audit
  {
  }

  lemma LeaseSkipsAudit(s: State, pid: nat, p: Proc, c: Choice)
    ensures StepLease(s, pid, p, c).db.audit == s.db.audit
  {
    if p.token.None? {
      match AcquiredRow(s.db.leases, LeaseOf(p.req), p.run, c.ttl, c.now)
      case Err(_) =>
      case Ok(row) => GotoSkipsAudit(s, s.db.leases[LeaseOf(p.req) := row], pid, p.(token := Some(row.token)), Working);
    }
  }

  lemma GotoSkipsAudit(s: State, leases: map<LeaseKey, Lease>, pid: nat, p: Proc, pc: Pc)
    ensures Goto(s.(db := s.db.(leases := leases)), pid, p, pc).db.audit == s.db.audit
  {
  }

  lemma FinallyLeaseSkipsAudit(s: State, pid: nat, p: Proc, c: Choice)
    ensures StepFinallyLease(s, pid, p, c).db.audit == s.db.audit
  {
  }

  lemma StepKeepsAudit(s: State, pid: nat, p: Proc, c: Choice)
    requires pid in s.procs && p == s.procs[pid]
    ensures AuditKept(s.db, StepProc(s, pid, c).db)
  {
    match p.pc
    case Start => StartSkipsAudit(s, pid, p, c);
    case Opened => OpenedSkipsAudit(s, pid, p, c);
    case Located => LocatedSkipsAudit(s, pid, p);
    case Budgeted => BudgetedSkipsAudit(s, pid, p);
    case Working =>
      LeaseSkipsAudit(s, pid, p, c);
      CommitAppendsAudit(s, pid, p, c);
    case Undo =>
    case Finally =>
    case FinallyRelease =>
    case FinallyLease => FinallyLeaseSkipsAudit(s, pid, p, c);
    case Settled => SettledSkipsAudit(s, pid, p, c);
    case Handling => HandlingSkipsAudit(s, pid, p, c);
    case Failing => FailingSkipsAudit(s, pid, p, c);
    case Done =>
    case Dead =>
  }

  lemma CommitAppendsAudit(s: State, pid: nat, p: Proc, c: Choice)
    ensures AuditKept(s.db, StepCommit(s, pid, p, c).db)
  {
    if CommitEffect(s.db, p, c).Ok? {
      CommitTables(s, p, c);
      if p.req.scope.PROMOTE? {
        PromotionAppends(s.db, p);
      } else if p.req.scope.ROLLBACK? {
        RollbackAppends(s.db, p);
      }
    }
  }

  lemma PromotionAppends(db: Database, p: Proc)
    requires CommitPromotion(db, p).Ok?
    ensures AuditKept(db, CommitPromotion(db, p).value)
  {
  }

  lemma RollbackAppends(db: Database, p: Proc)
    requires CommitRollback(db, p).Ok?
    ensures AuditKept(db, CommitRollback(db, p).value)
  {
  }

  lemma NextKeepsAudit(s: State, a: Action)
    ensures AuditKept(s.db, Next(s, a).db)
  {
    if a.Step? && s.up && a.who in s.procs {
      StepKeepsAudit(s, a.who, s.procs[a.who], a.choice);
    }
  }

  lemma {:induction false} RunKeepsAudit(s: State, actions: seq<Action>)
    ensures AuditKept(s.db, Run(s, actions).db)
    decreases |actions|
  {
    if actions != [] {
      RunKeepsAudit(s, actions[..|actions| - 1]);
      NextKeepsAudit(Run(s, actions[..|actions| - 1]), actions[|actions| - 1]);
    }
  }
}
