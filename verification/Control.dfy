/**
 The control plane as a protocol: any number of requests, each a small program of store
 transactions, interleaved step by step, with deaths, crashes and startup recovery between any
 two steps.

 `Next` is total: an action that is not enabled changes nothing, so a run is any sequence of
 actions. The last four fields of the state only observe; no step reads them.
 */
module Control {
  import opened Wrappers
  import opened Store

  // ----- Requests -----

  datatype Request = Request(scope: Scope, tenant: Id, key: Id, hash: Id, budget: Id, limit: nat,
                             units: nat, family: Id, artifact: Id, subject: Id)

  datatype Pc =
    | Start           // before the first claim in _idempotent
    | Opened          // inside operation()
    | Located         // rollback: champion read, audit row not yet read
    | Budgeted        // budget row created, nothing reserved
    | Working         // inside the try block
    | Undo            // except: release the reservation
    | Finally         // training: read the budget guard
    | FinallyRelease  // training: guard was true, release
    | FinallyLease    // training: give the lease back
    | Settled         // operation() returned; complete once more
    | Handling        // except in _idempotent: claim again
    | Failing         // mark the record FAILED
    | Done
    | Dead            // the request thread died where it was

  datatype Proc = Proc(req: Request, pc: Pc, run: Id, token: Option<nat>, seen: Option<Champion>, target: Id,
                       committed: bool)

  /** What the environment decides at a step: the clock, failures of the work, lease terms, the trained artifact. */
  datatype Choice = Choice(now: int, ok: bool, heartbeat: bool, ttl: int, artifact: Id, version: Id,
                           report: Id, errorType: Id)

  predicate Budgetary(scope: Scope) { scope.DECISION? || scope.BENCHMARK? || scope.TRAIN? }

  function KeyOf(q: Request): IdemKey { IdemKey(q.tenant, q.scope, q.key) }

  function BudgetOf(q: Request): BudgetKey { BudgetKey(q.tenant, q.budget) }

  function ReservationOf(p: Proc): ReservationKey {
    ReservationKey(BudgetOf(p.req),
                   match p.req.scope
                   case DECISION => DecisionRun(p.run)
                   case TRAIN => TrainingRunOf(p.run)
                   case _ => Attempt(p.req.key))
  }

  /** The resource of the original is `train:` followed by the family. */
  function LeaseOf(q: Request): LeaseKey { LeaseKey(q.tenant, q.family) }

  function FamilyOf(q: Request): FamilyKey { FamilyKey(q.tenant, q.family) }

  /** Every response carries a fresh id except the training one, which repeats the idempotency key. */
  function ResponseOf(p: Proc): Payload {
    Success(p.req.scope, if p.req.scope.TRAIN? then p.req.key else p.run)
  }

  function TokenOf(p: Proc): nat { if p.token.Some? then p.token.value else 0 }

  /** An artifact id is the hash of its content, which fixes the URI; the metadata is always the same. */
  function ArtifactOf(q: Request, c: Choice): Artifact { Artifact(q.family, c.version, c.artifact) }

  function TrainingRowOf(p: Proc, c: Choice): TrainingRun {
    TrainingRun(p.req.tenant, p.req.key, p.req.family, c.artifact, p.req.subject, TokenOf(p), c.report)
  }

  // ----- The commit transaction of each operation -----

  function CommitDecision(db: Database, p: Proc): Result<Database> {
    var db1 :- RecordReceipt(db, ReceiptKey(Experience, p.req.tenant, p.run));
    var db2 :- AppendEvent(db1, Event(p.req.tenant, p.run, p.req.scope));
    var db3 :- TransitionReservation(db2, ReservationOf(p), CONSUMED);
    FinishIdempotency(db3, KeyOf(p.req), COMPLETED, ResponseOf(p))
  }

  function CommitBenchmark(db: Database, p: Proc): Result<Database> {
    var db1 :- TransitionReservation(db, ReservationOf(p), CONSUMED);
    var db2 :- RecordReceipt(db1, ReceiptKey(Evidence, p.req.tenant, p.run));
    var db3 :- AppendEvent(db2, Event(p.req.tenant, p.run, p.req.scope));
    FinishIdempotency(db3, KeyOf(p.req), COMPLETED, ResponseOf(p))
  }

  /** The renewal at the head of the transaction is the fencing check. */
  function CommitTraining(db: Database, p: Proc, c: Choice): Result<Database> {
    var db1 :- RenewLease(db, LeaseOf(p.req), p.run, TokenOf(p), c.ttl, c.now);
    var db2 :- RegisterArtifact(db1, ArtifactKey(p.req.tenant, c.artifact), ArtifactOf(p.req, c));
    var db3 :- RecordTrainingRun(db2, TrainingRowOf(p, c));
    var db4 :- AppendEvent(db3, Event(p.req.tenant, p.run, p.req.scope));
    var db5 :- TransitionReservation(db4, ReservationOf(p), CONSUMED);
    FinishIdempotency(db5, KeyOf(p.req), COMPLETED, ResponseOf(p))
  }

  /** The champion this request compares against: what it read before its transaction. */
  function Expected(p: Proc): Option<Id> {
    if p.seen.Some? then Some(p.seen.value.artifact) else None
  }

  function CommitPromotion(db: Database, p: Proc): Result<Database> {
    var db1 :- RecordReceipt(db, ReceiptKey(Evidence, p.req.tenant, p.run));
    var db2 :- PromotePolicy(db1, FamilyOf(p.req), p.req.artifact, Expected(p));
    var db3 :- AppendEvent(db2, Event(p.req.tenant, p.run, p.req.scope));
    FinishIdempotency(db3, KeyOf(p.req), COMPLETED, ResponseOf(p))
  }

  function CommitRollback(db: Database, p: Proc): Result<Database> {
    var db1 :- PromotePolicy(db, FamilyOf(p.req), p.target, Expected(p));
    var db2 :- AppendEvent(db1, Event(p.req.tenant, p.run, p.req.scope));
    FinishIdempotency(db2, KeyOf(p.req), COMPLETED, ResponseOf(p))
  }

  function CommitEffect(db: Database, p: Proc, c: Choice): Result<Database> {
    match p.req.scope
    case DECISION => CommitDecision(db, p)
    case BENCHMARK => CommitBenchmark(db, p)
    case TRAIN => CommitTraining(db, p, c)
    case PROMOTE => CommitPromotion(db, p)
    case ROLLBACK => CommitRollback(db, p)
  }

  // ----- States and actions -----

  /** Observation of one committed effect: its record, the incarnation of that record, its table positions. */
  datatype Commit = Commit(key: IdemKey, serial: nat, reservation: Option<ReservationKey>, payload: Payload, index: nat,
                           row: nat)

  datatype State = State(
    db: Database,
    procs: map<nat, Proc>,
    up: bool,
    births: map<IdemKey, nat>,     // how often a record was inserted under each key
    commits: map<Id, Commit>,  // committed effects by run
    trainers: seq<Id>,         // the run behind each training row
    used: set<Id>)             // uuids drawn so far

  datatype Action =
    | Submit(pid: nat, req: Request, run: Id)
    | Step(who: nat, choice: Choice)
    | Die(victim: nat)
    | Crash
    | Recover(now: int)

  const INITIAL: State := State(EMPTY, map[], true, map[], map[], [], {})

  const CLAIM_TTL: Option<int> := Some(86_400)

  function Births(s: State, k: IdemKey): nat { if k in s.births then s.births[k] else 0 }

  function Goto(s: State, pid: nat, p: Proc, pc: Pc): State {
    s.(procs := s.procs[pid := p.(pc := pc)])
  }

  function Counted(s: State, k: IdemKey, isNew: bool): State {
    if isNew then s.(births := s.births[k := Births(s, k) + 1]) else s
  }

  /** Where an exception raised inside the operation goes. */
  function Aborted(q: Request): Pc {
    if q.scope.TRAIN? then Finally else if Budgetary(q.scope) then Undo else Handling
  }

  function StepStart(s: State, pid: nat, p: Proc, c: Choice): State {
    match ClaimIdempotency(s.db, KeyOf(p.req), p.req.hash, c.now, CLAIM_TTL)
    case Err(_) => Goto(s, pid, p, Done)
    case Ok(claim) => Goto(Counted(s.(db := claim.db), KeyOf(p.req), claim.isNew), pid, p, if claim.isNew then Opened else Done)
  }

  function StepOpened(s: State, pid: nat, p: Proc, c: Choice): State {
    var f := FamilyOf(p.req);
    var seen := if f in s.db.champions then Some(s.db.champions[f]) else None;
    if !c.ok then Goto(s, pid, p, Handling)
    else if p.req.scope.PROMOTE? then Goto(s, pid, p.(seen := seen), Working)
    else if p.req.scope.ROLLBACK? then
      Goto(s, pid, p.(seen := seen), if seen.None? then Handling else Located)
    else
      match CreateBudget(s.db, BudgetOf(p.req), p.req.limit)
      case Err(_) => Goto(s, pid, p, Handling)
      case Ok(db) => Goto(s.(db := db), pid, p, Budgeted)
  }

  /** The row of the generation read before, and its predecessor as the rollback target. */
  function RollbackTarget(db: Database, f: FamilyKey, seen: Champion): Result<Id> {
    var k := AuditKey(f, seen.generation);
    if k !in db.audit || db.audit[k].artifact != seen.artifact then Err(Conflict)
    else if db.audit[k].previous.None? then Err(Conflict)
    else Ok(db.audit[k].previous.value)
  }

  function StepLocated(s: State, pid: nat, p: Proc): State {
    if p.seen.None? then Goto(s, pid, p, Handling)
    else
      match RollbackTarget(s.db, FamilyOf(p.req), p.seen.value)
      case Err(_) => Goto(s, pid, p, Handling)
      case Ok(target) => Goto(s, pid, p.(target := target), Working)
  }

  function StepBudgeted(s: State, pid: nat, p: Proc): State {
    match ReserveBudget(s.db, ReservationOf(p), p.req.units)
    case Err(_) => Goto(s, pid, p, Handling)
    case Ok(db) => Goto(s.(db := db), pid, p, Working)
  }

  function StepLease(s: State, pid: nat, p: Proc, c: Choice): State {
    if p.token.None? then
      match AcquireLease(s.db, LeaseOf(p.req), p.run, c.ttl, c.now)
      case Err(_) => Goto(s, pid, p, Finally)
      case Ok(db) =>
        if LeaseOf(p.req) in db.leases then
          Goto(s.(db := db), pid, p.(token := Some(db.leases[LeaseOf(p.req)].token)), Working)
        else s
    else
      match RenewLease(s.db, LeaseOf(p.req), p.run, p.token.value, c.ttl, c.now)
      case Err(_) => Goto(s, pid, p, Finally)
      case Ok(db) => Goto(s.(db := db), pid, p, Working)
  }

  function StepCommit(s: State, pid: nat, p: Proc, c: Choice): State {
    match CommitEffect(s.db, p, c)
    case Err(_) => Goto(s, pid, p, Aborted(p.req))
    case Ok(db) =>
      var note := Commit(KeyOf(p.req), Births(s, KeyOf(p.req)),
                         if Budgetary(p.req.scope) then Some(ReservationOf(p)) else None,
                         ResponseOf(p), |s.db.events|, |s.db.training|);
      var s1 := s.(db := db, commits := s.commits[p.run := note],
                   trainers := if |db.training| > |s.db.training| then s.trainers + [p.run] else s.trainers);
      Goto(s1, pid, p.(committed := true), if p.req.scope.TRAIN? then Finally else Settled)
  }

  function StepWorking(s: State, pid: nat, p: Proc, c: Choice): State {
    if !c.ok then Goto(s, pid, p, Aborted(p.req))
    else if p.req.scope.TRAIN? && (p.token.None? || c.heartbeat) then StepLease(s, pid, p, c)
    else StepCommit(s, pid, p, c)
  }

  function ReleasedBy(db: Database, p: Proc): Database {
    match TransitionReservation(db, ReservationOf(p), RELEASED)
    case Err(_) => db
    case Ok(db') => db'
  }

  /** The training guard: release only if the budget row still shows reserved units. */
  predicate GuardSeesUnits(db: Database, p: Proc) {
    BudgetOf(p.req) in db.budgets && db.budgets[BudgetOf(p.req)].reserved > 0
  }

  function StepFinallyLease(s: State, pid: nat, p: Proc, c: Choice): State {
    var db :=
      if p.token.None? then s.db
      else match ReleaseLease(s.db, LeaseOf(p.req), p.run, p.token.value, c.now)
        case Err(_) => s.db
        case Ok(db') => db';
    Goto(s.(db := db), pid, p, if p.committed then Settled else Handling)
  }

  /** A failure after the commit is a failing metric update; a decision makes it inside its try block. */
  function StepSettled(s: State, pid: nat, p: Proc, c: Choice): State {
    if !c.ok && !p.req.scope.TRAIN? then Goto(s, pid, p, if p.req.scope.DECISION? then Undo else Handling)
    else
      match FinishIdempotency(s.db, KeyOf(p.req), COMPLETED, ResponseOf(p))
      case Err(_) => Goto(s, pid, p, Handling)
      case Ok(db) => Goto(s.(db := db), pid, p, Done)
  }

  function StepHandling(s: State, pid: nat, p: Proc, c: Choice): State {
    match ClaimIdempotency(s.db, KeyOf(p.req), p.req.hash, c.now, CLAIM_TTL)
    case Err(_) => Goto(s, pid, p, Done)
    case Ok(claim) =>
      Goto(Counted(s.(db := claim.db), KeyOf(p.req), claim.isNew), pid, p,
           if claim.record.status == COMPLETED then Done else Failing)
  }

  function StepFailing(s: State, pid: nat, p: Proc, c: Choice): State {
    match FinishIdempotency(s.db, KeyOf(p.req), FAILED, Failure(c.errorType))
    case Err(_) => Goto(s, pid, p, Done)
    case Ok(db) => Goto(s.(db := db), pid, p, Done)
  }

  function StepProc(s: State, pid: nat, c: Choice): State
    requires pid in s.procs
  {
    var p := s.procs[pid];
    match p.pc
    case Start => StepStart(s, pid, p, c)
    case Opened => StepOpened(s, pid, p, c)
    case Located => StepLocated(s, pid, p)
    case Budgeted => StepBudgeted(s, pid, p)
    case Working => StepWorking(s, pid, p, c)
    case Undo => Goto(s.(db := ReleasedBy(s.db, p)), pid, p, Handling)
    case Finally => Goto(s, pid, p, if GuardSeesUnits(s.db, p) then FinallyRelease else FinallyLease)
    case FinallyRelease => Goto(s.(db := ReleasedBy(s.db, p)), pid, p, FinallyLease)
    case FinallyLease => StepFinallyLease(s, pid, p, c)
    case Settled => StepSettled(s, pid, p, c)
    case Handling => StepHandling(s, pid, p, c)
    case Failing => StepFailing(s, pid, p, c)
    case Done => s
    case Dead => s
  }

  ghost function Next(s: State, a: Action): State {
    match a
    case Submit(pid, req, run) =>
      if s.up && pid !in s.procs && run !in s.used then
        s.(procs := s.procs[pid := Proc(req, Start, run, None, None, 0, false)], used := s.used + {run})
      else s
    case Step(pid, c) => if s.up && pid in s.procs then StepProc(s, pid, c) else s
    case Die(pid) => if s.up && pid in s.procs && s.procs[pid].pc != Done then Goto(s, pid, s.procs[pid], Dead) else s
    case Crash => s.(procs := map[], up := false)
    case Recover(now) =>
      if s.up then s
      else match Reconcile(s.db, now)
        case Err(_) => s
        case Ok(db) => s.(db := db, up := true)
  }

  ghost function Run(s: State, actions: seq<Action>): State
    decreases |actions|
  {
    if actions == [] then s else Next(Run(s, actions[..|actions| - 1]), actions[|actions| - 1])
  }
}
