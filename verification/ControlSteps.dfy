/** Every action of the control-plane protocol keeps the invariant. */
module ControlSteps {
  import opened Wrappers
  import opened Store
  import opened Control
  import opened ControlInvariant

  // ----- Claims and completions -----

  lemma ClaimKeeps(s: State, k: IdemKey, hash: Id, now: int)
    requires Idempotency(s) && ClaimIdempotency(s.db, k, hash, now, CLAIM_TTL).Ok?
    ensures var claim := ClaimIdempotency(s.db, k, hash, now, CLAIM_TTL).value;
            Idempotency(Counted(s.(db := claim.db), k, claim.isNew))
  {
    var claim := ClaimIdempotency(s.db, k, hash, now, CLAIM_TTL).value;
    var s' := Counted(s.(db := claim.db), k, claim.isNew);
    forall j | j in s'.db.idempotency ensures RecordOk(s', j) {
      if j in s.db.idempotency { assert RecordOk(s, j); }
    }
    forall r | r in s'.commits ensures Answered(s', r) {
      assert Answered(s, r);
    }
  }

  lemma FinishKeeps(s: State, k: IdemKey, status: IdemStatus, result: Payload)
    requires Idempotency(s) && FinishIdempotency(s.db, k, status, result).Ok?
    requires status == COMPLETED ==> exists r :: r in s.commits && s.commits[r].key == k && s.commits[r].payload == result
    ensures Idempotency(s.(db := FinishIdempotency(s.db, k, status, result).value))
  {
    var s' := s.(db := FinishIdempotency(s.db, k, status, result).value);
    forall j | j in s'.db.idempotency ensures RecordOk(s', j) { assert RecordOk(s, j); }
    forall r | r in s'.commits ensures Answered(s', r) { assert Answered(s, r); }
  }

  lemma SameRecords(s: State, s': State)
    requires Idempotency(s) && s'.db.idempotency == s.db.idempotency && s'.commits == s.commits && s'.births == s.births
    ensures Idempotency(s')
  {
    forall k | k in s'.db.idempotency ensures RecordOk(s', k) { assert RecordOk(s, k); }
    forall r | r in s'.commits ensures Answered(s', r) { assert Answered(s, r); }
  }

  // ----- Frames: an invariant depends on its own tables only -----

  lemma SameLedger(db: Database, db': Database)
    requires Ledger(db) && db'.budgets == db.budgets && db'.reservations == db.reservations
    ensures Ledger(db')
  {
    forall b | b in db'.budgets ensures LedgerRow(db', b) { assert LedgerRow(db, b); }
  }

  lemma SameChain(db: Database, db': Database)
    requires Chain(db) && db'.champions == db.champions && db'.audit == db.audit && db'.artifacts == db.artifacts
    ensures Chain(db')
  {
    forall k | k in db'.audit ensures ChainRow(db', k) { assert ChainRow(db, k); }
  }

  lemma SameEffects(s: State, s': State)
    requires Effects(s) && s'.commits == s.commits && s'.trainers == s.trainers
    requires s'.db.events == s.db.events && s'.db.receipts == s.db.receipts && s'.db.reservations == s.db.reservations
    ensures Effects(s')
  {
    forall r | r in s'.commits ensures CommitOk(s', r) { assert CommitOk(s, r); }
  }

  /** One process moved; it keeps its identity. */
  ghost predicate Moved(s: State, s': State, pid: nat) {
    && pid in s.procs && pid in s'.procs
    && s'.procs == s.procs[pid := s'.procs[pid]]
    && s'.procs[pid].run == s.procs[pid].run && s'.procs[pid].req == s.procs[pid].req
  }

  lemma MovedProcs(s: State, s': State, pid: nat)
    requires Procs(s) && Moved(s, s', pid) && s'.commits == s.commits && s'.used == s.used && ProcOk(s', s'.procs[pid])
    ensures Procs(s')
  {
    forall i | i in s'.procs ensures ProcOk(s', s'.procs[i]) { assert i != pid ==> ProcOk(s, s.procs[i]); }
  }

  /** The process left no RESERVED row behind: it still holds its reservation or the row is settled. */
  ghost predicate Settles(s: State, s': State, pid: nat)
    requires pid in s.procs && pid in s'.procs
  {
    var k := ReservationOf(s.procs[pid]);
    k in s'.db.reservations && s'.db.reservations[k].status == RESERVED && Holds(s.procs[pid], k) ==> Holds(s'.procs[pid], k)
  }

  lemma MovedHolders(s: State, s': State, pid: nat)
    requires Holders(s) && s.up && Moved(s, s', pid) && Settles(s, s', pid)
    requires forall k :: k in s'.db.reservations && s'.db.reservations[k].status == RESERVED ==>
               (k in s.db.reservations && s.db.reservations[k].status == RESERVED) || Holds(s'.procs[pid], k)
    ensures Holders(s')
  {
    forall k | k in s'.db.reservations && s'.db.reservations[k].status == RESERVED
      ensures exists i :: i in s'.procs && Holds(s'.procs[i], k)
    {
      if !Holds(s'.procs[pid], k) {
        var i :| i in s.procs && Holds(s.procs[i], k);
        assert i != pid;
        assert Holds(s'.procs[i], k);
      }
    }
  }

  lemma MovedTraining(s: State, s': State, pid: nat)
    requires Training(s) && Moved(s, s', pid) && s'.procs[pid].token == s.procs[pid].token
    requires s'.commits == s.commits && s'.trainers == s.trainers
    requires s'.db.training == s.db.training && s'.db.leases == s.db.leases
    ensures Training(s')
  {
    forall i | i in s'.procs && s'.procs[i].token.Some?
      ensures Issued(s'.db, LeaseOf(s'.procs[i].req), s'.procs[i].token.value, s'.procs[i].run)
    { assert s.procs[i].token.Some?; }
    forall i | 0 <= i < |s'.trainers|
      ensures Issued(s'.db, LeaseKey(s'.db.training[i].tenant, s'.db.training[i].policy), s'.db.training[i].token, s'.trainers[i])
    { assert Issued(s.db, LeaseKey(s.db.training[i].tenant, s.db.training[i].policy), s.db.training[i].token, s.trainers[i]); }
  }

  // ----- Steps on idempotency records, and steps that only move the process -----

  /** Only the process position and the idempotency records differ. */
  ghost predicate Quiet(s: State, s': State, pid: nat) {
    && Moved(s, s', pid) && Settles(s, s', pid)
    && s'.procs[pid].token == s.procs[pid].token
    && s'.db == s.db.(idempotency := s'.db.idempotency)
    && s'.commits == s.commits && s'.trainers == s.trainers && s'.used == s.used && s'.up == s.up
    && ProcOk(s', s'.procs[pid])
  }

  lemma QuietKeeps(s: State, s': State, pid: nat)
    requires Inv(s) && s.up && Quiet(s, s', pid) && Idempotency(s')
    ensures Inv(s')
  {
    SameLedger(s.db, s'.db);
    SameChain(s.db, s'.db);
    SameEffects(s, s');
    MovedProcs(s, s', pid);
    MovedHolders(s, s', pid);
    MovedTraining(s, s', pid);
  }

  /** The process may move from `s` to `pc` over `s1`, which differs from `s` in the idempotency table at most. */
  ghost predicate CanMove(s: State, s1: State, pid: nat, p: Proc, pc: Pc) {
    && pid in s.procs && s1 == s.(db := s.db.(idempotency := s1.db.idempotency), births := s1.births)
    && p.run == s.procs[pid].run && p.req == s.procs[pid].req && p.token == s.procs[pid].token
    && ProcOk(s, p.(pc := pc))
    && (var k := ReservationOf(p);
        Holds(s.procs[pid], k) && k in s.db.reservations && s.db.reservations[k].status == RESERVED ==>
          Holds(p.(pc := pc), k))
  }

  lemma GotoIsQuiet(s: State, s1: State, pid: nat, p: Proc, pc: Pc)
    requires CanMove(s, s1, pid, p, pc)
    ensures Quiet(s, Goto(s1, pid, p, pc), pid)
  {
  }

  lemma MoveOver(s: State, s1: State, pid: nat, p: Proc, pc: Pc)
    requires Inv(s) && s.up && Idempotency(s1) && CanMove(s, s1, pid, p, pc)
    ensures Inv(Goto(s1, pid, p, pc))
  {
    GotoIsQuiet(s, s1, pid, p, pc);
    SameRecords(s1, Goto(s1, pid, p, pc));
    QuietKeeps(s, Goto(s1, pid, p, pc), pid);
  }

  function AfterClaim(s: State, p: Proc, c: Choice): State {
    match ClaimIdempotency(s.db, KeyOf(p.req), p.req.hash, c.now, CLAIM_TTL)
    case Err(_) => s
    case Ok(claim) => Counted(s.(db := claim.db), KeyOf(p.req), claim.isNew)
  }

  lemma AfterClaimRecords(s: State, p: Proc, c: Choice)
    requires Idempotency(s)
    ensures Idempotency(AfterClaim(s, p, c))
  {
    if ClaimIdempotency(s.db, KeyOf(p.req), p.req.hash, c.now, CLAIM_TTL).Ok? {
      ClaimKeeps(s, KeyOf(p.req), p.req.hash, c.now);
    }
  }

  lemma StartMoves(s: State, pid: nat, p: Proc, c: Choice) returns (pc: Pc)
    requires pid in s.procs && p == s.procs[pid] && ProcOk(s, p) && p.pc.Start?
    ensures StepStart(s, pid, p, c) == Goto(AfterClaim(s, p, c), pid, p, pc)
    ensures CanMove(s, AfterClaim(s, p, c), pid, p, pc)
  {
    match ClaimIdempotency(s.db, KeyOf(p.req), p.req.hash, c.now, CLAIM_TTL)
    case Err(_) => pc := Done;
    case Ok(claim) => pc := if claim.isNew then Opened else Done;
  }

  lemma HandlingMoves(s: State, pid: nat, p: Proc, c: Choice) returns (pc: Pc)
    requires pid in s.procs && p == s.procs[pid] && ProcOk(s, p) && p.pc.Handling?
    ensures StepHandling(s, pid, p, c) == Goto(AfterClaim(s, p, c), pid, p, pc)
    ensures CanMove(s, AfterClaim(s, p, c), pid, p, pc)
  {
    match ClaimIdempotency(s.db, KeyOf(p.req), p.req.hash, c.now, CLAIM_TTL)
    case Err(_) => pc := Done;
    case Ok(claim) => pc := if claim.record.status == COMPLETED then Done else Failing;
  }

  lemma StartKeeps(s: State, pid: nat, p: Proc, c: Choice)
    requires Inv(s) && s.up && pid in s.procs && p == s.procs[pid] && p.pc.Start?
    ensures Inv(StepStart(s, pid, p, c))
  {
    assert ProcOk(s, p);
    var pc := StartMoves(s, pid, p, c);
    AfterClaimRecords(s, p, c);
    MoveOver(s, AfterClaim(s, p, c), pid, p, pc);
  }

  lemma HandlingKeeps(s: State, pid: nat, p: Proc, c: Choice)
    requires Inv(s) && s.up && pid in s.procs && p == s.procs[pid] && p.pc.Handling?
    ensures Inv(StepHandling(s, pid, p, c))
  {
    assert ProcOk(s, p);
    var pc := HandlingMoves(s, pid, p, c);
    AfterClaimRecords(s, p, c);
    MoveOver(s, AfterClaim(s, p, c), pid, p, pc);
  }

  function Finished(s: State, k: IdemKey, status: IdemStatus, result: Payload): State {
    match FinishIdempotency(s.db, k, status, result)
    case Err(_) => s
    case Ok(db) => s.(db := db)
  }

  lemma FinishedRecords(s: State, k: IdemKey, status: IdemStatus, result: Payload)
    requires Idempotency(s)
    requires status == COMPLETED ==> exists r :: r in s.commits && s.commits[r].key == k && s.commits[r].payload == result
    ensures Idempotency(Finished(s, k, status, result))
  {
    if FinishIdempotency(s.db, k, status, result).Ok? {
      FinishKeeps(s, k, status, result);
    }
  }

  lemma SettledMoves(s: State, pid: nat, p: Proc, c: Choice) returns (s1: State, pc: Pc)
    requires pid in s.procs && p == s.procs[pid] && ProcOk(s, p) && p.pc.Settled?
    ensures s1 == s || s1 == Finished(s, KeyOf(p.req), COMPLETED, ResponseOf(p))
    ensures StepSettled(s, pid, p, c) == Goto(s1, pid, p, pc)
    ensures CanMove(s, s1, pid, p, pc)
  {
    if !c.ok && !p.req.scope.TRAIN? {
      s1, pc := s, if p.req.scope.DECISION? then Undo else Handling;
    } else {
      s1 := Finished(s, KeyOf(p.req), COMPLETED, ResponseOf(p));
      pc := if FinishIdempotency(s.db, KeyOf(p.req), COMPLETED, ResponseOf(p)).Ok? then Done else Handling;
    }
  }

  lemma SettledKeeps(s: State, pid: nat, p: Proc, c: Choice)
    requires Inv(s) && s.up && pid in s.procs && p == s.procs[pid] && p.pc.Settled?
    ensures Inv(StepSettled(s, pid, p, c))
  {
    assert ProcOk(s, p);
    var s1, pc := SettledMoves(s, pid, p, c);
    FinishedRecords(s, KeyOf(p.req), COMPLETED, ResponseOf(p));
    MoveOver(s, s1, pid, p, pc);
  }

  lemma FailingMoves(s: State, pid: nat, p: Proc, c: Choice)
    requires pid in s.procs && p == s.procs[pid] && ProcOk(s, p) && p.pc.Failing?
    ensures StepFailing(s, pid, p, c) == Goto(Finished(s, KeyOf(p.req), FAILED, Failure(c.errorType)), pid, p, Done)
    ensures CanMove(s, Finished(s, KeyOf(p.req), FAILED, Failure(c.errorType)), pid, p, Done)
  {
  }

  lemma FailingKeeps(s: State, pid: nat, p: Proc, c: Choice)
    requires Inv(s) && s.up && pid in s.procs && p == s.procs[pid] && p.pc.Failing?
    ensures Inv(StepFailing(s, pid, p, c))
  {
    assert ProcOk(s, p);
    FailingMoves(s, pid, p, c);
    FinishedRecords(s, KeyOf(p.req), FAILED, Failure(c.errorType));
    MoveOver(s, Finished(s, KeyOf(p.req), FAILED, Failure(c.errorType)), pid, p, Done);
  }

  /** The training guard skips the release only when no release is due. */
  lemma GuardIsSound(db: Database, p: Proc)
    requires Ledger(db) && !GuardSeesUnits(db, p)
    ensures ReservationOf(p) in db.reservations ==> db.reservations[ReservationOf(p)].status != RESERVED
  {
    var k := ReservationOf(p);
    if k in db.reservations && db.reservations[k].status == RESERVED {
      assert LedgerRow(db, k.owner);
      UnitsAtLeast(db.reservations, k);
    }
  }

  lemma LocatedMoves(s: State, pid: nat, p: Proc) returns (p': Proc, pc: Pc)
    requires pid in s.procs && p == s.procs[pid] && ProcOk(s, p) && p.pc.Located?
    ensures StepLocated(s, pid, p) == Goto(s, pid, p', pc)
    ensures CanMove(s, s, pid, p', pc)
  {
    p', pc := p, Handling;
    if p.seen.Some? && RollbackTarget(s.db, FamilyOf(p.req), p.seen.value).Ok? {
      p', pc := p.(target := RollbackTarget(s.db, FamilyOf(p.req), p.seen.value).value), Working;
    }
  }

  lemma LocatedKeeps(s: State, pid: nat, p: Proc)
    requires Inv(s) && s.up && pid in s.procs && p == s.procs[pid] && p.pc.Located?
    ensures Inv(StepLocated(s, pid, p))
  {
    assert ProcOk(s, p);
    var p', pc := LocatedMoves(s, pid, p);
    MoveOver(s, s, pid, p', pc);
  }

  lemma FinallyMoves(s: State, pid: nat, p: Proc)
    requires pid in s.procs && p == s.procs[pid] && ProcOk(s, p) && p.pc.Finally?
    requires GuardSeesUnits(s.db, p) || ReservationOf(p) !in s.db.reservations || s.db.reservations[ReservationOf(p)].status != RESERVED
    ensures CanMove(s, s, pid, p, if GuardSeesUnits(s.db, p) then FinallyRelease else FinallyLease)
  {
  }

  lemma FinallyKeeps(s: State, pid: nat, p: Proc)
    requires Inv(s) && s.up && pid in s.procs && p == s.procs[pid] && p.pc.Finally?
    ensures Inv(Goto(s, pid, p, if GuardSeesUnits(s.db, p) then FinallyRelease else FinallyLease))
  {
    assert ProcOk(s, p);
    if !GuardSeesUnits(s.db, p) { GuardIsSound(s.db, p); }
    FinallyMoves(s, pid, p);
    MoveOver(s, s, pid, p, if GuardSeesUnits(s.db, p) then FinallyRelease else FinallyLease);
  }

  lemma DieMoves(s: State, pid: nat)
    requires pid in s.procs && ProcOk(s, s.procs[pid])
    ensures CanMove(s, s, pid, s.procs[pid], Dead)
  {
  }

  lemma DieKeeps(s: State, pid: nat)
    requires Inv(s) && s.up && pid in s.procs
    ensures Inv(Goto(s, pid, s.procs[pid], Dead))
  {
    assert ProcOk(s, s.procs[pid]);
    DieMoves(s, pid);
    MoveOver(s, s, pid, s.procs[pid], Dead);
  }
}
