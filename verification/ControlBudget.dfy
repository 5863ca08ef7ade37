/** Budget and lease steps of the control-plane protocol keep the invariant. */
module ControlBudget {
  import opened Wrappers
  import opened Store
  import opened Control
  import opened ControlInvariant
  import opened ControlSteps

  // ----- Budget steps -----

  ghost predicate SameConsumed(db: Database, db': Database) {
    forall k ::
      (k in db'.reservations && db'.reservations[k].status == CONSUMED)
      <==> (k in db.reservations && db.reservations[k].status == CONSUMED)
  }

  lemma EffectsSameConsumed(s: State, s': State)
    requires Effects(s) && s'.commits == s.commits && s'.trainers == s.trainers
    requires s'.db.events == s.db.events && s'.db.receipts == s.db.receipts && SameConsumed(s.db, s'.db)
    ensures Effects(s')
  {
    forall r | r in s'.commits ensures CommitOk(s', r) { assert CommitOk(s, r); }
  }

  /** Only the process position, budgets and reservations differ; a new RESERVED row is held by the process. */
  ghost predicate BudgetMove(s: State, s': State, pid: nat) {
    && Moved(s, s', pid) && Settles(s, s', pid)
    && s'.procs[pid].token == s.procs[pid].token
    && s'.db == s.db.(budgets := s'.db.budgets, reservations := s'.db.reservations)
    && s'.commits == s.commits && s'.trainers == s.trainers && s'.used == s.used && s'.up == s.up && s'.births == s.births
    && ProcOk(s', s'.procs[pid])
    && SameConsumed(s.db, s'.db)
    && (forall k :: k in s'.db.reservations && s'.db.reservations[k].status == RESERVED ==>
          (k in s.db.reservations && s.db.reservations[k].status == RESERVED) || Holds(s'.procs[pid], k))
  }

  lemma BudgetMoveKeeps(s: State, s': State, pid: nat)
    requires Inv(s) && s.up && BudgetMove(s, s', pid) && Ledger(s'.db)
    ensures Inv(s')
  {
    SameChain(s.db, s'.db);
    SameRecords(s, s');
    EffectsSameConsumed(s, s');
    MovedProcs(s, s', pid);
    MovedHolders(s, s', pid);
    MovedTraining(s, s', pid);
  }

  lemma CreatedMoves(s: State, pid: nat, p: Proc)
    requires pid in s.procs && p == s.procs[pid] && ProcOk(s, p) && p.pc.Opened? && Budgetary(p.req.scope)
    requires CreateBudget(s.db, BudgetOf(p.req), p.req.limit).Ok?
    ensures BudgetMove(s, Goto(s.(db := CreateBudget(s.db, BudgetOf(p.req), p.req.limit).value), pid, p, Budgeted), pid)
  {
  }

  lemma OpenedMoves(s: State, pid: nat, p: Proc, c: Choice) returns (p': Proc, pc: Pc)
    requires pid in s.procs && p == s.procs[pid] && ProcOk(s, p) && p.pc.Opened?
    requires !c.ok || !Budgetary(p.req.scope) || CreateBudget(s.db, BudgetOf(p.req), p.req.limit).Err?
    ensures StepOpened(s, pid, p, c) == Goto(s, pid, p', pc)
    ensures CanMove(s, s, pid, p', pc)
  {
    var f := FamilyOf(p.req);
    var seen := if f in s.db.champions then Some(s.db.champions[f]) else None;
    if !c.ok || Budgetary(p.req.scope) {
      p', pc := p, Handling;
    } else {
      p' := p.(seen := seen);
      pc := if p.req.scope.PROMOTE? then Working else if seen.None? then Handling else Located;
    }
  }

  lemma CreatedKeeps(s: State, pid: nat, p: Proc, db: Database)
    requires Inv(s) && s.up && pid in s.procs && p == s.procs[pid] && p.pc.Opened? && Budgetary(p.req.scope)
    requires CreateBudget(s.db, BudgetOf(p.req), p.req.limit) == Ok(db)
    ensures Inv(Goto(s.(db := db), pid, p, Budgeted))
  {
    assert ProcOk(s, p);
    CreatedMoves(s, pid, p);
    CreateKeepsLedger(s.db, BudgetOf(p.req), p.req.limit);
    BudgetMoveKeeps(s, Goto(s.(db := db), pid, p, Budgeted), pid);
  }

  lemma OpenedKeeps(s: State, pid: nat, p: Proc, c: Choice)
    requires Inv(s) && s.up && pid in s.procs && p == s.procs[pid] && p.pc.Opened?
    ensures Inv(StepOpened(s, pid, p, c))
  {
    assert ProcOk(s, p);
    var r := CreateBudget(s.db, BudgetOf(p.req), p.req.limit);
    if c.ok && Budgetary(p.req.scope) && r.Ok? {
      CreatedKeeps(s, pid, p, r.value);
    } else {
      var p', pc := OpenedMoves(s, pid, p, c);
      MoveOver(s, s, pid, p', pc);
    }
  }

  lemma ReservedMoves(s: State, pid: nat, p: Proc, db: Database)
    requires pid in s.procs && p == s.procs[pid] && ProcOk(s, p) && p.pc.Budgeted?
    requires ReserveBudget(s.db, ReservationOf(p), p.req.units) == Ok(db)
    ensures BudgetMove(s, Goto(s.(db := db), pid, p, Working), pid)
  {
  }

  lemma UnreservedMoves(s: State, pid: nat, p: Proc)
    requires pid in s.procs && p == s.procs[pid] && ProcOk(s, p) && p.pc.Budgeted?
    ensures CanMove(s, s, pid, p, Handling)
  {
  }

  lemma BudgetedKeeps(s: State, pid: nat, p: Proc)
    requires Inv(s) && s.up && pid in s.procs && p == s.procs[pid] && p.pc.Budgeted?
    ensures Inv(StepBudgeted(s, pid, p))
  {
    assert ProcOk(s, p);
    match ReserveBudget(s.db, ReservationOf(p), p.req.units)
    case Ok(db) =>
      ReservedMoves(s, pid, p, db);
      ReserveKeepsLedger(s.db, ReservationOf(p), p.req.units);
      BudgetMoveKeeps(s, Goto(s.(db := db), pid, p, Working), pid);
    case Err(_) =>
      UnreservedMoves(s, pid, p);
      MoveOver(s, s, pid, p, Handling);
  }

  function Freed(s: State, pid: nat, p: Proc): State {
    Goto(s.(db := ReleasedBy(s.db, p)), pid, p, if p.pc.Undo? then Handling else FinallyLease)
  }

  /** After the release step the reservation is no longer RESERVED, whoever else uses it. */
  lemma ReleaseSettles(db: Database, p: Proc)
    requires Ledger(db)
    ensures Ledger(ReleasedBy(db, p))
    ensures var k := ReservationOf(p);
            k in ReleasedBy(db, p).reservations ==> ReleasedBy(db, p).reservations[k].status != RESERVED
  {
    TransitionKeepsLedger(db, ReservationOf(p), RELEASED);
  }

  lemma FreedMoves(s: State, pid: nat, p: Proc)
    requires pid in s.procs && p == s.procs[pid] && ProcOk(s, p) && (p.pc.Undo? || p.pc.FinallyRelease?)
    requires var k := ReservationOf(p);
             k in ReleasedBy(s.db, p).reservations ==> ReleasedBy(s.db, p).reservations[k].status != RESERVED
    ensures BudgetMove(s, Freed(s, pid, p), pid)
  {
  }

  lemma FreedKeeps(s: State, pid: nat, p: Proc)
    requires Inv(s) && s.up && pid in s.procs && p == s.procs[pid] && (p.pc.Undo? || p.pc.FinallyRelease?)
    ensures Inv(Freed(s, pid, p))
  {
    assert ProcOk(s, p);
    ReleaseSettles(s.db, p);
    FreedMoves(s, pid, p);
    BudgetMoveKeeps(s, Freed(s, pid, p), pid);
  }

  // ----- Lease steps -----

  /** The token of one lease does not go back, and a kept token changes hands to nobody. */
  ghost predicate LeaseStep(db: Database, db': Database, k: LeaseKey) {
    && k in db'.leases && db'.leases == db.leases[k := db'.leases[k]]
    && db'.leases[k].token >= 1
    && (k in db.leases ==>
          || db'.leases[k].token > db.leases[k].token
          || (db'.leases[k].token == db.leases[k].token
              && (db'.leases[k].holder == db.leases[k].holder || db'.leases[k].holder == None)))
  }

  lemma IssuedStays(db: Database, db': Database, k: LeaseKey, j: LeaseKey, token: nat, run: Id)
    requires LeaseStep(db, db', k) && Issued(db, j, token, run)
    ensures Issued(db', j, token, run)
  {
  }

  lemma LeaseTraining(s: State, s': State, pid: nat, k: LeaseKey)
    requires Training(s) && Moved(s, s', pid) && s'.commits == s.commits && s'.trainers == s.trainers
    requires s'.db.training == s.db.training && LeaseStep(s.db, s'.db, k)
    requires s'.procs[pid].token.Some? ==> Issued(s'.db, LeaseOf(s'.procs[pid].req), s'.procs[pid].token.value, s'.procs[pid].run)
    ensures Training(s')
  {
    forall i | i in s'.procs && s'.procs[i].token.Some?
      ensures Issued(s'.db, LeaseOf(s'.procs[i].req), s'.procs[i].token.value, s'.procs[i].run)
    {
      if i != pid { IssuedStays(s.db, s'.db, k, LeaseOf(s.procs[i].req), s.procs[i].token.value, s.procs[i].run); }
    }
    forall i | 0 <= i < |s'.trainers|
      ensures Issued(s'.db, LeaseKey(s'.db.training[i].tenant, s'.db.training[i].policy), s'.db.training[i].token, s'.trainers[i])
    {
      IssuedStays(s.db, s'.db, k, LeaseKey(s.db.training[i].tenant, s.db.training[i].policy), s.db.training[i].token, s.trainers[i]);
    }
  }

  /** Only the process and one lease differ. */
  ghost predicate LeaseMove(s: State, s': State, pid: nat) {
    && Moved(s, s', pid) && Settles(s, s', pid)
    && s'.db == s.db.(leases := s'.db.leases)
    && s'.commits == s.commits && s'.trainers == s.trainers && s'.used == s.used && s'.up == s.up && s'.births == s.births
    && ProcOk(s', s'.procs[pid])
    && (s'.procs[pid].token.Some? ==>
          Issued(s'.db, LeaseOf(s'.procs[pid].req), s'.procs[pid].token.value, s'.procs[pid].run))
    && LeaseStep(s.db, s'.db, LeaseOf(s.procs[pid].req))
  }

  lemma LeaseMoveKeeps(s: State, s': State, pid: nat)
    requires Inv(s) && s.up && LeaseMove(s, s', pid)
    ensures Inv(s')
  {
    SameLedger(s.db, s'.db);
    SameChain(s.db, s'.db);
    SameRecords(s, s');
    SameEffects(s, s');
    MovedProcs(s, s', pid);
    MovedHolders(s, s', pid);
    LeaseTraining(s, s', pid, LeaseOf(s.procs[pid].req));
  }

  lemma AcquireMoves(s: State, pid: nat, p: Proc, c: Choice)
    requires pid in s.procs && p == s.procs[pid] && ProcOk(s, p) && p.pc.Working? && p.req.scope.TRAIN? && p.token.None?
    requires LeaseOf(p.req) in s.db.leases ==> s.db.leases[LeaseOf(p.req)].token >= 1
    requires AcquireLease(s.db, LeaseOf(p.req), p.run, c.ttl, c.now).Ok?
    ensures LeaseMove(s, StepLease(s, pid, p, c), pid)
  {
  }

  lemma RenewMoves(s: State, pid: nat, p: Proc, c: Choice)
    requires pid in s.procs && p == s.procs[pid] && ProcOk(s, p) && p.pc.Working? && p.req.scope.TRAIN? && p.token.Some?
    requires LeaseOf(p.req) in s.db.leases ==> s.db.leases[LeaseOf(p.req)].token >= 1
    requires RenewLease(s.db, LeaseOf(p.req), p.run, p.token.value, c.ttl, c.now).Ok?
    ensures LeaseMove(s, StepLease(s, pid, p, c), pid)
  {
  }

  lemma AbortMoves(s: State, pid: nat, p: Proc)
    requires pid in s.procs && p == s.procs[pid] && ProcOk(s, p) && p.pc.Working?
    ensures CanMove(s, s, pid, p, Aborted(p.req))
  {
  }

  lemma AbortKeeps(s: State, pid: nat, p: Proc)
    requires Inv(s) && s.up && pid in s.procs && p == s.procs[pid] && p.pc.Working?
    ensures Inv(Goto(s, pid, p, Aborted(p.req)))
  {
    assert ProcOk(s, p);
    AbortMoves(s, pid, p);
    MoveOver(s, s, pid, p, Aborted(p.req));
  }

  lemma LeaseKeeps(s: State, pid: nat, p: Proc, c: Choice)
    requires Inv(s) && s.up && pid in s.procs && p == s.procs[pid] && p.pc.Working? && p.req.scope.TRAIN?
    ensures Inv(StepLease(s, pid, p, c))
  {
    assert ProcOk(s, p);
    if p.token.None? && AcquireLease(s.db, LeaseOf(p.req), p.run, c.ttl, c.now).Ok? {
      AcquireMoves(s, pid, p, c);
      LeaseMoveKeeps(s, StepLease(s, pid, p, c), pid);
    } else if p.token.Some? && RenewLease(s.db, LeaseOf(p.req), p.run, p.token.value, c.ttl, c.now).Ok? {
      RenewMoves(s, pid, p, c);
      LeaseMoveKeeps(s, StepLease(s, pid, p, c), pid);
    } else {
      AbortKeeps(s, pid, p);
    }
  }

  lemma FinallyLeaseMoves(s: State, pid: nat, p: Proc, c: Choice)
    requires pid in s.procs && p == s.procs[pid] && ProcOk(s, p) && p.pc.FinallyLease?
    requires p.token.Some? ==> Issued(s.db, LeaseOf(p.req), p.token.value, p.run)
    ensures p.token.Some? ==> LeaseMove(s, StepFinallyLease(s, pid, p, c), pid)
    ensures p.token.None? ==>
              CanMove(s, s, pid, p, if p.committed then Settled else Handling)
              && StepFinallyLease(s, pid, p, c) == Goto(s, pid, p, if p.committed then Settled else Handling)
  {
  }

  lemma FinallyLeaseKeeps(s: State, pid: nat, p: Proc, c: Choice)
    requires Inv(s) && s.up && pid in s.procs && p == s.procs[pid] && p.pc.FinallyLease?
    ensures Inv(StepFinallyLease(s, pid, p, c))
  {
    assert ProcOk(s, p);
    FinallyLeaseMoves(s, pid, p, c);
    if p.token.Some? {
      LeaseMoveKeeps(s, StepFinallyLease(s, pid, p, c), pid);
    } else {
      MoveOver(s, s, pid, p, if p.committed then Settled else Handling);
    }
  }
}
