/** How long the reply of a committed decision stays: exactly as long as no claim is more than a TTL later. */
module ControlReply {
  import opened Wrappers
  import opened Store
  import opened Control
  import opened ControlInvariant
  import opened ControlSteps
  import opened ControlBudget
  import opened ControlCommit
  import opened ControlTheorems
  import opened ControlScript

  // ----- Runs inside a window of the clock -----

  predicate ReadsWithin(a: Action, start: int, width: nat) {
    match a
    case Step(_, c) => start <= c.now <= start + width
    case Recover(now) => start <= now <= start + width
    case _ => true
  }

  /** Every clock reading of the run lies in the window. */
  predicate Windowed(actions: seq<Action>, start: int, width: nat) {
    forall i :: 0 <= i < |actions| ==> ReadsWithin(actions[i], start, width)
  }

  /** No record expires inside the window, and every record ever inserted is still there. */
  ghost predicate Permanent(s: State, start: int) {
    && (forall k :: k in s.db.idempotency && s.db.idempotency[k].expires.Some? ==>
          s.db.idempotency[k].expires.value >= start + TTL)
    && forall k :: Births(s, k) == if k in s.db.idempotency then 1 else 0
  }

  lemma SamePermanent(s: State, s': State, start: int)
    requires Permanent(s, start) && s'.db.idempotency == s.db.idempotency && s'.births == s.births
    ensures Permanent(s', start)
  {
    forall k ensures Births(s', k) == if k in s'.db.idempotency then 1 else 0 { assert Births(s', k) == Births(s, k); }
  }

  lemma ClaimPermanent(s: State, p: Proc, c: Choice, start: int)
    requires Permanent(s, start) && start <= c.now <= start + TTL
    ensures Permanent(AfterClaim(s, p, c), start)
  {
    var k := KeyOf(p.req);
    assert Unexpired(s.db.idempotency, c.now) == s.db.idempotency;
    if k in s.db.idempotency {
      SamePermanent(s, AfterClaim(s, p, c), start);
    } else {
      assert Births(s, k) == 0;
      InsertPermanent(s, AfterClaim(s, p, c), k, Opening(p.req, c.now), start);
    }
  }

  lemma InsertPermanent(s: State, s': State, k: IdemKey, record: IdemRecord, start: int)
    requires Permanent(s, start) && k !in s.db.idempotency && record.expires.Some? && record.expires.value >= start + TTL
    requires s'.db.idempotency == s.db.idempotency[k := record] && s'.births == s.births[k := 1]
    ensures Permanent(s', start)
  {
    forall j ensures Births(s', j) == if j in s'.db.idempotency then 1 else 0 {
      assert Births(s, j) == if j in s.db.idempotency then 1 else 0;
    }
  }

  lemma FinishPermanent(s: State, k: IdemKey, status: IdemStatus, result: Payload, start: int)
    requires Permanent(s, start)
    ensures Permanent(Finished(s, k, status, result), start)
  {
    var s' := Finished(s, k, status, result);
    forall j ensures Births(s', j) == if j in s'.db.idempotency then 1 else 0 { assert Births(s', j) == Births(s, j); }
  }

  lemma CommitPermanent(s: State, pid: nat, p: Proc, c: Choice, start: int)
    requires Permanent(s, start)
    ensures Permanent(StepCommit(s, pid, p, c), start)
  {
    var s' := StepCommit(s, pid, p, c);
    if CommitEffect(s.db, p, c).Ok? { CommitTables(s, p, c); }
    forall j ensures Births(s', j) == if j in s'.db.idempotency then 1 else 0 { assert Births(s', j) == Births(s, j); }
  }

  lemma ClaimsPermanent(s: State, pid: nat, p: Proc, c: Choice, start: int)
    requires Permanent(s, start) && start <= c.now <= start + TTL
    ensures Permanent(StepStart(s, pid, p, c), start) && Permanent(StepHandling(s, pid, p, c), start)
  {
    ClaimPermanent(s, p, c, start);
    SamePermanent(AfterClaim(s, p, c), StepStart(s, pid, p, c), start);
    SamePermanent(AfterClaim(s, p, c), StepHandling(s, pid, p, c), start);
  }

  lemma SettledPermanent(s: State, pid: nat, p: Proc, c: Choice, start: int)
    requires Permanent(s, start)
    ensures Permanent(StepSettled(s, pid, p, c), start)
  {
    FinishPermanent(s, KeyOf(p.req), COMPLETED, ResponseOf(p), start);
    if c.ok || p.req.scope.TRAIN? {
      SamePermanent(Finished(s, KeyOf(p.req), COMPLETED, ResponseOf(p)), StepSettled(s, pid, p, c), start);
    } else {
      SamePermanent(s, StepSettled(s, pid, p, c), start);
    }
  }

  lemma FailingPermanent(s: State, pid: nat, p: Proc, c: Choice, start: int)
    requires Permanent(s, start)
    ensures Permanent(StepFailing(s, pid, p, c), start)
  {
    FinishPermanent(s, KeyOf(p.req), FAILED, Failure(c.errorType), start);
    SamePermanent(Finished(s, KeyOf(p.req), FAILED, Failure(c.errorType)), StepFailing(s, pid, p, c), start);
  }

  /** The steps that touch no record. */
  ghost predicate SameRecordsAs(s: State, s': State) { s'.db.idempotency == s.db.idempotency && s'.births == s.births }

  lemma OpenedSkipsRecords(s: State, pid: nat, p: Proc, c: Choice)
    ensures SameRecordsAs(s, StepOpened(s, pid, p, c))
  {
  }

  lemma ReadsSkipRecords(s: State, pid: nat, p: Proc)
    ensures SameRecordsAs(s, StepLocated(s, pid, p)) && SameRecordsAs(s, StepBudgeted(s, pid, p))
  {
  }

  lemma AcquireSkipsRecords(s: State, pid: nat, p: Proc, c: Choice)
    requires p.token.None?
    ensures SameRecordsAs(s, StepLease(s, pid, p, c))
  {
    match AcquiredRow(s.db.leases, LeaseOf(p.req), p.run, c.ttl, c.now)
    case Err(_) =>
    case Ok(row) => assert StepLease(s, pid, p, c).db == s.db.(leases := s.db.leases[LeaseOf(p.req) := row]);
  }

  lemma RenewSkipsRecords(s: State, pid: nat, p: Proc, c: Choice)
    requires p.token.Some?
    ensures SameRecordsAs(s, StepLease(s, pid, p, c))
  {
  }

  lemma FinallyLeaseSkipsRecords(s: State, pid: nat, p: Proc, c: Choice)
    ensures SameRecordsAs(s, StepFinallyLease(s, pid, p, c))
  {
  }

  lemma WorkingPermanent(s: State, pid: nat, p: Proc, c: Choice, start: int)
    requires Permanent(s, start)
    ensures Permanent(StepWorking(s, pid, p, c), start)
  {
    if !c.ok {
      SamePermanent(s, StepWorking(s, pid, p, c), start);
    } else if p.req.scope.TRAIN? && (p.token.None? || c.heartbeat) {
      if p.token.None? { AcquireSkipsRecords(s, pid, p, c); } else { RenewSkipsRecords(s, pid, p, c); }
      SamePermanent(s, StepWorking(s, pid, p, c), start);
    } else {
      CommitPermanent(s, pid, p, c, start);
    }
  }

  lemma StepPermanent(s: State, pid: nat, c: Choice, start: int)
    requires pid in s.procs && Permanent(s, start) && start <= c.now <= start + TTL
    ensures Permanent(StepProc(s, pid, c), start)
  {
    var p := s.procs[pid];
    match p.pc
    case Start => ClaimsPermanent(s, pid, p, c, start);
    case Handling => ClaimsPermanent(s, pid, p, c, start);
    case Working => WorkingPermanent(s, pid, p, c, start);
    case Settled => SettledPermanent(s, pid, p, c, start);
    case Failing => FailingPermanent(s, pid, p, c, start);
    case FinallyLease =>
      FinallyLeaseSkipsRecords(s, pid, p, c);
      SamePermanent(s, StepProc(s, pid, c), start);
    case _ =>
      OpenedSkipsRecords(s, pid, p, c);
      ReadsSkipRecords(s, pid, p);
      SamePermanent(s, StepProc(s, pid, c), start);
  }

  lemma RecoverPermanent(s: State, now: int, start: int)
    requires Permanent(s, start)
    ensures Permanent(Next(s, Recover(now)), start)
  {
    var s' := Next(s, Recover(now));
    forall k ensures Births(s', k) == if k in s'.db.idempotency then 1 else 0 { assert Births(s', k) == Births(s, k); }
  }

  lemma NextPermanent(s: State, a: Action, start: int)
    requires Permanent(s, start) && ReadsWithin(a, start, TTL)
    ensures Permanent(Next(s, a), start)
  {
    match a
    case Step(pid, c) => if s.up && pid in s.procs { StepPermanent(s, pid, c, start); }
    case Recover(now) => RecoverPermanent(s, now, start);
    case _ => SamePermanent(s, Next(s, a), start);
  }

  lemma {:induction false} RunPermanent(actions: seq<Action>, start: int)
    requires Windowed(actions, start, TTL)
    ensures Permanent(Run(INITIAL, actions), start)
    decreases |actions|
  {
    if actions != [] {
      RunPermanent(actions[..|actions| - 1], start);
      NextPermanent(Run(INITIAL, actions[..|actions| - 1]), actions[|actions| - 1], start);
    }
  }

  // ----- All four parts of a decision -----

  /** Receipt, event, charge and reply of a run are all there or all missing. */
  ghost predicate WholeOrNothing(db: Database, tenant: Id, run: Id) {
    && (HasExperience(db, tenant, run) <==> Replied(db, tenant, run))
    && (HasEvent(db, tenant, run) <==> Replied(db, tenant, run))
    && (Charged(db, tenant, run) <==> Replied(db, tenant, run))
  }

  lemma ReplyStays(actions: seq<Action>, start: int, tenant: Id, run: Id)
    requires Windowed(actions, start, TTL)
    ensures WholeOrNothing(Run(INITIAL, actions).db, tenant, run)
  {
    var s := Run(INITIAL, actions);
    Reachable(actions);
    RunPermanent(actions, start);
    WholeDecision(s, tenant, run);
    if DecisionCommitted(s, tenant, run) {
      assert Answered(s, run) && CommitOk(s, run);
      assert Births(s, s.commits[run].key) <= 1;
    }
  }

  // ----- A reply that expired -----

  const DECIDE: Request := Request(DECISION, 0, 0, 0, 0, 1, 1, 0, 0, 0)

  const CHARGE: ReservationKey := ReservationKey(BudgetKey(0, 0), DecisionRun(1))

  /** The tables after the one decision, with its record. */
  function Decided(records: map<IdemKey, IdemRecord>): Database {
    EMPTY.(budgets := map[BudgetKey(0, 0) := Budget(1, 0, 1, 2)], reservations := map[CHARGE := Reservation(1, CONSUMED)],
           idempotency := records, receipts := {ReceiptKey(Experience, 0, 1)}, events := [Event(0, 1, DECISION)])
  }

  function Reserved(records: map<IdemKey, IdemRecord>): Database {
    EMPTY.(budgets := map[BudgetKey(0, 0) := Budget(1, 1, 0, 1)], reservations := map[CHARGE := Reservation(1, RESERVED)],
           idempotency := records)
  }

  lemma DecisionWrites(p: Proc)
    requires p.req == DECIDE && p.run == 1
    ensures CommitDecision(Reserved(map[KeyOf(DECIDE) := Opening(DECIDE, 0)]), p)
         == Ok(Decided(map[KeyOf(DECIDE) := IdemRecord(0, COMPLETED, Some(Success(DECISION, 1)), Some(TTL))]))
  {
    var db := Reserved(map[KeyOf(DECIDE) := Opening(DECIDE, 0)]);
    var db1 := RecordReceipt(db, ReceiptKey(Experience, 0, 1)).value;
    assert db1.receipts == {ReceiptKey(Experience, 0, 1)};
    var db2 := AppendEvent(db1, Event(0, 1, DECISION)).value;
    assert db2.events == [Event(0, 1, DECISION)];
    assert TransitionReservation(db2, CHARGE, CONSUMED).Ok?;
    var db3 := TransitionReservation(db2, CHARGE, CONSUMED).value;
    assert db3.budgets == map[BudgetKey(0, 0) := Budget(1, 0, 1, 2)];
    assert db3.reservations == map[CHARGE := Reservation(1, CONSUMED)];
    assert FinishIdempotency(db3, KeyOf(DECIDE), COMPLETED, Success(DECISION, 1)).value.idempotency
        == map[KeyOf(DECIDE) := IdemRecord(0, COMPLETED, Some(Success(DECISION, 1)), Some(TTL))];
  }

  lemma DecisionReserves(s: State)
    requires s == Began(INITIAL, 0, DECIDE, 1, 0)
    ensures Run(s, [Step(0, At(0)), Step(0, At(0))])
         == Put(s, 0, s.procs[0].(pc := Working), Reserved(map[KeyOf(DECIDE) := Opening(DECIDE, 0)]))
  {
    var records := map[KeyOf(DECIDE) := Opening(DECIDE, 0)];
    assert s.db == EMPTY.(idempotency := records);
    var db1 := CreateBudget(s.db, BudgetKey(0, 0), 1).value;
    assert db1.budgets == map[BudgetKey(0, 0) := Budget(1, 0, 0, 0)];
    assert ReserveBudget(db1, CHARGE, 1).value.budgets == map[BudgetKey(0, 0) := Budget(1, 1, 0, 1)];
    assert ReserveBudget(db1, CHARGE, 1) == Ok(Reserved(records));
    Budgets(s, 0, s.procs[0], 0, Reserved(records));
  }

  /** One decision from its submission to its commit, all at time 0. */
  lemma DecisionCommits() returns (actions: seq<Action>)
    ensures Windowed(actions, 0, 0)
    ensures var s := Run(INITIAL, actions);
            && s.up && s.procs.Keys == {0} && s.used == {1}
            && s.db == Decided(map[KeyOf(DECIDE) := IdemRecord(0, COMPLETED, Some(Success(DECISION, 1)), Some(TTL))])
  {
    var step := Step(0, At(0));
    var a1, a2 := [Submit(0, DECIDE, 1), step], [step, step];
    Begins(INITIAL, 0, DECIDE, 1, 0);
    var s1 := Run(INITIAL, a1);
    DecisionReserves(s1);
    RunAppends(INITIAL, a1, a2);
    DecisionFinishes(Run(INITIAL, a1 + a2));
    RunNext(INITIAL, a1 + a2, step);
    actions := a1 + a2 + [step];
  }

  lemma DecisionFinishes(s: State)
    requires s == Put(Began(INITIAL, 0, DECIDE, 1, 0), 0, Proc(DECIDE, Working, 1, None, None, 0, false),
                      Reserved(map[KeyOf(DECIDE) := Opening(DECIDE, 0)]))
    ensures var s' := Next(s, Step(0, At(0)));
            && s'.up && s'.procs.Keys == {0} && s'.used == {1}
            && s'.db == Decided(map[KeyOf(DECIDE) := IdemRecord(0, COMPLETED, Some(Success(DECISION, 1)), Some(TTL))])
  {
    DecisionWrites(s.procs[0]);
    Commits(s, 0, s.procs[0], At(0), CommitDecision(s.db, s.procs[0]).value);
  }

  /** A request of another key, claimed more than a TTL later, deletes the reply; the other three parts stay. */
  lemma LateClaimDropsReply(width: nat) returns (actions: seq<Action>)
    requires width > TTL
    ensures Windowed(actions, 0, width)
    ensures var db := Run(INITIAL, actions).db;
            HasExperience(db, 0, 1) && HasEvent(db, 0, 1) && Charged(db, 0, 1) && !Replied(db, 0, 1)
  {
    var before := DecisionCommits();
    var after := [Submit(1, DECIDE.(key := 1), 2), Step(1, At(width))];
    OtherClaim(Run(INITIAL, before), 1, DECIDE.(key := 1), 2, width);
    RunAppends(INITIAL, before, after);
    actions := before + after;
  }

  /** Any later request finds the record of the decision expired. */
  lemma OtherClaim(s: State, pid: nat, q: Request, run: Id, now: nat)
    requires s.up && pid !in s.procs && run !in s.used && KeyOf(q) != KeyOf(DECIDE) && now > TTL
    requires s.db == Decided(map[KeyOf(DECIDE) := IdemRecord(0, COMPLETED, Some(Success(DECISION, 1)), Some(TTL))])
    ensures var db := Run(s, [Submit(pid, q, run), Step(pid, At(now))]).db;
            HasExperience(db, 0, 1) && HasEvent(db, 0, 1) && Charged(db, 0, 1) && !Replied(db, 0, 1)
  {
    assert Unexpired(s.db.idempotency, now) == map[];
    Begins(s, pid, q, run, now);
    PartsStay(Decided(map[KeyOf(q) := Opening(q, now)]), q, now);
  }

  lemma PartsStay(db: Database, q: Request, now: int)
    requires db == Decided(map[KeyOf(q) := Opening(q, now)])
    ensures HasExperience(db, 0, 1) && HasEvent(db, 0, 1) && Charged(db, 0, 1) && !Replied(db, 0, 1)
  {
    assert CHARGE in db.reservations;
  }

  ghost predicate WholeWithin(width: nat) {
    forall start: int, actions: seq<Action>, tenant: Id, run: Id ::
      Windowed(actions, start, width) ==> WholeOrNothing(Run(INITIAL, actions).db, tenant, run)
  }

  /**
   Over all runs whose clock readings span at most `width` seconds, the four parts of every decision are all present or
   all absent: exactly when the span is within the TTL of an idempotency record.
   */
  lemma RepliesLastExactlyTheTtl(width: nat)
    ensures WholeWithin(width) <==> width <= TTL
  {
    if width <= TTL {
      forall start: int, actions: seq<Action>, tenant: Id, run: Id | Windowed(actions, start, width)
        ensures WholeOrNothing(Run(INITIAL, actions).db, tenant, run)
      {
        assert Windowed(actions, start, TTL);
        ReplyStays(actions, start, tenant, run);
      }
    } else {
      var actions := LateClaimDropsReply(width);
      assert !WholeOrNothing(Run(INITIAL, actions).db, 0, 1);
    }
  }
}
