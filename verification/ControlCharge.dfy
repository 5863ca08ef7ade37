/** Which committed effects are charged separately, and which share one charge. */
module ControlCharge {
  import opened Wrappers
  import opened Store
  import opened Control
  import opened ControlInvariant
  import opened ControlCommit
  import opened ControlTheorems
  import opened ControlScript

  /**
   In every reachable state two committed effects are charged to one reservation exactly when both are benchmark runs
   under one key and one budget. So every decision and every training run has a charge of its own.
   */
  lemma SharedChargesExactly(actions: seq<Action>, q: Id, r: Id)
    requires var s := Run(INITIAL, actions);
             q in s.commits && r in s.commits && q != r && s.commits[q].reservation.Some? && s.commits[r].reservation.Some?
    ensures var s := Run(INITIAL, actions);
            var a, b := s.commits[q], s.commits[r];
            a.reservation == b.reservation <==>
              a.key == b.key && a.key.scope.BENCHMARK? && a.reservation.value.owner == b.reservation.value.owner
  {
    Reachable(actions);
    assert CommitOk(Run(INITIAL, actions), q) && CommitOk(Run(INITIAL, actions), r);
  }

  // ----- Two benchmark runs, one charge -----

  /** A benchmark's budget is named after the quota window its operation falls in, here of the greatest length allowed. */
  function QuotaWindow(now: nat): nat { now / 86_400 }

  const QUOTA: BudgetKey := BudgetKey(0, 1)
  const ATTEMPT: ReservationKey := ReservationKey(QUOTA, Attempt(0))
  const MEASURE: Request := Request(BENCHMARK, 0, 0, 0, 1, 3, 1, 0, 0, 0)

  function Answer(run: Id, now: int): IdemRecord { Opening(MEASURE, now).(status := COMPLETED, result := Some(Success(BENCHMARK, run))) }

  /** The tables after some runs of the one benchmark request: one charge, and a receipt and an event for each run. */
  function Measured(record: IdemRecord, receipts: set<ReceiptKey>, events: seq<Event>): Database {
    EMPTY.(budgets := map[QUOTA := Budget(3, 0, 1, 2)], reservations := map[ATTEMPT := Reservation(1, CONSUMED)],
           idempotency := map[KeyOf(MEASURE) := record], receipts := receipts, events := events)
  }

  function Attempted(record: IdemRecord): Database {
    EMPTY.(budgets := map[QUOTA := Budget(3, 1, 0, 1)], reservations := map[ATTEMPT := Reservation(1, RESERVED)],
           idempotency := map[KeyOf(MEASURE) := record])
  }

  function Receipt(run: Id): ReceiptKey { ReceiptKey(Evidence, 0, run) }

  lemma FirstReserves(db: Database, record: IdemRecord)
    requires db == EMPTY.(idempotency := map[KeyOf(MEASURE) := record])
    ensures CreateBudget(db, QUOTA, 3).Ok? && ReserveBudget(CreateBudget(db, QUOTA, 3).value, ATTEMPT, 1) == Ok(Attempted(record))
  {
    var db1 := CreateBudget(db, QUOTA, 3).value;
    assert db1.budgets == map[QUOTA := Budget(3, 0, 0, 0)];
    assert ReserveBudget(db1, ATTEMPT, 1).value.budgets == map[QUOTA := Budget(3, 1, 0, 1)];
  }

  lemma FirstWrites(p: Proc, now: int)
    requires p.req == MEASURE && p.run == 1
    ensures CommitBenchmark(Attempted(Opening(MEASURE, now)), p)
         == Ok(Measured(Answer(1, now), {Receipt(1)}, [Event(0, 1, BENCHMARK)]))
  {
    var db := Attempted(Opening(MEASURE, now));
    assert TransitionReservation(db, ATTEMPT, CONSUMED).Ok?;
    var db1 := TransitionReservation(db, ATTEMPT, CONSUMED).value;
    assert db1.budgets == map[QUOTA := Budget(3, 0, 1, 2)];
    assert db1.reservations == map[ATTEMPT := Reservation(1, CONSUMED)];
    var db2 := RecordReceipt(db1, Receipt(1)).value;
    assert db2.receipts == {Receipt(1)};
    var db3 := AppendEvent(db2, Event(0, 1, BENCHMARK)).value;
    assert db3.events == [Event(0, 1, BENCHMARK)];
    assert FinishIdempotency(db3, KeyOf(MEASURE), COMPLETED, Success(BENCHMARK, 1)).value.idempotency
        == map[KeyOf(MEASURE) := Answer(1, now)];
  }

  /** Reserving and consuming the consumed reservation again succeed and charge nothing. */
  lemma SecondWrites(p: Proc, now: int)
    requires p.req == MEASURE && p.run == 2
    ensures var db := Measured(Opening(MEASURE, now), {Receipt(1)}, [Event(0, 1, BENCHMARK)]);
            && CreateBudget(db, QUOTA, 3) == Ok(db) && ReserveBudget(db, ATTEMPT, 1) == Ok(db)
            && CommitBenchmark(db, p)
               == Ok(Measured(Answer(2, now), {Receipt(1), Receipt(2)}, [Event(0, 1, BENCHMARK), Event(0, 2, BENCHMARK)]))
  {
    var db := Measured(Opening(MEASURE, now), {Receipt(1)}, [Event(0, 1, BENCHMARK)]);
    assert TransitionReservation(db, ATTEMPT, CONSUMED) == Ok(db);
    var db2 := RecordReceipt(db, Receipt(2)).value;
    assert db2.receipts == {Receipt(1), Receipt(2)};
    var db3 := AppendEvent(db2, Event(0, 2, BENCHMARK)).value;
    assert db3.events == [Event(0, 1, BENCHMARK), Event(0, 2, BENCHMARK)];
    assert FinishIdempotency(db3, KeyOf(MEASURE), COMPLETED, Success(BENCHMARK, 2)).value.idempotency
        == map[KeyOf(MEASURE) := Answer(2, now)];
  }

  lemma FirstRun(claim: int, now: int) returns (actions: seq<Action>)
    ensures var s := Run(INITIAL, actions);
            && s.up && s.procs.Keys == {0} && s.used == {1}
            && s.db == Measured(Answer(1, claim), {Receipt(1)}, [Event(0, 1, BENCHMARK)])
            && s.commits.Keys == {1} && s.commits[1].reservation == Some(ATTEMPT)
  {
    var a1, a2 := [Submit(0, MEASURE, 1), Step(0, At(claim))], [Step(0, At(now)), Step(0, At(now))];
    Begins(INITIAL, 0, MEASURE, 1, claim);
    var s1 := Run(INITIAL, a1);
    assert s1.db == EMPTY.(idempotency := map[KeyOf(MEASURE) := Opening(MEASURE, claim)]);
    FirstReserves(s1.db, Opening(MEASURE, claim));
    Budgets(s1, 0, s1.procs[0], now, Attempted(Opening(MEASURE, claim)));
    RunAppends(INITIAL, a1, a2);
    var s2 := Run(INITIAL, a1 + a2);
    FirstWrites(s2.procs[0], claim);
    Finishes(s2, 0, s2.procs[0], now, Measured(Answer(1, claim), {Receipt(1)}, [Event(0, 1, BENCHMARK)]));
    RunNext(INITIAL, a1 + a2, Step(0, At(now)));
    actions := a1 + a2 + [Step(0, At(now))];
  }

  lemma Finishes(s: State, pid: nat, p: Proc, now: int, db: Database)
    requires s.up && pid in s.procs && p == s.procs[pid] && p.req == MEASURE && p.pc.Working?
    requires CommitBenchmark(s.db, p) == Ok(db)
    ensures var s' := Next(s, Step(pid, At(now)));
            && s'.up && s'.db == db && s'.procs.Keys == s.procs.Keys && s'.used == s.used
            && s'.commits == s.commits[p.run := NoteOf(s, p)] && NoteOf(s, p).reservation == Some(ATTEMPT)
  {
    Commits(s, pid, p, At(now), db);
  }

  /**
   One key, one quota window, two committed benchmark runs, one charge: the first request claims its key two seconds
   before the window opens, and the second comes in the last second of the window, when the record has expired.
   */
  lemma TwoBenchmarksOneCharge() returns (actions: seq<Action>)
    ensures QuotaWindow(86_400) == QuotaWindow(172_799) == MEASURE.budget
    ensures var s := Run(INITIAL, actions);
            && s.commits.Keys == {1, 2} && s.commits[1].reservation == s.commits[2].reservation == Some(ATTEMPT)
            && QUOTA in s.db.budgets && s.db.budgets[QUOTA].consumed == 1
            && Event(0, 1, BENCHMARK) in s.db.events && Event(0, 2, BENCHMARK) in s.db.events
  {
    var before := FirstRun(86_398, 86_400);
    var s := Run(INITIAL, before);
    var after := SecondRun(s, 172_799);
    RunAppends(INITIAL, before, after);
    actions := before + after;
  }

  lemma SecondRun(s: State, now: int) returns (actions: seq<Action>)
    requires s.up && s.procs.Keys == {0} && s.used == {1} && now > 86_398 + TTL
    requires s.db == Measured(Answer(1, 86_398), {Receipt(1)}, [Event(0, 1, BENCHMARK)])
    requires s.commits.Keys == {1} && s.commits[1].reservation == Some(ATTEMPT)
    ensures var s' := Run(s, actions);
            && s'.commits.Keys == {1, 2} && s'.commits[1].reservation == s'.commits[2].reservation == Some(ATTEMPT)
            && s'.db == Measured(Answer(2, now), {Receipt(1), Receipt(2)}, [Event(0, 1, BENCHMARK), Event(0, 2, BENCHMARK)])
  {
    var a1, a2 := [Submit(1, MEASURE, 2), Step(1, At(now))], [Step(1, At(now)), Step(1, At(now))];
    assert Unexpired(s.db.idempotency, now) == map[];
    Begins(s, 1, MEASURE, 2, now);
    var s1 := Run(s, a1);
    var db := Measured(Opening(MEASURE, now), {Receipt(1)}, [Event(0, 1, BENCHMARK)]);
    assert s1.db == db;
    SecondWrites(s1.procs[1], now);
    Budgets(s1, 1, s1.procs[1], now, db);
    RunAppends(s, a1, a2);
    var s2 := Run(s, a1 + a2);
    SecondWrites(s2.procs[1], now);
    Finishes(s2, 1, s2.procs[1], now, CommitBenchmark(s2.db, s2.procs[1]).value);
    RunNext(s, a1 + a2, Step(1, At(now)));
    actions := a1 + a2 + [Step(1, At(now))];
  }
}
