/** What may happen to one row over whole runs: idempotency records, leases and artifacts. */
module ControlRows {
  import opened Wrappers
  import opened Store
  import opened Control
  import opened ControlInvariant
  import opened ControlSteps
  import opened ControlBudget
  import opened ControlCommit
  import opened ControlTheorems

  // ----- Which step touches which table -----

  ghost predicate SameRecords(s: State, s': State) { s'.db.idempotency == s.db.idempotency && s'.births == s.births }

  ghost predicate SameLeases(s: State, s': State) { s'.db.leases == s.db.leases }

  ghost predicate SameArtifacts(s: State, s': State) { s'.db.artifacts == s.db.artifacts }

  ghost predicate SameRows(s: State, s': State) { SameRecords(s, s') && SameLeases(s, s') && SameArtifacts(s, s') }

  lemma StartRows(s: State, pid: nat, p: Proc, c: Choice)
    ensures var s' := StepStart(s, pid, p, c);
            SameRecords(AfterClaim(s, p, c), s') && SameLeases(s, s') && SameArtifacts(s, s')
  {
  }

  lemma HandlingRows(s: State, pid: nat, p: Proc, c: Choice)
    ensures var s' := StepHandling(s, pid, p, c);
            SameRecords(AfterClaim(s, p, c), s') && SameLeases(s, s') && SameArtifacts(s, s')
  {
  }

  lemma OpenedRows(s: State, pid: nat, p: Proc, c: Choice)
    ensures SameRows(s, StepOpened(s, pid, p, c))
  {
  }

  lemma LocatedRows(s: State, pid: nat, p: Proc)
    ensures SameRows(s, StepLocated(s, pid, p))
  {
  }

  lemma BudgetedRows(s: State, pid: nat, p: Proc)
    ensures SameRows(s, StepBudgeted(s, pid, p))
  {
  }

  lemma ReleasedRows(s: State, pid: nat, p: Proc, pc: Pc)
    ensures SameRows(s, Goto(s.(db := ReleasedBy(s.db, p)), pid, p, pc))
  {
  }

  /** A completion of the process's own record, or none. */
  ghost predicate Completes(s: State, s': State, k: IdemKey) {
    || SameRecords(s, s')
    || (exists status, result :: SameRecords(Finished(s, k, status, result), s'))
  }

  lemma SettledRows(s: State, pid: nat, p: Proc, c: Choice)
    ensures var s' := StepSettled(s, pid, p, c); Completes(s, s', KeyOf(p.req)) && SameLeases(s, s') && SameArtifacts(s, s')
  {
    if c.ok || p.req.scope.TRAIN? {
      assert SameRecords(Finished(s, KeyOf(p.req), COMPLETED, ResponseOf(p)), StepSettled(s, pid, p, c));
    }
  }

  lemma FinishRows(s: State, k: IdemKey, status: IdemStatus, result: Payload)
    ensures SameLeases(s, Finished(s, k, status, result)) && SameArtifacts(s, Finished(s, k, status, result))
  {
  }

  lemma FailingRows(s: State, pid: nat, p: Proc, c: Choice)
    ensures var s' := StepFailing(s, pid, p, c); Completes(s, s', KeyOf(p.req)) && SameLeases(s, s') && SameArtifacts(s, s')
  {
    var done := Finished(s, KeyOf(p.req), FAILED, Failure(c.errorType));
    FinishRows(s, KeyOf(p.req), FAILED, Failure(c.errorType));
    assert StepFailing(s, pid, p, c) == Goto(done, pid, p, Done);
    assert SameRecords(done, StepFailing(s, pid, p, c));
  }

  lemma AcquireRows(s: State, pid: nat, p: Proc, c: Choice)
    requires p.token.None?
    ensures var s' := StepLease(s, pid, p, c);
            && SameRecords(s, s') && SameArtifacts(s, s')
            && s'.db.leases == match AcquiredRow(s.db.leases, LeaseOf(p.req), p.run, c.ttl, c.now)
                               case Ok(row) => s.db.leases[LeaseOf(p.req) := row]
                               case Err(_) => s.db.leases
  {
    match AcquiredRow(s.db.leases, LeaseOf(p.req), p.run, c.ttl, c.now)
    case Err(_) =>
    case Ok(row) => assert StepLease(s, pid, p, c).db == s.db.(leases := s.db.leases[LeaseOf(p.req) := row]);
  }

  lemma RenewRows(s: State, pid: nat, p: Proc, c: Choice)
    requires p.token.Some?
    ensures var s' := StepLease(s, pid, p, c);
            && SameRecords(s, s') && SameArtifacts(s, s')
            && s'.db.leases == match RenewLease(s.db, LeaseOf(p.req), p.run, p.token.value, c.ttl, c.now)
                               case Ok(db) => db.leases
                               case Err(_) => s.db.leases
  {
  }

  lemma FinallyLeaseRows(s: State, pid: nat, p: Proc, c: Choice)
    ensures var s' := StepFinallyLease(s, pid, p, c);
            && SameRecords(s, s') && SameArtifacts(s, s')
            && (SameLeases(s, s') ||
                (p.token.Some? && ReleaseLease(s.db, LeaseOf(p.req), p.run, p.token.value, c.now).Ok?
                 && s'.db.leases == ReleaseLease(s.db, LeaseOf(p.req), p.run, p.token.value, c.now).value.leases))
  {
  }

  /** What a commit does to the three tables. */
  lemma CommitRows(s: State, pid: nat, p: Proc, c: Choice)
    ensures var s' := StepCommit(s, pid, p, c);
            && s'.births == s.births
            && (SameRows(s, s') || Finalized(s.db, s'.db, p))
            && (p.req.scope.TRAIN? || (SameLeases(s, s') && SameArtifacts(s, s')))
  {
    if CommitEffect(s.db, p, c).Ok? { CommitTables(s, p, c); }
  }

  lemma TrainingRows(s: State, pid: nat, p: Proc, c: Choice)
    requires p.req.scope.TRAIN?
    ensures var s' := StepCommit(s, pid, p, c);
            var renewed := RenewLease(s.db, LeaseOf(p.req), p.run, TokenOf(p), c.ttl, c.now);
            var stored := RegisterArtifact(s.db, ArtifactKey(p.req.tenant, c.artifact), ArtifactOf(p.req, c));
            || (SameLeases(s, s') && SameArtifacts(s, s'))
            || (renewed.Ok? && s'.db.leases == renewed.value.leases && stored.Ok? && s'.db.artifacts == stored.value.artifacts)
  {
    if CommitTraining(s.db, p, c).Ok? { TrainingWrites(s.db, p, c); }
  }

  lemma TrainingWrites(db: Database, p: Proc, c: Choice)
    requires CommitTraining(db, p, c).Ok?
    ensures var db' := CommitTraining(db, p, c).value;
            var renewed := RenewLease(db, LeaseOf(p.req), p.run, TokenOf(p), c.ttl, c.now);
            var stored := RegisterArtifact(db, ArtifactKey(p.req.tenant, c.artifact), ArtifactOf(p.req, c));
            renewed.Ok? && db'.leases == renewed.value.leases && stored.Ok? && db'.artifacts == stored.value.artifacts
  {
    var db1 := RenewLease(db, LeaseOf(p.req), p.run, TokenOf(p), c.ttl, c.now).value;
    RegisterReads(db, db1, ArtifactKey(p.req.tenant, c.artifact), ArtifactOf(p.req, c));
    var db2 := RegisterArtifact(db1, ArtifactKey(p.req.tenant, c.artifact), ArtifactOf(p.req, c)).value;
    var db3 := RecordTrainingRun(db2, TrainingRowOf(p, c)).value;
    assert db3.leases == db1.leases && db3.artifacts == db2.artifacts;
    var db4 := AppendEvent(db3, Event(p.req.tenant, p.run, p.req.scope)).value;
    var db5 := TransitionReservation(db4, ReservationOf(p), CONSUMED).value;
    ChargeWrites(db4, ReservationOf(p));
    AnswerWrites(db5, KeyOf(p.req), ResponseOf(p));
  }

  lemma ChargeWrites(db: Database, r: ReservationKey)
    requires TransitionReservation(db, r, CONSUMED).Ok?
    ensures var db' := TransitionReservation(db, r, CONSUMED).value; db' == db.(budgets := db'.budgets, reservations := db'.reservations)
  {
  }

  lemma AnswerWrites(db: Database, k: IdemKey, result: Payload)
    requires FinishIdempotency(db, k, COMPLETED, result).Ok?
    ensures var db' := FinishIdempotency(db, k, COMPLETED, result).value; db' == db.(idempotency := db'.idempotency)
  {
  }

  /** Registering reads the artifact table only. */
  lemma RegisterReads(db: Database, db': Database, k: ArtifactKey, row: Artifact)
    requires db'.artifacts == db.artifacts && RegisterArtifact(db', k, row).Ok?
    ensures RegisterArtifact(db, k, row).Ok? && RegisterArtifact(db, k, row).value.artifacts == RegisterArtifact(db', k, row).value.artifacts
  {
  }

  // ----- Records -----

  /** Unless its key was claimed anew in between, a record is the one that was there, for the same request. */
  ghost predicate SameRequest(s: State, s': State, k: IdemKey) {
    && Births(s', k) >= Births(s, k)
    && (Births(s', k) == Births(s, k) && k in s'.db.idempotency ==>
          k in s.db.idempotency && s'.db.idempotency[k].hash == s.db.idempotency[k].hash)
  }

  ghost predicate SameRequests(s: State, s': State) { forall k :: SameRequest(s, s', k) }

  lemma ThenSameRecords(s: State, t: State, u: State)
    requires SameRequests(s, t) && SameRecords(t, u)
    ensures SameRequests(s, u)
  {
    forall k ensures SameRequest(s, u, k) { assert SameRequest(s, t, k); assert Births(u, k) == Births(t, k); }
  }

  lemma NoneRequests(s: State)
    ensures SameRequests(s, s)
  {
  }

  lemma ClaimRequests(s: State, p: Proc, c: Choice)
    ensures SameRequests(s, AfterClaim(s, p, c))
  {
  }

  lemma FinishRequests(s: State, k: IdemKey, status: IdemStatus, result: Payload)
    ensures SameRequests(s, Finished(s, k, status, result))
  {
  }

  lemma CompletesRequests(s: State, s': State, k: IdemKey)
    requires Completes(s, s', k)
    ensures SameRequests(s, s')
  {
    NoneRequests(s);
    if SameRecords(s, s') {
      ThenSameRecords(s, s, s');
    } else {
      var status, result :| SameRecords(Finished(s, k, status, result), s');
      FinishRequests(s, k, status, result);
      ThenSameRecords(s, Finished(s, k, status, result), s');
    }
  }

  lemma CommitRequests(s: State, pid: nat, p: Proc, c: Choice)
    ensures SameRequests(s, StepCommit(s, pid, p, c))
  {
    CommitRows(s, pid, p, c);
    var s' := StepCommit(s, pid, p, c);
    forall k ensures SameRequest(s, s', k) { assert Births(s', k) == Births(s, k); }
  }

  lemma WorkingRequests(s: State, pid: nat, p: Proc, c: Choice)
    ensures SameRequests(s, StepWorking(s, pid, p, c))
  {
    NoneRequests(s);
    if !c.ok {
      ThenSameRecords(s, s, StepWorking(s, pid, p, c));
    } else if p.req.scope.TRAIN? && (p.token.None? || c.heartbeat) {
      if p.token.None? { AcquireRows(s, pid, p, c); } else { RenewRows(s, pid, p, c); }
      ThenSameRecords(s, s, StepWorking(s, pid, p, c));
    } else {
      CommitRequests(s, pid, p, c);
    }
  }

  lemma StepRequests(s: State, pid: nat, c: Choice)
    requires pid in s.procs
    ensures SameRequests(s, StepProc(s, pid, c))
  {
    var p := s.procs[pid];
    NoneRequests(s);
    match p.pc
    case Start =>
      ClaimRequests(s, p, c);
      StartRows(s, pid, p, c);
      ThenSameRecords(s, AfterClaim(s, p, c), StepProc(s, pid, c));
    case Handling =>
      ClaimRequests(s, p, c);
      HandlingRows(s, pid, p, c);
      ThenSameRecords(s, AfterClaim(s, p, c), StepProc(s, pid, c));
    case Opened => OpenedRows(s, pid, p, c); ThenSameRecords(s, s, StepProc(s, pid, c));
    case Located => LocatedRows(s, pid, p); ThenSameRecords(s, s, StepProc(s, pid, c));
    case Budgeted => BudgetedRows(s, pid, p); ThenSameRecords(s, s, StepProc(s, pid, c));
    case Undo => ReleasedRows(s, pid, p, Handling); ThenSameRecords(s, s, StepProc(s, pid, c));
    case FinallyRelease => ReleasedRows(s, pid, p, FinallyLease); ThenSameRecords(s, s, StepProc(s, pid, c));
    case FinallyLease => FinallyLeaseRows(s, pid, p, c); ThenSameRecords(s, s, StepProc(s, pid, c));
    case Working => WorkingRequests(s, pid, p, c);
    case Settled => SettledRows(s, pid, p, c); CompletesRequests(s, StepProc(s, pid, c), KeyOf(p.req));
    case Failing => FailingRows(s, pid, p, c); CompletesRequests(s, StepProc(s, pid, c), KeyOf(p.req));
    case _ => ThenSameRecords(s, s, StepProc(s, pid, c));
  }

  lemma RecoverRequests(s: State, now: int)
    ensures SameRequests(s, Next(s, Recover(now)))
  {
    var s' := Next(s, Recover(now));
    forall k ensures SameRequest(s, s', k) { assert Births(s', k) == Births(s, k); }
  }

  lemma NextRequests(s: State, a: Action)
    ensures SameRequests(s, Next(s, a))
  {
    NoneRequests(s);
    match a
    case Step(pid, c) => if s.up && pid in s.procs { StepRequests(s, pid, c); }
    case Recover(now) => RecoverRequests(s, now);
    case _ => ThenSameRecords(s, s, Next(s, a));
  }

  lemma RequestsTransitive(s: State, t: State, u: State)
    requires SameRequests(s, t) && SameRequests(t, u)
    ensures SameRequests(s, u)
  {
    forall k ensures SameRequest(s, u, k) { assert SameRequest(s, t, k) && SameRequest(t, u, k); }
  }

  /** Over every run, from its insertion to its deletion a record stands for one request. */
  lemma {:induction false} RecordsKeepTheirRequest(s: State, actions: seq<Action>)
    ensures SameRequests(s, Run(s, actions))
    decreases |actions|
  {
    if actions == [] {
      NoneRequests(s);
    } else {
      var before := actions[..|actions| - 1];
      RecordsKeepTheirRequest(s, before);
      NextRequests(Run(s, before), actions[|actions| - 1]);
      RequestsTransitive(s, Run(s, before), Run(s, actions));
    }
  }

  /** The key is taken, at this time, by a record of another request. */
  predicate TakenByOther(db: Database, k: IdemKey, hash: Id, now: int) {
    && k in db.idempotency && db.idempotency[k].hash != hash
    && (db.idempotency[k].expires.None? || db.idempotency[k].expires.value >= now)
  }

  /** A claim conflicts exactly when the key is taken by another request; it then ends the process and changes no table. */
  lemma OtherRequestIsRefused(s: State, pid: nat, c: Choice)
    requires s.up && pid in s.procs && (s.procs[pid].pc.Start? || s.procs[pid].pc.Handling?)
    ensures var q := s.procs[pid].req;
            var s' := Next(s, Step(pid, c));
            && (TakenByOther(s.db, KeyOf(q), q.hash, c.now) <==>
                  ClaimIdempotency(s.db, KeyOf(q), q.hash, c.now, CLAIM_TTL) == Err(Conflict))
            && (TakenByOther(s.db, KeyOf(q), q.hash, c.now) ==>
                  s' == s.(procs := s.procs[pid := s.procs[pid].(pc := Done)]))
            && (!TakenByOther(s.db, KeyOf(q), q.hash, c.now) ==>
                  KeyOf(q) in s'.db.idempotency && s'.db.idempotency[KeyOf(q)].hash == q.hash)
  {
  }

  /** The key has a record that has not expired. */
  predicate Standing(db: Database, k: IdemKey, now: int) {
    k in db.idempotency && (db.idempotency[k].expires.None? || db.idempotency[k].expires.value >= now)
  }

  /**
   A request is executed exactly when its key has no standing record; otherwise its process ends at once. Either way the
   first claim deletes the records that have expired and no others, and inserts at most its own.
   */
  lemma RepeatsAreNotExecuted(s: State, pid: nat, c: Choice)
    requires s.up && pid in s.procs && s.procs[pid].pc.Start?
    ensures var q := s.procs[pid].req;
            var s' := Next(s, Step(pid, c));
            && pid in s'.procs && s'.procs[pid].pc == (if Standing(s.db, KeyOf(q), c.now) then Done else Opened)
            && Births(s', KeyOf(q)) == Births(s, KeyOf(q)) + (if Standing(s.db, KeyOf(q), c.now) then 0 else 1)
            && (!TakenByOther(s.db, KeyOf(q), q.hash, c.now) ==>
                  forall k :: k != KeyOf(q) || Standing(s.db, k, c.now) ==>
                    (k in s'.db.idempotency <==> Standing(s.db, k, c.now))
                    && (k in s'.db.idempotency ==> s'.db.idempotency[k] == s.db.idempotency[k]))
            && (!Standing(s.db, KeyOf(q), c.now) ==>
                  KeyOf(q) in s'.db.idempotency
                  && s'.db.idempotency[KeyOf(q)] == IdemRecord(q.hash, IN_PROGRESS, None, Some(c.now + 86_400)))
  {
  }

  // ----- Leases -----

  /** The lease can be had by anyone. */
  predicate Free(l: Lease, now: int) { l.holder == None || l.expires <= now }

  /** What a step of this worker may do to the row of its lease. */
  ghost predicate LeaseMove(p: Proc, c: Choice, old': Lease, new': Lease) {
    || new' == old'
    || (old'.holder == Some(p.run) && old'.expires > c.now && new' == old'.(expires := c.now + c.ttl))
    || (Free(old', c.now) && new' == Lease(Some(p.run), old'.token + 1, c.now + c.ttl))
    || (old'.holder == Some(p.run) && p.token == Some(old'.token) && new' == old'.(holder := None, expires := c.now))
  }

  /** A step changes no lease but the worker's own, and that only as a worker may. */
  ghost predicate LeasesMove(s: State, s': State, p: Proc, c: Choice) {
    && (forall k :: k in s.db.leases ==> k in s'.db.leases)
    && (forall k :: k in s'.db.leases && (k !in s.db.leases || s'.db.leases[k] != s.db.leases[k]) ==>
          p.req.scope.TRAIN? && k == LeaseOf(p.req)
          && if k in s.db.leases then LeaseMove(p, c, s.db.leases[k], s'.db.leases[k])
             else s'.db.leases[k] == Lease(Some(p.run), 1, c.now + c.ttl))
  }

  lemma WorkingLeases(s: State, pid: nat, p: Proc, c: Choice)
    requires s.procs[pid := p] == s.procs && (p.token.Some? ==> p.req.scope.TRAIN?)
    ensures LeasesMove(s, StepWorking(s, pid, p, c), p, c)
  {
    if c.ok && p.req.scope.TRAIN? && (p.token.None? || c.heartbeat) {
      if p.token.None? { AcquireRows(s, pid, p, c); } else { RenewRows(s, pid, p, c); }
    } else if c.ok {
      CommitRows(s, pid, p, c);
      if p.req.scope.TRAIN? { TrainingRows(s, pid, p, c); }
    }
  }

  lemma StepLeases(s: State, pid: nat, c: Choice)
    requires pid in s.procs && ProcOk(s, s.procs[pid])
    ensures LeasesMove(s, StepProc(s, pid, c), s.procs[pid], c)
  {
    var p := s.procs[pid];
    match p.pc
    case Start => StartRows(s, pid, p, c);
    case Handling => HandlingRows(s, pid, p, c);
    case Opened => OpenedRows(s, pid, p, c);
    case Located => LocatedRows(s, pid, p);
    case Budgeted => BudgetedRows(s, pid, p);
    case Undo => ReleasedRows(s, pid, p, Handling);
    case FinallyRelease => ReleasedRows(s, pid, p, FinallyLease);
    case FinallyLease => FinallyLeaseRows(s, pid, p, c);
    case Working => assert s.procs[pid := p] == s.procs; WorkingLeases(s, pid, p, c);
    case Settled => SettledRows(s, pid, p, c);
    case Failing => FailingRows(s, pid, p, c);
    case _ =>
  }

  /**
   In every reachable state and at every action: a lease is created with token 1; its live holder may prolong it; its
   holder may give it back under its token; recovery frees it; and it passes to another holder, with the next token,
   only when it is free or expired at that time. Nothing else ever happens to a lease row.
   */
  lemma LeasesAreExclusive(past: seq<Action>, a: Action, k: LeaseKey)
    ensures var s := Run(INITIAL, past);
            var s' := Next(s, a);
            && (k in s.db.leases ==> k in s'.db.leases)
            && (k in s.db.leases && s'.db.leases[k] != s.db.leases[k] ==>
                  || (a.Recover? && !s.up && s'.db.leases[k] == s.db.leases[k].(holder := None, expires := a.now))
                  || (a.Step? && s.up && a.who in s.procs && s.procs[a.who].req.scope.TRAIN? && LeaseOf(s.procs[a.who].req) == k
                      && LeaseMove(s.procs[a.who], a.choice, s.db.leases[k], s'.db.leases[k])))
            && (k !in s.db.leases && k in s'.db.leases ==>
                  a.Step? && a.who in s.procs && s'.db.leases[k] == Lease(Some(s.procs[a.who].run), 1, a.choice.now + a.choice.ttl))
  {
    Reachable(past);
    LeasesChange(Run(INITIAL, past), a, k);
  }

  lemma LeasesChange(s: State, a: Action, k: LeaseKey)
    requires Procs(s)
    ensures var s' := Next(s, a);
            && (k in s.db.leases ==> k in s'.db.leases)
            && (k in s.db.leases && s'.db.leases[k] != s.db.leases[k] ==>
                  || (a.Recover? && !s.up && s'.db.leases[k] == s.db.leases[k].(holder := None, expires := a.now))
                  || (a.Step? && s.up && a.who in s.procs && s.procs[a.who].req.scope.TRAIN? && LeaseOf(s.procs[a.who].req) == k
                      && LeaseMove(s.procs[a.who], a.choice, s.db.leases[k], s'.db.leases[k])))
            && (k !in s.db.leases && k in s'.db.leases ==>
                  a.Step? && a.who in s.procs && s'.db.leases[k] == Lease(Some(s.procs[a.who].run), 1, a.choice.now + a.choice.ttl))
  {
    if a.Step? && s.up && a.who in s.procs {
      assert ProcOk(s, s.procs[a.who]);
      StepLeases(s, a.who, a.choice);
    }
  }

  /** While another worker's lease is live, a trainer that asks for it is refused, and nothing changes but its position. */
  lemma LiveLeaseIsRefused(s: State, pid: nat, c: Choice)
    requires s.up && pid in s.procs && c.ok && c.ttl > 0
    requires var p := s.procs[pid];
             && p.pc.Working? && p.req.scope.TRAIN? && p.token.None?
             && LeaseOf(p.req) in s.db.leases
             && s.db.leases[LeaseOf(p.req)].holder != Some(p.run) && !Free(s.db.leases[LeaseOf(p.req)], c.now)
    ensures var p := s.procs[pid];
            && AcquireLease(s.db, LeaseOf(p.req), p.run, c.ttl, c.now) == Err(LeaseUnavailable)
            && Next(s, Step(pid, c)) == s.(procs := s.procs[pid := p.(pc := Finally)])
  {
    assert Next(s, Step(pid, c)) == StepLease(s, pid, s.procs[pid], c);
  }

  /** At its end a training request that still holds its lease gives it back, so that anyone may have it. */
  lemma LeaseIsReturned(s: State, pid: nat, c: Choice)
    requires s.up && pid in s.procs && s.procs[pid].pc.FinallyLease? && s.procs[pid].token.Some?
    requires var p := s.procs[pid];
             LeaseOf(p.req) in s.db.leases && s.db.leases[LeaseOf(p.req)].holder == Some(p.run)
             && s.db.leases[LeaseOf(p.req)].token == p.token.value
    ensures var k := LeaseOf(s.procs[pid].req);
            var s' := Next(s, Step(pid, c));
            && k in s'.db.leases && s'.db.leases[k].holder == None && s'.db.leases[k].token == s.db.leases[k].token
            && Free(s'.db.leases[k], c.now)
  {
    assert Next(s, Step(pid, c)) == StepFinallyLease(s, pid, s.procs[pid], c);
  }

  // ----- Artifacts -----

  /** A policy version of a tenant has one artifact. */
  ghost predicate VersionsDistinct(artifacts: map<ArtifactKey, Artifact>) {
    forall j, k ::
      (j in artifacts && k in artifacts && j.tenant == k.tenant
       && artifacts[j].policy == artifacts[k].policy && artifacts[j].version == artifacts[k].version) ==> j == k
  }

  ghost predicate ArtifactsKept(s: State, s': State) {
    forall k :: k in s.db.artifacts ==> k in s'.db.artifacts && s'.db.artifacts[k] == s.db.artifacts[k]
  }

  lemma RegisterKeeps(db: Database, k: ArtifactKey, row: Artifact)
    requires RegisterArtifact(db, k, row).Ok? && VersionsDistinct(db.artifacts)
    ensures VersionsDistinct(RegisterArtifact(db, k, row).value.artifacts)
    ensures forall j :: j in db.artifacts ==>
              j in RegisterArtifact(db, k, row).value.artifacts && RegisterArtifact(db, k, row).value.artifacts[j] == db.artifacts[j]
  {
  }

  lemma WorkingArtifacts(s: State, pid: nat, p: Proc, c: Choice)
    requires VersionsDistinct(s.db.artifacts)
    ensures VersionsDistinct(StepWorking(s, pid, p, c).db.artifacts) && ArtifactsKept(s, StepWorking(s, pid, p, c))
  {
    if c.ok && p.req.scope.TRAIN? && (p.token.None? || c.heartbeat) {
      if p.token.None? { AcquireRows(s, pid, p, c); } else { RenewRows(s, pid, p, c); }
    } else if c.ok {
      CommitRows(s, pid, p, c);
      if p.req.scope.TRAIN? {
        TrainingRows(s, pid, p, c);
        var k, row := ArtifactKey(p.req.tenant, c.artifact), ArtifactOf(p.req, c);
        if RegisterArtifact(s.db, k, row).Ok? { RegisterKeeps(s.db, k, row); }
      }
    }
  }

  lemma StepArtifacts(s: State, pid: nat, c: Choice)
    requires pid in s.procs && VersionsDistinct(s.db.artifacts)
    ensures VersionsDistinct(StepProc(s, pid, c).db.artifacts) && ArtifactsKept(s, StepProc(s, pid, c))
  {
    var p := s.procs[pid];
    match p.pc
    case Start => StartRows(s, pid, p, c);
    case Handling => HandlingRows(s, pid, p, c);
    case Opened => OpenedRows(s, pid, p, c);
    case Located => LocatedRows(s, pid, p);
    case Budgeted => BudgetedRows(s, pid, p);
    case Undo => ReleasedRows(s, pid, p, Handling);
    case FinallyRelease => ReleasedRows(s, pid, p, FinallyLease);
    case FinallyLease => FinallyLeaseRows(s, pid, p, c);
    case Working => WorkingArtifacts(s, pid, p, c);
    case Settled => SettledRows(s, pid, p, c);
    case Failing => FailingRows(s, pid, p, c);
    case _ =>
  }

  lemma NextArtifacts(s: State, a: Action)
    requires VersionsDistinct(s.db.artifacts)
    ensures VersionsDistinct(Next(s, a).db.artifacts) && ArtifactsKept(s, Next(s, a))
  {
    if a.Step? && s.up && a.who in s.procs { StepArtifacts(s, a.who, a.choice); }
  }

  lemma {:induction false} RunArtifacts(s: State, actions: seq<Action>)
    requires VersionsDistinct(s.db.artifacts)
    ensures VersionsDistinct(Run(s, actions).db.artifacts) && ArtifactsKept(s, Run(s, actions))
    decreases |actions|
  {
    if actions != [] {
      RunArtifacts(s, actions[..|actions| - 1]);
      NextArtifacts(Run(s, actions[..|actions| - 1]), actions[|actions| - 1]);
    }
  }

  /**
   In every reachable state two artifacts of one tenant with the same policy and version are the same artifact, and over
   every later run a stored artifact row neither changes nor disappears.
   */
  lemma ArtifactsAreImmutable(past: seq<Action>, future: seq<Action>)
    ensures VersionsDistinct(Run(INITIAL, past).db.artifacts)
    ensures ArtifactsKept(Run(INITIAL, past), Run(Run(INITIAL, past), future))
  {
    RunArtifacts(INITIAL, past);
    RunArtifacts(Run(INITIAL, past), future);
  }
}
