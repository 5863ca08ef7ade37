/** `run_decision` and `train_challenger` as the programs they are, kept in step with the protocol they take part in. */
module ControlPlane {
  import opened Wrappers
  import opened Store
  import opened SqliteStore
  import opened Control

  /** What the caller of an operation gets: a response, or the exception that was raised. */
  datatype Reply = Responded(payload: Payload) | Raised

  class ControlPlane {
    const store: SQLiteStore
    /** The protocol state this program has brought about, from where, and by which actions. */
    ghost var state: State
    ghost var start: State
    ghost var trace: seq<Action>

    constructor (store: SQLiteStore, ghost s: State)
      requires s.up && s.db == store.Contents()
      ensures this.store == store && state == s && start == s && trace == [] && InStep()
    {
      this.store := store;
      state, start, trace := s, s, [];
    }

    /** The tables are those of the protocol state, which the trace reaches from the start. */
    ghost predicate InStep()
      reads this, store
    {
      state.up && state.db == store.Contents() && state == Run(start, trace)
    }

    ghost predicate At(pid: nat, q: Request, run: Id, token: Option<nat>, pc: Pc, committed: bool)
      reads this, store
    {
      && InStep() && pid in state.procs && state.procs[pid] == Proc(q, pc, run, token, None, 0, committed)
      && (!pc.Start? && !pc.Done? ==> Owns(q))
    }

    /** The record under the request's key stands for this very request. */
    ghost predicate Owns(q: Request)
      reads this, store
    {
      KeyOf(q) in store.idempotency && store.idempotency[KeyOf(q)].hash == q.hash
    }

    ghost method Advance(a: Action)
      requires state == Run(start, trace)
      modifies this`state, this`trace
      ensures state == Next(old(state), a) && state == Run(start, trace) && trace == old(trace) + [a]
    {
      RunNext(start, trace, a);
      trace := trace + [a];
      state := Next(state, a);
    }

    /** The transaction that makes a decision effective: all four writes, or none. */
    method Commit(pid: nat, q: Request, run: Id, c: Choice) returns (ok: bool)
      requires q.scope.DECISION? && c.ok && At(pid, q, run, None, Working, false)
      modifies this`state, this`trace, store
      ensures At(pid, q, run, None, if ok then Settled else Undo, ok) && start == old(start)
    {
      ghost var p := Proc(q, Working, run, None, None, 0, false);
      ok := Write(ReceiptKey(Experience, q.tenant, run), Event(q.tenant, run, q.scope),
                  ReservationKey(BudgetOf(q), DecisionRun(run)), KeyOf(q), Success(q.scope, run), p);
      Advance(Step(pid, c));
    }

    /** The four writes, each of which may raise and roll all back. */
    method Write(receipt: ReceiptKey, event: Event, r: ReservationKey, k: IdemKey, response: Payload, ghost p: Proc)
      returns (ok: bool)
      requires p.req.scope.DECISION? && receipt == ReceiptKey(Experience, p.req.tenant, p.run)
      requires event == Event(p.req.tenant, p.run, p.req.scope) && r == ReservationOf(p)
      requires k == KeyOf(p.req) && response == ResponseOf(p)
      modifies store
      ensures ok <==> CommitDecision(old(store.Contents()), p).Ok?
      ensures ok ==> CommitDecision(old(store.Contents()), p) == Ok(store.Contents())
      ensures !ok ==> store.Contents() == old(store.Contents())
    {
      var saved := store.Contents();
      var raised := store.RecordReceipt(receipt);
      if raised.None? { raised := store.AppendEvent(event); }
      if raised.None? { raised := store.TransitionReservation(r, CONSUMED); }
      if raised.None? { raised := store.FinishIdempotency(k, COMPLETED, response); }
      if raised.Some? { store.Rollback(saved); }
      return raised.None?;
    }

    /** Creates the budget and reserves its units. */
    method Reserve(pid: nat, q: Request, run: Id, id: ReservationId, env: Pc -> Choice) returns (ok: bool)
      requires (q.scope.DECISION? && id == DecisionRun(run)) || (q.scope.TRAIN? && id == TrainingRunOf(run))
      requires At(pid, q, run, None, Opened, false)
      modifies this`state, this`trace, store
      ensures start == old(start) && At(pid, q, run, None, if ok then Working else Handling, false)
    {
      ok := Budgeted(pid, q, run, env(Opened));
      if ok {
        var raised := store.ReserveBudget(ReservationKey(BudgetOf(q), id), q.units);
        Advance(Step(pid, env(Pc.Budgeted)));
        ok := raised.None?;
      }
    }

    method Budgeted(pid: nat, q: Request, run: Id, c: Choice) returns (ok: bool)
      requires Budgetary(q.scope) && At(pid, q, run, None, Opened, false)
      modifies this`state, this`trace, store
      ensures start == old(start) && At(pid, q, run, None, if ok then Pc.Budgeted else Handling, false)
    {
      OpenedSteps(state, pid, state.procs[pid], c);
      if !c.ok {
        Advance(Step(pid, c));
        return false;
      }
      var raised := store.CreateBudget(BudgetOf(q), q.limit);
      Advance(Step(pid, c));
      return raised.None?;
    }

    /** The handler of the try block; releasing a consumed reservation raises too, and changes nothing. */
    method Release(pid: nat, q: Request, run: Id, c: Choice, ghost done: bool)
      requires q.scope.DECISION? && At(pid, q, run, None, Undo, done)
      modifies this`state, this`trace, store
      ensures start == old(start) && At(pid, q, run, None, Handling, done)
    {
      var raised := store.TransitionReservation(ReservationKey(BudgetOf(q), DecisionRun(run)), RELEASED);
      Advance(Step(pid, c));
    }

    /** The body of the operation: reserve, search, commit, and give the reservation back if anything raised. */
    method Decide(pid: nat, q: Request, run: Id, env: Pc -> Choice) returns (ok: bool, ghost done: bool)
      requires q.scope.DECISION? && At(pid, q, run, None, Opened, false)
      modifies this`state, this`trace, store
      ensures start == old(start) && At(pid, q, run, None, if ok then Settled else Handling, done)
      ensures ok ==> done && env(Settled).ok
    {
      done := false;
      ok := Reserve(pid, q, run, DecisionRun(run), env);
      if !ok { return; }
      if env(Working).ok {
        ok := Commit(pid, q, run, env(Working));
        done := ok;
        if ok {
          if env(Settled).ok { return; }
          Advance(Step(pid, env(Settled)));
        }
      } else {
        Advance(Step(pid, env(Working)));
      }
      Release(pid, q, run, env(Undo), done);
      ok := false;
    }

    /** The handler of `_idempotent`: answer from a completed record, or mark the record failed. */
    method Handle(pid: nat, q: Request, run: Id, env: Pc -> Choice, ghost token: Option<nat>, ghost done: bool) returns (reply: Reply)
      requires At(pid, q, run, token, Handling, done)
      modifies this`state, this`trace, store
      ensures start == old(start) && At(pid, q, run, token, Done, done)
      ensures reply == ReplyFrom(store.Contents(), q)
    {
      var claim := store.ClaimIdempotency(KeyOf(q), q.hash, env(Handling).now, CLAIM_TTL);
      Advance(Step(pid, env(Handling)));
      if claim.Err? { return Raised; }
      var record := claim.value.0;
      if record.status == COMPLETED {
        return if record.result.Some? then Responded(record.result.value) else Raised;
      }
      Fail(pid, q, run, env(Failing), token, done);
      return Raised;
    }

    method Fail(pid: nat, q: Request, run: Id, c: Choice, ghost token: Option<nat>, ghost done: bool)
      requires At(pid, q, run, token, Failing, done) && store.idempotency[KeyOf(q)].status != COMPLETED
      modifies this`state, this`trace, store
      ensures start == old(start) && At(pid, q, run, token, Done, done) && ReplyFrom(store.Contents(), q) == Raised
    {
      var raised := store.FinishIdempotency(KeyOf(q), FAILED, Failure(c.errorType));
      Advance(Step(pid, c));
    }

    /** The completion after the operation returned. */
    method Settle(pid: nat, q: Request, run: Id, c: Choice, id: Id, ghost token: Option<nat>) returns (ok: bool)
      requires (c.ok || q.scope.TRAIN?) && id == (if q.scope.TRAIN? then q.key else run) && At(pid, q, run, token, Settled, true)
      modifies this`state, this`trace, store
      ensures start == old(start) && At(pid, q, run, token, if ok then Done else Handling, true)
      ensures ok ==> Answered(store.Contents(), q, Success(q.scope, id))
    {
      var raised := store.FinishIdempotency(KeyOf(q), COMPLETED, Success(q.scope, id));
      Advance(Step(pid, c));
      ok := raised.None?;
    }

    method Open(pid: nat, q: Request, run: Id, c: Choice) returns (r: Result<(IdemRecord, bool)>)
      requires At(pid, q, run, None, Start, false)
      modifies this`state, this`trace, store
      ensures start == old(start)
      ensures At(pid, q, run, None, if r.Ok? && r.value.1 then Opened else Done, false)
      ensures r.Ok? ==> Owns(q) && store.idempotency[KeyOf(q)] == r.value.0
      ensures r.Err? ==> ReplyFrom(store.Contents(), q) == Raised
    {
      r := store.ClaimIdempotency(KeyOf(q), q.hash, c.now, CLAIM_TTL);
      Advance(Step(pid, c));
    }

    /**
     The whole request, run without interleaving: it is a run of the protocol in which its process ends. It responds exactly
     when the record of this very request is COMPLETED at the end, with the result in that record.
     */
    method RunDecision(pid: nat, q: Request, run: Id, env: Pc -> Choice) returns (reply: Reply)
      requires q.scope.DECISION? && InStep() && pid !in state.procs && run !in state.used
      modifies this`state, this`trace, store
      ensures start == old(start) && exists done :: At(pid, q, run, None, Done, done)
      ensures reply == ReplyFrom(store.Contents(), q)
    {
      Advance(Submit(pid, q, run));
      var claim := Open(pid, q, run, env(Start));
      if claim.Err? || !claim.value.1 {
        assert At(pid, q, run, None, Done, false);
        if claim.Ok? && claim.value.0.status == COMPLETED && claim.value.0.result.Some? {
          return Responded(claim.value.0.result.value);
        }
        return Raised;
      }
      var ok;
      ghost var done;
      ok, done := Decide(pid, q, run, env);
      if ok {
        ok := Settle(pid, q, run, env(Settled), run, None);
        if ok {
          assert At(pid, q, run, None, Done, true);
          return Responded(Success(q.scope, run));
        }
      }
      reply := Handle(pid, q, run, env, None, done);
      assert At(pid, q, run, None, Done, done);
    }

    // ----- train_challenger -----

    /** Takes the lease; whatever fails goes to the finally clause. */
    method Acquire(pid: nat, q: Request, run: Id, c: Choice) returns (lease: Option<nat>)
      requires q.scope.TRAIN? && At(pid, q, run, None, Working, false)
      modifies this`state, this`trace, store
      ensures start == old(start) && At(pid, q, run, lease, if lease.Some? then Working else Finally, false)
    {
      WorkingLeases(state, pid, state.procs[pid], c);
      lease := None;
      if c.ok {
        var r := store.AcquireLease(LeaseOf(q), run, c.ttl, c.now);
        if r.Ok? { lease := Some(r.value.token); }
      }
      Advance(Step(pid, c));
    }

    /** One renewal by the learner's heartbeat. */
    method Beat(pid: nat, q: Request, run: Id, token: nat, c: Choice) returns (ok: bool)
      requires q.scope.TRAIN? && c.heartbeat && At(pid, q, run, Some(token), Working, false)
      modifies this`state, this`trace, store
      ensures start == old(start) && At(pid, q, run, Some(token), if ok then Working else Finally, false)
    {
      WorkingLeases(state, pid, state.procs[pid], c);
      ok := c.ok;
      if ok {
        var raised := store.RenewLease(LeaseOf(q), run, token, c.ttl, c.now);
        ok := raised.None?;
      }
      Advance(Step(pid, c));
    }

    /** The training loop, as far as the store sees it. */
    method Learn(pid: nat, q: Request, run: Id, token: nat, beats: seq<Choice>) returns (ok: bool)
      requires q.scope.TRAIN? && At(pid, q, run, Some(token), Working, false)
      requires forall i :: 0 <= i < |beats| ==> beats[i].heartbeat
      modifies this`state, this`trace, store
      ensures start == old(start) && At(pid, q, run, Some(token), if ok then Working else Finally, false)
    {
      for i := 0 to |beats|
        invariant start == old(start) && At(pid, q, run, Some(token), Working, false)
      {
        ok := Beat(pid, q, run, token, beats[i]);
        if !ok { return; }
      }
      return true;
    }

    /** The fencing check and the five writes of the commit transaction, each of which may raise and roll all back. */
    method WriteTraining(q: Request, run: Id, token: nat, c: Choice, ghost p: Proc) returns (ok: bool)
      requires q.scope.TRAIN? && p == Proc(q, Working, run, Some(token), None, 0, false) && Owns(q)
      modifies store
      ensures Owns(q)
      ensures ok <==> CommitTraining(old(store.Contents()), p, c).Ok?
      ensures ok ==> CommitTraining(old(store.Contents()), p, c) == Ok(store.Contents())
      ensures !ok ==> store.Contents() == old(store.Contents())
    {
      var saved := store.Contents();
      ok := WriteArtifact(q, run, token, c);
      if ok { ok := WriteClosing(q, run); }
      CommitTrainingSplits(saved, p, c);
      if !ok { store.Rollback(saved); }
    }

    method WriteClosing(q: Request, run: Id) returns (ok: bool)
      modifies store
      ensures ok <==> Closed(old(store.Contents()), q, run).Ok?
      ensures ok ==> Closed(old(store.Contents()), q, run) == Ok(store.Contents())
      ensures ok && old(Owns(q)) ==> Owns(q)
    {
      var raised := store.AppendEvent(Event(q.tenant, run, q.scope));
      if raised.None? { raised := store.TransitionReservation(ReservationKey(BudgetOf(q), TrainingRunOf(run)), CONSUMED); }
      if raised.None? { raised := store.FinishIdempotency(KeyOf(q), COMPLETED, Success(q.scope, q.key)); }
      return raised.None?;
    }

    method WriteArtifact(q: Request, run: Id, token: nat, c: Choice) returns (ok: bool)
      modifies store
      ensures ok <==> Fenced(old(store.Contents()), q, run, token, c).Ok?
      ensures ok ==> Fenced(old(store.Contents()), q, run, token, c) == Ok(store.Contents())
      ensures store.idempotency == old(store.idempotency)
    {
      var raised := store.RenewLease(LeaseOf(q), run, token, c.ttl, c.now);
      if raised.None? { raised := store.RegisterArtifact(ArtifactKey(q.tenant, c.artifact), ArtifactOf(q, c)); }
      if raised.None? {
        raised := store.RecordTrainingRun(TrainingRun(q.tenant, q.key, q.family, c.artifact, q.subject, token, c.report));
      }
      return raised.None?;
    }

    method CommitTrained(pid: nat, q: Request, run: Id, token: nat, c: Choice) returns (ok: bool)
      requires q.scope.TRAIN? && !c.heartbeat && At(pid, q, run, Some(token), Working, false)
      modifies this`state, this`trace, store
      ensures start == old(start) && At(pid, q, run, Some(token), Finally, ok)
    {
      WorkingCommits(state, pid, state.procs[pid], c);
      ok := c.ok;
      if ok { ok := WriteTraining(q, run, token, c, state.procs[pid]); }
      Advance(Step(pid, c));
    }

    /** The finally clause: release what the budget row still shows as reserved, then give the lease back. */
    method FinallyRuns(pid: nat, q: Request, run: Id, lease: Option<nat>, env: Pc -> Choice, done: bool)
      requires q.scope.TRAIN? && At(pid, q, run, lease, Finally, done)
      modifies this`state, this`trace, store
      ensures start == old(start) && At(pid, q, run, lease, if done then Settled else Handling, done)
    {
      var guard := ReadGuard(pid, q, run, lease, env(Finally), done);
      if guard { ReleaseDue(pid, q, run, lease, env(FinallyRelease), done); }
      ReturnLease(pid, q, run, lease, env(FinallyLease), done);
    }

    method ReadGuard(pid: nat, q: Request, run: Id, lease: Option<nat>, c: Choice, ghost done: bool) returns (guard: bool)
      requires q.scope.TRAIN? && At(pid, q, run, lease, Finally, done)
      modifies this`state, this`trace, store
      ensures start == old(start) && At(pid, q, run, lease, if guard then FinallyRelease else FinallyLease, done)
    {
      guard := BudgetOf(q) in store.budgets && store.budgets[BudgetOf(q)].reserved > 0;
      Advance(Step(pid, c));
    }

    method ReleaseDue(pid: nat, q: Request, run: Id, lease: Option<nat>, c: Choice, ghost done: bool)
      requires q.scope.TRAIN? && At(pid, q, run, lease, FinallyRelease, done)
      modifies this`state, this`trace, store
      ensures start == old(start) && At(pid, q, run, lease, FinallyLease, done)
    {
      var raised := store.TransitionReservation(ReservationKey(BudgetOf(q), TrainingRunOf(run)), RELEASED);
      Advance(Step(pid, c));
    }

    method ReturnLease(pid: nat, q: Request, run: Id, lease: Option<nat>, c: Choice, done: bool)
      requires q.scope.TRAIN? && At(pid, q, run, lease, FinallyLease, done)
      modifies this`state, this`trace, store
      ensures start == old(start) && At(pid, q, run, lease, if done then Settled else Handling, done)
    {
      if lease.Some? { var raised := store.ReleaseLease(LeaseOf(q), run, lease.value, c.now); }
      Advance(Step(pid, c));
    }

    /** The body of the operation: reserve, take the lease, train, commit, and clean up on every way out. */
    method TrainUnderLease(pid: nat, q: Request, run: Id, acquire: Choice, beats: seq<Choice>, env: Pc -> Choice)
      returns (ok: bool, ghost token: Option<nat>)
      requires q.scope.TRAIN? && !env(Working).heartbeat && At(pid, q, run, None, Opened, false)
      requires forall i :: 0 <= i < |beats| ==> beats[i].heartbeat
      modifies this`state, this`trace, store
      ensures start == old(start) && At(pid, q, run, token, if ok then Settled else Handling, ok)
    {
      token := None;
      ok := Reserve(pid, q, run, TrainingRunOf(run), env);
      if !ok { return; }
      var lease := Acquire(pid, q, run, acquire);
      token := lease;
      ok := lease.Some?;
      if ok { ok := Learn(pid, q, run, lease.value, beats); }
      if ok { ok := CommitTrained(pid, q, run, lease.value, env(Working)); }
      FinallyRuns(pid, q, run, lease, env, ok);
    }

    /**
     A training request, run without interleaving: it is a run of the protocol in which its process ends. It responds
     exactly when the record of this very request is COMPLETED at the end, with the result in that record.
     */
    method TrainChallenger(pid: nat, q: Request, run: Id, acquire: Choice, beats: seq<Choice>, env: Pc -> Choice) returns (reply: Reply)
      requires q.scope.TRAIN? && !env(Working).heartbeat
      requires forall i :: 0 <= i < |beats| ==> beats[i].heartbeat
      requires InStep() && pid !in state.procs && run !in state.used
      modifies this`state, this`trace, store
      ensures start == old(start) && exists token, done :: At(pid, q, run, token, Done, done)
      ensures reply == ReplyFrom(store.Contents(), q)
    {
      Advance(Submit(pid, q, run));
      var claim := Open(pid, q, run, env(Start));
      if claim.Err? || !claim.value.1 {
        assert At(pid, q, run, None, Done, false);
        if claim.Ok? && claim.value.0.status == COMPLETED && claim.value.0.result.Some? {
          return Responded(claim.value.0.result.value);
        }
        return Raised;
      }
      var ok;
      ghost var token;
      ok, token := TrainUnderLease(pid, q, run, acquire, beats, env);
      ghost var done := ok;
      if ok {
        ok := Settle(pid, q, run, env(Settled), q.key, token);
        if ok {
          assert At(pid, q, run, token, Done, true);
          return Responded(Success(q.scope, q.key));
        }
      }
      reply := Handle(pid, q, run, env, token, done);
      assert At(pid, q, run, token, Done, done);
    }
  }

  lemma RunNext(s: State, actions: seq<Action>, a: Action)
    ensures Run(s, actions + [a]) == Next(Run(s, actions), a)
  {
    assert (actions + [a])[..|actions|] == actions;
  }

  /** The first three statements of the training commit. */
  function Fenced(db: Database, q: Request, run: Id, token: nat, c: Choice): Result<Database> {
    var db1 :- RenewLease(db, LeaseOf(q), run, token, c.ttl, c.now);
    var db2 :- RegisterArtifact(db1, ArtifactKey(q.tenant, c.artifact), ArtifactOf(q, c));
    RecordTrainingRun(db2, TrainingRun(q.tenant, q.key, q.family, c.artifact, q.subject, token, c.report))
  }

  /** The last three. */
  function Closed(db: Database, q: Request, run: Id): Result<Database> {
    var db1 :- AppendEvent(db, Event(q.tenant, run, q.scope));
    var db2 :- TransitionReservation(db1, ReservationKey(BudgetOf(q), TrainingRunOf(run)), CONSUMED);
    FinishIdempotency(db2, KeyOf(q), COMPLETED, Success(q.scope, q.key))
  }

  lemma CommitTrainingSplits(db: Database, p: Proc, c: Choice)
    requires p.req.scope.TRAIN? && p.token.Some?
    ensures CommitTraining(db, p, c) ==
            (var db3 :- Fenced(db, p.req, p.run, p.token.value, c);
             Closed(db3, p.req, p.run))
  {
  }

  lemma WorkingLeases(s: State, pid: nat, p: Proc, c: Choice)
    requires s.up && pid in s.procs && p == s.procs[pid] && p.pc.Working? && p.req.scope.TRAIN? && (p.token.None? || c.heartbeat)
    ensures Next(s, Step(pid, c)) == if !c.ok then Goto(s, pid, p, Finally) else StepLease(s, pid, p, c)
  {
  }

  lemma WorkingCommits(s: State, pid: nat, p: Proc, c: Choice)
    requires s.up && pid in s.procs && p == s.procs[pid] && p.pc.Working? && p.req.scope.TRAIN? && p.token.Some? && !c.heartbeat
    ensures Next(s, Step(pid, c)) == if !c.ok then Goto(s, pid, p, Finally) else StepCommit(s, pid, p, c)
  {
  }

  lemma OpenedSteps(s: State, pid: nat, p: Proc, c: Choice)
    requires s.up && pid in s.procs && p == s.procs[pid] && p.pc.Opened? && Budgetary(p.req.scope)
    ensures Next(s, Step(pid, c)) ==
            (if !c.ok then Goto(s, pid, p, Handling)
             else match CreateBudget(s.db, BudgetOf(p.req), p.req.limit)
               case Err(_) => Goto(s, pid, p, Handling)
               case Ok(db) => Goto(s.(db := db), pid, p, Pc.Budgeted))
  {
  }

  /** The answer a request gets from the tables: the result of its COMPLETED record, and otherwise an exception. */
  ghost function ReplyFrom(db: Database, q: Request): Reply {
    var k := KeyOf(q);
    if k in db.idempotency && db.idempotency[k].hash == q.hash && db.idempotency[k].status == COMPLETED
       && db.idempotency[k].result.Some? then Responded(db.idempotency[k].result.value)
    else Raised
  }

  /** The record of the key stands for this very request and is COMPLETED with this result. */
  ghost predicate Answered(db: Database, q: Request, payload: Payload) {
    var k := KeyOf(q);
    k in db.idempotency && db.idempotency[k].hash == q.hash
    && db.idempotency[k].status == COMPLETED && db.idempotency[k].result == Some(payload)
  }
}
