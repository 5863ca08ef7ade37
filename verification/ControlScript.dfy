/** Scripted runs of the control plane: what the usual sequences of steps do when nothing interferes. */
module ControlScript {
  import opened Wrappers
  import opened Store
  import opened Control
  import opened ControlCommit
  import opened ControlTheorems

  const TTL: nat := 86_400

  /** Nothing fails and the clock shows `now`; the lease runs for a second, and training makes this artifact. */
  function Made(now: int, artifact: Id): Choice { Choice(now, true, false, 1, artifact, artifact, 0, 0) }

  function At(now: int): Choice { Made(now, 0) }

  lemma {:induction false} RunAppends(s: State, before: seq<Action>, after: seq<Action>)
    ensures Run(s, before + after) == Run(Run(s, before), after)
    decreases |after|
  {
    if after == [] {
      assert before + after == before;
    } else {
      RunAppends(s, before, after[..|after| - 1]);
      assert (before + after)[..|before + after| - 1] == before + after[..|after| - 1];
    }
  }

  lemma RunOne(s: State, a: Action)
    ensures Run(s, [a]) == Next(s, a)
  {
    RunNext(s, [], a);
    assert [] + [a] == [a];
  }

  lemma RunTwo(s: State, a: Action, b: Action)
    ensures Run(s, [a, b]) == Next(Next(s, a), b)
  {
    RunOne(s, a);
    RunNext(s, [a], b);
    assert [a] + [b] == [a, b];
  }

  /** The process and the tables change, and nothing else. */
  function Put(s: State, pid: nat, p: Proc, db: Database): State { s.(db := db, procs := s.procs[pid := p]) }

  // ----- Submission and first claim -----

  function Opening(q: Request, now: int): IdemRecord { IdemRecord(q.hash, IN_PROGRESS, None, Some(now + TTL)) }

  function Began(s: State, pid: nat, q: Request, run: Id, now: int): State {
    var k := KeyOf(q);
    Put(s, pid, Proc(q, Opened, run, None, None, 0, false),
        s.db.(idempotency := Unexpired(s.db.idempotency, now)[k := Opening(q, now)]))
    .(births := s.births[k := Births(s, k) + 1], used := s.used + {run})
  }

  lemma Claims(s: State, pid: nat, p: Proc, c: Choice)
    requires pid in s.procs && p == s.procs[pid] && KeyOf(p.req) !in Unexpired(s.db.idempotency, c.now)
    ensures var k := KeyOf(p.req);
            StepStart(s, pid, p, c)
            == Put(s, pid, p.(pc := Opened), s.db.(idempotency := Unexpired(s.db.idempotency, c.now)[k := Opening(p.req, c.now)]))
               .(births := s.births[k := Births(s, k) + 1])
  {
  }

  lemma Begins(s: State, pid: nat, q: Request, run: Id, now: int)
    requires s.up && pid !in s.procs && run !in s.used && KeyOf(q) !in Unexpired(s.db.idempotency, now)
    ensures Run(s, [Submit(pid, q, run), Step(pid, At(now))]) == Began(s, pid, q, run, now)
  {
    RunTwo(s, Submit(pid, q, run), Step(pid, At(now)));
    BeginsSteps(s, Next(s, Submit(pid, q, run)), pid, q, run, now);
  }

  lemma BeginsSteps(s: State, s1: State, pid: nat, q: Request, run: Id, now: int)
    requires s.up && KeyOf(q) !in Unexpired(s.db.idempotency, now)
    requires s1 == s.(procs := s.procs[pid := Proc(q, Start, run, None, None, 0, false)], used := s.used + {run})
    ensures Next(s1, Step(pid, At(now))) == Began(s, pid, q, run, now)
  {
    var p := s1.procs[pid];
    Claims(s1, pid, p, At(now));
    assert Next(s1, Step(pid, At(now))) == StepStart(s1, pid, p, At(now));
    assert s1.procs[pid := p.(pc := Opened)] == s.procs[pid := p.(pc := Opened)];
  }

  // ----- Budget -----

  lemma Creates(s: State, pid: nat, p: Proc, c: Choice, db: Database)
    requires p.pc.Opened? && Budgetary(p.req.scope) && c.ok && CreateBudget(s.db, BudgetOf(p.req), p.req.limit) == Ok(db)
    ensures StepOpened(s, pid, p, c) == Put(s, pid, p.(pc := Budgeted), db)
  {
  }

  lemma Reserves(s: State, pid: nat, p: Proc, db: Database)
    requires ReserveBudget(s.db, ReservationOf(p), p.req.units) == Ok(db)
    ensures StepBudgeted(s, pid, p) == Put(s, pid, p.(pc := Working), db)
  {
  }

  lemma Budgets(s: State, pid: nat, p: Proc, now: int, db: Database)
    requires s.up && pid in s.procs && p == s.procs[pid] && p.pc.Opened? && Budgetary(p.req.scope)
    requires var r := CreateBudget(s.db, BudgetOf(p.req), p.req.limit);
             r.Ok? && ReserveBudget(r.value, ReservationOf(p), p.req.units) == Ok(db)
    ensures Run(s, [Step(pid, At(now)), Step(pid, At(now))]) == Put(s, pid, p.(pc := Working), db)
  {
    var a := Step(pid, At(now));
    RunTwo(s, a, a);
    var db1 := CreateBudget(s.db, BudgetOf(p.req), p.req.limit).value;
    BudgetsFirst(s, pid, p, now, db1);
    BudgetsSecond(s, pid, p, now, db1, db);
  }

  lemma BudgetsFirst(s: State, pid: nat, p: Proc, now: int, db: Database)
    requires s.up && pid in s.procs && p == s.procs[pid] && p.pc.Opened? && Budgetary(p.req.scope)
    requires CreateBudget(s.db, BudgetOf(p.req), p.req.limit) == Ok(db)
    ensures Next(s, Step(pid, At(now))) == Put(s, pid, p.(pc := Budgeted), db)
  {
    Creates(s, pid, p, At(now), db);
    assert Next(s, Step(pid, At(now))) == StepOpened(s, pid, p, At(now));
  }

  lemma BudgetsSecond(s: State, pid: nat, p: Proc, now: int, db1: Database, db: Database)
    requires s.up && ReserveBudget(db1, ReservationOf(p), p.req.units) == Ok(db)
    ensures Next(Put(s, pid, p.(pc := Budgeted), db1), Step(pid, At(now))) == Put(s, pid, p.(pc := Working), db)
  {
    var s1 := Put(s, pid, p.(pc := Budgeted), db1);
    Reserves(s1, pid, s1.procs[pid], db);
    assert Next(s1, Step(pid, At(now))) == StepBudgeted(s1, pid, s1.procs[pid]);
    assert s1.procs[pid := p.(pc := Working)] == s.procs[pid := p.(pc := Working)];
  }

  // ----- Commit -----

  lemma Commits(s: State, pid: nat, p: Proc, c: Choice, db: Database)
    requires s.up && pid in s.procs && p == s.procs[pid] && p.pc.Working? && c.ok && !c.heartbeat
    requires p.req.scope.TRAIN? ==> p.token.Some?
    requires CommitEffect(s.db, p, c) == Ok(db)
    ensures var s' := Next(s, Step(pid, c));
            && s'.db == db && s'.up && s'.used == s.used && s'.births == s.births
            && s'.procs == s.procs[pid := p.(pc := if p.req.scope.TRAIN? then Finally else Settled, committed := true)]
            && s'.commits == s.commits[p.run := NoteOf(s, p)]
  {
  }
}
