/** Safety of the control plane over whole runs: any interleaving, any deaths, any crashes and recoveries. */
module ControlTheorems {
  import opened Wrappers
  import opened Store
  import opened Control
  import opened ControlInvariant
  import opened ControlSteps
  import opened ControlBudget
  import opened ControlCommit

  // ----- The invariant holds in every reachable state -----

  lemma StepKeeps(s: State, pid: nat, c: Choice)
    requires Inv(s) && s.up && pid in s.procs
    ensures Inv(StepProc(s, pid, c))
  {
    var p := s.procs[pid];
    match p.pc
    case Start => StartKeeps(s, pid, p, c);
    case Opened => OpenedKeeps(s, pid, p, c);
    case Located => LocatedKeeps(s, pid, p);
    case Budgeted => BudgetedKeeps(s, pid, p);
    case Working =>
      if !c.ok { AbortKeeps(s, pid, p); }
      else if p.req.scope.TRAIN? && (p.token.None? || c.heartbeat) { LeaseKeeps(s, pid, p, c); }
      else { CommitKeeps(s, pid, p, c); }
    case Undo => FreedKeeps(s, pid, p);
    case Finally => FinallyKeeps(s, pid, p);
    case FinallyRelease => FreedKeeps(s, pid, p);
    case FinallyLease => FinallyLeaseKeeps(s, pid, p, c);
    case Settled => SettledKeeps(s, pid, p, c);
    case Handling => HandlingKeeps(s, pid, p, c);
    case Failing => FailingKeeps(s, pid, p, c);
    case Done =>
    case Dead =>
  }

  lemma SubmitKeeps(s: State, pid: nat, req: Request, run: Id)
    requires Inv(s) && s.up && pid !in s.procs && run !in s.used
    ensures Inv(Next(s, Submit(pid, req, run)))
  {
    var s' := Next(s, Submit(pid, req, run));
    SameRecords(s, s');
    SameEffects(s, s');
    SubmitKeepsProcs(s, pid, req, run);
    SubmitKeepsHolders(s, pid, req, run);
    assert Training(s') by {
      forall i | i in s'.procs && s'.procs[i].token.Some?
        ensures Issued(s'.db, LeaseOf(s'.procs[i].req), s'.procs[i].token.value, s'.procs[i].run)
      { assert s.procs[i].token.Some?; }
    }
  }

  lemma SubmitKeepsHolders(s: State, pid: nat, req: Request, run: Id)
    requires Holders(s) && s.up && pid !in s.procs && run !in s.used
    ensures Holders(Next(s, Submit(pid, req, run)))
  {
    var s' := Next(s, Submit(pid, req, run));
    forall k | k in s'.db.reservations && s'.db.reservations[k].status == RESERVED
      ensures exists i :: i in s'.procs && Holds(s'.procs[i], k)
    {
      var i :| i in s.procs && Holds(s.procs[i], k);
      assert Holds(s'.procs[i], k);
    }
  }

  lemma SubmitKeepsProcs(s: State, pid: nat, req: Request, run: Id)
    requires Procs(s) && s.up && pid !in s.procs && run !in s.used
    ensures Procs(Next(s, Submit(pid, req, run)))
  {
    var s' := Next(s, Submit(pid, req, run));
    forall i | i in s'.procs ensures ProcOk(s', s'.procs[i]) {
      if i != pid { assert ProcOk(s, s.procs[i]); }
    }
    forall i | i in s.procs ensures s.procs[i].run != run { assert ProcOk(s, s.procs[i]); }
  }

  lemma CrashKeeps(s: State)
    requires Inv(s)
    ensures Inv(Next(s, Crash))
  {
    SameRecords(s, Next(s, Crash));
    SameEffects(s, Next(s, Crash));
  }

  lemma RecoveredRecords(s: State, s': State, now: int)
    requires Idempotency(s) && Reconcile(s.db, now).Ok? && s'.db == Reconcile(s.db, now).value
    requires s'.commits == s.commits && s'.births == s.births
    ensures Idempotency(s')
  {
    forall k | k in s'.db.idempotency ensures RecordOk(s', k) { assert RecordOk(s, k); }
    forall r | r in s'.commits ensures Answered(s', r) { assert Answered(s, r); }
  }

  lemma RecoveredTraining(s: State, s': State, now: int)
    requires Training(s) && Reconcile(s.db, now).Ok? && s'.db == Reconcile(s.db, now).value && s'.procs == map[]
    requires s'.commits == s.commits && s'.trainers == s.trainers
    ensures Training(s')
  {
    forall i | 0 <= i < |s'.trainers|
      ensures Issued(s'.db, LeaseKey(s'.db.training[i].tenant, s'.db.training[i].policy), s'.db.training[i].token, s'.trainers[i])
    {
      assert Issued(s.db, LeaseKey(s.db.training[i].tenant, s.db.training[i].policy), s.db.training[i].token, s.trainers[i]);
    }
  }

  lemma RecoverKeeps(s: State, now: int)
    requires Inv(s) && !s.up
    ensures Inv(Next(s, Recover(now))) && Next(s, Recover(now)).up
  {
    var s' := Next(s, Recover(now));
    ReconcileKeepsLedger(s.db, now);
    RecoveredRecords(s, s', now);
    EffectsSameConsumed(s, s');
    RecoveredTraining(s, s', now);
    SameChain(s.db, s'.db);
  }

  lemma NextKeeps(s: State, a: Action)
    requires Inv(s)
    ensures Inv(Next(s, a))
  {
    match a
    case Submit(pid, req, run) => if s.up && pid !in s.procs && run !in s.used { SubmitKeeps(s, pid, req, run); }
    case Step(pid, c) => if s.up && pid in s.procs { StepKeeps(s, pid, c); }
    case Die(pid) => if s.up && pid in s.procs { DieKeeps(s, pid); }
    case Crash => CrashKeeps(s);
    case Recover(now) => if !s.up { RecoverKeeps(s, now); }
  }

  lemma {:induction false} RunKeeps(s: State, actions: seq<Action>)
    requires Inv(s)
    ensures Inv(Run(s, actions))
    decreases |actions|
  {
    if actions != [] {
      RunKeeps(s, actions[..|actions| - 1]);
      NextKeeps(Run(s, actions[..|actions| - 1]), actions[|actions| - 1]);
    }
  }

  lemma RunNext(s: State, actions: seq<Action>, a: Action)
    ensures Run(s, actions + [a]) == Next(Run(s, actions), a)
  {
    assert (actions + [a])[..|actions|] == actions;
  }

  lemma Reachable(actions: seq<Action>)
    ensures Inv(Run(INITIAL, actions))
  {
    RunKeeps(INITIAL, actions);
  }

  // ----- Exactly-once decisions -----

  ghost predicate HasExperience(db: Database, tenant: Id, run: Id) {
    ReceiptKey(Experience, tenant, run) in db.receipts
  }

  ghost predicate HasEvent(db: Database, tenant: Id, run: Id) {
    Event(tenant, run, DECISION) in db.events
  }

  ghost predicate Charged(db: Database, tenant: Id, run: Id) {
    exists k :: k in db.reservations && k.owner.tenant == tenant && k.id == DecisionRun(run)
                && db.reservations[k].status == CONSUMED
  }

  ghost predicate Replied(db: Database, tenant: Id, run: Id) {
    exists k :: k in db.idempotency && k.tenant == tenant && db.idempotency[k].status == COMPLETED
                && db.idempotency[k].result == Some(Success(DECISION, run))
  }

  /** In every reachable state the parts of a decision are all there or all missing, and a reply implies them. */
  lemma DecisionsAreAtomic(actions: seq<Action>, tenant: Id, run: Id)
    ensures var db := Run(INITIAL, actions).db;
            && (HasExperience(db, tenant, run) <==> HasEvent(db, tenant, run))
            && (HasEvent(db, tenant, run) <==> Charged(db, tenant, run))
            && (Replied(db, tenant, run) ==> HasEvent(db, tenant, run))
  {
    var s := Run(INITIAL, actions);
    Reachable(actions);
    WholeDecision(s, tenant, run);
  }

  ghost predicate DecisionCommitted(s: State, tenant: Id, run: Id) {
    run in s.commits && s.commits[run].key.scope.DECISION? && s.commits[run].key.tenant == tenant
  }

  lemma WholeDecision(s: State, tenant: Id, run: Id)
    requires Effects(s) && Idempotency(s)
    ensures HasExperience(s.db, tenant, run) <==> DecisionCommitted(s, tenant, run)
    ensures HasEvent(s.db, tenant, run) <==> DecisionCommitted(s, tenant, run)
    ensures Charged(s.db, tenant, run) <==> DecisionCommitted(s, tenant, run)
    ensures Replied(s.db, tenant, run) ==> DecisionCommitted(s, tenant, run)
  {
    if run in s.commits { assert CommitOk(s, run); }
    if HasEvent(s.db, tenant, run) {
      var i :| 0 <= i < |s.db.events| && s.db.events[i] == Event(tenant, run, DECISION);
      assert s.db.events[i].eventId in s.commits;
    }
    if Charged(s.db, tenant, run) { ChargedIsCommitted(s, tenant, run); }
    if Replied(s.db, tenant, run) { RepliedIsCommitted(s, tenant, run); }
  }

  lemma ChargedIsCommitted(s: State, tenant: Id, run: Id)
    requires Effects(s) && Charged(s.db, tenant, run)
    ensures DecisionCommitted(s, tenant, run)
  {
    var k :| k in s.db.reservations && k.owner.tenant == tenant && k.id == DecisionRun(run)
             && s.db.reservations[k].status == CONSUMED;
    var r :| r in s.commits && s.commits[r].reservation == Some(k);
    assert CommitOk(s, r);
  }

  lemma RepliedIsCommitted(s: State, tenant: Id, run: Id)
    requires Effects(s) && Idempotency(s) && Replied(s.db, tenant, run)
    ensures DecisionCommitted(s, tenant, run)
  {
    var k :| k in s.db.idempotency && k.tenant == tenant && s.db.idempotency[k].status == COMPLETED
             && s.db.idempotency[k].result == Some(Success(DECISION, run));
    assert RecordOk(s, k);
    var r :| r in s.commits && s.commits[r].key == k && s.commits[r].payload == Success(DECISION, run);
    assert CommitOk(s, r);
  }

  /**
   Between its insertion and its deletion an idempotency record gets at most one committed effect, of any kind,
   even when the TTL lets two executions of one key overlap; and while it lives it answers with that effect.
   */
  lemma RecordsCommitAtMostOnce(actions: seq<Action>, q: Id, r: Id)
    requires var s := Run(INITIAL, actions); q in s.commits && r in s.commits
    ensures var s := Run(INITIAL, actions);
            && (s.commits[q].key == s.commits[r].key && s.commits[q].serial == s.commits[r].serial ==> q == r)
            && (s.commits[r].serial == Births(s, s.commits[r].key) && s.commits[r].key in s.db.idempotency ==>
                  && s.db.idempotency[s.commits[r].key].status == COMPLETED
                  && s.db.idempotency[s.commits[r].key].result == Some(s.commits[r].payload))
  {
    Reachable(actions);
    assert Answered(Run(INITIAL, actions), r);
  }

  // ----- Budgets -----

  /** In every reachable state the ledger adds up and stays within its limits. */
  lemma LedgerAlwaysBalances(actions: seq<Action>, b: BudgetKey)
    requires b in Run(INITIAL, actions).db.budgets
    ensures var db := Run(INITIAL, actions).db;
            && db.budgets[b].reserved == Units(db.reservations, b, RESERVED)
            && db.budgets[b].consumed == Units(db.reservations, b, CONSUMED)
            && db.budgets[b].reserved + db.budgets[b].consumed <= db.budgets[b].limit
  {
    Reachable(actions);
    assert LedgerRow(Run(INITIAL, actions).db, b);
  }

  /** When the service is up and every request has returned, no capacity is left reserved. */
  lemma NoLeakedCapacity(actions: seq<Action>, b: BudgetKey)
    requires var s := Run(INITIAL, actions);
             s.up && b in s.db.budgets && forall pid :: pid in s.procs ==> s.procs[pid].pc == Done
    ensures Run(INITIAL, actions).db.budgets[b].reserved == 0
  {
    var s := Run(INITIAL, actions);
    Reachable(actions);
    assert LedgerRow(s.db, b);
    forall k | k in s.db.reservations ensures Share(k, s.db.reservations[k], b, RESERVED) == 0 {
      assert forall pid :: pid in s.procs ==> !Holds(s.procs[pid], k);
    }
    UnitsZero(s.db.reservations, b, RESERVED);
  }

  // ----- Crash recovery -----

  ghost predicate IsTombstone(db: Database, k: IdemKey) {
    && k in db.idempotency && db.idempotency[k].status == FAILED
    && db.idempotency[k].result == Some(Interrupted) && db.idempotency[k].expires == None
  }

  /** Recovery after any crash succeeds, frees all reserved capacity, and keeps charges, commits and tokens. */
  lemma RecoveryIsSound(actions: seq<Action>, now: int)
    requires !Run(INITIAL, actions).up
    ensures var s := Run(INITIAL, actions);
            var s' := Next(s, Recover(now));
            && Reconcile(s.db, now).Ok? && s'.up
            && s'.commits == s.commits && s'.db.events == s.db.events && s'.db.receipts == s.db.receipts
            && s'.db.training == s.db.training && s'.db.audit == s.db.audit
            && (forall b :: b in s.db.budgets ==>
                  b in s'.db.budgets && s'.db.budgets[b].reserved == 0
                  && s'.db.budgets[b].consumed == s.db.budgets[b].consumed && s'.db.budgets[b].limit == s.db.budgets[b].limit)
            && (forall k :: k in s.db.leases ==>
                  k in s'.db.leases && s'.db.leases[k].token == s.db.leases[k].token && s'.db.leases[k].holder == None)
            && (forall k :: k in s.db.idempotency ==>
                  k in s'.db.idempotency
                  && if s.db.idempotency[k].status == IN_PROGRESS then IsTombstone(s'.db, k)
                     else s'.db.idempotency[k] == s.db.idempotency[k])
  {
    var s := Run(INITIAL, actions);
    Reachable(actions);
    ReconcileKeepsLedger(s.db, now);
  }
}
