/** The commit transaction of every operation keeps the invariant: all of its parts, or none. */
module ControlCommit {
  import opened Wrappers
  import opened Store
  import opened Control
  import opened ControlInvariant
  import opened ControlSteps
  import opened ControlBudget

  // ----- What a successful commit did to the tables -----

  function NoteOf(s: State, p: Proc): Commit {
    Commit(KeyOf(p.req), Births(s, KeyOf(p.req)), if Budgetary(p.req.scope) then Some(ReservationOf(p)) else None,
           ResponseOf(p), |s.db.events|, |s.db.training|)
  }

  /** The reservation row became CONSUMED and no other row changed. */
  ghost predicate Spent(db: Database, db': Database, p: Proc) {
    var k := ReservationOf(p);
    if Budgetary(p.req.scope) then
      && k in db.reservations && k in db'.reservations
      && db'.reservations == db.reservations[k := db'.reservations[k]]
      && db'.reservations[k].status == CONSUMED
    else db'.reservations == db.reservations && db'.budgets == db.budgets
  }

  ghost predicate Receipted(db: Database, db': Database, p: Proc, note: Commit) {
    match ReceiptOf(note, p.run)
    case None => db'.receipts == db.receipts
    case Some(k) => k !in db.receipts && db'.receipts == db.receipts + {k}
  }

  ghost predicate Finalized(db: Database, db': Database, p: Proc) {
    var k := KeyOf(p.req);
    && k in db.idempotency && k in db'.idempotency
    && db'.idempotency == db.idempotency[k := db'.idempotency[k]]
    && db'.idempotency[k].status == COMPLETED && db'.idempotency[k].result == Some(ResponseOf(p))
    && db'.idempotency[k].expires == db.idempotency[k].expires && db'.idempotency[k].hash == db.idempotency[k].hash
    && (db.idempotency[k].status == IN_PROGRESS
        || (db.idempotency[k].status == COMPLETED && db.idempotency[k].result == Some(ResponseOf(p))))
  }

  ghost predicate Trained(db: Database, db': Database, p: Proc, c: Choice) {
    var row := TrainingRowOf(p, c);
    var lease := LeaseOf(p.req);
    if p.req.scope.TRAIN? then
      && row.token >= 1
      && lease in db.leases && db.leases[lease].holder == Some(p.run) && db.leases[lease].token == row.token
      && lease in db'.leases && db'.leases == db.leases[lease := db'.leases[lease]]
      && db'.leases[lease].holder == Some(p.run) && db'.leases[lease].token == row.token
      && ((db'.training == db.training && row in db.training)
          || (db'.training == db.training + [row]
              && forall i :: 0 <= i < |db.training| ==>
                   db.training[i].tenant != row.tenant || db.training[i].trainingId != row.trainingId))
    else db'.leases == db.leases && db'.training == db.training
  }

  ghost predicate Tables(db: Database, db': Database, p: Proc, note: Commit, c: Choice) {
    && db'.events == db.events + [Event(p.req.tenant, p.run, p.req.scope)]
    && Receipted(db, db', p, note)
    && Spent(db, db', p)
    && Finalized(db, db', p)
    && Trained(db, db', p, c)
    && (!p.req.scope.PROMOTE? && !p.req.scope.ROLLBACK? ==> ChampionsKept(db, db'))
    && (!p.req.scope.TRAIN? ==> db'.artifacts == db.artifacts)
  }

  /** The champion tables are untouched and artifacts are only added. */
  ghost predicate ChampionsKept(db: Database, db': Database) {
    && db'.champions == db.champions && db'.audit == db.audit
    && forall k :: k in db.artifacts ==> k in db'.artifacts && db'.artifacts[k] == db.artifacts[k]
  }

  /** Consuming and completing, the two steps every budgeted commit shares. */
  lemma SpendAndFinish(db: Database, p: Proc, db1: Database, db2: Database)
    requires Budgetary(p.req.scope)
    requires TransitionReservation(db, ReservationOf(p), CONSUMED) == Ok(db1)
    requires db2.idempotency == db.idempotency
    requires FinishIdempotency(db2, KeyOf(p.req), COMPLETED, ResponseOf(p)).Ok?
    ensures db1 == db.(budgets := db1.budgets, reservations := db1.reservations) && Spent(db, db1, p)
    ensures var db3 := FinishIdempotency(db2, KeyOf(p.req), COMPLETED, ResponseOf(p)).value;
            db3 == db2.(idempotency := db3.idempotency) && Finalized(db, db3, p)
  {
  }

  lemma DecisionTables(s: State, p: Proc, c: Choice)
    requires p.req.scope.DECISION? && CommitDecision(s.db, p).Ok?
    ensures Tables(s.db, CommitDecision(s.db, p).value, p, NoteOf(s, p), c)
  {
    var db1 := RecordReceipt(s.db, ReceiptKey(Experience, p.req.tenant, p.run)).value;
    var db2 := AppendEvent(db1, Event(p.req.tenant, p.run, p.req.scope)).value;
    var db3 := TransitionReservation(db2, ReservationOf(p), CONSUMED).value;
    SpendAndFinish(db2, p, db3, db3);
  }

  lemma BenchmarkTables(s: State, p: Proc, c: Choice)
    requires p.req.scope.BENCHMARK? && CommitBenchmark(s.db, p).Ok?
    ensures Tables(s.db, CommitBenchmark(s.db, p).value, p, NoteOf(s, p), c)
  {
    var db1 := TransitionReservation(s.db, ReservationOf(p), CONSUMED).value;
    var db2 := RecordReceipt(db1, ReceiptKey(Evidence, p.req.tenant, p.run)).value;
    SpendAndFinish(s.db, p, db1, AppendEvent(db2, Event(p.req.tenant, p.run, p.req.scope)).value);
  }

  lemma Registered(db: Database, k: ArtifactKey, row: Artifact)
    requires RegisterArtifact(db, k, row).Ok?
    ensures var db' := RegisterArtifact(db, k, row).value; db' == db.(artifacts := db'.artifacts) && ChampionsKept(db, db')
  {
  }

  lemma Recorded(db: Database, row: TrainingRun)
    requires RecordTrainingRun(db, row).Ok?
    ensures var db' := RecordTrainingRun(db, row).value;
            && db' == db.(training := db'.training) && row.token >= 1
            && ((db'.training == db.training && row in db.training)
                || (db'.training == db.training + [row]
                    && forall i :: 0 <= i < |db.training| ==>
                         db.training[i].tenant != row.tenant || db.training[i].trainingId != row.trainingId))
  {
  }

  lemma TrainRows(db: Database, p: Proc, c: Choice, db3: Database)
    requires p.req.scope.TRAIN?
    requires var db1 := RenewLease(db, LeaseOf(p.req), p.run, TokenOf(p), c.ttl, c.now);
             && db1.Ok?
             && var db2 := RegisterArtifact(db1.value, ArtifactKey(p.req.tenant, c.artifact), ArtifactOf(p.req, c));
             && db2.Ok? && RecordTrainingRun(db2.value, TrainingRowOf(p, c)) == Ok(db3)
    ensures db3 == db.(leases := db3.leases, artifacts := db3.artifacts, training := db3.training)
    ensures Trained(db, db3, p, c)
    ensures ChampionsKept(db, db3)
  {
    var db1 := RenewLease(db, LeaseOf(p.req), p.run, TokenOf(p), c.ttl, c.now).value;
    var k, row := ArtifactKey(p.req.tenant, c.artifact), ArtifactOf(p.req, c);
    Registered(db1, k, row);
    Recorded(RegisterArtifact(db1, k, row).value, TrainingRowOf(p, c));
  }

  lemma TrainTables(s: State, p: Proc, c: Choice)
    requires p.req.scope.TRAIN? && CommitTraining(s.db, p, c).Ok?
    ensures Tables(s.db, CommitTraining(s.db, p, c).value, p, NoteOf(s, p), c)
  {
    var db1 := RenewLease(s.db, LeaseOf(p.req), p.run, TokenOf(p), c.ttl, c.now).value;
    var db2 := RegisterArtifact(db1, ArtifactKey(p.req.tenant, c.artifact), ArtifactOf(p.req, c)).value;
    var db3 := RecordTrainingRun(db2, TrainingRowOf(p, c)).value;
    TrainRows(s.db, p, c, db3);
    var db4 := AppendEvent(db3, Event(p.req.tenant, p.run, p.req.scope)).value;
    var db5 := TransitionReservation(db4, ReservationOf(p), CONSUMED).value;
    SpendAndFinish(db4, p, db5, db5);
  }

  lemma PromoteTables(s: State, p: Proc, c: Choice)
    requires p.req.scope.PROMOTE? && CommitPromotion(s.db, p).Ok?
    ensures Tables(s.db, CommitPromotion(s.db, p).value, p, NoteOf(s, p), c)
  {
  }

  lemma RollbackTables(s: State, p: Proc, c: Choice)
    requires p.req.scope.ROLLBACK? && CommitRollback(s.db, p).Ok?
    ensures Tables(s.db, CommitRollback(s.db, p).value, p, NoteOf(s, p), c)
  {
  }

  lemma CommitTables(s: State, p: Proc, c: Choice)
    requires CommitEffect(s.db, p, c).Ok?
    ensures Tables(s.db, CommitEffect(s.db, p, c).value, p, NoteOf(s, p), c)
  {
    match p.req.scope
    case DECISION => DecisionTables(s, p, c);
    case BENCHMARK => BenchmarkTables(s, p, c);
    case TRAIN => TrainTables(s, p, c);
    case PROMOTE => PromoteTables(s, p, c);
    case ROLLBACK => RollbackTables(s, p, c);
  }

  // ----- Ledger and champion chain -----

  /** The row a commit writes back is the one `consume_budget` computes from the original tables. */
  lemma SpentRows(db: Database, db1: Database, p: Proc)
    requires db1.budgets == db.budgets && db1.reservations == db.reservations
    requires TransitionReservation(db1, ReservationOf(p), CONSUMED).Ok?
    ensures TransitionReservation(db, ReservationOf(p), CONSUMED).Ok?
    ensures TransitionReservation(db, ReservationOf(p), CONSUMED).value.budgets
         == TransitionReservation(db1, ReservationOf(p), CONSUMED).value.budgets
    ensures TransitionReservation(db, ReservationOf(p), CONSUMED).value.reservations
         == TransitionReservation(db1, ReservationOf(p), CONSUMED).value.reservations
  {
  }

  lemma SpentLedger(db: Database, db1: Database, p: Proc, db': Database)
    requires Ledger(db) && db1.budgets == db.budgets && db1.reservations == db.reservations
    requires TransitionReservation(db1, ReservationOf(p), CONSUMED).Ok?
    requires db'.budgets == TransitionReservation(db1, ReservationOf(p), CONSUMED).value.budgets
    requires db'.reservations == TransitionReservation(db1, ReservationOf(p), CONSUMED).value.reservations
    ensures Ledger(db')
  {
    SpentRows(db, db1, p);
    TransitionKeepsLedger(db, ReservationOf(p), CONSUMED);
    SameLedger(TransitionReservation(db, ReservationOf(p), CONSUMED).value, db');
  }

  lemma DecisionLedger(db: Database, p: Proc)
    requires Ledger(db) && CommitDecision(db, p).Ok?
    ensures Ledger(CommitDecision(db, p).value)
  {
    var db1 := RecordReceipt(db, ReceiptKey(Experience, p.req.tenant, p.run)).value;
    var db2 := AppendEvent(db1, Event(p.req.tenant, p.run, p.req.scope)).value;
    SpentLedger(db, db2, p, CommitDecision(db, p).value);
  }

  lemma BenchmarkLedger(db: Database, p: Proc)
    requires Ledger(db) && CommitBenchmark(db, p).Ok?
    ensures Ledger(CommitBenchmark(db, p).value)
  {
    SpentLedger(db, db, p, CommitBenchmark(db, p).value);
  }

  lemma TrainLedger(db: Database, p: Proc, c: Choice)
    requires p.req.scope.TRAIN? && Ledger(db) && CommitTraining(db, p, c).Ok?
    ensures Ledger(CommitTraining(db, p, c).value)
  {
    var db1 := RenewLease(db, LeaseOf(p.req), p.run, TokenOf(p), c.ttl, c.now).value;
    var db2 := RegisterArtifact(db1, ArtifactKey(p.req.tenant, c.artifact), ArtifactOf(p.req, c)).value;
    var db3 := RecordTrainingRun(db2, TrainingRowOf(p, c)).value;
    var db4 := AppendEvent(db3, Event(p.req.tenant, p.run, p.req.scope)).value;
    TrainRows(db, p, c, db3);
    SpentLedger(db, db4, p, CommitTraining(db, p, c).value);
  }

  lemma CommitLedger(db: Database, p: Proc, c: Choice)
    requires Ledger(db) && CommitEffect(db, p, c).Ok? && Spent(db, CommitEffect(db, p, c).value, p)
    ensures Ledger(CommitEffect(db, p, c).value)
  {
    match p.req.scope
    case DECISION => DecisionLedger(db, p);
    case BENCHMARK => BenchmarkLedger(db, p);
    case TRAIN => TrainLedger(db, p, c);
    case PROMOTE => SameLedger(db, CommitEffect(db, p, c).value);
    case ROLLBACK => SameLedger(db, CommitEffect(db, p, c).value);
  }

  ghost predicate Extends(db: Database, db': Database, f: FamilyKey, artifact: Id, generation: nat) {
    && generation == (if f in db.champions then db.champions[f].generation + 1 else 1)
    && AuditKey(f, generation) !in db.audit && CurrentArtifact(db, f) != Some(artifact)
    && ArtifactKey(f.tenant, artifact) in db.artifacts && db.artifacts[ArtifactKey(f.tenant, artifact)].policy == f.policy
    && db'.artifacts == db.artifacts
    && db'.champions == db.champions[f := Champion(artifact, generation)]
    && db'.audit == db.audit[AuditKey(f, generation) := Promotion(artifact, CurrentArtifact(db, f))]
  }

  lemma OldRow(db: Database, db': Database, f: FamilyKey, artifact: Id, generation: nat, k: AuditKey)
    requires Extends(db, db', f, artifact, generation) && k in db.audit && ChainRow(db, k)
    ensures k in db'.audit && ChainRow(db', k)
  {
  }

  lemma NewRow(db: Database, db': Database, f: FamilyKey, artifact: Id, generation: nat)
    requires Extends(db, db', f, artifact, generation)
    requires f in db.champions ==>
               var last := AuditKey(f, db.champions[f].generation);
               last in db.audit && ChainRow(db, last) && db.audit[last].artifact == db.champions[f].artifact
    ensures ChainRow(db', AuditKey(f, generation))
  {
  }

  lemma ExtendsChain(db: Database, db': Database, f: FamilyKey, artifact: Id, generation: nat)
    requires Chain(db) && Extends(db, db', f, artifact, generation)
    ensures Chain(db')
  {
    forall k | k in db'.audit ensures ChainRow(db', k) {
      if k in db.audit {
        OldRow(db, db', f, artifact, generation, k);
      } else {
        NewRow(db, db', f, artifact, generation);
      }
    }
  }

  lemma PromoteKeepsChain(db: Database, f: FamilyKey, artifact: Id, expected: Option<Id>)
    requires Chain(db) && PromotePolicy(db, f, artifact, expected).Ok?
    ensures Chain(PromotePolicy(db, f, artifact, expected).value)
  {
    if CurrentArtifact(db, f) != Some(artifact) {
      var generation := if f in db.champions then db.champions[f].generation + 1 else 1;
      ExtendsChain(db, PromotePolicy(db, f, artifact, expected).value, f, artifact, generation);
    }
  }

  lemma GrownChain(db: Database, db': Database)
    requires Chain(db) && db'.champions == db.champions && db'.audit == db.audit
    requires forall k :: k in db.artifacts ==> k in db'.artifacts && db'.artifacts[k] == db.artifacts[k]
    ensures Chain(db')
  {
    forall k | k in db'.audit ensures ChainRow(db', k) { assert ChainRow(db, k); }
  }

  lemma PromotionChain(db: Database, p: Proc)
    requires Chain(db) && CommitPromotion(db, p).Ok?
    ensures Chain(CommitPromotion(db, p).value)
  {
    var db1 := RecordReceipt(db, ReceiptKey(Evidence, p.req.tenant, p.run)).value;
    var db2 := PromotePolicy(db1, FamilyOf(p.req), p.req.artifact, Expected(p)).value;
    SameChain(db, db1);
    PromoteKeepsChain(db1, FamilyOf(p.req), p.req.artifact, Expected(p));
    SameChain(db2, CommitPromotion(db, p).value);
  }

  lemma RollbackChain(db: Database, p: Proc)
    requires Chain(db) && CommitRollback(db, p).Ok?
    ensures Chain(CommitRollback(db, p).value)
  {
    var db1 := PromotePolicy(db, FamilyOf(p.req), p.target, Expected(p)).value;
    PromoteKeepsChain(db, FamilyOf(p.req), p.target, Expected(p));
    SameChain(db1, CommitRollback(db, p).value);
  }

  lemma CommitChain(db: Database, p: Proc, c: Choice)
    requires Chain(db) && CommitEffect(db, p, c).Ok?
    requires !p.req.scope.PROMOTE? && !p.req.scope.ROLLBACK? ==> ChampionsKept(db, CommitEffect(db, p, c).value)
    ensures Chain(CommitEffect(db, p, c).value)
  {
    if p.req.scope.PROMOTE? {
      PromotionChain(db, p);
    } else if p.req.scope.ROLLBACK? {
      RollbackChain(db, p);
    } else {
      GrownChain(db, CommitEffect(db, p, c).value);
    }
  }

  // ----- Training rows and idempotency records -----

  /** A worker that passes the final renewal has committed no row under its token yet. */
  lemma RowIsNew(s: State, pid: nat, p: Proc, db': Database, c: Choice)
    requires Training(s) && Procs(s) && pid in s.procs && p == s.procs[pid] && p.pc.Working? && p.req.scope.TRAIN?
    requires Trained(s.db, db', p, c)
    ensures db'.training == s.db.training + [TrainingRowOf(p, c)]
    ensures forall i :: 0 <= i < |s.db.training| ==>
              s.db.training[i].tenant != p.req.tenant || s.db.training[i].trainingId != p.req.key
    ensures forall i :: 0 <= i < |s.db.training| ==>
              s.db.training[i].tenant == p.req.tenant && s.db.training[i].policy == p.req.family ==>
                s.db.training[i].token < TrainingRowOf(p, c).token
  {
    var row := TrainingRowOf(p, c);
    assert ProcOk(s, p);
    forall i | 0 <= i < |s.db.training| && s.db.training[i].tenant == p.req.tenant && s.db.training[i].policy == p.req.family
      ensures s.db.training[i].token < row.token
    {
      assert Issued(s.db, LeaseKey(s.db.training[i].tenant, s.db.training[i].policy), s.db.training[i].token, s.trainers[i]);
      assert s.trainers[i] in s.commits;
    }
  }

  /** The completion inside the commit always meets an open record. */
  lemma RecordIsOpen(s: State, pid: nat, p: Proc, db': Database, c: Choice)
    requires Effects(s) && Idempotency(s) && Training(s) && Procs(s)
    requires pid in s.procs && p == s.procs[pid] && p.pc.Working?
    requires Finalized(s.db, db', p) && Trained(s.db, db', p, c)
    ensures s.db.idempotency[KeyOf(p.req)].status == IN_PROGRESS
  {
    var k := KeyOf(p.req);
    assert ProcOk(s, p);
    if s.db.idempotency[k].status == COMPLETED {
      assert RecordOk(s, k);
      var r :| r in s.commits && s.commits[r].key == k && s.commits[r].payload == ResponseOf(p);
      assert CommitOk(s, r);
      if p.req.scope.TRAIN? {
        assert s.trainers[s.commits[r].row] == r;
        RowIsNew(s, pid, p, db', c);
      }
    }
  }

  /** What the commit adds to the observation fields. */
  ghost predicate Noted(s: State, s': State, p: Proc) {
    && p.run !in s.commits
    && s'.commits == s.commits[p.run := NoteOf(s, p)]
    && s'.births == s.births
    && s'.trainers == (if p.req.scope.TRAIN? then s.trainers + [p.run] else s.trainers)
  }

  lemma CommitRecords(s: State, s': State, p: Proc)
    requires Idempotency(s) && Noted(s, s', p) && Finalized(s.db, s'.db, p)
    requires s.db.idempotency[KeyOf(p.req)].status == IN_PROGRESS
    ensures Idempotency(s')
  {
    var k := KeyOf(p.req);
    assert RecordOk(s, k);
    forall j | j in s'.db.idempotency ensures RecordOk(s', j) {
      if j == k {
        assert s'.commits[p.run].key == k;
      } else {
        assert RecordOk(s, j);
        if s.db.idempotency[j].status == COMPLETED {
          var r :| r in s.commits && s.commits[r].key == j && s.commits[r].payload == s.db.idempotency[j].result.value;
          assert s'.commits[r] == s.commits[r];
        }
      }
    }
    forall r | r in s.commits ensures s.commits[r].key == k ==> s.commits[r].serial < Births(s, k) {
      assert Answered(s, r);
    }
    forall r | r in s'.commits ensures Answered(s', r) {
      if r != p.run { assert Answered(s, r); }
    }
  }

  lemma CommitEffects(s: State, s': State, p: Proc)
    requires Effects(s) && Noted(s, s', p)
    requires s'.db.events == s.db.events + [Event(p.req.tenant, p.run, p.req.scope)]
    requires Receipted(s.db, s'.db, p, NoteOf(s, p)) && Spent(s.db, s'.db, p)
    requires |s.trainers| == |s.db.training|
    ensures Effects(s')
  {
    forall r | r in s'.commits ensures CommitOk(s', r) {
      if r != p.run { assert CommitOk(s, r); }
    }
    forall k | k in s'.db.reservations && s'.db.reservations[k].status == CONSUMED
      ensures exists r :: r in s'.commits && s'.commits[r].reservation == Some(k)
    {
      if Budgetary(p.req.scope) && k == ReservationOf(p) {
        assert s'.commits[p.run].reservation == Some(k);
      } else {
        var r :| r in s.commits && s.commits[r].reservation == Some(k);
        assert s'.commits[r].reservation == Some(k);
      }
    }
  }

  lemma CommitTrainingRows(s: State, s': State, pid: nat, p: Proc, c: Choice)
    requires Training(s) && Noted(s, s', p) && Moved(s, s', pid) && p == s.procs[pid] && s'.procs[pid].token == p.token
    requires Trained(s.db, s'.db, p, c)
    requires p.req.scope.TRAIN? ==>
               && s'.db.training == s.db.training + [TrainingRowOf(p, c)]
               && (forall i :: 0 <= i < |s.db.training| ==>
                     s.db.training[i].tenant != p.req.tenant || s.db.training[i].trainingId != p.req.key)
               && (forall i :: 0 <= i < |s.db.training| ==>
                     s.db.training[i].tenant == p.req.tenant && s.db.training[i].policy == p.req.family ==>
                       s.db.training[i].token < TrainingRowOf(p, c).token)
    ensures Training(s')
  {
    var lease := LeaseOf(p.req);
    forall i | i in s'.procs && s'.procs[i].token.Some?
      ensures Issued(s'.db, LeaseOf(s'.procs[i].req), s'.procs[i].token.value, s'.procs[i].run)
    {
      assert Issued(s.db, LeaseOf(s.procs[i].req), s.procs[i].token.value, s.procs[i].run);
    }
    forall i | 0 <= i < |s'.trainers|
      ensures s'.trainers[i] in s'.commits && s'.commits[s'.trainers[i]].row == i
      ensures s'.commits[s'.trainers[i]].key == IdemKey(s'.db.training[i].tenant, TRAIN, s'.db.training[i].trainingId)
      ensures Issued(s'.db, LeaseKey(s'.db.training[i].tenant, s'.db.training[i].policy), s'.db.training[i].token, s'.trainers[i])
    {
      if i < |s.trainers| {
        assert s'.db.training[i] == s.db.training[i] && s'.trainers[i] == s.trainers[i];
        assert Issued(s.db, LeaseKey(s.db.training[i].tenant, s.db.training[i].policy), s.db.training[i].token, s.trainers[i]);
      }
    }
  }

  lemma CommitProcs(s: State, s': State, pid: nat)
    requires Procs(s) && Moved(s, s', pid) && Noted(s, s', s.procs[pid]) && s'.used == s.used
    requires ProcOk(s', s'.procs[pid])
    ensures Procs(s')
  {
    assert ProcOk(s, s.procs[pid]);
    forall i | i in s'.procs ensures ProcOk(s', s'.procs[i]) {
      if i != pid { assert ProcOk(s, s.procs[i]); }
    }
  }

  lemma CommitHolders(s: State, s': State, pid: nat, p: Proc)
    requires Holders(s) && s.up && s'.up && Moved(s, s', pid) && p == s.procs[pid] && Spent(s.db, s'.db, p)
    ensures Holders(s')
  {
    forall k | k in s'.db.reservations && s'.db.reservations[k].status == RESERVED
      ensures exists i :: i in s'.procs && Holds(s'.procs[i], k)
    {
      var i :| i in s.procs && Holds(s.procs[i], k);
      assert i != pid;
      assert Holds(s'.procs[i], k);
    }
  }

  lemma CommitMoves(s: State, s': State, pid: nat, p: Proc, c: Choice)
    requires pid in s.procs && p == s.procs[pid] && p.pc.Working? && ProcOk(s, p)
    requires CommitEffect(s.db, p, c).Ok? && s' == StepCommit(s, pid, p, c)
    requires p.req.scope.TRAIN? <==> |CommitEffect(s.db, p, c).value.training| > |s.db.training|
    ensures Noted(s, s', p) && Moved(s, s', pid) && s'.procs[pid].token == p.token && s'.used == s.used && s'.up == s.up
    ensures ProcOk(s', s'.procs[pid]) && s'.db == CommitEffect(s.db, p, c).value
  {
  }

  lemma CommitKeeps(s: State, pid: nat, p: Proc, c: Choice)
    requires Inv(s) && s.up && pid in s.procs && p == s.procs[pid] && p.pc.Working?
    ensures Inv(StepCommit(s, pid, p, c))
  {
    assert ProcOk(s, p);
    if CommitEffect(s.db, p, c).Ok? {
      var s' := StepCommit(s, pid, p, c);
      var db' := CommitEffect(s.db, p, c).value;
      CommitTables(s, p, c);
      RecordIsOpen(s, pid, p, db', c);
      if p.req.scope.TRAIN? { RowIsNew(s, pid, p, db', c); }
      CommitMoves(s, s', pid, p, c);
      CommitLedger(s.db, p, c);
      CommitChain(s.db, p, c);
      CommitRecords(s, s', p);
      CommitEffects(s, s', p);
      CommitTrainingRows(s, s', pid, p, c);
      CommitProcs(s, s', pid);
      CommitHolders(s, s', pid, p);
    } else {
      AbortKeeps(s, pid, p);
    }
  }
}
