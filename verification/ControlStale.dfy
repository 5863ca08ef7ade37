/**
 A run of the control plane in which a rollback misses the predecessor: three challengers are trained, A and B promoted,
 a rollback reads B over A, C and then B again are promoted, and the rollback commits.
 */
module ControlStale {
  import opened Wrappers
  import opened Store
  import opened Control
  import opened ControlInvariant
  import opened ControlCommit
  import opened ControlTheorems
  import opened ControlLater
  import opened ControlRollback
  import opened ControlScript

  const FAMILY: FamilyKey := FamilyKey(0, 0)
  const PURSE: BudgetKey := BudgetKey(0, 0)
  const LEASE: LeaseKey := LeaseKey(0, 0)

  /** Operation `n` of the run, with key, process and run id `n`, at time 10n. */
  function Ask(scope: Scope, n: nat, artifact: Id): Request { Request(scope, 0, n, 0, 0, 10, 1, 0, artifact, 0) }

  /** Nothing in the state stands in the way of operation `n`. */
  ghost predicate Clear(s: State, n: nat) {
    && s.up
    && (forall pid :: pid in s.procs ==> pid < n)
    && (forall r :: r in s.used ==> r < n)
    && ClearTables(s.db, n)
  }

  ghost predicate ClearTables(db: Database, n: nat) {
    && (forall k :: k in db.idempotency ==> k.key < n && db.idempotency[k].expires.Some? && db.idempotency[k].expires.value >= TTL)
    && (forall k :: k in db.reservations ==> k.id.TrainingRunOf? && k.id.holder < n)
    && (forall k :: k in db.receipts ==> k.id < n)
    && (forall i :: 0 <= i < |db.training| ==> db.training[i].trainingId < n)
    && (forall k :: k in db.artifacts ==> k.artifact < n && db.artifacts[k].version < n)
    && (PURSE in db.budgets ==> db.budgets[PURSE].limit == 10 && db.budgets[PURSE].reserved + db.budgets[PURSE].consumed <= n)
    && (LEASE in db.leases ==> db.leases[LEASE].expires <= 10 * n)
  }

  /** The earlier processes, records and artifacts are as they were. */
  ghost predicate Beside(s: State, s': State) {
    && (forall pid :: pid in s.procs ==> pid in s'.procs && s'.procs[pid] == s.procs[pid])
    && (forall k :: k in s.db.idempotency ==> k in s'.db.idempotency && s'.db.idempotency[k] == s.db.idempotency[k])
    && (forall k :: k in s.db.artifacts ==> k in s'.db.artifacts && s'.db.artifacts[k] == s.db.artifacts[k])
  }

  lemma BesideTransitive(s: State, t: State, u: State)
    requires Beside(s, t) && Beside(t, u)
    ensures Beside(s, u)
  {
  }

  /** The first two steps of any operation. */
  lemma Starts(s: State, n: nat, q: Request)
    requires Clear(s, n) && n <= 9 && q.key == n && q.tenant == 0
    ensures Run(s, [Submit(n, q, n), Step(n, At(10 * n))]) == Began(s, n, q, n, 10 * n)
    ensures Began(s, n, q, n, 10 * n).db == s.db.(idempotency := s.db.idempotency[KeyOf(q) := Opening(q, 10 * n)])
  {
    assert Unexpired(s.db.idempotency, 10 * n) == s.db.idempotency;
    Begins(s, n, q, n, 10 * n);
  }

  // ----- Training -----

  function Spending(n: nat): ReservationKey { ReservationKey(PURSE, TrainingRunOf(n)) }

  lemma TrainingReserves(db: Database, n: nat) returns (db': Database)
    requires (PURSE in db.budgets ==> db.budgets[PURSE].limit == 10 && db.budgets[PURSE].reserved + db.budgets[PURSE].consumed <= n)
    requires n <= 9 && Spending(n) !in db.reservations
    ensures CreateBudget(db, PURSE, 10).Ok?
    ensures ReserveBudget(CreateBudget(db, PURSE, 10).value, Spending(n), 1) == Ok(db')
    ensures db' == db.(budgets := db'.budgets, reservations := db.reservations[Spending(n) := Reservation(1, RESERVED)])
    ensures PURSE in db'.budgets && db'.budgets[PURSE].limit == 10 && db'.budgets[PURSE].reserved >= 1
    ensures db'.budgets[PURSE].reserved + db'.budgets[PURSE].consumed <= n + 1
  {
    db' := ReserveBudget(CreateBudget(db, PURSE, 10).value, Spending(n), 1).value;
  }

  lemma TrainingLeases(s: State, pid: nat, p: Proc, now: int) returns (row: Lease)
    requires s.up && pid in s.procs && p == s.procs[pid] && p.pc.Working? && p.req.scope.TRAIN? && p.token.None?
    requires LeaseOf(p.req) in s.db.leases ==> s.db.leases[LeaseOf(p.req)].expires <= now
    ensures row.holder == Some(p.run) && row.expires == now + 1
    ensures Next(s, Step(pid, At(now)))
         == Put(s, pid, p.(token := Some(row.token)), s.db.(leases := s.db.leases[LeaseOf(p.req) := row]))
  {
    row := AcquiredRow(s.db.leases, LeaseOf(p.req), p.run, 1, now).value;
    assert AcquireLease(s.db, LeaseOf(p.req), p.run, 1, now) == Ok(s.db.(leases := s.db.leases[LeaseOf(p.req) := row]));
    assert Next(s, Step(pid, At(now))) == StepLease(s, pid, p, At(now));
  }

  /** Everything the commit of training `n` needs. */
  ghost predicate Trainable(db: Database, p: Proc, n: nat) {
    && p.req == Ask(TRAIN, n, 0) && p.run == n && p.token.Some? && p.token.value >= 1
    && LEASE in db.leases && db.leases[LEASE] == Lease(Some(n), p.token.value, 10 * n + 1)
    && (forall k :: k in db.artifacts ==> k.artifact < n && db.artifacts[k].version < n)
    && (forall i :: 0 <= i < |db.training| ==> db.training[i].trainingId < n)
    && Spending(n) in db.reservations && db.reservations[Spending(n)] == Reservation(1, RESERVED)
    && PURSE in db.budgets && db.budgets[PURSE].reserved >= 1
    && db.budgets[PURSE].reserved + db.budgets[PURSE].consumed <= db.budgets[PURSE].limit
    && KeyOf(p.req) in db.idempotency && db.idempotency[KeyOf(p.req)] == Opening(p.req, 10 * n)
  }

  lemma ArtifactWrites(db: Database, p: Proc, n: nat) returns (db': Database)
    requires Trainable(db, p, n)
    ensures var c := Made(10 * n, n);
            var db1 := RenewLease(db, LEASE, n, p.token.value, 1, 10 * n);
            && db1 == Ok(db)
            && var db2 := RegisterArtifact(db, ArtifactKey(0, n), ArtifactOf(p.req, c));
               db2.Ok? && RecordTrainingRun(db2.value, TrainingRowOf(p, c)) == Ok(db')
    ensures db' == db.(artifacts := db.artifacts[ArtifactKey(0, n) := Artifact(0, n, n)],
                       training := db.training + [TrainingRowOf(p, Made(10 * n, n))])
  {
    var c := Made(10 * n, n);
    assert db.leases[LEASE := db.leases[LEASE].(expires := 10 * n + 1)] == db.leases;
    var db2 := RegisterArtifact(db, ArtifactKey(0, n), ArtifactOf(p.req, c)).value;
    db' := RecordTrainingRun(db2, TrainingRowOf(p, c)).value;
  }

  lemma TrainingWrites(db: Database, p: Proc, n: nat) returns (db': Database)
    requires Trainable(db, p, n)
    ensures CommitTraining(db, p, Made(10 * n, n)) == Ok(db')
    ensures db'.champions == db.champions && db'.audit == db.audit && db'.leases == db.leases && db'.receipts == db.receipts
    ensures db'.artifacts == db.artifacts[ArtifactKey(0, n) := Artifact(0, n, n)]
    ensures db'.training == db.training + [TrainingRowOf(p, Made(10 * n, n))]
    ensures db'.reservations.Keys == db.reservations.Keys
    ensures PURSE in db'.budgets && db'.budgets[PURSE].limit == db.budgets[PURSE].limit
    ensures db'.budgets[PURSE].reserved + db'.budgets[PURSE].consumed == db.budgets[PURSE].reserved + db.budgets[PURSE].consumed
    ensures db'.idempotency == db.idempotency[KeyOf(p.req) := Opening(p.req, 10 * n).(status := COMPLETED, result := Some(ResponseOf(p)))]
  {
    var db3 := ArtifactWrites(db, p, n);
    var db4 := AppendEvent(db3, Event(0, n, TRAIN)).value;
    assert TransitionReservation(db4, Spending(n), CONSUMED).Ok?;
    var db5 := TransitionReservation(db4, Spending(n), CONSUMED).value;
    db' := FinishIdempotency(db5, KeyOf(p.req), COMPLETED, ResponseOf(p)).value;
  }

  /** Operation `n` is under way: its record is open and its process is the only new one. */
  ghost predicate Underway(s: State, t: State, n: nat, q: Request) {
    && t.up && t.used == s.used + {n} && n in t.procs && t.procs == s.procs[n := t.procs[n]]
    && t.procs[n].pc.Working? && t.procs[n].req == q && t.procs[n].run == n && !t.procs[n].committed
    && t.db.idempotency == s.db.idempotency[KeyOf(q) := Opening(q, 10 * n)]
  }

  /** The reservation of training `n`, and whatever it leaves alone. */
  ghost predicate Provided(s: State, t: State, n: nat) {
    && t.db == s.db.(budgets := t.db.budgets, leases := t.db.leases, idempotency := t.db.idempotency,
                     reservations := s.db.reservations[Spending(n) := Reservation(1, RESERVED)])
    && PURSE in t.db.budgets && t.db.budgets[PURSE].limit == 10 && t.db.budgets[PURSE].reserved >= 1
    && t.db.budgets[PURSE].reserved + t.db.budgets[PURSE].consumed <= n + 1
  }

  function ReserveActions(n: nat): seq<Action> {
    [Submit(n, Ask(TRAIN, n, 0), n), Step(n, At(10 * n))] + [Step(n, At(10 * n)), Step(n, At(10 * n))]
  }

  lemma TrainingBegins(s: State, n: nat)
    requires Clear(s, n) && n <= 9
    ensures var t := Run(s, ReserveActions(n));
            && Underway(s, t, n, Ask(TRAIN, n, 0)) && Provided(s, t, n) && t.db.leases == s.db.leases
            && t.procs[n].token == None
  {
    var q, now := Ask(TRAIN, n, 0), 10 * n;
    var a1, a2 := [Submit(n, q, n), Step(n, At(now))], [Step(n, At(now)), Step(n, At(now))];
    Starts(s, n, q);
    RunAppends(s, a1, a2);
    TrainingProvides(s, Run(s, a1), n);
  }

  lemma TrainingProvides(s: State, s1: State, n: nat)
    requires s.up && n <= 9 && s1 == Began(s, n, Ask(TRAIN, n, 0), n, 10 * n)
    requires s1.db == s.db.(idempotency := s.db.idempotency[KeyOf(Ask(TRAIN, n, 0)) := Opening(Ask(TRAIN, n, 0), 10 * n)])
    requires Spending(n) !in s.db.reservations
    requires PURSE in s.db.budgets ==> s.db.budgets[PURSE].limit == 10 && s.db.budgets[PURSE].reserved + s.db.budgets[PURSE].consumed <= n
    ensures var t := Run(s1, [Step(n, At(10 * n)), Step(n, At(10 * n))]);
            && Underway(s, t, n, Ask(TRAIN, n, 0)) && Provided(s, t, n) && t.db.leases == s.db.leases
            && t.procs[n].token == None
  {
    var db := TrainingReserves(s1.db, n);
    var q := Ask(TRAIN, n, 0);
    assert s1.procs[n] == Proc(q, Opened, n, None, None, 0, false);
    Budgets(s1, n, s1.procs[n], 10 * n, db);
    var t := Put(s1, n, s1.procs[n].(pc := Working), db);
    assert t.procs == s.procs[n := t.procs[n]];
  }

  lemma TrainingGoesOn(s: State, t: State, n: nat)
    requires Clear(s, n) && 1 <= n <= 9 && Underway(s, t, n, Ask(TRAIN, n, 0)) && Provided(s, t, n) && t.db.leases == s.db.leases
    requires t.procs[n].token == None && (LEASE in s.db.leases ==> s.db.leases[LEASE].token >= 1)
    ensures var u := Next(t, Step(n, At(10 * n)));
            && Underway(s, u, n, Ask(TRAIN, n, 0)) && Provided(s, u, n) && Trainable(u.db, u.procs[n], n)
  {
    var row := TrainingLeases(t, n, t.procs[n], 10 * n);
    var u := Next(t, Step(n, At(10 * n)));
    assert u.procs == s.procs[n := u.procs[n]];
  }

  lemma TrainingEnds(s: State, u: State, n: nat)
    requires Clear(s, n) && Underway(s, u, n, Ask(TRAIN, n, 0)) && Provided(s, u, n) && Trainable(u.db, u.procs[n], n)
    ensures var v := Next(u, Step(n, Made(10 * n, n)));
            && Clear(v, n + 1) && Beside(s, v) && LEASE in v.db.leases && v.db.leases[LEASE].token >= 1
            && ArtifactKey(0, n) in v.db.artifacts && v.db.artifacts[ArtifactKey(0, n)].policy == 0
            && v.db.champions == s.db.champions && v.db.audit == s.db.audit
  {
    var db := TrainingWrites(u.db, u.procs[n], n);
    Commits(u, n, u.procs[n], Made(10 * n, n), db);
    TrainingClears(s.db, u.db, db, n, u.procs[n]);
    CommittedBeside(s, u, Next(u, Step(n, Made(10 * n, n))), n);
  }

  lemma TrainingClears(db: Database, mid: Database, db': Database, n: nat, p: Proc)
    requires ClearTables(db, n) && Trainable(mid, p, n) && PURSE in mid.budgets && mid.budgets[PURSE].limit == 10
    requires mid.budgets[PURSE].reserved + mid.budgets[PURSE].consumed <= n + 1
    requires mid.idempotency == db.idempotency[KeyOf(p.req) := Opening(p.req, 10 * n)]
    requires db'.idempotency == mid.idempotency[KeyOf(p.req) := Opening(p.req, 10 * n).(status := COMPLETED, result := Some(ResponseOf(p)))]
    requires db'.reservations.Keys == db.reservations.Keys + {Spending(n)} && db'.receipts == db.receipts
    requires db'.training == db.training + [TrainingRowOf(p, Made(10 * n, n))]
    requires db'.artifacts == db.artifacts[ArtifactKey(0, n) := Artifact(0, n, n)]
    requires PURSE in db'.budgets && db'.budgets[PURSE].limit == 10
    requires db'.budgets[PURSE].reserved + db'.budgets[PURSE].consumed == mid.budgets[PURSE].reserved + mid.budgets[PURSE].consumed
    requires db'.leases == mid.leases
    ensures ClearTables(db', n + 1)
  {
  }

  function TrainActions(n: nat): seq<Action> { ReserveActions(n) + [Step(n, At(10 * n))] + [Step(n, Made(10 * n, n))] }

  /** Training request `n` registers artifact `n` of the family. */
  lemma Trains(s: State, n: nat)
    requires Clear(s, n) && 1 <= n <= 9 && (LEASE in s.db.leases ==> s.db.leases[LEASE].token >= 1)
    ensures var s' := Run(s, TrainActions(n));
            && Clear(s', n + 1) && Beside(s, s') && LEASE in s'.db.leases && s'.db.leases[LEASE].token >= 1
            && ArtifactKey(0, n) in s'.db.artifacts && s'.db.artifacts[ArtifactKey(0, n)].policy == 0
            && s'.db.champions == s.db.champions && s'.db.audit == s.db.audit
  {
    TrainingBegins(s, n);
    var t := Run(s, ReserveActions(n));
    TrainingGoesOn(s, t, n);
    TrainingEnds(s, Next(t, Step(n, At(10 * n))), n);
    RunNext(s, ReserveActions(n), Step(n, At(10 * n)));
    RunNext(s, ReserveActions(n) + [Step(n, At(10 * n))], Step(n, Made(10 * n, n)));
  }

  // ----- Promotion -----

  function PromoteActions(n: nat, artifact: Id): seq<Action> {
    [Submit(n, Ask(PROMOTE, n, artifact), n), Step(n, At(10 * n))] + [Step(n, At(10 * n)), Step(n, At(10 * n))]
  }

  function Height(db: Database): nat { if FAMILY in db.champions then db.champions[FAMILY].generation else 0 }

  /** The champion row after a promotion, and its audit row. */
  ghost predicate Promoted(db: Database, db': Database, artifact: Id) {
    && db'.champions == db.champions[FAMILY := Champion(artifact, Height(db) + 1)]
    && db'.audit == db.audit[AuditKey(FAMILY, Height(db) + 1) := Promotion(artifact, CurrentArtifact(db, FAMILY))]
  }

  lemma PromotionWrites(db: Database, p: Proc, n: nat, artifact: Id) returns (db': Database)
    requires p.req == Ask(PROMOTE, n, artifact) && p.run == n && Expected(p) == CurrentArtifact(db, FAMILY)
    requires ArtifactKey(0, artifact) in db.artifacts && db.artifacts[ArtifactKey(0, artifact)].policy == 0
    requires CurrentArtifact(db, FAMILY) != Some(artifact) && AuditKey(FAMILY, Height(db) + 1) !in db.audit
    requires ReceiptKey(Evidence, 0, n) !in db.receipts
    requires KeyOf(p.req) in db.idempotency && db.idempotency[KeyOf(p.req)] == Opening(p.req, 10 * n)
    ensures CommitPromotion(db, p) == Ok(db') && Promoted(db, db', artifact)
    ensures db' == db.(champions := db'.champions, audit := db'.audit, receipts := db.receipts + {ReceiptKey(Evidence, 0, n)},
                       events := db'.events,
                       idempotency := db.idempotency[KeyOf(p.req) := Opening(p.req, 10 * n).(status := COMPLETED, result := Some(ResponseOf(p)))])
  {
    var db1 := RecordReceipt(db, ReceiptKey(Evidence, 0, n)).value;
    var db2 := PromotePolicy(db1, FAMILY, artifact, Expected(p)).value;
    var db3 := AppendEvent(db2, Event(0, n, PROMOTE)).value;
    db' := FinishIdempotency(db3, KeyOf(p.req), COMPLETED, ResponseOf(p)).value;
  }

  lemma PromotionBegins(s: State, n: nat, artifact: Id)
    requires Clear(s, n) && n <= 9
    ensures var q := Ask(PROMOTE, n, artifact);
            var t := Run(s, [Submit(n, q, n), Step(n, At(10 * n))] + [Step(n, At(10 * n))]);
            && Underway(s, t, n, q) && Expected(t.procs[n]) == CurrentArtifact(s.db, FAMILY)
            && t.db == s.db.(idempotency := t.db.idempotency)
  {
    var q, now := Ask(PROMOTE, n, artifact), 10 * n;
    Starts(s, n, q);
    var s1 := Run(s, [Submit(n, q, n), Step(n, At(now))]);
    RunNext(s, [Submit(n, q, n), Step(n, At(now))], Step(n, At(now)));
    var t := Next(s1, Step(n, At(now)));
    assert t == StepOpened(s1, n, s1.procs[n], At(now));
    assert t.procs == s.procs[n := t.procs[n]];
  }

  lemma Promotes(s: State, n: nat, artifact: Id)
    requires Clear(s, n) && n <= 9 && Chain(s.db)
    requires ArtifactKey(0, artifact) in s.db.artifacts && s.db.artifacts[ArtifactKey(0, artifact)].policy == 0
    requires CurrentArtifact(s.db, FAMILY) != Some(artifact)
    ensures var s' := Run(s, PromoteActions(n, artifact));
            && Clear(s', n + 1) && Beside(s, s') && Promoted(s.db, s'.db, artifact) && s'.db.leases == s.db.leases
  {
    var q, now := Ask(PROMOTE, n, artifact), 10 * n;
    PromotionBegins(s, n, artifact);
    var before := [Submit(n, q, n), Step(n, At(now))] + [Step(n, At(now))];
    PromotionEnds(s, Run(s, before), n, artifact);
    RunNext(s, before, Step(n, At(now)));
    assert PromoteActions(n, artifact) == before + [Step(n, At(now))];
  }

  lemma PromotionEnds(s: State, t: State, n: nat, artifact: Id)
    requires Clear(s, n) && Chain(s.db) && Underway(s, t, n, Ask(PROMOTE, n, artifact))
    requires ArtifactKey(0, artifact) in s.db.artifacts && s.db.artifacts[ArtifactKey(0, artifact)].policy == 0
    requires CurrentArtifact(s.db, FAMILY) != Some(artifact) && Expected(t.procs[n]) == CurrentArtifact(s.db, FAMILY)
    requires t.db == s.db.(idempotency := t.db.idempotency)
    ensures var s' := Next(t, Step(n, At(10 * n)));
            && Clear(s', n + 1) && Beside(s, s') && Promoted(s.db, s'.db, artifact) && s'.db.leases == s.db.leases
  {
    NextGenerationIsFree(s.db);
    assert ReceiptKey(Evidence, 0, n) !in s.db.receipts;
    var db := PromotionWrites(t.db, t.procs[n], n, artifact);
    Commits(t, n, t.procs[n], At(10 * n), db);
    PromotionClears(s.db, db, n, t.procs[n]);
    CommittedBeside(s, t, Next(t, Step(n, At(10 * n))), n);
  }

  /** The process that committed is the only new one, so the next operation is clear. */
  lemma CommittedBeside(s: State, t: State, u: State, n: nat)
    requires s.up && u.up && (forall pid :: pid in s.procs ==> pid < n) && (forall r :: r in s.used ==> r < n)
    requires ClearTables(s.db, n) && ClearTables(u.db, n + 1)
    requires t.used == s.used + {n} && n in t.procs && t.procs == s.procs[n := t.procs[n]] && t.procs[n].req.key == n
    requires u.used == t.used && n in u.procs && u.procs == t.procs[n := u.procs[n]]
    requires t.db.idempotency == s.db.idempotency[KeyOf(t.procs[n].req) := Opening(t.procs[n].req, 10 * n)]
    requires KeyOf(t.procs[n].req) in u.db.idempotency
    requires u.db.idempotency == t.db.idempotency[KeyOf(t.procs[n].req) := u.db.idempotency[KeyOf(t.procs[n].req)]]
    requires forall k :: k in s.db.artifacts ==> k in u.db.artifacts && u.db.artifacts[k] == s.db.artifacts[k]
    ensures Clear(u, n + 1) && Beside(s, u)
  {
  }

  lemma PromotionClears(db: Database, db': Database, n: nat, p: Proc)
    requires ClearTables(db, n) && p.req.key == n
    requires db'.budgets == db.budgets && db'.leases == db.leases && db'.artifacts == db.artifacts && db'.training == db.training
    requires db'.reservations == db.reservations && db'.receipts == db.receipts + {ReceiptKey(Evidence, 0, n)}
    requires db'.idempotency == db.idempotency[KeyOf(p.req) := Opening(p.req, 10 * n).(status := COMPLETED, result := Some(ResponseOf(p)))]
    ensures ClearTables(db', n + 1)
  {
  }

  lemma NextGenerationIsFree(db: Database)
    requires Chain(db)
    ensures AuditKey(FAMILY, Height(db) + 1) !in db.audit
  {
    forall k | k in db.audit
      ensures k.family in db.champions && k.generation <= db.champions[k.family].generation
    { assert ChainRow(db, k); }
  }

  // ----- Rollback, up to its transaction -----

  function RollbackActions(n: nat): seq<Action> {
    [Submit(n, Ask(ROLLBACK, n, 0), n), Step(n, At(10 * n))] + [Step(n, At(10 * n)), Step(n, At(10 * n))]
  }

  lemma RollbackBegins(s: State, n: nat, target: Id)
    requires Clear(s, n) && n <= 9 && FAMILY in s.db.champions
    requires var k := AuditKey(FAMILY, s.db.champions[FAMILY].generation);
             k in s.db.audit && s.db.audit[k] == Promotion(s.db.champions[FAMILY].artifact, Some(target))
    ensures var s' := Run(s, RollbackActions(n));
            && Clear(s', n + 1) && Beside(s, s')
            && s'.db == s.db.(idempotency := s'.db.idempotency)
            && n in s'.procs && RecordOpen(s'.db, IdemKey(0, ROLLBACK, n))
            && s'.procs[n] == Proc(Ask(ROLLBACK, n, 0), Working, n, None, Some(s.db.champions[FAMILY]), target, false)
  {
    var q, now := Ask(ROLLBACK, n, 0), 10 * n;
    var a1, a2 := [Submit(n, q, n), Step(n, At(now))], [Step(n, At(now)), Step(n, At(now))];
    Starts(s, n, q);
    RunAppends(s, a1, a2);
    RollbackLocates(Run(s, a1), n, target);
    RollbackClears(s, Run(s, a1), n, target);
  }

  lemma RollbackClears(s: State, s1: State, n: nat, target: Id)
    requires Clear(s, n) && FAMILY in s.db.champions && s1 == Began(s, n, Ask(ROLLBACK, n, 0), n, 10 * n)
    requires s1.db == s.db.(idempotency := s.db.idempotency[IdemKey(0, ROLLBACK, n) := Opening(Ask(ROLLBACK, n, 0), 10 * n)])
    ensures var s' := Put(s1, n, Proc(Ask(ROLLBACK, n, 0), Working, n, None, Some(s1.db.champions[FAMILY]), target, false), s1.db);
            Clear(s', n + 1) && Beside(s, s') && RecordOpen(s'.db, IdemKey(0, ROLLBACK, n))
  {
  }

  lemma RollbackLocates(s: State, n: nat, target: Id)
    requires s.up && n in s.procs && s.procs[n] == Proc(Ask(ROLLBACK, n, 0), Opened, n, None, None, 0, false)
    requires FAMILY in s.db.champions
    requires var k := AuditKey(FAMILY, s.db.champions[FAMILY].generation);
             k in s.db.audit && s.db.audit[k] == Promotion(s.db.champions[FAMILY].artifact, Some(target))
    ensures Run(s, [Step(n, At(10 * n)), Step(n, At(10 * n))])
         == Put(s, n, Proc(Ask(ROLLBACK, n, 0), Working, n, None, Some(s.db.champions[FAMILY]), target, false), s.db)
  {
    var a := Step(n, At(10 * n));
    RunTwo(s, a, a);
    var p := s.procs[n].(pc := Located, seen := Some(s.db.champions[FAMILY]));
    assert Next(s, a) == StepOpened(s, n, s.procs[n], At(10 * n)) == Put(s, n, p, s.db);
    var s2 := Put(s, n, p, s.db);
    assert Next(s2, a) == StepLocated(s2, n, p);
    assert s2.procs[n := p.(pc := Working, target := target)] == s.procs[n := p.(pc := Working, target := target)];
  }

  // ----- The run -----

  ghost predicate Registered(db: Database) {
    forall a :: 1 <= a <= 3 ==> ArtifactKey(0, a) in db.artifacts && db.artifacts[ArtifactKey(0, a)].policy == 0
  }

  /** The challengers 1..n are registered and there is no champion yet. */
  ghost predicate Challengers(s: State, n: nat) {
    && Clear(s, n + 1) && FAMILY !in s.db.champions
    && (LEASE in s.db.leases ==> s.db.leases[LEASE].token >= 1)
    && forall a :: 1 <= a <= n ==> ArtifactKey(0, a) in s.db.artifacts && s.db.artifacts[ArtifactKey(0, a)].policy == 0
  }

  lemma {:induction false} AllTrained(n: nat) returns (actions: seq<Action>)
    requires n <= 9
    ensures Challengers(Run(INITIAL, actions), n)
    decreases n
  {
    actions := [];
    if n > 0 {
      var past := AllTrained(n - 1);
      var s := Run(INITIAL, past);
      Trains(s, n);
      OneMoreTrained(s, Run(s, TrainActions(n)), n);
      RunAppends(INITIAL, past, TrainActions(n));
      actions := past + TrainActions(n);
    } else {
      NoneTrained();
    }
  }

  lemma NoneTrained()
    ensures Challengers(INITIAL, 0)
  {
  }

  lemma OneMoreTrained(s: State, s': State, n: nat)
    requires 1 <= n && Challengers(s, n - 1) && Clear(s', n + 1) && Beside(s, s')
    requires ArtifactKey(0, n) in s'.db.artifacts && s'.db.artifacts[ArtifactKey(0, n)].policy == 0
    requires LEASE in s'.db.leases && s'.db.leases[LEASE].token >= 1 && s'.db.champions == s.db.champions
    ensures Challengers(s', n)
  {
  }

  lemma PromotesNext(past: seq<Action>, n: nat, artifact: Id) returns (actions: seq<Action>)
    requires var s := Run(INITIAL, past);
             Clear(s, n) && n <= 9 && Registered(s.db) && 1 <= artifact <= 3 && CurrentArtifact(s.db, FAMILY) != Some(artifact)
    ensures var s, s' := Run(INITIAL, past), Run(INITIAL, actions);
            Clear(s', n + 1) && Registered(s'.db) && Beside(s, s') && Promoted(s.db, s'.db, artifact)
  {
    Reachable(past);
    Promotes(Run(INITIAL, past), n, artifact);
    RunAppends(INITIAL, past, PromoteActions(n, artifact));
    actions := past + PromoteActions(n, artifact);
  }

  /** B over A at generation 2, and a rollback that has read it. */
  lemma RollbackHasRead() returns (actions: seq<Action>)
    ensures var s := Run(INITIAL, actions);
            && Clear(s, 7) && Registered(s.db)
            && FAMILY in s.db.champions && s.db.champions[FAMILY] == Champion(2, 2)
            && 6 in s.procs && s.procs[6] == Proc(Ask(ROLLBACK, 6, 0), Working, 6, None, Some(Champion(2, 2)), 1, false)
            && RecordOpen(s.db, IdemKey(0, ROLLBACK, 6))
  {
    var a := AllTrained(3);
    var b := PromotesNext(a, 4, 1);
    var c := PromotesNext(b, 5, 2);
    actions := RollbackNext(c, 6, 1);
  }

  lemma RollbackNext(past: seq<Action>, n: nat, target: Id) returns (actions: seq<Action>)
    requires var s := Run(INITIAL, past);
             && Clear(s, n) && n <= 9 && Registered(s.db) && FAMILY in s.db.champions
             && var k := AuditKey(FAMILY, s.db.champions[FAMILY].generation);
                k in s.db.audit && s.db.audit[k] == Promotion(s.db.champions[FAMILY].artifact, Some(target))
    ensures var s, s' := Run(INITIAL, past), Run(INITIAL, actions);
            && Clear(s', n + 1) && Registered(s'.db) && s'.db.champions == s.db.champions
            && n in s'.procs && RecordOpen(s'.db, IdemKey(0, ROLLBACK, n))
            && s'.procs[n] == Proc(Ask(ROLLBACK, n, 0), Working, n, None, Some(s.db.champions[FAMILY]), target, false)
  {
    RollbackBegins(Run(INITIAL, past), n, target);
    RunAppends(INITIAL, past, RollbackActions(n));
    actions := past + RollbackActions(n);
  }

  /**
   The swap compares artifact ids only. The rollback that read generation 2 (B after A) still commits after C and then B
   again were promoted, and installs A although the champion's predecessor is C.
   */
  lemma StaleRollbackMissesPredecessor() returns (past: seq<Action>)
    ensures var s := Run(INITIAL, past);
            var s' := Next(s, Step(6, At(90)));
            && Poised(s, 6, At(90)) && s.procs[6].seen == Some(Champion(2, 2)) && s.procs[6].target == 1
            && FAMILY in s.db.champions && s.db.champions[FAMILY] == Champion(2, 4)
            && AuditKey(FAMILY, 4) in s.db.audit && s.db.audit[AuditKey(FAMILY, 4)].previous == Some(3)
            && 6 in s'.commits && FAMILY in s'.db.champions && s'.db.champions[FAMILY] == Champion(1, 5)
            && !RolledBack(s.db, s'.db, FAMILY)
  {
    var a := RollbackHasRead();
    var b := PromotesNext(a, 7, 3);
    past := PromotesNext(b, 8, 2);
    BesideTransitive(Run(INITIAL, a), Run(INITIAL, b), Run(INITIAL, past));
    StaleCommits(past);
  }

  lemma StaleCommits(past: seq<Action>)
    requires var s := Run(INITIAL, past);
             && s.up && 6 in s.procs
             && s.procs[6] == Proc(Ask(ROLLBACK, 6, 0), Working, 6, None, Some(Champion(2, 2)), 1, false)
             && RecordOpen(s.db, IdemKey(0, ROLLBACK, 6))
             && FAMILY in s.db.champions && s.db.champions[FAMILY] == Champion(2, 4)
             && AuditKey(FAMILY, 4) in s.db.audit && s.db.audit[AuditKey(FAMILY, 4)] == Promotion(2, Some(3))
    ensures var s := Run(INITIAL, past);
            var s' := Next(s, Step(6, At(90)));
            && 6 in s'.commits && FAMILY in s'.db.champions && s'.db.champions[FAMILY] == Champion(1, 5)
            && !RolledBack(s.db, s'.db, FAMILY)
  {
    Reached(past);
    CommitStep(Run(INITIAL, past), 6, At(90));
  }
}
