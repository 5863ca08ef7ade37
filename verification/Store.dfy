/**
 The tables of the SQLite store and the effect of every store call on them.

 A `Database` value is the committed content of the tables. Each function below is
 the whole transaction of one store method: it returns the new content, or the
 exception after which the transaction leaves the tables as they were.
 */
module Store {
  import opened Wrappers

  /** Names, keys, hashes and uuids: opaque text that the protocol only compares. */
  type Id = int

  // ----- Rows -----

  datatype BudgetKey = BudgetKey(tenant: Id, budget: Id)
  datatype Budget = Budget(limit: nat, reserved: nat, consumed: nat, version: nat)

  /** Reservation names: the textual prefixes keep the three families apart. */
  datatype ReservationId = DecisionRun(run: Id) | TrainingRunOf(holder: Id) | Attempt(key: Id)
  datatype ReservationKey = ReservationKey(owner: BudgetKey, id: ReservationId)
  datatype ReservationStatus = RESERVED | CONSUMED | RELEASED
  datatype Reservation = Reservation(units: nat, status: ReservationStatus)

  /** The scopes under which the control plane claims idempotency keys. */
  datatype Scope = DECISION | BENCHMARK | TRAIN | PROMOTE | ROLLBACK
  datatype IdemKey = IdemKey(tenant: Id, scope: Scope, key: Id)
  datatype IdemStatus = IN_PROGRESS | COMPLETED | FAILED
  /** The stored JSON: a response with the id it carries, an error, or the recovery tombstone. */
  datatype Payload = Success(scope: Scope, id: Id) | Failure(errorType: Id) | Interrupted
  datatype IdemRecord = IdemRecord(hash: Id, status: IdemStatus, result: Option<Payload>, expires: Option<int>)

  datatype LeaseKey = LeaseKey(tenant: Id, resource: Id)
  datatype Lease = Lease(holder: Option<Id>, token: nat, expires: int)

  datatype ReceiptTable = Experience | Evidence
  datatype ReceiptKey = ReceiptKey(table: ReceiptTable, tenant: Id, id: Id)
  datatype Event = Event(tenant: Id, eventId: Id, eventType: Scope)

  datatype ArtifactKey = ArtifactKey(tenant: Id, artifact: Id)
  /** `content` stands for the content hash, the URI and the metadata. */
  datatype Artifact = Artifact(policy: Id, version: Id, content: Id)
  datatype TrainingRun = TrainingRun(tenant: Id, trainingId: Id, policy: Id, artifact: Id,
                                     trainedBy: Id, token: nat, report: Id)

  datatype FamilyKey = FamilyKey(tenant: Id, policy: Id)
  datatype Champion = Champion(artifact: Id, generation: nat)
  datatype AuditKey = AuditKey(family: FamilyKey, generation: nat)
  datatype Promotion = Promotion(artifact: Id, previous: Option<Id>)

  datatype Database = Database(
    budgets: map<BudgetKey, Budget>,
    reservations: map<ReservationKey, Reservation>,
    idempotency: map<IdemKey, IdemRecord>,
    leases: map<LeaseKey, Lease>,
    receipts: set<ReceiptKey>,
    events: seq<Event>,
    artifacts: map<ArtifactKey, Artifact>,
    training: seq<TrainingRun>,
    champions: map<FamilyKey, Champion>,
    audit: map<AuditKey, Promotion>)

  const EMPTY: Database := Database(map[], map[], map[], map[], {}, [], map[], [], map[], map[])

  // ----- Budgets -----

  function CreateBudget(db: Database, b: BudgetKey, limit: nat): Result<Database> {
    if b in db.budgets then
      if db.budgets[b].limit != limit then Err(Conflict) else Ok(db)
    else
      Ok(db.(budgets := db.budgets[b := Budget(limit, 0, 0, 0)]))
  }

  /** An existing reservation id succeeds whatever its status, as long as the amount agrees. */
  function ReserveBudget(db: Database, r: ReservationKey, units: nat): Result<Database> {
    if units == 0 then Err(Invalid)
    else if r in db.reservations then
      if db.reservations[r].units != units then Err(Conflict)
      else if r.owner !in db.budgets then Err(NotFound)
      else Ok(db)
    else if r.owner !in db.budgets then Err(NotFound)
    else
      var b := db.budgets[r.owner];
      if units > b.limit - b.reserved - b.consumed then Err(BudgetExceeded)
      else Ok(db.(budgets := db.budgets[r.owner := b.(reserved := b.reserved + units, version := b.version + 1)],
                  reservations := db.reservations[r := Reservation(units, RESERVED)]))
  }

  datatype Books = Books(budgets: map<BudgetKey, Budget>, reservations: map<ReservationKey, Reservation>)

  /** `consume_budget` and `release_budget`; the CHECK constraint on the row is the `Integrity` branch. */
  function Settle(books: Books, r: ReservationKey, target: ReservationStatus): Result<Books> {
    if r !in books.reservations then Err(NotFound)
    else if books.reservations[r].status == target then
      if r.owner !in books.budgets then Err(NotFound) else Ok(books)
    else if books.reservations[r].status != RESERVED then Err(Conflict)
    else if r.owner !in books.budgets then Err(NotFound)
    else
      var units := books.reservations[r].units;
      var b := books.budgets[r.owner];
      var consumed := b.consumed + (if target == CONSUMED then units else 0);
      if b.reserved < units || b.reserved - units + consumed > b.limit then Err(Integrity)
      else Ok(Books(books.budgets[r.owner := b.(reserved := b.reserved - units, consumed := consumed, version := b.version + 1)],
                    books.reservations[r := Reservation(units, target)]))
  }

  function TransitionReservation(db: Database, r: ReservationKey, target: ReservationStatus): Result<Database> {
    var books :- Settle(Books(db.budgets, db.reservations), r, target);
    Ok(db.(budgets := books.budgets, reservations := books.reservations))
  }

  // ----- Idempotency -----

  predicate Expired(record: IdemRecord, now: int) {
    record.expires.Some? && record.expires.value < now
  }

  function Unexpired(records: map<IdemKey, IdemRecord>, now: int): map<IdemKey, IdemRecord> {
    map k | k in records && !Expired(records[k], now) :: records[k]
  }

  datatype Claim = Claim(db: Database, record: IdemRecord, isNew: bool)

  function ClaimIdempotency(db: Database, k: IdemKey, hash: Id, now: int, ttl: Option<int>): Result<Claim> {
    if ttl.Some? && ttl.value <= 0 then Err(Invalid)
    else
      var kept := Unexpired(db.idempotency, now);
      if k in kept then
        if kept[k].hash != hash then Err(Conflict)
        else Ok(Claim(db.(idempotency := kept), kept[k], false))
      else
        var created := IdemRecord(hash, IN_PROGRESS, None, if ttl.None? then None else Some(now + ttl.value));
        Ok(Claim(db.(idempotency := kept[k := created]), created, true))
  }

  function FinishIdempotency(db: Database, k: IdemKey, status: IdemStatus, result: Payload): Result<Database> {
    if k !in db.idempotency then Err(NotFound)
    else
      var record := db.idempotency[k];
      if record.status != IN_PROGRESS then
        if record.status == status && record.result == Some(result) then Ok(db) else Err(Conflict)
      else
        Ok(db.(idempotency := db.idempotency[k := record.(status := status, result := Some(result))]))
  }

  // ----- Leases -----

  /** The lease row an acquisition writes: first token 1, same token while held, next token when free or expired. */
  function AcquiredRow(leases: map<LeaseKey, Lease>, k: LeaseKey, holder: Id, ttl: int, now: int): (r: Result<Lease>)
    ensures r.Ok? ==> r.value.holder == Some(holder)
    ensures r.Ok? && k !in leases ==> r.value.token == 1
    ensures r.Ok? && k in leases ==>
              r.value.token == leases[k].token + 1 || (r.value.token == leases[k].token && leases[k].holder == Some(holder))
  {
    if ttl <= 0 then Err(Invalid)
    else if k !in leases then Ok(Lease(Some(holder), 1, now + ttl))
    else
      var row := leases[k];
      if row.holder == Some(holder) && row.expires > now then Ok(row.(expires := now + ttl))
      else if row.holder == None || row.expires <= now then Ok(Lease(Some(holder), row.token + 1, now + ttl))
      else Err(LeaseUnavailable)
  }

  function AcquireLease(db: Database, k: LeaseKey, holder: Id, ttl: int, now: int): Result<Database> {
    var row :- AcquiredRow(db.leases, k, holder, ttl, now);
    Ok(db.(leases := db.leases[k := row]))
  }

  function RenewLease(db: Database, k: LeaseKey, holder: Id, token: nat, ttl: int, now: int): Result<Database> {
    if ttl <= 0 then Err(Invalid)
    else if k in db.leases && db.leases[k].holder == Some(holder) && db.leases[k].token == token
            && db.leases[k].expires > now then
      Ok(db.(leases := db.leases[k := db.leases[k].(expires := now + ttl)]))
    else Err(Conflict)
  }

  function ReleaseLease(db: Database, k: LeaseKey, holder: Id, token: nat, now: int): Result<Database> {
    if k in db.leases && db.leases[k].holder == Some(holder) && db.leases[k].token == token then
      Ok(db.(leases := db.leases[k := db.leases[k].(holder := None, expires := now)]))
    else Err(Conflict)
  }

  // ----- Receipts, events, artifacts, training -----

  function RecordReceipt(db: Database, k: ReceiptKey): Result<Database> {
    if k in db.receipts then Err(Conflict) else Ok(db.(receipts := db.receipts + {k}))
  }

  function AppendEvent(db: Database, e: Event): Result<Database> {
    Ok(db.(events := db.events + [e]))
  }

  /** UNIQUE (tenant_id, policy_name, version). */
  predicate VersionTaken(artifacts: map<ArtifactKey, Artifact>, tenant: Id, row: Artifact) {
    exists k <- artifacts.Keys :: k.tenant == tenant && artifacts[k].policy == row.policy && artifacts[k].version == row.version
  }

  function RegisterArtifact(db: Database, k: ArtifactKey, row: Artifact): Result<Database> {
    if k in db.artifacts then
      if db.artifacts[k] != row then Err(Conflict) else Ok(db)
    else if VersionTaken(db.artifacts, k.tenant, row) then Err(Conflict)
    else Ok(db.(artifacts := db.artifacts[k := row]))
  }

  function RecordTrainingRun(db: Database, row: TrainingRun): Result<Database> {
    if row.token == 0 then Err(Invalid)
    else if exists i :: 0 <= i < |db.training| && db.training[i].tenant == row.tenant
                        && db.training[i].trainingId == row.trainingId then
      if row in db.training then Ok(db) else Err(Conflict)
    else
      var k := ArtifactKey(row.tenant, row.artifact);
      if k !in db.artifacts then Err(NotFound)
      else if db.artifacts[k].policy != row.policy then Err(Conflict)
      else Ok(db.(training := db.training + [row]))
  }

  // ----- Champions -----

  function CurrentArtifact(db: Database, f: FamilyKey): Option<Id> {
    if f in db.champions then Some(db.champions[f].artifact) else None
  }

  function PromotePolicy(db: Database, f: FamilyKey, artifact: Id, expected: Option<Id>): Result<Database> {
    var a := ArtifactKey(f.tenant, artifact);
    if a !in db.artifacts then Err(NotFound)
    else if db.artifacts[a].policy != f.policy then Err(Conflict)
    else if expected != CurrentArtifact(db, f) then Err(Conflict)
    else if CurrentArtifact(db, f) == Some(artifact) then Ok(db)
    else
      var generation := if f in db.champions then db.champions[f].generation + 1 else 1;
      if AuditKey(f, generation) in db.audit then Err(Conflict)
      else Ok(db.(champions := db.champions[f := Champion(artifact, generation)],
                  audit := db.audit[AuditKey(f, generation) := Promotion(artifact, CurrentArtifact(db, f))]))
  }

  // ----- Ledger sums -----

  function Share(k: ReservationKey, r: Reservation, b: BudgetKey, st: ReservationStatus): nat {
    if k.owner == b && r.status == st then r.units else 0
  }

  /** The units of all reservations of budget `b` in status `st`. */
  ghost function Units(m: map<ReservationKey, Reservation>, b: BudgetKey, st: ReservationStatus): nat {
    if m == map[] then 0
    else var k :| k in m; Share(k, m[k], b, st) + Units(m - {k}, b, st)
  }

  lemma {:induction false} UnitsRemove(m: map<ReservationKey, Reservation>, k: ReservationKey, b: BudgetKey, st: ReservationStatus)
    requires k in m
    ensures Units(m, b, st) == Share(k, m[k], b, st) + Units(m - {k}, b, st)
    decreases |m|
  {
    var j :| j in m && Units(m, b, st) == Share(j, m[j], b, st) + Units(m - {j}, b, st);
    if j != k {
      UnitsRemove(m - {j}, k, b, st);
      UnitsRemove(m - {k}, j, b, st);
      assert m - {j} - {k} == m - {k} - {j};
    }
  }

  lemma UnitsPut(m: map<ReservationKey, Reservation>, k: ReservationKey, v: Reservation, b: BudgetKey, st: ReservationStatus)
    ensures Units(m[k := v], b, st)
         == Units(m, b, st) - (if k in m then Share(k, m[k], b, st) else 0) + Share(k, v, b, st)
  {
    UnitsRemove(m[k := v], k, b, st);
    assert m[k := v] - {k} == m - {k};
    if k in m {
      UnitsRemove(m, k, b, st);
    } else {
      assert m - {k} == m;
    }
  }

  lemma {:induction false} UnitsAgree(m: map<ReservationKey, Reservation>, n: map<ReservationKey, Reservation>, b: BudgetKey, st: ReservationStatus)
    requires m.Keys == n.Keys
    requires forall k :: k in m ==> Share(k, m[k], b, st) == Share(k, n[k], b, st)
    ensures Units(m, b, st) == Units(n, b, st)
    decreases |m|
  {
    if m == map[] {
      assert n == map[];
    } else {
      var k :| k in m;
      UnitsRemove(m, k, b, st);
      UnitsRemove(n, k, b, st);
      UnitsAgree(m - {k}, n - {k}, b, st);
    }
  }

  lemma {:induction false} UnitsZero(m: map<ReservationKey, Reservation>, b: BudgetKey, st: ReservationStatus)
    requires forall k :: k in m ==> Share(k, m[k], b, st) == 0
    ensures Units(m, b, st) == 0
    decreases |m|
  {
    if m != map[] {
      var k :| k in m;
      UnitsRemove(m, k, b, st);
      UnitsZero(m - {k}, b, st);
    }
  }

  lemma UnitsAtLeast(m: map<ReservationKey, Reservation>, k: ReservationKey)
    requires k in m
    ensures Units(m, k.owner, m[k].status) >= m[k].units
  {
    UnitsRemove(m, k, k.owner, m[k].status);
  }

  // ----- Startup recovery -----

  /** The accounting query of `reconcile_startup` finds no mismatch. */
  ghost predicate Accounted(db: Database) {
    forall b :: b in db.budgets ==>
      && db.budgets[b].reserved == Units(db.reservations, b, RESERVED)
      && db.budgets[b].consumed == Units(db.reservations, b, CONSUMED)
  }

  function Tombstone(record: IdemRecord): IdemRecord {
    if record.status == IN_PROGRESS then record.(status := FAILED, result := Some(Interrupted), expires := None) else record
  }

  function ReleasedRow(r: Reservation): Reservation {
    if r.status == RESERVED then r.(status := RELEASED) else r
  }

  function ReleasedBudget(b: Budget): Budget {
    if b.reserved > 0 then b.(reserved := 0, version := b.version + 1) else b
  }

  function Unheld(l: Lease, now: int): Lease {
    if l.holder == None then l else l.(holder := None, expires := now)
  }

  predicate AnyReserved(db: Database) {
    exists k <- db.reservations.Keys :: db.reservations[k].status == RESERVED
  }

  ghost function Reconcile(db: Database, now: int): Result<Database> {
    if !Accounted(db) then Err(Mismatch)
    else
      Ok(db.(idempotency := map k | k in db.idempotency :: Tombstone(db.idempotency[k]),
             reservations := map k | k in db.reservations :: ReleasedRow(db.reservations[k]),
             budgets := if AnyReserved(db) then map b | b in db.budgets :: ReleasedBudget(db.budgets[b]) else db.budgets,
             leases := map k | k in db.leases :: Unheld(db.leases[k], now)))
  }
}
