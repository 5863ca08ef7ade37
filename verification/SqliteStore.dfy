/** The store object: each method changes rows in place and, when it raises, leaves every table as it was. */
module SqliteStore {
  import opened Wrappers
  import opened Store

  /** What one transaction does to the tables: the specified change, or nothing and the specified exception. */
  ghost predicate Does(spec: Result<Database>, before: Database, after: Database, raised: Option<Error>) {
    match spec
    case Ok(db) => raised.None? && after == db
    case Err(e) => raised == Some(e) && after == before
  }

  /** What `reconcile_startup` reports. */
  datatype Recovery = Recovery(failedRecords: nat, releasedReservations: nat, releasedUnits: nat, releasedLeases: nat)

  class SQLiteStore {
    var budgets: map<BudgetKey, Budget>
    var reservations: map<ReservationKey, Reservation>
    var idempotency: map<IdemKey, IdemRecord>
    var leases: map<LeaseKey, Lease>
    var receipts: set<ReceiptKey>
    var events: seq<Event>
    var artifacts: map<ArtifactKey, Artifact>
    var training: seq<TrainingRun>
    var champions: map<FamilyKey, Champion>
    var audit: map<AuditKey, Promotion>

    function Contents(): Database
      reads this
    {
      Database(budgets, reservations, idempotency, leases, receipts, events, artifacts, training, champions, audit)
    }

    constructor ()
      ensures Contents() == EMPTY
    {
      budgets, reservations, idempotency, leases, receipts := map[], map[], map[], map[], {};
      events, artifacts, training, champions, audit := [], map[], [], map[], map[];
    }

    // ----- Budgets -----

    method CreateBudget(b: BudgetKey, limit: nat) returns (raised: Option<Error>)
      modifies this`budgets
      ensures Does(Store.CreateBudget(old(Contents()), b, limit), old(Contents()), Contents(), raised)
    {
      if b in budgets {
        return if budgets[b].limit != limit then Some(Conflict) else None;
      }
      budgets := budgets[b := Budget(limit, 0, 0, 0)];
      return None;
    }

    method ReserveBudget(r: ReservationKey, units: int) returns (raised: Option<Error>)
      modifies this`budgets, this`reservations
      ensures units < 0 ==> raised == Some(Invalid) && Contents() == old(Contents())
      ensures units >= 0 ==> Does(Store.ReserveBudget(old(Contents()), r, units), old(Contents()), Contents(), raised)
    {
      if units <= 0 { return Some(Invalid); }
      if r in reservations {
        if reservations[r].units != units { return Some(Conflict); }
        return if r.owner in budgets then None else Some(NotFound);
      }
      if r.owner !in budgets { return Some(NotFound); }
      var budget := budgets[r.owner];
      var available := budget.limit - budget.reserved - budget.consumed;
      if units > available { return Some(BudgetExceeded); }
      budgets := budgets[r.owner := budget.(reserved := budget.reserved + units, version := budget.version + 1)];
      reservations := reservations[r := Reservation(units, RESERVED)];
      return None;
    }

    /** Updates the budget, then the reservation, then reads the budget back; a failure on the way rolls both back. */
    method TransitionReservation(r: ReservationKey, target: ReservationStatus) returns (raised: Option<Error>)
      modifies this`budgets, this`reservations
      ensures Does(Store.TransitionReservation(old(Contents()), r, target), old(Contents()), Contents(), raised)
    {
      if r !in reservations { return Some(NotFound); }
      var row := reservations[r];
      if row.status == target {
        return if r.owner in budgets then None else Some(NotFound);
      }
      if row.status != RESERVED { return Some(Conflict); }
      var savedReservations := reservations;
      if r.owner in budgets {
        var b := budgets[r.owner];
        var reserved := b.reserved - row.units;
        var consumed := b.consumed + if target == CONSUMED then row.units else 0;
        if reserved < 0 || reserved + consumed > b.limit { return Some(Integrity); }
        budgets := budgets[r.owner := b.(reserved := reserved, consumed := consumed, version := b.version + 1)];
      }
      reservations := reservations[r := row.(status := target)];
      if r.owner !in budgets {
        reservations := savedReservations;
        return Some(NotFound);
      }
      return None;
    }

    // ----- Idempotency -----

    method ClaimIdempotency(k: IdemKey, hash: Id, now: int, ttl: Option<int>) returns (r: Result<(IdemRecord, bool)>)
      modifies this`idempotency
      ensures match Store.ClaimIdempotency(old(Contents()), k, hash, now, ttl)
              case Ok(claim) => r == Ok((claim.record, claim.isNew)) && Contents() == claim.db
              case Err(e) => r == Err(e) && Contents() == old(Contents())
    {
      if ttl.Some? && ttl.value <= 0 { return Err(Invalid); }
      var saved := idempotency;
      idempotency := map i | i in idempotency && !Expired(idempotency[i], now) :: idempotency[i];
      if k in idempotency {
        if idempotency[k].hash != hash {
          idempotency := saved;
          return Err(Conflict);
        }
        return Ok((idempotency[k], false));
      }
      idempotency := idempotency[k := IdemRecord(hash, IN_PROGRESS, None, if ttl.None? then None else Some(now + ttl.value))];
      return Ok((idempotency[k], true));
    }

    method FinishIdempotency(k: IdemKey, status: IdemStatus, result: Payload) returns (raised: Option<Error>)
      modifies this`idempotency
      ensures Does(Store.FinishIdempotency(old(Contents()), k, status, result), old(Contents()), Contents(), raised)
    {
      if k !in idempotency { return Some(NotFound); }
      var row := idempotency[k];
      if row.status != IN_PROGRESS {
        return if row.status == status && row.result == Some(result) then None else Some(Conflict);
      }
      idempotency := idempotency[k := row.(status := status, result := Some(result))];
      return None;
    }

    // ----- Leases -----

    method AcquireLease(k: LeaseKey, holder: Id, ttl: int, now: int) returns (r: Result<Lease>)
      modifies this`leases
      ensures Does(Store.AcquireLease(old(Contents()), k, holder, ttl, now), old(Contents()), Contents(),
                   if r.Ok? then None else Some(r.error))
      ensures r.Ok? ==> k in leases && r.value == leases[k]
    {
      if ttl <= 0 { return Err(Invalid); }
      if k !in leases {
        leases := leases[k := Lease(Some(holder), 1, now + ttl)];
      } else if leases[k].holder == Some(holder) && leases[k].expires > now {
        leases := leases[k := leases[k].(expires := now + ttl)];
      } else if leases[k].holder == None || leases[k].expires <= now {
        leases := leases[k := Lease(Some(holder), leases[k].token + 1, now + ttl)];
      } else {
        return Err(LeaseUnavailable);
      }
      return Ok(leases[k]);
    }

    method RenewLease(k: LeaseKey, holder: Id, token: nat, ttl: int, now: int) returns (raised: Option<Error>)
      modifies this`leases
      ensures Does(Store.RenewLease(old(Contents()), k, holder, token, ttl, now), old(Contents()), Contents(), raised)
    {
      if ttl <= 0 { return Some(Invalid); }
      var rows := if k in leases && leases[k].holder == Some(holder) && leases[k].token == token && leases[k].expires > now then 1 else 0;
      if rows != 1 { return Some(Conflict); }
      leases := leases[k := leases[k].(expires := now + ttl)];
      return None;
    }

    method ReleaseLease(k: LeaseKey, holder: Id, token: nat, now: int) returns (raised: Option<Error>)
      modifies this`leases
      ensures Does(Store.ReleaseLease(old(Contents()), k, holder, token, now), old(Contents()), Contents(), raised)
    {
      var rows := if k in leases && leases[k].holder == Some(holder) && leases[k].token == token then 1 else 0;
      if rows != 1 { return Some(Conflict); }
      leases := leases[k := leases[k].(holder := None, expires := now)];
      return None;
    }

    // ----- Receipts, events, artifacts -----

    method RecordReceipt(k: ReceiptKey) returns (raised: Option<Error>)
      modifies this`receipts
      ensures Does(Store.RecordReceipt(old(Contents()), k), old(Contents()), Contents(), raised)
    {
      if k in receipts { return Some(Conflict); }
      receipts := receipts + {k};
      return None;
    }

    method AppendEvent(e: Event) returns (raised: Option<Error>)
      modifies this`events
      ensures Does(Store.AppendEvent(old(Contents()), e), old(Contents()), Contents(), raised)
    {
      events := events + [e];
      return None;
    }

    /** An artifact id binds its row for ever, and a policy version has one artifact. */
    method RegisterArtifact(k: ArtifactKey, row: Artifact) returns (raised: Option<Error>)
      modifies this`artifacts
      ensures Does(Store.RegisterArtifact(old(Contents()), k, row), old(Contents()), Contents(), raised)
    {
      if k in artifacts { return if artifacts[k] != row then Some(Conflict) else None; }
      if VersionTaken(artifacts, k.tenant, row) { return Some(Conflict); }
      artifacts := artifacts[k := row];
      return None;
    }

    /** Rolls an outermost transaction back to the tables at its BEGIN. */
    method Rollback(db: Database)
      modifies this
      ensures Contents() == db
    {
      budgets, reservations, idempotency, leases, receipts := db.budgets, db.reservations, db.idempotency, db.leases, db.receipts;
      events, artifacts, training, champions, audit := db.events, db.artifacts, db.training, db.champions, db.audit;
    }

    // ----- Training and champions -----

    /** Finds a run of the same name by a scan; only an identical row may be recorded again. */
    method RecordTrainingRun(row: TrainingRun) returns (raised: Option<Error>)
      modifies this`training
      ensures Does(Store.RecordTrainingRun(old(Contents()), row), old(Contents()), Contents(), raised)
    {
      if row.token == 0 { return Some(Invalid); }
      var named, same := false, false;
      for i := 0 to |training|
        invariant named <==> exists j :: 0 <= j < i && training[j].tenant == row.tenant && training[j].trainingId == row.trainingId
        invariant same <==> row in training[..i]
      {
        assert training[..i + 1] == training[..i] + [training[i]];
        if training[i].tenant == row.tenant && training[i].trainingId == row.trainingId { named := true; }
        if training[i] == row { same := true; }
      }
      assert training[..|training|] == training;
      if named { return if same then None else Some(Conflict); }
      var k := ArtifactKey(row.tenant, row.artifact);
      if k !in artifacts { return Some(NotFound); }
      if artifacts[k].policy != row.policy { return Some(Conflict); }
      training := training + [row];
      return None;
    }

    /** Writes the champion, then its audit row; a clash on the audit key rolls the champion back. */
    method PromotePolicy(f: FamilyKey, artifact: Id, expected: Option<Id>) returns (raised: Option<Error>)
      modifies this`champions, this`audit
      ensures Does(Store.PromotePolicy(old(Contents()), f, artifact, expected), old(Contents()), Contents(), raised)
    {
      var a := ArtifactKey(f.tenant, artifact);
      if a !in artifacts { return Some(NotFound); }
      if artifacts[a].policy != f.policy { return Some(Conflict); }
      var current := if f in champions then Some(champions[f].artifact) else None;
      if expected != current { return Some(Conflict); }
      if current == Some(artifact) { return None; }
      var generation := if f in champions then champions[f].generation + 1 else 1;
      var saved := champions;
      champions := champions[f := Champion(artifact, generation)];
      if AuditKey(f, generation) in audit {
        champions := saved;
        return Some(Conflict);
      }
      audit := audit[AuditKey(f, generation) := Promotion(artifact, current)];
      return None;
    }

    // ----- Recovery -----

    /** `SUM(CASE WHEN status=… THEN units)` over the reservations of one budget. */
    method SumUnits(b: BudgetKey, st: ReservationStatus) returns (total: nat)
      ensures total == Units(reservations, b, st)
    {
      total := 0;
      var left := reservations;
      while left != map[]
        invariant total + Units(left, b, st) == Units(reservations, b, st)
        decreases |left|
      {
        var k :| k in left;
        UnitsRemove(left, k, b, st);
        total := total + Share(k, left[k], b, st);
        left := left - {k};
      }
    }

    /** The accounting comparison, budget by budget. */
    method CheckAccounting() returns (ok: bool)
      ensures ok <==> Accounted(Contents())
    {
      var left := budgets.Keys;
      while left != {}
        invariant left <= budgets.Keys
        invariant forall b :: b in budgets && b !in left ==>
                    budgets[b].reserved == Units(reservations, b, RESERVED) && budgets[b].consumed == Units(reservations, b, CONSUMED)
        decreases |left|
      {
        var b :| b in left;
        var reserved := SumUnits(b, RESERVED);
        var consumed := SumUnits(b, CONSUMED);
        if budgets[b].reserved != reserved || budgets[b].consumed != consumed { return false; }
        left := left - {b};
      }
      return true;
    }

    /** Recovery stops at a mismatch without a change; otherwise it changes exactly the rows of dead operations. */
    method ReconcileStartup(now: int) returns (r: Result<Recovery>)
      modifies this`idempotency, this`reservations, this`budgets, this`leases
      ensures Does(Store.Reconcile(old(Contents()), now), old(Contents()), Contents(), if r.Ok? then None else Some(r.error))
      ensures r.Ok? ==>
                && r.value.failedRecords == |set k | k in old(idempotency) && old(idempotency)[k].status == IN_PROGRESS|
                && r.value.releasedReservations == |set k | k in old(reservations) && old(reservations)[k].status == RESERVED|
                && r.value.releasedUnits == OpenUnits(old(reservations))
                && r.value.releasedLeases == |set k | k in old(leases) && old(leases)[k].holder.Some?|
    {
      var accounted := CheckAccounting();
      if !accounted { return Err(Mismatch); }
      var units := SumOpen(reservations);
      var running := set k | k in idempotency && idempotency[k].status == IN_PROGRESS;
      var leased := set k | k in leases && leases[k].holder.Some?;
      idempotency := map k | k in idempotency :: Tombstone(idempotency[k]);
      var held := ReleaseReservations();
      leases := map k | k in leases :: Unheld(leases[k], now);
      return Ok(Recovery(|running|, held, units, |leased|));
    }

    /** The two updates made when any reservation is open. */
    method ReleaseReservations() returns (held: nat)
      modifies this`reservations, this`budgets
      ensures held == |set k | k in old(reservations) && old(reservations)[k].status == RESERVED|
      ensures reservations == map k | k in old(reservations) :: ReleasedRow(old(reservations)[k])
      ensures budgets == if AnyReserved(old(Contents())) then map b | b in old(budgets) :: ReleasedBudget(old(budgets)[b])
                         else old(budgets)
    {
      var open := set k | k in reservations && reservations[k].status == RESERVED;
      held := |open|;
      if held > 0 {
        var k :| k in open;
        reservations := map k | k in reservations :: ReleasedRow(reservations[k]);
        budgets := map b | b in budgets :: ReleasedBudget(budgets[b]);
      } else {
        assert forall k :: k in reservations ==> k !in open;
      }
    }
  }

  function OpenShare(r: Reservation): nat { if r.status == RESERVED then r.units else 0 }

  /** The units of all RESERVED reservations. */
  ghost function OpenUnits(m: map<ReservationKey, Reservation>): nat {
    if m == map[] then 0
    else var k :| k in m; OpenShare(m[k]) + OpenUnits(m - {k})
  }

  lemma {:induction false} OpenRemove(m: map<ReservationKey, Reservation>, k: ReservationKey)
    requires k in m
    ensures OpenUnits(m) == OpenShare(m[k]) + OpenUnits(m - {k})
    decreases |m|
  {
    var j :| j in m && OpenUnits(m) == OpenShare(m[j]) + OpenUnits(m - {j});
    if j != k {
      OpenRemove(m - {j}, k);
      OpenRemove(m - {k}, j);
      assert m - {j} - {k} == m - {k} - {j};
    }
  }

  method SumOpen(m: map<ReservationKey, Reservation>) returns (total: nat)
    ensures total == OpenUnits(m)
  {
    total := 0;
    var left := m;
    while left != map[]
      invariant total + OpenUnits(left) == OpenUnits(m)
      decreases |left|
    {
      var k :| k in left;
      OpenRemove(left, k);
      total := total + OpenShare(left[k]);
      left := left - {k};
    }
  }
}
