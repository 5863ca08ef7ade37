/** How the operations of the store undo, repeat and exclude each other. */
module StoreLaws {
  import opened Wrappers
  import opened Store

  // ----- Budgets -----

  function Available(db: Database, b: BudgetKey): int
    requires b in db.budgets
  {
    db.budgets[b].limit - db.budgets[b].reserved - db.budgets[b].consumed
  }

  /** A budget is created once: asked for again with its limit it is the same, with another limit it conflicts. */
  lemma CreateIsIdempotent(db: Database, b: BudgetKey, limit: nat, other: nat)
    ensures CreateBudget(db, b, limit).Ok? <==> b !in db.budgets || db.budgets[b].limit == limit
    ensures CreateBudget(db, b, limit).Ok? ==>
              var db' := CreateBudget(db, b, limit).value;
              && b in db'.budgets && CreateBudget(db', b, limit) == Ok(db')
              && (other != limit ==> CreateBudget(db', b, other) == Err(Conflict))
              && (b !in db.budgets ==> Available(db', b) == limit && db'.budgets[b].version == 0)
  {
  }

  /** A new reservation is granted exactly when the units are positive and available, and takes exactly them. */
  lemma ReserveExactly(db: Database, r: ReservationKey, units: nat)
    requires r !in db.reservations && r.owner in db.budgets
    ensures ReserveBudget(db, r, units).Ok? <==> 0 < units <= Available(db, r.owner)
    ensures units > Available(db, r.owner) && units > 0 ==> ReserveBudget(db, r, units) == Err(BudgetExceeded)
    ensures ReserveBudget(db, r, units).Ok? ==>
              var db' := ReserveBudget(db, r, units).value;
              && r.owner in db'.budgets && r in db'.reservations && db'.reservations[r] == Reservation(units, RESERVED)
              && Available(db', r.owner) == Available(db, r.owner) - units
              && db'.budgets[r.owner].consumed == db.budgets[r.owner].consumed
              && db'.budgets[r.owner].version == db.budgets[r.owner].version + 1
              && (forall b :: b != r.owner ==> (b in db'.budgets <==> b in db.budgets) && (b in db.budgets ==> db'.budgets[b] == db.budgets[b]))
  {
  }

  /** Reserving again under the same id is harmless for the same amount, whatever became of it, and conflicts for another. */
  lemma ReserveRepeats(db: Database, r: ReservationKey, units: nat)
    requires r in db.reservations && r.owner in db.budgets && units > 0
    ensures ReserveBudget(db, r, units) == if db.reservations[r].units == units then Ok(db) else Err(Conflict)
  {
  }

  /** Releasing a reservation gives its units back; consuming it keeps them taken and counts them as spent. */
  lemma ReserveThenSettle(db: Database, r: ReservationKey, units: nat)
    requires r !in db.reservations && r.owner in db.budgets && ReserveBudget(db, r, units).Ok?
    ensures var held := ReserveBudget(db, r, units).value;
            var freed, spent := TransitionReservation(held, r, RELEASED), TransitionReservation(held, r, CONSUMED);
            && freed.Ok? && spent.Ok?
            && r.owner in freed.value.budgets && r.owner in spent.value.budgets
            && Available(freed.value, r.owner) == Available(db, r.owner)
            && freed.value.budgets[r.owner].consumed == db.budgets[r.owner].consumed
            && freed.value.budgets[r.owner].reserved == db.budgets[r.owner].reserved
            && Available(spent.value, r.owner) == Available(db, r.owner) - units
            && spent.value.budgets[r.owner].consumed == db.budgets[r.owner].consumed + units
            && spent.value.budgets[r.owner].reserved == db.budgets[r.owner].reserved
            && freed.value.budgets[r.owner].version == spent.value.budgets[r.owner].version == db.budgets[r.owner].version + 2
  {
    var held := ReserveBudget(db, r, units).value;
    var b := held.budgets[r.owner];
    assert b.reserved >= units && b.reserved + b.consumed <= b.limit;
  }

  /** A settled reservation stays as it is: settling it again the same way changes nothing, the other way conflicts. */
  lemma SettledStays(db: Database, r: ReservationKey, target: ReservationStatus)
    requires r in db.reservations && r.owner in db.budgets && db.reservations[r].status != RESERVED && target != RESERVED
    ensures TransitionReservation(db, r, target) == if db.reservations[r].status == target then Ok(db) else Err(Conflict)
  {
  }

  lemma UnknownReservation(db: Database, r: ReservationKey, target: ReservationStatus)
    requires r !in db.reservations
    ensures TransitionReservation(db, r, target) == Err(NotFound)
  {
  }

  // ----- Idempotency -----

  /** A finished record is final: the same outcome is accepted again, any other conflicts, and its request never changes. */
  lemma FinishIsFinal(db: Database, k: IdemKey, status: IdemStatus, result: Payload, status': IdemStatus, result': Payload)
    requires status != IN_PROGRESS && status' != IN_PROGRESS && FinishIdempotency(db, k, status, result).Ok?
    ensures var db' := FinishIdempotency(db, k, status, result).value;
            && k in db.idempotency && k in db'.idempotency
            && db'.idempotency[k] == db.idempotency[k].(status := status, result := Some(result))
            && FinishIdempotency(db', k, status', result') == if status' == status && result' == result then Ok(db') else Err(Conflict)
  {
    var db' := FinishIdempotency(db, k, status, result).value;
    if db.idempotency[k].status != IN_PROGRESS { assert db'.idempotency[k] == db.idempotency[k]; }
  }

  /** What was claimed is found again by the same request until it expires, and then the key is free. */
  lemma ClaimThenClaim(db: Database, k: IdemKey, hash: Id, now: int, ttl: nat, later: int)
    requires ClaimIdempotency(db, k, hash, now, Some(ttl)).Ok? && ClaimIdempotency(db, k, hash, now, Some(ttl)).value.isNew
    ensures ttl > 0
    ensures var claim := ClaimIdempotency(db, k, hash, now, Some(ttl)).value;
            var again := ClaimIdempotency(claim.db, k, hash, later, Some(ttl));
            && again.Ok?
            && (later <= now + ttl ==> !again.value.isNew && again.value.record == claim.record)
            && (later > now + ttl ==> again.value.isNew && again.value.record.expires == Some(later + ttl))
            && again.value.record.hash == hash
  {
  }

  // ----- Leases -----

  /** A lease that was acquired keeps others out until it expires, and then passes on with the next token. */
  lemma AcquireExcludes(db: Database, k: LeaseKey, holder: Id, ttl: nat, now: int, other: Id, later: int)
    requires holder != other && AcquireLease(db, k, holder, ttl, now).Ok?
    ensures var db' := AcquireLease(db, k, holder, ttl, now).value;
            && k in db'.leases && db'.leases[k].holder == Some(holder) && db'.leases[k].expires == now + ttl
            && AcquireLease(db', k, other, ttl, later) ==
               if later < now + ttl then Err(LeaseUnavailable)
               else Ok(db'.(leases := db'.leases[k := Lease(Some(other), db'.leases[k].token + 1, later + ttl)]))
  {
  }

  /** Given back, a lease can be had at once; the one who gave it back can then neither renew nor release it. */
  lemma ReleaseFrees(db: Database, k: LeaseKey, holder: Id, token: nat, now: int, other: Id, ttl: nat)
    requires ttl > 0 && ReleaseLease(db, k, holder, token, now).Ok?
    ensures var db' := ReleaseLease(db, k, holder, token, now).value;
            && k in db'.leases && db'.leases[k].token == token
            && AcquireLease(db', k, other, ttl, now) == Ok(db'.(leases := db'.leases[k := Lease(Some(other), token + 1, now + ttl)]))
            && RenewLease(db', k, holder, token, ttl, now) == Err(Conflict)
            && ReleaseLease(db', k, holder, token, now) == Err(Conflict)
  {
  }

  /** A renewal needs the holder, its token and a lease that is still live, and moves nothing but the expiry. */
  lemma RenewExactly(db: Database, k: LeaseKey, holder: Id, token: nat, ttl: int, now: int)
    ensures RenewLease(db, k, holder, token, ttl, now).Ok? <==>
              ttl > 0 && k in db.leases && db.leases[k].holder == Some(holder) && db.leases[k].token == token && now < db.leases[k].expires
    ensures RenewLease(db, k, holder, token, ttl, now).Ok? ==>
              RenewLease(db, k, holder, token, ttl, now).value == db.(leases := db.leases[k := Lease(Some(holder), token, now + ttl)])
  {
  }

  // ----- Artifacts and training -----

  /** An artifact id is bound to its row, and a policy version of a tenant to its artifact. */
  lemma RegisterBinds(db: Database, k: ArtifactKey, row: Artifact, j: ArtifactKey, other: Artifact)
    requires RegisterArtifact(db, k, row).Ok?
    ensures var db' := RegisterArtifact(db, k, row).value;
            && k in db'.artifacts && db'.artifacts[k] == row && RegisterArtifact(db', k, row) == Ok(db')
            && (other != row ==> RegisterArtifact(db', k, other) == Err(Conflict))
            && (j != k && j.tenant == k.tenant && j !in db'.artifacts && other.policy == row.policy && other.version == row.version ==>
                  RegisterArtifact(db', j, other) == Err(Conflict))
  {
    var db' := RegisterArtifact(db, k, row).value;
    assert k in db'.artifacts.Keys;
  }

  /** Tenants do not stand in each other's way. */
  lemma RegisterByTenant(db: Database, k: ArtifactKey, row: Artifact)
    requires forall j :: j in db.artifacts ==> j.tenant != k.tenant
    ensures RegisterArtifact(db, k, row) == Ok(db.(artifacts := db.artifacts[k := row]))
  {
  }

  ghost predicate Named(db: Database, row: TrainingRun) {
    exists i :: 0 <= i < |db.training| && db.training[i].tenant == row.tenant && db.training[i].trainingId == row.trainingId
  }

  /** A training run is recorded once, for a registered artifact of its family, under a positive token. */
  lemma RecordExactly(db: Database, row: TrainingRun)
    ensures RecordTrainingRun(db, row).Ok? <==>
              && row.token > 0
              && if Named(db, row) then row in db.training
                 else ArtifactKey(row.tenant, row.artifact) in db.artifacts
                      && db.artifacts[ArtifactKey(row.tenant, row.artifact)].policy == row.policy
    ensures RecordTrainingRun(db, row).Ok? ==>
              RecordTrainingRun(db, row).value == if Named(db, row) then db else db.(training := db.training + [row])
  {
  }

  // ----- Champions -----

  /** Promoting the reigning champion again is accepted and changes nothing. */
  lemma ReigningChampionStays(db: Database, f: FamilyKey)
    requires f in db.champions
    requires var a := ArtifactKey(f.tenant, db.champions[f].artifact); a in db.artifacts && db.artifacts[a].policy == f.policy
    ensures PromotePolicy(db, f, db.champions[f].artifact, Some(db.champions[f].artifact)) == Ok(db)
  {
  }

  /** A promotion needs a registered artifact of the family and the champion the caller expects. */
  lemma PromoteExactly(db: Database, f: FamilyKey, artifact: Id, expected: Option<Id>)
    requires AuditKey(f, if f in db.champions then db.champions[f].generation + 1 else 1) !in db.audit
    ensures PromotePolicy(db, f, artifact, expected).Ok? <==>
              && ArtifactKey(f.tenant, artifact) in db.artifacts && db.artifacts[ArtifactKey(f.tenant, artifact)].policy == f.policy
              && (if f in db.champions then expected == Some(db.champions[f].artifact) else expected == None)
    ensures PromotePolicy(db, f, artifact, expected).Ok? ==>
              var db' := PromotePolicy(db, f, artifact, expected).value;
              && f in db'.champions && db'.champions[f].artifact == artifact
              && (forall g :: g != f ==> (g in db'.champions <==> g in db.champions) && (g in db.champions ==> db'.champions[g] == db.champions[g]))
              && (f !in db.champions ==> db'.champions[f].generation == 1)
              && (f in db.champions && db.champions[f].artifact != artifact ==> db'.champions[f].generation == db.champions[f].generation + 1)
  {
  }

  // ----- Recovery -----

  /**
   What recovery writes: interrupted records become failures that never expire, open reservations are released, a budget
   with reserved units gets them back under the next version, and held leases are freed with their tokens.
   */
  lemma RecoveryWrites(db: Database, now: int)
    requires Reconcile(db, now).Ok?
    requires forall b :: b in db.budgets && db.budgets[b].reserved > 0 ==> AnyReserved(db)
    ensures var db' := Reconcile(db, now).value;
            && db'.budgets.Keys == db.budgets.Keys && db'.reservations.Keys == db.reservations.Keys
            && db'.idempotency.Keys == db.idempotency.Keys && db'.leases.Keys == db.leases.Keys
            && (forall b :: b in db.budgets ==>
                  db'.budgets[b] == if db.budgets[b].reserved > 0
                                    then Budget(db.budgets[b].limit, 0, db.budgets[b].consumed, db.budgets[b].version + 1)
                                    else db.budgets[b])
            && (forall r :: r in db.reservations ==>
                  db'.reservations[r] == if db.reservations[r].status == RESERVED then Reservation(db.reservations[r].units, RELEASED)
                                         else db.reservations[r])
            && (forall k :: k in db.idempotency ==>
                  db'.idempotency[k] == if db.idempotency[k].status == IN_PROGRESS
                                        then IdemRecord(db.idempotency[k].hash, FAILED, Some(Interrupted), None)
                                        else db.idempotency[k])
            && (forall k :: k in db.leases ==>
                  db'.leases[k] == if db.leases[k].holder.Some? then Lease(None, db.leases[k].token, now) else db.leases[k])
            && db'.receipts == db.receipts && db'.events == db.events && db'.artifacts == db.artifacts
            && db'.training == db.training && db'.champions == db.champions && db'.audit == db.audit
  {
  }

  /** Recovery done twice is recovery done once. */
  lemma RecoveryIsIdempotent(db: Database, now: int, later: int)
    requires Reconcile(db, now).Ok? && Reconcile(Reconcile(db, now).value, later).Ok?
    ensures Reconcile(Reconcile(db, now).value, later).value == Reconcile(db, now).value
  {
    var db' := Reconcile(db, now).value;
    var db'' := Reconcile(db', later).value;
    assert db''.idempotency == db'.idempotency;
    assert db''.reservations == db'.reservations;
    assert db''.leases == db'.leases;
    assert db''.budgets == db'.budgets;
  }
}
