/** What every step of the control-plane protocol keeps. */
module ControlInvariant {
  import opened Wrappers
  import opened Store
  import opened Control

  // ----- Ledger -----

  ghost predicate LedgerRow(db: Database, b: BudgetKey)
    requires b in db.budgets
  {
    var row := db.budgets[b];
    && row.reserved == Units(db.reservations, b, RESERVED)
    && row.consumed == Units(db.reservations, b, CONSUMED)
    && row.reserved + row.consumed <= row.limit
  }

  /** Reserved and consumed are the sums over the reservations and stay within the limit. */
  ghost predicate Ledger(db: Database) {
    && (forall k :: k in db.reservations ==> k.owner in db.budgets && db.reservations[k].units > 0)
    && (forall b :: b in db.budgets ==> LedgerRow(db, b))
  }

  /** The process is inside a try block whose exit settles its reservation, or died there. */
  ghost predicate Holds(p: Proc, k: ReservationKey) {
    && ReservationOf(p) == k
    && Budgetary(p.req.scope)
    && (p.pc.Working? || p.pc.Undo? || p.pc.Finally? || p.pc.FinallyRelease? || p.pc.Dead?)
  }

  ghost predicate Holders(s: State) {
    s.up ==>
      forall k :: k in s.db.reservations && s.db.reservations[k].status == RESERVED ==>
        exists pid :: pid in s.procs && Holds(s.procs[pid], k)
  }

  // ----- Processes -----

  ghost predicate ProcOk(s: State, p: Proc) {
    && p.run in s.used
    && (p.committed <==> p.run in s.commits)
    && (p.committed ==> s.commits[p.run].key == KeyOf(p.req) && s.commits[p.run].payload == ResponseOf(p))
    && (p.pc.Start? || p.pc.Opened? || p.pc.Located? || p.pc.Budgeted? || p.pc.Working? ==> !p.committed)
    && (p.pc.Settled? ==> p.committed)
    && (p.pc.Finally? || p.pc.FinallyRelease? || p.pc.FinallyLease? ==> p.req.scope.TRAIN?)
    && (p.pc.Undo? || p.pc.Budgeted? ==> Budgetary(p.req.scope))
    && (p.token.Some? ==> p.req.scope.TRAIN?)
  }

  ghost predicate Procs(s: State) {
    && (forall pid :: pid in s.procs ==> ProcOk(s, s.procs[pid]))
    && (forall i, j :: i in s.procs && j in s.procs && i != j ==> s.procs[i].run != s.procs[j].run)
    && (forall r :: r in s.commits ==> r in s.used)
  }

  // ----- Effects -----

  function ReceiptOf(c: Commit, run: Id): Option<ReceiptKey> {
    match c.key.scope
    case DECISION => Some(ReceiptKey(Experience, c.key.tenant, run))
    case BENCHMARK => Some(ReceiptKey(Evidence, c.key.tenant, run))
    case PROMOTE => Some(ReceiptKey(Evidence, c.key.tenant, run))
    case _ => None
  }

  function NameOf(k: IdemKey, run: Id): ReservationId {
    match k.scope
    case DECISION => DecisionRun(run)
    case TRAIN => TrainingRunOf(run)
    case _ => Attempt(k.key)
  }

  /** All parts of a committed effect are in the tables. */
  ghost predicate CommitOk(s: State, run: Id)
    requires run in s.commits
  {
    var c := s.commits[run];
    && c.payload == Success(c.key.scope, if c.key.scope.TRAIN? then c.key.key else run)
    && c.index < |s.db.events| && s.db.events[c.index] == Event(c.key.tenant, run, c.key.scope)
    && (c.reservation.Some? <==> Budgetary(c.key.scope))
    && (c.reservation.Some? ==> c.reservation.value in s.db.reservations
                                && s.db.reservations[c.reservation.value].status == CONSUMED)
    && (c.reservation.Some? ==> c.reservation.value.owner.tenant == c.key.tenant
                                && c.reservation.value.id == NameOf(c.key, run))
    && (ReceiptOf(c, run).Some? ==> ReceiptOf(c, run).value in s.db.receipts)
    && (c.key.scope.TRAIN? ==> c.row < |s.trainers| && s.trainers[c.row] == run)
  }

  /** Every commit is whole, and every event, receipt and consumed reservation belongs to a commit. */
  ghost predicate Effects(s: State) {
    && (forall r :: r in s.commits ==> CommitOk(s, r))
    && (forall i :: 0 <= i < |s.db.events| ==>
          s.db.events[i].eventId in s.commits && s.commits[s.db.events[i].eventId].index == i)
    && (forall k :: k in s.db.receipts ==> k.id in s.commits && ReceiptOf(s.commits[k.id], k.id) == Some(k))
    && (forall k :: k in s.db.reservations && s.db.reservations[k].status == CONSUMED ==>
          exists r :: r in s.commits && s.commits[r].reservation == Some(k))
  }

  // ----- Idempotency records -----

  ghost predicate RecordOk(s: State, k: IdemKey)
    requires k in s.db.idempotency
  {
    var record := s.db.idempotency[k];
    && Births(s, k) >= 1
    && (record.status == COMPLETED ==>
          record.result.Some? && exists r :: r in s.commits && s.commits[r].key == k && s.commits[r].payload == record.result.value)
  }

  /** The effect of the current incarnation of a record is the result that record holds. */
  ghost predicate Answered(s: State, run: Id)
    requires run in s.commits
  {
    var c := s.commits[run];
    && 1 <= c.serial <= Births(s, c.key)
    && (c.serial == Births(s, c.key) && c.key in s.db.idempotency ==>
          s.db.idempotency[c.key].status == COMPLETED && s.db.idempotency[c.key].result == Some(c.payload))
  }

  ghost predicate Idempotency(s: State) {
    && (forall k :: k in s.db.idempotency ==> RecordOk(s, k))
    && (forall r :: r in s.commits ==> Answered(s, r))
    && (forall q, r :: q in s.commits && r in s.commits && q != r ==>
          s.commits[q].key != s.commits[r].key || s.commits[q].serial != s.commits[r].serial)
  }

  // ----- Leases and training -----

  /** A token was issued to `run`: it is not newer than the lease, and if current then nobody else holds the lease. */
  ghost predicate Issued(db: Database, k: LeaseKey, token: nat, run: Id) {
    && k in db.leases
    && 1 <= token <= db.leases[k].token
    && (token == db.leases[k].token ==> db.leases[k].holder == None || db.leases[k].holder == Some(run))
  }

  ghost predicate Training(s: State) {
    && |s.trainers| == |s.db.training|
    && (forall k :: k in s.db.leases ==> s.db.leases[k].token >= 1)
    && (forall pid :: pid in s.procs && s.procs[pid].token.Some? ==>
          Issued(s.db, LeaseOf(s.procs[pid].req), s.procs[pid].token.value, s.procs[pid].run))
    && (forall i :: 0 <= i < |s.trainers| ==>
          && s.trainers[i] in s.commits
          && s.commits[s.trainers[i]].key == IdemKey(s.db.training[i].tenant, TRAIN, s.db.training[i].trainingId)
          && s.commits[s.trainers[i]].row == i
          && Issued(s.db, LeaseKey(s.db.training[i].tenant, s.db.training[i].policy), s.db.training[i].token, s.trainers[i]))
    && (forall i, j :: 0 <= i < j < |s.db.training| ==>
          s.db.training[i].tenant != s.db.training[j].tenant || s.db.training[i].trainingId != s.db.training[j].trainingId)
    && FencedOrder(s.db)
  }

  /** Training rows of one family carry strictly increasing fencing tokens. */
  ghost predicate FencedOrder(db: Database) {
    forall i, j :: 0 <= i < j < |db.training| ==>
      db.training[i].tenant == db.training[j].tenant && db.training[i].policy == db.training[j].policy ==>
        db.training[i].token < db.training[j].token
  }

  // ----- Champions -----

  ghost predicate ChainRow(db: Database, k: AuditKey)
    requires k in db.audit
  {
    && k.family in db.champions
    && 1 <= k.generation <= db.champions[k.family].generation
    && ArtifactKey(k.family.tenant, db.audit[k].artifact) in db.artifacts
    && db.artifacts[ArtifactKey(k.family.tenant, db.audit[k].artifact)].policy == k.family.policy
    && (k.generation == 1 ==> db.audit[k].previous == None)
    && (k.generation > 1 ==>
          var before := AuditKey(k.family, k.generation - 1);
          && before in db.audit
          && db.audit[k].previous == Some(db.audit[before].artifact)
          && db.audit[k].artifact != db.audit[before].artifact)
  }

  /** Generations are exactly 1..n, each row's predecessor is the row before it, and the champion is row n. */
  ghost predicate Chain(db: Database) {
    && (forall k {:trigger ChainRow(db, k)} :: k in db.audit ==> ChainRow(db, k))
    && (forall f :: f in db.champions ==>
          && AuditKey(f, db.champions[f].generation) in db.audit
          && db.audit[AuditKey(f, db.champions[f].generation)].artifact == db.champions[f].artifact)
  }

  ghost predicate Inv(s: State) {
    && Ledger(s.db)
    && Holders(s)
    && Procs(s)
    && Effects(s)
    && Idempotency(s)
    && Training(s)
    && Chain(s.db)
    && (!s.up ==> s.procs == map[])
  }

  // ----- Ledger steps -----

  lemma CreateKeepsLedger(db: Database, b: BudgetKey, limit: nat)
    requires Ledger(db) && CreateBudget(db, b, limit).Ok?
    ensures Ledger(CreateBudget(db, b, limit).value)
  {
    var db' := CreateBudget(db, b, limit).value;
    if b !in db.budgets {
      UnitsZero(db.reservations, b, RESERVED);
      UnitsZero(db.reservations, b, CONSUMED);
      forall c | c in db'.budgets ensures LedgerRow(db', c) {
        if c != b { assert LedgerRow(db, c); }
      }
    }
  }

  lemma ReserveKeepsLedger(db: Database, r: ReservationKey, units: nat)
    requires Ledger(db) && ReserveBudget(db, r, units).Ok?
    ensures Ledger(ReserveBudget(db, r, units).value)
  {
    var db' := ReserveBudget(db, r, units).value;
    if r !in db.reservations {
      forall b | b in db'.budgets ensures LedgerRow(db', b) {
        assert LedgerRow(db, b);
        UnitsPut(db.reservations, r, Reservation(units, RESERVED), b, RESERVED);
        UnitsPut(db.reservations, r, Reservation(units, RESERVED), b, CONSUMED);
      }
    }
  }

  /** A transition out of RESERVED never meets the CHECK constraint of the budget row. */
  lemma TransitionKeepsLedger(db: Database, r: ReservationKey, target: ReservationStatus)
    requires Ledger(db) && target != RESERVED
    ensures TransitionReservation(db, r, target).Err? ==>
              TransitionReservation(db, r, target).error == NotFound || TransitionReservation(db, r, target).error == Conflict
    ensures r in db.reservations && db.reservations[r].status == RESERVED ==> TransitionReservation(db, r, target).Ok?
    ensures TransitionReservation(db, r, target).Ok? ==>
              Ledger(TransitionReservation(db, r, target).value)
              && r in TransitionReservation(db, r, target).value.reservations
              && TransitionReservation(db, r, target).value.reservations[r].status == target
  {
    if r in db.reservations && db.reservations[r].status == RESERVED {
      assert LedgerRow(db, r.owner);
      UnitsAtLeast(db.reservations, r);
      var row := Reservation(db.reservations[r].units, target);
      var db' := TransitionReservation(db, r, target).value;
      forall b | b in db'.budgets ensures LedgerRow(db', b) {
        assert LedgerRow(db, b);
        UnitsPut(db.reservations, r, row, b, RESERVED);
        UnitsPut(db.reservations, r, row, b, CONSUMED);
      }
    }
  }

  lemma ReconcileKeepsLedger(db: Database, now: int)
    requires Ledger(db)
    ensures Reconcile(db, now).Ok?
    ensures Ledger(Reconcile(db, now).value)
    ensures forall b :: b in db.budgets ==>
              b in Reconcile(db, now).value.budgets
              && Reconcile(db, now).value.budgets[b].reserved == 0
              && Reconcile(db, now).value.budgets[b].consumed == db.budgets[b].consumed
              && Reconcile(db, now).value.budgets[b].limit == db.budgets[b].limit
  {
    forall b | b in db.budgets
      ensures db.budgets[b].reserved == Units(db.reservations, b, RESERVED)
      ensures db.budgets[b].consumed == Units(db.reservations, b, CONSUMED)
    { assert LedgerRow(db, b); }
    var db' := Reconcile(db, now).value;
    forall b | b in db.budgets
      ensures b in db'.budgets && db'.budgets[b].reserved == 0 && LedgerRow(db', b)
      ensures db'.budgets[b].consumed == db.budgets[b].consumed && db'.budgets[b].limit == db.budgets[b].limit
    {
      assert LedgerRow(db, b);
      ReleasedUnits(db.reservations, b);
      if !AnyReserved(db) { UnitsZero(db.reservations, b, RESERVED); }
    }
  }

  lemma ReleasedUnits(m: map<ReservationKey, Reservation>, b: BudgetKey)
    ensures var m' := map k | k in m :: ReleasedRow(m[k]);
            Units(m', b, RESERVED) == 0 && Units(m', b, CONSUMED) == Units(m, b, CONSUMED)
  {
    var m' := map k | k in m :: ReleasedRow(m[k]);
    UnitsZero(m', b, RESERVED);
    UnitsAgree(m, m', b, CONSUMED);
  }
}
