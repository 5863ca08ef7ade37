/** Whose record a commit completes: records carry no owner, so it is the request's own exactly while records last. */
module ControlOwner {
  import opened Wrappers
  import opened Store
  import opened Control
  import opened ControlInvariant
  import opened ControlCommit
  import opened ControlTheorems
  import opened ControlLater
  import opened ControlRollback
  import opened ControlRows
  import opened ControlScript
  import opened ControlReply

  predicate Active(p: Proc) { !p.pc.Start? && !p.pc.Done? && !p.pc.Dead? }

  predicate OwnsRecord(db: Database, q: Request) { KeyOf(q) in db.idempotency && db.idempotency[KeyOf(q)].hash == q.hash }

  /** Every request under way has the record of its key. */
  ghost predicate Owners(s: State) {
    forall pid :: pid in s.procs && Active(s.procs[pid]) ==> OwnsRecord(s.db, s.procs[pid].req)
  }

  /** Within the window a record stays and stands for one request. */
  lemma OwnershipStays(s: State, s': State, q: Request, start: int)
    requires Permanent(s, start) && Permanent(s', start) && SameRequests(s, s') && OwnsRecord(s.db, q)
    ensures OwnsRecord(s'.db, q)
  {
    var k := KeyOf(q);
    assert SameRequest(s, s', k);
    assert Births(s, k) == 1;
    assert Births(s', k) == if k in s'.db.idempotency then 1 else 0;
  }

  /** A step leaves its process inactive, or with the record of its request. */
  lemma MoverOwns(s: State, pid: nat, c: Choice, start: int)
    requires Inv(s) && Readers(s) && s.up && pid in s.procs && Owners(s)
    requires Permanent(s, start) && Permanent(Next(s, Step(pid, c)), start)
    ensures var s' := Next(s, Step(pid, c));
            pid in s'.procs && (Active(s'.procs[pid]) ==> OwnsRecord(s'.db, s'.procs[pid].req))
  {
    var s' := Next(s, Step(pid, c));
    StepOnward(s, pid, c);
    if s.procs[pid].pc.Start? {
      OtherRequestIsRefused(s, pid, c);
    } else if Active(s.procs[pid]) {
      NextRequests(s, Step(pid, c));
      OwnershipStays(s, s', s.procs[pid].req, start);
    }
  }

  lemma NextOwners(s: State, a: Action, start: int)
    requires Inv(s) && Readers(s) && Owners(s) && Permanent(s, start) && Permanent(Next(s, a), start)
    ensures Owners(Next(s, a))
  {
    var s' := Next(s, a);
    NextRequests(s, a);
    if a.Step? && s.up && a.who in s.procs {
      StepOnward(s, a.who, a.choice);
      MoverOwns(s, a.who, a.choice, start);
    }
    forall pid | pid in s'.procs && Active(s'.procs[pid]) ensures OwnsRecord(s'.db, s'.procs[pid].req) {
      if pid in s.procs && s'.procs[pid] == s.procs[pid] { OwnershipStays(s, s', s.procs[pid].req, start); }
    }
  }

  lemma {:induction false} RunOwners(actions: seq<Action>, start: int)
    requires Windowed(actions, start, TTL)
    ensures Owners(Run(INITIAL, actions))
    decreases |actions|
  {
    if actions != [] {
      var before := actions[..|actions| - 1];
      RunOwners(before, start);
      RunPermanent(before, start);
      RunPermanent(actions, start);
      Reached(before);
      NextOwners(Run(INITIAL, before), actions[|actions| - 1], start);
    }
  }

  /** In a state every commit that is possible completes the record of its own request. */
  ghost predicate CommitsOwn(s: State) {
    forall pid, c :: pid in s.procs && s.procs[pid].pc.Working? && CommitEffect(s.db, s.procs[pid], c).Ok? ==>
      OwnsRecord(s.db, s.procs[pid].req)
  }

  ghost predicate OwnWithin(width: nat) {
    forall start: int, actions: seq<Action> :: Windowed(actions, start, width) ==> CommitsOwn(Run(INITIAL, actions))
  }

  // ----- A reply to another request -----

  /** Another request under the key of the first decision. */
  const OTHER: Request := DECIDE.(hash := 1)

  /** The first decision at work, its record expired and the key claimed by the other request. */
  lemma KeyIsClaimedAgain(width: nat) returns (actions: seq<Action>)
    requires width > TTL
    ensures Windowed(actions, 0, width)
    ensures var s := Run(INITIAL, actions);
            && s.up && 0 in s.procs && s.procs[0] == Proc(DECIDE, Working, 1, None, None, 0, false)
            && s.db == Reserved(map[KeyOf(DECIDE) := Opening(OTHER, width)])
  {
    var before := DecisionWorks();
    var after := [Submit(1, OTHER, 2), Step(1, At(width))];
    ClaimsOver(Run(INITIAL, before), width);
    RunAppends(INITIAL, before, after);
    actions := before + after;
  }

  lemma DecisionWorks() returns (actions: seq<Action>)
    ensures Windowed(actions, 0, 0)
    ensures var s := Run(INITIAL, actions);
            && s.up && s.procs == map[0 := Proc(DECIDE, Working, 1, None, None, 0, false)] && s.used == {1}
            && s.db == Reserved(map[KeyOf(DECIDE) := Opening(DECIDE, 0)])
  {
    var step := Step(0, At(0));
    var a1, a2 := [Submit(0, DECIDE, 1), step], [step, step];
    Begins(INITIAL, 0, DECIDE, 1, 0);
    var s1 := Run(INITIAL, a1);
    DecisionReserves(s1);
    RunAppends(INITIAL, a1, a2);
    actions := a1 + a2;
  }

  lemma ClaimsOver(s: State, width: nat)
    requires width > TTL && s.up && s.procs == map[0 := Proc(DECIDE, Working, 1, None, None, 0, false)] && s.used == {1}
    requires s.db == Reserved(map[KeyOf(DECIDE) := Opening(DECIDE, 0)])
    ensures var t := Run(s, [Submit(1, OTHER, 2), Step(1, At(width))]);
            && t.up && 0 in t.procs && t.procs[0] == s.procs[0] && t.db == Reserved(map[KeyOf(DECIDE) := Opening(OTHER, width)])
  {
    assert Unexpired(s.db.idempotency, width) == map[];
    Begins(s, 1, OTHER, 2, width);
  }

  lemma StrangerCommits(p: Proc, width: nat)
    requires p == Proc(DECIDE, Working, 1, None, None, 0, false)
    ensures CommitDecision(Reserved(map[KeyOf(DECIDE) := Opening(OTHER, width)]), p).Ok?
  {
    var db := Reserved(map[KeyOf(DECIDE) := Opening(OTHER, width)]);
    var db1 := RecordReceipt(db, ReceiptKey(Experience, 0, 1)).value;
    var db2 := AppendEvent(db1, Event(0, 1, DECISION)).value;
    assert TransitionReservation(db2, CHARGE, CONSUMED).Ok?;
  }

  /**
   Records have no owner. Over all runs whose clock readings span at most `width` seconds every commit completes the
   record of its own request, exactly when the span is within the TTL: beyond it a slow request can complete the record
   of another request that has claimed its key meanwhile, which then answers with the wrong result.
   */
  lemma CommitsCompleteTheirOwnRecord(width: nat)
    ensures OwnWithin(width) <==> width <= TTL
  {
    if width <= TTL {
      forall start: int, actions: seq<Action> | Windowed(actions, start, width) ensures CommitsOwn(Run(INITIAL, actions)) {
        assert Windowed(actions, start, TTL);
        RunOwners(actions, start);
      }
    } else {
      var actions := KeyIsClaimedAgain(width);
      var s := Run(INITIAL, actions);
      StrangerCommits(s.procs[0], width);
      assert CommitEffect(s.db, s.procs[0], At(0)).Ok?;
      assert !CommitsOwn(s);
    }
  }
}
