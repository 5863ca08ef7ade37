/** Admission, release and drain of the HTTP server: a multi-step protocol between request threads and a drain call. */
module Admission {
  import opened Wrappers

  // ----- Shared state -----

  datatype Limits = Limits(workers: nat, operational: nat)

  datatype Shared = Shared(work: nat, operational: nat, draining: bool, active: int)

  function Permits(m: Shared, op: bool): nat { if op then m.operational else m.work }

  function WithPermits(m: Shared, op: bool, n: nat): Shared {
    if op then m.(operational := n) else m.(work := n)
  }

  function Confirmed(m: Shared, op: bool): Shared {
    if m.draining && !op then WithPermits(m, op, Permits(m, op) + 1)
    else if op then m
    else m.(active := m.active + 1)
  }

  // ----- The protocol -----

  datatype Phase =
    | Arrived    // before the first drain check
    | Passed     // first check passed, no permit yet
    | Holding    // permit taken, second check pending
    | Running    // admitted: the request body runs
    | Returned   // work only: permit given back, not yet counted down
    | Gone

  datatype Thread = Thread(op: bool, phase: Phase)

  datatype State = State(shared: Shared, threads: map<nat, Thread>)

  datatype Action = Arrive(who: nat, op: bool) | Advance(t: nat) | Drain

  function Start(limits: Limits): State { State(Shared(limits.workers, limits.operational, false, 0), map[]) }

  function Move(s: State, t: nat, th: Thread, phase: Phase, m: Shared): State {
    State(m, s.threads[t := th.(phase := phase)])
  }

  function Step(s: State, t: nat): State
    requires t in s.threads
  {
    var th := s.threads[t];
    var m := s.shared;
    match th.phase
    case Arrived => Move(s, t, th, if m.draining && !th.op then Gone else Passed, m)
    case Passed =>
      if Permits(m, th.op) == 0 then Move(s, t, th, Gone, m)
      else Move(s, t, th, Holding, WithPermits(m, th.op, Permits(m, th.op) - 1))
    case Holding => Move(s, t, th, if m.draining && !th.op then Gone else Running, Confirmed(m, th.op))
    case Running => Move(s, t, th, if th.op then Gone else Returned, WithPermits(m, th.op, Permits(m, th.op) + 1))
    case Returned => Move(s, t, th, Gone, m.(active := m.active - 1))
    case Gone => s
  }

  function Next(s: State, a: Action): State {
    match a
    case Arrive(t, op) => if t in s.threads then s else s.(threads := s.threads[t := Thread(op, Arrived)])
    case Advance(t) => if t in s.threads then Step(s, t) else s
    case Drain => s.(shared := s.shared.(draining := true))
  }

  function Run(s: State, actions: seq<Action>): State
    decreases |actions|
  {
    if actions == [] then s else Next(Run(s, actions[..|actions| - 1]), actions[|actions| - 1])
  }

  // ----- Invariant -----

  function Holders(s: State, op: bool): set<nat> {
    set t | t in s.threads && s.threads[t].op == op && (s.threads[t].phase.Holding? || s.threads[t].phase.Running?)
  }

  function RunningWork(s: State): set<nat> {
    set t | t in s.threads && !s.threads[t].op && s.threads[t].phase.Running?
  }

  function CountedWork(s: State): set<nat> {
    set t | t in s.threads && !s.threads[t].op && (s.threads[t].phase.Running? || s.threads[t].phase.Returned?)
  }

  ghost predicate Inv(limits: Limits, s: State) {
    && s.shared.work + |Holders(s, false)| == limits.workers
    && s.shared.operational + |Holders(s, true)| == limits.operational
    && s.shared.active == |CountedWork(s)|
    && forall t :: t in s.threads && s.threads[t].phase.Returned? ==> !s.threads[t].op
  }

  function One(b: bool): nat { if b then 1 else 0 }

  predicate Holds(th: Thread, op: bool) { th.op == op && (th.phase.Holding? || th.phase.Running?) }

  predicate Counts(th: Thread) { !th.op && (th.phase.Running? || th.phase.Returned?) }

  /** How one thread's move changes the sizes of the sets. */
  lemma SizesMove(s: State, t: nat, th: Thread, phase: Phase, m: Shared, op: bool)
    requires t in s.threads && s.threads[t] == th
    ensures |Holders(Move(s, t, th, phase, m), op)| == |Holders(s, op)| - One(Holds(th, op)) + One(Holds(th.(phase := phase), op))
    ensures |CountedWork(Move(s, t, th, phase, m))| == |CountedWork(s)| - One(Counts(th)) + One(Counts(th.(phase := phase)))
  {
    var s' := Move(s, t, th, phase, m);
    SizeChange(Holders(s, op), Holders(s', op), t);
    SizeChange(CountedWork(s), CountedWork(s'), t);
  }

  lemma SizeChange(a: set<nat>, b: set<nat>, t: nat)
    requires a - {t} == b - {t}
    ensures |b| == |a| - One(t in a) + One(t in b)
  {
    assert |a| == |a - {t}| + One(t in a);
    assert |b| == |b - {t}| + One(t in b);
  }

  lemma StepKeeps(limits: Limits, s: State, t: nat)
    requires Inv(limits, s) && t in s.threads
    ensures Inv(limits, Step(s, t))
  {
    var th := s.threads[t];
    var s' := Step(s, t);
    if !th.phase.Gone? {
      SizesMove(s, t, th, s'.threads[t].phase, s'.shared, false);
      SizesMove(s, t, th, s'.threads[t].phase, s'.shared, true);
    }
  }

  lemma NextKeeps(limits: Limits, s: State, a: Action)
    requires Inv(limits, s)
    ensures Inv(limits, Next(s, a))
  {
    match a
    case Arrive(t, op) =>
      var s' := Next(s, a);
      assert Holders(s', false) == Holders(s, false) && Holders(s', true) == Holders(s, true);
      assert CountedWork(s') == CountedWork(s);
    case Advance(t) => if t in s.threads { StepKeeps(limits, s, t); }
    case Drain =>
      var s' := Next(s, a);
      assert Holders(s', false) == Holders(s, false) && Holders(s', true) == Holders(s, true);
      assert CountedWork(s') == CountedWork(s);
  }

  lemma {:induction false} RunKeeps(limits: Limits, s: State, actions: seq<Action>)
    requires Inv(limits, s)
    ensures Inv(limits, Run(s, actions))
    decreases |actions|
  {
    if actions != [] {
      RunKeeps(limits, s, actions[..|actions| - 1]);
      NextKeeps(limits, Run(s, actions[..|actions| - 1]), actions[|actions| - 1]);
    }
  }

  // ----- Theorems over every interleaving -----

  /**
   Permits plus holders is constant for both semaphores, running work bodies never exceed the worker limit, and the
   active count is the running bodies plus those that have returned their permit: it never underflows.
   */
  lemma AdmissionIsBounded(limits: Limits, actions: seq<Action>)
    ensures var s := Run(Start(limits), actions);
            && s.shared.work + |Holders(s, false)| == limits.workers
            && s.shared.operational + |Holders(s, true)| == limits.operational
            && |RunningWork(s)| <= limits.workers
            && s.shared.active == |CountedWork(s)| && RunningWork(s) <= CountedWork(s)
  {
    var s := Run(Start(limits), actions);
    assert Holders(Start(limits), false) == {} && Holders(Start(limits), true) == {} && CountedWork(Start(limits)) == {};
    RunKeeps(limits, Start(limits), actions);
    Smaller(RunningWork(s), Holders(s, false));
  }

  lemma Smaller(a: set<nat>, b: set<nat>)
    requires a <= b
    ensures |a| <= |b|
  {
    assert b == a + (b - a);
  }

  lemma RunNext(s: State, actions: seq<Action>, a: Action)
    ensures Run(s, actions + [a]) == Next(Run(s, actions), a)
  {
    assert (actions + [a])[..|actions|] == actions;
  }

  /** One more work request runs to the point where its permit is back and its count is not. */
  lemma OneMoreReturned(s: State, past: seq<Action>, t: nat) returns (actions: seq<Action>)
    requires var m := Run(s, past); t !in m.threads && m.shared.work > 0 && !m.shared.draining
    ensures var m, m' := Run(s, past), Run(s, actions);
            m'.shared == m.shared.(active := m.shared.active + 1) && m'.threads.Keys == m.threads.Keys + {t}
  {
    var a := Advance(t);
    RunNext(s, past, Arrive(t, false));
    RunNext(s, past + [Arrive(t, false)], a);
    RunNext(s, past + [Arrive(t, false)] + [a], a);
    RunNext(s, past + [Arrive(t, false)] + [a] + [a], a);
    RunNext(s, past + [Arrive(t, false)] + [a] + [a] + [a], a);
    actions := past + [Arrive(t, false)] + [a] + [a] + [a] + [a];
  }

  /** With any worker at all, the count itself reaches every number: a permit returns before the count goes down. */
  lemma {:induction false} CountReaches(limits: Limits, n: nat) returns (actions: seq<Action>)
    requires limits.workers > 0
    ensures var s := Run(Start(limits), actions);
            && s.shared == Start(limits).shared.(active := n)
            && forall t :: t in s.threads ==> t < n
  {
    actions := [];
    if n > 0 {
      var past := CountReaches(limits, n - 1);
      actions := OneMoreReturned(Start(limits), past, n - 1);
    }
  }

  ghost predicate CountBoundedBy(limits: Limits, bound: nat) {
    forall actions: seq<Action> :: Run(Start(limits), actions).shared.active <= bound
  }

  /** So no number bounds the active count over all runs, unless there are no workers and it never leaves 0. */
  lemma ActiveCountIsUnbounded(limits: Limits, bound: nat)
    ensures CountBoundedBy(limits, bound) <==> limits.workers == 0
  {
    if limits.workers > 0 {
      var actions := CountReaches(limits, bound + 1);
      assert Run(Start(limits), actions).shared.active > bound;
    } else {
      forall actions: seq<Action> ensures Run(Start(limits), actions).shared.active <= bound { NoWorkersNoWork(limits, actions); }
    }
  }

  lemma {:induction false} NoWorkersNoWork(limits: Limits, actions: seq<Action>)
    requires limits.workers == 0
    ensures CountedWork(Run(Start(limits), actions)) == {} && Run(Start(limits), actions).shared.active <= 0
    decreases |actions|
  {
    AdmissionIsBounded(limits, actions);
    if actions != [] {
      var before := actions[..|actions| - 1];
      NoWorkersNoWork(limits, before);
      AdmissionIsBounded(limits, before);
      assert Holders(Run(Start(limits), before), false) == {};
      var s, s' := Run(Start(limits), before), Run(Start(limits), actions);
      assert forall t :: t in s.threads ==> t !in CountedWork(s) && t !in Holders(s, false);
      assert forall t :: t in s'.threads ==> t !in CountedWork(s');
    }
  }

  /** After draining starts the active count never rises again. */
  lemma {:induction false} DrainOnlyCountsDown(s: State, actions: seq<Action>)
    requires s.shared.draining
    ensures Run(s, actions).shared.draining && Run(s, actions).shared.active <= s.shared.active
    decreases |actions|
  {
    if actions != [] {
      DrainOnlyCountsDown(s, actions[..|actions| - 1]);
    }
  }

  /** Once the count is seen at 0 while draining, no work body is running and none ever starts. */
  lemma DrainedIsFinal(limits: Limits, past: seq<Action>, future: seq<Action>)
    requires var s := Run(Start(limits), past); s.shared.draining && s.shared.active == 0
    ensures RunningWork(Run(Run(Start(limits), past), future)) == {}
  {
    var s := Run(Start(limits), past);
    var s' := Run(s, future);
    assert Holders(Start(limits), false) == {} && Holders(Start(limits), true) == {} && CountedWork(Start(limits)) == {};
    RunKeeps(limits, Start(limits), past);
    RunKeeps(limits, s, future);
    DrainOnlyCountsDown(s, future);
    Smaller(RunningWork(s'), CountedWork(s'));
  }

  // ----- The program -----

  /** The rejection codes of `admit_request`. */
  datatype Rejection = DRAINING | OVERLOADED

  /** Actions of other threads and of the drain call only. */
  predicate Foreign(t: nat, others: seq<Action>) {
    forall i :: 0 <= i < |others| ==> !(others[i].Advance? && others[i].t == t)
  }

  lemma {:induction false} OthersLeaveThread(s: State, t: nat, others: seq<Action>)
    requires t in s.threads && Foreign(t, others)
    ensures t in Run(s, others).threads && Run(s, others).threads[t] == s.threads[t]
    decreases |others|
  {
    if others != [] { OthersLeaveThread(s, t, others[..|others| - 1]); }
  }

  lemma {:induction false} RunAppends(s: State, before: seq<Action>, after: seq<Action>)
    ensures Run(s, before + after) == Run(Run(s, before), after)
    decreases |after|
  {
    if after == [] {
      assert before + after == before;
    } else {
      RunAppends(s, before, after[..|after| - 1]);
      assert (before + after)[..|before + after| - 1] == before + after[..|after| - 1];
    }
  }

  /** A holder's permit is missing from its pool, and a counted request is in the count. */
  lemma HolderFitsBack(limits: Limits, s: State, t: nat)
    requires Inv(limits, s) && t in s.threads
    ensures Holds(s.threads[t], s.threads[t].op) ==>
              Permits(s.shared, s.threads[t].op) < if s.threads[t].op then limits.operational else limits.workers
    ensures Counts(s.threads[t]) ==> s.shared.active >= 1
  {
    var op := s.threads[t].op;
    if Holds(s.threads[t], op) { Smaller({t}, Holders(s, op)); }
    if Counts(s.threads[t]) { Smaller({t}, CountedWork(s)); }
  }

  /**
   The server object: two semaphores, the drain flag and the count of active work requests. `threads` is where each
   request thread stands in the program; the threads themselves keep it.
   */
  class ProductionHTTPServer {
    const limits: Limits
    var workPermits: nat
    var operationalPermits: nat
    var draining: bool
    var activeWork: int
    var threads: map<nat, Thread>
    /** The interleaving that has happened. */
    ghost var trace: seq<Action>

    function Contents(): State
      reads this
    {
      State(Shared(workPermits, operationalPermits, draining, activeWork), threads)
    }

    /** The object is where the protocol is after the trace. */
    ghost predicate InStep()
      reads this
    {
      Contents() == Run(Start(limits), trace) && Inv(limits, Contents())
    }

    constructor (limits: Limits)
      ensures this.limits == limits && Contents() == Start(limits) && trace == [] && InStep()
    {
      this.limits := limits;
      workPermits, operationalPermits, draining, activeWork := limits.workers, limits.operational, false, 0;
      threads, trace := map[], [];
      new;
      assert Holders(Start(limits), false) == {} && Holders(Start(limits), true) == {} && CountedWork(Start(limits)) == {};
    }

    /** Records one action the fields have just followed. */
    ghost method Follow(s: State, a: Action)
      requires s == Run(Start(limits), trace) && Inv(limits, s) && Contents() == Next(s, a)
      modifies this`trace
      ensures InStep() && trace == old(trace) + [a]
    {
      NextKeeps(limits, s, a);
      RunNext(Start(limits), trace, a);
      trace := trace + [a];
    }

    /** Between two sections of one thread anything else may run. */
    method Interleave(others: seq<Action>)
      requires InStep()
      modifies this
      ensures InStep() && Contents() == Run(old(Contents()), others) && trace == old(trace) + others
    {
      RunKeeps(limits, Contents(), others);
      RunAppends(Start(limits), trace, others);
      var s := Run(Contents(), others);
      workPermits, operationalPermits, draining, activeWork := s.shared.work, s.shared.operational, s.shared.draining, s.shared.active;
      threads, trace := s.threads, trace + others;
    }

    /** `semaphore.acquire(blocking=False)`. */
    method TryAcquire(op: bool) returns (acquired: bool)
      modifies this`workPermits, this`operationalPermits
      ensures acquired == (Permits(old(Contents()).shared, op) > 0)
      ensures Contents() == old(Contents()).(shared :=
                if acquired then WithPermits(old(Contents()).shared, op, Permits(old(Contents()).shared, op) - 1)
                else old(Contents()).shared)
    {
      if op {
        acquired := operationalPermits > 0;
        if acquired { operationalPermits := operationalPermits - 1; }
      } else {
        acquired := workPermits > 0;
        if acquired { workPermits := workPermits - 1; }
      }
    }

    /** `semaphore.release()`: a bounded semaphore refuses to exceed its initial count. */
    method Release(op: bool)
      requires Permits(Contents().shared, op) < if op then limits.operational else limits.workers
      modifies this`workPermits, this`operationalPermits
      ensures Contents() == old(Contents()).(shared := WithPermits(old(Contents()).shared, op, Permits(old(Contents()).shared, op) + 1))
    {
      if op { operationalPermits := operationalPermits + 1; } else { workPermits := workPermits + 1; }
    }

    /** The first locked section of `admit_request`, on the thread's arrival. */
    method Arrives(t: nat, op: bool) returns (passed: bool)
      requires InStep() && t !in threads
      modifies this`threads, this`trace
      ensures InStep() && trace == old(trace) + [Arrive(t, op), Advance(t)] && Contents().shared == old(Contents()).shared
      ensures passed == (op || !draining) && t in threads && threads[t] == Thread(op, if passed then Passed else Gone)
    {
      ghost var s := Contents();
      threads := threads[t := Thread(op, Arrived)];
      Follow(s, Arrive(t, op));
      s := Contents();
      passed := !(draining && !op);
      threads := threads[t := Thread(op, if passed then Passed else Gone)];
      Follow(s, Advance(t));
    }

    method Acquires(t: nat, op: bool) returns (acquired: bool)
      requires InStep() && t in threads && threads[t] == Thread(op, Passed)
      modifies this
      ensures InStep() && trace == old(trace) + [Advance(t)]
      ensures acquired == (Permits(old(Contents()).shared, op) > 0)
      ensures !acquired ==> Contents().shared == old(Contents()).shared
      ensures t in threads && threads[t] == Thread(op, if acquired then Holding else Gone)
    {
      ghost var s := Contents();
      acquired := TryAcquire(op);
      threads := threads[t := Thread(op, if acquired then Holding else Gone)];
      Follow(s, Advance(t));
    }

    /** The second locked section: a work request that lost the race against the drain gives its permit back. */
    method Confirms(t: nat, op: bool) returns (admitted: bool)
      requires InStep() && t in threads && threads[t] == Thread(op, Holding)
      modifies this
      ensures InStep() && trace == old(trace) + [Advance(t)] && draining == old(draining)
      ensures admitted == (op || !draining) && t in threads && threads[t] == Thread(op, if admitted then Running else Gone)
    {
      ghost var s := Contents();
      HolderFitsBack(limits, s, t);
      admitted := !(draining && !op);
      if !admitted { Release(op); } else if !op { activeWork := activeWork + 1; }
      threads := threads[t := Thread(op, if admitted then Running else Gone)];
      Follow(s, Advance(t));
    }

    /**
     `admit_request` with anything running between its sections. What happens is a run of the protocol, so every theorem
     about runs holds of it; the request is admitted exactly when its body may run, and each rejection has its reason.
     */
    method AdmitRequest(t: nat, op: bool, first: seq<Action>, second: seq<Action>) returns (code: Option<Rejection>)
      requires InStep() && t !in threads && Foreign(t, first) && Foreign(t, second)
      modifies this
      ensures InStep() && old(trace) < trace && t in threads && threads[t].op == op
      ensures code.None? <==> threads[t].phase == Running
      ensures code.Some? ==> threads[t].phase == Gone
      ensures code == Some(DRAINING) ==> !op && draining
      ensures old(draining) && !op ==> code == Some(DRAINING) && Contents().shared == old(Contents()).shared
      ensures code == Some(OVERLOADED) ==> Permits(Contents().shared, op) == 0
      ensures code.None? ==> op || !draining
      ensures code == None ==> trace == old(trace) + [Arrive(t, op), Advance(t)] + first + [Advance(t)] + second + [Advance(t)]
    {
      var passed := Arrives(t, op);
      if !passed { return Some(DRAINING); }
      OthersLeaveThread(Contents(), t, first);
      Interleave(first);
      var acquired := Acquires(t, op);
      if !acquired { return Some(OVERLOADED); }
      OthersLeaveThread(Contents(), t, second);
      Interleave(second);
      var admitted := Confirms(t, op);
      return if admitted then None else Some(DRAINING);
    }

    /** The locked section of `release_admission`. The count was at least one, so the underflow error is never raised. */
    method CountDown(t: nat) returns (drained: bool)
      requires InStep() && t in threads && threads[t] == Thread(false, Returned)
      modifies this
      ensures InStep() && trace == old(trace) + [Advance(t)] && t in threads && threads[t] == Thread(false, Gone)
      ensures 0 <= activeWork == old(activeWork) - 1 && drained == (CountedWork(Contents()) == {})
    {
      ghost var s := Contents();
      HolderFitsBack(limits, s, t);
      activeWork := activeWork - 1;
      threads := threads[t := Thread(false, Gone)];
      Follow(s, Advance(t));
      drained := activeWork == 0;
    }

    /**
     `release_admission` of a running request, again with anything in between: neither semaphore exceeds its initial count
     nor does the active count underflow, and a work request reports the drain exactly when no counted request is left.
     */
    method ReleaseAdmission(t: nat, between: seq<Action>) returns (drained: bool)
      requires InStep() && t in threads && threads[t].phase == Running && Foreign(t, between)
      modifies this
      ensures InStep() && t in threads && threads[t] == Thread(old(threads)[t].op, Gone)
      ensures trace == old(trace) + [Advance(t)] + if old(threads)[t].op then [] else between + [Advance(t)]
      ensures !old(threads)[t].op ==> activeWork >= 0 && drained == (CountedWork(Contents()) == {})
      ensures drained ==> activeWork == 0
    {
      var op := threads[t].op;
      ghost var s := Contents();
      HolderFitsBack(limits, s, t);
      Release(op);
      threads := threads[t := Thread(op, if op then Gone else Returned)];
      Follow(s, Advance(t));
      if op { return false; }
      OthersLeaveThread(Contents(), t, between);
      Interleave(between);
      drained := CountDown(t);
    }

    /** `begin_draining`; only the first call reports a change, and a count seen at 0 from then on is final. */
    method BeginDraining() returns (changed: bool)
      requires InStep()
      modifies this`draining, this`trace
      ensures InStep() && draining && trace == old(trace) + [Drain]
      ensures changed <==> Drain !in old(trace)
      ensures activeWork == 0 ==> forall future: seq<Action> :: RunningWork(Run(Contents(), future)) == {}
    {
      ghost var s := Contents();
      DrainingSince(limits, trace);
      changed := !draining;
      draining := true;
      Follow(s, Drain);
      if activeWork == 0 {
        forall future: seq<Action> ensures RunningWork(Run(Contents(), future)) == {} { DrainedIsFinal(limits, trace, future); }
      }
    }
  }

  lemma {:induction false} DrainingSince(limits: Limits, actions: seq<Action>)
    ensures Run(Start(limits), actions).shared.draining <==> Drain in actions
    decreases |actions|
  {
    if actions != [] {
      DrainingSince(limits, actions[..|actions| - 1]);
      assert actions == actions[..|actions| - 1] + [actions[|actions| - 1]];
    }
  }
}
