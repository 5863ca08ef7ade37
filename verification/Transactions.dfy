/**
 Nested transactions on one SQLite connection: the BEGIN / SAVEPOINT / ROLLBACK TO / RELEASE statements issued by
 `SQLiteStore.transaction` against the recursive all-or-nothing meaning of nested blocks.
 */
module Transactions {
  import opened Wrappers

  // ----- Meaning of nested blocks -----

  /** A piece of code over the store: writes, exceptions, `with transaction()` blocks and try/except. */
  datatype Program<!Db> =
    | Write(f: Db -> Db)
    | Skip
    | Raise
    | Seq(first: Program<Db>, second: Program<Db>)
    | Atomic(body: Program<Db>)
    | Try(attempt: Program<Db>, handler: Program<Db>)

  datatype Outcome<Db> = Outcome(db: Db, raised: bool)

  /** A block that raises has no effect and passes the exception on. */
  function Eval<Db>(p: Program<Db>, db: Db): Outcome<Db> {
    match p
    case Write(f) => Outcome(f(db), false)
    case Skip => Outcome(db, false)
    case Raise => Outcome(db, true)
    case Seq(a, b) =>
      var o := Eval(a, db);
      if o.raised then o else Eval(b, o.db)
    case Atomic(body) =>
      var o := Eval(body, db);
      if o.raised then Outcome(db, true) else o
    case Try(a, h) =>
      var o := Eval(a, db);
      if o.raised then Eval(h, o.db) else o
  }

  // ----- The connection -----

  datatype Savepoint<Db> = Savepoint(name: nat, saved: Db)

  /** Index after the most recent savepoint of that name, or 0. */
  function Find<Db>(stack: seq<Savepoint<Db>>, name: nat): (i: nat)
    ensures i <= |stack|
    ensures i > 0 ==> stack[i - 1].name == name
    ensures forall j :: i <= j < |stack| ==> stack[j].name != name
  {
    if stack == [] then 0
    else if stack[|stack| - 1].name == name then |stack|
    else Find(stack[..|stack| - 1], name)
  }

  /** One connection and the transaction depth of the thread that uses it. */
  class Session<Db> {
    var current: Db
    var begun: Option<Db>
    var savepoints: seq<Savepoint<Db>>
    var depth: nat

    constructor (initial: Db)
      ensures Valid() && current == initial && depth == 0
    {
      current, begun, savepoints, depth := initial, None, [], 0;
    }

    ghost predicate Valid()
      reads this
    {
      && (depth == 0 <==> begun == None)
      && |savepoints| == (if depth == 0 then 0 else depth - 1)
      && forall i :: 0 <= i < |savepoints| ==> savepoints[i].name == i + 1
    }

    /** What a crash at this point leaves on disk. */
    ghost function Durable(): Db
      reads this
    {
      if begun == None then current else begun.value
    }

    // SQLite refuses these statements outside their preconditions.

    method Begin()
      requires begun == None && savepoints == []
      modifies this`begun
      ensures begun == Some(current)
    {
      begun := Some(current);
    }

    method Commit()
      requires begun != None
      modifies this`begun, this`savepoints
      ensures begun == None && savepoints == []
    {
      begun, savepoints := None, [];
    }

    method Rollback()
      requires begun != None
      modifies this`current, this`begun, this`savepoints
      ensures current == old(begun).value && begun == None && savepoints == []
    {
      current, begun, savepoints := begun.value, None, [];
    }

    method Save(name: nat)
      requires begun != None
      modifies this`savepoints
      ensures savepoints == old(savepoints) + [Savepoint(name, current)]
    {
      savepoints := savepoints + [Savepoint(name, current)];
    }

    /** The savepoint itself stays on the stack. */
    method RollbackTo(name: nat)
      requires Find(savepoints, name) > 0
      modifies this`current, this`savepoints
      ensures current == old(savepoints)[Find(old(savepoints), name) - 1].saved
      ensures savepoints == old(savepoints)[..Find(old(savepoints), name)]
    {
      var i := Find(savepoints, name);
      current := savepoints[i - 1].saved;
      savepoints := savepoints[..i];
    }

    method Release(name: nat)
      requires Find(savepoints, name) > 0
      modifies this`savepoints
      ensures savepoints == old(savepoints)[..Find(old(savepoints), name) - 1]
    {
      savepoints := savepoints[..Find(savepoints, name) - 1];
    }

    /**
     Runs a program with the statements of `transaction`: the database and the exception are those of the recursive
     meaning, and depth, open transaction and savepoint stack come back as they were.
     */
    method Run(p: Program<Db>) returns (raised: bool)
      requires Valid()
      modifies this
      ensures Valid() && depth == old(depth) && begun == old(begun) && savepoints == old(savepoints)
      ensures Outcome(current, raised) == Eval(p, old(current))
      decreases p, 0
    {
      match p {
        case Write(f) =>
          current, raised := f(current), false;
        case Skip =>
          raised := false;
        case Raise =>
          raised := true;
        case Seq(a, b) =>
          raised := Run(a);
          if !raised { raised := Run(b); }
        case Atomic(body) =>
          raised := Block(body);
        case Try(a, h) =>
          raised := Run(a);
          if raised { raised := Run(h); }
      }
    }

    method Block(body: Program<Db>) returns (raised: bool)
      requires Valid()
      modifies this
      ensures Valid() && depth == old(depth) && begun == old(begun) && savepoints == old(savepoints)
      ensures Outcome(current, raised) == Eval(Atomic(body), old(current))
      ensures raised ==> current == old(current)
      ensures !raised ==> Outcome(current, false) == Eval(body, old(current))
      decreases body, 1
    {
      var d := depth;
      Open(d);
      depth := d + 1;
      raised := Run(body);
      Close(d, raised);
      depth := d;
    }

    method Open(d: nat)
      requires d == 0 ==> begun == None && savepoints == []
      requires d > 0 ==> begun != None
      modifies this`begun, this`savepoints
      ensures d == 0 ==> begun == Some(current) && savepoints == []
      ensures d > 0 ==> begun == old(begun) && savepoints == old(savepoints) + [Savepoint(d, current)]
    {
      if d == 0 { Begin(); } else { Save(d); }
    }

    /** The end of a block: keep or restore what it did, and drop its savepoint. */
    method Close(d: nat, raised: bool)
      requires begun != None
      requires d > 0 ==> |savepoints| == d && savepoints[d - 1].name == d
      modifies this`current, this`begun, this`savepoints
      ensures d == 0 ==> begun == None && savepoints == [] && current == if raised then old(begun).value else old(current)
      ensures d > 0 ==> begun == old(begun) && savepoints == old(savepoints)[..d - 1]
                        && current == if raised then old(savepoints)[d - 1].saved else old(current)
    {
      if d == 0 {
        if raised { Rollback(); } else { Commit(); }
      } else {
        assert Find(savepoints, d) == d;
        if raised { RollbackTo(d); }
        Release(d);
      }
    }
  }

  // ----- Threads sharing the connection -----

  /** What one thread does next: blocks may fail or be caught in any pattern. */
  datatype Event<!Db> = Enter(t: nat) | Change(t: nat, f: Db -> Db) | Leave(t: nat) | Throw(t: nat)

  /** Connection, lock holder and thread-local depths; `broken` records a statement SQLite would refuse. */
  datatype Machine<Db> = Machine(current: Db, begun: Option<Db>, savepoints: seq<Savepoint<Db>>, holder: Option<nat>,
                                 depths: map<nat, nat>, broken: bool)

  function DepthOf<Db>(m: Machine<Db>, t: nat): nat { if t in m.depths then m.depths[t] else 0 }

  /** The lock is reentrant: another thread's block waits. */
  predicate MayRun<Db>(m: Machine<Db>, t: nat) { m.holder == None || m.holder == Some(t) }

  function Entered<Db>(m: Machine<Db>, t: nat): Machine<Db> {
    var d := DepthOf(m, t);
    var m1 := if d == 0 then m.(begun := Some(m.current), broken := m.broken || m.begun != None)
              else m.(savepoints := m.savepoints + [Savepoint(d, m.current)], broken := m.broken || m.begun == None);
    m1.(holder := Some(t), depths := m.depths[t := d + 1])
  }

  function Popped<Db>(m: Machine<Db>, name: nat, restore: bool): Machine<Db> {
    var i := Find(m.savepoints, name);
    if i == 0 then m.(broken := true)
    else m.(current := if restore then m.savepoints[i - 1].saved else m.current, savepoints := m.savepoints[..i - 1])
  }

  function Left<Db>(m: Machine<Db>, t: nat, failed: bool): Machine<Db> {
    var d := DepthOf(m, t) - 1;
    if d < 0 then m
    else
      var m1 := if d > 0 then Popped(m, d, failed)
                else if m.begun == None then m.(broken := true)
                else m.(current := if failed then m.begun.value else m.current, begun := None, savepoints := []);
      m1.(depths := m.depths[t := d], holder := if d == 0 then None else m.holder)
  }

  function Step<Db>(m: Machine<Db>, e: Event<Db>): Machine<Db> {
    if !MayRun(m, e.t) then m
    else match e
      case Enter(t) => Entered(m, t)
      case Change(t, f) => if DepthOf(m, t) > 0 then m.(current := f(m.current)) else m
      case Leave(t) => if DepthOf(m, t) > 0 then Left(m, t, false) else m
      case Throw(t) => if DepthOf(m, t) > 0 then Left(m, t, true) else m
  }

  /** The reference: one copy of the database per open block, the committed one at the bottom. */
  function Reference<Db>(views: seq<Db>, e: Event<Db>): (r: seq<Db>)
    requires |views| > 0
    ensures |r| > 0
  {
    var top := views[|views| - 1];
    match e
    case Enter(_) => views + [top]
    case Change(_, f) => if |views| > 1 then views[..|views| - 1] + [f(top)] else views
    case Leave(_) => if |views| > 1 then views[..|views| - 2] + [top] else views
    case Throw(_) => if |views| > 1 then views[..|views| - 1] else views
  }

  ghost predicate Refines<Db>(m: Machine<Db>, views: seq<Db>) {
    && !m.broken
    && |views| > 0 && m.current == views[|views| - 1]
    && (forall t :: t in m.depths && m.depths[t] > 0 ==> m.holder == Some(t))
    && (m.holder == None ==> |views| == 1)
    && (m.holder != None ==> m.holder.value in m.depths && m.depths[m.holder.value] == |views| - 1 > 0)
    && m.begun == (if |views| == 1 then None else Some(views[0]))
    && |m.savepoints| == (if |views| == 1 then 0 else |views| - 2)
    && forall i :: 0 <= i < |m.savepoints| ==> m.savepoints[i] == Savepoint(i + 1, views[i + 1])
  }

  function Runs<Db>(m: Machine<Db>, events: seq<Event<Db>>): Machine<Db>
    decreases |events|
  {
    if events == [] then m else Step(Runs(m, events[..|events| - 1]), events[|events| - 1])
  }

  /** The reference follows the events of the thread that holds the lock; blocked events wait. */
  ghost function Views<Db>(m: Machine<Db>, views: seq<Db>, events: seq<Event<Db>>): (r: seq<Db>)
    requires |views| > 0
    ensures |r| > 0
    decreases |events|
  {
    if events == [] then views
    else
      var before := events[..|events| - 1];
      var e := events[|events| - 1];
      if MayRun(Runs(m, before), e.t) then Reference(Views(m, views, before), e) else Views(m, views, before)
  }

  lemma NamesAreUnique<Db>(m: Machine<Db>, views: seq<Db>, d: nat)
    requires Refines(m, views) && d == |views| - 2 > 0
    ensures Find(m.savepoints, d) == |m.savepoints| == d
  {
  }

  lemma LeaveRefines<Db>(m: Machine<Db>, views: seq<Db>, t: nat, failed: bool)
    requires Refines(m, views) && m.holder == Some(t)
    ensures Refines(Left(m, t, failed), Reference(views, if failed then Throw(t) else Leave(t)))
  {
    var d := |views| - 2;
    if d > 0 { NamesAreUnique(m, views, d); }
  }

  lemma StepRefines<Db>(m: Machine<Db>, views: seq<Db>, e: Event<Db>)
    requires Refines(m, views)
    ensures Refines(Step(m, e), if MayRun(m, e.t) then Reference(views, e) else views)
  {
    if MayRun(m, e.t) && (e.Leave? || e.Throw?) && m.holder == Some(e.t) {
      LeaveRefines(m, views, e.t, e.Throw?);
    }
  }

  /**
   For every interleaving of threads and every pattern of failures, no statement is refused (in particular BEGIN is
   never issued inside an open transaction), the connection shows the innermost view, and a crash leaves the
   committed one.
   */
  lemma {:induction false} ThreadsRefineNestedBlocks<Db>(initial: Db, events: seq<Event<Db>>)
    ensures var m0 := Machine(initial, None, [], None, map[], false);
            var m := Runs(m0, events);
            var views := Views(m0, [initial], events);
            && Refines(m, views)
            && (if m.begun == None then m.current else m.begun.value) == views[0]
    decreases |events|
  {
    if events != [] {
      var m0 := Machine(initial, None, [], None, map[], false);
      var before := events[..|events| - 1];
      ThreadsRefineNestedBlocks(initial, before);
      StepRefines(Runs(m0, before), Views(m0, [initial], before), events[|events| - 1]);
    }
  }

  /** Through all these events the thread keeps at least this many blocks open. */
  predicate StaysOpen<Db>(m: Machine<Db>, events: seq<Event<Db>>, t: nat, depth: nat)
    decreases |events|
  {
    DepthOf(Runs(m, events), t) >= depth && (events != [] ==> StaysOpen(m, events[..|events| - 1], t, depth))
  }

  lemma StepKeepsOutside<Db>(m: Machine<Db>, outer: seq<Db>, e: Event<Db>, t: nat, d: nat) returns (inner: seq<Db>)
    requires Refines(m, outer) && m.holder == Some(t) && DepthOf(m, t) >= d + 1 && DepthOf(Step(m, e), t) >= d + 1
    ensures Refines(Step(m, e), inner) && Step(m, e).holder == Some(t)
    ensures |outer| > d && |inner| > d && inner[..d + 1] == outer[..d + 1]
  {
    StepRefines(m, outer, e);
    inner := if MayRun(m, e.t) then Reference(outer, e) else outer;
  }

  /** While a thread stays inside a block, the views outside that block do not change. */
  lemma {:induction false} InsideKeepsOutside<Db>(m: Machine<Db>, views: seq<Db>, events: seq<Event<Db>>, t: nat, d: nat)
    returns (inner: seq<Db>)
    requires Refines(m, views) && StaysOpen(m, events, t, d + 1)
    ensures Refines(Runs(m, events), inner) && |views| > d && |inner| > d && inner[..d + 1] == views[..d + 1]
    ensures Runs(m, events).holder == Some(t)
    decreases |events|
  {
    if events == [] {
      inner := views;
    } else {
      var before := events[..|events| - 1];
      var outer := InsideKeepsOutside(m, views, before, t, d);
      inner := StepKeepsOutside(Runs(m, before), outer, events[|events| - 1], t, d);
    }
  }

  /**
   A block that raises leaves no trace, on the connection and for every interleaving: whatever its thread did inside,
   inner blocks that were released included, the connection is back where the block was entered. At depth 0 this is the
   rollback of the whole transaction; deeper it is a failure that the outer block may catch and go on from.
   */
  lemma ThrownBlockLeavesNoTrace<Db>(initial: Db, past: seq<Event<Db>>, inside: seq<Event<Db>>, t: nat)
    requires var m := Runs(Machine(initial, None, [], None, map[], false), past);
             var entered := Step(m, Enter(t));
             && MayRun(m, t) && StaysOpen(entered, inside, t, DepthOf(m, t) + 1)
             && DepthOf(Runs(entered, inside), t) == DepthOf(m, t) + 1
    ensures var m := Runs(Machine(initial, None, [], None, map[], false), past);
            var m' := Step(Runs(Step(m, Enter(t)), inside), Throw(t));
            && m'.current == m.current && m'.begun == m.begun && m'.savepoints == m.savepoints && m'.holder == m.holder
            && DepthOf(m', t) == DepthOf(m, t) && !m'.broken
  {
    var m := Runs(Machine(initial, None, [], None, map[], false), past);
    var views := Views(Machine(initial, None, [], None, map[], false), [initial], past);
    ThreadsRefineNestedBlocks(initial, past);
    var d := DepthOf(m, t);
    StepRefines(m, views, Enter(t));
    var inner := InsideKeepsOutside(Step(m, Enter(t)), views + [views[|views| - 1]], inside, t, d);
    var last := Runs(Step(m, Enter(t)), inside);
    StepRefines(last, inner, Throw(t));
    assert inner[..d + 1] == views;
    SameViews(m, Step(last, Throw(t)), views);
  }

  lemma SameViews<Db>(m: Machine<Db>, n: Machine<Db>, views: seq<Db>)
    requires Refines(m, views) && Refines(n, views)
    ensures m.current == n.current && m.begun == n.begun && m.savepoints == n.savepoints
  {
  }

  /** A thread outside any block reads the connection only when it shows the committed database. */
  lemma NoDirtyReads<Db>(initial: Db, events: seq<Event<Db>>, reader: nat)
    requires var m := Runs(Machine(initial, None, [], None, map[], false), events);
             MayRun(m, reader) && DepthOf(m, reader) == 0
    ensures var m0 := Machine(initial, None, [], None, map[], false);
            Runs(m0, events).current == Views(m0, [initial], events)[0]
  {
    ThreadsRefineNestedBlocks(initial, events);
  }
}
