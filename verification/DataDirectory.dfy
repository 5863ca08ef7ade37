/** `restore_bundle` as the program it is, run to its end in one process, kept in step with the machine of file-system steps. */
module DataDirectory {
  import opened Wrappers
  import opened Restore

  // ----- One process, from its call to its return -----

  /** The distance of a position from the end of the program. */
  function Rank(pc: Pc): nat {
    match pc
    case Idle => 0
    case MakeStage => 16
    case StageDatabase => 15
    case StageTree => 14
    case WriteMarker => 13
    case InstallTree => 12
    case InstallDatabase => 11
    case DropMarker => 10
    case DropStage => 9
    case Undo(_) => 8
    case UndoTree => 7
    case UndoMarker(_) => 6
    case UndoStage => 5
    case Check => 5
    case ResumeTree => 4
    case ResumeDatabase => 3
    case ResumeMarker => 2
    case ResumeStage => 1
  }

  /** `faults` says which operations raise; entering the handler is not one. */
  function Taken(pc: Pc, faults: Pc -> bool): Action { if faults(pc) && !pc.Undo? then Fault else Step }

  function Played(s: State, faults: Pc -> bool): State
    decreases Rank(s.pc)
  {
    if s.pc == Idle then s else Played(Next(s, Taken(s.pc, faults)), faults)
  }

  lemma {:induction false} RunAppends(s: State, before: seq<Action>, after: seq<Action>)
    ensures Run(s, before + after) == Run(Run(s, before), after)
    decreases |after|
  {
    if after == [] {
      assert before + after == before;
    } else {
      RunAppends(s, before, after[..|after| - 1]);
      assert (before + after)[..|before + after| - 1] == before + after[..|after| - 1];
    }
  }

  /** The program is a run of the machine that returns, so every theorem about runs holds of it. */
  lemma {:induction false} PlayedIsARun(s: State, faults: Pc -> bool) returns (actions: seq<Action>)
    ensures Run(s, actions) == Played(s, faults) && Played(s, faults).pc == Idle
    ensures forall i :: 0 <= i < |actions| ==> actions[i].Step? || actions[i].Fault?
    decreases Rank(s.pc)
  {
    actions := [];
    if s.pc != Idle {
      var a := Taken(s.pc, faults);
      var rest := PlayedIsARun(Next(s, a), faults);
      actions := [a] + rest;
      RunAppends(s, [a], rest);
      assert [a][..0] == [];
      assert Run(s, [a]) == Next(Run(s, []), a);
    }
  }

  // ----- The program -----

  /** The data directory: stage directories, the marker file, the artifact root and the database file. */
  class DataDirectory {
    var stages: map<nat, Stage>
    var marker: Option<Marker>
    var root: Option<Tree>
    var database: Option<Id>
    /** The state of the machine the program has reached. */
    ghost var state: State

    constructor ()
      ensures Contents() == START.disk && state == START && InStep()
    {
      stages, marker, root, database := map[], None, None, None;
      state := START;
    }

    function Contents(): Disk
      reads this
    {
      Disk(stages, marker, root, database)
    }

    ghost predicate InStep()
      reads this
    {
      state.disk == Contents() && Inv(state)
    }

    ghost predicate At(pc: Pc, b: Bundle, stage: nat)
      reads this
    {
      InStep() && state.pc == pc && state.bundle == b && state.stage == stage
    }

    ghost method Advance(faults: Pc -> bool)
      requires Inv(state) && state.pc != Idle
      modifies this`state
      ensures state == Next(old(state), Taken(old(state).pc, faults)) && Inv(state)
      ensures Played(state, faults) == Played(old(state), faults)
    {
      NextKeeps(state, Taken(state.pc, faults));
      state := Next(state, Taken(state.pc, faults));
    }

    /** Unpacks and validates the database and the artifact tree into the stage. */
    method StageParts(b: Bundle, stage: nat, faults: Pc -> bool) returns (ok: bool)
      requires At(StageDatabase, b, stage)
      modifies this`stages, this`state
      ensures At(if ok then WriteMarker else Undo(false), b, stage)
      ensures Played(state, faults) == Played(old(state), faults)
    {
      if faults(StageDatabase) || !b.valid {
        Advance(faults);
        return false;
      }
      stages := stages[stage := stages[stage].(database := Some(b.manifest.database))];
      Advance(faults);
      if faults(StageTree) {
        Advance(faults);
        return false;
      }
      stages := stages[stage := stages[stage].(tree := Some(Whole(b.manifest.database)))];
      Advance(faults);
      return true;
    }

    /** The marker, then the rename of the tree. */
    method InstallTreeOf(b: Bundle, stage: nat, faults: Pc -> bool) returns (ok: bool)
      requires At(WriteMarker, b, stage)
      modifies this`marker, this`root, this`stages, this`state
      ensures At(if ok then InstallDatabase else Undo(false), b, stage)
      ensures Played(state, faults) == Played(old(state), faults)
    {
      if faults(WriteMarker) {
        Advance(faults);
        return false;
      }
      marker := Some(Marker(b.manifest, stage));
      Advance(faults);
      if faults(InstallTree) {
        Advance(faults);
        return false;
      }
      root, stages := stages[stage].tree, stages[stage := stages[stage].(tree := None)];
      Advance(faults);
      return true;
    }

    /** The rename of the database, then the removal of the marker. */
    method InstallDatabaseOf(b: Bundle, stage: nat, faults: Pc -> bool) returns (ok: bool)
      requires At(InstallDatabase, b, stage)
      modifies this`database, this`stages, this`marker, this`state
      ensures At(if ok then DropStage else Undo(true), b, stage)
      ensures Played(state, faults) == Played(old(state), faults)
    {
      if faults(InstallDatabase) {
        Advance(faults);
        return false;
      }
      database, stages := stages[stage].database, stages[stage := stages[stage].(database := None)];
      Advance(faults);
      if faults(DropMarker) {
        Advance(faults);
        return false;
      }
      marker := None;
      Advance(faults);
      return true;
    }

    /** The exception handler of a failed run: an installed tree without its database goes first. */
    method RemoveTree(b: Bundle, stage: nat, installed: bool, faults: Pc -> bool) returns (removed: bool)
      requires At(Undo(installed), b, stage)
      modifies this`root, this`state
      ensures At(UndoMarker(removed), b, stage) && Played(state, faults) == Played(old(state), faults)
    {
      removed := installed && database == None;
      if removed {
        root := Some(Damaged);
        Advance(faults);
        if !faults(UndoTree) { root := None; }
      }
      Advance(faults);
    }

    /** The rest of the handler and the finally clause: the stage goes only when the marker is gone. */
    method Retire(b: Bundle, stage: nat, removed: bool, faults: Pc -> bool)
      requires At(UndoMarker(removed), b, stage)
      modifies this`marker, this`stages, this`state
      ensures InStep() && state.pc == Idle && Played(state, faults) == Played(old(state), faults)
    {
      if faults(UndoMarker(removed)) {
        Advance(faults);
        return;
      }
      marker := None;
      Advance(faults);
      if !faults(UndoStage) { stages := stages - {stage}; }
      Advance(faults);
    }

    /** The try block. */
    method Attempt(b: Bundle, stage: nat, faults: Pc -> bool) returns (ok: bool, installed: bool)
      requires At(StageDatabase, b, stage)
      modifies this
      ensures At(if ok then DropStage else Undo(installed), b, stage)
      ensures Played(state, faults) == Played(old(state), faults)
      ensures ok ==> !faults(DropStage)
    {
      installed := false;
      ok := StageParts(b, stage, faults);
      if ok { ok := InstallTreeOf(b, stage, faults); installed := ok; }
      if ok { ok := InstallDatabaseOf(b, stage, faults); }
      if ok && faults(DropStage) {
        Advance(faults);
        ok := false;
      }
    }

    /** A restore with no marker on disk. */
    method Fresh(b: Bundle, stage: nat, faults: Pc -> bool) returns (ok: bool)
      requires At(MakeStage, b, stage)
      modifies this
      ensures InStep() && state.pc == Idle && Played(state, faults) == Played(old(state), faults)
      ensures ok ==> Installed(Contents(), b)
    {
      if faults(MakeStage) {
        Advance(faults);
        return false;
      }
      stages := stages[stage := Stage(None, None)];
      Advance(faults);
      var installed;
      ok, installed := Attempt(b, stage, faults);
      if ok {
        DropTheStage(b, stage, faults);
      } else {
        var removed := RemoveTree(b, stage, installed, faults);
        Retire(b, stage, removed, faults);
      }
    }

    method DropTheStage(b: Bundle, stage: nat, faults: Pc -> bool)
      requires At(DropStage, b, stage) && !faults(DropStage)
      modifies this`stages, this`state
      ensures InStep() && state.pc == Idle && Played(state, faults) == Played(old(state), faults)
      ensures Installed(Contents(), b)
    {
      stages := stages - {stage};
      Advance(faults);
    }

    /** `_resume_restore`: the checks, then whichever renames are still due. */
    method Resume(b: Bundle, faults: Pc -> bool) returns (ok: bool)
      requires InStep() && state.pc == Check && state.bundle == b && marker.Some?
      modifies this
      ensures InStep() && state.pc == Idle && Played(state, faults) == Played(old(state), faults)
      ensures ok ==> Installed(Contents(), b)
    {
      var stage := marker.value.stage;
      var resumable := !faults(Check) && Resumable(Contents(), b);
      Advance(faults);
      if !resumable { return false; }
      ok := Complete(b, stage, faults);
    }

    method Complete(b: Bundle, stage: nat, faults: Pc -> bool) returns (ok: bool)
      requires At(ResumeTree, b, stage)
      modifies this
      ensures InStep() && state.pc == Idle && Played(state, faults) == Played(old(state), faults)
      ensures ok ==> Installed(Contents(), b)
    {
      ok := MoveTree(b, stage, faults);
      if ok { ok := MoveDatabase(b, stage, faults); }
      if ok { ok := Forget(b, stage, faults); }
    }

    method MoveTree(b: Bundle, stage: nat, faults: Pc -> bool) returns (ok: bool)
      requires At(ResumeTree, b, stage)
      modifies this`root, this`stages, this`state
      ensures InStep() && Played(state, faults) == Played(old(state), faults)
      ensures if ok then At(ResumeDatabase, b, stage) else state.pc == Idle
    {
      ok := !faults(ResumeTree);
      if ok && root == None { root, stages := stages[stage].tree, stages[stage := stages[stage].(tree := None)]; }
      Advance(faults);
    }

    method MoveDatabase(b: Bundle, stage: nat, faults: Pc -> bool) returns (ok: bool)
      requires At(ResumeDatabase, b, stage)
      modifies this`database, this`stages, this`state
      ensures InStep() && Played(state, faults) == Played(old(state), faults)
      ensures if ok then At(ResumeMarker, b, stage) else state.pc == Idle
    {
      ok := !faults(ResumeDatabase);
      if ok && database == None { database, stages := stages[stage].database, stages[stage := stages[stage].(database := None)]; }
      Advance(faults);
    }

    /** The marker goes, then the stage, whose removal ignores errors. */
    method Forget(b: Bundle, stage: nat, faults: Pc -> bool) returns (ok: bool)
      requires At(ResumeMarker, b, stage)
      modifies this`marker, this`stages, this`state
      ensures InStep() && state.pc == Idle && Played(state, faults) == Played(old(state), faults)
      ensures ok ==> Installed(Contents(), b)
    {
      if faults(ResumeMarker) {
        Advance(faults);
        return false;
      }
      marker := None;
      Advance(faults);
      if !faults(ResumeStage) { stages := stages - {stage}; }
      Advance(faults);
      return true;
    }

    /**
     A call of `restore_bundle` in which any operations may raise: it is the run of the machine with those faults, and it
     returns normally only with both parts installed and no marker.
     */
    method RestoreBundle(b: Bundle, name: nat, faults: Pc -> bool) returns (ok: bool)
      requires InStep() && state.pc == Idle && name !in stages
      modifies this
      ensures InStep() && state == Played(Next(old(state), Begin(b, name)), faults)
      ensures ok ==> Installed(Contents(), b)
    {
      ghost var begun := Next(state, Begin(b, name));
      NextKeeps(state, Begin(b, name));
      state := begun;
      if marker.Some? {
        ok := Resume(b, faults);
      } else if database.Some? || root.Some? {
        ok := false;
      } else {
        ok := Fresh(b, name, faults);
      }
    }
  }
}
