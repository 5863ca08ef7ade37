/**
 Crash-safe restore: stage, authenticated marker, two renames, marker removal, and the resume path, as a machine of
 file-system steps with a crash allowed between any two of them.

 A validated artifact tree is `Whole(db)`: exactly the objects the database rows name. A tree being deleted is
 `Damaged`.
 */
module Restore {
  import opened Wrappers

  type Id = int

  datatype Tree = Whole(of: Id) | Damaged
  /** A manifest authenticates one database file by size and hash; equal manifest hashes mean equal manifests. */
  datatype Manifest = Manifest(id: Id, database: Id)
  /** A bundle, and whether all of its checks pass. */
  datatype Bundle = Bundle(manifest: Manifest, valid: bool)
  datatype Stage = Stage(database: Option<Id>, tree: Option<Tree>)
  datatype Marker = Marker(manifest: Manifest, stage: nat)

  datatype Disk = Disk(stages: map<nat, Stage>, marker: Option<Marker>, root: Option<Tree>, database: Option<Id>)

  datatype Pc =
    | Idle
    | MakeStage | StageDatabase | StageTree | WriteMarker | InstallTree | InstallDatabase | DropMarker | DropStage
    | Undo(installed: bool) | UndoTree | UndoMarker(removed: bool) | UndoStage   // except / finally of restore_bundle
    | Check | ResumeTree | ResumeDatabase | ResumeMarker | ResumeStage   // _resume_restore

  datatype State = State(disk: Disk, pc: Pc, bundle: Bundle, stage: nat, scarred: bool)

  datatype Action =
    | Begin(bundle: Bundle, name: nat)   // name: the directory mkdtemp would create
    | Step
    | Fault   // the current operation raises
    | Crash

  const NOTHING: Bundle := Bundle(Manifest(0, 0), false)
  const START: State := State(Disk(map[], None, None, None), Idle, NOTHING, 0, false)

  // ----- Steps -----

  predicate Absent(d: Disk) { d.database == None && d.root == None }

  /** The checks of `_resume_restore` on whichever copy of each part exists. */
  predicate Resumable(d: Disk, b: Bundle) {
    && d.marker.Some? && b.valid && d.marker.value.manifest == b.manifest
    && d.marker.value.stage in d.stages
    && var st := d.stages[d.marker.value.stage];
    && (if d.database.Some? then d.database else st.database) == Some(b.manifest.database)
    && (if d.root.Some? then d.root else st.tree) == Some(Whole(b.manifest.database))
  }

  function Move(s: State, d: Disk, pc: Pc): State { s.(disk := d, pc := pc) }

  function Restage(d: Disk, n: nat, st: Stage): Disk { d.(stages := d.stages[n := st]) }

  function StageOf(s: State): Stage {
    if s.stage in s.disk.stages then s.disk.stages[s.stage] else Stage(None, None)
  }

  function DoStep(s: State): State {
    var d := s.disk;
    var st := StageOf(s);
    match s.pc
    case Idle => s
    case MakeStage =>
      Move(s, Restage(d, s.stage, Stage(None, None)), StageDatabase)
    case StageDatabase =>
      if s.bundle.valid then Move(s, Restage(d, s.stage, st.(database := Some(s.bundle.manifest.database))), StageTree)
      else Move(s, d, Undo(false))
    case StageTree => Move(s, Restage(d, s.stage, st.(tree := Some(Whole(s.bundle.manifest.database)))), WriteMarker)
    case WriteMarker =>
      Move(s, d.(marker := Some(Marker(s.bundle.manifest, s.stage))), InstallTree)
    case InstallTree => Move(s, Restage(d, s.stage, st.(tree := None)).(root := st.tree), InstallDatabase)
    case InstallDatabase => Move(s, Restage(d, s.stage, st.(database := None)).(database := st.database), DropMarker)
    case DropMarker => Move(s, d.(marker := None), DropStage)
    case DropStage => Move(s, d.(stages := d.stages - {s.stage}), Idle)
    case Undo(installed) =>
      if installed && d.database == None then Move(s, d.(root := Some(Damaged)), UndoTree) else Move(s, d, UndoMarker(false))
    case UndoTree => Move(s, d.(root := None), UndoMarker(true))
    case UndoMarker(_) => Move(s, d.(marker := None), UndoStage)
    case UndoStage => Move(s, d.(stages := d.stages - {s.stage}), Idle)
    case Check => if Resumable(d, s.bundle) then Move(s, d, ResumeTree).(stage := d.marker.value.stage) else Move(s, d, Idle)
    case ResumeTree =>
      Move(s, if d.root == None then Restage(d, s.stage, st.(tree := None)).(root := st.tree) else d, ResumeDatabase)
    case ResumeDatabase =>
      Move(s, if d.database == None then Restage(d, s.stage, st.(database := None)).(database := st.database) else d, ResumeMarker)
    case ResumeMarker => Move(s, d.(marker := None), ResumeStage)
    case ResumeStage => Move(s, d.(stages := d.stages - {s.stage}), Idle)
  }

  /** Where an exception goes: the fresh run undoes, errors of the tree removal are ignored, anything else just ends. */
  function Faulted(s: State): Pc {
    match s.pc
    case MakeStage => Idle
    case StageDatabase => Undo(false)
    case StageTree => Undo(false)
    case WriteMarker => Undo(false)
    case InstallTree => Undo(false)
    case InstallDatabase => Undo(true)
    case DropMarker => Undo(true)
    case DropStage => Undo(true)
    case UndoTree => UndoMarker(true)
    case _ => Idle
  }

  /** The cleanup of a failed run is between starting to remove the installed tree and removing the marker. */
  predicate Removing(pc: Pc) { pc.UndoTree? || (pc.UndoMarker? && pc.removed) }

  function Next(s: State, a: Action): State {
    match a
    case Begin(b, name) =>
      if s.pc != Idle || name in s.disk.stages then s
      else if s.disk.marker.Some? then s.(pc := Check, bundle := b)
      else if Absent(s.disk) then s.(pc := MakeStage, bundle := b, stage := name)
      else s
    case Step => DoStep(s)
    case Fault => s.(pc := Faulted(s), scarred := s.scarred || (Removing(s.pc) && !Removing(Faulted(s))))
    case Crash => s.(pc := Idle, scarred := s.scarred || Removing(s.pc))
  }

  function Run(s: State, actions: seq<Action>): State
    decreases |actions|
  {
    if actions == [] then s else Next(Run(s, actions[..|actions| - 1]), actions[|actions| - 1])
  }

  // ----- Invariant -----

  /** Each part the marker promises is installed or staged. */
  predicate MarkerComplete(d: Disk) {
    d.marker.Some? ==>
      && d.marker.value.stage in d.stages
      && var m := d.marker.value;
      && (d.database == Some(m.manifest.database) || (d.database == None && d.stages[m.stage].database == Some(m.manifest.database)))
      && (d.root == Some(Whole(m.manifest.database)) || (d.root == None && d.stages[m.stage].tree == Some(Whole(m.manifest.database))))
  }

  predicate Staged(s: State, database: bool, tree: bool) {
    && s.stage in s.disk.stages
    && (database ==> s.disk.stages[s.stage].database == Some(s.bundle.manifest.database))
    && (tree ==> s.disk.stages[s.stage].tree == Some(Whole(s.bundle.manifest.database)))
  }

  predicate Mine(s: State) {
    s.disk.marker == Some(Marker(s.bundle.manifest, s.stage))
  }

  /** What each position of a fresh run or its cleanup knows. */
  predicate At(s: State) {
    var d := s.disk;
    match s.pc
    case Idle => true
    case MakeStage => d.marker == None && Absent(d)
    case StageDatabase => d.marker == None && Absent(d) && s.stage in d.stages
    case StageTree => d.marker == None && Absent(d) && s.bundle.valid && Staged(s, true, false)
    case WriteMarker => d.marker == None && Absent(d) && s.bundle.valid && Staged(s, true, true)
    case InstallTree => Mine(s) && Absent(d) && Staged(s, true, true)
    case InstallDatabase =>
      && Mine(s) && d.database == None && d.root == Some(Whole(s.bundle.manifest.database)) && Staged(s, true, false)
      && d.stages[s.stage].tree == None
    case DropMarker => Mine(s) && d.database == Some(s.bundle.manifest.database) && s.stage in d.stages
    case DropStage => d.marker == None && d.database == Some(s.bundle.manifest.database)
    case Undo(installed) =>
      && (d.marker.Some? ==> Mine(s))
      && (d.marker.Some? ==> MarkerComplete(d))
      && (installed ==> d.root.Some?) && (!installed ==> Absent(d))
      && (installed && d.database == None ==> Mine(s) && s.stage in d.stages && d.stages[s.stage].tree == None)
    case UndoTree => Stripped(s)
    case UndoMarker(removed) => if removed then Stripped(s) else (d.marker.Some? ==> Mine(s)) && (d.database == None ==> d.root == None)
    case UndoStage => d.marker == None
    case Check => true
    case ResumeTree => Mine(s) && Resumable(d, s.bundle)
    case ResumeDatabase => Mine(s) && Resumable(d, s.bundle) && d.root.Some?
    case ResumeMarker => Mine(s) && d.root.Some? && d.database.Some?
    case ResumeStage => d.marker == None
  }

  /** The database is not installed, and the tree is neither installed whole nor staged. */
  predicate Treeless(d: Disk) {
    && d.marker.Some? && d.database == None
    && (d.root == None || d.root == Some(Damaged))
    && (d.marker.value.stage in d.stages ==> d.stages[d.marker.value.stage].tree == None)
  }

  predicate Stripped(s: State) { Mine(s) && Treeless(s.disk) && s.stage in s.disk.stages }

  predicate Inv(s: State) {
    && (s.disk.database.Some? ==> s.disk.root == Some(Whole(s.disk.database.value)))
    && (s.disk.marker == None && s.disk.database == None ==> s.disk.root == None || s.disk.root == Some(Damaged))
    && (s.disk.marker.Some? && s.disk.database.Some? ==> s.disk.database.value == s.disk.marker.value.manifest.database)
    && (if s.scarred then Treeless(s.disk) && (s.pc.Idle? || s.pc.Check?) else Removing(s.pc) || MarkerComplete(s.disk))
    && At(s)
  }

  predicate Fresh(pc: Pc) {
    pc.MakeStage? || pc.StageDatabase? || pc.StageTree? || pc.WriteMarker? || pc.InstallTree? || pc.InstallDatabase?
  }

  lemma FreshStepKeeps(s: State)
    requires Inv(s) && Fresh(s.pc)
    ensures Inv(DoStep(s))
  {
  }

  lemma LateStepKeeps(s: State)
    requires Inv(s) && (s.pc.DropMarker? || s.pc.DropStage? || s.pc.Undo? || s.pc.UndoTree? || s.pc.UndoMarker? || s.pc.UndoStage?)
    ensures Inv(DoStep(s))
  {
  }

  lemma ResumeStepKeeps(s: State)
    requires Inv(s) && (s.pc.Check? || s.pc.ResumeTree? || s.pc.ResumeDatabase? || s.pc.ResumeMarker? || s.pc.ResumeStage?)
    ensures Inv(DoStep(s))
  {
  }

  lemma NextKeeps(s: State, a: Action)
    requires Inv(s)
    ensures Inv(Next(s, a))
  {
    if a.Step? {
      if Fresh(s.pc) { FreshStepKeeps(s); }
      else if s.pc.Check? || s.pc.ResumeTree? || s.pc.ResumeDatabase? || s.pc.ResumeMarker? || s.pc.ResumeStage? {
        ResumeStepKeeps(s);
      } else if !s.pc.Idle? { LateStepKeeps(s); }
    }
  }

  lemma {:induction false} RunKeeps(s: State, actions: seq<Action>)
    requires Inv(s)
    ensures Inv(Run(s, actions))
    decreases |actions|
  {
    if actions != [] {
      RunKeeps(s, actions[..|actions| - 1]);
      NextKeeps(Run(s, actions[..|actions| - 1]), actions[|actions| - 1]);
    }
  }

  // ----- Theorems over every run -----

  /** Over every run of restores, faults and crashes, an installed database always has its validated tree. */
  lemma DatabaseNeverWithoutTree(actions: seq<Action>)
    ensures var d := Run(START, actions).disk;
            d.database.Some? ==> d.root == Some(Whole(d.database.value))
  {
    RunKeeps(START, actions);
  }

  /**
   A present marker has each part staged or installed, in exactly those states of every run that are neither inside the
   window of a failed run's cleanup from removing the installed tree to removing the marker, nor after an interruption there.
   */
  lemma MarkerIsComplete(actions: seq<Action>)
    ensures var s := Run(START, actions);
            MarkerComplete(s.disk) <==> !Removing(s.pc) && !s.scarred
  {
    RunKeeps(START, actions);
  }

  /** An interruption inside that window fails closed: no later run, of any bundle, changes the disk or installs anything. */
  lemma {:induction false} ScarredFailsClosed(past: seq<Action>, future: seq<Action>)
    requires Run(START, past).scarred
    ensures var s, s' := Run(START, past), Run(Run(START, past), future);
            s'.disk == s.disk && s'.scarred && s'.disk.database == None
    decreases |future|
  {
    RunKeeps(START, past);
    if future != [] {
      ScarredFailsClosed(past, future[..|future| - 1]);
      RunKeeps(Run(START, past), future[..|future| - 1]);
    }
  }

  lemma RunNext(s: State, actions: seq<Action>, a: Action)
    ensures Run(s, actions + [a]) == Next(Run(s, actions), a)
  {
    assert (actions + [a])[..|actions|] == actions;
  }

  /** A fresh restore up to its written marker. */
  lemma RunToMarker(b: Bundle) returns (actions: seq<Action>)
    requires b.valid
    ensures var staged := Stage(Some(b.manifest.database), Some(Whole(b.manifest.database)));
            Run(START, actions) == State(Disk(map[7 := staged], Some(Marker(b.manifest, 7)), None, None), InstallTree, b, 7, false)
  {
    var a1 := [] + [Begin(b, 7)];
    RunNext(START, [], Begin(b, 7));
    RunNext(START, a1, Step);
    RunNext(START, a1 + [Step], Step);
    RunNext(START, a1 + [Step] + [Step], Step);
    RunNext(START, a1 + [Step] + [Step] + [Step], Step);
    actions := a1 + [Step] + [Step] + [Step] + [Step];
    assert Run(START, a1) == State(Disk(map[], None, None, None), MakeStage, b, 7, false);
    assert Run(START, a1 + [Step]).disk.stages == map[7 := Stage(None, None)];
    assert Run(START, a1 + [Step] + [Step]).disk.stages == map[7 := Stage(Some(b.manifest.database), None)];
  }

  /** The exception is real: a failed database rename, then a crash in the cleanup, leaves a marker without its tree. */
  lemma CrashInCleanupLosesTree(b: Bundle) returns (actions: seq<Action>)
    requires b.valid
    ensures var d := Run(START, actions).disk; d.marker.Some? && !MarkerComplete(d)
  {
    var a0 := RunToMarker(b);
    RunNext(START, a0, Step);
    RunNext(START, a0 + [Step], Fault);
    RunNext(START, a0 + [Step] + [Fault], Step);
    RunNext(START, a0 + [Step] + [Fault] + [Step], Crash);
    actions := a0 + [Step] + [Fault] + [Step] + [Crash];
    assert Run(START, a0 + [Step]).disk.stages == map[7 := Stage(Some(b.manifest.database), None)];
  }

  function Steps(s: State, n: nat): State
    decreases n
  {
    if n == 0 then s else Steps(DoStep(s), n - 1)
  }

  lemma StepsAdd(s: State, m: nat, n: nat)
    ensures Steps(s, m + n) == Steps(Steps(s, m), n)
    decreases m
  {
    if m > 0 { StepsAdd(DoStep(s), m - 1, n); }
  }

  predicate Installed(d: Disk, b: Bundle) {
    d.marker == None && d.database == Some(b.manifest.database) && d.root == Some(Whole(b.manifest.database))
  }

  /** An uninterrupted resume of a complete marker finishes the restore. */
  lemma ResumeFinishes(s: State, b: Bundle)
    requires Inv(s) && s.pc == Check && s.bundle == b && b.valid && MarkerComplete(s.disk)
    requires s.disk.marker.Some? && s.disk.marker.value.manifest == b.manifest
    ensures Steps(s, 5).pc == Idle && Installed(Steps(s, 5).disk, b)
  {
    assert Resumable(s.disk, b);
    var s1 := DoStep(s);
    assert s1.pc == ResumeTree && Resumable(s1.disk, b);
    var s2 := DoStep(s1);
    assert s2.disk.root == Some(Whole(b.manifest.database)) && s2.pc == ResumeDatabase;
    var s3 := DoStep(s2);
    assert s3.disk.database == Some(b.manifest.database) && s3.pc == ResumeMarker && s3.disk.root == s2.disk.root;
    var s4 := DoStep(s3);
    assert Steps(s, 5) == Steps(s1, 4) == Steps(s2, 3) == Steps(s3, 2) == Steps(s4, 1);
    assert Steps(s4, 1) == Steps(DoStep(s4), 0);
  }

  /** An uninterrupted fresh restore of a valid bundle installs both parts and leaves no marker. */
  lemma FreshFinishes(s: State, b: Bundle)
    requires s.pc == MakeStage && s.bundle == b && b.valid && s.disk.marker == None && Absent(s.disk)
    ensures Steps(s, 8).pc == Idle && Installed(Steps(s, 8).disk, b)
  {
    var s1 := DoStep(s);
    var s2 := DoStep(s1);
    var s3 := DoStep(s2);
    assert s3.pc == WriteMarker && Staged(s3, true, true);
    var s4 := DoStep(s3);
    var s5 := DoStep(s4);
    var s6 := DoStep(s5);
    assert s6.disk.root == Some(Whole(b.manifest.database)) && s6.disk.database == Some(b.manifest.database);
    var s7 := DoStep(s6);
    assert Steps(s, 8) == Steps(s1, 7) == Steps(s2, 6) == Steps(s3, 5) == Steps(s4, 4) == Steps(s5, 3) == Steps(s6, 2) == Steps(s7, 1);
    assert Steps(s7, 1) == Steps(DoStep(s7), 0);
  }

  /** Every action concerns the one bundle, and nothing but crashes interrupts it. */
  predicate OnlyCrashes(actions: seq<Action>, b: Bundle) {
    forall i :: 0 <= i < |actions| ==> actions[i].Step? || actions[i].Crash? || (actions[i].Begin? && actions[i].bundle == b)
  }

  /** All disk content comes from the bundle and no cleanup is under way. */
  predicate FromBundle(s: State, b: Bundle) {
    && (s.pc != Idle ==> s.bundle == b)
    && (s.disk.marker.Some? ==> s.disk.marker.value.manifest == b.manifest)
    && (s.disk.database.Some? ==> s.disk.database.value == b.manifest.database)
    && !s.pc.Undo? && !s.pc.UndoTree? && !s.pc.UndoMarker? && !s.pc.UndoStage? && !s.scarred && s.disk.root != Some(Damaged)
  }

  lemma {:induction false} CrashRunsStayOnBundle(actions: seq<Action>, b: Bundle)
    requires b.valid && OnlyCrashes(actions, b)
    ensures FromBundle(Run(START, actions), b)
    decreases |actions|
  {
    if actions != [] {
      var before := actions[..|actions| - 1];
      CrashRunsStayOnBundle(before, b);
      RunKeeps(START, before);
      NextStaysOnBundle(Run(START, before), actions[|actions| - 1], b);
    }
  }

  lemma NextStaysOnBundle(s: State, a: Action, b: Bundle)
    requires Inv(s) && FromBundle(s, b) && b.valid && (a.Step? || a.Crash? || (a.Begin? && a.bundle == b))
    ensures FromBundle(Next(s, a), b)
  {
  }

  /**
   Restore survives any crashes: after any interrupted runs and reruns with one valid bundle, one uninterrupted rerun
   leaves both parts installed and no marker (a rerun after success changes nothing).
   */
  lemma RestoreSurvivesCrashes(actions: seq<Action>, b: Bundle, name: nat)
    requires b.valid && OnlyCrashes(actions, b)
    requires name !in Run(START, actions + [Crash]).disk.stages
    ensures var s := Next(Run(START, actions + [Crash]), Begin(b, name));
            Steps(s, 8).pc == Idle && Installed(Steps(s, 8).disk, b)
  {
    var all := actions + [Crash];
    var s := Run(START, all);
    assert all[..|all| - 1] == actions;
    CrashRunsStayOnBundle(all, b);
    RunKeeps(START, all);
    var s' := Next(s, Begin(b, name));
    NextKeeps(s, Begin(b, name));
    if s.disk.marker.Some? {
      ResumeFinishes(s', b);
      StepsAdd(s', 5, 3);
      IdleStays(Steps(s', 5), 3);
    } else if Absent(s.disk) {
      FreshFinishes(s', b);
    } else {
      IdleStays(s', 8);
    }
  }

  /** What the disk must hold for one run with this bundle to succeed: nothing at all, or its own complete marker. */
  predicate Restorable(d: Disk, b: Bundle) {
    if d.marker.Some? then d.marker.value.manifest == b.manifest && MarkerComplete(d) else d.database == None && d.root == None
  }

  /**
   After any run of restores of any bundles, with faults and crashes, one uninterrupted run of a valid bundle ends with
   it installed exactly when it was installed before or the disk is restorable for it. A damaged tree without a marker,
   another bundle's marker and an incomplete marker all block it, and then the disk stays as it was.
   */
  lemma RerunInstallsExactly(actions: seq<Action>, b: Bundle, name: nat)
    requires var s := Run(START, actions); s.pc == Idle && b.valid && name !in s.disk.stages
    ensures var s := Run(START, actions);
            var t := Steps(Next(s, Begin(b, name)), 8);
            && t.pc == Idle
            && (Installed(t.disk, b) <==> Installed(s.disk, b) || Restorable(s.disk, b))
            && (!Restorable(s.disk, b) ==> t.disk == s.disk)
  {
    var s := Run(START, actions);
    RunKeeps(START, actions);
    var s' := Next(s, Begin(b, name));
    NextKeeps(s, Begin(b, name));
    if s.disk.marker.Some? {
      assert Resumable(s.disk, b) <==> Restorable(s.disk, b);
      if Restorable(s.disk, b) {
        ResumeFinishes(s', b);
        StepsAdd(s', 5, 3);
        IdleStays(Steps(s', 5), 3);
      } else {
        IdleStays(DoStep(s'), 7);
      }
    } else if Absent(s.disk) {
      FreshFinishes(s', b);
    } else {
      IdleStays(s', 8);
    }
  }

  /** A bundle that fails its checks changes nothing, wherever it is tried. */
  lemma InvalidBundleChangesNothing(actions: seq<Action>, b: Bundle, name: nat)
    requires var s := Run(START, actions); s.pc == Idle && !b.valid && name !in s.disk.stages
    ensures var s := Run(START, actions);
            var t := Steps(Next(s, Begin(b, name)), 5);
            t.pc == Idle && t.disk == s.disk
  {
    var s := Run(START, actions);
    RunKeeps(START, actions);
    var s' := Next(s, Begin(b, name));
    if s.disk.marker.Some? {
      IdleStays(DoStep(s'), 4);
    } else if Absent(s.disk) {
      InvalidAttemptUndoesItself(s');
    } else {
      IdleStays(s', 5);
    }
  }

  lemma InvalidAttemptUndoesItself(s: State)
    requires s.pc == MakeStage && !s.bundle.valid && s.disk.marker == None && s.stage !in s.disk.stages
    ensures Steps(s, 5).pc == Idle && Steps(s, 5).disk == s.disk
  {
    var s1 := DoStep(s);
    var s2 := DoStep(s1);
    var s3 := DoStep(s2);
    var s4 := DoStep(s3);
    var s5 := DoStep(s4);
    assert s2.pc == Undo(false) && s3.pc == UndoMarker(false) && s4.pc == UndoStage && s5.pc == Idle;
    assert s5.disk.stages == s.disk.stages;
    assert Steps(s, 5) == Steps(s1, 4) == Steps(s2, 3) == Steps(s3, 2) == Steps(s4, 1);
    assert Steps(s4, 1) == Steps(s5, 0);
  }

  lemma IdleStays(s: State, n: nat)
    requires s.pc == Idle
    ensures Steps(s, n) == s
    decreases n
  {
  }
}
