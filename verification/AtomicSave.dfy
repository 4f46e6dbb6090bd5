/** Saving the configuration: any number of processes and threads replace one
    file through private temporaries, interleaved, failing and crashing at any
    step (src/config.rs). File names are those of the target's directory. */
module AtomicSave {
  import opened Domain
  import opened Text

  /** `synced` says that the contents are on disk, not only in the cache. */
  datatype File = File(data: string, synced: bool, mode: nat)

  /** Owner may read and write, nobody else anything: 0o600. */
  const PRIVATE_MODE: nat := 384

  /** No permission for group and others, none to execute: bits of 0o600 only. */
  predicate OwnerOnly(mode: nat) {
    mode == 0 || mode == 128 || mode == 256 || mode == PRIVATE_MODE
  }

  const MAX_TEMP_ATTEMPTS: nat := 8

  /** How far one call of `save_to_path` has come. */
  datatype Phase =
    | Trying(attempts: nat)
    | Writing(tmp: string, ino: nat, written: nat)
    | Protecting(tmp: string, ino: nat)
    | Flushing(tmp: string, ino: nat)
    | Renaming(tmp: string, ino: nat)
    | Failed(tmp: string, ino: nat)
    | Renamed
    | Returned(ok: bool)
    | Abandoned(tmp: string, ino: nat)
    | Crashed

  datatype Saver = Saver(process: nat, contents: string, phase: Phase)

  datatype Process = Process(pid: nat, counter: nat)

  /** `pending` are the entries the target's name may have on disk, the newest
      last. `original`, `made` (which save created a file) and `placed` (the
      saves whose rename took effect, in order) are history. */
  datatype World = World(
    target: string,
    dir: map<string, nat>,
    files: map<nat, File>,
    pending: seq<Option<nat>>,
    processes: seq<Process>,
    savers: seq<Saver>,
    original: Option<nat>,
    originalFile: Option<File>,
    made: map<nat, nat>,
    placed: seq<nat>)

  /** `atomic_temp_path`. */
  function TempName(name: string, pid: nat, unique: nat): string {
    "." + name + ".tmp." + PrintNat(pid) + "." + PrintNat(unique)
  }

  // ---------------------------------------------------------------------
  // Steps
  // ---------------------------------------------------------------------

  datatype Step =
    | StartProcess(pid: nat)
    | StartSave(process: nat, contents: string)
    | Create(saver: nat, inode: nat, mode: nat)
    | Refuse(saver: nat)
    | Write(saver: nat, count: nat)
    | FinishWriting(saver: nat)
    | Protect(saver: nat)
    | Flush(saver: nat)
    | Rename(saver: nat)
    | Fail(saver: nat)
    | CleanUp(saver: nat, removed: bool)
    | FlushDirectory(saver: nat, flushed: bool)
    | CrashProcess(process: nat)
    | Others(dir: map<string, nat>, files: map<nat, File>)

  /** A temporary of its own is linked, or was when the save stopped. */
  predicate Holding(phase: Phase) {
    phase.Writing? || phase.Protecting? || phase.Flushing? || phase.Renaming? || phase.Failed? || phase.Abandoned?
  }

  predicate InSave(phase: Phase) {
    Holding(phase) && !phase.Failed? && !phase.Abandoned?
  }

  predicate Held(w: World, name: string) {
    exists i :: 0 <= i < |w.savers| && Holding(w.savers[i].phase) && w.savers[i].phase.tmp == name
  }

  ghost predicate Enabled(w: World, step: Step) {
    match step
    case StartProcess(_) => true
    case StartSave(p, _) => p < |w.processes|
    case Create(i, inode, mode) =>
      i < |w.savers| && w.savers[i].phase.Trying? && w.savers[i].process < |w.processes| &&
      inode !in w.files && OwnerOnly(mode)
    case Refuse(i) => i < |w.savers| && w.savers[i].phase.Trying?
    case Write(i, count) =>
      i < |w.savers| && w.savers[i].phase.Writing? && w.savers[i].phase.written + count <= |w.savers[i].contents| &&
      w.savers[i].phase.ino in w.files
    case FinishWriting(i) =>
      i < |w.savers| && w.savers[i].phase.Writing? && w.savers[i].phase.written == |w.savers[i].contents|
    case Protect(i) => i < |w.savers| && w.savers[i].phase.Protecting? && Reaches(w, w.savers[i].phase.tmp)
    case Flush(i) => i < |w.savers| && w.savers[i].phase.Flushing? && w.savers[i].phase.ino in w.files
    case Rename(i) => i < |w.savers| && w.savers[i].phase.Renaming? && w.savers[i].phase.tmp in w.dir
    case Fail(i) => i < |w.savers| && InSave(w.savers[i].phase)
    case CleanUp(i, _) => i < |w.savers| && w.savers[i].phase.Failed?
    case FlushDirectory(i, _) => i < |w.savers| && w.savers[i].phase.Renamed? && w.pending != []
    case CrashProcess(p) => p < |w.processes|
    case Others(dir, files) => OthersMay(w, dir, files)
  }

  predicate Reaches(w: World, name: string) {
    name in w.dir && w.dir[name] in w.files
  }

  /** What other programs may do: anything to names and files that are neither
      the target's nor a save's. */
  ghost predicate OthersMay(w: World, dir: map<string, nat>, files: map<nat, File>) {
    && (forall name :: name == w.target || Held(w, name) ==> Lookup(dir, name) == Lookup(w.dir, name))
    && (forall name :: name in dir && dir[name] in w.made ==> name in w.dir && w.dir[name] == dir[name])
    && (forall name :: name in dir ==> dir[name] in files)
    && (forall ino :: ino in w.files ==> ino in files)
    && forall ino :: ino in w.files && (ino in w.made || Some(ino) == w.original) ==> files[ino] == w.files[ino]
  }

  function Moved(w: World, i: nat, phase: Phase): World
    requires i < |w.savers|
  {
    w.(savers := w.savers[i := w.savers[i].(phase := phase)])
  }

  function Rewritten(w: World, ino: nat, file: File): World {
    w.(files := w.files[ino := file])
  }

  function Created(w: World, i: nat, inode: nat, mode: nat): World
    requires Enabled(w, Create(i, inode, mode))
  {
    var s := w.savers[i];
    var p := w.processes[s.process];
    var tmp := TempName(w.target, p.pid, p.counter);
    var counted := w.(processes := w.processes[s.process := p.(counter := p.counter + 1)]);
    if tmp in w.dir then
      Moved(counted, i, if s.phase.attempts + 1 < MAX_TEMP_ATTEMPTS then Trying(s.phase.attempts + 1) else Returned(false))
    else
      Moved(counted.(dir := w.dir[tmp := inode],
                     files := w.files[inode := File("", false, mode)],
                     made := w.made[inode := i]),
            i, Writing(tmp, inode, 0))
  }

  /** `fs::rename(tmp, target)`. */
  function RenamedOver(w: World, i: nat): World
    requires Enabled(w, Rename(i))
  {
    var tmp := w.savers[i].phase.tmp;
    var ino := w.dir[tmp];
    Moved(w.(dir := (w.dir - {tmp})[w.target := ino], pending := w.pending + [Some(ino)], placed := w.placed + [i]),
          i, Renamed)
  }

  function AfterCrash(s: Saver, process: nat): Saver {
    if s.process != process || s.phase.Returned? then s
    else if Holding(s.phase) then s.(phase := Abandoned(s.phase.tmp, s.phase.ino))
    else s.(phase := Crashed)
  }

  function Next(w: World, step: Step): World
    requires Enabled(w, step)
  {
    match step
    case StartProcess(pid) => w.(processes := w.processes + [Process(pid, 0)])
    case StartSave(p, contents) => w.(savers := w.savers + [Saver(p, contents, Trying(0))])
    case Create(i, inode, mode) => Created(w, i, inode, mode)
    case Refuse(i) => Moved(w, i, Returned(false))
    case Write(i, count) =>
      var s := w.savers[i];
      var written := s.phase.written + count;
      Moved(Rewritten(w, s.phase.ino, w.files[s.phase.ino].(data := s.contents[..written], synced := false)),
            i, Writing(s.phase.tmp, s.phase.ino, written))
    case FinishWriting(i) => Moved(w, i, Protecting(w.savers[i].phase.tmp, w.savers[i].phase.ino))
    case Protect(i) =>
      var ino := w.dir[w.savers[i].phase.tmp];
      Moved(Rewritten(w, ino, w.files[ino].(mode := PRIVATE_MODE, synced := false)),
            i, Flushing(w.savers[i].phase.tmp, w.savers[i].phase.ino))
    case Flush(i) =>
      var ino := w.savers[i].phase.ino;
      Moved(Rewritten(w, ino, w.files[ino].(synced := true)), i, Renaming(w.savers[i].phase.tmp, ino))
    case Rename(i) => RenamedOver(w, i)
    case Fail(i) => Moved(w, i, Failed(w.savers[i].phase.tmp, w.savers[i].phase.ino))
    case CleanUp(i, removed) =>
      var s := w.savers[i].phase;
      if removed then Moved(w.(dir := w.dir - {s.tmp}), i, Returned(false))
      else Moved(w, i, Abandoned(s.tmp, s.ino))
    case FlushDirectory(i, flushed) =>
      Moved(if flushed then w.(pending := [w.pending[|w.pending| - 1]]) else w, i, Returned(true))
    case CrashProcess(p) =>
      w.(savers := seq(|w.savers|, i requires 0 <= i < |w.savers| => AfterCrash(w.savers[i], p)))
    case Others(dir, files) => w.(dir := dir, files := files)
  }

  predicate Initial(w: World) {
    && w.processes == [] && w.savers == [] && w.made == map[] && w.placed == []
    && (forall name :: name in w.dir ==> w.dir[name] in w.files)
    && w.original == Lookup(w.dir, w.target)
    && w.originalFile == (if w.original.Some? then Some(w.files[w.original.value]) else None)
    && (w.originalFile.Some? ==> w.originalFile.value.synced)
    && w.pending == [w.original]
  }

  ghost predicate IsRun(states: seq<World>, steps: seq<Step>) {
    && |states| == |steps| + 1
    && Initial(states[0])
    && forall i :: 0 <= i < |steps| ==> Enabled(states[i], steps[i]) && states[i + 1] == Next(states[i], steps[i])
  }

  // ---------------------------------------------------------------------
  // What every step keeps
  // ---------------------------------------------------------------------

  predicate OriginalKept(w: World) {
    match w.original
    case None => w.originalFile == None
    case Some(ino) => ino in w.files && ino !in w.made && w.originalFile == Some(w.files[ino])
  }

  /** Every linked file exists, and so does every file a save made. */
  predicate Linked(w: World) {
    && OriginalKept(w)
    && (forall name :: name in w.dir ==> w.dir[name] in w.files)
    && forall ino :: ino in w.made ==> ino in w.files && w.made[ino] < |w.savers|
  }

  /** A save's temporary is linked to the file that save made. */
  predicate Owns(w: World, i: nat)
    requires i < |w.savers|
  {
    var phase := w.savers[i].phase;
    Holding(phase) ==>
      phase.tmp != w.target && Lookup(w.dir, phase.tmp) == Some(phase.ino) &&
      phase.ino in w.made && w.made[phase.ino] == i
  }

  predicate Owned(w: World) {
    forall i :: 0 <= i < |w.savers| ==> Owns(w, i)
  }

  /** What the temporary of a save in the given phase holds. */
  predicate Staged(s: Saver, file: File) {
    && (s.phase.Writing? ==> s.phase.written <= |s.contents| && file.data == s.contents[..s.phase.written])
    && (s.phase.Protecting? || s.phase.Flushing? || s.phase.Renaming? ==> file.data == s.contents)
    && (s.phase.Flushing? || s.phase.Renaming? ==> file.mode == PRIVATE_MODE)
    && (s.phase.Renaming? ==> file.synced)
  }

  predicate StagedAt(w: World, i: nat)
    requires i < |w.savers|
  {
    InSave(w.savers[i].phase) && w.savers[i].phase.ino in w.files ==> Staged(w.savers[i], w.files[w.savers[i].phase.ino])
  }

  predicate AllStaged(w: World) {
    forall i :: 0 <= i < |w.savers| ==> StagedAt(w, i)
  }

  /** Whatever a save made is linked at the target or as its temporary. */
  predicate LeftAt(w: World, name: string, i: nat) {
    name == w.target || (i < |w.savers| && Holding(w.savers[i].phase) && w.savers[i].phase.tmp == name)
  }

  predicate NoStray(w: World) {
    forall name :: name in w.dir && w.dir[name] in w.made ==> LeftAt(w, name, w.made[w.dir[name]])
  }

  /** The saves that took effect: each once, all of those that returned success. */
  predicate Counted(w: World, i: nat)
    requires i < |w.savers|
  {
    var phase := w.savers[i].phase;
    && (phase.Renamed? || phase == Returned(true) ==> i in w.placed)
    && (i in w.placed ==> phase.Renamed? || phase == Returned(true) || phase.Crashed?)
  }

  predicate PlacedOnce(w: World) {
    && (forall j :: 0 <= j < |w.placed| ==> w.placed[j] < |w.savers|)
    && (forall j, k :: 0 <= j < k < |w.placed| ==> w.placed[j] != w.placed[k])
    && forall i :: 0 <= i < |w.savers| ==> Counted(w, i)
  }

  /** The entry of the target after the first `k` replacements. */
  predicate EntryAfter(w: World, k: nat, entry: Option<nat>) {
    if k == 0 then entry == w.original
    else
      && k <= |w.placed| && w.placed[k - 1] < |w.savers|
      && entry.Some? && entry.value in w.files && entry.value in w.made && w.made[entry.value] == w.placed[k - 1]
      && w.files[entry.value] == File(w.savers[w.placed[k - 1]].contents, true, PRIVATE_MODE)
  }

  /** The oldest entry that may still be on disk is the one after so many
      replacements. */
  function Durable(w: World): int {
    |w.placed| + 1 - |w.pending|
  }

  predicate PendingAt(w: World, j: nat)
    requires j < |w.pending| <= |w.placed| + 1
  {
    EntryAfter(w, Durable(w) + j, w.pending[j])
  }

  predicate PendingAre(w: World) {
    && 1 <= |w.pending| <= |w.placed| + 1
    && w.pending[|w.pending| - 1] == Lookup(w.dir, w.target)
    && forall j :: 0 <= j < |w.pending| ==> PendingAt(w, j)
  }

  ghost predicate NamedBy(w: World, name: string, process: nat) {
    process < |w.processes| &&
    exists n: nat :: n < w.processes[process].counter && name == TempName(w.target, w.processes[process].pid, n)
  }

  ghost predicate Named(w: World) {
    forall i :: 0 <= i < |w.savers| && Holding(w.savers[i].phase) ==> NamedBy(w, w.savers[i].phase.tmp, w.savers[i].process)
  }

  /** A file a save made is closed to group and others, from its creation on. */
  predicate AllPrivate(w: World) {
    forall ino :: ino in w.made && ino in w.files ==> OwnerOnly(w.files[ino].mode)
  }

  ghost predicate Invariant(w: World) {
    && Linked(w) && Owned(w) && AllStaged(w) && NoStray(w) && PlacedOnce(w) && PendingAre(w) && Named(w)
    && AllPrivate(w)
  }

  lemma TempIsNotTarget(name: string, pid: nat, unique: nat)
    ensures TempName(name, pid, unique) != name
  {
    assert |TempName(name, pid, unique)| > |name|;
  }

  /** A save rewrites no file but its own. */
  lemma FilesFrame(w: World, step: Step, ino: nat)
    requires Linked(w) && Owned(w) && Enabled(w, step) && ino in w.files
    requires match step
      case Write(a, _) => ino !in w.made || w.made[ino] != a
      case Protect(a) => ino !in w.made || w.made[ino] != a
      case Flush(a) => ino !in w.made || w.made[ino] != a
      case Others(_, _) => ino in w.made || Some(ino) == w.original
      case _ => true
    ensures ino in Next(w, step).files && Next(w, step).files[ino] == w.files[ino]
  {
    match step
    case Write(a, _) => assert Owns(w, a);
    case Protect(a) => assert Owns(w, a);
    case Flush(a) => assert Owns(w, a);
    case _ =>
  }

  lemma OriginalKeptStep(w: World, step: Step)
    requires Linked(w) && Owned(w) && Enabled(w, step)
    ensures OriginalKept(Next(w, step))
  {
    if w.original.Some? {
      FilesFrame(w, step, w.original.value);
    }
  }

  lemma FilesStay(w: World, step: Step, ino: nat)
    requires Enabled(w, step) && ino in w.files
    ensures ino in Next(w, step).files
  {
  }

  lemma LinkedNameStep(w: World, step: Step, name: string)
    requires Linked(w) && Enabled(w, step) && name in Next(w, step).dir
    ensures Next(w, step).dir[name] in Next(w, step).files
  {
  }

  lemma MadeBefore(w: World, step: Step, ino: nat)
    requires Linked(w) && Enabled(w, step) && ino in Next(w, step).made
    ensures if ino in w.made then Next(w, step).made[ino] == w.made[ino]
      else step.Create? && Next(w, step).made[ino] == step.saver && ino == step.inode && ino in Next(w, step).files
  {
  }

  lemma MadeStep(w: World, step: Step, ino: nat)
    requires Linked(w) && Enabled(w, step) && ino in Next(w, step).made
    ensures var n := Next(w, step); ino in n.files && n.made[ino] < |n.savers|
  {
    MadeBefore(w, step, ino);
    PlacedAfter(w, step);
    if ino in w.made {
      FilesStay(w, step, ino);
    }
  }

  lemma LinkedStep(w: World, step: Step)
    requires Linked(w) && Owned(w) && Enabled(w, step)
    ensures Linked(Next(w, step))
  {
    OriginalKeptStep(w, step);
    var n := Next(w, step);
    forall name | name in n.dir
      ensures n.dir[name] in n.files
    {
      LinkedNameStep(w, step, name);
    }
    forall ino | ino in n.made
      ensures ino in n.files && n.made[ino] < |n.savers|
    {
      MadeStep(w, step, ino);
    }
  }

  // What a step leaves of the saves themselves.

  lemma SaverKept(w: World, step: Step, i: nat)
    requires Enabled(w, step) && i < |w.savers| && !ActsOn(step, i)
    ensures i < |Next(w, step).savers|
    ensures Next(w, step).savers[i] == if step.CrashProcess? then AfterCrash(w.savers[i], step.process) else w.savers[i]
  {
  }

  lemma SaverActs(w: World, step: Step, i: nat)
    requires Enabled(w, step) && i < |w.savers| && ActsOn(step, i)
    ensures |Next(w, step).savers| == |w.savers|
    ensures Next(w, step).savers[i].contents == w.savers[i].contents
    ensures Next(w, step).savers[i].process == w.savers[i].process
  {
  }

  lemma SaverHolds(w: World, step: Step, i: nat)
    requires Enabled(w, step) && i < |w.savers| && ActsOn(step, i) && !step.Create? && |Next(w, step).savers| == |w.savers|
    requires Holding(Next(w, step).savers[i].phase)
    ensures Holding(w.savers[i].phase) && w.savers[i].phase.tmp == Next(w, step).savers[i].phase.tmp
  {
  }

  lemma PlacedAfter(w: World, step: Step)
    requires Enabled(w, step)
    ensures Next(w, step).placed == if step.Rename? then w.placed + [step.saver] else w.placed
    ensures |w.savers| <= |Next(w, step).savers|
  {
  }

  /** The steps of save `i` itself. */
  predicate ActsOn(step: Step, i: nat) {
    && !step.StartProcess? && !step.StartSave? && !step.CrashProcess? && !step.Others?
    && step.saver == i
  }

  predicate MovesLinks(step: Step) {
    step.Create? || step.Rename? || step.CleanUp? || step.Others?
  }

  lemma OwnsQuietStep(w: World, step: Step, i: nat)
    requires Owned(w) && Enabled(w, step) && i < |Next(w, step).savers| && !MovesLinks(step)
    ensures Owns(Next(w, step), i)
  {
    if i < |w.savers| {
      assert Owns(w, i);
    }
  }

  lemma OwnsCreateStep(w: World, step: Step, i: nat)
    requires Linked(w) && Owned(w) && Enabled(w, step) && i < |w.savers| && step.Create?
    ensures Owns(Next(w, step), i)
  {
    assert Owns(w, i);
    var p := w.processes[w.savers[step.saver].process];
    TempIsNotTarget(w.target, p.pid, p.counter);
  }

  lemma OwnsStep(w: World, step: Step, i: nat)
    requires Linked(w) && Owned(w) && Enabled(w, step) && i < |w.savers| && MovesLinks(step) && !step.Create?
    ensures Owns(Next(w, step), i)
  {
    assert Owns(w, i);
    match step
    case Rename(a) => assert Owns(w, a);
    case CleanUp(a, _) => assert Owns(w, a);
    case Others(dir, files) =>
      if Holding(w.savers[i].phase) {
        assert Held(w, w.savers[i].phase.tmp);
      }
    case _ =>
  }

  lemma OwnedStep(w: World, step: Step)
    requires Linked(w) && Owned(w) && Enabled(w, step)
    ensures Owned(Next(w, step))
  {
    forall i | 0 <= i < |Next(w, step).savers|
      ensures Owns(Next(w, step), i)
    {
      if !MovesLinks(step) {
        OwnsQuietStep(w, step, i);
      } else if step.Create? {
        OwnsCreateStep(w, step, i);
      } else {
        OwnsStep(w, step, i);
      }
    }
  }

  lemma StagedOwnStep(w: World, step: Step, i: nat)
    requires Linked(w) && Owned(w) && AllStaged(w) && Enabled(w, step) && i < |w.savers| && ActsOn(step, i)
    ensures StagedAt(Next(w, step), i)
  {
    assert Owns(w, i) && StagedAt(w, i);
  }

  lemma StagedOtherStep(w: World, step: Step, i: nat)
    requires Linked(w) && Owned(w) && AllStaged(w) && Enabled(w, step) && i < |w.savers| && !ActsOn(step, i)
    ensures i < |Next(w, step).savers| && StagedAt(Next(w, step), i)
  {
    SaverKept(w, step, i);
    assert Owns(w, i) && StagedAt(w, i);
    if InSave(w.savers[i].phase) {
      FilesFrame(w, step, w.savers[i].phase.ino);
    }
  }

  lemma StagedStep(w: World, step: Step)
    requires Linked(w) && Owned(w) && AllStaged(w) && Enabled(w, step)
    ensures AllStaged(Next(w, step))
  {
    forall i | 0 <= i < |Next(w, step).savers|
      ensures StagedAt(Next(w, step), i)
    {
      if i < |w.savers| {
        if ActsOn(step, i) {
          StagedOwnStep(w, step, i);
        } else {
          StagedOtherStep(w, step, i);
        }
      }
    }
  }

  lemma NoStrayQuietStep(w: World, step: Step, name: string)
    requires NoStray(w) && Enabled(w, step) && !MovesLinks(step) && name in w.dir && w.dir[name] in w.made
    ensures LeftAt(Next(w, step), name, w.made[w.dir[name]])
  {
    assert LeftAt(w, name, w.made[w.dir[name]]);
  }

  lemma NoStrayAddedStep(w: World, step: Step, name: string)
    requires Linked(w) && NoStray(w) && Enabled(w, step) && (step.Create? || step.Others?)
    requires var n := Next(w, step); name in n.dir && n.dir[name] in n.made
    ensures var n := Next(w, step); LeftAt(n, name, n.made[n.dir[name]])
  {
    if name in w.dir && w.dir[name] in w.made {
      assert LeftAt(w, name, w.made[w.dir[name]]);
    }
  }

  lemma NoStrayRemovedStep(w: World, step: Step, name: string)
    requires Owned(w) && NoStray(w) && Enabled(w, step) && (step.Rename? || step.CleanUp?)
    requires var n := Next(w, step); name in n.dir && n.dir[name] in n.made
    ensures var n := Next(w, step); LeftAt(n, name, n.made[n.dir[name]])
  {
    assert Owns(w, step.saver);
    if name in w.dir && w.dir[name] in w.made {
      assert LeftAt(w, name, w.made[w.dir[name]]);
    }
  }

  lemma QuietLinks(w: World, step: Step)
    requires Enabled(w, step) && !MovesLinks(step)
    ensures Next(w, step).dir == w.dir && Next(w, step).made == w.made
  {
  }

  lemma NoStrayStep(w: World, step: Step)
    requires Linked(w) && Owned(w) && NoStray(w) && Enabled(w, step)
    ensures NoStray(Next(w, step))
  {
    var n := Next(w, step);
    forall name | name in n.dir && n.dir[name] in n.made
      ensures LeftAt(n, name, n.made[n.dir[name]])
    {
      if step.Create? || step.Others? {
        NoStrayAddedStep(w, step, name);
      } else if MovesLinks(step) {
        NoStrayRemovedStep(w, step, name);
      } else {
        QuietLinks(w, step);
        NoStrayQuietStep(w, step, name);
      }
    }
  }

  lemma CountedOwnStep(w: World, step: Step, i: nat)
    requires i < |w.savers| && Counted(w, i) && Enabled(w, step) && ActsOn(step, i) && i < |Next(w, step).savers|
    ensures Counted(Next(w, step), i)
  {
    if step.Rename? {
      assert Next(w, step).placed == w.placed + [i];
    }
  }

  /** A save that does not act stays as it is, or crashes with its process. */
  predicate Unmoved(s: Saver, t: Saver) {
    t == s || t == AfterCrash(s, s.process)
  }

  /** A save that does not act stays counted as it was. */
  lemma CountedFrame(w: World, n: World, i: nat)
    requires i < |w.savers| && Counted(w, i) && i < |n.savers| && Unmoved(w.savers[i], n.savers[i])
    requires i in n.placed <==> i in w.placed
    ensures Counted(n, i)
  {
  }

  lemma CountedStep(w: World, step: Step, i: nat)
    requires i < |w.savers| && Counted(w, i) && Enabled(w, step) && i < |Next(w, step).savers|
    ensures Counted(Next(w, step), i)
  {
    if ActsOn(step, i) {
      CountedOwnStep(w, step, i);
    } else {
      SaverKept(w, step, i);
      PlacedAfter(w, step);
      CountedFrame(w, Next(w, step), i);
    }
  }

  lemma NewSaverCounted(w: World, step: Step, i: nat)
    requires PlacedOnce(w) && Enabled(w, step) && |w.savers| <= i < |Next(w, step).savers|
    ensures Counted(Next(w, step), i)
  {
  }

  /** Only a save not yet placed is placed. */
  lemma PlacedDistinct(w: World, step: Step)
    requires PlacedOnce(w) && Enabled(w, step)
    ensures var placed := Next(w, step).placed;
      && (forall j :: 0 <= j < |placed| ==> placed[j] < |Next(w, step).savers|)
      && (forall j, k :: 0 <= j < k < |placed| ==> placed[j] != placed[k])
  {
    PlacedAfter(w, step);
    if step.Rename? {
      assert Counted(w, step.saver);
    }
  }

  lemma PlacedStep(w: World, step: Step)
    requires PlacedOnce(w) && Enabled(w, step)
    ensures PlacedOnce(Next(w, step))
  {
    PlacedDistinct(w, step);
    forall i | 0 <= i < |Next(w, step).savers|
      ensures Counted(Next(w, step), i)
    {
      if i < |w.savers| {
        CountedStep(w, step, i);
      } else {
        NewSaverCounted(w, step, i);
      }
    }
  }

  lemma ContentsStay(w: World, step: Step, i: nat)
    requires Enabled(w, step) && i < |w.savers|
    ensures i < |Next(w, step).savers| && Next(w, step).savers[i].contents == w.savers[i].contents
  {
    if ActsOn(step, i) {
      SaverActs(w, step, i);
    } else {
      SaverKept(w, step, i);
    }
  }

  lemma PlacedGrows(w: World, step: Step, k: nat)
    requires Enabled(w, step) && k < |w.placed| && w.placed[k] < |w.savers|
    ensures var n := Next(w, step);
            k < |n.placed| && n.placed[k] == w.placed[k] && n.placed[k] < |n.savers| &&
            n.savers[n.placed[k]].contents == w.savers[w.placed[k]].contents
  {
    PlacedAfter(w, step);
    ContentsStay(w, step, w.placed[k]);
  }

  lemma MadeStays(w: World, step: Step, ino: nat)
    requires Enabled(w, step) && Linked(w) && ino in w.made
    ensures ino in Next(w, step).made && Next(w, step).made[ino] == w.made[ino]
    ensures Next(w, step).original == w.original
  {
  }

  lemma OriginalStepStays(w: World, step: Step)
    requires Enabled(w, step)
    ensures var n := Next(w, step); n.original == w.original && n.originalFile == w.originalFile && n.target == w.target
  {
  }

  /** What the entry after `k` replacements rests on is the same in `n`. */
  predicate RestsAlike(w: World, n: World, k: nat, ino: nat) {
    && 0 < k <= |w.placed| && k <= |n.placed| && n.placed[k - 1] == w.placed[k - 1]
    && w.placed[k - 1] < |w.savers| && n.placed[k - 1] < |n.savers|
    && n.savers[n.placed[k - 1]].contents == w.savers[w.placed[k - 1]].contents
    && ino in w.files && ino in n.files && n.files[ino] == w.files[ino]
    && ino in w.made && ino in n.made && n.made[ino] == w.made[ino]
  }

  lemma EntryFrame(w: World, n: World, k: nat, entry: nat)
    requires EntryAfter(w, k, Some(entry)) && RestsAlike(w, n, k, entry)
    ensures EntryAfter(n, k, Some(entry))
  {
  }

  lemma EntryStep(w: World, step: Step, k: nat, entry: Option<nat>)
    requires Linked(w) && Owned(w) && PlacedOnce(w) && Enabled(w, step) && EntryAfter(w, k, entry)
    ensures EntryAfter(Next(w, step), k, entry)
  {
    OriginalStepStays(w, step);
    if k > 0 {
      var owner := w.placed[k - 1];
      assert owner in w.placed;
      assert Counted(w, owner);
      PlacedGrows(w, step, k - 1);
      MadeStays(w, step, entry.value);
      FilesFrame(w, step, entry.value);
      EntryFrame(w, Next(w, step), k, entry.value);
    }
  }

  lemma RenamedEntry(w: World, i: nat)
    requires Invariant(w) && Enabled(w, Rename(i))
    ensures EntryAfter(Next(w, Rename(i)), |w.placed| + 1, Some(w.dir[w.savers[i].phase.tmp]))
  {
    assert Owns(w, i) && StagedAt(w, i);
  }

  lemma TargetEntryRename(w: World, step: Step)
    requires w.pending != [] && Enabled(w, step) && (step.Rename? || step.FlushDirectory?)
    requires w.pending[|w.pending| - 1] == Lookup(w.dir, w.target)
    ensures var n := Next(w, step); n.pending != [] && n.pending[|n.pending| - 1] == Lookup(n.dir, n.target)
  {
  }

  lemma TargetEntryOther(w: World, step: Step)
    requires Owned(w) && Enabled(w, step) && !step.Rename? && !step.FlushDirectory?
    ensures Next(w, step).pending == w.pending
    ensures Lookup(Next(w, step).dir, w.target) == Lookup(w.dir, w.target)
  {
    match step
    case Create(a, _, _) =>
      var p := w.processes[w.savers[a].process];
      TempIsNotTarget(w.target, p.pid, p.counter);
    case CleanUp(a, _) => assert Owns(w, a);
    case _ =>
  }

  lemma TargetEntryStep(w: World, step: Step)
    requires Invariant(w) && Enabled(w, step)
    ensures var n := Next(w, step); n.pending != [] && n.pending[|n.pending| - 1] == Lookup(n.dir, n.target)
  {
    if step.Rename? || step.FlushDirectory? {
      TargetEntryRename(w, step);
    } else {
      TargetEntryOther(w, step);
      OriginalStepStays(w, step);
    }
  }

  /** Which of the old entries became entry `j`. */
  function OldEntry(w: World, step: Step, j: nat): int {
    if step.FlushDirectory? && step.flushed then |w.pending| - 1 else j
  }

  lemma PendingMoves(w: World, step: Step, j: nat)
    requires Enabled(w, step) && 1 <= |w.pending| <= |w.placed| + 1 && j < |Next(w, step).pending|
    ensures var n := Next(w, step);
            |n.pending| <= |n.placed| + 1 &&
            if step.Rename? && j == |w.pending| then Durable(n) + j == |w.placed| + 1
            else
              var was := OldEntry(w, step, j);
              0 <= was < |w.pending| && n.pending[j] == w.pending[was] && Durable(n) + j == Durable(w) + was
  {
  }

  lemma PendingAtStep(w: World, step: Step, j: nat)
    requires Invariant(w) && Enabled(w, step) && j < |Next(w, step).pending| <= |Next(w, step).placed| + 1
    requires !(step.Rename? && j == |w.pending|)
    ensures PendingAt(Next(w, step), j)
  {
    PendingMoves(w, step, j);
    var was := OldEntry(w, step, j);
    assert PendingAt(w, was);
    EntryStep(w, step, Durable(w) + was, w.pending[was]);
  }

  lemma PendingStep(w: World, step: Step)
    requires Invariant(w) && Enabled(w, step)
    ensures PendingAre(Next(w, step))
  {
    var n := Next(w, step);
    TargetEntryStep(w, step);
    PendingMoves(w, step, 0);
    forall j | 0 <= j < |n.pending|
      ensures PendingAt(n, j)
    {
      if step.Rename? && j == |w.pending| {
        RenamedEntry(w, step.saver);
      } else {
        PendingAtStep(w, step, j);
      }
    }
  }

  lemma NamedByStep(w: World, step: Step, name: string, process: nat)
    requires Enabled(w, step) && NamedBy(w, name, process)
    ensures NamedBy(Next(w, step), name, process)
  {
    var m: nat :| m < w.processes[process].counter && name == TempName(w.target, w.processes[process].pid, m);
    var n := Next(w, step);
    assert m < n.processes[process].counter && n.processes[process].pid == w.processes[process].pid;
  }

  lemma NamedAtCreate(w: World, step: Step)
    requires step.Create? && Enabled(w, step) && Holding(Next(w, step).savers[step.saver].phase)
    ensures var n := Next(w, step); NamedBy(n, n.savers[step.saver].phase.tmp, n.savers[step.saver].process)
  {
    var process := w.savers[step.saver].process;
    var counter := w.processes[process].counter;
    var n := Next(w, step);
    assert counter < n.processes[process].counter &&
      n.savers[step.saver].phase.tmp == TempName(n.target, n.processes[process].pid, counter);
  }

  /** Only a created temporary is new; all others keep their names. */
  lemma HolderBefore(w: World, step: Step, i: nat)
    requires Enabled(w, step) && i < |w.savers| && i < |Next(w, step).savers| && Holding(Next(w, step).savers[i].phase)
    requires !(step.Create? && step.saver == i)
    ensures Holding(w.savers[i].phase)
    ensures var s, t := w.savers[i], Next(w, step).savers[i]; s.phase.tmp == t.phase.tmp && s.process == t.process
  {
    if ActsOn(step, i) {
      SaverActs(w, step, i);
      SaverHolds(w, step, i);
    } else {
      SaverKept(w, step, i);
    }
  }

  lemma NewSaverHoldsNothing(w: World, step: Step, i: nat)
    requires Enabled(w, step) && |w.savers| <= i < |Next(w, step).savers|
    ensures !Holding(Next(w, step).savers[i].phase)
  {
  }

  lemma NamedStep(w: World, step: Step)
    requires Named(w) && Enabled(w, step)
    ensures Named(Next(w, step))
  {
    var n := Next(w, step);
    forall i | 0 <= i < |n.savers| && Holding(n.savers[i].phase)
      ensures NamedBy(n, n.savers[i].phase.tmp, n.savers[i].process)
    {
      if i >= |w.savers| {
        NewSaverHoldsNothing(w, step, i);
      } else if step.Create? && step.saver == i {
        NamedAtCreate(w, step);
      } else {
        HolderBefore(w, step, i);
        NamedByStep(w, step, w.savers[i].phase.tmp, w.savers[i].process);
      }
    }
  }

  lemma PrivateAtStep(w: World, step: Step, ino: nat)
    requires Linked(w) && AllPrivate(w) && Enabled(w, step) && ino in Next(w, step).made && ino in Next(w, step).files
    ensures OwnerOnly(Next(w, step).files[ino].mode)
  {
  }

  lemma PrivateStep(w: World, step: Step)
    requires Linked(w) && AllPrivate(w) && Enabled(w, step)
    ensures AllPrivate(Next(w, step))
  {
    forall ino | ino in Next(w, step).made && ino in Next(w, step).files
      ensures OwnerOnly(Next(w, step).files[ino].mode)
    {
      PrivateAtStep(w, step, ino);
    }
  }

  lemma InvariantStep(w: World, step: Step)
    requires Invariant(w) && Enabled(w, step)
    ensures Invariant(Next(w, step))
  {
    LinkedStep(w, step);
    OwnedStep(w, step);
    StagedStep(w, step);
    NoStrayStep(w, step);
    PlacedStep(w, step);
    PendingStep(w, step);
    NamedStep(w, step);
    PrivateStep(w, step);
  }

  lemma {:induction false} InvariantAlways(states: seq<World>, steps: seq<Step>, i: nat)
    requires IsRun(states, steps) && i < |states|
    ensures Invariant(states[i])
  {
    if i > 0 {
      InvariantAlways(states, steps, i - 1);
      InvariantStep(states[i - 1], steps[i - 1]);
    }
  }
}
