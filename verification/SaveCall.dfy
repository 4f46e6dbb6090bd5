/** One call of `save_to_path`, step by step: the retry over temporary names,
    the write, the permissions, the flush, the rename and the clean-up
    (src/config.rs). Each system call is one step of `AtomicSave`. */
module SaveCall {
  import opened Domain
  import opened AtomicSave
  import opened SaveRuns

  /** What the process's mask leaves of 0o600. */
  type FileMode = mode: nat | OwnerOnly(mode)

  /** How the system calls of one attempt turn out; `amounts` is what each
      `write` accepts. */
  datatype Outcome = Outcome(
    createFails: bool, mode: FileMode, amounts: seq<nat>, protectFails: bool, flushFails: bool, renameFails: bool,
    removeFails: bool, directoryFlushes: bool)

  /** The bytes accepted before a `write` takes nothing or there are no more. */
  function Accepted(amounts: seq<nat>): nat {
    if amounts == [] || amounts[0] == 0 then 0 else amounts[0] + Accepted(amounts[1..])
  }

  /** Every call of the attempt succeeds, and the writes take all of `contents`. */
  predicate Completes(o: Outcome, contents: string) {
    !o.createFails && Accepted(o.amounts) >= |contents| && !o.protectFails && !o.flushFails && !o.renameFails
  }

  /** The name that save `i` tries after `n` more of its process's names. */
  function NameTried(w: World, i: nat, n: nat): string
    requires i < |w.savers| && w.savers[i].process < |w.processes|
  {
    var p := w.processes[w.savers[i].process];
    TempName(w.target, p.pid, p.counter + n)
  }

  /** The file system with every step taken on it so far. */
  class FileSystem {
    var world: World
    ghost var states: seq<World>
    ghost var steps: seq<Step>

    ghost predicate Valid()
      reads this
    {
      && IsRun(states, steps)
      && states[|steps|] == world
    }

    /** One system call. */
    method Perform(step: Step)
      requires Valid() && Enabled(world, step)
      modifies this
      ensures Valid()
      ensures world == Next(old(world), step)
      ensures states == old(states) + [world] && steps == old(steps) + [step]
    {
      world := Next(world, step);
      states, steps := states + [world], steps + [step];
    }
  }

  /** Only save `i` acted from `before` on. */
  predicate OnlySave(before: seq<Step>, after: seq<Step>, i: nat) {
    before <= after && forall k :: |before| <= k < |after| ==> ActsOn(after[k], i)
  }

  /** The call of save `i` has not reached its rename. */
  predicate Unplaced(was: World, now: World, i: nat) {
    && i < |was.savers| == |now.savers|
    && now.placed == was.placed
    && now.savers == was.savers[i := now.savers[i]]
    && now.savers[i].contents == was.savers[i].contents
    && now.originalFile == was.originalFile
  }

  lemma RunInvariant(states: seq<World>, steps: seq<Step>)
    requires IsRun(states, steps)
    ensures Invariant(states[|steps|])
  {
    InvariantAlways(states, steps, |steps|);
  }

  /** The temporary of a save under way is there. */
  lemma TemporaryThere(w: World, i: nat)
    requires Invariant(w) && i < |w.savers| && Holding(w.savers[i].phase)
    ensures Reaches(w, w.savers[i].phase.tmp) && w.savers[i].phase.ino in w.files
  {
    assert Owns(w, i);
  }

  /** `write_all`: as many writes as it takes; a write that accepts nothing, or
      one more than can be made, is an error. */
  method WriteAll(fs: FileSystem, i: nat, amounts: seq<nat>) returns (ok: bool)
    requires fs.Valid() && i < |fs.world.savers| && fs.world.savers[i].phase.Writing?
    modifies fs
    ensures fs.Valid() && OnlySave(old(fs.steps), fs.steps, i) && Unplaced(old(fs.world), fs.world, i)
    ensures var phase := fs.world.savers[i].phase;
      phase.Writing? && (ok ==> phase.written == |fs.world.savers[i].contents|)
    ensures var s := old(fs.world).savers[i]; ok <==> s.phase.written + Accepted(amounts) >= |s.contents|
  {
    var size := |fs.world.savers[i].contents|;
    var k := 0;
    RunInvariant(fs.states, fs.steps);
    assert StagedAt(fs.world, i);
    TemporaryThere(fs.world, i);
    while fs.world.savers[i].phase.written < size
      invariant fs.Valid() && OnlySave(old(fs.steps), fs.steps, i) && Unplaced(old(fs.world), fs.world, i)
      invariant size == |fs.world.savers[i].contents|
      invariant fs.world.savers[i].phase.Writing? && fs.world.savers[i].phase.written <= size
      invariant fs.world.savers[i].phase.ino in fs.world.files
      invariant k <= |amounts|
      invariant var written := fs.world.savers[i].phase.written;
        old(fs.world).savers[i].phase.written + Accepted(amounts) >= size <==>
        written + Accepted(amounts[k..]) >= size
      decreases size - fs.world.savers[i].phase.written
    {
      if k >= |amounts| || amounts[k] == 0 {
        return false;
      }
      assert amounts[k..][1..] == amounts[k + 1..];
      var left := size - fs.world.savers[i].phase.written;
      fs.Perform(Write(i, if amounts[k] < left then amounts[k] else left));
      k := k + 1;
    }
    ok := true;
  }

  /** `apply_target_permissions` on the written temporary. */
  method ProtectTemporary(fs: FileSystem, i: nat)
    requires fs.Valid() && i < |fs.world.savers| && fs.world.savers[i].phase.Protecting?
    modifies fs
    ensures fs.Valid() && OnlySave(old(fs.steps), fs.steps, i) && Unplaced(old(fs.world), fs.world, i)
    ensures fs.world.savers[i].phase.Flushing?
  {
    RunInvariant(fs.states, fs.steps);
    TemporaryThere(fs.world, i);
    fs.Perform(Protect(i));
  }

  /** `sync_all`. */
  method FlushTemporary(fs: FileSystem, i: nat)
    requires fs.Valid() && i < |fs.world.savers| && fs.world.savers[i].phase.Flushing?
    modifies fs
    ensures fs.Valid() && OnlySave(old(fs.steps), fs.steps, i) && Unplaced(old(fs.world), fs.world, i)
    ensures fs.world.savers[i].phase.Renaming?
  {
    RunInvariant(fs.states, fs.steps);
    TemporaryThere(fs.world, i);
    fs.Perform(Flush(i));
  }

  method CloseWriting(fs: FileSystem, i: nat)
    requires fs.Valid() && i < |fs.world.savers| && fs.world.savers[i].phase.Writing?
    requires fs.world.savers[i].phase.written == |fs.world.savers[i].contents|
    modifies fs
    ensures fs.Valid() && OnlySave(old(fs.steps), fs.steps, i) && Unplaced(old(fs.world), fs.world, i)
    ensures fs.world.savers[i].phase.Protecting?
  {
    fs.Perform(FinishWriting(i));
  }

  /** The steps between creating the temporary and renaming it. */
  method Stage(fs: FileSystem, i: nat, o: Outcome) returns (ok: bool)
    requires fs.Valid() && i < |fs.world.savers| && fs.world.savers[i].phase.Writing?
    modifies fs
    ensures fs.Valid() && OnlySave(old(fs.steps), fs.steps, i) && Unplaced(old(fs.world), fs.world, i)
    ensures InSave(fs.world.savers[i].phase) && (ok ==> fs.world.savers[i].phase.Renaming?)
    ensures var s := old(fs.world).savers[i];
      ok <==> s.phase.written + Accepted(o.amounts) >= |s.contents| && !o.protectFails && !o.flushFails
  {
    var written := WriteAll(fs, i, o.amounts);
    if !written {
      return false;
    }
    CloseWriting(fs, i);
    if o.protectFails {
      return false;
    }
    ProtectTemporary(fs, i);
    if o.flushFails {
      return false;
    }
    FlushTemporary(fs, i);
    ok := true;
  }

  /** The rename over the target and the flush of its directory. */
  method Place(fs: FileSystem, i: nat, flushes: bool)
    requires fs.Valid() && i < |fs.world.savers| && fs.world.savers[i].phase.Renaming?
    modifies fs
    ensures fs.Valid() && OnlySave(old(fs.steps), fs.steps, i)
    ensures Done(old(fs.world), fs.world, i, true)
  {
    RunInvariant(fs.states, fs.steps);
    TemporaryThere(fs.world, i);
    fs.Perform(Rename(i));
    fs.Perform(FlushDirectory(i, flushes));
  }

  /** An error after the temporary was created removes it, as far as possible. */
  method GiveUp(fs: FileSystem, i: nat, removeFails: bool)
    requires fs.Valid() && i < |fs.world.savers| && InSave(fs.world.savers[i].phase)
    modifies fs
    ensures fs.Valid() && OnlySave(old(fs.steps), fs.steps, i)
    ensures Done(old(fs.world), fs.world, i, false)
    ensures !removeFails ==> fs.world.savers[i].phase == Returned(false)
  {
    fs.Perform(Fail(i));
    fs.Perform(CleanUp(i, !removeFails));
  }

  /** Creating the temporary: a fresh file, or a name already taken. */
  method CreateTemporary(fs: FileSystem, i: nat, inode: nat, mode: FileMode)
    requires fs.Valid() && i < |fs.world.savers| && fs.world.savers[i].phase.Trying? && inode !in fs.world.files
    requires fs.world.savers[i].process < |fs.world.processes|
    modifies fs
    ensures fs.Valid() && OnlySave(old(fs.steps), fs.steps, i) && Unplaced(old(fs.world), fs.world, i)
    ensures fs.world.savers[i].phase.Writing? <==> NameTried(old(fs.world), i, 0) !in old(fs.world).dir
    ensures fs.world.savers[i].phase.Writing? ==> fs.world.savers[i].phase.written == 0
    ensures !fs.world.savers[i].phase.Writing? ==> Passed(old(fs.world), fs.world, i, inode)
  {
    fs.Perform(Create(i, inode, mode));
  }

  /** The name was taken: on to the next, or out of names. */
  predicate Passed(was: World, now: World, i: nat, inode: nat)
    requires i < |was.savers| == |now.savers| && was.savers[i].phase.Trying?
  {
    && inode !in now.files && OneNameOn(was, now, i)
    && now.savers[i].phase ==
       if was.savers[i].phase.attempts + 1 < MAX_TEMP_ATTEMPTS
       then Trying(was.savers[i].phase.attempts + 1) else Returned(false)
  }

  /** Nothing is linked or unlinked, and the process's count is one higher. */
  predicate OneNameOn(was: World, now: World, i: nat)
    requires i < |was.savers| == |now.savers|
  {
    && now.dir == was.dir && now.target == was.target
    && now.savers[i].process == was.savers[i].process < |was.processes| == |now.processes|
    && var p, q := was.processes[was.savers[i].process], now.processes[now.savers[i].process];
       q.pid == p.pid && q.counter == p.counter + 1
  }

  datatype Attempt = Collided | Finished(ok: bool)

  /** What a finished call leaves. */
  predicate Done(was: World, now: World, i: nat, ok: bool) {
    && i < |was.savers| == |now.savers|
    && now.originalFile == was.originalFile
    && now.savers == was.savers[i := now.savers[i]]
    && now.savers[i].contents == was.savers[i].contents
    && now.placed == (if ok then was.placed + [i] else was.placed)
    && (now.savers[i].phase == Returned(ok) || (!ok && now.savers[i].phase.Abandoned?))
  }

  /** `replace_file_atomically`. */
  method ReplaceFileAtomically(fs: FileSystem, i: nat, inode: nat, o: Outcome) returns (r: Attempt)
    requires fs.Valid() && i < |fs.world.savers| && fs.world.savers[i].phase.Trying? && inode !in fs.world.files
    requires fs.world.savers[i].process < |fs.world.processes|
    modifies fs
    ensures fs.Valid() && OnlySave(old(fs.steps), fs.steps, i)
    ensures r.Finished? ==> Done(old(fs.world), fs.world, i, r.ok)
    ensures r.Collided? ==> Unplaced(old(fs.world), fs.world, i) && Passed(old(fs.world), fs.world, i, inode)
    ensures r.Finished? && !o.removeFails ==> fs.world.savers[i].phase == Returned(r.ok)
    ensures r.Collided? <==> !o.createFails && NameTried(old(fs.world), i, 0) in old(fs.world).dir
    ensures r == Finished(true) <==>
      NameTried(old(fs.world), i, 0) !in old(fs.world).dir && Completes(o, old(fs.world).savers[i].contents)
  {
    if o.createFails {
      fs.Perform(Refuse(i));
      return Finished(false);
    }
    CreateTemporary(fs, i, inode, o.mode);
    if !fs.world.savers[i].phase.Writing? {
      return Collided;
    }
    var staged := Stage(fs, i, o);
    if staged && !o.renameFails {
      Place(fs, i, o.directoryFlushes);
      return Finished(true);
    }
    GiveUp(fs, i, o.removeFails);
    return Finished(false);
  }

  lemma TextIsLatest(w: World)
    requires Invariant(w)
    ensures TargetText(w) == RegisterAfter(w, |w.placed|)
  {
    var last := |w.pending| - 1;
    assert PendingAt(w, last);
    EntryText(w, |w.placed|, w.pending[last]);
  }

  lemma DoneText(was: World, now: World, i: nat, ok: bool)
    requires Invariant(was) && Invariant(now) && Done(was, now, i, ok)
    ensures TargetText(now) == if ok then Some(was.savers[i].contents) else TargetText(was)
  {
    TextIsLatest(was);
    TextIsLatest(now);
  }

  /** Attempt `n` finds its name taken. */
  predicate Collides(w: World, i: nat, outcomes: seq<Outcome>, n: nat)
    requires i < |w.savers| && w.savers[i].process < |w.processes| && n < |outcomes|
  {
    !outcomes[n].createFails && NameTried(w, i, n) in w.dir
  }

  /** Attempt `n` is the first that does not collide, and it completes. */
  predicate SucceedsAt(w: World, i: nat, outcomes: seq<Outcome>, n: nat)
    requires i < |w.savers| && w.savers[i].process < |w.processes| && n < |outcomes|
  {
    && (forall m :: 0 <= m < n ==> Collides(w, i, outcomes, m))
    && !Collides(w, i, outcomes, n) && Completes(outcomes[n], w.savers[i].contents)
  }

  /** `n` names on, the next name is the one `n` names further. */
  predicate NamesOn(was: World, now: World, i: nat, n: nat)
    requires i < |was.savers| == |now.savers|
  {
    && now.dir == was.dir && now.target == was.target
    && now.savers[i].process == was.savers[i].process < |was.processes| == |now.processes|
    && var p, q := was.processes[was.savers[i].process], now.processes[now.savers[i].process];
       q.pid == p.pid && q.counter == p.counter + n
  }

  /** `save_to_path` on a resolved target, nobody else acting meanwhile: it
      succeeds exactly when, within eight names, the first attempt that does not
      collide completes. Success leaves all of the new contents, an error leaves
      the target as it was, and the temporary is gone unless removing it failed. */
  method SaveToPath(fs: FileSystem, i: nat, inode: nat, outcomes: seq<Outcome>) returns (ok: bool)
    requires fs.Valid() && i < |fs.world.savers| && fs.world.savers[i].phase == Trying(0) && inode !in fs.world.files
    requires fs.world.savers[i].process < |fs.world.processes| && |outcomes| == 8
    modifies fs
    ensures fs.Valid() && OnlySave(old(fs.steps), fs.steps, i)
    ensures Done(old(fs.world), fs.world, i, ok)
    ensures ok <==> exists n :: 0 <= n < 8 && SucceedsAt(old(fs.world), i, outcomes, n)
    ensures (forall n :: 0 <= n < |outcomes| ==> !outcomes[n].removeFails) ==> fs.world.savers[i].phase == Returned(ok)
    ensures TargetText(fs.world) == if ok then Some(old(fs.world).savers[i].contents) else TargetText(old(fs.world))
  {
    ok := TryNames(fs, i, inode, outcomes);
    RunInvariant(old(fs.states), old(fs.steps));
    RunInvariant(fs.states, fs.steps);
    DoneText(old(fs.world), fs.world, i, ok);
  }

  /** The loop over the temporary names. */
  method TryNames(fs: FileSystem, i: nat, inode: nat, outcomes: seq<Outcome>) returns (ok: bool)
    requires fs.Valid() && i < |fs.world.savers| && fs.world.savers[i].phase == Trying(0) && inode !in fs.world.files
    requires fs.world.savers[i].process < |fs.world.processes| && |outcomes| == MAX_TEMP_ATTEMPTS
    modifies fs
    ensures fs.Valid() && OnlySave(old(fs.steps), fs.steps, i)
    ensures Done(old(fs.world), fs.world, i, ok)
    ensures ok <==> exists n :: 0 <= n < |outcomes| && SucceedsAt(old(fs.world), i, outcomes, n)
    ensures (forall n :: 0 <= n < |outcomes| ==> !outcomes[n].removeFails) ==> fs.world.savers[i].phase == Returned(ok)
  {
    ghost var was := fs.world;
    var n := 0;
    while n < MAX_TEMP_ATTEMPTS
      invariant 0 <= n <= MAX_TEMP_ATTEMPTS
      invariant fs.Valid() && OnlySave(old(fs.steps), fs.steps, i) && Unplaced(was, fs.world, i)
      invariant fs.world.savers[i].phase == if n < MAX_TEMP_ATTEMPTS then Trying(n) else Returned(false)
      invariant inode !in fs.world.files && NamesOn(was, fs.world, i, n)
      invariant forall m :: 0 <= m < n ==> Collides(was, i, outcomes, m)
    {
      assert NameTried(fs.world, i, 0) == NameTried(was, i, n);
      var r := ReplaceFileAtomically(fs, i, inode, outcomes[n]);
      if r.Finished? {
        FirstToFinish(was, i, outcomes, n);
        return r.ok;
      }
      n := n + 1;
    }
    ok := false;
  }

  /** After `n` collisions only attempt `n` can be the one that succeeds. */
  lemma FirstToFinish(w: World, i: nat, outcomes: seq<Outcome>, n: nat)
    requires i < |w.savers| && w.savers[i].process < |w.processes| && n < |outcomes|
    requires forall m :: 0 <= m < n ==> Collides(w, i, outcomes, m)
    requires !Collides(w, i, outcomes, n)
    ensures (exists m :: 0 <= m < |outcomes| && SucceedsAt(w, i, outcomes, m)) <==> Completes(outcomes[n], w.savers[i].contents)
  {
    if Completes(outcomes[n], w.savers[i].contents) {
      assert SucceedsAt(w, i, outcomes, n);
    }
    if m :| 0 <= m < |outcomes| && SucceedsAt(w, i, outcomes, m) {
      assert m == n;
    }
  }
}
