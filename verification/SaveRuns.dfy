/** What every run of concurrent saves guarantees: the target is an atomic
    register, power loss leaves whole saves, and a save touches only its own
    files (src/config.rs). */
module SaveRuns {
  import opened Domain
  import opened Text
  import opened AtomicSave

  // ---------------------------------------------------------------------
  // What holds in every run
  // ---------------------------------------------------------------------

  /** What a reader of the target finds. */
  function TargetText(w: World): Option<string> {
    if Reaches(w, w.target) then Some(w.files[w.dir[w.target]].data) else None
  }

  /** The text after the first `k` replacements: a register that only whole
      saves write. */
  function RegisterAfter(w: World, k: nat): Option<string> {
    if k == 0 then match w.originalFile { case Some(f) => Some(f.data) case None => None }
    else if k <= |w.placed| && w.placed[k - 1] < |w.savers| then Some(w.savers[w.placed[k - 1]].contents)
    else None
  }

  lemma {:induction false} OriginalStays(states: seq<World>, steps: seq<Step>, i: nat)
    requires IsRun(states, steps) && i < |states|
    ensures states[i].target == states[0].target && states[i].originalFile == states[0].originalFile
  {
    if i > 0 {
      OriginalStays(states, steps, i - 1);
      OriginalStepStays(states[i - 1], steps[i - 1]);
    }
  }

  lemma EntryText(w: World, k: nat, entry: Option<nat>)
    requires Linked(w) && EntryAfter(w, k, entry)
    ensures entry.None? ==> RegisterAfter(w, k) == None
    ensures entry.Some? && k > 0 ==> entry.value in w.files && w.files[entry.value].synced
    ensures entry.Some? ==> entry.value in w.files && RegisterAfter(w, k) == Some(w.files[entry.value].data)
  {
  }

  /** The target is an atomic register: at every moment it holds the original
      text or all of the latest save that took effect. Each save takes effect at
      most once; every one that returned success did, none that failed. */
  lemma TargetIsRegister(states: seq<World>, steps: seq<Step>, i: nat)
    requires IsRun(states, steps) && i < |states|
    ensures var w := states[i];
      && TargetText(w) == RegisterAfter(w, |w.placed|)
      && (w.placed == [] ==> TargetText(w) == TargetText(states[0]))
      && (w.placed != [] ==> Reaches(w, w.target) && w.files[w.dir[w.target]].mode == PRIVATE_MODE)
      && (forall j, k :: 0 <= j < k < |w.placed| ==> w.placed[j] != w.placed[k])
      && forall s :: 0 <= s < |w.savers| && w.savers[s].phase.Returned? ==> (s in w.placed <==> w.savers[s].phase.ok)
  {
    InvariantAlways(states, steps, i);
    InvariantAlways(states, steps, 0);
    OriginalStays(states, steps, i);
    var w := states[i];
    var last := |w.pending| - 1;
    assert PendingAt(w, last);
    EntryText(w, |w.placed|, w.pending[last]);
    forall s | 0 <= s < |w.savers| && w.savers[s].phase.Returned?
      ensures s in w.placed <==> w.savers[s].phase.ok
    {
      assert Counted(w, s);
      assert w.savers[s].phase == Returned(w.savers[s].phase.ok);
    }
  }

  /** A text the target may hold after a power loss: through any entry it may
      have on disk, and anything at all where the contents are not on disk. */
  predicate MaySurvive(w: World, j: nat, text: Option<string>) {
    && j < |w.pending|
    && match w.pending[j]
       case None => text == None
       case Some(ino) => text.Some? && (ino in w.files && w.files[ino].synced ==> text.value == w.files[ino].data)
  }

  lemma OriginalSynced(states: seq<World>, steps: seq<Step>, i: nat)
    requires IsRun(states, steps) && i < |states|
    ensures states[i].originalFile.Some? ==> states[i].originalFile.value.synced
  {
    OriginalStays(states, steps, i);
  }

  /** Even a power loss leaves the original text or one whole save, and none
      older than the last replacement known to be durable. */
  lemma PowerLossKeepsWholeSaves(states: seq<World>, steps: seq<Step>, i: nat, j: nat, text: Option<string>)
    requires IsRun(states, steps) && i < |states| && MaySurvive(states[i], j, text)
    ensures var w := states[i];
      0 <= Durable(w) <= Durable(w) + j <= |w.placed| && text == RegisterAfter(w, Durable(w) + j)
  {
    InvariantAlways(states, steps, i);
    OriginalSynced(states, steps, i);
    var w := states[i];
    assert PendingAt(w, j);
    EntryText(w, Durable(w) + j, w.pending[j]);
  }

  lemma DurableStep(w: World, step: Step)
    requires Invariant(w) && Enabled(w, step)
    ensures Durable(w) <= Durable(Next(w, step)) && w.placed <= Next(w, step).placed
  {
  }

  lemma {:induction false} DurableGrows(states: seq<World>, steps: seq<Step>, t: nat, u: nat)
    requires IsRun(states, steps) && t <= u < |states|
    ensures Durable(states[t]) <= Durable(states[u]) && states[t].placed <= states[u].placed
    decreases u
  {
    if t < u {
      DurableGrows(states, steps, t, u - 1);
      InvariantAlways(states, steps, u - 1);
      DurableStep(states[u - 1], steps[u - 1]);
    }
  }

  /** Once a save's directory entry has been flushed, a power loss at any later
      moment leaves that save or one that replaced it. */
  lemma FlushedSaveSurvives(states: seq<World>, steps: seq<Step>, t: nat, u: nat, saver: nat)
    requires IsRun(states, steps) && t < u < |states| && steps[t] == FlushDirectory(saver, true)
    ensures var w := states[u];
      0 < Durable(w) <= |w.placed| && saver in w.placed[..Durable(w)]
  {
    InvariantAlways(states, steps, t);
    InvariantAlways(states, steps, u);
    assert Counted(states[t], saver);
    DurableGrows(states, steps, t + 1, u);
    assert Durable(states[t + 1]) == |states[t].placed|;
    var k :| 0 <= k < |states[t].placed| && states[t].placed[k] == saver;
    assert states[u].placed[k] == saver;
    assert states[u].placed[..Durable(states[u])][k] == saver;
  }

  lemma NamesFrame(w: World, step: Step, i: nat, name: string)
    requires Linked(w) && Owned(w) && Enabled(w, step) && ActsOn(step, i) && name in w.dir && name != w.target
    requires !(w.dir[name] in w.made && w.made[w.dir[name]] == i)
    ensures name in Next(w, step).dir && Next(w, step).dir[name] == w.dir[name]
  {
    assert Owns(w, i);
  }

  /** A step of a save changes no file it did not make, no name of another file
      and the target only by the rename. */
  lemma SavesTouchOnlyTheirOwn(states: seq<World>, steps: seq<Step>, i: nat, saver: nat)
    requires IsRun(states, steps) && i < |steps| && ActsOn(steps[i], saver)
    ensures var w, n := states[i], states[i + 1];
      && (forall ino :: ino in w.files && !(ino in w.made && w.made[ino] == saver) ==>
            ino in n.files && n.files[ino] == w.files[ino])
      && (forall name :: name in w.dir && name != w.target && !(w.dir[name] in w.made && w.made[w.dir[name]] == saver) ==>
            name in n.dir && n.dir[name] == w.dir[name])
      && (!steps[i].Rename? ==> Lookup(n.dir, w.target) == Lookup(w.dir, w.target))
  {
    InvariantAlways(states, steps, i);
    var w, step := states[i], steps[i];
    forall ino | ino in w.files && !(ino in w.made && w.made[ino] == saver)
      ensures ino in Next(w, step).files && Next(w, step).files[ino] == w.files[ino]
    {
      FilesFrame(w, step, ino);
    }
    forall name | name in w.dir && name != w.target && !(w.dir[name] in w.made && w.made[w.dir[name]] == saver)
      ensures name in Next(w, step).dir && Next(w, step).dir[name] == w.dir[name]
    {
      NamesFrame(w, step, saver, name);
    }
    if !step.Rename? && !step.FlushDirectory? {
      TargetEntryOther(w, step);
    }
  }

  /** From its creation on, every file a save made is closed to everyone but its
      owner, also while it is being written. */
  lemma SavedFilesArePrivate(states: seq<World>, steps: seq<Step>, i: nat, ino: nat)
    requires IsRun(states, steps) && i < |states| && ino in states[i].made
    ensures ino in states[i].files && OwnerOnly(states[i].files[ino].mode)
  {
    InvariantAlways(states, steps, i);
  }

  /** Once every save has returned, with no crash and no failed clean-up on the
      way, nothing a save made is linked anywhere but at the target. */
  lemma NoTemporaryLeft(states: seq<World>, steps: seq<Step>, i: nat, name: string)
    requires IsRun(states, steps) && i < |states|
    requires forall s :: 0 <= s < |states[i].savers| ==> states[i].savers[s].phase.Returned?
    requires name in states[i].dir && states[i].dir[name] in states[i].made
    ensures name == states[i].target
  {
    InvariantAlways(states, steps, i);
    assert LeftAt(states[i], name, states[i].made[states[i].dir[name]]);
  }

  // ---------------------------------------------------------------------
  // Temporary names
  // ---------------------------------------------------------------------

  /** Two decimal numbers joined by a dot can be told apart. */
  lemma DottedInjective(a: string, b: string, c: string, d: string)
    requires '.' !in a && '.' !in c && a + "." + b == c + "." + d
    ensures a == c && b == d
  {
    var s, t := a + "." + b, c + "." + d;
    assert s[|a|] == '.' && t[|c|] == '.';
    assert forall i :: 0 <= i < |a| ==> s[i] == a[i];
    assert forall i :: 0 <= i < |c| ==> t[i] == c[i];
    assert s[..|a|] == a && t[..|c|] == c;
    assert s[|a| + 1..] == b && t[|c| + 1..] == d;
  }

  lemma PrintNatInjective(m: nat, n: nat)
    requires PrintNat(m) == PrintNat(n)
    ensures m == n
  {
    PrintNatDigits(m);
    PrintNatDigits(n);
  }

  lemma TempNameInjective(name: string, p: nat, m: nat, q: nat, n: nat)
    requires TempName(name, p, m) == TempName(name, q, n)
    ensures p == q && m == n
  {
    var head := "." + name + ".tmp.";
    var s, t := TempName(name, p, m), TempName(name, q, n);
    assert s == head + (PrintNat(p) + "." + PrintNat(m)) && t == head + (PrintNat(q) + "." + PrintNat(n));
    assert s[|head|..] == PrintNat(p) + "." + PrintNat(m) && t[|head|..] == PrintNat(q) + "." + PrintNat(n);
    PrintNatDigits(p);
    PrintNatDigits(q);
    DottedInjective(PrintNat(p), PrintNat(m), PrintNat(q), PrintNat(n));
    PrintNatInjective(p, q);
    PrintNatInjective(m, n);
  }

  /** The next name a process tries is never one that a save of the same process,
      or of a process with another id, holds. */
  lemma NoCollisionWithin(states: seq<World>, steps: seq<Step>, i: nat, process: nat, other: nat)
    requires IsRun(states, steps) && i < |states|
    requires process < |states[i].processes|
    requires other < |states[i].savers| && Holding(states[i].savers[other].phase)
    requires states[i].savers[other].phase.tmp ==
      TempName(states[i].target, states[i].processes[process].pid, states[i].processes[process].counter)
    ensures var s := states[i].savers[other];
      s.process < |states[i].processes| && s.process != process &&
      states[i].processes[s.process].pid == states[i].processes[process].pid
  {
    InvariantAlways(states, steps, i);
    var w := states[i];
    var s := w.savers[other];
    assert NamedBy(w, s.phase.tmp, s.process);
    var n: nat :| n < w.processes[s.process].counter && s.phase.tmp == TempName(w.target, w.processes[s.process].pid, n);
    TempNameInjective(w.target, w.processes[s.process].pid, n, w.processes[process].pid, w.processes[process].counter);
  }
}
