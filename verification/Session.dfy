/** The whole runtime as a transition system: app loop, LLM worker, poll
    threads and fast worker, interleaving freely over their channels
    (src/app.rs, src/app/workers.rs, src/app/loop_events.rs). */
module Session {
  import opened Domain
  import opened Llama
  import opened Messages
  import opened Channels
  import opened AppLoop
  import opened Workers
  import opened AppFacts
  import opened Grace

  const FAST_CAPACITY: nat := 2

  /** History variables: what was adopted, published, produced and moved so far.
      `sets[g]` is the server set of generation g, `published[m]` the identity of
      mapping generation m and `polled[n]` the poll behind sample n. */
  datatype Log = Log(
    sets: seq<seq<ServerSpec>>,
    published: seq<Option<LocalServerIdentity>>,
    produced: seq<LlmSample>,
    polled: seq<Poll>,
    taken: seq<LlmSample>,
    delivered: seq<LlmSample>,
    dropped: seq<LlmSample>)

  /** `lastGood` is each cell's monitor's latest connected sample, if any. */
  datatype World = World(
    app: AppState,
    commands: seq<LlmCommand>,
    identities: seq<IdentityUpdate>,
    worker: WorkerState,
    pool: Pool,
    lastGood: map<nat, Good>,
    inner: seq<LlmSample>,
    outer: Bounded<LlmSample>,
    fast: FastState,
    fastOuter: Bounded<FastSnapshot>,
    clock: Instant,
    log: Log)

  /** One atomic step of one actor. */
  datatype Step =
    | Sync(next: ServerList)
    | Choose(highlighted: nat)
    | ReceiveLlm(now: Instant)
    | ReceiveFast
    | TakeCommand
    | Claim(slot: nat)
    | Forward
    | Lock(thread: nat)
    | Sample(thread: nat, poll: Poll)
    | Send(thread: nat)
    | Release(thread: nat)
    | Finish(thread: nat)
    | TakeIdentity
    | ScanGpus(currentStart: Option<nat>, evidence: seq<string>)
    | PublishFast

  function Initial(list: ServerList, defaultSelected: string): World {
    var (app, out) := Started(list, defaultSelected);
    World(app, out.commands, out.identities, WorkerStarted(list.monitored), Pool({}, map[], map[], 0), map[],
          [], Bounded([], 0), FAST_STARTED, Bounded([], 0), 0,
          Log([list.monitored], [None, SelectedIdentityOf(list.monitored, app.selected)], [], [], [], [], []))
  }

  predicate Live(w: World, thread: nat) {
    thread in w.pool.threads && w.pool.threads[thread].cell < |w.worker.cells|
  }

  predicate Holding(phase: ThreadPhase) {
    phase.Locked? || phase.Sampled? || phase.Sent?
  }

  predicate Enabled(w: World, step: Step) {
    match step
    case Sync(next) => ValidSet(next.monitored)
    case Choose(_) => true
    case ReceiveLlm(now) => w.outer.queue != [] && w.clock <= now
    case ReceiveFast => w.fastOuter.queue != []
    case TakeCommand => w.commands != []
    case Claim(slot) => slot < |w.worker.servers|
    case Forward => w.inner != []
    case Lock(t) => Live(w, t) && w.pool.threads[t].phase.Spawned? && w.pool.threads[t].cell !in w.pool.locks
    case Sample(t, poll) => Live(w, t) && w.pool.threads[t].phase.Locked? && !poll.raw.reconnecting
    case Send(t) => Live(w, t) && w.pool.threads[t].phase.Sampled?
    case Release(t) => Live(w, t) && !w.pool.threads[t].phase.Released?
    case Finish(t) => Live(w, t) && w.pool.threads[t].phase.Released?
    case TakeIdentity => w.identities != []
    case ScanGpus(_, _) => true
    case PublishFast => true
  }

  /** An app step: its messages join the queues, its adoptions the log. */
  function AppMoved(w: World, moved: (AppState, Outbox)): World {
    w.(app := moved.0,
       commands := w.commands + moved.1.commands,
       identities := w.identities + moved.1.identities,
       log := w.log.(
         sets := if moved.1.commands == [] then w.log.sets else w.log.sets + [moved.0.serverList],
         published := if moved.1.identities == [] then w.log.published
           else w.log.published + [SelectedIdentityOf(moved.0.serverList, moved.0.selected)]))
  }

  function WithPhase(p: Pool, thread: nat, phase: ThreadPhase): Pool
    requires thread in p.threads
  {
    p.(threads := p.threads[thread := p.threads[thread].(phase := phase)])
  }

  /** The sample a poll publishes, given what its monitor remembers. */
  function Produced(w: World, thread: nat, poll: Poll): LlmSample
    requires Live(w, thread)
  {
    var t := w.pool.threads[thread];
    var spec := w.worker.cells[t.cell];
    LlmSample(spec.key, t.generation, Published(Lookup(w.lastGood, t.cell), poll), Origin(t.cell, spec, |w.log.produced|))
  }

  function Remember(lastGood: map<nat, Good>, cell: nat, poll: Poll): map<nat, Good> {
    match Remembered(Lookup(lastGood, cell), poll)
    case Some(good) => lastGood[cell := good]
    case None => lastGood
  }

  function Next(w: World, step: Step): World
    requires Enabled(w, step)
  {
    match step
    case Sync(next) => AppMoved(w, Synced(w.app, next))
    case Choose(highlighted) => AppMoved(w, Chosen(w.app, highlighted))
    case ReceiveLlm(now) =>
      var sample := w.outer.queue[0];
      w.(app := LlmApplied(w.app, sample, now), outer := w.outer.(queue := w.outer.queue[1..]), clock := now,
         log := w.log.(delivered := w.log.delivered + [sample]))
    case ReceiveFast =>
      w.(app := FastApplied(w.app, w.fastOuter.queue[0]),
         fastOuter := w.fastOuter.(queue := w.fastOuter.queue[1..]))
    case TakeCommand =>
      w.(worker := CommandApplied(w.worker, w.commands[0]), commands := w.commands[1..])
    case Claim(slot) =>
      w.(pool := Claimed(w.pool, w.worker.servers[slot], w.worker.generation))
    case Forward =>
      var sample := w.inner[0];
      var outer := Offered(w.outer, MAX_MONITORED_SERVERS, sample);
      w.(inner := w.inner[1..], outer := outer,
         log := w.log.(taken := w.log.taken + [sample],
                       dropped := if outer.drops > w.outer.drops then w.log.dropped + [sample] else w.log.dropped))
    case Lock(t) =>
      w.(pool := WithPhase(w.pool, t, Locked).(locks := w.pool.locks[w.pool.threads[t].cell := t]))
    case Sample(t, poll) =>
      var sample := Produced(w, t, poll);
      w.(pool := WithPhase(w.pool, t, Sampled(sample)), lastGood := Remember(w.lastGood, sample.origin.cell, poll),
         log := w.log.(produced := w.log.produced + [sample], polled := w.log.polled + [poll]))
    case Send(t) =>
      w.(pool := WithPhase(w.pool, t, Sent), inner := w.inner + [w.pool.threads[t].phase.sample])
    case Release(t) =>
      var thread := w.pool.threads[t];
      w.(pool := WithPhase(w.pool, t, Released)
           .(locks := if Holding(thread.phase) then w.pool.locks - {thread.cell} else w.pool.locks))
    case Finish(t) =>
      w.(pool := w.pool.(flags := w.pool.flags - {w.pool.threads[t].cell}, threads := w.pool.threads - {t}))
    case TakeIdentity =>
      w.(fast := IdentityReceived(w.fast, w.identities[0]), identities := w.identities[1..])
    case ScanGpus(currentStart, evidence) => w.(fast := Scanned(w.fast, currentStart, evidence))
    case PublishFast => w.(fastOuter := Offered(w.fastOuter, FAST_CAPACITY, Stamped(w.fast)))
  }

  ghost predicate IsRun(states: seq<World>, steps: seq<Step>) {
    && |states| == |steps| + 1
    && (exists list: ServerList, defaultSelected: string ::
          ValidSet(list.monitored) && states[0] == Initial(list, defaultSelected))
    && forall i :: 0 <= i < |steps| ==> Enabled(states[i], steps[i]) && states[i + 1] == Next(states[i], steps[i])
  }

  // ---------------------------------------------------------------------
  // Generations and poll slots
  // ---------------------------------------------------------------------

  predicate SlotFor(slot: PollSlot, spec: ServerSpec, cells: seq<ServerSpec>) {
    slot.spec == spec && slot.cell < |cells| && cells[slot.cell] == spec
  }

  predicate SlotsFor(slots: seq<PollSlot>, list: seq<ServerSpec>, cells: seq<ServerSpec>) {
    && |slots| == |list|
    && forall i :: 0 <= i < |list| ==> SlotFor(slots[i], list[i], cells)
  }

  /** The app's generation names its list; the worker is at some generation and
      its queued commands are exactly the ones that lead to the app's. */
  predicate SetsAgree(w: World) {
    && |w.log.sets| == w.app.llmGeneration + 1
    && w.log.sets[w.app.llmGeneration] == w.app.serverList
    && (forall g :: 0 <= g < |w.log.sets| ==> ValidSet(w.log.sets[g]))
    && w.worker.generation < |w.log.sets|
    && SlotsFor(w.worker.servers, w.log.sets[w.worker.generation], w.worker.cells)
    && |w.commands| == w.app.llmGeneration - w.worker.generation
    && forall i :: 0 <= i < |w.commands| ==>
         w.commands[i] == SetServers(w.worker.generation + 1 + i, w.log.sets[w.worker.generation + 1 + i])
  }

  /** A slot that serves its entry points at a cell built for it. */
  lemma ServedSlotFor(slot: PollSlot, spec: ServerSpec, old0: seq<PollSlot>, oldList: seq<ServerSpec>,
    cells: seq<ServerSpec>, created: seq<ServerSpec>)
    requires SlotsFor(old0, oldList, cells) && DistinctSlots(old0)
    requires Serves(slot, spec, SlotMap(old0), |cells|, created)
    ensures SlotFor(slot, spec, cells + created)
  {
    SlotMapFinds(old0, spec.key);
    if Reusable(SlotMap(old0), spec) {
      var j :| 0 <= j < |old0| && old0[j] == slot;
      assert SlotFor(old0[j], oldList[j], cells);
    }
  }

  lemma RebuiltSlotsFor(old0: seq<PollSlot>, oldList: seq<ServerSpec>, cells: seq<ServerSpec>, list: seq<ServerSpec>)
    requires SlotsFor(old0, oldList, cells) && DistinctKeys(oldList) && DistinctKeys(list)
    ensures SlotsFor(Rebuilt(SlotMap(old0), list, |cells|), list, cells + NewCells(SlotMap(old0), list))
  {
    assert DistinctSlots(old0);
    forall i | 0 <= i < |list|
      ensures SlotFor(Rebuilt(SlotMap(old0), list, |cells|)[i], list[i], cells + NewCells(SlotMap(old0), list))
    {
      RebuiltServes(SlotMap(old0), list, |cells|, i);
      ServedSlotFor(Rebuilt(SlotMap(old0), list, |cells|)[i], list[i], old0, oldList, cells, NewCells(SlotMap(old0), list));
    }
  }

  lemma SetsAtStart(list: ServerList, defaultSelected: string)
    requires ValidSet(list.monitored)
    ensures SetsAgree(Initial(list, defaultSelected))
  {
    RebuiltSlotsFor([], [], [], list.monitored);
  }

  lemma SetsTakeStep(w: World)
    requires SetsAgree(w) && w.commands != []
    ensures SetsAgree(Next(w, TakeCommand))
  {
    var g := w.worker.generation;
    assert w.commands[0] == SetServers(g + 1, w.log.sets[g + 1]);
    RebuiltSlotsFor(w.worker.servers, w.log.sets[g], w.worker.cells, w.log.sets[g + 1]);
  }

  predicate ByApp(step: Step) {
    step.Sync? || step.Choose?
  }

  /** The app keeps its list and generation, or moves both and says so. */
  predicate SetsMoved(a: AppState, moved: (AppState, Outbox)) {
    if moved.1.commands == [] then moved.0.serverList == a.serverList && moved.0.llmGeneration == a.llmGeneration
    else
      && moved.0.llmGeneration == a.llmGeneration + 1 && ValidSet(moved.0.serverList)
      && moved.1.commands == [SetServers(a.llmGeneration + 1, moved.0.serverList)]
  }

  lemma SetsMovedStep(w: World, moved: (AppState, Outbox))
    requires SetsAgree(w) && SetsMoved(w.app, moved)
    ensures SetsAgree(AppMoved(w, moved))
  {
  }

  lemma SetsAppStep(w: World, step: Step)
    requires SetsAgree(w) && Enabled(w, step) && ByApp(step)
    ensures SetsAgree(Next(w, step))
  {
    match step
    case Sync(next) => SetsMovedStep(w, Synced(w.app, next));
    case Choose(highlighted) => SetsMovedStep(w, Chosen(w.app, highlighted));
    case _ =>
  }

  lemma SetsOtherStep(w: World, step: Step)
    requires SetsAgree(w) && Enabled(w, step) && !step.TakeCommand? && !ByApp(step)
    ensures SetsAgree(Next(w, step))
  {
  }

  lemma SetsStep(w: World, step: Step)
    requires SetsAgree(w) && Enabled(w, step)
    ensures SetsAgree(Next(w, step))
  {
    if step.TakeCommand? {
      SetsTakeStep(w);
    } else if ByApp(step) {
      SetsAppStep(w, step);
    } else {
      SetsOtherStep(w, step);
    }
  }

  // ---------------------------------------------------------------------
  // One poll at a time
  // ---------------------------------------------------------------------

  /** A flag is set exactly when one live thread holds it. */
  ghost predicate FlagsHeld(flags: set<nat>, threads: map<nat, PollThread>) {
    && (forall t :: t in threads ==> threads[t].cell in flags)
    && (forall c :: c in flags ==> exists t :: t in threads && threads[t].cell == c)
    && (forall t, u :: t in threads && u in threads && threads[t].cell == threads[u].cell ==> t == u)
  }

  /** A monitor mutex is held exactly by the thread polling its cell. */
  ghost predicate MutexesHeld(locks: map<nat, nat>, threads: map<nat, PollThread>) {
    && (forall c :: c in locks ==>
          locks[c] in threads && threads[locks[c]].cell == c && Holding(threads[locks[c]].phase))
    && (forall t :: t in threads && Holding(threads[t].phase) ==>
          threads[t].cell in locks && locks[threads[t].cell] == t)
  }

  ghost predicate Exclusive(p: Pool) {
    && FlagsHeld(p.flags, p.threads)
    && MutexesHeld(p.locks, p.threads)
    && forall t :: t in p.threads ==> t < p.nextThread
  }

  lemma ClaimExclusive(p: Pool, slot: PollSlot, generation: nat)
    requires Exclusive(p)
    ensures Exclusive(Claimed(p, slot, generation))
  {
    var q := Claimed(p, slot, generation);
    if slot.cell !in p.flags {
      assert q.threads[p.nextThread].cell == slot.cell;
      forall c | c in q.flags
        ensures exists t :: t in q.threads && q.threads[t].cell == c
      {
        if c in p.flags {
          var t :| t in p.threads && p.threads[t].cell == c;
          assert t in q.threads && q.threads[t].cell == c;
        }
      }
    }
  }

  lemma RephaseFlags(flags: set<nat>, threads: map<nat, PollThread>, t: nat, phase: ThreadPhase)
    requires FlagsHeld(flags, threads) && t in threads
    ensures FlagsHeld(flags, threads[t := threads[t].(phase := phase)])
  {
    var after := threads[t := threads[t].(phase := phase)];
    assert forall u :: u in threads ==> after[u].cell == threads[u].cell;
    forall c | c in flags
      ensures exists u :: u in after && after[u].cell == c
    {
      var u :| u in threads && threads[u].cell == c;
      assert u in after;
    }
  }

  lemma PhaseMutexes(p: Pool, t: nat, phase: ThreadPhase)
    requires Exclusive(p) && t in p.threads && Holding(phase)
    requires p.threads[t].cell in p.locks ==> p.locks[p.threads[t].cell] == t
    ensures MutexesHeld(p.locks[p.threads[t].cell := t], p.threads[t := p.threads[t].(phase := phase)])
  {
  }

  /** Moving a thread to a phase that holds its mutex. */
  lemma PhaseHolds(p: Pool, t: nat, phase: ThreadPhase)
    requires Exclusive(p) && t in p.threads && Holding(phase)
    requires p.threads[t].cell in p.locks ==> p.locks[p.threads[t].cell] == t
    ensures Exclusive(WithPhase(p, t, phase).(locks := p.locks[p.threads[t].cell := t]))
  {
    RephaseFlags(p.flags, p.threads, t, phase);
    PhaseMutexes(p, t, phase);
  }

  lemma ReleaseMutexes(p: Pool, t: nat)
    requires Exclusive(p) && t in p.threads
    ensures MutexesHeld(if Holding(p.threads[t].phase) then p.locks - {p.threads[t].cell} else p.locks,
                        p.threads[t := p.threads[t].(phase := Released)])
  {
  }

  lemma ReleaseExclusive(p: Pool, t: nat)
    requires Exclusive(p) && t in p.threads
    ensures Exclusive(WithPhase(p, t, Released)
      .(locks := if Holding(p.threads[t].phase) then p.locks - {p.threads[t].cell} else p.locks))
  {
    RephaseFlags(p.flags, p.threads, t, Released);
    ReleaseMutexes(p, t);
  }

  lemma FinishExclusive(p: Pool, t: nat)
    requires Exclusive(p) && t in p.threads && p.threads[t].phase.Released?
    ensures Exclusive(p.(flags := p.flags - {p.threads[t].cell}, threads := p.threads - {t}))
  {
    var q := p.(flags := p.flags - {p.threads[t].cell}, threads := p.threads - {t});
    forall c | c in q.flags
      ensures exists u :: u in q.threads && q.threads[u].cell == c
    {
      var u :| u in p.threads && p.threads[u].cell == c;
      assert u in q.threads;
    }
  }

  lemma ExclusiveStep(w: World, step: Step)
    requires Exclusive(w.pool) && Enabled(w, step)
    ensures Exclusive(Next(w, step).pool)
  {
    match step
    case Claim(slot) => ClaimExclusive(w.pool, w.worker.servers[slot], w.worker.generation);
    case Lock(t) => PhaseHolds(w.pool, t, Locked);
    case Sample(t, poll) =>
      assert w.pool.locks[w.pool.threads[t].cell := t] == w.pool.locks;
      PhaseHolds(w.pool, t, Sampled(Produced(w, t, poll)));
    case Send(t) =>
      assert w.pool.locks[w.pool.threads[t].cell := t] == w.pool.locks;
      PhaseHolds(w.pool, t, Sent);
    case Release(t) => ReleaseExclusive(w.pool, t);
    case Finish(t) => FinishExclusive(w.pool, t);
    case _ =>
  }

  // ---------------------------------------------------------------------
  // Where samples come from
  // ---------------------------------------------------------------------

  /** A sample names the server of the monitor that produced it, and that
      monitor served the set the sample is tagged with. */
  predicate Tagged(s: LlmSample, sets: seq<seq<ServerSpec>>, cells: seq<ServerSpec>) {
    && s.generation < |sets| && s.origin.spec in sets[s.generation]
    && s.server == s.origin.spec.key
    && s.origin.cell < |cells| && cells[s.origin.cell] == s.origin.spec
  }

  predicate FromProduced(s: LlmSample, produced: seq<LlmSample>) {
    s.origin.serial < |produced| && produced[s.origin.serial] == s
  }

  predicate ThreadAgrees(t: PollThread, worker: WorkerState, log: Log) {
    && t.cell < |worker.cells| && t.generation <= worker.generation < |log.sets|
    && worker.cells[t.cell] in log.sets[t.generation]
    && (t.phase.Sampled? ==> FromProduced(t.phase.sample, log.produced) && t.phase.sample.origin.cell == t.cell)
  }

  predicate OriginsAgree(w: World) {
    && (forall t :: t in w.pool.threads ==> ThreadAgrees(w.pool.threads[t], w.worker, w.log))
    && (forall i :: 0 <= i < |w.log.produced| ==>
          w.log.produced[i].origin.serial == i && Tagged(w.log.produced[i], w.log.sets, w.worker.cells))
  }

  /** What was ever recorded stays recorded. */
  lemma LogGrows(w: World, step: Step)
    requires SetsAgree(w) && Enabled(w, step)
    ensures var v := Next(w, step);
      && w.worker.cells <= v.worker.cells && w.log.sets <= v.log.sets && w.log.produced <= v.log.produced
      && w.worker.generation <= v.worker.generation
  {
  }

  lemma TaggedGrows(s: LlmSample, sets: seq<seq<ServerSpec>>, cells: seq<ServerSpec>,
    moreSets: seq<seq<ServerSpec>>, moreCells: seq<ServerSpec>)
    requires Tagged(s, sets, cells) && sets <= moreSets && cells <= moreCells
    ensures Tagged(s, moreSets, moreCells)
  {
  }

  /** A poll tags its sample with what its thread was spawned for. */
  lemma ProducedIsTagged(w: World, t: nat, poll: Poll)
    requires OriginsAgree(w) && Enabled(w, Sample(t, poll))
    ensures Tagged(Produced(w, t, poll), w.log.sets, w.worker.cells)
    ensures Produced(w, t, poll).origin.serial == |w.log.produced|
  {
    assert ThreadAgrees(w.pool.threads[t], w.worker, w.log);
  }

  lemma ProducedAfter(w: World, step: Step)
    requires Enabled(w, step)
    ensures Next(w, step).log.produced ==
      if step.Sample? then w.log.produced + [Produced(w, step.thread, step.poll)] else w.log.produced
  {
  }

  lemma SerialsStep(w: World, step: Step, i: nat)
    requires SetsAgree(w) && OriginsAgree(w) && Enabled(w, step) && i < |Next(w, step).log.produced|
    ensures var v := Next(w, step); v.log.produced[i].origin.serial == i && Tagged(v.log.produced[i], v.log.sets, v.worker.cells)
  {
    ProducedAfter(w, step);
    LogGrows(w, step);
    if i == |w.log.produced| {
      ProducedIsTagged(w, step.thread, step.poll);
    }
    TaggedGrows(Next(w, step).log.produced[i], w.log.sets, w.worker.cells, Next(w, step).log.sets, Next(w, step).worker.cells);
  }

  /** A thread has the phase it had, or the one of its own poll. */
  predicate SampleStays(was: ThreadPhase, now: ThreadPhase, polled: Option<LlmSample>) {
    now.Sampled? ==> now == was || polled == Some(now.sample)
  }

  /** The thread as it was before the step, unless the step spawned it. */
  lemma ThreadBefore(w: World, step: Step, t: nat)
    requires Exclusive(w.pool) && Enabled(w, step) && t in Next(w, step).pool.threads
    ensures var after := Next(w, step).pool.threads[t];
      if t in w.pool.threads then
        && after.cell == w.pool.threads[t].cell && after.generation == w.pool.threads[t].generation
        && SampleStays(w.pool.threads[t].phase, after.phase,
             if step.Sample? && step.thread == t then Some(Produced(w, t, step.poll)) else None)
      else step.Claim? && after == PollThread(w.worker.servers[step.slot].cell, w.worker.generation, Spawned)
  {
  }

  lemma ThreadGrows(t: PollThread, u: PollThread, worker: WorkerState, log: Log, moreWorker: WorkerState, moreLog: Log)
    requires t.cell < |worker.cells| && t.generation <= worker.generation < |log.sets| && worker.cells[t.cell] in log.sets[t.generation]
    requires u.cell == t.cell && u.generation == t.generation
    requires u.phase.Sampled? ==> FromProduced(u.phase.sample, moreLog.produced) && u.phase.sample.origin.cell == u.cell
    requires worker.cells <= moreWorker.cells && log.sets <= moreLog.sets
    requires worker.generation <= moreWorker.generation < |moreLog.sets|
    ensures ThreadAgrees(u, moreWorker, moreLog)
  {
  }

  lemma ClaimedThreadAgrees(w: World, slot: nat)
    requires SetsAgree(w) && slot < |w.worker.servers|
    ensures ThreadAgrees(PollThread(w.worker.servers[slot].cell, w.worker.generation, Spawned), w.worker, w.log)
  {
    var g := w.worker.generation;
    assert SlotFor(w.worker.servers[slot], w.log.sets[g][slot], w.worker.cells);
  }

  lemma ThreadStep(w: World, step: Step, t: nat)
    requires SetsAgree(w) && OriginsAgree(w) && Exclusive(w.pool) && Enabled(w, step) && t in Next(w, step).pool.threads
    requires Next(w, step).worker.generation < |Next(w, step).log.sets|
    ensures ThreadAgrees(Next(w, step).pool.threads[t], Next(w, step).worker, Next(w, step).log)
  {
    var v := Next(w, step);
    ThreadBefore(w, step, t);
    LogGrows(w, step);
    if t in w.pool.threads {
      assert ThreadAgrees(w.pool.threads[t], w.worker, w.log);
      ProducedAfter(w, step);
      if step.Sample? && step.thread == t {
        ProducedIsTagged(w, t, step.poll);
      }
      ThreadGrows(w.pool.threads[t], v.pool.threads[t], w.worker, w.log, v.worker, v.log);
    } else {
      ClaimedThreadAgrees(w, step.slot);
      ThreadGrows(v.pool.threads[t], v.pool.threads[t], w.worker, w.log, v.worker, v.log);
    }
  }

  lemma OriginsStep(w: World, step: Step)
    requires SetsAgree(w) && OriginsAgree(w) && Exclusive(w.pool) && Enabled(w, step)
    ensures OriginsAgree(Next(w, step))
  {
    SetsStep(w, step);
    var v := Next(w, step);
    forall i | 0 <= i < |v.log.produced|
      ensures v.log.produced[i].origin.serial == i && Tagged(v.log.produced[i], v.log.sets, v.worker.cells)
    {
      SerialsStep(w, step, i);
    }
    forall t | t in v.pool.threads
      ensures ThreadAgrees(v.pool.threads[t], v.worker, v.log)
    {
      ThreadStep(w, step, t);
    }
  }

  // ---------------------------------------------------------------------
  // Order and conservation
  // ---------------------------------------------------------------------

  predicate SameSlot(a: LlmSample, b: LlmSample) {
    a.origin.cell == b.origin.cell
  }

  /** Of two samples of one slot the first was produced first. */
  predicate InFront(a: LlmSample, b: LlmSample) {
    SameSlot(a, b) ==> a.origin.serial < b.origin.serial
  }

  /** Samples of one slot appear in production order, each once. */
  predicate InOrder(s: seq<LlmSample>) {
    forall i, j :: 0 <= i < j < |s| ==> InFront(s[i], s[j])
  }

  /** `a` is `b` with some elements left out. */
  ghost predicate IsSubsequence<T>(a: seq<T>, b: seq<T>)
    decreases |b|
  {
    || a == []
    || (b != [] && IsSubsequence(a, b[..|b| - 1]))
    || (b != [] && a[|a| - 1] == b[|b| - 1] && IsSubsequence(a[..|a| - 1], b[..|b| - 1]))
  }

  predicate PendingAfter(p: Pool, flow: seq<LlmSample>) {
    forall t, i :: t in p.threads && p.threads[t].phase.Sampled? && 0 <= i < |flow| ==>
      InFront(flow[i], p.threads[t].phase.sample)
  }

  /** Everything sent to the worker so far. */
  function Flow(w: World): seq<LlmSample> {
    w.log.taken + w.inner
  }

  predicate FlowAgrees(w: World) {
    && InOrder(Flow(w))
    && (forall i :: 0 <= i < |Flow(w)| ==> FromProduced(Flow(w)[i], w.log.produced))
    && PendingAfter(w.pool, Flow(w))
  }

  /** Every sample taken off the inner channel was delivered, is queued, or was
      dropped and counted. */
  ghost predicate Conserved(w: World) {
    && |w.outer.queue| <= MAX_MONITORED_SERVERS
    && |w.log.dropped| == w.outer.drops
    && multiset(w.log.taken) == multiset(w.log.delivered) + multiset(w.outer.queue) + multiset(w.log.dropped)
    && IsSubsequence(w.log.delivered + w.outer.queue, w.log.taken)
  }

  lemma FlowStep(w: World, step: Step)
    requires SetsAgree(w) && OriginsAgree(w) && Exclusive(w.pool) && FlowAgrees(w) && Enabled(w, step)
    ensures FlowAgrees(Next(w, step))
  {
    if step.Send? {
      FlowSendStep(w, step.thread);
    } else {
      FlowOtherStep(w, step);
    }
  }

  lemma FlowAfter(w: World, step: Step)
    requires Enabled(w, step)
    ensures Flow(Next(w, step)) ==
      if step.Send? then Flow(w) + [w.pool.threads[step.thread].phase.sample] else Flow(w)
  {
    if step.Send? {
      assert Flow(Next(w, step)) == Flow(w) + [w.pool.threads[step.thread].phase.sample];
    } else {
      assert Flow(Next(w, step)) == Flow(w);
    }
  }

  lemma ThreadsAfterSend(w: World, t: nat, u: nat)
    requires Enabled(w, Send(t)) && u in w.pool.threads
    ensures u in Next(w, Send(t)).pool.threads
    ensures Next(w, Send(t)).pool.threads[u].phase == if u == t then Sent else w.pool.threads[u].phase
    ensures Next(w, Send(t)).log.produced == w.log.produced
    ensures Next(w, Send(t)).pool.threads.Keys == w.pool.threads.Keys
  {
  }

  /** No other thread waits to send a sample of the same slot. */
  lemma OthersWaitElsewhere(w: World, t: nat, u: nat)
    requires OriginsAgree(w) && Exclusive(w.pool) && Enabled(w, Send(t))
    requires u in w.pool.threads && u != t && w.pool.threads[u].phase.Sampled?
    ensures !SameSlot(w.pool.threads[t].phase.sample, w.pool.threads[u].phase.sample)
  {
    assert ThreadAgrees(w.pool.threads[t], w.worker, w.log);
    assert ThreadAgrees(w.pool.threads[u], w.worker, w.log);
  }

  lemma PendingFrame(p: Pool, q: Pool, t: nat, flow: seq<LlmSample>, sent: LlmSample)
    requires PendingAfter(p, flow) && q.threads.Keys == p.threads.Keys
    requires forall u :: u in p.threads ==> q.threads[u].phase == if u == t then Sent else p.threads[u].phase
    requires forall u :: u in p.threads && u != t && p.threads[u].phase.Sampled? ==> InFront(sent, p.threads[u].phase.sample)
    ensures PendingAfter(q, flow + [sent])
  {
  }

  lemma SendKeepsPending(w: World, t: nat)
    requires OriginsAgree(w) && Exclusive(w.pool) && FlowAgrees(w) && Enabled(w, Send(t))
    ensures PendingAfter(Next(w, Send(t)).pool, Flow(w) + [w.pool.threads[t].phase.sample])
  {
    ThreadsAfterSend(w, t, t);
    forall u | u in w.pool.threads
      ensures Next(w, Send(t)).pool.threads[u].phase == if u == t then Sent else w.pool.threads[u].phase
    {
      ThreadsAfterSend(w, t, u);
    }
    forall u | u in w.pool.threads && u != t && w.pool.threads[u].phase.Sampled?
      ensures InFront(w.pool.threads[t].phase.sample, w.pool.threads[u].phase.sample)
    {
      OthersWaitElsewhere(w, t, u);
    }
    PendingFrame(w.pool, Next(w, Send(t)).pool, t, Flow(w), w.pool.threads[t].phase.sample);
  }

  lemma AppendInOrder(flow: seq<LlmSample>, sample: LlmSample)
    requires InOrder(flow)
    requires forall i :: 0 <= i < |flow| ==> InFront(flow[i], sample)
    ensures InOrder(flow + [sample])
  {
  }

  lemma SentInOrder(w: World, t: nat)
    requires OriginsAgree(w) && FlowAgrees(w) && Enabled(w, Send(t))
    ensures InOrder(Flow(w) + [w.pool.threads[t].phase.sample])
    ensures FromProduced(w.pool.threads[t].phase.sample, w.log.produced)
  {
    assert ThreadAgrees(w.pool.threads[t], w.worker, w.log);
    AppendInOrder(Flow(w), w.pool.threads[t].phase.sample);
  }

  lemma FlowSendStep(w: World, t: nat)
    requires OriginsAgree(w) && Exclusive(w.pool) && FlowAgrees(w) && Enabled(w, Send(t))
    ensures FlowAgrees(Next(w, Send(t)))
  {
    FlowAfter(w, Send(t));
    SendKeepsPending(w, t);
    SentInOrder(w, t);
    ThreadsAfterSend(w, t, t);
  }

  lemma WaitingStep(w: World, step: Step, t: nat, i: nat)
    requires OriginsAgree(w) && Exclusive(w.pool) && FlowAgrees(w) && Enabled(w, step)
    requires t in Next(w, step).pool.threads && Next(w, step).pool.threads[t].phase.Sampled? && i < |Flow(w)|
    ensures InFront(Flow(w)[i], Next(w, step).pool.threads[t].phase.sample)
  {
    ThreadBefore(w, step, t);
    assert FromProduced(Flow(w)[i], w.log.produced);
  }

  lemma FlowOtherStep(w: World, step: Step)
    requires SetsAgree(w) && OriginsAgree(w) && Exclusive(w.pool) && FlowAgrees(w) && Enabled(w, step) && !step.Send?
    ensures FlowAgrees(Next(w, step))
  {
    var v := Next(w, step);
    FlowAfter(w, step);
    LogGrows(w, step);
    forall t, i | t in v.pool.threads && v.pool.threads[t].phase.Sampled? && 0 <= i < |Flow(v)|
      ensures InFront(Flow(v)[i], v.pool.threads[t].phase.sample)
    {
      WaitingStep(w, step, t, i);
    }
  }

  lemma ConservedForward(w: World)
    requires Conserved(w) && w.inner != []
    ensures Conserved(Next(w, Forward))
  {
    var v := Next(w, Forward);
    assert v.log.taken[..|w.log.taken|] == w.log.taken;
    if |w.outer.queue| < MAX_MONITORED_SERVERS {
      var kept := v.log.delivered + v.outer.queue;
      assert kept == w.log.delivered + w.outer.queue + [w.inner[0]];
      assert kept[..|kept| - 1] == w.log.delivered + w.outer.queue;
    }
  }

  lemma ConservedReceive(w: World, now: Instant)
    requires Conserved(w) && Enabled(w, ReceiveLlm(now))
    ensures Conserved(Next(w, ReceiveLlm(now)))
  {
    var v := Next(w, ReceiveLlm(now));
    assert w.outer.queue == [w.outer.queue[0]] + w.outer.queue[1..];
    assert v.log.delivered + v.outer.queue == w.log.delivered + w.outer.queue;
  }

  lemma ConservedStep(w: World, step: Step)
    requires Conserved(w) && Enabled(w, step)
    ensures Conserved(Next(w, step))
  {
    match step
    case Forward => ConservedForward(w);
    case ReceiveLlm(now) => ConservedReceive(w, now);
    case _ =>
  }

  // ---------------------------------------------------------------------
  // GPU attribution
  // ---------------------------------------------------------------------

  /** Every mapping on its way to the screen is stamped with a generation whose
      published identity it was computed for. */
  predicate MappingsAgree(w: World) {
    && |w.log.published| == w.app.mappingGeneration + 1
    && w.log.published[w.app.mappingGeneration] == SelectedIdentityOf(w.app.serverList, w.app.selected)
    && w.fast.generation < |w.log.published|
    && w.fast.identity == w.log.published[w.fast.generation]
    && MappingFor(w.fast.gpuMap, w.fast.identity)
    && |w.identities| == w.app.mappingGeneration - w.fast.generation
    && (forall i :: 0 <= i < |w.identities| ==>
          w.identities[i] == IdentityUpdate(w.fast.generation + 1 + i, w.log.published[w.fast.generation + 1 + i]))
    && |w.fastOuter.queue| <= FAST_CAPACITY
    && (forall i :: 0 <= i < |w.fastOuter.queue| ==>
          && w.fastOuter.queue[i].mappingGeneration < |w.log.published|
          && MappingFor(w.fastOuter.queue[i].gpuMap, w.log.published[w.fastOuter.queue[i].mappingGeneration]))
    && MappingFor(w.app.gpuMap, SelectedIdentityOf(w.app.serverList, w.app.selected))
  }

  /** The app keeps its selection's identity and mapping generation, or
      publishes the new identity and clears the mapping. */
  predicate MappingMoved(a: AppState, moved: (AppState, Outbox)) {
    var identity := SelectedIdentityOf(moved.0.serverList, moved.0.selected);
    if moved.1.identities == [] then
      && moved.0.mappingGeneration == a.mappingGeneration && moved.0.gpuMap == a.gpuMap
      && identity == SelectedIdentityOf(a.serverList, a.selected)
    else
      && moved.0.mappingGeneration == a.mappingGeneration + 1 && moved.0.gpuMap == NoMapping
      && moved.1.identities == [IdentityUpdate(a.mappingGeneration + 1, identity)]
  }

  lemma MappingsMovedStep(w: World, moved: (AppState, Outbox))
    requires MappingsAgree(w) && MappingMoved(w.app, moved)
    ensures MappingsAgree(AppMoved(w, moved))
  {
    assert w.log.published <= AppMoved(w, moved).log.published;
  }

  lemma MappingsAppStep(w: World, step: Step)
    requires MappingsAgree(w) && Enabled(w, step) && ByApp(step)
    ensures MappingsAgree(Next(w, step))
  {
    match step
    case Sync(next) => MappingsMovedStep(w, Synced(w.app, next));
    case Choose(highlighted) => MappingsMovedStep(w, Chosen(w.app, highlighted));
    case _ =>
  }

  predicate ByFastWorker(step: Step) {
    step.TakeIdentity? || step.ScanGpus? || step.PublishFast?
  }

  lemma MappingsFastStep(w: World, step: Step)
    requires MappingsAgree(w) && Enabled(w, step) && ByFastWorker(step)
    ensures MappingsAgree(Next(w, step))
  {
  }

  lemma MappingsReceiveStep(w: World)
    requires MappingsAgree(w) && Enabled(w, ReceiveFast)
    ensures MappingsAgree(Next(w, ReceiveFast))
  {
  }

  lemma MappingsOtherStep(w: World, step: Step)
    requires MappingsAgree(w) && Enabled(w, step) && !ByApp(step) && !ByFastWorker(step) && !step.ReceiveFast?
    ensures MappingsAgree(Next(w, step))
  {
  }

  lemma MappingsStep(w: World, step: Step)
    requires MappingsAgree(w) && Enabled(w, step)
    ensures MappingsAgree(Next(w, step))
  {
    if ByApp(step) {
      MappingsAppStep(w, step);
    } else if ByFastWorker(step) {
      MappingsFastStep(w, step);
    } else if step.ReceiveFast? {
      MappingsReceiveStep(w);
    } else {
      MappingsOtherStep(w, step);
    }
  }

  // ---------------------------------------------------------------------
  // Every reachable state
  // ---------------------------------------------------------------------

  ghost predicate Invariant(w: World) {
    && SetsAgree(w)
    && Exclusive(w.pool)
    && OriginsAgree(w)
    && FlowAgrees(w)
    && Conserved(w)
    && MappingsAgree(w)
    && AppAgrees(w.app)
  }

  lemma AppStep(w: World, step: Step)
    requires AppAgrees(w.app) && Enabled(w, step)
    ensures AppAgrees(Next(w, step).app)
  {
    match step
    case Sync(next) => SyncedAgrees(w.app, next);
    case Choose(highlighted) => ChosenAgrees(w.app, highlighted);
    case ReceiveLlm(now) => LlmAppliedAgrees(w.app, w.outer.queue[0], now);
    case _ =>
  }

  lemma InvariantStep(w: World, step: Step)
    requires Invariant(w) && Enabled(w, step)
    ensures Invariant(Next(w, step))
  {
    SetsStep(w, step);
    ExclusiveStep(w, step);
    OriginsStep(w, step);
    FlowStep(w, step);
    ConservedStep(w, step);
    MappingsStep(w, step);
    AppStep(w, step);
  }

  lemma QuietAtStart(list: ServerList, defaultSelected: string)
    ensures Exclusive(Initial(list, defaultSelected).pool) && OriginsAgree(Initial(list, defaultSelected))
  {
  }

  lemma EmptyAtStart(list: ServerList, defaultSelected: string)
    ensures FlowAgrees(Initial(list, defaultSelected)) && Conserved(Initial(list, defaultSelected))
  {
  }

  lemma MappingsAtStart(list: ServerList, defaultSelected: string)
    ensures MappingsAgree(Initial(list, defaultSelected))
  {
  }

  lemma AppAtStart(list: ServerList, defaultSelected: string)
    requires ValidSet(list.monitored)
    ensures AppAgrees(Initial(list, defaultSelected).app)
  {
    StartedAgrees(list, defaultSelected);
  }

  lemma InvariantAtStart(list: ServerList, defaultSelected: string)
    requires ValidSet(list.monitored)
    ensures Invariant(Initial(list, defaultSelected))
  {
    SetsAtStart(list, defaultSelected);
    QuietAtStart(list, defaultSelected);
    EmptyAtStart(list, defaultSelected);
    MappingsAtStart(list, defaultSelected);
    AppAtStart(list, defaultSelected);
  }

  lemma {:induction false} InvariantAlways(states: seq<World>, steps: seq<Step>, i: nat)
    requires IsRun(states, steps) && i < |states|
    ensures Invariant(states[i])
  {
    if i == 0 {
      var list: ServerList, defaultSelected: string :|
        ValidSet(list.monitored) && states[0] == Initial(list, defaultSelected);
      InvariantAtStart(list, defaultSelected);
    } else {
      InvariantAlways(states, steps, i - 1);
      InvariantStep(states[i - 1], steps[i - 1]);
    }
  }

  // ---------------------------------------------------------------------
  // What runs guarantee
  // ---------------------------------------------------------------------

  /** Session isolation: whatever the interleaving of set changes, restarts
      and polls in flight, an applied sample comes from a monitor built for
      exactly the current entry of its server, and a sample of the current
      generation is never turned away. */
  lemma SessionIsolation(states: seq<World>, steps: seq<Step>, i: nat)
    requires IsRun(states, steps) && i < |steps| && steps[i].ReceiveLlm?
    ensures var sample, app := states[i].outer.queue[0], states[i].app;
      && (Accepts(app, sample) <==> sample.generation == app.llmGeneration)
      && (Accepts(app, sample) ==>
            && EntryOf(app.serverList, sample.server) == Some(sample.origin.spec)
            && states[i + 1].app.registry == app.registry[sample.server := sample.stats])
      && (!Accepts(app, sample) ==> states[i + 1].app == app)
  {
    var w := states[i];
    InvariantAlways(states, steps, i);
    var sample := w.outer.queue[0];
    assert sample in multiset(w.outer.queue);
    assert sample in multiset(w.log.taken);
    var n :| 0 <= n < |w.log.taken| && w.log.taken[n] == sample;
    assert Flow(w)[n] == sample;
    if sample.generation == w.app.llmGeneration {
      var k :| 0 <= k < |w.app.serverList| && w.app.serverList[k] == sample.origin.spec;
      EntryOfMember(w.app.serverList, k);
      EndpointMapIs(w.app.serverList);
    }
  }

  lemma LockIsFree(w: World, t: nat)
    requires Exclusive(w.pool) && OriginsAgree(w) && t in w.pool.threads && w.pool.threads[t].phase.Spawned?
    ensures Enabled(w, Lock(t))
  {
    assert ThreadAgrees(w.pool.threads[t], w.worker, w.log);
  }

  lemma FlagsAreThreads(p: Pool)
    requires FlagsHeld(p.flags, p.threads)
    ensures forall c :: c in p.flags <==> exists t :: t in p.threads && p.threads[t].cell == c
  {
  }

  /** Poll exclusion: a flag is set exactly when one live poll thread holds it,
      and a poll thread about to lock its monitor always finds it free. */
  lemma PollExclusion(states: seq<World>, steps: seq<Step>, i: nat)
    requires IsRun(states, steps) && i < |states|
    ensures var p := states[i].pool;
      && (forall c :: c in p.flags <==> exists t :: t in p.threads && p.threads[t].cell == c)
      && (forall t, u :: t in p.threads && u in p.threads && p.threads[t].cell == p.threads[u].cell ==> t == u)
      && (forall t :: t in p.threads && p.threads[t].phase.Spawned? ==> Enabled(states[i], Lock(t)))
  {
    InvariantAlways(states, steps, i);
    FlagsAreThreads(states[i].pool);
    forall t | t in states[i].pool.threads && states[i].pool.threads[t].phase.Spawned?
      ensures Enabled(states[i], Lock(t))
    {
      LockIsFree(states[i], t);
    }
  }

  predicate ServedBefore(slots: seq<PollSlot>, spec: ServerSpec) {
    exists j :: 0 <= j < |slots| && slots[j].spec == spec
  }

  /** Looking a spec up by its key finds the slot that serves it. */
  lemma ReusableIsServed(slots: seq<PollSlot>, spec: ServerSpec)
    requires DistinctSlots(slots)
    ensures Reusable(SlotMap(slots), spec) <==> ServedBefore(slots, spec)
    ensures Reusable(SlotMap(slots), spec) ==> SlotMap(slots)[spec.key] in slots
  {
    SlotMapFinds(slots, spec.key);
    if j :| 0 <= j < |slots| && slots[j].spec == spec {
      var m :| 0 <= m < |slots| && slots[m] == SlotMap(slots)[spec.key];
      assert m == j;
    }
    if Reusable(SlotMap(slots), spec) {
      var m :| 0 <= m < |slots| && slots[m] == SlotMap(slots)[spec.key];
    }
  }

  /** A rebuilt slot is an old one exactly when its spec was served before. */
  lemma RebuiltKeeps(slot: PollSlot, spec: ServerSpec, slots: seq<PollSlot>, next: nat, created: seq<ServerSpec>)
    requires DistinctSlots(slots) && Serves(slot, spec, SlotMap(slots), next, created)
    requires forall j :: 0 <= j < |slots| ==> slots[j].cell < next
    ensures slot in slots <==> ServedBefore(slots, spec)
    ensures slot !in slots ==> slot.cell >= next
  {
    ReusableIsServed(slots, spec);
  }

  /** The worker polls exactly the servers of some generation the app adopted,
      and a set change keeps the cell (monitor and flag) of precisely the
      servers whose whole spec stays. */
  lemma ReconciledSlots(states: seq<World>, steps: seq<Step>, i: nat, k: nat)
    requires IsRun(states, steps) && i < |steps| && steps[i].TakeCommand?
    requires k < |states[i + 1].worker.servers|
    ensures var before, slot := states[i].worker, states[i + 1].worker.servers[k];
      && |states[i + 1].worker.servers| == |states[i].commands[0].servers|
      && slot.spec == states[i].commands[0].servers[k]
      && (ServedBefore(before.servers, slot.spec) <==> slot in before.servers)
      && (slot !in before.servers ==> slot.cell >= |before.cells|)
  {
    InvariantAlways(states, steps, i);
    TakenSlots(states[i], k);
  }

  lemma TakenSlots(w: World, k: nat)
    requires SetsAgree(w) && w.commands != [] && k < |w.commands[0].servers|
    ensures |Next(w, TakeCommand).worker.servers| == |w.commands[0].servers|
    ensures var slot := Next(w, TakeCommand).worker.servers[k];
      && slot.spec == w.commands[0].servers[k]
      && (ServedBefore(w.worker.servers, slot.spec) <==> slot in w.worker.servers)
      && (slot !in w.worker.servers ==> slot.cell >= |w.worker.cells|)
  {
    var list, slots := w.commands[0].servers, w.worker.servers;
    assert DistinctSlots(slots);
    forall j | 0 <= j < |slots|
      ensures slots[j].cell < |w.worker.cells|
    {
      assert SlotFor(slots[j], w.log.sets[w.worker.generation][j], w.worker.cells);
    }
    RebuiltServes(SlotMap(slots), list, |w.worker.cells|, k);
    RebuiltKeeps(Rebuilt(SlotMap(slots), list, |w.worker.cells|)[k], list[k], slots, |w.worker.cells|, NewCells(SlotMap(slots), list));
  }

  /** GPU-map agreement: a displayed mapping was computed for the process of
      the selected server, and attributes devices only if that scan read the
      process's own start time. */
  lemma GpuMapAgreement(states: seq<World>, steps: seq<Step>, i: nat)
    requires IsRun(states, steps) && i < |states|
    ensures var app := states[i].app;
      && (app.gpuMap.NoMapping? || SelectedIdentityOf(app.serverList, app.selected) == Some(app.gpuMap.scan.expected))
      && (app.gpuMap.Attributed? ==> app.gpuMap.scan.currentStart == Some(app.gpuMap.scan.expected.startTime))
  {
    InvariantAlways(states, steps, i);
  }

  /** App-state agreement. */
  lemma AppStateAgreement(states: seq<World>, steps: seq<Step>, i: nat)
    requires IsRun(states, steps) && i < |states|
    ensures var app := states[i].app;
      && app.order == Keys(app.serverList)
      && (forall k :: k in app.endpoints <==> HasKey(app.serverList, k))
      && (forall n :: 0 <= n < |app.serverList| ==> app.endpoints[app.serverList[n].key] == app.serverList[n].endpoint)
      && (forall k :: k in app.registry ==> HasKey(app.serverList, k))
      && HasKey(app.serverList, app.selected)
      && app.llm == (if app.selected in app.registry then app.registry[app.selected] else DEFAULT_STATS)
  {
    InvariantAlways(states, steps, i);
    EndpointMapIs(states[i].app.serverList);
  }
}
