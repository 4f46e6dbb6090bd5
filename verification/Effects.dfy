/** What single steps do, said outright: which server is selected, what is sent
    and queued, who is polled and when a mapping reaches the screen (src/app.rs,
    src/app/server.rs, src/app/loop_events.rs, src/app/workers.rs). */
module Effects {
  import opened Domain
  import opened Llama
  import opened Messages
  import opened AppLoop
  import opened AppFacts
  import opened Workers
  import opened Session

  lemma AppInRun(states: seq<World>, steps: seq<Step>, i: nat)
    requires IsRun(states, steps) && i < |states|
    ensures AppAgrees(states[i].app)
  {
    InvariantAlways(states, steps, i);
  }

  // ---------------------------------------------------------------------
  // The selection
  // ---------------------------------------------------------------------

  /** The app begins with the assembled set, the requested server if it is in
      the set and the first one otherwise, and that server's identity sent. */
  lemma StartsSelected(list: ServerList, requested: string)
    requires ValidSet(list.monitored)
    ensures var w := Initial(list, requested);
      && w.app.serverList == list.monitored && w.app.overflow == list.overflow && w.commands == []
      && w.app.selected == (if HasKey(list.monitored, requested) then requested else list.monitored[0].key)
      && EntryOf(list.monitored, w.app.selected).Some?
      && w.identities == [IdentityUpdate(1, EntryOf(list.monitored, w.app.selected).value.identity)]
      && w.app.llmGeneration == 0 && w.app.mappingGeneration == 1 && w.app.registry == map[]
  {
    EndpointMapIs(list.monitored);
    EntryOfHasKey(list.monitored, Initial(list, requested).app.selected);
  }

  /** The row under the highlight, the last row when the highlight is past it. */
  function Row(list: seq<ServerSpec>, highlighted: nat): ServerSpec
    requires list != []
  {
    list[if highlighted < |list| then highlighted else |list| - 1]
  }

  lemma ChosenIsRow(a: AppState, highlighted: nat)
    requires AppAgrees(a)
    ensures var row, moved := Row(a.serverList, highlighted), Chosen(a, highlighted);
      && EntryOf(a.serverList, row.key) == Some(row)
      && moved.0.selected == row.key && moved.0.llm == Registered(a.registry, row.key)
      && moved.1 == Outbox([], [IdentityUpdate(a.mappingGeneration + 1, row.identity)])
      && moved.0 == a.(selected := row.key, llm := moved.0.llm, ui := moved.0.ui,
                       mappingGeneration := a.mappingGeneration + 1, gpuMap := NoMapping)
  {
    EntryOfMember(a.serverList, if highlighted < |a.serverList| then highlighted else |a.serverList| - 1);
  }

  /** Enter in the selector selects the highlighted row, shows that server's
      latest sample or none, sends its identity under a new mapping generation
      and drops the old mapping; nothing else of the session changes. */
  lemma EnterSelectsRow(states: seq<World>, steps: seq<Step>, i: nat)
    requires IsRun(states, steps) && i < |steps| && steps[i].Choose?
    ensures var w, v := states[i], states[i + 1];
      && w.app.serverList != []
      && var row := Row(w.app.serverList, steps[i].highlighted);
         && v.app.selected == row.key
         && v.app.llm == (if row.key in w.app.registry then w.app.registry[row.key] else DEFAULT_STATS)
         && v.identities == w.identities + [IdentityUpdate(w.app.mappingGeneration + 1, row.identity)]
         && v.app.mappingGeneration == w.app.mappingGeneration + 1 && v.app.gpuMap == NoMapping
         && v.app.serverList == w.app.serverList && v.app.overflow == w.app.overflow
         && v.app.registry == w.app.registry && v.app.llmGeneration == w.app.llmGeneration && v.commands == w.commands
  {
    AppInRun(states, steps, i);
    ChosenIsRow(states[i].app, steps[i].highlighted);
  }

  // ---------------------------------------------------------------------
  // Set changes
  // ---------------------------------------------------------------------

  /** A set that stayed the same sends nothing and only replaces the overflow. */
  lemma SameSetIsQuiet(w: World, next: ServerList)
    requires Enabled(w, Sync(next)) && next.monitored == w.app.serverList
    ensures Next(w, Sync(next)) == w.(app := w.app.(overflow := next.overflow))
  {
  }

  lemma SyncedAdopts(a: AppState, next: ServerList)
    requires next.monitored != a.serverList
    ensures var moved := Synced(a, next);
      && moved.0.serverList == next.monitored && moved.0.overflow == next.overflow
      && moved.0.llmGeneration == a.llmGeneration + 1
      && moved.1.commands == [SetServers(a.llmGeneration + 1, next.monitored)]
  {
  }

  lemma SyncedReselects(a: AppState, next: ServerList)
    requires next.monitored != a.serverList && ValidSet(next.monitored)
    ensures var moved, list := Synced(a, next), next.monitored;
      && moved.0.selected == (if HasKey(list, a.selected) then a.selected else list[0].key)
      && EntryOf(list, moved.0.selected).Some?
      && moved.1.identities == [IdentityUpdate(a.mappingGeneration + 1, EntryOf(list, moved.0.selected).value.identity)]
      && moved.0.mappingGeneration == a.mappingGeneration + 1 && moved.0.gpuMap == NoMapping
  {
    EndpointMapIs(next.monitored);
    EntryOfHasKey(next.monitored, Synced(a, next).0.selected);
  }

  /** A changed set is adopted under the next generation and sent to the worker. */
  lemma ChangedSetIsAdopted(w: World, next: ServerList)
    requires Enabled(w, Sync(next)) && next.monitored != w.app.serverList
    ensures var v := Next(w, Sync(next));
      && v.app.serverList == next.monitored && v.app.overflow == next.overflow
      && v.app.llmGeneration == w.app.llmGeneration + 1
      && v.commands == w.commands + [SetServers(w.app.llmGeneration + 1, next.monitored)]
  {
    SyncedAdopts(w.app, next);
  }

  /** The selected server stays selected while it is in the set; otherwise the
      first takes its place. Its identity is sent and the old mapping dropped. */
  lemma ChangedSetReselects(w: World, next: ServerList)
    requires Enabled(w, Sync(next)) && next.monitored != w.app.serverList
    ensures var v, list := Next(w, Sync(next)), next.monitored;
      && list != []
      && v.app.selected == (if HasKey(list, w.app.selected) then w.app.selected else list[0].key)
      && EntryOf(list, v.app.selected).Some?
      && v.identities == w.identities + [IdentityUpdate(w.app.mappingGeneration + 1, EntryOf(list, v.app.selected).value.identity)]
      && v.app.mappingGeneration == w.app.mappingGeneration + 1 && v.app.gpuMap == NoMapping
  {
    SyncedReselects(w.app, next);
  }

  /** The latest samples of exactly the servers still in the set are kept. */
  lemma ChangedSetKeepsSamples(w: World, next: ServerList, key: string)
    requires Enabled(w, Sync(next)) && next.monitored != w.app.serverList
    ensures Lookup(Next(w, Sync(next)).app.registry, key) ==
      if HasKey(next.monitored, key) then Lookup(w.app.registry, key) else None
  {
    EndpointMapIs(next.monitored);
  }

  // ---------------------------------------------------------------------
  // Channels
  // ---------------------------------------------------------------------

  /** The worker queues a finished sample while fewer than sixteen wait, and
      otherwise drops it and counts it; what waits is never touched. */
  lemma ForwardQueuesOrCounts(w: World)
    requires w.inner != []
    ensures var v := Next(w, Forward);
      && v.inner == w.inner[1..]
      && (if |w.outer.queue| < 16 then v.outer.queue == w.outer.queue + [w.inner[0]] && v.outer.drops == w.outer.drops
          else v.outer.queue == w.outer.queue && v.outer.drops == w.outer.drops + 1)
  {
  }

  /** The fast worker stamps what it holds with the generation it is at, and
      queues it while fewer than two wait. */
  lemma PublishQueuesOrCounts(w: World)
    ensures var v := Next(w, PublishFast);
      if |w.fastOuter.queue| < 2 then
        && v.fastOuter.queue == w.fastOuter.queue + [FastSnapshot(w.fast.gpuMap, w.fast.generation)]
        && v.fastOuter.drops == w.fastOuter.drops
      else v.fastOuter.queue == w.fastOuter.queue && v.fastOuter.drops == w.fastOuter.drops + 1
  {
  }

  // ---------------------------------------------------------------------
  // GPU attribution
  // ---------------------------------------------------------------------

  /** A scan attributes the evidence exactly when the process still has the
      start time it was identified by and there is any evidence; otherwise the
      mapping is unknown, and without a process there is none. */
  lemma ScanAttributes(w: World, currentStart: Option<nat>, evidence: seq<string>)
    ensures var map0 := Next(w, ScanGpus(currentStart, evidence)).fast.gpuMap;
      match w.fast.identity
      case None => map0 == NoMapping
      case Some(e) =>
        && (map0 == Attributed(Scan(e, currentStart), evidence) <==> currentStart == Some(e.startTime) && evidence != [])
        && (map0 == Unknown(Scan(e, currentStart)) <==> currentStart != Some(e.startTime) || evidence == [])
  {
  }

  /** A new identity replaces the old one and its mapping. */
  lemma IdentityReplaces(w: World)
    requires w.identities != []
    ensures Next(w, TakeIdentity).fast == FastState(w.identities[0].generation, w.identities[0].identity, NoMapping)
    ensures Next(w, TakeIdentity).identities == w.identities[1..]
  {
  }

  /** A received snapshot shows its mapping exactly when it belongs to the present
      mapping generation; nothing else of the app changes. */
  lemma SnapshotShowsMapping(w: World)
    requires w.fastOuter.queue != []
    ensures var v, snapshot := Next(w, ReceiveFast), w.fastOuter.queue[0];
      && v.app.gpuMap == (if snapshot.mappingGeneration == w.app.mappingGeneration then snapshot.gpuMap else w.app.gpuMap)
      && v.app == w.app.(gpuMap := v.app.gpuMap)
      && v.fastOuter.queue == w.fastOuter.queue[1..]
  {
  }

  /** From scan to screen: published on an empty channel and received before
      the selection changes, evidence for the selected server's running process
      is what is displayed. */
  lemma AttributionReachesScreen(w: World, e: LocalServerIdentity, evidence: seq<string>)
    requires w.fast.identity == Some(e) && w.fast.generation == w.app.mappingGeneration
    requires w.fastOuter.queue == [] && evidence != []
    ensures var scanned := Next(w, ScanGpus(Some(e.startTime), evidence));
      var published := Next(scanned, PublishFast);
      && published.fastOuter.queue != []
      && Next(published, ReceiveFast).app.gpuMap == Attributed(Scan(e, Some(e.startTime)), evidence)
  {
    var scanned := Next(w, ScanGpus(Some(e.startTime), evidence));
    ScanAttributes(w, Some(e.startTime), evidence);
    PublishQueuesOrCounts(scanned);
    SnapshotShowsMapping(Next(scanned, PublishFast));
  }

  // ---------------------------------------------------------------------
  // Rounds of polls
  // ---------------------------------------------------------------------

  /** Threads `from` on are new, and one of them polls `cell`. */
  predicate NewlyPolled(p: Pool, from: nat, cell: nat, generation: nat) {
    exists t :: t in p.threads && from <= t && p.threads[t] == PollThread(cell, generation, Spawned)
  }

  predicate HasCell(slots: seq<PollSlot>, cell: nat) {
    exists k :: 0 <= k < |slots| && slots[k].cell == cell
  }

  /** What a round of claims does to the pool. */
  ghost predicate RoundDone(p: Pool, q: Pool, slots: seq<PollSlot>, generation: nat) {
    && p.nextThread <= q.nextThread && q.locks == p.locks
    && (forall cell :: cell in q.flags <==> cell in p.flags || HasCell(slots, cell))
    && (forall t :: t in p.threads ==> t in q.threads && q.threads[t] == p.threads[t])
    && (forall t :: t in q.threads && t !in p.threads ==>
          && p.nextThread <= t < q.nextThread && q.threads[t].generation == generation && q.threads[t].phase.Spawned?
          && q.threads[t].cell !in p.flags && HasCell(slots, q.threads[t].cell))
    && (forall cell :: HasCell(slots, cell) && cell !in p.flags ==> NewlyPolled(q, p.nextThread, cell, generation))
  }

  lemma ClaimOne(p: Pool, slot: PollSlot, generation: nat)
    requires forall t :: t in p.threads ==> t < p.nextThread
    ensures RoundDone(p, Claimed(p, slot, generation), [slot], generation)
    ensures forall t :: t in Claimed(p, slot, generation).threads ==> t < Claimed(p, slot, generation).nextThread
  {
    var q := Claimed(p, slot, generation);
    assert HasCell([slot], slot.cell) by {
      assert [slot][0].cell == slot.cell;
    }
    if slot.cell !in p.flags {
      assert q.threads[p.nextThread] == PollThread(slot.cell, generation, Spawned);
    }
  }

  lemma CellsSplit(slots: seq<PollSlot>, cell: nat)
    requires slots != []
    ensures HasCell(slots, cell) <==> slots[0].cell == cell || HasCell(slots[1..], cell)
  {
    if k :| 0 <= k < |slots[1..]| && slots[1..][k].cell == cell {
      assert slots[k + 1].cell == cell;
    }
    if k :| 0 <= k < |slots| && slots[k].cell == cell && k > 0 {
      assert slots[1..][k - 1].cell == cell;
    }
  }

  lemma NewlyPolledStays(p: Pool, q: Pool, from: nat, cell: nat, generation: nat)
    requires NewlyPolled(p, from, cell, generation)
    requires forall t :: t in p.threads ==> t in q.threads && q.threads[t] == p.threads[t]
    ensures NewlyPolled(q, from, cell, generation)
  {
    var t :| t in p.threads && from <= t && p.threads[t] == PollThread(cell, generation, Spawned);
    assert t in q.threads;
  }

  lemma NewlyPolledBelow(p: Pool, from: nat, below: nat, cell: nat, generation: nat)
    requires NewlyPolled(p, from, cell, generation) && below <= from
    ensures NewlyPolled(p, below, cell, generation)
  {
  }

  lemma RoundsJoin(p: Pool, q: Pool, r: Pool, slots: seq<PollSlot>, generation: nat)
    requires slots != [] && RoundDone(p, q, slots[..1], generation) && RoundDone(q, r, slots[1..], generation)
    ensures RoundDone(p, r, slots, generation)
  {
    forall cell
      ensures HasCell(slots, cell) <==> HasCell(slots[..1], cell) || HasCell(slots[1..], cell)
    {
      CellsSplit(slots, cell);
      CellsSplit(slots[..1], cell);
    }
    forall cell | HasCell(slots, cell) && cell !in p.flags
      ensures NewlyPolled(r, p.nextThread, cell, generation)
    {
      if HasCell(slots[..1], cell) {
        NewlyPolledStays(q, r, p.nextThread, cell, generation);
      } else {
        NewlyPolledBelow(r, q.nextThread, p.nextThread, cell, generation);
      }
    }
  }

  /** After one round of claims every slot's flag is set; exactly the idle slots
      got a new thread, of the present generation, and no running poll was
      touched. */
  lemma {:induction false} RoundClaimsIdle(p: Pool, slots: seq<PollSlot>, generation: nat)
    requires forall t :: t in p.threads ==> t < p.nextThread
    ensures RoundDone(p, AllClaimed(p, slots, generation), slots, generation)
    decreases |slots|
  {
    if slots != [] {
      ClaimOne(p, slots[0], generation);
      var q := Claimed(p, slots[0], generation);
      RoundClaimsIdle(q, slots[1..], generation);
      assert slots[..1] == [slots[0]];
      RoundsJoin(p, q, AllClaimed(q, slots[1..], generation), slots, generation);
    }
  }
}
