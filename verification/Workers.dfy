/** The background workers: poll-slot reconciliation, claims on the in-flight
    flags, the poll threads, forwarding, and the GPU attribution state of the
    fast worker (src/app/workers.rs, src/app/server.rs). */
module Workers {
  import opened Domain
  import opened Messages
  import opened Channels

  // ---------------------------------------------------------------------
  // Poll slots
  // ---------------------------------------------------------------------

  /** A monitored server's slot. `cell` names the monitor and the in-flight
      flag created with it, which live and are shared together. */
  datatype PollSlot = PollSlot(spec: ServerSpec, cell: nat)

  function SlotMap(slots: seq<PollSlot>): map<string, PollSlot> {
    if slots == [] then map[]
    else
      var last := slots[|slots| - 1];
      SlotMap(slots[..|slots| - 1])[last.spec.key := last]
  }

  predicate Reusable(old0: map<string, PollSlot>, spec: ServerSpec) {
    spec.key in old0 && old0[spec.key].spec == spec
  }

  /** `rebuild_poll_slots`: a new cell, numbered from `next`, for every entry
      whose whole spec was not there before. */
  function Rebuilt(old0: map<string, PollSlot>, list: seq<ServerSpec>, next: nat): (slots: seq<PollSlot>)
    ensures |slots| == |list|
    decreases |list|
  {
    if list == [] then []
    else if Reusable(old0, list[0]) then [old0[list[0].key]] + Rebuilt(old0 - {list[0].key}, list[1..], next)
    else [PollSlot(list[0], next)] + Rebuilt(old0 - {list[0].key}, list[1..], next + 1)
  }

  /** The specs the new cells are built for, in creation order. */
  function NewCells(old0: map<string, PollSlot>, list: seq<ServerSpec>): seq<ServerSpec>
    decreases |list|
  {
    if list == [] then []
    else if Reusable(old0, list[0]) then NewCells(old0 - {list[0].key}, list[1..])
    else [list[0]] + NewCells(old0 - {list[0].key}, list[1..])
  }

  /** Slots in a set: one per server, under distinct keys. */
  predicate DistinctSlots(slots: seq<PollSlot>) {
    forall i, j :: 0 <= i < j < |slots| ==> slots[i].spec.key != slots[j].spec.key
  }

  lemma {:induction false} SlotMapFinds(slots: seq<PollSlot>, key: string)
    requires DistinctSlots(slots)
    ensures key in SlotMap(slots) <==> exists j :: 0 <= j < |slots| && slots[j].spec.key == key
    ensures key in SlotMap(slots) ==> SlotMap(slots)[key] in slots && SlotMap(slots)[key].spec.key == key
  {
    if slots != [] {
      var n := |slots| - 1;
      SlotMapFinds(slots[..n], key);
      if exists j :: 0 <= j < n && slots[j].spec.key == key {
        var j :| 0 <= j < n && slots[j].spec.key == key;
        assert slots[..n][j].spec.key == key;
      }
      if slots[n].spec.key != key && key in SlotMap(slots) {
        var j :| 0 <= j < n && slots[..n][j].spec.key == key;
        assert slots[j].spec.key == key;
      }
    }
  }

  /** `slot` serves `spec`: it is the old slot of exactly that spec, or one of
      the cells `created`, numbered from `next`, and built for it. */
  predicate Serves(slot: PollSlot, spec: ServerSpec, old0: map<string, PollSlot>, next: nat, created: seq<ServerSpec>) {
    && slot.spec == spec
    && (if Reusable(old0, spec) then slot == old0[spec.key]
        else next <= slot.cell < next + |created| && created[slot.cell - next] == spec)
  }

  /** Each rebuilt slot serves its entry of the new list. */
  lemma {:induction false} RebuiltServes(old0: map<string, PollSlot>, list: seq<ServerSpec>, next: nat, i: nat)
    requires DistinctKeys(list) && i < |list|
    ensures Serves(Rebuilt(old0, list, next)[i], list[i], old0, next, NewCells(old0, list))
    decreases |list|
  {
    if i > 0 {
      var less, rest := old0 - {list[0].key}, list[1..];
      assert list[0].key != list[i].key;
      assert rest[i - 1] == list[i];
      assert Reusable(old0, list[i]) <==> Reusable(less, list[i]);
      if Reusable(old0, list[0]) {
        RebuiltServes(less, rest, next, i - 1);
      } else {
        RebuiltServes(less, rest, next + 1, i - 1);
      }
    }
  }

  /** The LLM worker's own state; `cells` records the spec every cell so far
      was built for (a history variable whose length names the next cell). */
  datatype WorkerState = WorkerState(generation: nat, servers: seq<PollSlot>, cells: seq<ServerSpec>)

  function WorkerStarted(list: seq<ServerSpec>): WorkerState {
    WorkerState(0, Rebuilt(map[], list, 0), NewCells(map[], list))
  }

  function CommandApplied(w: WorkerState, command: LlmCommand): WorkerState {
    var old0 := SlotMap(w.servers);
    WorkerState(command.generation, Rebuilt(old0, command.servers, |w.cells|), w.cells + NewCells(old0, command.servers))
  }

  function AllCommandsApplied(w: WorkerState, commands: seq<LlmCommand>): WorkerState
    decreases |commands|
  {
    if commands == [] then w else AllCommandsApplied(CommandApplied(w, commands[0]), commands[1..])
  }

  // ---------------------------------------------------------------------
  // Poll threads
  // ---------------------------------------------------------------------

  /** A poll thread locks its monitor, samples, sends, lets go of the monitor
      and last of all drops its `PollFlag`; a panic skips to letting go. */
  datatype ThreadPhase = Spawned | Locked | Sampled(sample: LlmSample) | Sent | Released

  datatype PollThread = PollThread(cell: nat, generation: nat, phase: ThreadPhase)

  /** In-flight flags that are set, monitor mutexes with their holder, and the
      live poll threads by id. */
  datatype Pool = Pool(flags: set<nat>, locks: map<nat, nat>, threads: map<nat, PollThread>, nextThread: nat)

  /** The compare-exchange on one slot and, when it wins, the spawn. */
  function Claimed(p: Pool, slot: PollSlot, generation: nat): Pool {
    if slot.cell in p.flags then p
    else
      Pool(p.flags + {slot.cell}, p.locks,
           p.threads[p.nextThread := PollThread(slot.cell, generation, Spawned)], p.nextThread + 1)
  }

  function AllClaimed(p: Pool, slots: seq<PollSlot>, generation: nat): Pool
    decreases |slots|
  {
    if slots == [] then p else AllClaimed(Claimed(p, slots[0], generation), slots[1..], generation)
  }

  function AllForwarded(outer: Bounded<LlmSample>, inner: seq<LlmSample>, capacity: nat): Bounded<LlmSample>
    decreases |inner|
  {
    if inner == [] then outer else AllForwarded(Offered(outer, capacity, inner[0]), inner[1..], capacity)
  }

  class LlmWorker {
    var generation: nat
    var servers: seq<PollSlot>
    var cells: seq<ServerSpec>
    var flags: set<nat>
    var locks: map<nat, nat>
    var threads: map<nat, PollThread>
    var nextThread: nat

    function View(): WorkerState
      reads this
    {
      WorkerState(generation, servers, cells)
    }

    function Polls(): Pool
      reads this
    {
      Pool(flags, locks, threads, nextThread)
    }

    constructor (initialServers: seq<ServerSpec>)
      ensures View() == WorkerStarted(initialServers)
      ensures Polls() == Pool({}, map[], map[], 0)
    {
      generation := 0;
      servers, cells := Rebuilt(map[], initialServers, 0), NewCells(map[], initialServers);
      flags, locks, threads, nextThread := {}, map[], map[], 0;
    }

    /** `rebuild_poll_slots`: takes matching slots out of the old set as it
        walks the new list. */
    method RebuildPollSlots(list: seq<ServerSpec>)
      modifies this`servers, this`cells
      ensures servers == Rebuilt(SlotMap(old(servers)), list, |old(cells)|)
      ensures cells == old(cells) + NewCells(SlotMap(old(servers)), list)
    {
      var old0 := SlotMap(servers);
      var slots: seq<PollSlot> := [];
      ghost var all, allCells := Rebuilt(old0, list, |cells|), cells + NewCells(old0, list);
      var i := 0;
      while i < |list|
        invariant i <= |list|
        invariant slots + Rebuilt(old0, list[i..], |cells|) == all
        invariant cells + NewCells(old0, list[i..]) == allCells
        invariant servers == old(servers)
      {
        var spec := list[i];
        assert list[i..][0] == spec && list[i..][1..] == list[i + 1..];
        if spec.key in old0 && old0[spec.key].spec == spec {
          slots := slots + [old0[spec.key]];
        } else {
          slots := slots + [PollSlot(spec, |cells|)];
          cells := cells + [spec];
        }
        old0 := old0 - {spec.key};
        i := i + 1;
      }
      assert list[i..] == [];
      servers := slots;
    }

    /** The `SetServers` drain at the top of the cycle. */
    method DrainCommands(serverRx: seq<LlmCommand>)
      modifies this`generation, this`servers, this`cells
      ensures View() == AllCommandsApplied(old(View()), serverRx)
    {
      var i := 0;
      while i < |serverRx|
        invariant i <= |serverRx|
        invariant AllCommandsApplied(View(), serverRx[i..]) == AllCommandsApplied(old(View()), serverRx)
      {
        assert serverRx[i..][1..] == serverRx[i + 1..];
        generation := serverRx[i].generation;
        RebuildPollSlots(serverRx[i].servers);
        i := i + 1;
      }
    }

    /** One poll per server at a time; a busy slot is skipped this cycle. */
    method ClaimAll()
      modifies this`flags, this`threads, this`nextThread
      ensures Polls() == AllClaimed(old(Polls()), servers, generation)
    {
      var i := 0;
      while i < |servers|
        invariant i <= |servers|
        invariant AllClaimed(Polls(), servers[i..], generation) == AllClaimed(old(Polls()), servers, generation)
      {
        var slot := servers[i];
        assert servers[i..][1..] == servers[i + 1..];
        if slot.cell !in flags {
          flags := flags + {slot.cell};
          threads := threads[nextThread := PollThread(slot.cell, generation, Spawned)];
          nextThread := nextThread + 1;
        }
        i := i + 1;
      }
    }

    /** Move finished samples to the bounded channel; false when the app is gone. */
    method Forward(sampleRx: seq<LlmSample>, tx: SyncChannel<LlmSample>) returns (connected: bool)
      modifies tx
      ensures tx.receiverAlive == old(tx.receiverAlive)
      ensures connected == (tx.receiverAlive || sampleRx == [])
      ensures tx.View() == if tx.receiverAlive then AllForwarded(old(tx.View()), sampleRx, tx.capacity) else old(tx.View())
    {
      var i := 0;
      while i < |sampleRx|
        invariant i <= |sampleRx|
        invariant tx.receiverAlive == old(tx.receiverAlive)
        invariant i > 0 ==> tx.receiverAlive
        invariant i == 0 ==> tx.View() == old(tx.View())
        invariant AllForwarded(tx.View(), sampleRx[i..], tx.capacity) == AllForwarded(old(tx.View()), sampleRx, tx.capacity)
      {
        assert sampleRx[i..][1..] == sampleRx[i + 1..];
        var alive := tx.TrySendSnapshot(sampleRx[i]);
        if !alive {
          return false;
        }
        i := i + 1;
      }
      return true;
    }
  }

  // ---------------------------------------------------------------------
  // The fast worker's attribution state
  // ---------------------------------------------------------------------

  datatype FastState = FastState(generation: nat, identity: Option<LocalServerIdentity>, gpuMap: GpuMapping)

  const FAST_STARTED := FastState(0, None, NoMapping)

  function IdentityReceived(f: FastState, update: IdentityUpdate): FastState {
    FastState(update.generation, update.identity, NoMapping)
  }

  function AllIdentitiesReceived(f: FastState, updates: seq<IdentityUpdate>): FastState
    decreases |updates|
  {
    if updates == [] then f else AllIdentitiesReceived(IdentityReceived(f, updates[0]), updates[1..])
  }

  /** The mapping recomputed on the process-refresh cadence. */
  function Scanned(f: FastState, currentStart: Option<nat>, evidence: seq<string>): FastState {
    match f.identity
    case Some(expected) => f.(gpuMap := MapServerIdentity(Scan(expected, currentStart), evidence))
    case None => f.(gpuMap := NoMapping)
  }

  function Stamped(f: FastState): FastSnapshot {
    FastSnapshot(f.gpuMap, f.generation)
  }

  class FastWorker {
    var serverGeneration: nat
    var serverIdentity: Option<LocalServerIdentity>
    var gpuMap: GpuMapping

    function View(): FastState
      reads this
    {
      FastState(serverGeneration, serverIdentity, gpuMap)
    }

    constructor ()
      ensures View() == FAST_STARTED
    {
      serverGeneration, serverIdentity, gpuMap := 0, None, NoMapping;
    }

    method DrainIdentities(identityRx: seq<IdentityUpdate>)
      modifies this
      ensures View() == AllIdentitiesReceived(old(View()), identityRx)
    {
      var i := 0;
      while i < |identityRx|
        invariant i <= |identityRx|
        invariant AllIdentitiesReceived(View(), identityRx[i..]) == AllIdentitiesReceived(old(View()), identityRx)
      {
        assert identityRx[i..][1..] == identityRx[i + 1..];
        serverGeneration := identityRx[i].generation;
        serverIdentity := identityRx[i].identity;
        gpuMap := NoMapping;
        i := i + 1;
      }
    }

    method RefreshMapping(currentStart: Option<nat>, evidence: seq<string>)
      modifies this`gpuMap
      ensures View() == Scanned(old(View()), currentStart, evidence)
    {
      if serverIdentity.Some? {
        gpuMap := MapServerIdentity(Scan(serverIdentity.value, currentStart), evidence);
      } else {
        gpuMap := NoMapping;
      }
    }

    method Publish(tx: SyncChannel<FastSnapshot>) returns (alive: bool)
      modifies tx
      ensures alive == old(tx.receiverAlive)
      ensures tx.View() == if alive then Offered(old(tx.View()), tx.capacity, Stamped(View())) else old(tx.View())
    {
      alive := tx.TrySendSnapshot(FastSnapshot(gpuMap, serverGeneration));
    }
  }
}
