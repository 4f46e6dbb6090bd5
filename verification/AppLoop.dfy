/** The app loop's own state: the server set, the selection, the registry of
    latest samples and what is displayed (src/app.rs, src/app/server.rs,
    src/app/loop_events.rs). Functions give the meaning of each operation;
    class `App` performs them in place. */
module AppLoop {
  import opened Domain
  import opened Llama
  import opened StateLlm
  import opened Messages
  import opened Channels

  datatype AppState = AppState(
    serverList: seq<ServerSpec>,
    overflow: seq<ServerSpec>,
    order: seq<string>,
    endpoints: map<string, string>,
    registry: map<string, LlmStats>,
    selected: string,
    llmGeneration: nat,
    mappingGeneration: nat,
    llm: LlmStats,
    gpuMap: GpuMapping,
    ui: UiLlm)

  /** Messages an app step sends. */
  datatype Outbox = Outbox(commands: seq<LlmCommand>, identities: seq<IdentityUpdate>)

  const NOTHING_SENT := Outbox([], [])

  function EndpointMap(list: seq<ServerSpec>): map<string, string> {
    if list == [] then map[]
    else
      var last := list[|list| - 1];
      EndpointMap(list[..|list| - 1])[last.key := last.endpoint]
  }

  function IdentityMap(list: seq<ServerSpec>): map<string, Option<LocalServerIdentity>> {
    if list == [] then map[]
    else
      var last := list[|list| - 1];
      IdentityMap(list[..|list| - 1])[last.key := last.identity]
  }

  /** `selected_identity_of`. */
  function SelectedIdentityOf(list: seq<ServerSpec>, selected: string): Option<LocalServerIdentity> {
    match EntryOf(list, selected)
    case Some(spec) => spec.identity
    case None => None
  }

  function Restarted(previous: map<string, Option<LocalServerIdentity>>, spec: ServerSpec): bool {
    spec.key in previous && previous[spec.key] != spec.identity
  }

  function RestartedKeys(previous: map<string, Option<LocalServerIdentity>>, next: seq<ServerSpec>): seq<string> {
    if next == [] then []
    else
      var rest := RestartedKeys(previous, next[..|next| - 1]);
      var last := next[|next| - 1];
      if Restarted(previous, last) then rest + [last.key] else rest
  }

  /** `changed_identity_keys`. */
  function ChangedIdentityKeys(old0: seq<ServerSpec>, next: seq<ServerSpec>): seq<string> {
    RestartedKeys(IdentityMap(old0), next)
  }

  function ResetAll(ui: UiLlm, keys: seq<string>): UiLlm {
    if keys == [] then ui else Reset(ResetAll(ui, keys[..|keys| - 1]), keys[|keys| - 1])
  }

  function Registered(registry: map<string, LlmStats>, key: string): LlmStats {
    if key in registry then registry[key] else DEFAULT_STATS
  }

  function Restrict(registry: map<string, LlmStats>, keys: set<string>): map<string, LlmStats> {
    map k | k in registry && k in keys :: registry[k]
  }

  function FirstKey(order: seq<string>): string {
    if order == [] then "" else order[0]
  }

  /** The state `run` sets up before entering its loop. */
  function Started(list: ServerList, defaultSelected: string): (AppState, Outbox) {
    var order := Keys(list.monitored);
    var endpoints := EndpointMap(list.monitored);
    var selected := if defaultSelected in endpoints then defaultSelected else FirstKey(order);
    (AppState(list.monitored, list.overflow, order, endpoints, map[], selected, 0, 1,
              DEFAULT_STATS, NoMapping, INITIAL_UI),
     Outbox([], [IdentityUpdate(1, SelectedIdentityOf(list.monitored, selected))]))
  }

  /** The histories after a set change: restarted servers start afresh, gone
      ones are dropped. */
  function HistoriesFor(ui: UiLlm, previous: seq<ServerSpec>, list: seq<ServerSpec>): UiLlm {
    Retained(ResetAll(ui, ChangedIdentityKeys(previous, list)), EndpointMap(list).Keys)
  }

  /** The monitored set becomes `list`. */
  function Replaced(a: AppState, list: seq<ServerSpec>): AppState {
    var order := Keys(list);
    var endpoints := EndpointMap(list);
    var registry := Restrict(a.registry, endpoints.Keys);
    var ui := HistoriesFor(a.ui, a.serverList, list);
    var lost := a.selected !in endpoints;
    var selected := if lost then FirstKey(order) else a.selected;
    AppState(list, a.overflow, order, endpoints, registry, selected,
             a.llmGeneration + 1, a.mappingGeneration + 1,
             if lost then Registered(registry, selected) else a.llm,
             NoMapping,
             if lost then Selected(ui, selected) else ui)
  }

  /** `sync_server_set`. */
  function Synced(a: AppState, next: ServerList): (AppState, Outbox) {
    var a1 := a.(overflow := next.overflow);
    if next.monitored == a.serverList then (a1, NOTHING_SENT)
    else
      var a2 := Replaced(a1, next.monitored);
      (a2, Outbox([SetServers(a2.llmGeneration, next.monitored)],
                  [IdentityUpdate(a2.mappingGeneration, SelectedIdentityOf(next.monitored, a2.selected))]))
  }

  /** Enter in the server selector, with the highlight at `highlighted`. */
  function Chosen(a: AppState, highlighted: nat): (AppState, Outbox) {
    if a.order == [] then (a, NOTHING_SENT)
    else
      var key := a.order[if highlighted < |a.order| then highlighted else |a.order| - 1];
      (a.(selected := key, llm := Registered(a.registry, key), ui := Selected(a.ui, key),
          mappingGeneration := a.mappingGeneration + 1, gpuMap := NoMapping),
       Outbox([], [IdentityUpdate(a.mappingGeneration + 1, SelectedIdentityOf(a.serverList, key))]))
  }

  /** Whether a received sample is applied at all. */
  predicate Accepts(a: AppState, sample: LlmSample) {
    sample.generation == a.llmGeneration && sample.server in a.endpoints
  }

  function LlmApplied(a: AppState, sample: LlmSample, now: Instant): AppState {
    if !Accepts(a, sample) then a
    else
      a.(ui := Recorded(a.ui, sample.server, a.selected, sample.stats, now),
         registry := a.registry[sample.server := sample.stats],
         llm := if sample.server == a.selected then sample.stats else a.llm)
  }

  /** `apply_fast_snapshot`, mapping part. */
  function FastApplied(a: AppState, next: FastSnapshot): AppState {
    if next.mappingGeneration == a.mappingGeneration then a.(gpuMap := next.gpuMap) else a
  }

  function AllFastApplied(a: AppState, queue: seq<FastSnapshot>): AppState
    decreases |queue|
  {
    if queue == [] then a else AllFastApplied(FastApplied(a, queue[0]), queue[1..])
  }

  function AllLlmApplied(a: AppState, queue: seq<LlmSample>, times: seq<Instant>): AppState
    requires |times| == |queue|
    decreases |queue|
  {
    if queue == [] then a else AllLlmApplied(LlmApplied(a, queue[0], times[0]), queue[1..], times[1..])
  }

  /** The app loop's variables, updated in place. */
  class App {
    var serverList: seq<ServerSpec>
    var overflow: seq<ServerSpec>
    var order: seq<string>
    var endpoints: map<string, string>
    var registry: map<string, LlmStats>
    var selected: string
    var llmGeneration: nat
    var mappingGeneration: nat
    var snapshotLlm: LlmStats
    var snapshotGpuMap: GpuMapping
    const ui: UiState
    var serverTx: seq<LlmCommand>
    var identityTx: seq<IdentityUpdate>

    function View(): AppState
      reads this, ui
    {
      AppState(serverList, overflow, order, endpoints, registry, selected, llmGeneration,
               mappingGeneration, snapshotLlm, snapshotGpuMap, ui.View())
    }

    function Sent(): Outbox
      reads this
    {
      Outbox(serverTx, identityTx)
    }

    constructor (servers: ServerList, defaultSelected: string)
      ensures fresh(ui)
      ensures (View(), Sent()) == Started(servers, defaultSelected)
    {
      serverList, overflow := servers.monitored, servers.overflow;
      order := Keys(servers.monitored);
      endpoints := EndpointMap(servers.monitored);
      registry := map[];
      selected := if defaultSelected in EndpointMap(servers.monitored)
        then defaultSelected else FirstKey(Keys(servers.monitored));
      llmGeneration, mappingGeneration := 0, 0;
      snapshotLlm, snapshotGpuMap := DEFAULT_STATS, NoMapping;
      serverTx, identityTx := [], [];
      ui := new UiState();
      new;
      PublishSelectedMapping(SelectedIdentityOf(serverList, selected));
      assert identityTx == [IdentityUpdate(1, SelectedIdentityOf(serverList, selected))];
    }

    /** `publish_selected_mapping`. */
    method PublishSelectedMapping(identity: Option<LocalServerIdentity>)
      modifies this`mappingGeneration, this`identityTx
      ensures mappingGeneration == old(mappingGeneration) + 1
      ensures identityTx == old(identityTx) + [IdentityUpdate(mappingGeneration, identity)]
    {
      mappingGeneration := mappingGeneration + 1;
      identityTx := identityTx + [IdentityUpdate(mappingGeneration, identity)];
    }

    method ResetHistories(keys: seq<string>)
      modifies ui
      ensures ui.View() == ResetAll(old(ui.View()), keys)
    {
      var i := 0;
      while i < |keys|
        invariant i <= |keys|
        invariant ui.View() == ResetAll(old(ui.View()), keys[..i])
      {
        assert keys[..i + 1][..i] == keys[..i];
        ui.ResetLlmHistory(keys[i]);
        i := i + 1;
      }
      assert keys[..i] == keys;
    }

    /** Select the first server when the selected one is gone. */
    method FallBackIfGone()
      modifies this`selected, this`snapshotLlm, ui
      ensures selected == if old(selected) in endpoints then old(selected) else FirstKey(order)
      ensures snapshotLlm == if old(selected) in endpoints then old(snapshotLlm) else Registered(registry, selected)
      ensures ui.View() == if old(selected) in endpoints then old(ui.View()) else Selected(old(ui.View()), selected)
    {
      if selected !in endpoints {
        selected := FirstKey(order);
        snapshotLlm := Registered(registry, selected);
        ui.SelectLlmHistory(selected);
      }
    }

    /** Start a new generation for `list` and tell the worker. */
    method AdoptServers(list: seq<ServerSpec>)
      modifies this`serverList, this`order, this`endpoints, this`registry, this`llmGeneration, this`serverTx
      ensures serverList == list && order == Keys(list) && endpoints == EndpointMap(list)
      ensures registry == Restrict(old(registry), EndpointMap(list).Keys)
      ensures llmGeneration == old(llmGeneration) + 1
      ensures serverTx == old(serverTx) + [SetServers(llmGeneration, list)]
    {
      llmGeneration := llmGeneration + 1;
      serverTx := serverTx + [SetServers(llmGeneration, list)];
      serverList := list;
      order := Keys(serverList);
      endpoints := EndpointMap(serverList);
      registry := Restrict(registry, endpoints.Keys);
    }

    /** Republish the selected server's identity and drop the old mapping. */
    method Republish()
      modifies this`mappingGeneration, this`identityTx, this`snapshotGpuMap
      ensures mappingGeneration == old(mappingGeneration) + 1 && snapshotGpuMap == NoMapping
      ensures identityTx == old(identityTx) + [IdentityUpdate(mappingGeneration, SelectedIdentityOf(serverList, selected))]
    {
      PublishSelectedMapping(SelectedIdentityOf(serverList, selected));
      snapshotGpuMap := NoMapping;
    }

    method UpdateHistories(list: seq<ServerSpec>)
      modifies ui
      ensures ui.View() == HistoriesFor(old(ui.View()), serverList, list)
    {
      ResetHistories(ChangedIdentityKeys(serverList, list));
      ui.RetainLlmHistories(EndpointMap(list).Keys);
    }

    /** The new set takes over: histories, list and registry. */
    method TakeOver(list: seq<ServerSpec>)
      modifies this`serverList, this`order, this`endpoints, this`registry, this`llmGeneration, this`serverTx, ui
      ensures ui.View() == HistoriesFor(old(ui.View()), old(serverList), list)
      ensures serverList == list && order == Keys(list) && endpoints == EndpointMap(list)
      ensures registry == Restrict(old(registry), EndpointMap(list).Keys)
      ensures llmGeneration == old(llmGeneration) + 1
      ensures serverTx == old(serverTx) + [SetServers(llmGeneration, list)]
    {
      UpdateHistories(list);
      AdoptServers(list);
    }

    /** The selection follows, and the GPU attribution with it. */
    method Reselect()
      modifies this`selected, this`snapshotLlm, this`mappingGeneration, this`identityTx, this`snapshotGpuMap, ui
      ensures selected == if old(selected) in endpoints then old(selected) else FirstKey(order)
      ensures snapshotLlm == if old(selected) in endpoints then old(snapshotLlm) else Registered(registry, selected)
      ensures ui.View() == if old(selected) in endpoints then old(ui.View()) else Selected(old(ui.View()), selected)
      ensures mappingGeneration == old(mappingGeneration) + 1 && snapshotGpuMap == NoMapping
      ensures identityTx == old(identityTx) + [IdentityUpdate(mappingGeneration, SelectedIdentityOf(serverList, selected))]
    {
      FallBackIfGone();
      Republish();
    }

    /** The part of `sync_server_set` that runs when the monitored set changed. */
    method ReplaceServers(list: seq<ServerSpec>)
      modifies this, ui
      ensures View() == Replaced(old(View()), list)
      ensures serverTx == old(serverTx) + [SetServers(llmGeneration, list)]
      ensures identityTx == old(identityTx) + [IdentityUpdate(mappingGeneration, SelectedIdentityOf(list, selected))]
    {
      TakeOver(list);
      Reselect();
    }

    method SyncServerSet(next: ServerList)
      modifies this, ui
      ensures View() == Synced(old(View()), next).0
      ensures serverTx == old(serverTx) + Synced(old(View()), next).1.commands
      ensures identityTx == old(identityTx) + Synced(old(View()), next).1.identities
    {
      var monitoredChanged := next.monitored != serverList;
      var overflowChanged := next.overflow != overflow;
      if !monitoredChanged && !overflowChanged {
        return;
      }
      overflow := next.overflow;
      if monitoredChanged {
        ReplaceServers(next.monitored);
      }
    }

    /** Enter in the open server selector. */
    method SelectServer(highlighted: nat)
      modifies this, ui
      ensures View() == Chosen(old(View()), highlighted).0
      ensures serverTx == old(serverTx)
      ensures identityTx == old(identityTx) + Chosen(old(View()), highlighted).1.identities
    {
      if |order| > 0 {
        var key := order[if highlighted < |order| then highlighted else |order| - 1];
        selected := key;
        snapshotLlm := Registered(registry, key);
        ui.SelectLlmHistory(key);
        Republish();
      }
    }

    method ApplyLlmSample(sample: LlmSample, now: Instant)
      modifies this, ui
      ensures View() == LlmApplied(old(View()), sample, now)
      ensures Sent() == old(Sent())
    {
      if sample.generation != llmGeneration {
        return;
      }
      if sample.server !in endpoints {
        return;
      }
      var isSelected := sample.server == selected;
      ui.RecordLlmSample(sample.server, selected, sample.stats, now);
      registry := registry[sample.server := sample.stats];
      if isSelected {
        snapshotLlm := sample.stats;
      }
    }

    /** `pump_snapshots`: drain both channels; `times` are the clock readings
        taken while recording. False means a worker stopped. */
    method PumpSnapshots(fastRx: SyncChannel<FastSnapshot>, llmRx: SyncChannel<LlmSample>, times: seq<Instant>)
      returns (running: bool)
      requires |times| == |llmRx.queue|
      modifies this, ui, fastRx, llmRx
      ensures running == (old(fastRx.senderAlive) && old(llmRx.senderAlive))
      ensures fastRx.queue == [] && fastRx.drops == old(fastRx.drops)
      ensures old(fastRx.senderAlive) ==> llmRx.queue == [] && llmRx.drops == old(llmRx.drops)
      ensures View() ==
              var afterFast := AllFastApplied(old(View()), old(fastRx.queue));
              if old(fastRx.senderAlive) then AllLlmApplied(afterFast, old(llmRx.queue), times) else afterFast
      ensures Sent() == old(Sent())
    {
      ghost var target := AllFastApplied(View(), fastRx.queue);
      var draining := true;
      while draining
        invariant AllFastApplied(View(), fastRx.queue) == target
        invariant Sent() == old(Sent())
        invariant fastRx.drops == old(fastRx.drops) && fastRx.senderAlive == old(fastRx.senderAlive)
        invariant llmRx.queue == old(llmRx.queue) && llmRx.drops == old(llmRx.drops) && llmRx.senderAlive == old(llmRx.senderAlive)
        invariant !draining ==> fastRx.queue == [] && fastRx.senderAlive
        decreases draining, |fastRx.queue|
      {
        var r := fastRx.TryReceive();
        match r {
          case Received(next) =>
            if next.mappingGeneration == mappingGeneration {
              snapshotGpuMap := next.gpuMap;
            }
          case Empty => draining := false;
          case Disconnected => return false;
        }
      }
      ghost var target2 := AllLlmApplied(View(), llmRx.queue, times);
      var k := 0;
      draining := true;
      while draining
        invariant k + |llmRx.queue| == |times|
        invariant AllLlmApplied(View(), llmRx.queue, times[k..]) == target2
        invariant Sent() == old(Sent())
        invariant fastRx.queue == [] && fastRx.drops == old(fastRx.drops)
        invariant llmRx.drops == old(llmRx.drops) && llmRx.senderAlive == old(llmRx.senderAlive)
        invariant !draining ==> llmRx.queue == [] && llmRx.senderAlive
        decreases draining, |llmRx.queue|
      {
        var r := llmRx.TryReceive();
        match r {
          case Received(next) =>
            ApplyLlmSample(next, times[k]);
            assert times[k..][1..] == times[k + 1..];
            k := k + 1;
          case Empty => draining := false;
          case Disconnected => return false;
        }
      }
      return true;
    }
  }
}
