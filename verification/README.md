# OrsikTop: the multi-server monitoring runtime, verified

OrsikTop shows one terminal dashboard for up to sixteen language-model servers.
Behind the screen runs a small concurrent protocol: the app loop owns the
server set and the selection, an LLM worker starts one poll thread a server and
forwards their samples, a fast worker attributes GPUs to the selected server's
process, and generations guard every message against a set that was replaced
meanwhile. This project models that protocol and the stateful pieces behind it,
and proves what they are for.

Code that changes things in place is a class or a method here (`App`, `UiState`,
`SampleDeque`, `LlmWorker`, `FastWorker`, `SyncChannel`, `LlamaMonitor`,
`ServerMonitor`, `ServerListBuilder`, `EndpointList`, `FileSystem`,
`DrmSampler`, the array and text loops); each is tied to a function of its old
state, and the theorems are about those functions, over whole runs.

- **Session protocol** (`Messages`, `Channels`, `AppLoop`, `AppFacts`,
  `Workers`, `Session`, `Effects`, `Drains`, `Runs`, `Holds`). A transition system
  in which every actor's step may come at any time. The server sets and identities ever
  published, the polls made, and the samples produced, taken, delivered and
  dropped, are history variables; so is the origin each sample carries.
- **Histories** (`History`, `StateLlm`). The bounded deques, the fold of samples
  into one server's history, the active mirror, and the graph resampler.
- **Counters and slots** (`Slots`, `SlotSummary`, `Monitor`, `Grace`). Baselines,
  resets, format switches, slot pairing, the slot summary and the offline hold.
- **Server list** (`ServerSet`, `MonitoredFlags`, `ServerDialog`). Assembly, its
  prediction in the settings dialog, and the editing of that list. `server_key`
  is a parameter: any function that ignores surrounding whitespace and is empty
  exactly on blank text.
- **Configuration** (`Text`, `Json`, `GpuSelector`, `Config`, `ConfigFields`,
  `ConfigWords`). Printer, parser and their round trip, down to characters.
- **Atomic save** (`AtomicSave`, `SaveRuns`, `SaveCall`, `SavedConfig`). Any number
  of saves by any number of processes over a file system with links, a cache and
  power loss; `SaveCall` is one call in the source's own order of system calls.
- **GPU use of a process** (`Drm`, `DrmTotals`, `DrmSampling`). Clients counted
  once, saturated totals, and utilization between samples. The file keys are
  those of "Optional fully standardised keys" in the kernel's
  drm-usage-stats.rst.

Two findings.

- `monitored_flags`, taken by itself, does not mirror the runtime exactly,
  although its comment says so: it counts a blank entry, which list assembly
  skips, so the endpoint at place seventeen of its list is polled but flagged as
  not polled.
  `FlagsMirrorRuntime` gives the exact condition and `BlankPrimaryMisleads` an
  input. No caller reaches it: the settings dialog passes no blank primary and
  its list never holds a blank entry, so every flag it shows is right
  (`DialogFlagsAreRight`).
- A saved configuration reads back unchanged exactly when its primary server has
  no line break and its GPU selector is canonical (`RoundTrip`). For a selector
  typed on one line that fails exactly for a `gpu-` or `mig-` prefix in mixed
  case and for a bare MIG prefix (`TypedRoundTrip`). A user can reach this:
  `Gpu-1a` is saved as an address and comes back as the identity `GPU-1a`
  (`TypedSelectorChanges`), and `MIG-` changes at every reading
  (`BareMigAlternates`).

## Model

| member | source | states |
|---|---|---|
| Session.SessionIsolation | src/app/loop_events.rs:49-69 | In every interleaving, a received sample is applied exactly when it has the current generation; then the monitor that made it was built for the whole current entry (key, endpoint, process) of its server, and only that registry entry changes. A turned-away sample changes nothing. |
| Session.PollExclusion | src/app/workers.rs:260-299 | In every reachable state an in-flight flag is set exactly when one live poll thread holds it, no two threads share a monitor, and a thread about to lock its monitor finds it free. |
| Session.ReconciledSlots | src/app/server.rs:298-312 | After a set change the worker serves exactly the new list, slot for slot; a server keeps its monitor and flag precisely when its whole spec was served before. |
| Session.GpuMapAgreement | src/app.rs:411-424 | A displayed GPU mapping was computed for the process of the server selected now, and attributes devices only if that scan read the start time of that very process. |
| Session.AppStateAgreement | src/app/server.rs:125-190 | In every reachable state the order lists the set's keys, endpoints are exactly the set's, the registry stays within it, the selection is in it, and the shown sample is the selected server's latest or the default. |
| Effects.StartsSelected | src/app.rs:198-218 | The app begins with the assembled set, the requested server if it is in the set and the first one otherwise, and sends that server's identity. |
| Effects.EnterSelectsRow | src/app/loop_events.rs:209-230 | In every run Enter selects the highlighted row (the last when the highlight is past it), shows that server's registry entry or the default, sends its identity under the next mapping generation and drops the old mapping; set, registry and generation stay. |
| Effects.SameSetIsQuiet | src/app/server.rs:125-190 | A set that stayed the same sends nothing and only replaces the overflow. |
| Effects.ChangedSetIsAdopted | src/app/server.rs:125-190 | A changed set is adopted under the next generation and sent to the worker. |
| Effects.ChangedSetReselects | src/app/server.rs:175-188 | A selected server still in the set stays selected, otherwise the first takes its place; its identity is sent and the old mapping dropped. |
| Effects.ChangedSetKeepsSamples | src/app/server.rs:170-170 | The latest samples of exactly the servers still in the set are kept. |
| Effects.ScanAttributes | src/app/server.rs:239-250 | A scan attributes its evidence if and only if the process has the start time it was identified by and there is evidence, is unknown otherwise, and is empty without a process. |
| Effects.SnapshotShowsMapping | src/app.rs:411-424 | A received snapshot shows its mapping exactly when it belongs to the present mapping generation; nothing else of the app changes. |
| Effects.AttributionReachesScreen | src/app/workers.rs:118-141 | Evidence for the selected server's running process, scanned, published and received before the selection changes, is what is displayed. |
| Effects.IdentityReplaces | src/app/workers.rs:103-107 | A new identity replaces the old one and its mapping. |
| Effects.PublishQueuesOrCounts | src/app/workers.rs:208-217 | A snapshot carries the held mapping and generation; it is queued while fewer than two wait and otherwise dropped and counted. |
| Effects.ForwardQueuesOrCounts | src/app/channels.rs:26-35 | A finished sample is queued while fewer than sixteen wait and otherwise dropped and counted; what waits is not touched. |
| Effects.RoundClaimsIdle | src/app/workers.rs:265-300 | After a round of claims every slot's flag is set, and exactly the idle slots got a new thread of the present generation; no running poll is touched. |
| Session.InvariantStep | src/app/workers.rs:245-312 | All invariants of the protocol together are kept by every step of every actor. |
| Session.RebuiltSlotsFor | src/app/server.rs:298-312 | Rebuilding from any slots of a duplicate-free set gives one slot an entry of the new list, whose monitor was built for exactly that entry. |
| Session.ClaimExclusive | src/app/workers.rs:265-279 | Claiming a slot keeps the flags, the mutexes and the live threads in one-to-one agreement. |
| Session.ReleaseExclusive | src/app/workers.rs:33-39 | Leaving the monitor, also by unwinding, keeps that agreement. |
| Session.FinishExclusive | src/app/workers.rs:33-39 | So does clearing the flag on drop. |
| Session.ConservedStep | src/app/channels.rs:26-35 | Every step keeps taken samples split into delivered, queued and dropped, with the drop counter equal to the dropped ones. |
| Runs.DeliveredInOrder | src/app/workers.rs:277-309 | For every poll slot the app receives an order-preserving part of what the slot's monitor produced, and no sample twice. |
| Runs.SamplesConserved | src/app/channels.rs:26-35 | Every sample taken off the inner channel is exactly one of delivered, queued (at most 16) or dropped, and the counter counts the dropped. |
| Runs.HistoryIsFold | src/ui/state_llm.rs:58-75 | At every point of every run each server's history is the fold of the samples accepted for it since it joined or restarted, read off the run alone; what is shown is the selected server's own. |
| Runs.HistoryOfOneProcess | src/app/server.rs:150-168 | A history never mixes processes: all of its samples come from monitors built for the process its server has now. |
| Runs.DisplayedGraphs | src/ui/history.rs:562-613 | The graphs on screen hold the newest 720 live finite rates of the selected server, at most 60 s old at the latest one, since it joined or restarted. |
| Drains.SamplesDrained | src/app/loop_events.rs:49-69 | Draining the sample channel is a run of single receive steps and ends with the app state the drain loop computes. |
| Drains.SnapshotsDrained | src/app/loop_events.rs:43-48 | The same for fast snapshots. |
| Drains.CommandsDrained | src/app/workers.rs:245-255 | The same for the worker's set changes. |
| Drains.SamplesForwarded | src/app/workers.rs:302-309 | The same for forwarding. |
| Drains.SlotsClaimed | src/app/workers.rs:265-300 | The same for one round of claims. |
| AppLoop.App.constructor | src/app.rs:188-217 | The loop starts with the assembled set, the requested or first selection and its identity published. |
| AppLoop.App.PublishSelectedMapping | src/app/server.rs:208-217 | A new mapping generation is sent with the identity. |
| AppLoop.App.SyncServerSet | src/app/server.rs:125-190 | The new app state and both messages of a set change, as the function the protocol steps by. |
| AppLoop.App.SelectServer | src/app/loop_events.rs:209-230 | The same for Enter in the server selector. |
| AppLoop.App.ApplyLlmSample | src/app/loop_events.rs:49-69 | The same for one received sample. |
| AppLoop.App.PumpSnapshots | src/app/loop_events.rs:44-70 | The two drains apply every queued mapping and sample in order; a gone worker is reported once its channel is empty. |
| AppFacts.ChangedIdentityKeysAre | src/app/server.rs:219-233 | A key is reported exactly when both sets have it with different identities. |
| AppFacts.HistoriesForRefines | src/app/server.rs:150-179 | A set change drops or restarts exactly the histories of gone and restarted servers and leaves every other history as it was. |
| AppFacts.SyncedAgrees | src/app/server.rs:125-190 | A set change keeps the app state in agreement. |
| AppFacts.ChosenAgrees | src/app/loop_events.rs:209-230 | Selecting keeps it and changes no history. |
| AppFacts.LlmAppliedAgrees | src/app/loop_events.rs:49-69 | Applying a sample keeps it. |
| Channels.SyncChannel.TrySendSnapshot | src/app/channels.rs:26-35 | A full channel keeps what it holds, loses the incoming value and counts it; only a gone receiver is reported. |
| Channels.SyncChannel.TryReceive | src/app/channels.rs:13-24 | Queued values come out in order and outlive their sender. |
| Workers.RebuiltServes | src/app/server.rs:298-312 | Each rebuilt slot is the old slot of exactly that spec, or a new monitor built for it, wherever it stands in the list. |
| Workers.LlmWorker.RebuildPollSlots | src/app/server.rs:298-312 | Walking the list while taking matches out of the old set gives those slots. |
| Workers.LlmWorker.DrainCommands | src/app/workers.rs:245-255 | All queued set changes are applied in order. |
| Workers.LlmWorker.ClaimAll | src/app/workers.rs:265-300 | One round of claims, a busy slot skipped. |
| Workers.LlmWorker.Forward | src/app/workers.rs:302-312 | Finished samples are offered in order until the app is gone. |
| Workers.FastWorker.DrainIdentities | src/app/workers.rs:103-107 | The newest identity counts and the old mapping is dropped. |
| Workers.FastWorker.RefreshMapping | src/app/workers.rs:125-141 | The mapping is recomputed for the present identity, or cleared without one. |
| Workers.FastWorker.Publish | src/app/workers.rs:208-217 | A snapshot is stamped with the generation its mapping belongs to. |
| StateLlm.UiState.RecordLlmSample | src/ui/state_llm.rs:58-75 | Recording updates one server's history, and the active one when selected. |
| StateLlm.UiState.SelectLlmHistory | src/ui/state_llm.rs:100-106 | Selecting shows the server's own history. |
| StateLlm.UiState.ResetLlmHistory | src/ui/state_llm.rs:110-115 | Resetting forgets one history, also on screen. |
| StateLlm.UiState.RetainLlmHistories | src/ui/state_llm.rs:119-125 | Retaining forgets the histories of gone servers. |
| StateLlm.RecordRefines | src/ui/state_llm.rs:58-75 | Seen through the map of histories, recording folds the sample into that server's history and no other, and the mirror stays true. |
| StateLlm.RetainRefines | src/ui/state_llm.rs:119-125 | Retaining changes no kept history, and the mirror stays true. |
| History.DequeIsReference | src/ui/history.rs:539-557 | With a monotone clock, after any run of pushes a history is the newest 720 of all finite values pushed that are at most 60 s old at the latest one, sorted by time. |
| History.SampleDeque.Push | src/ui/history.rs:591-613 | One push in place: append, drop what expired from the front, then drop down to 720. |
| History.HistoryGraphsAreReference | src/ui/history.rs:562-589 | Both graphs of a server are that reference over exactly the rates of its live samples. |
| History.ConnectionOverRun | src/ui/history.rs:562-589 | Over any run a server is connected since exactly the live observation its present connection began with, flashes for two seconds from there, and a held sample neither makes nor breaks a connection. |
| History.AgesOverRun | src/ui/history.rs:562-576 | The measurement age counts from the latest live observation, the observation time from the last of all. |
| History.IntervalOverRun | src/ui/history.rs:22-36 | The sample interval is the smoothing of the gaps between live observations of the latest connection, each between a millisecond and a minute, and starts over with every connection. |
| History.ResampleHistory | src/ui/history.rs:477-515 | The one-pass resampler gives every column what a full scan for that column gives, on every time-sorted history, and on any history the last point before the first later one. |
| History.ScanIsPointer | src/ui/history.rs:477-515 | On a sorted history the full scan and the pointer agree for every target time. |
| History.TargetsSpread | src/ui/history.rs:477-515 | The columns' targets end now, begin a whole window ago and lie evenly between. |
| Monitor.LlamaMonitor.Sample | src/llama/monitor.rs:273-339 | One poll from the fetched outcomes on: rates, acceptance, Strata's own decode rate and phase, request progress filled in where the slots told none, and the new baselines. |
| Monitor.LlamaMonitor.UpdateMetricCounters | src/llama/monitor.rs:448-512 | Rates and acceptance since the baseline, then the new baseline. |
| Monitor.LlamaMonitor.UpdateLiveSlotThroughput | src/llama/monitor.rs:518-534 | Slot rates since the slot baseline, then the new one. |
| Monitor.RatesUseThePreviousPoll | src/llama/monitor.rs:273-316 | Over any run of polls a rate is decided by that poll and the one just before: none at first, after an outage, after a format switch or in a new Strata epoch. |
| Monitor.CounterRatesAre | src/llama/metrics.rs:62-81 | Over any run, resets included: a counter rate is there if and only if the two polls are adjacent in one source and epoch, time passed and the counter did not go back; it is then that gain over that time. A reset gives none, never a zero. |
| Monitor.PollShows | src/llama/monitor.rs:302-339 | Strata's own rate and phase, otherwise the slots' rate and in its absence the counter's; and the progress the slots told, in its absence Strata's. |
| Monitor.RatesTelescope | src/llama/metrics.rs:64-81 | Over a run without reset the rates times elapsed times add up to the counter's gain, last minus first. |
| Monitor.NoCatchUp | src/llama/monitor.rs:292-301 | Over any run, with outages, format switches and gaps anywhere but a counter that never goes back, the rates never add up to more than the counter gained from the first poll that told it to the last. |
| Monitor.MeasuredIs | src/llama/monitor.rs:469-495 | Acceptance is measured if and only if drafts grew and accepted drafts did not go back between comparable polls: their ratio in percent, held to 0..100. |
| Monitor.AcceptanceShown | src/llama/monitor.rs:469-501 | A shown acceptance was measured over the interval just ended or is the last measured one, at most three seconds old. |
| Slots.SlotDeltaTps | src/llama/slots.rs:200-299 | Both rates of the loop equal the declarative rate: available exactly when time passed, slots are there, pair up, nothing was reset and something was reported; then the saturated sum of paired gains over the time. |
| Slots.PairedIsBijection | src/llama/slots.rs:224-288 | Two samples pair up exactly when their slot ids are a bijection that keeps the tasks. |
| Slots.SlotRatePermuted | src/llama/slots.rs:200-299 | Reordering either sample changes no rate. |
| Slots.OneSlotRates | src/llama/slots.rs:247-298 | For a slot that kept its id and task each rate is the gain of its own counter over the time, absent after a reset or when either side is silent. |
| SlotSummary.ApplySlotsJson | src/llama/slots.rs:20-183 | Every slot's four counters as reported; the number of busy slots; the occupancy and slot shown from the first maximum among busy slots that report, else among all; request totals that are full saturated sums over the busy slots or unknown; the entries of every id in array order, sorted by id; speculation on once any slot speculates, with the largest draft length; the error cleared and nothing else changed. |
| SlotSummary.RankingsLookAt | src/llama/slots.rs:117-133 | The rankings look at a slot's reported occupancy or its capacity, the busy ones at processing slots only. |
| SlotSummary.SortByIdSorts | src/llama/slots.rs:144-154 | The overview is a stable, id-sorted permutation. |
| Grace.ServerMonitor.StabilizeLlmSample | src/app/server.rs:314-344 | One poll's published sample and what is remembered. |
| Grace.HoldsCarryLatestGood | src/app/server.rs:314-344 | Over any run a published sample is held exactly for a soft failure within the grace of the most recent connected poll, and then carries that poll's payload, so holds never renew themselves and hard failures are never held. |
| Grace.HeldAddsNoPoint | src/ui/history.rs:562-589 | A held sample adds no graph point and moves nothing but the observation time. |
| Grace.HardByMark | src/app/server.rs:326-330 | An error with one of the four marks, in any case and anywhere, is hard. |
| Grace.SoftWithoutMark | src/app/server.rs:326-330 | An error without any of them is not. |
| Grace.UninitializedIsNeverHeld | src/app/server.rs:261-274 | A monitor whose client could not be built publishes its error in every poll, whatever came before, and never an earlier sample. |
| Holds.SlotsPublishTheirPolls | src/app/workers.rs:276-299 | In every run of the protocol a slot's samples are, one for one, what the hold publishes over the polls of that slot's own monitor. |
| Holds.ReconnectingShowsLatestGood | src/app/server.rs:314-344 | Whenever the screen says reconnecting it shows the payload of the latest connected poll, within the grace, of one monitor of the selected server. |
| ServerSet.CollectServerList | src/main.rs:447-485 | The loops over configured and discovered endpoints build the specified list. |
| ServerSet.ServerListBuilder.PushServer | src/main.rs:493-510 | One endpoint is added, merged or ignored. |
| ServerSet.CollectedListIsDedup | src/main.rs:447-510 | Monitored then overflow is the first-occurrence deduplication by key of the primary, the extras and everything discovered, each with the first identity known for its key; if all of these are blank it is exactly the default. Between one and sixteen are monitored, and overflow begins only at sixteen. |
| MonitoredFlags.MonitoringStatus | src/server_editor.rs:99-121 | The dialog's flags and counts from the first occurrences of the configured keys. |
| MonitoredFlags.PolledByPlace | src/main.rs:447-485 | A non-blank configured endpoint is polled by its place among configured keys alone, whatever is discovered. |
| MonitoredFlags.FlagsMirrorRuntime | src/server_editor.rs:93-121 | The dialog's flag of a non-blank entry agrees with the runtime if and only if the entry is not the seventeenth key after a blank one. |
| MonitoredFlags.FlagsRightWithoutBlanks | src/server_editor.rs:93-121 | With no blank entry configured every flag is right. |
| MonitoredFlags.BlankPrimaryMisleads | src/server_editor.rs:93-121 | The function on a blank primary and sixteen distinct extras: the last is polled and flagged as not polled. |
| ServerDialog.DialogFlagsAreRight | src/ui/state_settings.rs:359-364 | For any loaded configuration, any edits of the dialog's list, any non-blank primary and anything discovered, an entry is flagged as monitored exactly when the runtime polls it. |
| ServerDialog.DialogListIsSaved | src/ui/state_settings.rs:366-397 | After any edits the dialog's list is saved word for word. |
| ServerDialog.EditsOfList | src/ui/state_settings.rs:253-357 | Deleting drops the highlighted entry and keeps the others in order, an acceptable draft replaces its entry or joins at the end, any other changes nothing, and no other edit touches the list. |
| ServerDialog.EndpointList.CommitDraft | src/ui/state_settings.rs:304-357 | A draft is rejected as invalid or as a duplicate of the primary or of another entry, or else replaces its entry or is appended. |
| ServerDialog.EndpointList.DeleteHighlighted | src/ui/state_settings.rs:267-276 | The highlighted entry goes and the highlight stays within the list. |
| Config.RenderConfig | src/config.rs:297-333 | The line-building code writes the specified text. |
| Config.ParseConfig | src/config.rs:349-431 | The parsing loop and its legacy rules compute the specified configuration. |
| Config.SanitizedTwice | src/config.rs:62-86 | Sanitizing again changes nothing. |
| Config.RoundTrip | src/config.rs:297-431 | For any text in `servers`, a saved configuration reads back as its sanitized self if and only if the primary server has no line break and the selector is canonical. |
| Config.TypedRoundTrip | src/config.rs:297-431 | For a selector typed on one line the same holds if and only if the server has no line break and the text has no mixed-case vendor prefix and is no bare MIG prefix. |
| Config.TypedSelectorChanges | src/domain.rs:366-386 | The input on which it fails: `Gpu-1a` is saved as an address and read back as the identity `GPU-1a`. |
| ConfigFields.SettingsByKey | src/config.rs:349-431 | Each setting of any text is the latest usable value of its own key; `gpu_index` counts exactly without a `gpu` line, and a primary server without a usable `auto_discovery` turns discovery off. |
| ConfigFields.NumbersByKey | src/config.rs:391-405 | The intervals are the latest readable number of their key or the default, clamped. |
| ConfigWords.SettingNames | src/config.rs:10-17 | The eight keys of a configuration line, and no others. |
| ConfigWords.BoolWords | src/config.rs:433-439 | Four words switch on, four switch off, in any case, and others do neither. |
| ConfigWords.CommaListPieces | src/config.rs:375-380 | A comma list holds the trimmed, non-blank pieces between its commas, all of them and in order. |
| ConfigWords.CleanedIsAssembled | src/config.rs:64-78 | Cleaning the saved extras keeps, server by server, what list assembly keeps of them: the first mention of each key, trimmed and in order. |
| Text.NumbersAccepted | src/config.rs:392-406 | A number is a non-empty string of digits after an optional plus sign, within the type's maximum. |
| Json.StandardEscapes | src/config.rs:368-373 | The escapes of section 7 of RFC 8259 and no others. |
| Json.SkipsLeadingBlanks | src/config.rs:368-373 | Between tokens exactly the blanks of section 2 of RFC 8259 are skipped. |
| Json.ReadWrittenArray | src/config.rs:303-310 | Reading a written array of any strings gives them back, escapes included. |
| Json.ArrayPrintable | src/config.rs:303-310 | A written array starts with its bracket and has no line break and no whitespace at its ends. |
| Gpu.SelectorReadsBack | src/domain.rs:366-431 | A sanitized selector on one line reads back as itself if and only if it is canonical. |
| Gpu.TypedIsCanonical | src/domain.rs:366-386 | Text typed on one line gives a canonical selector if and only if it has none of the misread prefixes. |
| Gpu.BareMigAlternates | src/domain.rs:234-238 | A bare MIG prefix is an address in one reading and an identity in the next. |
| Gpu.ValidBdfIsCanonical | src/domain.rs:171-230 | Every valid PCI address is canonical once sanitized. |
| Gpu.LongAddressIsShort | src/domain.rs:162-195 | The eight-digit spelling of an address is the same as its four-digit spelling. |
| Gpu.SanitizedIsSanitized | src/domain.rs:422-431 | Sanitizing a selector is final. |
| Text.LinesOfTerminated | src/config.rs:332-332 | Splitting terminated lines gives the lines back. |
| Text.PrintNatParses | src/config.rs:391-405 | A printed number parses back. |
| SaveRuns.TargetIsRegister | src/config.rs:154-180 | Under any interleaving of saves, failures and crashes the target holds the original text or all of the latest save that took effect, private from then on; each save takes effect at most once, every one that returned success did and none that returned an error. |
| SaveRuns.PowerLossKeepsWholeSaves | src/config.rs:224-247 | A power loss at any moment leaves the original text or one whole save, none older than the last durable one. |
| SaveRuns.FlushedSaveSurvives | src/config.rs:266-275 | Once a save's directory entry was flushed, no later power loss brings back what it replaced. |
| SaveRuns.SavesTouchOnlyTheirOwn | src/config.rs:224-247 | A step of a save changes no file it did not create, unlinks no other, and moves the target only by its rename. |
| SaveRuns.NoTemporaryLeft | src/config.rs:240-245 | Once all saves have returned without crash or failed clean-up, nothing they created is linked anywhere but at the target. |
| SaveRuns.SavedFilesArePrivate | src/config.rs:249-261 | From its creation on, also while it is written, every file a save made is closed to everyone but its owner. |
| SaveRuns.TempNameInjective | src/config.rs:212-219 | Temporary names of different processes or counts differ. |
| SaveRuns.NoCollisionWithin | src/config.rs:210-219 | The next name a process tries is never held by a save of the same process or of one with another id. |
| AtomicSave.InvariantStep | src/config.rs:154-247 | Every step of every save keeps ownership, staging, links, durable entries and names in order. |
| SaveCall.SaveToPath | src/config.rs:165-180 | One call on a resolved target with nobody else acting: it succeeds if and only if, within eight names, the first attempt that does not collide completes. Success leaves all of the new text, an error the target as it was, and the temporary is gone unless removing it failed; every system call is a step of that save. |
| SaveCall.ReplaceFileAtomically | src/config.rs:224-247 | One attempt: it collides if and only if creating does not fail otherwise and the name is taken, and succeeds if and only if the name is free and create, writes, permissions, flush and rename succeed; else it is given up and cleaned up. |
| SaveCall.WriteAll | src/config.rs:228-232 | Repeated writes succeed if and only if what they accept before taking nothing covers the text. |
| SavedConfig.ResolveSaveTarget | src/config.rs:186-208 | The end of a chain of fewer than sixteen links, never a link itself; a longer chain is the kernel's answer and an unreadable one an error. |
| SavedConfig.ChainEndsOrGoesOn | src/config.rs:186-208 | A chain either ends before a number of hops or is still following links then. |
| SavedConfig.ReadersSeeWholeConfigs | src/config.rs:146-153 | Whoever reads the file while saves run gets the original text or the latest saved configuration, which parses to exactly what was saved. |
| SavedConfig.PowerLossLeavesWholeConfigs | src/config.rs:146-153 | The same after a power loss. |
| Drm.AggregateFds | src/drm.rs:157-190 | The loop gives, for every device in order of appearance, the saturated sums over the first descriptor of each client. |
| Drm.MergeEngine | src/drm.rs:256-274 | One descriptor's engine is added up and its capacity maximised. |
| DrmTotals.RepeatsChangeNothing | src/drm.rs:157-167 | Another descriptor of a known client, anywhere after the first, changes no number, no device and no order. |
| DrmTotals.KeptOncePerClient | src/drm.rs:157-167 | With equal payloads a client counts once and an unidentified descriptor as often as it is listed. |
| DrmTotals.TotalsOverDistinctClients | src/drm.rs:157-190 | Every number of a device depends only on the set of clients, not on order or repetition. |
| DrmTotals.EngineTotals | src/drm.rs:256-274 | An engine's counters are the saturated sums over the descriptors that report them, absent if none does; its capacity is the largest. |
| DrmTotals.OneDescriptor | src/drm.rs:168-187 | With a single descriptor driver, count and memory are that descriptor's own. |
| DrmTotals.OneEngine | src/drm.rs:256-274 | And so is every counter of every engine. |
| DrmSampling.DrmSampler.EngineUtilization | src/drm.rs:278-329 | Utilization against the old baseline, which the reading then replaces. |
| DrmSampling.DrmSampler.SampleProcessGpus | src/drm.rs:106-219 | One sample of a process: its devices in order of appearance with their totals, their engines sorted by name with their utilizations, and the moved baselines; all other baselines stay. |
| DrmSampling.SortEngines | src/drm.rs:188-208 | The engines of a device come out sorted by name, each once. |
| DrmSampling.DrmSampler.RetainLive | src/drm.rs:93-98 | Pruning forgets exactly the baselines of processes that are gone. |
| DrmSampling.BaselineIsLatestReading | src/drm.rs:278-329 | Over any run of samples and prunes a baseline is the engine's latest reading since its process was last pruned. |
| DrmSampling.MeasuredAgainstLatest | src/drm.rs:278-360 | A sample reports utilization exactly when such a reading exists and is of the same kind, no counter went back and time (or total cycles) passed. |
| DrmSampling.UtilizationByTime | src/drm.rs:335-340 | Nanosecond counters: the gain's share of the time passed, if and only if the counter did not go back and time passed. |
| DrmSampling.UtilizationByCycles | src/drm.rs:345-360 | Cycle counters: the gain's share of the total cycles passed, if and only if neither went back and the total advanced. |
| DrmSampling.ReportedCounters | src/drm.rs:190-207 | The counters reported of an engine are the saturated sums of its device's counted descriptors. |
| DrmSampling.FirstSampleUnmeasured | src/drm.rs:93-98 | After pruning, or under a new start time, the first sample reports none. |
| DrmSampling.UtilizationTelescopes | src/drm.rs:335-360 | Over a reset-free run utilization times the time or cycles it covers adds up to the counter's gain, whatever else is sampled or pruned in between. |

## Left out

- Generations and identifiers: unbounded numbers, so the wrap-around of `wrapping_add` after 2^64 set changes is not modelled.
- Scheduling: an actor's steps may come in any order the channels allow, which includes more interleavings than the worker loops' fixed phases; a set change or a selection with the messages it sends is one step of the app.
- Shutdown: the steps of the protocol are those of a run in which nobody has disconnected; a gone receiver appears only in `TrySendSnapshot`, `Forward` and `Publish`, a gone sender in `TryReceive` and `PumpSnapshots`.
- Monitors in the protocol: a poll may return any statistics that do not say reconnecting; what a real monitor returns is modelled apart in `Monitor` and `SlotSummary`.
- GPU evidence: the devices a scan finds are an arbitrary list; how they are found is not part of this model.
- Fast snapshots: only their mapping part is modelled, not their GPU and system readings; `clamp_process_selection` and `push_sample` are left out.
- `build_server_summaries`, the selected-server label and the drop counters shown, `update_resolved_server`, the redraw scheduler and all other keys: presentation.
- The dialog's other fields and keys: only its list of additional servers is modelled; whether a URL has a host is a parameter.
- `apply_props_result` and the speculative-decoding fields outside `/slots`: copied from parsed input.
- Floating point: counters and rates are exact reals or not finite; rounding is not modelled, and the truncation of an elapsed time to 64-bit nanoseconds never happens.
- HTTP, JSON documents other than arrays of strings, the Prometheus parser, fdinfo parsing: their outcomes are inputs.
- `serde_json` limits: the array parser has no depth or size limit; it accepts and rejects arrays of strings only.
- `server_key`: any function with the stated property stands for it; URL normalisation is not part of this model.
- Unicode: text is a sequence of code points; invalid UTF-8 in a file is a read error and not part of this model.
- SaveRuns.TargetIsRegister: assumes of other programs that they leave the target's name and contents alone, also the original's once it is unlinked; that they link no file a save made under another name; and that they do not touch a temporary, be it in use or left behind by a crash or a failed clean-up. Other names, also those a save will try next, they may use freely. A freed inode number is never used again.
- SaveRuns.PowerLossKeepsWholeSaves: assumes that flushed contents stay, that a rename is one atomic change of the directory entry, and that the original file was on disk.
- Target resolution: a save's target is already resolved; links are followed in one unchanging tree, and every save of a run has the same target; directories are not created.
- Drm.AggregateFds: an engine list is any list without repeated names, as the table it comes from gives it.
- Engine readings: a stored one always has its time, so the source's optional time is a plain one here.
- Loading: finding the file, and the fall-back to defaults when it is missing or unreadable; only its text is modelled.
