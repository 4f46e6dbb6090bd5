/** The offline-grace hold inside the protocol: what a server's samples are,
    poll after poll of its one monitor, and what a held sample on screen shows
    (src/app/workers.rs, src/app/server.rs). */
module Holds {
  import opened Domain
  import opened Llama
  import opened Messages
  import opened Session
  import opened Runs
  import opened Grace

  /** The polls of one cell's monitor, in the order it made them. */
  function PollsOf(produced: seq<LlmSample>, polled: seq<Poll>, cell: nat): seq<Poll>
    requires |polled| == |produced|
  {
    if produced == [] then []
    else
      var n := |produced| - 1;
      var rest := PollsOf(produced[..n], polled[..n], cell);
      if produced[n].origin.cell == cell then rest + [polled[n]] else rest
  }

  /** Sample after sample, the cell published what the hold makes of its polls. */
  ghost predicate Publishes(samples: seq<LlmSample>, polls: seq<Poll>) {
    && |samples| == |polls|
    && (forall k :: 0 <= k < |polls| ==> !polls[k].raw.reconnecting)
    && forall k :: 0 <= k < |samples| ==> samples[k].stats == PublishedAt(polls, k)
  }

  ghost predicate CellAgrees(w: World, cell: nat) {
    && |w.log.polled| == |w.log.produced|
    && Publishes(OfSlot(w.log.produced, cell), PollsOf(w.log.produced, w.log.polled, cell))
    && Lookup(w.lastGood, cell) == After(PollsOf(w.log.produced, w.log.polled, cell))
  }

  lemma PublishesOneMore(samples: seq<LlmSample>, polls: seq<Poll>, sample: LlmSample, poll: Poll)
    requires Publishes(samples, polls) && !poll.raw.reconnecting && sample.stats == Published(After(polls), poll)
    ensures Publishes(samples + [sample], polls + [poll])
    ensures After(polls + [poll]) == Remembered(After(polls), poll)
  {
    var more := polls + [poll];
    assert more[..|polls|] == polls;
    forall k | 0 <= k < |more|
      ensures (samples + [sample])[k].stats == PublishedAt(more, k)
    {
      if k < |polls| {
        assert more[..k] == polls[..k];
      }
    }
  }

  lemma OfSlotOneMore(produced: seq<LlmSample>, polled: seq<Poll>, sample: LlmSample, poll: Poll, cell: nat)
    requires |polled| == |produced|
    ensures OfSlot(produced + [sample], cell) ==
      if sample.origin.cell == cell then OfSlot(produced, cell) + [sample] else OfSlot(produced, cell)
    ensures PollsOf(produced + [sample], polled + [poll], cell) ==
      if sample.origin.cell == cell then PollsOf(produced, polled, cell) + [poll] else PollsOf(produced, polled, cell)
  {
    assert (produced + [sample])[..|produced|] == produced;
    assert (polled + [poll])[..|polled|] == polled;
  }

  lemma SampleStepFields(w: World, t: nat, poll: Poll)
    requires Enabled(w, Sample(t, poll))
    ensures var v, sample := Next(w, Sample(t, poll)), Produced(w, t, poll);
      && v.log.produced == w.log.produced + [sample] && v.log.polled == w.log.polled + [poll]
      && v.lastGood == Remember(w.lastGood, sample.origin.cell, poll)
  {
  }

  lemma RememberedIn(lastGood: map<nat, Good>, cell: nat, poll: Poll, other: nat)
    ensures Lookup(Remember(lastGood, cell, poll), other) ==
      if other == cell then Remembered(Lookup(lastGood, cell), poll) else Lookup(lastGood, other)
  {
  }

  lemma CellSampleStep(w: World, t: nat, poll: Poll, cell: nat)
    requires CellAgrees(w, cell) && Enabled(w, Sample(t, poll))
    ensures CellAgrees(Next(w, Sample(t, poll)), cell)
  {
    var sample := Produced(w, t, poll);
    SampleStepFields(w, t, poll);
    RememberedIn(w.lastGood, sample.origin.cell, poll, cell);
    OfSlotOneMore(w.log.produced, w.log.polled, sample, poll, cell);
    if sample.origin.cell == cell {
      PublishesOneMore(OfSlot(w.log.produced, cell), PollsOf(w.log.produced, w.log.polled, cell), sample, poll);
    }
  }

  lemma CellOtherStep(w: World, step: Step, cell: nat)
    requires CellAgrees(w, cell) && Enabled(w, step) && !step.Sample?
    ensures CellAgrees(Next(w, step), cell)
  {
    var v := Next(w, step);
    assert v.lastGood == w.lastGood && v.log.produced == w.log.produced && v.log.polled == w.log.polled;
  }

  lemma {:induction false} CellAlways(states: seq<World>, steps: seq<Step>, i: nat, cell: nat)
    requires IsRun(states, steps) && i < |states|
    ensures CellAgrees(states[i], cell)
  {
    if i > 0 {
      CellAlways(states, steps, i - 1, cell);
      match steps[i - 1]
      case Sample(t, poll) => CellSampleStep(states[i - 1], t, poll, cell);
      case _ => CellOtherStep(states[i - 1], steps[i - 1], cell);
    }
  }

  /** In every run the samples a poll slot produced are, one for one, what the
      hold publishes over that slot's own polls, whatever other slots did. */
  lemma SlotsPublishTheirPolls(states: seq<World>, steps: seq<Step>, i: nat, cell: nat)
    requires IsRun(states, steps) && i < |states|
    ensures |states[i].log.polled| == |states[i].log.produced|
    ensures Publishes(OfSlot(states[i].log.produced, cell), PollsOf(states[i].log.produced, states[i].log.polled, cell))
  {
    CellAlways(states, steps, i, cell);
  }

  // ---------------------------------------------------------------------
  // What is on screen
  // ---------------------------------------------------------------------

  predicate Logged(stats: LlmStats, key: string, produced: seq<LlmSample>) {
    exists n :: 0 <= n < |produced| && produced[n].server == key && produced[n].stats == stats
  }

  predicate RegistryLogged(w: World) {
    forall key :: key in w.app.registry ==> Logged(w.app.registry[key], key, w.log.produced)
  }

  lemma LoggedGrows(stats: LlmStats, key: string, produced: seq<LlmSample>, more: seq<LlmSample>)
    requires Logged(stats, key, produced) && produced <= more
    ensures Logged(stats, key, more)
  {
    var n :| 0 <= n < |produced| && produced[n].server == key && produced[n].stats == stats;
    assert more[n] == produced[n];
  }

  lemma QueuedIsLogged(w: World)
    requires FlowAgrees(w) && Conserved(w) && w.outer.queue != []
    ensures Logged(w.outer.queue[0].stats, w.outer.queue[0].server, w.log.produced)
  {
    var sample := w.outer.queue[0];
    assert sample in multiset(w.log.taken);
    var k :| 0 <= k < |w.log.taken| && w.log.taken[k] == sample;
    assert Flow(w)[k] == sample;
    assert FromProduced(sample, w.log.produced);
  }

  /** A step leaves a registry entry alone, drops it, or puts in the sample
      received. */
  lemma RegistryChange(w: World, step: Step, key: string)
    requires Enabled(w, step) && key in Next(w, step).app.registry
    ensures var value := Next(w, step).app.registry[key];
      (key in w.app.registry && value == w.app.registry[key])
      || (step.ReceiveLlm? && key == w.outer.queue[0].server && value == w.outer.queue[0].stats)
  {
  }

  lemma ProducedGrows(w: World, step: Step)
    requires Enabled(w, step)
    ensures w.log.produced <= Next(w, step).log.produced
  {
  }

  lemma RegistryStep(w: World, step: Step)
    requires FlowAgrees(w) && Conserved(w) && RegistryLogged(w) && Enabled(w, step)
    ensures RegistryLogged(Next(w, step))
  {
    var v := Next(w, step);
    ProducedGrows(w, step);
    forall key | key in v.app.registry
      ensures Logged(v.app.registry[key], key, v.log.produced)
    {
      RegistryChange(w, step, key);
      if step.ReceiveLlm? {
        QueuedIsLogged(w);
      }
      LoggedGrows(v.app.registry[key], key, w.log.produced, v.log.produced);
    }
  }

  lemma {:induction false} RegistryAlways(states: seq<World>, steps: seq<Step>, i: nat)
    requires IsRun(states, steps) && i < |states|
    ensures RegistryLogged(states[i])
  {
    if i > 0 {
      RegistryAlways(states, steps, i - 1);
      InvariantAlways(states, steps, i - 1);
      RegistryStep(states[i - 1], steps[i - 1]);
    }
  }

  lemma {:induction false} InItsSlot(produced: seq<LlmSample>, n: nat) returns (k: nat)
    requires n < |produced|
    ensures k < |OfSlot(produced, produced[n].origin.cell)|
    ensures OfSlot(produced, produced[n].origin.cell)[k] == produced[n]
  {
    var last := |produced| - 1;
    if n == last {
      k := |OfSlot(produced, produced[n].origin.cell)| - 1;
    } else {
      k := InItsSlot(produced[..last], n);
    }
  }

  /** The sample shown is held from poll `j` of a monitor of the selected server. */
  ghost predicate ShowsHeld(w: World, cell: nat, k: nat, j: nat)
    requires |w.log.polled| == |w.log.produced|
  {
    var polls := PollsOf(w.log.produced, w.log.polled, cell);
    && cell < |w.worker.cells| && w.worker.cells[cell].key == w.app.selected
    && HeldFrom(polls, k, j) && w.app.llm == Held(polls[j].raw)
  }

  /** Whenever the screen says reconnecting, it shows the payload of the latest
      connected poll, within the grace, of one monitor of the selected server. */
  lemma ReconnectingShowsLatestGood(states: seq<World>, steps: seq<Step>, i: nat) returns (cell: nat, k: nat, j: nat)
    requires IsRun(states, steps) && i < |states| && states[i].app.llm.reconnecting
    ensures |states[i].log.polled| == |states[i].log.produced| && ShowsHeld(states[i], cell, k, j)
  {
    var w := states[i];
    var n := ShownIsLogged(states, steps, i);
    cell := w.log.produced[n].origin.cell;
    k := InItsSlot(w.log.produced, n);
    SlotsPublishTheirPolls(states, steps, i, cell);
    var polls := PollsOf(w.log.produced, w.log.polled, cell);
    HoldsCarryLatestGood(polls, k);
    j :| HeldFrom(polls, k, j);
  }

  /** A reconnecting sample on screen was produced for the selected server. */
  lemma ShownIsLogged(states: seq<World>, steps: seq<Step>, i: nat) returns (n: nat)
    requires IsRun(states, steps) && i < |states| && states[i].app.llm.reconnecting
    ensures var w := states[i];
      && n < |w.log.produced| && w.log.produced[n].stats == w.app.llm
      && w.log.produced[n].origin.cell < |w.worker.cells|
      && w.worker.cells[w.log.produced[n].origin.cell].key == w.app.selected
  {
    var w := states[i];
    AppStateAgreement(states, steps, i);
    RegistryAlways(states, steps, i);
    InvariantAlways(states, steps, i);
    assert Logged(w.app.llm, w.app.selected, w.log.produced);
    n :| 0 <= n < |w.log.produced| && w.log.produced[n].server == w.app.selected && w.log.produced[n].stats == w.app.llm;
    assert Tagged(w.log.produced[n], w.log.sets, w.worker.cells);
  }
}
