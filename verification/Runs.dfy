/** What the app receives and remembers over whole runs: order and conservation
    of samples, and the histories as folds of accepted samples
    (src/app/workers.rs, src/app/channels.rs, src/ui/state_llm.rs). */
module Runs {
  import opened Domain
  import opened History
  import opened StateLlm
  import opened Messages
  import opened AppLoop
  import opened AppFacts
  import opened Session

  // ---------------------------------------------------------------------
  // Order and conservation
  // ---------------------------------------------------------------------

  function OfSlot(s: seq<LlmSample>, cell: nat): seq<LlmSample> {
    if s == [] then []
    else
      var rest := OfSlot(s[..|s| - 1], cell);
      if s[|s| - 1].origin.cell == cell then rest + [s[|s| - 1]] else rest
  }

  /** `s` lists samples of one slot, from `produced`, by rising serial below `n`. */
  predicate Rising(s: seq<LlmSample>, produced: seq<LlmSample>, cell: nat, n: nat) {
    && n <= |produced|
    && (forall i, j :: 0 <= i < j < |s| ==> s[i].origin.serial < s[j].origin.serial)
    && (forall i :: 0 <= i < |s| ==>
          s[i].origin.serial < n && FromProduced(s[i], produced) && s[i].origin.cell == cell)
  }

  lemma {:induction false} RisingIsSubsequence(s: seq<LlmSample>, produced: seq<LlmSample>, cell: nat, n: nat)
    requires Rising(s, produced, cell, n)
    ensures IsSubsequence(s, OfSlot(produced[..n], cell))
    decreases n
  {
    if s != [] {
      var last := s[|s| - 1];
      var shorter := produced[..n - 1];
      assert produced[..n][..n - 1] == shorter && produced[..n][n - 1] == produced[n - 1];
      var all := OfSlot(produced[..n], cell);
      if last.origin.serial == n - 1 {
        RisingIsSubsequence(s[..|s| - 1], produced, cell, n - 1);
        assert all[..|all| - 1] == OfSlot(shorter, cell);
      } else {
        forall i | 0 <= i < |s|
          ensures s[i].origin.serial < n - 1
        {
          if i < |s| - 1 {
            assert s[i].origin.serial < last.origin.serial;
          }
        }
        RisingIsSubsequence(s, produced, cell, n - 1);
        if all != OfSlot(shorter, cell) {
          assert all[..|all| - 1] == OfSlot(shorter, cell);
        }
      }
    }
  }

  lemma {:induction false} OfSlotMembers(s: seq<LlmSample>, cell: nat)
    ensures forall k :: 0 <= k < |OfSlot(s, cell)| ==> OfSlot(s, cell)[k] in s && OfSlot(s, cell)[k].origin.cell == cell
  {
    if s != [] {
      OfSlotMembers(s[..|s| - 1], cell);
    }
  }

  lemma LastInFront(s: seq<LlmSample>, x: LlmSample)
    requires InOrder(s) && s != [] && x in s[..|s| - 1] && SameSlot(x, s[|s| - 1])
    ensures x.origin.serial < s[|s| - 1].origin.serial
  {
    var i :| 0 <= i < |s| - 1 && s[..|s| - 1][i] == x;
    assert InFront(s[i], s[|s| - 1]);
  }

  lemma RisingOneMore(rest: seq<LlmSample>, produced: seq<LlmSample>, cell: nat, last: LlmSample)
    requires Rising(rest, produced, cell, |produced|) && FromProduced(last, produced) && last.origin.cell == cell
    requires forall k :: 0 <= k < |rest| ==> rest[k].origin.serial < last.origin.serial
    ensures Rising(rest + [last], produced, cell, |produced|)
  {
  }

  lemma {:induction false} OfSlotRising(s: seq<LlmSample>, produced: seq<LlmSample>, cell: nat)
    requires InOrder(s) && forall i :: 0 <= i < |s| ==> FromProduced(s[i], produced)
    ensures Rising(OfSlot(s, cell), produced, cell, |produced|)
  {
    if s != [] {
      var front, last := s[..|s| - 1], s[|s| - 1];
      OfSlotRising(front, produced, cell);
      if last.origin.cell == cell {
        OfSlotMembers(front, cell);
        forall k | 0 <= k < |OfSlot(front, cell)|
          ensures OfSlot(front, cell)[k].origin.serial < last.origin.serial
        {
          LastInFront(s, OfSlot(front, cell)[k]);
        }
        RisingOneMore(OfSlot(front, cell), produced, cell, last);
      }
    }
  }

  lemma {:induction false} SubsequenceInOrder(a: seq<LlmSample>, b: seq<LlmSample>)
    requires IsSubsequence(a, b) && InOrder(b)
    ensures InOrder(a)
    ensures forall x :: x in a ==> x in b
    decreases |b|
  {
    if a != [] {
      var less := b[..|b| - 1];
      if IsSubsequence(a, less) {
        SubsequenceInOrder(a, less);
        assert forall x :: x in less ==> x in b;
      } else {
        var shorter := a[..|a| - 1];
        SubsequenceInOrder(shorter, less);
        assert forall x :: x in less ==> x in b;
        forall i | 0 <= i < |a| - 1 && SameSlot(a[i], a[|a| - 1])
          ensures a[i].origin.serial < a[|a| - 1].origin.serial
        {
          assert shorter[i] in less;
          var k :| 0 <= k < |less| && less[k] == shorter[i];
          assert b[k] == a[i];
        }
        forall x | x in a
          ensures x in b
        {
          assert x in shorter || x == a[|a| - 1];
        }
      }
    }
  }

  lemma {:induction false} SubsequencePrefix(a: seq<LlmSample>, c: seq<LlmSample>, b: seq<LlmSample>)
    requires IsSubsequence(a + c, b)
    ensures IsSubsequence(a, b)
    decreases |b|
  {
    if a != [] {
      var whole := a + c;
      if IsSubsequence(whole, b[..|b| - 1]) {
        SubsequencePrefix(a, c, b[..|b| - 1]);
      } else if c != [] {
        assert whole[..|whole| - 1] == a + c[..|c| - 1];
        SubsequencePrefix(a, c[..|c| - 1], b[..|b| - 1]);
      } else {
        assert whole == a;
      }
    }
  }

  /** Order: for every poll slot, what the app received is an order-preserving
      part of what that slot's monitor produced, with no sample twice. */
  lemma DeliveredInOrder(states: seq<World>, steps: seq<Step>, i: nat, cell: nat)
    requires IsRun(states, steps) && i < |states|
    ensures var log := states[i].log;
      && IsSubsequence(OfSlot(log.delivered, cell), OfSlot(log.produced, cell))
      && forall m, n :: 0 <= m < n < |log.delivered| ==> log.delivered[m] != log.delivered[n]
  {
    InvariantAlways(states, steps, i);
    var w := states[i];
    var log := w.log;
    assert forall k :: 0 <= k < |log.taken| ==> Flow(w)[k] == log.taken[k];
    SubsequencePrefix(log.delivered, w.outer.queue, log.taken);
    SubsequenceInOrder(log.delivered, log.taken);
    forall m | 0 <= m < |log.delivered|
      ensures FromProduced(log.delivered[m], log.produced)
    {
      assert log.delivered[m] in log.taken;
      var k :| 0 <= k < |log.taken| && log.taken[k] == log.delivered[m];
      assert FromProduced(Flow(w)[k], log.produced);
    }
    OfSlotRising(log.delivered, log.produced, cell);
    RisingIsSubsequence(OfSlot(log.delivered, cell), log.produced, cell, |log.produced|);
    assert log.produced[..|log.produced|] == log.produced;
    forall m, n | 0 <= m < n < |log.delivered|
      ensures log.delivered[m] != log.delivered[n]
    {
      if log.delivered[m] == log.delivered[n] {
        assert SameSlot(log.delivered[m], log.delivered[n]);
      }
    }
  }

  /** Conservation: a sample taken off the inner channel is exactly one of
      delivered, queued (at most 16) or dropped, and the drop counter counts
      the dropped ones. */
  lemma SamplesConserved(states: seq<World>, steps: seq<Step>, i: nat)
    requires IsRun(states, steps) && i < |states|
    ensures var w := states[i];
      && |w.outer.queue| <= 16 && w.outer.drops == |w.log.dropped|
      && |w.log.taken| == |w.log.delivered| + |w.outer.queue| + w.outer.drops
      && forall s :: s in w.log.taken ==>
           multiset(w.log.delivered)[s] + multiset(w.outer.queue)[s] + multiset(w.log.dropped)[s] == 1
  {
    InvariantAlways(states, steps, i);
    var w := states[i];
    assert |w.log.taken| == |multiset(w.log.taken)|;
    forall s | s in w.log.taken
      ensures multiset(w.log.taken)[s] == 1
    {
      TakenOnce(w, s);
    }
  }

  lemma TakenOnce(w: World, s: LlmSample)
    requires InOrder(Flow(w)) && s in w.log.taken
    ensures multiset(w.log.taken)[s] == 1
  {
    var k :| 0 <= k < |w.log.taken| && w.log.taken[k] == s;
    assert forall j :: 0 <= j < |w.log.taken| ==> Flow(w)[j] == w.log.taken[j];
    OnceInOrder(w.log.taken, k);
  }

  lemma OnceInOrder(s: seq<LlmSample>, k: nat)
    requires k < |s| && InOrder(s)
    ensures multiset(s)[s[k]] == 1
  {
    forall i | 0 <= i < |s| && i != k
      ensures s[i] != s[k]
    {
      assert SameSlot(s[i], s[k]) ==> s[i].origin.serial != s[k].origin.serial;
    }
    var before, after := s[..k], s[k + 1..];
    assert s == before + [s[k]] + after;
    assert multiset(before)[s[k]] == 0 && multiset(after)[s[k]] == 0;
  }

  // ---------------------------------------------------------------------
  // Histories
  // ---------------------------------------------------------------------

  datatype Accepted = Accepted(sample: LlmSample, now: Instant)

  function Observations(accepted: seq<Accepted>): seq<Observation> {
    if accepted == [] then []
    else
      var last := accepted[|accepted| - 1];
      Observations(accepted[..|accepted| - 1]) + [Observation(last.sample.stats, last.now)]
  }

  /** How one step changes the samples accepted for `key`. */
  function AcceptedAfter(w: World, step: Step, key: string, before: seq<Accepted>): seq<Accepted>
    requires Enabled(w, step)
  {
    match step
    case Sync(next) => if Continues(w.app.serverList, next.monitored, key) then before else []
    case ReceiveLlm(now) =>
      var sample := w.outer.queue[0];
      if Accepts(w.app, sample) && sample.server == key then before + [Accepted(sample, now)] else before
    case _ => before
  }

  /** The samples of server `key` accepted up to state i since it joined the
      set or was last restarted: read off the run, not off any state. */
  ghost function AcceptedSince(states: seq<World>, steps: seq<Step>, i: nat, key: string): seq<Accepted>
    requires IsRun(states, steps) && i < |states|
  {
    if i == 0 then []
    else
      assert Enabled(states[i - 1], steps[i - 1]);
      AcceptedAfter(states[i - 1], steps[i - 1], key, AcceptedSince(states, steps, i - 1, key))
  }

  lemma SyncHistory(a: AppState, next: ServerList, key: string)
    requires AppAgrees(a) && ValidSet(next.monitored)
    ensures HistoryOf(Synced(a, next).0.ui.histories, key)
         == if Continues(a.serverList, next.monitored, key) then HistoryOf(a.ui.histories, key) else EMPTY_HISTORY
  {
    if next.monitored != a.serverList {
      ReplacedAgrees(a.(overflow := next.overflow), next.monitored);
    } else {
      EntryOfHasKey(a.serverList, key);
      EndpointMapIs(a.serverList);
    }
  }

  lemma ReceiveHistory(a: AppState, sample: LlmSample, now: Instant, key: string)
    requires AppAgrees(a)
    ensures HistoryOf(LlmApplied(a, sample, now).ui.histories, key)
         == if Accepts(a, sample) && sample.server == key
            then Observed(HistoryOf(a.ui.histories, key), sample.stats, now) else HistoryOf(a.ui.histories, key)
  {
    EndpointMapIs(a.serverList);
    if Accepts(a, sample) {
      RecordRefines(a.ui, sample.server, a.selected, sample.stats, now);
    }
  }

  lemma ObservationsAppend(accepted: seq<Accepted>, a: Accepted)
    ensures FoldObserved(Observations(accepted + [a])) == Observed(FoldObserved(Observations(accepted)), a.sample.stats, a.now)
  {
    assert (accepted + [a])[..|accepted|] == accepted;
    var obs := Observations(accepted);
    assert (obs + [Observation(a.sample.stats, a.now)])[..|obs|] == obs;
  }

  lemma HistoryStep(w: World, step: Step, key: string, before: seq<Accepted>)
    requires AppAgrees(w.app) && Enabled(w, step)
    requires HistoryOf(w.app.ui.histories, key) == FoldObserved(Observations(before))
    ensures HistoryOf(Next(w, step).app.ui.histories, key)
         == FoldObserved(Observations(AcceptedAfter(w, step, key, before)))
  {
    match step
    case Sync(next) => SyncHistory(w.app, next, key);
    case Choose(highlighted) => ChosenAgrees(w.app, highlighted);
    case ReceiveLlm(now) =>
      ReceiveHistory(w.app, w.outer.queue[0], now, key);
      ObservationsAppend(before, Accepted(w.outer.queue[0], now));
    case _ =>
  }

  lemma {:induction false} HistoriesAreFolds(states: seq<World>, steps: seq<Step>, i: nat, key: string)
    requires IsRun(states, steps) && i < |states|
    ensures HistoryOf(states[i].app.ui.histories, key) == FoldObserved(Observations(AcceptedSince(states, steps, i, key)))
  {
    if i == 0 {
      NoHistoryAtStart(states, steps, key);
    } else {
      HistoriesAreFolds(states, steps, i - 1, key);
      AppAlways(states, steps, i - 1);
      HistoryStep(states[i - 1], steps[i - 1], key, AcceptedSince(states, steps, i - 1, key));
    }
  }

  lemma NoHistoryAtStart(states: seq<World>, steps: seq<Step>, key: string)
    requires IsRun(states, steps)
    ensures HistoryOf(states[0].app.ui.histories, key) == EMPTY_HISTORY
  {
  }

  lemma AppAlways(states: seq<World>, steps: seq<Step>, i: nat)
    requires IsRun(states, steps) && i < |states|
    ensures AppAgrees(states[i].app)
  {
    InvariantAlways(states, steps, i);
  }

  lemma ActiveIsSelected(a: AppState)
    requires AppAgrees(a)
    ensures a.ui.active == HistoryOf(a.ui.histories, a.selected)
  {
  }

  /** History refinement: at every point of every run each server's history is
      the fold of the samples accepted for it since it joined or restarted, and
      what is shown is the selected server's own history. */
  lemma HistoryIsFold(states: seq<World>, steps: seq<Step>, i: nat, key: string)
    requires IsRun(states, steps) && i < |states|
    ensures HistoryOf(states[i].app.ui.histories, key) == FoldObserved(Observations(AcceptedSince(states, steps, i, key)))
    ensures states[i].app.ui.active == HistoryOf(states[i].app.ui.histories, states[i].app.selected)
  {
    HistoriesAreFolds(states, steps, i, key);
    AppAlways(states, steps, i);
    ActiveIsSelected(states[i].app);
  }

  /** The monitor a sample came from served `key` with its present identity. */
  predicate FromPresentProcess(a: Accepted, list: seq<ServerSpec>, key: string) {
    && a.sample.origin.spec.key == key
    && EntryOf(list, key).Some?
    && a.sample.origin.spec.identity == EntryOf(list, key).value.identity
  }

  predicate AllFromPresentProcess(accepted: seq<Accepted>, list: seq<ServerSpec>, key: string) {
    forall n :: 0 <= n < |accepted| ==> FromPresentProcess(accepted[n], list, key)
  }

  lemma ListStep(w: World, step: Step, key: string, before: seq<Accepted>)
    requires Enabled(w, step) && AllFromPresentProcess(before, w.app.serverList, key)
    requires step.ReceiveLlm? && Accepts(w.app, w.outer.queue[0]) ==>
               EntryOf(w.app.serverList, w.outer.queue[0].server) == Some(w.outer.queue[0].origin.spec)
    ensures AllFromPresentProcess(AcceptedAfter(w, step, key, before), Next(w, step).app.serverList, key)
  {
    if step.ReceiveLlm? {
      EntryOfHasKey(w.app.serverList, w.outer.queue[0].server);
    }
  }

  /** A history never mixes processes: every sample in it came from a monitor
      of that server built for the process identity it has now. */
  lemma {:induction false} HistoryOfOneProcess(states: seq<World>, steps: seq<Step>, i: nat, key: string)
    requires IsRun(states, steps) && i < |states|
    ensures AllFromPresentProcess(AcceptedSince(states, steps, i, key), states[i].app.serverList, key)
  {
    if i > 0 {
      HistoryOfOneProcess(states, steps, i - 1, key);
      if steps[i - 1].ReceiveLlm? {
        SessionIsolation(states, steps, i - 1);
      }
      ListStep(states[i - 1], steps[i - 1], key, AcceptedSince(states, steps, i - 1, key));
    }
  }

  /** Accepted one after the other, none after `clock`. */
  ghost predicate InTime(obs: seq<Observation>, clock: Instant) {
    && MonotoneObservations(obs)
    && forall n :: 0 <= n < |obs| ==> obs[n].now <= clock
  }

  lemma ObservedInTime(accepted: seq<Accepted>, a: Accepted, clock: Instant)
    requires InTime(Observations(accepted), clock) && clock <= a.now
    ensures InTime(Observations(accepted + [a]), a.now)
  {
    assert (accepted + [a])[..|accepted|] == accepted;
  }

  lemma ClockAdvances(w: World, step: Step)
    requires Enabled(w, step)
    ensures w.clock <= Next(w, step).clock
    ensures step.ReceiveLlm? ==> Next(w, step).clock == step.now
  {
  }

  lemma InTimeStep(w: World, step: Step, key: string, before: seq<Accepted>)
    requires Enabled(w, step) && InTime(Observations(before), w.clock)
    ensures InTime(Observations(AcceptedAfter(w, step, key, before)), Next(w, step).clock)
  {
    ClockAdvances(w, step);
    if step.ReceiveLlm? {
      ObservedInTime(before, Accepted(w.outer.queue[0], step.now), w.clock);
    }
  }

  lemma {:induction false} AcceptedInTime(states: seq<World>, steps: seq<Step>, i: nat, key: string)
    requires IsRun(states, steps) && i < |states|
    ensures InTime(Observations(AcceptedSince(states, steps, i, key)), states[i].clock)
  {
    if i > 0 {
      AcceptedInTime(states, steps, i - 1, key);
      InTimeStep(states[i - 1], steps[i - 1], key, AcceptedSince(states, steps, i - 1, key));
    }
  }

  /** The graph on screen holds the newest 720 finite rates, at most 60 s old at
      the latest one, that the selected server reported live since it joined or
      restarted. */
  lemma DisplayedGraphs(states: seq<World>, steps: seq<Step>, i: nat)
    requires IsRun(states, steps) && i < |states|
    ensures var obs := Observations(AcceptedSince(states, steps, i, states[i].app.selected));
      && states[i].app.ui.active.prefill == Reference(Rate, RatePushes(obs, false))
      && states[i].app.ui.active.decode == Reference(Rate, RatePushes(obs, true))
  {
    var key := states[i].app.selected;
    HistoryIsFold(states, steps, i, key);
    AcceptedInTime(states, steps, i, key);
    HistoryGraphsAreReference(Observations(AcceptedSince(states, steps, i, key)));
  }
}
