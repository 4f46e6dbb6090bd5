/** Counter baselines and derived rates of one monitored endpoint
    (src/llama/monitor.rs, src/llama/metrics.rs, src/llama.rs). */
module Monitor {
  import opened Domain
  import opened Slots

  const SPEC_ACCEPTANCE_HOLD: Duration := 3 * NANOS_PER_SEC

  datatype MetricsFormat = Prometheus | Strata

  /** The counters picked from one `/metrics` body. */
  datatype Counters = Counters(
    prompt: Option<Float>, generated: Option<Float>, drafts: Option<Float>, accepted: Option<Float>)

  const NO_COUNTERS := Counters(None, None, None, None)

  /** What a poll fetched. `format` is absent when `/metrics` failed or was not
      recognised; `empty` says a Prometheus body held no sample. `since` and
      `live` are Strata's counter epoch and live section. `slots` are the
      counters of a valid `/slots` array and `request` the progress it told. The
      two clock readings are taken by the counter update and the slot update. */
  datatype Fetched = Fetched(
    format: Option<MetricsFormat>, empty: bool, counters: Counters, since: Option<real>, live: Option<StrataLive>,
    metricsAt: Instant, slots: Option<seq<SlotCounter>>, slotsAt: Instant, request: Progress)

  /** What Strata says of its present work; all absent without a live section. */
  datatype StrataLive = StrataLive(phase: Option<StrataPhase>, decode: Option<Float>, request: Progress)

  datatype StrataPhase = Idle | Reading | Generating

  const NO_LIVE := StrataLive(None, None, Progress(None, None))

  /** Request progress, by counter. */
  datatype Progress = Progress(prompt: Option<nat>, generated: Option<nat>)

  predicate MetricsAvailable(f: Fetched) {
    match f.format
    case Some(Strata) => true
    case Some(Prometheus) => !f.empty
    case None => false
  }

  /** `PreviousMetricCounters`. */
  datatype Baseline = Baseline(at: Option<Instant>, counters: Counters)

  const NO_BASELINE := Baseline(None, NO_COUNTERS)

  datatype SlotBaseline = SlotBaseline(at: Option<Instant>, slots: seq<SlotCounter>)

  const NO_SLOT_BASELINE := SlotBaseline(None, [])

  /** Live rates and acceptance derived from one poll. */
  datatype Derived = Derived(
    prompt: Option<Float>, generation: Option<Float>, acceptancePct: Option<real>, phase: Option<StrataPhase>, request: Progress)

  function CounterDelta(current: Float, previous: Float): Option<real> {
    if current.Finite? && previous.Finite? && current.value >= previous.value
    then Some(current.value - previous.value) else None
  }

  function CounterRate(current: Option<Float>, previous: Option<Float>, seconds: real): Option<real>
    requires seconds > 0.0
  {
    if current.Some? && previous.Some? then
      match CounterDelta(current.value, previous.value)
      case Some(delta) => Some(delta / seconds)
      case None => None
    else None
  }

  function OptionalDelta(current: Option<Float>, previous: Option<Float>): Option<real> {
    if current.Some? && previous.Some? then CounterDelta(current.value, previous.value) else None
  }

  function ClampPct(x: real): real {
    if x < 0.0 then 0.0 else if x > 100.0 then 100.0 else x
  }

  /** Acceptance measured over one interval: needs draft progress and a present
      accepted delta. */
  function Acceptance(now: Counters, before: Counters): Option<real> {
    var drafts, accepted := OptionalDelta(now.drafts, before.drafts), OptionalDelta(now.accepted, before.accepted);
    if drafts.Some? && drafts.value > 0.0 && accepted.Some?
    then Some(ClampPct(accepted.value / drafts.value * 100.0)) else None
  }

  function AsFloat(r: Option<real>): Option<Float> {
    if r.Some? then Some(Finite(r.value)) else None
  }

  function OrElse<T>(a: Option<T>, b: Option<T>): Option<T> {
    if a.Some? then a else b
  }

  class LlamaMonitor {
    var previousMetrics: Baseline
    var previousSlots: SlotBaseline
    var lastAcceptancePct: Option<real>
    var lastAcceptanceAt: Option<Instant>
    var lastFormat: Option<MetricsFormat>
    var lastSince: Option<real>

    function View(): State
      reads this
    {
      State(previousMetrics, previousSlots, lastAcceptancePct, lastAcceptanceAt, lastFormat, lastSince)
    }

    constructor ()
      ensures View() == FRESH
    {
      previousMetrics, previousSlots := NO_BASELINE, NO_SLOT_BASELINE;
      lastAcceptancePct, lastAcceptanceAt, lastFormat, lastSince := None, None, None, None;
    }

    /** `update_metric_counters`: live rates and acceptance over the interval
        since the baseline, then the new baseline. */
    method UpdateMetricCounters(counters: Counters, now: Instant)
      returns (prompt: Option<real>, generated: Option<real>, acceptance: Option<real>)
      modifies this`previousMetrics, this`lastAcceptancePct, this`lastAcceptanceAt
      ensures prompt == MetricRate(old(previousMetrics), counters, now, Prompt)
      ensures generated == MetricRate(old(previousMetrics), counters, now, Decoded)
      ensures acceptance == ShownAcceptance(old(View()), counters, now)
      ensures previousMetrics == Baseline(Some(now), counters)
      ensures lastAcceptancePct == if Measured(old(previousMetrics), counters).Some?
              then Measured(old(previousMetrics), counters) else old(lastAcceptancePct)
      ensures lastAcceptanceAt == if Measured(old(previousMetrics), counters).Some? then Some(now) else old(lastAcceptanceAt)
    {
      prompt, generated, acceptance := None, None, None;
      if previousMetrics.at.Some? {
        var seconds := AsSecs(SaturatingSince(now, previousMetrics.at.value));
        var before := previousMetrics.counters;
        if seconds > 0.0 {
          prompt := CounterRate(counters.prompt, before.prompt, seconds);
          generated := CounterRate(counters.generated, before.generated, seconds);
        }
        var measured := Acceptance(counters, before);
        if measured.Some? {
          lastAcceptancePct, lastAcceptanceAt := measured, Some(now);
          acceptance := measured;
        } else if lastAcceptanceAt.Some? && SaturatingSince(now, lastAcceptanceAt.value) <= SPEC_ACCEPTANCE_HOLD {
          acceptance := lastAcceptancePct;
        }
      }
      previousMetrics := Baseline(Some(now), counters);
    }

    /** `update_live_slot_throughput`. */
    method UpdateLiveSlotThroughput(slots: seq<SlotCounter>, now: Instant)
      returns (prompt: Option<real>, decoded: Option<real>)
      modifies this`previousSlots
      ensures prompt == SlotsRate(old(previousSlots), Some(slots), now, Prompt)
      ensures decoded == SlotsRate(old(previousSlots), Some(slots), now, Decoded)
      ensures previousSlots == SlotBaseline(Some(now), slots)
    {
      prompt, decoded := None, None;
      if previousSlots.at.Some? {
        var seconds := AsSecs(SaturatingSince(now, previousSlots.at.value));
        prompt, decoded := SlotDeltaTps(previousSlots.slots, slots, seconds);
      }
      previousSlots := SlotBaseline(Some(now), slots);
    }

    /** `sample` from the fetched outcomes onward. */
    method Sample(f: Fetched) returns (d: Derived)
      modifies this
      ensures d == Sampled(old(View()), f).0
      ensures View() == Sampled(old(View()), f).1
    {
      if Incomparable(View(), f) {
        previousMetrics := NO_BASELINE;
      }
      lastFormat := f.format;
      if f.format == Some(Strata) {
        lastSince := f.since;
      }
      var metricPrompt, metricGenerated, acceptance: Option<real> := None, None, None;
      if MetricsAvailable(f) {
        metricPrompt, metricGenerated, acceptance := UpdateMetricCounters(f.counters, f.metricsAt);
      } else {
        previousMetrics := NO_BASELINE;
      }
      var slotPrompt, slotDecoded: Option<real> := None, None;
      if f.slots.Some? {
        slotPrompt, slotDecoded := UpdateLiveSlotThroughput(f.slots.value, f.slotsAt);
      } else {
        previousSlots := NO_SLOT_BASELINE;
      }
      var prompt, generation := AsFloat(OrElse(slotPrompt, metricPrompt)), AsFloat(OrElse(slotDecoded, metricGenerated));
      var phase: Option<StrataPhase> := None;
      var request := f.request;
      if f.format == Some(Strata) {
        var live := f.live.GetOr(NO_LIVE);
        prompt, generation, phase := None, live.decode, live.phase;
        if request.prompt.None? {
          request := request.(prompt := live.request.prompt);
        }
        if request.generated.None? {
          request := request.(generated := live.request.generated);
        }
      }
      d := Derived(prompt, generation, acceptance, phase, request);
    }
  }

  // ---------------------------------------------------------------------
  // One poll
  // ---------------------------------------------------------------------

  datatype State = State(
    metrics: Baseline, slots: SlotBaseline, acceptancePct: Option<real>, acceptanceAt: Option<Instant>,
    format: Option<MetricsFormat>, since: Option<real>)

  const FRESH := State(NO_BASELINE, NO_SLOT_BASELINE, None, None, None, None)

  function Dim(c: Counters, d: Dimension): Option<Float> {
    if d.Prompt? then c.prompt else c.generated
  }

  function MetricRate(b: Baseline, counters: Counters, now: Instant, d: Dimension): Option<real> {
    if b.at.Some? && AsSecs(SaturatingSince(now, b.at.value)) > 0.0
    then CounterRate(Dim(counters, d), Dim(b.counters, d), AsSecs(SaturatingSince(now, b.at.value)))
    else None
  }

  function Measured(b: Baseline, counters: Counters): Option<real> {
    if b.at.Some? then Acceptance(counters, b.counters) else None
  }

  function ShownAcceptance(m: State, counters: Counters, now: Instant): Option<real> {
    if m.metrics.at.None? then None
    else if Measured(m.metrics, counters).Some? then Measured(m.metrics, counters)
    else if m.acceptanceAt.Some? && SaturatingSince(now, m.acceptanceAt.value) <= SPEC_ACCEPTANCE_HOLD then m.acceptancePct
    else None
  }

  function SlotsRate(b: SlotBaseline, slots: Option<seq<SlotCounter>>, now: Instant, d: Dimension): Option<real> {
    if b.at.Some? && slots.Some? then SlotRate(b.slots, slots.value, AsSecs(SaturatingSince(now, b.at.value)), d) else None
  }

  /** A wire-format switch or a new Strata counter epoch. */
  predicate Incomparable(m: State, f: Fetched) {
    || (m.format.Some? && m.format != f.format)
    || (f.format == Some(Strata) && f.since.Some? && m.since.Some? && f.since != m.since)
  }

  /** The meaning of one `sample`: the derived values and the next state. */
  function Sampled(m: State, f: Fetched): (Derived, State) {
    var b := if Incomparable(m, f) then NO_BASELINE else m.metrics;
    var available := MetricsAvailable(f);
    var m1 := m.(metrics := b);
    var acceptance := if available then ShownAcceptance(m1, f.counters, f.metricsAt) else None;
    var measured := if available then Measured(b, f.counters) else None;
    (Derived(
       Rate(m, f, Prompt), Rate(m, f, Decoded), acceptance,
       LiveOf(f).phase, Progress(OrElse(f.request.prompt, LiveOf(f).request.prompt),
                                 OrElse(f.request.generated, LiveOf(f).request.generated))),
     State(
       if available then Baseline(Some(f.metricsAt), f.counters) else NO_BASELINE,
       if f.slots.Some? then SlotBaseline(Some(f.slotsAt), f.slots.value) else NO_SLOT_BASELINE,
       if measured.Some? then measured else m.acceptancePct,
       if measured.Some? then Some(f.metricsAt) else m.acceptanceAt,
       f.format,
       if f.format == Some(Strata) then f.since else m.since))
  }

  /** Strata's live section; other servers have none. */
  function LiveOf(f: Fetched): StrataLive {
    if f.format == Some(Strata) then f.live.GetOr(NO_LIVE) else NO_LIVE
  }

  function LiveMetric(m: State, f: Fetched, d: Dimension): Option<real> {
    if MetricsAvailable(f) && !Incomparable(m, f) then MetricRate(m.metrics, f.counters, f.metricsAt, d) else None
  }

  /** The displayed live rate: slots first, then counters; Strata reports its own. */
  function Rate(m: State, f: Fetched, d: Dimension): Option<Float> {
    if f.format == Some(Strata) then (if d.Prompt? then None else LiveOf(f).decode)
    else AsFloat(OrElse(SlotsRate(m.slots, f.slots, f.slotsAt, d), LiveMetric(m, f, d)))
  }

  // ---------------------------------------------------------------------
  // Runs of polls
  // ---------------------------------------------------------------------

  function After(run: seq<Fetched>): State {
    if run == [] then FRESH else Sampled(After(run[..|run| - 1]), run[|run| - 1]).1
  }

  /** Two polls whose counters may be compared: both with metrics, in one wire
      format and, as far as both say, one Strata epoch. */
  predicate Comparable(previous: Fetched, current: Fetched) {
    && MetricsAvailable(previous) && MetricsAvailable(current)
    && previous.format == current.format
    && (current.format == Some(Strata) && previous.since.Some? && current.since.Some? ==> previous.since == current.since)
  }

  /** What the state remembers is the last poll and nothing older. */
  predicate Remembers(m: State, last: Fetched) {
    && m.metrics == (if MetricsAvailable(last) then Baseline(Some(last.metricsAt), last.counters) else NO_BASELINE)
    && m.slots == (if last.slots.Some? then SlotBaseline(Some(last.slotsAt), last.slots.value) else NO_SLOT_BASELINE)
    && m.format == last.format
    && (last.format == Some(Strata) ==> m.since == last.since)
  }

  /** Counter rates over an interval between two adjacent polls. */
  function IntervalRate(previous: Fetched, current: Fetched, d: Dimension): Option<real> {
    var elapsed := SaturatingSince(current.metricsAt, previous.metricsAt);
    if Comparable(previous, current) && elapsed > 0
    then CounterRate(Dim(current.counters, d), Dim(previous.counters, d), AsSecs(elapsed)) else None
  }

  function IntervalSlotRate(previous: Fetched, current: Fetched, d: Dimension): Option<real> {
    if previous.slots.Some? && current.slots.Some?
    then SlotRate(previous.slots.value, current.slots.value, AsSecs(SaturatingSince(current.slotsAt, previous.slotsAt)), d)
    else None
  }

  /** Baseline discipline: the live rate at poll i is decided by polls i-1 and i
      alone. The first poll has none, and neither has the first after an
      outage, a format switch or a new epoch (unless the slots pair up). */
  lemma RatesUseThePreviousPoll(run: seq<Fetched>, i: nat, d: Dimension)
    requires i < |run|
    ensures LiveMetric(After(run[..i]), run[i], d) == if i == 0 then None else IntervalRate(run[i - 1], run[i], d)
    ensures run[i].format != Some(Strata) ==>
      Rate(After(run[..i]), run[i], d)
      == if i == 0 then None
         else AsFloat(OrElse(IntervalSlotRate(run[i - 1], run[i], d), IntervalRate(run[i - 1], run[i], d)))
  {
    if i > 0 {
      assert run[..i][..i - 1] == run[..i - 1];
      assert Remembers(After(run[..i]), run[i - 1]);
    }
  }

  /** A counter that is present, finite and not reset from poll to poll, over
      comparable polls with time passing between them. */
  predicate SteadyCounter(run: seq<Fetched>, d: Dimension) {
    && (forall i :: 0 <= i < |run| ==> Dim(run[i].counters, d).Some? && Dim(run[i].counters, d).value.Finite?)
    && (forall i :: 0 < i < |run| ==>
          && Comparable(run[i - 1], run[i])
          && run[i - 1].metricsAt < run[i].metricsAt
          && Dim(run[i - 1].counters, d).value.value <= Dim(run[i].counters, d).value.value)
  }

  /** What poll i reports gained since the poll before: rate times elapsed time. */
  function ReportedGain(run: seq<Fetched>, i: nat, d: Dimension): real
    requires 0 < i < |run|
  {
    LiveMetric(After(run[..i]), run[i], d).GetOr(0.0) * AsSecs(SaturatingSince(run[i].metricsAt, run[i - 1].metricsAt))
  }

  /** The gains reported up to poll n, summed. */
  function ReportedGains(run: seq<Fetched>, n: nat, d: Dimension): real
    requires n < |run|
  {
    if n == 0 then 0.0 else ReportedGains(run, n - 1, d) + ReportedGain(run, n, d)
  }

  lemma SteadyGain(run: seq<Fetched>, i: nat, d: Dimension)
    requires SteadyCounter(run, d) && 0 < i < |run|
    ensures LiveMetric(After(run[..i]), run[i], d).Some?
    ensures ReportedGain(run, i, d) == Dim(run[i].counters, d).value.value - Dim(run[i - 1].counters, d).value.value
  {
    RatesUseThePreviousPoll(run, i, d);
    var seconds := AsSecs(SaturatingSince(run[i].metricsAt, run[i - 1].metricsAt));
    assert seconds > 0.0;
  }

  /** The rates telescope: what they add up to is what the counter gained. */
  lemma {:induction false} RatesTelescope(run: seq<Fetched>, n: nat, d: Dimension)
    requires SteadyCounter(run, d) && n < |run|
    ensures ReportedGains(run, n, d) == Dim(run[n].counters, d).value.value - Dim(run[0].counters, d).value.value
  {
    if n > 0 {
      SteadyGain(run, n, d);
      RatesTelescope(run, n - 1, d);
    }
  }

  // ---------------------------------------------------------------------
  // The rates in terms of the counters
  // ---------------------------------------------------------------------

  /** Both polls tell the counter, and it did not go back. */
  predicate Kept(previous: Option<Float>, current: Option<Float>) {
    && previous.Some? && previous.value.Finite? && current.Some? && current.value.Finite?
    && previous.value.value <= current.value.value
  }

  /** Two adjacent polls of one metrics source, whose counters may be compared. */
  predicate Adjacent(run: seq<Fetched>, i: nat)
    requires i < |run|
  {
    && i > 0 && run[i].format.Some? && run[i].format == run[i - 1].format
    && (run[i].format == Some(Prometheus) ==> !run[i].empty && !run[i - 1].empty)
    && (run[i].format == Some(Strata) && run[i].since.Some? && run[i - 1].since.Some? ==> run[i].since == run[i - 1].since)
  }

  /** `rate` is what the counter gained over the time between the polls, and is
      there exactly when the counter was kept and time passed. A reset gives no
      rate, never a zero. */
  predicate RateBetween(rate: Option<real>, run: seq<Fetched>, i: nat, previous: Option<Float>, current: Option<Float>)
    requires 0 < i < |run|
  {
    && (rate.Some? <==> Adjacent(run, i) && run[i - 1].metricsAt < run[i].metricsAt && Kept(previous, current))
    && (rate.Some? ==>
          rate.value * (run[i].metricsAt - run[i - 1].metricsAt) as real
            == 1_000_000_000.0 * (current.value.value - previous.value.value))
  }

  lemma AdjacentIsComparable(run: seq<Fetched>, i: nat)
    requires 0 < i < |run|
    ensures Adjacent(run, i) <==> Comparable(run[i - 1], run[i])
  {
  }

  lemma RateOverTime(gain: real, elapsed: Duration)
    requires elapsed > 0
    ensures gain / AsSecs(elapsed) * elapsed as real == 1_000_000_000.0 * gain
  {
    var seconds := AsSecs(elapsed);
    assert elapsed as real == seconds * 1_000_000_000.0;
    assert gain / seconds * seconds == gain;
  }

  lemma IntervalRateBetween(run: seq<Fetched>, i: nat, d: Dimension)
    requires 0 < i < |run|
    ensures RateBetween(IntervalRate(run[i - 1], run[i], d), run, i, Dim(run[i - 1].counters, d), Dim(run[i].counters, d))
  {
    AdjacentIsComparable(run, i);
    var rate := IntervalRate(run[i - 1], run[i], d);
    if rate.Some? {
      RateOverTime(Dim(run[i].counters, d).value.value - Dim(run[i - 1].counters, d).value.value,
                   run[i].metricsAt - run[i - 1].metricsAt);
    }
  }

  /** Over any run, with resets, outages and switches anywhere: the first poll has
      no counter rate, and every later one has one exactly when its counter was
      kept since the poll just before, and then that gain over that time. */
  lemma CounterRatesAre(run: seq<Fetched>, i: nat)
    requires i < |run|
    ensures var prompt, generated := LiveMetric(After(run[..i]), run[i], Prompt), LiveMetric(After(run[..i]), run[i], Decoded);
      if i == 0 then prompt == None && generated == None
      else
        && RateBetween(prompt, run, i, run[i - 1].counters.prompt, run[i].counters.prompt)
        && RateBetween(generated, run, i, run[i - 1].counters.generated, run[i].counters.generated)
  {
    RatesUseThePreviousPoll(run, i, Prompt);
    RatesUseThePreviousPoll(run, i, Decoded);
    if i > 0 {
      IntervalRateBetween(run, i, Prompt);
      IntervalRateBetween(run, i, Decoded);
    }
  }

  /** What a poll shows: Strata's own rate and phase, otherwise the slots' rate
      and in its absence the counter's; and the progress the slots told, in its
      absence Strata's. */
  lemma PollShows(m: State, f: Fetched)
    ensures var d := Sampled(m, f).0;
      if f.format == Some(Strata) then
        && d.prompt == None
        && (f.live.Some? ==> d.generation == f.live.value.decode && d.phase == f.live.value.phase)
        && (f.live.None? ==> d.generation == None && d.phase == None)
      else
        && d.phase == None
        && ShowsRate(d.prompt, SlotsRate(m.slots, f.slots, f.slotsAt, Prompt), LiveMetric(m, f, Prompt))
        && ShowsRate(d.generation, SlotsRate(m.slots, f.slots, f.slotsAt, Decoded), LiveMetric(m, f, Decoded))
    ensures var d := Sampled(m, f).0;
      && (f.request.prompt.Some? ==> d.request.prompt == f.request.prompt)
      && (f.request.generated.Some? ==> d.request.generated == f.request.generated)
      && (f.format == Some(Strata) && f.live.Some? && f.request.prompt.None? ==> d.request.prompt == f.live.value.request.prompt)
      && (f.format == Some(Strata) && f.live.Some? && f.request.generated.None? ==>
            d.request.generated == f.live.value.request.generated)
      && (f.format != Some(Strata) ==> d.request == f.request)
  {
  }

  /** The slots' rate when they have one, the counter's otherwise. */
  predicate ShowsRate(shown: Option<Float>, slots: Option<real>, counter: Option<real>) {
    && (slots.Some? ==> shown == Some(Finite(slots.value)))
    && (slots.None? && counter.Some? ==> shown == Some(Finite(counter.value)))
    && (slots.None? && counter.None? ==> shown == None)
  }

  // ---------------------------------------------------------------------
  // Outages
  // ---------------------------------------------------------------------

  /** The counter as far as poll `f` tells it. */
  function Told(f: Fetched, d: Dimension): Option<real> {
    if MetricsAvailable(f) && Dim(f.counters, d).Some? && Dim(f.counters, d).value.Finite?
    then Some(Dim(f.counters, d).value.value) else None
  }

  /** Outages, format switches and gaps anywhere, but one server process: the
      counter never goes back from one poll that tells it to a later one. */
  predicate NeverReset(run: seq<Fetched>, d: Dimension) {
    forall i, j :: 0 <= i < j < |run| && Told(run[i], d).Some? && Told(run[j], d).Some? ==>
      Told(run[i], d).value <= Told(run[j], d).value
  }

  /** The first poll up to `n` that tells the counter. */
  function FirstTold(run: seq<Fetched>, n: nat, d: Dimension): (k: Option<nat>)
    requires n < |run|
    ensures k.Some? ==> k.value <= n && Told(run[k.value], d).Some?
  {
    if n > 0 && FirstTold(run, n - 1, d).Some? then FirstTold(run, n - 1, d)
    else if Told(run[n], d).Some? then Some(n) else None
  }

  /** The last one. */
  function LastTold(run: seq<Fetched>, n: nat, d: Dimension): (k: Option<nat>)
    requires n < |run|
    ensures k.Some? ==> k.value <= n && Told(run[k.value], d).Some?
  {
    if Told(run[n], d).Some? then Some(n) else if n == 0 then None else LastTold(run, n - 1, d)
  }

  lemma {:induction false} ToldBoth(run: seq<Fetched>, n: nat, d: Dimension)
    requires n < |run|
    ensures FirstTold(run, n, d).Some? <==> LastTold(run, n, d).Some?
  {
    if n > 0 {
      ToldBoth(run, n - 1, d);
    }
  }

  /** A reported gain is nothing, or what the counter gained since the poll just
      before. */
  lemma GainIsOneStep(run: seq<Fetched>, i: nat, d: Dimension)
    requires 0 < i < |run|
    ensures var gain := ReportedGain(run, i, d);
      || gain == 0.0
      || (Told(run[i - 1], d).Some? && Told(run[i], d).Some? && gain == Told(run[i], d).value - Told(run[i - 1], d).value && gain >= 0.0)
  {
    RatesUseThePreviousPoll(run, i, d);
    var rate := IntervalRate(run[i - 1], run[i], d);
    if rate.Some? {
      var seconds := AsSecs(SaturatingSince(run[i].metricsAt, run[i - 1].metricsAt));
      assert seconds > 0.0;
      RateTimesTime(Told(run[i], d).value - Told(run[i - 1], d).value, seconds);
    }
  }

  lemma RateTimesTime(delta: real, seconds: real)
    requires seconds > 0.0
    ensures delta / seconds * seconds == delta
  {
  }

  /** No catch-up: however many outages, switches and gaps a run has, its rates
      never add up to more than the counter gained from the first poll that told
      it to the last. */
  lemma {:induction false} NoCatchUp(run: seq<Fetched>, n: nat, d: Dimension)
    requires NeverReset(run, d) && n < |run|
    ensures var first, last := FirstTold(run, n, d), LastTold(run, n, d);
      if first.None? || last.None? then ReportedGains(run, n, d) == 0.0
      else 0.0 <= ReportedGains(run, n, d) <= Told(run[last.value], d).value - Told(run[first.value], d).value
  {
    ToldBoth(run, n, d);
    if n > 0 {
      NoCatchUp(run, n - 1, d);
      ToldBoth(run, n - 1, d);
      GainIsOneStep(run, n, d);
    }
  }

  // ---------------------------------------------------------------------
  // Draft acceptance
  // ---------------------------------------------------------------------

  /** Acceptance measured at poll i, from the interval ending there. */
  function MeasuredAt(run: seq<Fetched>, i: nat): Option<real>
    requires i < |run|
  {
    if i > 0 && Comparable(run[i - 1], run[i]) then Acceptance(run[i].counters, run[i - 1].counters) else None
  }

  /** The last poll before `n` that measured an acceptance. */
  function LastMeasured(run: seq<Fetched>, n: nat): (j: Option<nat>)
    requires n <= |run|
    ensures j.Some? ==> j.value < n && MeasuredAt(run, j.value).Some?
    ensures forall k :: (if j.Some? then j.value + 1 else 0) <= k < n ==> MeasuredAt(run, k).None?
  {
    if n == 0 then None
    else if MeasuredAt(run, n - 1).Some? then Some(n - 1)
    else LastMeasured(run, n - 1)
  }

  lemma {:induction false} AcceptanceMemory(run: seq<Fetched>, n: nat)
    requires n <= |run|
    ensures var j := LastMeasured(run, n);
            && (j.Some? ==> j.value < n)
            && After(run[..n]).acceptanceAt == (if j.Some? then Some(run[j.value].metricsAt) else None)
            && After(run[..n]).acceptancePct == (if j.Some? then MeasuredAt(run, j.value) else None)
  {
    if n > 0 {
      AcceptanceMemory(run, n - 1);
      assert run[..n][..n - 1] == run[..n - 1];
      if n > 1 {
        assert run[..n - 1][..n - 2] == run[..n - 2];
        assert Remembers(After(run[..n - 1]), run[n - 2]);
      }
    }
  }

  /** Acceptance is measured exactly when drafts grew and accepted drafts did not
      go back between two comparable polls: their ratio in percent, held to
      0..100. */
  lemma MeasuredIs(run: seq<Fetched>, i: nat)
    requires i < |run|
    ensures MeasuredAt(run, i).Some? <==>
      i > 0 && Adjacent(run, i)
      && Kept(run[i - 1].counters.drafts, run[i].counters.drafts) && run[i - 1].counters.drafts != run[i].counters.drafts
      && Kept(run[i - 1].counters.accepted, run[i].counters.accepted)
    ensures MeasuredAt(run, i).Some? ==>
      var drafts := run[i].counters.drafts.value.value - run[i - 1].counters.drafts.value.value;
      var accepted := run[i].counters.accepted.value.value - run[i - 1].counters.accepted.value.value;
      drafts > 0.0 && MeasuredAt(run, i).value == if accepted > drafts then 100.0 else accepted / drafts * 100.0
  {
    if i > 0 {
      AdjacentIsComparable(run, i);
      if MeasuredAt(run, i).Some? {
        RatioInPercent(run[i].counters.accepted.value.value - run[i - 1].counters.accepted.value.value,
                       run[i].counters.drafts.value.value - run[i - 1].counters.drafts.value.value);
      }
    }
  }

  lemma RatioInPercent(accepted: real, drafts: real)
    requires accepted >= 0.0 && drafts > 0.0
    ensures ClampPct(accepted / drafts * 100.0) == if accepted > drafts then 100.0 else accepted / drafts * 100.0
  {
    var ratio := accepted / drafts;
    assert ratio * drafts == accepted;
    assert 0.0 <= ratio;
    assert accepted > drafts <==> ratio > 1.0;
  }

  /** A shown acceptance was measured over the interval ending at poll i, or is
      the last measured one, at most three seconds old and shown only while the
      counters stay comparable. */
  lemma AcceptanceShown(run: seq<Fetched>, i: nat)
    requires i < |run|
    ensures Sampled(After(run[..i]), run[i]).0.acceptancePct ==
      if i == 0 || !Comparable(run[i - 1], run[i]) then None
      else if MeasuredAt(run, i).Some? then MeasuredAt(run, i)
      else
        var j := LastMeasured(run, i);
        if j.Some? && run[i].metricsAt <= run[j.value].metricsAt + 3_000_000_000
        then MeasuredAt(run, j.value) else None
  {
    AcceptanceMemory(run, i);
    if i > 0 {
      assert run[..i][..i - 1] == run[..i - 1];
      assert Remembers(After(run[..i]), run[i - 1]);
    }
  }
}
