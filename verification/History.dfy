/** Bounded telemetry histories and the graph resampler (src/ui/history.rs). */
module History {
  import opened Domain
  import opened Llama

  const HISTORY_WINDOW: Duration := 60 * NANOS_PER_SEC
  const HISTORY_MAX_SAMPLES: nat := 720
  const CONNECTED_FLASH: Duration := 2 * NANOS_PER_SEC

  datatype TimedSample = TimedSample(at: Instant, value: Float)

  predicate SortedByTime(h: seq<TimedSample>) {
    forall i, j :: 0 <= i < j < |h| ==> h[i].at <= h[j].at
  }

  predicate InWindow(s: TimedSample, now: Instant) {
    SaturatingSince(now, s.at) <= HISTORY_WINDOW
  }

  // ---------------------------------------------------------------------
  // Pushing into a bounded deque
  // ---------------------------------------------------------------------

  /** Which graph a value goes to: host percentages are clamped to 0..100,
      rates only from below. */
  datatype Scale = Percent | Rate

  function Clamp(scale: Scale, v: real): real {
    if v < 0.0 then 0.0
    else if scale.Percent? && v > 100.0 then 100.0
    else v
  }

  function DropExpired(h: seq<TimedSample>, now: Instant): seq<TimedSample> {
    if h != [] && !InWindow(h[0], now) then DropExpired(h[1..], now) else h
  }

  function KeepLast(h: seq<TimedSample>, n: nat): seq<TimedSample> {
    if |h| > n then h[|h| - n..] else h
  }

  /** The deque after pushing `value` at `now`. */
  function Pushed(scale: Scale, h: seq<TimedSample>, value: Float, now: Instant): seq<TimedSample> {
    if value.NonFinite? then h
    else KeepLast(DropExpired(h + [TimedSample(now, Finite(Clamp(scale, value.value)))], now), HISTORY_MAX_SAMPLES)
  }

  /** A history deque, updated in place. */
  class SampleDeque {
    var samples: seq<TimedSample>

    constructor ()
      ensures samples == []
    {
      samples := [];
    }

    /** `push_history_at` and `push_metric_history_at`. */
    method Push(scale: Scale, value: Float, now: Instant)
      modifies this
      ensures samples == Pushed(scale, old(samples), value, now)
    {
      if value.NonFinite? {
        return;
      }
      samples := samples + [TimedSample(now, Finite(Clamp(scale, value.value)))];
      ghost var grown := samples;
      while samples != [] && !InWindow(samples[0], now)
        invariant DropExpired(samples, now) == DropExpired(grown, now)
        decreases |samples|
      {
        samples := samples[1..];
      }
      ghost var fresh0 := samples;
      while |samples| > HISTORY_MAX_SAMPLES
        invariant KeepLast(samples, HISTORY_MAX_SAMPLES) == KeepLast(fresh0, HISTORY_MAX_SAMPLES)
        decreases |samples|
      {
        assert KeepLast(samples[1..], HISTORY_MAX_SAMPLES) == KeepLast(samples, HISTORY_MAX_SAMPLES);
        samples := samples[1..];
      }
    }
  }

  datatype PushEvent = PushEvent(value: Float, now: Instant)

  /** The deque after a whole run of pushes, starting empty. */
  function AfterPushes(scale: Scale, run: seq<PushEvent>): seq<TimedSample> {
    if run == [] then []
    else
      var last := run[|run| - 1];
      Pushed(scale, AfterPushes(scale, run[..|run| - 1]), last.value, last.now)
  }

  /** Every finite sample the run pushed, in order, never trimmed. */
  function FinitePushes(scale: Scale, run: seq<PushEvent>): seq<TimedSample> {
    if run == [] then []
    else
      var rest := FinitePushes(scale, run[..|run| - 1]);
      var last := run[|run| - 1];
      if last.value.Finite? then rest + [TimedSample(last.now, Finite(Bounded(scale, last.value.value)))] else rest
  }

  /** A graphed value: never below zero, a percentage never above a hundred. */
  function Bounded(scale: Scale, v: real): (b: real)
    ensures b >= 0.0 && (scale.Percent? ==> b <= 100.0)
    ensures v >= 0.0 && (scale.Percent? ==> v <= 100.0) ==> b == v
  {
    var low := if v >= 0.0 then v else 0.0;
    if scale.Percent? && low >= 100.0 then 100.0 else low
  }

  /** The samples of `all` no older than the window at `now`. */
  function Recent(all: seq<TimedSample>, now: Instant): seq<TimedSample> {
    if all == [] then []
    else (if now <= all[0].at + 60_000_000_000 then [all[0]] else []) + Recent(all[1..], now)
  }

  ghost predicate MonotoneClock(run: seq<PushEvent>) {
    forall i, j :: 0 <= i < j < |run| ==> run[i].now <= run[j].now
  }

  /** What a history should hold: the newest 720 of all finite samples that
      are at most 60 s old at the latest finite push. */
  function Reference(scale: Scale, run: seq<PushEvent>): seq<TimedSample> {
    var all := FinitePushes(scale, run);
    if all == [] then []
    else
      var recent := Recent(all, all[|all| - 1].at);
      if |recent| > 720 then recent[|recent| - 720..] else recent
  }

  /** Index of the first sample still in the window. */
  function Cut(s: seq<TimedSample>, now: Instant): (k: nat)
    ensures k <= |s|
  {
    if s == [] || InWindow(s[0], now) then 0 else 1 + Cut(s[1..], now)
  }

  lemma {:induction false} CutSplits(s: seq<TimedSample>, now: Instant)
    requires SortedByTime(s)
    ensures forall i :: 0 <= i < Cut(s, now) ==> !InWindow(s[i], now)
    ensures forall i :: Cut(s, now) <= i < |s| ==> InWindow(s[i], now)
    ensures DropExpired(s, now) == s[Cut(s, now)..] == Recent(s, now)
  {
    if s == [] {
    } else {
      CutSplits(s[1..], now);
      if InWindow(s[0], now) {
        assert forall i :: 0 <= i < |s| ==> InWindow(s[i], now);
        assert Cut(s[1..], now) == 0;
        assert s == [s[0]] + s[1..];
      } else {
        assert s[1..][Cut(s[1..], now)..] == s[Cut(s, now)..];
        assert forall i :: 1 <= i < |s| ==> s[i] == s[1..][i - 1];
      }
    }
  }

  lemma {:induction false} CutUnique(s: seq<TimedSample>, now: Instant, k: nat)
    requires k <= |s|
    requires forall i :: 0 <= i < k ==> !InWindow(s[i], now)
    requires k < |s| ==> InWindow(s[k], now)
    ensures Cut(s, now) == k
  {
    if k > 0 {
      CutUnique(s[1..], now, k - 1);
    }
  }

  lemma CutOfSuffix(s: seq<TimedSample>, j: nat, now: Instant)
    requires SortedByTime(s) && j <= |s|
    ensures Cut(s[j..], now) == if j < Cut(s, now) then Cut(s, now) - j else 0
  {
    CutSplits(s, now);
    var k := if j < Cut(s, now) then Cut(s, now) - j else 0;
    assert forall i :: 0 <= i < |s[j..]| ==> s[j..][i] == s[i + j];
    CutUnique(s[j..], now, k);
  }

  lemma SuffixSorted(s: seq<TimedSample>, j: nat)
    requires SortedByTime(s) && j <= |s|
    ensures SortedByTime(s[j..])
  {
  }

  /** Trimming a suffix cuts where trimming the whole sequence would. */
  lemma SuffixTrims(s: seq<TimedSample>, j: nat, now: Instant)
    requires SortedByTime(s) && j <= |s|
    ensures DropExpired(s[j..], now) == s[if j < Cut(s, now) then Cut(s, now) else j..]
  {
    SuffixSorted(s, j);
    CutSplits(s[j..], now);
    CutOfSuffix(s, j, now);
  }

  lemma CutMonotone(s: seq<TimedSample>, longer: seq<TimedSample>, t: Instant, later: Instant)
    requires SortedByTime(s) && SortedByTime(longer) && s <= longer && t <= later
    ensures Cut(s, t) <= Cut(longer, later)
  {
    CutSplits(s, t);
    CutSplits(longer, later);
    var k := Cut(longer, later);
    assert k < |s| ==> longer[k] == s[k] && InWindow(s[k], t);
  }

  lemma {:induction false} FinitePushesSorted(scale: Scale, run: seq<PushEvent>)
    requires MonotoneClock(run)
    ensures SortedByTime(FinitePushes(scale, run))
    ensures forall i :: 0 <= i < |FinitePushes(scale, run)| && run != [] ==>
              FinitePushes(scale, run)[i].at <= run[|run| - 1].now
  {
    if run != [] {
      FinitePushesSorted(scale, run[..|run| - 1]);
    }
  }

  /** Where a trimmed history starts within the untrimmed one. */
  function Start(s: seq<TimedSample>, now: Instant): (k: nat)
    ensures k <= |s|
  {
    if |s| - Cut(s, now) > HISTORY_MAX_SAMPLES then |s| - HISTORY_MAX_SAMPLES else Cut(s, now)
  }

  lemma TrimmedIsSuffix(s: seq<TimedSample>, now: Instant)
    requires SortedByTime(s)
    ensures KeepLast(Recent(s, now), HISTORY_MAX_SAMPLES) == s[Start(s, now)..]
    ensures |s[Start(s, now)..]| <= HISTORY_MAX_SAMPLES
  {
    CutSplits(s, now);
  }

  lemma TrimSuffix(s: seq<TimedSample>, j: nat, now: Instant)
    requires SortedByTime(s) && j <= Start(s, now)
    ensures KeepLast(DropExpired(s[j..], now), HISTORY_MAX_SAMPLES) == s[Start(s, now)..]
  {
    SuffixTrims(s, j, now);
  }

  lemma StartMonotone(s: seq<TimedSample>, x: TimedSample)
    requires SortedByTime(s) && SortedByTime(s + [x]) && s != []
    ensures Start(s, s[|s| - 1].at) <= Start(s + [x], x.at)
  {
    assert (s + [x])[|s| - 1] == s[|s| - 1] && (s + [x])[|s|] == x;
    CutMonotone(s, s + [x], s[|s| - 1].at, x.at);
  }

  /** The part of all finite samples a history keeps at its latest push. */
  function Kept(all: seq<TimedSample>): seq<TimedSample> {
    if all == [] then [] else all[Start(all, all[|all| - 1].at)..]
  }

  /** Pushing onto a trimmed history leaves what trimming once would. */
  lemma OnePush(all: seq<TimedSample>, x: TimedSample)
    requires SortedByTime(all) && SortedByTime(all + [x])
    ensures KeepLast(DropExpired(Kept(all) + [x], x.at), HISTORY_MAX_SAMPLES) == Kept(all + [x])
  {
    var j: nat := 0;
    if all != [] {
      j := Start(all, all[|all| - 1].at);
      StartMonotone(all, x);
    }
    assert Kept(all) + [x] == (all + [x])[j..];
    TrimSuffix(all + [x], j, x.at);
  }

  lemma {:induction false} DequeIsKept(scale: Scale, run: seq<PushEvent>)
    requires MonotoneClock(run)
    ensures AfterPushes(scale, run) == Kept(FinitePushes(scale, run))
  {
    if run != [] {
      var before, last := run[..|run| - 1], run[|run| - 1];
      DequeIsKept(scale, before);
      if last.value.Finite? {
        FinitePushesSorted(scale, before);
        FinitePushesSorted(scale, run);
        OnePush(FinitePushes(scale, before), TimedSample(last.now, Finite(Clamp(scale, last.value.value))));
      }
    }
  }

  /** With a monotone clock every deque holds exactly what the reference
      names, after any run of pushes, and stays sorted by time. */
  lemma DequeIsReference(scale: Scale, run: seq<PushEvent>)
    requires MonotoneClock(run)
    ensures AfterPushes(scale, run) == Reference(scale, run)
    ensures SortedByTime(AfterPushes(scale, run))
    ensures |AfterPushes(scale, run)| <= 720
  {
    DequeIsKept(scale, run);
    FinitePushesSorted(scale, run);
    var all := FinitePushes(scale, run);
    if all != [] {
      TrimmedIsSuffix(all, all[|all| - 1].at);
    }
  }

  // ---------------------------------------------------------------------
  // Folding samples into a server's history
  // ---------------------------------------------------------------------

  /** Telemetry history and connection state of one server. */
  datatype LlmHistory = LlmHistory(
    prefill: seq<TimedSample>,
    decode: seq<TimedSample>,
    lastFreshAt: Option<Instant>,
    lastObservedAt: Option<Instant>,
    sampleIntervalEmaMs: Option<real>,
    connectedSince: Option<Instant>,
    connectedFlashUntil: Option<Instant>,
    wasConnected: bool)

  const EMPTY_HISTORY := LlmHistory([], [], None, None, None, None, None, false)

  function SmoothInterval(previousMs: Option<real>, currentMs: real): Option<real> {
    if currentMs <= 0.0 then previousMs
    else
      var bounded := if currentMs < 1.0 then 1.0 else if currentMs > 60_000.0 then 60_000.0 else currentMs;
      if previousMs.Some? && previousMs.value > 0.0
      then Some(previousMs.value * 0.8 + bounded * 0.2)
      else Some(bounded)
  }

  function PushedIfPresent(h: seq<TimedSample>, value: Option<Float>, now: Instant): seq<TimedSample> {
    if value.Some? then Pushed(Rate, h, value.value, now) else h
  }

  /** `observe_llm_into`. */
  function Observed(h: LlmHistory, llm: LlmStats, now: Instant): LlmHistory {
    var seen := h.(lastObservedAt := Some(now));
    if llm.connected && !llm.reconnecting then
      var live :=
        if !seen.wasConnected then
          seen.(connectedSince := Some(now), connectedFlashUntil := Some(now + CONNECTED_FLASH), sampleIntervalEmaMs := None)
        else if seen.lastFreshAt.Some? then
          seen.(sampleIntervalEmaMs := SmoothInterval(seen.sampleIntervalEmaMs, AsSecs(SaturatingSince(now, seen.lastFreshAt.value)) * 1_000.0))
        else seen;
      var fresh0 := live.(wasConnected := true, lastFreshAt := Some(now));
      if llm.metricsAvailable then
        fresh0.(prefill := PushedIfPresent(fresh0.prefill, llm.promptTps, now),
                decode := PushedIfPresent(fresh0.decode, llm.generationTps, now))
      else fresh0
    else if !llm.connected then
      seen.(wasConnected := false, connectedSince := None, connectedFlashUntil := None)
    else seen
  }

  /** One accepted sample of a server and when it was recorded. */
  datatype Observation = Observation(stats: LlmStats, now: Instant)

  function FoldObserved(obs: seq<Observation>): LlmHistory {
    if obs == [] then EMPTY_HISTORY
    else Observed(FoldObserved(obs[..|obs| - 1]), obs[|obs| - 1].stats, obs[|obs| - 1].now)
  }

  /** The rate points a run of observations contributes to one graph: only
      from connected, not held samples with metrics, and only present rates. */
  function RatePushes(obs: seq<Observation>, decode: bool): seq<PushEvent> {
    if obs == [] then []
    else
      var rest := RatePushes(obs[..|obs| - 1], decode);
      var last := obs[|obs| - 1];
      var rate := if decode then last.stats.generationTps else last.stats.promptTps;
      if last.stats.connected && !last.stats.reconnecting && last.stats.metricsAvailable && rate.Some?
      then rest + [PushEvent(rate.value, last.now)] else rest
  }

  ghost predicate MonotoneObservations(obs: seq<Observation>) {
    forall i, j :: 0 <= i < j < |obs| ==> obs[i].now <= obs[j].now
  }

  lemma {:induction false} RatePushesMonotone(obs: seq<Observation>, decode: bool)
    requires MonotoneObservations(obs)
    ensures MonotoneClock(RatePushes(obs, decode))
    ensures forall i :: 0 <= i < |RatePushes(obs, decode)| && obs != [] ==>
              RatePushes(obs, decode)[i].now <= obs[|obs| - 1].now
  {
    if obs != [] {
      RatePushesMonotone(obs[..|obs| - 1], decode);
    }
  }

  function GraphOf(h: LlmHistory, decode: bool): seq<TimedSample> {
    if decode then h.decode else h.prefill
  }

  lemma {:induction false} FoldPushesRates(obs: seq<Observation>, decode: bool)
    ensures GraphOf(FoldObserved(obs), decode) == AfterPushes(Rate, RatePushes(obs, decode))
  {
    if obs != [] {
      FoldPushesRates(obs[..|obs| - 1], decode);
      var rest, all := RatePushes(obs[..|obs| - 1], decode), RatePushes(obs, decode);
      assert |all| == |rest| + 1 ==> all[..|all| - 1] == rest;
    }
  }

  /** The graphs of a history are the bounded reference over exactly the live
      rates observed: a held, offline or metric-less sample adds no point. */
  lemma HistoryGraphsAreReference(obs: seq<Observation>)
    requires MonotoneObservations(obs)
    ensures FoldObserved(obs).prefill == Reference(Rate, RatePushes(obs, false))
    ensures FoldObserved(obs).decode == Reference(Rate, RatePushes(obs, true))
  {
    FoldPushesRates(obs, false);
    FoldPushesRates(obs, true);
    RatePushesMonotone(obs, false);
    RatePushesMonotone(obs, true);
    DequeIsReference(Rate, RatePushes(obs, false));
    DequeIsReference(Rate, RatePushes(obs, true));
  }

  // ---------------------------------------------------------------------
  // Resampling for the graph
  // ---------------------------------------------------------------------

  datatype Point = Point(offset: real, value: real)

  predicate Plotted(s: TimedSample, now: Instant) {
    InWindow(s, now) && s.value.Finite?
  }

  function Offset(s: TimedSample, now: Instant): real {
    AsSecs(HISTORY_WINDOW) - AsSecs(SaturatingSince(now, s.at))
  }

  function PointOf(s: TimedSample, now: Instant): Point
    requires s.value.Finite?
  {
    Point(Offset(s, now), Clamp(Rate, s.value.value))
  }

  /** The points the resampler walks: in-window finite samples, in order. */
  function Points(h: seq<TimedSample>, now: Instant): seq<Point> {
    if h == [] then []
    else
      var rest := Points(h[..|h| - 1], now);
      var last := h[|h| - 1];
      if Plotted(last, now) then rest + [PointOf(last, now)] else rest
  }

  function Target(x: nat, columns: nat): real
    requires x < columns
  {
    if columns == 1 then AsSecs(HISTORY_WINDOW)
    else x as real / (columns - 1) as real * AsSecs(HISTORY_WINDOW)
  }

  /** The naive lookup: scan the whole history from the newest sample back for
      one that is plotted at or before `target`. */
  function FullScan(h: seq<TimedSample>, target: real, now: Instant): Option<real> {
    if h == [] then None
    else
      var last := h[|h| - 1];
      var age := if now >= last.at then now - last.at else 0;
      if last.value.Finite? && age <= 60_000_000_000 && 60.0 - age as real / 1_000_000_000.0 <= target
      then Some(if last.value.value < 0.0 then 0.0 else last.value.value)
      else FullScan(h[..|h| - 1], target, now)
  }

  /** The columns' targets: the last is now, the first a whole window ago, and
      they lie evenly between. */
  lemma TargetsSpread(x: nat, columns: nat)
    requires x < columns
    ensures Target(columns - 1, columns) == 60.0
    ensures columns > 1 ==> Target(0, columns) == 0.0
    ensures x + 1 < columns ==> (Target(x + 1, columns) - Target(x, columns)) * (columns - 1) as real == 60.0
  {
    assert AsSecs(HISTORY_WINDOW) == 60.0;
    if x + 1 < columns {
      var n := (columns - 1) as real;
      assert (x + 1) as real / n - x as real / n == 1.0 / n;
      assert 1.0 / n * n == 1.0;
      assert (Target(x + 1, columns) - Target(x, columns)) == 1.0 / n * 60.0;
    }
  }

  lemma QuotientMonotone(a: real, b: real, d: real)
    requires a <= b && d > 0.0
    ensures a / d <= b / d
  {
    assert (b - a) / d >= 0.0;
    assert b / d - a / d == (b - a) / d;
  }

  lemma TargetMonotone(x: nat, y: nat, columns: nat)
    requires x <= y < columns
    ensures Target(x, columns) <= Target(y, columns)
  {
    if columns > 1 {
      QuotientMonotone(x as real, y as real, (columns - 1) as real);
      var a, b := x as real / (columns - 1) as real, y as real / (columns - 1) as real;
      assert (b - a) * AsSecs(HISTORY_WINDOW) >= 0.0;
    }
  }

  ghost predicate NonDecreasing(p: seq<Point>) {
    forall i, j :: 0 <= i < j < |p| ==> p[i].offset <= p[j].offset
  }

  lemma {:induction false} PointsOrdered(h: seq<TimedSample>, now: Instant)
    requires SortedByTime(h)
    ensures NonDecreasing(Points(h, now))
    ensures forall i :: 0 <= i < |Points(h, now)| && h != [] ==> Points(h, now)[i].offset <= Offset(h[|h| - 1], now)
  {
    if h != [] {
      PointsOrdered(h[..|h| - 1], now);
      if |h| > 1 {
        assert h[|h| - 2].at <= h[|h| - 1].at;
      }
    }
  }

  /** On sorted points the scan finds the last point before the first late one. */
  lemma {:induction false} ScanIsPointer(h: seq<TimedSample>, target: real, now: Instant, p: nat)
    requires SortedByTime(h) && p <= |Points(h, now)|
    requires forall i :: 0 <= i < p ==> Points(h, now)[i].offset <= target
    requires p < |Points(h, now)| ==> Points(h, now)[p].offset > target
    ensures FullScan(h, target, now) == if p == 0 then None else Some(Points(h, now)[p - 1].value)
  {
    PointsOrdered(h, now);
    if h != [] {
      var last := h[|h| - 1];
      if Plotted(last, now) {
        var all, rest := Points(h, now), Points(h[..|h| - 1], now);
        assert all == rest + [PointOf(last, now)];
        if Offset(last, now) <= target {
          assert all[|all| - 1].offset <= target;
          assert p == |all|;
        } else {
          assert all[|rest|].offset > target;
          assert p <= |rest|;
          assert forall i :: 0 <= i < |rest| ==> rest[i] == all[i];
          ScanIsPointer(h[..|h| - 1], target, now, p);
        }
      } else {
        ScanIsPointer(h[..|h| - 1], target, now, p);
      }
    }
  }

  /** The value of the last point before the first point past `target`. */
  function BeforeFirstLate(points: seq<Point>, target: real): Option<real> {
    if points == [] || points[0].offset > target then None
    else
      var later := BeforeFirstLate(points[1..], target);
      if later.Some? then later else Some(points[0].value)
  }

  lemma {:induction false} PointerIsBeforeFirstLate(points: seq<Point>, target: real, p: nat)
    requires p <= |points|
    requires forall i :: 0 <= i < p ==> points[i].offset <= target
    requires p < |points| ==> points[p].offset > target
    ensures BeforeFirstLate(points, target) == if p == 0 then None else Some(points[p - 1].value)
  {
    if p > 0 {
      PointerIsBeforeFirstLate(points[1..], target, p - 1);
    }
  }

  /** `resample_history`: one pass with a moving pointer. On a time-sorted
      history each column equals the naive full scan for that column. */
  method ResampleHistory(history: seq<TimedSample>, requested: nat, now: Instant) returns (result: seq<Option<real>>)
    ensures |result| == if requested == 0 then 1 else requested
    ensures forall x :: 0 <= x < |result| ==>
              result[x] == BeforeFirstLate(Points(history, now), Target(x, |result|))
    ensures SortedByTime(history) ==>
              forall x :: 0 <= x < |result| ==> result[x] == FullScan(history, Target(x, |result|), now)
  {
    var columns := if requested == 0 then 1 else requested;
    var points := Points(history, now);
    var values := new Option<real>[columns](_ => None);
    var current: Option<real> := None;
    var next := 0;
    var x := 0;
    while x < columns
      invariant x <= columns == values.Length && next <= |points|
      invariant forall i :: 0 <= i < next && x > 0 ==> points[i].offset <= Target(x - 1, columns)
      invariant x == 0 ==> next == 0
      invariant current == if next == 0 then None else Some(points[next - 1].value)
      invariant forall k :: 0 <= k < x ==> values[k] == BeforeFirstLate(points, Target(k, columns))
      invariant SortedByTime(history) ==>
                  forall k :: 0 <= k < x ==> values[k] == FullScan(history, Target(k, columns), now)
    {
      var target := Target(x, columns);
      if x > 0 {
        TargetMonotone(x - 1, x, columns);
      }
      while next < |points| && points[next].offset <= target
        invariant next <= |points|
        invariant forall i :: 0 <= i < next ==> points[i].offset <= target
        invariant current == if next == 0 then None else Some(points[next - 1].value)
        decreases |points| - next
      {
        current := Some(points[next].value);
        next := next + 1;
      }
      PointerIsBeforeFirstLate(points, target, next);
      if SortedByTime(history) {
        ScanIsPointer(history, target, now, next);
      }
      values[x] := current;
      x := x + 1;
    }
    result := values[..];
  }

  // ---------------------------------------------------------------------
  // Connection state over a run
  // ---------------------------------------------------------------------

  /** A live measurement; a held sample is neither this nor offline. */
  predicate IsFresh(o: Observation) {
    o.stats.connected && !o.stats.reconnecting
  }

  predicate NoneOffline(obs: seq<Observation>, from: nat) {
    forall k :: from <= k < |obs| ==> obs[k].stats.connected
  }

  predicate NoneFresh(obs: seq<Observation>, from: nat) {
    forall k :: from <= k < |obs| ==> !IsFresh(obs[k])
  }

  /** The present connection began at observation `s`: a live one, none offline
      since, and before it nothing live since the last offline one. */
  predicate ConnectedFrom(obs: seq<Observation>, s: nat) {
    && s < |obs| && IsFresh(obs[s]) && NoneOffline(obs, s)
    && forall k :: 0 <= k < s && IsFresh(obs[k]) ==> exists m :: k < m < s && !obs[m].stats.connected
  }

  /** When the latest live measurement was taken. */
  predicate LatestFresh(obs: seq<Observation>, k: nat) {
    k < |obs| && IsFresh(obs[k]) && NoneFresh(obs, k + 1)
  }

  lemma ConnectedFromUnique(obs: seq<Observation>, s: nat, t: nat)
    requires ConnectedFrom(obs, s) && ConnectedFrom(obs, t)
    ensures s == t
  {
  }

  lemma ConnectedFromSnoc(obs: seq<Observation>, o: Observation, s: nat)
    requires s < |obs|
    ensures ConnectedFrom(obs + [o], s) <==> ConnectedFrom(obs, s) && o.stats.connected
  {
    var more := obs + [o];
    assert more[|obs|] == o;
    assert forall k :: 0 <= k < |obs| ==> more[k] == obs[k];
    if ConnectedFrom(more, s) {
      forall k | 0 <= k < s && IsFresh(obs[k])
        ensures exists m :: k < m < s && !obs[m].stats.connected
      {
        assert IsFresh(more[k]);
        var m :| k < m < s && !more[m].stats.connected;
        assert !obs[m].stats.connected;
      }
    }
    if ConnectedFrom(obs, s) && o.stats.connected {
      forall k | 0 <= k < s && IsFresh(more[k])
        ensures exists m :: k < m < s && !more[m].stats.connected
      {
        var m :| k < m < s && !obs[m].stats.connected;
        assert !more[m].stats.connected;
      }
    }
  }

  /** Without a connection every live observation was followed by an offline one. */
  predicate Disconnected(obs: seq<Observation>) {
    forall k :: 0 <= k < |obs| && IsFresh(obs[k]) ==> exists m :: k < m < |obs| && !obs[m].stats.connected
  }

  lemma ConnectsNow(obs: seq<Observation>, o: Observation)
    requires Disconnected(obs) && IsFresh(o)
    ensures ConnectedFrom(obs + [o], |obs|)
  {
    var more := obs + [o];
    forall k | 0 <= k < |obs| && IsFresh(more[k])
      ensures exists m :: k < m < |obs| && !more[m].stats.connected
    {
      var m :| k < m < |obs| && !obs[m].stats.connected;
      assert !more[m].stats.connected;
    }
  }

  lemma DisconnectsNow(obs: seq<Observation>, o: Observation)
    requires !o.stats.connected || (Disconnected(obs) && !IsFresh(o))
    ensures Disconnected(obs + [o])
  {
    var more := obs + [o];
    forall k | 0 <= k < |more| && IsFresh(more[k])
      ensures exists m :: k < m < |more| && !more[m].stats.connected
    {
      if o.stats.connected {
        var m :| k < m < |obs| && !obs[m].stats.connected;
        assert !more[m].stats.connected;
      } else {
        assert !more[|obs|].stats.connected;
      }
    }
  }

  /** The connection fields of a history, in terms of what was observed. */
  ghost predicate ConnectionIs(h: LlmHistory, obs: seq<Observation>) {
    if h.wasConnected then
      exists s: nat :: ConnectedFrom(obs, s) && h.connectedSince == Some(obs[s].now)
        && h.connectedFlashUntil == Some(obs[s].now + 2_000_000_000)
    else Disconnected(obs) && h.connectedSince == None && h.connectedFlashUntil == None
  }

  lemma ConnectionStep(h: LlmHistory, obs: seq<Observation>, o: Observation)
    requires ConnectionIs(h, obs)
    ensures ConnectionIs(Observed(h, o.stats, o.now), obs + [o])
  {
    var after, more := Observed(h, o.stats, o.now), obs + [o];
    if !o.stats.connected {
      DisconnectsNow(obs, o);
    } else if h.wasConnected {
      var s: nat :| ConnectedFrom(obs, s) && h.connectedSince == Some(obs[s].now)
        && h.connectedFlashUntil == Some(obs[s].now + 2_000_000_000);
      ConnectedFromSnoc(obs, o, s);
      assert more[s] == obs[s];
    } else if IsFresh(o) {
      ConnectsNow(obs, o);
      assert more[|obs|] == o;
    } else {
      DisconnectsNow(obs, o);
    }
  }

  /** Connected since exactly the observation the present connection began with,
      with two seconds of flash from there, over any run of observations; a held
      sample neither makes nor breaks a connection. */
  lemma {:induction false} ConnectionOverRun(obs: seq<Observation>)
    ensures ConnectionIs(FoldObserved(obs), obs)
  {
    if obs != [] {
      var front, last := obs[..|obs| - 1], obs[|obs| - 1];
      ConnectionOverRun(front);
      ConnectionStep(FoldObserved(front), front, last);
      assert obs == front + [last];
    }
  }

  lemma NoneFreshSnoc(obs: seq<Observation>)
    requires obs != []
    ensures NoneFresh(obs, 0) <==> NoneFresh(obs[..|obs| - 1], 0) && !IsFresh(obs[|obs| - 1])
  {
    assert forall k :: 0 <= k < |obs| - 1 ==> obs[..|obs| - 1][k] == obs[k];
  }

  lemma LatestFreshBefore(obs: seq<Observation>, k: nat)
    requires LatestFresh(obs, k) && k < |obs| - 1
    ensures LatestFresh(obs[..|obs| - 1], k) && !IsFresh(obs[|obs| - 1])
  {
  }

  /** The measurement age counts from the latest live observation, the
      observation time from the last of all. */
  lemma {:induction false} AgesOverRun(obs: seq<Observation>)
    ensures FoldObserved(obs).lastObservedAt == if obs == [] then None else Some(obs[|obs| - 1].now)
    ensures FoldObserved(obs).lastFreshAt.None? <==> NoneFresh(obs, 0)
    ensures forall k: nat :: LatestFresh(obs, k) ==> FoldObserved(obs).lastFreshAt == Some(obs[k].now)
  {
    if obs != [] {
      var n := |obs| - 1;
      AgesOverRun(obs[..n]);
      NoneFreshSnoc(obs);
      forall k: nat | LatestFresh(obs, k)
        ensures FoldObserved(obs).lastFreshAt == Some(obs[k].now)
      {
        if k < n {
          LatestFreshBefore(obs, k);
        }
      }
    }
  }

  /** The times of the live observations of the latest connection, in order. */
  function FreshTimes(obs: seq<Observation>): seq<Instant> {
    if obs == [] then []
    else
      var front, last := obs[..|obs| - 1], obs[|obs| - 1];
      if !IsFresh(last) then FreshTimes(front)
      else if FoldObserved(front).wasConnected then FreshTimes(front) + [last.now]
      else [last.now]
  }

  /** One gap smoothed in. */
  function SmoothedWith(before: Option<real>, ms: real): Option<real> {
    if ms <= 0.0 then before
    else
      var gap := if ms <= 1.0 then 1.0 else if ms >= 60_000.0 then 60_000.0 else ms;
      match before
      case None => Some(gap)
      case Some(b) => Some(0.8 * b + 0.2 * gap)
  }

  /** The smoothed sample interval: the first positive gap, then four fifths of
      the value before and one fifth of each further gap, every gap taken between
      one millisecond and a minute. */
  function SmoothedGaps(times: seq<Instant>): Option<real> {
    if |times| < 2 then None
    else SmoothedWith(SmoothedGaps(times[..|times| - 1]), GapMs(times[|times| - 2], times[|times| - 1]))
  }

  function GapMs(previous: Instant, now: Instant): real {
    (if now > previous then now - previous else 0) as real / 1_000_000.0
  }

  lemma {:induction false} SmoothedPositive(times: seq<Instant>)
    ensures SmoothedGaps(times).Some? ==> 1.0 <= SmoothedGaps(times).value <= 60_000.0
  {
    if |times| >= 2 {
      SmoothedPositive(times[..|times| - 1]);
    }
  }

  lemma {:induction false} FreshTimesEnd(obs: seq<Observation>)
    ensures FreshTimes(obs) == [] <==> FoldObserved(obs).lastFreshAt.None?
    ensures FreshTimes(obs) != [] ==> FoldObserved(obs).lastFreshAt == Some(FreshTimes(obs)[|FreshTimes(obs)| - 1])
    ensures FoldObserved(obs).wasConnected ==> FreshTimes(obs) != []
  {
    if obs != [] {
      FreshTimesEnd(obs[..|obs| - 1]);
    }
  }

  lemma Milliseconds(d: Duration)
    ensures AsSecs(d) * 1_000.0 == d as real / 1_000_000.0
  {
    var x := d as real;
    assert x / 1_000_000_000.0 * 1_000.0 == x / 1_000_000.0;
  }

  lemma SmoothIntervalIs(before: Option<real>, ms: real)
    requires before.Some? ==> before.value > 0.0
    ensures SmoothInterval(before, ms) == SmoothedWith(before, ms)
  {
  }

  lemma OneMoreTime(times: seq<Instant>, now: Instant)
    requires times != []
    ensures var more := times + [now];
      |more| == |times| + 1 && more[..|more| - 1] == times && more[|more| - 1] == now && more[|more| - 2] == times[|times| - 1]
  {
  }

  lemma LastGapSmoothed(times: seq<Instant>, before: seq<Instant>, previous: Instant, now: Instant)
    requires |times| >= 2 && times[..|times| - 1] == before && times[|times| - 1] == now && times[|times| - 2] == previous
    ensures SmoothedGaps(times) == SmoothedWith(SmoothedGaps(before), GapMs(previous, now))
  {
  }

  lemma SmoothedGapsSnoc(times: seq<Instant>, now: Instant)
    requires times != []
    ensures SmoothedGaps(times + [now]) == SmoothedWith(SmoothedGaps(times), GapMs(times[|times| - 1], now))
  {
    OneMoreTime(times, now);
    LastGapSmoothed(times + [now], times, times[|times| - 1], now);
  }

  lemma SmoothStep(times: seq<Instant>, now: Instant)
    requires times != []
    ensures SmoothedGaps(times + [now]) ==
      SmoothInterval(SmoothedGaps(times), AsSecs(SaturatingSince(now, times[|times| - 1])) * 1_000.0)
  {
    var previous := times[|times| - 1];
    SmoothedPositive(times);
    SmoothedGapsSnoc(times, now);
    Milliseconds(SaturatingSince(now, previous));
    SmoothIntervalIs(SmoothedGaps(times), GapMs(previous, now));
  }

  /** The sample interval is the smoothing of the gaps between live observations
      of the latest connection, and starts over with every connection. */
  lemma {:induction false} IntervalOverRun(obs: seq<Observation>)
    ensures FoldObserved(obs).sampleIntervalEmaMs == SmoothedGaps(FreshTimes(obs))
  {
    if obs != [] {
      var front, last := obs[..|obs| - 1], obs[|obs| - 1];
      IntervalOverRun(front);
      FreshTimesEnd(front);
      if IsFresh(last) && FoldObserved(front).wasConnected {
        SmoothStep(FreshTimes(front), last.now);
      }
    }
  }
}
