/** Engine utilization between samples (src/drm.rs): one baseline for every
    process, device and engine. */
module DrmSampling {
  import opened Domain
  import opened Drm
  import opened DrmTotals

  datatype ProcessIdentity = ProcessIdentity(pid: nat, startTime: nat)

  datatype EngineKey = EngineKey(identity: ProcessIdentity, bdf: string, engine: string)

  datatype EngineCounter = EngineCounter(
    busyNs: Option<nat>, cyclesBusy: Option<nat>, cyclesTotal: Option<nat>, sampledAt: Instant)

  type Counters = map<EngineKey, EngineCounter>

  datatype DrmEngine = DrmEngine(
    name: string, busyNs: Option<nat>, cyclesBusy: Option<nat>, cyclesTotal: Option<nat>, capacity: Option<nat>, utilization: Option<real>)

  datatype DrmProcessGpu = DrmProcessGpu(
    bdf: string, driver: string, clientCount: nat, residentBytes: nat, totalBytes: nat, engines: seq<DrmEngine>)

  // ---------------------------------------------------------------------
  // What two readings say
  // ---------------------------------------------------------------------

  function Baseline(e: AggEngine, now: Instant): EngineCounter {
    EngineCounter(e.busyNs, e.cyclesBusy, e.cyclesTotal, now)
  }

  /** Both readings carry busy nanoseconds. */
  predicate ByTime(was: EngineCounter, cur: EngineCounter) {
    was.busyNs.Some? && cur.busyNs.Some?
  }

  /** Both carry both cycle counters, and the new one no nanoseconds. */
  predicate ByCycles(was: EngineCounter, cur: EngineCounter) {
    && cur.busyNs.None? && was.cyclesBusy.Some? && was.cyclesTotal.Some?
    && cur.cyclesBusy.Some? && cur.cyclesTotal.Some?
  }

  /** Work done and the time or cycles it could have taken. */
  function Gain(was: EngineCounter, cur: EngineCounter): int {
    if ByTime(was, cur) then cur.busyNs.value - was.busyNs.value
    else if ByCycles(was, cur) then cur.cyclesBusy.value - was.cyclesBusy.value
    else 0
  }

  function Span(was: EngineCounter, cur: EngineCounter): int {
    if ByTime(was, cur) then SaturatingSince(cur.sampledAt, was.sampledAt)
    else if ByCycles(was, cur) then cur.cyclesTotal.value - was.cyclesTotal.value
    else 0
  }

  /** The readings are comparable, nothing went back and something passed. */
  predicate Measurable(was: EngineCounter, cur: EngineCounter) {
    Gain(was, cur) >= 0 && Span(was, cur) > 0
  }

  function Utilization(was: Option<EngineCounter>, cur: EngineCounter): (u: Option<real>)
    ensures u.Some? <==> was.Some? && Measurable(was.value, cur)
    ensures u.Some? ==> u.value * Span(was.value, cur) as real == 100.0 * Gain(was.value, cur) as real
  {
    if was.Some? && Measurable(was.value, cur)
    then Some(Gain(was.value, cur) as real / Span(was.value, cur) as real * 100.0) else None
  }

  method UtilizationNs(busyNow: nat, busyPrev: nat, elapsedNs: nat) returns (u: Option<real>)
    ensures u == if elapsedNs > 0 && busyPrev <= busyNow
      then Some((busyNow - busyPrev) as real / elapsedNs as real * 100.0) else None
  {
    if elapsedNs == 0 || busyNow < busyPrev {
      return None;
    }
    u := Some((busyNow - busyPrev) as real / elapsedNs as real * 100.0);
  }

  method UtilizationCycles(busyNow: nat, busyPrev: nat, totalNow: nat, totalPrev: nat) returns (u: Option<real>)
    ensures u == if busyPrev <= busyNow && totalPrev < totalNow
      then Some((busyNow - busyPrev) as real / (totalNow - totalPrev) as real * 100.0) else None
  {
    if busyNow < busyPrev || totalNow < totalPrev {
      return None;
    }
    var deltaBusy, deltaTotal := busyNow - busyPrev, totalNow - totalPrev;
    if deltaTotal == 0 {
      return None;
    }
    u := Some(deltaBusy as real / deltaTotal as real * 100.0);
  }

  // ---------------------------------------------------------------------
  // The sampler
  // ---------------------------------------------------------------------

  datatype Event =
    | Sample(identity: ProcessIdentity, fds: seq<ParsedFd>, now: Instant)
    | Retain(live: set<ProcessIdentity>)

  /** The reading of one engine in an event, if it has one. */
  function Observed(event: Event, key: EngineKey): Option<EngineCounter> {
    if event.Sample? && event.identity == key.identity then
      match EngineOver(OnDevice(Kept(event.fds), key.bdf), key.engine)
      case None => None
      case Some(e) => Some(Baseline(e, event.now))
    else None
  }

  function BaselineAfter(was: Option<EngineCounter>, event: Event, key: EngineKey): Option<EngineCounter> {
    if event.Retain? then if key.identity in event.live then was else None
    else if Observed(event, key).Some? then Observed(event, key)
    else was
  }

  /** Every baseline moves as the event says. */
  ghost predicate Moves(was: Counters, event: Event, after: Counters) {
    forall key :: Lookup(after, key) == BaselineAfter(Lookup(was, key), event, key)
  }

  // Engines in order of their names

  /** Strict lexicographic order. */
  predicate Precedes(a: string, b: string) {
    b != "" && (a == "" || a[0] < b[0] || (a[0] == b[0] && Precedes(a[1..], b[1..])))
  }

  lemma {:induction false} PrecedesTotal(a: string, b: string)
    ensures a == b || Precedes(a, b) || Precedes(b, a)
  {
    if a != "" && b != "" && a[0] == b[0] {
      PrecedesTotal(a[1..], b[1..]);
      if a[1..] == b[1..] {
        assert a == [a[0]] + a[1..] && b == [b[0]] + b[1..];
      }
    }
  }

  lemma {:induction false} PrecedesTransitive(a: string, b: string, c: string)
    requires Precedes(a, b) && Precedes(b, c)
    ensures Precedes(a, c)
  {
    if a != "" && a[0] == b[0] == c[0] {
      PrecedesTransitive(a[1..], b[1..], c[1..]);
    }
  }

  predicate SortedByName(engines: seq<DrmEngine>) {
    forall i, j :: 0 <= i < j < |engines| ==> Precedes(engines[i].name, engines[j].name)
  }

  function EngineNamed(engines: seq<DrmEngine>, name: string): Option<DrmEngine> {
    if engines == [] then None
    else if engines[|engines| - 1].name == name then Some(engines[|engines| - 1])
    else EngineNamed(engines[..|engines| - 1], name)
  }

  function Inserted(engines: seq<DrmEngine>, x: DrmEngine): seq<DrmEngine> {
    if engines == [] then [x]
    else
      var last := engines[|engines| - 1];
      if Precedes(last.name, x.name) then engines + [x] else Inserted(engines[..|engines| - 1], x) + [last]
  }

  lemma {:induction false} InsertedMembers(engines: seq<DrmEngine>, x: DrmEngine)
    ensures forall i :: 0 <= i < |Inserted(engines, x)| ==> Inserted(engines, x)[i] == x || Inserted(engines, x)[i] in engines
  {
    if engines != [] {
      InsertedMembers(engines[..|engines| - 1], x);
    }
  }

  lemma {:induction false} InsertedSorted(engines: seq<DrmEngine>, x: DrmEngine)
    requires SortedByName(engines) && EngineNamed(engines, x.name) == None
    ensures SortedByName(Inserted(engines, x))
  {
    if engines != [] {
      var n := |engines| - 1;
      var front, last := engines[..n], engines[n];
      if Precedes(last.name, x.name) {
        forall i | 0 <= i < n
          ensures Precedes(engines[i].name, x.name)
        {
          PrecedesTransitive(engines[i].name, last.name, x.name);
        }
      } else {
        PrecedesTotal(last.name, x.name);
        InsertedSorted(front, x);
        InsertedMembers(front, x);
      }
    }
  }

  lemma {:induction false} InsertedFinds(engines: seq<DrmEngine>, x: DrmEngine, name: string)
    requires EngineNamed(engines, x.name) == None
    ensures EngineNamed(Inserted(engines, x), name) == if name == x.name then Some(x) else EngineNamed(engines, name)
  {
    if engines != [] {
      var n := |engines| - 1;
      var front := Inserted(engines[..n], x);
      InsertedFinds(engines[..n], x, name);
      assert (front + [engines[n]])[..|front|] == front;
    }
    assert (engines + [x])[..|engines|] == engines;
  }

  predicate NamedByKey(shown: map<string, DrmEngine>) {
    forall name :: name in shown ==> shown[name].name == name
  }

  /** The engines of a table as a list sorted by name. */
  method SortEngines(shown: map<string, DrmEngine>) returns (engines: seq<DrmEngine>)
    requires NamedByKey(shown)
    ensures SortedByName(engines)
    ensures forall name :: EngineNamed(engines, name) == Lookup(shown, name)
  {
    engines := [];
    var left := shown.Keys;
    while left != {}
      invariant left <= shown.Keys && SortedByName(engines)
      invariant forall name :: EngineNamed(engines, name) == if name in left then None else Lookup(shown, name)
      decreases |left|
    {
      var next :| next in left;
      var x := shown[next];
      InsertedSorted(engines, x);
      forall name
        ensures EngineNamed(Inserted(engines, x), name) == if name == next then Some(x) else EngineNamed(engines, name)
      {
        InsertedFinds(engines, x, name);
      }
      engines := Inserted(engines, x);
      left := left - {next};
    }
  }

  /** What a sample reports of one device. */
  ghost predicate GpuIs(gpu: DrmProcessGpu, was: Counters, identity: ProcessIdentity, fds: seq<ParsedFd>, now: Instant) {
    var counted := OnDevice(Kept(fds), gpu.bdf);
    && counted != [] && gpu.driver == counted[0].driver && gpu.clientCount == |counted|
    && gpu.residentBytes == Saturate(Sum(counted, RESIDENT)) && gpu.totalBytes == Saturate(Sum(counted, TOTAL))
    && SortedByName(gpu.engines)
    && forall name :: EngineNamed(gpu.engines, name) ==
         match EngineOver(counted, name)
         case None => None
         case Some(e) => Some(Shown(name, e, Lookup(was, EngineKey(identity, gpu.bdf, name)), now))
  }

  /** What a sample reports of the given devices, in their order. */
  ghost predicate GpusAre(gpus: seq<DrmProcessGpu>, bdfs: seq<string>, was: Counters, identity: ProcessIdentity, fds: seq<ParsedFd>, now: Instant) {
    |gpus| == |bdfs| && forall i :: 0 <= i < |gpus| ==> gpus[i].bdf == bdfs[i] && GpuIs(gpus[i], was, identity, fds, now)
  }

  lemma GpusOneMore(gpus: seq<DrmProcessGpu>, bdfs: seq<string>, gpu: DrmProcessGpu, was: Counters, identity: ProcessIdentity,
    fds: seq<ParsedFd>, now: Instant)
    requires GpusAre(gpus, bdfs, was, identity, fds, now) && GpuIs(gpu, was, identity, fds, now)
    ensures GpusAre(gpus + [gpu], bdfs + [gpu.bdf], was, identity, fds, now)
  {
  }

  function Shown(name: string, e: AggEngine, was: Option<EngineCounter>, now: Instant): DrmEngine {
    DrmEngine(name, e.busyNs, e.cyclesBusy, e.cyclesTotal, e.capacity, Utilization(was, Baseline(e, now)))
  }

  /** One device of one process at one moment. */
  datatype Place = Place(identity: ProcessIdentity, bdf: string, now: Instant)

  function KeyAt(at: Place, name: string): EngineKey {
    EngineKey(at.identity, at.bdf, name)
  }

  /** The engines of a device that are not in `left` are shown. */
  ghost predicate EnginesShown(shown: map<string, DrmEngine>, was: Counters, left: set<string>, engines: map<string, AggEngine>, at: Place) {
    && NamedByKey(shown)
    && forall name :: Lookup(shown, name) ==
         if name in engines && name !in left
         then Some(Shown(name, engines[name], Lookup(was, KeyAt(at, name)), at.now)) else None
  }

  /** Their baselines are moved. */
  ghost predicate EnginesMoved(was: Counters, counters: Counters, left: set<string>, engines: map<string, AggEngine>, at: Place) {
    forall key :: Lookup(counters, key) ==
      if key.identity == at.identity && key.bdf == at.bdf && key.engine in engines && key.engine !in left
      then Some(Baseline(engines[key.engine], at.now)) else Lookup(was, key)
  }

  lemma ShowOneMore(shown: map<string, DrmEngine>, was: Counters, left: set<string>, engines: map<string, AggEngine>, at: Place, name: string)
    requires EnginesShown(shown, was, left, engines, at) && name in left && name in engines
    ensures EnginesShown(shown[name := Shown(name, engines[name], Lookup(was, KeyAt(at, name)), at.now)], was, left - {name}, engines, at)
  {
  }

  lemma MoveOneMore(was: Counters, counters: Counters, left: set<string>, engines: map<string, AggEngine>, at: Place, name: string)
    requires EnginesMoved(was, counters, left, engines, at) && name in left && name in engines
    ensures EnginesMoved(was, counters[KeyAt(at, name) := Baseline(engines[name], at.now)], left - {name}, engines, at)
    ensures Lookup(counters, KeyAt(at, name)) == Lookup(was, KeyAt(at, name))
  {
  }

  /** The devices done so far. */
  ghost predicate DevicesDone(was: Counters, counters: Counters, done: seq<string>, event: Event)
    requires event.Sample?
  {
    forall key :: Lookup(counters, key) ==
      if key.bdf in done then BaselineAfter(Lookup(was, key), event, key) else Lookup(was, key)
  }

  lemma ObservedOnDevice(a: Aggregate, event: Event, key: EngineKey)
    requires event.Sample? && AggregateOf(a, event.fds) && key.bdf in a.byBdf
    ensures Observed(event, key) ==
      if key.identity == event.identity && key.engine in a.byBdf[key.bdf].engines
      then Some(Baseline(a.byBdf[key.bdf].engines[key.engine], event.now)) else None
  {
    var agg := a.byBdf[key.bdf];
    assert DeviceIs(agg, OnDevice(Kept(event.fds), key.bdf));
    assert Lookup(agg.engines, key.engine) == EngineOver(OnDevice(Kept(event.fds), key.bdf), key.engine);
  }

  /** Sampling device `i` moves its baselines and no others. */
  lemma SampledDevice(was: Counters, before: Counters, after: Counters,
    a: Aggregate, i: nat, event: Event)
    requires event.Sample? && AggregateOf(a, event.fds) && i < |a.order| && a.order[i] in a.byBdf
    requires DevicesDone(was, before, a.order[..i], event)
    requires EnginesMoved(before, after, {}, a.byBdf[a.order[i]].engines, Place(event.identity, a.order[i], event.now))
    ensures DevicesDone(was, after, a.order[..i + 1], event)
    ensures forall name ::
      Lookup(before, EngineKey(event.identity, a.order[i], name)) == Lookup(was, EngineKey(event.identity, a.order[i], name))
  {
    var bdf := a.order[i];
    DevicesDistinct(event.fds);
    assert bdf !in a.order[..i];
    forall key: EngineKey
      ensures Lookup(after, key) ==
        if key.bdf in a.order[..i + 1] then BaselineAfter(Lookup(was, key), event, key) else Lookup(was, key)
    {
      assert key.bdf in a.order[..i + 1] <==> key.bdf in a.order[..i] || key.bdf == bdf;
      if key.bdf == bdf {
        ObservedOnDevice(a, event, key);
      }
    }
  }

  lemma AllDevicesDone(was: Counters, after: Counters, event: Event)
    requires event.Sample? && DevicesDone(was, after, Devices(event.fds), event)
    ensures Moves(was, event, after)
  {
    forall key: EngineKey
      ensures Lookup(after, key) == BaselineAfter(Lookup(was, key), event, key)
    {
      if key.bdf !in Devices(event.fds) {
        NothingOnDevice(event.fds, key.bdf);
      }
    }
  }

  class DrmSampler {
    var counters: Counters

    constructor ()
      ensures counters == map[]
    {
      counters := map[];
    }

    /** Drops the baselines of processes that are gone. */
    method RetainLive(live: set<ProcessIdentity>)
      modifies this
      ensures Moves(old(counters), Retain(live), counters)
    {
      counters := map key | key in counters && key.identity in live :: counters[key];
    }

    /** `engine_utilization`. */
    method EngineUtilization(name: string, identity: ProcessIdentity, bdf: string, now: Instant, engine: AggEngine)
      returns (u: Option<real>)
      modifies this
      ensures counters == old(counters)[EngineKey(identity, bdf, name) := Baseline(engine, now)]
      ensures u == Utilization(Lookup(old(counters), EngineKey(identity, bdf, name)), Baseline(engine, now))
    {
      var key := EngineKey(identity, bdf, name);
      var prev := Lookup(counters, key);
      u := None;
      if engine.busyNs.Some? && prev.Some? && prev.value.busyNs.Some? {
        u := UtilizationNs(engine.busyNs.value, prev.value.busyNs.value, SaturatingSince(now, prev.value.sampledAt));
      } else if engine.busyNs.None? && engine.cyclesBusy.Some? && engine.cyclesTotal.Some? &&
                prev.Some? && prev.value.cyclesBusy.Some? && prev.value.cyclesTotal.Some? {
        u := UtilizationCycles(engine.cyclesBusy.value, prev.value.cyclesBusy.value,
                               engine.cyclesTotal.value, prev.value.cyclesTotal.value);
      }
      counters := counters[key := EngineCounter(engine.busyNs, engine.cyclesBusy, engine.cyclesTotal, now)];
    }

    /** The engines of one device. */
    method SampleEngines(engines: map<string, AggEngine>, at: Place) returns (shown: map<string, DrmEngine>)
      modifies this
      ensures EnginesShown(shown, old(counters), {}, engines, at)
      ensures EnginesMoved(old(counters), counters, {}, engines, at)
    {
      shown := map[];
      var left := engines.Keys;
      while left != {}
        invariant left <= engines.Keys
        invariant EnginesShown(shown, old(counters), left, engines, at)
        invariant EnginesMoved(old(counters), counters, left, engines, at)
        decreases |left|
      {
        var name :| name in left;
        MoveOneMore(old(counters), counters, left, engines, at, name);
        ShowOneMore(shown, old(counters), left, engines, at, name);
        var e := engines[name];
        var u := EngineUtilization(name, at.identity, at.bdf, at.now, e);
        shown := shown[name := DrmEngine(name, e.busyNs, e.cyclesBusy, e.cyclesTotal, e.capacity, u)];
        left := left - {name};
      }
    }

    /** One device of `sample_process_gpus`. */
    method SampleDevice(agg: AggGpu, fds: seq<ParsedFd>, at: Place) returns (gpu: DrmProcessGpu)
      requires DeviceIs(agg, OnDevice(Kept(fds), at.bdf))
      modifies this
      ensures gpu.bdf == at.bdf && GpuIs(gpu, old(counters), at.identity, fds, at.now)
      ensures EnginesMoved(old(counters), counters, {}, agg.engines, at)
    {
      var shown := SampleEngines(agg.engines, at);
      var engines := SortEngines(shown);
      gpu := DrmProcessGpu(at.bdf, agg.driver, agg.clientCount, agg.resident, agg.total, engines);
    }

    /** The device at place `i`, all before it done. */
    method SampleAt(ghost was: Counters, a: Aggregate, i: nat, identity: ProcessIdentity, fds: seq<ParsedFd>, now: Instant)
      returns (gpu: DrmProcessGpu)
      requires AggregateOf(a, fds) && i < |a.order|
      requires DevicesDone(was, counters, a.order[..i], Sample(identity, fds, now))
      modifies this
      ensures DevicesDone(was, counters, a.order[..i + 1], Sample(identity, fds, now))
      ensures gpu.bdf == a.order[i] && GpuIs(gpu, was, identity, fds, now)
    {
      gpu := SampleDevice(a.byBdf[a.order[i]], fds, Place(identity, a.order[i], now));
      SampledDevice(was, old(counters), counters, a, i, Sample(identity, fds, now));
      SameBaselines(gpu, old(counters), was, identity, fds, now);
    }

    /** `sample_process_gpus`, from the parsed files on. */
    method SampleProcessGpus(identity: ProcessIdentity, fds: seq<ParsedFd>, now: Instant) returns (gpus: seq<DrmProcessGpu>)
      requires WellFormed(fds)
      modifies this
      ensures Moves(old(counters), Sample(identity, fds, now), counters)
      ensures GpusAre(gpus, Devices(fds), old(counters), identity, fds, now)
    {
      var a := AggregateFds(fds);
      gpus := [];
      var i := 0;
      while i < |a.order|
        invariant 0 <= i <= |a.order|
        invariant DevicesDone(old(counters), counters, a.order[..i], Sample(identity, fds, now))
        invariant GpusAre(gpus, a.order[..i], old(counters), identity, fds, now)
      {
        var gpu := SampleAt(old(counters), a, i, identity, fds, now);
        GpusOneMore(gpus, a.order[..i], gpu, old(counters), identity, fds, now);
        assert a.order[..i] + [a.order[i]] == a.order[..i + 1];
        gpus := gpus + [gpu];
        i := i + 1;
      }
      assert a.order[..i] == a.order;
      AllDevicesDone(old(counters), counters, Sample(identity, fds, now));
    }
  }

  /** A device's report depends on its own baselines. */
  lemma SameBaselines(gpu: DrmProcessGpu, before: Counters, was: Counters, identity: ProcessIdentity, fds: seq<ParsedFd>, now: Instant)
    requires GpuIs(gpu, before, identity, fds, now)
    requires forall name ::
      Lookup(before, EngineKey(identity, gpu.bdf, name)) == Lookup(was, EngineKey(identity, gpu.bdf, name))
    ensures GpuIs(gpu, was, identity, fds, now)
  {
  }

  // ---------------------------------------------------------------------
  // Runs of samples and prunes
  // ---------------------------------------------------------------------

  ghost predicate IsSampling(states: seq<Counters>, events: seq<Event>) {
    && |states| == |events| + 1 && states[0] == map[]
    && forall i :: 0 <= i < |events| ==> Moves(states[i], events[i], states[i + 1])
  }

  /** The readings of one engine since its process was last pruned. */
  function Readings(events: seq<Event>, key: EngineKey): seq<EngineCounter> {
    if events == [] then []
    else
      var before, event := Readings(events[..|events| - 1], key), events[|events| - 1];
      if event.Retain? then if key.identity in event.live then before else []
      else if Observed(event, key).Some? then before + [Observed(event, key).value]
      else before
  }

  function Latest(readings: seq<EngineCounter>): Option<EngineCounter> {
    if readings == [] then None else Some(readings[|readings| - 1])
  }

  /** In every run a baseline is the engine's latest reading since the last prune. */
  lemma {:induction false} BaselineIsLatestReading(states: seq<Counters>, events: seq<Event>, key: EngineKey)
    requires IsSampling(states, events)
    ensures Lookup(states[|events|], key) == Latest(Readings(events, key))
  {
    if events != [] {
      var n := |events| - 1;
      BaselineIsLatestReading(states[..n + 1], events[..n], key);
      assert Moves(states[n], events[n], states[n + 1]);
    }
  }

  /** A process that starts over has another identity, so like a pruned one it
      has no reading to measure from: its next sample reports no utilization.
      Otherwise utilization is reported exactly when the latest reading is
      comparable, not ahead, and earlier. */
  lemma MeasuredAgainstLatest(states: seq<Counters>, events: seq<Event>, fds: seq<ParsedFd>, now: Instant, gpu: DrmProcessGpu,
    identity: ProcessIdentity, name: string)
    requires IsSampling(states, events) && GpuIs(gpu, states[|events|], identity, fds, now) && EngineNamed(gpu.engines, name).Some?
    ensures var rs, o := Readings(events, EngineKey(identity, gpu.bdf, name)),
                         Observed(Sample(identity, fds, now), EngineKey(identity, gpu.bdf, name));
      && o.Some?
      && (EngineNamed(gpu.engines, name).value.utilization.Some? <==> rs != [] && Measurable(rs[|rs| - 1], o.value))
      && EngineNamed(gpu.engines, name).value.utilization == Utilization(Latest(rs), o.value)
  {
    BaselineIsLatestReading(states, events, EngineKey(identity, gpu.bdf, name));
  }

  lemma {:induction false} PrunedReadings(events: seq<Event>, t: nat, key: EngineKey)
    requires t < |events| && events[t].Retain? && key.identity !in events[t].live
    requires forall i :: t < i < |events| ==> Observed(events[i], key) == None
    ensures Readings(events, key) == []
  {
    if t < |events| - 1 {
      PrunedReadings(events[..|events| - 1], t, key);
    }
  }

  /** Pruning, or never having been sampled under this start time, leaves the
      next sample without utilization. */
  lemma FirstSampleUnmeasured(states: seq<Counters>, events: seq<Event>, fds: seq<ParsedFd>, now: Instant, gpu: DrmProcessGpu,
    identity: ProcessIdentity, name: string, t: int)
    requires IsSampling(states, events) && GpuIs(gpu, states[|events|], identity, fds, now) && EngineNamed(gpu.engines, name).Some?
    requires t == -1 || (0 <= t < |events| && events[t].Retain? && identity !in events[t].live)
    requires forall i :: t < i < |events| ==> !(events[i].Sample? && events[i].identity == identity)
    ensures EngineNamed(gpu.engines, name).value.utilization == None
  {
    var key := EngineKey(identity, gpu.bdf, name);
    if t == -1 {
      NeverRead(events, key);
    } else {
      PrunedReadings(events, t, key);
    }
    MeasuredAgainstLatest(states, events, fds, now, gpu, identity, name);
  }

  lemma {:induction false} NeverRead(events: seq<Event>, key: EngineKey)
    requires forall i :: 0 <= i < |events| ==> Observed(events[i], key) == None
    ensures Readings(events, key) == []
  {
    if events != [] {
      NeverRead(events[..|events| - 1], key);
    }
  }

  /** The work reported for an engine since the last prune: utilization times the
      time (or cycles) it covers. */
  function ReportedWork(states: seq<Counters>, events: seq<Event>, key: EngineKey): real
    requires |states| == |events| + 1
    decreases |events|
  {
    if events == [] then 0.0
    else
      var n := |events| - 1;
      var before, event := ReportedWork(states[..n + 1], events[..n], key), events[n];
      if event.Retain? then if key.identity in event.live then before else 0.0
      else
        match Observed(event, key)
        case None => before
        case Some(o) => before + Reported(Lookup(states[n], key), o)
  }

  function Reported(was: Option<EngineCounter>, o: EngineCounter): real {
    match Utilization(was, o)
    case None => 0.0
    case Some(u) => u * Span(was.value, o) as real / 100.0
  }

  function WorkDone(c: EngineCounter): nat {
    if c.busyNs.Some? then c.busyNs.value else c.cyclesBusy.GetOr(0)
  }

  /** No reset, no change of scheme and no two readings at once. */
  predicate Steady(readings: seq<EngineCounter>) {
    forall i :: 0 < i < |readings| ==>
      && (ByTime(readings[i - 1], readings[i]) || (readings[i - 1].busyNs.None? && ByCycles(readings[i - 1], readings[i])))
      && Measurable(readings[i - 1], readings[i])
  }

  lemma GainIsDifference(was: EngineCounter, cur: EngineCounter)
    requires ByTime(was, cur) || (was.busyNs.None? && ByCycles(was, cur))
    ensures Gain(was, cur) == WorkDone(cur) - WorkDone(was)
  {
  }

  lemma WorkOf(was: EngineCounter, cur: EngineCounter)
    requires Measurable(was, cur)
    ensures Utilization(Some(was), cur).value * Span(was, cur) as real / 100.0 == Gain(was, cur) as real
  {
  }

  lemma ReportAdds(readings: seq<EngineCounter>, o: EngineCounter)
    requires Steady(readings + [o])
    ensures Gained(readings + [o]) as real == Gained(readings) as real + Reported(Latest(readings), o)
  {
    var all := readings + [o];
    if readings != [] {
      var was := readings[|readings| - 1];
      assert all[|readings|] == o && all[|readings| - 1] == was && all[0] == readings[0];
      GainIsDifference(was, o);
      WorkOf(was, o);
    }
  }

  lemma ReportedStep(states: seq<Counters>, events: seq<Event>, key: EngineKey)
    requires IsSampling(states, events) && events != []
    ensures var n := |events| - 1;
      var before, o := Readings(events[..n], key), Observed(events[n], key);
      ReportedWork(states, events, key) ==
        if events[n].Retain? && key.identity !in events[n].live then 0.0
        else ReportedWork(states[..n + 1], events[..n], key) + if o.Some? then Reported(Latest(before), o.value) else 0.0
  {
    var n := |events| - 1;
    BaselineIsLatestReading(states[..n + 1], events[..n], key);
  }

  /** Over a steady run the reported work adds up to what the counter gained,
      whatever was sampled or pruned of other processes in between. */
  lemma {:induction false} UtilizationTelescopes(states: seq<Counters>, events: seq<Event>, key: EngineKey)
    requires IsSampling(states, events) && Steady(Readings(events, key))
    ensures ReportedWork(states, events, key) == Gained(Readings(events, key)) as real
    decreases |events|
  {
    if events != [] {
      var n := |events| - 1;
      var before := Readings(events[..n], key);
      ReportedStep(states, events, key);
      if !(events[n].Retain? && key.identity !in events[n].live) {
        SteadyPrefix(before, Readings(events, key));
        UtilizationTelescopes(states[..n + 1], events[..n], key);
        if Observed(events[n], key).Some? {
          ReportAdds(before, Observed(events[n], key).value);
        }
      }
    }
  }

  /** From the first reading to the last. */
  function Gained(readings: seq<EngineCounter>): int {
    if readings == [] then 0 else WorkDone(readings[|readings| - 1]) - WorkDone(readings[0])
  }

  lemma SteadyPrefix(before: seq<EngineCounter>, all: seq<EngineCounter>)
    requires Steady(all) && before <= all
    ensures Steady(before)
  {
  }

  // ---------------------------------------------------------------------
  // The figures in terms of the counters
  // ---------------------------------------------------------------------

  /** `u` is the share of `span` that `gain` makes up, in percent. */
  predicate Percent(u: Option<real>, gain: int, span: int) {
    u.Some? && u.value * span as real == 100.0 * gain as real
  }

  /** Nanosecond counters are measured over the time between two readings: when
      the counter did not go back and time passed. */
  lemma UtilizationByTime(was: EngineCounter, cur: EngineCounter, before: nat, now: nat)
    requires was.busyNs == Some(before) && cur.busyNs == Some(now)
    ensures var u := Utilization(Some(was), cur);
      if before <= now && was.sampledAt < cur.sampledAt then Percent(u, now - before, cur.sampledAt - was.sampledAt)
      else u == None
  {
  }

  /** Cycle counters are measured over the total cycles: when neither counter
      went back and the total advanced. */
  lemma UtilizationByCycles(was: EngineCounter, cur: EngineCounter, before: nat, now: nat, totalBefore: nat, total: nat)
    requires cur.busyNs == None && was.cyclesBusy == Some(before) && cur.cyclesBusy == Some(now)
    requires was.cyclesTotal == Some(totalBefore) && cur.cyclesTotal == Some(total)
    ensures var u := Utilization(Some(was), cur);
      if before <= now && totalBefore < total then Percent(u, now - before, total - totalBefore) else u == None
  {
  }

  /** Readings of different kinds cannot be compared. */
  lemma UtilizationUnknown(was: EngineCounter, cur: EngineCounter)
    requires if cur.busyNs.Some? then was.busyNs.None?
      else was.cyclesBusy.None? || was.cyclesTotal.None? || cur.cyclesBusy.None? || cur.cyclesTotal.None?
    ensures Utilization(Some(was), cur) == None && Utilization(None, cur) == None
  {
  }

  /** The counters a sample reports of an engine are those of the descriptors
      counted for its device. */
  lemma ReportedCounters(gpu: DrmProcessGpu, was: Counters, identity: ProcessIdentity, fds: seq<ParsedFd>, now: Instant, name: string)
    requires GpuIs(gpu, was, identity, fds, now) && EngineNamed(gpu.engines, name).Some?
    ensures var shown, counted := EngineNamed(gpu.engines, name).value, OnDevice(Kept(fds), gpu.bdf);
      && EngineOver(counted, name).Some? && shown.name == name
      && EngineIs(AggEngine(shown.busyNs, shown.cyclesBusy, shown.cyclesTotal, shown.capacity), counted, name)
  {
    EngineTotals(OnDevice(Kept(fds), gpu.bdf), name);
  }
}
