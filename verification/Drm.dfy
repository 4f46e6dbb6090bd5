/** GPU use of one process, from the fdinfo files of its DRM descriptors
    (src/drm.rs): every client counted once, devices and engines summed up. */
module Drm {
  import opened Domain

  datatype ParsedEngine = ParsedEngine(
    busyNs: Option<nat>, cyclesBusy: Option<nat>, cyclesTotal: Option<nat>, capacity: Option<nat>)

  /** One parsed fdinfo file. `clientId` tells descriptors of one client from
      descriptors of another. */
  datatype ParsedFd = ParsedFd(
    bdf: string, driver: string, clientId: Option<nat>,
    engines: seq<(string, ParsedEngine)>, resident: nat, total: nat)

  /** Counters summed over the descriptors that report them. */
  datatype AggEngine = AggEngine(
    busyNs: Option<nat>, cyclesBusy: Option<nat>, cyclesTotal: Option<nat>, capacity: Option<nat>)

  datatype AggGpu = AggGpu(
    driver: string, clientCount: nat, resident: nat, total: nat, engines: map<string, AggEngine>)

  /** A file's engines come from a table, so each name occurs once. */
  predicate UniqueNames(engines: seq<(string, ParsedEngine)>) {
    forall i, j :: 0 <= i < j < |engines| ==> engines[i].0 != engines[j].0
  }

  predicate WellFormed(fds: seq<ParsedFd>) {
    forall i :: 0 <= i < |fds| ==> UniqueNames(fds[i].engines)
  }

  // ---------------------------------------------------------------------
  // What is counted
  // ---------------------------------------------------------------------

  /** An earlier descriptor belongs to the same client of the same device. */
  predicate Repeats(earlier: seq<ParsedFd>, fd: ParsedFd) {
    fd.clientId.Some? &&
    exists i :: 0 <= i < |earlier| && earlier[i].bdf == fd.bdf && earlier[i].clientId == fd.clientId
  }

  function Kept(fds: seq<ParsedFd>): seq<ParsedFd> {
    if fds == [] then []
    else
      var earlier, fd := fds[..|fds| - 1], fds[|fds| - 1];
      if Repeats(earlier, fd) then Kept(earlier) else Kept(earlier) + [fd]
  }

  function OnDevice(fds: seq<ParsedFd>, bdf: string): seq<ParsedFd> {
    if fds == [] then []
    else
      var before, fd := OnDevice(fds[..|fds| - 1], bdf), fds[|fds| - 1];
      if fd.bdf == bdf then before + [fd] else before
  }

  /** The devices in order of first appearance. */
  function Devices(fds: seq<ParsedFd>): seq<string> {
    if fds == [] then []
    else
      var before := Devices(fds[..|fds| - 1]);
      if fds[|fds| - 1].bdf in before then before else before + [fds[|fds| - 1].bdf]
  }

  function EngineOf(engines: seq<(string, ParsedEngine)>, name: string): Option<ParsedEngine> {
    if engines == [] then None
    else if engines[|engines| - 1].0 == name then Some(engines[|engines| - 1].1)
    else EngineOf(engines[..|engines| - 1], name)
  }

  function Added(sum: Option<nat>, more: Option<nat>): Option<nat> {
    if more.Some? then Some(SaturatingAdd(sum.GetOr(0), more.value)) else sum
  }

  function Larger(a: Option<nat>, b: Option<nat>): Option<nat> {
    if a.Some? && (b.None? || b.value <= a.value) then a else b
  }

  const NO_ENGINE := AggEngine(None, None, None, None)

  function Merged(agg: AggEngine, engine: ParsedEngine): AggEngine {
    AggEngine(Added(agg.busyNs, engine.busyNs), Added(agg.cyclesBusy, engine.cyclesBusy),
              Added(agg.cyclesTotal, engine.cyclesTotal), Larger(agg.capacity, engine.capacity))
  }

  /** One engine over the given descriptors. */
  function EngineOver(fds: seq<ParsedFd>, name: string): Option<AggEngine> {
    if fds == [] then None
    else
      var before := EngineOver(fds[..|fds| - 1], name);
      match EngineOf(fds[|fds| - 1].engines, name)
      case None => before
      case Some(e) => Some(Merged(before.GetOr(NO_ENGINE), e))
  }

  /** A quantity summed over descriptors, without saturation. */
  function Sum(fds: seq<ParsedFd>, amount: ParsedFd -> nat): nat {
    if fds == [] then 0 else Sum(fds[..|fds| - 1], amount) + amount(fds[|fds| - 1])
  }

  const RESIDENT := (fd: ParsedFd) => fd.resident
  const TOTAL := (fd: ParsedFd) => fd.total

  /** A device summed over the descriptors that count for it. */
  ghost predicate DeviceIs(agg: AggGpu, fds: seq<ParsedFd>) {
    && fds != [] && agg.driver == fds[0].driver && agg.clientCount == |fds|
    && agg.resident == Saturate(Sum(fds, RESIDENT)) && agg.total == Saturate(Sum(fds, TOTAL))
    && forall name :: Lookup(agg.engines, name) == EngineOver(fds, name)
  }

  // ---------------------------------------------------------------------
  // Aggregation
  // ---------------------------------------------------------------------

  /** `merge_engine`. */
  method MergeEngine(engines: map<string, AggEngine>, name: string, engine: ParsedEngine)
    returns (merged: map<string, AggEngine>)
    ensures merged == engines[name := Merged(Lookup(engines, name).GetOr(NO_ENGINE), engine)]
  {
    var agg := if name in engines then engines[name] else NO_ENGINE;
    if engine.busyNs.Some? {
      agg := agg.(busyNs := Some(SaturatingAdd(agg.busyNs.GetOr(0), engine.busyNs.value)));
    }
    if engine.cyclesBusy.Some? {
      agg := agg.(cyclesBusy := Some(SaturatingAdd(agg.cyclesBusy.GetOr(0), engine.cyclesBusy.value)));
    }
    if engine.cyclesTotal.Some? {
      agg := agg.(cyclesTotal := Some(SaturatingAdd(agg.cyclesTotal.GetOr(0), engine.cyclesTotal.value)));
    }
    if engine.capacity.Some? {
      var cap := engine.capacity.value;
      agg := agg.(capacity := Some(if agg.capacity.Some? && agg.capacity.value > cap then agg.capacity.value else cap));
    }
    merged := engines[name := agg];
  }

  ghost predicate EnginesMerged(was: map<string, AggEngine>, now: map<string, AggEngine>, engines: seq<(string, ParsedEngine)>) {
    forall name :: Lookup(now, name) ==
      match EngineOf(engines, name)
      case None => Lookup(was, name)
      case Some(e) => Some(Merged(Lookup(was, name).GetOr(NO_ENGINE), e))
  }

  lemma {:induction false} EngineOfAbsent(engines: seq<(string, ParsedEngine)>, name: string)
    requires forall i :: 0 <= i < |engines| ==> engines[i].0 != name
    ensures EngineOf(engines, name) == None
  {
    if engines != [] {
      EngineOfAbsent(engines[..|engines| - 1], name);
    }
  }

  method MergeEngines(was: map<string, AggEngine>, engines: seq<(string, ParsedEngine)>) returns (merged: map<string, AggEngine>)
    requires UniqueNames(engines)
    ensures EnginesMerged(was, merged, engines)
  {
    merged := was;
    var i := 0;
    while i < |engines|
      invariant i <= |engines|
      invariant EnginesMerged(was, merged, engines[..i])
    {
      assert engines[..i + 1][..i] == engines[..i];
      EngineOfAbsent(engines[..i], engines[i].0);
      merged := MergeEngine(merged, engines[i].0, engines[i].1);
      i := i + 1;
    }
    assert engines[..i] == engines;
  }

  /** The aggregation loop's variables. */
  datatype Aggregate = Aggregate(order: seq<string>, byBdf: map<string, AggGpu>)

  ghost predicate AggregateOf(a: Aggregate, fds: seq<ParsedFd>) {
    && a.order == Devices(fds)
    && (forall bdf :: bdf in a.byBdf <==> bdf in a.order)
    && forall bdf :: bdf in a.byBdf ==> DeviceIs(a.byBdf[bdf], OnDevice(Kept(fds), bdf))
  }

  ghost predicate SeenAre(seen: set<(string, nat)>, fds: seq<ParsedFd>) {
    forall bdf, id :: (bdf, id) in seen <==> exists i :: 0 <= i < |fds| && fds[i].bdf == bdf && fds[i].clientId == Some(id)
  }

  lemma SaturateAdds(a: nat, b: nat)
    ensures SaturatingAdd(Saturate(a), b) == Saturate(a + b)
  {
  }

  lemma OnDeviceSnoc(fds: seq<ParsedFd>, fd: ParsedFd, bdf: string)
    ensures OnDevice(fds + [fd], bdf) == if fd.bdf == bdf then OnDevice(fds, bdf) + [fd] else OnDevice(fds, bdf)
  {
    assert (fds + [fd])[..|fds|] == fds;
  }

  lemma DeviceGrows(agg: AggGpu, merged: map<string, AggEngine>, fds: seq<ParsedFd>, fd: ParsedFd)
    requires DeviceIs(agg, fds) && EnginesMerged(agg.engines, merged, fd.engines)
    ensures DeviceIs(AggGpu(agg.driver, agg.clientCount + 1, SaturatingAdd(agg.resident, fd.resident),
                            SaturatingAdd(agg.total, fd.total), merged), fds + [fd])
  {
    assert (fds + [fd])[..|fds|] == fds;
    SaturateAdds(Sum(fds, RESIDENT), fd.resident);
    SaturateAdds(Sum(fds, TOTAL), fd.total);
  }

  lemma DeviceStarts(merged: map<string, AggEngine>, fd: ParsedFd)
    requires EnginesMerged(map[], merged, fd.engines)
    ensures DeviceIs(AggGpu(fd.driver, 1, SaturatingAdd(0, fd.resident), SaturatingAdd(0, fd.total), merged), [fd])
  {
    assert [fd][..0] == [];
  }

  lemma KeptSnoc(fds: seq<ParsedFd>, fd: ParsedFd)
    ensures Kept(fds + [fd]) == if Repeats(fds, fd) then Kept(fds) else Kept(fds) + [fd]
    ensures Devices(fds + [fd]) == if fd.bdf in Devices(fds) then Devices(fds) else Devices(fds) + [fd.bdf]
  {
    assert (fds + [fd])[..|fds|] == fds;
  }

  lemma {:induction false} DevicesAre(fds: seq<ParsedFd>, bdf: string)
    ensures bdf in Devices(fds) <==> exists i :: 0 <= i < |fds| && fds[i].bdf == bdf
  {
    if fds != [] {
      var n := |fds| - 1;
      DevicesAre(fds[..n], bdf);
      if exists i :: 0 <= i < |fds| && fds[i].bdf == bdf {
        var i :| 0 <= i < |fds| && fds[i].bdf == bdf;
        assert i < n ==> fds[..n][i].bdf == bdf;
      }
    }
  }

  lemma {:induction false} DevicesDistinct(fds: seq<ParsedFd>)
    ensures forall i, j :: 0 <= i < j < |Devices(fds)| ==> Devices(fds)[i] != Devices(fds)[j]
  {
    if fds != [] {
      DevicesDistinct(fds[..|fds| - 1]);
    }
  }

  /** A device nobody mentioned has nothing to sum. */
  lemma {:induction false} NothingOnDevice(fds: seq<ParsedFd>, bdf: string)
    requires bdf !in Devices(fds)
    ensures OnDevice(Kept(fds), bdf) == []
  {
    if fds != [] {
      var n := |fds| - 1;
      NothingOnDevice(fds[..n], bdf);
      OnDeviceSnoc(Kept(fds[..n]), fds[n], bdf);
    }
  }

  lemma RepeatIgnored(a: Aggregate, fds: seq<ParsedFd>, fd: ParsedFd)
    requires AggregateOf(a, fds) && Repeats(fds, fd)
    ensures AggregateOf(a, fds + [fd])
  {
    KeptSnoc(fds, fd);
    DevicesAre(fds, fd.bdf);
  }

  method Remember(was: set<(string, nat)>, ghost fds: seq<ParsedFd>, fd: ParsedFd) returns (seen: set<(string, nat)>)
    requires SeenAre(was, fds)
    ensures SeenAre(seen, fds + [fd])
    ensures Repeats(fds, fd) <==> fd.clientId.Some? && (fd.bdf, fd.clientId.value) in was
  {
    seen := if fd.clientId.Some? then was + {(fd.bdf, fd.clientId.value)} else was;
    ghost var all := fds + [fd];
    forall bdf, id | (bdf, id) in seen
      ensures exists i :: 0 <= i < |all| && all[i].bdf == bdf && all[i].clientId == Some(id)
    {
      if (bdf, id) in was {
        var i :| 0 <= i < |fds| && fds[i].bdf == bdf && fds[i].clientId == Some(id);
        assert all[i] == fds[i];
      } else {
        assert all[|fds|] == fd;
      }
    }
  }

  /** The aggregation loop of `sample_process_gpus`. */
  method AggregateFds(fds: seq<ParsedFd>) returns (a: Aggregate)
    requires WellFormed(fds)
    ensures AggregateOf(a, fds)
  {
    var seen: set<(string, nat)> := {};
    a := Aggregate([], map[]);
    var i := 0;
    while i < |fds|
      invariant i <= |fds|
      invariant AggregateOf(a, fds[..i])
      invariant SeenAre(seen, fds[..i])
    {
      var fd := fds[i];
      assert fds[..i + 1] == fds[..i] + [fd];
      var repeated := fd.clientId.Some? && (fd.bdf, fd.clientId.value) in seen;
      seen := Remember(seen, fds[..i], fd);
      if !repeated {
        a := AbsorbFd(a, fds[..i], fd);
      } else {
        RepeatIgnored(a, fds[..i], fd);
      }
      i := i + 1;
    }
    assert fds[..i] == fds;
  }

  method AbsorbFd(was: Aggregate, ghost fds: seq<ParsedFd>, fd: ParsedFd) returns (a: Aggregate)
    requires AggregateOf(was, fds) && !Repeats(fds, fd) && UniqueNames(fd.engines)
    ensures AggregateOf(a, fds + [fd])
  {
    KeptSnoc(fds, fd);
    a := was;
    if fd.bdf !in a.byBdf {
      a := a.(order := a.order + [fd.bdf]);
    }
    var agg := if fd.bdf in a.byBdf then a.byBdf[fd.bdf] else AggGpu(fd.driver, 0, 0, 0, map[]);
    var merged := MergeEngines(agg.engines, fd.engines);
    a := a.(byBdf := a.byBdf[fd.bdf := AggGpu(agg.driver, agg.clientCount + 1, SaturatingAdd(agg.resident, fd.resident),
                                              SaturatingAdd(agg.total, fd.total), merged)]);
    if fd.bdf in was.byBdf {
      DeviceGrows(agg, merged, OnDevice(Kept(fds), fd.bdf), fd);
    } else {
      NothingOnDevice(fds, fd.bdf);
      DeviceStarts(merged, fd);
    }
    forall bdf | bdf in a.byBdf
      ensures DeviceIs(a.byBdf[bdf], OnDevice(Kept(fds + [fd]), bdf))
    {
      OnDeviceSnoc(Kept(fds), fd, bdf);
    }
  }
}
