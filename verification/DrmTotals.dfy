/** What the summed GPU use depends on: the set of clients, not how often or in
    what order their descriptors are listed (src/drm.rs). */
module DrmTotals {
  import opened Domain
  import opened Drm

  // ---------------------------------------------------------------------
  // Repeated descriptors
  // ---------------------------------------------------------------------

  lemma RepeatsWithout(a: seq<ParsedFd>, x: ParsedFd, b: seq<ParsedFd>, fd: ParsedFd)
    requires Repeats(a, x)
    ensures Repeats(a + [x] + b, fd) <==> Repeats(a + b, fd)
  {
    var long, short := a + [x] + b, a + b;
    if Repeats(long, fd) {
      var i :| 0 <= i < |long| && long[i].bdf == fd.bdf && long[i].clientId == fd.clientId;
      var first :| 0 <= first < |a| && a[first].bdf == x.bdf && a[first].clientId == x.clientId;
      var k := if i < |a| then i else if i == |a| then first else i - 1;
      assert short[k].bdf == fd.bdf && short[k].clientId == fd.clientId;
    }
    if Repeats(short, fd) {
      var i :| 0 <= i < |short| && short[i].bdf == fd.bdf && short[i].clientId == fd.clientId;
      var k := if i < |a| then i else i + 1;
      assert long[k] == short[i];
    }
  }

  lemma {:induction false} RepeatNotKept(a: seq<ParsedFd>, x: ParsedFd, b: seq<ParsedFd>)
    requires Repeats(a, x)
    ensures Kept(a + [x] + b) == Kept(a + b) && Devices(a + [x] + b) == Devices(a + b)
    decreases |b|
  {
    if b == [] {
      assert a + [x] + b == a + [x] && a + b == a;
      KeptSnoc(a, x);
      DevicesAre(a, x.bdf);
    } else {
      var front, last := b[..|b| - 1], b[|b| - 1];
      assert a + [x] + b == (a + [x] + front) + [last] && a + b == (a + front) + [last];
      RepeatNotKept(a, x, front);
      RepeatsWithout(a, x, front, last);
      KeptSnoc(a + [x] + front, last);
      KeptSnoc(a + front, last);
    }
  }

  /** Listing another descriptor of a known client, anywhere after the first,
      changes no number, no device and no order. */
  lemma RepeatsChangeNothing(a: seq<ParsedFd>, x: ParsedFd, b: seq<ParsedFd>, result: Aggregate)
    requires Repeats(a, x)
    ensures AggregateOf(result, a + [x] + b) <==> AggregateOf(result, a + b)
  {
    RepeatNotKept(a, x, b);
  }

  predicate SameClient(a: ParsedFd, b: ParsedFd) {
    a.clientId.Some? && a.bdf == b.bdf && a.clientId == b.clientId
  }

  /** The descriptors of one client report the same. */
  predicate PayloadsAgree(fds: seq<ParsedFd>) {
    forall i, j :: 0 <= i < |fds| && 0 <= j < |fds| && SameClient(fds[i], fds[j]) ==> fds[i] == fds[j]
  }

  /** How often a descriptor counts. */
  function Times(fds: seq<ParsedFd>, fd: ParsedFd): nat {
    if fd.clientId.Some? then if fd in fds then 1 else 0 else multiset(fds)[fd]
  }

  lemma RepeatIsMember(front: seq<ParsedFd>, last: ParsedFd)
    requires PayloadsAgree(front + [last])
    ensures PayloadsAgree(front)
    ensures Repeats(front, last) <==> last.clientId.Some? && last in front
  {
    var fds := front + [last];
    forall i, j | 0 <= i < |front| && 0 <= j < |front| && SameClient(front[i], front[j])
      ensures front[i] == front[j]
    {
      assert SameClient(fds[i], fds[j]);
    }
    if Repeats(front, last) {
      var i :| 0 <= i < |front| && front[i].bdf == last.bdf && front[i].clientId == last.clientId;
      assert SameClient(fds[i], fds[|front|]);
    }
  }

  lemma TimesOneMore(front: seq<ParsedFd>, last: ParsedFd, fd: ParsedFd)
    ensures Times(front + [last], fd) ==
      if fd != last || (last.clientId.Some? && last in front) then Times(front, fd) else Times(front, fd) + 1
  {
  }

  lemma KeptOneMore(front: seq<ParsedFd>, last: ParsedFd, fd: ParsedFd)
    requires PayloadsAgree(front + [last])
    ensures multiset(Kept(front + [last]))[fd] ==
      if fd != last || (last.clientId.Some? && last in front) then multiset(Kept(front))[fd] else multiset(Kept(front))[fd] + 1
  {
    RepeatIsMember(front, last);
    KeptSnoc(front, last);
  }

  /** A client counts once, an unidentified descriptor as often as it is listed. */
  lemma {:induction false} KeptOncePerClient(fds: seq<ParsedFd>, fd: ParsedFd)
    requires PayloadsAgree(fds)
    ensures multiset(Kept(fds))[fd] == Times(fds, fd)
  {
    if fds != [] {
      var front, last := fds[..|fds| - 1], fds[|fds| - 1];
      assert fds == front + [last];
      RepeatIsMember(front, last);
      KeptOncePerClient(front, fd);
      KeptOneMore(front, last, fd);
      TimesOneMore(front, last, fd);
    }
  }

  // ---------------------------------------------------------------------
  // Order
  // ---------------------------------------------------------------------

  lemma {:induction false} OnDeviceCounts(fds: seq<ParsedFd>, bdf: string, fd: ParsedFd)
    ensures multiset(OnDevice(fds, bdf))[fd] == if fd.bdf == bdf then multiset(fds)[fd] else 0
  {
    if fds != [] {
      var n := |fds| - 1;
      OnDeviceCounts(fds[..n], bdf, fd);
      assert fds == fds[..n] + [fds[n]];
    }
  }

  lemma {:induction false} SumSplit(a: seq<ParsedFd>, x: ParsedFd, b: seq<ParsedFd>, amount: ParsedFd -> nat)
    ensures Sum(a + [x] + b, amount) == Sum(a + b, amount) + amount(x)
    decreases |b|
  {
    if b == [] {
      assert (a + [x] + b)[..|a|] == a && a + b == a;
    } else {
      var n := |b| - 1;
      SumSplit(a, x, b[..n], amount);
      assert (a + [x] + b)[..|a| + 1 + n] == a + [x] + b[..n] && (a + b)[..|a| + n] == a + b[..n];
    }
  }

  lemma WithoutOne(s: seq<ParsedFd>, k: nat)
    requires k < |s|
    ensures multiset(s[..k] + s[k + 1..]) == multiset(s) - multiset{s[k]}
  {
    assert s == s[..k] + [s[k]] + s[k + 1..];
  }

  lemma PermutedLast(a: seq<ParsedFd>, b: seq<ParsedFd>) returns (k: nat)
    requires multiset(a) == multiset(b) && a != []
    ensures k < |b| && b[k] == a[|a| - 1] && multiset(b[..k] + b[k + 1..]) == multiset(a[..|a| - 1])
  {
    var n := |a| - 1;
    WithoutOne(a, n);
    assert a[..n] + a[n + 1..] == a[..n];
    assert a[n] in multiset(b);
    k :| 0 <= k < |b| && b[k] == a[n];
    WithoutOne(b, k);
  }

  /** A sum depends on what is summed, not on the order. */
  lemma {:induction false} SumPermuted(a: seq<ParsedFd>, b: seq<ParsedFd>, amount: ParsedFd -> nat)
    requires multiset(a) == multiset(b)
    ensures Sum(a, amount) == Sum(b, amount)
  {
    if a == [] {
      assert |multiset(b)| == 0;
    } else {
      var k := PermutedLast(a, b);
      SumPermuted(a[..|a| - 1], b[..k] + b[k + 1..], amount);
      SumSplit(b[..k], b[k], b[k + 1..], amount);
      assert b == b[..k] + [b[k]] + b[k + 1..];
    }
  }

  /** Reads one counter of a file's engine. */
  type Counter = ParsedEngine -> Option<nat>

  function CounterOf(fd: ParsedFd, name: string, counter: Counter): Option<nat> {
    match EngineOf(fd.engines, name)
    case None => None
    case Some(e) => counter(e)
  }

  function Amount(name: string, counter: Counter): ParsedFd -> nat {
    (fd: ParsedFd) => CounterOf(fd, name, counter).GetOr(0)
  }

  predicate Reported(fds: seq<ParsedFd>, name: string, counter: Counter) {
    exists fd :: fd in fds && CounterOf(fd, name, counter).Some?
  }

  /** The saturated sum over the descriptors that report the counter, if any does. */
  function Totalled(fds: seq<ParsedFd>, name: string, counter: Counter): Option<nat> {
    if Reported(fds, name, counter) then Some(Saturate(Sum(fds, Amount(name, counter)))) else None
  }

  const BUSY_NS: Counter := (e: ParsedEngine) => e.busyNs
  const CYCLES_BUSY: Counter := (e: ParsedEngine) => e.cyclesBusy
  const CYCLES_TOTAL: Counter := (e: ParsedEngine) => e.cyclesTotal
  const CAPACITY: Counter := (e: ParsedEngine) => e.capacity

  lemma {:induction false} SumOfNothing(fds: seq<ParsedFd>, name: string, counter: Counter)
    requires !Reported(fds, name, counter)
    ensures Sum(fds, Amount(name, counter)) == 0
  {
    if fds != [] {
      assert forall fd :: fd in fds[..|fds| - 1] ==> fd in fds;
      SumOfNothing(fds[..|fds| - 1], name, counter);
      assert fds[|fds| - 1] in fds;
    }
  }

  lemma TotalledSnoc(fds: seq<ParsedFd>, fd: ParsedFd, name: string, counter: Counter)
    ensures Totalled(fds + [fd], name, counter) == Added(Totalled(fds, name, counter), CounterOf(fd, name, counter))
  {
    var all := fds + [fd];
    assert all[..|fds|] == fds;
    assert fd in all;
    assert forall f :: f in fds ==> f in all;
    if !Reported(fds, name, counter) {
      SumOfNothing(fds, name, counter);
    }
  }

  /** The largest reported capacity. */
  predicate IsLargest(fds: seq<ParsedFd>, name: string, largest: Option<nat>) {
    && (largest.None? <==> !Reported(fds, name, CAPACITY))
    && (largest.Some? ==>
          && (exists fd :: fd in fds && CounterOf(fd, name, CAPACITY) == largest)
          && forall fd :: fd in fds && CounterOf(fd, name, CAPACITY).Some? ==> CounterOf(fd, name, CAPACITY).value <= largest.value)
  }

  lemma LargestSnoc(fds: seq<ParsedFd>, fd: ParsedFd, name: string, largest: Option<nat>)
    requires IsLargest(fds, name, largest)
    ensures IsLargest(fds + [fd], name, Larger(largest, CounterOf(fd, name, CAPACITY)))
  {
    var all := fds + [fd];
    assert fd in all;
    assert forall f :: f in fds ==> f in all;
    assert forall f :: f in all ==> f in fds || f == fd;
  }

  predicate Named(fds: seq<ParsedFd>, name: string) {
    exists fd :: fd in fds && EngineOf(fd.engines, name).Some?
  }

  /** What an engine's numbers are. */
  predicate EngineIs(agg: AggEngine, fds: seq<ParsedFd>, name: string) {
    && agg.busyNs == Totalled(fds, name, BUSY_NS)
    && agg.cyclesBusy == Totalled(fds, name, CYCLES_BUSY)
    && agg.cyclesTotal == Totalled(fds, name, CYCLES_TOTAL)
    && IsLargest(fds, name, agg.capacity)
  }

  lemma EngineIsSnoc(agg: AggEngine, fds: seq<ParsedFd>, fd: ParsedFd, name: string)
    requires EngineIs(agg, fds, name)
    ensures EngineIs(if EngineOf(fd.engines, name).Some? then Merged(agg, EngineOf(fd.engines, name).value) else agg,
                     fds + [fd], name)
  {
    TotalledSnoc(fds, fd, name, BUSY_NS);
    TotalledSnoc(fds, fd, name, CYCLES_BUSY);
    TotalledSnoc(fds, fd, name, CYCLES_TOTAL);
    LargestSnoc(fds, fd, name, agg.capacity);
  }

  /** An engine is listed if a counted descriptor names it; its counters are the
      saturated sums over those that report them, its capacity the largest. */
  lemma {:induction false} EngineTotals(fds: seq<ParsedFd>, name: string)
    ensures EngineOver(fds, name).Some? <==> Named(fds, name)
    ensures EngineIs(EngineOver(fds, name).GetOr(NO_ENGINE), fds, name)
  {
    if fds != [] {
      var front, last := fds[..|fds| - 1], fds[|fds| - 1];
      assert fds == front + [last];
      EngineTotals(front, name);
      EngineIsSnoc(EngineOver(front, name).GetOr(NO_ENGINE), front, last, name);
      assert Named(fds, name) <==> Named(front, name) || EngineOf(last.engines, name).Some? by {
        assert last in fds;
        assert forall f :: f in front ==> f in fds;
        assert forall f :: f in fds ==> f in front || f == last;
      }
    }
  }

  lemma SameMembers(a: seq<ParsedFd>, b: seq<ParsedFd>, fd: ParsedFd)
    requires multiset(a) == multiset(b)
    ensures fd in a <==> fd in b
  {
    assert fd in a <==> fd in multiset(a);
    assert fd in b <==> fd in multiset(b);
  }

  lemma TotalledOrderFree(a: seq<ParsedFd>, b: seq<ParsedFd>, name: string, counter: Counter)
    requires multiset(a) == multiset(b)
    ensures Totalled(a, name, counter) == Totalled(b, name, counter)
    ensures Reported(a, name, counter) <==> Reported(b, name, counter)
  {
    forall fd
      ensures fd in a <==> fd in b
    {
      SameMembers(a, b, fd);
    }
    SumPermuted(a, b, Amount(name, counter));
  }

  lemma LargestOrderFree(a: seq<ParsedFd>, b: seq<ParsedFd>, name: string, x: Option<nat>, y: Option<nat>)
    requires multiset(a) == multiset(b) && IsLargest(a, name, x) && IsLargest(b, name, y)
    ensures x == y
  {
    forall fd
      ensures fd in a <==> fd in b
    {
      SameMembers(a, b, fd);
    }
    TotalledOrderFree(a, b, name, CAPACITY);
  }

  lemma NamedOrderFree(a: seq<ParsedFd>, b: seq<ParsedFd>, name: string)
    requires multiset(a) == multiset(b)
    ensures Named(a, name) <==> Named(b, name)
  {
    forall fd
      ensures fd in a <==> fd in b
    {
      SameMembers(a, b, fd);
    }
  }

  lemma EngineOrderFree(a: seq<ParsedFd>, b: seq<ParsedFd>, name: string)
    requires multiset(a) == multiset(b)
    ensures EngineOver(a, name) == EngineOver(b, name)
  {
    EngineTotals(a, name);
    EngineTotals(b, name);
    NamedOrderFree(a, b, name);
    TotalledOrderFree(a, b, name, BUSY_NS);
    TotalledOrderFree(a, b, name, CYCLES_BUSY);
    TotalledOrderFree(a, b, name, CYCLES_TOTAL);
    LargestOrderFree(a, b, name, EngineOver(a, name).GetOr(NO_ENGINE).capacity, EngineOver(b, name).GetOr(NO_ENGINE).capacity);
  }

  /** Two lists with the same clients, and the same unidentified descriptors. */
  ghost predicate SameClients(f: seq<ParsedFd>, g: seq<ParsedFd>) {
    PayloadsAgree(f) && PayloadsAgree(g) && forall fd :: Times(f, fd) == Times(g, fd)
  }

  lemma SameClientsSameKept(f: seq<ParsedFd>, g: seq<ParsedFd>, bdf: string)
    requires SameClients(f, g)
    ensures multiset(OnDevice(Kept(f), bdf)) == multiset(OnDevice(Kept(g), bdf))
  {
    forall fd
      ensures multiset(OnDevice(Kept(f), bdf))[fd] == multiset(OnDevice(Kept(g), bdf))[fd]
    {
      KeptOncePerClient(f, fd);
      KeptOncePerClient(g, fd);
      OnDeviceCounts(Kept(f), bdf, fd);
      OnDeviceCounts(Kept(g), bdf, fd);
      assert Times(f, fd) == Times(g, fd);
    }
  }

  /** Every number of every device depends only on the set of clients. */
  lemma TotalsOverDistinctClients(f: seq<ParsedFd>, g: seq<ParsedFd>, a: Aggregate, b: Aggregate, bdf: string)
    requires SameClients(f, g) && AggregateOf(a, f) && AggregateOf(b, g) && bdf in a.byBdf
    ensures bdf in b.byBdf
    ensures a.byBdf[bdf].clientCount == b.byBdf[bdf].clientCount
    ensures a.byBdf[bdf].resident == b.byBdf[bdf].resident && a.byBdf[bdf].total == b.byBdf[bdf].total
    ensures a.byBdf[bdf].engines == b.byBdf[bdf].engines
  {
    SameClientsSameKept(f, g, bdf);
    var ks, ls := OnDevice(Kept(f), bdf), OnDevice(Kept(g), bdf);
    assert |ks| == |multiset(ks)| == |multiset(ls)| == |ls|;
    if bdf !in b.byBdf {
      NothingOnDevice(g, bdf);
      assert false;
    }
    SumPermuted(ks, ls, RESIDENT);
    SumPermuted(ks, ls, TOTAL);
    var x, y := a.byBdf[bdf].engines, b.byBdf[bdf].engines;
    forall name
      ensures Lookup(x, name) == Lookup(y, name)
    {
      EngineOrderFree(ks, ls, name);
    }
    MapsEqual(x, y);
  }

  lemma MapsEqual<V>(x: map<string, V>, y: map<string, V>)
    requires forall name :: Lookup(x, name) == Lookup(y, name)
    ensures x == y
  {
    assert forall name :: name in x ==> Lookup(y, name) == Some(x[name]);
    assert forall name :: name in y ==> Lookup(x, name) == Some(y[name]);
  }

  // ---------------------------------------------------------------------
  // One descriptor
  // ---------------------------------------------------------------------

  function Capped(n: nat): nat {
    if n > 0xFFFF_FFFF_FFFF_FFFF then 0xFFFF_FFFF_FFFF_FFFF else n
  }

  function CappedIfTold(n: Option<nat>): Option<nat> {
    match n
    case None => None
    case Some(x) => Some(Capped(x))
  }

  /** With a single descriptor every figure is that descriptor's own. */
  lemma OneDescriptor(fd: ParsedFd, a: Aggregate)
    requires AggregateOf(a, [fd])
    ensures a.order == [fd.bdf] && fd.bdf in a.byBdf
    ensures var agg := a.byBdf[fd.bdf];
      agg.driver == fd.driver && agg.clientCount == 1 && agg.resident == Capped(fd.resident) && agg.total == Capped(fd.total)
  {
    OneKept(fd);
    assert fd.bdf in a.order;
    assert DeviceIs(a.byBdf[fd.bdf], [fd]);
    OneSum(fd, RESIDENT);
    OneSum(fd, TOTAL);
  }

  lemma OneSum(fd: ParsedFd, amount: ParsedFd -> nat)
    ensures Sum([fd], amount) == amount(fd)
  {
    assert [fd][..0] == [];
  }

  lemma OneKept(fd: ParsedFd)
    ensures Devices([fd]) == [fd.bdf] && OnDevice(Kept([fd]), fd.bdf) == [fd]
  {
    assert [fd][..0] == [];
    assert !Repeats([], fd);
    assert Kept([fd]) == [fd];
  }

  /** And so is every counter of every engine. */
  lemma OneEngine(fd: ParsedFd, a: Aggregate, name: string)
    requires AggregateOf(a, [fd])
    ensures fd.bdf in a.byBdf
    ensures match EngineOf(fd.engines, name)
      case None => name !in a.byBdf[fd.bdf].engines
      case Some(e) =>
        && name in a.byBdf[fd.bdf].engines
        && a.byBdf[fd.bdf].engines[name] ==
             AggEngine(CappedIfTold(e.busyNs), CappedIfTold(e.cyclesBusy), CappedIfTold(e.cyclesTotal), e.capacity)
  {
    OneDescriptor(fd, a);
    OneKept(fd);
    assert [fd][..0] == [];
    assert Lookup(a.byBdf[fd.bdf].engines, name) == EngineOver([fd], name);
  }
}
