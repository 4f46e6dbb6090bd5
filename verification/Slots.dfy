/** Slot counters: pairing two samples by verified identity and summarising one
    `/slots` array (src/llama/slots.rs). */
module Slots {
  import opened Domain

  /** One slot's cumulative counters, absence kept per dimension. */
  datatype SlotCounter = SlotCounter(
    slotId: Option<nat>, taskId: Option<int>, promptProcessed: Option<nat>, decoded: Option<nat>)

  datatype Dimension = Prompt | Decoded

  function Count(s: SlotCounter, d: Dimension): Option<nat> {
    if d.Prompt? then s.promptProcessed else s.decoded
  }

  function WithId(slots: seq<SlotCounter>, id: nat): nat {
    if slots == [] then 0
    else (if slots[0].slotId == Some(id) then 1 else 0) + WithId(slots[1..], id)
  }

  /** The first slot of that id. */
  function Partner(slots: seq<SlotCounter>, id: nat): Option<SlotCounter> {
    if slots == [] then None
    else if slots[0].slotId == Some(id) then Some(slots[0])
    else Partner(slots[1..], id)
  }

  lemma {:induction false} WithIdIndex(slots: seq<SlotCounter>, id: nat, k: nat)
    requires k < |slots| && slots[k].slotId == Some(id)
    ensures WithId(slots, id) >= 1
    ensures WithId(slots, id) == 1 ==> Partner(slots, id) == Some(slots[k])
    ensures WithId(slots, id) == 1 ==> forall j :: 0 <= j < |slots| && slots[j].slotId == Some(id) ==> j == k
  {
    if k > 0 {
      WithIdIndex(slots[1..], id, k - 1);
      assert slots[1..][k - 1] == slots[k];
      forall j | 0 <= j < |slots| && slots[j].slotId == Some(id) && WithId(slots, id) == 1
        ensures j == k
      {
        if j > 0 {
          assert slots[1..][j - 1] == slots[j];
        }
      }
    } else {
      forall j | 1 <= j < |slots| && slots[j].slotId == Some(id)
        ensures WithId(slots, id) >= 2
      {
        WithIdIndex(slots[1..], id, j - 1);
      }
    }
  }

  lemma {:induction false} PartnerFound(slots: seq<SlotCounter>, id: nat)
    ensures Partner(slots, id).Some? <==> WithId(slots, id) >= 1
    ensures Partner(slots, id).Some? ==> Partner(slots, id).value in slots && Partner(slots, id).value.slotId == Some(id)
  {
    if slots != [] {
      PartnerFound(slots[1..], id);
    }
  }

  predicate TaskIdsMatch(previous: Option<int>, current: Option<int>) {
    previous == current
  }

  /** Every slot carries an id found exactly once on either side. */
  predicate Identified(slots: seq<SlotCounter>, others: seq<SlotCounter>) {
    forall i :: 0 <= i < |slots| ==>
      && slots[i].slotId.Some?
      && WithId(slots, slots[i].slotId.value) == 1
      && WithId(others, slots[i].slotId.value) == 1
  }

  predicate Identifies(s: SlotCounter, previous: seq<SlotCounter>) {
    && s.slotId.Some?
    && Partner(previous, s.slotId.value).Some?
    && TaskIdsMatch(Partner(previous, s.slotId.value).value.taskId, s.taskId)
  }

  /** The two samples pair up slot by slot with no task switched. */
  predicate Paired(previous: seq<SlotCounter>, current: seq<SlotCounter>) {
    && Identified(current, previous)
    && Identified(previous, current)
    && forall i :: 0 <= i < |current| ==> Identifies(current[i], previous)
  }

  function Before(previous: seq<SlotCounter>, s: SlotCounter, d: Dimension): Option<nat> {
    if s.slotId.Some? && Partner(previous, s.slotId.value).Some?
    then Count(Partner(previous, s.slotId.value).value, d) else None
  }

  /** Both sides report without a reset. */
  predicate Advances(previous: seq<SlotCounter>, s: SlotCounter, d: Dimension) {
    Count(s, d).Some? && Before(previous, s, d).Some? && Count(s, d).value >= Before(previous, s, d).value
  }

  predicate Usable(previous: seq<SlotCounter>, s: SlotCounter, d: Dimension) {
    Advances(previous, s, d) || (Count(s, d).None? && Before(previous, s, d).None?)
  }

  /** The exact sum of the paired deltas. */
  function Total(previous: seq<SlotCounter>, current: seq<SlotCounter>, d: Dimension): nat {
    if current == [] then 0
    else
      var last := current[|current| - 1];
      Total(previous, current[..|current| - 1], d)
      + Delta(previous, last, d)
  }

  function Delta(previous: seq<SlotCounter>, s: SlotCounter, d: Dimension): nat {
    if Advances(previous, s, d) then Count(s, d).value - Before(previous, s, d).value else 0
  }

  predicate Available(previous: seq<SlotCounter>, current: seq<SlotCounter>, seconds: real, d: Dimension) {
    && seconds > 0.0 && current != []
    && Paired(previous, current)
    && (forall i :: 0 <= i < |current| ==> Usable(previous, current[i], d))
    && exists i :: 0 <= i < |current| && Advances(previous, current[i], d)
  }

  /** The verified rate of one dimension, when there is one. */
  function SlotRate(previous: seq<SlotCounter>, current: seq<SlotCounter>, seconds: real, d: Dimension): Option<real> {
    if Available(previous, current, seconds, d)
    then Some(Saturate(Total(previous, current, d)) as real / seconds) else None
  }

  method CountWithId(slots: seq<SlotCounter>, id: nat) returns (n: nat)
    ensures n == WithId(slots, id)
  {
    n := 0;
    var i := 0;
    while i < |slots|
      invariant i <= |slots|
      invariant n + WithId(slots[i..], id) == WithId(slots, id)
    {
      assert slots[i..][1..] == slots[i + 1..];
      if slots[i].slotId == Some(id) {
        n := n + 1;
      }
      i := i + 1;
    }
  }

  /** Sum and flags of one dimension over the first `i` current slots. */
  datatype Tally = Tally(delta: nat, known: bool, reported: bool)

  predicate TallyOf(t: Tally, previous: seq<SlotCounter>, done: seq<SlotCounter>, d: Dimension) {
    && t.delta == Saturate(Total(previous, done, d))
    && (t.known <==> forall k :: 0 <= k < |done| ==> Usable(previous, done[k], d))
    && (t.reported <==> exists k :: 0 <= k < |done| && Advances(previous, done[k], d))
  }

  function Tallied(t: Tally, now: Option<nat>, before: Option<nat>): Tally {
    if now.Some? && before.Some? && now.value >= before.value
    then Tally(SaturatingAdd(t.delta, now.value - before.value), t.known, true)
    else if now.None? && before.None? then t
    else t.(known := false)
  }

  lemma TallyStep(t: Tally, previous: seq<SlotCounter>, done: seq<SlotCounter>, s: SlotCounter, d: Dimension)
    requires TallyOf(t, previous, done, d)
    ensures TallyOf(Tallied(t, Count(s, d), Before(previous, s, d)), previous, done + [s], d)
  {
    var more := done + [s];
    assert more[..|done|] == done && more[|done|] == s;
    assert forall k :: 0 <= k < |done| ==> more[k] == done[k];
    if t.reported {
      var k :| 0 <= k < |done| && Advances(previous, done[k], d);
      assert Advances(previous, more[k], d);
    }
  }

  lemma TallyNext(t: Tally, previous: seq<SlotCounter>, current: seq<SlotCounter>, i: nat, d: Dimension)
    requires i < |current| && TallyOf(t, previous, current[..i], d)
    ensures TallyOf(Tallied(t, Count(current[i], d), Before(previous, current[i], d)), previous, current[..i + 1], d)
  {
    TallyStep(t, previous, current[..i], current[i], d);
    assert current[..i] + [current[i]] == current[..i + 1];
  }

  /** One current slot pairs up: its id occurs once on either side and the task
      is the same. */
  predicate PairsUp(previous: seq<SlotCounter>, current: seq<SlotCounter>, s: SlotCounter) {
    && s.slotId.Some?
    && WithId(current, s.slotId.value) == 1 && WithId(previous, s.slotId.value) == 1
    && Identifies(s, previous)
  }

  /** Every previous slot is found exactly once in the current sample. */
  predicate StillThere(previous: seq<SlotCounter>, current: seq<SlotCounter>) {
    forall k :: 0 <= k < |previous| ==>
      previous[k].slotId.Some? && WithId(current, previous[k].slotId.value) == 1
  }

  lemma PairedWhenAllPair(previous: seq<SlotCounter>, current: seq<SlotCounter>)
    ensures Paired(previous, current) <==>
      (forall k :: 0 <= k < |current| ==> PairsUp(previous, current, current[k])) && StillThere(previous, current)
  {
    if (forall k :: 0 <= k < |current| ==> PairsUp(previous, current, current[k])) && StillThere(previous, current) {
      forall k | 0 <= k < |previous|
        ensures WithId(previous, previous[k].slotId.value) == 1
      {
        PartnerFound(current, previous[k].slotId.value);
        var i :| 0 <= i < |current| && current[i].slotId == previous[k].slotId;
        assert PairsUp(previous, current, current[i]);
      }
    }
  }

  function RateOf(t: Tally, seconds: real): Option<real>
    requires seconds > 0.0
  {
    if t.known && t.reported then Some(t.delta as real / seconds) else None
  }

  lemma TallyGivesRate(t: Tally, previous: seq<SlotCounter>, current: seq<SlotCounter>, seconds: real, d: Dimension)
    requires TallyOf(t, previous, current, d) && Paired(previous, current) && current != [] && seconds > 0.0
    ensures RateOf(t, seconds) == SlotRate(previous, current, seconds, d)
  {
  }

  method PreviousOf(previous: seq<SlotCounter>, current: seq<SlotCounter>, slot: SlotCounter)
    returns (before: Option<SlotCounter>)
    ensures before.Some? <==> PairsUp(previous, current, slot)
    ensures before.Some? ==> before == Partner(previous, slot.slotId.value)
  {
    if slot.slotId.None? {
      return None;
    }
    var mine := CountWithId(current, slot.slotId.value);
    if mine != 1 {
      return None;
    }
    var theirs := CountWithId(previous, slot.slotId.value);
    if theirs != 1 {
      return None;
    }
    PartnerFound(previous, slot.slotId.value);
    before := Partner(previous, slot.slotId.value);
    if !TaskIdsMatch(before.value.taskId, slot.taskId) {
      before := None;
    }
  }

  method PreviousStillThere(previous: seq<SlotCounter>, current: seq<SlotCounter>) returns (all: bool)
    ensures all <==> StillThere(previous, current)
  {
    var j := 0;
    while j < |previous|
      invariant j <= |previous|
      invariant forall k :: 0 <= k < j ==> previous[k].slotId.Some? && WithId(current, previous[k].slotId.value) == 1
    {
      if previous[j].slotId.None? {
        return false;
      }
      var n := CountWithId(current, previous[j].slotId.value);
      if n != 1 {
        return false;
      }
      j := j + 1;
    }
    all := true;
  }

  /** The loop over the current slots: every one pairs up, or there is no rate. */
  method TallySlots(previous: seq<SlotCounter>, current: seq<SlotCounter>) returns (paired: bool, p: Tally, g: Tally)
    ensures paired <==> forall k :: 0 <= k < |current| ==> PairsUp(previous, current, current[k])
    ensures paired ==> TallyOf(p, previous, current, Prompt) && TallyOf(g, previous, current, Decoded)
  {
    p, g := Tally(0, true, false), Tally(0, true, false);
    var i := 0;
    while i < |current|
      invariant i <= |current|
      invariant TallyOf(p, previous, current[..i], Prompt) && TallyOf(g, previous, current[..i], Decoded)
      invariant forall k :: 0 <= k < i ==> PairsUp(previous, current, current[k])
    {
      var before := PreviousOf(previous, current, current[i]);
      if before.None? {
        return false, p, g;
      }
      TallyNext(p, previous, current, i, Prompt);
      TallyNext(g, previous, current, i, Decoded);
      p := Tallied(p, current[i].promptProcessed, before.value.promptProcessed);
      g := Tallied(g, current[i].decoded, before.value.decoded);
      i := i + 1;
    }
    assert current[..i] == current;
    paired := true;
  }

  /** `slot_delta_tps`. */
  method SlotDeltaTps(previous: seq<SlotCounter>, current: seq<SlotCounter>, seconds: real)
    returns (prompt: Option<real>, decoded: Option<real>)
    ensures prompt == SlotRate(previous, current, seconds, Prompt)
    ensures decoded == SlotRate(previous, current, seconds, Decoded)
  {
    if seconds <= 0.0 || current == [] {
      return None, None;
    }
    PairedWhenAllPair(previous, current);
    var paired, p, g := TallySlots(previous, current);
    if !paired {
      return None, None;
    }
    var all := PreviousStillThere(previous, current);
    if !all {
      return None, None;
    }
    TallyGivesRate(p, previous, current, seconds, Prompt);
    TallyGivesRate(g, previous, current, seconds, Decoded);
    prompt, decoded := RateOf(p, seconds), RateOf(g, seconds);
  }

  // ---------------------------------------------------------------------
  // What pairing means
  // ---------------------------------------------------------------------

  predicate DistinctIds(slots: seq<SlotCounter>) {
    && (forall i :: 0 <= i < |slots| ==> slots[i].slotId.Some?)
    && forall i, j :: 0 <= i < j < |slots| ==> slots[i].slotId != slots[j].slotId
  }

  predicate IdsWithin(slots: seq<SlotCounter>, others: seq<SlotCounter>) {
    forall i :: 0 <= i < |slots| ==> HasId(others, slots[i].slotId)
  }

  predicate HasId(slots: seq<SlotCounter>, id: Option<nat>) {
    exists k :: 0 <= k < |slots| && slots[k].slotId == id
  }

  predicate TasksAgree(previous: seq<SlotCounter>, current: seq<SlotCounter>) {
    forall i, j :: 0 <= i < |current| && 0 <= j < |previous| && current[i].slotId == previous[j].slotId ==>
      current[i].taskId == previous[j].taskId
  }

  lemma {:induction false} WithIdDistinct(slots: seq<SlotCounter>, id: nat)
    requires DistinctIds(slots)
    ensures WithId(slots, id) == if HasId(slots, Some(id)) then 1 else 0
  {
    if slots != [] {
      var rest := slots[1..];
      assert DistinctIds(rest);
      WithIdDistinct(rest, id);
      if exists k :: 0 <= k < |rest| && rest[k].slotId == Some(id) {
        var k :| 0 <= k < |rest| && rest[k].slotId == Some(id);
        assert slots[k + 1].slotId == Some(id);
      }
      if slots[0].slotId != Some(id) && exists k :: 0 <= k < |slots| && slots[k].slotId == Some(id) {
        var k :| 0 <= k < |slots| && slots[k].slotId == Some(id);
        assert rest[k - 1].slotId == Some(id);
      }
    }
  }

  lemma IdentifiedDistinct(previous: seq<SlotCounter>, current: seq<SlotCounter>)
    requires Identified(current, previous)
    ensures DistinctIds(current)
  {
    forall i, j | 0 <= i < j < |current|
      ensures current[i].slotId != current[j].slotId
    {
      WithIdIndex(current, current[i].slotId.value, i);
    }
  }

  lemma PairedIds(previous: seq<SlotCounter>, current: seq<SlotCounter>)
    requires Identified(current, previous)
    ensures DistinctIds(current) && IdsWithin(current, previous)
  {
    IdentifiedDistinct(previous, current);
    forall i | 0 <= i < |current|
      ensures HasId(previous, current[i].slotId)
    {
      PartnerFound(previous, current[i].slotId.value);
      var partner := Partner(previous, current[i].slotId.value).value;
      assert partner in previous;
      var j :| 0 <= j < |previous| && previous[j] == partner;
    }
  }

  /** Same ids on both sides, each once, and no task switched. */
  predicate SameSlots(previous: seq<SlotCounter>, current: seq<SlotCounter>) {
    DistinctIds(current) && DistinctIds(previous)
    && IdsWithin(current, previous) && IdsWithin(previous, current) && TasksAgree(previous, current)
  }

  lemma PairedTasks(previous: seq<SlotCounter>, current: seq<SlotCounter>)
    requires Paired(previous, current)
    ensures TasksAgree(previous, current)
  {
    forall i, j | 0 <= i < |current| && 0 <= j < |previous| && current[i].slotId == previous[j].slotId
      ensures current[i].taskId == previous[j].taskId
    {
      WithIdIndex(previous, current[i].slotId.value, j);
      assert Identifies(current[i], previous);
    }
  }

  lemma IdentifiedWithin(slots: seq<SlotCounter>, others: seq<SlotCounter>)
    requires DistinctIds(slots) && DistinctIds(others) && IdsWithin(slots, others)
    ensures Identified(slots, others)
  {
    forall i | 0 <= i < |slots|
      ensures WithId(slots, slots[i].slotId.value) == 1 && WithId(others, slots[i].slotId.value) == 1
    {
      WithIdDistinct(slots, slots[i].slotId.value);
      WithIdDistinct(others, slots[i].slotId.value);
    }
  }

  lemma SameSlotsIdentify(previous: seq<SlotCounter>, current: seq<SlotCounter>, i: nat)
    requires TasksAgree(previous, current) && Identified(current, previous) && i < |current|
    ensures Identifies(current[i], previous)
  {
    PartnerFound(previous, current[i].slotId.value);
    var partner := Partner(previous, current[i].slotId.value).value;
    var j :| 0 <= j < |previous| && previous[j] == partner;
  }

  /** Samples pair up exactly when their ids are a bijection that keeps tasks. */
  lemma PairedIsBijection(previous: seq<SlotCounter>, current: seq<SlotCounter>)
    ensures Paired(previous, current) <==> SameSlots(previous, current)
  {
    if Paired(previous, current) {
      PairedIds(previous, current);
      PairedIds(current, previous);
      PairedTasks(previous, current);
    }
    if SameSlots(previous, current) {
      IdentifiedWithin(current, previous);
      IdentifiedWithin(previous, current);
      forall i | 0 <= i < |current|
        ensures Identifies(current[i], previous)
      {
        SameSlotsIdentify(previous, current, i);
      }
    }
  }

  // ---------------------------------------------------------------------
  // Order of the array does not matter
  // ---------------------------------------------------------------------

  lemma {:induction false} WithIdRemoved(slots: seq<SlotCounter>, k: nat, id: nat)
    requires k < |slots|
    ensures WithId(slots, id) == WithId(slots[..k] + slots[k + 1..], id) + if slots[k].slotId == Some(id) then 1 else 0
  {
    if k == 0 {
      assert slots[..k] + slots[k + 1..] == slots[1..];
    } else {
      WithIdRemoved(slots[1..], k - 1, id);
      assert slots[1..][..k - 1] + slots[1..][k..] == (slots[..k] + slots[k + 1..])[1..];
    }
  }

  lemma {:induction false} TotalRemoved(previous: seq<SlotCounter>, slots: seq<SlotCounter>, k: nat, d: Dimension)
    requires k < |slots|
    ensures Total(previous, slots, d) == Total(previous, slots[..k] + slots[k + 1..], d) + Delta(previous, slots[k], d)
  {
    var n := |slots| - 1;
    if k == n {
      assert slots[..k] + slots[k + 1..] == slots[..n];
    } else {
      TotalRemoved(previous, slots[..n], k, d);
      var less := slots[..k] + slots[k + 1..];
      assert slots[..n][..k] + slots[..n][k + 1..] == less[..n - 1];
      assert less[n - 1] == slots[n];
    }
  }

  /** The head of `a` sits somewhere in its permutation `b`. */
  lemma PermutedHead(a: seq<SlotCounter>, b: seq<SlotCounter>) returns (k: nat)
    requires multiset(a) == multiset(b) && a != []
    ensures k < |b| && b[k] == a[0]
    ensures multiset(a[1..]) == multiset(b[..k] + b[k + 1..])
  {
    assert a[0] in multiset(a) && a[0] in multiset(b);
    k :| 0 <= k < |b| && b[k] == a[0];
    assert a == [a[0]] + a[1..];
    assert b == b[..k] + [b[k]] + b[k + 1..];
    assert multiset(a[1..]) == multiset(a) - multiset{a[0]};
    assert multiset(b[..k] + b[k + 1..]) == multiset(b) - multiset{a[0]};
  }

  lemma {:induction false} PermutedIds(a: seq<SlotCounter>, b: seq<SlotCounter>, id: nat)
    requires multiset(a) == multiset(b)
    ensures WithId(a, id) == WithId(b, id)
  {
    if a == [] {
      assert |multiset(b)| == 0;
    } else {
      var k := PermutedHead(a, b);
      PermutedIds(a[1..], b[..k] + b[k + 1..], id);
      WithIdRemoved(b, k, id);
    }
  }

  lemma {:induction false} PermutedTotals(previous: seq<SlotCounter>, a: seq<SlotCounter>, b: seq<SlotCounter>, d: Dimension)
    requires multiset(a) == multiset(b)
    ensures Total(previous, a, d) == Total(previous, b, d)
  {
    if a == [] {
      assert |multiset(b)| == 0;
    } else {
      var k := PermutedHead(a, b);
      PermutedTotals(previous, a[1..], b[..k] + b[k + 1..], d);
      TotalRemoved(previous, b, k, d);
      TotalRemoved(previous, a, 0, d);
      assert a[..0] + a[1..] == a[1..];
    }
  }

  predicate SamePartners(p: seq<SlotCounter>, q: seq<SlotCounter>, slots: seq<SlotCounter>) {
    forall i :: 0 <= i < |slots| && slots[i].slotId.Some? ==>
      Partner(p, slots[i].slotId.value) == Partner(q, slots[i].slotId.value)
  }

  lemma {:induction false} SameTotals(p: seq<SlotCounter>, q: seq<SlotCounter>, slots: seq<SlotCounter>, d: Dimension)
    requires SamePartners(p, q, slots)
    ensures Total(p, slots, d) == Total(q, slots, d)
  {
    if slots != [] {
      SameTotals(p, q, slots[..|slots| - 1], d);
    }
  }

  lemma MembersPermuted(a: seq<SlotCounter>, b: seq<SlotCounter>)
    requires multiset(a) == multiset(b)
    ensures forall i :: 0 <= i < |a| ==> exists j :: 0 <= j < |b| && b[j] == a[i]
  {
    forall i | 0 <= i < |a|
      ensures exists j :: 0 <= j < |b| && b[j] == a[i]
    {
      assert a[i] in multiset(a) && a[i] in multiset(b);
      var j :| 0 <= j < |b| && b[j] == a[i];
    }
  }

  /** One direction of the permutation law. */
  lemma PairedPermuted(p: seq<SlotCounter>, q: seq<SlotCounter>, c: seq<SlotCounter>, e: seq<SlotCounter>)
    requires multiset(p) == multiset(q) && multiset(c) == multiset(e) && Paired(p, c)
    ensures Paired(q, e) && SamePartners(p, q, e)
  {
    MembersPermuted(e, c);
    MembersPermuted(q, p);
    forall i | 0 <= i < |e|
      ensures e[i].slotId.Some? && WithId(e, e[i].slotId.value) == 1 && WithId(q, e[i].slotId.value) == 1
      ensures Identifies(e[i], q) && Partner(p, e[i].slotId.value) == Partner(q, e[i].slotId.value)
    {
      var j :| 0 <= j < |c| && c[j] == e[i];
      var id := c[j].slotId.value;
      PermutedIds(c, e, id);
      PermutedIds(p, q, id);
      assert Identifies(c[j], p);
      PartnerFound(q, id);
      var k :| 0 <= k < |q| && q[k] == Partner(q, id).value;
      var m :| 0 <= m < |p| && p[m] == q[k];
      WithIdIndex(p, id, m);
    }
    forall i | 0 <= i < |q|
      ensures q[i].slotId.Some? && WithId(q, q[i].slotId.value) == 1 && WithId(e, q[i].slotId.value) == 1
    {
      var j :| 0 <= j < |p| && p[j] == q[i];
      PermutedIds(c, e, p[j].slotId.value);
      PermutedIds(p, q, p[j].slotId.value);
    }
  }

  lemma UsablePermuted(p: seq<SlotCounter>, q: seq<SlotCounter>, c: seq<SlotCounter>, e: seq<SlotCounter>, d: Dimension)
    requires multiset(c) == multiset(e) && SamePartners(p, q, e)
    ensures (forall i :: 0 <= i < |c| ==> Usable(p, c[i], d)) ==> forall k :: 0 <= k < |e| ==> Usable(q, e[k], d)
  {
    MembersPermuted(e, c);
    forall k | 0 <= k < |e| && forall i :: 0 <= i < |c| ==> Usable(p, c[i], d)
      ensures Usable(q, e[k], d)
    {
      var m :| 0 <= m < |c| && c[m] == e[k];
      assert Usable(p, c[m], d);
    }
  }

  lemma AvailablePermuted(p: seq<SlotCounter>, q: seq<SlotCounter>, c: seq<SlotCounter>, e: seq<SlotCounter>, seconds: real, d: Dimension)
    requires multiset(p) == multiset(q) && multiset(c) == multiset(e) && Available(p, c, seconds, d)
    ensures Available(q, e, seconds, d)
  {
    PairedPermuted(p, q, c, e);
    UsablePermuted(p, q, c, e, d);
    MembersPermuted(c, e);
    var i :| 0 <= i < |c| && Advances(p, c[i], d);
    var j :| 0 <= j < |e| && e[j] == c[i];
    assert Advances(q, e[j], d);
  }

  /** Reordering either array changes nothing. */
  lemma SlotRatePermuted(p: seq<SlotCounter>, q: seq<SlotCounter>, c: seq<SlotCounter>, e: seq<SlotCounter>, seconds: real, d: Dimension)
    requires multiset(p) == multiset(q) && multiset(c) == multiset(e)
    ensures SlotRate(p, c, seconds, d) == SlotRate(q, e, seconds, d)
  {
    if Available(q, e, seconds, d) {
      AvailablePermuted(q, p, e, c, seconds, d);
    }
    if Available(p, c, seconds, d) {
      AvailablePermuted(p, q, c, e, seconds, d);
      PairedPermuted(p, q, c, e);
      SameTotals(p, q, e, d);
      PermutedTotals(p, c, e, d);
    }
  }

  // ---------------------------------------------------------------------
  // The rates in terms of the counters
  // ---------------------------------------------------------------------

  lemma OnlySlot(s: SlotCounter, id: nat)
    requires s.slotId == Some(id)
    ensures WithId([s], id) == 1 && Partner([s], id) == Some(s)
  {
  }

  /** For one slot that kept its id and task, each rate is the gain of its own
      counter over the time, absent after a reset or when either side is silent. */
  lemma OneSlotRates(before: SlotCounter, now: SlotCounter, seconds: real)
    requires before.slotId.Some? && now.slotId == before.slotId && now.taskId == before.taskId && seconds > 0.0
    ensures SlotRate([before], [now], seconds, Prompt) == GainRate(before.promptProcessed, now.promptProcessed, seconds)
    ensures SlotRate([before], [now], seconds, Decoded) == GainRate(before.decoded, now.decoded, seconds)
  {
    OnlySlot(before, before.slotId.value);
    OnlySlot(now, now.slotId.value);
    OneSlotRate(before, now, seconds, Prompt);
    OneSlotRate(before, now, seconds, Decoded);
  }

  function GainRate(before: Option<nat>, now: Option<nat>, seconds: real): Option<real>
    requires seconds > 0.0
  {
    if before.Some? && now.Some? && before.value <= now.value then
      var gain := now.value - before.value;
      Some((if gain > 0xFFFF_FFFF_FFFF_FFFF then 0xFFFF_FFFF_FFFF_FFFF else gain) as real / seconds)
    else None
  }

  lemma OneSlotRate(before: SlotCounter, now: SlotCounter, seconds: real, d: Dimension)
    requires before.slotId.Some? && now.slotId == before.slotId && now.taskId == before.taskId && seconds > 0.0
    requires Partner([before], before.slotId.value) == Some(before)
    requires WithId([before], before.slotId.value) == 1 && WithId([now], before.slotId.value) == 1
    ensures SlotRate([before], [now], seconds, d) == GainRate(Count(before, d), Count(now, d), seconds)
  {
    assert Paired([before], [now]);
    assert [now][..0] == [];
    assert Total([before], [now], d) == Delta([before], now, d);
    assert Advances([before], [now][0], d) <==> GainRate(Count(before, d), Count(now, d), seconds).Some?;
  }
}
