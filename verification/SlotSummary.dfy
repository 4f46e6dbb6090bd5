/** Summary of one `/slots` array (src/llama/slots.rs, `apply_slots_json`). */
module SlotSummary {
  import opened Domain
  import opened Llama
  import opened Slots

  /** One entry of the array, every field as reported or absent. */
  datatype SlotJson = SlotJson(
    nCtx: Option<nat>, id: Option<nat>, isProcessing: Option<bool>, promptTokens: Option<nat>,
    promptProcessed: Option<nat>, taskId: Option<int>, decoded: Option<nat>, spec: SpecJson)

  /** What an entry says of speculative decoding. */
  datatype SpecJson = SpecJson(enabled: Option<bool>, isMtp: bool, nMax: Option<nat>)

  predicate Busy(s: SlotJson) {
    s.isProcessing.GetOr(false)
  }

  lemma BusyIs(s: SlotJson)
    ensures Busy(s) <==> s.isProcessing == Some(true)
  {
  }

  /** What a selection over the slots ranks by, and among which slots. */
  datatype Ranking = UsedBusy | UsedAny | CapacityBusy | CapacityAny

  function Score(s: SlotJson, r: Ranking): Option<nat> {
    if (r.UsedBusy? || r.CapacityBusy?) && !Busy(s) then None
    else if r.UsedBusy? || r.UsedAny? then s.promptTokens
    else Some(s.nCtx.GetOr(0))
  }

  /** The occupancy of a reported slot, or its capacity with an absent one taken
      as none; the busy rankings look at processing slots only. */
  lemma RankingsLookAt(s: SlotJson)
    ensures Score(s, UsedAny) == s.promptTokens
    ensures Score(s, UsedBusy) == if s.isProcessing == Some(true) then s.promptTokens else None
    ensures Score(s, CapacityAny).Some? && (s.nCtx.Some? ==> Score(s, CapacityAny) == s.nCtx) && (s.nCtx.None? ==> Score(s, CapacityAny) == Some(0))
    ensures Score(s, CapacityBusy) == if s.isProcessing == Some(true) then Score(s, CapacityAny) else None
  {
  }

  /** The running selection: the kept slot's score, capacity and id. */
  datatype Best = Best(score: nat, nCtx: nat, id: Option<nat>)

  function Improved(best: Option<Best>, s: SlotJson, r: Ranking): Option<Best> {
    match Score(s, r)
    case None => best
    case Some(score) =>
      if best.None? || score > best.value.score then Some(Best(score, s.nCtx.GetOr(0), s.id)) else best
  }

  predicate IsFirstMax(slots: seq<SlotJson>, r: Ranking, k: nat) {
    && k < |slots| && Score(slots[k], r).Some?
    && forall j :: 0 <= j < |slots| && Score(slots[j], r).Some? ==>
         && Score(slots[j], r).value <= Score(slots[k], r).value
         && (j < k ==> Score(slots[j], r).value < Score(slots[k], r).value)
  }

  /** `best` is the first maximum, or there is nothing to rank. */
  ghost predicate Selects(slots: seq<SlotJson>, r: Ranking, best: Option<Best>) {
    match best
    case None => forall j :: 0 <= j < |slots| ==> Score(slots[j], r).None?
    case Some(b) =>
      exists k: nat :: IsFirstMax(slots, r, k) && b == Best(Score(slots[k], r).value, slots[k].nCtx.GetOr(0), slots[k].id)
  }

  lemma SelectsStep(slots: seq<SlotJson>, s: SlotJson, r: Ranking, best: Option<Best>)
    requires Selects(slots, r, best)
    ensures Selects(slots + [s], r, Improved(best, s, r))
  {
    var more := slots + [s];
    assert forall j :: 0 <= j < |slots| ==> more[j] == slots[j];
    if best.Some? {
      var k: nat :| IsFirstMax(slots, r, k) && best.value == Best(Score(slots[k], r).value, slots[k].nCtx.GetOr(0), slots[k].id);
      if Improved(best, s, r) == best {
        assert IsFirstMax(more, r, k);
      } else {
        assert IsFirstMax(more, r, |slots|);
      }
    } else if Score(s, r).Some? {
      assert IsFirstMax(more, r, |slots|);
    }
  }

  function Progress(s: SlotJson, d: Dimension): Option<nat> {
    if d.Prompt? then s.promptProcessed else s.decoded
  }

  function BusyTotal(slots: seq<SlotJson>, d: Dimension): nat {
    if slots == [] then 0
    else
      var last := slots[|slots| - 1];
      BusyTotal(slots[..|slots| - 1], d) + if Busy(last) then Progress(last, d).GetOr(0) else 0
  }

  predicate AnyBusy(slots: seq<SlotJson>) {
    exists k :: 0 <= k < |slots| && Busy(slots[k])
  }

  predicate AllBusyReport(slots: seq<SlotJson>, d: Dimension) {
    forall k :: 0 <= k < |slots| && Busy(slots[k]) ==> Progress(slots[k], d).Some?
  }

  /** A request total is a full saturated sum or unknown, never a partial sum. */
  function RequestTotal(slots: seq<SlotJson>, d: Dimension): Option<nat> {
    if AnyBusy(slots) && AllBusyReport(slots, d) then Some(Saturate(BusyTotal(slots, d))) else None
  }

  /** The running request total of one dimension. */
  datatype Request = Request(sum: Option<nat>, complete: bool)

  function Requested(q: Request, s: SlotJson, d: Dimension): Request {
    if !Busy(s) then q
    else
      match Progress(s, d)
      case Some(n) => q.(sum := Some(SaturatingAdd(q.sum.GetOr(0), n)))
      case None => q.(complete := false)
  }

  predicate RequestOf(q: Request, slots: seq<SlotJson>, d: Dimension) {
    && q.sum.GetOr(0) == Saturate(BusyTotal(slots, d))
    && (q.complete <==> AllBusyReport(slots, d))
    && (q.complete ==> (q.sum.Some? <==> AnyBusy(slots)))
  }

  lemma RequestStep(q: Request, slots: seq<SlotJson>, s: SlotJson, d: Dimension)
    requires RequestOf(q, slots, d)
    ensures RequestOf(Requested(q, s, d), slots + [s], d)
  {
    var more := slots + [s];
    assert more[..|slots|] == slots && more[|slots|] == s;
    assert forall k :: 0 <= k < |slots| ==> more[k] == slots[k];
    if AnyBusy(slots) {
      var k :| 0 <= k < |slots| && Busy(slots[k]);
      assert Busy(more[k]);
    }
  }

  function BusyCount(slots: seq<SlotJson>): nat {
    if slots == [] then 0
    else BusyCount(slots[..|slots| - 1]) + if Busy(slots[|slots| - 1]) then 1 else 0
  }

  // Speculative decoding

  datatype Spec = Spec(enabled: bool, isMtp: bool, nMax: Option<nat>)

  function SpecOf(stats: LlmStats): Spec {
    Spec(stats.specEnabled, stats.specIsMtp, stats.specNMax)
  }

  predicate Speculates(s: SlotJson) {
    s.spec.enabled.GetOr(false) || (s.spec.nMax.Some? && s.spec.nMax.value > 0)
  }

  function SpecSeen(p: Spec, s: SlotJson): Spec {
    var n := s.spec.nMax;
    Spec(p.enabled || Speculates(s), p.isMtp || s.spec.isMtp,
         if n.Some? && n.value > 0 then Some(if p.nMax.Some? && p.nMax.value > n.value then p.nMax.value else n.value) else p.nMax)
  }

  /** A positive draft length of some slot, or the one known before. */
  predicate Offers(before: Spec, slots: seq<SlotJson>, n: nat) {
    before.nMax == Some(n) || exists k :: 0 <= k < |slots| && slots[k].spec.nMax == Some(n) && n > 0
  }

  /** Switched on once any slot speculates, and the largest draft length offered. */
  ghost predicate SpecIs(before: Spec, slots: seq<SlotJson>, after: Spec) {
    && (after.enabled <==> before.enabled || exists k :: 0 <= k < |slots| && Speculates(slots[k]))
    && (after.isMtp <==> before.isMtp || exists k :: 0 <= k < |slots| && slots[k].spec.isMtp)
    && (after.nMax.Some? ==> Offers(before, slots, after.nMax.value))
    && forall n: nat :: Offers(before, slots, n) ==> after.nMax.Some? && n <= after.nMax.value
  }

  lemma SpecFlagsStep(slots: seq<SlotJson>, s: SlotJson)
    ensures (exists k :: 0 <= k < |slots + [s]| && Speculates((slots + [s])[k]))
       <==> ((exists k :: 0 <= k < |slots| && Speculates(slots[k])) || Speculates(s))
    ensures (exists k :: 0 <= k < |slots + [s]| && (slots + [s])[k].spec.isMtp)
       <==> ((exists k :: 0 <= k < |slots| && slots[k].spec.isMtp) || s.spec.isMtp)
  {
    var more := slots + [s];
    assert more[|slots|] == s;
    assert forall k :: 0 <= k < |slots| ==> more[k] == slots[k];
    if k :| 0 <= k < |slots| && Speculates(slots[k]) {
      assert Speculates(more[k]);
    }
    if k :| 0 <= k < |slots| && slots[k].spec.isMtp {
      assert more[k].spec.isMtp;
    }
  }

  lemma OffersStep(before: Spec, slots: seq<SlotJson>, s: SlotJson, n: nat)
    ensures Offers(before, slots + [s], n) <==> Offers(before, slots, n) || (s.spec.nMax == Some(n) && n > 0)
  {
    var more := slots + [s];
    assert more[|slots|] == s;
    if k :| 0 <= k < |slots| && slots[k].spec.nMax == Some(n) && n > 0 {
      assert more[k].spec.nMax == Some(n);
    }
  }

  lemma SpecStep(before: Spec, slots: seq<SlotJson>, s: SlotJson, p: Spec)
    requires SpecIs(before, slots, p)
    ensures SpecIs(before, slots + [s], SpecSeen(p, s))
  {
    SpecFlagsStep(slots, s);
    forall n: nat
      ensures Offers(before, slots + [s], n) <==> Offers(before, slots, n) || (s.spec.nMax == Some(n) && n > 0)
    {
      OffersStep(before, slots, s, n);
    }
  }

  function SpecSeenAll(before: Spec, slots: seq<SlotJson>): Spec {
    if slots == [] then before else SpecSeen(SpecSeenAll(before, slots[..|slots| - 1]), slots[|slots| - 1])
  }

  lemma {:induction false} SpecSeenAllIs(before: Spec, slots: seq<SlotJson>)
    ensures SpecIs(before, slots, SpecSeenAll(before, slots))
  {
    if slots != [] {
      var n := |slots| - 1;
      SpecSeenAllIs(before, slots[..n]);
      SpecStep(before, slots[..n], slots[n], SpecSeenAll(before, slots[..n]));
      assert slots[..n] + [slots[n]] == slots;
    }
  }

  /** One counter of a busy slot, summed over the array. */
  function BusySum(slots: seq<SlotJson>, counter: SlotJson -> Option<nat>): nat {
    if slots == [] then 0
    else
      var last := slots[|slots| - 1];
      BusySum(slots[..|slots| - 1], counter) + if last.isProcessing == Some(true) then counter(last).GetOr(0) else 0
  }

  /** Known exactly when some slot is busy and every busy one tells the counter. */
  predicate AllTold(slots: seq<SlotJson>, counter: SlotJson -> Option<nat>) {
    && (exists k :: 0 <= k < |slots| && slots[k].isProcessing == Some(true))
    && forall k :: 0 <= k < |slots| && slots[k].isProcessing == Some(true) ==> counter(slots[k]).Some?
  }

  /** The saturated sum over the busy slots when it is fully told. */
  function ToldTotal(slots: seq<SlotJson>, counter: SlotJson -> Option<nat>): Option<nat> {
    if AllTold(slots, counter) then
      var sum := BusySum(slots, counter);
      Some(if sum > 0xFFFF_FFFF_FFFF_FFFF then 0xFFFF_FFFF_FFFF_FFFF else sum)
    else None
  }

  lemma {:induction false} BusyTotalIsSum(slots: seq<SlotJson>)
    ensures BusyTotal(slots, Prompt) == BusySum(slots, (s: SlotJson) => s.promptProcessed)
    ensures BusyTotal(slots, Decoded) == BusySum(slots, (s: SlotJson) => s.decoded)
  {
    if slots != [] {
      BusyTotalIsSum(slots[..|slots| - 1]);
    }
  }

  /** Request progress in terms of the reported counters. */
  lemma RequestTotalsAre(slots: seq<SlotJson>)
    ensures RequestTotal(slots, Prompt) == ToldTotal(slots, (s: SlotJson) => s.promptProcessed)
    ensures RequestTotal(slots, Decoded) == ToldTotal(slots, (s: SlotJson) => s.decoded)
  {
    BusyTotalIsSum(slots);
  }

  function CounterOf(s: SlotJson): SlotCounter {
    SlotCounter(s.id, s.taskId, s.promptProcessed, s.decoded)
  }

  function InfoOf(s: SlotJson): LlmSlotInfo
    requires s.id.Some?
  {
    LlmSlotInfo(s.id.value, Busy(s), s.promptTokens, if s.nCtx.GetOr(0) > 0 then s.nCtx else None)
  }

  /** The overview entries in array order. */
  function Infos(slots: seq<SlotJson>): seq<LlmSlotInfo> {
    if slots == [] then []
    else
      var rest := Infos(slots[..|slots| - 1]);
      var last := slots[|slots| - 1];
      if last.id.Some? then rest + [InfoOf(last)] else rest
  }

  /** The overview entries of one id, in array order. */
  function EntriesOf(slots: seq<SlotJson>, id: nat): seq<LlmSlotInfo> {
    if slots == [] then []
    else
      var rest, last := EntriesOf(slots[..|slots| - 1], id), slots[|slots| - 1];
      if last.id == Some(id) then
        rest + [LlmSlotInfo(id, last.isProcessing == Some(true), last.promptTokens,
                            if last.nCtx == Some(0) then None else last.nCtx)]
      else rest
  }

  lemma {:induction false} InfosAreEntries(slots: seq<SlotJson>, id: nat)
    ensures OfId(Infos(slots), id) == EntriesOf(slots, id)
  {
    if slots != [] {
      var n := |slots| - 1;
      InfosAreEntries(slots[..n], id);
      if slots[n].id.Some? {
        var rest := Infos(slots[..n]);
        assert (rest + [InfoOf(slots[n])])[..|rest|] == rest;
      }
    }
  }

  lemma {:induction false} BusyCountIs(slots: seq<SlotJson>)
    ensures BusyCount(slots) == |set k | 0 <= k < |slots| && slots[k].isProcessing == Some(true)|
  {
    if slots != [] {
      var n := |slots| - 1;
      BusyCountIs(slots[..n]);
      var front := set k | 0 <= k < n && slots[..n][k].isProcessing == Some(true);
      var all := set k | 0 <= k < |slots| && slots[k].isProcessing == Some(true);
      assert all == if slots[n].isProcessing == Some(true) then front + {n} else front;
    }
  }

  predicate SortedById(infos: seq<LlmSlotInfo>) {
    forall i, j :: 0 <= i < j < |infos| ==> infos[i].id <= infos[j].id
  }

  /** Insertion behind every entry with an id at most its own. */
  function Inserted(infos: seq<LlmSlotInfo>, x: LlmSlotInfo): seq<LlmSlotInfo> {
    if infos == [] then [x]
    else
      var last := infos[|infos| - 1];
      if last.id <= x.id then infos + [x] else Inserted(infos[..|infos| - 1], x) + [last]
  }

  /** `sort_by_key` on the slot id, which is stable. */
  function SortById(infos: seq<LlmSlotInfo>): seq<LlmSlotInfo> {
    if infos == [] then [] else Inserted(SortById(infos[..|infos| - 1]), infos[|infos| - 1])
  }

  function OfId(infos: seq<LlmSlotInfo>, id: nat): seq<LlmSlotInfo> {
    if infos == [] then []
    else
      var rest := OfId(infos[..|infos| - 1], id);
      if infos[|infos| - 1].id == id then rest + [infos[|infos| - 1]] else rest
  }

  lemma {:induction false} InsertedKeeps(infos: seq<LlmSlotInfo>, x: LlmSlotInfo)
    ensures multiset(Inserted(infos, x)) == multiset(infos) + multiset{x}
  {
    if infos != [] && infos[|infos| - 1].id > x.id {
      var n := |infos| - 1;
      InsertedKeeps(infos[..n], x);
      assert infos == infos[..n] + [infos[n]];
    }
  }

  lemma {:induction false} InsertedSorts(infos: seq<LlmSlotInfo>, x: LlmSlotInfo)
    requires SortedById(infos)
    ensures SortedById(Inserted(infos, x))
  {
    if infos != [] && infos[|infos| - 1].id > x.id {
      var n := |infos| - 1;
      var front := Inserted(infos[..n], x);
      InsertedSorts(infos[..n], x);
      InsertedKeeps(infos[..n], x);
      forall i | 0 <= i < |front|
        ensures front[i].id <= infos[n].id
      {
        assert front[i] in multiset(front);
        assert front[i] in infos[..n] || front[i] == x;
      }
    }
  }

  lemma {:induction false} InsertedStable(infos: seq<LlmSlotInfo>, x: LlmSlotInfo, id: nat)
    requires SortedById(infos)
    ensures OfId(Inserted(infos, x), id) == OfId(infos, id) + (if x.id == id then [x] else [])
  {
    if infos != [] && infos[|infos| - 1].id > x.id {
      var n := |infos| - 1;
      InsertedStable(infos[..n], x, id);
      var front := Inserted(infos[..n], x);
      assert (front + [infos[n]])[..|front|] == front;
      if infos[n].id == id {
        assert x.id != id;
      }
    } else {
      assert (infos + [x])[..|infos|] == infos;
      if infos == [] {
        assert Inserted(infos, x) == infos + [x];
      }
    }
  }

  /** The overview is an id-sorted, stable permutation. */
  lemma {:induction false} SortByIdSorts(infos: seq<LlmSlotInfo>)
    ensures SortedById(SortById(infos))
    ensures multiset(SortById(infos)) == multiset(infos)
    ensures forall id :: OfId(SortById(infos), id) == OfId(infos, id)
  {
    if infos != [] {
      var n := |infos| - 1;
      SortByIdSorts(infos[..n]);
      assert infos == infos[..n] + [infos[n]];
      InsertedSorts(SortById(infos[..n]), infos[n]);
      InsertedKeeps(SortById(infos[..n]), infos[n]);
      forall id
        ensures OfId(SortById(infos), id) == OfId(infos, id)
      {
        InsertedStable(SortById(infos[..n]), infos[n], id);
      }
    }
  }

  /** The accumulators of the pass over the array. */
  datatype Seen = Seen(
    bestBusy: Option<Best>, bestAny: Option<Best>, roomBusy: Option<Best>, roomAny: Option<Best>,
    prompt: Request, generated: Request)

  const NOTHING_SEEN := Seen(None, None, None, None, Request(None, true), Request(None, true))

  ghost predicate SeenOf(a: Seen, slots: seq<SlotJson>) {
    && Selects(slots, UsedBusy, a.bestBusy) && Selects(slots, UsedAny, a.bestAny)
    && Selects(slots, CapacityBusy, a.roomBusy) && Selects(slots, CapacityAny, a.roomAny)
    && RequestOf(a.prompt, slots, Prompt) && RequestOf(a.generated, slots, Decoded)
  }

  function Looked(a: Seen, s: SlotJson): Seen {
    Seen(Improved(a.bestBusy, s, UsedBusy), Improved(a.bestAny, s, UsedAny),
         Improved(a.roomBusy, s, CapacityBusy), Improved(a.roomAny, s, CapacityAny),
         Requested(a.prompt, s, Prompt), Requested(a.generated, s, Decoded))
  }

  lemma SeenStep(a: Seen, slots: seq<SlotJson>, s: SlotJson)
    requires SeenOf(a, slots)
    ensures SeenOf(Looked(a, s), slots + [s])
  {
    SelectsStep(slots, s, UsedBusy, a.bestBusy);
    SelectsStep(slots, s, UsedAny, a.bestAny);
    SelectsStep(slots, s, CapacityBusy, a.roomBusy);
    SelectsStep(slots, s, CapacityAny, a.roomAny);
    RequestStep(a.prompt, slots, s, Prompt);
    RequestStep(a.generated, slots, s, Decoded);
  }

  function LookedAll(slots: seq<SlotJson>): Seen {
    if slots == [] then NOTHING_SEEN else Looked(LookedAll(slots[..|slots| - 1]), slots[|slots| - 1])
  }

  lemma {:induction false} LookedAllIsSeen(slots: seq<SlotJson>)
    ensures SeenOf(LookedAll(slots), slots)
  {
    if slots != [] {
      var n := |slots| - 1;
      LookedAllIsSeen(slots[..n]);
      SeenStep(LookedAll(slots[..n]), slots[..n], slots[n]);
      assert slots[..n] + [slots[n]] == slots;
    }
  }

  /** The displayed context figures: an occupancy from the first most-used busy
      slot, else the first most-used slot; without any occupancy only a
      capacity, chosen the same way; a zero capacity keeps the earlier one. */
  predicate ContextFrom(seen: Seen, before: LlmStats, after: LlmStats) {
    var used := if seen.bestBusy.Some? then seen.bestBusy else seen.bestAny;
    var room := if seen.roomBusy.Some? then seen.roomBusy else seen.roomAny;
    var chosen := if used.Some? then used else room;
    && after.contextUsed == (if used.Some? then Some(used.value.score) else None)
    && after.contextSlotId == (if chosen.Some? then chosen.value.id else None)
    && after.contextSize == (if chosen.Some? && chosen.value.nCtx > 0 then chosen.value.nCtx else before.contextSize)
  }

  ghost predicate ContextShown(slots: seq<SlotJson>, before: LlmStats, after: LlmStats) {
    exists seen :: SeenOf(seen, slots) && ContextFrom(seen, before, after)
  }

  function Totalled(q: Request): Option<nat> {
    if q.complete then q.sum else None
  }

  lemma SeenShows(slots: seq<SlotJson>, before: LlmStats, after: LlmStats)
    requires ContextFrom(LookedAll(slots), before, after)
    ensures ContextShown(slots, before, after)
    ensures Totalled(LookedAll(slots).prompt) == RequestTotal(slots, Prompt)
    ensures Totalled(LookedAll(slots).generated) == RequestTotal(slots, Decoded)
  {
    LookedAllIsSeen(slots);
  }

  /** One pass over the array. */
  method LookThrough(slots: seq<SlotJson>, spec: Spec)
    returns (seen: Seen, busy: nat, counters: seq<SlotCounter>, overview: seq<LlmSlotInfo>, after: Spec)
    ensures seen == LookedAll(slots)
    ensures busy == BusyCount(slots)
    ensures |counters| == |slots| && forall k :: 0 <= k < |slots| ==> counters[k] == CounterOf(slots[k])
    ensures overview == Infos(slots)
    ensures after == SpecSeenAll(spec, slots)
  {
    seen, busy, counters, overview, after := NOTHING_SEEN, 0, [], [], spec;
    var i := 0;
    while i < |slots|
      invariant i <= |slots|
      invariant seen == LookedAll(slots[..i])
      invariant busy == BusyCount(slots[..i])
      invariant |counters| == i && forall k :: 0 <= k < i ==> counters[k] == CounterOf(slots[k])
      invariant overview == Infos(slots[..i])
      invariant after == SpecSeenAll(spec, slots[..i])
    {
      var slot := slots[i];
      assert slots[..i + 1][..i] == slots[..i];
      seen := Looked(seen, slot);
      if Busy(slot) {
        busy := busy + 1;
      }
      after := SpecSeen(after, slot);
      counters := counters + [CounterOf(slot)];
      if slot.id.Some? {
        overview := overview + [InfoOf(slot)];
      }
      i := i + 1;
    }
    assert slots[..i] == slots;
  }

  /** The fields of a sample that the slots do not decide. */
  predicate OnlySlotFields(before: LlmStats, after: LlmStats) {
    after == before.(
      slotsAvailable := after.slotsAvailable, slotsError := after.slotsError, slotCount := after.slotCount,
      busySlots := after.busySlots, slotOverview := after.slotOverview,
      requestPromptTokens := after.requestPromptTokens, requestGeneratedTokens := after.requestGeneratedTokens,
      contextUsed := after.contextUsed, contextSlotId := after.contextSlotId, contextSize := after.contextSize,
      specEnabled := after.specEnabled, specIsMtp := after.specIsMtp, specNMax := after.specNMax)
  }

  /** `apply_slots_json`; `None` is a response that is not an array. */
  method ApplySlotsJson(stats: LlmStats, value: Option<seq<SlotJson>>)
    returns (counters: Option<seq<SlotCounter>>, out: LlmStats)
    ensures value.None? ==> counters.None? && out == stats
    ensures value.Some? ==>
              var slots := value.value;
              && counters.Some? && |counters.value| == |slots|
              && (forall k :: 0 <= k < |slots| ==>
                    counters.value[k] == SlotCounter(slots[k].id, slots[k].taskId, slots[k].promptProcessed, slots[k].decoded))
              && out.slotsAvailable && out.slotsError == "" && out.slotCount == |slots|
              && out.busySlots == |set k | 0 <= k < |slots| && slots[k].isProcessing == Some(true)|
    ensures value.Some? ==>
              && out.requestPromptTokens == ToldTotal(value.value, (s: SlotJson) => s.promptProcessed)
              && out.requestGeneratedTokens == ToldTotal(value.value, (s: SlotJson) => s.decoded)
              && SortedById(out.slotOverview)
              && forall id :: OfId(out.slotOverview, id) == EntriesOf(value.value, id)
    ensures value.Some? ==> ContextShown(value.value, stats, out)
    ensures value.Some? ==> SpecIs(SpecOf(stats), value.value, SpecOf(out))
    ensures OnlySlotFields(stats, out)
  {
    if value.None? {
      return None, stats;
    }
    var seen, busy, list, overview, spec := LookThrough(value.value, SpecOf(stats));
    var used := if seen.bestBusy.Some? then seen.bestBusy else seen.bestAny;
    var room := if seen.roomBusy.Some? then seen.roomBusy else seen.roomAny;
    var chosen := if used.Some? then used else room;
    out := stats.(
      slotsAvailable := true,
      slotsError := "",
      slotCount := |value.value|,
      busySlots := busy,
      requestPromptTokens := Totalled(seen.prompt),
      requestGeneratedTokens := Totalled(seen.generated),
      contextUsed := if used.Some? then Some(used.value.score) else None,
      contextSlotId := if chosen.Some? then chosen.value.id else None,
      slotOverview := SortById(overview),
      contextSize := if chosen.Some? && chosen.value.nCtx > 0 then chosen.value.nCtx else stats.contextSize,
      specEnabled := spec.enabled,
      specIsMtp := spec.isMtp,
      specNMax := spec.nMax);
    counters := Some(list);
    SeenShows(value.value, stats, out);
    SpecSeenAllIs(SpecOf(stats), value.value);
    RequestTotalsAre(value.value);
    BusyCountIs(value.value);
    SortByIdSorts(overview);
    forall id
      ensures OfId(out.slotOverview, id) == EntriesOf(value.value, id)
    {
      InfosAreEntries(value.value, id);
    }
  }
}
