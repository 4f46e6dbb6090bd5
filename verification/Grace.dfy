/** The offline-grace hold of one monitored server (src/app/server.rs,
    `stabilize_llm_sample`). */
module Grace {
  import opened Domain
  import opened Llama
  import opened History
  import opened Text

  predicate MatchesAt(s: string, part: string, i: nat) {
    i + |part| <= |s| && s[i..i + |part|] == part
  }

  predicate Contains(s: string, part: string) {
    exists i :: 0 <= i <= |s| && MatchesAt(s, part, i)
  }

  /** Failures that say the endpoint cannot serve metrics at all. */
  predicate HardFailure(error: string) {
    var e := ToAsciiLower(error);
    || Contains(e, "metrics disabled")
    || Contains(e, "--metrics")
    || Contains(e, "http 501")
    || Contains(e, "failed to initialize http client")
  }

  datatype Good = Good(stats: LlmStats, at: Instant)

  function Held(stats: LlmStats): LlmStats {
    stats.(error := "", reconnecting := true)
  }

  /** One server's monitor as far as the hold is concerned. */
  class ServerMonitor {
    var lastGood: Option<Good>

    constructor ()
      ensures lastGood == None
    {
      lastGood := None;
    }

    method StabilizeLlmSample(stats: LlmStats, now: Instant, offlineGrace: Duration) returns (out: LlmStats)
      modifies this
      ensures out == Published(old(lastGood), Poll(stats, now, offlineGrace))
      ensures lastGood == Remembered(old(lastGood), Poll(stats, now, offlineGrace))
    {
      if stats.connected {
        out := stats.(reconnecting := false);
        lastGood := Some(Good(out, now));
        return;
      }
      var hardFailure := HardFailure(stats.error);
      if !hardFailure {
        if lastGood.Some? && SaturatingSince(now, lastGood.value.at) <= offlineGrace {
          return Held(lastGood.value.stats);
        }
      }
      return stats;
    }
  }

  /** One poll: the raw sample, when it was taken, the grace in force then. */
  datatype Poll = Poll(raw: LlmStats, now: Instant, grace: Duration)

  function Remembered(lastGood: Option<Good>, p: Poll): Option<Good> {
    if p.raw.connected then Some(Good(p.raw.(reconnecting := false), p.now)) else lastGood
  }

  function Published(lastGood: Option<Good>, p: Poll): LlmStats {
    if p.raw.connected then p.raw.(reconnecting := false)
    else if !HardFailure(p.raw.error) && lastGood.Some? && SaturatingSince(p.now, lastGood.value.at) <= p.grace
    then Held(lastGood.value.stats)
    else p.raw
  }

  /** The monitor's memory after a run of polls. */
  function After(polls: seq<Poll>): Option<Good> {
    if polls == [] then None else Remembered(After(polls[..|polls| - 1]), polls[|polls| - 1])
  }

  /** What poll `i` of the run publishes. */
  function PublishedAt(polls: seq<Poll>, i: nat): LlmStats
    requires i < |polls|
  {
    Published(After(polls[..i]), polls[i])
  }

  /** `j` is the most recent connected poll before `i`. */
  predicate LatestConnected(polls: seq<Poll>, i: nat, j: nat) {
    && j < i <= |polls| && polls[j].raw.connected
    && forall k :: j < k < i ==> !polls[k].raw.connected
  }

  lemma LatestGoesBack(polls: seq<Poll>, i: nat, j: nat)
    requires 0 < i <= |polls| && !polls[i - 1].raw.connected
    ensures LatestConnected(polls, i, j) <==> LatestConnected(polls, i - 1, j)
  {
  }

  lemma {:induction false} AfterLatest(polls: seq<Poll>, i: nat, j: nat)
    requires LatestConnected(polls, i, j)
    ensures After(polls[..i]) == Some(Good(polls[j].raw.(reconnecting := false), polls[j].now))
  {
    assert polls[..i][..i - 1] == polls[..i - 1];
    if j < i - 1 {
      AfterLatest(polls, i - 1, j);
    }
  }

  /** A monitor remembers something exactly when some poll was connected. */
  lemma {:induction false} LatestExists(polls: seq<Poll>, i: nat)
    requires i <= |polls|
    ensures After(polls[..i]).Some? <==> exists j: nat :: LatestConnected(polls, i, j)
  {
    if i > 0 {
      assert polls[..i][..i - 1] == polls[..i - 1];
      if polls[i - 1].raw.connected {
        assert LatestConnected(polls, i, i - 1);
      } else {
        LatestExists(polls, i - 1);
        if After(polls[..i]).Some? {
          var j: nat :| LatestConnected(polls, i - 1, j);
          LatestGoesBack(polls, i, j);
        }
        if j: nat :| LatestConnected(polls, i, j) {
          LatestGoesBack(polls, i, j);
        }
      }
    }
  }

  /** A sample is held exactly for a soft failure within the grace of the most
      recent connected poll. */
  ghost predicate HeldFrom(polls: seq<Poll>, i: nat, j: nat) {
    && LatestConnected(polls, i, j) && i < |polls|
    && !polls[i].raw.connected && !HardFailure(polls[i].raw.error)
    && SaturatingSince(polls[i].now, polls[j].now) <= polls[i].grace
  }

  /** Over any run of one monitor (whose raw samples never say reconnecting), a
      published sample says reconnecting exactly when it is held, and then it
      is the payload of the most recent connected poll, however many holds lie
      between; anything else is published as sampled. */
  lemma HoldsCarryLatestGood(polls: seq<Poll>, i: nat)
    requires i < |polls| && forall k :: 0 <= k < |polls| ==> !polls[k].raw.reconnecting
    ensures PublishedAt(polls, i).reconnecting <==> exists j: nat :: HeldFrom(polls, i, j)
    ensures forall j: nat :: HeldFrom(polls, i, j) ==> PublishedAt(polls, i) == Held(polls[j].raw)
    ensures !PublishedAt(polls, i).reconnecting ==> PublishedAt(polls, i) == polls[i].raw
  {
    LatestExists(polls, i);
    forall j: nat | LatestConnected(polls, i, j)
      ensures After(polls[..i]) == Some(Good(polls[j].raw.(reconnecting := false), polls[j].now))
    {
      AfterLatest(polls, i, j);
    }
    if PublishedAt(polls, i).reconnecting {
      var j: nat :| LatestConnected(polls, i, j);
      assert HeldFrom(polls, i, j);
    }
  }

  /** A held sample still counts as connected and leaves the graphs, the
      connection time and the measurement age as they were. */
  lemma HeldAddsNoPoint(polls: seq<Poll>, i: nat, j: nat, h: LlmHistory, now: Instant)
    requires forall k :: 0 <= k < |polls| ==> !polls[k].raw.reconnecting
    requires HeldFrom(polls, i, j)
    ensures PublishedAt(polls, i).connected
    ensures Observed(h, PublishedAt(polls, i), now) == h.(lastObservedAt := Some(now))
  {
    HoldsCarryLatestGood(polls, i);
  }

  /** What `new_server_monitor` keeps when the client could not be built. */
  const INIT_ERROR := "failed to initialize HTTP client"

  lemma InitFailureIsHard()
    ensures HardFailure(INIT_ERROR)
  {
    var client := ToAsciiLower(INIT_ERROR);
    assert client[..] == "failed to initialize http client";
    assert MatchesAt(client, "failed to initialize http client", 0);
  }

  /** The marks of a failure that a retry cannot mend. */
  predicate IsMark(mark: string) {
    mark in ["metrics disabled", "--metrics", "http 501", "failed to initialize http client"]
  }

  lemma LowerJoins(a: string, b: string, c: string)
    ensures ToAsciiLower(a + b + c) == ToAsciiLower(a) + ToAsciiLower(b) + ToAsciiLower(c)
  {
  }

  /** An error is hard exactly when it holds one of the marks, in any case and
      anywhere; a text too short for the shortest mark never is. */
  lemma HardByMark(a: string, mark: string, c: string)
    requires IsMark(ToAsciiLower(mark))
    ensures HardFailure(a + mark + c)
  {
    LowerJoins(a, mark, c);
    var text, lower := ToAsciiLower(a + mark + c), ToAsciiLower(mark);
    assert text[|a|..|a| + |lower|] == lower;
    assert MatchesAt(text, lower, |a|);
    assert Contains(text, lower);
  }

  lemma SoftWithoutMark(error: string)
    requires forall i, mark :: 0 <= i <= |error| && IsMark(mark) ==> !MatchesAt(ToAsciiLower(error), mark, i)
    ensures !HardFailure(error)
  {
    assert IsMark("metrics disabled") && IsMark("--metrics") && IsMark("http 501") && IsMark("failed to initialize http client");
  }

  /** A monitor without a client is published as it is in every poll, whatever
      came before: it never shows an earlier sample as reconnecting. */
  lemma UninitializedIsNeverHeld(polls: seq<Poll>, i: nat)
    requires i < |polls| && polls[i].raw == DEFAULT_STATS.(error := INIT_ERROR)
    ensures PublishedAt(polls, i) == polls[i].raw && !PublishedAt(polls, i).connected
  {
    InitFailureIsHard();
  }
}
