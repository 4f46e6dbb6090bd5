/** The loops of the app and the workers take several messages in a row; each
    loop is a sequence of single protocol steps (src/app/loop_events.rs,
    src/app/workers.rs). */
module Drains {
  import opened Domain
  import opened AppLoop
  import opened Workers
  import opened Session

  /** The steps can be taken in this order. */
  ghost predicate Path(w: World, steps: seq<Step>)
    decreases |steps|
  {
    steps == [] || (Enabled(w, steps[0]) && Path(Next(w, steps[0]), steps[1..]))
  }

  function Reached(w: World, steps: seq<Step>): World
    requires Path(w, steps)
    decreases |steps|
  {
    if steps == [] then w else Reached(Next(w, steps[0]), steps[1..])
  }

  function Receives(times: seq<Instant>): seq<Step> {
    if times == [] then [] else [ReceiveLlm(times[0])] + Receives(times[1..])
  }

  predicate ClockAdvances(clock: Instant, times: seq<Instant>)
    decreases |times|
  {
    times == [] || (clock <= times[0] && ClockAdvances(times[0], times[1..]))
  }

  /** Draining the sample channel is one receive step a sample. */
  lemma {:induction false} SamplesDrained(w: World, times: seq<Instant>)
    requires |times| == |w.outer.queue| && ClockAdvances(w.clock, times)
    ensures Path(w, Receives(times))
    ensures Reached(w, Receives(times)).app == AllLlmApplied(w.app, w.outer.queue, times)
    ensures Reached(w, Receives(times)).outer.queue == []
    decreases |times|
  {
    if times != [] {
      var step := ReceiveLlm(times[0]);
      SamplesDrained(Next(w, step), times[1..]);
      assert Receives(times)[1..] == Receives(times[1..]);
    }
  }

  function Repeated(step: Step, n: nat): seq<Step> {
    if n == 0 then [] else [step] + Repeated(step, n - 1)
  }

  lemma {:induction false} SnapshotsDrained(w: World)
    ensures var steps := Repeated(ReceiveFast, |w.fastOuter.queue|);
      Path(w, steps) && Reached(w, steps).app == AllFastApplied(w.app, w.fastOuter.queue)
    decreases |w.fastOuter.queue|
  {
    if w.fastOuter.queue != [] {
      SnapshotsDrained(Next(w, ReceiveFast));
      var n := |w.fastOuter.queue|;
      assert Repeated(ReceiveFast, n)[1..] == Repeated(ReceiveFast, n - 1);
    }
  }

  lemma {:induction false} CommandsDrained(w: World)
    ensures var steps := Repeated(TakeCommand, |w.commands|);
      Path(w, steps) && Reached(w, steps).worker == AllCommandsApplied(w.worker, w.commands)
    decreases |w.commands|
  {
    if w.commands != [] {
      CommandsDrained(Next(w, TakeCommand));
      var n := |w.commands|;
      assert Repeated(TakeCommand, n)[1..] == Repeated(TakeCommand, n - 1);
    }
  }

  lemma {:induction false} SamplesForwarded(w: World)
    ensures var steps := Repeated(Forward, |w.inner|);
      Path(w, steps) && Reached(w, steps).outer == AllForwarded(w.outer, w.inner, MAX_MONITORED_SERVERS)
    decreases |w.inner|
  {
    if w.inner != [] {
      SamplesForwarded(Next(w, Forward));
      var n := |w.inner|;
      assert Repeated(Forward, n)[1..] == Repeated(Forward, n - 1);
    }
  }

  function ClaimsFrom(slot: nat, n: nat): seq<Step>
    decreases n
  {
    if n == 0 then [] else [Claim(slot)] + ClaimsFrom(slot + 1, n - 1)
  }

  /** Walking all slots is one claim step a slot. */
  lemma {:induction false} SlotsClaimed(w: World, from: nat)
    requires from <= |w.worker.servers|
    ensures var steps := ClaimsFrom(from, |w.worker.servers| - from);
      Path(w, steps) && Reached(w, steps).pool == AllClaimed(w.pool, w.worker.servers[from..], w.worker.generation)
    decreases |w.worker.servers| - from
  {
    if from < |w.worker.servers| {
      SlotsClaimed(Next(w, Claim(from)), from + 1);
      var n := |w.worker.servers| - from;
      assert ClaimsFrom(from, n)[1..] == ClaimsFrom(from + 1, n - 1);
      assert w.worker.servers[from..][1..] == w.worker.servers[from + 1..];
    }
  }
}
