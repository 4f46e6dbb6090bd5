/** Which file a save replaces, and what a reader of it gets (src/config.rs). */
module SavedConfig {
  import opened Domain
  import opened Gpu
  import opened Config
  import opened AtomicSave
  import opened SaveRuns

  // ---------------------------------------------------------------------
  // Following links
  // ---------------------------------------------------------------------

  /** What a path names; a link's destination is already joined to the link's
      directory. `Unreadable` is any other error. */
  datatype Node = Missing | Unreadable | Plain | Link(dest: string)

  type Tree = string -> Node

  const MAX_HOPS: nat := 16

  /** The path after following at most `n` links. */
  function Follow(tree: Tree, path: string, n: nat): string
    decreases n
  {
    if n == 0 then path
    else
      match tree(path)
      case Link(dest) => Follow(tree, dest, n - 1)
      case _ => path
  }

  /** The first `n` paths of the chain are links. */
  predicate LinksFor(tree: Tree, path: string, n: nat)
    decreases n
  {
    n == 0 || (tree(path).Link? && LinksFor(tree, tree(path).dest, n - 1))
  }

  /** The chain ends after `n` links. */
  predicate EndsAfter(tree: Tree, path: string, n: nat) {
    LinksFor(tree, path, n) && !tree(Follow(tree, path, n)).Link?
  }

  lemma {:induction false} FollowOneMore(tree: Tree, path: string, n: nat)
    requires LinksFor(tree, path, n)
    ensures LinksFor(tree, path, n + 1) <==> tree(Follow(tree, path, n)).Link?
    ensures tree(Follow(tree, path, n)).Link? ==> Follow(tree, path, n + 1) == tree(Follow(tree, path, n)).dest
    decreases n
  {
    if n > 0 {
      FollowOneMore(tree, tree(path).dest, n - 1);
    }
  }

  lemma {:induction false} EndIsUnique(tree: Tree, path: string, m: nat, n: nat)
    requires EndsAfter(tree, path, m) && LinksFor(tree, path, n)
    ensures n <= m
    decreases n
  {
    if n > 0 && m > 0 {
      EndIsUnique(tree, tree(path).dest, m - 1, n - 1);
    }
  }

  /** `resolve_save_target`: the end of a chain of fewer than sixteen links, and
      never a link itself; a longer chain is for the kernel to resolve.
      `canonical` is the kernel's answer, `None` an error. */
  method ResolveSaveTarget(tree: Tree, path: string, canonical: string -> Option<string>) returns (target: Option<string>)
    ensures forall n: nat :: n < 16 && EndsAfter(tree, path, n) ==>
      target == if tree(Follow(tree, path, n)).Unreadable? then None else Some(Follow(tree, path, n))
    ensures LinksFor(tree, path, 16) ==> target == canonical(Follow(tree, path, 16))
    ensures target.Some? && !LinksFor(tree, path, 16) ==> tree(target.value).Missing? || tree(target.value).Plain?
  {
    var current := path;
    var hops := 0;
    while hops < MAX_HOPS
      invariant 0 <= hops <= MAX_HOPS
      invariant LinksFor(tree, path, hops) && current == Follow(tree, path, hops)
    {
      FollowOneMore(tree, path, hops);
      if !tree(current).Link? {
        assert EndsAfter(tree, path, hops);
        forall n: nat | n < MAX_HOPS && EndsAfter(tree, path, n)
          ensures n == hops
        {
          EndIsUnique(tree, path, hops, n);
          EndIsUnique(tree, path, n, hops);
        }
        if LinksFor(tree, path, MAX_HOPS) {
          EndIsUnique(tree, path, hops, MAX_HOPS);
        }
        if tree(current).Unreadable? {
          return None;
        }
        return Some(current);
      }
      current := tree(current).dest;
      hops := hops + 1;
    }
    forall n: nat | n < MAX_HOPS
      ensures !EndsAfter(tree, path, n)
    {
      if EndsAfter(tree, path, n) {
        EndIsUnique(tree, path, n, MAX_HOPS);
      }
    }
    target := canonical(current);
  }

  /** A chain of links ends before `m` hops or is still going then. */
  lemma ChainEndsOrGoesOn(tree: Tree, path: string, m: nat)
    ensures LinksFor(tree, path, m) <==> forall n: nat :: n < m ==> !EndsAfter(tree, path, n)
  {
    if LinksFor(tree, path, m) {
      forall n: nat | n < m
        ensures !EndsAfter(tree, path, n)
      {
        if EndsAfter(tree, path, n) {
          EndIsUnique(tree, path, n, m);
        }
      }
    } else {
      ChainEnds(tree, path, m);
    }
  }

  lemma {:induction false} ChainEnds(tree: Tree, path: string, m: nat)
    requires !LinksFor(tree, path, m)
    ensures exists n: nat :: n < m && EndsAfter(tree, path, n)
    decreases m
  {
    if tree(path).Link? {
      ChainEnds(tree, tree(path).dest, m - 1);
      var n: nat :| n < m - 1 && EndsAfter(tree, tree(path).dest, n);
      assert EndsAfter(tree, path, n + 1);
    } else {
      assert EndsAfter(tree, path, 0);
    }
  }

  // ---------------------------------------------------------------------
  // Reading while saves run
  // ---------------------------------------------------------------------

  /** `contents` is the rendering of a configuration that reads back. */
  predicate Renders(key: KeyFn, contents: string, config: AppConfig) {
    && contents == Rendered(key, config)
    && ServerOneLine(Sanitized(key, config)) && Canonical(Sanitized(key, config).gpuSelector)
  }

  predicate ReadsAs(key: KeyFn, text: string, config: AppConfig) {
    Parsed(key, text) == Sanitized(key, config)
  }

  lemma RenderedReadsBack(key: KeyFn, contents: string, config: AppConfig)
    requires Renders(key, contents, config)
    ensures ReadsAs(key, contents, config)
  {
    RoundTrip(key, config);
  }

  /** The configurations being saved, one a save. */
  predicate Saving(key: KeyFn, w: World, configs: seq<AppConfig>) {
    && |configs| == |w.savers|
    && forall s {:trigger Renders(key, w.savers[s].contents, configs[s])} :: 0 <= s < |configs| ==>
      Renders(key, w.savers[s].contents, configs[s])
  }

  /** `text` is all of what save `s` wrote, and reads as its configuration. */
  predicate HoldsSave(key: KeyFn, w: World, configs: seq<AppConfig>, text: Option<string>, s: nat) {
    && s < |configs| && s < |w.savers|
    && text == Some(w.savers[s].contents)
    && ReadsAs(key, w.savers[s].contents, configs[s])
  }

  /** What the register holds after `k` saves reads as the `k`-th of them. */
  lemma RegisterReads(key: KeyFn, w: World, configs: seq<AppConfig>, k: nat)
    requires Saving(key, w, configs) && PlacedOnce(w) && 0 < k <= |w.placed|
    ensures HoldsSave(key, w, configs, RegisterAfter(w, k), w.placed[k - 1])
  {
    var s := w.placed[k - 1];
    assert Renders(key, w.savers[s].contents, configs[s]);
    RenderedReadsBack(key, w.savers[s].contents, configs[s]);
  }

  lemma TextIsRegister(states: seq<World>, steps: seq<Step>, i: nat)
    requires IsRun(states, steps) && i < |states|
    ensures TargetText(states[i]) == RegisterAfter(states[i], |states[i].placed|)
    ensures RegisterAfter(states[i], 0) == TargetText(states[0])
    ensures PlacedOnce(states[i])
  {
    TargetIsRegister(states, steps, i);
    TargetIsRegister(states, steps, 0);
    OriginalStays(states, steps, i);
    InvariantAlways(states, steps, i);
  }

  /** Whenever the file is read, in between or after any crash, it gives the
      original text or exactly one saved configuration, the latest to take
      effect. */
  lemma ReadersSeeWholeConfigs(key: KeyFn, states: seq<World>, steps: seq<Step>, i: nat, configs: seq<AppConfig>)
    requires IsRun(states, steps) && i < |states| && Saving(key, states[i], configs)
    ensures var w := states[i];
      if w.placed == [] then TargetText(w) == TargetText(states[0])
      else HoldsSave(key, w, configs, TargetText(w), w.placed[|w.placed| - 1])
  {
    TextIsRegister(states, steps, i);
    var w := states[i];
    if w.placed != [] {
      RegisterReads(key, w, configs, |w.placed|);
    }
  }

  /** The same after a power loss, for any entry still on disk. */
  lemma PowerLossLeavesWholeConfigs(
      key: KeyFn, states: seq<World>, steps: seq<Step>, i: nat, configs: seq<AppConfig>, j: nat, text: Option<string>)
    requires IsRun(states, steps) && i < |states| && Saving(key, states[i], configs) && MaySurvive(states[i], j, text)
    ensures var w := states[i];
      text == TargetText(states[0]) || exists s :: s in w.placed && HoldsSave(key, w, configs, text, s)
  {
    PowerLossKeepsWholeSaves(states, steps, i, j, text);
    TextIsRegister(states, steps, i);
    var w := states[i];
    var k := Durable(w) + j;
    if k > 0 {
      RegisterReads(key, w, configs, k);
      var s := w.placed[k - 1];
      assert s in w.placed && HoldsSave(key, w, configs, text, s);
    }
  }
}
