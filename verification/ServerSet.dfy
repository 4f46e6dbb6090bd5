/** Assembly of the monitored server list (src/main.rs) and its mirror in the
    settings dialog (src/server_editor.rs). `key` stands for
    `domain::server_key`; every statement holds for any such function. */
module ServerSet {
  import opened Domain
  import opened Text

  /** An endpoint to add, with the process discovered behind it, if any. */
  datatype Candidate = Candidate(endpoint: string, identity: Option<LocalServerIdentity>)

  /** What the two sides rely on: the key ignores surrounding whitespace, and is
      empty exactly for a blank endpoint. */
  ghost predicate IsServerKey(key: KeyFn) {
    forall s :: KeyOfTrimmed(key, s)
  }

  predicate KeyOfTrimmed(key: KeyFn, s: string) {
    key(s) == key(Trim(s)) && (key(s) == "" <==> Trim(s) == "")
  }

  predicate Blank(c: Candidate) {
    Trim(c.endpoint) == ""
  }

  function Configured(primary: Option<string>, extras: seq<string>): seq<Candidate> {
    (if primary.Some? then [Candidate(primary.value, None)] else [])
    + seq(|extras|, i requires 0 <= i < |extras| => Candidate(extras[i], None))
  }

  // ---------------------------------------------------------------------
  // The list the runtime assembles
  // ---------------------------------------------------------------------

  function IndexOfKey(out: seq<ServerSpec>, k: string): (i: nat)
    ensures i <= |out|
    ensures i < |out| ==> out[i].key == k
    ensures forall j :: 0 <= j < i ==> out[j].key != k
  {
    if out == [] || out[0].key == k then 0 else 1 + IndexOfKey(out[1..], k)
  }

  /** `push_server` as a value. */
  function Added(key: KeyFn, out: seq<ServerSpec>, c: Candidate): seq<ServerSpec> {
    if Blank(c) then out
    else
      var k := key(Trim(c.endpoint));
      var i := IndexOfKey(out, k);
      if i == |out| then out + [ServerSpec(k, Trim(c.endpoint), c.identity)]
      else if out[i].identity.None? && c.identity.Some? then out[i := out[i].(identity := c.identity)]
      else out
  }

  function AllAdded(key: KeyFn, cs: seq<Candidate>): seq<ServerSpec> {
    if cs == [] then [] else Added(key, AllAdded(key, cs[..|cs| - 1]), cs[|cs| - 1])
  }

  /** The vector `out` under construction. */
  class ServerListBuilder {
    const key: KeyFn
    var out: seq<ServerSpec>

    constructor (key: KeyFn)
      ensures out == [] && this.key == key
    {
      this.key, out := key, [];
    }

    /** `push_server`. */
    method PushServer(endpoint: string, identity: Option<LocalServerIdentity>)
      modifies this
      ensures out == Added(key, old(out), Candidate(endpoint, identity))
    {
      var trimmed := Trim(endpoint);
      if trimmed == "" {
        return;
      }
      var k := key(trimmed);
      var i := 0;
      while i < |out| && out[i].key != k
        invariant i <= |out| && out == old(out)
        invariant forall j :: 0 <= j < i ==> out[j].key != k
      {
        i := i + 1;
      }
      if i < |out| {
        if out[i].identity.None? && identity.Some? {
          out := out[i := out[i].(identity := identity)];
        }
        return;
      }
      out := out + [ServerSpec(k, trimmed, identity)];
    }

    method PushAll(candidates: seq<Candidate>, ghost before: seq<Candidate>)
      requires out == AllAdded(key, before)
      modifies this
      ensures out == AllAdded(key, before + candidates)
    {
      var i := 0;
      assert before + candidates[..0] == before;
      while i < |candidates|
        invariant i <= |candidates|
        invariant out == AllAdded(key, before + candidates[..i])
      {
        assert (before + candidates[..i + 1])[..|before| + i] == before + candidates[..i];
        PushServer(candidates[i].endpoint, candidates[i].identity);
        i := i + 1;
      }
      assert candidates[..i] == candidates;
    }
  }

  /** Everything the runtime considers, in order; a default endpoint only when
      nothing else is usable. */
  function Considered(key: KeyFn, primary: Option<string>, extras: seq<string>, discovered: seq<Candidate>, default: string)
    : seq<Candidate>
  {
    var all := Configured(primary, extras) + discovered;
    if AllAdded(key, all) == [] then all + [Candidate(default, None)] else all
  }

  function Capped(out: seq<ServerSpec>): ServerList {
    if |out| > MAX_MONITORED_SERVERS then ServerList(out[..MAX_MONITORED_SERVERS], out[MAX_MONITORED_SERVERS..])
    else ServerList(out, [])
  }

  /** `collect_server_list_with`; `discovered` is empty with auto-discovery off. */
  method CollectServerList(key: KeyFn, primary: Option<string>, extras: seq<string>, discovered: seq<Candidate>, default: string)
    returns (list: ServerList)
    ensures list == Capped(AllAdded(key, Considered(key, primary, extras, discovered, default)))
  {
    var b := new ServerListBuilder(key);
    if primary.Some? {
      b.PushServer(primary.value, None);
    }
    var configured := Configured(primary, extras);
    assert primary.Some? ==> configured[..1] == [Candidate(primary.value, None)] && configured[..1][..0] == [];
    var head := if primary.Some? then configured[..1] else [];
    var extraCandidates := seq(|extras|, i requires 0 <= i < |extras| => Candidate(extras[i], None));
    assert head + extraCandidates == configured;
    b.PushAll(extraCandidates, head);
    b.PushAll(discovered, configured);
    if b.out == [] {
      b.PushServer(default, None);
      assert (configured + discovered + [Candidate(default, None)])[..|configured + discovered|] == configured + discovered;
    }
    list := Capped(b.out);
  }

  // ---------------------------------------------------------------------
  // What the list is
  // ---------------------------------------------------------------------

  /** The candidate's key; blank candidates have none. */
  predicate HasKeyOf(key: KeyFn, c: Candidate, k: string) {
    !Blank(c) && key(Trim(c.endpoint)) == k
  }

  /** `i` is the first candidate with key `k`. */
  predicate FirstWith(key: KeyFn, cs: seq<Candidate>, k: string, i: nat) {
    && i < |cs| && HasKeyOf(key, cs[i], k)
    && forall j :: 0 <= j < i ==> !HasKeyOf(key, cs[j], k)
  }

  /** The first identity known for key `k`. */
  function FirstIdentity(key: KeyFn, cs: seq<Candidate>, k: string): Option<LocalServerIdentity> {
    if cs == [] then None
    else if HasKeyOf(key, cs[0], k) && cs[0].identity.Some? then cs[0].identity
    else FirstIdentity(key, cs[1..], k)
  }

  lemma {:induction false} FirstIdentityAppend(key: KeyFn, cs: seq<Candidate>, c: Candidate, k: string)
    ensures FirstIdentity(key, cs + [c], k) ==
      if FirstIdentity(key, cs, k).Some? then FirstIdentity(key, cs, k)
      else if HasKeyOf(key, c, k) then c.identity else None
  {
    if cs == [] {
      assert cs + [c] == [c];
    } else {
      assert (cs + [c])[1..] == cs[1..] + [c];
      FirstIdentityAppend(key, cs[1..], c, k);
    }
  }

  /** `spec` stands for the first candidate with its key, at index `i`, and
      carries the first identity known for that key. */
  predicate EntryFrom(key: KeyFn, cs: seq<Candidate>, spec: ServerSpec, i: nat) {
    && FirstWith(key, cs, spec.key, i)
    && spec.endpoint == Trim(cs[i].endpoint)
    && spec.identity == FirstIdentity(key, cs, spec.key)
  }

  predicate AllEntries(key: KeyFn, cs: seq<Candidate>, out: seq<ServerSpec>, from: seq<nat>) {
    |from| == |out| && forall n :: 0 <= n < |out| ==> EntryFrom(key, cs, out[n], from[n])
  }

  predicate Rising(from: seq<nat>) {
    forall m, n :: 0 <= m < n < |from| ==> from[m] < from[n]
  }

  /** Every usable candidate's key is in the list. */
  predicate Complete(key: KeyFn, cs: seq<Candidate>, out: seq<ServerSpec>) {
    forall i :: 0 <= i < |cs| && !Blank(cs[i]) ==> HasKey(out, key(Trim(cs[i].endpoint)))
  }

  /** `out` is the first-occurrence deduplication of `cs` by key: its entries
      come from the candidates at the rising indices `from`. */
  predicate DedupOf(key: KeyFn, cs: seq<Candidate>, out: seq<ServerSpec>, from: seq<nat>) {
    && AllEntries(key, cs, out, from)
    && Rising(from)
    && Complete(key, cs, out)
  }

  /** What adding `c` does to an entry already there. */
  function Merged(key: KeyFn, spec: ServerSpec, c: Candidate): ServerSpec {
    if HasKeyOf(key, c, spec.key) && spec.identity.None? then spec.(identity := c.identity) else spec
  }

  lemma AddedEach(key: KeyFn, out: seq<ServerSpec>, c: Candidate)
    requires DistinctKeys(out)
    ensures |out| <= |Added(key, out, c)| <= |out| + 1
    ensures forall n :: 0 <= n < |out| ==> Added(key, out, c)[n] == Merged(key, out[n], c)
    ensures |Added(key, out, c)| > |out| ==>
              && !Blank(c) && !HasKey(out, key(Trim(c.endpoint)))
              && Added(key, out, c)[|out|] == ServerSpec(key(Trim(c.endpoint)), Trim(c.endpoint), c.identity)
    ensures !Blank(c) ==> HasKey(Added(key, out, c), key(Trim(c.endpoint)))
  {
    if !Blank(c) {
      var k := key(Trim(c.endpoint));
      var i := IndexOfKey(out, k);
      assert Added(key, out, c)[i].key == k;
    }
  }

  lemma EntryKept(key: KeyFn, cs: seq<Candidate>, c: Candidate, spec: ServerSpec, i: nat)
    requires EntryFrom(key, cs, spec, i)
    ensures EntryFrom(key, cs + [c], Merged(key, spec, c), i)
  {
    assert forall j :: 0 <= j < |cs| ==> (cs + [c])[j] == cs[j];
    FirstIdentityAppend(key, cs, c, spec.key);
  }

  lemma EntryNew(key: KeyFn, cs: seq<Candidate>, c: Candidate, out: seq<ServerSpec>)
    requires Complete(key, cs, out) && !Blank(c) && !HasKey(out, key(Trim(c.endpoint)))
    ensures EntryFrom(key, cs + [c], ServerSpec(key(Trim(c.endpoint)), Trim(c.endpoint), c.identity), |cs|)
  {
    var k := key(Trim(c.endpoint));
    assert forall j :: 0 <= j < |cs| ==> (cs + [c])[j] == cs[j];
    NoIdentityBefore(key, cs, k);
    FirstIdentityAppend(key, cs, c, k);
  }

  lemma {:induction false} NoIdentityBefore(key: KeyFn, cs: seq<Candidate>, k: string)
    requires forall j :: 0 <= j < |cs| ==> !HasKeyOf(key, cs[j], k)
    ensures FirstIdentity(key, cs, k) == None
  {
    if cs != [] {
      NoIdentityBefore(key, cs[1..], k);
    }
  }

  lemma CompleteStep(key: KeyFn, cs: seq<Candidate>, c: Candidate, out: seq<ServerSpec>)
    requires Complete(key, cs, out) && DistinctKeys(out)
    ensures Complete(key, cs + [c], Added(key, out, c))
  {
    AddedEach(key, out, c);
    var next := Added(key, out, c);
    forall i | 0 <= i < |cs| && !Blank(cs[i])
      ensures HasKey(next, key(Trim(cs[i].endpoint)))
    {
      var n :| 0 <= n < |out| && out[n].key == key(Trim(cs[i].endpoint));
      assert next[n].key == out[n].key;
    }
  }

  lemma EntriesStep(key: KeyFn, cs: seq<Candidate>, c: Candidate, out: seq<ServerSpec>, from: seq<nat>)
    requires DedupOf(key, cs, out, from) && DistinctKeys(out)
    ensures var next := Added(key, out, c);
            AllEntries(key, cs + [c], next, if |next| > |out| then from + [|cs|] else from)
  {
    AddedEach(key, out, c);
    var next := Added(key, out, c);
    var next0 := if |next| > |out| then from + [|cs|] else from;
    forall n | 0 <= n < |next|
      ensures EntryFrom(key, cs + [c], next[n], next0[n])
    {
      if n < |out| {
        EntryKept(key, cs, c, out[n], from[n]);
      } else {
        EntryNew(key, cs, c, out);
      }
    }
  }

  lemma DedupDistinct(key: KeyFn, cs: seq<Candidate>, out: seq<ServerSpec>, from: seq<nat>)
    requires AllEntries(key, cs, out, from) && Rising(from)
    ensures DistinctKeys(out)
    ensures forall n :: 0 <= n < |from| ==> from[n] < |cs|
  {
    assert forall n :: 0 <= n < |out| ==> EntryFrom(key, cs, out[n], from[n]);
  }

  lemma RisingOneMore(from: seq<nat>, n: nat)
    requires Rising(from) && forall m :: 0 <= m < |from| ==> from[m] < n
    ensures Rising(from + [n])
  {
  }

  lemma DedupStep(key: KeyFn, cs: seq<Candidate>, c: Candidate, out: seq<ServerSpec>, from: seq<nat>)
    returns (next0: seq<nat>)
    requires DedupOf(key, cs, out, from)
    ensures DedupOf(key, cs + [c], Added(key, out, c), next0)
  {
    DedupDistinct(key, cs, out, from);
    EntriesStep(key, cs, c, out, from);
    CompleteStep(key, cs, c, out);
    RisingOneMore(from, |cs|);
    next0 := if |Added(key, out, c)| > |out| then from + [|cs|] else from;
  }

  lemma {:induction false} ListIsDedup(key: KeyFn, cs: seq<Candidate>) returns (from: seq<nat>)
    ensures DedupOf(key, cs, AllAdded(key, cs), from)
  {
    if cs == [] {
      from := [];
    } else {
      var n := |cs| - 1;
      var before := ListIsDedup(key, cs[..n]);
      assert cs == cs[..n] + [cs[n]];
      from := DedupStep(key, cs[..n], cs[n], AllAdded(key, cs[..n]), before);
    }
  }

  lemma CappedSplits(out: seq<ServerSpec>)
    requires out != [] && DistinctKeys(out) && forall n :: 0 <= n < |out| ==> out[n].key != ""
    ensures var list := Capped(out);
            && list.monitored + list.overflow == out
            && ValidSet(list.monitored)
            && (list.overflow != [] ==> |list.monitored| == MAX_MONITORED_SERVERS)
  {
  }

  lemma ConsideredSomething(key: KeyFn, primary: Option<string>, extras: seq<string>, discovered: seq<Candidate>, default: string)
    requires Trim(default) != ""
    ensures AllAdded(key, Considered(key, primary, extras, discovered, default)) != []
  {
    var all := Configured(primary, extras) + discovered;
    if AllAdded(key, all) == [] {
      assert (all + [Candidate(default, None)])[..|all|] == all;
    }
  }

  lemma KeysNonEmpty(key: KeyFn, cs: seq<Candidate>, out: seq<ServerSpec>, from: seq<nat>)
    requires IsServerKey(key) && AllEntries(key, cs, out, from)
    ensures forall n :: 0 <= n < |out| ==> out[n].key != ""
  {
    forall n | 0 <= n < |out|
      ensures out[n].key != ""
    {
      assert EntryFrom(key, cs, out[n], from[n]);
      assert KeyOfTrimmed(key, cs[from[n]].endpoint);
    }
  }

  /** The default is considered only when nothing given is usable. */
  lemma ConsideredIs(key: KeyFn, primary: Option<string>, extras: seq<string>, discovered: seq<Candidate>, default: string)
    ensures var given := Configured(primary, extras) + discovered;
            Considered(key, primary, extras, discovered, default) ==
              if exists i :: 0 <= i < |given| && !Blank(given[i]) then given else given + [Candidate(default, None)]
  {
    var given := Configured(primary, extras) + discovered;
    var from := ListIsDedup(key, given);
    if i :| 0 <= i < |given| && !Blank(given[i]) {
      assert HasKey(AllAdded(key, given), key(Trim(given[i].endpoint)));
    } else {
      NothingAdded(key, given);
    }
  }

  lemma OnlyDefault(key: KeyFn, given: seq<Candidate>, default: string)
    requires IsServerKey(key) && Trim(default) != "" && forall i :: 0 <= i < |given| ==> Blank(given[i])
    ensures AllAdded(key, given + [Candidate(default, None)]) == [ServerSpec(key(default), Trim(default), None)]
  {
    NothingAdded(key, given);
    assert (given + [Candidate(default, None)])[..|given|] == given;
    assert KeyOfTrimmed(key, default);
  }

  lemma {:induction false} NothingAdded(key: KeyFn, given: seq<Candidate>)
    requires forall i :: 0 <= i < |given| ==> Blank(given[i])
    ensures AllAdded(key, given) == []
  {
    if given != [] {
      NothingAdded(key, given[..|given| - 1]);
    }
  }

  /** Everything given: the primary, the extras, then what was discovered. */
  function Given(primary: Option<string>, extras: seq<string>, discovered: seq<Candidate>): (given: seq<Candidate>)
    ensures |given| == (if primary.Some? then 1 else 0) + |extras| + |discovered|
    ensures primary.Some? ==> given[0] == Candidate(primary.value, None)
    ensures forall i :: 0 <= i < |extras| ==> given[(if primary.Some? then 1 else 0) + i] == Candidate(extras[i], None)
    ensures forall i :: 0 <= i < |discovered| ==> given[(if primary.Some? then 1 else 0) + |extras| + i] == discovered[i]
  {
    Configured(primary, extras) + discovered
  }

  /** Server-list assembly: monitored followed by overflow is the
      first-occurrence deduplication of the primary, the extras and everything
      discovered, each with the first identity known for it; if all of these are
      blank it is exactly the default. Something is always monitored, at most 16
      are, and overflow starts only when 16 are. */
  lemma CollectedListIsDedup(key: KeyFn, primary: Option<string>, extras: seq<string>, discovered: seq<Candidate>, default: string)
    returns (from: seq<nat>)
    requires IsServerKey(key) && Trim(default) != ""
    ensures var given := Given(primary, extras, discovered);
            var list := Capped(AllAdded(key, Considered(key, primary, extras, discovered, default)));
            && (if exists i :: 0 <= i < |given| && Trim(given[i].endpoint) != ""
                then DedupOf(key, given, list.monitored + list.overflow, from)
                else list == ServerList([ServerSpec(key(default), Trim(default), None)], []))
            && ValidSet(list.monitored) && 1 <= |list.monitored| <= 16
            && (list.overflow != [] ==> |list.monitored| == 16)
  {
    var cs := Considered(key, primary, extras, discovered, default);
    from := ListIsDedup(key, cs);
    ConsideredSomething(key, primary, extras, discovered, default);
    var out := AllAdded(key, cs);
    KeysNonEmpty(key, cs, out, from);
    DedupDistinct(key, cs, out, from);
    CappedSplits(out);
    ConsideredIs(key, primary, extras, discovered, default);
    var given := Given(primary, extras, discovered);
    assert forall i :: 0 <= i < |given| ==> (Blank(given[i]) <==> Trim(given[i].endpoint) == "");
    if forall i :: 0 <= i < |given| ==> Blank(given[i]) {
      OnlyDefault(key, given, default);
    }
  }
}
