/** The dialog's prediction of which configured endpoints will be polled
    (src/server_editor.rs, `monitored_flags`), against what the runtime
    assembles (src/main.rs). */
module MonitoredFlags {
  import opened Domain
  import opened Text
  import opened ServerSet

  /** First occurrences, in order. */
  function Firsts(ks: seq<string>): seq<string> {
    if ks == [] then []
    else
      var rest := Firsts(ks[..|ks| - 1]);
      if ks[|ks| - 1] in rest then rest else rest + [ks[|ks| - 1]]
  }

  function Endpoints(primary: Option<string>, extras: seq<string>): seq<string> {
    (if primary.Some? then [primary.value] else []) + extras
  }

  function KeysOf(key: KeyFn, endpoints: seq<string>): seq<string> {
    seq(|endpoints|, i requires 0 <= i < |endpoints| => key(endpoints[i]))
  }

  datatype Monitoring = Monitoring(flags: seq<bool>, monitored: nat, overflow: nat)

  function Head(ks: seq<string>): seq<string> {
    if |ks| > MAX_MONITORED_SERVERS then ks[..MAX_MONITORED_SERVERS] else ks
  }

  method MonitoringStatus(key: KeyFn, primary: Option<string>, extras: seq<string>) returns (m: Monitoring)
    ensures var unique := Firsts(KeysOf(key, Endpoints(primary, extras)));
            && |m.flags| == |extras|
            && (forall i :: 0 <= i < |extras| ==> (m.flags[i] <==> key(extras[i]) in Head(unique)))
            && m.monitored == |Head(unique)| && m.overflow == |unique| - |Head(unique)|
  {
    var endpoints := Endpoints(primary, extras);
    var seen: set<string> := {};
    var unique: seq<string> := [];
    var i := 0;
    while i < |endpoints|
      invariant i <= |endpoints|
      invariant unique == Firsts(KeysOf(key, endpoints)[..i])
      invariant seen == set k | k in unique
    {
      assert KeysOf(key, endpoints)[..i + 1][..i] == KeysOf(key, endpoints)[..i];
      var k := key(endpoints[i]);
      if k !in seen {
        seen := seen + {k};
        unique := unique + [k];
      }
      i := i + 1;
    }
    assert KeysOf(key, endpoints)[..i] == KeysOf(key, endpoints);
    var monitored := Head(unique);
    var flags := seq(|extras|, j requires 0 <= j < |extras| => key(extras[j]) in monitored);
    m := Monitoring(flags, |monitored|, |unique| - |monitored|);
  }

  // ---------------------------------------------------------------------
  // The two implementations on the same configuration
  // ---------------------------------------------------------------------

  function NonEmpty(ks: seq<string>): seq<string> {
    if ks == [] then []
    else
      var rest := NonEmpty(ks[..|ks| - 1]);
      if ks[|ks| - 1] == "" then rest else rest + [ks[|ks| - 1]]
  }

  function IndexIn(ks: seq<string>, k: string): (i: nat)
    ensures i <= |ks|
    ensures i < |ks| ==> ks[i] == k
    ensures i == |ks| <==> k !in ks
    ensures forall j :: 0 <= j < i ==> ks[j] != k
  {
    if ks == [] || ks[0] == k then 0 else 1 + IndexIn(ks[1..], k)
  }

  predicate Distinct(ks: seq<string>) {
    forall i, j :: 0 <= i < j < |ks| ==> ks[i] != ks[j]
  }

  lemma {:induction false} FirstsDistinct(ks: seq<string>)
    ensures Distinct(Firsts(ks))
    ensures forall k :: k in ks <==> k in Firsts(ks)
  {
    if ks != [] {
      var n := |ks| - 1;
      FirstsDistinct(ks[..n]);
      assert ks == ks[..n] + [ks[n]];
    }
  }

  lemma {:induction false} FirstsPrefix(a: seq<string>, b: seq<string>)
    ensures Firsts(a) <= Firsts(a + b)
    decreases |b|
  {
    if b == [] {
      assert a + b == a;
    } else {
      var n := |b| - 1;
      FirstsPrefix(a, b[..n]);
      assert (a + b)[..|a| + n] == a + b[..n];
    }
  }

  lemma {:induction false} NonEmptyPrefix(a: seq<string>, b: seq<string>)
    requires a <= b
    ensures NonEmpty(a) <= NonEmpty(b)
    decreases |b|
  {
    if |a| == |b| {
      assert a == b;
    } else {
      NonEmptyPrefix(a, b[..|b| - 1]);
    }
  }

  lemma {:induction false} NonEmptyMembers(ks: seq<string>, k: string)
    ensures k in NonEmpty(ks) <==> k in ks && k != ""
  {
    if ks != [] {
      var n := |ks| - 1;
      NonEmptyMembers(ks[..n], k);
      assert ks == ks[..n] + [ks[n]];
    }
  }

  function BlankBefore(ks: seq<string>, k: string): nat {
    if "" in ks[..IndexIn(ks, k)] then 1 else 0
  }

  lemma {:induction false} NonEmptyLength(ks: seq<string>)
    requires Distinct(ks)
    ensures |NonEmpty(ks)| == |ks| - (if "" in ks then 1 else 0)
  {
    if ks != [] {
      var n := |ks| - 1;
      NonEmptyLength(ks[..n]);
      assert ks == ks[..n] + [ks[n]];
      if ks[n] == "" {
        assert forall i :: 0 <= i < n ==> ks[..n][i] != "";
      }
    }
  }

  /** Dropping the blank key moves a later key up by one. */
  lemma IndexShift(ks: seq<string>, k: string)
    requires Distinct(ks) && k in ks && k != ""
    ensures IndexIn(NonEmpty(ks), k) == IndexIn(ks, k) - BlankBefore(ks, k)
  {
    var i := IndexIn(ks, k);
    NonEmptyLength(ks[..i]);
    NonEmptyPrefix(ks[..i + 1], ks);
    assert ks[..i + 1][..i] == ks[..i];
    var at := |NonEmpty(ks[..i])|;
    assert NonEmpty(ks[..i + 1]) == NonEmpty(ks[..i]) + [k];
    assert NonEmpty(ks)[at] == NonEmpty(ks[..i + 1])[at] == k;
    NonEmptyMembers(ks[..i], k);
    forall j | 0 <= j < at
      ensures NonEmpty(ks)[j] != k
    {
      assert NonEmpty(ks)[j] == NonEmpty(ks[..i])[j];
    }
  }

  function CandidateKeys(key: KeyFn, cs: seq<Candidate>): seq<string> {
    seq(|cs|, i requires 0 <= i < |cs| => key(cs[i].endpoint))
  }

  lemma AddedKeys(key: KeyFn, out: seq<ServerSpec>, c: Candidate)
    requires IsServerKey(key)
    ensures Keys(Added(key, out, c)) ==
      if key(c.endpoint) == "" || key(c.endpoint) in Keys(out) then Keys(out) else Keys(out) + [key(c.endpoint)]
  {
    assert KeyOfTrimmed(key, c.endpoint);
    var i := IndexOfKey(out, key(c.endpoint));
    if i < |out| {
      assert Keys(out)[i] == key(c.endpoint);
    }
    if key(c.endpoint) in Keys(out) {
      var j :| 0 <= j < |out| && Keys(out)[j] == key(c.endpoint);
    }
  }

  lemma NonEmptyFirstsSnoc(ks: seq<string>, k: string)
    ensures NonEmpty(Firsts(ks + [k])) ==
      if k == "" || k in NonEmpty(Firsts(ks)) then NonEmpty(Firsts(ks)) else NonEmpty(Firsts(ks)) + [k]
  {
    assert (ks + [k])[..|ks|] == ks;
    var before := Firsts(ks);
    NonEmptyMembers(before, k);
    assert (before + [k])[..|before|] == before;
  }

  lemma CandidateKeysSnoc(key: KeyFn, cs: seq<Candidate>)
    requires cs != []
    ensures CandidateKeys(key, cs) == CandidateKeys(key, cs[..|cs| - 1]) + [key(cs[|cs| - 1].endpoint)]
  {
  }

  /** The assembled keys are the non-blank first occurrences. */
  lemma {:induction false} AssembledKeys(key: KeyFn, cs: seq<Candidate>)
    requires IsServerKey(key)
    ensures Keys(AllAdded(key, cs)) == NonEmpty(Firsts(CandidateKeys(key, cs)))
  {
    if cs != [] {
      var n := |cs| - 1;
      AssembledKeys(key, cs[..n]);
      AddedKeys(key, AllAdded(key, cs[..n]), cs[n]);
      CandidateKeysSnoc(key, cs);
      NonEmptyFirstsSnoc(CandidateKeys(key, cs[..n]), key(cs[n].endpoint));
    }
  }

  /** Whether the runtime polls the endpoint. */
  predicate Polled(key: KeyFn, primary: Option<string>, extras: seq<string>, discovered: seq<Candidate>, default: string, endpoint: string) {
    key(endpoint) in Keys(Capped(AllAdded(key, Considered(key, primary, extras, discovered, default))).monitored)
  }

  lemma HeadByIndex(ks: seq<string>, k: string)
    ensures k in Head(ks) <==> IndexIn(ks, k) < |ks| && IndexIn(ks, k) < MAX_MONITORED_SERVERS
  {
    if k in Head(ks) {
      var j :| 0 <= j < |Head(ks)| && Head(ks)[j] == k;
      assert ks[j] == k;
    }
    var i := IndexIn(ks, k);
    if i < |ks| && i < MAX_MONITORED_SERVERS {
      assert Head(ks)[i] == k;
    }
  }

  lemma IndexInPrefix(a: seq<string>, b: seq<string>, k: string)
    requires a <= b && k in a
    ensures IndexIn(b, k) == IndexIn(a, k)
  {
    var i := IndexIn(a, k);
    assert b[i] == k;
    assert forall j :: 0 <= j < i ==> b[j] == a[j];
  }

  lemma KeysCapped(out: seq<ServerSpec>)
    ensures Keys(Capped(out).monitored) == Head(Keys(out))
  {
  }

  /** Assembling more candidates leaves the place of an earlier key alone. */
  lemma PlaceKept(ks: seq<string>, more: seq<string>, k: string)
    requires k in ks && k != ""
    ensures k in Firsts(ks) && k in NonEmpty(Firsts(ks + more))
    ensures IndexIn(NonEmpty(Firsts(ks + more)), k) == IndexIn(Firsts(ks), k) - BlankBefore(Firsts(ks), k)
  {
    FirstsDistinct(ks);
    FirstsPrefix(ks, more);
    NonEmptyPrefix(Firsts(ks), Firsts(ks + more));
    NonEmptyMembers(Firsts(ks), k);
    IndexInPrefix(NonEmpty(Firsts(ks)), NonEmpty(Firsts(ks + more)), k);
    IndexShift(Firsts(ks), k);
  }

  lemma ConfiguredFirst(key: KeyFn, primary: Option<string>, extras: seq<string>, discovered: seq<Candidate>, default: string)
    ensures KeysOf(key, Endpoints(primary, extras))
         <= CandidateKeys(key, Considered(key, primary, extras, discovered, default))
  {
    var es, cs := Endpoints(primary, extras), Considered(key, primary, extras, discovered, default);
    var configured := Configured(primary, extras);
    assert configured <= cs;
    assert KeysOf(key, es) == CandidateKeys(key, configured);
  }

  lemma ExtraIn(key: KeyFn, primary: Option<string>, extras: seq<string>, i: nat)
    requires i < |extras|
    ensures key(extras[i]) in KeysOf(key, Endpoints(primary, extras))
  {
    var es := Endpoints(primary, extras);
    var n := |es| - |extras| + i;
    assert es[n] == extras[i];
    assert KeysOf(key, es)[n] == key(extras[i]);
  }

  /** A configured endpoint is polled by its place among configured keys alone. */
  lemma PolledByPlace(key: KeyFn, primary: Option<string>, extras: seq<string>, discovered: seq<Candidate>, default: string, i: nat)
    requires IsServerKey(key) && i < |extras| && Trim(extras[i]) != ""
    ensures var unique := Firsts(KeysOf(key, Endpoints(primary, extras)));
            && key(extras[i]) in unique
            && (Polled(key, primary, extras, discovered, default, extras[i]) <==>
                IndexIn(unique, key(extras[i])) - BlankBefore(unique, key(extras[i])) < MAX_MONITORED_SERVERS)
  {
    var k := key(extras[i]);
    var ks := KeysOf(key, Endpoints(primary, extras));
    var cs := Considered(key, primary, extras, discovered, default);
    var all := CandidateKeys(key, cs);
    assert KeyOfTrimmed(key, extras[i]);
    ExtraIn(key, primary, extras, i);
    ConfiguredFirst(key, primary, extras, discovered, default);
    assert all == ks + all[|ks|..];
    PlaceKept(ks, all[|ks|..], k);
    AssembledKeys(key, cs);
    KeysCapped(AllAdded(key, cs));
    HeadByIndex(NonEmpty(Firsts(all)), k);
  }

  /** The 17th distinct configured key, a blank entry counted among the first
      sixteen. */
  predicate PushedOutByBlank(key: KeyFn, primary: Option<string>, extras: seq<string>, endpoint: string) {
    var unique := Firsts(KeysOf(key, Endpoints(primary, extras)));
    IndexIn(unique, key(endpoint)) == MAX_MONITORED_SERVERS && "" in Head(unique)
  }

  /** The dialog's flag of a non-blank entry agrees with the runtime, whatever
      is discovered, except for the one endpoint that a blank entry, which only
      the dialog counts, pushes past the cap. */
  lemma FlagsMirrorRuntime(key: KeyFn, primary: Option<string>, extras: seq<string>, discovered: seq<Candidate>, default: string, i: nat)
    requires IsServerKey(key) && i < |extras| && Trim(extras[i]) != ""
    ensures var flag := key(extras[i]) in Head(Firsts(KeysOf(key, Endpoints(primary, extras))));
            (flag == Polled(key, primary, extras, discovered, default, extras[i]))
              <==> !PushedOutByBlank(key, primary, extras, extras[i])
  {
    var unique := Firsts(KeysOf(key, Endpoints(primary, extras)));
    var k := key(extras[i]);
    PolledByPlace(key, primary, extras, discovered, default, i);
    HeadByIndex(unique, k);
    var at := IndexIn(unique, k);
    if at == MAX_MONITORED_SERVERS {
      assert unique[..at] == Head(unique);
    }
  }

  lemma NoBlankKeys(key: KeyFn, endpoints: seq<string>)
    requires IsServerKey(key) && forall e :: e in endpoints ==> Trim(e) != ""
    ensures "" !in Firsts(KeysOf(key, endpoints))
  {
    var ks := KeysOf(key, endpoints);
    forall j | 0 <= j < |ks|
      ensures ks[j] != ""
    {
      assert endpoints[j] in endpoints && KeyOfTrimmed(key, endpoints[j]);
    }
    FirstsDistinct(ks);
  }

  /** With no blank entry configured the flags are always right. */
  lemma FlagsRightWithoutBlanks(key: KeyFn, primary: Option<string>, extras: seq<string>, discovered: seq<Candidate>, default: string, i: nat)
    requires IsServerKey(key) && i < |extras|
    requires forall e :: e in Endpoints(primary, extras) ==> Trim(e) != ""
    ensures key(extras[i]) in Head(Firsts(KeysOf(key, Endpoints(primary, extras)))) <==>
            Polled(key, primary, extras, discovered, default, extras[i])
  {
    assert extras[i] in Endpoints(primary, extras);
    NoBlankKeys(key, Endpoints(primary, extras));
    FlagsMirrorRuntime(key, primary, extras, discovered, default, i);
  }

  /** The exception is real: a blank primary and sixteen distinct extras. The
      last extra is polled, yet the dialog flags it as not monitored. */
  lemma BlankPrimaryMisleads(key: KeyFn, extras: seq<string>, discovered: seq<Candidate>, default: string)
    requires IsServerKey(key) && |extras| == 16
    requires forall i :: 0 <= i < 16 ==> Trim(extras[i]) != ""
    requires forall i, j :: 0 <= i < j < 16 ==> key(extras[i]) != key(extras[j])
    ensures Polled(key, Some(""), extras, discovered, default, extras[15])
    ensures key(extras[15]) !in Head(Firsts(KeysOf(key, Endpoints(Some(""), extras))))
  {
    var ks := KeysOf(key, Endpoints(Some(""), extras));
    BlankFirst(key, extras);
    FirstsOfDistinct(ks);
    FlagsMirrorRuntime(key, Some(""), extras, discovered, default, 15);
    assert Head(ks)[0] == "";
    HeadByIndex(ks, key(extras[15]));
  }

  lemma BlankFirst(key: KeyFn, extras: seq<string>)
    requires IsServerKey(key) && |extras| == 16
    requires forall i :: 0 <= i < 16 ==> Trim(extras[i]) != ""
    requires forall i, j :: 0 <= i < j < 16 ==> key(extras[i]) != key(extras[j])
    ensures var ks := KeysOf(key, Endpoints(Some(""), extras));
            |ks| == 17 && Distinct(ks) && ks[0] == "" && IndexIn(ks, key(extras[15])) == 16
  {
    var es := Endpoints(Some(""), extras);
    var ks := KeysOf(key, es);
    assert KeyOfTrimmed(key, "") && Trim("") == "";
    assert es[0] == "";
    forall i | 0 < i < 17
      ensures ks[i] == key(extras[i - 1]) && ks[i] != ""
    {
      assert es[i] == extras[i - 1] && KeyOfTrimmed(key, extras[i - 1]);
    }
    DistinctAt(ks, 16);
  }

  lemma DistinctAt(ks: seq<string>, i: nat)
    requires Distinct(ks) && i < |ks|
    ensures IndexIn(ks, ks[i]) == i
  {
  }

  lemma {:induction false} FirstsOfDistinct(ks: seq<string>)
    requires Distinct(ks)
    ensures Firsts(ks) == ks
  {
    if ks != [] {
      var n := |ks| - 1;
      FirstsOfDistinct(ks[..n]);
      assert forall j :: 0 <= j < n ==> ks[..n][j] != ks[n];
    }
  }
}
