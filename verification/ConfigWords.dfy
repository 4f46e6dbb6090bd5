/** What the configuration reader accepts, word by word, and which of the extra
    servers it keeps (src/config.rs). */
module ConfigWords {
  import opened Domain
  import opened Text
  import opened Config
  import opened ServerSet

  /** The keys of a configuration line; the legacy one is `gpu_index`. */
  lemma SettingNames(key: string)
    ensures SettingOf("server") == Server && SettingOf("servers") == Servers
    ensures SettingOf("gpu") == GpuKey && SettingOf("gpu_index") == GpuIndexKey
    ensures SettingOf("refresh_ms") == Refresh && SettingOf("process_refresh_ms") == ProcessRefresh
    ensures SettingOf("offline_grace_ms") == OfflineGrace && SettingOf("auto_discovery") == AutoDiscovery
    ensures SettingOf(key) != Unknown ==>
      key in ["server", "servers", "gpu", "gpu_index", "refresh_ms", "process_refresh_ms", "offline_grace_ms", "auto_discovery"]
  {
  }

  /** Four words switch on and four switch off, in any case; others do neither. */
  lemma BoolWords(value: string)
    ensures ParseBool(value) == Some(true) <==> ToAsciiLower(value) in ["1", "true", "yes", "on"]
    ensures ParseBool(value) == Some(false) <==> ToAsciiLower(value) in ["0", "false", "no", "off"]
    ensures ParseBool(ToAsciiLower(value)) == ParseBool(value)
  {
    LowerTwice(value);
  }

  lemma IndexInHead(a: string, b: string)
    requires ',' !in a
    ensures IndexOf(a + "," + b, ',') == |a|
  {
    var s := a + "," + b;
    assert s[|a|] == ',';
    assert forall j :: 0 <= j < |a| ==> s[j] == a[j];
  }

  /** A comma list holds the trimmed, non-blank pieces between its commas, all of
      them and in order. */
  lemma CommaListPieces(a: string, b: string)
    requires ',' !in a
    ensures CommaList(a) == if Trim(a) == "" then [] else [Trim(a)]
    ensures CommaList(a + "," + b) == CommaList(a) + CommaList(b)
  {
    assert IndexOf(a, ',') == |a| && a[..|a|] == a;
    IndexInHead(a, b);
    var s := a + "," + b;
    assert s[..|a|] == a && s[|a| + 1..] == b;
  }

  /** The endpoints that list assembly makes of the given extra servers. */
  function Assembled(key: KeyFn, servers: seq<string>): seq<ServerSpec> {
    AllAdded(key, seq(|servers|, i requires 0 <= i < |servers| => Candidate(servers[i], None)))
  }

  lemma AssembledSnoc(key: KeyFn, servers: seq<string>)
    requires servers != []
    ensures Assembled(key, servers) ==
      Added(key, Assembled(key, servers[..|servers| - 1]), Candidate(servers[|servers| - 1], None))
  {
    var n := |servers| - 1;
    var cs := seq(|servers|, i requires 0 <= i < |servers| => Candidate(servers[i], None));
    assert cs[..n] == seq(n, i requires 0 <= i < n => Candidate(servers[..n][i], None));
  }

  /** Cleaning the saved extras keeps, of every server, what list assembly keeps:
      the first mention of each key, trimmed, in order, and no blank one. */
  lemma {:induction false} CleanedIsAssembled(key: KeyFn, servers: seq<string>)
    requires IsServerKey(key)
    ensures |CleanServers(key, servers)| == |Assembled(key, servers)|
    ensures forall i :: 0 <= i < |CleanServers(key, servers)| ==>
      CleanServers(key, servers)[i] == Assembled(key, servers)[i].endpoint &&
      Assembled(key, servers)[i].key == key(CleanServers(key, servers)[i])
  {
    if servers != [] {
      var n := |servers| - 1;
      CleanedIsAssembled(key, servers[..n]);
      AssembledSnoc(key, servers);
      var rest, specs, last := CleanServers(key, servers[..n]), Assembled(key, servers[..n]), Trim(servers[n]);
      assert KeyOfTrimmed(key, servers[n]);
      var i := IndexOfKey(specs, key(last));
      assert Config.HasKeyOf(key, rest, key(last)) <==> i < |specs| by {
        if i < |specs| {
          assert key(rest[i]) == key(last);
        }
      }
    }
  }
}
