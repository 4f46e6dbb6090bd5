/** The saved configuration: what is written, what is read, and when the two
    agree (src/config.rs). `key` stands for `domain::server_key`. */
module Config {
  import opened Domain
  import opened Text
  import opened Json
  import opened Gpu

  datatype AppConfig = AppConfig(
    server: Option<string>,
    servers: seq<string>,
    gpuSelector: GpuSelector,
    refreshMs: nat,
    processRefreshMs: nat,
    offlineGraceMs: nat,
    autoDiscovery: bool)

  const DEFAULT_CONFIG := AppConfig(None, [], Auto, 1_000, 1_000, 2_500, true)

  function Clamp(n: nat, low: nat, high: nat): (r: nat)
    requires low <= high
    ensures low <= r <= high
    ensures low <= n <= high ==> r == n
    ensures n < low ==> r == low
    ensures n > high ==> r == high
  {
    if n < low then low else if n > high then high else n
  }

  function TrimmedServer(server: Option<string>): (r: Option<string>)
    ensures r.Some? <==> server.Some? && Trim(server.value) != ""
    ensures r.Some? ==> r.value == Trim(server.value)
  {
    if server.Some? && Trim(server.value) != "" then Some(Trim(server.value)) else None
  }

  /** Trimmed, without blanks, the first of every key. */
  function CleanServers(key: KeyFn, servers: seq<string>): seq<string> {
    if servers == [] then []
    else
      var rest, last := CleanServers(key, servers[..|servers| - 1]), Trim(servers[|servers| - 1]);
      if last == "" || HasKeyOf(key, rest, key(last)) then rest else rest + [last]
  }

  predicate HasKeyOf(key: KeyFn, servers: seq<string>, k: string) {
    exists i :: 0 <= i < |servers| && key(servers[i]) == k
  }

  function Sanitized(key: KeyFn, c: AppConfig): AppConfig {
    AppConfig(
      TrimmedServer(c.server),
      CleanServers(key, c.servers),
      SanitizedSelector(c.gpuSelector),
      Clamp(c.refreshMs, 100, 10_000),
      Clamp(c.processRefreshMs, 100, 60_000),
      Clamp(c.offlineGraceMs, 0, 60_000),
      c.autoDiscovery)
  }

  // ---------------------------------------------------------------------
  // Writing
  // ---------------------------------------------------------------------

  function Entry(key: string, value: string): string {
    key + "=" + value
  }

  function BoolText(b: bool): string {
    if b then "true" else "false"
  }

  function ServerLines(c: AppConfig): seq<string> {
    if c.server.Some? then [Entry("server", c.server.value)] else []
  }

  function ServersLines(c: AppConfig): seq<string> {
    if c.servers == [] then [] else [Entry("servers", WriteArray(c.servers))]
  }

  function GpuLines(c: AppConfig): seq<string> {
    if AsString(c.gpuSelector) == "" then [] else [Entry("gpu", AsString(c.gpuSelector))]
  }

  function NumberLines(c: AppConfig): seq<string> {
    [Entry("refresh_ms", PrintNat(c.refreshMs)),
     Entry("process_refresh_ms", PrintNat(c.processRefreshMs)),
     Entry("offline_grace_ms", PrintNat(c.offlineGraceMs))]
  }

  function FixedLines(c: AppConfig): seq<string> {
    NumberLines(c) + [Entry("auto_discovery", BoolText(c.autoDiscovery))]
  }

  function ConfigLines(c: AppConfig): seq<string> {
    ServerLines(c) + ServersLines(c) + GpuLines(c) + FixedLines(c)
  }

  function Rendered(key: KeyFn, c: AppConfig): string {
    Join(ConfigLines(Sanitized(key, c))) + "\n"
  }

  /** `render_config`. */
  method RenderConfig(key: KeyFn, config: AppConfig) returns (text: string)
    ensures text == Rendered(key, config)
  {
    var c := Sanitized(key, config);
    var lines := RenderEndpoints(c);
    ghost var endpoints := lines;
    var selector := AsString(c.gpuSelector);
    if selector != "" {
      lines := lines + [Entry("gpu", selector)];
    }
    assert lines == endpoints + GpuLines(c);
    ghost var optional := lines;
    lines := lines + [Entry("refresh_ms", PrintNat(c.refreshMs))];
    lines := lines + [Entry("process_refresh_ms", PrintNat(c.processRefreshMs))];
    lines := lines + [Entry("offline_grace_ms", PrintNat(c.offlineGraceMs))];
    assert lines == optional + NumberLines(c);
    lines := lines + [Entry("auto_discovery", BoolText(c.autoDiscovery))];
    assert lines == optional + FixedLines(c);
    text := Join(lines) + "\n";
  }

  method RenderEndpoints(c: AppConfig) returns (lines: seq<string>)
    ensures lines == ServerLines(c) + ServersLines(c)
  {
    lines := [];
    if c.server.Some? {
      lines := lines + [Entry("server", c.server.value)];
    }
    if c.servers != [] {
      lines := lines + [Entry("servers", WriteArray(c.servers))];
    }
  }

  // ---------------------------------------------------------------------
  // Reading
  // ---------------------------------------------------------------------

  function ParseBool(value: string): Option<bool> {
    var v := ToAsciiLower(value);
    if v == "1" || v == "true" || v == "yes" || v == "on" then Some(true)
    else if v == "0" || v == "false" || v == "no" || v == "off" then Some(false)
    else None
  }

  /** The legacy comma-separated list. */
  function CommaList(value: string): seq<string>
    decreases |value|
  {
    var i := IndexOf(value, ',');
    var entry := Trim(value[..i]);
    (if entry == "" then [] else [entry]) + if i == |value| then [] else CommaList(value[i + 1..])
  }

  /** `parse_config`'s variables. */
  datatype Parsing = Parsing(config: AppConfig, sawServer: bool, sawAuto: bool, sawGpu: bool, legacyIndex: Option<U32>)

  const START := Parsing(DEFAULT_CONFIG, false, false, false, None)

  function WithNumber(old0: nat, value: string): nat {
    ParseUnsigned(value, U64_MAX).GetOr(old0)
  }

  function ReadServers(c: AppConfig, value: string): AppConfig {
    if value != "" && value[0] == '[' then c.(servers := c.servers + ReadArray(value).GetOr([]))
    else c.(servers := c.servers + CommaList(value))
  }

  /** What a line's key names. */
  datatype Setting =
    | Server | Servers | GpuKey | GpuIndexKey | Refresh | ProcessRefresh | OfflineGrace | AutoDiscovery | Unknown

  function SettingOf(key: string): Setting {
    if key == "server" then Server
    else if key == "servers" then Servers
    else if key == "gpu" then GpuKey
    else if key == "gpu_index" then GpuIndexKey
    else if key == "refresh_ms" then Refresh
    else if key == "process_refresh_ms" then ProcessRefresh
    else if key == "offline_grace_ms" then OfflineGrace
    else if key == "auto_discovery" then AutoDiscovery
    else Unknown
  }

  function ReadEntry(p: Parsing, setting: Setting, value: string): Parsing {
    var c := p.config;
    match setting
    case Server => if value == "" then p else p.(config := c.(server := Some(value)), sawServer := true)
    case Servers => p.(config := ReadServers(c, value))
    case GpuKey => p.(config := c.(gpuSelector := ParseSelector(value)), sawGpu := true)
    case GpuIndexKey => if !p.sawGpu && ParseU32(value).Some? then p.(legacyIndex := ParseU32(value)) else p
    case Refresh => p.(config := c.(refreshMs := WithNumber(c.refreshMs, value)))
    case ProcessRefresh => p.(config := c.(processRefreshMs := WithNumber(c.processRefreshMs, value)))
    case OfflineGrace => p.(config := c.(offlineGraceMs := WithNumber(c.offlineGraceMs, value)))
    case AutoDiscovery =>
      if ParseBool(value).Some? then p.(config := c.(autoDiscovery := ParseBool(value).value), sawAuto := true) else p
    case Unknown => p
  }

  function ReadLine(p: Parsing, line: string): Parsing {
    match SplitOnce(line)
    case None => p
    case Some((key, value)) => ReadEntry(p, SettingOf(Trim(key)), Trim(value))
  }

  function ReadLines(p: Parsing, lines: seq<string>): Parsing {
    if lines == [] then p else ReadLine(ReadLines(p, lines[..|lines| - 1]), lines[|lines| - 1])
  }

  /** The legacy rules applied once all lines are read. */
  function Finished(p: Parsing): AppConfig {
    var c := if p.sawServer && !p.sawAuto then p.config.(autoDiscovery := false) else p.config;
    if !p.sawGpu && p.legacyIndex.Some? then c.(gpuSelector := Index(p.legacyIndex.value)) else c
  }

  function Parsed(key: KeyFn, text: string): AppConfig {
    Sanitized(key, Finished(ReadLines(START, Lines(text))))
  }

  method ParseLine(p: Parsing, line: string) returns (q: Parsing)
    ensures q == ReadLine(p, line)
  {
    q := p;
    var split := SplitOnce(line);
    if split.Some? {
      q := ReadEntry(p, SettingOf(Trim(split.value.0)), Trim(split.value.1));
    }
  }

  /** `parse_config`. */
  method ParseConfig(key: KeyFn, text: string) returns (c: AppConfig)
    ensures c == Parsed(key, text)
  {
    var lines := Lines(text);
    var p := START;
    var i := 0;
    while i < |lines|
      invariant i <= |lines|
      invariant p == ReadLines(START, lines[..i])
    {
      assert lines[..i + 1][..i] == lines[..i];
      p := ParseLine(p, lines[i]);
      i := i + 1;
    }
    assert lines[..i] == lines;
    c := p.config;
    if p.sawServer && !p.sawAuto {
      c := c.(autoDiscovery := false);
    }
    if !p.sawGpu {
      if p.legacyIndex.Some? {
        c := c.(gpuSelector := Index(p.legacyIndex.value));
      }
    }
    c := Sanitized(key, c);
  }

  // ---------------------------------------------------------------------
  // Sanitizing is final
  // ---------------------------------------------------------------------

  /** Trimmed, non-blank, one per key: what cleaning leaves and keeps. */
  predicate Clean(key: KeyFn, servers: seq<string>) {
    && (forall i :: 0 <= i < |servers| ==> Trimmed(servers[i]) && servers[i] != "")
    && forall i, j :: 0 <= i < j < |servers| ==> key(servers[i]) != key(servers[j])
  }

  lemma {:induction false} CleanServersClean(key: KeyFn, servers: seq<string>)
    ensures Clean(key, CleanServers(key, servers))
  {
    if servers != [] {
      CleanServersClean(key, servers[..|servers| - 1]);
      TrimTrims(servers[|servers| - 1]);
    }
  }

  lemma CleanLast(key: KeyFn, servers: seq<string>)
    requires Clean(key, servers) && servers != []
    ensures var front, last := servers[..|servers| - 1], servers[|servers| - 1];
            Clean(key, front) && Trim(last) == last && last != "" && !HasKeyOf(key, front, key(last))
  {
    TrimTrims(servers[|servers| - 1]);
  }

  lemma {:induction false} CleanKept(key: KeyFn, servers: seq<string>)
    requires Clean(key, servers)
    ensures CleanServers(key, servers) == servers
  {
    if servers != [] {
      CleanLast(key, servers);
      CleanKept(key, servers[..|servers| - 1]);
    }
  }

  lemma SanitizedTwice(key: KeyFn, c: AppConfig)
    ensures Sanitized(key, Sanitized(key, c)) == Sanitized(key, c)
  {
    if c.server.Some? {
      TrimTrims(c.server.value);
    }
    CleanServersClean(key, c.servers);
    CleanKept(key, CleanServers(key, c.servers));
    SanitizedIsSanitized(c.gpuSelector);
  }

  // ---------------------------------------------------------------------
  // Round trip
  // ---------------------------------------------------------------------

  predicate ServerOneLine(c: AppConfig) {
    c.server.Some? ==> OneLine(c.server.value)
  }

  lemma {:induction false} ReadLinesAppend(p: Parsing, a: seq<string>, b: seq<string>)
    ensures ReadLines(p, a + b) == ReadLines(ReadLines(p, a), b)
    decreases |b|
  {
    if b == [] {
      assert a + b == a;
    } else {
      assert (a + b)[..|a + b| - 1] == a + b[..|b| - 1];
      ReadLinesAppend(p, a, b[..|b| - 1]);
    }
  }

  /** A line of this key and value is read as an entry for `setting`. */
  predicate Readable(key: string, setting: Setting, value: string) {
    '=' !in key && Trimmed(key) && SettingOf(key) == setting && Trimmed(value)
  }

  lemma ReadEntryLine(p: Parsing, key: string, setting: Setting, value: string)
    requires Readable(key, setting, value)
    ensures ReadLines(p, [Entry(key, value)]) == ReadEntry(p, setting, value)
  {
    SplitEntry(key, value);
    TrimTrims(key);
    TrimTrims(value);
    assert [Entry(key, value)][..0] == [];
  }

  lemma OneLineEntry(key: string, value: string)
    requires OneLine(key) && OneLine(value) && value != "" && Trimmed(value)
    ensures OneLine(Entry(key, value)) && StripCr(Entry(key, value)) == Entry(key, value)
  {
    var line := Entry(key, value);
    assert line[|line| - 1] == value[|value| - 1];
  }

  lemma FixedOneLine(c: AppConfig)
    ensures forall l :: l in FixedLines(c) ==> OneLine(l) && StripCr(l) == l
  {
    PrintNatParses(c.refreshMs, c.refreshMs);
    PrintNatParses(c.processRefreshMs, c.processRefreshMs);
    PrintNatParses(c.offlineGraceMs, c.offlineGraceMs);
    OneLineEntry("refresh_ms", PrintNat(c.refreshMs));
    OneLineEntry("process_refresh_ms", PrintNat(c.processRefreshMs));
    OneLineEntry("offline_grace_ms", PrintNat(c.offlineGraceMs));
    OneLineEntry("auto_discovery", BoolText(c.autoDiscovery));
  }

  /** A configuration as saving leaves it. */
  predicate ConfigSanitized(c: AppConfig) {
    && (c.server.Some? ==> Trimmed(c.server.value) && c.server.value != "")
    && SelectorSanitized(c.gpuSelector)
    && c.refreshMs <= 10_000 && c.processRefreshMs <= 60_000 && c.offlineGraceMs <= 60_000
  }

  lemma AllOneLine(c: AppConfig)
    requires ConfigSanitized(c) && ServerOneLine(c) && OneLine(AsString(c.gpuSelector))
    ensures forall l :: l in ConfigLines(c) ==> OneLine(l) && StripCr(l) == l
  {
    FixedOneLine(c);
    ArrayPrintable(c.servers);
    if c.server.Some? {
      OneLineEntry("server", c.server.value);
    }
    OneLineEntry("servers", WriteArray(c.servers));
    if c.gpuSelector != Auto {
      SelectorReadsBack(c.gpuSelector);
      TrimTrims(AsString(c.gpuSelector));
      OneLineEntry("gpu", AsString(c.gpuSelector));
    }
  }

  lemma ReadServerLines(c: AppConfig)
    requires ConfigSanitized(c)
    ensures ReadLines(START, ServerLines(c)) ==
      START.(config := DEFAULT_CONFIG.(server := c.server), sawServer := c.server.Some?)
  {
    if c.server.Some? {
      ReadEntryLine(START, "server", Server, c.server.value);
    }
  }

  lemma ServersReadable(items: seq<string>)
    ensures Readable("servers", Servers, WriteArray(items))
  {
    ArrayPrintable(items);
  }

  lemma ReadServersEntry(p: Parsing, items: seq<string>)
    requires p.config.servers == []
    ensures ReadEntry(p, Servers, WriteArray(items)) == p.(config := p.config.(servers := items))
  {
    ArrayPrintable(items);
    ReadWrittenArray(items);
    assert [] + items == items;
  }

  lemma ReadServersLines(p: Parsing, c: AppConfig)
    requires p.config.servers == []
    ensures ReadLines(p, ServersLines(c)) == p.(config := p.config.(servers := c.servers))
  {
    if c.servers != [] {
      ServersReadable(c.servers);
      ReadEntryLine(p, "servers", Servers, WriteArray(c.servers));
      ReadServersEntry(p, c.servers);
    }
  }

  lemma ReadGpuLines(p: Parsing, c: AppConfig)
    requires ConfigSanitized(c) && OneLine(AsString(c.gpuSelector)) && p.config.gpuSelector == Auto && !p.sawGpu
    ensures ReadLines(p, GpuLines(c)) ==
      p.(config := p.config.(gpuSelector := ParseSelector(AsString(c.gpuSelector))), sawGpu := AsString(c.gpuSelector) != "")
  {
    if c.gpuSelector != Auto {
      SelectorReadsBack(c.gpuSelector);
      TrimTrims(AsString(c.gpuSelector));
      ReadEntryLine(p, "gpu", GpuKey, AsString(c.gpuSelector));
    }
  }

  lemma ReadOneMore(p: Parsing, lines: seq<string>, key: string, setting: Setting, value: string)
    requires Readable(key, setting, value)
    ensures ReadLines(p, lines + [Entry(key, value)]) == ReadEntry(ReadLines(p, lines), setting, value)
  {
    ReadLinesAppend(p, lines, [Entry(key, value)]);
    ReadEntryLine(ReadLines(p, lines), key, setting, value);
  }

  function WithNumbers(p: Parsing, c: AppConfig): Parsing {
    p.(config := p.config.(refreshMs := c.refreshMs, processRefreshMs := c.processRefreshMs, offlineGraceMs := c.offlineGraceMs))
  }

  lemma ReadThree(p: Parsing, k1: string, v1: string, k2: string, v2: string, k3: string, v3: string)
    requires Readable(k1, Refresh, v1) && Readable(k2, ProcessRefresh, v2) && Readable(k3, OfflineGrace, v3)
    ensures ReadLines(p, [Entry(k1, v1), Entry(k2, v2), Entry(k3, v3)])
         == ReadEntry(ReadEntry(ReadEntry(p, Refresh, v1), ProcessRefresh, v2), OfflineGrace, v3)
  {
    ReadEntryLine(p, k1, Refresh, v1);
    ReadOneMore(p, [Entry(k1, v1)], k2, ProcessRefresh, v2);
    assert [Entry(k1, v1)] + [Entry(k2, v2)] == [Entry(k1, v1), Entry(k2, v2)];
    ReadOneMore(p, [Entry(k1, v1), Entry(k2, v2)], k3, OfflineGrace, v3);
    assert [Entry(k1, v1), Entry(k2, v2)] + [Entry(k3, v3)] == [Entry(k1, v1), Entry(k2, v2), Entry(k3, v3)];
  }

  lemma ReadRefresh(p: Parsing, n: nat)
    requires n <= U64_MAX
    ensures ReadEntry(p, Refresh, PrintNat(n)) == p.(config := p.config.(refreshMs := n))
  {
    PrintNatParses(n, U64_MAX);
  }

  lemma ReadProcessRefresh(p: Parsing, n: nat)
    requires n <= U64_MAX
    ensures ReadEntry(p, ProcessRefresh, PrintNat(n)) == p.(config := p.config.(processRefreshMs := n))
  {
    PrintNatParses(n, U64_MAX);
  }

  lemma ReadOfflineGrace(p: Parsing, n: nat)
    requires n <= U64_MAX
    ensures ReadEntry(p, OfflineGrace, PrintNat(n)) == p.(config := p.config.(offlineGraceMs := n))
  {
    PrintNatParses(n, U64_MAX);
  }

  lemma ReadNumberEntries(p: Parsing, c: AppConfig)
    requires c.refreshMs <= U64_MAX && c.processRefreshMs <= U64_MAX && c.offlineGraceMs <= U64_MAX
    ensures ReadEntry(ReadEntry(ReadEntry(p, Refresh, PrintNat(c.refreshMs)), ProcessRefresh, PrintNat(c.processRefreshMs)),
                      OfflineGrace, PrintNat(c.offlineGraceMs))
         == WithNumbers(p, c)
  {
    ReadRefresh(p, c.refreshMs);
    var p1 := p.(config := p.config.(refreshMs := c.refreshMs));
    ReadProcessRefresh(p1, c.processRefreshMs);
    ReadOfflineGrace(p1.(config := p1.config.(processRefreshMs := c.processRefreshMs)), c.offlineGraceMs);
  }

  lemma NumberReadable(key: string, setting: Setting, n: nat)
    requires '=' !in key && Trimmed(key) && SettingOf(key) == setting
    ensures Readable(key, setting, PrintNat(n))
  {
    PrintNatParses(n, n);
  }

  lemma NumbersReadable(c: AppConfig)
    ensures Readable("refresh_ms", Refresh, PrintNat(c.refreshMs))
    ensures Readable("process_refresh_ms", ProcessRefresh, PrintNat(c.processRefreshMs))
    ensures Readable("offline_grace_ms", OfflineGrace, PrintNat(c.offlineGraceMs))
  {
    NumberReadable("refresh_ms", Refresh, c.refreshMs);
    NumberReadable("process_refresh_ms", ProcessRefresh, c.processRefreshMs);
    NumberReadable("offline_grace_ms", OfflineGrace, c.offlineGraceMs);
  }

  lemma ReadNumbers(p: Parsing, c: AppConfig)
    requires c.refreshMs <= U64_MAX && c.processRefreshMs <= U64_MAX && c.offlineGraceMs <= U64_MAX
    ensures ReadLines(p, NumberLines(c)) == WithNumbers(p, c)
  {
    NumbersReadable(c);
    ReadThree(p, "refresh_ms", PrintNat(c.refreshMs), "process_refresh_ms", PrintNat(c.processRefreshMs),
      "offline_grace_ms", PrintNat(c.offlineGraceMs));
    ReadNumberEntries(p, c);
  }

  lemma AutoReadable(b: bool)
    ensures Readable("auto_discovery", AutoDiscovery, BoolText(b))
  {
  }

  lemma ReadAuto(p: Parsing, b: bool)
    ensures ReadEntry(p, AutoDiscovery, BoolText(b)) == p.(config := p.config.(autoDiscovery := b), sawAuto := true)
  {
    BoolReadsBack(b);
  }

  lemma ReadFixed(p: Parsing, c: AppConfig)
    requires c.refreshMs <= U64_MAX && c.processRefreshMs <= U64_MAX && c.offlineGraceMs <= U64_MAX
    ensures ReadLines(p, FixedLines(c)) ==
      p.(config := WithNumbers(p, c).config.(autoDiscovery := c.autoDiscovery), sawAuto := true)
  {
    ReadNumbers(p, c);
    ReadAuto(WithNumbers(p, c), c.autoDiscovery);
    AutoReadable(c.autoDiscovery);
    ReadOneMore(p, NumberLines(c), "auto_discovery", AutoDiscovery, BoolText(c.autoDiscovery));
  }

  lemma BoolReadsBack(b: bool)
    ensures ParseBool(BoolText(b)) == Some(b)
  {
    assert ToAsciiLower("true") == "true";
    assert ToAsciiLower("false") == "false";
  }

  lemma ReadBack(c: AppConfig)
    requires ConfigSanitized(c) && ServerOneLine(c) && OneLine(AsString(c.gpuSelector))
    ensures Finished(ReadLines(START, Lines(Join(ConfigLines(c)) + "\n")))
         == c.(gpuSelector := ParseSelector(AsString(c.gpuSelector)))
  {
    AllOneLine(c);
    JoinTerminated(ConfigLines(c));
    assert forall i :: 0 <= i < |ConfigLines(c)| ==> ConfigLines(c)[i] in ConfigLines(c) && PlainLine(ConfigLines(c)[i]);
    LinesOfTerminated(ConfigLines(c));
    ReadServerLines(c);
    var p1 := ReadLines(START, ServerLines(c));
    ReadServersLines(p1, c);
    ReadLinesAppend(START, ServerLines(c), ServersLines(c));
    var p2 := ReadLines(p1, ServersLines(c));
    ReadGpuLines(p2, c);
    ReadLinesAppend(START, ServerLines(c) + ServersLines(c), GpuLines(c));
    var p3 := ReadLines(p2, GpuLines(c));
    ReadFixed(p3, c);
    ReadLinesAppend(START, ServerLines(c) + ServersLines(c) + GpuLines(c), FixedLines(c));
  }

  // Nothing read can contain a line break.

  predicate ReadOneLine(p: Parsing) {
    ServerOneLine(p.config) && OneLine(AsString(p.config.gpuSelector))
  }

  lemma ReadServersOneLine(c: AppConfig, value: string)
    requires ServerOneLine(c) && OneLine(AsString(c.gpuSelector))
    ensures ServerOneLine(ReadServers(c, value)) && OneLine(AsString(ReadServers(c, value).gpuSelector))
  {
  }

  lemma ReadEntryOneLine(p: Parsing, setting: Setting, value: string)
    requires ReadOneLine(p) && OneLine(value)
    ensures ReadOneLine(ReadEntry(p, setting, value))
  {
    if setting.GpuKey? {
      ParsedSelectorOneLine(value);
    } else if setting.Servers? {
      ReadServersOneLine(p.config, value);
    }
  }

  lemma ReadLineOneLine(p: Parsing, line: string)
    requires ReadOneLine(p) && OneLine(line)
    ensures ReadOneLine(ReadLine(p, line))
  {
    var split := SplitOnce(line);
    if split.Some? {
      TrimTrims(split.value.1);
      ReadEntryOneLine(p, SettingOf(Trim(split.value.0)), Trim(split.value.1));
    }
  }

  lemma {:induction false} ReadLinesOneLine(p: Parsing, lines: seq<string>)
    requires ReadOneLine(p) && forall i :: 0 <= i < |lines| ==> OneLine(lines[i])
    ensures ReadOneLine(ReadLines(p, lines))
  {
    if lines != [] {
      var n := |lines| - 1;
      ReadLinesOneLine(p, lines[..n]);
      ReadLineOneLine(ReadLines(p, lines[..n]), lines[n]);
    }
  }

  lemma ParsedSelectorOneLine(value: string)
    requires OneLine(value)
    ensures OneLine(AsString(ParseSelector(value))) && OneLine(AsString(SanitizedSelector(ParseSelector(value))))
  {
    TrimTrims(value);
    var sel := ParseSelector(value);
    match sel
    case Index(n) => PrintNatParses(n, n);
    case Uuid(u) => TrimTrims(u);
    case PciBusId(b) =>
      TrimTrims(b);
      NormalizedOneLine(Trim(b));
    case Auto =>
  }

  lemma NormalizedOneLine(b: string)
    requires OneLine(b)
    ensures OneLine(NormalizePciBdf(b))
  {
    assert forall i :: 0 <= i < |b| ==> ToAsciiLower(b)[i] != '\n';
  }

  lemma ParsedOneLine(key: KeyFn, text: string)
    ensures ServerOneLine(Parsed(key, text)) && OneLine(AsString(Parsed(key, text).gpuSelector))
  {
    LinesAreLines(text);
    ReadLinesOneLine(START, Lines(text));
    var p := ReadLines(START, Lines(text));
    var c := Finished(p);
    if c.server.Some? {
      TrimTrims(c.server.value);
    }
    match c.gpuSelector
    case Index(n) => PrintNatParses(n, n);
    case Uuid(u) => TrimTrims(u);
    case PciBusId(b) =>
      TrimTrims(b);
      NormalizedOneLine(Trim(b));
    case Auto =>
  }

  lemma SanitizedIs(key: KeyFn, c: AppConfig)
    ensures ConfigSanitized(Sanitized(key, c))
  {
    if c.server.Some? {
      TrimTrims(c.server.value);
    }
    SanitizedIsSanitized(c.gpuSelector);
  }

  /** Config round trip: whatever text `servers` holds, a saved configuration
      reads back as its sanitized self exactly when the primary server has no
      line break and the selector is canonical. */
  lemma RoundTrip(key: KeyFn, config: AppConfig)
    ensures var c := Sanitized(key, config);
            Parsed(key, Rendered(key, config)) == c <==> ServerOneLine(c) && Canonical(c.gpuSelector)
  {
    var c := Sanitized(key, config);
    SanitizedIs(key, config);
    SanitizedTwice(key, config);
    ParsedOneLine(key, Rendered(key, config));
    CanonicalOneLine(c.gpuSelector);
    if ServerOneLine(c) && OneLine(AsString(c.gpuSelector)) {
      ReadBack(c);
      if c.gpuSelector != Auto {
        SelectorReadsBack(c.gpuSelector);
      }
    }
  }

  lemma CanonicalOneLine(sel: GpuSelector)
    ensures Canonical(sel) ==> OneLine(AsString(sel))
  {
    match sel
    case Index(n) => PrintNatParses(n, n);
    case _ =>
  }

  /** With a selector the user typed on one line: the round trip holds exactly
      when the server has no line break and the text has none of the misread
      prefixes. */
  lemma TypedRoundTrip(key: KeyFn, config: AppConfig, raw: string)
    requires config.gpuSelector == ParseSelector(raw) && OneLine(raw)
    ensures var c := Sanitized(key, config);
            Parsed(key, Rendered(key, config)) == c <==> ServerOneLine(c) && !Misread(Trim(raw))
  {
    RoundTrip(key, config);
    TypedIsCanonical(raw);
  }

  /** A saved one-line selector is read back as its text parses. */
  lemma SelectorReadBack(key: KeyFn, config: AppConfig)
    requires ServerOneLine(Sanitized(key, config)) && OneLine(AsString(Sanitized(key, config).gpuSelector))
    ensures Parsed(key, Rendered(key, config)).gpuSelector
         == SanitizedSelector(ParseSelector(AsString(Sanitized(key, config).gpuSelector)))
  {
    SanitizedIs(key, config);
    ReadBack(Sanitized(key, config));
  }

  /** A selector saved as an address whose text reads as something else comes back
      as that. */
  lemma SelectorChanges(key: KeyFn, config: AppConfig, stored: string, read: GpuSelector)
    requires ServerOneLine(Sanitized(key, config)) && OneLine(stored)
    requires SanitizedSelector(config.gpuSelector) == PciBusId(stored) && SanitizedSelector(ParseSelector(stored)) == read
    ensures Parsed(key, Rendered(key, config)).gpuSelector == read
  {
    SelectorReadBack(key, config);
  }

  /** The typed selector `Gpu-1a` is saved and comes back as another one. */
  lemma TypedSelectorChanges(key: KeyFn, config: AppConfig)
    requires config.gpuSelector == ParseSelector("Gpu-1a") && ServerOneLine(Sanitized(key, config))
    ensures Sanitized(key, config).gpuSelector == PciBusId("gpu-1a")
    ensures Parsed(key, Rendered(key, config)).gpuSelector == Uuid("GPU-1a")
  {
    MixedCaseIsMisread();
    SelectorChanges(key, config, "gpu-1a", Uuid("GPU-1a"));
  }
}
