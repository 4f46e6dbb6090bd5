/** What each setting of a configuration text is: the latest usable value of its
    own key, wherever the other lines stand (src/config.rs). */
module ConfigFields {
  import opened Domain
  import opened Text
  import opened Json
  import opened Gpu
  import opened Config

  predicate IsEntry(line: string, key: Setting) {
    SplitOnce(line).Some? && SettingOf(Trim(SplitOnce(line).value.0)) == key
  }

  /** The values given for `key`, in order. */
  function Values(lines: seq<string>, key: Setting): seq<string> {
    if lines == [] then []
    else
      var rest, line := Values(lines[..|lines| - 1], key), lines[|lines| - 1];
      if IsEntry(line, key) then rest + [Trim(SplitOnce(line).value.1)] else rest
  }

  /** The latest value that reads as something. */
  function LastRead<T>(values: seq<string>, read: string -> Option<T>): Option<T> {
    if values == [] then None
    else if read(values[|values| - 1]).Some? then read(values[|values| - 1])
    else LastRead(values[..|values| - 1], read)
  }

  const NON_EMPTY := (v: string) => if v == "" then None else Some(v)
  const NUMBER := (v: string) => ParseUnsigned(v, U64_MAX)
  const INDEX := (v: string) => ParseU32(v)
  const BOOL := (v: string) => ParseBool(v)
  const SELECTOR := (v: string) => Some(ParseSelector(v))

  /** One `servers` value: a JSON array, or the legacy comma list. */
  function ServersIn(value: string): seq<string> {
    if value != "" && value[0] == '[' then ReadArray(value).GetOr([]) else CommaList(value)
  }

  function AllServers(values: seq<string>): seq<string> {
    if values == [] then [] else AllServers(values[..|values| - 1]) + ServersIn(values[|values| - 1])
  }

  lemma LastReadSnoc<T>(values: seq<string>, v: string, read: string -> Option<T>)
    ensures LastRead(values + [v], read) == if read(v).Some? then read(v) else LastRead(values, read)
  {
    assert (values + [v])[..|values|] == values;
  }

  lemma AllServersSnoc(values: seq<string>, v: string)
    ensures AllServers(values + [v]) == AllServers(values) + ServersIn(v)
  {
    assert (values + [v])[..|values|] == values;
  }

  // What reading has found so far, one key at a time.

  predicate ServerFound(p: Parsing, values: seq<string>) {
    var found := LastRead(values, NON_EMPTY);
    p.config.server == found && p.sawServer == found.Some?
  }

  predicate AutoFound(p: Parsing, values: seq<string>) {
    var found := LastRead(values, BOOL);
    p.config.autoDiscovery == found.GetOr(true) && p.sawAuto == found.Some?
  }

  predicate GpuFound(p: Parsing, values: seq<string>, legacy: seq<string>) {
    var found := LastRead(values, SELECTOR);
    && p.config.gpuSelector == found.GetOr(Auto) && p.sawGpu == found.Some?
    && (found.None? ==> p.legacyIndex == LastRead(legacy, INDEX))
  }

  predicate NumberFound(n: nat, values: seq<string>, default: nat) {
    n == LastRead(values, NUMBER).GetOr(default)
  }

  function With(values: seq<string>, given: Setting, key: Setting, value: string): seq<string> {
    if given == key then values + [value] else values
  }

  lemma ValuesSnoc(lines: seq<string>, line: string, key: Setting)
    ensures Values(lines + [line], key) ==
      match SplitOnce(line)
      case None => Values(lines, key)
      case Some((k, v)) => With(Values(lines, key), SettingOf(Trim(k)), key, Trim(v))
  {
    assert (lines + [line])[..|lines|] == lines;
  }

  lemma ServerEntry(p: Parsing, values: seq<string>, key: Setting, value: string)
    requires ServerFound(p, values)
    ensures ServerFound(ReadEntry(p, key, value), With(values, key, Server, value))
  {
    LastReadSnoc(values, value, NON_EMPTY);
  }

  lemma AutoEntry(p: Parsing, values: seq<string>, key: Setting, value: string)
    requires AutoFound(p, values)
    ensures AutoFound(ReadEntry(p, key, value), With(values, key, AutoDiscovery, value))
  {
    LastReadSnoc(values, value, BOOL);
  }

  lemma GpuEntry(p: Parsing, values: seq<string>, legacy: seq<string>, key: Setting, value: string)
    requires GpuFound(p, values, legacy)
    ensures GpuFound(ReadEntry(p, key, value), With(values, key, GpuKey, value), With(legacy, key, GpuIndexKey, value))
  {
    if key == GpuKey {
      LastReadSnoc(values, value, SELECTOR);
    } else if key == GpuIndexKey {
      LastReadSnoc(legacy, value, INDEX);
    }
  }

  lemma RefreshEntry(p: Parsing, values: seq<string>, key: Setting, value: string, default: nat)
    requires NumberFound(p.config.refreshMs, values, default)
    ensures NumberFound(ReadEntry(p, key, value).config.refreshMs, With(values, key, Refresh, value), default)
  {
    LastReadSnoc(values, value, NUMBER);
  }

  lemma ProcessRefreshEntry(p: Parsing, values: seq<string>, key: Setting, value: string, default: nat)
    requires NumberFound(p.config.processRefreshMs, values, default)
    ensures NumberFound(ReadEntry(p, key, value).config.processRefreshMs, With(values, key, ProcessRefresh, value), default)
  {
    LastReadSnoc(values, value, NUMBER);
  }

  lemma OfflineGraceEntry(p: Parsing, values: seq<string>, key: Setting, value: string, default: nat)
    requires NumberFound(p.config.offlineGraceMs, values, default)
    ensures NumberFound(ReadEntry(p, key, value).config.offlineGraceMs, With(values, key, OfflineGrace, value), default)
  {
    LastReadSnoc(values, value, NUMBER);
  }

  lemma ReadServersAdds(c: AppConfig, value: string)
    ensures ReadServers(c, value).servers == c.servers + ServersIn(value)
  {
  }

  lemma ServersEntry(p: Parsing, values: seq<string>, key: Setting, value: string)
    requires p.config.servers == AllServers(values)
    ensures ReadEntry(p, key, value).config.servers == AllServers(With(values, key, Servers, value))
  {
    if key == Servers {
      AllServersSnoc(values, value);
      ReadServersAdds(p.config, value);
    }
  }

  predicate AddressesFound(p: Parsing, lines: seq<string>) {
    && ServerFound(p, Values(lines, Server))
    && p.config.servers == AllServers(Values(lines, Servers))
  }

  predicate SwitchesFound(p: Parsing, lines: seq<string>) {
    && AutoFound(p, Values(lines, AutoDiscovery))
    && GpuFound(p, Values(lines, GpuKey), Values(lines, GpuIndexKey))
  }

  predicate NumbersFound(p: Parsing, lines: seq<string>) {
    && NumberFound(p.config.refreshMs, Values(lines, Refresh), 1_000)
    && NumberFound(p.config.processRefreshMs, Values(lines, ProcessRefresh), 1_000)
    && NumberFound(p.config.offlineGraceMs, Values(lines, OfflineGrace), 2_500)
  }

  lemma AddressesStep(p: Parsing, lines: seq<string>, line: string)
    requires AddressesFound(p, lines)
    ensures AddressesFound(ReadLine(p, line), lines + [line])
  {
    ValuesSnoc(lines, line, Server);
    ValuesSnoc(lines, line, Servers);
    var split := SplitOnce(line);
    if split.Some? {
      var key, value := SettingOf(Trim(split.value.0)), Trim(split.value.1);
      ServerEntry(p, Values(lines, Server), key, value);
      ServersEntry(p, Values(lines, Servers), key, value);
    }
  }

  lemma SwitchesStep(p: Parsing, lines: seq<string>, line: string)
    requires SwitchesFound(p, lines)
    ensures SwitchesFound(ReadLine(p, line), lines + [line])
  {
    ValuesSnoc(lines, line, AutoDiscovery);
    ValuesSnoc(lines, line, GpuKey);
    ValuesSnoc(lines, line, GpuIndexKey);
    var split := SplitOnce(line);
    if split.Some? {
      var key, value := SettingOf(Trim(split.value.0)), Trim(split.value.1);
      AutoEntry(p, Values(lines, AutoDiscovery), key, value);
      GpuEntry(p, Values(lines, GpuKey), Values(lines, GpuIndexKey), key, value);
    }
  }

  lemma NumbersStep(p: Parsing, lines: seq<string>, line: string)
    requires NumbersFound(p, lines)
    ensures NumbersFound(ReadLine(p, line), lines + [line])
  {
    ValuesSnoc(lines, line, Refresh);
    ValuesSnoc(lines, line, ProcessRefresh);
    ValuesSnoc(lines, line, OfflineGrace);
    var split := SplitOnce(line);
    if split.Some? {
      var key, value := SettingOf(Trim(split.value.0)), Trim(split.value.1);
      RefreshEntry(p, Values(lines, Refresh), key, value, 1_000);
      ProcessRefreshEntry(p, Values(lines, ProcessRefresh), key, value, 1_000);
      OfflineGraceEntry(p, Values(lines, OfflineGrace), key, value, 2_500);
    }
  }

  lemma LastLineRead(p: Parsing, lines: seq<string>)
    requires lines != []
    ensures ReadLines(p, lines) == ReadLine(ReadLines(p, lines[..|lines| - 1]), lines[|lines| - 1])
  {
  }

  lemma LastLine(lines: seq<string>)
    requires lines != []
    ensures lines == lines[..|lines| - 1] + [lines[|lines| - 1]]
  {
  }

  lemma {:induction false} AddressesInLines(lines: seq<string>)
    ensures AddressesFound(ReadLines(START, lines), lines)
  {
    if lines != [] {
      var front := lines[..|lines| - 1];
      LastLineRead(START, lines);
      LastLine(lines);
      AddressesInLines(front);
      AddressesStep(ReadLines(START, front), front, lines[|lines| - 1]);
    }
  }

  lemma {:induction false} SwitchesInLines(lines: seq<string>)
    ensures SwitchesFound(ReadLines(START, lines), lines)
  {
    if lines != [] {
      var front := lines[..|lines| - 1];
      LastLineRead(START, lines);
      LastLine(lines);
      SwitchesInLines(front);
      SwitchesStep(ReadLines(START, front), front, lines[|lines| - 1]);
    }
  }

  lemma {:induction false} NumbersInLines(lines: seq<string>)
    ensures NumbersFound(ReadLines(START, lines), lines)
  {
    if lines != [] {
      var front := lines[..|lines| - 1];
      LastLineRead(START, lines);
      LastLine(lines);
      NumbersInLines(front);
      NumbersStep(ReadLines(START, front), front, lines[|lines| - 1]);
    }
  }

  /** Every setting is the latest usable value of its own key, cleaned up. Two
      legacy rules join keys: a primary server without a usable
      `auto_discovery` turns discovery off, and `gpu_index` counts exactly when
      there is no `gpu` line at all, before it or after it. */
  lemma SettingsByKey(key: KeyFn, text: string)
    ensures var c, lines := Parsed(key, text), Lines(text);
            var server, auto := LastRead(Values(lines, Server), NON_EMPTY), LastRead(Values(lines, AutoDiscovery), BOOL);
            var gpu, legacy := LastRead(Values(lines, GpuKey), SELECTOR), LastRead(Values(lines, GpuIndexKey), INDEX);
      && c.server == TrimmedServer(server)
      && c.servers == CleanServers(key, AllServers(Values(lines, Servers)))
      && c.gpuSelector == SanitizedSelector(
           if gpu.Some? then gpu.value else if legacy.Some? then Index(legacy.value) else Auto)
      && c.autoDiscovery == auto.GetOr(server.None?)
  {
    AddressesInLines(Lines(text));
    SwitchesInLines(Lines(text));
  }

  lemma NumbersByKey(key: KeyFn, text: string)
    ensures var c, lines := Parsed(key, text), Lines(text);
      && c.refreshMs == Clamp(LastRead(Values(lines, Refresh), NUMBER).GetOr(1_000), 100, 10_000)
      && c.processRefreshMs == Clamp(LastRead(Values(lines, ProcessRefresh), NUMBER).GetOr(1_000), 100, 60_000)
      && c.offlineGraceMs == Clamp(LastRead(Values(lines, OfflineGrace), NUMBER).GetOr(2_500), 0, 60_000)
  {
    NumbersInLines(Lines(text));
  }
}
