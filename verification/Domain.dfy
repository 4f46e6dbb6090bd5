/** Shared domain values (src/domain.rs): optional values, saturating counters,
    clock readings and the description of one monitored server. */
module Domain {

  datatype Option<+T> = None | Some(value: T) {
    function GetOr(default: T): T {
      if Some? then value else default
    }
  }

  function Lookup<K, V>(m: map<K, V>, k: K): Option<V> {
    if k in m then Some(m[k]) else None
  }

  /** A 64-bit float as far as the runtime cares: a real, or NaN/infinity. */
  datatype Float = Finite(value: real) | NonFinite

  /** Monotonic clock readings and durations, in nanoseconds. */
  type Instant = nat
  type Duration = nat

  const NANOS_PER_SEC: nat := 1_000_000_000

  /** `Instant::saturating_duration_since`. */
  function SaturatingSince(now: Instant, at: Instant): Duration {
    if now >= at then now - at else 0
  }

  /** `Duration::as_secs_f64`, rounding aside. */
  function AsSecs(d: Duration): real {
    d as real / NANOS_PER_SEC as real
  }

  const U64_MAX: nat := 0xFFFF_FFFF_FFFF_FFFF

  function SaturatingAdd(a: nat, b: nat): nat {
    Saturate(a + b)
  }

  function Saturate(total: nat): nat {
    if total > U64_MAX then U64_MAX else total
  }

  /** Stands for `server_key`. */
  type KeyFn = string -> string

  /** PID plus process start time: survives PID reuse. */
  datatype LocalServerIdentity = LocalServerIdentity(pid: nat, startTime: nat)

  /** One monitored server; `key` is the stable identity of `endpoint`. */
  datatype ServerSpec = ServerSpec(key: string, endpoint: string, identity: Option<LocalServerIdentity>)

  /** The monitored head and the endpoints past the cap. */
  datatype ServerList = ServerList(monitored: seq<ServerSpec>, overflow: seq<ServerSpec>)

  const MAX_MONITORED_SERVERS: nat := 16

  function Keys(list: seq<ServerSpec>): (keys: seq<string>)
    ensures |keys| == |list|
    ensures forall i :: 0 <= i < |list| ==> keys[i] == list[i].key
  {
    seq(|list|, i requires 0 <= i < |list| => list[i].key)
  }

  predicate DistinctKeys(list: seq<ServerSpec>) {
    forall i, j :: 0 <= i < j < |list| ==> list[i].key != list[j].key
  }

  /** What list assembly guarantees about the monitored servers. */
  predicate ValidSet(list: seq<ServerSpec>) {
    && 0 < |list| <= MAX_MONITORED_SERVERS
    && DistinctKeys(list)
    && forall i :: 0 <= i < |list| ==> list[i].key != ""
  }

  /** The entry registered under `key` (a `find` over the list). */
  function EntryOf(list: seq<ServerSpec>, key: string): Option<ServerSpec> {
    if list == [] then None
    else if list[0].key == key then Some(list[0])
    else EntryOf(list[1..], key)
  }

  predicate HasKey(list: seq<ServerSpec>, key: string) {
    exists i :: 0 <= i < |list| && list[i].key == key
  }

  lemma {:induction false} EntryOfMember(list: seq<ServerSpec>, i: nat)
    requires i < |list| && DistinctKeys(list)
    ensures EntryOf(list, list[i].key) == Some(list[i])
  {
    if i > 0 {
      assert list[1..][i - 1] == list[i];
      EntryOfMember(list[1..], i - 1);
    }
  }

  lemma {:induction false} EntryOfHasKey(list: seq<ServerSpec>, key: string)
    ensures EntryOf(list, key).Some? <==> HasKey(list, key)
    ensures EntryOf(list, key).Some? ==> EntryOf(list, key).value in list && EntryOf(list, key).value.key == key
  {
    if list != [] {
      EntryOfHasKey(list[1..], key);
      if HasKey(list[1..], key) {
        var i :| 0 <= i < |list[1..]| && list[1..][i].key == key;
        assert list[i + 1].key == key;
      }
      if HasKey(list, key) && list[0].key != key {
        var i :| 0 <= i < |list| && list[i].key == key;
        assert list[1..][i - 1].key == key;
      }
    }
  }
}
