/** What every app step keeps (src/app.rs, src/app/server.rs,
    src/app/loop_events.rs). */
module AppFacts {
  import opened Domain
  import opened History
  import opened StateLlm
  import opened Messages
  import opened AppLoop

  /** The app's collections describe one and the same server set. */
  predicate AppAgrees(a: AppState) {
    && ValidSet(a.serverList)
    && a.order == Keys(a.serverList)
    && a.endpoints == EndpointMap(a.serverList)
    && a.registry.Keys <= a.endpoints.Keys
    && a.selected in a.endpoints
    && a.llm == Registered(a.registry, a.selected)
    && Mirrors(a.ui, a.selected)
    && a.ui.histories.Keys <= a.endpoints.Keys
  }

  lemma {:induction false} EndpointMapIs(list: seq<ServerSpec>)
    requires DistinctKeys(list)
    ensures forall k :: k in EndpointMap(list) <==> HasKey(list, k)
    ensures forall i :: 0 <= i < |list| ==> list[i].key in EndpointMap(list) && EndpointMap(list)[list[i].key] == list[i].endpoint
  {
    if list != [] {
      var n := |list| - 1;
      EndpointMapIs(list[..n]);
      forall k
        ensures HasKey(list, k) <==> HasKey(list[..n], k) || list[n].key == k
      {
        HasKeySplit(list, k);
      }
      forall i | 0 <= i < n
        ensures list[i] == list[..n][i] && list[i].key != list[n].key
      {
      }
    }
  }

  lemma HasKeySplit(list: seq<ServerSpec>, k: string)
    requires list != []
    ensures HasKey(list, k) <==> HasKey(list[..|list| - 1], k) || list[|list| - 1].key == k
  {
    var n := |list| - 1;
    if HasKey(list, k) && list[n].key != k {
      var i :| 0 <= i < |list| && list[i].key == k;
      assert list[..n][i].key == k;
    }
    if HasKey(list[..n], k) {
      var i :| 0 <= i < n && list[..n][i].key == k;
      assert list[i].key == k;
    }
  }

  lemma {:induction false} IdentityMapIs(list: seq<ServerSpec>, key: string)
    requires DistinctKeys(list)
    ensures key in IdentityMap(list) <==> EntryOf(list, key).Some?
    ensures key in IdentityMap(list) ==> IdentityMap(list)[key] == EntryOf(list, key).value.identity
  {
    if list != [] {
      var n := |list| - 1;
      IdentityMapIs(list[..n], key);
      EntryOfHasKey(list, key);
      EntryOfHasKey(list[..n], key);
      HasKeySplit(list, key);
      if list[n].key == key {
        EntryOfMember(list, n);
      } else if HasKey(list[..n], key) {
        var i :| 0 <= i < n && list[..n][i].key == key;
        EntryOfMember(list[..n], i);
        EntryOfMember(list, i);
      }
    }
  }

  /** A server continues over a set change when it stays with its identity. */
  predicate Continues(previous: seq<ServerSpec>, list: seq<ServerSpec>, key: string) {
    && EntryOf(previous, key).Some?
    && EntryOf(list, key).Some?
    && EntryOf(previous, key).value.identity == EntryOf(list, key).value.identity
  }

  lemma {:induction false} RestartedKeysAre(previous: map<string, Option<LocalServerIdentity>>, list: seq<ServerSpec>, key: string)
    ensures key in RestartedKeys(previous, list)
       <==> exists i :: 0 <= i < |list| && list[i].key == key && Restarted(previous, list[i])
  {
    if list != [] {
      var n := |list| - 1;
      RestartedKeysAre(previous, list[..n], key);
      if exists i :: 0 <= i < |list| && list[i].key == key && Restarted(previous, list[i]) {
        var i :| 0 <= i < |list| && list[i].key == key && Restarted(previous, list[i]);
        assert i < n ==> list[..n][i] == list[i];
      }
      if exists i :: 0 <= i < n && list[..n][i].key == key && Restarted(previous, list[..n][i]) {
        var i :| 0 <= i < n && list[..n][i].key == key && Restarted(previous, list[..n][i]);
        assert list[i] == list[..n][i];
      }
    }
  }

  /** The reset keys are the servers in both sets whose process changed. */
  lemma ChangedIdentityKeysAre(previous: seq<ServerSpec>, list: seq<ServerSpec>, key: string)
    requires DistinctKeys(previous) && DistinctKeys(list)
    ensures key in ChangedIdentityKeys(previous, list)
       <==> EntryOf(previous, key).Some? && EntryOf(list, key).Some? && !Continues(previous, list, key)
  {
    RestartedKeysAre(IdentityMap(previous), list, key);
    IdentityMapIs(previous, key);
    EntryOfHasKey(list, key);
    if HasKey(list, key) {
      var j :| 0 <= j < |list| && list[j].key == key;
      EntryOfMember(list, j);
      forall i | 0 <= i < |list| && list[i].key == key
        ensures i == j
      {
      }
    }
  }

  lemma {:induction false} ResetAllRefines(ui: UiLlm, keys: seq<string>, selected: string)
    requires Mirrors(ui, selected) && forall k :: k in keys ==> k != ""
    ensures Mirrors(ResetAll(ui, keys), selected)
    ensures ResetAll(ui, keys).histories.Keys <= ui.histories.Keys
    ensures forall k :: HistoryOf(ResetAll(ui, keys).histories, k)
                     == if k in keys then EMPTY_HISTORY else HistoryOf(ui.histories, k)
  {
    if keys != [] {
      var n := |keys| - 1;
      assert keys == keys[..n] + [keys[n]];
      assert keys[n] in keys && forall k :: k in keys[..n] ==> k in keys;
      ResetAllRefines(ui, keys[..n], selected);
      ResetRefines(ResetAll(ui, keys[..n]), keys[n], selected);
    }
  }

  lemma RestartedNonEmpty(previous: map<string, Option<LocalServerIdentity>>, list: seq<ServerSpec>)
    requires ValidSet(list)
    ensures forall k :: k in RestartedKeys(previous, list) ==> k != ""
  {
    forall k | k in RestartedKeys(previous, list)
      ensures k != ""
    {
      RestartedKeysAre(previous, list, k);
    }
  }

  /** After a set change each server keeps its history exactly when it
      continues, and the mirror still shows the selected one. */
  lemma HistoriesForRefines(ui: UiLlm, previous: seq<ServerSpec>, list: seq<ServerSpec>, selected: string)
    requires ValidSet(previous) && ValidSet(list)
    requires Mirrors(ui, selected) && selected != "" && ui.histories.Keys <= EndpointMap(previous).Keys
    ensures var after := HistoriesFor(ui, previous, list);
      && after.histories.Keys <= EndpointMap(list).Keys
      && (selected in EndpointMap(list) ==> Mirrors(after, selected))
      && (selected !in EndpointMap(list) ==> after.activeKey == "" && after.active == EMPTY_HISTORY)
      && forall k :: HistoryOf(after.histories, k)
                  == if Continues(previous, list, k) then HistoryOf(ui.histories, k) else EMPTY_HISTORY
  {
    var changed := ChangedIdentityKeys(previous, list);
    RestartedNonEmpty(IdentityMap(previous), list);
    ResetAllRefines(ui, changed, selected);
    RetainRefines(ResetAll(ui, changed), EndpointMap(list).Keys, selected);
    EndpointMapIs(list);
    EndpointMapIs(previous);
    forall k
      ensures HistoryOf(HistoriesFor(ui, previous, list).histories, k)
           == if Continues(previous, list, k) then HistoryOf(ui.histories, k) else EMPTY_HISTORY
    {
      ChangedIdentityKeysAre(previous, list, k);
      EntryOfHasKey(list, k);
      EntryOfHasKey(previous, k);
    }
  }

  lemma StartedAgrees(list: ServerList, defaultSelected: string)
    requires ValidSet(list.monitored)
    ensures AppAgrees(Started(list, defaultSelected).0)
  {
    EndpointMapIs(list.monitored);
  }

  lemma ReplacedAgrees(a: AppState, list: seq<ServerSpec>)
    requires AppAgrees(a) && ValidSet(list)
    ensures AppAgrees(Replaced(a, list))
    ensures forall k :: HistoryOf(Replaced(a, list).ui.histories, k)
                     == if Continues(a.serverList, list, k) then HistoryOf(a.ui.histories, k) else EMPTY_HISTORY
  {
    EndpointMapIs(list);
    EndpointMapIs(a.serverList);
    HistoriesForRefines(a.ui, a.serverList, list, a.selected);
    assert list[0].key in EndpointMap(list);
  }

  lemma SyncedAgrees(a: AppState, next: ServerList)
    requires AppAgrees(a) && ValidSet(next.monitored)
    ensures AppAgrees(Synced(a, next).0)
  {
    if next.monitored != a.serverList {
      ReplacedAgrees(a.(overflow := next.overflow), next.monitored);
    }
  }

  lemma ChosenAgrees(a: AppState, highlighted: nat)
    requires AppAgrees(a)
    ensures AppAgrees(Chosen(a, highlighted).0)
    ensures Chosen(a, highlighted).0.ui.histories == a.ui.histories
  {
    EndpointMapIs(a.serverList);
    var i := if highlighted < |a.order| then highlighted else |a.order| - 1;
    SelectRefines(a.ui, a.selected, a.order[i]);
  }

  lemma LlmAppliedAgrees(a: AppState, sample: LlmSample, now: Instant)
    requires AppAgrees(a)
    ensures AppAgrees(LlmApplied(a, sample, now))
  {
    EndpointMapIs(a.serverList);
    if Accepts(a, sample) {
      RecordRefines(a.ui, sample.server, a.selected, sample.stats, now);
    }
  }
}
