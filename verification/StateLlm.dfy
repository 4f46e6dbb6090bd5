/** The per-server histories of the UI and the active mirror the panels draw
    (src/ui/state_llm.rs). */
module StateLlm {
  import opened Domain
  import opened Llama
  import opened History

  type Histories = map<string, LlmHistory>

  /** The value of the LLM part of `UiState`: the active history, the server
      it belongs to ("" for none yet) and every server's history. */
  datatype UiLlm = UiLlm(active: LlmHistory, activeKey: string, histories: Histories)

  const INITIAL_UI := UiLlm(EMPTY_HISTORY, "", map[])

  function HistoryOf(histories: Histories, key: string): LlmHistory {
    if key in histories then histories[key] else EMPTY_HISTORY
  }

  function Recorded(ui: UiLlm, key: string, selected: string, llm: LlmStats, now: Instant): UiLlm {
    if key == selected then
      var base := if ui.activeKey != key then EMPTY_HISTORY else ui.active;
      var next := Observed(base, llm, now);
      UiLlm(next, key, ui.histories[key := next])
    else
      ui.(histories := ui.histories[key := Observed(HistoryOf(ui.histories, key), llm, now)])
  }

  function Selected(ui: UiLlm, key: string): UiLlm {
    if ui.activeKey == key then ui
    else UiLlm(HistoryOf(ui.histories, key), key, ui.histories)
  }

  function Reset(ui: UiLlm, key: string): UiLlm {
    var dropped := ui.(histories := ui.histories - {key});
    if ui.activeKey == key then dropped.(active := EMPTY_HISTORY) else dropped
  }

  function Retained(ui: UiLlm, keys: set<string>): UiLlm {
    var kept := ui.(histories := map k | k in ui.histories && k in keys :: ui.histories[k]);
    if ui.activeKey != "" && ui.activeKey !in keys
    then kept.(active := EMPTY_HISTORY, activeKey := "")
    else kept
  }

  /** The mirror agrees with the map while `selected` is shown. */
  predicate Mirrors(ui: UiLlm, selected: string) {
    && ui.active == HistoryOf(ui.histories, selected)
    && (ui.activeKey == selected || (ui.activeKey == "" && ui.active == EMPTY_HISTORY))
  }

  class UiState {
    var llmHistory: LlmHistory
    var llmHistoryKey: string
    var llmHistories: Histories

    function View(): UiLlm
      reads this
    {
      UiLlm(llmHistory, llmHistoryKey, llmHistories)
    }

    constructor ()
      ensures View() == INITIAL_UI
    {
      llmHistory, llmHistoryKey, llmHistories := EMPTY_HISTORY, "", map[];
    }

    method RecordLlmSample(key: string, selected: string, llm: LlmStats, now: Instant)
      modifies this
      ensures View() == Recorded(old(View()), key, selected, llm, now)
    {
      if key == selected {
        if llmHistoryKey != key {
          llmHistory := EMPTY_HISTORY;
          llmHistoryKey := key;
        }
        llmHistory := Observed(llmHistory, llm, now);
        llmHistories := llmHistories[key := llmHistory];
      } else {
        llmHistories := llmHistories[key := Observed(HistoryOf(llmHistories, key), llm, now)];
      }
    }

    method SelectLlmHistory(key: string)
      modifies this
      ensures View() == Selected(old(View()), key)
    {
      if llmHistoryKey == key {
        return;
      }
      llmHistory := HistoryOf(llmHistories, key);
      llmHistoryKey := key;
    }

    method ResetLlmHistory(key: string)
      modifies this
      ensures View() == Reset(old(View()), key)
    {
      llmHistories := llmHistories - {key};
      if llmHistoryKey == key {
        llmHistory := EMPTY_HISTORY;
      }
    }

    method RetainLlmHistories(keys: set<string>)
      modifies this
      ensures View() == Retained(old(View()), keys)
    {
      llmHistories := map k | k in llmHistories && k in keys :: llmHistories[k];
      if llmHistoryKey != "" && llmHistoryKey !in keys {
        llmHistory := EMPTY_HISTORY;
        llmHistoryKey := "";
      }
    }
  }

  // What each operation means for the plain map of histories.

  /** Recording touches one server's history and keeps the mirror; no other
      server gains, loses or mixes a point. */
  lemma RecordRefines(ui: UiLlm, key: string, selected: string, llm: LlmStats, now: Instant)
    requires Mirrors(ui, selected) && selected != ""
    ensures Mirrors(Recorded(ui, key, selected, llm, now), selected)
    ensures forall k :: HistoryOf(Recorded(ui, key, selected, llm, now).histories, k)
                     == if k == key then Observed(HistoryOf(ui.histories, k), llm, now) else HistoryOf(ui.histories, k)
  {
  }

  /** Switching the shown server changes no history. */
  lemma SelectRefines(ui: UiLlm, previous: string, key: string)
    requires Mirrors(ui, previous) && key != ""
    ensures Mirrors(Selected(ui, key), key)
    ensures Selected(ui, key).histories == ui.histories
  {
  }

  lemma ResetRefines(ui: UiLlm, key: string, selected: string)
    requires Mirrors(ui, selected) && key != ""
    ensures Mirrors(Reset(ui, key), selected)
    ensures forall k :: HistoryOf(Reset(ui, key).histories, k)
                     == if k == key then EMPTY_HISTORY else HistoryOf(ui.histories, k)
  {
  }

  lemma RetainRefines(ui: UiLlm, keys: set<string>, selected: string)
    requires Mirrors(ui, selected) && selected != ""
    ensures selected in keys ==> Mirrors(Retained(ui, keys), selected)
    ensures selected !in keys ==>
              Retained(ui, keys).activeKey == "" && Retained(ui, keys).active == EMPTY_HISTORY
    ensures forall k :: HistoryOf(Retained(ui, keys).histories, k)
                     == if k in keys then HistoryOf(ui.histories, k) else EMPTY_HISTORY
  {
  }
}
