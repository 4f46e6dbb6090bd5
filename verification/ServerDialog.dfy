/** The settings dialog's list of additional servers (src/ui/state_settings.rs,
    src/server_editor.rs): how it is edited, and that its monitoring flags are
    right for every list it can hold. */
module ServerDialog {
  import opened Domain
  import opened Text
  import opened Config
  import opened ServerSet
  import opened MonitoredFlags

  const MAX_SERVER_DRAFT_CHARS: nat := 1024

  /** What `reqwest::Url` says of a trimmed text: it parses and names a host. */
  type UrlCheck = string -> bool

  predicate IsControl(c: char) {
    c < ' ' || '\U{7F}' <= c <= '\U{9F}'
  }

  /** The dialog's fields for the list. */
  datatype ListState = ListState(servers: seq<string>, index: nat, draft: Option<string>, editIndex: Option<nat>, error: bool)

  datatype Edit =
    | BeginAdd
    | BeginEdit
    | Delete
    | Insert(c: char)
    | Backspace
    | Cancel
    | Step(down: bool)
    | Commit(primary: Option<string>)

  /** `normalize_endpoint`. */
  function NormalizeEndpoint(hasHost: UrlCheck, raw: string): Option<string> {
    if Trim(raw) != "" && hasHost(Trim(raw)) then Some(Trim(raw)) else None
  }

  /** Some entry except the one at `skip` has the key. */
  predicate Taken(key: KeyFn, servers: seq<string>, skip: Option<nat>, k: string) {
    exists i :: 0 <= i < |servers| && Some(i) != skip && key(servers[i]) == k
  }

  /** The committed list, `None` when the draft is rejected. */
  function Committed(key: KeyFn, hasHost: UrlCheck, s: ListState, primary: Option<string>): Option<ListState>
    requires s.draft.Some?
  {
    match NormalizeEndpoint(hasHost, s.draft.value)
    case None => None
    case Some(endpoint) =>
      if (primary.Some? && key(primary.value) == key(endpoint)) || Taken(key, s.servers, s.editIndex, key(endpoint)) then None
      else if s.editIndex.Some? && s.editIndex.value < |s.servers| then
        Some(ListState(s.servers[s.editIndex.value := endpoint], s.editIndex.value, None, None, false))
      else Some(ListState(s.servers + [endpoint], |s.servers|, None, None, false))
  }

  function Highlight(s: ListState): nat {
    if s.servers == [] then 0 else if s.index < |s.servers| then s.index else |s.servers| - 1
  }

  function Edited(key: KeyFn, hasHost: UrlCheck, s: ListState, edit: Edit): ListState {
    match edit
    case BeginAdd => s.(draft := Some(""), editIndex := None, error := false)
    case BeginEdit =>
      if s.index < |s.servers| then s.(draft := Some(s.servers[s.index]), editIndex := Some(s.index), error := false) else s
    case Delete =>
      if s.index < |s.servers| then
        var left := s.servers[..s.index] + s.servers[s.index + 1..];
        s.(servers := left, error := false,
           index := if s.index >= |left| then (if left == [] then 0 else |left| - 1) else s.index)
      else s
    case Insert(c) =>
      var draft :=
        if s.draft.Some? && !IsControl(c) && !IsWhitespace(c) && |s.draft.value| < MAX_SERVER_DRAFT_CHARS
        then Some(s.draft.value + [c]) else s.draft;
      s.(draft := draft, error := false)
    case Backspace =>
      var draft := if s.draft.Some? && s.draft.value != "" then Some(s.draft.value[..|s.draft.value| - 1]) else s.draft;
      s.(draft := draft, error := false)
    case Cancel => s.(draft := None, editIndex := None, error := false)
    case Step(down) =>
      if down && Highlight(s) + 1 < |s.servers| then s.(index := Highlight(s) + 1, error := false)
      else if !down && Highlight(s) > 0 then s.(index := Highlight(s) - 1, error := false)
      else s
    case Commit(primary) =>
      if s.draft.None? then s
      else
        match Committed(key, hasHost, s, primary)
        case Some(t) => t
        case None => s.(error := true)
  }

  /** All entries but the one at `i`, in their order. */
  predicate WithoutAt(was: seq<string>, i: nat, now: seq<string>) {
    && i < |was| == |now| + 1
    && (forall j :: 0 <= j < i ==> now[j] == was[j])
    && forall j :: i <= j < |now| ==> now[j] == was[j + 1]
  }

  /** The draft is acceptable: it is a URL with a host, and names neither the
      primary nor any entry but the one it replaces. */
  predicate Acceptable(key: KeyFn, hasHost: UrlCheck, s: ListState, primary: Option<string>)
    requires s.draft.Some?
  {
    var endpoint := Trim(s.draft.value);
    && endpoint != "" && hasHost(endpoint)
    && (primary.Some? ==> key(primary.value) != key(endpoint))
    && forall j :: 0 <= j < |s.servers| && Some(j) != s.editIndex ==> key(s.servers[j]) != key(endpoint)
  }

  /** An acceptable draft replaces the entry being edited or joins at the end, and
      is closed; any other stays open with an error and changes nothing. */
  predicate CommitsDraft(key: KeyFn, hasHost: UrlCheck, s: ListState, primary: Option<string>, t: ListState) {
    if s.draft.None? then t == s
    else if !Acceptable(key, hasHost, s, primary) then t == s.(error := true)
    else
      && t.draft == None && t.editIndex == None && !t.error
      && (if s.editIndex.Some? && s.editIndex.value < |s.servers| then
            t.index == s.editIndex.value && t.servers == s.servers[s.editIndex.value := Trim(s.draft.value)]
          else t.index == |s.servers| && t.servers == s.servers + [Trim(s.draft.value)])
  }

  /** What each edit does to the list: deleting drops the highlighted entry and
      keeps the others in order, committing puts the draft in, nothing else
      touches it. */
  lemma EditsOfList(key: KeyFn, hasHost: UrlCheck, s: ListState, edit: Edit)
    ensures var t := Edited(key, hasHost, s, edit);
      match edit
      case Delete => if s.index < |s.servers| then WithoutAt(s.servers, s.index, t.servers) else t == s
      case Commit(primary) => CommitsDraft(key, hasHost, s, primary, t)
      case _ => t.servers == s.servers
  {
    if edit.Commit? && s.draft.Some? {
      AcceptableIsCommitted(key, hasHost, s, edit.primary);
    }
  }

  lemma AcceptableIsCommitted(key: KeyFn, hasHost: UrlCheck, s: ListState, primary: Option<string>)
    requires s.draft.Some?
    ensures Committed(key, hasHost, s, primary).Some? <==> Acceptable(key, hasHost, s, primary)
  {
  }

  function Opened(servers: seq<string>): ListState {
    ListState(servers, 0, None, None, false)
  }

  /** The dialog's list, edited in place. */
  class EndpointList {
    var servers: seq<string>
    var index: nat
    var draft: Option<string>
    var editIndex: Option<nat>
    var error: bool

    function View(): ListState
      reads this
    {
      ListState(servers, index, draft, editIndex, error)
    }

    /** `open_settings`. */
    constructor (configured: seq<string>)
      ensures View() == Opened(configured)
    {
      servers, index, draft, editIndex, error := configured, 0, None, None, false;
    }

    /** `settings_server_delete`. */
    method DeleteHighlighted()
      modifies this
      ensures forall key, hasHost :: View() == Edited(key, hasHost, old(View()), Delete)
      ensures old(index) < old(|servers|) ==> WithoutAt(old(servers), old(index), servers)
      ensures old(index) >= old(|servers|) ==> servers == old(servers)
    {
      if index < |servers| {
        servers := servers[..index] + servers[index + 1..];
        if index >= |servers| {
          index := if |servers| == 0 then 0 else |servers| - 1;
        }
        error := false;
      }
    }

    /** `find_duplicate` over every entry but the one being replaced. */
    method IsTaken(key: KeyFn, endpoint: string) returns (taken: bool)
      ensures taken <==> Taken(key, servers, editIndex, key(endpoint))
    {
      var i := 0;
      while i < |servers|
        invariant i <= |servers|
        invariant forall j :: 0 <= j < i && Some(j) != editIndex ==> key(servers[j]) != key(endpoint)
      {
        if Some(i) != editIndex && key(servers[i]) == key(endpoint) {
          return true;
        }
        i := i + 1;
      }
      taken := false;
    }

    /** `settings_server_draft_commit`. */
    method CommitDraft(key: KeyFn, hasHost: UrlCheck, primary: Option<string>)
      modifies this
      ensures View() == Edited(key, hasHost, old(View()), Commit(primary))
      ensures CommitsDraft(key, hasHost, old(View()), primary, View())
    {
      EditsOfList(key, hasHost, View(), Commit(primary));
      if draft.None? {
        return;
      }
      var normalized := NormalizeEndpoint(hasHost, draft.value);
      if normalized.None? {
        error := true;
        return;
      }
      var endpoint := normalized.value;
      if primary.Some? && key(primary.value) == key(endpoint) {
        error := true;
        return;
      }
      var taken := IsTaken(key, endpoint);
      if taken {
        error := true;
        return;
      }
      if editIndex.Some? && editIndex.value < |servers| {
        servers := servers[editIndex.value := endpoint];
        index := editIndex.value;
      } else {
        servers := servers + [endpoint];
        index := |servers| - 1;
      }
      draft, editIndex, error := None, None, false;
    }
  }

  // ---------------------------------------------------------------------
  // Every list the dialog can hold
  // ---------------------------------------------------------------------

  function AllEdited(key: KeyFn, hasHost: UrlCheck, s: ListState, edits: seq<Edit>): ListState {
    if edits == [] then s
    else Edited(key, hasHost, AllEdited(key, hasHost, s, edits[..|edits| - 1]), edits[|edits| - 1])
  }

  lemma CommitKeepsClean(key: KeyFn, hasHost: UrlCheck, s: ListState, primary: Option<string>)
    requires Clean(key, s.servers) && s.draft.Some? && Committed(key, hasHost, s, primary).Some?
    ensures Clean(key, Committed(key, hasHost, s, primary).value.servers)
  {
    TrimTrims(s.draft.value);
    var endpoint := Trim(s.draft.value);
    assert !Taken(key, s.servers, s.editIndex, key(endpoint));
    assert forall i :: 0 <= i < |s.servers| && Some(i) != s.editIndex ==> key(s.servers[i]) != key(endpoint);
  }

  lemma EditKeepsClean(key: KeyFn, hasHost: UrlCheck, s: ListState, edit: Edit)
    requires Clean(key, s.servers)
    ensures Clean(key, Edited(key, hasHost, s, edit).servers)
  {
    if edit.Commit? && s.draft.Some? && Committed(key, hasHost, s, edit.primary).Some? {
      CommitKeepsClean(key, hasHost, s, edit.primary);
    }
  }

  lemma {:induction false} EditsKeepClean(key: KeyFn, hasHost: UrlCheck, s: ListState, edits: seq<Edit>)
    requires Clean(key, s.servers)
    ensures Clean(key, AllEdited(key, hasHost, s, edits).servers)
  {
    if edits != [] {
      EditsKeepClean(key, hasHost, s, edits[..|edits| - 1]);
      EditKeepsClean(key, hasHost, AllEdited(key, hasHost, s, edits[..|edits| - 1]), edits[|edits| - 1]);
    }
  }

  /** Saving the dialog keeps its list word for word, after any edits of any
      loaded configuration. */
  lemma DialogListIsSaved(key: KeyFn, hasHost: UrlCheck, c: AppConfig, edits: seq<Edit>)
    ensures var servers := AllEdited(key, hasHost, Opened(Sanitized(key, c).servers), edits).servers;
            CleanServers(key, servers) == servers
  {
    var s := Opened(Sanitized(key, c).servers);
    CleanServersClean(key, c.servers);
    EditsKeepClean(key, hasHost, s, edits);
    CleanKept(key, AllEdited(key, hasHost, s, edits).servers);
  }

  /** Every flag the dialog shows is right: for any loaded configuration, any
      edits, any primary it would save and anything discovered, an entry is
      flagged as monitored exactly when the runtime will poll it. */
  lemma DialogFlagsAreRight(key: KeyFn, hasHost: UrlCheck, c: AppConfig, edits: seq<Edit>, primary: Option<string>,
    discovered: seq<Candidate>, default: string, i: nat)
    requires IsServerKey(key) && (primary.Some? ==> Trim(primary.value) != "")
    requires i < |AllEdited(key, hasHost, Opened(Sanitized(key, c).servers), edits).servers|
    ensures var extras := AllEdited(key, hasHost, Opened(Sanitized(key, c).servers), edits).servers;
            key(extras[i]) in Head(Firsts(KeysOf(key, Endpoints(primary, extras)))) <==>
            Polled(key, primary, extras, discovered, default, extras[i])
  {
    var s := Opened(Sanitized(key, c).servers);
    CleanServersClean(key, c.servers);
    EditsKeepClean(key, hasHost, s, edits);
    var extras := AllEdited(key, hasHost, s, edits).servers;
    CleanIsNotBlank(key, primary, extras);
    FlagsRightWithoutBlanks(key, primary, extras, discovered, default, i);
  }

  lemma CleanIsNotBlank(key: KeyFn, primary: Option<string>, extras: seq<string>)
    requires Clean(key, extras) && (primary.Some? ==> Trim(primary.value) != "")
    ensures forall e :: e in Endpoints(primary, extras) ==> Trim(e) != ""
  {
    forall i | 0 <= i < |extras|
      ensures Trim(extras[i]) != ""
    {
      TrimTrims(extras[i]);
    }
  }
}
