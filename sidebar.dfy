/**
 * The sidebar's session bookkeeping: the open chat tabs, the active tab,
 * title generation from the first user message, the history list and its
 * time labels.
 *
 * `Date.now()` is the parameter `now`, `new Date().toISOString()` the
 * parameter `nowIso`; the elapsed time of a stored timestamp and the
 * `toLocaleDateString` label are parameters of the history list.
 */
module Sidebar {
  import opened Wrappers
  import Str
  import Chat
  import SessionStorage

  type ChatSession = SessionStorage.StoredSession

  // ---------------------------------------------------------------------
  // Message comparison
  // ---------------------------------------------------------------------

  /** The fields the sidebar compares: id, content, role and streaming. */
  predicate Agree(x: Chat.ChatMessage, y: Chat.ChatMessage)
  {
    x.id == y.id && x.content == y.content && x.role == y.role && x.streaming == y.streaming
  }

  predicate SameMessages(a: seq<Chat.ChatMessage>, b: seq<Chat.ChatMessage>)
  {
    |a| == |b| && forall i :: 0 <= i < |a| ==> Agree(a[i], b[i])
  }

  /** `areMessagesEqual` */
  method AreMessagesEqual(a: seq<Chat.ChatMessage>, b: seq<Chat.ChatMessage>) returns (r: bool)
    ensures r <==> SameMessages(a, b)
  {
    if |a| != |b| {
      return false;
    }
    var i := 0;
    while i < |a|
      invariant 0 <= i <= |a|
      invariant forall k :: 0 <= k < i ==> Agree(a[k], b[k])
    {
      if a[i].id != b[i].id || a[i].content != b[i].content || a[i].role != b[i].role || a[i].streaming != b[i].streaming {
        return false;
      }
      i := i + 1;
    }
    return true;
  }

  lemma SameMessagesReflexive(a: seq<Chat.ChatMessage>)
    ensures SameMessages(a, a)
  {
  }

  lemma SameMessagesSymmetric(a: seq<Chat.ChatMessage>, b: seq<Chat.ChatMessage>)
    ensures SameMessages(a, b) <==> SameMessages(b, a)
  {
  }

  lemma SameMessagesTransitive(a: seq<Chat.ChatMessage>, b: seq<Chat.ChatMessage>, c: seq<Chat.ChatMessage>)
    requires SameMessages(a, b) && SameMessages(b, c)
    ensures SameMessages(a, c)
  {
  }

  // ---------------------------------------------------------------------
  // Titles
  // ---------------------------------------------------------------------

  const TitleLimit := 20
  const Ellipsis := "..."
  const DefaultNamePrefix := "Chat "

  /** Text whose only white space is single spaces between other characters. */
  predicate Tidy(s: string)
  {
    (forall i :: 0 <= i < |s| && Str.IsWs(s[i]) ==> s[i] == ' ')
    && (forall i :: 0 <= i < |s| - 1 && s[i] == ' ' ==> s[i + 1] != ' ')
  }

  /** `s.replace(/\s+/g, ' ')` */
  function Collapse(s: string): (r: string)
    ensures |r| <= |s|
    ensures Tidy(r)
    ensures s != [] && !Str.IsWs(s[0]) ==> r != [] && r[0] == s[0]
    ensures s != [] && !Str.IsWs(s[|s| - 1]) ==> r != [] && r[|r| - 1] == s[|s| - 1]
    decreases |s|
  {
    if s == [] then []
    else if Str.IsWs(s[0]) then
      var t := Str.TrimStart(s[1..]);
      assert t != [] ==> !Str.IsWs(t[0]) && t[|t| - 1] == s[|s| - 1];
      " " + Collapse(t)
    else [s[0]] + Collapse(s[1..])
  }

  /** Collapsing leaves tidy text as it is. */
  lemma {:induction false} CollapseTidy(s: string)
    requires Tidy(s)
    ensures Collapse(s) == s
    decreases |s|
  {
    if s != [] {
      assert Tidy(s[1..]);
      CollapseTidy(s[1..]);
      if Str.IsWs(s[0]) {
        assert s[1..] == [] || !Str.IsWs(s[1]);
        assert Str.TrimStart(s[1..]) == s[1..];
        assert Collapse(s) == " " + Collapse(s[1..]);
        assert s == [' '] + s[1..];
      } else {
        assert Collapse(s) == [s[0]] + Collapse(s[1..]);
        assert s == [s[0]] + s[1..];
      }
    }
  }

  /** The message as `generateChatTitle` cleans it: trimmed, white-space runs made one space. */
  function Cleaned(message: string): (r: string)
    ensures Tidy(r)
    ensures r == [] || (!Str.IsWs(r[0]) && !Str.IsWs(r[|r| - 1]))
  {
    var t := Str.Trim(message);
    assert t == [] || (!Str.IsWs(t[0]) && !Str.IsWs(t[|t| - 1])) by {
      var _ := Str.TrimBounds(message);
    }
    Collapse(t)
  }

  /** `generateChatTitle` */
  function Title(message: string): (r: string)
    ensures |r| <= TitleLimit + |Ellipsis|
    ensures |Cleaned(message)| <= TitleLimit ==> r == Cleaned(message)
    ensures |Cleaned(message)| > TitleLimit ==> r == Cleaned(message)[..TitleLimit] + Ellipsis
  {
    var c := Cleaned(message);
    if |c| <= TitleLimit then c else c[..TitleLimit] + Ellipsis
  }

  /** Cleaning is idempotent: a short title is its own title. */
  lemma TitleOfShortTitle(message: string)
    requires |Title(message)| <= TitleLimit
    ensures Title(Title(message)) == Title(message)
  {
    var c := Cleaned(message);
    assert Title(message) == c;
    Str.TrimOfClean(c);
    CollapseTidy(c);
  }

  /** `messages.filter(m => m.role === 'user')` */
  function UserMessages(messages: seq<Chat.ChatMessage>): (r: seq<Chat.ChatMessage>)
    ensures |r| <= |messages|
    ensures forall m :: m in r <==> m in messages && m.role == Chat.User
  {
    if messages == [] then []
    else (if messages[0].role == Chat.User then [messages[0]] else []) + UserMessages(messages[1..])
  }

  /** `shouldGenerateTitle` */
  predicate ShouldGenerateTitle(session: ChatSession)
  {
    |session.messages| > 0 && |UserMessages(session.messages)| == 1 && Str.StartsWith(session.name, DefaultNamePrefix)
  }

  /** The message-sync update of one session: new messages, new timestamp, and a title when it is due. */
  function Resynced(session: ChatSession, chat: seq<Chat.ChatMessage>, nowIso: string): (r: ChatSession)
    ensures r.id == session.id && r.sessionId == session.sessionId
    ensures SameMessages(session.messages, chat) ==> r == session
    ensures !SameMessages(session.messages, chat) ==> r.messages == chat && r.timestamp == nowIso
    ensures !SameMessages(session.messages, chat) ==>
      r.name == if ShouldGenerateTitle(session.(messages := chat)) then Title(UserMessages(chat)[0].content) else session.name
  {
    if SameMessages(session.messages, chat) then session
    else
      var updated := session.(messages := chat, timestamp := nowIso);
      if ShouldGenerateTitle(updated) then updated.(name := Title(UserMessages(chat)[0].content)) else updated
  }

  /** The message-sync update of the session list: only the active sessions change. */
  function SyncSessions(sessions: seq<ChatSession>, active: string, chat: seq<Chat.ChatMessage>, nowIso: string)
    : (r: seq<ChatSession>)
    ensures |r| == |sessions|
    ensures forall k :: 0 <= k < |r| ==> r[k] == if sessions[k].id == active then Resynced(sessions[k], chat, nowIso) else sessions[k]
  {
    if sessions == [] then []
    else
      var head := if sessions[0].id == active then Resynced(sessions[0], chat, nowIso) else sessions[0];
      [head] + SyncSessions(sessions[1..], active, chat, nowIso)
  }

  /** The back-end session id update: `newSessionId || undefined` on the active sessions. */
  function WithBackendId(sessions: seq<ChatSession>, active: string, backendId: string): (r: seq<ChatSession>)
    ensures |r| == |sessions|
    ensures forall k :: 0 <= k < |r| ==>
      r[k] == if sessions[k].id == active then sessions[k].(sessionId := if backendId == "" then None else Some(backendId))
              else sessions[k]
  {
    if sessions == [] then []
    else
      var head := if sessions[0].id == active then sessions[0].(sessionId := if backendId == "" then None else Some(backendId))
                  else sessions[0];
      [head] + WithBackendId(sessions[1..], active, backendId)
  }

  /** `createNewSession`: id and default name from the clock. */
  function NewSession(now: nat, nowIso: string): (r: ChatSession)
    ensures r.id == Str.NatToString(now) && r.name == DefaultNamePrefix + r.id
    ensures r.messages == [] && r.sessionId == None && r.timestamp == nowIso
  {
    SessionStorage.StoredSession(Str.NatToString(now), DefaultNamePrefix + Str.NatToString(now), None, [], nowIso)
  }

  /** The sessions the sidebar opens with: the stored ones, or one newTab session that picks up a legacy id. */
  function InitialSessions(stored: seq<ChatSession>, legacy: Option<string>, now: nat, nowIso: string)
    : (r: seq<ChatSession>)
    ensures |r| >= 1
    ensures |stored| > 0 ==> r == stored
    ensures |stored| == 0 ==> r == [NewSession(now, nowIso).(sessionId := legacy)]
  {
    if |stored| > 0 then stored else [NewSession(now, nowIso).(sessionId := legacy)]
  }

  predicate DistinctIds(sessions: seq<ChatSession>)
  {
    forall i, j :: 0 <= i < j < |sessions| ==> sessions[i].id != sessions[j].id
  }

  predicate HasId(sessions: seq<ChatSession>, id: string)
  {
    SessionStorage.Find(sessions, id).Some?
  }

  /** With distinct ids, closing one of at least two sessions leaves some open. */
  lemma {:induction false} WithoutDistinctNonEmpty(sessions: seq<ChatSession>, id: string)
    requires |sessions| >= 2 && DistinctIds(sessions)
    ensures SessionStorage.Without(sessions, id) != []
  {
    if sessions[0].id != id {
      assert sessions[0] in SessionStorage.Without(sessions, id);
    } else {
      assert sessions[1].id != id;
      assert sessions[1] in SessionStorage.Without(sessions, id);
    }
  }

  /** `lastLoadedRef`: which session was last loaded into the chat, by id, length and last message id. */
  datatype LoadMark = LoadMark(sessionId: string, length: int, lastId: Option<string>)

  const NoMark := LoadMark("", -1, None)

  /** The mark of a session's current messages. */
  function MarkOf(s: ChatSession): (r: LoadMark)
    ensures r.sessionId == s.id && r.length == |s.messages|
    ensures r.lastId.Some? <==> |s.messages| > 0
    ensures |s.messages| > 0 ==> r.lastId.value == s.messages[|s.messages| - 1].id
  {
    LoadMark(s.id, |s.messages|, if |s.messages| > 0 then Some(s.messages[|s.messages| - 1].id) else None)
  }

  /** No session's mark is the initial one, so the first load always happens. */
  lemma NoMarkUnmatched(s: ChatSession)
    ensures MarkOf(s) != NoMark
  {
  }

  /** The open tabs and the active one. */
  class SidebarState {
    var sessions: seq<ChatSession>
    var activeSessionId: string
    var lastSynced: seq<Chat.ChatMessage>
    var lastLoaded: LoadMark
    var initialized: bool

    ghost predicate Valid()
      reads this
    {
      |sessions| >= 1 && HasId(sessions, activeSessionId)
    }

    /** The first render: stored sessions, else a new session carrying the legacy id; the first is active. */
    constructor (store: SessionStorage.LocalStore, parse: string -> SessionStorage.Parsed, now: nat, nowIso: string)
      ensures sessions == InitialSessions(store.Sessions(parse), SessionStorage.LegacySession(store.windowPresent, store.items), now, nowIso)
      ensures activeSessionId == sessions[0].id && lastSynced == []
      ensures lastLoaded == NoMark && !initialized
      ensures Valid()
    {
      var stored := store.LoadSessions(parse);
      var initial := stored;
      if |stored| == 0 {
        var legacy := store.MigrateLegacySession();
        initial := [NewSession(now, nowIso).(sessionId := legacy)];
      }
      sessions := initial;
      activeSessionId := initial[0].id;
      lastSynced := [];
      lastLoaded := NoMark;
      initialized := false;
    }

    /**
     * The initialising effect: on the first run the first session's messages,
     * when it has any, are loaded into the chat and remembered as synced.
     * `loaded` is what `loadMessages` receives.
     */
    method OnInitialize() returns (loaded: Option<seq<Chat.ChatMessage>>)
      requires Valid()
      modifies this
      ensures sessions == old(sessions) && activeSessionId == old(activeSessionId) && initialized
      ensures var first := old(sessions)[0];
        if !old(initialized) && |first.messages| > 0 then
          lastLoaded == MarkOf(first) && lastSynced == first.messages && loaded == Some(first.messages)
        else
          lastLoaded == old(lastLoaded) && lastSynced == old(lastSynced) && loaded.None?
      ensures Valid()
    {
      loaded := None;
      if initialized {
        return;
      }
      initialized := true;
      var first := sessions[0];
      if |first.messages| > 0 {
        lastLoaded := MarkOf(first);
        lastSynced := first.messages;
        loaded := Some(first.messages);
      }
    }

    /**
     * The session-switch effect: once initialised, the active session's
     * messages are loaded into the chat unless its mark is the one last
     * loaded; a load also remembers them as synced.
     */
    method OnActiveSessionLoad() returns (loaded: Option<seq<Chat.ChatMessage>>)
      requires Valid()
      modifies this
      ensures sessions == old(sessions) && activeSessionId == old(activeSessionId) && initialized == old(initialized)
      ensures var s := SessionStorage.Find(old(sessions), old(activeSessionId));
        if old(initialized) && s.Some? && MarkOf(s.value) != old(lastLoaded) then
          lastLoaded == MarkOf(s.value) && lastSynced == s.value.messages && loaded == Some(s.value.messages)
        else
          lastLoaded == old(lastLoaded) && lastSynced == old(lastSynced) && loaded.None?
      ensures Valid()
    {
      loaded := None;
      if !initialized {
        return;
      }
      var s := SessionStorage.Find(sessions, activeSessionId);
      if s.None? {
        return;
      }
      var mark := MarkOf(s.value);
      if mark == lastLoaded {
        return;
      }
      lastLoaded := mark;
      lastSynced := s.value.messages;
      loaded := Some(s.value.messages);
    }

    /** `handleSessionIdChange` */
    method OnSessionIdChange(store: SessionStorage.LocalStore, backendId: string,
                             stringify: seq<ChatSession> -> string, accepted: bool)
      requires Valid()
      modifies this, store
      ensures lastLoaded == old(lastLoaded) && initialized == old(initialized)
      ensures sessions == WithBackendId(old(sessions), old(activeSessionId), backendId)
      ensures activeSessionId == old(activeSessionId) && lastSynced == old(lastSynced)
      ensures store.items == if store.windowPresent && accepted then old(store.items)[SessionStorage.StorageKey := stringify(sessions)] else old(store.items)
      ensures Valid()
    {
      sessions := WithBackendId(sessions, activeSessionId, backendId);
      assert HasId(sessions, activeSessionId) by {
        var i := SessionStorage.FindIndex(old(sessions), activeSessionId, 0).value;
        assert sessions[i].id == activeSessionId;
        assert sessions[i] in sessions;
      }
      var _ := store.SaveSessions(sessions, stringify, accepted);
    }

    /** The message-sync effect: nothing happens when the chat messages agree with the last synced ones. */
    method OnChatMessages(store: SessionStorage.LocalStore, chat: seq<Chat.ChatMessage>, nowIso: string,
                          stringify: seq<ChatSession> -> string, accepted: bool)
      requires Valid()
      modifies this, store
      ensures lastLoaded == old(lastLoaded) && initialized == old(initialized)
      ensures !old(initialized) || SameMessages(chat, old(lastSynced)) ==>
        sessions == old(sessions) && lastSynced == old(lastSynced) && store.items == old(store.items)
      ensures old(initialized) && !SameMessages(chat, old(lastSynced)) ==>
        sessions == SyncSessions(old(sessions), old(activeSessionId), chat, nowIso) && lastSynced == chat
        && store.items == if store.windowPresent && accepted then old(store.items)[SessionStorage.StorageKey := stringify(sessions)] else old(store.items)
      ensures activeSessionId == old(activeSessionId)
      ensures Valid()
    {
      if !initialized {
        return;
      }
      var same := AreMessagesEqual(chat, lastSynced);
      if same {
        return;
      }
      lastSynced := chat;
      sessions := SyncSessions(sessions, activeSessionId, chat, nowIso);
      assert HasId(sessions, activeSessionId) by {
        var i := SessionStorage.FindIndex(old(sessions), activeSessionId, 0).value;
        assert sessions[i].id == activeSessionId;
        assert sessions[i] in sessions;
      }
      var _ := store.SaveSessions(sessions, stringify, accepted);
    }

    /** `handleCreateNewChat`: a new tab named after the tab count becomes active. */
    method CreateNewChat(store: SessionStorage.LocalStore, now: nat, nowIso: string,
                         stringify: seq<ChatSession> -> string, accepted: bool)
      requires Valid()
      modifies this, store
      ensures lastLoaded == old(lastLoaded) && initialized == old(initialized)
      ensures sessions == old(sessions) + [NewSession(now, nowIso).(name := DefaultNamePrefix + Str.NatToString(|old(sessions)| + 1))]
      ensures activeSessionId == Str.NatToString(now) && lastSynced == old(lastSynced)
      ensures store.items == if store.windowPresent && accepted then old(store.items)[SessionStorage.StorageKey := stringify(sessions)] else old(store.items)
      ensures Valid()
    {
      var newTab := NewSession(now, nowIso).(name := DefaultNamePrefix + Str.NatToString(|sessions| + 1));
      sessions := sessions + [newTab];
      var _ := store.SaveSessions(sessions, stringify, accepted);
      activeSessionId := newTab.id;
      assert newTab in sessions;
    }

    /**
     * `handleCloseChat`. The source reads the first remaining session's id without
     * a check; `thrown` is true where that read finds no session.
     */
    method CloseChat(id: string) returns (thrown: bool)
      requires Valid()
      modifies this
      ensures lastLoaded == old(lastLoaded) && initialized == old(initialized)
      ensures |old(sessions)| == 1 ==> sessions == old(sessions) && activeSessionId == old(activeSessionId) && !thrown
      ensures |old(sessions)| > 1 ==> sessions == SessionStorage.Without(old(sessions), id)
      ensures thrown <==> |old(sessions)| > 1 && id == old(activeSessionId) && sessions == []
      ensures !thrown && |old(sessions)| > 1 && id == old(activeSessionId) ==> activeSessionId == sessions[0].id
      ensures id != old(activeSessionId) ==> activeSessionId == old(activeSessionId)
      ensures DistinctIds(old(sessions)) ==> !thrown
      ensures !thrown ==> Valid()
      ensures lastSynced == old(lastSynced)
    {
      thrown := false;
      if |sessions| == 1 {
        return;
      }
      var before := sessions;
      sessions := SessionStorage.Without(sessions, id);
      if DistinctIds(before) {
        WithoutDistinctNonEmpty(before, id);
      }
      if activeSessionId == id {
        if sessions == [] {
          thrown := true;
          return;
        }
        activeSessionId := sessions[0].id;
        assert sessions[0] in sessions;
      } else {
        var s := SessionStorage.Find(before, activeSessionId).value;
        assert s in sessions;
      }
    }

    /** `handleSelectHistory`: an open session is activated, a stored one is opened and activated. */
    method SelectHistory(store: SessionStorage.LocalStore, parse: string -> SessionStorage.Parsed, historyId: string,
                         stringify: seq<ChatSession> -> string, accepted: bool)
      requires Valid()
      modifies this, store
      ensures lastLoaded == old(lastLoaded) && initialized == old(initialized)
      ensures HasId(old(sessions), historyId) ==>
        sessions == old(sessions) && activeSessionId == historyId && store.items == old(store.items)
      ensures !HasId(old(sessions), historyId) ==>
        match SessionStorage.Find(old(store.Sessions(parse)), historyId)
        case Some(h) =>
          sessions == old(sessions) + [h] && activeSessionId == historyId
          && store.items == if store.windowPresent && accepted then old(store.items)[SessionStorage.StorageKey := stringify(sessions)] else old(store.items)
        case None =>
          sessions == old(sessions) && activeSessionId == old(activeSessionId) && store.items == old(store.items)
      ensures lastSynced == old(lastSynced)
      ensures Valid()
    {
      if HasId(sessions, historyId) {
        activeSessionId := historyId;
        return;
      }
      var all := store.LoadSessions(parse);
      var h := SessionStorage.Find(all, historyId);
      if h.Some? {
        sessions := sessions + [h.value];
        var _ := store.SaveSessions(sessions, stringify, accepted);
        activeSessionId := historyId;
        assert h.value in sessions;
      }
    }

    /**
     * `handleDeleteHistory`: the session goes from storage and from the open tabs;
     * a newTab session replaces the last one.
     */
    method DeleteHistory(store: SessionStorage.LocalStore, parse: string -> SessionStorage.Parsed, historyId: string,
                         now: nat, nowIso: string, stringify: seq<ChatSession> -> string, accepted: bool)
      requires Valid()
      modifies this, store
      ensures lastLoaded == old(lastLoaded) && initialized == old(initialized)
      ensures SessionStorage.Without(old(sessions), historyId) != [] ==>
        sessions == SessionStorage.Without(old(sessions), historyId)
        && activeSessionId == (if historyId == old(activeSessionId) then sessions[0].id else old(activeSessionId))
      ensures SessionStorage.Without(old(sessions), historyId) == [] ==>
        sessions == [NewSession(now, nowIso)] && activeSessionId == Str.NatToString(now)
      ensures var removed := old(store.items)[SessionStorage.StorageKey := stringify(SessionStorage.Without(old(store.Sessions(parse)), historyId))];
        store.items == if !(store.windowPresent && accepted) then old(store.items)
                       else if SessionStorage.Without(old(sessions), historyId) == [] then removed[SessionStorage.StorageKey := stringify(sessions)]
                       else removed
      ensures lastSynced == old(lastSynced)
      ensures Valid()
    {
      var _ := store.DeleteSession(historyId, parse, stringify, accepted);
      var before := sessions;
      var filtered := SessionStorage.Without(sessions, historyId);
      if historyId == activeSessionId && |filtered| > 0 {
        activeSessionId := filtered[0].id;
        assert filtered[0] in filtered;
      }
      if filtered == [] {
        var newTab := NewSession(now, nowIso);
        activeSessionId := newTab.id;
        var _ := store.SaveSessions([newTab], stringify, accepted);
        sessions := [newTab];
        return;
      }
      sessions := filtered;
      if historyId != activeSessionId {
        var s := SessionStorage.Find(before, activeSessionId).value;
        assert s in sessions;
      }
    }
  }

  // ---------------------------------------------------------------------
  // History list
  // ---------------------------------------------------------------------

  /** The label of a time `diffMs` milliseconds ago. */
  datatype Age = JustNow | MinutesAgo(minutes: int) | HoursAgo(hours: int) | DaysAgo(days: int) | OnDate

  const MinuteMs := 60000
  const HourMs := 3600000
  const DayMs := 86400000

  /** The thresholds of `formatTimestamp`; an unreadable date compares as `NaN` and falls through to the date. */
  function AgeOf(diffMs: Option<int>): (r: Age)
    ensures r == JustNow <==> diffMs.Some? && diffMs.value < MinuteMs
    ensures r.MinutesAgo? <==> diffMs.Some? && MinuteMs <= diffMs.value < HourMs
    ensures r.HoursAgo? <==> diffMs.Some? && HourMs <= diffMs.value < DayMs
    ensures r.DaysAgo? <==> diffMs.Some? && DayMs <= diffMs.value < 7 * DayMs
    ensures r.MinutesAgo? ==> 1 <= r.minutes < 60 && r.minutes * MinuteMs <= diffMs.value < (r.minutes + 1) * MinuteMs
    ensures r.HoursAgo? ==> 1 <= r.hours < 24 && r.hours * HourMs <= diffMs.value < (r.hours + 1) * HourMs
    ensures r.DaysAgo? ==> 1 <= r.days < 7 && r.days * DayMs <= diffMs.value < (r.days + 1) * DayMs
  {
    match diffMs
    case None => OnDate
    case Some(d) =>
      // Math.floor: Dafny's division by a positive constant rounds down as well.
      var mins := d / MinuteMs;
      var hours := d / HourMs;
      var days := d / DayMs;
      if mins < 1 then JustNow
      else if mins < 60 then MinutesAgo(mins)
      else if hours < 24 then HoursAgo(hours)
      else if days < 7 then DaysAgo(days)
      else OnDate
  }

  function AgeRank(a: Age): nat
  {
    match a
    case JustNow => 0
    case MinutesAgo(_) => 1
    case HoursAgo(_) => 2
    case DaysAgo(_) => 3
    case OnDate => 4
  }

  /** An older timestamp never gets a finer label. */
  lemma AgeMonotone(d1: int, d2: int)
    requires d1 <= d2
    ensures AgeRank(AgeOf(Some(d1))) <= AgeRank(AgeOf(Some(d2)))
  {
  }

  /** `formatTimestamp` */
  function TimestampLabel(diffMs: Option<int>, dateLabel: string): (r: string)
    ensures AgeOf(diffMs).OnDate? ==> r == dateLabel
  {
    match AgeOf(diffMs)
    case JustNow => "刚刚"
    case MinutesAgo(n) => Str.IntToString(n) + " 分钟前"
    case HoursAgo(n) => Str.IntToString(n) + " 小时前"
    case DaysAgo(n) => Str.IntToString(n) + " 天前"
    case OnDate => dateLabel
  }

  datatype HistoryItem = HistoryItem(id: string, name: string, timestamp: string, preview: string)

  const PreviewLimit := 50
  const EmptyPreview := "新对话"

  /** `lastMessage?.content.slice(0, 50) || '新对话'` */
  function Preview(messages: seq<Chat.ChatMessage>): (r: string)
    ensures 0 < |r| <= PreviewLimit
    ensures messages != [] && messages[|messages| - 1].content != [] ==>
      Str.StartsWith(messages[|messages| - 1].content, r)
  {
    if messages == [] then EmptyPreview
    else
      var c := messages[|messages| - 1].content;
      var cut := if |c| <= PreviewLimit then c else c[..PreviewLimit];
      if cut == "" then EmptyPreview else cut
  }

  /** Stored sessions that are not open. */
  function Closed(stored: seq<ChatSession>, open: seq<ChatSession>): (r: seq<ChatSession>)
    ensures forall s :: s in r <==> s in stored && forall o :: o in open ==> o.id != s.id
  {
    if stored == [] then []
    else (if forall o :: o in open ==> o.id != stored[0].id then [stored[0]] else []) + Closed(stored[1..], open)
  }

  function WithMessages(sessions: seq<ChatSession>): (r: seq<ChatSession>)
    ensures forall s :: s in r <==> s in sessions && |s.messages| > 0
    ensures multiset(r) <= multiset(sessions)
  {
    if sessions == [] then []
    else
      assert sessions == [sessions[0]] + sessions[1..];
      (if |sessions[0].messages| > 0 then [sessions[0]] else []) + WithMessages(sessions[1..])
  }

  /** Code-unit order on strings, the order `localeCompare` gives on ISO timestamps. */
  predicate NotAfter(a: string, b: string)
    decreases |a|
  {
    a == [] || (b != [] && (a[0] < b[0] || (a[0] == b[0] && NotAfter(a[1..], b[1..]))))
  }

  lemma {:induction false} NotAfterTotal(a: string, b: string)
    ensures NotAfter(a, b) || NotAfter(b, a)
    decreases |a|
  {
    if a != [] && b != [] && a[0] == b[0] {
      NotAfterTotal(a[1..], b[1..]);
    }
  }

  /** Newest first. */
  predicate NewestFirst(s: seq<ChatSession>)
  {
    forall i :: 0 <= i < |s| - 1 ==> NotAfter(s[i + 1].timestamp, s[i].timestamp)
  }

  /** Places `x` after every session at least as new, which keeps ties in their order. */
  function Insert(x: ChatSession, sorted: seq<ChatSession>): (r: seq<ChatSession>)
    ensures multiset(r) == multiset(sorted) + multiset{x}
    ensures |r| == |sorted| + 1
    ensures r[0] == x || (sorted != [] && r[0] == sorted[0])
  {
    if sorted == [] then [x]
    else if NotAfter(x.timestamp, sorted[0].timestamp) then
      assert sorted == [sorted[0]] + sorted[1..];
      [sorted[0]] + Insert(x, sorted[1..])
    else [x] + sorted
  }

  lemma {:induction false} InsertSorted(x: ChatSession, sorted: seq<ChatSession>)
    requires NewestFirst(sorted)
    ensures NewestFirst(Insert(x, sorted))
    decreases |sorted|
  {
    if sorted != [] {
      if NotAfter(x.timestamp, sorted[0].timestamp) {
        InsertSorted(x, sorted[1..]);
      } else {
        NotAfterTotal(x.timestamp, sorted[0].timestamp);
      }
    }
  }

  /** The stable sort by timestamp, newest first. */
  function SortNewestFirst(s: seq<ChatSession>): (r: seq<ChatSession>)
    ensures multiset(r) == multiset(s)
    decreases |s|
  {
    if s == [] then []
    else
      assert s == s[..|s| - 1] + [s[|s| - 1]];
      Insert(s[|s| - 1], SortNewestFirst(s[..|s| - 1]))
  }

  lemma {:induction false} SortNewestFirstSorted(s: seq<ChatSession>)
    ensures NewestFirst(SortNewestFirst(s))
    decreases |s|
  {
    if s != [] {
      SortNewestFirstSorted(s[..|s| - 1]);
      InsertSorted(s[|s| - 1], SortNewestFirst(s[..|s| - 1]));
    }
  }

  function ToItem(s: ChatSession, elapsed: string -> Option<int>, dateLabel: string -> string): HistoryItem
  {
    HistoryItem(s.id, s.name, TimestampLabel(elapsed(s.timestamp), dateLabel(s.timestamp)), Preview(s.messages))
  }

  function ToItems(ss: seq<ChatSession>, elapsed: string -> Option<int>, dateLabel: string -> string): (r: seq<HistoryItem>)
    ensures |r| == |ss|
    ensures forall k :: 0 <= k < |r| ==> r[k] == ToItem(ss[k], elapsed, dateLabel)
  {
    if ss == [] then [] else [ToItem(ss[0], elapsed, dateLabel)] + ToItems(ss[1..], elapsed, dateLabel)
  }

  /** The sessions behind the history list, in display order. */
  function HistorySessions(open: seq<ChatSession>, stored: seq<ChatSession>): seq<ChatSession>
  {
    SortNewestFirst(WithMessages(open + Closed(stored, open)))
  }

  /** `historyItems`: empty while the panel is closed. */
  function HistoryItems(isOpen: bool, open: seq<ChatSession>, stored: seq<ChatSession>,
                        elapsed: string -> Option<int>, dateLabel: string -> string): (r: seq<HistoryItem>)
    ensures !isOpen ==> r == []
    ensures isOpen ==> r == ToItems(HistorySessions(open, stored), elapsed, dateLabel)
  {
    if !isOpen then [] else ToItems(HistorySessions(open, stored), elapsed, dateLabel)
  }

  /**
   * The history list shows every session with messages, open ones in their open
   * copy and stored ones only when not open, newest first, with short previews.
   */
  lemma HistoryContents(open: seq<ChatSession>, stored: seq<ChatSession>)
    ensures var h := HistorySessions(open, stored);
      NewestFirst(h)
      && (forall s :: s in h <==> |s.messages| > 0 && (s in open || (s in stored && forall o :: o in open ==> o.id != s.id)))
      && (forall k :: 0 <= k < |h| ==> 0 < |Preview(h[k].messages)| <= PreviewLimit)
  {
    var w := WithMessages(open + Closed(stored, open));
    SortNewestFirstSorted(w);
    var h := SortNewestFirst(w);
    assert forall s :: s in h <==> s in w by {
      assert multiset(h) == multiset(w);
      forall s ensures s in h <==> s in w {
        assert s in h <==> s in multiset(h);
        assert s in w <==> s in multiset(w);
      }
    }
  }
}
