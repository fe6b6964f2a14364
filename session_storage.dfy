/**
 * The browser-side session store: every chat session is kept as one JSON
 * array under the `docupilot:sessions` key of `localStorage`.
 *
 * `localStorage` is the `items` map of a `LocalStore` object, `JSON.parse`
 * and `JSON.stringify` of a session list are the parameters `parse` and
 * `stringify`, and whether `setItem` accepts a write (it throws when the
 * quota is exceeded) is the parameter `accepted`.
 */
module SessionStorage {
  import opened Wrappers
  import Chat

  const StorageKey := "docupilot:sessions"
  const LegacySessionKey := "docupilot_session_id"

  datatype StoredSession = StoredSession(
    id: string,
    name: string,
    sessionId: Option<string>,
    messages: seq<Chat.ChatMessage>,
    timestamp: string)

  /** What `JSON.parse` makes of the stored text, as far as the store looks at it. */
  datatype Parsed = Invalid | NotArray | Sessions(sessions: seq<StoredSession>)

  /** The codec writes text that is never empty and that reads back as the list written. */
  ghost predicate RoundTrips(parse: string -> Parsed, stringify: seq<StoredSession> -> string)
  {
    forall ss {:trigger stringify(ss)} :: stringify(ss) != "" && parse(stringify(ss)) == Sessions(ss)
  }

  /** The result of `loadSessions` for a given storage content. */
  function Decoded(windowPresent: bool, items: map<string, string>, parse: string -> Parsed): (r: seq<StoredSession>)
    ensures !windowPresent || StorageKey !in items || items[StorageKey] == "" ==> r == []
    ensures windowPresent && StorageKey in items && items[StorageKey] != "" ==>
      (r == [] <==> !parse(items[StorageKey]).Sessions? || parse(items[StorageKey]).sessions == [])
    ensures windowPresent && StorageKey in items && items[StorageKey] != "" && parse(items[StorageKey]).Sessions? ==>
      r == parse(items[StorageKey]).sessions
  {
    if !windowPresent || StorageKey !in items || items[StorageKey] == "" then []
    else match parse(items[StorageKey])
      case Sessions(ss) => ss
      case _ => []
  }

  /** `sessions.filter((s) => s.id !== sessionId)` */
  function Without(sessions: seq<StoredSession>, id: string): (r: seq<StoredSession>)
    ensures |r| <= |sessions|
    ensures forall s :: s in r <==> s in sessions && s.id != id
  {
    if sessions == [] then []
    else if sessions[0].id == id then Without(sessions[1..], id)
    else [sessions[0]] + Without(sessions[1..], id)
  }

  /** Filtering commutes with concatenation, so the kept sessions stay in their order. */
  lemma {:induction false} WithoutConcat(a: seq<StoredSession>, b: seq<StoredSession>, id: string)
    ensures Without(a + b, id) == Without(a, id) + Without(b, id)
    decreases |a|
  {
    if a == [] {
      assert a + b == b;
    } else {
      assert (a + b)[1..] == a[1..] + b;
      WithoutConcat(a[1..], b, id);
    }
  }

  /** A list without the id is left as it was. */
  lemma {:induction false} WithoutAbsent(sessions: seq<StoredSession>, id: string)
    requires forall k :: 0 <= k < |sessions| ==> sessions[k].id != id
    ensures Without(sessions, id) == sessions
    decreases |sessions|
  {
    if sessions != [] {
      WithoutAbsent(sessions[1..], id);
    }
  }

  /** `sessions.findIndex((s) => s.id === id)`, searching from `from` on. */
  function FindIndex(sessions: seq<StoredSession>, id: string, from: nat): (r: Option<nat>)
    requires from <= |sessions|
    ensures r.Some? ==> from <= r.value < |sessions| && sessions[r.value].id == id
    ensures r.Some? ==> forall k :: from <= k < r.value ==> sessions[k].id != id
    ensures r.None? ==> forall k :: from <= k < |sessions| ==> sessions[k].id != id
    decreases |sessions| - from
  {
    if from == |sessions| then None
    else if sessions[from].id == id then Some(from)
    else FindIndex(sessions, id, from + 1)
  }

  /** `sessions.find((s) => s.id === id) || null` */
  function Find(sessions: seq<StoredSession>, id: string): (r: Option<StoredSession>)
    ensures r.Some? ==> r.value in sessions && r.value.id == id
    ensures r.None? ==> forall s :: s in sessions ==> s.id != id
  {
    match FindIndex(sessions, id, 0)
    case Some(i) => Some(sessions[i])
    case None => None
  }

  /** The list `upsertSession` writes back: the first entry with the id replaced, or the session appended. */
  function Upserted(sessions: seq<StoredSession>, session: StoredSession): (r: seq<StoredSession>)
    ensures |r| == |sessions| || |r| == |sessions| + 1
    ensures |r| == |sessions| + 1 <==> forall k :: 0 <= k < |sessions| ==> sessions[k].id != session.id
    ensures |r| == |sessions| + 1 ==> r == sessions + [session]
    ensures |r| == |sessions| ==> exists i :: 0 <= i < |sessions| && sessions[i].id == session.id && r == sessions[i := session]
  {
    match FindIndex(sessions, session.id, 0)
    case Some(i) => sessions[i := session]
    case None => sessions + [session]
  }

  /** After an upsert, looking up the id finds the session just written. */
  lemma UpsertThenFind(sessions: seq<StoredSession>, session: StoredSession)
    ensures Find(Upserted(sessions, session), session.id) == Some(session)
  {
    var r := Upserted(sessions, session);
    match FindIndex(sessions, session.id, 0)
    case Some(i) =>
      assert FindIndex(r, session.id, 0) == Some(i) by {
        FindIndexSame(sessions, r, session.id, 0, i);
      }
    case None =>
      assert FindIndex(r, session.id, 0) == Some(|sessions|) by {
        FindIndexSame(sessions, r, session.id, 0, |sessions|);
      }
  }

  /** Two lists that agree on ids before `i` and whose entry at `i` carries the id find it there. */
  lemma {:induction false} FindIndexSame(a: seq<StoredSession>, b: seq<StoredSession>, id: string, from: nat, i: nat)
    requires from <= i < |b| && i <= |a| && b[i].id == id
    requires forall k :: from <= k < i ==> a[k].id != id && b[k].id == a[k].id
    ensures FindIndex(b, id, from) == Some(i)
    decreases i - from
  {
    if from < i {
      FindIndexSame(a, b, id, from + 1, i);
    }
  }

  /** An upsert leaves every other id where it was and finds the same session for it. */
  lemma UpsertKeepsOthers(sessions: seq<StoredSession>, session: StoredSession, id: string)
    requires id != session.id
    ensures Find(Upserted(sessions, session), id) == Find(sessions, id)
  {
    var r := Upserted(sessions, session);
    assert forall k :: 0 <= k < |sessions| ==> (r[k].id == id <==> sessions[k].id == id) && (sessions[k].id == id ==> r[k] == sessions[k]);
    FindIndexAgree(sessions, r, id, 0);
  }

  lemma {:induction false} FindIndexAgree(a: seq<StoredSession>, b: seq<StoredSession>, id: string, from: nat)
    requires from <= |a| <= |b|
    requires |b| == |a| || b[|a|].id != id
    requires |b| <= |a| + 1
    requires forall k :: 0 <= k < |a| ==> (b[k].id == id <==> a[k].id == id) && (a[k].id == id ==> b[k] == a[k])
    ensures match FindIndex(a, id, from)
      case Some(i) => FindIndex(b, id, from) == Some(i) && b[i] == a[i]
      case None => FindIndex(b, id, from).None?
    decreases |b| - from
  {
    if from < |a| {
      FindIndexAgree(a, b, id, from + 1);
    } else if from < |b| {
      assert FindIndex(b, id, from + 1).None?;
    }
  }

  /** `migrateLegacySession`: the old single-session key when it holds a non-empty text. */
  function LegacySession(windowPresent: bool, items: map<string, string>): (r: Option<string>)
    ensures r.Some? <==> windowPresent && LegacySessionKey in items && items[LegacySessionKey] != ""
    ensures r.Some? ==> r.value == items[LegacySessionKey]
  {
    if windowPresent && LegacySessionKey in items && items[LegacySessionKey] != "" then Some(items[LegacySessionKey])
    else None
  }

  /** The `localStorage` of one page; `windowPresent` is false during server rendering. */
  class LocalStore {
    const windowPresent: bool
    var items: map<string, string>

    constructor (windowPresent: bool, items: map<string, string>)
      ensures this.windowPresent == windowPresent && this.items == items
    {
      this.windowPresent := windowPresent;
      this.items := items;
    }

    function Sessions(parse: string -> Parsed): seq<StoredSession>
      reads this
    {
      Decoded(windowPresent, items, parse)
    }

    /** `loadSessions` */
    method LoadSessions(parse: string -> Parsed) returns (r: seq<StoredSession>)
      ensures r == Sessions(parse)
    {
      if !windowPresent {
        return [];
      }
      if StorageKey !in items || items[StorageKey] == "" {
        return [];
      }
      var parsed := parse(items[StorageKey]);
      match parsed
      case Sessions(ss) => r := ss;
      case _ => r := [];
    }

    /** `saveSessions`: true exactly when the list was written under the storage key. */
    method SaveSessions(sessions: seq<StoredSession>, stringify: seq<StoredSession> -> string, accepted: bool) returns (ok: bool)
      modifies this
      ensures ok <==> windowPresent && accepted
      ensures items == if ok then old(items)[StorageKey := stringify(sessions)] else old(items)
    {
      if !windowPresent || !accepted {
        return false;
      }
      items := items[StorageKey := stringify(sessions)];
      ok := true;
    }

    /** `deleteSession` */
    method DeleteSession(id: string, parse: string -> Parsed, stringify: seq<StoredSession> -> string, accepted: bool)
      returns (ok: bool)
      modifies this
      ensures ok <==> windowPresent && accepted
      ensures items == if ok then old(items)[StorageKey := stringify(Without(old(Sessions(parse)), id))] else old(items)
      ensures ok && RoundTrips(parse, stringify) ==> Sessions(parse) == Without(old(Sessions(parse)), id)
    {
      var sessions := LoadSessions(parse);
      ok := SaveSessions(Without(sessions, id), stringify, accepted);
    }

    /** `upsertSession` */
    method UpsertSession(session: StoredSession, parse: string -> Parsed, stringify: seq<StoredSession> -> string, accepted: bool)
      returns (ok: bool)
      modifies this
      ensures ok <==> windowPresent && accepted
      ensures items == if ok then old(items)[StorageKey := stringify(Upserted(old(Sessions(parse)), session))] else old(items)
      ensures ok && RoundTrips(parse, stringify) ==> Sessions(parse) == Upserted(old(Sessions(parse)), session)
      ensures ok && RoundTrips(parse, stringify) ==> Find(Sessions(parse), session.id) == Some(session)
    {
      var sessions := LoadSessions(parse);
      var i := FindIndex(sessions, session.id, 0);
      if i.Some? {
        sessions := sessions[i.value := session];
      } else {
        sessions := sessions + [session];
      }
      ok := SaveSessions(sessions, stringify, accepted);
      UpsertThenFind(old(Sessions(parse)), session);
    }

    /** `getSession` */
    method GetSession(id: string, parse: string -> Parsed) returns (r: Option<StoredSession>)
      ensures r == Find(Sessions(parse), id)
    {
      var sessions := LoadSessions(parse);
      r := Find(sessions, id);
    }

    /** `migrateLegacySession`: the legacy key is read and kept. */
    method MigrateLegacySession() returns (r: Option<string>)
      ensures r == LegacySession(windowPresent, items)
    {
      if windowPresent && LegacySessionKey in items && items[LegacySessionKey] != "" {
        return Some(items[LegacySessionKey]);
      }
      return None;
    }

    /** `clearAllSessions`: after it the store loads as empty. */
    method ClearAllSessions(parse: string -> Parsed) returns (ok: bool)
      modifies this
      ensures ok == windowPresent
      ensures items == if ok then old(items) - {StorageKey} else old(items)
      ensures Sessions(parse) == []
    {
      if !windowPresent {
        return false;
      }
      items := items - {StorageKey};
      ok := true;
    }
  }
}
