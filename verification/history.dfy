/**
 * The chat-history store: one JSON document mapping each username to its
 * saved chat sessions and its custom bots. Every operation of the source
 * begins by loading the whole document and, when it changes something, ends
 * by writing the whole document back. Here the loaded document is an
 * in-memory `Store`, reading is `LoadAllHistory` over an abstract
 * parse outcome, and writing is `Dump`.
 */
module History {

  import opened Common

  type Username = string

  /** Session ids are `%Y%m%d%H%M%S` strings of the moment the chat began. */
  type SessionId = string

  /**
   * The `timestamp` of a saved session. The source stores the text of
   * `datetime.now()` and orders by it; here it is an abstract totally
   * ordered key.
   */
  type Timestamp = int

  /** A saved session: `{"title", "timestamp", "messages"}`. */
  datatype ChatRecord = ChatRecord(title: string, timestamp: Timestamp, messages: seq<Message>)

  /** A user's entry after loading: both keys are always present. */
  datatype UserRecord = UserRecord(sessions: map<SessionId, ChatRecord>, customBots: seq<Bot>)

  type Store = map<Username, UserRecord>

  /** A user's entry as it appears in the file, where either key may be missing. */
  datatype RawUser = RawUser(sessions: Option<map<SessionId, ChatRecord>>, customBots: Option<seq<Bot>>)

  /**
   * What reading the history file can give: no file, a file that does not
   * parse as a document of the expected shape, or the parsed document.
   */
  datatype HistoryFile = Missing | Corrupt | Parsed(users: map<Username, RawUser>)

  /** A user record with no sessions and no bots, as created on first save. */
  const EmptyUser := UserRecord(map[], [])

  /** Fills in the keys a raw user entry lacks and keeps those it has. */
  function Normalize(u: RawUser): UserRecord {
    UserRecord(u.sessions.GetOr(map[]), u.customBots.GetOr([]))
  }

  /**
   * `load_all_history`: an absent or unreadable file reads as the empty
   * store; otherwise every user is kept, existing `sessions` and
   * `custom_bots` values are untouched and missing ones become `{}` and `[]`.
   */
  function LoadAllHistory(f: HistoryFile): (store: Store)
    ensures !f.Parsed? ==> store == map[]
    ensures f.Parsed? ==> store.Keys == f.users.Keys
    ensures f.Parsed? ==> forall u :: u in store ==>
      && (f.users[u].sessions.Some? ==> store[u].sessions == f.users[u].sessions.value)
      && (f.users[u].sessions.None? ==> store[u].sessions == map[])
      && (f.users[u].customBots.Some? ==> store[u].customBots == f.users[u].customBots.value)
      && (f.users[u].customBots.None? ==> store[u].customBots == [])
  {
    match f
    case Missing => map[]
    case Corrupt => map[]
    case Parsed(users) => map u | u in users :: Normalize(users[u])
  }

  /** `save_all_history`: the document written for a store, with both keys for every user. */
  function Dump(store: Store): (users: map<Username, RawUser>)
    ensures users.Keys == store.Keys
    ensures forall u :: u in users ==> users[u].sessions.Some? && users[u].customBots.Some?
  {
    map u | u in store :: RawUser(Some(store[u].sessions), Some(store[u].customBots))
  }

  /** Reading back what was written gives the same store. */
  lemma LoadDump(store: Store)
    ensures LoadAllHistory(Parsed(Dump(store))) == store
  {
    var loaded := LoadAllHistory(Parsed(Dump(store)));
    forall u | u in store
      ensures loaded[u] == store[u]
    {
      assert loaded[u] == Normalize(Dump(store)[u]);
    }
  }

  /**
   * `save_current_chat` applied to a loaded store: the session is inserted
   * or overwritten with the given title, the save time and the messages.
   * A new user starts with no sessions and no bots.
   */
  function SaveCurrentChat(store: Store, user: Username, id: SessionId, title: string,
                           messages: seq<Message>, now: Timestamp): (r: Store)
    ensures r.Keys == store.Keys + {user}
    ensures r[user].sessions.Keys == (if user in store then store[user].sessions.Keys else {}) + {id}
    ensures r[user].sessions[id] == ChatRecord(title, now, messages)
    ensures forall k :: user in store && k in store[user].sessions && k != id ==>
              r[user].sessions[k] == store[user].sessions[k]
    ensures r[user].customBots == (if user in store then store[user].customBots else [])
    ensures forall u :: u in store && u != user ==> r[u] == store[u]
  {
    var rec := if user in store then store[user] else EmptyUser;
    store[user := rec.(sessions := rec.sessions[id := ChatRecord(title, now, messages)])]
  }

  /**
   * `save_custom_bots`: the user's bot list is replaced, creating the user
   * (with no sessions) when absent; nothing else changes.
   */
  function SaveCustomBots(store: Store, user: Username, bots: seq<Bot>): (r: Store)
    ensures r.Keys == store.Keys + {user}
    ensures r[user].customBots == bots
    ensures r[user].sessions == (if user in store then store[user].sessions else map[])
    ensures forall u :: u in store && u != user ==> r[u] == store[u]
  {
    var rec := if user in store then store[user] else EmptyUser;
    store[user := rec.(customBots := bots)]
  }

  /** `delete_chat_session` answers `True` and writes, or answers `False` and writes nothing. */
  datatype Deletion = Deleted(store: Store) | NotFound

  /**
   * `delete_chat_session`: succeeds exactly when the user has that session,
   * and then removes that one session and nothing else.
   */
  function DeleteChatSession(store: Store, user: Username, id: SessionId): (r: Deletion)
    ensures r.Deleted? <==> user in store && id in store[user].sessions
    ensures r.Deleted? ==> r.store.Keys == store.Keys
    ensures r.Deleted? ==> r.store[user].sessions == store[user].sessions - {id}
    ensures r.Deleted? ==> r.store[user].customBots == store[user].customBots
    ensures r.Deleted? ==> forall u :: u in store && u != user ==> r.store[u] == store[u]
  {
    if user in store && id in store[user].sessions then
      Deleted(store[user := store[user].(sessions := store[user].sessions - {id})])
    else
      NotFound
  }

  /** `load_user_bots`: the user's bots, or none for an unknown user. */
  function LoadUserBots(store: Store, user: Username): (bots: seq<Bot>)
    ensures user !in store ==> bots == []
    ensures user in store ==> bots == store[user].customBots
  {
    if user in store then store[user].customBots else []
  }

  /** Bots saved for a user are exactly the bots loaded for that user afterwards. */
  lemma SavedBotsLoad(store: Store, user: Username, bots: seq<Bot>, other: Username)
    ensures LoadUserBots(SaveCustomBots(store, user, bots), user) == bots
    ensures other != user ==> LoadUserBots(SaveCustomBots(store, user, bots), other) == LoadUserBots(store, other)
  {
  }

  /** Saving a chat never changes anyone's bots. */
  lemma SaveChatKeepsBots(store: Store, user: Username, id: SessionId, title: string,
                          messages: seq<Message>, now: Timestamp, other: Username)
    ensures LoadUserBots(SaveCurrentChat(store, user, id, title, messages, now), other)
            == LoadUserBots(store, other)
  {
  }

  /** Saving a chat, writing the store and reading it back yields the saved session. */
  lemma SaveThenReload(store: Store, user: Username, id: SessionId, title: string,
                       messages: seq<Message>, now: Timestamp)
    ensures var reloaded := LoadAllHistory(Parsed(Dump(SaveCurrentChat(store, user, id, title, messages, now))));
            user in reloaded && id in reloaded[user].sessions
            && reloaded[user].sessions[id] == ChatRecord(title, now, messages)
  {
    LoadDump(SaveCurrentChat(store, user, id, title, messages, now));
  }

  // ---------------------------------------------------------------------
  // Listing sessions

  /** One row of the session list: `session_id -> title`. */
  datatype SessionEntry = SessionEntry(id: SessionId, title: string)

  function IdsOf(r: seq<SessionEntry>): set<SessionId> {
    set i | 0 <= i < |r| :: r[i].id
  }

  /**
   * `r` lists every session of `sessions` exactly once with its title,
   * newest first.
   */
  predicate IsSessionListing(sessions: map<SessionId, ChatRecord>, r: seq<SessionEntry>) {
    && IdsOf(r) == sessions.Keys
    && (forall i :: 0 <= i < |r| ==> r[i].id in sessions && r[i].title == sessions[r[i].id].title)
    && (forall i, j :: 0 <= i < j < |r| ==> r[i].id != r[j].id)
    && (forall i, j :: 0 <= i < j < |r| && r[i].id in sessions && r[j].id in sessions ==>
          sessions[r[i].id].timestamp >= sessions[r[j].id].timestamp)
  }

  lemma IdsOfSnoc(r: seq<SessionEntry>, e: SessionEntry)
    ensures IdsOf(r + [e]) == IdsOf(r) + {e.id}
  {
    var r' := r + [e];
    forall x | x in IdsOf(r')
      ensures x in IdsOf(r) + {e.id}
    {
      var i :| 0 <= i < |r'| && r'[i].id == x;
      if i < |r| {
        assert r[i].id == x;
      }
    }
    forall x | x in IdsOf(r) + {e.id}
      ensures x in IdsOf(r')
    {
      if x == e.id {
        assert r'[|r|].id == x;
      } else {
        var i :| 0 <= i < |r| && r[i].id == x;
        assert r'[i].id == x;
      }
    }
  }

  /** A session of `ids` that no other session of `ids` is newer than. */
  method PickNewest(sessions: map<SessionId, ChatRecord>, ids: set<SessionId>) returns (k: SessionId)
    requires ids != {} && ids <= sessions.Keys
    ensures k in ids
    ensures forall k' :: k' in ids ==> sessions[k'].timestamp <= sessions[k].timestamp
  {
    k :| k in ids;
    var scan := ids - {k};
    while scan != {}
      invariant scan <= ids && k in ids && k !in scan
      invariant forall k' :: k' in ids && k' !in scan ==> sessions[k'].timestamp <= sessions[k].timestamp
      decreases |scan|
    {
      var c :| c in scan;
      if sessions[c].timestamp > sessions[k].timestamp {
        k := c;
      }
      scan := scan - {c};
    }
  }

  /**
   * `r` lists, newest first, the sessions already taken out of
   * `sessions`, and none of those still `remaining` is newer than any of them.
   */
  predicate PartialListing(sessions: map<SessionId, ChatRecord>, r: seq<SessionEntry>, remaining: set<SessionId>) {
    && remaining <= sessions.Keys
    && IdsOf(r) + remaining == sessions.Keys
    && IdsOf(r) !! remaining
    && (forall i :: 0 <= i < |r| ==> r[i].id in sessions && r[i].title == sessions[r[i].id].title)
    && (forall i, j :: 0 <= i < j < |r| ==> r[i].id != r[j].id)
    && (forall i, j :: 0 <= i < j < |r| && r[i].id in sessions && r[j].id in sessions ==>
          sessions[r[i].id].timestamp >= sessions[r[j].id].timestamp)
    && (forall i, k :: 0 <= i < |r| && r[i].id in sessions && k in remaining && k in sessions ==>
          sessions[r[i].id].timestamp >= sessions[k].timestamp)
  }

  /** Moving the newest remaining session to the end of the listing keeps it a partial listing. */
  lemma PartialListingStep(sessions: map<SessionId, ChatRecord>, r: seq<SessionEntry>,
                           remaining: set<SessionId>, k: SessionId)
    requires PartialListing(sessions, r, remaining)
    requires k in remaining
    requires forall k' :: k' in remaining ==> sessions[k'].timestamp <= sessions[k].timestamp
    ensures PartialListing(sessions, r + [SessionEntry(k, sessions[k].title)], remaining - {k})
  {
    var e := SessionEntry(k, sessions[k].title);
    var r' := r + [e];
    IdsOfSnoc(r, e);
    forall i | 0 <= i < |r|
      ensures r'[i].id != k
    {
      assert r[i].id in IdsOf(r);
    }
    forall i, j | 0 <= i < j < |r'|
      ensures r'[i].id != r'[j].id
    {
      assert r'[i] == r[i];
    }
    forall i | 0 <= i < |r'|
      ensures r'[i].id in sessions && r'[i].title == sessions[r'[i].id].title
    {
      if i < |r| {
        assert r'[i] == r[i];
      }
    }
    forall i, k' | 0 <= i < |r'| && k' in remaining - {k}
      ensures sessions[r'[i].id].timestamp >= sessions[k'].timestamp
    {
      if i < |r| {
        assert r'[i] == r[i];
      }
    }
    forall i, j | 0 <= i < j < |r'|
      ensures sessions[r'[i].id].timestamp >= sessions[r'[j].id].timestamp
    {
      if j == |r| {
        assert r'[i] == r[i] && r'[j] == e;
      } else {
        assert r'[i] == r[i] && r'[j] == r[j];
      }
    }
  }

  /**
   * `get_user_sessions`: every session of the user with its title, ordered
   * by timestamp, newest first; an unknown user has none.
   */
  method GetUserSessions(store: Store, user: Username) returns (r: seq<SessionEntry>)
    ensures user !in store ==> r == []
    ensures user in store ==> IsSessionListing(store[user].sessions, r)
  {
    if user !in store {
      return [];
    }
    var sessions := store[user].sessions;
    var remaining := sessions.Keys;
    r := [];
    while remaining != {}
      invariant PartialListing(sessions, r, remaining)
      decreases |remaining|
    {
      var k := PickNewest(sessions, remaining);
      PartialListingStep(sessions, r, remaining, k);
      r := r + [SessionEntry(k, sessions[k].title)];
      remaining := remaining - {k};
    }
  }

  /** When one session is strictly newer than all others, every listing puts it first. */
  lemma NewestListedFirst(sessions: map<SessionId, ChatRecord>, r: seq<SessionEntry>, id: SessionId)
    requires IsSessionListing(sessions, r)
    requires id in sessions
    requires forall k :: k in sessions && k != id ==> sessions[k].timestamp < sessions[id].timestamp
    ensures |r| > 0 && r[0].id == id
  {
    assert id in IdsOf(r);
    var j :| 0 <= j < |r| && r[j].id == id;
    assert r[0].id in sessions;
    var newest := sessions[r[0].id].timestamp;
  }

  /**
   * A chat saved at a time later than every earlier save heads the
   * session list afterwards.
   */
  lemma SavedChatListedFirst(store: Store, user: Username, id: SessionId, title: string,
                             messages: seq<Message>, now: Timestamp, r: seq<SessionEntry>)
    requires user in store ==> forall k :: k in store[user].sessions ==> store[user].sessions[k].timestamp < now
    requires IsSessionListing(SaveCurrentChat(store, user, id, title, messages, now)[user].sessions, r)
    ensures |r| > 0 && r[0] == SessionEntry(id, title)
  {
    var sessions := SaveCurrentChat(store, user, id, title, messages, now)[user].sessions;
    NewestListedFirst(sessions, r, id);
  }
}
