/**
 * The session manager durable object. Sessions live in the object's storage
 * under "session_" + id. Reading a session refreshes its `lastAccessed`,
 * updating it merges new data over the old, deleting it is idempotent, and
 * the list view filters on the user, newest `lastAccessed` first.
 */
module Sessions {
  import opened Js
  import opened Listing

  /** A stored session; timestamps are milliseconds since the epoch. */
  datatype Session = Session(
    id: string,
    userId: Json,
    createdAt: int,
    lastAccessed: int,
    data: map<string, Json>,
    metadata: map<string, Json>)

  datatype SessionList = SessionList(sessions: seq<Session>, total: nat)

  const SessionPrefix := "session_"

  function SessionKey(sessionId: string): string {
    SessionPrefix + sessionId
  }

  /** A request header, `null` when the request does not carry it. */
  function Header(h: Option<string>): Json {
    if h.Some? then JStr(h.value) else JNull
  }

  /**
   * The session `createSession` stores: the caller's `userId` when truthy,
   * else "anonymous"; the caller's data or an empty object; the two request
   * headers as metadata, overridden by any metadata the caller sends.
   */
  function NewSession(sessionId: string, userId: Json, data: Option<map<string, Json>>, metadata: map<string, Json>,
                      userAgent: Option<string>, ipAddress: Option<string>, now: int): (s: Session)
    ensures s.id == sessionId && s.createdAt == now && s.lastAccessed == now
    ensures s.userId.Truthy()
    ensures userId.Truthy() ==> s.userId == userId
    ensures !userId.Truthy() ==> s.userId == JStr("anonymous")
    ensures data.Some? ==> s.data == data.value
    ensures data.None? ==> s.data == map[]
    ensures s.metadata.Keys == metadata.Keys + {"userAgent", "ipAddress"}
    ensures forall k :: k in metadata ==> s.metadata[k] == metadata[k]
    ensures "userAgent" !in metadata ==> s.metadata["userAgent"] == Header(userAgent)
    ensures "ipAddress" !in metadata ==> s.metadata["ipAddress"] == Header(ipAddress)
  {
    Session(
      sessionId,
      if userId.Truthy() then userId else JStr("anonymous"),
      now,
      now,
      data.GetOr(map[]),
      map["userAgent" := Header(userAgent), "ipAddress" := Header(ipAddress)] + metadata)
  }

  /**
   * `updateSession` on a present session: `{...session.data, ...data}`
   * (the new values win, untouched keys keep theirs) and a new
   * `lastAccessed`; nothing else changes.
   */
  function Merged(s: Session, data: map<string, Json>, now: int): (r: Session)
    ensures r.data.Keys == s.data.Keys + data.Keys
    ensures forall k :: k in data ==> r.data[k] == data[k]
    ensures forall k :: k in s.data && k !in data ==> r.data[k] == s.data[k]
    ensures r.lastAccessed == now
    ensures r.(data := s.data, lastAccessed := s.lastAccessed) == s
  {
    s.(data := s.data + data, lastAccessed := now)
  }

  /** An update that sends no data only refreshes `lastAccessed`, as a read does. */
  lemma MergedNothingTouches(s: Session, now: int)
    ensures Merged(s, map[], now) == s.(lastAccessed := now)
  {
    assert s.data + map[] == s.data;
  }

  /** Two updates in a row are one update with the second data merged over the first. */
  lemma {:induction false} MergedTwice(s: Session, d1: map<string, Json>, d2: map<string, Json>, t1: int, t2: int)
    ensures Merged(Merged(s, d1, t1), d2, t2) == Merged(s, d1 + d2, t2)
  {
    assert (s.data + d1) + d2 == s.data + (d1 + d2);
  }

  predicate OwnedBy(s: Session, userId: Option<string>) {
    !Given(userId) || s.userId == JStr(userId.value)
  }

  function UserFilter(userId: Option<string>): Session -> bool {
    s => OwnedBy(s, userId)
  }

  function LastAccessed(s: Session): int {
    s.lastAccessed
  }

  class SessionManager {
    /** The object's storage: key "session_" + id to session. */
    var storage: map<string, Session>

    constructor()
      ensures storage == map[]
    {
      storage := map[];
    }

    /** `createSession`: store `NewSession` under the fresh id and answer with it. */
    method CreateSession(sessionId: string, userId: Json, data: Option<map<string, Json>>, metadata: map<string, Json>,
                         userAgent: Option<string>, ipAddress: Option<string>, now: int) returns (session: Session)
      modifies this
      ensures session == NewSession(sessionId, userId, data, metadata, userAgent, ipAddress, now)
      ensures storage == old(storage)[SessionKey(sessionId) := session]
    {
      session := NewSession(sessionId, userId, data, metadata, userAgent, ipAddress, now);
      storage := storage[SessionKey(sessionId) := session];
    }

    /**
     * `getSession`: 400 without an id and 404 for an absent session, both
     * writing nothing; otherwise the stored session with `lastAccessed`
     * refreshed, which is also written back.
     */
    method GetSession(sessionId: Option<string>, now: int) returns (r: Reply<Session>)
      modifies this
      ensures !Given(sessionId) ==> r == Err(400, "Session ID is required") && storage == old(storage)
      ensures Given(sessionId) && SessionKey(sessionId.value) !in old(storage) ==>
        r == Err(404, "Session not found") && storage == old(storage)
      ensures var key := SessionKey(sessionId.GetOr(""));
        Given(sessionId) && key in old(storage) ==>
          && r == Ok(old(storage)[key].(lastAccessed := now))
          && storage == old(storage)[key := r.value]
    {
      if !Given(sessionId) {
        return Err(400, "Session ID is required");
      }
      var key := SessionKey(sessionId.value);
      if key !in storage {
        return Err(404, "Session not found");
      }
      var session := storage[key].(lastAccessed := now);
      storage := storage[key := session];
      r := Ok(session);
    }

    /** `updateSession`: the same errors as `getSession`; otherwise `Merged`, written back. */
    method UpdateSession(sessionId: Option<string>, data: Option<map<string, Json>>, now: int) returns (r: Reply<Session>)
      modifies this
      ensures !Given(sessionId) ==> r == Err(400, "Session ID is required") && storage == old(storage)
      ensures Given(sessionId) && SessionKey(sessionId.value) !in old(storage) ==>
        r == Err(404, "Session not found") && storage == old(storage)
      ensures var key := SessionKey(sessionId.GetOr(""));
        Given(sessionId) && key in old(storage) ==>
          && r == Ok(Merged(old(storage)[key], data.GetOr(map[]), now))
          && storage == old(storage)[key := r.value]
    {
      if !Given(sessionId) {
        return Err(400, "Session ID is required");
      }
      var key := SessionKey(sessionId.value);
      if key !in storage {
        return Err(404, "Session not found");
      }
      var session := Merged(storage[key], data.GetOr(map[]), now);
      storage := storage[key := session];
      r := Ok(session);
    }

    /**
     * `deleteSession`: 400 without an id; otherwise the key is gone
     * afterwards and the answer is a success whether or not it was there.
     */
    method DeleteSession(sessionId: Option<string>) returns (r: Reply<string>)
      modifies this
      ensures !Given(sessionId) ==> r == Err(400, "Session ID is required") && storage == old(storage)
      ensures Given(sessionId) ==>
        && r == Ok("Session deleted successfully")
        && storage == old(storage) - {SessionKey(sessionId.value)}
    {
      if !Given(sessionId) {
        return Err(400, "Session ID is required");
      }
      storage := storage - {SessionKey(sessionId.value)};
      r := Ok("Session deleted successfully");
    }

    /** `getAllSessions`: the values under the "session_" prefix. */
    method GetAllSessions() returns (sessions: seq<Session>, ghost keys: seq<string>)
      ensures ListedUnder(storage, SessionPrefix, sessions, keys)
    {
      sessions, keys := ListPrefix(storage, SessionPrefix);
    }

    /**
     * `listSessions`: the sessions of the requested user (all when none is
     * given), newest `lastAccessed` first, cut to `parseInt(limit) || 50`;
     * `total` counts the matches before the cut.
     */
    method ListSessions(userId: Option<string>, limit: Option<ParsedInt>) returns (r: SessionList)
      ensures IsTopOfStore(r.sessions, storage, SessionPrefix, UserFilter(userId), LastAccessed, LimitOr(limit, 50))
      ensures r.total == MatchCount(storage, SessionPrefix, UserFilter(userId))
    {
      var all, keys := GetAllSessions();
      ListedTopN(storage, SessionPrefix, all, keys, UserFilter(userId), LastAccessed, LimitOr(limit, 50));
      r := SessionList(TopN(all, UserFilter(userId), LastAccessed, LimitOr(limit, 50)),
                       |Filter(all, UserFilter(userId))|);
    }
  }
}
