/** The session ledger (`DatabaseManager` in database.py) over an in-memory record store:
    the `sessions` table keyed by session id and the append-only `session_events` table.
    Every store call is given its outcome (`StoreOutcome`), and every write the clock
    reading it is stamped with, so that each operation's failure path is explicit. */
module Ledger {
  import opened Common
  import opened JsonValues
  import opened Records

  /** The store's message when a session id is inserted twice (it is the primary key). */
  const DuplicateKeyMessage := "duplicate key value violates unique constraint \"sessions_pkey\""

  function NotFoundMessage(sessionId: string): string {
    "Session " + sessionId + " not found"
  }

  /** The event `log_event` writes; missing metadata becomes `{}`. */
  function NewEvent(sessionId: string, eventType: string, data: Json, metadata: Option<Json>, at: nat): Event {
    Event(sessionId, eventType, at, data, metadata.GetOr(EmptyObject))
  }

  /** What an insert into the event table adds: the event, unless the store fails or the
      event refers to a session that is not stored. */
  function Inserted(e: Event, sessions: map<string, Session>, store: StoreOutcome): seq<Event> {
    if store.Succeeds? && e.sessionId in sessions then [e] else []
  }

  class DatabaseManager {
    var sessions: map<string, Session>
    var events: seq<Event>

    ghost predicate Valid()
      reads this
    {
      && (forall k :: k in sessions ==> sessions[k].sessionId == k)
      && ReferencesValid(sessions, events)
    }

    constructor ()
      ensures Valid() && sessions == map[] && events == []
    {
      sessions := map[];
      events := [];
    }

    /** `create_session`: writes an active session starting now; a store failure (including
        a duplicate session id) is raised to the caller. */
    method CreateSession(sessionId: string, userId: string, stamp: Stamp) returns (r: Result<Session>)
      requires Valid()
      modifies this
      ensures Valid() && events == old(events)
      ensures stamp.store.Fails? ==> r == Err(stamp.store.message) && sessions == old(sessions)
      ensures stamp.store.Succeeds? && sessionId in old(sessions) ==>
                r == Err(DuplicateKeyMessage) && sessions == old(sessions)
      ensures stamp.store.Succeeds? && sessionId !in old(sessions) ==>
                && r == Ok(NewSession(sessionId, userId, stamp.at))
                && sessions == old(sessions)[sessionId := NewSession(sessionId, userId, stamp.at)]
    {
      if stamp.store.Fails? {
        return Err(stamp.store.message);
      }
      if sessionId in sessions {
        return Err(DuplicateKeyMessage);
      }
      var s := NewSession(sessionId, userId, stamp.at);
      sessions := sessions[sessionId := s];
      r := Ok(s);
    }

    /** `end_session`: fails when the session is not found; otherwise sets the end time, the
        truncated duration since the stored start and the status completed, whatever the
        status was, and changes nothing else. */
    method EndSession(sessionId: string, stamp: Stamp) returns (r: Result<Session>)
      requires Valid()
      modifies this
      ensures Valid() && events == old(events)
      ensures stamp.store.Fails? ==> r == Err(stamp.store.message) && sessions == old(sessions)
      ensures stamp.store.Succeeds? && sessionId !in old(sessions) ==>
                r == Err(NotFoundMessage(sessionId)) && sessions == old(sessions)
      ensures stamp.store.Succeeds? && sessionId in old(sessions) ==>
                && r == Ok(Ended(old(sessions)[sessionId], stamp.at))
                && sessions == old(sessions)[sessionId := Ended(old(sessions)[sessionId], stamp.at)]
    {
      if stamp.store.Fails? {
        return Err(stamp.store.message);
      }
      if sessionId !in sessions {
        return Err(NotFoundMessage(sessionId));
      }
      var e := Ended(sessions[sessionId], stamp.at);
      sessions := sessions[sessionId := e];
      r := Ok(e);
    }

    /** `update_session_summary`: sets the summary and the status summarized, whatever the
        status was; an update that matches no session changes nothing and returns `{}`. */
    method UpdateSessionSummary(sessionId: string, summary: string, store: StoreOutcome)
      returns (r: Result<Option<Session>>)
      requires Valid()
      modifies this
      ensures Valid() && events == old(events)
      ensures store.Fails? ==> r == Err(store.message) && sessions == old(sessions)
      ensures store.Succeeds? && sessionId !in old(sessions) ==> r == Ok(None) && sessions == old(sessions)
      ensures store.Succeeds? && sessionId in old(sessions) ==>
                && r == Ok(Some(WithSummary(old(sessions)[sessionId], summary)))
                && sessions == old(sessions)[sessionId := WithSummary(old(sessions)[sessionId], summary)]
    {
      if store.Fails? {
        return Err(store.message);
      }
      if sessionId !in sessions {
        return Ok(None);
      }
      var s := WithSummary(sessions[sessionId], summary);
      sessions := sessions[sessionId := s];
      r := Ok(Some(s));
    }

    /** `log_event`: appends exactly one event stamped now, or nothing when the insert
        fails; it never raises, a failure only yields the empty result. */
    method LogEvent(sessionId: string, eventType: string, data: Json, metadata: Option<Json>, stamp: Stamp)
      returns (r: Option<Event>)
      requires Valid()
      modifies this
      ensures Valid() && sessions == old(sessions)
      ensures var e := NewEvent(sessionId, eventType, data, metadata, stamp.at);
              && events == old(events) + Inserted(e, old(sessions), stamp.store)
              && r == (if Inserted(e, old(sessions), stamp.store) == [] then None else Some(e))
    {
      var e := NewEvent(sessionId, eventType, data, metadata, stamp.at);
      if stamp.store.Succeeds? && sessionId in sessions {
        events := events + [e];
        r := Some(e);
      } else {
        r := None;
      }
    }

    /** `get_session`: the stored record, or nothing when it is absent or the read fails. */
    function GetSession(sessionId: string, read: StoreOutcome): (r: Option<Session>)
      requires Valid()
      reads this
      ensures r.Some? <==> read.Succeeds? && sessionId in sessions
      ensures r.Some? ==> r.value == sessions[sessionId] && r.value.sessionId == sessionId
    {
      if read.Succeeds? && sessionId in sessions then Some(sessions[sessionId]) else None
    }

    /** `get_session_events`: the session's events of the given types (all types when the
        list is empty), in non-decreasing timestamp order; the empty list when the read fails. */
    function Events(sessionId: string, types: seq<string>, read: StoreOutcome): (r: seq<Event>)
      reads this
      ensures read.Fails? ==> r == []
    {
      if read.Fails? then [] else QueryEvents(events, sessionId, types)
    }

    /** The query's result is ordered by timestamp and holds exactly the stored events of
        the session and types, each as often as it is stored. */
    lemma EventsCorrect(sessionId: string, types: seq<string>, read: StoreOutcome)
      ensures var r := Events(sessionId, types, read);
              && SortedByTime(r)
              && (forall e :: e in r <==> read.Succeeds? && e in events && Selected(e, sessionId, types))
              && (read.Succeeds? ==> multiset(r) == multiset(Select(events, sessionId, types)))
    {
      QueryEventsCorrect(events, sessionId, types);
    }

    /** `get_conversation_history`: one message per user-message or assistant-response
        event, in the order the query returns them. */
    method GetConversationHistory(sessionId: string, read: StoreOutcome) returns (conversation: seq<Message>)
      ensures var es := Events(sessionId, MessageTypes, read);
              && |conversation| == |es|
              && (forall i :: 0 <= i < |es| ==> MessageOf(es[i]) == Some(conversation[i]))
              && conversation == ConversationOf(es)
    {
      var es := Events(sessionId, MessageTypes, read);
      conversation := MessagesOf(es);
      EventsCorrect(sessionId, MessageTypes, read);
      forall k | 0 <= k < |es| ensures MessageOf(es[k]).Some? {
        assert es[k] in es;
      }
      ConversationOfMessageEvents(es);
    }

    /** Keys of the sessions of one user. */
    function UserSessions(userId: string): set<string>
      reads this
    {
      set k | k in sessions && sessions[k].userId == userId
    }

    /** `get_recent_sessions`: at most `limit` of the user's sessions, latest start first;
        fewer only when the user has no more; every session left out started no later than
        every one returned; nothing when the read fails. */
    method GetRecentSessions(userId: string, limit: nat, read: StoreOutcome) returns (r: seq<Session>)
      requires Valid()
      ensures read.Fails? ==> r == []
      ensures read.Succeeds? ==> |r| == Min(limit, |UserSessions(userId)|)
      ensures forall i :: 0 <= i < |r| ==>
                r[i].sessionId in UserSessions(userId) && r[i] == sessions[r[i].sessionId]
      ensures forall i, j :: 0 <= i < j < |r| ==>
                r[i].sessionId != r[j].sessionId && r[i].startTime >= r[j].startTime
      ensures read.Succeeds? ==> forall k, i :: k in UserSessions(userId) && 0 <= i < |r| ==>
                k in IdsOf(r) || sessions[k].startTime <= r[i].startTime
    {
      r := [];
      if read.Fails? {
        return;
      }
      var remaining := UserSessions(userId);
      IdsOfEmpty();
      while |r| < limit && remaining != {}
        invariant |r| <= limit
        invariant Selection(sessions, UserSessions(userId), r, remaining)
        decreases remaining
      {
        var k := LatestIn(remaining);
        SelectionStep(sessions, UserSessions(userId), r, remaining, k);
        r := r + [sessions[k]];
        remaining := remaining - {k};
      }
    }

    /** A session of `keys` with the latest start time. */
    method LatestIn(keys: set<string>) returns (k: string)
      requires keys != {} && forall x :: x in keys ==> x in sessions
      ensures k in keys && forall x :: x in keys ==> sessions[x].startTime <= sessions[k].startTime
    {
      k :| k in keys;
      var rest := keys - {k};
      while rest != {}
        invariant rest <= keys && k in keys
        invariant forall x :: x in keys - rest ==> sessions[x].startTime <= sessions[k].startTime
        decreases rest
      {
        var x :| x in rest;
        if sessions[x].startTime > sessions[k].startTime {
          k := x;
        }
        rest := rest - {x};
      }
    }

    /** `get_session_statistics`: counts the session's events in one scan, updating the
        per-type table in place; the headline counters agree with the table and the table
        sums to the total. A failed read gives all-zero statistics. */
    method GetSessionStatistics(sessionId: string, read: StoreOutcome) returns (stats: Stats)
      ensures stats == StatsOf(Events(sessionId, [], read))
      ensures stats.totalEvents == |Events(sessionId, [], read)| == Total(stats.eventTypes)
      ensures DistinctTypes(stats.eventTypes)
      ensures stats.userMessages == CountOf(stats.eventTypes, UserMessage)
      ensures stats.assistantResponses == CountOf(stats.eventTypes, AssistantResponse)
      ensures stats.functionCalls == CountOf(stats.eventTypes, FunctionCall)
      ensures read.Fails? ==> stats == Stats(0, 0, 0, 0, [])
    {
      var es := Events(sessionId, [], read);
      var counts: seq<TypeCount> := [];
      var i := 0;
      while i < |es|
        invariant 0 <= i <= |es|
        invariant counts == TypeCounts(es[..i])
      {
        assert es[..i + 1][..i] == es[..i];
        counts := Bump(counts, es[i].eventType);
        i := i + 1;
      }
      assert es[..i] == es;
      stats := Stats(|es|, CountType(es, UserMessage), CountType(es, AssistantResponse),
                     CountType(es, FunctionCall), counts);
      StatsConsistent(es);
      TypeCountsCorrect(es);
    }

    /** `delete_session`: deletes the session's events, then the session; reports false
        instead of raising when either step fails (events already deleted stay deleted). */
    method DeleteSession(sessionId: string, eventsDelete: StoreOutcome, sessionDelete: StoreOutcome)
      returns (ok: bool)
      requires Valid()
      modifies this
      ensures Valid()
      ensures ok <==> eventsDelete.Succeeds? && sessionDelete.Succeeds?
      ensures eventsDelete.Fails? ==> sessions == old(sessions) && events == old(events)
      ensures eventsDelete.Succeeds? ==> events == Without(old(events), sessionId)
      ensures eventsDelete.Succeeds? && sessionDelete.Fails? ==> sessions == old(sessions)
      ensures ok ==> sessions == old(sessions) - {sessionId}
    {
      if eventsDelete.Fails? {
        return false;
      }
      DeletionOrder(sessions, events, sessionId);
      events := Without(events, sessionId);
      if sessionDelete.Fails? {
        return false;
      }
      sessions := sessions - {sessionId};
      ok := true;
    }
  }

  /** The loop of `get_conversation_history`: a message for each user-message or
      assistant-response event, in order. */
  method MessagesOf(es: seq<Event>) returns (conversation: seq<Message>)
    ensures conversation == ConversationOf(es)
  {
    conversation := [];
    var i := 0;
    while i < |es|
      invariant 0 <= i <= |es|
      invariant conversation == ConversationOf(es[..i])
    {
      var e := es[i];
      assert es[..i + 1][..i] == es[..i];
      if e.eventType == UserMessage {
        conversation := conversation + [Message("user", TextOr(e.data, "content", ""), Some(e.timestamp))];
      } else if e.eventType == AssistantResponse {
        conversation := conversation + [Message("assistant", TextOr(e.data, "content", ""), Some(e.timestamp))];
      }
      i := i + 1;
    }
    assert es[..i] == es;
  }

  /** The loop state of `GetRecentSessions`: `r` lists the chosen sessions latest first,
      `remaining` holds the ones not chosen yet, none of which started later than a chosen one. */
  ghost predicate Selection(sessions: map<string, Session>, keys: set<string>, r: seq<Session>, remaining: set<string>) {
    && remaining <= keys
    && (forall x :: x in keys ==> x in sessions && sessions[x].sessionId == x)
    && IdsOf(r) == keys - remaining
    && |r| + |remaining| == |keys|
    && (forall i :: 0 <= i < |r| ==> r[i].sessionId in keys && r[i] == sessions[r[i].sessionId])
    && (forall i, j :: 0 <= i < j < |r| ==> r[i].sessionId != r[j].sessionId && r[i].startTime >= r[j].startTime)
    && (forall k, i :: k in remaining && 0 <= i < |r| ==> sessions[k].startTime <= r[i].startTime)
  }

  lemma SelectionStep(sessions: map<string, Session>, keys: set<string>, r: seq<Session>, remaining: set<string>, k: string)
    requires Selection(sessions, keys, r, remaining)
    requires k in remaining && forall x :: x in remaining ==> sessions[x].startTime <= sessions[k].startTime
    ensures Selection(sessions, keys, r + [sessions[k]], remaining - {k})
  {
    IdsOfAppend(r, sessions[k]);
    var r' := r + [sessions[k]];
    var rest := remaining - {k};
    assert |rest| == |remaining| - 1;
    forall i | 0 <= i < |r'| ensures r'[i].sessionId in keys && r'[i] == sessions[r'[i].sessionId] {
      if i < |r| {
        assert r'[i] == r[i];
      }
    }
    forall i, j | 0 <= i < j < |r'|
      ensures r'[i].sessionId != r'[j].sessionId && r'[i].startTime >= r'[j].startTime
    {
      assert r'[i] == r[i];
      if j == |r| {
        assert r[i].sessionId in IdsOf(r);
      } else {
        assert r'[j] == r[j];
      }
    }
    forall x, i | x in rest && 0 <= i < |r'| ensures sessions[x].startTime <= r'[i].startTime {
      if i < |r| {
        assert r'[i] == r[i];
      }
    }
  }

  lemma IdsOfEmpty()
    ensures IdsOf([]) == {}
  {
  }

  /** The ids of a list of sessions. */
  function IdsOf(r: seq<Session>): set<string> {
    set i | 0 <= i < |r| :: r[i].sessionId
  }

  lemma IdsOfAppend(r: seq<Session>, s: Session)
    ensures IdsOf(r + [s]) == IdsOf(r) + {s.sessionId}
  {
    var a := r + [s];
    forall x | x in IdsOf(a) ensures x in IdsOf(r) + {s.sessionId} {
      var i :| 0 <= i < |a| && a[i].sessionId == x;
      if i < |r| { assert r[i].sessionId == x; }
    }
    forall x | x in IdsOf(r) ensures x in IdsOf(a) {
      var i :| 0 <= i < |r| && r[i].sessionId == x;
      assert a[i].sessionId == x;
    }
    assert a[|r|].sessionId == s.sessionId;
  }
}
