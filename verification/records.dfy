/** The records of the session ledger (database.py) and the pure definitions the ledger's
    operations are specified by: the session lifecycle transitions, the event query
    (filter, then order by timestamp), the conversation view over the event log and the
    per-type event statistics. */
module Records {
  import opened Common
  import opened JsonValues

  /** The ledger's clock counts microseconds, the resolution of the stored timestamps. */
  const MicrosPerSecond: nat := 1_000_000

  /** What the record store does with one call: it answers, or it raises with a message. */
  datatype StoreOutcome = Succeeds | Fails(message: string)

  /** A write to the store: the clock reading `datetime.utcnow()` gives it, and its outcome. */
  datatype Stamp = Stamp(at: nat, store: StoreOutcome)

  // ---------------------------------------------------------------------------
  // Sessions and their lifecycle
  // ---------------------------------------------------------------------------

  datatype Status = Active | Completed | Summarized

  function StatusName(s: Status): string {
    match s
    case Active => "active"
    case Completed => "completed"
    case Summarized => "summarized"
  }

  /** Position of a status in the intended order active, completed, summarized. */
  function Rank(s: Status): nat {
    match s
    case Active => 0
    case Completed => 1
    case Summarized => 2
  }

  datatype Session = Session(
    sessionId: string,
    userId: string,
    startTime: nat,
    endTime: Option<nat>,
    durationSeconds: Option<int>,
    summary: Option<string>,
    status: Status)

  /** The fields a session has at each stage of the intended lifecycle: `end_time` and
      `duration_seconds` appear when it completes, `summary` when it is summarized. */
  predicate Consistent(s: Session) {
    match s.status
    case Active => s.endTime.None? && s.durationSeconds.None? && s.summary.None?
    case Completed => s.endTime.Some? && s.durationSeconds.Some? && s.summary.None?
    case Summarized => s.endTime.Some? && s.durationSeconds.Some? && s.summary.Some?
  }

  /** The record `create_session` writes. */
  function NewSession(sessionId: string, userId: string, now: nat): (s: Session)
    ensures Consistent(s) && s.status == Active
    ensures s.sessionId == sessionId && s.userId == userId && s.startTime == now
  {
    Session(sessionId, userId, now, None, None, None, Active)
  }

  /** `int((end_time - start_time).total_seconds())`: whole seconds, truncated toward zero. */
  function ElapsedSeconds(start: nat, now: nat): int {
    TruncDiv(now - start, MicrosPerSecond)
  }

  /** The update `end_session` applies: it does not look at the current status. */
  function Ended(s: Session, now: nat): Session {
    s.(endTime := Some(now), durationSeconds := Some(ElapsedSeconds(s.startTime, now)), status := Completed)
  }

  /** Ending sets the end time, the duration from the stored start and the completed
      status, and changes nothing else. */
  lemma EndedFields(s: Session, now: nat)
    ensures var e := Ended(s, now);
            && e.status == Completed && e.endTime == Some(now)
            && e.durationSeconds == Some(ElapsedSeconds(s.startTime, now))
            && e.(endTime := s.endTime, durationSeconds := s.durationSeconds, status := s.status) == s
  {
  }

  /** The update `update_session_summary` applies: it does not look at the current status. */
  function WithSummary(s: Session, summary: string): Session {
    s.(summary := Some(summary), status := Summarized)
  }

  /** Summarizing sets the summary and the summarized status, and changes nothing else. */
  lemma WithSummaryFields(s: Session, summary: string)
    ensures var e := WithSummary(s, summary);
            && e.status == Summarized && e.summary == Some(summary)
            && e.(summary := s.summary, status := s.status) == s
  {
  }

  /** The duration is the elapsed time in whole seconds: rounded down when the clock moved
      forward, toward zero when it moved back. */
  lemma ElapsedSecondsBounds(start: nat, now: nat)
    ensures now >= start ==>
      ElapsedSeconds(start, now) * MicrosPerSecond <= now - start < (ElapsedSeconds(start, now) + 1) * MicrosPerSecond
    ensures now < start ==>
      (ElapsedSeconds(start, now) - 1) * MicrosPerSecond < now - start <= ElapsedSeconds(start, now) * MicrosPerSecond
  {
  }

  /** Ending keeps a well-formed session well formed, and never moves its status back,
      exactly when it has not been summarized yet. */
  lemma EndRespectsLifecycle(s: Session, now: nat)
    requires Consistent(s)
    ensures Consistent(Ended(s, now)) <==> s.status != Summarized
    ensures Rank(Ended(s, now).status) >= Rank(s.status) <==> s.status != Summarized
  {
  }

  /** Summarizing keeps a well-formed session well formed exactly when it has already been
      ended; it never moves the status back. */
  lemma SummaryRespectsLifecycle(s: Session, summary: string)
    requires Consistent(s)
    ensures Consistent(WithSummary(s, summary)) <==> s.status != Active
    ensures Rank(WithSummary(s, summary).status) >= Rank(s.status)
  {
  }

  /** In the order the relay and the processor call them (create, end, summarize), the
      status goes active, completed, summarized and every stage is well formed. */
  lemma CallOrderLifecycle(sessionId: string, userId: string, start: nat, end: nat, summary: string)
    ensures var a := NewSession(sessionId, userId, start);
            var c := Ended(a, end);
            var z := WithSummary(c, summary);
            && [a.status, c.status, z.status] == [Active, Completed, Summarized]
            && Consistent(a) && Consistent(c) && Consistent(z)
            && Rank(a.status) < Rank(c.status) < Rank(z.status)
            && z.startTime == start && z.endTime == Some(end)
            && z.durationSeconds == Some(ElapsedSeconds(start, end))
            && z.summary == Some(summary)
  {
  }

  /** Ending twice overwrites the first end: the duration is recomputed from the original start. */
  lemma EndTwice(s: Session, first: nat, second: nat)
    ensures Ended(Ended(s, first), second) == Ended(s, second)
  {
  }

  /** Because neither update is guarded, calling them out of order breaks the lifecycle:
      an end after the summary moves the status back, and a summary before the end
      leaves a summarized session without an end time. */
  lemma UnguardedTransitions(sessionId: string, userId: string, start: nat, end: nat, summary: string)
    ensures var a := NewSession(sessionId, userId, start);
            var late := Ended(WithSummary(Ended(a, end), summary), end);
            var early := WithSummary(a, summary);
            && late.status == Completed && late.summary == Some(summary) && !Consistent(late)
            && early.status == Summarized && early.endTime.None? && !Consistent(early)
  {
  }

  // ---------------------------------------------------------------------------
  // Events and the event query
  // ---------------------------------------------------------------------------

  datatype Event = Event(sessionId: string, eventType: string, timestamp: nat, data: Json, metadata: Json)

  predicate SortedByTime(es: seq<Event>) {
    forall i, j :: 0 <= i < j < |es| ==> es[i].timestamp <= es[j].timestamp
  }

  /** Inserts `e` into a list ordered by timestamp, after every event not later than it. */
  function InsertByTime(sorted: seq<Event>, e: Event): (r: seq<Event>)
    ensures |r| == |sorted| + 1
  {
    if |sorted| == 0 || sorted[|sorted| - 1].timestamp <= e.timestamp then sorted + [e]
    else InsertByTime(sorted[..|sorted| - 1], e) + [sorted[|sorted| - 1]]
  }

  /** Insertion adds exactly `e`. */
  lemma {:induction false} InsertByTimeAdds(sorted: seq<Event>, e: Event)
    ensures multiset(InsertByTime(sorted, e)) == multiset(sorted) + multiset{e}
  {
    if !(|sorted| == 0 || sorted[|sorted| - 1].timestamp <= e.timestamp) {
      var init := sorted[..|sorted| - 1];
      InsertByTimeAdds(init, e);
      assert sorted == init + [sorted[|sorted| - 1]];
    }
  }

  /** Insertion keeps a list ordered by timestamp ordered. */
  lemma {:induction false} InsertByTimeSorted(sorted: seq<Event>, e: Event)
    requires SortedByTime(sorted)
    ensures SortedByTime(InsertByTime(sorted, e))
  {
    if !(|sorted| == 0 || sorted[|sorted| - 1].timestamp <= e.timestamp) {
      var init := sorted[..|sorted| - 1];
      var last := sorted[|sorted| - 1];
      InsertByTimeSorted(init, e);
      InsertByTimeAdds(init, e);
      var r0 := InsertByTime(init, e);
      forall i | 0 <= i < |r0| ensures r0[i].timestamp <= last.timestamp {
        var x := r0[i];
        assert x in multiset(r0);
        if x != e {
          assert x in multiset(init);
          var k :| 0 <= k < |init| && init[k] == x;
          assert sorted[k] == x;
        }
      }
      assert InsertByTime(sorted, e) == r0 + [last];
    }
  }

  /** `ORDER BY timestamp ASC`. The store leaves ties unordered; the model keeps equal
      timestamps in their written order. */
  function SortByTime(es: seq<Event>): (r: seq<Event>)
    ensures |r| == |es|
  {
    if |es| == 0 then [] else InsertByTime(SortByTime(es[..|es| - 1]), es[|es| - 1])
  }

  /** The query result is ordered by timestamp and holds exactly the given events. */
  lemma {:induction false} SortByTimeCorrect(es: seq<Event>)
    ensures SortedByTime(SortByTime(es))
    ensures multiset(SortByTime(es)) == multiset(es)
  {
    if |es| > 0 {
      SortByTimeCorrect(es[..|es| - 1]);
      InsertByTimeAdds(SortByTime(es[..|es| - 1]), es[|es| - 1]);
      InsertByTimeSorted(SortByTime(es[..|es| - 1]), es[|es| - 1]);
      assert es == es[..|es| - 1] + [es[|es| - 1]];
    }
  }

  /** Events already in timestamp order come back in the order they were written. */
  lemma {:induction false} SortByTimeKeepsSorted(es: seq<Event>)
    requires SortedByTime(es)
    ensures SortByTime(es) == es
  {
    if |es| > 0 {
      var init := es[..|es| - 1];
      assert SortedByTime(init);
      SortByTimeKeepsSorted(init);
      assert es == init + [es[|es| - 1]];
    }
  }

  /** The `WHERE session_id = … [AND event_type IN …]` filter; an empty type list means no filter. */
  predicate Selected(e: Event, sessionId: string, types: seq<string>) {
    e.sessionId == sessionId && (|types| == 0 || e.eventType in types)
  }

  function Select(es: seq<Event>, sessionId: string, types: seq<string>): (r: seq<Event>)
    ensures |r| <= |es|
    ensures forall e :: e in r <==> e in es && Selected(e, sessionId, types)
  {
    if |es| == 0 then []
    else
      var init := es[..|es| - 1];
      var last := es[|es| - 1];
      assert es == init + [last];
      if Selected(last, sessionId, types) then Select(init, sessionId, types) + [last]
      else Select(init, sessionId, types)
  }

  /** `get_session_events` over a table holding `es`. */
  function QueryEvents(es: seq<Event>, sessionId: string, types: seq<string>): seq<Event> {
    SortByTime(Select(es, sessionId, types))
  }

  /** The query returns exactly the session's events of the requested types, each as often
      as it is stored, in non-decreasing timestamp order, whatever order they were written in. */
  lemma QueryEventsCorrect(es: seq<Event>, sessionId: string, types: seq<string>)
    ensures SortedByTime(QueryEvents(es, sessionId, types))
    ensures multiset(QueryEvents(es, sessionId, types)) == multiset(Select(es, sessionId, types))
    ensures forall e :: e in QueryEvents(es, sessionId, types) <==> e in es && Selected(e, sessionId, types)
  {
    SortByTimeCorrect(Select(es, sessionId, types));
    forall e
      ensures e in QueryEvents(es, sessionId, types) <==> e in multiset(Select(es, sessionId, types))
    {
    }
  }

  /** What is left of the event table after `DELETE … WHERE session_id = sessionId`. */
  function Without(es: seq<Event>, sessionId: string): (r: seq<Event>)
    ensures |r| <= |es|
    ensures forall e :: e in r <==> e in es && e.sessionId != sessionId
  {
    if |es| == 0 then []
    else
      var init := es[..|es| - 1];
      var last := es[|es| - 1];
      assert es == init + [last];
      if last.sessionId == sessionId then Without(init, sessionId) else Without(init, sessionId) + [last]
  }

  /** Every stored event refers to a stored session (the foreign key of the event table). */
  predicate ReferencesValid(sessions: map<string, Session>, es: seq<Event>) {
    forall i :: 0 <= i < |es| ==> es[i].sessionId in sessions
  }

  /** Why events are deleted first: removing a session that still has events would leave
      those events referring to nothing, which the foreign key forbids; removing its events
      first always keeps the references valid, whatever happens next. */
  lemma DeletionOrder(sessions: map<string, Session>, es: seq<Event>, sessionId: string)
    requires ReferencesValid(sessions, es)
    ensures (exists i :: 0 <= i < |es| && es[i].sessionId == sessionId) ==> !ReferencesValid(sessions - {sessionId}, es)
    ensures ReferencesValid(sessions, Without(es, sessionId))
    ensures ReferencesValid(sessions - {sessionId}, Without(es, sessionId))
  {
    var w := Without(es, sessionId);
    forall i | 0 <= i < |w| ensures w[i].sessionId in sessions - {sessionId} {
      assert w[i] in w;
      var k :| 0 <= k < |es| && es[k] == w[i];
    }
  }

  // ---------------------------------------------------------------------------
  // The conversation view over the event log
  // ---------------------------------------------------------------------------

  datatype Message = Message(role: string, content: string, timestamp: Option<nat>)

  const UserMessage := "user_message"
  const AssistantResponse := "assistant_response"
  const FunctionCall := "function_call"
  const FunctionResult := "function_result"
  const MessageTypes: seq<string> := [UserMessage, AssistantResponse]

  /** The message an event contributes to the conversation, if any. */
  function MessageOf(e: Event): Option<Message> {
    if e.eventType == UserMessage then Some(Message("user", TextOr(e.data, "content", ""), Some(e.timestamp)))
    else if e.eventType == AssistantResponse then
      Some(Message("assistant", TextOr(e.data, "content", ""), Some(e.timestamp)))
    else None
  }

  /** The conversation `get_conversation_history` builds from the events, in their order. */
  function ConversationOf(es: seq<Event>): seq<Message> {
    if |es| == 0 then []
    else
      var init := ConversationOf(es[..|es| - 1]);
      match MessageOf(es[|es| - 1])
      case Some(m) => init + [m]
      case None => init
  }

  /** Over message events only, the conversation has one message per event, in order. */
  lemma {:induction false} ConversationOfMessageEvents(es: seq<Event>)
    requires forall i :: 0 <= i < |es| ==> MessageOf(es[i]).Some?
    ensures |ConversationOf(es)| == |es|
    ensures forall i :: 0 <= i < |es| ==> MessageOf(es[i]) == Some(ConversationOf(es)[i])
  {
    if |es| > 0 {
      var init := es[..|es| - 1];
      ConversationOfMessageEvents(init);
      forall i | 0 <= i < |es| ensures MessageOf(es[i]) == Some(ConversationOf(es)[i]) {
        if i < |init| {
          assert es[i] == init[i];
        }
      }
    }
  }

  /** Number of events of type `t`. */
  function CountType(es: seq<Event>, t: string): nat {
    if |es| == 0 then 0
    else CountType(es[..|es| - 1], t) + (if es[|es| - 1].eventType == t then 1 else 0)
  }

  /** One message per user or assistant event: the conversation is as long as the number
      of such events. */
  lemma {:induction false} ConversationLength(es: seq<Event>)
    ensures |ConversationOf(es)| == CountType(es, UserMessage) + CountType(es, AssistantResponse)
  {
    if |es| > 0 {
      ConversationLength(es[..|es| - 1]);
    }
  }

  /** The event a client-side message is logged as (the relay logs `{"content": text}`). */
  function EventOfMessage(sessionId: string, m: Message): Event {
    Event(sessionId, if m.role == "user" then UserMessage else AssistantResponse,
          m.timestamp.GetOr(0), JObj([Field("content", JStr(m.content))]), EmptyObject)
  }

  predicate Loggable(m: Message) {
    (m.role == "user" || m.role == "assistant") && m.timestamp.Some?
  }

  function EventsOfMessages(sessionId: string, ms: seq<Message>): (r: seq<Event>)
    ensures |r| == |ms|
    ensures forall i :: 0 <= i < |ms| ==> r[i] == EventOfMessage(sessionId, ms[i])
  {
    if |ms| == 0 then [] else EventsOfMessages(sessionId, ms[..|ms| - 1]) + [EventOfMessage(sessionId, ms[|ms| - 1])]
  }

  /** Conversation round trip: messages logged as events in timestamp order are read back
      by the conversation query as the same messages, in the same order. */
  lemma {:induction false} ConversationRoundTrip(sessionId: string, ms: seq<Message>)
    requires forall i :: 0 <= i < |ms| ==> Loggable(ms[i])
    requires forall i, j :: 0 <= i < j < |ms| ==> ms[i].timestamp.GetOr(0) <= ms[j].timestamp.GetOr(0)
    ensures ConversationOf(QueryEvents(EventsOfMessages(sessionId, ms), sessionId, MessageTypes)) == ms
  {
    var es := EventsOfMessages(sessionId, ms);
    SelectAll(es, sessionId, MessageTypes);
    assert SortedByTime(es);
    SortByTimeKeepsSorted(es);
    ConversationOfMessages(sessionId, ms);
  }

  lemma {:induction false} SelectAll(es: seq<Event>, sessionId: string, types: seq<string>)
    requires forall i :: 0 <= i < |es| ==> Selected(es[i], sessionId, types)
    ensures Select(es, sessionId, types) == es
  {
    if |es| > 0 {
      SelectAll(es[..|es| - 1], sessionId, types);
      assert es == es[..|es| - 1] + [es[|es| - 1]];
    }
  }

  lemma {:induction false} ConversationOfMessages(sessionId: string, ms: seq<Message>)
    requires forall i :: 0 <= i < |ms| ==> Loggable(ms[i])
    ensures ConversationOf(EventsOfMessages(sessionId, ms)) == ms
  {
    if |ms| > 0 {
      var init := ms[..|ms| - 1];
      var es := EventsOfMessages(sessionId, ms);
      assert es[..|es| - 1] == EventsOfMessages(sessionId, init);
      ConversationOfMessages(sessionId, init);
      assert ms == init + [ms[|ms| - 1]];
    }
  }

  /** Events other than user messages and assistant responses do not contribute: reading
      the whole log or only the two message types gives the same conversation. */
  lemma {:induction false} ConversationIgnoresOtherEvents(es: seq<Event>, sessionId: string)
    ensures ConversationOf(Select(es, sessionId, MessageTypes)) == ConversationOf(Select(es, sessionId, []))
  {
    if |es| > 0 {
      ConversationIgnoresOtherEvents(es[..|es| - 1], sessionId);
    }
  }

  // ---------------------------------------------------------------------------
  // Per-type statistics
  // ---------------------------------------------------------------------------

  /** One entry of the `event_types` dict, which keeps the order types were first seen in. */
  datatype TypeCount = TypeCount(eventType: string, count: nat)

  /** `counts.get(t, 0)`. */
  function CountOf(tc: seq<TypeCount>, t: string): nat {
    if |tc| == 0 then 0 else if tc[0].eventType == t then tc[0].count else CountOf(tc[1..], t)
  }

  /** The sum of the counts. */
  function Total(tc: seq<TypeCount>): nat {
    if |tc| == 0 then 0 else tc[0].count + Total(tc[1..])
  }

  function TypesOf(tc: seq<TypeCount>): set<string> {
    set i | 0 <= i < |tc| :: tc[i].eventType
  }

  predicate DistinctTypes(tc: seq<TypeCount>) {
    forall i, j :: 0 <= i < j < |tc| ==> tc[i].eventType != tc[j].eventType
  }

  /** `counts[t] = counts.get(t, 0) + 1`: increments an entry in place or appends a new one. */
  function Bump(tc: seq<TypeCount>, t: string): seq<TypeCount> {
    if |tc| == 0 then [TypeCount(t, 1)]
    else if tc[0].eventType == t then [tc[0].(count := tc[0].count + 1)] + tc[1..]
    else [tc[0]] + Bump(tc[1..], t)
  }

  lemma TypesOfCons(x: TypeCount, tc: seq<TypeCount>)
    ensures TypesOf([x] + tc) == {x.eventType} + TypesOf(tc)
  {
    var r := [x] + tc;
    forall y | y in TypesOf(r) ensures y in {x.eventType} + TypesOf(tc) {
      var i :| 0 <= i < |r| && r[i].eventType == y;
      if i > 0 { assert tc[i - 1].eventType == y; }
    }
    forall y | y in TypesOf(tc) ensures y in TypesOf(r) {
      var i :| 0 <= i < |tc| && tc[i].eventType == y;
      assert r[i + 1].eventType == y;
    }
    assert r[0].eventType == x.eventType;
  }

  lemma {:induction false} BumpCounts(tc: seq<TypeCount>, t: string)
    ensures forall u :: CountOf(Bump(tc, t), u) == CountOf(tc, u) + (if u == t then 1 else 0)
    ensures Total(Bump(tc, t)) == Total(tc) + 1
  {
    if |tc| > 0 && tc[0].eventType != t {
      BumpCounts(tc[1..], t);
      assert Bump(tc, t)[1..] == Bump(tc[1..], t);
    } else if |tc| > 0 {
      assert Bump(tc, t)[1..] == tc[1..];
    }
  }

  lemma {:induction false} BumpTypes(tc: seq<TypeCount>, t: string)
    ensures TypesOf(Bump(tc, t)) == TypesOf(tc) + {t}
  {
    if |tc| == 0 {
      assert Bump(tc, t)[0].eventType == t;
    } else {
      var rest := tc[1..];
      assert tc == [tc[0]] + rest;
      TypesOfCons(tc[0], rest);
      if tc[0].eventType == t {
        TypesOfCons(tc[0].(count := tc[0].count + 1), rest);
      } else {
        BumpTypes(rest, t);
        TypesOfCons(tc[0], Bump(rest, t));
      }
    }
  }

  lemma {:induction false} BumpDistinct(tc: seq<TypeCount>, t: string)
    requires DistinctTypes(tc)
    ensures DistinctTypes(Bump(tc, t))
  {
    if |tc| > 0 && tc[0].eventType != t {
      var rest := tc[1..];
      BumpDistinct(rest, t);
      BumpTypes(rest, t);
      var b := Bump(rest, t);
      var r := Bump(tc, t);
      assert tc[0].eventType !in TypesOf(rest);
      forall i, j | 0 <= i < j < |r| ensures r[i].eventType != r[j].eventType {
        if i == 0 {
          assert r[j] == b[j - 1];
          assert b[j - 1].eventType in TypesOf(b);
        } else {
          assert r[i] == b[i - 1] && r[j] == b[j - 1];
        }
      }
    } else if |tc| > 0 {
      var r := Bump(tc, t);
      forall i, j | 0 <= i < j < |r| ensures r[i].eventType != r[j].eventType {
        assert r[j] == tc[j];
        if i > 0 { assert r[i] == tc[i]; }
      }
    }
  }

  /** The `event_types` dict `get_session_statistics` builds with its loop. */
  function TypeCounts(es: seq<Event>): seq<TypeCount> {
    if |es| == 0 then [] else Bump(TypeCounts(es[..|es| - 1]), es[|es| - 1].eventType)
  }

  /** Statistics additivity: every type occurs once, with its number of events, and the
      counts add up to the number of events. */
  lemma {:induction false} TypeCountsCorrect(es: seq<Event>)
    ensures DistinctTypes(TypeCounts(es))
    ensures forall t :: CountOf(TypeCounts(es), t) == CountType(es, t)
    ensures Total(TypeCounts(es)) == |es|
    ensures TypesOf(TypeCounts(es)) == set i | 0 <= i < |es| :: es[i].eventType
  {
    if |es| > 0 {
      var init := es[..|es| - 1];
      TypeCountsCorrect(init);
      BumpCounts(TypeCounts(init), es[|es| - 1].eventType);
      BumpTypes(TypeCounts(init), es[|es| - 1].eventType);
      BumpDistinct(TypeCounts(init), es[|es| - 1].eventType);
      var all := set i | 0 <= i < |es| :: es[i].eventType;
      var before := set i | 0 <= i < |init| :: init[i].eventType;
      assert all == before + {es[|es| - 1].eventType} by {
        forall x | x in all ensures x in before + {es[|es| - 1].eventType} {
          var i :| 0 <= i < |es| && es[i].eventType == x;
          if i < |init| { assert init[i].eventType == x; }
        }
        forall x | x in before ensures x in all {
          var i :| 0 <= i < |init| && init[i].eventType == x;
          assert es[i].eventType == x;
        }
      }
    }
  }

  datatype Stats = Stats(
    totalEvents: nat,
    userMessages: nat,
    assistantResponses: nat,
    functionCalls: nat,
    eventTypes: seq<TypeCount>)

  /** The statistics of a list of events, as `get_session_statistics` computes them. */
  function StatsOf(es: seq<Event>): Stats {
    Stats(|es|, CountType(es, UserMessage), CountType(es, AssistantResponse), CountType(es, FunctionCall),
          TypeCounts(es))
  }

  /** The headline counters agree with the per-type table (0 for a type that never
      occurred), and the per-type counts sum to the total. */
  lemma StatsConsistent(es: seq<Event>)
    ensures var st := StatsOf(es);
            && st.totalEvents == Total(st.eventTypes)
            && st.userMessages == CountOf(st.eventTypes, UserMessage)
            && st.assistantResponses == CountOf(st.eventTypes, AssistantResponse)
            && st.functionCalls == CountOf(st.eventTypes, FunctionCall)
  {
    TypeCountsCorrect(es);
  }

  function TypeCountFields(tc: seq<TypeCount>): seq<Field> {
    if |tc| == 0 then [] else [Field(tc[0].eventType, JNum(tc[0].count, 0))] + TypeCountFields(tc[1..])
  }

  /** The statistics dict as it is embedded in an event payload. */
  function StatsJson(st: Stats): Json {
    JObj([
      Field("total_events", JNum(st.totalEvents, 0)),
      Field("user_messages", JNum(st.userMessages, 0)),
      Field("assistant_responses", JNum(st.assistantResponses, 0)),
      Field("function_calls", JNum(st.functionCalls, 0)),
      Field("event_types", JObj(TypeCountFields(st.eventTypes)))
    ])
  }
}
