/** The post-session processor (`SessionProcessor` in session_processor.py): the
    humanised duration, the transcript rendering, the summary decision with its
    failure-to-text policy, the per-event one-line summaries, the insights report and the
    cross-session pattern analysis. The summarisation provider is a function from prompt
    to reply, so that "the provider is not consulted" is a statement about the result. */
module Processor {
  import opened Common
  import opened JsonValues
  import opened Records
  import opened Ledger

  const Placeholder := "No conversation data available for this session."

  /** `str(e)` of the TypeError `_format_duration(None)` raises at its first comparison. */
  const NoneComparisonMessage := "'<' not supported between instances of 'NoneType' and 'int'"
  /** `str(e)` of the TypeError `sum` raises on a null duration. */
  const NoneAdditionMessage := "unsupported operand type(s) for +: 'int' and 'NoneType'"
  /** `str(e)` of the AttributeError `session.get(...)` raises when the session is missing. */
  const NoneAttributeMessage := "'NoneType' object has no attribute 'get'"
  const NoSessionsMessage := "No sessions found for user"

  const PostProcessingComplete := "post_processing_complete"
  const PostProcessingError := "post_processing_error"

  // ---------------------------------------------------------------------------
  // _format_duration
  // ---------------------------------------------------------------------------

  function FormatDuration(seconds: int): string {
    if seconds < 60 then IntToString(seconds) + " seconds"
    else if seconds < 3600 then NatToString(seconds / 60) + " minutes, " + NatToString(seconds % 60) + " seconds"
    else NatToString(seconds / 3600) + " hours, " + NatToString((seconds % 3600) / 60) + " minutes"
  }

  /** Between a minute and an hour the text names the minutes and the remaining seconds:
      any split of the duration into whole minutes and fewer than 60 seconds is the one shown. */
  lemma FormatDurationMinutes(seconds: int, m: nat, s: nat)
    requires 60 <= seconds < 3600
    requires seconds == 60 * m + s && s < 60
    ensures m < 60
    ensures FormatDuration(seconds) == NatToString(m) + " minutes, " + NatToString(s) + " seconds"
  {
    DivisionOf(seconds, 60, m, s);
  }

  /** From an hour on the text names the hours and the remaining whole minutes; leftover
      seconds are dropped, not rounded. */
  lemma FormatDurationHours(seconds: int, h: nat, m: nat, s: nat)
    requires seconds >= 3600
    requires seconds == 3600 * h + 60 * m + s && m < 60 && s < 60
    ensures h >= 1
    ensures FormatDuration(seconds) == NatToString(h) + " hours, " + NatToString(m) + " minutes"
  {
    DivisionOf(seconds, 3600, h, 60 * m + s);
    DivisionOf(60 * m + s, 60, m, s);
  }

  /** The quotient and remainder of a division are the unique such split. */
  lemma DivisionOf(n: int, d: int, q: int, r: int)
    requires d > 0 && n == d * q + r && 0 <= r < d
    ensures n / d == q && n % d == r
  {
    var k := q - n / d;
    assert d * k == n % d - r by {
      assert n == d * (n / d) + n % d;
      assert d * q - d * (n / d) == d * k;
    }
    assert -d < d * k < d;
  }

  /** Below a minute the number is shown as it is, negative durations included. */
  lemma FormatDurationSeconds(seconds: int)
    requires seconds < 60
    ensures seconds >= 0 ==> FormatDuration(seconds) == NatToString(seconds) + " seconds"
    ensures seconds < 0 ==> FormatDuration(seconds) == "-" + NatToString(-seconds) + " seconds"
  {
  }

  lemma FormatDurationExampleSeconds()
    ensures FormatDuration(45) == "45 seconds"
  {
    assert NatToString(45) == "45" by {
      assert NatToString(4) == [DigitChar(4)] && DigitChar(4) == '4';
      assert NatToString(45) == NatToString(4) + [DigitChar(5)] && DigitChar(5) == '5';
    }
  }

  lemma FormatDurationExampleMinutes()
    ensures FormatDuration(125) == "2 minutes, 5 seconds"
  {
    FormatDurationMinutes(125, 2, 5);
    assert NatToString(2) == [DigitChar(2)] && DigitChar(2) == '2';
    assert NatToString(5) == [DigitChar(5)] && DigitChar(5) == '5';
  }

  lemma FormatDurationExampleHours()
    ensures FormatDuration(3725) == "1 hours, 2 minutes"
  {
    FormatDurationHours(3725, 1, 2, 5);
    assert NatToString(1) == [DigitChar(1)] && DigitChar(1) == '1';
    assert NatToString(2) == [DigitChar(2)] && DigitChar(2) == '2';
  }

  // ---------------------------------------------------------------------------
  // _format_conversation
  // ---------------------------------------------------------------------------

  function TimestampText(t: Option<nat>): string {
    match t
    case Some(v) => NatToString(v)
    case None => ""
  }

  /** One transcript line: `[timestamp] ROLE: content`. */
  function FormatLine(m: Message): (r: string)
    ensures |r| == |"[" + TimestampText(m.timestamp) + "] " + Upper(m.role) + ": "| + |m.content|
    ensures StartsWith(r, "[" + TimestampText(m.timestamp) + "] " + Upper(m.role) + ": ")
    ensures r[|r| - |m.content|..] == m.content
  {
    "[" + TimestampText(m.timestamp) + "] " + Upper(m.role) + ": " + m.content
  }

  function FormattedLines(conversation: seq<Message>): (r: seq<string>)
    ensures |r| == |conversation|
    ensures forall i :: 0 <= i < |r| ==> r[i] == FormatLine(conversation[i])
  {
    seq(|conversation|, i requires 0 <= i < |conversation| => FormatLine(conversation[i]))
  }

  /** The transcript text: the lines joined with newlines. */
  function Transcript(conversation: seq<Message>): string {
    Join(FormattedLines(conversation), "\n")
  }

  /** The transcript grows by one line per message, appended after a newline. */
  lemma TranscriptAppend(conversation: seq<Message>, m: Message)
    ensures Transcript(conversation + [m]) ==
              if conversation == [] then FormatLine(m) else Transcript(conversation) + "\n" + FormatLine(m)
  {
    var lines := FormattedLines(conversation + [m]);
    assert lines[..|lines| - 1] == FormattedLines(conversation);
  }

  /** `_format_conversation`: builds the list of lines in a loop, then joins it. */
  method FormatConversation(conversation: seq<Message>) returns (text: string)
    ensures text == Transcript(conversation)
  {
    var formatted: seq<string> := [];
    var i := 0;
    while i < |conversation|
      invariant 0 <= i <= |conversation|
      invariant formatted == FormattedLines(conversation[..i])
    {
      var msg := conversation[i];
      formatted := formatted + [FormatLine(msg)];
      i := i + 1;
    }
    assert conversation[..i] == conversation;
    text := Join(formatted, "\n");
  }

  // ---------------------------------------------------------------------------
  // generate_summary and the summary decision of process_session
  // ---------------------------------------------------------------------------

  /** The instruction sent to the summarisation provider: fixed wording around the
      session's identifiers, the humanised duration and the transcript. */
  function SummaryPrompt(session: Session, durationText: string, conversationText: string): string {
    (PromptHead + session.sessionId + DurationLabel) + durationText + (UserLabel + session.userId + ConversationLabel)
    + conversationText + PromptTail
  }

  const PromptHead :=
    "Analyze the following conversation and provide a concise summary.\n\nSession Information:\n- Session ID: "
  const DurationLabel := "\n- Duration: "
  const UserLabel := "\n- User ID: "
  const ConversationLabel := "\n\nConversation:\n"

  const PromptTail :=
    "\n\nPlease provide:\n1. A brief overview (2-3 sentences) of what was discussed\n2. Key topics or themes\n"
    + "3. Any actions taken or tools used\n4. Overall sentiment and engagement level\n\n"
    + "Keep the summary concise and informative."

  lemma InfixesContained(a: string, x: string, b: string, y: string, c: string)
    ensures Contains(a + x + b + y + c, x)
    ensures Contains(a + x + b + y + c, y)
  {
    var t := a + x + b + y + c;
    assert t[|a|..|a| + |x|] == x;
    assert OccursAt(t, x, |a|);
    assert t[|a + x + b|..|a + x + b| + |y|] == y;
    assert OccursAt(t, y, |a + x + b|);
  }

  /** The prompt carries the humanised duration and the whole transcript. */
  lemma SummaryPromptEmbeds(session: Session, durationText: string, conversationText: string)
    ensures Contains(SummaryPrompt(session, durationText, conversationText), durationText)
    ensures Contains(SummaryPrompt(session, durationText, conversationText), conversationText)
  {
    InfixesContained(PromptHead + session.sessionId + DurationLabel, durationText,
                     UserLabel + session.userId + ConversationLabel, conversationText, PromptTail);
  }

  function ErrorSummary(message: string): string {
    "Error generating summary: " + message
  }

  /** What `generate_summary` returns: the provider's reply to the prompt, or the error
      text when the provider fails or the session has no recorded duration. */
  function SummaryFor(conversation: seq<Message>, session: Session, summarise: string -> Result<string>): string {
    match session.durationSeconds
    case None => ErrorSummary(NoneComparisonMessage)
    case Some(d) =>
      match summarise(SummaryPrompt(session, FormatDuration(d), Transcript(conversation)))
      case Ok(text) => text
      case Err(message) => ErrorSummary(message)
  }

  /** `generate_summary`: never raises; every failure becomes the summary text. */
  method GenerateSummary(conversation: seq<Message>, session: Session, summarise: string -> Result<string>)
    returns (summary: string)
    ensures summary == SummaryFor(conversation, session, summarise)
  {
    var conversationText := FormatConversation(conversation);
    if session.durationSeconds.None? {
      return ErrorSummary(NoneComparisonMessage);
    }
    var durationText := FormatDuration(session.durationSeconds.value);
    var prompt := SummaryPrompt(session, durationText, conversationText);
    match summarise(prompt)
    case Ok(text) => summary := text;
    case Err(message) => summary := ErrorSummary(message);
  }

  /** The summary `process_session` persists. */
  function PlannedSummary(conversation: seq<Message>, session: Session, summarise: string -> Result<string>): string {
    if |conversation| == 0 then Placeholder else SummaryFor(conversation, session, summarise)
  }

  /** An empty conversation gets the placeholder, whatever the provider would have said:
      the provider is not consulted. */
  lemma EmptyConversationPlaceholder(session: Session, f: string -> Result<string>, g: string -> Result<string>)
    ensures PlannedSummary([], session, f) == Placeholder
    ensures PlannedSummary([], session, f) == PlannedSummary([], session, g)
  {
  }

  /** A non-empty conversation of an ended session is summarised by the provider from a
      prompt holding its transcript; a provider failure becomes the error text. */
  lemma NonEmptyConversationSummary(conversation: seq<Message>, session: Session, summarise: string -> Result<string>)
    requires |conversation| > 0 && session.durationSeconds.Some?
    ensures var prompt := SummaryPrompt(session, FormatDuration(session.durationSeconds.value), Transcript(conversation));
            && Contains(prompt, Transcript(conversation))
            && PlannedSummary(conversation, session, summarise) ==
                 match summarise(prompt)
                 case Ok(text) => text
                 case Err(message) => ErrorSummary(message)
  {
    var transcript := Transcript(conversation);
    SummaryPromptEmbeds(session, FormatDuration(session.durationSeconds.value), transcript);
  }

  /** The payload of the completion event. */
  function CompletionData(summary: string, stats: Stats): Json {
    JObj([
      Field("summary_generated", JBool(true)),
      Field("summary_length", JNum(|summary|, 0)),
      Field("statistics", StatsJson(stats))
    ])
  }

  function ErrorData(message: string): Json {
    JObj([Field("error", JStr(message))])
  }

  /** The completion event always reports a generated summary and the summary's length. */
  lemma CompletionDataReports(summary: string, stats: Stats)
    ensures Get(CompletionData(summary, stats), "summary_generated") == Some(JBool(true))
    ensures Get(CompletionData(summary, stats), "summary_length") == Some(JNum(|summary|, 0))
    ensures Get(CompletionData(summary, stats), "statistics") == Some(StatsJson(stats))
  {
    var fields := CompletionData(summary, stats).fields;
    assert Lookup(fields, "summary_length") == Lookup(fields[1..], "summary_length");
    assert Lookup(fields, "statistics") == Lookup(fields[1..], "statistics") == Lookup(fields[1..][1..], "statistics");
  }

  // ---------------------------------------------------------------------------
  // _summarize_event
  // ---------------------------------------------------------------------------

  /** At most 50 characters of the content, followed by "..." when some were cut. */
  function Excerpt(content: string): string {
    if |content| > 50 then content[..50] + "..." else content
  }

  /** `str(e)` of the TypeError `len(content)` raises on a value that has no length. */
  function NoLenMessage(v: Json): string {
    "object of type '" + TypeName(v) + "' has no len()"
  }

  /** `str(e)` of the AttributeError `data.get(...)` raises on a payload that is not a dict. */
  function NoGetMessage(v: Json): string {
    "'" + TypeName(v) + "' object has no attribute 'get'"
  }

  /** `str(e)` of the TypeError `content[:50]` raises on a dict: a slice is no dict key. */
  const SliceKeyMessage := "unhashable type: 'slice'"

  /** `f"{content[:50]}..." if len(content) > 50 else f"{content}"`: a string is cut to 50
      characters, a list to 50 items, a dict has no slices, anything else has no length. */
  function ContentExcerpt(content: Json): Result<string> {
    match content
    case JStr(s) => Ok(Excerpt(s))
    case JList(items) => Ok(if |items| > 50 then Repr(JList(items[..50])) + "..." else Repr(content))
    case JObj(fields) => if |fields| > 50 then Err(SliceKeyMessage) else Ok(Repr(content))
    case _ => Err(NoLenMessage(content))
  }

  /** The tag a message event's summary starts with. */
  function MessageTag(e: Event): string {
    if e.eventType == UserMessage then "User: " else "Assistant: "
  }

  function Tagged(tag: string, r: Result<string>): Result<string> {
    match r
    case Ok(text) => Ok(tag + text)
    case Err(message) => Err(message)
  }

  /** `_summarize_event`: the one-line summary of an event, or the error its formatting raises. */
  function SummarizeEvent(e: Event): Result<string> {
    if e.eventType !in [UserMessage, AssistantResponse, FunctionCall, FunctionResult] then Ok("Event: " + e.eventType)
    else if !e.data.JObj? then Err(NoGetMessage(e.data))
    else if e.eventType == UserMessage || e.eventType == AssistantResponse then
      Tagged(MessageTag(e), ContentExcerpt(GetOr(e.data, "content", JStr(""))))
    else if e.eventType == FunctionCall then Ok("Called function: " + TextOr(e.data, "function_name", "unknown"))
    else Ok("Function " + TextOr(e.data, "function_name", "unknown") + " completed")
  }

  /** A message event's summary is its tag before the excerpt of its content (nothing when
      the content is missing). A number, a boolean or null has no length, and a payload that
      is not an object has no `get`: both raise. */
  lemma SummarizeMessageEvent(e: Event)
    requires e.eventType == UserMessage || e.eventType == AssistantResponse
    ensures var content := GetOr(e.data, "content", JStr(""));
            var r := SummarizeEvent(e);
            && (!e.data.JObj? ==> r == Err(NoGetMessage(e.data)))
            && (e.data.JObj? ==> r == Tagged(MessageTag(e), ContentExcerpt(content)))
            && (e.data.JObj? && Get(e.data, "content").None? ==> r == Ok(MessageTag(e)))
            && (e.data.JObj? && (content.JNull? || content.JBool? || content.JNum?) ==>
                  r == Err(NoLenMessage(content)))
  {
    if e.data.JObj? && Get(e.data, "content").None? {
      assert SummarizeEvent(e) == Ok(MessageTag(e) + "");
      assert MessageTag(e) + "" == MessageTag(e);
    }
  }

  /** Text content is shown whole when it has at most 50 characters, otherwise as its first
      50 characters and "...". */
  lemma SummarizeMessageText(e: Event)
    requires e.eventType == UserMessage || e.eventType == AssistantResponse
    requires e.data.JObj? && GetOr(e.data, "content", JStr("")).JStr?
    ensures var text := GetOr(e.data, "content", JStr("")).s;
            var tag := MessageTag(e);
            var r := SummarizeEvent(e);
            && r.Ok? && StartsWith(r.value, tag)
            && (|text| <= 50 ==> r.value[|tag|..] == text)
            && (|text| > 50 ==> |r.value| == |tag| + 53 && r.value[|tag|..|tag| + 50] == text[..50]
                                && r.value[|tag| + 50..] == "...")
  {
    var text := GetOr(e.data, "content", JStr("")).s;
    var tag := MessageTag(e);
    SummarizeMessageEvent(e);
    if |text| > 50 {
      var head := tag + text[..50];
      var shown := tag + (text[..50] + "...");
      assert SummarizeEvent(e) == Ok(shown);
      assert shown == head + "..." && |head| == |tag| + 50;
      assert shown[|tag|..|tag| + 50] == text[..50] && shown[|head|..] == "...";
    }
  }

  /** List content over 50 items is shown as the `repr` of its first 50 items and "...". */
  lemma SummarizeMessageList(e: Event)
    requires e.eventType == UserMessage || e.eventType == AssistantResponse
    requires e.data.JObj? && GetOr(e.data, "content", JStr("")).JList?
    ensures var items := GetOr(e.data, "content", JStr("")).items;
            var r := SummarizeEvent(e);
            && (|items| > 50 ==> r == Ok(MessageTag(e) + Repr(JList(items[..50])) + "..."))
            && (|items| <= 50 ==> r == Ok(MessageTag(e) + Repr(JList(items))))
  {
    var items := GetOr(e.data, "content", JStr("")).items;
    SummarizeMessageEvent(e);
    if |items| > 50 {
      var shown := Repr(JList(items[..50]));
      assert MessageTag(e) + (shown + "...") == MessageTag(e) + shown + "...";
    }
  }

  /** Function events name the function ("unknown" when the payload has none) and raise
      when the payload is not an object; any other event names its type. */
  lemma SummarizeOtherEvent(e: Event)
    requires e.eventType != UserMessage && e.eventType != AssistantResponse
    ensures var r := SummarizeEvent(e);
            var name := TextOr(e.data, "function_name", "unknown");
            var named := e.eventType == FunctionCall || e.eventType == FunctionResult;
            && (named && !e.data.JObj? ==> r == Err(NoGetMessage(e.data)))
            && (e.eventType == FunctionCall && e.data.JObj? ==>
                  r.Ok? && StartsWith(r.value, "Called function: ") && r.value[17..] == name)
            && (e.eventType == FunctionResult && e.data.JObj? ==>
                  r.Ok? && StartsWith(r.value, "Function ") && r.value[9..|r.value| - 10] == name
                  && r.value[|r.value| - 10..] == " completed")
            && (!named ==> r.Ok? && StartsWith(r.value, "Event: ") && r.value[7..] == e.eventType)
            && (named && Get(e.data, "function_name").None? ==> name == "unknown")
  {
  }

  // ---------------------------------------------------------------------------
  // generate_insights_report: timeline and response pairs
  // ---------------------------------------------------------------------------

  datatype TimelineEntry = TimelineEntry(timestamp: nat, eventType: string, summary: string)

  /** The error the timeline loop raises: that of the first event whose summary raises. */
  function TimelineFailure(es: seq<Event>): Option<string> {
    if |es| == 0 then None
    else
      match TimelineFailure(es[..|es| - 1])
      case Some(message) => Some(message)
      case None =>
        match SummarizeEvent(es[|es| - 1])
        case Err(message) => Some(message)
        case Ok(_) => None
  }

  /** The timeline fails exactly when some event's summary raises, and then with the error
      of the first such event. */
  lemma {:induction false} TimelineFailureFirst(es: seq<Event>)
    ensures TimelineFailure(es).None? <==> forall k :: 0 <= k < |es| ==> SummarizeEvent(es[k]).Ok?
    ensures TimelineFailure(es).Some? ==>
              exists k :: 0 <= k < |es| && SummarizeEvent(es[k]) == Err(TimelineFailure(es).value)
                          && forall j :: 0 <= j < k ==> SummarizeEvent(es[j]).Ok?
  {
    if |es| > 0 {
      var init := es[..|es| - 1];
      TimelineFailureFirst(init);
      assert forall k :: 0 <= k < |init| ==> init[k] == es[k];
      if TimelineFailure(init).Some? {
        var k :| 0 <= k < |init| && SummarizeEvent(init[k]) == Err(TimelineFailure(init).value)
                 && forall j :: 0 <= j < k ==> SummarizeEvent(init[j]).Ok?;
        assert SummarizeEvent(es[k]) == Err(TimelineFailure(es).value);
      }
    }
  }

  /** Once an event's summary has raised, later events do not change the error. */
  lemma {:induction false} TimelineFailureStops(es: seq<Event>, n: nat)
    requires n <= |es| && TimelineFailure(es[..n]).Some?
    ensures TimelineFailure(es) == TimelineFailure(es[..n])
    decreases |es| - n
  {
    if n < |es| {
      assert es[..n + 1][..n] == es[..n];
      TimelineFailureStops(es, n + 1);
    } else {
      assert es[..n] == es;
    }
  }

  /** A timeline entry holds its event's timestamp, type and summary. */
  predicate Describes(entry: TimelineEntry, e: Event) {
    entry.timestamp == e.timestamp && entry.eventType == e.eventType && SummarizeEvent(e) == Ok(entry.summary)
  }

  lemma TimelineFailureStep(es: seq<Event>, i: nat)
    requires i < |es| && TimelineFailure(es[..i]).None?
    ensures TimelineFailure(es[..i + 1]) == (if SummarizeEvent(es[i]).Err? then Some(SummarizeEvent(es[i]).message) else None)
  {
    assert es[..i + 1][..i] == es[..i];
  }

  /** The timeline loop: one entry per event, in order, until an event's summary raises. */
  method Timeline(es: seq<Event>) returns (r: Result<seq<TimelineEntry>>)
    ensures r.Err? <==> TimelineFailure(es).Some?
    ensures r.Err? ==> r.message == TimelineFailure(es).value
    ensures r.Ok? ==> |r.value| == |es| && forall k :: 0 <= k < |es| ==> Describes(r.value[k], es[k])
  {
    var timeline := [];
    var i := 0;
    while i < |es|
      invariant 0 <= i <= |es|
      invariant TimelineFailure(es[..i]).None?
      invariant |timeline| == i
      invariant forall k :: 0 <= k < i ==> Describes(timeline[k], es[k])
    {
      var event := es[i];
      var summary := SummarizeEvent(event);
      TimelineFailureStep(es, i);
      if summary.Err? {
        TimelineFailureStops(es, i + 1);
        return Err(summary.message);
      }
      timeline := timeline + [TimelineEntry(event.timestamp, event.eventType, summary.value)];
      i := i + 1;
    }
    assert es[..i] == es;
    r := Ok(timeline);
  }

  /** A user message directly followed by an assistant response starts at index `i`. */
  predicate IsResponsePair(es: seq<Event>, i: nat) {
    i + 1 < |es| && es[i].eventType == UserMessage && es[i + 1].eventType == AssistantResponse
  }

  /** The starts of all response pairs below `n`, in increasing order. */
  function PairStarts(es: seq<Event>, n: nat): (r: seq<nat>)
    requires n <= |es|
    ensures |r| <= n
  {
    if n == 0 then [] else PairStarts(es, n - 1) + (if IsResponsePair(es, n - 1) then [n - 1] else [])
  }

  /** The pair starts are exactly the response pairs below `n`, each once, in order. */
  lemma {:induction false} PairStartsCorrect(es: seq<Event>, n: nat)
    requires n <= |es|
    ensures forall k :: 0 <= k < |PairStarts(es, n)| ==> PairStarts(es, n)[k] < n && IsResponsePair(es, PairStarts(es, n)[k])
    ensures forall i: nat :: i < n && IsResponsePair(es, i) ==> i in PairStarts(es, n)
    ensures forall a, b :: 0 <= a < b < |PairStarts(es, n)| ==> PairStarts(es, n)[a] < PairStarts(es, n)[b]
  {
    PairStartsSound(es, n);
    PairStartsComplete(es, n);
  }

  /** Every listed start is a response pair below `n`, and the starts increase. */
  lemma {:induction false} PairStartsSound(es: seq<Event>, n: nat)
    requires n <= |es|
    ensures forall k :: 0 <= k < |PairStarts(es, n)| ==> PairStarts(es, n)[k] < n && IsResponsePair(es, PairStarts(es, n)[k])
    ensures forall a, b :: 0 <= a < b < |PairStarts(es, n)| ==> PairStarts(es, n)[a] < PairStarts(es, n)[b]
  {
    if n > 0 {
      PairStartsSound(es, n - 1);
      var prev := PairStarts(es, n - 1);
      var r := PairStarts(es, n);
      assert r == prev + (if IsResponsePair(es, n - 1) then [n - 1] else []);
      forall k | 0 <= k < |r| ensures r[k] < n && IsResponsePair(es, r[k]) {
        if k < |prev| {
          assert r[k] == prev[k];
        }
      }
      forall a, b | 0 <= a < b < |r| ensures r[a] < r[b] {
        assert r[a] == prev[a];
      }
    }
  }

  /** Every response pair below `n` is listed. */
  lemma {:induction false} PairStartsComplete(es: seq<Event>, n: nat)
    requires n <= |es|
    ensures forall i: nat :: i < n && IsResponsePair(es, i) ==> i in PairStarts(es, n)
  {
    if n > 0 {
      PairStartsComplete(es, n - 1);
      var prev := PairStarts(es, n - 1);
      var r := PairStarts(es, n);
      assert r == prev + (if IsResponsePair(es, n - 1) then [n - 1] else []);
      forall i: nat | i < n && IsResponsePair(es, i) ensures i in r {
        if i < n - 1 {
          assert i in prev;
        } else {
          assert r[|r| - 1] == i;
        }
      }
    }
  }

  /** The latency of the pair starting at `i`, in clock units. */
  function Latency(es: seq<Event>, i: nat): int
    requires i + 1 < |es|
  {
    es[i + 1].timestamp - es[i].timestamp
  }

  /** The response latencies of the pairs below `n`, in pair order. */
  function Latencies(es: seq<Event>, n: nat): (r: seq<int>)
    requires n <= |es|
    ensures |r| == |PairStarts(es, n)|
  {
    if n == 0 then [] else Latencies(es, n - 1) + (if IsResponsePair(es, n - 1) then [Latency(es, n - 1)] else [])
  }

  /** The k-th latency belongs to the k-th response pair. */
  lemma {:induction false} LatenciesOfPairs(es: seq<Event>, n: nat)
    requires n <= |es|
    ensures forall k :: 0 <= k < |Latencies(es, n)| ==>
              PairStarts(es, n)[k] + 1 < |es| && Latencies(es, n)[k] == Latency(es, PairStarts(es, n)[k])
  {
    if n > 0 {
      LatenciesOfPairs(es, n - 1);
      PairStartsCorrect(es, n);
    }
  }

  /** There are no latencies exactly when no user message is directly answered. */
  lemma NoPairsNoLatencies(es: seq<Event>)
    ensures Latencies(es, |es|) == [] <==> forall i: nat :: !IsResponsePair(es, i)
  {
    PairStartsCorrect(es, |es|);
    if PairStarts(es, |es|) != [] {
      assert IsResponsePair(es, PairStarts(es, |es|)[0]);
    }
  }

  /** The adjacent-pair scan: one latency per user message directly answered by an
      assistant response, and none when there is no such pair (the average is then 0). */
  method ResponseTimes(es: seq<Event>) returns (times: seq<int>)
    ensures times == Latencies(es, |es|)
    ensures times == [] <==> forall i: nat :: !IsResponsePair(es, i)
  {
    times := [];
    var i := 0;
    while i + 1 < |es|
      invariant 0 <= i <= |es|
      invariant |es| > 0 ==> i <= |es| - 1
      invariant times == Latencies(es, i)
    {
      if es[i].eventType == UserMessage && es[i + 1].eventType == AssistantResponse {
        var t1: int := es[i].timestamp;
        var t2: int := es[i + 1].timestamp;
        times := times + [t2 - t1];
      }
      i := i + 1;
    }
    if |es| > 0 {
      assert Latencies(es, |es|) == Latencies(es, i);
    }
    NoPairsNoLatencies(es);
  }

  /** `generate_insights_report`'s result (the float average is left to the reader of
      `responseTimes`). */
  datatype Insights = Insights(
    sessionId: string,
    sessionSummary: Option<string>,
    statistics: Stats,
    timeline: seq<TimelineEntry>,
    responseTimes: seq<int>,
    totalInteractions: nat,
    toolsUtilized: nat)

  // ---------------------------------------------------------------------------
  // analyze_session_patterns: integer aggregates
  // ---------------------------------------------------------------------------

  /** `sum(s.get("duration_seconds", 0) for s in sessions)`: the column is always present,
      so a null duration makes the sum raise. */
  function TotalDuration(sessions: seq<Session>): Option<int> {
    if |sessions| == 0 then Some(0)
    else
      match (TotalDuration(sessions[..|sessions| - 1]), sessions[|sessions| - 1].durationSeconds)
      case (Some(t), Some(d)) => Some(t + d)
      case _ => None
  }

  lemma {:induction false} TotalDurationDefined(sessions: seq<Session>)
    ensures TotalDuration(sessions).Some? <==> forall i :: 0 <= i < |sessions| ==> sessions[i].durationSeconds.Some?
  {
    if |sessions| > 0 {
      TotalDurationDefined(sessions[..|sessions| - 1]);
    }
  }

  function TotalUserMessages(st: seq<Stats>): nat {
    if |st| == 0 then 0 else TotalUserMessages(st[..|st| - 1]) + st[|st| - 1].userMessages
  }

  function TotalAssistantResponses(st: seq<Stats>): nat {
    if |st| == 0 then 0 else TotalAssistantResponses(st[..|st| - 1]) + st[|st| - 1].assistantResponses
  }

  function TotalFunctionCalls(st: seq<Stats>): nat {
    if |st| == 0 then 0 else TotalFunctionCalls(st[..|st| - 1]) + st[|st| - 1].functionCalls
  }

  /** The function-call total is the number of function-call events over all the sessions. */
  lemma {:induction false} TotalFunctionCallsCountsEvents(st: seq<Stats>, perSession: seq<seq<Event>>)
    requires |st| == |perSession|
    requires forall i :: 0 <= i < |st| ==> st[i] == StatsOf(perSession[i])
    ensures TotalFunctionCalls(st) == CountType(Flatten(perSession), FunctionCall)
  {
    if |st| > 0 {
      var n := |st| - 1;
      TotalFunctionCallsCountsEvents(st[..n], perSession[..n]);
      CountTypeAppend(Flatten(perSession[..n]), perSession[n], FunctionCall);
      assert perSession == perSession[..n] + [perSession[n]];
    }
  }

  function Flatten(xs: seq<seq<Event>>): seq<Event> {
    if |xs| == 0 then [] else Flatten(xs[..|xs| - 1]) + xs[|xs| - 1]
  }

  lemma {:induction false} CountTypeAppend(a: seq<Event>, b: seq<Event>, t: string)
    ensures CountType(a + b, t) == CountType(a, t) + CountType(b, t)
    decreases |b|
  {
    if |b| > 0 {
      CountTypeAppend(a, b[..|b| - 1], t);
      assert (a + b)[..|a + b| - 1] == a + b[..|b| - 1];
    } else {
      assert a + b == a;
    }
  }

  datatype Patterns = Patterns(
    userId: string,
    sessionsAnalyzed: nat,
    totalDurationSeconds: int,
    totalUserMessages: nat,
    totalAssistantResponses: nat,
    totalFunctionCalls: nat,
    mostRecentSession: string)

  // ---------------------------------------------------------------------------
  // The processor
  // ---------------------------------------------------------------------------

  /** The store outcomes of the calls one run of `process_session` makes. */
  datatype ProcessEnv = ProcessEnv(
    sessionRead: StoreOutcome,
    historyRead: StoreOutcome,
    update: StoreOutcome,
    statsRead: StoreOutcome,
    log: Stamp)

  class SessionProcessor {
    const db: DatabaseManager

    constructor (db: DatabaseManager)
      ensures this.db == db
    {
      this.db := db;
    }

    /** `process_session`: nothing when the session cannot be read; otherwise the planned
        summary is persisted and exactly one completion event is attempted, or, when
        persisting fails, exactly one error event carrying the failure. It never raises. */
    method ProcessSession(sessionId: string, summarise: string -> Result<string>, env: ProcessEnv)
      requires db.Valid()
      modifies db
      ensures db.Valid()
      ensures old(db.GetSession(sessionId, env.sessionRead)).None? ==>
                db.sessions == old(db.sessions) && db.events == old(db.events)
      ensures old(db.GetSession(sessionId, env.sessionRead)).Some? ==>
                var s := old(db.sessions[sessionId]);
                var summary := PlannedSummary(old(ConversationOf(db.Events(sessionId, MessageTypes, env.historyRead))),
                                              s, summarise);
                if env.update.Succeeds? then
                  var stats := StatsOf(old(db.Events(sessionId, [], env.statsRead)));
                  var done := NewEvent(sessionId, PostProcessingComplete, CompletionData(summary, stats), None, env.log.at);
                  && db.sessions == old(db.sessions)[sessionId := WithSummary(s, summary)]
                  && db.events == old(db.events) + Inserted(done, old(db.sessions), env.log.store)
                else
                  var failed := NewEvent(sessionId, PostProcessingError, ErrorData(env.update.message), None, env.log.at);
                  && db.sessions == old(db.sessions)
                  && db.events == old(db.events) + Inserted(failed, old(db.sessions), env.log.store)
    {
      var session := db.GetSession(sessionId, env.sessionRead);
      if session.None? {
        return;
      }
      var conversation := db.GetConversationHistory(sessionId, env.historyRead);
      var summary: string;
      if |conversation| == 0 {
        summary := Placeholder;
      } else {
        summary := GenerateSummary(conversation, session.value, summarise);
      }
      var updated := db.UpdateSessionSummary(sessionId, summary, env.update);
      if updated.Err? {
        var _ := db.LogEvent(sessionId, PostProcessingError, ErrorData(updated.message), None, env.log);
        return;
      }
      var stats := db.GetSessionStatistics(sessionId, env.statsRead);
      var _ := db.LogEvent(sessionId, PostProcessingComplete, CompletionData(summary, stats), None, env.log);
    }

    /** `generate_insights_report`: the timeline has one entry per event of the session, in
        order; latencies are recorded for adjacent user-message/assistant-response pairs
        only. The report is an error when an event's summary raises (that comes first) or
        when the session cannot be read. */
    method GenerateInsightsReport(sessionId: string, read: StoreOutcome) returns (r: Result<Insights>)
      requires db.Valid()
      ensures var es := db.Events(sessionId, [], read);
              TimelineFailure(es).Some? ==> r == Err(TimelineFailure(es).value)
      ensures var es := db.Events(sessionId, [], read);
              TimelineFailure(es).None? ==>
                && (r.Err? <==> db.GetSession(sessionId, read).None?)
                && (r.Err? ==> r.message == NoneAttributeMessage)
      ensures r.Ok? ==>
                var es := db.Events(sessionId, [], read);
                && r.value.sessionId == sessionId
                && r.value.sessionSummary == db.sessions[sessionId].summary
                && r.value.statistics == StatsOf(es)
                && |r.value.timeline| == |es|
                && (forall i :: 0 <= i < |es| ==>
                      SummarizeEvent(es[i]).Ok?
                      && r.value.timeline[i] == TimelineEntry(es[i].timestamp, es[i].eventType, SummarizeEvent(es[i]).value))
                && r.value.responseTimes == Latencies(es, |es|)
                && r.value.totalInteractions == CountType(es, UserMessage)
                && r.value.toolsUtilized == CountType(es, FunctionCall)
    {
      var session := db.GetSession(sessionId, read);
      var events := db.Events(sessionId, [], read);
      var stats := db.GetSessionStatistics(sessionId, read);
      var timeline := Timeline(events);
      if timeline.Err? {
        return Err(timeline.message);
      }
      var responseTimes := ResponseTimes(events);
      if session.None? {
        return Err(NoneAttributeMessage);
      }
      r := Ok(Insights(sessionId, session.value.summary, stats, timeline.value, responseTimes,
                       stats.userMessages, stats.functionCalls));
    }

    /** The statistics of each given session, as `get_session_statistics` reads them. */
    function StatsFor(sessions: seq<Session>, read: StoreOutcome): (r: seq<Stats>)
      reads db
      ensures |r| == |sessions|
    {
      if |sessions| == 0 then []
      else StatsFor(sessions[..|sessions| - 1], read) + [StatsOf(db.Events(sessions[|sessions| - 1].sessionId, [], read))]
    }

    /** The i-th entry holds the statistics of the i-th session. */
    lemma {:induction false} StatsForAt(sessions: seq<Session>, read: StoreOutcome)
      ensures forall i :: 0 <= i < |sessions| ==>
                StatsFor(sessions, read)[i] == StatsOf(db.Events(sessions[i].sessionId, [], read))
    {
      forall i | 0 <= i < |sessions|
        ensures StatsFor(sessions, read)[i] == StatsOf(db.Events(sessions[i].sessionId, [], read))
      {
        StatsForIndex(sessions, read, i);
      }
    }

    lemma {:induction false} StatsForIndex(sessions: seq<Session>, read: StoreOutcome, i: nat)
      requires i < |sessions|
      ensures StatsFor(sessions, read)[i] == StatsOf(db.Events(sessions[i].sessionId, [], read))
      decreases |sessions|
    {
      var init := sessions[..|sessions| - 1];
      if i < |init| {
        StatsForIndex(init, read, i);
        assert init[i] == sessions[i];
      }
    }

    /** The statistics loop of `analyze_session_patterns`: one read per session, in order. */
    method CollectStats(sessions: seq<Session>, read: StoreOutcome) returns (allStats: seq<Stats>)
      ensures allStats == StatsFor(sessions, read)
    {
      allStats := [];
      var i := 0;
      while i < |sessions|
        invariant 0 <= i <= |sessions|
        invariant allStats == StatsFor(sessions[..i], read)
      {
        var stats := db.GetSessionStatistics(sessions[i].sessionId, read);
        assert sessions[..i + 1][..i] == sessions[..i];
        allStats := allStats + [stats];
        i := i + 1;
      }
      assert sessions[..i] == sessions;
    }

    /** `analyze_session_patterns`: an error when the user has no readable sessions (or one
        of them has no duration); otherwise the number of sessions analysed and the integer
        totals over them. `analyzed` is the session list the query returned, which the report
        summarises. */
    method AnalyzeSessionPatterns(userId: string, limit: nat, read: StoreOutcome)
      returns (r: Result<Patterns>, analyzed: seq<Session>)
      requires db.Valid()
      ensures read.Succeeds? ==> |analyzed| == Min(limit, |db.UserSessions(userId)|)
      ensures read.Fails? ==> analyzed == []
      ensures forall i :: 0 <= i < |analyzed| ==>
                analyzed[i].sessionId in db.UserSessions(userId) && analyzed[i] == db.sessions[analyzed[i].sessionId]
      ensures forall i, j :: 0 <= i < j < |analyzed| ==>
                analyzed[i].sessionId != analyzed[j].sessionId && analyzed[i].startTime >= analyzed[j].startTime
      ensures read.Succeeds? ==> forall k, i :: k in db.UserSessions(userId) && 0 <= i < |analyzed| ==>
                k in IdsOf(analyzed) || db.sessions[k].startTime <= analyzed[i].startTime
      ensures analyzed == [] ==> r == Err(NoSessionsMessage)
      ensures analyzed != [] && TotalDuration(analyzed).None? ==> r == Err(NoneAdditionMessage)
      ensures analyzed != [] && TotalDuration(analyzed).Some? ==> r.Ok?
      ensures r.Ok? ==>
                && analyzed != [] && TotalDuration(analyzed).Some?
                && r.value.userId == userId
                && r.value.sessionsAnalyzed == |analyzed|
                && r.value.totalDurationSeconds == TotalDuration(analyzed).value
                && r.value.totalUserMessages == TotalUserMessages(StatsFor(analyzed, read))
                && r.value.totalAssistantResponses == TotalAssistantResponses(StatsFor(analyzed, read))
                && r.value.totalFunctionCalls == TotalFunctionCalls(StatsFor(analyzed, read))
                && r.value.mostRecentSession == analyzed[0].sessionId
    {
      var sessions := db.GetRecentSessions(userId, limit, read);
      analyzed := sessions;
      if |sessions| == 0 {
        return Err(NoSessionsMessage), analyzed;
      }
      var totalDuration := TotalDuration(sessions);
      if totalDuration.None? {
        return Err(NoneAdditionMessage), analyzed;
      }
      var allStats := CollectStats(sessions, read);
      r := Ok(Patterns(userId, |sessions|, totalDuration.value, TotalUserMessages(allStats),
                       TotalAssistantResponses(allStats), TotalFunctionCalls(allStats), sessions[0].sessionId));
    }
  }
}
