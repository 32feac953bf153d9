/** The realtime relay (main.py): the stub tool executor and the per-connection logic of
    the WebSocket endpoint — session opening, the message loop with keyword tool use and
    token streaming, and the teardown that ends the session and hands it to post-session
    processing. The client's messages arrive as a script of already-decoded inbound values;
    the streaming chat provider is a function from the conversation so far to its reply. */
module Relay {
  import opened Common
  import opened JsonValues
  import opened Records
  import opened Ledger

  // ---------------------------------------------------------------------------
  // execute_tool
  // ---------------------------------------------------------------------------

  const GetWeather := "get_weather"
  const SearchDatabase := "search_database"

  /** `execute_tool`: canned results for the two known tools, an error object otherwise. */
  function ExecuteTool(toolName: string, toolInput: Json): (r: Json)
    requires toolInput.JObj?
    ensures r.JObj?
    ensures Get(r, "error").Some? <==> toolName != GetWeather && toolName != SearchDatabase
    ensures toolName != GetWeather && toolName != SearchDatabase ==> Get(r, "error") == Some(JStr("Unknown tool"))
    ensures toolName == GetWeather ==>
              && Get(r, "location") == Some(GetOr(toolInput, "location", JStr("Unknown")))
              && Get(r, "temperature") == Some(JNum(28, 0))
              && Get(r, "unit") == Some(JStr("celsius"))
              && Get(r, "conditions") == Some(JStr("Partly Cloudy"))
    ensures toolName == SearchDatabase ==>
              Get(r, "results") == Some(JList([SearchHit(Str(GetOr(toolInput, "query", JStr(""))))]))
  {
    if toolName == GetWeather then WeatherResult(GetOr(toolInput, "location", JStr("Unknown")))
    else if toolName == SearchDatabase then SearchResult(Str(GetOr(toolInput, "query", JStr(""))))
    else UnknownTool()
  }

  /** The canned weather: 28 degrees celsius, partly cloudy, wherever `location` is. */
  function WeatherResult(location: Json): (r: Json)
    ensures r.JObj? && Get(r, "error").None?
    ensures Get(r, "location") == Some(location)
    ensures Get(r, "temperature") == Some(JNum(28, 0))
    ensures Get(r, "unit") == Some(JStr("celsius"))
    ensures Get(r, "conditions") == Some(JStr("Partly Cloudy"))
  {
    var fields := [
      Field("location", location),
      Field("temperature", JNum(28, 0)),
      Field("unit", JStr("celsius")),
      Field("conditions", JStr("Partly Cloudy"))
    ];
    LookupAt(fields, 0); LookupAt(fields, 1); LookupAt(fields, 2); LookupAt(fields, 3);
    LookupMissing(fields, "error");
    JObj(fields)
  }

  /** The canned search: a list holding the one hit for the query. */
  function SearchResult(query: string): (r: Json)
    ensures r.JObj? && Get(r, "error").None?
    ensures Get(r, "results") == Some(JList([SearchHit(query)]))
  {
    var fields := [Field("results", JList([SearchHit(query)]))];
    LookupAt(fields, 0);
    LookupMissing(fields, "error");
    JObj(fields)
  }

  function UnknownTool(): (r: Json)
    ensures r.JObj? && Get(r, "error") == Some(JStr("Unknown tool"))
  {
    var fields := [Field("error", JStr("Unknown tool"))];
    LookupAt(fields, 0);
    JObj(fields)
  }

  /** The single search hit: the query echoed in the title, with score 0.95. */
  function SearchHit(query: string): (r: Json)
    ensures Get(r, "title") == Some(JStr("Result for " + query))
    ensures Get(r, "score") == Some(JNum(95, 2))
  {
    var fields := [Field("title", JStr("Result for " + query)), Field("score", JNum(95, 2))];
    LookupAt(fields, 0); LookupAt(fields, 1);
    JObj(fields)
  }

  /** The tool result the weather keyword produces. */
  const WeatherReport: Json := ExecuteTool(GetWeather, JObj([Field("location", JStr("Bangalore"))]))

  /** The system entry's text that carries the tool result into the conversation. */
  const WeatherNote: string := "Weather data: " + Repr(WeatherReport)

  lemma WeatherReportForBangalore()
    ensures Get(WeatherReport, "location") == Some(JStr("Bangalore"))
    ensures Get(WeatherReport, "error") == None
  {
  }

  // ---------------------------------------------------------------------------
  // Session and user identifiers
  // ---------------------------------------------------------------------------

  /** `session_id[-6:]`: the last six characters, or the whole id when it is shorter. */
  function SessionSuffix(sessionId: string): (r: string)
    ensures |r| == Min(6, |sessionId|)
    ensures r == sessionId[|sessionId| - |r|..]
  {
    if |sessionId| <= 6 then sessionId else sessionId[|sessionId| - 6..]
  }

  function UserIdFor(sessionId: string): (r: string)
    ensures StartsWith(r, "user_") && r[5..] == SessionSuffix(sessionId)
  {
    "user_" + SessionSuffix(sessionId)
  }

  /** Two sessions belong to the same user exactly when their ids end alike. */
  lemma SameUserIffSameSuffix(a: string, b: string)
    ensures UserIdFor(a) == UserIdFor(b) <==> SessionSuffix(a) == SessionSuffix(b)
  {
    if UserIdFor(a) == UserIdFor(b) {
      assert UserIdFor(a)[5..] == UserIdFor(b)[5..];
    }
  }

  /** The derivation is not injective: different sessions can share a user. */
  lemma DistinctSessionsShareUser()
    ensures "chat-000123456" != "web-123456"
    ensures UserIdFor("chat-000123456") == UserIdFor("web-123456") == "user_123456"
  {
    assert "chat-000123456"[8..] == "123456";
    assert "web-123456"[4..] == "123456";
  }

  // ---------------------------------------------------------------------------
  // Frames sent to the client
  // ---------------------------------------------------------------------------

  datatype Frame =
    | SessionStart(sessionId: string, startTime: nat)
    | FunctionResult(functionName: string, result: Json)
    | Token(content: string)
    | ResponseComplete
    | ErrorFrame(message: string)

  /** The JSON object a frame is sent as. */
  function Wire(f: Frame): Json {
    match f
    case SessionStart(sid, t) =>
      JObj([Field("type", JStr("session_start")), Field("session_id", JStr(sid)), Field("start_time", JNum(t, 0))])
    case FunctionResult(name, result) =>
      JObj([Field("type", JStr("function_result")), Field("function_name", JStr(name)), Field("result", result)])
    case Token(content) => JObj([Field("type", JStr("token")), Field("content", JStr(content))])
    case ResponseComplete => JObj([Field("type", JStr("response_complete"))])
    case ErrorFrame(message) => JObj([Field("type", JStr("error")), Field("message", JStr(message))])
  }

  /** How a client reads a frame back from its JSON object. */
  function Unwire(j: Json): Option<Frame> {
    match Get(j, "type")
    case Some(JStr(kind)) =>
      if kind == "session_start" then
        match (Get(j, "session_id"), Get(j, "start_time"))
        case (Some(JStr(sid)), Some(JNum(t, 0))) => if t >= 0 then Some(SessionStart(sid, t)) else None
        case _ => None
      else if kind == "function_result" then
        match (Get(j, "function_name"), Get(j, "result"))
        case (Some(JStr(name)), Some(result)) => Some(FunctionResult(name, result))
        case _ => None
      else if kind == "token" then
        match Get(j, "content")
        case Some(JStr(content)) => Some(Token(content))
        case _ => None
      else if kind == "response_complete" then Some(ResponseComplete)
      else if kind == "error" then
        match Get(j, "message")
        case Some(JStr(message)) => Some(ErrorFrame(message))
        case _ => None
      else None
    case _ => None
  }

  /** Every frame can be read back from its wire form. */
  lemma WireRoundTrip(f: Frame)
    ensures Unwire(Wire(f)) == Some(f)
  {
    var fields := Wire(f).fields;
    LookupAt(fields, 0);
    match f
    case SessionStart(_, _) => ReadBackThree(f);
    case FunctionResult(_, _) => ReadBackThree(f);
    case Token(_) => ReadBackTwo(f);
    case ResponseComplete =>
    case ErrorFrame(_) => ReadBackTwo(f);
  }

  lemma ReadBackThree(f: Frame)
    requires f.SessionStart? || f.FunctionResult?
    ensures Unwire(Wire(f)) == Some(f)
  {
    var fields := Wire(f).fields;
    LookupAt(fields, 0); LookupAt(fields, 1); LookupAt(fields, 2);
  }

  lemma ReadBackTwo(f: Frame)
    requires f.Token? || f.ErrorFrame?
    ensures Unwire(Wire(f)) == Some(f)
  {
    var fields := Wire(f).fields;
    LookupAt(fields, 0); LookupAt(fields, 1);
  }

  // ---------------------------------------------------------------------------
  // Inbound messages and the chat provider
  // ---------------------------------------------------------------------------

  /** A text frame from the client: the value `json.loads` decoded, or the text of the
      error it raised. */
  datatype Inbound = Decoded(msg: Json) | Undecodable(error: string)

  /** One entry of the conversation sent to the provider. */
  datatype ChatEntry = ChatEntry(role: string, content: Json)

  /** One streamed chunk; `delta` is None when the chunk has no choices or no content. */
  datatype Chunk = Chunk(delta: Option<string>)

  /** The provider's streamed reply, and the error it raises after the chunks, if any. */
  datatype Reply = Reply(chunks: seq<Chunk>, failure: Option<string>)

  /** `msg[key]`, with the text of the exception Python raises when it fails. */
  function Subscript(v: Json, key: string): (r: Result<Json>)
    ensures r.Ok? <==> v.JObj? && Lookup(v.fields, key).Some?
    ensures r.Ok? ==> Get(v, key) == Some(r.value)
  {
    match v
    case JObj(fields) =>
      (match Lookup(fields, key)
       case Some(x) => Ok(x)
       case None => Err("'" + key + "'"))
    case JStr(_) => Err("string indices must be integers, not 'str'")
    case JList(_) => Err("list indices must be integers or slices, not str")
    case _ => Err("'" + TypeName(v) + "' object is not subscriptable")
  }

  function NoLowerMessage(v: Json): string {
    "'" + TypeName(v) + "' object has no attribute 'lower'"
  }

  /** The payload of the `session_start` event. */
  function StartData(userId: string): Json {
    JObj([Field("user_id", JStr(userId))])
  }

  function ContentData(content: Json): Json {
    JObj([Field("content", content)])
  }

  /** The tokens a stream yields: the non-empty chunk contents, in order. */
  function Tokens(chunks: seq<Chunk>): (r: seq<string>)
    ensures |r| <= |chunks|
  {
    if |chunks| == 0 then []
    else
      var last := chunks[|chunks| - 1];
      Tokens(chunks[..|chunks| - 1]) + (if last.delta.Some? && |last.delta.value| > 0 then [last.delta.value] else [])
  }

  function TokenFrames(tokens: seq<string>): (r: seq<Frame>)
    ensures |r| == |tokens|
  {
    if |tokens| == 0 then [] else TokenFrames(tokens[..|tokens| - 1]) + [Token(tokens[|tokens| - 1])]
  }

  lemma TokensStep(chunks: seq<Chunk>, i: nat)
    requires i < |chunks|
    ensures chunks[i].delta.Some? && |chunks[i].delta.value| > 0 ==>
              Tokens(chunks[..i + 1]) == Tokens(chunks[..i]) + [chunks[i].delta.value]
    ensures !(chunks[i].delta.Some? && |chunks[i].delta.value| > 0) ==> Tokens(chunks[..i + 1]) == Tokens(chunks[..i])
  {
    assert chunks[..i + 1][..i] == chunks[..i];
    var t := Tokens(chunks[..i]);
    assert t + [] == t;
  }

  lemma {:induction false} TokenFramesAt(tokens: seq<string>)
    ensures forall i :: 0 <= i < |tokens| ==> TokenFrames(tokens)[i] == Token(tokens[i])
  {
    if |tokens| > 0 {
      TokenFramesAt(tokens[..|tokens| - 1]);
    }
  }

  lemma TokenFramesAppend(tokens: seq<string>, t: string)
    ensures TokenFrames(tokens + [t]) == TokenFrames(tokens) + [Token(t)]
  {
    assert (tokens + [t])[..|tokens|] == tokens;
  }

  /** What a client that concatenates the token frames it receives reads. */
  function StreamedText(frames: seq<Frame>): string {
    if |frames| == 0 then ""
    else StreamedText(frames[..|frames| - 1]) + (if frames[|frames| - 1].Token? then frames[|frames| - 1].content else "")
  }

  lemma {:induction false} StreamedTextAppend(a: seq<Frame>, b: seq<Frame>)
    ensures StreamedText(a + b) == StreamedText(a) + StreamedText(b)
    decreases |b|
  {
    if |b| == 0 {
      assert a + b == a;
    } else {
      var init, last := b[..|b| - 1], b[|b| - 1];
      var piece := if last.Token? then last.content else "";
      StreamedTextAppend(a, init);
      assert (a + b)[..|a + b| - 1] == a + init && (a + b)[|a + b| - 1] == last;
      assert StreamedText(a + b) == StreamedText(a + init) + piece;
      assert StreamedText(b) == StreamedText(init) + piece;
    }
  }

  /** The client reads back exactly the concatenated tokens. */
  lemma {:induction false} StreamedTokens(tokens: seq<string>)
    ensures StreamedText(TokenFrames(tokens)) == Concat(tokens)
  {
    if |tokens| > 0 {
      var n := |tokens| - 1;
      StreamedTokens(tokens[..n]);
      assert TokenFrames(tokens)[..n] == TokenFrames(tokens[..n]);
    }
  }

  // ---------------------------------------------------------------------------
  // One turn of the message loop, as a specification
  // ---------------------------------------------------------------------------

  /** What one inbound message does: the frames it sends, the conversation afterwards, the
      payloads of the user and assistant events it logs, and the error that ends the loop. */
  datatype Effect = Effect(
    frames: seq<Frame>,
    history: seq<ChatEntry>,
    userLogged: Option<Json>,
    assistantLogged: Option<Json>,
    failure: Option<string>)

  function TurnEffect(history: seq<ChatEntry>, inbound: Inbound, provider: seq<ChatEntry> -> Reply): Effect {
    match inbound
    case Undecodable(error) => Effect([], history, None, None, Some(error))
    case Decoded(msg) =>
      match Subscript(msg, "type")
      case Err(error) => Effect([], history, None, None, Some(error))
      case Ok(kind) =>
        if kind != JStr(UserMessage) then Effect([], history, None, None, None)
        else
          match Subscript(msg, "content")
          case Err(error) => Effect([], history, None, None, Some(error))
          case Ok(userText) =>
            var withUser := history + [ChatEntry("user", userText)];
            if !userText.JStr? then Effect([], withUser, Some(ContentData(userText)), None, Some(NoLowerMessage(userText)))
            else Answer(withUser, userText.s, provider).(userLogged := Some(ContentData(userText)))
  }

  /** Whether the keyword tool runs for a message. */
  predicate MentionsWeather(text: string) {
    Contains(Lower(text), "weather")
  }

  /** The conversation handed to the provider: the system entry with the tool result is
      added when the message mentions the weather. */
  function Context(withUser: seq<ChatEntry>, text: string): seq<ChatEntry> {
    if MentionsWeather(text) then withUser + [ChatEntry("system", JStr(WeatherNote))]
    else withUser
  }

  function ToolFrames(text: string): seq<Frame> {
    if MentionsWeather(text) then [FunctionResult(GetWeather, WeatherReport)] else []
  }

  /** The answer to a text message already added to the conversation: the tool frame if
      any, one frame per streamed token, then `response_complete` and the assistant entry
      unless the provider raises. */
  function Answer(withUser: seq<ChatEntry>, text: string, provider: seq<ChatEntry> -> Reply): Effect {
    var context := Context(withUser, text);
    var reply := provider(context);
    var tokens := Tokens(reply.chunks);
    var streamed := ToolFrames(text) + TokenFrames(tokens);
    match reply.failure
    case Some(error) => Effect(streamed, context, None, None, Some(error))
    case None =>
      Effect(streamed + [ResponseComplete], context + [ChatEntry("assistant", JStr(Concat(tokens)))],
             None, Some(ContentData(JStr(Concat(tokens)))), None)
  }

  /** A message whose type is not `user_message` changes nothing and the loop goes on. */
  lemma OtherMessagesIgnored(history: seq<ChatEntry>, msg: Json, provider: seq<ChatEntry> -> Reply)
    requires Subscript(msg, "type").Ok? && Subscript(msg, "type").value != JStr(UserMessage)
    ensures TurnEffect(history, Decoded(msg), provider) == Effect([], history, None, None, None)
  {
  }

  /** A user message with text content is logged, added to the conversation and answered. */
  lemma TextMessageAnswered(history: seq<ChatEntry>, msg: Json, text: string, provider: seq<ChatEntry> -> Reply)
    requires Subscript(msg, "type") == Ok(JStr(UserMessage))
    requires Subscript(msg, "content") == Ok(JStr(text))
    ensures var eff := TurnEffect(history, Decoded(msg), provider);
            var answer := Answer(history + [ChatEntry("user", JStr(text))], text, provider);
            && eff.userLogged == Some(ContentData(JStr(text)))
            && eff.frames == answer.frames && eff.history == answer.history
            && eff.assistantLogged == answer.assistantLogged && eff.failure == answer.failure
  {
  }

  /** An answer that does not fail completes the response: the last frame is
      `response_complete`, the logged assistant text is what the client read from the token
      frames, and the conversation ends with that reply. */
  lemma CompletedAnswer(withUser: seq<ChatEntry>, text: string, provider: seq<ChatEntry> -> Reply)
    requires Answer(withUser, text, provider).failure.None?
    ensures var a := Answer(withUser, text, provider);
            && |a.frames| > 0 && a.frames[|a.frames| - 1] == ResponseComplete
            && a.assistantLogged == Some(ContentData(JStr(StreamedText(a.frames))))
            && |a.history| >= |withUser| + 1
            && a.history[..|withUser|] == withUser
            && a.history[|a.history| - 1] == ChatEntry("assistant", JStr(StreamedText(a.frames)))
  {
    var context := Context(withUser, text);
    var tokens := Tokens(provider(context).chunks);
    AnswerParts(withUser, text, provider);
    CompletedText(text, tokens);
    assert context[..|withUser|] == withUser;
  }

  /** The text a client reads from a completed answer is the concatenated tokens. */
  lemma CompletedText(text: string, tokens: seq<string>)
    ensures StreamedText(ToolFrames(text) + TokenFrames(tokens) + [ResponseComplete]) == Concat(tokens)
  {
    var tools := ToolFrames(text);
    StreamedTextAppend(tools + TokenFrames(tokens), [ResponseComplete]);
    StreamedTextAppend(tools, TokenFrames(tokens));
    StreamedTokens(tokens);
    assert StreamedText(tools) == "";
    assert StreamedText([ResponseComplete]) == "";
  }

  /** An answer part by part: the frames in order (the tool frame, the tokens, the
      completion), the conversation, the assistant event and the error. */
  lemma AnswerParts(withUser: seq<ChatEntry>, text: string, provider: seq<ChatEntry> -> Reply)
    ensures var context := Context(withUser, text);
            var reply := provider(context);
            var tokens := Tokens(reply.chunks);
            var a := Answer(withUser, text, provider);
            && (reply.failure.Some? ==>
                  && a.frames == ToolFrames(text) + TokenFrames(tokens)
                  && a.history == context
                  && a.assistantLogged == None)
            && (reply.failure.None? ==>
                  && a.frames == ToolFrames(text) + TokenFrames(tokens) + [ResponseComplete]
                  && a.history == context + [ChatEntry("assistant", JStr(Concat(tokens)))]
                  && a.assistantLogged == Some(ContentData(JStr(Concat(tokens)))))
            && a.userLogged == None
            && a.failure == reply.failure
  {
  }

  /** The tool runs, and its result frame is sent first, exactly when the lower-cased
      message contains "weather"; the result then also enters the conversation right after
      the user's entry. */
  lemma WeatherToolIffKeyword(withUser: seq<ChatEntry>, text: string, provider: seq<ChatEntry> -> Reply)
    ensures var a := Answer(withUser, text, provider);
            && ((exists i :: 0 <= i < |a.frames| && a.frames[i].FunctionResult?) <==> MentionsWeather(text))
            && (MentionsWeather(text) ==>
                  a.frames[0] == FunctionResult(GetWeather, WeatherReport)
                  && a.history[|withUser|] == ChatEntry("system", JStr(WeatherNote)))
  {
    var a := Answer(withUser, text, provider);
    var reply := provider(Context(withUser, text));
    var tokens := Tokens(reply.chunks);
    var tail := if reply.failure.None? then [ResponseComplete] else [];
    AnswerParts(withUser, text, provider);
    TokenFramesAt(tokens);
    if MentionsWeather(text) {
      assert a.frames[0] == FunctionResult(GetWeather, WeatherReport);
      assert a.history[..|withUser| + 1] == Context(withUser, text);
    } else {
      assert a.frames == TokenFrames(tokens) + tail;
      forall i | 0 <= i < |a.frames| ensures !a.frames[i].FunctionResult? {
        if i < |tokens| {
          assert a.frames[i] == Token(tokens[i]);
        } else {
          assert a.frames[i] == ResponseComplete;
        }
      }
    }
  }

  /** A failed turn never logs an assistant response nor completes one. */
  lemma FailedTurn(history: seq<ChatEntry>, inbound: Inbound, provider: seq<ChatEntry> -> Reply)
    requires TurnEffect(history, inbound, provider).failure.Some?
    ensures var eff := TurnEffect(history, inbound, provider);
            && eff.assistantLogged.None?
            && (forall i :: 0 <= i < |eff.frames| ==> eff.frames[i] != ResponseComplete)
  {
    var eff := TurnEffect(history, inbound, provider);
    if inbound.Decoded? && Subscript(inbound.msg, "content").Ok? && Subscript(inbound.msg, "content").value.JStr? {
      var text := Subscript(inbound.msg, "content").value.s;
      var withUser := history + [ChatEntry("user", JStr(text))];
      var tokens := Tokens(provider(Context(withUser, text)).chunks);
      var tools := ToolFrames(text);
      TokenFramesAt(tokens);
      forall i | 0 <= i < |eff.frames| ensures eff.frames[i] != ResponseComplete {
        if i >= |tools| {
          assert eff.frames[i] == Token(tokens[i - |tools|]);
        }
      }
    }
  }

  /** One `log_event` call of the message loop: the event type, the payload and the write's stamp. */
  datatype LogCall = LogCall(eventType: string, data: Json, stamp: Stamp)

  /** The logging calls one pass of the loop makes: the user message, then the answer. */
  function TurnLogs(eff: Effect, turn: Turn): seq<LogCall> {
    (if eff.userLogged.Some? then [LogCall(UserMessage, eff.userLogged.value, turn.userLog)] else [])
    + (if eff.assistantLogged.Some? then [LogCall(AssistantResponse, eff.assistantLogged.value, turn.assistantLog)] else [])
  }

  /** The whole message loop over the client's messages: the frames sent, the conversation,
      the logging calls made, and the error of the first message whose handling raises,
      after which no message is read. */
  datatype Exchange = Exchange(frames: seq<Frame>, history: seq<ChatEntry>, logs: seq<LogCall>, failure: Option<string>)

  function Converse(history: seq<ChatEntry>, script: seq<Turn>, provider: seq<ChatEntry> -> Reply): Exchange {
    if |script| == 0 then Exchange([], history, [], None)
    else
      var prev := Converse(history, script[..|script| - 1], provider);
      if prev.failure.Some? then prev
      else
        var turn := script[|script| - 1];
        var eff := TurnEffect(prev.history, turn.inbound, provider);
        Exchange(prev.frames + eff.frames, eff.history, prev.logs + TurnLogs(eff, turn), eff.failure)
  }

  lemma ConverseStep(history: seq<ChatEntry>, script: seq<Turn>, i: nat, provider: seq<ChatEntry> -> Reply)
    requires i < |script|
    requires Converse(history, script[..i], provider).failure.None?
    ensures var prev := Converse(history, script[..i], provider);
            var eff := TurnEffect(prev.history, script[i].inbound, provider);
            Converse(history, script[..i + 1], provider)
              == Exchange(prev.frames + eff.frames, eff.history, prev.logs + TurnLogs(eff, script[i]), eff.failure)
  {
    assert script[..i + 1][..i] == script[..i];
  }

  /** Once a message has raised, later messages are never read. */
  lemma {:induction false} ConverseStopsAtFailure(history: seq<ChatEntry>, script: seq<Turn>, n: nat,
                                                  provider: seq<ChatEntry> -> Reply)
    requires n <= |script|
    requires Converse(history, script[..n], provider).failure.Some?
    ensures Converse(history, script, provider) == Converse(history, script[..n], provider)
    decreases |script| - n
  {
    if n < |script| {
      assert script[..n + 1][..n] == script[..n];
      ConverseStopsAtFailure(history, script, n + 1, provider);
    } else {
      assert script[..n] == script;
    }
  }

  /** The conversation only grows: what was said stays at the front. */
  lemma {:induction false} ConverseExtendsHistory(history: seq<ChatEntry>, script: seq<Turn>,
                                                  provider: seq<ChatEntry> -> Reply)
    ensures var ex := Converse(history, script, provider);
            |ex.history| >= |history| && ex.history[..|history|] == history
  {
    if |script| > 0 {
      ConverseExtendsHistory(history, script[..|script| - 1], provider);
      var prev := Converse(history, script[..|script| - 1], provider);
      if prev.failure.None? {
        TurnExtendsHistory(prev.history, script[|script| - 1].inbound, provider);
        assert Converse(history, script, provider).history[..|prev.history|] == prev.history;
      }
    }
  }

  /** A user-message or assistant-response call whose payload holds just its `content`. */
  predicate MessageLog(c: LogCall) {
    && (c.eventType == UserMessage || c.eventType == AssistantResponse)
    && c.data.JObj? && |c.data.fields| == 1 && c.data.fields[0].key == "content"
  }

  /** The loop logs only user messages and assistant responses, each with a payload holding
      just its `content`. */
  lemma {:induction false} ConverseLogsMessages(history: seq<ChatEntry>, script: seq<Turn>,
                                                provider: seq<ChatEntry> -> Reply)
    ensures forall c <- Converse(history, script, provider).logs :: MessageLog(c)
  {
    if |script| > 0 {
      var prev := Converse(history, script[..|script| - 1], provider);
      ConverseLogsMessages(history, script[..|script| - 1], provider);
      if prev.failure.None? {
        var turn := script[|script| - 1];
        var eff := TurnEffect(prev.history, turn.inbound, provider);
        TurnLogsMessages(prev.history, turn, provider);
        var logs := prev.logs + TurnLogs(eff, turn);
        assert Converse(history, script, provider).logs == logs;
      }
    }
  }

  lemma TurnLogsMessages(history: seq<ChatEntry>, turn: Turn, provider: seq<ChatEntry> -> Reply)
    ensures forall c <- TurnLogs(TurnEffect(history, turn.inbound, provider), turn) :: MessageLog(c)
  {
    var inbound := turn.inbound;
    if inbound.Decoded? && Subscript(inbound.msg, "content").Ok? && Subscript(inbound.msg, "content").value.JStr? {
      var userText := Subscript(inbound.msg, "content").value;
      AnswerParts(history + [ChatEntry("user", userText)], userText.s, provider);
    }
  }

  lemma TurnExtendsHistory(history: seq<ChatEntry>, inbound: Inbound, provider: seq<ChatEntry> -> Reply)
    ensures var eff := TurnEffect(history, inbound, provider);
            |eff.history| >= |history| && eff.history[..|history|] == history
  {
    if inbound.Decoded? && Subscript(inbound.msg, "content").Ok? && Subscript(inbound.msg, "content").value.JStr? {
      var userText := Subscript(inbound.msg, "content").value;
      var withUser := history + [ChatEntry("user", userText)];
      AnswerExtendsHistory(withUser, userText.s, provider);
      assert withUser[..|history|] == history;
    }
  }

  lemma AnswerExtendsHistory(withUser: seq<ChatEntry>, text: string, provider: seq<ChatEntry> -> Reply)
    ensures var a := Answer(withUser, text, provider);
            |a.history| >= |withUser| && a.history[..|withUser|] == withUser
  {
    var context := Context(withUser, text);
    assert context[..|withUser|] == withUser;
    var a := Answer(withUser, text, provider);
    if provider(context).failure.None? {
      assert a.history[..|context|] == context;
    }
  }

  /** The events one logging call adds, as `log_event` writes them. */
  function Logged(sessions: map<string, Session>, sessionId: string, eventType: string, data: Option<Json>, stamp: Stamp)
    : seq<Event>
  {
    match data
    case None => []
    case Some(d) => Inserted(NewEvent(sessionId, eventType, d, None, stamp.at), sessions, stamp.store)
  }

  /** The clock readings and store outcomes of one pass of the message loop. */
  datatype Turn = Turn(inbound: Inbound, userLog: Stamp, assistantLog: Stamp)

  /** The events a sequence of logging calls adds to the event table, in order. */
  function Persisted(sessions: map<string, Session>, sessionId: string, calls: seq<LogCall>): seq<Event> {
    if |calls| == 0 then []
    else
      var last := calls[|calls| - 1];
      Persisted(sessions, sessionId, calls[..|calls| - 1]) + Logged(sessions, sessionId, last.eventType, Some(last.data), last.stamp)
  }

  lemma {:induction false} PersistedAppend(sessions: map<string, Session>, sessionId: string, a: seq<LogCall>, b: seq<LogCall>)
    ensures Persisted(sessions, sessionId, a + b) == Persisted(sessions, sessionId, a) + Persisted(sessions, sessionId, b)
    decreases |b|
  {
    if |b| == 0 {
      assert a + b == a;
    } else {
      assert (a + b)[..|a + b| - 1] == a + b[..|b| - 1];
      PersistedAppend(sessions, sessionId, a, b[..|b| - 1]);
    }
  }

  /** When every write succeeds, each logging call adds exactly its own event, in order;
      for a session the store does not hold, none adds anything. */
  lemma {:induction false} PersistedEvents(sessions: map<string, Session>, sessionId: string, calls: seq<LogCall>)
    ensures sessionId !in sessions ==> Persisted(sessions, sessionId, calls) == []
    ensures sessionId in sessions && (forall c <- calls :: c.stamp.store.Succeeds?) ==>
              var events := Persisted(sessions, sessionId, calls);
              && |events| == |calls|
              && forall i :: 0 <= i < |calls| ==>
                   events[i] == NewEvent(sessionId, calls[i].eventType, calls[i].data, None, calls[i].stamp.at)
  {
    if |calls| > 0 {
      PersistedEvents(sessions, sessionId, calls[..|calls| - 1]);
    }
  }

  /** One pass of the loop extends the events of the earlier passes by its own. */
  lemma PersistedStep(sessions: map<string, Session>, sessionId: string, events0: seq<Event>, logs: seq<LogCall>,
                      eff: Effect, turn: Turn, before: seq<Event>, after: seq<Event>)
    requires before == events0 + Persisted(sessions, sessionId, logs)
    requires after == before + Logged(sessions, sessionId, UserMessage, eff.userLogged, turn.userLog)
                             + Logged(sessions, sessionId, AssistantResponse, eff.assistantLogged, turn.assistantLog)
    ensures after == events0 + Persisted(sessions, sessionId, logs + TurnLogs(eff, turn))
  {
    TurnLogsPersisted(sessions, sessionId, eff, turn);
    PersistedAppend(sessions, sessionId, logs, TurnLogs(eff, turn));
  }

  /** The calls of one pass add the user-message event, then the assistant-response event. */
  lemma TurnLogsPersisted(sessions: map<string, Session>, sessionId: string, eff: Effect, turn: Turn)
    ensures Persisted(sessions, sessionId, TurnLogs(eff, turn))
              == Logged(sessions, sessionId, UserMessage, eff.userLogged, turn.userLog)
                 + Logged(sessions, sessionId, AssistantResponse, eff.assistantLogged, turn.assistantLog)
  {
    var user := if eff.userLogged.Some? then [LogCall(UserMessage, eff.userLogged.value, turn.userLog)] else [];
    var answer := if eff.assistantLogged.Some? then [LogCall(AssistantResponse, eff.assistantLogged.value, turn.assistantLog)] else [];
    PersistedAppend(sessions, sessionId, user, answer);
    assert Persisted(sessions, sessionId, user) == Logged(sessions, sessionId, UserMessage, eff.userLogged, turn.userLog);
    assert Persisted(sessions, sessionId, answer) == Logged(sessions, sessionId, AssistantResponse, eff.assistantLogged, turn.assistantLog);
  }

  /** How the message loop ended: the client went away, or handling a message raised. */
  datatype Ending = Disconnected | Broken(message: string)

  /** The clock readings and store outcomes of the calls around the message loop. */
  datatype Lifecycle = Lifecycle(create: Stamp, startLog: Stamp, startFrame: nat, end: Stamp, endLog: Stamp)

  /** The token loop: each non-empty chunk content is sent as a token frame and appended
      to the full response. */
  method Stream(chunks: seq<Chunk>) returns (fullResponse: string, streamed: seq<Frame>)
    ensures fullResponse == Concat(Tokens(chunks))
    ensures streamed == TokenFrames(Tokens(chunks))
  {
    fullResponse := "";
    streamed := [];
    ghost var tokens: seq<string> := [];
    var i := 0;
    while i < |chunks|
      invariant 0 <= i <= |chunks|
      invariant tokens == Tokens(chunks[..i])
      invariant fullResponse == Concat(tokens) && streamed == TokenFrames(tokens)
    {
      var chunk := chunks[i];
      TokensStep(chunks, i);
      if chunk.delta.Some? && |chunk.delta.value| > 0 {
        var token := chunk.delta.value;
        ConcatAppend(tokens, token);
        TokenFramesAppend(tokens, token);
        fullResponse := fullResponse + token;
        streamed := streamed + [Token(token)];
        tokens := tokens + [token];
      }
      i := i + 1;
    }
    assert chunks[..i] == chunks;
  }

  // ---------------------------------------------------------------------------
  // The connection
  // ---------------------------------------------------------------------------

  /** One accepted WebSocket connection for a session. */
  class Connection {
    const db: DatabaseManager
    const sessionId: string
    const userId: string
    /** The conversation sent to the provider. */
    var history: seq<ChatEntry>
    /** The frames sent to the client so far. */
    var sent: seq<Frame>
    /** Whether the session was handed to post-session processing (a fire-and-forget task). */
    var handedOff: bool

    constructor (db: DatabaseManager, sessionId: string)
      ensures this.db == db && this.sessionId == sessionId && userId == UserIdFor(sessionId)
      ensures history == [] && sent == [] && !handedOff
    {
      this.db := db;
      this.sessionId := sessionId;
      this.userId := UserIdFor(sessionId);
      history := [];
      sent := [];
      handedOff := false;
    }

    /** Creates the session, logs `session_start` and sends the `session_start` frame. A
        failed create (a store failure or an id already in use) raises before anything else. */
    method Open(life: Lifecycle) returns (r: Result<Session>)
      requires db.Valid()
      modifies this, db
      ensures db.Valid() && history == old(history) && handedOff == old(handedOff)
      ensures r.Ok? <==> life.create.store.Succeeds? && sessionId !in old(db.sessions)
      ensures r.Err? ==> db.sessions == old(db.sessions) && db.events == old(db.events) && sent == old(sent)
      ensures r.Ok? ==>
                && r.value == NewSession(sessionId, userId, life.create.at)
                && db.sessions == old(db.sessions)[sessionId := r.value]
                && db.events == old(db.events) + Logged(db.sessions, sessionId, "session_start",
                                                        Some(StartData(userId)), life.startLog)
                && sent == old(sent) + [SessionStart(sessionId, life.startFrame)]
    {
      r := db.CreateSession(sessionId, userId, life.create);
      if r.Err? {
        return;
      }
      var _ := db.LogEvent(sessionId, "session_start", StartData(userId), None, life.startLog);
      sent := sent + [SessionStart(sessionId, life.startFrame)];
    }

    /** Handles one inbound message of the loop; a returned error ends the loop. */
    method HandleMessage(inbound: Inbound, provider: seq<ChatEntry> -> Reply, userLog: Stamp, assistantLog: Stamp)
      returns (failure: Option<string>)
      requires db.Valid()
      modifies this, db
      ensures db.Valid() && handedOff == old(handedOff)
      ensures var eff := TurnEffect(old(history), inbound, provider);
              && failure == eff.failure
              && sent == old(sent) + eff.frames
              && history == eff.history
              && db.sessions == old(db.sessions)
              && db.events == old(db.events) + Logged(old(db.sessions), sessionId, UserMessage, eff.userLogged, userLog)
                                             + Logged(old(db.sessions), sessionId, AssistantResponse, eff.assistantLogged, assistantLog)
    {
      if inbound.Undecodable? {
        return Some(inbound.error);
      }
      var msg := inbound.msg;
      var kind := Subscript(msg, "type");
      if kind.Err? {
        return Some(kind.message);
      }
      if kind.value != JStr(UserMessage) {
        return None;
      }
      var content := Subscript(msg, "content");
      if content.Err? {
        return Some(content.message);
      }
      var userText := content.value;
      var _ := db.LogEvent(sessionId, UserMessage, ContentData(userText), None, userLog);
      history := history + [ChatEntry("user", userText)];
      if !userText.JStr? {
        return Some(NoLowerMessage(userText));
      }
      ghost var eventsLogged := db.events;
      failure := Respond(userText.s, provider, assistantLog);
      assert db.events == eventsLogged + Logged(db.sessions, sessionId, AssistantResponse,
                                                Answer(old(history) + [ChatEntry("user", userText)], userText.s, provider).assistantLogged,
                                                assistantLog);
    }

    /** Answers a text message already added to the conversation: runs the keyword tool,
        streams the provider's tokens to the client as they arrive, then completes the
        response and logs it, unless the provider raises. */
    method Respond(text: string, provider: seq<ChatEntry> -> Reply, assistantLog: Stamp) returns (failure: Option<string>)
      requires db.Valid()
      modifies this, db
      ensures db.Valid() && handedOff == old(handedOff)
      ensures var a := Answer(old(history), text, provider);
              && failure == a.failure
              && sent == old(sent) + a.frames
              && history == a.history
              && db.sessions == old(db.sessions)
              && db.events == old(db.events) + Logged(old(db.sessions), sessionId, AssistantResponse, a.assistantLogged, assistantLog)
    {
      ghost var sent0 := sent;
      if MentionsWeather(text) {
        var toolResult := WeatherReport;
        sent := sent + [FunctionResult(GetWeather, toolResult)];
        history := history + [ChatEntry("system", JStr(WeatherNote))];
      }
      assert history == Context(old(history), text) && sent == sent0 + ToolFrames(text);
      var reply := provider(history);
      assert reply == provider(Context(old(history), text));
      var fullResponse, streamed := Stream(reply.chunks);
      AnswerParts(old(history), text, provider);
      AppendAssoc(sent0, ToolFrames(text), streamed);
      sent := sent + streamed;
      if reply.failure.Some? {
        return reply.failure;
      }
      AppendAssoc(sent0, ToolFrames(text) + streamed, [ResponseComplete]);
      sent := sent + [ResponseComplete];
      history := history + [ChatEntry("assistant", JStr(fullResponse))];
      var _ := db.LogEvent(sessionId, AssistantResponse, ContentData(JStr(fullResponse)), None, assistantLog);
      failure := None;
    }

    /** The `except`/`finally` part: reports the error to the client, if any, then ends the
        session; only when ending succeeds is `session_end` logged and the session handed to
        post-session processing (a failure there raises out of the handler). */
    method Teardown(failure: Option<string>, life: Lifecycle) returns (ended: Result<Session>)
      requires db.Valid()
      modifies this, db
      ensures db.Valid() && history == old(history)
      ensures sent == old(sent) + (if failure.Some? then [ErrorFrame(failure.value)] else [])
      ensures ended.Ok? <==> life.end.store.Succeeds? && sessionId in old(db.sessions)
      ensures ended.Err? ==> db.sessions == old(db.sessions) && db.events == old(db.events) && handedOff == old(handedOff)
      ensures ended.Ok? ==>
                && ended.value == Ended(old(db.sessions)[sessionId], life.end.at)
                && db.sessions == old(db.sessions)[sessionId := Ended(old(db.sessions)[sessionId], life.end.at)]
                && db.events == old(db.events) + Logged(old(db.sessions), sessionId, "session_end", Some(EmptyObject), life.endLog)
                && handedOff
    {
      if failure.Some? {
        sent := sent + [ErrorFrame(failure.value)];
      }
      ended := db.EndSession(sessionId, life.end);
      if ended.Err? {
        return;
      }
      var _ := db.LogEvent(sessionId, "session_end", EmptyObject, None, life.endLog);
      handedOff := true;
    }

    /** `websocket_endpoint` for a fresh connection: opens the session, runs the message loop
        over the client's messages until one raises or the client disconnects after the
        last, and tears down. `ending` is None when opening raised. */
    method Serve(script: seq<Turn>, provider: seq<ChatEntry> -> Reply, life: Lifecycle)
      returns (ending: Option<Ending>, ended: Option<Result<Session>>)
      requires db.Valid() && history == [] && sent == [] && !handedOff
      modifies this, db
      ensures db.Valid()
      ensures ending.None? <==> !(life.create.store.Succeeds? && sessionId !in old(db.sessions))
      ensures ending.None? ==>
                && ended.None? && sent == [] && !handedOff
                && db.sessions == old(db.sessions) && db.events == old(db.events)
      ensures ending.Some? ==>
                var ex := Converse([], script, provider);
                var session := NewSession(sessionId, userId, life.create.at);
                var started := old(db.sessions)[sessionId := session];
                && history == ex.history
                && (ending == Some(Disconnected) <==> ex.failure.None?)
                && (ex.failure.Some? ==> ending == Some(Broken(ex.failure.value)))
                && sent == [SessionStart(sessionId, life.startFrame)] + ex.frames
                           + (if ex.failure.Some? then [ErrorFrame(ex.failure.value)] else [])
                && ended.Some?
                && (handedOff <==> life.end.store.Succeeds?)
                && (life.end.store.Succeeds? ==>
                      ended.value == Ok(Ended(session, life.end.at))
                      && db.sessions == old(db.sessions)[sessionId := Ended(session, life.end.at)])
                && (life.end.store.Fails? ==> db.sessions == started)
                && db.events == old(db.events)
                                + Logged(started, sessionId, "session_start", Some(StartData(userId)), life.startLog)
                                + Persisted(started, sessionId, ex.logs)
                                + (if life.end.store.Succeeds?
                                   then Logged(started, sessionId, "session_end", Some(EmptyObject), life.endLog)
                                   else [])
    {
      var start := Open(life);
      if start.Err? {
        return None, None;
      }
      ghost var session := NewSession(sessionId, userId, life.create.at);
      ghost var started, logged := db.sessions, db.events;
      assert started == old(db.sessions)[sessionId := session] && started[sessionId] == session;
      assert logged == old(db.events) + Logged(started, sessionId, "session_start", Some(StartData(userId)), life.startLog);
      assert history == [] && sent == [SessionStart(sessionId, life.startFrame)];
      ghost var ex := Converse([], script, provider);
      var how, e := RunSession(script, provider, life);
      assert history == ex.history;
      ending, ended := Some(how), Some(e);
      if e.Ok? {
        assert started[sessionId := Ended(session, life.end.at)] == old(db.sessions)[sessionId := Ended(session, life.end.at)];
      }
    }

    /** The `try`/`except`/`finally` of an opened session: the message loop, then the
        teardown with the error the loop ended on, if any. */
    method RunSession(script: seq<Turn>, provider: seq<ChatEntry> -> Reply, life: Lifecycle)
      returns (ending: Ending, ended: Result<Session>)
      requires db.Valid() && sessionId in db.sessions
      modifies this, db
      ensures db.Valid()
      ensures var ex := Converse(old(history), script, provider);
              && history == ex.history
              && ending == (if ex.failure.Some? then Broken(ex.failure.value) else Disconnected)
              && sent == old(sent) + ex.frames + (if ex.failure.Some? then [ErrorFrame(ex.failure.value)] else [])
              && db.events == old(db.events) + Persisted(old(db.sessions), sessionId, ex.logs)
                              + (if ended.Ok? then Logged(old(db.sessions), sessionId, "session_end", Some(EmptyObject), life.endLog) else [])
      ensures ended.Ok? <==> life.end.store.Succeeds?
      ensures ended.Err? ==> db.sessions == old(db.sessions) && handedOff == old(handedOff)
      ensures ended.Ok? ==>
                && ended.value == Ended(old(db.sessions)[sessionId], life.end.at)
                && db.sessions == old(db.sessions)[sessionId := ended.value]
                && handedOff
    {
      var failure := RunLoop(script, provider);
      ending := if failure.Some? then Broken(failure.value) else Disconnected;
      ended := Teardown(failure, life);
    }

    /** The message loop: handles the client's messages in order until one raises; when
        none does, the next receive reports the disconnect. */
    method RunLoop(script: seq<Turn>, provider: seq<ChatEntry> -> Reply) returns (failure: Option<string>)
      requires db.Valid()
      modifies this, db
      ensures db.Valid() && handedOff == old(handedOff) && db.sessions == old(db.sessions)
      ensures var ex := Converse(old(history), script, provider);
              && sent == old(sent) + ex.frames && history == ex.history && failure == ex.failure
              && db.events == old(db.events) + Persisted(old(db.sessions), sessionId, ex.logs)
    {
      ghost var history0, sent0, events0 := history, sent, db.events;
      failure := None;
      var i := 0;
      while i < |script| && failure.None?
        invariant 0 <= i <= |script|
        invariant db.Valid() && handedOff == old(handedOff) && db.sessions == old(db.sessions)
        invariant var ex := Converse(history0, script[..i], provider);
                  && sent == sent0 + ex.frames && history == ex.history && failure == ex.failure
                  && db.events == events0 + Persisted(db.sessions, sessionId, ex.logs)
      {
        ghost var prev := Converse(history0, script[..i], provider);
        ConverseStep(history0, script, i, provider);
        ghost var sentBefore, eventsBefore := sent, db.events;
        failure := HandleMessage(script[i].inbound, provider, script[i].userLog, script[i].assistantLog);
        ghost var eff := TurnEffect(prev.history, script[i].inbound, provider);
        assert sent == sentBefore + eff.frames;
        AppendAssoc(sent0, prev.frames, eff.frames);
        PersistedStep(db.sessions, sessionId, events0, prev.logs, eff, script[i], eventsBefore, db.events);
        i := i + 1;
      }
      if failure.Some? {
        ConverseStopsAtFailure(history0, script, i, provider);
      } else {
        assert script[..i] == script;
      }
    }
  }
}
