/** The chat relay of `main.py`'s WebSocket endpoint: each frame the client
    sends is received and validated; a non-empty `chat_message` is appended
    to the session's messages, the system prompt and the whole history go to
    the upstream model, every chunk content it streams back is forwarded as a
    `stream` envelope, the stream is closed by `[DONE]` (or an `error`
    envelope when the upstream call raises), and a non-empty reply is
    appended to the history and saved. */
module Relay {
  import opened Common
  import opened ContextLimit
  import opened HistoryFile

  /** One turn of the receive step: the client left, the frame was not JSON,
      it did not validate as a request (with the validator's message), the
      receive failed otherwise, or a request arrived. A request carries what
      the source reads from outside while handling it: the clock text for the
      system prompt and what the upstream model replies. */
  datatype Event =
    | Disconnected
    | BadJson
    | BadStructure(reason: string)
    | ReceiveFailure
    | Request(kind: string, content: Option<string>, clock: string, reply: Reply)

  /** The state a connection's handler works on: the session's messages, the
      live history file, the envelopes written to the socket, the message
      lists sent to the upstream model, and whether the loop still runs. */
  datatype Conn = Conn(
    messages: seq<Message>,
    file: FileState,
    outbox: seq<Envelope>,
    apiLog: seq<seq<Message>>,
    open: bool)

  const InvalidJsonDetail: string := "Invalid JSON format."
  const InvalidStructurePrefix: string := "Invalid message structure: "
  const ReceiveFailureDetail: string := "Server error processing your request."
  const CriticalDetail: string := "A critical server error occurred. Connection closing."

  function SystemPrompt(clock: string): string
  {
    "You are a helpful assistant. The current date and time is: " + clock + "."
  }

  /** A request is handled only when it is a chat message with non-empty
      content; anything else is logged and ignored. */
  predicate Accepted(kind: string, content: Option<string>)
  {
    kind == "chat_message" && content.Some? && content.value != ""
  }

  /** The chunk contents the relay forwards, in arrival order: those of
      chunks that have a choice whose content is not None (the empty string
      included). */
  function Forwarded(chunks: seq<Chunk>): seq<string>
  {
    if chunks == [] then []
    else (if chunks[0].Choice? && chunks[0].content.Some? then [chunks[0].content.value] else [])
         + Forwarded(chunks[1..])
  }

  lemma {:induction false} ForwardedAppend(a: seq<Chunk>, b: seq<Chunk>)
    ensures Forwarded(a + b) == Forwarded(a) + Forwarded(b)
  {
    if a == [] {
      assert a + b == b;
    } else {
      assert (a + b)[1..] == a[1..] + b;
      ForwardedAppend(a[1..], b);
    }
  }

  /** The forwarded contents are exactly the contents of the chunks that carry
      one: nothing is added, dropped or reordered. */
  lemma {:induction false} ForwardedAllContent(contents: seq<string>)
    ensures Forwarded(seq(|contents|, i requires 0 <= i < |contents| => Choice(Some(contents[i])))) == contents
  {
    var chunks := seq(|contents|, i requires 0 <= i < |contents| => Choice(Some(contents[i])));
    if contents != [] {
      assert chunks[1..] == seq(|contents[1..]|, i requires 0 <= i < |contents[1..]| => Choice(Some(contents[1..][i])));
      ForwardedAllContent(contents[1..]);
    }
  }

  /** Chunks without a choice or with a None content forward nothing. */
  lemma {:induction false} ForwardedSkipsEmptyChunks(chunks: seq<Chunk>)
    requires forall i :: 0 <= i < |chunks| ==> chunks[i] == NoChoices || chunks[i] == Choice(None)
    ensures Forwarded(chunks) == []
  {
    if chunks != [] {
      ForwardedSkipsEmptyChunks(chunks[1..]);
    }
  }

  /** One more chunk forwards its content, if it has a choice and a content. */
  lemma ForwardedExtend(chunks: seq<Chunk>, i: nat)
    requires i < |chunks|
    ensures chunks[i].Choice? && chunks[i].content.Some? ==>
      Forwarded(chunks[..i + 1]) == Forwarded(chunks[..i]) + [chunks[i].content.value]
    ensures !(chunks[i].Choice? && chunks[i].content.Some?) ==>
      Forwarded(chunks[..i + 1]) == Forwarded(chunks[..i])
  {
    ForwardedAppend(chunks[..i], [chunks[i]]);
    assert chunks[..i + 1] == chunks[..i] + [chunks[i]];
    assert [chunks[i]][1..] == [];
    assert Forwarded(chunks[..i]) + [] == Forwarded(chunks[..i]);
  }

  /** The `for chunk in response_stream` loop: each forwarded content is
      appended to the reply and sent as a `stream` envelope. */
  method RelayChunks(chunks: seq<Chunk>) returns (reply: string, sent: seq<Envelope>)
    ensures sent == Streams(Forwarded(chunks))
    ensures reply == Concat(Forwarded(chunks))
  {
    reply, sent := "", [];
    for i := 0 to |chunks|
      invariant sent == Streams(Forwarded(chunks[..i]))
      invariant reply == Concat(Forwarded(chunks[..i]))
    {
      ForwardedExtend(chunks, i);
      if chunks[i].Choice? && chunks[i].content.Some? {
        var chunkContent := chunks[i].content.value;
        StreamAppendOne(Forwarded(chunks[..i]), chunkContent);
        reply := reply + chunkContent;
        sent := sent + [Stream(chunkContent)];
      }
    }
    assert chunks[..|chunks|] == chunks;
  }

  /** The decimal digits of a status code. */
  function DecimalString(n: nat): (s: string)
    ensures |s| >= 1
    ensures forall i :: 0 <= i < |s| ==> '0' <= s[i] <= '9'
    decreases n
  {
    var digit := ['0' + (n % 10) as char];
    if n < 10 then digit else DecimalString(n / 10) + digit
  }

  /** The detail of the `error` envelope each upstream failure produces. */
  function FailureDetail(f: Failure): string
  {
    match f
    case ConnectionFailure => "Could not connect to AI service."
    case RateLimited => "AI service is temporarily overloaded. Please try again later."
    case StatusFailure(code) => "AI service error (Status: " + DecimalString(code) + "). Please try again."
    case OtherFailure => "An unexpected error occurred while communicating with the AI."
  }

  /** The envelope that ends a streamed answer. */
  function Terminal(failure: Option<Failure>): Envelope
  {
    match failure
    case None => Stream(Done)
    case Some(f) => ErrorEnv(FailureDetail(f))
  }

  /** The last envelope sent ends a turn: `[DONE]` or an `error`. */
  predicate EndsTurn(outbox: seq<Envelope>)
  {
    |outbox| > 0 && (outbox[|outbox| - 1] == Stream(Done) || outbox[|outbox| - 1].ErrorEnv?)
  }

  /** Every message in the list has a `content` key, so the request log line,
      which indexes `m['content']`, does not raise. */
  predicate AllHaveContent(messages: seq<Message>)
  {
    forall i :: 0 <= i < |messages| ==> "content" in messages[i]
  }

  /** The handling of an accepted chat message: the user message is always
      appended and at most the reply follows it; something is always sent,
      ending in `[DONE]` or an `error`; at most one upstream request is made;
      the file changes only to the saved new messages; and the loop ends only
      when a content's length cannot be taken. */
  function Turn(c: Conn, content: string, clock: string, reply: Reply): (r: Conn)
    ensures |c.messages| + 1 <= |r.messages| <= |c.messages| + 2
    ensures r.messages[..|c.messages| + 1] == c.messages + [MakeMessage("user", content)]
    ensures var withUser := c.messages + [MakeMessage("user", content)];
      r.messages == withUser || r.messages == withUser + [MakeMessage("assistant", Concat(Forwarded(reply.chunks)))]
    ensures |r.outbox| > |c.outbox| && r.outbox[..|c.outbox|] == c.outbox
    ensures EndsTurn(r.outbox)
    ensures |c.apiLog| <= |r.apiLog| <= |c.apiLog| + 1 && r.apiLog[..|c.apiLog|] == c.apiLog
    ensures r.file == c.file || r.file == Saved(r.messages)
    ensures r.open <==> c.open && Measurable(c.messages + [MakeMessage("user", content)])
  {
    Dispatch(c, c.messages + [MakeMessage("user", content)], clock, reply)
  }

  /** The rest of a turn once the user message is appended: the character
      count, the log line and then the upstream call. */
  function Dispatch(c: Conn, withUser: seq<Message>, clock: string, reply: Reply): (r: Conn)
    ensures |withUser| <= |r.messages| <= |withUser| + 1 && r.messages[..|withUser|] == withUser
    ensures r.messages == withUser || r.messages == withUser + [MakeMessage("assistant", Concat(Forwarded(reply.chunks)))]
    ensures |r.outbox| > |c.outbox| && r.outbox[..|c.outbox|] == c.outbox
    ensures EndsTurn(r.outbox)
    ensures |c.apiLog| <= |r.apiLog| <= |c.apiLog| + 1 && r.apiLog[..|c.apiLog|] == c.apiLog
    ensures r.file == c.file || r.file == Saved(r.messages)
    ensures r.open <==> c.open && Measurable(withUser)
  {
    if !Measurable(withUser) then
      // the character count raises TypeError; the outer handler reports it and the loop ends
      Failed(c, withUser, CriticalDetail, false)
    else if !AllHaveContent(Trimmed(SystemPrompt(clock), withUser, MaxContextChars)) then
      // the log line before the upstream call raises KeyError inside the guarded block
      Failed(c, withUser, FailureDetail(OtherFailure), c.open)
    else
      Answered(c, withUser, clock, reply)
  }

  /** A turn cut short before the upstream call: the user message stays
      appended, one `error` envelope is sent, and nothing else changes. */
  function Failed(c: Conn, withUser: seq<Message>, detail: string, open: bool): (r: Conn)
    ensures r.messages == withUser && r.file == c.file && r.apiLog == c.apiLog && r.open == open
    ensures |r.outbox| == |c.outbox| + 1 && r.outbox[..|c.outbox|] == c.outbox
    ensures r.outbox[|c.outbox|] == ErrorEnv(detail)
    ensures EndsTurn(r.outbox)
  {
    c.(messages := withUser, outbox := c.outbox + [ErrorEnv(detail)], open := open)
  }

  /** The part of a turn after the context check: the request goes upstream,
      the streamed contents and the terminal envelope are sent, and a
      non-empty reply is appended and saved. */
  function Answered(c: Conn, withUser: seq<Message>, clock: string, reply: Reply): (r: Conn)
    ensures r.open == c.open
    ensures r.apiLog == c.apiLog + [[SystemMessage(SystemPrompt(clock))] + withUser]
    ensures |r.outbox| > |c.outbox| && r.outbox[..|c.outbox|] == c.outbox
    ensures r.outbox[|r.outbox| - 1] == Terminal(reply.failure)
    ensures r.messages == withUser || r.messages == withUser + [MakeMessage("assistant", Concat(Forwarded(reply.chunks)))]
    ensures |withUser| <= |r.messages| <= |withUser| + 1 && r.messages[..|withUser|] == withUser
    ensures EndsTurn(r.outbox)
    ensures r.file == c.file || r.file == Saved(r.messages)
  {
    var forwarded := Forwarded(reply.chunks);
    var text := Concat(forwarded);
    var sent := c.(apiLog := c.apiLog + [[SystemMessage(SystemPrompt(clock))] + withUser],
                   outbox := c.outbox + Streams(forwarded) + [Terminal(reply.failure)]);
    if text != "" then
      var withReply := withUser + [MakeMessage("assistant", text)];
      sent.(messages := withReply, file := Saved(withReply))
    else
      sent.(messages := withUser)
  }

  /** One pass of the receive loop. */
  function Step(c: Conn, ev: Event): Conn
  {
    match ev
    case Disconnected => c.(open := false)
    case BadJson => c.(outbox := c.outbox + [ErrorEnv(InvalidJsonDetail)])
    case BadStructure(reason) => c.(outbox := c.outbox + [ErrorEnv(InvalidStructurePrefix + reason)])
    case ReceiveFailure => c.(outbox := c.outbox + [ErrorEnv(ReceiveFailureDetail)], open := false)
    case Request(kind, content, clock, reply) =>
      if Accepted(kind, content) then Turn(c, content.value, clock, reply) else c
  }

  /** The receive loop over a sequence of events, until it ends. */
  function Run(c: Conn, events: seq<Event>): Conn
    decreases |events|
  {
    if events == [] || !c.open then c else Run(Step(c, events[0]), events[1..])
  }

  /** A request other than a non-empty chat message leaves the connection
      exactly as it was: no message, no envelope, no upstream call. */
  lemma IgnoredRequestChangesNothing(c: Conn, kind: string, content: Option<string>, clock: string, reply: Reply)
    requires !Accepted(kind, content)
    ensures Step(c, Request(kind, content, clock, reply)) == c
  {
  }

  /** Over well-formed messages the trimmed list has contents throughout, so
      the request log line never raises. */
  lemma TrimmedHasContent(systemPrompt: string, history: seq<Message>, maxChars: int)
    requires Measurable(history) && WellFormed(history)
    ensures AllHaveContent(Trimmed(systemPrompt, history, maxChars))
  {
    var k := DropCount(systemPrompt, history, maxChars);
    var r := Trimmed(systemPrompt, history, maxChars);
    forall i | 0 <= i < |r| ensures "content" in r[i] {
      if i > 0 {
        assert r[i] == history[k + i - 1];
      }
    }
  }

  /** An accepted chat message over well-formed, measurable messages: the
      upstream model gets the system prompt and the whole history with the
      new user message; the socket gets every forwarded content as a
      `stream` envelope, in order, then `[DONE]` or the failure's `error`;
      the reply, the concatenation of the forwarded contents, is appended
      and saved exactly when it is non-empty, a partial reply cut short by a
      failure included. */
  lemma AcceptedTurn(c: Conn, content: string, clock: string, reply: Reply)
    requires content != ""
    requires WellFormed(c.messages)
    requires Measurable(c.messages + [MakeMessage("user", content)])
    ensures var after := Step(c, Request("chat_message", Some(content), clock, reply));
      var user := MakeMessage("user", content);
      var text := Concat(Forwarded(reply.chunks));
      && after.open == c.open
      && after.apiLog == c.apiLog + [[SystemMessage(SystemPrompt(clock))] + c.messages + [user]]
      && after.outbox == c.outbox + Streams(Forwarded(reply.chunks)) + [Terminal(reply.failure)]
      && after.messages == c.messages + [user] + (if text != "" then [MakeMessage("assistant", text)] else [])
      && (text != "" ==> LoadChatHistory(after.file) == after.messages)
      && (text == "" ==> after.file == c.file)
  {
    var withUser := c.messages + [MakeMessage("user", content)];
    WellFormedAppend(c.messages, "user", content);
    TrimmedHasContent(SystemPrompt(clock), withUser, MaxContextChars);
    assert [SystemMessage(SystemPrompt(clock))] + withUser
        == [SystemMessage(SystemPrompt(clock))] + c.messages + [MakeMessage("user", content)];
    var text := Concat(Forwarded(reply.chunks));
    if text != "" {
      var withReply := withUser + [MakeMessage("assistant", text)];
      WellFormedAppend(withUser, "assistant", text);
      SaveLoadRoundTrip(withReply);
    }
  }

  /** The reply is kept exactly when some forwarded content is non-empty: a
      stream of empty strings and None contents leaves no assistant message. */
  lemma ReplyKeptIffSomeContent(c: Conn, content: string, clock: string, reply: Reply)
    requires content != ""
    requires WellFormed(c.messages)
    requires Measurable(c.messages + [MakeMessage("user", content)])
    ensures var after := Step(c, Request("chat_message", Some(content), clock, reply));
      var forwarded := Forwarded(reply.chunks);
      |after.messages| == |c.messages| + 2 <==> exists i :: 0 <= i < |forwarded| && forwarded[i] != ""
  {
    AcceptedTurn(c, content, clock, reply);
    ConcatEmpty(Forwarded(reply.chunks));
  }

  /** The number of times `e` occurs in a sequence of envelopes. */
  function Occurrences(envelopes: seq<Envelope>, e: Envelope): nat
  {
    multiset(envelopes)[e]
  }

  lemma {:induction false} StreamsOccurrences(parts: seq<string>, x: string)
    ensures Occurrences(Streams(parts), Stream(x)) == multiset(parts)[x]
  {
    if parts != [] {
      StreamsOccurrences(parts[1..], x);
      assert parts == [parts[0]] + parts[1..];
      assert Streams(parts) == [Stream(parts[0])] + Streams(parts[1..]);
    }
  }

  /** A stream that ends normally is closed by exactly one `[DONE]` of the
      relay's own, placed last; a further one reaches the client only where
      the model itself streamed a chunk whose content is `[DONE]`. */
  lemma DoneSentOnce(forwarded: seq<string>)
    ensures var turn := Streams(forwarded) + [Terminal(None)];
      && turn[|turn| - 1] == Stream(Done)
      && Occurrences(turn, Stream(Done)) == 1 + multiset(forwarded)[Done]
  {
    StreamsOccurrences(forwarded, Done);
  }

  /** The trimmed list is only logged: whenever trimming would drop a
      message, the upstream model is still sent the longer, untrimmed list. */
  lemma UpstreamGetsUntrimmedHistory(c: Conn, content: string, clock: string, reply: Reply)
    requires content != ""
    requires WellFormed(c.messages)
    requires Measurable(c.messages + [MakeMessage("user", content)])
    requires CharCount(SystemPrompt(clock), c.messages + [MakeMessage("user", content)]) > MaxContextChars
    ensures var after := Step(c, Request("chat_message", Some(content), clock, reply));
      var trimmed := Trimmed(SystemPrompt(clock), c.messages + [MakeMessage("user", content)], MaxContextChars);
      |after.apiLog| == |c.apiLog| + 1 && |trimmed| < |after.apiLog[|c.apiLog|]|
  {
    AcceptedTurn(c, content, clock, reply);
  }

  /** Every pass of the loop keeps each message holding a role and a content. */
  lemma StepKeepsWellFormed(c: Conn, ev: Event)
    requires WellFormed(c.messages)
    ensures WellFormed(Step(c, ev).messages)
  {
    match ev
    case Request(kind, content, clock, reply) =>
      if Accepted(kind, content) {
        var withUser := c.messages + [MakeMessage("user", content.value)];
        WellFormedAppend(c.messages, "user", content.value);
        WellFormedAppend(withUser, "assistant", Concat(Forwarded(reply.chunks)));
      }
    case _ =>
  }

  /** ...and so does the whole loop. */
  lemma {:induction false} RunKeepsWellFormed(c: Conn, events: seq<Event>)
    requires WellFormed(c.messages)
    ensures WellFormed(Run(c, events).messages)
    decreases |events|
  {
    if events != [] && c.open {
      StepKeepsWellFormed(c, events[0]);
      RunKeepsWellFormed(Step(c, events[0]), events[1..]);
    }
  }

  /** Once the client has left, nothing further is handled. */
  lemma NothingAfterDisconnect(c: Conn, events: seq<Event>)
    requires c.open
    ensures Run(c, [Disconnected] + events) == c.(open := false)
  {
    assert ([Disconnected] + events)[1..] == events;
  }

  /** The handler of one WebSocket connection. */
  class Connection {
    var messages: seq<Message>
    var file: FileState
    var outbox: seq<Envelope>
    var apiLog: seq<seq<Message>>
    var open: bool

    function State(): Conn
      reads this
    {
      Conn(messages, file, outbox, apiLog, open)
    }

    /** The connection is accepted and the session's history loaded. */
    constructor (liveFile: FileState)
      ensures State() == Conn(LoadChatHistory(liveFile), liveFile, [], [], true)
    {
      messages := LoadChatHistory(liveFile);
      file := liveFile;
      outbox := [];
      apiLog := [];
      open := true;
    }

    /** Handles one received event. */
    method Receive(ev: Event)
      modifies this
      ensures State() == Step(old(State()), ev)
    {
      match ev
      case Disconnected =>
        open := false;
      case BadJson =>
        outbox := outbox + [ErrorEnv(InvalidJsonDetail)];
      case BadStructure(reason) =>
        outbox := outbox + [ErrorEnv(InvalidStructurePrefix + reason)];
      case ReceiveFailure =>
        outbox := outbox + [ErrorEnv(ReceiveFailureDetail)];
        open := false;
      case Request(kind, content, clock, reply) =>
        if kind == "chat_message" && content.Some? && content.value != "" {
          HandleChatMessage(content.value, clock, reply);
        }
    }

    /** The accepted-request branch: append the user message, trim the
        context (for the log line only), call the upstream model with the
        whole history, relay the chunks and record the reply. */
    method HandleChatMessage(content: string, clock: string, reply: Reply)
      modifies this
      ensures State() == Turn(old(State()), content, clock, reply)
    {
      ghost var before := State();
      var withUser := messages + [MakeMessage("user", content)];
      assert Turn(before, content, clock, reply) == Dispatch(before, withUser, clock, reply);
      var systemPrompt := SystemPrompt(clock);
      var apiMessagesToSend, _ := LimitContextByChars(systemPrompt, withUser, MaxContextChars);
      if apiMessagesToSend.None? {
        messages := withUser;
        outbox := outbox + [ErrorEnv(CriticalDetail)];
        open := false;
        assert State() == Failed(before, withUser, CriticalDetail, false);
        return;
      }
      if !AllHaveContent(apiMessagesToSend.value) {
        messages := withUser;
        outbox := outbox + [ErrorEnv(FailureDetail(OtherFailure))];
        assert State() == Failed(before, withUser, FailureDetail(OtherFailure), open);
        return;
      }
      Answer(withUser, clock, reply);
    }

    /** The upstream call, the relayed stream and the save, once the user
        message is appended and the context check has passed. */
    method Answer(withUser: seq<Message>, clock: string, reply: Reply)
      modifies this
      ensures State() == Answered(old(State()), withUser, clock, reply)
    {
      messages := withUser;
      apiLog := apiLog + [[SystemMessage(SystemPrompt(clock))] + messages];
      var assistantResponseContent, sent := RelayChunks(reply.chunks);
      outbox := outbox + sent + [Terminal(reply.failure)];
      if assistantResponseContent != "" {
        messages := messages + [MakeMessage("assistant", assistantResponseContent)];
        file := Saved(messages);
      }
    }

    /** The receive loop: events are handled in order until the client
        leaves, a receive fails or a critical error closes the connection. */
    method Serve(events: seq<Event>)
      modifies this
      ensures State() == Run(old(State()), events)
    {
      var i := 0;
      while i < |events| && open
        invariant 0 <= i <= |events|
        invariant Run(old(State()), events) == Run(State(), events[i..])
      {
        assert events[i..][1..] == events[i + 1..];
        Receive(events[i]);
        i := i + 1;
      }
    }
  }
}
