/** The WebSocket loop of the older single-file version: for every frame it
    reloads the session's history file, appends the user message, asks the
    upstream model about that message alone, forwards every truthy chunk
    content as a `stream` envelope, sends `[DONE]`, and saves the history
    with the user message and the assistant reply (even an empty one). Any
    exception ends the loop and closes the socket. */
module LegacyServer {
  import opened Common
  import opened HistoryFile
  import Relay

  /** What the loop receives: the client left, or a text frame (None when
      it is not JSON) together with the clock text and the upstream reply
      that handling it reads from outside. */
  datatype Event =
    | Disconnected
    | Received(data: Option<Json>, clock: string, reply: Reply)

  /** One upstream request: the prompt is built from the clock text and the
      user's message alone; no earlier message is sent. */
  datatype ApiRequest = ApiRequest(clock: string, message: Json)

  /** The state the loop works on: the history file, the envelopes written
      to the socket, the upstream requests, and whether the loop still runs. */
  datatype LegacyConn = LegacyConn(
    file: FileState,
    outbox: seq<Envelope>,
    apiLog: seq<ApiRequest>,
    open: bool)

  /** The older `load_chat_history` followed by `.append`: the decoded list,
      an empty list for a missing file, and None where reading or decoding
      raises or the decoded value is not a list. */
  function LoadList(file: FileState): (r: Option<seq<Json>>)
    ensures r.Some? <==> file.Missing? || (file.Decoded? && file.value.JArr?)
    ensures file.Missing? ==> r == Some([])
    ensures r.Some? && file.Decoded? ==> JArr(r.value) == file.value
    ensures file.Decoded? && IsHistoryShape(file.value) ==> r == Some(Encode(LoadChatHistory(file)).items)
  {
    match file
    case Missing => Some([])
    case Unreadable => None
    case Decoded(j) => if j.JArr? then Some(j.items) else None
  }

  /** `message_data['message']`: None where the frame is not JSON or not a
      dictionary holding that key. */
  function MessageField(data: Option<Json>): Option<Json>
  {
    if data.Some? && data.value.JObj? && "message" in data.value.fields
    then Some(data.value.fields["message"])
    else None
  }

  /** The chunk contents the older relay forwards: the truthy ones (neither
      None nor empty), in order, up to the first chunk without a choice,
      where indexing `choices[0]` raises. */
  function TruthyContents(chunks: seq<Chunk>): seq<string>
  {
    if chunks == [] || chunks[0].NoChoices? then []
    else (if chunks[0].content.Some? && chunks[0].content.value != "" then [chunks[0].content.value] else [])
         + TruthyContents(chunks[1..])
  }

  /** The stream runs to its end without raising. */
  predicate Completes(reply: Reply)
  {
    reply.failure.None? && forall i :: 0 <= i < |reply.chunks| ==> reply.chunks[i].Choice?
  }

  function UserEntry(message: Json): Json
  {
    JObj(map["role" := JStr("user"), "content" := message])
  }

  function AssistantEntry(text: string): Json
  {
    JObj(MakeMessage("assistant", text))
  }

  /** The handling of one received frame: earlier output and requests are
      kept and at most one request is made; a turn that keeps the loop
      running has just sent `[DONE]`; the file changes only by growing the
      stored list by two entries, the user message then the reply. */
  function LegacyTurn(c: LegacyConn, data: Option<Json>, clock: string, reply: Reply): (r: LegacyConn)
    ensures |r.outbox| >= |c.outbox| && r.outbox[..|c.outbox|] == c.outbox
    ensures |c.apiLog| <= |r.apiLog| <= |c.apiLog| + 1 && r.apiLog[..|c.apiLog|] == c.apiLog
    ensures r.open ==> c.open && |r.outbox| > 0 && r.outbox[|r.outbox| - 1] == Stream(Done)
    ensures r.file != c.file ==>
      && LoadList(c.file).Some? && MessageField(data).Some? && LoadList(r.file).Some?
      && LoadList(r.file).value == LoadList(c.file).value
           + [UserEntry(MessageField(data).value), AssistantEntry(Concat(TruthyContents(reply.chunks)))]
  {
    var message := MessageField(data);
    var stored := LoadList(c.file);
    if message.None? || stored.None? then c.(open := false)
    else
      var forwarded := TruthyContents(reply.chunks);
      var called := c.(apiLog := c.apiLog + [ApiRequest(clock, message.value)]);
      if !Completes(reply) then
        called.(outbox := c.outbox + Streams(forwarded), open := false)
      else
        called.(outbox := c.outbox + Streams(forwarded) + [Stream(Done)],
                file := Decoded(JArr(stored.value + [UserEntry(message.value), AssistantEntry(Concat(forwarded))])))
  }

  function Step(c: LegacyConn, ev: Event): LegacyConn
  {
    match ev
    case Disconnected => c.(open := false)
    case Received(data, clock, reply) => LegacyTurn(c, data, clock, reply)
  }

  function Run(c: LegacyConn, events: seq<Event>): LegacyConn
    decreases |events|
  {
    if events == [] || !c.open then c else Run(Step(c, events[0]), events[1..])
  }

  /** The `for chunk in response` loop: truthy contents are appended to the
      reply and sent; a chunk without a choice raises and ends the loop. */
  method RelayTruthyChunks(chunks: seq<Chunk>) returns (assistantMessage: string, sent: seq<Envelope>, raised: bool)
    ensures sent == Streams(TruthyContents(chunks))
    ensures assistantMessage == Concat(TruthyContents(chunks))
    ensures raised <==> exists i :: 0 <= i < |chunks| && chunks[i].NoChoices?
  {
    assistantMessage, sent, raised := "", [], false;
    ghost var forwarded: seq<string> := [];
    var i := 0;
    while i < |chunks| && !raised
      invariant 0 <= i <= |chunks|
      invariant raised ==> i < |chunks| && chunks[i].NoChoices?
      invariant TruthyContents(chunks) == forwarded + TruthyContents(chunks[i..])
      invariant sent == Streams(forwarded)
      invariant assistantMessage == Concat(forwarded)
      invariant forall j :: 0 <= j < i ==> chunks[j].Choice?
      decreases |chunks| - i, if raised then 0 else 1
    {
      if chunks[i].NoChoices? {
        raised := true;
      } else {
        var content := chunks[i].content;
        TruthyAdvance(chunks, i, forwarded);
        if content.Some? && content.value != "" {
          StreamAppendOne(forwarded, content.value);
          forwarded := forwarded + [content.value];
          assistantMessage := assistantMessage + content.value;
          sent := sent + [Stream(content.value)];
        }
        i := i + 1;
      }
    }
    TruthyStopsAt(chunks, i);
    assert forwarded + [] == forwarded;
  }

  /** One step of the loop: a chunk with a choice moves its truthy content,
      if any, from what is still to come to what has been forwarded. */
  lemma TruthyAdvance(chunks: seq<Chunk>, i: nat, forwarded: seq<string>)
    requires i < |chunks| && chunks[i].Choice?
    requires TruthyContents(chunks) == forwarded + TruthyContents(chunks[i..])
    ensures var c := chunks[i].content;
      TruthyContents(chunks)
      == (if c.Some? && c.value != "" then forwarded + [c.value] else forwarded) + TruthyContents(chunks[i + 1..])
  {
    TruthyStep(chunks, i);
    var c := chunks[i].content;
    var rest := TruthyContents(chunks[i + 1..]);
    if c.Some? && c.value != "" {
      assert forwarded + ([c.value] + rest) == (forwarded + [c.value]) + rest;
    } else {
      assert [] + rest == rest;
    }
  }

  /** Nothing is forwarded from the end of the stream or from a chunk
      without a choice onwards. */
  lemma TruthyStopsAt(chunks: seq<Chunk>, i: nat)
    requires i <= |chunks|
    requires i < |chunks| ==> chunks[i].NoChoices?
    ensures TruthyContents(chunks[i..]) == []
  {
    if i < |chunks| {
      assert chunks[i..][0] == chunks[i];
    }
  }

  /** One chunk with a choice contributes its truthy content, if any, in
      front of what the rest contributes. */
  lemma TruthyStep(chunks: seq<Chunk>, i: nat)
    requires i < |chunks| && chunks[i].Choice?
    ensures var c := chunks[i].content;
      TruthyContents(chunks[i..])
      == (if c.Some? && c.value != "" then [c.value] else []) + TruthyContents(chunks[i + 1..])
  {
    assert chunks[i..][1..] == chunks[i + 1..];
  }

  /** Every forwarded content is non-empty: empty strings are skipped. */
  lemma {:induction false} TruthyContentsNonEmpty(chunks: seq<Chunk>)
    ensures forall i :: 0 <= i < |TruthyContents(chunks)| ==> TruthyContents(chunks)[i] != ""
  {
    if chunks != [] && chunks[0].Choice? {
      TruthyContentsNonEmpty(chunks[1..]);
    }
  }

  /** Skipping empty strings does not change the reply: over a stream that
      always has a choice, the older relay's reply equals the newer one's. */
  lemma {:induction false} SameReplyAsNewerRelay(chunks: seq<Chunk>)
    requires forall i :: 0 <= i < |chunks| ==> chunks[i].Choice?
    ensures Concat(TruthyContents(chunks)) == Concat(Relay.Forwarded(chunks))
  {
    if chunks != [] {
      SameReplyAsNewerRelay(chunks[1..]);
      var rest := TruthyContents(chunks[1..]);
      var newer := Relay.Forwarded(chunks[1..]);
      var c := chunks[0].content;
      if c.Some? {
        assert Relay.Forwarded(chunks) == [c.value] + newer;
        assert ([c.value] + newer)[1..] == newer;
        if c.value != "" {
          assert TruthyContents(chunks) == [c.value] + rest;
          assert ([c.value] + rest)[1..] == rest;
        } else {
          assert TruthyContents(chunks) == rest;
          assert "" + Concat(newer) == Concat(newer);
        }
      } else {
        assert TruthyContents(chunks) == rest;
        assert Relay.Forwarded(chunks) == newer;
      }
    }
  }

  /** A turn that runs to the end sends the truthy contents in order and
      exactly one `[DONE]` after them, and grows the saved history by exactly
      two entries, the user's message then the reply, even an empty reply. */
  lemma CompletedTurn(c: LegacyConn, data: Option<Json>, clock: string, reply: Reply)
    requires MessageField(data).Some? && LoadList(c.file).Some? && Completes(reply)
    ensures var after := LegacyTurn(c, data, clock, reply);
      var forwarded := TruthyContents(reply.chunks);
      && after.open == c.open
      && after.apiLog == c.apiLog + [ApiRequest(clock, MessageField(data).value)]
      && after.outbox == c.outbox + Streams(forwarded) + [Stream(Done)]
      && LoadList(after.file) == Some(LoadList(c.file).value
           + [UserEntry(MessageField(data).value), AssistantEntry(Concat(forwarded))])
  {
  }

  /** A turn that raises ends the loop; the contents sent before stay sent,
      no `[DONE]` follows, and the history file is untouched. */
  lemma FailedTurn(c: LegacyConn, data: Option<Json>, clock: string, reply: Reply)
    requires !(MessageField(data).Some? && LoadList(c.file).Some? && Completes(reply))
    ensures var after := LegacyTurn(c, data, clock, reply);
      && !after.open
      && after.file == c.file
      && (after.outbox == c.outbox || after.outbox == c.outbox + Streams(TruthyContents(reply.chunks)))
  {
  }

  /** The handler of one WebSocket connection of the older version. */
  class LegacyConnection {
    var file: FileState
    var outbox: seq<Envelope>
    var apiLog: seq<ApiRequest>
    var open: bool

    function State(): LegacyConn
      reads this
    {
      LegacyConn(file, outbox, apiLog, open)
    }

    constructor (liveFile: FileState)
      ensures State() == LegacyConn(liveFile, [], [], true)
    {
      file := liveFile;
      outbox := [];
      apiLog := [];
      open := true;
    }

    /** Handles one received event. */
    method Receive(ev: Event)
      modifies this
      ensures State() == Step(old(State()), ev)
    {
      match ev
      case Disconnected =>
        open := false;
      case Received(data, clock, reply) =>
        var message := MessageField(data);
        var stored := LoadList(file);
        if message.None? || stored.None? {
          open := false;
          return;
        }
        apiLog := apiLog + [ApiRequest(clock, message.value)];
        var assistantMessage, sent, raised := RelayTruthyChunks(reply.chunks);
        outbox := outbox + sent;
        if raised || reply.failure.Some? {
          open := false;
          return;
        }
        outbox := outbox + [Stream(Done)];
        var messages := stored.value + [UserEntry(message.value), AssistantEntry(assistantMessage)];
        file := Decoded(JArr(messages));
    }

    /** The receive loop, until the client leaves or an exception ends it. */
    method Serve(events: seq<Event>)
      modifies this
      ensures State() == Run(old(State()), events)
    {
      var i := 0;
      while i < |events| && open
        invariant 0 <= i <= |events|
        invariant Run(old(State()), events) == Run(State(), events[i..])
      {
        assert events[i..][1..] == events[i + 1..];
        Receive(events[i]);
        i := i + 1;
      }
    }
  }
}
