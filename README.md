# ChatStreamAI relay and transcript, modelled in Dafny

ChatStreamAI is a small chat service. A browser page sends the user's text
over a WebSocket to a FastAPI server. The server forwards it to an OpenAI chat
model, streams the answer back chunk by chunk, and keeps each session's
history in a JSON file. This project models the parts of it that have
stateable behaviour, and proves properties of that model:

- `ContextLimit` (`context_limit.dfy`): `_limit_context_by_chars`. It puts a
  system message in front of the history, then drops the oldest messages
  while the character count is over the budget. The method keeps the
  source's `while` loop and is proved equal to `Trimmed`, a reference
  definition. Lemmas show the result is the system message followed by the
  longest suffix of the history that fits. If even the empty suffix is over
  the budget, the whole history is dropped. The final warning fires exactly
  when the system prompt alone is over the budget.
- `HistoryFile` (`history_file.dfy`): the checks `load_chat_history` makes on
  shape, and its fallbacks. Also what `save_chat_history` writes, with a
  save/load round trip, and the snapshot file name and response of
  `save_chat_session_manually`, with a parser that inverts the name.
- `Relay` (`relay.dfy`): the receive loop of `main.py`'s WebSocket endpoint,
  modelled as the class `Connection` over a pure `Step` function. It covers
  which requests are accepted, the `stream` envelopes and the closing
  `[DONE]` or `error`, how the reply is accumulated, and when it is appended
  and saved. Modelled as written: the upstream model gets the system prompt
  and the *whole* history. The trimmed list is computed only for a log line.
- `LegacyClient` (`legacy_client.dfy`): the script embedded in the page of
  the older single-file version (`o1-old-version/chatstreamai.py`). It
  covers `appendMessage`, `appendStreamContent`, the `onmessage` dispatch and
  `sendMessage`, on a transcript of (role, text) entries.
- `LegacyServer` (`legacy_server.dfy`): that version's WebSocket loop. It
  reloads the file on every frame, sends the model only the new message,
  forwards truthy chunks, sends `[DONE]`, and saves the user message and the
  reply, even an empty reply. Any exception ends the loop.
- `LegacyProtocol` (`legacy_protocol.dfy`): the older page and server
  together. One server turn, replayed through the page, shows the reply the
  server saved.
- `Common` (`common.dfy`): JSON values, messages as dictionaries
  (`map<string, Json>`, as the Python code keeps them), envelopes, upstream
  chunks and replies.

I/O is abstracted into values. A request event carries the clock text the
system prompt is built from and the upstream reply: a sequence of chunks,
then either a normal end or an exception. The socket is an output log of
envelopes. The history file is a `FileState` value. Whether the session id
parses as a UUID is a boolean parameter. The snapshot timestamp is a string
parameter.

The repository also has a richer browser client under `static/` for the
newer server. It seals an assistant entry when `[DONE]` arrives, shows
`error` envelopes as error entries, and reconnects with exponential backoff.
Its code is not part of this model. The browser side modelled here is the
older page: `[DONE]` is ignored, nothing seals an entry, and other envelope
types are dropped. The newer server sends an `error` envelope when the
upstream call fails. The older server does not: it ends the loop without a
word to the client.

## Model

| member | source | states |
|---|---|---|
| `ContextLimit.LimitContextByChars` | main.py:167-226 | Returns the trimmed context (the system message, then the kept suffix of the history) whenever every content's length can be taken. Gives no result exactly when some content has no length (TypeError). Warns exactly when the system prompt alone is over the budget. |
| `ContextLimit.FitsKeepsAll` | main.py:192-196 | If the prompt plus all contents fit the budget, the result is the system message followed by the whole history, in order. |
| `ContextLimit.TrimmedIsSystemThenSuffix` | main.py:189-208 | The result starts with `{"role":"system","content":prompt}` and continues with a suffix of the history. Only the oldest messages are dropped and order is kept. |
| `ContextLimit.TrimmedWithinBudget` | main.py:207-210 | The kept suffix's character count is within the budget, unless the history was emptied. |
| `ContextLimit.TrimmedIsLongestFit` | main.py:207-211 | Every longer suffix is over the budget. Trimming stops at the first suffix that fits, so the kept suffix is the longest one that fits. |
| `ContextLimit.PromptOverBudgetDropsAll` | main.py:221-224 | A system prompt over the budget on its own drops every history message, leaving only the system message. |
| `ContextLimit.WithinBudgetWhenPromptFits` | main.py:207-224 | If the system prompt fits, the trimmed context always fits: the loop never ends over the limit, so the warning cannot fire. |
| `Common.PyLen` | main.py:192 | `len` of a decoded JSON value: characters of a string, items of a list, keys of a dict. No length (TypeError) exactly for null, booleans and numbers. |
| `HistoryFile.LoadChatHistory` | main.py:120-146 | A missing, unreadable or undecodable file, or one that is not a list of dicts each holding `role` and `content`, loads as `[]`. Otherwise the result is the decoded list itself. Every loaded message holds both keys. |
| `HistoryFile.Saved` | main.py:107-112 | What a save writes is a list whose item i is message i as a dictionary, in order. It passes the loader's shape check exactly when every message holds a role and a content. |
| `HistoryFile.SaveLoadRoundTrip` | main.py:107-140 | Loading what `save_chat_history` wrote gives back the same messages, when each holds a role and a content. |
| `HistoryFile.SaveLoadIllFormed` | main.py:129-138 | A saved list with a message lacking `role` or `content` is read back as `[]`. |
| `HistoryFile.SavedFilename` | main.py:305 | The snapshot name starts with `session_`, ends with `.json`, and has the session id right after the prefix and the timestamp right before the suffix. Its length is the id's plus the timestamp's plus 20. |
| `HistoryFile.ParseSavedFilenameRoundTrip` | main.py:303-305 | Parsing `session_<id>_saved_<YYYYmmdd_HHMMSS>.json` gives back the session id and the timestamp. |
| `HistoryFile.ParseSavedFilenameSound` | main.py:305 | Any name that parses is the snapshot name of its session id and timestamp. |
| `HistoryFile.SavedFilenameInjective` | main.py:303-306 | Snapshots of distinct sessions, or of one session at distinct seconds, never share a file name. |
| `HistoryFile.SaveChatSession` | main.py:274-322 | Succeeds with the snapshot name exactly when the id is a UUID, the live file exists and the copy succeeds. 400 exactly for a non-UUID id. 404 exactly for a missing or vanished live file. 500 otherwise. |
| `Relay.RelayChunks` | main.py:402-408 | The envelopes sent are a `stream` for each chunk content that is not None, in arrival order, empty strings included. The reply is the concatenation of those contents. |
| `Relay.ForwardedAppend` | main.py:402-406 | The forwarded contents of two consecutive stretches of the stream are those of the first followed by those of the second. |
| `Relay.ForwardedAllContent` | main.py:402-408 | When every chunk has a content, exactly those contents are forwarded: none added, dropped or reordered. |
| `Relay.ForwardedSkipsEmptyChunks` | main.py:404 | Chunks without choices or with a None content forward nothing. |
| `Relay.IgnoredRequestChangesNothing` | main.py:370-372 | A request that is not a `chat_message` with non-empty content leaves messages, file, socket output and upstream log unchanged. |
| `Relay.TrimmedHasContent` | main.py:394 | Over messages that all hold `content`, the request log line cannot raise. |
| `Relay.Turn` | main.py:370-434 | The user message is always appended, and at most one assistant message follows it, holding the concatenation of the forwarded contents. Earlier messages, envelopes and upstream requests are kept. At least one envelope is sent, and the last is `[DONE]` or an `error`. At most one upstream request is made. The file changes only to the saved new messages. The loop ends exactly when some content's length cannot be taken. |
| `Relay.AcceptedTurn` | main.py:370-434 | For an accepted message: the upstream model gets the system message plus the whole history with the new user message. The socket gets each forwarded content as `stream`, then `[DONE]` or the failure's `error`. The user message is appended. The reply (the concatenation) is appended and saved exactly when non-empty, even a partial reply cut short by an error. A save can be loaded back as the new messages. |
| `Relay.ReplyKeptIffSomeContent` | main.py:402-434 | The assistant message is appended exactly when some forwarded content is non-empty. A stream of empty strings and None contents adds none. |
| `Relay.DoneSentOnce` | main.py:402-411 | A stream that ends normally closes with `stream`/`[DONE]` as its last envelope. It contains exactly one `[DONE]` plus one for each chunk whose content is literally `[DONE]`. |
| `Relay.StreamsOccurrences` | main.py:408 | The number of `stream` envelopes with a given content equals the number of forwarded contents equal to it. |
| `Relay.UpstreamGetsUntrimmedHistory` | main.py:380-397 | Whenever trimming would drop a message, the list actually sent upstream is longer than the trimmed list. |
| `Relay.StepKeepsWellFormed` | main.py:372-433 | Every pass of the loop keeps each message holding a role and a content. |
| `Relay.RunKeepsWellFormed` | main.py:340-443 | Starting from a loaded history, the whole loop keeps every message holding a role and a content. |
| `Relay.NothingAfterDisconnect` | main.py:353-355 | After the client disconnects, no further event is handled. |
| `Relay.Connection.constructor` | main.py:335-340 | A new connection's messages are the loaded history. Nothing has been sent and the loop is running. |
| `Relay.Connection.Receive` | main.py:347-443 | Handling one event moves the connection to `Step` of its previous state: error envelopes for bad JSON or structure, the loop ends on disconnect or receive failure, and a turn for accepted requests. |
| `Relay.Connection.HandleChatMessage` | main.py:370-434 | The accepted branch changes the state exactly as `Turn`. A TypeError while counting characters sends the critical error and ends the loop. |
| `Relay.Connection.Serve` | main.py:344-453 | The receive loop handles events in order until one ends it, as `Run`. |
| `LegacyClient.TrimSpec` | o1-old-version/chatstreamai.py:149-151 | The trimmed input is a slice of the input with only white space before and after it. The slice itself neither starts nor ends with white space. It is empty exactly when the input is all white space. |
| `LegacyClient.TrimIdempotent` | o1-old-version/chatstreamai.py:149 | Trimming twice is trimming once. |
| `LegacyClient.FragmentGrowsByAtMostOne` | o1-old-version/chatstreamai.py:133-145 | A fragment grows the transcript by at most one entry. It grows by none exactly when the transcript already ends with an assistant entry. Every entry before the new last one is unchanged, including a trailing user entry. The last entry is an assistant entry whose text is the previous assistant text (or nothing) plus the fragment. |
| `LegacyClient.FragmentsMerge` | o1-old-version/chatstreamai.py:137-143 | Two fragments in a row have the effect of their concatenation. |
| `LegacyClient.StreamRunConcatenates` | o1-old-version/chatstreamai.py:109-145 | A run of `stream` envelopes leaves a single trailing assistant entry holding the non-sentinel fragments concatenated in arrival order. If there are none, the transcript is unchanged. `[DONE]` seals nothing. |
| `LegacyClient.Page.constructor` | o1-old-version/chatstreamai.py:92-93 | The page starts with an empty transcript and input and no socket. |
| `LegacyClient.Page.AppendMessage` | o1-old-version/chatstreamai.py:124-131 | Exactly one entry with the given role and content is appended. Earlier entries are unchanged. |
| `LegacyClient.Page.AppendStreamContent` | o1-old-version/chatstreamai.py:133-145 | The transcript becomes `WithFragment` of the old one. |
| `LegacyClient.Page.OnMessage` | o1-old-version/chatstreamai.py:109-117 | A `stream` fragment is appended. `[DONE]` and every other type leave the transcript unchanged. |
| `LegacyClient.Page.SendMessage` | o1-old-version/chatstreamai.py:147-158 | Only when the trimmed input is non-empty and the socket is OPEN: appends a `user` entry with it, sends `{"message": it}` and clears the input. Otherwise nothing changes. |
| `LegacyServer.LoadList` | o1-old-version/chatstreamai.py:60-65 | The older loader, whose result the loop appends to (line 189). A missing file gives an empty list. A decoded list gives its items. Anything else raises, so the list can be appended to exactly when the file is missing or holds a list. Where the newer loader accepts a file, both read the same list. |
| `LegacyServer.LegacyTurn` | o1-old-version/chatstreamai.py:185-222 | Earlier output and requests are kept, and at most one request is made. A turn after which the loop keeps running has just sent `[DONE]`. The file changes only by the stored list growing by the user message and then the reply. |
| `LegacyServer.RelayTruthyChunks` | o1-old-version/chatstreamai.py:206-214 | Sends a `stream` for each truthy content, in order, up to the first chunk without choices. Raises exactly when such a chunk exists. The reply is the concatenation of the sent contents. |
| `LegacyServer.TruthyContentsNonEmpty` | o1-old-version/chatstreamai.py:208 | No forwarded content is empty. |
| `LegacyServer.SameReplyAsNewerRelay` | o1-old-version/chatstreamai.py:206-214 | Over a stream that always has a choice, skipping empty strings gives the same reply text as the newer relay, which forwards them. |
| `LegacyServer.CompletedTurn` | o1-old-version/chatstreamai.py:185-222 | A turn that runs to the end sends the upstream model only the new message and the clock. It sends the truthy contents, then exactly one `[DONE]` of its own. The saved history grows by exactly two entries, the user message then the reply, even an empty reply. |
| `LegacyServer.FailedTurn` | o1-old-version/chatstreamai.py:224-232 | A turn that raises ends the loop. The history file is untouched and no `[DONE]` follows what was already sent. |
| `LegacyServer.LegacyConnection.constructor` | o1-old-version/chatstreamai.py:180-181 | A new connection has sent nothing and its loop runs. |
| `LegacyServer.LegacyConnection.Receive` | o1-old-version/chatstreamai.py:185-222 | Handling one event moves the connection to `Step` of its previous state. |
| `LegacyServer.LegacyConnection.Serve` | o1-old-version/chatstreamai.py:183-232 | The loop handles events in order until the client leaves or an exception ends it, as `Run`. |
| `LegacyProtocol.TranscriptMatchesSavedHistory` | o1-old-version/chatstreamai.py:206-222 | Take a completed turn with a non-empty reply and no chunk that is exactly `[DONE]`. Replayed through the page after the user's entry, the transcript ends with that entry and one assistant entry holding the reply. The saved history ends with the same two messages. |

## Left out

- `Relay.Step`: when an accepted request gets an empty reply, the model goes on to the next event. The source (main.py:435) instead iterates `websocket.iter_json()`. That reads the client's later frames until it disconnects, so no later request on that connection gets an answer. It is left out because what it reads and raises depends on the socket library.
- `Relay.RelayChunks`: a chunk is a choice or no choices. The source's guard that the choice has a `delta` (main.py:404) is not modelled, so the model's choices always have one.
- `LegacyServer.RelayTruthyChunks`: the older loop reads `delta.content` with no guard (o1-old-version/chatstreamai.py:208). A choice whose `delta` is None would raise there and end the loop. The model's choices always have a delta, so it does not capture that exception.
- OpenAI client set-up and credential checks (main.py:35-51, o1-old-version/chatstreamai.py:18-22) are not modelled. They are calls to a library. The upstream model is an abstract `Reply`: a sequence of chunks followed by a normal end or an exception.
- File I/O is not modelled: directory creation, the write test, `shutil.copy2`, and I/O errors while saving, which are only logged (main.py:71-83, 114-118). A save always succeeds in the model. JSON encoding and decoding are taken to be inverse on JSON values.
- `send_ws_message` (main.py:149-163) skips sends on a socket that is not connected and swallows send errors. The model's output log records every send.
- Close codes, closing the socket, and the `active_connections` registry (main.py:86, 457-471; o1-old-version/chatstreamai.py:181, 225-232) are plumbing. The model only records that the loop ends.
- UUID parsing of session ids (main.py:283-290, 328-333) is library behaviour. `SaveChatSession` takes its outcome as a boolean. The endpoint's early close on a bad id is not modelled.
- Clock readings (main.py:303, 376; o1-old-version/chatstreamai.py:191) are parameters. The older server's prompt is recorded as the clock text and the message value, not as the formatted string.
- Logging is not modelled, including the `removed_chars_count` total and the message counts of `_limit_context_by_chars`. The warning's condition is kept.
- The older page's socket lifecycle is not modelled: `connectWebSocket`, `onopen` and `onclose` (o1-old-version/chatstreamai.py:102-108, 118-121). No method sets `LegacyClient.Page`'s `socket` field. `SendMessage` reads the ready state as given.
- The older page's reconnect timer, `initializeChat`, DOM scrolling and styling (o1-old-version/chatstreamai.py:95-100, 120, 130, 144) are not modelled. Neither are `JSON.parse` failures on frames that are not JSON, or non-string envelope contents. Its server only sends JSON objects with string contents.
- The older server's `load_chat_history` has no shape check. Frames whose `message` is not a string are stored as they are, and the model carries them as JSON values.
- The richer browser client under `static/` is not part of this model. That covers backoff, sealing and sanitising.
- Python lists are changed in place. The model reassigns sequence fields instead. `_limit_context_by_chars` pops from a fresh list, so the caller's history is never changed. With sequence values this holds by construction.
