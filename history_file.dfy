/** The live history file of a session and the manual "save chat" snapshot:
    `load_chat_history`'s validation and fallbacks, what `save_chat_history`
    writes, and the name and outcome of `save_chat_session_manually`. */
module HistoryFile {
  import opened Common

  /** What reading `<session>.json` gives: no such file, a read or decode
      error, or the decoded JSON value. */
  datatype FileState = Missing | Unreadable | Decoded(value: Json)

  /** A dictionary holding both a `role` and a `content` key. */
  predicate IsMessageObject(j: Json)
  {
    j.JObj? && "role" in j.fields && "content" in j.fields
  }

  /** The shape `load_chat_history` accepts: a list of message objects. */
  predicate IsHistoryShape(j: Json)
  {
    j.JArr? && forall i :: 0 <= i < |j.items| ==> IsMessageObject(j.items[i])
  }

  /** Every message has both keys, as the servers' own messages do. */
  predicate WellFormed(messages: seq<Message>)
  {
    forall i :: 0 <= i < |messages| ==> "role" in messages[i] && "content" in messages[i]
  }

  /** The JSON value `json.dump` writes for a list of messages. */
  function Encode(messages: seq<Message>): (j: Json)
    ensures j.JArr? && |j.items| == |messages|
    ensures forall i :: 0 <= i < |messages| ==> j.items[i] == JObj(messages[i])
  {
    JArr(seq(|messages|, i requires 0 <= i < |messages| => JObj(messages[i])))
  }

  /** The dictionaries of a list of JSON objects, in order. */
  function Dicts(items: seq<Json>): (r: seq<Message>)
    requires forall i :: 0 <= i < |items| ==> items[i].JObj?
    ensures |r| == |items|
    ensures forall i :: 0 <= i < |items| ==> JObj(r[i]) == items[i]
  {
    seq(|items|, i requires 0 <= i < |items| => items[i].fields)
  }

  /** `load_chat_history`: an empty history when the file is missing,
      cannot be read or decoded, or is not a list of message objects;
      otherwise the decoded list itself. */
  function LoadChatHistory(file: FileState): (r: seq<Message>)
    ensures file.Decoded? && IsHistoryShape(file.value) ==> Encode(r) == file.value
    ensures !(file.Decoded? && IsHistoryShape(file.value)) ==> r == []
    ensures WellFormed(r)
  {
    if file.Decoded? && IsHistoryShape(file.value) then Dicts(file.value.items) else []
  }

  /** What a successful `save_chat_history` leaves on disk: a list of the
      messages as dictionaries, which passes `load_chat_history`'s check
      exactly when every message has a role and a content. */
  function Saved(messages: seq<Message>): (f: FileState)
    ensures f.Decoded? && f.value.JArr? && |f.value.items| == |messages|
    ensures forall i :: 0 <= i < |messages| ==> f.value.items[i] == JObj(messages[i])
    ensures IsHistoryShape(f.value) <==> WellFormed(messages)
  {
    Decoded(Encode(messages))
  }

  /** Appending a message built from a role and a content keeps the list
      well formed. */
  lemma WellFormedAppend(messages: seq<Message>, role: string, content: string)
    requires WellFormed(messages)
    ensures WellFormed(messages + [MakeMessage(role, content)])
  {
  }

  /** Loading what was saved gives back the same messages, provided each has
      a role and a content (every message the servers create does). */
  lemma SaveLoadRoundTrip(messages: seq<Message>)
    requires WellFormed(messages)
    ensures LoadChatHistory(Saved(messages)) == messages
  {
    var r := LoadChatHistory(Saved(messages));
    assert IsHistoryShape(Encode(messages));
    assert |r| == |messages|;
    forall i | 0 <= i < |r| ensures r[i] == messages[i] {
      assert JObj(r[i]) == Encode(messages).items[i];
    }
  }

  /** A saved list with a message lacking a key is read back as empty. */
  lemma SaveLoadIllFormed(messages: seq<Message>)
    requires !WellFormed(messages)
    ensures LoadChatHistory(Saved(messages)) == []
  {
    var i :| 0 <= i < |messages| && !("role" in messages[i] && "content" in messages[i]);
    assert !IsMessageObject(Encode(messages).items[i]);
  }

  const SavedPrefix: string := "session_"
  const SavedInfix: string := "_saved_"
  const SavedSuffix: string := ".json"

  /** A timestamp as `strftime("%Y%m%d_%H%M%S")` formats one. */
  predicate IsTimestamp(ts: string)
  {
    |ts| == 15 && ts[8] == '_' &&
    forall i :: 0 <= i < 15 && i != 8 ==> '0' <= ts[i] <= '9'
  }

  /** The file name of a manual snapshot. */
  function SavedFilename(sessionId: string, timestamp: string): (name: string)
    ensures |name| == |sessionId| + |timestamp| + 20
    ensures name[..8] == SavedPrefix && name[|name| - 5..] == SavedSuffix
    ensures name[8..8 + |sessionId|] == sessionId
    ensures name[|name| - |timestamp| - 5..|name| - 5] == timestamp
  {
    SavedPrefix + sessionId + SavedInfix + timestamp + SavedSuffix
  }

  /** Reads a snapshot file name back into its session id and timestamp. */
  function ParseSavedFilename(name: string): Option<(string, string)>
  {
    if |name| < 35 then None
    else
      var n := |name|;
      var sessionId := name[8..n - 27];
      var timestamp := name[n - 20..n - 5];
      if name[..8] == SavedPrefix && name[n - 27..n - 20] == SavedInfix
         && name[n - 5..] == SavedSuffix && IsTimestamp(timestamp)
      then Some((sessionId, timestamp))
      else None
  }

  /** Parsing a snapshot name gives back its parts... */
  lemma ParseSavedFilenameRoundTrip(sessionId: string, timestamp: string)
    requires IsTimestamp(timestamp)
    ensures ParseSavedFilename(SavedFilename(sessionId, timestamp)) == Some((sessionId, timestamp))
  {
    var name := SavedFilename(sessionId, timestamp);
    var n := |name|;
    assert name[..8] == SavedPrefix;
    assert name[8..n - 27] == sessionId;
    assert name[n - 27..n - 20] == SavedInfix;
    assert name[n - 20..n - 5] == timestamp;
    assert name[n - 5..] == SavedSuffix;
  }

  /** ...and whatever parses is the snapshot name of its parts. */
  lemma ParseSavedFilenameSound(name: string)
    requires ParseSavedFilename(name).Some?
    ensures var (sessionId, timestamp) := ParseSavedFilename(name).value;
      IsTimestamp(timestamp) && SavedFilename(sessionId, timestamp) == name
  {
    var n := |name|;
    assert name == name[..8] + name[8..n - 27] + name[n - 27..n - 20] + name[n - 20..n - 5] + name[n - 5..];
  }

  /** Two snapshots of distinct sessions, or of one session at distinct
      seconds, never share a file name. */
  lemma SavedFilenameInjective(id1: string, ts1: string, id2: string, ts2: string)
    requires IsTimestamp(ts1) && IsTimestamp(ts2)
    requires SavedFilename(id1, ts1) == SavedFilename(id2, ts2)
    ensures id1 == id2 && ts1 == ts2
  {
    ParseSavedFilenameRoundTrip(id1, ts1);
    ParseSavedFilenameRoundTrip(id2, ts2);
  }

  /** How the copy step of a manual save ends: copied, the live file gone
      meanwhile, an I/O error (also from creating the directory), or another
      error. */
  datatype CopyOutcome = Copied | SourceVanished | CopyIoError | CopyOtherError

  datatype SaveResponse =
    | SavedAs(message: string, filename: string)
    | HttpError(status: nat, detail: string)

  /** `save_chat_session_manually`. `isUuid` is whether the session id parses
      as a UUID and `liveFileExists` whether `<session>.json` exists. */
  function SaveChatSession(sessionId: string, isUuid: bool, liveFileExists: bool,
                           timestamp: string, copy: CopyOutcome): (r: SaveResponse)
    ensures r.SavedAs? <==> isUuid && liveFileExists && copy == Copied
    ensures r.SavedAs? ==> r.filename == SavedFilename(sessionId, timestamp)
    ensures r.HttpError? ==> r.status in {400, 404, 500}
    ensures r.HttpError? && r.status == 400 <==> !isUuid
    ensures r.HttpError? && r.status == 404 <==> isUuid && (!liveFileExists || copy == SourceVanished)
  {
    if !isUuid then HttpError(400, "Invalid session ID format.")
    else if !liveFileExists then
      HttpError(404, "No chat history found for session " + sessionId + ".")
    else
      match copy
      case Copied => SavedAs("Chat history saved successfully.", SavedFilename(sessionId, timestamp))
      case SourceVanished => HttpError(404, "Chat history file not found during save.")
      case CopyIoError => HttpError(500, "Failed to save chat history due to server I/O error.")
      case CopyOtherError => HttpError(500, "An unexpected server error occurred during save.")
  }
}
