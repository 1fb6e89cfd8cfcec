/** Values shared by the server models and the browser model: decoded JSON,
    chat messages as the dictionaries the servers keep, the envelopes written
    to the socket, and the upstream model's streamed reply. */
module Common {

  datatype Option<T> = None | Some(value: T)

  /** A decoded JSON value. Numbers keep their literal text: nothing here
      computes with them. */
  datatype Json =
    | JNull
    | JBool(b: bool)
    | JNum(literal: string)
    | JStr(s: string)
    | JArr(items: seq<Json>)
    | JObj(fields: map<string, Json>)

  /** A chat message as the servers hold it: a dictionary whose values are
      whatever the history file decoded to, or strings the server put there. */
  type Message = map<string, Json>

  function MakeMessage(role: string, content: string): (m: Message)
    ensures m.Keys == {"role", "content"}
    ensures m["role"] == JStr(role) && m["content"] == JStr(content)
  {
    map["role" := JStr(role), "content" := JStr(content)]
  }

  /** Python's `len` on a decoded JSON value: strings count characters,
      lists count items, dictionaries count keys; anything else raises
      TypeError, written None here. */
  function PyLen(j: Json): (n: Option<nat>)
    ensures n.None? <==> (j.JNull? || j.JBool? || j.JNum?)
    ensures j.JStr? ==> n == Some(|j.s|)
    ensures j.JArr? ==> n == Some(|j.items|)
    ensures j.JObj? ==> n == Some(|j.fields|)
  {
    match j
    case JStr(s) => Some(|s|)
    case JArr(items) => Some(|items|)
    case JObj(fields) => Some(|fields|)
    case _ => None
  }

  /** An envelope the servers write to the socket. */
  datatype Envelope =
    | Stream(content: string)
    | ErrorEnv(detail: string)

  /** The terminal marker of a streamed response. */
  const Done: string := "[DONE]"

  /** One chunk of the upstream model's stream: either it has no choices, or
      its first choice carries a delta whose content may be None. */
  datatype Chunk = NoChoices | Choice(content: Option<string>)

  /** The exceptions the upstream client can raise. */
  datatype Failure =
    | ConnectionFailure
    | RateLimited
    | StatusFailure(code: nat)
    | OtherFailure

  /** What the upstream model does for one request: it yields `chunks` and
      then either ends normally (failure == None) or raises. A failure of the
      request itself is a reply with no chunks. */
  datatype Reply = Reply(chunks: seq<Chunk>, failure: Option<Failure>)

  /** The concatenation of a sequence of strings, left to right. */
  function Concat(parts: seq<string>): string
  {
    if parts == [] then "" else parts[0] + Concat(parts[1..])
  }

  lemma {:induction false} ConcatAppend(a: seq<string>, b: seq<string>)
    ensures Concat(a + b) == Concat(a) + Concat(b)
  {
    if a == [] {
      assert a + b == b;
    } else {
      assert (a + b)[1..] == a[1..] + b;
      ConcatAppend(a[1..], b);
    }
  }

  lemma {:induction false} ConcatEmpty(parts: seq<string>)
    ensures Concat(parts) == "" <==> forall i :: 0 <= i < |parts| ==> parts[i] == ""
  {
    if parts != [] {
      ConcatEmpty(parts[1..]);
      assert forall i :: 1 <= i < |parts| ==> parts[i] == parts[1..][i - 1];
    }
  }

  /** The contents of a sequence of envelopes, each sent as a `stream`. */
  function Streams(parts: seq<string>): (r: seq<Envelope>)
    ensures |r| == |parts|
    ensures forall i :: 0 <= i < |parts| ==> r[i] == Stream(parts[i])
  {
    if parts == [] then [] else [Stream(parts[0])] + Streams(parts[1..])
  }

  lemma {:induction false} StreamsAppend(a: seq<string>, b: seq<string>)
    ensures Streams(a + b) == Streams(a) + Streams(b)
  {
    if a == [] {
      assert a + b == b;
    } else {
      assert (a + b)[1..] == a[1..] + b;
      StreamsAppend(a[1..], b);
    }
  }

  /** Sending one more content extends both the envelopes and the concatenated reply. */
  lemma StreamAppendOne(forwarded: seq<string>, x: string)
    ensures Streams(forwarded + [x]) == Streams(forwarded) + [Stream(x)]
    ensures Concat(forwarded + [x]) == Concat(forwarded) + x
  {
    StreamsAppend(forwarded, [x]);
    ConcatAppend(forwarded, [x]);
    assert Concat([x]) == x + Concat([]);
    assert x + "" == x;
  }
}
