/** The older version end to end: the envelopes of one server turn,
    replayed through the page's `onmessage` handler, leave the transcript
    showing what the server saved. */
module LegacyProtocol {
  import opened Common
  import opened LegacyClient
  import opened LegacyServer

  lemma {:induction false} OnEnvelopesAppend(entries: seq<Entry>, a: seq<Envelope>, b: seq<Envelope>)
    ensures OnEnvelopes(entries, a + b) == OnEnvelopes(OnEnvelopes(entries, a), b)
    decreases |a|
  {
    if a == [] {
      assert a + b == b;
    } else {
      assert (a + b)[1..] == a[1..] + b;
      OnEnvelopesAppend(OnEnvelope(entries, a[0]), a[1..], b);
    }
  }

  lemma {:induction false} VisibleWithoutSentinel(parts: seq<string>)
    requires Done !in parts
    ensures Visible(parts) == parts
  {
    if parts != [] {
      VisibleWithoutSentinel(parts[1..]);
    }
  }

  /** The page's replay of a completed stream after the user's entry: the
      fragments, none of them exactly `[DONE]` and not all empty, become one
      assistant entry holding their concatenation, and the final `[DONE]`
      changes nothing. */
  lemma ReplayCompletedStream(entries: seq<Entry>, message: string, forwarded: seq<string>)
    requires Done !in forwarded
    requires Concat(forwarded) != ""
    ensures OnEnvelopes(entries + [Entry("user", message)], Streams(forwarded) + [Stream(Done)])
      == entries + [Entry("user", message), Entry("assistant", Concat(forwarded))]
  {
    var start := entries + [Entry("user", message)];
    OnEnvelopesAppend(start, Streams(forwarded), [Stream(Done)]);
    StreamRunConcatenates(start, forwarded);
    VisibleWithoutSentinel(forwarded);
    assert forwarded != [];
    var shownBeforeDone := WithFragment(start, Concat(forwarded));
    assert shownBeforeDone == entries + [Entry("user", message), Entry("assistant", Concat(forwarded))];
    assert [Stream(Done)][1..] == [];
    assert OnEnvelopes(shownBeforeDone, [Stream(Done)]) == OnEnvelopes(shownBeforeDone, []);
  }

  /** A turn the server completes, replayed through the page after the
      user's entry: when the model streams a non-empty reply containing no
      chunk that is exactly `[DONE]`, the transcript ends with the user's
      entry and one assistant entry whose text is the reply, and the saved
      history ends with the same two messages. */
  lemma TranscriptMatchesSavedHistory(entries: seq<Entry>, message: string, c: LegacyConn, clock: string, reply: Reply)
    requires LoadList(c.file).Some? && Completes(reply)
    requires Done !in TruthyContents(reply.chunks)
    requires Concat(TruthyContents(reply.chunks)) != ""
    ensures var data := Some(JObj(map["message" := JStr(message)]));
      var after := LegacyTurn(c, data, clock, reply);
      var text := Concat(TruthyContents(reply.chunks));
      var shown := OnEnvelopes(entries + [Entry("user", message)], after.outbox[|c.outbox|..]);
      var saved := LoadList(after.file).value;
      && shown == entries + [Entry("user", message), Entry("assistant", text)]
      && saved[|saved| - 2..] == [UserEntry(JStr(message)), AssistantEntry(text)]
  {
    var data := Some(JObj(map["message" := JStr(message)]));
    var forwarded := TruthyContents(reply.chunks);
    assert MessageField(data) == Some(JStr(message));
    CompletedTurn(c, data, clock, reply);
    var after := LegacyTurn(c, data, clock, reply);
    assert after.outbox[|c.outbox|..] == Streams(forwarded) + [Stream(Done)];
    ReplayCompletedStream(entries, message, forwarded);
  }
}
