/** The browser script of the older single-file version: a transcript of
    message entries that `appendMessage` and `appendStreamContent` extend,
    the `onmessage` dispatch of inbound envelopes, and `sendMessage`, which
    sends the trimmed input when it is non-empty and the socket is open. */
module LegacyClient {
  import opened Common

  /** A transcript entry: a `div` of class `message <role>` and its text. */
  datatype Entry = Entry(role: string, text: string)

  /** `WebSocket.readyState`. */
  datatype ReadyState = Connecting | Open | Closing | Closed

  /** The characters `String.prototype.trim` strips: white space and line
      terminators. */
  predicate IsTrimmable(c: char)
  {
    c == ' ' || '\t' <= c <= '\r' || c == '\U{00A0}' || c == '\U{1680}'
    || '\U{2000}' <= c <= '\U{200A}' || c == '\U{2028}' || c == '\U{2029}'
    || c == '\U{202F}' || c == '\U{205F}' || c == '\U{3000}' || c == '\U{FEFF}'
  }

  function TrimStart(s: string): (t: string)
    ensures |t| <= |s| && t == s[|s| - |t|..]
  {
    if s != [] && IsTrimmable(s[0]) then TrimStart(s[1..]) else s
  }

  function TrimEnd(s: string): (t: string)
    ensures |t| <= |s| && t == s[..|t|]
  {
    if s != [] && IsTrimmable(s[|s| - 1]) then TrimEnd(s[..|s| - 1]) else s
  }

  /** `s.trim()`. */
  function Trim(s: string): string
  {
    TrimEnd(TrimStart(s))
  }

  lemma {:induction false} TrimStartProps(s: string)
    ensures var t := TrimStart(s);
      && (t != "" ==> !IsTrimmable(t[0]))
      && (forall i :: 0 <= i < |s| - |t| ==> IsTrimmable(s[i]))
  {
    if s != [] && IsTrimmable(s[0]) {
      TrimStartProps(s[1..]);
      var t := TrimStart(s);
      forall i | 0 <= i < |s| - |t| ensures IsTrimmable(s[i]) {
        if i > 0 {
          assert s[i] == s[1..][i - 1];
        }
      }
    }
  }

  lemma {:induction false} TrimEndProps(s: string)
    ensures var t := TrimEnd(s);
      && (t != "" ==> !IsTrimmable(t[|t| - 1]))
      && (forall i :: |t| <= i < |s| ==> IsTrimmable(s[i]))
  {
    if s != [] && IsTrimmable(s[|s| - 1]) {
      TrimEndProps(s[..|s| - 1]);
      var t := TrimEnd(s);
      forall i | |t| <= i < |s| ensures IsTrimmable(s[i]) {
        if i < |s| - 1 {
          assert s[i] == s[..|s| - 1][i];
        }
      }
    }
  }

  /** The trimmed text is a slice of the input... */
  lemma TrimIsSlice(s: string)
    ensures var t := Trim(s);
      var a := |s| - |TrimStart(s)|;
      a + |t| <= |s| && t == s[a..a + |t|]
  {
    SliceOfSuffix(s, TrimStart(s), TrimEnd(TrimStart(s)));
  }

  /** A prefix of a suffix is a slice. */
  lemma SliceOfSuffix(s: string, u: string, t: string)
    requires |u| <= |s| && u == s[|s| - |u|..]
    requires |t| <= |u| && t == u[..|t|]
    ensures |s| - |u| + |t| <= |s| && t == s[|s| - |u|..|s| - |u| + |t|]
  {
  }

  /** ...with only white space before and after it. */
  lemma TrimBorders(s: string)
    ensures var t := Trim(s);
      var a := |s| - |TrimStart(s)|;
      && (forall i :: 0 <= i < a ==> IsTrimmable(s[i]))
      && (forall i :: a + |t| <= i < |s| ==> IsTrimmable(s[i]))
  {
    var u := TrimStart(s);
    TrimStartProps(s);
    TrimEndProps(u);
    TrimmableTail(s, |s| - |u|, |TrimEnd(u)|);
  }

  /** White space at the end of a suffix is white space at the end of the
      whole text. */
  lemma TrimmableTail(s: string, a: nat, k: nat)
    requires a + k <= |s|
    requires forall i :: k <= i < |s| - a ==> IsTrimmable(s[a..][i])
    ensures forall i :: a + k <= i < |s| ==> IsTrimmable(s[i])
  {
    forall i | a + k <= i < |s| ensures IsTrimmable(s[i]) {
      assert s[i] == s[a..][i - a];
    }
  }

  /** The trimmed text is what lies between the leading and trailing runs of
      white space: a slice of the input, preceded and followed only by white
      space, that neither starts nor ends with white space; it is empty
      exactly when the input is all white space. */
  lemma TrimSpec(s: string)
    ensures var t := Trim(s);
      var a := |s| - |TrimStart(s)|;
      && a + |t| <= |s| && t == s[a..a + |t|]
      && (forall i :: 0 <= i < a ==> IsTrimmable(s[i]))
      && (forall i :: a + |t| <= i < |s| ==> IsTrimmable(s[i]))
      && (t != "" ==> !IsTrimmable(t[0]) && !IsTrimmable(t[|t| - 1]))
      && (t == "" <==> forall i :: 0 <= i < |s| ==> IsTrimmable(s[i]))
  {
    var u := TrimStart(s);
    var t := TrimEnd(u);
    TrimIsSlice(s);
    TrimBorders(s);
    TrimStartProps(s);
    TrimEndProps(u);
    if t != "" {
      assert t[0] == u[0];
    }
    if t == "" {
      assert u == "";
    } else {
      assert !IsTrimmable(s[|s| - |u|]);
    }
  }

  /** Trimming twice is trimming once. */
  lemma TrimIdempotent(s: string)
    ensures Trim(Trim(s)) == Trim(s)
  {
    var t := Trim(s);
    TrimSpec(s);
    if t != "" {
      assert TrimStart(t) == t;
      assert TrimEnd(t) == t;
    }
  }

  /** Whether the last entry has the `assistant` class. */
  predicate EndsWithAssistant(entries: seq<Entry>)
  {
    entries != [] && entries[|entries| - 1].role == "assistant"
  }

  /** The transcript after `appendStreamContent(content)`: the content is
      added to the text of the trailing assistant entry, which is created
      empty first when the transcript is empty or ends with another role. */
  function WithFragment(entries: seq<Entry>, content: string): seq<Entry>
  {
    if EndsWithAssistant(entries)
    then entries[..|entries| - 1] + [Entry("assistant", entries[|entries| - 1].text + content)]
    else entries + [Entry("assistant", content)]
  }

  /** The transcript after the `onmessage` handler sees one envelope: a
      `stream` fragment is appended, the `[DONE]` sentinel and every other
      type leave the transcript as it is. */
  function OnEnvelope(entries: seq<Entry>, e: Envelope): seq<Entry>
  {
    match e
    case Stream(content) => if content == Done then entries else WithFragment(entries, content)
    case ErrorEnv(_) => entries
  }

  /** The transcript after a sequence of envelopes, in arrival order. */
  function OnEnvelopes(entries: seq<Entry>, es: seq<Envelope>): seq<Entry>
    decreases |es|
  {
    if es == [] then entries else OnEnvelopes(OnEnvelope(entries, es[0]), es[1..])
  }

  /** A fragment grows the transcript by at most one entry, leaves every
      earlier entry alone, and ends it with an assistant entry whose text is
      the previous assistant text (or nothing) followed by the fragment. */
  lemma FragmentGrowsByAtMostOne(entries: seq<Entry>, content: string)
    ensures var r := WithFragment(entries, content);
      && |entries| <= |r| <= |entries| + 1
      && (|r| == |entries| <==> EndsWithAssistant(entries))
      && (forall i :: 0 <= i < |r| - 1 ==> r[i] == entries[i])
      && r[|r| - 1] == Entry("assistant",
           (if EndsWithAssistant(entries) then entries[|entries| - 1].text else "") + content)
  {
  }

  /** Two fragments in a row land in one entry, as their concatenation. */
  lemma FragmentsMerge(entries: seq<Entry>, a: string, b: string)
    ensures WithFragment(WithFragment(entries, a), b) == WithFragment(entries, a + b)
  {
    var r := WithFragment(entries, a);
    if EndsWithAssistant(entries) {
      var t := entries[|entries| - 1].text;
      assert r[..|r| - 1] == entries[..|entries| - 1];
      assert (t + a) + b == t + (a + b);
    } else {
      assert r[..|r| - 1] == entries;
    }
  }

  /** The stream contents other than the sentinel, in order. */
  function Visible(parts: seq<string>): seq<string>
  {
    if parts == [] then []
    else (if parts[0] == Done then [] else [parts[0]]) + Visible(parts[1..])
  }

  /** A run of `stream` envelopes with no user entry in between produces a
      single assistant entry holding the concatenation of the fragments in
      arrival order; sentinels among them change nothing, so nothing seals
      the entry and a later answer is appended to the same one. */
  lemma {:induction false} StreamRunConcatenates(entries: seq<Entry>, parts: seq<string>)
    ensures OnEnvelopes(entries, Streams(parts))
            == if Visible(parts) == [] then entries else WithFragment(entries, Concat(Visible(parts)))
    decreases |parts|
  {
    if parts != [] {
      var rest := parts[1..];
      assert Streams(parts)[1..] == Streams(rest);
      var next := OnEnvelope(entries, Stream(parts[0]));
      StreamRunConcatenates(next, rest);
      if parts[0] == Done {
        assert Visible(parts) == Visible(rest);
      } else {
        var v := Visible(rest);
        assert Visible(parts) == [parts[0]] + v;
        assert ([parts[0]] + v)[1..] == v;
        assert Concat(Visible(parts)) == parts[0] + Concat(v);
        if v != [] {
          FragmentsMerge(entries, parts[0], Concat(v));
        } else {
          assert parts[0] + "" == parts[0];
        }
      }
    }
  }

  /** The page: its transcript, the input field, the socket (`ws`, null
      before the first connection) and the frames sent on it. */
  class Page {
    var entries: seq<Entry>
    var input: string
    var socket: Option<ReadyState>
    var sentFrames: seq<Json>

    constructor ()
      ensures entries == [] && input == "" && socket == None && sentFrames == []
    {
      entries := [];
      input := "";
      socket := None;
      sentFrames := [];
    }

    /** `appendMessage(role, content)`: one entry is added at the end. */
    method AppendMessage(role: string, content: string)
      modifies this`entries
      ensures entries == old(entries) + [Entry(role, content)]
    {
      entries := entries + [Entry(role, content)];
    }

    /** `appendStreamContent(content)`. */
    method AppendStreamContent(content: string)
      modifies this`entries
      ensures entries == WithFragment(old(entries), content)
    {
      var n := |entries|;
      if n == 0 || entries[n - 1].role != "assistant" {
        entries := entries + [Entry("assistant", "")];
        n := n + 1;
        assert entries[..n - 1] == old(entries);
        assert "" + content == content;
      }
      entries := entries[..n - 1] + [Entry("assistant", entries[n - 1].text + content)];
    }

    /** `ws.onmessage`. */
    method OnMessage(e: Envelope)
      modifies this`entries
      ensures entries == OnEnvelope(old(entries), e)
    {
      if e.Stream? {
        if e.content == Done {
          return;
        }
        AppendStreamContent(e.content);
      }
    }

    /** `sendMessage()`: with a non-empty trimmed input and an open socket,
        the input is shown as a user entry, sent as `{"message": ...}` and
        cleared; otherwise nothing changes. */
    method SendMessage()
      modifies this`entries, this`input, this`sentFrames
      ensures var message := Trim(old(input));
        if message != "" && socket == Some(Open) then
          && entries == old(entries) + [Entry("user", message)]
          && sentFrames == old(sentFrames) + [JObj(map["message" := JStr(message)])]
          && input == ""
        else
          entries == old(entries) && sentFrames == old(sentFrames) && input == old(input)
    {
      var message := Trim(input);
      if message != "" && socket.Some? && socket.value == Open {
        AppendMessage("user", message);
        sentFrames := sentFrames + [JObj(map["message" := JStr(message)])];
        input := "";
      }
    }
  }
}
