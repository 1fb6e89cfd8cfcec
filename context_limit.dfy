/** Character-budget trimming of the context sent to the upstream model
    (`_limit_context_by_chars`). A system message is put in front of the
    history; while the character count is over the limit and a conversational
    message remains, the oldest one is dropped. */
module ContextLimit {
  import opened Common

  /** The context budget the relay passes in. */
  const MaxContextChars: int := 300_000

  function SystemMessage(systemPrompt: string): (m: Message)
    ensures m.Keys == {"role", "content"}
    ensures m["role"] == JStr("system") && m["content"] == JStr(systemPrompt)
  {
    MakeMessage("system", systemPrompt)
  }

  /** `len(msg.get("content", ""))`: a missing content counts as 0; a
      content whose length Python cannot take gives None. */
  function ContentLen(m: Message): Option<nat>
  {
    if "content" in m then PyLen(m["content"]) else Some(0)
  }

  /** Every message has a content whose length can be taken, so the sum in
      the character count does not raise. */
  predicate Measurable(history: seq<Message>)
  {
    forall i :: 0 <= i < |history| ==> ContentLen(history[i]).Some?
  }

  /** The summed content lengths of a history. */
  function HistoryChars(history: seq<Message>): nat
    requires Measurable(history)
  {
    if history == [] then 0
    else ContentLen(history[0]).value + HistoryChars(history[1..])
  }

  /** The character count of the system prompt followed by `history`. */
  function CharCount(systemPrompt: string, history: seq<Message>): nat
    requires Measurable(history)
  {
    |systemPrompt| + HistoryChars(history)
  }

  /** How many of the oldest messages trimming drops: none once the rest fits
      or nothing is left, otherwise one more than for the rest. */
  function DropCount(systemPrompt: string, history: seq<Message>, maxChars: int): (k: nat)
    requires Measurable(history)
    ensures k <= |history|
  {
    if CharCount(systemPrompt, history) <= maxChars || history == [] then 0
    else 1 + DropCount(systemPrompt, history[1..], maxChars)
  }

  /** The trimmed context: the system message followed by what is kept. */
  function Trimmed(systemPrompt: string, history: seq<Message>, maxChars: int): seq<Message>
    requires Measurable(history)
  {
    [SystemMessage(systemPrompt)] + history[DropCount(systemPrompt, history, maxChars)..]
  }

  /** The model of `_limit_context_by_chars`. `result` is None where the
      source raises TypeError while summing; `warned` is the condition of the
      warning logged before returning. */
  method LimitContextByChars(systemPrompt: string, history: seq<Message>, maxChars: int)
    returns (result: Option<seq<Message>>, warned: bool)
    ensures result.None? <==> !Measurable(history)
    ensures result.Some? ==> result.value == Trimmed(systemPrompt, history, maxChars)
    ensures warned <==> result.Some? && |systemPrompt| > maxChars
  {
    if !Measurable(history) {
      return None, false;
    }
    var working := [SystemMessage(systemPrompt)] + history;
    var currentChars := |systemPrompt| + HistoryChars(history);
    if currentChars <= maxChars {
      return Some(working), false;
    }
    ghost var dropped := 0;
    while currentChars > maxChars && |working| > 1
      invariant 0 <= dropped <= |history|
      invariant Measurable(history[dropped..])
      invariant working == [SystemMessage(systemPrompt)] + history[dropped..]
      invariant currentChars == CharCount(systemPrompt, history[dropped..])
      invariant DropCount(systemPrompt, history, maxChars)
                == dropped + DropCount(systemPrompt, history[dropped..], maxChars)
      decreases |working|
    {
      var removedMessage := working[1];
      working := working[..1] + working[2..];
      assert history[dropped..][1..] == history[dropped + 1..];
      currentChars := currentChars - ContentLen(removedMessage).value;
      dropped := dropped + 1;
    }
    warned := |working| <= 1 && currentChars > maxChars;
    result := Some(working);
    if |systemPrompt| > maxChars {
      PromptOverBudgetDropsAll(systemPrompt, history, maxChars);
    }
  }

  /** A context that fits is sent whole. */
  lemma FitsKeepsAll(systemPrompt: string, history: seq<Message>, maxChars: int)
    requires Measurable(history) && CharCount(systemPrompt, history) <= maxChars
    ensures Trimmed(systemPrompt, history, maxChars) == [SystemMessage(systemPrompt)] + history
  {
  }

  /** The trimmed context starts with the system message and goes on with a
      suffix of the history, so only the oldest messages are dropped and the
      order is kept. */
  lemma TrimmedIsSystemThenSuffix(systemPrompt: string, history: seq<Message>, maxChars: int)
    requires Measurable(history)
    ensures var r := Trimmed(systemPrompt, history, maxChars);
      && 1 <= |r| <= |history| + 1
      && r[0] == SystemMessage(systemPrompt)
      && r[1..] == history[|history| - (|r| - 1)..]
  {
  }

  /** The kept suffix fits the budget, unless nothing at all is kept. */
  lemma {:induction false} TrimmedWithinBudget(systemPrompt: string, history: seq<Message>, maxChars: int)
    requires Measurable(history)
    ensures var k := DropCount(systemPrompt, history, maxChars);
      CharCount(systemPrompt, history[k..]) <= maxChars || k == |history|
  {
    if CharCount(systemPrompt, history) > maxChars && history != [] {
      TrimmedWithinBudget(systemPrompt, history[1..], maxChars);
      var k := DropCount(systemPrompt, history[1..], maxChars);
      assert history[1..][k..] == history[k + 1..];
    }
  }

  /** Every longer suffix is over the budget: trimming stops at the first
      suffix that fits, so the kept suffix is the longest one that does. */
  lemma {:induction false} TrimmedIsLongestFit(systemPrompt: string, history: seq<Message>, maxChars: int, j: nat)
    requires Measurable(history)
    requires j < DropCount(systemPrompt, history, maxChars)
    ensures CharCount(systemPrompt, history[j..]) > maxChars
  {
    if j > 0 {
      TrimmedIsLongestFit(systemPrompt, history[1..], maxChars, j - 1);
      assert history[1..][j - 1..] == history[j..];
    }
  }

  /** A system prompt over the budget on its own empties the history. */
  lemma {:induction false} PromptOverBudgetDropsAll(systemPrompt: string, history: seq<Message>, maxChars: int)
    requires Measurable(history) && |systemPrompt| > maxChars
    ensures DropCount(systemPrompt, history, maxChars) == |history|
  {
    if history != [] {
      PromptOverBudgetDropsAll(systemPrompt, history[1..], maxChars);
    }
  }

  /** A system prompt within the budget leaves a context within the budget:
      the empty suffix always fits, so the loop never ends over the limit. */
  lemma {:induction false} WithinBudgetWhenPromptFits(systemPrompt: string, history: seq<Message>, maxChars: int)
    requires Measurable(history) && |systemPrompt| <= maxChars
    ensures var k := DropCount(systemPrompt, history, maxChars);
      CharCount(systemPrompt, history[k..]) <= maxChars
  {
    if CharCount(systemPrompt, history) > maxChars && history != [] {
      WithinBudgetWhenPromptFits(systemPrompt, history[1..], maxChars);
      var k := DropCount(systemPrompt, history[1..], maxChars);
      assert history[1..][k..] == history[k + 1..];
    }
  }
}
