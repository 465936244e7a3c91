/** The chat messages sent upstream: all plain system messages become one, in
    front of the others. */
module ProxyMessages {
  import opened Sequences

  datatype ChatMessage = ChatMessage(role: string, content: string, toolCalls: seq<string>, toolCallId: string)

  predicate IsPlainSystem(m: ChatMessage) {
    m.role == "system" && m.content != "" && m.toolCalls == []
  }

  function SystemParts(messages: seq<ChatMessage>): seq<string> {
    if messages == [] then []
    else
      var n := |messages| - 1;
      if IsPlainSystem(messages[n])
        then SystemParts(messages[..n]) + [messages[n].content] else SystemParts(messages[..n])
  }

  function Others(messages: seq<ChatMessage>): seq<ChatMessage> {
    if messages == [] then []
    else
      var n := |messages| - 1;
      if IsPlainSystem(messages[n]) then Others(messages[..n]) else Others(messages[..n]) + [messages[n]]
  }

  // strings.Join(parts, "\n\n")
  function Paragraphs(parts: seq<string>): string {
    if parts == [] then ""
    else if |parts| == 1 then parts[0]
    else Paragraphs(parts[..|parts| - 1]) + "\n\n" + parts[|parts| - 1]
  }

  function Normalized(messages: seq<ChatMessage>): seq<ChatMessage> {
    var parts := SystemParts(messages);
    if parts == [] then Others(messages)
    else [ChatMessage("system", Paragraphs(parts), [], "")] + Others(messages)
  }

  method NormalizeChatMessages(messages: seq<ChatMessage>) returns (out: seq<ChatMessage>)
    ensures out == Normalized(messages)
  {
    var systemParts: seq<string> := [];
    out := [];
    for i := 0 to |messages|
      invariant systemParts == SystemParts(messages[..i]) && out == Others(messages[..i])
    {
      var msg := messages[i];
      assert messages[..i + 1][..i] == messages[..i];
      if msg.role == "system" && msg.content != "" && |msg.toolCalls| == 0 {
        systemParts := systemParts + [msg.content];
        continue;
      }
      out := out + [msg];
    }
    assert messages[..|messages|] == messages;
    if |systemParts| == 0 {
      return;
    }
    out := [ChatMessage("system", Paragraphs(systemParts), [], "")] + out;
  }

  predicate NonePlain(messages: seq<ChatMessage>) {
    forall k :: 0 <= k < |messages| ==> !IsPlainSystem(messages[k])
  }

  lemma {:induction false} OthersArePlainFree(messages: seq<ChatMessage>)
    ensures NonePlain(Others(messages))
  {
    if messages != [] {
      OthersArePlainFree(messages[..|messages| - 1]);
    }
  }

  lemma {:induction false} PartsStay(first: seq<ChatMessage>, rest: seq<ChatMessage>)
    requires NonePlain(rest)
    ensures SystemParts(first + rest) == SystemParts(first)
  {
    if rest == [] {
      assert first + rest == first;
    } else {
      PartsStay(first, rest[..|rest| - 1]);
      DropLast(first, rest);
    }
  }

  lemma {:induction false} OthersStay(first: seq<ChatMessage>, rest: seq<ChatMessage>)
    requires NonePlain(rest)
    ensures Others(first + rest) == Others(first) + rest
  {
    if rest == [] {
      assert first + rest == first;
    } else {
      var n := |rest| - 1;
      OthersStay(first, rest[..n]);
      DropLast(first, rest);
      DropLast(Others(first), rest);
    }
  }

  lemma {:induction false} PlainFreeStays(first: seq<ChatMessage>, rest: seq<ChatMessage>)
    requires NonePlain(rest)
    ensures SystemParts(first + rest) == SystemParts(first) && Others(first + rest) == Others(first) + rest
  {
    PartsStay(first, rest);
    OthersStay(first, rest);
  }

  lemma {:induction false} PartsAreNotEmpty(messages: seq<ChatMessage>)
    ensures SystemParts(messages) != [] ==> Paragraphs(SystemParts(messages)) != ""
    ensures forall k :: 0 <= k < |SystemParts(messages)| ==> SystemParts(messages)[k] != ""
  {
    if messages != [] {
      PartsAreNotEmpty(messages[..|messages| - 1]);
    }
  }

  // The result has at most one plain system message, in front, with the whole
  // system text; the other messages keep their order; and it is a fixed point.
  lemma {:induction false} NormalizedIsStable(messages: seq<ChatMessage>)
    ensures var out := Normalized(messages);
      && NonePlain(if out != [] && IsPlainSystem(out[0]) then out[1..] else out)
      && Others(out) == Others(messages)
      && Paragraphs(SystemParts(out)) == Paragraphs(SystemParts(messages))
      && Normalized(out) == out
  {
    OthersArePlainFree(messages);
    PartsAreNotEmpty(messages);
    var others := Others(messages);
    if SystemParts(messages) == [] {
      PlainFreeStays([], others);
      assert [] + others == others;
    } else {
      var system := ChatMessage("system", Paragraphs(SystemParts(messages)), [], "");
      PlainFreeStays([system], others);
      assert [system][..0] == [];
    }
  }

  // ---- the result, message by message ----

  // A system message that says something and calls nothing.
  predicate Merges(m: ChatMessage) {
    m.role == "system" && |m.content| > 0 && |m.toolCalls| == 0
  }

  function Kept(messages: seq<ChatMessage>): seq<ChatMessage> {
    if messages == [] then [] else (if Merges(messages[0]) then [] else [messages[0]]) + Kept(messages[1..])
  }

  function Merged(messages: seq<ChatMessage>): seq<string> {
    if messages == [] then [] else (if Merges(messages[0]) then [messages[0].content] else []) + Merged(messages[1..])
  }

  // With a blank line between them.
  function Spaced(texts: seq<string>): string {
    if texts == [] then ""
    else if |texts| == 1 then texts[0]
    else texts[0] + "\n\n" + Spaced(texts[1..])
  }

  lemma {:induction false} OthersAtFront(messages: seq<ChatMessage>)
    requires messages != []
    ensures Others(messages) == (if Merges(messages[0]) then [] else [messages[0]]) + Others(messages[1..])
    decreases |messages|
  {
    var n := |messages| - 1;
    if n == 0 {
      assert messages[..n] == [] && messages[1..] == [];
    } else {
      OthersAtFront(messages[..n]);
      assert messages[..n][1..] == messages[1..][..n - 1];
      Regroup(if Merges(messages[0]) then [] else [messages[0]], Others(messages[1..][..n - 1]), [messages[n]]);
    }
  }

  lemma {:induction false} PartsAtFront(messages: seq<ChatMessage>)
    requires messages != []
    ensures SystemParts(messages) ==
      (if Merges(messages[0]) then [messages[0].content] else []) + SystemParts(messages[1..])
    decreases |messages|
  {
    var n := |messages| - 1;
    if n == 0 {
      assert messages[..n] == [] && messages[1..] == [];
    } else {
      PartsAtFront(messages[..n]);
      assert messages[..n][1..] == messages[1..][..n - 1];
      Regroup(if Merges(messages[0]) then [messages[0].content] else [], SystemParts(messages[1..][..n - 1]),
        [messages[n].content]);
    }
  }

  lemma {:induction false} KeptAndMerged(messages: seq<ChatMessage>)
    ensures Others(messages) == Kept(messages) && SystemParts(messages) == Merged(messages)
    decreases |messages|
  {
    if messages != [] {
      OthersAtFront(messages);
      PartsAtFront(messages);
      KeptAndMerged(messages[1..]);
    }
  }

  lemma {:induction false} ParagraphsAtFront(parts: seq<string>)
    requires |parts| > 1
    ensures Paragraphs(parts) == parts[0] + "\n\n" + Paragraphs(parts[1..])
    decreases |parts|
  {
    var n := |parts| - 1;
    if n == 1 {
      assert parts[..n] == [parts[0]] && parts[1..] == [parts[1]];
    } else {
      ParagraphsAtFront(parts[..n]);
      assert parts[..n][1..] == parts[1..][..n - 1];
      ParagraphsRegroup(parts[0], Paragraphs(parts[1..][..n - 1]), parts[n]);
    }
  }

  lemma {:induction false} ParagraphsRegroup(a: string, b: string, c: string)
    ensures a + "\n\n" + b + "\n\n" + c == a + "\n\n" + (b + "\n\n" + c)
  {
  }

  lemma {:induction false} ParagraphsAreSpaced(parts: seq<string>)
    ensures Paragraphs(parts) == Spaced(parts)
    decreases |parts|
  {
    if |parts| > 1 {
      ParagraphsAtFront(parts);
      ParagraphsAreSpaced(parts[1..]);
    }
  }

  // One system message with the texts of all that merge, if there are any, and then
  // all others, unchanged and in order.
  lemma {:induction false} NormalizedExactly(messages: seq<ChatMessage>)
    ensures Normalized(messages) ==
      (if Merged(messages) == [] then [] else [ChatMessage("system", Spaced(Merged(messages)), [], "")]) +
      Kept(messages)
  {
    KeptAndMerged(messages);
    ParagraphsAreSpaced(Merged(messages));
  }
}
