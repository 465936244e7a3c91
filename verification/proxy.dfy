/** The translation of a stream of chat deltas into a stream of response
    events.  Events carry the channel they belong to as a history tag. */
module Proxy {
  import opened Options
  import opened Sequences
  import opened Text

  datatype TokenCounts = TokenCounts(input: int, output: int, total: int)

  // ---- the upstream lines ----

  datatype ToolDelta = ToolDelta(index: int, id: string, name: string, arguments: string)

  datatype Choice = Choice(content: string, tools: seq<ToolDelta>)

  // A line is blank, a comment or not parsable; the end mark; or a chunk.
  datatype Line = Ignored | EndMark | Data(usage: Option<TokenCounts>, choices: seq<Choice>)

  // One thing a chunk says.
  datatype Op = Content(text: string) | Tool(delta: ToolDelta)

  function ToolOps(tools: seq<ToolDelta>): seq<Op> {
    seq(|tools|, i requires 0 <= i < |tools| => Tool(tools[i]))
  }

  function ChoiceOps(choices: seq<Choice>): seq<Op> {
    if choices == [] then [] else [Content(choices[0].content)] + ToolOps(choices[0].tools) + ChoiceOps(choices[1..])
  }

  // What the lines say up to the end mark.
  function LineOps(lines: seq<Line>): seq<Op> {
    if lines == [] || lines[0].EndMark? then []
    else (if lines[0].Data? then ChoiceOps(lines[0].choices) else []) + LineOps(lines[1..])
  }

  function LastUsage(lines: seq<Line>, seen: Option<TokenCounts>): Option<TokenCounts> {
    if lines == [] || lines[0].EndMark? then seen
    else LastUsage(lines[1..], if lines[0].Data? && lines[0].usage.Some? then lines[0].usage else seen)
  }

  // ---- the response events ----

  datatype Status = InProgress | Complete

  datatype Item =
    | Message(id: string, status: Status, parts: seq<string>)
    | FunctionCall(id: string, status: Status, callId: string, name: string, arguments: string)

  datatype Event =
    | Created
    | ItemAdded(outputIndex: nat, item: Item)
    | PartAdded(itemId: string, outputIndex: nat)
    | TextDelta(itemId: string, outputIndex: nat, delta: string)
    | ArgumentsDelta(itemId: string, outputIndex: nat, delta: string)
    | TextDone(itemId: string, outputIndex: nat, text: string)
    | PartDone(itemId: string, outputIndex: nat, text: string)
    | ArgumentsDone(itemId: string, outputIndex: nat, arguments: string)
    | ItemDone(outputIndex: nat, item: Item)
    | Completed(output: seq<Item>, usage: Option<TokenCounts>)

  datatype Channel = Envelope | TextChannel | Call(index: int)

  datatype Emitted = Emitted(channel: Channel, event: Event)

  function OnChannel(channel: Channel, events: seq<Event>): seq<Emitted> {
    seq(|events|, i requires 0 <= i < |events| => Emitted(channel, events[i]))
  }

  // ---- tool calls ----

  datatype Pending = Pending(id: string, itemId: string, name: string, arguments: string, started: bool)

  function FirstNonEmpty(a: string, b: string): string {
    if !Blank(a) then a else if !Blank(b) then b else ""
  }

  function CallItem(call: Pending, status: Status): Item {
    FunctionCall(call.itemId, status, FirstNonEmpty(call.id, call.itemId), call.name, call.arguments)
  }

  // The pending call a delta finds or creates, with the delta's id and name.
  function Named(known: Option<Pending>, d: ToolDelta, fallback: string): Pending {
    var call := if known.Some? then known.value else Pending(d.id, FirstNonEmpty(d.id, fallback), d.name, "", false);
    var call1 := if d.id != "" then call.(id := d.id, itemId := d.id) else call;
    if d.name != "" then call1.(name := d.name) else call1
  }

  function Opens(call: Pending): bool {
    !call.started && call.name != ""
  }

  function AfterDelta(known: Option<Pending>, d: ToolDelta, fallback: string): Pending {
    var call := Named(known, d, fallback);
    call.(started := call.started || call.name != "", arguments := call.arguments + d.arguments)
  }

  function OpeningEvents(call: Pending): seq<Event> {
    if Opens(call) then [ItemAdded(0, CallItem(call, InProgress))] else []
  }

  function ArgumentEvents(call: Pending, arguments: string): seq<Event> {
    if arguments != "" then [ArgumentsDelta(call.itemId, 0, arguments)] else []
  }

  function DeltaEvents(known: Option<Pending>, d: ToolDelta, fallback: string): seq<Event> {
    var call := Named(known, d, fallback);
    OpeningEvents(call) + ArgumentEvents(call, d.arguments)
  }

  // ---- the read loop ----

  datatype Stream = Stream(text: string, textStarted: bool, calls: map<int, Pending>, events: seq<Emitted>)

  // Names the environment supplies: the message item, and the item of a call
  // whose delta carries no id.
  datatype Names = Names(message: string, fallback: int -> string)

  function Known(calls: map<int, Pending>, index: int): Option<Pending> {
    if index in calls then Some(calls[index]) else None
  }

  function TextEvents(started: bool, delta: string, names: Names): seq<Event> {
    (if started then []
     else [ItemAdded(0, Message(names.message, InProgress, [])), PartAdded(names.message, 0)]) +
    [TextDelta(names.message, 0, delta)]
  }

  function Step(s: Stream, op: Op, names: Names): Stream {
    match op
    case Content(delta) =>
      if delta == "" then s
      else s.(text := s.text + delta, textStarted := true,
              events := s.events + OnChannel(TextChannel, TextEvents(s.textStarted, delta, names)))
    case Tool(d) =>
      var known, fallback := Known(s.calls, d.index), names.fallback(d.index);
      s.(calls := s.calls[d.index := AfterDelta(known, d, fallback)],
         events := s.events + OnChannel(Call(d.index), DeltaEvents(known, d, fallback)))
  }

  function StepAll(s: Stream, ops: seq<Op>, names: Names): Stream {
    if ops == [] then s else Step(StepAll(s, ops[..|ops| - 1], names), ops[|ops| - 1], names)
  }

  const START := Stream("", false, map[], [Emitted(Envelope, Created)])

  function Read(ops: seq<Op>, names: Names): Stream {
    StepAll(START, ops, names)
  }

  lemma {:induction false} StepOne(s: Stream, ops: seq<Op>, op: Op, names: Names)
    ensures StepAll(s, ops + [op], names) == Step(StepAll(s, ops, names), op, names)
  {
    assert (ops + [op])[..|ops|] == ops;
  }

  lemma {:induction false} StepAllAppend(s: Stream, a: seq<Op>, b: seq<Op>, names: Names)
    ensures StepAll(s, a + b, names) == StepAll(StepAll(s, a, names), b, names)
  {
    if b == [] {
      assert a + b == a;
    } else {
      var n := |b| - 1;
      StepAllAppend(s, a, b[..n], names);
      DropLast(a, b);
    }
  }

  // ---- after the read loop ----

  function Present(calls: map<int, Pending>, n: nat): (present: seq<int>)
    ensures forall k :: 0 <= k < |present| ==> present[k] in calls && 0 <= present[k] < n
  {
    if n == 0 then []
    else if n - 1 in calls then Present(calls, n - 1) + [n - 1] else Present(calls, n - 1)
  }

  // orderedToolCalls visits the indices 0 .. len-1.
  function Order(calls: map<int, Pending>): (order: seq<int>)
    ensures forall k :: 0 <= k < |order| ==> order[k] in calls
  {
    Present(calls, |calls|)
  }

  function EndEvents(call: Pending, position: nat): seq<Event> {
    (if call.started then [] else [ItemAdded(position, CallItem(call, InProgress))]) +
    [ArgumentsDone(call.itemId, position, call.arguments), ItemDone(position, CallItem(call, Complete))]
  }

  function CallsEnd(calls: map<int, Pending>, order: seq<int>, base: nat): seq<Emitted>
    requires forall k :: 0 <= k < |order| ==> order[k] in calls
  {
    if order == [] then []
    else
      var n := |order| - 1;
      CallsEnd(calls, order[..n], base) + OnChannel(Call(order[n]), EndEvents(calls[order[n]], base + n))
  }

  function CallItems(calls: map<int, Pending>, order: seq<int>): seq<Item>
    requires forall k :: 0 <= k < |order| ==> order[k] in calls
  {
    seq(|order|, k requires 0 <= k < |order| => CallItem(calls[order[k]], Complete))
  }

  function TextEnd(s: Stream, names: Names): seq<Event> {
    if s.textStarted
    then [TextDone(names.message, 0, s.text), PartDone(names.message, 0, s.text),
          ItemDone(0, Message(names.message, Complete, [s.text]))]
    else []
  }

  function TextItems(s: Stream, names: Names): seq<Item> {
    if s.textStarted then [Message(names.message, Complete, [s.text])] else []
  }

  // Every known index below n, once, in increasing order.
  lemma {:induction false} PresentIsComplete(calls: map<int, Pending>, n: nat)
    ensures forall j, k :: 0 <= j < k < |Present(calls, n)| ==> Present(calls, n)[j] < Present(calls, n)[k]
    ensures forall i :: 0 <= i < n && i in calls ==> i in Present(calls, n)
  {
    if n > 0 {
      PresentIsComplete(calls, n - 1);
    }
  }

  // The output of response.completed.
  function Output(s: Stream, names: Names): seq<Item> {
    TextItems(s, names) + CallItems(s.calls, Order(s.calls))
  }

  // Everything that is emitted, the read loop having ended in `s`.
  function Finish(s: Stream, usage: Option<TokenCounts>, names: Names): seq<Emitted> {
    s.events + OnChannel(TextChannel, TextEnd(s, names)) +
    CallsEnd(s.calls, Order(s.calls), |TextItems(s, names)|) +
    [Emitted(Envelope, Completed(Output(s, names), usage))]
  }

  function Translate(lines: seq<Line>, names: Names): seq<Emitted> {
    Finish(Read(LineOps(lines), names), LastUsage(lines, None), names)
  }

  // ---- the program ----

  method OrderedToolCalls(calls: map<int, Pending>) returns (order: seq<int>)
    ensures order == Order(calls)
  {
    order := [];
    for i := 0 to |calls|
      invariant order == Present(calls, i)
    {
      if i in calls { order := order + [i]; }
    }
  }

  // The nested loops, as recursions from a given state.
  function ReadChoices(s: Stream, choices: seq<Choice>, names: Names): Stream
    decreases |choices|
  {
    if choices == [] then s
    else ReadChoices(StepAll(Step(s, Content(choices[0].content), names), ToolOps(choices[0].tools), names),
                     choices[1..], names)
  }

  function ReadLines(s: Stream, lines: seq<Line>, names: Names): Stream
    decreases |lines|
  {
    if lines == [] || lines[0].EndMark? then s
    else ReadLines(if lines[0].Data? then ReadChoices(s, lines[0].choices, names) else s, lines[1..], names)
  }

  lemma {:induction false} ReadChoicesFlattens(s: Stream, choices: seq<Choice>, names: Names)
    ensures ReadChoices(s, choices, names) == StepAll(s, ChoiceOps(choices), names)
    decreases |choices|
  {
    if choices != [] {
      var head, tools, rest := [Content(choices[0].content)], ToolOps(choices[0].tools), ChoiceOps(choices[1..]);
      StepOne(s, [], Content(choices[0].content), names);
      assert [] + head == head;
      StepAllAppend(s, head, tools, names);
      StepAllAppend(s, head + tools, rest, names);
      ReadChoicesFlattens(StepAll(Step(s, Content(choices[0].content), names), tools, names), choices[1..], names);
    }
  }

  lemma {:induction false} ReadLinesFlattens(s: Stream, lines: seq<Line>, names: Names)
    ensures ReadLines(s, lines, names) == StepAll(s, LineOps(lines), names)
    decreases |lines|
  {
    if lines != [] && !lines[0].EndMark? {
      if lines[0].Data? {
        var head, rest := ChoiceOps(lines[0].choices), LineOps(lines[1..]);
        ReadChoicesFlattens(s, lines[0].choices, names);
        ReadLinesFlattens(StepAll(s, head, names), lines[1..], names);
        StepAllAppend(s, head, rest, names);
      } else {
        ReadLinesFlattens(s, lines[1..], names);
        assert [] + LineOps(lines[1..]) == LineOps(lines[1..]);
      }
    }
  }

  method StreamChatAsResponses(lines: seq<Line>, names: Names) returns (events: seq<Emitted>)
    ensures events == Translate(lines, names)
  {
    var s := START;
    var usage: Option<TokenCounts> := None;
    var i := 0;
    while i < |lines| && !lines[i].EndMark?
      invariant 0 <= i <= |lines|
      invariant LastUsage(lines, None) == LastUsage(lines[i..], usage)
      invariant ReadLines(START, lines, names) == ReadLines(s, lines[i..], names)
    {
      var line := lines[i];
      assert lines[i..][0] == line && lines[i..][1..] == lines[i + 1..];
      if line.Data? {
        if line.usage.Some? { usage := line.usage; }
        s := ReadChunk(s, line.choices, names);
      }
      i := i + 1;
    }
    ReadLinesFlattens(START, lines, names);
    events := FinishStream(s, usage, names);
  }

  method ReadChunk(s0: Stream, choices: seq<Choice>, names: Names) returns (s: Stream)
    ensures s == ReadChoices(s0, choices, names)
  {
    s := s0;
    for c := 0 to |choices|
      invariant ReadChoices(s0, choices, names) == ReadChoices(s, choices[c..], names)
    {
      var choice := choices[c];
      assert choices[c..][0] == choice && choices[c..][1..] == choices[c + 1..];
      s := ReadContent(s, choice.content, names);
      s := ReadTools(s, choice.tools, names);
    }
  }

  method ReadContent(s0: Stream, content: string, names: Names) returns (s: Stream)
    ensures s == Step(s0, Content(content), names)
  {
    var text, textStarted, events := s0.text, s0.textStarted, s0.events;
    if content != "" {
      if !textStarted {
        events := events + [Emitted(TextChannel, ItemAdded(0, Message(names.message, InProgress, []))),
                            Emitted(TextChannel, PartAdded(names.message, 0))];
        textStarted := true;
      }
      text := text + content;
      events := events + [Emitted(TextChannel, TextDelta(names.message, 0, content))];
      assert events == s0.events + OnChannel(TextChannel, TextEvents(s0.textStarted, content, names));
    }
    s := Stream(text, textStarted, s0.calls, events);
  }

  method ReadTools(s0: Stream, tools: seq<ToolDelta>, names: Names) returns (s: Stream)
    ensures s == StepAll(s0, ToolOps(tools), names)
  {
    s := s0;
    for k := 0 to |tools|
      invariant s == StepAll(s0, ToolOps(tools[..k]), names)
    {
      assert ToolOps(tools[..k + 1]) == ToolOps(tools[..k]) + [Tool(tools[k])];
      StepOne(s0, ToolOps(tools[..k]), Tool(tools[k]), names);
      var calls, events := ApplyToolDelta(s.calls, s.events, tools[k], names);
      s := s.(calls := calls, events := events);
    }
    assert tools[..|tools|] == tools;
  }

  // The body of the loop over the tool deltas of a choice.
  method ApplyToolDelta(calls: map<int, Pending>, events: seq<Emitted>, tc: ToolDelta, names: Names)
    returns (calls1: map<int, Pending>, events1: seq<Emitted>)
    ensures calls1 == calls[tc.index := AfterDelta(Known(calls, tc.index), tc, names.fallback(tc.index))]
    ensures events1 == events +
      OnChannel(Call(tc.index), DeltaEvents(Known(calls, tc.index), tc, names.fallback(tc.index)))
  {
    events1 := events;
    var call := if tc.index in calls then calls[tc.index]
                else Pending(tc.id, FirstNonEmpty(tc.id, names.fallback(tc.index)), tc.name, "", false);
    if tc.id != "" { call := call.(id := tc.id, itemId := tc.id); }
    if tc.name != "" { call := call.(name := tc.name); }
    if !call.started && call.name != "" {
      events1 := events1 + [Emitted(Call(tc.index), ItemAdded(0, CallItem(call, InProgress)))];
      call := call.(started := true);
    }
    if tc.arguments != "" {
      call := call.(arguments := call.arguments + tc.arguments);
      events1 := events1 + [Emitted(Call(tc.index), ArgumentsDelta(call.itemId, 0, tc.arguments))];
    } else {
      assert call.arguments + tc.arguments == call.arguments;
    }
    calls1 := calls[tc.index := call];
  }

  method EndCall(events: seq<Emitted>, index: int, call: Pending, position: nat) returns (events1: seq<Emitted>)
    ensures events1 == events + OnChannel(Call(index), EndEvents(call, position))
  {
    events1 := events;
    if !call.started {
      events1 := events1 + [Emitted(Call(index), ItemAdded(position, CallItem(call, InProgress)))];
    }
    events1 := events1 + [Emitted(Call(index), ArgumentsDone(call.itemId, position, call.arguments))];
    events1 := events1 + [Emitted(Call(index), ItemDone(position, CallItem(call, Complete)))];
  }

  method EndText(s: Stream, names: Names) returns (events: seq<Emitted>)
    ensures events == s.events + OnChannel(TextChannel, TextEnd(s, names))
  {
    events := s.events;
    if s.textStarted {
      events := events + [Emitted(TextChannel, TextDone(names.message, 0, s.text)),
                          Emitted(TextChannel, PartDone(names.message, 0, s.text)),
                          Emitted(TextChannel, ItemDone(0, Message(names.message, Complete, [s.text])))];
    }
  }

  lemma {:induction false} EndsOneMore(events0: seq<Emitted>, calls: map<int, Pending>, order: seq<int>, k: nat,
        base: nat)
    requires k < |order| && forall j :: 0 <= j < |order| ==> order[j] in calls
    ensures events0 + CallsEnd(calls, order[..k + 1], base) ==
      events0 + CallsEnd(calls, order[..k], base) + OnChannel(Call(order[k]), EndEvents(calls[order[k]], base + k))
    ensures CallItems(calls, order[..k + 1]) == CallItems(calls, order[..k]) + [CallItem(calls[order[k]], Complete)]
  {
    assert order[..k + 1][..k] == order[..k];
    Regroup(events0, CallsEnd(calls, order[..k], base),
      OnChannel(Call(order[k]), EndEvents(calls[order[k]], base + k)));
  }

  // The loop over the ordered calls; items are numbered from `base`.
  method EndToolCalls(events0: seq<Emitted>, calls: map<int, Pending>, base: nat)
    returns (events: seq<Emitted>, items: seq<Item>)
    ensures events == events0 + CallsEnd(calls, Order(calls), base)
    ensures items == CallItems(calls, Order(calls))
  {
    events, items := events0, [];
    var outputIndex := base;
    var order := OrderedToolCalls(calls);
    for k := 0 to |order|
      invariant outputIndex == base + k
      invariant items == CallItems(calls, order[..k])
      invariant events == events0 + CallsEnd(calls, order[..k], base)
    {
      var call := calls[order[k]];
      EndsOneMore(events0, calls, order, k, base);
      events := EndCall(events, order[k], call, outputIndex);
      items := items + [CallItem(call, Complete)];
      outputIndex := outputIndex + 1;
    }
    assert order[..|order|] == order;
  }

  method FinishStream(s: Stream, usage: Option<TokenCounts>, names: Names) returns (events: seq<Emitted>)
    ensures events == Finish(s, usage, names)
  {
    events := EndText(s, names);
    var output: seq<Item> := [];
    if s.textStarted {
      output := output + [Message(names.message, Complete, [s.text])];
    }
    assert output == TextItems(s, names);
    var items;
    events, items := EndToolCalls(events, s.calls, |output|);
    events := events + [Emitted(Envelope, Completed(output + items, usage))];
  }
}
