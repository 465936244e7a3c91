/** The translation, said of the upstream lines themselves: what a client gets of
    what the chunks before the end mark say. */
module ProxyLines {
  import opened Options
  import opened Text
  import opened Sequences
  import opened Proxy
  import opened ProxyStreams
  import opened ProxyGrammar

  // ---- what the lines say ----

  function ContentOf(choices: seq<Choice>): string {
    if choices == [] then "" else choices[0].content + ContentOf(choices[1..])
  }

  function ToolsOf(choices: seq<Choice>): seq<ToolDelta> {
    if choices == [] then [] else choices[0].tools + ToolsOf(choices[1..])
  }

  // All choices of the chunks before the end mark, in order.
  function Choices(lines: seq<Line>): seq<Choice> {
    if lines == [] || lines[0].EndMark? then []
    else (if lines[0].Data? then lines[0].choices else []) + Choices(lines[1..])
  }

  function OfIndex(tools: seq<ToolDelta>, index: int): seq<ToolDelta> {
    if tools == [] then []
    else (if tools[0].index == index then [tools[0]] else []) + OfIndex(tools[1..], index)
  }

  // All tool deltas of one call, in order.
  function CallIn(lines: seq<Line>, index: int): seq<ToolDelta> {
    OfIndex(ToolsOf(Choices(lines)), index)
  }

  // ---- pieces, in the order in which they are sent ----

  datatype Piece = Text(text: string) | Arguments(arguments: string)

  function TextPiece(s: string): seq<Piece> {
    if s == "" then [] else [Piece.Text(s)]
  }

  function ArgumentsPiece(s: string): seq<Piece> {
    if s == "" then [] else [Piece.Arguments(s)]
  }

  function ToolPieces(tools: seq<ToolDelta>): seq<Piece> {
    if tools == [] then [] else ArgumentsPiece(tools[0].arguments) + ToolPieces(tools[1..])
  }

  function Pieces(choices: seq<Choice>): seq<Piece> {
    if choices == [] then []
    else TextPiece(choices[0].content) + ToolPieces(choices[0].tools) + Pieces(choices[1..])
  }

  function PieceOf(e: Event): seq<Piece> {
    match e
    case TextDelta(_, _, delta) => [Piece.Text(delta)]
    case ArgumentsDelta(_, _, delta) => [Piece.Arguments(delta)]
    case _ => []
  }

  function PiecesShown(events: seq<Event>): seq<Piece> {
    if events == [] then [] else PiecesShown(events[..|events| - 1]) + PieceOf(events[|events| - 1])
  }

  // ---- from lines to steps ----

  function OpPieces(ops: seq<Op>): seq<Piece> {
    if ops == [] then []
    else
      var op := ops[|ops| - 1];
      OpPieces(ops[..|ops| - 1]) + OnePiece(op)
  }

  function OnePiece(op: Op): seq<Piece> {
    match op
    case Content(text) => TextPiece(text)
    case Tool(d) => ArgumentsPiece(d.arguments)
  }

  lemma {:induction false} OpPiecesAppend(a: seq<Op>, b: seq<Op>)
    ensures OpPieces(a + b) == OpPieces(a) + OpPieces(b)
  {
    if b == [] {
      assert a + b == a;
    } else {
      var n := |b| - 1;
      OpPiecesAppend(a, b[..n]);
      DropLast(a, b);
      Regroup(OpPieces(a), OpPieces(b[..n]), OnePiece(b[n]));
    }
  }

  lemma {:induction false} DeltasAppend(a: seq<Op>, b: seq<Op>, index: int)
    ensures DeltasOf(a + b, index) == DeltasOf(a, index) + DeltasOf(b, index)
  {
    if b == [] {
      assert a + b == a;
    } else {
      var n := |b| - 1;
      DeltasAppend(a, b[..n], index);
      DropLast(a, b);
      if b[n].Tool? { Regroup(DeltasOf(a, index), DeltasOf(b[..n], index), [b[n].delta]); }
    }
  }

  lemma {:induction false} TextAppend(a: seq<Op>, b: seq<Op>)
    ensures Concat(TextParts(a + b)) == Concat(TextParts(a)) + Concat(TextParts(b))
  {
    if b == [] {
      assert a + b == a;
    } else {
      var n := |b| - 1;
      TextAppend(a, b[..n]);
      DropLast(a, b);
      if b[n].Content? && b[n].text != "" {
        ConcatGrows(TextParts(a + b[..n]), b[n].text);
        ConcatGrows(TextParts(b[..n]), b[n].text);
        Regroup(Concat(TextParts(a)), Concat(TextParts(b[..n])), b[n].text);
      }
    }
  }

  // The steps say no more and no less than the choices.
  ghost predicate SayTheSame(ops: seq<Op>, choices: seq<Choice>) {
    && Concat(TextParts(ops)) == ContentOf(choices)
    && (forall index :: DeltasOf(ops, index) == OfIndex(ToolsOf(choices), index))
    && OpPieces(ops) == Pieces(choices)
  }

  lemma {:induction false} OneOp(op: Op)
    ensures Concat(TextParts([op])) == if op.Content? then op.text else ""
    ensures forall index :: DeltasOf([op], index) == if op.Tool? && op.delta.index == index then [op.delta] else []
    ensures OpPieces([op]) == if op.Content? then TextPiece(op.text) else ArgumentsPiece(op.delta.arguments)
  {
    assert [op][..0] == [];
    if op.Content? && op.text != "" {
      assert [op.text][..0] == [];
    }
  }

  lemma {:induction false} ToolOpsSay(tools: seq<ToolDelta>, index: int)
    ensures Concat(TextParts(ToolOps(tools))) == ""
    ensures DeltasOf(ToolOps(tools), index) == OfIndex(tools, index)
    ensures OpPieces(ToolOps(tools)) == ToolPieces(tools)
    decreases |tools|
  {
    if tools != [] {
      var op, rest := Tool(tools[0]), ToolOps(tools[1..]);
      ToolOpsSay(tools[1..], index);
      assert ToolOps(tools) == [op] + rest;
      OneOp(op);
      TextAppend([op], rest);
      DeltasAppend([op], rest, index);
      OpPiecesAppend([op], rest);
    }
  }

  lemma {:induction false} OfIndexAppend(a: seq<ToolDelta>, b: seq<ToolDelta>, index: int)
    ensures OfIndex(a + b, index) == OfIndex(a, index) + OfIndex(b, index)
    decreases |a|
  {
    if a == [] {
      assert a + b == b;
    } else {
      DropFirst(a, b);
      OfIndexAppend(a[1..], b, index);
      Regroup(if a[0].index == index then [a[0]] else [], OfIndex(a[1..], index), OfIndex(b, index));
    }
  }

  lemma {:induction false} OneChoiceSays(choice: Choice, index: int)
    ensures var ops := [Content(choice.content)] + ToolOps(choice.tools);
      && Concat(TextParts(ops)) == choice.content
      && DeltasOf(ops, index) == OfIndex(choice.tools, index)
      && OpPieces(ops) == TextPiece(choice.content) + ToolPieces(choice.tools)
  {
    var head, tools := [Content(choice.content)], ToolOps(choice.tools);
    OneOp(Content(choice.content));
    ToolOpsSay(choice.tools, index);
    TextAppend(head, tools);
    DeltasAppend(head, tools, index);
    OpPiecesAppend(head, tools);
  }

  lemma {:induction false} ChoicesSay(choices: seq<Choice>, index: int)
    ensures Concat(TextParts(ChoiceOps(choices))) == ContentOf(choices)
    ensures DeltasOf(ChoiceOps(choices), index) == OfIndex(ToolsOf(choices), index)
    ensures OpPieces(ChoiceOps(choices)) == Pieces(choices)
    decreases |choices|
  {
    if choices != [] {
      var first := [Content(choices[0].content)] + ToolOps(choices[0].tools);
      ChoicesSay(choices[1..], index);
      OneChoiceSays(choices[0], index);
      TextAppend(first, ChoiceOps(choices[1..]));
      DeltasAppend(first, ChoiceOps(choices[1..]), index);
      OpPiecesAppend(first, ChoiceOps(choices[1..]));
      OfIndexAppend(choices[0].tools, ToolsOf(choices[1..]), index);
    }
  }

  lemma {:induction false} ChoicesFlatten(lines: seq<Line>)
    ensures LineOps(lines) == ChoiceOps(Choices(lines))
    decreases |lines|
  {
    if lines != [] && !lines[0].EndMark? {
      ChoicesFlatten(lines[1..]);
      var first := if lines[0].Data? then lines[0].choices else [];
      ChoiceOpsAppend(first, Choices(lines[1..]));
    }
  }

  lemma {:induction false} ChoiceOpsAppend(a: seq<Choice>, b: seq<Choice>)
    ensures ChoiceOps(a + b) == ChoiceOps(a) + ChoiceOps(b)
    decreases |a|
  {
    if a == [] {
      assert a + b == b;
    } else {
      DropFirst(a, b);
      ChoiceOpsAppend(a[1..], b);
      Regroup([Content(a[0].content)] + ToolOps(a[0].tools), ChoiceOps(a[1..]), ChoiceOps(b));
    }
  }

  lemma {:induction false} LinesSay(lines: seq<Line>)
    ensures SayTheSame(LineOps(lines), Choices(lines))
  {
    ChoicesFlatten(lines);
    ChoicesSay(Choices(lines), 0);
    forall index
      ensures DeltasOf(LineOps(lines), index) == OfIndex(ToolsOf(Choices(lines)), index)
    {
      ChoicesSay(Choices(lines), index);
    }
  }

  // ---- the text ----

  // The text deltas of the whole stream add up to the contents of all choices of
  // the chunks before the end mark.
  lemma {:induction false} AllContentIsShown(lines: seq<Line>, names: Names)
    ensures Shown(Plain(Translate(lines, names))) == ContentOf(Choices(lines))
  {
    var s := Read(LineOps(lines), names);
    FinishShows(s, LastUsage(lines, None), names);
    ReadShows(LineOps(lines), names);
    TextIsStreamed(LineOps(lines), names);
    LinesSay(lines);
  }

  // ---- the order of the deltas ----

  lemma {:induction false} PiecesShownAppend(a: seq<Event>, b: seq<Event>)
    ensures PiecesShown(a + b) == PiecesShown(a) + PiecesShown(b)
  {
    if b == [] {
      assert a + b == a;
    } else {
      var n := |b| - 1;
      PiecesShownAppend(a, b[..n]);
      DropLast(a, b);
      Regroup(PiecesShown(a), PiecesShown(b[..n]), PieceOf(b[n]));
    }
  }

  lemma {:induction false} OnePieceShown(e: Event)
    ensures PiecesShown([e]) == PieceOf(e)
  {
    assert [e][..0] == [];
  }

  lemma {:induction false} SilentShowsNoPiece(events: seq<Event>)
    requires forall k :: 0 <= k < |events| ==> PieceOf(events[k]) == []
    ensures PiecesShown(events) == []
  {
    if events != [] {
      SilentShowsNoPiece(events[..|events| - 1]);
    }
  }

  lemma {:induction false} TextEventsPiece(started: bool, delta: string, names: Names)
    ensures PiecesShown(TextEvents(started, delta, names)) == [Piece.Text(delta)]
  {
    var events := TextEvents(started, delta, names);
    var n := |events| - 1;
    SilentShowsNoPiece(events[..n]);
  }

  lemma {:induction false} DeltaEventsPieces(known: Option<Pending>, d: ToolDelta, fallback: string)
    ensures PiecesShown(DeltaEvents(known, d, fallback)) == ArgumentsPiece(d.arguments)
  {
    var call := Named(known, d, fallback);
    PiecesShownAppend(OpeningEvents(call), ArgumentEvents(call, d.arguments));
    OpeningEventsPiece(call);
    ArgumentEventsPiece(call, d.arguments);
    assert [] + ArgumentsPiece(d.arguments) == ArgumentsPiece(d.arguments);
  }

  lemma {:induction false} OpeningEventsPiece(call: Pending)
    ensures PiecesShown(OpeningEvents(call)) == []
  {
    SilentShowsNoPiece(OpeningEvents(call));
  }

  lemma {:induction false} ArgumentEventsPiece(call: Pending, arguments: string)
    ensures PiecesShown(ArgumentEvents(call, arguments)) == ArgumentsPiece(arguments)
  {
    if arguments != "" {
      OnePieceShown(ArgumentsDelta(call.itemId, 0, arguments));
    }
  }

  lemma {:induction false} ChannelPieces(events: seq<Emitted>, channel: Channel, more: seq<Event>)
    ensures PiecesShown(Plain(events + OnChannel(channel, more))) == PiecesShown(Plain(events)) + PiecesShown(more)
  {
    PlainAppend(events, OnChannel(channel, more));
    PlainOfChannel(channel, more);
    PiecesShownAppend(Plain(events), more);
  }

  lemma {:induction false} ContentPieces(s: Stream, delta: string, names: Names)
    requires delta != ""
    ensures PiecesShown(Plain(Step(s, Content(delta), names).events)) ==
      PiecesShown(Plain(s.events)) + [Piece.Text(delta)]
  {
    ChannelPieces(s.events, TextChannel, TextEvents(s.textStarted, delta, names));
    TextEventsPiece(s.textStarted, delta, names);
  }

  lemma {:induction false} CallPieces(s: Stream, d: ToolDelta, names: Names)
    ensures PiecesShown(Plain(Step(s, Tool(d), names).events)) ==
      PiecesShown(Plain(s.events)) + ArgumentsPiece(d.arguments)
  {
    var known, fallback := Known(s.calls, d.index), names.fallback(d.index);
    ChannelPieces(s.events, Call(d.index), DeltaEvents(known, d, fallback));
    DeltaEventsPieces(known, d, fallback);
  }

  lemma {:induction false} StepPieces(s: Stream, op: Op, names: Names)
    ensures PiecesShown(Plain(Step(s, op, names).events)) == PiecesShown(Plain(s.events)) + OnePiece(op)
  {
    if op.Tool? {
      CallPieces(s, op.delta, names);
    } else if op.text != "" {
      ContentPieces(s, op.text, names);
    } else {
      assert PiecesShown(Plain(s.events)) + [] == PiecesShown(Plain(s.events));
    }
  }

  lemma {:induction false} ReadPieces(ops: seq<Op>, names: Names)
    ensures PiecesShown(Plain(Read(ops, names).events)) == OpPieces(ops)
  {
    if ops == [] {
      assert Plain(START.events) == [Created];
      OnePieceShown(Created);
    } else {
      var n := |ops| - 1;
      ReadPieces(ops[..n], names);
      StepPieces(Read(ops[..n], names), ops[n], names);
    }
  }

  // The deltas of the whole stream, text and arguments together, are those of the
  // choices, one for one and in the same order.
  lemma {:induction false} DeltasComeInOrder(lines: seq<Line>, names: Names)
    ensures PiecesShown(Plain(Translate(lines, names))) == Pieces(Choices(lines))
  {
    FinishPieces(Read(LineOps(lines), names), LastUsage(lines, None), names);
    ReadPieces(LineOps(lines), names);
    LinesSay(lines);
  }

  lemma {:induction false} FinishPieces(s: Stream, usage: Option<TokenCounts>, names: Names)
    ensures PiecesShown(Plain(Finish(s, usage, names))) == PiecesShown(Plain(s.events))
  {
    var tail := FinishIsSilent(s, usage, names);
    PiecesShownAppend(Plain(s.events), Plain(tail));
    SilentShowsNoPiece(Plain(tail));
  }

  // ---- the completed output ----

  function Indices(tools: seq<ToolDelta>): set<int> {
    set k | 0 <= k < |tools| :: tools[k].index
  }

  lemma {:induction false} OfIndexIsEmpty(tools: seq<ToolDelta>, index: int)
    ensures OfIndex(tools, index) == [] <==> index !in Indices(tools)
    decreases |tools|
  {
    if tools != [] {
      OfIndexIsEmpty(tools[1..], index);
      assert forall k :: 1 <= k < |tools| ==> tools[k] == tools[1..][k - 1];
      assert index in Indices(tools[1..]) ==> index in Indices(tools) by {
        if index in Indices(tools[1..]) {
          var k :| 0 <= k < |tools[1..]| && tools[1..][k].index == index;
          assert tools[k + 1].index == index;
        }
      }
    }
  }

  lemma {:induction false} KnownAreIndices(lines: seq<Line>, names: Names)
    ensures Read(LineOps(lines), names).calls.Keys == Indices(ToolsOf(Choices(lines)))
  {
    var ops, tools := LineOps(lines), ToolsOf(Choices(lines));
    LinesSay(lines);
    forall index
      ensures index in Read(ops, names).calls <==> index in Indices(tools)
    {
      CallsAreIndependent(ops, index, names);
      OfIndexIsEmpty(tools, index);
      assert DeltasOf(ops, index) == OfIndex(tools, index);
    }
  }

  // The item a call becomes: last id or the made-up one, last name, all arguments.
  function FinalItem(deltas: seq<ToolDelta>, fallback: string): Item {
    var id := LastId(deltas);
    var itemId := if id != "" then id else if Blank(fallback) then "" else fallback;
    FunctionCall(itemId, Complete, if !Blank(id) then id else if !Blank(itemId) then itemId else "",
                 LastName(deltas), ProxyStreams.Arguments(deltas))
  }

  lemma {:induction false} CallBecomes(ops: seq<Op>, names: Names, index: int)
    requires index in Read(ops, names).calls
    ensures DeltasOf(ops, index) != []
    ensures CallItem(Read(ops, names).calls[index], Complete) ==
      FinalItem(DeltasOf(ops, index), names.fallback(index))
  {
    CallsAreIndependent(ops, index, names);
    assert Known(Read(ops, names).calls, index) == Some(Read(ops, names).calls[index]);
    PendingBecomes(DeltasOf(ops, index), names.fallback(index), Read(ops, names).calls[index]);
  }

  lemma {:induction false} PendingBecomes(deltas: seq<ToolDelta>, fallback: string, call: Pending)
    requires ReadCall(deltas, fallback).call == Some(call)
    ensures deltas != [] && CallItem(call, Complete) == FinalItem(deltas, fallback)
  {
    if deltas != [] {
      FinalCall(deltas, fallback);
    }
  }

  // The calls are listed by index, without those that have no place below their
  // number.
  ghost predicate Lists(order: seq<int>, indices: set<int>) {
    && (forall j, k :: 0 <= j < k < |order| ==> order[j] < order[k])
    && (forall i :: i in order <==> 0 <= i < |indices| && i in indices)
  }

  lemma {:induction false} OrderLists(calls: map<int, Pending>)
    ensures Lists(Order(calls), calls.Keys)
  {
    PresentIsComplete(calls, |calls|);
    assert |calls| == |calls.Keys|;
  }

  lemma {:induction false} TextItemOf(ops: seq<Op>, names: Names)
    ensures var s := Read(ops, names);
      TextItems(s, names) == (if s.text == "" then [] else [Message(names.message, Complete, [s.text])])
  {
    TextIsWhole(ops, names);
  }

  // The calls of `order`, each with all that the chunks say of it.
  function CallsOf(lines: seq<Line>, names: Names, order: seq<int>): seq<Item> {
    seq(|order|, k requires 0 <= k < |order| => FinalItem(CallIn(lines, order[k]), names.fallback(order[k])))
  }

  function TextsOf(lines: seq<Line>, names: Names): seq<Item> {
    var text := ContentOf(Choices(lines));
    if text == "" then [] else [Message(names.message, Complete, [text])]
  }

  // The completed output: the whole text, if any, and then every call that has a
  // place.
  ghost predicate IsOutputOf(lines: seq<Line>, names: Names, order: seq<int>, output: seq<Item>) {
    Lists(order, Indices(ToolsOf(Choices(lines)))) && output == TextsOf(lines, names) + CallsOf(lines, names, order)
  }

  lemma {:induction false} CallsOfLines(lines: seq<Line>, names: Names, order: seq<int>, calls: map<int, Pending>)
    requires calls == Read(LineOps(lines), names).calls && forall k :: 0 <= k < |order| ==> order[k] in calls
    ensures CallItems(calls, order) == CallsOf(lines, names, order)
  {
    forall k | 0 <= k < |order|
      ensures CallItem(calls[order[k]], Complete) == FinalItem(CallIn(lines, order[k]), names.fallback(order[k]))
    {
      CallOfLines(lines, names, order[k]);
    }
  }

  lemma {:induction false} OutputOfLines(lines: seq<Line>, names: Names)
    ensures IsOutputOf(lines, names, Order(Read(LineOps(lines), names).calls),
              Output(Read(LineOps(lines), names), names))
  {
    var s := Read(LineOps(lines), names);
    TextOfLines(lines, names);
    KnownAreIndices(lines, names);
    OrderLists(s.calls);
    CallsOfLines(lines, names, Order(s.calls), s.calls);
  }

  lemma {:induction false} TextOfLines(lines: seq<Line>, names: Names)
    ensures TextItems(Read(LineOps(lines), names), names) == TextsOf(lines, names)
  {
    LinesSay(lines);
    TextIsStreamed(LineOps(lines), names);
    TextItemOf(LineOps(lines), names);
  }

  lemma {:induction false} CallOfLines(lines: seq<Line>, names: Names, index: int)
    requires index in Read(LineOps(lines), names).calls
    ensures CallItem(Read(LineOps(lines), names).calls[index], Complete) ==
      FinalItem(CallIn(lines, index), names.fallback(index))
  {
    LinesSay(lines);
    CallBecomes(LineOps(lines), names, index);
  }

  // ---- the usage ----

  // Line `j` is read and states a usage.
  ghost predicate StatesUsage(lines: seq<Line>, j: nat) {
    j < |lines| && lines[j].Data? && lines[j].usage.Some? && forall i :: 0 <= i <= j ==> !lines[i].EndMark?
  }

  // The usage of the last chunk that states one.
  ghost predicate IsUsageOf(lines: seq<Line>, usage: Option<TokenCounts>) {
    match usage
    case None => forall j: nat :: !StatesUsage(lines, j)
    case Some(_) => exists j: nat :: IsLastUsage(lines, j) && lines[j].usage == usage
  }

  ghost predicate IsLastUsage(lines: seq<Line>, j: nat) {
    StatesUsage(lines, j) && forall k: nat :: j < k ==> !StatesUsage(lines, k)
  }

  lemma {:induction false} StatesLater(lines: seq<Line>, j: nat)
    requires lines != [] && !lines[0].EndMark?
    ensures StatesUsage(lines, j + 1) <==> StatesUsage(lines[1..], j)
  {
    if StatesUsage(lines[1..], j) {
      forall i | 0 <= i <= j + 1
        ensures !lines[i].EndMark?
      {
        assert i > 0 ==> lines[i] == lines[1..][i - 1];
      }
    }
    if StatesUsage(lines, j + 1) {
      assert forall i :: 0 <= i <= j ==> lines[1..][i] == lines[i + 1];
    }
  }

  lemma {:induction false} LastUsageExactly(lines: seq<Line>, seen: Option<TokenCounts>)
    ensures (forall j: nat :: !StatesUsage(lines, j)) ==> LastUsage(lines, seen) == seen
    ensures (exists j: nat :: StatesUsage(lines, j)) ==>
      LastUsage(lines, seen).Some? && IsUsageOf(lines, LastUsage(lines, seen))
    decreases |lines|
  {
    if lines != [] && !lines[0].EndMark? {
      var rest := lines[1..];
      var next := if lines[0].Data? && lines[0].usage.Some? then lines[0].usage else seen;
      LastUsageExactly(rest, next);
      forall j: nat
        ensures StatesUsage(lines, j + 1) <==> StatesUsage(rest, j)
      {
        StatesLater(lines, j);
      }
      if exists j: nat :: StatesUsage(rest, j) {
        var j: nat :| IsLastUsage(rest, j) && rest[j].usage == LastUsage(rest, next);
        assert StatesUsage(lines, j + 1) && lines[j + 1].usage == LastUsage(lines, seen);
        forall k: nat | j + 1 < k
          ensures !StatesUsage(lines, k)
        {
          StatesLater(lines, k - 1);
        }
      } else {
        forall k: nat | 0 < k
          ensures !StatesUsage(lines, k)
        {
          StatesLater(lines, k - 1);
        }
        assert StatesUsage(lines, 0) <==> lines[0].Data? && lines[0].usage.Some?;
      }
    }
  }

  // The one completed event carries that output and that usage.
  lemma {:induction false} CompletedExactly(lines: seq<Line>, names: Names)
    returns (order: seq<int>, output: seq<Item>, usage: Option<TokenCounts>)
    ensures Translate(lines, names) != []
    ensures var events := Translate(lines, names);
      events[|events| - 1].event == Completed(output, usage)
    ensures IsOutputOf(lines, names, order, output) && IsUsageOf(lines, usage)
  {
    var s := Read(LineOps(lines), names);
    order, output, usage := Order(s.calls), Output(s, names), LastUsage(lines, None);
    OutputOfLines(lines, names);
    LastUsageExactly(lines, None);
    FinishIsFramed(s, usage, names);
  }

  lemma {:induction false} FinishIsFramed(s: Stream, usage: Option<TokenCounts>, names: Names)
    ensures var events := Finish(s, usage, names);
      events != [] && events[|events| - 1].event == Completed(Output(s, names), usage)
  {
  }
}
