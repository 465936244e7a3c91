/** What a client of the whole event stream can rely on. */
module ProxyGrammar {
  import opened Options
  import opened Text
  import opened Proxy
  import opened ProxyStreams
  import opened Sequences

  // ---- the first and the last event ----

  ghost predicate InnerTail(events: seq<Emitted>, from: nat) {
    forall k :: from <= k < |events| ==> !events[k].event.Created? && !events[k].event.Completed?
  }

  ghost predicate Framed(events: seq<Emitted>) {
    |events| > 0 && events[0].event.Created? && InnerTail(events, 1)
  }

  lemma {:induction false} StepIsFramed(s: Stream, op: Op, names: Names)
    requires Framed(s.events)
    ensures Framed(Step(s, op, names).events)
  {
  }

  lemma {:induction false} ReadIsFramed(ops: seq<Op>, names: Names)
    ensures Framed(Read(ops, names).events)
  {
    if ops != [] {
      ReadIsFramed(ops[..|ops| - 1], names);
      StepIsFramed(Read(ops[..|ops| - 1], names), ops[|ops| - 1], names);
    }
  }

  lemma {:induction false} EndIsInner(calls: map<int, Pending>, order: seq<int>, base: nat)
    requires forall k :: 0 <= k < |order| ==> order[k] in calls
    ensures InnerTail(CallsEnd(calls, order, base), 0)
  {
    if order != [] {
      var n := |order| - 1;
      EndIsInner(calls, order[..n], base);
      InnerAppend(CallsEnd(calls, order[..n], base), OnChannel(Call(order[n]), EndEvents(calls[order[n]], base + n)));
    }
  }

  lemma {:induction false} InnerAppend(a: seq<Emitted>, b: seq<Emitted>)
    requires InnerTail(a, 0) && InnerTail(b, 0)
    ensures InnerTail(a + b, 0)
  {
  }

  // response.created is the first event and response.completed the last, once each.
  lemma {:induction false} FirstAndLast(lines: seq<Line>, names: Names)
    ensures var events := Translate(lines, names);
      && |events| >= 2
      && (forall k :: 0 <= k < |events| ==> (events[k].event.Created? <==> k == 0))
      && (forall k :: 0 <= k < |events| ==> (events[k].event.Completed? <==> k == |events| - 1))
  {
    var s := Read(LineOps(lines), names);
    ReadIsFramed(LineOps(lines), names);
    var end := CallsEnd(s.calls, Order(s.calls), |TextItems(s, names)|);
    EndIsInner(s.calls, Order(s.calls), |TextItems(s, names)|);
    var head := s.events + OnChannel(TextChannel, TextEnd(s, names));
    assert InnerTail(head, 1);
    assert InnerTail(head + end, 1);
  }

  // ---- the text item ----

  lemma {:induction false} EndHasNoText(calls: map<int, Pending>, order: seq<int>, base: nat)
    requires forall k :: 0 <= k < |order| ==> order[k] in calls
    ensures EventsOf(CallsEnd(calls, order, base), TextChannel) == []
  {
    if order != [] {
      var n := |order| - 1;
      EndHasNoText(calls, order[..n], base);
      var more := EndEvents(calls[order[n]], base + n);
      EventsOfAppend(CallsEnd(calls, order[..n], base), OnChannel(Call(order[n]), more), TextChannel);
      EventsOfChannel(Call(order[n]), more, TextChannel);
    }
  }

  lemma {:induction false} FourParts(a: seq<Emitted>, b: seq<Emitted>, c: seq<Emitted>, d: seq<Emitted>,
        channel: Channel)
    ensures EventsOf(a + b + c + d, channel) ==
      EventsOf(a, channel) + EventsOf(b, channel) + EventsOf(c, channel) + EventsOf(d, channel)
  {
    EventsOfAppend(a, b, channel);
    EventsOfAppend(a + b, c, channel);
    EventsOfAppend(a + b + c, d, channel);
  }

  // What the text channel and the call channels get after the read loop.
  lemma {:induction false} FinishChannel(s: Stream, usage: Option<TokenCounts>, names: Names, channel: Channel,
        end: seq<Event>)
    requires channel != Envelope
    requires end == (if channel == TextChannel then TextEnd(s, names) else []) +
      EventsOf(CallsEnd(s.calls, Order(s.calls), |TextItems(s, names)|), channel)
    ensures EventsOf(Finish(s, usage, names), channel) == EventsOf(s.events, channel) + end
  {
    var last := [Completed(Output(s, names), usage)];
    var text, calls := OnChannel(TextChannel, TextEnd(s, names)),
      CallsEnd(s.calls, Order(s.calls), |TextItems(s, names)|);
    EventsOfChannel(TextChannel, TextEnd(s, names), channel);
    EventsOfChannel(Envelope, last, channel);
    assert OnChannel(Envelope, last) == [Emitted(Envelope, last[0])];
    FourParts(s.events, text, calls, OnChannel(Envelope, last), channel);
    Regroup(EventsOf(s.events, channel), EventsOf(text, channel), EventsOf(calls, channel));
  }

  // The three done events, if there was text.
  function DoneWith(text: string, names: Names): seq<Event> {
    if text == "" then []
    else [TextDone(names.message, 0, text), PartDone(names.message, 0, text),
          ItemDone(0, Message(names.message, Complete, [text]))]
  }

  lemma {:induction false} TextEndsWhole(ops: seq<Op>, names: Names)
    ensures var s, text := Read(ops, names), Concat(TextParts(ops));
      && s.text == text && TextEnd(s, names) == DoneWith(text, names)
      && TextItems(s, names) == (if text == "" then [] else [Message(names.message, Complete, [text])])
  {
    TextIsStreamed(ops, names);
    TextPartsNonEmpty(ops);
  }

  // The text channel as a whole: opened once before the first delta, then the
  // deltas, then the three done events with the text of the completed output.
  lemma {:induction false} TextGrammar(lines: seq<Line>, names: Names)
    ensures var parts := TextParts(LineOps(lines));
      && EventsOf(Translate(lines, names), TextChannel) == TextStream(parts, names) + DoneWith(Concat(parts), names)
      && (if parts == [] then [] else [Message(names.message, Complete, [Concat(parts)])]) <=
           Output(Read(LineOps(lines), names), names)
  {
    var s := Read(LineOps(lines), names);
    TextIsStreamed(LineOps(lines), names);
    TextEndsWhole(LineOps(lines), names);
    EndHasNoText(s.calls, Order(s.calls), |TextItems(s, names)|);
    FinishChannel(s, LastUsage(lines, None), names, TextChannel, TextEnd(s, names));
  }

  // ---- a tool call ----

  ghost predicate Increasing(order: seq<int>) {
    forall j, k :: 0 <= j < k < |order| ==> order[j] < order[k]
  }

  lemma {:induction false} EndGrows(calls: map<int, Pending>, order: seq<int>, base: nat, index: int)
    requires order != [] && forall k :: 0 <= k < |order| ==> order[k] in calls
    ensures var n := |order| - 1;
      EventsOf(CallsEnd(calls, order, base), Call(index)) == EventsOf(CallsEnd(calls, order[..n], base), Call(index)) +
        if order[n] == index then EndEvents(calls[index], base + n) else []
  {
    var n := |order| - 1;
    var more := EndEvents(calls[order[n]], base + n);
    EventsOfAppend(CallsEnd(calls, order[..n], base), OnChannel(Call(order[n]), more), Call(index));
    EventsOfChannel(Call(order[n]), more, Call(index));
  }

  lemma {:induction false} NoEndOfCall(calls: map<int, Pending>, order: seq<int>, base: nat, index: int)
    requires index !in order && forall k :: 0 <= k < |order| ==> order[k] in calls
    ensures EventsOf(CallsEnd(calls, order, base), Call(index)) == []
  {
    if order != [] {
      NoEndOfCall(calls, order[..|order| - 1], base, index);
      EndGrows(calls, order, base, index);
    }
  }

  lemma {:induction false} EndOfLast(calls: map<int, Pending>, order: seq<int>, base: nat)
    requires order != [] && Increasing(order) && forall k :: 0 <= k < |order| ==> order[k] in calls
    ensures var n := |order| - 1;
      EventsOf(CallsEnd(calls, order, base), Call(order[n])) == EndEvents(calls[order[n]], base + n)
  {
    var n := |order| - 1;
    EndGrows(calls, order, base, order[n]);
    NoEndOfCall(calls, order[..n], base, order[n]);
  }

  lemma {:induction false} EndOfCall(calls: map<int, Pending>, order: seq<int>, base: nat, k: nat)
    requires Increasing(order) && (forall k :: 0 <= k < |order| ==> order[k] in calls) && k < |order|
    ensures EventsOf(CallsEnd(calls, order, base), Call(order[k])) == EndEvents(calls[order[k]], base + k)
    decreases |order|
  {
    var n := |order| - 1;
    if k < n {
      EndGrows(calls, order, base, order[k]);
      EndOfCall(calls, order[..n], base, k);
    } else {
      EndOfLast(calls, order, base);
    }
  }

  lemma {:induction false} OutputAt(s: Stream, names: Names, k: nat)
    requires k < |Order(s.calls)|
    ensures |TextItems(s, names)| + k < |Output(s, names)|
    ensures Output(s, names)[|TextItems(s, names)| + k] == CallItem(s.calls[Order(s.calls)[k]], Complete)
  {
    var texts, calls := TextItems(s, names), CallItems(s.calls, Order(s.calls));
    assert (texts + calls)[|texts| + k] == calls[k];
  }

  lemma {:induction false} EndOfOrdered(calls: map<int, Pending>, base: nat, k: nat)
    requires k < |Order(calls)|
    ensures EventsOf(CallsEnd(calls, Order(calls), base), Call(Order(calls)[k])) ==
      EndEvents(calls[Order(calls)[k]], base + k)
  {
    PresentIsComplete(calls, |calls|);
    EndOfCall(calls, Order(calls), base, k);
  }

  // The call channels get nothing from the text and the envelope.
  lemma {:induction false} FinishCallChannel(s: Stream, usage: Option<TokenCounts>, names: Names, index: int)
    ensures EventsOf(Finish(s, usage, names), Call(index)) ==
      EventsOf(s.events, Call(index)) +
      EventsOf(CallsEnd(s.calls, Order(s.calls), |TextItems(s, names)|), Call(index))
  {
    var end := EventsOf(CallsEnd(s.calls, Order(s.calls), |TextItems(s, names)|), Call(index));
    assert [] + end == end;
    FinishChannel(s, usage, names, Call(index), end);
  }

  // The channel of a call: what it streamed, then its end.
  lemma {:induction false} CallChannel(s: Stream, usage: Option<TokenCounts>, names: Names, k: nat, index: int)
    requires k < |Order(s.calls)| && index == Order(s.calls)[k]
    ensures EventsOf(Finish(s, usage, names), Call(index)) ==
      EventsOf(s.events, Call(index)) + EndEvents(s.calls[index], |TextItems(s, names)| + k)
  {
    FinishCallChannel(s, usage, names, index);
    EndOfOrdered(s.calls, |TextItems(s, names)|, k);
  }

  // Exactly one event opens the item; all others carry arguments.
  ghost predicate OpensOnce(events: seq<Event>, at: nat) {
    && at < |events| && events[at].ItemAdded?
    && forall j :: 0 <= j < |events| && j != at ==> events[j].ArgumentsDelta?
  }

  ghost predicate OnlyArguments(events: seq<Event>) {
    forall j :: 0 <= j < |events| ==> events[j].ArgumentsDelta?
  }

  // Some delta up to every delta with arguments has given the name.
  ghost predicate NamedInTime(deltas: seq<ToolDelta>) {
    deltas == [] ||
    (NamedInTime(deltas[..|deltas| - 1]) && (deltas[|deltas| - 1].arguments != "" ==> LastName(deltas) != ""))
  }

  // The item as it is when the last of `deltas` opens it: with the ids and the name
  // so far, and the arguments before.
  function OpenedItem(deltas: seq<ToolDelta>, fallback: string): Item
    requires deltas != []
  {
    var id, itemId := LastId(deltas), ItemId(deltas, fallback);
    FunctionCall(itemId, InProgress, if !Blank(id) then id else if !Blank(itemId) then itemId else "",
                 LastName(deltas), Arguments(deltas[..|deltas| - 1]))
  }

  function OpeningOf(deltas: seq<ToolDelta>, fallback: string): seq<Event>
    requires deltas != []
  {
    var n := |deltas| - 1;
    if LastName(deltas[..n]) == "" && deltas[n].name != "" then [ItemAdded(0, OpenedItem(deltas, fallback))] else []
  }

  function ArgumentsOf(deltas: seq<ToolDelta>, fallback: string): seq<Event>
    requires deltas != []
  {
    var last := deltas[|deltas| - 1];
    if last.arguments != "" then [ArgumentsDelta(ItemId(deltas, fallback), 0, last.arguments)] else []
  }

  // What one delta adds to the events of its call: the opening, if it gives the
  // first name, and its arguments, if any, under the id so far.
  lemma {:induction false} DeltaAddsExactly(deltas: seq<ToolDelta>, fallback: string)
    requires deltas != []
    ensures var n := |deltas| - 1;
      ReadCall(deltas, fallback).events ==
        ReadCall(deltas[..n], fallback).events +
        (OpeningOf(deltas, fallback) + ArgumentsOf(deltas, fallback))
  {
    var n := |deltas| - 1;
    FinalCall(deltas, fallback);
    if n > 0 {
      FinalCall(deltas[..n], fallback);
    } else {
      assert deltas[..n] == [];
    }
    AddsExactly(ReadCall(deltas[..n], fallback).call, deltas, fallback);
  }

  lemma {:induction false} AddsExactly(known: Option<Pending>, deltas: seq<ToolDelta>, fallback: string)
    requires deltas != []
    requires var n := |deltas| - 1;
      known == if n == 0 then None
               else Some(Pending(LastId(deltas[..n]), ItemId(deltas[..n], fallback), LastName(deltas[..n]),
                                 Arguments(deltas[..n]), LastName(deltas[..n]) != ""))
    ensures var n := |deltas| - 1;
      DeltaEvents(known, deltas[n], fallback) ==
        OpeningOf(deltas, fallback) + ArgumentsOf(deltas, fallback)
  {
    var n := |deltas| - 1;
    var d, call := deltas[n], Named(known, deltas[n], fallback);
    if n == 0 {
      assert deltas[..n] == [];
    }
    assert call.id == LastId(deltas) && call.itemId == ItemId(deltas, fallback) && call.name == LastName(deltas);
    assert call.arguments == Arguments(deltas[..n]);
    assert call.started <==> LastName(deltas[..n]) != "";
    assert OpeningEvents(call) == OpeningOf(deltas, fallback);
    assert ArgumentEvents(call, d.arguments) == ArgumentsOf(deltas, fallback);
  }

  // The events a call has streamed so far, opened at `at` if it has a name.
  ghost predicate Streams(deltas: seq<ToolDelta>, events: seq<Event>, at: nat) {
    && (if LastName(deltas) != "" then OpensOnce(events, at) else OnlyArguments(events))
    && (NamedInTime(deltas) <==> events == [] || events[0].ItemAdded?)
  }

  lemma {:induction false} DeltaStreams(deltas: seq<ToolDelta>, d: ToolDelta, known: Option<Pending>, fallback: string,
        events: seq<Event>, at: nat)
    returns (at1: nat)
    requires Streams(deltas, events, at)
    requires if known.Some? then known.value.name == LastName(deltas) && known.value.started == (LastName(deltas) != "")
      else deltas == [] && events == []
    ensures Streams(deltas + [d], events + DeltaEvents(known, d, fallback), at1)
  {
    assert (deltas + [d])[..|deltas|] == deltas;
    at1 := if LastName(deltas) == "" && d.name != "" then |events| else at;
  }

  lemma {:induction false} StreamedMore(before: seq<ToolDelta>, d: ToolDelta, fallback: string, at: nat)
    returns (at1: nat)
    requires Streams(before, ReadCall(before, fallback).events, at)
    ensures Streams(before + [d], ReadCall(before + [d], fallback).events, at1)
  {
    var rc := ReadCall(before, fallback);
    if before != [] {
      FinalCall(before, fallback);
    }
    ReadCallGrows(before, d, fallback);
    at1 := DeltaStreams(before, d, rc.call, fallback, rc.events, at);
  }

  lemma {:induction false} StreamedCall(deltas: seq<ToolDelta>, fallback: string) returns (at: nat)
    ensures Streams(deltas, ReadCall(deltas, fallback).events, at)
  {
    at := 0;
    if deltas != [] {
      var n := |deltas| - 1;
      at := StreamedCall(deltas[..n], fallback);
      at := StreamedMore(deltas[..n], deltas[n], fallback, at);
      assert deltas[..n] + [deltas[n]] == deltas;
    }
  }

  // The item is opened by exactly one event; its two done events come last, once
  // each, with the final call and its place in the output.
  ghost predicate WholeCall(events: seq<Event>, call: Pending, position: nat, at: nat) {
    && |events| >= 3
    && OpensOnce(events[..|events| - 2], at)
    && (!call.started ==> events[at] == ItemAdded(position, CallItem(call, InProgress)))
    && events[|events| - 2] == ArgumentsDone(call.itemId, position, call.arguments)
    && events[|events| - 1] == ItemDone(position, CallItem(call, Complete))
  }

  predicate OpenedFirst(events: seq<Event>) {
    events != [] && events[0].ItemAdded?
  }

  lemma {:induction false} OpenedCallEnds(streamed: seq<Event>, call: Pending, position: nat, at: nat)
    requires call.started && OpensOnce(streamed, at)
    ensures WholeCall(streamed + EndEvents(call, position), call, position, at)
  {
    var events := streamed + EndEvents(call, position);
    assert events[..|events| - 2] == streamed;
  }

  lemma {:induction false} UnopenedCallEnds(streamed: seq<Event>, call: Pending, position: nat)
    requires !call.started && OnlyArguments(streamed)
    ensures WholeCall(streamed + EndEvents(call, position), call, position, |streamed|)
  {
    var events := streamed + EndEvents(call, position);
    assert events[..|events| - 2] == streamed + [ItemAdded(position, CallItem(call, InProgress))];
  }

  lemma {:induction false} EndKeepsFirst(streamed: seq<Event>, call: Pending, position: nat)
    requires streamed == [] ==> !call.started
    ensures OpenedFirst(streamed + EndEvents(call, position)) <==> streamed == [] || streamed[0].ItemAdded?
  {
  }

  // A call's streamed events followed by its end.
  lemma {:induction false} CallEvents(deltas: seq<ToolDelta>, fallback: string, call: Pending, position: nat)
    returns (at: nat)
    requires ReadCall(deltas, fallback).call == Some(call)
    ensures var events := ReadCall(deltas, fallback).events + EndEvents(call, position);
      WholeCall(events, call, position, at) && (OpenedFirst(events) <==> NamedInTime(deltas))
  {
    at := StreamedCall(deltas, fallback);
    FinalCall(deltas, fallback);
    var streamed := ReadCall(deltas, fallback).events;
    EndKeepsFirst(streamed, call, position);
    if call.started {
      OpenedCallEnds(streamed, call, position, at);
    } else {
      at := |streamed|;
      UnopenedCallEnds(streamed, call, position);
    }
  }

  // What a client sees of a call: one opening, in time exactly when the name comes
  // in time, two final done events, and the item at the place they name.
  ghost predicate Appears(events: seq<Event>, call: Pending, position: nat, deltas: seq<ToolDelta>,
                          output: seq<Item>) {
    exists at: nat ::
      && WholeCall(events, call, position, at)
      && (OpenedFirst(events) <==> NamedInTime(deltas))
      && position < |output| && output[position] == CallItem(call, Complete)
  }

  // All events of a call, given how the read loop ended.
  function CallEnded(s: Stream, index: int, position: nat): seq<Event>
    requires index in s.calls
  {
    EventsOf(s.events, Call(index)) + EndEvents(s.calls[index], position)
  }

  lemma {:induction false} CallEndsWhole(ops: seq<Op>, names: Names, s: Stream, index: int, position: nat)
    returns (at: nat)
    requires s == Read(ops, names) && index in s.calls
    ensures WholeCall(CallEnded(s, index, position), s.calls[index], position, at)
    ensures OpenedFirst(CallEnded(s, index, position)) <==> NamedInTime(DeltasOf(ops, index))
  {
    CallsAreIndependent(ops, index, names);
    assert Known(s.calls, index) == Some(s.calls[index]);
    at := CallEvents(DeltasOf(ops, index), names.fallback(index), s.calls[index], position);
  }

  // Every call in the output is added exactly once, then done exactly once, at the
  // index where its item stands in the completed output; the item is opened before
  // its arguments exactly when the name comes in time.
  lemma {:induction false} CallGrammar(ops: seq<Op>, names: Names, s: Stream, k: nat, index: int, position: nat)
    requires s == Read(ops, names) && k < |Order(s.calls)|
    requires index == Order(s.calls)[k] && position == |TextItems(s, names)| + k
    ensures Appears(CallEnded(s, index, position), s.calls[index], position, DeltasOf(ops, index), Output(s, names))
  {
    var at := CallEndsWhole(ops, names, s, index, position);
    OutputAt(s, names, k);
  }

  // These are all events of the call in the whole stream.
  lemma {:induction false} CallInTranslation(lines: seq<Line>, names: Names, s: Stream, k: nat, index: int)
    requires s == Read(LineOps(lines), names) && k < |Order(s.calls)| && index == Order(s.calls)[k]
    ensures EventsOf(Translate(lines, names), Call(index)) == CallEnded(s, index, |TextItems(s, names)| + k)
  {
    CallChannel(s, LastUsage(lines, None), names, k, index);
  }

  // When the indices are 0 .. n-1 every call is in the output.
  lemma {:induction false} DenseCallsAreAllOrdered(calls: map<int, Pending>)
    requires forall i :: i in calls ==> 0 <= i < |calls|
    ensures forall i :: i in calls ==> i in Order(calls)
  {
    PresentIsComplete(calls, |calls|);
  }

  // ---- what a client collects from the whole stream ----

  function Plain(events: seq<Emitted>): seq<Event> {
    seq(|events|, k requires 0 <= k < |events| => events[k].event)
  }

  // Arguments under an item id come from one call only.
  ghost predicate Private(events: seq<Emitted>, index: int, itemId: string) {
    forall k :: 0 <= k < |events| && events[k].event.ArgumentsDelta? && events[k].event.itemId == itemId ==>
      events[k].channel == Call(index)
  }

  lemma {:induction false} CollectFromOne(events: seq<Emitted>, index: int, itemId: string)
    requires Private(events, index, itemId)
    ensures Collected(Plain(events), itemId) == Collected(EventsOf(events, Call(index)), itemId)
  {
    if events != [] {
      var n := |events| - 1;
      CollectFromOne(events[..n], index, itemId);
      assert Plain(events)[..n] == Plain(events[..n]);
      var own := EventsOf(events[..n], Call(index));
      assert (own + [events[n].event])[..|own|] == own;
    }
  }

  // Different calls never use the same id, given or made up.
  ghost predicate IdsApart(ops: seq<Op>, names: Names) {
    && (forall i, j :: i != j ==> names.fallback(i) != names.fallback(j))
    && (forall i :: !Blank(names.fallback(i)))
    && (forall i, k :: 0 <= k < |ops| && ops[k].Tool? ==> ops[k].delta.id != names.fallback(i))
    && (forall k, l :: 0 <= k < |ops| && 0 <= l < |ops| && ops[k].Tool? && ops[l].Tool? ==>
          ops[k].delta.id == ops[l].delta.id != "" ==> ops[k].delta.index == ops[l].delta.index)
  }

  // An id that call `index` may show.
  ghost predicate Uses(ops: seq<Op>, names: Names, index: int, id: string) {
    || id == names.fallback(index)
    || (id != "" && exists k :: 0 <= k < |ops| && ops[k].Tool? && ops[k].delta.index == index && ops[k].delta.id == id)
  }

  lemma {:induction false} UsesApart(ops: seq<Op>, names: Names, i: int, j: int, id: string)
    requires IdsApart(ops, names) && Uses(ops, names, i, id) && Uses(ops, names, j, id)
    ensures i == j
  {
  }

  lemma {:induction false} UsesGrows(ops: seq<Op>, op: Op, names: Names, index: int, id: string)
    requires Uses(ops, names, index, id)
    ensures Uses(ops + [op], names, index, id)
  {
    if id != names.fallback(index) {
      var k :| 0 <= k < |ops| && ops[k].Tool? && ops[k].delta.index == index && ops[k].delta.id == id;
      assert (ops + [op])[k] == ops[k];
    }
  }

  ghost predicate ShowsOwnIds(ops: seq<Op>, names: Names, s: Stream) {
    && (forall i :: i in s.calls ==> Uses(ops, names, i, s.calls[i].itemId))
    && (forall k :: 0 <= k < |s.events| && s.events[k].event.ArgumentsDelta? ==>
        s.events[k].channel.Call? && Uses(ops, names, s.events[k].channel.index, s.events[k].event.itemId))
  }

  lemma {:induction false} StepShowsOwnIds(ops: seq<Op>, op: Op, names: Names, s: Stream)
    requires ShowsOwnIds(ops, names, s) && (op.Tool? ==> !Blank(names.fallback(op.delta.index)))
    ensures ShowsOwnIds(ops + [op], names, Step(s, op, names))
  {
    var more := ops + [op];
    assert more[|ops|] == op;
    forall i, id | Uses(ops, names, i, id)
      ensures Uses(more, names, i, id)
    {
      UsesGrows(ops, op, names, i, id);
    }
    if op.Tool? {
      var d := op.delta;
      var call := AfterDelta(Known(s.calls, d.index), d, names.fallback(d.index));
      assert Uses(more, names, d.index, call.itemId) by {
        if d.id != "" {
          assert more[|ops|].delta.id == d.id;
        }
      }
    }
  }

  lemma {:induction false} ReadShowsOwnIds(ops: seq<Op>, names: Names)
    requires forall i :: !Blank(names.fallback(i))
    ensures ShowsOwnIds(ops, names, Read(ops, names))
  {
    if ops != [] {
      var n := |ops| - 1;
      ReadShowsOwnIds(ops[..n], names);
      StepShowsOwnIds(ops[..n], ops[n], names, Read(ops[..n], names));
      assert ops[..n] + [ops[n]] == ops;
    }
  }

  lemma {:induction false} DeltasAreOps(ops: seq<Op>, index: int)
    ensures forall k :: 0 <= k < |DeltasOf(ops, index)| ==> Tool(DeltasOf(ops, index)[k]) in ops
  {
    if ops != [] {
      var n := |ops| - 1;
      DeltasAreOps(ops[..n], index);
      assert ops == ops[..n] + [ops[n]];
    }
  }

  // With ids apart, what the read loop streams under the final item id of a call
  // gives its arguments exactly when the id has settled before the first of them.
  lemma {:induction false} ReadArgumentsAgreeExactly(ops: seq<Op>, names: Names, index: int)
    requires IdsApart(ops, names) && index in Read(ops, names).calls
    ensures var s := Read(ops, names);
      Collected(Plain(s.events), s.calls[index].itemId) == s.calls[index].arguments <==> Settled(DeltasOf(ops, index))
  {
    var s := Read(ops, names);
    var deltas, fallback := DeltasOf(ops, index), names.fallback(index);
    var itemId := s.calls[index].itemId;
    CallsAreIndependent(ops, index, names);
    FinalCall(deltas, fallback);
    ReadShowsOwnIds(ops, names);
    forall k | 0 <= k < |s.events| && s.events[k].event.ArgumentsDelta? && s.events[k].event.itemId == itemId
      ensures s.events[k].channel == Call(index)
    {
      UsesApart(ops, names, index, s.events[k].channel.index, itemId);
    }
    CollectFromOne(s.events, index, itemId);
    DeltasAreOps(ops, index);
    forall k | 0 <= k < |deltas|
      ensures deltas[k].id != fallback
    {
      var l :| 0 <= l < |ops| && ops[l] == Tool(deltas[k]);
    }
    SettledExactly(deltas, fallback);
  }

  // Neither arguments nor text are streamed.
  ghost predicate Silent(events: seq<Emitted>) {
    forall k :: 0 <= k < |events| ==> !events[k].event.ArgumentsDelta? && !events[k].event.TextDelta?
  }

  lemma {:induction false} NothingCollected(events: seq<Emitted>, itemId: string)
    requires Silent(events)
    ensures Collected(Plain(events), itemId) == ""
  {
    if events != [] {
      var n := |events| - 1;
      NothingCollected(events[..n], itemId);
      assert Plain(events)[..n] == Plain(events[..n]);
    }
  }

  lemma {:induction false} EndIsSilent(calls: map<int, Pending>, order: seq<int>, base: nat)
    requires forall k :: 0 <= k < |order| ==> order[k] in calls
    ensures Silent(CallsEnd(calls, order, base))
  {
    if order != [] {
      EndIsSilent(calls, order[..|order| - 1], base);
    }
  }

  lemma {:induction false} PlainAppend(a: seq<Emitted>, b: seq<Emitted>)
    ensures Plain(a + b) == Plain(a) + Plain(b)
  {
  }

  lemma {:induction false} SilentAppend(a: seq<Emitted>, b: seq<Emitted>)
    requires Silent(a) && Silent(b)
    ensures Silent(a + b)
  {
  }

  // After the read loop nothing is streamed any more.
  lemma {:induction false} FinishIsSilent(s: Stream, usage: Option<TokenCounts>, names: Names)
    returns (tail: seq<Emitted>)
    ensures Finish(s, usage, names) == s.events + tail && Silent(tail)
    ensures Plain(Finish(s, usage, names)) == Plain(s.events) + Plain(tail)
  {
    var text, end := OnChannel(TextChannel, TextEnd(s, names)),
      CallsEnd(s.calls, Order(s.calls), |TextItems(s, names)|);
    var last := [Emitted(Envelope, Completed(Output(s, names), usage))];
    EndIsSilent(s.calls, Order(s.calls), |TextItems(s, names)|);
    SilentAppend(text, end);
    SilentAppend(text + end, last);
    tail := text + end + last;
    FourSum(s.events, text, end, last);
    PlainAppend(s.events, tail);
  }

  lemma {:induction false} FourSum(a: seq<Emitted>, b: seq<Emitted>, c: seq<Emitted>, d: seq<Emitted>)
    ensures a + b + c + d == a + (b + c + d)
  {
  }

  lemma {:induction false} FinishCollects(s: Stream, usage: Option<TokenCounts>, names: Names, itemId: string)
    ensures Collected(Plain(Finish(s, usage, names)), itemId) == Collected(Plain(s.events), itemId)
  {
    var tail := FinishIsSilent(s, usage, names);
    CollectedAppend(Plain(s.events), Plain(tail), itemId);
    NothingCollected(tail, itemId);
  }

  // ---- the text a client collects ----

  function TextOf(e: Event): string {
    if e.TextDelta? then e.delta else ""
  }

  function Shown(events: seq<Event>): string {
    if events == [] then "" else Shown(events[..|events| - 1]) + TextOf(events[|events| - 1])
  }

  lemma {:induction false} ShownAppend(a: seq<Event>, b: seq<Event>)
    ensures Shown(a + b) == Shown(a) + Shown(b)
  {
    if b == [] {
      assert a + b == a;
    } else {
      var n := |b| - 1;
      ShownAppend(a, b[..n]);
      DropLast(a, b);
      Regroup(Shown(a), Shown(b[..n]), TextOf(b[n]));
    }
  }

  lemma {:induction false} NothingShown(events: seq<Event>)
    requires forall k :: 0 <= k < |events| ==> !events[k].TextDelta?
    ensures Shown(events) == ""
  {
    if events != [] {
      NothingShown(events[..|events| - 1]);
    }
  }

  lemma {:induction false} PlainOfChannel(channel: Channel, events: seq<Event>)
    ensures Plain(OnChannel(channel, events)) == events
  {
  }

  lemma {:induction false} TextEventsShow(started: bool, delta: string, names: Names)
    ensures Shown(TextEvents(started, delta, names)) == delta
  {
    var events := TextEvents(started, delta, names);
    NothingShown(events[..|events| - 1]);
  }

  lemma {:induction false} ChannelShows(events: seq<Emitted>, channel: Channel, more: seq<Event>)
    ensures Shown(Plain(events + OnChannel(channel, more))) == Shown(Plain(events)) + Shown(more)
  {
    PlainAppend(events, OnChannel(channel, more));
    PlainOfChannel(channel, more);
    ShownAppend(Plain(events), more);
  }

  lemma {:induction false} DeltaShowsNothing(known: Option<Pending>, d: ToolDelta, fallback: string)
    ensures Shown(DeltaEvents(known, d, fallback)) == ""
  {
    var events := DeltaEvents(known, d, fallback);
    assert forall k :: 0 <= k < |events| ==> !events[k].TextDelta?;
    NothingShown(events);
  }

  lemma {:induction false} ContentShows(s: Stream, delta: string, names: Names)
    requires delta != ""
    ensures Shown(Plain(Step(s, Content(delta), names).events)) == Shown(Plain(s.events)) + delta
  {
    ChannelShows(s.events, TextChannel, TextEvents(s.textStarted, delta, names));
    TextEventsShow(s.textStarted, delta, names);
  }

  lemma {:induction false} ToolShows(s: Stream, d: ToolDelta, names: Names)
    ensures Shown(Plain(Step(s, Tool(d), names).events)) == Shown(Plain(s.events))
  {
    var known, fallback := Known(s.calls, d.index), names.fallback(d.index);
    ChannelShows(s.events, Call(d.index), DeltaEvents(known, d, fallback));
    DeltaShowsNothing(known, d, fallback);
  }

  lemma {:induction false} StepShows(s: Stream, op: Op, names: Names)
    ensures Shown(Plain(Step(s, op, names).events)) == Shown(Plain(s.events)) + if op.Content? then op.text else ""
  {
    match op {
      case Content(delta) => if delta != "" { ContentShows(s, delta, names); }
      case Tool(d) => ToolShows(s, d, names);
    }
  }

  lemma {:induction false} ReadShows(ops: seq<Op>, names: Names)
    ensures Shown(Plain(Read(ops, names).events)) == Read(ops, names).text
  {
    if ops == [] {
      assert Plain(START.events) == [Created];
      NothingShown([Created]);
    } else {
      var n := |ops| - 1;
      ReadShows(ops[..n], names);
      StepShows(Read(ops[..n], names), ops[n], names);
    }
  }

  lemma {:induction false} FinishShows(s: Stream, usage: Option<TokenCounts>, names: Names)
    ensures Shown(Plain(Finish(s, usage, names))) == Shown(Plain(s.events))
  {
    var tail := FinishIsSilent(s, usage, names);
    ShownAppend(Plain(s.events), Plain(tail));
    NothingShown(Plain(tail));
  }

  // The text a client has collected is in the output, as its one message in front.
  ghost predicate IsTextOf(shown: string, output: seq<Item>, names: Names) {
    && (shown != "" ==> output != [] && output[0] == Message(names.message, Complete, [shown]))
    && (forall k :: 0 <= k < |output| && output[k].Message? ==> k == 0 && shown != "")
  }

  lemma {:induction false} OutputHasText(s: Stream, names: Names)
    requires s.textStarted <==> s.text != ""
    ensures IsTextOf(s.text, Output(s, names), names)
  {
    var texts, calls := TextItems(s, names), CallItems(s.calls, Order(s.calls));
    assert forall k :: 0 <= k < |calls| ==> calls[k].FunctionCall?;
    assert Output(s, names) == texts + calls;
  }

  lemma {:induction false} TextIsWhole(ops: seq<Op>, names: Names)
    ensures Read(ops, names).textStarted <==> Read(ops, names).text != ""
  {
    TextIsStreamed(ops, names);
    TextPartsNonEmpty(ops);
  }

  // The text deltas of the whole stream add up to the text of the completed
  // output: to its one message, which comes first, or to nothing if there is none.
  lemma {:induction false} StreamedTextAgrees(lines: seq<Line>, names: Names)
    ensures IsTextOf(Shown(Plain(Translate(lines, names))), Output(Read(LineOps(lines), names), names), names)
  {
    var s := Read(LineOps(lines), names);
    FinishShows(s, LastUsage(lines, None), names);
    ReadShows(LineOps(lines), names);
    TextIsWhole(LineOps(lines), names);
    OutputHasText(s, names);
  }

  // The main result on arguments.  With ids apart, concatenating all argument
  // deltas of the whole stream that carry the id of an item of the completed
  // output gives that item's arguments exactly when the id of the call has settled
  // before the first of them.
  lemma {:induction false} StreamedArgumentsAgreeExactly(
      lines: seq<Line>, names: Names, s: Stream, k: nat, index: int, item: Item)
    requires IdsApart(LineOps(lines), names) && s == Read(LineOps(lines), names) && k < |Order(s.calls)|
    requires index == Order(s.calls)[k] && |TextItems(s, names)| + k < |Output(s, names)|
    requires item == Output(s, names)[|TextItems(s, names)| + k]
    ensures item.FunctionCall?
    ensures Collected(Plain(Translate(lines, names)), item.id) == item.arguments <==>
      Settled(DeltasOf(LineOps(lines), index))
  {
    OutputAt(s, names, k);
    FinishCollects(s, LastUsage(lines, None), names, s.calls[index].itemId);
    ReadArgumentsAgreeExactly(LineOps(lines), names, index);
  }

  // A name that comes after the first arguments opens the item too late.
  lemma {:induction false} LateNameOpensLate(fallback: string, position: nat)
    ensures var deltas := [ToolDelta(0, "a", "", "x"), ToolDelta(0, "a", "f", "")];
      var rc := ReadCall(deltas, fallback);
      && !NamedInTime(deltas)
      && rc.call.Some? && !OpenedFirst(rc.events + EndEvents(rc.call.value, position))
  {
    var d1, d2 := ToolDelta(0, "a", "", "x"), ToolDelta(0, "a", "f", "");
    var deltas := [d1, d2];
    assert deltas[..1] == [d1] && [d1][..0] == [];
    assert LastName([d1]) == "" && |d1.arguments| == 1;
    assert !NamedInTime([d1]);
    FinalCall(deltas, fallback);
    var at := CallEvents(deltas, fallback, ReadCall(deltas, fallback).call.value, position);
  }

  // An id that changes after the first arguments loses them for the client.
  lemma {:induction false} ChangingIdLosesArguments(fallback: string)
    ensures var deltas := [ToolDelta(0, "a", "f", "x"), ToolDelta(0, "b", "", "")];
      && ItemId(deltas, fallback) == "b" && Arguments(deltas) == "x"
      && Collected(ReadCall(deltas, fallback).events, "b") == ""
  {
    var d1, d2 := ToolDelta(0, "a", "f", "x"), ToolDelta(0, "b", "", "");
    var deltas := [d1, d2];
    assert deltas[..1] == [d1] && [d1][..0] == [];
    CollectsOneMore(deltas, fallback, "b");
    CollectsOneMore([d1], fallback, "b");
  }
}
