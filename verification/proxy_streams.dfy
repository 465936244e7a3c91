/** The streamed events agree with the batch result of response.completed, and
    they follow a grammar. */
module ProxyStreams {
  import opened Options
  import opened Text
  import opened Proxy
  import opened Sequences

  function Concat(parts: seq<string>): string {
    if parts == [] then "" else Concat(parts[..|parts| - 1]) + parts[|parts| - 1]
  }

  // ---- channels of the input ----

  function TextParts(ops: seq<Op>): seq<string> {
    if ops == [] then []
    else
      var n := |ops| - 1;
      if ops[n].Content? && ops[n].text != "" then TextParts(ops[..n]) + [ops[n].text] else TextParts(ops[..n])
  }

  function DeltasOf(ops: seq<Op>, index: int): seq<ToolDelta> {
    if ops == [] then []
    else
      var n := |ops| - 1;
      if ops[n].Tool? && ops[n].delta.index == index
      then DeltasOf(ops[..n], index) + [ops[n].delta] else DeltasOf(ops[..n], index)
  }

  // ---- channels of the output ----

  function EventsOf(events: seq<Emitted>, channel: Channel): seq<Event> {
    if events == [] then []
    else
      var n := |events| - 1;
      if events[n].channel == channel
        then EventsOf(events[..n], channel) + [events[n].event] else EventsOf(events[..n], channel)
  }

  lemma {:induction false} EventsOfAppend(a: seq<Emitted>, b: seq<Emitted>, channel: Channel)
    ensures EventsOf(a + b, channel) == EventsOf(a, channel) + EventsOf(b, channel)
  {
    if b == [] {
      assert a + b == a;
    } else {
      var n := |b| - 1;
      EventsOfAppend(a, b[..n], channel);
      DropLast(a, b);
    }
  }

  lemma {:induction false} EventsOfChannel(channel: Channel, events: seq<Event>, other: Channel)
    ensures EventsOf(OnChannel(channel, events), other) == if channel == other then events else []
  {
    if events != [] {
      var n := |events| - 1;
      EventsOfChannel(channel, events[..n], other);
      assert OnChannel(channel, events)[..n] == OnChannel(channel, events[..n]);
      assert events == events[..n] + [events[n]];
    }
  }

  lemma {:induction false} NothingAtStart(channel: Channel)
    requires channel != Envelope
    ensures EventsOf(START.events, channel) == []
  {
    assert START.events == OnChannel(Envelope, [Created]);
    EventsOfChannel(Envelope, [Created], channel);
  }

  // ---- one call on its own ----

  datatype CallState = CallState(call: Option<Pending>, events: seq<Event>)

  function ReadCall(deltas: seq<ToolDelta>, fallback: string): CallState {
    if deltas == [] then CallState(None, [])
    else
      var n := |deltas| - 1;
      var before := ReadCall(deltas[..n], fallback);
      CallState(Some(AfterDelta(before.call, deltas[n], fallback)),
                before.events + DeltaEvents(before.call, deltas[n], fallback))
  }

  // What one step adds to the channel of a call.
  lemma {:induction false} StepOnChannel(s: Stream, op: Op, names: Names, index: int)
    ensures EventsOf(Step(s, op, names).events, Call(index)) == EventsOf(s.events, Call(index)) +
      if op.Tool? && op.delta.index == index
      then DeltaEvents(Known(s.calls, index), op.delta, names.fallback(index)) else []
  {
    var channel, more := TextChannel, [];
    match op {
      case Content(delta) =>
        more := TextEvents(s.textStarted, delta, names);
        if delta == "" {
          return;
        }
      case Tool(d) =>
        channel, more := Call(d.index), DeltaEvents(Known(s.calls, d.index), d, names.fallback(d.index));
    }
    EventsOfAppend(s.events, OnChannel(channel, more), Call(index));
    EventsOfChannel(channel, more, Call(index));
  }

  lemma {:induction false} ReadCallGrows(deltas: seq<ToolDelta>, d: ToolDelta, fallback: string)
    ensures var before, after := ReadCall(deltas, fallback), ReadCall(deltas + [d], fallback);
      after.call == Some(AfterDelta(before.call, d, fallback)) &&
      after.events == before.events + DeltaEvents(before.call, d, fallback)
  {
    assert (deltas + [d])[..|deltas|] == deltas;
  }

  // The stream serves every call as if it were alone.
  lemma {:induction false} CallsAreIndependent(ops: seq<Op>, index: int, names: Names)
    ensures Known(Read(ops, names).calls, index) == ReadCall(DeltasOf(ops, index), names.fallback(index)).call
    ensures EventsOf(Read(ops, names).events, Call(index)) ==
      ReadCall(DeltasOf(ops, index), names.fallback(index)).events
  {
    if ops == [] {
      NothingAtStart(Call(index));
    } else {
      var n := |ops| - 1;
      CallsAreIndependent(ops[..n], index, names);
      StepOnChannel(Read(ops[..n], names), ops[n], names, index);
      if ops[n].Tool? && ops[n].delta.index == index {
        ReadCallGrows(DeltasOf(ops[..n], index), ops[n].delta, names.fallback(index));
      }
    }
  }

  function TextStream(parts: seq<string>, names: Names): seq<Event> {
    if parts == [] then []
    else [ItemAdded(0, Message(names.message, InProgress, [])), PartAdded(names.message, 0)] +
         seq(|parts|, k requires 0 <= k < |parts| => TextDelta(names.message, 0, parts[k]))
  }

  lemma {:induction false} TextStreamGrows(parts: seq<string>, part: string, names: Names)
    ensures TextStream(parts + [part], names) == TextStream(parts, names) + TextEvents(parts != [], part, names)
  {
  }

  lemma {:induction false} ConcatGrows(parts: seq<string>, part: string)
    ensures Concat(parts + [part]) == Concat(parts) + part
  {
    assert (parts + [part])[..|parts|] == parts;
  }

  // What one step adds to the text channel.
  lemma {:induction false} StepOnText(s: Stream, op: Op, names: Names)
    ensures EventsOf(Step(s, op, names).events, TextChannel) == EventsOf(s.events, TextChannel) +
      if op.Content? && op.text != "" then TextEvents(s.textStarted, op.text, names) else []
  {
    match op {
      case Content(delta) =>
        var more := TextEvents(s.textStarted, delta, names);
        EventsOfAppend(s.events, OnChannel(TextChannel, more), TextChannel);
        EventsOfChannel(TextChannel, more, TextChannel);
      case Tool(d) =>
        var more := DeltaEvents(Known(s.calls, d.index), d, names.fallback(d.index));
        EventsOfAppend(s.events, OnChannel(Call(d.index), more), TextChannel);
        EventsOfChannel(Call(d.index), more, TextChannel);
    }
  }

  ghost predicate TextInStep(s: Stream, parts: seq<string>, names: Names) {
    && s.textStarted == (parts != [])
    && s.text == Concat(parts)
    && EventsOf(s.events, TextChannel) == TextStream(parts, names)
  }

  lemma {:induction false} StepKeepsText(s: Stream, op: Op, parts: seq<string>, names: Names)
    requires TextInStep(s, parts, names)
    ensures TextInStep(Step(s, op, names),
              if op.Content? && op.text != "" then parts + [op.text] else parts, names)
  {
    StepOnText(s, op, names);
    if op.Content? && op.text != "" {
      TextStreamGrows(parts, op.text, names);
      ConcatGrows(parts, op.text);
    }
  }

  // The text channel: opened once, before the first delta, and only if there is text.
  lemma {:induction false} TextIsStreamed(ops: seq<Op>, names: Names)
    ensures TextInStep(Read(ops, names), TextParts(ops), names)
  {
    if ops == [] {
      NothingAtStart(TextChannel);
    } else {
      var before := ops[..|ops| - 1];
      TextIsStreamed(before, names);
      StepKeepsText(Read(before, names), ops[|ops| - 1], TextParts(before), names);
    }
  }

  // ---- the batch view of a call ----

  function Arguments(deltas: seq<ToolDelta>): string {
    if deltas == [] then "" else Arguments(deltas[..|deltas| - 1]) + deltas[|deltas| - 1].arguments
  }

  function LastId(deltas: seq<ToolDelta>): string {
    if deltas == [] then ""
    else if deltas[|deltas| - 1].id != "" then deltas[|deltas| - 1].id else LastId(deltas[..|deltas| - 1])
  }

  function LastName(deltas: seq<ToolDelta>): string {
    if deltas == [] then ""
    else if deltas[|deltas| - 1].name != "" then deltas[|deltas| - 1].name else LastName(deltas[..|deltas| - 1])
  }

  function ItemId(deltas: seq<ToolDelta>, fallback: string): string {
    if LastId(deltas) != "" then LastId(deltas) else FirstNonEmpty("", fallback)
  }

  // The call a channel ends with: last id, last name, all arguments in order.
  lemma {:induction false} FinalCall(deltas: seq<ToolDelta>, fallback: string)
    requires deltas != []
    ensures ReadCall(deltas, fallback).call == Some(Pending(LastId(deltas), ItemId(deltas, fallback), LastName(deltas),
                                                            Arguments(deltas), LastName(deltas) != ""))
  {
    var n := |deltas| - 1;
    if n > 0 {
      FinalCall(deltas[..n], fallback);
    } else {
      assert deltas[..n] == [];
    }
  }

  // The final output depends only on the text as a whole and, for every call, on
  // its arguments as a whole and its last id and name: not on the chunks.
  lemma {:induction false} OutputIgnoresChunks(ops1: seq<Op>, ops2: seq<Op>, names: Names)
    requires Concat(TextParts(ops1)) == Concat(TextParts(ops2))
    requires forall i :: (DeltasOf(ops1, i) == []) == (DeltasOf(ops2, i) == [])
    requires forall i :: Arguments(DeltasOf(ops1, i)) == Arguments(DeltasOf(ops2, i))
    requires forall i :: LastId(DeltasOf(ops1, i)) == LastId(DeltasOf(ops2, i))
    requires forall i :: LastName(DeltasOf(ops1, i)) == LastName(DeltasOf(ops2, i))
    ensures Output(Read(ops1, names), names) == Output(Read(ops2, names), names)
  {
    TextIsStreamed(ops1, names);
    TextIsStreamed(ops2, names);
    TextPartsNonEmpty(ops1);
    TextPartsNonEmpty(ops2);
    var c1, c2 := Read(ops1, names).calls, Read(ops2, names).calls;
    forall i
      ensures Known(c1, i) == Known(c2, i)
    {
      CallsAreIndependent(ops1, i, names);
      CallsAreIndependent(ops2, i, names);
      if DeltasOf(ops1, i) != [] {
        FinalCall(DeltasOf(ops1, i), names.fallback(i));
        FinalCall(DeltasOf(ops2, i), names.fallback(i));
      }
    }
    KnownIsMap(c1, c2);
  }

  lemma {:induction false} KnownIsMap(c1: map<int, Pending>, c2: map<int, Pending>)
    requires forall i :: Known(c1, i) == Known(c2, i)
    ensures c1 == c2
  {
    forall i
      ensures i in c1 <==> i in c2
      ensures i in c1 ==> c1[i] == c2[i]
    {
      assert Known(c1, i) == Known(c2, i);
    }
    assert c1.Keys == c2.Keys;
  }

  lemma {:induction false} TextPartsNonEmpty(ops: seq<Op>)
    ensures TextParts(ops) == [] <==> Concat(TextParts(ops)) == ""
  {
    if ops != [] {
      var n := |ops| - 1;
      TextPartsNonEmpty(ops[..n]);
      if ops[n].Content? && ops[n].text != "" {
        var parts := TextParts(ops[..n]);
        assert (parts + [ops[n].text])[..|parts|] == parts;
      }
    }
  }

  // ---- streamed arguments ----

  function DeltaFor(e: Event, itemId: string): string {
    if e.ArgumentsDelta? && e.itemId == itemId then e.delta else ""
  }

  // What a client that follows one item id collects.
  function Collected(events: seq<Event>, itemId: string): string {
    if events == [] then ""
    else
      var e := events[|events| - 1];
      Collected(events[..|events| - 1], itemId) + DeltaFor(e, itemId)
  }

  lemma {:induction false} CollectedAppend(a: seq<Event>, b: seq<Event>, itemId: string)
    ensures Collected(a + b, itemId) == Collected(a, itemId) + Collected(b, itemId)
  {
    if b == [] {
      assert a + b == a;
    } else {
      var n := |b| - 1;
      CollectedAppend(a, b[..n], itemId);
      DropLast(a, b);
      Regroup(Collected(a, itemId), Collected(b[..n], itemId), DeltaFor(b[n], itemId));
    }
  }

  // Every delta with arguments comes while the last id seen is `id`.
  predicate CameUnder(deltas: seq<ToolDelta>, id: string) {
    deltas == [] ||
    (CameUnder(deltas[..|deltas| - 1], id) && (deltas[|deltas| - 1].arguments != "" ==> LastId(deltas) == id))
  }

  // No id changes after arguments have begun to arrive.
  predicate Settled(deltas: seq<ToolDelta>) {
    CameUnder(deltas, LastId(deltas))
  }

  lemma {:induction false} LastIdIsGiven(deltas: seq<ToolDelta>)
    ensures LastId(deltas) == "" || exists k :: 0 <= k < |deltas| && deltas[k].id == LastId(deltas)
  {
    if deltas != [] && deltas[|deltas| - 1].id == "" {
      LastIdIsGiven(deltas[..|deltas| - 1]);
    }
  }

  // Ids that come with deltas differ from the fallback the proxy makes up.
  ghost predicate NeverFallback(deltas: seq<ToolDelta>, fallback: string) {
    !Blank(fallback) && forall k :: 0 <= k < |deltas| ==> deltas[k].id != fallback
  }

  lemma {:induction false} ItemIdsDiffer(deltas: seq<ToolDelta>, fallback: string, id: string)
    requires NeverFallback(deltas, fallback) && id != fallback
    ensures ItemId(deltas, fallback) == (if id != "" then id else fallback) <==> LastId(deltas) == id
  {
    LastIdIsGiven(deltas);
  }

  lemma {:induction false} DeltaCollects(known: Option<Pending>, d: ToolDelta, fallback: string, itemId: string)
    ensures Collected(DeltaEvents(known, d, fallback), itemId) ==
      if AfterDelta(known, d, fallback).itemId == itemId then d.arguments else ""
  {
    var call := Named(known, d, fallback);
    CollectedAppend(OpeningEvents(call), ArgumentEvents(call, d.arguments), itemId);
    CollectedParts(call, d.arguments, itemId);
  }

  lemma {:induction false} CollectedParts(call: Pending, arguments: string, itemId: string)
    ensures Collected(OpeningEvents(call), itemId) == ""
    ensures Collected(ArgumentEvents(call, arguments), itemId) == if call.itemId == itemId then arguments else ""
  {
    CollectedOne(ItemAdded(0, CallItem(call, InProgress)), itemId);
    CollectedOne(ArgumentsDelta(call.itemId, 0, arguments), itemId);
  }

  lemma {:induction false} CollectedOne(e: Event, itemId: string)
    ensures Collected([e], itemId) == DeltaFor(e, itemId)
  {
    assert [e][..0] == [];
  }

  // What one more delta adds to the collection.
  lemma {:induction false} CollectsOneMore(deltas: seq<ToolDelta>, fallback: string, itemId: string)
    requires deltas != []
    ensures var n := |deltas| - 1;
      Collected(ReadCall(deltas, fallback).events, itemId) ==
      Collected(ReadCall(deltas[..n], fallback).events, itemId) +
      (if ItemId(deltas, fallback) == itemId then deltas[n].arguments else "")
  {
    var n := |deltas| - 1;
    var rc := ReadCall(deltas[..n], fallback);
    FinalCall(deltas, fallback);
    DeltaCollects(rc.call, deltas[n], fallback, itemId);
    CollectedAppend(rc.events, DeltaEvents(rc.call, deltas[n], fallback), itemId);
  }

  // Measured in characters, all arguments are collected exactly when all of them
  // came under the id.
  lemma {:induction false} CollectsExactly(deltas: seq<ToolDelta>, fallback: string, id: string)
    requires NeverFallback(deltas, fallback) && id != fallback
    ensures var got := Collected(ReadCall(deltas, fallback).events, if id != "" then id else fallback);
      && |got| <= |Arguments(deltas)|
      && (CameUnder(deltas, id) ==> got == Arguments(deltas))
      && (|got| == |Arguments(deltas)| ==> CameUnder(deltas, id))
  {
    if deltas != [] {
      var n := |deltas| - 1;
      assert NeverFallback(deltas[..n], fallback);
      CollectsExactly(deltas[..n], fallback, id);
      CollectsOneMore(deltas, fallback, if id != "" then id else fallback);
      ItemIdsDiffer(deltas, fallback, id);
    }
  }

  // On its own, a call streams its arguments under its final item id exactly when
  // its id has settled before the first arguments arrive.
  lemma {:induction false} SettledExactly(deltas: seq<ToolDelta>, fallback: string)
    requires NeverFallback(deltas, fallback)
    ensures Collected(ReadCall(deltas, fallback).events, ItemId(deltas, fallback)) == Arguments(deltas) <==>
      Settled(deltas)
  {
    LastIdIsGiven(deltas);
    CollectsExactly(deltas, fallback, LastId(deltas));
  }
}
