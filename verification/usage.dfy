/** The token-usage log.  A recorder per agent filters the lines of a command
    line tool into usage.jsonl; a reader later takes the interleaved lines of
    all agents apart and turns them into records. */
module Usage {
  import opened Options
  import opened Text

  datatype Detail = CachedInput | Input | Output | Total

  // What the patterns say about one cleaned line: the model it names, the token
  // count it carries, whether it starts with "tokens used", and the value of a
  // line made of digits.  "tokens used: 12" is a total and starts with
  // "tokens used" at the same time.
  datatype RawLine = RawLine(model: Option<string>, detail: Option<(Detail, nat)>, used: bool, number: Option<nat>)

  // A model line starts with "model", a detail line with a letter, and a number
  // line has no letter at all.
  predicate Consistent(l: RawLine) {
    && (l.number.Some? ==> l.model.None? && l.detail.None? && !l.used)
    && (l.model.Some? ==> l.detail.None? && !l.used)
    && (l.detail.Some? && l.used ==> l.detail.value.0.Total?)
  }

  type Line = l: RawLine | Consistent(l) witness RawLine(None, None, false, None)

  // Stable identifiers are hashes of their parts; equal only for equal parts.
  datatype UsageId =
    | NoId
    | Given(id: string)
    | ModelRun(task: string, sourceType: string, sourceId: string, sourceName: string, at: int, model: string)
    | TotalRun(task: string, sourceType: string, sourceId: string, sourceName: string, at: int, model: string,
      total: nat)
    | RecordId(task: string, run: UsageId, sourceType: string, sourceId: string, model: string, total: nat, at: int)

  datatype Record = Record(
    id: UsageId, task: string, run: UsageId, sourceType: string, sourceId: string, sourceName: string,
    model: string, total: nat, input: nat, cached: nat, output: nat, at: int)

  datatype Stream = Stream(
    run: UsageId, external: bool, sourceType: string, sourceId: string, sourceName: string,
    model: string, expectTotal: bool, input: nat, cached: nat, output: nat)

  datatype Header = Header(task: string, run: string, sourceType: string, sourceId: string, sourceName: string)

  datatype Event = Event(at: int, header: Header, line: Line)

  // ---- the recorder ----

  function Expects(wanted: bool, l: Line): bool {
    if l.used then true else if wanted && l.number.Some? then false else wanted
  }

  predicate Writes(wanted: bool, l: Line) {
    l.model.Some? || l.detail.Some? || l.used || (wanted && l.number.Some?)
  }

  class UsageRecorder {
    const header: Header
    var expectTotal: bool
    var file: seq<Event>

    constructor (header: Header)
      ensures this.header == header && !expectTotal && file == []
    {
      this.header := header;
      expectTotal := false;
      file := [];
    }

    method Record(l: Line, at: int)
      modifies this
      ensures expectTotal == Expects(old(expectTotal), l)
      ensures file == old(file) + (if Writes(old(expectTotal), l) then [Event(at, header, l)] else [])
    {
      var shouldWrite := l.model.Some? || l.detail.Some?;
      if l.used {
        expectTotal := true;
        shouldWrite := true;
      } else if expectTotal && l.number.Some? {
        expectTotal := false;
        shouldWrite := true;
      }
      if shouldWrite {
        file := file + [Event(at, header, l)];
      }
    }
  }

  // ---- the reader, one line ----

  function SafeSourceName(sourceType: string): string {
    var name := Lower(Trim(sourceType));
    if name == "gardener" then "Gardener" else if name == "tree" then "Tree" else "Agent"
  }

  function ModelOf(st: Stream): string {
    if st.model == "" then "unknown" else st.model
  }

  function TotalOf(st: Stream, total: nat): nat {
    if total == 0 then st.input + st.cached + st.output else total
  }

  function BuildRecord(st: Stream, task: string, n: nat, at: int): Record {
    var model, total := ModelOf(st), TotalOf(st, n);
    var run := if st.run.NoId?
      then TotalRun(task, st.sourceType, st.sourceId, st.sourceName, at, model, total) else st.run;
    Record(RecordId(task, run, st.sourceType, st.sourceId, model, total, at), task, run,
           if Blank(st.sourceType) then "agent" else st.sourceType, st.sourceId, SafeSourceName(st.sourceType),
           model, total, st.input, st.cached, st.output, at)
  }

  function Cleared(st: Stream): Stream {
    st.(input := 0, cached := 0, output := 0)
  }

  function Consume(st: Stream, l: Line, at: int, task: string): (Stream, Option<Record>) {
    if l.model.Some? then
      var run := if !st.external || st.run.NoId?
                 then ModelRun(task, st.sourceType, st.sourceId, st.sourceName, at, l.model.value) else st.run;
      (Cleared(st).(model := l.model.value, run := run, expectTotal := false), None)
    else if l.detail.Some? then
      match l.detail.value.0
      case Input => (st.(input := l.detail.value.1), None)
      case CachedInput => (st.(cached := l.detail.value.1), None)
      case Output => (st.(output := l.detail.value.1), None)
      case Total => (Cleared(st), Some(BuildRecord(st, task, l.detail.value.1, at)))
    else if l.used then (st.(expectTotal := true), None)
    else if st.expectTotal && l.number.Some? then
      (Cleared(st).(expectTotal := false), Some(BuildRecord(st, task, l.number.value, at)))
    else (st, None)
  }

  class StreamState {
    var st: Stream

    constructor (st: Stream)
      ensures this.st == st
    {
      this.st := st;
    }

    method ConsumeLine(l: Line, at: int, task: string) returns (record: Option<Record>)
      modifies this
      ensures (st, record) == Consume(old(st), l, at, task)
    {
      record := None;
      if l.model.Some? {
        st := st.(model := l.model.value);
        if !st.external || st.run.NoId? {
          st := st.(run := ModelRun(task, st.sourceType, st.sourceId, st.sourceName, at, l.model.value));
        }
        st := st.(expectTotal := false);
        st := st.(input := 0, cached := 0, output := 0);
        return;
      }
      if l.detail.Some? {
        var n := l.detail.value.1;
        match l.detail.value.0 {
          case Input => st := st.(input := n);
          case CachedInput => st := st.(cached := n);
          case Output => st := st.(output := n);
          case Total => record := Build(n, at, task);
        }
        return;
      }
      if l.used {
        st := st.(expectTotal := true);
        return;
      }
      if st.expectTotal && l.number.Some? {
        st := st.(expectTotal := false);
        record := Build(l.number.value, at, task);
      }
    }

    method Build(n: nat, at: int, task: string) returns (record: Option<Record>)
      modifies this
      ensures record == Some(BuildRecord(old(st), task, n, at))
      ensures st == Cleared(old(st))
    {
      record := Some(BuildRecord(st, task, n, at));
      st := st.(input := 0, cached := 0, output := 0);
    }
  }

  // ---- what a record counts ----

  datatype Fed = Fed(st: Stream, records: seq<Option<Record>>)

  // A stream after some lines, with what each of them yielded.
  function Feed(st: Stream, lines: seq<Line>, at: int, task: string): (fed: Fed)
    ensures |fed.records| == |lines|
  {
    if lines == [] then Fed(st, [])
    else
      var n := |lines| - 1;
      var before := Feed(st, lines[..n], at, task);
      var (st1, record) := Consume(before.st, lines[n], at, task);
      Fed(st1, before.records + [record])
  }

  // A model line or a record starts the counts afresh.
  predicate StartsAfresh(l: Line, record: Option<Record>) {
    l.model.Some? || record.Some?
  }

  // The window of the counts begins at `from` and holds no fresh start.
  ghost predicate IsWindow(st: Stream, lines: seq<Line>, at: int, task: string, from: nat)
    requires from <= |lines|
  {
    var records := Feed(st, lines, at, task).records;
    && (if from == 0 then st == Cleared(st) else StartsAfresh(lines[from - 1], records[from - 1]))
    && forall k :: from <= k < |lines| ==> !StartsAfresh(lines[k], records[k])
  }

  // The last count of a kind, or 0.
  function LastCount(lines: seq<Line>, kind: Detail): nat {
    if lines == [] then 0
    else
      var l := lines[|lines| - 1];
      if l.detail.Some? && l.detail.value.0 == kind then l.detail.value.1 else LastCount(lines[..|lines| - 1], kind)
  }

  // A line that starts nothing afresh sets at most the count it states.
  lemma {:induction false} QuietLineCounts(st: Stream, l: Line, at: int, task: string)
    requires !StartsAfresh(l, Consume(st, l, at, task).1)
    ensures var st1 := Consume(st, l, at, task).0;
      && st1.input == (if l.detail.Some? && l.detail.value.0 == Input then l.detail.value.1 else st.input)
      && st1.cached == (if l.detail.Some? && l.detail.value.0 == CachedInput then l.detail.value.1 else st.cached)
      && st1.output == (if l.detail.Some? && l.detail.value.0 == Output then l.detail.value.1 else st.output)
  {
  }

  lemma {:induction false} FeedGrows(st: Stream, lines: seq<Line>, l: Line, at: int, task: string)
    ensures var before, after := Feed(st, lines, at, task), Feed(st, lines + [l], at, task);
      && after.st == Consume(before.st, l, at, task).0
      && after.records == before.records + [Consume(before.st, l, at, task).1]
  {
    assert (lines + [l])[..|lines|] == lines;
  }

  lemma {:induction false} LastCountGrows(lines: seq<Line>, l: Line, kind: Detail)
    ensures LastCount(lines + [l], kind) ==
      if l.detail.Some? && l.detail.value.0 == kind then l.detail.value.1 else LastCount(lines, kind)
  {
    assert (lines + [l])[..|lines|] == lines;
  }

  lemma {:induction false} WindowShrinks(st: Stream, lines: seq<Line>, l: Line, at: int, task: string, from: nat)
    requires from <= |lines| && IsWindow(st, lines + [l], at, task, from)
    ensures IsWindow(st, lines, at, task, from)
    ensures !StartsAfresh(l, Consume(Feed(st, lines, at, task).st, l, at, task).1)
  {
    FeedGrows(st, lines, l, at, task);
    var more, records := lines + [l], Feed(st, lines + [l], at, task).records;
    assert forall k :: 0 <= k < |lines| ==> more[k] == lines[k] && records[k] == Feed(st, lines, at, task).records[k];
    assert more[|lines|] == l && !StartsAfresh(more[|lines|], records[|lines|]);
  }

  lemma {:induction false} FreshStartClears(st: Stream, lines: seq<Line>, at: int, task: string)
    requires IsWindow(st, lines, at, task, |lines|)
    ensures Feed(st, lines, at, task).st == Cleared(Feed(st, lines, at, task).st)
  {
  }

  ghost predicate CountsMatch(st: Stream, window: seq<Line>) {
    && st.input == LastCount(window, Input) && st.cached == LastCount(window, CachedInput)
    && st.output == LastCount(window, Output)
  }

  lemma {:induction false} CountsMatchOneMore(st: Stream, window: seq<Line>, l: Line, at: int, task: string)
    requires CountsMatch(st, window) && !StartsAfresh(l, Consume(st, l, at, task).1)
    ensures CountsMatch(Consume(st, l, at, task).0, window + [l])
  {
    QuietLineCounts(st, l, at, task);
    LastCountGrows(window, l, Input);
    LastCountGrows(window, l, CachedInput);
    LastCountGrows(window, l, Output);
  }

  lemma {:induction false} CountsAreLastSeen(st: Stream, lines: seq<Line>, at: int, task: string, from: nat)
    requires from <= |lines| && IsWindow(st, lines, at, task, from)
    ensures CountsMatch(Feed(st, lines, at, task).st, lines[from..])
  {
    if from == |lines| {
      FreshStartClears(st, lines, at, task);
    } else {
      var n := |lines| - 1;
      var before, l := lines[..n], lines[n];
      assert lines == before + [l];
      WindowShrinks(st, before, l, at, task, from);
      CountsAreLastSeen(st, before, at, task, from);
      FeedGrows(st, before, l, at, task);
      CountsMatchOneMore(Feed(st, before, at, task).st, before[from..], l, at, task);
      assert lines[from..] == before[from..] + [l];
    }
  }

  // A record carries the last counts of its window, whatever the lines between,
  // and the stated total, or the sum of the counts when none or 0 is stated.
  lemma {:induction false} RecordCountsItsWindow(st: Stream, lines: seq<Line>, at: int, task: string, from: nat,
        l: Line)
    requires from <= |lines| && IsWindow(st, lines, at, task, from)
    ensures var (after, record) := Consume(Feed(st, lines, at, task).st, l, at, task);
      record.Some? ==>
        var r, window := record.value, lines[from..];
        && r.input == LastCount(window, Input) && r.cached == LastCount(window, CachedInput)
        && r.output == LastCount(window, Output)
        && r.total == (if Stated(l) > 0 then Stated(l) else r.input + r.cached + r.output)
        && after == Cleared(after)
  {
    CountsAreLastSeen(st, lines, at, task, from);
  }

  function Stated(l: Line): nat {
    if l.detail.Some? then l.detail.value.1 else if l.number.Some? then l.number.value else 0
  }

  // ---- the reader, a whole file ----

  type Key = string

  function KeyOf(h: Header): Key {
    if h.run != "" then h.run else h.sourceType + ":" + h.sourceId
  }

  function Opening(h: Header): Stream {
    Stream(if h.run == "" then NoId else Given(h.run), h.run != "", h.sourceType, h.sourceId, h.sourceName,
           "", false, 0, 0, 0)
  }

  datatype Parsed = Parsed(streams: map<Key, Stream>, records: seq<(Key, Record)>)

  function StreamAt(streams: map<Key, Stream>, h: Header): Stream {
    if KeyOf(h) in streams then streams[KeyOf(h)] else Opening(h)
  }

  function Advance(p: Parsed, e: Event): Parsed {
    var key := KeyOf(e.header);
    var (st, record) := Consume(StreamAt(p.streams, e.header), e.line, e.at, e.header.task);
    Parsed(p.streams[key := st], if record.Some? then p.records + [(key, record.value)] else p.records)
  }

  function Parse(events: seq<Event>): Parsed {
    if events == [] then Parsed(map[], []) else Advance(Parse(events[..|events| - 1]), events[|events| - 1])
  }

  method ParseUsageFile(events: seq<Event>) returns (records: seq<Record>)
    ensures records ==
      seq(|Parse(events).records|, i requires 0 <= i < |Parse(events).records| => Parse(events).records[i].1)
  {
    var streams: map<Key, Stream> := map[];
    var tagged: seq<(Key, Record)> := [];
    records := [];
    for i := 0 to |events|
      invariant Parse(events[..i]) == Parsed(streams, tagged)
      invariant |records| == |tagged| && forall j :: 0 <= j < |tagged| ==> records[j] == tagged[j].1
    {
      var e := events[i];
      assert events[..i + 1][..i] == events[..i];
      var key := KeyOf(e.header);
      var st := if key in streams then streams[key] else Opening(e.header);
      var cell := new StreamState(st);
      var record := cell.ConsumeLine(e.line, e.at, e.header.task);
      streams := streams[key := cell.st];
      if record.Some? {
        records := records + [record.value];
        tagged := tagged + [(key, record.value)];
      }
    }
    assert events[..|events|] == events;
  }

  // ---- taking the runs apart ----

  function OfKey(events: seq<Event>, key: Key): seq<Event> {
    if events == [] then []
    else
      var n := |events| - 1;
      if KeyOf(events[n].header) == key then OfKey(events[..n], key) + [events[n]] else OfKey(events[..n], key)
  }

  function RecordsOf(records: seq<(Key, Record)>, key: Key): seq<(Key, Record)> {
    if records == [] then []
    else
      var n := |records| - 1;
      if records[n].0 == key then RecordsOf(records[..n], key) + [records[n]] else RecordsOf(records[..n], key)
  }

  lemma {:induction false} RecordsOfAppend(records: seq<(Key, Record)>, r: (Key, Record), key: Key)
    ensures RecordsOf(records + [r], key) ==
      if r.0 == key then RecordsOf(records, key) + [r] else RecordsOf(records, key)
  {
    assert (records + [r])[..|records|] == records;
  }

  // The records of one key are those of a file with only that key's events,
  // however the runs were interleaved.
  lemma {:induction false} Demultiplexed(events: seq<Event>, key: Key)
    ensures RecordsOf(Parse(events).records, key) == Parse(OfKey(events, key)).records
    ensures (key in Parse(events).streams) == (key in Parse(OfKey(events, key)).streams)
    ensures key in Parse(events).streams ==> Parse(events).streams[key] == Parse(OfKey(events, key)).streams[key]
  {
    if events != [] {
      var n := |events| - 1;
      var e := events[n];
      Demultiplexed(events[..n], key);
      var before, alone := Parse(events[..n]), OfKey(events[..n], key);
      var (st, record) := Consume(StreamAt(before.streams, e.header), e.line, e.at, e.header.task);
      if record.Some? {
        RecordsOfAppend(before.records, (KeyOf(e.header), record.value), key);
      }
      if KeyOf(e.header) == key {
        assert (alone + [e])[..|alone|] == alone;
      } else {
        assert OfKey(events, key) == alone;
      }
    }
  }

  // ---- filtering loses nothing ----

  // What the recorders of all agents write, in the order of the lines.
  datatype Written = Written(expects: map<Key, bool>, events: seq<Event>)

  function ExpectAt(expects: map<Key, bool>, key: Key): bool {
    key in expects && expects[key]
  }

  function Write(raw: seq<Event>): Written {
    if raw == [] then Written(map[], [])
    else
      var n := |raw| - 1;
      var w := Write(raw[..n]);
      var e := raw[n];
      var key := KeyOf(e.header);
      var wanted := ExpectAt(w.expects, key);
      Written(w.expects[key := Expects(wanted, e.line)], if Writes(wanted, e.line) then w.events + [e] else w.events)
  }

  // A recorder stamps all its lines alike.
  ghost predicate HeadersAgree(raw: seq<Event>) {
    forall i, j :: 0 <= i < |raw| && 0 <= j < |raw| && KeyOf(raw[i].header) == KeyOf(raw[j].header) ==>
      raw[i].header == raw[j].header
  }

  ghost predicate HeaderFits(raw: seq<Event>, e: Event) {
    forall i :: 0 <= i < |raw| && KeyOf(raw[i].header) == KeyOf(e.header) ==> raw[i].header == e.header
  }

  lemma {:induction false} HeadersFit(raw: seq<Event>)
    requires HeadersAgree(raw) && raw != []
    ensures HeadersAgree(raw[..|raw| - 1]) && HeaderFits(raw[..|raw| - 1], raw[|raw| - 1])
  {
    var before := raw[..|raw| - 1];
    assert forall i :: 0 <= i < |before| ==> before[i] == raw[i];
  }

  // Nothing of this key has been written yet, and nothing has been learnt.
  ghost predicate StillOpening(raw: seq<Event>, key: Key, st: Stream) {
    exists i :: 0 <= i < |raw| && KeyOf(raw[i].header) == key && st == Opening(raw[i].header)
  }

  // The two automata are not in step: after "tokens used: 5" the recorder
  // expects a number and the reader does not.  What holds is an implication.
  ghost predicate Simulates(raw: seq<Event>, all: Parsed, w: Written, kept: Parsed) {
    && all.records == kept.records
    && (forall key :: key in kept.streams ==> key in all.streams && all.streams[key] == kept.streams[key])
    && OthersAreOpening(raw, all, kept)
    && (forall key :: key in all.streams && all.streams[key].expectTotal ==> ExpectAt(w.expects, key))
  }

  ghost predicate OthersAreOpening(raw: seq<Event>, all: Parsed, kept: Parsed) {
    forall key :: key in all.streams && key !in kept.streams ==> StillOpening(raw, key, all.streams[key])
  }

  lemma {:induction false} OthersStayOpening(raw: seq<Event>, e: Event, all: Parsed, kept: Parsed)
    requires OthersAreOpening(raw, all, kept)
    ensures OthersAreOpening(raw + [e], Advance(all, e), Advance(kept, e))
  {
    StillOpeningGrows(raw, e);
  }

  lemma {:induction false} DroppedLineIsSilent(st: Stream, wanted: bool, e: Event)
    requires st.expectTotal ==> wanted
    requires !Writes(wanted, e.line)
    ensures Consume(st, e.line, e.at, e.header.task) == (st, None)
  {
  }

  lemma {:induction false} ExpectationIsKept(st: Stream, wanted: bool, e: Event)
    requires st.expectTotal ==> wanted
    ensures Consume(st, e.line, e.at, e.header.task).0.expectTotal ==> Expects(wanted, e.line)
  {
  }

  lemma {:induction false} ParsePrefix(events: seq<Event>, e: Event)
    ensures Parse(events + [e]) == Advance(Parse(events), e)
  {
    assert (events + [e])[..|events|] == events;
  }

  lemma {:induction false} SameStream(raw: seq<Event>, e: Event, all: Parsed, w: Written, kept: Parsed)
    requires Simulates(raw, all, w, kept)
    requires HeaderFits(raw, e)
    ensures StreamAt(all.streams, e.header) == StreamAt(kept.streams, e.header)
    ensures StreamAt(all.streams, e.header).expectTotal ==> ExpectAt(w.expects, KeyOf(e.header))
  {
  }

  lemma {:induction false} StillOpeningGrows(raw: seq<Event>, e: Event)
    ensures forall k, st :: StillOpening(raw, k, st) ==> StillOpening(raw + [e], k, st)
    ensures StillOpening(raw + [e], KeyOf(e.header), Opening(e.header))
  {
    var more := raw + [e];
    forall k, st | StillOpening(raw, k, st)
      ensures StillOpening(more, k, st)
    {
      var i :| 0 <= i < |raw| && KeyOf(raw[i].header) == k && st == Opening(raw[i].header);
      assert more[i] == raw[i];
    }
    assert more[|raw|] == e;
  }

  function Recorded(w: Written, e: Event): Written {
    w.(expects := w.expects[KeyOf(e.header) := Expects(ExpectAt(w.expects, KeyOf(e.header)), e.line)])
  }

  lemma {:induction false} WrittenLineSimulates(raw: seq<Event>, e: Event, all: Parsed, w: Written, kept: Parsed)
    requires Simulates(raw, all, w, kept)
    requires HeaderFits(raw, e)
    ensures Simulates(raw + [e], Advance(all, e), Recorded(w, e), Advance(kept, e))
  {
    SameStream(raw, e, all, w, kept);
    ExpectationIsKept(StreamAt(all.streams, e.header), ExpectAt(w.expects, KeyOf(e.header)), e);
    OthersStayOpening(raw, e, all, kept);
  }

  lemma {:induction false} DroppedLineSimulates(raw: seq<Event>, e: Event, all: Parsed, w: Written, kept: Parsed)
    requires Simulates(raw, all, w, kept)
    requires HeaderFits(raw, e)
    requires !Writes(ExpectAt(w.expects, KeyOf(e.header)), e.line)
    ensures Simulates(raw + [e], Advance(all, e), Recorded(w, e), kept)
  {
    SameStream(raw, e, all, w, kept);
    ExpectationIsKept(StreamAt(all.streams, e.header), ExpectAt(w.expects, KeyOf(e.header)), e);
    DroppedLineIsSilent(StreamAt(all.streams, e.header), ExpectAt(w.expects, KeyOf(e.header)), e);
    StillOpeningGrows(raw, e);
  }

  lemma {:induction false} WritePrefix(raw: seq<Event>, e: Event)
    ensures var w := Write(raw);
      Write(raw + [e]) ==
      if Writes(ExpectAt(w.expects, KeyOf(e.header)), e.line)
      then Recorded(w, e).(events := w.events + [e]) else Recorded(w, e)
  {
    assert (raw + [e])[..|raw|] == raw;
  }

  lemma {:induction false} SimulatesIgnoresEvents(raw: seq<Event>, all: Parsed, w: Written, kept: Parsed,
        events: seq<Event>)
    requires Simulates(raw, all, w, kept)
    ensures Simulates(raw, all, w.(events := events), kept)
  {
  }

  // Reading all lines simulates reading those that were written.
  ghost predicate FilterHolds(raw: seq<Event>) {
    exists kept :: kept == Parse(Write(raw).events) && Simulates(raw, Parse(raw), Write(raw), kept)
  }

  lemma {:induction false} FilterExtends(raw: seq<Event>, before: seq<Event>, e: Event)
    requires raw == before + [e] && FilterHolds(before) && HeaderFits(before, e)
    ensures FilterHolds(raw)
  {
    var all, w := Parse(before), Write(before);
    var kept := Parse(w.events);
    ParsePrefix(before, e);
    ParsePrefix(w.events, e);
    WritePrefix(before, e);
    if Writes(ExpectAt(w.expects, KeyOf(e.header)), e.line) {
      WrittenLineSimulates(before, e, all, w, kept);
      SimulatesIgnoresEvents(raw, Advance(all, e), Recorded(w, e), Advance(kept, e), w.events + [e]);
    } else {
      DroppedLineSimulates(before, e, all, w, kept);
    }
  }

  lemma {:induction false} FilterStarts()
    ensures FilterHolds([])
  {
    assert Simulates([], Parse([]), Write([]), Parse(Write([]).events));
  }

  lemma {:induction false} FilterSimulates(raw: seq<Event>)
    requires HeadersAgree(raw)
    ensures FilterHolds(raw)
  {
    if raw == [] {
      FilterStarts();
    } else {
      var before, e := raw[..|raw| - 1], raw[|raw| - 1];
      HeadersFit(raw);
      FilterSimulates(before);
      assert raw == before + [e];
      FilterExtends(raw, before, e);
    }
  }

  // Reading back what the recorders wrote yields, in the same order, the records
  // that reading every cleaned line would have yielded.
  lemma {:induction false} FilteringLosesNothing(raw: seq<Event>)
    requires HeadersAgree(raw)
    ensures Parse(Write(raw).events).records == Parse(raw).records
  {
    FilterSimulates(raw);
  }

  // The flags of the two automata do differ.
  lemma {:induction false} ExpectationsDiffer(h: Header)
    ensures var e := Event(0, h, RawLine(None, Some((Total, 5)), true, None));
      && ExpectAt(Write([e]).expects, KeyOf(h))
      && !Parse([e]).streams[KeyOf(h)].expectTotal
  {
    var e := Event(0, h, RawLine(None, Some((Total, 5)), true, None));
    assert [e][..0] == [];
    assert Parse([e]) == Advance(Parse([]), e);
  }
}
