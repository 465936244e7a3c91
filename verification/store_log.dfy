/** The Gardener log of a task: a bounded buffer in memory beside an append-only
    file, and the reader that rebuilds the buffer from the file. */
module StoreLog {
  import opened Options
  import opened Sequences
  import opened Text
  import opened Stamps

  type Instant = m: Moment | IsMoment(m) witness Moment(1970, 1, 1, 0, 0, 0, 0)

  const LONGEST := 500
  const KEPT := 80

  // ---- lines ----

  function Truncated(line: string): string {
    if |line| > LONGEST then line[..LONGEST] + "..." else line
  }

  // compactProgressLine
  function Compact(raw: string): string {
    var line := Trim(raw);
    if line == "" then "" else Truncated(Squeeze(line))
  }

  // compactProgressLine's non-empty results have this form.
  ghost predicate IsLine(line: string) {
    line != "" && Normal(line) && |line| <= LONGEST + 3
  }

  lemma {:induction false} TruncatedIsNormal(line: string)
    requires Normal(line)
    ensures Normal(Truncated(line))
  {
  }

  lemma {:induction false} CompactIsLine(raw: string)
    ensures if Blank(raw) then Compact(raw) == "" else IsLine(Compact(raw))
  {
    TrimKeepsBlank(raw);
    TrimIsEmpty(raw);
    SqueezeIsNormal(Trim(raw));
    TruncatedIsNormal(Squeeze(Trim(raw)));
  }

  lemma {:induction false} CompactOfNormal(line: string)
    requires Normal(line)
    ensures Compact(line) == Truncated(line)
  {
    TrimOfNormal(line);
    SqueezeOfSpaced(line);
  }

  // A compacted line has the words of the text, however many lines it had, with one
  // blank between them, and is cut after 500 characters.
  lemma {:induction false} CompactOfWords(lead: string, words: seq<string>, gaps: seq<string>)
    requires Blank(lead) && Separates(words, gaps)
    ensures var line := Glue(words, Blanks(|words|));
      Compact(lead + Glue(words, gaps)) == if |line| > 500 then line[..500] + "..." else line
  {
    var raw := lead + Glue(words, gaps);
    SqueezeOfBlankStart(lead, Glue(words, gaps));
    SqueezeOfWords(words, gaps);
    SqueezeOfTrimLeft(raw);
    SqueezeOfTrimRight(TrimLeft(raw));
    SqueezeIsNormal(Trim(raw));
    TrimIsEmpty(Trim(raw));
  }

  // stripProgressTime
  function StripTime(line: string): string {
    if |line| > 9 && line[2] == ':' && line[5] == ':' && line[8] == ' ' then line[9..] else line
  }

  // ---- entries ----

  datatype Entry = Entry(at: Instant, line: string)

  // As kept in memory.
  function Shown(e: Entry): string {
    Clock(e.at) + " " + e.line
  }

  // As written to the file, without the line ends around it.
  function Logged(e: Entry): string {
    "[" + Stamp(e.at) + "] " + e.line
  }

  function LogText(e: Entry): string {
    "\n" + Logged(e) + "\n"
  }

  lemma {:induction false} LogTextIs(e: Entry)
    ensures LogText(e) == "\n[" + Stamp(e.at) + "] " + e.line + "\n"
  {
  }

  lemma {:induction false} StripOfShown(e: Entry)
    requires e.line != ""
    ensures StripTime(Shown(e)) == e.line
  {
    assert Shown(e)[9..] == e.line;
  }

  function Recent<T>(s: seq<T>): seq<T> {
    if |s| > KEPT then s[|s| - KEPT..] else s
  }

  // ---- appending, and whole histories ----

  function NextProgress(progress: seq<string>, e: Entry): seq<string> {
    if progress == [] || StripTime(progress[|progress| - 1]) != e.line then Recent(progress + [Shown(e)]) else progress
  }

  ghost predicate AreLines(entries: seq<Entry>) {
    forall k :: 0 <= k < |entries| ==> IsLine(entries[k].line)
  }

  function ProgressAfter(entries: seq<Entry>): seq<string> {
    if entries == [] then [] else NextProgress(ProgressAfter(entries[..|entries| - 1]), entries[|entries| - 1])
  }

  function LogAfter(entries: seq<Entry>): string {
    if entries == [] then "" else LogAfter(entries[..|entries| - 1]) + LogText(entries[|entries| - 1])
  }

  // Buffer and file after the appends `entries` to a new log.
  ghost predicate Records(entries: seq<Entry>, progress: seq<string>, log: string) {
    AreLines(entries) && progress == ProgressAfter(entries) && log == LogAfter(entries)
  }

  lemma {:induction false} CompactIsBlank(raw: string)
    ensures Compact(raw) == "" <==> Blank(raw)
  {
    CompactIsLine(raw);
  }

  lemma {:induction false} HistoryGrows(entries: seq<Entry>, progress: seq<string>, log: string, raw: string, e: Entry)
    requires e.line == Compact(raw) != ""
    ensures Records(entries, progress, log) ==>
      Records(entries + [e], NextProgress(progress, e), log + LogText(e))
  {
    CompactIsLine(raw);
    assert (entries + [e])[..|entries|] == entries;
  }

  class TaskLog {
    var progress: seq<string>
    var log: string
    var lastProgressAt: Option<Instant>
    ghost var entries: seq<Entry>

    // The state after appending `entries` to a new log.
    ghost predicate Valid()
      reads this
    {
      Records(entries, progress, log)
    }

    constructor ()
      ensures Valid() && entries == [] && lastProgressAt == None
    {
      progress, log, lastProgressAt, entries := [], "", None, [];
    }

    method AppendGardenerLog(raw: string, now: Instant)
      modifies this
      ensures Blank(raw) ==> unchanged(this)
      ensures !Blank(raw) ==> progress == NextProgress(old(progress), Entry(now, Compact(raw)))
      ensures !Blank(raw) ==> log == old(log) + LogText(Entry(now, Compact(raw)))
      ensures !Blank(raw) ==> log == old(log) + ("\n[" + Stamp(now) + "] " + Compact(raw) + "\n")
      ensures !Blank(raw) ==> lastProgressAt == Some(now) && entries == old(entries) + [Entry(now, Compact(raw))]
      ensures old(Valid()) ==> Valid()
    {
      CompactIsBlank(raw);
      var line := Compact(raw);
      if line == "" {
        return;
      }
      var e := Entry(now, line);
      HistoryGrows(entries, progress, log, raw, e);
      progress := Remember(progress, e);
      lastProgressAt := Some(now);
      LogTextIs(e);
      log := log + LogText(e);
      entries := entries + [e];
    }
  }

  // The bounded buffer takes an entry unless it repeats the last one.
  method Remember(progress: seq<string>, e: Entry) returns (more: seq<string>)
    ensures more == NextProgress(progress, e)
  {
    more := progress;
    if |progress| == 0 || StripTime(progress[|progress| - 1]) != e.line {
      more := progress + [Shown(e)];
      if |more| > 80 {
        more := more[|more| - 80..];
      }
    }
  }

  // The history with adjacent repeats collapsed onto the first.
  function Collapse(entries: seq<Entry>): seq<Entry> {
    if entries == [] then []
    else
      var n := |entries| - 1;
      if n > 0 && entries[n - 1].line == entries[n].line
        then Collapse(entries[..n]) else Collapse(entries[..n]) + [entries[n]]
  }

  function AllShown(entries: seq<Entry>): seq<string> {
    seq(|entries|, k requires 0 <= k < |entries| => Shown(entries[k]))
  }

  lemma {:induction false} CollapseEnds(entries: seq<Entry>)
    requires entries != []
    ensures Collapse(entries) != []
    ensures Collapse(entries)[|Collapse(entries)| - 1].line == entries[|entries| - 1].line
  {
    var n := |entries| - 1;
    if n > 0 {
      CollapseEnds(entries[..n]);
    }
  }

  lemma {:induction false} RecentGrows<T>(s: seq<T>, x: T)
    ensures Recent(Recent(s) + [x]) == Recent(s + [x])
    ensures s != [] ==> Recent(s) != [] && Recent(s)[|Recent(s)| - 1] == s[|s| - 1]
  {
  }

  // One more entry against the end of the buffer.
  lemma {:induction false} NextOfRecent(shown: seq<string>, e: Entry)
    ensures NextProgress(Recent(shown), e) ==
      if shown != [] && StripTime(shown[|shown| - 1]) == e.line then Recent(shown) else Recent(shown + [Shown(e)])
  {
    RecentGrows(shown, Shown(e));
  }

  ghost predicate NoneEmpty(entries: seq<Entry>) {
    forall k :: 0 <= k < |entries| ==> entries[k].line != ""
  }

  // What the buffer compares by text, the history compares by line.
  lemma {:induction false} CollapsedStep(entries: seq<Entry>)
    requires NoneEmpty(entries) && entries != []
    ensures var n := |entries| - 1;
      var shown, e := AllShown(Collapse(entries[..n])), entries[n];
      AllShown(Collapse(entries)) ==
        if shown != [] && StripTime(shown[|shown| - 1]) == e.line then shown else shown + [Shown(e)]
  {
    var n := |entries| - 1;
    var collapsed := Collapse(entries[..n]);
    if n > 0 {
      CollapseEnds(entries[..n]);
      LastShown(collapsed);
    }
    AllShownGrows(collapsed, entries[n]);
  }

  lemma {:induction false} LastShown(entries: seq<Entry>)
    requires entries != [] && entries[|entries| - 1].line != ""
    ensures AllShown(entries) != []
    ensures StripTime(AllShown(entries)[|entries| - 1]) == entries[|entries| - 1].line
  {
    StripOfShown(entries[|entries| - 1]);
  }

  lemma {:induction false} AllShownGrows(entries: seq<Entry>, e: Entry)
    ensures AllShown(entries + [e]) == AllShown(entries) + [Shown(e)]
  {
  }

  // The buffer is the end of the collapsed history.
  lemma {:induction false} BufferRefinesHistory(entries: seq<Entry>)
    requires NoneEmpty(entries)
    ensures ProgressAfter(entries) == Recent(AllShown(Collapse(entries)))
  {
    if entries != [] {
      var n := |entries| - 1;
      BufferRefinesHistory(entries[..n]);
      NextOfRecent(AllShown(Collapse(entries[..n])), entries[n]);
      CollapsedStep(entries);
    }
  }

  // ---- reading the file ----

  datatype Pieces = Pieces(lines: seq<string>, rest: string)

  // The finished non-empty lines, and what follows the last line end.
  function Split(s: string): Pieces {
    if s == "" then Pieces([], "")
    else
      var before, c := Split(s[..|s| - 1]), s[|s| - 1];
      if c != '\n' then Pieces(before.lines, before.rest + [c])
      else Pieces(if before.rest != "" then before.lines + [before.rest] else before.lines, "")
  }

  function Lines(s: string): seq<string> {
    if Split(s).rest != "" then Split(s).lines + [Split(s).rest] else Split(s).lines
  }

  lemma {:induction false} SplitStep(s: string, c: char)
    ensures Split(s + [c]) ==
      if c == '\n' then Pieces(Lines(s), "") else Pieces(Split(s).lines, Split(s).rest + [c])
  {
    assert (s + [c])[..|s|] == s;
  }

  // The loop of stringsSplitLines before position i.
  ghost predicate SplitUpTo(s: string, i: nat, start: nat, out: seq<string>) {
    start <= i <= |s| && Split(s[..i]) == Pieces(out, s[start..i])
  }

  lemma {:induction false} TakeOneMore(s: string, i: nat, start: nat)
    requires start <= i < |s|
    ensures s[..i + 1] == s[..i] + [s[i]] && s[start..i + 1] == s[start..i] + [s[i]]
  {
  }

  lemma {:induction false} SplitTurn(s: string, i: nat, start: nat, out: seq<string>)
    requires SplitUpTo(s, i, start, out) && i < |s|
    ensures if s[i] != '\n' then SplitUpTo(s, i + 1, start, out)
      else SplitUpTo(s, i + 1, i + 1, if s[start..i] != "" then out + [s[start..i]] else out)
  {
    TakeOneMore(s, i, start);
    SplitStep(s[..i], s[i]);
  }

  lemma {:induction false} SplitStarts(s: string)
    ensures SplitUpTo(s, 0, 0, [])
  {
  }

  lemma {:induction false} SplitEnds(s: string, start: nat, out: seq<string>)
    requires SplitUpTo(s, |s|, start, out)
    ensures Lines(s) == if start < |s| then out + [s[start..]] else out
  {
    assert s[..|s|] == s && s[start..|s|] == s[start..];
  }

  method StringsSplitLines(s: string) returns (out: seq<string>)
    ensures out == Lines(s)
  {
    out := [];
    var start := 0;
    SplitStarts(s);
    for i := 0 to |s|
      invariant SplitUpTo(s, i, start, out)
    {
      SplitTurn(s, i, start, out);
      if s[i] == '\n' {
        var line := s[start..i];
        if line != "" {
          out := out + [line];
        }
        start := i + 1;
      }
    }
    SplitEnds(s, start, out);
    if start < |s| {
      out := out + [s[start..]];
    }
  }

  function IndexOf(s: string, c: char): (i: int)
    ensures -1 <= i < |s|
    ensures if i < 0 then c !in s else s[i] == c && c !in s[..i]
  {
    if s == "" then -1
    else if s[0] == c then 0
    else
      var j := IndexOf(s[1..], c);
      assert j >= 0 ==> s[..j + 1] == [s[0]] + s[1..][..j];
      if j < 0 then -1 else j + 1
  }

  // A leading stamp becomes a clock time.
  function Restamped(line: string): string {
    if line == "" || line[0] != '[' || IndexOf(line, ']') <= 1 then line
    else
      var end := IndexOf(line, ']');
      var body := Trim(line[end + 1..]);
      match Read(line[1..end])
      case Some(ts) => Clock(ts) + " " + body
      case None => body
  }

  function ReadLine(raw: string): string {
    var line := Trim(raw);
    if line == "" then "" else Compact(Restamped(line))
  }

  function AllRead(lines: seq<string>): seq<string> {
    Map(lines, ReadLine)
  }

  // The lines that are not empty.
  function Present(lines: seq<string>): seq<string> {
    if lines == [] then []
    else
      var n := |lines| - 1;
      if lines[n] != "" then Present(lines[..n]) + [lines[n]] else Present(lines[..n])
  }

  function Reloaded(log: string): seq<string> {
    Recent(Present(AllRead(Lines(log))))
  }

  // The body of the loop over the lines.
  method ReadProgressLine(raw: string) returns (line: string)
    ensures line == ReadLine(raw)
  {
    line := Trim(raw);
    if line == "" { return; }
    if line[0] == '[' {
      var end := IndexOf(line, ']');
      if end > 1 {
        var stamp := line[1..end];
        var body := Trim(line[end + 1..]);
        match Read(stamp) {
          case Some(ts) => line := Clock(ts) + " " + body;
          case None => line := body;
        }
      }
    }
    line := Compact(line);
  }

  method ReadGardenerProgress(log: string) returns (out: seq<string>)
    ensures out == Reloaded(log)
  {
    out := [];
    var raws := StringsSplitLines(log);
    for i := 0 to |raws|
      invariant out == Present(AllRead(raws[..i]))
    {
      assert AllRead(raws[..i + 1])[..i] == AllRead(raws[..i]);
      var line := ReadProgressLine(raws[i]);
      if line != "" {
        out := out + [line];
      }
    }
    assert raws[..|raws|] == raws;
    if |out| > 80 {
      out := out[|out| - 80..];
    }
  }

  // ---- reading what others wrote ----

  // Every line with its end.
  function Ended(lines: seq<string>): string {
    if lines == [] then "" else Ended(lines[..|lines| - 1]) + lines[|lines| - 1] + "\n"
  }

  function NonEmpty(lines: seq<string>): seq<string> {
    if lines == [] then []
    else
      NonEmpty(lines[..|lines| - 1]) + if lines[|lines| - 1] == "" then [] else [lines[|lines| - 1]]
  }

  // A text falls into its lines, the empty ones left out, whether or not the last
  // has an end.
  lemma {:induction false} LinesOfEnded(lines: seq<string>, last: string)
    requires '\n' !in last && forall k :: 0 <= k < |lines| ==> '\n' !in lines[k]
    ensures Split(Ended(lines)) == Pieces(NonEmpty(lines), "")
    ensures Lines(Ended(lines) + last) == NonEmpty(lines) + if last == "" then [] else [last]
  {
    if lines != [] {
      var n := |lines| - 1;
      LinesOfEnded(lines[..n], lines[n]);
      SplitOfLine(Ended(lines[..n]), lines[n]);
      SplitOfEnd(Ended(lines[..n]) + lines[n]);
    }
    SplitOfLine(Ended(lines), last);
    assert "" + last == last;
  }

  // The last 80.
  lemma {:induction false} RecentIsLast80<T>(s: seq<T>)
    ensures |s| <= 80 ==> Recent(s) == s
    ensures |s| > 80 ==> |Recent(s)| == 80 && forall k :: 0 <= k < 80 ==> Recent(s)[k] == s[|s| - 80 + k]
  {
  }

  // A line without a stamp in front is kept, cut to 500 characters.
  lemma {:induction false} ReadLineWithoutStamp(line: string)
    requires Normal(line) && line != "" && (line[0] != '[' || ']' !in line || line[1] == ']')
    ensures ReadLine(line) == if |line| > 500 then line[..500] + "..." else line
  {
    TrimOfNormal(line);
    if line[0] == '[' && ']' in line {
      assert line[..1] == "[" && ']' !in line[..1];
    }
    CompactOfNormal(line);
  }

  // A stamp that cannot be read is dropped.
  lemma {:induction false} ReadLineWithBadStamp(stamp: string, body: string)
    requires stamp != "" && ']' !in stamp && Read(stamp) == None
    requires Normal(body) && body != "" && Normal("[" + stamp + "] " + body)
    ensures ReadLine("[" + stamp + "] " + body) == if |body| > 500 then body[..500] + "..." else body
  {
    var line := "[" + stamp + "] " + body;
    TrimOfNormal(line);
    BracketAt(stamp, body);
    TrimOfNormal(body);
    CompactOfNormal(body);
  }

  // ---- reading back what was written ----

  lemma {:induction false} SplitOfLine(s: string, line: string)
    requires '\n' !in line
    ensures Split(s + line) == Pieces(Split(s).lines, Split(s).rest + line)
  {
    if line == "" {
      assert s + line == s;
    } else {
      var n := |line| - 1;
      SplitOfLine(s, line[..n]);
      DropLast(s, line);
      assert Split(s).rest + line == Split(s).rest + line[..n] + [line[n]];
    }
  }

  lemma {:induction false} SplitOfEnd(s: string)
    ensures Split(s + "\n") == Pieces(Lines(s), "")
  {
    SplitStep(s, '\n');
  }

  lemma {:induction false} SplitGrows(s: string, line: string)
    requires Split(s).rest == "" && line != "" && '\n' !in line
    ensures Split(s + ("\n" + line + "\n")) == Pieces(Split(s).lines + [line], "")
  {
    var begun := s + "\n";
    assert Split(begun) == Pieces(Split(s).lines, "") by {
      SplitOfEnd(s);
    }
    assert Split(begun + line) == Pieces(Split(s).lines, line) by {
      SplitOfLine(begun, line);
      assert "" + line == line;
    }
    SplitOfEnd(begun + line);
    Regroup(s, "\n" + line, "\n");
    Regroup(s, "\n", line);
  }

  // Lines written one by one, with the line ends the log puts around them.
  function Paragraphs(lines: seq<string>): string {
    if lines == [] then "" else Paragraphs(lines[..|lines| - 1]) + ("\n" + lines[|lines| - 1] + "\n")
  }

  lemma {:induction false} LinesOfParagraphs(lines: seq<string>)
    requires forall k :: 0 <= k < |lines| ==> lines[k] != "" && '\n' !in lines[k]
    ensures Split(Paragraphs(lines)) == Pieces(lines, "")
  {
    if lines != [] {
      var n := |lines| - 1;
      LinesOfParagraphs(lines[..n]);
      SplitGrows(Paragraphs(lines[..n]), lines[n]);
      assert lines == lines[..n] + [lines[n]];
    }
  }

  lemma {:induction false} PresentIsAll(lines: seq<string>)
    requires forall k :: 0 <= k < |lines| ==> lines[k] != ""
    ensures Present(lines) == lines
  {
    if lines != [] {
      var n := |lines| - 1;
      PresentIsAll(lines[..n]);
      assert lines == lines[..n] + [lines[n]];
    }
  }

  function AllLogged(entries: seq<Entry>): seq<string> {
    seq(|entries|, k requires 0 <= k < |entries| => Logged(entries[k]))
  }

  function Reread(e: Entry): string {
    Truncated(Shown(e))
  }

  function AllReread(entries: seq<Entry>): seq<string> {
    Map(entries, Reread)
  }

  lemma {:induction false} LogIsParagraphs(entries: seq<Entry>)
    ensures LogAfter(entries) == Paragraphs(AllLogged(entries))
  {
    if entries != [] {
      var n := |entries| - 1;
      LogIsParagraphs(entries[..n]);
      assert AllLogged(entries)[..n] == AllLogged(entries[..n]);
    }
  }

  lemma {:induction false} NormalAfterWord(w: string, line: string)
    requires Word(w) && line != "" && Normal(line)
    ensures Normal(w + " " + line)
    ensures '\n' !in w + " " + line
  {
    var s := w + " " + line;
    assert forall k :: 0 <= k < |s| ==> s[k] == if k < |w| then w[k] else if k == |w| then ' ' else line[k - |w| - 1];
  }

  lemma {:induction false} BracketsKeepNormal(stamp: string, line: string)
    requires Word(stamp) && line != "" && Normal(line)
    ensures var whole := "[" + stamp + "] " + line;
      Normal(whole) && whole != "" && '\n' !in whole
  {
    NormalAfterWord("[" + stamp + "]", line);
    assert "[" + stamp + "] " + line == ("[" + stamp + "]") + " " + line;
  }

  lemma {:induction false} LoggedIsNormal(e: Entry)
    requires IsLine(e.line)
    ensures Normal(Logged(e)) && Logged(e) != "" && '\n' !in Logged(e)
  {
    StampIsWord(e.at);
    BracketsKeepNormal(Stamp(e.at), e.line);
  }

  lemma {:induction false} StampIsWord(m: Moment)
    ensures Word(Clock(m)) && Word(Stamp(m))
  {
  }

  lemma {:induction false} RestampedOf(stamp: string, m: Moment, line: string)
    requires stamp != "" && ']' !in stamp && Read(stamp) == Some(m) && Normal(line)
    ensures Restamped("[" + stamp + "] " + line) == Clock(m) + " " + line
  {
    var whole := "[" + stamp + "] " + line;
    BracketAt(stamp, line);
    TrimOfNormal(line);
  }

  lemma {:induction false} BracketAt(stamp: string, line: string)
    requires ']' !in stamp
    ensures var whole, end := "[" + stamp + "] " + line, |stamp| + 1;
      && whole[0] == '[' && whole[1..end] == stamp && whole[end + 1..] == " " + line
      && IndexOf(whole, ']') == end
  {
    var whole, end := "[" + stamp + "] " + line, |stamp| + 1;
    assert whole[..end] == "[" + stamp && whole[end] == ']';
  }

  lemma {:induction false} ReadLineOfLogged(e: Entry)
    requires IsLine(e.line)
    ensures ReadLine(Logged(e)) == Reread(e) != ""
  {
    LoggedIsNormal(e);
    TrimOfNormal(Logged(e));
    StampHasNoBracket(e.at);
    ReadOfStamp(e.at);
    RestampedOf(Stamp(e.at), e.at, e.line);
    StampIsWord(e.at);
    NormalAfterWord(Clock(e.at), e.line);
    CompactOfNormal(Shown(e));
  }

  // A line that survives the second truncation, on which its clock counts.
  predicate Fits(line: string) {
    |line| <= 491 || (|line| == 494 && line[491..] == "...")
  }

  lemma {:induction false} FitsExactly(e: Entry)
    ensures Reread(e) == Shown(e) <==> Fits(e.line)
  {
    var s := Shown(e);
    if |s| == 503 {
      assert s[500..] == e.line[491..];
      assert s == s[..500] + s[500..];
      assert (s[..500] + "...")[500..] == "...";
    }
  }

  lemma {:induction false} RereadLog(entries: seq<Entry>)
    requires AreLines(entries)
    ensures Reloaded(LogAfter(entries)) == Recent(AllReread(entries))
  {
    var raws := AllLogged(entries);
    LogIsParagraphs(entries);
    forall k | 0 <= k < |raws|
      ensures raws[k] != "" && '\n' !in raws[k] && ReadLine(raws[k]) == AllReread(entries)[k] != ""
    {
      LoggedIsNormal(entries[k]);
      ReadLineOfLogged(entries[k]);
    }
    LinesOfParagraphs(raws);
    assert AllRead(raws) == AllReread(entries);
    PresentIsAll(AllReread(entries));
  }

  lemma {:induction false} RereadExactly(entries: seq<Entry>)
    ensures AllReread(entries) == AllShown(entries) <==> forall k :: 0 <= k < |entries| ==> Fits(entries[k].line)
  {
    var reread, shown := AllReread(entries), AllShown(entries);
    forall k | 0 <= k < |entries|
      ensures reread[k] == shown[k] <==> Fits(entries[k].line)
    {
      FitsExactly(entries[k]);
    }
  }

  lemma {:induction false} RecentOfMap<A, B>(s: seq<A>, f: A -> B)
    ensures Recent(Map(s, f)) == Map(Recent(s), f)
  {
  }

  // The file gives back the last entries as they were appended, clock and line,
  // exactly when each of them fits.
  lemma {:induction false} LogRoundTrip(entries: seq<Entry>)
    requires AreLines(entries)
    ensures |Reloaded(LogAfter(entries))| == |Recent(entries)|
    ensures Reloaded(LogAfter(entries)) == AllShown(Recent(entries)) <==>
      forall k :: 0 <= k < |Recent(entries)| ==> Fits(Recent(entries)[k].line)
  {
    RereadLog(entries);
    RecentOfMap(entries, Reread);
    RereadExactly(Recent(entries));
  }

  // ---- memory against file ----

  ghost predicate NoRepeats(entries: seq<Entry>) {
    forall j, k :: 0 <= j < k < |entries| && k == j + 1 ==> entries[j].line != entries[k].line
  }

  function LinesOf(entries: seq<Entry>): seq<string> {
    seq(|entries|, k requires 0 <= k < |entries| => entries[k].line)
  }

  lemma {:induction false} CollapseHasNoRepeats(entries: seq<Entry>)
    ensures NoRepeats(Collapse(entries)) && |Collapse(entries)| <= |entries|
  {
    if entries != [] {
      var n := |entries| - 1;
      CollapseHasNoRepeats(entries[..n]);
      if n > 0 {
        CollapseEnds(entries[..n]);
      }
    }
  }

  // The j-th entry counted from the end.
  function FromEnd(entries: seq<Entry>, j: nat): Entry
    requires j < |entries|
  {
    entries[|entries| - 1 - j]
  }

  lemma {:induction false} FromEndGrows(entries: seq<Entry>, e: Entry, j: nat)
    requires j <= |entries|
    ensures FromEnd(entries + [e], j) == if j == 0 then e else FromEnd(entries, j - 1)
  {
  }

  // No two adjacent entries among the last k have the same line.
  ghost predicate EndsVaried(entries: seq<Entry>, k: nat) {
    k <= |entries| &&
    forall i, j :: 0 <= i < j < k && j == i + 1 ==> FromEnd(entries, i).line != FromEnd(entries, j).line
  }

  ghost predicate SameEnds(a: seq<Entry>, b: seq<Entry>, k: nat) {
    k <= |a| && k <= |b| && forall j :: 0 <= j < k ==> FromEnd(a, j).line == FromEnd(b, j).line
  }

  lemma {:induction false} EndsVariedShrinks(entries: seq<Entry>, e: Entry, k: nat)
    requires k > 0 && EndsVaried(entries + [e], k)
    ensures EndsVaried(entries, k - 1)
    ensures k > 1 ==> entries[|entries| - 1].line != e.line
  {
    forall i, j | 0 <= i < j < k - 1 && j == i + 1
      ensures FromEnd(entries, i).line != FromEnd(entries, j).line
    {
      FromEndGrows(entries, e, i + 1);
      FromEndGrows(entries, e, j + 1);
    }
    if k > 1 {
      assert FromEnd(entries + [e], 0).line != FromEnd(entries + [e], 1).line;
    }
  }

  lemma {:induction false} SameEndsGrow(a: seq<Entry>, b: seq<Entry>, e: Entry, k: nat)
    requires SameEnds(a, b, k)
    ensures SameEnds(a + [e], b + [e], k + 1)
  {
    forall j | 0 <= j < k + 1
      ensures FromEnd(a + [e], j).line == FromEnd(b + [e], j).line
    {
      FromEndGrows(a, e, j);
      FromEndGrows(b, e, j);
    }
  }

  // Where the history does not repeat itself, collapsing keeps its lines.
  lemma {:induction false} CollapseKeepsEnd(entries: seq<Entry>, k: nat)
    requires EndsVaried(entries, k)
    ensures SameEnds(Collapse(entries), entries, k)
  {
    if k > 0 {
      var n := |entries| - 1;
      assert entries == entries[..n] + [entries[n]];
      EndsVariedShrinks(entries[..n], entries[n], k);
      CollapseEnds(entries);
      if k > 1 {
        CollapseKeepsEnd(entries[..n], k - 1);
        SameEndsGrow(Collapse(entries[..n]), entries[..n], entries[n], k - 1);
      }
    }
  }

  lemma {:induction false} EqualLinesDoNotRepeat(a: seq<Entry>, b: seq<Entry>)
    requires LinesOf(a) == LinesOf(b) && NoRepeats(a)
    ensures NoRepeats(b)
  {
    assert |LinesOf(a)| == |a| && |LinesOf(b)| == |b|;
    forall j, k | 0 <= j < k < |b| && k == j + 1
      ensures b[j].line != b[k].line
    {
      assert LinesOf(a)[j] == LinesOf(b)[j] && LinesOf(a)[k] == LinesOf(b)[k];
    }
  }

  lemma {:induction false} RecentKeepsNoRepeats(entries: seq<Entry>)
    requires NoRepeats(entries)
    ensures NoRepeats(Recent(entries))
  {
  }

  lemma {:induction false} CollapseAgreesExactly(entries: seq<Entry>)
    ensures LinesOf(Recent(Collapse(entries))) == LinesOf(Recent(entries)) <==> NoRepeats(Recent(entries))
  {
    var c := Collapse(entries);
    CollapseHasNoRepeats(entries);
    if NoRepeats(Recent(entries)) {
      VariedEnds(entries);
    }
    if LinesOf(Recent(c)) == LinesOf(Recent(entries)) {
      RecentKeepsNoRepeats(c);
      EqualLinesDoNotRepeat(Recent(c), Recent(entries));
    }
  }

  lemma {:induction false} VariedEnds(entries: seq<Entry>)
    requires NoRepeats(Recent(entries)) && |Collapse(entries)| <= |entries|
    ensures LinesOf(Recent(Collapse(entries))) == LinesOf(Recent(entries))
  {
    var c, last := Collapse(entries), Recent(entries);
    var k := |last|;
    forall i, j | 0 <= i < j < k && j == i + 1
      ensures FromEnd(entries, i).line != FromEnd(entries, j).line
    {
      assert last[k - 1 - j] == FromEnd(entries, j) && last[k - 1 - i] == FromEnd(entries, i);
    }
    CollapseKeepsEnd(entries, k);
    EndsShowTheSame(c, entries);
  }

  lemma {:induction false} EndsShowTheSame(c: seq<Entry>, entries: seq<Entry>)
    requires |Recent(entries)| <= |c| <= |entries|
    requires forall i :: 0 <= i < |Recent(entries)| ==> FromEnd(c, i).line == FromEnd(entries, i).line
    ensures LinesOf(Recent(c)) == LinesOf(Recent(entries))
  {
    var kept, last := Recent(c), Recent(entries);
    var k := |last|;
    assert |kept| == k;
    forall i | 0 <= i < k
      ensures kept[i].line == last[i].line
    {
      assert kept[i] == FromEnd(c, k - 1 - i) && last[i] == FromEnd(entries, k - 1 - i);
    }
  }

  // What a buffer shows, without its clock times.
  function Bodies(progress: seq<string>): seq<string> {
    Map(progress, StripTime)
  }

  lemma {:induction false} BodiesOfShown(entries: seq<Entry>)
    requires NoneEmpty(entries)
    ensures Bodies(AllShown(entries)) == LinesOf(entries)
  {
    var bodies, lines := Bodies(AllShown(entries)), LinesOf(entries);
    forall k | 0 <= k < |entries|
      ensures bodies[k] == lines[k]
    {
      StripOfShown(entries[k]);
    }
  }

  // The line a reader gets back: cut to 491 characters and marked, if it does not fit.
  function Cut(line: string): string {
    if Fits(line) then line else line[..491] + "..."
  }

  lemma {:induction false} TruncatedShown(e: Entry)
    requires |e.line| > 491
    ensures Truncated(Shown(e)) == Shown(Entry(e.at, e.line[..491] + "..."))
  {
    assert Shown(e)[..500] == Clock(e.at) + " " + e.line[..491];
  }

  lemma {:induction false} StripOfReread(e: Entry)
    requires e.line != ""
    ensures StripTime(Reread(e)) == Cut(e.line)
  {
    if |e.line| <= 491 {
      StripOfShown(e);
    } else {
      TruncatedShown(e);
      StripOfShown(Entry(e.at, e.line[..491] + "..."));
      if |e.line| == 494 && e.line[491..] == "..." {
        assert e.line == e.line[..491] + e.line[491..];
      }
    }
  }

  // A line that does not fit comes back different.
  lemma {:induction false} CutExactly(line: string)
    ensures Cut(line) == line <==> Fits(line)
  {
    if |line| > 491 && line[..491] + "..." == line {
      assert |line| == 494 && line[491..] == (line[..491] + "...")[491..] == "...";
    }
  }

  function CutLines(entries: seq<Entry>): seq<string> {
    seq(|entries|, k requires 0 <= k < |entries| => Cut(entries[k].line))
  }

  lemma {:induction false} BodiesOfReread(entries: seq<Entry>)
    requires NoneEmpty(entries)
    ensures Bodies(AllReread(entries)) == CutLines(entries)
  {
    var bodies, cut := Bodies(AllReread(entries)), CutLines(entries);
    forall k | 0 <= k < |entries|
      ensures bodies[k] == cut[k]
    {
      StripOfReread(entries[k]);
    }
  }

  lemma {:induction false} RecentIsNoneEmpty(entries: seq<Entry>)
    requires NoneEmpty(entries)
    ensures NoneEmpty(Recent(entries)) && NoneEmpty(Collapse(entries)) && NoneEmpty(Recent(Collapse(entries)))
  {
    CollapseIsOfEntries(entries);
    var c := Collapse(entries);
    forall k | 0 <= k < |c|
      ensures c[k].line != ""
    {
      assert c[k] in entries;
    }
  }

  lemma {:induction false} CollapseIsOfEntries(entries: seq<Entry>)
    ensures forall e :: e in Collapse(entries) ==> e in entries
  {
    if entries != [] {
      var n := |entries| - 1;
      CollapseIsOfEntries(entries[..n]);
      assert entries == entries[..n] + [entries[n]];
    }
  }

  // What the buffer in memory shows.
  lemma {:induction false} BodiesInMemory(entries: seq<Entry>)
    requires NoneEmpty(entries)
    ensures Bodies(ProgressAfter(entries)) == LinesOf(Recent(Collapse(entries)))
  {
    BufferRefinesHistory(entries);
    RecentIsNoneEmpty(entries);
    RecentOfMap(Collapse(entries), Shown);
    ShownIsMap(Collapse(entries));
    ShownIsMap(Recent(Collapse(entries)));
    BodiesOfShown(Recent(Collapse(entries)));
  }

  lemma {:induction false} ShownIsMap(entries: seq<Entry>)
    ensures AllShown(entries) == Map(entries, Shown)
  {
  }

  // What the buffer shows that a restart reads from the file.
  lemma {:induction false} BodiesAfterRestart(entries: seq<Entry>)
    requires AreLines(entries)
    ensures Bodies(Reloaded(LogAfter(entries))) == CutLines(Recent(entries))
  {
    RereadLog(entries);
    RecentOfMap(entries, Reread);
    RecentIsNoneEmpty(entries);
    BodiesOfReread(Recent(entries));
  }

  ghost predicate AllFit(entries: seq<Entry>) {
    forall k :: 0 <= k < |entries| ==> Fits(entries[k].line)
  }

  lemma {:induction false} CutsAgreeExactly(entries: seq<Entry>)
    ensures CutLines(entries) == LinesOf(entries) <==> AllFit(entries)
  {
    forall k | 0 <= k < |entries|
      ensures CutLines(entries)[k] == LinesOf(entries)[k] <==> Fits(entries[k].line)
    {
      CutExactly(entries[k].line);
    }
  }

  // Cutting keeps equal neighbours equal, so it hides no repeat.
  lemma {:induction false} CutHidesNoRepeat(kept: seq<Entry>, last: seq<Entry>)
    requires LinesOf(kept) == CutLines(last) && NoRepeats(kept)
    ensures NoRepeats(last)
  {
    assert |LinesOf(kept)| == |kept| && |CutLines(last)| == |last|;
    forall j, k | 0 <= j < k < |last| && k == j + 1
      ensures last[j].line != last[k].line
    {
      assert LinesOf(kept)[j] == CutLines(last)[j] && LinesOf(kept)[k] == CutLines(last)[k];
      assert kept[j].line != kept[k].line;
    }
  }

  // The buffer in memory and the one a restart reads back show the same lines
  // exactly when the last appended lines have no adjacent repeats and all fit.
  lemma {:induction false} MemoryAgreesExactly(entries: seq<Entry>)
    requires AreLines(entries)
    ensures Bodies(ProgressAfter(entries)) == Bodies(Reloaded(LogAfter(entries))) <==>
      NoRepeats(Recent(entries)) && AllFit(Recent(entries))
  {
    BodiesInMemory(entries);
    BodiesAfterRestart(entries);
    CollapseAgreesExactly(entries);
    CutsAgreeExactly(Recent(entries));
    if LinesOf(Recent(Collapse(entries))) == CutLines(Recent(entries)) {
      CollapseHasNoRepeats(entries);
      RecentKeepsNoRepeats(Collapse(entries));
      CutHidesNoRepeat(Recent(Collapse(entries)), Recent(entries));
    }
  }

  // ---- a line that does not come back ----

  function Dashes(n: nat): string {
    seq(n, _ => '-')
  }

  // A line of 500 characters is kept whole in memory and cut by a restart.
  lemma {:induction false} LongLineIsCut(at: Instant)
    ensures var entries := [Entry(at, Dashes(500))];
      && AreLines(entries) && NoRepeats(entries)
      && Bodies(ProgressAfter(entries)) == [Dashes(500)]
      && Bodies(Reloaded(LogAfter(entries))) == [Dashes(491) + "..."]
      && Reloaded(LogAfter(entries)) != AllShown(entries)
  {
    var e := Entry(at, Dashes(500));
    assert AreLines([e]) && NoRepeats([e]);
    assert Dashes(500)[..491] == Dashes(491);
    OneLineInMemory(e);
    OneLineAfterRestart(e);
    LogRoundTrip([e]);
  }

  lemma {:induction false} OneLineInMemory(e: Entry)
    requires IsLine(e.line)
    ensures Bodies(ProgressAfter([e])) == [e.line]
  {
    BodiesInMemory([e]);
    assert [e][..0] == [];
    assert Collapse([e]) == [e];
  }

  lemma {:induction false} OneLineAfterRestart(e: Entry)
    requires IsLine(e.line)
    ensures Bodies(Reloaded(LogAfter([e]))) == [Cut(e.line)]
  {
    BodiesAfterRestart([e]);
  }
}
