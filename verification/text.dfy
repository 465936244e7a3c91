/** Strings as the Go standard library sees them: white space, trimming and
    splitting into words. */
module Text {

  // unicode.IsSpace
  predicate IsSpace(c: char) {
    var n := c as int;
    9 <= n <= 13 || n == 0x20 || n == 0x85 || n == 0xA0 || n == 0x1680 || 0x2000 <= n <= 0x200A ||
    n == 0x2028 || n == 0x2029 || n == 0x202F || n == 0x205F || n == 0x3000
  }

  // strings.TrimSpace(s) == ""
  predicate Blank(s: string) {
    forall i :: 0 <= i < |s| ==> IsSpace(s[i])
  }

  function TrimLeft(s: string): string {
    if s != "" && IsSpace(s[0]) then TrimLeft(s[1..]) else s
  }

  function TrimRight(s: string): string {
    if s != "" && IsSpace(s[|s| - 1]) then TrimRight(s[..|s| - 1]) else s
  }

  // strings.TrimSpace
  function Trim(s: string): string {
    TrimRight(TrimLeft(s))
  }

  predicate Word(w: string) {
    w != "" && forall k :: 0 <= k < |w| ==> !IsSpace(w[k])
  }

  // strings.Fields
  function Fields(s: string): (words: seq<string>)
    ensures forall k :: 0 <= k < |words| ==> Word(words[k])
    ensures s != "" && !IsSpace(s[|s| - 1]) ==> words != []
  {
    if s == "" then []
    else
      var n := |s| - 1;
      var before := Fields(s[..n]);
      if IsSpace(s[n]) then before
      else if n == 0 || IsSpace(s[n - 1]) then before + [[s[n]]]
      else before[..|before| - 1] + [before[|before| - 1] + [s[n]]]
  }

  // strings.Join(words, " ")
  function Join(words: seq<string>): string {
    if words == [] then ""
    else if |words| == 1 then words[0]
    else Join(words[..|words| - 1]) + " " + words[|words| - 1]
  }

  function Squeeze(s: string): string {
    Join(Fields(s))
  }

  // No white space at either end, and only single blanks inside.
  ghost predicate Normal(s: string) {
    && (s != "" ==> !IsSpace(s[0]) && !IsSpace(s[|s| - 1]))
    && Spaced(s)
  }

  ghost predicate Spaced(s: string) {
    && (forall k :: 0 <= k < |s| && IsSpace(s[k]) ==> s[k] == ' ')
    && (forall j, k :: 0 <= j < k < |s| && k == j + 1 && IsSpace(s[j]) ==> !IsSpace(s[k]))
  }

  lemma {:induction false} JoinGrows(words: seq<string>, word: string)
    ensures Join(words + [word]) == if words == [] then word else Join(words) + " " + word
  {
    assert (words + [word])[..|words|] == words;
  }

  lemma {:induction false} JoinExtends(words: seq<string>, c: char)
    requires words != []
    ensures var n := |words| - 1;
      Join(words[..n] + [words[n] + [c]]) == Join(words) + [c]
  {
    var n := |words| - 1;
    JoinGrows(words[..n], words[n]);
    JoinGrows(words[..n], words[n] + [c]);
    assert words[..n] + [words[n]] == words;
    assert Join(words[..n]) + " " + (words[n] + [c]) == Join(words[..n]) + " " + words[n] + [c];
  }

  lemma {:induction false} JoinIsEmpty(words: seq<string>)
    requires forall k :: 0 <= k < |words| ==> Word(words[k])
    ensures Join(words) == "" <==> words == []
  {
  }

  // Squeeze, one character at a time.
  lemma {:induction false} SqueezeGrows(s: string, c: char)
    ensures Squeeze(s + [c]) ==
      if IsSpace(c) || (s != "" && !IsSpace(s[|s| - 1])) then (if IsSpace(c) then Squeeze(s) else Squeeze(s) + [c])
      else if Squeeze(s) == "" then [c] else Squeeze(s) + " " + [c]
  {
    assert (s + [c])[..|s|] == s;
    JoinIsEmpty(Fields(s));
    if !IsSpace(c) {
      if s == "" || IsSpace(s[|s| - 1]) {
        JoinGrows(Fields(s), [c]);
      } else {
        JoinExtends(Fields(s), c);
      }
    }
  }

  lemma {:induction false} NormalGrows(p: string, c: char)
    requires Normal(p) && !IsSpace(c)
    ensures Normal(p + [c]) && (p != "" ==> Normal(p + " " + [c]))
  {
  }

  lemma {:induction false} SqueezeStep(s: string, c: char)
    requires Normal(Squeeze(s)) && (Squeeze(s) == "" <==> Blank(s))
    ensures Normal(Squeeze(s + [c])) && (Squeeze(s + [c]) == "" <==> Blank(s) && IsSpace(c))
  {
    SqueezeGrows(s, c);
    if !IsSpace(c) {
      NormalGrows(Squeeze(s), c);
      NormalGrows("", c);
      assert "" + [c] == [c];
    }
  }

  lemma {:induction false} SqueezeIsNormal(s: string)
    ensures Normal(Squeeze(s))
    ensures Squeeze(s) == "" <==> Blank(s)
  {
    if s != "" {
      var n := |s| - 1;
      SqueezeIsNormal(s[..n]);
      SqueezeStep(s[..n], s[n]);
      assert s == s[..n] + [s[n]];
      assert Blank(s) <==> Blank(s[..n]) && IsSpace(s[n]);
    }
  }

  // Without a blank at the end.
  function Chop(s: string): string {
    if s != "" && IsSpace(s[|s| - 1]) then s[..|s| - 1] else s
  }

  lemma {:induction false} SpacedGrows(s: string, c: char)
    requires Spaced(s + [c]) && !IsSpace((s + [c])[0]) && Squeeze(s) == Chop(s)
    ensures Squeeze(s + [c]) == Chop(s + [c])
  {
    SqueezeGrows(s, c);
    var n := |s| - 1;
    if s != "" {
      assert (s + [c])[n] == s[n] && (s + [c])[0] == s[0];
      if IsSpace(s[n]) {
        assert s == s[..n] + " ";
        assert s[..n] + " " + [c] == s + [c];
      }
    }
    assert (s + [c])[..|s|] == s;
  }

  lemma {:induction false} SpacedBefore(s: string, c: char)
    requires Spaced(s + [c])
    ensures Spaced(s) && (s != "" ==> (s + [c])[0] == s[0])
  {
    assert forall k :: 0 <= k < |s| ==> (s + [c])[k] == s[k];
  }

  lemma {:induction false} SqueezeOfSpaced(s: string)
    requires Spaced(s) && (s != "" ==> !IsSpace(s[0]))
    ensures Squeeze(s) == Chop(s)
  {
    if s != "" {
      var before, c := s[..|s| - 1], s[|s| - 1];
      ButLast(s);
      SpacedBefore(before, c);
      SqueezeOfSpaced(before);
      SpacedGrows(before, c);
    }
  }

  lemma {:induction false} TrimOfNormal(s: string)
    requires Normal(s)
    ensures Trim(s) == s && Trim(" " + s) == s
  {
    assert (" " + s)[1..] == s;
  }

  lemma {:induction false} TrimLeftKeepsBlank(s: string)
    ensures Blank(TrimLeft(s)) <==> Blank(s)
    ensures TrimLeft(s) != "" ==> !Blank(s)
  {
    if s != "" && IsSpace(s[0]) {
      TrimLeftKeepsBlank(s[1..]);
      assert Blank(s) <==> Blank(s[1..]) by {
        assert s == [s[0]] + s[1..];
      }
    }
  }

  lemma {:induction false} TrimRightKeepsBlank(s: string)
    ensures Blank(TrimRight(s)) <==> Blank(s)
  {
    if s != "" && IsSpace(s[|s| - 1]) {
      TrimRightKeepsBlank(s[..|s| - 1]);
      assert s == s[..|s| - 1] + [s[|s| - 1]];
    }
  }

  lemma {:induction false} TrimKeepsBlank(s: string)
    ensures Blank(Trim(s)) <==> Blank(s)
  {
    TrimLeftKeepsBlank(s);
    TrimRightKeepsBlank(TrimLeft(s));
  }

  lemma {:induction false} TrimRightEnds(s: string)
    ensures TrimRight(s) != "" ==> !IsSpace(TrimRight(s)[|TrimRight(s)| - 1])
  {
    if s != "" {
      TrimRightEnds(s[..|s| - 1]);
    }
  }

  lemma {:induction false} TrimIsEmpty(s: string)
    ensures Trim(s) == "" <==> Blank(s)
  {
    TrimKeepsBlank(s);
    TrimRightEnds(TrimLeft(s));
  }

  // strings.HasPrefix
  function LowerChar(c: char): char {
    if 'A' <= c <= 'Z' then c - 'A' + 'a' else c
  }

  function Lower(s: string): string {
    seq(|s|, k requires 0 <= k < |s| => LowerChar(s[k]))
  }

  predicate HasPrefix(s: string, prefix: string) {
    prefix <= s
  }

  // Trimming takes the white space off both ends and nothing else.
  lemma {:induction false} TrimLeftOf(a: string, s: string)
    requires Blank(a) && (s != "" ==> !IsSpace(s[0]))
    ensures TrimLeft(a + s) == s
  {
    if a == "" {
      assert a + s == s;
    } else {
      assert (a + s)[1..] == a[1..] + s;
      TrimLeftOf(a[1..], s);
    }
  }

  lemma {:induction false} TrimRightOf(s: string, b: string)
    requires Blank(b) && (s != "" ==> !IsSpace(s[|s| - 1]))
    ensures TrimRight(s + b) == s
  {
    if b == "" {
      assert s + b == s;
    } else {
      assert (s + b)[..|s + b| - 1] == s + b[..|b| - 1];
      TrimRightOf(s, b[..|b| - 1]);
    }
  }

  lemma {:induction false} TrimOf(a: string, s: string, b: string)
    requires Blank(a) && Blank(b) && (s != "" ==> !IsSpace(s[0]) && !IsSpace(s[|s| - 1]))
    ensures Trim(a + s + b) == s
  {
    if s == "" {
      assert a + s + b == (a + b) + "";
      TrimLeftOf(a + b, "");
    } else {
      assert a + s + b == a + (s + b);
      TrimLeftOf(a, s + b);
      TrimRightOf(s, b);
    }
  }

  // ---- squeezing a text of many words ----

  // The words with what follows each of them.
  function Glue(words: seq<string>, gaps: seq<string>): string
    requires |gaps| == |words|
  {
    if words == [] then ""
    else
      var n := |words| - 1;
      Glue(words[..n], gaps[..n]) + words[n] + gaps[n]
  }

  // White space everywhere between the words, and perhaps after the last.
  ghost predicate Separates(words: seq<string>, gaps: seq<string>) {
    && |gaps| == |words|
    && (forall k :: 0 <= k < |words| ==> Word(words[k]) && Blank(gaps[k]))
    && (forall k :: 0 <= k < |words| - 1 ==> gaps[k] != "")
  }

  // One blank after every word but the last.
  function Blanks(n: nat): seq<string> {
    seq(n, k => if k < n - 1 then " " else "")
  }

  lemma {:induction false} SqueezeOfBlankEnd(s: string, b: string)
    requires Blank(b)
    ensures Squeeze(s + b) == Squeeze(s)
  {
    if b == "" {
      assert s + b == s;
    } else {
      var n := |b| - 1;
      SqueezeOfBlankEnd(s, b[..n]);
      SqueezeGrows(s + b[..n], b[n]);
      assert s + b == s + b[..n] + [b[n]];
    }
  }

  lemma {:induction false} SqueezeOfBlankStart(b: string, s: string)
    requires Blank(b)
    ensures Squeeze(b + s) == Squeeze(s)
  {
    if s == "" {
      assert b + s == "" + b;
      SqueezeOfBlankEnd("", b);
    } else {
      var n := |s| - 1;
      SqueezeOfBlankStart(b, s[..n]);
      assert b + s == b + s[..n] + [s[n]] && s == s[..n] + [s[n]];
      SqueezeGrows(b + s[..n], s[n]);
      SqueezeGrows(s[..n], s[n]);
    }
  }

  lemma {:induction false} SqueezeOfTrimLeft(s: string)
    ensures Squeeze(TrimLeft(s)) == Squeeze(s)
  {
    if s != "" && IsSpace(s[0]) {
      SqueezeOfTrimLeft(s[1..]);
      SqueezeOfBlankStart(s[..1], s[1..]);
      assert s[..1] + s[1..] == s;
    }
  }

  lemma {:induction false} SqueezeOfTrimRight(s: string)
    ensures Squeeze(TrimRight(s)) == Squeeze(s)
  {
    if s != "" && IsSpace(s[|s| - 1]) {
      var n := |s| - 1;
      SqueezeOfTrimRight(s[..n]);
      SqueezeOfBlankEnd(s[..n], s[n..]);
      assert s[..n] + s[n..] == s;
    }
  }

  // Inside a word.
  lemma {:induction false} SqueezeInWord(t: string, c: char)
    requires !IsSpace(c) && t != "" && !IsSpace(t[|t| - 1])
    ensures Squeeze(t + [c]) == Squeeze(t) + [c]
  {
    SqueezeGrows(t, c);
  }

  function Spliced(s: string, w: string): string {
    if s == "" then w else s + " " + w
  }

  lemma {:induction false} SplicedGrows(s: string, w: string, c: char)
    ensures Spliced(s, w) + [c] == Spliced(s, w + [c])
  {
    assert s + " " + (w + [c]) == s + " " + w + [c];
  }

  lemma {:induction false} SqueezeOfLongerWord(s: string, w: string, c: char)
    requires Word(w) && !IsSpace(c) && Squeeze(s + w) == Spliced(Squeeze(s), w)
    ensures Squeeze(s + (w + [c])) == Spliced(Squeeze(s), w + [c])
  {
    var t := s + w;
    assert t[|t| - 1] == w[|w| - 1];
    SqueezeInWord(t, c);
    SplicedGrows(Squeeze(s), w, c);
    assert s + (w + [c]) == t + [c];
  }

  lemma {:induction false} SqueezeOfLetter(s: string, c: char)
    requires !IsSpace(c) && (s != "" ==> IsSpace(s[|s| - 1]))
    ensures Squeeze(s + [c]) == Spliced(Squeeze(s), [c])
  {
    SqueezeGrows(s, c);
  }

  lemma {:induction false} ButLast(s: string)
    requires s != ""
    ensures s == s[..|s| - 1] + [s[|s| - 1]]
  {
  }

  lemma {:induction false} SqueezeOfWord(s: string, w: string)
    requires Word(w) && (s != "" ==> IsSpace(s[|s| - 1]))
    ensures Squeeze(s + w) == Spliced(Squeeze(s), w)
  {
    if |w| == 1 {
      SqueezeOfLetter(s, w[0]);
      assert w == [w[0]];
    } else {
      var v, c := w[..|w| - 1], w[|w| - 1];
      ButLast(w);
      SqueezeOfWord(s, v);
      SqueezeOfLongerWord(s, v, c);
    }
  }

  lemma {:induction false} GlueGrows(words: seq<string>, gaps: seq<string>, w: string, gap: string)
    requires |gaps| == |words|
    ensures Glue(words + [w], gaps + [gap]) == Glue(words, gaps) + w + gap
  {
    assert (words + [w])[..|words|] == words && (gaps + [gap])[..|gaps|] == gaps;
  }

  lemma {:induction false} GlueEnds(words: seq<string>, gaps: seq<string>)
    requires |gaps| == |words| && words != [] && gaps[|gaps| - 1] != "" && Blank(gaps[|gaps| - 1])
    ensures Glue(words, gaps) != "" && IsSpace(Glue(words, gaps)[|Glue(words, gaps)| - 1])
  {
  }

  lemma {:induction false} BlanksGrow(words: seq<string>, w: string)
    requires words != []
    ensures Glue(words + [w], Blanks(|words| + 1)) == Glue(words, Blanks(|words|)) + " " + w
  {
    var n := |words| - 1;
    assert Blanks(|words| + 1) == Blanks(|words|)[..n] + [" "] + [""];
    GlueGrows(words, Blanks(|words|)[..n] + [" "], w, "");
    assert words == words[..n] + [words[n]] && Blanks(|words|) == Blanks(|words|)[..n] + [""];
    GlueGrows(words[..n], Blanks(|words|)[..n], words[n], " ");
    GlueGrows(words[..n], Blanks(|words|)[..n], words[n], "");
  }

  // One word more.
  lemma {:induction false} SqueezeOfMore(words: seq<string>, gaps: seq<string>, w: string, gap: string)
    requires Separates(words + [w], gaps + [gap]) && |gaps| == |words|
    requires Squeeze(Glue(words, gaps)) == Glue(words, Blanks(|words|))
    requires Glue(words, Blanks(|words|)) == "" <==> words == []
    ensures Squeeze(Glue(words, gaps) + w + gap) == Glue(words + [w], Blanks(|words| + 1)) != ""
  {
    var before := Glue(words, gaps);
    assert (words + [w])[|words|] == w && (gaps + [gap])[|words|] == gap;
    if words != [] {
      assert (gaps + [gap])[|words| - 1] == gaps[|words| - 1];
      GlueEnds(words, gaps);
      BlanksGrow(words, w);
    } else {
      assert Blanks(1) == [] + [""] && words + [w] == [] + [w];
      GlueGrows([], [], w, "");
      assert Glue([], []) + w + "" == w;
    }
    SqueezeOfWord(before, w);
    SqueezeOfBlankEnd(before + w, gap);
  }

  lemma {:induction false} SeparatesBefore(words: seq<string>, gaps: seq<string>)
    requires Separates(words, gaps) && words != []
    ensures Separates(words[..|words| - 1], gaps[..|words| - 1])
    ensures words[..|words| - 1] + [words[|words| - 1]] == words
    ensures gaps[..|words| - 1] + [gaps[|words| - 1]] == gaps
  {
  }

  // Whatever the white space between the words, one blank is left.
  lemma {:induction false} SqueezeOfWords(words: seq<string>, gaps: seq<string>)
    requires Separates(words, gaps)
    ensures Squeeze(Glue(words, gaps)) == Glue(words, Blanks(|words|))
    ensures Glue(words, Blanks(|words|)) == "" <==> words == []
  {
    if words != [] {
      var n := |words| - 1;
      SeparatesBefore(words, gaps);
      SqueezeOfWords(words[..n], gaps[..n]);
      SqueezeOfMore(words[..n], gaps[..n], words[n], gaps[n]);
    }
  }
}
