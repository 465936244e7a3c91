/** Slash-separated paths: strings as the path library sees them, and the
    sequences of names they stand for. */
module Paths {
  import opened Sequences
  import opened Text

  // A name that can occur in a clean path.
  predicate IsName(w: string) {
    w !in {"", ".", ".."} && '/' !in w
  }

  predicate IsPath(p: seq<string>) {
    forall k :: 0 <= k < |p| ==> IsName(p[k])
  }

  function SplitSlash(s: string): (parts: seq<string>)
    ensures parts != []
  {
    if s == "" then [""]
    else
      var before, c := SplitSlash(s[..|s| - 1]), s[|s| - 1];
      if c == '/' then before + [""] else before[..|before| - 1] + [before[|before| - 1] + [c]]
  }

  function JoinSlash(parts: seq<string>): string {
    if parts == [] then ""
    else if |parts| == 1 then parts[0]
    else JoinSlash(parts[..|parts| - 1]) + "/" + parts[|parts| - 1]
  }

  // The text of an absolute path.
  function PathText(p: seq<string>): string {
    "/" + JoinSlash(p)
  }

  // One part, resolved against what is before it.
  function Push(stack: seq<string>, part: string, absolute: bool): seq<string> {
    if part in {"", "."} then stack
    else if part != ".." then stack + [part]
    else if stack != [] && stack[|stack| - 1] != ".." then stack[..|stack| - 1]
    else if absolute then stack
    else stack + [".."]
  }

  function Resolve(parts: seq<string>, absolute: bool): seq<string> {
    if parts == [] then [] else Push(Resolve(parts[..|parts| - 1], absolute), parts[|parts| - 1], absolute)
  }

  predicate IsAbs(s: string) {
    HasPrefix(s, "/")
  }

  // filepath.Clean
  function Clean(s: string): string {
    var parts := Resolve(SplitSlash(s), IsAbs(s));
    if IsAbs(s) then PathText(parts) else if parts == [] then "." else JoinSlash(parts)
  }

  // filepath.Base, of a path that does not end in a slash.
  function Base(s: string): string {
    var parts := SplitSlash(s);
    parts[|parts| - 1]
  }

  // ---- splitting and joining ----

  // With c added to the last part.
  function ExtendLast(parts: seq<string>, c: string): seq<string>
    requires parts != []
  {
    parts[..|parts| - 1] + [parts[|parts| - 1] + c]
  }

  lemma {:induction false} SplitGrows(s: string, c: char)
    ensures SplitSlash(s + [c]) == if c == '/' then SplitSlash(s) + [""] else ExtendLast(SplitSlash(s), [c])
  {
    assert (s + [c])[..|s|] == s;
  }

  lemma {:induction false} ExtendTwice(parts: seq<string>, a: string, b: string)
    requires parts != []
    ensures ExtendLast(ExtendLast(parts, a), b) == ExtendLast(parts, a + b)
    ensures ExtendLast(parts, "") == parts
  {
    var x := parts[|parts| - 1];
    assert x + (a + b) == x + a + b;
    assert x + "" == x;
  }

  lemma {:induction false} ExtendAfter(a: seq<string>, b: seq<string>, c: string)
    requires b != []
    ensures ExtendLast(a + b, c) == a + ExtendLast(b, c)
  {
  }

  lemma {:induction false} SplitWordStep(s: string, w: string, c: char)
    requires c != '/' && SplitSlash(s + w) == ExtendLast(SplitSlash(s), w)
    ensures SplitSlash(s + (w + [c])) == ExtendLast(SplitSlash(s), w + [c])
  {
    var parts := SplitSlash(s);
    var whole := s + w;
    SplitGrows(whole, c);
    ExtendTwice(parts, w, [c]);
    assert s + (w + [c]) == whole + [c];
  }

  lemma {:induction false} SplitOfWord(s: string, w: string)
    requires '/' !in w
    ensures SplitSlash(s + w) == ExtendLast(SplitSlash(s), w)
  {
    if w == "" {
      assert s + w == s;
      ExtendTwice(SplitSlash(s), "", "");
    } else {
      var n := |w| - 1;
      SplitOfWord(s, w[..n]);
      SplitWordStep(s, w[..n], w[n]);
      assert w == w[..n] + [w[n]];
    }
  }

  lemma {:induction false} SplitOfSlash(s: string, w: string)
    requires '/' !in w
    ensures SplitSlash(s + "/" + w) == SplitSlash(s) + [w]
  {
    SplitGrows(s, '/');
    SplitOfWord(s + "/", w);
    assert "" + w == w;
  }

  lemma {:induction false} JoinGrows(parts: seq<string>, w: string)
    requires parts != []
    ensures JoinSlash(parts + [w]) == JoinSlash(parts) + "/" + w
  {
    assert (parts + [w])[..|parts|] == parts;
  }

  lemma {:induction false} SplitConcatStep(s: string, t: string, c: char)
    requires SplitSlash(s + "/" + t) == SplitSlash(s) + SplitSlash(t)
    ensures SplitSlash(s + "/" + (t + [c])) == SplitSlash(s) + SplitSlash(t + [c])
  {
    var whole := s + "/" + t;
    SplitGrows(whole, c);
    SplitGrows(t, c);
    Regroup(s + "/", t, [c]);
    ExtendAfter(SplitSlash(s), SplitSlash(t), [c]);
    Regroup(SplitSlash(s), SplitSlash(t), [""]);
  }

  lemma {:induction false} SplitOfConcat(s: string, t: string)
    ensures SplitSlash(s + "/" + t) == SplitSlash(s) + SplitSlash(t)
  {
    if t == "" {
      SplitGrows(s, '/');
      assert s + "/" + t == s + "/";
    } else {
      var n := |t| - 1;
      SplitOfConcat(s, t[..n]);
      SplitConcatStep(s, t[..n], t[n]);
      assert t == t[..n] + [t[n]];
    }
  }

  lemma {:induction false} SplitOfJoin(p: seq<string>)
    requires IsPath(p) && p != []
    ensures SplitSlash(JoinSlash(p)) == p
  {
    var n := |p| - 1;
    if n == 0 {
      SplitOfWord("", p[0]);
      assert "" + p[0] == p[0];
    } else {
      SplitOfJoin(p[..n]);
      SplitOfSlash(JoinSlash(p[..n]), p[n]);
      assert p == p[..n] + [p[n]];
    }
  }

  lemma {:induction false} SplitOfPathText(p: seq<string>)
    requires IsPath(p)
    ensures SplitSlash(PathText(p)) == [""] + if p == [] then [""] else p
  {
    if p == [] {
      SplitOfSlash("", "");
      assert "" + "/" + "" == PathText(p);
    } else {
      SplitOfJoin(p);
      SplitOfConcat("", JoinSlash(p));
      assert "" + "/" + JoinSlash(p) == PathText(p);
    }
  }

  lemma {:induction false} PathTextIsInjective(p: seq<string>, q: seq<string>)
    requires IsPath(p) && IsPath(q) && PathText(p) == PathText(q)
    ensures p == q
  {
    SplitOfPathText(p);
    SplitOfPathText(q);
    var parts := SplitSlash(PathText(p));
    assert p != [] ==> parts[1..] == p;
    assert q != [] ==> parts[1..] == q;
  }

  // ---- string prefixes and path prefixes ----

  lemma {:induction false} JoinOfJoined(p: seq<string>, q: seq<string>)
    requires p != [] && q != []
    ensures JoinSlash(p + q) == JoinSlash(p) + "/" + JoinSlash(q)
  {
    var n := |q| - 1;
    if n == 0 {
      JoinGrows(p, q[0]);
      assert p + q == p + [q[0]];
    } else {
      JoinOfJoined(p, q[..n]);
      DropLast(p, q);
      JoinGrows(p + q[..n], q[n]);
      assert JoinSlash(p) + "/" + JoinSlash(q[..n]) + "/" + q[n] == JoinSlash(p) + "/" + JoinSlash(q);
    }
  }

  lemma {:induction false} BelowParts(p: seq<string>, root: seq<string>, rest: seq<string>)
    requires IsPath(p) && IsPath(root) && p != [] && rest != []
    requires [""] + p == [""] + (if root == [] then [""] else root) + rest
    ensures root != [] && root < p
  {
    assert p == (if root == [] then [""] else root) + rest by {
      assert p == ([""] + p)[1..];
    }
    assert IsName(p[0]);
  }

  lemma {:induction false} BelowPathText(p: seq<string>, root: seq<string>, rest: string)
    requires IsPath(p) && IsPath(root) && PathText(p) == PathText(root) + "/" + rest
    ensures root != [] && root < p
  {
    SplitOfConcat(PathText(root), rest);
    SplitOfPathText(root);
    SplitOfPathText(p);
    assert |PathText(p)| >= 2;
    BelowParts(p, root, SplitSlash(rest));
  }

  // The text test asks for a proper path prefix, except that no path is below
  // the text of the file system root with a slash added.
  lemma {:induction false} PrefixTest(p: seq<string>, root: seq<string>)
    requires IsPath(p) && IsPath(root)
    ensures HasPrefix(PathText(p), PathText(root) + "/") <==> root != [] && root < p
  {
    if root != [] && root < p {
      var q := p[|root|..];
      JoinOfJoined(root, q);
      assert root + q == p;
      assert PathText(p) == (PathText(root) + "/") + JoinSlash(q);
    }
    if HasPrefix(PathText(p), PathText(root) + "/") {
      var rest := PathText(p)[|PathText(root)| + 1..];
      assert PathText(p) == PathText(root) + "/" + rest;
      BelowPathText(p, root, rest);
    }
  }

  // ---- cleaning ----

  lemma {:induction false} ResolveOfPath(before: seq<string>, p: seq<string>, absolute: bool)
    requires IsPath(p)
    ensures Resolve(before + p, absolute) == Resolve(before, absolute) + p
  {
    if p == [] {
      assert before + p == before;
    } else {
      var n := |p| - 1;
      ResolveOfPath(before, p[..n], absolute);
      DropLast(before, p);
      assert IsName(p[n]);
    }
  }

  lemma {:induction false} ResolveBlank(absolute: bool)
    ensures Resolve([""], absolute) == [] && Resolve(["", ""], absolute) == []
  {
    assert [""][..0] == [] && ["", ""][..1] == [""];
  }

  // A stack of names over some leading "..".
  ghost predicate IsResolved(stack: seq<string>) {
    && (forall k :: 0 <= k < |stack| ==> stack[k] == ".." || IsName(stack[k]))
    && (forall j, k :: 0 <= j < k < |stack| && k == j + 1 && stack[k] == ".." ==> stack[j] == "..")
  }

  lemma {:induction false} ResolveIsResolved(parts: seq<string>, absolute: bool)
    requires forall k :: 0 <= k < |parts| ==> '/' !in parts[k]
    ensures IsResolved(Resolve(parts, absolute))
    ensures absolute ==> IsPath(Resolve(parts, absolute))
  {
    if parts != [] {
      ResolveIsResolved(parts[..|parts| - 1], absolute);
    }
  }

  lemma {:induction false} ResolvedNames(stack: seq<string>, k: nat)
    requires IsResolved(stack) && k < |stack| && stack[0] != ".."
    ensures IsName(stack[k])
  {
    if k > 0 {
      ResolvedNames(stack, k - 1);
    }
  }

  lemma {:induction false} JoinStarts(parts: seq<string>)
    requires parts != []
    ensures HasPrefix(JoinSlash(parts), parts[0])
    ensures |parts| == 1 ==> JoinSlash(parts) == parts[0]
  {
    if |parts| > 1 {
      JoinStarts(parts[..|parts| - 1]);
    }
  }

  // A clean path of names stays as it is.
  lemma {:induction false} CleanOfPath(p: seq<string>)
    requires IsPath(p) && p != []
    ensures Clean(JoinSlash(p)) == JoinSlash(p) && !IsAbs(JoinSlash(p)) && JoinSlash(p) != "."
    ensures Base(JoinSlash(p)) == p[|p| - 1]
  {
    SplitOfJoin(p);
    JoinStarts(p);
    assert IsName(p[0]) && JoinSlash(p)[0] == p[0][0];
    ResolveOfPath([], p, false);
    assert [] + p == p;
    SplitOfWord("", ".");
    assert "" + "." == ".";
  }

  lemma {:induction false} SplitHasNoSlash(s: string)
    ensures forall k :: 0 <= k < |SplitSlash(s)| ==> '/' !in SplitSlash(s)[k]
  {
    if s != "" {
      SplitHasNoSlash(s[..|s| - 1]);
    }
  }

  // A clean relative text that does not start with ".." is a path of names.
  lemma {:induction false} CleanIsPath(s: string) returns (p: seq<string>)
    requires !IsAbs(Clean(s)) && Clean(s) != "." && !HasPrefix(Clean(s), "..")
    ensures IsPath(p) && p != [] && Clean(s) == JoinSlash(p)
  {
    p := Resolve(SplitSlash(s), IsAbs(s));
    SplitHasNoSlash(s);
    ResolveIsResolved(SplitSlash(s), IsAbs(s));
    assert !IsAbs(s);
    JoinStarts(p);
    forall k | 0 <= k < |p|
      ensures IsName(p[k])
    {
      ResolvedNames(p, k);
    }
  }

  lemma {:induction false} ResolveOfPathText(root: seq<string>)
    requires IsPath(root)
    ensures Resolve([""] + if root == [] then [""] else root, true) == root
  {
    ResolveBlank(true);
    if root == [] {
      assert [""] + [""] == ["", ""];
    } else {
      ResolveOfPath([""], root, true);
      assert [] + root == root;
    }
  }

  // filepath.Join of a root and a clean relative path.
  lemma {:induction false} JoinOfPath(root: seq<string>, p: seq<string>)
    requires IsPath(root) && IsPath(p) && p != []
    ensures Clean(PathText(root) + "/" + JoinSlash(p)) == PathText(root + p)
  {
    var s := PathText(root) + "/" + JoinSlash(p);
    assert IsAbs(s);
    SplitOfConcat(PathText(root), JoinSlash(p));
    SplitOfJoin(p);
    SplitOfPathText(root);
    ResolveOfPath([""] + if root == [] then [""] else root, p, true);
    ResolveOfPathText(root);
  }

  // ---- the laws of cleaning ----

  lemma {:induction false} ResolveAppend(a: seq<string>, b: seq<string>, c: seq<string>, absolute: bool)
    requires Resolve(a, absolute) == Resolve(b, absolute)
    ensures Resolve(a + c, absolute) == Resolve(b + c, absolute)
  {
    if c == [] {
      assert a + c == a && b + c == b;
    } else {
      ResolveAppend(a, b, c[..|c| - 1], absolute);
      DropLast(a, c);
      DropLast(b, c);
    }
  }

  lemma {:induction false} ResolveOneMore(a: seq<string>, part: string, absolute: bool)
    ensures Resolve(a + [part], absolute) == Push(Resolve(a, absolute), part, absolute)
  {
    assert (a + [part])[..|a|] == a;
  }

  // Empty parts and "." mean nothing, a name and ".." cancel, wherever they stand.
  lemma {:induction false} PartsVanish(before: seq<string>, name: string, after: seq<string>, absolute: bool)
    requires IsName(name)
    ensures Resolve(before + [""] + after, absolute) == Resolve(before + after, absolute)
    ensures Resolve(before + ["."] + after, absolute) == Resolve(before + after, absolute)
    ensures Resolve(before + [name] + [".."] + after, absolute) == Resolve(before + after, absolute)
  {
    ResolveOneMore(before, "", absolute);
    ResolveAppend(before + [""], before, after, absolute);
    ResolveOneMore(before, ".", absolute);
    ResolveAppend(before + ["."], before, after, absolute);
    ResolveOneMore(before, name, absolute);
    ResolveOneMore(before + [name], "..", absolute);
    ResolveAppend(before + [name] + [".."], before, after, absolute);
  }

  lemma {:induction false} OnlyDots(ups: seq<string>)
    requires forall k :: 0 <= k < |ups| ==> ups[k] == ".."
    ensures Resolve(ups, true) == [] && Resolve(ups, false) == ups
  {
    if ups != [] {
      var n := |ups| - 1;
      OnlyDots(ups[..n]);
      assert ups == ups[..n] + [".."];
    }
  }

  // Leading ".."s go in an absolute path and stay in a relative one.
  lemma {:induction false} LeadingDots(ups: seq<string>, names: seq<string>)
    requires IsPath(names) && forall k :: 0 <= k < |ups| ==> ups[k] == ".."
    ensures Resolve(ups + names, true) == names && Resolve(ups + names, false) == ups + names
  {
    OnlyDots(ups);
    ResolveOfPath(ups, names, true);
    ResolveOfPath(ups, names, false);
    assert [] + names == names;
  }
}
