/** Why a safe identifier names a directory of its own. */
module StorePaths {
  import opened Text
  import opened Paths
  import opened StoreModel

  lemma {:induction false} TrimLeftKeeps(s: string, c: char)
    requires c in s && !IsSpace(c)
    ensures c in TrimLeft(s)
  {
    if IsSpace(s[0]) {
      assert s == [s[0]] + s[1..];
      TrimLeftKeeps(s[1..], c);
    }
  }

  lemma {:induction false} TrimRightKeeps(s: string, c: char)
    requires c in s && !IsSpace(c)
    ensures c in TrimRight(s)
  {
    var n := |s| - 1;
    if IsSpace(s[n]) {
      assert s == s[..n] + [s[n]];
      TrimRightKeeps(s[..n], c);
    }
  }

  lemma {:induction false} TrimOfWord(w: string)
    requires Word(w)
    ensures Trim(w) == w
  {
    TrimOf("", w, "");
    assert "" + w + "" == w;
  }

  // Around the white space, a safe identifier is a plain name without backslashes.
  lemma {:induction false} SafeIdExactly(id: string)
    ensures SafeDiskId(id) <==> IsName(Trim(id)) && '\\' !in Trim(id)
  {
  }

  lemma {:induction false} SafeIdIsName(id: string)
    requires SafeDiskId(id)
    ensures IsName(id)
  {
    if '/' in id {
      TrimLeftKeeps(id, '/');
      TrimRightKeeps(TrimLeft(id), '/');
    }
    TrimOfWord(".");
    TrimOfWord("..");
    TrimIsEmpty("");
  }

  // Joined to any root, it names a directory directly below.
  lemma {:induction false} SafeIdStaysBelow(root: seq<string>, id: string)
    requires SafeDiskId(id) && IsPath(root)
    ensures Clean(PathText(root) + "/" + id) == PathText(root + [id]) && IsPath(root + [id])
  {
    SafeIdIsName(id);
    JoinOfPath(root, [id]);
    JoinStarts([id]);
  }
}
