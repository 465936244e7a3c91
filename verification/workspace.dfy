/** Listing the files of a task's workspace and serving one of them, where the
    workspaces of other tasks may lie above, below or beside it. */
module Workspace {
  import opened Options
  import opened Paths
  import opened Sequences
  import opened Text

  // A task as the path checks see it; None is a blank workspace path.
  datatype Owner = Owner(id: string, workspace: Option<seq<string>>)

  predicate CleanOwners(tasks: seq<Owner>) {
    forall k :: 0 <= k < |tasks| && tasks[k].workspace.Some? ==> IsPath(tasks[k].workspace.value)
  }

  // Another task whose workspace is not the current one.
  predicate IsForeign(t: Owner, currentId: string, root: seq<string>) {
    t.id != currentId && t.workspace.Some? && t.workspace.value != root
  }

  predicate ForeignRoot(tasks: seq<Owner>, currentId: string, root: seq<string>, p: seq<string>) {
    exists k :: 0 <= k < |tasks| && IsForeign(tasks[k], currentId, root) && tasks[k].workspace.value == p
  }

  // In another task's workspace that does not itself contain the current one.  A
  // workspace at the file system root contains only itself.
  predicate ForeignArea(tasks: seq<Owner>, currentId: string, root: seq<string>, p: seq<string>) {
    exists k :: 0 <= k < |tasks| && IsForeign(tasks[k], currentId, root) && Encloses(tasks[k].workspace.value, root, p)
  }

  predicate Encloses(other: seq<string>, root: seq<string>, p: seq<string>) {
    !(other != [] && other < root) && (p == other || (other != [] && other < p))
  }

  // The path is the workspace of another task, and not the current one.
  predicate HasRoot(t: Owner, currentId: string, root: seq<string>, p: seq<string>) {
    t.id != currentId && t.workspace == Some(p) && p != root
  }

  // Another task has a workspace, other than the current one and not around it, that
  // is the path or around it; one at the root of the file system is around nothing.
  predicate Blocks(t: Owner, currentId: string, root: seq<string>, p: seq<string>) {
    t.id != currentId && t.workspace.Some? &&
    var other := t.workspace.value;
    other != root && !(other != [] && other < root) && (p == other || (other != [] && other < p))
  }

  method IsOtherTaskWorkspaceRoot(tasks: seq<Owner>, currentId: string, root: seq<string>, candidate: seq<string>)
    returns (found: bool)
    requires IsPath(root) && IsPath(candidate) && CleanOwners(tasks)
    ensures found <==> ForeignRoot(tasks, currentId, root, candidate)
    ensures found <==> exists k :: 0 <= k < |tasks| && HasRoot(tasks[k], currentId, root, candidate)
  {
    for k := 0 to |tasks|
      invariant forall j :: 0 <= j < k ==>
        !(IsForeign(tasks[j], currentId, root) && tasks[j].workspace.value == candidate)
    {
      var other := tasks[k];
      if other.id == currentId || other.workspace.None? { continue; }
      var otherRoot := PathText(other.workspace.value);
      TextsDiffer(other.workspace.value, root);
      TextsDiffer(other.workspace.value, candidate);
      if otherRoot == PathText(root) { continue; }
      if PathText(candidate) == otherRoot {
        return true;
      }
    }
    found := false;
  }

  lemma {:induction false} TextsDiffer(p: seq<string>, q: seq<string>)
    requires IsPath(p) && IsPath(q)
    ensures PathText(p) == PathText(q) <==> p == q
  {
    if PathText(p) == PathText(q) {
      PathTextIsInjective(p, q);
    }
  }

  method IsInsideOtherTaskWorkspace(tasks: seq<Owner>, currentId: string, root: seq<string>, candidate: seq<string>)
    returns (found: bool)
    requires IsPath(root) && IsPath(candidate) && CleanOwners(tasks)
    ensures found <==> ForeignArea(tasks, currentId, root, candidate)
    ensures found <==> exists k :: 0 <= k < |tasks| && Blocks(tasks[k], currentId, root, candidate)
  {
    for k := 0 to |tasks|
      invariant forall j :: 0 <= j < k ==>
        !(IsForeign(tasks[j], currentId, root) && Encloses(tasks[j].workspace.value, root, candidate))
    {
      var other := tasks[k];
      if other.id == currentId || other.workspace.None? { continue; }
      var path := other.workspace.value;
      var otherRoot := PathText(path);
      TextsDiffer(path, root);
      TextsDiffer(candidate, path);
      PrefixTest(root, path);
      PrefixTest(candidate, path);
      if otherRoot == PathText(root) { continue; }
      if HasPrefix(PathText(root), otherRoot + "/") { continue; }
      if PathText(candidate) == otherRoot || HasPrefix(PathText(candidate), otherRoot + "/") {
        return true;
      }
    }
    found := false;
  }

  // ---- names that are never shown ----

  predicate HasSuffix(s: string, suffix: string) {
    |suffix| <= |s| && s[|s| - |suffix|..] == suffix
  }

  predicate IsHiddenOrNoise(rel: string) {
    var base := Base(rel);
    var lower := Lower(base);
    || HasPrefix(base, ".")
    || lower in {"package-lock.json", "pnpm-lock.yaml", "yarn.lock"}
    || (exists suffix :: suffix in NOISE_SUFFIXES && HasSuffix(lower, suffix))
  }

  const NOISE_SUFFIXES: set<string> := {".tmp", ".temp", ".part", ".crdownload", ".log", ".bak"}

  predicate IsSensitive(rel: string) {
    var base := Lower(Base(rel));
    || base == ".env" || HasPrefix(base, ".env.")
    || base in {".npmrc", ".pypirc", ".netrc", "id_rsa", "id_dsa", "id_ecdsa", "id_ed25519"}
    || HasSuffix(base, ".pem") || HasSuffix(base, ".key")
  }

  // ---- listing ----

  datatype Node = File(name: string) | Directory(name: string, children: seq<Node>)

  // The task at hand; `keep` stands for the age and stage filters on a file.
  datatype Site = Site(tasks: seq<Owner>, currentId: string, root: seq<string>, keep: seq<string> -> bool)

  predicate CleanSite(site: Site) {
    IsPath(site.root) && CleanOwners(site.tasks)
  }

  const PRUNED: set<string> := {".git", "node_modules", ".next", "dist", "build", "vendor"}

  // Names below the root come from the file system.
  predicate CleanNodes(nodes: seq<Node>) {
    forall k :: 0 <= k < |nodes| ==> IsName(nodes[k].name) && (nodes[k].Directory? ==> CleanNodes(nodes[k].children))
  }

  function Rel(site: Site, path: seq<string>): string
    requires |site.root| <= |path|
  {
    JoinSlash(path[|site.root|..])
  }

  predicate Lists(site: Site, path: seq<string>)
    requires |site.root| <= |path|
  {
    var rel := Rel(site, path);
    site.keep(path) && !HasPrefix(rel, "..") && !IsHiddenOrNoise(rel) && !IsSensitive(rel)
  }

  predicate Skips(site: Site, name: string, path: seq<string>) {
    name in PRUNED || (path != site.root && ForeignRoot(site.tasks, site.currentId, site.root, path))
  }

  // The paths the walk would list without its limit.
  function Visit(site: Site, node: Node, path: seq<string>): seq<seq<string>>
    requires |site.root| <= |path|
    decreases node
  {
    match node
    case File(name) => if Lists(site, path) then [path] else []
    case Directory(name, children) => if Skips(site, name, path) then [] else VisitAll(site, children, path)
  }

  function VisitAll(site: Site, nodes: seq<Node>, path: seq<string>): seq<seq<string>>
    requires |site.root| <= |path|
    decreases nodes
  {
    if nodes == [] then []
    else
      var n := |nodes| - 1;
      VisitAll(site, nodes[..n], path) + Visit(site, nodes[n], path + [nodes[n].name])
  }

  const MAX_FILES := 500

  // The walk stops as soon as it has 500 files.
  function Capped(files: seq<seq<string>>): seq<seq<string>> {
    if |files| > MAX_FILES then files[..MAX_FILES] else files
  }

  method Walk(site: Site, node: Node, path: seq<string>, files0: seq<seq<string>>)
    returns (files: seq<seq<string>>, stop: bool)
    requires CleanSite(site) && IsPath(path) && site.root <= path && |files0| < MAX_FILES
    requires node.Directory? ==> CleanNodes(node.children)
    ensures files == Capped(files0 + Visit(site, node, path))
    ensures stop <==> |files| >= MAX_FILES
    decreases node
  {
    files, stop := files0, false;
    match node {
      case File(name) =>
        var rel := Rel(site, path);
        if site.keep(path) && !HasPrefix(rel, "..") && !(IsHiddenOrNoise(rel) || IsSensitive(rel)) {
          files := files + [path];
          stop := |files| >= 500;
        }
      case Directory(name, children) =>
        if name in PRUNED { return; }
        if path != site.root {
          var foreign := IsOtherTaskWorkspaceRoot(site.tasks, site.currentId, site.root, path);
          if foreign { return; }
        }
        files, stop := WalkAll(site, children, path, files);
    }
  }

  // The entries of one directory.
  method WalkAll(site: Site, nodes: seq<Node>, path: seq<string>, files0: seq<seq<string>>)
    returns (files: seq<seq<string>>, stop: bool)
    requires CleanSite(site) && IsPath(path) && site.root <= path && |files0| < MAX_FILES && CleanNodes(nodes)
    ensures files == Capped(files0 + VisitAll(site, nodes, path))
    ensures stop <==> |files| >= MAX_FILES
    decreases nodes
  {
    files, stop := files0, false;
    for k := 0 to |nodes|
      invariant !stop && |files| < MAX_FILES
      invariant files == files0 + VisitAll(site, nodes[..k], path)
    {
      ghost var before, v := files, Visit(site, nodes[k], path + [nodes[k].name]);
      files, stop := Walk(site, nodes[k], path + [nodes[k].name], files);
      VisitGrows(site, nodes, k, path);
      Regroup(files0, VisitAll(site, nodes[..k], path), v);
      if stop {
        CappedEarly(before + v, files0 + VisitAll(site, nodes, path));
        return;
      }
      assert nodes[..k + 1][..k] == nodes[..k];
    }
    assert nodes[..|nodes|] == nodes;
  }

  lemma {:induction false} CappedEarly(a: seq<seq<string>>, b: seq<seq<string>>)
    requires a <= b && |a| >= MAX_FILES
    ensures Capped(a) == Capped(b)
  {
  }

  // Stopping early loses nothing of the first files.
  lemma {:induction false} VisitGrows(site: Site, nodes: seq<Node>, k: nat, path: seq<string>)
    requires |site.root| <= |path| && k < |nodes|
    ensures VisitAll(site, nodes[..k], path) + Visit(site, nodes[k], path + [nodes[k].name]) <=
      VisitAll(site, nodes, path)
    decreases |nodes|
  {
    var n := |nodes| - 1;
    if k < n {
      VisitGrows(site, nodes[..n], k, path);
      assert nodes[..n][..k] == nodes[..k];
      PrefixOfSum(VisitAll(site, nodes[..k], path) + Visit(site, nodes[k], path + [nodes[k].name]),
        VisitAll(site, nodes[..n], path), Visit(site, nodes[n], path + [nodes[n].name]));
    }
  }

  // No directory strictly between the root and p is another task's workspace.
  predicate WayIsOwn(site: Site, p: seq<string>) {
    forall j :: |site.root| < j < |p| ==> !ForeignRoot(site.tasks, site.currentId, site.root, p[..j])
  }

  // A path the walk may list.
  predicate IsListed(site: Site, p: seq<string>) {
    site.root < p && IsPath(p) && WayIsOwn(site, p) && Lists(site, p)
  }

  lemma {:induction false} VisitedAreListed(site: Site, node: Node, path: seq<string>)
    requires IsPath(path) && site.root <= path && WayIsOwn(site, path)
    requires node.Directory? || site.root < path
    requires node.Directory? ==> CleanNodes(node.children)
    ensures forall p :: p in Visit(site, node, path) ==> IsListed(site, p)
    decreases node
  {
    if node.Directory? && !Skips(site, node.name, path) {
      AllVisitedAreListed(site, node.children, path);
    }
  }

  lemma {:induction false} AllVisitedAreListed(site: Site, nodes: seq<Node>, path: seq<string>)
    requires IsPath(path) && site.root <= path && WayIsOwn(site, path) && CleanNodes(nodes)
    requires path != site.root ==> !ForeignRoot(site.tasks, site.currentId, site.root, path)
    ensures forall p :: p in VisitAll(site, nodes, path) ==> IsListed(site, p)
    decreases nodes
  {
    if nodes != [] {
      var n := |nodes| - 1;
      AllVisitedAreListed(site, nodes[..n], path);
      var child := path + [nodes[n].name];
      forall j | |site.root| < j < |child|
        ensures !ForeignRoot(site.tasks, site.currentId, site.root, child[..j])
      {
        if j < |path| {
          assert child[..j] == path[..j];
        } else {
          assert child[..j] == path;
        }
      }
      VisitedAreListed(site, nodes[n], child);
    }
  }

  lemma {:induction false} CappedAreListed(site: Site, top: Node)
    requires CleanSite(site) && top.Directory? && CleanNodes(top.children)
    ensures var paths := Capped(Visit(site, top, site.root));
      forall k :: 0 <= k < |paths| ==> IsListed(site, paths[k])
  {
    VisitedAreListed(site, top, site.root);
    var all := Visit(site, top, site.root);
    assert forall k :: 0 <= k < |all| ==> all[k] in all;
  }

  // ---- what the walk finds, said without the walk ----

  // A file under these nodes, by the names on the way to it.
  ghost predicate FileIn(nodes: seq<Node>, names: seq<string>)
    decreases |names|
  {
    exists k :: 0 <= k < |nodes| && IsWayTo(nodes[k], names)
  }

  ghost predicate IsWayTo(node: Node, names: seq<string>)
    decreases |names|, 0
  {
    names != [] && node.name == names[0] &&
    if |names| == 1 then node.File? else node.Directory? && FileIn(node.children, names[1..])
  }

  // No directory on the way from `path` is skipped.
  ghost predicate OpenWay(site: Site, path: seq<string>, names: seq<string>) {
    forall j :: 0 < j < |names| ==> !Skips(site, names[..j][j - 1], path + names[..j])
  }

  lemma {:induction false} VisitIsBelow(site: Site, node: Node, path: seq<string>)
    requires |site.root| <= |path|
    ensures forall p :: p in Visit(site, node, path) ==> if node.File? then p == path else path < p
    decreases node
  {
    if node.Directory? && !Skips(site, node.name, path) {
      VisitAllIsBelow(site, node.children, path);
    }
  }

  lemma {:induction false} VisitAllIsBelow(site: Site, nodes: seq<Node>, path: seq<string>)
    requires |site.root| <= |path|
    ensures forall p :: p in VisitAll(site, nodes, path) ==> path < p
    decreases nodes
  {
    if nodes != [] {
      var n := |nodes| - 1;
      VisitAllIsBelow(site, nodes[..n], path);
      VisitIsBelow(site, nodes[n], path + [nodes[n].name]);
    }
  }

  lemma {:induction false} OpenWayStep(site: Site, path: seq<string>, names: seq<string>)
    requires |names| > 1
    ensures OpenWay(site, path, names) <==>
      !Skips(site, names[0], path + [names[0]]) && OpenWay(site, path + [names[0]], names[1..])
  {
    var child, rest := path + [names[0]], names[1..];
    assert names[..1] == [names[0]];
    forall j | 0 < j < |rest|
      ensures rest[..j][j - 1] == names[..j + 1][j] && child + rest[..j] == path + names[..j + 1]
    {
      assert names[..j + 1] == [names[0]] + rest[..j];
    }
    if OpenWay(site, path, names) {
      assert !Skips(site, names[..1][0], path + names[..1]);
      forall j | 0 < j < |rest|
        ensures !Skips(site, rest[..j][j - 1], child + rest[..j])
      {
        assert !Skips(site, names[..j + 1][j], path + names[..j + 1]);
      }
    }
    if !Skips(site, names[0], child) && OpenWay(site, child, rest) {
      forall j | 0 < j < |names|
        ensures !Skips(site, names[..j][j - 1], path + names[..j])
      {
        if j > 1 {
          assert !Skips(site, rest[..j - 1][j - 2], child + rest[..j - 1]);
        }
      }
    }
  }

  lemma {:induction false} BelowStartsWith(path: seq<string>, name: string, names: seq<string>)
    ensures path + [name] < path + names ==> |names| > 1 && names[0] == name
  {
    var p := path + names;
    assert names == p[|path|..];
    if path + [name] < p {
      assert p[|path|] == (path + [name])[|path|];
    }
  }

  lemma {:induction false} VisitExactly(site: Site, node: Node, path: seq<string>, names: seq<string>)
    requires |site.root| <= |path|
    ensures path + names in Visit(site, node, path + [node.name]) <==>
      IsWayTo(node, names) && OpenWay(site, path, names) && Lists(site, path + names)
    decreases node
  {
    var child, p := path + [node.name], path + names;
    VisitIsBelow(site, node, child);
    match node {
      case File(name) =>
        if p == child {
          assert names == p[|path|..] == [name];
        }
      case Directory(name, children) =>
        if |names| > 1 && names[0] == name {
          assert p == child + names[1..];
          OpenWayStep(site, path, names);
          VisitAllExactly(site, children, child, names[1..]);
        } else {
          BelowStartsWith(path, name, names);
        }
    }
  }

  // The walk finds exactly the files to which a way is open and that pass the filters.
  lemma {:induction false} VisitAllExactly(site: Site, nodes: seq<Node>, path: seq<string>, names: seq<string>)
    requires |site.root| <= |path|
    ensures path + names in VisitAll(site, nodes, path) <==>
      FileIn(nodes, names) && OpenWay(site, path, names) && Lists(site, path + names)
    decreases nodes
  {
    if nodes != [] {
      var n := |nodes| - 1;
      VisitAllExactly(site, nodes[..n], path, names);
      VisitExactly(site, nodes[n], path, names);
      assert FileIn(nodes, names) <==> FileIn(nodes[..n], names) || IsWayTo(nodes[n], names) by {
        assert forall k :: 0 <= k < n ==> nodes[..n][k] == nodes[k];
      }
    }
  }

  // Siblings differ in name.
  predicate DistinctNames(nodes: seq<Node>) {
    && (forall j, k :: 0 <= j < k < |nodes| ==> nodes[j].name != nodes[k].name)
    && forall k :: 0 <= k < |nodes| && nodes[k].Directory? ==> DistinctNames(nodes[k].children)
  }

  ghost predicate AllDiffer(paths: seq<seq<string>>) {
    forall i, j :: 0 <= i < j < |paths| ==> paths[i] != paths[j]
  }

  // Every visited path goes through the name of one of the nodes.
  ghost predicate GoesThrough(p: seq<string>, path: seq<string>, nodes: seq<Node>) {
    |p| > |path| && exists k :: 0 <= k < |nodes| && nodes[k].name == p[|path|]
  }

  lemma {:induction false} VisitGoesThrough(site: Site, node: Node, path: seq<string>)
    requires |site.root| <= |path|
    ensures forall p :: p in Visit(site, node, path + [node.name]) ==> |p| > |path| && p[|path|] == node.name
  {
    var child := path + [node.name];
    VisitIsBelow(site, node, child);
    forall p | p in Visit(site, node, child)
      ensures |p| > |path| && p[|path|] == node.name
    {
      assert child <= p && child[|path|] == node.name;
    }
  }

  lemma {:induction false} GoesThroughMore(p: seq<string>, path: seq<string>, nodes: seq<Node>, n: nat)
    requires n <= |nodes| && GoesThrough(p, path, nodes[..n])
    ensures GoesThrough(p, path, nodes)
  {
    var k :| 0 <= k < n && nodes[..n][k].name == p[|path|];
    assert nodes[k].name == p[|path|];
  }

  lemma {:induction false} AllGoThrough(site: Site, nodes: seq<Node>, path: seq<string>, p: seq<string>)
    requires |site.root| <= |path| && p in VisitAll(site, nodes, path)
    ensures GoesThrough(p, path, nodes)
    decreases |nodes|
  {
    var n := |nodes| - 1;
    if p in VisitAll(site, nodes[..n], path) {
      AllGoThrough(site, nodes[..n], path, p);
      GoesThroughMore(p, path, nodes, n);
    } else {
      VisitGoesThrough(site, nodes[n], path);
    }
  }

  lemma {:induction false} DifferTogether(a: seq<seq<string>>, b: seq<seq<string>>)
    requires AllDiffer(a) && AllDiffer(b) && forall p :: p in a ==> p !in b
    ensures AllDiffer(a + b)
  {
    forall i, j | 0 <= i < j < |a + b|
      ensures (a + b)[i] != (a + b)[j]
    {
      if i < |a| <= j {
        assert a[i] in a && b[j - |a|] in b;
      }
    }
  }

  lemma {:induction false} NodesBefore(nodes: seq<Node>)
    requires DistinctNames(nodes) && nodes != []
    ensures DistinctNames(nodes[..|nodes| - 1])
  {
  }

  // No file is visited twice.
  lemma {:induction false} VisitedOnce(site: Site, nodes: seq<Node>, path: seq<string>)
    requires |site.root| <= |path| && DistinctNames(nodes)
    ensures AllDiffer(VisitAll(site, nodes, path))
    decreases nodes
  {
    if nodes != [] {
      var n := |nodes| - 1;
      var child := path + [nodes[n].name];
      NodesBefore(nodes);
      VisitedOnce(site, nodes[..n], path);
      if nodes[n].Directory? {
        VisitedOnce(site, nodes[n].children, child);
      }
      VisitGoesThrough(site, nodes[n], path);
      forall p | p in VisitAll(site, nodes[..n], path)
        ensures p !in Visit(site, nodes[n], child)
      {
        AllGoThrough(site, nodes[..n], path, p);
      }
      DifferTogether(VisitAll(site, nodes[..n], path), Visit(site, nodes[n], child));
    }
  }

  lemma {:induction false} CappedIsFirst500(all: seq<seq<string>>)
    ensures |Capped(all)| == if |all| <= 500 then |all| else 500
    ensures forall k :: 0 <= k < |Capped(all)| ==> Capped(all)[k] == all[k]
  {
  }

  method Relatives(site: Site, files: seq<seq<string>>) returns (rels: seq<string>)
    requires forall k :: 0 <= k < |files| ==> |site.root| <= |files[k]|
    ensures |rels| == |files|
    ensures forall k :: 0 <= k < |files| ==> rels[k] == JoinSlash(files[k][|site.root|..])
  {
    rels := [];
    for k := 0 to |files|
      invariant |rels| == k
      invariant forall j :: 0 <= j < k ==> rels[j] == JoinSlash(files[j][|site.root|..])
    {
      rels := rels + [Rel(site, files[k])];
    }
  }

  method ListWorkspaceFiles(site: Site, top: Node) returns (rels: seq<string>)
    requires CleanSite(site) && top.Directory? && CleanNodes(top.children)
    ensures var all := Visit(site, top, site.root);
      && |rels| == (if |all| <= 500 then |all| else 500)
      && forall k :: 0 <= k < |rels| ==> IsListed(site, all[k]) && rels[k] == JoinSlash(all[k][|site.root|..])
  {
    var files, _ := Walk(site, top, site.root, []);
    ghost var all := Visit(site, top, site.root);
    assert [] + all == all;
    CappedAreListed(site, top);
    CappedIsFirst500(all);
    rels := Relatives(site, files);
  }

  // ---- serving ----

  datatype Answer = Served(path: string) | BadPath | Forbidden

  function WithoutSlash(request: string): string {
    if HasPrefix(request, "/") then request[1..] else request
  }

  // The answer in terms of paths.
  function Serve(site: Site, request: string): Answer {
    var rel := Clean(WithoutSlash(request));
    if rel == "." || HasPrefix(rel, "..") || IsAbs(rel) then BadPath
    else if IsSensitive(rel) || site.root == [] then Forbidden
    else
      var p := site.root + SplitSlash(rel);
      if ForeignArea(site.tasks, site.currentId, site.root, p) then Forbidden else Served(PathText(p))
  }

  method ServeWorkspaceFile(site: Site, request: string) returns (answer: Answer)
    requires CleanSite(site)
    ensures answer == Serve(site, request)
  {
    var root := PathText(site.root);
    var rel := Clean(WithoutSlash(request));
    if rel == "." || HasPrefix(rel, "..") || IsAbs(rel) {
      return BadPath;
    }
    if IsSensitive(rel) {
      return Forbidden;
    }
    var abs := Clean(root + "/" + rel);
    var path := site.root + SplitSlash(rel);
    ghost var p := CleanIsPath(WithoutSlash(request));
    SplitOfJoin(p);
    JoinOfPath(site.root, p);
    assert abs == PathText(path);
    TextsDiffer(path, site.root);
    PrefixTest(path, site.root);
    if abs != root && !HasPrefix(abs, root + "/") {
      return Forbidden;
    }
    var inside := IsInsideOtherTaskWorkspace(site.tasks, site.currentId, site.root, path);
    if inside {
      return Forbidden;
    }
    answer := Served(abs);
  }

  lemma {:induction false} ServedNames(site: Site, request: string) returns (names: seq<string>)
    requires CleanSite(site) && Serve(site, request).Served?
    ensures IsPath(names) && names != [] && !IsSensitive(JoinSlash(names))
    ensures Serve(site, request) == Served(PathText(site.root + names))
    ensures !ForeignArea(site.tasks, site.currentId, site.root, site.root + names)
  {
    names := CleanIsPath(WithoutSlash(request));
    SplitOfJoin(names);
  }

  // Whatever is asked for, what is served lies strictly below the root, has no
  // sensitive name and is in no foreign workspace.
  lemma {:induction false} ServedIsConfined(site: Site, request: string) returns (p: seq<string>)
    requires CleanSite(site) && Serve(site, request).Served?
    ensures IsPath(p) && site.root < p && Serve(site, request) == Served(PathText(p))
    ensures p[|p| - 1] != "" && !IsSecret(p[|p| - 1])
    ensures !ForeignArea(site.tasks, site.currentId, site.root, p)
  {
    var names := ServedNames(site, request);
    p := site.root + names;
    CleanOfPath(names);
    SecretExactly(JoinSlash(names));
    assert IsName(p[|p| - 1]);
  }

  lemma {:induction false} NotBetween(site: Site, p: seq<string>, j: nat, k: nat)
    requires IsListed(site, p) && |site.root| < j < |p|
    requires k < |site.tasks| && IsForeign(site.tasks[k], site.currentId, site.root)
    ensures site.tasks[k].workspace.value != p[..j]
  {
    assert !ForeignRoot(site.tasks, site.currentId, site.root, p[..j]);
  }

  lemma {:induction false} PrefixesCompare(a: seq<string>, b: seq<string>, p: seq<string>)
    requires a <= p && b <= p && |a| <= |b|
    ensures a <= b
  {
  }

  // On the way down from the root the walk has kept out of foreign workspaces.
  lemma {:induction false} ListedIsOwn(site: Site, p: seq<string>)
    requires CleanSite(site) && IsListed(site, p) && site.root != []
    ensures ForeignArea(site.tasks, site.currentId, site.root, p) <==>
      ForeignRoot(site.tasks, site.currentId, site.root, p)
  {
    forall k | 0 <= k < |site.tasks| && IsForeign(site.tasks[k], site.currentId, site.root)
      ensures Encloses(site.tasks[k].workspace.value, site.root, p) <==> site.tasks[k].workspace.value == p
    {
      var other := site.tasks[k].workspace.value;
      if |site.root| < |other| < |p| {
        NotBetween(site, p, |other|, k);
      } else if other <= p && |other| <= |site.root| {
        PrefixesCompare(other, site.root, p);
      }
    }
  }

  // A listed file is served exactly when the root is not that of the file system
  // and the file is not itself the workspace of another task: so for workspaces
  // that are directories other than "/", always.
  lemma {:induction false} ListedIsServedExactly(site: Site, p: seq<string>)
    requires CleanSite(site) && IsListed(site, p)
    ensures Serve(site, Rel(site, p)) ==
      if site.root != [] && !ForeignRoot(site.tasks, site.currentId, site.root, p)
        then Served(PathText(p)) else Forbidden
  {
    var names := p[|site.root|..];
    assert site.root + names == p;
    assert IsPath(names) && names != [];
    CleanOfPath(names);
    SplitOfJoin(names);
    JoinStarts(names);
    assert IsName(names[0]) && JoinSlash(names)[0] == names[0][0] != '/';
    if site.root != [] {
      ListedIsOwn(site, p);
    }
  }

  lemma {:induction false} OneLetterIsShown(w: string)
    requires |w| == 1 && IsName(w)
    ensures JoinSlash([w]) == w && !HasPrefix(w, "..") && !IsHiddenOrNoise(w) && !IsSensitive(w)
  {
    SplitOfJoin([w]);
    assert Base(w) == w && |Lower(w)| == 1;
    assert w[0] == '.' ==> w == ".";
  }

  // A file in a workspace at the root of the file system is listed, then refused.
  lemma {:induction false} RootFileIsRefused()
    ensures var site := Site([], "t", [], _ => true);
      IsListed(site, ["a"]) && Serve(site, "a") == Forbidden
  {
    var site := Site([], "t", [], _ => true);
    OneLetterIsShown("a");
    assert ["a"][|site.root|..] == ["a"];
    ListedIsServedExactly(site, ["a"]);
  }

  // So is a file that another task names as its workspace.
  lemma {:induction false} ForeignFileIsRefused()
    ensures var site := Site([Owner("u", Some(["w", "a"]))], "t", ["w"], _ => true);
      IsListed(site, ["w", "a"]) && Serve(site, "a") == Forbidden
  {
    var site, p := Site([Owner("u", Some(["w", "a"]))], "t", ["w"], _ => true), ["w", "a"];
    OneLetterIsShown("a");
    assert p[|site.root|..] == ["a"];
    assert site.root < p;
    assert IsForeign(site.tasks[0], "t", ["w"]) && site.tasks[0].workspace.value == p;
    ListedIsServedExactly(site, p);
  }

  // ---- which names are shown ----

  // Letters differ at most in case, and these are the small ones.
  lemma {:induction false} LowerExactly(s: string)
    ensures |Lower(s)| == |s|
    ensures forall k :: 0 <= k < |s| ==>
      Lower(s)[k] as int == if 'A' <= s[k] <= 'Z' then s[k] as int + 32 else s[k] as int
  {
  }

  predicate Ends(w: string, suffix: string) {
    |w| >= |suffix| && w[|w| - |suffix|..] == suffix
  }

  // The names of keys and of files with secrets, in any case.
  predicate IsSecret(name: string) {
    var w := Lower(name);
    || w in {".env", ".npmrc", ".pypirc", ".netrc", "id_rsa", "id_dsa", "id_ecdsa", "id_ed25519"}
    || (|w| >= 5 && w[..5] == ".env.")
    || Ends(w, ".pem") || Ends(w, ".key")
  }

  // Hidden files, lock files and what is left over by tools.
  predicate IsClutter(name: string) {
    var w := Lower(name);
    || (name != "" && name[0] == '.')
    || w in {"package-lock.json", "pnpm-lock.yaml", "yarn.lock"}
    || Ends(w, ".tmp") || Ends(w, ".temp") || Ends(w, ".part") || Ends(w, ".crdownload") || Ends(w, ".log") ||
      Ends(w, ".bak")
  }

  lemma {:induction false} SecretExactly(rel: string)
    ensures IsSensitive(rel) <==> IsSecret(Base(rel))
  {
    LowerExactly(Base(rel));
  }

  lemma {:induction false} ClutterExactly(rel: string)
    ensures IsHiddenOrNoise(rel) <==> IsClutter(Base(rel))
  {
    NoiseExactly(Lower(Base(rel)));
  }

  ghost predicate HasNoise(w: string) {
    exists suffix :: suffix in NOISE_SUFFIXES && HasSuffix(w, suffix)
  }

  lemma {:induction false} NoiseExactly(w: string)
    ensures HasNoise(w) <==>
      Ends(w, ".tmp") || Ends(w, ".temp") || Ends(w, ".part") || Ends(w, ".crdownload") || Ends(w, ".log") ||
      Ends(w, ".bak")
  {
    if HasNoise(w) {
      var suffix :| suffix in NOISE_SUFFIXES && HasSuffix(w, suffix);
      assert Ends(w, suffix);
    }
    NoiseOf(w, ".tmp");
    NoiseOf(w, ".temp");
    NoiseOf(w, ".part");
    NoiseOf(w, ".crdownload");
    NoiseOf(w, ".log");
    NoiseOf(w, ".bak");
  }

  lemma {:induction false} NoiseOf(w: string, suffix: string)
    requires suffix in NOISE_SUFFIXES
    ensures Ends(w, suffix) ==> HasNoise(w)
  {
    assert Ends(w, suffix) ==> HasSuffix(w, suffix);
  }

  lemma {:induction false} JoinedDots(names: seq<string>)
    requires IsPath(names) && names != []
    ensures HasPrefix(JoinSlash(names), "..") <==> HasPrefix(names[0], "..")
  {
    JoinStarts(names);
    SplitOfJoin(names);
    var rel, first := JoinSlash(names), names[0];
    assert IsName(first);
    if |names| == 1 {
      assert rel == first;
    } else if |first| == 1 {
      JoinSecond(names);
      assert rel[1] == '/';
    } else {
      assert rel[0] == first[0] && rel[1] == first[1];
    }
  }

  lemma {:induction false} JoinSecond(names: seq<string>)
    requires |names| > 1
    ensures HasPrefix(JoinSlash(names), names[0] + "/")
  {
    if |names| > 2 {
      JoinSecond(names[..|names| - 1]);
    }
  }

  // A file below the root is shown if the filters keep it, its first name does not
  // start with two dots, and its own name is neither clutter nor secret.
  lemma {:induction false} ListsExactly(site: Site, p: seq<string>)
    requires CleanSite(site) && IsPath(p) && site.root < p
    ensures var names := p[|site.root|..];
      names != [] && names[|names| - 1] != "" &&
      (Lists(site, p) <==>
         site.keep(p) && !HasPrefix(names[0], "..") && !IsClutter(names[|names| - 1]) && !IsSecret(names[|names| - 1]))
  {
    var names := p[|site.root|..];
    assert IsPath(names) && IsName(names[|names| - 1]);
    CleanOfPath(names);
    JoinedDots(names);
    SecretExactly(JoinSlash(names));
    ClutterExactly(JoinSlash(names));
  }

  // A directory is passed by for its name, or because it is the workspace of another
  // task; the root only for its name.
  lemma {:induction false} SkipsExactly(site: Site, name: string, p: seq<string>)
    ensures Skips(site, name, p) <==>
      name in {".git", "node_modules", ".next", "dist", "build", "vendor"} ||
      exists k :: 0 <= k < |site.tasks| && HasRoot(site.tasks[k], site.currentId, site.root, p)
  {
    assert forall k :: 0 <= k < |site.tasks| ==>
      (HasRoot(site.tasks[k], site.currentId, site.root, p) <==>
         p != site.root && IsForeign(site.tasks[k], site.currentId, site.root) && site.tasks[k].workspace.value == p);
  }

  // ---- what is served ----

  predicate Blocked(site: Site, p: seq<string>) {
    exists k :: 0 <= k < |site.tasks| && Blocks(site.tasks[k], site.currentId, site.root, p)
  }

  // The answer to a request for a path of names, with or without a slash in front.
  lemma {:induction false} ServesExactly(site: Site, names: seq<string>, request: string)
    requires CleanSite(site) && IsPath(names) && names != []
    requires request == JoinSlash(names) || request == "/" + JoinSlash(names)
    ensures names[|names| - 1] != ""
    ensures Serve(site, request) ==
      if HasPrefix(names[0], "..") then BadPath
      else if IsSecret(names[|names| - 1]) || site.root == [] then Forbidden
      else if Blocked(site, site.root + names) then Forbidden
      else Served(PathText(site.root + names))
  {
    assert IsName(names[|names| - 1]);
    CleanOfPath(names);
    JoinedDots(names);
    SplitOfJoin(names);
    SecretExactly(JoinSlash(names));
    RequestIsJoined(names, request);
    AreaIsBlocked(site, site.root + names);
  }

  lemma {:induction false} RequestIsJoined(names: seq<string>, request: string)
    requires IsPath(names) && names != []
    requires request == JoinSlash(names) || request == "/" + JoinSlash(names)
    ensures WithoutSlash(request) == JoinSlash(names)
  {
    CleanOfPath(names);
    assert ("/" + JoinSlash(names))[1..] == JoinSlash(names);
  }

  lemma {:induction false} AreaIsBlocked(site: Site, p: seq<string>)
    ensures ForeignArea(site.tasks, site.currentId, site.root, p) <==> Blocked(site, p)
  {
    assert forall k :: 0 <= k < |site.tasks| ==>
      (Blocks(site.tasks[k], site.currentId, site.root, p) <==>
         IsForeign(site.tasks[k], site.currentId, site.root) &&
         Encloses(site.tasks[k].workspace.value, site.root, p));
  }
}
