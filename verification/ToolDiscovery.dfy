/** Finding the tools: a depth-first walk of a directory graph that symbolic links may make
    cyclic. A directory is known by its real identity, a number; a path is what was walked. */
module ToolDiscovery {
  import opened Common

  type Path = seq<string>

  /** What following an entry leads to. A directory whose links cannot be resolved has no
      real identity. */
  datatype Node = SubDir(target: Option<nat>) | Tool | Other | Broken

  datatype Entry = Entry(name: string, node: Node)

  /** The directories by identity; None if one cannot be read. */
  type Tree = map<nat, Option<seq<Entry>>>

  ghost predicate Closed(fs: Tree) {
    forall d, i | d in fs && fs[d].Some? && 0 <= i < |fs[d].value| ::
      fs[d].value[i].node.SubDir? && fs[d].value[i].node.target.Some? ==> fs[d].value[i].node.target.value in fs
  }

  /** A tool: where it was found, and the entry numbers along the walk to it. */
  datatype Found = Found(dir: nat, index: nat, name: string, path: Path, pos: seq<nat>)

  datatype State = State(visited: set<nat>, listed: seq<nat>, found: seq<Found>, ok: bool)

  const EMPTY := State({}, [], [], true)

  ghost predicate Fits(fs: Tree, s: State) {
    Closed(fs) && s.ok && s.visited <= fs.Keys
  }

  function Walk(fs: Tree, path: Path, pos: seq<nat>, target: Option<nat>, s: State): (s': State)
    requires Fits(fs, s) && (target.Some? ==> target.value in fs)
    ensures s.visited <= s'.visited <= fs.Keys
    decreases fs.Keys - s.visited, 0
  {
    if target.None? || target.value in s.visited then s
    else
      var s1 := s.(visited := s.visited + {target.value}, listed := s.listed + [target.value]);
      if fs[target.value].None? then s1.(ok := false)
      else WalkEntries(fs, path, pos, target.value, 0, s1)
  }

  /** The walk of directory `d` from its `i`-th entry on. */
  function WalkEntries(fs: Tree, path: Path, pos: seq<nat>, d: nat, i: nat, s: State): (s': State)
    requires Fits(fs, s) && d in fs && fs[d].Some? && i <= |fs[d].value|
    ensures s.visited <= s'.visited <= fs.Keys
    decreases fs.Keys - s.visited, 1 + |fs[d].value| - i
  {
    if i == |fs[d].value| then s
    else
      var entry := fs[d].value[i];
      match entry.node
      case SubDir(target) =>
        var s1 := Walk(fs, path + [entry.name], pos + [i], target, s);
        if !s1.ok then s1 else WalkEntries(fs, path, pos, d, i + 1, s1)
      case Tool =>
        WalkEntries(fs, path, pos, d, i + 1, s.(found := s.found + [Found(d, i, entry.name, path + [entry.name], pos + [i])]))
      case _ => WalkEntries(fs, path, pos, d, i + 1, s)
  }

  /** The last tool of a name wins. */
  function ToolMap(found: seq<Found>): map<string, Path> {
    if found == [] then map[]
    else var last := found[|found| - 1]; ToolMap(found[..|found| - 1])[last.name := last.path]
  }

  // ---- as it is written

  class Discovery {
    var toolMap: map<string, Path>
    var visited: set<nat>

    constructor ()
      ensures toolMap == map[] && visited == {}
    {
      toolMap, visited := map[], {};
    }

    method WalkDir(fs: Tree, path: Path, ghost pos: seq<nat>, target: Option<nat>, ghost s: State) returns (ok: bool)
      requires Fits(fs, s) && (target.Some? ==> target.value in fs)
      requires visited == s.visited && toolMap == ToolMap(s.found)
      modifies this
      ensures var s' := Walk(fs, path, pos, target, s);
              visited == s'.visited && toolMap == ToolMap(s'.found) && ok == s'.ok
      decreases fs.Keys - s.visited
    {
      if target.None? { return true; }
      var d := target.value;
      if d in visited { return true; }
      visited := visited + {d};
      if fs[d].None? { return false; }
      var entries := fs[d].value;
      ghost var s1 := s.(visited := s.visited + {d}, listed := s.listed + [d]);
      ghost var cur := s1;
      for i := 0 to |entries|
        invariant Fits(fs, cur) && d in cur.visited && s.visited <= cur.visited
        invariant visited == cur.visited && toolMap == ToolMap(cur.found)
        invariant WalkEntries(fs, path, pos, d, i, cur) == WalkEntries(fs, path, pos, d, 0, s1)
      {
        var name := entries[i].name;
        match entries[i].node {
          case SubDir(next) =>
            var fine := WalkDir(fs, path + [name], pos + [i], next, cur);
            cur := Walk(fs, path + [name], pos + [i], next, cur);
            if !fine { return false; }
          case Tool =>
            toolMap := toolMap[name := path + [name]];
            ghost var tool := Found(d, i, name, path + [name], pos + [i]);
            assert (cur.found + [tool])[..|cur.found|] == cur.found;
            cur := cur.(found := cur.found + [tool]);
          case _ =>
        }
      }
      return true;
    }
  }

  method DiscoverToolsMap(fs: Tree, tools: Option<nat>) returns (toolMap: Option<map<string, Path>>)
    requires Closed(fs) && (tools.Some? ==> tools.value in fs)
    ensures var s := Walk(fs, [], [], tools, EMPTY);
            toolMap == if s.ok then Some(ToolMap(s.found)) else None
    ensures tools.None? ==> toolMap == Some(map[])
  {
    var walk := new Discovery();
    var ok := walk.WalkDir(fs, [], [], tools, EMPTY);
    toolMap := if ok then Some(walk.toolMap) else None;
  }

  // ---- what the walk reaches

  ghost predicate HasEntry(fs: Tree, d: nat, i: nat, entry: Entry) {
    d in fs && fs[d].Some? && i < |fs[d].value| && fs[d].value[i] == entry
  }

  ghost predicate IsTool(fs: Tree, d: nat, i: nat, name: string) {
    HasEntry(fs, d, i, Entry(name, Tool))
  }

  ghost predicate HasLink(fs: Tree, p: nat, name: string, d: nat) {
    exists i: nat :: HasEntry(fs, p, i, Entry(name, SubDir(Some(d))))
  }

  /** Following `path` from the directory `root` can lead to the directory `d`. */
  ghost predicate Resolves(fs: Tree, root: nat, path: Path, d: nat) {
    if path == [] then d == root
    else
      var init, last := path[..|path| - 1], path[|path| - 1];
      exists p: nat :: HasLink(fs, p, last, d) && Resolves(fs, root, init, p)
  }

  ghost predicate Reachable(fs: Tree, root: nat, d: nat) {
    exists path :: Resolves(fs, root, path, d)
  }

  lemma ResolvesOn(fs: Tree, root: nat, path: Path, d: nat, i: nat, name: string, next: nat)
    requires Resolves(fs, root, path, d) && HasEntry(fs, d, i, Entry(name, SubDir(Some(next))))
    ensures Resolves(fs, root, path + [name], next)
  {
    assert (path + [name])[..|path|] == path && HasLink(fs, d, name, next);
  }

  /** Only reachable directories are visited, each is listed once, and every tool found is
      one, under a path that leads to it. A walk that failed met an unreadable directory. */
  ghost predicate Sound(fs: Tree, root: nat, s: State) {
    && (forall n <- s.visited :: Reachable(fs, root, n))
    && NoDup(s.listed) && (forall n :: n in s.listed <==> n in s.visited)
    && (forall f <- s.found :: SoundFind(fs, root, s, f))
    && (!s.ok ==> exists n <- s.visited :: n in fs && fs[n].None?)
  }

  ghost predicate SoundFind(fs: Tree, root: nat, s: State, f: Found) {
    && f.dir in s.visited && IsTool(fs, f.dir, f.index, f.name)
    && |f.path| > 0 && f.path[|f.path| - 1] == f.name && Resolves(fs, root, f.path[..|f.path| - 1], f.dir)
  }

  lemma {:induction false} WalkSound(fs: Tree, root: nat, path: Path, pos: seq<nat>, target: Option<nat>, s: State)
    requires Fits(fs, s) && (target.Some? ==> target.value in fs)
    requires Sound(fs, root, s) && (target.Some? ==> Resolves(fs, root, path, target.value))
    ensures Sound(fs, root, Walk(fs, path, pos, target, s))
    decreases fs.Keys - s.visited, 0
  {
    if target.Some? && target.value !in s.visited {
      var s1 := s.(visited := s.visited + {target.value}, listed := s.listed + [target.value]);
      assert Sound(fs, root, s1) by {
        forall f <- s1.found ensures SoundFind(fs, root, s1, f) { assert SoundFind(fs, root, s, f); }
      }
      if fs[target.value].Some? {
        EntriesSound(fs, root, path, pos, target.value, 0, s1);
      } else {
        var s2 := s1.(ok := false);
        assert target.value in s2.visited;
        forall f <- s2.found ensures SoundFind(fs, root, s2, f) { assert SoundFind(fs, root, s1, f); }
      }
    }
  }

  lemma {:induction false} EntriesSound(fs: Tree, root: nat, path: Path, pos: seq<nat>, d: nat, i: nat, s: State)
    requires Fits(fs, s) && d in fs && fs[d].Some? && i <= |fs[d].value|
    requires Sound(fs, root, s) && d in s.visited && Resolves(fs, root, path, d)
    ensures Sound(fs, root, WalkEntries(fs, path, pos, d, i, s))
    decreases fs.Keys - s.visited, 1 + |fs[d].value| - i
  {
    if i < |fs[d].value| {
      var entry := fs[d].value[i];
      match entry.node {
        case SubDir(target) =>
          if target.Some? { ResolvesOn(fs, root, path, d, i, entry.name, target.value); }
          WalkSound(fs, root, path + [entry.name], pos + [i], target, s);
          var s1 := Walk(fs, path + [entry.name], pos + [i], target, s);
          if s1.ok { EntriesSound(fs, root, path, pos, d, i + 1, s1); }
        case Tool =>
          var tool := Found(d, i, entry.name, path + [entry.name], pos + [i]);
          var s1 := s.(found := s.found + [tool]);
          assert tool.path[..|tool.path| - 1] == path;
          forall f <- s1.found ensures SoundFind(fs, root, s1, f) {
            if f != tool { assert SoundFind(fs, root, s, f); }
          }
          EntriesSound(fs, root, path, pos, d, i + 1, s1);
        case _ =>
          EntriesSound(fs, root, path, pos, d, i + 1, s);
      }
    }
  }

  ghost predicate HasFound(found: seq<Found>, d: nat, i: nat) {
    exists k | 0 <= k < |found| :: found[k].dir == d && found[k].index == i
  }

  /** Nothing of entry `i` of `d` is missing from `s`. */
  ghost predicate Covered(fs: Tree, d: nat, i: nat, s: State)
    requires d in fs && fs[d].Some? && i < |fs[d].value|
  {
    var node := fs[d].value[i].node;
    && (node.SubDir? && node.target.Some? ==> node.target.value in s.visited)
    && (node.Tool? ==> HasFound(s.found, d, i))
  }

  ghost predicate Complete(fs: Tree, d: nat, s: State) {
    d in fs && fs[d].Some? && forall i: nat | i < |fs[d].value| :: Covered(fs, d, i, s)
  }

  ghost predicate Grown(fs: Tree, s: State, s': State) {
    && s.visited <= s'.visited && s.found <= s'.found
    && forall n | n in s'.visited && n !in s.visited :: Complete(fs, n, s')
  }

  lemma CoveredGrows(fs: Tree, d: nat, i: nat, s: State, s': State)
    requires d in fs && fs[d].Some? && i < |fs[d].value|
    requires Covered(fs, d, i, s) && s.visited <= s'.visited && s.found <= s'.found
    ensures Covered(fs, d, i, s')
  {
    if fs[d].value[i].node.Tool? {
      var k :| 0 <= k < |s.found| && s.found[k].dir == d && s.found[k].index == i;
      assert s'.found[k] == s.found[k];
    }
  }

  lemma GrownTrans(fs: Tree, a: State, b: State, c: State)
    requires Grown(fs, a, b) && Grown(fs, b, c)
    ensures Grown(fs, a, c)
  {
    forall n | n in c.visited && n !in a.visited ensures Complete(fs, n, c) {
      if n in b.visited {
        assert Complete(fs, n, b);
        forall i: nat | i < |fs[n].value| ensures Covered(fs, n, i, c) { CoveredGrows(fs, n, i, b, c); }
      }
    }
  }

  lemma {:induction false} WalkComplete(fs: Tree, path: Path, pos: seq<nat>, target: Option<nat>, s: State)
    requires Fits(fs, s) && (target.Some? ==> target.value in fs)
    ensures var s' := Walk(fs, path, pos, target, s);
            s'.ok ==> Grown(fs, s, s') && (target.Some? ==> target.value in s'.visited)
    decreases fs.Keys - s.visited, 0
  {
    if target.Some? && target.value !in s.visited {
      var s1 := s.(visited := s.visited + {target.value}, listed := s.listed + [target.value]);
      if fs[target.value].Some? {
        EntriesComplete(fs, path, pos, target.value, 0, s1);
      }
    }
  }

  lemma {:induction false} EntriesComplete(fs: Tree, path: Path, pos: seq<nat>, d: nat, i: nat, s: State)
    requires Fits(fs, s) && d in fs && fs[d].Some? && i <= |fs[d].value|
    ensures var s' := WalkEntries(fs, path, pos, d, i, s);
            s'.ok ==> Grown(fs, s, s') && forall j: nat | i <= j < |fs[d].value| :: Covered(fs, d, j, s')
    decreases fs.Keys - s.visited, 1 + |fs[d].value| - i
  {
    if i < |fs[d].value| {
      var entry := fs[d].value[i];
      var s1 := match entry.node
        case SubDir(target) => Walk(fs, path + [entry.name], pos + [i], target, s)
        case Tool => s.(found := s.found + [Found(d, i, entry.name, path + [entry.name], pos + [i])])
        case _ => s;
      if entry.node.SubDir? {
        WalkComplete(fs, path + [entry.name], pos + [i], entry.node.target, s);
      } else if entry.node.Tool? {
        assert s1.found[|s.found|].dir == d;
      }
      if s1.ok {
        EntriesComplete(fs, path, pos, d, i + 1, s1);
        var s' := WalkEntries(fs, path, pos, d, i + 1, s1);
        if s'.ok {
          GrownTrans(fs, s, s1, s');
          CoveredGrows(fs, d, i, s1, s');
        }
      }
    }
  }

  lemma {:induction false} ClosedUnderPaths(fs: Tree, root: nat, path: Path, d: nat, s: State)
    requires root in s.visited && (forall n <- s.visited :: Complete(fs, n, s))
    requires Resolves(fs, root, path, d)
    ensures d in s.visited
  {
    if path != [] {
      var p: nat :| HasLink(fs, p, path[|path| - 1], d) && Resolves(fs, root, path[..|path| - 1], p);
      var i: nat :| HasEntry(fs, p, i, Entry(path[|path| - 1], SubDir(Some(d))));
      ClosedUnderPaths(fs, root, path[..|path| - 1], p, s);
      assert Complete(fs, p, s) && Covered(fs, p, i, s);
    }
  }

  // ---- the order of the finds

  /** Depth first, entry by entry: the earlier of two walks parts from the later at an
      earlier entry of the same directory. */
  ghost predicate Before(a: seq<nat>, b: seq<nat>) {
    exists k | 0 <= k < |a| && k < |b| :: a[..k] == b[..k] && a[k] < b[k]
  }

  predicate Under(pos: seq<nat>, i: nat, p: seq<nat>) {
    |pos| < |p| && p[..|pos|] == pos && p[|pos|] >= i
  }

  /** The finds from the `n`-th on are in order, and all under entry `i` or later of the
      directory at `pos`. */
  ghost predicate Ordered(found: seq<Found>, n: nat, pos: seq<nat>, i: nat) {
    && (forall k | n <= k < |found| :: Under(pos, i, found[k].pos))
    && (forall j, k | n <= j < k < |found| :: Before(found[j].pos, found[k].pos))
  }

  lemma {:induction false} WalkOrdered(fs: Tree, path: Path, pos: seq<nat>, target: Option<nat>, s: State)
    requires Fits(fs, s) && (target.Some? ==> target.value in fs)
    ensures var s' := Walk(fs, path, pos, target, s); s.found <= s'.found && Ordered(s'.found, |s.found|, pos, 0)
    decreases fs.Keys - s.visited, 0
  {
    if target.Some? && target.value !in s.visited && fs[target.value].Some? {
      EntriesOrdered(fs, path, pos, target.value, 0,
                     s.(visited := s.visited + {target.value}, listed := s.listed + [target.value]));
    }
  }

  /** Finds under entry `i`, then finds under later entries. */
  lemma OrderedJoin(a: seq<Found>, b: seq<Found>, n: nat, pos: seq<nat>, i: nat)
    requires n <= |a| && a <= b
    requires Ordered(a, n, pos, i) && Ordered(b, |a|, pos, i + 1)
    requires forall k | n <= k < |a| :: a[k].pos[|pos|] == i
    ensures Ordered(b, n, pos, i)
  {
    forall k | 0 <= k < |a| ensures b[k] == a[k] {}
    forall j, k | n <= j < k < |b| ensures Before(b[j].pos, b[k].pos) {
      if k < |a| {
        assert Before(a[j].pos, a[k].pos);
      } else if j < |a| {
        assert b[j].pos[..|pos|] == b[k].pos[..|pos|] && b[j].pos[|pos|] < b[k].pos[|pos|];
      }
    }
  }

  lemma {:induction false} EntriesOrdered(fs: Tree, path: Path, pos: seq<nat>, d: nat, i: nat, s: State)
    requires Fits(fs, s) && d in fs && fs[d].Some? && i <= |fs[d].value|
    ensures var s' := WalkEntries(fs, path, pos, d, i, s); s.found <= s'.found && Ordered(s'.found, |s.found|, pos, i)
    decreases fs.Keys - s.visited, 1 + |fs[d].value| - i
  {
    if i < |fs[d].value| {
      var entry := fs[d].value[i];
      var s1 := match entry.node
        case SubDir(target) => Walk(fs, path + [entry.name], pos + [i], target, s)
        case Tool => s.(found := s.found + [Found(d, i, entry.name, path + [entry.name], pos + [i])])
        case _ => s;
      if entry.node.SubDir? {
        WalkOrdered(fs, path + [entry.name], pos + [i], entry.node.target, s);
        forall k | |s.found| <= k < |s1.found|
          ensures Under(pos, i, s1.found[k].pos) && s1.found[k].pos[|pos|] == i
        {
          var p := s1.found[k].pos;
          assert Under(pos + [i], 0, p);
          assert p[..|pos| + 1][..|pos|] == p[..|pos|];
          assert p[|pos|] == p[..|pos| + 1][|pos|];
        }
      }
      if s1.ok {
        EntriesOrdered(fs, path, pos, d, i + 1, s1);
        OrderedJoin(s1.found, WalkEntries(fs, path, pos, d, i + 1, s1).found, |s.found|, pos, i);
      }
    }
  }

  /** `found[k]` is the last find of its name. */
  ghost predicate LastOfName(found: seq<Found>, k: nat, name: string) {
    && k < |found| && found[k].name == name
    && forall j | 0 <= j < |found| && j != k && found[j].name == name :: Before(found[j].pos, found[k].pos)
  }

  lemma {:induction false} ToolMapIsLast(found: seq<Found>, name: string)
    requires Ordered(found, 0, [], 0)
    ensures (name in ToolMap(found)) == (exists f <- found :: f.name == name)
    ensures name in ToolMap(found) ==> exists k: nat :: LastOfName(found, k, name) && ToolMap(found)[name] == found[k].path
  {
    if found != [] {
      var n := |found| - 1;
      var init := found[..n];
      assert found == init + [found[n]];
      forall j, k | 0 <= j < k < |init| ensures Before(init[j].pos, init[k].pos) {
        assert Before(found[j].pos, found[k].pos);
      }
      ToolMapIsLast(init, name);
      if found[n].name == name {
        assert LastOfName(found, n, name);
      } else if name in ToolMap(init) {
        var k: nat :| LastOfName(init, k, name) && ToolMap(init)[name] == init[k].path;
        assert LastOfName(found, k, name);
      }
    }
  }

  // ---- the main results

  /** The walk ends on every finite tree, cycles or not. It fails just when some reachable
      directory cannot be read; it lists each directory at most once, and if it succeeds
      exactly the reachable ones. */
  lemma VisitsExactlyReachable(fs: Tree, root: nat)
    requires Closed(fs) && root in fs
    ensures var s := Walk(fs, [], [], Some(root), EMPTY);
            && (s.ok <==> forall d | Reachable(fs, root, d) :: d in fs && fs[d].Some?)
            && NoDup(s.listed) && (forall d <- s.listed :: Reachable(fs, root, d))
            && (s.ok ==> forall d :: d in s.listed <==> Reachable(fs, root, d))
  {
    var s := Walk(fs, [], [], Some(root), EMPTY);
    assert Resolves(fs, root, [], root);
    WalkSound(fs, root, [], [], Some(root), EMPTY);
    WalkComplete(fs, [], [], Some(root), EMPTY);
    if s.ok {
      forall d | Reachable(fs, root, d) ensures d in s.visited && Complete(fs, d, s) {
        var path :| Resolves(fs, root, path, d);
        ClosedUnderPaths(fs, root, path, d, s);
      }
    }
  }

  /** The tools found are those of the reachable directories. */
  lemma FindsExactlyTools(fs: Tree, root: nat, d: nat, i: nat, name: string)
    requires Closed(fs) && root in fs && Walk(fs, [], [], Some(root), EMPTY).ok
    ensures Reachable(fs, root, d) && IsTool(fs, d, i, name)
       <==> exists f <- Walk(fs, [], [], Some(root), EMPTY).found :: f.dir == d && f.index == i && f.name == name
  {
    var s := Walk(fs, [], [], Some(root), EMPTY);
    assert Resolves(fs, root, [], root);
    WalkSound(fs, root, [], [], Some(root), EMPTY);
    WalkComplete(fs, [], [], Some(root), EMPTY);
    VisitsExactlyReachable(fs, root);
    if Reachable(fs, root, d) && IsTool(fs, d, i, name) {
      assert Complete(fs, d, s) && Covered(fs, d, i, s);
      var k :| 0 <= k < |s.found| && s.found[k].dir == d && s.found[k].index == i;
      assert SoundFind(fs, root, s, s.found[k]);
    }
    if f :| f in s.found && f.dir == d && f.index == i && f.name == name {
      assert SoundFind(fs, root, s, f);
    }
  }

  /** A name is mapped just when some reachable directory holds a tool of that name. */
  lemma MapsExactlyTools(fs: Tree, root: nat, name: string)
    requires Closed(fs) && root in fs && Walk(fs, [], [], Some(root), EMPTY).ok
    ensures var tools := ToolMap(Walk(fs, [], [], Some(root), EMPTY).found);
            name in tools <==> exists d: nat, i: nat :: Reachable(fs, root, d) && IsTool(fs, d, i, name)
  {
    var s := Walk(fs, [], [], Some(root), EMPTY);
    WalkOrdered(fs, [], [], Some(root), EMPTY);
    ToolMapIsLast(s.found, name);
    if name in ToolMap(s.found) {
      var f :| f in s.found && f.name == name;
      FindsExactlyTools(fs, root, f.dir, f.index, name);
    }
    if d: nat, i: nat :| Reachable(fs, root, d) && IsTool(fs, d, i, name) {
      FindsExactlyTools(fs, root, d, i, name);
    }
  }

  /** It is mapped to the last of them in depth-first entry order, by a path that leads to it. */
  lemma MapsToLast(fs: Tree, root: nat, name: string)
    requires Closed(fs) && root in fs
    requires name in ToolMap(Walk(fs, [], [], Some(root), EMPTY).found)
    ensures var found := Walk(fs, [], [], Some(root), EMPTY).found;
            exists k: nat :: LastOfName(found, k, name) && ToolMap(found)[name] == found[k].path
              && IsTool(fs, found[k].dir, found[k].index, name)
              && |found[k].path| > 0 && Resolves(fs, root, found[k].path[..|found[k].path| - 1], found[k].dir)
  {
    var s := Walk(fs, [], [], Some(root), EMPTY);
    assert Resolves(fs, root, [], root);
    WalkSound(fs, root, [], [], Some(root), EMPTY);
    WalkOrdered(fs, [], [], Some(root), EMPTY);
    ToolMapIsLast(s.found, name);
    var k: nat :| LastOfName(s.found, k, name) && ToolMap(s.found)[name] == s.found[k].path;
    assert SoundFind(fs, root, s, s.found[k]);
  }
}
