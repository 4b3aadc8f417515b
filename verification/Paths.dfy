/** Path scoping: a mission's workspace directory and mounts (internal/sandboxd/docker.go), and the
    admin proxy's wildcard rewrite (cmd/brain/main.go), over a lexical path cleaner. */
module Paths {
  import opened Options
  import opened Strings

  // ---------------------------------------------------------------- lexical paths

  /** One segment of path.Clean. */
  function Put(stack: seq<string>, seg: string, rooted: bool): seq<string> {
    if seg == "" || seg == "." then stack
    else if seg != ".." then stack + [seg]
    else if stack != [] && stack[|stack|-1] != ".." then stack[..|stack|-1]
    else if rooted then stack
    else stack + [".."]
  }

  function Fold(stack: seq<string>, segs: seq<string>, rooted: bool): seq<string>
    decreases |segs|
  {
    if segs == [] then stack else Fold(Put(stack, segs[0], rooted), segs[1..], rooted)
  }

  predicate Rooted(s: string) {
    s != "" && s[0] == '/'
  }

  function Stack(s: string): seq<string> {
    Fold([], Split(s, '/'), Rooted(s))
  }

  function Print(stack: seq<string>, rooted: bool): string {
    if rooted then "/" + Join(stack, '/') else if stack == [] then "." else Join(stack, '/')
  }

  /** path.Clean. */
  function Clean(s: string): string {
    Print(Stack(s), Rooted(s))
  }

  function Glue(elems: seq<string>): string {
    if elems == [] then ""
    else var front, e := Glue(elems[..|elems|-1]), elems[|elems|-1];
      if front == "" then e else front + "/" + e
  }

  /** path.Join. */
  function PathJoin(elems: seq<string>): string {
    var p := Glue(elems);
    if p == "" then "" else Clean(p)
  }

  /** A name that stands for itself in a path. */
  predicate Plain(seg: string) {
    seg != "" && seg != "." && seg != ".." && '/' !in seg
  }

  predicate AllPlain(segs: seq<string>) {
    forall k | 0 <= k < |segs| :: Plain(segs[k])
  }

  /** What the cleaner leaves: names, after leading ".." if the path is relative. */
  predicate Settled(stack: seq<string>, rooted: bool) {
    forall k | 0 <= k < |stack| ::
      Plain(stack[k]) || (stack[k] == ".." && !rooted && (k == 0 || stack[k-1] == ".."))
  }

  lemma {:induction false} FoldApart(stack: seq<string>, a: seq<string>, b: seq<string>, rooted: bool)
    ensures Fold(stack, a + b, rooted) == Fold(Fold(stack, a, rooted), b, rooted)
    decreases |a|
  {
    if a == [] {
      assert a + b == b;
    } else {
      assert (a + b)[1..] == a[1..] + b;
      FoldApart(Put(stack, a[0], rooted), a[1..], b, rooted);
    }
  }

  lemma {:induction false} FoldSettles(stack: seq<string>, segs: seq<string>, rooted: bool)
    requires Settled(stack, rooted) && Free(segs, '/')
    ensures Settled(Fold(stack, segs, rooted), rooted)
    decreases |segs|
  {
    if segs != [] { FoldSettles(Put(stack, segs[0], rooted), segs[1..], rooted); }
  }

  /** A settled stack extends as it stands. */
  lemma {:induction false} FoldSettled(stack: seq<string>, more: seq<string>, rooted: bool)
    requires Settled(stack + more, rooted)
    ensures Fold(stack, more, rooted) == stack + more
    decreases |more|
  {
    if more != [] {
      var next := stack + [more[0]];
      assert (stack + more)[|stack|] == more[0];
      assert stack != [] ==> (stack + more)[|stack|-1] == stack[|stack|-1];
      assert next + more[1..] == stack + more;
      FoldSettled(next, more[1..], rooted);
    }
  }

  lemma StackIsSettled(s: string)
    ensures Settled(Stack(s), Rooted(s))
  {
    SplitIsFree(s, '/');
    FoldSettles([], Split(s, '/'), Rooted(s));
  }

  lemma StackOfPrinted(stack: seq<string>, rooted: bool)
    requires Settled(stack, rooted)
    ensures Stack(Print(stack, rooted)) == stack && Rooted(Print(stack, rooted)) == rooted
  {
    FoldSettled([], stack, rooted);
    if stack == [] {
      SplitAt("", "", '/');
      SplitName(".", '/');
      SplitName("", '/');
      assert "" + "/" + "" == "/";
      assert Fold([], ["", ""], true) == Fold([], [""], true);
    } else {
      assert Plain(stack[0]) || stack[0] == "..";
      SplitJoin(stack, '/');
      SplitAt("", Join(stack, '/'), '/');
      SplitName("", '/');
      assert "" + "/" + Join(stack, '/') == "/" + Join(stack, '/');
      FoldApart([], [""], stack, rooted);
    }
  }

  /** Cleaning twice is cleaning once, and a path is clean exactly when it prints a settled stack. */
  lemma CleanSettles(s: string)
    ensures Clean(Clean(s)) == Clean(s)
    ensures Clean(s) == s <==> exists stack :: Settled(stack, Rooted(s)) && s == Print(stack, Rooted(s))
  {
    StackIsSettled(s);
    StackOfPrinted(Stack(s), Rooted(s));
    if stack :| Settled(stack, Rooted(s)) && s == Print(stack, Rooted(s)) {
      StackOfPrinted(stack, Rooted(s));
    }
  }

  /** Appending to a path carries its stack on. */
  lemma StackAppend(a: string, b: string)
    requires a != ""
    ensures Stack(a + "/" + b) == Fold(Stack(a), Split(b, '/'), Rooted(a))
  {
    SplitAt(a, b, '/');
    FoldApart([], Split(a, '/'), Split(b, '/'), Rooted(a));
  }

  predicate AtOrBelow(p: string, dir: string) {
    p == dir || dir + "/" <= p
  }

  lemma SplitPrinted(stack: seq<string>)
    requires stack != [] && Free(stack, '/')
    ensures Split(Print(stack, true), '/') == [""] + stack
  {
    SplitJoin(stack, '/');
    SplitAt("", Join(stack, '/'), '/');
    var path := "" + "/" + Join(stack, '/');
    assert path == Print(stack, true) && Split("", '/') == [""];
  }

  lemma Drop1(a: seq<string>, b: seq<string>)
    requires [""] + a == [""] + b
    ensures a == b
  {
    assert a == ([""] + a)[1..] && b == ([""] + b)[1..];
  }

  lemma NamesBelow(stack: seq<string>, dir: seq<string>, rest: string)
    requires stack != [] && dir != [] && Free(stack, '/') && Free(dir, '/')
    requires Print(stack, true) == Print(dir, true) + "/" + rest
    ensures stack == dir + Split(rest, '/')
  {
    SplitPrinted(stack);
    SplitPrinted(dir);
    SplitNames(Print(dir, true), dir, rest);
    Drop1(stack, dir + Split(rest, '/'));
  }

  lemma SplitNames(d: string, dir: seq<string>, rest: string)
    requires Split(d, '/') == [""] + dir
    ensures Split(d + "/" + rest, '/') == [""] + (dir + Split(rest, '/'))
  {
    SplitAt(d, rest, '/');
    Regroup([""], dir, Split(rest, '/'));
  }

  lemma Regroup(a: seq<string>, b: seq<string>, c: seq<string>)
    ensures a + (b + c) == (a + b) + c
  {
  }

  lemma PrintedBelow(dir: seq<string>, more: seq<string>)
    requires dir != [] && more != []
    ensures Print(dir + more, true) == Print(dir, true) + "/" + Join(more, '/')
  {
    JoinAppend(dir, more, '/');
  }

  /** Among clean absolute paths, being at or below a directory is having its names first. */
  lemma BelowIsPrefix(stack: seq<string>, dir: seq<string>)
    requires stack != [] && dir != [] && AllPlain(stack) && AllPlain(dir)
    ensures AtOrBelow(Print(stack, true), Print(dir, true)) <==> dir <= stack
  {
    var p, d := Print(stack, true), Print(dir, true);
    if dir <= stack && dir != stack {
      var more := stack[|dir|..];
      assert dir + more == stack;
      PrintedBelow(dir, more);
    } else if dir != stack && p == d {
      SplitPrinted(stack);
      SplitPrinted(dir);
      Drop1(stack, dir);
    } else if dir != stack && d + "/" <= p {
      var rest := p[|d|+1..];
      assert p == d + "/" + rest;
      NamesBelow(stack, dir, rest);
    }
  }

  /** The laws of a lexical path: an empty name or "." leads nowhere, ".." takes a name back, and there is
      nothing above the root.  What is clean obeys none of them any more (CleanSettles). */
  lemma PathLaws(a: string, name: string, b: string)
    requires a != ""
    ensures Clean(a + "//" + b) == Clean(a + "/./" + b) == Clean(a + "/" + b)
    ensures Plain(name) ==> Clean(a + "/" + name + "/../" + b) == Clean(a + "/" + b)
    ensures Clean("/../" + b) == Clean("/" + b)
  {
    StackSkips(a, "", b);
    StackSkips(a, ".", b);
    assert a + "/" + "" + "/" + b == a + "//" + b && a + "/" + "." + "/" + b == a + "/./" + b;
    if Plain(name) { StackGoesBack(a, name, b); }
    NothingAbove(b);
  }

  lemma StackSkips(a: string, dot: string, b: string)
    requires a != "" && dot in {"", "."}
    ensures Clean(a + "/" + dot + "/" + b) == Clean(a + "/" + b)
  {
    StackAppend(a + "/" + dot, b);
    StackAppend(a, dot);
    StackAppend(a, b);
    SplitName(dot, '/');
    assert Fold(Stack(a), [dot], Rooted(a)) == Fold(Stack(a), [], Rooted(a));
    assert a + "/" + dot + "/" + b == (a + "/" + dot) + "/" + b;
  }

  lemma StackGoesBack(a: string, name: string, b: string)
    requires a != "" && Plain(name)
    ensures Clean(a + "/" + name + "/../" + b) == Clean(a + "/" + b)
  {
    var up := a + "/" + name + "/" + "..";
    UpAndDown(a, name);
    StackAppend(up, b);
    StackAppend(a, b);
    assert a + "/" + name + "/../" + b == up + "/" + b;
  }

  lemma UpAndDown(a: string, name: string)
    requires a != "" && Plain(name)
    ensures Stack(a + "/" + name + "/" + "..") == Stack(a)
  {
    StackAppend(a + "/" + name, "..");
    StackAppend(a, name);
    SplitName(name, '/');
    SplitName("..", '/');
    assert Fold(Stack(a), [name], Rooted(a)) == Fold(Stack(a) + [name], [], Rooted(a));
    assert Fold(Stack(a) + [name], [".."], Rooted(a)) == Fold(Stack(a), [], Rooted(a));
  }

  lemma NothingAbove(b: string)
    ensures Clean("/../" + b) == Clean("/" + b)
  {
    StackAppend("/..", b);
    SplitAt("", "..", '/');
    SplitAt("", b, '/');
    SplitName("", '/');
    SplitName("..", '/');
    assert "/../" + b == "/.." + "/" + b && "" + "/" + b == "/" + b && "" + "/" + ".." == "/..";
    assert Fold([], ["", ".."], true) == Fold([], [".."], true) == Fold([], [], true);
    FoldApart([], [""], Split(b, '/'), true);
    assert Fold([], [""], true) == Fold([], [], true);
  }

  // ---------------------------------------------------------------- a mission's directory

  const WORKSPACE := "/workspace"
  const MISSIONS := "missions"
  const BASE: seq<string> := ["workspace", "missions"]

  /** missionWorkspaceDir. */
  function MissionDir(workdir: string, id: string): Option<string> {
    if workdir != Clean(workdir) then None
    else ScopedDir(PathJoin([WORKSPACE, MISSIONS]) + "/", workdir, id)
  }

  function ScopedDir(prefix: string, workdir: string, id: string): Option<string> {
    if !(prefix <= workdir) then None
    else var segments := Split(workdir[|prefix|..], '/');
      if |segments| < 2 || segments[1] != id then None
      else if ".." in segments then None
      else Some(PathJoin([prefix, segments[0], segments[1]]))
  }

  /** The directory base/kind/id. */
  function DirOf(base: seq<string>, kind: string, id: string): string {
    Print(base + [kind, id], true)
  }

  lemma BasePath()
    ensures PathJoin([WORKSPACE, MISSIONS]) == Print(BASE, true) && AllPlain(BASE)
  {
    assert Glue([WORKSPACE]) == WORKSPACE by { assert [WORKSPACE][..0] == []; }
    assert [WORKSPACE, MISSIONS][..1] == [WORKSPACE];
    assert Glue([WORKSPACE, MISSIONS]) == "/workspace/missions";
    assert Join(BASE, '/') == "workspace/missions" by { assert BASE[1..] == ["missions"]; }
    assert Print(BASE, true) == "/workspace/missions";
    StackOfPrinted(BASE, true);
  }

  lemma StackOfPrefix(base: seq<string>, prefix: string)
    requires base != [] && AllPlain(base) && prefix == Print(base, true) + "/"
    ensures Stack(prefix) == base && Rooted(prefix)
  {
    StackOfPrinted(base, true);
    StackAppend(Print(base, true), "");
    assert Print(base, true) + "/" + "" == prefix;
    assert Fold(base, [""], true) == Fold(base, [], true);
  }

  lemma JoinedDir(base: seq<string>, prefix: string, kind: string, id: string)
    requires base != [] && AllPlain(base) && prefix == Print(base, true) + "/"
    requires Plain(kind) && Plain(id)
    ensures PathJoin([prefix, kind, id]) == DirOf(base, kind, id)
  {
    StackOfPrefix(base, prefix);
    assert [prefix, kind, id][..2] == [prefix, kind] && [prefix, kind][..1] == [prefix] && [prefix][..0] == [];
    assert Glue([prefix]) == prefix;
    assert Glue([prefix, kind]) == prefix + "/" + kind;
    assert Glue([prefix, kind, id]) == prefix + "/" + kind + "/" + id;
    StackAppend(prefix, kind);
    StackAppend(prefix + "/" + kind, id);
    SplitName(kind, '/');
    SplitName(id, '/');
    FoldSettled(base, [kind], true);
    FoldSettled(base + [kind], [id], true);
    assert base + [kind] + [id] == base + [kind, id];
  }

  /** What stands below a prefix in a clean path. */
  lemma BelowBase(base: seq<string>, prefix: string, workdir: string)
    requires base != [] && AllPlain(base) && prefix == Print(base, true) + "/"
    requires Clean(workdir) == workdir && prefix <= workdir
    ensures AllPlain(Stack(workdir)) && workdir == Print(Stack(workdir), true)
    ensures Stack(workdir) == base + Split(workdir[|prefix|..], '/')
    ensures AllPlain(Split(workdir[|prefix|..], '/'))
  {
    var rest := workdir[|prefix|..];
    assert workdir[0] == prefix[0] == '/';
    StackIsSettled(workdir);
    var stack := Stack(workdir);
    assert workdir == prefix + rest;
    assert stack != [] by {
      assert Print([], true) == "/";
      assert |prefix| >= 2;
    }
    NamesBelow(stack, base, rest);
    forall k | 0 <= k < |Split(rest, '/')| ensures Plain(Split(rest, '/')[k])
    { assert stack[|base| + k] == Split(rest, '/')[k]; }
  }

  lemma AcceptedIsBelow(base: seq<string>, prefix: string, workdir: string, id: string, dir: string)
    requires base != [] && AllPlain(base) && prefix == Print(base, true) + "/"
    requires Clean(workdir) == workdir && ScopedDir(prefix, workdir, id) == Some(dir)
    ensures exists kind :: Plain(kind) && Plain(id) && dir == DirOf(base, kind, id) && AtOrBelow(workdir, dir)
  {
    BelowBase(base, prefix, workdir);
    var segments := Split(workdir[|prefix|..], '/');
    var kind := segments[0];
    JoinedDir(base, prefix, kind, id);
    assert base + [kind, id] <= Stack(workdir);
    BelowIsPrefix(Stack(workdir), base + [kind, id]);
  }

  lemma BelowDir(base: seq<string>, prefix: string, kind: string, id: string, p: string)
    requires base != [] && prefix == Print(base, true) + "/" && AtOrBelow(p, DirOf(base, kind, id))
    ensures prefix <= p
  {
    PrintedBelow(base, [kind, id]);
    assert DirOf(base, kind, id) == prefix + Join([kind, id], '/');
  }

  lemma BelowIsAccepted(base: seq<string>, prefix: string, workdir: string, id: string, kind: string)
    requires base != [] && AllPlain(base) && prefix == Print(base, true) + "/"
    requires Clean(workdir) == workdir && Plain(kind) && Plain(id) && AtOrBelow(workdir, DirOf(base, kind, id))
    ensures ScopedDir(prefix, workdir, id) == Some(DirOf(base, kind, id))
  {
    BelowDir(base, prefix, kind, id, workdir);
    BelowBase(base, prefix, workdir);
    var segments := Split(workdir[|prefix|..], '/');
    BelowIsPrefix(Stack(workdir), base + [kind, id]);
    assert segments == Stack(workdir)[|base|..];
    assert segments[0] == (base + [kind, id])[|base|] && segments[1] == (base + [kind, id])[|base| + 1];
    assert forall k | 0 <= k < |segments| :: Plain(segments[k]);
    JoinedDir(base, prefix, kind, id);
  }

  lemma AcceptsBelow(workdir: string, id: string, dir: string)
    ensures MissionDir(workdir, id) == Some(dir) <==>
            Clean(workdir) == workdir &&
              exists kind :: Plain(kind) && Plain(id) && dir == DirOf(BASE, kind, id) && AtOrBelow(workdir, dir)
  {
    BasePath();
    var prefix := Print(BASE, true) + "/";
    if MissionDir(workdir, id) == Some(dir) { AcceptedIsBelow(BASE, prefix, workdir, id, dir); }
    if Clean(workdir) == workdir {
      if kind :| Plain(kind) && Plain(id) && dir == DirOf(BASE, kind, id) && AtOrBelow(workdir, dir) {
        BelowIsAccepted(BASE, prefix, workdir, id, kind);
      }
    }
  }

  lemma DirText(kind: string, id: string)
    ensures DirOf(BASE, kind, id) == "/workspace/missions/" + kind + "/" + id
  {
    BaseText();
    JoinTwoNames(kind, id);
    PrintedBelow(BASE, [kind, id]);
    var prefix := "/workspace/missions";
    assert prefix + "/" + (kind + "/" + id) == "/workspace/missions/" + kind + "/" + id;
  }

  lemma BaseText()
    ensures Print(BASE, true) == "/workspace/missions"
  {
    JoinTwoNames("workspace", "missions");
  }

  lemma JoinTwoNames(a: string, b: string)
    ensures Join([a, b], '/') == a + "/" + b
  {
    assert [a, b][1..] == [b];
  }

  /** A workdir is accepted exactly when it is a clean path at or below /workspace/missions/kind/id for the
      given id and some name of a kind, and the answer is that directory. */
  lemma AcceptsExactly(workdir: string, id: string, dir: string)
    ensures MissionDir(workdir, id) == Some(dir) <==>
            && Clean(workdir) == workdir && Plain(id)
            && exists kind :: Plain(kind) && dir == "/workspace/missions/" + kind + "/" + id && AtOrBelow(workdir, dir)
  {
    AcceptsBelow(workdir, id, dir);
    forall kind ensures DirOf(BASE, kind, id) == "/workspace/missions/" + kind + "/" + id { DirText(kind, id); }
  }

  /** Two missions never get equal or nested directories, and neither's workdir lies in the other's. */
  lemma MissionsApart(workdir: string, id: string, dir: string, workdir': string, id': string, dir': string)
    requires MissionDir(workdir, id) == Some(dir) && MissionDir(workdir', id') == Some(dir') && id != id'
    ensures !AtOrBelow(dir, dir') && !AtOrBelow(workdir, dir')
  {
    BasePath();
    AcceptsBelow(workdir, id, dir);
    AcceptsBelow(workdir', id', dir');
    var kind :| Plain(kind) && dir == DirOf(BASE, kind, id) && AtOrBelow(workdir, dir);
    var kind' :| Plain(kind') && dir' == DirOf(BASE, kind', id');
    ApartBelow(BASE, kind, id, kind', id', workdir);
    StackOfPrinted(BASE + [kind, id], true);
    ApartBelow(BASE, kind, id, kind', id', dir);
  }

  lemma ApartBelow(base: seq<string>, kind: string, id: string, kind': string, id': string, p: string)
    requires base != [] && AllPlain(base) && Plain(kind) && Plain(id) && Plain(kind') && Plain(id') && id != id'
    requires Clean(p) == p && AtOrBelow(p, DirOf(base, kind, id))
    ensures !AtOrBelow(p, DirOf(base, kind', id'))
  {
    var a, b, prefix := base + [kind, id], base + [kind', id'], Print(base, true) + "/";
    BelowDir(base, prefix, kind, id, p);
    BelowBase(base, prefix, p);
    BelowIsPrefix(Stack(p), a);
    BelowIsPrefix(Stack(p), b);
    assert a[|base| + 1] == id && b[|base| + 1] == id';
  }

  // ---------------------------------------------------------------- mounts

  const CACHE := ".sandbox-cache"

  /** A mount's source: a host path, or a path within a volume. */
  datatype Mount = Bind(source: string, target: string) | Volume(source: string, subpath: string, target: string)

  function TrimPrefix(s: string, prefix: string): string {
    if prefix <= s then s[|prefix|..] else s
  }

  /** missionMount; `whole` is the workspace mount it narrows. */
  function MissionMount(whole: Mount, workdir: string, id: string): Option<Mount> {
    match MissionDir(workdir, id)
    case None => None
    case Some(dir) =>
      var subpath := TrimPrefix(dir, WORKSPACE + "/");
      match whole
      case Bind(source, _) => Some(Bind(PathJoin([source, subpath]), dir))
      case Volume(source, _, _) => Some(Volume(source, subpath, dir))
  }

  const CACHE_TARGET := "/home/sandbox/.cache"

  /** cachesMountFor: a configured shared cache, else the mission's own directory for it. */
  function CacheMount(shared: Mount, m: Mount): Mount {
    if shared.source != "" then shared
    else
      match m
      case Bind(source, _) => Bind(PathJoin([source, CACHE]), CACHE_TARGET)
      case Volume(source, subpath, _) => Volume(source, PathJoin([subpath, CACHE]), CACHE_TARGET)
  }

  lemma GlueTwo(a: string, b: string)
    ensures Glue([a, b]) == if a == "" then b else a + "/" + b
  {
    var one, two := [a], [a, b];
    assert one[..|one|-1] == [] && two[..|two|-1] == one;
    assert Glue(one) == a;
  }

  /** Joining names to a path appends them to its stack. */
  lemma JoinNames(a: string, names: seq<string>)
    requires names != [] && AllPlain(names)
    ensures var p := PathJoin([a, Join(names, '/')]);
            && Stack(p) == Stack(a) + names && Rooted(p) == Rooted(a)
            && (Rooted(a) ==> p == Print(Stack(a) + names, true) && AllPlain(Stack(a) + names))
  {
    var b := Join(names, '/');
    SplitJoin(names, '/');
    GlueTwo(a, b);
    StackIsSettled(a);
    forall k | 0 <= k < |Stack(a) + names|
      ensures Plain((Stack(a) + names)[k]) || ((Stack(a) + names)[k] == ".." && !Rooted(a) && k < |Stack(a)|)
      ensures (Stack(a) + names)[k] == ".." ==> k == 0 || (Stack(a) + names)[k-1] == ".."
    {
    }
    assert Settled(Stack(a) + names, Rooted(a));
    FoldSettled(Stack(a), names, Rooted(a));
    if a == "" {
      assert Stack("") == [] by { assert Split("", '/') == [""]; assert Fold([], [""], false) == Fold([], [], false); }
      assert b[0] == names[0][0];
    } else {
      StackAppend(a, b);
    }
    StackOfPrinted(Stack(a) + names, Rooted(a));
    assert Glue([a, b]) != "";
  }

  lemma Subpath(kind: string, id: string)
    ensures TrimPrefix(DirOf(BASE, kind, id), WORKSPACE + "/") == Join([MISSIONS, kind, id], '/')
  {
    JoinAppend(["workspace"], [MISSIONS, kind, id], '/');
    assert ["workspace"] + [MISSIONS, kind, id] == BASE + [kind, id];
    assert DirOf(BASE, kind, id) == (WORKSPACE + "/") + Join([MISSIONS, kind, id], '/');
  }

  /** The names below the mount's source or volume. */
  function Scope(m: Mount): seq<string> {
    if m.Bind? then Stack(m.source) else Stack(m.subpath)
  }

  lemma MountOf(whole: Mount, dir: string, names: seq<string>, subpath: string)
    requires names != [] && AllPlain(names) && subpath == Join(names, '/')
    ensures Scope(if whole.Bind? then Bind(PathJoin([whole.source, subpath]), dir)
                  else Volume(whole.source, subpath, dir))
            == (if whole.Bind? then Stack(whole.source) else []) + names
  {
    JoinNames(whole.source, names);
    StackOfPrinted(names, false);
    assert Print(names, false) == Join(names, '/');
  }

  /** A path by its names: `p` is clean, and leads from `top` through these names. */
  ghost predicate LeadsDown(p: string, top: string, names: seq<string>) {
    Clean(p) == p && Rooted(p) == Rooted(top) && Stack(p) == Stack(top) + names
  }

  lemma JoinLeadsDown(top: string, names: seq<string>)
    requires names != [] && AllPlain(names)
    ensures LeadsDown(PathJoin([top, Join(names, '/')]), top, names)
  {
    JoinNames(top, names);
    GlueTwo(top, Join(names, '/'));
    assert names[0] <= Join(names, '/');
    CleanSettles(Glue([top, Join(names, '/')]));
  }

  /** A mission's mount is of the workspace's kind and source, narrowed to missions/kind/id below it, and is
      mounted where the mission sees it. */
  lemma MountIsScoped(whole: Mount, workdir: string, id: string, m: Mount)
    requires MissionMount(whole, workdir, id) == Some(m)
    ensures exists kind :: Plain(kind) && Plain(id)
              && m.target == "/workspace/missions/" + kind + "/" + id && AtOrBelow(workdir, m.target)
              && if whole.Bind? then m.Bind? && LeadsDown(m.source, whole.source, ["missions", kind, id])
                 else m.Volume? && m.source == whole.source && m.subpath == "missions/" + kind + "/" + id
  {
    AcceptsExactly(workdir, id, m.target);
    var kind :| Plain(kind) && m.target == "/workspace/missions/" + kind + "/" + id && AtOrBelow(workdir, m.target);
    MountAt(whole, workdir, id, m, kind);
  }

  lemma MountAt(whole: Mount, workdir: string, id: string, m: Mount, kind: string)
    requires MissionMount(whole, workdir, id) == Some(m) && Plain(kind) && Plain(id)
    requires m.target == "/workspace/missions/" + kind + "/" + id
    ensures if whole.Bind? then m.Bind? && LeadsDown(m.source, whole.source, ["missions", kind, id])
            else m.Volume? && m.source == whole.source && m.subpath == "missions/" + kind + "/" + id
  {
    SubpathText(kind, id);
    JoinLeadsDown(whole.source, ["missions", kind, id]);
  }

  lemma SubpathText(kind: string, id: string)
    ensures TrimPrefix("/workspace/missions/" + kind + "/" + id, WORKSPACE + "/") == "missions/" + kind + "/" + id
    ensures Join(["missions", kind, id], '/') == "missions/" + kind + "/" + id
  {
    DirText(kind, id);
    Subpath(kind, id);
    assert [MISSIONS, kind, id][1..] == [kind, id] && [kind, id][1..] == [id];
    assert Join([kind, id], '/') == kind + "/" + id;
  }

  /** Without a shared cache, a mission's own lies one name below its mount, on the same kind of mount. */
  lemma CacheIsInScope(shared: Mount, m: Mount)
    ensures var c := CacheMount(shared, m);
            if shared.source != "" then c == shared
            else
              && c.target == "/home/sandbox/.cache"
              && if m.Bind? then c.Bind? && LeadsDown(c.source, m.source, [".sandbox-cache"])
                 else c.Volume? && c.source == m.source && LeadsDown(c.subpath, m.subpath, [".sandbox-cache"])
  {
    JoinLeadsDown(if m.Bind? then m.source else m.subpath, [CACHE]);
    assert Join([CACHE], '/') == CACHE;
  }

  lemma ScopeIs(whole: Mount, workdir: string, id: string, m: Mount)
    requires MissionMount(whole, workdir, id) == Some(m)
    ensures exists kind :: Scope(m) == (if whole.Bind? then Stack(whole.source) else []) + [MISSIONS, kind, id]
  {
    AcceptsBelow(workdir, id, m.target);
    var kind :| Plain(kind) && Plain(id) && m.target == DirOf(BASE, kind, id) && AtOrBelow(workdir, m.target);
    MountOfKind(whole, kind, id, m.target);
  }

  lemma MountOfKind(whole: Mount, kind: string, id: string, dir: string)
    requires Plain(kind) && Plain(id) && dir == DirOf(BASE, kind, id)
    ensures var subpath := TrimPrefix(dir, WORKSPACE + "/");
            Scope(if whole.Bind? then Bind(PathJoin([whole.source, subpath]), dir)
                  else Volume(whole.source, subpath, dir))
            == (if whole.Bind? then Stack(whole.source) else []) + [MISSIONS, kind, id]
  {
    Subpath(kind, id);
    MountOf(whole, dir, [MISSIONS, kind, id], Join([MISSIONS, kind, id], '/'));
  }

  /** Two missions' mounts of the one workspace never overlap. */
  lemma MountsApart(whole: Mount, workdir: string, id: string, m: Mount, workdir': string, id': string, m': Mount)
    requires MissionMount(whole, workdir, id) == Some(m) && MissionMount(whole, workdir', id') == Some(m') && id != id'
    ensures !(Scope(m) <= Scope(m')) && !(Scope(m') <= Scope(m))
  {
    ScopeIs(whole, workdir, id, m);
    ScopeIs(whole, workdir', id', m');
    var top := if whole.Bind? then Stack(whole.source) else [];
    assert Scope(m)[|top| + 2] == id && Scope(m')[|top| + 2] == id';
  }

  // ---------------------------------------------------------------- the usage rewrite

  const USAGE := "/internal/admin/usage"

  /** The upstream path for a wildcard tail. */
  function UsagePath(usage: string, rest: string): string {
    PathJoin([usage, PathJoin(["/", rest])])
  }

  lemma JoinTwo(a: string, b: string)
    requires a != ""
    ensures PathJoin([a, b]) == Print(Fold(Stack(a), Split(b, '/'), Rooted(a)), Rooted(a))
  {
    GlueTwo(a, b);
    StackAppend(a, b);
  }

  /** "/" plus the tail is the tail's own names; ".." cannot climb above them. */
  lemma Anchored(rest: string)
    ensures PathJoin(["/", rest]) == Print(Fold([], Split(rest, '/'), true), true)
    ensures AllPlain(Fold([], Split(rest, '/'), true))
  {
    JoinTwo("/", rest);
    assert Stack("/") == [] by {
      StackOfPrinted([], true);
      assert Print([], true) == "/";
    }
    SplitIsFree(rest, '/');
    FoldSettles([], Split(rest, '/'), true);
  }

  lemma RewriteNames(base: seq<string>, rest: string)
    requires base != [] && AllPlain(base)
    ensures UsagePath(Print(base, true), rest) == Print(base + Fold([], Split(rest, '/'), true), true)
    ensures AllPlain(Fold([], Split(rest, '/'), true))
  {
    Anchored(rest);
    var tail := Fold([], Split(rest, '/'), true);
    var anchored := Print(tail, true);
    StackOfPrinted(base, true);
    JoinTwo(Print(base, true), anchored);
    if tail == [] {
      SplitAt("", "", '/');
      SplitName("", '/');
      assert "" + "/" + "" == anchored;
      assert Fold(base, ["", ""], true) == Fold(base, [""], true) == Fold(base, [], true);
      assert base + tail == base;
    } else {
      SplitPrinted(tail);
      FoldApart(base, [""], tail, true);
      assert Fold(base, [""], true) == Fold(base, [], true);
      FoldSettled(base, tail, true);
    }
  }

  lemma CleanTail(rest: string)
    ensures Clean("/" + rest) == Print(Fold([], Split(rest, '/'), true), true)
  {
    SplitAt("", rest, '/');
    SplitName("", '/');
    assert "" + "/" + rest == "/" + rest;
    FoldApart([], [""], Split(rest, '/'), true);
    assert Fold([], [""], true) == Fold([], [], true);
  }

  /** Every wildcard tail is rewritten to the usage prefix and, below it, the tail cleaned as if it were a whole
      path, so ".." stays below the prefix; a tail of plain names goes through unchanged. */
  lemma RewriteIsConfined(rest: string)
    ensures var p, tail := UsagePath(USAGE, rest), Clean("/" + rest);
            && p == (if tail == "/" then "/internal/admin/usage" else "/internal/admin/usage" + tail)
            && AtOrBelow(p, "/internal/admin/usage") && Clean(p) == p
            && (AllPlain(Split(rest, '/')) ==> p == "/internal/admin/usage" + "/" + rest)
  {
    UsageBase();
    RewriteUnder(["internal", "admin", "usage"], USAGE, rest);
  }

  lemma RewriteUnder(base: seq<string>, prefix: string, rest: string)
    requires base != [] && AllPlain(base) && prefix == Print(base, true)
    ensures var p, tail := UsagePath(prefix, rest), Clean("/" + rest);
            && p == (if tail == "/" then prefix else prefix + tail)
            && AtOrBelow(p, prefix) && Clean(p) == p
            && (AllPlain(Split(rest, '/')) ==> p == prefix + "/" + rest)
  {
    RewriteValue(base, prefix, rest);
    if AllPlain(Split(rest, '/')) { PlainTail(rest); }
    Hangs(UsagePath(prefix, rest), prefix, Clean("/" + rest), rest);
  }

  lemma Hangs(p: string, prefix: string, tail: string, rest: string)
    requires Rooted(tail) && p == if tail == "/" then prefix else prefix + tail
    ensures AtOrBelow(p, prefix)
    ensures tail == "/" + rest && tail != "/" ==> p == prefix + "/" + rest
  {
    assert tail == "/" + tail[1..];
    assert prefix + "/" + tail[1..] == prefix + tail;
  }

  lemma RewriteValue(base: seq<string>, prefix: string, rest: string)
    requires base != [] && AllPlain(base) && prefix == Print(base, true)
    ensures var p, tail := UsagePath(prefix, rest), Clean("/" + rest);
            p == (if tail == "/" then prefix else prefix + tail) && Clean(p) == p
  {
    RewriteNames(base, rest);
    CleanTail(rest);
    var tail := Fold([], Split(rest, '/'), true);
    TailPrinted(base, tail);
    StackOfPrinted(base + tail, true);
  }

  lemma PlainTail(rest: string)
    requires AllPlain(Split(rest, '/'))
    ensures Clean("/" + rest) == "/" + rest != "/"
  {
    CleanTail(rest);
    FoldSettled([], Split(rest, '/'), true);
    assert [] + Split(rest, '/') == Split(rest, '/');
    JoinSplit(rest, '/');
    assert Plain(Split(rest, '/')[0]) && Split("", '/') == [""];
  }

  lemma TailPrinted(base: seq<string>, tail: seq<string>)
    requires base != [] && AllPlain(tail)
    ensures Print(base + tail, true)
            == if Print(tail, true) == "/" then Print(base, true) else Print(base, true) + Print(tail, true)
  {
    if tail == [] {
      assert base + tail == base;
    } else {
      PrintedBelow(base, tail);
      assert Join(tail, '/') != "" by { assert tail[0] <= Join(tail, '/'); }
    }
  }

  lemma JoinThree(a: string, b: string, c: string)
    ensures Print([a, b, c], true) == "/" + (a + "/" + (b + "/" + c))
  {
    assert [a, b, c][1..] == [b, c] && [b, c][1..] == [c];
    assert Join([b, c], '/') == b + "/" + c == b + ("/" + c);
    assert Join([a, b, c], '/') == a + "/" + (b + "/" + c);
  }

  lemma UsageBase()
    ensures Print(["internal", "admin", "usage"], true) == USAGE && AllPlain(["internal", "admin", "usage"])
  {
    var a, b, c := "internal", "admin", "usage";
    JoinThree(a, b, c);
    assert "/" + (a + "/" + (b + "/" + c)) == USAGE;
    assert Plain(a) && Plain(b) && Plain(c);
  }
}
